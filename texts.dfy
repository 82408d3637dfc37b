/** Facts about strings built by concatenation, shared by the two file-name formats. */
module Texts {

  /** Where the parts of `prefix + middle + "_" + stamp + suffix` lie. */
  lemma Fields(prefix: string, middle: string, stamp: string, suffix: string)
    ensures var s := prefix + middle + "_" + stamp + suffix;
      && |s| == |prefix| + |middle| + 1 + |stamp| + |suffix|
      && s[..|prefix|] == prefix
      && s[|prefix|..|prefix| + |middle|] == middle
      && s[|prefix| + |middle|] == '_'
      && s[|prefix| + |middle| + 1..|s| - |suffix|] == stamp
      && s[|s| - |suffix|..] == suffix
  {
  }
}
