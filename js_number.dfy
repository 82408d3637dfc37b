/**
 * The two JavaScript number conversions the download form relies on:
 * the global `parseInt` called with a single argument (ECMAScript 2024,
 * section 19.2.5), and `String(n)` for an integral Number (section 6.1.6.1.20),
 * which is also what `FormData.append` does to a number.
 *
 * Numbers are modelled as exact integers: the rounding of values beyond
 * 2^53 and the exponent notation of String(n) for |n| >= 10^21 are not modelled.
 */
module JsNumber {

  /** A Number as `parseInt` can return it: NaN, or an integer. */
  datatype Parsed = NaN | Int(value: int)

  /** StrWhiteSpaceChar: a WhiteSpace or LineTerminator code point (sections 12.2 and 12.3). */
  predicate IsStrWhiteSpace(c: char) {
    if c <= ' ' then
      c == ' ' || c == '\t' || c == '\n' || c == '\U{000B}' || c == '\U{000C}' || c == '\r'
    else if c < '\U{00A0}' then false
    else
      || c == '\U{00A0}' || c == '\U{1680}' || ('\U{2000}' <= c <= '\U{200A}')
      || c == '\U{2028}' || c == '\U{2029}' || c == '\U{202F}' || c == '\U{205F}'
      || c == '\U{3000}' || c == '\U{FEFF}'
  }

  /** `s` without its leading white space (the first step of `parseInt`). */
  function TrimStart(s: string): (r: string)
    ensures |r| <= |s| && r == s[|s| - |r|..]
    ensures forall i :: 0 <= i < |s| - |r| ==> IsStrWhiteSpace(s[i])
    ensures r == [] || !IsStrWhiteSpace(r[0])
  {
    if s != [] && IsStrWhiteSpace(s[0]) then TrimStart(s[1..]) else s
  }

  /** The value of `c` as a digit of a radix up to 36, or 36 when `c` is not a digit at all. */
  function DigitValue(c: char): (d: nat)
    ensures d <= 36
    ensures d < 10 <==> '0' <= c <= '9'
  {
    if '0' <= c <= '9' then c as int - '0' as int
    else if 'a' <= c <= 'z' then c as int - 'a' as int + 10
    else if 'A' <= c <= 'Z' then c as int - 'A' as int + 10
    else 36
  }

  predicate IsDigit(c: char, radix: nat) {
    DigitValue(c) < radix
  }

  predicate AllDigits(s: string, radix: nat) {
    forall i :: 0 <= i < |s| ==> IsDigit(s[i], radix)
  }

  /** Length of the longest prefix of `s` made of digits of `radix`. */
  function DigitRun(s: string, radix: nat): (n: nat)
    ensures n <= |s| && AllDigits(s[..n], radix)
    ensures n == |s| || !IsDigit(s[n], radix)
  {
    if s != [] && IsDigit(s[0], radix) then
      var n := 1 + DigitRun(s[1..], radix);
      assert forall i :: 1 <= i < n ==> s[..n][i] == s[1..][..n - 1][i - 1];
      n
    else 0
  }

  /** The value of a string of digits of `radix`, most significant digit first. */
  function DigitsValue(ds: string, radix: nat): nat
    requires AllDigits(ds, radix)
  {
    if ds == [] then 0
    else DigitsValue(ds[..|ds| - 1], radix) * radix + DigitValue(ds[|ds| - 1])
  }

  /**
   * The digits `parseInt` reads after the sign: a `0x`/`0X` prefix selects radix
   * 16 (radix 10 otherwise), then the longest run of digits is read; there is no
   * number when that run is empty.
   */
  function Magnitude(u: string): (r: Parsed)
    ensures r.Int? ==> r.value >= 0
    ensures !HexPrefixed(u) ==> (r.NaN? <==> u == [] || !IsDigit(u[0], 10))
    ensures HexPrefixed(u) ==> (r.NaN? <==> |u| == 2 || !IsDigit(u[2], 16))
  {
    var hex := HexPrefixed(u);
    var radix := if hex then 16 else 10;
    var body := if hex then u[2..] else u;
    var n := DigitRun(body, radix);
    if n == 0 then NaN else Int(DigitsValue(body[..n], radix))
  }

  /** `u` starts with `0x` or `0X`. */
  predicate HexPrefixed(u: string) {
    |u| >= 2 && u[0] == '0' && (u[1] == 'x' || u[1] == 'X')
  }

  /** `parseInt(input)` with no radix: skip leading white space, then read a signed number. */
  function ParseInt(input: string): Parsed {
    Signed(TrimStart(input))
  }

  /** What `parseInt` reads once the white space is gone: an optional sign, then the magnitude. */
  function Signed(s: string): Parsed {
    var negative := s != [] && s[0] == '-';
    var unsigned := if s != [] && (s[0] == '-' || s[0] == '+') then s[1..] else s;
    match Magnitude(unsigned)
    case NaN => NaN
    case Int(v) => Int(if negative then -v else v)
  }

  /** The decimal digits of `n`, without leading zeros. */
  function Decimal(n: nat): (s: string)
    ensures |s| >= 1 && AllDigits(s, 10)
    ensures s[0] == '0' <==> n == 0
  {
    if n < 10 then [('0' as int + n) as char]
    else Decimal(n / 10) + [('0' as int + n % 10) as char]
  }

  /** `String(n)` for an integral Number `n`. */
  function NumberToString(n: int): string {
    if n < 0 then "-" + Decimal(-n) else Decimal(n)
  }

  lemma {:induction false} DecimalValue(n: nat)
    ensures DigitsValue(Decimal(n), 10) == n
  {
    if n >= 10 {
      var s := Decimal(n);
      assert s[..|s| - 1] == Decimal(n / 10);
      DecimalValue(n / 10);
    }
  }

  /** A run of digits followed by a non-digit (or by nothing) is read up to its end. */
  lemma {:induction false} DigitRunStopsAt(a: string, b: string, radix: nat)
    requires AllDigits(a, radix)
    requires b == [] || !IsDigit(b[0], radix)
    ensures DigitRun(a + b, radix) == |a|
  {
    if a != [] {
      assert (a + b)[1..] == a[1..] + b;
      DigitRunStopsAt(a[1..], b, radix);
    }
  }

  /**
   * `parseInt` reads back what `String(n)` wrote, whatever follows it, unless
   * what follows is a digit, or `n` is 0 and what follows makes a `0x` prefix.
   */
  lemma ParseIntAfterNumberToString(n: int, tail: string)
    requires tail == [] || !IsDigit(tail[0], 10)
    requires n == 0 && tail != [] ==> tail[0] != 'x' && tail[0] != 'X'
    ensures ParseInt(NumberToString(n) + tail) == Int(n)
  {
    var m := if n < 0 then -n else n;
    var digits := Decimal(m);
    var u := digits + tail;
    MagnitudeOfDecimal(m, tail);
    assert u[0] == digits[0];
    if n < 0 {
      var minus := "-";
      assert NumberToString(n) == minus + digits;
      assert (minus + digits) + tail == minus + u;
      ParseIntNegative(u);
    } else {
      assert NumberToString(n) == digits;
      ParseIntUnsigned(u);
    }
  }

  /** Text that starts with a digit is read by `parseInt` with no sign. */
  lemma ParseIntUnsigned(u: string)
    requires u != [] && '0' <= u[0] <= '9'
    ensures ParseInt(u) == Magnitude(u)
  {
    assert !IsStrWhiteSpace(u[0]);
    assert TrimStart(u) == u;
  }

  /** A minus sign followed by a digit negates what the digits read as. */
  lemma ParseIntNegative(u: string)
    requires u != [] && '0' <= u[0] <= '9'
    ensures Magnitude(u).Int? ==> ParseInt("-" + u) == Int(-Magnitude(u).value)
  {
    var s := "-" + u;
    assert !IsStrWhiteSpace(s[0]);
    assert TrimStart(s) == s;
    assert s[1..] == u;
  }

  lemma MagnitudeOfDecimal(m: nat, tail: string)
    requires tail == [] || !IsDigit(tail[0], 10)
    requires m == 0 && tail != [] ==> tail[0] != 'x' && tail[0] != 'X'
    ensures Magnitude(Decimal(m) + tail) == Int(m)
  {
    var digits := Decimal(m);
    var u := digits + tail;
    assert !(|u| >= 2 && u[0] == '0' && (u[1] == 'x' || u[1] == 'X')) by {
      if m != 0 {
        assert u[0] == digits[0];
      } else {
        assert |digits| == 1;
      }
    }
    DigitRunStopsAt(digits, tail, 10);
    assert u[..|digits|] == digits;
    DecimalValue(m);
  }

  /** After `0x` or `0X`, a run of hexadecimal digits is read in radix 16 up to its end. */
  lemma MagnitudeOfHex(x: char, ds: string, tail: string)
    requires x == 'x' || x == 'X'
    requires ds != [] && AllDigits(ds, 16)
    requires tail == [] || !IsDigit(tail[0], 16)
    ensures Magnitude(['0', x] + ds + tail) == Int(DigitsValue(ds, 16))
  {
    var u := ['0', x] + ds + tail;
    assert HexPrefixed(u);
    assert u[2..] == ds + tail;
    DigitRunStopsAt(ds, tail, 16);
    assert (ds + tail)[..|ds|] == ds;
  }

  /** Leading white space is dropped up to the first character that is not white space. */
  lemma {:induction false} TrimStartSkips(w: string, s: string)
    requires forall i :: 0 <= i < |w| ==> IsStrWhiteSpace(w[i])
    requires s == [] || !IsStrWhiteSpace(s[0])
    ensures TrimStart(w + s) == s
  {
    if w == [] {
      assert w + s == s;
    } else {
      assert (w + s)[0] == w[0] && (w + s)[1..] == w[1..] + s;
      TrimStartSkips(w[1..], s);
    }
  }

  /** `u` starts with neither white space nor a sign, so `parseInt` reads its magnitude straight away. */
  predicate Unsigned(u: string) {
    u == [] || (!IsStrWhiteSpace(u[0]) && u[0] != '+' && u[0] != '-')
  }

  /** Leading white space does not change what `parseInt` reads. */
  lemma ParseIntAfterSpace(w: string, s: string)
    requires forall i :: 0 <= i < |w| ==> IsStrWhiteSpace(w[i])
    requires s == [] || !IsStrWhiteSpace(s[0])
    ensures ParseInt(w + s) == Signed(s)
  {
    TrimStartSkips(w, s);
  }

  /** A '+' keeps what the rest reads as. */
  lemma SignedPlus(u: string)
    ensures Signed("+" + u) == Magnitude(u)
  {
    assert ("+" + u)[1..] == u;
  }

  /** A '-' negates what the rest reads as, and leaves NaN as NaN. */
  lemma SignedMinus(u: string)
    ensures Signed("-" + u) == match Magnitude(u) case NaN => NaN case Int(v) => Int(-v)
  {
    assert ("-" + u)[1..] == u;
  }

  /**
   * `parseInt` skips leading white space, then a '+' keeps and a '-' negates
   * what the rest reads as, and no number after the sign gives NaN. With no
   * sign, the rest is read as it stands.
   */
  lemma ParseIntSkipsSpaceAndSign(w: string, u: string)
    requires forall i :: 0 <= i < |w| ==> IsStrWhiteSpace(w[i])
    ensures ParseInt(w + "+" + u) == Magnitude(u)
    ensures ParseInt(w + "-" + u) == match Magnitude(u) case NaN => NaN case Int(v) => Int(-v)
    ensures Unsigned(u) ==> ParseInt(w + u) == Magnitude(u)
  {
    var plus, minus := "+", "-";
    assert w + plus + u == w + (plus + u) && w + minus + u == w + (minus + u);
    ParseIntAfterSpace(w, plus + u);
    SignedPlus(u);
    ParseIntAfterSpace(w, minus + u);
    SignedMinus(u);
    if Unsigned(u) {
      ParseIntAfterSpace(w, u);
    }
  }

  /** Reading back what `String(n)` wrote gives `n` again. */
  lemma ParseIntNumberToString(n: int)
    ensures ParseInt(NumberToString(n)) == Int(n)
  {
    ParseIntAfterNumberToString(n, []);
    assert NumberToString(n) + [] == NumberToString(n);
  }

  /** `String(n)` never writes the same text for two different integers. */
  lemma NumberToStringInjective(m: int, n: int)
    requires NumberToString(m) == NumberToString(n)
    ensures m == n
  {
    ParseIntNumberToString(m);
    ParseIntNumberToString(n);
  }

  /** `String(n)` is made only of decimal digits and a leading minus sign. */
  lemma NumberToStringCharacters(n: int)
    ensures forall i :: 0 <= i < |NumberToString(n)| ==> NumberToString(n)[i] == '-' || '0' <= NumberToString(n)[i] <= '9'
  {
  }
}
