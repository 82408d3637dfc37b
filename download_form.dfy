/**
 * The `Home` component of the front end: the download form's state, its three
 * input handlers and its submit handler, with the network reply and the clock
 * given as inputs and the browser's effects (the POST and the file save)
 * recorded in ghost logs.
 */
module DownloadForm {
  import opened JsNumber
  import Texts

  const TokenMissing := "APIトークンを入力してください"
  const RoomMissing := "ルームIDを入力してください"
  const NoResponseText := "サーバーから応答がありませんでした"
  const ClientErrorText := "ダウンロード中にエラーが発生しました"
  const ResponseErrorPrefix := "エラー: "
  const FileNamePrefix := "chatwork_logs_"
  const CsvType := "text/csv"
  const DefaultMessageCount := 100

  /**
   * How the POST ended. `ResponseError` is a reply with a non-success status;
   * `serializedBody` is the text `JSON.stringify` made of its data. `NoResponse`
   * is a request that was sent but got no reply; `ClientError` is a request
   * that could not be sent, or any other exception in the handler's `try`.
   */
  datatype Outcome =
    | Success(data: seq<bv8>)
    | ResponseError(status: int, serializedBody: string)
    | NoResponse
    | ClientError

  /** The form POST: its URL and its fields, in the order they are appended. */
  datatype Request = Request(url: string, fields: seq<(string, string)>)

  /** A request as it went out, with the values `loading` and `error` had meanwhile. */
  datatype Dispatch = Dispatch(request: Request, loading: bool, error: string)

  /** A file save: the bytes, their MIME type and the suggested file name. */
  datatype Save = Save(data: seq<bv8>, mimeType: string, fileName: string)

  /** The count stored for the text typed into the count field: `parseInt(raw) || 1`. */
  function CoerceCount(raw: string): (r: int)
    ensures r != 0
    ensures ParseInt(raw).Int? && ParseInt(raw).value != 0 ==> r == ParseInt(raw).value
    ensures ParseInt(raw) == NaN || ParseInt(raw) == Int(0) ==> r == 1
  {
    match ParseInt(raw)
    case NaN => 1
    case Int(v) => if v == 0 then 1 else v
  }

  /** `s` with every ':' removed (`s.replace(/:/g, "")`). */
  function StripColons(s: string): (r: string)
    ensures ':' !in r
    ensures multiset(r) == multiset(s)[':' := 0]
    ensures ':' !in s ==> r == s
  {
    if s == [] then []
    else
      assert s == [s[0]] + s[1..];
      if s[0] == ':' then StripColons(s[1..]) else [s[0]] + StripColons(s[1..])
  }

  /** The suggested name of the saved file, for a room and an ISO-8601 timestamp. */
  function FileName(roomId: string, isoTimestamp: string): string {
    FileNamePrefix + roomId + "_" + StripColons(isoTimestamp) + ".csv"
  }

  /** The message shown for a failed download. */
  function ErrorText(outcome: Outcome): string
    requires !outcome.Success?
  {
    match outcome
    case ResponseError(status, body) => ResponseErrorPrefix + NumberToString(status) + " - " + body
    case NoResponse => NoResponseText
    case ClientError => ClientErrorText
  }

  /** The POST to the back end's download endpoint, with the form fields as strings. */
  function DownloadRequest(api: string, apiToken: string, roomId: string, messageCount: int): Request {
    Request(api + "/chatwork/download",
            [("api_token", apiToken), ("room_id", roomId), ("message_count", NumberToString(messageCount))])
  }

  /**
   * The text `String(n)` is stored as `n`, or as 1 for zero: there is no upper
   * bound ("5000" stores 5000, as the field's `max` is not enforced) and no lower
   * bound but 1 replacing 0 ("-5" stores -5; "0" is falsy and stores 1).
   */
  lemma CoerceCountOf(n: int, text: string)
    requires text == NumberToString(n)
    ensures CoerceCount(text) == if n == 0 then 1 else n
  {
    ParseIntNumberToString(n);
  }

  /**
   * Reading stops at the first character that is not a digit: "12abc", or
   * "12" followed by anything else that does not continue the number, stores 12,
   * and "0abc" stores 1 (only an 'x' after a lone 0 continues the number).
   */
  lemma CoerceCountReadsLeadingDigits(n: int, tail: string)
    requires tail == [] || !('0' <= tail[0] <= '9')
    requires n == 0 && tail != [] ==> tail[0] != 'x' && tail[0] != 'X'
    ensures CoerceCount(NumberToString(n) + tail) == if n == 0 then 1 else n
  {
    ParseIntAfterNumberToString(n, tail);
  }

  /**
   * Leading white space is skipped and a sign applies to the number after it:
   * " 12" and "+12" store 12, " -12" stores -12, and a sign with no digits
   * after it, as in "-" or "-abc", stores 1.
   */
  lemma CoerceCountAfterSpaceAndSign(w: string, u: string)
    requires forall i :: 0 <= i < |w| ==> IsStrWhiteSpace(w[i])
    ensures Magnitude(u) == NaN || Magnitude(u) == Int(0) ==>
      && CoerceCount(w + "+" + u) == 1 && CoerceCount(w + "-" + u) == 1
      && (Unsigned(u) ==> CoerceCount(w + u) == 1)
    ensures Magnitude(u).Int? && Magnitude(u).value != 0 ==>
      && CoerceCount(w + "+" + u) == Magnitude(u).value && CoerceCount(w + "-" + u) == -Magnitude(u).value
      && (Unsigned(u) ==> CoerceCount(w + u) == Magnitude(u).value)
  {
    ParseIntSkipsSpaceAndSign(w, u);
  }

  /**
   * Text with no digits to read stores 1: the empty field, or text such as
   * "abc" that starts with neither white space, a sign nor a digit.
   */
  lemma CoerceCountWithoutDigitsIsOne(raw: string)
    requires raw == [] || (!IsStrWhiteSpace(raw[0]) && raw[0] != '-' && raw[0] != '+' && !('0' <= raw[0] <= '9'))
    ensures CoerceCount(raw) == 1
  {
    assert TrimStart(raw) == raw;
    assert raw != [] ==> DigitRun(raw, 10) == 0;
  }

  /**
   * The field shows the stored count (`value={messageCount}`); handing that
   * text back to the change handler stores the same count again.
   */
  lemma CoerceCountStable(raw: string)
    ensures CoerceCount(NumberToString(CoerceCount(raw))) == CoerceCount(raw)
  {
    ParseIntNumberToString(CoerceCount(raw));
  }

  lemma {:induction false} StripColonsAppend(a: string, b: string)
    ensures StripColons(a + b) == StripColons(a) + StripColons(b)
  {
    if a == [] {
      assert a + b == b;
    } else {
      assert (a + b)[0] == a[0] && (a + b)[1..] == a[1..] + b;
      StripColonsAppend(a[1..], b);
    }
  }

  /**
   * The file name splits back into its parts: the fixed prefix, the room id
   * verbatim, an underscore, the timestamp with no ':' left, and ".csv".
   */
  lemma FileNameFields(roomId: string, isoTimestamp: string)
    ensures var name := FileName(roomId, isoTimestamp);
      var stamp := StripColons(isoTimestamp);
      && |name| == |FileNamePrefix| + |roomId| + 1 + |stamp| + 4
      && name[..14] == FileNamePrefix
      && name[14..14 + |roomId|] == roomId
      && name[14 + |roomId|] == '_'
      && name[15 + |roomId|..|name| - 4] == stamp
      && ':' !in name[15 + |roomId|..|name| - 4]
      && name[|name| - 4..] == ".csv"
  {
    var stamp := StripColons(isoTimestamp);
    assert |FileNamePrefix| == 14;
    Texts.Fields(FileNamePrefix, roomId, stamp, ".csv");
  }

  /** For one timestamp, different rooms never get the same file name. */
  lemma FileNameInjective(room1: string, room2: string, isoTimestamp: string)
    requires FileName(room1, isoTimestamp) == FileName(room2, isoTimestamp)
    ensures room1 == room2
  {
    FileNameFields(room1, isoTimestamp);
    FileNameFields(room2, isoTimestamp);
  }

  /**
   * An ISO-8601 timestamp `date T hh:mm:ss.sssZ` holds two colons; both are
   * dropped, not replaced, so "2024-01-01T00:00:00.000Z" becomes
   * "2024-01-01T000000.000Z" in the file name.
   */
  lemma FileNameDropsColons(roomId: string, a: string, b: string, c: string)
    requires ':' !in a && ':' !in b && ':' !in c
    ensures FileName(roomId, a + ":" + b + ":" + c) == FileNamePrefix + roomId + "_" + (a + b + c) + ".csv"
  {
    StripTwoColons(a, b, c);
  }

  lemma StripTwoColons(a: string, b: string, c: string)
    requires ':' !in a && ':' !in b && ':' !in c
    ensures StripColons(a + ":" + b + ":" + c) == a + b + c
  {
    var colon := ":";
    assert StripColons(colon) == [];
    StripColonsAppend(a, colon);
    assert StripColons(a + colon) == a;
    StripColonsAppend(a + colon, b);
    assert StripColons(a + colon + b) == a + b;
    StripColonsAppend(a + colon + b, colon);
    assert StripColons(a + colon + b + colon) == a + b;
    StripColonsAppend(a + colon + b + colon, c);
  }

  /** The shown message tells every failure apart: equal texts come from equal outcomes. */
  lemma ErrorTextInjective(o1: Outcome, o2: Outcome)
    requires !o1.Success? && !o2.Success?
    requires ErrorText(o1) == ErrorText(o2)
    ensures o1 == o2
  {
    var t := ErrorText(o1);
    if o1.ResponseError? || o2.ResponseError? {
      assert t[0] == 'エ';
      assert o1.ResponseError? && o2.ResponseError? by {
        assert NoResponseText[0] != 'エ' && ClientErrorText[0] != 'エ';
      }
      ResponseTextSplits(o1.status, o1.serializedBody, o2.status, o2.serializedBody);
    } else {
      assert NoResponseText[0] != ClientErrorText[0];
    }
  }

  lemma ResponseTextSplits(s1: int, b1: string, s2: int, b2: string)
    requires ErrorText(ResponseError(s1, b1)) == ErrorText(ResponseError(s2, b2))
    ensures s1 == s2 && b1 == b2
  {
    var p := ResponseErrorPrefix;
    var a1, a2 := NumberToString(s1), NumberToString(s2);
    var t := p + a1 + " - " + b1;
    assert t == p + a2 + " - " + b2;
    NumberToStringCharacters(s1);
    NumberToStringCharacters(s2);
    // the ' ' that ends each status text would fall inside the longer of the two
    assert t[|p| + |a1|] == ' ' && t[|p| + |a2|] == ' ';
    assert |a1| == |a2|;
    assert a1 == t[|p|..|p| + |a1|];
    assert a2 == t[|p|..|p| + |a2|];
    NumberToStringInjective(s1, s2);
    assert b1 == t[|p| + |a1| + 3..];
    assert b2 == t[|p| + |a2| + 3..];
  }

  /** A failure's message is never empty (so it is shown) and never a validation message. */
  lemma ErrorTextIsFailureMessage(o: Outcome)
    requires !o.Success?
    ensures ErrorText(o) != "" && ErrorText(o) != TokenMissing && ErrorText(o) != RoomMissing
  {
    var t := ErrorText(o);
    assert t[0] != TokenMissing[0] && t[0] != RoomMissing[0];
  }

  class Home {
    /** The back end's API base, `${BACKEND_URL}/api`. */
    const api: string
    var apiToken: string
    var roomId: string
    var messageCount: int
    var loading: bool
    var error: string
    /** Every POST issued, in order. */
    ghost var dispatched: seq<Dispatch>
    /** Every file save triggered, in order. */
    ghost var saves: seq<Save>

    /** Between two handler calls: no request in flight, a non-zero count, no save without its request. */
    ghost predicate Valid()
      reads this
    {
      !loading && messageCount != 0 && |saves| <= |dispatched|
    }

    constructor (backendUrl: string)
      ensures Valid()
      ensures api == backendUrl + "/api"
      ensures apiToken == "" && roomId == "" && messageCount == DefaultMessageCount
      ensures !loading && error == ""
      ensures dispatched == [] && saves == []
    {
      api := backendUrl + "/api";
      apiToken, roomId, messageCount := "", "", DefaultMessageCount;
      loading, error := false, "";
      dispatched, saves := [], [];
    }

    method HandleApiTokenChange(value: string)
      requires Valid()
      modifies this
      ensures Valid()
      ensures apiToken == value
      ensures roomId == old(roomId) && messageCount == old(messageCount)
      ensures loading == old(loading) && error == old(error)
      ensures dispatched == old(dispatched) && saves == old(saves)
    {
      apiToken := value;
    }

    method HandleRoomIdChange(value: string)
      requires Valid()
      modifies this
      ensures Valid()
      ensures roomId == value
      ensures apiToken == old(apiToken) && messageCount == old(messageCount)
      ensures loading == old(loading) && error == old(error)
      ensures dispatched == old(dispatched) && saves == old(saves)
    {
      roomId := value;
    }

    method HandleMessageCountChange(value: string)
      requires Valid()
      modifies this
      ensures Valid()
      ensures messageCount == CoerceCount(value)
      ensures apiToken == old(apiToken) && roomId == old(roomId)
      ensures loading == old(loading) && error == old(error)
      ensures dispatched == old(dispatched) && saves == old(saves)
    {
      messageCount := CoerceCount(value);
    }

    /**
     * Submitting the form. `outcome` is how the POST ends, should it be issued;
     * `isoTimestamp` is `new Date().toISOString()` at the time of the save.
     */
    method HandleDownload(outcome: Outcome, isoTimestamp: string)
      requires Valid()
      modifies this
      ensures Valid()
      ensures apiToken == old(apiToken) && roomId == old(roomId) && messageCount == old(messageCount)
      ensures old(apiToken) == "" ==>
        error == TokenMissing && dispatched == old(dispatched) && saves == old(saves)
      ensures old(apiToken) != "" && old(roomId) == "" ==>
        error == RoomMissing && dispatched == old(dispatched) && saves == old(saves)
      ensures old(apiToken) != "" && old(roomId) != "" ==>
        && dispatched == old(dispatched) + [Dispatch(DownloadRequest(api, apiToken, roomId, messageCount), true, "")]
        && (outcome.Success? ==>
              error == "" && saves == old(saves) + [Save(outcome.data, CsvType, FileName(roomId, isoTimestamp))])
        && (!outcome.Success? ==> error == ErrorText(outcome) && saves == old(saves))
    {
      if apiToken == "" {
        error := TokenMissing;
        return;
      }
      if roomId == "" {
        error := RoomMissing;
        return;
      }
      loading := true;
      error := "";
      dispatched := dispatched + [Dispatch(DownloadRequest(api, apiToken, roomId, messageCount), loading, error)];
      match outcome {
        case Success(data) =>
          saves := saves + [Save(data, CsvType, FileName(roomId, isoTimestamp))];
        case _ =>
          error := ErrorText(outcome);
      }
      loading := false;
    }
  }

  /**
   * A session with the form: two rejected submits, a download, then a refused
   * token. Everything asserted follows from the handlers' contracts alone.
   */
  method FormSession(backendUrl: string, csv: seq<bv8>, isoTimestamp: string)
  {
    var home := new Home(backendUrl);
    home.HandleDownload(ClientError, isoTimestamp);
    assert home.error == TokenMissing && home.dispatched == [];
    home.HandleApiTokenChange("tok");
    home.HandleDownload(ClientError, isoTimestamp);
    assert home.error == RoomMissing && home.dispatched == [];
    home.HandleRoomIdChange("999");
    home.HandleDownload(Success(csv), isoTimestamp);
    assert home.error == "" && !home.loading;
    assert home.saves == [Save(csv, CsvType, FileName("999", isoTimestamp))];
    assert |home.dispatched| == 1 && home.dispatched[0].loading;
    home.HandleDownload(ResponseError(403, "{}"), isoTimestamp);
    assert home.error == ErrorText(ResponseError(403, "{}")) && !home.loading;
    assert |home.saves| == 1 && |home.dispatched| == 2;
  }
}
