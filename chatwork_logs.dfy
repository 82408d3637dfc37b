/**
 * The back end's `download_chatwork_logs` handler: it fetches a room's messages
 * from the Chatwork API, keeps the first `message_count` of them with Python
 * slice semantics, turns each message into a six-column row and answers with
 * a CSV attachment, or with status 500 when anything goes wrong.
 *
 * The upstream HTTP call is an input (what `requests.get` came back with), the
 * local-time formatting of message timestamps is a function parameter, and
 * `datetime.now()` is a parameter; the CSV text itself is not modelled.
 */
module ChatworkLogs {
  import opened Options
  import Texts

  const ChatworkRoomsUrl := "https://api.chatwork.com/v2/rooms/"
  const AttachmentPrefix := "chatwork_logs_"
  const DispositionPrefix := "attachment; filename="
  const DefaultMessageCount := 100

  /** A JSON value as `response.json()` returns it; `Null` is also Python's `None`. */
  datatype Json =
    | Null
    | Bool(b: bool)
    | Num(n: int)
    | Str(s: string)
    | Arr(items: seq<Json>)
    | Obj(fields: map<string, Json>)

  /** What the upstream `requests.get` came back with. */
  datatype Upstream =
    /** A reply: its status, its text, and its body as JSON (`None` when `response.json()` raised). */
    | Reply(status: int, text: string, json: Option<Json>)
    /** `requests.get` itself raised (connection refused, timeout, ...). */
    | Raised(reason: string)

  /** The exception that ends the handler's `try`, re-raised as status 500. */
  datatype Fault =
    | UpstreamStatus(status: int, text: string)
    | RequestFailed(reason: string)
    | BodyNotJson
    | NotSliceable
    | BadMessage(position: nat)
    /** The Content-Disposition header holds a character that Latin-1 cannot encode. */
    | HeaderNotLatin1

  /** One CSV row: the dict built for a message, one field per column, in column order. */
  datatype Row = Row(messageId: Json, accountId: Json, name: Json, body: Json, sendTime: Json, updateTime: Json)

  /** The request sent upstream: URL, headers and query parameters. */
  datatype UpstreamRequest = UpstreamRequest(url: string, headers: map<string, string>, params: map<string, int>)

  /** What the handler answers. */
  datatype Response =
    | Attachment(rows: seq<Row>, mediaType: string, fileName: string)
    | HttpError(status: int, fault: Fault)

  /** A local date and time as `datetime.now()` gives it. */
  datatype DateTime = DateTime(year: int, month: int, day: int, hour: int, minute: int, second: int) {
    predicate Valid() {
      && 1000 <= year <= 9999 && 1 <= month <= 12 && 1 <= day <= 31
      && 0 <= hour < 24 && 0 <= minute < 60 && 0 <= second < 60
    }
  }

  function Min(a: int, b: int): int { if a <= b then a else b }
  function Max(a: int, b: int): int { if a <= b then b else a }

  /** `message_count = Form(100)`: the count in effect when the form field is omitted. */
  function EffectiveCount(field: Option<int>): int {
    match field
    case Some(n) => n
    case None => DefaultMessageCount
  }

  /**
   * The Python slice `s[:k]`: a negative `k` counts from the end, and both
   * ends are clamped to the sequence.
   */
  function Truncate<T>(s: seq<T>, k: int): (r: seq<T>)
    ensures |r| <= |s| && r == s[..|r|]
    ensures k >= 0 ==> |r| == Min(k, |s|)
    ensures k < 0 ==> |r| == Max(0, |s| + k)
  {
    var stop := if k < 0 then |s| + k else k;
    s[..if stop < 0 then 0 else if stop > |s| then |s| else stop]
  }

  /** `d.get(key)`: the value under `key`, or `None`. */
  function Get(d: map<string, Json>, key: string): Json {
    if key in d then d[key] else Null
  }

  /**
   * The `send_time`/`update_time` cell: "" when the key is absent, else
   * `datetime.fromtimestamp(v).strftime(...)` as `format` gives it, which
   * raises (`None`) for a value that is not a number (a bool counts as 0 or 1)
   * or that `format` rejects.
   */
  function TimeCell(msg: map<string, Json>, key: string, format: int -> Option<string>): Option<Json> {
    if key !in msg then Some(Str(""))
    else
      var seconds := match msg[key]
        case Num(n) => Some(n)
        case Bool(b) => Some(if b then 1 else 0)
        case _ => None;
      match seconds
      case None => None
      case Some(n) =>
        match format(n)
        case None => None
        case Some(text) => Some(Str(text))
  }

  /**
   * The row built for one message, or `None` when building it raises: the
   * message is not a dict, its "account" is not a dict, or a timestamp cannot
   * be formatted.
   */
  function MessageRow(msg: Json, format: int -> Option<string>): (r: Option<Row>)
    ensures r.Some? ==> msg.Obj?
    ensures r.Some? ==> r.value.messageId == Get(msg.fields, "message_id") && r.value.body == Get(msg.fields, "body")
    ensures r.Some? && "account" !in msg.fields ==> r.value.accountId == Str("") && r.value.name == Str("")
    ensures r.Some? && "account" in msg.fields ==>
      && msg.fields["account"].Obj?
      && r.value.accountId == Get(msg.fields["account"].fields, "account_id")
      && r.value.name == Get(msg.fields["account"].fields, "name")
    ensures r.Some? ==> Some(r.value.sendTime) == TimeCell(msg.fields, "send_time", format)
    ensures r.Some? ==> Some(r.value.updateTime) == TimeCell(msg.fields, "update_time", format)
    ensures r.None? <==>
      || !msg.Obj?
      || ("account" in msg.fields && !msg.fields["account"].Obj?)
      || TimeCell(msg.fields, "send_time", format).None?
      || TimeCell(msg.fields, "update_time", format).None?
  {
    if !msg.Obj? then None
    else
      var m := msg.fields;
      var account := if "account" in m then m["account"] else Obj(map[]);
      if !account.Obj? then None
      else
        var absent := "account" !in m;
        var accountId := if absent then Str("") else Get(account.fields, "account_id");
        var name := if absent then Str("") else Get(account.fields, "name");
        match (TimeCell(m, "send_time", format), TimeCell(m, "update_time", format))
        case (Some(sent), Some(updated)) =>
          Some(Row(Get(m, "message_id"), accountId, name, Get(m, "body"), sent, updated))
        case _ => None
  }

  /**
   * The `csv_data` loop: one row per message, in order; it stops at the first
   * message whose row raises and reports its position.
   */
  method BuildRows(messages: seq<Json>, format: int -> Option<string>) returns (r: Result<seq<Row>, nat>)
    ensures r.Ok? <==> forall i :: 0 <= i < |messages| ==> MessageRow(messages[i], format).Some?
    ensures r.Ok? ==>
      && |r.value| == |messages|
      && forall i :: 0 <= i < |messages| ==> MessageRow(messages[i], format) == Some(r.value[i])
    ensures r.Err? ==>
      && r.error < |messages|
      && MessageRow(messages[r.error], format).None?
      && forall i :: 0 <= i < r.error ==> MessageRow(messages[i], format).Some?
  {
    var rows: seq<Row> := [];
    for i := 0 to |messages|
      invariant |rows| == i
      invariant forall j :: 0 <= j < i ==> MessageRow(messages[j], format) == Some(rows[j])
    {
      var row := MessageRow(messages[i], format);
      if row.None? {
        return Err(i);
      }
      rows := rows + [row.value];
    }
    return Ok(rows);
  }

  /**
   * `messages[:message_count]` on the decoded body: a list is sliced; a string
   * slices into one-character strings; anything else cannot be sliced.
   */
  function Kept(body: Json, count: int): Result<seq<Json>, Fault> {
    match body
    case Arr(items) => Ok(Truncate(items, count))
    case Str(s) => Ok(Truncate(seq(|s|, i requires 0 <= i < |s| => Str([s[i]])), count))
    case _ => Err(NotSliceable)
  }

  /** The messages the handler goes on to convert, or the fault that ends it before. */
  function Messages(reply: Upstream, count: int): Result<seq<Json>, Fault> {
    match reply
    case Raised(reason) => Err(RequestFailed(reason))
    case Reply(status, text, json) =>
      if status != 200 then Err(UpstreamStatus(status, text))
      else if json.None? then Err(BodyNotJson)
      else Kept(json.value, count)
  }

  /** The Chatwork messages request for a room, authenticated with the caller's token. */
  function ChatworkRequest(apiToken: string, roomId: string): UpstreamRequest {
    UpstreamRequest(ChatworkRoomsUrl + roomId + "/messages", map["X-ChatWorkToken" := apiToken], map["force" := 1])
  }

  /** `n` in exactly `width` decimal digits, zero-padded (the high digits of a larger `n` are lost). */
  function Padded(n: nat, width: nat): (s: string)
    ensures |s| == width
    ensures forall i :: 0 <= i < |s| ==> '0' <= s[i] <= '9'
  {
    if width == 0 then [] else Padded(n / 10, width - 1) + [('0' as int + n % 10) as char]
  }

  /** The number a string of decimal digits stands for. */
  function ReadDecimal(s: string): nat
    requires forall i :: 0 <= i < |s| ==> '0' <= s[i] <= '9'
  {
    if s == [] then 0 else ReadDecimal(s[..|s| - 1]) * 10 + (s[|s| - 1] as int - '0' as int)
  }

  function Power10(k: nat): (p: nat)
    ensures p >= 1
  {
    if k == 0 then 1 else 10 * Power10(k - 1)
  }

  /** `strftime('%Y%m%d%H%M%S')`. */
  function Stamp(t: DateTime): string
    requires t.Valid()
  {
    Padded(t.year, 4) + Padded(t.month, 2) + Padded(t.day, 2)
      + Padded(t.hour, 2) + Padded(t.minute, 2) + Padded(t.second, 2)
  }

  /** The attachment's file name for a room at time `now`. */
  function AttachmentName(roomId: string, now: DateTime): string
    requires now.Valid()
  {
    AttachmentPrefix + roomId + "_" + Stamp(now) + ".csv"
  }

  /** The Content-Disposition header's value for an attachment name. */
  function ContentDisposition(fileName: string): string {
    DispositionPrefix + fileName
  }

  /** Every character of `s` is encodable in Latin-1, as response header values must be. */
  predicate Latin1(s: string) {
    forall i :: 0 <= i < |s| ==> s[i] as int < 256
  }

  /**
   * A negative count drops the last `-k` messages (all of them when there are
   * no more than that), and keeps the others in order.
   */
  lemma TruncateNegative<T>(s: seq<T>, k: int)
    requires k < 0
    ensures Truncate(s, k) + s[|s| - Min(-k, |s|)..] == s
  {
  }

  /** A count at least as large as the list keeps every message. */
  lemma TruncateKeepsAll<T>(s: seq<T>, k: int)
    requires k >= |s|
    ensures Truncate(s, k) == s
  {
  }

  /** Zero-padding a number that fits in `width` digits reads back as the number. */
  lemma {:induction false} ReadPadded(n: nat, width: nat)
    requires n < Power10(width)
    ensures ReadDecimal(Padded(n, width)) == n
  {
    if width > 0 {
      var s := Padded(n, width);
      assert s[..|s| - 1] == Padded(n / 10, width - 1);
      ReadPadded(n / 10, width - 1);
    }
  }

  /** The 14-digit stamp reads back as the date and time it was made from. */
  lemma StampFields(t: DateTime)
    requires t.Valid()
    ensures var s := Stamp(t);
      && |s| == 14
      && (forall i :: 0 <= i < 14 ==> '0' <= s[i] <= '9')
      && ReadDecimal(s[..4]) == t.year && ReadDecimal(s[4..6]) == t.month
      && ReadDecimal(s[6..8]) == t.day && ReadDecimal(s[8..10]) == t.hour
      && ReadDecimal(s[10..12]) == t.minute && ReadDecimal(s[12..]) == t.second
  {
    var y, mo, d := Padded(t.year, 4), Padded(t.month, 2), Padded(t.day, 2);
    var h, mi, se := Padded(t.hour, 2), Padded(t.minute, 2), Padded(t.second, 2);
    assert Power10(2) == 100 && Power10(4) == 10000;
    ReadPadded(t.year, 4);
    ReadPadded(t.month, 2);
    ReadPadded(t.day, 2);
    ReadPadded(t.hour, 2);
    ReadPadded(t.minute, 2);
    ReadPadded(t.second, 2);
    SixFields(y, mo, d, h, mi, se);
  }

  /** Where the six fields of a stamp lie, and that a stamp made of digits is all digits. */
  lemma SixFields(y: string, mo: string, d: string, h: string, mi: string, se: string)
    requires |y| == 4 && |mo| == 2 && |d| == 2 && |h| == 2 && |mi| == 2 && |se| == 2
    requires forall i :: 0 <= i < 4 ==> '0' <= y[i] <= '9'
    requires forall i :: 0 <= i < 2 ==> '0' <= mo[i] <= '9' && '0' <= d[i] <= '9' && '0' <= h[i] <= '9'
    requires forall i :: 0 <= i < 2 ==> '0' <= mi[i] <= '9' && '0' <= se[i] <= '9'
    ensures var s := y + mo + d + h + mi + se;
      && |s| == 14
      && (forall i :: 0 <= i < 14 ==> '0' <= s[i] <= '9')
      && s[..4] == y && s[4..6] == mo && s[6..8] == d
      && s[8..10] == h && s[10..12] == mi && s[12..] == se
  {
    var s := y + mo + d + h + mi + se;
    forall i | 0 <= i < 14
      ensures '0' <= s[i] <= '9'
    {
      if i < 4 { assert s[i] == y[i]; }
      else if i < 6 { assert s[i] == mo[i - 4]; }
      else if i < 8 { assert s[i] == d[i - 6]; }
      else if i < 10 { assert s[i] == h[i - 8]; }
      else if i < 12 { assert s[i] == mi[i - 10]; }
      else { assert s[i] == se[i - 12]; }
    }
  }

  /** Two different times never give the same stamp. */
  lemma StampInjective(t1: DateTime, t2: DateTime)
    requires t1.Valid() && t2.Valid()
    requires Stamp(t1) == Stamp(t2)
    ensures t1 == t2
  {
    StampFields(t1);
    StampFields(t2);
  }

  /**
   * The attachment name is the fixed prefix, the room id verbatim, '_', the
   * 14-digit stamp and ".csv"; it determines both the room and the time.
   */
  lemma AttachmentNameFields(roomId: string, now: DateTime)
    requires now.Valid()
    ensures var name := AttachmentName(roomId, now);
      && |name| == |roomId| + 33
      && name[..14] == AttachmentPrefix
      && name[14..14 + |roomId|] == roomId
      && name[14 + |roomId|] == '_'
      && name[15 + |roomId|..29 + |roomId|] == Stamp(now)
      && name[29 + |roomId|..] == ".csv"
  {
    StampFields(now);
    assert |AttachmentPrefix| == 14;
    Texts.Fields(AttachmentPrefix, roomId, Stamp(now), ".csv");
  }

  lemma Latin1Append(a: string, b: string)
    ensures Latin1(a + b) <==> Latin1(a) && Latin1(b)
  {
    if Latin1(a + b) {
      assert forall i :: 0 <= i < |a| ==> (a + b)[i] == a[i];
      assert forall i :: 0 <= i < |b| ==> (a + b)[|a| + i] == b[i];
    }
  }

  /**
   * The header that carries the attachment name can be encoded exactly when
   * the room id can: everything else in it is ASCII.
   */
  lemma ContentDispositionEncodable(roomId: string, now: DateTime)
    requires now.Valid()
    ensures Latin1(ContentDisposition(AttachmentName(roomId, now))) <==> Latin1(roomId)
  {
    var stamp := Stamp(now);
    StampFields(now);
    assert Latin1(stamp);
    var csv, underscore := ".csv", "_";
    assert Latin1(DispositionPrefix) && Latin1(AttachmentPrefix) && Latin1(underscore) && Latin1(csv);
    Latin1Append(DispositionPrefix, AttachmentPrefix + roomId + underscore + stamp + csv);
    Latin1Append(AttachmentPrefix + roomId + underscore + stamp, csv);
    Latin1Append(AttachmentPrefix + roomId + underscore, stamp);
    Latin1Append(AttachmentPrefix + roomId, underscore);
    Latin1Append(AttachmentPrefix, roomId);
  }

  lemma AttachmentNameInjective(room1: string, now1: DateTime, room2: string, now2: DateTime)
    requires now1.Valid() && now2.Valid()
    requires AttachmentName(room1, now1) == AttachmentName(room2, now2)
    ensures room1 == room2 && now1 == now2
  {
    AttachmentNameFields(room1, now1);
    AttachmentNameFields(room2, now2);
    StampInjective(now1, now2);
  }

  /**
   * The upstream request goes to the room's messages URL with the room id
   * inserted verbatim, carries the token in `X-ChatWorkToken` and asks for
   * `force=1`.
   */
  lemma ChatworkRequestFields(apiToken: string, roomId: string)
    ensures var req := ChatworkRequest(apiToken, roomId);
      && req.url[..|ChatworkRoomsUrl|] == ChatworkRoomsUrl
      && req.url[|ChatworkRoomsUrl|..|ChatworkRoomsUrl| + |roomId|] == roomId
      && req.url[|ChatworkRoomsUrl| + |roomId|..] == "/messages"
      && req.headers == map["X-ChatWorkToken" := apiToken]
      && req.params == map["force" := 1]
  {
  }

  /**
   * `download_chatwork_logs(api_token, room_id, message_count)`. `reply` is what
   * the upstream request came back with, `format` formats message timestamps
   * and `now` is the time the file is named after.
   */
  method DownloadChatworkLogs(apiToken: string, roomId: string, messageCountField: Option<int>,
                              reply: Upstream, format: int -> Option<string>, now: DateTime)
    returns (request: UpstreamRequest, response: Response)
    requires now.Valid()
    ensures request == ChatworkRequest(apiToken, roomId)
    ensures response.HttpError? ==> response.status == 500
    ensures Messages(reply, EffectiveCount(messageCountField)).Err? ==>
      response == HttpError(500, Messages(reply, EffectiveCount(messageCountField)).error)
    ensures Messages(reply, EffectiveCount(messageCountField)).Ok? ==>
      var kept := Messages(reply, EffectiveCount(messageCountField)).value;
      && (response.Attachment? <==>
            (forall i :: 0 <= i < |kept| ==> MessageRow(kept[i], format).Some?) && Latin1(roomId))
      && (response.Attachment? ==>
            && |response.rows| == |kept|
            && (forall i :: 0 <= i < |kept| ==> MessageRow(kept[i], format) == Some(response.rows[i]))
            && response.mediaType == "text/csv"
            && response.fileName == AttachmentName(roomId, now))
      && ((forall i :: 0 <= i < |kept| ==> MessageRow(kept[i], format).Some?) && !Latin1(roomId) ==>
            response == HttpError(500, HeaderNotLatin1))
      && (!(forall i :: 0 <= i < |kept| ==> MessageRow(kept[i], format).Some?) ==>
            exists i :: 0 <= i < |kept| && response == HttpError(500, BadMessage(i)))
  {
    request := ChatworkRequest(apiToken, roomId);
    var count := EffectiveCount(messageCountField);
    var messages := Messages(reply, count);
    if messages.Err? {
      return request, HttpError(500, messages.error);
    }
    var rows := BuildRows(messages.value, format);
    match rows {
      case Err(i) =>
        response := HttpError(500, BadMessage(i));
      case Ok(built) =>
        var name := AttachmentName(roomId, now);
        ContentDispositionEncodable(roomId, now);
        if Latin1(ContentDisposition(name)) {
          response := Attachment(built, "text/csv", name);
        } else {
          response := HttpError(500, HeaderNotLatin1);
        }
    }
  }
}
