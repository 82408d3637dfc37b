# Chatwork log downloader — verified model

The chatwork-log repository is a thin web client. A React form collects a
Chatwork API token, a room id and a message count. It POSTs them to a FastAPI
back end, which fetches the room's messages from the Chatwork API and answers
with a CSV attachment. The browser then saves that reply as a file. This project
models the two pieces of decision logic in that path, in Dafny:

- **The download form** (`Home` in `frontend/src/App.js`), module `DownloadForm`.
  It is a class `Home` with the component's five state fields: `apiToken`,
  `roomId`, `messageCount`, `loading` and `error`. It also has the three input
  handlers and the submit handler `HandleDownload`. The browser's effects are
  recorded in two ghost logs: `dispatched` holds every POST issued, and `saves`
  holds every file save triggered. The network result and the clock are inputs
  to `HandleDownload`. Pure helpers give the stored count (`CoerceCount`), the
  saved file's name (`FileName`) and the error message (`ErrorText`).
- **The JavaScript conversions the form relies on**, module `JsNumber`: one-argument
  `parseInt` (white space, sign, `0x` prefix, longest digit run, NaN) and
  `String(n)` for integers, which `FormData.append` and the error message use.
- **The back-end handler** (`download_chatwork_logs` in `backend/server.py`),
  module `ChatworkLogs`. It covers the upstream request, the status check, the
  Python slice `messages[:message_count]` (negative counts included), the
  six-column row per message built in a loop (`BuildRows`), the routing of every
  failure to status 500, and the attachment's file name. That name goes into a
  response header, which only carries Latin-1 text: a room id with any other
  character makes the handler answer 500 as well.
- Module `Options` holds the `Option` and `Result` types the others share, and
  module `Texts` a fact about where the parts of a concatenated file name lie.

Where the documented design and the code differ, the model follows the code:

- The count is `parseInt(value) || 1`. That replaces only NaN and 0 by 1. A
  negative count such as "-5" is stored as -5, so the stored count is non-zero
  but not always positive. The `min`/`max` of the number field are not enforced
  either.
- The file name's timestamp is `toISOString()` with its colons *removed*, not
  replaced. So "2024-01-01T00:00:00.000Z" gives `chatwork_logs_12345_2024-01-01T000000.000Z.csv`.
  `FileNameDropsColons` states this.
- A submit that fails validation leaves `loading` as it was. It does not reset it.
  Between handler calls `loading` is always false, which `Home.Valid` records.

## Model

| member | source | states |
|---|---|---|
| `JsNumber.TrimStart` | frontend/src/App.js:28 | `parseInt` first drops exactly the leading StrWhiteSpace characters: what is left is a suffix that does not start with white space, and everything dropped was white space |
| `JsNumber.DigitValue` | frontend/src/App.js:28 | a character's digit value is below 10 exactly for '0'–'9', and never above 36 |
| `JsNumber.DigitRun` | frontend/src/App.js:28 | `parseInt` reads the longest run of radix digits: the run is all digits and is followed by a non-digit or by the end |
| `JsNumber.Magnitude` | frontend/src/App.js:28 | the unsigned part that `parseInt` reads is never negative; without a `0x`/`0X` prefix it is NaN exactly when the text does not start with a decimal digit, and after that prefix exactly when no hexadecimal digit follows it |
| `JsNumber.Decimal` | frontend/src/App.js:53 | `String(n)` of a natural number is a non-empty string of decimal digits, with a leading '0' only for 0 |
| `JsNumber.DecimalValue` | frontend/src/App.js:53 | the decimal digits written for `n` have the value `n` |
| `JsNumber.DigitRunStopsAt` | frontend/src/App.js:28 | a run of digits followed by a non-digit is read exactly up to its end |
| `JsNumber.MagnitudeOfDecimal` | frontend/src/App.js:28 | the digits of `n` followed by a non-digit (and by no `x` after a lone 0) are read as `n` |
| `JsNumber.MagnitudeOfHex` | frontend/src/App.js:28 | after `0x` or `0X`, a run of hexadecimal digits followed by a non-digit (or by nothing) is read in radix 16 |
| `JsNumber.TrimStartSkips` | frontend/src/App.js:28 | leading white space is dropped up to the first character that is not white space, and nothing more |
| `JsNumber.ParseIntAfterSpace` | frontend/src/App.js:28 | leading white space does not change what `parseInt` reads |
| `JsNumber.SignedPlus` | frontend/src/App.js:28 | a leading '+' keeps the value the rest reads as |
| `JsNumber.SignedMinus` | frontend/src/App.js:28 | a leading '-' negates the value the rest reads as, and no digits after it still give NaN |
| `JsNumber.ParseIntSkipsSpaceAndSign` | frontend/src/App.js:28 | after any leading white space, `+u` reads as `u`'s magnitude, `-u` as its negation (NaN when `u` has none), and an unsigned `u` as its magnitude |
| `JsNumber.ParseIntUnsigned` | frontend/src/App.js:28 | text starting with a digit is read with no sign |
| `JsNumber.ParseIntNegative` | frontend/src/App.js:28 | a leading '-' negates the value the digits are read as |
| `JsNumber.ParseIntAfterNumberToString` | frontend/src/App.js:28 | `parseInt(String(n) + tail)` is `n` when `tail` does not continue the number (no digit next, and no `x` after "0") |
| `JsNumber.ParseIntNumberToString` | frontend/src/App.js:28 | round trip: `parseInt(String(n)) == n` for every integer |
| `JsNumber.NumberToStringInjective` | frontend/src/App.js:86 | `String(n)` writes different text for different integers |
| `JsNumber.NumberToStringCharacters` | frontend/src/App.js:86 | `String(n)` contains only decimal digits and '-' (in particular no space) |
| `DownloadForm.CoerceCount` | frontend/src/App.js:28 | the stored count is never 0: it is the `parseInt` result when that is a non-zero number, and 1 when it is NaN or 0 |
| `DownloadForm.CoerceCountReadsLeadingDigits` | frontend/src/App.js:28 | the text of `n` followed by anything that does not continue the number (as in "12abc") stores `n`, and 1 for `n` = 0 (as in "0abc"): reading stops at the first non-digit |
| `DownloadForm.CoerceCountAfterSpaceAndSign` | frontend/src/App.js:28 | after leading white space, "+u" stores the number `u` reads as and "-u" its negation; a sign with no number after it (as in "-" or "-abc") or a zero stores 1 |
| `DownloadForm.CoerceCountWithoutDigitsIsOne` | frontend/src/App.js:28 | text with nothing to read, empty or starting with a character that is neither white space, a sign nor a digit (as "abc"), stores 1 |
| `DownloadForm.CoerceCountOf` | frontend/src/App.js:28 | the text `String(n)` stores `n`, or 1 when `n` is 0: there is no upper clamp ("5000" stores 5000) and negatives are kept ("-5" stores -5) |
| `DownloadForm.CoerceCountStable` | frontend/src/App.js:144-152 | the field displays the stored count; handing that text back to the change handler stores the same count |
| `DownloadForm.StripColons` | frontend/src/App.js:72 | `replace(/:/g, "")` leaves no ':', keeps every other character with its multiplicity, and is the identity on text without ':' |
| `DownloadForm.StripColonsAppend` | frontend/src/App.js:72 | removing colons distributes over concatenation |
| `DownloadForm.StripTwoColons` | frontend/src/App.js:72 | the two colons of `a:b:c` are dropped, giving `abc` |
| `DownloadForm.FileNameFields` | frontend/src/App.js:72 | the file name is "chatwork_logs_", the room id verbatim, '_', the colon-free timestamp and ".csv", at fixed positions |
| `DownloadForm.FileNameInjective` | frontend/src/App.js:72 | for one timestamp, different room ids never get the same file name |
| `DownloadForm.FileNameDropsColons` | frontend/src/App.js:72 | an ISO timestamp `a:b:c` appears in the name as `abc` |
| `DownloadForm.ErrorTextInjective` | frontend/src/App.js:85-91 | the shown message identifies the failure: equal messages come from equal outcomes (same kind, and for a reply the same status and body) |
| `DownloadForm.ResponseTextSplits` | frontend/src/App.js:86 | "エラー: status - body" splits back into its status and body |
| `DownloadForm.ErrorTextIsFailureMessage` | frontend/src/App.js:82-91 | a failure's message is non-empty (so it is displayed) and differs from both validation messages |
| `DownloadForm.Home.constructor` | frontend/src/App.js:10-14 | the initial state: empty token and room id, count 100, not loading, no error, nothing sent or saved |
| `DownloadForm.Home.HandleApiTokenChange` | frontend/src/App.js:17-19 | stores the token verbatim and changes nothing else |
| `DownloadForm.Home.HandleRoomIdChange` | frontend/src/App.js:22-24 | stores the room id verbatim and changes nothing else |
| `DownloadForm.Home.HandleMessageCountChange` | frontend/src/App.js:27-29 | stores `CoerceCount` of the typed text and changes nothing else |
| `DownloadForm.Home.HandleDownload` | frontend/src/App.js:32-95 | an empty token gives the token error and an empty room id the room error, with no request, no save and `loading` untouched, the token being checked first; otherwise exactly one POST to `${API}/chatwork/download` with `api_token`, `room_id`, `message_count` from the state, sent while `loading` is true and `error` is empty; a success saves the bytes unchanged as `text/csv` under `FileName` and leaves `error` empty; a failure saves nothing and shows `ErrorText`; `loading` is false afterwards in every case |
| `ChatworkLogs.Truncate` | backend/server.py:92 | `messages[:k]` keeps a prefix: `min(k, len)` messages for `k >= 0`, and `max(0, len + k)` for negative `k` |
| `ChatworkLogs.TruncateNegative` | backend/server.py:92 | a negative count drops exactly the last `-k` messages (all when there are no more) and keeps the rest in order |
| `ChatworkLogs.TruncateKeepsAll` | backend/server.py:92 | a count at least the number of messages keeps all of them |
| `ChatworkLogs.MessageRow` | backend/server.py:96-104 | a row copies `message_id` and `body` (None when absent); `account_id` and `name` are "" without an "account" key and otherwise come from the account dict; each time cell is "" without its key and otherwise the formatted time; building raises exactly when the message or its account is not a dict or a time cannot be formatted |
| `ChatworkLogs.BuildRows` | backend/server.py:95-104 | the loop succeeds exactly when every message's row builds, and then gives one row per message in the same order; otherwise it stops at the first message that raises |
| `ChatworkLogs.Padded` | backend/server.py:115 | a zero-padded field has exactly its width and only decimal digits |
| `ChatworkLogs.ReadPadded` | backend/server.py:115 | a number that fits its width reads back from its zero-padded digits |
| `ChatworkLogs.StampFields` | backend/server.py:115 | `strftime('%Y%m%d%H%M%S')` gives 14 digits whose slices read back as year, month, day, hour, minute and second |
| `ChatworkLogs.StampInjective` | backend/server.py:115 | different times give different stamps |
| `ChatworkLogs.AttachmentNameFields` | backend/server.py:115 | the attachment name is "chatwork_logs_", the room id verbatim, '_', the 14-digit stamp and ".csv", at fixed positions |
| `ChatworkLogs.AttachmentNameInjective` | backend/server.py:115 | the attachment name determines both the room id and the time |
| `ChatworkLogs.Latin1Append` | backend/server.py:115 | a concatenation is Latin-1-encodable exactly when both parts are |
| `ChatworkLogs.ContentDispositionEncodable` | backend/server.py:115 | the `Content-Disposition` header carrying the attachment name can be encoded in Latin-1 exactly when the room id can |
| `ChatworkLogs.ChatworkRequestFields` | backend/server.py:71-79 | the upstream GET goes to `https://api.chatwork.com/v2/rooms/<room_id>/messages` with the room id verbatim, header `X-ChatWorkToken` set to the token, and `force=1` |
| `ChatworkLogs.DownloadChatworkLogs` | backend/server.py:63-122 | the request is the Chatwork one; the count defaults to 100; a failed request, a non-200 status, a body that is not JSON or cannot be sliced, a message whose row raises, and a room id that the Latin-1 header cannot carry all give status 500 (so no CSV), the rows being checked before the header; otherwise the answer is a `text/csv` attachment whose rows are exactly the rows of `messages[:message_count]`, in order, named `AttachmentName(room_id, now)` |

## Left out

- JSX rendering, routing, styling and the `App` wrapper (frontend/src/App.js:97-188) hold no decision logic.
- The transport is not modelled: axios, `FormData`, `Blob`, `createObjectURL`, the anchor click and `revokeObjectURL`. The POST and the save appear as entries of the ghost logs `dispatched` and `saves`.
- DownloadForm.Home.HandleDownload: the body of a failed reply appears only as the text `JSON.stringify` made of it (`serializedBody`). With `responseType: "blob"` that body is a Blob, and its serialization is browser behaviour this model does not fix.
- DownloadForm.Home.HandleDownload: `new Date().toISOString()` is a parameter. Which outcome the POST has is a parameter too.
- Re-entrancy: the only guard against a second submit is the button's `disabled={loading}`. Each handler call is modelled as one atomic step, so an overlapping submit is not modelled.
- JsNumber.ParseInt and JsNumber.NumberToString use exact integers. They do not model Number rounding above 2^53, or `String(n)`'s exponent notation from 10^21 on.
- The browser's own cleaning of a `type="number"` field's value is not modelled. The handler is given the raw text.
- ChatworkLogs.DownloadChatworkLogs: a 500 carries an abstract `Fault` naming the exception. It does not carry the text `str(e)`, which depends on the web framework's exception class.
- ChatworkLogs.DownloadChatworkLogs: `requests.get` is an input (`Upstream`). pandas `DataFrame`/`to_csv` are not modelled: the attachment carries the list of row records, not the CSV text. Of the `Response` object, only its media type, the file name and the Latin-1 encoding of the header that carries the name are modelled.
- FastAPI's parsing of the `message_count` form field (and its 422 answer for a non-integer) is not modelled. The handler takes the parsed value, or `None` when the field is omitted.
- ChatworkLogs.MessageRow: JSON numbers are integers only. A fractional timestamp is not modelled. `fromtimestamp`/`strftime` is a parameter `format`, and `None` from it stands for the exception it raises.
- ChatworkLogs.StampFields: `datetime.now()` is a parameter, and its year is taken to have four digits.
- DownloadForm.Home.HandleDownload: the `console.error` call on a failed download (frontend/src/App.js:83) only writes to the browser console, and is not modelled.
- ChatworkLogs.DownloadChatworkLogs: the `logging.error` call before the 500 (backend/server.py:121) only writes to the server log, and is not modelled.
- The MongoDB status endpoints, CORS middleware, logging and shutdown hook (backend/server.py:20-61, 124-144) are database and framework plumbing.
