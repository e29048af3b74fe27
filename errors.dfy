/** The library's exceptions for failed HTTP calls (src/blueskyapi/errors.py):
    a fixed status-code table that picks the exception class, and the message
    every such exception carries. */
module Errors {
  import opened Wrappers
  import opened Text

  newtype byte = b: int | 0 <= b < 256

  /** The parts of an HTTP response the library reads. `ok` is supplied by the
      HTTP library together with the other fields. */
  datatype Response = Response(ok: bool, statusCode: int, reason: string, text: string, content: seq<byte>)

  /** A decoded JSON document; the library never looks inside one. */
  datatype Json =
    | JNull
    | JBool(b: bool)
    | JNumber(literal: string)
    | JString(s: string)
    | JArray(items: seq<Json>)
    | JObject(members: seq<(string, Json)>)

  /** The JSON collaborator: `loads` is `json.loads`, giving `None` where that
      raises a decoding error, and `dumps` is `json.dumps(_, indent=2)`. */
  datatype JsonCodec = JsonCodec(loads: string -> Option<Json>, dumps: Json -> string)

  /** The exception classes; `OverRateLimit` is a subclass of `RequestError`. */
  datatype ErrorClass = RequestError | OverRateLimit

  /** An exception instance: its class, the response it keeps and its message. */
  datatype ApiError = ApiError(klass: ErrorClass, response: Response, message: string)

  /** `requests.codes.too_many_requests`. */
  const TooManyRequests: int := 429

  /** `_errors_by_status_code`: the one status code with a class of its own. */
  function ErrorsByStatusCode(): (table: map<int, ErrorClass>)
    ensures table.Keys == {TooManyRequests}
    ensures table[TooManyRequests] == OverRateLimit
  {
    map[TooManyRequests := OverRateLimit]
  }

  /** The class raised for a status code: the table's entry, else `RequestError`. */
  function ErrorByStatusCode(code: int): (c: ErrorClass)
    ensures c == OverRateLimit <==> code == TooManyRequests
    ensures c == RequestError <==> code != TooManyRequests
  {
    if code in ErrorsByStatusCode() then ErrorsByStatusCode()[code] else RequestError
  }

  const StatusLineLead := "API responded with "

  /** The first line of every message: status code and reason phrase. */
  function StatusLine(code: int, reason: string): (s: string)
    ensures var digits := IntToDecimal(code); var at := |StatusLineLead| + |digits|;
      && |s| == at + 3 + |reason|
      && s[..|StatusLineLead|] == StatusLineLead
      && s[|StatusLineLead|..at] == digits
      && s[at..] == " - " + reason
  {
    StatusLineLead + IntToDecimal(code) + " - " + reason
  }

  /** The text appended after the status line for a non-empty body: the body
      re-serialised when it decodes as JSON, the raw body otherwise. */
  function BodyText(text: string, codec: JsonCodec): (b: string)
    ensures codec.loads(text).None? ==> b == text
    ensures codec.loads(text).Some? ==> b == codec.dumps(codec.loads(text).value)
  {
    match codec.loads(text)
    case Some(doc) => codec.dumps(doc)
    case None => text
  }

  /** The message `RequestError.__init__` builds from a response. */
  function Message(response: Response, codec: JsonCodec): (m: string)
    ensures StatusLine(response.statusCode, response.reason) <= m
    ensures response.text == "" <==> m == StatusLine(response.statusCode, response.reason)
    ensures response.text != "" && codec.loads(response.text).None? ==>
              m == StatusLine(response.statusCode, response.reason) + "\n\n" + response.text
    ensures response.text != "" && codec.loads(response.text).Some? ==>
              m == StatusLine(response.statusCode, response.reason) + "\n\n"
                   + codec.dumps(codec.loads(response.text).value)
  {
    var line := StatusLine(response.statusCode, response.reason);
    if response.text != "" then line + "\n\n" + BodyText(response.text, codec) else line
  }

  /** `klass(response)`: an exception of the given class that keeps the response. */
  function NewApiError(klass: ErrorClass, response: Response, codec: JsonCodec): (e: ApiError)
    ensures e.klass == klass && e.response == response
    ensures StatusLine(response.statusCode, response.reason) <= e.message
    ensures e.message == Message(response, codec)
  {
    ApiError(klass, response, Message(response, codec))
  }

  /** `_request_error_from_response`: the response's exception, of the class its status selects. */
  function RequestErrorFromResponse(response: Response, codec: JsonCodec): (e: ApiError)
    ensures e.klass == OverRateLimit <==> response.statusCode == TooManyRequests
    ensures e.klass == ErrorByStatusCode(response.statusCode)
    ensures e.response == response
    ensures e.message == Message(response, codec)
  {
    NewApiError(ErrorByStatusCode(response.statusCode), response, codec)
  }

  /** The decimal status code stands right after the fixed lead of every message. */
  lemma MessageShowsStatusCode(response: Response, codec: JsonCodec)
    ensures var m := Message(response, codec); var code := IntToDecimal(response.statusCode);
      && |StatusLineLead| + |code| <= |m|
      && m[|StatusLineLead|..|StatusLineLead| + |code|] == code
  {
    var m := Message(response, codec);
    var code := IntToDecimal(response.statusCode);
    var line := StatusLine(response.statusCode, response.reason);
    assert line == StatusLineLead + code + (" - " + response.reason);
    assert m[..|line|] == line;
  }

  /** The status code can be recovered from a message: two messages that are
      equal were built from responses with the same status code. */
  lemma MessageDeterminesStatusCode(r1: Response, codec1: JsonCodec, r2: Response, codec2: JsonCodec)
    requires Message(r1, codec1) == Message(r2, codec2)
    ensures r1.statusCode == r2.statusCode
  {
    var m := Message(r1, codec1);
    var lead := |StatusLineLead|;
    var d1, d2 := IntToDecimal(r1.statusCode), IntToDecimal(r2.statusCode);
    var line1, line2 := StatusLine(r1.statusCode, r1.reason), StatusLine(r2.statusCode, r2.reason);
    assert m[lead..lead + |d1|] == line1[lead..lead + |d1|] == d1;
    assert m[lead..lead + |d2|] == line2[lead..lead + |d2|] == d2;
    assert m[lead + |d1|] == line1[lead + |d1|] == ' ';
    assert m[lead + |d2|] == line2[lead + |d2|] == ' ';
    var x1, x2 := m[lead + |d1|..], m[lead + |d2|..];
    assert d1 + x1 == m[lead..] == d2 + x2;
    IntLiteralPrefixUnique(d1, x1, d2, x2);
    IntToDecimalInjective(r1.statusCode, r2.statusCode);
  }
}
