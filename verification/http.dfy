/**
 * The values that cross the HTTP boundary between the browser, the Next.js
 * route handlers and the Python backend: JSON documents, the outcome of
 * `fetch`, and the responses a handler returns.
 */
module Http {
  import opened Wrappers
  import opened Text

  /** A JSON document, as `JSON.parse` yields it and `Response.json` writes it. */
  datatype Json =
    | JNull
    | JBool(b: bool)
    | JNum(n: real)
    | JStr(s: string)
    | JArr(items: seq<Json>)
    | JObj(fields: map<string, Json>)

  /** Reading a body with `.json()`: the decoded value, or the message of the parse error. */
  type Parsed<+B> = Result<B, string>

  /** What one `fetch` delivers: a rejection carrying the error's message, or a
      response with its status code and its body as `.json()` would decode it. */
  datatype Reply<+B> = NetworkError(reason: string) | Answered(status: nat, body: Parsed<B>) {

    /** `response.ok`: an answer whose status lies in 200-299. */
    predicate Ok() { Answered? && 200 <= status <= 299 }
  }

  datatype Header = Header(name: string, value: string)

  /** A request one handler sends to the backend. */
  datatype Outgoing = Outgoing(verb: string, url: string, headers: seq<Header>, body: Option<Json>)

  /** A response one handler returns to the browser. */
  datatype Response = Response(status: nat, body: Json)

  /** `body.message` read the way `errorData.message || ...` reads it: only a
      non-empty string field counts. */
  function MessageOf(body: Parsed<Json>): (m: Option<string>)
    ensures m.Some? ==> m.value != ""
    ensures m.Some? <==> body.Success? && body.value.JObj? && "message" in body.value.fields
                         && body.value.fields["message"].JStr? && body.value.fields["message"].s != ""
  {
    match body
    case Failure(_) => None
    case Success(j) =>
      if j.JObj? && "message" in j.fields && j.fields["message"].JStr? && j.fields["message"].s != ""
      then Some(j.fields["message"].s) else None
  }

  /** The text of the error thrown for a non-ok status when no message is available. */
  function StatusText(status: nat): (t: string)
    ensures |t| == 26 + |NatToString(status)|
    ensures t[..26] == "API responded with status " && t[26..] == NatToString(status)
  {
    "API responded with status " + NatToString(status)
  }
}
