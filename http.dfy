/**
 * The client's view of one HTTP exchange and `_handle_response`, which turns
 * it into the decoded body or an `MCPError`.
 */
module Http {
  import opened Wrappers
  import opened Json

  /** The body of a response: decodable JSON, or text `response.json()` rejects. */
  datatype Body = Parsed(value: Json) | Unparsable(decodeError: string)

  /**
   * A response that arrived; `errorText` is what `str()` of the `HTTPError`
   * that `raise_for_status` would raise reads.
   */
  datatype Response = Response(status: int, errorText: string, body: Body)

  /**
   * What `requests.get/post/patch` does with one request: it raises its own
   * exception before any response (connection refused, a timeout, an invalid
   * URL), or hands back the response, which only then goes to
   * `_handle_response`.
   */
  datatype Outcome = Unreachable(reason: string) | Delivered(response: Response)

  /** The client's single error kind: a message, an optional status code and details. */
  datatype MCPError = MCPError(message: Json, statusCode: Option<int>, details: map<string, Json>)

  /** An `MCPError` raised with only a message, as the client does for its own checks. */
  function Complaint(message: string): MCPError {
    MCPError(JString(message), None, map[])
  }

  /** `raise_for_status` raises for the client-error and server-error ranges only. */
  predicate RaisesForStatus(status: int) { 400 <= status < 600 }

  /**
   * `_handle_response`.  For an error status the message is the body's
   * `message` entry when the body is a JSON object holding one, and
   * "API Error: ..." otherwise.  A body that is not JSON raises the decoder's
   * error, which `requests` derives from `RequestException`, so it reaches
   * the "Connection Error: ..." clause with no status code.
   */
  function HandleResponse(o: Response): (r: Result<Json, MCPError>)
    ensures r.Ok? <==> !RaisesForStatus(o.status) && o.body.Parsed?
    ensures r.Ok? ==> r.value == o.body.value
    ensures r.Err? ==> r.error.details == map[]
    ensures r.Err? ==> (r.error.statusCode.Some? <==> RaisesForStatus(o.status))
    ensures r.Err? && r.error.statusCode.Some? ==> r.error.statusCode.value == o.status
    ensures RaisesForStatus(o.status) ==>
              r.error.message == ErrorMessage(o.body, JString("API Error: " + o.errorText))
    ensures !RaisesForStatus(o.status) && o.body.Unparsable? ==>
              r == Err(Complaint("Connection Error: " + o.body.decodeError))
  {
    match o
    case Response(status, errorText, body) =>
      if RaisesForStatus(status) then
        Err(MCPError(ErrorMessage(body, JString("API Error: " + errorText)), Some(status), map[]))
      else
        match body
        case Parsed(value) => Ok(value)
        case Unparsable(decodeError) => Err(Complaint("Connection Error: " + decodeError))
  }

  /**
   * `error_details.get("message", fallback)`, where the body's own decoding
   * failure or a body that is not a dict (so has no `.get`) leaves the fallback.
   */
  function ErrorMessage(body: Body, fallback: Json): (m: Json)
    ensures body.Parsed? && body.value.JObject? && "message" in body.value.fields ==>
              m == body.value.fields["message"]
    ensures !(body.Parsed? && body.value.JObject? && "message" in body.value.fields) ==> m == fallback
  {
    match body
    case Parsed(JObject(fields)) => GetOr(fields, "message", fallback)
    case _ => fallback
  }

  /** A server that explains its refusal gets its explanation and status code passed on verbatim. */
  lemma ServerMessagePassedOn(status: int, errorText: string, fields: map<string, Json>)
    requires RaisesForStatus(status) && "message" in fields
    ensures HandleResponse(Response(status, errorText, Parsed(JObject(fields))))
         == Err(MCPError(fields["message"], Some(status), map[]))
  {
  }
}
