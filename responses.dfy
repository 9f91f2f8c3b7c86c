/** The response envelope every path of the handler returns. */
module Responses {
  import opened Wrappers
  import opened Json

  /**
   * `statusCode`, `headers` and, only when a body was given, `body`. The body
   * is kept as the JSON value that `json.dumps` would serialise.
   */
  datatype Response = Response(statusCode: int, headers: map<string, string>, body: Option<Value>)

  const ContentType := "Content-Type"
  const AllowOrigin := "Access-Control-Allow-Origin"

  /**
   * `buildResponse(statusCode, body)`. JSON `null` is Python's `None`, so a
   * body of `Null` is left out just as a missing one is.
   */
  function BuildResponse(statusCode: int, body: Option<Value>): (r: Response)
    ensures r.statusCode == statusCode
    ensures r.headers.Keys == {ContentType, AllowOrigin}
    ensures r.headers[ContentType] == "application/json" && r.headers[AllowOrigin] == "*"
    ensures r.body.Some? <==> body.Some? && body.value != Null
    ensures r.body.Some? ==> r.body.value == body.value
  {
    Response(statusCode, map[ContentType := "application/json", AllowOrigin := "*"],
             if body == Some(Null) then None else body)
  }

  /** A 500 response carrying only a fixed message. */
  function ErrorResponse(message: string): Response {
    BuildResponse(500, Some(Str(message)))
  }
}
