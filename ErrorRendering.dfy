/**
 * The application's exception renderers: how an upstream request failure,
 * a throttle and an unknown API route become HTTP responses.
 */
module ErrorRendering {
  import opened Wrappers

  /** A rendered error: its HTTP status, message and `details.external_response_code`. */
  datatype Rendered = Rendered(status: int, message: string, externalCode: Option<int>)

  /**
   * The renderer for a failed upstream request with status `code`:
   * 404 stays 404, a server error becomes 502 (bad gateway), any other
   * client error 400. Below 400 it renders nothing and the default
   * handling applies.
   */
  function RenderRequestFailed(code: int, message: string): (r: Option<Rendered>)
    ensures r.Some? <==> code >= 400
    ensures r.Some? ==> r.value.message == message && r.value.externalCode == Some(code)
    ensures r.Some? ==> (r.value.status == 404 <==> code == 404)
    ensures r.Some? ==> (r.value.status == 502 <==> code >= 500)
    ensures r.Some? ==> (r.value.status == 400 <==> 400 <= code < 500 && code != 404)
  {
    if code == 404 then Some(Rendered(404, message, Some(code)))
    else if code >= 500 then Some(Rendered(502, message, Some(code)))
    else if code >= 400 then Some(Rendered(400, message, Some(code)))
    else None
  }

  /** A throttled request: 429 with the exception's message. */
  function RenderThrottle(message: string): (r: Rendered)
    ensures r.status == 429 && r.message == message && r.externalCode.None?
  {
    Rendered(429, message, None)
  }

  /** Laravel's `$request->is` for the API route pattern: the path lies under `api/`. */
  predicate IsApi(path: string) {
    |path| >= 4 && path[..4] == "api/"
  }

  /** An unknown route: a 404 "Not found" for API paths, the default page elsewhere. */
  function RenderNotFound(path: string): (r: Option<Rendered>)
    ensures r.Some? <==> IsApi(path)
    ensures r.Some? ==> r.value.status == 404 && r.value.message == "Not found" && r.value.externalCode.None?
  {
    if IsApi(path) then Some(Rendered(404, "Not found", None)) else None
  }

  /** Every upstream failure that is rendered is a client or gateway error, never success or a plain 500. */
  lemma RenderedStatuses(code: int, message: string)
    requires code >= 400
    ensures RenderRequestFailed(code, message).value.status in {400, 404, 502}
  {
  }

  /** The tested statuses: 404 to 404, 500 to 502, 422 and 400 to 400. */
  lemma TestedStatuses(message: string)
    ensures RenderRequestFailed(404, message).value.status == 404
    ensures RenderRequestFailed(500, message).value.status == 502
    ensures RenderRequestFailed(422, message).value.status == 400
    ensures RenderRequestFailed(400, message).value.status == 400
  {
  }
}
