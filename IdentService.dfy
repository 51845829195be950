/**
 * The response shape of the Tebex identity service that the Steam and
 * Xbox Live strategies query: a profile body, or an HTTP 200 whose body
 * carries `error.code == 400` when the profile does not exist.
 */
module IdentService {
  import opened Wrappers
  import opened Php
  import opened Domain
  import ExternalRequest

  /** The body reports a missing profile: `isset($body['error']) && $body['error']['code'] === 400`. */
  predicate NotFoundBody(body: Json) {
    Isset(body, "error") && HasKey(body.fields["error"], "code") && body.fields["error"].fields["code"] == JInt(400)
  }

  /** The not-found test itself warns: `error` is set but `error.code` cannot be read. */
  predicate CodeUnreadable(body: Json) {
    Isset(body, "error") && !HasKey(body.fields["error"], "code")
  }

  /** The keys a found body must hold for the mapping to read without a warning. */
  predicate Complete(body: Json) {
    HasKey(body, "username") && HasKey(body, "id") && HasKey(body, "meta") && HasKey(body.fields["meta"], "avatar")
  }

  /** The profile array built from a found body: `username`, `id` and `meta.avatar`. */
  function Normalise(body: Json): (r: Result<Profile, Error>)
    ensures r.Ok? <==> Complete(body)
    ensures r.Err? ==> r.error == ErrorException
    ensures r.Ok? ==> r.value.username == body.fields["username"] && r.value.id == body.fields["id"] &&
                      r.value.avatar == body.fields["meta"].fields["avatar"]
  {
    if Complete(body) then Ok(Profile(body.fields["username"], body.fields["id"], body.fields["meta"].fields["avatar"]))
    else Err(ErrorException)
  }

  /** What `fetch` makes of the request service's outcome. */
  function Interpret(res: Result<ExternalRequest.Response, Error>): (r: Result<Profile, Error>)
    ensures res.Err? ==> r == Err(res.error)
    ensures res.Ok? && NotFoundBody(res.value.body) ==> r == Err(RequestFailed(404, "Unable to find profile"))
    ensures res.Ok? && CodeUnreadable(res.value.body) ==> r == Err(ErrorException)
    ensures r.Ok? <==> res.Ok? && !NotFoundBody(res.value.body) && !CodeUnreadable(res.value.body) && Complete(res.value.body)
    ensures r.Ok? ==> r == Normalise(res.value.body)
    // what a response can still fail with: the not-found 404, or a warning while reading the body
    ensures res.Ok? && r.Err? ==> r.error == RequestFailed(404, "Unable to find profile") || r.error == ErrorException
  {
    match res
    case Err(e) => Err(e)
    case Ok(resp) =>
      if CodeUnreadable(resp.body) then Err(ErrorException)
      else if NotFoundBody(resp.body) then Err(RequestFailed(404, "Unable to find profile"))
      else Normalise(resp.body)
  }
}
