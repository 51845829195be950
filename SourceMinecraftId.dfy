/** ProfileSourceMinecraftId: a Minecraft profile looked up by UUID on the session server. */
module SourceMinecraftId {
  import opened Wrappers
  import opened Domain
  import opened Validation
  import opened ExternalRequest
  import ProfileSourceEnum
  import Mojang

  /** `'id' => ['required', 'string']`. */
  const Rules: seq<FieldRules> := [FieldRules("id", [Required, String])]

  function Validate(p: Payload): (r: Result<string, Error>)
    ensures r.Ok? <==> Filled(p, "id") && p["id"].Str?
    ensures r.Ok? ==> p["id"] == Str(r.value)
    ensures r.Err? ==> r.error == ValidationFailed({"id"})
  {
    ErrorsOfOne(p, Rules[0]);
    FailsOfTwo(p, "id", Required, String);
    var errs := Errors(p, Rules);
    if errs != {} then Err(ValidationFailed(errs)) else Ok(p["id"].s)
  }

  /** `sprintf('%s|%s', MINECRAFT, $id)`. */
  function Key(id: string): (k: string)
    ensures SplitKey(k) == (ProfileSourceEnum.Value(ProfileSourceEnum.Minecraft), id)
  {
    SplitNamespacedKey(ProfileSourceEnum.Value(ProfileSourceEnum.Minecraft), id);
    NamespacedKey(ProfileSourceEnum.Value(ProfileSourceEnum.Minecraft), id)
  }

  /** The session-server endpoint for the UUID. */
  function Url(id: string): (url: string)
    ensures |url| >= |Mojang.SessionUrl| && url[..|Mojang.SessionUrl|] == Mojang.SessionUrl && url[|Mojang.SessionUrl|..] == id
  {
    Mojang.SessionUrl + id
  }

  /** `fetch`: request-service errors pass through; a 204 (no such profile) becomes a 404. */
  function FetchResult(id: string, script: seq<Transport>): (r: Result<Profile, Error>)
    ensures Get(Url(id), script).result.Err? ==> r == Err(Get(Url(id), script).result.error)
    ensures Get(Url(id), script).result.Ok? && Get(Url(id), script).result.value.status == 204 ==>
              r == Err(RequestFailed(404, "Unable to find profile"))
    // any other response is the Mojang profile of its body, or a warning while reading it
    ensures Get(Url(id), script).result.Ok? && Get(Url(id), script).result.value.status != 204 ==>
              r == Mojang.Normalise(Get(Url(id), script).result.value.body)
    ensures r.Ok? <==> Get(Url(id), script).result.Ok? && Get(Url(id), script).result.value.status != 204 &&
                       Mojang.Complete(Get(Url(id), script).result.value.body)
    ensures r.Err? ==> (r.error.RequestFailed? && r.error.status >= 400) || r.error == ErrorException
  {
    match Get(Url(id), script).result
    case Err(e) => Err(e)
    case Ok(resp) =>
      if resp.status == 204 then Err(RequestFailed(404, "Unable to find profile"))
      else Mojang.Normalise(resp.body)
  }

  class MinecraftIdSource {
    var id: string
    ghost var validated: bool

    constructor ()
      ensures !validated
    {
      id := "";
      validated := false;
    }

    method SetPayload(payload: Payload) returns (o: Outcome<Error>)
      modifies this
      ensures Validate(payload).Err? ==> o == Fail(Validate(payload).error) && unchanged(this)
      ensures Validate(payload).Ok? ==> o == Pass && validated && id == Validate(payload).value
    {
      var r := Validate(payload);
      if r.Err? {
        return Fail(r.error);
      }
      id := r.value;
      validated := true;
      o := Pass;
    }

    function CacheKey(): (k: string)
      reads this
      requires validated
      ensures k == Key(id)
    {
      Key(id)
    }

    method Fetch(script: seq<Transport>) returns (r: Result<Profile, Error>)
      requires validated
      ensures r == FetchResult(id, script)
    {
      var response := Get(Url(id), script).result;
      if response.Err? {
        return Err(response.error);
      }
      if response.value.status == 204 {
        return Err(RequestFailed(404, "Unable to find profile"));
      }
      r := Mojang.Normalise(response.value.body);
    }
  }

  /** An empty payload is refused. */
  lemma EmptyPayloadRejected()
    ensures Validate(map[]) == Err(ValidationFailed({"id"}))
  {
  }

  /** The session server answering 204 is a not-found error with status 404. */
  lemma NoContentIsNotFound(id: string)
    ensures FetchResult(id, [Received(Response(204, Php.JNull))]) == Err(RequestFailed(404, "Unable to find profile"))
  {
    assert Final(AttemptAt([Received(Response(204, Php.JNull))], 0));
  }
}
