/** ProfileSourceMinecraftUsername: a Minecraft profile looked up by name on the Mojang API. */
module SourceMinecraftUsername {
  import opened Wrappers
  import opened Domain
  import opened Validation
  import opened ExternalRequest
  import ProfileSourceEnum
  import Mojang

  /** `'username' => ['required', 'string']`. */
  const Rules: seq<FieldRules> := [FieldRules("username", [Required, String])]

  function Validate(p: Payload): (r: Result<string, Error>)
    ensures r.Ok? <==> Filled(p, "username") && p["username"].Str?
    ensures r.Ok? ==> p["username"] == Str(r.value)
    ensures r.Err? ==> r.error == ValidationFailed({"username"})
  {
    ErrorsOfOne(p, Rules[0]);
    FailsOfTwo(p, "username", Required, String);
    var errs := Errors(p, Rules);
    if errs != {} then Err(ValidationFailed(errs)) else Ok(p["username"].s)
  }

  /** `sprintf('%s|%s', MINECRAFT, $username)`. */
  function Key(username: string): (k: string)
    ensures SplitKey(k) == (ProfileSourceEnum.Value(ProfileSourceEnum.Minecraft), username)
  {
    SplitNamespacedKey(ProfileSourceEnum.Value(ProfileSourceEnum.Minecraft), username);
    NamespacedKey(ProfileSourceEnum.Value(ProfileSourceEnum.Minecraft), username)
  }

  /** The profile-API endpoint for the player name. */
  function Url(username: string): (url: string)
    ensures |url| >= |Mojang.UsernameUrl| && url[..|Mojang.UsernameUrl|] == Mojang.UsernameUrl && url[|Mojang.UsernameUrl|..] == username
  {
    Mojang.UsernameUrl + username
  }

  /** `fetch`: every non-failed response is mapped; failures come from the request service. */
  function FetchResult(username: string, script: seq<Transport>): (r: Result<Profile, Error>)
    ensures Get(Url(username), script).result.Err? ==> r == Err(Get(Url(username), script).result.error)
    // every response that is not a failure is the Mojang profile of its body, or a warning while reading it
    ensures Get(Url(username), script).result.Ok? ==> r == Mojang.Normalise(Get(Url(username), script).result.value.body)
    ensures r.Ok? <==> Get(Url(username), script).result.Ok? && Mojang.Complete(Get(Url(username), script).result.value.body)
    ensures r.Err? ==> (r.error.RequestFailed? && r.error.status >= 400) || r.error == ErrorException
  {
    match Get(Url(username), script).result
    case Err(e) => Err(e)
    case Ok(resp) => Mojang.Normalise(resp.body)
  }

  class MinecraftUsernameSource {
    var username: string
    ghost var validated: bool

    constructor ()
      ensures !validated
    {
      username := "";
      validated := false;
    }

    method SetPayload(payload: Payload) returns (o: Outcome<Error>)
      modifies this
      ensures Validate(payload).Err? ==> o == Fail(Validate(payload).error) && unchanged(this)
      ensures Validate(payload).Ok? ==> o == Pass && validated && username == Validate(payload).value
    {
      var r := Validate(payload);
      if r.Err? {
        return Fail(r.error);
      }
      username := r.value;
      validated := true;
      o := Pass;
    }

    function CacheKey(): (k: string)
      reads this
      requires validated
      ensures k == Key(username)
    {
      Key(username)
    }

    method Fetch(script: seq<Transport>) returns (r: Result<Profile, Error>)
      requires validated
      ensures r == FetchResult(username, script)
    {
      var response := Get(Url(username), script).result;
      if response.Err? {
        return Err(response.error);
      }
      r := Mojang.Normalise(response.value.body);
    }
  }

  /** An empty payload is refused. */
  lemma EmptyPayloadRejected()
    ensures Validate(map[]) == Err(ValidationFailed({"username"}))
  {
  }

  /** The Mojang API answering 404 surfaces, through the request service, as a 404 request failure. */
  lemma NotFoundIs404(username: string, body: Php.Json)
    ensures FetchResult(username, [Received(Response(404, body)), Received(Response(404, body)), Received(Response(404, body))])
              == Err(RequestFailed(404, "External request failed"))
  {
  }

  /**
   * A 204 is not a failure, so its empty body reaches the mapping; reading
   * `name` from null raises a warning rather than producing a profile.
   */
  lemma NoContentRaises(username: string)
    ensures FetchResult(username, [Received(Response(204, Php.JNull))]) == Err(ErrorException)
  {
    var script := [Received(Response(204, Php.JNull))];
    assert Final(AttemptAt(script, 0));
  }
}
