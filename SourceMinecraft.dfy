/**
 * ProfileSourceMinecraft: the older unified Minecraft strategy. It takes a
 * UUID or a player name (exactly one), asks the matching Mojang service
 * through its own HTTP client (two tries, no request service), and reports
 * failures with its own not-found and fetch-failed exceptions.
 */
module SourceMinecraft {
  import opened Wrappers
  import opened Php
  import opened Domain
  import opened Validation
  import opened ExternalRequest
  import ProfileSourceEnum
  import Mojang

  /** `retry(2, 100, throw: false)`. */
  const ClientTries: nat := 2

  const IdRules: FieldRules := FieldRules("id", [RequiredWithout("username"), Prohibits("username"), String])
  const UsernameRules: FieldRules := FieldRules("username", [RequiredWithout("id"), Prohibits("id"), String])
  const Rules: seq<FieldRules> := [IdRules, UsernameRules]

  const Unavailable: string := "Minecraft profile service currently unavailable"
  const IdNotFound: string := "Unable to find profile with the Minecraft ID: "
  const UsernameNotFound: string := "Unable to find profile with the Minecraft username: "
  const FailedWithStatus: string := "Minecraft profile service failed with status: "

  /** The validated fields: `string|null $id` and `string|null $username`. */
  datatype State = State(id: Option<string>, username: Option<string>)

  /** A field is refused when neither or both are given, or when it is present but not a string. */
  predicate Rejected(p: Payload, field: string) {
    Filled(p, "id") == Filled(p, "username") || (field in p && !p[field].Str?)
  }

  lemma RulesExact(p: Payload)
    ensures Errors(p, Rules) ==
      (if Rejected(p, "id") then {"id"} else {}) + (if Rejected(p, "username") then {"username"} else {})
  {
    ErrorsOfTwo(p, IdRules, UsernameRules);
    FailsOfThree(p, "id", RequiredWithout("username"), Prohibits("username"), String);
    FailsOfThree(p, "username", RequiredWithout("id"), Prohibits("id"), String);
  }

  /** Neither field, or both fields, is an error on both. */
  lemma ExactlyOneRequired(p: Payload)
    requires Filled(p, "id") == Filled(p, "username")
    ensures Errors(p, Rules) == {"id", "username"}
  {
    RulesExact(p);
  }

  /** `$payload['id'] ?? null` for a field the rules have accepted. */
  function Stored(p: Payload, field: string): Option<string> {
    if field in p && p[field].Str? then Some(p[field].s) else None
  }

  /** `setPayload`: validation, then both fields overwritten. */
  function Validate(p: Payload): (r: Result<State, Error>)
    ensures r.Ok? <==> Filled(p, "id") != Filled(p, "username") && !Rejected(p, "id") && !Rejected(p, "username")
    ensures r.Err? ==> r.error == ValidationFailed(Errors(p, Rules)) && r.error.fields != {}
    // a field given is stored as the payload's string, a field left out as null
    ensures r.Ok? ==> (r.value.id.Some? <==> "id" in p) && (r.value.username.Some? <==> "username" in p)
    ensures r.Ok? && r.value.id.Some? ==> p["id"] == Str(r.value.id.value)
    ensures r.Ok? && r.value.username.Some? ==> p["username"] == Str(r.value.username.value)
  {
    RulesExact(p);
    var errs := Errors(p, Rules);
    if errs != {} then Err(ValidationFailed(errs)) else Ok(State(Stored(p, "id"), Stored(p, "username")))
  }

  /** `$this->id ?? $this->username`, as `%s` prints it. */
  function Identifier(st: State): string {
    if st.id.Some? then st.id.value else if st.username.Some? then st.username.value else ""
  }

  /** `sprintf('%s|%s', MINECRAFT, $identifier)`. */
  function Key(st: State): (k: string)
    ensures SplitKey(k) == (ProfileSourceEnum.Value(ProfileSourceEnum.Minecraft), Identifier(st))
  {
    SplitNamespacedKey(ProfileSourceEnum.Value(ProfileSourceEnum.Minecraft), Identifier(st));
    NamespacedKey(ProfileSourceEnum.Value(ProfileSourceEnum.Minecraft), Identifier(st))
  }

  /** `getUrl`: the session server for an id, the profile API for a name. */
  function Url(st: State): (url: string)
    ensures st.id.Some? ==> |url| >= |Mojang.SessionUrl| && url[..|Mojang.SessionUrl|] == Mojang.SessionUrl && url[|Mojang.SessionUrl|..] == st.id.value
    ensures st.id.None? ==> |url| >= |Mojang.UsernameUrl| && url[..|Mojang.UsernameUrl|] == Mojang.UsernameUrl && url[|Mojang.UsernameUrl|..] == Identifier(st)
  {
    if st.id.Some? then Mojang.SessionUrl + st.id.value
    else Mojang.UsernameUrl + (if st.username.Some? then st.username.value else "")
  }

  /** How `$x` reads inside a string: null as the empty string. */
  function Text(o: Option<string>): string {
    if o.Some? then o.value else ""
  }

  /** What `fetch` returns or throws, and the warnings it logged. */
  datatype Fetched = Fetched(result: Result<Profile, Error>, warnings: seq<Warning>, attempts: nat)

  function FetchCall(st: State, script: seq<Transport>): (f: Fetched)
    ensures 1 <= f.attempts <= ClientTries
    ensures forall j :: 0 <= j < f.attempts - 1 ==> !Final(AttemptAt(script, j))
    // a failed first try is tried again
    ensures Final(AttemptAt(script, f.attempts - 1)) || f.attempts == ClientTries
    // the client could not connect on the last try
    ensures AttemptAt(script, f.attempts - 1).ConnectionFailed? ==>
              f.result == Err(ProfileFetchFailed(Unavailable)) && f.warnings == []
    // no content: the id was not found
    ensures var last := AttemptAt(script, f.attempts - 1);
            last.Received? && last.response.status == 204 ==>
              f.result == Err(ProfileNotFound(IdNotFound + Text(st.id))) && f.warnings == []
    // not found: the name was not found
    ensures var last := AttemptAt(script, f.attempts - 1);
            last.Received? && last.response.status == 404 ==>
              f.result == Err(ProfileNotFound(UsernameNotFound + Text(st.username))) && f.warnings == []
    // any other failure: its status in the message, and one warning
    ensures var last := AttemptAt(script, f.attempts - 1);
            last.Received? && Failed(last.response.status) && last.response.status != 404 ==>
              f.result == Err(ProfileFetchFailed(FailedWithStatus + Decimal(last.response.status))) && |f.warnings| == 1
    // any other response is the Mojang profile of its body, or a warning while reading it
    ensures var last := AttemptAt(script, f.attempts - 1);
            last.Received? && !Failed(last.response.status) && last.response.status != 204 ==>
              f.result == Mojang.Normalise(last.response.body) && f.warnings == []
    ensures var last := AttemptAt(script, f.attempts - 1);
            f.result.Ok? <==> last.Received? && !Failed(last.response.status) && last.response.status != 204 &&
                              Mojang.Complete(last.response.body)
    // besides a warning while reading the body, only this strategy's own exceptions escape
    ensures f.result.Err? ==> f.result.error.ProfileNotFound? || f.result.error.ProfileFetchFailed? || f.result.error == ErrorException
  {
    var sent := SendFrom(script, ClientTries, 0);
    match sent.last
    case ConnectionFailed => Fetched(Err(ProfileFetchFailed(Unavailable)), [], sent.attempts)
    case Received(resp) =>
      if resp.status == 204 then Fetched(Err(ProfileNotFound(IdNotFound + Text(st.id))), [], sent.attempts)
      else if resp.status == 404 then Fetched(Err(ProfileNotFound(UsernameNotFound + Text(st.username))), [], sent.attempts)
      else if Failed(resp.status) then
        Fetched(Err(ProfileFetchFailed(FailedWithStatus + Decimal(resp.status))),
                [Warning("Minecraft profile request failed", Url(st))], sent.attempts)
      else Fetched(Mojang.Normalise(resp.body), [], sent.attempts)
  }

  class MinecraftSource {
    var id: Option<string>
    var username: Option<string>
    ghost var validated: bool

    constructor ()
      ensures !validated
    {
      id, username := None, None;
      validated := false;
    }

    method SetPayload(payload: Payload) returns (o: Outcome<Error>)
      modifies this
      ensures Validate(payload).Err? ==> o == Fail(Validate(payload).error) && unchanged(this)
      ensures Validate(payload).Ok? ==> o == Pass && validated && State(id, username) == Validate(payload).value
    {
      var r := Validate(payload);
      if r.Err? {
        return Fail(r.error);
      }
      id, username := r.value.id, r.value.username;
      validated := true;
      o := Pass;
    }

    function CacheKey(): (k: string)
      reads this
      requires validated
      ensures k == Key(State(id, username))
    {
      Key(State(id, username))
    }

    method Fetch(script: seq<Transport>) returns (r: Result<Profile, Error>)
      requires validated
      ensures r == FetchCall(State(id, username), script).result
    {
      var sent := SendFrom(script, ClientTries, 0);
      if sent.last.ConnectionFailed? {
        return Err(ProfileFetchFailed(Unavailable));
      }
      var status := sent.last.response.status;
      if status == 204 {
        return Err(ProfileNotFound(IdNotFound + Text(id)));
      }
      if status == 404 {
        return Err(ProfileNotFound(UsernameNotFound + Text(username)));
      }
      if Failed(status) {
        return Err(ProfileFetchFailed(FailedWithStatus + Decimal(status)));
      }
      r := Mojang.Normalise(sent.last.response.body);
    }
  }

  /** A UUID payload is accepted and keyed by the UUID itself. */
  lemma IdKeyEchoesPayload(s: string)
    requires !Blank(s)
    ensures Validate(map["id" := Str(s)]).Ok?
    ensures Key(Validate(map["id" := Str(s)]).value) == "minecraft|" + s
  {
    var p := map["id" := Str(s)];
    assert Filled(p, "id") && !Filled(p, "username");
  }

  /** The session server answering 204 is a not-found error naming the id. */
  lemma NoContentIsIdNotFound(s: string, body: Json)
    ensures FetchCall(State(Some(s), None), [Received(Response(204, body))]).result
              == Err(ProfileNotFound(IdNotFound + s))
  {
  }

  /** The profile API answering 404 on both tries is a not-found error naming the player. */
  lemma NotFoundIsUsernameNotFound(u: string, body: Json)
    ensures FetchCall(State(None, Some(u)), [Received(Response(404, body)), Received(Response(404, body))]).result
              == Err(ProfileNotFound(UsernameNotFound + u))
  {
  }

  /** A service that never answers is a fetch failure after two tries, without a warning. */
  lemma UnreachableService(st: State)
    ensures FetchCall(st, []) == Fetched(Err(ProfileFetchFailed(Unavailable)), [], ClientTries)
  {
  }
}
