/**
 * ProfileSourceXbl: an Xbox Live profile looked up by numeric id or by
 * gamertag (exactly one of the two) on the identity service's username
 * service 3.
 */
module SourceXbl {
  import opened Wrappers
  import opened Php
  import opened Domain
  import opened Validation
  import opened ExternalRequest
  import ProfileSourceEnum
  import IdentService

  const BaseUrl: string := "https://ident.tebex.io/usernameservices/3/username/"
  const UsernameQuery: string := "?type=username"

  const IdRules: FieldRules := FieldRules("id", [RequiredWithout("username"), Prohibits("username"), Integer])
  const UsernameRules: FieldRules := FieldRules("username", [RequiredWithout("id"), Prohibits("id"), String])
  const Rules: seq<FieldRules> := [IdRules, UsernameRules]

  /** The validated fields: `int|null $id` and `string|null $username`. */
  datatype State = State(id: Option<int>, username: Option<string>)

  /** The id is refused: neither field given, both given, or an id that is not an integer. */
  predicate IdRejected(p: Payload) {
    Filled(p, "id") == Filled(p, "username") ||
    ("id" in p && !(p["id"].Str? && Blank(p["id"].s)) && !(p["id"].Int? || (p["id"].Str? && IntegerString(p["id"].s))))
  }

  /** The username is refused: neither field given, both given, or a username that is not a string. */
  predicate UsernameRejected(p: Payload) {
    Filled(p, "id") == Filled(p, "username") || ("username" in p && !p["username"].Str?)
  }

  lemma RulesExact(p: Payload)
    ensures Errors(p, Rules) ==
      (if IdRejected(p) then {"id"} else {}) + (if UsernameRejected(p) then {"username"} else {})
  {
    ErrorsOfTwo(p, IdRules, UsernameRules);
    FailsOfThree(p, "id", RequiredWithout("username"), Prohibits("username"), Integer);
    FailsOfThree(p, "username", RequiredWithout("id"), Prohibits("id"), String);
  }

  /** Neither field, or both fields, is an error on both. */
  lemma ExactlyOneRequired(p: Payload)
    requires Filled(p, "id") == Filled(p, "username")
    ensures Errors(p, Rules) == {"id", "username"}
  {
    RulesExact(p);
  }

  /** The value PHP stores in the `int|null` property, or None where the assignment raises a TypeError. */
  function StoredId(v: Value): (o: Option<Option<int>>)
    ensures v.Null? ==> o == Some(None)
    ensures v.Int? ==> o == Some(Some(v.n))
    // a string is coerced only when it is an integer string, and then to its value
    ensures v.Str? ==> (o.Some? <==> IntegerString(v.s))
    ensures v.Str? && o.Some? ==> o.value.Some? && o.value.value == SignedValue(v.s)
    // a stored canonical digit string prints back as itself
    ensures v.Str? && Canonical(v.s) && o.Some? ==> Decimal(o.value.value) == v.s
  {
    match v
    case Null => Some(None)
    case Int(n) => Some(Some(n))
    case Str(s) =>
      CanonicalEcho(s);
      if IntegerString(s) then Some(Some(SignedValue(s))) else None
  }

  /** `setPayload`: both fields are overwritten from the payload (`?? null`). */
  function Validate(p: Payload): (r: Result<State, Error>)
    // accepted exactly when the rules pass and PHP can store the id in `int|null`
    ensures r.Ok? <==> Errors(p, Rules) == {} && StoredId(ValueOf(p, "id")).Some?
    ensures r.Ok? ==> r.value.id == StoredId(ValueOf(p, "id")).value
    ensures r.Ok? ==> Errors(p, Rules) == {} && Filled(p, "id") != Filled(p, "username")
    ensures r.Ok? ==> (r.value.id.Some? <==> Filled(p, "id"))
    ensures r.Ok? ==> (r.value.username.Some? <==> "username" in p && p["username"] != Null)
    ensures r.Ok? && r.value.username.Some? ==> p["username"] == Str(r.value.username.value)
    ensures r.Ok? && Filled(p, "id") && p["id"].Str? && Canonical(p["id"].s) ==>
              Decimal(r.value.id.value) == p["id"].s
    ensures Errors(p, Rules) != {} ==> r == Err(ValidationFailed(Errors(p, Rules)))
    ensures r.Err? && !r.error.ValidationFailed? ==> r.error == PhpError("TypeError")
  {
    RulesExact(p);
    var errs := Errors(p, Rules);
    if errs != {} then Err(ValidationFailed(errs))
    else
      var username := if "username" in p && p["username"].Str? then Some(p["username"].s) else None;
      match StoredId(ValueOf(p, "id"))
      case None => Err(PhpError("TypeError"))
      case Some(id) =>
        CanonicalEcho(if "id" in p && p["id"].Str? then p["id"].s else "");
        Ok(State(id, username))
  }

  /** `$this->id ?? $this->username`, as `%s` prints it. */
  function Identifier(st: State): string {
    if st.id.Some? then Decimal(st.id.value)
    else if st.username.Some? then st.username.value
    else ""
  }

  /** `sprintf('%s|%s', XBL, $identifier)`. */
  function Key(st: State): (k: string)
    ensures SplitKey(k) == (ProfileSourceEnum.Value(ProfileSourceEnum.Xbl), Identifier(st))
  {
    SplitNamespacedKey(ProfileSourceEnum.Value(ProfileSourceEnum.Xbl), Identifier(st));
    NamespacedKey(ProfileSourceEnum.Value(ProfileSourceEnum.Xbl), Identifier(st))
  }

  /** `getUrl`: the query marks a gamertag lookup, and only a gamertag lookup. */
  function Url(st: State): (url: string)
    ensures |url| >= |BaseUrl| && url[..|BaseUrl|] == BaseUrl
    ensures st.username.Some? <==> |url| >= |BaseUrl| + |UsernameQuery| && url[|url| - |UsernameQuery|..] == UsernameQuery && url[|BaseUrl|..|url| - |UsernameQuery|] == Identifier(st)
  {
    var url := BaseUrl + Identifier(st);
    if st.username.Some? then url + UsernameQuery else url
  }

  /** `fetch`: the request service's outcome, with a not-found body turned into a 404. */
  function FetchResult(st: State, script: seq<Transport>): (r: Result<Profile, Error>)
    ensures Get(Url(st), script).result.Err? ==> r == Err(Get(Url(st), script).result.error)
    ensures Get(Url(st), script).result.Ok? && IdentService.NotFoundBody(Get(Url(st), script).result.value.body) ==>
              r == Err(RequestFailed(404, "Unable to find profile"))
    ensures r.Ok? <==> Get(Url(st), script).result.Ok? &&
                       var body := Get(Url(st), script).result.value.body;
                       !IdentService.NotFoundBody(body) && !IdentService.CodeUnreadable(body) && IdentService.Complete(body)
    ensures r.Ok? ==> r == IdentService.Normalise(Get(Url(st), script).result.value.body)
    ensures r.Err? ==> (r.error.RequestFailed? && r.error.status >= 400) || r.error == ErrorException
  {
    IdentService.Interpret(Get(Url(st), script).result)
  }

  class XblSource {
    var id: Option<int>
    var username: Option<string>
    ghost var validated: bool

    constructor ()
      ensures !validated
    {
      id, username := None, None;
      validated := false;
    }

    method SetPayload(payload: Payload) returns (o: Outcome<Error>)
      modifies this
      ensures Validate(payload).Err? ==> o == Fail(Validate(payload).error) && unchanged(this)
      ensures Validate(payload).Ok? ==> o == Pass && validated && State(id, username) == Validate(payload).value
    {
      var r := Validate(payload);
      if r.Err? {
        return Fail(r.error);
      }
      id, username := r.value.id, r.value.username;
      validated := true;
      o := Pass;
    }

    function CacheKey(): (k: string)
      reads this
      requires validated
      ensures k == Key(State(id, username))
    {
      Key(State(id, username))
    }

    method Fetch(script: seq<Transport>) returns (r: Result<Profile, Error>)
      requires validated
      ensures r == FetchResult(State(id, username), script)
    {
      var response := Get(Url(State(id, username)), script).result;
      r := IdentService.Interpret(response);
    }
  }

  /** An id payload of up to 18 digits is accepted and keyed by those same digits. */
  lemma IdKeyEchoesPayload(s: string)
    requires Canonical(s) && |s| <= 18
    ensures Validate(map["id" := Str(s)]).Ok?
    ensures Key(Validate(map["id" := Str(s)]).value) == "xbl|" + s
  {
    var p := map["id" := Str(s)];
    ShortNumberIsInteger(s);
    assert !Blank(s) by { assert !IsTrimmed(s[0]); }
    assert Filled(p, "id") && !Filled(p, "username");
    RulesExact(p);
    assert Identifier(Validate(p).value) == s;
  }

  /** A gamertag payload is keyed by the gamertag itself. */
  lemma UsernameKeyExample()
    ensures Validate(map["username" := Str("john.smith")]).Ok?
    ensures Key(Validate(map["username" := Str("john.smith")]).value) == "xbl|john.smith"
  {
    var u := "john.smith";
    var q := map["username" := Str(u)];
    assert !Blank(u) by { assert u[0] == 'j' && !IsTrimmed(u[0]); }
    assert Filled(q, "username") && !Filled(q, "id");
    RulesExact(q);
    assert Identifier(Validate(q).value) == u;
  }

  /** A body with `error.code == 400` is a not-found error with status 404, never a profile. */
  lemma NotFoundBodyIs404(st: State)
    ensures var body := JObj(map["error" := JObj(map["code" := JInt(400)])]);
            FetchResult(st, [Received(Response(200, body))]) == Err(RequestFailed(404, "Unable to find profile"))
  {
  }

  /** An id and a gamertag written alike share one cache entry. */
  lemma IdAndGamertagShareKey()
    ensures Key(State(Some(123), None)) == Key(State(None, Some("123")))
  {
    assert Decimal(123) == "123";
  }
}
