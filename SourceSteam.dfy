/**
 * ProfileSourceSteam: a 17-digit numeric Steam id, looked up on the
 * identity service's username service 4, behind a per-caller limiter of
 * 50 calls a minute.
 */
module SourceSteam {
  import opened Wrappers
  import opened Php
  import opened Domain
  import opened Validation
  import opened ExternalRequest
  import opened RateLimiting
  import ProfileSourceEnum
  import IdentService

  const BaseUrl: string := "https://ident.tebex.io/usernameservices/4/username/"
  const MaxAttempts: nat := 50
  const DecaySeconds: nat := 60

  /** `'id' => ['required', 'integer', 'digits:17']`. */
  const Rules: seq<FieldRules> := [FieldRules("id", [Required, Integer, Digits(17)])]

  /** The ids the rules let through, stated directly: 17 digits, the first not zero. */
  predicate AcceptedId(p: Payload) {
    "id" in p &&
    match p["id"]
    case Null => false
    case Str(s) => |s| == 17 && AllDigits(s) && s[0] != '0'
    case Int(n) => Pow10(16) <= n < Pow10(17)
  }

  /** An id of 17 digits without a leading zero passes every rule. */
  lemma AcceptedIdPasses(p: Payload)
    requires AcceptedId(p)
    ensures !FieldFails(p, "id", Rules[0].rules)
  {
    FailsOfThree(p, "id", Required, Integer, Digits(17));
    match p["id"]
    case Str(s) =>
      ShortNumberIsInteger(s);
      assert !Blank(s) by { assert !IsTrimmed(s[0]); }
    case Int(n) =>
      NaturalLength(n, 17);
  }

  /** Any other id (or none) fails one of the rules. */
  lemma OtherIdFails(p: Payload)
    requires !AcceptedId(p)
    ensures FieldFails(p, "id", Rules[0].rules)
  {
    FailsOfThree(p, "id", Required, Integer, Digits(17));
    if "id" in p && p["id"].Int? && p["id"].n >= 0 {
      NaturalLength(p["id"].n, 17);
    }
  }

  /** The rules reject exactly the payloads whose id is not a 17-digit number, and blame `id`. */
  lemma RulesAcceptExactly(p: Payload)
    ensures Errors(p, Rules) == {} <==> AcceptedId(p)
    ensures Errors(p, Rules) == {} || Errors(p, Rules) == {"id"}
  {
    ErrorsOfOne(p, Rules[0]);
    if AcceptedId(p) {
      AcceptedIdPasses(p);
    } else {
      OtherIdFails(p);
    }
  }

  /** `setPayload`: the stored id is `(int)$payload['id']`, or a ValidationException. */
  function Validate(p: Payload): (r: Result<int, Error>)
    ensures r.Ok? <==> AcceptedId(p)
    ensures r.Err? ==> r.error == ValidationFailed({"id"})
    ensures r.Ok? ==> Pow10(16) <= r.value < Pow10(17)
    // the id read back as text is the text the caller sent
    ensures r.Ok? && p["id"].Str? ==> Decimal(r.value) == p["id"].s
  {
    RulesAcceptExactly(p);
    var errs := Errors(p, Rules);
    if errs != {} then Err(ValidationFailed(errs))
    else
      match p["id"]
      case Int(n) => Ok(n)
      case Str(s) =>
        ShortNumberIsInteger(s);
        NaturalOfParse(s);
        ParseDigitsLowerBound(s);
        Ok(ParseDigits(s))
  }

  /** A missing id, `123`, eighteen ones and seventeen letters are all refused. */
  lemma RejectedIds()
    ensures Validate(map[]) == Err(ValidationFailed({"id"}))
    ensures Validate(map["id" := Str("123")]) == Err(ValidationFailed({"id"}))
    ensures Validate(map["id" := Str("111111111111111111")]) == Err(ValidationFailed({"id"}))
    ensures Validate(map["id" := Str("aaaaaaaaaaaaaaaaa")]) == Err(ValidationFailed({"id"}))
  {
    assert !IsDigit('a');
  }

  /** `sprintf('%s|%d', STEAM, $id)`. */
  function Key(id: int): (k: string)
    ensures SplitKey(k) == (ProfileSourceEnum.Value(ProfileSourceEnum.Steam), Decimal(id))
  {
    SplitNamespacedKey(ProfileSourceEnum.Value(ProfileSourceEnum.Steam), Decimal(id));
    NamespacedKey(ProfileSourceEnum.Value(ProfileSourceEnum.Steam), Decimal(id))
  }

  /** The cache key of a valid text id is `steam|` followed by that same text. */
  lemma KeyEchoesPayload(p: Payload)
    requires Validate(p).Ok? && p["id"].Str?
    ensures Key(Validate(p).value) == "steam|" + p["id"].s
  {
  }

  /** The service-4 endpoint for the id, printed in decimal. */
  function Url(id: int): (url: string)
    ensures |url| > |BaseUrl| && url[..|BaseUrl|] == BaseUrl && url[|BaseUrl|..] == Decimal(id)
  {
    BaseUrl + Decimal(id)
  }

  /** `sprintf('external_call|%s|%s', STEAM, $ip)`. */
  const LimiterPrefix: string := "external_call|steam|"

  /** `sprintf('external_call|%s|%s', STEAM, $ip)`: one bucket per caller. */
  function LimiterKey(ip: string): (k: string)
    ensures |k| == |LimiterPrefix| + |ip|
    ensures k[..|LimiterPrefix|] == LimiterPrefix && k[|LimiterPrefix|..] == ip
  {
    "external_call|" + ProfileSourceEnum.Value(ProfileSourceEnum.Steam) + "|" + ip
  }

  /** Distinct callers never share a bucket. */
  lemma LimiterKeysDistinct(ip1: string, ip2: string)
    requires ip1 != ip2
    ensures LimiterKey(ip1) != LimiterKey(ip2)
  {
    assert LimiterKey(ip1)[|LimiterPrefix|..] == ip1;
  }

  /** What `fetch` returns or throws, given the limiter's buckets and the network. */
  function FetchResult(id: int, b: Buckets, ip: string, now: int, script: seq<Transport>): (r: Result<Profile, Error>)
    ensures TooManyAttempts(b, LimiterKey(ip), MaxAttempts, now) ==> r == Err(Throttled)
    ensures r.Err? && r.error.RequestFailed? ==> r.error.status >= 400
    // an admitted call is the identity-service reading of the request service's outcome
    ensures !TooManyAttempts(b, LimiterKey(ip), MaxAttempts, now) ==> r == IdentService.Interpret(Get(Url(id), script).result)
    ensures r.Ok? <==> !TooManyAttempts(b, LimiterKey(ip), MaxAttempts, now) && Get(Url(id), script).result.Ok? &&
                       var body := Get(Url(id), script).result.value.body;
                       !IdentService.NotFoundBody(body) && !IdentService.CodeUnreadable(body) && IdentService.Complete(body)
    ensures r.Ok? ==> r == IdentService.Normalise(Get(Url(id), script).result.value.body)
  {
    if TooManyAttempts(b, LimiterKey(ip), MaxAttempts, now) then Err(Throttled)
    else IdentService.Interpret(Get(Url(id), script).result)
  }

  /** The limiter after `fetch`: a hit is recorded only when the request service returned. */
  function BucketsAfterFetch(id: int, b: Buckets, ip: string, now: int, script: seq<Transport>): (b': Buckets)
    // the caller's live count grows by one exactly when the call was admitted and the service returned
    ensures Hits(b', LimiterKey(ip), now) ==
              Hits(b, LimiterKey(ip), now) +
              (if !TooManyAttempts(b, LimiterKey(ip), MaxAttempts, now) && Get(Url(id), script).result.Ok? then 1 else 0)
    ensures forall k :: k != LimiterKey(ip) ==> (k in b' <==> k in b) && (k in b ==> b'[k] == b[k])
  {
    if !TooManyAttempts(b, LimiterKey(ip), MaxAttempts, now) && Get(Url(id), script).result.Ok?
    then AfterHit(b, LimiterKey(ip), DecaySeconds, now)
    else b
  }

  class SteamSource {
    var id: int
    /** Set once `setPayload` has accepted a payload. */
    ghost var validated: bool

    constructor ()
      ensures !validated
    {
      id := 0;
      validated := false;
    }

    method SetPayload(payload: Payload) returns (o: Outcome<Error>)
      modifies this
      ensures Validate(payload).Err? ==> o == Fail(Validate(payload).error) && unchanged(this)
      ensures Validate(payload).Ok? ==> o == Pass && validated && id == Validate(payload).value
    {
      var r := Validate(payload);
      if r.Err? {
        return Fail(r.error);
      }
      id := r.value;
      validated := true;
      o := Pass;
    }

    function CacheKey(): (k: string)
      reads this
      requires validated
      ensures k == Key(id)
    {
      Key(id)
    }

    /** `fetch`: the limiter admits the call or throws; the request service is called only when admitted. */
    method Fetch(limiter: RateLimiter, ip: string, now: int, script: seq<Transport>)
      returns (r: Result<Profile, Error>, contacted: bool)
      requires validated
      modifies limiter
      ensures contacted <==> !TooManyAttempts(old(limiter.buckets), LimiterKey(ip), MaxAttempts, now)
      ensures r == FetchResult(id, old(limiter.buckets), ip, now, script)
      ensures limiter.buckets == BucketsAfterFetch(id, old(limiter.buckets), ip, now, script)
    {
      var url := Url(id);
      var key := LimiterKey(ip);
      if limiter.TooMany(key, MaxAttempts, now) {
        return Err(Throttled), false;
      }
      contacted := true;
      var response := Get(url, script).result;
      if response.Ok? {
        limiter.Hit(key, DecaySeconds, now);
      }
      r := IdentService.Interpret(response);
    }
  }

  /**
   * Fifty fetches from one caller inside a minute are all let through to
   * the request service, and a fifty-first in the same minute is throttled
   * without reaching it.
   */
  lemma FiftyAdmittedThenThrottled(id: int, ip: string, times: seq<int>, now: int, script: seq<Transport>)
    requires |times| == MaxAttempts && Nondecreasing(times)
    requires times[|times| - 1] <= now < times[0] + DecaySeconds
    ensures forall k :: 0 <= k < MaxAttempts ==>
              !TooManyAttempts(Replay(map[], LimiterKey(ip), DecaySeconds, times[..k]), LimiterKey(ip), MaxAttempts, times[k])
    ensures FetchResult(id, Replay(map[], LimiterKey(ip), DecaySeconds, times), ip, now, script) == Err(Throttled)
  {
    var key := LimiterKey(ip);
    forall k | 0 <= k < MaxAttempts
      ensures !TooManyAttempts(Replay(map[], key, DecaySeconds, times[..k]), key, MaxAttempts, times[k])
    {
      if k > 0 {
        ReplayCounts(map[], key, DecaySeconds, times[..k], times[k]);
      } else {
        assert times[..k] == [];
      }
    }
    ReplayCounts(map[], key, DecaySeconds, times, now);
  }

  /** Any 17-digit text id without a leading zero (`99999999999999999`, say) is accepted and keyed `steam|` + that text. */
  lemma SeventeenDigitKey(s: string)
    requires |s| == 17 && AllDigits(s) && s[0] != '0'
    ensures Validate(map["id" := Str(s)]).Ok?
    ensures Key(Validate(map["id" := Str(s)]).value) == "steam|" + s
  {
    var p := map["id" := Str(s)];
    assert AcceptedId(p);
    KeyEchoesPayload(p);
  }

  /**
   * The example lookup: a found body (such as username `exampleUser123`,
   * id `99999999999999999`) is mapped to its username, id and `meta.avatar`.
   */
  lemma ExampleFetch(id: int, ip: string, now: int, name: string, uid: string, avatar: string)
    ensures var body := JObj(map["id" := JStr(uid), "username" := JStr(name), "meta" := JObj(map["avatar" := JStr(avatar)])]);
            FetchResult(id, map[], ip, now, [Received(Response(200, body))]) == Ok(Profile(JStr(name), JStr(uid), JStr(avatar)))
  {
    var body := JObj(map["id" := JStr(uid), "username" := JStr(name), "meta" := JObj(map["avatar" := JStr(avatar)])]);
    var script := [Received(Response(200, body))];
    assert Get(Url(id), script).result == Ok(Response(200, body)) by {
      assert Final(AttemptAt(script, 0));
    }
    assert !Isset(body, "error") by {
      assert "error" != "id" && "error" != "username" && "error" != "meta";
    }
    assert IdentService.Complete(body);
  }

  /** A body with `error.code == 400` is a not-found error with status 404, never a profile. */
  lemma NotFoundBodyIs404(id: int, ip: string, now: int)
    ensures var body := JObj(map["error" := JObj(map["code" := JInt(400)])]);
            FetchResult(id, map[], ip, now, [Received(Response(200, body))]) == Err(RequestFailed(404, "Unable to find profile"))
  {
  }
}
