/**
 * ProfileController: the lookup endpoint. It resolves the `type` to a
 * strategy, runs the profile service, and maps what the service throws to
 * an HTTP response with its own catch chain.
 */
module ProfileController {
  import opened Wrappers
  import opened Domain
  import opened Validation
  import opened ExternalRequest
  import opened RateLimiting
  import ProfileSourceEnum
  import ProfileSourceInterface
  import ProfileService
  import LookupRequest
  import ErrorRendering
  import SourceSteam

  const TooManyRequests: string := "Too many requests, try again shortly"
  const ServerError: string := "Server error"

  datatype Body = ProfileBody(profile: Profile) | Message(message: string) | Invalid(fields: set<string>)
  datatype Reply = Reply(status: int, body: Body)

  /**
   * How a request ends: a reply; a request failure below 400, which no
   * branch answers so that `$profile` is read unassigned; or a PHP Error,
   * which `catch (Exception)` does not catch.
   */
  datatype Handled = Replied(reply: Reply) | Unassigned | Uncaught(error: Error)

  /** The catch chain of `__invoke`. */
  function Catch(e: Error): (h: Handled)
    ensures e.RequestFailed? ==> (h.Unassigned? <==> e.status < 400)
    ensures e.RequestFailed? && e.status >= 400 ==>
              h.Replied? && h.reply.body == Message(e.message) && h.reply.status in {400, 404, 502}
    ensures e.Throttled? ==> h == Replied(Reply(429, Message(TooManyRequests)))
    // a validation error from a strategy, the unified Minecraft strategy's exceptions and a rethrown warning are plain Exceptions
    ensures e.ValidationFailed? || e.ProfileNotFound? || e.ProfileFetchFailed? || e.ErrorException? ==>
              h == Replied(Reply(500, Message(ServerError)))
    ensures e.PhpError? <==> h.Uncaught?
    ensures h.Uncaught? ==> h.error == e
  {
    match e
    case RequestFailed(code, message) =>
      if code == 404 then Replied(Reply(404, Message(message)))
      else if code >= 500 then Replied(Reply(502, Message(message)))
      else if code >= 400 then Replied(Reply(400, Message(message)))
      else Unassigned
    case Throttled => Replied(Reply(429, Message(TooManyRequests)))
    case PhpError(_) => Uncaught(e)
    case _ => Replied(Reply(500, Message(ServerError)))
  }

  /** The controller's mapping of request failures agrees with the application's renderer, status for status. */
  lemma AgreesWithRenderer(code: int, message: string)
    ensures Catch(RequestFailed(code, message)).Replied? <==> ErrorRendering.RenderRequestFailed(code, message).Some?
    ensures Catch(RequestFailed(code, message)).Replied? ==>
              Catch(RequestFailed(code, message)).reply.status == ErrorRendering.RenderRequestFailed(code, message).value.status
  {
  }

  /** One request, with the shared cache and limiter before and after it. */
  datatype Exchange = Exchange(handled: Handled, cache: ProfileService.Cache, buckets: Buckets)

  /** The endpoint: request rules `rules`, then `from`, `strategy()`, the service, and the catch chain. */
  function Invoke(rules: seq<FieldRules>, p: Payload, c: ProfileService.Cache, b: Buckets, ip: string, now: int, script: seq<Transport>)
    : (x: Exchange)
    // refused by the request rules: 422 with the fields in error, before the controller runs
    ensures Errors(p, rules) != {} ==> x == Exchange(Replied(Reply(LookupRequest.UnprocessableStatus, Invalid(Errors(p, rules)))), c, b)
    // a `type` that names no tag: `from` throws a ValueError
    ensures Errors(p, rules) == {} && ProfileSourceEnum.From(LookupRequest.TypeText(p)).None? ==>
              x == Exchange(Uncaught(PhpError("ValueError")), c, b)
    // a tag without a strategy
    ensures Errors(p, rules) == {} && ProfileSourceEnum.From(LookupRequest.TypeText(p)).Some? &&
            ProfileSourceEnum.Strategy(ProfileSourceEnum.From(LookupRequest.TypeText(p)).value).None? ==>
              x == Exchange(Uncaught(PhpError("UnhandledMatchError")), c, b)
    // otherwise the service's answer: a profile is a 200 with that profile, an exception goes through
    // the catch chain, and the cache and limiter are the ones the service leaves
    ensures Errors(p, rules) == {} && ProfileSourceEnum.From(LookupRequest.TypeText(p)).Some? &&
            ProfileSourceEnum.Strategy(ProfileSourceEnum.From(LookupRequest.TypeText(p)).value).Some? ==>
              var kind := ProfileSourceEnum.Strategy(ProfileSourceEnum.From(LookupRequest.TypeText(p)).value).value;
              var s := ProfileService.Serve(kind, c, p, b, ip, now, script);
              x.cache == s.cache && x.buckets == s.buckets &&
              (s.result.Ok? ==> x.handled == Replied(Reply(200, ProfileBody(s.result.value)))) &&
              (s.result.Err? ==> x.handled == Catch(s.result.error))
    // a 200 is only ever the answer to a profile
    ensures x.handled.Replied? && x.handled.reply.status == 200 ==> x.handled.reply.body.ProfileBody?
  {
    if Errors(p, rules) != {} then
      Exchange(Replied(Reply(LookupRequest.UnprocessableStatus, Invalid(Errors(p, rules)))), c, b)
    else
      match ProfileSourceEnum.From(LookupRequest.TypeText(p))
      case None => Exchange(Uncaught(PhpError("ValueError")), c, b)
      case Some(tag) =>
        match ProfileSourceEnum.Strategy(tag)
        case None => Exchange(Uncaught(PhpError("UnhandledMatchError")), c, b)
        case Some(kind) =>
          var s := ProfileService.Serve(kind, c, p, b, ip, now, script);
          var h := if s.result.Ok? then Replied(Reply(200, ProfileBody(s.result.value))) else Catch(s.result.error);
          Exchange(h, s.cache, s.buckets)
  }

  /**
   * The branch that leaves `$profile` unassigned is never taken: every
   * request failure the strategies throw carries a status of 400 or more.
   */
  lemma {:induction false} NeverUnassigned(rules: seq<FieldRules>, p: Payload, c: ProfileService.Cache, b: Buckets, ip: string, now: int, script: seq<Transport>)
    ensures !Invoke(rules, p, c, b, ip, now, script).handled.Unassigned?
  {
    if Errors(p, rules) == {} && ProfileSourceEnum.From(LookupRequest.TypeText(p)).Some? {
      var kind := ProfileSourceEnum.Strategy(ProfileSourceEnum.From(LookupRequest.TypeText(p)).value);
      if kind.Some? {
        ProfileSourceInterface.ValidationErrors(kind.value, p);
        if ProfileSourceInterface.ValidateAs(kind.value, p).Pass? {
          ProfileSourceInterface.FetchErrors(kind.value, p, b, ip, now, script);
        }
      }
    }
  }

  /** A valid `type=xbl` request always ends in an unhandled match error. */
  lemma XblUnsupported(rules: seq<FieldRules>, p: Payload, c: ProfileService.Cache, b: Buckets, ip: string, now: int, script: seq<Transport>)
    requires Errors(p, rules) == {} && LookupRequest.TypeText(p) == "xbl"
    ensures Invoke(rules, p, c, b, ip, now, script) == Exchange(Uncaught(PhpError("UnhandledMatchError")), c, b)
  {
  }

  /** A Steam id the request rules let through but the strategy refuses is answered 500 "Server error". */
  lemma StrategyRefusalIsServerError(rules: seq<FieldRules>, p: Payload, c: ProfileService.Cache, b: Buckets, ip: string, now: int, script: seq<Transport>)
    requires Errors(p, rules) == {} && LookupRequest.TypeText(p) == "steam"
    requires SourceSteam.Validate(p).Err?
    ensures Invoke(rules, p, c, b, ip, now, script) == Exchange(Replied(Reply(500, Message(ServerError))), c, b)
  {
  }

  /** As written: a request with an identifier and no `type` ends in a ValueError. */
  lemma MissingTypeCrashes(id: string, c: ProfileService.Cache, b: Buckets, ip: string, now: int, script: seq<Transport>)
    requires !Blank(id)
    ensures Invoke(LookupRequest.Rules, map["id" := Str(id)], c, b, ip, now, script).handled == Uncaught(PhpError("ValueError"))
  {
    LookupRequest.MissingTypePasses(id);
  }

  /** Corrected: with `type` required, no request reaches `from` with a value it cannot resolve. */
  lemma CorrectedNeverValueError(p: Payload, c: ProfileService.Cache, b: Buckets, ip: string, now: int, script: seq<Transport>)
    ensures Invoke(LookupRequest.CorrectedRules, p, c, b, ip, now, script).handled != Uncaught(PhpError("ValueError"))
  {
    if Errors(p, LookupRequest.CorrectedRules) == {} {
      LookupRequest.CorrectedTypeResolves(p);
      var tag := ProfileSourceEnum.From(LookupRequest.TypeText(p)).value;
      if ProfileSourceEnum.Strategy(tag).Some? {
        var kind := ProfileSourceEnum.Strategy(tag).value;
        ProfileSourceInterface.ValidationErrors(kind, p);
        if ProfileSourceInterface.ValidateAs(kind, p).Pass? {
          ProfileSourceInterface.FetchErrors(kind, p, b, ip, now, script);
        }
      }
    }
  }

  /**
   * A Steam lookup whose upstream body lacks the expected keys ends in a
   * rethrown warning: the answer is 500 "Server error" and nothing is cached.
   */
  lemma IncompleteSteamBodyIsServerError(rules: seq<FieldRules>, p: Payload, c: ProfileService.Cache, b: Buckets, ip: string, now: int)
    requires Errors(p, rules) == {} && LookupRequest.TypeText(p) == "steam"
    requires SourceSteam.Validate(p).Ok?
    requires ProfileService.Cached(c, SourceSteam.Key(SourceSteam.Validate(p).value), now).None?
    requires !TooManyAttempts(b, SourceSteam.LimiterKey(ip), SourceSteam.MaxAttempts, now)
    ensures var x := Invoke(rules, p, c, b, ip, now, [Received(Response(200, Php.JObj(map[])))]);
            x.handled == Replied(Reply(500, Message(ServerError))) && x.cache == c
  {
    var script := [Received(Response(200, Php.JObj(map[])))];
    var id := SourceSteam.Validate(p).value;
    assert Final(AttemptAt(script, 0));
    assert SourceSteam.FetchResult(id, b, ip, now, script) == Err(ErrorException);
  }
}
