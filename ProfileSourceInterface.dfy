/**
 * ProfileSourceInterface: the protocol every strategy follows. `setPayload`
 * validates and stores the request's identifiers, `getCacheKey` and `fetch`
 * read only what it stored. The strategies form a closed family here, so
 * the interface is a datatype over the five strategy objects.
 */
module ProfileSourceInterface {
  import opened Wrappers
  import opened Domain
  import opened Validation
  import opened ExternalRequest
  import opened RateLimiting
  import ProfileSourceEnum
  import SourceSteam
  import SourceXbl
  import SourceMinecraftId
  import SourceMinecraftUsername
  import SourceMinecraft

  type StrategyKind = ProfileSourceEnum.StrategyKind

  /** The validation outcome of a strategy, without the stored state. */
  function Check<T>(r: Result<T, Error>): (o: Outcome<Error>)
    ensures o.Pass? <==> r.Ok?
    ensures o.Fail? ==> o.error == r.error
  {
    if r.Ok? then Pass else Fail(r.error)
  }

  /** The tag whose namespace a strategy's cache keys live in. */
  function TagOf(kind: StrategyKind): ProfileSourceEnum.SourceTag {
    match kind
    case SteamKind => ProfileSourceEnum.Steam
    case XblKind => ProfileSourceEnum.Xbl
    case _ => ProfileSourceEnum.Minecraft
  }

  /** `setPayload` of the strategy `kind`, as an outcome. */
  function ValidateAs(kind: StrategyKind, p: Payload): Outcome<Error> {
    match kind
    case SteamKind => Check(SourceSteam.Validate(p))
    case XblKind => Check(SourceXbl.Validate(p))
    case MinecraftIdKind => Check(SourceMinecraftId.Validate(p))
    case MinecraftUsernameKind => Check(SourceMinecraftUsername.Validate(p))
    case MinecraftKind => Check(SourceMinecraft.Validate(p))
  }

  /** `getCacheKey` after a `setPayload(p)` that was accepted. */
  function KeyAs(kind: StrategyKind, p: Payload): string
    requires ValidateAs(kind, p).Pass?
  {
    match kind
    case SteamKind => SourceSteam.Key(SourceSteam.Validate(p).value)
    case XblKind => SourceXbl.Key(SourceXbl.Validate(p).value)
    case MinecraftIdKind => SourceMinecraftId.Key(SourceMinecraftId.Validate(p).value)
    case MinecraftUsernameKind => SourceMinecraftUsername.Key(SourceMinecraftUsername.Validate(p).value)
    case MinecraftKind => SourceMinecraft.Key(SourceMinecraft.Validate(p).value)
  }

  /** `fetch` after a `setPayload(p)` that was accepted. */
  function FetchAs(kind: StrategyKind, p: Payload, b: Buckets, ip: string, now: int, script: seq<Transport>): Result<Profile, Error>
    requires ValidateAs(kind, p).Pass?
  {
    match kind
    case SteamKind => SourceSteam.FetchResult(SourceSteam.Validate(p).value, b, ip, now, script)
    case XblKind => SourceXbl.FetchResult(SourceXbl.Validate(p).value, script)
    case MinecraftIdKind => SourceMinecraftId.FetchResult(SourceMinecraftId.Validate(p).value, script)
    case MinecraftUsernameKind => SourceMinecraftUsername.FetchResult(SourceMinecraftUsername.Validate(p).value, script)
    case MinecraftKind => SourceMinecraft.FetchCall(SourceMinecraft.Validate(p).value, script).result
  }

  /** The limiter's buckets after that `fetch`: only Steam's calls are limited. */
  function BucketsAs(kind: StrategyKind, p: Payload, b: Buckets, ip: string, now: int, script: seq<Transport>): Buckets
    requires ValidateAs(kind, p).Pass?
  {
    if kind.SteamKind? then SourceSteam.BucketsAfterFetch(SourceSteam.Validate(p).value, b, ip, now, script) else b
  }

  /** `setPayload` throws only a validation error, or a TypeError where Xbl stores a non-integer id. */
  lemma ValidationErrors(kind: StrategyKind, p: Payload)
    ensures ValidateAs(kind, p).Fail? ==>
              (ValidateAs(kind, p).error.ValidationFailed? && ValidateAs(kind, p).error.fields != {}) ||
              (kind.XblKind? && ValidateAs(kind, p).error == PhpError("TypeError"))
  {
    if kind.XblKind? && SourceXbl.Validate(p).Err? && SourceXbl.Validate(p).error.ValidationFailed? {
      SourceXbl.RulesExact(p);
    }
  }

  /** Every key lives in its strategy's namespace: `<tag>|<identifier>`. */
  lemma KeyNamespaced(kind: StrategyKind, p: Payload)
    requires ValidateAs(kind, p).Pass?
    ensures SplitKey(KeyAs(kind, p)).0 == ProfileSourceEnum.Value(TagOf(kind))
  {
  }

  /** Keys of strategies for different sources never meet, whatever the payloads. */
  lemma {:induction false} KeysDistinctAcrossSources(k1: StrategyKind, p1: Payload, k2: StrategyKind, p2: Payload)
    requires ValidateAs(k1, p1).Pass? && ValidateAs(k2, p2).Pass?
    requires TagOf(k1) != TagOf(k2)
    ensures KeyAs(k1, p1) != KeyAs(k2, p2)
  {
    KeyNamespaced(k1, p1);
    KeyNamespaced(k2, p2);
    ProfileSourceEnum.ValuesDistinct(TagOf(k1), TagOf(k2));
  }

  /**
   * How `fetch` fails: Steam, Xbl and the split Minecraft strategies throw
   * request failures with an error status (a missing profile as 404), Steam
   * also a throttle; the unified Minecraft strategy throws its own
   * not-found and fetch-failed exceptions; and any of them can hit a
   * warning while reading a body that lacks the expected keys.
   */
  lemma FetchErrors(kind: StrategyKind, p: Payload, b: Buckets, ip: string, now: int, script: seq<Transport>)
    requires ValidateAs(kind, p).Pass?
    ensures var r := FetchAs(kind, p, b, ip, now, script);
            r.Err? ==>
              (r.error.RequestFailed? && r.error.status >= 400) ||
              (kind.SteamKind? && r.error.Throttled?) ||
              (kind.MinecraftKind? && (r.error.ProfileNotFound? || r.error.ProfileFetchFailed?)) ||
              r.error == ErrorException
  {
  }

  /** A strategy object, seen through the interface. */
  datatype Source =
    | SteamSource(steam: SourceSteam.SteamSource)
    | XblSource(xbl: SourceXbl.XblSource)
    | MinecraftIdSource(minecraftId: SourceMinecraftId.MinecraftIdSource)
    | MinecraftUsernameSource(minecraftUsername: SourceMinecraftUsername.MinecraftUsernameSource)
    | MinecraftSource(minecraft: SourceMinecraft.MinecraftSource)
  {
    function Kind(): StrategyKind {
      match this
      case SteamSource(_) => ProfileSourceEnum.SteamKind
      case XblSource(_) => ProfileSourceEnum.XblKind
      case MinecraftIdSource(_) => ProfileSourceEnum.MinecraftIdKind
      case MinecraftUsernameSource(_) => ProfileSourceEnum.MinecraftUsernameKind
      case MinecraftSource(_) => ProfileSourceEnum.MinecraftKind
    }

    /** The object whose fields `setPayload` writes. */
    function Obj(): object {
      match this
      case SteamSource(s) => s
      case XblSource(s) => s
      case MinecraftIdSource(s) => s
      case MinecraftUsernameSource(s) => s
      case MinecraftSource(s) => s
    }

    ghost predicate Validated()
      reads Obj()
    {
      match this
      case SteamSource(s) => s.validated
      case XblSource(s) => s.validated
      case MinecraftIdSource(s) => s.validated
      case MinecraftUsernameSource(s) => s.validated
      case MinecraftSource(s) => s.validated
    }

    /** The stored state is the one `setPayload(p)` stores. */
    ghost predicate Loaded(p: Payload)
      reads Obj()
    {
      Validated() && ValidateAs(Kind(), p).Pass? &&
      match this
      case SteamSource(s) => s.id == SourceSteam.Validate(p).value
      case XblSource(s) => SourceXbl.State(s.id, s.username) == SourceXbl.Validate(p).value
      case MinecraftIdSource(s) => s.id == SourceMinecraftId.Validate(p).value
      case MinecraftUsernameSource(s) => s.username == SourceMinecraftUsername.Validate(p).value
      case MinecraftSource(s) => SourceMinecraft.State(s.id, s.username) == SourceMinecraft.Validate(p).value
    }

    function CacheKey(): (k: string)
      reads Obj()
      requires Validated()
      ensures SplitKey(k).0 == ProfileSourceEnum.Value(TagOf(Kind()))
    {
      match this
      case SteamSource(s) => s.CacheKey()
      case XblSource(s) => s.CacheKey()
      case MinecraftIdSource(s) => s.CacheKey()
      case MinecraftUsernameSource(s) => s.CacheKey()
      case MinecraftSource(s) => s.CacheKey()
    }
  }

  /** Once loaded with p, the key and the fetch are the ones p determines. */
  lemma LoadedDetermines(src: Source, p: Payload)
    requires src.Loaded(p)
    ensures src.CacheKey() == KeyAs(src.Kind(), p)
  {
  }

  /** `strategy()`'s `new`: a fresh strategy with nothing stored yet. */
  method Make(kind: StrategyKind) returns (src: Source)
    ensures src.Kind() == kind && fresh(src.Obj()) && !src.Validated()
  {
    match kind
    case SteamKind => var s := new SourceSteam.SteamSource(); src := SteamSource(s);
    case XblKind => var s := new SourceXbl.XblSource(); src := XblSource(s);
    case MinecraftIdKind => var s := new SourceMinecraftId.MinecraftIdSource(); src := MinecraftIdSource(s);
    case MinecraftUsernameKind => var s := new SourceMinecraftUsername.MinecraftUsernameSource(); src := MinecraftUsernameSource(s);
    case MinecraftKind => var s := new SourceMinecraft.MinecraftSource(); src := MinecraftSource(s);
  }

  /** `setPayload`: on success the source is loaded with p; on failure nothing it stores changes. */
  method SetPayload(src: Source, p: Payload) returns (o: Outcome<Error>)
    modifies src.Obj()
    ensures o == ValidateAs(src.Kind(), p)
    ensures o.Pass? ==> src.Loaded(p)
    ensures o.Fail? ==> unchanged(src.Obj())
  {
    match src
    case SteamSource(s) => o := s.SetPayload(p);
    case XblSource(s) => o := s.SetPayload(p);
    case MinecraftIdSource(s) => o := s.SetPayload(p);
    case MinecraftUsernameSource(s) => o := s.SetPayload(p);
    case MinecraftSource(s) => o := s.SetPayload(p);
  }

  /** `fetch` of a loaded source: the result and the limiter are the ones p determines. */
  method Fetch(src: Source, ghost p: Payload, limiter: RateLimiter, ip: string, now: int, script: seq<Transport>)
    returns (r: Result<Profile, Error>)
    requires src.Loaded(p)
    modifies limiter
    ensures r == FetchAs(src.Kind(), p, old(limiter.buckets), ip, now, script)
    ensures limiter.buckets == BucketsAs(src.Kind(), p, old(limiter.buckets), ip, now, script)
  {
    match src
    case SteamSource(s) => var contacted; r, contacted := s.Fetch(limiter, ip, now, script);
    case XblSource(s) => r := s.Fetch(script);
    case MinecraftIdSource(s) => r := s.Fetch(script);
    case MinecraftUsernameSource(s) => r := s.Fetch(script);
    case MinecraftSource(s) => r := s.Fetch(script);
  }
}
