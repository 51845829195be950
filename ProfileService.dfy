/**
 * ProfileService: the cache-aside orchestrator. It hands the payload to
 * the chosen source, serves a cached profile when one is live under the
 * source's key, and otherwise fetches from the source and keeps the
 * profile for a day.
 */
module ProfileService {
  import opened Wrappers
  import opened Domain
  import opened Validation
  import opened ExternalRequest
  import opened RateLimiting
  import ProfileSourceEnum
  import opened ProfileSourceInterface

  /** `now()->addDay()`, in seconds. */
  const Day: int := 86400

  datatype Entry = Entry(profile: Profile, expiresAt: int)
  type Cache = map<string, Entry>

  /** `Cache::get`: the stored profile while its entry has not expired. */
  function Cached(c: Cache, key: string, now: int): (r: Option<Profile>)
    ensures r.Some? <==> key in c && now < c[key].expiresAt
    ensures r.Some? ==> r.value == c[key].profile
  {
    if key in c && now < c[key].expiresAt then Some(c[key].profile) else None
  }

  /** What one `fetch` returns or throws, the cache and limiter it leaves, and whether the source was asked. */
  datatype Served = Served(result: Result<Profile, Error>, cache: Cache, buckets: Buckets, fetched: bool)

  /** `fetch($payload)` with a source of the given kind. */
  function Serve(kind: StrategyKind, c: Cache, p: Payload, b: Buckets, ip: string, now: int, script: seq<Transport>): (s: Served)
    // validation comes first: a refused payload touches neither the cache nor the source
    ensures ValidateAs(kind, p).Fail? ==> s == Served(Err(ValidateAs(kind, p).error), c, b, false)
    // a live entry is returned as it is, and the source is not asked
    ensures ValidateAs(kind, p).Pass? && Cached(c, KeyAs(kind, p), now).Some? ==>
              s == Served(Ok(c[KeyAs(kind, p)].profile), c, b, false)
    // otherwise the source is asked once and its answer is the answer
    ensures ValidateAs(kind, p).Pass? && Cached(c, KeyAs(kind, p), now).None? ==>
              s.fetched && s.result == FetchAs(kind, p, b, ip, now, script) && s.buckets == BucketsAs(kind, p, b, ip, now, script)
    // a fetched profile is stored under the request's key for a day; a failure stores nothing
    ensures s.fetched && s.result.Ok? ==> s.cache == c[KeyAs(kind, p) := Entry(s.result.value, now + Day)]
    ensures s.result.Err? || !s.fetched ==> s.cache == c
  {
    match ValidateAs(kind, p)
    case Fail(e) => Served(Err(e), c, b, false)
    case Pass =>
      var key := KeyAs(kind, p);
      match Cached(c, key, now)
      case Some(profile) => Served(Ok(profile), c, b, false)
      case None =>
        var r := FetchAs(kind, p, b, ip, now, script);
        var c' := if r.Ok? then c[key := Entry(r.value, now + Day)] else c;
        Served(r, c', BucketsAs(kind, p, b, ip, now, script), true)
  }

  /** Only the entry under the request's own key can change. */
  lemma OnlyOwnKeyChanges(kind: StrategyKind, c: Cache, p: Payload, b: Buckets, ip: string, now: int, script: seq<Transport>, k: string)
    requires k in c
    requires ValidateAs(kind, p).Pass? ==> k != KeyAs(kind, p)
    ensures var s := Serve(kind, c, p, b, ip, now, script);
            k in s.cache && s.cache[k] == c[k]
  {
  }

  /** A lookup through one source never disturbs what another source has cached. */
  lemma {:induction false} OtherSourcesUntouched(kind: StrategyKind, c: Cache, p: Payload, b: Buckets, ip: string, now: int,
                                                script: seq<Transport>, other: StrategyKind, q: Payload)
    requires TagOf(other) != TagOf(kind)
    requires ValidateAs(other, q).Pass? && KeyAs(other, q) in c
    ensures var s := Serve(kind, c, p, b, ip, now, script);
            KeyAs(other, q) in s.cache && s.cache[KeyAs(other, q)] == c[KeyAs(other, q)]
  {
    if ValidateAs(kind, p).Pass? {
      KeysDistinctAcrossSources(other, q, kind, p);
    }
    OnlyOwnKeyChanges(kind, c, p, b, ip, now, script, KeyAs(other, q));
  }

  /**
   * Idempotence: after a lookup that produced a profile, the same payload
   * within a day gets the same profile from the cache, and the source is
   * not asked again.
   */
  lemma {:induction false} RepeatIsCached(kind: StrategyKind, c: Cache, p: Payload, b: Buckets, ip: string, now: int, script: seq<Transport>,
                                         later: int, b2: Buckets, script2: seq<Transport>)
    requires Serve(kind, c, p, b, ip, now, script).result.Ok?
    requires now <= later < now + Day
    requires Serve(kind, c, p, b, ip, now, script).fetched || later < c[KeyAs(kind, p)].expiresAt
    ensures var first := Serve(kind, c, p, b, ip, now, script);
            var second := Serve(kind, first.cache, p, b2, ip, later, script2);
            second == Served(first.result, first.cache, b2, false)
  {
    var first := Serve(kind, c, p, b, ip, now, script);
    var key := KeyAs(kind, p);
    assert Cached(first.cache, key, later) == Some(first.result.value);
  }

  /** Every key the cache holds is in some source's namespace. */
  ghost predicate Namespaced(c: Cache) {
    forall k :: k in c ==> exists tag: ProfileSourceEnum.SourceTag :: SplitKey(k).0 == ProfileSourceEnum.Value(tag)
  }

  /** Lookups keep the cache namespaced. */
  lemma KeepsNamespaced(kind: StrategyKind, c: Cache, p: Payload, b: Buckets, ip: string, now: int, script: seq<Transport>)
    requires Namespaced(c)
    ensures Namespaced(Serve(kind, c, p, b, ip, now, script).cache)
  {
    var s := Serve(kind, c, p, b, ip, now, script);
    forall k | k in s.cache
      ensures exists tag: ProfileSourceEnum.SourceTag :: SplitKey(k).0 == ProfileSourceEnum.Value(tag)
    {
      if k !in c {
        KeyNamespaced(kind, p);
        assert SplitKey(k).0 == ProfileSourceEnum.Value(TagOf(kind));
      }
    }
  }

  class ProfileService {
    /** `private ProfileSourceInterface $source`, not yet set until `setSource`. */
    var source: Option<Source>
    /** The application cache, as this service sees it. */
    var cache: Cache

    constructor ()
      ensures source == None && cache == map[]
    {
      source := None;
      cache := map[];
    }

    /** The strategy object a lookup may write to. */
    function SourceObjects(): set<object>
      reads this
    {
      if source.Some? then {source.value.Obj()} else {}
    }

    /** `setSource`: later lookups use this source; the cache is kept. */
    method SetSource(src: Source)
      modifies this
      ensures source == Some(src) && cache == old(cache)
    {
      source := Some(src);
    }

    /** `fetch($payload)`. */
    method Fetch(p: Payload, limiter: RateLimiter, ip: string, now: int, script: seq<Transport>)
      returns (r: Result<Profile, Error>)
      modifies this, limiter, SourceObjects()
      ensures source == old(source)
      // reading the uninitialised `$source` property is an Error
      ensures old(source).None? ==>
                r == Err(PhpError("Error")) && cache == old(cache) && limiter.buckets == old(limiter.buckets)
      ensures old(source).Some? ==>
                var s := Serve(old(source).value.Kind(), old(cache), p, old(limiter.buckets), ip, now, script);
                r == s.result && cache == s.cache && limiter.buckets == s.buckets
    // the strategy object holds what `setPayload(p)` stored, or is untouched when p was refused
    ensures old(source).Some? && ValidateAs(old(source).value.Kind(), p).Pass? ==> old(source).value.Loaded(p)
    ensures old(source).Some? && ValidateAs(old(source).value.Kind(), p).Fail? ==> unchanged(old(source).value.Obj())
    {
      if source.None? {
        return Err(PhpError("Error"));
      }
      var src := source.value;
      var o := ProfileSourceInterface.SetPayload(src, p);
      if o.Fail? {
        return Err(o.error);
      }
      LoadedDetermines(src, p);
      var key := src.CacheKey();
      if key in cache && now < cache[key].expiresAt {
        return Ok(cache[key].profile);
      }
      r := ProfileSourceInterface.Fetch(src, p, limiter, ip, now, script);
      if r.Ok? {
        cache := cache[src.CacheKey() := Entry(r.value, now + Day)];
      }
    }
  }
}
