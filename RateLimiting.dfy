/**
 * The per-key attempt counter behind `RateLimiter::attempt`, with a fixed
 * decay window that starts at the first hit. Time is an explicit input.
 */
module RateLimiting {

  /** A bucket's count and the moment (in seconds) at which it decays. */
  datatype Window = Window(hits: nat, resetAt: int)

  type Buckets = map<string, Window>

  /** The hits recorded for key that have not decayed by `now`. */
  function Hits(b: Buckets, key: string, now: int): nat {
    if key in b && now < b[key].resetAt then b[key].hits else 0
  }

  /** `tooManyAttempts`: the bucket already holds `max` live hits. */
  predicate TooManyAttempts(b: Buckets, key: string, max: nat, now: int) {
    Hits(b, key, now) >= max
  }

  /** `hit`: counts one more attempt, opening a new window if the old one has decayed. */
  function AfterHit(b: Buckets, key: string, decay: nat, now: int): (b': Buckets)
    ensures Hits(b', key, now) == Hits(b, key, now) + 1 || decay == 0
    ensures forall k :: k != key ==> (k in b' <==> k in b) && (k in b ==> b'[k] == b[k])
  {
    if Hits(b, key, now) == 0 then b[key := Window(1, now + decay)]
    else b[key := Window(b[key].hits + 1, b[key].resetAt)]
  }

  /** The buckets after one hit at each of the given times, in order. */
  function Replay(b: Buckets, key: string, decay: nat, times: seq<int>): Buckets
    decreases |times|
  {
    if times == [] then b else AfterHit(Replay(b, key, decay, times[..|times| - 1]), key, decay, times[|times| - 1])
  }

  predicate Nondecreasing(times: seq<int>) {
    forall i, j :: 0 <= i < j < |times| ==> times[i] <= times[j]
  }

  /**
   * Starting from a decayed (or empty) bucket, hits made within one window
   * are all counted: the window opened by the first hit is the one they land in.
   */
  lemma {:induction false} ReplayCounts(b: Buckets, key: string, decay: nat, times: seq<int>, now: int)
    requires |times| >= 1 && decay >= 1
    requires Hits(b, key, times[0]) == 0
    requires Nondecreasing(times)
    requires times[|times| - 1] <= now < times[0] + decay
    ensures key in Replay(b, key, decay, times)
    ensures Replay(b, key, decay, times)[key] == Window(|times|, times[0] + decay)
    ensures Hits(Replay(b, key, decay, times), key, now) == |times|
  {
    var init := times[..|times| - 1];
    var t := times[|times| - 1];
    if |init| == 0 {
      assert Replay(b, key, decay, init) == b;
    } else {
      assert init[0] == times[0];
      ReplayCounts(b, key, decay, init, t);
    }
  }

  /** Hits on one bucket leave every other bucket as it was. */
  lemma {:induction false} ReplayIsolated(b: Buckets, key: string, decay: nat, times: seq<int>, other: string)
    requires other != key
    ensures (other in Replay(b, key, decay, times)) == (other in b)
    ensures other in b ==> Replay(b, key, decay, times)[other] == b[other]
    decreases |times|
  {
    if times != [] {
      ReplayIsolated(b, key, decay, times[..|times| - 1], other);
    }
  }

  /** The shared limiter store: one bucket per key, updated in place. */
  class RateLimiter {
    var buckets: Buckets

    constructor ()
      ensures buckets == map[]
    {
      buckets := map[];
    }

    function TooMany(key: string, max: nat, now: int): (refused: bool)
      reads this
      ensures refused <==> Hits(buckets, key, now) >= max
    {
      TooManyAttempts(buckets, key, max, now)
    }

    method Hit(key: string, decay: nat, now: int)
      modifies this
      ensures buckets == AfterHit(old(buckets), key, decay, now)
    {
      if Hits(buckets, key, now) == 0 {
        buckets := buckets[key := Window(1, now + decay)];
      } else {
        buckets := buckets[key := Window(buckets[key].hits + 1, buckets[key].resetAt)];
      }
    }
  }
}
