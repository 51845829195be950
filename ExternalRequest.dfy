/**
 * ExternalRequestService::get: one logical GET through Laravel's HTTP
 * client (5 s timeout, 3 tries, backoff of attempt x 100 ms), whose
 * outcome is classified into a returned response or an
 * ExternalRequestFailedException. The network is an input: a script of
 * what each successive attempt sees.
 */
module ExternalRequest {
  import opened Wrappers
  import opened Php
  import opened Domain

  datatype Response = Response(status: int, body: Json)

  /** What one attempt sees: the connection fails, or a response arrives. */
  datatype Transport = ConnectionFailed | Received(response: Response)

  /** A log entry written by `Log::warning`. */
  datatype Warning = Warning(message: string, url: string)

  const Tries: nat := 3
  const TimeoutMs: nat := 5000


  /** `$response->failed()`: a client (4xx) or server (5xx or above) error. */
  predicate Failed(status: int) {
    status >= 400
  }

  /** The outcome of attempt i (0-based); attempts beyond the script find no connection. */
  function AttemptAt(script: seq<Transport>, i: nat): Transport {
    if i < |script| then script[i] else ConnectionFailed
  }

  /** An attempt after which the client stops retrying: a response that is not a failure. */
  predicate Final(t: Transport) {
    t.Received? && !Failed(t.response.status)
  }

  datatype Sent = Sent(attempts: nat, last: Transport)

  /**
   * The client's retry loop from attempt `done` on: it stops at the first
   * response that is not a failure or after `tries` attempts, whichever
   * comes first.
   */
  function SendFrom(script: seq<Transport>, tries: nat, done: nat): (s: Sent)
    requires done < tries
    decreases tries - done
    ensures done < s.attempts <= tries
    ensures s.last == AttemptAt(script, s.attempts - 1)
    ensures Final(s.last) || s.attempts == tries
    ensures forall j :: done <= j < s.attempts - 1 ==> !Final(AttemptAt(script, j))
  {
    var t := AttemptAt(script, done);
    if Final(t) || done + 1 == tries then Sent(done + 1, t) else SendFrom(script, tries, done + 1)
  }

  /** The total pause between `attempts` attempts when the pause after attempt k is `k * step` ms. */
  function LinearBackoffMs(attempts: nat, step: nat): (ms: nat)
    ensures attempts >= 1 ==> ms == step * attempts * (attempts - 1) / 2
  {
    if attempts <= 1 then 0 else LinearBackoffMs(attempts - 1, step) + (attempts - 1) * step
  }

  /** What `get` returns or throws, with the warnings it logged and the time it may take. */
  datatype Call = Call(
    result: Result<Response, Error>,
    warnings: seq<Warning>,
    attempts: nat,
    worstCaseMs: nat)

  /** The classification of the client's final attempt (lines 24-44 of the service). */
  function Classify(url: string, last: Transport): (r: Result<Response, Error>)
    ensures r.Ok? <==> Final(last)
    ensures r.Ok? ==> r.value == last.response
    ensures r.Err? ==> r.error.RequestFailed? && r.error.status >= 400
    ensures last.Received? && r.Err? ==> r.error.status == last.response.status
  {
    match last
    case ConnectionFailed => Err(RequestFailed(500, "External service currently unavailable"))
    case Received(resp) =>
      if Failed(resp.status) then Err(RequestFailed(resp.status, "External request failed"))
      else Ok(resp)
  }

  function Get(url: string, script: seq<Transport>): (o: Call)
    ensures 1 <= o.attempts <= Tries
    ensures o.worstCaseMs <= Tries * TimeoutMs + 300
    // a connection failure on the last attempt becomes a 500
    ensures AttemptAt(script, o.attempts - 1).ConnectionFailed? ==>
              o.result == Err(RequestFailed(500, "External service currently unavailable"))
    // a failed response carries its own status
    ensures AttemptAt(script, o.attempts - 1).Received? && Failed(AttemptAt(script, o.attempts - 1).response.status) ==>
              o.result == Err(RequestFailed(AttemptAt(script, o.attempts - 1).response.status, "External request failed"))
    // everything else is the response the last attempt received, unchanged
    ensures o.result.Ok? <==> AttemptAt(script, o.attempts - 1).Received? && !Failed(AttemptAt(script, o.attempts - 1).response.status)
    ensures o.result.Ok? ==> o.result.value == AttemptAt(script, o.attempts - 1).response
    // an exception thrown here always reports an error status
    ensures o.result.Err? ==> o.result.error.RequestFailed? && o.result.error.status >= 400
    // exactly one warning per failure, none on success
    ensures |o.warnings| == (if o.result.Err? then 1 else 0)
    // a response that is not a failure ends the retries at once
    ensures forall j :: 0 <= j < o.attempts - 1 ==> !Final(AttemptAt(script, j))
    // and a failure is tried again while tries remain
    ensures Final(AttemptAt(script, o.attempts - 1)) || o.attempts == Tries
  {
    var sent := SendFrom(script, Tries, 0);
    var result := Classify(url, sent.last);
    var warnings :=
      match sent.last
      case ConnectionFailed => [Warning("External service unavailable", url)]
      case Received(resp) => if Failed(resp.status) then [Warning("External request failed", url)] else [];
    Call(result, warnings, sent.attempts, sent.attempts * TimeoutMs + LinearBackoffMs(sent.attempts, 100))
  }

  /** One failed connection followed by a 200: two attempts, and the 200 is returned. */
  lemma RetriesAfterConnectionFailure(url: string, body: Json)
    ensures var o := Get(url, [ConnectionFailed, Received(Response(200, body))]);
            o.attempts == 2 && o.result == Ok(Response(200, body)) && o.warnings == []
  {
    var script := [ConnectionFailed, Received(Response(200, body))];
    assert !Final(AttemptAt(script, 0)) && Final(AttemptAt(script, 1));
  }

  /** A 204 (no content) is not a failure: it is returned as it is, without a warning. */
  lemma NoContentIsReturned(url: string)
    ensures var o := Get(url, [Received(Response(204, JNull))]);
            o.result == Ok(Response(204, JNull)) && o.attempts == 1
  {
  }
}
