/**
 * `check_rate_limit`: a per-client counter in the store, at most 100
 * requests per one-hour window, the window starting at the first request.
 * Without a store, or when the store raises, every request is admitted.
 */
module RateLimit {
  import opened Wrappers
  import opened Store

  const RateLimitRequests: int := 100
  const RateLimitWindow: nat := 3600

  /** Which store call raises, if any. */
  datatype Fault = NoFault | IncrRaises | ExpireRaises

  /** `f"rate_limit:{client_ip}"`. */
  function RateKey(clientIp: string): string { "rate_limit:" + clientIp }

  /**
   * The counters after one check at time `now`, and the verdict: `INCR`, an
   * `EXPIRE` on the call that made the counter 1, admission iff the count is
   * at most the limit; a raising call admits.
   */
  function RateStep(counters: map<string, Counter>, key: string, now: nat, fault: Fault): (map<string, Counter>, bool) {
    if fault == IncrRaises then (counters, true)
    else
      var c := Incremented(counters, key, now);
      if c.value == 1 then
        if fault == ExpireRaises then (counters[key := c], true)
        else (counters[key := c.(deadline := Some(now + RateLimitWindow))], c.value <= RateLimitRequests)
      else (counters[key := c], c.value <= RateLimitRequests)
  }

  /** `check_rate_limit(client_ip)` against an optional store. */
  method CheckRateLimit<V>(store: RedisStore?<V>, clientIp: string, fault: Fault) returns (admitted: bool)
    modifies store
    ensures store == null ==> admitted
    ensures store != null ==>
      var step := RateStep(old(store.counters), RateKey(clientIp), old(store.now), fault);
      store.counters == step.0 && admitted == step.1
    ensures store != null ==> store.values == old(store.values) && store.now == old(store.now) && store.writes == old(store.writes)
  {
    if store == null {
      return true;
    }
    var key := RateKey(clientIp);
    if fault == IncrRaises {
      return true;
    }
    var current := store.Incr(key);
    if current == 1 {
      if fault == ExpireRaises {
        return true;
      }
      var _ := store.Expire(key, RateLimitWindow);
    }
    admitted := current <= RateLimitRequests;
  }

  /**
   * Fail-open: when a store call raises, the request is admitted; when
   * `INCR` itself raises, nothing changes. `EXPIRE` is only called when the
   * count becomes 1, so a failing `EXPIRE` matters only then.
   */
  lemma FailOpen(counters: map<string, Counter>, key: string, now: nat, fault: Fault)
    ensures fault == IncrRaises ==> RateStep(counters, key, now, fault) == (counters, true)
    ensures fault == ExpireRaises && Current(counters, key, now) == 0 ==> RateStep(counters, key, now, fault).1
    ensures fault == ExpireRaises && Current(counters, key, now) != 0 ==>
      RateStep(counters, key, now, fault) == RateStep(counters, key, now, NoFault)
  {
  }

  /**
   * Each check adds one to the key's live count and touches no other key;
   * the expiry is set only by the call that makes the count 1; without a
   * fault the request is admitted iff the new count is at most 100.
   */
  lemma StepCounts(counters: map<string, Counter>, key: string, now: nat, fault: Fault)
    requires fault != IncrRaises
    ensures var m := RateStep(counters, key, now, fault).0;
      && key in m && m[key].value == Current(counters, key, now) + 1
      && (forall k :: k != key ==> (k in m <==> k in counters) && (k in counters ==> m[k] == counters[k]))
      && (fault == NoFault && m[key].value == 1 ==> m[key].deadline == Some(now + RateLimitWindow))
      && (m[key].value != 1 ==> m[key].deadline == Incremented(counters, key, now).deadline)
    ensures fault == NoFault ==> (RateStep(counters, key, now, fault).1 <==> Current(counters, key, now) + 1 <= RateLimitRequests)
  {
  }

  /** Checks for one key at the given clock times, without faults: the final counters and each verdict. */
  function Replay(counters: map<string, Counter>, key: string, times: seq<nat>): (r: (map<string, Counter>, seq<bool>))
    ensures |r.1| == |times|
    decreases |times|
  {
    if times == [] then (counters, [])
    else
      var before := Replay(counters, key, times[..|times| - 1]);
      var step := RateStep(before.0, key, times[|times| - 1], NoFault);
      (step.0, before.1 + [step.1])
  }

  /**
   * A window opened by the first request of a key that had no live counter:
   * while it lasts, the `n`-th request sees the count `n`, so the first 100
   * are admitted and every later one is denied.
   */
  lemma {:induction false} WindowVerdicts(counters: map<string, Counter>, key: string, times: seq<nat>)
    requires times != []
    requires !(key in counters && Live(counters[key], times[0]))
    requires forall j :: 0 <= j < |times| ==> times[j] < times[0] + RateLimitWindow
    ensures var r := Replay(counters, key, times);
      && key in r.0 && r.0[key] == Counter(|times|, Some(times[0] + RateLimitWindow))
      && forall j :: 0 <= j < |times| ==> r.1[j] == (j < RateLimitRequests)
    decreases |times|
  {
    var prefix := times[..|times| - 1];
    if prefix != [] {
      WindowVerdicts(counters, key, prefix);
      var before := Replay(counters, key, prefix);
      var r := Replay(counters, key, times);
      assert r.1 == before.1 + [RateStep(before.0, key, times[|times| - 1], NoFault).1];
      forall j | 0 <= j < |times| ensures r.1[j] == (j < RateLimitRequests) {
        if j < |prefix| {
          assert r.1[j] == before.1[j];
        }
      }
    }
  }

  /** The 101st request of a window is denied. */
  lemma HundredFirstDenied(counters: map<string, Counter>, key: string, times: seq<nat>)
    requires |times| == RateLimitRequests + 1
    requires !(key in counters && Live(counters[key], times[0]))
    requires forall j :: 0 <= j < |times| ==> times[j] < times[0] + RateLimitWindow
    ensures !Replay(counters, key, times).1[RateLimitRequests]
    ensures forall j :: 0 <= j < RateLimitRequests ==> Replay(counters, key, times).1[j]
  {
    WindowVerdicts(counters, key, times);
  }

  /** Once the deadline has passed, the next request opens a fresh window and is admitted. */
  lemma ExpiredWindowResets(counters: map<string, Counter>, key: string, now: nat)
    requires key in counters && counters[key].deadline.Some? && counters[key].deadline.value <= now
    ensures var step := RateStep(counters, key, now, NoFault);
      step.1 && step.0[key] == Counter(1, Some(now + RateLimitWindow))
  {
  }

  /**
   * If `EXPIRE` raises on the request that opened a window, the counter never
   * expires: it stays live at every later time.
   */
  lemma FailedExpireIsPermanent(counters: map<string, Counter>, key: string, now: nat, later: nat)
    requires !(key in counters && Live(counters[key], now))
    ensures var m := RateStep(counters, key, now, ExpireRaises).0;
      key in m && m[key].deadline.None? && Live(m[key], later)
  {
  }
}
