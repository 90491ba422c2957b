/**
 * The parts of the Redis key/value store the server uses: integer counters
 * with an optional expiry (`INCR`, `EXPIRE`) and values written with a
 * time-to-live (`SETEX`). Time is an abstract clock in seconds; a key whose
 * deadline has passed behaves as absent.
 */
module Store {
  import opened Wrappers

  /** A counter and the clock time at which it expires, if any. */
  datatype Counter = Counter(value: int, deadline: Option<nat>)

  /** A stored value and its expiry time. */
  datatype Stored<V> = Stored(value: V, deadline: nat)

  /** Is the counter still present at time `now`? */
  predicate Live(c: Counter, now: nat) {
    c.deadline.None? || now < c.deadline.value
  }

  /** The counter value `INCR` starts from: the live value, or 0 for an absent or expired key. */
  function Current(counters: map<string, Counter>, key: string, now: nat): int {
    if key in counters && Live(counters[key], now) then counters[key].value else 0
  }

  /** The counter after `INCR`: one more than before; an expired key starts afresh without expiry. */
  function Incremented(counters: map<string, Counter>, key: string, now: nat): (c: Counter)
    ensures c.value == Current(counters, key, now) + 1
  {
    if key in counters && Live(counters[key], now) then counters[key].(value := counters[key].value + 1)
    else Counter(1, None)
  }

  class RedisStore<V> {
    var counters: map<string, Counter>
    var values: map<string, Stored<V>>
    var now: nat
    /** Every `SETEX` made, in order. */
    ghost var writes: seq<(string, V)>

    constructor (start: nat)
      ensures counters == map[] && values == map[] && now == start && writes == []
    {
      counters := map[];
      values := map[];
      now := start;
      writes := [];
    }

    /** `INCR key`: the new value. */
    method Incr(key: string) returns (n: int)
      modifies this
      ensures n == Current(old(counters), key, now) + 1
      ensures counters == old(counters)[key := Incremented(old(counters), key, now)]
      ensures values == old(values) && now == old(now) && writes == old(writes)
    {
      var c := Incremented(counters, key, now);
      counters := counters[key := c];
      n := c.value;
    }

    /** `EXPIRE key seconds`: sets the deadline of a live key; an absent key is left alone. */
    method Expire(key: string, seconds: nat) returns (applied: bool)
      modifies this
      ensures applied == (key in old(counters) && Live(old(counters)[key], now))
      ensures applied ==> counters == old(counters)[key := old(counters)[key].(deadline := Some(now + seconds))]
      ensures !applied ==> counters == old(counters)
      ensures values == old(values) && now == old(now) && writes == old(writes)
    {
      applied := key in counters && Live(counters[key], now);
      if applied {
        counters := counters[key := counters[key].(deadline := Some(now + seconds))];
      }
    }

    /** `SETEX key seconds value`. */
    method SetEx(key: string, seconds: nat, v: V)
      modifies this
      ensures values == old(values)[key := Stored(v, now + seconds)]
      ensures writes == old(writes) + [(key, v)]
      ensures counters == old(counters) && now == old(now)
    {
      values := values[key := Stored(v, now + seconds)];
      writes := writes + [(key, v)];
    }
  }
}
