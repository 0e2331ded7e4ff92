/** The in-memory token-bucket rate limiter, over real-valued tokens and seconds. */
module RateLimiter {
  import opened Common

  const SWEEP_EVERY: real := 60.0
  const IDLE_TTL: real := 600.0

  datatype Bucket = Bucket(tokens: real, last: real)

  /** A limiter's parameters; `sweeps` tells whether it ever deletes idle buckets. The
      portal's limiters do, the others exist to compare them with. */
  datatype Limits = Limits(burst: real, refill: real, sweeps: bool) {

    predicate Valid() {
      burst > 0.0 && refill >= 0.0
    }

    /** What flows into a bucket between two moments. */
    function Inflow(from: real, to: real): real {
      refill * (to - from)
    }

    /** The bucket's tokens brought forward to `now`. */
    function Refilled(b: Bucket, now: real): real {
      var grown := b.tokens + Inflow(b.last, now);
      if grown > burst then burst else grown
    }

    predicate Due(s: State, now: real) {
      sweeps && (s.lastSweep.None? || now - s.lastSweep.value >= SWEEP_EVERY)
    }

    function Sweep(s: State, now: real): State {
      if Due(s, now) then
        State(map k | k in s.buckets && now - s.buckets[k].last < IDLE_TTL :: s.buckets[k], Some(now))
      else s
    }

    /** The tokens a call for `key` finds at `now` in a state that has been swept. */
    function Level(s: State, key: string, now: real): real {
      if key in s.buckets then Refilled(s.buckets[key], now) else burst
    }

    predicate Admits(s: State, key: string, now: real) {
      Level(Sweep(s, now), key, now) >= 1.0
    }

    function After(s: State, key: string, now: real): State {
      var swept := Sweep(s, now);
      var level := Level(swept, key, now);
      swept.(buckets := swept.buckets[key := Bucket(if level >= 1.0 then level - 1.0 else level, now)])
    }
  }

  /** No sweep has happened while lastSweep is None: the zero time is long past. */
  datatype State = State(buckets: map<string, Bucket>, lastSweep: Option<real>)

  const EMPTY := State(map[], None)

  /** The least integer not below x. */
  function Ceil(x: real): int {
    -(-x).Floor
  }

  class Limiter {
    const burst: real
    const refill: real
    const retryAfter: Option<int>
    var buckets: map<string, Bucket>
    var lastSweep: Option<real>

    constructor (burst: real, refillPerSec: real)
      requires burst > 0.0
      ensures this.burst == burst && this.refill == refillPerSec && Now() == EMPTY
      ensures retryAfter == if refillPerSec > 0.0 then Some(Ceil(1.0 / refillPerSec)) else None
    {
      this.burst, this.refill := burst, refillPerSec;
      retryAfter := if refillPerSec > 0.0 then Some(Ceil(1.0 / refillPerSec)) else None;
      buckets, lastSweep := map[], None;
    }

    function Cfg(): Limits {
      Limits(burst, refill, true)
    }

    function Now(): State
      reads this
    {
      State(buckets, lastSweep)
    }

    method DropIdle(now: real)
      modifies this`buckets
      ensures buckets == map k | k in old(buckets) && now - old(buckets)[k].last < IDLE_TTL :: old(buckets)[k]
    {
      var todo := buckets.Keys;
      while todo != {}
        invariant todo <= old(buckets).Keys
        invariant buckets == map k | k in old(buckets)
                  && (k in todo || now - old(buckets)[k].last < IDLE_TTL) :: old(buckets)[k]
        decreases |todo|
      {
        var k :| k in todo;
        if now - buckets[k].last >= IDLE_TTL {
          buckets := buckets - {k};
        }
        todo := todo - {k};
      }
    }

    /** Whether a request for `key` at `now` may proceed, consuming a token. */
    method Allow(key: string, now: real) returns (ok: bool)
      modifies this
      ensures ok == Cfg().Admits(old(Now()), key, now)
      ensures Now() == Cfg().After(old(Now()), key, now)
    {
      hide Limits.Inflow;
      if lastSweep.None? || now - lastSweep.value >= SWEEP_EVERY {
        DropIdle(now);
        lastSweep := Some(now);
      }
      var b: Bucket;
      if key !in buckets {
        b := Bucket(burst, now);
      } else {
        var tokens := buckets[key].tokens + Cfg().Inflow(buckets[key].last, now);
        if tokens > burst {
          tokens := burst;
        }
        b := Bucket(tokens, now);
      }
      buckets := buckets[key := b];
      assert b.tokens == Cfg().Level(Cfg().Sweep(old(Now()), now), key, now);
      if b.tokens < 1.0 {
        return false;
      }
      buckets := buckets[key := b.(tokens := b.tokens - 1.0)];
      return true;
    }
  }
}
