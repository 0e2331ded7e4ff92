/** What the rate limiter guarantees over every trace of calls with a clock that never
    runs backwards. */
module RateLimits {
  import opened Common
  import opened RateLimiter

  datatype Call = Call(key: string, time: real)

  ghost predicate Monotone(trace: seq<Call>) {
    forall i, j :: 0 <= i < j < |trace| ==> trace[i].time <= trace[j].time
  }

  function Run(rl: Limits, trace: seq<Call>): State {
    if trace == [] then EMPTY
    else
      var c := trace[|trace| - 1];
      rl.After(Run(rl, trace[..|trace| - 1]), c.key, c.time)
  }

  /** The answer the limiter gives to call i of the trace. */
  predicate Admitted(rl: Limits, trace: seq<Call>, i: nat)
    requires i < |trace|
  {
    rl.Admits(Run(rl, trace[..i]), trace[i].key, trace[i].time)
  }

  function NeverSweeping(rl: Limits): Limits {
    rl.(sweeps := false)
  }

  /** Buckets hold between 0 and burst tokens and were touched no later than `now`. */
  ghost predicate Sane(rl: Limits, s: State, now: real) {
    && (forall k :: k in s.buckets ==> 0.0 <= s.buckets[k].tokens <= rl.burst && s.buckets[k].last <= now)
    && (s.lastSweep.Some? ==> s.lastSweep.value <= now)
  }

  /** Inflow adds up, grows with time and is never negative. */
  lemma InflowAdds(rl: Limits, x: real, y: real, z: real)
    requires rl.Valid()
    ensures rl.Inflow(x, y) + rl.Inflow(y, z) == rl.Inflow(x, z)
    ensures x <= y ==> rl.Inflow(x, y) >= 0.0
  {
  }

  lemma InflowGrows(rl: Limits, x: real, y: real, z: real)
    requires rl.Valid() && y <= z
    ensures rl.Inflow(x, y) <= rl.Inflow(x, z)
  {
    InflowAdds(rl, x, y, z);
    InflowAdds(rl, y, z, z);
  }

  lemma Grows(rl: Limits, b: Bucket, now: real)
    requires rl.Valid() && 0.0 <= b.tokens <= rl.burst && b.last <= now
    ensures 0.0 <= b.tokens <= rl.Refilled(b, now) <= rl.burst
  {
    InflowAdds(rl, b.last, now, now);
  }

  lemma AfterSane(rl: Limits, s: State, key: string, now: real)
    requires rl.Valid() && Sane(rl, s, now)
    ensures Sane(rl, rl.After(s, key, now), now)
    ensures 0.0 <= rl.Level(rl.Sweep(s, now), key, now) <= rl.burst
  {
    var swept := rl.Sweep(s, now);
    if key in swept.buckets {
      Grows(rl, swept.buckets[key], now);
    }
  }

  lemma {:induction false} RunSane(rl: Limits, trace: seq<Call>, now: real)
    requires rl.Valid() && Monotone(trace) && (trace != [] ==> trace[|trace| - 1].time <= now)
    ensures Sane(rl, Run(rl, trace), now)
  {
    if trace != [] {
      var c := trace[|trace| - 1];
      RunSane(rl, trace[..|trace| - 1], c.time);
      AfterSane(rl, Run(rl, trace[..|trace| - 1]), c.key, c.time);
    }
  }

  // ---- what a call costs

  /** A call that is admitted costs its key one token, one that is refused costs nothing, now
      and later; and neither costs another key anything. */
  lemma CallCosts(rl: Limits, s: State, key: string, now: real, other: string, later: real)
    requires rl.Valid() && Sane(rl, s, now) && now <= later
    ensures var swept, after := rl.Sweep(s, now), rl.After(s, key, now);
            && rl.Level(after, key, now) == rl.Level(swept, key, now) - (if rl.Admits(s, key, now) then 1.0 else 0.0)
            && (!rl.Admits(s, key, now) ==> rl.Level(after, key, later) == rl.Level(swept, key, later))
            && (other != key ==> rl.Level(after, other, later) == rl.Level(swept, other, later))
  {
    hide Limits.Inflow;
    var swept := rl.Sweep(s, now);
    AfterSane(rl, s, key, now);
    InflowAdds(rl, now, now, now);
    InflowAdds(rl, now, now, later);
    InflowAdds(rl, now, later, later);
    if key in swept.buckets {
      InflowAdds(rl, swept.buckets[key].last, now, later);
    }
  }

  // ---- the sweep keeps the map small

  /** The last sweep is recent, and left no bucket that was idle then. */
  ghost predicate Swept(s: State, now: real) {
    && s.lastSweep.Some? && s.lastSweep.value <= now < s.lastSweep.value + SWEEP_EVERY
    && forall k :: k in s.buckets ==> s.lastSweep.value - s.buckets[k].last < IDLE_TTL
  }

  lemma AfterIsSwept(rl: Limits, s: State, key: string, now: real)
    requires rl.sweeps && (s.lastSweep.Some? ==> s.lastSweep.value <= now)
    requires s.lastSweep.Some? ==> forall k :: k in s.buckets ==> s.lastSweep.value - s.buckets[k].last < IDLE_TTL
    ensures Swept(rl.After(s, key, now), now)
  {
    hide Limits.Level;
  }

  lemma {:induction false} RunIsSwept(rl: Limits, trace: seq<Call>)
    requires rl.sweeps && Monotone(trace) && trace != []
    ensures Swept(Run(rl, trace), trace[|trace| - 1].time)
  {
    var before, c := trace[..|trace| - 1], trace[|trace| - 1];
    if before != [] {
      RunIsSwept(rl, before);
    }
    AfterIsSwept(rl, Run(rl, before), c.key, c.time);
  }

  /** After every call, the limiter remembers only keys that called within the last eleven
      minutes: the idle time and one sweep interval. */
  lemma IdleBucketsGo(rl: Limits, trace: seq<Call>, key: string)
    requires rl.sweeps && Monotone(trace) && trace != [] && key in Run(rl, trace).buckets
    ensures trace[|trace| - 1].time - Run(rl, trace).buckets[key].last < 660.0
  {
    RunIsSwept(rl, trace);
  }

  // ---- the sweep is invisible

  /** From `now` on nobody can tell the two states apart. */
  ghost predicate SameLevels(rl: Limits, s: State, t: State, now: real) {
    forall k, later: real :: later >= now ==> rl.Level(s, k, later) == rl.Level(t, k, later)
  }

  /** A bucket idle for long enough to be swept is full, if it can fill up in that time. */
  lemma IdleIsFull(rl: Limits, b: Bucket, now: real)
    requires rl.Valid() && rl.burst <= rl.refill * IDLE_TTL
    requires 0.0 <= b.tokens && now - b.last >= IDLE_TTL
    ensures rl.Refilled(b, now) == rl.burst
  {
    InflowGrows(rl, b.last, b.last + IDLE_TTL, now);
    assert rl.Inflow(b.last, b.last + IDLE_TTL) == rl.refill * IDLE_TTL;
  }

  lemma SweepKeepsLevels(rl: Limits, s: State, now: real)
    requires rl.Valid() && rl.burst <= rl.refill * IDLE_TTL && Sane(rl, s, now)
    ensures SameLevels(rl, rl.Sweep(s, now), s, now)
  {
    var swept := rl.Sweep(s, now);
    forall k, later: real | later >= now ensures rl.Level(swept, k, later) == rl.Level(s, k, later) {
      if k in s.buckets && k !in swept.buckets {
        IdleIsFull(rl, s.buckets[k], later);
      }
    }
  }

  lemma AfterSameLevels(rl: Limits, s: State, t: State, key: string, now: real)
    requires rl.Valid() && rl.burst <= rl.refill * IDLE_TTL
    requires Sane(rl, s, now) && Sane(rl, t, now) && SameLevels(rl, s, t, now)
    ensures rl.Admits(s, key, now) == NeverSweeping(rl).Admits(t, key, now)
    ensures SameLevels(rl, rl.After(s, key, now), NeverSweeping(rl).After(t, key, now), now)
  {
    SweepKeepsLevels(rl, s, now);
    var swept := rl.Sweep(s, now);
    assert rl.Level(swept, key, now) == rl.Level(s, key, now) == rl.Level(t, key, now)
           == NeverSweeping(rl).Level(t, key, now);
    var s', t' := rl.After(s, key, now), NeverSweeping(rl).After(t, key, now);
    assert s'.buckets[key] == t'.buckets[key];
    forall k, later: real | later >= now ensures rl.Level(s', k, later) == rl.Level(t', k, later) {
      if k != key {
        assert rl.Level(s', k, later) == rl.Level(swept, k, later) == rl.Level(s, k, later);
        assert rl.Level(t', k, later) == rl.Level(t, k, later);
      }
    }
  }

  lemma {:induction false} RunSameLevels(rl: Limits, trace: seq<Call>, now: real)
    requires rl.Valid() && rl.burst <= rl.refill * IDLE_TTL
    requires Monotone(trace) && (trace != [] ==> trace[|trace| - 1].time <= now)
    ensures SameLevels(rl, Run(rl, trace), Run(NeverSweeping(rl), trace), now)
  {
    if trace != [] {
      var c := trace[|trace| - 1];
      var before := trace[..|trace| - 1];
      RunSameLevels(rl, before, c.time);
      RunSane(rl, before, c.time);
      RunSane(NeverSweeping(rl), before, c.time);
      AfterSameLevels(rl, Run(rl, before), Run(NeverSweeping(rl), before), c.key, c.time);
    }
  }

  /** When a bucket fills up within the idle time, deleting idle buckets changes no
      answer. */
  lemma SweepIsInvisible(rl: Limits, trace: seq<Call>, i: nat)
    requires rl.Valid() && rl.burst <= rl.refill * IDLE_TTL
    requires Monotone(trace) && i < |trace|
    ensures Admitted(rl, trace, i) == Admitted(NeverSweeping(rl), trace, i)
  {
    var c := trace[i];
    RunSameLevels(rl, trace[..i], c.time);
    RunSane(rl, trace[..i], c.time);
    RunSane(NeverSweeping(rl), trace[..i], c.time);
    AfterSameLevels(rl, Run(rl, trace[..i]), Run(NeverSweeping(rl), trace[..i]), c.key, c.time);
  }

  // ---- keys are independent

  /** The calls for one key. */
  function Only(trace: seq<Call>, key: string): seq<Call> {
    if trace == [] then []
    else
      var c := trace[|trace| - 1];
      var rest := Only(trace[..|trace| - 1], key);
      if c.key == key then rest + [c] else rest
  }

  lemma {:induction false} OtherKeysDoNotMatter(rl: Limits, trace: seq<Call>, key: string)
    requires !rl.sweeps
    ensures var s, t := Run(rl, trace), Run(rl, Only(trace, key));
            (key in s.buckets <==> key in t.buckets) && (key in s.buckets ==> s.buckets[key] == t.buckets[key])
  {
    if trace != [] {
      var before := trace[..|trace| - 1];
      OtherKeysDoNotMatter(rl, before, key);
      var own := Only(trace, key);
      if trace[|trace| - 1].key == key {
        assert own[..|own| - 1] == Only(before, key);
      }
    }
  }

  /** The answer to a call is the answer a limiter would give that never sweeps and had
      only ever seen the calls for this key. */
  lemma KeysAreIndependent(rl: Limits, trace: seq<Call>, i: nat)
    requires rl.Valid() && rl.burst <= rl.refill * IDLE_TTL
    requires Monotone(trace) && i < |trace|
    ensures var own := Only(trace[..i], trace[i].key) + [trace[i]];
            Admitted(rl, trace, i) == Admitted(NeverSweeping(rl), own, |own| - 1)
  {
    SweepIsInvisible(rl, trace, i);
    var c := trace[i];
    var own := Only(trace[..i], c.key) + [c];
    OtherKeysDoNotMatter(NeverSweeping(rl), trace[..i], c.key);
    assert own[..|own| - 1] == Only(trace[..i], c.key);
  }

  // ---- the admission bound

  /** How many calls for the key were admitted from time `from` on. */
  function Count(rl: Limits, trace: seq<Call>, key: string, from: real, to: real): nat {
    if trace == [] then 0
    else
      var c := trace[|trace| - 1];
      var before := trace[..|trace| - 1];
      Count(rl, before, key, from, to) +
      (if c.key == key && from <= c.time <= to && rl.Admits(Run(rl, before), key, c.time) then 1 else 0)
  }

  /** Tokens left plus calls admitted since `from` never exceed a full bucket plus what
      has flowed in since. */
  ghost predicate Budget(rl: Limits, trace: seq<Call>, key: string, from: real, to: real) {
    var s := Run(rl, trace);
    if key in s.buckets && s.buckets[key].last >= from then
      Count(rl, trace, key, from, to) as real + s.buckets[key].tokens <= rl.burst + rl.Inflow(from, s.buckets[key].last)
    else Count(rl, trace, key, from, to) == 0
  }

  lemma LevelAtMost(rl: Limits, s: State, key: string, now: real)
    ensures rl.Level(s, key, now) <= rl.burst
    ensures key in s.buckets ==> rl.Level(s, key, now) <= s.buckets[key].tokens + rl.Inflow(s.buckets[key].last, now)
  {
  }

  lemma BudgetStep(rl: Limits, trace: seq<Call>, key: string, from: real, to: real)
    requires rl.Valid() && !rl.sweeps && Monotone(trace) && trace != []
    requires Budget(rl, trace[..|trace| - 1], key, from, to)
    ensures Budget(rl, trace, key, from, to)
  {
    hide Limits.Level;
    hide Limits.Refilled;
    hide Limits.Inflow;
    var c := trace[|trace| - 1];
    var before := trace[..|trace| - 1];
    var s := Run(rl, before);
    RunSane(rl, before, c.time);
    LevelAtMost(rl, s, key, c.time);
    if c.key == key && c.time >= from {
      if key in s.buckets && s.buckets[key].last >= from {
        InflowAdds(rl, from, s.buckets[key].last, c.time);
      } else {
        InflowAdds(rl, from, c.time, c.time);
      }
    }
  }

  lemma {:induction false} StaysWithinBudget(rl: Limits, trace: seq<Call>, key: string, from: real, to: real)
    requires rl.Valid() && !rl.sweeps && Monotone(trace)
    ensures Budget(rl, trace, key, from, to)
  {
    if trace != [] {
      StaysWithinBudget(rl, trace[..|trace| - 1], key, from, to);
      BudgetStep(rl, trace, key, from, to);
    }
  }

  lemma {:induction false} BoundWithoutSweep(rl: Limits, trace: seq<Call>, key: string, from: real, to: real)
    requires rl.Valid() && !rl.sweeps && Monotone(trace) && from <= to
    ensures Count(rl, trace, key, from, to) as real <= rl.burst + rl.Inflow(from, to)
  {
    hide Limits.Admits;
    hide Run;
    hide Limits.Inflow;
    InflowAdds(rl, from, to, to);
    if trace != [] {
      var c := trace[|trace| - 1];
      if c.time > to {
        BoundWithoutSweep(rl, trace[..|trace| - 1], key, from, to);
      } else {
        StaysWithinBudget(rl, trace, key, from, to);
        RunSane(rl, trace, c.time);
        var s := Run(rl, trace);
        if key in s.buckets && s.buckets[key].last >= from {
          InflowGrows(rl, from, s.buckets[key].last, to);
        }
      }
    }
  }

  lemma {:induction false} SameCount(rl: Limits, trace: seq<Call>, key: string, from: real, to: real)
    requires rl.Valid() && rl.burst <= rl.refill * IDLE_TTL && Monotone(trace)
    ensures Count(rl, trace, key, from, to) == Count(NeverSweeping(rl), trace, key, from, to)
  {
    if trace != [] {
      var n := |trace| - 1;
      SameCount(rl, trace[..n], key, from, to);
      SweepIsInvisible(rl, trace, n);
    }
  }

  /** In any window at most the burst plus the refill of the window is admitted. */
  lemma AdmissionBound(rl: Limits, trace: seq<Call>, key: string, from: real, to: real)
    requires rl.Valid() && rl.burst <= rl.refill * IDLE_TTL && Monotone(trace) && from <= to
    ensures Count(rl, trace, key, from, to) as real <= rl.burst + rl.Inflow(from, to)
  {
    hide Count;
    hide Monotone;
    SameCount(rl, trace, key, from, to);
    BoundWithoutSweep(NeverSweeping(rl), trace, key, from, to);
  }

  // ---- Retry-After

  /** After a refusal the key's bucket either stays as the refusal left it or is swept,
      as long as the key makes no call. */
  lemma {:induction false} Untouched(rl: Limits, trace: seq<Call>, n: nat, key: string)
    requires n <= |trace| && forall i :: n <= i < |trace| ==> trace[i].key != key
    ensures var s, t := Run(rl, trace[..n]), Run(rl, trace);
            key in t.buckets ==> key in s.buckets && t.buckets[key] == s.buckets[key]
  {
    if n == |trace| {
      assert trace[..n] == trace;
    } else {
      var before := trace[..|trace| - 1];
      assert before[..n] == trace[..n];
      Untouched(rl, before, n, key);
    }
  }

  /** A refused caller that waits as long as Retry-After says is admitted next, whatever
      other keys do in between and whether or not sweeps run. */
  lemma RetryAfterIsEnough(rl: Limits, trace: seq<Call>, i: nat, j: nat)
    requires rl.Valid() && rl.burst >= 1.0 && rl.refill > 0.0
    requires Monotone(trace) && i < j < |trace| && trace[j].key == trace[i].key
    requires !Admitted(rl, trace, i)
    requires forall m :: i < m < j ==> trace[m].key != trace[i].key
    requires trace[j].time >= trace[i].time + Ceil(1.0 / rl.refill) as real
    ensures Admitted(rl, trace, j)
  {
    hide Limits.Refilled;
    hide Ceil;
    var key, now := trace[i].key, trace[j].time;
    var upto := trace[..j];
    assert upto[..i + 1] == trace[..i + 1];
    Untouched(rl, upto, i + 1, key);
    assert trace[..i + 1][..i] == trace[..i];
    RunSane(rl, trace[..i + 1], trace[i].time);
    var b := Run(rl, trace[..i + 1]).buckets[key];
    assert b.last == trace[i].time && b.tokens >= 0.0;
    WaitedEnough(rl, b, now);
  }

  lemma WaitedEnough(rl: Limits, b: Bucket, now: real)
    requires rl.Valid() && rl.burst >= 1.0 && rl.refill > 0.0
    requires b.tokens >= 0.0 && now >= b.last + Ceil(1.0 / rl.refill) as real
    ensures rl.Refilled(b, now) >= 1.0
  {
    CeilAbove(1.0 / rl.refill);
    InflowGrows(rl, b.last, b.last + 1.0 / rl.refill, now);
    assert rl.Inflow(b.last, b.last + 1.0 / rl.refill) == 1.0;
  }

  lemma CeilAbove(x: real)
    ensures x <= Ceil(x) as real < x + 1.0
  {
  }
}
