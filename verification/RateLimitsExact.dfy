/** The sweep is invisible exactly when a bucket can fill up while it is idle, or can
    never hold a whole token: for any other limiter a trace is constructed to which
    the sweeping and the never-sweeping limiter answer differently. */
module RateLimitsExact {
  import opened RateLimiter
  import opened RateLimits

  ghost predicate Invisible(rl: Limits) {
    forall trace: seq<Call>, i: nat :: Monotone(trace) && i < |trace| ==>
        Admitted(rl, trace, i) == Admitted(NeverSweeping(rl), trace, i)
  }

  /** Invisible exactly when. */
  lemma InvisibleExactlyWhen(rl: Limits)
    requires rl.Valid() && rl.sweeps
    ensures Invisible(rl) <==> rl.burst < 1.0 || rl.burst <= rl.refill * 600.0
  {
    if rl.burst < 1.0 {
      forall trace: seq<Call>, i: nat | Monotone(trace) && i < |trace|
        ensures Admitted(rl, trace, i) == Admitted(NeverSweeping(rl), trace, i) {
        LevelAtMost(rl, rl.Sweep(Run(rl, trace[..i]), trace[i].time), trace[i].key, trace[i].time);
        LevelAtMost(NeverSweeping(rl), Run(NeverSweeping(rl), trace[..i]), trace[i].key, trace[i].time);
      }
    } else if rl.burst <= rl.refill * IDLE_TTL {
      forall trace: seq<Call>, i: nat | Monotone(trace) && i < |trace|
        ensures Admitted(rl, trace, i) == Admitted(NeverSweeping(rl), trace, i) {
        SweepIsInvisible(rl, trace, i);
      }
    } else {
      var trace := TellingTrace(rl);
      Telling(rl);
      assert !(Admitted(rl, trace, |trace| - 1) == Admitted(NeverSweeping(rl), trace, |trace| - 1));
    }
  }

  // ---- one client calling

  /** What a call at `now` would find after the trace. */
  function LevelAt(rl: Limits, trace: seq<Call>, now: real): real {
    rl.Level(rl.Sweep(Run(rl, trace), now), "", now)
  }

  function Calls(now: real, n: nat): seq<Call> {
    seq(n, _ => Call("", now))
  }

  ghost predicate Until(trace: seq<Call>, now: real) {
    Monotone(trace) && forall i :: 0 <= i < |trace| ==> trace[i].time <= now
  }

  lemma UntilSane(rl: Limits, trace: seq<Call>, now: real)
    requires rl.Valid() && Until(trace, now)
    ensures Sane(rl, Run(rl, trace), now)
  {
    RunSane(rl, trace, now);
  }

  /** One more call leaves a bucket with what it found, less the token it took. */
  lemma OneCall(rl: Limits, trace: seq<Call>, now: real)
    requires rl.Valid() && Until(trace, now)
    ensures var level, more := LevelAt(rl, trace, now), trace + [Call("", now)];
            && Until(more, now)
            && (Admitted(rl, more, |trace|) <==> level >= 1.0)
            && LevelAt(rl, more, now) == (if level >= 1.0 then level - 1.0 else level)
            && Holds(rl, more, LevelAt(rl, more, now), now)
  {
    hide Limits.Inflow;
    InflowAdds(rl, now, now, now);
    var more := trace + [Call("", now)];
    assert more[..|trace|] == trace;
    UntilSane(rl, trace, now);
    AfterSane(rl, Run(rl, trace), "", now);
  }

  ghost predicate Holds(rl: Limits, trace: seq<Call>, tokens: real, last: real) {
    var s := Run(rl, trace); "" in s.buckets && s.buckets[""] == Bucket(tokens, last)
  }

  /** Calls while there are tokens. */
  lemma {:induction false} ManyCalls(rl: Limits, trace: seq<Call>, now: real, n: nat)
    requires rl.Valid() && Until(trace, now) && LevelAt(rl, trace, now) >= n as real
    ensures var more := trace + Calls(now, n);
            && Until(more, now)
            && LevelAt(rl, more, now) == LevelAt(rl, trace, now) - n as real
            && (n > 0 ==> Holds(rl, more, LevelAt(rl, more, now), now))
  {
    hide LevelAt;
    hide Holds;
    if n == 0 {
      assert trace + Calls(now, 0) == trace;
    } else {
      ManyCalls(rl, trace, now, n - 1);
      var fewer := trace + Calls(now, n - 1);
      OneCall(rl, fewer, now);
      assert trace + Calls(now, n) == fewer + [Call("", now)];
    }
  }

  /** A bucket some time later: brought forward, or, if the limiter sweeps, perhaps
      forgotten and full again. */
  lemma LaterLevel(rl: Limits, trace: seq<Call>, tokens: real, last: real, now: real)
    requires rl.Valid() && Holds(rl, trace, tokens, last)
    ensures LevelAt(rl, trace, now) == rl.Refilled(Bucket(tokens, last), now)
            || (rl.sweeps && LevelAt(rl, trace, now) == rl.burst)
  {
  }

  /** Ten idle minutes after its last call, a sweeping limiter has forgotten everything. */
  lemma Forgotten(rl: Limits, trace: seq<Call>, last: real)
    requires rl.Valid() && rl.sweeps && Until(trace, last)
    ensures LevelAt(rl, trace, last + IDLE_TTL) == rl.burst
  {
    UntilSane(rl, trace, last);
  }

  lemma FullyRefilled(rl: Limits, tokens: real, last: real, wait: real)
    requires rl.Valid() && rl.refill > 0.0
    ensures rl.Refilled(Bucket(tokens, last), last + wait / rl.refill) == if tokens + wait > rl.burst then rl.burst
                                                                          else tokens + wait
  {
    assert rl.Inflow(last, last + wait / rl.refill) == wait;
  }

  // ---- the trace that tells them apart

  /** Spend the burst at time 0; with a refill, wait for exactly one token and take it. */
  function Spent(rl: Limits): (seq<Call>, real)
    requires rl.Valid() && rl.burst >= 1.0
  {
    var n := rl.burst.Floor;
    if rl.refill == 0.0 then (Calls(0.0, n), 0.0)
    else
      var at := (1.0 - (rl.burst - n as real)) / rl.refill;
      (Calls(0.0, n) + [Call("", at)], at)
  }

  lemma FullAtFirst(rl: Limits, now: real)
    ensures LevelAt(rl, [], now) == rl.burst
  {
  }

  lemma SpentLeaves(rl: Limits)
    requires rl.Valid() && rl.burst >= 1.0 && !rl.sweeps
    ensures var (trace, at) := Spent(rl);
            && Until(trace, at)
            && Holds(rl, trace, if rl.refill == 0.0 then rl.burst - rl.burst.Floor as real else 0.0, at)
  {
    hide Holds;
    hide LevelAt;
    hide Until;
    hide Limits.Refilled;
    var n := rl.burst.Floor;
    FullAtFirst(rl, 0.0);
    assert Until([], 0.0) by { NothingYet(); }
    ManyCalls(rl, [], 0.0, n);
    assert [] + Calls(0.0, n) == Calls(0.0, n);
    if rl.refill > 0.0 {
      WaitForOne(rl, Calls(0.0, n), rl.burst - n as real, 0.0);
    }
  }

  lemma NothingYet()
    ensures Until([], 0.0)
  {
  }

  /** Waiting until the bucket holds exactly one token, and taking it. */
  lemma WaitForOne(rl: Limits, trace: seq<Call>, tokens: real, last: real)
    requires rl.Valid() && rl.burst >= 1.0 && !rl.sweeps && rl.refill > 0.0 && 0.0 <= tokens < 1.0
    requires Until(trace, last) && Holds(rl, trace, tokens, last)
    ensures var at := last + (1.0 - tokens) / rl.refill;
            Until(trace + [Call("", at)], at) && Holds(rl, trace + [Call("", at)], 0.0, at)
  {
    hide Holds;
    hide LevelAt;
    hide Limits.Refilled;
    var at := last + (1.0 - tokens) / rl.refill;
    assert (1.0 - tokens) / rl.refill >= 0.0;
    LaterLevel(rl, trace, tokens, last, at);
    FullyRefilled(rl, tokens, last, 1.0 - tokens);
    OneCall(rl, trace, at);
  }

  /** What the never-sweeping limiter still lacks when the sweeping one has forgotten. */
  function Behind(rl: Limits): real
    requires rl.Valid() && rl.burst >= 1.0
  {
    var (trace, at) := Spent(rl);
    LevelAt(NeverSweeping(rl), trace, at + IDLE_TTL)
  }

  lemma FallsBehind(rl: Limits)
    requires rl.Valid() && rl.burst >= 1.0 && rl.burst > rl.refill * IDLE_TTL
    ensures 0.0 <= Behind(rl) < rl.burst && (rl.refill == 0.0 ==> Behind(rl) < 1.0)
  {
    hide Holds;
    var p := NeverSweeping(rl);
    var (trace, at) := Spent(rl);
    assert Spent(p) == Spent(rl);
    SpentLeaves(p);
    var tokens := if rl.refill == 0.0 then rl.burst - rl.burst.Floor as real else 0.0;
    LaterLevel(p, trace, tokens, at, at + IDLE_TTL);
    assert p.Inflow(at, at + IDLE_TTL) == rl.refill * IDLE_TTL;
    assert rl.refill * IDLE_TTL >= 0.0;
  }

  /** Ten minutes after spending: as many calls as the slower limiter can still answer,
      and then one more, as soon as the other one can answer it. */
  function TellingTrace(rl: Limits): seq<Call>
    requires rl.Valid() && rl.burst >= 1.0
  {
    var (trace, at) := Spent(rl);
    var now := at + IDLE_TTL;
    var m := if Behind(rl) >= 0.0 then Behind(rl).Floor else 0;
    var left := rl.burst - m as real;
    trace + Calls(now, m) + [Call("", if left >= 1.0 || rl.refill == 0.0 then now else now + (1.0 - left) / rl.refill)]
  }

  lemma Telling(rl: Limits)
    requires rl.Valid() && rl.sweeps && rl.burst >= 1.0 && rl.burst > rl.refill * IDLE_TTL
    ensures var trace := TellingTrace(rl);
            Monotone(trace) && Admitted(rl, trace, |trace| - 1) && !Admitted(NeverSweeping(rl), trace, |trace| - 1)
  {
    hide Holds;
    hide LevelAt;
    hide Admitted;
    hide Limits.Inflow;
    hide Limits.Refilled;
    var p := NeverSweeping(rl);
    var (trace, at) := Spent(rl);
    assert Spent(p) == Spent(rl);
    SpentLeaves(p);
    FallsBehind(rl);
    Forgotten(rl, trace, at);
    var now := at + IDLE_TTL;
    var m := Behind(rl).Floor;
    ManyCalls(rl, trace, now, m);
    ManyCalls(p, trace, now, m);
    var more := trace + Calls(now, m);
    var left := rl.burst - m as real;
    if left >= 1.0 {
      OneCall(rl, more, now);
      OneCall(p, more, now);
    } else {
      TellsLater(rl, more, left, Behind(rl) - m as real, now);
    }
  }

  /** Two limiters that hold less than a token: one more call as soon as the fuller one
      can answer it. */
  lemma TellsLater(rl: Limits, trace: seq<Call>, full: real, less: real, now: real)
    requires rl.Valid() && rl.refill > 0.0 && rl.burst >= 1.0 && 0.0 <= less < full < 1.0 && Until(trace, now)
    requires Holds(rl, trace, full, now) && Holds(NeverSweeping(rl), trace, less, now)
    ensures var more := trace + [Call("", now + (1.0 - full) / rl.refill)];
            && Until(more, now + (1.0 - full) / rl.refill)
            && Admitted(rl, more, |trace|) && !Admitted(NeverSweeping(rl), more, |trace|)
  {
    hide Holds;
    hide LevelAt;
    hide Admitted;
    hide Limits.Inflow;
    hide Limits.Refilled;
    var p := NeverSweeping(rl);
    var later := now + (1.0 - full) / rl.refill;
    assert later >= now;
    LaterLevel(rl, trace, full, now, later);
    LaterLevel(p, trace, less, now, later);
    FullyRefilled(rl, full, now, 1.0 - full);
    FullyRefilled(p, less, now, 1.0 - full);
    OneCall(rl, trace, later);
    OneCall(p, trace, later);
  }

  /** The three limiters the portal builds are on the safe side. */
  lemma PortalLimiters()
    ensures forall rl :: rl in {Limits(10.0, 0.5, true), Limits(3.0, 1.0 / 60.0, true)} ==> rl.Valid() && Invisible(rl)
  {
    InvisibleExactlyWhen(Limits(10.0, 0.5, true));
    InvisibleExactlyWhen(Limits(3.0, 1.0 / 60.0, true));
  }

  // ---- the admission bound is just as exact

  ghost predicate Bounded(rl: Limits) {
    forall trace: seq<Call>, key, from: real, to: real :: Monotone(trace) && from <= to ==>
      Count(rl, trace, key, from, to) as real <= rl.burst + rl.Inflow(from, to)
  }

  /** In any window at most the burst plus the window's refill is admitted: this holds for
      all traces under exactly the condition that makes the sweep invisible. */
  lemma AdmissionBoundExactlyWhen(rl: Limits)
    requires rl.Valid() && rl.sweeps
    ensures Bounded(rl) <==> rl.burst < 1.0 || rl.burst <= rl.refill * 600.0
  {
    if rl.burst < 1.0 || rl.burst <= rl.refill * IDLE_TTL {
      forall trace: seq<Call>, key, from: real, to: real | Monotone(trace) && from <= to
        ensures Count(rl, trace, key, from, to) as real <= rl.burst + rl.Inflow(from, to)
      {
        if rl.burst < 1.0 {
          InflowAdds(rl, from, to, to);
          NothingAdmitted(rl, trace, key, from, to);
        } else {
          AdmissionBound(rl, trace, key, from, to);
        }
      }
    } else {
      var trace := TwiceSpent(rl);
      TooManyAdmitted(rl);
      assert !(Count(rl, trace, "", 0.0, End(rl)) as real <= rl.burst + rl.Inflow(0.0, End(rl)));
    }
  }

  lemma {:induction false} NothingAdmitted(rl: Limits, trace: seq<Call>, key: string, from: real, to: real)
    requires rl.burst < 1.0
    ensures Count(rl, trace, key, from, to) == 0
  {
    if trace != [] {
      var c := trace[|trace| - 1];
      NothingAdmitted(rl, trace[..|trace| - 1], key, from, to);
      LevelAtMost(rl, rl.Sweep(Run(rl, trace[..|trace| - 1]), c.time), key, c.time);
    }
  }

  /** How long it takes to fill the fraction of a token that spending leaves. */
  function Pause(rl: Limits): real
    requires rl.Valid() && rl.burst >= 1.0
  {
    if rl.refill == 0.0 then 0.0 else (1.0 - (rl.burst - rl.burst.Floor as real)) / rl.refill
  }

  /** Spend the burst, and after the pause one more token if there is a refill. */
  function SpentFrom(rl: Limits, start: real): seq<Call>
    requires rl.Valid() && rl.burst >= 1.0
  {
    Calls(start, rl.burst.Floor) + (if rl.refill == 0.0 then [] else [Call("", start + Pause(rl))])
  }

  /** Twice, with ten idle minutes in between. */
  function TwiceSpent(rl: Limits): seq<Call>
    requires rl.Valid() && rl.burst >= 1.0
  {
    SpentFrom(rl, 0.0) + SpentFrom(rl, Pause(rl) + IDLE_TTL)
  }

  function End(rl: Limits): real
    requires rl.Valid() && rl.burst >= 1.0
  {
    Pause(rl) + IDLE_TTL + Pause(rl)
  }

  lemma PauseIsWait(rl: Limits)
    requires rl.Valid() && rl.burst >= 1.0
    ensures Pause(rl) >= 0.0 && End(rl) >= Pause(rl) + IDLE_TTL
    ensures rl.refill * Pause(rl) == if rl.refill == 0.0 then 0.0 else 1.0 - (rl.burst - rl.burst.Floor as real)
  {
  }

  /** One more call counts if it is answered. */
  lemma CountOne(rl: Limits, trace: seq<Call>, now: real, to: real)
    requires rl.Valid() && Until(trace, now) && 0.0 <= now <= to && LevelAt(rl, trace, now) >= 1.0
    ensures Count(rl, trace + [Call("", now)], "", 0.0, to) == Count(rl, trace, "", 0.0, to) + 1
  {
    assert (trace + [Call("", now)])[..|trace|] == trace;
  }

  lemma {:induction false} CountMany(rl: Limits, trace: seq<Call>, now: real, n: nat, to: real)
    requires rl.Valid() && Until(trace, now) && 0.0 <= now <= to && LevelAt(rl, trace, now) >= n as real
    ensures Count(rl, trace + Calls(now, n), "", 0.0, to) == Count(rl, trace, "", 0.0, to) + n
  {
    hide LevelAt;
    hide Count;
    if n == 0 {
      assert trace + Calls(now, 0) == trace;
    } else {
      CountMany(rl, trace, now, n - 1, to);
      ManyCalls(rl, trace, now, n - 1);
      var fewer := trace + Calls(now, n - 1);
      CountOne(rl, fewer, now, to);
      assert trace + Calls(now, n) == fewer + [Call("", now)];
    }
  }

  /** From a full bucket all these calls are answered, swept or not. */
  lemma SpendingCounts(rl: Limits, trace: seq<Call>, start: real, to: real)
    requires rl.Valid() && rl.burst >= 1.0 && 0.0 <= start && start + Pause(rl) <= to
    requires Until(trace, start) && LevelAt(rl, trace, start) == rl.burst
    ensures var more := trace + SpentFrom(rl, start);
            && Until(more, start + Pause(rl))
            && Count(rl, more, "", 0.0, to)
                == Count(rl, trace, "", 0.0, to) + PerSpending(rl)
  {
    hide LevelAt;
    hide Count;
    hide Holds;
    hide Until;
    var n := rl.burst.Floor;
    PauseIsWait(rl);
    ManyCalls(rl, trace, start, n);
    CountMany(rl, trace, start, n, to);
    var fewer := trace + Calls(start, n);
    if rl.refill == 0.0 {
      assert trace + SpentFrom(rl, start) == fewer;
    } else {
      var at := start + Pause(rl);
      UntilLater(fewer, start, at);
      LaterLevel(rl, fewer, rl.burst - n as real, start, at);
      FullyRefilled(rl, rl.burst - n as real, start, 1.0 - (rl.burst - n as real));
      OneCall(rl, fewer, at);
      CountOne(rl, fewer, at, to);
      assert trace + SpentFrom(rl, start) == fewer + [Call("", at)];
    }
  }

  lemma UntilLater(trace: seq<Call>, now: real, later: real)
    requires Until(trace, now) && now <= later
    ensures Until(trace, later)
  {
  }

  /** What one spending admits: the whole burst, and the token that fills up meanwhile. */
  function PerSpending(rl: Limits): int
    requires rl.Valid() && rl.burst >= 1.0
  {
    rl.burst.Floor + (if rl.refill == 0.0 then 0 else 1)
  }

  /** The sweep forgets the first spending, so the second one admits as much again. */
  lemma BothCount(rl: Limits)
    requires rl.Valid() && rl.sweeps && rl.burst >= 1.0 && rl.burst > rl.refill * IDLE_TTL
    ensures Until(TwiceSpent(rl), End(rl)) && 0.0 <= End(rl)
    ensures Count(rl, TwiceSpent(rl), "", 0.0, End(rl)) == PerSpending(rl) + PerSpending(rl)
  {
    hide LevelAt;
    hide Count;
    hide Until;
    hide Pause;
    hide SpentFrom;
    var pause, end := Pause(rl), End(rl);
    PauseIsWait(rl);
    NothingYet();
    FullAtFirst(rl, 0.0);
    SpendingCounts(rl, [], 0.0, end);
    var once := [] + SpentFrom(rl, 0.0);
    assert once == SpentFrom(rl, 0.0);
    Forgotten(rl, once, pause);
    UntilLater(once, pause, pause + IDLE_TTL);
    SpendingCounts(rl, once, pause + IDLE_TTL, end);
    NothingCounted(rl, end);
  }

  /** More calls are admitted than the bound allows. */
  lemma TooManyAdmitted(rl: Limits)
    requires rl.Valid() && rl.sweeps && rl.burst >= 1.0 && rl.burst > rl.refill * IDLE_TTL
    ensures Monotone(TwiceSpent(rl)) && 0.0 <= End(rl)
    ensures Count(rl, TwiceSpent(rl), "", 0.0, End(rl)) as real > rl.burst + rl.Inflow(0.0, End(rl))
  {
    hide Count;
    hide TwiceSpent;
    hide End;
    hide PerSpending;
    hide Limits.Inflow;
    BothCount(rl);
    TwoPauses(rl);
  }

  /** What flows in until the end is less than what is spent beyond one burst. */
  lemma TwoPauses(rl: Limits)
    requires rl.Valid() && rl.burst >= 1.0 && rl.burst > rl.refill * IDLE_TTL
    ensures rl.burst + rl.Inflow(0.0, End(rl)) < (PerSpending(rl) + PerSpending(rl)) as real
  {
    hide Pause;
    PauseIsWait(rl);
    var pause := Pause(rl);
    assert rl.Inflow(0.0, End(rl)) == rl.refill * pause + rl.refill * pause + rl.refill * IDLE_TTL;
  }

  lemma NothingCounted(rl: Limits, to: real)
    ensures Count(rl, [], "", 0.0, to) == 0
  {
  }
}
