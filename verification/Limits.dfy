/** A temporary override of the scheduled limits, and how long it lasts. */
module Limits {
  import opened Catalog
  import opened Schedule

  datatype Temporary = Temporary(sets: Partial, rule: int, at: Time)

  datatype State = State(over: Option<Temporary>, lastTick: Time, eff: Limits, rule: int)

  /** The critical sections that touch the limits, in the order they take the lock. */
  datatype Op = Put(sets: Partial, at: Time) | Clear | Tick(now: Time)

  function Since(s: State): Time
    requires s.over.Some?
  {
    if s.lastTick < s.over.value.at then s.over.value.at else s.lastTick
  }

  ghost predicate Lapses(p: Timetable, s: State, now: Time)
    requires s.over.Some?
  {
    s.over.value.rule != RuleAt(p, now) || Changes(p, Since(s), now)
  }

  function InForce(p: Timetable, over: Option<Temporary>, now: Time): Limits {
    var scheduled := Effective(p, now).0;
    if over.None? then scheduled else Override(over.value.sets, scheduled)
  }

  ghost function Step(p: Timetable, s: State, op: Op): State {
    match op
    case Put(sets, at) => s.(over := Some(Temporary(sets, RuleAt(p, at), at)))
    case Clear => s.(over := None)
    case Tick(now) =>
      var over := if s.over.Some? && Lapses(p, s, now) then None else s.over;
      State(over, now, InForce(p, over, now), RuleAt(p, now))
  }

  ghost function After(p: Timetable, s: State, ops: seq<Op>): State {
    if ops == [] then s else Step(p, After(p, s, ops[..|ops| - 1]), ops[|ops| - 1])
  }

  class Limiter {
    const plan: Timetable
    var over: Option<Temporary>
    var lastTick: Time
    var eff: Limits
    var rule: int

    constructor (plan: Timetable, zero: Time)
      ensures this.plan == plan && View() == State(None, zero, plan.base, -1)
    {
      this.plan := plan;
      over, lastTick, eff, rule := None, zero, plan.base, -1;
    }

    function View(): State
      reads this
    {
      State(over, lastTick, eff, rule)
    }

    method SetLocked(sets: Partial, now: Time)
      modifies this`over
      ensures View() == Step(plan, old(View()), Put(sets, now))
    {
      over := Some(Temporary(sets, Effective(plan, now).1, now));
    }

    method ClearLocked()
      modifies this`over
      ensures View() == Step(plan, old(View()), Clear)
    {
      over := None;
    }

    method ApplyLimits(now: Time)
      modifies this
      ensures View() == Step(plan, old(View()), Tick(now))
    {
      var (limits, idx) := Effective(plan, now);
      if over.Some? {
        var since := lastTick;
        if since < over.value.at {
          since := over.value.at;
        }
        var changed := Boundary(plan, since, now);
        if over.value.rule != idx || changed {
          over := None;
        }
      }
      if over.Some? {
        limits := Override(over.value.sets, limits);
      }
      eff, rule, lastTick := limits, idx, now;
    }

    method SetOverride(sets: Partial, now: Time)
      modifies this
      ensures View() == After(plan, old(View()), [Put(sets, now), Tick(now)])
      ensures over == Some(Temporary(sets, RuleAt(plan, now), now))
    {
      SetLocked(sets, now);
      ApplyLimits(now);
      Two(plan, old(View()), Put(sets, now), Tick(now));
    }

    method ClearOverride(now: Time)
      modifies this
      ensures View() == After(plan, old(View()), [Clear, Tick(now)])
      ensures over.None? && eff == Effective(plan, now).0
    {
      ClearLocked();
      ApplyLimits(now);
      Two(plan, old(View()), Clear, Tick(now));
    }
  }

  lemma {:induction false} Two(p: Timetable, s: State, a: Op, b: Op)
    ensures After(p, s, [a, b]) == Step(p, Step(p, s, a), b)
  {
    assert [a, b][..1] == [a];
    assert [a][..0] == [];
    assert After(p, s, [a]) == Step(p, s, a);
  }

  // ---------- How long an override lasts ----------

  function Ticks(ts: seq<Time>): seq<Op> { seq(|ts|, i requires 0 <= i < |ts| => Tick(ts[i])) }

  ghost predicate Same(p: Timetable, at: Time, x: Time) { RuleAt(p, x) == RuleAt(p, at) }

  /** The rule never changed from at until t; trivially so when t is before at. */
  ghost predicate Constant(p: Timetable, at: Time, t: Time) {
    forall x :: at <= x <= t ==> Same(p, at, x)
  }

  ghost predicate Lasts(p: Timetable, at: Time, ts: seq<Time>) {
    forall t <- ts :: Same(p, at, t) && Constant(p, at, t)
  }

  lemma {:induction false} AfterAppend(p: Timetable, s: State, ops: seq<Op>, op: Op)
    ensures After(p, s, ops + [op]) == Step(p, After(p, s, ops), op)
  {
    assert (ops + [op])[..|ops|] == ops;
  }

  /** One tick: an override that has lasted so far goes on exactly if the rule is still the same throughout. */
  lemma {:induction false} TickDecides(p: Timetable, s: State, at: Time, prev: seq<Time>, now: Time)
    requires s.over.Some? && s.over.value.at == at && s.over.value.rule == RuleAt(p, at)
    requires Lasts(p, at, prev) && (s.lastTick <= at || s.lastTick in prev || now == at)
    ensures Lapses(p, s, now) <==> !(Same(p, at, now) && Constant(p, at, now))
  {
    if now == at {
      return;
    }
    var since := Since(s);
    assert Same(p, at, since) && Constant(p, at, since);
    if Changes(p, since, now) {
      var x :| since < x <= now && RuleAt(p, x) != RuleAt(p, since);
      assert !Same(p, at, x);
    } else {
      forall x | at <= x <= now ensures Same(p, at, x) || RuleAt(p, now) != RuleAt(p, at) {
        if x > since { assert RuleAt(p, x) == RuleAt(p, since); }
      }
    }
  }

  ghost predicate ConstantFrom(p: Timetable, at: Time, from: Time, t: Time) {
    forall x :: from <= x <= t ==> Same(p, at, x)
  }

  /** The tick before ts[i], the first of which follows a tick at last. */
  function TickBefore(last: Time, ts: seq<Time>, i: nat): Time
    requires i < |ts|
  {
    if i == 0 then last else ts[i - 1]
  }

  /** Each tick sees the override's rule, and it was constant since the tick before or since the override was set. */
  ghost predicate SeenConstant(p: Timetable, at: Time, last: Time, ts: seq<Time>) {
    forall i: nat :: i < |ts| ==> SeenAt(p, at, last, ts, i)
  }

  ghost predicate SeenAt(p: Timetable, at: Time, last: Time, ts: seq<Time>, i: nat)
    requires i < |ts|
  {
    var before := TickBefore(last, ts, i);
    Same(p, at, ts[i]) && ConstantFrom(p, at, if before < at then at else before, ts[i])
  }

  lemma {:induction false} TickSees(p: Timetable, s: State, now: Time)
    requires s.over.Some? && s.over.value.rule == RuleAt(p, s.over.value.at)
    ensures Lapses(p, s, now) <==> !(Same(p, s.over.value.at, now) && ConstantFrom(p, s.over.value.at, Since(s), now))
  {
    var at, since := s.over.value.at, Since(s);
    if Changes(p, since, now) {
      var x :| since < x <= now && RuleAt(p, x) != RuleAt(p, since);
      assert !(Same(p, at, x) && Same(p, at, since));
    } else {
      forall x | since <= x <= now ensures RuleAt(p, x) == RuleAt(p, now) {
        assert x > since ==> RuleAt(p, x) == RuleAt(p, since);
        assert now > since ==> RuleAt(p, now) == RuleAt(p, since);
      }
    }
  }

  lemma {:induction false} LastTick(p: Timetable, s: State, ts: seq<Time>)
    requires ts != []
    ensures After(p, s, Ticks(ts)) == Step(p, After(p, s, Ticks(ts[..|ts| - 1])), Tick(ts[|ts| - 1]))
  {
    var prev, now := ts[..|ts| - 1], ts[|ts| - 1];
    assert Ticks(ts) == Ticks(prev) + [Tick(now)];
    AfterAppend(p, s, Ticks(prev), Tick(now));
  }

  lemma {:induction false} SeenSplit(p: Timetable, at: Time, last: Time, ts: seq<Time>)
    requires ts != []
    ensures SeenConstant(p, at, last, ts) <==>
      SeenConstant(p, at, last, ts[..|ts| - 1]) && SeenAt(p, at, last, ts, |ts| - 1)
  {
    var prev, n := ts[..|ts| - 1], |ts| - 1;
    forall i: nat | i < n ensures SeenAt(p, at, last, ts, i) <==> SeenAt(p, at, last, prev, i) {
    }
    if SeenConstant(p, at, last, prev) && SeenAt(p, at, last, ts, n) {
      forall i: nat | i < |ts| ensures SeenAt(p, at, last, ts, i) {
        assert i < n ==> SeenAt(p, at, last, prev, i);
      }
    }
    if SeenConstant(p, at, last, ts) {
      forall i: nat | i < n ensures SeenAt(p, at, last, prev, i) {
        assert SeenAt(p, at, last, ts, i);
      }
    }
  }

  lemma {:induction false} LastsSplit(p: Timetable, at: Time, ts: seq<Time>)
    requires ts != []
    ensures
      var now := ts[|ts| - 1];
      Lasts(p, at, ts) <==> Lasts(p, at, ts[..|ts| - 1]) && Same(p, at, now) && Constant(p, at, now)
  {
    var prev, now := ts[..|ts| - 1], ts[|ts| - 1];
    assert ts == prev + [now];
    assert forall t :: t in ts <==> t in prev || t == now;
  }

  /** From any state, and for ticks in any order, exactly when the override survives them. */
  lemma {:induction false} Survives(p: Timetable, s: State, ts: seq<Time>)
    requires s.over.Some? && s.over.value.rule == RuleAt(p, s.over.value.at)
    ensures
      var t := After(p, s, Ticks(ts));
      && t.over == (if SeenConstant(p, s.over.value.at, s.lastTick, ts) then s.over else None)
      && t.lastTick == (if ts == [] then s.lastTick else ts[|ts| - 1])
  {
    if ts != [] {
      var at, prev, n := s.over.value.at, ts[..|ts| - 1], |ts| - 1;
      Survives(p, s, prev);
      LastTick(p, s, ts);
      SeenSplit(p, at, s.lastTick, ts);
      if SeenConstant(p, at, s.lastTick, prev) {
        TickSees(p, After(p, s, Ticks(prev)), ts[n]);
      }
    }
  }

  /** In whatever order the ticks' clock readings are applied, they clear the override exactly if one sees another
      rule or the rule changed before it. */
  lemma {:induction false} Lifetime(p: Timetable, s: State, ts: seq<Time>)
    requires s.over.Some? && s.over.value.rule == RuleAt(p, s.over.value.at)
    requires s.lastTick <= s.over.value.at || (ts != [] ==> ts[0] == s.over.value.at)
    ensures
      var t := After(p, s, Ticks(ts));
      && t.over == (if Lasts(p, s.over.value.at, ts) then s.over else None)
      && (if ts == [] then t.lastTick == s.lastTick else t.lastTick == ts[|ts| - 1])
  {
    if ts != [] {
      var at, prev, now := s.over.value.at, ts[..|ts| - 1], ts[|ts| - 1];
      Lifetime(p, s, prev);
      LastTick(p, s, ts);
      LastsSplit(p, at, ts);
      if Lasts(p, at, prev) {
        TickDecides(p, After(p, s, Ticks(prev)), at, prev, now);
      }
    }
  }

  predicate NoLaterThan(ops: seq<Op>, at: Time) {
    forall op <- ops :: (op.Put? ==> op.at <= at) && (op.Tick? ==> op.now <= at)
  }

  lemma {:induction false} LastTickBound(p: Timetable, s: State, ops: seq<Op>, at: Time)
    requires s.lastTick <= at && NoLaterThan(ops, at)
    ensures After(p, s, ops).lastTick <= at
  {
    if ops != [] {
      LastTickBound(p, s, ops[..|ops| - 1], at);
    }
  }

  lemma {:induction false} AfterConcat(p: Timetable, s: State, a: seq<Op>, b: seq<Op>)
    ensures After(p, s, a + b) == After(p, After(p, s, a), b)
  {
    if b == [] {
      assert a + b == a;
    } else {
      var init, op := b[..|b| - 1], b[|b| - 1];
      AfterConcat(p, s, a, init);
      assert a + b == (a + init) + [op];
      AfterAppend(p, s, a + init, op);
    }
  }

  ghost predicate Rising(at: Time, ts: seq<Time>) {
    (forall t <- ts :: at <= t) && (forall i, j :: 0 <= i < j < |ts| ==> ts[i] <= ts[j])
  }

  /** With a clock that does not go back, an override is in force after a tick exactly if the rule never changed since
      it was set. */
  lemma {:induction false} OverrideLasts(p: Timetable, s: State, before: seq<Op>, sets: Partial, at: Time,
      ts: seq<Time>)
    requires s.lastTick <= at && NoLaterThan(before, at) && ts != [] && Rising(at, ts)
    ensures
      var t, now := After(p, s, before + [Put(sets, at)] + Ticks(ts)), ts[|ts| - 1];
      && (t.over.Some? <==> Constant(p, at, now))
      && t.eff == (if Constant(p, at, now) then Override(sets, Effective(p, now).0) else Effective(p, now).0)
  {
    var put, now := After(p, s, before + [Put(sets, at)]), ts[|ts| - 1];
    LastTickBound(p, s, before, at);
    AfterAppend(p, s, before, Put(sets, at));
    AfterConcat(p, s, before + [Put(sets, at)], Ticks(ts));
    Lifetime(p, put, ts);
    LastEff(p, put, ts);
    assert Lasts(p, at, ts) <==> Constant(p, at, now) by {
      if Constant(p, at, now) {
        forall t | t in ts ensures Same(p, at, t) && Constant(p, at, t) {
          assert at <= t <= now;
        }
      }
    }
  }

  lemma {:induction false} LastEff(p: Timetable, s: State, ts: seq<Time>)
    requires ts != []
    ensures After(p, s, Ticks(ts)).eff == InForce(p, After(p, s, Ticks(ts)).over, ts[|ts| - 1])
  {
    assert Ticks(ts)[|ts| - 1] == Tick(ts[|ts| - 1]);
  }

  /** A tick whose clock was read before the override was set, but which is applied after, can drop it at once. */
  lemma {:induction false} LateTickDrops() returns (p: Timetable, s: State, sets: Partial, at: Time, late: Time)
    ensures s.lastTick <= late < at && Constant(p, at, at)
    ensures After(p, s, [Put(sets, at), Tick(late)]).over.None?
  {
    sets := Partial(None, None, None, None, None);
    var base := Limits(0, 0, 0, 0, 0, 0);
    var days: Weekdays := [true, true, true, true, true, true, true];
    p := Timetable(base, [Rule(days, 1, 2, sets)]);
    at, late := MINUTE, 0;
    s := State(None, 0, base, -1);
    assert RuleAt(p, at) == 0 && RuleAt(p, late) == -1;
    Two(p, s, Put(sets, at), Tick(late));
  }
}
