/** Time-of-day limit rules: which rule is in force when, and whether it changed in between. */
module Schedule {
  import opened Catalog

  datatype Limits = Limits(
    upload: int, download: int, maxConns: int, maxConnsPerTorrent: int, maxHalfOpen: int, maxActiveUploads: int)

  /** Only the keys a rule or an override sets. */
  datatype Partial = Partial(
    upload: Option<int>, download: Option<int>, maxConns: Option<int>, maxConnsPerTorrent: Option<int>,
    maxActiveUploads: Option<int>)

  function Or(own: Option<int>, base: int): int { if own.Some? then own.value else base }

  /** Each key that is set wins; the others, and the half-open limit, stay. */
  function Override(p: Partial, l: Limits): (r: Limits)
    ensures p.upload.Some? ==> r.upload == p.upload.value
    ensures p.download.Some? ==> r.download == p.download.value
    ensures p.maxConns.Some? ==> r.maxConns == p.maxConns.value
    ensures p.maxConnsPerTorrent.Some? ==> r.maxConnsPerTorrent == p.maxConnsPerTorrent.value
    ensures p.maxActiveUploads.Some? ==> r.maxActiveUploads == p.maxActiveUploads.value
    ensures p.upload.None? ==> r.upload == l.upload
    ensures p.download.None? ==> r.download == l.download
    ensures p.maxConns.None? ==> r.maxConns == l.maxConns
    ensures p.maxConnsPerTorrent.None? ==> r.maxConnsPerTorrent == l.maxConnsPerTorrent
    ensures p.maxActiveUploads.None? ==> r.maxActiveUploads == l.maxActiveUploads
    ensures r.maxHalfOpen == l.maxHalfOpen
  {
    l.(upload := Or(p.upload, l.upload), download := Or(p.download, l.download), maxConns := Or(p.maxConns, l.maxConns),
       maxConnsPerTorrent := Or(p.maxConnsPerTorrent, l.maxConnsPerTorrent),
       maxActiveUploads := Or(p.maxActiveUploads, l.maxActiveUploads))
  }

  /** Nanoseconds of local time, counted from the midnight a Sunday began at. */
  type Time = int

  const MINUTE := 60_000_000_000
  const DAY := 1440   // in minutes
  const WEEK := 10080 // in minutes

  function MinuteOf(t: Time): int { t / MINUTE }

  type Weekdays = d: seq<bool> | |d| == 7 witness [false, false, false, false, false, false, false]

  type Clock = m: nat | m <= DAY

  datatype Rule = Rule(days: Weekdays, from: Clock, to: Clock, sets: Partial)

  /** Whether the rule applies in minute k of local time. */
  predicate MatchesMinute(r: Rule, k: int) {
    var m, wd := k % DAY, (k / DAY) % 7;
    var prev := (wd + 6) % 7;
    if r.from == r.to then r.days[wd]
    else if r.from < r.to then r.days[wd] && r.from <= m < r.to
    else (r.days[wd] && m >= r.from) || (r.days[prev] && m < r.to)
  }

  predicate Matches(r: Rule, t: Time) { MatchesMinute(r, MinuteOf(t)) }

  datatype Timetable = Timetable(base: Limits, rules: seq<Rule>)

  /** The index of the first rule from i on that applies in minute k, or -1. */
  function FirstFrom(rules: seq<Rule>, k: int, i: nat): (n: int)
    requires i <= |rules|
    ensures n == -1 || (i <= n < |rules| && MatchesMinute(rules[n], k))
    ensures forall j :: i <= j < (if n == -1 then |rules| else n) ==> !MatchesMinute(rules[j], k)
    decreases |rules| - i
  {
    if i == |rules| then -1 else if MatchesMinute(rules[i], k) then i else FirstFrom(rules, k, i + 1)
  }

  function RuleAt(p: Timetable, t: Time): int { FirstFrom(p.rules, MinuteOf(t), 0) }

  /** The limits in force at t, and the index of the rule that set them. */
  function Effective(p: Timetable, t: Time): (r: (Limits, int))
    ensures r.1 == -1 || (0 <= r.1 < |p.rules| && Matches(p.rules[r.1], t))
    ensures forall j :: 0 <= j < (if r.1 == -1 then |p.rules| else r.1) ==> !Matches(p.rules[j], t)
    ensures r.0 == if r.1 == -1 then p.base else Override(p.rules[r.1].sets, p.base)
  {
    var i := RuleAt(p, t);
    (if i == -1 then p.base else Override(p.rules[i].sets, p.base), i)
  }

  // ---------- A rule as windows on the time line ----------

  /** When the window that belongs to calendar day d opens, in minutes. */
  function Opens(r: Rule, d: int): int { if r.from == r.to then d * DAY else d * DAY + r.from }

  /** When it closes: on the next day if it wraps past midnight. */
  function Closes(r: Rule, d: int): int {
    if r.from == r.to then (d + 1) * DAY else if r.from < r.to then d * DAY + r.to else (d + 1) * DAY + r.to
  }

  ghost predicate InWindow(r: Rule, d: int, t: Time) {
    r.days[d % 7] && Opens(r, d) * MINUTE <= t < Closes(r, d) * MINUTE
  }

  /** A rule applies exactly inside the windows of its days, each taken whole from the day it opens on. */
  lemma {:induction false} MatchesIsWindow(r: Rule, t: Time)
    ensures Matches(r, t) <==> exists d :: InWindow(r, d, t)
  {
    var k := MinuteOf(t);
    var d := k / DAY;
    WeekdayBefore(d);
    MinuteBounds(t);
    if Matches(r, t) {
      assert InWindow(r, d, t) || InWindow(r, d - 1, t);
    }
    if e :| InWindow(r, e, t) {
      assert Opens(r, e) <= k < Closes(r, e);
      assert e == d || e == d - 1;
    }
  }

  lemma {:induction false} WeekdayBefore(d: int)
    ensures (d - 1) % 7 == (d % 7 + 6) % 7
  {
  }

  lemma {:induction false} MinuteBounds(t: Time)
    ensures MinuteOf(t) * MINUTE <= t < (MinuteOf(t) + 1) * MINUTE
  {
  }

  // ---------- Weekly repetition ----------

  lemma {:induction false} MatchesWeekly(r: Rule, k: int, w: int)
    ensures MatchesMinute(r, k + w * WEEK) == MatchesMinute(r, k)
  {
    assert k + w * WEEK == k + DAY * (7 * w);
    assert (k + w * WEEK) % DAY == k % DAY;
    assert (k + w * WEEK) / DAY == k / DAY + 7 * w;
    assert (k / DAY + 7 * w) % 7 == (k / DAY) % 7;
  }

  lemma {:induction false} FirstWeekly(rules: seq<Rule>, k: int, w: int, i: nat)
    requires i <= |rules|
    ensures FirstFrom(rules, k + w * WEEK, i) == FirstFrom(rules, k, i)
    decreases |rules| - i
  {
    if i < |rules| {
      MatchesWeekly(rules[i], k, w);
      FirstWeekly(rules, k, w, i + 1);
    }
  }

  /** Some instant in (a, b] is under another rule than a. */
  ghost predicate Changes(p: Timetable, a: Time, b: Time) {
    exists t :: a < t <= b && RuleAt(p, t) != RuleAt(p, a)
  }

  /** The minute in the week after minute a at which the schedule does what it does in minute k. */
  lemma {:induction false} Recurs(p: Timetable, a: int, k: int) returns (k': int)
    requires a < k
    ensures a < k' <= a + WEEK && k' <= k && FirstFrom(p.rules, k', 0) == FirstFrom(p.rules, k, 0)
  {
    var w := (k - a - 1) / WEEK;
    k' := k - w * WEEK;
    FirstWeekly(p.rules, k', w, 0);
  }

  /** If every whole minute of the week after a is under a's rule, then so is every later instant. */
  lemma {:induction false} WeekDecides(p: Timetable, a: Time, t: Time)
    requires a < t
    requires forall k :: MinuteOf(a) < k <= MinuteOf(a) + WEEK && k * MINUTE <= t ==>
      FirstFrom(p.rules, k, 0) == RuleAt(p, a)
    ensures RuleAt(p, t) == RuleAt(p, a)
  {
    MinuteBounds(a);
    MinuteBounds(t);
    if MinuteOf(t) > MinuteOf(a) {
      var k := Recurs(p, MinuteOf(a), MinuteOf(t));
      assert k * MINUTE <= t;
    }
  }

  /** Whether the rule in force changes in (a, b]: scans whole minutes, and never more than eight days. */
  method Boundary(p: Timetable, a: Time, b: Time) returns (changed: bool)
    ensures changed <==> Changes(p, a, b)
  {
    if b <= a {
      return false;
    }
    var end := b;
    var lim := a + 8 * DAY * MINUTE;
    if end > lim {
      end := lim;
    }
    var i0 := Effective(p, a).1;
    var t := a / MINUTE * MINUTE + MINUTE;
    MinuteBounds(a);
    ghost var k := MinuteOf(a) + 1;
    while t <= end
      invariant t == k * MINUTE && k > MinuteOf(a)
      invariant forall m :: MinuteOf(a) < m < k ==> FirstFrom(p.rules, m, 0) == i0
      decreases end - t
    {
      assert MinuteOf(t) == k;
      if Effective(p, t).1 != i0 {
        return true;
      }
      t := t + MINUTE;
      k := k + 1;
    }
    forall x | a < x <= b ensures RuleAt(p, x) == i0 {
      forall m | MinuteOf(a) < m <= MinuteOf(a) + WEEK && m * MINUTE <= x ensures FirstFrom(p.rules, m, 0) == i0 {
        assert m < k;
      }
      WeekDecides(p, a, x);
    }
    return false;
  }
}
