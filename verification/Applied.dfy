/** Applying the limits to live torrents, and the cache that saves repeated calls. */
module Applied {
  import opened Catalog
  import opened Schedule
  import ConnBudget
  import Uploads

  datatype Settings = Settings(conns: int, upload: bool)

  // ---------- What a tick wants of every live torrent ----------

  datatype Live = Live(key: string, downloading: bool, seeding: bool, local: nat, demand: int, size: int)

  function Asks(l: Live): ConnBudget.Torrent { ConnBudget.Torrent(l.key, l.downloading, l.local) }

  function Offers(l: Live): Uploads.Candidate { Uploads.Candidate(l.key, l.demand, l.size) }

  function Cands(lives: seq<Live>): (ts: seq<ConnBudget.Torrent>)
    ensures |ts| == |lives| && forall i :: 0 <= i < |ts| ==> ts[i] == Asks(lives[i])
  {
    seq(|lives|, i requires 0 <= i < |lives| => Asks(lives[i]))
  }

  function Seeders(lives: seq<Live>): (c: seq<Uploads.Candidate>)
    ensures forall u <- c :: exists l <- lives :: l.seeding && u == Offers(l)
    ensures forall l <- lives :: l.seeding ==> Offers(l) in c
  {
    if lives == [] then []
    else
      var init, l := lives[..|lives| - 1], lives[|lives| - 1];
      assert lives == init + [l];
      if l.seeding then Seeders(init) + [Offers(l)] else Seeders(init)
  }

  ghost predicate DistinctKeys(lives: seq<Live>) {
    forall i, j :: 0 <= i < j < |lives| ==> lives[i].key != lives[j].key
  }

  function ParamsOf(eff: Limits, countLocal: bool): ConnBudget.Params {
    ConnBudget.Params(eff.maxConns, eff.maxConnsPerTorrent, countLocal)
  }

  /** The settings a tick wants: a share of the connections, and uploading unless the slots go to others. */
  ghost predicate Wanted(eff: Limits, countLocal: bool, lives: seq<Live>, l: Live, s: Settings)
    requires lives != []
  {
    && s.conns == ConnBudget.Allowance(ParamsOf(eff, countLocal), ConnBudget.Total(Cands(lives)), Asks(l))
    && (s.upload <==> !l.seeding || Uploads.Allowed(Seeders(lives), eff.maxActiveUploads, Offers(l)))
  }

  ghost predicate AllWanted(eff: Limits, countLocal: bool, lives: seq<Live>, wants: seq<Settings>)
    requires |wants| <= |lives|
  {
    forall i :: 0 <= i < |wants| ==> Wanted(eff, countLocal, lives, lives[i], wants[i])
  }

  /** Twice for each torrent that downloads, once for each other. */
  function Weights(lives: seq<Live>): nat {
    if lives == [] then 0 else Weights(lives[..|lives| - 1]) + if lives[|lives| - 1].downloading then 2 else 1
  }

  lemma {:induction false} WeightsAreTotal(lives: seq<Live>)
    ensures ConnBudget.Total(Cands(lives)) == Weights(lives)
  {
    if lives != [] {
      WeightsAreTotal(lives[..|lives| - 1]);
      assert Cands(lives)[..|lives| - 1] == Cands(lives[..|lives| - 1]);
    }
  }

  /** Another live torrent takes an upload slot before l does. */
  ghost predicate Outranks(o: Live, l: Live) {
    && o.seeding && o.size >= 64 * 1024 * 1024
    && (o.demand > l.demand || (o.demand == l.demand && Uploads.KeyBefore(o.key, l.key)))
  }

  ghost function Rivals(lives: seq<Live>, l: Live): set<int> { set i | 0 <= i < |lives| && Outranks(lives[i], l) }

  lemma {:induction false} RivalsAreAhead(lives: seq<Live>, l: Live)
    ensures Uploads.Ahead(Seeders(lives), Offers(l)) == |Rivals(lives, l)|
  {
    if lives == [] {
      assert Rivals(lives, l) == {};
    } else {
      var n := |lives| - 1;
      var front, o := lives[..n], lives[n];
      RivalsAreAhead(front, l);
      OneMoreSeeder(front, o, l);
      assert lives == front + [o];
      OneMoreRival(front, o, l);
    }
  }

  lemma {:induction false} OneMoreRival(front: seq<Live>, o: Live, l: Live)
    ensures |Rivals(front + [o], l)| == |Rivals(front, l)| + if Outranks(o, l) then 1 else 0
  {
    var n, lives := |front|, front + [o];
    assert lives[n] == o && forall i :: 0 <= i < n ==> front[i] == lives[i];
    assert Rivals(lives, l) == if Outranks(o, l) then Rivals(front, l) + {n} else Rivals(front, l);
  }

  lemma {:induction false} OneMoreSeeder(front: seq<Live>, o: Live, l: Live)
    ensures
      var before, now := Uploads.Ahead(Seeders(front), Offers(l)), Uploads.Ahead(Seeders(front + [o]), Offers(l));
      now == before + if Outranks(o, l) then 1 else 0
  {
    assert (front + [o])[..|front|] == front;
    Uploads.CountAppend(Seeders(front), Offers(o), Uploads.InFront(Offers(l)));
    Uploads.LessIsKeyBefore(o.key, l.key);
  }

  function Least(a: int, b: int): int { if a < b then a else b }

  /** What a tick wants of a live torrent, by what the torrent is: the proportional share of the connections, at least 4
      and at most the cap, local ones on top unless counted; and uploading unless it seeds a large file and as many
      others as there are slots outrank it. */
  lemma {:induction false} WantedMeans(eff: Limits, countLocal: bool, lives: seq<Live>, l: Live, s: Settings)
    requires lives != [] && Wanted(eff, countLocal, lives, l, s)
    ensures
      var cap := if eff.maxConnsPerTorrent <= 0 then 50 else eff.maxConnsPerTorrent;
      var part := eff.maxConns * (if l.downloading then 2 else 1) / Weights(lives);
      var share := if eff.maxConns <= 0 then cap else Least(if part < Least(4, cap) then Least(4, cap) else part, cap);
      s.conns == share + if countLocal then 0 else l.local
    ensures s.upload <==>
      || !l.seeding || l.size < 64 * 1024 * 1024 || eff.maxActiveUploads <= 0
      || |Rivals(lives, l)| < eff.maxActiveUploads
  {
    WeightsAreTotal(lives);
    RivalsAreAhead(lives, l);
  }

  lemma {:induction false} SameSeeder(lives: seq<Live>, l: Live, u: Uploads.Candidate)
    requires DistinctKeys(lives) && l in lives && u in Seeders(lives) && u.key == l.key
    ensures u == Offers(l)
  {
    var m :| m in lives && m.seeding && u == Offers(m);
    var i :| 0 <= i < |lives| && lives[i] == m;
    var j :| 0 <= j < |lives| && lives[j] == l;
    assert i == j;
  }

  method Gather(lives: seq<Live>) returns (cands: seq<ConnBudget.Torrent>, seeders: seq<Uploads.Candidate>)
    ensures cands == Cands(lives) && seeders == Seeders(lives)
  {
    cands, seeders := [], [];
    for i := 0 to |lives|
      invariant cands == Cands(lives[..i]) && seeders == Seeders(lives[..i])
    {
      assert lives[..i + 1][..i] == lives[..i];
      cands := cands + [Asks(lives[i])];
      if lives[i].seeding {
        seeders := seeders + [Offers(lives[i])];
      }
    }
    assert lives[..|lives|] == lives;
  }

  lemma {:induction false} ShareOf(p: ConnBudget.Params, lives: seq<Live>, alloc: map<string, int>, i: nat)
    requires DistinctKeys(lives) && i < |lives| && ConnBudget.Allocated(p, Cands(lives), alloc)
    ensures lives[i].key in alloc
    ensures alloc[lives[i].key] == ConnBudget.Allowance(p, ConnBudget.Total(Cands(lives)), Asks(lives[i]))
  {
    assert ConnBudget.LastOf(Cands(lives), i);
  }

  lemma {:induction false} UploadOf(n: int, lives: seq<Live>, allowed: set<string>, l: Live)
    requires DistinctKeys(lives) && l in lives
    requires (forall key :: key in allowed <==> Uploads.Picked(Seeders(lives), n, key))
    ensures l.seeding ==> (l.key in allowed <==> Uploads.Allowed(Seeders(lives), n, Offers(l)))
  {
    if l.seeding && l.key in allowed {
      var u :| u in Seeders(lives) && u.key == l.key && Uploads.Allowed(Seeders(lives), n, u);
      SameSeeder(lives, l, u);
    }
  }

  lemma {:induction false} WantedOf(eff: Limits, countLocal: bool, lives: seq<Live>, alloc: map<string, int>,
      allowed: set<string>, i: nat)
    requires DistinctKeys(lives) && i < |lives| && ConnBudget.Allocated(ParamsOf(eff, countLocal), Cands(lives), alloc)
    requires forall key :: key in allowed <==> Uploads.Picked(Seeders(lives), eff.maxActiveUploads, key)
    ensures lives[i].key in alloc
    ensures Wanted(eff, countLocal, lives, lives[i],
      Settings(alloc[lives[i].key], !lives[i].seeding || lives[i].key in allowed))
  {
    ShareOf(ParamsOf(eff, countLocal), lives, alloc, i);
    UploadOf(eff.maxActiveUploads, lives, allowed, lives[i]);
  }

  /** Pairs each live torrent with its share and its permission. */
  method Pair(ghost eff: Limits, ghost countLocal: bool, lives: seq<Live>, alloc: map<string, int>,
      allowed: set<string>)
    returns (wants: seq<Settings>)
    requires DistinctKeys(lives) && ConnBudget.Allocated(ParamsOf(eff, countLocal), Cands(lives), alloc)
    requires forall key :: key in allowed <==> Uploads.Picked(Seeders(lives), eff.maxActiveUploads, key)
    ensures |wants| == |lives| && AllWanted(eff, countLocal, lives, wants)
  {
    wants := [];
    for i := 0 to |lives|
      invariant |wants| == i && AllWanted(eff, countLocal, lives, wants)
    {
      var l := lives[i];
      WantedOf(eff, countLocal, lives, alloc, allowed, i);
      var want := Settings(alloc[l.key], !l.seeding || l.key in allowed);
      OneMoreWanted(eff, countLocal, lives, wants, want);
      wants := wants + [want];
    }
  }

  lemma {:induction false} OneMoreWanted(eff: Limits, countLocal: bool, lives: seq<Live>, wants: seq<Settings>,
      want: Settings)
    requires |wants| < |lives| && AllWanted(eff, countLocal, lives, wants)
    requires Wanted(eff, countLocal, lives, lives[|wants|], want)
    ensures AllWanted(eff, countLocal, lives, wants + [want])
  {
  }

  method WantedSettings(eff: Limits, countLocal: bool, lives: seq<Live>) returns (wants: seq<Settings>)
    requires DistinctKeys(lives)
    ensures |wants| == |lives| && AllWanted(eff, countLocal, lives, wants)
  {
    var cands, seeders := Gather(lives);
    var alloc := ConnBudget.Allocate(ParamsOf(eff, countLocal), cands);
    var allowed := Uploads.RankUploads(seeders, eff.maxActiveUploads);
    wants := Pair(eff, countLocal, lives, alloc, allowed);
  }

  // ---------- The cache of applied settings ----------

  type Tid = nat
  type JobId = nat

  /** What a job remembers: its torrent, and what was last applied to which torrent. */
  datatype Memo = Memo(t: Option<Tid>, appliedTo: Option<Tid>, maxConns: int, uploadOK: bool)

  datatype Calls = Calls(t: Tid, want: Settings, setConns: bool, setUpload: bool)

  function Decision(m: Memo, want: Settings): Calls
    requires m.t.Some?
  {
    var same := m.t == m.appliedTo;
    Calls(m.t.value, want, !same || want.conns != m.maxConns, !same || want.upload != m.uploadOK)
  }

  function Recorded(m: Memo, c: Calls): Memo {
    m.(maxConns := if c.setConns then c.want.conns else m.maxConns,
       uploadOK := if c.setUpload then c.want.upload else m.uploadOK, appliedTo := Some(c.t))
  }

  class Job {
    var t: Option<Tid>
    var appliedTo: Option<Tid>
    var maxConns: int
    var uploadOK: bool

    constructor ()
      ensures View() == Memo(None, None, 0, true)
    {
      t, appliedTo, maxConns, uploadOK := None, None, 0, true;
    }

    function View(): Memo
      reads this
    {
      Memo(t, appliedTo, maxConns, uploadOK)
    }

    method DecideLocked(want: Settings) returns (c: Option<Calls>)
      ensures c == if t.None? then None else Some(Decision(View(), want))
      ensures c.Some? ==>
        && Some(c.value.t) == t && c.value.want == want
        && (!c.value.setConns <==> appliedTo == t && maxConns == want.conns)
        && (!c.value.setUpload <==> appliedTo == t && uploadOK == want.upload)
    {
      if t.None? {
        return None;
      }
      var same := t == appliedTo;
      return Some(Calls(t.value, want, !same || want.conns != maxConns, !same || want.upload != uploadOK));
    }

    method RecordLocked(c: Calls)
      modifies this`maxConns, this`uploadOK, this`appliedTo
      ensures View() == Recorded(old(View()), c)
      ensures (old(View()).t == Some(c.t) && c == Decision(old(View()), c.want)) ==>
        appliedTo == t && maxConns == c.want.conns && uploadOK == c.want.upload
    {
      if c.setConns {
        maxConns := c.want.conns;
      }
      if c.setUpload {
        uploadOK := c.want.upload;
      }
      appliedTo := Some(c.t);
    }
  }

  datatype Phase =
    | Idle
    | Decided(job: JobId, calls: Calls)
    | ConnsSet(job: JobId, calls: Calls)
    | UploadSet(job: JobId, calls: Calls)

  datatype State = State(
    jobs: map<JobId, Memo>,
    actual: map<Tid, Settings>,   // what the library holds for each torrent
    phase: Phase,                 // of the one tick that runs at a time
    owner: map<Tid, JobId>)       // history: the job each torrent was added for

  datatype Step =
    | NewJob(j: JobId)
    | Swap(j: JobId, t: Tid, defaults: Settings)  // a job adds a torrent, at download or again to seed
    | Drop(j: JobId)
    | Decide(j: JobId, want: Settings)
    | CallConns
    | CallUpload
    | Record

  predicate Enabled(s: State, step: Step) {
    match step
    case NewJob(j) => j !in s.jobs
    case Swap(j, t, _) => j in s.jobs && t !in s.actual && t !in s.owner
    case Drop(j) => j in s.jobs
    case Decide(j, _) => s.phase.Idle? && j in s.jobs
    case CallConns => s.phase.Decided?
    case CallUpload => s.phase.ConnsSet?
    case Record => s.phase.UploadSet? && s.phase.job in s.jobs
  }

  function WithConns(actual: map<Tid, Settings>, t: Tid, n: int): map<Tid, Settings> {
    if t in actual then actual[t := actual[t].(conns := n)] else actual
  }

  function WithUpload(actual: map<Tid, Settings>, t: Tid, ok: bool): map<Tid, Settings> {
    if t in actual then actual[t := actual[t].(upload := ok)] else actual
  }

  /** A step of the program, or with always set, of the program that never skips a call. */
  function Apply(s: State, step: Step, always: bool): State
    requires Enabled(s, step)
  {
    match step
    case NewJob(j) => s.(jobs := s.jobs[j := Memo(None, None, 0, true)])
    case Swap(j, t, defaults) =>
      s.(jobs := s.jobs[j := s.jobs[j].(t := Some(t))], actual := s.actual[t := defaults], owner := s.owner[t := j])
    case Drop(j) => s.(jobs := s.jobs[j := s.jobs[j].(t := None)])
    case Decide(j, want) =>
      if s.jobs[j].t.None? then s
      else if always then s.(phase := Decided(j, Calls(s.jobs[j].t.value, want, true, true)))
      else s.(phase := Decided(j, Decision(s.jobs[j], want)))
    case CallConns =>
      var c := s.phase.calls;
      s.(phase := ConnsSet(s.phase.job, c),
         actual := if c.setConns then WithConns(s.actual, c.t, c.want.conns) else s.actual)
    case CallUpload =>
      var c := s.phase.calls;
      s.(phase := UploadSet(s.phase.job, c),
         actual := if c.setUpload then WithUpload(s.actual, c.t, c.want.upload) else s.actual)
    case Record =>
      s.(phase := Idle, jobs := s.jobs[s.phase.job := Recorded(s.jobs[s.phase.job], s.phase.calls)])
  }

  ghost predicate Owned(s: State, j: JobId, t: Tid) { t in s.owner && s.owner[t] == j && t in s.actual }

  /** What the library holds for the torrent a tick is working on. */
  ghost predicate PhaseOK(s: State) {
    s.phase.Idle? || (
      var c, j := s.phase.calls, s.phase.job;
      && j in s.jobs && Owned(s, j, c.t)
      && (s.jobs[j].appliedTo != Some(c.t) ==> c.setConns && c.setUpload)
      && (s.jobs[j].appliedTo == Some(c.t) && !c.setConns ==> s.jobs[j].maxConns == c.want.conns)
      && (s.jobs[j].appliedTo == Some(c.t) && !c.setUpload ==> s.jobs[j].uploadOK == c.want.upload)
      && (!s.phase.Decided? || !c.setConns ==> s.actual[c.t].conns == c.want.conns)
      && (s.phase.UploadSet? || !c.setUpload ==> s.actual[c.t].upload == c.want.upload))
  }

  ghost predicate Busy(s: State, j: JobId)
    requires j in s.jobs
  {
    !s.phase.Idle? && s.phase.job == j && s.jobs[j].appliedTo == Some(s.phase.calls.t)
  }

  ghost predicate MemoOK(s: State, j: JobId)
    requires j in s.jobs
  {
    var m := s.jobs[j];
    && (m.t.Some? ==> Owned(s, j, m.t.value))
    && (m.appliedTo.Some? ==> Owned(s, j, m.appliedTo.value))
    && (m.appliedTo.Some? && !Busy(s, j) ==> s.actual[m.appliedTo.value] == Settings(m.maxConns, m.uploadOK))
  }

  ghost predicate Inv(s: State) {
    && PhaseOK(s)
    && (forall j <- s.jobs :: MemoOK(s, j))
    && s.owner.Keys == s.actual.Keys
  }

  lemma {:induction false} StepKeeps(s: State, step: Step)
    requires Inv(s) && Enabled(s, step)
    ensures Inv(Apply(s, step, false))
  {
    var s' := Apply(s, step, false);
    forall j <- s'.jobs ensures MemoOK(s', j) {
      assert j in s.jobs ==> MemoOK(s, j);
    }
  }

  /** The two programs differ only in which calls the running tick has chosen. */
  ghost predicate Alike(s: State, a: State) {
    && s.jobs == a.jobs && s.actual == a.actual && s.owner == a.owner
    && (s.phase.Idle? <==> a.phase.Idle?) && (s.phase.Decided? <==> a.phase.Decided?)
    && (s.phase.ConnsSet? <==> a.phase.ConnsSet?)
    && (!s.phase.Idle? ==>
          s.phase.job == a.phase.job && s.phase.calls.(setConns := true, setUpload := true) == a.phase.calls)
  }

  lemma {:induction false} StepsAlike(s: State, a: State, step: Step)
    requires Inv(s) && Alike(s, a) && Enabled(s, step)
    ensures Enabled(a, step) && Alike(Apply(s, step, false), Apply(a, step, true))
  {
  }

  ghost predicate IsRun(s: State, steps: seq<Step>, always: bool)
    decreases |steps|
  {
    steps == [] || (Enabled(s, steps[0]) && IsRun(Apply(s, steps[0], always), steps[1..], always))
  }

  ghost function After(s: State, steps: seq<Step>, always: bool): State
    requires IsRun(s, steps, always)
    decreases |steps|
  {
    if steps == [] then s else After(Apply(s, steps[0], always), steps[1..], always)
  }

  lemma {:induction false} RunsAlike(s: State, a: State, steps: seq<Step>)
    requires Inv(s) && Alike(s, a) && IsRun(s, steps, false)
    ensures IsRun(a, steps, true)
    ensures Inv(After(s, steps, false)) && Alike(After(s, steps, false), After(a, steps, true))
    decreases |steps|
  {
    if steps != [] {
      StepKeeps(s, steps[0]);
      StepsAlike(s, a, steps[0]);
      RunsAlike(Apply(s, steps[0], false), Apply(a, steps[0], true), steps[1..]);
    }
  }

  const START := State(map[], map[], Idle, map[])

  /** Skipping calls never shows: every torrent always has the settings it would have if both setters were always
      called. */
  lemma {:induction false} SkippingIsInvisible(steps: seq<Step>)
    requires IsRun(START, steps, false)
    ensures IsRun(START, steps, true)
    ensures After(START, steps, false).actual == After(START, steps, true).actual
    ensures After(START, steps, false).jobs == After(START, steps, true).jobs
  {
    RunsAlike(START, START, steps);
  }

  /** Once a tick has recorded a job, the torrent it worked on has exactly what the tick wanted. */
  lemma {:induction false} TickApplies(steps: seq<Step>)
    requires IsRun(START, steps, false) && Enabled(After(START, steps, false), Record)
    ensures
      var s := After(START, steps, false);
      var c := s.phase.calls;
      var s' := Apply(s, Record, false);
      && c.t in s'.actual && s'.actual[c.t] == c.want && s'.jobs[s.phase.job].appliedTo == Some(c.t)
      && s'.jobs[s.phase.job].maxConns == c.want.conns && s'.jobs[s.phase.job].uploadOK == c.want.upload
  {
    RunsAlike(START, START, steps);
  }
}
