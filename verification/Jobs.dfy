/** The node's jobs as a step machine: what the manager (under its lock) and the job goroutines do,
    in any interleaving. A job is named by its position in the order of creation, and so is its
    done channel. */
module Jobs {
  import opened Catalog

  type JobId = nat

  datatype Phase = Waiting | Running | Done

  /** Why a run ends without being stopped. */
  datatype Outcome = Busy | Failed | Absent

  /** What a job serves: a model's torrent, the name it is stored under and, if it is a folder, the whole model, from
      which its files are checked, verified and recorded. */
  datatype Entry = Entry(model: string, f: File, disk: string, dir: Option<Model>)

  datatype Job = Job(entry: Entry, waits: set<JobId>, phase: Phase, outcome: Outcome, cancelled: bool, prune: bool)

  datatype State = State(
    table: seq<Job>,                    // every job ever started
    live: map<string, JobId>,           // by infohash
    stopping: map<string, JobId>,       // by infohash: the latest job retired
    stoppingDisk: map<string, JobId>,   // the same, by disk name
    closed: bool)

  const INIT := State([], map[], map[], map[], false)

  datatype Step =
    | Launch(entry: Entry)
    | Retire(ih: string, prune: bool)
    | Forget(j: JobId)                    // a retired job's done channel fired
    | Enter(j: JobId)                     // every predecessor's done channel fired
    | GiveUp(j: JobId, outcome: Outcome)
    | Finish(j: JobId)
    | Close

  function Ih(j: Job): string { j.entry.f.infoHash }
  function Disk(j: Job): string { j.entry.disk }

  predicate Shares(a: Job, b: Job) { Ih(a) == Ih(b) || Disk(a) == Disk(b) }

  predicate IsLive(s: State, j: JobId) {
    j < |s.table| && Ih(s.table[j]) in s.live && s.live[Ih(s.table[j])] == j
  }

  predicate IsDone(s: State, j: JobId) { j < |s.table| && s.table[j].phase.Done? }

  function Lookup(m: map<string, JobId>, key: string): set<JobId> {
    if key in m then {m[key]} else {}
  }

  function Without(m: map<string, JobId>, key: string, j: JobId): map<string, JobId> {
    if key in m && m[key] == j then m - {key} else m
  }

  predicate Enabled(s: State, step: Step) {
    match step
    case Launch(e) =>
      && !s.closed && e.f.infoHash !in s.live
      && forall ih <- s.live :: s.live[ih] < |s.table| && Disk(s.table[s.live[ih]]) != e.disk
    case Retire(ih, _) => ih in s.live && s.live[ih] < |s.table|
    case Forget(j) => IsDone(s, j) && !IsLive(s, j)
    case Enter(j) => j < |s.table| && s.table[j].phase.Waiting? && forall w <- s.table[j].waits :: IsDone(s, w)
    case GiveUp(j, o) =>
      && j < |s.table| && s.table[j].phase.Running? && s.table[j].outcome.Busy? && !o.Busy?
      && !s.table[j].cancelled && !s.closed
    case Finish(j) =>
      && j < |s.table| && s.table[j].phase.Running?
      && (s.table[j].cancelled || s.closed || !s.table[j].outcome.Busy?)
    case Close => true
  }

  function Apply(s: State, step: Step): State
    requires Enabled(s, step)
  {
    match step
    case Launch(e) =>
      var waits := Lookup(s.stopping, e.f.infoHash) + Lookup(s.stoppingDisk, e.disk);
      s.(table := s.table + [Job(e, waits, Waiting, Busy, false, false)],
         live := s.live[e.f.infoHash := |s.table|])
    case Retire(ih, prune) =>
      var j := s.live[ih];
      s.(table := s.table[j := s.table[j].(cancelled := true, prune := prune)],
         live := s.live - {ih},
         stopping := s.stopping[ih := j],
         stoppingDisk := s.stoppingDisk[Disk(s.table[j]) := j])
    case Forget(j) =>
      s.(stopping := Without(s.stopping, Ih(s.table[j]), j),
         stoppingDisk := Without(s.stoppingDisk, Disk(s.table[j]), j))
    case Enter(j) => s.(table := s.table[j := s.table[j].(phase := Running)])
    case GiveUp(j, o) => s.(table := s.table[j := s.table[j].(outcome := o)])
    case Finish(j) => s.(table := s.table[j := s.table[j].(phase := Done)])
    case Close => s.(closed := true)
  }

  /** What a step leaves alone. */
  lemma {:induction false} StepFrame(s: State, step: Step, k: JobId)
    requires Enabled(s, step) && k < |s.table|
    ensures k < |Apply(s, step).table| && Apply(s, step).table[k].entry == s.table[k].entry
    ensures s.table[k].phase.Running? && step != Finish(k) ==> Apply(s, step).table[k].phase.Running?
  {
  }

  /** Only a retirement marks a job to be pruned. */
  lemma {:induction false} PruneMark(s: State, step: Step, k: JobId)
    requires Enabled(s, step) && k < |Apply(s, step).table| && Apply(s, step).table[k].prune
    ensures || (k < |s.table| && s.table[k].prune)
            || (step.Retire? && step.prune && step.ih in s.live && s.live[step.ih] == k)
  {
  }

  /** A run: every step enabled when it is taken. */
  ghost predicate IsRun(steps: seq<Step>)
    decreases |steps|, 0
  {
    steps == [] || (IsRun(steps[..|steps| - 1]) && Enabled(After(steps[..|steps| - 1]), steps[|steps| - 1]))
  }

  ghost function After(steps: seq<Step>): State
    requires IsRun(steps)
    decreases |steps|, 1
  {
    if steps == [] then INIT else Apply(After(steps[..|steps| - 1]), steps[|steps| - 1])
  }

  // ---------- The invariant ----------

  /** Two jobs, the earlier first, that would touch the same torrent or the same paths. */
  predicate Clash(s: State, a: JobId, b: JobId) {
    a < b < |s.table| && Shares(s.table[a], s.table[b])
  }

  predicate IsWaiting(s: State, j: JobId) { j < |s.table| && s.table[j].phase.Waiting? }

  ghost predicate MapsOK(s: State) {
    && (forall ih <- s.live :: s.live[ih] < |s.table| && Ih(s.table[s.live[ih]]) == ih)
    && (forall ih <- s.stopping :: s.stopping[ih] < |s.table| && Ih(s.table[s.stopping[ih]]) == ih)
    && (forall d <- s.stoppingDisk :: s.stoppingDisk[d] < |s.table| && Disk(s.table[s.stoppingDisk[d]]) == d)
    && (forall j: JobId {:trigger IsLive(s, j)} :: j < |s.table| ==> IsLive(s, j) == !s.table[j].cancelled)
  }

  ghost predicate WaitsOK(s: State) {
    forall b: JobId, w: JobId {:trigger w in s.table[b].waits} :: b < |s.table| && w in s.table[b].waits ==> w < b
  }

  /** A later job has not got past its waits while an earlier one it clashes with is active. */
  ghost predicate Ordered(s: State) {
    forall a: JobId, b: JobId {:trigger Clash(s, a, b)} :: Clash(s, a, b) && !IsWaiting(s, b) ==> IsDone(s, a)
  }

  /** c is unfinished, and is a or clashes with the earlier a. */
  ghost predicate StandsFor(s: State, c: JobId, a: JobId) {
    c < |s.table| && !IsDone(s, c) && (c == a || (a < c && Shares(s.table[a], s.table[c])))
  }

  ghost predicate WaitsFor(s: State, b: JobId, a: JobId) {
    exists w {:trigger StandsFor(s, w, a)} :: b < |s.table| && w in s.table[b].waits && StandsFor(s, w, a)
  }

  /** One of the channels b waits for stands for each unfinished earlier job b clashes with. */
  ghost predicate Held(s: State) {
    forall a: JobId, b: JobId {:trigger Clash(s, a, b)} :: Clash(s, a, b) && !IsDone(s, a) ==> WaitsFor(s, b, a)
  }

  /** The latest retired job, by either key, stands for every earlier unfinished one. */
  ghost predicate Remembered(s: State) {
    forall a: JobId {:trigger IsLive(s, a)} :: a < |s.table| && !IsLive(s, a) && !IsDone(s, a) ==>
      && Ih(s.table[a]) in s.stopping && StandsFor(s, s.stopping[Ih(s.table[a])], a)
      && Disk(s.table[a]) in s.stoppingDisk && StandsFor(s, s.stoppingDisk[Disk(s.table[a])], a)
  }

  /** Nothing is started that clashes with a live job. */
  ghost predicate LiveApart(s: State) {
    forall j: JobId, b: JobId {:trigger Clash(s, j, b)} :: Clash(s, j, b) ==> !IsLive(s, j)
  }

  ghost predicate Inv(s: State) {
    MapsOK(s) && WaitsOK(s) && Ordered(s) && Held(s) && Remembered(s) && LiveApart(s)
  }

  /** The earlier jobs look the same after a launch. */
  lemma {:induction false} LaunchFrame(s: State, e: Entry)
    requires MapsOK(s) && Enabled(s, Launch(e))
    ensures
      var s1, n := Apply(s, Launch(e)), |s.table|;
      && (forall a: JobId {:trigger IsLive(s1, a)} :: a < n ==> IsLive(s1, a) == IsLive(s, a))
      && (forall a: JobId, b: JobId {:trigger Clash(s1, a, b)} :: b < n ==> Clash(s1, a, b) == Clash(s, a, b))
      && (forall c: JobId, a: JobId {:trigger StandsFor(s1, c, a)} :: c < n ==>
            StandsFor(s1, c, a) == StandsFor(s, c, a))
  {
  }

  /** The new job waits for a stand-in of every unfinished job it clashes with. */
  lemma {:induction false} LaunchWaits(s: State, e: Entry, a: JobId)
    requires MapsOK(s) && Remembered(s) && Enabled(s, Launch(e)) && Clash(Apply(s, Launch(e)), a, |s.table|)
    ensures !IsLive(Apply(s, Launch(e)), a)
    ensures !IsDone(Apply(s, Launch(e)), a) ==> WaitsFor(Apply(s, Launch(e)), |s.table|, a)
  {
    var s1 := Apply(s, Launch(e));
    LaunchFrame(s, e);
    assert IsLive(s1, a) == IsLive(s, a);
    if !IsDone(s1, a) {
      if Ih(s.table[a]) == e.f.infoHash {
        assert StandsFor(s1, s.stopping[e.f.infoHash], a);
      } else {
        assert StandsFor(s1, s.stoppingDisk[e.disk], a);
      }
    }
  }

  lemma {:induction false} LaunchMaps(s: State, e: Entry)
    requires MapsOK(s) && WaitsOK(s) && Enabled(s, Launch(e))
    ensures MapsOK(Apply(s, Launch(e))) && WaitsOK(Apply(s, Launch(e)))
  {
    LaunchFrame(s, e);
  }

  lemma {:induction false} LaunchRemembers(s: State, e: Entry)
    requires MapsOK(s) && Remembered(s) && Enabled(s, Launch(e))
    ensures Remembered(Apply(s, Launch(e)))
  {
    LaunchFrame(s, e);
    var s1 := Apply(s, Launch(e));
    assert IsLive(s1, |s.table|);
  }

  lemma {:induction false} LaunchKeeps(s: State, e: Entry)
    requires Inv(s) && Enabled(s, Launch(e))
    ensures Inv(Apply(s, Launch(e)))
  {
    var s1 := Apply(s, Launch(e));
    var n := |s.table|;
    LaunchMaps(s, e);
    LaunchRemembers(s, e);
    LaunchFrame(s, e);
    forall a: JobId | Clash(s1, a, n) ensures !IsLive(s1, a) && (!IsDone(s1, a) ==> WaitsFor(s1, n, a)) {
      LaunchWaits(s, e, a);
    }
    forall a: JobId, b: JobId | Clash(s1, a, b) && !IsDone(s1, a) ensures WaitsFor(s1, b, a) {
      if b < n {
        var w :| w in s.table[b].waits && StandsFor(s, w, a);
        assert StandsFor(s1, w, a);
      }
    }
  }

  lemma {:induction false} RetireKeeps(s: State, ih: string, prune: bool)
    requires Inv(s) && Enabled(s, Retire(ih, prune))
    ensures Inv(Apply(s, Retire(ih, prune)))
  {
    var s1 := Apply(s, Retire(ih, prune));
    var j := s.live[ih];
    SameJobs(s, s1);
    assert IsLive(s, j);
    assert forall a: JobId {:trigger IsLive(s1, a)} :: a != j ==> IsLive(s1, a) == IsLive(s, a);
    assert Held(s1) && LiveApart(s1);
    RetireRemembers(s, ih, prune);
  }

  /** The job just retired stands for itself and for every earlier one whose place it takes in the two maps. */
  lemma {:induction false} RetireRemembers(s: State, ih: string, prune: bool)
    requires MapsOK(s) && Ordered(s) && Remembered(s) && LiveApart(s) && Enabled(s, Retire(ih, prune))
    ensures Remembered(Apply(s, Retire(ih, prune)))
  {
    var s1 := Apply(s, Retire(ih, prune));
    var j := s.live[ih];
    forall a: JobId | a < |s.table| && !IsLive(s1, a) && !IsDone(s1, a)
      ensures Ih(s.table[a]) in s1.stopping && StandsFor(s1, s1.stopping[Ih(s.table[a])], a)
      ensures Disk(s.table[a]) in s1.stoppingDisk && StandsFor(s1, s1.stoppingDisk[Disk(s.table[a])], a)
    {
      assert IsLive(s, a) <==> a == j;
      assert IsLive(s, j) && !Clash(s, j, a);
      assert Clash(s, a, j) && !IsWaiting(s, j) ==> IsDone(s, a);
    }
  }

  /** Phases, entries and waits as before: every relation between jobs is as before. */
  lemma {:induction false} SameJobs(s: State, s1: State)
    requires |s.table| == |s1.table|
    requires forall k: JobId :: k < |s.table| ==>
      s1.table[k].entry == s.table[k].entry && s1.table[k].waits == s.table[k].waits &&
        s1.table[k].phase == s.table[k].phase
    ensures forall a: JobId {:trigger IsDone(s1, a)} :: IsDone(s1, a) == IsDone(s, a)
    ensures forall a: JobId {:trigger IsWaiting(s1, a)} :: IsWaiting(s1, a) == IsWaiting(s, a)
    ensures forall a: JobId, b: JobId {:trigger Clash(s1, a, b)} :: Clash(s1, a, b) == Clash(s, a, b)
    ensures forall a: JobId, b: JobId {:trigger StandsFor(s1, a, b)} :: StandsFor(s1, a, b) == StandsFor(s, a, b)
    ensures forall a: JobId, b: JobId {:trigger WaitsFor(s1, b, a)} :: WaitsFor(s, b, a) ==> WaitsFor(s1, b, a)
  {
    forall a: JobId, b: JobId | WaitsFor(s, b, a) ensures WaitsFor(s1, b, a) {
      var w :| w in s.table[b].waits && StandsFor(s, w, a);
      assert StandsFor(s1, w, a);
    }
  }

  lemma {:induction false} ForgetKeeps(s: State, j: JobId)
    requires Inv(s) && Enabled(s, Forget(j))
    ensures Inv(Apply(s, Forget(j)))
  {
    var s1 := Apply(s, Forget(j));
    SameJobs(s, s1);
    assert forall a: JobId {:trigger IsLive(s1, a)} :: IsLive(s1, a) == IsLive(s, a);
  }

  lemma {:induction false} EnterKeeps(s: State, j: JobId)
    requires Inv(s) && Enabled(s, Enter(j))
    ensures Inv(Apply(s, Enter(j)))
  {
    var s1 := Apply(s, Enter(j));
    OnePhase(s, s1, j, Running);
    PhaseMaps(s, s1, j, Running);
    forall a: JobId | Clash(s, a, j) ensures IsDone(s, a) {
      assert !WaitsFor(s, j, a);
    }
    forall c: JobId, a: JobId | StandsFor(s, c, a) ensures StandsFor(s1, c, a) {
    }
    HeldAfter(s, s1);
  }

  /** A job that ends stood for no unfinished earlier job. */
  lemma {:induction false} FinishKeeps(s: State, j: JobId)
    requires Inv(s) && Enabled(s, Finish(j))
    ensures Inv(Apply(s, Finish(j)))
  {
    var s1 := Apply(s, Finish(j));
    OnePhase(s, s1, j, Done);
    PhaseMaps(s, s1, j, Done);
    forall c: JobId, a: JobId | StandsFor(s, c, a) && !IsDone(s1, a) ensures StandsFor(s1, c, a) {
      assert c == a || Clash(s, a, c);
    }
    HeldAfter(s, s1);
  }

  lemma {:induction false} OnePhase(s: State, s1: State, j: JobId, phase: Phase)
    requires j < |s.table| && s1 == s.(table := s.table[j := s.table[j].(phase := phase)])
    ensures forall a: JobId {:trigger IsLive(s1, a)} :: IsLive(s1, a) == IsLive(s, a)
    ensures forall a: JobId, b: JobId {:trigger Clash(s1, a, b)} :: Clash(s1, a, b) == Clash(s, a, b)
    ensures forall a: JobId {:trigger IsDone(s1, a)} :: a != j ==> IsDone(s1, a) == IsDone(s, a)
    ensures forall a: JobId {:trigger IsWaiting(s1, a)} :: a != j ==> IsWaiting(s1, a) == IsWaiting(s, a)
  {
  }

  lemma {:induction false} PhaseMaps(s: State, s1: State, j: JobId, phase: Phase)
    requires MapsOK(s) && WaitsOK(s) && LiveApart(s)
    requires j < |s.table| && s1 == s.(table := s.table[j := s.table[j].(phase := phase)])
    ensures MapsOK(s1) && WaitsOK(s1) && LiveApart(s1)
  {
    OnePhase(s, s1, j, phase);
  }

  lemma {:induction false} HeldAfter(s: State, s1: State)
    requires |s.table| == |s1.table| && Held(s)
    requires forall k: JobId :: k < |s.table| ==> s1.table[k].waits == s.table[k].waits
    requires forall a: JobId, b: JobId {:trigger Clash(s1, a, b)} :: Clash(s1, a, b) == Clash(s, a, b)
    requires forall a: JobId {:trigger IsDone(s1, a)} :: IsDone(s, a) ==> IsDone(s1, a)
    requires forall c: JobId, a: JobId {:trigger StandsFor(s1, c, a)} :: StandsFor(s, c, a) && !IsDone(s1, a) ==>
      StandsFor(s1, c, a)
    ensures Held(s1)
  {
    forall a: JobId, b: JobId | Clash(s1, a, b) && !IsDone(s1, a) ensures WaitsFor(s1, b, a) {
      var w :| w in s.table[b].waits && StandsFor(s, w, a);
      assert StandsFor(s1, w, a);
    }
  }

  lemma {:induction false} StepKeeps(s: State, step: Step)
    requires Inv(s) && Enabled(s, step)
    ensures Inv(Apply(s, step))
  {
    match step
    case Launch(e) => LaunchKeeps(s, e);
    case Retire(ih, prune) => RetireKeeps(s, ih, prune);
    case Forget(j) => ForgetKeeps(s, j);
    case Enter(j) => EnterKeeps(s, j);
    case Finish(j) => FinishKeeps(s, j);
    case GiveUp(j, o) => NoticeKeeps(s, step);
    case Close => NoticeKeeps(s, step);
  }

  lemma {:induction false} NoticeKeeps(s: State, step: Step)
    requires Inv(s) && Enabled(s, step) && (step.GiveUp? || step.Close?)
    ensures Inv(Apply(s, step))
  {
    var s1 := Apply(s, step);
    SameJobs(s, s1);
    assert forall a: JobId {:trigger IsLive(s1, a)} :: IsLive(s1, a) == IsLive(s, a);
  }

  lemma {:induction false} RunKeeps(steps: seq<Step>)
    requires IsRun(steps)
    ensures Inv(After(steps))
  {
    if steps != [] {
      RunKeeps(steps[..|steps| - 1]);
      StepKeeps(After(steps[..|steps| - 1]), steps[|steps| - 1]);
    }
  }

  // ---------- What every run guarantees ----------

  /** No two jobs past their waits and not done share an infohash or a disk name, and a job's done
      implies that every earlier job with its infohash or disk name is done. */
  lemma {:induction false} Exclusion(steps: seq<Step>, a: JobId, b: JobId)
    requires IsRun(steps)
    requires a < b < |After(steps).table| && Shares(After(steps).table[a], After(steps).table[b])
    ensures !(After(steps).table[a].phase.Running? && After(steps).table[b].phase.Running?)
    ensures IsDone(After(steps), b) ==> IsDone(After(steps), a)
  {
    RunKeeps(steps);
    assert Clash(After(steps), a, b);
  }

  /** A job ends only because it was stopped, the node is closing, or it had failed or had nothing to do. */
  lemma {:induction false} DoneForAReason(steps: seq<Step>, j: JobId)
    requires IsRun(steps) && IsDone(After(steps), j)
    ensures After(steps).table[j].cancelled || After(steps).closed || !After(steps).table[j].outcome.Busy?
  {
    if steps != [] {
      var front, last := steps[..|steps| - 1], steps[|steps| - 1];
      if IsDone(After(front), j) {
        DoneForAReason(front, j);
      }
      ReasonLasts(After(front), last, j);
    }
  }

  lemma {:induction false} ReasonLasts(s: State, step: Step, j: JobId)
    requires Enabled(s, step) && IsDone(Apply(s, step), j)
    requires IsDone(s, j) ==> s.table[j].cancelled || s.closed || !s.table[j].outcome.Busy?
    ensures var t := Apply(s, step); t.table[j].cancelled || t.closed || !t.table[j].outcome.Busy?
  {
  }

  /** A job's outcome is set once, while it runs, and not once it is being stopped. */
  lemma {:induction false} OutcomeOnce(s: State, step: Step, j: JobId)
    requires Enabled(s, step) && j < |s.table|
    ensures j < |Apply(s, step).table|
    ensures Apply(s, step).table[j].outcome != s.table[j].outcome ==>
      s.table[j].outcome.Busy? && s.table[j].phase.Running? && !s.table[j].cancelled && !s.closed
  {
  }

  /** The wait graph is acyclic: the earliest unfinished job is never the one that is held up. */
  lemma {:induction false} EarliestProceeds(steps: seq<Step>, n: JobId) returns (j: JobId)
    requires IsRun(steps) && n < |After(steps).table| && !IsDone(After(steps), n)
    ensures j <= n && !IsDone(After(steps), j)
    ensures Enabled(After(steps), Enter(j)) || After(steps).table[j].phase.Running?
    decreases n
  {
    if k: JobId :| k < n && !IsDone(After(steps), k) {
      j := EarliestProceeds(steps, k);
    } else {
      RunKeeps(steps);
      j := n;
    }
  }

  /** How many phases the jobs still have to go through. */
  function Work(table: seq<Job>): nat {
    if table == [] then 0
    else
      var last := table[|table| - 1].phase;
      Work(table[..|table| - 1]) + if last.Waiting? then 2 else if last.Running? then 1 else 0
  }

  lemma {:induction false} WorkDrops(table: seq<Job>, j: JobId, phase: Phase)
    requires j < |table|
    requires (table[j].phase.Waiting? && phase.Running?) || (table[j].phase.Running? && phase.Done?)
    ensures Work(table[j := table[j].(phase := phase)]) == Work(table) - 1
  {
    var n := |table| - 1;
    var table' := table[j := table[j].(phase := phase)];
    if j == n {
      assert table'[..n] == table[..n];
    } else {
      assert table'[..n] == table[..n][j := table[j].(phase := phase)];
      WorkDrops(table[..n], j, phase);
    }
  }

  lemma {:induction false} NoWorkLeft(table: seq<Job>)
    requires Work(table) == 0
    ensures forall j <- table :: j.phase.Done?
  {
    if table != [] {
      NoWorkLeft(table[..|table| - 1]);
      assert table == table[..|table| - 1] + [table[|table| - 1]];
    }
  }

  lemma {:induction false} WorkLeft(table: seq<Job>) returns (j: JobId)
    requires Work(table) > 0
    ensures j < |table| && !table[j].phase.Done?
  {
    if table[|table| - 1].phase.Done? {
      j := WorkLeft(table[..|table| - 1]);
    } else {
      j := |table| - 1;
    }
  }

  predicate JobStep(step: Step) { step.Enter? || step.Finish? }

  /** Every step a closed node's jobs take uses up work, and nothing adds any. */
  lemma {:induction false} ClosedOnlyWinds(s: State, step: Step)
    requires Enabled(s, step) && s.closed
    ensures Apply(s, step).closed
    ensures Work(Apply(s, step).table) == if JobStep(step) then Work(s.table) - 1 else Work(s.table)
  {
    match step
    case Enter(j) => WorkDrops(s.table, j, Running);
    case Finish(j) => WorkDrops(s.table, j, Done);
    case Retire(ih, prune) =>
      var j := s.live[ih];
      SamePhasesSameWork(s.table, Apply(s, step).table);
    case GiveUp(j, o) =>
    case Forget(j) =>
    case Close =>
    case Launch(e) =>
  }

  lemma {:induction false} SamePhasesSameWork(t: seq<Job>, u: seq<Job>)
    requires |t| == |u| && forall k :: 0 <= k < |t| ==> t[k].phase == u[k].phase
    ensures Work(t) == Work(u)
  {
    if t != [] {
      SamePhasesSameWork(t[..|t| - 1], u[..|u| - 1]);
    }
  }

  lemma {:induction false} RunAppend(steps: seq<Step>, step: Step)
    requires IsRun(steps) && Enabled(After(steps), step)
    ensures IsRun(steps + [step]) && After(steps + [step]) == Apply(After(steps), step)
  {
    assert (steps + [step])[..|steps|] == steps;
  }

  /** While work is left some job can take a step that uses up some. */
  lemma {:induction false} WindDown(steps: seq<Step>) returns (step: Step)
    requires IsRun(steps) && After(steps).closed && Work(After(steps).table) > 0
    ensures IsRun(steps + [step]) && After(steps + [step]).closed
    ensures Work(After(steps + [step]).table) == Work(After(steps).table) - 1
  {
    var s := After(steps);
    var n := WorkLeft(s.table);
    var j := EarliestProceeds(steps, n);
    step := if s.table[j].phase.Running? then Finish(j) else Enter(j);
    ClosedOnlyWinds(s, step);
    RunAppend(steps, step);
  }

  ghost predicate AllDone(steps: seq<Step>) {
    IsRun(steps) && forall j <- After(steps).table :: j.phase.Done?
  }

  lemma {:induction false} DrainedAlready(steps: seq<Step>)
    requires IsRun(steps) && Work(After(steps).table) == 0
    ensures AllDone(steps + [])
  {
    assert steps + [] == steps;
    NoWorkLeft(After(steps).table);
  }

  lemma {:induction false} Regroup(a: seq<Step>, step: Step, b: seq<Step>)
    ensures a + [step] + b == a + ([step] + b)
  {
  }

  lemma {:induction false} DrainsIn(steps: seq<Step>, n: nat) returns (more: seq<Step>)
    requires IsRun(steps) && After(steps).closed && Work(After(steps).table) == n
    ensures AllDone(steps + more) && |more| == n
    decreases n
  {
    if n == 0 {
      more := [];
      DrainedAlready(steps);
    } else {
      var step := WindDown(steps);
      var rest := DrainsIn(steps + [step], n - 1);
      more := [step] + rest;
      Regroup(steps, step, rest);
    }
  }

  /** Close always returns: from any run that closed the node the jobs can all end, in exactly as many
      steps as there is work left; with ClosedOnlyWinds, no order of steps takes longer. */
  lemma {:induction false} CloseDrains(steps: seq<Step>) returns (more: seq<Step>)
    requires IsRun(steps) && After(steps).closed
    ensures IsRun(steps + more) && |more| == Work(After(steps).table)
    ensures forall j <- After(steps + more).table :: j.phase.Done?
  {
    more := DrainsIn(steps, Work(After(steps).table));
    assert AllDone(steps + more);
  }
}
