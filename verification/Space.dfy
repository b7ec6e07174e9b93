/** Disk-space admission: reservations of running downloads against the free space, with the check's
    reads interleaved with other downloads' writes, on top of the Jobs machine. */
module Space {
  import opened Catalog
  import Jobs

  type JobId = Jobs.JobId

  const MARGIN := 0x4000_0000

  datatype Reservation = Reservation(path: string, size: int)

  /** Where a running job is in its download. */
  datatype Stage =
    | Paused(channel: nat)  // refused; holds the "space freed" channel it was given
    | Holding               // admitted
    | Released              // every byte on disk; the deferred release is still to come

  /** An admission check under way, holding the lock. */
  datatype Check = Check(
    j: JobId,
    freeRead: int,         // free space, read first
    others: int,           // outstanding bytes read so far
    unread: set<string>,   // reservations not yet read
    missed: int,           // history: bytes written, since the first read, by downloads not yet read
    freed: int)            // history: bytes freed since the first read

  datatype State = State(
    jobs: Jobs.State,
    free: int,
    alloc: map<string, nat>,            // by incoming path
    reserved: map<string, Reservation>, // by infohash
    holder: map<string, JobId>,         // history: who made each reservation
    stage: map<JobId, Stage>,
    channel: nat,                       // the current "space freed" channel; all earlier ones are closed
    check: Option<Check>,
    slack: int,                         // history: bytes missed by the latest check that admitted
    blind: bool)                        // history: some admission could not read the free space

  datatype Step =
    | JobStep(step: Jobs.Step)
    | StartCheck(j: JobId)
    | ReadOne(ih: string)
    | Decide
    | AdmitBlind(j: JobId)
    | Write(j: JobId, n: nat)
    | Release(j: JobId)          // the download completed
    | ReleaseDeferred(j: JobId)  // download() returns, however it ended
    | Vacate(j: JobId, gone: bool) // the incoming file is deleted, or moved away
    | FreeUp(n: nat)             // something else on the disk is deleted

  type Blocks = map<string, nat>

  function AllocatedAt(alloc: Blocks, path: string): nat {
    if path in alloc then alloc[path] else 0
  }

  /** What a download still has to write. */
  function StillToWrite(alloc: Blocks, r: Reservation): nat {
    if r.size > AllocatedAt(alloc, r.path) then r.size - AllocatedAt(alloc, r.path) else 0
  }

  ghost function Sum(alloc: Blocks, reserved: map<string, Reservation>, keys: set<string>): int
    requires keys <= reserved.Keys
  {
    if keys == {} then 0 else var k :| k in keys; StillToWrite(alloc, reserved[k]) + Sum(alloc, reserved, keys - {k})
  }

  function Allocated(s: State, path: string): nat { AllocatedAt(s.alloc, path) }

  function Outstanding(s: State, r: Reservation): nat { StillToWrite(s.alloc, r) }

  ghost function Owed(s: State, keys: set<string>): int
    requires keys <= s.reserved.Keys
  {
    Sum(s.alloc, s.reserved, keys)
  }

  function JobIh(s: State, j: JobId): string
    requires j < |s.jobs.table|
  {
    Jobs.Ih(s.jobs.table[j])
  }

  function Wants(s: State, j: JobId): Reservation
    requires j < |s.jobs.table|
  {
    Reservation(Jobs.Disk(s.jobs.table[j]), s.jobs.table[j].entry.f.size)
  }

  predicate Running(s: State, j: JobId) { j < |s.jobs.table| && s.jobs.table[j].phase.Running? }
  predicate At(s: State, j: JobId, st: Stage) { j in s.stage && s.stage[j] == st }
  predicate MayAsk(s: State, j: JobId) { Running(s, j) && (j !in s.stage || s.stage[j].Paused?) }

  /** Steps of the manager take its lock; those of a job's own goroutine do not. */
  predicate UnderLock(step: Jobs.Step) { step.Launch? || step.Retire? || step.Forget? || step.Close? }

  predicate Enabled(s: State, step: Step) {
    match step
    case JobStep(js) =>
      && Jobs.Enabled(s.jobs, js)
      && (UnderLock(js) ==> s.check.None?)
      && (js.Finish? ==> (s.check.Some? ==> s.check.value.j != js.j) && !At(s, js.j, Holding) && !At(s, js.j, Released))
    case StartCheck(j) => s.check.None? && MayAsk(s, j)
    case ReadOne(ih) => s.check.Some? && ih in s.check.value.unread && ih in s.reserved
    case Decide => s.check.Some? && s.check.value.unread == {} && s.check.value.j < |s.jobs.table|
    case AdmitBlind(j) => s.check.None? && MayAsk(s, j)
    case Write(j, n) => Running(s, j) && At(s, j, Holding) && n <= Outstanding(s, Wants(s, j))
    case Release(j) => s.check.None? && Running(s, j) && At(s, j, Holding)
    case ReleaseDeferred(j) => s.check.None? && Running(s, j) && (At(s, j, Holding) || At(s, j, Released))
    case Vacate(j, _) => Running(s, j) && !At(s, j, Holding) && (s.check.Some? ==> s.check.value.j != j)
    case FreeUp(n) => true
  }

  /** releaseSpace: by infohash alone. */
  function Drop(s: State, ih: string): State {
    if ih !in s.reserved then s
    else s.(reserved := s.reserved - {ih}, holder := s.holder - {ih}, channel := s.channel + 1)
  }

  function Admit(s: State, j: JobId): State
    requires j < |s.jobs.table|
  {
    s.(reserved := s.reserved[JobIh(s, j) := Wants(s, j)], holder := s.holder[JobIh(s, j) := j],
      stage := s.stage[j := Holding])
  }

  predicate Fits(s: State, c: Check)
    requires c.j < |s.jobs.table|
  {
    c.freeRead - c.others >= Outstanding(s, Wants(s, c.j)) + MARGIN
  }

  function Apply(s: State, step: Step): State
    requires Enabled(s, step)
  {
    match step
    case JobStep(js) => s.(jobs := Jobs.Apply(s.jobs, js), stage := if js.Finish? then s.stage - {js.j} else s.stage)
    case StartCheck(j) => s.(check := Some(Check(j, s.free, 0, s.reserved.Keys - {JobIh(s, j)}, 0, 0)))
    case ReadOne(ih) =>
      var c := s.check.value;
      s.(check := Some(c.(others := c.others + Outstanding(s, s.reserved[ih]), unread := c.unread - {ih})))
    case Decide =>
      var c := s.check.value;
      if Fits(s, c) then Admit(s, c.j).(check := None, slack := c.missed)
      else s.(check := None, stage := s.stage[c.j := Paused(s.channel)])
    case AdmitBlind(j) => Admit(s, j).(blind := true)
    case Write(j, n) =>
      var path := Wants(s, j).path;
      var c' := if s.check.Some? && JobIh(s, j) in s.check.value.unread
                then Some(s.check.value.(missed := s.check.value.missed + n)) else s.check;
      s.(free := s.free - n, alloc := s.alloc[path := Allocated(s, path) + n], check := c')
    case Release(j) => Drop(s, JobIh(s, j)).(stage := s.stage[j := Released])
    case ReleaseDeferred(j) => Drop(s, JobIh(s, j)).(stage := s.stage - {j})
    case Vacate(j, gone) =>
      var path := Wants(s, j).path;
      var n := if gone then Allocated(s, path) else 0;
      Freed(s.(alloc := s.alloc - {path}), n)
    case FreeUp(n) => Freed(s, n)
  }

  function Freed(s: State, n: nat): State {
    s.(free := s.free + n,
       check := if s.check.Some? then Some(s.check.value.(freed := s.check.value.freed + n)) else s.check)
  }

  ghost predicate Init(s: State) {
    s.jobs == Jobs.INIT && s.reserved == map[] && s.holder == map[] && s.stage == map[] && s.check == None &&
      !s.blind && s.slack == 0
  }

  // ---------- The invariant ----------

  /** Every reservation is held by the running job that made it, for its own path and size. */
  ghost predicate HoldersOK(s: State) {
    && s.holder.Keys == s.reserved.Keys
    && (forall ih {:trigger HeldBy(s, ih)} :: ih in s.reserved ==> HeldBy(s, ih))
    && (forall j {:trigger StageOK(s, j)} :: j in s.stage ==> StageOK(s, j))
  }

  ghost predicate HeldBy(s: State, ih: string)
    requires ih in s.reserved
  {
    && ih in s.holder
    && var j := s.holder[ih];
      Running(s, j) && JobIh(s, j) == ih && s.reserved[ih] == Wants(s, j) && At(s, j, Holding)
  }

  ghost predicate StageOK(s: State, j: JobId)
    requires j in s.stage
  {
    && Running(s, j)
    && (s.stage[j].Holding? ==> JobIh(s, j) in s.holder && s.holder[JobIh(s, j)] == j)
    && (s.stage[j].Paused? ==> s.stage[j].channel <= s.channel)
  }

  ghost predicate Accounted(s: State) {
    s.check.Some? ==>
      var c := s.check.value;
      && MayAsk(s, c.j) && JobIh(s, c.j) !in s.reserved
      && c.unread <= s.reserved.Keys && c.missed >= 0 && c.freed >= 0
      && c.freeRead - c.others - Owed(s, c.unread) == s.free - Owed(s, s.reserved.Keys) + c.missed - c.freed
  }

  /** The outstanding bytes of all admitted downloads and the margin fit the free space, up to the bytes the
      latest admission missed. */
  ghost predicate Bounded(s: State) {
    s.slack >= 0 && (!s.blind && s.reserved != map[] ==> Owed(s, s.reserved.Keys) + MARGIN <= s.free + s.slack)
  }

  ghost predicate Inv(s: State) {
    Jobs.Inv(s.jobs) && HoldersOK(s) && Accounted(s) && Bounded(s)
  }

  // ---------- Sums ----------

  lemma {:induction false} SumSplit(alloc: Blocks, reserved: map<string, Reservation>, keys: set<string>, k: string)
    requires keys <= reserved.Keys && k in keys
    ensures Sum(alloc, reserved, keys) == StillToWrite(alloc, reserved[k]) + Sum(alloc, reserved, keys - {k})
  {
    var x :| x in keys && Sum(alloc, reserved, keys) ==
      StillToWrite(alloc, reserved[x]) + Sum(alloc, reserved, keys - {x});
    if x != k {
      SumSplit(alloc, reserved, keys - {x}, k);
      SumSplit(alloc, reserved, keys - {k}, x);
      assert keys - {x} - {k} == keys - {k} - {x};
    }
  }

  lemma {:induction false} OwedSplit(s: State, keys: set<string>, k: string)
    requires keys <= s.reserved.Keys && k in keys
    ensures Owed(s, keys) == Outstanding(s, s.reserved[k]) + Owed(s, keys - {k})
  {
    SumSplit(s.alloc, s.reserved, keys, k);
  }

  /** The sum depends only on the reservations in it and what is allocated to their paths. */
  lemma {:induction false} OwedSame(s: State, t: State, keys: set<string>)
    requires keys <= s.reserved.Keys && keys <= t.reserved.Keys
    requires forall k <- keys :: Outstanding(s, s.reserved[k]) == Outstanding(t, t.reserved[k])
    ensures Owed(s, keys) == Owed(t, keys)
  {
    if keys != {} {
      var k :| k in keys;
      OwedSplit(s, keys, k);
      OwedSplit(t, keys, k);
      OwedSame(s, t, keys - {k});
    }
  }

  /** Running jobs do not share an infohash or a path. */
  lemma {:induction false} Apart(s: State, a: JobId, b: JobId)
    requires Jobs.Inv(s.jobs) && Running(s, a) && Running(s, b) && a != b
    ensures JobIh(s, a) != JobIh(s, b) && Wants(s, a).path != Wants(s, b).path
  {
    assert !Jobs.Clash(s.jobs, a, b) && !Jobs.Clash(s.jobs, b, a);
  }

  /** Reservations held together have distinct incoming paths: no block is counted twice. */
  lemma {:induction false} DistinctPaths(s: State, a: string, b: string)
    requires Inv(s) && a in s.reserved && b in s.reserved && a != b
    ensures s.reserved[a].path != s.reserved[b].path
  {
    assert HeldBy(s, a) && HeldBy(s, b);
    Apart(s, s.holder[a], s.holder[b]);
  }

  // ---------- Every step keeps it ----------

  lemma {:induction false} WriteOwed(s: State, j: JobId, n: nat, keys: set<string>)
    requires Inv(s) && Enabled(s, Write(j, n)) && keys <= s.reserved.Keys
    ensures keys <= Apply(s, Write(j, n)).reserved.Keys
    ensures Owed(Apply(s, Write(j, n)), keys) == Owed(s, keys) - if JobIh(s, j) in keys then n else 0
  {
    var t, ih := Apply(s, Write(j, n)), JobIh(s, j);
    assert StageOK(s, j) && ih in s.reserved && HeldBy(s, ih);
    forall k | k in keys && k != ih ensures Outstanding(s, s.reserved[k]) == Outstanding(t, t.reserved[k]) {
      assert HeldBy(s, k);
      Apart(s, j, s.holder[k]);
    }
    OwedSame(s, t, keys - {ih});
    if ih in keys {
      OwedSplit(s, keys, ih);
      OwedSplit(t, keys, ih);
    } else {
      assert keys - {ih} == keys;
    }
  }

  lemma {:induction false} JobStepHolders(s: State, js: Jobs.Step)
    requires HoldersOK(s) && Enabled(s, JobStep(js))
    ensures HoldersOK(Apply(s, JobStep(js)))
  {
    var t := Apply(s, JobStep(js));
    forall k: JobId | k < |s.jobs.table|
      ensures k < |t.jobs.table| && t.jobs.table[k].entry == s.jobs.table[k].entry
      ensures Running(s, k) && js != Jobs.Finish(k) ==> Running(t, k)
    {
      Jobs.StepFrame(s.jobs, js, k);
    }
    forall ih | ih in t.reserved ensures HeldBy(t, ih) {
      assert HeldBy(s, ih);
    }
    forall j | j in t.stage ensures StageOK(t, j) {
      assert StageOK(s, j);
    }
  }

  lemma {:induction false} JobStepKeeps(s: State, js: Jobs.Step)
    requires Inv(s) && Enabled(s, JobStep(js))
    ensures Inv(Apply(s, JobStep(js)))
  {
    Jobs.StepKeeps(s.jobs, js);
    JobStepHolders(s, js);
    SumsKept(s, Apply(s, JobStep(js)));
    if s.check.Some? {
      Jobs.StepFrame(s.jobs, js, s.check.value.j);
    }
  }

  lemma {:induction false} HoldersFrame(s: State, t: State)
    requires HoldersOK(s) && t.jobs == s.jobs && t.reserved == s.reserved && t.holder == s.holder
    requires t.stage == s.stage && t.channel == s.channel
    ensures HoldersOK(t)
  {
    forall ih | ih in t.reserved ensures HeldBy(t, ih) {
      assert HeldBy(s, ih);
    }
    forall j | j in t.stage ensures StageOK(t, j) {
      assert StageOK(s, j);
    }
  }

  /** Nothing the sums depend on has changed. */
  lemma {:induction false} SumsKept(s: State, t: State)
    requires t.reserved == s.reserved && t.alloc == s.alloc && t.check == s.check && t.free == s.free
    requires t.slack == s.slack && t.blind == s.blind
    ensures Bounded(s) ==> Bounded(t)
    ensures s.check.Some? && s.check.value.unread <= s.reserved.Keys ==>
      Owed(t, t.check.value.unread) == Owed(s, s.check.value.unread) &&
        Owed(t, t.reserved.Keys) == Owed(s, s.reserved.Keys)
  {
    OwedSame(s, t, s.reserved.Keys);
    if s.check.Some? && s.check.value.unread <= s.reserved.Keys {
      OwedSame(s, t, s.check.value.unread);
    }
  }

  /** A job that may ask for space holds none, and nobody else holds any under its infohash. */
  lemma {:induction false} NothingReserved(s: State, j: JobId)
    requires Jobs.Inv(s.jobs) && HoldersOK(s) && MayAsk(s, j)
    ensures JobIh(s, j) !in s.reserved
  {
    if JobIh(s, j) in s.reserved {
      assert HeldBy(s, JobIh(s, j));
      var h := s.holder[JobIh(s, j)];
      Apart(s, h, j);
    }
  }

  lemma {:induction false} StartCheckKeeps(s: State, j: JobId)
    requires Inv(s) && Enabled(s, StartCheck(j))
    ensures Inv(Apply(s, StartCheck(j)))
  {
    var t := Apply(s, StartCheck(j));
    NothingReserved(s, j);
    assert t.check.value.unread == s.reserved.Keys;
    OwedSame(s, t, s.reserved.Keys);
    HoldersFrame(s, t);
  }

  lemma {:induction false} ReadOneKeeps(s: State, ih: string)
    requires Inv(s) && Enabled(s, ReadOne(ih))
    ensures Inv(Apply(s, ReadOne(ih)))
  {
    var t, c := Apply(s, ReadOne(ih)), s.check.value;
    OwedSame(s, t, s.reserved.Keys);
    OwedSplit(s, c.unread, ih);
    OwedSame(s, t, c.unread - {ih});
    HoldersFrame(s, t);
  }

  lemma {:induction false} AdmitHolders(s: State, j: JobId)
    requires HoldersOK(s) && MayAsk(s, j) && JobIh(s, j) !in s.reserved
    ensures HoldersOK(Admit(s, j))
  {
    var t := Admit(s, j);
    forall k | k in t.reserved ensures HeldBy(t, k) {
      if k != JobIh(s, j) { assert HeldBy(s, k); }
    }
    forall k | k in t.stage ensures StageOK(t, k) {
      if k != j { assert StageOK(s, k); }
    }
  }

  lemma {:induction false} AdmitOwed(s: State, t: State, j: JobId)
    requires j < |s.jobs.table| && JobIh(s, j) !in s.reserved
    requires t.reserved == s.reserved[JobIh(s, j) := Wants(s, j)] && t.alloc == s.alloc
    ensures Owed(t, t.reserved.Keys) == Owed(s, s.reserved.Keys) + Outstanding(s, Wants(s, j))
  {
    var ih := JobIh(s, j);
    OwedSplit(t, t.reserved.Keys, ih);
    assert t.reserved.Keys - {ih} == s.reserved.Keys;
    OwedSame(s, t, s.reserved.Keys);
  }

  lemma {:induction false} DecideKeeps(s: State)
    requires Inv(s) && Enabled(s, Decide)
    ensures Inv(Apply(s, Decide))
  {
    if Fits(s, s.check.value) {
      AdmittedKeeps(s);
    } else {
      OwedSame(s, Apply(s, Decide), s.reserved.Keys);
      RefusedHolders(s);
    }
  }

  lemma {:induction false} AdmittedKeeps(s: State)
    requires Inv(s) && Enabled(s, Decide) && Fits(s, s.check.value)
    ensures Inv(Apply(s, Decide))
  {
    var t, c := Apply(s, Decide), s.check.value;
    AdmitHolders(s, c.j);
    HoldersFrame(Admit(s, c.j), t);
    AdmitOwed(s, t, c.j);
  }

  lemma {:induction false} RefusedHolders(s: State)
    requires HoldersOK(s) && Enabled(s, Decide) && MayAsk(s, s.check.value.j) && !Fits(s, s.check.value)
    ensures HoldersOK(Apply(s, Decide))
  {
    var t := Apply(s, Decide);
    forall k | k in t.reserved ensures HeldBy(t, k) {
      assert HeldBy(s, k);
    }
    forall k | k in t.stage ensures StageOK(t, k) {
      if k != s.check.value.j { assert StageOK(s, k); }
    }
  }

  lemma {:induction false} AdmitBlindKeeps(s: State, j: JobId)
    requires Inv(s) && Enabled(s, AdmitBlind(j))
    ensures Inv(Apply(s, AdmitBlind(j)))
  {
    NothingReserved(s, j);
    AdmitHolders(s, j);
    HoldersFrame(Admit(s, j), Apply(s, AdmitBlind(j)));
  }

  lemma {:induction false} WriteKeeps(s: State, j: JobId, n: nat)
    requires Inv(s) && Enabled(s, Write(j, n))
    ensures Inv(Apply(s, Write(j, n)))
  {
    HoldersFrame(s, Apply(s, Write(j, n)));
    assert StageOK(s, j);
    WriteOwed(s, j, n, s.reserved.Keys);
    if s.check.Some? {
      WriteOwed(s, j, n, s.check.value.unread);
    }
  }

  lemma {:induction false} ReleaseKeeps(s: State, step: Step)
    requires Inv(s) && Enabled(s, step) && (step.Release? || step.ReleaseDeferred?)
    ensures Inv(Apply(s, step))
  {
    var t, ih := Apply(s, step), JobIh(s, step.j);
    ReleasesItsOwn(s, step);
    OwedSame(s, t, t.reserved.Keys);
    if ih in s.reserved {
      OwedSplit(s, s.reserved.Keys, ih);
      assert t.reserved.Keys == s.reserved.Keys - {ih};
    }
    ReleaseHolders(s, step);
  }

  lemma {:induction false} ReleaseHolders(s: State, step: Step)
    requires HoldersOK(s) && Enabled(s, step) && (step.Release? || step.ReleaseDeferred?)
    requires JobIh(s, step.j) in s.reserved ==> s.holder[JobIh(s, step.j)] == step.j
    ensures HoldersOK(Apply(s, step))
  {
    var t, ih := Apply(s, step), JobIh(s, step.j);
    assert StageOK(s, step.j);
    forall k | k in t.reserved ensures HeldBy(t, k) {
      assert HeldBy(s, k);
    }
    forall j | j in t.stage ensures StageOK(t, j) {
      if j != step.j { assert StageOK(s, j); }
    }
  }

  /** The blocks given back are no reservation's. */
  lemma {:induction false} VacateSpares(s: State, step: Step, k: string)
    requires Jobs.Inv(s.jobs) && HoldersOK(s) && Enabled(s, step) && (step.Vacate? || step.FreeUp?) && k in s.reserved
    ensures Outstanding(s, s.reserved[k]) == Outstanding(Apply(s, step), s.reserved[k])
  {
    if step.Vacate? {
      assert HeldBy(s, k);
      Apart(s, step.j, s.holder[k]);
    }
  }

  lemma {:induction false} VacateKeeps(s: State, step: Step)
    requires Inv(s) && Enabled(s, step) && (step.Vacate? || step.FreeUp?)
    ensures Inv(Apply(s, step))
  {
    var t := Apply(s, step);
    HoldersFrame(s, t);
    forall k | k in s.reserved ensures Outstanding(s, s.reserved[k]) == Outstanding(t, t.reserved[k]) {
      VacateSpares(s, step, k);
    }
    OwedSame(s, t, s.reserved.Keys);
    if s.check.Some? {
      OwedSame(s, t, s.check.value.unread);
    }
  }

  lemma {:induction false} StepKeeps(s: State, step: Step)
    requires Inv(s) && Enabled(s, step)
    ensures Inv(Apply(s, step))
  {
    match step
    case JobStep(js) => JobStepKeeps(s, js);
    case StartCheck(j) => StartCheckKeeps(s, j);
    case ReadOne(ih) => ReadOneKeeps(s, ih);
    case Decide => DecideKeeps(s);
    case AdmitBlind(j) => AdmitBlindKeeps(s, j);
    case Write(j, n) => WriteKeeps(s, j, n);
    case Release(j) => ReleaseKeeps(s, step);
    case ReleaseDeferred(j) => ReleaseKeeps(s, step);
    case Vacate(j, gone) => VacateKeeps(s, step);
    case FreeUp(n) => VacateKeeps(s, step);
  }

  // ---------- What every run guarantees ----------

  ghost predicate IsRun(s: State, steps: seq<Step>)
    decreases |steps|
  {
    steps == [] || (Enabled(s, steps[0]) && IsRun(Apply(s, steps[0]), steps[1..]))
  }

  ghost function After(s: State, steps: seq<Step>): State
    requires IsRun(s, steps)
    decreases |steps|
  {
    if steps == [] then s else After(Apply(s, steps[0]), steps[1..])
  }

  lemma {:induction false} RunKeeps(s: State, steps: seq<Step>)
    requires Inv(s) && IsRun(s, steps)
    ensures Inv(After(s, steps))
    decreases |steps|
  {
    if steps != [] {
      StepKeeps(s, steps[0]);
      RunKeeps(Apply(s, steps[0]), steps[1..]);
    }
  }

  /** Through admissions, partial writes, resumes, releases and retries: outstanding bytes plus the margin stay
      within the free space, up to the bytes the latest admission missed. */
  lemma {:induction false} NeverOvercommitted(s: State, steps: seq<Step>)
    requires Init(s) && IsRun(s, steps) && !After(s, steps).blind && After(s, steps).reserved != map[]
    ensures Owed(After(s, steps), After(s, steps).reserved.Keys) + MARGIN <=
      After(s, steps).free + After(s, steps).slack
  {
    assert Jobs.IsRun([]) && Jobs.After([]) == Jobs.INIT;
    Jobs.RunKeeps([]);
    RunKeeps(s, steps);
  }

  /** What a release drops, early or deferred, is the releasing job's own reservation. */
  lemma {:induction false} ReleasesItsOwn(s: State, step: Step)
    requires Inv(s) && Enabled(s, step) && (step.Release? || step.ReleaseDeferred?)
    ensures step.Release? ==> JobIh(s, step.j) in s.reserved
    ensures JobIh(s, step.j) in s.reserved ==> s.holder[JobIh(s, step.j)] == step.j && At(s, step.j, Holding)
    ensures forall ih <- s.reserved :: s.holder[ih] != step.j ==>
      ih in Apply(s, step).reserved && Apply(s, step).reserved[ih] == s.reserved[ih]
  {
    var ih := JobIh(s, step.j);
    assert StageOK(s, step.j);
    if ih in s.reserved {
      assert HeldBy(s, ih);
      if s.holder[ih] != step.j { Apart(s, step.j, s.holder[ih]); }
    }
  }

  /** A release that drops something closes the channel every paused download was given. */
  lemma {:induction false} ReleaseWakes(s: State, step: Step, p: JobId)
    requires Inv(s) && Enabled(s, step) && (step.Release? || step.ReleaseDeferred?)
    requires JobIh(s, step.j) in s.reserved && p in s.stage && s.stage[p].Paused?
    ensures p in Apply(s, step).stage && Apply(s, step).stage[p] == s.stage[p]
    ensures s.stage[p].channel < Apply(s, step).channel
  {
    ReleasesItsOwn(s, step);
    assert StageOK(s, p);
  }

  /** Exactly when an admission keeps the plain bound: what was missed is within the headroom the check saw,
      plus what was freed meanwhile. */
  lemma {:induction false} AdmissionIsSafeIff(s: State)
    requires Inv(s) && Enabled(s, Decide) && Fits(s, s.check.value)
    ensures
      var c, t := s.check.value, Apply(s, Decide);
      var headroom := c.freeRead - c.others - Outstanding(s, Wants(s, c.j)) - MARGIN;
      headroom >= 0 &&
      (Owed(t, t.reserved.Keys) + MARGIN <= t.free <==> c.missed <= headroom + c.freed)
  {
    var c, t := s.check.value, Apply(s, Decide);
    AdmitOwed(s, t, c.j);
  }

  /** A check nothing was written or freed during admits exactly if the free space, less what every other admitted
      download has still to write, leaves what this one has and the margin; else it is paused on the current channel. */
  lemma {:induction false} UndisturbedCheck(s: State)
    requires Inv(s) && Enabled(s, Decide) && s.check.value.missed == 0 && s.check.value.freed == 0
    ensures
      var t, j := Apply(s, Decide), s.check.value.j;
      if s.free - Owed(s, s.reserved.Keys) >= Outstanding(s, Wants(s, j)) + 0x4000_0000
      then t.reserved == s.reserved[JobIh(s, j) := Wants(s, j)] && t.stage == s.stage[j := Holding]
      else t.reserved == s.reserved && t.stage == s.stage[j := Paused(s.channel)]
  {
    assert Owed(s, {}) == 0;
  }

  lemma {:induction false} Prepend(s: State, step: Step, rest: seq<Step>)
    requires Enabled(s, step) && IsRun(Apply(s, step), rest)
    ensures IsRun(s, [step] + rest) && After(s, [step] + rest) == After(Apply(s, step), rest)
  {
    assert ([step] + rest)[1..] == rest;
  }

  // Two downloads of four bytes, and six bytes above the margin.

  function TwoJobs(phaseA: Jobs.Phase, phaseB: Jobs.Phase): Jobs.State {
    var a := Jobs.Entry("m", File("a", "", 4, "", "a", ""), "a", None);
    var b := Jobs.Entry("m", File("b", "", 4, "", "b", ""), "b", None);
    Jobs.State([Jobs.Job(a, {}, phaseA, Jobs.Busy, false, false), Jobs.Job(b, {}, phaseB, Jobs.Busy, false, false)],
               map["a" := 0, "b" := 1], map[], map[], false)
  }

  const START := State(Jobs.INIT, MARGIN + 6, map[], map[], map[], map[], 0, None, 0, false)
  const BOTH := START.(jobs := TwoJobs(Jobs.Running, Jobs.Running))
  const ONE := BOTH.(reserved := map["a" := Reservation("a", 4)], holder := map["a" := 0], stage := map[0 := Holding])
  const READ := ONE.(check := Some(Check(1, MARGIN + 6, 0, {"a"}, 0, 0)))
  const WROTE := READ.(free := MARGIN + 2, alloc := map["a" := 4], check := Some(Check(1, MARGIN + 6, 0, {"a"}, 4, 0)))

  const LAUNCHED := START.(jobs := TwoJobs(Jobs.Waiting, Jobs.Waiting))

  lemma {:induction false} BothLaunched() returns (steps: seq<Step>)
    ensures IsRun(START, steps) && After(START, steps) == LAUNCHED
  {
    var a, b := LAUNCHED.jobs.table[0].entry, LAUNCHED.jobs.table[1].entry;
    var s1 := Apply(START, JobStep(Jobs.Launch(a)));
    assert s1.jobs.table[0].waits == {};
    assert s1.jobs.live == map["a" := 0] && s1.jobs.table == [LAUNCHED.jobs.table[0]];
    var s2 := Apply(s1, JobStep(Jobs.Launch(b)));
    assert s2.jobs.table[1].waits == {};
    assert s2.jobs.table == LAUNCHED.jobs.table && s2.jobs.live == LAUNCHED.jobs.live;
    Prepend(s1, JobStep(Jobs.Launch(b)), []);
    steps := [JobStep(Jobs.Launch(b))];
    Prepend(START, JobStep(Jobs.Launch(a)), steps);
    steps := [JobStep(Jobs.Launch(a))] + steps;
  }

  lemma {:induction false} BothEnter() returns (steps: seq<Step>)
    ensures IsRun(LAUNCHED, steps) && After(LAUNCHED, steps) == BOTH
  {
    var s3 := START.(jobs := TwoJobs(Jobs.Running, Jobs.Waiting));
    Prepend(s3, JobStep(Jobs.Enter(1)), []);
    steps := [JobStep(Jobs.Enter(1))];
    Prepend(LAUNCHED, JobStep(Jobs.Enter(0)), steps);
    steps := [JobStep(Jobs.Enter(0))] + steps;
  }

  lemma {:induction false} FirstAdmitted() returns (steps: seq<Step>)
    ensures IsRun(BOTH, steps) && After(BOTH, steps) == READ
  {
    assert ONE.reserved.Keys - {"b"} == {"a"};
    assert Apply(ONE, StartCheck(1)) == READ;
    Prepend(ONE, StartCheck(1), []);
    var checking := BOTH.(check := Some(Check(0, MARGIN + 6, 0, {}, 0, 0)));
    Prepend(checking, Decide, [StartCheck(1)]);
    steps := [Decide] + [StartCheck(1)];
    assert Apply(BOTH, StartCheck(0)).check.value.unread == {};
    Prepend(BOTH, StartCheck(0), steps);
    steps := [StartCheck(0)] + steps;
  }

  lemma {:induction false} SecondAdmitted() returns (steps: seq<Step>)
    ensures IsRun(READ, steps) && !After(READ, steps).blind && After(READ, steps).reserved != map[]
    ensures Owed(After(READ, steps), After(READ, steps).reserved.Keys) + MARGIN > After(READ, steps).free
  {
    var checked := WROTE.(check := Some(Check(1, MARGIN + 6, 0, {}, 4, 0)));
    Prepend(checked, Decide, []);
    Prepend(WROTE, ReadOne("a"), [Decide]);
    steps := [ReadOne("a")] + [Decide];
    Prepend(READ, Write(0, 4), steps);
    steps := [Write(0, 4)] + steps;
    var last := Apply(checked, Decide);
    AdmitOwed(checked, last, 1);
    OwedSplit(checked, checked.reserved.Keys, "a");
    assert checked.reserved.Keys - {"a"} == {};
  }

  lemma {:induction false} Join(s: State, xs: seq<Step>, ys: seq<Step>)
    requires IsRun(s, xs) && IsRun(After(s, xs), ys)
    ensures IsRun(s, xs + ys) && After(s, xs + ys) == After(After(s, xs), ys)
    decreases |xs|
  {
    if xs == [] {
      assert xs + ys == ys;
    } else {
      Join(Apply(s, xs[0]), xs[1..], ys);
      assert (xs + ys)[1..] == xs[1..] + ys;
    }
  }

  /** The plain bound can fail: one download writes its last bytes between the other's two reads. */
  lemma {:induction false} WithoutSlackItFails() returns (s: State, steps: seq<Step>)
    ensures Init(s) && IsRun(s, steps) && !After(s, steps).blind && After(s, steps).reserved != map[]
    ensures Owed(After(s, steps), After(s, steps).reserved.Keys) + MARGIN > After(s, steps).free
  {
    s := START;
    var v := BothLaunched();
    var w := BothEnter();
    Join(s, v, w);
    var x := v + w;
    var y := FirstAdmitted();
    var z := SecondAdmitted();
    Join(s, x, y);
    Join(s, x + y, z);
    steps := x + y + z;
  }

  // ---------- The two operations, as the code has them ----------

  /** The reservations, as the node keeps them under its lock. */
  class Book {
    var reserved: map<string, Reservation>
    var channel: nat

    constructor ()
      ensures reserved == map[] && channel == 0
    {
      reserved, channel := map[], 0;
    }

    /** Admits a download if the free space less every other reservation's outstanding bytes leaves room for its
        own and the margin. alloc is what the reads of the incoming paths return; free is None if it cannot be read. */
    method ReserveSpace(ih: string, path: string, size: int, free: Option<int>, alloc: Blocks)
      returns (ok: bool, freed: Option<nat>)
      modifies this`reserved
      ensures ok <==>
        free.None? ||
        free.value - Sum(alloc, old(reserved), old(reserved).Keys - {ih})
          >= StillToWrite(alloc, Reservation(path, size)) + MARGIN
      ensures reserved == if ok then old(reserved)[ih := Reservation(path, size)] else old(reserved)
      ensures freed == if ok then None else Some(channel)
    {
      var r := Reservation(path, size);
      if free.None? {
        reserved := reserved[ih := r];
        return true, None;
      }
      var others, todo := 0, reserved.Keys - {ih};
      while todo != {}
        invariant todo <= reserved.Keys - {ih} && reserved == old(reserved)
        invariant others + Sum(alloc, reserved, todo) == Sum(alloc, reserved, reserved.Keys - {ih})
        decreases todo
      {
        var k :| k in todo;
        SumSplit(alloc, reserved, todo, k);
        others := others + StillToWrite(alloc, reserved[k]);
        todo := todo - {k};
      }
      if free.value - others >= StillToWrite(alloc, r) + MARGIN {
        reserved := reserved[ih := r];
        return true, None;
      }
      return false, Some(channel);
    }

    /** Drops the reservation for ih, if there is one, and closes the channel given to those refused so far. */
    method ReleaseSpace(ih: string)
      modifies this
      ensures reserved == old(reserved) - {ih}
      ensures channel == if ih in old(reserved) then old(channel) + 1 else old(channel)
    {
      if ih !in reserved {
        return;
      }
      reserved := reserved - {ih};
      channel := channel + 1;
    }
  }
}
