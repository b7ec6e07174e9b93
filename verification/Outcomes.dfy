/** What the steps of a run do to the disk, spelled out: why a file goes, what a check lets pass, and that what is meant
    to happen does. */
module Outcomes {
  import opened Catalog
  import opened Disk
  import opened Downloads
  import Jobs

  // ---------- Runs by their last step ----------

  lemma {:induction false} LastStep(s: State, steps: seq<Step>)
    requires IsRun(s, steps) && steps != []
    ensures
      var front, last := steps[..|steps| - 1], steps[|steps| - 1];
      IsRun(s, front) && Enabled(After(s, front), last) && After(s, steps) == Apply(After(s, front), last)
    decreases |steps|
  {
    if |steps| > 1 {
      LastStep(Apply(s, steps[0]), steps[1..]);
      assert steps[1..][..|steps| - 2] == steps[..|steps| - 1][1..];
    } else {
      assert steps[1..] == [] && steps[..0] == [];
    }
  }

  // ---------- Why a job prunes ----------

  /** The manager stops job j for good: pruning is on, and its torrent is not in the catalogue. */
  ghost predicate StoppedForGood(t: State, step: Step, j: JobId) {
    && t.prune && step.JobStep? && step.step.Retire? && step.step.ih !in t.known
    && step.step.ih in t.jobs.live && t.jobs.live[step.step.ih] == j
  }

  /** It happened at step i, and there has been no restart since. */
  ghost predicate StoppedAt(s: State, steps: seq<Step>, i: nat, j: JobId)
    requires IsRun(s, steps)
  {
    && i < |steps| && IsRun(s, steps[..i]) && StoppedForGood(After(s, steps[..i]), steps[i], j)
    && forall k :: i < k < |steps| ==> !steps[k].Restart?
  }

  lemma {:induction false} PruneFlagStep(t: State, step: Step, j: JobId)
    requires Enabled(t, step) && j < |Apply(t, step).jobs.table| && Apply(t, step).jobs.table[j].prune
    ensures (j < |t.jobs.table| && t.jobs.table[j].prune && !step.Restart?) || StoppedForGood(t, step, j)
  {
    if step.JobStep? {
      Jobs.PruneMark(t.jobs, step.step, j);
    } else {
      JobsKept(t, step);
    }
  }

  lemma {:induction false} JobsKept(t: State, step: Step)
    requires Enabled(t, step) && !step.JobStep?
    ensures Apply(t, step).jobs == if step.Restart? then Jobs.INIT else t.jobs
  {
  }

  /** A job that is to prune was stopped, in this same run of the node, with pruning on and its torrent out of the
      catalogue. */
  lemma {:induction false} PruneFlagHasCause(s: State, steps: seq<Step>, j: JobId)
    requires s.jobs == Jobs.INIT && IsRun(s, steps)
    requires j < |After(s, steps).jobs.table| && After(s, steps).jobs.table[j].prune
    ensures exists i: nat :: StoppedAt(s, steps, i, j)
    decreases |steps|
  {
    if steps != [] {
      var front, last := steps[..|steps| - 1], steps[|steps| - 1];
      LastStep(s, steps);
      PruneFlagStep(After(s, front), last, j);
      if StoppedForGood(After(s, front), last, j) {
        assert StoppedAt(s, steps, |steps| - 1, j);
      } else {
        PruneFlagHasCause(s, front, j);
        var i: nat :| StoppedAt(s, front, i, j);
        assert front[..i] == steps[..i];
        assert StoppedAt(s, steps, i, j);
      }
    }
  }

  // ---------- Why a file goes ----------

  /** A file of n is not there any more as it was. */
  ghost predicate Gone(t: State, t': State, n: string, rel: string) {
    && n in t.files.data && rel in Items(t.files.data[n])
    && !(rel in ItemsAt(t'.files.data, n) && ItemsAt(t'.files.data, n)[rel] == Items(t.files.data[n])[rel])
  }

  /** A job for n has its verified download ready, and what is there is an older download of ours, unchanged, of another
      torrent that has left the catalogue. */
  ghost predicate MakesWay(t: State, step: Step, n: string) {
    && (step.PromoteFile? || step.MoveAside?) && InStage(t, step.j) && Path(t, step.j) == n
    && n in t.files.incoming && HasExactly(t.jobs.table[step.j].entry, t.files.incoming[n])
    && exists ih <- t.files.records :: ih != Ih(t, step.j) && ih !in t.known && OwnAt(t.files, ih, n)
  }

  /** Pruning is on, and what is there is our download, unchanged, of a torrent that has left the catalogue and that no
      job serves any more or is still winding down for, at a path no live job has. */
  ghost predicate Swept(t: State, step: Step, n: string) {
    && step.PruneRecorded? && t.prune && step.ih !in t.known && OwnAt(t.files, step.ih, n)
    && (forall ih <- t.jobs.live :: t.jobs.live[ih] < |t.jobs.table| && Path(t, t.jobs.live[ih]) != n)
    && (forall j: JobId :: j < |t.jobs.table| && !t.jobs.table[j].phase.Done? ==> Ih(t, j) != step.ih)
  }

  /** A job cleans up that was stopped for good, and what is there is its torrent's download, unchanged. */
  ghost predicate Cleared(t: State, step: Step, n: string) {
    step.CleanUp? && InStage(t, step.j) && t.jobs.table[step.j].prune && OwnAt(t.files, Ih(t, step.j), n)
  }

  lemma {:induction false} PromotionMakesWay(t: State, j: JobId, linkFails: bool, n: string, rel: string)
    requires Inv(t) && Enabled(t, PromoteFile(j, linkFails)) && Gone(t, FilePromoted(t, j, linkFails), n, rel)
    ensures MakesWay(t, PromoteFile(j, linkFails), n)
  {
    assert StageOK(t, j, t.stage[j]);
    WantIsExact(t.jobs.table[j].entry, t.stage[j].what);
    PromotionIsOver(t, j, linkFails, n, rel);
  }

  lemma {:induction false} PromotionIsOver(t: State, j: JobId, linkFails: bool, n: string, rel: string)
    requires Enabled(t, PromoteFile(j, linkFails)) && Gone(t, FilePromoted(t, j, linkFails), n, rel)
    ensures
      var replace := t.stage[j].replace;
      n == Path(t, j) && replace.Some? && StaleOwn(t, j, replace.value) && OwnAt(t.files, replace.value, n)
  {
  }

  lemma {:induction false} MovingMakesWay(t: State, j: JobId, key: nat, n: string, rel: string)
    requires Inv(t) && Enabled(t, MoveAside(j, key)) && Gone(t, Apply(t, MoveAside(j, key)), n, rel)
    ensures MakesWay(t, MoveAside(j, key), n)
  {
    assert StageOK(t, j, t.stage[j]);
    WantIsExact(t.jobs.table[j].entry, t.stage[j].what);
    assert OwnAt(t.files, t.stage[j].replace.value, n);
  }

  lemma {:induction false} PruneTakesOwn(fs: Files, ih: string, leftover: bool, n: string)
    requires n in fs.data && !(n in Prune(fs, ih, leftover).data && Prune(fs, ih, leftover).data[n] == fs.data[n])
    ensures OwnAt(fs, ih, n)
  {
  }

  lemma {:induction false} CleanUpClears(t: State, j: JobId, leftover: bool, n: string, rel: string)
    requires Enabled(t, CleanUp(j, leftover)) && Gone(t, CleanedUp(t, j, leftover), n, rel)
    ensures Cleared(t, CleanUp(j, leftover), n)
  {
    PruneTakesOwn(Discard(t.files, Path(t, j)), Ih(t, j), leftover, n);
  }

  lemma {:induction false} SweepSweeps(t: State, ih: string, leftover: bool, n: string, rel: string)
    requires Jobs.Inv(t.jobs) && Enabled(t, PruneRecorded(ih, leftover))
    requires Gone(t, Apply(t, PruneRecorded(ih, leftover)), n, rel)
    ensures Swept(t, PruneRecorded(ih, leftover), n)
  {
    PruneTakesOwn(t.files, ih, leftover, n);
    forall j: JobId | j < |t.jobs.table| && !t.jobs.table[j].phase.Done? ensures Ih(t, j) != ih {
      StillKnown(t.jobs, j);
    }
  }

  /** A job that is not done is live, or remembered as stopping. */
  lemma {:induction false} StillKnown(s: Jobs.State, j: JobId)
    requires Jobs.Inv(s) && j < |s.table| && !s.table[j].phase.Done?
    ensures Jobs.Ih(s.table[j]) in s.live || Jobs.Ih(s.table[j]) in s.stopping
  {
    if !Jobs.IsLive(s, j) {
      assert !Jobs.IsDone(s, j);
    }
  }

  predicate Removing(step: Step) { step.PromoteFile? || step.MoveAside? || step.CleanUp? || step.PruneRecorded? }

  lemma {:induction false} OthersRemoveNothing(t: State, step: Step, n: string, rel: string)
    requires Enabled(t, step) && !ByUser(step) && !Removing(step)
    ensures !Gone(t, Apply(t, step), n, rel)
  {
    if step.Land? {
      LandShape(t, step.j);
    }
  }

  lemma {:induction false} StepHasCause(t: State, step: Step, n: string, rel: string)
    requires Inv(t) && Enabled(t, step) && !ByUser(step) && Gone(t, Apply(t, step), n, rel)
    ensures MakesWay(t, step, n) || Swept(t, step, n) || Cleared(t, step, n)
  {
    if step.PromoteFile? {
      PromotionMakesWay(t, step.j, step.linkFails, n, rel);
    } else if step.MoveAside? {
      MovingMakesWay(t, step.j, step.key, n, rel);
    } else if step.CleanUp? {
      CleanUpClears(t, step.j, step.leftover, n, rel);
    } else if step.PruneRecorded? {
      SweepSweeps(t, step.ih, step.leftover, n, rel);
    } else {
      OthersRemoveNothing(t, step, n, rel);
    }
  }

  /** In every run, a file in data_dir that a step of the node removes or replaces goes for one of three reasons: it
      makes way for a verified download at its path; pruning is on and it is swept after its torrent left the
      catalogue; or the job that had it cleans up, having been stopped for good, with pruning on and its torrent out
      of the catalogue. */
  lemma {:induction false} GoneForAReason(s: State, steps: seq<Step>, step: Step, n: string, rel: string)
    requires Init(s) && IsRun(s, steps) && Enabled(After(s, steps), step) && !ByUser(step)
    requires Gone(After(s, steps), Apply(After(s, steps), step), n, rel)
    ensures
      var t := After(s, steps);
      || MakesWay(t, step, n)
      || Swept(t, step, n)
      || (Cleared(t, step, n) && exists i: nat :: StoppedAt(s, steps, i, step.j))
  {
    EmptyJobsInv();
    RunKeeps(s, steps);
    StepHasCause(After(s, steps), step, n, rel);
    if Cleared(After(s, steps), step, n) {
      PruneFlagHasCause(s, steps, step.j);
    }
  }

  // ---------- What is meant to happen does ----------

  ghost predicate Listable(e: Jobs.Entry) { e.dir.None? || NamesApart(e.dir.value.files) }

  /** The check passes exactly the downloads that are what the entry lists; any other leaves .incoming. */
  lemma {:induction false} VerifyPasses(t: State, j: JobId)
    requires Inv(t) && Enabled(t, Verify(j)) && Listable(t.jobs.table[j].entry)
    ensures
      var t', disk := Apply(t, Verify(j)), Path(t, j);
      if HasExactly(t.jobs.table[j].entry, t.files.incoming[disk])
      then t'.stage[j].Verified? && t'.stage[j].what == t.files.incoming[disk] && t'.files == t.files
      else t'.stage[j].Over? && disk !in t'.files.incoming && t'.files.data == t.files.data
  {
    WantIsExact(t.jobs.table[j].entry, t.files.incoming[Path(t, j)]);
  }

  /** What is in .incoming but not listed goes before the check, and nothing else does. */
  lemma {:induction false} TrimKeepsListed(t: State, j: JobId, rel: string)
    requires Inv(t) && Enabled(t, Trim(j)) && t.jobs.table[j].entry.dir.Some?
    requires NamesApart(t.jobs.table[j].entry.dir.value.files) && t.files.incoming[Path(t, j)].Folder?
    ensures
      var was, now := t.files.incoming[Path(t, j)], Apply(t, Trim(j)).files.incoming[Path(t, j)];
      && now.Folder?
      && (rel in now.items <==> rel in was.items && exists f <- t.jobs.table[j].entry.dir.value.files :: f.name == rel)
      && (rel in now.items ==> now.items[rel] == was.items[rel])
  {
    ListingIs(t.jobs.table[j].entry.dir.value.files);
  }

  /** A folder's partial download is kept for the torrent it is of, and cleared away for another. */
  lemma {:induction false} PrepareKeepsOwn(t: State, j: JobId)
    requires Enabled(t, Prepare(j))
    ensures
      var fs, fs', disk, ih := t.files, Apply(t, Prepare(j)).files, Path(t, j), Ih(t, j);
      && disk in fs'.owner && fs'.owner[disk] == ih && fs'.data == fs.data && fs'.records == fs.records
      && (disk in fs.owner && fs.owner[disk] == ih ==> fs' == fs)
      && (!(disk in fs.owner && fs.owner[disk] == ih) ==> fs'.incoming == fs.incoming - {disk})
  {
  }

  /** In every run, a folder is downloaded only into a place marked as its torrent's, so never onto another's
      leftovers. */
  lemma {:induction false} FetchIsMarked(s: State, steps: seq<Step>, j: JobId, slot: Slot, next: Id)
    requires Init(s) && IsRun(s, steps) && Enabled(After(s, steps), Fetch(j, slot, next))
    requires After(s, steps).jobs.table[j].entry.dir.Some?
    ensures
      var t := After(s, steps);
      Path(t, j) in t.files.owner && t.files.owner[Path(t, j)] == Ih(t, j)
  {
    EmptyJobsInv();
    RunKeeps(s, steps);
    assert StageOK(After(s, steps), j, After(s, steps).stage[j]);
  }

  /** A verified file is placed, recorded and ready to seed if nothing is in its place, or only an older download of
      ours that it was to replace; nothing else is touched. */
  lemma {:induction false} PromotesWhenItCan(t: State, j: JobId)
    requires Inv(t) && Enabled(t, PromoteFile(j, false))
    requires
      || Path(t, j) !in t.files.data
      || (t.stage[j].replace.Some? && StaleOwn(t, j, t.stage[j].replace.value) && t.files.data[Path(t, j)].Single?)
    ensures
      var t', disk, what := Apply(t, PromoteFile(j, false)), Path(t, j), t.stage[j].what;
      && t'.files.data == t.files.data[disk := what] && t'.files.incoming == t.files.incoming - {disk}
      && Ih(t, j) in t'.files.records && t'.files.records[Ih(t, j)] == FileRecord(disk, what.item.id)
      && t'.stage[j] == Ready(InData, what) && j in t'.downloaded
  {
    assert StageOK(t, j, t.stage[j]);
    FilePromotedShape(t, j, false);
    var stale := t.stage[j].replace.Some? && StaleOwn(t, j, t.stage[j].replace.value);
    var fs := if stale then Unlink(t.files, Path(t, j), t.stage[j].replace.value) else t.files;
    assert Placeable(fs, Path(t, j));
  }

  /** A verified folder is placed, recorded and, once any older one is dropped, ready to seed. */
  lemma {:induction false} LandsWhenItCan(t: State, j: JobId)
    requires Inv(t) && InStage(t, j) && (t.stage[j].Verified? || t.stage[j].MovedAside?) && t.stage[j].what.Folder?
    requires Path(t, j) !in t.files.data
    ensures Enabled(t, Land(j))
    ensures
      var t', disk, what := Apply(t, Land(j)), Path(t, j), t.stage[j].what;
      && t'.files.data == t.files.data[disk := what] && t'.files.incoming == t.files.incoming - {disk}
      && Ih(t, j) in t'.files.records && t'.files.records[Ih(t, j)].path == disk
      && Unchanged(t'.files.records[Ih(t, j)], what)
      && (t.stage[j].MovedAside? && t.stage[j].prior != Ih(t, j) ==> t.stage[j].prior !in t'.files.records)
      && (if t.stage[j].Verified? then t'.stage[j] == Ready(InData, what) else t'.stage[j].Landed?)
      && j in t'.downloaded
  {
    assert StageOK(t, j, t.stage[j]);
    LandShape(t, j);
  }

  /** Pruning a record: what it describes goes if it is still that, and is left alone if not; either way the record
      goes, and nothing else changes. */
  ghost predicate Pruned(fs: Files, fs': Files, ih: string, leftover: bool) {
    && ih in fs.records && fs'.records == fs.records - {ih}
    && (var n := fs.records[ih].path;
      && (!OwnAt(fs, ih, n) ==> fs'.data == fs.data)
      && (OwnAt(fs, ih, n) ==> fs'.data - {n} == fs.data - {n} && Items(Folder(map[])) == ItemsAt(fs'.data, n))
      && (OwnAt(fs, ih, n) && !leftover ==> n !in fs'.data))
  }

  lemma {:induction false} PruneHappens(t: State, step: Step, ih: string)
    requires Enabled(t, step) && ih in t.files.records
    requires
      || (step.PruneRecorded? && step.ih == ih)
      || (step.CleanUp? && Ih(t, step.j) == ih && t.jobs.table[step.j].prune && step.j in t.downloaded)
    ensures Pruned(t.files, Apply(t, step).files, ih, step.leftover)
  {
    PruneIsPruned(t.files, ih, step.leftover);
    if step.CleanUp? {
      PruneIsPruned(Discard(t.files, Path(t, step.j)), ih, step.leftover);
      assert Apply(t, step).files == Prune(Discard(t.files, Path(t, step.j)), ih, step.leftover);
    }
  }

  lemma {:induction false} PruneIsPruned(fs: Files, ih: string, leftover: bool)
    requires ih in fs.records
    ensures Pruned(fs, Prune(fs, ih, leftover), ih, leftover)
  {
    var n, data := fs.records[ih].path, Prune(fs, ih, leftover).data;
    assert data == fs.data || data == fs.data - {n} || data == fs.data[n := Folder(map[])];
    assert fs.data - {n} - {n} == fs.data - {n} && fs.data[n := Folder(map[])] - {n} == fs.data - {n};
  }

  /** A job that was not stopped for good, or has no download of its own, leaves data_dir alone when it cleans up. */
  lemma {:induction false} CleanUpSpares(t: State, j: JobId, leftover: bool)
    requires Enabled(t, CleanUp(j, leftover)) && !(t.jobs.table[j].prune && j in t.downloaded)
    ensures Apply(t, CleanUp(j, leftover)).files.data == t.files.data
    ensures Apply(t, CleanUp(j, leftover)).files.records == t.files.records
    ensures !t.jobs.table[j].prune ==> Apply(t, CleanUp(j, leftover)).files == t.files
  {
  }

  /** A claim takes over the record of an unchanged download whose torrent has left the catalogue, for a job that found
      it to be what it wants. */
  lemma {:induction false} ClaimTakesOver(t: State, j: JobId, prior: string)
    requires Inv(t) && Enabled(t, Claim(j, prior)) && !Recorded(t, j) && Listable(t.jobs.table[j].entry)
    ensures
      var fs, fs', ih := t.files, Apply(t, Claim(j, prior)).files, Ih(t, j);
      && prior != ih && prior !in t.known && OwnAt(fs, prior, Path(t, j))
      && t.stage[j].Ready? && t.stage[j].at.InData?
      && HasAll(t.jobs.table[j].entry, t.stage[j].seen)
      && fs'.records == fs.records[ih := fs.records[prior]] - {prior}
      && fs'.data == fs.data && fs'.incoming == fs.incoming
      && j in Apply(t, Claim(j, prior)).downloaded
  {
    assert StageOK(t, j, t.stage[j]);
    WantIsExact(t.jobs.table[j].entry, t.stage[j].seen);
  }

  /** A download is started only where nothing is, or where an older download of ours is that is not what is wanted. */
  lemma {:induction false} DownloadsOnlyOver(t: State, j: JobId, replace: Option<string>, prepared: bool)
    requires Inv(t) && Enabled(t, Move(j, Fetching(replace, prepared))) && Listable(t.jobs.table[j].entry)
    ensures prepared <==> t.jobs.table[j].entry.dir.None?
    ensures
      || Path(t, j) !in t.files.data
      || (&& (exists ih <- t.files.records :: ih != Ih(t, j) && ih !in t.known && OwnAt(t.files, ih, Path(t, j)))
          && !HasAll(t.jobs.table[j].entry, t.files.data[Path(t, j)]))
  {
    if Path(t, j) in t.files.data {
      WantIsExact(t.jobs.table[j].entry, t.files.data[Path(t, j)]);
      assert OwnAt(t.files, replace.value, Path(t, j));
    }
  }
}
