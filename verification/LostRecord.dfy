/** A run in which a folder replacement that is undone leaves the old folder without its record. */
module LostRecord {
  import opened Catalog
  import opened Disk
  import opened Downloads
  import Jobs

  lemma {:induction false} RunThen(s: State, xs: seq<Step>, step: Step)
    requires IsRun(s, xs) && Enabled(After(s, xs), step)
    ensures IsRun(s, xs + [step]) && After(s, xs + [step]) == Apply(After(s, xs), step)
    decreases |xs|
  {
    if xs == [] {
      assert [] + [step] == [step] && [step][1..] == [];
    } else {
      RunThen(Apply(s, xs[0]), xs[1..], step);
      assert (xs + [step])[1..] == xs[1..] + [step];
    }
  }

  lemma {:induction false} Join(s: State, xs: seq<Step>, ys: seq<Step>)
    requires IsRun(s, xs) && IsRun(After(s, xs), ys)
    ensures IsRun(s, xs + ys) && After(s, xs + ys) == After(After(s, xs), ys)
    decreases |xs|
  {
    if xs == [] {
      assert xs + ys == ys;
    } else {
      Join(Apply(s, xs[0]), xs[1..], ys);
      assert (xs + ys)[1..] == xs[1..] + ys;
    }
  }

  function OneJob(e: Jobs.Entry, phase: Jobs.Phase): Jobs.State {
    Jobs.State([Jobs.Job(e, {}, phase, Jobs.Busy, false, false)], map[e.f.infoHash := 0], map[], map[], false)
  }

  predicate Idle(s: State) { s.jobs == Jobs.INIT && s.wants == map[] && s.stage == map[] }

  /** Nothing has happened yet but that one job got past its waits. */
  function Begun(s: State, e: Jobs.Entry, want: Want): State {
    s.(jobs := OneJob(e, Jobs.Running), wants := map[0 := want])
  }

  lemma {:induction false} Begins(s: State, e: Jobs.Entry, want: Want) returns (xs: seq<Step>)
    requires Idle(s) && want == WantOf(e)
    ensures IsRun(s, xs) && After(s, xs) == Begun(s, e, want)
  {
    var launch, enter := JobStep(Jobs.Launch(e), want), JobStep(Jobs.Enter(0), want);
    var s1 := Apply(s, launch);
    assert s1.jobs.table[0].waits == {};
    assert s1.jobs == OneJob(e, Jobs.Waiting) && s1 == s.(jobs := OneJob(e, Jobs.Waiting), wants := map[0 := want]);
    RunThen(s, [], launch);
    assert [] + [launch] == [launch];
    RunThen(s, [launch], enter);
    xs := [launch] + [enter];
  }

  /** The folder slot, written as identities up to next, is in .incoming. */
  function Fetched(fs: Files, e: Jobs.Entry, slot: Slot, next: Id): Files {
    fs.(incoming := map[e.disk := slot], owner := fs.owner[e.disk := e.f.infoHash],
        own := fs.own + NewIds(fs, slot), clock := next)
  }

  ghost predicate CanFetch(s: State, e: Jobs.Entry, want: Want, replace: Option<string>, slot: Slot, next: Id) {
    && Idle(s) && s.files.incoming == map[] && e.disk !in s.files.owner
    && want == WantOf(e) && want.WantDir? && slot.Folder? && Exactly(want, slot)
    && Rewritten(s.files, map[], slot, next, Own)
    && MayMove(Begun(s, e, want), 0, Fetching(replace, false))
  }

  lemma {:induction false} Fetches(s: State, e: Jobs.Entry, want: Want, replace: Option<string>, slot: Slot, next: Id)
    returns (xs: seq<Step>)
    requires CanFetch(s, e, want, replace, slot, next)
    ensures IsRun(s, xs)
    ensures After(s, xs) == Begun(s, e, want).(stage := map[0 := Fetching(replace, true)],
      files := Fetched(s.files, e, slot, next))
  {
    xs := Begins(s, e, want);
    var s0 := Begun(s, e, want);
    RunThen(s, xs, Move(0, Fetching(replace, false)));
    xs := xs + [Move(0, Fetching(replace, false))];
    var s1 := s0.(stage := map[0 := Fetching(replace, false)]);
    ThenPrepare(s1, replace);
    RunThen(s, xs, Prepare(0));
    xs := xs + [Prepare(0)];
    var s2 := s1.(stage := map[0 := Fetching(replace, true)],
                  files := s.files.(owner := s.files.owner[e.disk := e.f.infoHash]));
    ThenFetch(s2, replace, slot, next);
    RunThen(s, xs, Fetch(0, slot, next));
    xs := xs + [Fetch(0, slot, next)];
  }

  lemma {:induction false} ThenPrepare(t: State, replace: Option<string>)
    requires Running(t, 0) && t.stage == map[0 := Fetching(replace, false)]
    requires t.files.incoming == map[] && Path(t, 0) !in t.files.owner
    ensures
      && Enabled(t, Prepare(0))
      && Apply(t, Prepare(0)) == t.(stage := map[0 := Fetching(replace, true)],
                                    files := t.files.(owner := t.files.owner[Path(t, 0) := Ih(t, 0)]))
  {
    assert t.files.incoming - {Path(t, 0)} == map[] && t.files.owner - {Path(t, 0)} == t.files.owner;
  }

  lemma {:induction false} ThenFetch(t: State, replace: Option<string>, slot: Slot, next: Id)
    requires Running(t, 0) && t.stage == map[0 := Fetching(replace, true)] && t.files.incoming == map[]
    requires Rewritten(t.files, map[], slot, next, Own)
    ensures
      && Enabled(t, Fetch(0, slot, next))
      && Apply(t, Fetch(0, slot, next)) == t.(files := t.files.(incoming := map[Path(t, 0) := slot],
                                              own := t.files.own + NewIds(t.files, slot), clock := next))
  {
  }

  lemma {:induction false} ThenComplete(t: State, replace: Option<string>)
    requires Running(t, 0) && t.stage == map[0 := Fetching(replace, true)]
    ensures Enabled(t, Move(0, Complete(replace)))
    ensures Apply(t, Move(0, Complete(replace))) == t.(stage := map[0 := Complete(replace)])
  {
  }

  lemma {:induction false} ThenTrim(t: State, replace: Option<string>, slot: Slot)
    requires Running(t, 0) && t.stage == map[0 := Complete(replace)] && t.files.incoming == map[Path(t, 0) := slot]
    requires t.wants[0].WantDir? && Exactly(t.wants[0], slot)
    ensures Enabled(t, Trim(0)) && Apply(t, Trim(0)) == t.(stage := map[0 := Checking(replace)])
  {
    assert Trimmed(t.wants[0], slot) == slot;
  }

  lemma {:induction false} ThenVerify(t: State, replace: Option<string>, slot: Slot)
    requires Running(t, 0) && t.stage == map[0 := Checking(replace)] && t.files.incoming == map[Path(t, 0) := slot]
    requires Exactly(t.wants[0], slot)
    ensures Enabled(t, Verify(0)) && Apply(t, Verify(0)) == t.(stage := map[0 := Verified(replace, slot)])
  {
  }

  lemma {:induction false} Verifies(s: State, e: Jobs.Entry, want: Want, replace: Option<string>, slot: Slot, next: Id)
    returns (xs: seq<Step>)
    requires CanFetch(s, e, want, replace, slot, next)
    ensures IsRun(s, xs)
    ensures After(s, xs) == Begun(s, e, want).(stage := map[0 := Verified(replace, slot)],
      files := Fetched(s.files, e, slot, next))
  {
    xs := Fetches(s, e, want, replace, slot, next);
    var t := After(s, xs);
    ThenComplete(t, replace);
    RunThen(s, xs, Move(0, Complete(replace)));
    var t1 := t.(stage := map[0 := Complete(replace)]);
    ThenTrim(t1, replace, slot);
    RunThen(s, xs + [Move(0, Complete(replace))], Trim(0));
    var t2 := t.(stage := map[0 := Checking(replace)]);
    ThenVerify(t2, replace, slot);
    RunThen(s, xs + [Move(0, Complete(replace))] + [Trim(0)], Verify(0));
    xs := xs + [Move(0, Complete(replace))] + [Trim(0)] + [Verify(0)];
  }

  // A folder of one file is downloaded as torrent "a"; after a restart torrent "b" replaces it.

  function OneFile(sha: string): Model {
    Model("d", "", "", "", "", LAYOUT_DIR, "", "", [File("f", "", 1, sha, "", "")])
  }

  function Entry(ih: string, sha: string): Jobs.Entry {
    Jobs.Entry("d", File("d", "", 1, "", ih, ""), "d", Some(OneFile(sha)))
  }

  lemma {:induction false} WantsOneFile(ih: string, sha: string)
    ensures WantOf(Entry(ih, sha)) == WantDir(map["f" := sha])
  {
    var fs := OneFile(sha).files;
    assert fs[..0] == [] && Listing(fs[..0]) == map[];
  }

  const EMPTY := Files(map[], map[], map[], map[], map[], map[], {}, 0)
  const START := State(Jobs.INIT, map[], {"b"}, true, EMPTY, map[], map[], {})
  const OLD := Folder(map["f" := Item(0, "x", Own)])
  const NEW := Folder(map["f" := Item(1, "y", Own)])
  const RECORD := DirRecord("d", map["f" := 0])
  const PLACED := Files(map["d" := OLD], map[], map[], map[], map["a" := RECORD], map["a" := RECORD], {0}, 1)
  const AGAIN := START.(files := PLACED)

  lemma {:induction false} OldIsRecorded()
    ensures RecordOf("d", OLD) == RECORD && NewIds(EMPTY, OLD) == {0}
  {
    assert Items(OLD) == map["f" := Item(0, "x", Own)];
    assert RecordOf("d", OLD).ids == map["f" := 0];
    assert "f" in Items(OLD) && Items(OLD)["f"].id == 0 && 0 in NewIds(EMPTY, OLD);
    assert forall i <- NewIds(EMPTY, OLD) :: i == 0;
  }

  const LANDED := PLACED.(saved := map[])

  lemma {:induction false} OldLands(t: State)
    requires Running(t, 0) && t.jobs.table[0].entry == Entry("a", "x") && t.stage == map[0 := Verified(None, OLD)]
    requires t.files == Fetched(EMPTY, Entry("a", "x"), OLD, 1)
    ensures Enabled(t, Land(0)) && Apply(t, Land(0)).files == LANDED
  {
    OldIsRecorded();
    var fs := Apply(t, Land(0)).files;
    assert fs.incoming == map[] && fs.owner == map[] && fs.data == LANDED.data && fs.records == LANDED.records;
    assert fs.own == {0};
  }

  lemma {:induction false} FirstPlaced() returns (xs: seq<Step>)
    ensures IsRun(START, xs) && After(START, xs) == AGAIN
  {
    var want := WantDir(map["f" := "x"]);
    WantsOneFile("a", "x");
    xs := Verifies(START, Entry("a", "x"), want, None, OLD, 1);
    var t := After(START, xs);
    OldLands(t);
    RunThen(START, xs, Land(0));
    xs := xs + [Land(0)];
    xs := StartsAgain(xs);
  }

  lemma {:induction false} StartsAgain(xs: seq<Step>) returns (ys: seq<Step>)
    requires IsRun(START, xs)
    requires
      var t := After(START, xs);
      t.files == LANDED && t.known == {"b"} && t.prune && t.outside == map[]
    ensures IsRun(START, ys) && After(START, ys) == AGAIN
  {
    SavedAndRestarted(After(START, xs));
    RunThen(START, xs, Save);
    RunThen(START, xs + [Save], Restart(false, map[]));
    ys := xs + [Save] + [Restart(false, map[])];
  }

  lemma {:induction false} SavedAndRestarted(t: State)
    requires t.files == LANDED && t.known == {"b"} && t.prune && t.outside == map[]
    ensures Enabled(Apply(t, Save), Restart(false, map[])) && Apply(Apply(t, Save), Restart(false, map[])) == AGAIN
  {
  }

  const READY := Begun(AGAIN, Entry("b", "y"), WantDir(map["f" := "y"]))
                 .(stage := map[0 := Verified(Some("a"), NEW)], files := Fetched(PLACED, Entry("b", "y"), NEW, 2))

  lemma {:induction false} SecondVerified() returns (xs: seq<Step>)
    ensures IsRun(AGAIN, xs) && After(AGAIN, xs) == READY
  {
    assert OwnAt(PLACED, "a", "d");
    assert OLD.items["f"].sha == "x";
    WantsOneFile("b", "y");
    xs := Verifies(AGAIN, Entry("b", "y"), WantDir(map["f" := "y"]), Some("a"), NEW, 2);
  }

  const RETIRE := JobStep(Jobs.Retire("b", false), WantFile(""))
  const DURING := [RETIRE, PruneRecorded("a", false)]

  const BETWEEN := READY.(stage := map[0 := MovedAside("a", 0, OLD, NEW)],
                          files := READY.files.(data := map[], aside := map[0 := OLD]))
  const STOPPED := BETWEEN.(jobs := Jobs.State([READY.jobs.table[0].(cancelled := true)], map[], map["b" := 0],
    map["d" := 0], false))
  const PRUNED := STOPPED.(files := STOPPED.files.(records := map[]))

  lemma {:induction false} MovesAside()
    ensures Enabled(READY, MoveAside(0, 0)) && Apply(READY, MoveAside(0, 0)) == BETWEEN
  {
    assert OwnAt(READY.files, "a", "d");
    assert READY.files.data - {"d"} == map[];
  }

  lemma {:induction false} Stops()
    ensures Enabled(BETWEEN, RETIRE) && Apply(BETWEEN, RETIRE) == STOPPED
  {
    var js := Jobs.Apply(BETWEEN.jobs, RETIRE.step);
    assert js.table == STOPPED.jobs.table && js.live == map[];
  }

  lemma {:induction false} Prunes()
    ensures Enabled(STOPPED, PruneRecorded("a", false)) && Apply(STOPPED, PruneRecorded("a", false)) == PRUNED
  {
    assert STOPPED.files.records - {"a"} == map[];
  }

  lemma {:induction false} PutsBack()
    ensures Enabled(PRUNED, CannotLand(0, true))
    ensures Apply(PRUNED, CannotLand(0, true)).files.data == map["d" := OLD]
    ensures Apply(PRUNED, CannotLand(0, true)).files.records == map[]
  {
  }

  lemma {:induction false} PruneBetweenRenames()
    ensures IsRun(BETWEEN, DURING) && After(BETWEEN, DURING) == PRUNED
  {
    Stops();
    Prunes();
    RunThen(BETWEEN, [], RETIRE);
    assert [] + [RETIRE] == [RETIRE];
    RunThen(BETWEEN, [RETIRE], PruneRecorded("a", false));
    assert [RETIRE] + [PruneRecorded("a", false)] == DURING;
  }

  lemma {:induction false} DuringIsMeanwhile()
    ensures Meanwhile(DURING, 0)
  {
  }

  /** A run from the very start in which the record is lost: the job replacing a folder is stopped between its two
      renames, a prune finds the old folder gone and forgets it, and the folder is then put back. */
  lemma {:induction false} RecordCanBeLost() returns (s: State, before: seq<Step>, during: seq<Step>)
    ensures Init(s) && IsRun(s, before) && Enabled(After(s, before), MoveAside(0, 0))
    ensures
      var s1 := After(s, before);
      var s2 := Apply(s1, MoveAside(0, 0));
      && IsRun(s2, during) && Meanwhile(during, 0) && Enabled(After(s2, during), CannotLand(0, true))
      && (var fs := Apply(After(s2, during), CannotLand(0, true)).files;
        && fs.data == s1.files.data && s1.stage[0].replace.value in s1.files.records
        && s1.stage[0].replace.value !in fs.records)
  {
    s, during := START, DURING;
    var xs := FirstPlaced();
    var ys := SecondVerified();
    Join(s, xs, ys);
    before := xs + ys;
    MovesAside();
    PruneBetweenRenames();
    DuringIsMeanwhile();
    PutsBack();
  }
}
