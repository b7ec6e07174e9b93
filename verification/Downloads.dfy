/** The jobs' runs on the disk: find, download, verify, promote, replace, prune, interleaved with the manager's
    steps, the user's changes and restarts. */
module Downloads {
  import opened Catalog
  import opened Disk
  import Jobs

  datatype Where = InData | Elsewhere(path: string)

  /** Where a running job is. A job that has just got past its waits has no stage: it is looking for a copy. */
  datatype Stage =
    | Fetching(replace: Option<string>, prepared: bool)
    | Complete(replace: Option<string>)
    | Checking(replace: Option<string>)        // extra files are gone; hashing
    | Verified(replace: Option<string>, what: Slot)
    | MovedAside(prior: string, key: nat, was: Slot, what: Slot)
    | Landed(key: nat, was: Slot, what: Slot)  // in place; the older revision is still aside
    | Ready(at: Where, seen: Slot)             // verified there; seen is what was verified
    | Seeding(at: Where, seen: Slot)
    | Over                                     // run is returning; only the clean-up is left
    | Cleaned

  datatype State = State(
    jobs: Jobs.State,
    wants: map<JobId, Want>,
    known: set<string>,          // infohashes in the catalogue
    prune: bool,
    files: Files,
    outside: map<string, Slot>,  // adoption candidates, by path
    stage: map<JobId, Stage>,
    downloaded: set<JobId>)

  datatype Step =
    | JobStep(step: Jobs.Step, want: Want)
    | SetKnown(known: set<string>)
    | Move(j: JobId, to: Stage)
    | Claim(j: JobId, prior: string)
    | Prepare(j: JobId)
    | Fetch(j: JobId, slot: Slot, next: Id)
    | Trim(j: JobId)
    | Verify(j: JobId)
    | PromoteFile(j: JobId, linkFails: bool)
    | MoveAside(j: JobId, key: nat)
    | Land(j: JobId)
    | CannotLand(j: JobId, back: bool)
    | DropAside(j: JobId)
    | CleanUp(j: JobId, leftover: bool)
    | PruneRecorded(ih: string, leftover: bool)
    | Save
    | UserPuts(name: string, slot: Slot, next: Id)
    | UserRemoves(name: string)
    | UserMoves(from: string, dest: string)
    | OutsideChanges(outside: map<string, Slot>)
    | Restart(corrupt: bool, aside: map<nat, Slot>)

  function Listing(fs: seq<File>): map<string, string> {
    if fs == [] then map[] else Listing(fs[..|fs| - 1])[fs[|fs| - 1].name := fs[|fs| - 1].sha256]
  }

  /** What the entry a job was started with says its torrent holds. */
  function WantOf(e: Jobs.Entry): Want {
    if e.dir.None? then WantFile(e.f.sha256) else WantDir(Listing(e.dir.value.files))
  }

  /** The one file, or every file of the folder and no other, each with the sha256 the entry lists. */
  ghost predicate HasExactly(e: Jobs.Entry, slot: Slot) {
    match e.dir
    case None => slot.Single? && slot.item.sha == e.f.sha256
    case Some(m) => NamesApart(m.files) ==>
      && slot.Folder? && (forall rel :: rel in slot.items <==> exists f <- m.files :: f.name == rel)
      && (forall f <- m.files :: f.name in slot.items && slot.items[f.name].sha == f.sha256)
  }

  /** The same, with other files in the folder. */
  ghost predicate HasAll(e: Jobs.Entry, slot: Slot) {
    match e.dir
    case None => slot.Single? && slot.item.sha == e.f.sha256
    case Some(m) => NamesApart(m.files) ==>
      slot.Folder? && forall f <- m.files :: f.name in slot.items && slot.items[f.name].sha == f.sha256
  }

  lemma {:induction false} ListingIs(fs: seq<File>)
    requires NamesApart(fs)
    ensures Listing(fs).Keys == Names(fs) && forall f <- fs :: Listing(fs)[f.name] == f.sha256
  {
    if fs != [] {
      var front, last := fs[..|fs| - 1], fs[|fs| - 1];
      assert fs == front + [last];
      NamesOfLast(front, last);
      ListingIs(front);
      assert Listing(fs) == Listing(front)[last.name := last.sha256];
      forall f | f in fs ensures Listing(fs)[f.name] == f.sha256 {
        assert f in front ==> f.name in Names(front);
      }
    }
  }

  /** What a job checks its download against is what its entry lists. */
  lemma {:induction false} WantIsExact(e: Jobs.Entry, slot: Slot)
    ensures Exactly(WantOf(e), slot) ==> HasExactly(e, slot)
    ensures Holds(WantOf(e), slot) ==> HasAll(e, slot)
    ensures e.dir.None? || NamesApart(e.dir.value.files) ==>
      && (HasExactly(e, slot) ==> Exactly(WantOf(e), slot))
      && (HasAll(e, slot) ==> Holds(WantOf(e), slot))
  {
    if e.dir.Some? && NamesApart(e.dir.value.files) {
      var fs := e.dir.value.files;
      ListingIs(fs);
      assert forall f <- fs :: f.name in Names(fs);
      if HasExactly(e, slot) {
        assert slot.items.Keys == Names(fs);
      }
    }
  }

  predicate Running(s: State, j: JobId) {
    j < |s.jobs.table| && s.jobs.table[j].phase.Running? && j in s.wants
  }

  predicate InStage(s: State, j: JobId) { Running(s, j) && j in s.stage }

  function Ih(s: State, j: JobId): string
    requires j < |s.jobs.table|
  {
    Jobs.Ih(s.jobs.table[j])
  }

  function Path(s: State, j: JobId): string
    requires j < |s.jobs.table|
  {
    Jobs.Disk(s.jobs.table[j])
  }

  /** staleOwnDownload: our own unchanged download at j's path, of another torrent, one that has left the catalogue. */
  predicate StaleOwn(s: State, j: JobId, prior: string)
    requires j < |s.jobs.table|
  {
    prior != Ih(s, j) && prior !in s.known && OwnAt(s.files, prior, Path(s, j))
  }

  /** The moves of a run that leave the disk alone. */
  predicate MayMove(s: State, j: JobId, to: Stage)
    requires Running(s, j)
  {
    var disk, want := Path(s, j), s.wants[j];
    match to
    case Ready(at, seen) => // found and verified, in data_dir or among the adoption candidates
      && j !in s.stage && Holds(want, seen)
      && (at.InData? ==> disk in s.files.data && s.files.data[disk] == seen)
      && (at.Elsewhere? ==> at.path in s.outside && s.outside[at.path] == seen)
    case Fetching(replace, prepared) => // nothing verified: download, perhaps over an older revision of ours
      && j !in s.stage && prepared == want.WantFile?
      && (replace.None? ==> disk !in s.files.data)
      && (replace.Some? ==>
            StaleOwn(s, j, replace.value) && !Holds(want, s.files.data[disk]) &&
              (want.WantFile? ==> s.files.data[disk].Single?))
    case Complete(replace) => j in s.stage && s.stage[j] == Fetching(replace, true)
    case Seeding(at, seen) => j in s.stage && s.stage[j] == Ready(at, seen)
    case Over => j in s.stage ==> !s.stage[j].MovedAside? && !s.stage[j].Landed? && !s.stage[j].Cleaned?
    case _ => false
  }

  predicate Enabled(s: State, step: Step) {
    match step
    case JobStep(js, want) =>
      && Jobs.Enabled(s.jobs, js) && (js.Launch? ==> want == WantOf(js.entry))
      && (js.Retire? && js.prune ==> s.prune && js.ih !in s.known)
      && (js.Finish? ==> InStage(s, js.j) && s.stage[js.j].Cleaned?)
    case SetKnown(_) => true
    case Move(j, to) => Running(s, j) && MayMove(s, j, to)
    case Claim(j, prior) => InStage(s, j) && s.stage[j].Ready? && s.stage[j].at.InData? &&
      (Recorded(s, j) || StaleOwn(s, j, prior))
    case Prepare(j) => InStage(s, j) && s.stage[j].Fetching? && !s.stage[j].prepared
    case Fetch(j, slot, next) =>
      && InStage(s, j) && s.stage[j].Fetching? && s.stage[j].prepared
      && Rewritten(s.files, ItemsAt(s.files.incoming, Path(s, j)), slot, next, Own)
    case Trim(j) => InStage(s, j) && s.stage[j].Complete? && Path(s, j) in s.files.incoming
    case Verify(j) => InStage(s, j) && s.stage[j].Checking? && Path(s, j) in s.files.incoming
    case PromoteFile(j, _) => InStage(s, j) && s.stage[j].Verified? && s.stage[j].what.Single?
    case MoveAside(j, key) =>
      && InStage(s, j) && s.stage[j].Verified? && s.stage[j].what.Folder? && s.stage[j].replace.Some?
      && StaleOwn(s, j, s.stage[j].replace.value) && key !in s.files.aside
    case Land(j) =>
      && InStage(s, j) && (s.stage[j].Verified? || s.stage[j].MovedAside?) && s.stage[j].what.Folder?
      && Placeable(s.files, Path(s, j))
    case CannotLand(j, back) =>
      && InStage(s, j) && (s.stage[j].Verified? || s.stage[j].MovedAside?)
      && (back ==> s.stage[j].MovedAside? && Path(s, j) !in s.files.data && s.stage[j].key in s.files.aside)
    case DropAside(j) => InStage(s, j) && s.stage[j].Landed?
    case CleanUp(j, _) => InStage(s, j) && (s.stage[j].Over? || s.stage[j].Seeding?)
    case PruneRecorded(ih, _) =>
      && s.prune && ih in s.files.records && ih !in s.known && ih !in s.jobs.live && ih !in s.jobs.stopping
      && (forall k <- s.jobs.live ::
            s.jobs.live[k] < |s.jobs.table| && Path(s, s.jobs.live[k]) != s.files.records[ih].path)
    case Save => true
    case UserPuts(name, slot, next) => Rewritten(s.files, ItemsAt(s.files.data, name), slot, next, User)
    case UserRemoves(name) => true
    case UserMoves(from, dest) => from in s.files.data && dest !in s.files.data
    case OutsideChanges(_) => true
    case Restart(_, aside) => aside.Keys <= s.files.aside.Keys && forall k <- aside :: aside[k] == s.files.aside[k]
  }

  predicate Recorded(s: State, j: JobId)
    requires j < |s.jobs.table|
  {
    Ih(s, j) in s.files.records && s.files.records[Ih(s, j)].path == Path(s, j)
  }

  function At(s: State, j: JobId, st: Stage, fs: Files): State { s.(stage := s.stage[j := st], files := fs) }

  function Promoted(s: State, j: JobId, st: Stage, fs: Files): State
    requires j < |s.jobs.table| && Placeable(fs, Path(s, j))
  {
    At(s, j, st, Place(fs, Path(s, j), Ih(s, j))).(downloaded := s.downloaded + {j})
  }

  function Claimed(s: State, j: JobId, prior: string): State
    requires j < |s.jobs.table| && prior in s.files.records
  {
    s.(files := s.files.(records := s.files.records[Ih(s, j) := s.files.records[prior]] - {prior}),
      downloaded := s.downloaded + {j})
  }

  function Prepared(s: State, j: JobId): Files
    requires j < |s.jobs.table|
  {
    var disk := Path(s, j);
    if disk in s.files.owner && s.files.owner[disk] == Ih(s, j) then s.files
    else Discard(s.files, disk).(owner := s.files.owner[disk := Ih(s, j)])
  }

  /** promote: an older revision of ours is unlinked first, then the download is linked in, replacing nothing. */
  function FilePromoted(s: State, j: JobId, linkFails: bool): State
    requires Enabled(s, PromoteFile(j, linkFails))
  {
    var disk, st := Path(s, j), s.stage[j];
    var stale := st.replace.Some? && StaleOwn(s, j, st.replace.value);
    if stale && !s.files.data[disk].Single? then At(s, j, Over, s.files) // a directory cannot be unlinked
    else
      var fs := if stale then Unlink(s.files, disk, st.replace.value) else s.files;
      if linkFails || !Placeable(fs, disk) then At(s, j, Over, fs) else Promoted(s, j, Ready(InData, st.what), fs)
  }

  function CleanedUp(s: State, j: JobId, leftover: bool): State
    requires j < |s.jobs.table|
  {
    if !s.jobs.table[j].prune then At(s, j, Cleaned, s.files)
    else
      var fs := Discard(s.files, Path(s, j));
      At(s, j, Cleaned, if j in s.downloaded then Prune(fs, Ih(s, j), leftover) else fs)
  }

  function Apply(s: State, step: Step): State
    requires Enabled(s, step)
  {
    match step
    case JobStep(js, want) =>
      s.(jobs := Jobs.Apply(s.jobs, js),
         wants := if js.Launch? then s.wants[|s.jobs.table| := want] else s.wants,
         stage := if js.Finish? then s.stage - {js.j} else s.stage)
    case SetKnown(known) => s.(known := known)
    case Move(j, to) => At(s, j, to, s.files)
    case Claim(j, prior) => if Recorded(s, j) then s.(downloaded := s.downloaded + {j}) else Claimed(s, j, prior)
    case Prepare(j) => At(s, j, s.stage[j].(prepared := true), Prepared(s, j))
    case Fetch(j, slot, next) => s.(files := Write(s.files, Path(s, j), slot, next))
    case Trim(j) =>
      var disk := Path(s, j);
      At(s, j, Checking(s.stage[j].replace),
        s.files.(incoming := s.files.incoming[disk := Trimmed(s.wants[j], s.files.incoming[disk])]))
    case Verify(j) =>
      var what := s.files.incoming[Path(s, j)];
      if Exactly(s.wants[j], what) then At(s, j, Verified(s.stage[j].replace, what), s.files)
      else At(s, j, Over, Discard(s.files, Path(s, j))) // quarantined
    case PromoteFile(j, linkFails) => FilePromoted(s, j, linkFails)
    case MoveAside(j, key) =>
      At(s, j, MovedAside(s.stage[j].replace.value, key, s.files.data[Path(s, j)], s.stage[j].what),
        SetAside(s.files, Path(s, j), key))
    case Land(j) =>
      var st := s.stage[j];
      if st.Verified? then Promoted(s, j, Ready(InData, st.what), s.files)
      else Promoted(s, j, Landed(st.key, st.was, st.what), s.files.(records := s.files.records - {st.prior}))
    case CannotLand(j, back) => At(s, j, Over, if back then PutBack(s.files, Path(s, j), s.stage[j].key) else s.files)
    case DropAside(j) => At(s, j, Ready(InData, s.stage[j].what), s.files.(aside := s.files.aside - {s.stage[j].key}))
    case CleanUp(j, leftover) => CleanedUp(s, j, leftover)
    case PruneRecorded(ih, leftover) => s.(files := Prune(s.files, ih, leftover))
    case Save => s.(files := s.files.(saved := s.files.records))
    case UserPuts(name, slot, next) => s.(files := s.files.(data := s.files.data[name := slot], clock := next))
    case UserRemoves(name) => s.(files := s.files.(data := s.files.data - {name}))
    case UserMoves(from, dest) => s.(files := s.files.(data := (s.files.data - {from})[dest := s.files.data[from]]))
    case OutsideChanges(outside) => s.(outside := outside)
    case Restart(corrupt, aside) =>
      s.(jobs := Jobs.INIT, wants := map[], stage := map[], downloaded := {},
         files := s.files.(aside := aside, records := if corrupt then map[] else s.files.saved))
  }

  predicate ByUser(step: Step) { step.UserPuts? || step.UserRemoves? || step.UserMoves? }

  // ---------- Ownership over every step ----------

  lemma {:induction false} FilePromotedOwns(s: State, j: JobId, linkFails: bool)
    requires FilesOK(s.files) && Enabled(s, PromoteFile(j, linkFails))
    ensures FilesOK(FilePromoted(s, j, linkFails).files) && OnlyOwnGone(s.files, FilePromoted(s, j, linkFails).files)
  {
    var disk, st := Path(s, j), s.stage[j];
    if st.replace.Some? && StaleOwn(s, j, st.replace.value) && s.files.data[disk].Single? {
      var fs := Unlink(s.files, disk, st.replace.value);
      assert FilesOK(fs);
      if Placeable(fs, disk) {
        PlaceOK(fs, disk, Ih(s, j));
      }
      SlotGone(s.files, FilePromoted(s, j, linkFails).files, st.replace.value, disk);
    } else if Placeable(s.files, disk) {
      PlaceOK(s.files, disk, Ih(s, j));
    }
  }

  lemma {:induction false} PruneOwns(fs: Files, ih: string, leftover: bool)
    requires FilesOK(fs)
    ensures FilesOK(Prune(fs, ih, leftover)) && OnlyOwnGone(fs, Prune(fs, ih, leftover))
  {
    if ih in fs.records && OwnAt(fs, ih, fs.records[ih].path) {
      SlotGone(fs, Prune(fs, ih, leftover), ih, fs.records[ih].path);
    }
  }

  lemma {:induction false} DataKept(fs: Files, fs': Files)
    requires forall n <- fs.data :: n in fs'.data && fs'.data[n] == fs.data[n]
    ensures OnlyOwnGone(fs, fs')
  {
  }

  lemma {:induction false} LandOwns(s: State, j: JobId)
    requires FilesOK(s.files) && Enabled(s, Land(j))
    ensures FilesOK(Apply(s, Land(j)).files) && OnlyOwnGone(s.files, Apply(s, Land(j)).files)
  {
    var fs := if s.stage[j].Verified? then s.files else s.files.(records := s.files.records - {s.stage[j].prior});
    PlaceOK(fs, Path(s, j), Ih(s, j));
    DataKept(s.files, Place(fs, Path(s, j), Ih(s, j)));
  }

  lemma {:induction false} MoveAsideOwns(s: State, j: JobId, key: nat)
    requires FilesOK(s.files) && Enabled(s, MoveAside(j, key))
    ensures FilesOK(Apply(s, MoveAside(j, key)).files) && OnlyOwnGone(s.files, Apply(s, MoveAside(j, key)).files)
  {
    SetAsideOK(s.files, Path(s, j), s.stage[j].replace.value, key);
    SlotGone(s.files, SetAside(s.files, Path(s, j), key), s.stage[j].replace.value, Path(s, j));
  }

  lemma {:induction false} CleanUpOwns(s: State, j: JobId, leftover: bool)
    requires FilesOK(s.files) && j < |s.jobs.table|
    ensures FilesOK(CleanedUp(s, j, leftover).files) && OnlyOwnGone(s.files, CleanedUp(s, j, leftover).files)
  {
    var fs := Discard(s.files, Path(s, j));
    DataKept(s.files, fs);
    assert FilesOK(fs);
    PruneOwns(fs, Ih(s, j), leftover);
    forall ih, n | OwnAt(fs, ih, n) ensures OwnAt(s.files, ih, n) {
    }
  }

  predicate Quiet(step: Step) {
    || step.JobStep? || step.SetKnown? || step.Move? || step.Claim? || step.Prepare? || step.Verify?
    || step.CannotLand? || step.DropAside? || step.Save? || step.Restart? || step.OutsideChanges?
  }

  /** Steps that remove nothing from data_dir and write nothing new. */
  lemma {:induction false} QuietOwns(s: State, step: Step)
    requires FilesOK(s.files) && Enabled(s, step) && Quiet(step)
    ensures FilesOK(Apply(s, step).files) && OnlyOwnGone(s.files, Apply(s, step).files)
  {
    if step.Prepare? || step.Verify? || step.CannotLand? || step.DropAside? {
      ShiftsOwn(s, step);
    } else {
      BooksOwn(s, step);
    }
    DataKept(s.files, Apply(s, step).files);
  }

  lemma {:induction false} ShiftsOwn(s: State, step: Step)
    requires FilesOK(s.files) && Enabled(s, step)
    requires step.Prepare? || step.Verify? || step.CannotLand? || step.DropAside?
    ensures FilesOK(Apply(s, step).files)
    ensures forall n <- s.files.data ::
      n in Apply(s, step).files.data && Apply(s, step).files.data[n] == s.files.data[n]
  {
  }

  lemma {:induction false} BooksOwn(s: State, step: Step)
    requires FilesOK(s.files) && Enabled(s, step) && Quiet(step)
    requires !(step.Prepare? || step.Verify? || step.CannotLand? || step.DropAside?)
    ensures FilesOK(Apply(s, step).files) && Apply(s, step).files.data == s.files.data
  {
  }

  /** No step of the node removes or overwrites a file unless viiwork-parrot placed and recorded it and it is
      unchanged. */
  lemma {:induction false} StepOwns(s: State, step: Step)
    requires FilesOK(s.files) && Enabled(s, step)
    ensures FilesOK(Apply(s, step).files)
    ensures !ByUser(step) ==> OnlyOwnGone(s.files, Apply(s, step).files)
  {
    if Quiet(step) {
      QuietOwns(s, step);
    } else {
      match step
      case Fetch(j, slot, next) =>
        WriteOK(s.files, Path(s, j), slot, next);
        DataKept(s.files, Write(s.files, Path(s, j), slot, next));
      case Trim(j) =>
        TrimmedOK(s.files, Path(s, j), s.wants[j]);
        DataKept(s.files, Apply(s, step).files);
      case PromoteFile(j, linkFails) => FilePromotedOwns(s, j, linkFails);
      case MoveAside(j, key) => MoveAsideOwns(s, j, key);
      case Land(j) => LandOwns(s, j);
      case CleanUp(j, leftover) => CleanUpOwns(s, j, leftover);
      case PruneRecorded(ih, leftover) => PruneOwns(s.files, ih, leftover);
      case UserPuts(name, slot, next) => UserPutsOK(s.files, name, slot, next);
      case UserRemoves(name) =>
      case UserMoves(from, dest) =>
    }
  }

  // ---------- What a stage says about the disk ----------

  ghost predicate StageOK(s: State, j: JobId, st: Stage)
    requires Running(s, j)
  {
    var disk, inc := Path(s, j), s.files.incoming;
    match st
    case Fetching(_, prepared) => prepared ==> Claims(s, j)
    case Complete(_) => Claims(s, j)
    case Checking(_) => Claims(s, j)
    case Verified(_, what) => disk in inc && inc[disk] == what && Exactly(s.wants[j], what)
    case MovedAside(_, key, was, what) =>
      && disk in inc && inc[disk] == what && Exactly(s.wants[j], what) && what.Folder?
      && key in s.files.aside && s.files.aside[key] == was
    case Landed(key, was, what) => key in s.files.aside && s.files.aside[key] == was && Exactly(s.wants[j], what)
    case Ready(_, seen) => Holds(s.wants[j], seen)
    case Seeding(_, seen) => Holds(s.wants[j], seen)
    case _ => true
  }

  /** What a folder job downloads into .incoming is marked as its torrent's. */
  ghost predicate Claims(s: State, j: JobId)
    requires Running(s, j)
  {
    s.wants[j].WantDir? ==> Path(s, j) in s.files.owner && s.files.owner[Path(s, j)] == Ih(s, j)
  }

  ghost predicate StagesOK(s: State) {
    forall j <- s.stage :: Running(s, j) && StageOK(s, j, s.stage[j])
  }

  predicate KeepsAside(st: Stage) { st.MovedAside? || st.Landed? }

  /** Each older revision moved aside belongs to one job. */
  ghost predicate AsideApart(s: State) {
    forall j <- s.stage, k <- s.stage :: j != k && KeepsAside(s.stage[j]) && KeepsAside(s.stage[k]) ==>
      s.stage[j].key != s.stage[k].key
  }

  ghost predicate WantsOK(s: State) {
    forall j: JobId :: j < |s.jobs.table| ==> j in s.wants && s.wants[j] == WantOf(s.jobs.table[j].entry)
  }

  ghost predicate Inv(s: State) {
    Jobs.Inv(s.jobs) && WantsOK(s) && FilesOK(s.files) && StagesOK(s) && AsideApart(s)
  }

  ghost predicate Init(s: State) {
    && s.jobs == Jobs.INIT && s.stage == map[] && s.wants == map[] && s.downloaded == {}
    && s.files.incoming == map[] && s.files.aside == map[] && s.files.records == map[] && s.files.saved == map[]
    && s.files.own == {} && FilesOK(s.files)
  }

  /** Running jobs do not share a path. */
  lemma {:induction false} PathsApart(s: State, a: JobId, b: JobId)
    requires Jobs.Inv(s.jobs) && Running(s, a) && Running(s, b) && a != b
    ensures Path(s, a) != Path(s, b) && Ih(s, a) != Ih(s, b)
  {
    assert !Jobs.Clash(s.jobs, a, b) && !Jobs.Clash(s.jobs, b, a);
  }

  /** s' is s but for what job j did, in its own place in .incoming and with its own aside. */
  ghost predicate OneJobMoved(s: State, s': State, j: JobId) {
    && InStage(s', j) && s'.jobs == s.jobs && s'.wants == s.wants && s'.stage == s.stage[j := s'.stage[j]]
    && (forall n <- s.files.incoming :: n != Path(s, j) ==>
          n in s'.files.incoming && s'.files.incoming[n] == s.files.incoming[n])
    && (forall n <- s.files.owner :: n != Path(s, j) ==>
          n in s'.files.owner && s'.files.owner[n] == s.files.owner[n])
    && (forall k <- s.files.aside ::
          || (k in s'.files.aside && s'.files.aside[k] == s.files.aside[k])
          || (j in s.stage && KeepsAside(s.stage[j]) && s.stage[j].key == k))
    && (KeepsAside(s'.stage[j]) ==>
          s'.stage[j].key !in s.files.aside ||
            (j in s.stage && KeepsAside(s.stage[j]) && s.stage[j].key == s'.stage[j].key))
  }

  lemma {:induction false} OneJobKeeps(s: State, s': State, j: JobId)
    requires Jobs.Inv(s.jobs) && StagesOK(s) && AsideApart(s) && OneJobMoved(s, s', j) && StageOK(s', j, s'.stage[j])
    ensures StagesOK(s') && AsideApart(s')
  {
    forall k | k in s'.stage && k != j ensures Running(s', k) && StageOK(s', k, s'.stage[k]) {
      PathsApart(s, j, k);
      assert StageOK(s, k, s.stage[k]);
    }
    forall k | k in s'.stage && k != j && KeepsAside(s'.stage[k]) && KeepsAside(s'.stage[j])
      ensures s'.stage[k].key != s'.stage[j].key
    {
      assert StageOK(s, k, s.stage[k]);
    }
  }

  lemma {:induction false} JobStepKeeps(s: State, js: Jobs.Step, want: Want)
    requires Inv(s) && Enabled(s, JobStep(js, want))
    ensures Inv(Apply(s, JobStep(js, want)))
  {
    var s' := Apply(s, JobStep(js, want));
    Jobs.StepKeeps(s.jobs, js);
    JobStepStages(s, js, want);
    WantsKept(s, js, want);
  }

  lemma {:induction false} WantsKept(s: State, js: Jobs.Step, want: Want)
    requires WantsOK(s) && Enabled(s, JobStep(js, want))
    ensures WantsOK(Apply(s, JobStep(js, want)))
  {
    var s' := Apply(s, JobStep(js, want));
    forall j: JobId | j < |s'.jobs.table| ensures j in s'.wants && s'.wants[j] == WantOf(s'.jobs.table[j].entry) {
      if j < |s.jobs.table| { Jobs.StepFrame(s.jobs, js, j); }
    }
  }

  lemma {:induction false} JobStepStages(s: State, js: Jobs.Step, want: Want)
    requires StagesOK(s) && AsideApart(s) && Enabled(s, JobStep(js, want))
    ensures StagesOK(Apply(s, JobStep(js, want))) && AsideApart(Apply(s, JobStep(js, want)))
  {
    var s' := Apply(s, JobStep(js, want));
    forall j | j in s'.stage ensures Running(s', j) && StageOK(s', j, s'.stage[j]) {
      assert StageOK(s, j, s.stage[j]);
      Jobs.StepFrame(s.jobs, js, j);
    }
  }

  predicate ByJob(step: Step) {
    || step.Move? || step.Prepare? || step.Fetch? || step.Trim? || step.Verify? || step.PromoteFile?
    || step.MoveAside? || step.Land? || step.CannotLand? || step.DropAside? || step.CleanUp?
  }

  ghost predicate MovesAlone(s: State, step: Step)
    requires Enabled(s, step) && ByJob(step)
  {
    OneJobMoved(s, Apply(s, step), step.j) && StageOK(Apply(s, step), step.j, Apply(s, step).stage[step.j])
  }

  lemma {:induction false} MovesKeep(s: State, step: Step)
    requires StagesOK(s) && Enabled(s, step) && (step.Move? || step.Prepare? || step.Fetch?)
    ensures MovesAlone(s, step)
  {
    if step.Move? {
      MoveKeeps(s, step);
    } else if step.Prepare? {
      PrepareKeeps(s, step);
    } else {
      FetchKeeps(s, step);
    }
  }

  lemma {:induction false} MoveKeeps(s: State, step: Step)
    requires StagesOK(s) && Enabled(s, step) && step.Move?
    ensures MovesAlone(s, step)
  {
    if step.j in s.stage {
      assert StageOK(s, step.j, s.stage[step.j]);
    }
  }

  lemma {:induction false} PrepareKeeps(s: State, step: Step)
    requires Enabled(s, step) && step.Prepare?
    ensures MovesAlone(s, step)
  {
  }

  lemma {:induction false} FetchKeeps(s: State, step: Step)
    requires StagesOK(s) && Enabled(s, step) && step.Fetch?
    ensures MovesAlone(s, step)
  {
    assert StageOK(s, step.j, s.stage[step.j]);
    assert Apply(s, step).stage == s.stage[step.j := s.stage[step.j]];
  }

  lemma {:induction false} ChecksKeep(s: State, step: Step)
    requires StagesOK(s) && Enabled(s, step) && (step.Trim? || step.Verify? || step.CleanUp?)
    ensures MovesAlone(s, step)
  {
    match step
    case Trim(_) => TrimKeeps(s, step);
    case Verify(_) => VerifyKeeps(s, step);
    case CleanUp(j, leftover) => CleanUpKeeps(s, step);
  }

  lemma {:induction false} TrimKeeps(s: State, step: Step)
    requires StagesOK(s) && Enabled(s, step) && step.Trim?
    ensures MovesAlone(s, step)
  {
    assert StageOK(s, step.j, s.stage[step.j]);
  }

  lemma {:induction false} VerifyKeeps(s: State, step: Step)
    requires Enabled(s, step) && step.Verify?
    ensures MovesAlone(s, step)
  {
  }

  lemma {:induction false} CleanUpKeeps(s: State, step: Step)
    requires Enabled(s, step) && step.CleanUp?
    ensures MovesAlone(s, step)
  {
    CleanedUpShape(s, step.j, step.leftover);
    assert Apply(s, step) == CleanedUp(s, step.j, step.leftover);
  }

  /** A clean-up leaves everybody else's downloads, and what is aside, alone. */
  lemma {:induction false} CleanedUpShape(s: State, j: JobId, leftover: bool)
    requires j < |s.jobs.table|
    ensures
      var s', disk := CleanedUp(s, j, leftover), Path(s, j);
      && s'.jobs == s.jobs && s'.wants == s.wants && s'.stage == s.stage[j := Cleaned]
      && s'.files.aside == s.files.aside
      && (s'.files.incoming == s.files.incoming || s'.files.incoming == s.files.incoming - {disk})
      && (s'.files.owner == s.files.owner || s'.files.owner == s.files.owner - {disk})
  {
    if s.jobs.table[j].prune {
      var fs := Discard(s.files, Path(s, j));
      assert Prune(fs, Ih(s, j), leftover).incoming == fs.incoming && Prune(fs, Ih(s, j), leftover).aside == fs.aside;
    }
  }

  /** Landing moves the download out of .incoming to its place, and leaves what is aside alone. */
  lemma {:induction false} LandShape(s: State, j: JobId)
    requires Enabled(s, Land(j))
    ensures
      var s', disk, st := Apply(s, Land(j)), Path(s, j), s.stage[j];
      && s'.jobs == s.jobs && s'.wants == s.wants && s'.files.aside == s.files.aside
      && s'.files.owner == s.files.owner - {disk}
      && s'.stage == s.stage[j := if st.Verified? then Ready(InData, st.what) else Landed(st.key, st.was, st.what)]
      && s'.files.incoming == s.files.incoming - {disk} && s'.files.data == s.files.data[disk := s.files.incoming[disk]]
  {
  }

  /** What promoting a file can come to: nothing placed, or the download placed and recorded. */
  lemma {:induction false} FilePromotedShape(s: State, j: JobId, linkFails: bool)
    requires Enabled(s, PromoteFile(j, linkFails))
    ensures
      var s', disk := FilePromoted(s, j, linkFails), Path(s, j);
      && s'.jobs == s.jobs && s'.wants == s.wants && j in s'.stage && s'.stage == s.stage[j := s'.stage[j]]
      && s'.files.aside == s.files.aside
      && (s'.files.owner == s.files.owner || s'.files.owner == s.files.owner - {disk})
      && (|| (s'.stage[j] == Over && s'.files.incoming == s.files.incoming && s'.files.data.Keys <= s.files.data.Keys
              && forall n <- s'.files.data :: s'.files.data[n] == s.files.data[n])
          || (s'.stage[j] == Ready(InData, s.stage[j].what) && s'.files.incoming == s.files.incoming - {disk}
              && disk in s.files.incoming && !s.files.incoming[disk].Odd?
              && s'.files.data == s.files.data[disk := s.files.incoming[disk]]
              && Ih(s, j) in s'.files.records && s'.files.records[Ih(s, j)] == RecordOf(disk, s.files.incoming[disk])))
  {
    var disk, st := Path(s, j), s.stage[j];
    var stale := st.replace.Some? && StaleOwn(s, j, st.replace.value);
    if !(stale && !s.files.data[disk].Single?) {
      var fs := if stale then Unlink(s.files, disk, st.replace.value) else s.files;
      if !linkFails && Placeable(fs, disk) {
        assert Place(fs, disk, Ih(s, j)).data == s.files.data[disk := s.files.incoming[disk]];
      }
    }
  }

  lemma {:induction false} PromoteFileKeeps(s: State, step: Step)
    requires StagesOK(s) && Enabled(s, step) && step.PromoteFile?
    ensures MovesAlone(s, step)
  {
    FilePromotedShape(s, step.j, step.linkFails);
    assert StageOK(s, step.j, s.stage[step.j]);
    assert Apply(s, step) == FilePromoted(s, step.j, step.linkFails);
  }

  lemma {:induction false} AsidesKeep(s: State, step: Step)
    requires StagesOK(s) && Enabled(s, step) && (step.MoveAside? || step.CannotLand? || step.DropAside?)
    ensures MovesAlone(s, step)
  {
    match step
    case MoveAside(_, _) => MoveAsideKeeps(s, step);
    case CannotLand(_, _) => CannotLandKeeps(s, step);
    case DropAside(_) => DropAsideKeeps(s, step);
  }

  lemma {:induction false} CannotLandKeeps(s: State, step: Step)
    requires StagesOK(s) && Enabled(s, step) && step.CannotLand?
    ensures MovesAlone(s, step)
  {
    assert StageOK(s, step.j, s.stage[step.j]);
  }

  lemma {:induction false} DropAsideKeeps(s: State, step: Step)
    requires StagesOK(s) && Enabled(s, step) && step.DropAside?
    ensures MovesAlone(s, step)
  {
    assert StageOK(s, step.j, s.stage[step.j]);
  }

  lemma {:induction false} MoveAsideKeeps(s: State, step: Step)
    requires StagesOK(s) && Enabled(s, step) && step.MoveAside?
    ensures MovesAlone(s, step)
  {
    assert StageOK(s, step.j, s.stage[step.j]);
  }

  lemma {:induction false} LandKeeps(s: State, step: Step)
    requires StagesOK(s) && Enabled(s, step) && step.Land?
    ensures MovesAlone(s, step)
  {
    assert StageOK(s, step.j, s.stage[step.j]);
    LandShape(s, step.j);
  }

  /** Steps that touch no stage, nothing in .incoming and nothing aside. */
  lemma {:induction false} ElsewhereShape(s: State, step: Step)
    requires Enabled(s, step) && !ByJob(step) && !step.JobStep? && !step.Restart?
    ensures
      var s' := Apply(s, step);
      && s'.jobs == s.jobs && s'.wants == s.wants && s'.stage == s.stage
      && s'.files.incoming == s.files.incoming && s'.files.aside == s.files.aside && s'.files.owner == s.files.owner
  {
  }

  lemma {:induction false} SameStages(s: State, s': State)
    requires StagesOK(s) && AsideApart(s) && WantsOK(s) && s'.jobs == s.jobs && s'.wants == s.wants
    requires s'.stage == s.stage
    requires s'.files.incoming == s.files.incoming && s'.files.aside == s.files.aside && s'.files.owner == s.files.owner
    ensures StagesOK(s') && AsideApart(s') && WantsOK(s')
  {
    forall j | j in s'.stage ensures Running(s', j) && StageOK(s', j, s'.stage[j]) {
      assert StageOK(s, j, s.stage[j]);
    }
  }

  lemma {:induction false} ByJobKeeps(s: State, step: Step)
    requires StagesOK(s) && Enabled(s, step) && ByJob(step)
    ensures MovesAlone(s, step)
  {
    if step.Move? || step.Prepare? || step.Fetch? {
      MovesKeep(s, step);
    } else if step.Trim? || step.Verify? || step.CleanUp? {
      ChecksKeep(s, step);
    } else if step.PromoteFile? {
      PromoteFileKeeps(s, step);
    } else if step.Land? {
      LandKeeps(s, step);
    } else {
      AsidesKeep(s, step);
    }
  }

  lemma {:induction false} StepKeeps(s: State, step: Step)
    requires Inv(s) && Enabled(s, step)
    ensures Inv(Apply(s, step))
  {
    StepOwns(s, step);
    if step.JobStep? {
      JobStepKeeps(s, step.step, step.want);
    } else if step.Restart? {
      EmptyJobsInv();
    } else if ByJob(step) {
      ByJobKeeps(s, step);
      OneJobKeeps(s, Apply(s, step), step.j);
    } else {
      ElsewhereShape(s, step);
      SameStages(s, Apply(s, step));
    }
  }

  lemma {:induction false} EmptyJobsInv()
    ensures Jobs.Inv(Jobs.INIT)
  {
    assert Jobs.IsRun([]) && Jobs.After([]) == Jobs.INIT;
    Jobs.RunKeeps([]);
  }

  // ---------- What every run guarantees ----------

  ghost predicate IsRun(s: State, steps: seq<Step>)
    decreases |steps|
  {
    steps == [] || (Enabled(s, steps[0]) && IsRun(Apply(s, steps[0]), steps[1..]))
  }

  ghost function After(s: State, steps: seq<Step>): State
    requires IsRun(s, steps)
    decreases |steps|
  {
    if steps == [] then s else After(Apply(s, steps[0]), steps[1..])
  }

  lemma {:induction false} RunKeeps(s: State, steps: seq<Step>)
    requires Inv(s) && IsRun(s, steps)
    ensures Inv(After(s, steps))
    decreases |steps|
  {
    if steps != [] {
      StepKeeps(s, steps[0]);
      RunKeeps(Apply(s, steps[0]), steps[1..]);
    }
  }

  /** In every run, no step of the node removes or overwrites a file in data_dir unless viiwork-parrot placed and
      recorded it and it is still unchanged. */
  lemma {:induction false} NeverTouchesUserFiles(s: State, steps: seq<Step>, step: Step)
    requires Init(s) && IsRun(s, steps) && Enabled(After(s, steps), step) && !ByUser(step)
    ensures OnlyOwnGone(After(s, steps).files, Apply(After(s, steps), step).files)
  {
    EmptyJobsInv();
    RunKeeps(s, steps);
    StepOwns(After(s, steps), step);
  }

  /** How a step of the node can change what is at name: it puts a verified download of exactly the catalogued
      content there and records it, it puts an older revision back, or a prune leaves an empty folder. */
  ghost predicate WellPlaced(s: State, step: Step, name: string)
    requires Enabled(s, step) && name in Apply(s, step).files.data
  {
    var fs := Apply(s, step).files;
    || ((step.PromoteFile? || step.Land?) && Path(s, step.j) == name && Exactly(s.wants[step.j], fs.data[name]) &&
          OwnAt(fs, Ih(s, step.j), name))
    || (step.CannotLand? && Path(s, step.j) == name && s.stage[step.j].MovedAside? &&
          fs.data[name] == s.stage[step.j].was)
    || ((step.CleanUp? || step.PruneRecorded?) && fs.data[name] == Folder(map[]))
  }

  lemma {:induction false} PromotedFileIsVerified(s: State, j: JobId, linkFails: bool, name: string)
    requires FilesOK(s.files) && StagesOK(s) && Enabled(s, PromoteFile(j, linkFails))
    requires name in FilePromoted(s, j, linkFails).files.data
    requires name !in s.files.data || s.files.data[name] != FilePromoted(s, j, linkFails).files.data[name]
    ensures
      var fs := FilePromoted(s, j, linkFails).files;
      Path(s, j) == name && Exactly(s.wants[j], fs.data[name]) && OwnAt(fs, Ih(s, j), name)
  {
    assert StageOK(s, j, s.stage[j]);
    FilePromotedShape(s, j, linkFails);
    RecordOfOwn(s.files.own, s.files.clock, Path(s, j), s.files.incoming[Path(s, j)]);
  }

  lemma {:induction false} LandedFolderIsVerified(s: State, j: JobId, name: string)
    requires FilesOK(s.files) && StagesOK(s) && Enabled(s, Land(j)) && name in Apply(s, Land(j)).files.data
    requires name !in s.files.data || s.files.data[name] != Apply(s, Land(j)).files.data[name]
    ensures
      var fs := Apply(s, Land(j)).files;
      Path(s, j) == name && Exactly(s.wants[j], fs.data[name]) && OwnAt(fs, Ih(s, j), name)
  {
    assert StageOK(s, j, s.stage[j]);
    RecordOfOwn(s.files.own, s.files.clock, Path(s, j), s.files.incoming[Path(s, j)]);
  }

  predicate Placing(step: Step) {
    step.PromoteFile? || step.Land? || step.CannotLand? || step.CleanUp? || step.PruneRecorded?
  }

  lemma {:induction false} OthersPlaceNothing(s: State, step: Step)
    requires Enabled(s, step) && !ByUser(step) && !Placing(step)
    ensures forall name <- Apply(s, step).files.data ::
      name in s.files.data && s.files.data[name] == Apply(s, step).files.data[name]
  {
  }

  ghost predicate ChangesAt(s: State, step: Step, name: string)
    requires Enabled(s, step)
  {
    name in Apply(s, step).files.data &&
      (name !in s.files.data || s.files.data[name] != Apply(s, step).files.data[name])
  }

  lemma {:induction false} PlacingStep(s: State, step: Step, name: string)
    requires FilesOK(s.files) && StagesOK(s) && Enabled(s, step) && Placing(step) && ChangesAt(s, step, name)
    ensures WellPlaced(s, step, name)
  {
    match step
    case PromoteFile(j, linkFails) => PromotedFileIsVerified(s, j, linkFails, name);
    case Land(j) => LandedFolderIsVerified(s, j, name);
    case CannotLand(j, back) => assert StageOK(s, j, s.stage[j]);
    case CleanUp(j, leftover) => PruningPlaces(s, step, name);
    case PruneRecorded(ih, leftover) => PruningPlaces(s, step, name);
  }

  lemma {:induction false} PruningPlaces(s: State, step: Step, name: string)
    requires FilesOK(s.files) && StagesOK(s) && Enabled(s, step) && (step.CleanUp? || step.PruneRecorded?)
    requires ChangesAt(s, step, name)
    ensures WellPlaced(s, step, name)
  {
  }

  /** Everything a job places at a data path is exactly the catalogued content, every file of it and nothing else. */
  lemma {:induction false} PlacedIsVerified(s: State, steps: seq<Step>, step: Step, name: string)
    requires Init(s) && IsRun(s, steps) && Enabled(After(s, steps), step) && !ByUser(step)
    requires ChangesAt(After(s, steps), step, name)
    ensures WellPlaced(After(s, steps), step, name)
    ensures step.PromoteFile? || step.Land? ==>
      HasExactly(After(s, steps).jobs.table[step.j].entry, Apply(After(s, steps), step).files.data[name])
  {
    EmptyJobsInv();
    RunKeeps(s, steps);
    if step.PromoteFile? || step.Land? {
      WantIsExact(After(s, steps).jobs.table[step.j].entry, Apply(After(s, steps), step).files.data[name]);
    }
    if Placing(step) {
      PlacingStep(After(s, steps), step, name);
    } else {
      OthersPlaceNothing(After(s, steps), step);
    }
  }

  /** Only a job's own steps, and a restart, change where it is. */
  lemma {:induction false} OthersLeaveIt(s: State, step: Step, j: JobId)
    requires StagesOK(s) && Enabled(s, step) && !step.Restart? && !(ByJob(step) && step.j == j)
    ensures j in Apply(s, step).stage ==> j in s.stage && Apply(s, step).stage[j] == s.stage[j]
    ensures j in s.stage && !(step.JobStep? && step.step == Jobs.Finish(j)) ==> j in Apply(s, step).stage
  {
    if ByJob(step) {
      ByJobKeeps(s, step);
    }
  }

  /** A step that newly gets job j to Ready, Landed or Seeding. */
  ghost predicate Arrives(s: State, s': State, j: JobId) {
    j in s'.stage && !(j in s.stage && s.stage[j] == s'.stage[j])
  }

  /** What job j is about to seed is at its data path now, or landed there just before. */
  ghost predicate SeenThere(s: State, s': State, j: JobId, seen: Slot)
    requires j < |s.jobs.table|
  {
    || (Path(s, j) in s'.files.data && s'.files.data[Path(s, j)] == seen)
    || (j in s.stage && s.stage[j].Landed? && s.stage[j].what == seen)
  }

  ghost predicate SeedsRightly(s: State, s': State, j: JobId)
    requires j < |s.jobs.table|
  {
    Arrives(s, s', j) ==>
      match s'.stage[j]
      case Seeding(at, seen) => j in s.stage && s.stage[j] == Ready(at, seen)
      case Ready(InData, seen) => SeenThere(s, s', j, seen)
      case Ready(Elsewhere(path), seen) => path in s'.outside && s'.outside[path] == seen
      case Landed(_, _, what) => Path(s, j) in s'.files.data && s'.files.data[Path(s, j)] == what
      case _ => true
  }

  lemma {:induction false} SeedStep(s: State, step: Step)
    requires StagesOK(s) && Enabled(s, step) && ByJob(step) && !step.PromoteFile? && !step.Land?
    ensures SeedsRightly(s, Apply(s, step), step.j)
  {
  }

  lemma {:induction false} SeedAfterPromotion(s: State, step: Step)
    requires StagesOK(s) && Enabled(s, step) && (step.PromoteFile? || step.Land?)
    ensures SeedsRightly(s, Apply(s, step), step.j)
  {
    assert StageOK(s, step.j, s.stage[step.j]);
    if step.Land? {
      LandShape(s, step.j);
    } else {
      FilePromotedShape(s, step.j, step.linkFails);
      assert Apply(s, step) == FilePromoted(s, step.j, step.linkFails);
    }
  }

  lemma {:induction false} SeedsRightlyStep(s: State, step: Step, j: JobId)
    requires StagesOK(s) && Enabled(s, step) && j < |s.jobs.table|
    ensures SeedsRightly(s, Apply(s, step), j)
  {
    if ByJob(step) && step.j == j {
      if step.PromoteFile? || step.Land? {
        SeedAfterPromotion(s, step);
      } else {
        SeedStep(s, step);
      }
    } else if !step.Restart? {
      OthersLeaveIt(s, step, j);
    }
  }

  /** A job gets to seeding only from a copy verified in this same run: found at its data path or elsewhere, or
      landed at its data path. */
  lemma {:induction false} SeedsWhatItVerified(s: State, steps: seq<Step>, step: Step, j: JobId)
    requires Init(s) && IsRun(s, steps) && Enabled(After(s, steps), step) && j < |After(s, steps).jobs.table|
    ensures SeedsRightly(After(s, steps), Apply(After(s, steps), step), j)
    ensures InStage(After(s, steps), j) && After(s, steps).stage[j].Seeding? ==>
      HasAll(After(s, steps).jobs.table[j].entry, After(s, steps).stage[j].seen)
  {
    EmptyJobsInv();
    RunKeeps(s, steps);
    SeedsRightlyStep(After(s, steps), step, j);
    if InStage(After(s, steps), j) && After(s, steps).stage[j].Seeding? {
      assert StageOK(After(s, steps), j, After(s, steps).stage[j]);
      WantIsExact(After(s, steps).jobs.table[j].entry, After(s, steps).stage[j].seen);
    }
  }

  // ---------- Replacing a folder ----------

  /** Between the two renames, and whatever happens next: the new revision is in .incoming until it lands, the old
      one is aside, and every way out leaves both accounted for. */
  lemma {:induction false} ReplacementStep(s: State, step: Step, j: JobId)
    requires Inv(s) && Enabled(s, step) && j in s.stage && s.stage[j].MovedAside?
    ensures
      var s', st, disk := Apply(s, step), s.stage[j], Path(s, j);
      var fs, fs' := s.files, s'.files;
      && disk in fs.incoming && fs.incoming[disk] == st.what && st.key in fs.aside && fs.aside[st.key] == st.was
      && (|| (j in s'.stage && s'.stage[j] == st && disk in fs'.incoming && fs'.incoming[disk] == st.what
              && st.key in fs'.aside && fs'.aside[st.key] == st.was)
          || (step == Land(j) && disk in fs'.data && fs'.data[disk] == st.what && disk !in fs'.incoming
              && st.key in fs'.aside && fs'.aside[st.key] == st.was)
          || (step == CannotLand(j, true) && disk !in fs.data && fs'.data == fs.data[disk := st.was]
              && fs'.aside == fs.aside - {st.key}
              && fs'.incoming == fs.incoming && fs'.records == fs.records)
          || (step == CannotLand(j, false) && fs' == fs)
          || (step.Restart? && fs'.data == fs.data && fs'.incoming == fs.incoming))
  {
    assert StageOK(s, j, s.stage[j]);
    if step == Land(j) {
      LandShape(s, j);
    } else if !step.Restart? && !(step.CannotLand? && step.j == j) {
      assert !(ByJob(step) && step.j == j);
      AsideKept(s, step, j);
    }
  }

  lemma {:induction false} SamePath(s: State, step: Step, j: JobId)
    requires StagesOK(s) && Enabled(s, step) && !step.Restart? && j < |s.jobs.table|
    ensures j < |Apply(s, step).jobs.table| && Path(Apply(s, step), j) == Path(s, j)
    ensures Ih(Apply(s, step), j) == Ih(s, j)
  {
    if ByJob(step) {
      ByJobKeeps(s, step);
    } else if step.JobStep? {
      Jobs.StepFrame(s.jobs, step.step, j);
    }
  }

  /** While its folder is between the two renames, a job does nothing else, and nobody else moves it on. */
  lemma {:induction false} ReplacementUndisturbed(s: State, step: Step, j: JobId)
    requires StagesOK(s) && Enabled(s, step) && j in s.stage && s.stage[j].MovedAside?
    requires !step.Restart? && step != Land(j) && !(step.CannotLand? && step.j == j)
    ensures j in Apply(s, step).stage && Apply(s, step).stage[j] == s.stage[j]
  {
    assert !(ByJob(step) && step.j == j);
    OthersLeaveIt(s, step, j);
  }

  /** Once the new revision has landed, the old one stays aside until j drops it or start-up cleans it away. */
  lemma {:induction false} LandedStep(s: State, step: Step, j: JobId)
    requires Inv(s) && Enabled(s, step) && j in s.stage && s.stage[j].Landed?
    ensures
      var s', st := Apply(s, step), s.stage[j];
      var fs, fs' := s.files, s'.files;
      && st.key in fs.aside && fs.aside[st.key] == st.was && Exactly(s.wants[j], st.what)
      && (|| (j in s'.stage && s'.stage[j] == st && st.key in fs'.aside && fs'.aside[st.key] == st.was)
          || (step == DropAside(j) && s'.stage[j] == Ready(InData, st.what) && fs' == fs.(aside := fs.aside - {st.key}))
          || (step.Restart? && fs'.data == fs.data && fs'.incoming == fs.incoming))
  {
    assert StageOK(s, j, s.stage[j]);
    if !step.Restart? && step != DropAside(j) {
      assert !(ByJob(step) && step.j == j);
      AsideKept(s, step, j);
    }
  }

  /** What a job has moved aside stays there while others take steps, and so does the download it is to make way for. */
  lemma {:induction false} AsideKept(s: State, step: Step, j: JobId)
    requires Inv(s) && Enabled(s, step) && j in s.stage && KeepsAside(s.stage[j])
    requires !step.Restart? && !(ByJob(step) && step.j == j)
    ensures
      var s', st := Apply(s, step), s.stage[j];
      && j in s'.stage && s'.stage[j] == st && st.key in s'.files.aside && s'.files.aside[st.key] == st.was
      && (st.MovedAside? ==> Path(s, j) in s'.files.incoming && s'.files.incoming[Path(s, j)] == st.what)
  {
    StepKeeps(s, step);
    OthersLeaveIt(s, step, j);
    SamePath(s, step, j);
    assert StageOK(Apply(s, step), j, s.stage[j]);
  }

  /** The steps that drop or rewrite the record under prior: a prune of it, a claim or a promotion by a job for that
      torrent or over it, and the pruning clean-up of such a job. */
  ghost predicate Rewrites(s: State, step: Step, prior: string)
    requires Enabled(s, step)
  {
    match step
    case PruneRecorded(ih, _) => ih == prior
    case Claim(k, _) => Ih(s, k) == prior && !Recorded(s, k)
    case PromoteFile(k, linkFails) => Ih(s, k) == prior && FilePromoted(s, k, linkFails).stage[k].Ready?
    case Land(k) => Ih(s, k) == prior || (s.stage[k].MovedAside? && s.stage[k].prior == prior)
    case CleanUp(k, _) => Ih(s, k) == prior && s.jobs.table[k].prune && k in s.downloaded
    case _ => false
  }

  predicate MayRewrite(step: Step) {
    step.Claim? || step.PromoteFile? || step.Land? || step.CleanUp? || step.PruneRecorded?
  }

  lemma {:induction false} OthersWriteNoRecords(s: State, step: Step)
    requires Enabled(s, step) && !MayRewrite(step) && !step.Restart?
    ensures Apply(s, step).files.records == s.files.records
  {
  }

  /** A job at another path leaves the record alone exactly if it does not rewrite it, and then it is for another
      path. */
  lemma {:induction false} PromoteRewrites(s: State, k: JobId, linkFails: bool, prior: string, path: string)
    requires Enabled(s, PromoteFile(k, linkFails)) && Path(s, k) != path
    ensures
      var fs, fs' := s.files, FilePromoted(s, k, linkFails).files;
      && (RecordFor(fs', prior, path) <==> RecordFor(fs, prior, path) && !Rewrites(s, PromoteFile(k, linkFails), prior))
      && (RecordFor(fs', prior, path) ==> fs'.records[prior] == fs.records[prior])
  {
    var disk, st := Path(s, k), s.stage[k];
    var stale := st.replace.Some? && StaleOwn(s, k, st.replace.value);
    if !(stale && !s.files.data[disk].Single?) {
      var fs := if stale then Unlink(s.files, disk, st.replace.value) else s.files;
      assert RecordFor(fs, prior, path) <==> RecordFor(s.files, prior, path);
      if !linkFails && Placeable(fs, disk) {
        PlaceRecords(fs, disk, Ih(s, k), prior, path);
      }
    }
  }

  lemma {:induction false} LandRewrites(s: State, k: JobId, prior: string, path: string)
    requires Enabled(s, Land(k)) && Path(s, k) != path
    ensures
      var fs, fs' := s.files, Apply(s, Land(k)).files;
      && (RecordFor(fs', prior, path) <==> RecordFor(fs, prior, path) && !Rewrites(s, Land(k), prior))
      && (RecordFor(fs', prior, path) ==> fs'.records[prior] == fs.records[prior])
  {
  }

  lemma {:induction false} ClaimRewrites(s: State, k: JobId, q: string, prior: string, path: string)
    requires Enabled(s, Claim(k, q)) && Path(s, k) != path
    ensures
      var fs, fs' := s.files, Apply(s, Claim(k, q)).files;
      && (RecordFor(fs', prior, path) <==> RecordFor(fs, prior, path) && !Rewrites(s, Claim(k, q), prior))
      && (RecordFor(fs', prior, path) ==> fs'.records[prior] == fs.records[prior])
  {
  }

  lemma {:induction false} PruneRewrites(s: State, step: Step, prior: string, path: string)
    requires Enabled(s, step) && (step.CleanUp? || step.PruneRecorded?)
    ensures
      var fs, fs' := s.files, Apply(s, step).files;
      && (RecordFor(fs', prior, path) <==> RecordFor(fs, prior, path) && !Rewrites(s, step, prior))
      && (RecordFor(fs', prior, path) ==> fs'.records[prior] == fs.records[prior])
  {
  }

  /** While job j runs, any step that is not its own keeps a record for j's path exactly if it does not rewrite it, and
      no step makes one: a record that is lost does not come back. */
  lemma {:induction false} RecordStep(s: State, step: Step, j: JobId, prior: string)
    requires Jobs.Inv(s.jobs) && Enabled(s, step) && InStage(s, j) && s.stage[j].MovedAside?
    requires !step.Restart? && !(ByJob(step) && step.j == j)
    ensures
      var fs, fs', path := s.files, Apply(s, step).files, Path(s, j);
      && (RecordFor(fs', prior, path) <==> RecordFor(fs, prior, path) && !Rewrites(s, step, prior))
      && (RecordFor(fs', prior, path) ==> fs'.records[prior] == fs.records[prior])
  {
    if !MayRewrite(step) {
      OthersWriteNoRecords(s, step);
    } else if step.PruneRecorded? {
      PruneRewrites(s, step, prior, Path(s, j));
    } else {
      assert step.j != j;
      PathsApart(s, j, step.j);
      JobRewrites(s, step, prior, Path(s, j));
    }
  }

  lemma {:induction false} JobRewrites(s: State, step: Step, prior: string, path: string)
    requires Enabled(s, step) && MayRewrite(step) && !step.PruneRecorded? && Path(s, step.j) != path
    ensures
      var fs, fs' := s.files, Apply(s, step).files;
      && (RecordFor(fs', prior, path) <==> RecordFor(fs, prior, path) && !Rewrites(s, step, prior))
      && (RecordFor(fs', prior, path) ==> fs'.records[prior] == fs.records[prior])
  {
    match step
    case Claim(k, q) => ClaimRewrites(s, k, q, prior, path);
    case PromoteFile(k, linkFails) => PromoteRewrites(s, k, linkFails, prior, path);
    case Land(k) => LandRewrites(s, k, prior, path);
    case CleanUp(_, _) => PruneRewrites(s, step, prior, path);
  }

  /** A run without a crash in which job j itself does nothing. */
  ghost predicate Meanwhile(steps: seq<Step>, j: JobId) {
    forall step <- steps :: !step.Restart? && !(ByJob(step) && step.j == j)
  }

  ghost predicate NoneRewrites(s: State, steps: seq<Step>, prior: string)
    requires IsRun(s, steps)
    decreases |steps|
  {
    steps == [] || (!Rewrites(s, steps[0], prior) && NoneRewrites(Apply(s, steps[0]), steps[1..], prior))
  }

  lemma {:induction false} AsideThroughout(s: State, steps: seq<Step>, j: JobId, prior: string)
    requires Inv(s) && IsRun(s, steps) && InStage(s, j) && s.stage[j].MovedAside? && Meanwhile(steps, j)
    ensures
      var t := After(s, steps);
      && Inv(t) && InStage(t, j) && t.stage[j] == s.stage[j] && Path(t, j) == Path(s, j)
      && (RecordFor(t.files, prior, Path(s, j)) <==>
            RecordFor(s.files, prior, Path(s, j)) && NoneRewrites(s, steps, prior))
      && (RecordFor(t.files, prior, Path(s, j)) ==> t.files.records[prior] == s.files.records[prior])
    decreases |steps|
  {
    if steps != [] {
      assert steps[0] in steps && Meanwhile(steps[1..], j);
      StepKeeps(s, steps[0]);
      ReplacementUndisturbed(s, steps[0], j);
      SamePath(s, steps[0], j);
      RecordStep(s, steps[0], j, prior);
      AsideThroughout(Apply(s, steps[0]), steps[1..], j, prior);
    }
  }

  /** If the new folder cannot be moved in and the old one can be moved back, the old directory is exactly as before
      and the verified download is still in .incoming, whatever else went on meanwhile; and the record is exactly as
      before if and only if no step meanwhile dropped or rewrote it. */
  lemma {:induction false} PutBackExactly(s: State, j: JobId, key: nat, steps: seq<Step>)
    requires Inv(s) && Enabled(s, MoveAside(j, key)) && IsRun(Apply(s, MoveAside(j, key)), steps)
    requires Meanwhile(steps, j) && Enabled(After(Apply(s, MoveAside(j, key)), steps), CannotLand(j, true))
    ensures
      var prior, disk := s.stage[j].replace.value, Path(s, j);
      var fs := Apply(After(Apply(s, MoveAside(j, key)), steps), CannotLand(j, true)).files;
      && disk in fs.data && fs.data[disk] == s.files.data[disk]
      && disk in fs.incoming && fs.incoming[disk] == s.stage[j].what
      && (RecordIs(fs, prior, s.files.records[prior]) <==> NoneRewrites(Apply(s, MoveAside(j, key)), steps, prior))
      && (OwnAt(fs, prior, disk) <==> NoneRewrites(Apply(s, MoveAside(j, key)), steps, prior))
  {
    var s1, prior := Apply(s, MoveAside(j, key)), s.stage[j].replace.value;
    StepKeeps(s, MoveAside(j, key));
    JustMovedAside(s, j, key);
    AsideThroughout(s1, steps, j, prior);
    BackWhereItWas(After(s1, steps), j, prior);
  }

  lemma {:induction false} JustMovedAside(s: State, j: JobId, key: nat)
    requires Enabled(s, MoveAside(j, key))
    ensures
      var s1, prior, disk := Apply(s, MoveAside(j, key)), s.stage[j].replace.value, Path(s, j);
      && InStage(s1, j) && s1.stage[j] == MovedAside(prior, key, s.files.data[disk], s.stage[j].what)
      && Path(s1, j) == disk && s1.files.records == s.files.records
      && RecordFor(s.files, prior, disk) && Unchanged(s.files.records[prior], s.files.data[disk])
  {
  }

  lemma {:induction false} BackWhereItWas(t: State, j: JobId, prior: string)
    requires StagesOK(t) && Enabled(t, CannotLand(j, true))
    ensures
      var fs, st, disk := Apply(t, CannotLand(j, true)).files, t.stage[j], Path(t, j);
      && disk in fs.data && fs.data[disk] == st.was && disk in fs.incoming && fs.incoming[disk] == st.what
      && fs.records == t.files.records
      && (OwnAt(fs, prior, disk) <==> RecordFor(t.files, prior, disk) && Unchanged(t.files.records[prior], st.was))
  {
    assert StageOK(t, j, t.stage[j]);
  }
}
