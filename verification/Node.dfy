/** The node's manager: the fields guarded by its lock and the operations that change them. Every
    change to the jobs is a step of the Jobs machine, so what is proved of all runs holds here. */
module Node {
  import opened Catalog
  import opened Jobs

  // ---------- The torrents of a catalogue ----------

  /** What each torrent of a model asks a node to serve. */
  function EntryOf(m: Model, f: File): Entry { Entry(m.id, f, DiskName(f), if IsDir(m) then Some(m) else None) }

  function Entries(m: Model): seq<Entry> {
    seq(|Units(m)|, k requires 0 <= k < |Units(m)| => EntryOf(m, Units(m)[k]))
  }

  function AllEntries(ms: seq<Model>): seq<Entry> {
    if ms == [] then [] else AllEntries(ms[..|ms| - 1]) + Entries(ms[|ms| - 1])
  }

  ghost predicate EntriesApart(es: seq<Entry>) {
    forall i, j {:trigger es[i], es[j]} ::
      0 <= i < j < |es| ==> es[i].f.infoHash != es[j].f.infoHash && es[i].disk != es[j].disk
  }

  lemma {:induction false} EntryOrigin(ms: seq<Model>, e: Entry) returns (i: nat, k: nat)
    requires e in AllEntries(ms)
    ensures i < |ms| && k < |Units(ms[i])| && e == EntryOf(ms[i], Units(ms[i])[k])
  {
    var front, last := ms[..|ms| - 1], ms[|ms| - 1];
    if e in Entries(last) {
      i := |ms| - 1;
      k :| 0 <= k < |Entries(last)| && Entries(last)[k] == e;
    } else {
      i, k := EntryOrigin(front, e);
    }
  }

  /** The entries of an accepted catalogue have distinct infohashes and disk names. */
  lemma {:induction false} AcceptedEntriesApart(p: Parsers, ms: seq<Model>)
    requires Acceptable(p, ms)
    ensures EntriesApart(AllEntries(ms))
  {
    if ms != [] {
      var n := |ms| - 1;
      var front, last := AllEntries(ms[..n]), Entries(ms[n]);
      PrefixAcceptable(p, ms, n);
      AcceptedEntriesApart(p, ms[..n]);
      forall a, b | 0 <= a < |front| && 0 <= b < |last|
        ensures front[a].f.infoHash != last[b].f.infoHash && front[a].disk != last[b].disk
      {
        var i, k := EntryOrigin(ms[..n], front[a]);
        UnitsApart(p, ms, i, k, n, b);
      }
      forall a, b | 0 <= a < b < |last|
        ensures last[a].f.infoHash != last[b].f.infoHash && last[a].disk != last[b].disk
      {
        UnitsApart(p, ms, n, a, n, b);
      }
    }
  }

  /** Every torrent of every model has its entry, and nothing else has one. */
  lemma {:induction false} EntriesAreUnits(ms: seq<Model>, e: Entry)
    ensures e in AllEntries(ms) <==> exists m <- ms :: exists f <- Units(m) :: e == EntryOf(m, f)
  {
    if ms != [] {
      var front, last := ms[..|ms| - 1], ms[|ms| - 1];
      assert ms == front + [last];
      EntriesAreUnits(front, e);
      UnitsHaveEntries(last, e);
      assert forall m: Model :: m in ms <==> m in front || m == last;
    }
  }

  lemma {:induction false} UnitsHaveEntries(m: Model, e: Entry)
    ensures e in Entries(m) <==> exists f <- Units(m) :: e == EntryOf(m, f)
  {
    var es := Entries(m);
    if f :| f in Units(m) && e == EntryOf(m, f) {
      var k :| 0 <= k < |Units(m)| && Units(m)[k] == f;
      assert es[k] == e;
    }
  }

  // ---------- What is asked of a node ----------

  /** The configuration asks for everything or for this model, or somebody has. */
  predicate Asked(want: seq<string>, extra: set<string>, id: string) { "*" in want || id in want || id in extra }

  /** The torrents of a model: a folder's one, or one per file. */
  ghost predicate HasTorrent(m: Model, ih: string) {
    if m.layout == "dir" then ih == m.infoHash else exists f <- m.files :: f.infoHash == ih
  }

  /** Exactly the torrents of the models asked for are being served. */
  ghost predicate ServesExactly(ms: seq<Model>, want: seq<string>, extra: set<string>, live: set<string>) {
    && (forall m <- ms, ih: string :: HasTorrent(m, ih) ==> (ih in live <==> Asked(want, extra, m.id)))
    && (forall ih <- live :: exists m <- ms :: HasTorrent(m, ih) && Asked(want, extra, m.id))
  }

  lemma {:induction false} TorrentIsUnit(m: Model, ih: string)
    ensures HasTorrent(m, ih) <==> exists f <- Units(m) :: f.infoHash == ih
  {
    if IsDir(m) {
      assert Units(m)[0] == DirUnit(m) && DirUnit(m) in Units(m);
    }
  }

  /** The job's model is asked for and still lists its torrent as the job has it. */
  ghost predicate StillAsked(ms: seq<Model>, want: seq<string>, extra: set<string>, j: Job) {
    exists m <- ms :: Asked(want, extra, m.id) && j.entry.model == m.id && ListsTorrent(m, j.entry.f)
  }

  ghost predicate ListsTorrent(m: Model, f: File) {
    if m.layout == "dir" then f == File(m.id, "", SumSizes(m.files), "", m.infoHash, m.magnet) else f in m.files
  }

  lemma {:induction false} ListedIsUnit(m: Model, f: File)
    ensures ListsTorrent(m, f) <==> f in Units(m)
  {
    if IsDir(m) {
      assert Units(m) == [DirUnit(m)];
    }
  }

  /** A job that was live goes on exactly if it is still asked for, unless it failed and is to be retried; and what it
      downloaded is to be pruned only if pruning is on and its torrent has left the catalogue. */
  ghost predicate Stopped(ms: seq<Model>, want: seq<string>, extra: set<string>, prune: bool, retryFailed: bool,
      was: Job, now: Job)
  {
    && (!now.cancelled <==> StillAsked(ms, want, extra, was) && !(retryFailed && was.outcome.Failed?))
    && (now.cancelled ==> (now.prune <==> prune && forall m <- ms :: !HasTorrent(m, Ih(was))))
  }

  ghost predicate StopsExactly(ms: seq<Model>, want: seq<string>, extra: set<string>, prune: bool, retryFailed: bool,
      was: seq<Job>, now: seq<Job>)
  {
    && |was| <= |now|
    && forall k :: 0 <= k < |was| && !was[k].cancelled ==> Stopped(ms, want, extra, prune, retryFailed, was[k], now[k])
  }

  // ---------- What a reconcile works towards ----------

  datatype Wish = Wish(all: bool, ids: set<string>)

  predicate Wants(w: Wish, id: string) { w.all || id in w.ids }

  /** The wanted torrents by infohash. */
  function Keep(es: seq<Entry>, w: Wish): map<string, Entry> {
    if es == [] then map[]
    else
      var front, e := Keep(es[..|es| - 1], w), es[|es| - 1];
      if Wants(w, e.model) then front[e.f.infoHash := e] else front
  }

  method WantedByInfoHash(es: seq<Entry>, w: Wish) returns (keep: map<string, Entry>)
    ensures keep == Keep(es, w)
  {
    keep := map[];
    for i := 0 to |es|
      invariant keep == Keep(es[..i], w)
    {
      assert es[..i + 1][..i] == es[..i];
      if Wants(w, es[i].model) {
        keep := keep[es[i].f.infoHash := es[i]];
      }
    }
    assert es[..|es|] == es;
  }

  /** Keep is every wanted torrent and nothing else. */
  lemma {:induction false} KeepIsWanted(es: seq<Entry>, w: Wish)
    requires EntriesApart(es)
    ensures forall ih <- Keep(es, w) ::
      Keep(es, w)[ih] in es && Wants(w, Keep(es, w)[ih].model) && Keep(es, w)[ih].f.infoHash == ih
    ensures forall e <- es :: Wants(w, e.model) ==> e.f.infoHash in Keep(es, w) && Keep(es, w)[e.f.infoHash] == e
  {
    if es != [] {
      var n := |es| - 1;
      KeepIsWanted(es[..n], w);
      assert es == es[..n] + [es[n]];
      forall e <- es[..n] ensures e.f.infoHash != es[n].f.infoHash {
        var k :| 0 <= k < n && es[k] == e;
      }
    }
  }

  /** No two wanted torrents are stored under one name. */
  lemma {:induction false} KeepApart(es: seq<Entry>, w: Wish, a: string, b: string)
    requires EntriesApart(es) && a in Keep(es, w) && b in Keep(es, w) && a != b
    ensures Keep(es, w)[a].disk != Keep(es, w)[b].disk
  {
    KeepIsWanted(es, w);
    var i :| 0 <= i < |es| && es[i] == Keep(es, w)[a];
    var j :| 0 <= j < |es| && es[j] == Keep(es, w)[b];
  }

  datatype Goal = Goal(keep: map<string, Entry>, known: set<string>, prune: bool, retryFailed: bool)

  ghost predicate GoalOK(g: Goal) {
    && (forall ih <- g.keep :: g.keep[ih].f.infoHash == ih && ih in g.known)
    && (forall a <- g.keep, b <- g.keep :: a != b ==> g.keep[a].disk != g.keep[b].disk)
  }

  /** What a reconcile compares: the model and the torrent, which its disk name follows from, not a folder's listing. */
  predicate SameUnit(a: Entry, b: Entry) { a.model == b.model && a.f == b.f && a.disk == b.disk }

  /** A live job a reconcile leaves alone. */
  predicate Stays(g: Goal, j: Job) {
    Ih(j) in g.keep && SameUnit(g.keep[Ih(j)], j.entry) && !(g.retryFailed && j.outcome.Failed?)
  }

  /** Job k once it has been reviewed: left alone, or stopped, to be pruned only if prune is on and its
      torrent has left the catalogue. */
  function Reviewed(g: Goal, s: State, k: JobId): Job
    requires k < |s.table|
  {
    var j := s.table[k];
    if !IsLive(s, k) || Stays(g, j) then j else j.(cancelled := true, prune := g.prune && Ih(j) !in g.known)
  }

  /** The jobs of s0 have been reviewed, and any job after them has only just been started. */
  ghost predicate ReviewedAll(g: Goal, s0: State, s: State) {
    && |s0.table| <= |s.table|
    && (forall k: JobId {:trigger s.table[k]} :: k < |s0.table| ==> s.table[k] == Reviewed(g, s0, k))
    && (forall k: JobId {:trigger s.table[k]} :: |s0.table| <= k < |s.table| ==>
          s.table[k].phase.Waiting? && !s.table[k].cancelled)
  }

  /** Jobs were started, and nothing else. */
  ghost predicate Grown(s1: State, s: State) { s1.table <= s.table && NewWaiting(s1, s) }

  ghost predicate NewWaiting(s1: State, s: State) {
    forall k: JobId {:trigger s.table[k]} :: |s1.table| <= k < |s.table| ==>
      s.table[k].phase.Waiting? && !s.table[k].cancelled
  }

  /** The live jobs are exactly one per wanted torrent, each for the current model and torrent. */
  ghost predicate Settled(keep: map<string, Entry>, s: State) {
    && s.live.Keys == keep.Keys
    && forall ih <- s.live :: s.live[ih] < |s.table| && SameUnit(s.table[s.live[ih]].entry, keep[ih])
  }

  /** And each carries the current entry whole, a folder's listing included. */
  ghost predicate Current(keep: map<string, Entry>, s: State) {
    && s.live.Keys == keep.Keys
    && forall ih <- s.live :: s.live[ih] < |s.table| && s.table[s.live[ih]].entry == keep[ih]
  }

  /** No live job that a reconcile leaves alone is on an outdated listing. */
  ghost predicate UpToDate(g: Goal, s: State) {
    forall ih <- s.live :: s.live[ih] < |s.table| && Stays(g, s.table[s.live[ih]]) ==>
      ih in g.keep && s.table[s.live[ih]].entry == g.keep[ih]
  }

  ghost predicate LiveStay(g: Goal, s: State) {
    forall ih <- s.live :: s.live[ih] < |s.table| && Ih(s.table[s.live[ih]]) == ih && Stays(g, s.table[s.live[ih]])
  }

  ghost predicate LiveCurrent(keep: map<string, Entry>, s: State) {
    forall ih <- s.live :: s.live[ih] < |s.table| && ih in keep && s.table[s.live[ih]].entry == keep[ih]
  }

  /** No two catalogues list one torrent of one model differently. */
  ghost predicate Steady(es: set<Entry>) {
    forall a <- es, b <- es :: SameUnit(a, b) ==> a == b
  }

  // ---------- Retiring ----------

  /** From s0, every live job has been reviewed except those in todo. */
  ghost predicate Partway(g: Goal, s0: State, s: State, todo: set<string>) {
    && |s.table| == |s0.table| && todo <= s.live.Keys && s.closed == s0.closed
    && (forall ih <- s.live :: ih in s0.live && s.live[ih] == s0.live[ih])
    && (forall ih <- s0.live :: ih in s.live <==>
          ih in todo || (s0.live[ih] < |s0.table| && Stays(g, s0.table[s0.live[ih]])))
    && (forall k: JobId {:trigger s.table[k]} :: k < |s.table| ==>
          s.table[k] == if Ih(s0.table[k]) in todo then s0.table[k] else Reviewed(g, s0, k))
    && (s.live == s0.live ==> s == s0)
  }

  lemma {:induction false} ReviewOne(g: Goal, s0: State, s: State, todo: set<string>, ih: string)
    requires MapsOK(s0) && Partway(g, s0, s, todo) && ih in todo && GoalOK(g)
    ensures s.live[ih] < |s.table| && s.table[s.live[ih]] == s0.table[s.live[ih]] && Ih(s.table[s.live[ih]]) == ih
    ensures Stays(g, s.table[s.live[ih]]) ==> Partway(g, s0, s, todo - {ih})
    ensures !Stays(g, s.table[s.live[ih]]) ==>
      Partway(g, s0, Apply(s, Retire(ih, g.prune && ih !in g.known)), todo - {ih})
  {
    var j := s.live[ih];
    assert IsLive(s0, j);
    if !Stays(g, s.table[j]) {
      RetireOne(g, s0, s, todo, ih);
    }
  }

  lemma {:induction false} RetireOne(g: Goal, s0: State, s: State, todo: set<string>, ih: string)
    requires MapsOK(s0) && Partway(g, s0, s, todo) && ih in todo && GoalOK(g)
    requires s.live[ih] < |s.table| && s.table[s.live[ih]] == s0.table[s.live[ih]] && !Stays(g, s.table[s.live[ih]])
    ensures Partway(g, s0, Apply(s, Retire(ih, g.prune && ih !in g.known)), todo - {ih})
  {
    RetiredReview(g, s0, s, todo, ih);
    assert IsLive(s0, s.live[ih]);
    StillPartway(g, s0, s, Apply(s, Retire(ih, g.prune && ih !in g.known)), todo, ih);
  }

  lemma {:induction false} StillPartway(g: Goal, s0: State, s: State, t: State, todo: set<string>, ih: string)
    requires Partway(g, s0, s, todo) && ih in todo && s.live[ih] < |s.table| && !Stays(g, s0.table[s.live[ih]])
    requires |t.table| == |s.table| && t.live == s.live - {ih} && t.closed == s.closed
    requires forall k: JobId {:trigger t.table[k]} :: k < |t.table| ==>
      t.table[k] == if Ih(s0.table[k]) in todo - {ih} then s0.table[k] else Reviewed(g, s0, k)
    ensures Partway(g, s0, t, todo - {ih})
  {
    assert ih in s0.live && ih !in t.live;
  }

  /** The job that is stopped is as reviewed, and so is every other. */
  lemma {:induction false} RetiredReview(g: Goal, s0: State, s: State, todo: set<string>, ih: string)
    requires MapsOK(s0) && Partway(g, s0, s, todo) && ih in todo
    requires s.live[ih] < |s.table| && s.table[s.live[ih]] == s0.table[s.live[ih]] && !Stays(g, s.table[s.live[ih]])
    ensures
      var s1 := Apply(s, Retire(ih, g.prune && ih !in g.known));
      forall k: JobId {:trigger s1.table[k]} :: k < |s1.table| ==>
        s1.table[k] == if Ih(s0.table[k]) in todo - {ih} then s0.table[k] else Reviewed(g, s0, k)
  {
    var s1, j := Apply(s, Retire(ih, g.prune && ih !in g.known)), s.live[ih];
    forall k: JobId | k < |s1.table|
      ensures s1.table[k] == if Ih(s0.table[k]) in todo - {ih} then s0.table[k] else Reviewed(g, s0, k)
    {
      assert IsLive(s0, j);
      if k != j { assert s1.table[k] == s.table[k]; }
    }
  }

  // ---------- Starting ----------

  /** From s1, whose live jobs all carry a wanted entry, jobs have been started for wanted torrents, all but those in
      todo. */
  ghost predicate Filling(g: Goal, s1: State, s: State, todo: set<string>) {
    && s1.table <= s.table && s.closed == s1.closed && s.stopping == s1.stopping && s.stoppingDisk == s1.stoppingDisk
    && g.keep.Keys - todo <= s.live.Keys <= g.keep.Keys
    && LiveStay(g, s)
    && (forall ih <- s1.live :: ih in s.live && s.live[ih] == s1.live[ih] && s1.live[ih] < |s1.table|)
    && (forall ih <- s.live :: ih !in s1.live ==> s.table[s.live[ih]].entry == g.keep[ih])
    && NewWaiting(s1, s)
    && (s1.live.Keys == g.keep.Keys ==> s == s1)
  }

  lemma {:induction false} StartOne(g: Goal, s1: State, s: State, todo: set<string>, ih: string)
    requires GoalOK(g) && Filling(g, s1, s, todo) && ih in g.keep && !s.closed
    ensures ih in s.live ==> Filling(g, s1, s, todo - {ih})
    ensures ih !in s.live ==>
      Enabled(s, Launch(g.keep[ih])) && Filling(g, s1, Apply(s, Launch(g.keep[ih])), todo - {ih})
  {
    if ih !in s.live {
      LaunchOne(g, s1, s, todo, ih);
    }
  }

  lemma {:induction false} LaunchEnabled(g: Goal, s: State, ih: string)
    requires GoalOK(g) && LiveStay(g, s) && ih in g.keep && ih !in s.live && !s.closed
    ensures Enabled(s, Launch(g.keep[ih]))
  {
    forall a | a in s.live ensures s.live[a] < |s.table| && Disk(s.table[s.live[a]]) != g.keep[ih].disk {
      assert SameUnit(g.keep[a], s.table[s.live[a]].entry);
    }
  }

  lemma {:induction false} LaunchOne(g: Goal, s1: State, s: State, todo: set<string>, ih: string)
    requires GoalOK(g) && Filling(g, s1, s, todo) && ih in g.keep && ih !in s.live && !s.closed
    ensures Enabled(s, Launch(g.keep[ih])) && Filling(g, s1, Apply(s, Launch(g.keep[ih])), todo - {ih})
  {
    LaunchEnabled(g, s, ih);
    Launched(s, g.keep[ih]);
    LaunchedLive(g, s1, s, ih);
    LaunchedWaits(s1, s, g.keep[ih]);
    StillFilling(g, s1, s, Apply(s, Launch(g.keep[ih])), todo, ih);
  }

  lemma {:induction false} StillFilling(g: Goal, s1: State, s: State, t: State, todo: set<string>, ih: string)
    requires Filling(g, s1, s, todo) && ih in g.keep && ih !in s.live
    requires s1.table <= t.table && NewWaiting(s1, t) && LiveStay(g, t)
    requires t.closed == s.closed && t.stopping == s.stopping && t.stoppingDisk == s.stoppingDisk
    requires t.live == s.live[ih := |s.table|]
    requires forall a <- t.live :: a !in s1.live ==> t.table[t.live[a]].entry == g.keep[a]
    ensures Filling(g, s1, t, todo - {ih})
  {
    assert ih !in s1.live;
  }

  lemma {:induction false} LaunchedWaits(s1: State, s: State, e: Entry)
    requires s1.table <= s.table && NewWaiting(s1, s) && Enabled(s, Launch(e))
    ensures s1.table <= Apply(s, Launch(e)).table && NewWaiting(s1, Apply(s, Launch(e)))
  {
  }

  lemma {:induction false} LaunchedLive(g: Goal, s1: State, s: State, ih: string)
    requires GoalOK(g) && LiveStay(g, s) && ih in g.keep && ih !in s.live && Enabled(s, Launch(g.keep[ih]))
    requires forall a <- s.live :: a !in s1.live ==> s.table[s.live[a]].entry == g.keep[a]
    ensures
      var t := Apply(s, Launch(g.keep[ih]));
      LiveStay(g, t) && forall a <- t.live :: a !in s1.live ==> t.table[t.live[a]].entry == g.keep[a]
  {
    var t := Apply(s, Launch(g.keep[ih]));
    Launched(s, g.keep[ih]);
    forall a | a in t.live
      ensures t.live[a] < |t.table| && Ih(t.table[t.live[a]]) == a && Stays(g, t.table[t.live[a]])
      ensures a !in s1.live ==> t.table[t.live[a]].entry == g.keep[a]
    {
      if a != ih { assert t.live[a] == s.live[a]; }
    }
  }

  lemma {:induction false} Launched(s: State, e: Entry)
    requires Enabled(s, Launch(e))
    ensures
      var t, n := Apply(s, Launch(e)), |s.table|;
      && s.table <= t.table && |t.table| == n + 1
      && t.table[n].entry == e && t.table[n].phase.Waiting? && !t.table[n].cancelled && t.table[n].outcome.Busy?
      && t.live == s.live[e.f.infoHash := n] && t.live.Keys == s.live.Keys + {e.f.infoHash}
      && t.closed == s.closed && t.stopping == s.stopping && t.stoppingDisk == s.stoppingDisk
  {
  }

  // ---------- The manager ----------

  datatype EnsureResult = NoCatalog | UnknownModel | Serving

  /** What other goroutines do while the manager's lock is dropped for the adoption scan. */
  datatype Call =
    | SetsCatalog(models: seq<Model>)
    | Asks(id: string)
    | Rescans(retryFailed: bool)
    | Moves(step: Step)
    | Closes

  ghost predicate CallOK(p: Parsers, c: Call) { c.SetsCatalog? ==> Acceptable(p, c.models) }

  function EntriesIn(ms: seq<Model>): set<Entry> { set e <- AllEntries(ms) }

  /** The entries of the catalogues set meanwhile. */
  ghost function Introduced(calls: seq<Call>): set<Entry> {
    set i: nat, e | i < |calls| && calls[i].SetsCatalog? && e in AllEntries(calls[i].models) :: e
  }

  lemma {:induction false} IntroducedBy(calls: seq<Call>, i: nat)
    requires i < |calls|
    ensures calls[i].SetsCatalog? ==> EntriesIn(calls[i].models) <= Introduced(calls)
  {
  }

  predicate Listed(ms: seq<Model>, id: string) { exists m <- ms :: m.id == id }

  ghost predicate Named(past: set<Entry>) { forall e <- past :: e.disk == DiskName(e.f) }

  lemma {:induction false} EntriesNamed(ms: seq<Model>)
    ensures Named(EntriesIn(ms))
  {
    forall e | e in EntriesIn(ms) ensures e.disk == DiskName(e.f) {
      EntriesAreUnits(ms, e);
    }
  }

  ghost predicate Dated(past: set<Entry>, table: seq<Job>) {
    forall k :: 0 <= k < |table| ==> table[k].entry in past
  }

  predicate IsJobMove(step: Step) { step.Forget? || step.Enter? || step.GiveUp? || step.Finish? }

  class Node {
    const want: seq<string>
    const prune: bool
    var cat: Option<seq<Model>>
    var extraWant: set<string>
    var table: seq<Job>
    var live: map<string, JobId>
    var stopping: map<string, JobId>
    var stoppingDisk: map<string, JobId>
    var closed: bool
    ghost var log: seq<Step>
    ghost var past: set<Entry>  // every entry of every catalogue so far

    constructor (want: seq<string>, prune: bool)
      ensures Valid() && cat == None && extraWant == {} && View() == INIT && this.want == want && this.prune == prune
      ensures past == {}
    {
      this.want, this.prune := want, prune;
      cat, extraWant, table, live, stopping, stoppingDisk, closed := None, {}, [], map[], map[], map[], false;
      log, past := [], {};
    }

    function View(): State
      reads this
    {
      State(table, live, stopping, stoppingDisk, closed)
    }

    /** The jobs are what some run of the machine leads to, each for an entry of some catalogue so far. */
    ghost predicate Valid()
      reads this
    {
      IsRun(log) && After(log) == View() && EntriesApart(Torrents()) && Dated(past, table) && EntriesKnown()
    }

    ghost predicate EntriesKnown()
      reads this`cat, this`past
    {
      (cat.Some? ==> EntriesIn(cat.value) <= past) && Named(past)
    }

    function Torrents(): seq<Entry>
      reads this`cat
    {
      if cat.Some? then AllEntries(cat.value) else []
    }

    function Wishes(): Wish
      reads this`extraWant
    {
      Wish("*" in want, extraWant + set w <- want)
    }

    /** The wanted torrents of the current catalogue, by infohash. */
    function Wanted(): map<string, Entry>
      reads this`cat, this`extraWant
    {
      Keep(Torrents(), Wishes())
    }

    function GoalNow(retryFailed: bool): Goal
      reads this`cat, this`extraWant
    {
      Goal(Wanted(), set e <- Torrents() :: e.f.infoHash, prune, retryFailed)
    }

    // ---------- The steps, as the code takes them ----------

    /** Stops the job for ih and remembers its done channel by infohash and by disk name. */
    method RetireLocked(ih: string, prune: bool)
      requires Valid() && ih in live && live[ih] < |table|
      modifies this`table, this`live, this`stopping, this`stoppingDisk, this`log
      ensures Valid() && View() == Apply(old(View()), Retire(ih, prune))
    {
      var j := live[ih];
      var disk := table[j].entry.disk;
      table := table[j := table[j].(cancelled := true, prune := prune)];
      stopping := stopping[ih := j];
      stoppingDisk := stoppingDisk[disk := j];
      live := live - {ih};
      log := log + [Retire(ih, prune)];
      assert log[..|log| - 1] == old(log);
    }

    /** A new job waits for whatever was last retired under its infohash or its disk name. */
    method StartJob(e: Entry)
      requires Valid() && Enabled(View(), Launch(e)) && e in past
      modifies this`table, this`live, this`log
      ensures Valid() && View() == Apply(old(View()), Launch(e))
    {
      var waits := {};
      if e.f.infoHash in stopping {
        waits := waits + {stopping[e.f.infoHash]};
      }
      if e.disk in stoppingDisk {
        waits := waits + {stoppingDisk[e.disk]};
      }
      live := live[e.f.infoHash := |table|];
      table := table + [Job(e, waits, Waiting, Busy, false, false)];
      log := log + [Launch(e)];
      assert waits == Lookup(stopping, e.f.infoHash) + Lookup(stoppingDisk, e.disk);
      assert log[..|log| - 1] == old(log);
    }

    /** A goroutine's step: a job moves on, or the watcher of a retired job sees it done. */
    method JobMove(step: Step)
      requires Valid() && IsJobMove(step) && Enabled(View(), step)
      modifies this`table, this`stopping, this`stoppingDisk, this`log
      ensures Valid() && View() == Apply(old(View()), step)
    {
      var j := step.j;
      match step {
        case Forget(_) =>
          var ih, disk := table[j].entry.f.infoHash, table[j].entry.disk;
          if ih in stopping && stopping[ih] == j {
            stopping := stopping - {ih};
          }
          if disk in stoppingDisk && stoppingDisk[disk] == j {
            stoppingDisk := stoppingDisk - {disk};
          }
        case Enter(_) => table := table[j := table[j].(phase := Running)];
        case GiveUp(_, o) => table := table[j := table[j].(outcome := o)];
        case Finish(_) => table := table[j := table[j].(phase := Done)];
      }
      log := log + [step];
      assert log[..|log| - 1] == old(log);
    }

    method CloseNode()
      requires Valid()
      modifies this`closed, this`log
      ensures Valid() && View() == Apply(old(View()), Close)
    {
      closed := true;
      log := log + [Close];
      assert log[..|log| - 1] == old(log);
    }

    /** At all times, no two jobs past their waits and not done share an infohash or a disk name. */
    lemma {:induction false} NoTwoActive(a: JobId, b: JobId)
      requires Valid() && a < b < |table| && Shares(table[a], table[b])
      ensures !(table[a].phase.Running? && table[b].phase.Running?)
      ensures table[b].phase.Done? ==> table[a].phase.Done?
    {
      Exclusion(log, a, b);
    }

    // ---------- Reconcile ----------

    lemma {:induction false} GoalNowOK(retryFailed: bool)
      requires Valid()
      ensures GoalOK(GoalNow(retryFailed))
    {
      KeepIsWanted(Torrents(), Wishes());
      forall a, b | a in Wanted() && b in Wanted() && a != b ensures Wanted()[a].disk != Wanted()[b].disk {
        KeepApart(Torrents(), Wishes(), a, b);
      }
    }

    lemma {:induction false} WantedIsPast()
      requires Valid()
      ensures forall ih <- Wanted() :: Wanted()[ih] in past
    {
      KeepIsWanted(Torrents(), Wishes());
      forall ih | ih in Wanted() ensures Wanted()[ih] in past {
        assert Wanted()[ih] in Torrents() && cat.Some?;
        assert Wanted()[ih] in EntriesIn(cat.value);
      }
    }

    /** What Wanted is: the torrents of the models asked for. */
    lemma {:induction false} WantedIsAsked(ih: string)
      requires Valid() && cat.Some?
      ensures ih in Wanted() <==> exists m <- cat.value :: HasTorrent(m, ih) && Asked(want, extraWant, m.id)
    {
      KeepIsWanted(Torrents(), Wishes());
      if ih in Wanted() {
        EntriesAreUnits(cat.value, Wanted()[ih]);
        var m :| m in cat.value && exists f <- Units(m) :: Wanted()[ih] == EntryOf(m, f);
        TorrentIsUnit(m, ih);
      }
      if m :| m in cat.value && HasTorrent(m, ih) && Asked(want, extraWant, m.id) {
        TorrentIsUnit(m, ih);
        var f :| f in Units(m) && f.infoHash == ih;
        EntriesAreUnits(cat.value, EntryOf(m, f));
      }
    }

    /** An infohash is one model's. */
    lemma {:induction false} OneOwner(ih: string, m: Model, m': Model)
      requires Valid() && cat.Some? && m in cat.value && m' in cat.value && HasTorrent(m, ih) && HasTorrent(m', ih)
      ensures m.id == m'.id
    {
      TorrentIsUnit(m, ih);
      TorrentIsUnit(m', ih);
      var f :| f in Units(m) && f.infoHash == ih;
      var f' :| f' in Units(m') && f'.infoHash == ih;
      EntriesAreUnits(cat.value, EntryOf(m, f));
      EntriesAreUnits(cat.value, EntryOf(m', f'));
      var es := Torrents();
      var i :| 0 <= i < |es| && es[i] == EntryOf(m, f);
      var k :| 0 <= k < |es| && es[k] == EntryOf(m', f');
      assert i == k;
    }

    lemma {:induction false} SettledServes()
      requires Valid() && cat.Some? && Settled(Wanted(), View())
      ensures ServesExactly(cat.value, want, extraWant, live.Keys)
    {
      forall m, ih: string | m in cat.value && HasTorrent(m, ih) ensures ih in live <==> Asked(want, extraWant, m.id) {
        WantedIsAsked(ih);
        if m' :| m' in cat.value && HasTorrent(m', ih) && Asked(want, extraWant, m'.id) {
          OneOwner(ih, m, m');
        }
      }
      forall ih | ih in live ensures exists m <- cat.value :: HasTorrent(m, ih) && Asked(want, extraWant, m.id) {
        WantedIsAsked(ih);
      }
    }

    /** A live job stays exactly if its model is asked for and lists its torrent as the job has it, unless it failed
        and is to be retried. */
    lemma {:induction false} StaysIsAsked(retryFailed: bool, j: Job)
      requires Valid() && cat.Some? && j.entry.disk == DiskName(j.entry.f)
      ensures Stays(GoalNow(retryFailed), j) <==>
        StillAsked(cat.value, want, extraWant, j) && !(retryFailed && j.outcome.Failed?)
    {
      if Ih(j) in Wanted() && SameUnit(Wanted()[Ih(j)], j.entry) {
        WantedThenAsked(j);
      }
      if StillAsked(cat.value, want, extraWant, j) {
        AskedThenWanted(j);
      }
    }

    lemma {:induction false} WantedThenAsked(j: Job)
      requires Valid() && cat.Some? && Ih(j) in Wanted() && SameUnit(Wanted()[Ih(j)], j.entry)
      ensures StillAsked(cat.value, want, extraWant, j)
    {
      KeepIsWanted(Torrents(), Wishes());
      EntriesAreUnits(cat.value, Wanted()[Ih(j)]);
      var m :| m in cat.value && exists f <- Units(m) :: Wanted()[Ih(j)] == EntryOf(m, f);
      ListedIsUnit(m, j.entry.f);
    }

    lemma {:induction false} AskedThenWanted(j: Job)
      requires Valid() && cat.Some? && j.entry.disk == DiskName(j.entry.f) && StillAsked(cat.value, want, extraWant, j)
      ensures Ih(j) in Wanted() && SameUnit(Wanted()[Ih(j)], j.entry)
    {
      var m :| m in cat.value && Asked(want, extraWant, m.id) && j.entry.model == m.id && ListsTorrent(m, j.entry.f);
      ListedIsUnit(m, j.entry.f);
      EntriesAreUnits(cat.value, EntryOf(m, j.entry.f));
      KeepIsWanted(Torrents(), Wishes());
    }

    lemma {:induction false} ReviewOfOne(retryFailed: bool, s0: State, k: JobId)
      requires Valid() && cat.Some? && k < |s0.table| && IsLive(s0, k) && !s0.table[k].cancelled
      requires s0.table[k].entry.disk == DiskName(s0.table[k].entry.f)
      ensures
        var was, now := s0.table[k], Reviewed(GoalNow(retryFailed), s0, k);
        Stopped(cat.value, want, extraWant, prune, retryFailed, was, now)
    {
      StaysIsAsked(retryFailed, s0.table[k]);
      KnownTorrent(Ih(s0.table[k]));
    }

    /** Which jobs a reconcile stops, and which of those it stops for good. */
    lemma {:induction false} ReviewIsExact(retryFailed: bool, s0: State)
      requires Valid() && cat.Some? && MapsOK(s0) && Dated(past, s0.table)
      requires ReviewedAll(GoalNow(retryFailed), s0, View())
      ensures StopsExactly(cat.value, want, extraWant, prune, retryFailed, s0.table, table)
    {
      forall k: JobId | k < |s0.table| && !s0.table[k].cancelled
        ensures Stopped(cat.value, want, extraWant, prune, retryFailed, s0.table[k], table[k])
      {
        assert IsLive(s0, k);
        assert s0.table[k].entry in past;
        ReviewOfOne(retryFailed, s0, k);
        assert View().table[k] == Reviewed(GoalNow(retryFailed), s0, k);
      }
    }

    lemma {:induction false} KnownTorrent(ih: string)
      requires Valid() && cat.Some?
      ensures ih in GoalNow(false).known <==> exists m <- cat.value :: HasTorrent(m, ih)
    {
      if m :| m in cat.value && HasTorrent(m, ih) {
        TorrentIsUnit(m, ih);
        var f :| f in Units(m) && f.infoHash == ih;
        EntriesAreUnits(cat.value, EntryOf(m, f));
      }
      if e :| e in Torrents() && e.f.infoHash == ih {
        EntriesAreUnits(cat.value, e);
        var m :| m in cat.value && exists f <- Units(m) :: e == EntryOf(m, f);
        TorrentIsUnit(m, ih);
      }
    }

    /** Retires every live job that is no longer wanted as it is, or failed and is to be retried. */
    method RetireStale(g: Goal)
      requires Valid() && GoalOK(g)
      modifies this`table, this`live, this`stopping, this`stoppingDisk, this`log
      ensures Valid() && closed == old(closed)
      ensures Filling(g, View(), View(), g.keep.Keys) && ReviewedAll(g, old(View()), View()) && |table| == |old(table)|
      ensures Settled(g.keep, old(View())) && !g.retryFailed ==> View() == old(View())
      ensures LiveCurrent(g.keep, View()) <==> UpToDate(g, old(View()))
    {
      ghost var s0 := View();
      RunKeeps(log);
      var todo := live.Keys;
      while todo != {}
        invariant Valid() && Partway(g, s0, View(), todo)
        decreases todo
      {
        var ih :| ih in todo;
        var j := live[ih];
        ReviewOne(g, s0, View(), todo, ih);
        if ih !in g.keep {
          RetireLocked(ih, g.prune && ih !in g.known);
        } else if !SameUnit(g.keep[ih], table[j].entry) {
          RetireLocked(ih, false);
        } else if g.retryFailed && table[j].outcome.Failed? {
          RetireLocked(ih, false);
        }
        todo := todo - {ih};
      }
      RetiredLeavesWanted(g, s0, View());
    }

    /** Starts a job for every wanted torrent that has none. */
    method StartMissing(g: Goal)
      requires Valid() && !closed && GoalOK(g) && Filling(g, View(), View(), g.keep.Keys)
      requires forall ih <- g.keep :: g.keep[ih] in past
      modifies this`table, this`live, this`log
      ensures Valid() && Settled(g.keep, View()) && LiveStay(g, View()) && Grown(old(View()), View())
      ensures LiveCurrent(g.keep, View()) <==> LiveCurrent(g.keep, old(View()))
      ensures Settled(g.keep, old(View())) ==> View() == old(View())
    {
      ghost var s1 := View();
      var todo := g.keep.Keys;
      while todo != {}
        invariant Valid() && Filling(g, s1, View(), todo) && todo <= g.keep.Keys && !closed
        decreases todo
      {
        var ih :| ih in todo;
        StartOne(g, s1, View(), todo, ih);
        if ih !in live {
          StartJob(g.keep[ih]);
        }
        todo := todo - {ih};
      }
      FilledCurrent(g, s1, View());
    }

    method ReconcileTo(g: Goal, scanned: bool) returns (needScan: bool)
      requires Valid() && !closed && GoalOK(g) && forall ih <- g.keep :: g.keep[ih] in past
      modifies this`table, this`live, this`stopping, this`stoppingDisk, this`log
      ensures Valid() && closed == old(closed)
      ensures ReviewedAll(g, old(View()), View())
      ensures !scanned ==> |table| == |old(table)|
      ensures needScan == !Settled(g.keep, View())
      ensures scanned ==> !needScan
      ensures Settled(g.keep, old(View())) && !g.retryFailed ==> View() == old(View())
      ensures LiveStay(g, View()) && (LiveCurrent(g.keep, View()) <==> UpToDate(g, old(View())))
    {
      ghost var s0 := View();
      RetireStale(g);
      ghost var s1 := View();
      if !scanned {
        needScan := exists ih <- g.keep :: ih !in live;
        MissingIsUnsettled(g, s1);
        return;
      }
      StartMissing(g);
      ReviewedThenGrown(g, s0, s1, View());
      return false;
    }

    method CollectGoal(retryFailed: bool) returns (g: Goal)
      requires Valid()
      ensures g == GoalNow(retryFailed) && GoalOK(g) && forall ih <- g.keep :: g.keep[ih] in past
    {
      GoalNowOK(retryFailed);
      WantedIsPast();
      var es := Torrents();
      var keep := WantedByInfoHash(es, Wishes());
      g := Goal(keep, set e <- es :: e.f.infoHash, prune, retryFailed);
    }

    /** Starts and stops jobs to match the catalogue and the want list. Without a scan it starts none,
        and reports whether one is missing. When none is, the live jobs carry the current listings exactly if no job
        that was left alone was on an outdated one. */
    method ReconcileLocked(retryFailed: bool, scanned: bool) returns (needScan: bool)
      requires Valid()
      modifies this`table, this`live, this`stopping, this`stoppingDisk, this`log
      ensures Valid() && closed == old(closed)
      ensures cat.None? || closed ==> !needScan && View() == old(View())
      ensures cat.Some? && !closed ==> StopsExactly(cat.value, want, extraWant, prune, retryFailed, old(table), table)
      ensures cat.Some? && !closed ==>
        && ReviewedAll(GoalNow(retryFailed), old(View()), View())
        && (!scanned ==> |table| == |old(table)|)
        && needScan == !Settled(Wanted(), View())
        && (scanned ==> !needScan)
        && LiveStay(GoalNow(retryFailed), View())
        && (LiveCurrent(Wanted(), View()) <==> UpToDate(GoalNow(retryFailed), old(View())))
        && (!needScan ==> (Current(Wanted(), View()) <==> UpToDate(GoalNow(retryFailed), old(View()))))
      ensures Settled(Wanted(), old(View())) && !retryFailed ==> View() == old(View())
    {
      if cat.None? || closed {
        return false;
      }
      var g := CollectGoal(retryFailed);
      needScan := ReconcileTo(g, scanned);
      assert GoalNow(retryFailed) == g;
      SettledCurrent(g.keep, View());
      RunKeeps(old(log));
      ReviewIsExact(retryFailed, old(View()));
    }

    // ---------- Calls, with the lock dropped for the scan ----------

    method TakeCatalog(ghost p: Parsers, ms: seq<Model>)
      requires Valid() && Acceptable(p, ms)
      modifies this`cat, this`past
      ensures Valid() && cat == Some(ms) && past == old(past) + EntriesIn(ms)
    {
      AcceptedEntriesApart(p, ms);
      EntriesNamed(ms);
      cat, past := Some(ms), past + EntriesIn(ms);
    }

    /** One call or step of another goroutine. */
    method InterfereOnce(ghost p: Parsers, c: Call)
      requires Valid() && CallOK(p, c)
      modifies this
      ensures Valid() && old(extraWant) <= extraWant
      ensures past == old(past) + if c.SetsCatalog? then EntriesIn(c.models) else {}
    {
      match c {
        case SetsCatalog(ms) =>
          TakeCatalog(p, ms);
          var _ := ReconcileLocked(true, false);
        case Asks(id) =>
          if cat.Some? && Listed(cat.value, id) && !Wants(Wishes(), id) {
            extraWant := extraWant + {id};
            var _ := ReconcileLocked(false, false);
          }
        case Rescans(retryFailed) =>
          var _ := ReconcileLocked(retryFailed, true);
        case Moves(step) =>
          if IsJobMove(step) && Enabled(View(), step) {
            JobMove(step);
          }
        case Closes =>
          CloseNode();
      }
    }

    /** Whatever other goroutines do meanwhile, in any order. */
    method Interfere(ghost p: Parsers, calls: seq<Call>)
      requires Valid() && forall c <- calls :: CallOK(p, c)
      modifies this
      ensures Valid() && old(extraWant) <= extraWant && past <= old(past) + Introduced(calls)
    {
      for i := 0 to |calls|
        invariant Valid() && old(extraWant) <= extraWant && past <= old(past) + Introduced(calls)
      {
        IntroducedBy(calls, i);
        InterfereOnce(p, calls[i]);
      }
    }

    /** Whatever happened, live jobs that are for the current torrents carry their current listings, if no torrent's
        listing has changed under it. */
    lemma {:induction false} SteadyIsCurrent(es: set<Entry>)
      requires Valid() && past <= es
      ensures Settled(Wanted(), View()) && Steady(es) ==> Current(Wanted(), View())
    {
      WantedIsPast();
      if Settled(Wanted(), View()) && Steady(es) {
        forall ih | ih in live ensures table[live[ih]].entry == Wanted()[ih] {
          assert Wanted()[ih] in past && table[live[ih]].entry in past;
        }
      }
    }

    /** Reconciles, dropping the lock for the adoption scan if a job has to be started. */
    method ReconcileScanLocked(ghost p: Parsers, retryFailed: bool, meanwhile: seq<Call>)
      requires Valid() && forall c <- meanwhile :: CallOK(p, c)
      modifies this
      ensures Valid() && old(extraWant) <= extraWant && past <= old(past) + Introduced(meanwhile)
      ensures meanwhile == [] ==>
        cat == old(cat) && extraWant == old(extraWant) && closed == old(closed) && past == old(past)
      ensures cat.Some? && !closed ==> ServesExactly(cat.value, want, extraWant, live.Keys)
      ensures cat.Some? && !closed ==> Settled(Wanted(), View()) && LiveStay(GoalNow(retryFailed), View())
      ensures cat.Some? && !closed && Steady(old(past) + Introduced(meanwhile)) ==> Current(Wanted(), View())
      ensures cat.Some? && !closed && meanwhile == [] ==>
        (Current(Wanted(), View()) <==> UpToDate(GoalNow(retryFailed), old(View())))
    {
      ghost var s0 := View();
      var needScan := ReconcileLocked(retryFailed, false);
      if needScan {
        if meanwhile != [] {
          Interfere(p, meanwhile);
        } else {
          StayingAgain(GoalNow(retryFailed), View());
        }
        var _ := ReconcileLocked(retryFailed, true);
      }
      SteadyIsCurrent(old(past) + Introduced(meanwhile));
      if cat.Some? && !closed {
        SettledServes();
      }
    }

    /** Afterwards the live jobs are exactly those wanted by the then current catalogue. They are on its listings if no
        catalogue changed one under the same torrent and, if nothing else happened meanwhile, exactly if no job that
        was left alone was on an outdated one. */
    method SetCatalog(ghost p: Parsers, ms: seq<Model>, meanwhile: seq<Call>)
      requires Valid() && Acceptable(p, ms) && forall c <- meanwhile :: CallOK(p, c)
      modifies this
      ensures Valid() && (meanwhile == [] ==> cat == Some(ms) && extraWant == old(extraWant) && closed == old(closed))
      ensures past <= old(past) + EntriesIn(ms) + Introduced(meanwhile)
      ensures cat.Some? && !closed ==> ServesExactly(cat.value, want, extraWant, live.Keys)
      ensures cat.Some? && !closed ==> Settled(Wanted(), View()) && LiveStay(GoalNow(true), View())
      ensures cat.Some? && !closed && Steady(old(past) + EntriesIn(ms) + Introduced(meanwhile)) ==>
        Current(Wanted(), View())
      ensures meanwhile == [] && !closed ==> (Current(Wanted(), View()) <==> UpToDate(GoalNow(true), old(View())))
    {
      TakeCatalog(p, ms);
      ReconcileScanLocked(p, true, meanwhile);
    }

    /** Asks for a model. If it was not wanted before, every one of its torrents has a live job when the call
        returns. */
    method Ensure(ghost p: Parsers, id: string, meanwhile: seq<Call>) returns (r: EnsureResult)
      requires Valid() && forall c <- meanwhile :: CallOK(p, c)
      modifies this
      ensures Valid()
      ensures r.NoCatalog? <==> old(cat).None?
      ensures r.NoCatalog? || (old(cat).Some? && !Listed(old(cat).value, id)) ==>
        View() == old(View()) && extraWant == old(extraWant)
      ensures r.Serving? <==>
        old(cat).Some? && Listed(old(cat).value, id) && cat.Some? && Listed(cat.value, id)
      ensures meanwhile == [] ==> cat == old(cat)
      ensures r.Serving? ==> Asked(want, extraWant, id)
      ensures r.Serving? && !old(Wants(Wishes(), id)) && !closed ==>
        forall e <- Torrents() :: e.model == id ==>
          e.f.infoHash in live && live[e.f.infoHash] < |table| && SameUnit(table[live[e.f.infoHash]].entry, e)
      ensures r.Serving? && !old(Wants(Wishes(), id)) && !closed && Steady(old(past) + Introduced(meanwhile)) ==>
        Current(Wanted(), View())
    {
      if cat.None? {
        return NoCatalog;
      }
      if !Listed(cat.value, id) {
        return UnknownModel;
      }
      if !Wants(Wishes(), id) {
        extraWant := extraWant + {id};
        ReconcileScanLocked(p, false, meanwhile);
        KeepIsWanted(Torrents(), Wishes());
      }
      if cat.None? || !Listed(cat.value, id) {
        return UnknownModel;
      }
      return Serving;
    }
  }

  lemma {:induction false} ReviewedThenGrown(g: Goal, s0: State, s1: State, s2: State)
    requires ReviewedAll(g, s0, s1) && |s1.table| == |s0.table| && Grown(s1, s2)
    ensures ReviewedAll(g, s0, s2)
  {
  }

  /** After the review every live job carries a wanted entry, and nothing changed if nothing had to. */
  lemma {:induction false} RetiredLeavesWanted(g: Goal, s0: State, s: State)
    requires MapsOK(s0) && GoalOK(g) && Partway(g, s0, s, {})
    ensures Filling(g, s, s, g.keep.Keys)
    ensures Settled(g.keep, s0) && !g.retryFailed ==> s == s0
    ensures ReviewedAll(g, s0, s)
    ensures LiveCurrent(g.keep, s) <==> UpToDate(g, s0)
  {
    ReviewedStay(g, s0, s);
    ReviewedCurrent(g, s0, s);
    NothingToFill(g, s);
    if Settled(g.keep, s0) && !g.retryFailed {
      NothingRetired(g, s0, s);
    }
    EveryJobReviewed(g, s0, s);
  }

  lemma {:induction false} NothingToFill(g: Goal, s: State)
    requires LiveStay(g, s)
    ensures Filling(g, s, s, g.keep.Keys)
  {
  }

  lemma {:induction false} NothingRetired(g: Goal, s0: State, s: State)
    requires MapsOK(s0) && Partway(g, s0, s, {}) && Settled(g.keep, s0) && !g.retryFailed
    ensures s == s0
  {
    forall ih | ih in s0.live ensures ih in s.live {
      assert IsLive(s0, s0.live[ih]);
    }
    assert s.live == s0.live;
  }

  lemma {:induction false} EveryJobReviewed(g: Goal, s0: State, s: State)
    requires Partway(g, s0, s, {})
    ensures ReviewedAll(g, s0, s)
  {
  }

  lemma {:induction false} ReviewedStay(g: Goal, s0: State, s: State)
    requires MapsOK(s0) && GoalOK(g) && Partway(g, s0, s, {})
    ensures LiveStay(g, s)
  {
    forall ih <- s.live
      ensures s.live[ih] < |s.table| && Ih(s.table[s.live[ih]]) == ih &&
        Stays(g, s.table[s.live[ih]])
    {
      assert IsLive(s0, s.live[ih]);
    }
  }

  /** The jobs left alone are those of s0 that stay, with the entries they had. */
  lemma {:induction false} ReviewedCurrent(g: Goal, s0: State, s: State)
    requires MapsOK(s0) && GoalOK(g) && Partway(g, s0, s, {})
    ensures LiveCurrent(g.keep, s) <==> UpToDate(g, s0)
  {
    forall ih | ih in s0.live
      ensures ih in s.live <==> Stays(g, s0.table[s0.live[ih]])
      ensures ih in s.live ==> s.live[ih] == s0.live[ih] && s.table[s.live[ih]].entry == s0.table[s0.live[ih]].entry
    {
      assert IsLive(s0, s0.live[ih]);
    }
    ReviewedStay(g, s0, s);
  }

  /** What was started is current. */
  lemma {:induction false} FilledCurrent(g: Goal, s1: State, s: State)
    requires Filling(g, s1, s, {})
    ensures LiveCurrent(g.keep, s) <==> LiveCurrent(g.keep, s1)
    ensures Settled(g.keep, s)
  {
    forall ih | ih in s1.live ensures s1.live[ih] < |s1.table| && s.table[s.live[ih]] == s1.table[s1.live[ih]] {
    }
  }

  lemma {:induction false} SettledCurrent(keep: map<string, Entry>, s: State)
    ensures Settled(keep, s) ==> (Current(keep, s) <==> LiveCurrent(keep, s))
  {
  }

  lemma {:induction false} MissingIsUnsettled(g: Goal, s: State)
    requires LiveStay(g, s)
    ensures (exists ih <- g.keep :: ih !in s.live) <==> !Settled(g.keep, s)
  {
    forall ih | ih in s.live ensures ih in g.keep {
    }
  }

  lemma {:induction false} StayingAgain(g: Goal, s: State)
    requires LiveStay(g, s)
    ensures UpToDate(g, s) <==> LiveCurrent(g.keep, s)
  {
  }

  // ---------- A listing can go stale ----------

  /** A folder model of one file, whose revision and file hash are made of one hex digit. */
  function OneFolder(digit: char): Model {
    Model("m", "o/r", Repeated(digit, 40), "l", "", LAYOUT_DIR, Repeated('a', 40), "magnet:?",
          [File("f", "", 1, Repeated(digit, 64), "", "")])
  }

  function OneMagnet(): Parsers {
    Parsers(_ => Some(Magnet(Repeated('a', 40), [DirWebSeed("o/r")])), _ => true)
  }

  lemma {:induction false} OneFolderFits(digit: char)
    requires Hex(digit)
    ensures HeaderOK(OneMagnet(), OneFolder(digit)) && FolderOK(OneMagnet(), OneFolder(digit))
  {
    var m := OneFolder(digit);
    assert "f"[1..] == "" && ['f'] + "" == "f";
    assert Split("f") == ["f"];
    assert ValidRelPath("f");
    assert FolderFileOK(m.files[0]);
    AboveIsPrefix("f", "f");
  }

  lemma {:induction false} OneFolderAccepted(digit: char)
    requires Hex(digit)
    ensures Acceptable(OneMagnet(), [OneFolder(digit)])
    ensures AllEntries([OneFolder(digit)]) == [EntryOf(OneFolder(digit), DirUnit(OneFolder(digit)))]
  {
    OneFolderFits(digit);
    OneModelAccepted(OneMagnet(), OneFolder(digit));
    OneModelEntries(OneFolder(digit));
  }

  lemma {:induction false} OneModelAccepted(p: Parsers, m: Model)
    requires ModelOK(p, m)
    ensures Acceptable(p, [m])
  {
  }

  lemma {:induction false} OneModelEntries(m: Model)
    requires IsDir(m)
    ensures AllEntries([m]) == [EntryOf(m, DirUnit(m))]
  {
    var ms, none := [m], [];
    assert ms[..0] == none && AllEntries(none) == [];
    assert Units(m) == [DirUnit(m)];
    var es := Entries(m);
    assert |es| == 1 && es[0] == EntryOf(m, DirUnit(m));
    assert AllEntries(ms) == AllEntries(ms[..0]) + es;
  }

  /** Two accepted catalogues that list a folder's one file with different hashes and revisions, and nothing a
      reconcile compares tells them apart. */
  lemma {:induction false} SameUnitOtherListing()
    ensures
      var a, b := OneFolder('0'), OneFolder('1');
      && SameUnit(EntryOf(a, DirUnit(a)), EntryOf(b, DirUnit(b)))
      && a.revision != b.revision && a.files[0].sha256 != b.files[0].sha256
  {
    var a, b := OneFolder('0'), OneFolder('1');
    assert SumSizes(a.files) == SumSizes(b.files) == 1 by {
      assert a.files[..0] == [] && b.files[..0] == [];
    }
    assert a.revision[0] != b.revision[0] && a.files[0].sha256[0] != b.files[0].sha256[0];
  }

  lemma {:induction false} KeepsOne(e: Entry, w: Wish)
    ensures w.all ==> Keep([e], w) == map[e.f.infoHash := e]
  {
    assert [e][..0] == [] && Keep([], w) == map[];
  }

  /** A job that carries one listing stays, on that listing, when the goal is the other. */
  lemma {:induction false} LeftBehind(g: Goal, g': Goal, s: State, ih: string, e: Entry, e': Entry)
    requires g.keep == map[ih := e] && g'.keep == map[ih := e'] && g.retryFailed && SameUnit(e, e') && e != e'
    requires Current(g.keep, s) && LiveStay(g, s)
    ensures !UpToDate(g', s)
  {
    assert ih in s.live;
    assert Stays(g', s.table[s.live[ih]]);
  }

  /** A new node that wants everything, set to a catalogue of one torrent. */
  method FirstCatalog(ghost p: Parsers, a: seq<Model>, ghost e: Entry) returns (n: Node)
    requires Acceptable(p, a) && AllEntries(a) == [e]
    ensures fresh(n) && n.Valid() && !n.closed && n.Wishes().all
    ensures n.GoalNow(true).keep == map[e.f.infoHash := e] && Current(n.GoalNow(true).keep, n.View())
    ensures LiveStay(n.GoalNow(true), n.View())
  {
    n := new Node(["*"], false);
    n.SetCatalog(p, a, []);
    KeepsOne(e, n.Wishes());
    assert UpToDate(n.GoalNow(true), INIT);
  }

  /** Given a catalogue that lists that torrent differently, it goes on with the old listing. */
  method KeepsOldListing(n: Node, ghost p: Parsers, b: seq<Model>, ghost e: Entry, ghost e': Entry)
    requires n.Valid() && !n.closed && n.Wishes().all && Acceptable(p, b) && AllEntries(b) == [e']
    requires SameUnit(e, e') && e != e'
    requires n.GoalNow(true).keep == map[e.f.infoHash := e] && Current(n.GoalNow(true).keep, n.View())
    requires LiveStay(n.GoalNow(true), n.View())
    modifies n
    ensures n.Valid() && !n.closed && n.cat == Some(b)
    ensures Settled(n.Wanted(), n.View()) && !Current(n.Wanted(), n.View())
  {
    ghost var g, s := n.GoalNow(true), n.View();
    n.SetCatalog(p, b, []);
    KeepsOne(e', n.Wishes());
    LeftBehind(g, n.GoalNow(true), s, e.f.infoHash, e, e');
  }

  /** That does happen: from a new node, two accepted catalogues leave it seeding a folder by the first one's
      listing. */
  method StaleListing() returns (n: Node)
    ensures fresh(n) && n.Valid() && !n.closed && n.cat == Some([OneFolder('1')])
    ensures Settled(n.Wanted(), n.View()) && !Current(n.Wanted(), n.View())
  {
    var a, b := OneFolder('0'), OneFolder('1');
    OneFolderAccepted('0');
    OneFolderAccepted('1');
    SameUnitOtherListing();
    n := FirstCatalog(OneMagnet(), [a], EntryOf(a, DirUnit(a)));
    KeepsOldListing(n, OneMagnet(), [b], EntryOf(a, DirUnit(a)), EntryOf(b, DirUnit(b)));
  }
}
