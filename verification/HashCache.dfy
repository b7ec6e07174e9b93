/** The hash cache under concurrent callers and changing files. */
module HashCache {
  import opened Catalog

  type Path = string   // a resolved path
  type Chan = nat
  type CallId = nat

  /** What a file was at some time; its contents are represented by their sha256. */
  datatype Version = Gone | There(size: int, mtime: int, sha: string)

  datatype Entry = Entry(size: int, mtime: int, sha: string)

  // ---------- The cache proper: what its lock guards ----------

  datatype Core = Core(m: map<Path, Entry>, busy: map<Path, Chan>, closed: set<Chan>, next: Chan)

  datatype Found = Hit(sha: string) | InFlight(ch: Chan) | Mine(ch: Chan)

  /** One critical section of a lookup: a cached result, a hash to wait for, or a hash to do. */
  function Look(core: Core, file: Path, size: int, mtime: int): (Found, Core) {
    if file in core.m && core.m[file].size == size && core.m[file].mtime == mtime then (Hit(core.m[file].sha), core)
    else if file in core.busy then (InFlight(core.busy[file]), core)
    else (Mine(core.next), core.(busy := core.busy[file := core.next], next := core.next + 1))
  }

  function Storing(core: Core, file: Path, e: Entry): Core { core.(m := core.m[file := e]) }

  function Closing(core: Core, file: Path, ch: Chan): Core {
    core.(busy := core.busy - {file}, closed := core.closed + {ch})
  }

  /** A lookup finds a cached hash, this one. */
  predicate Finds(core: Core, file: Path, size: int, mtime: int, sha: string) {
    Look(core, file, size, mtime).0 == Hit(sha)
  }

  class Cache {
    var m: map<Path, Entry>
    var busy: map<Path, Chan>
    var closed: set<Chan>
    var next: Chan

    constructor (m: map<Path, Entry>)
      ensures View() == Core(m, map[], {}, 0)
    {
      this.m, busy, closed, next := m, map[], {}, 0;
    }

    function View(): Core
      reads this
    {
      Core(m, busy, closed, next)
    }

    method LookLocked(file: Path, size: int, mtime: int) returns (found: Found)
      modifies this`busy, this`next
      ensures (found, View()) == Look(old(View()), file, size, mtime)
      ensures found.Mine? ==> busy == old(busy)[file := found.ch] && file !in old(busy) && found.ch == old(next)
    {
      if file in m && m[file].size == size && m[file].mtime == mtime {
        return Hit(m[file].sha);
      }
      if file in busy {
        return InFlight(busy[file]);
      }
      var ch := next;
      next := next + 1;
      busy := busy[file := ch];
      return Mine(ch);
    }

    method Store(file: Path, size: int, mtime: int, sha: string)
      modifies this`m
      ensures View() == Storing(old(View()), file, Entry(size, mtime, sha))
      ensures forall size', mtime' :: (size', mtime') == (size, mtime) <==> Finds(View(), file, size', mtime', sha)
      ensures forall f, size', mtime' :: f != file ==>
        Look(View(), f, size', mtime').0 == Look(old(View()), f, size', mtime').0
    {
      m := m[file := Entry(size, mtime, sha)];
    }

    method EndLocked(file: Path, ch: Chan)
      modifies this`busy, this`closed
      ensures View() == Closing(old(View()), file, ch)
      ensures ch in closed && forall size, mtime :: !Look(View(), file, size, mtime).0.InFlight?
      ensures forall f, size, mtime :: f != file ==>
        Look(View(), f, size, mtime).0 == Look(old(View()), f, size, mtime).0
    {
      busy := busy - {file};
      closed := closed + {ch};
    }
  }

  // ---------- Callers ----------

  /** A hash that was computed, and the version of the file it read. */
  datatype Sum = Sum(sha: string, at: nat)

  datatype Phase =
    | Started
    | Keyed(stat: nat)                            // about to take the lock
    | Waits(stat: nat, ch: Chan)
    | Owns(stat: nat, ch: Chan)                   // queueing for one of the two slots
    | Hashing(stat: nat, ch: Chan)
    | Hashed(stat: nat, ch: Chan, sum: Option<Sum>)  // None: failed or abandoned
    | Kept(stat: nat, ch: Chan, sum: Option<Sum>)    // stored, if there was anything to store
    | Putting(stat: nat, sha: string)
    | Returned(sha: string, till: nat)
    | Ended                                       // failed, abandoned, or a Put that is done

  datatype Call = Call(file: Path, from: nat, phase: Phase)

  datatype State = State(
    hist: map<Path, seq<Version>>,  // every version each file has had; the last is the current one
    core: Core,
    saved: map<Path, Entry>,        // hashes.json
    calls: map<CallId, Call>,
    hashing: set<CallId>,           // the semaphore
    owner: map<Path, CallId>)       // history: the call each in-flight hash belongs to

  const SLOTS := 2

  datatype Step =
    | Change(file: Path, v: Version)
    | Begin(c: CallId, file: Path)
    | Stat(c: CallId)
    | LookUp(c: CallId)
    | Wake(c: CallId)
    | Abandon(c: CallId)
    | Acquire(c: CallId)
    | Read(c: CallId, fails: bool)
    | Keep(c: CallId)
    | End(c: CallId)
    | BeginPut(c: CallId, file: Path)
    | EndPut(c: CallId)
    | Save
    | Restart(corrupt: bool)

  function Now(s: State, file: Path): nat
    requires file in s.hist && s.hist[file] != []
  {
    |s.hist[file]| - 1
  }

  predicate Known(s: State, file: Path) { file in s.hist && s.hist[file] != [] }

  function Current(s: State, file: Path): Version
    requires Known(s, file)
  {
    s.hist[file][|s.hist[file]| - 1]
  }

  predicate Active(s: State, c: CallId) { c in s.calls && Known(s, s.calls[c].file) }

  predicate StatOK(s: State, call: Call, i: nat) {
    Known(s, call.file) && i < |s.hist[call.file]| && s.hist[call.file][i].There?
  }

  predicate Enabled(s: State, step: Step) {
    match step
    case Change(file, v) => // a change strictly raises the mtime
      v.There? ==> file in s.hist ==> forall w <- s.hist[file] :: w.There? ==> w.mtime < v.mtime
    case Begin(c, file) => c !in s.calls && Known(s, file)
    case Stat(c) => Active(s, c) && s.calls[c].phase.Started?
    case LookUp(c) => Active(s, c) && s.calls[c].phase.Keyed? && StatOK(s, s.calls[c], s.calls[c].phase.stat)
    case Wake(c) => Active(s, c) && s.calls[c].phase.Waits? && s.calls[c].phase.ch in s.core.closed
    case Abandon(c) => Active(s, c) && (s.calls[c].phase.Waits? || s.calls[c].phase.Owns?)
    case Acquire(c) => Active(s, c) && s.calls[c].phase.Owns? && |s.hashing| < SLOTS
    case Read(c, _) => Active(s, c) && s.calls[c].phase.Hashing?
    case Keep(c) => Active(s, c) && s.calls[c].phase.Hashed? && StatOK(s, s.calls[c], s.calls[c].phase.stat)
    case End(c) => Active(s, c) && s.calls[c].phase.Kept?
    case BeginPut(c, file) => c !in s.calls && Known(s, file) && Current(s, file).There?
    case EndPut(c) => Active(s, c) && s.calls[c].phase.Putting? && StatOK(s, s.calls[c], s.calls[c].phase.stat)
    case Save => true
    case Restart(_) => true
  }

  function To(s: State, c: CallId, phase: Phase): State
    requires c in s.calls
  {
    s.(calls := s.calls[c := s.calls[c].(phase := phase)])
  }

  function EntryAt(s: State, call: Call, stat: nat, sha: string): Entry
    requires StatOK(s, call, stat)
  {
    Entry(s.hist[call.file][stat].size, s.hist[call.file][stat].mtime, sha)
  }

  function Apply(s: State, step: Step): State
    requires Enabled(s, step)
  {
    match step
    case Change(file, v) => s.(hist := s.hist[file := (if file in s.hist then s.hist[file] else []) + [v]])
    case Begin(c, file) => s.(calls := s.calls[c := Call(file, Now(s, file), Started)])
    case Stat(c) =>
      var file := s.calls[c].file;
      if Current(s, file).There? then To(s, c, Keyed(Now(s, file))) else To(s, c, Ended)
    case LookUp(c) =>
      var call, stat := s.calls[c], s.calls[c].phase.stat;
      var v := s.hist[call.file][stat];
      var (found, core) := Look(s.core, call.file, v.size, v.mtime);
      var s' := s.(core := core);
      (match found
       case Hit(sha) => To(s', c, Returned(sha, Now(s, call.file)))
       case InFlight(ch) => To(s', c, Waits(stat, ch))
       case Mine(ch) => To(s', c, Owns(stat, ch)).(owner := s.owner[call.file := c]))
    case Wake(c) => To(s, c, Keyed(s.calls[c].phase.stat))
    case Abandon(c) =>
      var p := s.calls[c].phase;
      if p.Waits? then To(s, c, Ended) else To(s, c, Hashed(p.stat, p.ch, None))
    case Acquire(c) =>
      var p := s.calls[c].phase;
      To(s, c, Hashing(p.stat, p.ch)).(hashing := s.hashing + {c})
    case Read(c, fails) =>
      var p, v := s.calls[c].phase, Current(s, s.calls[c].file);
      var sum := if fails || v.Gone? then None else Some(Sum(v.sha, Now(s, s.calls[c].file)));
      To(s, c, Hashed(p.stat, p.ch, sum)).(hashing := s.hashing - {c})
    case Keep(c) =>
      var call := s.calls[c];
      var p := call.phase;
      var s' := To(s, c, Kept(p.stat, p.ch, p.sum));
      if p.sum.None? then s' else s'.(core := Storing(s.core, call.file, EntryAt(s, call, p.stat, p.sum.value.sha)))
    case End(c) =>
      var call := s.calls[c];
      var p := call.phase;
      To(s, c, if p.sum.None? then Ended else Returned(p.sum.value.sha, Now(s, call.file)))
        .(core := Closing(s.core, call.file, p.ch), owner := s.owner - {call.file})
    case BeginPut(c, file) => // the caller vouches for the file as it is now
      s.(calls := s.calls[c := Call(file, Now(s, file), Putting(Now(s, file), Current(s, file).sha))])
    case EndPut(c) =>
      var call := s.calls[c];
      To(s, c, Ended).(core := Storing(s.core, call.file, EntryAt(s, call, call.phase.stat, call.phase.sha)))
    case Save => s.(saved := s.core.m)
    case Restart(corrupt) =>
      s.(calls := map[], hashing := {}, owner := map[], core := Core(if corrupt then map[] else s.saved, map[], {}, 0))
  }

  // ---------- The invariant ----------

  ghost predicate Rising(h: seq<Version>) {
    h != [] && forall i, k {:trigger h[i], h[k]} :: 0 <= i < k < |h| && h[i].There? && h[k].There? ==>
      h[i].mtime < h[k].mtime
  }

  /** sha is the hash of the contents of some version from lo to hi. */
  ghost predicate HashOfOne(h: seq<Version>, lo: nat, hi: nat, sha: string) {
    exists k {:trigger h[k]} :: lo <= k <= hi && k < |h| && h[k].There? && h[k].sha == sha
  }

  /** An entry's identity is that of a version, and its hash that of this version or a later one. */
  ghost predicate EntryOK(h: seq<Version>, e: Entry) {
    exists i: nat :: EntryFrom(h, e, i)
  }

  ghost predicate EntryFrom(h: seq<Version>, e: Entry, i: nat) {
    i < |h| && h[i].There? && h[i].size == e.size && h[i].mtime == e.mtime && HashOfOne(h, i, |h| - 1, e.sha)
  }

  ghost predicate EntriesOK(hist: map<Path, seq<Version>>, m: map<Path, Entry>) {
    forall file <- m :: file in hist && EntryOK(hist[file], m[file])
  }

  ghost predicate PhaseOK(h: seq<Version>, from: nat, p: Phase) {
    from < |h| &&
    match p
    case Started => true
    case Ended => true
    case Returned(sha, till) => till < |h| && HashOfOne(h, from, till, sha)
    case Hashed(stat, _, sum) => StatIn(h, from, stat) && (sum.Some? ==> SumIn(h, stat, sum.value))
    case Kept(stat, _, sum) => StatIn(h, from, stat) && (sum.Some? ==> SumIn(h, stat, sum.value))
    case Putting(stat, sha) => StatIn(h, from, stat) && h[stat].sha == sha
    case _ => StatIn(h, from, p.stat)
  }

  ghost predicate StatIn(h: seq<Version>, from: nat, stat: nat) { from <= stat < |h| && h[stat].There? }

  ghost predicate SumIn(h: seq<Version>, stat: nat, sum: Sum) {
    stat <= sum.at < |h| && h[sum.at].There? && h[sum.at].sha == sum.sha
  }

  ghost predicate CallsOK(s: State) {
    forall c <- s.calls :: Known(s, s.calls[c].file) &&
      PhaseOK(s.hist[s.calls[c].file], s.calls[c].from, s.calls[c].phase)
  }

  predicate Owning(p: Phase) { p.Owns? || p.Hashing? || p.Hashed? || p.Kept? }

  /** Each in-flight hash belongs to one call, and each waiter waits for one of them or for a closed channel. */
  ghost predicate OwnersOK(s: State) {
    && s.owner.Keys == s.core.busy.Keys
    && (forall file <- s.owner :: s.owner[file] in s.calls && s.calls[s.owner[file]].file == file
          && Owning(s.calls[s.owner[file]].phase) && s.calls[s.owner[file]].phase.ch == s.core.busy[file])
    && (forall c <- s.calls :: Owning(s.calls[c].phase) ==> s.calls[c].file in s.owner && s.owner[s.calls[c].file] == c)
    && (forall c <- s.calls :: s.calls[c].phase.Waits? ==>
          s.calls[c].phase.ch in s.core.closed ||
            (s.calls[c].file in s.core.busy && s.core.busy[s.calls[c].file] == s.calls[c].phase.ch))
  }

  ghost predicate SlotsOK(s: State) {
    && |s.hashing| <= SLOTS
    && (forall c <- s.hashing :: c in s.calls && s.calls[c].phase.Hashing?)
    && (forall c <- s.calls :: s.calls[c].phase.Hashing? ==> c in s.hashing)
  }

  ghost predicate Inv(s: State) {
    && (forall file <- s.hist :: Rising(s.hist[file]))
    && EntriesOK(s.hist, s.core.m) && EntriesOK(s.hist, s.saved)
    && CallsOK(s) && OwnersOK(s) && SlotsOK(s)
  }

  // ---------- A file changes ----------

  lemma {:induction false} HashGrows(h: seq<Version>, v: Version, lo: nat, hi: nat, hi': nat, sha: string)
    requires HashOfOne(h, lo, hi, sha) && hi <= hi'
    ensures HashOfOne(h + [v], lo, hi', sha)
  {
    var k :| lo <= k <= hi && k < |h| && h[k].There? && h[k].sha == sha;
    assert (h + [v])[k] == h[k];
  }

  lemma {:induction false} EntryGrows(h: seq<Version>, v: Version, e: Entry)
    requires EntryOK(h, e)
    ensures EntryOK(h + [v], e)
  {
    var i: nat :| EntryFrom(h, e, i);
    HashGrows(h, v, i, |h| - 1, |h|, e.sha);
    assert EntryFrom(h + [v], e, i);
  }

  lemma {:induction false} PhaseGrows(h: seq<Version>, v: Version, from: nat, p: Phase)
    requires PhaseOK(h, from, p)
    ensures PhaseOK(h + [v], from, p)
  {
    if p.Returned? {
      HashGrows(h, v, from, p.till, p.till, p.sha);
    }
  }

  lemma {:induction false} ChangeKeeps(s: State, file: Path, v: Version)
    requires Inv(s) && Enabled(s, Change(file, v))
    ensures Inv(Apply(s, Change(file, v)))
  {
    var s' := Apply(s, Change(file, v));
    if file in s.hist {
      var h := s.hist[file];
      assert Rising(h + [v]);
      forall f | f in s.core.m ensures EntryOK(s'.hist[f], s.core.m[f]) {
        if f == file { EntryGrows(h, v, s.core.m[f]); }
      }
      forall f | f in s.saved ensures EntryOK(s'.hist[f], s.saved[f]) {
        if f == file { EntryGrows(h, v, s.saved[f]); }
      }
      forall c | c in s.calls
        ensures Known(s', s.calls[c].file) && PhaseOK(s'.hist[s.calls[c].file], s.calls[c].from, s.calls[c].phase)
      {
        if s.calls[c].file == file { PhaseGrows(h, v, s.calls[c].from, s.calls[c].phase); }
      }
    }
  }

  // ---------- A call moves on ----------

  /** A cached entry a caller's stat matches was hashed no earlier than that stat. */
  lemma {:induction false} HitIsRecent(h: seq<Version>, e: Entry, stat: nat)
    requires Rising(h) && EntryOK(h, e) && stat < |h| && h[stat].There? && h[stat].size == e.size
    requires h[stat].mtime == e.mtime
    ensures HashOfOne(h, stat, |h| - 1, e.sha)
  {
    var i: nat :| EntryFrom(h, e, i);
    assert i == stat;
  }

  /** Only call c has moved. */
  ghost predicate OneMoved(s: State, s': State, c: CallId) {
    && c in s.calls && c in s'.calls && s'.calls == s.calls[c := s'.calls[c]] && s'.hist == s.hist
    && s'.calls[c].file == s.calls[c].file && s'.calls[c].from == s.calls[c].from
  }

  lemma {:induction false} CallMoves(s: State, s': State, c: CallId)
    requires CallsOK(s) && OneMoved(s, s', c) && PhaseOK(s.hist[s.calls[c].file], s.calls[c].from, s'.calls[c].phase)
    ensures CallsOK(s')
  {
    forall d <- s'.calls
      ensures Known(s', s'.calls[d].file) &&
        PhaseOK(s'.hist[s'.calls[d].file], s'.calls[d].from, s'.calls[d].phase)
    {
      assert Known(s, s.calls[d].file);
    }
  }

  lemma {:induction false} SlotsFrame(s: State, s': State, c: CallId)
    requires SlotsOK(s) && OneMoved(s, s', c) && s'.hashing == s.hashing
    requires !s.calls[c].phase.Hashing? && !s'.calls[c].phase.Hashing?
    ensures SlotsOK(s')
  {
  }

  lemma {:induction false} LookUpKeeps(s: State, c: CallId)
    requires Inv(s) && Enabled(s, LookUp(c))
    ensures Inv(Apply(s, LookUp(c)))
  {
    var s' := Apply(s, LookUp(c));
    LookUpPhase(s, c);
    LookUpOwners(s, c);
    PutTogether(s, s', c);
  }

  lemma {:induction false} PutTogether(s: State, s': State, c: CallId)
    requires Inv(s) && OneMoved(s, s', c) && OwnersOK(s')
    requires PhaseOK(s.hist[s.calls[c].file], s.calls[c].from, s'.calls[c].phase)
    requires s'.core.m == s.core.m && s'.saved == s.saved && s'.hashing == s.hashing
    requires !s.calls[c].phase.Hashing? && !s'.calls[c].phase.Hashing?
    ensures Inv(s')
  {
    CallMoves(s, s', c);
    SlotsFrame(s, s', c);
  }

  lemma {:induction false} LookUpPhase(s: State, c: CallId)
    requires CallsOK(s) && Enabled(s, LookUp(c)) && EntriesOK(s.hist, s.core.m) && Rising(s.hist[s.calls[c].file])
    ensures OneMoved(s, Apply(s, LookUp(c)), c)
    ensures Apply(s, LookUp(c)).core.m == s.core.m && Apply(s, LookUp(c)).saved == s.saved
    ensures Apply(s, LookUp(c)).hashing == s.hashing
    ensures !Apply(s, LookUp(c)).calls[c].phase.Hashing?
    ensures PhaseOK(s.hist[s.calls[c].file], s.calls[c].from, Apply(s, LookUp(c)).calls[c].phase)
  {
    var call, stat := s.calls[c], s.calls[c].phase.stat;
    var h := s.hist[call.file];
    var found := Look(s.core, call.file, h[stat].size, h[stat].mtime).0;
    if found.Hit? {
      HitIsRecent(h, s.core.m[call.file], stat);
      var k :| stat <= k <= |h| - 1 && h[k].There? && h[k].sha == found.sha;
      assert HashOfOne(h, call.from, |h| - 1, found.sha);
    }
  }

  lemma {:induction false} LookUpOwners(s: State, c: CallId)
    requires OwnersOK(s) && Enabled(s, LookUp(c))
    ensures OwnersOK(Apply(s, LookUp(c)))
  {
    var s', file := Apply(s, LookUp(c)), s.calls[c].file;
    forall f | f in s.owner
      ensures s.owner[f] != c && s.owner[f] in s'.calls &&
        s'.calls[s.owner[f]] == s.calls[s.owner[f]]
    {
      assert Owning(s.calls[s.owner[f]].phase);
    }
    if s'.calls[c].phase.Owns? {
      MineOwners(s, s', c);
    } else {
      assert s'.owner == s.owner && s'.core.busy == s.core.busy && s'.core.closed == s.core.closed;
    }
  }

  lemma {:induction false} MineOwners(s: State, s': State, c: CallId)
    requires OwnersOK(s) && c in s.calls && !Owning(s.calls[c].phase)
    requires OneMoved(s, s', c) && s'.calls[c].phase.Owns? && s.calls[c].file !in s.core.busy
    requires s'.core.busy == s.core.busy[s.calls[c].file := s'.calls[c].phase.ch] && s'.core.closed == s.core.closed
    requires s'.owner == s.owner[s.calls[c].file := c]
    ensures OwnersOK(s')
  {
  }

  lemma {:induction false} StoreOK(s: State, call: Call, stat: nat, sha: string, at: nat)
    requires Known(s, call.file) && StatIn(s.hist[call.file], call.from, stat)
    requires SumIn(s.hist[call.file], stat, Sum(sha, at))
    requires EntriesOK(s.hist, s.core.m)
    ensures EntriesOK(s.hist, Storing(s.core, call.file, EntryAt(s, call, stat, sha)).m)
  {
    var h, e := s.hist[call.file], EntryAt(s, call, stat, sha);
    assert h[at].sha == sha;
    assert EntryFrom(h, e, stat);
  }

  lemma {:induction false} KeepKeeps(s: State, c: CallId)
    requires Inv(s) && Enabled(s, Keep(c))
    ensures Inv(Apply(s, Keep(c)))
  {
    var call := s.calls[c];
    var p := call.phase;
    if p.sum.Some? {
      StoreOK(s, call, p.stat, p.sum.value.sha, p.sum.value.at);
    }
    CallMoves(s, Apply(s, Keep(c)), c);
    SlotsFrame(s, Apply(s, Keep(c)), c);
    SimpleOwners(s, Apply(s, Keep(c)), c);
  }

  /** A call moves within or into the phases that own nothing new. */
  lemma {:induction false} SimpleOwners(s: State, s': State, c: CallId)
    requires OwnersOK(s) && c in s.calls && c in s'.calls && s'.calls == s.calls[c := s'.calls[c]]
    requires s'.calls[c].file == s.calls[c].file
    requires s'.owner == s.owner && s'.core.busy == s.core.busy && s'.core.closed == s.core.closed
    requires Owning(s'.calls[c].phase) == Owning(s.calls[c].phase) && !s'.calls[c].phase.Waits?
    requires Owning(s.calls[c].phase) ==> s'.calls[c].phase.ch == s.calls[c].phase.ch
    ensures OwnersOK(s')
  {
  }

  lemma {:induction false} EndKeeps(s: State, c: CallId)
    requires Inv(s) && Enabled(s, End(c))
    ensures Inv(Apply(s, End(c)))
  {
    var call := s.calls[c];
    var p, h := call.phase, s.hist[call.file];
    if p.sum.Some? {
      assert h[p.sum.value.at].sha == p.sum.value.sha;
      assert HashOfOne(h, call.from, |h| - 1, p.sum.value.sha);
    }
    CallMoves(s, Apply(s, End(c)), c);
    SlotsFrame(s, Apply(s, End(c)), c);
    EndOwners(s, c);
  }

  lemma {:induction false} EndOwners(s: State, c: CallId)
    requires OwnersOK(s) && Enabled(s, End(c))
    ensures OwnersOK(Apply(s, End(c)))
  {
    var s', file := Apply(s, End(c)), s.calls[c].file;
    assert s.owner[file] == c && s.core.busy[file] == s.calls[c].phase.ch;
    forall d | d in s'.calls && Owning(s'.calls[d].phase)
      ensures s'.calls[d].file in s'.owner && s'.owner[s'.calls[d].file] == d
    {
      assert d != c && s.calls[d].file != file;
    }
  }

  lemma {:induction false} PlainKeeps(s: State, step: Step)
    requires Inv(s) && Enabled(s, step) && (step.Stat? || step.Wake? || step.Abandon?)
    ensures Inv(Apply(s, step))
  {
    var s', c := Apply(s, step), step.c;
    PlainPhase(s, step);
    SimpleOwners(s, s', c);
    PutTogether(s, s', c);
  }

  lemma {:induction false} PlainPhase(s: State, step: Step)
    requires CallsOK(s) && Enabled(s, step) && (step.Stat? || step.Wake? || step.Abandon?)
    ensures
      var s', c := Apply(s, step), step.c;
      && OneMoved(s, s', c) && s'.core == s.core && s'.saved == s.saved && s'.hashing == s.hashing
      && s'.owner == s.owner
      && PhaseOK(s.hist[s.calls[c].file], s.calls[c].from, s'.calls[c].phase)
      && !s.calls[c].phase.Hashing? && !s'.calls[c].phase.Hashing? && !s'.calls[c].phase.Waits?
      && Owning(s'.calls[c].phase) == Owning(s.calls[c].phase)
      && (Owning(s.calls[c].phase) ==> s'.calls[c].phase.ch == s.calls[c].phase.ch)
  {
  }

  lemma {:induction false} EndPutKeeps(s: State, c: CallId)
    requires Inv(s) && Enabled(s, EndPut(c))
    ensures Inv(Apply(s, EndPut(c)))
  {
    var s', p := Apply(s, EndPut(c)), s.calls[c].phase;
    StoreOK(s, s.calls[c], p.stat, p.sha, p.stat);
    CallMoves(s, s', c);
    SlotsFrame(s, s', c);
    SimpleOwners(s, s', c);
  }

  lemma {:induction false} AcquireKeeps(s: State, c: CallId)
    requires Inv(s) && Enabled(s, Acquire(c))
    ensures Inv(Apply(s, Acquire(c)))
  {
    var s' := Apply(s, Acquire(c));
    CallMoves(s, s', c);
    SimpleOwners(s, s', c);
  }

  lemma {:induction false} ReadKeeps(s: State, c: CallId, fails: bool)
    requires Inv(s) && Enabled(s, Read(c, fails))
    ensures Inv(Apply(s, Read(c, fails)))
  {
    var s' := Apply(s, Read(c, fails));
    CallMoves(s, s', c);
    SimpleOwners(s, s', c);
  }

  lemma {:induction false} BeginCalls(s: State, step: Step)
    requires (forall file <- s.hist :: Rising(s.hist[file])) && CallsOK(s) && Enabled(s, step)
    requires (step.Begin? || step.BeginPut?)
    ensures CallsOK(Apply(s, step))
  {
    var s' := Apply(s, step);
    forall d <- s'.calls
      ensures Known(s', s'.calls[d].file) &&
        PhaseOK(s'.hist[s'.calls[d].file], s'.calls[d].from, s'.calls[d].phase)
    {
      assert d != step.c ==> s'.calls[d] == s.calls[d];
    }
  }

  lemma {:induction false} BeginOwners(s: State, step: Step)
    requires OwnersOK(s) && SlotsOK(s) && Enabled(s, step) && (step.Begin? || step.BeginPut?)
    ensures OwnersOK(Apply(s, step)) && SlotsOK(Apply(s, step))
  {
    var s' := Apply(s, step);
    forall f | f in s.owner ensures s.owner[f] != step.c && s'.calls[s'.owner[f]] == s.calls[s.owner[f]] {
    }
  }

  lemma {:induction false} BeginKeeps(s: State, step: Step)
    requires Inv(s) && Enabled(s, step) && (step.Begin? || step.BeginPut?)
    ensures Inv(Apply(s, step))
  {
    BeginCalls(s, step);
    BeginOwners(s, step);
  }

  lemma {:induction false} StepKeeps(s: State, step: Step)
    requires Inv(s) && Enabled(s, step)
    ensures Inv(Apply(s, step))
  {
    match step
    case Change(file, v) => ChangeKeeps(s, file, v);
    case Begin(_, _) => BeginKeeps(s, step);
    case BeginPut(_, _) => BeginKeeps(s, step);
    case Stat(_) => PlainKeeps(s, step);
    case Wake(_) => PlainKeeps(s, step);
    case Abandon(_) => PlainKeeps(s, step);
    case EndPut(c) => EndPutKeeps(s, c);
    case LookUp(c) => LookUpKeeps(s, c);
    case Acquire(c) => AcquireKeeps(s, c);
    case Read(c, fails) => ReadKeeps(s, c, fails);
    case Keep(c) => KeepKeeps(s, c);
    case End(c) => EndKeeps(s, c);
    case Save =>
    case Restart(_) =>
  }

  // ---------- What every run guarantees ----------

  ghost predicate IsRun(s: State, steps: seq<Step>)
    decreases |steps|
  {
    steps == [] || (Enabled(s, steps[0]) && IsRun(Apply(s, steps[0]), steps[1..]))
  }

  ghost function After(s: State, steps: seq<Step>): State
    requires IsRun(s, steps)
    decreases |steps|
  {
    if steps == [] then s else After(Apply(s, steps[0]), steps[1..])
  }

  lemma {:induction false} RunKeeps(s: State, steps: seq<Step>)
    requires Inv(s) && IsRun(s, steps)
    ensures Inv(After(s, steps))
    decreases |steps|
  {
    if steps != [] {
      StepKeeps(s, steps[0]);
      RunKeeps(Apply(s, steps[0]), steps[1..]);
    }
  }

  /** A freshly opened cache, with nothing remembered. */
  ghost predicate Init(s: State) {
    && s.core == Core(map[], map[], {}, 0) && s.saved == map[] && s.calls == map[] && s.hashing == {}
    && s.owner == map[]
    && forall file <- s.hist :: Rising(s.hist[file])
  }

  /** A successful call returns the hash of contents the file had at some moment during that call. */
  lemma {:induction false} ReturnsAHashOfItsTime(s: State, steps: seq<Step>, c: CallId)
    requires Init(s) && IsRun(s, steps) && c in After(s, steps).calls && After(s, steps).calls[c].phase.Returned?
    ensures
      var t := After(s, steps);
      var call := t.calls[c];
      call.file in t.hist && call.phase.till < |t.hist[call.file]| &&
        HashOfOne(t.hist[call.file], call.from, call.phase.till, call.phase.sha)
  {
    RunKeeps(s, steps);
  }

  /** In particular, on a file that did not change during the call it agrees with hashing directly. */
  lemma {:induction false} AgreesWithHashing(s: State, steps: seq<Step>, c: CallId)
    requires Init(s) && IsRun(s, steps) && c in After(s, steps).calls && After(s, steps).calls[c].phase.Returned?
    requires After(s, steps).calls[c].from == After(s, steps).calls[c].phase.till
    ensures
      var t := After(s, steps);
      var call := t.calls[c];
      call.file in t.hist && call.from < |t.hist[call.file]| && t.hist[call.file][call.from].There? &&
        t.hist[call.file][call.from].sha == call.phase.sha
  {
    ReturnsAHashOfItsTime(s, steps, c);
  }

  /** At most two hashes run, and never two for one file; a waiter's channel is closed once its hash is not in
      flight. */
  lemma {:induction false} OneHashPerFile(s: State, steps: seq<Step>, c: CallId, d: CallId)
    requires Init(s) && IsRun(s, steps) && c in After(s, steps).calls && d in After(s, steps).calls
    ensures
      var t := After(s, steps);
      var p, q := t.calls[c], t.calls[d];
      && |t.hashing| <= SLOTS && (p.phase.Hashing? <==> c in t.hashing)
      && (c != d && Owning(p.phase) && Owning(q.phase) ==> p.file != q.file)
      && (p.phase.Waits? && p.phase.ch !in t.core.closed ==>
            p.file in t.owner && t.owner[p.file] in t.calls && Owning(t.calls[t.owner[p.file]].phase)
            && t.calls[t.owner[p.file]].phase.ch == p.phase.ch)
  {
    RunKeeps(s, steps);
  }

  predicate Pending(p: Phase) { !p.Returned? && !p.Ended? }

  /** The next step of a call that is not waiting for another. */
  function NextOf(s: State, c: CallId): Step
    requires c in s.calls && Pending(s.calls[c].phase)
  {
    match s.calls[c].phase
    case Started => Stat(c)
    case Keyed(_) => LookUp(c)
    case Waits(_, _) => Wake(c)
    case Owns(_, _) => Acquire(c)
    case Hashing(_, _) => Read(c, false)
    case Hashed(_, _, _) => Keep(c)
    case Kept(_, _, _) => End(c)
    case Putting(_, _) => EndPut(c)
  }

  /** A pending call that neither waits for an open channel nor for a slot can take its next step. */
  lemma {:induction false} CanProceed(t: State, d: CallId)
    requires CallsOK(t) && d in t.calls && Pending(t.calls[d].phase)
    requires t.calls[d].phase.Waits? ==> t.calls[d].phase.ch in t.core.closed
    requires t.calls[d].phase.Owns? ==> |t.hashing| < SLOTS
    ensures Enabled(t, NextOf(t, d))
  {
  }

  lemma {:induction false} Unblocked(t: State, c: CallId) returns (d: CallId)
    requires OwnersOK(t) && SlotsOK(t) && c in t.calls && Pending(t.calls[c].phase)
    ensures d in t.calls && Pending(t.calls[d].phase)
    ensures t.calls[d].phase.Waits? ==> t.calls[d].phase.ch in t.core.closed
    ensures t.calls[d].phase.Owns? ==> |t.hashing| < SLOTS
  {
    d := c;
    if t.calls[c].phase.Waits? && t.calls[c].phase.ch !in t.core.closed {
      d := t.owner[t.calls[c].file];
    }
    if t.calls[d].phase.Owns? && |t.hashing| >= SLOTS {
      assert t.hashing != {};
      d :| d in t.hashing;
    }
  }

  /** No deadlock: while a call is pending some call can take its next step, without anybody giving up. */
  lemma {:induction false} SomeCallProceeds(s: State, steps: seq<Step>, c: CallId) returns (d: CallId)
    requires Init(s) && IsRun(s, steps) && c in After(s, steps).calls && Pending(After(s, steps).calls[c].phase)
    ensures d in After(s, steps).calls && Pending(After(s, steps).calls[d].phase)
    ensures Enabled(After(s, steps), NextOf(After(s, steps), d))
  {
    RunKeeps(s, steps);
    d := Unblocked(After(s, steps), c);
    CanProceed(After(s, steps), d);
  }

  /** A waiting call goes on only when the hash it waits for has ended, or gives up. */
  lemma {:induction false} WaitsItOut(s: State, step: Step, c: CallId)
    requires Enabled(s, step) && !step.Restart? && c in s.calls && s.calls[c].phase.Waits?
    ensures c in Apply(s, step).calls
    ensures
      || Apply(s, step).calls[c] == s.calls[c] || Apply(s, step).calls[c].phase.Ended?
      || s.calls[c].phase.ch in s.core.closed
  {
    if CallOf(step) != Some(c) {
      OthersLeaveCall(s, step, c);
    }
  }

  function CallOf(step: Step): Option<CallId> {
    if step.Change? || step.Save? || step.Restart? then None else Some(step.c)
  }

  lemma {:induction false} OthersLeaveCall(s: State, step: Step, c: CallId)
    requires Enabled(s, step) && !step.Restart? && c in s.calls && CallOf(step) != Some(c)
    ensures c in Apply(s, step).calls && Apply(s, step).calls[c] == s.calls[c]
  {
  }

  // ---------- A call that nobody disturbs ----------

  lemma {:induction false} Prepend(s: State, step: Step, rest: seq<Step>)
    requires Enabled(s, step) && IsRun(Apply(s, step), rest)
    ensures IsRun(s, [step] + rest) && After(s, [step] + rest) == After(Apply(s, step), rest)
  {
    assert ([step] + rest)[1..] == rest;
  }

  /** s with call c in this phase, begun and still at the present version of the file. */
  function Calling(s: State, c: CallId, file: Path, phase: Phase): State
    requires Known(s, file)
  {
    s.(calls := s.calls[c := Call(file, Now(s, file), phase)])
  }

  predicate CanCall(s: State, c: CallId, file: Path) { c !in s.calls && Known(s, file) && Current(s, file).There? }

  predicate Cached(s: State, file: Path)
    requires Known(s, file) && Current(s, file).There?
  {
    file in s.core.m && s.core.m[file].size == Current(s, file).size && s.core.m[file].mtime == Current(s, file).mtime
  }

  /** A call for a file that is cached as it is returns the cached hash, and hashes nothing. */
  lemma {:induction false} CachedCall(s: State, c: CallId, file: Path)
    requires CanCall(s, c, file) && Cached(s, file)
    ensures
      var steps := [Begin(c, file), Stat(c), LookUp(c)];
      IsRun(s, steps) && After(s, steps) == Calling(s, c, file, Returned(s.core.m[file].sha, Now(s, file)))
  {
    BeginsAndStats(s, c, file);
    var s2 := Calling(s, c, file, Keyed(Now(s, file)));
    Prepend(s2, LookUp(c), []);
    assert [LookUp(c)] + [] == [LookUp(c)];
    Join(s, [Begin(c, file), Stat(c)], [LookUp(c)]);
    assert [Begin(c, file), Stat(c)] + [LookUp(c)] == [Begin(c, file), Stat(c), LookUp(c)];
  }

  /** What such a call leaves when it hashes: the hash cached, its channel closed, nothing in flight. */
  function Completed(s: State, c: CallId, file: Path): State
    requires Known(s, file) && Current(s, file).There?
  {
    var v := Current(s, file);
    Calling(s, c, file, Returned(v.sha, Now(s, file))).(
      core := Core(s.core.m[file := Entry(v.size, v.mtime, v.sha)], s.core.busy,
                   s.core.closed + {s.core.next}, s.core.next + 1))
  }

  lemma {:induction false} Registers(s: State, c: CallId, file: Path)
    requires CanCall(s, c, file) && !Cached(s, file) && file !in s.core.busy
    ensures
      var s2 := Calling(s, c, file, Keyed(Now(s, file)));
      && Enabled(s2, LookUp(c))
      && Apply(s2, LookUp(c)) == Registered(s, c, file)
  {
  }

  lemma {:induction false} Hashes(s3: State, c: CallId)
    requires Active(s3, c) && s3.calls[c].phase.Owns? && |s3.hashing| < SLOTS && c !in s3.hashing
    requires Current(s3, s3.calls[c].file).There?
    ensures
      var p, file := s3.calls[c].phase, s3.calls[c].file;
      var s4 := Apply(s3, Acquire(c));
      && Enabled(s4, Read(c, false))
      && Apply(s4, Read(c, false)) == To(s3, c, Hashed(p.stat, p.ch, Some(Sum(Current(s3, file).sha, Now(s3, file)))))
  {
    assert s3.hashing + {c} - {c} == s3.hashing;
  }

  lemma {:induction false} KeepsAndEnds(s5: State, c: CallId)
    requires Active(s5, c) && s5.calls[c].phase.Hashed? && s5.calls[c].phase.sum.Some?
    requires StatOK(s5, s5.calls[c], s5.calls[c].phase.stat)
    ensures
      var p, file := s5.calls[c].phase, s5.calls[c].file;
      var s6 := Apply(s5, Keep(c));
      && Enabled(s6, End(c))
      && Apply(s6, End(c)) == To(s5, c, Returned(p.sum.value.sha, Now(s5, file))).(
           core := Closing(Storing(s5.core, file, EntryAt(s5, s5.calls[c], p.stat, p.sum.value.sha)), file, p.ch),
           owner := s5.owner - {file})
  {
  }

  lemma {:induction false} TwoSteps(s: State, a: Step, b: Step)
    requires Enabled(s, a) && Enabled(Apply(s, a), b)
    ensures IsRun(s, [a, b]) && After(s, [a, b]) == Apply(Apply(s, a), b)
  {
    Prepend(Apply(s, a), b, []);
    Prepend(s, a, [b]);
    assert [b] + [] == [b] && [a] + [b] == [a, b];
  }

  lemma {:induction false} Join(s: State, xs: seq<Step>, ys: seq<Step>)
    requires IsRun(s, xs) && IsRun(After(s, xs), ys)
    ensures IsRun(s, xs + ys) && After(s, xs + ys) == After(After(s, xs), ys)
    decreases |xs|
  {
    if xs == [] {
      assert xs + ys == ys;
    } else {
      Join(Apply(s, xs[0]), xs[1..], ys);
      assert (xs + ys)[1..] == xs[1..] + ys;
    }
  }

  lemma {:induction false} BeginsAndStats(s: State, c: CallId, file: Path)
    requires CanCall(s, c, file)
    ensures IsRun(s, [Begin(c, file), Stat(c)])
    ensures After(s, [Begin(c, file), Stat(c)]) == Calling(s, c, file, Keyed(Now(s, file)))
  {
    var s1 := Calling(s, c, file, Started);
    assert Apply(s, Begin(c, file)) == s1 && Apply(s1, Stat(c)) == Calling(s, c, file, Keyed(Now(s, file)));
    TwoSteps(s, Begin(c, file), Stat(c));
  }

  /** The state in which the call owns the hash it is to do. */
  function Registered(s: State, c: CallId, file: Path): State
    requires Known(s, file)
  {
    Calling(s, c, file, Owns(Now(s, file), s.core.next)).(
      core := s.core.(busy := s.core.busy[file := s.core.next], next := s.core.next + 1), owner := s.owner[file := c])
  }

  function SumNow(s: State, file: Path): Sum
    requires Known(s, file) && Current(s, file).There?
  {
    Sum(Current(s, file).sha, Now(s, file))
  }

  lemma {:induction false} HashesPart(s: State, c: CallId, file: Path)
    requires CanCall(s, c, file) && |s.hashing| < SLOTS && c !in s.hashing
    ensures
      var s3, steps := Registered(s, c, file), [Acquire(c), Read(c, false)];
      && IsRun(s3, steps)
      && After(s3, steps) == To(s3, c, Hashed(Now(s, file), s.core.next, Some(SumNow(s, file))))
  {
    var s3 := Registered(s, c, file);
    Hashes(s3, c);
    TwoSteps(s3, Acquire(c), Read(c, false));
  }

  lemma {:induction false} EndsPart(s: State, c: CallId, file: Path)
    requires CanCall(s, c, file) && file !in s.core.busy && file !in s.owner
    ensures
      var s5 := To(Registered(s, c, file), c, Hashed(Now(s, file), s.core.next, Some(SumNow(s, file))));
      var steps := [Keep(c), End(c)];
      IsRun(s5, steps) && After(s5, steps) == Completed(s, c, file)
  {
    var s5 := To(Registered(s, c, file), c, Hashed(Now(s, file), s.core.next, Some(SumNow(s, file))));
    KeepsAndEnds(s5, c);
    TwoSteps(s5, Keep(c), End(c));
    CompletedIs(s, s5, c, file);
  }

  lemma {:induction false} CompletedIs(s: State, s5: State, c: CallId, file: Path)
    requires CanCall(s, c, file) && file !in s.core.busy && file !in s.owner
    requires s5 == To(Registered(s, c, file), c, Hashed(Now(s, file), s.core.next, Some(SumNow(s, file))))
    ensures
      var sha := SumNow(s, file).sha;
      && StatOK(s5, s5.calls[c], Now(s, file))
      && To(s5, c, Returned(sha, Now(s5, file))).(
           core := Closing(Storing(s5.core, file, EntryAt(s5, s5.calls[c], Now(s, file), sha)), file, s.core.next),
           owner := s5.owner - {file}) == Completed(s, c, file)
  {
    assert s.core.busy[file := s.core.next] - {file} == s.core.busy && s.owner[file := c] - {file} == s.owner;
  }

  /** A call for a file that is not cached as it is hashes it, returns that hash and leaves it cached. */
  lemma {:induction false} HashingCall(s: State, c: CallId, file: Path) returns (steps: seq<Step>)
    requires Inv(s) && CanCall(s, c, file) && !Cached(s, file) && file !in s.core.busy && |s.hashing| < SLOTS
    ensures IsRun(s, steps) && After(s, steps) == Completed(s, c, file)
  {
    BeginsAndStats(s, c, file);
    Registers(s, c, file);
    var s2, s3 := Calling(s, c, file, Keyed(Now(s, file))), Registered(s, c, file);
    Prepend(s2, LookUp(c), []);
    assert [LookUp(c)] + [] == [LookUp(c)];
    steps := [Begin(c, file), Stat(c)];
    Join(s, steps, [LookUp(c)]);
    steps := steps + [LookUp(c)];
    assert c !in s.hashing;
    HashesPart(s, c, file);
    Join(s, steps, [Acquire(c), Read(c, false)]);
    steps := steps + [Acquire(c), Read(c, false)];
    EndsPart(s, c, file);
    Join(s, steps, [Keep(c), End(c)]);
    steps := steps + [Keep(c), End(c)];
  }

  /** A hash put in for a file as it is, is found by the next call while the file stays so. */
  lemma {:induction false} PutIsFound(s: State, c: CallId, file: Path)
    requires CanCall(s, c, file)
    ensures
      var steps := [BeginPut(c, file), EndPut(c)];
      && IsRun(s, steps) && Known(After(s, steps), file) && Current(After(s, steps), file) == Current(s, file)
      && Cached(After(s, steps), file) && After(s, steps).core.m[file].sha == Current(s, file).sha
  {
    TwoSteps(s, BeginPut(c, file), EndPut(c));
  }

  /** A restart brings back what was saved last, or nothing if that is damaged; no call or hash outlives it. */
  lemma {:induction false} RestartBringsBack(s: State, corrupt: bool)
    ensures
      var t := Apply(Apply(s, Save), Restart(corrupt));
      && t.core.m == (if corrupt then map[] else s.core.m) && t.core.busy == map[]
      && t.calls == map[] && t.hashing == {} && t.hist == s.hist
  {
  }
}
