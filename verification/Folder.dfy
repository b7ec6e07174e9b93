/** A folder model's torrent and directory against its catalogue entry. */
module Folder {
  import opened Catalog

  /** A file as the torrent lists it. */
  datatype Piece = Piece(path: string, size: int)

  datatype Info = Info(name: string, isDir: bool, files: seq<Piece>)

  function Listed(f: File): Piece { Piece(f.name, f.size) }

  function Sizes(fs: seq<File>): (m: map<string, int>)
    ensures m.Keys == Names(fs)
    ensures forall p <- m :: exists f <- fs :: f.name == p && f.size == m[p]
  {
    if fs == [] then map[]
    else
      assert fs == fs[..|fs| - 1] + [fs[|fs| - 1]];
      Sizes(fs[..|fs| - 1])[fs[|fs| - 1].name := fs[|fs| - 1].size]
  }

  predicate PathsApart(ps: seq<Piece>) {
    forall i, j :: 0 <= i < j < |ps| ==> ps[i].path != ps[j].path
  }

  predicate Fits(p: Piece, sizes: map<string, int>) { p.path in sizes && sizes[p.path] == p.size }

  predicate AllFit(ps: seq<Piece>, sizes: map<string, int>) { forall p <- ps :: Fits(p, sizes) }

  function Paths(ps: seq<Piece>): set<string> { set p <- ps :: p.path }

  /** The files are compared by count, then struck off one by one. */
  method CheckFiles(ps: seq<Piece>, sizes: map<string, int>) returns (ok: bool)
    ensures ok <==> |ps| == |sizes| && PathsApart(ps) && AllFit(ps, sizes)
  {
    if |ps| != |sizes| {
      return false;
    }
    var want := sizes;
    for i := 0 to |ps|
      invariant PathsApart(ps[..i]) && AllFit(ps[..i], sizes)
      invariant want == sizes - Paths(ps[..i])
    {
      var p := ps[i];
      if p.path !in want || want[p.path] != p.size {
        Refused(ps, sizes, i);
        return false;
      }
      assert ps[..i + 1] == ps[..i] + [p];
      want := want - {p.path};
    }
    assert ps[..|ps|] == ps;
    return true;
  }

  lemma {:induction false} Refused(ps: seq<Piece>, sizes: map<string, int>, i: nat)
    requires i < |ps| && !(ps[i].path !in Paths(ps[..i]) && Fits(ps[i], sizes))
    ensures !(PathsApart(ps) && AllFit(ps, sizes))
  {
    if ps[i].path in Paths(ps[..i]) {
      var q :| q in ps[..i] && q.path == ps[i].path;
      var k :| 0 <= k < i && ps[k] == q;
      assert !PathsApart(ps);
    }
  }

  method CheckDirInfo(info: Option<Info>, m: Model) returns (ok: bool)
    ensures ok <==>
      && info.Some? && info.value.name == m.revision && info.value.isDir
      && |info.value.files| == |Sizes(m.files)| && PathsApart(info.value.files)
      && AllFit(info.value.files, Sizes(m.files))
  {
    if info.None? {
      return false;
    }
    var want: map<string, int> := map[];
    for i := 0 to |m.files|
      invariant want == Sizes(m.files[..i])
    {
      assert m.files[..i + 1][..i] == m.files[..i];
      want := want[m.files[i].name := m.files[i].size];
    }
    assert m.files[..|m.files|] == m.files;
    if info.value.name != m.revision || !info.value.isDir {
      return false;
    }
    ok := CheckFiles(info.value.files, want);
  }

  lemma {:induction false} SizesLookUp(fs: seq<File>, f: File)
    requires NamesApart(fs) && f in fs
    ensures Fits(Listed(f), Sizes(fs))
  {
    assert f.name in Names(fs);
    var g :| g in fs && g.name == f.name && g.size == Sizes(fs)[f.name];
    var i :| 0 <= i < |fs| && fs[i] == f;
    var k :| 0 <= k < |fs| && fs[k] == g;
    assert i == k;
  }

  lemma {:induction false} PathCount(ps: seq<Piece>)
    requires PathsApart(ps)
    ensures |Paths(ps)| == |ps|
  {
    if ps == [] {
      assert Paths(ps) == {};
    } else {
      var front, last := ps[..|ps| - 1], ps[|ps| - 1];
      PathCount(front);
      assert ps == front + [last];
      assert last.path !in Paths(front);
      assert Paths(ps) == Paths(front) + {last.path};
    }
  }

  lemma {:induction false} SubsetOfSize(a: set<string>, b: set<string>)
    requires a <= b && |a| == |b|
    ensures a == b
  {
    assert b == a + (b - a);
    assert |b - a| == 0;
  }

  /** The torrent lists every file of the entry once, with its size, and nothing else. */
  ghost predicate SameFiles(ps: seq<Piece>, fs: seq<File>) {
    && PathsApart(ps)
    && (forall p <- ps :: exists f <- fs :: p == Listed(f))
    && (forall f <- fs :: Listed(f) in ps)
  }

  /** For an accepted entry, the check passes exactly the torrents that list the entry's files, in any order. */
  lemma {:induction false} CheckedIsSame(ps: seq<Piece>, fs: seq<File>)
    requires NamesApart(fs)
    ensures |ps| == |Sizes(fs)| && PathsApart(ps) && AllFit(ps, Sizes(fs)) <==> SameFiles(ps, fs)
  {
    DistinctNames(fs);
    if PathsApart(ps) {
      PathCount(ps);
    }
    if |ps| == |Sizes(fs)| && PathsApart(ps) && AllFit(ps, Sizes(fs)) {
      FitIsSame(ps, fs);
    }
    if SameFiles(ps, fs) {
      SameIsFit(ps, fs);
    }
  }

  lemma {:induction false} FitIsSame(ps: seq<Piece>, fs: seq<File>)
    requires NamesApart(fs) && |ps| == |Names(fs)| == |Paths(ps)| && PathsApart(ps) && AllFit(ps, Sizes(fs))
    ensures SameFiles(ps, fs)
  {
    assert forall p <- ps :: Fits(p, Sizes(fs));
    assert Paths(ps) <= Names(fs);
    SubsetOfSize(Paths(ps), Names(fs));
    forall p | p in ps ensures exists f <- fs :: p == Listed(f) {
      var f :| f in fs && f.name == p.path && f.size == Sizes(fs)[p.path];
      assert p == Listed(f);
    }
    forall f | f in fs ensures Listed(f) in ps {
      assert f.name in Paths(ps);
      var p :| p in ps && p.path == f.name;
      SizesLookUp(fs, f);
      assert p == Listed(f);
    }
  }

  lemma {:induction false} SameIsFit(ps: seq<Piece>, fs: seq<File>)
    requires NamesApart(fs) && SameFiles(ps, fs) && |Paths(ps)| == |ps|
    ensures |ps| == |Sizes(fs)| && AllFit(ps, Sizes(fs))
  {
    forall p | p in ps ensures Fits(p, Sizes(fs)) && p.path in Names(fs) {
      var f :| f in fs && p == Listed(f);
      SizesLookUp(fs, f);
    }
    forall f | f in fs ensures f.name in Paths(ps) {
      assert Listed(f) in ps;
    }
    assert Paths(ps) == Names(fs);
    assert |Sizes(fs)| == |Sizes(fs).Keys|;
  }

  // ---------- A directory against the entry ----------

  /** What is at a path: a regular file of some size and hash, or anything else. */
  datatype Node = Regular(size: int, sha: string) | Other

  predicate Holds(dir: map<string, Node>, f: File) {
    f.name in dir && dir[f.name].Regular? && dir[f.name].size == f.size && dir[f.name].sha == f.sha256
  }

  datatype Verdict = Verified | Mismatch | Stopped

  /** All sizes are compared before anything is hashed; a hash that fails, or a stop, says nothing about the
      contents. */
  method VerifyDir(dir: map<string, Node>, fs: seq<File>, hashable: string -> bool) returns (v: Verdict, hashed: nat)
    ensures v.Verified? ==> forall f <- fs :: Holds(dir, f)
    ensures v.Mismatch? ==> exists f <- fs :: !Holds(dir, f)
    ensures v.Stopped? ==> exists f <- fs :: !hashable(f.name)
    ensures (exists f <- fs :: !(f.name in dir && dir[f.name].Regular? && dir[f.name].size == f.size)) ==>
      v.Mismatch? && hashed == 0
  {
    hashed := 0;
    for i := 0 to |fs|
      invariant forall f <- fs[..i] :: f.name in dir && dir[f.name].Regular? && dir[f.name].size == f.size
    {
      var f := fs[i];
      if f.name !in dir || !dir[f.name].Regular? || dir[f.name].size != f.size {
        assert !Holds(dir, f);
        return Mismatch, 0;
      }
      assert fs[..i + 1] == fs[..i] + [f];
    }
    assert fs[..|fs|] == fs;
    for i := 0 to |fs|
      invariant forall f <- fs[..i] :: Holds(dir, f)
    {
      var f := fs[i];
      if !hashable(f.name) {
        return Stopped, hashed;
      }
      hashed := hashed + 1;
      if dir[f.name].sha != f.sha256 {
        assert !Holds(dir, f);
        return Mismatch, hashed;
      }
      assert fs[..i + 1] == fs[..i] + [f];
    }
    return Verified, hashed;
  }
}
