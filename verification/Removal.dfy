/** Recognizing and removing a recorded download, on a directory tree. */
module Removal {
  /** The components of an absolute path. */
  type Path = seq<string>

  datatype Identity = Identity(size: int, mtime: int)

  datatype Entry = Regular(id: Identity) | Directory | Special

  datatype Record = FileRecord(path: Path, id: Identity) | DirRecord(path: Path, files: map<Path, Identity>)

  type Tree = map<Path, Entry>

  /** The length of the path written out. */
  function Length(p: Path): nat {
    if p == [] then 0 else Length(p[..|p| - 1]) + |p[|p| - 1]| + 1
  }

  /** A parent is written shorter than what is inside it. */
  lemma {:induction false} ParentIsShorter(d: Path, p: Path)
    requires d < p
    ensures Length(d) < Length(p)
  {
    if d != p[..|p| - 1] {
      ParentIsShorter(d, p[..|p| - 1]);
    }
  }

  predicate Plain(c: string) { c != "" && c != "." && c != ".." }

  /** filepath.Join: ".." goes up, "." and empty parts are dropped. */
  function Join(root: Path, rel: Path): Path
    decreases |rel|
  {
    if rel == [] then root
    else if rel[0] == ".." then Join(if root == [] then [] else root[..|root| - 1], rel[1..])
    else if rel[0] == "." || rel[0] == "" then Join(root, rel[1..])
    else Join(root + [rel[0]], rel[1..])
  }

  lemma {:induction false} JoinPlain(root: Path, rel: Path)
    requires forall c <- rel :: Plain(c)
    ensures Join(root, rel) == root + rel
    decreases |rel|
  {
    if rel != [] {
      assert rel[0] in rel;
      JoinPlain(root + [rel[0]], rel[1..]);
    } else {
      assert root + rel == root;
    }
  }

  /** p has plain names and sits in a directory. */
  ghost predicate PlacedOK(t: Tree, p: Path) {
    (forall c <- p :: Plain(c)) && (p != [] ==> p[..|p| - 1] in t && t[p[..|p| - 1]].Directory?)
  }

  ghost predicate TreeOK(t: Tree) {
    forall p {:trigger PlacedOK(t, p)} :: p in t ==> PlacedOK(t, p)
  }

  /** Everything that is not a directory below root, by its path relative to root. */
  function Below(t: Tree, root: Path): set<Path> {
    set p <- t | root < p && !t[p].Directory? :: p[|root|..]
  }

  /** The record still describes what is there: the one file, or exactly the recorded files, each unchanged. */
  ghost predicate Matches(t: Tree, rec: Record) {
    && rec.path in t
    && match rec
       case FileRecord(p, id) => t[p] == Regular(id)
       case DirRecord(p, files) =>
         && t[p].Directory? && Below(t, p) == files.Keys
         && forall rel <- files :: p + rel in t && t[p + rel] == Regular(files[rel])
  }

  lemma {:induction false} BelowIsThere(t: Tree, root: Path, rel: Path)
    requires rel in Below(t, root)
    ensures rel != [] && root + rel in t && !t[root + rel].Directory?
  {
    var p :| p in t && root < p && !t[p].Directory? && p[|root|..] == rel;
    assert p == root + rel;
  }

  /** A folder matches its record exactly if every file, link or device in it is recorded and unchanged, and every
      recorded file is there. */
  lemma {:induction false} MatchIs(t: Tree, rec: Record)
    requires rec.DirRecord?
    ensures Matches(t, rec) <==>
      && rec.path in t && t[rec.path].Directory?
      && (forall q <- t :: rec.path < q && !t[q].Directory? ==>
            q[|rec.path|..] in rec.files && t[q] == Regular(rec.files[q[|rec.path|..]]))
      && (forall rel <- rec.files :: rec.path + rel in t && t[rec.path + rel] == Regular(rec.files[rel]))
  {
    forall q | q in t && rec.path < q ensures q == rec.path + q[|rec.path|..] {
    }
    if Matches(t, rec) {
      forall q | q in t && rec.path < q && !t[q].Directory? ensures q[|rec.path|..] in Below(t, rec.path) {
      }
    } else if rec.path in t && t[rec.path].Directory? {
      forall rel | rel in rec.files && rec.path + rel in t && t[rec.path + rel] == Regular(rec.files[rel])
        ensures rel in Below(t, rec.path)
      {
        assert rel != [] by { assert rec.path + [] == rec.path; }
        assert rec.path < rec.path + rel && (rec.path + rel)[|rec.path|..] == rel;
      }
    }
  }

  /** statRecorded: walks the directory and counts. */
  method StatRecorded(t: Tree, rec: Record) returns (missing: bool, isMatch: bool)
    ensures missing <==> rec.path !in t
    ensures isMatch <==> Matches(t, rec)
  {
    if rec.path !in t {
      return true, false;
    }
    if rec.FileRecord? {
      return false, t[rec.path] == Regular(rec.id);
    }
    if !t[rec.path].Directory? {
      return false, false;
    }
    forall rel <- Below(t, rec.path) ensures rec.path + rel in t {
      BelowIsThere(t, rec.path, rel);
    }
    isMatch := Walk(t, rec, Below(t, rec.path));
    return false, isMatch;
  }

  /** Looks each of these files up in the record, and counts them. */
  method Walk(t: Tree, rec: Record, all: set<Path>) returns (same: bool)
    requires rec.DirRecord? && forall rel <- all :: rec.path + rel in t
    ensures same <==> all == rec.files.Keys && AllRecorded(t, rec, all)
  {
    var todo, seen := all, 0;
    while todo != {}
      invariant todo <= all && seen == |all - todo|
      invariant AllRecorded(t, rec, all - todo)
      decreases todo
    {
      var rel :| rel in todo;
      if !(rel in rec.files && t[rec.path + rel] == Regular(rec.files[rel])) {
        assert rel in all;
        return false;
      }
      OneMoreRecorded(t, rec, all, todo, rel);
      todo, seen := todo - {rel}, seen + 1;
    }
    assert all - todo == all;
    SameSize(all, rec.files.Keys);
    return seen == |rec.files|;
  }

  /** Each of these files is recorded and unchanged. */
  predicate AllRecorded(t: Tree, rec: Record, rels: set<Path>)
    requires rec.DirRecord?
  {
    forall rel <- rels :: rel in rec.files && rec.path + rel in t && t[rec.path + rel] == Regular(rec.files[rel])
  }

  lemma {:induction false} OneMoreRecorded(t: Tree, rec: Record, all: set<Path>, todo: set<Path>, rel: Path)
    requires rec.DirRecord? && AllRecorded(t, rec, all - todo) && rel in todo && todo <= all
    requires rel in rec.files && rec.path + rel in t && t[rec.path + rel] == Regular(rec.files[rel])
    ensures AllRecorded(t, rec, all - (todo - {rel})) && |all - (todo - {rel})| == |all - todo| + 1
  {
    assert all - (todo - {rel}) == (all - todo) + {rel};
  }

  lemma {:induction false} SameSize<T>(a: set<T>, b: set<T>)
    requires a <= b
    ensures |a| == |b| <==> a == b
  {
    assert b == a + (b - a);
    assert |b| == |a| + |b - a|;
  }

  // ---------- Removing ----------

  datatype Errno = NoError | NotExist | NotEmpty | Refused

  predicate Vacant(t: Tree, p: Path) { forall q <- t :: !(p < q) }

  /** The subtree at d holds nothing but directories of dirs. */
  predicate Clear(t: Tree, dirs: set<Path>, d: Path) { forall q <- t :: d <= q ==> q in dirs }

  lemma {:induction false} LongestExists(s: set<Path>)
    requires s != {}
    ensures exists d :: d in s && forall x <- s :: Length(x) <= Length(d)
  {
    var x :| x in s;
    if s != {x} {
      var rest := s - {x};
      assert rest != {} by {
        assert s == rest + {x};
      }
      LongestExists(rest);
      var d :| d in rest && forall y <- rest :: Length(y) <= Length(d);
      var m := if Length(d) >= Length(x) then d else x;
      assert forall y <- s :: y == x || y in rest;
      assert m in s && forall y <- s :: Length(y) <= Length(m);
    }
  }

  /** Removing each of dirs deepest first, once those longer than d have been seen to, removes d exactly if nothing
      else is inside it. */
  lemma {:induction false} DeepestFirst(t0: Tree, t: Tree, dirs: set<Path>, todo: set<Path>, d: Path)
    requires todo <= dirs && d in todo && forall x <- todo :: Length(x) <= Length(d)
    requires forall q :: q in t <==> q in t0 && !(q in dirs - todo && Clear(t0, dirs, q))
    ensures d in t0 ==> (Vacant(t, d) <==> Clear(t0, dirs, d))
  {
    if d in t0 {
      if Clear(t0, dirs, d) {
        forall q | q in t ensures !(d < q) {
          GoneBelow(t0, dirs, todo, d, q);
        }
      } else {
        var q :| q in t0 && d <= q && q !in dirs;
        assert |d| == |q| ==> q == d;
        assert q in t && d < q;
      }
    }
  }

  lemma {:induction false} GoneBelow(t0: Tree, dirs: set<Path>, todo: set<Path>, d: Path, q: Path)
    requires Clear(t0, dirs, d) && forall x <- todo :: Length(x) <= Length(d)
    ensures q in t0 && d < q ==> q in dirs - todo && Clear(t0, dirs, q)
  {
    if d < q {
      ParentIsShorter(d, q);
    }
  }

  /** The directories strictly between root and root + rel. */
  function Between(root: Path, rel: Path): set<Path> { set k | 0 < k < |rel| :: root + rel[..k] }

  /** The directories a recorded folder's files are in, up to its root. */
  function Parents(rec: Record): set<Path>
    requires rec.DirRecord?
  {
    {rec.path} + AllBetween(rec.path, rec.files.Keys)
  }

  function AllBetween(root: Path, rels: set<Path>): set<Path> {
    set rel, p | rel in rels && p in Between(root, rel) :: p
  }

  /** These are the root and every directory between it and a recorded file. */
  lemma {:induction false} ParentsAre(rec: Record, d: Path)
    requires rec.DirRecord?
    ensures d in Parents(rec) <==> d == rec.path || exists rel <- rec.files :: rec.path < d < rec.path + rel
  {
    if d != rec.path && d in Parents(rec) {
      var rel :| rel in rec.files && d in Between(rec.path, rel);
      var k :| 0 < k < |rel| && d == rec.path + rel[..k];
      assert rec.path + rel == d + rel[k..];
    }
    if rel :| rel in rec.files && rec.path < d < rec.path + rel {
      var k := |d| - |rec.path|;
      assert d == rec.path + rel[..k];
      assert d in Between(rec.path, rel);
    }
  }

  function Under(root: Path, rels: set<Path>): set<Path> { set rel <- rels :: root + rel }

  function RecordedFiles(rec: Record): set<Path> {
    match rec
    case FileRecord(p, _) => {p}
    case DirRecord(p, files) => Under(p, files.Keys)
  }

  /** Nothing is at or below d but recorded files and directories they are in. */
  predicate OnlyRecordedBelow(t: Tree, rec: Record, d: Path)
    requires rec.DirRecord?
  {
    forall q <- t :: d <= q ==> q in RecordedFiles(rec) || q in Parents(rec)
  }

  lemma {:induction false} NothingInsideAFile(t: Tree, p: Path, q: Path)
    requires TreeOK(t) && p in t && !t[p].Directory?
    ensures q in t ==> !(p < q)
  {
    assert q in t ==> PlacedOK(t, q);
    if q in t && p < q && q[..|q| - 1] != p {
      NothingInsideAFile(t, p, q[..|q| - 1]);
    }
  }

  class FileSystem {
    var tree: Tree
    const denied: set<Path>  // paths the operating system refuses to remove

    constructor (tree: Tree, denied: set<Path>)
      ensures this.tree == tree && this.denied == denied
    {
      this.tree, this.denied := tree, denied;
    }

    /** os.Remove. */
    method Remove(p: Path) returns (e: Errno)
      modifies this
      ensures e.NotExist? <==> p !in old(tree)
      ensures e.Refused? <==> p in old(tree) && p in denied
      ensures e.NotEmpty? <==> p in old(tree) && p !in denied && !Vacant(old(tree), p)
      ensures tree == if e.NoError? then old(tree) - {p} else old(tree)
    {
      if p !in tree {
        return NotExist;
      }
      if p in denied {
        return Refused;
      }
      if !Vacant(tree, p) {
        return NotEmpty;
      }
      tree := tree - {p};
      return NoError;
    }

    /** Removes each of dirs that is empty, deepest first. */
    method RemoveEmptyDirs(dirs: set<Path>) returns (ok: bool)
      modifies this
      ensures ok <==> forall d <- dirs :: d in old(tree) ==> d !in denied
      ensures ok ==> forall q :: q in tree <==> q in old(tree) && !(q in dirs && Clear(old(tree), dirs, q))
      ensures tree.Keys <= old(tree).Keys && old(tree).Keys - tree.Keys <= dirs
      ensures forall q <- tree :: tree[q] == old(tree)[q]
    {
      ok := true;
      var todo := dirs;
      while todo != {}
        invariant todo <= dirs && tree.Keys <= old(tree).Keys && old(tree).Keys - tree.Keys <= dirs - todo
        invariant forall q <- tree :: tree[q] == old(tree)[q]
        invariant ok <==> forall d <- dirs - todo :: d in old(tree) ==> d !in denied
        invariant ok ==> forall q :: q in tree <==> q in old(tree) && !(q in dirs - todo && Clear(old(tree), dirs, q))
        decreases todo
      {
        LongestExists(todo);
        var d :| d in todo && forall x <- todo :: Length(x) <= Length(d);
        if ok {
          DeepestFirst(old(tree), tree, dirs, todo, d);
        }
        var e := Remove(d);
        if e.Refused? {
          ok := false;
        }
        assert dirs - (todo - {d}) == dirs - todo + {d};
        todo := todo - {d};
      }
    }

    /** The directories on the way up from a file to root. */
    method Climb(root: Path, p: Path, dirs: set<Path>) returns (dirs': set<Path>)
      requires root < p
      ensures dirs' == dirs + Between(root, p[|root|..])
    {
      var d := p[..|p| - 1];
      dirs' := dirs;
      ghost var rel := p[|root|..];
      assert root + rel == p;
      while d != root
        invariant root <= d < p
        invariant dirs' == dirs + set k | |d| - |root| < k < |rel| :: root + rel[..k]
        decreases |d|
      {
        assert d == root + rel[..|d| - |root|];
        dirs' := dirs' + {d};
        d := d[..|d| - 1];
      }
    }

    method RemoveOne(rec: Record, rel: Path, dirs: set<Path>, ghost t0: Tree, ghost gone: set<Path>)
      returns (ok: bool, dirs': set<Path>)
      requires TreeOK(t0) && rec.DirRecord? && Matches(t0, rec) && rel in rec.files && rel !in gone
      requires tree == t0 - Under(rec.path, gone)
      modifies this
      ensures ok <==> rec.path + rel !in denied
      ensures tree == if ok then t0 - Under(rec.path, gone + {rel}) else t0 - Under(rec.path, gone)
      ensures ok ==> dirs' == dirs + Between(rec.path, rel)
    {
      StillThere(t0, rec, gone, rel);
      var p := Join(rec.path, rel);
      if !(rec.path < p) {
        return false, dirs;
      }
      var e := Remove(p);
      if !e.NoError? && !e.NotExist? {
        return false, dirs;
      }
      dirs' := Climb(rec.path, p, dirs);
      ok := true;
    }

    /** Deletes each file of a recorded folder and collects the directories they are in. */
    method RemoveFiles(rec: Record) returns (ok: bool, dirs: set<Path>, ghost gone: set<Path>)
      requires TreeOK(tree) && rec.DirRecord? && Matches(tree, rec)
      modifies this
      ensures ok <==> RecordedFiles(rec) !! denied
      ensures gone <= rec.files.Keys && tree == old(tree) - Under(rec.path, gone)
      ensures ok ==> gone == rec.files.Keys && dirs == Parents(rec)
    {
      ghost var t0 := tree;
      dirs, gone := {rec.path}, {};
      var todo := rec.files.Keys;
      while todo != {}
        invariant todo <= rec.files.Keys && gone == rec.files.Keys - todo
        invariant Under(rec.path, gone) !! denied
        invariant tree == t0 - Under(rec.path, gone)
        invariant dirs == {rec.path} + AllBetween(rec.path, gone)
        decreases todo
      {
        var rel :| rel in todo;
        OneMore(rec.path, gone, rel);
        ok, dirs := RemoveOne(rec, rel, dirs, t0, gone);
        if !ok {
          assert rec.path + rel in RecordedFiles(rec);
          return;
        }
        todo, gone := todo - {rel}, gone + {rel};
      }
      ok := true;
    }

    /** Deletes what rec, checked before, says was downloaded: the file, or each recorded file and then every directory
        they leave with nothing else inside. */
    method RemoveRecorded(rec: Record) returns (ok: bool)
      requires TreeOK(tree) && Matches(tree, rec)
      modifies this
      ensures ok <==> (RecordedFiles(rec) + if rec.DirRecord? then Parents(rec) else {}) !! denied
      ensures ok && rec.FileRecord? ==> tree == old(tree) - {rec.path}
      ensures ok && rec.DirRecord? ==> forall q :: q in tree <==>
        q in old(tree) && q !in RecordedFiles(rec) && !(q in Parents(rec) && OnlyRecordedBelow(old(tree), rec, q))
      ensures tree.Keys <= old(tree).Keys && forall q <- tree :: tree[q] == old(tree)[q]
      ensures old(tree).Keys - tree.Keys <= RecordedFiles(rec) + if rec.DirRecord? then Parents(rec) else {}
    {
      if rec.FileRecord? {
        NothingInsideAFileAll(tree, rec.path);
        var e := Remove(rec.path);
        return e.NoError?;
      }
      ghost var t0 := tree;
      ParentsAreThere(t0, rec);
      var dirs;
      ghost var gone;
      ok, dirs, gone := RemoveFiles(rec);
      if ok {
        ghost var t1 := tree;
        forall d: Path ensures Clear(t1, Parents(rec), d) == OnlyRecordedBelow(t0, rec, d) {
          ClearIsOnlyRecorded(t0, t1, rec, d);
        }
        ok := RemoveEmptyDirs(dirs);
      }
    }
  }

  lemma {:induction false} ClearIsOnlyRecorded(t0: Tree, t1: Tree, rec: Record, d: Path)
    requires rec.DirRecord? && t1 == t0 - RecordedFiles(rec)
    ensures Clear(t1, Parents(rec), d) == OnlyRecordedBelow(t0, rec, d)
  {
  }

  /** A recorded file is in the tree, at the path its name joins to, with nothing inside it. */
  lemma {:induction false} RecordedIsThere(t: Tree, rec: Record, rel: Path)
    requires TreeOK(t) && rec.DirRecord? && Matches(t, rec) && rel in rec.files
    ensures Join(rec.path, rel) == rec.path + rel && rel != [] && rec.path < rec.path + rel
    ensures rec.path + rel in t && !t[rec.path + rel].Directory? && Vacant(t, rec.path + rel)
  {
    assert rel in Below(t, rec.path);
    BelowIsThere(t, rec.path, rel);
    NamesArePlain(t, rec.path, rel);
    NothingInsideAFileAll(t, rec.path + rel);
  }

  lemma {:induction false} OneMore(root: Path, gone: set<Path>, rel: Path)
    ensures Under(root, gone + {rel}) == Under(root, gone) + {root + rel}
    ensures AllBetween(root, gone + {rel}) == AllBetween(root, gone) + Between(root, rel)
  {
  }

  /** A recorded file not yet removed is still there, and goes alone. */
  lemma {:induction false} StillThere(t: Tree, rec: Record, gone: set<Path>, rel: Path)
    requires TreeOK(t) && rec.DirRecord? && Matches(t, rec) && rel in rec.files && rel !in gone
    ensures
      var p, left := rec.path + rel, t - Under(rec.path, gone);
      && Join(rec.path, rel) == p && rec.path < p && p[|rec.path|..] == rel && p in RecordedFiles(rec)
      && p in left && Vacant(left, p) && left - {p} == t - Under(rec.path, gone + {rel})
    ensures Under(rec.path, gone + {rel}) == Under(rec.path, gone) + {rec.path + rel}
    ensures AllBetween(rec.path, gone + {rel}) == AllBetween(rec.path, gone) + Between(rec.path, rel)
  {
    RecordedIsThere(t, rec, rel);
    OneMore(rec.path, gone, rel);
    forall r | r in gone ensures rec.path + r != rec.path + rel {
      assert (rec.path + r)[|rec.path|..] == r && (rec.path + rel)[|rec.path|..] == rel;
    }
  }

  /** The directories a recorded file is in are in the tree, and are not themselves recorded files. */
  lemma {:induction false} ParentsAreThere(t: Tree, rec: Record)
    requires TreeOK(t) && rec.DirRecord? && Matches(t, rec)
    ensures forall d <- Parents(rec) :: d in t && t[d].Directory? && d !in RecordedFiles(rec)
  {
    forall d <- Parents(rec) ensures d in t && t[d].Directory? {
      if d != rec.path {
        var rel :| rel in rec.files && d in Between(rec.path, rel);
        RecordedIsThere(t, rec, rel);
        AncestorIsThere(t, d, rec.path + rel);
      }
    }
    forall rel | rel in rec.files ensures !t[rec.path + rel].Directory? {
      RecordedIsThere(t, rec, rel);
    }
  }

  lemma {:induction false} AncestorIsThere(t: Tree, d: Path, p: Path)
    requires TreeOK(t) && p in t && d < p
    ensures d in t && t[d].Directory?
  {
    assert PlacedOK(t, p);
    if d != p[..|p| - 1] {
      AncestorIsThere(t, d, p[..|p| - 1]);
    }
  }

  lemma {:induction false} NothingInsideAFileAll(t: Tree, p: Path)
    requires TreeOK(t) && p in t && !t[p].Directory?
    ensures Vacant(t, p)
  {
    forall q <- t ensures !(p < q) {
      NothingInsideAFile(t, p, q);
    }
  }

  lemma {:induction false} NamesArePlain(t: Tree, root: Path, rel: Path)
    requires TreeOK(t) && root + rel in t
    ensures Join(root, rel) == root + rel
  {
    assert PlacedOK(t, root + rel);
    forall c <- rel ensures Plain(c) {
      assert c in root + rel;
    }
    JoinPlain(root, rel);
  }
}
