/** The signed list of models: what a catalogue entry is, and which model lists are accepted. */
module Catalog {

  datatype Option<+T> = None | Some(value: T)

  datatype File = File(name: string, storeAs: string, size: int, sha256: string, infoHash: string, magnet: string)

  datatype Model = Model(
    id: string, hfRepo: string, revision: string, license: string, licenseURL: string,
    layout: string, infoHash: string, magnet: string, files: seq<File>)

  datatype Magnet = Magnet(btih: string, webSeeds: seq<string>)

  /** The two library parsers validation depends on: magnet links, and "is this an https URL with a host". */
  datatype Parsers = Parsers(magnet: string -> Option<Magnet>, httpsURL: string -> bool)

  const LAYOUT_DIR := "dir"

  // ---------- Names ----------

  /** What follows the last slash. */
  function Base(s: string): (b: string)
    ensures '/' !in b
    ensures |b| <= |s| && b == s[|s| - |b|..]
    ensures |b| < |s| ==> s[|s| - |b| - 1] == '/'
    ensures '/' !in s ==> b == s
  {
    if s == "" || s[|s| - 1] == '/' then "" else Base(s[..|s| - 1]) + [s[|s| - 1]]
  }

  /** The name a fresh download is stored under. */
  function DiskName(f: File): string {
    if f.storeAs != "" then f.storeAs else Base(f.name)
  }

  predicate IsDir(m: Model) { m.layout == LAYOUT_DIR }

  function SumSizes(fs: seq<File>): int {
    if fs == [] then 0 else SumSizes(fs[..|fs| - 1]) + fs[|fs| - 1].size
  }

  /** A folder model's one torrent, as the file its job serves. */
  function DirUnit(m: Model): File {
    File(m.id, "", SumSizes(m.files), "", m.infoHash, m.magnet)
  }

  /** What a model's jobs serve, one per torrent. */
  function Units(m: Model): seq<File> {
    if IsDir(m) then [DirUnit(m)] else m.files
  }

  // ---------- Character classes (the four regular expressions) ----------

  predicate Lower(c: char) { 'a' <= c <= 'z' }
  predicate Digit(c: char) { '0' <= c <= '9' }
  predicate Hex(c: char) { Digit(c) || 'a' <= c <= 'f' }

  predicate IdShape(s: string) {
    |s| > 0 && (Lower(s[0]) || Digit(s[0])) && forall c <- s :: Lower(c) || Digit(c) || c in "._-"
  }

  predicate DiskShape(s: string) {
    |s| > 0 && (Lower(s[0]) || Digit(s[0]) || 'A' <= s[0] <= 'Z') &&
    forall c <- s :: Lower(c) || Digit(c) || 'A' <= c <= 'Z' || c in "._+-"
  }

  predicate HexOf(s: string, n: nat) { |s| == n && forall c <- s :: Hex(c) }

  predicate HasDotDot(s: string) {
    exists i :: 0 <= i < |s| - 1 && s[i] == '.' && s[i + 1] == '.'
  }

  /** The parts of a slash path. */
  function Split(s: string): (parts: seq<string>)
    ensures |parts| > 0
    ensures forall p <- parts :: '/' !in p
  {
    if s == "" then [""]
    else
      var rest := Split(s[1..]);
      if s[0] == '/' then [""] + rest else [[s[0]] + rest[0]] + rest[1..]
  }

  /** The parts written out again with slashes between them. */
  function Joined(parts: seq<string>): string
    requires parts != []
  {
    if |parts| == 1 then parts[0] else parts[0] + "/" + Joined(parts[1..])
  }

  /** Splitting loses nothing. */
  lemma {:induction false} SplitJoins(s: string)
    ensures Joined(Split(s)) == s
  {
    if s != "" {
      SplitJoins(s[1..]);
      var rest := Split(s[1..]);
      if s[0] == '/' {
        assert ([""] + rest)[1..] == rest;
      } else {
        assert ([[s[0]] + rest[0]] + rest[1..])[1..] == rest[1..];
        assert Joined(Split(s)) == [s[0]] + Joined(rest);
      }
      assert s == [s[0]] + s[1..];
    }
  }

  /** Part of a path between two slashes, or between one and an end. */
  ghost predicate Component(s: string, i: nat, j: nat) {
    && i <= j <= |s| && (forall k :: i <= k < j ==> s[k] != '/')
    && (i == 0 || s[i - 1] == '/') && (j == |s| || s[j] == '/')
  }

  function SlashAt(s: string): (k: nat)
    ensures k <= |s| && (forall i :: 0 <= i < k ==> s[i] != '/') && (k < |s| ==> s[k] == '/')
  {
    if s == "" || s[0] == '/' then 0 else 1 + SlashAt(s[1..])
  }

  lemma {:induction false} SplitAtSlash(s: string)
    ensures var k := SlashAt(s); Split(s) == if k == |s| then [s] else [s[..k]] + Split(s[k + 1..])
  {
    if s != "" {
      var k := SlashAt(s);
      if s[0] == '/' {
        assert s[..0] == "";
      } else {
        SplitAtSlash(s[1..]);
        assert s == [s[0]] + s[1..];
        if k < |s| {
          assert s[1..][..k - 1] == s[1..k] && s[1..][k..] == s[k + 1..] && s[..k] == [s[0]] + s[1..k];
        }
      }
    }
  }

  /** The components of a path are its first one and those of what follows its first slash. */
  lemma {:induction false} ComponentsAtSlash(s: string, i: nat, j: nat)
    ensures
      var k := SlashAt(s);
      Component(s, i, j) <==>
        (i == 0 && j == k) || (k < i <= j && k < |s| && Component(s[k + 1..], i - k - 1, j - k - 1))
  {
    var k := SlashAt(s);
    if Component(s, i, j) {
      assert i <= k ==> i == 0;
    }
    if k < i <= j <= |s| {
      RestComponent(s, k + 1, i, j);
    }
  }

  lemma {:induction false} RestComponent(s: string, a: nat, i: nat, j: nat)
    requires 0 < a <= i <= j <= |s| && s[a - 1] == '/'
    ensures Component(s, i, j) <==> Component(s[a..], i - a, j - a)
  {
    var t := s[a..];
    assert forall x :: 0 <= x < |t| ==> t[x] == s[a + x];
    if Component(t, i - a, j - a) {
      forall x | i <= x < j ensures s[x] != '/' {
        assert t[x - a] == s[x];
      }
    }
  }

  lemma {:induction false} SliceOfRest(s: string, a: nat, i: nat, j: nat)
    requires a <= i <= j <= |s|
    ensures s[a..][i - a..j - a] == s[i..j]
  {
  }

  lemma {:induction false} SplitMembers(s: string, p: string)
    ensures var k := SlashAt(s); p in Split(s) <==> p == s[0..k] || (k < |s| && p in Split(s[k + 1..]))
  {
    var k := SlashAt(s);
    SplitAtSlash(s);
    assert s[0..k] == s[..k];
    if k == |s| {
      assert s[..k] == s;
    }
  }

  /** Every part is a component. */
  lemma {:induction false} PartIsComponent(s: string, p: string) returns (i: nat, j: nat)
    requires p in Split(s)
    ensures Component(s, i, j) && s[i..j] == p
    decreases |s|
  {
    var k := SlashAt(s);
    SplitMembers(s, p);
    if p == s[0..k] {
      i, j := 0, k;
      ComponentsAtSlash(s, 0, k);
    } else {
      var a, b := PartIsComponent(s[k + 1..], p);
      i, j := a + k + 1, b + k + 1;
      ComponentsAtSlash(s, i, j);
      SliceOfRest(s, k + 1, i, j);
    }
  }

  /** And every component is a part. */
  lemma {:induction false} ComponentIsPart(s: string, i: nat, j: nat, p: string)
    requires Component(s, i, j) && p == s[i..j]
    ensures p in Split(s)
    decreases |s|
  {
    var k := SlashAt(s);
    ComponentsAtSlash(s, i, j);
    if i != 0 {
      SliceOfRest(s, k + 1, i, j);
      ComponentIsPart(s[k + 1..], i - k - 1, j - k - 1, p);
    }
    SplitMembers(s, p);
  }

  /** A clean relative slash path. */
  predicate ValidRelPath(s: string) {
    && s != "" && s[0] != '/'
    && (forall c <- s :: c != '\\' && c as int >= 0x20 && c as int != 0x7f)
    && (forall p <- Split(s) :: p != "" && p != "." && p != "..")
  }

  predicate PlainPart(p: string) { p != "" && p != "." && p != ".." }

  lemma {:induction false} PlainParts(s: string)
    ensures (forall p <- Split(s) :: PlainPart(p))
      <==> (forall i: nat, j: nat :: Component(s, i, j) ==> PlainPart(s[i..j]))
  {
    forall p | p in Split(s) && !PlainPart(p)
      ensures exists i: nat, j: nat :: Component(s, i, j) && !PlainPart(s[i..j])
    {
      var i, j := PartIsComponent(s, p);
    }
    forall i: nat, j: nat | Component(s, i, j) ensures s[i..j] in Split(s) {
      ComponentIsPart(s, i, j, s[i..j]);
    }
  }

  /** What a clean path is, by positions: no component is empty, "." or "..", so it stays below where it starts. */
  lemma {:induction false} CleanPath(s: string)
    ensures ValidRelPath(s) <==>
      && (forall i :: 0 <= i < |s| ==> s[i] != '\\' && s[i] as int >= 0x20 && s[i] as int != 0x7f)
      && (forall i: nat, j: nat :: Component(s, i, j) ==> s[i..j] != "" && s[i..j] != "." && s[i..j] != "..")
  {
    PlainParts(s);
    assert (forall p <- Split(s) :: PlainPart(p)) <==> forall p <- Split(s) :: p != "" && p != "." && p != "..";
    if s == "" || s[0] == '/' {
      assert Component(s, 0, 0) && s[0..0] == "";
    }
    forall i | 0 <= i < |s| ensures s[i] in s {
    }
  }

  function DirWebSeed(repo: string): string {
    "https://huggingface.co/" + repo + "/resolve/"
  }

  // ---------- The specification of an acceptable model list ----------

  predicate HeaderOK(p: Parsers, m: Model) {
    && IdShape(m.id) && '/' in m.hfRepo && HexOf(m.revision, 40) && m.license != "" && m.files != []
    && (m.licenseURL == "" || p.httpsURL(m.licenseURL))
  }

  /** The magnet names this infohash and carries exactly the one expected web seed. */
  predicate MagnetOK(p: Parsers, magnet: string, infoHash: string, webSeed: string) {
    && "magnet:?" <= magnet
    && p.magnet(magnet).Some?
    && p.magnet(magnet).value == Magnet(infoHash, [webSeed])
  }

  predicate FlatFileOK(p: Parsers, m: Model, f: File) {
    && f.name != "" && f.name[0] != '/' && !HasDotDot(f.name)
    && DiskShape(DiskName(f)) && f.size > 0 && HexOf(f.sha256, 64) && HexOf(f.infoHash, 40)
    && MagnetOK(p, f.magnet, f.infoHash, DirWebSeed(m.hfRepo) + m.revision + "/" + f.name)
  }

  predicate FolderFileOK(f: File) {
    && ValidRelPath(f.name) && f.storeAs == "" && f.infoHash == "" && f.magnet == ""
    && f.size >= 0 && HexOf(f.sha256, 64)
  }

  /** Two files of one per-file model, or of two, can be stored side by side. */
  predicate Apart(a: File, b: File) {
    a.infoHash != b.infoHash && DiskName(a) != DiskName(b) && a.sha256 != b.sha256
  }

  predicate FlatOK(p: Parsers, m: Model) {
    && m.layout == "" && m.infoHash == "" && m.magnet == ""
    && (forall f <- m.files :: FlatFileOK(p, m, f))
    && PairsApart(m.files)
  }

  /** dir is a directory on the way to path. */
  predicate Above(dir: string, path: string) { dir + "/" <= path }

  predicate LayoutOK(fs: seq<File>) {
    && NamesApart(fs)
    && (forall f <- fs, g <- fs :: !Above(f.name, g.name))
  }

  predicate FolderOK(p: Parsers, m: Model) {
    && HexOf(m.infoHash, 40) && DiskShape(m.id)
    && MagnetOK(p, m.magnet, m.infoHash, DirWebSeed(m.hfRepo))
    && (forall f <- m.files :: FolderFileOK(f))
    && LayoutOK(m.files)
  }

  predicate ModelOK(p: Parsers, m: Model) {
    HeaderOK(p, m) && if IsDir(m) then FolderOK(p, m) else FlatOK(p, m)
  }

  function InfoHashes(m: Model): set<string> { set f <- Units(m) :: f.infoHash }
  function DiskNames(m: Model): set<string> { set f <- Units(m) :: DiskName(f) }
  function FlatContents(m: Model): set<string> { if IsDir(m) then {} else set f <- m.files :: f.sha256 }
  function FolderContents(m: Model): set<string> {
    if IsDir(m) then set f <- m.files | f.size > 0 :: f.sha256 else {}
  }

  /** Two models can be in one catalogue: nothing would collide or be stored twice. */
  predicate Compatible(a: Model, b: Model) {
    && a.id != b.id
    && InfoHashes(a) !! InfoHashes(b)
    && DiskNames(a) !! DiskNames(b)
    && FlatContents(a) !! FlatContents(b)
    && FlatContents(a) !! FolderContents(b)
    && FolderContents(a) !! FlatContents(b)
  }

  predicate Acceptable(p: Parsers, ms: seq<Model>) {
    && (forall m <- ms :: ModelOK(p, m))
    && (forall i, j :: 0 <= i < j < |ms| ==> Compatible(ms[i], ms[j]))
  }

  /** Everything key picks out of some model of the list. */
  function Collect(ms: seq<Model>, key: Model -> set<string>): set<string> {
    set i: nat, x | i < |ms| && x in key(ms[i]) :: x
  }

  function Ids(m: Model): set<string> { {m.id} }

  lemma {:induction false} CollectExtends(ms: seq<Model>, i: nat, key: Model -> set<string>)
    requires i < |ms|
    ensures Collect(ms[..i + 1], key) == Collect(ms[..i], key) + key(ms[i])
  {
    assert ms[..i + 1] == ms[..i] + [ms[i]];
    forall x | x in Collect(ms[..i], key) ensures x in Collect(ms[..i + 1], key) {
      var k: nat :| k < i && x in key(ms[..i][k]);
      assert ms[..i + 1][k] == ms[..i][k];
    }
    forall x | x in key(ms[i]) ensures x in Collect(ms[..i + 1], key) {
      assert ms[..i + 1][i] == ms[i];
    }
  }

  lemma {:induction false} CollectApart(ms: seq<Model>, key: Model -> set<string>, keys: set<string>)
    ensures keys !! Collect(ms, key) <==> forall k :: 0 <= k < |ms| ==> key(ms[k]) !! keys
  {
    forall k, x | 0 <= k < |ms| && x in key(ms[k]) ensures x in Collect(ms, key) {
    }
  }

  /** The collected sets decide whether one more model still fits. */
  lemma {:induction false} AcceptableExtends(p: Parsers, ms: seq<Model>, i: nat)
    requires i < |ms| && Acceptable(p, ms[..i])
    ensures Acceptable(p, ms[..i + 1]) <==>
      && ModelOK(p, ms[i])
      && ms[i].id !in Collect(ms[..i], Ids)
      && InfoHashes(ms[i]) !! Collect(ms[..i], InfoHashes)
      && DiskNames(ms[i]) !! Collect(ms[..i], DiskNames)
      && FlatContents(ms[i]) !! Collect(ms[..i], FlatContents)
      && FlatContents(ms[i]) !! Collect(ms[..i], FolderContents)
      && FolderContents(ms[i]) !! Collect(ms[..i], FlatContents)
  {
    var front, all := ms[..i], ms[..i + 1];
    assert all == front + [ms[i]];
    CollectApart(front, Ids, {ms[i].id});
    CollectApart(front, InfoHashes, InfoHashes(ms[i]));
    CollectApart(front, DiskNames, DiskNames(ms[i]));
    CollectApart(front, FlatContents, FlatContents(ms[i]));
    CollectApart(front, FolderContents, FlatContents(ms[i]));
    CollectApart(front, FlatContents, FolderContents(ms[i]));
    assert (forall k :: 0 <= k < i ==> Ids(front[k]) !! {ms[i].id})
      <==> (forall k :: 0 <= k < i ==> front[k].id != ms[i].id);
    LastFits(p, front, ms[i]);
  }

  lemma {:induction false} LastFits(p: Parsers, front: seq<Model>, m: Model)
    requires Acceptable(p, front)
    ensures Acceptable(p, front + [m]) <==> ModelOK(p, m) && forall k :: 0 <= k < |front| ==> Compatible(front[k], m)
  {
    var all := front + [m];
    assert all[|front|] == m;
    assert forall k :: 0 <= k < |front| ==> all[k] == front[k];
    assert forall x :: x in all <==> x in front || x == m;
  }

  // ---------- The validator ----------

  function NextSlash(s: string, from: nat): (i: int)
    requires from <= |s|
    ensures i == -1 ==> forall k :: from <= k < |s| ==> s[k] != '/'
    ensures i != -1 ==> from <= i < |s| && s[i] == '/' && forall k :: from <= k < i ==> s[k] != '/'
    decreases |s| - from
  {
    if from == |s| then -1 else if s[from] == '/' then from else NextSlash(s, from + 1)
  }

  lemma {:induction false} AboveIsPrefix(dir: string, path: string)
    ensures Above(dir, path) <==> |dir| < |path| && path[|dir|] == '/' && dir == path[..|dir|]
  {
    if |dir| < |path| && path[|dir|] == '/' && dir == path[..|dir|] {
      assert path[..|dir| + 1] == dir + "/";
    }
    if Above(dir, path) {
      assert path[|dir|] == (dir + "/")[|dir|];
      assert path[..|dir|] == (dir + "/")[..|dir|];
    }
  }

  /** Looks up every directory on the way to a folder file among the folder's file names. */
  method ClashingParent(name: string, names: set<string>) returns (clash: bool)
    ensures clash <==> exists n <- names :: Above(n, name)
  {
    var i := NextSlash(name, 0);
    while i >= 0
      invariant -1 <= i < |name| && (i >= 0 ==> name[i] == '/')
      invariant forall k :: 0 <= k < |name| && name[k] == '/' && (i == -1 || k < i) ==> name[..k] !in names
      decreases if i < 0 then 0 else |name| - i
    {
      if name[..i] in names {
        AboveIsPrefix(name[..i], name);
        return true;
      }
      i := NextSlash(name, i + 1);
    }
    forall n <- names ensures !Above(n, name) {
      AboveIsPrefix(n, name);
    }
    return false;
  }

  method ValidateDir(p: Parsers, m: Model, disk: set<string>, hashes: set<string>,
                     contents: set<string>, dirContents: set<string>)
    returns (ok: bool, dirContents': set<string>)
    requires HeaderOK(p, m) && IsDir(m)
    ensures ok <==> FolderOK(p, m) && m.infoHash !in hashes && m.id !in disk && FolderContents(m) !! contents
    ensures ok ==> dirContents' == dirContents + FolderContents(m)
  {
    dirContents' := dirContents;
    if !HexOf(m.infoHash, 40) || m.infoHash in hashes || !DiskShape(m.id)
       || !MagnetOK(p, m.magnet, m.infoHash, DirWebSeed(m.hfRepo)) || m.id in disk {
      return false, dirContents';
    }
    var names := Names(m.files);
    for j := 0 to |m.files|
      invariant forall f <- m.files[..j] :: FolderFileOK(f) && (f.size > 0 ==> f.sha256 !in contents)
      invariant forall f <- m.files[..j], g <- m.files :: !Above(g.name, f.name)
      invariant dirContents' == dirContents + set f <- m.files[..j] | f.size > 0 :: f.sha256
    {
      var f := m.files[j];
      assert m.files[..j + 1] == m.files[..j] + [f];
      if !FolderFileOK(f) {
        return false, dirContents';
      }
      var clash := ClashingParent(f.name, names);
      if clash {
        return false, dirContents';
      }
      if f.size != 0 {
        if f.sha256 in contents {
          assert f.sha256 in FolderContents(m);
          return false, dirContents';
        }
        dirContents' := dirContents' + {f.sha256};
      }
    }
    assert m.files[..|m.files|] == m.files;
    DistinctNames(m.files);
    ok := |names| == |m.files|;
  }

  function Names(fs: seq<File>): set<string> { set f <- fs :: f.name }

  predicate NamesApart(fs: seq<File>) {
    forall i, j :: 0 <= i < j < |fs| ==> fs[i].name != fs[j].name
  }

  /** Counting the names is the same as comparing them pairwise. */
  lemma {:induction false} DistinctNames(fs: seq<File>)
    ensures |Names(fs)| <= |fs|
    ensures |Names(fs)| == |fs| <==> NamesApart(fs)
  {
    if fs == [] {
      assert Names(fs) == {};
    } else {
      var front, last := fs[..|fs| - 1], fs[|fs| - 1];
      DistinctNames(front);
      assert fs == front + [last];
      NamesOfLast(front, last);
      assert Names(fs) == Names(front) + {last.name};
    }
  }

  lemma {:induction false} NamesOfLast(front: seq<File>, last: File)
    ensures Names(front + [last]) == Names(front) + {last.name}
    ensures NamesApart(front + [last]) <==> NamesApart(front) && last.name !in Names(front)
  {
    var fs := front + [last];
    assert forall k :: 0 <= k < |front| ==> fs[k] == front[k];
    assert NamesApart(fs) ==> forall k :: 0 <= k < |front| ==> fs[k].name != fs[|front|].name;
  }

  function DisksOf(fs: seq<File>): set<string> { set f <- fs :: DiskName(f) }
  function HashesOf(fs: seq<File>): set<string> { set f <- fs :: f.infoHash }
  function ContentsOf(fs: seq<File>): set<string> { set f <- fs :: f.sha256 }

  predicate PairsApart(fs: seq<File>) {
    forall i, j :: 0 <= i < j < |fs| ==> Apart(fs[i], fs[j])
  }

  lemma {:induction false} PairsApartExtends(front: seq<File>, f: File)
    ensures PairsApart(front + [f]) <==>
      && PairsApart(front)
      && f.infoHash !in HashesOf(front) && DiskName(f) !in DisksOf(front) && f.sha256 !in ContentsOf(front)
  {
    var fs := front + [f];
    assert forall k :: 0 <= k < |front| ==> fs[k] == front[k];
    assert PairsApart(fs) <==> PairsApart(front) && forall k :: 0 <= k < |front| ==> Apart(fs[k], fs[|front|]);
    assert forall g <- front :: exists k :: 0 <= k < |front| && fs[k] == g;
  }

  /** Files of a per-file model that fit with each other and with what came before. */
  ghost predicate Fit(p: Parsers, m: Model, fs: seq<File>, disk: set<string>, hashes: set<string>, sums: set<string>) {
    && (forall f <- fs :: FlatFileOK(p, m, f))
    && PairsApart(fs)
    && HashesOf(fs) !! hashes && DisksOf(fs) !! disk && ContentsOf(fs) !! sums
  }

  lemma {:induction false} KeysExtend(fs: seq<File>, f: File)
    ensures HashesOf(fs + [f]) == HashesOf(fs) + {f.infoHash}
    ensures DisksOf(fs + [f]) == DisksOf(fs) + {DiskName(f)}
    ensures ContentsOf(fs + [f]) == ContentsOf(fs) + {f.sha256}
  {
    var all := fs + [f];
    assert all[|fs|] == f && forall k :: 0 <= k < |fs| ==> all[k] == fs[k];
    assert forall g: File :: g in all <==> g in fs || g == f;
  }

  lemma {:induction false} FitExtends(p: Parsers, m: Model, fs: seq<File>, f: File, disk: set<string>,
      hashes: set<string>, sums: set<string>)
    requires Fit(p, m, fs, disk, hashes, sums)
    ensures Fit(p, m, fs + [f], disk, hashes, sums) <==>
      && FlatFileOK(p, m, f) && f.infoHash !in hashes + HashesOf(fs) && DiskName(f) !in disk + DisksOf(fs)
      && f.sha256 !in sums + ContentsOf(fs)
  {
    PairsApartExtends(fs, f);
    KeysExtend(fs, f);
    assert (forall g <- fs + [f] :: FlatFileOK(p, m, g)) <==> FlatFileOK(p, m, f) by {
      assert f in fs + [f];
    }
  }

  lemma {:induction false} FitPrefix(p: Parsers, m: Model, fs: seq<File>, n: nat, disk: set<string>,
      hashes: set<string>, sums: set<string>)
    requires n <= |fs| && Fit(p, m, fs, disk, hashes, sums)
    ensures Fit(p, m, fs[..n], disk, hashes, sums)
  {
    assert HashesOf(fs[..n]) <= HashesOf(fs) && DisksOf(fs[..n]) <= DisksOf(fs) &&
      ContentsOf(fs[..n]) <= ContentsOf(fs);
  }

  lemma {:induction false} WholeKeys(m: Model)
    requires !IsDir(m)
    ensures InfoHashes(m) == HashesOf(m.files) && DiskNames(m) == DisksOf(m.files)
    ensures FlatContents(m) == ContentsOf(m.files)
  {
  }

  /** The files of a per-file model against each other and against what came before. */
  method ValidateFiles(p: Parsers, m: Model, disk: set<string>, hashes: set<string>,
                       contents: set<string>, dirContents: set<string>)
    returns (ok: bool, disk': set<string>, hashes': set<string>, contents': set<string>)
    requires HeaderOK(p, m) && m.layout == "" && m.infoHash == "" && m.magnet == ""
    ensures ok <==>
      && FlatOK(p, m) && InfoHashes(m) !! hashes && DiskNames(m) !! disk
      && FlatContents(m) !! contents && FlatContents(m) !! dirContents
    ensures ok ==>
      && disk' == disk + DiskNames(m) && hashes' == hashes + InfoHashes(m) && contents' == contents + FlatContents(m)
  {
    disk', hashes', contents' := disk, hashes, contents;
    ghost var sums := contents + dirContents;
    for j := 0 to |m.files|
      invariant Fit(p, m, m.files[..j], disk, hashes, sums)
      invariant disk' == disk + DisksOf(m.files[..j]) && hashes' == hashes + HashesOf(m.files[..j])
      invariant contents' == contents + ContentsOf(m.files[..j])
    {
      var f := m.files[j];
      assert m.files[..j + 1] == m.files[..j] + [f];
      FitExtends(p, m, m.files[..j], f, disk, hashes, sums);
      if !FlatFileOK(p, m, f) || f.infoHash in hashes' || DiskName(f) in disk'
         || f.sha256 in contents' || f.sha256 in dirContents {
        NotFit(p, m, j + 1, disk, hashes, sums);
        WholeFits(p, m, disk, hashes, contents, dirContents);
        return false, disk', hashes', contents';
      }
      KeysExtend(m.files[..j], f);
      disk', hashes', contents' := disk' + {DiskName(f)}, hashes' + {f.infoHash}, contents' + {f.sha256};
    }
    assert m.files[..|m.files|] == m.files;
    WholeFits(p, m, disk, hashes, contents, dirContents);
    WholeKeys(m);
    return true, disk', hashes', contents';
  }

  lemma {:induction false} WholeFits(p: Parsers, m: Model, disk: set<string>, hashes: set<string>,
      contents: set<string>, dirContents: set<string>)
    requires m.layout == "" && m.infoHash == "" && m.magnet == ""
    ensures Fit(p, m, m.files, disk, hashes, contents + dirContents) <==>
      && FlatOK(p, m) && InfoHashes(m) !! hashes && DiskNames(m) !! disk
      && FlatContents(m) !! contents && FlatContents(m) !! dirContents
  {
    WholeKeys(m);
  }

  lemma {:induction false} NotFit(p: Parsers, m: Model, n: nat, disk: set<string>, hashes: set<string>,
      sums: set<string>)
    requires n <= |m.files| && !Fit(p, m, m.files[..n], disk, hashes, sums)
    ensures !Fit(p, m, m.files, disk, hashes, sums)
  {
    if Fit(p, m, m.files, disk, hashes, sums) {
      FitPrefix(p, m, m.files, n, disk, hashes, sums);
    }
  }

  /** Accepts exactly the acceptable lists; a refusal names the first model that cannot be accepted. */
  method Validate(p: Parsers, ms: seq<Model>) returns (bad: Option<nat>)
    ensures bad.None? <==> Acceptable(p, ms)
    ensures bad.Some? ==>
      bad.value < |ms| && Acceptable(p, ms[..bad.value]) && !Acceptable(p, ms[..bad.value + 1])
  {
    var ids, disk, hashes, contents, dirContents: set<string> := {}, {}, {}, {}, {};
    for i := 0 to |ms|
      invariant Acceptable(p, ms[..i])
      invariant ids == Collect(ms[..i], Ids) && disk == Collect(ms[..i], DiskNames)
      invariant hashes == Collect(ms[..i], InfoHashes)
      invariant contents == Collect(ms[..i], FlatContents) && dirContents == Collect(ms[..i], FolderContents)
    {
      var m := ms[i];
      AcceptableExtends(p, ms, i);
      CollectExtends(ms, i, Ids);
      CollectExtends(ms, i, DiskNames);
      CollectExtends(ms, i, InfoHashes);
      CollectExtends(ms, i, FlatContents);
      CollectExtends(ms, i, FolderContents);
      var ok := HeaderOK(p, m) && m.id !in ids;
      if ok {
        ids := ids + {m.id};
        if IsDir(m) {
          DirUnitDisk(m);
          ok, dirContents := ValidateDir(p, m, disk, hashes, contents, dirContents);
          disk, hashes := disk + {m.id}, hashes + {m.infoHash};
        } else if m.layout != "" || m.infoHash != "" || m.magnet != "" {
          ok := false;
        } else {
          ok, disk, hashes, contents := ValidateFiles(p, m, disk, hashes, contents, dirContents);
        }
      }
      if !ok {
        PrefixAcceptable(p, ms, i + 1);
        return Some(i);
      }
    }
    assert ms[..|ms|] == ms;
    return None;
  }

  lemma {:induction false} PrefixAcceptable(p: Parsers, ms: seq<Model>, n: nat)
    requires n <= |ms|
    ensures Acceptable(p, ms) ==> Acceptable(p, ms[..n])
  {
    assert forall i :: 0 <= i < n ==> ms[..n][i] == ms[i];
  }

  /** A folder is stored under its model id. */
  lemma {:induction false} DirUnitDisk(m: Model)
    requires IdShape(m.id) && IsDir(m)
    ensures DiskNames(m) == {m.id} && InfoHashes(m) == {m.infoHash}
  {
    assert '/' !in m.id;
    assert Units(m) == [DirUnit(m)];
    assert Units(m)[0] in Units(m);
  }

  // ---------- What acceptance gives the rest of the node ----------

  /** Order does not matter: acceptance depends only on which models are listed, and how often. */
  lemma {:induction false} OrderIndependent(p: Parsers, ms: seq<Model>, ns: seq<Model>)
    requires multiset(ms) == multiset(ns)
    ensures Acceptable(p, ms) <==> Acceptable(p, ns)
  {
    if Acceptable(p, ms) {
      Reordered(p, ms, ns);
    }
    if Acceptable(p, ns) {
      Reordered(p, ns, ms);
    }
  }

  lemma {:induction false} Reordered(p: Parsers, ms: seq<Model>, ns: seq<Model>)
    requires multiset(ms) == multiset(ns) && Acceptable(p, ms)
    ensures Acceptable(p, ns)
  {
    forall m | m in ns ensures ModelOK(p, m) {
      assert m in multiset(ns);
    }
    forall i, j | 0 <= i < j < |ns| ensures Compatible(ns[i], ns[j]) {
      assert ns[i] in multiset(ns) && ns[j] in multiset(ns);
      var a :| 0 <= a < |ms| && ms[a] == ns[i];
      var b :| 0 <= b < |ms| && ms[b] == ns[j];
      if ns[i] == ns[j] {
        TwoCopies(ns, i, j);
        OneCopy(p, ms, ns[i]);
      }
      assert Compatible(ms[a], ms[b]) || Compatible(ms[b], ms[a]);
    }
  }

  lemma {:induction false} TwoCopies<T>(s: seq<T>, i: nat, j: nat)
    requires i < j < |s| && s[i] == s[j]
    ensures multiset(s)[s[i]] >= 2
  {
    var a, b := s[..j], s[j..];
    assert s == a + b;
    assert a[i] in multiset(a) && b[0] in multiset(b);
  }

  lemma {:induction false} OneCopy(p: Parsers, ms: seq<Model>, m: Model)
    requires Acceptable(p, ms)
    ensures multiset(ms)[m] <= 1
  {
    if ms != [] {
      var front, last := ms[..|ms| - 1], ms[|ms| - 1];
      assert ms == front + [last];
      PrefixAcceptable(p, ms, |ms| - 1);
      OneCopy(p, front, m);
      forall k | 0 <= k < |front| ensures front[k] != last {
        assert Compatible(ms[k], ms[|ms| - 1]);
      }
    }
  }

  /** No two torrents of an accepted catalogue share an infohash or a name on disk. */
  lemma {:induction false} UnitsApart(p: Parsers, ms: seq<Model>, i: nat, k: nat, j: nat, l: nat)
    requires Acceptable(p, ms) && i < |ms| && j < |ms| && k < |Units(ms[i])| && l < |Units(ms[j])|
    requires (i, k) != (j, l)
    ensures Units(ms[i])[k].infoHash != Units(ms[j])[l].infoHash
    ensures DiskName(Units(ms[i])[k]) != DiskName(Units(ms[j])[l])
  {
    var a, b := Units(ms[i])[k], Units(ms[j])[l];
    if i == j {
      assert ModelOK(p, ms[i]);
      assert Apart(a, b) || Apart(b, a);
    } else {
      assert Compatible(ms[i], ms[j]) || Compatible(ms[j], ms[i]);
      assert a.infoHash in InfoHashes(ms[i]) && b.infoHash in InfoHashes(ms[j]);
      assert DiskName(a) in DiskNames(ms[i]) && DiskName(b) in DiskNames(ms[j]);
    }
  }

  /** A name that cannot lead anywhere else, nor meet the node's own dot directories. */
  ghost predicate PlainName(name: string) { name != "" && name[0] != '.' && '/' !in name }

  ghost predicate LowerHex(s: string, n: nat) {
    |s| == n && forall i :: 0 <= i < n ==> '0' <= s[i] <= '9' || 'a' <= s[i] <= 'f'
  }

  /** A disk name is store_as, or else what follows the last slash of the name. */
  lemma {:induction false} DiskNameIs(f: File)
    ensures f.storeAs != "" ==> DiskName(f) == f.storeAs
    ensures f.storeAs == "" ==>
      && '/' !in DiskName(f)
      && exists k :: 0 <= k <= |f.name| && (k == 0 || f.name[k - 1] == '/') && DiskName(f) == f.name[k..]
  {
    if f.storeAs == "" {
      var k := |f.name| - |Base(f.name)|;
      assert k == 0 || f.name[k - 1] == '/';
    }
  }

  /** Letters, digits and a few signs, a letter or digit first: no slash, and no dot to start with. */
  ghost predicate DiskChars(s: string) {
    && s != "" && s[0] != '.' && s[0] != '_' && s[0] != '+' && s[0] != '-'
    && forall i :: 0 <= i < |s| ==>
      || 'a' <= s[i] <= 'z' || 'A' <= s[i] <= 'Z' || '0' <= s[i] <= '9'
      || s[i] == '.' || s[i] == '_' || s[i] == '+' || s[i] == '-'
  }

  lemma {:induction false} DiskShapeIs(s: string)
    ensures DiskShape(s) <==> DiskChars(s)
    ensures DiskShape(s) ==> PlainName(s)
  {
    forall i | 0 <= i < |s| ensures s[i] in s {
    }
  }

  lemma {:induction false} NoDotDot(s: string)
    ensures !HasDotDot(s) <==> forall i :: 0 < i < |s| ==> !(s[i - 1] == '.' && s[i] == '.')
  {
    if HasDotDot(s) {
      var i :| 0 <= i < |s| - 1 && s[i] == '.' && s[i + 1] == '.';
      var k := i + 1;
      assert s[k - 1] == '.' && s[k] == '.';
    } else {
      forall i | 0 < i < |s| ensures !(s[i - 1] == '.' && s[i] == '.') {
        var k := i - 1;
        assert !(s[k] == '.' && s[k + 1] == '.');
      }
    }
  }

  lemma {:induction false} HexIsLower(s: string, n: nat)
    ensures HexOf(s, n) <==> LowerHex(s, n)
  {
    forall i | 0 <= i < |s| ensures s[i] in s {
    }
    if LowerHex(s, n) {
      forall c | c in s ensures Hex(c) {
        var i :| 0 <= i < |s| && s[i] == c;
      }
    }
  }

  /** What is asked of every model. */
  lemma {:induction false} HeaderIs(p: Parsers, m: Model)
    ensures HeaderOK(p, m) <==>
      && m.id != "" && m.id[0] != '.' && m.id[0] != '_' && m.id[0] != '-'
      && (forall i :: 0 <= i < |m.id| ==>
            'a' <= m.id[i] <= 'z' || '0' <= m.id[i] <= '9' || m.id[i] == '.' || m.id[i] == '_' || m.id[i] == '-')
      && (exists i :: 0 <= i < |m.hfRepo| && m.hfRepo[i] == '/')
      && LowerHex(m.revision, 40) && m.license != "" && |m.files| > 0
      && (m.licenseURL != "" ==> p.httpsURL(m.licenseURL))
  {
    HexIsLower(m.revision, 40);
    forall i | 0 <= i < |m.id| ensures m.id[i] in m.id {
    }
  }

  /** What is asked of a per-file model's file: a name it can be stored under, something to check it by, and that it is
      fetched from the very revision the catalogue names. */
  lemma {:induction false} FlatFileIs(p: Parsers, m: Model, f: File)
    ensures FlatFileOK(p, m, f) <==>
      && f.name != "" && f.name[0] != '/'
      && (forall i :: 0 < i < |f.name| ==> !(f.name[i - 1] == '.' && f.name[i] == '.'))
      && DiskChars(DiskName(f)) && f.size > 0 && LowerHex(f.sha256, 64) && LowerHex(f.infoHash, 40)
      && "magnet:?" <= f.magnet
      && p.magnet(f.magnet) ==
         Some(Magnet(f.infoHash, ["https://huggingface.co/" + m.hfRepo + "/resolve/" + m.revision + "/" + f.name]))
  {
    DiskShapeIs(DiskName(f));
    HexIsLower(f.sha256, 64);
    HexIsLower(f.infoHash, 40);
    NoDotDot(f.name);
  }

  /** What is asked of a folder model and its files: the folder in its place, every file below it, and no file that is
      also a directory. */
  lemma {:induction false} FolderIs(p: Parsers, m: Model)
    ensures FolderOK(p, m) <==>
      && LowerHex(m.infoHash, 40) && DiskChars(m.id) && "magnet:?" <= m.magnet
      && p.magnet(m.magnet) == Some(Magnet(m.infoHash, ["https://huggingface.co/" + m.hfRepo + "/resolve/"]))
      && (forall f <- m.files :: ValidRelPath(f.name) && f.storeAs == "" && f.infoHash == "" && f.magnet == "")
      && (forall f <- m.files :: f.size >= 0 && LowerHex(f.sha256, 64))
      && NamesApart(m.files)
      && (forall f <- m.files, g <- m.files :: !(f.name + "/" <= g.name))
  {
    DiskShapeIs(m.id);
    HexIsLower(m.infoHash, 40);
    forall f | f in m.files ensures HexOf(f.sha256, 64) <==> LowerHex(f.sha256, 64) {
      HexIsLower(f.sha256, 64);
    }
  }

  /** No content is stored twice for nothing: a per-file model's file shares its sha256 with no other such file, and
      with no file of a folder that is not empty. */
  lemma {:induction false} AcceptedContents(p: Parsers, ms: seq<Model>, i: nat, k: nat, j: nat, l: nat)
    requires Acceptable(p, ms) && i < |ms| && j < |ms| && k < |ms[i].files| && l < |ms[j].files| && (i, k) != (j, l)
    requires ms[i].layout == "" && (ms[j].layout == "" || ms[j].files[l].size > 0)
    ensures ms[i].files[k].sha256 != ms[j].files[l].sha256
  {
    var a, b := ms[i].files[k], ms[j].files[l];
    assert ModelOK(p, ms[i]) && ModelOK(p, ms[j]);
    if i == j {
      assert Apart(a, b) || Apart(b, a);
    } else {
      assert Compatible(ms[i], ms[j]) || Compatible(ms[j], ms[i]);
      assert a.sha256 in FlatContents(ms[i]);
      assert b.sha256 in if IsDir(ms[j]) then FolderContents(ms[j]) else FlatContents(ms[j]);
    }
  }

  /** A folder's size is that of its files together. */
  lemma {:induction false} SizesAddUp(fs: seq<File>, gs: seq<File>)
    ensures SumSizes(fs + gs) == SumSizes(fs) + SumSizes(gs)
    ensures forall f: File :: SumSizes([f]) == f.size
  {
    if gs == [] {
      assert fs + gs == fs;
    } else {
      var front := gs[..|gs| - 1];
      SizesAddUp(fs, front);
      assert (fs + gs)[..|fs + gs| - 1] == fs + front;
    }
    forall f: File ensures SumSizes([f]) == f.size {
      assert [f][..0] == [];
    }
  }

  // ---------- Models that are accepted ----------

  function Repeated(c: char, n: nat): string { seq(n, i => c) }

  function OnePlain(): Model {
    Model("m", "o/r", Repeated('0', 40), "l", "", "", "", "",
          [File("d/f.gguf", "", 1, Repeated('0', 64), Repeated('a', 40), "magnet:?")])
  }

  function PlainMagnet(): Parsers {
    Parsers(_ => Some(Magnet(Repeated('a', 40), [DirWebSeed("o/r") + Repeated('0', 40) + "/" + "d/f.gguf"])), _ => true)
  }

  lemma {:induction false} PlainNameFits()
    ensures DiskShape("f.gguf") && !HasDotDot("d/f.gguf") && Base("d/f.gguf") == "f.gguf"
  {
    assert "d/f.gguf"[2..] == "f.gguf";
    BaseAfter("d/f.gguf", 2);
  }

  lemma {:induction false} PlainFileFits()
    ensures FlatFileOK(PlainMagnet(), OnePlain(), OnePlain().files[0])
  {
    PlainNameFits();
    var f := OnePlain().files[0];
    assert DiskName(f) == "f.gguf";
    assert MagnetOK(PlainMagnet(), f.magnet, f.infoHash, DirWebSeed("o/r") + Repeated('0', 40) + "/" + "d/f.gguf");
  }

  lemma {:induction false} PlainHeaderFits()
    ensures HeaderOK(PlainMagnet(), OnePlain())
  {
    assert "o/r"[1] == '/';
  }

  /** There are per-file models that are accepted: the checks do not exclude each other. */
  lemma {:induction false} PlainAccepted()
    ensures Acceptable(PlainMagnet(), [OnePlain()])
  {
    PlainHeaderFits();
    PlainFileFits();
    OneAccepted(PlainMagnet(), OnePlain());
  }

  lemma {:induction false} OneAccepted(p: Parsers, m: Model)
    requires HeaderOK(p, m) && m.layout == "" && m.infoHash == "" && m.magnet == "" && |m.files| == 1
    requires FlatFileOK(p, m, m.files[0])
    ensures Acceptable(p, [m])
  {
  }

  /** What is after a slash and has none is the base name. */
  lemma {:induction false} BaseAfter(s: string, k: nat)
    requires 0 < k <= |s| && s[k - 1] == '/' && '/' !in s[k..]
    ensures Base(s) == s[k..]
  {
    if k < |s| {
      var last := s[|s| - 1];
      assert s[k..] == s[k..|s| - 1] + [last] && s[..|s| - 1][k..] == s[k..|s| - 1];
      assert last in s[k..];
      BaseAfter(s[..|s| - 1], k);
    }
  }
}
