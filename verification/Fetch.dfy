/** Fetching the signed catalogue, and the cached copy that guards against rollback. */
module Fetch {
  import opened Catalog

  type Bytes = string

  datatype Catalogue = Catalogue(version: int, generated: int, models: seq<Model>)

  /** The signature check under the configured public key, and JSON. */
  datatype Codec = Codec(
    verify: (Bytes, Bytes) -> bool,
    decode: Bytes -> Option<Catalogue>,
    encode: Catalogue -> Bytes,
    parsers: Parsers)

  const VERSION := 1
  const VERSION_DIR := 2
  const BODY_LIMIT := 0x200_0000
  const SIG_LIMIT := 4096

  // ---------- Text ----------

  predicate Space(c: char) { c in " \t\n\r\U{0B}\U{0C}" }

  function TrimLeft(s: Bytes): Bytes { if s != [] && Space(s[0]) then TrimLeft(s[1..]) else s }

  function TrimRight(s: Bytes): Bytes { if s != [] && Space(s[|s| - 1]) then TrimRight(s[..|s| - 1]) else s }

  function Trim(s: Bytes): Bytes { TrimRight(TrimLeft(s)) }

  predicate Trimmed(s: Bytes) { s == [] || (!Space(s[0]) && !Space(s[|s| - 1])) }

  lemma {:induction false} TrimRightEnds(s: Bytes)
    ensures var r := TrimRight(s); |r| <= |s| && r == s[..|r|] && (r != [] ==> !Space(r[|r| - 1]))
  {
    if s != [] && Space(s[|s| - 1]) { TrimRightEnds(s[..|s| - 1]); }
  }

  lemma {:induction false} TrimLeftStarts(s: Bytes)
    ensures var r := TrimLeft(s); r != [] ==> !Space(r[0])
  {
    if s != [] && Space(s[0]) { TrimLeftStarts(s[1..]); }
  }

  lemma {:induction false} TrimIsTrimmed(s: Bytes)
    ensures Trimmed(Trim(s))
  {
    TrimLeftStarts(s);
    TrimRightEnds(TrimLeft(s));
  }

  lemma {:induction false} TrimmedStays(s: Bytes)
    requires Trimmed(s)
    ensures Trim(s) == s
  {
  }

  /** White space alone. */
  ghost predicate Blank(s: Bytes) {
    forall i :: 0 <= i < |s| ==>
      s[i] == ' ' || s[i] == '\t' || s[i] == '\n' || s[i] == '\r' || s[i] == '\U{0B}' || s[i] == '\U{0C}'
  }

  lemma {:induction false} TrimLeftBlank(a: Bytes, s: Bytes)
    requires Blank(a) && (s == [] || !Space(s[0]))
    ensures TrimLeft(a + s) == s
  {
    if a == [] {
      assert a + s == s;
    } else {
      TrimLeftBlank(a[1..], s);
      assert (a + s)[0] == a[0] && (a + s)[1..] == a[1..] + s;
    }
  }

  lemma {:induction false} TrimRightBlank(s: Bytes, b: Bytes)
    requires Blank(b) && (s == [] || !Space(s[|s| - 1]))
    ensures TrimRight(s + b) == s
  {
    if b == [] {
      assert s + b == s;
    } else {
      var front := b[..|b| - 1];
      TrimRightBlank(s, front);
      assert (s + b)[|s + b| - 1] == b[|b| - 1] && (s + b)[..|s + b| - 1] == s + front;
    }
  }

  /** Trimming takes away the white space around a text, all of it and nothing else. */
  lemma {:induction false} TrimIsExact(a: Bytes, s: Bytes, b: Bytes)
    requires Blank(a) && Blank(b) && Trimmed(s)
    ensures Trim(a + s + b) == s
  {
    if s == [] {
      assert a + s + b == a + b;
      BlankTrims(a + b);
    } else {
      assert a + s + b == a + (s + b);
      TrimLeftBlank(a, s + b);
      TrimRightBlank(s, b);
    }
  }

  lemma {:induction false} BlankTrims(a: Bytes)
    requires Blank(a)
    ensures Trim(a) == []
  {
    assert a + [] == a;
    TrimLeftBlank(a, []);
  }

  /** Where the first newline is, or the length if there is none. */
  function NewlineAt(s: Bytes): (i: nat)
    ensures i <= |s| && (i < |s| ==> s[i] == '\n')
    ensures forall k :: 0 <= k < i ==> s[k] != '\n'
  {
    if s == [] || s[0] == '\n' then 0 else 1 + NewlineAt(s[1..])
  }

  // ---------- Parsing ----------

  function VersionFor(ms: seq<Model>): (v: int)
    ensures v == if exists m <- ms :: IsDir(m) then VERSION_DIR else VERSION
  {
    if ms == [] then VERSION else if IsDir(ms[0]) then VERSION_DIR
    else
      assert ms == [ms[0]] + ms[1..];
      VersionFor(ms[1..])
  }

  function Parsed(x: Codec, body: Bytes): Option<Catalogue> {
    match x.decode(body)
    case None => None
    case Some(c) =>
      if c.version != VERSION && c.version != VERSION_DIR then None
      else if !Acceptable(x.parsers, c.models) then None
      else if c.version < VersionFor(c.models) then None
      else Some(c)
  }

  method Parse(x: Codec, body: Bytes) returns (cat: Option<Catalogue>)
    ensures cat == Parsed(x, body)
    ensures cat.Some? ==> Acceptable(x.parsers, cat.value.models)
    ensures cat.Some? && (exists m <- cat.value.models :: IsDir(m)) ==> cat.value.version == VERSION_DIR
  {
    var c := x.decode(body);
    if c.None? || (c.value.version != VERSION && c.value.version != VERSION_DIR) {
      return None;
    }
    var bad := Validate(x.parsers, c.value.models);
    if bad.Some? || c.value.version < VersionFor(c.value.models) {
      return None;
    }
    return c;
  }

  function Built(x: Codec, ms: seq<Model>, now: int): Option<Bytes> {
    if Acceptable(x.parsers, ms) then Some(x.encode(Catalogue(VersionFor(ms), now, ms)) + "\n") else None
  }

  method Build(x: Codec, ms: seq<Model>, now: int) returns (body: Option<Bytes>)
    ensures body == Built(x, ms, now)
  {
    var bad := Validate(x.parsers, ms);
    if bad.Some? {
      return None;
    }
    return Some(x.encode(Catalogue(VersionFor(ms), now, ms)) + "\n");
  }

  /** Exactly the acceptable lists are built, and what is built parses back to what was built exactly if JSON gives
      it back. */
  lemma {:induction false} BuildParses(x: Codec, ms: seq<Model>, now: int)
    ensures Built(x, ms, now).Some? <==> Acceptable(x.parsers, ms)
    ensures
      var c, body := Catalogue(VersionFor(ms), now, ms), Built(x, ms, now);
      body.Some? ==> (Parsed(x, body.value) == Some(c) <==> x.decode(body.value) == Some(c))
  {
  }

  // ---------- Fetching ----------

  predicate Verified(x: Codec, body: Bytes, sig: Bytes) { x.verify(body, Trim(sig)) }

  function Opened(x: Codec, body: Bytes, sig: Bytes): Option<Catalogue> {
    if Verified(x, body, sig) then Parsed(x, body) else None
  }

  /** How far writing the cache gets. */
  datatype Writing = NoDirectory | CutShort(n: nat) | NotRenamed | Written

  /** One attempt's surroundings: what the server serves, and whether the cache file can be read and written. */
  datatype Reply = Reply(body: Option<Bytes>, sig: Option<Bytes>, readable: bool, writing: Writing)

  function Get(served: Option<Bytes>, limit: nat): Option<Bytes> {
    if served.Some? && |served.value| > limit then None else served
  }

  function Loaded(x: Codec, data: Option<Bytes>): Option<Catalogue> {
    if data.None? then None
    else
      var i := NewlineAt(data.value);
      if i == |data.value| then None else Opened(x, data.value[i + 1..], data.value[..i])
  }

  datatype Error = CacheWrite | RolledBack | UsingCache | NoCache

  datatype Outcome = Outcome(cat: Option<Catalogue>, err: Option<Error>)

  function Served(x: Codec, r: Reply): Option<Catalogue> {
    var body, sig := Get(r.body, BODY_LIMIT), Get(r.sig, SIG_LIMIT);
    if body.None? || sig.None? then None else Opened(x, body.value, sig.value)
  }

  function CacheFile(sig: Bytes, body: Bytes): Bytes { Trim(sig) + "\n" + body }

  class Fetcher {
    const x: Codec
    var cache: Option<Bytes>
    var tmp: Option<Bytes>

    constructor (x: Codec, cache: Option<Bytes>)
      ensures this.x == x && this.cache == cache
    {
      this.x, this.cache, tmp := x, cache, None;
    }

    method LoadCache(readable: bool) returns (cat: Option<Catalogue>)
      ensures cat == if readable then Loaded(x, cache) else None
    {
      if !readable || cache.None? {
        return None;
      }
      var data := cache.value;
      var i := NewlineAt(data);
      if i == |data| {
        return None;
      }
      var sig, body := data[..i], data[i + 1..];
      if !x.verify(body, Trim(sig)) {
        return None;
      }
      cat := Parse(x, body);
    }

    /** However far it gets, the cache is the old one or the whole new one. */
    method WriteCache(data: Bytes, w: Writing) returns (ok: bool)
      modifies this`cache, this`tmp
      ensures ok <==> w.Written?
      ensures cache == if ok then Some(data) else old(cache)
    {
      if w.NoDirectory? {
        return false;
      }
      if w.CutShort? {
        tmp := Some(if w.n < |data| then data[..w.n] else data);
        return false;
      }
      tmp := Some(data);
      if w.NotRenamed? {
        return false;
      }
      cache, tmp := tmp, None;
      return true;
    }

    method Fetch(r: Reply) returns (out: Outcome)
      modifies this`cache, this`tmp
      ensures (out, cache) == Fetched(x, old(cache), r)
    {
      var body := Get(r.body, BODY_LIMIT);
      var failed := body.None?;
      var sig := None;
      if !failed {
        sig := Get(r.sig, SIG_LIMIT);
        failed := sig.None?;
      }
      if !failed {
        failed := !x.verify(body.value, Trim(sig.value));
      }
      var cat := None;
      if !failed {
        cat := Parse(x, body.value);
        failed := cat.None?;
      }
      if !failed {
        var cached := LoadCache(r.readable);
        if cached.Some? && cat.value.generated < cached.value.generated {
          return Outcome(cached, Some(RolledBack));
        }
        var ok := WriteCache(Trim(sig.value) + "\n" + body.value, r.writing);
        return Outcome(cat, if ok then None else Some(CacheWrite));
      }
      var cached := LoadCache(r.readable);
      return Outcome(cached, Some(if cached.None? then NoCache else UsingCache));
    }
  }

  /** One fetch: what it returns and what it leaves in the cache. */
  function Fetched(x: Codec, cache: Option<Bytes>, r: Reply): (Outcome, Option<Bytes>) {
    var cached, cat := if r.readable then Loaded(x, cache) else None, Served(x, r);
    if cat.None? then (Outcome(cached, Some(if cached.None? then NoCache else UsingCache)), cache)
    else if cached.Some? && cat.value.generated < cached.value.generated then (Outcome(cached, Some(RolledBack)), cache)
    else if r.writing.Written? then (Outcome(cat, None), Some(CacheFile(r.sig.value, r.body.value)))
    else (Outcome(cat, Some(CacheWrite)), cache)
  }

  /** A signature with white space around it, such as the newline it is published with, counts as without. */
  lemma {:induction false} SpaceAroundSignature(x: Codec, r: Reply, a: Bytes, s: Bytes, b: Bytes)
    requires Blank(a) && Blank(b) && Trimmed(s) && |a + s + b| <= SIG_LIMIT
    ensures Served(x, r.(sig := Some(a + s + b))) == Served(x, r.(sig := Some(s)))
    ensures CacheFile(a + s + b, []) == CacheFile(s, [])
  {
    TrimIsExact(a, s, b);
    TrimmedStays(s);
  }

  /** A genuine catalogue within the size limits is taken, with its signature as published, and nothing larger is. */
  lemma {:induction false} TakesWhatIsPublished(x: Codec, body: Bytes, s: Bytes, r: Reply)
    requires r.body == Some(body) && r.sig == Some(s + "\n") && Trimmed(s)
    ensures Served(x, r) ==
      if |body| <= 0x200_0000 && |s| < 4096 && x.verify(body, s) then Parsed(x, body) else None
  {
    TrimIsExact([], s, "\n");
    assert [] + s + "\n" == s + "\n";
  }

  // ---------- What the cache file gives back ----------

  /** No newline inside the signature once it is trimmed. */
  predicate OneLine(sig: Bytes) { '\n' !in Trim(sig) }

  lemma {:induction false} NewlineIn(s: Bytes, rest: Bytes)
    ensures NewlineAt(s + "\n" + rest) == NewlineAt(s)
  {
    var all := s + "\n" + rest;
    if s != [] && s[0] != '\n' {
      NewlineIn(s[1..], rest);
      assert all[1..] == s[1..] + "\n" + rest;
    }
  }

  lemma {:induction false} ReadsBack(x: Codec, sig: Bytes, body: Bytes)
    requires OneLine(sig)
    ensures Loaded(x, Some(CacheFile(sig, body))) == Opened(x, body, sig)
  {
    var s := Trim(sig);
    NewlineIn(s, body);
    assert NewlineAt(s) == |s|;
    assert CacheFile(sig, body)[..|s|] == s && CacheFile(sig, body)[|s| + 1..] == body;
    TrimIsTrimmed(sig);
    TrimmedStays(s);
  }

  predicate LineBreak(c: char) { c == '\n' || c == '\r' }

  /** How many characters there are besides line breaks, which base64 decoding skips. */
  function Marks(s: Bytes): nat {
    if s == [] then 0 else Marks(s[..|s| - 1]) + if LineBreak(s[|s| - 1]) then 0 else 1
  }

  const SIGNATURE_MARKS := 88

  /** An accepted signature decodes to 64 bytes (section 5.1.7 of RFC 8032), which padded base64 (section 4 of
      RFC 4648) writes with 88 characters. */
  ghost predicate FixedLength(x: Codec) {
    forall body, s :: x.verify(body, s) ==> Marks(s) == SIGNATURE_MARKS
  }

  lemma {:induction false} MarksGrow(s: Bytes, n: nat)
    requires n < |s|
    ensures Marks(s[..n]) <= Marks(s)
    ensures !LineBreak(s[|s| - 1]) ==> Marks(s[..n]) < Marks(s)
  {
    var front := s[..|s| - 1];
    if n < |front| {
      MarksGrow(front, n);
      assert front[..n] == s[..n];
    } else {
      assert s[..n] == front;
    }
  }

  /** What was just written to the cache can be read from it exactly if its signature is on one line. */
  lemma {:induction false} ReadsBackIffOneLine(x: Codec, sig: Bytes, body: Bytes)
    requires FixedLength(x) && Verified(x, body, sig)
    ensures Loaded(x, Some(CacheFile(sig, body))) == (if OneLine(sig) then Opened(x, body, sig) else None)
  {
    if OneLine(sig) {
      ReadsBack(x, sig, body);
    } else {
      var s := Trim(sig);
      var i := NewlineAt(s);
      NewlineIn(s, body);
      TrimIsTrimmed(sig);
      var k :| 0 <= k < |s| && s[k] == '\n';
      assert i <= k;
      var data := CacheFile(sig, body);
      assert data[..i] == s[..i];
      ShortFails(x, s, body, data[i + 1..], i);
    }
  }

  lemma {:induction false} ShortFails(x: Codec, s: Bytes, body: Bytes, rest: Bytes, i: nat)
    requires FixedLength(x) && x.verify(body, s) && i < |s| && Trimmed(s)
    ensures !x.verify(rest, Trim(s[..i]))
  {
    var t := Trim(s[..i]);
    assert TrimLeft(s[..i]) == s[..i];
    TrimRightEnds(s[..i]);
    assert t == s[..|t|];
    MarksGrow(s, |t|);
  }

  // ---------- No rollback over any run ----------

  predicate Careful(x: Codec, r: Reply) { r.readable && (Served(x, r).Some? ==> OneLine(r.sig.value)) }

  predicate NotOlder(a: Option<Catalogue>, b: Option<Catalogue>) {
    a.Some? ==> b.Some? && a.value.generated <= b.value.generated
  }

  /** A catalogue that came with a valid signature and was accepted. */
  ghost predicate Genuine(x: Codec, c: Catalogue) {
    Acceptable(x.parsers, c.models) && exists body, sig :: Verified(x, body, sig) && Parsed(x, body) == Some(c)
  }

  lemma {:induction false} OpenedIsGenuine(x: Codec, body: Bytes, sig: Bytes)
    requires Opened(x, body, sig).Some?
    ensures Genuine(x, Opened(x, body, sig).value)
  {
    assert Verified(x, body, sig);
  }

  lemma {:induction false} ServedIsOpened(x: Codec, r: Reply)
    requires Served(x, r).Some?
    ensures r.body.Some? && r.sig.Some? && Served(x, r) == Opened(x, r.body.value, r.sig.value)
  {
  }

  /** What a fetch returns is genuine, whatever the server sent and whatever the cache file holds. */
  lemma {:induction false} ReturnsGenuine(x: Codec, cache: Option<Bytes>, r: Reply)
    ensures var out := Fetched(x, cache, r).0; out.cat.Some? ==> Genuine(x, out.cat.value)
  {
    if Served(x, r).Some? {
      ServedIsOpened(x, r);
      OpenedIsGenuine(x, r.body.value, r.sig.value);
    }
    if Loaded(x, cache).Some? {
      var i := NewlineAt(cache.value);
      OpenedIsGenuine(x, cache.value[i + 1..], cache.value[..i]);
    }
  }

  /** What a fetch promises, whatever happens: when what it returns is no older than the cache was, when it succeeds,
      and what success and failure leave. */
  lemma {:induction false} FetchMovesForward(x: Codec, cache: Option<Bytes>, r: Reply)
    ensures
      var held, cat := Loaded(x, cache), Served(x, r);
      var (out, cache') := Fetched(x, cache, r);
      && (NotOlder(held, out.cat) <==> held.None? || r.readable || NotOlder(held, cat))
      && (out.err.None? <==> cat.Some? && r.writing.Written? && (r.readable ==> NotOlder(held, cat)))
      && (out.err.None? ==> out.cat == cat && (OneLine(r.sig.value) ==> Loaded(x, cache') == cat))
      && (out.err.Some? ==> cache' == cache)
  {
    if Served(x, r).Some? {
      ServedIsOpened(x, r);
      if OneLine(r.sig.value) {
        ReadsBack(x, r.sig.value, r.body.value);
      }
    }
  }

  /** The cache holds nothing, is not replaced, or is replaced by something no older that can be read back. */
  predicate Keeps(x: Codec, held: Option<Catalogue>, r: Reply) {
    || held.None? || Served(x, r).None? || !r.writing.Written?
    || (r.readable && !NotOlder(held, Served(x, r)))
    || (OneLine(r.sig.value) && NotOlder(held, Served(x, r)))
  }

  /** Exactly when the cached catalogue does not go back, or get lost, in one fetch. */
  lemma {:induction false} GoesBackIff(x: Codec, cache: Option<Bytes>, r: Reply)
    requires FixedLength(x)
    ensures NotOlder(Loaded(x, cache), Loaded(x, Fetched(x, cache, r).1)) <==> Keeps(x, Loaded(x, cache), r)
  {
    if Served(x, r).Some? {
      ServedIsOpened(x, r);
      ReadsBackIffOneLine(x, r.sig.value, r.body.value);
    }
  }

  ghost function CacheAfter(x: Codec, cache: Option<Bytes>, rs: seq<Reply>): Option<Bytes> {
    if rs == [] then cache else Fetched(x, CacheAfter(x, cache, rs[..|rs| - 1]), rs[|rs| - 1]).1
  }

  /** What the cache holds after the first i replies. */
  ghost function Held(x: Codec, cache: Option<Bytes>, rs: seq<Reply>, i: nat): Option<Catalogue>
    requires i <= |rs|
  {
    Loaded(x, CacheAfter(x, cache, rs[..i]))
  }

  lemma {:induction false} HeldMovesForward(x: Codec, cache: Option<Bytes>, rs: seq<Reply>, i: nat)
    requires i < |rs| && Careful(x, rs[i])
    ensures NotOlder(Held(x, cache, rs, i), Held(x, cache, rs, i + 1))
    ensures NotOlder(Held(x, cache, rs, i), Fetched(x, CacheAfter(x, cache, rs[..i]), rs[i]).0.cat)
  {
    assert rs[..i + 1][..i] == rs[..i];
    FetchMovesForward(x, CacheAfter(x, cache, rs[..i]), rs[i]);
  }

  ghost predicate InOrder(x: Codec, cache: Option<Bytes>, rs: seq<Reply>, i: nat, j: nat)
    requires i <= j <= |rs|
  {
    NotOlder(Held(x, cache, rs, i), Held(x, cache, rs, j))
  }

  ghost predicate NextInOrder(x: Codec, cache: Option<Bytes>, rs: seq<Reply>, k: nat)
    requires k < |rs|
  {
    InOrder(x, cache, rs, k, k + 1)
  }

  ghost predicate KeptAt(x: Codec, cache: Option<Bytes>, rs: seq<Reply>, k: nat)
    requires k < |rs|
  {
    Keeps(x, Held(x, cache, rs, k), rs[k])
  }

  lemma {:induction false} InOrderIffKept(x: Codec, cache: Option<Bytes>, rs: seq<Reply>, k: nat)
    requires k < |rs| && FixedLength(x)
    ensures NextInOrder(x, cache, rs, k) <==> KeptAt(x, cache, rs, k)
  {
    assert rs[..k + 1][..k] == rs[..k];
    GoesBackIff(x, CacheAfter(x, cache, rs[..k]), rs[k]);
  }

  lemma {:induction false} StepwiseInOrder(x: Codec, cache: Option<Bytes>, rs: seq<Reply>, i: nat, j: nat)
    requires i <= j <= |rs| && forall k: nat :: i <= k < j ==> NextInOrder(x, cache, rs, k)
    ensures InOrder(x, cache, rs, i, j)
  {
    var hs := seq(|rs| + 1, k requires 0 <= k <= |rs| => Held(x, cache, rs, k));
    forall k | i < k <= j ensures NotOlder(hs[k - 1], hs[k]) {
      assert NextInOrder(x, cache, rs, k - 1);
    }
    Forward(hs, i, j);
  }

  ghost predicate OnlyNewer(x: Codec, cache: Option<Bytes>, rs: seq<Reply>) {
    forall i: nat, j: nat :: i <= j <= |rs| ==> InOrder(x, cache, rs, i, j)
  }

  /** Over any sequence of replies, the cached catalogue only gets newer exactly if no reply loses it or replaces it by
      an older one. */
  lemma {:induction false} RollsBackIff(x: Codec, cache: Option<Bytes>, rs: seq<Reply>)
    requires FixedLength(x)
    ensures OnlyNewer(x, cache, rs) <==> forall k: nat :: k < |rs| ==> KeptAt(x, cache, rs, k)
  {
    forall k: nat | k < |rs| ensures NextInOrder(x, cache, rs, k) <==> KeptAt(x, cache, rs, k) {
      InOrderIffKept(x, cache, rs, k);
    }
    if forall k: nat :: k < |rs| ==> KeptAt(x, cache, rs, k) {
      forall i: nat, j: nat | i <= j <= |rs| ensures InOrder(x, cache, rs, i, j) {
        StepwiseInOrder(x, cache, rs, i, j);
      }
    }
  }

  lemma {:induction false} Forward(hs: seq<Option<Catalogue>>, i: nat, j: nat)
    requires i <= j < |hs| && forall k :: i < k <= j ==> NotOlder(hs[k - 1], hs[k])
    ensures NotOlder(hs[i], hs[j])
    decreases j
  {
    if i < j {
      Forward(hs, i, j - 1);
    }
  }

  /** In particular over any sequence of replies with signatures on one line, while the cache can be read. */
  lemma {:induction false} NeverRollsBack(x: Codec, cache: Option<Bytes>, rs: seq<Reply>, i: nat, j: nat)
    requires i <= j <= |rs| && forall k :: i <= k < j ==> Careful(x, rs[k])
    ensures NotOlder(Held(x, cache, rs, i), Held(x, cache, rs, j))
  {
    forall k: nat | i <= k < j ensures NextInOrder(x, cache, rs, k) {
      HeldMovesForward(x, cache, rs, k);
    }
    StepwiseInOrder(x, cache, rs, i, j);
  }

  /** While no reply loses the cached catalogue, a catalogue that a fetch returns is genuine, and it is no older than
      any the cache held before unless the cache could not be read and something older was served. */
  lemma {:induction false} NeverReturnsOlder(x: Codec, cache: Option<Bytes>, rs: seq<Reply>, i: nat, j: nat)
    requires FixedLength(x) && i <= j < |rs| && forall k: nat :: i <= k < j ==> KeptAt(x, cache, rs, k)
    ensures
      var out := Fetched(x, CacheAfter(x, cache, rs[..j]), rs[j]).0;
      && (out.cat.Some? ==> Genuine(x, out.cat.value))
      && (rs[j].readable || NotOlder(Held(x, cache, rs, j), Served(x, rs[j])) ==>
            NotOlder(Held(x, cache, rs, i), out.cat))
  {
    forall k: nat | i <= k < j ensures NextInOrder(x, cache, rs, k) {
      InOrderIffKept(x, cache, rs, k);
    }
    StepwiseInOrder(x, cache, rs, i, j);
    FetchMovesForward(x, CacheAfter(x, cache, rs[..j]), rs[j]);
    ReturnsGenuine(x, CacheAfter(x, cache, rs[..j]), rs[j]);
  }

  // ---------- Where it does go back ----------

  function Line(n: nat): Bytes { seq(n, i => 'a') }

  /** A signature on one line, and the same one broken in two. */
  const ONE_LINE := Line(88)
  const TWO_LINES := Line(44) + "\n" + Line(44)

  const OLDER := Catalogue(VERSION, 1, [])
  const NEWER := Catalogue(VERSION, 2, [])

  /** Two bodies, and any signature of the right length. */
  function TwoBodies(): Codec {
    Codec((body, sig) => Marks(sig) == SIGNATURE_MARKS,
          body => if body == "old" then Some(OLDER) else if body == "new" then Some(NEWER) else None,
          _ => "", Parsers(_ => None, _ => false))
  }

  lemma {:induction false} LineMarks(s: Bytes, t: Bytes)
    requires forall i :: 0 <= i < |t| ==> t[i] == 'a'
    ensures Marks(s + t) == Marks(s) + |t|
  {
    if t == [] {
      assert s + t == s;
    } else {
      var front := t[..|t| - 1];
      LineMarks(s, front);
      MarksAppend(s + front, 'a');
      assert s + t == s + front + ['a'];
    }
  }

  lemma {:induction false} MarksAppend(s: Bytes, c: char)
    ensures Marks(s + [c]) == Marks(s) + if LineBreak(c) then 0 else 1
  {
    assert (s + [c])[..|s|] == s;
  }

  lemma {:induction false} BothAccepted()
    ensures Marks(ONE_LINE) == Marks(TWO_LINES) == SIGNATURE_MARKS
    ensures Trim(ONE_LINE) == ONE_LINE && Trim(TWO_LINES) == TWO_LINES && OneLine(ONE_LINE) && !OneLine(TWO_LINES)
  {
    LineMarks([], Line(44));
    assert [] + Line(44) == Line(44);
    LineMarks([], Line(88));
    assert [] + Line(88) == Line(88);
    MarksAppend(Line(44), '\n');
    LineMarks(Line(44) + "\n", Line(44));
    TrimmedStays(ONE_LINE);
    TrimmedStays(TWO_LINES);
    assert TWO_LINES[44] == '\n';
  }

  function Serves(body: Bytes, sig: Bytes, readable: bool): Reply { Reply(Some(body), Some(sig), readable, Written) }

  lemma {:induction false} ServesBoth(body: Bytes, sig: Bytes, readable: bool)
    requires (body == "old" || body == "new") && (sig == ONE_LINE || sig == TWO_LINES)
    ensures FixedLength(TwoBodies()) && Verified(TwoBodies(), body, sig)
    ensures Opened(TwoBodies(), body, sig) == Some(if body == "old" then OLDER else NEWER)
    ensures Served(TwoBodies(), Serves(body, sig, readable)) == Opened(TwoBodies(), body, sig)
  {
    BothAccepted();
  }

  /** A cache that holds the newer catalogue but cannot be read is replaced by the older one, without an error. */
  lemma {:induction false} UnreadableGoesBack()
    ensures
      var x, cache := TwoBodies(), Some(CacheFile(ONE_LINE, "new"));
      var (out, cache') := Fetched(x, cache, Serves("old", ONE_LINE, false));
      Loaded(x, cache) == Some(NEWER) && out == Outcome(Some(OLDER), None) && Loaded(x, cache') == Some(OLDER)
  {
    ServesBoth("new", ONE_LINE, true);
    ServesBoth("old", ONE_LINE, false);
    BothAccepted();
    ReadsBack(TwoBodies(), ONE_LINE, "new");
    ReadsBack(TwoBodies(), ONE_LINE, "old");
  }

  /** A fetch of the newer catalogue with its signature on two lines succeeds, and the next fetch of the older one
      succeeds too, with a cache that can be read and written throughout. */
  lemma {:induction false} TwoLinesGoBack()
    ensures
      var x := TwoBodies();
      var (first, cache) := Fetched(x, None, Serves("new", TWO_LINES, true));
      var (second, cache') := Fetched(x, cache, Serves("old", ONE_LINE, true));
      && first == Outcome(Some(NEWER), None) && second == Outcome(Some(OLDER), None)
      && Loaded(x, cache) == None && Loaded(x, cache') == Some(OLDER)
  {
    ServesBoth("new", TWO_LINES, true);
    ServesBoth("old", ONE_LINE, true);
    BothAccepted();
    ReadsBackIffOneLine(TwoBodies(), TWO_LINES, "new");
    ReadsBack(TwoBodies(), ONE_LINE, "old");
  }
}
