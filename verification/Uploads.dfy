/** Which seeding torrents may upload when upload slots are limited. */
module Uploads {
  datatype Candidate = Candidate(key: string, demand: int, size: int)

  const SMALL := 0x400_0000

  /** Keys in byte order. */
  predicate Less(a: string, b: string) {
    b != [] && (a == [] || a[0] < b[0] || (a[0] == b[0] && Less(a[1..], b[1..])))
  }

  lemma {:induction false} LessTotal(a: string, b: string)
    ensures !Less(a, a)
    ensures Less(a, b) || Less(b, a) || a == b
  {
    if a != [] {
      LessTotal(a[1..], if b == [] then [] else b[1..]);
      if b != [] && a[0] == b[0] {
        assert a == [a[0]] + a[1..] && b == [b[0]] + b[1..];
      }
    }
  }

  lemma {:induction false} LessTransitive(a: string, b: string, c: string)
    requires Less(a, b) && Less(b, c)
    ensures Less(a, c)
  {
    if a != [] && a[0] == b[0] && b[0] == c[0] {
      LessTransitive(a[1..], b[1..], c[1..]);
    }
  }

  predicate Better(u: Candidate, v: Candidate) {
    if u.demand != v.demand then u.demand > v.demand else Less(u.key, v.key)
  }

  lemma {:induction false} BetterTransitive(u: Candidate, v: Candidate, w: Candidate)
    requires Better(u, v) && !Better(w, v)
    ensures Better(u, w)
  {
    LessTotal(v.key, w.key);
    LessTotal(u.key, w.key);
    if u.demand == v.demand == w.demand && Less(v.key, w.key) {
      LessTransitive(u.key, v.key, w.key);
    }
  }

  /** Neither is better: same demand, same key. */
  lemma {:induction false} Tie(u: Candidate, v: Candidate)
    requires !Better(u, v) && !Better(v, u)
    ensures u.key == v.key && u.demand == v.demand
  {
    LessTotal(u.key, v.key);
  }

  // ---------- The specification: how many large candidates are ahead of one ----------

  predicate Large(u: Candidate) { u.size >= SMALL }

  function Count(c: seq<Candidate>, f: Candidate -> bool): nat {
    if c == [] then 0 else (if f(c[0]) then 1 else 0) + Count(c[1..], f)
  }

  function InFront(u: Candidate): Candidate -> bool { v => Large(v) && Better(v, u) }

  function Ahead(c: seq<Candidate>, u: Candidate): nat { Count(c, InFront(u)) }

  predicate Allowed(c: seq<Candidate>, n: int, u: Candidate) {
    !Large(u) || n <= 0 || Ahead(c, u) < n
  }

  ghost predicate Picked(c: seq<Candidate>, n: int, key: string) {
    exists u <- c :: u.key == key && Allowed(c, n, u)
  }

  // ---------- Sorting ----------

  ghost predicate Sorted(s: seq<Candidate>) {
    forall i, j :: 0 <= i < j < |s| ==> !Better(s[j], s[i])
  }

  function Insert(u: Candidate, s: seq<Candidate>): (r: seq<Candidate>)
    ensures multiset(r) == multiset(s) + multiset{u}
  {
    if s == [] || !Better(s[0], u) then [u] + s
    else
      assert s == [s[0]] + s[1..];
      [s[0]] + Insert(u, s[1..])
  }

  lemma {:induction false} InsertSorted(u: Candidate, s: seq<Candidate>)
    requires Sorted(s)
    ensures Sorted(Insert(u, s))
  {
    var r := Insert(u, s);
    if s == [] || !Better(s[0], u) {
      forall i, j | 0 <= i < j < |r| ensures !Better(r[j], r[i]) {
        if i == 0 && j > 1 && Better(r[j], u) {
          BetterTransitive(r[j], u, s[0]);
        }
      }
    } else {
      var rest := Insert(u, s[1..]);
      InsertSorted(u, s[1..]);
      forall j | 1 <= j < |r| ensures !Better(r[j], s[0]) {
        assert r[j] == rest[j - 1] && rest[j - 1] in multiset(rest);
        if r[j] == u {
          BetterIsStrict(s[0], u);
        } else {
          assert r[j] in multiset(s[1..]);
          var k :| 0 <= k < |s[1..]| && s[1..][k] == r[j];
          assert s[k + 1] == r[j];
        }
      }
    }
  }

  lemma {:induction false} BetterIsStrict(u: Candidate, v: Candidate)
    requires Better(u, v)
    ensures !Better(v, u)
  {
    if u.demand == v.demand && Less(v.key, u.key) {
      LessTransitive(u.key, v.key, u.key);
      LessTotal(u.key, u.key);
    }
  }

  function Sort(s: seq<Candidate>): (r: seq<Candidate>)
    ensures multiset(r) == multiset(s)
  {
    if s == [] then []
    else
      assert s == [s[0]] + s[1..];
      Insert(s[0], Sort(s[1..]))
  }

  lemma {:induction false} SortSorts(s: seq<Candidate>)
    ensures Sorted(Sort(s))
  {
    if s != [] {
      SortSorts(s[1..]);
      InsertSorted(s[0], Sort(s[1..]));
    }
  }

  // ---------- Counting does not depend on the order ----------

  lemma {:induction false} CountWithout(c: seq<Candidate>, i: nat, f: Candidate -> bool)
    requires i < |c|
    ensures Count(c, f) == Count(c[..i] + c[i + 1..], f) + if f(c[i]) then 1 else 0
  {
    if i == 0 {
      assert c[..0] + c[1..] == c[1..];
    } else {
      CountWithout(c[1..], i - 1, f);
      var d := c[..i] + c[i + 1..];
      assert d[0] == c[0] && d[1..] == c[1..][..i - 1] + c[1..][i..];
    }
  }

  lemma {:induction false} Without(c: seq<Candidate>, i: nat)
    requires i < |c|
    ensures multiset(c[..i] + c[i + 1..]) == multiset(c) - multiset{c[i]}
  {
    assert c == c[..i] + [c[i]] + c[i + 1..];
  }

  lemma {:induction false} Rest(c: seq<Candidate>)
    requires c != []
    ensures multiset(c[1..]) == multiset(c) - multiset{c[0]}
  {
    assert c == [c[0]] + c[1..];
  }

  lemma {:induction false} Somewhere(d: seq<Candidate>, u: Candidate) returns (i: nat)
    requires u in multiset(d)
    ensures i < |d| && d[i] == u
  {
    i :| i < |d| && d[i] == u;
  }

  /** Where the first of c stands in a permutation of c; the rest of c permutes what is left. */
  lemma {:induction false} FirstIn(c: seq<Candidate>, d: seq<Candidate>) returns (i: nat)
    requires c != [] && multiset(c) == multiset(d)
    ensures i < |d| && d[i] == c[0] && multiset(c[1..]) == multiset(d[..i] + d[i + 1..])
  {
    i := Somewhere(d, c[0]) by {
      assert c[0] in multiset(c);
    }
    Without(d, i);
    Rest(c);
  }

  lemma {:induction false} CountPermutes(c: seq<Candidate>, d: seq<Candidate>, f: Candidate -> bool)
    requires multiset(c) == multiset(d)
    ensures Count(c, f) == Count(d, f)
  {
    assert |multiset(c)| == |c| && |multiset(d)| == |d|;
    if c != [] {
      var i := FirstIn(c, d);
      CountWithout(d, i, f);
      var rest := d[..i] + d[i + 1..];
      CountPermutes(c[1..], rest, f);
    }
  }

  /** The outcome does not depend on the order the candidates come in. */
  lemma {:induction false} PickedPermutes(c: seq<Candidate>, d: seq<Candidate>, n: int, key: string)
    requires multiset(c) == multiset(d)
    ensures Picked(c, n, key) <==> Picked(d, n, key)
  {
    forall u: Candidate ensures u in c <==> u in d {
      assert u in multiset(c) <==> u in multiset(d);
    }
    forall u: Candidate ensures Allowed(c, n, u) <==> Allowed(d, n, u) {
      CountPermutes(c, d, InFront(u));
    }
  }

  function Larges(c: seq<Candidate>): (r: seq<Candidate>)
    ensures forall u <- r :: Large(u)
    ensures forall u :: u in r <==> u in c && Large(u)
  {
    if c == [] then []
    else
      var init, u := c[..|c| - 1], c[|c| - 1];
      assert c == init + [u];
      if Large(u) then Larges(init) + [u] else Larges(init)
  }

  lemma {:induction false} CountAppend(c: seq<Candidate>, v: Candidate, f: Candidate -> bool)
    ensures Count(c + [v], f) == Count(c, f) + if f(v) then 1 else 0
  {
    if c == [] {
      assert c + [v] == [v];
    } else {
      CountAppend(c[1..], v, f);
      assert (c + [v])[1..] == c[1..] + [v];
    }
  }

  lemma {:induction false} CountLarges(c: seq<Candidate>, f: Candidate -> bool)
    requires forall v :: f(v) ==> Large(v)
    ensures Count(c, f) == Count(Larges(c), f)
  {
    if c != [] {
      var init, v := c[..|c| - 1], c[|c| - 1];
      assert c == init + [v];
      CountLarges(init, f);
      CountAppend(init, v, f);
      CountAppend(Larges(init), v, f);
    }
  }

  /** In a sorted list those ahead of a candidate are exactly its first ones. */
  lemma {:induction false} AheadIsPrefix(s: seq<Candidate>, u: Candidate)
    requires Sorted(s) && forall v <- s :: Large(v)
    ensures forall i :: 0 <= i < |s| ==> (Better(s[i], u) <==> i < Ahead(s, u))
  {
    if s != [] {
      AheadIsPrefix(s[1..], u);
      forall i | 0 <= i < |s| ensures Better(s[i], u) <==> i < Ahead(s, u) {
        if i > 0 {
          assert s[i] == s[1..][i - 1];
          if Better(s[i], u) && !Better(s[0], u) {
            BetterTransitive(s[i], u, s[0]);
          }
        } else if !Better(s[0], u) && s[1..] != [] && Better(s[1..][0], u) {
          BetterTransitive(s[1], u, s[0]);
        }
      }
    }
  }

  /** How many of the sorted large candidates get a slot. */
  function Slots(n: int, large: nat): nat { if n > 0 && n < large then n else large }

  lemma {:induction false} SortedLarges(c: seq<Candidate>, u: Candidate)
    ensures Ahead(Sort(Larges(c)), u) == Ahead(c, u)
    ensures u in Sort(Larges(c)) <==> u in c && Large(u)
  {
    var s := Sort(Larges(c));
    CountPermutes(s, Larges(c), InFront(u));
    CountLarges(c, InFront(u));
    assert u in s <==> u in multiset(s);
    assert u in Larges(c) <==> u in multiset(Larges(c));
  }

  ghost predicate AllLarge(s: seq<Candidate>) { forall u <- s :: Large(u) }

  lemma {:induction false} TopHasFewAhead(s: seq<Candidate>, i: nat)
    requires Sorted(s) && AllLarge(s) && i < |s|
    ensures Ahead(s, s[i]) <= i
  {
    AheadIsPrefix(s, s[i]);
    LessTotal(s[i].key, s[i].key);
  }

  /** The candidate at the place u's rank names ties with u. */
  lemma {:induction false} RankFindsKey(s: seq<Candidate>, u: Candidate)
    requires Sorted(s) && AllLarge(s) && u in s
    ensures Ahead(s, u) < |s| && s[Ahead(s, u)].key == u.key
  {
    var j :| 0 <= j < |s| && s[j] == u;
    AheadIsPrefix(s, u);
    LessTotal(u.key, u.key);
    var r := Ahead(s, u);
    assert !Better(s[j], u);
    assert r <= j && !Better(s[r], u);
    if r < j {
      assert !Better(s[j], s[r]);
      Tie(s[r], u);
    }
  }

  /** The first keys of the sorted large candidates are those of the large candidates with few enough ahead. */
  lemma {:induction false} TopIsAllowed(c: seq<Candidate>, n: int, key: string)
    ensures
      var s := Sort(Larges(c));
      (exists i :: 0 <= i < Slots(n, |s|) && s[i].key == key) <==>
        exists u <- c :: u.key == key && Large(u) && Allowed(c, n, u)
  {
    var s := Sort(Larges(c));
    SortSorts(Larges(c));
    assert AllLarge(s) by {
      forall u | u in s ensures Large(u) { SortedLarges(c, u); }
    }
    if i :| 0 <= i < Slots(n, |s|) && s[i].key == key {
      TopHasFewAhead(s, i);
      SortedLarges(c, s[i]);
    }
    if u :| u in c && u.key == key && Large(u) && Allowed(c, n, u) {
      SortedLarges(c, u);
      RankFindsKey(s, u);
    }
  }

  function Keys(s: seq<Candidate>): set<string> { set u <- s :: u.key }

  function SmallKeys(s: seq<Candidate>): set<string> { set u <- s | !Large(u) :: u.key }

  ghost function Top(c: seq<Candidate>, n: int): seq<Candidate> {
    var s := Sort(Larges(c));
    s[..Slots(n, |s|)]
  }

  lemma {:induction false} TopKeys(c: seq<Candidate>, n: int, key: string)
    ensures key in Keys(Top(c, n)) <==> exists u <- c :: u.key == key && Large(u) && Allowed(c, n, u)
  {
    TopIsAllowed(c, n, key);
    var s, m := Sort(Larges(c)), Slots(n, |Sort(Larges(c))|);
    assert key in Keys(s[..m]) <==> exists i :: 0 <= i < m && s[i].key == key;
  }

  lemma {:induction false} PickedIsTop(c: seq<Candidate>, n: int)
    ensures forall key :: key in SmallKeys(c) + Keys(Top(c, n)) <==> Picked(c, n, key)
  {
    forall key ensures key in SmallKeys(c) + Keys(Top(c, n)) <==> Picked(c, n, key) {
      TopKeys(c, n, key);
    }
  }

  method Split(c: seq<Candidate>) returns (small: set<string>, large: seq<Candidate>)
    ensures small == SmallKeys(c) && large == Larges(c)
  {
    small, large := {}, [];
    for i := 0 to |c|
      invariant small == SmallKeys(c[..i])
      invariant large == Larges(c[..i])
    {
      assert c[..i + 1][..i] == c[..i];
      assert c[..i + 1] == c[..i] + [c[i]];
      if c[i].size < SMALL {
        small := small + {c[i].key};
      } else {
        large := large + [c[i]];
      }
    }
    assert c[..|c|] == c;
  }

  method TakeTop(sorted: seq<Candidate>, n: int, small: set<string>) returns (out: set<string>)
    ensures out == small + Keys(sorted[..Slots(n, |sorted|)])
  {
    out := small;
    var i := 0;
    while i < |sorted|
      invariant 0 <= i <= |sorted| && (n > 0 ==> i <= n)
      invariant out == small + Keys(sorted[..i])
    {
      if n > 0 && i >= n {
        break;
      }
      assert sorted[..i + 1] == sorted[..i] + [sorted[i]];
      out := out + {sorted[i].key};
      i := i + 1;
    }
  }

  /** Exactly the small candidates, and the large ones with fewer than n others ahead, may upload. */
  method RankUploads(c: seq<Candidate>, n: int) returns (out: set<string>)
    ensures forall key :: key in out <==> Picked(c, n, key)
  {
    var small, large := Split(c);
    out := TakeTop(Sort(large), n, small);
    PickedIsTop(c, n);
  }

  // ---------- Exactly as many as there are slots ----------

  ghost predicate Distinct(c: seq<Candidate>) {
    forall i, j :: 0 <= i < j < |c| ==> c[i].key != c[j].key
  }

  ghost function Best(c: seq<Candidate>, n: int): set<string> {
    set u <- c | Large(u) && Allowed(c, n, u) :: u.key
  }

  lemma {:induction false} KeyCount(s: seq<Candidate>)
    requires Distinct(s)
    ensures |Keys(s)| == |s|
  {
    if s != [] {
      var init, u := s[..|s| - 1], s[|s| - 1];
      KeyCount(init);
      assert s == init + [u];
      assert Keys(s) == Keys(init) + {u.key};
      assert u.key !in Keys(init);
    }
  }

  lemma {:induction false} FewerKeys(s: seq<Candidate>)
    ensures |Keys(s)| <= |s|
    ensures |Keys(s)| == |s| ==> Distinct(s)
  {
    if s != [] {
      var init, u := s[..|s| - 1], s[|s| - 1];
      FewerKeys(init);
      assert s == init + [u];
      assert Keys(s) == Keys(init) + {u.key};
    }
  }

  lemma {:induction false} LargesDistinct(c: seq<Candidate>)
    requires Distinct(c)
    ensures Distinct(Larges(c))
  {
    if c != [] {
      var init, u := c[..|c| - 1], c[|c| - 1];
      LargesDistinct(init);
      forall v | v in Larges(init) ensures v.key != u.key {
        assert v in init;
      }
    }
  }

  lemma {:induction false} SortDistinct(c: seq<Candidate>)
    requires Distinct(c)
    ensures Distinct(Sort(Larges(c))) && |Sort(Larges(c))| == |Larges(c)|
  {
    var s := Sort(Larges(c));
    LargesDistinct(c);
    KeyCount(Larges(c));
    assert |s| == |multiset(s)| == |Larges(c)|;
    SameKeys(s, Larges(c));
    FewerKeys(s);
  }

  lemma {:induction false} SameKeys(s: seq<Candidate>, t: seq<Candidate>)
    requires multiset(s) == multiset(t)
    ensures Keys(s) == Keys(t)
  {
    forall u: Candidate ensures u in s <==> u in t {
      assert u in multiset(s) <==> u in multiset(t);
    }
  }

  /** With distinct keys exactly the best n large candidates are allowed, or all of them if there are no more or n is
      0. */
  lemma {:induction false} ExactlyTheBest(c: seq<Candidate>, n: int)
    requires Distinct(c)
    ensures |Best(c, n)| == Slots(n, |Larges(c)|)
  {
    SortDistinct(c);
    KeyCount(Top(c, n));
    forall key ensures key in Best(c, n) <==> key in Keys(Top(c, n)) {
      TopKeys(c, n, key);
    }
    assert Best(c, n) == Keys(Top(c, n));
  }

  // ---------- The same by positions ----------

  /** Byte order: a common beginning, then one key ends or has the smaller character. */
  ghost predicate KeyBefore(a: string, b: string) {
    exists k: nat :: k <= |a| && k < |b| && a[..k] == b[..k] && (k == |a| || a[k] < b[k])
  }

  lemma {:induction false} LessIsKeyBefore(a: string, b: string)
    ensures Less(a, b) <==> KeyBefore(a, b)
  {
    if Less(a, b) {
      LessThenBefore(a, b);
    }
    if KeyBefore(a, b) {
      var k: nat :| k <= |a| && k < |b| && a[..k] == b[..k] && (k == |a| || a[k] < b[k]);
      BeforeThenLess(a, b, k);
    }
  }

  lemma {:induction false} LessThenBefore(a: string, b: string)
    requires Less(a, b)
    ensures KeyBefore(a, b)
  {
    if a == [] || a[0] < b[0] {
      assert a[..0] == b[..0];
    } else {
      var x, y := a[1..], b[1..];
      LessThenBefore(x, y);
      var k: nat :| k <= |x| && k < |y| && x[..k] == y[..k] && (k == |x| || x[k] < y[k]);
      assert a[..k + 1] == [a[0]] + x[..k] && b[..k + 1] == [b[0]] + y[..k];
    }
  }

  lemma {:induction false} BeforeThenLess(a: string, b: string, k: nat)
    requires k <= |a| && k < |b| && a[..k] == b[..k] && (k == |a| || a[k] < b[k])
    ensures Less(a, b)
    decreases k
  {
    if k > 0 {
      assert a[0] == a[..k][0] == b[..k][0] == b[0];
      assert a[1..][..k - 1] == a[..k][1..] && b[1..][..k - 1] == b[..k][1..];
      BeforeThenLess(a[1..], b[1..], k - 1);
    }
  }

  /** v takes a slot before u does: it is large, and in more demand, or in as much with an earlier key. */
  ghost predicate Outranks(v: Candidate, u: Candidate) {
    v.size >= 64 * 1024 * 1024 && (v.demand > u.demand || (v.demand == u.demand && KeyBefore(v.key, u.key)))
  }

  ghost function Rivals(c: seq<Candidate>, u: Candidate): set<int> { set i | 0 <= i < |c| && Outranks(c[i], u) }

  lemma {:induction false} AheadIsRivals(c: seq<Candidate>, u: Candidate)
    ensures Ahead(c, u) == |Rivals(c, u)|
  {
    if c == [] {
      assert Rivals(c, u) == {};
    } else {
      var n := |c| - 1;
      var front, v := c[..n], c[n];
      AheadIsRivals(front, u);
      CountAppend(front, v, InFront(u));
      assert c == front + [v];
      LessIsKeyBefore(v.key, u.key);
      OneMoreRival(front, v, u);
    }
  }

  lemma {:induction false} OneMoreRival(front: seq<Candidate>, v: Candidate, u: Candidate)
    ensures |Rivals(front + [v], u)| == |Rivals(front, u)| + if Outranks(v, u) then 1 else 0
  {
    var n, c := |front|, front + [v];
    assert c[n] == v && forall i :: 0 <= i < n ==> front[i] == c[i];
    assert Rivals(c, u) == if Outranks(v, u) then Rivals(front, u) + {n} else Rivals(front, u);
  }

  /** What is picked, without the sort: the small ones, and the large ones that fewer than n outrank, or all if n is
      0. */
  lemma {:induction false} PickedMeans(c: seq<Candidate>, n: int, key: string)
    ensures Picked(c, n, key) <==>
      exists u <- c :: u.key == key && (u.size < 64 * 1024 * 1024 || n <= 0 || |Rivals(c, u)| < n)
  {
    forall u: Candidate ensures Ahead(c, u) == |Rivals(c, u)| {
      AheadIsRivals(c, u);
    }
  }
}
