/** Splitting the global connection limit across torrents. */
module ConnBudget {
  datatype Torrent = Torrent(key: string, downloading: bool, local: nat)

  datatype Params = Params(maxConns: int, perTorrent: int, countLocal: bool)

  const MIN_PER_TORRENT := 4

  function Min(a: int, b: int): int { if a < b then a else b }

  function Max(a: int, b: int): int { if a < b then b else a }

  function Cap(p: Params): (per: int)
    ensures per > 0
  {
    if p.perTorrent <= 0 then 50 else p.perTorrent
  }

  function Floor(p: Params): int { Min(MIN_PER_TORRENT, Cap(p)) }

  function Weight(t: Torrent): int { if t.downloading then 2 else 1 }

  function Total(ts: seq<Torrent>): (n: nat)
    ensures n >= |ts|
  {
    if ts == [] then 0 else Total(ts[..|ts| - 1]) + Weight(ts[|ts| - 1])
  }

  /** The part of the limit that goes with a weight, rounded down. */
  function PartFor(limit: int, total: int, weight: int): int
    requires total > 0
  {
    limit * weight / total
  }

  /** A torrent's proportional part. */
  function Part(p: Params, total: int, t: Torrent): int
    requires total > 0
  {
    if t.downloading then PartFor(p.maxConns, total, 2) else PartFor(p.maxConns, total, 1)
  }

  /** What the limit leaves a torrent, local connections not added. */
  function Share(p: Params, total: int, t: Torrent): int
    requires total > 0
  {
    if p.maxConns <= 0 then Cap(p) else Min(Max(Part(p, total, t), Floor(p)), Cap(p))
  }

  function Allowance(p: Params, total: int, t: Torrent): int
    requires total > 0
  {
    Share(p, total, t) + if p.countLocal then 0 else t.local
  }

  ghost predicate LastOf(ts: seq<Torrent>, i: nat) {
    i < |ts| && forall j :: i < j < |ts| ==> ts[j].key != ts[i].key
  }

  /** Every key has the allowance of the last torrent that carries it. */
  ghost predicate AllocatedFrom(p: Params, total: int, ts: seq<Torrent>, out: map<string, int>)
    requires total > 0
  {
    forall i: nat :: LastOf(ts, i) ==> ts[i].key in out && out[ts[i].key] == Allowance(p, total, ts[i])
  }

  ghost predicate Allocated(p: Params, ts: seq<Torrent>, out: map<string, int>) {
    ts != [] ==> AllocatedFrom(p, Total(ts), ts, out)
  }

  lemma {:induction false} AllocatedExtends(p: Params, total: int, ts: seq<Torrent>, t: Torrent, out: map<string, int>,
      share: int)
    requires total > 0 && AllocatedFrom(p, total, ts, out) && share == Allowance(p, total, t)
    ensures AllocatedFrom(p, total, ts + [t], out[t.key := share])
  {
    var all := ts + [t];
    forall i: nat | LastOf(all, i)
      ensures all[i].key in out[t.key := share] && out[t.key := share][all[i].key] == Allowance(p, total, all[i])
    {
      if i < |ts| {
        assert all[i] == ts[i] && all[|ts|] == t;
        assert forall j :: i < j < |ts| ==> ts[j] == all[j];
        assert LastOf(ts, i);
      }
    }
  }

  function Keys(ts: seq<Torrent>): set<string> { set t <- ts :: t.key }

  method Weigh(ts: seq<Torrent>) returns (total: nat)
    ensures total == Total(ts)
  {
    total := 0;
    for i := 0 to |ts|
      invariant total == Total(ts[..i])
    {
      assert ts[..i + 1][..i] == ts[..i];
      total := total + Weight(ts[i]);
    }
    assert ts[..|ts|] == ts;
  }

  method ShareOf(p: Params, per: int, total: int, t: Torrent) returns (share: int)
    requires total > 0 && per == Cap(p)
    ensures share == Allowance(p, total, t)
  {
    share := per;
    if p.maxConns > 0 {
      share := p.maxConns * Weight(t) / total;
      share := Max(share, Min(MIN_PER_TORRENT, per));
      share := Min(share, per);
    }
    if !p.countLocal {
      share := share + t.local;
    }
  }

  method AllocateNext(p: Params, per: int, total: int, ts: seq<Torrent>, t: Torrent, out: map<string, int>)
    returns (out': map<string, int>)
    requires total > 0 && per == Cap(p) && AllocatedFrom(p, total, ts, out)
    ensures AllocatedFrom(p, total, ts + [t], out') && out'.Keys == out.Keys + {t.key}
  {
    var share := ShareOf(p, per, total, t);
    AllocatedExtends(p, total, ts, t, out, share);
    out' := out[t.key := share];
  }

  method Allocate(p: Params, ts: seq<Torrent>) returns (out: map<string, int>)
    ensures out.Keys == Keys(ts)
    ensures Allocated(p, ts, out)
  {
    out := map[];
    var per := p.perTorrent;
    if per <= 0 {
      per := 50;
    }
    var total := Weigh(ts);
    for i := 0 to |ts|
      invariant out.Keys == Keys(ts[..i])
      invariant total > 0 ==> AllocatedFrom(p, total, ts[..i], out)
    {
      out := AllocateNext(p, per, total, ts[..i], ts[i], out);
      KeysExtend(ts, i);
    }
    assert ts[..|ts|] == ts;
  }

  lemma {:induction false} KeysExtend(ts: seq<Torrent>, i: nat)
    requires i < |ts|
    ensures ts[..i + 1] == ts[..i] + [ts[i]] && Keys(ts[..i + 1]) == Keys(ts[..i]) + {ts[i].key}
  {
    assert ts[..i + 1] == ts[..i] + [ts[i]];
    assert forall t: Torrent :: t in ts[..i + 1] <==> t in ts[..i] || t == ts[i];
  }

  // ---------- How much is given away ----------

  /** The shares of the first torrents of ts, added up. */
  function Sum(p: Params, total: int, ts: seq<Torrent>): int
    requires total > 0
  {
    if ts == [] then 0 else Sum(p, total, ts[..|ts| - 1]) + Share(p, total, ts[|ts| - 1])
  }

  /** Raised from less than the floor. */
  predicate Raised(p: Params, total: int, t: Torrent)
    requires total > 0
  {
    Part(p, total, t) < Floor(p)
  }

  function CountRaised(p: Params, total: int, ts: seq<Torrent>): nat
    requires total > 0
  {
    if ts == [] then 0
    else CountRaised(p, total, ts[..|ts| - 1]) + if Raised(p, total, ts[|ts| - 1]) then 1 else 0
  }

  /** Rounding down loses less than one. */
  lemma {:induction false} PartBounds(p: Params, total: int, t: Torrent)
    requires total > 0
    ensures p.maxConns * Weight(t) - total < total * Part(p, total, t) <= p.maxConns * Weight(t)
  {
  }

  lemma {:induction false} SumBound(p: Params, total: int, ts: seq<Torrent>)
    requires total > 0 && p.maxConns > 0
    ensures total * (Sum(p, total, ts) - MIN_PER_TORRENT * CountRaised(p, total, ts)) <= p.maxConns * Total(ts)
  {
    if ts != [] {
      var init, t := ts[..|ts| - 1], ts[|ts| - 1];
      SumBound(p, total, init);
      PartBounds(p, total, t);
      var over := Share(p, total, t) - if Raised(p, total, t) then MIN_PER_TORRENT else 0;
      var before := Sum(p, total, init) - MIN_PER_TORRENT * CountRaised(p, total, init);
      OverPart(p, total, t);
      Scale(over, Part(p, total, t), total);
      Distribute(total, before, over);
      Distribute(p.maxConns, Total(init), Weight(t));
      assert Sum(p, total, ts) - MIN_PER_TORRENT * CountRaised(p, total, ts) == before + over;
    }
  }

  lemma {:induction false} OverPart(p: Params, total: int, t: Torrent)
    requires total > 0 && p.maxConns > 0
    ensures Share(p, total, t) - (if Raised(p, total, t) then MIN_PER_TORRENT else 0) <= Part(p, total, t)
  {
    assert p.maxConns * Weight(t) >= 0;
    assert Part(p, total, t) >= 0;
  }

  /** All shares together exceed the limit by at most the floor of each torrent that was raised to it. */
  lemma {:induction false} WithinBudget(p: Params, ts: seq<Torrent>)
    requires ts != [] && p.maxConns > 0
    ensures Sum(p, Total(ts), ts) <= p.maxConns + MIN_PER_TORRENT * CountRaised(p, Total(ts), ts)
  {
    SumBound(p, Total(ts), ts);
    Cancel(Sum(p, Total(ts), ts) - MIN_PER_TORRENT * CountRaised(p, Total(ts), ts), p.maxConns, Total(ts));
  }

  lemma {:induction false} Scale(a: int, b: int, n: int)
    requires n > 0
    ensures a <= b <==> n * a <= n * b
  {
    if a <= b { assert n * (b - a) >= 0; } else { assert n * (a - b) > 0; }
  }

  lemma {:induction false} Distribute(n: int, a: int, b: int)
    ensures n * (a + b) == n * a + n * b
  {
  }

  lemma {:induction false} Cancel(a: int, b: int, n: int)
    requires n > 0 && n * a <= b * n
    ensures a <= b
  {
    Scale(b + 1, a, n);
  }

  lemma {:induction false} NoneRaised(p: Params, total: int, ts: seq<Torrent>)
    requires total > 0 && p.maxConns >= Floor(p) * total
    ensures CountRaised(p, total, ts) == 0
  {
    if ts != [] {
      var t := ts[|ts| - 1];
      NoneRaised(p, total, ts[..|ts| - 1]);
      PartBounds(p, total, t);
      assert total * Part(p, total, t) > total * (Floor(p) - 1);
    }
  }

  /** With room for the floor of every unit of weight, the limit is kept. */
  lemma {:induction false} KeepsTheLimit(p: Params, ts: seq<Torrent>)
    requires ts != [] && p.maxConns > 0 && p.maxConns >= Floor(p) * Total(ts)
    ensures Sum(p, Total(ts), ts) <= p.maxConns
  {
    NoneRaised(p, Total(ts), ts);
    WithinBudget(p, ts);
  }

  /** The per-torrent cap is never reached. */
  ghost predicate Uncapped(p: Params, total: int, ts: seq<Torrent>)
    requires total > 0
  {
    forall t <- ts :: Part(p, total, t) <= Cap(p)
  }

  lemma {:induction false} Exceeds(a: int, b: int, n: int)
    requires n > 0 && n * a > b * n
    ensures a > b
  {
    Scale(a, b, n);
  }

  lemma {:induction false} SumAtLeast(p: Params, total: int, ts: seq<Torrent>)
    requires total > 0 && p.maxConns > 0 && Uncapped(p, total, ts)
    ensures total * (Sum(p, total, ts) + |ts|) >= p.maxConns * Total(ts)
    ensures ts != [] ==> total * (Sum(p, total, ts) + |ts|) > p.maxConns * Total(ts)
  {
    if ts != [] {
      var init, t := ts[..|ts| - 1], ts[|ts| - 1];
      SumAtLeast(p, total, init);
      PartBounds(p, total, t);
      var before, here := Sum(p, total, init) + |init|, Share(p, total, t) + 1;
      Scale(Part(p, total, t) + 1, here, total);
      Distribute(total, Part(p, total, t), 1);
      Distribute(total, before, here);
      Distribute(p.maxConns, Total(init), Weight(t));
      assert Sum(p, total, ts) + |ts| == before + here;
    }
  }

  /** And unless the per-torrent cap is reached, less than one connection per torrent is left over. */
  lemma {:induction false} UsesTheLimit(p: Params, total: int, ts: seq<Torrent>)
    requires ts != [] && p.maxConns > 0 && total == Total(ts) && Uncapped(p, total, ts)
    ensures Sum(p, total, ts) > p.maxConns - |ts|
  {
    SumAtLeast(p, total, ts);
    var used := Sum(p, total, ts) + |ts|;
    Exceeds(used, p.maxConns, total);
  }

  lemma {:induction false} PartsOrdered(m: int, total: int, w: int, w': int)
    requires total > 0 && m >= 0 && w <= w'
    ensures m * w / total <= m * w' / total
  {
    Scale(w, w', m + 1);
    assert m * w <= m * w';
    QuotientsOrdered(m * w, m * w', total);
  }

  lemma {:induction false} QuotientsOrdered(x: int, y: int, n: int)
    requires n > 0 && x <= y
    ensures x / n <= y / n
  {
    Scale(y / n + 1, x / n, n);
    Distribute(n, y / n, 1);
  }

  /** Every share is between the floor and the cap, and a downloading torrent never gets less than a seeding one. */
  lemma {:induction false} ShareBounds(p: Params, total: int, t: Torrent, u: Torrent)
    requires total > 0
    ensures Floor(p) <= Share(p, total, t) <= Cap(p)
    ensures t.downloading && !u.downloading ==> Share(p, total, u) <= Share(p, total, t)
  {
    if p.maxConns > 0 && t.downloading && !u.downloading {
      PartsOrdered(p.maxConns, total, Weight(u), Weight(t));
    }
  }

  /** Local connections come on top of the share, one for one, unless they are counted in it. */
  lemma {:induction false} LocalComesOnTop(p: Params, total: int, t: Torrent)
    requires total > 0
    ensures
      var counted := Allowance(p.(countLocal := true), total, t);
      && Floor(p) <= counted <= Cap(p)
      && Allowance(p, total, t) == if p.countLocal then counted else counted + t.local
  {
    ShareBounds(p, total, t, t);
  }

  // ---------- The limit on what was allocated ----------

  ghost predicate Distinct(ts: seq<Torrent>) {
    forall i, j :: 0 <= i < j < |ts| ==> ts[i].key != ts[j].key
  }

  ghost function Given(out: map<string, int>, ts: seq<Torrent>): int
    requires forall t <- ts :: t.key in out
  {
    if ts == [] then 0 else Given(out, ts[..|ts| - 1]) + out[ts[|ts| - 1].key]
  }

  lemma {:induction false} GivenIsSum(p: Params, total: int, out: map<string, int>, ts: seq<Torrent>)
    requires total > 0 && p.countLocal && forall t <- ts :: t.key in out && out[t.key] == Allowance(p, total, t)
    ensures Given(out, ts) == Sum(p, total, ts)
  {
    if ts != [] {
      GivenIsSum(p, total, out, ts[..|ts| - 1]);
    }
  }

  /** With local connections counted, the allocated limits together respect the global one up to the raised floors. */
  lemma {:induction false} AllocatedWithinBudget(p: Params, ts: seq<Torrent>, out: map<string, int>)
    requires ts != [] && p.maxConns > 0 && p.countLocal && Distinct(ts) && Allocated(p, ts, out)
    ensures forall t <- ts :: t.key in out && Floor(p) <= out[t.key] <= Cap(p)
    ensures Given(out, ts) <= p.maxConns + MIN_PER_TORRENT * CountRaised(p, Total(ts), ts)
    ensures p.maxConns >= Floor(p) * Total(ts) ==> Given(out, ts) <= p.maxConns
  {
    forall t | t in ts ensures t.key in out && out[t.key] == Allowance(p, Total(ts), t) {
      var i :| 0 <= i < |ts| && ts[i] == t;
      assert LastOf(ts, i);
    }
    GivenIsSum(p, Total(ts), out, ts);
    WithinBudget(p, ts);
    if p.maxConns >= Floor(p) * Total(ts) {
      KeepsTheLimit(p, ts);
    }
    forall t | t in ts ensures Floor(p) <= out[t.key] <= Cap(p) {
      ShareBounds(p, Total(ts), t, t);
    }
  }
}
