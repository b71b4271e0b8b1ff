/** Rollup chunks: runs of buckets of one series at one resolution, and what
    the store answers about them. */
module RollupStore {
  import opened Sequences
  import opened RollupKernel

  datatype Chunk = Chunk(id: nat, series: int, resolution: int, minTs: int, maxTs: int, buckets: seq<Bucket>)

  /** Buckets rise on the resolution's grid, and the bounds are their
      coverage. */
  ghost predicate Exact(c: Chunk) {
    && c.resolution > 0
    && c.buckets != []
    && Rising(c.buckets)
    && (forall b | b in c.buckets :: b.ts % c.resolution == 0)
    && c.minTs == c.buckets[0].ts
    && c.maxTs == c.buckets[|c.buckets| - 1].ts + c.resolution - 1
  }

  predicate InGroup(c: Chunk, s: int, r: int) {
    c.series == s && c.resolution == r
  }

  ghost predicate Apart(a: Chunk, b: Chunk) {
    a.maxTs < b.minTs || b.maxTs < a.minTs
  }

  ghost predicate IdsRise(rolls: seq<Chunk>) {
    forall i, j | 0 <= i < j < |rolls| :: rolls[i].id < rolls[j].id
  }

  /** What every operation keeps: exact rows in id order, and no two of one
      group with coverage in common. */
  ghost predicate ValidRollups(rolls: seq<Chunk>) {
    && IdsRise(rolls)
    && (forall c | c in rolls :: Exact(c))
    && (forall a, b | a in rolls && b in rolls && a != b && InGroup(b, a.series, a.resolution) :: Apart(a, b))
  }

  predicate CoverageLe(a: Chunk, b: Chunk) {
    a.minTs <= b.minTs
  }

  /** A group's chunks in the order of `(min_ts, rowid)`. */
  function Group(rolls: seq<Chunk>, s: int, r: int): seq<Chunk> {
    SortBy(Filter(rolls, (c: Chunk) => InGroup(c, s, r)), CoverageLe)
  }

  function BucketsIn(c: Chunk): seq<Bucket> {
    c.buckets
  }

  /** Everything a group has rolled up, oldest first. */
  function Stored(rolls: seq<Chunk>, s: int, r: int): seq<Bucket> {
    FlatMap(Group(rolls, s, r), BucketsIn)
  }

  /** The end of a group's coverage: the newest chunk's. */
  function Watermark(rolls: seq<Chunk>, s: int, r: int): Option<int> {
    var g := Group(rolls, s, r);
    if g == [] then None else Some(g[|g| - 1].maxTs)
  }

  predicate Touches(b: Bucket, r: int, lo: int, hi: int) {
    b.ts <= hi && b.ts + r - 1 >= lo
  }

  function TouchedIn(c: Chunk, r: int, lo: int, hi: int): seq<Bucket> {
    Filter(c.buckets, (b: Bucket) => Touches(b, r, lo, hi))
  }

  /** `query_rollup_by_id`. */
  function Query(rolls: seq<Chunk>, s: int, r: int, lo: int, hi: int): seq<Bucket> {
    FlatMap(Filter(Group(rolls, s, r), (c: Chunk) => c.minTs <= hi && c.maxTs >= lo),
            (c: Chunk) => TouchedIn(c, r, lo, hi))
  }

  ghost predicate Holds(rolls: seq<Chunk>, s: int, r: int, b: Bucket) {
    exists c :: c in rolls && InGroup(c, s, r) && b in c.buckets
  }

  // ------------------------------------------------------- the stored order

  lemma GroupMember(rolls: seq<Chunk>, s: int, r: int, c: Chunk)
    ensures c in Group(rolls, s, r) <==> c in rolls && InGroup(c, s, r)
  {
    var p := (c: Chunk) => InGroup(c, s, r);
    SortByMembers(Filter(rolls, p), CoverageLe);
    FilterMember(rolls, p, c);
  }

  ghost predicate Chained(g: seq<Chunk>) {
    forall i, j | 0 <= i < j < |g| :: g[i].maxTs < g[j].minTs
  }

  lemma GroupDistinct(rolls: seq<Chunk>, s: int, r: int)
    requires IdsRise(rolls)
    ensures Distinct(Group(rolls, s, r))
  {
    hide SortBy;
    var p := (c: Chunk) => InGroup(c, s, r);
    DistinctCount(rolls);
    assert Distinct(rolls);
    forall c: Chunk ensures multiset(Group(rolls, s, r))[c] <= 1 {
      SortByMultiset(Filter(rolls, p), CoverageLe);
      FilterCount(rolls, p, c);
    }
    DistinctCount(Group(rolls, s, r));
  }

  lemma CoverageLeTotal()
    ensures TotalPreorder(CoverageLe)
  {
  }

  lemma ExactBounds(c: Chunk, b: Bucket)
    requires Exact(c) && b in c.buckets
    ensures c.minTs <= b.ts <= b.ts + c.resolution - 1 <= c.maxTs
  {
    var i :| 0 <= i < |c.buckets| && c.buckets[i] == b;
    var n := |c.buckets| - 1;
    assert i == 0 || c.buckets[0].ts < c.buckets[i].ts;
    assert i == n || c.buckets[i].ts < c.buckets[n].ts;
  }

  lemma GroupChained(rolls: seq<Chunk>, s: int, r: int)
    requires ValidRollups(rolls)
    ensures Chained(Group(rolls, s, r))
    ensures forall c | c in Group(rolls, s, r) :: Exact(c) && InGroup(c, s, r)
  {
    hide Group, Exact, IdsRise;
    var g := Group(rolls, s, r);
    assert Ascending(g, CoverageLe) by {
      GroupAscending(rolls, s, r);
    }
    assert Distinct(g) by {
      GroupDistinct(rolls, s, r);
    }
    forall c | c in g ensures c in rolls && InGroup(c, s, r) && c.minTs <= c.maxTs {
      GroupMember(rolls, s, r, c);
      ExactSpan(c);
    }
    forall i, j | 0 <= i < j < |g| ensures g[i].maxTs < g[j].minTs {
      var a, b := g[i], g[j];
      assert a in g && b in g && a != b;
      assert CoverageLe(a, b);
      assert Apart(a, b);
    }
  }

  lemma ExactSpan(c: Chunk)
    requires Exact(c)
    ensures c.minTs <= c.maxTs
  {
    ExactBounds(c, c.buckets[0]);
  }

  lemma GroupAscending(rolls: seq<Chunk>, s: int, r: int)
    ensures Ascending(Group(rolls, s, r), CoverageLe)
  {
    CoverageLeTotal();
    SortByAscending(Filter(rolls, (c: Chunk) => InGroup(c, s, r)), CoverageLe);
  }

  ghost predicate Below(s: seq<Bucket>, limit: int) {
    forall b | b in s :: b.ts < limit
  }

  lemma RisingConcat(a: seq<Bucket>, b: seq<Bucket>, limit: int)
    requires Rising(a) && Rising(b) && Below(a, limit)
    requires forall x | x in b :: x.ts >= limit
    ensures Rising(a + b)
  {
    var c := a + b;
    forall i, j | 0 <= i < j < |c| ensures c[i].ts < c[j].ts {
      if j < |a| {
        assert c[i] == a[i] && c[j] == a[j];
      } else if i >= |a| {
        assert c[i] == b[i - |a|] && c[j] == b[j - |a|];
      } else {
        assert c[i] == a[i] && c[j] == b[j - |a|];
        assert a[i] in a && b[j - |a|] in b;
      }
    }
  }

  lemma {:induction false} ChainedRising(g: seq<Chunk>)
    requires Chained(g) && forall c | c in g :: Exact(c)
    ensures Rising(FlatMap(g, BucketsIn))
    ensures g != [] ==> Below(FlatMap(g, BucketsIn), g[|g| - 1].maxTs + 1)
  {
    hide Exact;
    if g != [] {
      var t, c := g[..|g| - 1], g[|g| - 1];
      ChainedRising(t);
      assert c in g && Exact(c);
      assert forall x | x in t :: x in g;
      var early := FlatMap(t, BucketsIn);
      assert Below(early, c.minTs) by {
        if t != [] {
          assert t[|t| - 1].maxTs < c.minTs;
        }
      }
      forall b | b in c.buckets ensures c.minTs <= b.ts <= c.maxTs {
        ChunkBucket(c, b);
      }
      assert Rising(c.buckets) by {
        ExactRising(c);
      }
      ExactSpan(c);
      RisingConcat(early, c.buckets, c.minTs);
      assert FlatMap(g, BucketsIn) == early + c.buckets;
    }
  }

  lemma ChunkBucket(c: Chunk, b: Bucket)
    requires Exact(c) && b in c.buckets
    ensures c.minTs <= b.ts <= c.maxTs && c.minTs <= b.ts + c.resolution - 1 <= c.maxTs
  {
    ExactBounds(c, b);
  }

  lemma ExactRising(c: Chunk)
    requires Exact(c)
    ensures c.resolution > 0 && Rising(c.buckets)
  {
  }

  lemma StoredRising(rolls: seq<Chunk>, s: int, r: int)
    requires ValidRollups(rolls)
    ensures Rising(Stored(rolls, s, r))
  {
    hide ValidRollups, Group;
    GroupChained(rolls, s, r);
    ChainedRising(Group(rolls, s, r));
  }

  lemma StoredMember(rolls: seq<Chunk>, s: int, r: int, b: Bucket)
    ensures b in Stored(rolls, s, r) <==> Holds(rolls, s, r, b)
  {
    hide Group;
    var g := Group(rolls, s, r);
    FlatMapMember(g, BucketsIn, b);
    if Holds(rolls, s, r, b) {
      var c :| c in rolls && InGroup(c, s, r) && b in c.buckets;
      GroupMember(rolls, s, r, c);
      assert c in g && b in BucketsIn(c);
    }
    if b in Stored(rolls, s, r) {
      var c :| c in g && b in BucketsIn(c);
      GroupMember(rolls, s, r, c);
    }
  }

  /** Rising buckets are determined by which they are. */
  lemma {:induction false} RisingUnique(a: seq<Bucket>, b: seq<Bucket>)
    requires Rising(a) && Rising(b)
    requires forall x :: x in a <==> x in b
    ensures a == b
    decreases |a|
  {
    hide Rising;
    SomeMember(a);
    SomeMember(b);
    if a != [] {
      var n, m := |a| - 1, |b| - 1;
      assert a[n] == b[m] by {
        assert a[n] in a && b[m] in b;
        SameLast(a, b);
      }
      assert a[..n] == b[..m] by {
        InitMembers(a);
        InitMembers(b);
        var s, t := a[..n], b[..m];
        forall x ensures x in s <==> x in t {
          assert x in a <==> x in b;
        }
        RisingUnique(s, t);
      }
      assert a == a[..n] + [a[n]] && b == b[..m] + [b[m]];
    }
  }

  lemma SomeMember(s: seq<Bucket>)
    ensures s != [] ==> exists x :: x in s
  {
    assert s != [] ==> s[0] in s;
  }

  lemma NotAfterLast(s: seq<Bucket>, x: Bucket)
    requires Rising(s) && x in s
    ensures x.ts <= s[|s| - 1].ts
  {
    var i :| 0 <= i < |s| && s[i] == x;
    assert i == |s| - 1 || s[i].ts < s[|s| - 1].ts;
  }

  lemma SameLast(a: seq<Bucket>, b: seq<Bucket>)
    requires Rising(a) && Rising(b) && a != [] && b != []
    requires a[|a| - 1] in b && b[|b| - 1] in a
    ensures a[|a| - 1] == b[|b| - 1]
  {
    var n, m := |a| - 1, |b| - 1;
    NotAfterLast(a, b[m]);
    NotAfterLast(b, a[n]);
    var i :| 0 <= i < |a| && a[i] == b[m];
    if i != n {
      assert false;
    }
  }

  lemma InitMembers(a: seq<Bucket>)
    requires Rising(a) && a != []
    ensures Rising(a[..|a| - 1])
    ensures forall x :: x in a[..|a| - 1] <==> x in a && x != a[|a| - 1]
  {
    var n := |a| - 1;
    forall x ensures x in a[..n] <==> x in a && x != a[n] {
      if x in a && x != a[n] {
        var i :| 0 <= i < |a| && a[i] == x;
        assert a[..n][i] == x;
      }
    }
  }

  /** The same buckets in the rows, the same buckets in order: what a group
      has stored does not depend on how it is cut into chunks. */
  lemma StoredSame(x: seq<Chunk>, y: seq<Chunk>, s: int, r: int)
    requires ValidRollups(x) && ValidRollups(y)
    requires forall b :: Holds(x, s, r, b) <==> Holds(y, s, r, b)
    ensures Stored(x, s, r) == Stored(y, s, r)
  {
    hide ValidRollups, Stored, Holds;
    StoredRising(x, s, r);
    StoredRising(y, s, r);
    forall b ensures b in Stored(x, s, r) <==> b in Stored(y, s, r) {
      StoredMember(x, s, r, b);
      StoredMember(y, s, r, b);
    }
    RisingUnique(Stored(x, s, r), Stored(y, s, r));
  }

  /** The watermark says where the stored buckets end. */
  lemma WatermarkOfStored(rolls: seq<Chunk>, s: int, r: int)
    requires ValidRollups(rolls)
    ensures var all := Stored(rolls, s, r);
            Watermark(rolls, s, r) == if all == [] then None else Some(all[|all| - 1].ts + r - 1)
  {
    hide Group, ValidRollups;
    var g := Group(rolls, s, r);
    GroupChained(rolls, s, r);
    if g != [] {
      var c := g[|g| - 1];
      assert c in g;
      assert Stored(rolls, s, r) == FlatMap(g[..|g| - 1], BucketsIn) + c.buckets;
    }
  }

  lemma WatermarkGrid(rolls: seq<Chunk>, s: int, r: int)
    requires ValidRollups(rolls) && Watermark(rolls, s, r).Some? && r > 0
    ensures (Watermark(rolls, s, r).value + 1) % r == 0
  {
    hide Group, ValidRollups;
    var g := Group(rolls, s, r);
    GroupChained(rolls, s, r);
    var c := g[|g| - 1];
    assert c in g && Exact(c);
    var b := c.buckets[|c.buckets| - 1];
    assert b in c.buckets && b.ts % r == 0;
    NextOnGrid(b.ts, r);
  }

  lemma NextOnGrid(ts: int, r: int)
    requires r > 0 && ts % r == 0
    ensures (ts + r) % r == 0
  {
    var q := ts / r;
    assert ts == q * r;
    assert ts + r == (q + 1) * r;
    MultipleMod(q + 1, r);
  }

  // ---------------------------------------------------------------- queries

  lemma {:induction false} FilterFlatMap(g: seq<Chunk>, r: int, lo: int, hi: int)
    requires forall c | c in g :: Exact(c) && c.resolution == r
    ensures FlatMap(Filter(g, (c: Chunk) => c.minTs <= hi && c.maxTs >= lo),
                    (c: Chunk) => TouchedIn(c, r, lo, hi)) ==
            Filter(FlatMap(g, BucketsIn), (b: Bucket) => Touches(b, r, lo, hi))
  {
    var keep := (c: Chunk) => c.minTs <= hi && c.maxTs >= lo;
    var touched := (c: Chunk) => TouchedIn(c, r, lo, hi);
    var p := (b: Bucket) => Touches(b, r, lo, hi);
    if g != [] {
      var t, c := g[..|g| - 1], g[|g| - 1];
      FilterFlatMap(t, r, lo, hi);
      FilterConcat(FlatMap(t, BucketsIn), c.buckets, p);
      assert c in g;
      if keep(c) {
        FlatMapConcat(Filter(t, keep), [c], touched);
        FlatMapOne(c, touched);
      } else {
        forall b | b in c.buckets ensures !p(b) {
          ChunkBucket(c, b);
        }
        FilterNone(c.buckets, p);
        assert Filter(t, keep) + [] == Filter(t, keep);
      }
    }
  }

  lemma FlatMapOne(c: Chunk, f: Chunk -> seq<Bucket>)
    ensures FlatMap([c], f) == f(c)
  {
    assert [c][..0] == [];
    assert FlatMap([c], f) == FlatMap([c][..0], f) + f(c);
  }

  /** A rollup query reads exactly the stored buckets whose span meets the
      range: skipping chunks loses nothing. */
  lemma QueryMeaning(rolls: seq<Chunk>, s: int, r: int, lo: int, hi: int)
    requires ValidRollups(rolls)
    ensures Query(rolls, s, r, lo, hi) ==
            Filter(Stored(rolls, s, r), (b: Bucket) => Touches(b, r, lo, hi))
  {
    hide Group, ValidRollups, FlatMap, Filter;
    GroupChained(rolls, s, r);
    FilterFlatMap(Group(rolls, s, r), r, lo, hi);
  }

  /** So exactly the stored buckets that begin at or before `hi` and end at or
      after `lo`, in order. */
  lemma QueryMember(rolls: seq<Chunk>, s: int, r: int, lo: int, hi: int)
    requires ValidRollups(rolls)
    ensures forall b :: b in Query(rolls, s, r, lo, hi) <==> b in Stored(rolls, s, r) && b.ts <= hi && b.ts + r - 1 >= lo
    ensures Rising(Stored(rolls, s, r)) ==> Rising(Query(rolls, s, r, lo, hi))
  {
    hide ValidRollups, Query, Stored;
    QueryMeaning(rolls, s, r, lo, hi);
    var p := (b: Bucket) => Touches(b, r, lo, hi);
    forall b ensures b in Query(rolls, s, r, lo, hi) <==> b in Stored(rolls, s, r) && b.ts <= hi && b.ts + r - 1 >= lo {
      FilterMember(Stored(rolls, s, r), p, b);
    }
    if Rising(Stored(rolls, s, r)) {
      RisingFilter(Stored(rolls, s, r), p);
    }
  }

  lemma {:induction false} RisingFilter(bs: seq<Bucket>, p: Bucket -> bool)
    requires Rising(bs)
    ensures Rising(Filter(bs, p))
  {
    if bs != [] {
      var t, last := bs[..|bs| - 1], bs[|bs| - 1];
      assert forall i | 0 <= i < |t| :: t[i] == bs[i];
      RisingFilter(t, p);
      var f := Filter(t, p);
      forall i | 0 <= i < |f| ensures f[i].ts < last.ts {
        FilterMember(t, p, f[i]);
        var k :| 0 <= k < |t| && t[k] == f[i];
        assert bs[k].ts < bs[|bs| - 1].ts;
      }
    }
  }

  // ----------------------------------------------------------------- writes

  /** A chunk past a group's coverage, under a new id, extends the group and
      touches no other. */
  lemma AppendChunk(rolls: seq<Chunk>, c: Chunk)
    requires ValidRollups(rolls) && Exact(c)
    requires forall d | d in rolls :: d.id < c.id
    requires var w := Watermark(rolls, c.series, c.resolution); w.Some? ==> w.value < c.minTs
    ensures ValidRollups(rolls + [c])
    ensures Stored(rolls + [c], c.series, c.resolution) == Stored(rolls, c.series, c.resolution) + c.buckets
    ensures forall s, r | !InGroup(c, s, r) :: Stored(rolls + [c], s, r) == Stored(rolls, s, r)
    ensures forall s, r | !InGroup(c, s, r) :: Watermark(rolls + [c], s, r) == Watermark(rolls, s, r)
    ensures Watermark(rolls + [c], c.series, c.resolution) == Some(c.maxTs)
  {
    hide Stored, Watermark, ValidRollups, Exact;
    AppendValid(rolls, c);
    AppendStored(rolls, c);
    AppendWatermark(rolls, c);
    forall s, r | !InGroup(c, s, r)
      ensures Stored(rolls + [c], s, r) == Stored(rolls, s, r)
    {
      AppendElsewhere(rolls, c, s, r);
    }
    forall s, r | !InGroup(c, s, r)
      ensures Watermark(rolls + [c], s, r) == Watermark(rolls, s, r)
    {
      AppendElsewhere(rolls, c, s, r);
    }
  }

  lemma AppendWatermark(rolls: seq<Chunk>, c: Chunk)
    requires Exact(c) && ValidRollups(rolls + [c])
    requires Stored(rolls + [c], c.series, c.resolution) == Stored(rolls, c.series, c.resolution) + c.buckets
    ensures Watermark(rolls + [c], c.series, c.resolution) == Some(c.maxTs)
  {
    hide Stored, Watermark, ValidRollups;
    WatermarkOfStored(rolls + [c], c.series, c.resolution);
    var all := Stored(rolls, c.series, c.resolution) + c.buckets;
    assert all[|all| - 1] == c.buckets[|c.buckets| - 1];
  }

  lemma AppendElsewhere(rolls: seq<Chunk>, c: Chunk, s: int, r: int)
    requires !InGroup(c, s, r)
    ensures Group(rolls + [c], s, r) == Group(rolls, s, r)
    ensures Stored(rolls + [c], s, r) == Stored(rolls, s, r)
    ensures Watermark(rolls + [c], s, r) == Watermark(rolls, s, r)
  {
    var p := (d: Chunk) => InGroup(d, s, r);
    assert (rolls + [c])[..|rolls|] == rolls;
    assert Filter(rolls + [c], p) == Filter(rolls, p);
  }

  lemma BelowWatermark(rolls: seq<Chunk>, d: Chunk)
    requires ValidRollups(rolls) && d in rolls
    ensures Watermark(rolls, d.series, d.resolution).Some?
    ensures d.maxTs <= Watermark(rolls, d.series, d.resolution).value
  {
    hide Group, ValidRollups;
    GroupMember(rolls, d.series, d.resolution, d);
    var g := Group(rolls, d.series, d.resolution);
    GroupChained(rolls, d.series, d.resolution);
    var i :| 0 <= i < |g| && g[i] == d;
    var e := g[|g| - 1];
    assert e in g;
    ExactSpan(e);
    assert i == |g| - 1 || g[i].maxTs < e.minTs;
  }

  lemma AppendValid(rolls: seq<Chunk>, c: Chunk)
    requires ValidRollups(rolls) && Exact(c)
    requires forall d | d in rolls :: d.id < c.id
    requires var w := Watermark(rolls, c.series, c.resolution); w.Some? ==> w.value < c.minTs
    ensures ValidRollups(rolls + [c])
  {
    hide Exact, Watermark;
    var all := rolls + [c];
    assert forall d | d in all :: d in rolls || d == c;
    forall d | d in rolls && InGroup(d, c.series, c.resolution) ensures Apart(c, d) && Apart(d, c) {
      BelowWatermark(rolls, d);
    }
    forall i, j | 0 <= i < j < |all| ensures all[i].id < all[j].id {
      if j == |rolls| {
        assert rolls[i] in rolls;
      }
    }
  }

  lemma AppendStored(rolls: seq<Chunk>, c: Chunk)
    requires ValidRollups(rolls) && Exact(c) && ValidRollups(rolls + [c])
    requires var w := Watermark(rolls, c.series, c.resolution); w.Some? ==> w.value < c.minTs
    ensures Stored(rolls + [c], c.series, c.resolution) == Stored(rolls, c.series, c.resolution) + c.buckets
  {
    hide Exact, Watermark, ValidRollups, Stored;
    var s, r := c.series, c.resolution;
    var was, now := Stored(rolls, s, r), Stored(rolls + [c], s, r);
    StoredRising(rolls, s, r);
    StoredRising(rolls + [c], s, r);
    ExactRising(c);
    forall b | b in was ensures b.ts < c.minTs {
      StoredBelow(rolls, s, r, b);
    }
    forall b | b in c.buckets ensures b.ts >= c.minTs {
      ChunkBucket(c, b);
    }
    RisingConcat(was, c.buckets, c.minTs);
    forall b ensures b in now <==> b in was + c.buckets {
      StoredMember(rolls, s, r, b);
      StoredMember(rolls + [c], s, r, b);
      HoldsMore(rolls, c, s, r, b);
    }
    RisingUnique(now, was + c.buckets);
  }

  lemma HoldsMore(rolls: seq<Chunk>, c: Chunk, s: int, r: int, b: Bucket)
    ensures Holds(rolls + [c], s, r, b) <==> Holds(rolls, s, r, b) || (InGroup(c, s, r) && b in c.buckets)
  {
    if Holds(rolls, s, r, b) {
      var d :| d in rolls && InGroup(d, s, r) && b in d.buckets;
      assert d in rolls + [c];
    }
    assert c in rolls + [c];
  }

  lemma StoredBelow(rolls: seq<Chunk>, s: int, r: int, b: Bucket)
    requires ValidRollups(rolls) && b in Stored(rolls, s, r)
    ensures Watermark(rolls, s, r).Some? && b.ts + r - 1 <= Watermark(rolls, s, r).value
  {
    hide ValidRollups, Stored, Watermark;
    StoredRising(rolls, s, r);
    WatermarkOfStored(rolls, s, r);
    var all := Stored(rolls, s, r);
    var i :| 0 <= i < |all| && all[i] == b;
    assert i == |all| - 1 || all[i].ts < all[|all| - 1].ts;
  }
}
