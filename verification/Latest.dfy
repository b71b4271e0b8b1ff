/** The newest sample of a series in a range, found from chunk metadata newest
    first, against the stable range read. */
module Latest {
  import opened Sequences
  import opened Samples
  import opened ChunkTable

  function AtTs(g: seq<Sample>, ts: int): seq<Sample> {
    Filter(g, (x: Sample) => x.ts == ts)
  }

  /** `b` is of the greatest timestamp, and the first of those that share it. */
  ghost predicate IsLatest(g: seq<Sample>, b: Sample) {
    && (forall x | x in g :: x.ts <= b.ts)
    && AtTs(g, b.ts) != [] && AtTs(g, b.ts)[0] == b
  }

  /** The loop over decoded points: replaced only by a newer one. */
  function LatestIn(g: seq<Sample>): Option<Sample> {
    if g == [] then None
    else
      var last := g[|g| - 1];
      match LatestIn(g[..|g| - 1])
      case None => Some(last)
      case Some(b) => if last.ts > b.ts then Some(last) else Some(b)
  }

  lemma AtTsMember(g: seq<Sample>, ts: int, x: Sample)
    ensures x in AtTs(g, ts) <==> x in g && x.ts == ts
  {
    FilterMember(g, (y: Sample) => y.ts == ts, x);
  }

  lemma AtTsConcat(a: seq<Sample>, b: seq<Sample>, ts: int)
    ensures AtTs(a + b, ts) == AtTs(a, ts) + AtTs(b, ts)
  {
    FilterConcat(a, b, (x: Sample) => x.ts == ts);
  }

  lemma AtTsNone(g: seq<Sample>, ts: int)
    requires forall x | x in g :: x.ts != ts
    ensures AtTs(g, ts) == []
  {
    FilterNone(g, (x: Sample) => x.ts == ts);
  }

  lemma AtTsOne(x: Sample)
    ensures AtTs([x], x.ts) == [x]
  {
    FilterAll([x], (y: Sample) => y.ts == x.ts);
  }

  lemma LatestMember(g: seq<Sample>, b: Sample)
    requires IsLatest(g, b)
    ensures b in g
  {
    AtTsMember(g, b.ts, b);
  }

  lemma LatestUnique(g: seq<Sample>, a: Sample, b: Sample)
    requires IsLatest(g, a) && IsLatest(g, b)
    ensures a == b
  {
    LatestMember(g, a);
    LatestMember(g, b);
  }

  lemma {:induction false} LatestInMeans(g: seq<Sample>)
    ensures LatestIn(g).None? <==> g == []
    ensures LatestIn(g).Some? ==> IsLatest(g, LatestIn(g).value)
  {
    hide AtTs;
    if g != [] {
      var t, last := g[..|g| - 1], g[|g| - 1];
      assert g == t + [last];
      LatestInMeans(t);
      var b := LatestIn(g).value;
      AtTsConcat(t, [last], b.ts);
      AtTsOne(last);
      if LatestIn(t).None? || last.ts > LatestIn(t).value.ts {
        AtTsNone(t, last.ts);
        assert AtTs(t, last.ts) + [last] == [last];
      }
    }
  }

  /** A stable sort keeps the newest and the first of its ties. */
  lemma SortKeepsLatest(g: seq<Sample>)
    ensures LatestIn(StableSort(g)) == LatestIn(g)
  {
    hide AtTs;
    LatestInMeans(g);
    var q := StableSort(g);
    LatestInMeans(q);
    SortByMembers(g, TsLe);
    if g != [] {
      var b := LatestIn(g).value;
      SortAtTs(g, b.ts);
      assert IsLatest(q, b);
      LatestUnique(q, b, LatestIn(q).value);
    }
  }

  lemma SortAtTs(g: seq<Sample>, ts: int)
    ensures AtTs(StableSort(g), ts) == AtTs(g, ts)
  {
    SortByStable(g, TsLe, (x: Sample) => x.ts == ts);
  }

  /** In a sorted read the newest are at the end: the answer is the first of
      that last group. */
  lemma LatestOfSorted(q: seq<Sample>, b: Sample)
    requires SortedTs(q) && q != [] && LatestIn(q) == Some(b)
    ensures b.ts == q[|q| - 1].ts && b == q[FirstAt(q, q[|q| - 1].ts)]
  {
    LatestInMeans(q);
    LatestMember(q, b);
    var n := |q| - 1;
    assert q[n] in q;
    var i :| 0 <= i < |q| && q[i] == b;
    assert i == n || q[i].ts <= q[n].ts;
    var k := FirstAt(q, q[n].ts);
    FirstOfGroup(q, k, b.ts);
  }

  lemma FirstOfGroup(q: seq<Sample>, k: nat, ts: int)
    requires k < |q| && q[k].ts == ts && forall i | 0 <= i < k :: q[i].ts != ts
    ensures AtTs(q, ts) != [] && AtTs(q, ts)[0] == q[k]
  {
    hide AtTs;
    assert q == (q[..k] + [q[k]]) + q[k + 1..];
    AtTsConcat(q[..k] + [q[k]], q[k + 1..], ts);
    AtTsConcat(q[..k], [q[k]], ts);
    AtTsNone(q[..k], ts);
    AtTsOne(q[k]);
  }

  // --------------------------------------------------------------- per chunk

  function ChunkBest(r: Row, lo: int, hi: int): Option<Sample> {
    LatestIn(InRange(r.points, lo, hi))
  }

  /** The newest value a row keeps, where it keeps one, is the first at its
      newest timestamp. */
  ghost predicate MetaTrue(r: Row) {
    WellFormed(r) && (r.meta.maxTsVal.Some? ==> r.meta.maxTsVal.value == NewestValue(r))
  }

  ghost function NewestValue(r: Row): Value
    requires WellFormed(r)
  {
    assert r.points[|r.points| - 1].ts == r.meta.maxTs;
    r.points[FirstAt(r.points, r.meta.maxTs)].val
  }

  /** The metadata says what decoding would. */
  lemma MetaIsBest(r: Row, lo: int, hi: int)
    requires MetaTrue(r) && r.meta.maxTsVal.Some? && lo <= r.meta.maxTs <= hi
    ensures ChunkBest(r, lo, hi) == Some(Sample(r.meta.maxTs, r.meta.maxTsVal.value))
  {
    hide AtTs, InRange;
    var m := r.meta.maxTs;
    var g := InRange(r.points, lo, hi);
    var k := FirstAt(r.points, m);
    FirstOfGroup(r.points, k, m);
    AtTsInRange(r.points, lo, hi, m);
    forall x | x in g ensures x.ts <= m {
      InRangeMember(r.points, lo, hi, x);
      var i :| 0 <= i < |r.points| && r.points[i] == x;
      assert i == |r.points| - 1 || r.points[i].ts <= r.points[|r.points| - 1].ts;
    }
    var b := r.points[k];
    assert IsLatest(g, b);
    LatestMember(g, b);
    LatestInMeans(g);
    LatestUnique(g, b, LatestIn(g).value);
  }

  lemma AtTsInRange(points: seq<Sample>, lo: int, hi: int, ts: int)
    requires lo <= ts <= hi
    ensures AtTs(InRange(points, lo, hi), ts) == AtTs(points, ts)
  {
    FilterFilter(points, (x: Sample) => lo <= x.ts <= hi, (x: Sample) => x.ts == ts, (x: Sample) => x.ts == ts);
  }

  lemma InRangeMember(points: seq<Sample>, lo: int, hi: int, x: Sample)
    ensures x in InRange(points, lo, hi) <==> x in points && lo <= x.ts <= hi
  {
    FilterMember(points, (y: Sample) => lo <= y.ts <= hi, x);
  }

  /** No sample of a row is newer than its metadata allows. */
  lemma BestBelow(r: Row, lo: int, hi: int)
    requires WellFormed(r) && ChunkBest(r, lo, hi).Some?
    ensures ChunkBest(r, lo, hi).value.ts <= r.meta.maxTs && ChunkBest(r, lo, hi).value.ts <= hi
  {
    hide InRange;
    var g := InRange(r.points, lo, hi);
    LatestInMeans(g);
    var b := LatestIn(g).value;
    LatestMember(g, b);
    InRangeMember(r.points, lo, hi, b);
    var i :| 0 <= i < |r.points| && r.points[i] == b;
    assert i == |r.points| - 1 || r.points[i].ts <= r.points[|r.points| - 1].ts;
  }

  // ---------------------------------------------------------- over the chunks

  lemma {:induction false} GatherConcat(a: seq<Row>, b: seq<Row>, lo: int, hi: int)
    ensures Gather(a + b, lo, hi) == Gather(a, lo, hi) + Gather(b, lo, hi)
  {
    hide InRange;
    if b == [] {
      assert a + b == a;
    } else {
      assert (a + b)[..|a + b| - 1] == a + b[..|b| - 1];
      GatherConcat(a, b[..|b| - 1], lo, hi);
    }
  }

  lemma GatherOne(r: Row, lo: int, hi: int)
    ensures Gather([r], lo, hi) == InRange(r.points, lo, hi)
  {
    assert [r][..0] == [];
  }

  lemma {:induction false} GatherFrom(rows: seq<Row>, lo: int, hi: int, x: Sample)
    requires x in Gather(rows, lo, hi)
    ensures exists i :: 0 <= i < |rows| && x in InRange(rows[i].points, lo, hi)
  {
    if rows != [] && x !in InRange(rows[|rows| - 1].points, lo, hi) {
      GatherFrom(rows[..|rows| - 1], lo, hi, x);
      var i :| 0 <= i < |rows| - 1 && x in InRange(rows[..|rows| - 1][i].points, lo, hi);
      assert rows[i] == rows[..|rows| - 1][i];
    }
  }

  /** `best` is the newest of the chunks ranked in `seen`, the lowest rank on a
      tie. */
  datatype Best = Best(sample: Sample, rank: nat)

  ghost predicate Beats(best: Best, x: Sample, rank: nat) {
    x.ts < best.sample.ts || (x.ts == best.sample.ts && best.rank <= rank)
  }

  ghost predicate BestSoFar(chunks: seq<Row>, lo: int, hi: int, seen: seq<nat>, best: Option<Best>) {
    match best
    case None => forall i | i in seen :: i < |chunks| && ChunkBest(chunks[i], lo, hi).None?
    case Some(b) =>
      && b.rank in seen
      && (forall i | i in seen :: i < |chunks|)
      && ChunkBest(chunks[b.rank], lo, hi) == Some(b.sample)
      && forall i | i in seen && ChunkBest(chunks[i], lo, hi).Some? :: Beats(b, ChunkBest(chunks[i], lo, hi).value, i)
  }

  function AllRanks(n: nat): seq<nat> {
    if n == 0 then [] else AllRanks(n - 1) + [n - 1]
  }

  lemma {:induction false} RankMember(n: nat, i: nat)
    ensures i in AllRanks(n) <==> i < n
  {
    if n > 0 {
      RankMember(n - 1, i);
    }
  }

  /** Which ranks were seen matters, not in which order. */
  lemma SeenAll(chunks: seq<Row>, lo: int, hi: int, seen: seq<nat>, best: Option<Best>)
    requires BestSoFar(chunks, lo, hi, seen, best) && forall i: nat :: i in seen <==> i < |chunks|
    ensures BestSoFar(chunks, lo, hi, AllRanks(|chunks|), best)
  {
    hide ChunkBest;
    forall i: nat ensures i in AllRanks(|chunks|) <==> i in seen {
      RankMember(|chunks|, i);
    }
  }

  /** The best of all the chunks is the newest of what they hold. */
  lemma BestIsLatest(chunks: seq<Row>, lo: int, hi: int, best: Option<Best>)
    requires BestSoFar(chunks, lo, hi, AllRanks(|chunks|), best)
    ensures LatestIn(Gather(chunks, lo, hi)) == if best.None? then None else Some(best.value.sample)
  {
    hide InRange, Gather;
    var g := Gather(chunks, lo, hi);
    LatestInMeans(g);
    if best.None? {
      NothingGathered(chunks, lo, hi);
    } else {
      BestInGather(chunks, lo, hi, best.value);
      LatestUnique(g, best.value.sample, LatestIn(g).value);
    }
  }

  lemma NothingGathered(chunks: seq<Row>, lo: int, hi: int)
    requires BestSoFar(chunks, lo, hi, AllRanks(|chunks|), None)
    ensures Gather(chunks, lo, hi) == []
  {
    hide InRange;
    forall i: nat | i < |chunks| ensures InRange(chunks[i].points, lo, hi) == [] {
      RankMember(|chunks|, i);
      LatestInMeans(InRange(chunks[i].points, lo, hi));
    }
    GatherNone(chunks, lo, hi);
  }

  lemma {:induction false} GatherNone(rows: seq<Row>, lo: int, hi: int)
    requires forall i: nat | i < |rows| :: InRange(rows[i].points, lo, hi) == []
    ensures Gather(rows, lo, hi) == []
  {
    hide InRange;
    if rows != [] {
      var t := rows[..|rows| - 1];
      forall i: nat | i < |t| ensures InRange(t[i].points, lo, hi) == [] {
        assert t[i] == rows[i];
      }
      GatherNone(t, lo, hi);
    }
  }

  lemma BestInGather(chunks: seq<Row>, lo: int, hi: int, b: Best)
    requires BestSoFar(chunks, lo, hi, AllRanks(|chunks|), Some(b))
    ensures Gather(chunks, lo, hi) != [] && IsLatest(Gather(chunks, lo, hi), b.sample)
  {
    hide InRange, Gather, AtTs;
    assert b.rank < |chunks|;
    var g, k, ts := Gather(chunks, lo, hi), b.rank, b.sample.ts;
    forall x | x in g ensures x.ts <= ts {
      GatherFrom(chunks, lo, hi, x);
      var i :| 0 <= i < |chunks| && x in InRange(chunks[i].points, lo, hi);
      NoNewer(chunks, lo, hi, b, i, x);
    }
    var early, late := chunks[..k], chunks[k + 1..];
    assert chunks == (early + [chunks[k]]) + late;
    GatherConcat(early + [chunks[k]], late, lo, hi);
    GatherConcat(early, [chunks[k]], lo, hi);
    GatherOne(chunks[k], lo, hi);
    var mid := InRange(chunks[k].points, lo, hi);
    forall x | x in Gather(early, lo, hi) ensures x.ts != ts {
      GatherFrom(early, lo, hi, x);
      var i :| 0 <= i < |early| && x in InRange(early[i].points, lo, hi);
      assert early[i] == chunks[i];
      NoNewer(chunks, lo, hi, b, i, x);
    }
    AtTsNone(Gather(early, lo, hi), ts);
    AtTsConcat(Gather(early, lo, hi) + mid, Gather(late, lo, hi), ts);
    AtTsConcat(Gather(early, lo, hi), mid, ts);
    LatestInMeans(mid);
    LatestMember(mid, b.sample);
  }

  lemma NoNewer(chunks: seq<Row>, lo: int, hi: int, b: Best, i: nat, x: Sample)
    requires BestSoFar(chunks, lo, hi, AllRanks(|chunks|), Some(b))
    requires i < |chunks| && x in InRange(chunks[i].points, lo, hi)
    ensures x.ts <= b.sample.ts && (i < b.rank ==> x.ts < b.sample.ts)
  {
    hide InRange;
    LatestInMeans(InRange(chunks[i].points, lo, hi));
    RankMember(|chunks|, i);
    assert Beats(b, ChunkBest(chunks[i], lo, hi).value, i);
  }

  // ----------------------------------------------------------------- the walk

  function Possible(chunks: seq<Row>, i: nat, hi: int): int {
    if i >= |chunks| then 0
    else if chunks[i].meta.maxTs < hi then chunks[i].meta.maxTs else hi
  }

  predicate SoonerIn(chunks: seq<Row>, hi: int, a: nat, b: nat) {
    Possible(chunks, a, hi) > Possible(chunks, b, hi) || (Possible(chunks, a, hi) == Possible(chunks, b, hi) && a <= b)
  }

  /** Ranks by the newest timestamp a chunk can hold in range, and then rank. */
  method NewestFirst(chunks: seq<Row>, hi: int) returns (order: seq<nat>)
    ensures forall i: nat :: i in order <==> i < |chunks|
    ensures forall i, j | 0 <= i < j < |order| :: Possible(chunks, order[i], hi) >= Possible(chunks, order[j], hi)
  {
    var le := (a: nat, b: nat) => SoonerIn(chunks, hi, a, b);
    order := SortBy(AllRanks(|chunks|), le);
    SortByMembers(AllRanks(|chunks|), le);
    forall i: nat ensures i in order <==> i < |chunks| {
      RankMember(|chunks|, i);
    }
    assert TotalPreorder(le);
    SortByAscending(AllRanks(|chunks|), le);
    forall i, j | 0 <= i < j < |order| ensures Possible(chunks, order[i], hi) >= Possible(chunks, order[j], hi) {
      assert le(order[i], order[j]);
    }
  }

  /** The newest of decoded points, the first on a tie. */
  method LatestOfPoints(points: seq<Sample>) returns (best: Option<Sample>)
    ensures best == LatestIn(points)
  {
    best := None;
    for i := 0 to |points|
      invariant best == LatestIn(points[..i])
    {
      assert points[..i + 1][..i] == points[..i];
      if best.None? || points[i].ts > best.value.ts {
        best := Some(points[i]);
      }
    }
    assert points[..|points|] == points;
  }

  method BestOfChunk(r: Row, lo: int, hi: int) returns (best: Option<Sample>)
    requires MetaTrue(r) && lo <= r.meta.maxTs
    ensures best == ChunkBest(r, lo, hi)
  {
    if r.meta.maxTs <= hi && r.meta.maxTsVal.Some? {
      MetaIsBest(r, lo, hi);
      return Some(Sample(r.meta.maxTs, r.meta.maxTsVal.value));
    }
    best := LatestOfPoints(InRange(r.points, lo, hi));
  }

  lemma SawOne(chunks: seq<Row>, lo: int, hi: int, seen: seq<nat>, best: Option<Best>, k: nat, found: Option<Sample>)
    requires BestSoFar(chunks, lo, hi, seen, best) && k < |chunks| && found == ChunkBest(chunks[k], lo, hi)
    ensures found.None? ==> BestSoFar(chunks, lo, hi, seen + [k], best)
    ensures found.Some? && (best.None? || found.value.ts > best.value.sample.ts
              || (found.value.ts == best.value.sample.ts && k < best.value.rank)) ==>
            BestSoFar(chunks, lo, hi, seen + [k], Some(Best(found.value, k)))
    ensures found.Some? && !(best.None? || found.value.ts > best.value.sample.ts
              || (found.value.ts == best.value.sample.ts && k < best.value.rank)) ==>
            BestSoFar(chunks, lo, hi, seen + [k], best)
  {
    hide ChunkBest;
    assert forall i :: i in seen + [k] <==> i in seen || i == k;
  }

  /** What could not be newer need not be read. */
  lemma NoneCanBeat(chunks: seq<Row>, lo: int, hi: int, order: seq<nat>, k: nat, best: Best)
    requires (forall r | r in chunks :: WellFormed(r)) && (forall i: nat :: i in order <==> i < |chunks|)
    requires forall i, j | 0 <= i < j < |order| :: Possible(chunks, order[i], hi) >= Possible(chunks, order[j], hi)
    requires k < |order| && BestSoFar(chunks, lo, hi, order[..k], Some(best))
    requires Possible(chunks, order[k], hi) < best.sample.ts
    ensures BestSoFar(chunks, lo, hi, order, Some(best))
  {
    forall i | i in order && ChunkBest(chunks[i], lo, hi).Some?
      ensures Beats(best, ChunkBest(chunks[i], lo, hi).value, i)
    {
      var j :| 0 <= j < |order| && order[j] == i;
      if j < k {
        assert order[..k][j] == i;
      } else {
        assert chunks[i] in chunks;
        BestBelow(chunks[i], lo, hi);
        assert j == k || Possible(chunks, order[k], hi) >= Possible(chunks, order[j], hi);
      }
    }
  }

  method WalkNewestFirst(chunks: seq<Row>, lo: int, hi: int) returns (best: Option<Sample>)
    requires forall r | r in chunks :: MetaTrue(r) && lo <= r.meta.maxTs
    ensures best == LatestIn(Gather(chunks, lo, hi))
  {
    hide ChunkBest, Gather, LatestIn, MetaTrue, BestSoFar;
    var order := NewestFirst(chunks, hi);
    var top: Option<Best> := None;
    NothingSeen(chunks, lo, hi);
    var i := 0;
    while i < |order|
      invariant i <= |order| && BestSoFar(chunks, lo, hi, order[..i], top)
    {
      var rank := order[i];
      assert rank in order;
      var r := chunks[rank];
      assert r in chunks;
      if top.Some? && Possible(chunks, rank, hi) < top.value.sample.ts {
        AllWellFormed(chunks);
        NoneCanBeat(chunks, lo, hi, order, i, top.value);
        break;
      }
      var found := BestOfChunk(r, lo, hi);
      SawOne(chunks, lo, hi, order[..i], top, rank, found);
      assert order[..i + 1] == order[..i] + [rank];
      if found.Some? && (top.None? || found.value.ts > top.value.sample.ts
                         || (found.value.ts == top.value.sample.ts && rank < top.value.rank)) {
        top := Some(Best(found.value, rank));
      }
      i := i + 1;
    }
    if i == |order| {
      assert order[..i] == order;
    }
    SeenAll(chunks, lo, hi, order, top);
    BestIsLatest(chunks, lo, hi, top);
    best := if top.None? then None else Some(top.value.sample);
  }

  lemma NothingSeen(chunks: seq<Row>, lo: int, hi: int)
    ensures BestSoFar(chunks, lo, hi, [], None)
  {
  }

  lemma AllWellFormed(chunks: seq<Row>)
    requires forall r | r in chunks :: MetaTrue(r)
    ensures forall r | r in chunks :: WellFormed(r)
  {
  }

  /** What `query_latest` promises: the newest sample in range and, of those
      that share its timestamp, the one a stable range read has first. */
  ghost function LatestRead(rows: seq<Row>, s: int, lo: int, hi: int): Option<Sample> {
    LatestIn(RangeQuery(rows, s, lo, hi))
  }

  /** `query_latest_by_id`. */
  method QueryLatest(rows: seq<Row>, s: int, lo: int, hi: int) returns (best: Option<Sample>)
    requires forall r | r in rows :: MetaTrue(r)
    ensures best == LatestRead(rows, s, lo, hi)
    ensures best.None? <==> RangeQuery(rows, s, lo, hi) == []
    ensures best.Some? ==>
              var q := RangeQuery(rows, s, lo, hi);
              best.value.ts == q[|q| - 1].ts && best.value == q[FirstAt(q, q[|q| - 1].ts)]
  {
    hide Gather, LatestIn, MetaTrue, StableSort;
    var chunks := Overlapping(rows, s, lo, hi);
    forall r | r in chunks ensures MetaTrue(r) && lo <= r.meta.maxTs {
      OverlappingMember(rows, s, lo, hi, r);
    }
    best := WalkNewestFirst(chunks, lo, hi);
    SortKeepsLatest(Gather(chunks, lo, hi));
    var q := RangeQuery(rows, s, lo, hi);
    LatestInMeans(q);
    if best.Some? {
      StableSortSorted(Gather(chunks, lo, hi));
      LatestOfSorted(q, best.value);
    }
  }
}
