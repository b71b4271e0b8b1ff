/** Count, sum, least and greatest of a range: chunks that lie within it answer
    from their metadata, the rest are decoded. */
module Aggregate {
  import opened Sequences
  import opened Samples
  import opened ChunkTable
  import opened SeriesIndex
  import opened Latest
  import opened ReadOrder
  import opened ReadBatch

  datatype Summary = Summary(count: nat, sum: Value, min: Value, max: Value)

  /** The naive answer: every sample folded. */
  function SummaryOf(g: seq<Sample>): Option<Summary> {
    if g == [] then None else Some(Summary(|g|, SumOf(g), MinOf(g), MaxOf(g)))
  }

  // -------------------------------------------------- folds do not see the order

  lemma AddSwap(a: Value, b: Value, c: Value)
    ensures Add(Add(a, b), c) == Add(Add(a, c), b)
    ensures Least(Least(a, b), c) == Least(Least(a, c), b)
    ensures Greatest(Greatest(a, b), c) == Greatest(Greatest(a, c), b)
  {
  }

  lemma {:induction false} InsertFolds(s: seq<Sample>, x: Sample)
    ensures SumOf(Insert(s, x, TsLe)) == Add(SumOf(s), x.val)
    ensures MinOf(Insert(s, x, TsLe)) == Least(MinOf(s), x.val)
    ensures MaxOf(Insert(s, x, TsLe)) == Greatest(MaxOf(s), x.val)
  {
    if s == [] || TsLe(s[|s| - 1], x) {
      assert (s + [x])[..|s|] == s;
    } else {
      var t, last := s[..|s| - 1], s[|s| - 1];
      InsertFolds(t, x);
      var u := Insert(t, x, TsLe);
      assert (u + [last])[..|u|] == u;
      AddSwap(SumOf(t), x.val, last.val);
      AddSwap(MinOf(t), x.val, last.val);
      AddSwap(MaxOf(t), x.val, last.val);
    }
  }

  lemma {:induction false} SortFolds(g: seq<Sample>)
    ensures SumOf(StableSort(g)) == SumOf(g) && MinOf(StableSort(g)) == MinOf(g) && MaxOf(StableSort(g)) == MaxOf(g)
  {
    if g != [] {
      SortFolds(g[..|g| - 1]);
      InsertFolds(StableSort(g[..|g| - 1]), g[|g| - 1]);
    }
  }

  lemma SortSummary(g: seq<Sample>)
    ensures SummaryOf(StableSort(g)) == SummaryOf(g)
  {
    hide StableSort, SumOf, MinOf, MaxOf;
    SortFolds(g);
    StableSortSorted(g);
    assert |multiset(StableSort(g))| == |multiset(g)|;
  }

  // ------------------------------------------------------------- the fast path

  /** Where both extremes are numbers the metadata is the points'. A NaN among
      them says nothing: old rows may have kept a leading one. */
  ghost predicate FoldsTrue(r: Row) {
    WellFormed(r) && (!r.meta.minVal.NaN? && !r.meta.maxVal.NaN? ==>
      r.meta.minVal == MinOf(r.points) && r.meta.maxVal == MaxOf(r.points) && r.meta.sumVal == SumOf(r.points))
  }

  predicate FromMeta(m: Meta, lo: int, hi: int) {
    m.minTs >= lo && m.maxTs <= hi && !m.minVal.NaN? && !m.maxVal.NaN?
  }

  lemma WholeInRange(r: Row, lo: int, hi: int)
    requires WellFormed(r) && r.meta.minTs >= lo && r.meta.maxTs <= hi
    ensures InRange(r.points, lo, hi) == r.points
  {
    forall x | x in r.points ensures lo <= x.ts <= hi {
      var i :| 0 <= i < |r.points| && r.points[i] == x;
      var n := |r.points| - 1;
      assert i == 0 || r.points[0].ts <= r.points[i].ts;
      assert i == n || r.points[i].ts <= r.points[n].ts;
    }
    FilterAll(r.points, (x: Sample) => lo <= x.ts <= hi);
  }

  /** The running totals stand for the samples folded so far. */
  datatype Running = Running(count: nat, sum: Value, min: Option<Value>, max: Option<Value>)

  ghost predicate StandsFor(t: Running, g: seq<Sample>) {
    && t.count == |g| && t.sum == SumOf(g)
    && t.min == (if g == [] then None else Some(MinOf(g)))
    && t.max == (if g == [] then None else Some(MaxOf(g)))
  }

  function Merge(t: Running, count: nat, sum: Value, lo: Value, hi: Value): Running {
    Running(t.count + count, Add(t.sum, sum),
            Some(if t.min.None? then lo else Least(t.min.value, lo)),
            Some(if t.max.None? then hi else Greatest(t.max.value, hi)))
  }

  lemma MergeStands(t: Running, g: seq<Sample>, h: seq<Sample>)
    requires StandsFor(t, g) && h != []
    ensures StandsFor(Merge(t, |h|, SumOf(h), MinOf(h), MaxOf(h)), g + h)
  {
    hide SumOf, MinOf, MaxOf;
    SumOfConcat(g, h);
    MinOfConcat(g, h);
    MaxOfConcat(g, h);
    if g == [] {
      assert g + h == h;
    }
  }

  lemma MergeOne(t: Running, g: seq<Sample>, x: Sample)
    requires StandsFor(t, g)
    ensures StandsFor(Merge(t, 1, x.val, x.val, x.val), g + [x])
  {
    FoldOne(x);
    MergeStands(t, g, [x]);
  }

  method FoldPoints(t: Running, points: seq<Sample>, ghost g: seq<Sample>) returns (u: Running)
    requires StandsFor(t, g)
    ensures StandsFor(u, g + points)
  {
    hide StandsFor, Merge;
    u := t;
    assert g + points[..0] == g;
    for i := 0 to |points|
      invariant StandsFor(u, g + points[..i])
    {
      var v := points[i].val;
      MergeOne(u, g + points[..i], points[i]);
      assert (g + points[..i]) + [points[i]] == g + points[..i + 1];
      u := Merge(u, 1, v, v, v);
    }
    assert points[..|points|] == points;
  }

  method Summarize(chunks: seq<Row>, lo: int, hi: int) returns (o: Option<Summary>)
    requires forall r | r in chunks :: FoldsTrue(r)
    ensures o == SummaryOf(Gather(chunks, lo, hi))
  {
    var t := Running(0, Num(0.0), None, None);
    for i := 0 to |chunks|
      invariant StandsFor(t, Gather(chunks[..i], lo, hi))
    {
      hide StandsFor, Merge, InRange;
      var r := chunks[i];
      assert r in chunks;
      ghost var g := Gather(chunks[..i], lo, hi);
      assert chunks[..i + 1][..i] == chunks[..i];
      assert Gather(chunks[..i + 1], lo, hi) == g + InRange(r.points, lo, hi);
      if FromMeta(r.meta, lo, hi) {
        WholeInRange(r, lo, hi);
        MergeStands(t, g, r.points);
        t := Merge(t, r.meta.count, r.meta.sumVal, r.meta.minVal, r.meta.maxVal);
      } else {
        t := FoldPoints(t, InRange(r.points, lo, hi), g);
      }
    }
    assert chunks[..|chunks|] == chunks;
    o := if t.count == 0 then None else Some(Summary(t.count, t.sum, t.min.value, t.max.value));
  }

  /** `query_aggregate_summary_by_id`: metadata mixed with decoded points gives
      what folding every sample in range gives. */
  method QueryAggregate(rows: seq<Row>, s: int, lo: int, hi: int) returns (o: Option<Summary>)
    requires forall r | r in rows :: FoldsTrue(r)
    ensures o == SummaryOf(RangeQuery(rows, s, lo, hi))
  {
    hide Gather, FoldsTrue, SummaryOf, StableSort;
    var chunks := Overlapping(rows, s, lo, hi);
    forall r | r in chunks ensures FoldsTrue(r) {
      OverlappingMember(rows, s, lo, hi, r);
    }
    o := Summarize(chunks, lo, hi);
    SortSummary(Gather(chunks, lo, hi));
  }

  lemma ListFolds(rows: seq<Row>, s: int, lo: int, hi: int)
    requires forall r | r in rows :: FoldsTrue(r)
    ensures forall r | r in Overlapping(rows, s, lo, hi) :: FoldsTrue(r)
    ensures SummaryOf(Gather(Overlapping(rows, s, lo, hi), lo, hi)) == SummaryOf(RangeQuery(rows, s, lo, hi))
  {
    hide Gather, FoldsTrue, SummaryOf, StableSort;
    forall r | r in Overlapping(rows, s, lo, hi) ensures FoldsTrue(r) {
      OverlappingMember(rows, s, lo, hi, r);
    }
    SortSummary(Gather(Overlapping(rows, s, lo, hi), lo, hi));
  }

  /** `query_aggregate_summary_batch_by_id`: at every position what the single
      form says of that id. */
  method QueryAggregateBatch(rows: seq<Row>, ids: seq<int>, lo: int, hi: int) returns (values: seq<Option<Summary>>)
    requires forall r | r in rows :: FoldsTrue(r)
    ensures |values| == |ids|
    ensures forall i | 0 <= i < |ids| :: values[i] == SummaryOf(RangeQuery(rows, ids[i], lo, hi))
  {
    hide *;
    var lists := ChunksByPosition(ids, BatchRead(rows, SortedIds(ids), lo, hi));
    ListsAre(rows, ids, lo, hi, lists);
    values := [];
    for i := 0 to |ids|
      invariant |values| == i
      invariant forall j | 0 <= j < i :: values[j] == SummaryOf(RangeQuery(rows, ids[j], lo, hi))
    {
      ListFolds(rows, ids[i], lo, hi);
      var o := Summarize(lists[i], lo, hi);
      values := values + [o];
    }
  }

  /** What `encode_partition` writes serves both fast paths. */
  lemma ExactServes(r: Row)
    requires WellFormed(r) && ExactMeta(r.meta, r.points)
    ensures MetaTrue(r) && FoldsTrue(r)
  {
  }

  /** So every row of such a table does. */
  lemma ExactTableServes(rows: seq<Row>)
    requires ExactTable(rows)
    ensures forall r | r in rows :: MetaTrue(r) && FoldsTrue(r)
  {
    forall r | r in rows ensures MetaTrue(r) && FoldsTrue(r) {
      ExactServes(r);
    }
  }

  /** What a summary says of the stored samples in the range, in whatever order
      they are listed: none if there are none, and otherwise their number, their
      sum, their least and their greatest. */
  lemma SummaryMeans(rows: seq<Row>, s: int, lo: int, hi: int, all: seq<Sample>)
    requires (forall r | r in rows :: WellFormed(r)) && Lists(all, rows, s, lo, hi)
    ensures var o := SummaryOf(RangeQuery(rows, s, lo, hi));
            && (o.None? <==> all == [])
            && (o.Some? ==>
                  && o.value.count == |all| && IsSum(o.value.sum, all)
                  && IsLeast(o.value.min, all) && IsGreatest(o.value.max, all))
  {
    hide RangeQuery, WellFormed, Contents, SumOf, MinOf, MaxOf, RealSum, Lists;
    var read := RangeQuery(rows, s, lo, hi);
    ReadLists(rows, s, lo, hi);
    SameListed(read, all, rows, s, lo, hi);
    SumOfMeaning(read);
    MinOfMeaning(read);
    MaxOfMeaning(read);
    RealSumPermutation(read, all);
  }
}
