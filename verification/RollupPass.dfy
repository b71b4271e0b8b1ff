/** One visit of a rollup pass: a (tier, series) group is rolled up from its
    watermark to the coverage end its tier is due. */
module RollupPass {
  import opened Sequences
  import opened Samples
  import opened ChunkTable
  import opened RollupKernel
  import opened RollupStore

  /** `raw_high_water`: the newest stored timestamp, absent for an empty
      table. */
  function HighWater(rows: seq<Row>): Option<int> {
    if rows == [] then None
    else
      var last := rows[|rows| - 1].meta.maxTs;
      match HighWater(rows[..|rows| - 1])
      case None => if last == I64_MIN then None else Some(last)
      case Some(w) => Some(if last > w then last else w)
  }

  /** What it means: the greatest last timestamp of a row, and none where that is
      the least there is. */
  lemma {:induction false} HighWaterMeans(rows: seq<Row>)
    requires forall r | r in rows :: r.meta.maxTs >= I64_MIN
    ensures HighWater(rows).None? <==> forall r | r in rows :: r.meta.maxTs == I64_MIN
    ensures HighWater(rows).Some? ==>
              && (exists r :: r in rows && r.meta.maxTs == HighWater(rows).value)
              && forall r | r in rows :: r.meta.maxTs <= HighWater(rows).value
  {
    if rows != [] {
      var t, last := rows[..|rows| - 1], rows[|rows| - 1];
      assert rows == t + [last] && last in rows;
      assert forall r | r in t :: r in rows;
      HighWaterMeans(t);
    }
  }

  /** Timestamps are 64-bit: nothing is stored below the least. */
  ghost predicate Timely(rows: seq<Row>) {
    forall r, x | r in rows && x in r.points :: I64_MIN <= x.ts <= I64_MAX
  }

  /** The coverage end a tier is rolled up to: its last bucket with a full
      bucket of settle behind it. None where the subtraction would overflow. */
  function ProduceTo(highWater: int, r: int): Option<int>
    requires r > 0
  {
    if highWater - r < I64_MIN || highWater - r - (r - 1) < I64_MIN then None
    else Some((highWater - r - (r - 1)) / r * r + r - 1)
  }

  /** It is the end of a bucket, at least a width below the newest sample, and
      the last such; there is none exactly where the bucket a width below would
      begin below the least timestamp. */
  lemma ProduceToMeaning(highWater: int, r: int)
    requires r > 0
    ensures ProduceTo(highWater, r).None? <==> highWater - 2 * r + 1 < -0x8000_0000_0000_0000
    ensures ProduceTo(highWater, r).Some? ==>
              var to := ProduceTo(highWater, r).value;
              (to + 1) % r == 0 && to <= highWater - r < to + r
  {
    if ProduceTo(highWater, r).Some? {
      var x := highWater - r - (r - 1);
      BucketStartBounds(x, r);
      NextOnGrid(BucketStart(x, r), r);
    }
  }

  /** A timestamp the watermark does not cover. */
  predicate Beyond(w: Option<int>, ts: int) {
    w.Some? ==> w.value < ts
  }

  /** A stored sample of the group, due by `to`, that no bucket covers. */
  ghost predicate Unrolled(rows: seq<Row>, rolls: seq<Chunk>, s: int, r: int, to: int) {
    exists x :: x in Contents(rows, s) && x.ts <= to && Beyond(Watermark(rolls, s, r), x.ts)
  }

  /** `series_with_raw_between`, for one series. */
  predicate Due(rows: seq<Row>, s: int, w: Option<int>, to: int) {
    exists r :: r in rows && r.series == s && r.meta.minTs <= to && Beyond(w, r.meta.maxTs)
  }

  function Start(w: Option<int>): int {
    match w
    case None => I64_MIN
    case Some(v) => v + 1
  }

  datatype Found = Nothing | Buckets(buckets: seq<Bucket>) | TooEarly

  function Visit(rows: seq<Row>, rolls: seq<Chunk>, s: int, r: int, highWater: int): Found
    requires r > 0
  {
    match ProduceTo(highWater, r)
    case None => Nothing
    case Some(to) =>
      var w := Watermark(rolls, s, r);
      if w.Some? && w.value >= to then Nothing
      else
        var samples := RangeQuery(rows, s, Start(w), to);
        if samples == [] then Nothing
        else if Overflows(samples, r) then TooEarly
        else Buckets(BucketsOf(samples, r))
  }

  function NewChunk(id: nat, s: int, r: int, buckets: seq<Bucket>): Chunk
    requires buckets != []
  {
    Chunk(id, s, r, buckets[0].ts, buckets[|buckets| - 1].ts + r - 1, buckets)
  }

  // ------------------------------------------------------------ what is due

  lemma ReadMember(rows: seq<Row>, s: int, lo: int, hi: int, x: Sample)
    requires forall r | r in rows :: WellFormed(r)
    ensures x in RangeQuery(rows, s, lo, hi) <==> lo <= x.ts <= hi && x in Contents(rows, s)
  {
    hide RangeQuery, Contents, WellFormed, SortedTs;
    RangeQueryExact(rows, s, lo, hi);
    assert x in RangeQuery(rows, s, lo, hi) <==> x in multiset(RangeQuery(rows, s, lo, hi));
  }

  lemma ContentsTimely(rows: seq<Row>, s: int, x: Sample)
    requires Timely(rows) && x in Contents(rows, s)
    ensures I64_MIN <= x.ts <= I64_MAX
  {
    ContentsMember(rows, s, x);
  }

  /** The read finds something exactly when the group has a sample unrolled. */
  lemma ReadFindsUnrolled(rows: seq<Row>, rolls: seq<Chunk>, s: int, r: int, to: int)
    requires (forall r | r in rows :: WellFormed(r)) && Timely(rows)
    ensures RangeQuery(rows, s, Start(Watermark(rolls, s, r)), to) != [] <==> Unrolled(rows, rolls, s, r, to)
  {
    hide RangeQuery, Contents, WellFormed, Watermark, Timely;
    var w := Watermark(rolls, s, r);
    var found := RangeQuery(rows, s, Start(w), to);
    if found != [] {
      var x := found[0];
      ReadMember(rows, s, Start(w), to, x);
    }
    if Unrolled(rows, rolls, s, r, to) {
      var x :| x in Contents(rows, s) && x.ts <= to && Beyond(w, x.ts);
      ContentsTimely(rows, s, x);
      ReadMember(rows, s, Start(w), to, x);
    }
  }

  /** What the index says is not due has nothing unrolled. */
  lemma NotDue(rows: seq<Row>, rolls: seq<Chunk>, s: int, r: int, to: int)
    requires forall r | r in rows :: WellFormed(r)
    requires !Due(rows, s, Watermark(rolls, s, r), to)
    ensures !Unrolled(rows, rolls, s, r, to)
  {
    hide Contents, Watermark;
    var w := Watermark(rolls, s, r);
    forall x | x in Contents(rows, s) && x.ts <= to ensures !Beyond(w, x.ts) {
      ContentsMember(rows, s, x);
      var row :| row in rows && row.series == s && x in row.points;
      PointBounds(row, x);
      assert !(row.meta.minTs <= to && Beyond(w, row.meta.maxTs));
    }
  }

  lemma PointBounds(row: Row, x: Sample)
    requires WellFormed(row) && x in row.points
    ensures row.meta.minTs <= x.ts <= row.meta.maxTs
  {
    var i :| 0 <= i < |row.points| && row.points[i] == x;
    var n := |row.points| - 1;
    assert i == 0 || row.points[0].ts <= row.points[i].ts;
    assert i == n || row.points[i].ts <= row.points[n].ts;
  }

  /** A visit passes over a group exactly when the tier is not due yet or the
      group has nothing unrolled. */
  lemma VisitNothing(rows: seq<Row>, rolls: seq<Chunk>, s: int, r: int, highWater: int)
    requires (forall r | r in rows :: WellFormed(r)) && Timely(rows) && r > 0
    ensures Visit(rows, rolls, s, r, highWater).Nothing? <==>
            (ProduceTo(highWater, r).Some? ==> !Unrolled(rows, rolls, s, r, ProduceTo(highWater, r).value))
  {
    hide RangeQuery, Watermark, ProduceTo, Timely;
    if ProduceTo(highWater, r).Some? {
      ReadFindsUnrolled(rows, rolls, s, r, ProduceTo(highWater, r).value);
    }
  }

  // ------------------------------------------------------ what a visit adds

  /** A grid point below a bucket's end is at least a width below the next. */
  lemma GridGap(b: int, end: int, r: int)
    requires r > 0 && b % r == 0 && (end + 1) % r == 0 && b <= end
    ensures b + r - 1 <= end
  {
    var q, p := b / r, (end + 1) / r;
    assert b == q * r && end + 1 == p * r;
    if q < p {
      WidthApart(q, p, r);
    } else if q > p {
      WidthApart(p, q, r);
    }
  }

  /** The buckets of a run of samples cover them and lie where they do. */
  lemma BucketsSpan(samples: seq<Sample>, r: int, lo: Option<int>, to: int)
    requires r > 0 && SortedTs(samples) && samples != []
    requires lo.Some? ==> (lo.value + 1) % r == 0
    requires (to + 1) % r == 0
    requires forall x | x in samples :: Beyond(lo, x.ts) && x.ts <= to
    ensures var bs := BucketsOf(samples, r);
            && bs != [] && Rising(bs) && (forall b | b in bs :: b.ts % r == 0)
            && Beyond(lo, bs[0].ts)
            && bs[|bs| - 1].ts + r - 1 <= to
            && forall x | x in samples :: x.ts <= bs[|bs| - 1].ts + r - 1
  {
    hide BucketsOf, BucketStart;
    BucketsOfCovers(samples, r);
    var bs := BucketsOf(samples, r);
    assert bs != [] && Rising(bs) && bs[|bs| - 1].ts == BucketStart(samples[|samples| - 1].ts, r);
    forall b | b in bs ensures b.ts % r == 0 && Beyond(lo, b.ts) {
      BucketHolds(b, samples, lo, r);
    }
    var first, final := bs[0], bs[|bs| - 1];
    assert first in bs && final in bs;
    var x := samples[|samples| - 1];
    assert x in samples;
    BucketStartBounds(x.ts, r);
    GridGap(final.ts, to, r);
    forall y | y in samples ensures y.ts <= x.ts {
      var i :| 0 <= i < |samples| && samples[i] == y;
      assert i == |samples| - 1 || samples[i].ts <= x.ts;
    }
  }

  lemma BucketHolds(b: Bucket, samples: seq<Sample>, lo: Option<int>, r: int)
    requires r > 0 && IsBucket(b, samples, r)
    requires lo.Some? ==> (lo.value + 1) % r == 0
    requires forall x | x in samples :: Beyond(lo, x.ts)
    ensures b.ts % r == 0 && Beyond(lo, b.ts)
  {
    var w := InRange(samples, b.ts, b.ts + r - 1);
    var x := w[0];
    FilterMember(samples, (y: Sample) => b.ts <= y.ts <= b.ts + r - 1, x);
    BucketUnique(b.ts, x.ts, r);
    if lo.Some? {
      BucketStartGreatest(lo.value + 1, x.ts, r);
    }
  }

  /** What a visit finds becomes a chunk past the watermark that ends by the
      tier's coverage end. */
  lemma FoundIsExact(rows: seq<Row>, rolls: seq<Chunk>, s: int, r: int, highWater: int, id: nat)
    requires (forall r | r in rows :: WellFormed(r)) && Timely(rows) && ValidRollups(rolls) && r > 0
    requires Visit(rows, rolls, s, r, highWater).Buckets?
    ensures var bs := Visit(rows, rolls, s, r, highWater).buckets;
            && ProduceTo(highWater, r).Some?
            && bs != []
            && Exact(NewChunk(id, s, r, bs))
            && Beyond(Watermark(rolls, s, r), NewChunk(id, s, r, bs).minTs)
            && NewChunk(id, s, r, bs).maxTs <= ProduceTo(highWater, r).value
            && forall x | x in Contents(rows, s) && x.ts <= ProduceTo(highWater, r).value
                          && Beyond(Watermark(rolls, s, r), x.ts) :: x.ts <= NewChunk(id, s, r, bs).maxTs
  {
    hide RangeQuery, Contents, WellFormed, Watermark, Timely, ValidRollups, BucketsOf, ProduceTo, SortedTs;
    var to := ProduceTo(highWater, r).value;
    ProduceToMeaning(highWater, r);
    var w := Watermark(rolls, s, r);
    if w.Some? {
      WatermarkGrid(rolls, s, r);
    }
    var samples := RangeQuery(rows, s, Start(w), to);
    assert SortedTs(samples) by {
      RangeQueryExact(rows, s, Start(w), to);
    }
    forall x | x in samples ensures Beyond(w, x.ts) && x.ts <= to {
      ReadMember(rows, s, Start(w), to, x);
    }
    BucketsSpan(samples, r, w, to);
    forall x | x in Contents(rows, s) && x.ts <= to && Beyond(w, x.ts)
      ensures x in samples
    {
      ContentsTimely(rows, s, x);
      ReadMember(rows, s, Start(w), to, x);
    }
  }

  /** Once its chunk is written, the visited group has nothing unrolled. */
  lemma VisitRollsUp(rows: seq<Row>, rolls: seq<Chunk>, s: int, r: int, highWater: int, id: nat)
    requires (forall r | r in rows :: WellFormed(r)) && Timely(rows) && ValidRollups(rolls) && r > 0
    requires Visit(rows, rolls, s, r, highWater).Buckets?
    requires forall d | d in rolls :: d.id < id
    ensures var bs := Visit(rows, rolls, s, r, highWater).buckets;
            && bs != []
            && ProduceTo(highWater, r).Some?
            && ValidRollups(rolls + [NewChunk(id, s, r, bs)])
            && !Unrolled(rows, rolls + [NewChunk(id, s, r, bs)], s, r, ProduceTo(highWater, r).value)
  {
    hide Visit, Contents, WellFormed, Watermark, Timely, ValidRollups, ProduceTo, Exact;
    FoundIsExact(rows, rolls, s, r, highWater, id);
    var bs := Visit(rows, rolls, s, r, highWater).buckets;
    var c := NewChunk(id, s, r, bs);
    AppendChunk(rolls, c);
    assert Watermark(rolls + [c], s, r) == Some(c.maxTs);
    forall x | x in Contents(rows, s) && x.ts <= ProduceTo(highWater, r).value
      ensures !Beyond(Some(c.maxTs), x.ts)
    {
      if Beyond(Watermark(rolls, s, r), x.ts) {
        assert x.ts <= c.maxTs;
      } else {
        assert Watermark(rolls, s, r).value < c.minTs;
        ExactSpan(c);
      }
    }
  }
}
