/** Rolling up as samples arrive against rolling up once: the stored buckets
    are those of a single pass over all the raw samples. */
module RollupIncremental {
  import opened Sequences
  import opened Samples
  import opened ChunkTable
  import opened RollupKernel
  import opened RollupStore
  import opened RollupPass
  import opened RollupScan
  import opened RollupCycle
  import opened RollupStep
  import opened RollupSettled

  /** No two stored samples of a series share a timestamp. */
  ghost predicate Single(m: multiset<Sample>) {
    && (forall x :: m[x] <= 1)
    && (forall x, y | x in m && y in m && x.ts == y.ts :: x == y)
  }

  ghost predicate AllSingle(rows: seq<Row>) {
    forall s :: Single(Contents(rows, s))
  }

  /** A group's stored buckets are those of its raw samples up to its
      watermark, folded in one go. */
  ghost predicate OneShot(rows: seq<Row>, rolls: seq<Chunk>, s: int, r: int) {
    r > 0 && Watermark(rolls, s, r).Some? ==>
      Stored(rolls, s, r) == BucketsOf(RangeQuery(rows, s, I64_MIN, Watermark(rolls, s, r).value), r)
  }

  ghost predicate AllOneShot(st: State) {
    forall s, r :: OneShot(st.rows, st.rolls, s, r)
  }

  // ----------------------------------------------------------- reads compared

  lemma {:induction false} SingleDistinct(q: seq<Sample>, m: multiset<Sample>)
    requires Single(m) && forall x :: multiset(q)[x] <= m[x]
    ensures DistinctTs(q)
  {
    DistinctCount(q);
    forall x ensures multiset(q)[x] <= 1 {
      assert m[x] <= 1;
    }
    assert Distinct(q);
    forall i, j | 0 <= i < j < |q| ensures q[i].ts != q[j].ts {
      assert q[i] in multiset(q) && q[j] in multiset(q);
      assert q[i] in m && q[j] in m;
      assert q[i] != q[j];
    }
  }

  lemma ReadDistinct(rows: seq<Row>, s: int, lo: int, hi: int)
    requires (forall r | r in rows :: WellFormed(r)) && Single(Contents(rows, s))
    ensures SortedTs(RangeQuery(rows, s, lo, hi)) && DistinctTs(RangeQuery(rows, s, lo, hi))
  {
    hide RangeQuery, Contents, WellFormed, SortedTs, DistinctTs, Single;
    RangeQueryExact(rows, s, lo, hi);
    var q := RangeQuery(rows, s, lo, hi);
    forall x ensures multiset(q)[x] <= Contents(rows, s)[x] {
    }
    SingleDistinct(q, Contents(rows, s));
  }

  /** Two ranges that hold the same samples read the same. */
  lemma SameRead(a: seq<Row>, b: seq<Row>, s: int, lo: int, hi: int, hj: int)
    requires (forall r | r in a :: WellFormed(r)) && (forall r | r in b :: WellFormed(r))
    requires Single(Contents(a, s))
    requires forall x: Sample :: (if lo <= x.ts <= hi then Contents(a, s)[x] else 0) ==
                                 (if lo <= x.ts <= hj then Contents(b, s)[x] else 0)
    ensures RangeQuery(a, s, lo, hi) == RangeQuery(b, s, lo, hj)
  {
    hide RangeQuery, Contents, WellFormed, SortedTs, DistinctTs, Single;
    ReadDistinct(a, s, lo, hi);
    RangeQueryExact(a, s, lo, hi);
    RangeQueryExact(b, s, lo, hj);
    var p, q := RangeQuery(a, s, lo, hi), RangeQuery(b, s, lo, hj);
    assert multiset(p) == multiset(q) by {
      forall x ensures multiset(p)[x] == multiset(q)[x] {
      }
    }
    SortedUnique(p, q);
  }

  lemma ConcatSorted(a: seq<Sample>, b: seq<Sample>, mid: int)
    requires SortedTs(a) && SortedTs(b)
    requires (forall x | x in a :: x.ts <= mid) && forall x | x in b :: x.ts > mid
    ensures SortedTs(a + b)
  {
    var c := a + b;
    forall i, j | 0 <= i < j < |c| ensures c[i].ts <= c[j].ts {
      if i < |a| <= j {
        assert a[i] in a && b[j - |a|] in b;
      }
    }
  }

  /** A read cut in two at `mid`. */
  lemma ReadSplit(rows: seq<Row>, s: int, lo: int, mid: int, hi: int)
    requires (forall r | r in rows :: WellFormed(r)) && Single(Contents(rows, s)) && lo <= mid + 1 && mid <= hi
    ensures RangeQuery(rows, s, lo, hi) == RangeQuery(rows, s, lo, mid) + RangeQuery(rows, s, mid + 1, hi)
    ensures forall x | x in RangeQuery(rows, s, lo, mid) :: x.ts <= mid
    ensures forall x | x in RangeQuery(rows, s, mid + 1, hi) :: x.ts > mid
    ensures SortedTs(RangeQuery(rows, s, lo, mid))
  {
    hide RangeQuery, Contents, WellFormed, SortedTs, DistinctTs, Single;
    var a, b, c := RangeQuery(rows, s, lo, mid), RangeQuery(rows, s, mid + 1, hi), RangeQuery(rows, s, lo, hi);
    RangeQueryExact(rows, s, lo, mid);
    RangeQueryExact(rows, s, mid + 1, hi);
    RangeQueryExact(rows, s, lo, hi);
    forall x | x in a ensures x.ts <= mid {
      ReadMember(rows, s, lo, mid, x);
    }
    forall x | x in b ensures x.ts > mid {
      ReadMember(rows, s, mid + 1, hi, x);
    }
    ConcatSorted(a, b, mid);
    ReadDistinct(rows, s, lo, hi);
    assert multiset(c) == multiset(a + b) by {
      forall x ensures multiset(c)[x] == multiset(a + b)[x] {
        assert multiset(a + b)[x] == multiset(a)[x] + multiset(b)[x];
      }
    }
    SortedUnique(c, a + b);
  }

  // ------------------------------------------------------------ what a visit adds

  /** A visit extends the buckets of one pass to those of a longer one. */
  lemma VisitOneShot(rows: seq<Row>, rolls: seq<Chunk>, s: int, r: int, highWater: int, id: nat)
    requires ValidRows(rows) && ValidRollups(rolls) && r > 0 && Single(Contents(rows, s))
    requires Visit(rows, rolls, s, r, highWater).Buckets? && OneShot(rows, rolls, s, r)
    ensures var bs := Visit(rows, rolls, s, r, highWater).buckets;
            && bs != []
            && Stored(rolls, s, r) + bs ==
               BucketsOf(RangeQuery(rows, s, I64_MIN, NewChunk(id, s, r, bs).maxTs), r)
  {
    hide RangeQuery, Contents, WellFormed, Watermark, Stored, ValidRollups, BucketsOf, ProduceTo, SortedTs, Timely,
      Single, Exact;
    FoundIsExact(rows, rolls, s, r, highWater, id);
    var bs := Visit(rows, rolls, s, r, highWater).buckets;
    var c := NewChunk(id, s, r, bs);
    var w, to := Watermark(rolls, s, r), ProduceTo(highWater, r).value;
    assert RangeQuery(rows, s, I64_MIN, c.maxTs) == RangeQuery(rows, s, I64_MIN, to) by {
      ExactSpan(c);
      NothingBetween(rows, rolls, s, r, c.maxTs, to);
      SameRead(rows, rows, s, I64_MIN, c.maxTs, to);
    }
    if w.None? {
      WatermarkOfStored(rolls, s, r);
      assert [] + bs == bs;
    } else {
      WatermarkGrid(rolls, s, r);
      StartsAbove(rolls, s, r);
      if w.value + 1 >= I64_MIN {
        ReadSplit(rows, s, I64_MIN, w.value, to);
        BucketsOfSplit(RangeQuery(rows, s, I64_MIN, w.value), RangeQuery(rows, s, w.value + 1, to), w.value, r);
      } else {
        NothingBelow(rows, s, w.value, to);
        BucketsOfNone(r);
      }
    }
  }

  /** Reading from below the least timestamp reads from it. */
  lemma NothingBelow(rows: seq<Row>, s: int, w: int, to: int)
    requires ValidRows(rows) && Single(Contents(rows, s)) && w + 1 < I64_MIN
    ensures RangeQuery(rows, s, w + 1, to) == RangeQuery(rows, s, I64_MIN, to)
    ensures RangeQuery(rows, s, I64_MIN, w) == []
  {
    hide RangeQuery, Contents, WellFormed, SortedTs, DistinctTs, Single, Timely;
    var a, b := RangeQuery(rows, s, w + 1, to), RangeQuery(rows, s, I64_MIN, to);
    RangeQueryExact(rows, s, w + 1, to);
    RangeQueryExact(rows, s, I64_MIN, to);
    ReadDistinct(rows, s, w + 1, to);
    assert multiset(a) == multiset(b) by {
      forall x ensures multiset(a)[x] == multiset(b)[x] {
        if x in Contents(rows, s) {
          ContentsTimely(rows, s, x);
        }
      }
    }
    SortedUnique(a, b);
    var none := RangeQuery(rows, s, I64_MIN, w);
    forall x ensures x !in none {
      ReadMember(rows, s, I64_MIN, w, x);
    }
    if none != [] {
      SomeSample(none);
    }
  }

  lemma SomeSample(q: seq<Sample>)
    requires q != []
    ensures exists x :: x in q
  {
    assert q[0] in q;
  }

  lemma StartsAbove(rolls: seq<Chunk>, s: int, r: int)
    requires ValidRollups(rolls)
    ensures Watermark(rolls, s, r).Some? ==> Stored(rolls, s, r) != []
  {
    WatermarkOfStored(rolls, s, r);
  }

  lemma NothingBetween(rows: seq<Row>, rolls: seq<Chunk>, s: int, r: int, a: int, b: int)
    requires a <= b
    requires forall x | x in Contents(rows, s) && x.ts <= b && Beyond(Watermark(rolls, s, r), x.ts) :: x.ts <= a
    requires Watermark(rolls, s, r).Some? ==> Watermark(rolls, s, r).value <= a
    ensures forall x: Sample :: (if I64_MIN <= x.ts <= a then Contents(rows, s)[x] else 0) ==
                                (if I64_MIN <= x.ts <= b then Contents(rows, s)[x] else 0)
  {
    hide Contents, Watermark;
    forall x: Sample
      ensures (if I64_MIN <= x.ts <= a then Contents(rows, s)[x] else 0) ==
              (if I64_MIN <= x.ts <= b then Contents(rows, s)[x] else 0)
    {
      if a < x.ts <= b {
        assert x !in Contents(rows, s);
      }
    }
  }

  // ------------------------------------------------------- operations keep it

  /** Nothing arrives that a watermark already covers. */
  ghost predicate OnTime(rolls: seq<Chunk>, added: seq<Row>) {
    forall row, x, r | row in added && x in row.points && r > 0 :: Beyond(Watermark(rolls, row.series, r), x.ts)
  }

  /** What holds all along: a pass has nothing to take back. */
  ghost predicate Steady(st: State) {
    ValidState(st) && AllSingle(st.rows) && AllOneShot(st) && WithinReach(st)
  }

  /** Coverage never runs past what the newest sample makes due. */
  ghost predicate WithinReach(st: State) {
    forall s, r | r > 0 && Watermark(st.rolls, s, r).Some? ::
      && HighWater(st.rows).Some?
      && ProduceTo(HighWater(st.rows).value, r).Some?
      && Watermark(st.rolls, s, r).value <= ProduceTo(HighWater(st.rows).value, r).value
  }

  lemma ProduceToMonotone(a: int, b: int, r: int)
    requires r > 0 && a <= b && ProduceTo(a, r).Some?
    ensures ProduceTo(b, r).Some? && ProduceTo(a, r).value <= ProduceTo(b, r).value
  {
    ProduceToMeaning(a, r);
    ProduceToMeaning(b, r);
    var p, q := ProduceTo(a, r).value, ProduceTo(b, r).value;
    if q < p {
      GridGap(q + 1, p, r);
    }
  }

  /** The high water is the newest of all the samples. */
  lemma {:induction false} HighWaterMeans(rows: seq<Row>)
    requires ValidRows(rows)
    ensures forall r | r in rows && r.meta.maxTs > I64_MIN ::
              HighWater(rows).Some? && r.meta.maxTs <= HighWater(rows).value
    ensures HighWater(rows).Some? ==>
              HighWater(rows).value > I64_MIN && exists r :: r in rows && r.meta.maxTs == HighWater(rows).value
  {
    if rows != [] {
      var t, last := rows[..|rows| - 1], rows[|rows| - 1];
      assert rows == t + [last];
      assert last in rows && WellFormed(last);
      var x := last.points[|last.points| - 1];
      assert x in last.points;
      HighWaterMeans(t);
    }
  }

  lemma NewestStored(rows: seq<Row>)
    requires ValidRows(rows) && HighWater(rows).Some?
    ensures exists s, x :: x in Contents(rows, s) && x.ts == HighWater(rows).value
  {
    HighWaterMeans(rows);
    var r :| r in rows && r.meta.maxTs == HighWater(rows).value;
    var x := r.points[|r.points| - 1];
    assert x in r.points;
    ContentsMember(rows, r.series, x);
  }

  lemma NothingNewer(rows: seq<Row>, s: int, x: Sample)
    requires ValidRows(rows) && x in Contents(rows, s) && x.ts > I64_MIN
    ensures HighWater(rows).Some? && x.ts <= HighWater(rows).value
  {
    HighWaterMeans(rows);
    ContentsMember(rows, s, x);
    var r :| r in rows && r.series == s && x in r.points;
    PointBounds(r, x);
  }

  /** More samples, no lower a high water. */
  lemma HighWaterGrows(a: seq<Row>, b: seq<Row>)
    requires ValidRows(a) && ValidRows(b)
    requires forall s, x | x in Contents(a, s) :: x in Contents(b, s)
    ensures HighWater(a).Some? ==> HighWater(b).Some? && HighWater(a).value <= HighWater(b).value
  {
    hide Contents, HighWater, ValidRows;
    if HighWater(a).Some? {
      NewestStored(a);
      var s, x :| x in Contents(a, s) && x.ts == HighWater(a).value;
      HighWaterAbove(a);
      NothingNewer(b, s, x);
    }
  }

  lemma HighWaterAbove(rows: seq<Row>)
    requires ValidRows(rows) && HighWater(rows).Some?
    ensures HighWater(rows).value > I64_MIN
  {
    HighWaterMeans(rows);
  }

  lemma ReachGrows(st: State, rows: seq<Row>)
    requires ValidState(st) && ValidRows(rows) && WithinReach(st)
    requires forall s, x | x in Contents(st.rows, s) :: x in Contents(rows, s)
    ensures WithinReach(st.(rows := rows))
  {
    hide Contents, HighWater, ValidRollups, Watermark, ProduceTo, WellFormed, Timely;
    HighWaterGrows(st.rows, rows);
    forall s, r | r > 0 && Watermark(st.rolls, s, r).Some?
      ensures HighWater(rows).Some? && ProduceTo(HighWater(rows).value, r).Some?
           && Watermark(st.rolls, s, r).value <= ProduceTo(HighWater(rows).value, r).value
    {
      ProduceToMonotone(HighWater(st.rows).value, HighWater(rows).value, r);
    }
  }

  lemma FlushSteady(st: State, added: seq<Row>)
    requires Steady(st) && ValidRows(added) && OnTime(st.rolls, added) && AllSingle(st.rows + added)
    ensures Steady(Apply(st, Flush(added)))
  {
    hide Contents, HighWater, ValidRollups, Watermark, ProduceTo, WellFormed, Timely, Stored, BucketsOf, RangeQuery,
      Single, WithinReach, SettledMax;
    var rows := st.rows + added;
    ValidRowsConcat(st.rows, added);
    forall s, x | x in Contents(st.rows, s) ensures x in Contents(rows, s) {
      ContentsConcat(st.rows, added, s);
    }
    ReachGrows(st, rows);
    ReachSame(st.(rows := rows), Apply(st, Flush(added)));
    forall s, r ensures OneShot(rows, st.rolls, s, r) {
      if r > 0 && Watermark(st.rolls, s, r).Some? {
        assert OneShot(st.rows, st.rolls, s, r);
        LateEnough(st, added, s, r);
        SameRead(st.rows, rows, s, I64_MIN, Watermark(st.rolls, s, r).value, Watermark(st.rolls, s, r).value);
      }
    }
  }

  lemma ReachSame(a: State, b: State)
    requires WithinReach(a) && a.rows == b.rows && a.rolls == b.rolls
    ensures WithinReach(b)
  {
    hide HighWater, Watermark, ProduceTo;
  }

  lemma LateEnough(st: State, added: seq<Row>, s: int, r: int)
    requires r > 0 && Watermark(st.rolls, s, r).Some? && OnTime(st.rolls, added)
    ensures forall x: Sample | x.ts <= Watermark(st.rolls, s, r).value ::
              Contents(st.rows + added, s)[x] == Contents(st.rows, s)[x]
  {
    hide Contents, Watermark;
    forall x: Sample | x.ts <= Watermark(st.rolls, s, r).value
      ensures Contents(st.rows + added, s)[x] == Contents(st.rows, s)[x]
    {
      ContentsConcat(st.rows, added, s);
      assert x !in Contents(added, s) by {
        ContentsMember(added, s, x);
      }
    }
  }

  lemma CompactSteady(st: State, rows: seq<Row>)
    requires Steady(st) && ValidRows(rows) && forall s :: Contents(rows, s) == Contents(st.rows, s)
    ensures Steady(st.(rows := rows))
  {
    hide Contents, HighWater, ValidRollups, Watermark, ProduceTo, WellFormed, Timely, Stored, BucketsOf, RangeQuery,
      Single, WithinReach;
    forall s, x | x in Contents(st.rows, s) ensures x in Contents(rows, s) {
      assert Contents(rows, s) == Contents(st.rows, s);
    }
    ReachGrows(st, rows);
    forall s ensures Single(Contents(rows, s)) {
      assert Contents(rows, s) == Contents(st.rows, s);
    }
    forall s, r ensures OneShot(rows, st.rolls, s, r) {
      if r > 0 && Watermark(st.rolls, s, r).Some? {
        assert OneShot(st.rows, st.rolls, s, r);
        assert Contents(rows, s) == Contents(st.rows, s);
        SameRead(st.rows, rows, s, I64_MIN, Watermark(st.rolls, s, r).value, Watermark(st.rolls, s, r).value);
      }
    }
  }

  lemma MergeSteady(st: State, rolls: seq<Chunk>)
    requires Steady(st) && ValidRollups(rolls) && forall s, r :: Stored(rolls, s, r) == Stored(st.rolls, s, r)
    ensures Steady(st.(rolls := rolls))
  {
    hide Contents, HighWater, ValidRollups, Watermark, ProduceTo, WellFormed, Timely, Stored, BucketsOf, RangeQuery,
      Single;
    forall s, r ensures Watermark(rolls, s, r) == Watermark(st.rolls, s, r) {
      assert Stored(rolls, s, r) == Stored(st.rolls, s, r);
      SameStoredSameWatermark(rolls, st.rolls, s, r);
    }
    forall s, r ensures OneShot(st.rows, rolls, s, r) {
      assert OneShot(st.rows, st.rolls, s, r);
      assert Stored(rolls, s, r) == Stored(st.rolls, s, r);
    }
  }

  // ------------------------------------------------------------------ passes

  lemma WatermarkAfter(rolls: seq<Chunk>, s: int, r: int, was: seq<Bucket>, bs: seq<Bucket>)
    requires ValidRollups(rolls) && Stored(rolls, s, r) == was + bs && bs != []
    ensures Watermark(rolls, s, r) == Some(NewChunk(0, s, r, bs).maxTs)
  {
    hide Stored, Watermark, ValidRollups;
    WatermarkOfStored(rolls, s, r);
    assert (was + bs)[|was + bs| - 1] == bs[|bs| - 1];
  }

  /** A group that a walk came past keeps the buckets of one pass. */
  lemma GrownOneShot(e: Env, a: nat, b: nat, rolls: seq<Chunk>, k: nat)
    requires ValidEnv(e) && Positive(e) && a <= k < b <= Count(e) && Grown(e, a, b, rolls)
    requires Single(Contents(e.rows, SeriesAt(e, k))) && OneShot(e.rows, e.rolls, SeriesAt(e, k), TierAt(e, k))
    ensures OneShot(e.rows, rolls, SeriesAt(e, k), TierAt(e, k))
    ensures
      || (&& ProduceTo(e.highWater, TierAt(e, k)).Some?
          && Watermark(rolls, SeriesAt(e, k), TierAt(e, k)).Some?
          && Watermark(rolls, SeriesAt(e, k), TierAt(e, k)).value <= ProduceTo(e.highWater, TierAt(e, k)).value)
      || Watermark(rolls, SeriesAt(e, k), TierAt(e, k)) == Watermark(e.rolls, SeriesAt(e, k), TierAt(e, k))
  {
    hide Visit, Watermark, Stored, ValidRollups, Exact, Count, TierAt, SeriesAt, Positive, ProduceTo, Contents,
      BucketsOf, RangeQuery, Single, WellFormed, Timely, PassedBy;
    var s, r := SeriesAt(e, k), TierAt(e, k);
    if VisitAt(e, k).Buckets? && Gains(e, k, rolls, Gained(e, k)) {
      var bs := Gained(e, k);
      VisitOneShot(e.rows, e.rolls, s, r, e.highWater, 0);
      FoundIsExact(e.rows, e.rolls, s, r, e.highWater, 0);
      WatermarkAfter(rolls, s, r, Stored(e.rolls, s, r), bs);
    } else {
      assert Stored(e.rolls, s, r) + [] == Stored(e.rolls, s, r);
      SameStoredSameWatermark(rolls, e.rolls, s, r);
    }
  }

  lemma WalkedSteady(b: State, next: State, from: nat, to: nat)
    requires Ready(b) && Walked(b, next, from, to) && ValidState(next) && Steady(b)
    requires HighWater(b.rows) == b.highWater
    ensures Steady(next)
  {
    hide Visit, VisitAt, Watermark, Stored, ValidRollups, Count, TierAt, SeriesAt, Positive, ProduceTo, Contents,
      BucketsOf, RangeQuery, Single, WellFormed, Timely, Grown, Passable, HighWater, GroupAt, OneShot, ClosedIn;
    var w := b.highWater.value;
    var e := EnvOf(b, w);
    EnvValid(b, w);
    forall s, r
      ensures OneShot(next.rows, next.rolls, s, r)
      ensures r > 0 && Watermark(next.rolls, s, r).Some? ==>
        ProduceTo(w, r).Some? && Watermark(next.rolls, s, r).value <= ProduceTo(w, r).value
    {
      assert OneShot(b.rows, b.rolls, s, r);
      if Outside(e, from, to, s, r) {
        OutsideOneShot(e, from, to, next.rolls, s, r);
      } else {
        var k: nat :| from <= k < to && GroupAt(e, k, s, r);
        GroupAtMeans(e, k, s, r);
        GrownOneShot(e, from, to, next.rolls, k);
      }
    }
  }

  lemma OutsideOneShot(e: Env, a: nat, b: nat, rolls: seq<Chunk>, s: int, r: int)
    requires ValidEnv(e) && Positive(e) && a <= b <= Count(e)
    requires Grown(e, a, b, rolls) && Outside(e, a, b, s, r) && OneShot(e.rows, e.rolls, s, r)
    ensures OneShot(e.rows, rolls, s, r) && Watermark(rolls, s, r) == Watermark(e.rolls, s, r)
  {
    hide Watermark, Stored, ValidRollups, Count, BucketsOf, RangeQuery;
    SameStoredSameWatermark(rolls, e.rolls, s, r);
  }

  lemma PassSteady(st: State, first: nat)
    requires Steady(st) && IdsBelow(st.rolls, first)
    ensures Steady(Step(st, None, first).next)
  {
    hide LastWalk, Written, Full, Settle, ValidRollups, SettledSound, HighWater, AllSeries, SettledTo, AllOneShot,
      AllSingle, WithinReach, WellFormed, Timely;
    BeginValid(st, None);
    match Begin(st, None) {
      case None => SteadySame(st, Step(st, None, first).next);
      case Some(b) =>
        SteadySame(st, b);
        if b.series == [] {
          SteadySame(st, Step(st, None, first).next);
        } else {
          LastWalkFull(b, None);
          if LastWalk(b, None).Walk? {
            EnvValid(b, b.highWater.value);
            FinishWalks(b, None, first);
            WalkedSteady(b, Step(st, None, first).next, 0, LastWalk(b, None).at);
          } else {
            SteadySame(st, Step(st, None, first).next);
          }
        }
    }
  }

  lemma SteadySame(a: State, b: State)
    requires Steady(a) && ValidState(b) && a.rows == b.rows && a.rolls == b.rolls
    ensures Steady(b)
  {
    hide HighWater, Watermark, ProduceTo, OneShot, Single, ValidState;
  }

  // --------------------------------------------------------------- whole runs

  /** The operations of a table from which nothing is deleted, samples arriving
      in time and no two of a series at one timestamp. */
  ghost predicate Orderly(st: State, op: Op)
    requires ValidState(st) && Allowed(st, op)
  {
    match op
    case Flush(added) => OnTime(st.rolls, added) && AllSingle(st.rows + added)
    case Compact(_) => true
    case Merge(_) => true
    case SetLadder(_) => true
    case Pass(_) => true
    case _ => false
  }

  ghost predicate GoesOrderly(a: State, op: Op, b: State) {
    ValidState(a) && Allowed(a, op) && Orderly(a, op) && b == Apply(a, op)
  }

  lemma ApplySteady(st: State, op: Op)
    requires Steady(st) && Allowed(st, op) && Orderly(st, op)
    ensures Steady(Apply(st, op))
  {
    hide Step, Stored, Contents, ValidRollups, WellFormed, Timely, AllSingle, AllOneShot, WithinReach, OnTime;
    ApplyValid(st, op);
    match op {
      case Flush(added) => FlushSteady(st, added);
      case Compact(rows) => CompactSteady(st, rows);
      case Merge(rolls) => MergeSteady(st, rolls);
      case SetLadder(tiers) => SteadySame(st, Apply(st, op));
      case Pass(first) => PassSteady(st, first);
      case _ =>
    }
  }

  ghost predicate IsOrderly(states: seq<State>, ops: seq<Op>) {
    && |states| == |ops| + 1
    && forall i | 0 <= i < |ops| :: GoesOrderly(states[i], ops[i], states[i + 1])
  }

  /** What is stored of a group is always what one go over its samples up to its
      watermark gives. */
  lemma {:induction false} OrderlyRun(states: seq<State>, ops: seq<Op>, n: nat)
    requires IsOrderly(states, ops) && n <= |ops| && Steady(states[0])
    ensures Steady(states[n])
    ensures forall s, r :: OneShot(states[n].rows, states[n].rolls, s, r)
    decreases n
  {
    hide Steady, Apply, Allowed, Orderly, ValidState, OneShot;
    if n > 0 {
      OrderlyRun(states, ops, n - 1);
      assert GoesOrderly(states[n - 1], ops[n - 1], states[n]);
      ApplySteady(states[n - 1], ops[n - 1]);
    }
    SteadyIsOneShot(states[n]);
  }

  lemma SteadyIsOneShot(st: State)
    requires Steady(st)
    ensures forall s, r :: OneShot(st.rows, st.rolls, s, r)
  {
    hide OneShot, ValidState, WithinReach, AllSingle;
  }

  lemma OrderlyIsRun(states: seq<State>, ops: seq<Op>)
    requires IsOrderly(states, ops)
    ensures IsRun(states, ops)
  {
    hide Apply, Allowed, Orderly, ValidState;
    forall i | 0 <= i < |ops| ensures Goes(states[i], ops[i], states[i + 1]) {
      assert GoesOrderly(states[i], ops[i], states[i + 1]);
    }
  }

  /** A table that begins empty is steady. */
  lemma EmptySteady(tiers: seq<int>)
    requires ValidLadder(tiers)
    ensures var st := State([], [], tiers, map[], None, 0, [], None);
            Steady(st) && Sound(st)
  {
    var st := State([], [], tiers, map[], None, 0, [], None);
    forall s, r ensures Watermark([], s, r).None? {
    }
    assert AllOneShot(st);
  }

  /** A steady group holds the buckets of every sample up to `to` exactly when
      none of them is unrolled. */
  lemma RolledUpIsOneShot(st: State, s: int, r: int, to: int)
    requires Steady(st) && r > 0 && HighWater(st.rows).Some? && ProduceTo(HighWater(st.rows).value, r) == Some(to)
    ensures Stored(st.rolls, s, r) == BucketsOf(RangeQuery(st.rows, s, I64_MIN, to), r) <==>
            !Unrolled(st.rows, st.rolls, s, r, to)
  {
    hide HighWater, Watermark, ProduceTo, Stored, BucketsOf, RangeQuery, Contents, Single, ValidRollups, WellFormed,
      Timely;
    var w := Watermark(st.rolls, s, r);
    assert OneShot(st.rows, st.rolls, s, r);
    if Unrolled(st.rows, st.rolls, s, r, to) {
      var x :| x in Contents(st.rows, s) && x.ts <= to && Beyond(w, x.ts);
      MissingBucket(st.rows, st.rolls, s, r, to, x);
    } else if w.Some? {
      NothingBetween(st.rows, st.rolls, s, r, w.value, to);
      SameRead(st.rows, st.rows, s, I64_MIN, w.value, to);
    } else {
      WatermarkOfStored(st.rolls, s, r);
      var q := RangeQuery(st.rows, s, I64_MIN, to);
      forall x ensures x !in q {
        ReadMember(st.rows, s, I64_MIN, to, x);
      }
      if q != [] {
        SomeSample(q);
      }
      BucketsOfNone(r);
    }
  }

  lemma MissingBucket(rows: seq<Row>, rolls: seq<Chunk>, s: int, r: int, to: int, x: Sample)
    requires ValidRows(rows) && ValidRollups(rolls) && r > 0
    requires x in Contents(rows, s) && x.ts <= to && Beyond(Watermark(rolls, s, r), x.ts)
    ensures Stored(rolls, s, r) != BucketsOf(RangeQuery(rows, s, I64_MIN, to), r)
  {
    hide Watermark, Stored, BucketsOf, RangeQuery, Contents, ValidRollups, WellFormed, Timely, Covers;
    var q := RangeQuery(rows, s, I64_MIN, to);
    ContentsTimely(rows, s, x);
    ReadMember(rows, s, I64_MIN, to, x);
    RangeQueryExact(rows, s, I64_MIN, to);
    BucketsOfCovers(q, r);
    BucketStartBounds(x.ts, r);
    var b :| b in BucketsOf(q, r) && b.ts == BucketStart(x.ts, r);
    if b in Stored(rolls, s, r) {
      StoredBelow(rolls, s, r, b);
      assert false;
    }
  }

  // ------------------------------------------------------- passed-over tiers

  /** Nothing of a tier that is passed over. */
  ghost predicate Spares(e: Env, batch: seq<Piece>) {
    forall p | p in batch :: p.resolution > 0 && !SettledTo(e.settled, e.highWater, p.resolution)
  }

  lemma TurnSpares(e: Env, w: Walk)
    requires Positive(e) && w.Walk? && w.at < w.end <= Count(e) && InStride(e, w.at, w.started) && Spares(e, w.batch)
    ensures Turn(e, w).Walk? ==> Spares(e, Turn(e, w).batch)
  {
    hide VisitAt, ProduceTo, TierAt, TierEnd, EntersTier, Count;
  }

  lemma {:induction false} WalkSpares(e: Env, limit: Option<nat>, w: Walk)
    requires Positive(e) && WalkOk(e, w)
    requires w.Walk? ==> InStride(e, w.at, w.started) && Spares(e, w.batch)
    ensures var v := WalkOn(e, limit, w); v.Walk? ==> Spares(e, v.batch)
    decreases if w.Walk? then Count(e) - w.at else 0
  {
    hide Turn, InStride, Spares, Count;
    if Going(e, limit, w) {
      TurnInStride(e, w);
      TurnSpares(e, w);
      WalkSpares(e, limit, Turn(e, w));
    }
  }

  lemma {:induction false} WrittenElsewhere(rolls: seq<Chunk>, batch: seq<Piece>, first: nat, s: int, r: int)
    requires Full(batch) && forall p | p in batch :: p.resolution != r
    ensures Stored(Written(rolls, batch, first), s, r) == Stored(rolls, s, r)
  {
    hide Stored;
    if batch != [] {
      var t, p := batch[..|batch| - 1], batch[|batch| - 1];
      assert batch == t + [p] && p in batch && forall q | q in t :: q in batch;
      WrittenElsewhere(rolls, t, first, s, r);
      AppendElsewhere(Written(rolls, t, first), NewChunk(first + |t|, p.series, p.resolution, p.buckets), s, r);
    }
  }

  /** A pass writes nothing of a tier it takes for settled. */
  lemma PassSpares(st: State, first: nat, s: int, r: int)
    requires ValidState(st) && r > 0 && HighWater(st.rows).Some? && SettledTo(st.settled, HighWater(st.rows).value, r)
    ensures Stored(Step(st, None, first).next.rolls, s, r) == Stored(st.rolls, s, r)
  {
    hide WalkOn, Stored, Written, Settle, ValidRollups, HighWater, AllSeries, AllSettled, WellFormed, Timely, ProduceTo,
      Spares;
    BeginValid(st, None);
    if Begin(st, None).Some? && Begin(st, None).value.series != [] {
      var b := Begin(st, None).value;
      var e := EnvOf(b, b.highWater.value);
      EnvValid(b, b.highWater.value);
      LastWalkFull(b, None);
      var w := FirstWalk(e, None, b.cursor, b.started);
      NothingSpared(e, w);
      WalkSpares(e, None, w);
      if LastWalk(b, None).Walk? {
        SparesTier(e, LastWalk(b, None).batch, r);
        WrittenElsewhere(b.rolls, LastWalk(b, None).batch, first, s, r);
      }
    }
  }

  lemma NothingSpared(e: Env, w: Walk)
    requires Positive(e) && w.Walk? && w.at == 0 && w.batch == []
    ensures InStride(e, w.at, w.started) && Spares(e, w.batch)
  {
  }

  lemma SparesTier(e: Env, batch: seq<Piece>, r: int)
    requires Spares(e, batch) && r > 0 && SettledTo(e.settled, e.highWater, r)
    ensures forall p | p in batch :: p.resolution != r
  {
    hide ProduceTo;
  }

  /** The one group a pass leaves out: its tier is taken to be settled to the
      least timestamp, it has a sample there, and no bucket covers it. */
  ghost predicate Missed(st: State, s: int, r: int) {
    && r > 0 && HighWater(st.rows).Some? && ProduceTo(HighWater(st.rows).value, r) == Some(I64_MIN)
    && r in st.settled && st.settled[r] == I64_MIN
    && Bare(st.rolls, s, r)
    && exists row, x :: row in st.rows && row.series == s && x in row.points && x.ts == I64_MIN
  }

  lemma MissedIsUnrolled(st: State, s: int, r: int)
    requires ValidState(st) && Missed(st, s, r)
    ensures Unrolled(st.rows, st.rolls, s, r, I64_MIN)
  {
    hide Contents, Watermark, HighWater, ProduceTo, ValidRollups;
    var row, x :| row in st.rows && row.series == s && x in row.points && x.ts == I64_MIN;
    ContentsMember(st.rows, s, x);
  }

  lemma UnrolledIsMissed(st: State, s: int, r: int)
    requires ValidState(st) && r > 0 && HighWater(st.rows).Some? && SettledTo(st.settled, HighWater(st.rows).value, r)
    requires st.settled[r] == I64_MIN && Unrolled(st.rows, st.rolls, s, r, I64_MIN)
    ensures Missed(st, s, r)
  {
    hide Contents, Watermark, HighWater, ProduceTo, ValidRollups;
    var x :| x in Contents(st.rows, s) && x.ts <= I64_MIN && Beyond(Watermark(st.rolls, s, r), x.ts);
    ContentsTimely(st.rows, s, x);
    ContentsMember(st.rows, s, x);
  }

  /** After a pass that does not fail a group has something unrolled exactly when
      it was the one left out. */
  lemma PassLeaves(st: State, first: nat, s: int, r: int, to: int)
    requires ValidState(st) && IdsBelow(st.rolls, first) && NearlySound(st) && Step(st, None, first).Done?
    requires r in st.tiers && r > 0 && HighWater(st.rows).Some? && ProduceTo(HighWater(st.rows).value, r) == Some(to)
    ensures Unrolled(st.rows, Step(st, None, first).next.rolls, s, r, to) <==> Missed(st, s, r)
  {
    hide LastWalk, Stored, Written, Settle, ValidRollups, HighWater, AllSeries, WellFormed, Timely, ProduceTo, Unrolled,
      Watermark, Full, Walked, Missed;
    var next := Step(st, None, first).next;
    BeginValid(st, None);
    if Missed(st, s, r) {
      MissedMeans(st, s, r);
      MissedIsUnrolled(st, s, r);
      PassSpares(st, first, s, r);
      StepValid(st, None, first);
      SameStoredUnrolled(st.rows, next.rolls, st.rolls, s, r, to);
    } else if Unrolled(st.rows, next.rolls, s, r, to) {
      if Begin(st, None).Some? {
        BegunHasSeries(st);
        var b := Begin(st, None).value;
        EnvValid(b, b.highWater.value);
        LastWalkFull(b, None);
        FinishWalks(b, None, first);
        WalkedSame(b, next);
        WalkedLeaves(b, next, r, s);
      }
      assert SettledTo(st.settled, HighWater(st.rows).value, r) && Unrolled(st.rows, st.rolls, s, r, to);
      UnrolledIsMissed(st, s, r);
    }
  }

  lemma MissedMeans(st: State, s: int, r: int)
    requires Missed(st, s, r)
    ensures r > 0 && HighWater(st.rows).Some? && SettledTo(st.settled, HighWater(st.rows).value, r)
    ensures ProduceTo(HighWater(st.rows).value, r) == Some(I64_MIN)
  {
    hide HighWater, ProduceTo, Watermark;
  }

  lemma BegunHasSeries(st: State)
    requires (forall r | r in st.tiers :: r > 0) && Begin(st, None).Some?
    ensures Begin(st, None).value.series != []
  {
    hide AllSeries, AllSettled;
    assert st.rows != [];
    AllSeriesDistinct(st.rows);
    assert st.rows[0].series in AllSeries(st.rows);
  }

  /** Rolling up as the samples arrive and rolling up once come to the same
      buckets: after any orderly run that ends in a pass, every group of the
      ladder holds what a single pass over the same rows, with no rollups to
      start from, would write, if and only if it is not the one group that pass
      left out. */
  lemma IncrementalIsOneShot(states: seq<State>, ops: seq<Op>, once: State, first: nat, s: int, r: int)
    requires IsOrderly(states, ops) && Steady(states[0]) && Sound(states[0])
    requires ops != [] && ops[|ops| - 1].Pass?
    requires ValidState(states[|ops| - 1]) && Step(states[|ops| - 1], None, ops[|ops| - 1].first).Done?
    requires ValidState(once) && once.rows == states[|ops|].rows && once.rolls == [] && once.settled == map[]
    requires once.tiers == states[|ops|].tiers && r in once.tiers && r > 0
    requires HighWater(once.rows).Some? && ProduceTo(HighWater(once.rows).value, r).Some?
    requires Step(once, None, first).Done?
    ensures Stored(Step(once, None, first).next.rolls, s, r) ==
            BucketsOf(RangeQuery(once.rows, s, I64_MIN, ProduceTo(HighWater(once.rows).value, r).value), r)
    ensures Stored(states[|ops|].rolls, s, r) == Stored(Step(once, None, first).next.rolls, s, r) <==>
            !Missed(states[|ops| - 1], s, r)
  {
    hide HighWater, Watermark, ProduceTo, Stored, BucketsOf, RangeQuery, Contents, ValidState, Step, Complete,
      SettledSound, Steady, NearlySound, Unrolled, Missed, IdsBelow, OneShot;
    var n := |ops| - 1;
    var st, now, passed := states[n], states[n + 1], Step(once, None, first).next;
    var to := ProduceTo(HighWater(once.rows).value, r).value;
    OrderlyRun(states, ops, n);
    OrderlyRun(states, ops, n + 1);
    OrderlyIsRun(states, ops);
    SteadyValid(states[0]);
    SettledAboveTheBottom(states, ops, n);
    assert GoesOrderly(st, ops[n], now);
    PassFrame(st, ops[n].first);
    PassFrame(once, first);
    PassLeaves(st, ops[n].first, s, r, to);
    RolledUpIsOneShot(now, s, r, to);
    OnceSteady(once, now);
    NoIds(first);
    PassCompletes(once, first);
    PassSteady(once, first);
    CompleteGroup(passed, HighWater(once.rows).value, s, r);
    RolledUpIsOneShot(passed, s, r, to);
  }

  lemma NoIds(first: nat)
    ensures IdsBelow([], first)
  {
  }

  lemma SteadyValid(st: State)
    requires Steady(st)
    ensures ValidState(st)
  {
  }

  lemma CompleteGroup(st: State, w: int, s: int, r: int)
    requires ValidState(st) && Complete(st, w) && r in st.tiers && r > 0 && ProduceTo(w, r).Some?
    ensures !Unrolled(st.rows, st.rolls, s, r, ProduceTo(w, r).value)
  {
    hide ProduceTo, Unrolled;
  }

  /** A pass changes neither rows nor ladder. */
  lemma PassFrame(st: State, first: nat)
    requires ValidState(st)
    ensures Step(st, None, first).next.rows == st.rows && Step(st, None, first).next.tiers == st.tiers
  {
    hide LastWalk, Written, Settle, ValidRollups, HighWater, AllSeries, WellFormed, Timely, Full, AllSettled;
    BeginValid(st, None);
    if Begin(st, None).Some? {
      LastWalkFull(Begin(st, None).value, None);
    }
  }

  lemma OnceSteady(once: State, st: State)
    requires ValidState(once) && once.rolls == [] && once.settled == map[] && Steady(st) && once.rows == st.rows
    ensures Steady(once) && Sound(once) && IdsBelow(once.rolls, 0)
  {
    hide HighWater, ProduceTo, Single, WellFormed, Timely, ValidRollups;
    forall s, r ensures Watermark(once.rolls, s, r).None? {
    }
  }
}
