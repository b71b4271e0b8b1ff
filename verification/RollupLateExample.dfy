/** A late sample that a bounded cycle loses: two series, one tier, one flush
    between the cycle's two steps. */
module RollupLateExample {
  import opened Sequences
  import opened Samples
  import opened ChunkTable
  import opened SeriesIndex
  import opened RollupKernel
  import opened RollupStore
  import opened RollupPass
  import opened RollupScan
  import opened RollupCycle
  import opened RollupStep
  import opened RollupSettled

  function At(ts: int): Sample {
    Sample(ts, Num(1.0))
  }

  function RowAt(id: nat, s: int, ts: int): Row {
    Row(id, s, Pco, Meta(ts, ts, Some(Num(1.0)), 1, 0, Num(1.0), Num(1.0), Num(1.0)), [At(ts)])
  }

  /** Series 1 has a sample at 5, series 2 one at 100, and the ladder one tier
      of width 10. */
  function Rows(): seq<Row> {
    [RowAt(1, 1, 5), RowAt(2, 2, 100)]
  }

  function Start0(): State {
    State(Rows(), [], [10], map[], None, 0, [], None)
  }

  /** Series 1 again, at 50. */
  function Late(): Row {
    RowAt(3, 1, 50)
  }

  lemma RowAtValid(id: nat, s: int, ts: int)
    requires I64_MIN <= ts <= I64_MAX
    ensures ValidRows([RowAt(id, s, ts)])
  {
  }

  lemma RowsValid()
    ensures ValidRows(Rows()) && ValidRows([Late()]) && ValidRows(Rows() + [Late()])
  {
    hide ValidRows, RowAt;
    RowAtValid(1, 1, 5);
    RowAtValid(2, 2, 100);
    RowAtValid(3, 1, 50);
    ValidRowsConcat([RowAt(1, 1, 5)], [RowAt(2, 2, 100)]);
    assert Rows() == [RowAt(1, 1, 5)] + [RowAt(2, 2, 100)];
    ValidRowsConcat(Rows(), [Late()]);
  }

  lemma ContentsOf(s: int, x: Sample)
    ensures x in Contents(Rows(), s) <==> (s == 1 && x == At(5)) || (s == 2 && x == At(100))
    ensures Contents(Rows(), 1) == multiset{At(5)}
    ensures x in Contents(Rows() + [Late()], s) <==>
            (s == 1 && (x == At(5) || x == At(50))) || (s == 2 && x == At(100))
  {
    var a, b := RowAt(1, 1, 5), RowAt(2, 2, 100);
    assert Rows() == [a] + [b];
    ContentsConcat([a], [b], s);
    ContentsConcat([a], [b], 1);
    ContentsConcat(Rows(), [Late()], s);
    ContentsOne(a, s);
    ContentsOne(b, s);
    ContentsOne(a, 1);
    ContentsOne(b, 1);
    ContentsOne(Late(), s);
  }

  lemma Begins()
    ensures HighWater(Rows()) == Some(100)
    ensures AllSeries(Rows()) == [1, 2]
  {
    var a, b := RowAt(1, 1, 5), RowAt(2, 2, 100);
    assert Rows()[..1] == [a] && [a][..0] == [];
    assert HighWater([a]) == Some(5);
    assert SeriesColumn([a]) == [] + [1] == [1];
    assert SeriesColumn(Rows()) == [1] + [2] == [1, 2];
    assert [1, 2][..1] == [1] && [1][..0] == [];
    assert SortedIds([1]) == [1];
  }

  function Begun(): State {
    Start0().(series := [1, 2], highWater := Some(100))
  }

  lemma StartValid()
    ensures ValidState(Start0()) && Sound(Start0()) && Ready(Begun())
    ensures Begin(Start0(), Some(1)) == Some(Begun())
  {
    hide WellFormed, Timely, Rows, HighWater, AllSeries;
    RowsValid();
    Begins();
    assert 10 in [10];
    assert !SettledTo(map[], 100, 10);
  }

  function Bucket5(): Bucket {
    First(At(5), 10)
  }

  function Chunk5(): Chunk {
    NewChunk(1, 1, 10, [Bucket5()])
  }

  lemma FirstRead()
    ensures RangeQuery(Rows(), 1, I64_MIN, 89) == [At(5)]
  {
    hide RangeQuery, Contents, SortedTs;
    RowsValid();
    ContentsOf(1, At(5));
    RangeQueryExact(Rows(), 1, I64_MIN, 89);
    var q := RangeQuery(Rows(), 1, I64_MIN, 89);
    assert multiset(q) == multiset{At(5)} by {
      forall x: Sample ensures multiset(q)[x] == multiset{At(5)}[x] {
      }
    }
    assert |multiset(q)| == 1 && |q| == 1;
    assert q[0] in multiset(q);
  }

  lemma FirstVisit()
    ensures Visit(Rows(), [], 1, 10, 100) == Buckets([Bucket5()])
  {
    hide RangeQuery;
    FirstRead();
    assert ProduceTo(100, 10) == Some(89);
    assert Watermark([], 1, 10) == None;
    assert [At(5)][..0] == [];
    assert BucketStart(5, 10) == 0;
    assert !Overflows([At(5)], 10);
    assert BucketsOf([At(5)], 10) == Push([], At(5), 10) == [Bucket5()];
  }

  function FirstStop(): Walk {
    Walk(1, 2, [Piece(1, 10, [Bucket5()])], [], Some(Mark(10, 100)))
  }

  lemma FirstWalks()
    ensures LastWalk(Begun(), Some(1)) == FirstStop()
  {
    hide Visit;
    var e := EnvOf(Begun(), 100);
    assert Count(e) == 2;
    var w := FirstWalk(e, Some(1), 0, None);
    assert w == Walk(0, 2, [], [], None);
    AtOrdinal(e, 0);
    FirstVisit();
    assert TierEnd(e, 0) == 2;
    assert PiecesAt(e, 0) == [Piece(1, 10, [Bucket5()])];
    assert [] + PiecesAt(e, 0) == PiecesAt(e, 0);
    assert Turn(e, w) == FirstStop();
    assert WalkOn(e, Some(1), FirstStop()) == FirstStop();
  }

  function Mid(): State {
    Begun().(rolls := [Chunk5()], started := Some(Mark(10, 100)), cursor := 1)
  }

  lemma FirstStep()
    ensures ValidState(Start0())
    ensures Step(Start0(), Some(1), 1) == Done(Mid(), [Piece(1, 10, [Bucket5()])], true)
  {
    hide LastWalk;
    StartValid();
    FirstWalks();
    LastWalkFull(Begun(), Some(1));
    var p := Piece(1, 10, [Bucket5()]);
    assert [p][..0] == [];
    assert Written([], [p], 1) == Written([], [], 1) + [Chunk5()] == [Chunk5()];
  }

  /** After the late row is stored. */
  function Overtook(): State {
    Mid().(rows := Rows() + [Late()])
  }

  lemma Flushes()
    ensures ValidState(Mid()) && ValidState(Overtook()) && Allowed(Mid(), Flush([Late()]))
    ensures Apply(Mid(), Flush([Late()])) == Overtook()
  {
    hide WellFormed, Timely, Rows, Late, ValidRollups, Chunk5, SettledMax;
    RowsValid();
    ChunkValid();
  }

  lemma ChunkValid()
    ensures ValidRollups([Chunk5()])
  {
    assert BucketStart(5, 10) == 0;
    assert Exact(Chunk5());
  }

  lemma CoversToNine()
    ensures Watermark([Chunk5()], 1, 10) == Some(9)
    ensures Watermark([Chunk5()], 2, 10) == None
  {
    var c := Chunk5();
    var p := (d: Chunk) => InGroup(d, 1, 10);
    var q := (d: Chunk) => InGroup(d, 2, 10);
    assert BucketStart(5, 10) == 0;
    assert [c][..0] == [];
    assert Filter([c], p) == Filter([c][..0], p) + [c] == [c];
    assert Filter([c], q) == Filter([c][..0], q) + [] == [];
    assert SortBy([c], CoverageLe) == Insert(SortBy([c][..0], CoverageLe), c, CoverageLe) == [c];
  }

  lemma SecondVisit()
    ensures Visit(Rows() + [Late()], [Chunk5()], 2, 10, 100) == Nothing
  {
    hide Visit, Watermark, Contents;
    RowsValid();
    assert ProduceTo(100, 10) == Some(89);
    forall x | x in Contents(Rows() + [Late()], 2) ensures x.ts > 89 {
      ContentsOf(2, x);
    }
    VisitNothing(Rows() + [Late()], [Chunk5()], 2, 10, 100);
  }

  lemma SecondWalks()
    ensures LastWalk(Overtook(), Some(1)) == Walk(2, 2, [], [Mark(10, 89)], Some(Mark(10, 100)))
  {
    hide Visit;
    var e := EnvOf(Overtook(), 100);
    assert Count(e) == 2;
    var started := Some(Mark(10, 100));
    var w := FirstWalk(e, Some(1), 1, started);
    assert w == Walk(1, 2, [], [], started);
    AtOrdinal(e, 1);
    SecondVisit();
    assert TierEnd(e, 1) == 2;
    assert PiecesAt(e, 1) == [];
    assert ProduceTo(100, 10) == Some(89);
    var v := Walk(2, 2, [], [Mark(10, 89)], started);
    assert Turn(e, w) == v;
    assert WalkOn(e, Some(1), v) == v;
  }

  function Lost(): State {
    Overtook().(settled := map[10 := 89], cursor := 0)
  }

  lemma SecondStep()
    ensures ValidState(Overtook())
    ensures Step(Overtook(), Some(1), 2) == Done(Lost(), [], false)
  {
    hide LastWalk;
    Flushes();
    SecondWalks();
    LastWalkFull(Overtook(), Some(1));
    var m := Mark(10, 89);
    assert [m][..0] == [];
    assert Settle(map[], [m]) == Settle(map[], [])[10 := 89] == map[10 := 89];
  }

  /** The cycle's first step walks series 1, then a sample of series 1 that its
      tier is due is stored, then the second step closes the tier: it is
      settled to 89 with a sample at 50 unrolled, and the next pass, at the same
      high water, writes nothing. */
  lemma LateSampleIsLost()
    ensures ValidState(Start0()) && Sound(Start0())
    ensures Step(Start0(), Some(1), 1).Done? && Step(Start0(), Some(1), 1).next == Mid()
    ensures ValidState(Mid()) && Allowed(Mid(), Flush([Late()])) && Apply(Mid(), Flush([Late()])) == Overtook()
    ensures ValidState(Overtook())
    ensures Step(Overtook(), Some(1), 2).Done? && Step(Overtook(), Some(1), 2).next == Lost()
    ensures Unrolled(Lost().rows, Lost().rolls, 1, 10, Lost().settled[10]) && !Sound(Lost())
    ensures ValidState(Lost()) && Step(Lost(), None, 2).Done? && Step(Lost(), None, 2).batch == []
  {
    hide *;
    StartValid();
    FirstStep();
    Flushes();
    SecondStep();
    LostIsUnsound();
    NextPassSkips();
  }

  lemma LostIsUnsound()
    ensures 10 in Lost().settled
    ensures Unrolled(Lost().rows, Lost().rolls, 1, 10, Lost().settled[10]) && !Sound(Lost())
  {
    hide Contents, Watermark;
    CoversToNine();
    ContentsOf(1, At(50));
    assert Beyond(Watermark(Lost().rolls, 1, 10), 50);
    assert Unrolled(Lost().rows, Lost().rolls, 1, 10, 89);
  }

  lemma NextPassSkips()
    ensures ValidState(Lost()) && Step(Lost(), None, 2).Done? && Step(Lost(), None, 2).batch == []
  {
    hide LastWalk, HighWater;
    Flushes();
    HighWaterLate();
    assert ProduceTo(100, 10) == Some(89);
    assert AllSettled(Lost(), 100);
  }

  lemma HighWaterLate()
    ensures HighWater(Rows() + [Late()]) == Some(100)
  {
    Begins();
    assert (Rows() + [Late()])[..2] == Rows();
  }
}
