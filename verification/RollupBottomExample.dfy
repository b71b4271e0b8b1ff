/** Settled to the least timestamp there is: runs in which that is taken to mean
    that nothing is settled, and a sample is never rolled up. */
module RollupBottomExample {
  import opened Sequences
  import opened Samples
  import opened ChunkTable
  import opened SeriesIndex
  import opened RollupKernel
  import opened RollupStore
  import opened RollupPass
  import opened RollupScan
  import opened RollupCycle
  import opened RollupStep
  import opened RollupSettled
  import opened RollupLateExample

  const NEXT: int := I64_MIN + 1

  /** Series 1 at the least timestamp and at the next; a ladder of one tier, of
      width 1. */
  function LowRows(): seq<Row> {
    [RowAt(1, 1, I64_MIN), RowAt(2, 1, NEXT)]
  }

  function Low(): State {
    State(LowRows(), [], [1], map[], None, 0, [], None)
  }

  lemma LowValid()
    ensures ValidRows(LowRows()) && ValidState(Low()) && Sound(Low())
  {
    hide WellFormed, Timely, RowAt;
    RowAtValid(1, 1, I64_MIN);
    RowAtValid(2, 1, NEXT);
    ValidRowsConcat([RowAt(1, 1, I64_MIN)], [RowAt(2, 1, NEXT)]);
    assert LowRows() == [RowAt(1, 1, I64_MIN)] + [RowAt(2, 1, NEXT)];
  }

  lemma LowContents(s: int, x: Sample)
    ensures x in Contents(LowRows(), s) <==> s == 1 && (x == At(I64_MIN) || x == At(NEXT))
    ensures Contents(LowRows(), 1) == multiset{At(I64_MIN), At(NEXT)}
  {
    var a, b := RowAt(1, 1, I64_MIN), RowAt(2, 1, NEXT);
    assert LowRows() == [a] + [b];
    ContentsConcat([a], [b], s);
    ContentsConcat([a], [b], 1);
    ContentsOne(a, s);
    ContentsOne(b, s);
    ContentsOne(a, 1);
    ContentsOne(b, 1);
  }

  lemma LowBegins()
    ensures HighWater(LowRows()) == Some(NEXT)
    ensures AllSeries(LowRows()) == [1]
  {
    var a, b := RowAt(1, 1, I64_MIN), RowAt(2, 1, NEXT);
    assert LowRows()[..1] == [a] && [a][..0] == [];
    assert HighWater([a]) == None;
    assert SeriesColumn([a]) == [] + [1] == [1];
    assert SeriesColumn(LowRows()) == [1] + [1] == [1, 1];
    assert [1, 1][..1] == [1] && [1][..0] == [];
    assert SortedIds([1]) == [1];
  }

  function LowBegun(): State {
    Low().(series := [1], highWater := Some(NEXT))
  }

  lemma LowBegin()
    ensures ValidState(Low()) && Ready(LowBegun()) && Begin(Low(), None) == Some(LowBegun())
  {
    hide WellFormed, Timely, LowRows, HighWater, AllSeries;
    LowValid();
    LowBegins();
    assert 1 in [1];
    assert !SettledTo(map[], NEXT, 1);
  }

  function LowBucket(): Bucket {
    First(At(I64_MIN), 1)
  }

  function LowChunk(): Chunk {
    NewChunk(1, 1, 1, [LowBucket()])
  }

  lemma LowRead()
    ensures RangeQuery(LowRows(), 1, I64_MIN, I64_MIN) == [At(I64_MIN)]
  {
    hide RangeQuery, Contents, SortedTs;
    LowValid();
    LowContents(1, At(I64_MIN));
    RangeQueryExact(LowRows(), 1, I64_MIN, I64_MIN);
    var q := RangeQuery(LowRows(), 1, I64_MIN, I64_MIN);
    assert multiset(q) == multiset{At(I64_MIN)} by {
      forall x: Sample ensures multiset(q)[x] == multiset{At(I64_MIN)}[x] {
      }
    }
    assert |multiset(q)| == 1 && |q| == 1;
    assert q[0] in multiset(q);
  }

  lemma LowVisit()
    ensures ProduceTo(NEXT, 1) == Some(I64_MIN)
    ensures Visit(LowRows(), [], 1, 1, NEXT) == Buckets([LowBucket()])
  {
    hide RangeQuery;
    LowRead();
    assert Watermark([], 1, 1) == None;
    assert [At(I64_MIN)][..0] == [];
    assert BucketStart(I64_MIN, 1) == I64_MIN;
    assert !Overflows([At(I64_MIN)], 1);
    assert BucketsOf([At(I64_MIN)], 1) == Push([], At(I64_MIN), 1) == [LowBucket()];
  }

  function LowStop(): Walk {
    Walk(1, 1, [Piece(1, 1, [LowBucket()])], [Mark(1, I64_MIN)], Some(Mark(1, NEXT)))
  }

  lemma LowWalks()
    ensures LastWalk(LowBegun(), None) == LowStop()
  {
    hide Visit;
    var e := EnvOf(LowBegun(), NEXT);
    assert Count(e) == 1;
    var w := FirstWalk(e, None, 0, None);
    assert w == Walk(0, 1, [], [], None);
    AtOrdinal(e, 0);
    LowVisit();
    assert TierEnd(e, 0) == 1;
    assert PiecesAt(e, 0) == [Piece(1, 1, [LowBucket()])];
    assert [] + PiecesAt(e, 0) == PiecesAt(e, 0);
    assert Turn(e, w) == LowStop();
    assert WalkOn(e, None, LowStop()) == LowStop();
  }

  function LowSettled(): State {
    LowBegun().(rolls := [LowChunk()], settled := map[1 := I64_MIN], started := Some(Mark(1, NEXT)))
  }

  lemma LowPass()
    ensures ValidState(Low())
    ensures Step(Low(), None, 1) == Done(LowSettled(), [Piece(1, 1, [LowBucket()])], false)
  {
    hide LastWalk;
    LowBegin();
    LowWalks();
    LastWalkFull(LowBegun(), None);
    var p, m := Piece(1, 1, [LowBucket()]), Mark(1, I64_MIN);
    assert [p][..0] == [] && [m][..0] == [];
    assert Written([], [p], 1) == Written([], [], 1) + [LowChunk()] == [LowChunk()];
    assert Settle(map[], [m]) == Settle(map[], [])[1 := I64_MIN] == map[1 := I64_MIN];
  }

  lemma LowMax()
    ensures SettledMax(map[1 := I64_MIN]) == I64_MIN
  {
    var settled := map[1 := I64_MIN];
    assert settled[1] == I64_MIN;
    assert IsMaximum(settled, I64_MIN);
  }

  lemma LowGoes()
    ensures Goes(Low(), Pass(1), LowSettled()) && ValidState(LowSettled()) && Sound(LowSettled())
  {
    hide Step, Sound, ValidState, LowSettled, LowRows;
    LowValid();
    LowPass();
    assert IdsBelow(Low().rolls, 1);
    PassKeeps(Low(), 1);
  }

  /** A series stored for the first time, at the least timestamp. */
  function Newcomer(): Row {
    RowAt(3, 2, I64_MIN)
  }

  /** After the one rollup chunk is deleted, or rolled back; and after the
      newcomer is stored. */
  function Dropped(): State {
    LowSettled().(rolls := [])
  }

  function RolledBack(): State {
    LowSettled().(rolls := [], series := [], highWater := None)
  }

  function Joined(): State {
    LowSettled().(rows := LowRows() + [Newcomer()])
  }

  lemma DropGoes()
    ensures Goes(LowSettled(), DropRollups({1}), Dropped())
    ensures Goes(LowSettled(), Rollback(LowRows(), [], [1]), RolledBack())
  {
    hide ValidRollups, WellFormed, Timely, SettledMax, LowRows;
    LowGoes();
    LowMax();
    LowValid();
    NoRollups();
    var c := LowChunk();
    assert [c][..0] == [];
    assert Kept([c], {1}) == [] + [] == [];
  }

  lemma NoRollups()
    ensures ValidRollups([])
  {
  }

  lemma JoinGoes()
    ensures Goes(LowSettled(), Flush([Newcomer()]), Joined())
  {
    hide ValidRollups, WellFormed, Timely, SettledMax, LowRows;
    LowGoes();
    LowMax();
    RowAtValid(3, 2, I64_MIN);
  }

  lemma DroppedUntrue()
    ensures !Sound(Dropped()) && !Sound(RolledBack())
  {
    hide Contents;
    LowContents(1, At(I64_MIN));
    assert Watermark([], 1, 1) == None;
    assert Unrolled(Dropped().rows, [], 1, 1, Dropped().settled[1]);
    assert Unrolled(RolledBack().rows, [], 1, 1, RolledBack().settled[1]);
  }

  lemma JoinedUntrue()
    ensures !Sound(Joined())
  {
    hide Contents;
    var c := LowChunk();
    var p := (d: Chunk) => InGroup(d, 2, 1);
    assert [c][..0] == [];
    assert Filter([c], p) == Filter([c][..0], p) + [] == [];
    assert Watermark([c], 2, 1) == None;
    ContentsConcat(LowRows(), [Newcomer()], 2);
    ContentsOne(Newcomer(), 2);
    assert At(I64_MIN) in Contents(Joined().rows, 2);
    assert Unrolled(Joined().rows, Joined().rolls, 2, 1, Joined().settled[1]);
  }

  lemma IdleWhenSettled(st: State)
    requires ValidState(st) && st.tiers == [1] && st.settled == map[1 := I64_MIN] && st.cursor == 0
    requires HighWater(st.rows) == Some(NEXT)
    ensures Step(st, None, 2) == Done(st, [], false)
  {
    hide LastWalk, HighWater, ValidRollups, WellFormed, Timely, AllSeries;
    assert ProduceTo(NEXT, 1) == Some(I64_MIN);
    assert AllSettled(st, NEXT);
  }

  lemma NextPassIsIdle()
    ensures ValidState(Dropped()) && Step(Dropped(), None, 2) == Done(Dropped(), [], false)
    ensures ValidState(RolledBack()) && Step(RolledBack(), None, 2) == Done(RolledBack(), [], false)
    ensures ValidState(Joined()) && Step(Joined(), None, 2) == Done(Joined(), [], false)
  {
    hide HighWater, LowRows, ValidState, Step, Apply, Allowed;
    DropGoes();
    JoinGoes();
    ApplyValid(LowSettled(), DropRollups({1}));
    ApplyValid(LowSettled(), Rollback(LowRows(), [], [1]));
    ApplyValid(LowSettled(), Flush([Newcomer()]));
    LowBegins();
    JoinedHighWater();
    IdleWhenSettled(Dropped());
    IdleWhenSettled(RolledBack());
    IdleWhenSettled(Joined());
  }

  lemma JoinedHighWater()
    ensures HighWater(LowRows() + [Newcomer()]) == Some(NEXT)
  {
    LowBegins();
    assert (LowRows() + [Newcomer()])[..2] == LowRows();
  }

  /** A pass settles tier 1 to the least timestamp. Deleting the chunk it wrote,
      rolling it back, or storing a series at that timestamp forgets nothing: the
      tier stays settled with a sample unrolled, and the next pass, at the same
      high water, writes nothing. */
  lemma BottomSampleIsLost()
    ensures ValidState(Low()) && Sound(Low()) && Sound(LowSettled())
    ensures IsRun([Low(), LowSettled(), Dropped()], [Pass(1), DropRollups({1})]) && !Sound(Dropped())
    ensures IsRun([Low(), LowSettled(), RolledBack()], [Pass(1), Rollback(LowRows(), [], [1])]) && !Sound(RolledBack())
    ensures IsRun([Low(), LowSettled(), Joined()], [Pass(1), Flush([Newcomer()])]) && !Sound(Joined())
    ensures ValidState(Dropped()) && Step(Dropped(), None, 2) == Done(Dropped(), [], false)
    ensures ValidState(RolledBack()) && Step(RolledBack(), None, 2) == Done(RolledBack(), [], false)
    ensures ValidState(Joined()) && Step(Joined(), None, 2) == Done(Joined(), [], false)
  {
    hide Goes, Sound, ValidState, Step, Low, LowSettled, Dropped, RolledBack, Joined, LowRows, Newcomer;
    LowValid();
    LowGoes();
    DropGoes();
    JoinGoes();
    DroppedUntrue();
    JoinedUntrue();
    NextPassIsIdle();
  }
}
