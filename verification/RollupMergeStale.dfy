/** A merge plan kept while row ids are given out again: exactly when what it
    still finds under its ids can be merged. */
module RollupMergeStale {
  import opened Sequences
  import opened Samples
  import opened RollupKernel
  import opened RollupStore
  import opened RollupPass
  import opened RollupCycle
  import opened RollupSettled
  import opened RollupMergePlan
  import opened RollupMerge
  import opened RollupMergeStep
  import opened RollupMergeLater

  /** Another chunk of the group lies between a run's first and last, or
      overlaps them. */
  ghost predicate Straddles(rolls: seq<Chunk>, run: seq<Chunk>) {
    run != [] && exists d :: d in rolls && InGroup(d, run[0].series, run[0].resolution) && d !in run && !Clear(run, d)
  }

  /** A plan as it was made. */
  ghost predicate IsPlan(was: seq<Chunk>, plans: seq<seq<Chunk>>) {
    ValidRollups(was) && Mergeable(was, plans) && forall run | run in plans :: Total(run) <= MERGE_TARGET
  }

  // ------------------------------------------------- what is found under the ids

  /** Rows of one group whose buckets rise, no more than one chunk holds. */
  ghost predicate FoundRun(rolls: seq<Chunk>, run: seq<Chunk>) {
    && run != []
    && (forall c | c in run :: c in rolls && InGroup(c, run[0].series, run[0].resolution))
    && InOrder(run)
    && |RunBuckets(run)| <= MERGE_TARGET
  }

  lemma {:induction false} SameTotal(a: seq<Chunk>, b: seq<Chunk>)
    requires |a| == |b| && forall i | 0 <= i < |a| :: |a[i].buckets| == |b[i].buckets|
    ensures Total(a) == Total(b)
  {
    if a != [] {
      SameTotal(a[..|a| - 1], b[..|b| - 1]);
    }
  }

  lemma LikeRun(was: seq<Chunk>, plans: seq<seq<Chunk>>, rolls: seq<Chunk>, p: seq<Chunk>)
    requires IsPlan(was, plans) && p in plans && IsPresent(rolls, p) && InOrder(RowsLike(rolls, p))
    ensures FoundRun(rolls, RowsLike(rolls, p))
  {
    hide ValidRollups, RunBuckets, InOrder, Total, RowsLike, IsPresent;
    var run := RowsLike(rolls, p);
    assert Adjacent(was, p);
    forall c | c in run ensures c in rolls && InGroup(c, run[0].series, run[0].resolution) {
      var i :| 0 <= i < |run| && run[i] == c;
      assert SameIdentity(p[i], run[i]) && SameIdentity(p[0], run[0]);
      assert p[i] in p && p[0] in p;
    }
    SameTotal(p, run);
    TotalIsLength(run);
  }

  lemma LikeApart(was: seq<Chunk>, rolls: seq<Chunk>, p: seq<Chunk>, q: seq<Chunk>)
    requires IdsRise(was) && AreRows(was, p) && AreRows(was, q) && NoneShared(p, q)
    requires IsPresent(rolls, p) && IsPresent(rolls, q)
    ensures NoneShared(RowsLike(rolls, p), RowsLike(rolls, q))
  {
    hide RowsLike, IsPresent;
    var a, b := RowsLike(rolls, p), RowsLike(rolls, q);
    forall c | c in a ensures c !in b {
      if c in b {
        var i :| 0 <= i < |a| && a[i] == c;
        var j :| 0 <= j < |b| && b[j] == c;
        assert p[i] in p && q[j] in q;
        SameIdSame(was, p[i], q[j]);
        assert false;
      }
    }
  }

  lemma LikePairwise(was: seq<Chunk>, rolls: seq<Chunk>, runs: seq<seq<Chunk>>)
    requires IdsRise(was) && Pairwise(runs) && forall run | run in runs :: AreRows(was, run) && IsPresent(rolls, run)
    ensures Pairwise(EachLike(rolls, runs))
  {
    hide RowsLike, IsPresent, NoneShared, AreRows, EachLike;
    var found := EachLike(rolls, runs);
    forall i, j | 0 <= i < j < |found| ensures NoneShared(found[i], found[j]) {
      EachLikeAt(rolls, runs, i);
      EachLikeAt(rolls, runs, j);
      LikeApart(was, rolls, runs[i], runs[j]);
    }
  }

  /** What is rewritten: rows of groups, in order, each row once. */
  lemma RewrittenShape(was: seq<Chunk>, plans: seq<seq<Chunk>>, rolls: seq<Chunk>)
    requires IsPlan(was, plans)
    ensures Pairwise(Rewritten(rolls, plans))
    ensures forall run | run in Rewritten(rolls, plans) :: FoundRun(rolls, run)
  {
    hide ValidRollups, Adjacent, RowsLike, IsPresent, NoneShared, EachLike, InOrder, FoundRun, Pairwise, IdsRise, AreRows,
      IsPlan;
    var kept := StillThere(rolls, plans);
    StillTherePresent(rolls, plans);
    PlanRows(was, plans);
    FilterPairwise(plans, (run: seq<Chunk>) => IsPresent(rolls, run));
    LikePairwise(was, rolls, kept);
    var found := EachLike(rolls, kept);
    FilterPairwise(found, (run: seq<Chunk>) => InOrder(run));
    forall run | run in Rewritten(rolls, plans) ensures FoundRun(rolls, run) {
      FilterMember(found, (x: seq<Chunk>) => InOrder(x), run);
      var i :| 0 <= i < |found| && found[i] == run;
      EachLikeAt(rolls, kept, i);
      LikeRun(was, plans, rolls, kept[i]);
    }
  }

  lemma PlanRows(was: seq<Chunk>, plans: seq<seq<Chunk>>)
    requires IsPlan(was, plans)
    ensures IdsRise(was) && Pairwise(plans) && forall run | run in plans :: AreRows(was, run)
  {
    hide Exact, NoneShared;
    MergeablePresent(was, plans);
  }

  // --------------------------------------------------------- rising is chained

  lemma BeforeLast(t: seq<Chunk>, c: Chunk, x: Chunk)
    requires InOrder(t + [c]) && x in t && Exact(x) && Exact(c) && InGroup(x, c.series, c.resolution)
    ensures x.maxTs < c.minTs
  {
    hide InOrder, FlatMap;
    var all := t + [c];
    InOrderMeans(all);
    RunBucketsMore(t, c);
    var early, late := RunBuckets(t), RunBuckets(all);
    var b, d := x.buckets[|x.buckets| - 1], c.buckets[0];
    FlatMapMember(t, BucketsIn, b);
    assert b in BucketsIn(x);
    assert b in early;
    var i :| 0 <= i < |early| && early[i] == b;
    assert late[i] == b && late[|early|] == d;
    assert b in x.buckets && d in c.buckets;
    GridApart(b.ts, d.ts, c.resolution);
  }

  lemma RunBucketsMore(t: seq<Chunk>, c: Chunk)
    ensures RunBuckets(t + [c]) == RunBuckets(t) + c.buckets
  {
    assert (t + [c])[..|t|] == t;
  }

  lemma InOrderInit(t: seq<Chunk>, c: Chunk)
    requires InOrder(t + [c])
    ensures InOrder(t)
  {
    RunBucketsMore(t, c);
    var a, b := RunBuckets(t), RunBuckets(t + [c]);
    assert forall i | 0 <= i < |a| :: a[i] == b[i];
  }

  lemma {:induction false} OrderIsChained(run: seq<Chunk>, s: int, r: int)
    requires InOrder(run) && forall c | c in run :: Exact(c) && InGroup(c, s, r)
    ensures Chained(run)
  {
    hide InOrder, Exact;
    if run != [] {
      var t, c := run[..|run| - 1], run[|run| - 1];
      assert run == t + [c] && c in run && forall x | x in t :: x in run;
      InOrderInit(t, c);
      OrderIsChained(t, s, r);
      forall i, j | 0 <= i < j < |run| ensures run[i].maxTs < run[j].minTs {
        if j == |t| {
          assert t[i] in t;
          BeforeLast(t, c, t[i]);
        }
      }
    }
  }

  lemma FoundChained(rolls: seq<Chunk>, run: seq<Chunk>)
    requires ValidRollups(rolls) && FoundRun(rolls, run)
    ensures Chained(run) && forall c | c in run :: Exact(c)
  {
    hide InOrder, Exact, RunBuckets;
    OrderIsChained(run, run[0].series, run[0].resolution);
  }

  // ------------------------------------------------------------- both directions

  lemma FoundAdjacent(rolls: seq<Chunk>, run: seq<Chunk>)
    requires ValidRollups(rolls) && FoundRun(rolls, run)
    ensures Adjacent(rolls, run) <==> !Straddles(rolls, run)
  {
    hide InOrder, RunBuckets, ValidRollups;
    FoundChained(rolls, run);
  }

  lemma FoundEnds(rolls: seq<Chunk>, run: seq<Chunk>)
    requires ValidRollups(rolls) && FoundRun(rolls, run)
    ensures var bs, r := RunBuckets(run), run[0].resolution;
            && bs != [] && bs[0].ts == run[0].minTs && bs[|bs| - 1].ts + r - 1 == run[|run| - 1].maxTs
  {
    hide ValidRollups, InOrder, FlatMap;
    FoundChained(rolls, run);
    var c := run[|run| - 1];
    var t := run[..|run| - 1];
    assert run == t + [c] && c in run && run[0] in run;
    RunBucketsMore(t, c);
    RunBucketsFirst(run);
  }

  lemma {:induction false} RunBucketsFirst(run: seq<Chunk>)
    requires run != [] && run[0].buckets != []
    ensures RunBuckets(run) != [] && RunBuckets(run)[0] == run[0].buckets[0]
  {
    var t := run[..|run| - 1];
    if t == [] {
      assert RunBuckets(t) == [];
    } else {
      RunBucketsFirst(t);
    }
  }

  /** A rewritten run's one chunk. */
  ghost predicate Stands(cs: seq<Chunk>, run: seq<Chunk>, m: Chunk)
    requires run != []
  {
    && m in cs && InGroup(m, run[0].series, run[0].resolution) && m.buckets == RunBuckets(run)
    && m.minTs == run[0].minTs && m.maxTs == run[|run| - 1].maxTs
  }

  lemma {:induction false} NewStands(rolls: seq<Chunk>, runs: seq<seq<Chunk>>, first: nat, run: seq<Chunk>) returns (m: Chunk)
    requires ValidRollups(rolls) && (forall x | x in runs :: FoundRun(rolls, x)) && run in runs
    ensures run != [] && Stands(NewChunks(runs, first), run, m)
  {
    hide ValidRollups, InOrder, RunBuckets;
    var t, last := runs[..|runs| - 1], runs[|runs| - 1];
    assert runs == t + [last] && last in runs && forall x | x in t :: x in runs;
    if run in t {
      m := NewStands(rolls, t, first, run);
    } else {
      FoundEnds(rolls, run);
      m := NewChunk(first + |NewChunks(t, first)|, run[0].series, run[0].resolution, RunBuckets(run));
    }
  }

  /** Two chunks of a group with a timestamp in common cannot both be valid. */
  lemma Overlapping(cs: seq<Chunk>, a: Chunk, b: Chunk)
    requires a in cs && b in cs && a != b && InGroup(b, a.series, a.resolution) && !Apart(a, b)
    ensures !ValidRollups(cs)
  {
  }

  lemma SameStart(rolls: seq<Chunk>, a: Chunk, b: Chunk)
    requires ValidRollups(rolls) && a in rolls && b in rolls && InGroup(b, a.series, a.resolution) && a.minTs == b.minTs
    ensures a == b
  {
    ExactSpan(a);
    ExactSpan(b);
  }

  lemma SpanOf(rolls: seq<Chunk>, run: seq<Chunk>, d: Chunk)
    requires ValidRollups(rolls) && FoundRun(rolls, run) && d in run
    ensures run[0].minTs <= d.minTs <= d.maxTs <= run[|run| - 1].maxTs
  {
    hide ValidRollups, InOrder, RunBuckets, Exact;
    FoundChained(rolls, run);
    ChainedBounds(run, d);
  }

  lemma StraddledBreaks(rolls: seq<Chunk>, runs: seq<seq<Chunk>>, first: nat, run: seq<Chunk>)
    requires ValidRollups(rolls) && IdsBelow(rolls, first) && Pairwise(runs)
    requires (forall x | x in runs :: FoundRun(rolls, x)) && run in runs && Straddles(rolls, run)
    ensures !ValidRollups(MergeBatch(rolls, runs, first))
  {
    hide ValidRollups, InOrder, RunBuckets, NewChunks, OldIds, Kept, Pairwise, IdsBelow, FoundRun;
    var now := MergeBatch(rolls, runs, first);
    var m := NewStands(rolls, runs, first, run);
    RunIsRows(rolls, run);
    var d :| d in rolls && InGroup(d, run[0].series, run[0].resolution) && d !in run && !Clear(run, d);
    RowSpan(rolls, d);
    NewChunkIds(runs, first);
    if d.id in OldIds(runs) {
      var other := OldRun(rolls, runs, d);
      RunIsRows(rolls, other);
      var n := NewStands(rolls, runs, first, other);
      SpanOf(rolls, other, d);
      if m == n {
        SameStart(rolls, run[0], other[0]);
        SharedRuns(runs, run, other, run[0]);
        assert false;
      }
      Overlapping(now, m, n);
    } else {
      KeptMember(rolls, OldIds(runs), d);
      BelowFirst(rolls, d, first);
      Overlapping(now, m, d);
    }
  }

  lemma RunIsRows(rolls: seq<Chunk>, run: seq<Chunk>)
    requires FoundRun(rolls, run)
    ensures run != [] && forall c | c in run :: c in rolls && InGroup(c, run[0].series, run[0].resolution)
    ensures run[0] in run
  {
  }

  lemma RowSpan(rolls: seq<Chunk>, d: Chunk)
    requires ValidRollups(rolls) && d in rolls
    ensures d.minTs <= d.maxTs
  {
    ExactSpan(d);
  }

  lemma BelowFirst(rolls: seq<Chunk>, d: Chunk, first: nat)
    requires IdsBelow(rolls, first) && d in rolls
    ensures d.id < first
  {
  }

  lemma SharedRuns(runs: seq<seq<Chunk>>, a: seq<Chunk>, b: seq<Chunk>, c: Chunk)
    requires Pairwise(runs) && a in runs && b in runs && c in a && c in b
    ensures a == b
  {
    hide Pairwise;
    var i :| 0 <= i < |runs| && runs[i] == a;
    var j :| 0 <= j < |runs| && runs[j] == b;
    if i < j {
      NotShared(runs, i, j, c);
    } else if j < i {
      NotShared(runs, j, i, c);
    }
  }

  lemma NotShared(runs: seq<seq<Chunk>>, i: nat, j: nat, c: Chunk)
    requires Pairwise(runs) && i < j < |runs| && c in runs[i]
    ensures c !in runs[j]
  {
    assert NoneShared(runs[i], runs[j]);
  }

  lemma {:induction false} OldRun(rolls: seq<Chunk>, runs: seq<seq<Chunk>>, d: Chunk) returns (run: seq<Chunk>)
    requires ValidRollups(rolls) && (forall x | x in runs :: FoundRun(rolls, x)) && d in rolls && d.id in OldIds(runs)
    ensures run in runs && d in run
  {
    hide InOrder, RunBuckets, Exact;
    var t, last := runs[..|runs| - 1], runs[|runs| - 1];
    assert runs == t + [last] && last in runs && forall x | x in t :: x in runs;
    if d.id in RunIds(last) {
      var c :| c in last && c.id == d.id;
      SameIdSame(rolls, c, d);
      run := last;
    } else {
      run := OldRun(rolls, t, d);
    }
  }

  /** The exact condition. However old a plan is, and whatever its ids stand for
      by now: applying it leaves the rollups valid and every group with the
      buckets it had if and only if no run it still finds, in order, has another
      chunk of its group between its ends. */
  lemma LatePlanExact(was: seq<Chunk>, plans: seq<seq<Chunk>>, rolls: seq<Chunk>, first: nat)
    requires IsPlan(was, plans) && ValidRollups(rolls) && IdsBelow(rolls, first)
    ensures var now := MergeBatch(rolls, Rewritten(rolls, plans), first);
            ValidRollups(now) && SameStored(now, rolls) <==>
            forall run | run in Rewritten(rolls, plans) :: !Straddles(rolls, run)
  {
    hide ValidRollups, MergeBatch, Rewritten, Straddles, FoundRun, Pairwise, IdsBelow, SameStored, Adjacent, MergeAll,
      AreRows, IsPlan;
    var runs := Rewritten(rolls, plans);
    RewrittenShape(was, plans, rolls);
    if run :| run in runs && Straddles(rolls, run) {
      StraddledBreaks(rolls, runs, first, run);
    } else {
      forall run | run in runs ensures Adjacent(rolls, run) {
        FoundAdjacent(rolls, run);
      }
      MergeableOf(rolls, runs);
      MergeablePresent(rolls, runs);
      BatchIsAll(rolls, runs, first);
      MergeAllKeeps(rolls, runs, first);
    }
  }

  // --------------------------------------------------------------- an example

  function OneBucket(id: nat, s: int, ts: int): Chunk {
    NewChunk(id, s, 10, [Bucket(ts, 1, Num(1.0), Num(1.0), Num(1.0), ts, Num(1.0))])
  }

  /** Series 1 has buckets at 0 and 20, under ids 1 and 6, and no raw row left;
      the ids between are of raw rows of another series. */
  function Planned(): seq<Chunk> {
    [OneBucket(1, 1, 0), OneBucket(6, 1, 20)]
  }

  function ThePlan(): seq<seq<Chunk>> {
    [Planned()]
  }

  /** `delete_rollups_after`: the chunks of a tier that begin after a moment. */
  function BegunAfter(rolls: seq<Chunk>, resolution: int, after: int): set<nat> {
    set c | c in rolls && c.resolution == resolution && c.minTs > after :: c.id
  }

  /** What begins after 5 is deleted, raw rows and all. Then series 1 is written
      and rolled up again, at 10 under id 4, after two new raw rows, and at 20
      under id 6, after one more. */
  function Reused(): seq<Chunk> {
    [OneBucket(1, 1, 0), OneBucket(4, 1, 10), OneBucket(6, 1, 20)]
  }

  lemma OneExact(id: nat, s: int, ts: int)
    requires ts % 10 == 0
    ensures Exact(OneBucket(id, s, ts))
  {
  }

  lemma ExampleValid()
    ensures ValidRollups(Planned()) && ValidRollups(Reused())
  {
    hide Exact;
    OneExact(1, 1, 0);
    OneExact(4, 1, 10);
    OneExact(6, 1, 20);
  }

  // The planner puts the two together.

  lemma ExampleGroup()
    ensures Group(Planned(), 1, 10) == Planned()
  {
    var a, c := OneBucket(1, 1, 0), OneBucket(6, 1, 20);
    var p := (d: Chunk) => InGroup(d, 1, 10);
    FilterAll([a, c], p);
    assert [a, c][..1] == [a] && [a][..0] == [];
    assert SortBy([], CoverageLe) == [];
    assert Insert([], a, CoverageLe) == [a];
    assert SortBy([a], CoverageLe) == [a];
    assert CoverageLe(a, c);
    assert Insert([a], c, CoverageLe) == [a] + [c];
    assert SortBy([a, c], CoverageLe) == Insert([a], c, CoverageLe);
  }

  lemma ExampleRuns(a: Chunk, c: Chunk)
    requires |a.buckets| == 1 && |c.buckets| == 1
    ensures Runs(Ended, [a, c]) == [[a, c]]
  {
    assert [a, c][..1] == [a] && [a][..0] == [];
    assert Runs(Ended, []) == [];
    assert Runs(Ended, [a]) == [] + [[a]] == [[a]];
    SumOne(a, BucketCount);
    assert Joins(Ended, Total([a]), |c.buckets|);
    assert [[a]][..0] == [] && [a] + [c] == [a, c];
  }

  lemma ExamplePlanned()
    ensures PlanOf(Planned(), {}, Key(1, 10)) == ThePlan()
  {
    hide Group, Runs, OneBucket;
    ExampleGroup();
    OneEach();
    ExampleRuns(Planned()[0], Planned()[1]);
    var worth := (run: seq<Chunk>) => Worth(Ended, run);
    FilterAll(ThePlan(), worth);
  }

  lemma OneEach()
    ensures |Planned()[0].buckets| == 1 && |Planned()[1].buckets| == 1
  {
  }

  lemma ExampleIsPlan()
    ensures IsPlan(Planned(), ThePlan())
  {
    hide ValidRollups;
    ExampleValid();
    var run := ThePlan()[0];
    assert run == [run[0]] + [run[1]];
    SumConcat([run[0]], [run[1]], BucketCount);
    SumOne(run[0], BucketCount);
    SumOne(run[1], BucketCount);
    assert Adjacent(Planned(), run);
  }

  // What happens while it waits.

  function TheStates(): seq<seq<Chunk>> {
    [Planned(), [OneBucket(1, 1, 0)], [OneBucket(1, 1, 0), OneBucket(4, 1, 10)], Reused()]
  }

  function TheEvents(): seq<Event> {
    [Dropped(BegunAfter(Planned(), 10, 5)), Wrote(OneBucket(4, 1, 10)), Wrote(OneBucket(6, 1, 20))]
  }

  lemma ExampleHappens()
    ensures IsHistory(TheStates(), TheEvents(), 0)
  {
    hide Happens, OneBucket, BegunAfter;
    ExampleDrops();
    ExampleWrites();
  }

  lemma ExampleDrops()
    ensures Happens(Planned(), Dropped(BegunAfter(Planned(), 10, 5)), [OneBucket(1, 1, 0)], 0)
  {
    hide Kept;
    var a, c := OneBucket(1, 1, 0), OneBucket(6, 1, 20);
    assert Planned() == [a, c];
    assert c in Planned();
    ExampleKept(a, c, BegunAfter(Planned(), 10, 5));
  }

  lemma ExampleKept(a: Chunk, c: Chunk, ids: set<nat>)
    requires a.id !in ids && c.id in ids
    ensures Kept([a, c], ids) == [a]
  {
    var p := (e: Chunk) => e.id !in ids;
    assert [a, c][..1] == [a] && [a][..0] == [];
    assert Filter([a], p) == Filter([a][..0], p) + [a] == [a];
    assert Filter([a, c], p) == Filter([a], p) + [] == [a];
  }

  lemma ExampleWrites()
    ensures Happens([OneBucket(1, 1, 0)], Wrote(OneBucket(4, 1, 10)), [OneBucket(1, 1, 0), OneBucket(4, 1, 10)], 0)
    ensures Happens([OneBucket(1, 1, 0), OneBucket(4, 1, 10)], Wrote(OneBucket(6, 1, 20)), Reused(), 0)
  {
    hide Watermark, Exact;
    var a, d, c := OneBucket(1, 1, 0), OneBucket(4, 1, 10), OneBucket(6, 1, 20);
    OneExact(4, 1, 10);
    OneExact(6, 1, 20);
    ExampleMarks(a, d);
    assert [a] + [d] == [a, d] && [a, d] + [c] == Reused();
  }

  lemma ExampleMarks(a: Chunk, d: Chunk)
    requires a == OneBucket(1, 1, 0) && d == OneBucket(4, 1, 10)
    ensures Watermark([a], 1, 10) == Some(9) && Watermark([a, d], 1, 10) == Some(19)
  {
    hide Stored, Watermark, Exact;
    NoneRolled();
    OneExact(1, 1, 0);
    OneExact(4, 1, 10);
    AppendChunk([], a);
    assert [] + [a] == [a];
    AppendChunk([a], d);
    assert [a] + [d] == [a, d];
  }

  lemma NoneRolled()
    ensures ValidRollups([]) && Watermark([], 1, 10) == None
  {
  }

  lemma ExampleFound()
    ensures ThePlan()[0] in Rewritten(Reused(), ThePlan()) && Straddles(Reused(), ThePlan()[0])
  {
    hide Exact, ValidRollups, RowsLike, EachLike;
    ExampleValid();
    var rolls, run := Reused(), ThePlan()[0];
    ValidIds(rolls);
    assert AreRows(rolls, run);
    RowsLikeSame(rolls, run);
    var there := (x: seq<Chunk>) => IsPresent(rolls, x);
    FilterMember(ThePlan(), there, run);
    StillTherePresent(rolls, ThePlan());
    var kept := StillThere(rolls, ThePlan());
    var i :| 0 <= i < |kept| && kept[i] == run;
    EachLikeAt(rolls, kept, i);
    ExampleInOrder(run[0], run[1]);
    FilterMember(EachLike(rolls, kept), (x: seq<Chunk>) => InOrder(x), run);
    assert OneBucket(4, 1, 10) in rolls;
    assert !Clear(run, OneBucket(4, 1, 10));
  }

  lemma ExampleInOrder(a: Chunk, c: Chunk)
    requires a == OneBucket(1, 1, 0) && c == OneBucket(6, 1, 20)
    ensures InOrder([a, c])
  {
    RunBucketsMore([], a);
    RunBucketsMore([a], c);
    assert [] + [a] == [a] && [a] + [c] == [a, c];
    assert RunBuckets([]) == [];
    assert RunBuckets([a, c]) == a.buckets + c.buckets;
  }

  /** Ids given out again: the planner puts two chunks together; while the plan
      waits, what begins after a moment is deleted and rolled up anew, with a
      chunk between the two. The presence check finds both, and merging them
      overlaps the one between. */
  lemma ReusedIdsBreak()
    ensures ValidRollups(Planned()) && PlanOf(Planned(), {}, Key(1, 10)) == ThePlan()
    ensures IsHistory(TheStates(), TheEvents(), 0)
    ensures ValidRollups(Reused())
    ensures var now := MergeBatch(Reused(), Rewritten(Reused(), ThePlan()), 7);
            !(ValidRollups(now) && SameStored(now, Reused()))
  {
    hide IsPlan, IsHistory, ValidRollups, MergeBatch, Rewritten, Straddles, SameStored, PlanOf;
    ExampleValid();
    ExamplePlanned();
    ExampleIsPlan();
    ExampleHappens();
    ExampleFound();
    assert IdsBelow(Reused(), 7);
    LatePlanExact(Planned(), ThePlan(), Reused(), 7);
  }
}
