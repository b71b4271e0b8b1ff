/** Putting rollup chunks together: the runs of a plan are rewritten as fewer,
    larger chunks, and nothing a reader or a later pass can see changes. */
module RollupMerge {
  import opened Sequences
  import opened RollupKernel
  import opened RollupStore
  import opened RollupPass
  import opened RollupCycle
  import opened RollupSettled
  import opened RollupMergePlan

  function RunIds(run: seq<Chunk>): set<nat> {
    set c | c in run :: c.id
  }

  function RunBuckets(run: seq<Chunk>): seq<Bucket> {
    FlatMap(run, BucketsIn)
  }

  /** Buckets cut at the target, under ids from `first`. */
  function CutChunks(s: int, r: int, buckets: seq<Bucket>, first: nat): seq<Chunk>
    requires buckets != []
  {
    if |buckets| <= MERGE_TARGET then [NewChunk(first, s, r, buckets)]
    else [NewChunk(first, s, r, buckets[..MERGE_TARGET])] + CutChunks(s, r, buckets[MERGE_TARGET..], first + 1)
  }

  function MergedChunks(run: seq<Chunk>, first: nat): seq<Chunk> {
    if run == [] || RunBuckets(run) == [] then []
    else CutChunks(run[0].series, run[0].resolution, RunBuckets(run), first)
  }

  function MergeOne(rolls: seq<Chunk>, run: seq<Chunk>, first: nat): seq<Chunk> {
    Kept(rolls, RunIds(run)) + MergedChunks(run, first)
  }

  // ------------------------------------------------------------------ the cut

  ghost predicate OnGrid(buckets: seq<Bucket>, r: int) {
    r > 0 && Rising(buckets) && forall b | b in buckets :: b.ts % r == 0
  }

  ghost predicate Within(cs: seq<Chunk>, lo: int, hi: int) {
    forall c | c in cs :: lo <= c.minTs && c.maxTs <= hi
  }

  ghost predicate AllExact(cs: seq<Chunk>, s: int, r: int) {
    forall c | c in cs :: Exact(c) && InGroup(c, s, r)
  }

  ghost predicate Numbered(cs: seq<Chunk>, first: nat) {
    forall i | 0 <= i < |cs| :: cs[i].id == first + i
  }

  lemma OnGridParts(buckets: seq<Bucket>, n: nat, r: int)
    requires OnGrid(buckets, r) && n <= |buckets|
    ensures OnGrid(buckets[..n], r) && OnGrid(buckets[n..], r)
    ensures 0 < n < |buckets| ==> buckets[n - 1].ts + r - 1 < buckets[n].ts
  {
    var a, b := buckets[..n], buckets[n..];
    assert forall x | x in a :: x in buckets;
    assert forall x | x in b :: x in buckets;
    assert forall i | 0 <= i < |b| :: b[i] == buckets[n + i];
    if 0 < n < |buckets| {
      var x, y := buckets[n - 1], buckets[n];
      assert x in buckets && y in buckets && x.ts < y.ts;
      GridApart(x.ts, y.ts, r);
    }
  }

  lemma GridApart(a: int, b: int, r: int)
    requires r > 0 && a % r == 0 && b % r == 0 && a < b
    ensures a + r <= b
  {
    var p, q := a / r, b / r;
    assert a == p * r && b == q * r;
    if p < q {
      WidthApart(p, q, r);
    } else if q < p {
      WidthApart(q, p, r);
    }
  }

  lemma NewChunkExact(s: int, r: int, buckets: seq<Bucket>, id: nat)
    requires OnGrid(buckets, r) && buckets != []
    ensures Exact(NewChunk(id, s, r, buckets))
  {
  }

  /** A chunk set before those that follow it. */
  lemma CutFirst(c: Chunk, cs: seq<Chunk>, s: int, r: int, first: nat, lo: int, hi: int)
    requires Exact(c) && InGroup(c, s, r) && c.id == first
    requires AllExact(cs, s, r) && Chained(cs) && Numbered(cs, first + 1) && Within(cs, lo, hi)
    requires c.maxTs < lo && c.minTs <= lo && c.maxTs <= hi
    ensures var all := [c] + cs;
            AllExact(all, s, r) && Chained(all) && Numbered(all, first) && Within(all, c.minTs, hi)
  {
    hide Exact;
    var all := [c] + cs;
    forall d | d in all ensures d == c || d in cs {
    }
    forall i, j | 0 <= i < j < |all| ensures all[i].maxTs < all[j].minTs {
      assert cs[j - 1] in cs;
      if i > 0 {
        assert all[i] == cs[i - 1] && all[j] == cs[j - 1];
      }
    }
  }

  lemma FlatMapFirst(c: Chunk, cs: seq<Chunk>)
    ensures FlatMap([c] + cs, BucketsIn) == c.buckets + FlatMap(cs, BucketsIn)
  {
    FlatMapConcat([c], cs, BucketsIn);
    FlatMapOne(c, BucketsIn);
  }

  /** Cutting keeps the buckets, in order, in chunks that follow one another. */
  lemma {:induction false} CutShape(s: int, r: int, buckets: seq<Bucket>, first: nat)
    requires OnGrid(buckets, r) && buckets != []
    ensures var cs := CutChunks(s, r, buckets, first);
            && AllExact(cs, s, r) && Chained(cs) && Numbered(cs, first)
            && FlatMap(cs, BucketsIn) == buckets
            && Within(cs, buckets[0].ts, buckets[|buckets| - 1].ts + r - 1)
    decreases |buckets|
  {
    hide Exact, OnGrid, FlatMap, AllExact, Chained, Numbered, Within;
    var hi := buckets[|buckets| - 1].ts + r - 1;
    if |buckets| <= MERGE_TARGET {
      CutOne(s, r, buckets, first);
    } else {
      var a, b := buckets[..MERGE_TARGET], buckets[MERGE_TARGET..];
      OnGridParts(buckets, MERGE_TARGET, r);
      GridOrder(buckets, r, MERGE_TARGET);
      NewChunkExact(s, r, a, first);
      CutShape(s, r, b, first + 1);
      var c, cs := NewChunk(first, s, r, a), CutChunks(s, r, b, first + 1);
      assert b[|b| - 1] == buckets[|buckets| - 1];
      CutFirst(c, cs, s, r, first, b[0].ts, hi);
      FlatMapFirst(c, cs);
      assert buckets == a + b;
    }
  }

  lemma CutOne(s: int, r: int, buckets: seq<Bucket>, first: nat)
    requires OnGrid(buckets, r) && 0 < |buckets| <= MERGE_TARGET
    ensures var cs := CutChunks(s, r, buckets, first);
            && AllExact(cs, s, r) && Chained(cs) && Numbered(cs, first)
            && FlatMap(cs, BucketsIn) == buckets
            && Within(cs, buckets[0].ts, buckets[|buckets| - 1].ts + r - 1)
  {
    hide Exact, OnGrid, FlatMap;
    NewChunkExact(s, r, buckets, first);
    FlatMapOne(NewChunk(first, s, r, buckets), BucketsIn);
  }

  lemma GridOrder(buckets: seq<Bucket>, r: int, n: nat)
    requires OnGrid(buckets, r) && 0 < n < |buckets|
    ensures buckets[0].ts <= buckets[n].ts && buckets[n - 1].ts <= buckets[|buckets| - 1].ts
  {
    assert buckets[0].ts < buckets[n].ts;
    assert n - 1 == |buckets| - 1 || buckets[n - 1].ts < buckets[|buckets| - 1].ts;
  }

  // ------------------------------------------------------------ adjacent runs

  /** Rows of one group, in order, with none of the group between them. */
  ghost predicate Adjacent(rolls: seq<Chunk>, run: seq<Chunk>) {
    && run != []
    && (forall c | c in run :: c in rolls && InGroup(c, run[0].series, run[0].resolution))
    && Chained(run)
    && forall c | c in rolls && InGroup(c, run[0].series, run[0].resolution) && c !in run :: Clear(run, c)
  }

  /** The chunk lies to one side of the run. */
  ghost predicate Clear(run: seq<Chunk>, c: Chunk)
    requires run != []
  {
    c.maxTs < run[0].minTs || run[|run| - 1].maxTs < c.minTs
  }

  lemma ChainedBounds(run: seq<Chunk>, c: Chunk)
    requires Chained(run) && c in run && forall d | d in run :: Exact(d)
    ensures run[0].minTs <= c.minTs <= c.maxTs <= run[|run| - 1].maxTs
  {
    hide Exact;
    var i :| 0 <= i < |run| && run[i] == c;
    var n := |run| - 1;
    ExactSpan(c);
    assert run[0] in run && run[n] in run;
    ExactSpan(run[0]);
    ExactSpan(run[n]);
    assert i == 0 || run[0].maxTs < run[i].minTs;
    assert i == n || run[i].maxTs < run[n].minTs;
  }

  /** The buckets of an adjacent run rise from its start to its end. */
  lemma RunOnGrid(rolls: seq<Chunk>, run: seq<Chunk>)
    requires ValidRollups(rolls) && Adjacent(rolls, run)
    ensures var bs, r := RunBuckets(run), run[0].resolution;
            && bs != [] && OnGrid(bs, r)
            && bs[0].ts == run[0].minTs && bs[|bs| - 1].ts + r - 1 == run[|run| - 1].maxTs
  {
    hide ValidRollups, FlatMap, Exact;
    RowsExact(rolls, run);
    ChainedRising(run);
    RunModulo(run);
    RunStarts(run);
    RunEnds(run);
  }

  lemma RunModulo(run: seq<Chunk>)
    requires run != [] && forall c | c in run :: Exact(c) && c.resolution == run[0].resolution
    ensures run[0].resolution > 0 && forall b | b in RunBuckets(run) :: b.ts % run[0].resolution == 0
  {
    hide FlatMap;
    assert run[0] in run;
    forall b | b in RunBuckets(run) ensures b.ts % run[0].resolution == 0 {
      FlatMapMember(run, BucketsIn, b);
      var c :| c in run && b in BucketsIn(c);
    }
  }

  lemma RunStarts(run: seq<Chunk>)
    requires run != [] && forall c | c in run :: Exact(c)
    ensures RunBuckets(run) != [] && RunBuckets(run)[0].ts == run[0].minTs
  {
    hide FlatMap;
    var first := run[0];
    assert first in run;
    assert run == [first] + run[1..];
    FlatMapFirst(first, run[1..]);
  }

  lemma RunEnds(run: seq<Chunk>)
    requires run != [] && forall c | c in run :: Exact(c) && c.resolution == run[0].resolution
    ensures var bs := RunBuckets(run);
            bs != [] && bs[|bs| - 1].ts + run[0].resolution - 1 == run[|run| - 1].maxTs
  {
    hide FlatMap;
    var last := run[|run| - 1];
    assert last in run;
    assert run == run[..|run| - 1] + [last];
    FlatMapConcat(run[..|run| - 1], [last], BucketsIn);
    FlatMapOne(last, BucketsIn);
  }

  lemma RowsExact(rolls: seq<Chunk>, run: seq<Chunk>)
    requires ValidRollups(rolls) && forall c | c in run :: c in rolls
    ensures forall c | c in run :: Exact(c)
  {
  }

  lemma MergedShape(rolls: seq<Chunk>, run: seq<Chunk>, first: nat)
    requires ValidRollups(rolls) && Adjacent(rolls, run)
    ensures var cs := MergedChunks(run, first);
            && AllExact(cs, run[0].series, run[0].resolution) && Chained(cs) && Numbered(cs, first)
            && FlatMap(cs, BucketsIn) == RunBuckets(run)
            && Within(cs, run[0].minTs, run[|run| - 1].maxTs)
  {
    hide ValidRollups, FlatMap, Exact, CutChunks;
    RunOnGrid(rolls, run);
    CutShape(run[0].series, run[0].resolution, RunBuckets(run), first);
  }

  // --------------------------------------------------------------- one merge

  lemma KeptMember(rolls: seq<Chunk>, ids: set<nat>, c: Chunk)
    ensures c in Kept(rolls, ids) <==> c in rolls && c.id !in ids
  {
    FilterMember(rolls, (d: Chunk) => d.id !in ids, c);
  }

  lemma IdDecides(rolls: seq<Chunk>, run: seq<Chunk>, c: Chunk)
    requires IdsRise(rolls) && c in rolls && forall d | d in run :: d in rolls
    ensures c.id in RunIds(run) <==> c in run
  {
    if c.id in RunIds(run) {
      var d :| d in run && d.id == c.id;
      assert d in rolls;
      var i :| 0 <= i < |rolls| && rolls[i] == c;
      var j :| 0 <= j < |rolls| && rolls[j] == d;
    }
  }

  /** Chunks that keep clear of the rest may be added. */
  lemma AddValid(rolls: seq<Chunk>, cs: seq<Chunk>, s: int, r: int, first: nat)
    requires ValidRollups(rolls) && AllExact(cs, s, r) && Chained(cs) && Numbered(cs, first) && IdsBelow(rolls, first)
    requires forall c, d | c in rolls && InGroup(c, s, r) && d in cs :: Apart(c, d)
    ensures ValidRollups(rolls + cs)
    ensures IdsBelow(rolls + cs, first + |cs|)
  {
    hide Exact;
    var all := rolls + cs;
    forall i, j | 0 <= i < j < |all| ensures all[i].id < all[j].id {
      if i < |rolls| <= j {
        assert all[i] in rolls;
      }
    }
    forall c | c in all ensures c in rolls || c in cs {
    }
    forall a, b | a in all && b in all && a != b && InGroup(b, a.series, a.resolution) ensures Apart(a, b) {
      if a in cs && b in cs {
        var i :| 0 <= i < |cs| && cs[i] == a;
        var j :| 0 <= j < |cs| && cs[j] == b;
        assert if i < j then cs[i].maxTs < cs[j].minTs else cs[j].maxTs < cs[i].minTs;
      } else if a in rolls && b in cs {
        assert Apart(a, b);
      } else if a in cs && b in rolls {
        assert Apart(b, a);
      }
    }
  }

  lemma MergeOneValid(rolls: seq<Chunk>, run: seq<Chunk>, first: nat)
    requires ValidRollups(rolls) && Adjacent(rolls, run) && IdsBelow(rolls, first)
    ensures ValidRollups(MergeOne(rolls, run, first))
    ensures IdsBelow(MergeOne(rolls, run, first), first + |MergedChunks(run, first)|)
  {
    hide ValidRollups, MergedChunks, FlatMap, Kept;
    var s, r := run[0].series, run[0].resolution;
    var rest, cs := Kept(rolls, RunIds(run)), MergedChunks(run, first);
    DropValid(rolls, RunIds(run));
    MergedShape(rolls, run, first);
    forall c | c in rest ensures c in rolls {
      KeptMember(rolls, RunIds(run), c);
    }
    forall c, d | c in rest && InGroup(c, s, r) && d in cs ensures Apart(c, d) {
      KeptMember(rolls, RunIds(run), c);
      ValidIds(rolls);
      IdDecides(rolls, run, c);
      assert Clear(run, c);
    }
    AddValid(rest, cs, s, r, first);
  }

  lemma ValidIds(rolls: seq<Chunk>)
    requires ValidRollups(rolls)
    ensures IdsRise(rolls)
  {
  }

  lemma MergeOneHolds(rolls: seq<Chunk>, run: seq<Chunk>, first: nat, s: int, r: int, b: Bucket)
    requires ValidRollups(rolls) && Adjacent(rolls, run)
    ensures Holds(MergeOne(rolls, run, first), s, r, b) <==> Holds(rolls, s, r, b)
  {
    hide ValidRollups, MergedChunks, FlatMap, Kept, Exact, Chained;
    var ids, cs := RunIds(run), MergedChunks(run, first);
    var now := MergeOne(rolls, run, first);
    MergedShape(rolls, run, first);
    ValidIds(rolls);
    FlatMapMember(cs, BucketsIn, b);
    FlatMapMember(run, BucketsIn, b);
    if Holds(rolls, s, r, b) {
      var c :| c in rolls && InGroup(c, s, r) && b in c.buckets;
      IdDecides(rolls, run, c);
      KeptMember(rolls, ids, c);
      if c in run {
        assert b in BucketsIn(c);
        var d :| d in cs && b in BucketsIn(d);
        assert d in now && InGroup(d, s, r);
      } else {
        assert c in now;
      }
    }
    if Holds(now, s, r, b) {
      var c :| c in now && InGroup(c, s, r) && b in c.buckets;
      if c in cs {
        assert b in BucketsIn(c);
        var d :| d in run && b in BucketsIn(d);
        assert d in rolls && InGroup(d, s, r);
      } else {
        KeptMember(rolls, ids, c);
      }
    }
  }

  /** A merge leaves what every group has stored, and so its watermark, as they
      were. */
  lemma MergeOneKeeps(rolls: seq<Chunk>, run: seq<Chunk>, first: nat, s: int, r: int)
    requires ValidRollups(rolls) && Adjacent(rolls, run) && IdsBelow(rolls, first)
    ensures ValidRollups(MergeOne(rolls, run, first))
    ensures Stored(MergeOne(rolls, run, first), s, r) == Stored(rolls, s, r)
  {
    hide ValidRollups, MergeOne, Stored, Holds, Adjacent, IdsBelow;
    MergeOneValid(rolls, run, first);
    forall b ensures Holds(MergeOne(rolls, run, first), s, r, b) <==> Holds(rolls, s, r, b) {
      MergeOneHolds(rolls, run, first, s, r, b);
    }
    StoredSame(MergeOne(rolls, run, first), rolls, s, r);
  }

  // -------------------------------------------------------------- many merges

  ghost predicate NoneShared(a: seq<Chunk>, b: seq<Chunk>) {
    forall c | c in a :: c !in b
  }

  /** Merging one run leaves the others adjacent. */
  lemma StaysAdjacent(rolls: seq<Chunk>, run: seq<Chunk>, other: seq<Chunk>, first: nat)
    requires ValidRollups(rolls) && Adjacent(rolls, run) && Adjacent(rolls, other)
    requires NoneShared(run, other) && IdsBelow(rolls, first)
    ensures Adjacent(MergeOne(rolls, run, first), other)
  {
    hide ValidRollups, MergedChunks, FlatMap, Kept, Exact, IdsBelow;
    var ids, cs := RunIds(run), MergedChunks(run, first);
    var now := MergeOne(rolls, run, first);
    var s, r := other[0].series, other[0].resolution;
    ValidIds(rolls);
    MergedShape(rolls, run, first);
    forall c | c in other ensures c in now {
      IdDecides(rolls, run, c);
      KeptMember(rolls, ids, c);
    }
    forall c | c in now && InGroup(c, s, r) && c !in other ensures Clear(other, c) {
      if c in cs {
        assert run[0].series == s && run[0].resolution == r;
        OneSide(rolls, run, other);
      } else {
        KeptMember(rolls, ids, c);
      }
    }
  }

  /** Two adjacent runs of a group that share nothing lie side by side. */
  lemma OneSide(rolls: seq<Chunk>, run: seq<Chunk>, other: seq<Chunk>)
    requires ValidRollups(rolls) && Adjacent(rolls, run) && Adjacent(rolls, other) && NoneShared(run, other)
    requires InGroup(run[0], other[0].series, other[0].resolution)
    ensures run[|run| - 1].maxTs < other[0].minTs || other[|other| - 1].maxTs < run[0].minTs
  {
    hide ValidRollups;
    RowsExact(rolls, run);
    RowsExact(rolls, other);
    var a, b, c, d := run[0], run[|run| - 1], other[0], other[|other| - 1];
    assert a in run && b in run && c in other && d in other;
    assert Clear(run, c) && Clear(run, d) && Clear(other, a) && Clear(other, b);
    ChainedBounds(run, a);
    ChainedBounds(run, b);
    ChainedBounds(other, c);
    ChainedBounds(other, d);
  }

  /** Runs merged one after another, under ids given out in turn. */
  function MergeAll(rolls: seq<Chunk>, runs: seq<seq<Chunk>>, first: nat): seq<Chunk> {
    if runs == [] then rolls
    else
      var early := runs[..|runs| - 1];
      MergeOne(MergeAll(rolls, early, first), runs[|runs| - 1], first + |NewChunks(early, first)|)
  }

  function NewChunks(runs: seq<seq<Chunk>>, first: nat): seq<Chunk> {
    if runs == [] then []
    else
      var early := NewChunks(runs[..|runs| - 1], first);
      early + MergedChunks(runs[|runs| - 1], first + |early|)
  }

  ghost predicate Mergeable(rolls: seq<Chunk>, runs: seq<seq<Chunk>>) {
    && (forall run | run in runs :: Adjacent(rolls, run))
    && (forall i, j | 0 <= i < j < |runs| :: NoneShared(runs[i], runs[j]))
  }

  ghost predicate SameStored(a: seq<Chunk>, b: seq<Chunk>) {
    forall s, r :: Stored(a, s, r) == Stored(b, s, r)
  }

  lemma MergeableInit(rolls: seq<Chunk>, runs: seq<seq<Chunk>>)
    requires Mergeable(rolls, runs) && runs != []
    ensures Mergeable(rolls, runs[..|runs| - 1])
  {
    hide Adjacent, NoneShared;
    var early := runs[..|runs| - 1];
    assert forall run | run in early :: run in runs;
  }

  lemma {:induction false} MergeAllAdjacent(rolls: seq<Chunk>, runs: seq<seq<Chunk>>, other: seq<Chunk>, first: nat)
    requires ValidRollups(rolls) && Mergeable(rolls, runs) && IdsBelow(rolls, first) && Adjacent(rolls, other)
    requires forall run | run in runs :: NoneShared(run, other)
    ensures ValidRollups(MergeAll(rolls, runs, first)) && SameStored(MergeAll(rolls, runs, first), rolls)
    ensures IdsBelow(MergeAll(rolls, runs, first), first + |NewChunks(runs, first)|)
    ensures Adjacent(MergeAll(rolls, runs, first), other)
    decreases |runs|
  {
    hide ValidRollups, Stored, Adjacent, MergedChunks, IdsBelow, NoneShared, MergeOne;
    if runs != [] {
      var n := |runs| - 1;
      var early, last := runs[..n], runs[n];
      assert last in runs && forall run | run in early :: run in runs;
      MergeableInit(rolls, runs);
      forall run | run in early ensures NoneShared(run, last) {
        var i :| 0 <= i < n && runs[i] == run;
      }
      MergeAllAdjacent(rolls, early, other, first);
      MergeAllAdjacent(rolls, early, last, first);
      var mid, id := MergeAll(rolls, early, first), first + |NewChunks(early, first)|;
      assert MergeAll(rolls, runs, first) == MergeOne(mid, last, id);
      assert NewChunks(runs, first) == NewChunks(early, first) + MergedChunks(last, id);
      MergeOneValid(mid, last, id);
      forall s, r ensures Stored(MergeOne(mid, last, id), s, r) == Stored(rolls, s, r) {
        MergeOneKeeps(mid, last, id, s, r);
      }
      StaysAdjacent(mid, last, other, id);
    }
  }

  /** Merging any runs that share nothing and have nothing between their
      members keeps everything every group has stored. */
  lemma MergeAllKeeps(rolls: seq<Chunk>, runs: seq<seq<Chunk>>, first: nat)
    requires ValidRollups(rolls) && Mergeable(rolls, runs) && IdsBelow(rolls, first)
    ensures ValidRollups(MergeAll(rolls, runs, first)) && SameStored(MergeAll(rolls, runs, first), rolls)
  {
    hide ValidRollups, Stored, Adjacent, MergedChunks, IdsBelow, NoneShared, MergeOne, MergeAll;
    if runs != [] {
      var n := |runs| - 1;
      var early, last := runs[..n], runs[n];
      assert last in runs;
      MergeableInit(rolls, runs);
      forall run | run in early ensures NoneShared(run, last) {
        var i :| 0 <= i < n && runs[i] == run;
      }
      MergeAllAdjacent(rolls, early, last, first);
      MergeAllLast(rolls, early, last, first);
      var mid, id := MergeAll(rolls, early, first), first + |NewChunks(early, first)|;
      assert runs == early + [last];
      MergeOneValid(mid, last, id);
      forall s, r ensures Stored(MergeOne(mid, last, id), s, r) == Stored(rolls, s, r) {
        MergeOneKeeps(mid, last, id, s, r);
      }
    } else {
      MergeAllNone(rolls, first);
    }
  }

  lemma MergeAllLast(rolls: seq<Chunk>, early: seq<seq<Chunk>>, last: seq<Chunk>, first: nat)
    ensures MergeAll(rolls, early + [last], first) ==
            MergeOne(MergeAll(rolls, early, first), last, first + |NewChunks(early, first)|)
  {
    hide NewChunks, MergeOne;
    assert (early + [last])[..|early|] == early;
  }

  lemma MergeAllNone(rolls: seq<Chunk>, first: nat)
    ensures MergeAll(rolls, [], first) == rolls
  {
  }

  /** Readers see nothing of a merge: the same buckets for every range, and
      the next pass goes on from the same watermark. */
  lemma MergesUnseen(rolls: seq<Chunk>, runs: seq<seq<Chunk>>, first: nat, s: int, r: int, lo: int, hi: int)
    requires ValidRollups(rolls) && Mergeable(rolls, runs) && IdsBelow(rolls, first)
    ensures var now := MergeAll(rolls, runs, first);
            && Query(now, s, r, lo, hi) == Query(rolls, s, r, lo, hi)
            && Watermark(now, s, r) == Watermark(rolls, s, r)
  {
    hide ValidRollups, Stored, MergeAll, Mergeable, IdsBelow, Query, Watermark;
    MergeAllKeeps(rolls, runs, first);
    var now := MergeAll(rolls, runs, first);
    assert Stored(now, s, r) == Stored(rolls, s, r);
    QueryMeaning(now, s, r, lo, hi);
    QueryMeaning(rolls, s, r, lo, hi);
    SameStoredSameWatermark(now, rolls, s, r);
  }
}
