/** Rollup passes over the engine's state: a pass in one go, and the bounded
    steps of a cycle that is taken up where it stopped. */
module RollupCycle {
  import opened Sequences
  import opened ChunkTable
  import opened RollupKernel
  import opened RollupStore
  import opened RollupPass
  import opened RollupScan

  /** What the engine keeps between passes. `series` and `highWater` are what
      the cycle under way read at its start, `cursor` how far it has come. */
  datatype State = State(
    rows: seq<Row>, rolls: seq<Chunk>, tiers: seq<int>,
    settled: map<int, int>, started: Option<Mark>,
    cursor: nat, series: seq<int>, highWater: Option<int>)

  ghost predicate ValidState(st: State) {
    && (forall r | r in st.rows :: WellFormed(r))
    && Timely(st.rows)
    && ValidRollups(st.rolls)
    && (forall r | r in st.tiers :: r > 0)
    && Distinct(st.tiers)
    && Distinct(st.series)
  }

  function EnvOf(st: State, highWater: int): Env {
    Env(st.rows, st.rolls, st.tiers, st.series, highWater, st.settled)
  }

  // ----------------------------------------------------------- what is written

  /** The chunks of a batch under consecutive ids. */
  function Written(rolls: seq<Chunk>, batch: seq<Piece>, first: nat): seq<Chunk>
    requires Full(batch)
  {
    if batch == [] then rolls
    else
      var p := batch[|batch| - 1];
      Written(rolls, batch[..|batch| - 1], first) + [NewChunk(first + |batch| - 1, p.series, p.resolution, p.buckets)]
  }

  ghost predicate IdsBelow(rolls: seq<Chunk>, id: nat) {
    forall c | c in rolls :: c.id < id
  }

  ghost predicate Full(batch: seq<Piece>) {
    forall p | p in batch :: p.buckets != []
  }

  /** What group `k` gains from a visit. */
  function Gained(e: Env, k: nat): seq<Bucket>
    requires Positive(e) && k < Count(e)
  {
    match VisitAt(e, k)
    case Buckets(bs) => bs
    case _ => []
  }

  lemma PiecesAtFull(e: Env, k: nat)
    requires ValidEnv(e) && Positive(e) && k < Count(e)
    ensures Full(PiecesAt(e, k))
  {
    hide Visit, Count, ValidRollups, TierAt, SeriesAt;
    if VisitAt(e, k).Buckets? {
      FoundIsExact(e.rows, e.rolls, SeriesAt(e, k), TierAt(e, k), e.highWater, 0);
    }
  }

  lemma {:induction false} PiecesFull(e: Env, a: nat, b: nat)
    requires ValidEnv(e) && Positive(e) && a <= b <= Count(e)
    ensures Full(Pieces(e, a, b))
  {
    hide Count, ValidEnv, PiecesAt;
    if a < b {
      PiecesFull(e, a, b - 1);
      PiecesAtFull(e, b - 1);
    }
  }

  /** No two ordinals are of one group. */
  lemma GroupsDiffer(e: Env, j: nat, k: nat)
    requires Positive(e) && Distinct(e.tiers) && Distinct(e.series)
    requires j < k < Count(e)
    ensures SeriesAt(e, j) != SeriesAt(e, k) || TierAt(e, j) != TierAt(e, k)
  {
    hide Count, SeriesAt, TierAt;
    AtOrdinal(e, j);
    AtOrdinal(e, k);
    var n := |e.series|;
    DivModDiffer(j, k, n);
    var a, b := j % n, k % n;
    var t, u := j / n, k / n;
    if t == u {
      assert e.series[a] != e.series[b];
    } else {
      assert e.tiers[t] != e.tiers[u];
    }
  }

  lemma AtOrdinal(e: Env, k: nat)
    requires Positive(e) && k < Count(e)
    ensures 0 <= k / |e.series| < |e.tiers| && 0 <= k % |e.series| < |e.series|
    ensures SeriesAt(e, k) == e.series[k % |e.series|] && TierAt(e, k) == e.tiers[k / |e.series|]
  {
    hide Count;
    OrdinalBounds(e, k);
    QuotientNonNegative(k, |e.series|);
  }

  lemma QuotientNonNegative(k: nat, n: nat)
    requires n > 0
    ensures k / n >= 0
  {
  }

  lemma DivModDiffer(j: nat, k: nat, n: nat)
    requires j < k && n > 0
    ensures j / n != k / n || j % n != k % n
  {
    assert j == j / n * n + j % n && k == k / n * n + k % n;
  }

  ghost predicate GroupAt(e: Env, k: nat, s: int, r: int)
    requires Positive(e)
  {
    k < Count(e) && SeriesAt(e, k) == s && TierAt(e, k) == r
  }

  /** The rows after the groups from `a` up to `b` were written: each of them
      gained what its visit found, or nothing where its tier was passed over,
      and no other group changed. */
  ghost predicate Grown(e: Env, a: nat, b: nat, rolls: seq<Chunk>)
    requires Positive(e) && a <= b <= Count(e)
  {
    && ValidRollups(rolls)
    && (forall k: nat | a <= k < b :: Gains(e, k, rolls, Gained(e, k)) || (PassedBy(e, k) && Gains(e, k, rolls, [])))
    && (forall s, r | Outside(e, a, b, s, r) :: Stored(rolls, s, r) == Stored(e.rolls, s, r))
  }

  ghost predicate Gains(e: Env, k: nat, rolls: seq<Chunk>, more: seq<Bucket>)
    requires Positive(e) && k < Count(e)
  {
    Stored(rolls, SeriesAt(e, k), TierAt(e, k)) == Stored(e.rolls, SeriesAt(e, k), TierAt(e, k)) + more
  }

  ghost predicate Outside(e: Env, a: nat, b: nat, s: int, r: int)
    requires Positive(e)
  {
    forall k: nat | a <= k < b :: !GroupAt(e, k, s, r)
  }

  lemma SameStoredSameWatermark(x: seq<Chunk>, y: seq<Chunk>, s: int, r: int)
    requires ValidRollups(x) && ValidRollups(y) && Stored(x, s, r) == Stored(y, s, r)
    ensures Watermark(x, s, r) == Watermark(y, s, r)
  {
    hide ValidRollups, Stored, Watermark;
    WatermarkOfStored(x, s, r);
    WatermarkOfStored(y, s, r);
  }

  lemma GrownOne(e: Env, a: nat, b: nat, rolls: seq<Chunk>, id: nat)
    requires ValidEnv(e) && Positive(e) && a <= b < Count(e)
    requires Grown(e, a, b, rolls) && IdsBelow(rolls, id)
    requires VisitAt(e, b).Buckets? && Gained(e, b) != []
    ensures Grown(e, a, b + 1, rolls + [NewChunk(id, SeriesAt(e, b), TierAt(e, b), Gained(e, b))])
  {
    hide Visit, Watermark, Stored, ValidRollups, Exact, Count, TierAt, SeriesAt, Positive;
    var s, r := SeriesAt(e, b), TierAt(e, b);
    var c := NewChunk(id, s, r, Gained(e, b));
    FoundIsExact(e.rows, e.rolls, s, r, e.highWater, id);
    assert Outside(e, a, b, s, r) by {
      forall k: nat | a <= k < b ensures !GroupAt(e, k, s, r) {
        GroupsDiffer(e, k, b);
      }
    }
    SameStoredSameWatermark(rolls, e.rolls, s, r);
    AppendChunk(rolls, c);
    forall k: nat | a <= k < b
      ensures Stored(rolls + [c], SeriesAt(e, k), TierAt(e, k)) == Stored(rolls, SeriesAt(e, k), TierAt(e, k))
    {
      GroupsDiffer(e, k, b);
      assert !InGroup(c, SeriesAt(e, k), TierAt(e, k));
    }
    assert Gains(e, b, rolls + [c], Gained(e, b));
    forall k: nat | a <= k < b + 1
      ensures Gains(e, k, rolls + [c], Gained(e, k)) || (PassedBy(e, k) && Gains(e, k, rolls + [c], []))
    {
    }
    forall s', r' | Outside(e, a, b + 1, s', r')
      ensures Stored(rolls + [c], s', r') == Stored(e.rolls, s', r')
    {
      assert !GroupAt(e, b, s', r');
      assert Outside(e, a, b, s', r');
      assert !InGroup(c, s', r');
    }
  }

  lemma GrownNone(e: Env, a: nat, b: nat, rolls: seq<Chunk>)
    requires Positive(e) && a <= b < Count(e) && Grown(e, a, b, rolls)
    requires Distinct(e.tiers) && Distinct(e.series)
    requires !VisitAt(e, b).Buckets? || PassedBy(e, b)
    ensures Grown(e, a, b + 1, rolls)
  {
    hide Visit, Stored, ValidRollups, Count, TierAt, SeriesAt, Positive;
    assert Outside(e, a, b, SeriesAt(e, b), TierAt(e, b)) by {
      forall k: nat | a <= k < b ensures !GroupAt(e, k, SeriesAt(e, b), TierAt(e, b)) {
        GroupsDiffer(e, k, b);
      }
    }
    var was := Stored(e.rolls, SeriesAt(e, b), TierAt(e, b));
    assert was + [] == was;
    assert Gains(e, b, rolls, []);
    assert !VisitAt(e, b).Buckets? ==> Gained(e, b) == [];
    forall s, r | Outside(e, a, b + 1, s, r) ensures Stored(rolls, s, r) == Stored(e.rolls, s, r) {
      assert Outside(e, a, b, s, r);
    }
  }

  lemma WritingGrowsOne(e: Env, a: nat, b: nat, batch: seq<Piece>, first: nat)
    requires ValidEnv(e) && Positive(e) && a <= b < Count(e) && Full(batch) && Full(batch + PiecesAt(e, b))
    requires Grown(e, a, b, Written(e.rolls, batch, first))
    requires IdsBelow(Written(e.rolls, batch, first), first + |batch|)
    ensures Grown(e, a, b + 1, Written(e.rolls, batch + PiecesAt(e, b), first))
    ensures IdsBelow(Written(e.rolls, batch + PiecesAt(e, b), first), first + |batch + PiecesAt(e, b)|)
  {
    hide Visit, Stored, ValidRollups, Count, TierAt, SeriesAt, Positive, Outside, Grown, Full, Written;
    var rolls := Written(e.rolls, batch, first);
    if VisitAt(e, b).Buckets? {
      var p := PiecesAt(e, b)[0];
      PiecesAtFull(e, b);
      FullHas(PiecesAt(e, b), p);
      GrownOne(e, a, b, rolls, first + |batch|);
      WrittenLast(e.rolls, batch, p, first);
    } else {
      GrownNone(e, a, b, rolls);
      assert batch + PiecesAt(e, b) == batch;
    }
  }

  /** Writing the pieces of a run of groups grows exactly those groups. */
  lemma {:induction false} WritingGrows(e: Env, a: nat, b: nat, first: nat)
    requires ValidEnv(e) && Positive(e) && a <= b <= Count(e) && IdsBelow(e.rolls, first)
    requires Full(Pieces(e, a, b))
    ensures Grown(e, a, b, Written(e.rolls, Pieces(e, a, b), first))
    ensures IdsBelow(Written(e.rolls, Pieces(e, a, b), first), first + |Pieces(e, a, b)|)
  {
    hide Visit, ValidEnv, Count, Positive, Grown, Full, PiecesAt;
    if a == b {
      GrownStart(e, a);
    } else {
      PiecesFull(e, a, b - 1);
      WritingGrows(e, a, b - 1, first);
      WritingGrowsOne(e, a, b - 1, Pieces(e, a, b - 1), first);
    }
  }

  lemma FullHas(batch: seq<Piece>, p: Piece)
    requires Full(batch) && p in batch
    ensures p.buckets != []
  {
  }

  lemma WrittenLast(rolls: seq<Chunk>, batch: seq<Piece>, p: Piece, first: nat)
    requires Full(batch) && p.buckets != [] && Full(batch + [p])
    ensures Written(rolls, batch + [p], first) ==
            Written(rolls, batch, first) + [NewChunk(first + |batch|, p.series, p.resolution, p.buckets)]
  {
    assert (batch + [p])[..|batch|] == batch;
  }

  lemma GrownStart(e: Env, a: nat)
    requires ValidEnv(e) && Positive(e) && a <= Count(e)
    ensures Grown(e, a, a, e.rolls)
  {
    hide Stored, ValidRollups, Count;
  }

  // ------------------------------------------------ what growing leaves undone

  /** A group that was visited has nothing unrolled any more. */
  lemma GrownIsRolledUp(e: Env, a: nat, b: nat, rolls: seq<Chunk>, k: nat)
    requires ValidEnv(e) && Positive(e) && a <= k < b <= Count(e)
    requires Grown(e, a, b, rolls) && !VisitAt(e, k).TooEarly? && !PassedBy(e, k)
    requires ProduceTo(e.highWater, TierAt(e, k)).Some?
    ensures !Unrolled(e.rows, rolls, SeriesAt(e, k), TierAt(e, k), ProduceTo(e.highWater, TierAt(e, k)).value)
  {
    hide Visit, Watermark, Stored, ValidRollups, Exact, Count, TierAt, SeriesAt, Positive, ProduceTo, Contents;
    var s, r := SeriesAt(e, k), TierAt(e, k);
    assert Gains(e, k, rolls, Gained(e, k));
    if VisitAt(e, k).Nothing? {
      VisitNothing(e.rows, e.rolls, s, r, e.highWater);
      assert Stored(e.rolls, s, r) + [] == Stored(e.rolls, s, r);
      SameStoredSameWatermark(rolls, e.rolls, s, r);
    } else {
      var id := FreeId(e.rolls);
      var bs := Gained(e, k);
      VisitRollsUp(e.rows, e.rolls, s, r, e.highWater, id);
      FoundIsExact(e.rows, e.rolls, s, r, e.highWater, id);
      var c := NewChunk(id, s, r, bs);
      AppendChunk(e.rolls, c);
      SameStoredSameWatermark(rolls, e.rolls + [c], s, r);
    }
  }

  /** An id above every one in use. */
  ghost function FreeId(rolls: seq<Chunk>): (id: nat)
    ensures IdsBelow(rolls, id)
  {
    if rolls == [] then 0
    else
      var t, c := rolls[..|rolls| - 1], rolls[|rolls| - 1];
      var id := FreeId(t);
      assert rolls == t + [c];
      if id > c.id then id else c.id + 1
  }

  lemma OutsideSame(e: Env, a: nat, b: nat, rolls: seq<Chunk>, s: int, r: int, to: int)
    requires ValidEnv(e) && Positive(e) && a <= b <= Count(e)
    requires Grown(e, a, b, rolls) && Outside(e, a, b, s, r)
    ensures Unrolled(e.rows, rolls, s, r, to) <==> Unrolled(e.rows, e.rolls, s, r, to)
  {
    hide Watermark, Stored, ValidRollups, Count, Contents;
    SameStoredSameWatermark(rolls, e.rolls, s, r);
  }

  /** A group's coverage only ever grows. */
  lemma GrownMonotone(e: Env, a: nat, b: nat, rolls: seq<Chunk>, s: int, r: int, to: int)
    requires ValidEnv(e) && Positive(e) && a <= b <= Count(e)
    requires Grown(e, a, b, rolls) && Unrolled(e.rows, rolls, s, r, to)
    ensures Unrolled(e.rows, e.rolls, s, r, to)
  {
    hide Watermark, Stored, ValidRollups, Count, Contents, GroupAt, Gained;
    if Outside(e, a, b, s, r) {
      OutsideSame(e, a, b, rolls, s, r, to);
    } else {
      var k: nat :| a <= k < b && GroupAt(e, k, s, r);
      GroupAtMeans(e, k, s, r);
      var x :| x in Contents(e.rows, s) && x.ts <= to && Beyond(Watermark(rolls, s, r), x.ts);
      LongerReachesFurther(e.rolls, rolls, s, r, if Gains(e, k, rolls, Gained(e, k)) then Gained(e, k) else []);
      assert Beyond(Watermark(e.rolls, s, r), x.ts);
    }
  }

  lemma GroupAtMeans(e: Env, k: nat, s: int, r: int)
    requires Positive(e) && GroupAt(e, k, s, r)
    ensures k < Count(e) && SeriesAt(e, k) == s && TierAt(e, k) == r
  {
  }

  lemma LongerReachesFurther(was: seq<Chunk>, now: seq<Chunk>, s: int, r: int, more: seq<Bucket>)
    requires ValidRollups(was) && ValidRollups(now) && Stored(now, s, r) == Stored(was, s, r) + more
    ensures Watermark(was, s, r).Some? ==>
            Watermark(now, s, r).Some? && Watermark(was, s, r).value <= Watermark(now, s, r).value
  {
    hide ValidRollups, Stored, Watermark;
    WatermarkOfStored(was, s, r);
    WatermarkOfStored(now, s, r);
    StoredRising(now, s, r);
    var a, b := Stored(was, s, r), Stored(now, s, r);
    if a != [] {
      assert b[|a| - 1] == a[|a| - 1];
      assert |a| == |b| || b[|a| - 1].ts < b[|b| - 1].ts;
    }
  }

  /** Every group has its ordinal. */
  lemma OrdinalOf(e: Env, t: nat, i: nat) returns (k: nat)
    requires Positive(e) && t < |e.tiers| && i < |e.series|
    ensures k < Count(e) && GroupAt(e, k, e.series[i], e.tiers[t])
  {
    var n := |e.series|;
    k := t * n + i;
    QuotientOf(t, i, n);
    assert k < Count(e) by {
      if t + 1 < |e.tiers| {
        WidthApart(t + 1, |e.tiers|, n);
      }
      assert (t + 1) * n == t * n + n;
    }
    AtOrdinal(e, k);
  }

  lemma QuotientOf(t: nat, i: nat, n: nat)
    requires i < n
    ensures (t * n + i) / n == t && (t * n + i) % n == i
  {
    var k := t * n + i;
    var q, m := k / n, k % n;
    assert k == q * n + m;
    if q < t {
      WidthApart(q, t, n);
    } else if t < q {
      WidthApart(t, q, n);
    }
  }

  /** Once a walk came past every group, no group of the ladder has anything
      unrolled that it had not before, or that its tier was not passed over
      with. */
  lemma AllGroupsRolledUp(e: Env, rolls: seq<Chunk>, s: int, r: int)
    requires ValidEnv(e) && Positive(e) && Grown(e, 0, Count(e), rolls) && Passable(e, 0, Count(e))
    requires r in e.tiers && r > 0 && s in e.series && ProduceTo(e.highWater, r).Some?
    ensures var to := ProduceTo(e.highWater, r).value;
            Unrolled(e.rows, rolls, s, r, to) ==>
            SettledTo(e.settled, e.highWater, r) && Unrolled(e.rows, e.rolls, s, r, to)
  {
    hide Watermark, Stored, ValidRollups, Count, Contents, GroupAt, Gained, Grown, Unrolled, ProduceTo, VisitAt;
    var t :| 0 <= t < |e.tiers| && e.tiers[t] == r;
    var i :| 0 <= i < |e.series| && e.series[i] == s;
    var k := OrdinalOf(e, t, i);
    GroupAtMeans(e, k, s, r);
    var to := ProduceTo(e.highWater, r).value;
    if Unrolled(e.rows, rolls, s, r, to) {
      GrownMonotone(e, 0, Count(e), rolls, s, r, to);
      if !PassedBy(e, k) {
        GrownIsRolledUp(e, 0, Count(e), rolls, k);
        assert false;
      }
    }
  }

  /** Passing over a tier leaves its groups as they were. */
  lemma {:induction false} GrownOver(e: Env, a: nat, b: nat, c: nat, rolls: seq<Chunk>)
    requires ValidEnv(e) && Positive(e) && a <= b <= c <= Count(e) && Grown(e, a, b, rolls)
    requires forall k: nat | b <= k < c :: PassedBy(e, k)
    ensures Grown(e, a, c, rolls)
    decreases c
  {
    hide Grown, PassedBy, Count, ValidRollups, VisitAt;
    if b < c {
      GrownOver(e, a, b, c - 1, rolls);
      GrownNone(e, a, c - 1, rolls);
    }
  }
}
