/** The walk of a rollup pass over its (tier, series) groups: tiers settled to
    their coverage end are passed over, a bounded step stops at its budget and
    is taken up where it stopped. */
module RollupScan {
  import opened Sequences
  import opened ChunkTable
  import opened RollupKernel
  import opened RollupStore
  import opened RollupPass

  const SCAN_FACTOR: nat := 64
  const WATERMARK_STRETCH: nat := 8192

  /** A tier, with the high water its walk began at or the coverage end it is
      settled to. */
  datatype Mark = Mark(resolution: int, at: int)

  datatype Piece = Piece(series: int, resolution: int, buckets: seq<Bucket>)

  /** What one step reads and does not change. */
  datatype Env = Env(
    rows: seq<Row>, rolls: seq<Chunk>, tiers: seq<int>, series: seq<int>,
    highWater: int, settled: map<int, int>)

  ghost predicate ValidEnv(e: Env) {
    && (forall r | r in e.rows :: WellFormed(r))
    && Timely(e.rows)
    && ValidRollups(e.rolls)
    && (forall r | r in e.tiers :: r > 0)
    && Distinct(e.tiers)
    && Distinct(e.series)
  }

  predicate Positive(e: Env) {
    forall r | r in e.tiers :: r > 0
  }

  function Count(e: Env): nat {
    |e.tiers| * |e.series|
  }

  predicate SettledTo(settled: map<int, int>, highWater: int, r: int)
    requires r > 0
  {
    ProduceTo(highWater, r).Some? && r in settled && settled[r] == ProduceTo(highWater, r).value
  }

  lemma OrdinalBounds(e: Env, k: nat)
    requires k < Count(e)
    ensures |e.series| > 0
    ensures k / |e.series| < |e.tiers|
    ensures k / |e.series| * |e.series| <= k < (k / |e.series| + 1) * |e.series| <= Count(e)
  {
    var n, m := |e.series|, |e.tiers|;
    ProductPositive(m, n);
    BucketStartBounds(k, n);
    var t := k / n;
    assert (t + 1) * n == t * n + n;
    if m < t {
      WidthApart(m, t, n);
    } else if t + 1 < m {
      WidthApart(t + 1, m, n);
    }
  }

  lemma ProductPositive(a: nat, b: nat)
    requires a * b > 0
    ensures a > 0 && b > 0
  {
  }

  function TierAt(e: Env, k: nat): (r: int)
    requires Positive(e) && k < Count(e)
    ensures r > 0
  {
    OrdinalBounds(e, k);
    var r := e.tiers[k / |e.series|];
    assert r in e.tiers;
    r
  }

  function SeriesAt(e: Env, k: nat): int
    requires k < Count(e)
  {
    OrdinalBounds(e, k);
    e.series[k % |e.series|]
  }

  function TierEnd(e: Env, k: nat): (end: nat)
    requires k < Count(e)
    ensures k < end <= Count(e)
  {
    OrdinalBounds(e, k);
    (k / |e.series| + 1) * |e.series|
  }

  predicate EntersTier(e: Env, k: nat)
    requires k < Count(e)
  {
    OrdinalBounds(e, k);
    k % |e.series| == 0
  }

  /** Group `k` is of a tier settled to its coverage end. */
  predicate PassedBy(e: Env, k: nat)
    requires Positive(e) && k < Count(e)
  {
    SettledTo(e.settled, e.highWater, TierAt(e, k))
  }

  predicate PassesOver(e: Env, k: nat)
    requires Positive(e) && k < Count(e)
  {
    EntersTier(e, k) && PassedBy(e, k)
  }

  function VisitAt(e: Env, k: nat): Found
    requires Positive(e) && k < Count(e)
  {
    Visit(e.rows, e.rolls, SeriesAt(e, k), TierAt(e, k), e.highWater)
  }

  function PiecesAt(e: Env, k: nat): seq<Piece>
    requires Positive(e) && k < Count(e)
  {
    match VisitAt(e, k)
    case Buckets(bs) => [Piece(SeriesAt(e, k), TierAt(e, k), bs)]
    case _ => []
  }

  /** How far a walk has come, and what it has found. */
  datatype Walk = Walk(at: nat, end: nat, batch: seq<Piece>, settledNow: seq<Mark>, started: Option<Mark>)
    | Failed(started: Option<Mark>)

  predicate Going(e: Env, limit: Option<nat>, w: Walk) {
    w.Walk? && w.at < w.end && (limit.Some? ==> |w.batch| < limit.value)
  }

  ghost predicate WalkOk(e: Env, w: Walk) {
    w.Walk? ==> w.at <= w.end <= Count(e)
  }

  function Earlier(a: nat, b: nat): nat {
    if a < b then a else b
  }

  /** One turn of the loop. */
  function Turn(e: Env, w: Walk): (v: Walk)
    requires Positive(e) && w.Walk? && w.at < w.end <= Count(e)
    ensures WalkOk(e, v)
    ensures v.Walk? ==> w.at < v.at
  {
    var r, end := TierAt(e, w.at), TierEnd(e, w.at);
    if PassesOver(e, w.at) then
      w.(at := end, end := SkipEnd(e, w.at, w.end))
    else
      var started := if EntersTier(e, w.at) then Some(Mark(r, e.highWater)) else w.started;
      if VisitAt(e, w.at).TooEarly? then Failed(started)
      else
        var to := ProduceTo(e.highWater, r);
        var settles := w.at + 1 == end && started == Some(Mark(r, e.highWater)) && to.Some?;
        Walk(w.at + 1, w.end, w.batch + PiecesAt(e, w.at),
             w.settledNow + (if settles then [Mark(r, to.value)] else []), started)
  }

  /** Passing over a tier costs a step none of its scan. */
  function SkipEnd(e: Env, k: nat, end: nat): (r: nat)
    requires k < end <= Count(e) && EntersTier(e, k)
    ensures TierEnd(e, k) <= r <= Count(e)
  {
    OrdinalBounds(e, k);
    EntersAtStart(e, k);
    Earlier(end + |e.series|, Count(e))
  }

  lemma EntersAtStart(e: Env, k: nat)
    requires k < Count(e) && EntersTier(e, k)
    ensures TierEnd(e, k) == k + |e.series|
  {
    OrdinalBounds(e, k);
    var n := |e.series|;
    assert k == k / n * n;
    assert (k / n + 1) * n == k / n * n + n;
  }

  /** The walk to where it stops. */
  function WalkOn(e: Env, limit: Option<nat>, w: Walk): (v: Walk)
    requires Positive(e) && WalkOk(e, w)
    ensures WalkOk(e, v) && !Going(e, limit, v)
    decreases if w.Walk? then Count(e) - w.at else 0
  {
    if Going(e, limit, w) then WalkOn(e, limit, Turn(e, w)) else w
  }

  // ------------------------------------------------------- what a walk finds

  /** The pieces of the groups from `a` up to `b`, in order. */
  function Pieces(e: Env, a: nat, b: nat): seq<Piece>
    requires Positive(e) && a <= b <= Count(e)
  {
    if a == b then [] else Pieces(e, a, b - 1) + PiecesAt(e, b - 1)
  }

  lemma {:induction false} PiecesSplit(e: Env, a: nat, b: nat, c: nat)
    requires Positive(e) && a <= b <= c <= Count(e)
    ensures Pieces(e, a, c) == Pieces(e, a, b) + Pieces(e, b, c)
    decreases c
  {
    hide Count, PiecesAt, Positive;
    if b < c {
      PiecesSplit(e, a, b, c - 1);
      assert Pieces(e, a, c) == Pieces(e, a, c - 1) + PiecesAt(e, c - 1);
      assert Pieces(e, b, c) == Pieces(e, b, c - 1) + PiecesAt(e, c - 1);
    } else {
      assert Pieces(e, a, b) + [] == Pieces(e, a, b);
    }
  }

  lemma {:induction false} PiecesNone(e: Env, a: nat, b: nat)
    requires Positive(e) && a <= b <= Count(e)
    requires forall k: nat | a <= k < b :: PiecesAt(e, k) == []
    ensures Pieces(e, a, b) == []
  {
    if a < b {
      PiecesNone(e, a, b - 1);
    }
  }

  lemma PiecesOne(e: Env, k: nat)
    requires Positive(e) && k < Count(e)
    ensures Pieces(e, k, k + 1) == PiecesAt(e, k)
  {
    assert Pieces(e, k, k) == [];
    assert [] + PiecesAt(e, k) == PiecesAt(e, k);
  }

  /** Every tier said to be settled has nothing unrolled up to there. */
  ghost predicate SettledSound(rows: seq<Row>, rolls: seq<Chunk>, settled: map<int, int>) {
    forall r, s | r in settled :: !Unrolled(rows, rolls, s, r, settled[r])
  }

  lemma SameTier(e: Env, k: nat, j: nat)
    requires Positive(e) && k < Count(e) && k <= j < TierEnd(e, k)
    ensures j < Count(e) && TierAt(e, j) == TierAt(e, k) && TierEnd(e, j) == TierEnd(e, k)
  {
    OrdinalBounds(e, k);
    OrdinalBounds(e, j);
    var n, t, u := |e.series|, k / |e.series|, j / |e.series|;
    if t < u {
      if t + 1 < u {
        WidthApart(t + 1, u, n);
      }
    } else if u < t {
      if u + 1 < t {
        WidthApart(u + 1, t, n);
      }
    }
  }

  lemma Inside(e: Env, j: nat, k: nat)
    requires j < Count(e) && j < k < TierEnd(e, j)
    ensures !EntersTier(e, k)
  {
    OrdinalBounds(e, j);
    OrdinalBounds(e, k);
    var n, t, u := |e.series|, j / |e.series|, k / |e.series|;
    if EntersTier(e, k) {
      assert k == u * n;
      if u <= t {
        if u < t {
          WidthApart(u, t, n);
        }
        assert false;
      } else if t + 1 < u {
        WidthApart(t + 1, u, n);
        assert false;
      }
    }
  }

  /** What is passed over from `from` on is rightly so: a visit of it would
      find nothing. */
  ghost predicate SoundAhead(e: Env, from: nat)
    requires Positive(e)
  {
    forall j: nat | from <= j < Count(e) && PassedBy(e, j) :: VisitAt(e, j).Nothing?
  }

  /** Passing over a tier that is soundly settled loses nothing. */
  lemma SettledIsSoundAhead(e: Env, from: nat)
    requires ValidEnv(e)
    requires SettledSound(e.rows, e.rolls, e.settled)
    ensures SoundAhead(e, from)
  {
    hide Visit, Unrolled, Count, ProduceTo;
    forall j: nat | from <= j < Count(e) && PassedBy(e, j) ensures VisitAt(e, j).Nothing? {
      var r := TierAt(e, j);
      assert r in e.settled;
      assert !Unrolled(e.rows, e.rolls, SeriesAt(e, j), r, e.settled[r]);
      VisitNothing(e.rows, e.rolls, SeriesAt(e, j), r, e.highWater);
    }
  }

  lemma PassedOverIsEmpty(e: Env, k: nat, from: nat)
    requires Positive(e) && from <= k < Count(e) && SoundAhead(e, from)
    requires PassedBy(e, k)
    ensures Pieces(e, k, TierEnd(e, k)) == []
  {
    hide VisitAt, Count;
    forall j: nat | k <= j < TierEnd(e, k) ensures PiecesAt(e, j) == [] {
      SameTier(e, k, j);
    }
    PiecesNone(e, k, TierEnd(e, k));
  }

  lemma TurnFinds(e: Env, w: Walk, from: nat)
    requires Positive(e) && w.Walk? && from <= w.at < w.end <= Count(e)
    requires SoundAhead(e, from)
    requires w.batch == Pieces(e, from, w.at)
    ensures Turn(e, w).Walk? ==> Turn(e, w).batch == Pieces(e, from, Turn(e, w).at)
  {
    hide VisitAt, PiecesAt, Pieces, SoundAhead;
    var v := Turn(e, w);
    if v.Walk? {
      PiecesSplit(e, from, w.at, v.at);
      if PassesOver(e, w.at) {
        PassedOverIsEmpty(e, w.at, from);
        assert w.batch + [] == w.batch;
      } else {
        PiecesOne(e, w.at);
      }
    }
  }

  /** What a walk writes is what visiting every group it came past would
      write, settled tiers passed over or not. */
  lemma {:induction false} WalkFinds(e: Env, limit: Option<nat>, w: Walk, from: nat)
    requires Positive(e) && WalkOk(e, w) && SoundAhead(e, from)
    requires w.Walk? ==> from <= w.at && w.batch == Pieces(e, from, w.at)
    ensures var v := WalkOn(e, limit, w);
            v.Walk? ==> from <= v.at && v.batch == Pieces(e, from, v.at)
    decreases if w.Walk? then Count(e) - w.at else 0
  {
    hide Turn, Pieces, SoundAhead;
    if Going(e, limit, w) {
      TurnFinds(e, w, from);
      WalkFinds(e, limit, Turn(e, w), from);
    }
  }

  // ---------------------------------------------------- what a walk settles

  /** Ordinal `j` is a tier's last, and `m` says the tier is settled. */
  ghost predicate Closes(e: Env, j: nat, m: Mark)
    requires Positive(e)
  {
    && j < Count(e)
    && j + 1 == TierEnd(e, j)
    && m.resolution == TierAt(e, j)
    && ProduceTo(e.highWater, TierAt(e, j)) == Some(m.at)
  }

  ghost predicate ClosedIn(e: Env, a: nat, b: nat, m: Mark)
    requires Positive(e)
  {
    exists j: nat :: a <= j < b && Closes(e, j, m)
  }

  /** Within a tier, the walk of it began at this high water, and it is not one
      to be passed over. */
  ghost predicate InStride(e: Env, at: nat, started: Option<Mark>)
    requires Positive(e)
  {
    at < Count(e) && !EntersTier(e, at) ==> started == Some(Mark(TierAt(e, at), e.highWater)) && !PassedBy(e, at)
  }

  lemma TierEndEnters(e: Env, k: nat)
    requires k < Count(e) && TierEnd(e, k) < Count(e)
    ensures EntersTier(e, TierEnd(e, k))
  {
    OrdinalBounds(e, k);
    MultipleMod(k / |e.series| + 1, |e.series|);
  }

  lemma WithinTier(e: Env, k: nat)
    requires Positive(e) && k + 1 < Count(e) && !EntersTier(e, k + 1)
    ensures TierAt(e, k + 1) == TierAt(e, k) && TierEnd(e, k + 1) == TierEnd(e, k)
  {
    if k + 1 == TierEnd(e, k) {
      TierEndEnters(e, k);
    } else {
      SameTier(e, k, k + 1);
    }
  }

  lemma TurnSettles(e: Env, w: Walk)
    requires Positive(e) && w.Walk? && w.at < w.end <= Count(e)
    ensures Turn(e, w).Walk? ==>
      forall m | m in Turn(e, w).settledNow :: m in w.settledNow || ClosedIn(e, w.at, Turn(e, w).at, m)
  {
    hide VisitAt, PiecesAt, ProduceTo, TierAt, TierEnd, EntersTier;
    var v := Turn(e, w);
    if v.Walk? {
      forall m | m in v.settledNow && m !in w.settledNow ensures ClosedIn(e, w.at, v.at, m) {
        assert Closes(e, w.at, m);
      }
    }
  }

  lemma TurnInStride(e: Env, w: Walk)
    requires Positive(e) && w.Walk? && w.at < w.end <= Count(e) && InStride(e, w.at, w.started)
    ensures Turn(e, w).Walk? ==> InStride(e, Turn(e, w).at, Turn(e, w).started)
  {
    hide VisitAt, PiecesAt, ProduceTo, TierAt, TierEnd, EntersTier, Count;
    var v := Turn(e, w);
    if v.Walk? && v.at < Count(e) {
      if PassesOver(e, w.at) {
        TierEndEnters(e, w.at);
      } else if !EntersTier(e, v.at) {
        WithinTier(e, w.at);
      }
    }
  }

  lemma ClosedInWider(e: Env, a: nat, b: nat, c: nat, d: nat, m: Mark)
    requires Positive(e) && c <= a && b <= d && ClosedIn(e, a, b, m)
    ensures ClosedIn(e, c, d, m)
  {
    hide Closes;
  }

  /** A walk settles only tiers whose last group it came past. */
  lemma {:induction false} WalkSettles(e: Env, limit: Option<nat>, w: Walk, from: nat)
    requires Positive(e) && WalkOk(e, w)
    requires w.Walk? ==> from <= w.at && forall m | m in w.settledNow :: ClosedIn(e, from, w.at, m)
    ensures var v := WalkOn(e, limit, w);
            v.Walk? ==> forall m | m in v.settledNow :: ClosedIn(e, from, v.at, m)
    decreases if w.Walk? then Count(e) - w.at else 0
  {
    hide Turn, ClosedIn, Count;
    if Going(e, limit, w) {
      var v := Turn(e, w);
      TurnSettles(e, w);
      if v.Walk? {
        forall m | m in v.settledNow ensures ClosedIn(e, from, v.at, m) {
          if m in w.settledNow {
            ClosedInWider(e, from, w.at, from, v.at, m);
          } else {
            ClosedInWider(e, w.at, v.at, from, v.at, m);
          }
        }
      }
      WalkSettles(e, limit, v, from);
    }
  }

  lemma {:induction false} WalkInStride(e: Env, limit: Option<nat>, w: Walk)
    requires Positive(e) && WalkOk(e, w)
    requires w.Walk? ==> InStride(e, w.at, w.started)
    ensures var v := WalkOn(e, limit, w); v.Walk? ==> w.Walk? && w.at <= v.at && InStride(e, v.at, v.started)
    decreases if w.Walk? then Count(e) - w.at else 0
  {
    hide Turn, InStride, Count;
    if Going(e, limit, w) {
      TurnInStride(e, w);
      WalkInStride(e, limit, Turn(e, w));
    }
  }

  // A tier is settled only if the whole of it was walked at this high water.

  /** The first group of the tier of group `k`. */
  function TierFirst(e: Env, k: nat): int
    requires k < Count(e)
  {
    TierEnd(e, k) - |e.series|
  }

  /** Within a tier the walk entered it knows that it did; within the tier it was
      taken up in it knows what it was given. */
  ghost predicate Knows(e: Env, from: nat, given: Option<Mark>, at: nat, started: Option<Mark>)
    requires Positive(e)
  {
    at < Count(e) && !EntersTier(e, at) ==>
      started == if TierFirst(e, at) >= from then Some(Mark(TierAt(e, at), e.highWater)) else given
  }

  /** The tier was entered since `from`, or said to be begun at this high water. */
  ghost predicate WalkedWhole(e: Env, from: nat, given: Option<Mark>, b: nat, m: Mark)
    requires Positive(e)
  {
    exists j: nat :: from <= j < b && Closes(e, j, m) &&
      (TierFirst(e, j) >= from || given == Some(Mark(m.resolution, e.highWater)))
  }

  lemma TurnKnows(e: Env, w: Walk, from: nat, given: Option<Mark>)
    requires Positive(e) && w.Walk? && from <= w.at < w.end <= Count(e) && Knows(e, from, given, w.at, w.started)
    ensures Turn(e, w).Walk? ==> Knows(e, from, given, Turn(e, w).at, Turn(e, w).started)
  {
    hide VisitAt, PiecesAt, ProduceTo, TierAt, TierEnd, EntersTier, Count;
    var v := Turn(e, w);
    if v.Walk? && v.at < Count(e) {
      if PassesOver(e, w.at) {
        TierEndEnters(e, w.at);
      } else if !EntersTier(e, v.at) {
        WithinTier(e, w.at);
        if EntersTier(e, w.at) {
          EntersAtStart(e, w.at);
        }
      }
    }
  }

  lemma TurnSettlesWhole(e: Env, w: Walk, from: nat, given: Option<Mark>)
    requires Positive(e) && w.Walk? && from <= w.at < w.end <= Count(e) && Knows(e, from, given, w.at, w.started)
    ensures Turn(e, w).Walk? ==>
      forall m | m in Turn(e, w).settledNow :: m in w.settledNow || WalkedWhole(e, from, given, Turn(e, w).at, m)
  {
    hide VisitAt, PiecesAt, ProduceTo, TierAt, TierEnd, EntersTier, Count;
    var v := Turn(e, w);
    if v.Walk? {
      forall m | m in v.settledNow && m !in w.settledNow ensures WalkedWhole(e, from, given, v.at, m) {
        assert Closes(e, w.at, m);
        if EntersTier(e, w.at) {
          EntersAtStart(e, w.at);
        }
      }
    }
  }

  lemma WalkedWholeWider(e: Env, from: nat, given: Option<Mark>, b: nat, d: nat, m: Mark)
    requires Positive(e) && b <= d && WalkedWhole(e, from, given, b, m)
    ensures WalkedWhole(e, from, given, d, m)
  {
    hide Closes;
  }

  /** Every tier a walk settles it entered itself, or was told that its walk began
      at this high water. */
  lemma {:induction false} WalkSettlesWhole(e: Env, limit: Option<nat>, w: Walk, from: nat, given: Option<Mark>)
    requires Positive(e) && WalkOk(e, w)
    requires w.Walk? ==>
      && from <= w.at && Knows(e, from, given, w.at, w.started)
      && forall m | m in w.settledNow :: WalkedWhole(e, from, given, w.at, m)
    ensures var v := WalkOn(e, limit, w);
            v.Walk? ==> forall m | m in v.settledNow :: WalkedWhole(e, from, given, v.at, m)
    decreases if w.Walk? then Count(e) - w.at else 0
  {
    hide Turn, WalkedWhole, Count, Knows;
    if Going(e, limit, w) {
      var v := Turn(e, w);
      TurnKnows(e, w, from, given);
      TurnSettlesWhole(e, w, from, given);
      if v.Walk? {
        forall m | m in v.settledNow ensures WalkedWhole(e, from, given, v.at, m) {
          if m in w.settledNow {
            WalkedWholeWider(e, from, given, w.at, v.at, m);
          }
        }
      }
      WalkSettlesWhole(e, limit, v, from, given);
    }
  }

  /** Marks the walk owes: those of the unsettled tiers it closed. */
  ghost predicate Owed(e: Env, from: nat, at: nat, settledNow: seq<Mark>)
    requires Positive(e)
  {
    forall j: nat, m: Mark | from <= j < at && Closes(e, j, m) && !SettledTo(e.settled, e.highWater, m.resolution)
      :: m in settledNow
  }

  lemma TurnOwes(e: Env, w: Walk, from: nat)
    requires Positive(e) && w.Walk? && from <= w.at < w.end <= Count(e)
    requires InStride(e, w.at, w.started) && Owed(e, from, w.at, w.settledNow)
    ensures Turn(e, w).Walk? ==> Owed(e, from, Turn(e, w).at, Turn(e, w).settledNow)
  {
    hide VisitAt, PiecesAt, ProduceTo, TierAt, TierEnd, EntersTier, Count;
    var v := Turn(e, w);
    if v.Walk? {
      forall j: nat, m: Mark | from <= j < v.at && Closes(e, j, m) && !SettledTo(e.settled, e.highWater, m.resolution)
        ensures m in v.settledNow
      {
        if j < w.at {
          assert m in w.settledNow;
        } else if PassesOver(e, w.at) {
          SameTier(e, w.at, j);
          assert false;
        }
      }
    }
  }

  /** A walk settles every tier it closes that was not settled. */
  lemma {:induction false} WalkOwes(e: Env, limit: Option<nat>, w: Walk, from: nat)
    requires Positive(e) && WalkOk(e, w)
    requires w.Walk? ==> from <= w.at && InStride(e, w.at, w.started) && Owed(e, from, w.at, w.settledNow)
    ensures var v := WalkOn(e, limit, w); v.Walk? ==> Owed(e, from, v.at, v.settledNow)
    decreases if w.Walk? then Count(e) - w.at else 0
  {
    hide Turn, InStride, Owed, Count;
    if Going(e, limit, w) {
      TurnInStride(e, w);
      TurnOwes(e, w, from);
      WalkOwes(e, limit, Turn(e, w), from);
    }
  }

  // -------------------------------------------------------- where it stops

  ghost predicate Smooth(e: Env, a: nat, b: nat)
    requires Positive(e)
  {
    forall k: nat | a <= k < b && k < Count(e) :: !VisitAt(e, k).TooEarly?
  }

  /** A walk fails only at a group whose buckets would start too early. */
  lemma {:induction false} WalkFails(e: Env, limit: Option<nat>, w: Walk)
    requires Positive(e) && WalkOk(e, w) && w.Walk? && Smooth(e, w.at, Count(e))
    ensures WalkOn(e, limit, w).Walk?
    decreases Count(e) - w.at
  {
    hide VisitAt, PiecesAt, ProduceTo, TierAt, TierEnd, EntersTier, Count;
    if Going(e, limit, w) {
      WalkFails(e, limit, Turn(e, w));
    }
  }

  /** Without a budget a walk comes to the end. */
  lemma {:induction false} WalkToEnd(e: Env, w: Walk)
    requires Positive(e) && WalkOk(e, w) && w.Walk? && w.end == Count(e)
    ensures var v := WalkOn(e, None, w); v.Walk? ==> v.at == Count(e)
    decreases Count(e) - w.at
  {
    hide VisitAt, PiecesAt, ProduceTo, TierAt, TierEnd, EntersTier, Count;
    if Going(e, None, w) {
      var v := Turn(e, w);
      if v.Walk? {
        WalkToEnd(e, v);
      }
    }
  }

  /** Such groups are met only in tiers that are passed over. */
  ghost predicate Passable(e: Env, a: nat, b: nat)
    requires Positive(e)
  {
    forall k: nat | a <= k < b && k < Count(e) :: VisitAt(e, k).TooEarly? ==> PassedBy(e, k)
  }

  lemma PassableIsSmooth(e: Env, a: nat, b: nat)
    requires Positive(e) && SoundAhead(e, a) && Passable(e, a, b)
    ensures Smooth(e, a, b)
  {
    hide VisitAt, Count, TierAt, ProduceTo;
  }

  lemma TurnPassable(e: Env, w: Walk, from: nat)
    requires Positive(e) && w.Walk? && from <= w.at < w.end <= Count(e) && Passable(e, from, w.at)
    ensures Turn(e, w).Walk? ==> Passable(e, from, Turn(e, w).at)
  {
    hide VisitAt, PiecesAt, ProduceTo, TierAt, TierEnd, EntersTier, Count;
    var v := Turn(e, w);
    if v.Walk? && PassesOver(e, w.at) {
      forall k: nat | w.at <= k < v.at ensures k < Count(e) && PassedBy(e, k) {
        SameTier(e, w.at, k);
      }
    }
  }

  /** A walk that did not fail came past no such group but in tiers it passed
      over. */
  lemma {:induction false} WalkPassable(e: Env, limit: Option<nat>, w: Walk, from: nat)
    requires Positive(e) && WalkOk(e, w)
    requires w.Walk? ==> from <= w.at && Passable(e, from, w.at)
    ensures var v := WalkOn(e, limit, w); v.Walk? ==> from <= v.at && Passable(e, from, v.at)
    decreases if w.Walk? then Count(e) - w.at else 0
  {
    hide Turn, Passable, Count;
    if Going(e, limit, w) {
      TurnPassable(e, w, from);
      WalkPassable(e, limit, Turn(e, w), from);
    }
  }
}
