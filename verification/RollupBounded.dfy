/** A cycle of bounded steps against a pass in one go: where nothing comes
    between its steps it ends, and in the same state. */
module RollupBounded {
  import opened Sequences
  import opened ChunkTable
  import opened RollupStore
  import opened RollupPass
  import opened RollupScan
  import opened RollupCycle
  import opened RollupStep
  import opened RollupSettled

  // --------------------------------------------------------- tiers still ahead

  ghost predicate TierAhead(e: Env, k: nat, r: int)
    requires Positive(e)
  {
    exists j: nat :: k <= j < Count(e) && TierAt(e, j) == r
  }

  /** A tier that was closed lies behind. */
  lemma ClosedIsBehind(e: Env, a: nat, k: nat, m: Mark)
    requires Positive(e) && Distinct(e.tiers) && ClosedIn(e, a, k, m)
    ensures !TierAhead(e, k, m.resolution)
  {
    hide ProduceTo, Count;
    var i: nat :| a <= i < k && Closes(e, i, m);
    forall j: nat | k <= j < Count(e) ensures TierAt(e, j) != m.resolution {
      TiersDiffer(e, i, j);
    }
  }

  lemma TiersDiffer(e: Env, i: nat, j: nat)
    requires Positive(e) && Distinct(e.tiers) && i < j < Count(e) && TierEnd(e, i) <= j
    ensures TierAt(e, i) != TierAt(e, j)
  {
    hide Count;
    AtOrdinal(e, i);
    AtOrdinal(e, j);
    OrdinalBounds(e, i);
    OrdinalBounds(e, j);
    var t, u := i / |e.series|, j / |e.series|;
    assert t != u;
    assert e.tiers[t] != e.tiers[u];
  }

  /** The settled ends the rest of a cycle will go by are true. */
  ghost predicate AheadSound(b: State, k: nat)
    requires b.highWater.Some? && EnvPositive(b)
  {
    forall r, s | r in b.settled && TierAhead(EnvOf(b, b.highWater.value), k, r) ::
      !Unrolled(b.rows, b.rolls, s, r, b.settled[r])
  }

  lemma AheadSoundServes(b: State, k: nat)
    requires Ready(b) && EnvPositive(b) && AheadSound(b, k)
    ensures SoundAhead(EnvOf(b, b.highWater.value), k)
  {
    hide Visit, Unrolled, Count, ProduceTo, ValidRollups;
    var e := EnvOf(b, b.highWater.value);
    forall j: nat | k <= j < Count(e) && PassedBy(e, j) ensures VisitAt(e, j).Nothing? {
      var r := TierAt(e, j);
      assert TierAhead(e, k, r);
      assert !Unrolled(e.rows, e.rolls, SeriesAt(e, j), r, e.settled[r]);
      VisitNothing(e.rows, e.rolls, SeriesAt(e, j), r, e.highWater);
    }
  }

  lemma WalkedAheadSound(b: State, next: State, from: nat, to: nat)
    requires Ready(b) && EnvPositive(b) && Walked(b, next, from, to) && AheadSound(b, from)
    requires next.highWater.Some? && EnvPositive(next)
    ensures AheadSound(next, to)
  {
    hide Unrolled, Count, ProduceTo, ValidRollups, Grown, Passable, ClosedIn;
    var w := b.highWater.value;
    var e, f := EnvOf(b, w), EnvOf(next, w);
    EnvValid(b, w);
    forall r, s | r in next.settled && TierAhead(f, to, r)
      ensures !Unrolled(next.rows, next.rolls, s, r, next.settled[r])
    {
      AheadSame(e, f, from, to, r);
      if r in b.settled && next.settled[r] == b.settled[r] {
        assert !Unrolled(b.rows, b.rolls, s, r, b.settled[r]);
        if Unrolled(next.rows, next.rolls, s, r, next.settled[r]) {
          GrownMonotone(e, from, to, next.rolls, s, r, next.settled[r]);
        }
      } else {
        ClosedIsBehind(e, from, to, Mark(r, next.settled[r]));
      }
    }
  }

  lemma AheadSame(e: Env, f: Env, from: nat, to: nat, r: int)
    requires Positive(e) && Positive(f) && f.tiers == e.tiers && f.series == e.series && from <= to
    requires TierAhead(f, to, r)
    ensures TierAhead(e, to, r) && TierAhead(e, from, r)
  {
    var j: nat :| to <= j < Count(f) && TierAt(f, j) == r;
    assert Count(e) == Count(f) && TierAt(e, j) == r;
  }

  // ------------------------------------------------- how a step gets on

  lemma TurnAdvances(e: Env, w: Walk)
    requires Positive(e) && w.Walk? && w.at < w.end <= Count(e) && Turn(e, w).Walk?
    ensures Turn(e, w).at > w.at
  {
  }

  lemma {:induction false} WalkAdvances(e: Env, limit: Option<nat>, w: Walk)
    requires Positive(e) && WalkOk(e, w) && w.Walk?
    ensures var v := WalkOn(e, limit, w);
            v.Walk? ==> w.at <= v.at && (Going(e, limit, w) ==> w.at < v.at)
    decreases Count(e) - w.at
  {
    hide Turn, Count;
    if Going(e, limit, w) {
      var v := Turn(e, w);
      if v.Walk? {
        TurnAdvances(e, w);
        WalkAdvances(e, limit, v);
      }
    }
  }

  /** A step with a budget comes at least one group further, so a cycle takes
      no more steps than there are groups. */
  lemma StepAdvances(b: State, budget: nat)
    requires Ready(b) && EnvPositive(b) && budget > 0
    requires b.cursor < Count(EnvOf(b, b.highWater.value))
    requires LastWalk(b, Some(budget)).Walk?
    ensures b.cursor < LastWalk(b, Some(budget)).at
  {
    hide Count, WalkOn;
    var e := EnvOf(b, b.highWater.value);
    WalkAdvances(e, Some(budget), FirstWalk(e, Some(budget), b.cursor, b.started));
  }

  // ------------------------------------------------------ how much a step does

  /** How many groups from `a` up to `b` are of a tier not passed over. */
  function Open(e: Env, a: nat, b: nat): nat
    requires Positive(e) && a <= b <= Count(e)
    decreases b
  {
    if a == b then 0 else Open(e, a, b - 1) + (if PassedBy(e, b - 1) then 0 else 1)
  }

  lemma {:induction false} OpenOver(e: Env, a: nat, b: nat, c: nat)
    requires Positive(e) && a <= b <= c <= Count(e) && forall k: nat | b <= k < c :: PassedBy(e, k)
    ensures Open(e, a, c) == Open(e, a, b)
    decreases c
  {
    hide PassedBy, Count;
    if b < c {
      OpenOver(e, a, b, c - 1);
    }
  }

  /** Of the groups come past, `skipped` were passed over; passing over costs
      none of the scan. */
  ghost predicate Spent(e: Env, w: Walk, from: nat, n: nat, skipped: nat)
    requires Positive(e)
  {
    && w.Walk? && from <= w.at <= w.end <= Count(e) && |w.batch| <= n
    && w.end == Earlier(from + 64 * n + skipped, Count(e))
    && skipped + Open(e, from, w.at) <= w.at - from
  }

  lemma TurnSpends(e: Env, w: Walk, from: nat, n: nat, skipped: nat) returns (more: nat)
    requires Positive(e) && Spent(e, w, from, n, skipped) && w.at < w.end && |w.batch| < n && Turn(e, w).Walk?
    ensures Spent(e, Turn(e, w), from, n, more)
  {
    hide VisitAt, ProduceTo, TierAt, TierEnd, EntersTier, Count, PassedBy;
    var v := Turn(e, w);
    if PassesOver(e, w.at) {
      EntersAtStart(e, w.at);
      PassesWhole(e, w.at);
      OpenOver(e, from, w.at, v.at);
      more := skipped + |e.series|;
    } else {
      more := skipped;
    }
  }

  lemma {:induction false} WalkSpends(e: Env, n: nat, w: Walk, from: nat, skipped: nat) returns (more: nat)
    requires Positive(e) && Spent(e, w, from, n, skipped) && WalkOn(e, Some(n), w).Walk?
    ensures Spent(e, WalkOn(e, Some(n), w), from, n, more)
    decreases Count(e) - w.at
  {
    hide Turn, Count, Spent;
    more := skipped;
    SpentWalk(e, w, from, n, skipped);
    if Going(e, Some(n), w) {
      var v := Turn(e, w);
      WalkedFurther(e, Some(n), v);
      more := TurnSpends(e, w, from, n, skipped);
      more := WalkSpends(e, n, v, from, more);
    }
  }

  lemma SpentWalk(e: Env, w: Walk, from: nat, n: nat, skipped: nat)
    requires Positive(e) && Spent(e, w, from, n, skipped)
    ensures w.Walk? && WalkOk(e, w)
  {
  }

  /** A step with a budget writes no more pieces than that and looks at no more
      than 64 times as many groups, tiers passed over aside; and it stops short
      of the end only when it has done the one or the other. */
  lemma StepDoes(b: State, budget: nat)
    requires Ready(b) && EnvPositive(b) && LastWalk(b, Some(budget)).Walk?
    ensures var e, w, from := EnvOf(b, b.highWater.value), LastWalk(b, Some(budget)), StartOf(b, Some(budget));
            && from <= w.at <= Count(e)
            && |w.batch| <= budget && Open(e, from, w.at) <= 64 * budget
            && (w.at < Count(e) ==> |w.batch| == budget || w.at - from >= 64 * budget)
  {
    hide WalkOn, Count;
    var e, from := EnvOf(b, b.highWater.value), StartOf(b, Some(budget));
    var w := FirstWalk(e, Some(budget), b.cursor, b.started);
    assert Spent(e, w, from, budget, 0);
    var skipped := WalkSpends(e, budget, w, from, 0);
  }

  // ------------------------------------------- steps of a cycle, none between

  /** `next` follows `b` by a step of its cycle that leaves more to do. */
  ghost predicate Steps(b: State, budget: nat, first: nat, next: State) {
    && Ready(b) && EnvPositive(b) && budget > 0 && IdsBelow(b.rolls, first)
    && LastWalk(b, Some(budget)).Walk? && Full(LastWalk(b, Some(budget)).batch)
    && Finish(b, Some(budget), first) == Done(next, LastWalk(b, Some(budget)).batch, true)
  }

  /** How far a cycle has come: the groups before `k` are written as a pass
      from `b0` writes them, and the rest of it can be relied on. */
  ghost predicate Partway(b0: State, b: State, k: nat, first: nat)
    requires Ready(b0) && EnvPositive(b0)
  {
    var e := EnvOf(b0, b0.highWater.value);
    && Ready(b) && EnvPositive(b)
    && b.rows == b0.rows && b.tiers == b0.tiers && b.series == b0.series && b.highWater == b0.highWater
    && k <= Count(e)
    && Full(Pieces(e, 0, k))
    && b.rolls == Written(b0.rolls, Pieces(e, 0, k), first)
    && Grown(e, 0, k, b.rolls)
    && Smooth(e, 0, k)
    && IdsBelow(b.rolls, first + |Pieces(e, 0, k)|)
    && AheadSound(b, k)
  }

  lemma SameVisitAhead(e: Env, f: Env, k: nat, j: nat)
    requires ValidEnv(e) && Positive(e) && Positive(f)
    requires f == e.(rolls := f.rolls, settled := f.settled)
    requires k <= j < Count(e) && Grown(e, 0, k, f.rolls)
    ensures j < Count(f) && VisitAt(f, j) == VisitAt(e, j)
  {
    hide Watermark, Stored, ValidRollups, RangeQuery, Count, Gained, ProduceTo, SeriesAt, TierAt;
    SameShape(e, f, j);
    var s, r := SeriesAt(e, j), TierAt(e, j);
    assert Outside(e, 0, k, s, r) by {
      forall i: nat | 0 <= i < k ensures !GroupAt(e, i, s, r) {
        GroupsDiffer(e, i, j);
      }
    }
    SameStoredSameWatermark(f.rolls, e.rolls, s, r);
  }

  lemma SameShape(e: Env, f: Env, j: nat)
    requires Positive(e) && Positive(f) && f.tiers == e.tiers && f.series == e.series && j < Count(e)
    ensures j < Count(f) && SeriesAt(f, j) == SeriesAt(e, j) && TierAt(f, j) == TierAt(e, j)
  {
  }

  lemma {:induction false} SamePieces(e: Env, f: Env, k: nat, a: nat, b: nat)
    requires ValidEnv(e) && Positive(e) && Positive(f)
    requires f == e.(rolls := f.rolls, settled := f.settled)
    requires k <= a <= b <= Count(e) && Grown(e, 0, k, f.rolls)
    ensures b <= Count(f) && Pieces(f, a, b) == Pieces(e, a, b)
  {
    hide Grown, VisitAt, ValidEnv, SeriesAt, TierAt;
    assert Count(f) == Count(e);
    if a < b {
      SamePieces(e, f, k, a, b - 1);
      SameVisitAhead(e, f, k, b - 1);
      SameShape(e, f, b - 1);
    }
  }

  lemma {:induction false} WrittenConcat(rolls: seq<Chunk>, x: seq<Piece>, y: seq<Piece>, first: nat)
    requires Full(x) && Full(y) && Full(x + y)
    ensures Written(rolls, x + y, first) == Written(Written(rolls, x, first), y, first + |x|)
    decreases |y|
  {
    hide Full;
    if y == [] {
      assert x + y == x;
    } else {
      var t, p := y[..|y| - 1], y[|y| - 1];
      assert (x + y)[..|x + y| - 1] == x + t;
      assert y == t + [p];
      FullParts(x, t, p);
      assert x + y == (x + t) + [p];
      WrittenConcat(rolls, x, t, first);
      WrittenLast(rolls, x + t, p, first);
      WrittenLast(Written(rolls, x, first), t, p, first + |x|);
    }
  }

  lemma FullParts(x: seq<Piece>, t: seq<Piece>, p: Piece)
    requires Full(x) && Full(t + [p])
    ensures Full(t) && p.buckets != [] && Full(x + t) && Full((x + t) + [p])
  {
    assert p in t + [p];
    assert forall q | q in t :: q in t + [p];
  }

  /** The walk of a step taken up partway finds what the pass would find
      there, and writing it comes that much further. */
  lemma PartwayWalk(b0: State, b: State, k: nat, first: nat, limit: Option<nat>)
    requires Ready(b0) && EnvPositive(b0) && IdsBelow(b0.rolls, first)
    requires Partway(b0, b, k, first) && StartOf(b, limit) == k
    requires LastWalk(b, limit).Walk?
    ensures var e, w := EnvOf(b0, b0.highWater.value), LastWalk(b, limit);
            && k <= w.at <= Count(e)
            && w.batch == Pieces(e, k, w.at)
            && Pieces(e, 0, w.at) == Pieces(e, 0, k) + w.batch
            && Smooth(e, 0, w.at)
  {
    hide LastWalk, Grown, SoundAhead, Pieces, VisitAt, Written, IdsBelow, AheadSound, ValidState, Full;
    var w := b0.highWater.value;
    var e, f := EnvOf(b0, w), EnvOf(b, w);
    EnvValid(b0, w);
    assert Count(e) == Count(f);
    AheadSoundServes(b, k);
    LastWalkMeans(b, limit);
    var at := LastWalk(b, limit).at;
    SamePieces(e, f, k, k, at);
    PiecesSplit(e, 0, k, at);
    forall j: nat | 0 <= j < at && j < Count(e) ensures !VisitAt(e, j).TooEarly? {
      if j >= k {
        SameVisitAhead(e, f, k, j);
      }
    }
  }

  lemma PartwayWrites(b0: State, b: State, k: nat, at: nat, first: nat)
    requires Ready(b0) && EnvPositive(b0) && IdsBelow(b0.rolls, first)
    requires Partway(b0, b, k, first)
    requires k <= at <= Count(EnvOf(b0, b0.highWater.value))
    ensures var e := EnvOf(b0, b0.highWater.value);
            && Full(Pieces(e, 0, at)) && Full(Pieces(e, k, at))
            && Written(b0.rolls, Pieces(e, 0, at), first) ==
               Written(b.rolls, Pieces(e, k, at), first + |Pieces(e, 0, k)|)
  {
    hide Grown, SoundAhead, Pieces, VisitAt, Written, IdsBelow, AheadSound, Full, Count, Smooth, ValidState;
    var w := b0.highWater.value;
    var e := EnvOf(b0, w);
    EnvValid(b0, w);
    PiecesSplit(e, 0, k, at);
    PiecesFull(e, 0, at);
    PiecesFull(e, k, at);
    WrittenConcat(b0.rolls, Pieces(e, 0, k), Pieces(e, k, at), first);
  }

  /** A step of the cycle keeps it partway along the same pass. */
  lemma StepsPartway(b0: State, b: State, k: nat, first: nat, budget: nat, next: State)
    requires Ready(b0) && EnvPositive(b0) && IdsBelow(b0.rolls, first)
    requires Partway(b0, b, k, first) && k == b.cursor
    requires Steps(b, budget, first + |Pieces(EnvOf(b0, b0.highWater.value), 0, k)|, next)
    ensures k < next.cursor && Partway(b0, next, next.cursor, first)
  {
    hide LastWalk, Grown, SoundAhead, Pieces, VisitAt, Written, IdsBelow, AheadSound, Count, Smooth, Full,
      Settle, ClosedIn, ValidState, Passable;
    var w := b0.highWater.value;
    var e, f := EnvOf(b0, w), EnvOf(b, w);
    var limit := Some(budget);
    SameCount(e, f);
    EnvValid(b0, w);
    PartwayWalk(b0, b, k, first, limit);
    AheadSoundServes(b, k);
    FinishWalks(b, limit, first + |Pieces(e, 0, k)|);
    var at := LastWalk(b, limit).at;
    assert next.cursor == at;
    StepAdvances(b, budget);
    PartwayWrites(b0, b, k, at, first);
    WritingGrows(e, 0, at, first);
    WalkedAheadSound(b, next, k, at);
  }

  lemma SameCount(e: Env, f: Env)
    requires e.tiers == f.tiers && e.series == f.series
    ensures Count(e) == Count(f)
  {
  }

  // ------------------------------------------- a walk taken up is one walk

  /** The walk as far as group `k`. */
  function Until(e: Env, w: Walk, k: nat): (v: Walk)
    requires Positive(e) && WalkOk(e, w)
    ensures WalkOk(e, v)
    decreases if w.Walk? then Count(e) - w.at else 0
  {
    if w.Walk? && w.at < k && w.at < w.end then Until(e, Turn(e, w), k) else w
  }

  lemma {:induction false} UntilMore(e: Env, w: Walk, k: nat, m: nat)
    requires Positive(e) && WalkOk(e, w) && k <= m
    ensures Until(e, Until(e, w, k), m) == Until(e, w, m)
    decreases if w.Walk? then Count(e) - w.at else 0
  {
    hide Turn, Count;
    if w.Walk? && w.at < k && w.at < w.end {
      UntilMore(e, Turn(e, w), k, m);
    }
  }

  lemma {:induction false} UntilEnd(e: Env, w: Walk)
    requires Positive(e) && WalkOk(e, w)
    ensures WalkOn(e, None, w) == Until(e, w, Count(e))
    decreases if w.Walk? then Count(e) - w.at else 0
  {
    hide Turn, Count;
    if Going(e, None, w) {
      UntilEnd(e, Turn(e, w));
    }
  }

  /** On the tiers of the groups from `k` on two records of settled ends agree. */
  ghost predicate AgreeAhead(e: Env, settled: map<int, int>, k: nat)
    requires Positive(e)
  {
    forall r | TierAhead(e, k, r) :: (r in settled <==> r in e.settled) && (r in settled ==> settled[r] == e.settled[r])
  }

  /** Two walks at the same place, of the tier begun at the same high water; the
      one has settled before its start what the other settled on the way. */
  ghost predicate Alike(u: Walk, v: Walk, before: seq<Mark>) {
    && u.Walk? && v.Walk?
    && u.at == v.at && u.started == v.started && u.settledNow == before + v.settledNow
  }

  lemma TurnAlike(e: Env, f: Env, k: nat, u: Walk, v: Walk, before: seq<Mark>)
    requires ValidEnv(e) && Positive(e) && Positive(f) && f == e.(rolls := f.rolls, settled := f.settled)
    requires k <= Count(e) && Grown(e, 0, k, f.rolls) && AgreeAhead(e, f.settled, k)
    requires Alike(u, v, before) && k <= u.at < u.end == Count(e) && v.at < v.end <= Count(f)
    requires Turn(f, v).Walk?
    ensures Alike(Turn(e, u), Turn(f, v), before) && Turn(e, u).end == Count(e)
  {
    hide VisitAt, ProduceTo, Grown, ValidEnv, TierAt, TierEnd, EntersTier, Count, PiecesAt;
    SameCount(e, f);
    SameShape(e, f, u.at);
    SameEnds(e, f, u.at);
    SameVisitAhead(e, f, k, u.at);
    assert TierAhead(e, k, TierAt(e, u.at));
  }

  lemma SameEnds(e: Env, f: Env, j: nat)
    requires f.tiers == e.tiers && f.series == e.series && j < Count(e)
    ensures j < Count(f) && TierEnd(f, j) == TierEnd(e, j) && EntersTier(f, j) == EntersTier(e, j)
  {
  }

  /** Where the one gets to, the other comes past, still alike. */
  lemma {:induction false} WalkAlike(e: Env, f: Env, k: nat, limit: Option<nat>, u: Walk, v: Walk, before: seq<Mark>)
    requires ValidEnv(e) && Positive(e) && Positive(f) && f == e.(rolls := f.rolls, settled := f.settled)
    requires k <= Count(e) && Grown(e, 0, k, f.rolls) && AgreeAhead(e, f.settled, k)
    requires Alike(u, v, before) && k <= u.at <= u.end == Count(e) && WalkOk(f, v)
    requires WalkOn(f, limit, v).Walk?
    ensures var w := WalkOn(f, limit, v); Alike(Until(e, u, w.at), w, before) && v.at <= w.at
    decreases Count(f) - v.at
  {
    hide Turn, Grown, ValidEnv, AgreeAhead, Count;
    if Going(f, limit, v) {
      SameCount(e, f);
      var u', v' := Turn(e, u), Turn(f, v);
      WalkedFurther(f, limit, v');
      TurnAlike(e, f, k, u, v, before);
      WalkAlike(e, f, k, limit, u', v', before);
    }
  }

  lemma WalkedFurther(f: Env, limit: Option<nat>, v: Walk)
    requires Positive(f) && WalkOk(f, v) && WalkOn(f, limit, v).Walk?
    ensures v.Walk?
  {
  }

  lemma {:induction false} SettleConcat(settled: map<int, int>, a: seq<Mark>, b: seq<Mark>)
    ensures Settle(settled, a + b) == Settle(Settle(settled, a), b)
  {
    if b == [] {
      assert a + b == a;
    } else {
      var t := b[..|b| - 1];
      assert (a + b)[..|a + b| - 1] == a + t;
      SettleConcat(settled, a, t);
    }
  }

  /** The walk of a pass from `b0`, at its start. */
  function PassWalk(b0: State): (w: Walk)
    requires b0.highWater.Some?
    ensures WalkOk(EnvOf(b0, b0.highWater.value), w)
  {
    var e := EnvOf(b0, b0.highWater.value);
    FirstWalk(e, None, b0.cursor, b0.started)
  }

  /** A cycle at group `k` knows what the walk of a pass knows there. */
  ghost predicate OnCourse(b0: State, b: State, k: nat)
    requires b0.highWater.Some? && EnvPositive(b0)
  {
    var e := EnvOf(b0, b0.highWater.value);
    var u := Until(e, PassWalk(b0), k);
    && u.Walk? && u.at == k <= Count(e) == u.end && u.started == b.started
    && b.settled == Settle(b0.settled, u.settledNow)
    && AgreeAhead(e, b.settled, k)
  }

  lemma StartsOnCourse(b0: State)
    requires b0.highWater.Some? && EnvPositive(b0)
    ensures OnCourse(b0, b0, 0)
  {
    hide Count;
  }

  /** A walk of the cycle from there comes to where the pass comes, knowing as
      much. */
  lemma WalkOnCourse(b0: State, b: State, k: nat, first: nat, budget: nat, next: State)
    requires Ready(b0) && EnvPositive(b0) && Partway(b0, b, k, first) && OnCourse(b0, b, k) && k == b.cursor
    requires LastWalk(b, Some(budget)).Walk?
    requires next.settled == Settle(b.settled, LastWalk(b, Some(budget)).settledNow)
    requires next.started == LastWalk(b, Some(budget)).started
    ensures OnCourse(b0, next, LastWalk(b, Some(budget)).at)
  {
    hide WalkOn, Grown, Count, Smooth, Pieces, Written, IdsBelow, Full, AheadSound, AgreeAhead, Settle, Until, ValidState;
    var hw := b0.highWater.value;
    var e, f := EnvOf(b0, hw), EnvOf(b, hw);
    EnvValid(b0, hw);
    SameCount(e, f);
    var w, u := LastWalk(b, Some(budget)), Until(e, PassWalk(b0), k);
    var v := FirstWalk(f, Some(budget), b.cursor, b.started);
    assert u.settledNow == u.settledNow + v.settledNow;
    WalkAlike(e, f, k, Some(budget), u, v, u.settledNow);
    UntilMore(e, PassWalk(b0), k, w.at);
    UntilEnds(e, PassWalk(b0), w.at);
    SettleConcat(b0.settled, u.settledNow, w.settledNow);
    LastWalkStops(b, Some(budget));
    StillAgrees(e, f, k, w.at, b.settled, w.settledNow);
  }

  lemma StepsOnCourse(b0: State, b: State, k: nat, first: nat, budget: nat, id: nat, next: State)
    requires Ready(b0) && EnvPositive(b0) && Partway(b0, b, k, first) && OnCourse(b0, b, k) && k == b.cursor
    requires Steps(b, budget, id, next)
    ensures OnCourse(b0, next, next.cursor)
  {
    hide LastWalk, Partway, Until, AgreeAhead, Settle, Written, Full, Count, ValidState;
    WalkOnCourse(b0, b, k, first, budget, next);
  }

  lemma {:induction false} UntilEnds(e: Env, w: Walk, k: nat)
    requires Positive(e) && WalkOk(e, w) && w.Walk? && w.end == Count(e)
    ensures Until(e, w, k).Walk? ==> Until(e, w, k).end == Count(e)
    decreases Count(e) - w.at
  {
    hide Turn, Count;
    if w.at < k && w.at < w.end {
      TurnEnds(e, w);
      if Turn(e, w).Walk? {
        UntilEnds(e, Turn(e, w), k);
      }
    }
  }

  lemma TurnEnds(e: Env, w: Walk)
    requires Positive(e) && w.Walk? && w.at < w.end == Count(e)
    ensures Turn(e, w).Walk? ==> Turn(e, w).end == Count(e)
  {
    hide Count, VisitAt, PiecesAt, ProduceTo;
  }

  /** What a walk settles lies behind it. */
  lemma StillAgrees(e: Env, f: Env, k: nat, to: nat, settled: map<int, int>, marks: seq<Mark>)
    requires Positive(e) && Positive(f) && Distinct(e.tiers) && f == e.(rolls := f.rolls, settled := f.settled) && k <= to
    requires AgreeAhead(e, settled, k) && forall m | m in marks :: ClosedIn(f, k, to, m)
    ensures AgreeAhead(e, Settle(settled, marks), to)
  {
    hide Count, ClosedIn, TierAt;
    SettleFrom(settled, marks);
    var now := Settle(settled, marks);
    forall r | TierAhead(e, to, r) ensures (r in now <==> r in e.settled) && (r in now ==> now[r] == e.settled[r]) {
      AheadSame(f, e, k, to, r);
      AheadSame(e, f, to, to, r);
      AheadSame(e, e, k, to, r);
      forall m | m in marks ensures m.resolution != r {
        ClosedIsBehind(f, k, to, m);
      }
    }
  }

  // --------------------------------------------------------------- open cycles

  /** Step `i` of bounded steps that follow one another under ids given out in
      turn: it succeeds, and says whether there is more. */
  ghost predicate StepsAt(states: seq<State>, budgets: seq<nat>, first: nat, i: nat, more: bool)
    requires |states| == |budgets| + 1 && i < |budgets|
  {
    && ValidState(states[i]) && budgets[i] > 0 && |states[i].rolls| >= |states[0].rolls|
    && var o := Step(states[i], Some(budgets[i]), NextFree(states, i, first));
       o.Done? && o.next == states[i + 1] && o.more == more
  }

  /** The id the next chunk gets after `i` steps. */
  function NextFree(states: seq<State>, i: nat, first: nat): nat
    requires i < |states| && |states[i].rolls| >= |states[0].rolls|
  {
    first + (|states[i].rolls| - |states[0].rolls|)
  }

  /** A cycle under way: every step so far says that there is more. */
  ghost predicate IsOpen(states: seq<State>, budgets: seq<nat>, first: nat) {
    && |states| == |budgets| + 1
    && ValidState(states[0]) && states[0].cursor == 0
    && forall i | 0 <= i < |budgets| :: StepsAt(states, budgets, first, i, true)
  }

  /** A whole cycle: only the last step says that there is no more. */
  ghost predicate IsCycle(states: seq<State>, budgets: seq<nat>, first: nat) {
    && |states| == |budgets| + 1 && budgets != []
    && IsOpen(states[..|budgets|], budgets[..|budgets| - 1], first)
    && StepsAt(states, budgets, first, |budgets| - 1, false)
  }

  lemma {:induction false} WrittenLength(rolls: seq<Chunk>, batch: seq<Piece>, first: nat)
    requires Full(batch)
    ensures |Written(rolls, batch, first)| == |rolls| + |batch|
  {
    if batch != [] {
      var t := batch[..|batch| - 1];
      assert forall p | p in t :: p in batch;
      WrittenLength(rolls, t, first);
    }
  }

  /** A cycle begins at what a pass begins at. */
  lemma BeginsAlike(st: State, budget: nat)
    requires ValidState(st) && st.cursor == 0
    ensures Begin(st, Some(budget)) == Begin(st, None)
  {
  }

  /** Where a cycle is under way a step goes on from it. */
  lemma GoesOn(b: State, budget: nat, first: nat)
    requires Ready(b) && b.cursor > 0 && b.series != [] && b.tiers != []
    ensures LastWalk(b, Some(budget)).Walk? ==> Full(LastWalk(b, Some(budget)).batch)
    ensures Step(b, Some(budget), first) == Finish(b, Some(budget), first)
  {
    hide LastWalk, Full;
    LastWalkFull(b, Some(budget));
  }

  /** A cycle under way has begun at something. */
  lemma OpenBegins(states: seq<State>, budgets: seq<nat>, first: nat)
    requires IsOpen(states, budgets, first) && budgets != []
    ensures Begin(states[0], None).Some? && Begin(states[0], None).value.series != []
    ensures var b0 := Begin(states[0], None).value; Ready(b0) && EnvPositive(b0) && b0.cursor == 0
  {
    hide LastWalk, Written, Settle, ValidRollups, HighWater, AllSeries, AllSettled, Full, WellFormed, Timely;
    assert StepsAt(states, budgets, first, 0, true);
    BeginsAlike(states[0], budgets[0]);
    BeginValid(states[0], None);
    if Begin(states[0], None).Some? {
      EnvValid(Begin(states[0], None).value, Begin(states[0], None).value.highWater.value);
    }
  }

  /** What the step of an open cycle starts from. */
  ghost function Resumed(states: seq<State>, b0: State, i: nat): State
    requires i < |states|
  {
    if i == 0 then b0 else states[i]
  }

  /** An open cycle is partway along the pass from its start, and comes at least
      one group further with every step. */
  lemma {:induction false} OpenPartway(states: seq<State>, budgets: seq<nat>, first: nat, b0: State, i: nat)
    requires IsOpen(states, budgets, first) && IdsBelow(states[0].rolls, first) && Sound(states[0])
    requires Begin(states[0], None) == Some(b0) && b0.series != [] && Ready(b0) && EnvPositive(b0) && b0.cursor == 0
    requires i <= |budgets|
    ensures var b := Resumed(states, b0, i);
            && Partway(b0, b, b.cursor, first) && i <= b.cursor && (i > 0 ==> b.cursor < Count(EnvOf(b0, b0.highWater.value)))
            && b.rolls == states[i].rolls && OnCourse(b0, b, b.cursor)
    decreases i
  {
    hide LastWalk, Grown, SoundAhead, Pieces, VisitAt, Written, IdsBelow, AheadSound, Count, Smooth, Full, Settle,
      Partway, ValidRollups, SettledSound, HighWater, AllSeries, AllSettled, OnCourse;
    if i == 0 {
      PartwayStart(b0, first);
      StartsOnCourse(b0);
    } else {
      OpenPartway(states, budgets, first, b0, i - 1);
      var b, next, budget := Resumed(states, b0, i - 1), states[i], budgets[i - 1];
      assert StepsAt(states, budgets, first, i - 1, true);
      var id := NextFree(states, i - 1, first);
      StepResumes(states, b0, first, i - 1, budget);
      PartwaySeries(b0, b, b.cursor, first);
      PartwayLength(b0, b, b.cursor, first);
      PartwayIds(b0, b, b.cursor, first);
      LastWalkFull(b, Some(budget));
      assert Steps(b, budget, id, next);
      StepsPartway(b0, b, b.cursor, first, budget, next);
      StepsOnCourse(b0, b, b.cursor, first, budget, id, next);
      SameCount(EnvOf(b0, b0.highWater.value), EnvOf(b, b.highWater.value));
    }
  }

  /** The step from a state of an open cycle is the walk resumed. */
  lemma StepResumes(states: seq<State>, b0: State, first: nat, i: nat, budget: nat)
    requires i < |states| && ValidState(states[0]) && states[0].cursor == 0 && ValidState(states[i])
    requires Begin(states[0], None) == Some(b0) && b0.series != [] && Ready(b0) && EnvPositive(b0)
    requires var b := Resumed(states, b0, i); Partway(b0, b, b.cursor, first) && i <= b.cursor
    ensures var b := Resumed(states, b0, i);
            && Ready(b)
            && (LastWalk(b, Some(budget)).Walk? ==> Full(LastWalk(b, Some(budget)).batch))
            && forall id: nat :: Step(states[i], Some(budget), id) == Finish(b, Some(budget), id)
  {
    hide LastWalk, Partway, ValidRollups, HighWater, AllSeries, AllSettled, Full, Written, Settle, WellFormed, Timely;
    var b := Resumed(states, b0, i);
    PartwaySeries(b0, b, b.cursor, first);
    LastWalkFull(b, Some(budget));
    if i == 0 {
      BeginsAlike(states[0], budget);
    } else {
      forall id: nat ensures Step(states[i], Some(budget), id) == Finish(b, Some(budget), id) {
        GoesOn(b, budget, id);
      }
    }
  }

  lemma PartwaySeries(b0: State, b: State, k: nat, first: nat)
    requires Ready(b0) && EnvPositive(b0) && Partway(b0, b, k, first)
    ensures b.series == b0.series && b.tiers == b0.tiers && Ready(b) && EnvPositive(b) && b.highWater == b0.highWater
  {
  }

  lemma PartwayIds(b0: State, b: State, k: nat, first: nat)
    requires Ready(b0) && EnvPositive(b0) && Partway(b0, b, k, first)
    ensures Ready(b) && EnvPositive(b)
    ensures k <= Count(EnvOf(b0, b0.highWater.value))
    ensures IdsBelow(b.rolls, first + |Pieces(EnvOf(b0, b0.highWater.value), 0, k)|)
  {
  }

  lemma PartwayLength(b0: State, b: State, k: nat, first: nat)
    requires Ready(b0) && EnvPositive(b0) && Partway(b0, b, k, first)
    ensures k <= Count(EnvOf(b0, b0.highWater.value))
    ensures |b.rolls| - |b0.rolls| == |Pieces(EnvOf(b0, b0.highWater.value), 0, k)|
  {
    hide Grown, SoundAhead, Pieces, VisitAt, Written, IdsBelow, AheadSound, Count, Smooth, Full, ValidState;
    WrittenLength(b0.rolls, Pieces(EnvOf(b0, b0.highWater.value), 0, k), first);
  }

  lemma PartwayStart(b0: State, first: nat)
    requires Ready(b0) && EnvPositive(b0) && Sound(b0) && IdsBelow(b0.rolls, first)
    ensures Partway(b0, b0, 0, first)
  {
    hide Grown, VisitAt, Unrolled, ValidRollups, TierAhead;
    var e := EnvOf(b0, b0.highWater.value);
    EnvValid(b0, b0.highWater.value);
    GrownStart(e, 0);
    NothingWalked(e, 0);
  }

  /** The last step of a cycle comes to the state a pass in one go comes to. */
  lemma LastStep(b0: State, b: State, k: nat, first: nat, budget: nat, id: nat)
    requires Ready(b0) && EnvPositive(b0) && IdsBelow(b0.rolls, first) && Sound(b0)
    requires Partway(b0, b, k, first) && k == b.cursor && OnCourse(b0, b, k)
    requires id == first + |Pieces(EnvOf(b0, b0.highWater.value), 0, k)|
    requires LastWalk(b, Some(budget)).Walk? ==> Full(LastWalk(b, Some(budget)).batch)
    requires LastWalk(b0, None).Walk? ==> Full(LastWalk(b0, None).batch)
    requires Finish(b, Some(budget), id).Done? && !Finish(b, Some(budget), id).more
    ensures Finish(b0, None, first).Done?
    ensures Finish(b0, None, first).next == Finish(b, Some(budget), id).next
  {
    hide LastWalk, Grown, SoundAhead, Pieces, VisitAt, Written, IdsBelow, AheadSound, Count, Smooth, Full, Settle,
      ValidState, Sound, OnCourse;
    var w := b0.highWater.value;
    var e := EnvOf(b0, w);
    SameCount(e, EnvOf(b, w));
    PartwayWalk(b0, b, k, first, Some(budget));
    var at := LastWalk(b, Some(budget)).at;
    assert at == Count(e);
    PartwayWrites(b0, b, k, at, first);
    PassWalks(b0);
    WalkOnCourse(b0, b, k, first, budget, Finish(b, Some(budget), id).next);
    CourseEnds(b0, Finish(b, Some(budget), id).next);
  }

  lemma CourseEnds(b0: State, b: State)
    requires Ready(b0) && EnvPositive(b0) && LastWalk(b0, None).Walk?
    requires OnCourse(b0, b, Count(EnvOf(b0, b0.highWater.value)))
    ensures b.settled == Settle(b0.settled, LastWalk(b0, None).settledNow) && b.started == LastWalk(b0, None).started
  {
    hide WalkOn, Count, Settle, AgreeAhead, ValidState;
    UntilEnd(EnvOf(b0, b0.highWater.value), PassWalk(b0));
  }

  /** The last step of a cycle against the pass from its start. */
  lemma OpenThenLast(states: seq<State>, budgets: seq<nat>, first: nat, budget: nat)
    requires IsOpen(states, budgets, first) && IdsBelow(states[0].rolls, first) && Sound(states[0]) && budget > 0
    requires ValidState(states[|budgets|]) && |states[|budgets|].rolls| >= |states[0].rolls|
    requires var o := Step(states[|budgets|], Some(budget), NextFree(states, |budgets|, first)); o.Done? && !o.more
    ensures var o, pass := Step(states[|budgets|], Some(budget), NextFree(states, |budgets|, first)), Step(states[0], None, first);
            pass.Done? && pass.next == o.next
  {
    hide LastWalk, Written, Full, Settle, ValidRollups, SettledSound, HighWater, AllSeries, Partway, SettledTo, AllSettled,
      WellFormed, Timely, OnCourse;
    var n, st := |budgets|, states[0];
    BeginsAlike(st, budget);
    BeginValid(st, None);
    var begun := Begin(st, None);
    if begun.Some? && begun.value.series != [] {
      var b0 := begun.value;
      EnvValid(b0, b0.highWater.value);
      OpenPartway(states, budgets, first, b0, n);
      StepResumes(states, b0, first, n, budget);
      var b := Resumed(states, b0, n);
      PartwayLength(b0, b, b.cursor, first);
      PartwayIds(b0, b, b.cursor, first);
      LastWalkFull(b0, None);
      LastStep(b0, b, b.cursor, first, budget, NextFree(states, n, first));
    } else if n > 0 {
      OpenBegins(states, budgets, first);
    }
  }

  /** A cycle of bounded steps with nothing in between leaves exactly the state a
      pass in one go leaves: the same rollup rows under the same ids, the same
      tiers settled to the same ends, and no cycle under way. */
  lemma BoundedIsUnbounded(states: seq<State>, budgets: seq<nat>, first: nat)
    requires IsCycle(states, budgets, first) && IdsBelow(states[0].rolls, first) && Sound(states[0])
    ensures var o := Step(states[0], None, first);
            o.Done? && o.next == states[|budgets|]
  {
    hide Step, Sound, ValidState;
    var n := |budgets| - 1;
    assert states[..n + 1][n] == states[n];
    OpenThenLast(states[..n + 1], budgets[..n], first, budgets[n]);
  }

  lemma PassWalks(b0: State)
    requires Ready(b0) && EnvPositive(b0) && Sound(b0)
    requires Smooth(EnvOf(b0, b0.highWater.value), 0, Count(EnvOf(b0, b0.highWater.value)))
    ensures var e := EnvOf(b0, b0.highWater.value);
            LastWalk(b0, None).Walk? && LastWalk(b0, None).batch == Pieces(e, 0, Count(e))
  {
    hide WalkOn, SoundAhead, Pieces, VisitAt, SettledSound, Count, ValidState;
    var e := EnvOf(b0, b0.highWater.value);
    EnvValid(b0, b0.highWater.value);
    SettledIsSoundAhead(e, 0);
    WalkFails(e, None, FirstWalk(e, None, b0.cursor, b0.started));
    LastWalkMeans(b0, None);
  }

  /** How many groups a cycle from here has. */
  function Groups(st: State): nat {
    |st.tiers| * |AllSeries(st.rows)|
  }

  /** No more than as many steps as there are groups can say that there is
      more. */
  lemma OpenCycleBound(states: seq<State>, budgets: seq<nat>, first: nat)
    requires IsOpen(states, budgets, first) && IdsBelow(states[0].rolls, first) && Sound(states[0])
    ensures ValidState(states[|budgets|]) && |states[|budgets|].rolls| >= |states[0].rolls|
    ensures budgets != [] ==> |budgets| < Groups(states[0])
  {
    hide LastWalk, Grown, Pieces, Written, AheadSound, Count, Smooth, Full, Settle, Partway, ValidRollups, SettledSound,
      HighWater, AllSeries, Step, AllSettled;
    if budgets != [] {
      OpenBegins(states, budgets, first);
      var b0 := Begin(states[0], None).value;
      OpenPartway(states, budgets, first, b0, |budgets|);
      var b := states[|budgets|];
      PartwaySeries(b0, b, b.cursor, first);
      PartwayLength(b0, b, b.cursor, first);
      GroupsCounted(states[0], b0);
    }
  }

  lemma GroupsCounted(st: State, b0: State)
    requires (forall r | r in st.tiers :: r > 0) && st.cursor == 0 && Begin(st, None) == Some(b0)
    ensures Count(EnvOf(b0, b0.highWater.value)) == Groups(st)
  {
    hide AllSeries, HighWater, AllSettled;
  }

  /** Where the pass in one go succeeds, so does every step of a cycle. */
  lemma OpenCycleNext(states: seq<State>, budgets: seq<nat>, first: nat, budget: nat)
    requires IsOpen(states, budgets, first) && IdsBelow(states[0].rolls, first) && Sound(states[0]) && budget > 0
    requires Step(states[0], None, first).Done?
    requires ValidState(states[|budgets|]) && |states[|budgets|].rolls| >= |states[0].rolls|
    ensures Step(states[|budgets|], Some(budget), NextFree(states, |budgets|, first)).Done?
  {
    hide LastWalk, Written, Full, Settle, ValidRollups, SettledSound, HighWater, AllSeries, Partway, SettledTo, AllSettled,
      WellFormed, Timely, OnCourse;
    var n, st := |budgets|, states[0];
    BeginsAlike(st, budget);
    BeginValid(st, None);
    var begun := Begin(st, None);
    if begun.Some? && begun.value.series != [] {
      var b0 := begun.value;
      EnvValid(b0, b0.highWater.value);
      OpenPartway(states, budgets, first, b0, n);
      StepResumes(states, b0, first, n, budget);
      var b := Resumed(states, b0, n);
      LastWalkFull(b0, None);
      PartwayGoesOn(b0, b, b.cursor, first, budget);
    } else if n > 0 {
      OpenBegins(states, budgets, first);
    }
  }

  lemma PartwayGoesOn(b0: State, b: State, k: nat, first: nat, budget: nat)
    requires Ready(b0) && EnvPositive(b0) && Sound(b0) && Partway(b0, b, k, first) && k == b.cursor
    requires LastWalk(b0, None).Walk? && Ready(b)
    ensures LastWalk(b, Some(budget)).Walk?
  {
    hide WalkOn, Grown, Pieces, VisitAt, Written, IdsBelow, AheadSound, Count, Full, SettledSound, ValidState, SoundAhead;
    var w := b0.highWater.value;
    var e, f := EnvOf(b0, w), EnvOf(b, w);
    EnvValid(b0, w);
    SameCount(e, f);
    SettledIsSoundAhead(e, 0);
    LastWalkMeans(b0, None);
    forall j: nat | k <= j < Count(f) ensures !VisitAt(f, j).TooEarly? {
      SameVisitAhead(e, f, k, j);
    }
    WalkFails(f, Some(budget), FirstWalk(f, Some(budget), b.cursor, b.started));
  }

  ghost function Budgets(budget: nat -> nat, n: nat): (s: seq<nat>)
    ensures |s| == n
  {
    seq(n, i requires 0 <= i < n => budget(i))
  }

  /** How a cycle ends, after fewer steps than there are groups: where the pass
      in one go succeeds, with a step that says that there is no more, in the
      state that pass ends in; where it fails, with a step that fails. */
  ghost predicate EndsAs(states: seq<State>, budget: nat -> nat, n: nat, first: nat)
    requires |states| == n + 1
  {
    && IsOpen(states, Budgets(budget, n), first) && (n > 0 ==> n < Groups(states[0]))
    && ValidState(states[n]) && |states[n].rolls| >= |states[0].rolls|
    && var o, pass := Step(states[n], Some(budget(n)), NextFree(states, n, first)), Step(states[0], None, first);
       if pass.Done? then o.Done? && !o.more && o.next == pass.next else o.Broken?
  }

  lemma Extended(states: seq<State>, budget: nat -> nat, first: nat, next: State)
    requires states != [] && IsOpen(states, Budgets(budget, |states| - 1), first) && budget(|states| - 1) > 0
    requires var n := |states| - 1;
             && ValidState(states[n]) && |states[n].rolls| >= |states[0].rolls|
             && var o := Step(states[n], Some(budget(n)), NextFree(states, n, first));
                o.Done? && o.more && o.next == next
    ensures IsOpen(states + [next], Budgets(budget, |states|), first)
  {
    hide Step, ValidState;
    var n := |states| - 1;
    var more, budgets := states + [next], Budgets(budget, n + 1);
    forall i | 0 <= i < n + 1 ensures StepsAt(more, budgets, first, i, true) {
      if i < n {
        assert StepsAt(states, Budgets(budget, n), first, i, true);
        assert more[i] == states[i] && more[i + 1] == states[i + 1];
      }
    }
  }

  lemma {:induction false} EndsFrom(states: seq<State>, budget: nat -> nat, first: nat) returns (all: seq<State>, n: nat)
    requires states != [] && IsOpen(states, Budgets(budget, |states| - 1), first) && forall i: nat :: budget(i) > 0
    requires IdsBelow(states[0].rolls, first) && Sound(states[0])
    ensures |all| == n + 1 && all[0] == states[0] && EndsAs(all, budget, n, first)
    decreases if |states| <= Groups(states[0]) then Groups(states[0]) - |states| + 1 else 0
  {
    hide Step, ValidState, Sound, IsOpen, Groups;
    n := |states| - 1;
    var budgets := Budgets(budget, n);
    OpenLength(states, budgets, first);
    OpenCycleBound(states, budgets, first);
    var o := Step(states[n], Some(budget(n)), NextFree(states, n, first));
    if Step(states[0], None, first).Done? {
      OpenCycleNext(states, budgets, first, budget(n));
    }
    if o.Done? && o.more {
      Extended(states, budget, first, o.next);
      OpenCycleBound(states + [o.next], Budgets(budget, n + 1), first);
      all, n := EndsFrom(states + [o.next], budget, first);
    } else {
      if o.Done? {
        OpenThenLast(states, budgets, first, budget(n));
      }
      all := states;
    }
  }

  lemma OpenLength(states: seq<State>, budgets: seq<nat>, first: nat)
    requires IsOpen(states, budgets, first)
    ensures |states| == |budgets| + 1 && ValidState(states[0])
  {
  }

  /** Repeating bounded steps, with whatever budgets, ends: from any state in
      which no cycle is under way and whose settled ends are true, after fewer
      steps than there are groups, as the pass in one go ends. */
  lemma BoundedCycleEnds(st: State, budget: nat -> nat, first: nat) returns (states: seq<State>, n: nat)
    requires ValidState(st) && st.cursor == 0 && IdsBelow(st.rolls, first) && Sound(st)
    requires forall i: nat :: budget(i) > 0
    ensures |states| == n + 1 && states[0] == st && EndsAs(states, budget, n, first)
  {
    hide Step, ValidState, Sound;
    states, n := EndsFrom([st], budget, first);
  }
}
