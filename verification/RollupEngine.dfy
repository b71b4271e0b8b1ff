/** The engine's rollup maintenance in its own form: fields updated step by
    step, groups walked in a loop that reads watermarks a stretch at a time. */
module RollupEngine {
  import opened Sequences
  import opened Samples
  import opened ChunkTable
  import opened RollupKernel
  import opened RollupStore
  import opened RollupPass
  import opened RollupScan
  import opened RollupCycle
  import opened RollupStep
  import opened RollupSettled
  import opened RollupMerge
  import opened RollupMergeStep

  // ---------------------------------------------------------- stretches read

  /** What the store said of the watermarks of some series. */
  ghost predicate WatermarksOf(rolls: seq<Chunk>, r: int, series: seq<int>, marks: map<int, int>) {
    forall s | s in series ::
      (s in marks <==> Watermark(rolls, s, r).Some?) && (s in marks ==> marks[s] == Watermark(rolls, s, r).value)
  }

  ghost predicate DueOf(rows: seq<Row>, rolls: seq<Chunk>, r: int, to: int, series: seq<int>, due: set<int>) {
    forall s | s in series :: s in due <==> Due(rows, s, Watermark(rolls, s, r), to)
  }

  method ReadWatermarks(rolls: seq<Chunk>, r: int, series: seq<int>) returns (marks: map<int, int>)
    ensures WatermarksOf(rolls, r, series, marks)
  {
    marks := map[];
    for i := 0 to |series|
      invariant WatermarksOf(rolls, r, series[..i], marks)
      invariant forall s | s in marks :: Watermark(rolls, s, r) == Some(marks[s])
    {
      hide Watermark;
      var s := series[i];
      assert series[..i + 1] == series[..i] + [s];
      var w := Watermark(rolls, s, r);
      if w.Some? {
        marks := marks[s := w.value];
      }
    }
    assert series[..|series|] == series;
  }

  method ReadDue(rows: seq<Row>, rolls: seq<Chunk>, r: int, to: int, series: seq<int>, marks: map<int, int>)
    returns (due: set<int>)
    requires WatermarksOf(rolls, r, series, marks)
    ensures DueOf(rows, rolls, r, to, series, due)
  {
    hide Watermark, Due;
    due := {};
    for i := 0 to |series|
      invariant DueOf(rows, rolls, r, to, series[..i], due)
      invariant forall s | s in due :: Due(rows, s, Watermark(rolls, s, r), to)
    {
      var s := series[i];
      assert s in series;
      assert series[..i + 1] == series[..i] + [s];
      var covered := if s in marks then Some(marks[s]) else None;
      assert covered == Watermark(rolls, s, r);
      if Due(rows, s, covered, to) {
        due := due + {s};
      }
    }
    assert series[..|series|] == series;
  }

  /** One group: what the walk of it finds. */
  method VisitGroup(rows: seq<Row>, ghost rolls: seq<Chunk>, s: int, r: int, highWater: int,
                    marks: map<int, int>, due: Option<set<int>>)
    returns (found: Found)
    requires r > 0 && (forall row | row in rows :: WellFormed(row)) && Timely(rows)
    requires WatermarksOf(rolls, r, [s], marks)
    requires due.Some? <==> ProduceTo(highWater, r).Some?
    requires due.Some? ==> DueOf(rows, rolls, r, ProduceTo(highWater, r).value, [s], due.value)
    ensures found == Visit(rows, rolls, s, r, highWater)
  {
    hide Watermark, Due, RangeQuery, ProduceTo, BucketsOf, WellFormed, Timely;
    assert s in [s];
    var end := ProduceTo(highWater, r);
    if end.None? {
      return Nothing;
    }
    var to := end.value;
    if s !in due.value {
      NotDue(rows, rolls, s, r, to);
      VisitNothing(rows, rolls, s, r, highWater);
      return Nothing;
    }
    var watermark := if s in marks then Some(marks[s]) else None;
    assert watermark == Watermark(rolls, s, r);
    if watermark.Some? && watermark.value >= to {
      return Nothing;
    }
    var samples := RangeQuery(rows, s, Start(watermark), to);
    if samples == [] {
      return Nothing;
    }
    var buckets := RollupBuckets(samples, r);
    if buckets.Overflow? {
      return TooEarly;
    }
    found := Buckets(buckets.value);
  }

  /** A stretch that was read serves the groups up to its end. */
  ghost predicate Serves(e: Env, k: nat, end: nat, marks: map<int, int>, due: Option<set<int>>)
    requires Positive(e)
  {
    k < end ==>
      && end <= Count(e)
      && end <= TierEnd(e, k)
      && (due.Some? <==> ProduceTo(e.highWater, TierAt(e, k)).Some?)
      && forall j: nat | k <= j < end ::
           && WatermarksOf(e.rolls, TierAt(e, k), [SeriesAt(e, j)], marks)
           && (due.Some? ==>
                 DueOf(e.rows, e.rolls, TierAt(e, k), ProduceTo(e.highWater, TierAt(e, k)).value, [SeriesAt(e, j)], due.value))
  }

  lemma ServesNext(e: Env, k: nat, end: nat, marks: map<int, int>, due: Option<set<int>>)
    requires Positive(e) && k < end && Serves(e, k, end, marks, due)
    ensures Serves(e, k + 1, end, marks, due)
  {
    hide WatermarksOf, DueOf, ProduceTo, Count, TierAt, TierEnd, SeriesAt;
    if k + 1 < end {
      SameTier(e, k, k + 1);
    }
  }

  /** The series of the groups from `k` to `end`, all of one tier. */
  lemma StretchSeries(e: Env, k: nat, end: nat, j: nat)
    requires Positive(e) && k < Count(e) && k <= j < end <= TierEnd(e, k)
    ensures 0 <= k % |e.series| <= k % |e.series| + (end - k) <= |e.series|
    ensures SeriesAt(e, j) in e.series[k % |e.series|..k % |e.series| + (end - k)]
  {
    hide Count, SeriesAt, TierEnd;
    OrdinalBounds(e, k);
    TierEndIs(e, k);
    SameQuotient(e, k, j);
    var n := |e.series|;
    QuotientParts(k, n);
    QuotientParts(j, n);
    AtOrdinal(e, j);
    var at := k % n;
    var stretch := e.series[at..at + (end - k)];
    assert stretch[j - k] == e.series[at + (j - k)];
  }

  lemma QuotientParts(k: nat, n: nat)
    requires n > 0
    ensures k == k / n * n + k % n && 0 <= k % n < n && (k / n + 1) * n == k / n * n + n
  {
  }

  lemma TierEndIs(e: Env, k: nat)
    requires k < Count(e)
    ensures |e.series| > 0 && TierEnd(e, k) == (k / |e.series| + 1) * |e.series| <= Count(e)
  {
    hide Count;
    OrdinalBounds(e, k);
  }

  lemma SameQuotient(e: Env, k: nat, j: nat)
    requires k < Count(e) && j < Count(e) && k <= j < TierEnd(e, k)
    ensures |e.series| > 0 && j / |e.series| == k / |e.series|
  {
    OrdinalBounds(e, k);
    OrdinalBounds(e, j);
    var n := |e.series|;
    var t, u := k / n, j / n;
    if t < u {
      WidthApart(t, u, n);
    } else if u < t {
      WidthApart(u, t, n);
    }
  }

  method ReadStretch(e: Env, k: nat, scanEnd: nat)
    returns (end: nat, marks: map<int, int>, due: Option<set<int>>)
    requires Positive(e) && k < scanEnd <= Count(e)
    ensures k < end <= scanEnd && Serves(e, k, end, marks, due)
  {
    hide WatermarksOf, DueOf, ProduceTo, Count, TierAt, TierEnd, SeriesAt;
    var r, tierEnd := TierAt(e, k), TierEnd(e, k);
    end := Earlier(Earlier(k + WATERMARK_STRETCH, scanEnd), tierEnd);
    StretchSeries(e, k, end, k);
    var at := k % |e.series|;
    var stretch := e.series[at..at + (end - k)];
    marks := ReadWatermarks(e.rolls, r, stretch);
    var to := ProduceTo(e.highWater, r);
    due := None;
    if to.Some? {
      var d := ReadDue(e.rows, e.rolls, r, to.value, stretch, marks);
      due := Some(d);
    }
    forall j: nat | k <= j < end
      ensures WatermarksOf(e.rolls, r, [SeriesAt(e, j)], marks)
      ensures due.Some? ==> DueOf(e.rows, e.rolls, r, to.value, [SeriesAt(e, j)], due.value)
    {
      StretchSeries(e, k, end, j);
      OneOf(e, r, stretch, SeriesAt(e, j), marks);
      if due.Some? {
        OneDue(e, r, to.value, stretch, SeriesAt(e, j), due.value);
      }
    }
  }

  lemma OneOf(e: Env, r: int, series: seq<int>, s: int, marks: map<int, int>)
    requires WatermarksOf(e.rolls, r, series, marks) && s in series
    ensures WatermarksOf(e.rolls, r, [s], marks)
  {
  }

  lemma OneDue(e: Env, r: int, to: int, series: seq<int>, s: int, due: set<int>)
    requires DueOf(e.rows, e.rolls, r, to, series, due) && s in series
    ensures DueOf(e.rows, e.rolls, r, to, [s], due)
  {
  }

  // ------------------------------------------------------------------- the walk

  lemma WalkOnTurn(e: Env, limit: Option<nat>, w: Walk)
    requires Positive(e) && WalkOk(e, w) && Going(e, limit, w)
    ensures WalkOn(e, limit, Turn(e, w)) == WalkOn(e, limit, w)
  {
  }

  lemma WalkOnStops(e: Env, limit: Option<nat>, w: Walk)
    requires Positive(e) && WalkOk(e, w) && !Going(e, limit, w)
    ensures WalkOn(e, limit, w) == w
  {
  }

  lemma WatermarksServe(e: Env, k: nat, end: nat, marks: map<int, int>, due: Option<set<int>>)
    requires Positive(e) && k < end && k < Count(e) && Serves(e, k, end, marks, due)
    ensures WatermarksOf(e.rolls, TierAt(e, k), [SeriesAt(e, k)], marks)
    ensures due.Some? <==> ProduceTo(e.highWater, TierAt(e, k)).Some?
    ensures due.Some? ==>
      DueOf(e.rows, e.rolls, TierAt(e, k), ProduceTo(e.highWater, TierAt(e, k)).value, [SeriesAt(e, k)], due.value)
  {
    hide WatermarksOf, DueOf;
  }

  lemma GoingOn(e: Env, limit: Option<nat>, w: Walk)
    requires w.Walk? && w.at < w.end <= Count(e) && (limit.Some? ==> |w.batch| < limit.value)
    ensures WalkOk(e, w) && Going(e, limit, w)
  {
  }

  lemma GoneFar(e: Env, limit: Option<nat>, w: Walk)
    requires WalkOk(e, w) && !(w.Walk? && w.at < w.end && (limit.None? || |w.batch| < limit.value))
    ensures !Going(e, limit, w)
  {
  }

  lemma TurnPasses(e: Env, w: Walk)
    requires Positive(e) && w.Walk? && w.at < w.end <= Count(e)
    requires EntersTier(e, w.at) && SettledTo(e.settled, e.highWater, TierAt(e, w.at))
    ensures var end := Earlier(w.end + |e.series|, Count(e));
            TierEnd(e, w.at) <= end && Turn(e, w) == w.(at := TierEnd(e, w.at), end := end)
  {
  }

  function PieceOf(e: Env, k: nat, found: Found): seq<Piece>
    requires Positive(e) && k < Count(e)
  {
    if found.Buckets? then [Piece(SeriesAt(e, k), TierAt(e, k), found.buckets)] else []
  }

  function MarkOf(e: Env, k: nat, started: Option<Mark>): seq<Mark>
    requires Positive(e) && k < Count(e)
  {
    var r := TierAt(e, k);
    var to := ProduceTo(e.highWater, r);
    if k + 1 == TierEnd(e, k) && started == Some(Mark(r, e.highWater)) && to.Some? then [Mark(r, to.value)] else []
  }

  lemma TurnVisits(e: Env, w: Walk, found: Found, started: Option<Mark>)
    requires Positive(e) && w.Walk? && w.at < w.end <= Count(e)
    requires !(EntersTier(e, w.at) && SettledTo(e.settled, e.highWater, TierAt(e, w.at)))
    requires found == Visit(e.rows, e.rolls, SeriesAt(e, w.at), TierAt(e, w.at), e.highWater)
    requires started == if EntersTier(e, w.at) then Some(Mark(TierAt(e, w.at), e.highWater)) else w.started
    ensures Turn(e, w) ==
            if found.TooEarly? then Failed(started)
            else Walk(w.at + 1, w.end, w.batch + PieceOf(e, w.at, found),
                      w.settledNow + MarkOf(e, w.at, started), started)
  {
    hide Visit, ProduceTo, TierAt, TierEnd, SeriesAt, EntersTier, Count;
  }

  lemma ServesNone(e: Env, k: nat, at: nat, end: nat, marks: map<int, int>, due: Option<set<int>>)
    requires Positive(e) && k < Count(e) && Serves(e, k, end, marks, due) && at == TierEnd(e, k)
    ensures Serves(e, at, end, marks, due)
  {
  }

  lemma ServesAny(e: Env, k: nat, marks: map<int, int>, due: Option<set<int>>)
    requires Positive(e)
    ensures Serves(e, k, k, marks, due)
  {
  }

  lemma EnvRows(e: Env)
    requires ValidEnv(e)
    ensures (forall row | row in e.rows :: WellFormed(row)) && Timely(e.rows)
  {
  }

  /** One group looked at, through the stretch that serves it. */
  method LookAt(e: Env, at: nat, scanEnd: nat, marksEnd: nat, marks: map<int, int>, due: Option<set<int>>)
    returns (found: Found, end: nat, marks': map<int, int>, due': Option<set<int>>)
    requires ValidEnv(e) && Positive(e) && at < scanEnd <= Count(e) && Serves(e, at, marksEnd, marks, due)
    ensures at < end && Serves(e, at, end, marks', due')
    ensures found == Visit(e.rows, e.rolls, SeriesAt(e, at), TierAt(e, at), e.highWater)
  {
    hide *;
    end, marks', due' := marksEnd, marks, due;
    if at >= marksEnd {
      end, marks', due' := ReadStretch(e, at, scanEnd);
    }
    WatermarksServe(e, at, end, marks', due');
    EnvRows(e);
    TierPositive(e, at);
    found := VisitGroup(e.rows, e.rolls, SeriesAt(e, at), TierAt(e, at), e.highWater, marks', due');
  }

  lemma TierPositive(e: Env, k: nat)
    requires Positive(e) && k < Count(e)
    ensures TierAt(e, k) > 0
  {
  }

  /** What was found goes into the batch, and a tier whose last group this was
      among the settled. */
  method Account(e: Env, at: nat, found: Found, started: Option<Mark>, batch: seq<Piece>, settledNow: seq<Mark>)
    returns (batch': seq<Piece>, settledNow': seq<Mark>)
    requires Positive(e) && at < Count(e)
    ensures batch' == batch + PieceOf(e, at, found) && settledNow' == settledNow + MarkOf(e, at, started)
  {
    hide *;
    PieceMarkOf(e, at, found, started);
    TierPositive(e, at);
    var r := TierAt(e, at);
    batch', settledNow' := batch, settledNow;
    if found.Buckets? {
      batch' := batch + [Piece(SeriesAt(e, at), r, found.buckets)];
    }
    var to := ProduceTo(e.highWater, r);
    if at + 1 == TierEnd(e, at) && started == Some(Mark(r, e.highWater)) && to.Some? {
      settledNow' := settledNow + [Mark(r, to.value)];
    }
  }

  /** One turn of the loop: a settled tier passed over, or a group looked at. */
  method TakeTurn(e: Env, w: Walk, marksEnd: nat, marks: map<int, int>, due: Option<set<int>>)
    returns (v: Walk, end: nat, marks': map<int, int>, due': Option<set<int>>)
    requires ValidEnv(e) && Positive(e) && w.Walk? && w.at < w.end <= Count(e)
    requires Serves(e, w.at, marksEnd, marks, due)
    ensures v == Turn(e, w) && WalkOk(e, v)
    ensures v.Walk? ==> w.at < v.at <= v.end <= Count(e) && Serves(e, v.at, end, marks', due')
  {
    hide *;
    var at := w.at;
    TierPositive(e, at);
    var r, tierEnd := TierAt(e, at), TierEnd(e, at);
    var enters := EntersTier(e, at);
    end, marks', due' := marksEnd, marks, due;
    if enters && SettledTo(e.settled, e.highWater, r) {
      TurnPasses(e, w);
      v := w.(at := tierEnd, end := Earlier(w.end + |e.series|, Count(e)));
      ServesNone(e, at, tierEnd, marksEnd, marks, due);
    } else {
      var started := if enters then Some(Mark(r, e.highWater)) else w.started;
      var found;
      found, end, marks', due' := LookAt(e, at, w.end, marksEnd, marks, due);
      TurnVisits(e, w, found, started);
      if found.TooEarly? {
        v := Failed(started);
      } else {
        var batch, settledNow := Account(e, at, found, started, w.batch, w.settledNow);
        ServesNext(e, at, end, marks', due');
        v := Walk(at + 1, w.end, batch, settledNow, started);
      }
    }
    TurnOk(e, w);
  }

  lemma TurnOk(e: Env, w: Walk)
    requires Positive(e) && w.Walk? && w.at < w.end <= Count(e)
    ensures WalkOk(e, Turn(e, w))
    ensures Turn(e, w).Walk? ==> w.at < Turn(e, w).at <= Turn(e, w).end <= Count(e)
  {
    hide VisitAt, PiecesAt, ProduceTo, TierAt, EntersTier, Count;
  }

  // --------------------------------------------------------------- the engine

  class Rollups {
    var rows: seq<Row>
    var rolls: seq<Chunk>
    var tiers: seq<int>
    var settled: map<int, int>
    var settledMax: int
    var started: Option<Mark>
    var cursor: nat
    var series: seq<int>
    var highWater: Option<int>

    ghost function StateOf(): State
      reads this
    {
      State(rows, rolls, tiers, settled, started, cursor, series, highWater)
    }

    ghost predicate Valid()
      reads this
    {
      ValidState(StateOf()) && settledMax == SettledMax(settled)
    }

    constructor (tiers: seq<int>)
      requires ValidLadder(tiers)
      ensures Valid() && Sound(StateOf())
      ensures StateOf() == State([], [], tiers, map[], None, 0, [], None)
    {
      this.tiers := tiers;
      rows, rolls, settled, settledMax := [], [], map[], I64_MIN;
      started, cursor, series, highWater := None, 0, [], None;
    }

    /** `rollup_unsettle`. */
    method Unsettle()
      requires settledMax == SettledMax(settled)
      modifies this`settled, this`settledMax
      ensures settled == Forgotten(old(settled)) && settledMax == SettledMax(settled)
    {
      if settledMax != I64_MIN {
        settled, settledMax := map[], I64_MIN;
      }
    }

    /** `rollup_settle`: the tiers a cycle closed, and the greatest end over
        again. */
    method SettleTiers(marks: seq<Mark>)
      requires settledMax == SettledMax(settled)
      modifies this`settled, this`settledMax
      ensures settled == Settle(old(settled), marks) && settledMax == SettledMax(settled)
    {
      if marks == [] {
        return;
      }
      for i := 0 to |marks|
        invariant settled == Settle(old(settled), marks[..i])
      {
        assert marks[..i + 1][..i] == marks[..i];
        settled := settled[marks[i].resolution := marks[i].at];
      }
      assert marks[..|marks|] == marks;
      settledMax := GreatestEnd(settled);
    }

    /** `index_insert_new`: rows were written. A row no newer than the greatest
        settled end gives a tier work again. */
    method IndexInsertNew(added: seq<Row>)
      requires Valid() && ValidRows(added)
      modifies this`rows, this`settled, this`settledMax
      ensures Valid() && StateOf() == Apply(old(StateOf()), Flush(added))
    {
      hide SettledMax, ValidRollups, WellFormed, Timely;
      ghost var st := StateOf();
      ValidRowsConcat(st.rows, added);
      var late := false;
      for i := 0 to |added|
        invariant late <==> exists r :: r in added[..i] && r.meta.minTs <= settledMax
      {
        var row := added[i];
        assert added[..i + 1] == added[..i] + [row];
        if row.meta.minTs <= settledMax {
          late := true;
        }
      }
      assert added[..|added|] == added;
      if settledMax != I64_MIN && late {
        Unsettle();
      }
      rows := rows + added;
    }

    /** The cycle's start, or nothing to walk. */
    method BeginWalk(limit: Option<nat>) returns (begun: bool)
      requires Valid()
      modifies this`series, this`highWater
      ensures Valid()
      ensures begun == Begin(old(StateOf()), limit).Some?
      ensures StateOf() == if begun then Begin(old(StateOf()), limit).value else old(StateOf())
    {
      hide SettledMax, ValidRollups, WellFormed, Timely, SettledTo, HighWater, AllSeries;
      ghost var st := StateOf();
      BeginValid(st, limit);
      if tiers == [] {
        return false;
      }
      if limit.Some? && cursor > 0 && series != [] && highWater.Some? {
        return true;
      }
      var newest := HighWater(rows);
      if newest.None? {
        return false;
      }
      var allSettled := true;
      for i := 0 to |tiers|
        invariant allSettled ==> forall r | r in tiers[..i] :: r > 0 && SettledTo(settled, newest.value, r)
        invariant !allSettled ==> exists r :: r in tiers && r > 0 && !SettledTo(settled, newest.value, r)
      {
        var r := tiers[i];
        assert r in tiers;
        assert tiers[..i + 1] == tiers[..i] + [r];
        if !SettledTo(settled, newest.value, r) {
          allSettled := false;
        }
      }
      assert tiers[..|tiers|] == tiers;
      if allSettled {
        return false;
      }
      series, highWater := AllSeries(rows), newest;
      begun := true;
    }

    /** The walk of `rollup_inner` over the groups. The mark of the tier under
        way is the engine's as soon as the tier is entered. */
    method WalkGroups(limit: Option<nat>) returns (w: Walk)
      requires Valid() && highWater.Some?
      modifies this`started
      ensures Valid() && StateOf() == old(StateOf()).(started := started)
      ensures w == LastWalk(old(StateOf()), limit) && w.started == started
    {
      ghost var st := StateOf();
      assert st == State(rows, rolls, tiers, settled, started, cursor, series, highWater);
      assert ValidState(st) && settledMax == SettledMax(st.settled);
      assert forall r | r in st.tiers :: r > 0;
      hide *;
      var e := Env(rows, rolls, tiers, series, highWater.value, settled);
      EnvHere(limit);
      w := FirstWalk(e, limit, cursor, started);
      FirstIs(e, limit, cursor, started);
      var marks: map<int, int>, marksEnd: nat, due: Option<set<int>> := map[], w.at, None;
      ServesAny(e, w.at, marks, due);
      while w.Walk? && w.at < w.end && (limit.None? || |w.batch| < limit.value)
        invariant w.Walk? ==> w.at <= w.end <= Count(e) && Serves(e, w.at, marksEnd, marks, due)
        invariant WalkOk(e, w) && WalkOn(e, limit, w) == LastWalk(st, limit)
        invariant started == w.started
        decreases w.Walk?, if w.Walk? then Count(e) - w.at else 0
      {
        GoingOn(e, limit, w);
        WalkOnTurn(e, limit, w);
        w, marksEnd, marks, due := TakeTurn(e, w, marksEnd, marks, due);
        started := w.started;
      }
      GoneFar(e, limit, w);
      WalkOnStops(e, limit, w);
      StartedHere(st);
    }

    /** `rollup_inner`: begun or taken up, walked, and what was found written
        under ids from `first`. */
    method RollupInner(limit: Option<nat>, first: nat) returns (ok: bool, batch: seq<Piece>, more: bool)
      requires Valid() && IdsBelow(rolls, first)
      modifies this
      ensures Valid()
      ensures var o := Step(old(StateOf()), limit, first);
              && StateOf() == o.next && ok == o.Done?
              && (ok ==> batch == o.batch && more == o.more)
    {
      hide SettledMax, ValidState, Begin, LastWalk, Settle, Count;
      ghost var st := StateOf();
      StepValid(st, limit, first);
      BeginValid(st, limit);
      var begun := BeginWalk(limit);
      if !begun || series == [] {
        cursor := 0;
        return true, [], false;
      }
      ghost var b := StateOf();
      LastWalkFull(b, limit);
      var w := WalkGroups(limit);
      if w.Failed? {
        return false, [], false;
      }
      more := limit.Some? && w.at < Count(Env(rows, rolls, tiers, series, highWater.value, settled));
      batch := w.batch;
      rolls := PutChunks(rolls, batch, first);
      SettleTiers(w.settledNow);
      cursor := if more then w.at else 0;
      ok := true;
    }

    /** `rollup`: a pass in one go and, if it does not fail, the merges there are
        to do. Sound settled ends in, every tier rolled up to its coverage end
        out. */
    method Rollup(first: nat) returns (ok: bool, batch: seq<Piece>)
      requires Valid() && IdsBelow(rolls, first) && Sound(StateOf())
      modifies this
      ensures Valid() && Sound(StateOf()) && rows == old(rows) && tiers == old(tiers)
      ensures var o := Step(old(StateOf()), None, first);
              && ok == o.Done?
              && StateOf() == o.next.(rolls := rolls)
              && if ok then batch == o.batch && SameStored(rolls, o.next.rolls)
                            && rolls == AllMerged(o.next.rolls, rows, first + |batch|)
                 else rolls == o.next.rolls
      ensures ok && HighWater(rows).Some? ==> Complete(StateOf(), HighWater(rows).value)
    {
      hide Step, SettledSound, ValidState, IdsBelow, SameStored, HighWater, Complete, Allowed, Apply, SettledMax, AllMerged;
      ghost var st := StateOf();
      PassKeeps(st, first);
      PassIds(st, first);
      if Step(st, None, first).Done? {
        PassCompletes(st, first);
      } else {
        BrokenKeeps(st, first);
      }
      var more;
      ok, batch, more := RollupInner(None, first);
      if !ok {
        return;
      }
      ghost var passed := StateOf();
      var removed, written := MergeAllRollups(first + |batch|);
      MergeKeepsPass(passed, rolls);
    }

    /** `merge_rollups`: rollup chunks are put together; nothing a reader or a
        pass goes by changes. */
    method MergeAllRollups(first: nat) returns (removed: set<nat>, written: nat)
      requires Valid() && IdsBelow(rolls, first)
      modifies this`rolls
      ensures Valid() && SameStored(rolls, old(rolls)) && ValidRollups(rolls)
      ensures Allowed(old(StateOf()), Merge(rolls)) && StateOf() == Apply(old(StateOf()), Merge(rolls))
      ensures StateOf() == old(StateOf()).(rolls := rolls)
      ensures rolls == AllMerged(old(rolls), rows, first)
    {
      hide ValidState, SettledMax, SameStored, Allowed, Apply, IdsBelow, ValidRollups;
      ghost var st := StateOf();
      StateRollups(st);
      var withRaw := SeriesSet(rows);
      rolls, removed, written := MergeRollups(rolls, withRaw, first);
      MergeApplied(st, rolls);
    }

    /** `set_rollups`. */
    method SetRollups(ladder: seq<int>)
      requires Valid() && ValidLadder(ladder)
      modifies this`tiers, this`settled, this`settledMax, this`cursor
      ensures Valid() && StateOf() == Apply(old(StateOf()), SetLadder(ladder))
    {
      hide ValidRollups, SettledMax, WellFormed, Timely;
      if tiers != ladder {
        tiers := ladder;
        Unsettle();
        cursor := 0;
      }
    }

    /** `delete_rollup_rows`, for the victims the store found. */
    method DeleteRollupRows(victims: set<nat>)
      requires Valid()
      modifies this`rolls, this`settled, this`settledMax
      ensures Valid() && StateOf() == Apply(old(StateOf()), DropRollups(victims))
    {
      hide ValidRollups, SettledMax, WellFormed, Timely;
      DropValid(rolls, victims);
      var rest := Kept(rolls, victims);
      if rest != rolls {
        rolls := rest;
        Unsettle();
      }
    }

    /** `rollback_txn_frame`, what it does to the rollups: the host has put the
        rows back, and nothing planned or begun is kept. */
    method RollbackFrame(rowsBefore: seq<Row>, rollsBefore: seq<Chunk>, tiersBefore: seq<int>)
      requires Valid() && ValidRows(rowsBefore) && ValidRollups(rollsBefore) && ValidLadder(tiersBefore)
      modifies this
      ensures Valid() && StateOf() == Apply(old(StateOf()), Rollback(rowsBefore, rollsBefore, tiersBefore))
    {
      hide ValidRollups, SettledMax, WellFormed, Timely, Forgotten;
      rows, rolls := rowsBefore, rollsBefore;
      Unsettle();
      series, highWater, cursor := [], None, 0;
      tiers := tiersBefore;
    }

    lemma EnvHere(limit: Option<nat>)
      requires Valid() && highWater.Some?
      ensures var e := Env(rows, rolls, tiers, series, highWater.value, settled);
              && ValidEnv(e) && Positive(e)
              && LastWalk(StateOf(), limit) == WalkOn(e, limit, FirstWalk(e, limit, cursor, started))
    {
      hide WalkOn, ValidRollups, WellFormed, Timely;
      EnvValid(StateOf(), highWater.value);
    }

    lemma StartedHere(st: State)
      requires ValidState(st) && settledMax == SettledMax(st.settled)
      requires rows == st.rows && rolls == st.rolls && tiers == st.tiers && settled == st.settled
      requires cursor == st.cursor && series == st.series && highWater == st.highWater
      ensures Valid() && StateOf() == st.(started := started)
    {
    }
  }

  lemma FirstIs(e: Env, limit: Option<nat>, cursor: nat, started: Option<Mark>)
    ensures var w := FirstWalk(e, limit, cursor, started);
            w.Walk? && WalkOk(e, w) && w.at <= w.end <= Count(e) && w.started == started
  {
  }

  lemma PieceMarkOf(e: Env, k: nat, found: Found, started: Option<Mark>)
    requires Positive(e) && k < Count(e)
    ensures PieceOf(e, k, found) ==
            if found.Buckets? then [Piece(SeriesAt(e, k), TierAt(e, k), found.buckets)] else []
    ensures var r := TierAt(e, k);
            var to := ProduceTo(e.highWater, r);
            MarkOf(e, k, started) ==
            if k + 1 == TierEnd(e, k) && started == Some(Mark(r, e.highWater)) && to.Some? then [Mark(r, to.value)] else []
  {
  }

  /** The ids a pass gives out follow those there are. */
  lemma PassIds(st: State, first: nat)
    requires ValidState(st) && IdsBelow(st.rolls, first)
    ensures var o := Step(st, None, first); o.Done? ==> IdsBelow(o.next.rolls, first + |o.batch|)
  {
    hide LastWalk, Written, Settle, ValidRollups, HighWater, AllSeries, AllSettled, Full, WellFormed, Timely, Walked;
    BeginValid(st, None);
    if Begin(st, None).Some? && Begin(st, None).value.series != [] {
      var b := Begin(st, None).value;
      EnvValid(b, b.highWater.value);
      LastWalkFull(b, None);
      if LastWalk(b, None).Walk? {
        FinishWalks(b, None, first);
      }
    }
  }

  /** What a pass has achieved stands when its chunks are merged. */
  lemma MergeKeepsPass(st: State, now: seq<Chunk>)
    requires ValidState(st) && Sound(st) && ValidRollups(now) && SameStored(now, st.rolls)
    ensures Sound(st.(rolls := now))
    ensures forall w | Complete(st, w) :: Complete(st.(rolls := now), w)
  {
    hide ValidRollups, Stored, Unrolled, ProduceTo;
    SameStoredSound(st, now);
    forall w | Complete(st, w) ensures Complete(st.(rolls := now), w) {
      forall r, s | r in st.tiers && ProduceTo(w, r).Some?
        ensures !Unrolled(st.rows, now, s, r, ProduceTo(w, r).value)
      {
        SameStoredUnrolled(st.rows, now, st.rolls, s, r, ProduceTo(w, r).value);
      }
    }
  }

  lemma StateRollups(st: State)
    requires ValidState(st)
    ensures ValidRollups(st.rolls)
  {
  }

  lemma MergeApplied(st: State, now: seq<Chunk>)
    requires ValidState(st) && ValidRollups(now) && SameStored(now, st.rolls)
    ensures ValidState(st.(rolls := now))
    ensures Allowed(st, Merge(now)) && Apply(st, Merge(now)) == st.(rolls := now)
  {
    hide ValidRollups, Stored;
  }

  /** `put_rollup_chunks`: one row each, ids in turn. */
  method PutChunks(rolls: seq<Chunk>, batch: seq<Piece>, first: nat) returns (now: seq<Chunk>)
    requires Full(batch)
    ensures now == Written(rolls, batch, first)
  {
    now := rolls;
    for i := 0 to |batch|
      invariant Full(batch[..i]) && now == Written(rolls, batch[..i], first)
    {
      var p := batch[i];
      assert p in batch;
      assert batch[..i + 1] == batch[..i] + [p];
      WrittenLast(rolls, batch[..i], p, first);
      now := now + [NewChunk(first + i, p.series, p.resolution, p.buckets)];
    }
    assert batch[..|batch|] == batch;
  }

  /** Every group planned, those of series with raw rows by size and the others
      whatever the sizes, and the plan applied under ids from `first`. */
  function AllMerged(rolls: seq<Chunk>, rows: seq<Row>, first: nat): seq<Chunk> {
    MergeAll(rolls, PlanKeys(rolls, set r | r in rows :: r.series, AllKeys(rolls)), first)
  }

  function SeriesSet(rows: seq<Row>): set<int> {
    set r | r in rows :: r.series
  }

  lemma BrokenKeeps(st: State, first: nat)
    requires ValidState(st) && Step(st, None, first).Broken?
    ensures var next := Step(st, None, first).next; next.rows == st.rows && next.tiers == st.tiers
  {
    hide LastWalk, Full, AllSeries, HighWater;
  }

  /** The greatest settled end, over the tiers in any order. */
  method GreatestEnd(settled: map<int, int>) returns (v: int)
    ensures v == SettledMax(settled)
  {
    var keys := settled.Keys;
    var best: Option<int> := None;
    var more := true;
    while more
      invariant keys <= settled.Keys
      invariant best.None? ==> keys == settled.Keys
      invariant best.Some? ==> exists r :: r in settled && settled[r] == best.value
      invariant forall r | r in settled && r !in keys :: best.Some? && settled[r] <= best.value
      invariant !more ==> forall r :: r !in keys
      decreases more, |keys|
    {
      if r :| r in keys {
        if best.None? || settled[r] > best.value {
          best := Some(settled[r]);
        }
        keys := keys - {r};
      } else {
        more := false;
      }
    }
    v := if best.Some? then best.value else I64_MIN;
    if best.Some? {
      assert IsMaximum(settled, v);
      OneMaximum(settled, v);
    } else {
      assert forall r :: r !in settled;
    }
  }

  lemma OneMaximum(settled: map<int, int>, v: int)
    requires IsMaximum(settled, v)
    ensures SettledMax(settled) == v
  {
  }
}
