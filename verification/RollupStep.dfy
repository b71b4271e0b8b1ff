/** A rollup pass as a step of the engine's state: begun or taken up, walked,
    written and settled. */
module RollupStep {
  import opened Sequences
  import opened ChunkTable
  import opened SeriesIndex
  import opened RollupStore
  import opened RollupPass
  import opened RollupScan
  import opened RollupCycle

  function AllSeries(rows: seq<Row>): seq<int> {
    SortedIds(SeriesColumn(rows))
  }

  predicate AllSettled(st: State, highWater: int)
    requires forall r | r in st.tiers :: r > 0
  {
    forall r | r in st.tiers :: SettledTo(st.settled, highWater, r)
  }

  predicate UnderWay(st: State, limit: Option<nat>) {
    limit.Some? && st.cursor > 0 && st.series != [] && st.highWater.Some?
  }

  /** The state a walk starts from, none where there is nothing to walk. A
      cycle reads its series and its high water at its start. */
  function Begin(st: State, limit: Option<nat>): (b: Option<State>)
    requires forall r | r in st.tiers :: r > 0
    ensures b.Some? ==> b.value.highWater.Some?
  {
    if st.tiers == [] then None
    else if UnderWay(st, limit) then Some(st)
    else
      match HighWater(st.rows)
      case None => None
      case Some(w) =>
        if AllSettled(st, w) then None
        else Some(st.(series := AllSeries(st.rows), highWater := Some(w)))
  }

  function FirstWalk(e: Env, limit: Option<nat>, cursor: nat, started: Option<Mark>): (w: Walk)
    ensures w.Walk? && WalkOk(e, w)
  {
    match limit
    case None => Walk(0, Count(e), [], [], started)
    case Some(budget) =>
      var start := Earlier(cursor, Count(e));
      Walk(start, Earlier(start + budget * SCAN_FACTOR, Count(e)), [], [], started)
  }

  function Settle(settled: map<int, int>, marks: seq<Mark>): map<int, int> {
    if marks == [] then settled
    else
      var m := marks[|marks| - 1];
      Settle(settled, marks[..|marks| - 1])[m.resolution := m.at]
  }

  datatype Outcome = Done(next: State, batch: seq<Piece>, more: bool) | Broken(next: State)

  ghost predicate Ready(b: State) {
    ValidState(b) && b.highWater.Some?
  }

  lemma BeginValid(st: State, limit: Option<nat>)
    requires ValidState(st)
    ensures Begin(st, limit).Some? ==> Ready(Begin(st, limit).value)
  {
    AllSeriesDistinct(st.rows);
  }

  lemma AllSeriesDistinct(rows: seq<Row>)
    ensures Distinct(AllSeries(rows))
    ensures forall s :: s in AllSeries(rows) <==> exists r :: r in rows && r.series == s
  {
    SortedIdsProperties(SeriesColumn(rows));
    forall s ensures s in AllSeries(rows) <==> exists r :: r in rows && r.series == s {
      SeriesColumnMember(rows, s);
    }
  }

  lemma EnvValid(b: State, highWater: int)
    requires ValidState(b)
    ensures ValidEnv(EnvOf(b, highWater)) && Positive(EnvOf(b, highWater))
  {
  }

  /** The walk a ready state makes. */
  function LastWalk(b: State, limit: Option<nat>): (w: Walk)
    requires (forall r | r in b.tiers :: r > 0) && b.highWater.Some?
    ensures WalkOk(EnvOf(b, b.highWater.value), w)
  {
    var e := EnvOf(b, b.highWater.value);
    WalkOn(e, limit, FirstWalk(e, limit, b.cursor, b.started))
  }

  lemma TurnFull(e: Env, w: Walk)
    requires ValidEnv(e) && Positive(e) && w.Walk? && w.at < w.end <= Count(e) && Full(w.batch)
    ensures Turn(e, w).Walk? ==> Full(Turn(e, w).batch)
  {
    hide VisitAt, PiecesAt, ProduceTo, TierAt, TierEnd, EntersTier, Count, ValidEnv;
    PiecesAtFull(e, w.at);
  }

  lemma {:induction false} WalkFull(e: Env, limit: Option<nat>, w: Walk)
    requires ValidEnv(e) && Positive(e) && WalkOk(e, w)
    requires w.Walk? ==> Full(w.batch)
    ensures var v := WalkOn(e, limit, w); v.Walk? ==> Full(v.batch)
    decreases if w.Walk? then Count(e) - w.at else 0
  {
    hide Turn, Full, Count, ValidEnv;
    if Going(e, limit, w) {
      TurnFull(e, w);
      WalkFull(e, limit, Turn(e, w));
    }
  }

  lemma LastWalkFull(b: State, limit: Option<nat>)
    requires Ready(b)
    ensures LastWalk(b, limit).Walk? ==> Full(LastWalk(b, limit).batch)
  {
    hide WalkOn;
    var e := EnvOf(b, b.highWater.value);
    EnvValid(b, b.highWater.value);
    WalkFull(e, limit, FirstWalk(e, limit, b.cursor, b.started));
  }

  /** The state after a walk: its batch written under ids from `first`, the
      tiers it closed settled, and the cursor where it stopped or back at the
      start. */
  function Finish(b: State, limit: Option<nat>, first: nat): Outcome
    requires (forall r | r in b.tiers :: r > 0) && b.highWater.Some?
    requires LastWalk(b, limit).Walk? ==> Full(LastWalk(b, limit).batch)
  {
    var e := EnvOf(b, b.highWater.value);
    match LastWalk(b, limit)
    case Failed(started) => Broken(b.(started := started))
    case Walk(at, _, batch, settledNow, started) =>
      var more := limit.Some? && at < Count(e);
      Done(b.(rolls := Written(b.rolls, batch, first), settled := Settle(b.settled, settledNow),
              started := started, cursor := if more then at else 0),
           batch, more)
  }

  /** `rollup_inner`. */
  ghost function Step(st: State, limit: Option<nat>, first: nat): Outcome
    requires ValidState(st)
  {
    BeginValid(st, limit);
    match Begin(st, limit)
    case None => Done(st.(cursor := 0), [], false)
    case Some(b) =>
      if b.series == [] then Done(b.(cursor := 0), [], false)
      else
        LastWalkFull(b, limit);
        Finish(b, limit, first)
  }

  // -------------------------------------------------------------- what it does

  function StartOf(b: State, limit: Option<nat>): nat
    requires b.highWater.Some?
  {
    if limit.None? then 0 else Earlier(b.cursor, Count(EnvOf(b, b.highWater.value)))
  }

  /** What a walk from `from` to `to` left behind, as the state after it. */
  ghost predicate Walked(b: State, next: State, from: nat, to: nat)
    requires Ready(b)
  {
    var e := EnvOf(b, b.highWater.value);
    && Positive(e)
    && from <= to <= Count(e)
    && Grown(e, from, to, next.rolls)
    && Passable(e, from, to)
    && next.rows == b.rows && next.tiers == b.tiers && next.series == b.series && next.highWater == b.highWater
    && (forall r | r in next.settled ::
          (r in b.settled && next.settled[r] == b.settled[r]) || ClosedIn(e, from, to, Mark(r, next.settled[r])))
  }

  lemma {:induction false} SettleFrom(settled: map<int, int>, marks: seq<Mark>)
    ensures forall r | r in Settle(settled, marks) ::
      (r in settled && Settle(settled, marks)[r] == settled[r]) || Mark(r, Settle(settled, marks)[r]) in marks
    ensures forall r | r in settled :: r in Settle(settled, marks)
    ensures forall m | m in marks :: m.resolution in Settle(settled, marks)
  {
    if marks != [] {
      var t, m := marks[..|marks| - 1], marks[|marks| - 1];
      SettleFrom(settled, t);
      assert marks == t + [m];
      var was, now := Settle(settled, t), Settle(settled, marks);
      forall r | r in now
        ensures (r in settled && now[r] == settled[r]) || Mark(r, now[r]) in marks
      {
        if r == m.resolution {
          assert Mark(r, now[r]) == m;
        } else if Mark(r, was[r]) in t {
          assert Mark(r, now[r]) in marks;
        }
      }
    }
  }

  /** Where a walk stops, and what it met and closed on the way. */
  lemma LastWalkStops(b: State, limit: Option<nat>)
    requires Ready(b) && EnvPositive(b) && LastWalk(b, limit).Walk?
    ensures var e, w, from := EnvOf(b, b.highWater.value), LastWalk(b, limit), StartOf(b, limit);
            && from <= w.at <= Count(e)
            && Passable(e, from, w.at)
            && (forall m | m in w.settledNow :: ClosedIn(e, from, w.at, m))
            && (limit.None? ==> w.at == Count(e))
  {
    hide WalkOn, Passable, ClosedIn, Count;
    var e, from := EnvOf(b, b.highWater.value), StartOf(b, limit);
    var w := FirstWalk(e, limit, b.cursor, b.started);
    assert w.at == from;
    NothingWalked(e, from);
    WalkPassable(e, limit, w, from);
    WalkSettles(e, limit, w, from);
    if limit.None? {
      WalkToEnd(e, w);
    }
  }

  /** A step settles a tier only if it entered the tier itself, or the tier is the
      one it was taken up in and the walk of that began at this high water. */
  lemma StepSettlesWhole(b: State, limit: Option<nat>, m: Mark)
    requires Ready(b) && EnvPositive(b) && LastWalk(b, limit).Walk? && m in LastWalk(b, limit).settledNow
    ensures var e, from := EnvOf(b, b.highWater.value), StartOf(b, limit);
            WalkedWhole(e, from, b.started, LastWalk(b, limit).at, m)
  {
    hide WalkOn, WalkedWhole, Count;
    var e, from := EnvOf(b, b.highWater.value), StartOf(b, limit);
    var w := FirstWalk(e, limit, b.cursor, b.started);
    assert w.at == from;
    StartKnows(e, from, b.started);
    WalkSettlesWhole(e, limit, w, from, b.started);
  }

  lemma StartKnows(e: Env, from: nat, given: Option<Mark>)
    requires Positive(e)
    ensures Knows(e, from, given, from, given)
  {
    hide TierAt;
    if from < Count(e) && !EntersTier(e, from) {
      OrdinalBounds(e, from);
      var n := |e.series|;
      assert (from / n + 1) * n == from / n * n + n;
    }
  }

  /** Where what is passed over is rightly so, a walk finds what visiting every
      group would. */
  lemma LastWalkMeans(b: State, limit: Option<nat>)
    requires Ready(b) && EnvPositive(b) && LastWalk(b, limit).Walk?
    requires SoundAhead(EnvOf(b, b.highWater.value), StartOf(b, limit))
    ensures var e, w, from := EnvOf(b, b.highWater.value), LastWalk(b, limit), StartOf(b, limit);
            && from <= w.at <= Count(e)
            && w.batch == Pieces(e, from, w.at)
            && Smooth(e, from, w.at)
            && (limit.None? ==> w.at == Count(e))
  {
    hide WalkOn, SoundAhead, Smooth, ClosedIn, Count, Passable;
    var e, from := EnvOf(b, b.highWater.value), StartOf(b, limit);
    var w := FirstWalk(e, limit, b.cursor, b.started);
    assert w.at == from;
    NothingWalked(e, from);
    WalkFinds(e, limit, w, from);
    LastWalkStops(b, limit);
    PassableIsSmooth(e, from, LastWalk(b, limit).at);
  }

  lemma NothingWalked(e: Env, from: nat)
    requires Positive(e) && from <= Count(e)
    ensures Pieces(e, from, from) == [] && Smooth(e, from, from) && Passable(e, from, from)
  {
  }

  ghost predicate EnvPositive(b: State)
    requires b.highWater.Some?
  {
    Positive(EnvOf(b, b.highWater.value))
  }

  lemma GrownValid(e: Env, a: nat, b: nat, rolls: seq<Chunk>)
    requires Positive(e) && a <= b <= Count(e) && Grown(e, a, b, rolls)
    ensures ValidRollups(rolls)
  {
  }

  /** What a walk has found so far, written. */
  ghost predicate Writes(e: Env, from: nat, w: Walk, first: nat)
    requires Positive(e) && WalkOk(e, w)
  {
    w.Walk? ==>
      && from <= w.at
      && Full(w.batch)
      && Grown(e, from, w.at, Written(e.rolls, w.batch, first))
      && IdsBelow(Written(e.rolls, w.batch, first), first + |w.batch|)
  }

  lemma TurnWrites(e: Env, from: nat, w: Walk, first: nat)
    requires ValidEnv(e) && Positive(e) && w.Walk? && w.at < w.end <= Count(e) && Writes(e, from, w, first)
    ensures Writes(e, from, Turn(e, w), first)
  {
    hide VisitAt, PiecesAt, ProduceTo, TierAt, TierEnd, EntersTier, Count, ValidEnv, Grown, Written, IdsBelow, Full,
      PassedBy;
    var v := Turn(e, w);
    if v.Walk? {
      TurnFull(e, w);
      if PassesOver(e, w.at) {
        PassesWhole(e, w.at);
        GrownOver(e, from, w.at, v.at, Written(e.rolls, w.batch, first));
      } else {
        WritingGrowsOne(e, from, w.at, w.batch, first);
      }
    }
  }

  lemma PassesWhole(e: Env, k: nat)
    requires Positive(e) && k < Count(e) && PassedBy(e, k)
    ensures forall j: nat | k <= j < TierEnd(e, k) :: PassedBy(e, j)
  {
    hide TierAt, TierEnd, ProduceTo, Count;
    forall j: nat | k <= j < TierEnd(e, k) ensures PassedBy(e, j) {
      SameTier(e, k, j);
    }
  }

  /** Whatever a walk passes over, rightly or not, what it writes is valid. */
  lemma {:induction false} WalkWrites(e: Env, limit: Option<nat>, from: nat, w: Walk, first: nat)
    requires ValidEnv(e) && Positive(e) && WalkOk(e, w) && Writes(e, from, w, first)
    ensures Writes(e, from, WalkOn(e, limit, w), first)
    decreases if w.Walk? then Count(e) - w.at else 0
  {
    hide Turn, Writes, Count, ValidEnv;
    if Going(e, limit, w) {
      TurnWrites(e, from, w, first);
      WalkWrites(e, limit, from, Turn(e, w), first);
    }
  }

  lemma NothingWritten(e: Env, w: Walk, first: nat)
    requires ValidEnv(e) && Positive(e) && w.Walk? && WalkOk(e, w) && w.batch == [] && IdsBelow(e.rolls, first)
    ensures Writes(e, w.at, w, first)
  {
    hide Grown, ValidEnv, Count;
    GrownStart(e, w.at);
  }

  /** A walk that does not fail grows every group it came past by what a visit
      of it finds, or leaves it as it was where it passed its tier over,
      rightly or not, and touches nothing else, whatever its budget. */
  lemma FinishWalks(b: State, limit: Option<nat>, first: nat)
    requires Ready(b) && EnvPositive(b) && IdsBelow(b.rolls, first)
    requires LastWalk(b, limit).Walk? && Full(LastWalk(b, limit).batch)
    ensures var w := LastWalk(b, limit);
            var o := Finish(b, limit, first);
            && o.Done?
            && Walked(b, o.next, StartOf(b, limit), w.at)
            && ValidState(o.next)
            && IdsBelow(o.next.rolls, first + |o.batch|)
            && (limit.None? ==> w.at == Count(EnvOf(b, b.highWater.value)))
  {
    hide WalkOn, Passable, ClosedIn, Count, Grown, Pieces, Written, Settle, Full, ValidEnv, IdsBelow;
    var e, from, w := EnvOf(b, b.highWater.value), StartOf(b, limit), LastWalk(b, limit);
    LastWalkStops(b, limit);
    EnvValid(b, b.highWater.value);
    var start := FirstWalk(e, limit, b.cursor, b.started);
    NothingWritten(e, start, first);
    WalkWrites(e, limit, from, start, first);
    SettleFrom(b.settled, w.settledNow);
    GrownValid(e, from, w.at, Written(b.rolls, w.batch, first));
  }

  /** A step, bounded or not, sound or not, leaves a valid state. */
  lemma StepValid(st: State, limit: Option<nat>, first: nat)
    requires ValidState(st) && IdsBelow(st.rolls, first)
    ensures ValidState(Step(st, limit, first).next)
  {
    hide ValidRollups, LastWalk, WellFormed, Timely, AllSeries, HighWater, Full, Written, Settle, Walked;
    BeginValid(st, limit);
    if Begin(st, limit).Some? && Begin(st, limit).value.series != [] {
      var b := Begin(st, limit).value;
      LastWalkFull(b, limit);
      EnvValid(b, b.highWater.value);
      if LastWalk(b, limit).Walk? {
        FinishWalks(b, limit, first);
      }
    }
  }

  // ---------------------------------------------------- a pass in one go

  lemma NoContents(rows: seq<Row>, s: int)
    requires s !in AllSeries(rows)
    ensures Contents(rows, s) == multiset{}
  {
    AllSeriesDistinct(rows);
    forall x ensures x !in Contents(rows, s) {
      ContentsMember(rows, s, x);
    }
  }

  /** Everything the ladder is due is rolled up. */
  ghost predicate Complete(st: State, highWater: int)
    requires forall r | r in st.tiers :: r > 0
  {
    forall r, s | r in st.tiers && ProduceTo(highWater, r).Some? ::
      !Unrolled(st.rows, st.rolls, s, r, ProduceTo(highWater, r).value)
  }

  /** What a whole walk leaves unrolled of a tier was so before, and its tier
      was passed over. */
  lemma WalkedLeaves(b: State, next: State, r: int, s: int)
    requires Ready(b) && b.series == AllSeries(b.rows)
    requires Walked(b, next, 0, Count(EnvOf(b, b.highWater.value)))
    requires r in b.tiers && r > 0 && ProduceTo(b.highWater.value, r).Some?
    ensures var to := ProduceTo(b.highWater.value, r).value;
            Unrolled(next.rows, next.rolls, s, r, to) ==>
            SettledTo(b.settled, b.highWater.value, r) && Unrolled(b.rows, b.rolls, s, r, to)
  {
    hide Grown, Passable, Count, ProduceTo, Contents, Watermark, AllSeries, ClosedIn;
    var w := b.highWater.value;
    EnvValid(b, w);
    if s in b.series {
      AllGroupsRolledUp(EnvOf(b, w), next.rolls, s, r);
    } else {
      NoContents(b.rows, s);
    }
  }

  lemma WalkedIsComplete(b: State, next: State)
    requires Ready(b) && b.series == AllSeries(b.rows)
    requires SettledSound(b.rows, b.rolls, b.settled)
    requires Walked(b, next, 0, Count(EnvOf(b, b.highWater.value)))
    ensures Complete(next, b.highWater.value)
  {
    hide Walked, Count, ProduceTo, Unrolled, AllSeries;
    WalkedSame(b, next);
    var w := b.highWater.value;
    forall r, s | r in next.tiers && ProduceTo(w, r).Some?
      ensures !Unrolled(next.rows, next.rolls, s, r, ProduceTo(w, r).value)
    {
      WalkedLeaves(b, next, r, s);
    }
  }

  lemma WalkedSame(b: State, next: State)
    requires Ready(b) && Walked(b, next, 0, Count(EnvOf(b, b.highWater.value)))
    ensures next.rows == b.rows && next.tiers == b.tiers
  {
  }

  lemma ClosedIsTier(e: Env, a: nat, b: nat, m: Mark)
    requires Positive(e) && ClosedIn(e, a, b, m)
    ensures m.resolution in e.tiers && m.resolution > 0 && ProduceTo(e.highWater, m.resolution) == Some(m.at)
  {
    var j: nat :| a <= j < b && Closes(e, j, m);
    AtOrdinal(e, j);
  }

  /** A settled end that is untrue after a whole walk was so before it. */
  lemma WalkedUntrue(b: State, next: State, r: int, s: int)
    requires Ready(b) && b.series == AllSeries(b.rows)
    requires Walked(b, next, 0, Count(EnvOf(b, b.highWater.value)))
    requires r in next.settled && Unrolled(next.rows, next.rolls, s, r, next.settled[r])
    ensures r in b.settled && b.settled[r] == next.settled[r] && Unrolled(b.rows, b.rolls, s, r, b.settled[r])
  {
    hide Grown, Passable, Count, ProduceTo, Contents, Watermark, AllSeries, Unrolled, ClosedIn;
    var w := b.highWater.value;
    var e := EnvOf(b, w);
    EnvValid(b, w);
    if r in b.settled && next.settled[r] == b.settled[r] {
      GrownMonotone(e, 0, Count(e), next.rolls, s, r, next.settled[r]);
    } else {
      ClosedIsTier(e, 0, Count(e), Mark(r, next.settled[r]));
      WalkedLeaves(b, next, r, s);
      assert false;
    }
  }

  lemma WalkedKeepsSound(b: State, next: State)
    requires Ready(b) && b.series == AllSeries(b.rows)
    requires SettledSound(b.rows, b.rolls, b.settled)
    requires Walked(b, next, 0, Count(EnvOf(b, b.highWater.value)))
    ensures SettledSound(next.rows, next.rolls, next.settled)
  {
    hide Walked, Unrolled, AllSeries, Count;
    forall r, s | r in next.settled ensures !Unrolled(next.rows, next.rolls, s, r, next.settled[r]) {
      if Unrolled(next.rows, next.rolls, s, r, next.settled[r]) {
        WalkedUntrue(b, next, r, s);
      }
    }
  }

  lemma AllSettledIsComplete(st: State, highWater: int)
    requires forall r | r in st.tiers :: r > 0
    requires SettledSound(st.rows, st.rolls, st.settled) && AllSettled(st, highWater)
    ensures Complete(st, highWater)
  {
    hide Unrolled, ProduceTo;
    forall r, s | r in st.tiers && ProduceTo(highWater, r).Some?
      ensures !Unrolled(st.rows, st.rolls, s, r, ProduceTo(highWater, r).value)
    {
      assert SettledTo(st.settled, highWater, r);
    }
  }

  /** `rollup()`: a pass in one go that does not fail leaves every tier rolled
      up to its coverage end and the settled ends true, whether it walked the
      settled tiers or passed over them. */
  lemma PassCompletes(st: State, first: nat)
    requires ValidState(st) && IdsBelow(st.rolls, first)
    requires SettledSound(st.rows, st.rolls, st.settled)
    requires Step(st, None, first).Done?
    ensures var next := Step(st, None, first).next;
            && ValidState(next)
            && SettledSound(next.rows, next.rolls, next.settled)
            && next.rows == st.rows && next.tiers == st.tiers
            && (HighWater(st.rows).Some? ==> Complete(next, HighWater(st.rows).value))
  {
    hide SettledSound, Complete, AllSeries, ValidRollups, LastWalk, Written, Settle, Full;
    match Begin(st, None) {
      case None =>
        if st.tiers == [] {
          NoTiers(st);
        } else if HighWater(st.rows).Some? {
          AllSettledIsComplete(st, HighWater(st.rows).value);
          SameComplete(st, st.(cursor := 0));
        }
      case Some(b) =>
        BeginValid(st, None);
        if b.series == [] {
          if st.rows != [] {
            SomeSeries(st.rows);
          }
        } else {
          var e := EnvOf(b, b.highWater.value);
          EnvValid(b, b.highWater.value);
          LastWalkFull(b, None);
          FinishWalks(b, None, first);
          var next := Step(st, None, first).next;
          WalkedIsComplete(b, next);
          WalkedKeepsSound(b, next);
        }
    }
  }

  lemma NoTiers(st: State)
    requires st.tiers == []
    ensures forall w :: Complete(st.(cursor := 0), w)
  {
  }

  lemma SameComplete(a: State, b: State)
    requires (forall r | r in a.tiers :: r > 0) && a.rows == b.rows && a.rolls == b.rolls && a.tiers == b.tiers
    ensures forall w :: Complete(a, w) <==> Complete(b, w)
  {
  }

  lemma SomeSeries(rows: seq<Row>)
    requires rows != []
    ensures AllSeries(rows) != []
  {
    AllSeriesDistinct(rows);
    var row := rows[0];
    assert row in rows;
    assert row.series in AllSeries(rows);
  }
}
