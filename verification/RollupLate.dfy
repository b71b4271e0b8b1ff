/** Samples that arrive between the steps of a bounded cycle: exactly when the
    cycle settles a tier it should not. */
module RollupLate {
  import opened Sequences
  import opened ChunkTable
  import opened RollupStore
  import opened RollupPass
  import opened RollupScan
  import opened RollupCycle
  import opened RollupStep
  import opened RollupSettled
  import opened RollupBounded

  /** The cycle has yet to come to series `s` in tier `r`. */
  ghost predicate ToCome(e: Env, k: nat, s: int, r: int)
    requires Positive(e)
  {
    exists j: nat :: k <= j < Count(e) && GroupAt(e, j, s, r)
  }

  /** Some series the cycle will not come to again in tier `r` has a sample
      unrolled that the tier is due. */
  ghost predicate LeftBehind(b: State, k: nat, r: int, to: int)
    requires b.highWater.Some? && EnvPositive(b)
  {
    exists s :: !ToCome(EnvOf(b, b.highWater.value), k, s, r) && Unrolled(b.rows, b.rolls, s, r, to)
  }

  /** What the writer can tell when it stores rows: one of them is of a series
      the cycle has walked in tier `r`, or does not list, and holds a sample
      the tier is due that its coverage does not reach. */
  ghost predicate Overtaken(b: State, added: seq<Row>, k: nat, r: int, to: int)
    requires b.highWater.Some? && EnvPositive(b)
  {
    exists row, x :: row in added && x in row.points
      && !ToCome(EnvOf(b, b.highWater.value), k, row.series, r)
      && x.ts <= to && Beyond(Watermark(b.rolls, row.series, r), x.ts)
  }

  lemma OvertakenMeans(b: State, added: seq<Row>, k: nat, r: int, to: int)
    requires b.highWater.Some? && EnvPositive(b)
    ensures Overtaken(b, added, k, r, to) <==>
            exists s :: !ToCome(EnvOf(b, b.highWater.value), k, s, r) && Unrolled(added, b.rolls, s, r, to)
  {
    hide Contents, Watermark, ToCome;
    var e := EnvOf(b, b.highWater.value);
    if Overtaken(b, added, k, r, to) {
      var row, x :| row in added && x in row.points && !ToCome(e, k, row.series, r)
        && x.ts <= to && Beyond(Watermark(b.rolls, row.series, r), x.ts);
      ContentsMember(added, row.series, x);
      assert Unrolled(added, b.rolls, row.series, r, to);
    }
    if s :| !ToCome(e, k, s, r) && Unrolled(added, b.rolls, s, r, to) {
      var x :| x in Contents(added, s) && x.ts <= to && Beyond(Watermark(b.rolls, s, r), x.ts);
      ContentsMember(added, s, x);
    }
  }

  /** A flush leaves something behind exactly when it overtakes the walk. */
  lemma FlushLeaves(b: State, added: seq<Row>, k: nat, r: int, to: int)
    requires ValidState(b) && b.highWater.Some? && EnvPositive(b) && ValidRows(added)
    ensures var next := Apply(b, Flush(added));
            && EnvPositive(next)
            && (LeftBehind(next, k, r, to) <==> LeftBehind(b, k, r, to) || Overtaken(b, added, k, r, to))
  {
    hide Contents, Watermark, Unrolled, ValidRollups, Overtaken, Count;
    var next := Apply(b, Flush(added));
    var e, f := EnvOf(b, b.highWater.value), EnvOf(next, b.highWater.value);
    OvertakenMeans(b, added, k, r, to);
    forall s ensures ToCome(e, k, s, r) <==> ToCome(f, k, s, r) {
      SameToCome(e, f, k, s, r);
    }
    forall s
      ensures Unrolled(next.rows, next.rolls, s, r, to) <==>
              Unrolled(b.rows, b.rolls, s, r, to) || Unrolled(added, b.rolls, s, r, to)
    {
      AddedUnrolled(b.rows, added, b.rolls, s, r, to);
    }
  }

  lemma SameToCome(e: Env, f: Env, k: nat, s: int, r: int)
    requires Positive(e) && Positive(f) && e.tiers == f.tiers && e.series == f.series
    ensures ToCome(e, k, s, r) <==> ToCome(f, k, s, r)
  {
    hide SeriesAt, TierAt;
    SameCount(e, f);
    forall j: nat | j < Count(e) ensures GroupAt(e, j, s, r) <==> GroupAt(f, j, s, r) {
      SameShape(e, f, j);
    }
  }

  /** A step neither leaves anything behind nor catches up with what is. */
  lemma StepLeaves(b: State, next: State, from: nat, to: nat, r: int, end: int)
    requires Ready(b) && EnvPositive(b) && Walked(b, next, from, to) && EnvPositive(next) && Met(b, from, to, r)
    requires r > 0 && ProduceTo(b.highWater.value, r) == Some(end)
    ensures LeftBehind(next, to, r, end) <==> LeftBehind(b, from, r, end)
  {
    hide Contents, Watermark, Unrolled, ValidRollups, Count, Grown, Passable, ClosedIn, ProduceTo, GroupAt, Met;
    var w := b.highWater.value;
    var e, f := EnvOf(b, w), EnvOf(next, w);
    EnvValid(b, w);
    forall s
      ensures !ToCome(f, to, s, r) && Unrolled(next.rows, next.rolls, s, r, end) <==>
              !ToCome(e, from, s, r) && Unrolled(b.rows, b.rolls, s, r, end)
    {
      SameToCome(e, f, to, s, r);
      StepLeavesOne(b, next, from, to, s, r, end);
    }
  }

  lemma StepLeavesOne(b: State, next: State, from: nat, to: nat, s: int, r: int, end: int)
    requires Ready(b) && EnvPositive(b) && Walked(b, next, from, to) && Met(b, from, to, r)
    requires r > 0 && ProduceTo(b.highWater.value, r) == Some(end)
    ensures var e := EnvOf(b, b.highWater.value);
            !ToCome(e, to, s, r) && Unrolled(b.rows, next.rolls, s, r, end) <==>
            !ToCome(e, from, s, r) && Unrolled(b.rows, b.rolls, s, r, end)
  {
    hide Contents, Watermark, Unrolled, ValidRollups, Count, Grown, VisitAt, ClosedIn, ProduceTo, GroupAt;
    var e := EnvOf(b, b.highWater.value);
    EnvValid(b, b.highWater.value);
    if ToCome(e, from, s, r) {
      var j: nat :| from <= j < Count(e) && GroupAt(e, j, s, r);
      if j < to {
        GroupAtMeans(e, j, s, r);
        GrownIsRolledUp(e, from, to, next.rolls, j);
      }
    } else {
      assert Outside(e, from, to, s, r);
      OutsideSame(e, from, to, next.rolls, s, r, end);
    }
  }

  /** The groups of tier `r` from `from` up to `to` were not passed over. */
  ghost predicate Met(b: State, from: nat, to: nat, r: int)
    requires b.highWater.Some? && EnvPositive(b)
  {
    var e := EnvOf(b, b.highWater.value);
    forall j: nat | from <= j < to && j < Count(e) && TierAt(e, j) == r :: !PassedBy(e, j)
  }

  lemma MetUnsettled(b: State, from: nat, to: nat, r: int)
    requires b.highWater.Some? && EnvPositive(b) && r > 0 && !SettledTo(b.settled, b.highWater.value, r)
    ensures Met(b, from, to, r)
  {
    hide Count, TierAt, ProduceTo;
  }

  /** A walk that stopped within a tier did not pass it over. */
  lemma MetAhead(b: State, from: nat, to: nat, r: int, started: Option<Mark>)
    requires Ready(b) && EnvPositive(b)
    requires var e := EnvOf(b, b.highWater.value); TierAhead(e, to, r) && InStride(e, to, started)
    ensures Met(b, from, to, r)
  {
    hide Count, TierAt, TierEnd, ProduceTo, ValidRollups, EntersTier;
    var e := EnvOf(b, b.highWater.value);
    var k: nat :| to <= k < Count(e) && TierAt(e, k) == r;
    forall j: nat | from <= j < to && j < Count(e) && TierAt(e, j) == r ensures !PassedBy(e, j) {
      if TierEnd(e, j) <= k {
        TiersDiffer(e, j, k);
      } else {
        SameTier(e, j, to);
        Inside(e, j, to);
      }
    }
  }

  /** A cycle that has just begun has left nothing behind. */
  lemma BeginLeavesNothing(st: State, limit: Option<nat>, r: int, to: int)
    requires ValidState(st) && st.cursor == 0 && Begin(st, limit).Some? && r in st.tiers
    ensures var b := Begin(st, limit).value;
            EnvPositive(b) && !LeftBehind(b, 0, r, to)
  {
    hide Watermark, ValidRollups, HighWater, AllSettled, GroupAt;
    var b := Begin(st, limit).value;
    var e := EnvOf(b, b.highWater.value);
    BeginValid(st, limit);
    EnvValid(b, b.highWater.value);
    var t :| 0 <= t < |b.tiers| && b.tiers[t] == r;
    forall s ensures ToCome(e, 0, s, r) || !Unrolled(b.rows, b.rolls, s, r, to) {
      if s in b.series {
        var i :| 0 <= i < |b.series| && b.series[i] == s;
        var k := OrdinalOf(e, t, i);
      } else {
        NoContents(st.rows, s);
      }
    }
  }

  // --------------------------------------------------------------- the cycle

  datatype Event = Bounded(budget: nat, first: nat) | Arrive(added: seq<Row>)

  /** A cycle with flushes between its steps. */
  ghost predicate Happens(a: State, ev: Event, b: State) {
    match ev
    case Bounded(budget, first) => Steps(a, budget, first, b)
    case Arrive(added) => Ready(a) && ValidRows(added) && b == Apply(a, Flush(added))
  }

  /** What a cycle with arrivals keeps. */
  ghost predicate OnCourse(b: State) {
    && Ready(b) && EnvPositive(b)
    && b.cursor < Count(EnvOf(b, b.highWater.value))
    && InStride(EnvOf(b, b.highWater.value), b.cursor, b.started)
  }

  lemma FlushOnCourse(b: State, added: seq<Row>)
    requires OnCourse(b) && ValidRows(added)
    ensures OnCourse(Apply(b, Flush(added)))
  {
    hide ValidRollups, Count, WellFormed, SettledMax, SeriesAt, TierAt, EntersTier, ProduceTo;
    var next := Apply(b, Flush(added));
    var e, f := EnvOf(b, b.highWater.value), EnvOf(next, b.highWater.value);
    SameCount(e, f);
    FlushValid(b, added);
    if b.cursor < Count(e) {
      SameShape(e, f, b.cursor);
      SameEnters(e, f, b.cursor);
    }
  }

  lemma SameEnters(e: Env, f: Env, k: nat)
    requires f.tiers == e.tiers && f.series == e.series && k < Count(e)
    ensures k < Count(f) && (EntersTier(f, k) <==> EntersTier(e, k))
  {
  }

  /** A step settles tiers it has behind it, not the one it stopped in. */
  lemma StepStride(b: State, next: State, from: nat, at: nat, started: Option<Mark>)
    requires Ready(b) && EnvPositive(b) && Walked(b, next, from, at) && next.highWater.Some? && EnvPositive(next)
    requires InStride(EnvOf(b, b.highWater.value), at, started)
    ensures InStride(EnvOf(next, b.highWater.value), at, started)
  {
    hide Count, TierAt, TierEnd, ProduceTo, ValidRollups, EntersTier, Grown, Passable, ClosedIn;
    var w := b.highWater.value;
    var e, f := EnvOf(b, w), EnvOf(next, w);
    EnvValid(b, w);
    SameCount(e, f);
    if at < Count(f) && !EntersTier(f, at) {
      SameShape(e, f, at);
      SameEnters(e, f, at);
      var r := TierAt(e, at);
      assert TierAhead(e, at, r);
      if r in next.settled && ClosedIn(e, from, at, Mark(r, next.settled[r])) {
        ClosedIsBehind(e, from, at, Mark(r, next.settled[r]));
      }
    }
  }

  lemma FlushValid(b: State, added: seq<Row>)
    requires Ready(b) && ValidRows(added)
    ensures Ready(Apply(b, Flush(added))) && EnvPositive(Apply(b, Flush(added)))
  {
    hide ValidRollups, WellFormed, SettledMax;
    forall r | r in b.rows + added ensures r in b.rows || r in added {
    }
  }

  lemma StepOnCourse(b: State, budget: nat, first: nat, next: State)
    requires OnCourse(b) && Steps(b, budget, first, next)
    ensures OnCourse(next) && b.cursor < next.cursor && Walked(b, next, b.cursor, next.cursor)
    ensures LastWalk(b, Some(budget)).at == next.cursor
  {
    hide LastWalk, Grown, SoundAhead, Pieces, VisitAt, Written, IdsBelow, Count, Passable, Full, Settle, ClosedIn,
      ValidState, InStride;
    var limit := Some(budget);
    FinishWalks(b, limit, first);
    StepAdvances(b, budget);
    LastWalkInStride(b, limit);
    var w := b.highWater.value;
    SameCount(EnvOf(b, w), EnvOf(next, w));
    EnvValid(next, w);
    StepStride(b, next, b.cursor, next.cursor, next.started);
  }

  lemma LastWalkInStride(b: State, limit: Option<nat>)
    requires Ready(b) && EnvPositive(b)
    requires InStride(EnvOf(b, b.highWater.value), StartOf(b, limit), b.started)
    requires LastWalk(b, limit).Walk?
    ensures InStride(EnvOf(b, b.highWater.value), LastWalk(b, limit).at, LastWalk(b, limit).started)
  {
    hide WalkOn, InStride, Count;
    var e := EnvOf(b, b.highWater.value);
    WalkInStride(e, limit, FirstWalk(e, limit, b.cursor, b.started));
  }

  lemma BeginOnCourse(st: State, limit: Option<nat>)
    requires ValidState(st) && st.cursor == 0
    requires Begin(st, limit).Some? && Begin(st, limit).value.series != []
    ensures OnCourse(Begin(st, limit).value)
  {
    hide ValidRollups, HighWater, AllSettled;
    var b := Begin(st, limit).value;
    BeginValid(st, limit);
    EnvValid(b, b.highWater.value);
    assert |b.tiers| > 0 && |b.series| > 0;
    SomeGroups(|b.tiers|, |b.series|);
  }

  lemma SomeGroups(m: nat, n: nat)
    requires m > 0 && n > 0
    ensures m * n > 0
  {
  }

  ghost predicate IsCourse(states: seq<State>, events: seq<Event>) {
    && |states| == |events| + 1
    && forall i | 0 <= i < |events| :: Happens(states[i], events[i], states[i + 1])
  }

  lemma {:induction false} CourseKept(states: seq<State>, events: seq<Event>)
    requires IsCourse(states, events) && OnCourse(states[0])
    ensures OnCourse(states[|events|])
    ensures states[|events|].tiers == states[0].tiers && states[|events|].series == states[0].series
    ensures states[|events|].highWater == states[0].highWater && states[0].cursor <= states[|events|].cursor
    decreases |events|
  {
    hide OnCourse, Steps, ValidRows, Unsettles;
    if events != [] {
      var n := |events| - 1;
      assert states[..n + 1][n] == states[n];
      CoursePrefix(states, events);
      CourseKept(states[..n + 1], events[..n]);
      var a, b := states[n], states[n + 1];
      assert Happens(a, events[n], b);
      match events[n] {
        case Bounded(budget, first) => StepOnCourse(a, budget, first, b);
        case Arrive(added) => FlushOnCourse(a, added);
      }
    }
  }

  lemma CoursePrefix(states: seq<State>, events: seq<Event>)
    requires IsCourse(states, events) && events != []
    ensures IsCourse(states[..|events|], events[..|events| - 1])
  {
    hide Happens;
    var n := |events| - 1;
    forall i | 0 <= i < n ensures Happens(states[..n + 1][i], events[..n][i], states[..n + 1][i + 1]) {
      assert Happens(states[i], events[i], states[i + 1]);
    }
  }

  /** Event `i` overtakes the walk of tier `r`. */
  ghost predicate OvertakenAt(states: seq<State>, events: seq<Event>, i: nat, r: int, to: int)
    requires |states| == |events| + 1
  {
    && i < |events|
    && events[i].Arrive?
    && states[i].highWater.Some? && EnvPositive(states[i])
    && Overtaken(states[i], events[i].added, states[i].cursor, r, to)
  }

  ghost predicate StillAhead(b: State, r: int) {
    b.highWater.Some? && EnvPositive(b) && TierAhead(EnvOf(b, b.highWater.value), b.cursor, r)
  }

  /** As long as a tier is not wholly behind the walk, something of it is left
      behind exactly when some flush overtook the walk. */
  lemma {:induction false} CourseLeaves(states: seq<State>, events: seq<Event>, r: int, to: int)
    requires IsCourse(states, events) && OnCourse(states[0])
    requires r > 0 && ProduceTo(states[0].highWater.value, r) == Some(to)
    requires !LeftBehind(states[0], states[0].cursor, r, to) && StillAhead(states[|events|], r)
    ensures OnCourse(states[|events|])
    ensures LeftBehind(states[|events|], states[|events|].cursor, r, to) <==>
            exists i: nat :: OvertakenAt(states, events, i, r, to)
    decreases |events|
  {
    hide Steps, ValidRows, Unsettles, Overtaken, LeftBehind, InStride, ProduceTo, Count;
    CourseKept(states, events);
    if events == [] {
      assert forall i: nat :: !OvertakenAt(states, events, i, r, to);
    } else {
      var n := |events| - 1;
      var s', e' := states[..n + 1], events[..n];
      CoursePrefix(states, events);
      CourseKept(s', e');
      assert s'[n] == states[n];
      AheadBefore(states[n], events[n], states[n + 1], r);
      CourseLeaves(s', e', r, to);
      forall i: nat
        ensures OvertakenAt(states, events, i, r, to) <==>
                OvertakenAt(s', e', i, r, to) || (i == n && OvertakenAt(states, events, n, r, to))
      {
        if i < n {
          assert s'[i] == states[i] && e'[i] == events[i];
        }
      }
      LastEvent(states[n], events[n], states[n + 1], r, to);
      var now := LeftBehind(states[n], states[n].cursor, r, to);
      assert OvertakenAt(states, events, n, r, to) <==>
             events[n].Arrive? && Overtaken(states[n], events[n].added, states[n].cursor, r, to);
      if now {
        var i: nat :| OvertakenAt(s', e', i, r, to);
        assert OvertakenAt(states, events, i, r, to);
      } else {
        assert forall i: nat :: !OvertakenAt(s', e', i, r, to);
      }
    }
  }

  lemma AheadBefore(a: State, ev: Event, b: State, r: int)
    requires OnCourse(a) && Happens(a, ev, b) && StillAhead(b, r)
    ensures StillAhead(a, r)
  {
    hide Steps, Unsettles, InStride, ProduceTo, Count, Forgotten, ValidRollups, WellFormed, Timely, TierAhead, Walked;
    match ev {
      case Bounded(budget, first) => StepOnCourse(a, budget, first, b);
      case Arrive(added) =>
    }
    if ev.Bounded? {
      WalkedFrame(a, b, a.cursor, b.cursor);
    }
    AheadSame(EnvOf(a, a.highWater.value), EnvOf(b, b.highWater.value), a.cursor, b.cursor, r);
  }

  lemma WalkedFrame(b: State, next: State, from: nat, to: nat)
    requires Ready(b) && Walked(b, next, from, to)
    ensures next.tiers == b.tiers && next.series == b.series && next.highWater == b.highWater
  {
  }

  lemma LastEvent(a: State, ev: Event, b: State, r: int, to: int)
    requires OnCourse(a) && Happens(a, ev, b) && OnCourse(b) && StillAhead(b, r)
    requires r > 0 && ProduceTo(a.highWater.value, r) == Some(to)
    ensures LeftBehind(b, b.cursor, r, to) <==>
            LeftBehind(a, a.cursor, r, to) || (ev.Arrive? && Overtaken(a, ev.added, a.cursor, r, to))
  {
    hide Steps, Unsettles, Overtaken, LeftBehind, InStride, ProduceTo, Count;
    match ev {
      case Bounded(budget, first) =>
        StepOnCourse(a, budget, first, b);
        MetBy(a, budget, first, b, r);
        StepLeaves(a, b, a.cursor, b.cursor, r, to);
      case Arrive(added) =>
        FlushLeaves(a, added, a.cursor, r, to);
    }
  }

  lemma MetBy(a: State, budget: nat, first: nat, b: State, r: int)
    requires OnCourse(a) && Steps(a, budget, first, b) && StillAhead(b, r)
    ensures Met(a, a.cursor, b.cursor, r)
  {
    hide LastWalk, Written, IdsBelow, Count, Full, Settle, ValidState, InStride, TierAhead, Met, Walked;
    StepOnCourse(a, budget, first, b);
    WalkedFrame(a, b, a.cursor, b.cursor);
    var w := a.highWater.value;
    AheadSame(EnvOf(a, w), EnvOf(b, w), b.cursor, b.cursor, r);
    LastWalkInStride(a, Some(budget));
    MetAhead(a, a.cursor, b.cursor, r, LastWalk(a, Some(budget)).started);
  }

  // ------------------------------------------------------ closing the tier

  lemma {:induction false} SettleHas(settled: map<int, int>, marks: seq<Mark>, r: int, at: int)
    requires Mark(r, at) in marks && forall m | m in marks && m.resolution == r :: m.at == at
    ensures r in Settle(settled, marks) && Settle(settled, marks)[r] == at
  {
    if marks != [] {
      var t, m := marks[..|marks| - 1], marks[|marks| - 1];
      assert marks == t + [m];
      if m.resolution != r {
        assert Mark(r, at) in t;
        SettleHas(settled, t, r, at);
      }
    }
  }

  /** The step that closes an unsettled tier settles it. */
  lemma ClosingSettles(b: State, budget: nat, first: nat, j: nat, m: Mark)
    requires OnCourse(b) && LastWalk(b, Some(budget)).Walk? && Full(LastWalk(b, Some(budget)).batch)
    requires IdsBelow(b.rolls, first)
    requires b.cursor <= j < LastWalk(b, Some(budget)).at
    requires Closes(EnvOf(b, b.highWater.value), j, m)
    requires m.resolution > 0 && !SettledTo(b.settled, b.highWater.value, m.resolution)
    ensures var next := Finish(b, Some(budget), first).next;
            m.resolution in next.settled && next.settled[m.resolution] == m.at
  {
    hide LastWalk, WalkOn, Grown, SoundAhead, Pieces, VisitAt, Written, Count, Passable, Full, ClosedIn, ValidState,
      InStride, Settle, ProduceTo;
    var limit := Some(budget);
    var e := EnvOf(b, b.highWater.value);
    LastWalkStops(b, limit);
    LastWalkOwes(b, limit);
    var marks := LastWalk(b, limit).settledNow;
    forall q | q in marks && q.resolution == m.resolution ensures q.at == m.at {
      ClosedIsTier(e, b.cursor, LastWalk(b, limit).at, q);
    }
    SettleHas(b.settled, marks, m.resolution, m.at);
  }

  lemma LastWalkOwes(b: State, limit: Option<nat>)
    requires Ready(b) && EnvPositive(b)
    requires InStride(EnvOf(b, b.highWater.value), StartOf(b, limit), b.started)
    requires LastWalk(b, limit).Walk?
    ensures Owed(EnvOf(b, b.highWater.value), StartOf(b, limit), LastWalk(b, limit).at, LastWalk(b, limit).settledNow)
  {
    hide WalkOn, InStride, Count;
    var e := EnvOf(b, b.highWater.value);
    WalkOwes(e, limit, FirstWalk(e, limit, b.cursor, b.started), StartOf(b, limit));
  }

  lemma ClosedLeavesNone(e: Env, k: nat, m: Mark, s: int)
    requires Positive(e) && Distinct(e.tiers) && ClosedIn(e, 0, k, m)
    ensures !ToCome(e, k, s, m.resolution)
  {
    hide Count, ClosedIn;
    ClosedIsBehind(e, 0, k, m);
    forall j: nat | k <= j < Count(e) ensures !GroupAt(e, j, s, m.resolution) {
    }
  }

  /** The exact condition. A cycle begins, goes on with flushes between its
      steps, and its last step closes tier `m.resolution`. The tier is then
      settled to its coverage end, and that is true of it if and only if no
      flush since the cycle began overtook its walk. */
  lemma SettlesRightly(st: State, limit: Option<nat>, states: seq<State>, events: seq<Event>,
                       budget: nat, first: nat, j: nat, m: Mark)
    requires ValidState(st) && st.cursor == 0
    requires Begin(st, limit).Some? && Begin(st, limit).value.series != []
    requires IsCourse(states, events) && states[0] == Begin(st, limit).value
    requires Ready(states[|events|]) && EnvPositive(states[|events|])
    requires LastWalk(states[|events|], Some(budget)).Walk? && Full(LastWalk(states[|events|], Some(budget)).batch)
    requires IdsBelow(states[|events|].rolls, first)
    requires states[|events|].cursor <= j < LastWalk(states[|events|], Some(budget)).at
    requires Closes(EnvOf(states[|events|], states[|events|].highWater.value), j, m)
    requires m.resolution > 0 && !SettledTo(states[|events|].settled, states[|events|].highWater.value, m.resolution)
    ensures var next := Finish(states[|events|], Some(budget), first).next;
            && m.resolution in next.settled && next.settled[m.resolution] == m.at
            && ((forall s :: !Unrolled(next.rows, next.rolls, s, m.resolution, m.at)) <==>
                forall i: nat :: !OvertakenAt(states, events, i, m.resolution, m.at))
  {
    hide LastWalk, Grown, SoundAhead, Pieces, VisitAt, Written, Count, Passable, Full, Settle, ValidState, InStride,
      AheadSound, ProduceTo, OvertakenAt, Happens, Unrolled, Walked, OnCourse, Begin, LeftBehind, Sound;
    var r, to := m.resolution, m.at;
    var b := states[|events|];
    BeginOnCourse(st, limit);
    CourseKept(states, events);
    TierOfMark(b, j, m);
    BeginLeaves(st, limit, r, to);
    assert StillAhead(b, r);
    CourseLeaves(states, events, r, to);
    ClosingSettles(b, budget, first, j, m);
    LastStepLeaves(b, budget, first, j, m);
  }

  lemma TierOfMark(b: State, j: nat, m: Mark)
    requires OnCourse(b) && Closes(EnvOf(b, b.highWater.value), j, m)
    ensures b.highWater.Some? && m.resolution in b.tiers && m.resolution > 0
    ensures ProduceTo(b.highWater.value, m.resolution) == Some(m.at)
  {
    AtOrdinal(EnvOf(b, b.highWater.value), j);
  }

  lemma BeginLeaves(st: State, limit: Option<nat>, r: int, to: int)
    requires ValidState(st) && st.cursor == 0 && Begin(st, limit).Some? && r in Begin(st, limit).value.tiers
    ensures var b := Begin(st, limit).value;
            b.cursor == 0 && EnvPositive(b) && !LeftBehind(b, b.cursor, r, to)
  {
    hide LeftBehind, HighWater, AllSettled;
    BeginLeavesNothing(st, limit, r, to);
  }

  lemma LastStepLeaves(b: State, budget: nat, first: nat, j: nat, m: Mark)
    requires OnCourse(b) && LastWalk(b, Some(budget)).Walk? && Full(LastWalk(b, Some(budget)).batch)
    requires IdsBelow(b.rolls, first)
    requires b.cursor <= j < LastWalk(b, Some(budget)).at
    requires Closes(EnvOf(b, b.highWater.value), j, m)
    requires m.resolution > 0 && !SettledTo(b.settled, b.highWater.value, m.resolution)
    ensures var next := Finish(b, Some(budget), first).next;
            (exists s :: Unrolled(next.rows, next.rolls, s, m.resolution, m.at)) <==>
            LeftBehind(b, b.cursor, m.resolution, m.at)
  {
    hide LastWalk, Grown, SoundAhead, Pieces, VisitAt, Written, Count, Passable, Full, Settle, InStride,
      ProduceTo, Unrolled, ToCome, ValidRollups;
    var limit := Some(budget);
    var at := LastWalk(b, limit).at;
    var e := EnvOf(b, b.highWater.value);
    FinishWalks(b, limit, first);
    var next := Finish(b, limit, first).next;
    TierOfMark(b, j, m);
    EnvValid(next, b.highWater.value);
    MetUnsettled(b, b.cursor, at, m.resolution);
    StepLeaves(b, next, b.cursor, at, m.resolution, m.at);
    var f := EnvOf(next, b.highWater.value);
    forall s ensures !ToCome(f, at, s, m.resolution) {
      assert ClosedIn(e, 0, at, m);
      ClosedLeavesNone(e, at, m, s);
      SameToCome(e, f, at, s, m.resolution);
    }
  }
}
