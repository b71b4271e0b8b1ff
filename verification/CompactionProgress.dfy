/** Without deletions every step of a sweep that leaves work brings its end
    nearer: fewer raw and oversized chunks, or as many and fewer small ones, or
    the same table and less left to read. */
module CompactionProgress {
  import opened Sequences
  import opened Samples
  import opened ChunkTable
  import opened CompactionPlanner
  import opened CompactionExec
  import opened CompactionSweep
  import opened CompactionRun
  import opened CompactionLeft
  import opened CompactionFixedPoint

  function Unpacked(r: Row): int {
    if r.enc.Raw? || |r.points| > TARGET_POINTS then 1 else 0
  }

  function Small(r: Row): int {
    if r.enc.Pco? && |r.points| < TARGET_POINTS then 1 else 0
  }

  function RawOrOversized(rows: seq<Row>): int {
    Sum(rows, Unpacked)
  }

  function UnderTarget(rows: seq<Row>): int {
    Sum(rows, Small)
  }

  /** Only the last piece of a cut can be short of the target. */
  lemma {:induction false} CutSmall(part: seq<Row>, series: int, pts: seq<Sample>)
    requires EncodesCut(part, series, pts)
    ensures Sum(part, Unpacked) == 0 && Sum(part, Small) <= 1
    decreases |pts|
  {
    EncodesCutNext(part, series, pts);
    if pts == [] {
    } else if |pts| <= TARGET_POINTS {
      assert part == [part[0]];
      SumOne(part[0], Unpacked);
      SumOne(part[0], Small);
    } else {
      assert Unpacked(part[0]) == 0 && Small(part[0]) == 0;
      hide EncodesCut, Encodes, Sum;
      CutSmall(part[1..], series, pts[TARGET_POINTS..]);
      assert part == [part[0]] + part[1..];
      SumConcat([part[0]], part[1..], Unpacked);
      SumConcat([part[0]], part[1..], Small);
      SumOne(part[0], Unpacked);
      SumOne(part[0], Small);
    }
  }

  lemma RewritesSmall(from: seq<Row>, series: int, part: seq<Row>)
    requires Rewrites(from, series, part)
    ensures Sum(part, Unpacked) == 0 && Sum(part, Small) <= 1
  {
    var pts: seq<Sample> :|
      SortedTs(pts) && multiset(pts) == multiset(PointsOf(from)) && EncodesCut(part, series, pts);
    CutSmall(part, series, pts);
  }

  lemma {:induction false} CountAll(rows: seq<Row>, f: Row -> int)
    requires forall r | r in rows :: f(r) == 1
    ensures Sum(rows, f) == |rows|
  {
    if rows != [] {
      CountAll(rows[..|rows| - 1], f);
    }
  }

  lemma ExactSource(rows: seq<Row>, g: Group, i: nat)
    requires ValidTable(rows) && Present(rows, g) && i < |g.sources|
    requires forall ref | ref in g.sources :: ExactlyStored(rows, g.series, ref)
    ensures GroupRows(rows, g)[i].enc == g.sources[i].enc
    ensures |GroupRows(rows, g)[i].points| == g.sources[i].count
  {
    assert ExactlyStored(rows, g.series, g.sources[i]);
    var r :| r in rows && r.series == g.series && RefOf(r) == g.sources[i];
    UniqueId(rows, r, GroupRows(rows, g)[i]);
  }

  /** What doing one group takes away. */
  lemma GroupProgress(rows: seq<Row>, g: Group, part: seq<Row>)
    requires ValidTable(rows) && Present(rows, g) && WellPlanned(g)
    requires forall ref | ref in g.sources :: ExactlyStored(rows, g.series, ref)
    requires Rewrites(GroupRows(rows, g), g.series, part)
    ensures Sum(part, Unpacked) == 0
    ensures Sum(GroupRows(rows, g), Unpacked) >= 0 && Sum(GroupRows(rows, g), Small) >= 0
    ensures Sum(GroupRows(rows, g), Unpacked) >= 1 || Sum(part, Small) < Sum(GroupRows(rows, g), Small)
  {
    hide Sum, Present, ExactlyStored, Rewrites;
    var from := GroupRows(rows, g);
    RewritesSmall(from, g.series, part);
    SumNonNegative(from, Unpacked);
    SumNonNegative(from, Small);
    if g.kind.RawCompression? || |g.sources| == 1 {
      UnpackedGroup(rows, g);
    } else {
      SmallGroup(rows, g);
    }
  }

  lemma UnpackedGroup(rows: seq<Row>, g: Group)
    requires ValidTable(rows) && Present(rows, g) && WellPlanned(g)
    requires forall ref | ref in g.sources :: ExactlyStored(rows, g.series, ref)
    requires g.kind.RawCompression? || |g.sources| == 1
    ensures Sum(GroupRows(rows, g), Unpacked) >= 1
  {
    var from := GroupRows(rows, g);
    assert g.sources[0] in g.sources;
    ExactSource(rows, g, 0);
    assert from[0] in from;
    SumMember(from, Unpacked, from[0]);
  }

  lemma SmallGroup(rows: seq<Row>, g: Group)
    requires ValidTable(rows) && Present(rows, g) && WellPlanned(g)
    requires forall ref | ref in g.sources :: ExactlyStored(rows, g.series, ref)
    requires g.kind.CompressedMerge? && |g.sources| >= 2
    ensures Sum(GroupRows(rows, g), Small) >= 2
  {
    var from := GroupRows(rows, g);
    forall r | r in from ensures Small(r) == 1 {
      var i :| 0 <= i < |from| && from[i] == r;
      ExactSource(rows, g, i);
      assert g.sources[i] in g.sources;
    }
    CountAll(from, Small);
  }

  lemma {:induction false} DoneProgress(rows: seq<Row>, done: seq<Group>, parts: seq<seq<Row>>)
    requires ValidTable(rows) && AllPresent(rows, done) && SourcesThere(rows, done)
    requires forall g | g in done :: WellPlanned(g)
    requires RewritesEach(rows, done, parts)
    ensures Sum(Flatten(parts), Unpacked) == 0 && Sum(AllRows(rows, done), Unpacked) >= 0
    ensures Sum(AllRows(rows, done), Unpacked) == 0 ==>
              Sum(Flatten(parts), Small) + |done| <= Sum(AllRows(rows, done), Small)
    decreases |done|
  {
    if done != [] {
      hide AllRows, GroupRows, Sum, Flatten, RewritesEach, Rewrites, WellPlanned, ExactlyStored;
      var n := |done| - 1;
      RewritesEachLast(rows, done, parts);
      LastGroupTotals(rows, done, parts, Unpacked);
      LastGroupTotals(rows, done, parts, Small);
      DoneProgress(rows, done[..n], parts[..n]);
      GroupProgress(rows, done[n], parts[n]);
    }
  }

  /** The measure of a sweep, most significant first. */
  ghost predicate Nearer(s: State, s': State)
    requires s.plan.Some? && s'.plan.Some?
  {
    || RawOrOversized(s'.rows) < RawOrOversized(s.rows)
    || (&& RawOrOversized(s'.rows) == RawOrOversized(s.rows)
        && UnderTarget(s'.rows) < UnderTarget(s.rows))
    || (&& s'.rows == s.rows
        && UnreadSize(s'.rows, s'.plan.value) < UnreadSize(s.rows, s.plan.value))
  }

  lemma WorkIsProgress(s: State, cutoff: int, b: Budget, n: nat, done: seq<Group>, rest: seq<Group>,
                       parts: seq<seq<Row>>, s': State, more: bool)
    requires Sweeping(s) && WorkStep(s, cutoff, b, n, done, rest, parts, s', more)
    ensures done != []
    ensures RawOrOversized(s'.rows) < RawOrOversized(s.rows)
            || (RawOrOversized(s'.rows) == RawOrOversized(s.rows) && UnderTarget(s'.rows) < UnderTarget(s.rows))
  {
    hide Loaded;
    var p := Loaded(s, cutoff, b);
    LoadedValid(s, cutoff, b);
    LoadedInStep(s, cutoff, b);
    AllStillThere(s.rows, p.groups[..n]);
    assert (done + rest)[0] == p.groups[0];
    WorkedValid(s.rows, p, n, done, rest);
    WorkedOnce(s.rows, p, n, done, rest);
    DoneProgress(s.rows, done, parts);
    SwapTotals(s.rows, done, parts, s'.rows, Unpacked);
    SwapTotals(s.rows, done, parts, s'.rows, Small);
  }

  lemma {:induction false} RefillAppends(rows: seq<Row>, lately: set<int>, p: Plan, want: nat, stretches: nat)
    ensures p.groups <= Refilled(rows, lately, p, want, stretches).groups
    decreases stretches
  {
    if |p.groups| < want && stretches > 0 && !p.pending.Done? {
      RefillAppends(rows, lately, PlanStretch(rows, lately, p), want, stretches - 1);
    }
  }

  lemma IdleIsProgress(s: State, cutoff: int, b: Budget, s': State)
    requires Sweeping(s) && Kept(s, cutoff, RawMin(b)) && b.maxSeries >= 1
    requires IdleStep(s, cutoff, b, s', true)
    ensures s'.rows == s.rows && UnreadSize(s'.rows, s'.plan.value) < UnreadSize(s.rows, s.plan.value)
  {
    var p, q := s.plan.value, Loaded(s, cutoff, b);
    RefillAppends(s.rows, s.lately, p, Want(b), PLAN_STRETCHES_PER_STEP);
    RefillReads(s.rows, s.lately, p, Want(b), PLAN_STRETCHES_PER_STEP);
    LoadedValid(s, cutoff, b);
    ContinuesReads(s.rows, s.lately, s.chunkSeq, q, PLAN_STRETCHES_PER_STEP);
  }

  /** A step of a sweep under way that reports more brings the end nearer. */
  lemma StepIsProgress(s: State, cutoff: int, b: Budget, s': State)
    requires Sweeping(s) && Kept(s, cutoff, RawMin(b)) && b.maxSeries >= 1
    requires CompactionStep(s, cutoff, b, s', true)
    ensures s'.plan.Some? && Nearer(s, s')
  {
    if IdleStep(s, cutoff, b, s', true) {
      IdleIsProgress(s, cutoff, b, s');
    } else {
      var n, done, rest, parts :| WorkStep(s, cutoff, b, n, done, rest, parts, s', true);
      WorkIsProgress(s, cutoff, b, n, done, rest, parts, s', true);
    }
  }

  ghost function Left(s: State): (int, int, int) {
    (RawOrOversized(s.rows), UnderTarget(s.rows), if s.plan.Some? then UnreadSize(s.rows, s.plan.value) else 0)
  }

  lemma MeasureNonNegative(s: State)
    requires Safe(s) && s.plan.Some?
    ensures RawOrOversized(s.rows) >= 0 && UnderTarget(s.rows) >= 0 && UnreadSize(s.rows, s.plan.value) >= 0
  {
    SumNonNegative(s.rows, Unpacked);
    SumNonNegative(s.rows, Small);
    var p := s.plan.value;
    if p.pending.From? {
      AtOrAboveFalls(s.rows, p.pending.from, p.pending.from);
    }
  }

  // ------------------------------------------------------------ a sweep ends

  /** Steps for one cutoff, one after another without end: each with the budget
      it likes, stopped where the clock likes, and a word on whether there is
      more. */
  ghost predicate Sweeps(states: nat -> State, cutoff: int, budgets: nat -> Budget, more: nat -> bool) {
    forall i: nat ::
      && Indexed(states(i).rows)
      && budgets(i).maxSeries >= 1 && RawMin(budgets(i)) == RawMin(budgets(0))
      && CompactionStep(states(i), cutoff, budgets(i), states(i + 1), more(i))
  }

  lemma SweepsAt(states: nat -> State, cutoff: int, budgets: nat -> Budget, more: nat -> bool, i: nat)
    requires Sweeps(states, cutoff, budgets, more)
    ensures Indexed(states(i).rows) && budgets(i).maxSeries >= 1 && RawMin(budgets(i)) == RawMin(budgets(0))
    ensures CompactionStep(states(i), cutoff, budgets(i), states(i + 1), more(i))
  {
  }

  lemma {:induction false} SweepEndsFrom(states: nat -> State, cutoff: int, budgets: nat -> Budget, more: nat -> bool,
                                         i: nat)
    returns (n: nat)
    requires Sweeps(states, cutoff, budgets, more) && Sweeping(states(i))
    requires Kept(states(i), cutoff, RawMin(budgets(0)))
    ensures n >= i && !more(n) && forall j: nat | i <= j < n :: more(j)
    decreases Left(states(i)).0, Left(states(i)).1, Left(states(i)).2
  {
    hide Sweeps, CompactionStep, Sweeping, Safe, RawOrOversized, UnderTarget, UnreadSize;
    n := i;
    if more(i) {
      SweepsAt(states, cutoff, budgets, more, i);
      SweepsAt(states, cutoff, budgets, more, i + 1);
      var s, next := states(i), states(i + 1);
      StepKeepsSweep(s, cutoff, budgets(i), next, true);
      SweepingSafe(s);
      MeasureNonNegative(s);
      StepIsProgress(s, cutoff, budgets(i), next);
      n := SweepEndsFrom(states, cutoff, budgets, more, i + 1);
    }
  }

  /** Whatever the budgets, and wherever the clock stops the steps: a sweep that
      goes on and on comes to a step that says that there is no more, and then
      every series is compacted and holds what it held, and planning the whole
      index again finds no group. */
  lemma SweepEnds(states: nat -> State, cutoff: int, budgets: nat -> Budget, more: nat -> bool) returns (n: nat)
    requires Sweeps(states, cutoff, budgets, more) && Sweeping(states(0))
    ensures !more(n) && forall j: nat | j < n :: more(j)
    ensures states(n + 1).plan.Some? && NothingToDo(states(n + 1).rows, states(n + 1).lately, states(n + 1).plan.value)
    ensures states(n + 1).plan.value.cutoff == cutoff && states(n + 1).plan.value.rawMin == RawMin(budgets(0))
    ensures AllCompacted(states(n + 1).rows, states(n + 1).lately, cutoff, RawMin(budgets(0)))
    ensures forall k :: Contents(states(n + 1).rows, k) == Contents(states(0).rows, k)
  {
    hide Sweeps, CompactionStep, Sweeping, NothingToDo, Contents, AllCompacted;
    n := 0;
    if more(0) {
      SweepsAt(states, cutoff, budgets, more, 0);
      SweepsAt(states, cutoff, budgets, more, 1);
      StepKeepsSweep(states(0), cutoff, budgets(0), states(1), true);
      n := SweepEndsFrom(states, cutoff, budgets, more, 1);
    }
    SweepHolds(states, cutoff, budgets, more, n);
    SweepsAt(states, cutoff, budgets, more, n);
    SweepHolds(states, cutoff, budgets, more, n + 1);
    StepKeepsSweep(states(n), cutoff, budgets(n), states(n + 1), false);
    SweepingSafe(states(n + 1));
    NothingToDoMeans(states(n + 1).rows, states(n + 1).lately, states(n + 1).plan.value);
  }

  lemma {:induction false} SweepHolds(states: nat -> State, cutoff: int, budgets: nat -> Budget, more: nat -> bool, i: nat)
    requires Sweeps(states, cutoff, budgets, more) && Sweeping(states(0))
    ensures Sweeping(states(i)) && forall k :: Contents(states(i).rows, k) == Contents(states(0).rows, k)
  {
    hide Sweeps, CompactionStep, Sweeping, Safe, Contents;
    if i > 0 {
      SweepHolds(states, cutoff, budgets, more, i - 1);
      SweepsAt(states, cutoff, budgets, more, i - 1);
      StepKeepsSweep(states(i - 1), cutoff, budgets(i - 1), states(i), more(i - 1));
      SweepingSafe(states(i - 1));
      CompactionStepSafe(states(i - 1), cutoff, budgets(i - 1), states(i), more(i - 1));
    }
  }
}
