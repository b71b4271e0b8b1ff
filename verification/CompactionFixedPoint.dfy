/** Without deletions a sweep misses nothing: at its end every series is
    compacted and planning the whole index again finds no group, even if chunks
    were stored between its steps. */
module CompactionFixedPoint {
  import opened Sequences
  import opened Samples
  import opened ChunkTable
  import opened CompactionPlanner
  import opened CompactionExec
  import opened CompactionSweep
  import opened CompactionLeft
  import opened SeriesIndex
  import opened CompactionRun

  ghost predicate ExactlyStored(rows: seq<Row>, s: int, ref: Ref) {
    exists r :: r in rows && r.series == s && RefOf(r) == ref
  }

  ghost predicate SourcesThere(rows: seq<Row>, groups: seq<Group>) {
    forall g, ref | g in groups && ref in g.sources :: ExactlyStored(rows, g.series, ref)
  }

  /** A plan as good as the table: nothing missed, every source in place. */
  ghost predicate InStep(rows: seq<Row>, lately: set<int>, p: Plan) {
    Covered(rows, lately, p) && SourcesThere(rows, p.groups)
  }

  ghost predicate Current(s: State) {
    s.plan.Some? && (Active(s.plan.value) || s.plan.value.drainedAt == Some(s.chunkSeq))
  }

  /** The invariant of runs without deletions. */
  ghost predicate Sweeping(s: State) {
    && Safe(s)
    && (s.plan.Some? && s.plan.value.drainedAt.Some? ==> s.plan.value.drainedAt.value <= s.chunkSeq)
    && (Current(s) ==> InStep(s.rows, s.lately, s.plan.value))
  }

  // -------------------------------------------------- where nothing changed

  lemma SamePlan(rows: seq<Row>, rows': seq<Row>, lately: set<int>, p: Plan, s: int)
    requires Filter(rows', (r: Row) => IsCandidate(r, s, p.cutoff)) == Filter(rows, (r: Row) => IsCandidate(r, s, p.cutoff))
    ensures PlanFor(rows', lately, p, s) == PlanFor(rows, lately, p, s)
  {
    hide PlanSeries;
  }

  /** A swap changes no candidate of a series it did no group of. */
  lemma SwapElsewhere(rows: seq<Row>, done: seq<Group>, parts: seq<seq<Row>>, rows': seq<Row>, s: int, cutoff: int)
    requires ValidTable(rows) && AllPresent(rows, done) && OnceEach(done)
    requires Swapped(rows, done, parts, rows') && !Queued(done, s)
    ensures Filter(rows', (r: Row) => IsCandidate(r, s, cutoff)) == Filter(rows, (r: Row) => IsCandidate(r, s, cutoff))
  {
    var c := (r: Row) => IsCandidate(r, s, cutoff);
    var ids := SourceIds(done);
    SwappedRows(rows, done, parts, rows');
    FilterConcat(Without(rows, ids), Flatten(parts), c);
    forall r | r in Flatten(parts) ensures !c(r) {
      PartMember(parts, rows, done, r);
    }
    FilterNone(Flatten(parts), c);
    forall r | r in rows ensures c(r) == (r.id !in ids && c(r)) {
      if c(r) && r.id in ids {
        SourceSeries(rows, done, r);
      }
    }
    FilterFilter(rows, (r: Row) => r.id !in ids, c, c);
  }

  lemma SourceSeries(rows: seq<Row>, done: seq<Group>, r: Row)
    requires Indexed(rows) && AllPresent(rows, done) && r in rows && r.id in SourceIds(done)
    ensures Queued(done, r.series)
  {
    var ref :| ref in SourcesOf(done) && ref.id == r.id;
    SourcesMember(done, ref);
    var g :| g in done && ref in g.sources;
    assert Present(rows, g) && Stored(rows, g.series, ref);
    var x :| x in rows && Matches(x, g.series, ref);
    UniqueId(rows, x, r);
  }

  lemma AddElsewhere(rows: seq<Row>, added: seq<Row>, s: int, cutoff: int)
    requires forall r | r in added :: !IsCandidate(r, s, cutoff)
    ensures Filter(rows + added, (r: Row) => IsCandidate(r, s, cutoff)) == Filter(rows, (r: Row) => IsCandidate(r, s, cutoff))
  {
    var c := (r: Row) => IsCandidate(r, s, cutoff);
    FilterConcat(rows, added, c);
    FilterNone(added, c);
  }

  // ------------------------------------------------------- kept by the steps

  lemma StoredIsPresent(rows: seq<Row>, g: Group)
    requires forall ref | ref in g.sources :: ExactlyStored(rows, g.series, ref)
    ensures Present(rows, g)
  {
    forall ref | ref in g.sources ensures Stored(rows, g.series, ref) {
      assert ExactlyStored(rows, g.series, ref);
      var r :| r in rows && r.series == g.series && RefOf(r) == ref;
      assert Matches(r, g.series, ref);
    }
  }

  lemma AllStillThere(rows: seq<Row>, groups: seq<Group>)
    requires SourcesThere(rows, groups)
    ensures StillThere(rows, groups) == groups
  {
    forall g | g in groups ensures Present(rows, g) {
      StoredIsPresent(rows, g);
    }
    FilterAll(groups, (g: Group) => Present(rows, g));
  }

  lemma StretchKeepsSources(rows: seq<Row>, lately: set<int>, p: Plan)
    requires SourcesThere(rows, p.groups)
    ensures SourcesThere(rows, PlanStretch(rows, lately, p).groups)
  {
    var ids := StretchIds(rows, p.pending);
    forall g, ref | g in PlanStretch(rows, lately, p).groups && ref in g.sources
      ensures ExactlyStored(rows, g.series, ref)
    {
      if g !in p.groups {
        StretchMember(rows, lately, p, ids, g);
        var s :| s in ids && g in PlanFor(rows, lately, p, s);
        PlanForShape(rows, lately, p, s, g);
      }
    }
  }

  lemma {:induction false} RefillKeepsSources(rows: seq<Row>, lately: set<int>, p: Plan, want: nat, stretches: nat)
    requires SourcesThere(rows, p.groups)
    ensures SourcesThere(rows, Refilled(rows, lately, p, want, stretches).groups)
    decreases stretches
  {
    hide PlanStretch;
    if |p.groups| < want && stretches > 0 && !p.pending.Done? {
      StretchKeepsSources(rows, lately, p);
      RefillKeepsSources(rows, lately, PlanStretch(rows, lately, p), want, stretches - 1);
    }
  }

  lemma {:induction false} ContinuesKeepsSources(rows: seq<Row>, lately: set<int>, chunkSeq: nat, p: Plan, stretches: nat)
    requires SourcesThere(rows, p.groups)
    ensures SourcesThere(rows, Continues(rows, lately, chunkSeq, p, stretches).0.groups)
    decreases stretches
  {
    hide PlanStretch;
    if p.groups != [] || (p.pending.Done? && p.touched == []) || stretches == 0 {
    } else {
      StretchKeepsSources(rows, lately, NextPass(p));
      ContinuesKeepsSources(rows, lately, chunkSeq, PlanStretch(rows, lately, NextPass(p)), stretches - 1);
    }
  }

  lemma LoadedInStep(s: State, cutoff: int, b: Budget)
    requires Sweeping(s)
    ensures InStep(s.rows, s.lately, Loaded(s, cutoff, b))
  {
    var p := Planned(s, cutoff, RawMin(b));
    if !Kept(s, cutoff, RawMin(b)) {
      NewPlanCovers(s, cutoff, RawMin(b));
    }
    NewPlanValid(cutoff, RawMin(b));
    RefillKeepsCover(s.rows, s.lately, p, Want(b), PLAN_STRETCHES_PER_STEP);
    RefillKeepsSources(s.rows, s.lately, p, Want(b), PLAN_STRETCHES_PER_STEP);
  }

  lemma NewPlanCovers(s: State, cutoff: int, rawMin: nat)
    requires SeriesInRange(s.rows)
    ensures Covered(s.rows, s.lately, NewPlan(cutoff, rawMin))
  {
    var p := NewPlan(cutoff, rawMin);
    forall k ensures Unread(p.pending, k) || PlanFor(s.rows, s.lately, p, k) == [] {
      if k < I64_MIN {
        NoRowsNoPlan(s.rows, s.lately, p, k);
      }
    }
  }

  lemma WorkedCovers(s: State, p: Plan, done: seq<Group>, left: seq<Group>, touched: seq<int>,
                     parts: seq<seq<Row>>, rows': seq<Row>, k: int)
    requires Safe(s) && Covered(s.rows, s.lately, p) && p.groups == done + left
    requires AllPresent(s.rows, done) && OnceEach(done) && Swapped(s.rows, done, parts, rows')
    requires touched == p.touched + SeriesOf(done)
    ensures Unread(p.pending, k) || k in touched || Queued(left, k) || PlanFor(rows', s.lately, p, k) == []
  {
    hide PlanFor;
    SeriesOfMember(done, k);
    if !Queued(done, k) {
      SwapElsewhere(s.rows, done, parts, rows', k, p.cutoff);
      SamePlan(s.rows, rows', s.lately, p, k);
      if Queued(p.groups, k) {
        var g :| g in p.groups && g.series == k;
        assert g in left;
      }
    }
  }

  /** The table after a step, and the plan with the step's work taken off. */
  lemma WorkedInStep(s: State, p: Plan, n: nat, done: seq<Group>, rest: seq<Group>,
                     parts: seq<seq<Row>>, rows': seq<Row>)
    requires Safe(s) && QueueValid(p) && InStep(s.rows, s.lately, p)
    requires n <= |p.groups| && done + rest == StillThere(s.rows, p.groups[..n])
    requires AllPresent(s.rows, done) && Swapped(s.rows, done, parts, rows')
    ensures InStep(rows', s.lately, Worked(p, n, done, rest))
  {
    hide Swapped, Safe, SourcesThere, PlanFor, Unread, Queued, QueueValid, AllPresent, OnceEach, StillThere, Indexed,
      Present, SeriesOf;
    SafeIndexed(s);
    WorkedValid(s.rows, p, n, done, rest);
    var q := Worked(p, n, done, rest);
    WorkedSplit(s.rows, p, n, done, rest);
    WorkedSources(s.rows, done, q.groups, parts, rows');
    forall k
      ensures Unread(q.pending, k) || k in q.touched || Queued(q.groups, k) || PlanFor(rows', s.lately, q, k) == []
    {
      WorkedCovers(s, p, done, q.groups, q.touched, parts, rows', k);
      PlanForCutoff(rows', s.lately, p, q, k);
    }
  }

  lemma SafeIndexed(s: State)
    requires Safe(s)
    ensures Indexed(s.rows)
  {
  }

  lemma PlanForCutoff(rows: seq<Row>, lately: set<int>, p: Plan, q: Plan, k: int)
    requires p.cutoff == q.cutoff && p.rawMin == q.rawMin
    ensures PlanFor(rows, lately, q, k) == PlanFor(rows, lately, p, k)
  {
  }

  /** Nothing in the queue was gone, so the step's work and what is left are all
      of it. */
  lemma WorkedSplit(rows: seq<Row>, p: Plan, n: nat, done: seq<Group>, rest: seq<Group>)
    requires QueueValid(p) && SourcesThere(rows, p.groups)
    requires n <= |p.groups| && done + rest == StillThere(rows, p.groups[..n])
    ensures p.groups == done + Worked(p, n, done, rest).groups && OnceEach(done + Worked(p, n, done, rest).groups)
  {
    hide QueueValid, StillThere, OnceEach;
    WorkedOnce(rows, p, n, done, rest);
    AllStillThere(rows, p.groups[..n]);
  }

  lemma WorkedSources(rows: seq<Row>, done: seq<Group>, left: seq<Group>, parts: seq<seq<Row>>, rows': seq<Row>)
    requires Indexed(rows) && SourcesThere(rows, done + left) && OnceEach(done + left)
    requires AllPresent(rows, done) && Swapped(rows, done, parts, rows')
    ensures SourcesThere(rows', left)
  {
    SwappedRows(rows, done, parts, rows');
    forall g, ref | g in left && ref in g.sources ensures ExactlyStored(rows', g.series, ref) {
      assert g in done + left;
      assert ExactlyStored(rows, g.series, ref);
      var r :| r in rows && r.series == g.series && RefOf(r) == ref;
      WithoutMember(rows, SourceIds(done), r);
      if r.id in SourceIds(done) {
        NotTaken(rows, done, left, g, ref, r);
      }
      assert r in rows';
    }
  }

  lemma NotTaken(rows: seq<Row>, done: seq<Group>, left: seq<Group>, g: Group, ref: Ref, r: Row)
    requires Indexed(rows) && OnceEach(done + left) && AllPresent(rows, done)
    requires g in left && ref in g.sources && r in rows && r.series == g.series && RefOf(r) == ref
    ensures r.id !in SourceIds(done)
  {
    forall x | x in SourcesOf(done) ensures x.id != r.id {
      SourcesMember(done, x);
      var h :| h in done && x in h.sources;
      assert Present(rows, h) && Stored(rows, h.series, x);
      var y :| y in rows && Matches(y, h.series, x);
      if h.series == g.series {
        OnceEachApart(done, left, h, g, x, ref);
      }
    }
  }

  /** A step of a run without deletions keeps the invariant, always does some
      group of a queue that is not empty, and reports that nothing is left only
      when nothing is. */
  lemma StepKeepsSweep(s: State, cutoff: int, b: Budget, s': State, more: bool)
    requires Sweeping(s) && CompactionStep(s, cutoff, b, s', more)
    ensures Sweeping(s') && s'.plan.Some?
    ensures more ==> Kept(s', cutoff, RawMin(b)) && Active(s'.plan.value)
    ensures !more ==> NothingToDo(s'.rows, s'.lately, s'.plan.value)
    ensures s'.plan.value.cutoff == cutoff && s'.plan.value.rawMin == RawMin(b)
  {
    CompactionStepSafe(s, cutoff, b, s', more);
    LoadedValid(s, cutoff, b);
    LoadedInStep(s, cutoff, b);
    var p := Loaded(s, cutoff, b);
    if IdleStep(s, cutoff, b, s', more) {
      ContinuesOutcome(s.rows, s.lately, s.chunkSeq, p, PLAN_STRETCHES_PER_STEP);
      ContinuesKeepsCover(s.rows, s.lately, s.chunkSeq, p, PLAN_STRETCHES_PER_STEP);
      ContinuesKeepsSources(s.rows, s.lately, s.chunkSeq, p, PLAN_STRETCHES_PER_STEP);
    } else {
      var n, done, rest, parts :| WorkStep(s, cutoff, b, n, done, rest, parts, s', more);
      var q := Worked(p, n, done, rest);
      WorkStepSafe(s, cutoff, b, n, done, rest, parts, s', more);
      WorkedInStep(s, p, n, done, rest, parts, s'.rows);
      WorkedValid(s.rows, p, n, done, rest);
      ContinuesOutcome(s'.rows, s'.lately, s'.chunkSeq, q, PLAN_STRETCHES_PER_STEP);
      ContinuesKeepsCover(s'.rows, s'.lately, s'.chunkSeq, q, PLAN_STRETCHES_PER_STEP);
      ContinuesKeepsSources(s'.rows, s'.lately, s'.chunkSeq, q, PLAN_STRETCHES_PER_STEP);
      if rest != [] {
        assert q.groups != [];
      }
    }
  }

  /** Chunks stored between steps are not missed: those the sweep could act on
      send it back to their series, and a sweep that was over begins again. */
  lemma FlushKeepsSweep(s: State, added: seq<Row>, s': State)
    requires Sweeping(s) && FlushStep(s, added, s')
    ensures Sweeping(s')
  {
    FlushStepSafe(s, added, s');
    if Current(s') {
      assert Active(s.plan.value);
      var p, q := s.plan.value, s'.plan.value;
      var acted := Filter(added, (r: Row) => r.meta.maxTs < p.cutoff);
      forall k
        ensures Unread(q.pending, k) || k in q.touched || Queued(q.groups, k) || PlanFor(s'.rows, s'.lately, q, k) == []
      {
        if PlanFor(s.rows, s.lately, p, k) == [] && k !in q.touched {
          FlushElsewhere(s, added, p, k);
          AddElsewhere(s.rows, added, k, p.cutoff);
          SamePlan(s.rows, s'.rows, s'.lately, p, k);
          LatelyGrows(s.rows, s.lately, s'.lately, p, k);
        }
      }
      forall g, ref | g in q.groups && ref in g.sources ensures ExactlyStored(s'.rows, g.series, ref) {
        assert ExactlyStored(s.rows, g.series, ref);
        var r :| r in s.rows && r.series == g.series && RefOf(r) == ref;
        assert r in s'.rows;
      }
    }
  }

  lemma FlushElsewhere(s: State, added: seq<Row>, p: Plan, k: int)
    requires k !in SeriesColumn(Filter(added, (r: Row) => r.meta.maxTs < p.cutoff))
    ensures forall r | r in added :: !IsCandidate(r, k, p.cutoff)
  {
    var acted := Filter(added, (r: Row) => r.meta.maxTs < p.cutoff);
    SeriesColumnMember(acted, k);
    forall r | r in added ensures !IsCandidate(r, k, p.cutoff) {
      FilterMember(added, (r: Row) => r.meta.maxTs < p.cutoff, r);
    }
  }

  lemma LatelyGrows(rows: seq<Row>, lately: set<int>, lately': set<int>, p: Plan, k: int)
    requires lately <= lately' && PlanFor(rows, lately, p, k) == []
    ensures PlanFor(rows, lately', p, k) == []
  {
    hide PlanSeries;
    if k in lately' && k !in lately {
      WrittenLatelyOnlyPostpones(k, SeriesCandidates(rows, k, p.cutoff), p.rawMin);
    }
  }

  // --------------------------------------------------------------- whole runs

  /** What happens to a table from which nothing is deleted: a step of a sweep,
      which says whether there is more, or chunks stored. */
  datatype Move = Sweep(cutoff: int, budget: Budget, more: bool) | Store(added: seq<Row>)

  ghost predicate Moves(s: State, m: Move, s': State) {
    && Indexed(s.rows)
    && match m
       case Sweep(cutoff, b, more) => CompactionStep(s, cutoff, b, s', more)
       case Store(added) => FlushStep(s, added, s')
  }

  ghost predicate IsRun(states: seq<State>, moves: seq<Move>) {
    && |states| == |moves| + 1
    && forall i | 0 <= i < |moves| :: Moves(states[i], moves[i], states[i + 1])
  }

  /** Over every run of steps and flushes, whatever cutoffs and budgets the steps
      have: the sweep misses nothing, every series holds what was stored of it,
      and wherever a step says that there is no more, every series is compacted
      and planning the whole index again finds no group. */
  lemma {:induction false} SweepRun(states: seq<State>, moves: seq<Move>, n: nat)
    requires IsRun(states, moves) && n <= |moves| && Sweeping(states[0])
    ensures Sweeping(states[n])
    ensures forall k :: Contents(states[n].rows, k) == Contents(states[0].rows, k) + StoredOf(moves[..n], k)
    ensures forall i | 0 <= i < n && moves[i].Sweep? && !moves[i].more ::
              states[i + 1].plan.Some? && Over(states[i + 1], moves[i])
    decreases n
  {
    hide Sweeping, CompactionStep, FlushStep, Contents, NothingToDo, RawMin, AllCompacted;
    if n == 0 {
      assert moves[..0] == [];
    } else {
      SweepRun(states, moves, n - 1);
      assert Moves(states[n - 1], moves[n - 1], states[n]);
      assert moves[..n] == moves[..n - 1] + [moves[n - 1]];
      MoveKeeps(states[n - 1], moves[n - 1], states[n]);
      forall k ensures Contents(states[n].rows, k) == Contents(states[0].rows, k) + StoredOf(moves[..n], k) {
        StoredMore(moves[..n - 1], moves[n - 1], k);
      }
    }
  }

  /** A sweep that is over, for the cutoff it was asked for. */
  ghost predicate Over(s: State, m: Move)
    requires s.plan.Some? && m.Sweep?
  {
    && s.plan.value.cutoff == m.cutoff && s.plan.value.rawMin == RawMin(m.budget)
    && NothingToDo(s.rows, s.lately, s.plan.value)
    && AllCompacted(s.rows, s.lately, m.cutoff, RawMin(m.budget))
  }

  /** What the moves stored of a series. */
  function StoredOf(moves: seq<Move>, k: int): multiset<Sample> {
    if moves == [] then multiset{}
    else
      StoredOf(moves[..|moves| - 1], k) +
      (match moves[|moves| - 1]
       case Sweep(_, _, _) => multiset{}
       case Store(added) => Contents(added, k))
  }

  lemma StoredMore(moves: seq<Move>, m: Move, k: int)
    ensures StoredOf(moves + [m], k) == StoredOf(moves, k) + (if m.Store? then Contents(m.added, k) else multiset{})
  {
    assert (moves + [m])[..|moves|] == moves;
  }

  lemma MoveKeeps(s: State, m: Move, s': State)
    requires Sweeping(s) && Moves(s, m, s')
    ensures Sweeping(s')
    ensures forall k :: Contents(s'.rows, k) ==
                        Contents(s.rows, k) + (if m.Store? then Contents(m.added, k) else multiset{})
    ensures m.Sweep? && !m.more ==> s'.plan.Some? && Over(s', m)
  {
    hide CompactionStep, Contents, NothingToDo, RawMin, InStep, Current, Sweeping, AllCompacted;
    match m {
      case Sweep(cutoff, b, more) =>
        StepKeepsSweep(s, cutoff, b, s', more);
        SweepingSafe(s);
        CompactionStepSafe(s, cutoff, b, s', more);
        if !more {
          NothingToDoMeans(s'.rows, s'.lately, s'.plan.value);
        }
      case Store(added) =>
        FlushKeepsSweep(s, added, s');
        forall k ensures Contents(s'.rows, k) == Contents(s.rows, k) + Contents(added, k) {
          ContentsConcat(s.rows, added, k);
        }
    }
  }

  lemma SweepingSafe(s: State)
    requires Sweeping(s)
    ensures Safe(s)
  {
  }
}
