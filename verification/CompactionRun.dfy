/** One step of compaction, flushes and deletions beside it, and what each of
    them keeps. */
module CompactionRun {
  import opened Sequences
  import opened Samples
  import opened ChunkTable
  import opened CompactionPlanner
  import opened CompactionExec
  import opened CompactionSweep
  import opened SeriesIndex

  /** The table, the sweep's plan, the count of chunks written, and the series
      written in the last hour as the clock stands. */
  datatype State = State(rows: seq<Row>, plan: Option<Plan>, chunkSeq: nat, lately: set<int>)

  datatype Budget = Budget(maxSeries: nat, maxPoints: nat, maxBytes: nat, rawMin: nat)

  function RawMin(b: Budget): nat {
    if b.rawMin < 1 then 1 else b.rawMin
  }

  // -------------------------------------------------------------- selection

  function BytesOf(r: Ref): int { r.bytes }

  function GroupPoints(g: Group): int { Points(g.sources) }

  function GroupBytes(g: Group): int { Sum(g.sources, BytesOf) }

  function SeriesSet(groups: seq<Group>): set<int> {
    set g | g in groups :: g.series
  }

  ghost predicate WithinBudget(groups: seq<Group>, b: Budget) {
    && |SeriesSet(groups)| <= b.maxSeries
    && Sum(groups, GroupPoints) <= b.maxPoints
    && Sum(groups, GroupBytes) <= b.maxBytes
  }

  /** The groups a step takes from the front: at least one, as many as the
      budgets allow, and past a budget only when it is one alone. */
  ghost predicate Selection(groups: seq<Group>, b: Budget, n: nat) {
    && n <= |groups|
    && (groups != [] ==> n >= 1)
    && (n >= 2 ==> WithinBudget(groups[..n], b))
    && (0 < n < |groups| ==> !WithinBudget(groups[..n + 1], b))
  }

  /** The totals of one group more. */
  lemma TakeOneMore(groups: seq<Group>, n: nat)
    requires n < |groups|
    ensures SeriesSet(groups[..n + 1]) == SeriesSet(groups[..n]) + {groups[n].series}
    ensures Sum(groups[..n + 1], GroupPoints) == Sum(groups[..n], GroupPoints) + GroupPoints(groups[n])
    ensures Sum(groups[..n + 1], GroupBytes) == Sum(groups[..n], GroupBytes) + GroupBytes(groups[n])
  {
    hide GroupPoints, GroupBytes;
    assert groups[..n + 1] == groups[..n] + [groups[n]];
    assert groups[..n + 1][..n] == groups[..n];
  }

  method SelectGroups(groups: seq<Group>, b: Budget) returns (n: nat)
    requires b.maxSeries >= 1
    ensures Selection(groups, b, n)
  {
    hide GroupPoints, GroupBytes, Sum, SeriesSet;
    n := 0;
    var series, points, bytes := {}, 0, 0;
    assert SeriesSet(groups[..0]) == {} && Sum(groups[..0], GroupPoints) == 0 && Sum(groups[..0], GroupBytes) == 0 by {
      TakeNone(groups);
    }
    while n < |groups|
      invariant n <= |groups|
      invariant series == SeriesSet(groups[..n])
      invariant points == Sum(groups[..n], GroupPoints)
      invariant bytes == Sum(groups[..n], GroupBytes)
      invariant n == 0 ==> series == {}
      invariant n == 1 ==> |series| <= 1
      invariant n >= 2 ==> WithinBudget(groups[..n], b)
      decreases |groups| - n
    {
      var g := groups[n];
      TakeOneMore(groups, n);
      var newSeries := g.series !in series;
      if newSeries {
        assert |series + {g.series}| == |series| + 1;
      } else {
        assert series + {g.series} == series;
      }
      if n != 0 && ((newSeries && |series| >= b.maxSeries)
                    || points + GroupPoints(g) > b.maxPoints
                    || bytes + GroupBytes(g) > b.maxBytes) {
        return;
      }
      series, points, bytes := series + {g.series}, points + GroupPoints(g), bytes + GroupBytes(g);
      n := n + 1;
    }
  }

  lemma TakeNone(groups: seq<Group>)
    ensures SeriesSet(groups[..0]) == {} && Sum(groups[..0], GroupPoints) == 0 && Sum(groups[..0], GroupBytes) == 0
  {
  }

  // ------------------------------------------------------------------ steps

  predicate Kept(s: State, cutoff: int, rawMin: nat) {
    && s.plan.Some? && s.plan.value.cutoff == cutoff && s.plan.value.rawMin == rawMin
    && (Active(s.plan.value) || s.plan.value.drainedAt == Some(s.chunkSeq))
  }

  function Planned(s: State, cutoff: int, rawMin: nat): Plan {
    if Kept(s, cutoff, rawMin) then s.plan.value else NewPlan(cutoff, rawMin)
  }

  function Want(b: Budget): nat {
    if b.maxSeries < PLAN_REFILL_GROUPS then b.maxSeries else PLAN_REFILL_GROUPS
  }

  /** The plan a step starts from: kept or made anew, and topped up. */
  function Loaded(s: State, cutoff: int, b: Budget): Plan {
    Refilled(s.rows, s.lately, Planned(s, cutoff, RawMin(b)), Want(b), PLAN_STRETCHES_PER_STEP)
  }

  function SeriesOf(groups: seq<Group>): seq<int> {
    if groups == [] then [] else SeriesOf(groups[..|groups| - 1]) + [groups[|groups| - 1].series]
  }

  lemma {:induction false} SeriesOfMember(groups: seq<Group>, s: int)
    ensures s in SeriesOf(groups) <==> Queued(groups, s)
  {
    if groups != [] {
      var t, g := groups[..|groups| - 1], groups[|groups| - 1];
      SeriesOfMember(t, s);
      assert groups == t + [g];
      if Queued(t, s) {
        var h :| h in t && h.series == s;
        assert h in groups;
      } else if g.series == s {
        assert g in groups;
      }
    }
  }

  function StillThere(rows: seq<Row>, groups: seq<Group>): seq<Group> {
    Filter(groups, (g: Group) => Present(rows, g))
  }

  /** A group is still there if every source is: a row under its id, of the
      series, with its first timestamp and its count. */
  lemma StillThereIs(rows: seq<Row>, groups: seq<Group>, g: Group)
    ensures g in StillThere(rows, groups) <==>
            g in groups && forall ref | ref in g.sources ::
              exists r :: r in rows && r.id == ref.id && r.series == g.series
                          && r.meta.minTs == ref.minTs && r.meta.count == ref.count
  {
    FilterMember(groups, (g: Group) => Present(rows, g), g);
    if g in groups {
      forall ref | ref in g.sources
        ensures Stored(rows, g.series, ref) <==>
                exists r :: r in rows && r.id == ref.id && r.series == g.series
                            && r.meta.minTs == ref.minTs && r.meta.count == ref.count
      {
        if r :| r in rows && r.id == ref.id && r.series == g.series && r.meta.minTs == ref.minTs && r.meta.count == ref.count {
          assert Matches(r, g.series, ref);
        }
      }
    }
  }

  /** The plan once `done` is done and `rest` put back in front. */
  function Worked(p: Plan, n: nat, done: seq<Group>, rest: seq<Group>): Plan
    requires n <= |p.groups|
  {
    p.(groups := rest + p.groups[n..], touched := p.touched + SeriesOf(done))
  }

  /** A step that finds no group in what it reads. */
  ghost predicate IdleStep(s: State, cutoff: int, b: Budget, s': State, more: bool) {
    var p := Loaded(s, cutoff, b);
    && p.groups == []
    && s'.plan.Some?
    && (s'.plan.value, more) == Continues(s.rows, s.lately, s.chunkSeq, p, PLAN_STRETCHES_PER_STEP)
    && s' == s.(plan := s'.plan)
  }

  /** A step that takes `n` groups, passes over those whose chunks have gone,
      does `done` of the others and puts `rest` back: the clock decides where
      between them it stops, at least one being done. */
  ghost predicate WorkStep(s: State, cutoff: int, b: Budget, n: nat, done: seq<Group>, rest: seq<Group>,
                           parts: seq<seq<Row>>, s': State, more: bool)
    requires Indexed(s.rows)
  {
    var p := Loaded(s, cutoff, b);
    && p.groups != [] && Selection(p.groups, b, n)
    && done + rest == StillThere(s.rows, p.groups[..n])
    && (done == [] ==> rest == [])
    && AllPresent(s.rows, done)
    && Swapped(s.rows, done, parts, s'.rows)
    && s'.chunkSeq == s.chunkSeq + |Flatten(parts)|
    && s'.lately == s.lately
    && s'.plan.Some?
    && var (q, m) := Continues(s'.rows, s'.lately, s'.chunkSeq, Worked(p, n, done, rest), PLAN_STRETCHES_PER_STEP);
       s'.plan.value == q && more == (m || rest != [])
  }

  ghost predicate CompactionStep(s: State, cutoff: int, b: Budget, s': State, more: bool)
    requires Indexed(s.rows)
  {
    || IdleStep(s, cutoff, b, s', more)
    || exists n, done, rest, parts :: WorkStep(s, cutoff, b, n, done, rest, parts, s', more)
  }

  /** Chunks are stored: a sweep under way looks again at the series given one
      it could act on. */
  ghost predicate FlushStep(s: State, added: seq<Row>, s': State) {
    && added != []
    && (forall r | r in added :: WellFormed(r) && I64_MIN <= r.series <= I64_MAX)
    && NewIds(s.rows, added)
    && s'.rows == s.rows + added
    && s'.chunkSeq == s.chunkSeq + |added|
    && s'.lately == s.lately + (set r | r in added :: r.series)
    && s'.plan == match s.plan
                  case None => None
                  case Some(p) =>
                    if Active(p) then Some(p.(touched := p.touched + SeriesColumn(Filter(added, (r: Row) => r.meta.maxTs < p.cutoff))))
                    else Some(p)
  }

  /** Rows are deleted: retention, or an operator's prune. */
  ghost predicate DeleteStep(s: State, ids: set<nat>, s': State) {
    s' == s.(rows := Without(s.rows, ids))
  }

  // ------------------------------------------------------ kept by every step

  /** What every step keeps, flushes and deletions included. */
  ghost predicate Safe(s: State) {
    && ValidTable(s.rows) && SeriesInRange(s.rows)
    && (s.plan.Some? ==> QueueValid(s.plan.value))
  }

  lemma NewPlanValid(cutoff: int, rawMin: nat)
    ensures QueueValid(NewPlan(cutoff, rawMin))
  {
  }

  lemma LoadedValid(s: State, cutoff: int, b: Budget)
    requires Safe(s)
    ensures QueueValid(Loaded(s, cutoff, b))
    ensures var p, q := Planned(s, cutoff, RawMin(b)), Loaded(s, cutoff, b);
            q == p.(groups := q.groups, pending := q.pending)
  {
    NewPlanValid(cutoff, RawMin(b));
    RefillKeepsQueue(s.rows, s.lately, Planned(s, cutoff, RawMin(b)), Want(b), PLAN_STRETCHES_PER_STEP);
  }

  lemma {:induction false} FilterOnce(groups: seq<Group>, p: Group -> bool, k: int, id: nat)
    ensures 0 <= KeyCount(Filter(groups, p), k, id) <= KeyCount(groups, k, id)
  {
    if groups != [] {
      var t, g := groups[..|groups| - 1], groups[|groups| - 1];
      var f := (g: Group) => Occurs(g, k, id);
      FilterOnce(t, p, k, id);
      assert Occurs(g, k, id) >= 0 by {
        IdCountNonNegative(g.sources, id);
      }
      hide Occurs;
      SumConcat(Filter(t, p), if p(g) then [g] else [], f);
      SumOne(g, f);
    }
  }

  /** What is done, put back and left queued names each source once. */
  lemma WorkedOnce(rows: seq<Row>, p: Plan, n: nat, done: seq<Group>, rest: seq<Group>)
    requires QueueValid(p) && n <= |p.groups|
    requires done + rest == StillThere(rows, p.groups[..n])
    ensures OnceEach(done + (rest + p.groups[n..]))
    ensures forall g | g in done || g in rest + p.groups[n..] :: g in p.groups
  {
    var f := (g: Group) => Present(rows, g);
    var left := p.groups[n..];
    assert p.groups == p.groups[..n] + left;
    forall k, id ensures KeyCount(done + (rest + left), k, id) <= 1 {
      assert KeyCount(p.groups, k, id) <= 1;
      KeyCountConcat(p.groups[..n], left, k, id);
      FilterOnce(p.groups[..n], f, k, id);
      KeyCountConcat(done + rest, left, k, id);
      assert done + (rest + left) == (done + rest) + left;
    }
    forall g | g in done || g in rest ensures g in p.groups {
      assert g in done + rest;
      FilterMember(p.groups[..n], f, g);
    }
  }

  lemma WorkedValid(rows: seq<Row>, p: Plan, n: nat, done: seq<Group>, rest: seq<Group>)
    requires QueueValid(p) && n <= |p.groups|
    requires done + rest == StillThere(rows, p.groups[..n])
    ensures QueueValid(Worked(p, n, done, rest)) && OnceEach(done)
    ensures forall g | g in done :: WellPlanned(g) && Present(rows, g)
  {
    WorkedOnce(rows, p, n, done, rest);
    OnceEachPart(done, rest + p.groups[n..]);
    forall g | g in done ensures Present(rows, g) {
      assert g in done + rest;
      FilterMember(p.groups[..n], (g: Group) => Present(rows, g), g);
    }
  }

  lemma SwappedInRange(rows: seq<Row>, done: seq<Group>, parts: seq<seq<Row>>, rows': seq<Row>)
    requires ValidTable(rows) && SeriesInRange(rows) && AllPresent(rows, done) && OnceEach(done)
    requires Swapped(rows, done, parts, rows')
    requires forall g | g in done :: g.sources != []
    ensures SeriesInRange(rows')
  {
    SwappedRows(rows, done, parts, rows');
    forall r | r in rows' ensures I64_MIN <= r.series <= I64_MAX {
      WithoutMember(rows, SourceIds(done), r);
      if r !in rows {
        PartMember(parts, rows, done, r);
        var g :| g in done && g.series == r.series;
        assert Stored(rows, g.series, g.sources[0]);
      }
    }
  }

  /** Compaction steps keep the table valid and the queue's invariant, and
      leave every series' contents and every range read as they were. */
  lemma WorkStepSafe(s: State, cutoff: int, b: Budget, n: nat, done: seq<Group>, rest: seq<Group>,
                     parts: seq<seq<Row>>, s': State, more: bool)
    requires Safe(s) && WorkStep(s, cutoff, b, n, done, rest, parts, s', more)
    ensures Safe(s') && OnceEach(done) && forall g | g in done :: WellPlanned(g)
    ensures forall k :: Contents(s'.rows, k) == Contents(s.rows, k)
    ensures forall k, lo, hi ::
              && SortedTs(RangeQuery(s'.rows, k, lo, hi))
              && multiset(RangeQuery(s'.rows, k, lo, hi)) == multiset(RangeQuery(s.rows, k, lo, hi))
  {
    LoadedValid(s, cutoff, b);
    var p := Loaded(s, cutoff, b);
    WorkedValid(s.rows, p, n, done, rest);
    SwapConserves(s.rows, done, parts, s'.rows);
    SwappedInRange(s.rows, done, parts, s'.rows);
    ContinuesKeepsQueue(s'.rows, s'.lately, s'.chunkSeq, Worked(p, n, done, rest), PLAN_STRETCHES_PER_STEP);
  }

  lemma CompactionStepSafe(s: State, cutoff: int, b: Budget, s': State, more: bool)
    requires Safe(s) && CompactionStep(s, cutoff, b, s', more)
    ensures Safe(s')
    ensures forall k :: Contents(s'.rows, k) == Contents(s.rows, k)
    ensures forall k, lo, hi ::
              multiset(RangeQuery(s'.rows, k, lo, hi)) == multiset(RangeQuery(s.rows, k, lo, hi))
  {
    if IdleStep(s, cutoff, b, s', more) {
      LoadedValid(s, cutoff, b);
      ContinuesKeepsQueue(s.rows, s.lately, s.chunkSeq, Loaded(s, cutoff, b), PLAN_STRETCHES_PER_STEP);
    } else {
      var n, done, rest, parts :| WorkStep(s, cutoff, b, n, done, rest, parts, s', more);
      WorkStepSafe(s, cutoff, b, n, done, rest, parts, s', more);
    }
  }

  lemma FlushStepSafe(s: State, added: seq<Row>, s': State)
    requires Safe(s) && FlushStep(s, added, s')
    ensures Safe(s')
    ensures forall k :: Contents(s'.rows, k) == Contents(s.rows, k) + Contents(added, k)
  {
    assert ValidTable(s'.rows);
    forall k ensures Contents(s'.rows, k) == Contents(s.rows, k) + Contents(added, k) {
      ContentsConcat(s.rows, added, k);
    }
  }

  lemma DeleteStepSafe(s: State, ids: set<nat>, s': State)
    requires Safe(s) && DeleteStep(s, ids, s')
    ensures Safe(s')
  {
    ValidWithout(s.rows, ids);
    forall r | r in s'.rows ensures r in s.rows {
      WithoutMember(s.rows, ids, r);
    }
  }
}
