/** The compactor as the engine runs it: its fields, its loops and its steps,
    each proved to be what the specification of the sweep says. */
module Compactor {
  import opened Sequences
  import opened Samples
  import opened ChunkTable
  import opened ChunkEncoding
  import opened CompactionPlanner
  import opened CompactionExec
  import opened CompactionSweep
  import opened SeriesIndex
  import opened CompactionRun
  import opened CompactionLeft
  import opened CompactionFixedPoint
  import opened CompactionProgress

  // ------------------------------------------------- planning from the index

  /** An index entry as `compaction_candidates` hands it over. */
  datatype Entry = Entry(series: int, ref: Ref)

  function Entries(s: int, refs: seq<Ref>): seq<Entry> {
    if refs == [] then [] else Entries(s, refs[..|refs| - 1]) + [Entry(s, refs[|refs| - 1])]
  }

  /** The candidates of the series `ids`: by series, then first timestamp, then
      insertion. */
  function Candidates(rows: seq<Row>, ids: seq<int>, cutoff: int): seq<Entry> {
    FlatMap(ids, (s: int) => Entries(s, SeriesCandidates(rows, s, cutoff)))
  }

  predicate Actionable(e: Entry, cutoff: int) {
    e.ref.maxTs < cutoff && (e.ref.enc.Raw? || e.ref.count != TARGET_POINTS)
  }

  /** Where the walk over entries stands: groups planned, the series being
      collected and what has been collected of it. */
  datatype Walk = Walk(groups: seq<Group>, current: Option<int>, series: seq<Ref>)

  function Closed(w: Walk, lately: set<int>, rawMin: nat): seq<Group> {
    if w.current.None? then w.groups
    else w.groups + PlanSeries(w.current.value, w.series, w.current.value in lately, rawMin)
  }

  function Walked(entries: seq<Entry>, lately: set<int>, cutoff: int, rawMin: nat): Walk {
    if entries == [] then Walk([], None, [])
    else
      var e := entries[|entries| - 1];
      var w := Walked(entries[..|entries| - 1], lately, cutoff, rawMin);
      if !Actionable(e, cutoff) then w
      else if w.current == Some(e.series) then w.(series := w.series + [e.ref])
      else Walk(Closed(w, lately, rawMin), Some(e.series), [e.ref])
  }

  /** `plan_metrics_groups`: of the index's entries, series by series, each
      series is planned as if alone. */
  method PlanMetricsGroups(entries: seq<Entry>, lately: set<int>, cutoff: int, rawMin: nat)
    returns (groups: seq<Group>)
    ensures groups == Closed(Walked(entries, lately, cutoff, rawMin), lately, rawMin)
    ensures forall rows, ids, p: Plan | StrictlyAscending(ids) && entries == Candidates(rows, ids, cutoff)
              && p.cutoff == cutoff && p.rawMin == rawMin :: groups == GroupsFor(rows, lately, p, ids)
  {
    groups := [];
    var series: seq<Ref> := [];
    var current: Option<int> := None;
    for i := 0 to |entries|
      invariant Walk(groups, current, series) == Walked(entries[..i], lately, cutoff, rawMin)
    {
      hide PlanSeries;
      assert entries[..i + 1][..i] == entries[..i];
      var e := entries[i];
      if !Actionable(e, cutoff) {
        continue;
      }
      if current != Some(e.series) {
        if current.Some? {
          groups := PlanMetricsSeries(current.value, series, current.value in lately, rawMin, groups);
        }
        series, current := [], Some(e.series);
      }
      series := series + [e.ref];
    }
    assert entries[..|entries|] == entries;
    if current.Some? {
      groups := PlanMetricsSeries(current.value, series, current.value in lately, rawMin, groups);
    }
    forall rows, ids, p: Plan | StrictlyAscending(ids) && entries == Candidates(rows, ids, cutoff)
      && p.cutoff == cutoff && p.rawMin == rawMin
      ensures groups == GroupsFor(rows, lately, p, ids)
    {
      hide *;
      WalkPlansEach(rows, ids, lately, p);
    }
  }

  lemma CandidateActionable(rows: seq<Row>, s: int, cutoff: int, ref: Ref)
    requires ref in SeriesCandidates(rows, s, cutoff)
    ensures Actionable(Entry(s, ref), cutoff)
  {
    var p := (r: Row) => IsCandidate(r, s, cutoff);
    var found := SortBy(Filter(rows, p), MinTsLe);
    RefsOfShape(found);
    var i :| 0 <= i < |found| && RefOf(found[i]) == ref;
    SortByMembers(Filter(rows, p), MinTsLe);
    FilterMember(rows, p, found[i]);
  }

  /** Walking on through the entries of one series not yet being collected. */
  lemma {:induction false} WalkSeries(before: seq<Entry>, s: int, refs: seq<Ref>, lately: set<int>, cutoff: int, rawMin: nat)
    requires refs != [] && forall ref | ref in refs :: Actionable(Entry(s, ref), cutoff)
    requires Walked(before, lately, cutoff, rawMin).current != Some(s)
    ensures Walked(before + Entries(s, refs), lately, cutoff, rawMin) ==
            Walk(Closed(Walked(before, lately, cutoff, rawMin), lately, rawMin), Some(s), refs)
    decreases |refs|
  {
    hide PlanSeries, Closed, Walked, Entries, Actionable;
    var t, r := refs[..|refs| - 1], refs[|refs| - 1];
    assert refs == t + [r] && r in refs && forall ref | ref in t :: ref in refs;
    EntriesMore(s, t, r);
    var early := before + Entries(s, t);
    assert before + Entries(s, refs) == early + [Entry(s, r)];
    WalkOne(early, Entry(s, r), lately, cutoff, rawMin);
    if t == [] {
      assert early == before;
    } else {
      WalkSeries(before, s, t, lately, cutoff, rawMin);
    }
  }

  lemma EntriesMore(s: int, refs: seq<Ref>, r: Ref)
    ensures Entries(s, refs + [r]) == Entries(s, refs) + [Entry(s, r)] && Entries(s, []) == []
  {
  }

  lemma WalkOne(entries: seq<Entry>, e: Entry, lately: set<int>, cutoff: int, rawMin: nat)
    requires Actionable(e, cutoff)
    ensures var w := Walked(entries, lately, cutoff, rawMin);
            Walked(entries + [e], lately, cutoff, rawMin) ==
            if w.current == Some(e.series) then w.(series := w.series + [e.ref])
            else Walk(Closed(w, lately, rawMin), Some(e.series), [e.ref])
  {
    assert (entries + [e])[..|entries|] == entries;
  }

  /** Walking the candidates of ascending series plans each of them. */
  lemma {:induction false} WalkPlansEach(rows: seq<Row>, ids: seq<int>, lately: set<int>, p: Plan)
    requires StrictlyAscending(ids)
    ensures var w := Walked(Candidates(rows, ids, p.cutoff), lately, p.cutoff, p.rawMin);
            && Closed(w, lately, p.rawMin) == GroupsFor(rows, lately, p, ids)
            && (w.current.Some? ==> w.current.value in ids)
    decreases |ids|
  {
    hide PlanSeries, SeriesCandidates;
    if ids != [] {
      var t, x := ids[..|ids| - 1], ids[|ids| - 1];
      assert ids == t + [x];
      WalkPlansEach(rows, t, lately, p);
      var before := Candidates(rows, t, p.cutoff);
      var refs := SeriesCandidates(rows, x, p.cutoff);
      assert Candidates(rows, ids, p.cutoff) == before + Entries(x, refs);
      assert GroupsFor(rows, lately, p, ids) == GroupsFor(rows, lately, p, t) + PlanFor(rows, lately, p, x);
      forall y | y in t ensures y < x {
        var i :| 0 <= i < |t| && t[i] == y;
        assert ids[i] < ids[|ids| - 1];
      }
      if refs == [] {
        EmptyPlan(x, x in lately, p.rawMin);
        assert before + [] == before;
      } else {
        forall ref | ref in refs ensures Actionable(Entry(x, ref), p.cutoff) {
          CandidateActionable(rows, x, p.cutoff, ref);
        }
        WalkSeries(before, x, refs, lately, p.cutoff, p.rawMin);
      }
    }
  }

  lemma StretchNothing(rows: seq<Row>, lately: set<int>, p: Plan)
    ensures p.groups == p.groups + StretchGroups(rows, lately, p, [])
  {
    assert GroupsFor(rows, lately, p, []) == [];
  }

  lemma StretchIdsAscending(rows: seq<Row>, pending: Pending)
    requires SeriesInRange(rows) && PendingValid(pending)
    ensures StrictlyAscending(StretchIds(rows, pending))
  {
    StretchReadOf(rows, pending);
  }

  /** `plan_metrics_stretch`. */
  method PlanMetricsStretch(rows: seq<Row>, lately: set<int>, p: Plan) returns (q: Plan)
    requires SeriesInRange(rows) && PendingValid(p.pending)
    ensures q == PlanStretch(rows, lately, p)
  {
    hide PlanSeries, SeriesCandidates, Walked, NextSeries, SeriesBetween, ReadOf, SortBy;
    assert StrictlyAscending(StretchIds(rows, p.pending)) by {
      StretchIdsAscending(rows, p.pending);
    }
    var ids: seq<int>;
    var pending := Done;
    match p.pending {
      case Done =>
        StretchNothing(rows, lately, p);
        return p;
      case From(from) =>
        var next := NextSeries(rows, from);
        if next.None? {
          StretchNothing(rows, lately, p);
          return p.(pending := Done);
        }
        var last := StretchEnd(next.value);
        ids := SeriesBetween(rows, next.value, last);
        if last < I64_MAX {
          pending := From(last + 1);
        }
      case Listed(series, at) =>
        var end := if at + PLAN_STRETCH_SERIES < |series| then at + PLAN_STRETCH_SERIES else |series|;
        ids := series[at..end];
        if end < |series| {
          pending := Listed(series, end);
        }
    }
    assert ids == StretchIds(rows, p.pending) && pending == AfterStretch(rows, p.pending);
    var groups := PlanMetricsGroups(Candidates(rows, ids, p.cutoff), lately, p.cutoff, p.rawMin);
    assert groups == GroupsFor(rows, lately, p, ids);
    q := p.(groups := p.groups + SortBy(groups, GroupLe), pending := pending);
  }

  /** `refill_metrics_plan`. */
  method RefillMetricsPlan(rows: seq<Row>, lately: set<int>, p: Plan, want: nat) returns (q: Plan)
    requires Indexed(rows) && SeriesInRange(rows) && QueueValid(p)
    ensures q == Refilled(rows, lately, p, want, PLAN_STRETCHES_PER_STEP)
  {
    hide PlanStretch;
    q := p;
    var stretches := 0;
    while |q.groups| < want && stretches < PLAN_STRETCHES_PER_STEP && !q.pending.Done?
      invariant stretches <= PLAN_STRETCHES_PER_STEP
      invariant QueueValid(q)
      invariant Refilled(rows, lately, q, want, PLAN_STRETCHES_PER_STEP - stretches) ==
                Refilled(rows, lately, p, want, PLAN_STRETCHES_PER_STEP)
      decreases PLAN_STRETCHES_PER_STEP - stretches
    {
      StretchKeepsQueue(rows, lately, q);
      q := PlanMetricsStretch(rows, lately, q);
      stretches := stretches + 1;
    }
  }

  /** `metrics_sweep_continues`. */
  method MetricsSweepContinues(rows: seq<Row>, lately: set<int>, chunkSeq: nat, p: Plan)
    returns (q: Plan, more: bool)
    requires Indexed(rows) && SeriesInRange(rows) && QueueValid(p)
    ensures (q, more) == Continues(rows, lately, chunkSeq, p, PLAN_STRETCHES_PER_STEP)
  {
    hide PlanStretch;
    q := p;
    var stretches := 0;
    while true
      invariant stretches <= PLAN_STRETCHES_PER_STEP
      invariant QueueValid(q)
      invariant Continues(rows, lately, chunkSeq, q, PLAN_STRETCHES_PER_STEP - stretches) ==
                Continues(rows, lately, chunkSeq, p, PLAN_STRETCHES_PER_STEP)
      decreases PLAN_STRETCHES_PER_STEP - stretches
    {
      if q.groups != [] {
        return q, true;
      }
      ghost var left := PLAN_STRETCHES_PER_STEP - stretches;
      ghost var start := q;
      if q.pending.Done? {
        if q.touched == [] {
          return q.(drainedAt := Some(chunkSeq)), false;
        }
        q := q.(pending := Listed(SortedIds(q.touched), 0), touched := []);
      }
      NextPassKeepsQueue(start);
      assert q == NextPass(start);
      if stretches == PLAN_STRETCHES_PER_STEP {
        return q, true;
      }
      StretchKeepsQueue(rows, lately, q);
      q := PlanMetricsStretch(rows, lately, q);
      stretches := stretches + 1;
    }
  }

  // -------------------------------------------------------------- rewriting

  /** The samples of a group's sources, in the order they are read. */
  method ReadSources(rows: seq<Row>, g: Group) returns (points: seq<Sample>)
    requires Indexed(rows) && Present(rows, g)
    ensures points == PointsOf(GroupRows(rows, g))
  {
    points := [];
    ghost var all := GroupRows(rows, g);
    for i := 0 to |g.sources|
      invariant points == PointsOf(all[..i])
    {
      PresentRow(rows, g.series, g.sources, g.sources[i]);
      var row := RowAt(rows, g.sources[i].id);
      UniqueId(rows, row, all[i]);
      assert all[..i + 1][..i] == all[..i];
      points := points + row.points;
    }
    assert all[..|all|] == all;
  }

  method EncodePiece(series: int, slice: seq<Sample>, id: nat, size: seq<Sample> -> nat) returns (r: Row)
    requires SortedTs(slice) && slice != []
    ensures Encodes(r, series, slice) && r.id == id
  {
    var encoded := EncodePartition(id, series, slice, Pco, size);
    r := encoded.value;
  }

  /** Encode sorted samples in pieces of the target. */
  method EncodePieces(series: int, sorted: seq<Sample>, firstId: nat, size: seq<Sample> -> nat)
    returns (part: seq<Row>)
    requires SortedTs(sorted)
    ensures EncodesCut(part, series, sorted) && Consecutive(part, firstId)
  {
    part := [];
    var rest := sorted;
    ghost var pieces: seq<seq<Sample>> := [];
    while rest != []
      invariant SortedTs(rest)
      invariant Cut(sorted, TARGET_POINTS) == pieces + Cut(rest, TARGET_POINTS)
      invariant Consecutive(part, firstId) && EncodesEach(part, series, pieces)
      decreases |rest|
    {
      hide *;
      var n := if |rest| <= TARGET_POINTS then |rest| else TARGET_POINTS;
      SortedCut(rest, n);
      var slice := rest[..n];
      var r := EncodePiece(series, slice, firstId + |part|, size);
      EncodesMore(part, series, pieces, r, slice);
      ConsecutiveMore(part, firstId, r);
      CutFront(rest, n);
      PiecesMove(pieces, slice, Cut(rest[n..], TARGET_POINTS));
      part, pieces, rest := part + [r], pieces + [slice], rest[n..];
    }
    PiecesDone(part, series, pieces, sorted);
  }

  lemma SortedCut(s: seq<Sample>, n: nat)
    requires SortedTs(s) && n <= |s|
    ensures SortedTs(s[..n]) && SortedTs(s[n..])
  {
  }

  lemma ConsecutiveMore(part: seq<Row>, firstId: nat, r: Row)
    requires Consecutive(part, firstId) && r.id == firstId + |part|
    ensures Consecutive(part + [r], firstId)
  {
  }

  lemma PiecesMove(pieces: seq<seq<Sample>>, slice: seq<Sample>, more: seq<seq<Sample>>)
    ensures pieces + ([slice] + more) == (pieces + [slice]) + more
  {
  }

  lemma PiecesDone(part: seq<Row>, series: int, pieces: seq<seq<Sample>>, sorted: seq<Sample>)
    requires Cut(sorted, TARGET_POINTS) == pieces + Cut([], TARGET_POINTS) && EncodesEach(part, series, pieces)
    ensures EncodesCut(part, series, sorted)
  {
    hide Encodes;
    assert Cut<Sample>([], TARGET_POINTS) == [];
    assert pieces + [] == pieces;
  }

  ghost predicate EncodesEach(part: seq<Row>, series: int, pieces: seq<seq<Sample>>) {
    |part| == |pieces| && forall i | 0 <= i < |part| :: Encodes(part[i], series, pieces[i])
  }

  lemma EncodesMore(part: seq<Row>, series: int, pieces: seq<seq<Sample>>, r: Row, slice: seq<Sample>)
    requires EncodesEach(part, series, pieces) && Encodes(r, series, slice)
    ensures EncodesEach(part + [r], series, pieces + [slice])
  {
    hide Encodes;
  }

  lemma CutFront(s: seq<Sample>, n: nat)
    requires s != [] && n == if |s| <= TARGET_POINTS then |s| else TARGET_POINTS
    ensures Cut(s, TARGET_POINTS) == [s[..n]] + Cut(s[n..], TARGET_POINTS)
  {
    CutNext(s, TARGET_POINTS);
    if |s| <= TARGET_POINTS {
      assert s[n..] == [] && s[..n] == s;
    }
  }

  /** One group of a step: read, sort, cut, encode. */
  method RewriteGroup(rows: seq<Row>, g: Group, firstId: nat, size: seq<Sample> -> nat)
    returns (part: seq<Row>)
    requires Indexed(rows) && Present(rows, g)
    ensures Rewrites(GroupRows(rows, g), g.series, part) && Consecutive(part, firstId)
  {
    var points := ReadSources(rows, g);
    var sorted := SortUnstable(points);
    part := EncodePieces(g.series, sorted, firstId, size);
  }

  /** The groups of a step, from the front, until the clock says stop; the first
      is always done. `stopAfter` is how many are begun before it does. */
  method RewriteGroups(rows: seq<Row>, selected: seq<Group>, firstId: nat, stopAfter: Option<nat>, size: seq<Sample> -> nat)
    returns (done: nat, ghost parts: seq<seq<Row>>, add: seq<Row>)
    requires Indexed(rows) && AllPresent(rows, selected)
    ensures done <= |selected| && (selected != [] ==> done >= 1)
    ensures AllPresent(rows, selected[..done]) && RewritesEach(rows, selected[..done], parts)
    ensures add == Flatten(parts) && Consecutive(add, firstId)
  {
    done, parts, add := 0, [], [];
    hide Rewrites, GroupRows, RewritesEach, Flatten;
    assert RewritesEach(rows, selected[..0], []) by {
      RewritesNone(rows);
    }
    assert Flatten<Row>([]) == [] by {
      FlattenNone<Row>();
    }
    while done < |selected|
      invariant done <= |selected|
      invariant AllPresent(rows, selected[..done]) && RewritesEach(rows, selected[..done], parts)
      invariant add == Flatten(parts) && Consecutive(add, firstId)
      decreases |selected| - done
    {
      if stopAfter.Some? && done != 0 && done >= stopAfter.value {
        return;
      }
      assert selected[done] in selected;
      var part := RewriteGroup(rows, selected[done], firstId + |add|, size);
      RewritesEachNext(rows, selected[..done], parts, selected[done], part);
      assert selected[..done + 1] == selected[..done] + [selected[done]];
      FlattenConcat(parts, [part]);
      FlattenOne(part);
      parts, add, done := parts + [part], add + part, done + 1;
    }
  }

  lemma RewritesNone(rows: seq<Row>)
    requires Indexed(rows)
    ensures RewritesEach(rows, [], [])
  {
  }

  lemma FlattenNone<T>()
    ensures Flatten<T>([]) == []
  {
  }

  /** The id SQLite gives next in a table whose rollup chunks end before
      `rollupEnd`. */
  function FirstId(rows: seq<Row>, rollupEnd: nat): (id: nat)
    ensures id >= NextId(rows) && id >= rollupEnd
  {
    if rollupEnd > NextId(rows) then rollupEnd else NextId(rows)
  }

  /** Rewrite what is selected and still there, and swap the rows. */
  method SwapSelected(rows: seq<Row>, p: Plan, n: nat, rollupEnd: nat, stopAfter: Option<nat>, size: seq<Sample> -> nat)
    returns (done: seq<Group>, rest: seq<Group>, ghost parts: seq<seq<Row>>, add: seq<Row>, next: seq<Row>)
    requires ValidTable(rows) && SeriesInRange(rows) && QueueValid(p) && n <= |p.groups|
    ensures done + rest == StillThere(rows, p.groups[..n]) && (done == [] ==> rest == [])
    ensures AllPresent(rows, done) && Swapped(rows, done, parts, next) && add == Flatten(parts)
    ensures QueueValid(Worked(p, n, done, rest))
    ensures ValidTable(next) && SeriesInRange(next)
  {
    var selected := StillThere(rows, p.groups[..n]);
    forall g | g in selected ensures Present(rows, g) {
      FilterMember(p.groups[..n], (g: Group) => Present(rows, g), g);
    }
    var k;
    k, parts, add := RewriteGroups(rows, selected, FirstId(rows, rollupEnd), stopAfter, size);
    done, rest := selected[..k], selected[k..];
    assert done + rest == selected;
    next := SwapRows(rows, done, parts, add);
    WorkedValid(rows, p, n, done, rest);
    SwapConserves(rows, done, parts, next);
    SwappedInRange(rows, done, parts, next);
  }

  /** `replace_chunks`: add, then remove. */
  method SwapRows(rows: seq<Row>, done: seq<Group>, ghost parts: seq<seq<Row>>, add: seq<Row>)
    returns (next: seq<Row>)
    requires Indexed(rows) && AllPresent(rows, done) && RewritesEach(rows, done, parts)
    requires add == Flatten(parts) && NewIds(rows, add)
    ensures Swapped(rows, done, parts, next)
  {
    hide Rewrites, GroupRows;
    next := rows;
    if done != [] {
      next := Without(rows + add, SourceIds(done));
    } else {
      FilterAll(rows, (r: Row) => r.id !in SourceIds(done));
      assert rows + add == rows;
    }
  }

  // ------------------------------------------------------------- the engine

  function DefaultBudget(): Budget {
    Budget(0xFFFF_FFFF_FFFF_FFFF, 256 * 1024, 4 * 1024 * 1024, 1)
  }

  class Compactor {
    var rows: seq<Row>
    var plan: Option<Plan>
    var chunkSeq: nat
    var lately: set<int>
    /** The size the encoder's output has. */
    const size: seq<Sample> -> nat

    constructor (size: seq<Sample> -> nat)
      ensures Abs() == State([], None, 0, {}) && Sweeping(Abs())
    {
      rows, plan, chunkSeq, lately := [], None, 0, {};
      this.size := size;
    }

    function Abs(): State
      reads this
    {
      State(rows, plan, chunkSeq, lately)
    }

    /** Chunks a flush has encoded become rows, and `index_insert_new` accounts
        for them. */
    method InsertChunks(added: seq<Row>)
      requires Safe(Abs()) && added != []
      requires forall r | r in added :: WellFormed(r) && I64_MIN <= r.series <= I64_MAX
      requires NewIds(rows, added)
      modifies this
      ensures FlushStep(old(Abs()), added, Abs()) && Safe(Abs())
      ensures old(Sweeping(Abs())) ==> Sweeping(Abs())
    {
      rows := rows + added;
      chunkSeq := chunkSeq + |added|;
      lately := lately + set r | r in added :: r.series;
      if plan.Some? && Active(plan.value) {
        var p := plan.value;
        var again := SeriesColumn(Filter(added, (r: Row) => r.meta.maxTs < p.cutoff));
        plan := Some(p.(touched := p.touched + again));
      }
      assert FlushStep(old(Abs()), added, Abs());
      FlushStepSafe(old(Abs()), added, Abs());
      if old(Sweeping(Abs())) {
        FlushKeepsSweep(old(Abs()), added, Abs());
      }
    }

    /** Rows deleted under the plan's feet. */
    method DeleteChunks(ids: set<nat>)
      requires Safe(Abs())
      modifies this`rows
      ensures DeleteStep(old(Abs()), ids, Abs()) && Safe(Abs())
    {
      rows := Without(rows, ids);
      DeleteStepSafe(old(Abs()), ids, Abs());
    }

    /** `compact_partitions_inner`: one budgeted step. The rollup chunks of the
        table have ids below `rollupEnd`. */
    method Step(cutoff: int, b: Budget, rollupEnd: nat, stopAfter: Option<nat>) returns (more: bool)
      requires Safe(Abs()) && b.maxSeries >= 1
      modifies this
      ensures CompactionStep(old(Abs()), cutoff, b, Abs(), more)
      ensures Safe(Abs()) && lately == old(lately)
      ensures forall k :: Contents(rows, k) == Contents(old(rows), k)
    {
      hide Refilled, Continues, QueueValid;
      ghost var s := Abs();
      var rawMin := if b.rawMin < 1 then 1 else b.rawMin;
      var kept := plan.Some? && plan.value.cutoff == cutoff && plan.value.rawMin == rawMin
                  && (Active(plan.value) || plan.value.drainedAt == Some(chunkSeq));
      var p := if kept then plan.value else NewPlan(cutoff, rawMin);
      NewPlanValid(cutoff, rawMin);
      p := RefillMetricsPlan(rows, lately, p, Want(b));
      LoadedValid(s, cutoff, b);
      assert p == Loaded(s, cutoff, b);
      if p.groups == [] {
        var q;
        q, more := MetricsSweepContinues(rows, lately, chunkSeq, p);
        plan := Some(q);
        assert IdleStep(s, cutoff, b, Abs(), more);
        CompactionStepSafe(s, cutoff, b, Abs(), more);
        return;
      }
      more := WorkOff(cutoff, b, p, rollupEnd, stopAfter);
      CompactionStepSafe(s, cutoff, b, Abs(), more);
    }

    /** The second half of a step: select, rewrite, swap, put back. */
    method WorkOff(cutoff: int, b: Budget, p: Plan, rollupEnd: nat, stopAfter: Option<nat>) returns (more: bool)
      requires Safe(Abs()) && b.maxSeries >= 1
      requires p == Loaded(Abs(), cutoff, b) && QueueValid(p) && p.groups != []
      modifies this
      ensures CompactionStep(old(Abs()), cutoff, b, Abs(), more) && lately == old(lately)
    {
      hide Refilled, Continues, QueueValid, Loaded, Swapped, SeriesInRange;
      ghost var s := Abs();
      var n := SelectGroups(p.groups, b);
      var done, rest, parts, add, next := SwapSelected(rows, p, n, rollupEnd, stopAfter, size);
      rows := next;
      chunkSeq := chunkSeq + |add|;
      var q := Worked(p, n, done, rest);
      var m;
      q, m := MetricsSweepContinues(rows, lately, chunkSeq, q);
      plan := Some(q);
      more := m || rest != [];
      assert WorkStep(s, cutoff, b, n, done, rest, parts, Abs(), more);
    }

    /** `compact_partitions`: step until nothing is left. It ends, and then every
        series is compacted and planning the whole index again finds no group. */
    method CompactPartitions(cutoff: int, rollupEnd: nat)
      requires Sweeping(Abs())
      modifies this
      ensures Sweeping(Abs()) && lately == old(lately) && plan.Some?
      ensures NothingToDo(rows, lately, NewPlan(cutoff, 1)) && AllCompacted(rows, lately, cutoff, 1)
      ensures forall k :: Contents(rows, k) == Contents(old(rows), k)
    {
      hide CompactionStep, Sweeping, InStep, Safe, PlanSeries, AllCompacted, RawOrOversized, UnderTarget, UnreadSize;
      var b := DefaultBudget();
      var more, first := true, true;
      while more
        invariant Sweeping(Abs()) && lately == old(lately)
        invariant !first ==> plan.Some? && (more ==> Kept(Abs(), cutoff, 1))
        invariant !more ==> plan.Some? && NothingToDo(rows, lately, NewPlan(cutoff, 1))
        invariant forall k :: Contents(rows, k) == Contents(old(rows), k)
        decreases more && first, more, Left(Abs()).0, Left(Abs()).1, Left(Abs()).2
      {
        ghost var before := Abs();
        SweepingSafe(before);
        more := Step(cutoff, b, rollupEnd, None);
        StepKeepsSweep(before, cutoff, b, Abs(), more);
        if more {
          if !first {
            StepIsProgress(before, cutoff, b, Abs());
            MeasureNonNegative(before);
          }
        } else {
          forall k ensures PlanFor(rows, lately, NewPlan(cutoff, 1), k) == [] {
            assert PlanFor(rows, lately, plan.value, k) == [];
          }
        }
        first := false;
      }
      SweepingSafe(Abs());
      SafeTable(Abs());
      NothingToDoMeans(rows, lately, NewPlan(cutoff, 1));
    }
  }

  lemma SafeTable(s: State)
    requires Safe(s)
    ensures ValidTable(s.rows)
  {
  }
}
