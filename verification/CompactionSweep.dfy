/** A compaction sweep: the plan is read from the index a stretch of series at
    a time, groups are worked off from the front in budgeted steps, and the
    series a pass rewrote are looked at again until nothing is left. */
module CompactionSweep {
  import opened Sequences
  import opened Samples
  import opened ChunkTable
  import opened SeriesIndex
  import opened CompactionPlanner
  import opened CompactionExec

  const PLAN_STRETCH_SERIES: nat := 16384
  const PLAN_STRETCHES_PER_STEP: nat := 8
  const PLAN_REFILL_GROUPS: nat := 1024

  /** What a planning pass has still to read. */
  datatype Pending = From(from: int) | Listed(series: seq<int>, at: nat) | Done

  datatype Plan = Plan(
    cutoff: int, rawMin: nat, groups: seq<Group>, pending: Pending,
    touched: seq<int>, drainedAt: Option<nat>)

  function NewPlan(cutoff: int, rawMin: nat): Plan {
    Plan(cutoff, rawMin, [], From(I64_MIN), [], None)
  }

  predicate Active(p: Plan) {
    p.groups != [] || !p.pending.Done? || p.touched != []
  }

  // ---------------------------------------------------------- candidates

  predicate IsCandidate(r: Row, s: int, cutoff: int) {
    r.series == s && r.meta.maxTs < cutoff && (r.enc.Raw? || r.meta.count != TARGET_POINTS)
  }

  function RefsOf(rows: seq<Row>): seq<Ref> {
    if rows == [] then [] else RefsOf(rows[..|rows| - 1]) + [RefOf(rows[|rows| - 1])]
  }

  lemma {:induction false} RefsOfShape(rows: seq<Row>)
    ensures |RefsOf(rows)| == |rows|
    ensures forall i | 0 <= i < |rows| :: RefsOf(rows)[i] == RefOf(rows[i])
  {
    if rows != [] {
      RefsOfShape(rows[..|rows| - 1]);
    }
  }

  /** A series' part of `compaction_candidates`, in index order. */
  function SeriesCandidates(rows: seq<Row>, s: int, cutoff: int): seq<Ref> {
    RefsOf(SortBy(Filter(rows, (r: Row) => IsCandidate(r, s, cutoff)), MinTsLe))
  }

  lemma CandidateMember(rows: seq<Row>, s: int, cutoff: int, ref: Ref)
    requires ref in SeriesCandidates(rows, s, cutoff)
    ensures Eligible(ref)
    ensures exists r :: r in rows && r.series == s && RefOf(r) == ref
  {
    var p := (r: Row) => IsCandidate(r, s, cutoff);
    var found := SortBy(Filter(rows, p), MinTsLe);
    RefsOfShape(found);
    var i :| 0 <= i < |found| && RefOf(found[i]) == ref;
    SortByMembers(Filter(rows, p), MinTsLe);
    FilterMember(rows, p, found[i]);
  }

  lemma CandidatesDistinct(rows: seq<Row>, s: int, cutoff: int)
    requires Indexed(rows)
    ensures forall i, j | 0 <= i < j < |SeriesCandidates(rows, s, cutoff)| ::
              SeriesCandidates(rows, s, cutoff)[i].id != SeriesCandidates(rows, s, cutoff)[j].id
  {
    var p := (r: Row) => IsCandidate(r, s, cutoff);
    var plain := Filter(rows, p);
    IndexedFilter(rows, p);
    var found := SortBy(plain, MinTsLe);
    SortByMultiset(plain, MinTsLe);
    SortByMembers(plain, MinTsLe);
    assert Distinct(plain);
    DistinctCount(plain);
    DistinctCount(found);
    RefsOfShape(found);
    forall i, j | 0 <= i < j < |found| ensures found[i].id != found[j].id {
      assert found[i] != found[j];
      assert found[i] in plain && found[j] in plain;
      if found[i].id == found[j].id {
        UniqueId(plain, found[i], found[j]);
      }
    }
  }

  function PlanFor(rows: seq<Row>, lately: set<int>, p: Plan, s: int): seq<Group> {
    PlanSeries(s, SeriesCandidates(rows, s, p.cutoff), s in lately, p.rawMin)
  }

  function GroupsFor(rows: seq<Row>, lately: set<int>, p: Plan, ids: seq<int>): seq<Group> {
    FlatMap(ids, (s: int) => PlanFor(rows, lately, p, s))
  }

  function OldestTs(refs: seq<Ref>): int {
    if refs == [] then I64_MAX
    else
      var m := OldestTs(refs[..|refs| - 1]);
      if refs[|refs| - 1].minTs < m then refs[|refs| - 1].minTs else m
  }

  /** First compression before merges, then series order, then oldest first. */
  predicate GroupLe(a: Group, b: Group) {
    if a.kind != b.kind then a.kind.RawCompression?
    else if a.series != b.series then a.series < b.series
    else OldestTs(a.sources) <= OldestTs(b.sources)
  }

  function StretchGroups(rows: seq<Row>, lately: set<int>, p: Plan, ids: seq<int>): seq<Group> {
    SortBy(GroupsFor(rows, lately, p, ids), GroupLe)
  }

  /** The first timestamp of a group's sources. */
  lemma {:induction false} OldestTsMeans(refs: seq<Ref>)
    requires refs != [] && forall r | r in refs :: r.minTs <= I64_MAX
    ensures (exists r :: r in refs && r.minTs == OldestTs(refs)) && forall r | r in refs :: OldestTs(refs) <= r.minTs
  {
    var t, x := refs[..|refs| - 1], refs[|refs| - 1];
    assert refs == t + [x] && x in refs;
    if t != [] {
      OldestTsMeans(t);
      if x.minTs >= OldestTs(t) {
        var r :| r in t && r.minTs == OldestTs(t);
        assert r in refs;
      }
    } else {
      assert OldestTs(t) == I64_MAX;
    }
  }

  lemma GroupLeTotal()
    ensures TotalPreorder(GroupLe)
  {
    hide OldestTs;
  }

  /** A stretch compresses before it merges, takes its series in order, and of
      one series what begins earliest first. */
  lemma StretchGroupsInOrder(rows: seq<Row>, lately: set<int>, p: Plan, ids: seq<int>, i: nat, j: nat)
    requires i < j < |StretchGroups(rows, lately, p, ids)|
    ensures var a, b := StretchGroups(rows, lately, p, ids)[i], StretchGroups(rows, lately, p, ids)[j];
            && (a.kind.CompressedMerge? ==> b.kind.CompressedMerge?)
            && (a.kind == b.kind ==> a.series <= b.series)
            && (a.kind == b.kind && a.series == b.series ==> OldestTs(a.sources) <= OldestTs(b.sources))
    ensures multiset(StretchGroups(rows, lately, p, ids)) == multiset(GroupsFor(rows, lately, p, ids))
  {
    hide SortBy, GroupsFor, OldestTs;
    var groups := GroupsFor(rows, lately, p, ids);
    GroupLeTotal();
    SortByAscending(groups, GroupLe);
    SortByMultiset(groups, GroupLe);
    var sorted := StretchGroups(rows, lately, p, ids);
    assert GroupLe(sorted[i], sorted[j]);
  }

  /** The end of the stretch that starts at series `first`. */
  function StretchEnd(first: int): int {
    if first + PLAN_STRETCH_SERIES - 1 > I64_MAX then I64_MAX else first + PLAN_STRETCH_SERIES - 1
  }

  function ListedEnd(series: seq<int>, at: nat): nat {
    if at + PLAN_STRETCH_SERIES < |series| then at + PLAN_STRETCH_SERIES else |series|
  }

  /** The series the next stretch of a pass reads. */
  function StretchIds(rows: seq<Row>, pending: Pending): seq<int> {
    match pending
    case Done => []
    case From(from) =>
      (match NextSeries(rows, from)
       case None => []
       case Some(first) => SeriesBetween(rows, first, StretchEnd(first)))
    case Listed(series, at) =>
      if at > |series| then [] else series[at..ListedEnd(series, at)]
  }

  /** What it leaves to be read. */
  function AfterStretch(rows: seq<Row>, pending: Pending): Pending {
    match pending
    case Done => Done
    case From(from) =>
      (match NextSeries(rows, from)
       case None => Done
       case Some(first) => if StretchEnd(first) < I64_MAX then From(StretchEnd(first) + 1) else Done)
    case Listed(series, at) =>
      if ListedEnd(series, at) < |series| then Listed(series, ListedEnd(series, at)) else Done
  }

  /** `plan_metrics_stretch`: read the next stretch of the pass. */
  function PlanStretch(rows: seq<Row>, lately: set<int>, p: Plan): Plan {
    p.(groups := p.groups + StretchGroups(rows, lately, p, StretchIds(rows, p.pending)),
       pending := AfterStretch(rows, p.pending))
  }

  // ------------------------------------------------------- the plan's state

  ghost predicate Unread(pending: Pending, s: int) {
    match pending
    case From(from) => s >= from
    case Listed(series, at) => at <= |series| && s in series[at..]
    case Done => false
  }

  ghost predicate Queued(groups: seq<Group>, s: int) {
    exists g :: g in groups && g.series == s
  }

  /** What holds of the queue across every step, whatever else happens to the
      table: each group is well planned and of one series and kind, each source
      is in one group only, and no queued series is still to be read. */
  ghost predicate QueueValid(p: Plan) {
    && (forall g | g in p.groups :: WellPlanned(g) && !Unread(p.pending, g.series))
    && OnceEach(p.groups)
    && PendingValid(p.pending)
  }

  lemma PlanForShape(rows: seq<Row>, lately: set<int>, p: Plan, s: int, g: Group)
    requires g in PlanFor(rows, lately, p, s)
    ensures WellPlanned(g) && g.series == s
    ensures forall ref | ref in g.sources :: exists r :: r in rows && r.series == s && RefOf(r) == ref
  {
    var c := SeriesCandidates(rows, s, p.cutoff);
    forall ref | ref in c ensures Eligible(ref) {
      CandidateMember(rows, s, p.cutoff, ref);
    }
    PlanSeriesShape(s, c, s in lately, p.rawMin, g);
    forall ref | ref in g.sources ensures exists r :: r in rows && r.series == s && RefOf(r) == ref {
      CandidateMember(rows, s, p.cutoff, ref);
    }
  }

  lemma {:induction false} IdCountInSources(groups: seq<Group>, s: int, id: nat)
    requires forall g | g in groups :: g.series == s
    ensures KeyCount(groups, s, id) == IdCount(SourcesOf(groups), id)
  {
    if groups != [] {
      var t, g := groups[..|groups| - 1], groups[|groups| - 1];
      IdCountInSources(t, s, id);
      SumConcat(SourcesOf(t), g.sources, (r: Ref) => if r.id == id then 1 else 0);
    }
  }

  /** With distinct ids, a list that repeats no reference repeats no id. */
  lemma {:induction false} IdCountAtMostOne(refs: seq<Ref>, all: seq<Ref>, id: nat)
    requires Distinct(refs) && forall r | r in refs :: r in all
    requires forall i, j | 0 <= i < j < |all| :: all[i].id != all[j].id
    ensures 0 <= IdCount(refs, id) <= 1
    ensures (forall r | r in refs :: r.id != id) ==> IdCount(refs, id) == 0
  {
    if refs != [] {
      var t, x := refs[..|refs| - 1], refs[|refs| - 1];
      assert refs == t + [x];
      IdCountAtMostOne(t, all, id);
      IdCountLast(refs, id);
      if x.id == id {
        forall y | y in t ensures y.id != id {
          assert y != x && y in refs && x in refs;
          var i :| 0 <= i < |all| && all[i] == x;
          var j :| 0 <= j < |all| && all[j] == y;
          assert i != j;
        }
      }
    }
  }

  lemma PlanForOnce(rows: seq<Row>, lately: set<int>, p: Plan, s: int, k: int, id: nat)
    requires Indexed(rows)
    ensures 0 <= KeyCount(PlanFor(rows, lately, p, s), k, id) <= if k == s then 1 else 0
  {
    var groups := PlanFor(rows, lately, p, s);
    forall g | g in groups ensures g.series == s {
      PlanForShape(rows, lately, p, s, g);
    }
    KeyCountNonNegative(groups, k, id);
    if k == s {
      var c := SeriesCandidates(rows, s, p.cutoff);
      CandidatesDistinct(rows, s, p.cutoff);
      PlanSeriesDistinct(s, c, s in lately, p.rawMin);
      forall r | r in SourcesOf(groups) ensures r in c {
        SourcesMember(groups, r);
        var g :| g in groups && r in g.sources;
        forall ref | ref in c ensures Eligible(ref) {
          CandidateMember(rows, s, p.cutoff, ref);
        }
        PlanSeriesShape(s, c, s in lately, p.rawMin, g);
      }
      IdCountAtMostOne(SourcesOf(groups), c, id);
      IdCountInSources(groups, s, id);
    } else {
      SumAgree(groups, (g: Group) => Occurs(g, k, id), (g: Group) => 0);
      SumZero(groups);
    }
  }

  lemma {:induction false} SumZero<T>(s: seq<T>)
    ensures Sum(s, (x: T) => 0) == 0
  {
    if s != [] {
      SumZero(s[..|s| - 1]);
    }
  }

  lemma {:induction false} GroupsForOnce(rows: seq<Row>, lately: set<int>, p: Plan, ids: seq<int>, k: int, id: nat)
    requires Indexed(rows) && StrictlyAscending(ids)
    ensures 0 <= KeyCount(GroupsFor(rows, lately, p, ids), k, id) <= if k in ids then 1 else 0
  {
    hide PlanFor;
    if ids != [] {
      var t, x := ids[..|ids| - 1], ids[|ids| - 1];
      assert ids == t + [x];
      GroupsForOnce(rows, lately, p, t, k, id);
      PlanForOnce(rows, lately, p, x, k, id);
      assert GroupsFor(rows, lately, p, ids) == GroupsFor(rows, lately, p, t) + PlanFor(rows, lately, p, x);
      KeyCountConcat(GroupsFor(rows, lately, p, t), PlanFor(rows, lately, p, x), k, id);
      if k in t {
        var i :| 0 <= i < |t| && t[i] == k;
        assert ids[i] < ids[|ids| - 1];
      }
    }
  }

  lemma StretchOnce(rows: seq<Row>, lately: set<int>, p: Plan, ids: seq<int>, k: int, id: nat)
    requires Indexed(rows) && StrictlyAscending(ids)
    ensures 0 <= KeyCount(StretchGroups(rows, lately, p, ids), k, id) <= if k in ids then 1 else 0
  {
    var plain := GroupsFor(rows, lately, p, ids);
    GroupsForOnce(rows, lately, p, ids, k, id);
    SortByMultiset(plain, GroupLe);
    SumPermutation(StretchGroups(rows, lately, p, ids), plain, (g: Group) => Occurs(g, k, id));
  }

  lemma StretchMember(rows: seq<Row>, lately: set<int>, p: Plan, ids: seq<int>, g: Group)
    ensures g in StretchGroups(rows, lately, p, ids) <==>
            exists s :: s in ids && g in PlanFor(rows, lately, p, s)
  {
    SortByMembers(GroupsFor(rows, lately, p, ids), GroupLe);
    FlatMapMember(ids, (s: int) => PlanFor(rows, lately, p, s), g);
  }

  lemma NextSeriesFirst(rows: seq<Row>, from: int)
    requires forall r | r in rows :: I64_MIN <= r.series <= I64_MAX
    ensures NextSeries(rows, from).Some? ==> from <= NextSeries(rows, from).value <= I64_MAX
    ensures forall r | r in rows && r.series >= from ::
              NextSeries(rows, from).Some? && NextSeries(rows, from).value <= r.series
    ensures NextSeries(rows, from).Some? ==>
              exists r :: r in rows && r.series == NextSeries(rows, from).value
  {
    var ids := SeriesBetween(rows, from, I64_MAX);
    SeriesBetweenAscending(rows, from, I64_MAX);
    if ids != [] {
      SeriesBetweenMember(rows, from, I64_MAX, ids[0]);
    }
    forall r | r in rows && r.series >= from
      ensures NextSeries(rows, from).Some? && NextSeries(rows, from).value <= r.series
    {
      SeriesBetweenMember(rows, from, I64_MAX, r.series);
      var i :| 0 <= i < |ids| && ids[i] == r.series;
    }
  }

  ghost predicate PendingValid(pending: Pending) {
    pending.Listed? ==> pending.at < |pending.series| && StrictlyAscending(pending.series)
  }

  /** What reading the series `ids` leaves of `before`: every series with a
      chunk that was to be read and is not among them is still to be read, and
      what was read is not to be read again. */
  ghost predicate ReadOf(rows: seq<Row>, before: Pending, ids: seq<int>, after: Pending) {
    && StrictlyAscending(ids)
    && PendingValid(after)
    && (forall s | s in ids :: Unread(before, s) && !Unread(after, s))
    && (forall s | Unread(after, s) :: Unread(before, s))
    && (forall s | Unread(before, s) :: s in ids || Unread(after, s) || forall r | r in rows :: r.series != s)
  }

  lemma ReadFrom(rows: seq<Row>, from: int, first: int)
    requires forall r | r in rows :: I64_MIN <= r.series <= I64_MAX
    requires NextSeries(rows, from) == Some(first)
    ensures ReadOf(rows, From(from), SeriesBetween(rows, first, StretchEnd(first)),
                   if StretchEnd(first) < I64_MAX then From(StretchEnd(first) + 1) else Done)
  {
    var last := StretchEnd(first);
    var after := if last < I64_MAX then From(last + 1) else Done;
    var ids := SeriesBetween(rows, first, last);
    NextSeriesFirst(rows, from);
    SeriesBetweenAscending(rows, first, last);
    forall s | s in ids ensures Unread(From(from), s) && !Unread(after, s) {
      SeriesBetweenMember(rows, first, last, s);
    }
    forall s | Unread(From(from), s) && !Unread(after, s) && s !in ids
      ensures forall r | r in rows :: r.series != s
    {
      SeriesBetweenMember(rows, first, last, s);
    }
  }

  lemma ReadNone(rows: seq<Row>, from: int)
    requires forall r | r in rows :: I64_MIN <= r.series <= I64_MAX
    requires NextSeries(rows, from).None?
    ensures ReadOf(rows, From(from), [], Done)
  {
    NextSeriesFirst(rows, from);
  }

  lemma ReadListed(rows: seq<Row>, series: seq<int>, at: nat, end: nat)
    requires at < end <= |series| && StrictlyAscending(series)
    ensures ReadOf(rows, Listed(series, at), series[at..end],
                   if end < |series| then Listed(series, end) else Done)
  {
    assert series[at..] == series[at..end] + series[end..];
    forall i, j | at <= i < end <= j < |series| ensures series[i] != series[j] {
    }
  }

  lemma StretchReadOf(rows: seq<Row>, pending: Pending)
    requires PendingValid(pending) && forall r | r in rows :: I64_MIN <= r.series <= I64_MAX
    ensures ReadOf(rows, pending, StretchIds(rows, pending), AfterStretch(rows, pending))
  {
    match pending {
      case Done =>
      case From(from) =>
        match NextSeries(rows, from) {
          case None => ReadNone(rows, from);
          case Some(first) => ReadFrom(rows, from, first);
        }
      case Listed(series, at) => ReadListed(rows, series, at, ListedEnd(series, at));
    }
  }

  /** Reading a stretch keeps the queue valid. */
  lemma StretchKeepsQueue(rows: seq<Row>, lately: set<int>, p: Plan)
    requires Indexed(rows) && QueueValid(p)
    requires forall r | r in rows :: I64_MIN <= r.series <= I64_MAX
    ensures QueueValid(PlanStretch(rows, lately, p))
  {
    StretchReadOf(rows, p.pending);
    var q := PlanStretch(rows, lately, p);
    var ids := StretchIds(rows, p.pending);
    var more := StretchGroups(rows, lately, p, ids);
    forall g | g in q.groups ensures WellPlanned(g) && !Unread(q.pending, g.series) {
      if g in more {
        StretchMember(rows, lately, p, ids, g);
        var s :| s in ids && g in PlanFor(rows, lately, p, s);
        PlanForShape(rows, lately, p, s, g);
      }
    }
    forall k, id ensures KeyCount(q.groups, k, id) <= 1 {
      KeyCountConcat(p.groups, more, k, id);
      StretchOnce(rows, lately, p, ids, k, id);
      assert KeyCount(p.groups, k, id) <= 1;
      if k in ids {
        NoneQueued(p.groups, k, id);
      }
    }
  }

  lemma NoneQueued(groups: seq<Group>, k: int, id: nat)
    requires forall g | g in groups :: g.series != k
    ensures KeyCount(groups, k, id) == 0
  {
    SumAgree(groups, (g: Group) => Occurs(g, k, id), (g: Group) => 0);
    SumZero(groups);
  }

  // ------------------------------------------------ reading on, bounded

  /** `refill_metrics_plan`: read stretches until there are `want` groups, there
      is nothing to read, or `stretches` have been read. */
  function Refilled(rows: seq<Row>, lately: set<int>, p: Plan, want: nat, stretches: nat): Plan
    decreases stretches
  {
    if |p.groups| < want && stretches > 0 && !p.pending.Done? then
      Refilled(rows, lately, PlanStretch(rows, lately, p), want, stretches - 1)
    else p
  }

  /** The next pass: over the series the last one rewrote. */
  function NextPass(p: Plan): Plan {
    if p.pending.Done? then p.(touched := [], pending := Listed(SortedIds(p.touched), 0)) else p
  }

  /** `metrics_sweep_continues`. */
  function Continues(rows: seq<Row>, lately: set<int>, chunkSeq: nat, p: Plan, stretches: nat): (Plan, bool)
    decreases stretches
  {
    if p.groups != [] then (p, true)
    else if p.pending.Done? && p.touched == [] then (p.(drainedAt := Some(chunkSeq)), false)
    else if stretches == 0 then (NextPass(p), true)
    else Continues(rows, lately, chunkSeq, PlanStretch(rows, lately, NextPass(p)), stretches - 1)
  }

  ghost predicate SeriesInRange(rows: seq<Row>) {
    forall r | r in rows :: I64_MIN <= r.series <= I64_MAX
  }

  lemma NextPassKeepsQueue(p: Plan)
    requires QueueValid(p) && p.groups == []
    requires p.pending.Done? ==> p.touched != []
    ensures QueueValid(NextPass(p))
  {
    SortedIdsProperties(p.touched);
    if p.pending.Done? {
      var first := p.touched[0];
      assert first in p.touched;
      assert first in SortedIds(p.touched);
    }
  }

  lemma {:induction false} RefillKeepsQueue(rows: seq<Row>, lately: set<int>, p: Plan, want: nat, stretches: nat)
    requires Indexed(rows) && SeriesInRange(rows) && QueueValid(p)
    ensures var q := Refilled(rows, lately, p, want, stretches);
            && QueueValid(q) && q == p.(groups := q.groups, pending := q.pending)
    decreases stretches
  {
    hide StretchGroups, AfterStretch, StretchIds;
    if |p.groups| < want && stretches > 0 && !p.pending.Done? {
      StretchReadOf(rows, p.pending);
      StretchKeepsQueue(rows, lately, p);
      RefillKeepsQueue(rows, lately, PlanStretch(rows, lately, p), want, stretches - 1);
    }
  }

  lemma {:induction false} ContinuesKeepsQueue(rows: seq<Row>, lately: set<int>, chunkSeq: nat, p: Plan, stretches: nat)
    requires Indexed(rows) && SeriesInRange(rows) && QueueValid(p)
    ensures QueueValid(Continues(rows, lately, chunkSeq, p, stretches).0)
    decreases stretches
  {
    hide PlanStretch;
    if p.groups != [] || (p.pending.Done? && p.touched == []) {
    } else {
      NextPassKeepsQueue(p);
      if stretches > 0 {
        var q := PlanStretch(rows, lately, NextPass(p));
        StretchKeepsQueue(rows, lately, NextPass(p));
        ContinuesKeepsQueue(rows, lately, chunkSeq, q, stretches - 1);
        assert Continues(rows, lately, chunkSeq, p, stretches) == Continues(rows, lately, chunkSeq, q, stretches - 1);
      }
    }
  }

  lemma {:induction false} ContinuesOutcome(rows: seq<Row>, lately: set<int>, chunkSeq: nat, p: Plan, stretches: nat)
    ensures var (q, more) := Continues(rows, lately, chunkSeq, p, stretches);
            && q.cutoff == p.cutoff && q.rawMin == p.rawMin
            && if more then Active(q) && q.drainedAt == p.drainedAt
               else !Active(q) && q.drainedAt == Some(chunkSeq)
    decreases stretches
  {
    hide StretchGroups, AfterStretch, StretchIds;
    if p.groups != [] || (p.pending.Done? && p.touched == []) {
    } else if stretches > 0 {
      var q := PlanStretch(rows, lately, NextPass(p));
      ContinuesOutcome(rows, lately, chunkSeq, q, stretches - 1);
      assert Continues(rows, lately, chunkSeq, p, stretches) == Continues(rows, lately, chunkSeq, q, stretches - 1);
    }
  }

  // ------------------------------------------------------- nothing missed

  /** Every series is still to be read, to be looked at again, has a group
      queued, or has nothing to do as the table stands. */
  ghost predicate Covered(rows: seq<Row>, lately: set<int>, p: Plan) {
    forall s :: Unread(p.pending, s) || s in p.touched || Queued(p.groups, s) || PlanFor(rows, lately, p, s) == []
  }

  /** Replanning the whole index finds nothing. */
  ghost predicate NothingToDo(rows: seq<Row>, lately: set<int>, p: Plan) {
    forall s :: PlanFor(rows, lately, p, s) == []
  }

  lemma NoRowsNoPlan(rows: seq<Row>, lately: set<int>, p: Plan, s: int)
    requires forall r | r in rows :: r.series != s
    ensures PlanFor(rows, lately, p, s) == []
  {
    FilterNone(rows, (r: Row) => IsCandidate(r, s, p.cutoff));
    assert SeriesCandidates(rows, s, p.cutoff) == [];
    EmptyPlan(s, s in lately, p.rawMin);
  }

  lemma EmptyPlan(s: int, lately: bool, rawMin: nat)
    ensures PlanSeries(s, [], lately, rawMin) == []
  {
    var runs := MergeRuns(SortBy([], MergeLe), []);
    assert runs == [[]];
    FilterNone(runs, (run: seq<Ref>) => WorthMerging(run, AtLeast(lately)));
  }

  lemma StretchKeepsCover(rows: seq<Row>, lately: set<int>, p: Plan)
    requires SeriesInRange(rows) && PendingValid(p.pending) && Covered(rows, lately, p)
    ensures Covered(rows, lately, PlanStretch(rows, lately, p))
  {
    StretchReadOf(rows, p.pending);
    var q := PlanStretch(rows, lately, p);
    var ids := StretchIds(rows, p.pending);
    forall s
      ensures Unread(q.pending, s) || s in q.touched || Queued(q.groups, s) || PlanFor(rows, lately, q, s) == []
    {
      if Unread(p.pending, s) && !Unread(q.pending, s) {
        if s in ids {
          if PlanFor(rows, lately, p, s) != [] {
            var g := PlanFor(rows, lately, p, s)[0];
            assert g in PlanFor(rows, lately, p, s);
            PlanForShape(rows, lately, p, s, g);
            StretchMember(rows, lately, p, ids, g);
            assert g in q.groups;
          }
        } else {
          NoRowsNoPlan(rows, lately, p, s);
        }
      } else if Queued(p.groups, s) {
        var g :| g in p.groups && g.series == s;
        assert g in q.groups;
      }
    }
  }

  lemma NextPassKeepsCover(rows: seq<Row>, lately: set<int>, p: Plan)
    requires Covered(rows, lately, p)
    ensures Covered(rows, lately, NextPass(p))
  {
    hide PlanSeries;
    SortedIdsProperties(p.touched);
    var q := NextPass(p);
    forall s
      ensures Unread(q.pending, s) || s in q.touched || Queued(q.groups, s) || PlanFor(rows, lately, q, s) == []
    {
      assert p.pending.Done? && s in p.touched ==> s in SortedIds(p.touched)[0..];
    }
  }

  lemma {:induction false} RefillKeepsCover(rows: seq<Row>, lately: set<int>, p: Plan, want: nat, stretches: nat)
    requires SeriesInRange(rows) && PendingValid(p.pending) && Covered(rows, lately, p)
    ensures Covered(rows, lately, Refilled(rows, lately, p, want, stretches))
    decreases stretches
  {
    hide StretchGroups, AfterStretch, StretchIds, Covered;
    if |p.groups| < want && stretches > 0 && !p.pending.Done? {
      StretchKeepsCover(rows, lately, p);
      StretchReadOf(rows, p.pending);
      RefillKeepsCover(rows, lately, PlanStretch(rows, lately, p), want, stretches - 1);
    }
  }

  /** A sweep that says it is over leaves nothing to do. */
  lemma {:induction false} ContinuesKeepsCover(rows: seq<Row>, lately: set<int>, chunkSeq: nat, p: Plan, stretches: nat)
    requires Indexed(rows) && SeriesInRange(rows) && QueueValid(p) && Covered(rows, lately, p)
    ensures var (q, more) := Continues(rows, lately, chunkSeq, p, stretches);
            Covered(rows, lately, q) && (!more ==> NothingToDo(rows, lately, q))
    decreases stretches
  {
    hide PlanStretch, PlanSeries;
    if p.groups != [] {
    } else if p.pending.Done? && p.touched == [] {
      var q := p.(drainedAt := Some(chunkSeq));
      forall s ensures PlanFor(rows, lately, q, s) == [] {
        assert !Unread(p.pending, s) && s !in p.touched && !Queued(p.groups, s);
      }
    } else {
      NextPassKeepsCover(rows, lately, p);
      NextPassKeepsQueue(p);
      if stretches > 0 {
        StretchKeepsCover(rows, lately, NextPass(p));
        StretchKeepsQueue(rows, lately, NextPass(p));
        ContinuesKeepsCover(rows, lately, chunkSeq, PlanStretch(rows, lately, NextPass(p)), stretches - 1);
      }
    }
  }

  // ------------------------------------------------ reading makes progress

  function AtOrAbove(rows: seq<Row>, from: int): int {
    Sum(rows, (r: Row) => if r.series >= from then 1 else 0)
  }

  function PendingSize(rows: seq<Row>, pending: Pending): int {
    match pending
    case From(from) => 1 + AtOrAbove(rows, from)
    case Listed(series, at) => |series| - at
    case Done => 0
  }

  /** How much of the index the plan has still to read. */
  function UnreadSize(rows: seq<Row>, p: Plan): int {
    |p.touched| + PendingSize(rows, p.pending)
  }

  lemma {:induction false} AtOrAboveFalls(rows: seq<Row>, from: int, to: int)
    requires from <= to
    ensures 0 <= AtOrAbove(rows, to) <= AtOrAbove(rows, from)
    ensures (exists r :: r in rows && from <= r.series < to) ==> AtOrAbove(rows, to) < AtOrAbove(rows, from)
  {
    if rows != [] {
      var t, x := rows[..|rows| - 1], rows[|rows| - 1];
      assert rows == t + [x];
      AtOrAboveFalls(t, from, to);
      assert AtOrAbove(rows, to) == AtOrAbove(t, to) + if x.series >= to then 1 else 0;
      assert AtOrAbove(rows, from) == AtOrAbove(t, from) + if x.series >= from then 1 else 0;
    }
  }

  lemma PendingFalls(rows: seq<Row>, pending: Pending)
    requires SeriesInRange(rows) && PendingValid(pending) && !pending.Done?
    ensures 0 <= PendingSize(rows, AfterStretch(rows, pending)) < PendingSize(rows, pending)
  {
    match pending {
      case From(from) =>
        AtOrAboveFalls(rows, from, from);
        NextSeriesFirst(rows, from);
        match NextSeries(rows, from) {
          case None =>
          case Some(first) =>
            var r :| r in rows && r.series == first;
            AtOrAboveFalls(rows, from, StretchEnd(first) + 1);
        }
      case Listed(series, at) =>
    }
  }

  lemma StretchReads(rows: seq<Row>, lately: set<int>, p: Plan)
    requires SeriesInRange(rows) && PendingValid(p.pending) && !p.pending.Done?
    ensures 0 <= UnreadSize(rows, PlanStretch(rows, lately, p)) < UnreadSize(rows, p)
  {
    hide StretchGroups, AfterStretch, StretchIds;
    PendingFalls(rows, p.pending);
  }

  lemma {:induction false} RefillReads(rows: seq<Row>, lately: set<int>, p: Plan, want: nat, stretches: nat)
    requires SeriesInRange(rows) && PendingValid(p.pending)
    ensures UnreadSize(rows, Refilled(rows, lately, p, want, stretches)) <= UnreadSize(rows, p)
    ensures p.groups == [] && want > 0 && stretches > 0 && !p.pending.Done? ==>
              UnreadSize(rows, Refilled(rows, lately, p, want, stretches)) < UnreadSize(rows, p)
    decreases stretches
  {
    hide StretchGroups, AfterStretch, StretchIds, UnreadSize;
    if |p.groups| < want && stretches > 0 && !p.pending.Done? {
      StretchReads(rows, lately, p);
      StretchReadOf(rows, p.pending);
      RefillReads(rows, lately, PlanStretch(rows, lately, p), want, stretches - 1);
    }
  }

  lemma NextPassReads(rows: seq<Row>, p: Plan)
    requires PendingValid(p.pending)
    ensures UnreadSize(rows, NextPass(p)) <= UnreadSize(rows, p)
  {
    SortedIdsProperties(p.touched);
  }

  lemma {:induction false} ContinuesReads(rows: seq<Row>, lately: set<int>, chunkSeq: nat, p: Plan, stretches: nat)
    requires Indexed(rows) && SeriesInRange(rows) && QueueValid(p)
    ensures var (q, more) := Continues(rows, lately, chunkSeq, p, stretches);
            && UnreadSize(rows, q) <= UnreadSize(rows, p)
            && (more && p.groups == [] && stretches > 0 ==> UnreadSize(rows, q) < UnreadSize(rows, p))
    decreases stretches
  {
    hide PlanStretch, PendingSize;
    if p.groups != [] || (p.pending.Done? && p.touched == []) {
    } else {
      NextPassReads(rows, p);
      NextPassKeepsQueue(p);
      if stretches > 0 {
        var q := PlanStretch(rows, lately, NextPass(p));
        StretchReads(rows, lately, NextPass(p));
        StretchKeepsQueue(rows, lately, NextPass(p));
        ContinuesReads(rows, lately, chunkSeq, q, stretches - 1);
        assert Continues(rows, lately, chunkSeq, p, stretches) == Continues(rows, lately, chunkSeq, q, stretches - 1);
      }
    }
  }
}
