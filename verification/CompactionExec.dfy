/** Carrying out planned groups: read the sources, put their samples in
    timestamp order, cut at the target, and swap the rows. */
module CompactionExec {
  import opened Sequences
  import opened Samples
  import opened ChunkTable
  import opened CompactionPlanner

  // ------------------------------------------------------------------- cut

  /** `slice::chunks`. */
  function Cut<T>(p: seq<T>, n: nat): seq<seq<T>>
    requires n > 0
    decreases |p|
  {
    if p == [] then [] else if |p| <= n then [p] else [p[..n]] + Cut(p[n..], n)
  }

  lemma {:induction false} CutFlatten<T>(p: seq<T>, n: nat)
    requires n > 0
    ensures Flatten(Cut(p, n)) == p
    ensures forall piece | piece in Cut(p, n) :: 0 < |piece| <= n
    decreases |p|
  {
    if p == [] {
    } else if |p| <= n {
      FlattenOne(p);
    } else {
      CutFlatten(p[n..], n);
      assert ([p[..n]] + Cut(p[n..], n))[1..] == Cut(p[n..], n);
      assert p == p[..n] + p[n..];
    }
  }

  lemma CutNext<T>(p: seq<T>, n: nat)
    requires n > 0 && p != []
    ensures |p| <= n ==> Cut(p, n) == [p]
    ensures |p| > n ==> Cut(p, n) == [p[..n]] + Cut(p[n..], n)
  {
  }

  // -------------------------------------------------------------- presence

  /** Whether a row is the one a plan was made with: its id, its series, where
      it begins and how much it holds. */
  predicate Matches(r: Row, s: int, ref: Ref) {
    r.id == ref.id && r.series == s && r.meta.minTs == ref.minTs && r.meta.count == ref.count
  }

  predicate Stored(rows: seq<Row>, s: int, ref: Ref) {
    exists r :: r in rows && Matches(r, s, ref)
  }

  predicate PresentRefs(rows: seq<Row>, s: int, refs: seq<Ref>) {
    forall ref | ref in refs :: Stored(rows, s, ref)
  }

  /** `sources_present`. */
  predicate Present(rows: seq<Row>, g: Group) {
    PresentRefs(rows, g.series, g.sources)
  }

  /** The row under `id`. */
  function RowAt(rows: seq<Row>, id: nat): (r: Row)
    requires exists r :: r in rows && r.id == id
    ensures r in rows && r.id == id
  {
    if rows[|rows| - 1].id == id then rows[|rows| - 1]
    else
      var r :| r in rows && r.id == id;
      assert rows == rows[..|rows| - 1] + [rows[|rows| - 1]];
      RowAt(rows[..|rows| - 1], id)
  }

  lemma PresentRow(rows: seq<Row>, s: int, refs: seq<Ref>, ref: Ref)
    requires Indexed(rows) && PresentRefs(rows, s, refs) && ref in refs
    ensures exists r :: r in rows && r.id == ref.id
    ensures Matches(RowAt(rows, ref.id), s, ref)
  {
    assert Stored(rows, s, ref);
    var r :| r in rows && Matches(r, s, ref);
    UniqueId(rows, r, RowAt(rows, ref.id));
  }

  /** The rows a list of sources stands for, in its order. */
  ghost function SourceRows(rows: seq<Row>, s: int, refs: seq<Ref>): (out: seq<Row>)
    requires Indexed(rows) && PresentRefs(rows, s, refs)
    ensures |out| == |refs|
    ensures forall i | 0 <= i < |refs| :: out[i] in rows && Matches(out[i], s, refs[i])
  {
    if refs == [] then []
    else
      var n := |refs| - 1;
      PresentRow(rows, s, refs, refs[n]);
      SourceRows(rows, s, refs[..n]) + [RowAt(rows, refs[n].id)]
  }

  ghost function GroupRows(rows: seq<Row>, g: Group): (out: seq<Row>)
    requires Indexed(rows) && Present(rows, g)
    ensures |out| == |g.sources|
    ensures forall i | 0 <= i < |out| :: out[i] in rows && Matches(out[i], g.series, g.sources[i])
  {
    SourceRows(rows, g.series, g.sources)
  }

  ghost predicate AllPresent(rows: seq<Row>, groups: seq<Group>) {
    forall g | g in groups :: Present(rows, g)
  }

  ghost function AllRows(rows: seq<Row>, groups: seq<Group>): (out: seq<Row>)
    requires Indexed(rows) && AllPresent(rows, groups)
    ensures forall r | r in out :: r in rows
  {
    if groups == [] then []
    else AllRows(rows, groups[..|groups| - 1]) + GroupRows(rows, groups[|groups| - 1])
  }

  function SourceIds(groups: seq<Group>): set<nat> {
    set r | r in SourcesOf(groups) :: r.id
  }

  // --------------------------------------------- each source in one group

  function IdCount(refs: seq<Ref>, id: nat): int {
    Sum(refs, (r: Ref) => if r.id == id then 1 else 0)
  }

  function Occurs(g: Group, s: int, id: nat): int {
    if g.series == s then IdCount(g.sources, id) else 0
  }

  /** How many times the queue names row `id` of series `s`. */
  function KeyCount(groups: seq<Group>, s: int, id: nat): int {
    Sum(groups, (g: Group) => Occurs(g, s, id))
  }

  ghost predicate OnceEach(groups: seq<Group>) {
    forall s, id :: KeyCount(groups, s, id) <= 1
  }

  lemma IdCountNonNegative(refs: seq<Ref>, id: nat)
    ensures IdCount(refs, id) >= 0
  {
    SumNonNegative(refs, (r: Ref) => if r.id == id then 1 else 0);
  }

  lemma KeyCountNonNegative(groups: seq<Group>, s: int, id: nat)
    ensures KeyCount(groups, s, id) >= 0
  {
    forall g | g in groups ensures Occurs(g, s, id) >= 0 {
      IdCountNonNegative(g.sources, id);
    }
    SumNonNegative(groups, (g: Group) => Occurs(g, s, id));
  }

  lemma KeyCountConcat(a: seq<Group>, b: seq<Group>, s: int, id: nat)
    ensures KeyCount(a + b, s, id) == KeyCount(a, s, id) + KeyCount(b, s, id)
  {
    SumConcat(a, b, (g: Group) => Occurs(g, s, id));
  }

  lemma KeyCountMember(groups: seq<Group>, g: Group, ref: Ref)
    requires g in groups && ref in g.sources
    ensures KeyCount(groups, g.series, ref.id) >= 1
  {
    forall h | h in groups ensures Occurs(h, g.series, ref.id) >= 0 {
      IdCountNonNegative(h.sources, ref.id);
    }
    SumMember(groups, (h: Group) => Occurs(h, g.series, ref.id), g);
    SumMember(g.sources, (r: Ref) => if r.id == ref.id then 1 else 0, ref);
  }

  lemma OnceEachPart(a: seq<Group>, b: seq<Group>)
    requires OnceEach(a + b)
    ensures OnceEach(a) && OnceEach(b)
  {
    forall s, id ensures KeyCount(a, s, id) <= 1 && KeyCount(b, s, id) <= 1 {
      KeyCountConcat(a, b, s, id);
      KeyCountNonNegative(a, s, id);
      KeyCountNonNegative(b, s, id);
      assert KeyCount(a + b, s, id) <= 1;
    }
  }

  /** Two stretches of a queue that names each source once share none. */
  lemma OnceEachApart(a: seq<Group>, b: seq<Group>, g: Group, h: Group, x: Ref, y: Ref)
    requires OnceEach(a + b) && g in a && h in b && g.series == h.series
    requires x in g.sources && y in h.sources
    ensures x.id != y.id
  {
    KeyCountMember(a, g, x);
    KeyCountConcat(a, b, g.series, x.id);
    assert KeyCount(a + b, g.series, x.id) <= 1;
    KeyCountMember(b, h, y);
  }

  lemma IdCountLast(refs: seq<Ref>, id: nat)
    requires refs != []
    ensures IdCount(refs, id) ==
            IdCount(refs[..|refs| - 1], id) + if refs[|refs| - 1].id == id then 1 else 0
  {
  }

  lemma {:induction false} SourceRowsCount(rows: seq<Row>, s: int, refs: seq<Ref>, x: Row)
    requires Indexed(rows) && PresentRefs(rows, s, refs)
    ensures multiset(SourceRows(rows, s, refs))[x] <= if x.series == s then IdCount(refs, x.id) else 0
  {
    if refs != [] {
      var n := |refs| - 1;
      SourceRowsCount(rows, s, refs[..n], x);
      PresentRow(rows, s, refs, refs[n]);
      IdCountLast(refs, x.id);
      var last := RowAt(rows, refs[n].id);
      assert SourceRows(rows, s, refs) == SourceRows(rows, s, refs[..n]) + [last];
    }
  }

  lemma {:induction false} AllRowsCount(rows: seq<Row>, groups: seq<Group>, x: Row)
    requires Indexed(rows) && AllPresent(rows, groups)
    ensures multiset(AllRows(rows, groups))[x] <= KeyCount(groups, x.series, x.id)
  {
    if groups != [] {
      var t, g := groups[..|groups| - 1], groups[|groups| - 1];
      AllRowsCount(rows, t, x);
      assert Present(rows, g);
      SourceRowsCount(rows, g.series, g.sources, x);
      assert AllRows(rows, groups) == AllRows(rows, t) + GroupRows(rows, g);
      assert KeyCount(groups, x.series, x.id) == KeyCount(t, x.series, x.id) + Occurs(g, x.series, x.id);
    }
  }

  /** The rows of present groups that name each source once are distinct, and
      their ids are the groups' ids. */
  lemma AllRowsDistinct(rows: seq<Row>, groups: seq<Group>)
    requires Indexed(rows) && AllPresent(rows, groups) && OnceEach(groups)
    ensures Distinct(AllRows(rows, groups))
  {
    var out := AllRows(rows, groups);
    DistinctCount(out);
    forall x: Row ensures multiset(out)[x] <= 1 {
      AllRowsCount(rows, groups, x);
      assert KeyCount(groups, x.series, x.id) <= 1;
    }
  }

  function RefIds(refs: seq<Ref>): set<nat> {
    set r | r in refs :: r.id
  }

  lemma GroupRowsIds(rows: seq<Row>, g: Group)
    requires Indexed(rows) && Present(rows, g)
    ensures IdSet(GroupRows(rows, g)) == RefIds(g.sources)
  {
    var part := GroupRows(rows, g);
    forall id | id in IdSet(part) ensures id in RefIds(g.sources) {
      var r :| r in part && r.id == id;
      var i :| 0 <= i < |part| && part[i] == r;
      assert g.sources[i] in g.sources;
    }
    forall id | id in RefIds(g.sources) ensures id in IdSet(part) {
      var ref :| ref in g.sources && ref.id == id;
      var i :| 0 <= i < |g.sources| && g.sources[i] == ref;
      assert part[i] in part;
    }
  }

  lemma {:induction false} AllRowsIds(rows: seq<Row>, groups: seq<Group>)
    requires Indexed(rows) && AllPresent(rows, groups)
    ensures IdSet(AllRows(rows, groups)) == SourceIds(groups)
  {
    if groups != [] {
      var t, g := groups[..|groups| - 1], groups[|groups| - 1];
      AllRowsIds(rows, t);
      GroupRowsIds(rows, g);
      assert SourceIds(groups) == SourceIds(t) + RefIds(g.sources);
      assert AllRows(rows, groups) == AllRows(rows, t) + GroupRows(rows, g);
      assert IdSet(AllRows(rows, groups)) == IdSet(AllRows(rows, t)) + IdSet(GroupRows(rows, g));
    }
  }

  // ------------------------------------------------------------- rewriting

  /** A compressed row of `series` holding exactly `points`. */
  ghost predicate Encodes(r: Row, series: int, points: seq<Sample>) {
    && r.series == series && r.enc.Pco? && r.points == points
    && WellFormed(r) && ExactMeta(r.meta, points)
  }

  /** `part` holds the pieces of `pts`, in order. */
  ghost predicate EncodesCut(part: seq<Row>, series: int, pts: seq<Sample>) {
    && |part| == |Cut(pts, TARGET_POINTS)|
    && forall i | 0 <= i < |part| :: Encodes(part[i], series, Cut(pts, TARGET_POINTS)[i])
  }

  lemma EncodesCutNext(part: seq<Row>, series: int, pts: seq<Sample>)
    requires EncodesCut(part, series, pts)
    ensures pts == [] ==> part == []
    ensures 0 < |pts| <= TARGET_POINTS ==> |part| == 1 && Encodes(part[0], series, pts)
    ensures |pts| > TARGET_POINTS ==>
              && part != [] && Encodes(part[0], series, pts[..TARGET_POINTS])
              && EncodesCut(part[1..], series, pts[TARGET_POINTS..])
  {
    if pts != [] {
      CutNext(pts, TARGET_POINTS);
      assert Encodes(part[0], series, Cut(pts, TARGET_POINTS)[0]);
      if |pts| > TARGET_POINTS {
        hide Cut, Encodes;
        forall i | 0 <= i < |part[1..]|
          ensures Encodes(part[1..][i], series, Cut(pts[TARGET_POINTS..], TARGET_POINTS)[i])
        {
          assert Encodes(part[i + 1], series, Cut(pts, TARGET_POINTS)[i + 1]);
        }
      }
    }
  }

  function PointsOf(rows: seq<Row>): seq<Sample> {
    if rows == [] then [] else PointsOf(rows[..|rows| - 1]) + rows[|rows| - 1].points
  }

  /** `part` is what rewriting the samples of `from` gives: all of them, in
      timestamp order, cut at the target. */
  ghost predicate Rewrites(from: seq<Row>, series: int, part: seq<Row>) {
    exists pts: seq<Sample> ::
      SortedTs(pts) && multiset(pts) == multiset(PointsOf(from)) && EncodesCut(part, series, pts)
  }

  /** `parts` are the rewritings of the groups of `done`, one each. */
  ghost predicate RewritesEach(rows: seq<Row>, done: seq<Group>, parts: seq<seq<Row>>)
    requires Indexed(rows) && AllPresent(rows, done)
  {
    && |parts| == |done|
    && forall i | 0 <= i < |done| :: RewritesAt(rows, done, parts, i)
  }

  ghost predicate RewritesAt(rows: seq<Row>, done: seq<Group>, parts: seq<seq<Row>>, i: nat)
    requires Indexed(rows) && AllPresent(rows, done) && i < |parts| == |done|
  {
    assert done[i] in done;
    Rewrites(GroupRows(rows, done[i]), done[i].series, parts[i])
  }

  lemma RewritesEachLast(rows: seq<Row>, done: seq<Group>, parts: seq<seq<Row>>)
    requires Indexed(rows) && AllPresent(rows, done) && RewritesEach(rows, done, parts) && done != []
    ensures var n := |done| - 1;
            && AllPresent(rows, done[..n]) && Present(rows, done[n])
            && RewritesEach(rows, done[..n], parts[..n])
            && Rewrites(GroupRows(rows, done[n]), done[n].series, parts[n])
  {
    hide Rewrites, GroupRows;
    var n := |done| - 1;
    assert done[n] in done;
    assert RewritesAt(rows, done, parts, n);
    forall i | 0 <= i < n ensures RewritesAt(rows, done[..n], parts[..n], i) {
      assert RewritesAt(rows, done, parts, i);
    }
  }

  lemma RewritesEachNext(rows: seq<Row>, done: seq<Group>, parts: seq<seq<Row>>, g: Group, part: seq<Row>)
    requires Indexed(rows) && AllPresent(rows, done) && RewritesEach(rows, done, parts)
    requires Present(rows, g) && Rewrites(GroupRows(rows, g), g.series, part)
    ensures AllPresent(rows, done + [g]) && RewritesEach(rows, done + [g], parts + [part])
  {
    hide Rewrites, GroupRows;
    forall i | 0 <= i < |done + [g]| ensures RewritesAt(rows, done + [g], parts + [part], i) {
      if i < |done| {
        assert RewritesAt(rows, done, parts, i);
      }
    }
  }

  ghost predicate Consecutive(rows: seq<Row>, first: nat) {
    forall i | 0 <= i < |rows| :: rows[i].id == first + i
  }

  /** New rows have ids one after another above every id there is. Rollup chunks
      are in the same table, so the first need not be next to the last. */
  ghost predicate NewIds(rows: seq<Row>, added: seq<Row>) {
    exists first: nat :: first >= NextId(rows) && Consecutive(added, first)
  }

  /** The swap of one step: each group's rewriting added under new ids, then
      every source row removed. */
  ghost predicate Swapped(rows: seq<Row>, done: seq<Group>, parts: seq<seq<Row>>, rows': seq<Row>)
    requires Indexed(rows) && AllPresent(rows, done)
  {
    && RewritesEach(rows, done, parts)
    && NewIds(rows, Flatten(parts))
    && rows' == Without(rows + Flatten(parts), SourceIds(done))
  }

  lemma SwappedRows(rows: seq<Row>, done: seq<Group>, parts: seq<seq<Row>>, rows': seq<Row>)
    requires Indexed(rows) && AllPresent(rows, done) && Swapped(rows, done, parts, rows')
    ensures rows' == Without(rows, SourceIds(done)) + Flatten(parts)
  {
    var ids := SourceIds(done);
    var p := (r: Row) => r.id !in ids;
    FilterConcat(rows, Flatten(parts), p);
    AllRowsIds(rows, done);
    forall id | id in ids ensures id < NextId(rows) {
      var x :| x in AllRows(rows, done) && x.id == id;
      assert x in rows;
    }
    forall r | r in Flatten(parts) ensures p(r) {
      var i :| 0 <= i < |Flatten(parts)| && Flatten(parts)[i] == r;
    }
    FilterAll(Flatten(parts), p);
  }

  lemma RewritesWellFormed(from: seq<Row>, series: int, part: seq<Row>, r: Row)
    requires Rewrites(from, series, part) && r in part
    ensures WellFormed(r) && ExactMeta(r.meta, r.points)
    ensures r.series == series && r.enc.Pco? && |r.points| <= TARGET_POINTS
  {
    var pts: seq<Sample> :|
      SortedTs(pts) && multiset(pts) == multiset(PointsOf(from)) && EncodesCut(part, series, pts);
    var i :| 0 <= i < |part| && part[i] == r;
    assert Encodes(part[i], series, Cut(pts, TARGET_POINTS)[i]);
    CutFlatten(pts, TARGET_POINTS);
    assert Cut(pts, TARGET_POINTS)[i] in Cut(pts, TARGET_POINTS);
  }

  lemma {:induction false} EncodedPoints(part: seq<Row>, series: int, pieces: seq<seq<Sample>>)
    requires |part| == |pieces|
    requires forall i | 0 <= i < |part| :: Encodes(part[i], series, pieces[i])
    ensures PointsOf(part) == Flatten(pieces)
    decreases |part|
  {
    if part != [] {
      var n := |part| - 1;
      assert Encodes(part[n], series, pieces[n]);
      assert part[n].points == pieces[n];
      hide Encodes, Flatten;
      EncodedPoints(part[..n], series, pieces[..n]);
      FlattenLast(pieces);
    } else {
      assert pieces == [];
    }
  }

  /** A rewriting holds the samples it was made from, each as often. */
  lemma RewritesConserve(from: seq<Row>, series: int, part: seq<Row>)
    requires Rewrites(from, series, part)
    ensures multiset(PointsOf(part)) == multiset(PointsOf(from))
  {
    var pts: seq<Sample> :|
      SortedTs(pts) && multiset(pts) == multiset(PointsOf(from)) && EncodesCut(part, series, pts);
    CutFlatten(pts, TARGET_POINTS);
    EncodedPoints(part, series, Cut(pts, TARGET_POINTS));
  }

  lemma {:induction false} ContentsPoints(rows: seq<Row>, s: int, series: int)
    requires forall r | r in rows :: r.series == series
    ensures Contents(rows, s) == if s == series then multiset(PointsOf(rows)) else multiset{}
  {
    if rows != [] {
      ContentsPoints(rows[..|rows| - 1], s, series);
    }
  }

  lemma {:induction false} SwapContents(rows: seq<Row>, done: seq<Group>, parts: seq<seq<Row>>, s: int)
    requires Indexed(rows) && AllPresent(rows, done) && RewritesEach(rows, done, parts)
    ensures Contents(AllRows(rows, done), s) == Contents(Flatten(parts), s)
    decreases |done|
  {
    if done != [] {
      hide AllRows, GroupRows, Contents, Flatten, RewritesEach, Rewrites;
      var n := |done| - 1;
      AllRowsLast(rows, done);
      FlattenLast(parts);
      RewritesEachLast(rows, done, parts);
      SwapContents(rows, done[..n], parts[..n], s);
      ContentsConcat(AllRows(rows, done[..n]), GroupRows(rows, done[n]), s);
      ContentsConcat(Flatten(parts[..n]), parts[n], s);
      GroupContents(rows, done[n], parts[n], s);
    }
  }

  lemma GroupContents(rows: seq<Row>, g: Group, part: seq<Row>, s: int)
    requires Indexed(rows) && Present(rows, g) && Rewrites(GroupRows(rows, g), g.series, part)
    ensures Contents(GroupRows(rows, g), s) == Contents(part, s)
  {
    RewritesConserve(GroupRows(rows, g), g.series, part);
    forall r | r in part ensures r.series == g.series {
      RewritesWellFormed(GroupRows(rows, g), g.series, part, r);
    }
    ContentsPoints(GroupRows(rows, g), s, g.series);
    ContentsPoints(part, s, g.series);
  }

  lemma PartMember(parts: seq<seq<Row>>, rows: seq<Row>, done: seq<Group>, r: Row)
    requires Indexed(rows) && AllPresent(rows, done) && RewritesEach(rows, done, parts)
    requires r in Flatten(parts)
    ensures WellFormed(r) && ExactMeta(r.meta, r.points) && r.enc.Pco? && |r.points| <= TARGET_POINTS
    ensures exists g :: g in done && g.series == r.series
  {
    FlattenMember(parts, r);
    var i :| 0 <= i < |parts| && r in parts[i];
    assert RewritesAt(rows, done, parts, i);
    assert done[i] in done;
    RewritesWellFormed(GroupRows(rows, done[i]), done[i].series, parts[i], r);
  }

  /** Compaction conserves data. A step leaves a valid table in which every
      series holds the same multiset of samples; every row it adds holds at
      most the target with exact metadata; and every range read of every series
      returns the same sorted multiset as before. */
  lemma SwapConserves(rows: seq<Row>, done: seq<Group>, parts: seq<seq<Row>>, rows': seq<Row>)
    requires ValidTable(rows) && AllPresent(rows, done) && OnceEach(done)
    requires Swapped(rows, done, parts, rows')
    ensures ValidTable(rows')
    ensures forall s :: Contents(rows', s) == Contents(rows, s)
    ensures forall r | r in rows' && r !in rows ::
              r.enc.Pco? && |r.points| <= TARGET_POINTS && ExactMeta(r.meta, r.points)
    ensures forall s, lo, hi ::
              && SortedTs(RangeQuery(rows', s, lo, hi))
              && multiset(RangeQuery(rows', s, lo, hi)) == multiset(RangeQuery(rows, s, lo, hi))
  {
    SwappedRows(rows, done, parts, rows');
    var kept := Without(rows, SourceIds(done));
    ValidWithout(rows, SourceIds(done));
    AllRowsIds(rows, done);
    AllRowsDistinct(rows, done);
    TakeOut(rows, AllRows(rows, done));
    assert ValidTable(rows') by {
      forall r | r in rows' ensures WellFormed(r) {
        if r in Flatten(parts) {
          PartMember(parts, rows, done, r);
        }
      }
      forall r | r in kept ensures r.id < NextId(rows) {
        WithoutMember(rows, SourceIds(done), r);
      }
    }
    forall r | r in rows' && r !in rows
      ensures r.enc.Pco? && |r.points| <= TARGET_POINTS && ExactMeta(r.meta, r.points)
    {
      WithoutMember(rows, SourceIds(done), r);
      PartMember(parts, rows, done, r);
    }
    forall s ensures Contents(rows', s) == Contents(rows, s) {
      ContentsPermutation(rows, kept + AllRows(rows, done), s);
      ContentsConcat(kept, AllRows(rows, done), s);
      ContentsConcat(kept, Flatten(parts), s);
      SwapContents(rows, done, parts, s);
    }
    forall s, lo, hi
      ensures SortedTs(RangeQuery(rows', s, lo, hi))
      ensures multiset(RangeQuery(rows', s, lo, hi)) == multiset(RangeQuery(rows, s, lo, hi))
    {
      SameContentsSameReads(rows', rows, s, lo, hi);
    }
  }

  /** How a per-row total moves over a swap. */
  lemma SwapTotals(rows: seq<Row>, done: seq<Group>, parts: seq<seq<Row>>, rows': seq<Row>, f: Row -> int)
    requires Indexed(rows) && AllPresent(rows, done) && OnceEach(done)
    requires Swapped(rows, done, parts, rows')
    ensures Sum(rows', f) == Sum(rows, f) - Sum(AllRows(rows, done), f) + Sum(Flatten(parts), f)
  {
    SwappedRows(rows, done, parts, rows');
    var kept := Without(rows, SourceIds(done));
    AllRowsIds(rows, done);
    AllRowsDistinct(rows, done);
    TakeOut(rows, AllRows(rows, done));
    SumPermutation(rows, kept + AllRows(rows, done), f);
    SumConcat(kept, AllRows(rows, done), f);
    SumConcat(kept, Flatten(parts), f);
  }

  lemma AllRowsLast(rows: seq<Row>, done: seq<Group>)
    requires Indexed(rows) && AllPresent(rows, done) && done != []
    ensures var n := |done| - 1;
            && AllPresent(rows, done[..n]) && Present(rows, done[n])
            && AllRows(rows, done) == AllRows(rows, done[..n]) + GroupRows(rows, done[n])
  {
    assert done[|done| - 1] in done;
  }

  lemma FlattenLast<T>(parts: seq<seq<T>>)
    requires parts != []
    ensures Flatten(parts) == Flatten(parts[..|parts| - 1]) + parts[|parts| - 1]
  {
    var n := |parts| - 1;
    assert parts == parts[..n] + [parts[n]];
    FlattenConcat(parts[..n], [parts[n]]);
    FlattenOne(parts[n]);
  }

  /** Per-row totals of a step's rows, one group more. */
  lemma LastGroupTotals(rows: seq<Row>, done: seq<Group>, parts: seq<seq<Row>>, f: Row -> int)
    requires Indexed(rows) && AllPresent(rows, done) && |parts| == |done| > 0
    ensures var n := |done| - 1;
            && AllPresent(rows, done[..n]) && Present(rows, done[n])
            && Sum(AllRows(rows, done), f) == Sum(AllRows(rows, done[..n]), f) + Sum(GroupRows(rows, done[n]), f)
            && Sum(Flatten(parts), f) == Sum(Flatten(parts[..n]), f) + Sum(parts[n], f)
  {
    hide AllRows, GroupRows, Sum, Flatten;
    var n := |done| - 1;
    AllRowsLast(rows, done);
    SumConcat(AllRows(rows, done[..n]), GroupRows(rows, done[n]), f);
    FlattenLast(parts);
    SumConcat(Flatten(parts[..n]), parts[n], f);
  }
}
