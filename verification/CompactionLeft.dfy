/** What compaction leaves of a series once nothing of it is planned, said of the
    rows alone: few raw rows or none, no row over the target, and no stretch of
    small rows, in size order, that could be merged. */
module CompactionLeft {
  import opened Sequences
  import opened ChunkTable
  import opened CompactionPlanner
  import opened CompactionSweep

  // -------------------------------------------------------------- what is left

  predicate Before(r: Row, s: int, cutoff: int) {
    r.series == s && r.meta.maxTs < cutoff
  }

  function RawBefore(rows: seq<Row>, s: int, cutoff: int): seq<Row> {
    Filter(rows, (r: Row) => Before(r, s, cutoff) && r.enc.Raw?)
  }

  function SmallBefore(rows: seq<Row>, s: int, cutoff: int): seq<Row> {
    Filter(rows, (r: Row) => Before(r, s, cutoff) && r.enc.Pco? && |r.points| < 2048)
  }

  function Size(r: Row): int {
    |r.points|
  }

  function Held(rows: seq<Row>): int {
    Sum(rows, Size)
  }

  ghost predicate BySize(rows: seq<Row>) {
    forall i, j | 0 <= i < j < |rows| :: |rows[i].points| <= |rows[j].points|
  }

  /** Rows `i` to `j` are many enough, or two or more that fill half a chunk;
      they fit one with a quarter's grace; and each is no larger than those
      before it together. */
  ghost predicate WouldMerge(rows: seq<Row>, i: nat, j: nat, atLeast: nat) {
    && i < j <= |rows|
    && (j - i >= atLeast || (j - i >= 2 && Held(rows[i..j]) >= 1024))
    && Held(rows[i..j]) <= 2560
    && forall k | i < k < j :: |rows[k].points| <= Held(rows[i..k])
  }

  /** However equal sizes are ordered, no stretch of the smaller compressed rows
      would merge. */
  ghost predicate NoneToMerge(rows: seq<Row>, s: int, cutoff: int, atLeast: nat) {
    forall small: seq<Row>, i: nat, j: nat | InSizeOrder(small, SmallBefore(rows, s, cutoff)) ::
      !WouldMerge(small, i, j, atLeast)
  }

  ghost predicate InSizeOrder(small: seq<Row>, all: seq<Row>) {
    multiset(small) == multiset(all) && BySize(small)
  }

  /** The series has nothing left to compact before the cutoff: no raw row, or
      few of a series still written; no compressed row over the target; and of
      the smaller ones none to merge. */
  ghost predicate Compacted(rows: seq<Row>, s: int, written: bool, cutoff: int, rawMin: nat) {
    && (var raw := RawBefore(rows, s, cutoff);
        raw == [] || (written && |raw| < rawMin && Held(raw) < 1024))
    && (forall r | r in rows && Before(r, s, cutoff) && r.enc.Pco? :: |r.points| <= 2048)
    && NoneToMerge(rows, s, cutoff, if written then 4 else 2)
  }

  // ------------------------------------------------------ stretches and merge runs

  /** Each member is no larger than those before it together. */
  ghost predicate Chained(refs: seq<Ref>, i: nat, j: nat)
    requires i <= j <= |refs|
  {
    forall k | i < k < j :: refs[k].count <= Points(refs[i..k])
  }

  ghost predicate Stretch(refs: seq<Ref>, i: nat, j: nat, atLeast: nat) {
    && i < j <= |refs|
    && (j - i >= atLeast || (j - i >= 2 && Points(refs[i..j]) >= 1024))
    && Points(refs[i..j]) <= 2560
    && Chained(refs, i, j)
  }

  lemma PointsWithin(refs: seq<Ref>, i: nat, j: nat)
    requires i <= j <= |refs|
    ensures 0 <= Points(refs[i..j]) <= Points(refs)
  {
    hide Sum;
    assert refs == (refs[..i] + refs[i..j]) + refs[j..];
    SumConcat(refs[..i] + refs[i..j], refs[j..], CountOf);
    SumConcat(refs[..i], refs[i..j], CountOf);
    SumNonNegative(refs[..i], CountOf);
    SumNonNegative(refs[i..j], CountOf);
    SumNonNegative(refs[j..], CountOf);
  }

  /** What `MergeRunsHalf` takes a run being built to be. */
  ghost predicate Building(current: seq<Ref>) {
    && (|current| >= 2 ==> Points(current) >= 2 * Largest(current))
    && (|current| == 1 ==> Points(current) == Largest(current))
  }

  lemma BuildingNext(current: seq<Ref>, rest: seq<Ref>)
    requires Ascending(current + rest, MergeLe) && rest != [] && Building(current)
    requires current == [] || rest[0].count <= Points(current)
    ensures Building(current + [rest[0]])
  {
    var x := rest[0];
    SumOne(x, CountOf);
    SumConcat(current, [x], CountOf);
    assert [x][..0] == [];
    if current != [] {
      NextIsLargest(current, rest);
    } else {
      assert current + [x] == [x];
    }
  }

  lemma WithinIsWorth(current: seq<Ref>, i: nat, j: nat, atLeast: nat)
    requires Building(current) && atLeast >= 2 && Stretch(current, i, j, atLeast)
    ensures WorthMerging(current, atLeast)
  {
    PointsWithin(current, i, j);
  }

  /** Where a run is closed inside a stretch that began with it or in it, the
      limit closed it, and it is worth merging itself. */
  lemma ClosedInStretch(current: seq<Ref>, rest: seq<Ref>, i: nat, j: nat, atLeast: nat)
    requires Building(current) && rest != [] && Ascending(current + rest, MergeLe)
    requires i < |current| < j && Stretch(current + rest, i, j, atLeast)
    requires rest[0].count > Points(current) || Points(current) + rest[0].count > MERGE_LIMIT
    ensures WorthMerging(current, atLeast)
  {
    hide Sum;
    var all, m, x := current + rest, |current|, rest[0];
    assert all[m] == x && all[i..m] == current[i..];
    PointsWithin(current, i, m);
    assert current[i..m] == current[i..];
    assert x.count <= Points(all[i..m]) <= Points(current);
    if m == 1 {
      assert current == [current[0]];
      assert all[i..j][..2] == [current[0], x] == [current[0]] + [x];
      PointsWithin(all[i..j], 0, 2);
      SumConcat([current[0]], [x], CountOf);
      SumOne(x, CountOf);
    }
  }

  lemma StretchShifts(current: seq<Ref>, rest: seq<Ref>, i: nat, j: nat, atLeast: nat)
    requires |current| <= i && Stretch(current + rest, i, j, atLeast)
    ensures Stretch(rest, i - |current|, j - |current|, atLeast)
  {
    hide Sum;
    var all, m := current + rest, |current|;
    assert all[i..j] == rest[i - m..j - m];
    forall k | i - m < k < j - m ensures rest[k].count <= Points(rest[i - m..k]) {
      assert all[i..k + m] == rest[i - m..k];
      assert all[k + m].count <= Points(all[i..k + m]);
    }
  }

  lemma StretchInFront(current: seq<Ref>, rest: seq<Ref>, i: nat, j: nat, atLeast: nat)
    requires j <= |current| && Stretch(current + rest, i, j, atLeast)
    ensures Stretch(current, i, j, atLeast)
  {
    hide Sum;
    var all := current + rest;
    assert all[i..j] == current[i..j];
    forall k | i < k < j ensures current[k].count <= Points(current[i..k]) {
      assert all[i..k] == current[i..k];
      assert all[k].count <= Points(all[i..k]);
    }
  }

  /** Whatever stretch could be merged, some run of the planner is. */
  lemma {:induction false} StretchIsPlanned(rest: seq<Ref>, current: seq<Ref>, i: nat, j: nat, atLeast: nat)
    returns (run: seq<Ref>)
    requires Ascending(current + rest, MergeLe) && Building(current) && atLeast >= 2
    requires Stretch(current + rest, i, j, atLeast)
    ensures run in MergeRuns(rest, current) && WorthMerging(run, atLeast)
    decreases |rest|
  {
    hide Sum, Stretch, WorthMerging, Building, Ascending, Largest;
    if rest == [] {
      assert current + rest == current;
      WithinIsWorth(current, i, j, atLeast);
      run := current;
    } else {
      var x, later := rest[0], rest[1..];
      assert [x] + later == rest;
      if current != [] && (x.count > Points(current) || Points(current) + x.count > MERGE_LIMIT) {
        StretchLength(current + rest, i, j, atLeast);
        AscendingTail(current, rest);
        if |current| <= i {
          StretchShifts(current, rest, i, j, atLeast);
          BuildingOne(x);
          run := StretchIsPlanned(later, [x], i - |current|, j - |current|, atLeast);
        } else if j <= |current| {
          StretchInFront(current, rest, i, j, atLeast);
          WithinIsWorth(current, i, j, atLeast);
          run := current;
        } else {
          ClosedInStretch(current, rest, i, j, atLeast);
          run := current;
        }
      } else {
        BuildingNext(current, rest);
        assert (current + [x]) + later == current + rest;
        run := StretchIsPlanned(later, current + [x], i, j, atLeast);
      }
    }
  }

  lemma StretchLength(refs: seq<Ref>, i: nat, j: nat, atLeast: nat)
    requires Stretch(refs, i, j, atLeast)
    ensures i < j <= |refs|
  {
  }

  lemma BuildingOne(x: Ref)
    ensures Building([x])
  {
    SumOne(x, CountOf);
    assert [x][..0] == [];
  }

  /** And the other way round: every run is such a stretch. */
  lemma {:induction false} RunIsStretch(rest: seq<Ref>, current: seq<Ref>, run: seq<Ref>) returns (i: nat, j: nat)
    requires Chained(current, 0, |current|) && run in MergeRuns(rest, current)
    ensures i <= j <= |current + rest| && run == (current + rest)[i..j] && Chained(run, 0, |run|)
    decreases |rest|
  {
    hide Sum, Chained;
    var all := current + rest;
    if rest == [] {
      i, j := 0, |current|;
      assert all[i..j] == current;
    } else {
      var x, later := rest[0], rest[1..];
      if current != [] && (x.count > Points(current) || Points(current) + x.count > MERGE_LIMIT) {
        if run == current {
          i, j := 0, |current|;
          assert all[i..j] == current;
        } else {
          ChainedOne(x);
          assert [x] + later == rest;
          i, j := RunIsStretch(later, [x], run);
          assert all[|current| + i..|current| + j] == rest[i..j];
          i, j := i + |current|, j + |current|;
        }
      } else {
        ChainedNext(current, x);
        assert (current + [x]) + later == all;
        i, j := RunIsStretch(later, current + [x], run);
      }
    }
  }

  lemma ChainedOne(x: Ref)
    ensures Chained([x], 0, 1)
  {
  }

  lemma ChainedNext(current: seq<Ref>, x: Ref)
    requires Chained(current, 0, |current|) && (current == [] || x.count <= Points(current))
    ensures Chained(current + [x], 0, |current| + 1)
  {
    hide Sum;
    var next := current + [x];
    forall k | 0 < k < |next| ensures next[k].count <= Points(next[0..k]) {
      if k < |current| {
        assert next[0..k] == current[0..k];
      } else {
        assert next[0..k] == current;
      }
    }
  }

  ghost predicate SomeStretch(refs: seq<Ref>, atLeast: nat) {
    exists i: nat, j: nat :: Stretch(refs, i, j, atLeast)
  }

  /** The planner merges something if and only if there is such a stretch. */
  lemma MergesIffStretch(s: int, chunks: seq<Ref>, atLeast: nat)
    requires atLeast >= 2
    ensures MergeGroups(s, chunks, atLeast) == [] <==> !SomeStretch(SortBy(chunks, MergeLe), atLeast)
  {
    hide SortBy, Stretch, WorthMerging, Sum, MergeRuns, Largest, Ascending;
    var sorted := SortBy(chunks, MergeLe);
    var runs := MergeRuns(sorted, []);
    var worth := (run: seq<Ref>) => WorthMerging(run, atLeast);
    assert [] + sorted == sorted;
    WrapEmpty(s, Filter(runs, worth), CompressedMerge);
    if i: nat, j: nat :| Stretch(sorted, i, j, atLeast) {
      MergeLeTotal();
      SortByAscending(chunks, MergeLe);
      BuildingNone();
      var run := StretchIsPlanned(sorted, [], i, j, atLeast);
      FilterMember(runs, worth, run);
    }
    if Filter(runs, worth) != [] {
      var run := Filter(runs, worth)[0];
      FilterMember(runs, worth, run);
      MergeRunsFit(sorted, run);
      ChainedNone();
      var i, j := RunIsStretch(sorted, [], run);
      WorthIsStretch(sorted, i, j, run, atLeast);
    }
  }

  lemma BuildingNone()
    ensures Building([])
  {
  }

  lemma ChainedNone()
    ensures Chained([], 0, 0)
  {
  }

  lemma MergeRunsFit(sorted: seq<Ref>, run: seq<Ref>)
    requires run in MergeRuns(sorted, [])
    ensures |run| <= 1 || Points(run) <= 2560
  {
    MergeRunsBound(sorted, []);
  }

  lemma WorthIsStretch(sorted: seq<Ref>, i: nat, j: nat, run: seq<Ref>, atLeast: nat)
    requires i <= j <= |sorted| && run == sorted[i..j] && Chained(run, 0, |run|) && WorthMerging(run, atLeast)
    requires |run| <= 1 || Points(run) <= 2560
    ensures Stretch(sorted, i, j, atLeast)
  {
    hide Sum;
    forall k | i < k < j ensures sorted[k].count <= Points(sorted[i..k]) {
      assert run[k - i] == sorted[k] && run[0..k - i] == sorted[i..k];
      assert run[k - i].count <= Points(run[0..k - i]);
    }
  }

  // ------------------------------------------------------- rows and their refs

  function Sizes<T>(s: seq<T>, f: T -> int): (c: seq<int>)
    ensures |c| == |s|
  {
    if s == [] then [] else Sizes(s[..|s| - 1], f) + [f(s[|s| - 1])]
  }

  lemma {:induction false} SizesAt<T>(s: seq<T>, f: T -> int)
    ensures forall i | 0 <= i < |s| :: Sizes(s, f)[i] == f(s[i])
  {
    if s != [] {
      SizesAt(s[..|s| - 1], f);
    }
  }

  lemma {:induction false} SizesCount<T>(s: seq<T>, f: T -> int, n: int)
    ensures multiset(Sizes(s, f))[n] == Sum(s, (x: T) => if f(x) == n then 1 else 0)
  {
    if s != [] {
      SizesCount(s[..|s| - 1], f, n);
    }
  }

  lemma SizesPermutation<T>(a: seq<T>, b: seq<T>, f: T -> int)
    requires multiset(a) == multiset(b)
    ensures multiset(Sizes(a, f)) == multiset(Sizes(b, f))
  {
    hide Sizes, Sum;
    forall n: int ensures multiset(Sizes(a, f))[n] == multiset(Sizes(b, f))[n] {
      SizesCount(a, f, n);
      SizesCount(b, f, n);
      SumPermutation(a, b, (x: T) => if f(x) == n then 1 else 0);
    }
  }

  ghost predicate NonFalling(c: seq<int>) {
    forall i, j | 0 <= i < j < |c| :: c[i] <= c[j]
  }

  lemma NoneAbove(c: seq<int>, x: int)
    requires NonFalling(c) && x in c
    ensures x <= c[|c| - 1]
  {
    var i :| 0 <= i < |c| && c[i] == x;
    assert i == |c| - 1 || c[i] <= c[|c| - 1];
  }

  lemma WithoutLast(c: seq<int>)
    requires c != []
    ensures c == c[..|c| - 1] + [c[|c| - 1]]
    ensures multiset(c[..|c| - 1]) == multiset(c) - multiset{c[|c| - 1]}
    ensures NonFalling(c) ==> NonFalling(c[..|c| - 1])
  {
    assert c == c[..|c| - 1] + [c[|c| - 1]];
  }

  lemma SameLast(a: seq<int>, b: seq<int>)
    requires NonFalling(a) && NonFalling(b) && multiset(a) == multiset(b) && a != []
    ensures |b| == |a| && a[|a| - 1] == b[|a| - 1]
  {
    hide NonFalling;
    assert |multiset(a)| == |a| && |multiset(b)| == |b|;
    var n := |a| - 1;
    assert a[n] in multiset(b) && b[n] in multiset(a);
    NoneAbove(b, a[n]);
    NoneAbove(a, b[n]);
  }

  /** There is one way to put sizes in order. */
  lemma {:induction false} OneOrder(a: seq<int>, b: seq<int>)
    requires NonFalling(a) && NonFalling(b) && multiset(a) == multiset(b)
    ensures a == b
    decreases |a|
  {
    hide NonFalling;
    if a == [] {
      assert |multiset(b)| == 0;
    } else {
      SameLast(a, b);
      WithoutLast(a);
      WithoutLast(b);
      OneOrder(a[..|a| - 1], b[..|a| - 1]);
    }
  }

  lemma {:induction false} SameSizesSum<S, T>(a: seq<S>, f: S -> int, b: seq<T>, g: T -> int)
    requires |a| == |b| && forall i | 0 <= i < |a| :: f(a[i]) == g(b[i])
    ensures Sum(a, f) == Sum(b, g)
  {
    if a != [] {
      SameSizesSum(a[..|a| - 1], f, b[..|b| - 1], g);
    }
  }

  /** The refs of rows picked from a series' candidates. */
  lemma {:induction false} FilterRefs(rows: seq<Row>, p: Ref -> bool, q: Row -> bool)
    requires forall r | r in rows :: p(RefOf(r)) == q(r)
    ensures Filter(RefsOf(rows), p) == RefsOf(Filter(rows, q))
  {
    if rows != [] {
      var t, r := rows[..|rows| - 1], rows[|rows| - 1];
      assert rows == t + [r];
      FilterRefs(t, p, q);
      var refs := RefsOf(t);
      assert (refs + [RefOf(r)])[..|refs|] == refs;
      if q(r) {
        var kept := Filter(t, q);
        assert (kept + [r])[..|kept|] == kept;
      } else {
        assert Filter(t, q) + [] == Filter(t, q) && RefsOf(Filter(t, q)) + [] == RefsOf(Filter(t, q));
      }
    }
  }

  lemma FilterPermutation<T(!new)>(a: seq<T>, b: seq<T>, p: T -> bool)
    requires multiset(a) == multiset(b)
    ensures multiset(Filter(a, p)) == multiset(Filter(b, p))
  {
    hide Filter;
    forall x ensures multiset(Filter(a, p))[x] == multiset(Filter(b, p))[x] {
      FilterCount(a, p, x);
      FilterCount(b, p, x);
    }
  }

  /** Of a kind of chunk, what the planner is given is the refs of the rows of
      that kind, in some order. */
  lemma Picked(rows: seq<Row>, s: int, cutoff: int, p: Ref -> bool, q: Row -> bool, all: seq<Row>)
    returns (picked: seq<Row>)
    requires forall r | r in rows :: p(RefOf(r)) == q(r)
    requires all == Filter(rows, (r: Row) => IsCandidate(r, s, cutoff) && q(r))
    ensures Filter(SeriesCandidates(rows, s, cutoff), p) == RefsOf(picked) && multiset(picked) == multiset(all)
  {
    hide SortBy, Filter, RefsOf, IsCandidate;
    var c := (r: Row) => IsCandidate(r, s, cutoff);
    var plain := Filter(rows, c);
    var found := SortBy(plain, MinTsLe);
    SortByMultiset(plain, MinTsLe);
    SortByMembers(plain, MinTsLe);
    forall r | r in found ensures p(RefOf(r)) == q(r) {
      FilterMember(rows, c, r);
    }
    FilterRefs(found, p, q);
    picked := Filter(found, q);
    FilterPermutation(found, plain, q);
    FilterFilter(rows, c, q, (r: Row) => IsCandidate(r, s, cutoff) && q(r));
  }

  lemma RefsSizes(picked: seq<Row>)
    requires forall r | r in picked :: r.meta.count == |r.points|
    ensures |RefsOf(picked)| == |picked| && Points(RefsOf(picked)) == Held(picked)
    ensures forall i | 0 <= i < |picked| :: RefsOf(picked)[i].count == |picked[i].points|
  {
    hide Sum;
    RefsOfShape(picked);
    forall i | 0 <= i < |picked| ensures RefsOf(picked)[i].count == |picked[i].points| {
      assert picked[i] in picked;
    }
    SameSizesSum(RefsOf(picked), CountOf, picked, Size);
  }

  lemma SameMembers<T>(a: seq<T>, b: seq<T>)
    requires multiset(a) == multiset(b)
    ensures |a| == |b| && forall x :: x in a <==> x in b
  {
    assert |multiset(a)| == |a| && |multiset(b)| == |b|;
    forall x ensures x in a <==> x in b {
      assert x in multiset(a) <==> x in multiset(b);
    }
  }

  // ---------------------------------------------------------- the three kinds

  lemma Counted(rows: seq<Row>)
    requires ValidTable(rows)
    ensures forall r | r in rows :: r.meta.count == |r.points|
  {
  }

  lemma RawLeft(rows: seq<Row>, s: int, written: bool, cutoff: int, rawMin: nat)
    requires forall r | r in rows :: r.meta.count == |r.points|
    ensures var raw := RawBefore(rows, s, cutoff);
            RawRuns(RawWorthwhile(SeriesCandidates(rows, s, cutoff), written, rawMin), []) == [] <==>
            raw == [] || (written && |raw| < rawMin && Held(raw) < 1024)
  {
    hide SortBy, Filter, Sum, RawRuns, SeriesCandidates;
    var all := RawBefore(rows, s, cutoff);
    var q := (r: Row) => r.enc.Raw?;
    var c, p := (r: Row) => IsCandidate(r, s, cutoff) && q(r), (r: Row) => Before(r, s, cutoff) && r.enc.Raw?;
    forall r | r in rows ensures c(r) == p(r) {
      assert q(r) == r.enc.Raw?;
    }
    FilterAgree(rows, c, p);
    var picked := Picked(rows, s, cutoff, IsRaw, q, all);
    SameMembers(picked, all);
    forall r | r in picked ensures r.meta.count == |r.points| {
      FilterMember(rows, (r: Row) => Before(r, s, cutoff) && r.enc.Raw?, r);
    }
    RefsSizes(picked);
    SumPermutation(picked, all, Size);
    var chunks := SeriesCandidates(rows, s, cutoff);
    var raw, sorted := Filter(chunks, IsRaw), SortBy(Filter(chunks, IsRaw), RawLe);
    SortByMultiset(raw, RawLe);
    SameMembers(raw, sorted);
    RawRunsNone(RawWorthwhile(chunks, written, rawMin));
  }

  lemma RawRunsNone(refs: seq<Ref>)
    ensures RawRuns(refs, []) == [] <==> refs == []
  {
    RawRunsFlatten(refs, []);
    assert [] + refs == refs;
  }

  lemma OversizedLeft(rows: seq<Row>, s: int, cutoff: int)
    requires forall r | r in rows :: r.meta.count == |r.points|
    ensures Singles(Filter(SeriesCandidates(rows, s, cutoff), IsOversized)) == [] <==>
            forall r | r in rows && Before(r, s, cutoff) && r.enc.Pco? :: |r.points| <= 2048
  {
    hide SortBy, Filter, SeriesCandidates;
    var q := (r: Row) => r.enc.Pco? && |r.points| > 2048;
    var p := (r: Row) => IsCandidate(r, s, cutoff) && q(r);
    var all := Filter(rows, p);
    var picked := Picked(rows, s, cutoff, IsOversized, q, all);
    SameMembers(picked, all);
    RefsOfShape(picked);
    if all != [] {
      FilterMember(rows, p, all[0]);
    }
    if r :| r in rows && Before(r, s, cutoff) && r.enc.Pco? && |r.points| > 2048 {
      FilterMember(rows, p, r);
    }
  }

  /** Of two listings of the same sizes in order, the one has a stretch where the
      other has. */
  lemma SameStretch(small: seq<Row>, refs: seq<Ref>, i: nat, j: nat, atLeast: nat)
    requires |small| == |refs| && forall k | 0 <= k < |small| :: |small[k].points| == refs[k].count
    ensures WouldMerge(small, i, j, atLeast) <==> Stretch(refs, i, j, atLeast)
  {
    hide Sum;
    if i < j <= |small| {
      SameSizesSum(small[i..j], Size, refs[i..j], CountOf);
      forall k | i < k < j ensures Held(small[i..k]) == Points(refs[i..k]) {
        SameSizesSum(small[i..k], Size, refs[i..k], CountOf);
      }
    }
  }

  lemma SmallInOrder(rows: seq<Row>, s: int, cutoff: int, small: seq<Row>)
    requires forall r | r in rows :: r.meta.count == |r.points|
    requires InSizeOrder(small, SmallBefore(rows, s, cutoff))
    ensures var sorted := SortBy(Filter(SeriesCandidates(rows, s, cutoff), IsMergeable), MergeLe);
            |small| == |sorted| && forall k | 0 <= k < |small| :: |small[k].points| == sorted[k].count
  {
    hide SortBy, Filter, SeriesCandidates, Sizes;
    var all := SmallBefore(rows, s, cutoff);
    var q := (r: Row) => r.enc.Pco? && |r.points| <= 2048;
    var c := (r: Row) => IsCandidate(r, s, cutoff) && q(r);
    var p := (r: Row) => Before(r, s, cutoff) && r.enc.Pco? && |r.points| < 2048;
    forall r | r in rows ensures c(r) == p(r) {
      assert q(r) == (r.enc.Pco? && |r.points| <= 2048);
    }
    FilterAgree(rows, c, p);
    var picked := Picked(rows, s, cutoff, IsMergeable, q, all);
    SameMembers(picked, all);
    SameMembers(small, all);
    forall r | r in picked ensures r.meta.count == |r.points| {
      FilterMember(rows, (r: Row) => Before(r, s, cutoff) && r.enc.Pco? && |r.points| < 2048, r);
    }
    var under := RefsOf(picked);
    RefsSizes(picked);
    var sorted := SortBy(under, MergeLe);
    SortByMultiset(under, MergeLe);
    SameMembers(sorted, under);
    SizesAt(small, Size);
    SizesAt(picked, Size);
    SizesAt(under, CountOf);
    SizesAt(sorted, CountOf);
    assert Sizes(under, CountOf) == Sizes(picked, Size);
    SizesPermutation(small, picked, Size);
    SizesPermutation(sorted, under, CountOf);
    SortedSizes(under);
    OneOrder(Sizes(small, Size), Sizes(sorted, CountOf));
  }

  lemma SortedSizes(refs: seq<Ref>)
    ensures NonFalling(Sizes(SortBy(refs, MergeLe), CountOf))
  {
    hide SortBy, Sizes, TotalPreorder;
    var sorted := SortBy(refs, MergeLe);
    MergeLeTotal();
    SortByAscending(refs, MergeLe);
    SizesAt(sorted, CountOf);
    var c := Sizes(sorted, CountOf);
    forall i, j | 0 <= i < j < |c| ensures c[i] <= c[j] {
      assert MergeLe(sorted[i], sorted[j]);
    }
  }

  predicate SizeLe(a: Row, b: Row) {
    |a.points| <= |b.points|
  }

  lemma ListedBySize(all: seq<Row>) returns (small: seq<Row>)
    ensures InSizeOrder(small, all)
  {
    hide SortBy;
    small := SortBy(all, SizeLe);
    SortByMultiset(all, SizeLe);
    SortByAscending(all, SizeLe);
    forall i, j | 0 <= i < j < |small| ensures |small[i].points| <= |small[j].points| {
      assert SizeLe(small[i], small[j]);
    }
  }

  lemma SmallLeft(rows: seq<Row>, s: int, cutoff: int, atLeast: nat)
    requires (forall r | r in rows :: r.meta.count == |r.points|) && atLeast >= 2
    ensures MergeGroups(s, Filter(SeriesCandidates(rows, s, cutoff), IsMergeable), atLeast) == [] <==>
            NoneToMerge(rows, s, cutoff, atLeast)
  {
    hide SortBy, Filter, SeriesCandidates, MergeGroups, WouldMerge, Stretch, InSizeOrder, SmallBefore;
    var chunks := Filter(SeriesCandidates(rows, s, cutoff), IsMergeable);
    var sorted := SortBy(chunks, MergeLe);
    MergesIffStretch(s, chunks, atLeast);
    if i: nat, j: nat :| Stretch(sorted, i, j, atLeast) {
      var small := ListedBySize(SmallBefore(rows, s, cutoff));
      SmallInOrder(rows, s, cutoff, small);
      SameStretch(small, sorted, i, j, atLeast);
    } else {
      forall small: seq<Row>, i: nat, j: nat | InSizeOrder(small, SmallBefore(rows, s, cutoff))
        ensures !WouldMerge(small, i, j, atLeast)
      {
        SmallInOrder(rows, s, cutoff, small);
        SameStretch(small, sorted, i, j, atLeast);
        assert !Stretch(sorted, i, j, atLeast);
      }
    }
  }

  /** Nothing of a series is planned if and only if it is compacted. */
  lemma NothingPlanned(rows: seq<Row>, lately: set<int>, p: Plan, s: int)
    requires ValidTable(rows)
    ensures PlanFor(rows, lately, p, s) == [] <==> Compacted(rows, s, s in lately, p.cutoff, p.rawMin)
  {
    hide SortBy, Filter, SeriesCandidates, MergeGroups, NoneToMerge, RawBefore, RawRuns, RawWorthwhile, Singles, Wrap, Before,
      Held;
    var written := s in lately;
    Counted(rows);
    var chunks := SeriesCandidates(rows, s, p.cutoff);
    var raw, big := RawRuns(RawWorthwhile(chunks, written, p.rawMin), []), Singles(Filter(chunks, IsOversized));
    RawLeft(rows, s, written, p.cutoff, p.rawMin);
    OversizedLeft(rows, s, p.cutoff);
    SmallLeft(rows, s, p.cutoff, if written then 4 else 2);
    WrapEmpty(s, raw, RawCompression);
    WrapEmpty(s, big, CompressedMerge);
    var a, b := Wrap(s, raw, RawCompression), Wrap(s, big, CompressedMerge);
    var c := MergeGroups(s, Filter(chunks, IsMergeable), AtLeast(written));
    assert PlanFor(rows, lately, p, s) == a + b + c;
    assert a + b + c == [] <==> a == [] && b == [] && c == [];
  }

  /** Every series is. */
  ghost predicate AllCompacted(rows: seq<Row>, lately: set<int>, cutoff: int, rawMin: nat) {
    forall s :: Compacted(rows, s, s in lately, cutoff, rawMin)
  }

  lemma NothingToDoMeans(rows: seq<Row>, lately: set<int>, p: Plan)
    requires ValidTable(rows)
    ensures NothingToDo(rows, lately, p) <==> AllCompacted(rows, lately, p.cutoff, p.rawMin)
  {
    hide PlanFor, Compacted, ValidTable;
    forall s ensures PlanFor(rows, lately, p, s) == [] <==> Compacted(rows, s, s in lately, p.cutoff, p.rawMin) {
      NothingPlanned(rows, lately, p, s);
    }
  }
}
