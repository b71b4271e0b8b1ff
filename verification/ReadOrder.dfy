/** Range reads of different widths agree, ties included: a stable sort commutes
    with leaving things out. */
module ReadOrder {
  import opened Sequences
  import opened Samples
  import opened ChunkTable

  lemma {:induction false} InsertFiltered<T(!new)>(s: seq<T>, x: T, le: (T, T) -> bool, p: T -> bool)
    requires TotalPreorder(le) && Ascending(s, le)
    ensures Filter(Insert(s, x, le), p) == if p(x) then Insert(Filter(s, p), x, le) else Filter(s, p)
  {
    hide TotalPreorder;
    if s == [] || le(s[|s| - 1], x) {
      FilterConcat(s, [x], p);
      OneFiltered(x, p);
      if p(x) {
        AllBelow(s, x, le, p);
      } else {
        assert Filter(s, p) + [] == Filter(s, p);
      }
    } else {
      var t, last := s[..|s| - 1], s[|s| - 1];
      assert s == t + [last];
      AscendingInit(s, le);
      InsertFiltered(t, x, le, p);
      FilterConcat(Insert(t, x, le), [last], p);
      FilterConcat(t, [last], p);
      OneFiltered(last, p);
      if p(last) {
        assert Filter(s, p) == Filter(t, p) + [last];
        assert Filter(s, p)[..|Filter(s, p)| - 1] == Filter(t, p);
      } else {
        assert Filter(t, p) + [] == Filter(t, p);
        assert Filter(Insert(t, x, le), p) + [] == Filter(Insert(t, x, le), p);
      }
    }
  }

  lemma OneFiltered<T>(x: T, p: T -> bool)
    ensures Filter([x], p) == if p(x) then [x] else []
  {
    assert [x][..0] == [];
  }

  lemma AscendingInit<T>(s: seq<T>, le: (T, T) -> bool)
    requires Ascending(s, le) && s != []
    ensures Ascending(s[..|s| - 1], le)
  {
  }

  /** Whatever is kept of an ascending sequence ends no higher. */
  lemma AllBelow<T(!new)>(s: seq<T>, x: T, le: (T, T) -> bool, p: T -> bool)
    requires TotalPreorder(le) && Ascending(s, le) && (s == [] || le(s[|s| - 1], x))
    ensures Insert(Filter(s, p), x, le) == Filter(s, p) + [x]
  {
    hide TotalPreorder, Filter;
    var f := Filter(s, p);
    if f != [] {
      var last := f[|f| - 1];
      assert last in s by {
        assert last in f;
        FilterMember(s, p, last);
      }
      var i :| 0 <= i < |s| && s[i] == last;
      if i < |s| - 1 {
        Transitive(le, s[i], s[|s| - 1], x);
      }
      assert le(last, x);
    }
  }

  lemma Transitive<T(!new)>(le: (T, T) -> bool, a: T, b: T, c: T)
    requires TotalPreorder(le) && le(a, b) && le(b, c)
    ensures le(a, c)
  {
  }

  lemma {:induction false} SortByFilter<T(!new)>(s: seq<T>, le: (T, T) -> bool, p: T -> bool)
    requires TotalPreorder(le)
    ensures Filter(SortBy(s, le), p) == SortBy(Filter(s, p), le)
  {
    hide TotalPreorder, Insert;
    if s != [] {
      var t, x := s[..|s| - 1], s[|s| - 1];
      assert s == t + [x];
      SortByFilter(t, le, p);
      SortByAscending(t, le);
      InsertFiltered(SortBy(t, le), x, le, p);
      if p(x) {
        var f := Filter(t, p);
        assert Filter(s, p) == f + [x];
        assert (f + [x])[..|f|] == f;
      } else {
        assert Filter(s, p) == Filter(t, p) + [] == Filter(t, p);
      }
    }
  }

  // ------------------------------------------------------------- range reads

  /** A series' rows by first timestamp and then insertion. */
  function InOrder(rows: seq<Row>, s: int): seq<Row> {
    SortBy(OfSeries(rows, s), MinTsLe)
  }

  lemma OverlappingIsFilter(rows: seq<Row>, s: int, lo: int, hi: int)
    ensures Overlapping(rows, s, lo, hi) == Filter(InOrder(rows, s), (r: Row) => Overlaps(r, s, lo, hi))
  {
    var p := (r: Row) => Overlaps(r, s, lo, hi);
    var q := (r: Row) => r.series == s;
    MinTsLeTotal();
    SortByFilter(OfSeries(rows, s), MinTsLe, p);
    FilterFilter(rows, q, p, p);
  }

  /** Rows that do not overlap add nothing to what is gathered. */
  lemma {:induction false} GatherOverlapping(rows: seq<Row>, s: int, lo: int, hi: int)
    requires forall r | r in rows :: WellFormed(r) && r.series == s
    ensures Gather(Filter(rows, (r: Row) => Overlaps(r, s, lo, hi)), lo, hi) == Gather(rows, lo, hi)
  {
    var p := (r: Row) => Overlaps(r, s, lo, hi);
    if rows != [] {
      var t, last := rows[..|rows| - 1], rows[|rows| - 1];
      assert last in rows && forall r | r in t :: r in rows;
      GatherOverlapping(t, s, lo, hi);
      if p(last) {
        var f := Filter(t, p);
        assert Filter(rows, p) == f + [last];
        assert (f + [last])[..|f|] == f;
      } else {
        NothingInRange(last, s, lo, hi);
        assert Filter(t, p) + [] == Filter(t, p);
        assert Gather(t, lo, hi) + [] == Gather(t, lo, hi);
      }
    }
  }

  lemma NothingInRange(r: Row, s: int, lo: int, hi: int)
    requires WellFormed(r) && r.series == s && !Overlaps(r, s, lo, hi)
    ensures InRange(r.points, lo, hi) == []
  {
    var p := (x: Sample) => lo <= x.ts <= hi;
    forall x | x in r.points ensures !p(x) {
      if p(x) {
        PrunedIsOutside(r, s, lo, hi, x);
      }
    }
    FilterNone(r.points, p);
  }

  lemma InRangeAgain(s: seq<Sample>, lo: int, hi: int, a: int, b: int)
    requires lo <= a && b <= hi
    ensures InRange(InRange(s, lo, hi), a, b) == InRange(s, a, b)
  {
    FilterFilter(s, (x: Sample) => lo <= x.ts <= hi, (x: Sample) => a <= x.ts <= b, (x: Sample) => a <= x.ts <= b);
  }

  lemma {:induction false} GatherNarrower(rows: seq<Row>, lo: int, hi: int, a: int, b: int)
    requires lo <= a && b <= hi
    ensures InRange(Gather(rows, lo, hi), a, b) == Gather(rows, a, b)
  {
    if rows != [] {
      var t, last := rows[..|rows| - 1], rows[|rows| - 1];
      GatherNarrower(t, lo, hi, a, b);
      FilterConcat(Gather(t, lo, hi), InRange(last.points, lo, hi), (x: Sample) => a <= x.ts <= b);
      InRangeAgain(last.points, lo, hi, a, b);
    }
  }

  /** That order: an earlier first timestamp first, and of equal ones the row
      stored first. */
  lemma InOrderIs(rows: seq<Row>, s: int, i: nat, j: nat)
    requires Indexed(rows) && i < j < |InOrder(rows, s)|
    ensures var a, b := InOrder(rows, s)[i], InOrder(rows, s)[j];
            a.meta.minTs < b.meta.minTs || (a.meta.minTs == b.meta.minTs && a.id < b.id)
  {
    hide SortBy;
    var plain, sorted := OfSeries(rows, s), InOrder(rows, s);
    MinTsLeTotal();
    SortByAscending(plain, MinTsLe);
    var a, b := sorted[i], sorted[j];
    assert MinTsLe(a, b);
    if a.meta.minTs == b.meta.minTs {
      var p := (r: Row) => r.meta.minTs == a.meta.minTs;
      SortByStable(plain, MinTsLe, p);
      IndexedFilter(rows, (r: Row) => r.series == s);
      IndexedFilter(plain, p);
      FilteredApart(sorted, p, i, j);
    }
  }

  /** Two that are picked are picked in their order. */
  lemma FilteredApart(s: seq<Row>, p: Row -> bool, i: nat, j: nat)
    requires i < j < |s| && p(s[i]) && p(s[j]) && Indexed(Filter(s, p))
    ensures s[i].id < s[j].id
  {
    hide Filter;
    var a, b := s[..j], s[j..];
    assert s == a + b;
    FilterConcat(a, b, p);
    assert s[i] == a[i] && a[i] in a && s[j] == b[0] && b[0] in b;
    FilterMember(a, p, s[i]);
    FilterMember(b, p, s[j]);
    var f, g := Filter(a, p), Filter(b, p);
    var k :| 0 <= k < |f| && f[k] == s[i];
    var m :| 0 <= m < |g| && g[m] == s[j];
    assert (f + g)[k] == s[i] && (f + g)[|f| + m] == s[j];
  }

  lemma InOrderMember(rows: seq<Row>, s: int, r: Row)
    ensures r in InOrder(rows, s) <==> r in rows && r.series == s
  {
    SortByMembers(OfSeries(rows, s), MinTsLe);
    FilterMember(rows, (r: Row) => r.series == s, r);
  }

  /** What a range read sorts: the in-range samples of the series' rows, row by
      row. */
  lemma ReadIsGather(rows: seq<Row>, s: int, lo: int, hi: int)
    requires forall r | r in rows :: WellFormed(r)
    ensures Gather(Overlapping(rows, s, lo, hi), lo, hi) == Gather(InOrder(rows, s), lo, hi)
    ensures RangeQuery(rows, s, lo, hi) == StableSort(Gather(InOrder(rows, s), lo, hi))
  {
    hide InOrder, WellFormed;
    OverlappingIsFilter(rows, s, lo, hi);
    forall r | r in InOrder(rows, s) ensures WellFormed(r) && r.series == s {
      InOrderMember(rows, s, r);
    }
    GatherOverlapping(InOrder(rows, s), s, lo, hi);
  }

  /** A narrower read is the wider one cut down, ties in the same order. */
  lemma NarrowerRead(rows: seq<Row>, s: int, lo: int, hi: int, a: int, b: int)
    requires (forall r | r in rows :: WellFormed(r)) && lo <= a && b <= hi
    ensures InRange(RangeQuery(rows, s, lo, hi), a, b) == RangeQuery(rows, s, a, b)
  {
    hide RangeQuery, Gather, InOrder, WellFormed;
    ReadIsGather(rows, s, lo, hi);
    ReadIsGather(rows, s, a, b);
    var g := Gather(InOrder(rows, s), lo, hi);
    GatherNarrower(InOrder(rows, s), lo, hi, a, b);
    SortFiltered(g, a, b);
  }

  lemma SortFiltered(g: seq<Sample>, a: int, b: int)
    ensures InRange(StableSort(g), a, b) == StableSort(InRange(g, a, b))
  {
    TsLeTotal();
    SortByFilter(g, TsLe, (x: Sample) => a <= x.ts <= b);
  }

  // ------------------------------------------------------- what a read is over

  /** The stored samples of `[lo, hi]`, in whatever order. */
  ghost predicate Lists(all: seq<Sample>, rows: seq<Row>, s: int, lo: int, hi: int) {
    forall x: Sample :: multiset(all)[x] == if lo <= x.ts <= hi then Contents(rows, s)[x] else 0
  }

  lemma ReadLists(rows: seq<Row>, s: int, lo: int, hi: int)
    requires forall r | r in rows :: WellFormed(r)
    ensures Lists(RangeQuery(rows, s, lo, hi), rows, s, lo, hi)
  {
    hide RangeQuery, WellFormed, Contents;
    RangeQueryExact(rows, s, lo, hi);
  }

  lemma SameListed(a: seq<Sample>, b: seq<Sample>, rows: seq<Row>, s: int, lo: int, hi: int)
    requires Lists(a, rows, s, lo, hi) && Lists(b, rows, s, lo, hi)
    ensures multiset(a) == multiset(b) && |a| == |b|
    ensures forall x :: x in a <==> x in b
  {
    hide Contents;
    assert multiset(a) == multiset(b);
    assert |multiset(a)| == |a| && |multiset(b)| == |b|;
    forall x ensures x in a <==> x in b {
      assert x in multiset(a) <==> x in multiset(b);
    }
  }
}
