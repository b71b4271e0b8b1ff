/** The chunk table: immutable rows under ids, as the engine's callers of the
    store see it. A row holds one chunk of one series with the metadata that
    plans and pruned reads go by. */
module ChunkTable {
  import opened Sequences
  import opened Samples

  datatype Encoding = Pco | Raw

  datatype Meta = Meta(
    minTs: int, maxTs: int, maxTsVal: Option<Value>, count: nat,
    bytes: nat, minVal: Value, maxVal: Value, sumVal: Value)

  datatype Row = Row(id: nat, series: int, enc: Encoding, meta: Meta, points: seq<Sample>)

  /** Timestamps ascending, and the bounds and the count the row's own. */
  ghost predicate WellFormed(r: Row) {
    && r.points != []
    && SortedTs(r.points)
    && r.meta.minTs == r.points[0].ts
    && r.meta.maxTs == r.points[|r.points| - 1].ts
    && r.meta.count == |r.points|
  }

  /** The first sample at the newest timestamp: where a chunk's newest value is
      read from. */
  function FirstAt(points: seq<Sample>, ts: int): (k: nat)
    requires exists i :: 0 <= i < |points| && points[i].ts == ts
    ensures k < |points| && points[k].ts == ts
    ensures forall i | 0 <= i < k :: points[i].ts != ts
  {
    if points[0].ts == ts then 0
    else
      var i :| 0 <= i < |points| && points[i].ts == ts;
      assert points[1..][i - 1].ts == ts;
      1 + FirstAt(points[1..], ts)
  }

  /** The metadata `encode_partition` writes for sorted samples. */
  ghost predicate ExactMeta(m: Meta, points: seq<Sample>)
    requires points != []
  {
    && m.minTs == points[0].ts
    && m.maxTs == points[|points| - 1].ts
    && m.maxTsVal == Some(points[FirstAt(points, points[|points| - 1].ts)].val)
    && m.count == |points|
    && m.minVal == MinOf(points)
    && m.maxVal == MaxOf(points)
    && m.sumVal == SumOf(points)
  }

  /** Rows lie in id order, each id once. */
  ghost predicate Indexed(rows: seq<Row>) {
    forall i, j | 0 <= i < j < |rows| :: rows[i].id < rows[j].id
  }

  ghost predicate ValidTable(rows: seq<Row>) {
    Indexed(rows) && forall r | r in rows :: WellFormed(r)
  }

  /** Rows whose metadata is that of their samples, as every fast read takes it
      to be. */
  ghost predicate ExactTable(rows: seq<Row>) {
    ValidTable(rows) && forall r | r in rows :: ExactMeta(r.meta, r.points)
  }

  /** The id the next row is given: one more than the largest in use, so an id
      freed at the end is given out again. */
  function NextId(rows: seq<Row>): nat {
    if rows == [] then 1 else rows[|rows| - 1].id + 1
  }

  function Without(rows: seq<Row>, ids: set<nat>): seq<Row> {
    Filter(rows, (r: Row) => r.id !in ids)
  }

  function OfSeries(rows: seq<Row>, s: int): seq<Row> {
    Filter(rows, (r: Row) => r.series == s)
  }

  function IdSet(rows: seq<Row>): set<nat> {
    set r | r in rows :: r.id
  }

  lemma UniqueId(rows: seq<Row>, a: Row, b: Row)
    requires Indexed(rows) && a in rows && b in rows && a.id == b.id
    ensures a == b
  {
  }

  lemma {:induction false} IndexedFilter(rows: seq<Row>, p: Row -> bool)
    requires Indexed(rows)
    ensures Indexed(Filter(rows, p))
  {
    if rows != [] {
      var t, x := rows[..|rows| - 1], rows[|rows| - 1];
      IndexedFilter(t, p);
      forall r | r in Filter(t, p) ensures r.id < x.id {
        FilterMember(t, p, r);
      }
    }
  }

  lemma ValidWithout(rows: seq<Row>, ids: set<nat>)
    requires ValidTable(rows)
    ensures ValidTable(Without(rows, ids))
  {
    var p := (r: Row) => r.id !in ids;
    IndexedFilter(rows, p);
    forall r | r in Without(rows, ids) ensures WellFormed(r) {
      FilterMember(rows, p, r);
    }
  }

  lemma WithoutMember(rows: seq<Row>, ids: set<nat>, r: Row)
    ensures r in Without(rows, ids) <==> r in rows && r.id !in ids
  {
    FilterMember(rows, (r: Row) => r.id !in ids, r);
  }

  /** Taking distinct rows out of the table splits it exactly. */
  lemma {:induction false} TakeOut(rows: seq<Row>, out: seq<Row>)
    requires Indexed(rows) && Distinct(out)
    requires forall r | r in out :: r in rows
    ensures multiset(rows) == multiset(Without(rows, IdSet(out))) + multiset(out)
  {
    DistinctCount(rows);
    DistinctCount(out);
    assert Distinct(rows);
    forall x: Row
      ensures multiset(rows)[x] == multiset(Without(rows, IdSet(out)))[x] + multiset(out)[x]
    {
      FilterCount(rows, (r: Row) => r.id !in IdSet(out), x);
      assert x in multiset(out) <==> x in out;
      assert x in multiset(rows) <==> x in rows;
      if x in rows {
        if x.id in IdSet(out) {
          var y :| y in out && y.id == x.id;
          UniqueId(rows, x, y);
        }
      }
    }
  }

  // -------------------------------------------------------------- contents

  /** The samples a series has stored, however they are cut into rows. */
  function Contents(rows: seq<Row>, s: int): multiset<Sample> {
    if rows == [] then multiset{}
    else
      var last := rows[|rows| - 1];
      Contents(rows[..|rows| - 1], s) + (if last.series == s then multiset(last.points) else multiset{})
  }

  lemma {:induction false} ContentsConcat(a: seq<Row>, b: seq<Row>, s: int)
    ensures Contents(a + b, s) == Contents(a, s) + Contents(b, s)
  {
    if b == [] {
      assert a + b == a;
    } else {
      assert (a + b)[..|a + b| - 1] == a + b[..|b| - 1];
      ContentsConcat(a, b[..|b| - 1], s);
    }
  }

  lemma ContentsOne(r: Row, s: int)
    ensures Contents([r], s) == if r.series == s then multiset(r.points) else multiset{}
  {
    assert [r][..0] == [];
  }

  function CountIn(r: Row, s: int, x: Sample): int {
    if r.series == s then multiset(r.points)[x] else 0
  }

  lemma {:induction false} ContentsCount(rows: seq<Row>, s: int, x: Sample)
    ensures Contents(rows, s)[x] == Sum(rows, (r: Row) => CountIn(r, s, x))
  {
    if rows != [] {
      ContentsCount(rows[..|rows| - 1], s, x);
    }
  }

  lemma ContentsPermutation(a: seq<Row>, b: seq<Row>, s: int)
    requires multiset(a) == multiset(b)
    ensures Contents(a, s) == Contents(b, s)
  {
    forall x: Sample ensures Contents(a, s)[x] == Contents(b, s)[x] {
      ContentsCount(a, s, x);
      ContentsCount(b, s, x);
      SumPermutation(a, b, (r: Row) => CountIn(r, s, x));
    }
  }

  lemma {:induction false} ContentsMember(rows: seq<Row>, s: int, x: Sample)
    ensures x in Contents(rows, s) <==> exists r :: r in rows && r.series == s && x in r.points
  {
    if rows != [] {
      var t, last := rows[..|rows| - 1], rows[|rows| - 1];
      ContentsMember(t, s, x);
      assert rows == t + [last];
      assert x in multiset(last.points) <==> x in last.points;
      if x in Contents(rows, s) {
        if x in Contents(t, s) {
          var r :| r in t && r.series == s && x in r.points;
          assert r in rows;
        } else {
          assert last in rows;
        }
      }
    }
  }

  // ----------------------------------------------------------------- reads

  predicate MinTsLe(a: Row, b: Row) {
    a.meta.minTs <= b.meta.minTs
  }

  lemma MinTsLeTotal()
    ensures TotalPreorder(MinTsLe)
  {
  }

  predicate Overlaps(r: Row, s: int, lo: int, hi: int) {
    r.series == s && r.meta.minTs <= hi && r.meta.maxTs >= lo
  }

  /** `chunk_metas_for`: a series' rows that overlap `[lo, hi]`, by first
      timestamp and then insertion. */
  function Overlapping(rows: seq<Row>, s: int, lo: int, hi: int): seq<Row> {
    SortBy(Filter(rows, (r: Row) => Overlaps(r, s, lo, hi)), MinTsLe)
  }

  lemma OverlappingMember(rows: seq<Row>, s: int, lo: int, hi: int, r: Row)
    ensures r in Overlapping(rows, s, lo, hi) <==> r in rows && Overlaps(r, s, lo, hi)
  {
    var p := (r: Row) => Overlaps(r, s, lo, hi);
    SortByMembers(Filter(rows, p), MinTsLe);
    FilterMember(rows, p, r);
  }

  /** The in-range samples of `rows`, row by row. */
  function Gather(rows: seq<Row>, lo: int, hi: int): seq<Sample> {
    if rows == [] then []
    else Gather(rows[..|rows| - 1], lo, hi) + InRange(rows[|rows| - 1].points, lo, hi)
  }

  /** `query_range_by_id`: the read every other read is measured against. */
  function RangeQuery(rows: seq<Row>, s: int, lo: int, hi: int): seq<Sample> {
    StableSort(Gather(Overlapping(rows, s, lo, hi), lo, hi))
  }

  lemma {:induction false} GatherCount(rows: seq<Row>, s: int, lo: int, hi: int, x: Sample)
    requires forall r | r in rows :: r.series == s
    ensures multiset(Gather(rows, lo, hi))[x] == if lo <= x.ts <= hi then Contents(rows, s)[x] else 0
  {
    if rows != [] {
      GatherCount(rows[..|rows| - 1], s, lo, hi, x);
      InRangeCount(rows[|rows| - 1].points, lo, hi, x);
    }
  }

  /** A row that does not overlap holds nothing in range. */
  lemma PrunedIsOutside(r: Row, s: int, lo: int, hi: int, x: Sample)
    requires WellFormed(r) && r.series == s && !Overlaps(r, s, lo, hi) && lo <= x.ts <= hi
    ensures x !in r.points
  {
    forall i | 0 <= i < |r.points| ensures r.points[i] != x {
      var n := |r.points| - 1;
      assert i == 0 || r.points[0].ts <= r.points[i].ts;
      assert i == n || r.points[i].ts <= r.points[n].ts;
    }
  }

  lemma {:induction false} PrunedContents(rows: seq<Row>, s: int, lo: int, hi: int, x: Sample)
    requires forall r | r in rows :: WellFormed(r)
    requires lo <= x.ts <= hi
    ensures Contents(Filter(rows, (r: Row) => Overlaps(r, s, lo, hi)), s)[x] == Contents(rows, s)[x]
  {
    if rows != [] {
      var p := (r: Row) => Overlaps(r, s, lo, hi);
      var t, last := rows[..|rows| - 1], rows[|rows| - 1];
      PrunedContents(t, s, lo, hi, x);
      ContentsConcat(Filter(t, p), if p(last) then [last] else [], s);
      ContentsOne(last, s);
      if !p(last) && last.series == s {
        PrunedIsOutside(last, s, lo, hi, x);
        assert x !in multiset(last.points);
      }
    }
  }

  /** What a range read returns: sorted, and exactly the stored samples in
      range with their multiplicities, however the series is cut into rows. */
  lemma RangeQueryExact(rows: seq<Row>, s: int, lo: int, hi: int)
    requires forall r | r in rows :: WellFormed(r)
    ensures SortedTs(RangeQuery(rows, s, lo, hi))
    ensures forall x :: multiset(RangeQuery(rows, s, lo, hi))[x] ==
                        if lo <= x.ts <= hi then Contents(rows, s)[x] else 0
  {
    var p := (r: Row) => Overlaps(r, s, lo, hi);
    var found := Overlapping(rows, s, lo, hi);
    StableSortSorted(Gather(found, lo, hi));
    SortByMultiset(Filter(rows, p), MinTsLe);
    forall r | r in found ensures r.series == s {
      OverlappingMember(rows, s, lo, hi, r);
    }
    ContentsPermutation(found, Filter(rows, p), s);
    forall x: Sample
      ensures multiset(RangeQuery(rows, s, lo, hi))[x] ==
              if lo <= x.ts <= hi then Contents(rows, s)[x] else 0
    {
      GatherCount(found, s, lo, hi, x);
      if lo <= x.ts <= hi {
        PrunedContents(rows, s, lo, hi, x);
      }
    }
  }

  /** Two tables with the same contents answer every range read with the same
      sorted multiset. */
  lemma SameContentsSameReads(a: seq<Row>, b: seq<Row>, s: int, lo: int, hi: int)
    requires forall r | r in a :: WellFormed(r)
    requires forall r | r in b :: WellFormed(r)
    requires Contents(a, s) == Contents(b, s)
    ensures multiset(RangeQuery(a, s, lo, hi)) == multiset(RangeQuery(b, s, lo, hi))
    ensures SortedTs(RangeQuery(a, s, lo, hi)) && SortedTs(RangeQuery(b, s, lo, hi))
  {
    hide RangeQuery, Contents, SortedTs, WellFormed;
    RangeQueryExact(a, s, lo, hi);
    RangeQueryExact(b, s, lo, hi);
    forall x: Sample
      ensures multiset(RangeQuery(a, s, lo, hi))[x] == multiset(RangeQuery(b, s, lo, hi))[x]
    {
    }
  }
}
