/** The series the chunk table knows of, as the index lists them. */
module SeriesIndex {
  import opened Sequences
  import opened Samples
  import opened ChunkTable

  function InsertId(ids: seq<int>, x: int): seq<int> {
    if ids == [] then [x]
    else if ids[|ids| - 1] < x then ids + [x]
    else if ids[|ids| - 1] == x then ids
    else InsertId(ids[..|ids| - 1], x) + [ids[|ids| - 1]]
  }

  /** `sort_unstable` and `dedup`. */
  function SortedIds(xs: seq<int>): seq<int> {
    if xs == [] then [] else InsertId(SortedIds(xs[..|xs| - 1]), xs[|xs| - 1])
  }

  ghost predicate StrictlyAscending(ids: seq<int>) {
    forall i, j | 0 <= i < j < |ids| :: ids[i] < ids[j]
  }

  lemma AppendAscending(ids: seq<int>, x: int)
    requires StrictlyAscending(ids) && forall y | y in ids :: y < x
    ensures StrictlyAscending(ids + [x])
  {
    forall i | 0 <= i < |ids| ensures ids[i] < x {
      assert ids[i] in ids;
    }
  }

  lemma {:induction false} InsertIdProperties(ids: seq<int>, x: int)
    requires StrictlyAscending(ids)
    ensures StrictlyAscending(InsertId(ids, x))
    ensures forall y :: y in InsertId(ids, x) <==> y in ids || y == x
    ensures |InsertId(ids, x)| <= |ids| + 1
  {
    if ids != [] && ids[|ids| - 1] > x {
      var t, last := ids[..|ids| - 1], ids[|ids| - 1];
      InsertIdProperties(t, x);
      assert ids == t + [last];
      AppendAscending(InsertId(t, x), last);
    } else if ids != [] {
      var t, last := ids[..|ids| - 1], ids[|ids| - 1];
      assert ids == t + [last];
    }
  }

  lemma {:induction false} SortedIdsProperties(xs: seq<int>)
    ensures StrictlyAscending(SortedIds(xs))
    ensures forall y :: y in SortedIds(xs) <==> y in xs
    ensures |SortedIds(xs)| <= |xs|
  {
    if xs != [] {
      var t, x := xs[..|xs| - 1], xs[|xs| - 1];
      SortedIdsProperties(t);
      InsertIdProperties(SortedIds(t), x);
      assert xs == t + [x];
    }
  }

  function SeriesColumn(rows: seq<Row>): seq<int> {
    if rows == [] then [] else SeriesColumn(rows[..|rows| - 1]) + [rows[|rows| - 1].series]
  }

  lemma {:induction false} SeriesColumnMember(rows: seq<Row>, s: int)
    ensures s in SeriesColumn(rows) <==> exists r :: r in rows && r.series == s
  {
    if rows != [] {
      var t, x := rows[..|rows| - 1], rows[|rows| - 1];
      SeriesColumnMember(t, s);
      assert rows == t + [x];
      if s in SeriesColumn(t) {
        var r :| r in t && r.series == s;
        assert r in rows;
      } else if x.series == s {
        assert x in rows;
      }
    }
  }

  /** `chunk_series_ids_between`: the series with a chunk, ascending. */
  function SeriesBetween(rows: seq<Row>, lo: int, hi: int): seq<int> {
    Filter(SortedIds(SeriesColumn(rows)), (s: int) => lo <= s <= hi)
  }

  lemma SeriesBetweenMember(rows: seq<Row>, lo: int, hi: int, s: int)
    ensures s in SeriesBetween(rows, lo, hi) <==> lo <= s <= hi && exists r :: r in rows && r.series == s
  {
    FilterMember(SortedIds(SeriesColumn(rows)), (s: int) => lo <= s <= hi, s);
    SortedIdsProperties(SeriesColumn(rows));
    SeriesColumnMember(rows, s);
  }

  lemma {:induction false} FilterAscending(ids: seq<int>, p: int -> bool)
    requires StrictlyAscending(ids)
    ensures StrictlyAscending(Filter(ids, p))
  {
    if ids != [] {
      var t, x := ids[..|ids| - 1], ids[|ids| - 1];
      FilterAscending(t, p);
      forall y | y in Filter(t, p) ensures y < x {
        FilterMember(t, p, y);
        var i :| 0 <= i < |t| && t[i] == y;
        assert ids[i] == y;
      }
      AppendAscending(Filter(t, p), x);
    }
  }

  lemma SeriesBetweenAscending(rows: seq<Row>, lo: int, hi: int)
    ensures StrictlyAscending(SeriesBetween(rows, lo, hi))
  {
    SortedIdsProperties(SeriesColumn(rows));
    FilterAscending(SortedIds(SeriesColumn(rows)), (s: int) => lo <= s <= hi);
  }

  /** `next_chunk_series`: the smallest id at or above `from` with a chunk. */
  function NextSeries(rows: seq<Row>, from: int): Option<int> {
    var ids := SeriesBetween(rows, from, I64_MAX);
    if ids == [] then None else Some(ids[0])
  }
}
