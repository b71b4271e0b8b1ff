/** Reads for an ordered batch of series, repeated and unknown ids included:
    one read of the index, handed out by position. */
module ReadBatch {
  import opened Sequences
  import opened Samples
  import opened ChunkTable
  import opened SeriesIndex
  import opened Latest

  /** What the store answers for a set of series: each one's overlapping rows,
      in series order. */
  function BatchRead(rows: seq<Row>, ids: seq<int>, lo: int, hi: int): seq<Row> {
    if ids == [] then []
    else BatchRead(rows, ids[..|ids| - 1], lo, hi) + Overlapping(rows, ids[|ids| - 1], lo, hi)
  }

  lemma OverlappingSeries(rows: seq<Row>, id: int, lo: int, hi: int, s: int)
    ensures OfSeries(Overlapping(rows, id, lo, hi), s) == if s == id then Overlapping(rows, id, lo, hi) else []
  {
    hide Overlapping;
    var p := (r: Row) => r.series == s;
    forall r | r in Overlapping(rows, id, lo, hi) ensures r.series == id {
      OverlappingMember(rows, id, lo, hi, r);
    }
    if s == id {
      FilterAll(Overlapping(rows, id, lo, hi), p);
    } else {
      FilterNone(Overlapping(rows, id, lo, hi), p);
    }
  }

  lemma {:induction false} BatchReadSeries(rows: seq<Row>, ids: seq<int>, lo: int, hi: int, s: int)
    requires Distinct(ids)
    ensures OfSeries(BatchRead(rows, ids, lo, hi), s) == if s in ids then Overlapping(rows, s, lo, hi) else []
  {
    hide Overlapping;
    if ids != [] {
      var t, id := ids[..|ids| - 1], ids[|ids| - 1];
      assert ids == t + [id] && id !in t;
      BatchReadSeries(rows, t, lo, hi, s);
      FilterConcat(BatchRead(rows, t, lo, hi), Overlapping(rows, id, lo, hi), (r: Row) => r.series == s);
      OverlappingSeries(rows, id, lo, hi, s);
    }
  }

  /** The lists so far, by series. */
  ghost predicate BySeries(lists: map<int, seq<Row>>, chunks: seq<Row>) {
    forall s :: OfSeries(chunks, s) == if s in lists then lists[s] else []
  }

  method GroupBySeries(chunks: seq<Row>) returns (lists: map<int, seq<Row>>)
    ensures BySeries(lists, chunks)
  {
    lists := map[];
    for i := 0 to |chunks|
      invariant BySeries(lists, chunks[..i])
    {
      var c := chunks[i];
      ghost var was := lists;
      var list := if c.series in lists then lists[c.series] else [];
      lists := lists[c.series := list + [c]];
      forall s ensures OfSeries(chunks[..i + 1], s) == if s in lists then lists[s] else [] {
        assert chunks[..i + 1] == chunks[..i] + [c];
        SeriesOneMore(chunks[..i], c, s);
        assert OfSeries(chunks[..i], s) == if s in was then was[s] else [];
      }
    }
    assert chunks[..|chunks|] == chunks;
  }

  lemma SeriesOneMore(chunks: seq<Row>, c: Row, s: int)
    ensures OfSeries(chunks + [c], s) == OfSeries(chunks, s) + (if c.series == s then [c] else [])
  {
    assert (chunks + [c])[..|chunks|] == chunks;
  }

  /** How often each id is asked for. */
  method CountUses(ids: seq<int>) returns (uses: map<int, nat>)
    ensures forall s | s in ids :: s in uses && uses[s] == multiset(ids)[s]
  {
    uses := map[];
    for i := 0 to |ids|
      invariant forall s :: s in uses <==> s in ids[..i]
      invariant forall s | s in uses :: uses[s] == multiset(ids[..i])[s]
    {
      var id := ids[i];
      assert ids[..i + 1] == ids[..i] + [id];
      var n := if id in uses then uses[id] else 0;
      assert id !in uses ==> multiset(ids[..i])[id] == 0 by {
        assert id in ids[..i] <==> id in multiset(ids[..i]);
      }
      uses := uses[id := n + 1];
    }
    assert ids[..|ids|] == ids;
  }

  /** What is left serves the positions still to come. */
  ghost predicate Serves(rest: seq<int>, uses: map<int, nat>, lists: map<int, seq<Row>>, chunks: seq<Row>) {
    forall s | s in rest ::
      && s in uses && uses[s] == multiset(rest)[s]
      && OfSeries(chunks, s) == if s in lists then lists[s] else []
  }

  lemma ServeOne(id: int, rest: seq<int>, uses: map<int, nat>, lists: map<int, seq<Row>>, chunks: seq<Row>)
    requires Serves([id] + rest, uses, lists, chunks)
    ensures id in uses && uses[id] > 0
    ensures OfSeries(chunks, id) == if id in lists then lists[id] else []
    ensures Serves(rest, uses[id := uses[id] - 1], if uses[id] == 1 then lists - {id} else lists, chunks)
  {
    hide OfSeries;
    var all := [id] + rest;
    assert id in all;
    assert multiset(all) == multiset{id} + multiset(rest);
    assert id in rest <==> id in multiset(rest);
    forall s | s in rest ensures s in all {
    }
  }

  lemma ServesAll(ids: seq<int>, uses: map<int, nat>, lists: map<int, seq<Row>>, chunks: seq<Row>)
    requires BySeries(lists, chunks) && forall s | s in ids :: s in uses && uses[s] == multiset(ids)[s]
    ensures Serves(ids, uses, lists, chunks)
  {
    hide OfSeries;
  }

  /** Each position so far has its id's list. */
  ghost predicate Handed(out: seq<seq<Row>>, ids: seq<int>, chunks: seq<Row>) {
    |out| <= |ids| && forall j | 0 <= j < |out| :: out[j] == OfSeries(chunks, ids[j])
  }

  lemma HandedOne(out: seq<seq<Row>>, ids: seq<int>, chunks: seq<Row>, list: seq<Row>)
    requires Handed(out, ids, chunks) && |out| < |ids| && list == OfSeries(chunks, ids[|out|])
    ensures Handed(out + [list], ids, chunks)
  {
    hide OfSeries;
  }

  lemma HandedNone(ids: seq<int>, chunks: seq<Row>)
    ensures Handed([], ids, chunks)
  {
  }

  /** `chunks_by_position`: the last use of an id takes its list, earlier ones a
      copy; every position gets the list of its id. */
  method ChunksByPosition(ids: seq<int>, chunks: seq<Row>) returns (out: seq<seq<Row>>)
    ensures |out| == |ids| && Handed(out, ids, chunks)
  {
    hide *;
    var lists := GroupBySeries(chunks);
    var uses := CountUses(ids);
    ServesAll(ids, uses, lists, chunks);
    HandedNone(ids, chunks);
    out := [];
    ghost var rest := ids;
    for i := 0 to |ids|
      invariant |out| == i && rest == ids[i..] && Handed(out, ids, chunks)
      invariant Serves(rest, uses, lists, chunks)
    {
      var id := ids[i];
      assert rest == [id] + ids[i + 1..];
      rest := ids[i + 1..];
      ServeOne(id, rest, uses, lists, chunks);
      var list := if id in lists then lists[id] else [];
      HandedOne(out, ids, chunks, list);
      out := out + [list];
      if uses[id] == 1 {
        lists := lists - {id};
      }
      uses := uses[id := uses[id] - 1];
    }
  }

  datatype LatestBatch = Answers(values: seq<Option<Sample>>) | OverLimit(work: nat)

  /** What the walk of a chunk is reckoned to cost. */
  function WorkOf(r: Row, hi: int): nat {
    if r.meta.maxTs <= hi && r.meta.maxTsVal.Some? then 1 else r.meta.count
  }

  function WorkOfAll(lists: seq<seq<Row>>, hi: int): nat {
    if lists == [] then 0 else WorkOfAll(lists[..|lists| - 1], hi) + WorkOfList(lists[|lists| - 1], hi)
  }

  function WorkOfList(chunks: seq<Row>, hi: int): nat {
    if chunks == [] then 0 else WorkOfList(chunks[..|chunks| - 1], hi) + WorkOf(chunks[|chunks| - 1], hi)
  }

  /** What a batch is reckoned to cost: at every position, repeated ids
      included, the chunks of its series that overlap the range. */
  function BatchWork(rows: seq<Row>, ids: seq<int>, lo: int, hi: int): nat {
    if ids == [] then 0
    else BatchWork(rows, ids[..|ids| - 1], lo, hi) + WorkOfList(Overlapping(rows, ids[|ids| - 1], lo, hi), hi)
  }

  /** For every position and every overlapping chunk of its series: one where its
      newest value is kept and in range, and its samples otherwise. */
  lemma {:induction false} BatchWorkMeans(rows: seq<Row>, ids: seq<int>, lo: int, hi: int)
    ensures BatchWork(rows, ids, lo, hi) ==
            Sum(ids, (s: int) =>
              Sum(Overlapping(rows, s, lo, hi), (r: Row) =>
                if r.meta.maxTs <= hi && r.meta.maxTsVal.Some? then 1 else r.meta.count))
  {
    hide Overlapping;
    if ids != [] {
      BatchWorkMeans(rows, ids[..|ids| - 1], lo, hi);
      WorkIsSum(Overlapping(rows, ids[|ids| - 1], lo, hi), hi);
    }
  }

  lemma {:induction false} WorkIsSum(chunks: seq<Row>, hi: int)
    ensures WorkOfList(chunks, hi) ==
            Sum(chunks, (r: Row) => if r.meta.maxTs <= hi && r.meta.maxTsVal.Some? then 1 else r.meta.count)
  {
    if chunks != [] {
      WorkIsSum(chunks[..|chunks| - 1], hi);
    }
  }

  lemma {:induction false} WorkIsBatchWork(rows: seq<Row>, ids: seq<int>, lo: int, hi: int, lists: seq<seq<Row>>)
    requires |lists| == |ids| && forall i | 0 <= i < |ids| :: lists[i] == Overlapping(rows, ids[i], lo, hi)
    ensures WorkOfAll(lists, hi) == BatchWork(rows, ids, lo, hi)
  {
    hide Overlapping, WorkOfList;
    if ids != [] {
      WorkIsBatchWork(rows, ids[..|ids| - 1], lo, hi, lists[..|lists| - 1]);
    }
  }

  lemma NothingBackwards(rows: seq<Row>, s: int, lo: int, hi: int)
    requires (forall r | r in rows :: WellFormed(r)) && lo > hi
    ensures RangeQuery(rows, s, lo, hi) == []
  {
    hide RangeQuery, Contents, WellFormed, SortedTs;
    RangeQueryExact(rows, s, lo, hi);
    var q := RangeQuery(rows, s, lo, hi);
    assert forall x :: multiset(q)[x] == 0;
    assert multiset(q) == multiset{};
    assert |multiset(q)| == |q|;
  }

  /** `query_latest_batch_by_id`: at every position what the single form says of
      that id, unless there is a limit and the work is over it. */
  method QueryLatestBatch(rows: seq<Row>, ids: seq<int>, lo: int, hi: int, limit: Option<nat>)
    returns (o: LatestBatch)
    requires forall r | r in rows :: MetaTrue(r)
    ensures o.Answers? ==> |o.values| == |ids|
    ensures o.Answers? ==> forall i | 0 <= i < |ids| :: o.values[i] == LatestRead(rows, ids[i], lo, hi)
    ensures o.OverLimit? <==> limit.Some? && lo <= hi && BatchWork(rows, ids, lo, hi) > limit.value
    ensures o.OverLimit? ==> o.work == BatchWork(rows, ids, lo, hi)
  {
    hide MetaTrue, Overlapping, LatestRead, OfSeries, BatchWork, WorkOfAll;
    AllWellFormed(rows);
    var values: seq<Option<Sample>> := [];
    if lo > hi {
      for i := 0 to |ids|
        invariant |values| == i && forall j | 0 <= j < i :: values[j] == LatestRead(rows, ids[j], lo, hi)
      {
        NothingBackwards(rows, ids[i], lo, hi);
        NothingLatest(rows, ids[i], lo, hi);
        values := values + [None];
      }
      return Answers(values);
    }
    var lists := ChunksByPosition(ids, BatchRead(rows, SortedIds(ids), lo, hi));
    ListsAre(rows, ids, lo, hi, lists);
    WorkIsBatchWork(rows, ids, lo, hi, lists);
    if limit.Some? {
      var work := WorkOfAll(lists, hi);
      if work > limit.value {
        return OverLimit(work);
      }
    }
    for i := 0 to |ids|
      invariant |values| == i && forall j | 0 <= j < i :: values[j] == LatestRead(rows, ids[j], lo, hi)
    {
      hide *;
      ListTrue(rows, ids[i], lo, hi);
      var best := WalkNewestFirst(lists[i], lo, hi);
      WalkIsRead(rows, ids[i], lo, hi);
      values := values + [best];
    }
    o := Answers(values);
  }

  lemma ListsAre(rows: seq<Row>, ids: seq<int>, lo: int, hi: int, lists: seq<seq<Row>>)
    requires |lists| == |ids| && Handed(lists, ids, BatchRead(rows, SortedIds(ids), lo, hi))
    ensures forall i | 0 <= i < |ids| :: lists[i] == Overlapping(rows, ids[i], lo, hi)
  {
    hide Overlapping, OfSeries, BatchRead;
    var distinct := SortedIds(ids);
    SortedIdsProperties(ids);
    forall i | 0 <= i < |ids| ensures lists[i] == Overlapping(rows, ids[i], lo, hi) {
      BatchReadSeries(rows, distinct, lo, hi, ids[i]);
      assert ids[i] in ids;
    }
  }

  lemma NothingLatest(rows: seq<Row>, s: int, lo: int, hi: int)
    requires RangeQuery(rows, s, lo, hi) == []
    ensures LatestRead(rows, s, lo, hi) == None
  {
  }

  lemma ListTrue(rows: seq<Row>, s: int, lo: int, hi: int)
    requires forall r | r in rows :: MetaTrue(r)
    ensures forall r | r in Overlapping(rows, s, lo, hi) :: MetaTrue(r) && lo <= r.meta.maxTs
  {
    hide MetaTrue, Overlapping;
    forall r | r in Overlapping(rows, s, lo, hi) ensures MetaTrue(r) && lo <= r.meta.maxTs {
      OverlappingMember(rows, s, lo, hi, r);
    }
  }

  lemma WalkIsRead(rows: seq<Row>, s: int, lo: int, hi: int)
    ensures LatestIn(Gather(Overlapping(rows, s, lo, hi), lo, hi)) == LatestRead(rows, s, lo, hi)
  {
    hide LatestIn, Gather, StableSort;
    SortKeepsLatest(Gather(Overlapping(rows, s, lo, hi), lo, hi));
  }
}
