/** The write path of one connection: points buffered per series, stored when a
    threshold, the memory budget, a savepoint or the commit says so, and thrown
    away by a rollback. */
module TxnSession {
  import opened Sequences
  import opened Samples
  import opened ChunkTable
  import opened SeriesIndex
  import opened ChunkEncoding
  import opened Transactions
  import opened Scatter
  import opened BatchWrite

  const POINT_BYTES: nat := 16

  // ------------------------------------------------------------ counting points

  ghost function SumLen(m: Buffers): nat
    decreases |m|
  {
    if exists k :: k in m then
      var k :| k in m;
      assert m.Keys == (m - {k}).Keys + {k};
      |m[k]| + SumLen(m - {k})
    else 0
  }

  lemma {:induction false} SumLenAt(m: Buffers, k: int)
    requires k in m
    ensures SumLen(m) == |m[k]| + SumLen(m - {k})
    decreases |m|
  {
    var j :| j in m && SumLen(m) == |m[j]| + SumLen(m - {j});
    if j != k {
      assert m.Keys == (m - {j}).Keys + {j};
      assert m.Keys == (m - {k}).Keys + {k};
      SumLenAt(m - {j}, k);
      SumLenAt(m - {k}, j);
      assert (m - {j}) - {k} == (m - {k}) - {j};
    }
  }

  lemma SumLenUpdate(m: Buffers, k: int, points: seq<Sample>)
    ensures SumLen(m[k := points]) == SumLen(m) - (if k in m then |m[k]| else 0) + |points|
  {
    var n := m[k := points];
    SumLenAt(n, k);
    if k in m {
      SumLenAt(m, k);
      assert n - {k} == m - {k};
    } else {
      assert n - {k} == m;
    }
  }

  lemma {:induction false} SumLenSame(a: Buffers, b: Buffers)
    requires (forall k :: k in a <==> k in b) && forall k | k in a :: a[k] == b[k]
    ensures SumLen(a) == SumLen(b)
    decreases |a|
  {
    if k :| k in a {
      assert a.Keys == (a - {k}).Keys + {k};
      SumLenAt(a, k);
      SumLenAt(b, k);
      SumLenSame(a - {k}, b - {k});
    }
  }

  lemma SumLenNone(m: Buffers)
    requires forall k :: k !in m
    ensures SumLen(m) == 0
  {
  }

  ghost predicate Occupied(m: Buffers) {
    forall k | k in m :: m[k] != []
  }

  /** Nothing counted, nothing buffered. */
  lemma ZeroIsDrained(m: Buffers)
    requires Occupied(m) && SumLen(m) == 0
    ensures forall k :: k !in m
    ensures Drained(m)
  {
    forall k ensures k !in m {
      if k in m {
        SumLenAt(m, k);
      }
    }
  }

  method KeysOf(m: Buffers) returns (keys: seq<int>)
    ensures forall k :: k in keys <==> k in m
    ensures Distinct(keys)
  {
    keys := [];
    var rest := m.Keys;
    var more := true;
    while more
      invariant rest <= m.Keys
      invariant forall k :: k in keys <==> k in m && k !in rest
      invariant Distinct(keys)
      invariant !more ==> forall k :: k !in rest
      decreases more, |rest|
    {
      if k :| k in rest {
        keys := keys + [k];
        rest := rest - {k};
      } else {
        more := false;
      }
    }
  }

  // -------------------------------------------------------------------- batches

  /** The first point of a series that is not live, looked up once a series. */
  method FirstUnknown(points: seq<Write>, uniq: seq<int>, live: set<int>) returns (o: Option<nat>)
    requires uniq == FirstSeen(points)
    ensures match o
            case Some(i) =>
              && i < |points| && points[i].series !in live
              && (forall j | 0 <= j < i :: points[j].series in live)
            case None => forall i | 0 <= i < |points| :: points[i].series in live
  {
    FirstSeenShape(points);
    for d := 0 to |uniq|
      invariant forall e | 0 <= e < d :: uniq[e] in live
    {
      if uniq[d] !in live {
        var i, u := 0, uniq[d];
        assert u in uniq;
        while points[i].series != u
          invariant i < |points| && forall j | 0 <= j < i :: points[j].series != u
          invariant exists k :: i <= k < |points| && points[k].series == u
          decreases |points| - i
        {
          i := i + 1;
        }
        forall j | 0 <= j < i ensures points[j].series in live {
          EarlierLive(points, live, d, i, j);
        }
        return Some(i);
      }
    }
    o := None;
    forall i | 0 <= i < |points| ensures points[i].series in live {
      assert points[i].series in uniq;
    }
  }

  /** Before the first point of the first unknown series, every series is known. */
  lemma EarlierLive(points: seq<Write>, live: set<int>, d: nat, i: nat, j: nat)
    requires d < |FirstSeen(points)| && (forall e | 0 <= e < d :: FirstSeen(points)[e] in live)
    requires j < i <= |points| && forall k | 0 <= k < i :: points[k].series != FirstSeen(points)[d]
    ensures points[j].series in live
  {
    var uniq, early := FirstSeen(points), FirstSeen(points[..i]);
    FirstSeenPrefix(points, i);
    FirstSeenShape(points[..i]);
    assert points[..i][j].series in early;
    assert d < |early| ==> uniq[d] in early;
    NotSeen(points[..i], uniq[d]);
  }

  ghost predicate CoversAll(ids: seq<int>, starts: seq<nat>, flat: seq<Sample>) {
    |starts| == |ids| + 1 && starts[0] == 0 && starts[|ids|] == |flat|
  }

  ghost predicate NonFalling(starts: seq<nat>) {
    forall i, j | 0 <= i < j < |starts| :: starts[i] <= starts[j]
  }

  /** What lies between each start and the next. */
  ghost function CutRuns(ids: seq<int>, starts: seq<nat>, flat: seq<Sample>): (runs: seq<seq<Sample>>)
    requires CoversAll(ids, starts, flat) && NonFalling(starts)
    ensures |runs| == |ids| && forall d | 0 <= d < |ids| :: RunIs(flat, starts, d, runs[d])
  {
    seq(|ids|, d requires 0 <= d < |ids| => flat[starts[d]..starts[d + 1]])
  }

  lemma {:induction false} StartsRise(points: seq<Write>, uniq: seq<int>, starts: seq<nat>, flat: seq<Sample>, i: nat, j: nat)
    requires CoversAll(uniq, starts, flat) && forall d | 0 <= d < |uniq| :: RunIs(flat, starts, d, Of(points, uniq[d]))
    requires i < j < |starts|
    ensures starts[i] <= starts[j]
    decreases j
  {
    assert RunIs(flat, starts, j - 1, Of(points, uniq[j - 1]));
    if i < j - 1 {
      StartsRise(points, uniq, starts, flat, i, j - 1);
    }
  }

  lemma RunsCut(points: seq<Write>, uniq: seq<int>, starts: seq<nat>, flat: seq<Sample>)
    requires CoversAll(uniq, starts, flat) && forall d | 0 <= d < |uniq| :: RunIs(flat, starts, d, Of(points, uniq[d]))
    ensures NonFalling(starts)
    ensures forall d | 0 <= d < |uniq| :: CutRuns(uniq, starts, flat)[d] == Of(points, uniq[d])
  {
    forall i, j | 0 <= i < j < |starts| ensures starts[i] <= starts[j] {
      StartsRise(points, uniq, starts, flat, i, j);
    }
    var runs := CutRuns(uniq, starts, flat);
    forall d | 0 <= d < |uniq| ensures runs[d] == Of(points, uniq[d]) {
      assert RunIs(flat, starts, d, runs[d]) && RunIs(flat, starts, d, Of(points, uniq[d]));
    }
  }

  lemma OccupiedMore(m: Buffers, k: int, points: seq<Sample>)
    requires Occupied(m) && points != []
    ensures Occupied(m[k := points])
  {
  }

  /** A sample at the end of its series' buffer. */
  lemma PutSteps(a: Store, w: Write, now: seq<Sample>)
    requires a.saves != [] && now == (if w.series in a.buffers then a.buffers[w.series] else []) + [w.sample]
    ensures Steps(a, Put(w), a.(buffers := a.buffers[w.series := now]))
  {
  }

  ghost predicate MarksWait(queued: set<int>, queue: seq<int>, buffers: Buffers) {
    forall k | k in queued :: k in queue && k in buffers
  }

  // --------------------------------------------------------------- the session

  class Session {
    const flushThreshold: nat
    const minFlushSize: nat
    const memoryBudget: nat

    var rows: seq<Row>
    var saves: seq<Save>
    var buffers: Buffers
    var queued: set<int>
    var queue: seq<int>
    var memory: nat

    ghost function StoreOf(): Store
      reads this
    {
      Store(rows, buffers, saves)
    }

    ghost function PendingOf(): Pending
      reads this
    {
      Pending(buffers, queued, queue)
    }

    /** The rows are well formed with exact metadata, every buffer holds something, the memory
        counted is that of the points buffered, and a buffer is marked as queued
        only while it waits in the queue. */
    ghost predicate Valid()
      reads this
    {
      && ExactTable(rows)
      && (forall i | 0 <= i < |saves| :: ExactTable(saves[i].rows))
      && Occupied(buffers)
      && memory == 16 * SumLen(buffers)
      && (saves == [] ==> forall k :: k !in buffers)
      && MarksWait(queued, queue, buffers)
    }

    constructor (flushThreshold: nat, minFlushSize: nat, memoryBudget: nat)
      ensures Valid() && StoreOf() == Store([], map[], [])
      ensures Refines(StoreOf(), Spec([], []))
    {
      this.flushThreshold, this.minFlushSize, this.memoryBudget := flushThreshold, minFlushSize, memoryBudget;
      rows, saves, buffers, queued, queue, memory := [], [], map[], {}, [], 0;
      new;
      SumLenNone(buffers);
    }

    /** `write_point`: appended to its series' buffer, and the series queued
        once it reaches the threshold. */
    method WritePoint(series: int, sample: Sample)
      requires Valid() && saves != []
      modifies this`buffers, this`memory, this`queued, this`queue
      ensures Valid() && Steps(old(StoreOf()), Put(Write(series, sample)), StoreOf())
      ensures PendingOf() == Extend(old(PendingOf()), flushThreshold, series, [sample])
    {
      hide ExactTable, SumLen, Steps, Occupied;
      var was := if series in buffers then buffers[series] else [];
      var now := was + [sample];
      SumLenUpdate(buffers, series, now);
      OccupiedMore(buffers, series, now);
      PutSteps(StoreOf(), Write(series, sample), now);
      buffers := buffers[series := now];
      memory := memory + POINT_BYTES;
      if |now| >= flushThreshold && series !in queued {
        queued := queued + {series};
        queue := queue + [series];
      }
    }

    /** One series' share of a batch: its run appended in one piece. */
    method AppendRun(series: int, run: seq<Sample>)
      requires Valid() && saves != []
      modifies this`buffers, this`memory, this`queued, this`queue
      ensures Valid() && PendingOf() == Extend(old(PendingOf()), flushThreshold, series, run)
    {
      hide ExactTable, SumLen;
      if run == [] {
        return;
      }
      var was := if series in buffers then buffers[series] else [];
      var now := was + run;
      SumLenUpdate(buffers, series, now);
      buffers := buffers[series := now];
      memory := memory + POINT_BYTES * |run|;
      if |now| >= flushThreshold && series !in queued {
        queued := queued + {series};
        queue := queue + [series];
      }
    }

    /** `write_batch_partitioned`: the starts have to cover the samples; then
        every run goes to its series. Starts that fall would stop the program. */
    method WriteBatchPartitioned(ids: seq<int>, starts: seq<nat>, flat: seq<Sample>) returns (ok: bool)
      requires Valid() && saves != []
      requires CoversAll(ids, starts, flat) ==> NonFalling(starts)
      modifies this`buffers, this`memory, this`queued, this`queue
      ensures Valid() && ok == CoversAll(ids, starts, flat)
      ensures PendingOf() == if ok then PutRuns(old(PendingOf()), flushThreshold, ids, CutRuns(ids, starts, flat), |ids|)
                             else old(PendingOf())
    {
      if |starts| != |ids| + 1 || starts[|ids|] != |flat| || starts[0] != 0 {
        return false;
      }
      ghost var runs := CutRuns(ids, starts, flat);
      for d := 0 to |ids|
        invariant Valid() && saves == old(saves) && PendingOf() == PutRuns(old(PendingOf()), flushThreshold, ids, runs, d)
      {
        hide Valid, Extend;
        AppendRun(ids[d], flat[starts[d]..starts[d + 1]]);
      }
      ok := true;
    }

    /** `ingest_resolved_batch` up to the buffers: a point of an unknown series
        rejects the batch before anything is written, and the first one is named;
        otherwise the points are as if put one at a time. */
    method PutResolved(points: seq<Write>, live: set<int>) returns (unknown: Option<nat>)
      requires Valid() && saves != []
      modifies this`buffers, this`memory, this`queued, this`queue
      ensures Valid()
      ensures match unknown
              case Some(i) =>
                && i < |points| && points[i].series !in live
                && (forall j | 0 <= j < i :: points[j].series in live)
                && PendingOf() == old(PendingOf())
              case None =>
                && (forall i | 0 <= i < |points| :: points[i].series in live)
                && SamePending(PendingOf(), PutEach(old(PendingOf()), flushThreshold, points))
    {
      hide Valid, SamePending, PutEach, Numbered, RunIs, Of;
      var dense, uniq := Intern(points);
      unknown := FirstUnknown(points, uniq, live);
      if unknown.Some? {
        return;
      }
      var starts, flat := ScatterPoints(points, dense, uniq);
      RunsCut(points, uniq, starts, flat);
      ghost var runs := CutRuns(uniq, starts, flat);
      var ok := WriteBatchPartitioned(uniq, starts, flat);
      FirstSeenShape(points);
      BatchIsPointwise(old(PendingOf()), flushThreshold, points, uniq, runs);
    }

    /** `ingest_resolved_batch` as a whole, with what is stored after it: a
        rejected batch leaves the transaction as it was, an accepted one adds its
        points to the log. */
    method IngestResolved(points: seq<Write>, live: set<int>, size: seq<Sample> -> nat) returns (unknown: Option<nat>)
      requires Valid() && saves != []
      modifies this`rows, this`buffers, this`memory, this`queued, this`queue
      ensures Valid()
      ensures unknown.Some? <==> exists i :: 0 <= i < |points| && points[i].series !in live
      ensures unknown.Some? ==> StoreOf() == old(StoreOf())
      ensures unknown.None? ==> memory <= memoryBudget && queue == [] && forall k :: k !in queued
      ensures unknown.None? ==>
                forall sp | Refines(old(StoreOf()), sp) :: Refines(StoreOf(), Spec(sp.log + points, sp.saves))
    {
      hide Valid, SamePending, PutEach, Refines, Flushes, Appended;
      ghost var was := PendingOf();
      unknown := PutResolved(points, live);
      if unknown.Some? {
        return;
      }
      HeldAppended(was, flushThreshold, points, PendingOf());
      ghost var put := StoreOf();
      FlushPending(size);
      ghost var mid := StoreOf();
      FlushByMemory(size);
      forall sp | Refines(old(StoreOf()), sp) ensures Refines(StoreOf(), Spec(sp.log + points, sp.saves)) {
        BatchRefines(old(StoreOf()), put.buffers, points, sp);
        var after := Spec(sp.log + points, sp.saves);
        FlushRefines(put, mid, after);
        FlushRefines(mid, StoreOf(), after);
      }
    }

    /** `drain_partition_if`: the whole of a buffer, if it is there and long
        enough. */
    method DrainPartition(key: int, atLeast: nat) returns (points: seq<Sample>)
      requires Valid()
      modifies this`buffers, this`memory, this`queued
      ensures Valid()
      ensures if key in old(buffers) && |old(buffers)[key]| >= atLeast
              then points == old(buffers)[key] && buffers == old(buffers) - {key} && points != []
                   && memory == old(memory) - POINT_BYTES * |points| && queued == old(queued) - {key}
              else points == [] && buffers == old(buffers) && memory == old(memory) && queued == old(queued)
    {
      hide ExactTable, SumLen;
      if key !in buffers || |buffers[key]| < atLeast {
        return [];
      }
      SumLenAt(buffers, key);
      points := buffers[key];
      buffers := buffers - {key};
      queued := queued - {key};
      memory := memory - POINT_BYTES * |points|;
    }

    /** The buffers of `keys` that are long enough become rows, one each, all
        written together; those too short are no longer marked as queued. */
    method FlushKeys(keys: seq<int>, atLeast: nat, size: seq<Sample> -> nat)
      requires Valid()
      modifies this`rows, this`buffers, this`memory, this`queued
      ensures Valid() && Flushes(old(StoreOf()), StoreOf())
      ensures old(rows) <= rows && AreBuffers(rows[|old(rows)|..], old(buffers), buffers)
      ensures Shrunk(buffers, old(buffers), keys, atLeast)
      ensures StrictlyAscending(keys) ==> BySeries(rows[|old(rows)|..])
      ensures forall k :: k in queued <==> k in old(queued) && k !in keys
    {
      ghost var was := buffers;
      var batch: seq<Row> := [];
      NothingMoved(was, rows, atLeast);
      assert BySeries([]) && OfKeys([], keys[..0]);
      for i := 0 to |keys|
        invariant Valid() && rows == old(rows) && saves == old(saves)
        invariant Follows(rows, batch) && Moved(batch, buffers, was) && AreBuffers(batch, was, buffers)
        invariant Shrunk(buffers, was, keys[..i], atLeast)
        invariant StrictlyAscending(keys) ==> BySeries(batch) && OfKeys(batch, keys[..i])
        invariant forall k :: k in queued <==> k in old(queued) && k !in keys[..i]
      {
        hide *;
        var key := keys[i];
        assert keys[..i + 1] == keys[..i] + [key];
        ghost var before := buffers;
        var points := DrainPartition(key, atLeast);
        if points != [] {
          var row := EncodePartition(NextId(rows) + |batch|, key, points, Pco, size);
          FollowsMore(rows, batch, row.value);
          MovedOne(batch, before, was, key, row.value);
          ShrunkAt(before, was, keys[..i], atLeast, key);
          AreBuffersMore(batch, was, before, key, row.value);
          BySeriesMore(batch, keys, i, row.value);
          batch := batch + [row.value];
        } else {
          ClearQueued(key);
          OfKeysMore(batch, keys, i);
        }
        ShrunkOne(before, buffers, was, keys[..i], key, atLeast);
      }
      assert keys[..|keys|] == keys;
      FollowsTable(rows, batch);
      ghost var a := StoreOf();
      rows := rows + batch;
      assert rows[|a.rows|..] == batch;
      BatchStored(a.rows, batch, was, buffers, saves);
    }

    /** `clear_flush_queued`. */
    method ClearQueued(key: int)
      requires Valid()
      modifies this`queued
      ensures Valid() && queued == old(queued) - {key}
    {
      hide ExactTable, SumLen;
      queued := queued - {key};
    }

    /** `flush_pending`: the queue is emptied; of the series in it those with at
        least `minFlushSize` points are stored, and none stays marked. */
    method FlushPending(size: seq<Sample> -> nat)
      requires Valid()
      modifies this`rows, this`buffers, this`memory, this`queued, this`queue
      ensures Valid() && Flushes(old(StoreOf()), StoreOf())
      ensures old(rows) <= rows && AreBuffers(rows[|old(rows)|..], old(buffers), buffers)
      ensures queue == [] && forall k :: k !in queued
      ensures Shrunk(buffers, old(buffers), old(queue), minFlushSize)
    {
      var keys := queue;
      if keys == [] {
        NothingMoved(buffers, rows, minFlushSize);
        return;
      }
      FlushKeys(keys, minFlushSize, size);
      queue := [];
    }

    /** `flush_by_memory`: over the budget, buffers are stored, the longest
        first, until enough is freed. */
    method FlushByMemory(size: seq<Sample> -> nat)
      requires Valid()
      modifies this`rows, this`buffers, this`memory, this`queued
      ensures Valid() && Flushes(old(StoreOf()), StoreOf())
      ensures old(rows) <= rows && AreBuffers(rows[|old(rows)|..], old(buffers), buffers)
      ensures memory <= memoryBudget && forall k | k in queued :: k in old(queued)
      ensures old(memory) <= memoryBudget ==> buffers == old(buffers)
      ensures forall k | k in buffers :: k in old(buffers) && buffers[k] == old(buffers)[k]
      ensures forall a, b | a in old(buffers) && a !in buffers && b in buffers ::
                |old(buffers)[a]| >= |buffers[b]|
      ensures old(memory) > memoryBudget ==> exists a ::
                && a in old(buffers) && a !in buffers
                && memory + POINT_BYTES * |old(buffers)[a]| > memoryBudget
    {
      if memory <= memoryBudget {
        return;
      }
      hide ExactTable, SumLen, Sum, Flushes, Occupied, MarksWait, Distinct;
      ghost var was := buffers;
      var keys := KeysOf(buffers);
      var chosen := Longest(buffers, keys, memory - memoryBudget);
      FlushKeys(chosen, 0, size);
      SumLenRest(was, buffers, chosen);
      EnoughFreed(was, buffers, chosen, old(memory), memory, memoryBudget);
      LastNeeded(was, buffers, chosen, old(memory), memory, memoryBudget);
      LongestGone(was, buffers, chosen);
    }

    /** `flush_all`: every buffer, in series order; counted empty, nothing is
        walked. */
    method FlushAll(size: seq<Sample> -> nat)
      requires Valid()
      modifies this`rows, this`buffers, this`memory, this`queued
      ensures Valid() && FlushesAll(old(StoreOf()), StoreOf())
      ensures old(rows) <= rows && AreBuffers(rows[|old(rows)|..], old(buffers), buffers)
      ensures BySeries(rows[|old(rows)|..])
      ensures forall k :: k !in buffers
      ensures memory == 0
    {
      if memory == 0 {
        ZeroIsDrained(buffers);
        return;
      }
      var found := KeysOf(buffers);
      var keys := SortedIds(found);
      SortedIdsProperties(found);
      ghost var was := buffers;
      FlushKeys(keys, 1, size);
      NoneLeft(was, buffers, keys);
      SumLenNone(buffers);
    }

    method ClearBuffers()
      requires ExactTable(rows) && forall i | 0 <= i < |saves| :: ExactTable(saves[i].rows)
      modifies this`buffers, this`memory, this`queued, this`queue
      ensures Valid() && buffers == map[] && memory == 0
    {
      buffers, queued, queue, memory := map[], {}, [], 0;
      SumLenNone(buffers);
    }

    // The host's hooks.

    method TxnBegin()
      requires Valid() && saves == []
      modifies this`saves
      ensures Valid() && Steps(old(StoreOf()), Begin, StoreOf())
    {
      saves := [Save(None, rows)];
    }

    /** What is buffered is stored before the savepoint opens, so that its copy
        has it. */
    method TxnSavepoint(id: int, size: seq<Sample> -> nat)
      requires Valid() && saves != []
      modifies this
      ensures Valid() && Steps(old(StoreOf()), Savepoint(id), StoreOf())
    {
      hide ExactTable, SumLen, Contents, Buffered;
      ghost var a := StoreOf();
      FlushAll(size);
      ghost var mid := StoreOf();
      saves := saves + [Save(Some(id), rows)];
      assert FlushesAll(a, mid) && StoreOf() == mid.(saves := mid.saves + [Save(Some(id), mid.rows)]);
    }

    method TxnRelease(id: int)
      requires Valid()
      modifies this`saves
      ensures Valid() && Steps(old(StoreOf()), Release(id), StoreOf())
    {
      var pos := Find(saves, id);
      if pos.Some? && pos.value > 0 {
        saves := saves[..pos.value];
      }
    }

    method TxnRollbackTo(id: int)
      requires Valid()
      modifies this
      ensures Valid() && Steps(old(StoreOf()), RollbackTo(id), StoreOf())
    {
      hide ExactTable, SumLen;
      var pos := Find(saves, id);
      if pos.None? {
        return;
      }
      rows := saves[pos.value].rows;
      saves := saves[..pos.value + 1];
      ClearBuffers();
    }

    method TxnRollback()
      requires Valid()
      modifies this
      ensures Valid() && Steps(old(StoreOf()), Rollback, StoreOf())
      ensures memory == 0 || old(saves) == []
    {
      hide ExactTable, SumLen;
      if saves == [] {
        return;
      }
      rows := saves[0].rows;
      saves := [];
      ClearBuffers();
    }

    /** Sync and commit: the points become rows inside the transaction. */
    method TxnCommit(size: seq<Sample> -> nat)
      requires Valid() && saves != []
      modifies this
      ensures Valid() && Steps(old(StoreOf()), Commit, StoreOf())
      ensures memory == 0 && forall k :: k !in buffers
    {
      hide ExactTable, SumLen, Contents, Buffered;
      ghost var a := StoreOf();
      FlushAll(size);
      ghost var mid := StoreOf();
      saves := [];
      assert FlushesAll(a, mid) && StoreOf() == mid.(saves := []);
    }
  }

  // ------------------------------------------------------------------- helpers

  /** Rows numbered on from a table's, with exact metadata. */
  ghost predicate Follows(rows: seq<Row>, batch: seq<Row>) {
    forall i | 0 <= i < |batch| ::
      batch[i].id == NextId(rows) + i && WellFormed(batch[i]) && ExactMeta(batch[i].meta, batch[i].points)
  }

  /** Each row is the whole of a buffer that is there no more, compressed. */
  ghost predicate AreBuffers(batch: seq<Row>, was: Buffers, now: Buffers) {
    forall r | r in batch ::
      && r.series in was && r.series !in now
      && multiset(r.points) == multiset(was[r.series]) && r.enc == Pco
  }

  lemma AreBuffersMore(batch: seq<Row>, was: Buffers, before: Buffers, key: int, row: Row)
    requires AreBuffers(batch, was, before) && key in before && key in was && before[key] == was[key]
    requires row.series == key && multiset(row.points) == multiset(before[key]) && row.enc == Pco
    ensures AreBuffers(batch + [row], was, before - {key})
  {
  }

  ghost predicate BySeries(batch: seq<Row>) {
    forall i, j | 0 <= i < j < |batch| :: batch[i].series < batch[j].series
  }

  ghost predicate OfKeys(batch: seq<Row>, keys: seq<int>) {
    forall r | r in batch :: r.series in keys
  }

  lemma OfKeysMore(batch: seq<Row>, keys: seq<int>, i: nat)
    requires i < |keys|
    ensures OfKeys(batch, keys[..i]) ==> OfKeys(batch, keys[..i + 1])
  {
    assert keys[..i + 1] == keys[..i] + [keys[i]];
  }

  lemma BySeriesMore(batch: seq<Row>, keys: seq<int>, i: nat, row: Row)
    requires i < |keys| && row.series == keys[i]
    requires StrictlyAscending(keys) ==> BySeries(batch) && OfKeys(batch, keys[..i])
    ensures StrictlyAscending(keys) ==> BySeries(batch + [row]) && OfKeys(batch + [row], keys[..i + 1])
  {
    if StrictlyAscending(keys) {
      OfKeysMore(batch, keys, i);
      assert keys[..i + 1] == keys[..i] + [keys[i]];
      forall k | 0 <= k < |batch| ensures batch[k].series < row.series {
        assert batch[k] in batch;
        var j :| 0 <= j < i && keys[..i][j] == batch[k].series;
        assert keys[j] == batch[k].series;
      }
    }
  }

  lemma ShrunkAt(now: Buffers, was: Buffers, keys: seq<int>, atLeast: nat, key: int)
    requires Shrunk(now, was, keys, atLeast) && key in now
    ensures key in was && now[key] == was[key]
  {
  }

  lemma FollowsMore(rows: seq<Row>, batch: seq<Row>, row: Row)
    requires Follows(rows, batch) && row.id == NextId(rows) + |batch| && WellFormed(row)
    requires row.points != [] && ExactMeta(row.meta, row.points)
    ensures Follows(rows, batch + [row])
  {
    hide WellFormed, NextId, ExactMeta;
  }

  lemma FollowsTable(rows: seq<Row>, batch: seq<Row>)
    requires ExactTable(rows) && Follows(rows, batch)
    ensures ExactTable(rows + batch)
  {
    hide WellFormed, ExactMeta;
    var all := rows + batch;
    forall i, j | 0 <= i < j < |all| ensures all[i].id < all[j].id {
      if i < |rows| <= j {
        assert rows[i].id < NextId(rows);
      }
    }
  }

  lemma NoneLeft(was: Buffers, now: Buffers, keys: seq<int>)
    requires Occupied(was) && forall k :: k in keys <==> k in was
    requires Shrunk(now, was, keys, 1)
    ensures forall k :: k !in now
    ensures Drained(now)
  {
  }

  /** Rows and buffers together hold what the buffers held. */
  ghost predicate Moved(batch: seq<Row>, now: Buffers, was: Buffers) {
    forall s :: Contents(batch, s) + Buffered(now, s) == Buffered(was, s)
  }

  /** What is left: the buffers not asked for, and those too short. */
  ghost predicate Shrunk(now: Buffers, was: Buffers, keys: seq<int>, atLeast: nat) {
    && (forall k :: k in now <==> k in was && (k !in keys || |was[k]| < atLeast))
    && (forall k | k in now :: now[k] == was[k])
  }

  lemma NothingMoved(was: Buffers, rows: seq<Row>, atLeast: nat)
    ensures Moved([], was, was) && Shrunk(was, was, [], atLeast) && Follows(rows, [])
  {
  }

  lemma BufferedAt(m: Buffers, key: int)
    requires key in m
    ensures Buffered(m, key) == multiset(m[key])
  {
  }

  lemma BufferedRest(m: Buffers, key: int, s: int)
    ensures Buffered(m - {key}, s) == if s == key then multiset{} else Buffered(m, s)
  {
  }

  lemma MovedOne(batch: seq<Row>, before: Buffers, was: Buffers, key: int, row: Row)
    requires Moved(batch, before, was) && key in before
    requires row.series == key && multiset(row.points) == multiset(before[key])
    ensures Moved(batch + [row], before - {key}, was)
  {
    hide Contents, Buffered;
    BufferedAt(before, key);
    forall s ensures Contents(batch + [row], s) + Buffered(before - {key}, s) == Buffered(was, s) {
      assert Contents(batch, s) + Buffered(before, s) == Buffered(was, s);
      ContentsConcat(batch, [row], s);
      ContentsOne(row, s);
      BufferedRest(before, key, s);
      if s == row.series {
        assert Buffered(before, s) == multiset(row.points);
      }
    }
  }

  lemma ShrunkOne(before: Buffers, now: Buffers, was: Buffers, done: seq<int>, key: int, atLeast: nat)
    requires Shrunk(before, was, done, atLeast)
    requires now == if key in before && |before[key]| >= atLeast then before - {key} else before
    ensures Shrunk(now, was, done + [key], atLeast)
  {
    forall k ensures k in now <==> k in was && (k !in done + [key] || |was[k]| < atLeast) {
      assert k in done + [key] <==> k in done || k == key;
    }
  }

  lemma BatchStored(rows: seq<Row>, batch: seq<Row>, was: Buffers, now: Buffers, saves: seq<Save>)
    requires Moved(batch, now, was)
    ensures Flushes(Store(rows, was, saves), Store(rows + batch, now, saves))
  {
    hide Contents, Buffered;
    forall s ensures Visible(Store(rows + batch, now, saves), s) == Visible(Store(rows, was, saves), s) {
      ContentsConcat(rows, batch, s);
      assert Contents(batch, s) + Buffered(now, s) == Buffered(was, s);
    }
  }

  function LenIn(m: Buffers, k: int): int {
    if k in m then |m[k]| else 0
  }

  /** Taking out some buffers takes out their points. */
  lemma {:induction false} SumLenRest(was: Buffers, now: Buffers, keys: seq<int>)
    requires Distinct(keys) && (forall k | k in keys :: k in was) && Shrunk(now, was, keys, 0)
    ensures SumLen(was) == SumLen(now) + Sum(keys, (k: int) => LenIn(was, k))
    decreases |keys|
  {
    hide SumLen;
    var f := (k: int) => LenIn(was, k);
    if keys == [] {
      SumLenSame(now, was);
    } else {
      var t, k := keys[..|keys| - 1], keys[|keys| - 1];
      assert keys == t + [k] && k in keys;
      assert k !in t;
      var mid := now[k := was[k]];
      assert Shrunk(mid, was, t, 0) by {
        forall q ensures q in mid <==> q in was && (q !in t || |was[q]| < 0) {
          assert q in keys <==> q in t || q == k;
        }
      }
      SumLenRest(was, mid, t);
      SumLenUpdate(now, k, was[k]);
    }
  }

  lemma OneMoreChosen(m: Buffers, chosen: seq<int>, k: int)
    requires k in m
    ensures Sum(chosen + [k], (k: int) => LenIn(m, k)) == Sum(chosen, (k: int) => LenIn(m, k)) + |m[k]|
    ensures (chosen + [k])[..|chosen|] == chosen
  {
    var f := (k: int) => LenIn(m, k);
    SumConcat(chosen, [k], f);
    SumOne(k, f);
  }

  /** The longest buffers, until their bytes make up `overage`. */
  method Longest(m: Buffers, keys: seq<int>, overage: int) returns (chosen: seq<int>)
    requires Distinct(keys) && forall k :: k in keys <==> k in m
    ensures Distinct(chosen) && forall k | k in chosen :: k in m
    ensures (forall k | k in m :: k in chosen) || POINT_BYTES * Sum(chosen, (k: int) => LenIn(m, k)) >= overage
    ensures forall a, b | a in chosen && b in m && b !in chosen :: LenIn(m, a) >= LenIn(m, b)
    ensures chosen != [] ==> POINT_BYTES * Sum(chosen[..|chosen| - 1], (k: int) => LenIn(m, k)) < overage
    ensures overage > 0 && (exists k :: k in m) ==> chosen != []
  {
    hide Sum, Distinct, LenIn;
    var f := (k: int) => LenIn(m, k);
    var sorted := LongestFirst(m, keys);
    SumNone(f);
    chosen := [];
    var freed := 0;
    var i := 0;
    while i < |sorted| && freed < overage
      invariant i <= |sorted| && chosen == sorted[..i]
      invariant freed == POINT_BYTES * Sum(chosen, f)
      invariant chosen != [] ==> POINT_BYTES * Sum(chosen[..|chosen| - 1], f) < overage
    {
      var k := sorted[i];
      assert sorted[..i + 1] == sorted[..i] + [k];
      assert k in sorted;
      OneMoreChosen(m, chosen, k);
      freed := freed + POINT_BYTES * |m[k]|;
      chosen := chosen + [k];
      i := i + 1;
    }
    assert i == |sorted| ==> chosen == sorted;
    DistinctFront(sorted, i);
    forall a, b | a in chosen && b in m && b !in chosen ensures LenIn(m, a) >= LenIn(m, b) {
      FrontLonger(m, sorted, i, a, b);
    }
  }

  lemma DistinctFront(s: seq<int>, i: nat)
    requires Distinct(s) && i <= |s|
    ensures Distinct(s[..i])
  {
  }

  lemma FrontLonger(m: Buffers, sorted: seq<int>, i: nat, a: int, b: int)
    requires i <= |sorted| && a in sorted[..i] && b in sorted && b !in sorted[..i]
    requires forall p, q | 0 <= p < q < |sorted| :: LenIn(m, sorted[p]) >= LenIn(m, sorted[q])
    ensures LenIn(m, a) >= LenIn(m, b)
  {
    var p :| 0 <= p < i && sorted[p] == a;
    assert forall r | 0 <= r < i :: sorted[r] in sorted[..i];
    var q :| 0 <= q < |sorted| && sorted[q] == b;
  }

  lemma EnoughFreed(was: Buffers, now: Buffers, chosen: seq<int>, before: nat, memory: nat, budget: nat)
    requires before == POINT_BYTES * SumLen(was) && memory == POINT_BYTES * SumLen(now) && Shrunk(now, was, chosen, 0)
    requires SumLen(was) == SumLen(now) + Sum(chosen, (k: int) => LenIn(was, k))
    requires (forall k | k in was :: k in chosen) || POINT_BYTES * Sum(chosen, (k: int) => LenIn(was, k)) >= before - budget
    ensures memory <= budget
  {
    hide SumLen, Sum;
    if forall k | k in was :: k in chosen {
      SumLenNone(now);
    }
  }

  /** What was stored is no shorter than what was kept. */
  lemma LongestGone(was: Buffers, now: Buffers, chosen: seq<int>)
    requires Shrunk(now, was, chosen, 0) && forall a, b | a in chosen && b in was && b !in chosen :: LenIn(was, a) >= LenIn(was, b)
    ensures forall k | k in now :: k in was && now[k] == was[k]
    ensures forall a, b | a in was && a !in now && b in now :: |was[a]| >= |now[b]|
  {
    forall a, b | a in was && a !in now && b in now ensures |was[a]| >= |now[b]| {
      assert a in chosen && b !in chosen;
      assert LenIn(was, a) >= LenIn(was, b);
    }
  }

  /** Without the last of the buffers stored, too much would be left. */
  lemma LastNeeded(was: Buffers, now: Buffers, chosen: seq<int>, before: nat, memory: nat, budget: nat)
    requires before > budget && before == POINT_BYTES * SumLen(was) && memory == POINT_BYTES * SumLen(now)
    requires Distinct(chosen) && (forall k | k in chosen :: k in was) && Shrunk(now, was, chosen, 0)
    requires SumLen(was) == SumLen(now) + Sum(chosen, (k: int) => LenIn(was, k))
    requires chosen != [] ==> POINT_BYTES * Sum(chosen[..|chosen| - 1], (k: int) => LenIn(was, k)) < before - budget
    requires (exists k :: k in was) ==> chosen != []
    ensures exists a :: a in was && a !in now && memory + POINT_BYTES * |was[a]| > budget
  {
    hide SumLen, Sum;
    var f := (k: int) => LenIn(was, k);
    if forall k :: k !in was {
      SumLenNone(was);
      assert false;
    }
    var t, a := chosen[..|chosen| - 1], chosen[|chosen| - 1];
    assert chosen == t + [a] && a in chosen;
    SumConcat(t, [a], f);
    SumOne(a, f);
    assert a in was && a !in now;
  }

  method LongestFirst(m: Buffers, keys: seq<int>) returns (sorted: seq<int>)
    requires Distinct(keys) && forall k :: k in keys <==> k in m
    ensures Distinct(sorted) && forall k :: k in sorted <==> k in m
    ensures forall i, j | 0 <= i < j < |sorted| :: LenIn(m, sorted[i]) >= LenIn(m, sorted[j])
  {
    var order := (a: int, b: int) => LenIn(m, a) >= LenIn(m, b);
    sorted := SortBy(keys, order);
    SortByMembers(keys, order);
    SortedDistinct(keys, order);
    assert TotalPreorder(order);
    SortByAscending(keys, order);
    forall i, j | 0 <= i < j < |sorted| ensures LenIn(m, sorted[i]) >= LenIn(m, sorted[j]) {
      assert order(sorted[i], sorted[j]);
    }
  }

  lemma SortedDistinct(keys: seq<int>, order: (int, int) -> bool)
    requires Distinct(keys)
    ensures Distinct(SortBy(keys, order))
  {
    SortByMultiset(keys, order);
    DistinctCount(keys);
    DistinctCount(SortBy(keys, order));
  }
}
