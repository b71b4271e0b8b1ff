/** Totals that are moved rather than read again: what a held total says is
    what the rows say, over every run of writes. */
module Totals {
  import opened Sequences
  import opened Samples
  import opened ChunkTable
  import opened CompactionPlanner
  import opened CompactionExec
  import RollupStore

  /** Chunks, points, oldest and newest timestamp of the raw rows. */
  datatype RawTotals = RawTotals(count: int, points: int, oldest: Option<int>, newest: Option<int>)

  /** Rollup chunks, and those of one bucket. */
  datatype RollupTotals = RollupTotals(count: int, single: int)

  function PointCount(r: Row): int {
    r.meta.count
  }

  function Lower(a: Option<int>, ts: int): Option<int> {
    match a
    case None => Some(ts)
    case Some(v) => Some(if ts < v then ts else v)
  }

  function Upper(a: Option<int>, ts: int): Option<int> {
    match a
    case None => Some(ts)
    case Some(v) => Some(if ts > v then ts else v)
  }

  function Oldest(rows: seq<Row>): Option<int> {
    if rows == [] then None else Lower(Oldest(rows[..|rows| - 1]), rows[|rows| - 1].meta.minTs)
  }

  function Newest(rows: seq<Row>): Option<int> {
    if rows == [] then None else Upper(Newest(rows[..|rows| - 1]), rows[|rows| - 1].meta.maxTs)
  }

  /** The aggregate over every raw row. */
  function RawOf(rows: seq<Row>): RawTotals {
    RawTotals(|rows|, Sum(rows, PointCount), Oldest(rows), Newest(rows))
  }

  function SingleOf(c: RollupStore.Chunk): int {
    if |c.buckets| == 1 then 1 else 0
  }

  function RolledOf(rolls: seq<RollupStore.Chunk>): RollupTotals {
    RollupTotals(|rolls|, Sum(rolls, SingleOf))
  }

  /** What the totals say: how many rows and how many samples in all; how many
      rollup chunks and how many of them hold one bucket. */
  lemma {:induction false} TotalsMean(rows: seq<Row>, rolls: seq<RollupStore.Chunk>)
    requires forall r | r in rows :: r.meta.count == |r.points|
    ensures RawOf(rows).count == |rows| && RawOf(rows).points == |AllSamples(rows)|
    ensures RolledOf(rolls).count == |rolls|
    ensures RolledOf(rolls).single == |Filter(rolls, (c: RollupStore.Chunk) => |c.buckets| == 1)|
    decreases |rows| + |rolls|
  {
    hide Oldest, Newest;
    if rows != [] {
      var t := rows[..|rows| - 1];
      assert rows == t + [rows[|rows| - 1]];
      assert forall r | r in t :: r in rows;
      assert rows[|rows| - 1] in rows;
      TotalsMean(t, rolls);
    } else if rolls != [] {
      TotalsMean(rows, rolls[..|rolls| - 1]);
    }
  }

  /** Every sample of every row. */
  function AllSamples(rows: seq<Row>): seq<Sample> {
    if rows == [] then [] else AllSamples(rows[..|rows| - 1]) + rows[|rows| - 1].points
  }

  // -------------------------------------------------------------- moving them

  /** The held total after rows came and went: none where nothing is left, or
      more went than was counted. */
  function Moved(held: Option<RawTotals>, added: seq<Row>, removedChunks: nat, removedPoints: nat): Option<RawTotals> {
    match held
    case None => None
    case Some(h) =>
      var count, points := h.count + |added| - removedChunks, h.points + Sum(added, PointCount) - removedPoints;
      if count > 0 && points >= 0 then
        Some(RawTotals(count, points, OldestWith(h.oldest, added), NewestWith(h.newest, added)))
      else None
  }

  function OldestWith(a: Option<int>, added: seq<Row>): Option<int> {
    if added == [] then a else Lower(OldestWith(a, added[..|added| - 1]), added[|added| - 1].meta.minTs)
  }

  function NewestWith(a: Option<int>, added: seq<Row>): Option<int> {
    if added == [] then a else Upper(NewestWith(a, added[..|added| - 1]), added[|added| - 1].meta.maxTs)
  }

  function RolledMoved(held: Option<RollupTotals>, added: RollupTotals, removed: RollupTotals): Option<RollupTotals> {
    match held
    case None => None
    case Some(h) =>
      var count, single := h.count + added.count - removed.count, h.single + added.single - removed.single;
      if count >= 0 && single >= 0 then Some(RollupTotals(count, single)) else None
  }

  /** A held total is moved, not forgotten, unless nothing is left or more went
      than was counted. */
  lemma MovedStays(h: RawTotals, added: seq<Row>, removedChunks: nat, removedPoints: nat)
    ensures Moved(Some(h), added, removedChunks, removedPoints).None? <==>
            h.count + |added| <= removedChunks || h.points + Sum(added, PointCount) < removedPoints
  {
    hide Sum;
  }

  lemma RolledMovedStays(h: RollupTotals, added: RollupTotals, removed: RollupTotals)
    ensures RolledMoved(Some(h), added, removed).None? <==>
            h.count + added.count < removed.count || h.single + added.single < removed.single
  {
  }

  /** The engine's two caches. */
  class Cached {
    var raw: Option<RawTotals>
    var rolled: Option<RollupTotals>

    constructor ()
      ensures raw == None && rolled == None
    {
      raw, rolled := None, None;
    }

    /** `chunk_totals`: read once, then held. */
    method ChunkTotals(rows: seq<Row>) returns (t: RawTotals)
      modifies this`raw
      ensures t == if old(raw).Some? then old(raw).value else RawOf(rows)
      ensures raw == Some(t)
    {
      if raw.None? {
        raw := Some(RawOf(rows));
      }
      t := raw.value;
    }

    /** `chunks_moved`. */
    method ChunksMoved(added: seq<Row>, removedChunks: nat, removedPoints: nat)
      modifies this`raw
      ensures raw == Moved(old(raw), added, removedChunks, removedPoints)
    {
      if raw.None? {
        return;
      }
      var RawTotals(count, points, oldest, newest) := raw.value;
      for i := 0 to |added|
        invariant count == raw.value.count + i && points == raw.value.points + Sum(added[..i], PointCount)
        invariant oldest == OldestWith(raw.value.oldest, added[..i])
        invariant newest == NewestWith(raw.value.newest, added[..i])
      {
        assert added[..i + 1][..i] == added[..i];
        count := count + 1;
        points := points + added[i].meta.count;
        oldest := Lower(oldest, added[i].meta.minTs);
        newest := Upper(newest, added[i].meta.maxTs);
      }
      assert added[..|added|] == added;
      if count - removedChunks > 0 && points - removedPoints >= 0 {
        raw := Some(RawTotals(count - removedChunks, points - removedPoints, oldest, newest));
      } else {
        raw := None;
      }
    }

    /** `chunks_changed`. */
    method ChunksChanged()
      modifies this
      ensures raw == None && rolled == None
    {
      raw, rolled := None, None;
    }

    /** `rollups_moved`. */
    method RollupsMoved(added: RollupTotals, removed: RollupTotals)
      modifies this`rolled
      ensures rolled == RolledMoved(old(rolled), added, removed)
    {
      if rolled.Some? {
        var count := rolled.value.count + added.count - removed.count;
        var single := rolled.value.single + added.single - removed.single;
        rolled := if count >= 0 && single >= 0 then Some(RollupTotals(count, single)) else None;
      }
    }
  }

  // ------------------------------------------------- oldest and newest stand

  lemma {:induction false} OldestConcat(a: seq<Row>, b: seq<Row>)
    ensures OldestWith(Oldest(a), b) == Oldest(a + b)
    ensures NewestWith(Newest(a), b) == Newest(a + b)
  {
    if b == [] {
      assert a + b == a;
    } else {
      var t := b[..|b| - 1];
      assert (a + b)[..|a + b| - 1] == a + t;
      OldestConcat(a, t);
    }
  }

  lemma {:induction false} OldestRow(rows: seq<Row>)
    ensures Oldest(rows).None? <==> rows == []
    ensures Oldest(rows).Some? ==> exists r :: r in rows && r.meta.minTs == Oldest(rows).value
    ensures forall r | r in rows :: Oldest(rows).Some? && Oldest(rows).value <= r.meta.minTs
  {
    if rows != [] {
      var t, last := rows[..|rows| - 1], rows[|rows| - 1];
      assert rows == t + [last] && last in rows;
      OldestRow(t);
      var v := Oldest(rows).value;
      hide Oldest;
      forall r | r in rows ensures v <= r.meta.minTs {
        assert r == last || r in t;
      }
      if t != [] && v != last.meta.minTs {
        var r :| r in t && r.meta.minTs == v;
        assert r in rows;
      }
    }
  }

  /** The oldest timestamp is that of the oldest sample. */
  lemma OldestMeans(rows: seq<Row>)
    requires forall r | r in rows :: WellFormed(r)
    ensures Oldest(rows).None? <==> rows == []
    ensures Oldest(rows).Some? ==> exists s, x :: x in Contents(rows, s) && x.ts == Oldest(rows).value
    ensures Oldest(rows).Some? ==> forall s, x | x in Contents(rows, s) :: Oldest(rows).value <= x.ts
  {
    hide Contents, Oldest, WellFormed;
    OldestRow(rows);
    if Oldest(rows).Some? {
      var r :| r in rows && r.meta.minTs == Oldest(rows).value;
      RowEnds(r);
      var x := r.points[0];
      assert x in r.points;
      ContentsMember(rows, r.series, x);
      assert x in Contents(rows, r.series) && x.ts == Oldest(rows).value;
      forall s, x | x in Contents(rows, s) ensures Oldest(rows).value <= x.ts {
        ContentsMember(rows, s, x);
        var r :| r in rows && r.series == s && x in r.points;
        RowEnds(r);
      }
    }
  }

  lemma {:induction false} NewestRow(rows: seq<Row>)
    ensures Newest(rows).None? <==> rows == []
    ensures Newest(rows).Some? ==> exists r :: r in rows && r.meta.maxTs == Newest(rows).value
    ensures forall r | r in rows :: Newest(rows).Some? && r.meta.maxTs <= Newest(rows).value
  {
    if rows != [] {
      var t, last := rows[..|rows| - 1], rows[|rows| - 1];
      assert rows == t + [last] && last in rows;
      NewestRow(t);
      var v := Newest(rows).value;
      hide Newest;
      forall r | r in rows ensures r.meta.maxTs <= v {
        assert r == last || r in t;
      }
      if t != [] && v != last.meta.maxTs {
        var r :| r in t && r.meta.maxTs == v;
        assert r in rows;
      }
    }
  }

  /** The newest timestamp is that of the newest sample. */
  lemma NewestMeans(rows: seq<Row>)
    requires forall r | r in rows :: WellFormed(r)
    ensures Newest(rows).None? <==> rows == []
    ensures Newest(rows).Some? ==> exists s, x :: x in Contents(rows, s) && x.ts == Newest(rows).value
    ensures Newest(rows).Some? ==> forall s, x | x in Contents(rows, s) :: x.ts <= Newest(rows).value
  {
    hide Contents, Newest, WellFormed;
    NewestRow(rows);
    if Newest(rows).Some? {
      var r :| r in rows && r.meta.maxTs == Newest(rows).value;
      RowEnds(r);
      var x := r.points[|r.points| - 1];
      assert x in r.points;
      ContentsMember(rows, r.series, x);
      assert x in Contents(rows, r.series) && x.ts == Newest(rows).value;
      forall s, x | x in Contents(rows, s) ensures x.ts <= Newest(rows).value {
        ContentsMember(rows, s, x);
        var r :| r in rows && r.series == s && x in r.points;
        RowEnds(r);
      }
    }
  }

  lemma RowEnds(r: Row)
    requires WellFormed(r)
    ensures r.points != [] && r.points[0].ts == r.meta.minTs && r.points[|r.points| - 1].ts == r.meta.maxTs
    ensures forall x | x in r.points :: r.meta.minTs <= x.ts <= r.meta.maxTs
  {
    var n := |r.points| - 1;
    forall x | x in r.points ensures r.meta.minTs <= x.ts <= r.meta.maxTs {
      var i :| 0 <= i < |r.points| && r.points[i] == x;
      assert i == 0 || r.points[0].ts <= r.points[i].ts;
      assert i == n || r.points[i].ts <= r.points[n].ts;
    }
  }

  /** The same samples, the same oldest and newest, however they are cut. */
  lemma SameEnds(a: seq<Row>, b: seq<Row>)
    requires (forall r | r in a :: WellFormed(r)) && (forall r | r in b :: WellFormed(r))
    requires forall s :: Contents(a, s) == Contents(b, s)
    ensures Oldest(a) == Oldest(b) && Newest(a) == Newest(b)
  {
    hide Contents, Oldest, Newest, WellFormed;
    OldestMeans(a);
    OldestMeans(b);
    NewestMeans(a);
    NewestMeans(b);
    SomeSample(a, b);
    SomeSample(b, a);
    if a != [] {
      var s, x :| x in Contents(a, s) && x.ts == Oldest(a).value;
      assert x in Contents(b, s);
      var s', y :| y in Contents(b, s') && y.ts == Oldest(b).value;
      assert Contents(a, s') == Contents(b, s');
      var p, z :| z in Contents(a, p) && z.ts == Newest(a).value;
      assert Contents(a, p) == Contents(b, p);
      var q, w :| w in Contents(b, q) && w.ts == Newest(b).value;
      assert Contents(a, q) == Contents(b, q);
    }
  }

  lemma SomeSample(a: seq<Row>, b: seq<Row>)
    requires (forall r | r in a :: WellFormed(r)) && (forall r | r in b :: WellFormed(r))
    requires forall s :: Contents(a, s) == Contents(b, s)
    ensures a != [] ==> b != []
  {
    if a != [] {
      OldestMeans(a);
      var s, x :| x in Contents(a, s) && x.ts == Oldest(a).value;
      assert Contents(a, s) == Contents(b, s);
      ContentsMember(b, s, x);
    }
  }

  // --------------------------------------------------------------- whole runs

  /** The rows with what is held of them. */
  datatype Db = Db(rows: seq<Row>, rolls: seq<RollupStore.Chunk>, raw: Option<RawTotals>, rolled: Option<RollupTotals>)

  datatype Op =
    | ReadRaw
    | ReadRolled
    | Flush(added: seq<Row>)
    | Compact(done: seq<Group>, parts: seq<seq<Row>>, now: seq<Row>)
    | Pass(chunks: seq<RollupStore.Chunk>)
    | Replace(gone: seq<RollupStore.Chunk>, made: seq<RollupStore.Chunk>, left: seq<RollupStore.Chunk>)
    | Forget(rowsNow: seq<Row>, rollsNow: seq<RollupStore.Chunk>)

  /** `Replace` is a merge, or with nothing made a deletion of rollups;
      `Forget` is what can move more than is known: retention, a rollback,
      another process's writes. */
  ghost predicate Allowed(db: Db, op: Op) {
    match op
    case ReadRaw => true
    case ReadRolled => true
    case Flush(added) => forall r | r in added :: WellFormed(r)
    case Compact(done, parts, now) =>
      Indexed(db.rows) && AllPresent(db.rows, done) && OnceEach(done) && Swapped(db.rows, done, parts, now)
    case Pass(_) => true
    case Replace(gone, made, left) =>
      exists rest :: multiset(db.rolls) == multiset(rest + gone) && multiset(left) == multiset(rest + made)
    case Forget(rows, rolls) => ValidTable(rows)
  }

  ghost function Apply(db: Db, op: Op): Db
    requires Allowed(db, op)
  {
    match op
    case ReadRaw => if db.raw.Some? then db else db.(raw := Some(RawOf(db.rows)))
    case ReadRolled => if db.rolled.Some? then db else db.(rolled := Some(RolledOf(db.rolls)))
    case Flush(added) => db.(rows := db.rows + added, raw := Moved(db.raw, added, 0, 0))
    case Compact(done, parts, now) =>
      db.(rows := now, raw := Moved(db.raw, Flatten(parts), |AllRows(db.rows, done)|, Removed(db.rows, done)))
    case Pass(cs) => db.(rolls := db.rolls + cs, rolled := RolledMoved(db.rolled, RolledOf(cs), RollupTotals(0, 0)))
    case Replace(gone, made, left) =>
      db.(rolls := left, rolled := RolledMoved(db.rolled, RolledOf(made), RolledOf(gone)))
    case Forget(rows, rolls) => Db(rows, rolls, None, None)
  }

  ghost function Removed(rows: seq<Row>, done: seq<Group>): nat
    requires Indexed(rows) && AllPresent(rows, done)
  {
    SumPoints(AllRows(rows, done));
    Sum(AllRows(rows, done), PointCount)
  }

  lemma SumPoints(rows: seq<Row>)
    ensures Sum(rows, PointCount) >= 0
  {
    SumNonNegative(rows, PointCount);
  }

  ghost predicate Valid(db: Db) {
    && Indexed(db.rows) && (forall r | r in db.rows :: WellFormed(r))
    && (db.raw.Some? ==> db.raw.value == RawOf(db.rows))
    && (db.rolled.Some? ==> db.rolled.value == RolledOf(db.rolls))
  }

  lemma FlushHolds(db: Db, added: seq<Row>)
    requires Valid(db) && db.raw.Some?
    ensures Moved(db.raw, added, 0, 0).Some? ==> Moved(db.raw, added, 0, 0).value == RawOf(db.rows + added)
  {
    SumConcat(db.rows, added, PointCount);
    OldestConcat(db.rows, added);
  }

  /** A compaction moves the count and the points; the ends stand. */
  lemma CompactHolds(db: Db, done: seq<Group>, parts: seq<seq<Row>>, now: seq<Row>)
    requires Valid(db) && AllPresent(db.rows, done) && OnceEach(done) && Swapped(db.rows, done, parts, now)
    requires db.raw.Some?
    ensures var m := Moved(db.raw, Flatten(parts), |AllRows(db.rows, done)|, Removed(db.rows, done));
            m.Some? ==> m.value == RawOf(now)
  {
    hide Contents, Swapped, Oldest, Newest, AllRows, Flatten, OldestWith, NewestWith, WellFormed;
    var rows, added := db.rows, Flatten(parts);
    SwapConserves(rows, done, parts, now);
    SwapTotals(rows, done, parts, now, PointCount);
    SwapTotals(rows, done, parts, now, One);
    CountIsSum(now);
    CountIsSum(rows);
    CountIsSum(added);
    CountIsSum(AllRows(rows, done));
    SameEnds(rows, now);
    EndsStand(rows, done, parts, now);
  }

  function One(r: Row): int {
    1
  }

  lemma {:induction false} CountIsSum(rows: seq<Row>)
    ensures Sum(rows, One) == |rows|
  {
    if rows != [] {
      CountIsSum(rows[..|rows| - 1]);
    }
  }

  /** Folding the rewritten rows in moves neither end. */
  lemma EndsStand(rows: seq<Row>, done: seq<Group>, parts: seq<seq<Row>>, now: seq<Row>)
    requires ValidTable(rows) && AllPresent(rows, done) && OnceEach(done) && Swapped(rows, done, parts, now)
    ensures OldestWith(Oldest(rows), Flatten(parts)) == Oldest(rows)
    ensures NewestWith(Newest(rows), Flatten(parts)) == Newest(rows)
  {
    hide Contents, Swapped, Oldest, Newest, AllRows, Flatten, WellFormed;
    var added := Flatten(parts);
    SwapConserves(rows, done, parts, now);
    SwappedRows(rows, done, parts, now);
    OldestMeans(rows);
    NewestMeans(rows);
    forall r | r in added ensures Within(r, Oldest(rows), Newest(rows)) {
      assert r in now;
      AddedWithin(rows, now, r);
    }
    InsideMovesNothing(Oldest(rows), Newest(rows), added);
  }

  ghost predicate Within(r: Row, lo: Option<int>, hi: Option<int>) {
    lo.Some? && hi.Some? && lo.value <= r.meta.minTs && r.meta.maxTs <= hi.value
  }

  lemma AddedWithin(rows: seq<Row>, now: seq<Row>, r: Row)
    requires ValidTable(rows) && ValidTable(now) && r in now && forall s :: Contents(now, s) == Contents(rows, s)
    ensures Within(r, Oldest(rows), Newest(rows))
  {
    hide Oldest, Newest;
    RowEnds(r);
    OldestMeans(rows);
    NewestMeans(rows);
    var first, last := r.points[0], r.points[|r.points| - 1];
    assert first in r.points && last in r.points;
    ContentsMember(now, r.series, first);
    ContentsMember(now, r.series, last);
    assert Contents(now, r.series) == Contents(rows, r.series);
    ContentsMember(rows, r.series, first);
  }

  lemma {:induction false} InsideMovesNothing(lo: Option<int>, hi: Option<int>, added: seq<Row>)
    requires forall r | r in added :: Within(r, lo, hi)
    ensures OldestWith(lo, added) == lo && NewestWith(hi, added) == hi
  {
    if added != [] {
      var t, last := added[..|added| - 1], added[|added| - 1];
      assert last in added && forall r | r in t :: r in added;
      InsideMovesNothing(lo, hi, t);
    }
  }

  lemma ReplaceHolds(db: Db, gone: seq<RollupStore.Chunk>, made: seq<RollupStore.Chunk>, left: seq<RollupStore.Chunk>)
    requires Valid(db) && Allowed(db, Replace(gone, made, left)) && db.rolled.Some?
    ensures RolledMoved(db.rolled, RolledOf(made), RolledOf(gone)) == Some(RolledOf(left))
  {
    hide Sum;
    var rest :| multiset(db.rolls) == multiset(rest + gone) && multiset(left) == multiset(rest + made);
    Rearranged(db.rolls, rest, gone);
    Rearranged(left, rest, made);
    SumNonNegative(left, SingleOf);
  }

  lemma Rearranged(all: seq<RollupStore.Chunk>, a: seq<RollupStore.Chunk>, b: seq<RollupStore.Chunk>)
    requires multiset(all) == multiset(a + b)
    ensures |all| == |a| + |b| && Sum(all, SingleOf) == Sum(a, SingleOf) + Sum(b, SingleOf)
  {
    hide Sum;
    assert |multiset(all)| == |multiset(a + b)|;
    SumPermutation(all, a + b, SingleOf);
    SumConcat(a, b, SingleOf);
  }

  lemma PassHolds(db: Db, cs: seq<RollupStore.Chunk>)
    requires Valid(db) && db.rolled.Some?
    ensures RolledMoved(db.rolled, RolledOf(cs), RollupTotals(0, 0)) == Some(RolledOf(db.rolls + cs))
  {
    SumConcat(db.rolls, cs, SingleOf);
    SumNonNegative(db.rolls + cs, SingleOf);
  }

  /** Every write keeps what is held true. */
  lemma ApplyHolds(db: Db, op: Op)
    requires Valid(db) && Allowed(db, op)
    requires op.Flush? ==> Indexed(db.rows + op.added)
    ensures Valid(Apply(db, op))
  {
    hide Sum, Oldest, Newest, OldestWith, NewestWith, WellFormed, Contents, Swapped, AllRows, Flatten;
    match op {
      case Flush(added) =>
        if db.raw.Some? {
          FlushHolds(db, added);
        }
      case Compact(done, parts, now) =>
        SwapConserves(db.rows, done, parts, now);
        if db.raw.Some? {
          CompactHolds(db, done, parts, now);
        }
      case Pass(cs) =>
        if db.rolled.Some? {
          PassHolds(db, cs);
        }
      case Replace(gone, made, left) =>
        if db.rolled.Some? {
          ReplaceHolds(db, gone, made, left);
        }
      case _ =>
    }
  }

  ghost predicate IsRun(dbs: seq<Db>, ops: seq<Op>) {
    && |dbs| == |ops| + 1
    && forall i | 0 <= i < |ops| ::
         && Allowed(dbs[i], ops[i]) && dbs[i + 1] == Apply(dbs[i], ops[i])
         && (ops[i].Flush? ==> Indexed(dbs[i].rows + ops[i].added))
  }

  /** Over every run of flushes, compactions, passes, merges, deletions and
      rollbacks, a held total is the aggregate over the rows. */
  lemma {:induction false} HeldTotalsAgree(dbs: seq<Db>, ops: seq<Op>, n: nat)
    requires IsRun(dbs, ops) && n <= |ops| && Valid(dbs[0])
    ensures dbs[n].raw.Some? ==> dbs[n].raw.value == RawOf(dbs[n].rows)
    ensures dbs[n].rolled.Some? ==> dbs[n].rolled.value == RolledOf(dbs[n].rolls)
    ensures Valid(dbs[n])
  {
    hide Apply, Allowed, RawOf, RolledOf, WellFormed;
    if n > 0 {
      HeldTotalsAgree(dbs, ops, n - 1);
      ApplyHolds(dbs[n - 1], ops[n - 1]);
    }
  }
}
