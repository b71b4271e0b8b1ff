/** Settled tiers: what the engine may rely on when it passes over a tier, over
    every run of the operations that can give it work again. */
module RollupSettled {
  import opened Sequences
  import opened Samples
  import opened ChunkTable
  import opened RollupStore
  import opened RollupPass
  import opened RollupScan
  import opened RollupCycle
  import opened RollupStep

  // ------------------------------------------------------- the settled maximum

  ghost predicate IsMaximum(settled: map<int, int>, v: int) {
    (exists r :: r in settled && settled[r] == v) && forall r | r in settled :: settled[r] <= v
  }

  lemma HasMaximum(settled: map<int, int>, r: int)
    requires r in settled
    ensures exists v :: IsMaximum(settled, v)
    decreases |settled|
  {
    var rest := settled - {r};
    assert settled.Keys == rest.Keys + {r};
    if q :| q in rest {
      HasMaximum(rest, q);
      var v :| IsMaximum(rest, v);
      var p :| p in rest && rest[p] == v;
      var m := if settled[r] > v then settled[r] else v;
      assert settled[if settled[r] > v then r else p] == m;
      assert IsMaximum(settled, m);
    } else {
      assert IsMaximum(settled, settled[r]);
    }
  }

  /** What `rollup_settled_max` holds: the greatest settled end, and the least
      timestamp where no tier is settled. */
  ghost function SettledMax(settled: map<int, int>): int {
    if exists v :: IsMaximum(settled, v) then
      var v :| IsMaximum(settled, v);
      v
    else I64_MIN
  }

  // ---------------------------------------------------------------- operations

  /** What changes the rows, the rollups or the ladder. `Compact` and `Merge`
      carry the rows they leave; `Refresh` is another process's writes seen. */
  datatype Op =
    | Flush(added: seq<Row>)
    | Compact(rows: seq<Row>)
    | Merge(rolls: seq<Chunk>)
    | DropRaw(raw: set<nat>)
    | DropRollups(rollups: set<nat>)
    | SetLadder(tiers: seq<int>)
    | Rollback(rowsBefore: seq<Row>, rollsBefore: seq<Chunk>, tiersBefore: seq<int>)
    | Refresh(rowsNow: seq<Row>, rollsNow: seq<Chunk>)
    | Pass(first: nat)

  ghost predicate ValidRows(rows: seq<Row>) {
    (forall r | r in rows :: WellFormed(r)) && Timely(rows)
  }

  lemma ValidRowsConcat(a: seq<Row>, b: seq<Row>)
    requires ValidRows(a) && ValidRows(b)
    ensures ValidRows(a + b)
  {
    hide WellFormed;
    assert forall r | r in a + b :: r in a || r in b;
  }

  ghost predicate ValidLadder(tiers: seq<int>) {
    (forall r | r in tiers :: r > 0) && Distinct(tiers)
  }

  ghost predicate Allowed(st: State, op: Op) {
    match op
    case Flush(added) => ValidRows(added)
    case Compact(rows) => ValidRows(rows) && forall s :: Contents(rows, s) == Contents(st.rows, s)
    case Merge(rolls) => ValidRollups(rolls) && forall s, r :: Stored(rolls, s, r) == Stored(st.rolls, s, r)
    case DropRaw(_) => true
    case DropRollups(_) => true
    case SetLadder(tiers) => ValidLadder(tiers)
    case Rollback(rows, rolls, tiers) => ValidRows(rows) && ValidRollups(rolls) && ValidLadder(tiers)
    case Refresh(rows, rolls) => ValidRows(rows) && ValidRollups(rolls)
    case Pass(first) => IdsBelow(st.rolls, first)
  }

  /** A flush unsettles when a row begins at or below the greatest settled
      end, unless that end is the value that says no tier is settled. */
  ghost predicate Unsettles(settled: map<int, int>, added: seq<Row>) {
    SettledMax(settled) != I64_MIN && exists r :: r in added && r.meta.minTs <= SettledMax(settled)
  }

  /** `rollup_unsettle` forgets every tier, unless the greatest end says that
      there is nothing to forget. */
  ghost function Forgotten(settled: map<int, int>): map<int, int> {
    if SettledMax(settled) == I64_MIN then settled else map[]
  }

  function Kept(rolls: seq<Chunk>, ids: set<nat>): seq<Chunk> {
    Filter(rolls, (c: Chunk) => c.id !in ids)
  }

  ghost function Apply(st: State, op: Op): State
    requires ValidState(st) && Allowed(st, op)
  {
    match op
    case Flush(added) =>
      st.(rows := st.rows + added, settled := if Unsettles(st.settled, added) then Forgotten(st.settled) else st.settled)
    case Compact(rows) => st.(rows := rows)
    case Merge(rolls) => st.(rolls := rolls)
    case DropRaw(ids) => st.(rows := Without(st.rows, ids))
    case DropRollups(ids) =>
      if Kept(st.rolls, ids) == st.rolls then st
      else st.(rolls := Kept(st.rolls, ids), settled := Forgotten(st.settled))
    case SetLadder(tiers) =>
      if tiers == st.tiers then st else st.(tiers := tiers, settled := Forgotten(st.settled), cursor := 0)
    case Rollback(rows, rolls, tiers) =>
      st.(rows := rows, rolls := rolls, tiers := tiers, settled := Forgotten(st.settled),
          series := [], highWater := None, cursor := 0)
    case Refresh(rows, rolls) => st.(rows := rows, rolls := rolls, settled := Forgotten(st.settled))
    case Pass(first) => Step(st, None, first).next
  }

  /** What forgets the settled ends, where the greatest of them is `v`: a flush
      with a row that begins at or before it, a deletion of rollups, another
      ladder, a rollback, another process's writes; each unless `v` is the least
      timestamp, the mark for none. Nothing else but a pass moves them. */
  ghost predicate Forgets(st: State, op: Op, v: int) {
    v != -0x8000_0000_0000_0000 &&
    match op
    case Flush(added) => exists r :: r in added && r.meta.minTs <= v
    case DropRollups(ids) => exists c :: c in st.rolls && c.id in ids
    case SetLadder(tiers) => tiers != st.tiers
    case Rollback(_, _, _) => true
    case Refresh(_, _) => true
    case _ => false
  }

  lemma ForgetsExactly(st: State, op: Op, v: int)
    requires ValidState(st) && Allowed(st, op) && !op.Pass? && IsMaximum(st.settled, v)
    ensures Apply(st, op).settled == if Forgets(st, op, v) then map[] else st.settled
  {
    hide ValidState, Kept;
    MaximumIs(st.settled, v);
    if op.DropRollups? {
      KeptSame(st.rolls, op.rollups);
    }
  }

  /** Another ladder and a rollback begin the next cycle anew; a rollback also
      forgets what the cycle under way had read. Nothing else but a pass does. */
  lemma CycleKept(st: State, op: Op)
    requires ValidState(st) && Allowed(st, op) && !op.Pass?
    ensures Apply(st, op).cursor == if op.Rollback? || (op.SetLadder? && op.tiers != st.tiers) then 0 else st.cursor
    ensures if op.Rollback? then Apply(st, op).series == [] && Apply(st, op).highWater == None
            else Apply(st, op).series == st.series && Apply(st, op).highWater == st.highWater
    ensures Apply(st, op).started == st.started
  {
    hide ValidState, Kept, Forgotten, Unsettles;
  }

  lemma MaximumIs(settled: map<int, int>, v: int)
    requires IsMaximum(settled, v)
    ensures SettledMax(settled) == v
  {
    var u := SettledMax(settled);
    assert IsMaximum(settled, u);
  }

  lemma KeptSame(rolls: seq<Chunk>, ids: set<nat>)
    ensures Kept(rolls, ids) == rolls <==> forall c | c in rolls :: c.id !in ids
  {
    var p := (c: Chunk) => c.id !in ids;
    if forall c | c in rolls :: c.id !in ids {
      FilterAll(rolls, p);
    } else {
      var c :| c in rolls && c.id in ids;
      FilterMember(rolls, p, c);
    }
  }

  ghost predicate Sound(st: State) {
    SettledSound(st.rows, st.rolls, st.settled)
  }

  // ----------------------------------------------- settled to the least end

  /** No bucket of the group reaches the least timestamp. */
  ghost predicate Bare(rolls: seq<Chunk>, s: int, r: int) {
    Beyond(Watermark(rolls, s, r), I64_MIN)
  }

  /** The one way past the check: every settled end is the least timestamp
      there is, so nothing is ever forgotten, and a row has a sample at it in a
      group of such a tier that no bucket covers. */
  ghost predicate Stranded(settled: map<int, int>, rows: seq<Row>, rolls: seq<Chunk>) {
    SettledMax(settled) == I64_MIN &&
    exists row, x, r :: row in rows && x in row.points && r in settled && StrandedAt(settled, rolls, row, x, r)
  }

  ghost predicate StrandedAt(settled: map<int, int>, rolls: seq<Chunk>, row: Row, x: Sample, r: int)
    requires r in settled
  {
    x.ts == I64_MIN && settled[r] == I64_MIN && Bare(rolls, row.series, r)
  }

  ghost predicate Slips(st: State, added: seq<Row>) {
    Stranded(st.settled, added, st.rolls)
  }

  /** With every settled end the least timestamp, what is untrue of them is that
      a sample at it is stranded. */
  lemma StrandedIsUntrue(settled: map<int, int>, rows: seq<Row>, rolls: seq<Chunk>)
    requires ValidRows(rows) && SettledMax(settled) == I64_MIN
    ensures SettledSound(rows, rolls, settled) <==> !Stranded(settled, rows, rolls)
  {
    hide Contents, Watermark, WellFormed, SettledMax;
    if Stranded(settled, rows, rolls) {
      var row, x, r :| row in rows && x in row.points && r in settled && StrandedAt(settled, rolls, row, x, r);
      ContentsMember(rows, row.series, x);
      assert Unrolled(rows, rolls, row.series, r, settled[r]);
    }
    forall r, s | r in settled && Unrolled(rows, rolls, s, r, settled[r]) ensures Stranded(settled, rows, rolls) {
      var x :| x in Contents(rows, s) && x.ts <= settled[r] && Beyond(Watermark(rolls, s, r), x.ts);
      SettledBelowMax(settled, r);
      ContentsMember(rows, s, x);
      var row :| row in rows && row.series == s && x in row.points;
      assert StrandedAt(settled, rolls, row, x, r);
    }
  }

  // ------------------------------------------------------------------ flushes

  lemma AddedUnrolled(rows: seq<Row>, added: seq<Row>, rolls: seq<Chunk>, s: int, r: int, to: int)
    ensures Unrolled(rows + added, rolls, s, r, to) <==>
            Unrolled(rows, rolls, s, r, to) || Unrolled(added, rolls, s, r, to)
  {
    hide Contents, Watermark;
    ContentsConcat(rows, added, s);
    if Unrolled(rows, rolls, s, r, to) {
      var x :| x in Contents(rows, s) && x.ts <= to && Beyond(Watermark(rolls, s, r), x.ts);
      assert x in Contents(rows + added, s);
    }
    if Unrolled(added, rolls, s, r, to) {
      var x :| x in Contents(added, s) && x.ts <= to && Beyond(Watermark(rolls, s, r), x.ts);
      assert x in Contents(rows + added, s);
    }
  }

  /** Rows that begin past `to` leave nothing at or below it. */
  lemma LaterRows(added: seq<Row>, rolls: seq<Chunk>, s: int, r: int, to: int)
    requires ValidRows(added) && forall row | row in added :: row.meta.minTs > to
    ensures !Unrolled(added, rolls, s, r, to)
  {
    hide Contents, Watermark, WellFormed;
    forall x | x in Contents(added, s) ensures x.ts > to {
      ContentsMember(added, s, x);
      var row :| row in added && row.series == s && x in row.points;
      PointBounds(row, x);
    }
  }

  lemma SettledBelowMax(settled: map<int, int>, r: int)
    requires r in settled
    ensures settled[r] <= SettledMax(settled)
  {
    HasMaximum(settled, r);
  }

  lemma SettledAdded(rows: seq<Row>, added: seq<Row>, rolls: seq<Chunk>, settled: map<int, int>)
    ensures SettledSound(rows + added, rolls, settled) <==>
            SettledSound(rows, rolls, settled) && SettledSound(added, rolls, settled)
  {
    hide Unrolled;
    forall r, s | r in settled
      ensures Unrolled(rows + added, rolls, s, r, settled[r]) <==>
              Unrolled(rows, rolls, s, r, settled[r]) || Unrolled(added, rolls, s, r, settled[r])
    {
      AddedUnrolled(rows, added, rolls, s, r, settled[r]);
    }
  }

  lemma LaterSound(added: seq<Row>, rolls: seq<Chunk>, settled: map<int, int>)
    requires ValidRows(added) && forall row | row in added :: row.meta.minTs > SettledMax(settled)
    ensures SettledSound(added, rolls, settled)
  {
    hide Unrolled, ValidRows, SettledMax;
    forall r, s | r in settled ensures !Unrolled(added, rolls, s, r, settled[r]) {
      SettledBelowMax(settled, r);
      LaterRows(added, rolls, s, r, settled[r]);
    }
  }

  lemma NotStranded(settled: map<int, int>, rows: seq<Row>, rolls: seq<Chunk>)
    requires SettledMax(settled) != I64_MIN
    ensures !Stranded(settled, rows, rolls)
  {
  }

  lemma NoneSettled(rows: seq<Row>, rolls: seq<Chunk>)
    ensures SettledSound(rows, rolls, map[])
  {
  }

  /** A flush leaves the settled ends true exactly when nothing slips past the
      check. */
  lemma FlushKeepsSound(st: State, added: seq<Row>)
    requires ValidState(st) && ValidRows(added) && Sound(st)
    ensures Sound(Apply(st, Flush(added))) <==> !Slips(st, added)
  {
    hide ValidRollups, ValidRows, SettledMax, SettledSound, Stranded;
    if SettledMax(st.settled) == I64_MIN {
      SettledAdded(st.rows, added, st.rolls, st.settled);
      StrandedIsUntrue(st.settled, added, st.rolls);
    } else {
      NotStranded(st.settled, added, st.rolls);
      if Unsettles(st.settled, added) {
        NoneSettled(st.rows + added, st.rolls);
      } else {
        SettledAdded(st.rows, added, st.rolls, st.settled);
        LaterSound(added, st.rolls, st.settled);
      }
    }
  }

  // ------------------------------------------------------------ whole runs

  lemma DropValid(rolls: seq<Chunk>, ids: set<nat>)
    requires ValidRollups(rolls)
    ensures ValidRollups(Kept(rolls, ids))
  {
    hide Exact;
    var p := (c: Chunk) => c.id !in ids;
    IdsRiseFilter(rolls, p);
    forall c | c in Kept(rolls, ids) ensures c in rolls {
      FilterMember(rolls, p, c);
    }
  }

  lemma {:induction false} IdsRiseFilter(rolls: seq<Chunk>, p: Chunk -> bool)
    requires IdsRise(rolls)
    ensures IdsRise(Filter(rolls, p))
  {
    if rolls != [] {
      var t, c := rolls[..|rolls| - 1], rolls[|rolls| - 1];
      IdsRiseFilter(t, p);
      forall d | d in Filter(t, p) ensures d.id < c.id {
        FilterMember(t, p, d);
      }
    }
  }

  lemma ContentsWithout(rows: seq<Row>, ids: set<nat>, s: int, x: Sample)
    requires x in Contents(Without(rows, ids), s)
    ensures x in Contents(rows, s)
  {
    ContentsMember(rows, s, x);
    ContentsMember(Without(rows, ids), s, x);
    var r :| r in Without(rows, ids) && r.series == s && x in r.points;
    WithoutMember(rows, ids, r);
  }

  lemma FewerRowsSound(st: State, ids: set<nat>)
    requires Sound(st)
    ensures SettledSound(Without(st.rows, ids), st.rolls, st.settled)
  {
    hide Contents, Watermark, Without;
    forall r, s | r in st.settled ensures !Unrolled(Without(st.rows, ids), st.rolls, s, r, st.settled[r]) {
      assert !Unrolled(st.rows, st.rolls, s, r, st.settled[r]);
      forall x | x in Contents(Without(st.rows, ids), s) ensures x in Contents(st.rows, s) {
        ContentsWithout(st.rows, ids, s, x);
      }
    }
  }

  lemma SameContentsSound(st: State, rows: seq<Row>)
    requires Sound(st) && forall s :: Contents(rows, s) == Contents(st.rows, s)
    ensures SettledSound(rows, st.rolls, st.settled)
  {
    hide Contents, Watermark;
    forall r, s | r in st.settled ensures !Unrolled(rows, st.rolls, s, r, st.settled[r]) {
      assert !Unrolled(st.rows, st.rolls, s, r, st.settled[r]);
      assert Contents(rows, s) == Contents(st.rows, s);
    }
  }

  lemma SameStoredUnrolled(rows: seq<Row>, x: seq<Chunk>, y: seq<Chunk>, s: int, r: int, to: int)
    requires ValidRollups(x) && ValidRollups(y) && Stored(x, s, r) == Stored(y, s, r)
    ensures Unrolled(rows, x, s, r, to) <==> Unrolled(rows, y, s, r, to)
  {
    hide ValidRollups, Stored, Watermark, Contents;
    SameStoredSameWatermark(x, y, s, r);
  }

  lemma SameStoredSound(st: State, rolls: seq<Chunk>)
    requires Sound(st) && ValidRollups(st.rolls) && ValidRollups(rolls)
    requires forall s, r :: Stored(rolls, s, r) == Stored(st.rolls, s, r)
    ensures SettledSound(st.rows, rolls, st.settled)
  {
    hide Contents, Watermark, Stored, ValidRollups;
    forall r, s | r in st.settled ensures !Unrolled(st.rows, rolls, s, r, st.settled[r]) {
      assert !Unrolled(st.rows, st.rolls, s, r, st.settled[r]);
      assert Stored(rolls, s, r) == Stored(st.rolls, s, r);
      SameStoredSameWatermark(rolls, st.rolls, s, r);
    }
  }

  lemma PassKeeps(st: State, first: nat)
    requires ValidState(st) && IdsBelow(st.rolls, first) && Sound(st)
    ensures ValidState(Step(st, None, first).next) && Sound(Step(st, None, first).next)
  {
    hide SettledSound, AllSeries, ValidRollups, LastWalk, Written, Settle, Full;
    if Step(st, None, first).Done? {
      PassCompletes(st, first);
    } else {
      BeginValid(st, None);
    }
  }

  lemma ApplyValid(st: State, op: Op)
    requires ValidState(st) && Allowed(st, op)
    ensures ValidState(Apply(st, op))
  {
    hide SettledSound, Stored, Contents, ValidRollups, WellFormed, Step;
    match op {
      case Flush(added) =>
        forall r | r in st.rows + added ensures r in st.rows || r in added {
        }
      case DropRaw(ids) =>
        forall r | r in Without(st.rows, ids) ensures r in st.rows {
          WithoutMember(st.rows, ids, r);
        }
      case DropRollups(ids) => DropValid(st.rolls, ids);
      case Pass(first) => StepValid(st, None, first);
      case _ =>
    }
  }

  /** Forgetting leaves the settled ends true of the rows and rollups there are
      then exactly when no sample is stranded among them. */
  lemma ForgottenSound(settled: map<int, int>, rows: seq<Row>, rolls: seq<Chunk>)
    requires ValidRows(rows)
    ensures SettledSound(rows, rolls, Forgotten(settled)) <==> !Stranded(settled, rows, rolls)
  {
    hide ValidRows, SettledMax, SettledSound, Stranded;
    if SettledMax(settled) == I64_MIN {
      StrandedIsUntrue(settled, rows, rolls);
    } else {
      NotStranded(settled, rows, rolls);
      NoneSettled(rows, rolls);
    }
  }

  /** What makes a settled end untrue: a flush that brings a sample to be
      stranded, a deletion of rollups that bares one, and a rollback or another
      process's writes that bring back such a sample or take its bucket. A
      caller can tell from the rows and rollups it is about to leave. */
  ghost predicate Strands(st: State, op: Op) {
    match op
    case Flush(added) => Slips(st, added)
    case DropRollups(ids) => Stranded(st.settled, st.rows, Kept(st.rolls, ids))
    case Rollback(rows, rolls, _) => Stranded(st.settled, rows, rolls)
    case Refresh(rows, rolls) => Stranded(st.settled, rows, rolls)
    case _ => false
  }

  /** Every operation leaves the settled ends true exactly when it strands
      nothing. */
  lemma ApplySound(st: State, op: Op)
    requires ValidState(st) && Allowed(st, op) && Sound(st)
    ensures Sound(Apply(st, op)) <==> !Strands(st, op)
  {
    hide Stored, Contents, ValidRollups, WellFormed, Step, SettledSound, Stranded, Timely, Forgotten, Kept;
    match op {
      case Flush(added) => FlushKeepsSound(st, added);
      case Compact(rows) => SameContentsSound(st, rows);
      case Merge(rolls) => SameStoredSound(st, rolls);
      case DropRaw(ids) => FewerRowsSound(st, ids);
      case DropRollups(ids) => DropSound(st, ids);
      case SetLadder(tiers) => FewerSettled(st.rows, st.rolls, st.settled);
      case Rollback(rows, rolls, _) => ForgottenSound(st.settled, rows, rolls);
      case Refresh(rows, rolls) => ForgottenSound(st.settled, rows, rolls);
      case Pass(first) => PassKeeps(st, first);
    }
  }

  lemma DropSound(st: State, ids: set<nat>)
    requires ValidState(st) && Sound(st)
    ensures Sound(Apply(st, DropRollups(ids))) <==> !Stranded(st.settled, st.rows, Kept(st.rolls, ids))
  {
    hide ValidRollups, WellFormed, SettledSound, Stranded, Timely, Forgotten, Kept, SettledMax;
    if Kept(st.rolls, ids) == st.rolls {
      if SettledMax(st.settled) == I64_MIN {
        StrandedIsUntrue(st.settled, st.rows, st.rolls);
      } else {
        NotStranded(st.settled, st.rows, st.rolls);
      }
    } else {
      ForgottenSound(st.settled, st.rows, Kept(st.rolls, ids));
    }
  }

  lemma FewerSettled(rows: seq<Row>, rolls: seq<Chunk>, settled: map<int, int>)
    requires SettledSound(rows, rolls, settled)
    ensures SettledSound(rows, rolls, Forgotten(settled))
  {
    hide Unrolled, SettledMax;
  }

  ghost predicate IsRun(states: seq<State>, ops: seq<Op>) {
    && |states| == |ops| + 1
    && forall i | 0 <= i < |ops| :: Goes(states[i], ops[i], states[i + 1])
  }

  ghost predicate Goes(a: State, op: Op, b: State) {
    ValidState(a) && Allowed(a, op) && b == Apply(a, op)
  }

  /** Every step of a run up to `n` strands nothing. */
  ghost predicate NothingStranded(states: seq<State>, ops: seq<Op>, n: nat)
    requires n <= |ops| <= |states|
  {
    forall i | 0 <= i < n :: !Strands(states[i], ops[i])
  }

  ghost predicate AllSound(states: seq<State>, n: nat)
    requires n < |states|
  {
    forall i | 0 <= i <= n :: Sound(states[i])
  }

  /** Settled tiers stay rightly settled: over every run of flushes, merges,
      compactions, retention and rollup deletes, ladder changes, rollbacks,
      refreshes and passes, whatever is settled has nothing unrolled up to its
      end, at every moment up to `n`, if and only if no operation before then
      strands a sample at the least timestamp there is. */
  lemma {:induction false} SettledRun(states: seq<State>, ops: seq<Op>, n: nat)
    requires IsRun(states, ops) && n <= |ops| && ValidState(states[0]) && Sound(states[0])
    ensures ValidState(states[n])
    ensures AllSound(states, n) <==> NothingStranded(states, ops, n)
    decreases n
  {
    hide ValidState, Sound, Apply, Allowed, Strands;
    if n > 0 {
      SettledRun(states, ops, n - 1);
      assert Goes(states[n - 1], ops[n - 1], states[n]);
      ApplyValid(states[n - 1], ops[n - 1]);
      if Sound(states[n - 1]) {
        ApplySound(states[n - 1], ops[n - 1]);
      }
    }
  }

  /** No sample of the rows is at the least timestamp. */
  ghost predicate OffTheBottom(rows: seq<Row>) {
    forall row, x | row in rows && x in row.points :: x.ts > I64_MIN
  }

  lemma OffTheBottomStrandsNone(settled: map<int, int>, rows: seq<Row>, rolls: seq<Chunk>)
    requires OffTheBottom(rows)
    ensures !Stranded(settled, rows, rolls)
  {
    hide Watermark, SettledMax;
  }

  lemma OpOffTheBottom(st: State, op: Op)
    requires ValidState(st) && Allowed(st, op) && OffTheBottom(st.rows) && OffTheBottom(Apply(st, op).rows)
    ensures !Strands(st, op)
  {
    hide Stored, Contents, ValidRollups, WellFormed, Step, Stranded, Timely, Forgotten, Kept, Unsettles;
    match op {
      case Flush(added) =>
        assert forall row | row in added :: row in st.rows + added;
        OffTheBottomStrandsNone(st.settled, added, st.rolls);
      case DropRollups(ids) => OffTheBottomStrandsNone(st.settled, st.rows, Kept(st.rolls, ids));
      case Rollback(rows, rolls, _) => OffTheBottomStrandsNone(st.settled, rows, rolls);
      case Refresh(rows, rolls) => OffTheBottomStrandsNone(st.settled, rows, rolls);
      case _ =>
    }
  }

  /** In particular, where no sample is ever at the least timestamp, settled
      tiers are rightly settled at every moment of every run. */
  lemma SettledRunOffTheBottom(states: seq<State>, ops: seq<Op>, n: nat)
    requires IsRun(states, ops) && n <= |ops| && ValidState(states[0]) && Sound(states[0])
    requires forall i | 0 <= i <= n :: OffTheBottom(states[i].rows)
    ensures Sound(states[n])
  {
    hide ValidState, Sound, Apply, Allowed, Strands, OffTheBottom;
    forall i | 0 <= i < n ensures !Strands(states[i], ops[i]) {
      assert Goes(states[i], ops[i], states[i + 1]);
      OpOffTheBottom(states[i], ops[i]);
    }
    SettledRun(states, ops, n);
  }

  // -------------------------------------------------- whatever was stranded

  /** A settled end is untrue only where it is the least timestamp. */
  ghost predicate NearlySound(st: State) {
    forall r, s | r in st.settled && Unrolled(st.rows, st.rolls, s, r, st.settled[r]) :: st.settled[r] == I64_MIN
  }

  lemma SoundIsNearly(st: State)
    requires Sound(st)
    ensures NearlySound(st)
  {
    hide Unrolled;
  }

  lemma BottomIsNearly(st: State)
    requires ValidRows(st.rows) && SettledMax(st.settled) == I64_MIN
    ensures NearlySound(st)
  {
    hide Contents, Watermark, WellFormed, SettledMax;
    forall r, s | r in st.settled && Unrolled(st.rows, st.rolls, s, r, st.settled[r])
      ensures st.settled[r] == I64_MIN
    {
      SettledBelowMax(st.settled, r);
      var x :| x in Contents(st.rows, s) && x.ts <= st.settled[r] && Beyond(Watermark(st.rolls, s, r), x.ts);
      ContentsMember(st.rows, s, x);
    }
  }

  lemma FlushNearly(st: State, added: seq<Row>)
    requires ValidState(st) && ValidRows(added) && NearlySound(st)
    ensures NearlySound(Apply(st, Flush(added)))
  {
    hide ValidRollups, SettledMax, Unrolled, WellFormed, Timely;
    ValidRowsConcat(st.rows, added);
    var next := Apply(st, Flush(added));
    if SettledMax(st.settled) == I64_MIN {
      BottomIsNearly(next);
    } else if !Unsettles(st.settled, added) {
      forall r, s | r in st.settled && Unrolled(st.rows + added, st.rolls, s, r, st.settled[r])
        ensures st.settled[r] == I64_MIN
      {
        AddedUnrolled(st.rows, added, st.rolls, s, r, st.settled[r]);
        SettledBelowMax(st.settled, r);
        LaterRows(added, st.rolls, s, r, st.settled[r]);
      }
    }
  }

  lemma ForgottenNearly(st: State, next: State)
    requires ValidRows(next.rows) && next.settled == Forgotten(st.settled)
    ensures NearlySound(next)
  {
    hide ValidRows, SettledMax, Unrolled;
    if SettledMax(st.settled) == I64_MIN {
      BottomIsNearly(next);
    }
  }

  lemma PassNearly(st: State, first: nat)
    requires ValidState(st) && IdsBelow(st.rolls, first) && NearlySound(st)
    ensures NearlySound(Step(st, None, first).next)
  {
    hide Unrolled, AllSeries, ValidRollups, LastWalk, Written, Settle, Full, Walked, HighWater, WellFormed, Timely,
      AllSettled;
    BeginValid(st, None);
    match Begin(st, None) {
      case None =>
      case Some(b) =>
        if b.series != [] {
          LastWalkFull(b, None);
          if LastWalk(b, None).Walk? {
            EnvValid(b, b.highWater.value);
            FinishWalks(b, None, first);
            var next := Step(st, None, first).next;
            forall r, s | r in next.settled && Unrolled(next.rows, next.rolls, s, r, next.settled[r])
              ensures next.settled[r] == I64_MIN
            {
              WalkedUntrue(b, next, r, s);
            }
          }
        }
    }
  }

  lemma NearlyWhere(st: State, next: State)
    requires NearlySound(st) && next.settled == st.settled
    requires forall s, r, to | Unrolled(next.rows, next.rolls, s, r, to) :: Unrolled(st.rows, st.rolls, s, r, to)
    ensures NearlySound(next)
  {
    hide Unrolled;
  }

  lemma DropRawNearly(st: State, ids: set<nat>)
    requires NearlySound(st)
    ensures NearlySound(st.(rows := Without(st.rows, ids)))
  {
    hide Contents, Watermark, Without;
    forall s, r, to | Unrolled(Without(st.rows, ids), st.rolls, s, r, to) ensures Unrolled(st.rows, st.rolls, s, r, to) {
      var x :| x in Contents(Without(st.rows, ids), s) && x.ts <= to && Beyond(Watermark(st.rolls, s, r), x.ts);
      ContentsWithout(st.rows, ids, s, x);
    }
    NearlyWhere(st, st.(rows := Without(st.rows, ids)));
  }

  lemma CompactNearly(st: State, rows: seq<Row>)
    requires NearlySound(st) && forall s :: Contents(rows, s) == Contents(st.rows, s)
    ensures NearlySound(st.(rows := rows))
  {
    hide Contents, Watermark;
    forall s, r, to | Unrolled(rows, st.rolls, s, r, to) ensures Unrolled(st.rows, st.rolls, s, r, to) {
      assert Contents(rows, s) == Contents(st.rows, s);
    }
    NearlyWhere(st, st.(rows := rows));
  }

  lemma MergeNearly(st: State, rolls: seq<Chunk>)
    requires NearlySound(st) && ValidRollups(st.rolls) && ValidRollups(rolls)
    requires forall s, r :: Stored(rolls, s, r) == Stored(st.rolls, s, r)
    ensures NearlySound(st.(rolls := rolls))
  {
    hide Contents, Watermark, Stored, ValidRollups;
    forall s, r, to | Unrolled(st.rows, rolls, s, r, to) ensures Unrolled(st.rows, st.rolls, s, r, to) {
      assert Stored(rolls, s, r) == Stored(st.rolls, s, r);
      SameStoredSameWatermark(rolls, st.rolls, s, r);
    }
    NearlyWhere(st, st.(rolls := rolls));
  }

  lemma ApplyNearly(st: State, op: Op)
    requires ValidState(st) && Allowed(st, op) && NearlySound(st)
    ensures NearlySound(Apply(st, op))
  {
    hide Stored, Contents, ValidRollups, WellFormed, Step, Timely, Forgotten, Kept, NearlySound, Unsettles;
    match op {
      case Flush(added) => FlushNearly(st, added);
      case Compact(rows) => CompactNearly(st, rows);
      case Merge(rolls) => MergeNearly(st, rolls);
      case DropRaw(ids) => DropRawNearly(st, ids);
      case DropRollups(ids) => NearlyOrForgotten(st, Apply(st, op));
      case SetLadder(_) => NearlyOrForgotten(st, Apply(st, op));
      case Rollback(_, _, _) => ForgottenNearly(st, Apply(st, op));
      case Refresh(_, _) => ForgottenNearly(st, Apply(st, op));
      case Pass(first) => PassNearly(st, first);
    }
  }

  lemma NearlyOrForgotten(st: State, next: State)
    requires NearlySound(st) && ValidRows(next.rows) && (next == st || next.settled == Forgotten(st.settled))
    ensures NearlySound(next)
  {
    hide NearlySound, Forgotten, ValidRows;
    if next != st {
      ForgottenNearly(st, next);
    }
  }

  /** Whatever was stranded: over every run at all, a tier settled to an end
      above the least timestamp has nothing unrolled up to it. */
  lemma {:induction false} SettledAboveTheBottom(states: seq<State>, ops: seq<Op>, n: nat)
    requires IsRun(states, ops) && n <= |ops| && ValidState(states[0]) && Sound(states[0])
    ensures ValidState(states[n]) && NearlySound(states[n])
    decreases n
  {
    hide ValidState, Sound, Apply, Allowed, NearlySound;
    if n == 0 {
      SoundIsNearly(states[0]);
    } else {
      SettledAboveTheBottom(states, ops, n - 1);
      assert Goes(states[n - 1], ops[n - 1], states[n]);
      ApplyValid(states[n - 1], ops[n - 1]);
      ApplyNearly(states[n - 1], ops[n - 1]);
    }
  }

  // ------------------------------------------- passing over against walking

  lemma {:induction false} PiecesIgnoreSettled(e: Env, f: Env, a: nat, b: nat)
    requires Positive(e) && f == e.(settled := f.settled) && a <= b <= Count(e)
    ensures Positive(f) && Count(f) == Count(e) && Pieces(f, a, b) == Pieces(e, a, b)
  {
    hide Visit, ProduceTo;
    if a < b {
      PiecesIgnoreSettled(e, f, a, b - 1);
      SameVisit(e, f, b - 1);
    }
  }

  lemma SameVisit(e: Env, f: Env, k: nat)
    requires Positive(e) && Positive(f) && f == e.(settled := f.settled) && k < Count(e) && k < Count(f)
    ensures VisitAt(f, k) == VisitAt(e, k) && PiecesAt(f, k) == PiecesAt(e, k)
  {
    hide Visit;
  }

  lemma SmoothIgnoresSettled(e: Env, f: Env)
    requires Positive(e) && Positive(f) && f == e.(settled := f.settled) && Count(f) == Count(e)
    requires Smooth(e, 0, Count(e))
    ensures Smooth(f, 0, Count(f))
  {
    hide VisitAt;
    forall k: nat | k < Count(f) ensures !VisitAt(f, k).TooEarly? {
      SameVisit(e, f, k);
    }
  }

  lemma FinishSame(b: State, c: State, first: nat)
    requires Ready(b) && Ready(c) && c == b.(settled := c.settled) && IdsBelow(b.rolls, first)
    requires Sound(b) && Sound(c) && LastWalk(b, None).Walk?
    ensures LastWalk(c, None).Walk? && LastWalk(c, None).batch == LastWalk(b, None).batch
  {
    hide Visit, VisitAt, WalkOn, SettledSound, SoundAhead, Smooth, Count, ValidState;
    var w := b.highWater.value;
    var e, f := EnvOf(b, w), EnvOf(c, w);
    EnvValid(b, w);
    EnvValid(c, w);
    SettledIsSoundAhead(e, 0);
    SettledIsSoundAhead(f, 0);
    LastWalkMeans(b, None);
    PiecesIgnoreSettled(e, f, 0, Count(e));
    SmoothIgnoresSettled(e, f);
    WalkFails(f, None, FirstWalk(f, None, c.cursor, c.started));
    LastWalkMeans(c, None);
  }

  lemma EmptyPass(st: State, first: nat)
    requires ValidState(st) && IdsBelow(st.rolls, first) && Sound(st) && st.tiers != []
    requires HighWater(st.rows).Some? && AllSettled(st, HighWater(st.rows).value)
    ensures Step(st.(settled := map[]), None, first).Done?
    ensures Step(st.(settled := map[]), None, first).batch == []
  {
    hide Visit, VisitAt, WalkOn, SettledSound, SoundAhead, Smooth, Count, Pieces, ProduceTo, HighWater, AllSeries;
    var c := st.(settled := map[]);
    NotAllSettled(st, HighWater(st.rows).value);
    var b := Begin(c, None).value;
    BeginValid(c, None);
    var w := b.highWater.value;
    if b.series != [] {
      var e := EnvOf(st.(series := b.series), w);
      var f := EnvOf(b, w);
      EnvValid(b, w);
      NothingToVisit(e);
      PiecesIgnoreSettled(e, f, 0, Count(e));
      SmoothIgnoresSettled(e, f);
      SettledSoundNone(b);
      SettledIsSoundAhead(f, 0);
      WalkFails(f, None, FirstWalk(f, None, b.cursor, b.started));
      LastWalkFull(b, None);
      LastWalkMeans(b, None);
    }
  }

  lemma SettledSoundNone(b: State)
    requires b.settled == map[]
    ensures Sound(b)
  {
  }

  lemma NothingToVisit(e: Env)
    requires ValidEnv(e) && Positive(e) && SettledSound(e.rows, e.rolls, e.settled)
    requires forall r | r in e.tiers :: r > 0 && SettledTo(e.settled, e.highWater, r)
    ensures Pieces(e, 0, Count(e)) == [] && Smooth(e, 0, Count(e))
  {
    hide VisitAt, SettledSound, ProduceTo, Count;
    SettledIsSoundAhead(e, 0);
    forall k: nat | k < Count(e) ensures VisitAt(e, k).Nothing? {
      AtOrdinal(e, k);
      assert TierAt(e, k) in e.tiers;
    }
    PiecesNone(e, 0, Count(e));
  }

  /** Passing over settled tiers writes exactly what walking every group
      would. */
  lemma PassingOverIsExact(st: State, first: nat)
    requires ValidState(st) && IdsBelow(st.rolls, first) && Sound(st)
    ensures var now, full := Step(st, None, first), Step(st.(settled := map[]), None, first);
            (now.Done? <==> full.Done?) && (now.Done? ==> now.batch == full.batch && now.next.rolls == full.next.rolls)
  {
    hide ValidRollups, SettledSound, LastWalk, Settle, AllSeries, HighWater, SettledTo, Full, Timely;
    var c := st.(settled := map[]);
    SettledSoundNone(c);
    if st.tiers == [] || HighWater(st.rows).None? {
    } else if AllSettled(st, HighWater(st.rows).value) {
      EmptyPass(st, first);
      if Begin(c, None).Some? && Begin(c, None).value.series != [] {
        BeginValid(c, None);
        LastWalkFull(Begin(c, None).value, None);
      }
    } else {
      NotAllSettled(st, HighWater(st.rows).value);
      var b, d := Begin(st, None).value, Begin(c, None).value;
      BeginValid(st, None);
      BeginValid(c, None);
      SettledSoundNone(d);
      if b.series != [] {
        LastWalkFull(b, None);
        LastWalkFull(d, None);
        if LastWalk(b, None).Walk? {
          FinishSame(b, d, first);
        }
        if LastWalk(d, None).Walk? {
          FinishSame(d, b, first);
        }
      }
    }
  }

  lemma NotAllSettled(st: State, w: int)
    requires (forall r | r in st.tiers :: r > 0) && st.tiers != []
    ensures !AllSettled(st.(settled := map[]), w)
  {
    assert st.tiers[0] in st.tiers;
    assert !SettledTo(map[], w, st.tiers[0]);
  }
}
