/** Transactions over buffers and rows against the simple form: a log of what
    was written, and a stack of copies of it. */
module Transactions {
  import opened Sequences
  import opened Samples
  import opened ChunkTable

  datatype Write = Write(series: int, sample: Sample)

  /** What a log says a series holds. */
  function Logged(log: seq<Write>, s: int): multiset<Sample> {
    if log == [] then multiset{}
    else
      var w := log[|log| - 1];
      Logged(log[..|log| - 1], s) + (if w.series == s then multiset{w.sample} else multiset{})
  }

  type Buffers = map<int, seq<Sample>>

  function Buffered(buffers: Buffers, s: int): multiset<Sample> {
    if s in buffers then multiset(buffers[s]) else multiset{}
  }

  ghost predicate Drained(buffers: Buffers) {
    forall s :: Buffered(buffers, s) == multiset{}
  }

  /** The host's rows with the copies it keeps for its savepoints, the one of
      the transaction's start first, and the engine's buffers. */
  datatype Store = Store(rows: seq<Row>, buffers: Buffers, saves: seq<Save>)

  datatype Save = Save(savepoint: Option<int>, rows: seq<Row>)

  function Visible(st: Store, s: int): multiset<Sample> {
    Contents(st.rows, s) + Buffered(st.buffers, s)
  }

  /** The simple form. */
  datatype Spec = Spec(log: seq<Write>, saves: seq<Mark>)

  datatype Mark = Mark(savepoint: Option<int>, log: seq<Write>)

  datatype Op =
    | Begin
    | Put(w: Write)
    | Flush
    | Savepoint(id: int)
    | Release(id: int)
    | RollbackTo(id: int)
    | Maintain
    | Commit
    | Rollback

  function Find(saves: seq<Save>, id: int): (k: Option<nat>)
    ensures k.Some? ==> k.value < |saves| && saves[k.value].savepoint == Some(id)
    ensures k.Some? ==> forall i | 0 <= i < k.value :: saves[i].savepoint != Some(id)
    ensures k.None? ==> forall i | 0 <= i < |saves| :: saves[i].savepoint != Some(id)
  {
    if saves == [] then None
    else
      match Find(saves[..|saves| - 1], id)
      case Some(k) => Some(k)
      case None => if saves[|saves| - 1].savepoint == Some(id) then Some(|saves| - 1) else None
  }

  function FindMark(saves: seq<Mark>, id: int): (k: Option<nat>)
    ensures k.Some? ==> k.value < |saves| && saves[k.value].savepoint == Some(id)
    ensures k.Some? ==> forall i | 0 <= i < k.value :: saves[i].savepoint != Some(id)
    ensures k.None? ==> forall i | 0 <= i < |saves| :: saves[i].savepoint != Some(id)
  {
    if saves == [] then None
    else
      match FindMark(saves[..|saves| - 1], id)
      case Some(k) => Some(k)
      case None => if saves[|saves| - 1].savepoint == Some(id) then Some(|saves| - 1) else None
  }

  function SpecStep(sp: Spec, op: Op): Spec {
    match op
    case Begin => if sp.saves == [] then sp.(saves := [Mark(None, sp.log)]) else sp
    case Put(w) => if sp.saves == [] then sp else sp.(log := sp.log + [w])
    case Flush => sp
    case Savepoint(id) => if sp.saves == [] then sp else sp.(saves := sp.saves + [Mark(Some(id), sp.log)])
    case Release(id) =>
      (match FindMark(sp.saves, id)
       case None => sp
       case Some(k) => if k == 0 then sp else sp.(saves := sp.saves[..k]))
    case RollbackTo(id) =>
      (match FindMark(sp.saves, id)
       case None => sp
       case Some(k) => Spec(sp.saves[k].log, sp.saves[..k + 1]))
    case Maintain => sp
    case Commit => sp.(saves := [])
    case Rollback => if sp.saves == [] then sp else Spec(sp.saves[0].log, [])
  }

  // --------------------------------------------------------- the engine's steps

  /** Some buffers became rows: nothing visible changes. */
  ghost predicate Flushes(a: Store, b: Store) {
    b.saves == a.saves && forall s :: Visible(b, s) == Visible(a, s)
  }

  /** `flush_all`: nothing is left buffered. */
  ghost predicate FlushesAll(a: Store, b: Store) {
    Flushes(a, b) && Drained(b.buffers)
  }

  ghost predicate Steps(a: Store, op: Op, b: Store) {
    match op
    case Begin => b == if a.saves == [] then a.(saves := [Save(None, a.rows)]) else a
    case Put(w) =>
      if a.saves == [] then b == a
      else
        && b.rows == a.rows && b.saves == a.saves
        && forall s :: Buffered(b.buffers, s) ==
                       Buffered(a.buffers, s) + (if s == w.series then multiset{w.sample} else multiset{})
    case Flush => Flushes(a, b)
    case Savepoint(id) =>
      if a.saves == [] then b == a
      else exists mid :: FlushesAll(a, mid) && b == mid.(saves := mid.saves + [Save(Some(id), mid.rows)])
    case Release(id) =>
      (match Find(a.saves, id)
       case None => b == a
       case Some(k) => b == if k == 0 then a else a.(saves := a.saves[..k]))
    case RollbackTo(id) =>
      (match Find(a.saves, id)
       case None => b == a
       case Some(k) => b == Store(a.saves[k].rows, map[], a.saves[..k + 1]))
    case Maintain =>
      b.buffers == a.buffers && b.saves == a.saves && forall s :: Contents(b.rows, s) == Contents(a.rows, s)
    case Commit => exists mid :: FlushesAll(a, mid) && b == mid.(saves := [])
    case Rollback => b == if a.saves == [] then a else Store(a.saves[0].rows, map[], [])
  }

  // --------------------------------------------------------------- refinement

  /** Flushing and committing belong to an open transaction. */
  ghost predicate Proper(a: Store, op: Op) {
    a.saves == [] ==> !op.Flush? && !op.Commit?
  }

  ghost predicate SameSave(save: Save, mark: Mark) {
    save.savepoint == mark.savepoint && forall s :: Contents(save.rows, s) == Logged(mark.log, s)
  }

  ghost predicate SameSaves(saves: seq<Save>, marks: seq<Mark>) {
    |saves| == |marks| && forall i | 0 <= i < |saves| :: SameSave(saves[i], marks[i])
  }

  /** What can be seen is what the log says, every copy holds what the log said
      then, and outside a transaction nothing is buffered. */
  ghost predicate Refines(st: Store, sp: Spec) {
    && (forall s :: Visible(st, s) == Logged(sp.log, s))
    && SameSaves(st.saves, sp.saves)
    && (st.saves == [] ==> Drained(st.buffers))
  }

  lemma SameFind(saves: seq<Save>, marks: seq<Mark>, id: int)
    requires SameSaves(saves, marks)
    ensures Find(saves, id) == FindMark(marks, id)
  {
    forall i | 0 <= i < |saves| ensures saves[i].savepoint == marks[i].savepoint {
      assert SameSave(saves[i], marks[i]);
    }
  }

  lemma LoggedMore(log: seq<Write>, w: Write, s: int)
    ensures Logged(log + [w], s) == Logged(log, s) + (if w.series == s then multiset{w.sample} else multiset{})
  {
    assert (log + [w])[..|log|] == log;
  }

  lemma DrainedVisible(st: Store, s: int)
    requires Drained(st.buffers)
    ensures Visible(st, s) == Contents(st.rows, s)
  {
  }

  lemma EmptyDrained()
    ensures Drained(map[])
  {
  }

  lemma PutRefines(a: Store, w: Write, b: Store, sp: Spec)
    requires Refines(a, sp) && Steps(a, Put(w), b) && a.saves != []
    ensures Refines(b, sp.(log := sp.log + [w]))
  {
    hide Contents, Logged, Buffered, SameSaves;
    forall s ensures Visible(b, s) == Logged(sp.log + [w], s) {
      LoggedMore(sp.log, w, s);
      assert Visible(a, s) == Logged(sp.log, s);
    }
  }

  lemma FlushRefines(a: Store, b: Store, sp: Spec)
    requires Refines(a, sp) && Flushes(a, b) && (a.saves == [] ==> Drained(b.buffers))
    ensures Refines(b, sp)
  {
    hide Visible, Logged, SameSaves;
    forall s ensures Visible(b, s) == Logged(sp.log, s) {
      assert Visible(b, s) == Visible(a, s);
    }
  }

  lemma SavepointRefines(mid: Store, id: Option<int>, sp: Spec)
    requires Refines(mid, sp) && Drained(mid.buffers)
    ensures Refines(mid.(saves := mid.saves + [Save(id, mid.rows)]), sp.(saves := sp.saves + [Mark(id, sp.log)]))
  {
    hide Contents, Logged, Buffered;
    var st := mid.(saves := mid.saves + [Save(id, mid.rows)]);
    forall s ensures Contents(mid.rows, s) == Logged(sp.log, s) && Visible(st, s) == Logged(sp.log, s) {
      DrainedVisible(mid, s);
      assert Visible(mid, s) == Logged(sp.log, s);
    }
  }

  lemma BackRefines(rows: seq<Row>, saves: seq<Save>, log: seq<Write>, marks: seq<Mark>)
    requires SameSaves(saves, marks) && forall s :: Contents(rows, s) == Logged(log, s)
    ensures Refines(Store(rows, map[], saves), Spec(log, marks))
  {
    hide Contents, Logged;
    EmptyDrained();
    forall s ensures Visible(Store(rows, map[], saves), s) == Logged(log, s) {
      DrainedVisible(Store(rows, map[], saves), s);
      assert Contents(rows, s) == Logged(log, s);
    }
  }

  lemma ReleaseRefines(a: Store, sp: Spec, k: nat)
    requires Refines(a, sp) && 0 < k < |a.saves|
    ensures Refines(a.(saves := a.saves[..k]), sp.(saves := sp.saves[..k]))
  {
    hide Visible, Logged, SameSave;
    forall s ensures Visible(a.(saves := a.saves[..k]), s) == Visible(a, s) {
      SameVisible(a, a.saves[..k], s);
    }
  }

  lemma SameVisible(a: Store, saves: seq<Save>, s: int)
    ensures Visible(a.(saves := saves), s) == Visible(a, s)
  {
  }

  /** Every step of buffers and rows is a step of the log. */
  lemma StepRefines(a: Store, op: Op, b: Store, sp: Spec)
    requires Refines(a, sp) && Steps(a, op, b)
    requires Proper(a, op)
    ensures Refines(b, SpecStep(sp, op))
  {
    hide Contents, Logged, Buffered, Visible, Drained;
    match op {
      case Begin =>
        if a.saves == [] {
          SavepointRefines(a, None, sp);
          assert a.saves + [Save(None, a.rows)] == [Save(None, a.rows)];
          assert sp.saves + [Mark(None, sp.log)] == [Mark(None, sp.log)];
        }
      case Put(w) =>
        if a.saves != [] {
          PutRefines(a, w, b, sp);
        }
      case Flush => FlushRefines(a, b, sp);
      case Savepoint(id) =>
        if a.saves != [] {
          var mid :| FlushesAll(a, mid) && b == mid.(saves := mid.saves + [Save(Some(id), mid.rows)]);
          FlushRefines(a, mid, sp);
          SavepointRefines(mid, Some(id), sp);
        }
      case Release(id) =>
        SameFind(a.saves, sp.saves, id);
        if Find(a.saves, id).Some? && Find(a.saves, id).value > 0 {
          ReleaseRefines(a, sp, Find(a.saves, id).value);
        }
      case RollbackTo(id) =>
        SameFind(a.saves, sp.saves, id);
        if Find(a.saves, id).Some? {
          BackTo(a, sp, Find(a.saves, id).value);
        }
      case Maintain => MaintainRefines(a, b, sp);
      case Commit =>
        var mid :| FlushesAll(a, mid) && b == mid.(saves := []);
        FlushRefines(a, mid, sp);
        CommitRefines(mid, sp);
      case Rollback =>
        if a.saves != [] {
          BackToStart(a, sp);
        }
    }
  }

  lemma BackTo(a: Store, sp: Spec, k: nat)
    requires Refines(a, sp) && k < |a.saves|
    ensures Refines(Store(a.saves[k].rows, map[], a.saves[..k + 1]), Spec(sp.saves[k].log, sp.saves[..k + 1]))
  {
    hide Contents, Logged, Visible, Drained;
    assert SameSave(a.saves[k], sp.saves[k]);
    BackRefines(a.saves[k].rows, a.saves[..k + 1], sp.saves[k].log, sp.saves[..k + 1]);
  }

  lemma BackToStart(a: Store, sp: Spec)
    requires Refines(a, sp) && a.saves != []
    ensures Refines(Store(a.saves[0].rows, map[], []), Spec(sp.saves[0].log, []))
  {
    hide Contents, Logged, Visible, Drained;
    assert SameSave(a.saves[0], sp.saves[0]);
    BackRefines(a.saves[0].rows, [], sp.saves[0].log, []);
  }

  lemma CommitRefines(mid: Store, sp: Spec)
    requires Refines(mid, sp) && Drained(mid.buffers)
    ensures Refines(mid.(saves := []), sp.(saves := []))
  {
    hide Logged, Visible;
    forall s ensures Visible(mid.(saves := []), s) == Logged(sp.log, s) {
      SameVisible(mid, [], s);
      assert Visible(mid, s) == Logged(sp.log, s);
    }
  }

  lemma MaintainRefines(a: Store, b: Store, sp: Spec)
    requires Refines(a, sp) && Steps(a, Maintain, b)
    ensures Refines(b, sp)
  {
    hide Contents, Logged, Buffered;
    forall s ensures Visible(b, s) == Logged(sp.log, s) {
      assert Contents(b.rows, s) == Contents(a.rows, s);
      assert Visible(a, s) == Logged(sp.log, s);
    }
  }

  // --------------------------------------------------------------- whole runs

  ghost predicate IsRun(sts: seq<Store>, sps: seq<Spec>, ops: seq<Op>) {
    && |sts| == |sps| == |ops| + 1
    && forall i | 0 <= i < |ops| ::
         Steps(sts[i], ops[i], sts[i + 1]) && Proper(sts[i], ops[i]) && sps[i + 1] == SpecStep(sps[i], ops[i])
  }

  lemma {:induction false} RunRefines(sts: seq<Store>, sps: seq<Spec>, ops: seq<Op>, n: nat)
    requires IsRun(sts, sps, ops) && n <= |ops| && Refines(sts[0], sps[0])
    ensures Refines(sts[n], sps[n])
  {
    hide Steps, SpecStep, Refines;
    if n > 0 {
      RunRefines(sts, sps, ops, n - 1);
      StepRefines(sts[n - 1], ops[n - 1], sts[n], sps[n - 1]);
    }
  }

  /** Transactional visibility over whole runs: rows and buffers together are
      always what the log of writes not rolled back says; outside a
      transaction the rows alone are, and nothing is buffered. */
  lemma TransactionalVisibility(sts: seq<Store>, sps: seq<Spec>, ops: seq<Op>, n: nat, s: int)
    requires IsRun(sts, sps, ops) && n <= |ops| && Refines(sts[0], sps[0])
    ensures Visible(sts[n], s) == Logged(sps[n].log, s)
    ensures |sts[n].saves| == |sps[n].saves|
    ensures sts[n].saves == [] ==> Drained(sts[n].buffers) && Contents(sts[n].rows, s) == Logged(sps[n].log, s)
  {
    hide Steps, SpecStep, Contents, Logged, Buffered;
    RunRefines(sts, sps, ops, n);
  }

  /** A step opens and closes savepoints only at the end of the stack. */
  lemma SavesKept(sp: Spec, op: Op, d: nat)
    requires d < |sp.saves| && d < |SpecStep(sp, op).saves|
    ensures SpecStep(sp, op).saves[d] == sp.saves[d]
  {
  }

  /** A savepoint at depth `d` that stays open keeps its copy. */
  lemma {:induction false} MarkStays(sps: seq<Spec>, ops: seq<Op>, k: nat, n: nat, d: nat)
    requires |sps| == |ops| + 1 && forall i | 0 <= i < |ops| :: sps[i + 1] == SpecStep(sps[i], ops[i])
    requires k < n <= |ops| && forall j | k < j <= n :: d < |sps[j].saves|
    ensures sps[n].saves[d] == sps[k + 1].saves[d]
    decreases n - k
  {
    hide SpecStep;
    if n > k + 1 {
      var i := n - 1;
      MarkStays(sps, ops, k, i, d);
      assert sps[i + 1] == SpecStep(sps[i], ops[i]);
      SavesKept(sps[i], ops[i], d);
    }
  }

  /** Rolling back to a savepoint brings back what was visible when it opened,
      whatever was written, flushed, nested, released or rolled back since. */
  lemma RollbackToRestores(sts: seq<Store>, sps: seq<Spec>, ops: seq<Op>, k: nat, n: nat, id: int, s: int)
    requires IsRun(sts, sps, ops) && k < n < |ops| && Refines(sts[0], sps[0])
    requires ops[k] == Savepoint(id) && ops[n] == RollbackTo(id) && sts[k].saves != []
    requires forall j | k < j <= n :: |sts[k].saves| < |sps[j].saves|
    requires FindMark(sps[n].saves, id) == Some(|sts[k].saves|)
    ensures Visible(sts[n + 1], s) == Visible(sts[k], s) && Drained(sts[n + 1].buffers)
  {
    hide Contents, Logged, Buffered, Refines, Drained;
    RunRefines(sts, sps, ops, k);
    RunRefines(sts, sps, ops, n);
    RunRefines(sts, sps, ops, n + 1);
    assert Steps(sts[n], ops[n], sts[n + 1]) && sps[n + 1] == SpecStep(sps[n], ops[n]);
    assert sps[k + 1] == SpecStep(sps[k], ops[k]);
    RefinesMeans(sts[k], sps[k], s);
    RefinesMeans(sts[n], sps[n], s);
    RefinesMeans(sts[n + 1], sps[n + 1], s);
    MarkStays(sps, ops, k, n, |sts[k].saves|);
    SameFind(sts[n].saves, sps[n].saves, id);
    EmptyDrained();
  }

  /** Rolling a transaction back brings back what was visible when it began,
      whatever happened within it, and leaves it all in the rows. */
  lemma RollbackRestores(sts: seq<Store>, sps: seq<Spec>, ops: seq<Op>, k: nat, n: nat, s: int)
    requires IsRun(sts, sps, ops) && k < n < |ops| && Refines(sts[0], sps[0])
    requires ops[k] == Begin && ops[n] == Rollback && sts[k].saves == []
    requires forall j | k < j <= n :: sps[j].saves != []
    ensures Visible(sts[n + 1], s) == Visible(sts[k], s)
    ensures sts[n + 1].saves == [] && Drained(sts[n + 1].buffers)
    ensures Contents(sts[n + 1].rows, s) == Visible(sts[k], s)
  {
    hide Contents, Logged, Buffered, Refines, Drained;
    RunRefines(sts, sps, ops, k);
    RunRefines(sts, sps, ops, n);
    assert Steps(sts[n], ops[n], sts[n + 1]) && sps[n + 1] == SpecStep(sps[n], ops[n]);
    assert sps[k + 1] == SpecStep(sps[k], ops[k]);
    RefinesMeans(sts[k], sps[k], s);
    RefinesMeans(sts[n], sps[n], s);
    MarkStays(sps, ops, k, n, 0);
    assert SameSave(sts[n].saves[0], sps[n].saves[0]);
    EmptyDrained();
    NoneBuffered(s);
  }

  lemma NoneBuffered(s: int)
    ensures Buffered(map[], s) == multiset{}
  {
  }

  lemma RefinesMeans(st: Store, sp: Spec, s: int)
    requires Refines(st, sp)
    ensures Visible(st, s) == Logged(sp.log, s) && SameSaves(st.saves, sp.saves)
  {
  }
}
