/** The amortised bound on rewriting: over every run of compaction steps, with
    any flushes, deletions and rollbacks between them and the clock moving as it
    will, the points rewritten by merges of under-target compressed chunks are at
    most twelve times the points that ever entered compressed chunks. */
module WriteBound {
  import opened Sequences
  import opened ChunkTable
  import opened CompactionPlanner
  import opened CompactionExec
  import opened CompactionRun
  import opened WritePotential

  /** A state with the two counts the bound is about. */
  datatype Ledger = Ledger(state: State, rewritten: int, entered: int)

  ghost function Rewritten(rows: seq<Row>, done: seq<Group>): int
    requires Indexed(rows) && AllPresent(rows, done)
  {
    if done == [] then 0
    else
      assert done[|done| - 1] in done;
      Rewritten(rows, done[..|done| - 1]) + RewrittenBy(rows, done[|done| - 1])
  }

  ghost function Entered(rows: seq<Row>, done: seq<Group>): int
    requires Indexed(rows) && AllPresent(rows, done)
  {
    if done == [] then 0
    else
      assert done[|done| - 1] in done;
      Entered(rows, done[..|done| - 1]) + EnteredBy(rows, done[|done| - 1])
  }

  function CompressedPoints(r: Row): int {
    if r.enc.Pco? then |r.points| else 0
  }

  /** `Tick` is the clock: the series written in the last hour are others.
      `Restart` forgets the plan and counts chunks anew. `Rollback` goes back to
      the table of an earlier moment. */
  datatype Event =
    | Flush(added: seq<Row>)
    | Delete(ids: set<nat>)
    | Tick(lately: set<int>)
    | Restart(chunkSeq: nat, lately: set<int>)
    | Rollback(moment: nat)
    | Idle(cutoff: int, budget: Budget, more: bool)
    | Work(cutoff: int, budget: Budget, n: nat, done: seq<Group>, rest: seq<Group>,
           parts: seq<seq<Row>>, more: bool)

  /** The ledger after a rollback to the table of `was`: what was done since is
      undone, and no longer counted; the plan is forgotten. */
  function Undone(l: Ledger, was: Ledger): Ledger {
    Ledger(l.state.(rows := was.state.rows, plan := None), was.rewritten, was.entered)
  }

  ghost predicate Next(l: Ledger, e: Event, l': Ledger, past: seq<Ledger>) {
    && Indexed(l.state.rows)
    && match e
       case Flush(added) =>
         && FlushStep(l.state, added, l'.state)
         && l'.rewritten == l.rewritten && l'.entered == l.entered + Sum(added, CompressedPoints)
       case Delete(ids) =>
         && DeleteStep(l.state, ids, l'.state)
         && l'.rewritten == l.rewritten && l'.entered == l.entered
       case Tick(lately) =>
         l' == l.(state := l.state.(lately := lately))
       case Restart(chunkSeq, lately) =>
         l' == l.(state := State(l.state.rows, None, chunkSeq, lately))
       case Rollback(moment) =>
         moment < |past| && l' == Undone(l, past[moment])
       case Idle(cutoff, b, more) =>
         && IdleStep(l.state, cutoff, b, l'.state, more)
         && l'.rewritten == l.rewritten && l'.entered == l.entered
       case Work(cutoff, b, n, done, rest, parts, more) =>
         && WorkStep(l.state, cutoff, b, n, done, rest, parts, l'.state, more)
         && l'.rewritten == l.rewritten + Rewritten(l.state.rows, done)
         && l'.entered == l.entered + Entered(l.state.rows, done)
  }

  /** The potential left pays for what is still to be rewritten. */
  ghost predicate Solvent(l: Ledger) {
    Safe(l.state) && l.rewritten + Sum(l.state.rows, PhiRow) <= 12 * l.entered
  }

  lemma {:induction false} DonePays(rows: seq<Row>, done: seq<Group>, parts: seq<seq<Row>>)
    requires ValidTable(rows) && AllPresent(rows, done) && RewritesEach(rows, done, parts)
    requires forall g | g in done :: WellPlanned(g)
    ensures 12 * Entered(rows, done) + Sum(AllRows(rows, done), PhiRow)
            >= Rewritten(rows, done) + Sum(Flatten(parts), PhiRow)
    decreases |done|
  {
    if done != [] {
      hide AllRows, GroupRows, Sum, Flatten, RewritesEach, Rewrites, WellPlanned, EnteredBy, RewrittenBy;
      var n := |done| - 1;
      RewritesEachLast(rows, done, parts);
      LastGroupTotals(rows, done, parts, PhiRow);
      DonePays(rows, done[..n], parts[..n]);
      GroupPays(rows, done[n], parts[n]);
    }
  }

  lemma FlushedPotential(added: seq<Row>)
    ensures Sum(added, PhiRow) <= 12 * Sum(added, CompressedPoints)
    decreases |added|
  {
    if added != [] {
      FlushedPotential(added[..|added| - 1]);
      PhiBounds(|added[|added| - 1].points|);
    }
  }

  lemma WithoutPotential(rows: seq<Row>, p: Row -> bool)
    ensures Sum(Filter(rows, p), PhiRow) <= Sum(rows, PhiRow)
    decreases |rows|
  {
    if rows != [] {
      var t, x := rows[..|rows| - 1], rows[|rows| - 1];
      WithoutPotential(t, p);
      PhiBounds(|x.points|);
      SumConcat(Filter(t, p), if p(x) then [x] else [], PhiRow);
      SumOne(x, PhiRow);
    }
  }

  lemma WorkPays(l: Ledger, e: Event, l': Ledger, past: seq<Ledger>)
    requires Solvent(l) && e.Work? && Next(l, e, l', past)
    ensures Solvent(l')
  {
    WorkStepSafe(l.state, e.cutoff, e.budget, e.n, e.done, e.rest, e.parts, l'.state, e.more);
    DonePays(l.state.rows, e.done, e.parts);
    SwapTotals(l.state.rows, e.done, e.parts, l'.state.rows, PhiRow);
  }

  lemma StepPays(l: Ledger, e: Event, l': Ledger, past: seq<Ledger>)
    requires Solvent(l) && Next(l, e, l', past) && (e.Rollback? ==> e.moment < |past| && Solvent(past[e.moment]))
    ensures Solvent(l')
  {
    match e {
      case Flush(added) =>
        FlushStepSafe(l.state, added, l'.state);
        FlushedPotential(added);
        SumConcat(l.state.rows, added, PhiRow);
      case Delete(ids) =>
        DeleteStepSafe(l.state, ids, l'.state);
        WithoutPotential(l.state.rows, (r: Row) => r.id !in ids);
      case Tick(_) =>
      case Restart(_, _) =>
      case Rollback(_) =>
      case Idle(cutoff, b, more) =>
        CompactionStepSafe(l.state, cutoff, b, l'.state, more);
      case Work(_, _, _, _, _, _, _) =>
        WorkPays(l, e, l', past);
    }
  }

  /** A run from a valid table, counting what its compressed chunks hold as
      having entered them. */
  ghost predicate IsRun(run: seq<Ledger>, events: seq<Event>) {
    && |run| == |events| + 1
    && Safe(run[0].state)
    && run[0].rewritten == 0 && run[0].entered == Sum(run[0].state.rows, CompressedPoints)
    && forall i | 0 <= i < |events| :: Next(run[i], events[i], run[i + 1], run[..i + 1])
  }

  lemma MomentPast(l: Ledger, e: Event, l': Ledger, past: seq<Ledger>)
    requires e.Rollback? && Next(l, e, l', past)
    ensures e.moment < |past|
  {
  }

  lemma {:induction false} RunIsSolvent(run: seq<Ledger>, events: seq<Event>, k: nat)
    requires IsRun(run, events) && k < |run|
    ensures Solvent(run[k])
    decreases k
  {
    hide Next, Safe, Sum;
    if k == 0 {
      FlushedPotential(run[0].state.rows);
    } else {
      RunIsSolvent(run, events, k - 1);
      var e := events[k - 1];
      assert Next(run[k - 1], e, run[k], run[..k]);
      if e.Rollback? {
        MomentPast(run[k - 1], e, run[k], run[..k]);
        RunIsSolvent(run, events, e.moment);
      }
      StepPays(run[k - 1], e, run[k], run[..k]);
    }
  }

  /** Twelve times what entered bounds what is rewritten, at every moment of
      every run. */
  lemma AmortisedWriteBound(run: seq<Ledger>, events: seq<Event>, k: nat)
    requires IsRun(run, events) && k < |run|
    ensures run[k].rewritten <= 12 * run[k].entered
  {
    RunIsSolvent(run, events, k);
    PhiRowsNonNegative(run[k].state.rows);
  }
}
