/** A merge plan that waits: made of the rows there were, applied after passes
    have written, chunks have been dropped and other merges been done. */
module RollupMergeLater {
  import opened Sequences
  import opened RollupStore
  import opened RollupPass
  import opened RollupCycle
  import opened RollupSettled
  import opened RollupMerge
  import opened RollupMergeStep

  /** What may happen while a plan waits. */
  datatype Event = Wrote(c: Chunk) | Dropped(ids: set<nat>) | Merged(runs: seq<seq<Chunk>>, first: nat)

  /** A pass appends past a group's coverage; new rows have ids from `floor` up,
      above every id there was when the plan was made. */
  ghost predicate Happens(rolls: seq<Chunk>, ev: Event, now: seq<Chunk>, floor: nat) {
    match ev
    case Wrote(c) =>
      && Exact(c) && IdsBelow(rolls, c.id) && c.id >= floor
      && Beyond(Watermark(rolls, c.series, c.resolution), c.minTs) && now == rolls + [c]
    case Dropped(ids) => now == Kept(rolls, ids)
    case Merged(runs, first) =>
      Mergeable(rolls, runs) && IdsBelow(rolls, first) && first >= floor && now == MergeAll(rolls, runs, first)
  }

  /** What a planned run keeps while it waits: its ids are its own, and as long
      as all of it is there nothing of the group has come between. */
  ghost predicate Standing(rolls: seq<Chunk>, run: seq<Chunk>, floor: nat) {
    && run != []
    && (forall c | c in run :: c.id < floor)
    && OwnIds(rolls, run)
    && (AreRows(rolls, run) ==> Adjacent(rolls, run))
  }

  ghost predicate OwnIds(rolls: seq<Chunk>, run: seq<Chunk>) {
    forall c, d | c in run && d in rolls && d.id == c.id :: d == c
  }

  // ------------------------------------------------------------------ events

  lemma HappensValid(rolls: seq<Chunk>, ev: Event, now: seq<Chunk>, floor: nat)
    requires ValidRollups(rolls) && Happens(rolls, ev, now, floor)
    ensures ValidRollups(now)
  {
    hide ValidRollups, Watermark, Kept, MergeAll, Mergeable, Exact, Stored;
    match ev {
      case Wrote(c) => AppendChunk(rolls, c);
      case Dropped(ids) => DropValid(rolls, ids);
      case Merged(runs, first) => MergeAllKeeps(rolls, runs, first);
    }
  }

  lemma WroteStanding(rolls: seq<Chunk>, c: Chunk, run: seq<Chunk>, floor: nat)
    requires ValidRollups(rolls) && Standing(rolls, run, floor)
    requires Happens(rolls, Wrote(c), rolls + [c], floor)
    ensures Standing(rolls + [c], run, floor)
  {
    hide ValidRollups, Watermark, Exact;
    var now := rolls + [c];
    if AreRows(now, run) {
      forall x | x in run ensures x in rolls {
        assert x in now && x != c;
      }
      var s, r, last := run[0].series, run[0].resolution, run[|run| - 1];
      assert last in run;
      forall x | x in now && InGroup(x, s, r) && x !in run ensures Clear(run, x) {
        if x == c {
          BelowWatermark(rolls, last);
        }
      }
    }
  }

  lemma DroppedStanding(rolls: seq<Chunk>, ids: set<nat>, run: seq<Chunk>, floor: nat)
    requires Standing(rolls, run, floor)
    ensures Standing(Kept(rolls, ids), run, floor)
  {
    hide Kept;
    var now := Kept(rolls, ids);
    forall c | c in now ensures c in rolls {
      KeptMember(rolls, ids, c);
    }
  }

  lemma {:induction false} OldIdsMember(runs: seq<seq<Chunk>>, run: seq<Chunk>, c: Chunk)
    requires run in runs && c in run
    ensures c.id in OldIds(runs)
  {
    var t, last := runs[..|runs| - 1], runs[|runs| - 1];
    assert runs == t + [last];
    if run in t {
      OldIdsMember(t, run, c);
    }
  }

  lemma MergedMember(rolls: seq<Chunk>, runs: seq<seq<Chunk>>, first: nat, floor: nat, d: Chunk)
    requires Mergeable(rolls, runs) && IdsBelow(rolls, first) && first >= floor
    requires d in MergeAll(rolls, runs, first) && d.id < floor
    ensures d in rolls && d.id !in OldIds(runs)
  {
    hide Mergeable, MergeAll, Kept, NewChunks, OldIds, IdsBelow, AreRows;
    MergeablePresent(rolls, runs);
    BatchIsAll(rolls, runs, first);
    NewChunkIds(runs, first);
    assert d in Kept(rolls, OldIds(runs)) + NewChunks(runs, first);
    KeptMember(rolls, OldIds(runs), d);
  }

  lemma MergedStanding(rolls: seq<Chunk>, runs: seq<seq<Chunk>>, first: nat, run: seq<Chunk>, floor: nat)
    requires ValidRollups(rolls) && Standing(rolls, run, floor)
    requires Mergeable(rolls, runs) && IdsBelow(rolls, first) && first >= floor
    ensures Standing(MergeAll(rolls, runs, first), run, floor)
  {
    hide ValidRollups, Mergeable, MergeAll, Adjacent, IdsBelow, OldIds;
    var now := MergeAll(rolls, runs, first);
    forall c, d | c in run && d in now && d.id == c.id ensures d == c {
      MergedMember(rolls, runs, first, floor, d);
    }
    if AreRows(now, run) {
      forall c | c in run ensures c in rolls && c.id !in OldIds(runs) {
        MergedMember(rolls, runs, first, floor, c);
      }
      forall other | other in runs ensures NoneShared(other, run) {
        forall c | c in other ensures c !in run {
          OldIdsMember(runs, other, c);
        }
      }
      MergeAllAdjacent(rolls, runs, run, first);
    }
  }

  lemma HappensStanding(rolls: seq<Chunk>, ev: Event, now: seq<Chunk>, run: seq<Chunk>, floor: nat)
    requires ValidRollups(rolls) && Standing(rolls, run, floor) && Happens(rolls, ev, now, floor)
    ensures Standing(now, run, floor)
  {
    hide ValidRollups, Standing, Mergeable, Exact, Watermark, IdsBelow;
    match ev {
      case Wrote(c) => WroteStanding(rolls, c, run, floor);
      case Dropped(ids) => DroppedStanding(rolls, ids, run, floor);
      case Merged(runs, first) => MergedStanding(rolls, runs, first, run, floor);
    }
  }

  // ---------------------------------------------------------------- histories

  ghost predicate IsHistory(states: seq<seq<Chunk>>, events: seq<Event>, floor: nat) {
    && |states| == |events| + 1
    && forall i | 0 <= i < |events| :: Happens(states[i], events[i], states[i + 1], floor)
  }

  lemma PlannedStands(rolls: seq<Chunk>, run: seq<Chunk>, floor: nat)
    requires ValidRollups(rolls) && Adjacent(rolls, run) && IdsBelow(rolls, floor)
    ensures Standing(rolls, run, floor)
  {
    hide Exact;
    forall c, d | c in run && d in rolls && d.id == c.id ensures d == c {
      SameIdSame(rolls, c, d);
    }
  }

  lemma {:induction false} PlanStands(states: seq<seq<Chunk>>, events: seq<Event>, floor: nat, run: seq<Chunk>, n: nat)
    requires IsHistory(states, events, floor) && n <= |events|
    requires ValidRollups(states[0]) && Adjacent(states[0], run) && IdsBelow(states[0], floor)
    ensures ValidRollups(states[n]) && Standing(states[n], run, floor)
    decreases n
  {
    hide ValidRollups, Standing, Adjacent, IdsBelow, Happens;
    if n == 0 {
      PlannedStands(states[0], run, floor);
    } else {
      PlanStands(states, events, floor, run, n - 1);
      assert Happens(states[n - 1], events[n - 1], states[n], floor);
      HappensValid(states[n - 1], events[n - 1], states[n], floor);
      HappensStanding(states[n - 1], events[n - 1], states[n], run, floor);
    }
  }

  lemma {:induction false} HistoryValid(states: seq<seq<Chunk>>, events: seq<Event>, floor: nat, n: nat)
    requires IsHistory(states, events, floor) && n <= |events| && ValidRollups(states[0])
    ensures ValidRollups(states[n])
    decreases n
  {
    hide ValidRollups, Happens;
    if n > 0 {
      HistoryValid(states, events, floor, n - 1);
      assert Happens(states[n - 1], events[n - 1], states[n], floor);
      HappensValid(states[n - 1], events[n - 1], states[n], floor);
    }
  }

  /** A run that passes the presence check is the very rows it was planned of. */
  lemma PresentIsThere(rolls: seq<Chunk>, run: seq<Chunk>, floor: nat)
    requires Standing(rolls, run, floor) && IsPresent(rolls, run)
    ensures AreRows(rolls, run) && Adjacent(rolls, run)
  {
    hide Adjacent;
    forall c | c in run ensures c in rolls {
      var d :| d in rolls && SameIdentity(c, d);
    }
  }

  /** What is rewritten of a plan that waited can be merged: the runs still there
      share nothing and have nothing between their chunks. */
  lemma LaterMergeable(rolls: seq<Chunk>, plans: seq<seq<Chunk>>, floor: nat)
    requires ValidRollups(rolls) && Pairwise(plans) && forall run | run in plans :: Standing(rolls, run, floor)
    ensures Mergeable(rolls, StillThere(rolls, plans)) && Rewritten(rolls, plans) == StillThere(rolls, plans)
  {
    hide Standing, Adjacent, IsPresent, Pairwise, NoneShared, AreRows, InOrder, EachLike, RunBuckets, ValidRollups;
    var kept := StillThere(rolls, plans);
    StillTherePresent(rolls, plans);
    FilterPairwise(plans, (run: seq<Chunk>) => IsPresent(rolls, run));
    forall run | run in kept ensures AreRows(rolls, run) && Adjacent(rolls, run) && InOrder(run) {
      PresentIsThere(rolls, run, floor);
      RunOnGrid(rolls, run);
      InOrderMeans(run);
    }
    MergeableOf(rolls, kept);
    ValidIds(rolls);
    EachLikeSame(rolls, kept);
    FilterAll(kept, (run: seq<Chunk>) => InOrder(run));
  }

  /** A plan applied late is as unseen as one applied at once: whatever was
      written, dropped and merged since it was made, what it does leaves the
      rollups valid and every group with the buckets it had then. */
  lemma LatePlanUnseen(states: seq<seq<Chunk>>, events: seq<Event>, floor: nat, plans: seq<seq<Chunk>>, first: nat)
    requires IsHistory(states, events, floor)
    requires ValidRollups(states[0]) && Mergeable(states[0], plans) && IdsBelow(states[0], floor)
    requires IdsBelow(states[|events|], first)
    ensures var rolls := states[|events|];
            var now := MergeBatch(rolls, Rewritten(rolls, plans), first);
            ValidRollups(now) && SameStored(now, rolls)
  {
    hide ValidRollups, Standing, Adjacent, IdsBelow, Happens, NoneShared, MergeBatch, MergeAll, Rewritten, StillThere,
      SameStored, AreRows;
    var n := |events|;
    var rolls := states[n];
    HistoryValid(states, events, floor, n);
    forall run | run in plans ensures Standing(rolls, run, floor) {
      PlanStands(states, events, floor, run, n);
    }
    LaterMergeable(rolls, plans, floor);
    var runs := Rewritten(rolls, plans);
    MergeablePresent(rolls, runs);
    BatchIsAll(rolls, runs, first);
    MergeAllKeeps(rolls, runs, first);
  }
}
