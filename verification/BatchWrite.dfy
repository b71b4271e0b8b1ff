/** Points put into the write buffers one at a time, and a run at a time. */
module BatchWrite {
  import opened Sequences
  import opened Samples
  import opened ChunkTable
  import opened Transactions
  import opened Scatter

  /** The buffers, which of them are queued to be stored, and the queue. */
  datatype Pending = Pending(buffers: Buffers, queued: set<int>, queue: seq<int>)

  function Held(p: Pending, s: int): seq<Sample> {
    if s in p.buffers then p.buffers[s] else []
  }

  /** A run appended to its series' buffer; a buffer that is long enough is
      queued once. */
  function Extend(p: Pending, threshold: nat, s: int, run: seq<Sample>): Pending {
    if run == [] then p
    else
      var now := Held(p, s) + run;
      if |now| >= threshold && s !in p.queued then
        Pending(p.buffers[s := now], p.queued + {s}, p.queue + [s])
      else p.(buffers := p.buffers[s := now])
  }

  /** Point by point. */
  function PutEach(p: Pending, threshold: nat, points: seq<Write>): Pending {
    if points == [] then p
    else
      var w := points[|points| - 1];
      Extend(PutEach(p, threshold, points[..|points| - 1]), threshold, w.series, [w.sample])
  }

  /** Run by run. */
  function PutRuns(p: Pending, threshold: nat, ids: seq<int>, runs: seq<seq<Sample>>, d: nat): Pending
    requires d <= |ids| == |runs|
  {
    if d == 0 then p
    else Extend(PutRuns(p, threshold, ids, runs, d - 1), threshold, ids[d - 1], runs[d - 1])
  }

  /** What the first `d` runs bring a series. */
  function Gathered(ids: seq<int>, runs: seq<seq<Sample>>, d: nat, s: int): seq<Sample>
    requires d <= |ids| == |runs|
  {
    if d == 0 then [] else Gathered(ids, runs, d - 1, s) + (if ids[d - 1] == s then runs[d - 1] else [])
  }

  /** `q` is `p` with `more` on a series: appended, and queued where that makes
      it long enough. */
  ghost predicate Gained(p: Pending, q: Pending, threshold: nat, s: int, more: seq<Sample>) {
    && Held(q, s) == Held(p, s) + more
    && (s in q.buffers <==> s in p.buffers || more != [])
    && (s in q.queued <==> s in p.queued || (more != [] && |Held(p, s)| + |more| >= threshold))
  }

  lemma GainedNone(p: Pending, threshold: nat, s: int)
    ensures Gained(p, p, threshold, s, [])
  {
  }

  lemma ExtendGains(p: Pending, q: Pending, threshold: nat, s: int, more: seq<Sample>, id: int, run: seq<Sample>)
    requires Gained(p, q, threshold, s, more)
    ensures Gained(p, Extend(q, threshold, id, run), threshold, s, more + (if id == s then run else []))
  {
    var add := if id == s then run else [];
    assert Held(p, s) + (more + add) == (Held(p, s) + more) + add;
    assert more + [] == more;
  }

  lemma {:induction false} EachGains(p: Pending, threshold: nat, points: seq<Write>, s: int)
    ensures Gained(p, PutEach(p, threshold, points), threshold, s, Of(points, s))
  {
    hide Gained, Extend;
    if points == [] {
      GainedNone(p, threshold, s);
    } else {
      var t, w := points[..|points| - 1], points[|points| - 1];
      EachGains(p, threshold, t, s);
      ExtendGains(p, PutEach(p, threshold, t), threshold, s, Of(t, s), w.series, [w.sample]);
    }
  }

  lemma {:induction false} RunsGain(p: Pending, threshold: nat, ids: seq<int>, runs: seq<seq<Sample>>, d: nat, s: int)
    requires d <= |ids| == |runs|
    ensures Gained(p, PutRuns(p, threshold, ids, runs, d), threshold, s, Gathered(ids, runs, d, s))
  {
    hide Gained, Extend;
    if d == 0 {
      GainedNone(p, threshold, s);
    } else {
      RunsGain(p, threshold, ids, runs, d - 1, s);
      ExtendGains(p, PutRuns(p, threshold, ids, runs, d - 1), threshold, s, Gathered(ids, runs, d - 1, s),
        ids[d - 1], runs[d - 1]);
    }
  }

  /** The queue grows by the buffers newly queued, once each. */
  ghost predicate Queues(p: Pending, q: Pending) {
    && p.queue <= q.queue && p.queued <= q.queued
    && Distinct(q.queue[|p.queue|..])
    && forall s :: s in q.queue[|p.queue|..] <==> s in q.queued && s !in p.queued
  }

  lemma QueuesNone(p: Pending)
    ensures Queues(p, p)
  {
  }

  lemma ExtendQueues(p: Pending, q: Pending, threshold: nat, id: int, run: seq<Sample>)
    requires Queues(p, q)
    ensures Queues(p, Extend(q, threshold, id, run))
  {
    var next := Extend(q, threshold, id, run);
    var was := q.queue[|p.queue|..];
    if next.queue != q.queue {
      assert next.queue[|p.queue|..] == was + [id];
    }
  }

  lemma {:induction false} EachQueues(p: Pending, threshold: nat, points: seq<Write>)
    ensures Queues(p, PutEach(p, threshold, points))
  {
    hide Queues, Extend;
    if points == [] {
      QueuesNone(p);
    } else {
      var t, w := points[..|points| - 1], points[|points| - 1];
      EachQueues(p, threshold, t);
      ExtendQueues(p, PutEach(p, threshold, t), threshold, w.series, [w.sample]);
    }
  }

  lemma {:induction false} RunsQueue(p: Pending, threshold: nat, ids: seq<int>, runs: seq<seq<Sample>>, d: nat)
    requires d <= |ids| == |runs|
    ensures Queues(p, PutRuns(p, threshold, ids, runs, d))
  {
    hide Queues, Extend;
    if d == 0 {
      QueuesNone(p);
    } else {
      RunsQueue(p, threshold, ids, runs, d - 1);
      ExtendQueues(p, PutRuns(p, threshold, ids, runs, d - 1), threshold, ids[d - 1], runs[d - 1]);
    }
  }

  /** The same buffers, in the same order; the same series queued, in whatever
      order. */
  ghost predicate SamePending(a: Pending, b: Pending) {
    && (forall s :: (s in a.buffers <==> s in b.buffers) && Held(a, s) == Held(b, s))
    && (forall s :: s in a.queued <==> s in b.queued)
    && forall s :: multiset(a.queue)[s] == multiset(b.queue)[s]
  }

  lemma QueueCount(p: Pending, q: Pending, s: int)
    requires Queues(p, q)
    ensures multiset(q.queue)[s] == multiset(p.queue)[s] + (if s in q.queued && s !in p.queued then 1 else 0)
  {
    var more := q.queue[|p.queue|..];
    assert q.queue == p.queue + more;
    DistinctCount(more);
    assert s in more <==> multiset(more)[s] > 0;
  }

  /** One run for each series named, holding its points. */
  ghost predicate RunsHold(points: seq<Write>, ids: seq<int>, runs: seq<seq<Sample>>) {
    && |ids| == |runs| && Distinct(ids)
    && (forall d | 0 <= d < |ids| :: runs[d] == Of(points, ids[d]))
    && forall i | 0 <= i < |points| :: points[i].series in ids
  }

  lemma {:induction false} NotNamed(points: seq<Write>, s: int)
    requires forall i | 0 <= i < |points| :: points[i].series != s
    ensures Of(points, s) == []
  {
    if points != [] {
      NotNamed(points[..|points| - 1], s);
    }
  }

  lemma {:induction false} GatheredTo(points: seq<Write>, ids: seq<int>, runs: seq<seq<Sample>>, d: nat, s: int)
    requires RunsHold(points, ids, runs) && d <= |ids|
    ensures Gathered(ids, runs, d, s) == if s in ids[..d] then Of(points, s) else []
  {
    hide Of;
    if d > 0 {
      GatheredTo(points, ids, runs, d - 1, s);
      assert ids[..d] == ids[..d - 1] + [ids[d - 1]];
      if ids[d - 1] == s {
        assert s !in ids[..d - 1];
      }
    }
  }

  lemma GatheredAll(points: seq<Write>, ids: seq<int>, runs: seq<seq<Sample>>, s: int)
    requires RunsHold(points, ids, runs)
    ensures Gathered(ids, runs, |ids|, s) == Of(points, s)
  {
    GatheredTo(points, ids, runs, |ids|, s);
    assert ids[..|ids|] == ids;
    if s !in ids {
      NotNamed(points, s);
    }
  }

  lemma GainedSame(p: Pending, a: Pending, b: Pending, threshold: nat, s: int, more: seq<Sample>)
    requires Gained(p, a, threshold, s, more) && Gained(p, b, threshold, s, more)
    ensures (s in a.buffers <==> s in b.buffers) && Held(a, s) == Held(b, s)
    ensures s in a.queued <==> s in b.queued
  {
  }

  /** Appending the runs of a batch is putting its points one at a time. */
  lemma BatchIsPointwise(p: Pending, threshold: nat, points: seq<Write>, ids: seq<int>, runs: seq<seq<Sample>>)
    requires RunsHold(points, ids, runs)
    ensures SamePending(PutRuns(p, threshold, ids, runs, |ids|), PutEach(p, threshold, points))
  {
    hide Gained, Queues, RunsHold, PutRuns, PutEach, Of, Gathered, Held;
    RunsHoldLen(points, ids, runs);
    var a, b := PutRuns(p, threshold, ids, runs, |ids|), PutEach(p, threshold, points);
    EachQueues(p, threshold, points);
    RunsQueue(p, threshold, ids, runs, |ids|);
    forall s
      ensures (s in a.buffers <==> s in b.buffers) && Held(a, s) == Held(b, s)
      ensures s in a.queued <==> s in b.queued
      ensures multiset(a.queue)[s] == multiset(b.queue)[s]
    {
      EachGains(p, threshold, points, s);
      RunsGain(p, threshold, ids, runs, |ids|, s);
      GatheredAll(points, ids, runs, s);
      GainedSame(p, a, b, threshold, s, Of(points, s));
      QueueCount(p, a, s);
      QueueCount(p, b, s);
    }
  }

  lemma RunsHoldLen(points: seq<Write>, ids: seq<int>, runs: seq<seq<Sample>>)
    requires RunsHold(points, ids, runs)
    ensures |ids| == |runs|
  {
  }

  // ----------------------------------------------------------- in transactions

  lemma {:induction false} LoggedAll(log: seq<Write>, points: seq<Write>, s: int)
    ensures Logged(log + points, s) == Logged(log, s) + multiset(Of(points, s))
  {
    if points == [] {
      assert log + points == log;
    } else {
      var t, w := points[..|points| - 1], points[|points| - 1];
      assert log + points == (log + t) + [w];
      LoggedMore(log + t, w, s);
      LoggedAll(log, t, s);
    }
  }

  ghost predicate Appended(a: Buffers, b: Buffers, points: seq<Write>) {
    forall s :: Buffered(b, s) == Buffered(a, s) + multiset(Of(points, s))
  }

  /** A batch in the buffers is a batch in the log. */
  lemma BatchRefines(st: Store, buffers: Buffers, points: seq<Write>, sp: Spec)
    requires Refines(st, sp) && st.saves != [] && Appended(st.buffers, buffers, points)
    ensures Refines(st.(buffers := buffers), Spec(sp.log + points, sp.saves))
  {
    hide Contents, Logged, Of, Buffered, Drained;
    var next := st.(buffers := buffers);
    forall s ensures Visible(next, s) == Logged(sp.log + points, s) {
      LoggedAll(sp.log, points, s);
      assert Visible(st, s) == Logged(sp.log, s);
    }
  }

  lemma HeldAppended(p: Pending, threshold: nat, points: seq<Write>, q: Pending)
    requires SamePending(q, PutEach(p, threshold, points))
    ensures Appended(p.buffers, q.buffers, points)
  {
    hide PutEach, Of;
    forall s ensures Buffered(q.buffers, s) == Buffered(p.buffers, s) + multiset(Of(points, s)) {
      EachGains(p, threshold, points, s);
      var b := PutEach(p, threshold, points);
      assert Held(q, s) == Held(b, s);
      assert multiset(Held(p, s) + Of(points, s)) == multiset(Held(p, s)) + multiset(Of(points, s));
    }
  }
}
