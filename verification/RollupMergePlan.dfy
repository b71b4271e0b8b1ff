/** Which of a group's rollup chunks are put together: runs of neighbours, cut
    where the next would not fit. */
module RollupMergePlan {
  import opened Sequences
  import opened RollupStore

  const MERGE_TARGET: nat := 256
  const MERGE_MIN: nat := 4

  /** A group still rolled up merges by size, newest first; one whose series
      has no raw chunk left is put together whatever the sizes. */
  datatype Rule = Live | Ended

  function BucketCount(c: Chunk): int {
    |c.buckets|
  }

  function Total(run: seq<Chunk>): int {
    Sum(run, BucketCount)
  }

  function Largest(run: seq<Chunk>): nat {
    if run == [] then 0
    else
      var n := |run[|run| - 1].buckets|;
      var m := Largest(run[..|run| - 1]);
      if n > m then n else m
  }

  predicate Joins(rule: Rule, total: int, count: nat) {
    total + count <= MERGE_TARGET && (rule.Live? ==> count <= total)
  }

  /** The chunks cut into runs, each as long as its next member joins. */
  function Runs(rule: Rule, entries: seq<Chunk>): seq<seq<Chunk>> {
    if entries == [] then []
    else
      var runs, c := Runs(rule, entries[..|entries| - 1]), entries[|entries| - 1];
      if runs != [] && Joins(rule, Total(runs[|runs| - 1]), |c.buckets|) then
        runs[..|runs| - 1] + [runs[|runs| - 1] + [c]]
      else runs + [[c]]
  }

  predicate Worth(rule: Rule, run: seq<Chunk>) {
    match rule
    case Live => |run| >= MERGE_MIN && Total(run) >= 2 * Largest(run)
    case Ended => |run| >= 2
  }

  function Reversed<T>(s: seq<T>): seq<T> {
    if s == [] then [] else [s[|s| - 1]] + Reversed(s[..|s| - 1])
  }

  function WorthOf(rule: Rule, runs: seq<seq<Chunk>>): seq<seq<Chunk>> {
    Filter(runs, (run: seq<Chunk>) => Worth(rule, run))
  }

  function EachReversed(runs: seq<seq<Chunk>>): seq<seq<Chunk>> {
    if runs == [] then [] else EachReversed(runs[..|runs| - 1]) + [Reversed(runs[|runs| - 1])]
  }

  /** `plan_live_rollup_group` and `plan_ended_rollup_group`. */
  function PlanGroup(rule: Rule, entries: seq<Chunk>): seq<seq<Chunk>> {
    match rule
    case Ended => WorthOf(Ended, Runs(Ended, entries))
    case Live => EachReversed(WorthOf(Live, Runs(Live, Reversed(entries))))
  }

  // ---------------------------------------------------------- the two loops

  ghost predicate NonEmpty(entries: seq<Chunk>) {
    forall c | c in entries :: c.buckets != []
  }

  /** The runs closed so far and the one being collected are the runs of what
      was read. After a full chunk nothing is being collected. */
  ghost predicate Collected(rule: Rule, read: seq<Chunk>, closed: seq<seq<Chunk>>, run: seq<Chunk>, total: int) {
    && total == Total(run)
    && Runs(rule, read) == closed + (if run == [] then [] else [run])
    && (run == [] && closed != [] ==> Total(closed[|closed| - 1]) >= MERGE_TARGET)
  }

  lemma CollectJoin(rule: Rule, read: seq<Chunk>, closed: seq<seq<Chunk>>, run: seq<Chunk>, total: int, c: Chunk)
    requires Collected(rule, read, closed, run, total) && run != [] && Joins(rule, total, |c.buckets|)
    ensures Collected(rule, read + [c], closed, run + [c], total + |c.buckets|)
  {
    hide Total;
    var runs := Runs(rule, read);
    assert (read + [c])[..|read|] == read;
    TotalMore(run, c);
    assert runs == closed + [run];
    assert runs[|runs| - 1] == run && runs[..|runs| - 1] == closed;
  }

  /** The run being collected is closed and another begun, or, at a full
      chunk, none. */
  lemma CollectBreak(rule: Rule, read: seq<Chunk>, closed: seq<seq<Chunk>>, run: seq<Chunk>, total: int, c: Chunk)
    requires Collected(rule, read, closed, run, total) && c.buckets != []
    requires run == [] || !Joins(rule, total, |c.buckets|)
    ensures var shut := closed + (if run == [] then [] else [run]);
      && Collected(rule, read + [c], shut, [c], |c.buckets|)
      && (|c.buckets| >= MERGE_TARGET ==> Collected(rule, read + [c], shut + [[c]], [], 0))
  {
    hide Total;
    var runs := Runs(rule, read);
    var shut := closed + (if run == [] then [] else [run]);
    assert (read + [c])[..|read|] == read;
    TotalMore([], c);
    if run != [] {
      assert runs == closed + [run];
      assert runs[|runs| - 1] == run;
    } else {
      assert runs == closed + [] == closed;
    }
    assert Runs(rule, read + [c]) == shut + [[c]];
    assert (shut + [[c]]) + [] == shut + [[c]];
  }

  lemma CollectNone(rule: Rule)
    ensures Collected(rule, [], [], [], 0)
  {
  }

  lemma TotalMore(run: seq<Chunk>, c: Chunk)
    ensures Total(run + [c]) == Total(run) + |c.buckets|
    ensures Total([c]) == |c.buckets| && Total([]) == 0
    ensures Largest(run + [c]) == if |c.buckets| > Largest(run) then |c.buckets| else Largest(run)
  {
    SumConcat(run, [c], BucketCount);
    SumOne(c, BucketCount);
    assert (run + [c])[..|run|] == run;
  }

  lemma WorthMore(rule: Rule, closed: seq<seq<Chunk>>, run: seq<Chunk>)
    ensures WorthOf(rule, closed + [run]) == WorthOf(rule, closed) + (if Worth(rule, run) then [run] else [])
  {
    hide Worth;
    assert (closed + [run])[..|closed|] == closed;
  }

  /** A run is closed: it is planned if it is worth it. */
  method Close(rule: Rule, run: seq<Chunk>, plans: seq<seq<Chunk>>) returns (out: seq<seq<Chunk>>)
    ensures out == plans + (if Worth(rule, run) then [run] else [])
  {
    if rule.Ended? {
      out := if |run| >= 2 then plans + [run] else plans;
    } else {
      var largest, total := 0, 0;
      for i := 0 to |run|
        invariant largest == Largest(run[..i]) && total == Total(run[..i])
      {
        var n := |run[i].buckets|;
        assert run[..i + 1] == run[..i] + [run[i]];
        TotalMore(run[..i], run[i]);
        if n > largest {
          largest := n;
        }
        total := total + n;
      }
      assert run[..|run|] == run;
      out := if |run| >= MERGE_MIN && total >= 2 * largest then plans + [run] else plans;
    }
  }

  method CollectRuns(rule: Rule, entries: seq<Chunk>) returns (plans: seq<seq<Chunk>>)
    requires NonEmpty(entries)
    ensures plans == WorthOf(rule, Runs(rule, entries))
  {
    hide Runs, WorthOf, Worth, Total, Collected, Joins;
    plans := [];
    var run: seq<Chunk>, total := [], 0;
    ghost var closed: seq<seq<Chunk>> := [];
    CollectNone(rule);
    NoneWorth(rule);
    for i := 0 to |entries|
      invariant Collected(rule, entries[..i], closed, run, total)
      invariant plans == WorthOf(rule, closed)
    {
      var c := entries[i];
      var count := |c.buckets|;
      assert c in entries;
      assert entries[..i + 1] == entries[..i] + [c];
      if run != [] && count < MERGE_TARGET && Joins(rule, total, count) {
        CollectJoin(rule, entries[..i], closed, run, total, c);
        run, total := run + [c], total + count;
      } else {
        FullJoinsNone(rule, entries[..i], closed, run, total, c);
        CollectBreak(rule, entries[..i], closed, run, total, c);
        if run != [] {
          WorthMore(rule, closed, run);
          plans := Close(rule, run, plans);
          closed := closed + [run];
        } else {
          assert closed + [] == closed;
        }
        if count >= MERGE_TARGET {
          // Full already: a boundary, not a member.
          WorthMore(rule, closed, [c]);
          OneIsNotWorth(rule, c);
          closed := closed + [[c]];
          run, total := [], 0;
        } else {
          run, total := [c], count;
        }
      }
    }
    assert entries[..|entries|] == entries;
    CollectedAll(rule, entries, closed, run, total);
    if run != [] {
      WorthMore(rule, closed, run);
      plans := Close(rule, run, plans);
    }
  }

  lemma CollectedAll(rule: Rule, read: seq<Chunk>, closed: seq<seq<Chunk>>, run: seq<Chunk>, total: int)
    requires Collected(rule, read, closed, run, total)
    ensures Runs(rule, read) == if run == [] then closed else closed + [run]
  {
    assert closed + [] == closed;
  }

  lemma NoneWorth(rule: Rule)
    ensures WorthOf(rule, []) == []
  {
  }

  /** A full chunk joins no run that holds anything. */
  lemma FullJoinsNone(rule: Rule, read: seq<Chunk>, closed: seq<seq<Chunk>>, run: seq<Chunk>, total: int, c: Chunk)
    requires Collected(rule, read, closed, run, total) && NonEmpty(read)
    ensures run != [] && |c.buckets| >= MERGE_TARGET ==> !Joins(rule, total, |c.buckets|)
  {
    hide Total;
    if run != [] {
      RunsShape(rule, read);
      var runs := Runs(rule, read);
      assert runs[|runs| - 1] == run;
      FlattenMember(runs, run[0]);
      assert run[0] in read;
      TotalPositive(run, run[0]);
    }
  }

  lemma TotalPositive(run: seq<Chunk>, c: Chunk)
    requires c in run && c.buckets != []
    ensures Total(run) > 0
  {
    SumMember(run, BucketCount, c);
  }

  lemma OneIsNotWorth(rule: Rule, c: Chunk)
    ensures !Worth(rule, [c])
  {
  }

  /** `plan_ended_rollup_group`. */
  method PlanEndedGroup(entries: seq<Chunk>) returns (plans: seq<seq<Chunk>>)
    requires NonEmpty(entries)
    ensures plans == PlanGroup(Ended, entries)
  {
    plans := CollectRuns(Ended, entries);
  }

  /** `plan_live_rollup_group`: read newest first, each run turned back. */
  method PlanLiveGroup(entries: seq<Chunk>) returns (plans: seq<seq<Chunk>>)
    requires NonEmpty(entries)
    ensures plans == PlanGroup(Live, entries)
  {
    ReversedMembers(entries);
    var runs := CollectRuns(Live, Reversed(entries));
    plans := [];
    for i := 0 to |runs|
      invariant plans == EachReversed(runs[..i])
    {
      assert runs[..i + 1][..i] == runs[..i];
      plans := plans + [Reversed(runs[i])];
    }
    assert runs[..|runs|] == runs;
  }

  lemma {:induction false} ReversedMembers<T>(s: seq<T>)
    ensures |Reversed(s)| == |s|
    ensures forall x :: x in Reversed(s) <==> x in s
    ensures forall i | 0 <= i < |s| :: Reversed(s)[i] == s[|s| - 1 - i]
  {
    if s != [] {
      ReversedMembers(s[..|s| - 1]);
      assert s == s[..|s| - 1] + [s[|s| - 1]];
    }
  }

  // --------------------------------------------------------- what a plan is

  lemma {:induction false} RunsFlatten(rule: Rule, entries: seq<Chunk>)
    ensures Flatten(Runs(rule, entries)) == entries
  {
    hide Total, Flatten;
    if entries != [] {
      var t, c := entries[..|entries| - 1], entries[|entries| - 1];
      assert entries == t + [c];
      RunsFlatten(rule, t);
      var runs := Runs(rule, t);
      if runs != [] && Joins(rule, Total(runs[|runs| - 1]), |c.buckets|) {
        var early, last := runs[..|runs| - 1], runs[|runs| - 1];
        assert runs == early + [last];
        FlattenConcat(early, [last]);
        FlattenConcat(early, [last + [c]]);
        FlattenOne(last);
        FlattenOne(last + [c]);
        assert Flatten(early) + (last + [c]) == (Flatten(early) + last) + [c];
      } else {
        FlattenConcat(runs, [[c]]);
        FlattenOne([c]);
      }
    } else {
      FlattenNone();
    }
  }

  lemma FlattenNone()
    ensures Flatten<Chunk>([]) == []
  {
  }

  ghost predicate Fits(run: seq<Chunk>) {
    run != [] && (|run| >= 2 ==> Total(run) <= MERGE_TARGET)
  }

  lemma {:induction false} RunsFit(rule: Rule, entries: seq<Chunk>)
    ensures forall run | run in Runs(rule, entries) :: Fits(run)
  {
    hide Total;
    if entries != [] {
      var t, c := entries[..|entries| - 1], entries[|entries| - 1];
      RunsFit(rule, t);
      var runs := Runs(rule, t);
      if runs != [] && Joins(rule, Total(runs[|runs| - 1]), |c.buckets|) {
        var early, last := runs[..|runs| - 1], runs[|runs| - 1];
        TotalMore(last, c);
        forall run | run in Runs(rule, entries) ensures Fits(run) {
          if run != last + [c] {
            assert run in early && run in runs;
          }
        }
      }
    }
  }

  lemma RunsShape(rule: Rule, entries: seq<Chunk>)
    ensures Flatten(Runs(rule, entries)) == entries
    ensures forall run | run in Runs(rule, entries) :: Fits(run)
  {
    RunsFlatten(rule, entries);
    RunsFit(rule, entries);
  }

  ghost predicate IsSlice<T(!new)>(run: seq<T>, s: seq<T>) {
    exists i, j :: 0 <= i <= j <= |s| && run == s[i..j]
  }

  lemma {:induction false} FlattenSlice<T(!new)>(ss: seq<seq<T>>, run: seq<T>)
    requires run in ss
    ensures IsSlice(run, Flatten(ss))
  {
    var k :| 0 <= k < |ss| && ss[k] == run;
    var a, b := ss[..k], ss[k + 1..];
    assert ss == (a + [run]) + b;
    FlattenConcat(a + [run], b);
    FlattenConcat(a, [run]);
    FlattenOne(run);
    var i := |Flatten(a)|;
    assert Flatten(ss)[i..i + |run|] == run;
  }

  lemma SliceReversed<T(!new)>(run: seq<T>, s: seq<T>)
    requires IsSlice(run, Reversed(s))
    ensures IsSlice(Reversed(run), s)
  {
    hide Reversed;
    ReversedMembers(s);
    var i, j :| 0 <= i <= j <= |Reversed(s)| && run == Reversed(s)[i..j];
    var n := |s|;
    SliceBack(s, run, i, j);
    assert IsSlice(Reversed(run), s) by {
      var lo, hi := n - j, n - i;
      assert 0 <= lo <= hi <= |s| && Reversed(run) == s[lo..hi];
    }
  }

  lemma SliceBack<T>(s: seq<T>, run: seq<T>, i: nat, j: nat)
    requires i <= j <= |s| == |Reversed(s)| && run == Reversed(s)[i..j]
    ensures Reversed(run) == s[|s| - j..|s| - i]
  {
    hide Reversed;
    ReversedMembers(s);
    ReversedMembers(run);
    var n, t := |s|, s[|s| - j..|s| - i];
    forall k | 0 <= k < |run| ensures Reversed(run)[k] == t[k] {
      assert Reversed(run)[k] == run[|run| - 1 - k];
      assert run[|run| - 1 - k] == Reversed(s)[j - 1 - k];
      assert Reversed(s)[j - 1 - k] == s[n - j + k];
    }
  }

  lemma {:induction false} EachReversedMember(runs: seq<seq<Chunk>>, run: seq<Chunk>)
    ensures run in EachReversed(runs) <==> exists x :: x in runs && run == Reversed(x)
  {
    if runs != [] {
      var t, last := runs[..|runs| - 1], runs[|runs| - 1];
      assert runs == t + [last];
      EachReversedMember(t, run);
      if run in EachReversed(t) {
        var x :| x in t && run == Reversed(x);
        assert x in runs;
      } else if run == Reversed(last) {
        assert last in runs;
      }
    }
  }

  lemma {:induction false} ReversedTotal(run: seq<Chunk>)
    ensures Total(Reversed(run)) == Total(run)
  {
    if run != [] {
      var t, c := run[..|run| - 1], run[|run| - 1];
      ReversedTotal(t);
      SumConcat([c], Reversed(t), BucketCount);
      SumOne(c, BucketCount);
    }
  }

  lemma {:induction false} ReversedLargest(run: seq<Chunk>)
    ensures Largest(Reversed(run)) == Largest(run)
  {
    if run != [] {
      var t, c := run[..|run| - 1], run[|run| - 1];
      ReversedLargest(t);
      LargestFirst(c, Reversed(t));
    }
  }

  lemma {:induction false} LargestFirst(c: Chunk, run: seq<Chunk>)
    ensures Largest([c] + run) == if |c.buckets| > Largest(run) then |c.buckets| else Largest(run)
  {
    if run == [] {
      assert [c] + run == [c] && [c][..0] == [];
    } else {
      assert ([c] + run)[..|run|] == [c] + run[..|run| - 1];
      LargestFirst(c, run[..|run| - 1]);
    }
  }

  // ------------------------------------------------------ when there is a plan

  /** The last run only grows while what is next joins it. */
  lemma LastRun(rule: Rule, entries: seq<Chunk>)
    requires entries != []
    ensures var runs := Runs(rule, entries);
            && runs != [] && runs[|runs| - 1] != []
            && runs[|runs| - 1][|runs[|runs| - 1]| - 1] == entries[|entries| - 1]
  {
    hide Joins;
  }

  lemma OneMoreRun(rule: Rule, entries: seq<Chunk>, c: Chunk)
    ensures var runs := Runs(rule, entries);
            Runs(rule, entries + [c]) ==
            if runs != [] && Joins(rule, Total(runs[|runs| - 1]), |c.buckets|)
            then runs[..|runs| - 1] + [runs[|runs| - 1] + [c]] else runs + [[c]]
  {
    assert (entries + [c])[..|entries|] == entries;
  }

  lemma WorthStays(rule: Rule, runs: seq<seq<Chunk>>, run: seq<Chunk>)
    requires run in runs && Worth(rule, run)
    ensures WorthOf(rule, runs) != []
  {
    FilterMember(runs, (x: seq<Chunk>) => Worth(rule, x), run);
  }

  /** A group whose series has ended is left alone if and only if no two
      neighbours fit one chunk. */
  lemma {:induction false} EndedLeft(entries: seq<Chunk>)
    requires NonEmpty(entries)
    ensures PlanGroup(Ended, entries) == [] <==>
            forall i | 0 < i < |entries| :: |entries[i - 1].buckets| + |entries[i].buckets| > 256
  {
    hide Total, Runs, Worth, PlanGroup;
    if entries != [] {
      var t, c := entries[..|entries| - 1], entries[|entries| - 1];
      assert entries == t + [c];
      assert forall x | x in t :: x in entries;
      EndedLeft(t);
      if t == [] {
        OneIsLeft(c);
      } else {
        EndedMore(t, c);
      }
    } else {
      NoneIsLeft();
    }
  }

  lemma NoneIsLeft()
    ensures PlanGroup(Ended, []) == []
  {
    NoRunsOf(Ended);
    NoneWorth(Ended);
  }

  lemma OneIsLeft(c: Chunk)
    ensures PlanGroup(Ended, [c]) == []
  {
    hide Total, Runs, Worth;
    OneMoreRun(Ended, [], c);
    NoRunsOf(Ended);
    WorthMore(Ended, [], [c]);
    NoneWorth(Ended);
    assert [] + [c] == [c] && [] + [[c]] == [[c]];
    OneIsNotWorth(Ended, c);
  }

  lemma NoRunsOf(rule: Rule)
    ensures Runs(rule, []) == []
  {
  }

  /** One chunk more: a plan as soon as there was one, or the two last fit. */
  lemma EndedMore(t: seq<Chunk>, c: Chunk)
    requires t != [] && NonEmpty(t + [c])
    ensures PlanGroup(Ended, t + [c]) == [] <==>
            PlanGroup(Ended, t) == [] && |t[|t| - 1].buckets| + |c.buckets| > 256
  {
    hide Total, Runs, Worth;
    var runs := Runs(Ended, t);
    LastRun(Ended, t);
    OneMoreRun(Ended, t, c);
    var early, run := runs[..|runs| - 1], runs[|runs| - 1];
    assert runs == early + [run];
    WorthMore(Ended, early, run);
    EndedWorth(run, c);
    TotalMore([], t[|t| - 1]);
    if Joins(Ended, Total(run), |c.buckets|) {
      WorthMore(Ended, early, run + [c]);
      if |run| == 1 {
        assert run == [t[|t| - 1]];
      }
    } else {
      WorthMore(Ended, runs, [c]);
      OneIsNotWorth(Ended, c);
      if |run| == 1 {
        assert run == [t[|t| - 1]];
      }
      assert WorthOf(Ended, runs) + [] == WorthOf(Ended, runs);
    }
    LastInRun(run, t[|t| - 1]);
  }

  lemma EndedWorth(run: seq<Chunk>, c: Chunk)
    requires run != []
    ensures Worth(Ended, run) <==> |run| >= 2
    ensures Worth(Ended, run + [c])
  {
  }

  lemma LastInRun(run: seq<Chunk>, c: Chunk)
    requires run != [] && run[|run| - 1] == c
    ensures Total(run) >= |c.buckets|
  {
    SumMember(run, BucketCount, c);
  }

  /** The buckets of the first `n`. */
  function Held(entries: seq<Chunk>, from: nat, n: nat): nat
    requires from <= n <= |entries|
    decreases n
  {
    if n == from then 0 else Held(entries, from, n - 1) + |entries[n - 1].buckets|
  }

  /** A live group, newest chunk first: at least four chunks from the newest on,
      each with no more buckets than those before it together, none more than
      half of all, and 256 in all. */
  ghost predicate FourFit(back: seq<Chunk>, n: nat) {
    && 4 <= n <= |back|
    && Held(back, 0, n) <= 256
    && (forall i | 0 < i < n :: |back[i].buckets| <= Held(back, 0, i))
    && (forall i | 0 <= i < n :: 2 * |back[i].buckets| <= Held(back, 0, n))
  }

  lemma {:induction false} HeldTotal(back: seq<Chunk>, n: nat)
    requires n <= |back|
    ensures Total(back[..n]) == Held(back, 0, n)
    decreases n
  {
    if n > 0 {
      HeldTotal(back, n - 1);
      assert back[..n] == back[..n - 1] + [back[n - 1]];
      TotalMore(back[..n - 1], back[n - 1]);
    } else {
      assert back[..0] == [];
      TotalNone();
    }
  }

  lemma TotalNone()
    ensures Total([]) == 0
  {
  }

  /** As long as each joins, there is one run. */
  lemma {:induction false} OneRun(back: seq<Chunk>, n: nat, all: nat)
    requires FourFit(back, all) && 0 < n <= all
    ensures Runs(Live, back[..n]) == [back[..n]]
    decreases n
  {
    hide Total, Runs;
    var t := back[..n - 1];
    assert back[..n] == t + [back[n - 1]];
    OneMoreRun(Live, t, back[n - 1]);
    if n == 1 {
      assert t == [] && back[..1] == [back[0]];
      NoRunsOf(Live);
      assert [] + [[back[0]]] == [[back[0]]];
    } else {
      OneRun(back, n - 1, all);
      HeldTotal(back, n - 1);
      HeldGrows(back, n, all);
      assert [t][..0] == [];
    }
  }

  lemma {:induction false} HeldGrows(back: seq<Chunk>, n: nat, all: nat)
    requires n <= all <= |back|
    ensures Held(back, 0, n) <= Held(back, 0, all)
    decreases all
  {
    if n < all {
      HeldGrows(back, n, all - 1);
    }
  }

  /** A run that begins with those is worth it however it goes on. */
  ghost predicate Well(run: seq<Chunk>) {
    |run| >= 4 && Total(run) >= 2 * Largest(run)
  }

  lemma {:induction false} FirstRunWell(back: seq<Chunk>, n: nat, k: nat)
    requires FourFit(back, n) && n <= k <= |back|
    ensures var runs := Runs(Live, back[..k]); runs != [] && Well(runs[0])
    decreases k
  {
    hide Total, Runs, Largest;
    if k == n {
      OneRun(back, n, n);
      HeldTotal(back, n);
      LargestBelow(back[..n], Held(back, 0, n));
    } else {
      var t, c := back[..k - 1], back[k - 1];
      FirstRunWell(back, n, k - 1);
      assert back[..k] == t + [c];
      OneMoreRun(Live, t, c);
      var runs := Runs(Live, t);
      hide Joins;
      if runs != [] && Joins(Live, Total(runs[|runs| - 1]), |c.buckets|) {
        if |runs| == 1 {
          WellMore(runs[0], c);
        }
      }
    }
  }

  lemma WellMore(run: seq<Chunk>, c: Chunk)
    requires Well(run) && Joins(Live, Total(run), |c.buckets|)
    ensures Well(run + [c])
  {
    hide Total, Largest;
    TotalMore(run, c);
  }

  lemma {:induction false} LargestBelow(run: seq<Chunk>, all: nat)
    requires forall i | 0 <= i < |run| :: 2 * |run[i].buckets| <= all
    ensures 2 * Largest(run) <= all
  {
    if run != [] {
      LargestBelow(run[..|run| - 1], all);
    }
  }

  /** A live group whose newest chunks are so is merged. */
  lemma LivePlanned(entries: seq<Chunk>, n: nat)
    requires FourFit(Reversed(entries), n)
    ensures PlanGroup(Live, entries) != []
  {
    hide Runs, Total, Largest, Reversed, FourFit;
    var back := Reversed(entries);
    FourFitLength(back, n);
    FirstRunWell(back, n, |back|);
    assert back[..|back|] == back;
    var runs := Runs(Live, back);
    WellWorth(runs[0]);
    WorthStays(Live, runs, runs[0]);
    EachReversedSome(WorthOf(Live, runs));
  }

  lemma FourFitLength(back: seq<Chunk>, n: nat)
    requires FourFit(back, n)
    ensures n <= |back|
  {
  }

  lemma WellWorth(run: seq<Chunk>)
    requires Well(run)
    ensures Worth(Live, run)
  {
  }

  lemma EachReversedSome(runs: seq<seq<Chunk>>)
    requires runs != []
    ensures EachReversed(runs) != []
  {
  }

  /** Every planned run is a stretch of neighbours, oldest first, of at least
      two chunks, that fits one chunk; in a live group it has at least four and
      twice its largest. */
  lemma PlanGroupShape(rule: Rule, entries: seq<Chunk>, run: seq<Chunk>)
    requires NonEmpty(entries) && run in PlanGroup(rule, entries)
    ensures IsSlice(run, entries) && Worth(rule, run) && |run| >= 2 && Total(run) <= MERGE_TARGET
  {
    hide Runs, Total, Largest, Reversed;
    match rule {
      case Ended =>
        FilterMember(Runs(Ended, entries), (x: seq<Chunk>) => Worth(Ended, x), run);
        RunsShape(Ended, entries);
        FlattenSlice(Runs(Ended, entries), run);
      case Live =>
        var back := Reversed(entries);
        ReversedMembers(entries);
        EachReversedMember(WorthOf(Live, Runs(Live, back)), run);
        var x :| x in WorthOf(Live, Runs(Live, back)) && run == Reversed(x);
        FilterMember(Runs(Live, back), (y: seq<Chunk>) => Worth(Live, y), x);
        RunsShape(Live, back);
        FlattenSlice(Runs(Live, back), x);
        SliceReversed(x, entries);
        ReversedMembers(x);
        ReversedTotal(x);
        ReversedLargest(x);
    }
  }
}
