/** The amortised bound on rollup rewriting: a size-tiered merge at least
    doubles the chunk a bucket is in, so over every run the buckets rewritten
    by such merges are at most eight times the buckets ever written. */
module RollupRewrites {
  import opened Sequences
  import opened RollupStore
  import opened RollupPass
  import opened RollupSettled
  import opened RollupMergePlan
  import opened RollupMerge
  import opened RollupMergeStep
  import opened WritePotential

  function PhiOf(n: int): int {
    if n <= 0 || n > MERGE_TARGET then 0 else n * (8 - Log2(n))
  }

  function PhiChunk(c: Chunk): int {
    PhiOf(|c.buckets|)
  }

  lemma Log2UpTo(n: nat)
    requires 0 < n <= MERGE_TARGET
    ensures Log2(n) <= 8
  {
    PowersOfTwo();
    Log2Range(256, 8);
    Log2Monotone(n, 256);
  }

  lemma PhiOfBounds(n: nat)
    ensures 0 <= PhiOf(n) <= 8 * n
  {
    hide Log2;
    if 0 < n <= MERGE_TARGET {
      Log2UpTo(n);
      ScaleBounds(n, 8 - Log2(n));
    }
  }

  lemma ScaleBounds(n: nat, k: int)
    requires 0 <= k <= 8
    ensures 0 <= n * k <= 8 * n
  {
  }

  lemma ScaleMonotone(n: nat, a: int, b: int)
    requires a <= b
    ensures n * a <= n * b
  {
  }

  lemma SplitProduct(a: int, b: int, k: int)
    ensures (a + b) * k == a * k + b * k
  {
  }

  /** Each member carries at least its share of `level`. */
  lemma {:induction false} ShareOf(run: seq<Chunk>, level: int)
    requires forall c | c in run :: c.buckets != [] && |c.buckets| <= MERGE_TARGET && Log2(|c.buckets|) <= 8 - level
    ensures Sum(run, PhiChunk) >= Total(run) * level
  {
    hide Log2;
    if run == [] {
      assert Total(run) == 0;
    } else {
      var t, c := run[..|run| - 1], run[|run| - 1];
      assert c in run && forall d | d in t :: d in run;
      ShareOf(t, level);
      ScaleMonotone(|c.buckets|, level, 8 - Log2(|c.buckets|));
      SplitProduct(Total(t), |c.buckets|, level);
    }
  }

  lemma {:induction false} LargestBound(run: seq<Chunk>, c: Chunk)
    requires c in run
    ensures |c.buckets| <= Largest(run)
  {
    if run != [] && c != run[|run| - 1] {
      var t := run[..|run| - 1];
      assert run == t + [run[|run| - 1]];
      LargestBound(t, c);
    }
  }

  lemma MemberBound(run: seq<Chunk>, c: Chunk)
    requires c in run
    ensures |c.buckets| <= Total(run)
  {
    SumMember(run, BucketCount, c);
  }

  /** A live merge frees at least the buckets it rewrites. */
  lemma LivePays(run: seq<Chunk>)
    requires NonEmpty(run) && run != [] && Worth(Live, run) && Total(run) <= MERGE_TARGET
    ensures Sum(run, PhiChunk) >= Total(run) + PhiOf(Total(run))
  {
    hide Log2, Total, Sum;
    var n := Total(run);
    TotalPositive(run, run[0]);
    var level := 9 - Log2(n);
    forall c | c in run
      ensures c.buckets != [] && |c.buckets| <= MERGE_TARGET && Log2(|c.buckets|) <= 8 - level
    {
      LargestBound(run, c);
      Log2Double(|c.buckets|, n);
    }
    ShareOf(run, level);
    SplitProduct(1, 8 - Log2(n), n);
    assert n * level == n + n * (8 - Log2(n));
  }

  /** Any merge that fits one chunk frees something or nothing. */
  lemma EndedPays(run: seq<Chunk>)
    requires NonEmpty(run) && run != [] && Total(run) <= MERGE_TARGET
    ensures Sum(run, PhiChunk) >= PhiOf(Total(run))
  {
    hide Log2, Total, Sum;
    var n := Total(run);
    TotalPositive(run, run[0]);
    var level := 8 - Log2(n);
    forall c | c in run
      ensures c.buckets != [] && |c.buckets| <= MERGE_TARGET && Log2(|c.buckets|) <= 8 - level
    {
      MemberBound(run, c);
      Log2Monotone(|c.buckets|, n);
    }
    ShareOf(run, level);
  }

  // -------------------------------------------------------- sums over the rows

  lemma TakeOutRun(rolls: seq<Chunk>, run: seq<Chunk>)
    requires IdsRise(rolls) && Distinct(run) && AreRows(rolls, run)
    ensures multiset(rolls) == multiset(Kept(rolls, RunIds(run)) + run)
  {
    hide RunIds;
    DistinctCount(rolls);
    DistinctCount(run);
    assert Distinct(rolls);
    var rest := Kept(rolls, RunIds(run));
    forall c: Chunk ensures multiset(rolls)[c] == multiset(rest + run)[c] {
      FilterCount(rolls, (d: Chunk) => d.id !in RunIds(run), c);
      assert multiset(rest + run)[c] == multiset(rest)[c] + multiset(run)[c];
      assert c in multiset(run) <==> c in run;
      assert c in multiset(rolls) <==> c in rolls;
      if c in rolls {
        IdDecides(rolls, run, c);
      }
    }
  }

  lemma MergeOneSum(rolls: seq<Chunk>, run: seq<Chunk>, first: nat)
    requires ValidRollups(rolls) && Adjacent(rolls, run) && Total(run) <= MERGE_TARGET
    ensures Sum(MergeOne(rolls, run, first), PhiChunk) ==
            Sum(rolls, PhiChunk) - Sum(run, PhiChunk) + PhiOf(Total(run))
  {
    hide Log2, Sum, Kept, Adjacent, ValidRollups, PhiOf, RunBuckets;
    var rest := Kept(rolls, RunIds(run));
    AdjacentPresent(rolls, run);
    AdjacentDistinct(rolls, run);
    ValidIds(rolls);
    TakeOutRun(rolls, run);
    SumPermutation(rolls, rest + run, PhiChunk);
    SumConcat(rest, run, PhiChunk);
    RunOnGrid(rolls, run);
    TotalIsLength(run);
    var c := NewChunk(first, run[0].series, run[0].resolution, RunBuckets(run));
    assert MergedChunks(run, first) == [c];
    SumConcat(rest, [c], PhiChunk);
    SumOne(c, PhiChunk);
  }

  lemma AdjacentDistinct(rolls: seq<Chunk>, run: seq<Chunk>)
    requires ValidRollups(rolls) && Adjacent(rolls, run)
    ensures Distinct(run) && NonEmpty(run)
  {
    hide ValidRollups;
    RowsExact(rolls, run);
    forall i, j | 0 <= i < j < |run| ensures run[i] != run[j] {
      assert run[i] in run && run[j] in run;
      ExactSpan(run[i]);
      ExactSpan(run[j]);
      assert run[i].maxTs < run[j].minTs;
    }
  }

  lemma {:induction false} FewerSum(rolls: seq<Chunk>, p: Chunk -> bool)
    ensures Sum(Filter(rolls, p), PhiChunk) <= Sum(rolls, PhiChunk)
  {
    if rolls != [] {
      var t, c := rolls[..|rolls| - 1], rolls[|rolls| - 1];
      FewerSum(t, p);
      PhiOfBounds(|c.buckets|);
      SumConcat(Filter(t, p), if p(c) then [c] else [], PhiChunk);
      SumOne(c, PhiChunk);
    }
  }

  lemma {:induction false} WrittenSum(cs: seq<Chunk>)
    ensures Sum(cs, PhiChunk) <= 8 * Total(cs)
  {
    if cs != [] {
      WrittenSum(cs[..|cs| - 1]);
      PhiOfBounds(|cs[|cs| - 1].buckets|);
    }
  }

  // ------------------------------------------------------------------ the run

  /** The rollup rows with the two counts the bound is about. */
  datatype Ledger = Ledger(rolls: seq<Chunk>, rewritten: int, written: int)

  datatype Event =
    | Written(chunks: seq<Chunk>)
    | Dropped(ids: set<nat>)
    | Merged(rule: Rule, run: seq<Chunk>, first: nat)

  ghost predicate Next(a: Ledger, ev: Event, b: Ledger) {
    ValidRollups(a.rolls) && ValidRollups(b.rolls) &&
    match ev
    case Written(cs) =>
      b == Ledger(a.rolls + cs, a.rewritten, a.written + Total(cs))
    case Dropped(ids) =>
      b == a.(rolls := Kept(a.rolls, ids))
    case Merged(rule, run, first) =>
      && Adjacent(a.rolls, run) && Worth(rule, run) && Total(run) <= MERGE_TARGET
      && b == Ledger(MergeOne(a.rolls, run, first), a.rewritten + (if rule.Live? then Total(run) else 0), a.written)
  }

  ghost predicate Solvent(l: Ledger) {
    l.rewritten + Sum(l.rolls, PhiChunk) <= 8 * l.written
  }

  lemma NextSolvent(a: Ledger, ev: Event, b: Ledger)
    requires Next(a, ev, b) && Solvent(a)
    ensures Solvent(b)
  {
    hide ValidRollups, Sum, Total, Adjacent, MergeOne, Worth;
    match ev {
      case Written(cs) =>
        SumConcat(a.rolls, cs, PhiChunk);
        WrittenSum(cs);
      case Dropped(ids) =>
        FewerSum(a.rolls, (c: Chunk) => c.id !in ids);
      case Merged(rule, run, first) =>
        MergeOneSum(a.rolls, run, first);
        AdjacentDistinct(a.rolls, run);
        AdjacentPresent(a.rolls, run);
        if rule.Live? {
          LivePays(run);
        } else {
          EndedPays(run);
        }
    }
  }

  ghost predicate IsRun(ledgers: seq<Ledger>, events: seq<Event>) {
    && |ledgers| == |events| + 1
    && forall i | 0 <= i < |events| :: Next(ledgers[i], events[i], ledgers[i + 1])
  }

  lemma {:induction false} RunSolvent(ledgers: seq<Ledger>, events: seq<Event>)
    requires IsRun(ledgers, events) && Solvent(ledgers[0])
    ensures Solvent(ledgers[|events|])
    decreases |events|
  {
    hide Next, Solvent;
    if events != [] {
      var n := |events| - 1;
      var early := ledgers[..n + 1];
      forall i | 0 <= i < n ensures Next(early[i], events[..n][i], early[i + 1]) {
        assert Next(ledgers[i], events[i], ledgers[i + 1]);
      }
      RunSolvent(early, events[..n]);
      assert early[n] == ledgers[n];
      assert Next(ledgers[n], events[n], ledgers[n + 1]);
      NextSolvent(ledgers[n], events[n], ledgers[n + 1]);
    }
  }

  lemma {:induction false} SumPhiNonNegative(rolls: seq<Chunk>)
    ensures Sum(rolls, PhiChunk) >= 0
  {
    forall c | c in rolls ensures PhiChunk(c) >= 0 {
      PhiOfBounds(|c.buckets|);
    }
    SumNonNegative(rolls, PhiChunk);
  }

  /** From an empty table, whatever is written, dropped and merged in whatever
      order, live merges rewrite at most eight buckets for every bucket
      written. */
  lemma RollupRewriteBound(ledgers: seq<Ledger>, events: seq<Event>)
    requires IsRun(ledgers, events) && ledgers[0] == Ledger([], 0, 0)
    ensures ledgers[|events|].rewritten <= 8 * ledgers[|events|].written
  {
    assert Solvent(ledgers[0]);
    RunSolvent(ledgers, events);
    SumPhiNonNegative(ledgers[|events|].rolls);
  }
}
