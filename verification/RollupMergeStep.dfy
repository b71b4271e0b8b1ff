/** A round of rollup merges: every group planned, and the plan applied in one
    batch of writes and one of deletes. */
module RollupMergeStep {
  import opened Sequences
  import opened RollupKernel
  import opened RollupStore
  import opened RollupPass
  import opened RollupCycle
  import opened RollupSettled
  import opened RollupMergePlan
  import opened RollupMerge

  datatype Key = Key(series: int, resolution: int)

  predicate KeyLe(a: Key, b: Key) {
    a.series < b.series || (a.series == b.series && a.resolution <= b.resolution)
  }

  function KeyIn(c: Chunk): Key {
    Key(c.series, c.resolution)
  }

  function KeysSeen(rolls: seq<Chunk>): seq<Key> {
    if rolls == [] then []
    else
      var seen, key := KeysSeen(rolls[..|rolls| - 1]), KeyIn(rolls[|rolls| - 1]);
      if key in seen then seen else seen + [key]
  }

  /** The groups there are, by series and then resolution. */
  function AllKeys(rolls: seq<Chunk>): seq<Key> {
    SortBy(KeysSeen(rolls), KeyLe)
  }

  lemma {:induction false} KeysSeenShape(rolls: seq<Chunk>)
    ensures Distinct(KeysSeen(rolls))
    ensures forall k :: k in KeysSeen(rolls) <==> exists c :: c in rolls && KeyIn(c) == k
  {
    if rolls != [] {
      var t, c := rolls[..|rolls| - 1], rolls[|rolls| - 1];
      assert rolls == t + [c];
      KeysSeenShape(t);
      forall k ensures k in KeysSeen(rolls) <==> exists d :: d in rolls && KeyIn(d) == k {
        if k in KeysSeen(t) {
          var d :| d in t && KeyIn(d) == k;
          assert d in rolls;
        }
        assert c in rolls;
      }
    }
  }

  lemma AllKeysInOrder(rolls: seq<Chunk>, i: nat, j: nat)
    requires i < j < |AllKeys(rolls)|
    ensures var a, b := AllKeys(rolls)[i], AllKeys(rolls)[j];
            a.series < b.series || (a.series == b.series && a.resolution <= b.resolution)
  {
    hide SortBy;
    SortByAscending(KeysSeen(rolls), KeyLe);
    assert KeyLe(AllKeys(rolls)[i], AllKeys(rolls)[j]);
  }

  /** Every group once. */
  lemma AllKeysShape(rolls: seq<Chunk>)
    ensures Distinct(AllKeys(rolls))
    ensures forall k :: k in AllKeys(rolls) <==> exists c :: c in rolls && InGroup(c, k.series, k.resolution)
  {
    hide SortBy;
    var seen := KeysSeen(rolls);
    KeysSeenShape(rolls);
    SortByMembers(seen, KeyLe);
    SortByMultiset(seen, KeyLe);
    DistinctCount(seen);
    DistinctCount(AllKeys(rolls));
    forall k: Key ensures (exists c :: c in rolls && KeyIn(c) == k) <==> exists c :: c in rolls && InGroup(c, k.series, k.resolution) {
      if c :| c in rolls && InGroup(c, k.series, k.resolution) {
        assert KeyIn(c) == k;
      }
    }
  }

  method CollectKeys(rolls: seq<Chunk>) returns (keys: seq<Key>)
    ensures keys == AllKeys(rolls)
  {
    var seen: seq<Key> := [];
    for i := 0 to |rolls|
      invariant seen == KeysSeen(rolls[..i])
    {
      assert rolls[..i + 1][..i] == rolls[..i];
      var key := KeyIn(rolls[i]);
      if key !in seen {
        seen := seen + [key];
      }
    }
    assert rolls[..|rolls|] == rolls;
    keys := SortBy(seen, KeyLe);
  }

  function RuleOf(key: Key, withRaw: set<int>): Rule {
    if key.series in withRaw then Live else Ended
  }

  function PlanOf(rolls: seq<Chunk>, withRaw: set<int>, key: Key): seq<seq<Chunk>> {
    PlanGroup(RuleOf(key, withRaw), Group(rolls, key.series, key.resolution))
  }

  /** `plan_rollup_merge_stretch`, over the groups it visits. */
  function PlanKeys(rolls: seq<Chunk>, withRaw: set<int>, keys: seq<Key>): seq<seq<Chunk>> {
    if keys == [] then []
    else PlanKeys(rolls, withRaw, keys[..|keys| - 1]) + PlanOf(rolls, withRaw, keys[|keys| - 1])
  }

  // ------------------------------------------------------ when there is a plan

  lemma {:induction false} PlanKeysNone(rolls: seq<Chunk>, withRaw: set<int>, keys: seq<Key>)
    ensures PlanKeys(rolls, withRaw, keys) == [] <==> forall key | key in keys :: PlanOf(rolls, withRaw, key) == []
  {
    hide PlanOf;
    if keys != [] {
      var t, key := keys[..|keys| - 1], keys[|keys| - 1];
      assert keys == t + [key] && key in keys;
      PlanKeysNone(rolls, withRaw, t);
    }
  }

  /** Of a series without raw chunks a group is left alone if and only if no two
      neighbours fit one chunk; of one with raw chunks it is merged wherever its
      newest four or more fit. A round that plans nothing leaves every group so. */
  lemma NothingToMerge(rolls: seq<Chunk>, withRaw: set<int>, key: Key, n: nat)
    requires ValidRollups(rolls) && PlanKeys(rolls, withRaw, AllKeys(rolls)) == [] && key in AllKeys(rolls)
    ensures var group := Group(rolls, key.series, key.resolution);
            if key.series in withRaw then !FourFit(Reversed(group), n)
            else forall i | 0 < i < |group| :: |group[i - 1].buckets| + |group[i].buckets| > 256
  {
    hide ValidRollups, Group, AllKeys, PlanGroup, FourFit, Reversed;
    PlanKeysNone(rolls, withRaw, AllKeys(rolls));
    assert PlanOf(rolls, withRaw, key) == [];
    var group := Group(rolls, key.series, key.resolution);
    PlanNonEmpty(rolls, key);
    if key.series in withRaw {
      if FourFit(Reversed(group), n) {
        LivePlanned(group, n);
      }
    } else {
      EndedLeft(group);
    }
  }

  // ------------------------------------------------------- plans are mergeable

  ghost predicate Pairwise(runs: seq<seq<Chunk>>) {
    forall i, j | 0 <= i < j < |runs| :: NoneShared(runs[i], runs[j])
  }

  lemma PairwiseAppend(runs: seq<seq<Chunk>>, run: seq<Chunk>)
    requires Pairwise(runs) && forall x | x in runs :: NoneShared(x, run)
    ensures Pairwise(runs + [run])
  {
    hide NoneShared;
    var all := runs + [run];
    forall i, j | 0 <= i < j < |all| ensures NoneShared(all[i], all[j]) {
      if j == |runs| {
        assert runs[i] in runs;
      }
    }
  }

  lemma {:induction false} FlattenPairwise(runs: seq<seq<Chunk>>)
    requires Distinct(Flatten(runs))
    ensures Pairwise(runs)
  {
    hide Flatten, Distinct, Pairwise;
    if runs == [] {
      NonePairwise();
    } else {
      var t, last := runs[..|runs| - 1], runs[|runs| - 1];
      assert runs == t + [last];
      FlattenConcat(t, [last]);
      FlattenOne(last);
      DistinctConcat(Flatten(t), last);
      FlattenPairwise(t);
      forall x | x in t ensures NoneShared(x, last) {
        forall c | c in x ensures c !in last {
          FlattenMember(t, c);
          assert c in Flatten(t);
        }
      }
      PairwiseAppend(t, last);
    }
  }

  lemma NonePairwise()
    ensures Pairwise([])
  {
  }

  lemma {:induction false} FilterPairwise(runs: seq<seq<Chunk>>, p: seq<Chunk> -> bool)
    requires Pairwise(runs)
    ensures Pairwise(Filter(runs, p))
  {
    hide NoneShared, Pairwise;
    if runs == [] {
      NonePairwise();
    } else {
      var t, last := runs[..|runs| - 1], runs[|runs| - 1];
      assert runs == t + [last];
      PairwiseInit(t, last);
      FilterPairwise(t, p);
      if p(last) {
        forall x | x in Filter(t, p) ensures NoneShared(x, last) {
          FilterMember(t, p, x);
        }
        PairwiseAppend(Filter(t, p), last);
      } else {
        assert Filter(t, p) + [] == Filter(t, p);
      }
    }
  }

  lemma PairwiseInit(t: seq<seq<Chunk>>, last: seq<Chunk>)
    requires Pairwise(t + [last])
    ensures Pairwise(t)
    ensures forall x | x in t :: NoneShared(x, last)
  {
    hide NoneShared;
    var all := t + [last];
    forall i, j | 0 <= i < j < |t| ensures NoneShared(t[i], t[j]) {
      assert all[i] == t[i] && all[j] == t[j];
    }
    forall x | x in t ensures NoneShared(x, last) {
      var i :| 0 <= i < |t| && t[i] == x;
      assert all[i] == x && all[|t|] == last;
    }
  }

  lemma {:induction false} ReversedPairwise(runs: seq<seq<Chunk>>)
    requires Pairwise(runs)
    ensures Pairwise(EachReversed(runs))
  {
    hide Pairwise, Reversed;
    if runs == [] {
      NonePairwise();
    } else {
      var t, last := runs[..|runs| - 1], runs[|runs| - 1];
      assert runs == t + [last];
      PairwiseInit(t, last);
      ReversedPairwise(t);
      forall x | x in EachReversed(t) ensures NoneShared(x, Reversed(last)) {
        EachReversedMember(t, x);
        var y :| y in t && x == Reversed(y);
        ReversedMembers(y);
        ReversedMembers(last);
      }
      PairwiseAppend(EachReversed(t), Reversed(last));
    }
  }

  lemma DistinctReversed(s: seq<Chunk>)
    requires Distinct(s)
    ensures Distinct(Reversed(s))
  {
    hide Reversed;
    ReversedMembers(s);
    var r := Reversed(s);
    forall i, j | 0 <= i < j < |r| ensures r[i] != r[j] {
      assert r[i] == s[|s| - 1 - i] && r[j] == s[|s| - 1 - j];
    }
  }

  lemma PlanPairwise(rule: Rule, entries: seq<Chunk>)
    requires Distinct(entries)
    ensures Pairwise(PlanGroup(rule, entries))
  {
    hide Runs, Distinct, Pairwise, Reversed;
    match rule {
      case Ended =>
        RunsFlatten(Ended, entries);
        FlattenPairwise(Runs(Ended, entries));
        FilterPairwise(Runs(Ended, entries), (run: seq<Chunk>) => Worth(Ended, run));
      case Live =>
        var back := Reversed(entries);
        DistinctReversed(entries);
        RunsFlatten(Live, back);
        FlattenPairwise(Runs(Live, back));
        FilterPairwise(Runs(Live, back), (run: seq<Chunk>) => Worth(Live, run));
        ReversedPairwise(WorthOf(Live, Runs(Live, back)));
    }
  }

  lemma ChainedSlice(g: seq<Chunk>, i: nat, j: nat, k: nat)
    requires Chained(g) && i < j <= |g| && k < |g|
    ensures Chained(g[i..j])
    ensures k < i ==> g[k].maxTs < g[i..j][0].minTs
    ensures k >= j ==> g[i..j][|g[i..j]| - 1].maxTs < g[k].minTs
    ensures i <= k < j ==> g[k] in g[i..j]
  {
    var run := g[i..j];
    assert forall m | 0 <= m < |run| :: run[m] == g[i + m];
    if i <= k < j {
      assert run[k - i] == g[k];
    }
  }

  lemma SliceMember(g: seq<Chunk>, i: nat, j: nat, c: Chunk)
    requires i <= j <= |g| && c in g[i..j]
    ensures c in g
  {
  }

  lemma AdjacentOf(rolls: seq<Chunk>, run: seq<Chunk>, s: int, r: int)
    requires run != [] && Chained(run)
    requires forall c | c in run :: c in rolls && InGroup(c, s, r)
    requires forall c | c in rolls && InGroup(c, s, r) && c !in run :: Clear(run, c)
    ensures Adjacent(rolls, run) && InGroup(run[0], s, r)
  {
    assert run[0] in run;
  }

  lemma SliceAdjacentAt(rolls: seq<Chunk>, s: int, r: int, i: nat, j: nat)
    requires ValidRollups(rolls) && i < j <= |Group(rolls, s, r)|
    ensures var run := Group(rolls, s, r)[i..j]; Adjacent(rolls, run) && InGroup(run[0], s, r)
  {
    hide *;
    var g := Group(rolls, s, r);
    var run := g[i..j];
    GroupChained(rolls, s, r);
    ChainedSlice(g, i, j, 0);
    forall c | c in run ensures c in rolls && InGroup(c, s, r) {
      SliceMember(g, i, j, c);
      GroupMember(rolls, s, r, c);
    }
    forall c | c in rolls && InGroup(c, s, r) && c !in run ensures Clear(run, c) {
      GroupMember(rolls, s, r, c);
      var k :| 0 <= k < |g| && g[k] == c;
      ChainedSlice(g, i, j, k);
      ClearOf(run, c);
    }
    AdjacentOf(rolls, run, s, r);
  }

  lemma ClearOf(run: seq<Chunk>, c: Chunk)
    requires run != [] && (c.maxTs < run[0].minTs || run[|run| - 1].maxTs < c.minTs)
    ensures Clear(run, c)
  {
  }

  /** A stretch of a group's chunks has none of the group between them. */
  lemma SliceAdjacent(rolls: seq<Chunk>, s: int, r: int, run: seq<Chunk>)
    requires ValidRollups(rolls) && run != [] && IsSlice(run, Group(rolls, s, r))
    ensures Adjacent(rolls, run) && InGroup(run[0], s, r)
  {
    hide Group, ValidRollups, Adjacent;
    var g := Group(rolls, s, r);
    var i, j :| 0 <= i <= j <= |g| && run == g[i..j];
    SliceAdjacentAt(rolls, s, r, i, j);
  }

  lemma PlanNonEmpty(rolls: seq<Chunk>, key: Key)
    requires ValidRollups(rolls)
    ensures NonEmpty(Group(rolls, key.series, key.resolution))
    ensures Distinct(Group(rolls, key.series, key.resolution))
  {
    hide Group;
    GroupChained(rolls, key.series, key.resolution);
    GroupDistinct(rolls, key.series, key.resolution);
  }

  lemma PlanOfRun(rolls: seq<Chunk>, withRaw: set<int>, key: Key, run: seq<Chunk>)
    requires ValidRollups(rolls) && run in PlanOf(rolls, withRaw, key)
    ensures run != [] && Adjacent(rolls, run) && InGroup(run[0], key.series, key.resolution)
    ensures Total(run) <= MERGE_TARGET && Worth(RuleOf(key, withRaw), run)
  {
    hide ValidRollups, Group, PlanGroup, Adjacent;
    PlanNonEmpty(rolls, key);
    PlanGroupShape(RuleOf(key, withRaw), Group(rolls, key.series, key.resolution), run);
    SliceAdjacent(rolls, key.series, key.resolution, run);
  }

  ghost predicate OfKey(run: seq<Chunk>, keys: seq<Key>) {
    run != [] && exists k :: k in keys && InGroup(run[0], k.series, k.resolution)
  }

  /** A plan of distinct groups can be merged as it stands. */
  lemma {:induction false} PlanKeysMergeable(rolls: seq<Chunk>, withRaw: set<int>, keys: seq<Key>)
    requires ValidRollups(rolls) && Distinct(keys)
    ensures Mergeable(rolls, PlanKeys(rolls, withRaw, keys))
    ensures forall run | run in PlanKeys(rolls, withRaw, keys) :: OfKey(run, keys) && Total(run) <= MERGE_TARGET
  {
    hide ValidRollups, PlanOf, Adjacent, Pairwise, NoneShared, OfKey;
    if keys != [] {
      var t, key := keys[..|keys| - 1], keys[|keys| - 1];
      PlanKeysMergeable(rolls, withRaw, t);
      var early, more := PlanKeys(rolls, withRaw, t), PlanOf(rolls, withRaw, key);
      PlanOfPairwise(rolls, withRaw, key);
      forall run | run in more
        ensures Adjacent(rolls, run) && OfKey(run, keys) && Total(run) <= MERGE_TARGET
      {
        PlanOfRun(rolls, withRaw, key, run);
        KeyOf(run, keys, key);
      }
      forall run | run in early ensures OfKey(run, keys) {
        KeyWider(run, t, keys);
      }
      forall x, y | x in early && y in more ensures NoneShared(x, y) {
        PlanOfRun(rolls, withRaw, key, y);
        KeysApart(rolls, x, t, y, key);
      }
      PairwiseConcat(early, more);
      assert Pairwise(early + more);
      MergeableOf(rolls, early + more);
    }
  }

  lemma MergeableOf(rolls: seq<Chunk>, runs: seq<seq<Chunk>>)
    requires Pairwise(runs) && forall run | run in runs :: Adjacent(rolls, run)
    ensures Mergeable(rolls, runs)
  {
    hide Adjacent, NoneShared;
  }

  lemma PairwiseConcat(a: seq<seq<Chunk>>, b: seq<seq<Chunk>>)
    requires (forall i, j | 0 <= i < j < |a| :: NoneShared(a[i], a[j])) && Pairwise(b)
    requires forall x, y | x in a && y in b :: NoneShared(x, y)
    ensures Pairwise(a + b)
  {
    hide NoneShared;
    var c := a + b;
    forall i, j | 0 <= i < j < |c| ensures NoneShared(c[i], c[j]) {
      if i < |a| <= j {
        assert a[i] in a && b[j - |a|] in b;
      }
    }
  }

  lemma PlanOfPairwise(rolls: seq<Chunk>, withRaw: set<int>, key: Key)
    requires ValidRollups(rolls)
    ensures Pairwise(PlanOf(rolls, withRaw, key))
  {
    hide ValidRollups, Group, PlanGroup, Pairwise, Distinct;
    PlanNonEmpty(rolls, key);
    PlanPairwise(RuleOf(key, withRaw), Group(rolls, key.series, key.resolution));
  }

  lemma KeyOf(run: seq<Chunk>, keys: seq<Key>, key: Key)
    requires run != [] && key in keys && InGroup(run[0], key.series, key.resolution)
    ensures OfKey(run, keys)
  {
  }

  lemma KeyWider(run: seq<Chunk>, a: seq<Key>, b: seq<Key>)
    requires OfKey(run, a) && forall k | k in a :: k in b
    ensures OfKey(run, b)
  {
  }

  lemma KeysApart(rolls: seq<Chunk>, x: seq<Chunk>, keys: seq<Key>, y: seq<Chunk>, key: Key)
    requires Adjacent(rolls, x) && OfKey(x, keys) && Adjacent(rolls, y) && key !in keys
    requires InGroup(y[0], key.series, key.resolution)
    ensures NoneShared(x, y)
  {
    var k :| k in keys && InGroup(x[0], k.series, k.resolution);
    assert k != key;
  }

  // ------------------------------------------------------------- the batch

  function OldIds(runs: seq<seq<Chunk>>): set<nat> {
    if runs == [] then {} else OldIds(runs[..|runs| - 1]) + RunIds(runs[|runs| - 1])
  }

  /** Everything new is written, then everything old deleted. */
  function MergeBatch(rolls: seq<Chunk>, runs: seq<seq<Chunk>>, first: nat): seq<Chunk> {
    Kept(rolls, OldIds(runs)) + NewChunks(runs, first)
  }

  lemma {:induction false} NewChunkIds(runs: seq<seq<Chunk>>, first: nat)
    ensures forall c | c in NewChunks(runs, first) :: c.id >= first
  {
    hide MergedChunks;
    if runs != [] {
      var t := runs[..|runs| - 1];
      NewChunkIds(t, first);
      MergedIds(runs[|runs| - 1], first + |NewChunks(t, first)|);
    }
  }

  lemma MergedIds(run: seq<Chunk>, first: nat)
    ensures forall c | c in MergedChunks(run, first) :: c.id >= first
  {
    if run != [] && RunBuckets(run) != [] {
      CutIds(run[0].series, run[0].resolution, RunBuckets(run), first);
    }
  }

  lemma {:induction false} CutIds(s: int, r: int, buckets: seq<Bucket>, first: nat)
    requires buckets != []
    ensures forall c | c in CutChunks(s, r, buckets, first) :: c.id >= first
    decreases |buckets|
  {
    if |buckets| > MERGE_TARGET {
      CutIds(s, r, buckets[MERGE_TARGET..], first + 1);
    }
  }

  lemma KeptKept(rolls: seq<Chunk>, a: set<nat>, b: set<nat>)
    ensures Kept(Kept(rolls, a), b) == Kept(rolls, a + b)
  {
    FilterFilter(rolls, (c: Chunk) => c.id !in a, (c: Chunk) => c.id !in b, (c: Chunk) => c.id !in a + b);
  }

  lemma KeptConcat(a: seq<Chunk>, b: seq<Chunk>, ids: set<nat>)
    ensures Kept(a + b, ids) == Kept(a, ids) + Kept(b, ids)
  {
    FilterConcat(a, b, (c: Chunk) => c.id !in ids);
  }

  lemma KeptAll(cs: seq<Chunk>, ids: set<nat>)
    requires forall c | c in cs :: c.id !in ids
    ensures Kept(cs, ids) == cs
  {
    FilterAll(cs, (c: Chunk) => c.id !in ids);
  }

  lemma PresentIds(rolls: seq<Chunk>, run: seq<Chunk>, first: nat)
    requires IdsBelow(rolls, first) && AreRows(rolls, run)
    ensures forall id | id in RunIds(run) :: id < first
  {
  }

  lemma OneMoreBatch(t: seq<seq<Chunk>>, last: seq<Chunk>, first: nat)
    ensures NewChunks(t + [last], first) == NewChunks(t, first) + MergedChunks(last, first + |NewChunks(t, first)|)
    ensures OldIds(t + [last]) == OldIds(t) + RunIds(last)
  {
    hide NewChunks, OldIds, MergedChunks, RunIds;
    NewChunksLast(t, last, first);
    OldIdsLast(t, last);
  }

  lemma NewChunksLast(t: seq<seq<Chunk>>, last: seq<Chunk>, first: nat)
    ensures NewChunks(t + [last], first) == NewChunks(t, first) + MergedChunks(last, first + |NewChunks(t, first)|)
  {
    hide MergedChunks;
    var all := t + [last];
    assert all[..|all| - 1] == t && all[|all| - 1] == last;
  }

  lemma OldIdsLast(t: seq<seq<Chunk>>, last: seq<Chunk>)
    ensures OldIds(t + [last]) == OldIds(t) + RunIds(last)
  {
    hide RunIds;
    var all := t + [last];
    assert all[..|all| - 1] == t && all[|all| - 1] == last;
  }

  lemma BatchStep(rolls: seq<Chunk>, t: seq<seq<Chunk>>, last: seq<Chunk>, first: nat)
    requires IdsBelow(rolls, first) && AreRows(rolls, last)
    ensures MergeOne(MergeBatch(rolls, t, first), last, first + |NewChunks(t, first)|) ==
            MergeBatch(rolls, t + [last], first)
  {
    hide Kept, MergedChunks, RunIds, OldIds, NewChunks, IdsBelow, AreRows;
    var gone, made, ids := OldIds(t), NewChunks(t, first), RunIds(last);
    var more := MergedChunks(last, first + |made|);
    OneMoreBatch(t, last, first);
    NewChunkIds(t, first);
    PresentIds(rolls, last, first);
    KeptConcat(Kept(rolls, gone), made, ids);
    KeptKept(rolls, gone, ids);
    KeptAll(made, ids);
    assert (Kept(rolls, gone + ids) + made) + more == Kept(rolls, gone + ids) + (made + more);
  }

  /** Writing everything and then deleting everything is merging the runs one
      after another. */
  lemma {:induction false} BatchIsAll(rolls: seq<Chunk>, runs: seq<seq<Chunk>>, first: nat)
    requires IdsBelow(rolls, first) && forall run | run in runs :: AreRows(rolls, run)
    ensures MergeBatch(rolls, runs, first) == MergeAll(rolls, runs, first)
  {
    hide MergeOne, MergeBatch, MergeAll, IdsBelow, AreRows;
    if runs == [] {
      NothingMerged(rolls, first);
    } else {
      var t, last := runs[..|runs| - 1], runs[|runs| - 1];
      assert runs == t + [last];
      BatchIsAll(rolls, t, first);
      BatchStep(rolls, t, last, first);
      MergeAllLast(rolls, t, last, first);
    }
  }

  lemma NothingMerged(rolls: seq<Chunk>, first: nat)
    ensures MergeBatch(rolls, [], first) == rolls == MergeAll(rolls, [], first)
  {
    KeptAll(rolls, {});
    assert Kept(rolls, {}) + [] == rolls;
  }

  ghost predicate AreRows(rolls: seq<Chunk>, run: seq<Chunk>) {
    forall c | c in run :: c in rolls
  }

  // ---------------------------------------------------------------- the loop

  /** A row is taken for the planned one by its id, series, resolution, first
      timestamp and number of buckets. */
  predicate SameIdentity(c: Chunk, d: Chunk) {
    && d.id == c.id && d.series == c.series && d.resolution == c.resolution
    && d.minTs == c.minTs && |d.buckets| == |c.buckets|
  }

  predicate HasLike(rolls: seq<Chunk>, c: Chunk) {
    exists d :: d in rolls && SameIdentity(c, d)
  }

  predicate IsPresent(rolls: seq<Chunk>, run: seq<Chunk>) {
    forall c | c in run :: HasLike(rolls, c)
  }

  function RowLike(rolls: seq<Chunk>, c: Chunk): (d: Chunk)
    requires HasLike(rolls, c)
    ensures d in rolls && SameIdentity(c, d)
  {
    var t, d := rolls[..|rolls| - 1], rolls[|rolls| - 1];
    if SameIdentity(c, d) then d
    else
      assert HasLike(t, c) by {
        var x :| x in rolls && SameIdentity(c, x);
        assert x in t;
      }
      RowLike(t, c)
  }

  /** The rows a run's merge reads: those under the planned ids. */
  function RowsLike(rolls: seq<Chunk>, run: seq<Chunk>): (rows: seq<Chunk>)
    requires IsPresent(rolls, run)
    ensures |rows| == |run| && forall i | 0 <= i < |run| :: rows[i] in rolls && SameIdentity(run[i], rows[i])
  {
    if run == [] then []
    else
      var t, c := run[..|run| - 1], run[|run| - 1];
      assert c in run && forall x | x in t :: x in run;
      RowsLike(rolls, t) + [RowLike(rolls, c)]
  }

  function EachLike(rolls: seq<Chunk>, runs: seq<seq<Chunk>>): (found: seq<seq<Chunk>>)
    requires forall run | run in runs :: IsPresent(rolls, run)
    ensures |found| == |runs|
  {
    if runs == [] then []
    else
      var t, run := runs[..|runs| - 1], runs[|runs| - 1];
      assert run in runs && forall x | x in t :: x in runs;
      EachLike(rolls, t) + [RowsLike(rolls, run)]
  }

  lemma {:induction false} EachLikeAt(rolls: seq<Chunk>, runs: seq<seq<Chunk>>, i: nat)
    requires (forall run | run in runs :: IsPresent(rolls, run)) && i < |runs|
    ensures runs[i] in runs && EachLike(rolls, runs)[i] == RowsLike(rolls, runs[i])
  {
    hide RowsLike, IsPresent;
    var t := runs[..|runs| - 1];
    assert forall x | x in t :: x in runs;
    if i < |t| {
      EachLikeAt(rolls, t, i);
    }
  }

  lemma RowsLikeSame(rolls: seq<Chunk>, run: seq<Chunk>)
    requires IdsRise(rolls) && AreRows(rolls, run)
    ensures IsPresent(rolls, run) && RowsLike(rolls, run) == run
  {
    forall c | c in run ensures HasLike(rolls, c) {
      assert c in rolls && SameIdentity(c, c);
    }
    var rows := RowsLike(rolls, run);
    forall i | 0 <= i < |run| ensures rows[i] == run[i] {
      assert run[i] in run;
      SameIdSame(rolls, rows[i], run[i]);
    }
  }

  lemma SameIdSame(rolls: seq<Chunk>, c: Chunk, d: Chunk)
    requires IdsRise(rolls) && c in rolls && d in rolls && c.id == d.id
    ensures c == d
  {
    var i :| 0 <= i < |rolls| && rolls[i] == c;
    var j :| 0 <= j < |rolls| && rolls[j] == d;
  }

  function StillThere(rolls: seq<Chunk>, plans: seq<seq<Chunk>>): seq<seq<Chunk>> {
    Filter(plans, (run: seq<Chunk>) => IsPresent(rolls, run))
  }

  /** A run is still there if every chunk is: one under its id, of its group, with
      its first timestamp and as many buckets. */
  lemma StillThereIs(rolls: seq<Chunk>, plans: seq<seq<Chunk>>, run: seq<Chunk>)
    ensures run in StillThere(rolls, plans) <==>
            run in plans && forall c | c in run ::
              exists d :: d in rolls && d.id == c.id && d.series == c.series && d.resolution == c.resolution
                          && d.minTs == c.minTs && |d.buckets| == |c.buckets|
  {
    FilterMember(plans, (x: seq<Chunk>) => IsPresent(rolls, x), run);
    if run in plans {
      forall c | c in run
        ensures HasLike(rolls, c) <==>
                exists d :: d in rolls && d.id == c.id && d.series == c.series && d.resolution == c.resolution
                            && d.minTs == c.minTs && |d.buckets| == |c.buckets|
      {
        if d :| d in rolls && d.id == c.id && d.series == c.series && d.resolution == c.resolution
                && d.minTs == c.minTs && |d.buckets| == |c.buckets| {
          assert SameIdentity(c, d);
        }
      }
    }
  }

  method IsRising(buckets: seq<Bucket>) returns (ok: bool)
    ensures ok <==> Rising(buckets)
  {
    ok := true;
    var i := 1;
    while i < |buckets|
      invariant i >= 1
      invariant forall a, b | 0 <= a < b < i && b < |buckets| :: buckets[a].ts < buckets[b].ts
    {
      if buckets[i].ts <= buckets[i - 1].ts {
        return false;
      }
      assert forall a | 0 <= a < i :: a == i - 1 || buckets[a].ts < buckets[i - 1].ts;
      i := i + 1;
    }
  }

  method CutAt(s: int, r: int, buckets: seq<Bucket>, first: nat) returns (cs: seq<Chunk>)
    requires buckets != []
    ensures cs == CutChunks(s, r, buckets, first)
  {
    cs := [];
    var at, id := 0, first;
    assert buckets[0..] == buckets;
    while |buckets| - at > MERGE_TARGET
      invariant 0 <= at < |buckets|
      invariant CutChunks(s, r, buckets, first) == cs + CutChunks(s, r, buckets[at..], id)
    {
      hide *;
      var slice := buckets[at..at + MERGE_TARGET];
      CutNext(s, r, buckets, at, id);
      ghost var more := CutChunks(s, r, buckets[at + MERGE_TARGET..], id + 1);
      assert cs + ([NewChunk(id, s, r, slice)] + more) == (cs + [NewChunk(id, s, r, slice)]) + more;
      cs := cs + [NewChunk(id, s, r, slice)];
      at, id := at + MERGE_TARGET, id + 1;
    }
    cs := cs + [NewChunk(id, s, r, buckets[at..])];
  }

  lemma CutNext(s: int, r: int, buckets: seq<Bucket>, at: nat, id: nat)
    requires |buckets| - at > MERGE_TARGET
    ensures CutChunks(s, r, buckets[at..], id) ==
            [NewChunk(id, s, r, buckets[at..at + MERGE_TARGET])]
            + CutChunks(s, r, buckets[at + MERGE_TARGET..], id + 1)
  {
    assert buckets[at..][..MERGE_TARGET] == buckets[at..at + MERGE_TARGET];
    assert buckets[at..][MERGE_TARGET..] == buckets[at + MERGE_TARGET..];
  }

  /** The rows a merge rewrites: those of the runs still there, where their
      buckets rise. */
  function Rewritten(rolls: seq<Chunk>, plans: seq<seq<Chunk>>): seq<seq<Chunk>> {
    StillTherePresent(rolls, plans);
    InOrderOf(EachLike(rolls, StillThere(rolls, plans)))
  }

  lemma StillTherePresent(rolls: seq<Chunk>, plans: seq<seq<Chunk>>)
    ensures forall run | run in StillThere(rolls, plans) :: IsPresent(rolls, run) && run in plans
  {
    hide IsPresent;
    forall run | run in StillThere(rolls, plans) ensures IsPresent(rolls, run) && run in plans {
      FilterMember(plans, (x: seq<Chunk>) => IsPresent(rolls, x), run);
    }
  }

  predicate InOrder(run: seq<Chunk>) {
    Rising(RunBuckets(run))
  }

  method ReadRun(run: seq<Chunk>) returns (buckets: seq<Bucket>)
    ensures buckets == RunBuckets(run)
  {
    buckets := [];
    for i := 0 to |run|
      invariant buckets == RunBuckets(run[..i])
    {
      assert run[..i + 1][..i] == run[..i];
      buckets := buckets + run[i].buckets;
    }
    assert run[..|run|] == run;
  }

  function InOrderOf(runs: seq<seq<Chunk>>): seq<seq<Chunk>> {
    Filter(runs, (run: seq<Chunk>) => InOrder(run))
  }

  lemma OneMore(done: seq<seq<Chunk>>, run: seq<Chunk>, first: nat)
    ensures NewChunks(done + [run], first) == NewChunks(done, first) + MergedChunks(run, first + |NewChunks(done, first)|)
    ensures OldIds(done + [run]) == OldIds(done) + RunIds(run)
    ensures InOrderOf(done + [run]) == InOrderOf(done) + (if InOrder(run) then [run] else [])
  {
    hide MergedChunks, RunIds, InOrder;
    OneMoreBatch(done, run, first);
    assert (done + [run])[..|done|] == done;
  }

  /** `apply_rollup_merges`: runs any of whose chunks has gone are passed over;
      the rows of the rest are read, written anew and then deleted, all
      together. */
  method ApplyRollupMerges(rolls: seq<Chunk>, plans: seq<seq<Chunk>>, first: nat)
    returns (now: seq<Chunk>, removed: set<nat>, written: nat)
    requires forall run | run in plans :: run != []
    ensures now == MergeBatch(rolls, Rewritten(rolls, plans), first)
    ensures removed == OldIds(Rewritten(rolls, plans)) && written == |NewChunks(Rewritten(rolls, plans), first)|
  {
    hide *;
    StillTherePresent(rolls, plans);
    var present := StillThere(rolls, plans);
    var kept := EachLike(rolls, present);
    var batch: seq<Chunk>, gone: set<nat> := [], {};
    ghost var done: seq<seq<Chunk>> := [];
    NoneDone(first);
    for i := 0 to |kept|
      invariant done == InOrderOf(kept[..i])
      invariant batch == NewChunks(done, first) && gone == OldIds(done)
    {
      var run := kept[i];
      assert kept[..i + 1] == kept[..i] + [run];
      EachLikeAt(rolls, present, i);
      assert run != [];
      var buckets := ReadRun(run);
      var rising := IsRising(buckets);
      InOrderMeans(run);
      OneMore(done, run, first);
      OneMore(kept[..i], run, first);
      if rising {
        var more: seq<Chunk> := [];
        if buckets != [] {
          more := CutAt(run[0].series, run[0].resolution, buckets, first + |batch|);
        }
        MergedIs(run, first + |batch|);
        batch := batch + more;
        gone := gone + RunIds(run);
        done := done + [run];
      } else {
        assert InOrderOf(kept[..i]) + [] == InOrderOf(kept[..i]);
      }
    }
    assert kept[..|kept|] == kept;
    now := Kept(rolls, gone) + batch;
    removed, written := gone, |batch|;
    BatchOf(rolls, plans, first);
  }

  lemma NoneDone(first: nat)
    ensures InOrderOf([]) == [] && NewChunks([], first) == [] && OldIds([]) == {}
  {
  }

  lemma BatchOf(rolls: seq<Chunk>, plans: seq<seq<Chunk>>, first: nat)
    ensures forall run | run in StillThere(rolls, plans) :: IsPresent(rolls, run)
    ensures Rewritten(rolls, plans) == InOrderOf(EachLike(rolls, StillThere(rolls, plans)))
    ensures MergeBatch(rolls, Rewritten(rolls, plans), first) ==
            Kept(rolls, OldIds(Rewritten(rolls, plans))) + NewChunks(Rewritten(rolls, plans), first)
  {
    StillTherePresent(rolls, plans);
  }

  lemma InOrderMeans(run: seq<Chunk>)
    ensures InOrder(run) <==> Rising(RunBuckets(run))
  {
  }

  lemma MergedIs(run: seq<Chunk>, first: nat)
    requires run != []
    ensures MergedChunks(run, first) ==
            if RunBuckets(run) == [] then [] else CutChunks(run[0].series, run[0].resolution, RunBuckets(run), first)
  {
  }

  // --------------------------------------------------------------- the round

  lemma {:induction false} EachLikeSame(rolls: seq<Chunk>, runs: seq<seq<Chunk>>)
    requires IdsRise(rolls) && forall run | run in runs :: AreRows(rolls, run)
    ensures (forall run | run in runs :: IsPresent(rolls, run)) && EachLike(rolls, runs) == runs
  {
    hide RowsLike, IsPresent, AreRows, IdsRise;
    forall run | run in runs ensures IsPresent(rolls, run) {
      RowsLikeSame(rolls, run);
    }
    if runs != [] {
      var t, run := runs[..|runs| - 1], runs[|runs| - 1];
      assert runs == t + [run] && run in runs && forall x | x in t :: x in runs;
      EachLikeSame(rolls, t);
      RowsLikeSame(rolls, run);
    }
  }

  /** What is still there of a plan made of these very rows is all of it, and
      in order. */
  lemma AllRewritten(rolls: seq<Chunk>, plans: seq<seq<Chunk>>)
    requires ValidRollups(rolls) && Mergeable(rolls, plans)
    ensures Rewritten(rolls, plans) == plans
  {
    hide Adjacent, RunBuckets, IsPresent, AreRows, EachLike, InOrder, Exact;
    forall run | run in plans ensures AreRows(rolls, run) && InOrder(run) {
      AdjacentPresent(rolls, run);
      RunOnGrid(rolls, run);
      InOrderMeans(run);
    }
    EachLikeSame(rolls, plans);
    FilterAll(plans, (run: seq<Chunk>) => IsPresent(rolls, run));
    FilterAll(plans, (run: seq<Chunk>) => InOrder(run));
  }

  lemma AdjacentPresent(rolls: seq<Chunk>, run: seq<Chunk>)
    requires Adjacent(rolls, run)
    ensures run != [] && AreRows(rolls, run)
  {
  }

  /** `merge_rollups`. Every group is planned and the plan applied: what each
      group has stored, its watermark and every rollup query stay the same, and
      one chunk is written for each planned run. */
  method MergeRollups(rolls: seq<Chunk>, withRaw: set<int>, first: nat)
    returns (now: seq<Chunk>, removed: set<nat>, written: nat)
    requires ValidRollups(rolls) && IdsBelow(rolls, first)
    ensures ValidRollups(now) && SameStored(now, rolls)
    ensures now == MergeAll(rolls, PlanKeys(rolls, withRaw, AllKeys(rolls)), first)
    ensures written == |PlanKeys(rolls, withRaw, AllKeys(rolls))|
  {
    hide ValidRollups, AllKeys, AreRows, Mergeable, IdsBelow, SameStored, PlanOf, MergeAll, MergeBatch, Rewritten, NewChunks, NonEmpty,
      Group, PlanGroup;
    var keys := CollectKeys(rolls);
    AllKeysShape(rolls);
    var plans: seq<seq<Chunk>> := [];
    for i := 0 to |keys|
      invariant plans == PlanKeys(rolls, withRaw, keys[..i])
    {
      assert keys[..i + 1][..i] == keys[..i];
      var key := keys[i];
      var entries := Group(rolls, key.series, key.resolution);
      PlanNonEmpty(rolls, key);
      var runs: seq<seq<Chunk>>;
      if key.series in withRaw {
        runs := PlanLiveGroup(entries);
      } else {
        runs := PlanEndedGroup(entries);
      }
      PlanOfIs(rolls, withRaw, key);
      plans := plans + runs;
    }
    assert keys[..|keys|] == keys;
    PlanKeysMergeable(rolls, withRaw, keys);
    MergeablePresent(rolls, plans);
    AllRewritten(rolls, plans);
    now, removed, written := ApplyRollupMerges(rolls, plans, first);
    BatchIsAll(rolls, plans, first);
    MergeAllKeeps(rolls, plans, first);
    OnePerRun(rolls, plans, first);
  }

  lemma PlanOfIs(rolls: seq<Chunk>, withRaw: set<int>, key: Key)
    ensures PlanOf(rolls, withRaw, key) ==
            PlanGroup(if key.series in withRaw then Live else Ended, Group(rolls, key.series, key.resolution))
  {
  }

  lemma MergeablePresent(rolls: seq<Chunk>, plans: seq<seq<Chunk>>)
    requires Mergeable(rolls, plans)
    ensures forall run | run in plans :: run != [] && AreRows(rolls, run)
  {
  }

  lemma {:induction false} TotalIsLength(run: seq<Chunk>)
    ensures Total(run) == |RunBuckets(run)|
  {
    if run != [] {
      TotalIsLength(run[..|run| - 1]);
    }
  }

  /** Each planned run becomes one chunk. */
  lemma {:induction false} OnePerRun(rolls: seq<Chunk>, runs: seq<seq<Chunk>>, first: nat)
    requires ValidRollups(rolls) && Mergeable(rolls, runs) && forall run | run in runs :: Total(run) <= MERGE_TARGET
    ensures |NewChunks(runs, first)| == |runs|
  {
    hide ValidRollups, Adjacent, RunBuckets, Total;
    if runs != [] {
      var t, last := runs[..|runs| - 1], runs[|runs| - 1];
      assert last in runs && forall run | run in t :: run in runs;
      MergeableInit(rolls, runs);
      OnePerRun(rolls, t, first);
      AdjacentPresent(rolls, last);
      RunOnGrid(rolls, last);
      TotalIsLength(last);
    }
  }
}
