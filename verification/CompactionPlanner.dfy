/** The size-tiered compaction planner: one series' eligible chunks in, groups
    of chunks to rewrite together out. Planning reads metadata only. */
module CompactionPlanner {
  import opened Sequences
  import opened ChunkTable

  const TARGET_POINTS: nat := 2048
  /** The target with a quarter's grace. */
  const MERGE_LIMIT: nat := 2560
  /** Half the target. */
  const MINIMUM_FILL: nat := 1024
  const MERGE_MIN_CHUNKS: nat := 4
  const RAW_COMPRESS_MIN_POINTS: nat := 1024

  /** What a plan keeps of a chunk. */
  datatype Ref = Ref(id: nat, enc: Encoding, minTs: int, maxTs: int, count: nat, bytes: nat)

  function RefOf(r: Row): Ref {
    Ref(r.id, r.enc, r.meta.minTs, r.meta.maxTs, r.meta.count, r.meta.bytes)
  }

  datatype Kind = RawCompression | CompressedMerge

  datatype Group = Group(series: int, sources: seq<Ref>, kind: Kind)

  function CountOf(r: Ref): int { r.count }

  function Points(refs: seq<Ref>): int {
    Sum(refs, CountOf)
  }

  function Largest(refs: seq<Ref>): nat {
    if refs == [] then 0
    else
      var m := Largest(refs[..|refs| - 1]);
      if refs[|refs| - 1].count > m then refs[|refs| - 1].count else m
  }

  // -------------------------------------------------------- specification

  predicate RawLe(a: Ref, b: Ref) {
    a.minTs < b.minTs || (a.minTs == b.minTs && a.maxTs <= b.maxTs)
  }

  predicate MergeLe(a: Ref, b: Ref) {
    a.count < b.count || (a.count == b.count && RawLe(a, b))
  }

  lemma MergeLeTotal()
    ensures TotalPreorder(MergeLe)
  {
  }

  /** Raw chunks packed oldest first, up to the target a run. */
  function RawRuns(rest: seq<Ref>, current: seq<Ref>): seq<seq<Ref>>
    decreases |rest|
  {
    if rest == [] then (if current == [] then [] else [current])
    else if current != [] && Points(current) + rest[0].count > TARGET_POINTS then
      [current] + RawRuns(rest[1..], [rest[0]])
    else RawRuns(rest[1..], current + [rest[0]])
  }

  /** Compressed chunks, smallest first: a chunk joins while it is no larger
      than the run so far and the run stays within the limit. */
  function MergeRuns(rest: seq<Ref>, current: seq<Ref>): seq<seq<Ref>>
    decreases |rest|
  {
    if rest == [] then [current]
    else if current != []
            && (rest[0].count > Points(current) || Points(current) + rest[0].count > MERGE_LIMIT) then
      [current] + MergeRuns(rest[1..], [rest[0]])
    else MergeRuns(rest[1..], current + [rest[0]])
  }

  predicate WorthMerging(run: seq<Ref>, atLeast: nat) {
    && |run| >= 2
    && Points(run) >= 2 * Largest(run)
    && (|run| >= atLeast || Points(run) >= MINIMUM_FILL)
  }

  function Singles(refs: seq<Ref>): seq<seq<Ref>> {
    if refs == [] then [] else Singles(refs[..|refs| - 1]) + [[refs[|refs| - 1]]]
  }

  function Wrap(s: int, runs: seq<seq<Ref>>, kind: Kind): seq<Group> {
    if runs == [] then []
    else Wrap(s, runs[..|runs| - 1], kind) + [Group(s, runs[|runs| - 1], kind)]
  }

  predicate IsRaw(r: Ref) { r.enc.Raw? }

  predicate IsOversized(r: Ref) { r.enc.Pco? && r.count > TARGET_POINTS }

  predicate IsMergeable(r: Ref) { r.enc.Pco? && r.count <= TARGET_POINTS }

  function AtLeast(lately: bool): nat {
    if lately then MERGE_MIN_CHUNKS else 2
  }

  /** The raw chunks worth compressing now, in packing order. */
  function RawWorthwhile(chunks: seq<Ref>, lately: bool, rawMin: nat): seq<Ref> {
    var raw := Filter(chunks, IsRaw);
    if lately && |raw| < rawMin && Points(raw) < RAW_COMPRESS_MIN_POINTS then []
    else SortBy(raw, RawLe)
  }

  function MergeGroups(s: int, chunks: seq<Ref>, atLeast: nat): seq<Group> {
    Wrap(s,
         Filter(MergeRuns(SortBy(chunks, MergeLe), []), (run: seq<Ref>) => WorthMerging(run, atLeast)),
         CompressedMerge)
  }

  /** One series' groups, from its eligible chunks in index order. */
  function PlanSeries(s: int, chunks: seq<Ref>, lately: bool, rawMin: nat): seq<Group> {
    Wrap(s, RawRuns(RawWorthwhile(chunks, lately, rawMin), []), RawCompression)
    + Wrap(s, Singles(Filter(chunks, IsOversized)), CompressedMerge)
    + MergeGroups(s, Filter(chunks, IsMergeable), AtLeast(lately))
  }

  // -------------------------------------------------- the planner's loops

  lemma WrapAppend(s: int, runs: seq<seq<Ref>>, run: seq<Ref>, kind: Kind)
    ensures Wrap(s, runs + [run], kind) == Wrap(s, runs, kind) + [Group(s, run, kind)]
  {
    assert (runs + [run])[..|runs|] == runs;
  }

  lemma {:induction false} WrapConcat(s: int, a: seq<seq<Ref>>, b: seq<seq<Ref>>, kind: Kind)
    ensures Wrap(s, a + b, kind) == Wrap(s, a, kind) + Wrap(s, b, kind)
  {
    if b == [] {
      assert a + b == a;
    } else {
      var t, x := b[..|b| - 1], b[|b| - 1];
      assert a + b == (a + t) + [x];
      WrapAppend(s, a + t, x, kind);
      WrapConcat(s, a, t, kind);
    }
  }

  /** `push_metrics_compressed_group`. */
  method PushCompressedGroup(s: int, sources: seq<Ref>, groups: seq<Group>, atLeast: nat)
    returns (r: seq<Group>)
    ensures r == if WorthMerging(sources, atLeast) then groups + [Group(s, sources, CompressedMerge)]
                 else groups
  {
    r := groups;
    if |sources| < 2 {
      return;
    }
    var points, largest := 0, 0;
    for i := 0 to |sources|
      invariant points == Points(sources[..i])
      invariant largest == Largest(sources[..i])
    {
      assert sources[..i + 1][..i] == sources[..i];
      points := points + sources[i].count;
      if sources[i].count > largest {
        largest := sources[i].count;
      }
    }
    assert sources[..|sources|] == sources;
    if points < 2 * largest {
      return;
    }
    if |sources| < atLeast && points < MINIMUM_FILL {
      return;
    }
    r := groups + [Group(s, sources, CompressedMerge)];
  }

  function Worth(runs: seq<seq<Ref>>, atLeast: nat): seq<seq<Ref>> {
    Filter(runs, (run: seq<Ref>) => WorthMerging(run, atLeast))
  }

  lemma WorthFirst(run: seq<Ref>, runs: seq<seq<Ref>>, s: int, atLeast: nat)
    ensures Wrap(s, Worth([run] + runs, atLeast), CompressedMerge) ==
            (if WorthMerging(run, atLeast) then [Group(s, run, CompressedMerge)] else [])
            + Wrap(s, Worth(runs, atLeast), CompressedMerge)
  {
    hide WorthMerging, Filter, Wrap;
    var p := (run: seq<Ref>) => WorthMerging(run, atLeast);
    FilterFirst(run, runs, p);
    if p(run) {
      WrapFirst(s, run, Worth(runs, atLeast), CompressedMerge);
    } else {
      assert [] + Worth(runs, atLeast) == Worth(runs, atLeast);
    }
  }

  /** `plan_metrics_compressed_groups`. */
  method PlanCompressedGroups(s: int, chunks: seq<Ref>, groups: seq<Group>, atLeast: nat)
    returns (r: seq<Group>)
    ensures r == groups + MergeGroups(s, chunks, atLeast)
  {
    hide WorthMerging, SortBy, Sum;
    var sorted := SortBy(chunks, MergeLe);
    var current, currentPoints := [], 0;
    SumNone(CountOf);
    ghost var whole := Wrap(s, Worth(MergeRuns(sorted, []), atLeast), CompressedMerge);
    r := groups;
    assert sorted[0..] == sorted;
    for i := 0 to |sorted|
      invariant currentPoints == Points(current)
      invariant r + Wrap(s, Worth(MergeRuns(sorted[i..], current), atLeast), CompressedMerge) ==
                groups + whole
    {
      var source := sorted[i];
      assert sorted[i..][1..] == sorted[i + 1..];
      if current != []
         && (source.count > currentPoints || currentPoints + source.count > MERGE_LIMIT) {
        WorthFirst(current, MergeRuns(sorted[i + 1..], [source]), s, atLeast);
        r := PushCompressedGroup(s, current, r, atLeast);
        current, currentPoints := [], 0;
      }
      assert [] + [source] == [source];
      SumConcat(current, [source], CountOf);
      SumOne(source, CountOf);
      SumNone(CountOf);
      current, currentPoints := current + [source], currentPoints + source.count;
    }
    assert sorted[|sorted|..] == [];
    WorthFirst(current, [], s, atLeast);
    assert [current] + [] == [current];
    r := PushCompressedGroup(s, current, r, atLeast);
  }

  lemma WrapFirst(s: int, run: seq<Ref>, runs: seq<seq<Ref>>, kind: Kind)
    ensures Wrap(s, [run] + runs, kind) == [Group(s, run, kind)] + Wrap(s, runs, kind)
  {
    WrapConcat(s, [run], runs, kind);
    WrapAppend(s, [], run, kind);
    assert [] + [run] == [run];
  }

  /** The raw half of `plan_metrics_series`. */
  method PlanRawGroups(s: int, raw: seq<Ref>, groups: seq<Group>) returns (r: seq<Group>)
    ensures r == groups + Wrap(s, RawRuns(raw, []), RawCompression)
  {
    var current, currentPoints := [], 0;
    r := groups;
    assert raw[0..] == raw;
    for i := 0 to |raw|
      invariant currentPoints == Points(current)
      invariant r + Wrap(s, RawRuns(raw[i..], current), RawCompression) ==
                groups + Wrap(s, RawRuns(raw, []), RawCompression)
    {
      var source := raw[i];
      assert raw[i..][1..] == raw[i + 1..];
      if current != [] && currentPoints + source.count > TARGET_POINTS {
        WrapFirst(s, current, RawRuns(raw[i + 1..], [source]), RawCompression);
        r := r + [Group(s, current, RawCompression)];
        current, currentPoints := [], 0;
      }
      assert [] + [source] == [source];
      SumConcat(current, [source], CountOf);
      SumOne(source, CountOf);
      current, currentPoints := current + [source], currentPoints + source.count;
    }
    assert raw[|raw|..] == [];
    if current != [] {
      WrapFirst(s, current, [], RawCompression);
      assert [current] + [] == [current];
      r := r + [Group(s, current, RawCompression)];
    }
  }

  /** The oversized chunks of `plan_metrics_series`: each on its own. */
  method PlanOversized(s: int, oversized: seq<Ref>, groups: seq<Group>) returns (r: seq<Group>)
    ensures r == groups + Wrap(s, Singles(oversized), CompressedMerge)
  {
    r := groups;
    for i := 0 to |oversized|
      invariant r == groups + Wrap(s, Singles(oversized[..i]), CompressedMerge)
    {
      assert oversized[..i + 1][..i] == oversized[..i];
      WrapAppend(s, Singles(oversized[..i]), [oversized[i]], CompressedMerge);
      r := r + [Group(s, [oversized[i]], CompressedMerge)];
    }
    assert oversized[..|oversized|] == oversized;
  }

  lemma ThreeParts<T>(a: seq<T>, b: seq<T>, c: seq<T>, d: seq<T>)
    ensures a + b + c + d == a + (b + c + d)
  {
  }

  /** `plan_metrics_series`: raw packing, oversized chunks one by one, then the
      size-tiered merges. */
  method PlanMetricsSeries(s: int, chunks: seq<Ref>, lately: bool, rawMin: nat, groups: seq<Group>)
    returns (r: seq<Group>)
    ensures r == groups + PlanSeries(s, chunks, lately, rawMin)
  {
    var raw := Filter(chunks, IsRaw);
    var atLeast := if lately then MERGE_MIN_CHUNKS else 2;
    if lately && |raw| < rawMin && Points(raw) < RAW_COMPRESS_MIN_POINTS {
      raw := [];
    }
    raw := SortBy(raw, RawLe);
    assert raw == RawWorthwhile(chunks, lately, rawMin);
    r := PlanRawGroups(s, raw, groups);
    r := PlanOversized(s, Filter(chunks, IsOversized), r);
    r := PlanCompressedGroups(s, Filter(chunks, IsMergeable), r, atLeast);
    ThreeParts(groups, Wrap(s, RawRuns(raw, []), RawCompression),
               Wrap(s, Singles(Filter(chunks, IsOversized)), CompressedMerge),
               MergeGroups(s, Filter(chunks, IsMergeable), atLeast));
  }

  // ------------------------------------------------------- what is planned

  lemma {:induction false} LargestBounds(refs: seq<Ref>)
    ensures forall r | r in refs :: r.count <= Largest(refs)
    ensures refs != [] ==> exists r :: r in refs && r.count == Largest(refs)
  {
    if refs != [] {
      var t, x := refs[..|refs| - 1], refs[|refs| - 1];
      LargestBounds(t);
      assert refs == t + [x];
      if t != [] && x.count <= Largest(t) {
        var r :| r in t && r.count == Largest(t);
        assert r in refs;
      } else {
        assert x in refs && x.count == Largest(refs);
      }
    }
  }

  /** Nothing is dropped and nothing is taken twice: the runs are the list. */
  lemma {:induction false} RawRunsFlatten(rest: seq<Ref>, current: seq<Ref>)
    ensures Flatten(RawRuns(rest, current)) == current + rest
    ensures forall run | run in RawRuns(rest, current) :: run != []
    decreases |rest|
  {
    if rest == [] {
      FlattenOne(current);
    } else if current != [] && Points(current) + rest[0].count > TARGET_POINTS {
      var tail := RawRuns(rest[1..], [rest[0]]);
      RawRunsFlatten(rest[1..], [rest[0]]);
      assert ([current] + tail)[1..] == tail;
      assert [rest[0]] + rest[1..] == rest;
    } else {
      RawRunsFlatten(rest[1..], current + [rest[0]]);
      assert current + [rest[0]] + rest[1..] == current + rest;
    }
  }

  lemma {:induction false} MergeRunsFlatten(rest: seq<Ref>, current: seq<Ref>)
    ensures Flatten(MergeRuns(rest, current)) == current + rest
    decreases |rest|
  {
    if rest == [] {
      FlattenOne(current);
    } else if current != []
              && (rest[0].count > Points(current) || Points(current) + rest[0].count > MERGE_LIMIT) {
      var tail := MergeRuns(rest[1..], [rest[0]]);
      MergeRunsFlatten(rest[1..], [rest[0]]);
      assert ([current] + tail)[1..] == tail;
      assert [rest[0]] + rest[1..] == rest;
    } else {
      MergeRunsFlatten(rest[1..], current + [rest[0]]);
      assert current + [rest[0]] + rest[1..] == current + rest;
    }
  }

  /** Packed full: where a run ends, the next chunk would take it past the
      target. */
  lemma {:induction false} RawRunsFull(rest: seq<Ref>, current: seq<Ref>)
    ensures var runs := RawRuns(rest, current);
            && (current != [] ==> runs != [] && current <= runs[0])
            && forall i | 0 < i < |runs| :: runs[i] != [] && Points(runs[i - 1]) + runs[i][0].count > 2048
    decreases |rest|
  {
    hide Sum;
    if rest != [] {
      if current != [] && Points(current) + rest[0].count > TARGET_POINTS {
        RawRunsFull(rest[1..], [rest[0]]);
      } else {
        RawRunsFull(rest[1..], current + [rest[0]]);
      }
    }
  }

  /** Where a merge run ends, the next chunk is larger than the run or would take
      it past the limit. */
  lemma {:induction false} MergeRunsFull(rest: seq<Ref>, current: seq<Ref>)
    ensures var runs := MergeRuns(rest, current);
            && runs != [] && current <= runs[0]
            && forall i | 0 < i < |runs| ::
                 && runs[i] != []
                 && (runs[i][0].count > Points(runs[i - 1]) || Points(runs[i - 1]) + runs[i][0].count > 2560)
    decreases |rest|
  {
    hide Sum;
    if rest != [] {
      if current != []
         && (rest[0].count > Points(current) || Points(current) + rest[0].count > MERGE_LIMIT) {
        var x, later := rest[0], MergeRuns(rest[1..], [rest[0]]);
        MergeRunsFull(rest[1..], [x]);
        hide MergeRuns;
        assert later[0][0] == x;
        var runs: seq<seq<Ref>> := [current] + later;
        forall i | 0 < i < |runs|
          ensures runs[i] != [] &&
                  (runs[i][0].count > Points(runs[i - 1]) || Points(runs[i - 1]) + runs[i][0].count > 2560)
        {
          assert runs[i] == later[i - 1] && (i > 1 ==> runs[i - 1] == later[i - 2]);
        }
      } else {
        MergeRunsFull(rest[1..], current + [rest[0]]);
      }
    }
  }

  lemma {:induction false} RawRunsBound(rest: seq<Ref>, current: seq<Ref>)
    requires |current| <= 1 || Points(current) <= TARGET_POINTS
    ensures forall run | run in RawRuns(rest, current) :: |run| <= 1 || Points(run) <= TARGET_POINTS
    decreases |rest|
  {
    if rest != [] {
      if current != [] && Points(current) + rest[0].count > TARGET_POINTS {
        RawRunsBound(rest[1..], [rest[0]]);
      } else {
        SumConcat(current, [rest[0]], CountOf);
        SumOne(rest[0], CountOf);
        RawRunsBound(rest[1..], current + [rest[0]]);
      }
    }
  }

  lemma {:induction false} MergeRunsBound(rest: seq<Ref>, current: seq<Ref>)
    requires |current| <= 1 || Points(current) <= MERGE_LIMIT
    ensures forall run | run in MergeRuns(rest, current) :: |run| <= 1 || Points(run) <= MERGE_LIMIT
    decreases |rest|
  {
    if rest != [] {
      if current != []
         && (rest[0].count > Points(current) || Points(current) + rest[0].count > MERGE_LIMIT) {
        MergeRunsBound(rest[1..], [rest[0]]);
      } else {
        SumConcat(current, [rest[0]], CountOf);
        SumOne(rest[0], CountOf);
        MergeRunsBound(rest[1..], current + [rest[0]]);
      }
    }
  }

  /** Built from chunks in size order, a run of two or more already holds at
      least twice its largest member: the check made when a run is pushed
      turns none away. */
  lemma {:induction false} MergeRunsHalf(rest: seq<Ref>, current: seq<Ref>)
    requires Ascending(current + rest, MergeLe)
    requires |current| >= 2 ==> Points(current) >= 2 * Largest(current)
    requires |current| == 1 ==> Points(current) == Largest(current)
    ensures forall run | run in MergeRuns(rest, current) && |run| >= 2 :: Points(run) >= 2 * Largest(run)
    decreases |rest|
  {
    if rest != [] {
      var x := rest[0];
      SumOne(x, CountOf);
      assert [x][..0] == [];
      if current != [] && (x.count > Points(current) || Points(current) + x.count > MERGE_LIMIT) {
        AscendingTail(current, rest);
        assert [x] + rest[1..] == rest;
        MergeRunsHalf(rest[1..], [x]);
      } else {
        var next := current + [x];
        assert next + rest[1..] == current + rest;
        SumConcat(current, [x], CountOf);
        if current != [] {
          NextIsLargest(current, rest);
        } else {
          assert next == [x];
        }
        MergeRunsHalf(rest[1..], next);
      }
    }
  }

  /** So of any chunks at all: sorted by size and built into runs, every run of
      two or more holds at least twice its largest. */
  lemma SortedRunsHalf(chunks: seq<Ref>)
    ensures forall run | run in MergeRuns(SortBy(chunks, MergeLe), []) && |run| >= 2 ::
              Points(run) >= 2 * Largest(run)
  {
    hide SortBy, TotalPreorder;
    MergeLeTotal();
    SortByAscending(chunks, MergeLe);
    var sorted := SortBy(chunks, MergeLe);
    assert [] + sorted == sorted;
    MergeRunsHalf(sorted, []);
  }

  lemma AscendingTail(current: seq<Ref>, rest: seq<Ref>)
    requires Ascending(current + rest, MergeLe)
    ensures Ascending(rest, MergeLe)
  {
    forall i, j | 0 <= i < j < |rest| ensures MergeLe(rest[i], rest[j]) {
      assert (current + rest)[|current| + i] == rest[i] && (current + rest)[|current| + j] == rest[j];
    }
  }

  lemma NextIsLargest(current: seq<Ref>, rest: seq<Ref>)
    requires Ascending(current + rest, MergeLe) && current != [] && rest != []
    ensures Largest(current) <= Largest(current + [rest[0]]) == rest[0].count
  {
    var next := current + [rest[0]];
    assert next[..|next| - 1] == current;
    LargestBounds(current);
    var big :| big in current && big.count == Largest(current);
    var i :| 0 <= i < |current| && current[i] == big;
    assert (current + rest)[i] == big && (current + rest)[|current|] == rest[0];
    assert MergeLe(big, rest[0]);
  }

  /** The raw groups of a series, put end to end: its raw chunks, those that begin
      earlier first. */
  lemma RawGroupsInOrder(chunks: seq<Ref>, lately: bool, rawMin: nat)
    ensures var sources := Flatten(RawRuns(RawWorthwhile(chunks, lately, rawMin), []));
            && (sources == [] || multiset(sources) == multiset(Filter(chunks, IsRaw)))
            && forall i, j | 0 <= i < j < |sources| ::
                 sources[i].minTs < sources[j].minTs ||
                 (sources[i].minTs == sources[j].minTs && sources[i].maxTs <= sources[j].maxTs)
  {
    hide SortBy, Filter, RawRuns;
    var raw := RawWorthwhile(chunks, lately, rawMin);
    RawRunsFlatten(raw, []);
    assert [] + raw == raw;
    if raw != [] {
      SortByMultiset(Filter(chunks, IsRaw), RawLe);
      SortByAscending(Filter(chunks, IsRaw), RawLe);
      forall i, j | 0 <= i < j < |raw| ensures RawLe(raw[i], raw[j]) {
      }
    }
  }

  /** What every planned group is. A merge of two or more is of chunks under
      the target, within the limit, each at most half of the whole. */
  ghost predicate WellPlanned(g: Group) {
    && g.sources != []
    && (g.kind.RawCompression? ==>
          && (forall r | r in g.sources :: r.enc.Raw?)
          && (|g.sources| == 1 || Points(g.sources) <= TARGET_POINTS))
    && (g.kind.CompressedMerge? ==>
          && (forall r | r in g.sources :: r.enc.Pco?)
          && if |g.sources| == 1 then g.sources[0].count > TARGET_POINTS
             else && Points(g.sources) <= MERGE_LIMIT
                  && forall r | r in g.sources :: r.count < TARGET_POINTS && 2 * r.count <= Points(g.sources))
  }

  ghost predicate Eligible(r: Ref) {
    r.enc.Raw? || r.count != TARGET_POINTS
  }

  lemma {:induction false} WrapMember(s: int, runs: seq<seq<Ref>>, kind: Kind, g: Group)
    ensures g in Wrap(s, runs, kind) <==> g.series == s && g.kind == kind && g.sources in runs
  {
    if runs != [] {
      WrapMember(s, runs[..|runs| - 1], kind, g);
      assert runs == runs[..|runs| - 1] + [runs[|runs| - 1]];
    }
  }

  lemma {:induction false} SinglesMember(refs: seq<Ref>, run: seq<Ref>)
    ensures run in Singles(refs) <==> exists r :: r in refs && run == [r]
  {
    if refs != [] {
      var t, x := refs[..|refs| - 1], refs[|refs| - 1];
      SinglesMember(t, run);
      assert refs == t + [x];
      if run == [x] {
        assert x in refs;
      } else if run in Singles(t) {
        var r :| r in t && run == [r];
        assert r in refs;
      }
    }
  }

  lemma RawGroupsShape(s: int, chunks: seq<Ref>, lately: bool, rawMin: nat, g: Group)
    requires g in Wrap(s, RawRuns(RawWorthwhile(chunks, lately, rawMin), []), RawCompression)
    ensures WellPlanned(g) && g.series == s
    ensures forall r | r in g.sources :: r in chunks
  {
    var raw := RawWorthwhile(chunks, lately, rawMin);
    var runs := RawRuns(raw, []);
    WrapMember(s, runs, RawCompression, g);
    RawRunsFlatten(raw, []);
    RawRunsBound(raw, []);
    assert [] + raw == raw;
    forall r | r in g.sources ensures r in chunks && r.enc.Raw? {
      FlattenMember(runs, r);
      var i :| 0 <= i < |runs| && runs[i] == g.sources;
      assert r in raw;
      SortByMembers(Filter(chunks, IsRaw), RawLe);
      FilterMember(chunks, IsRaw, r);
    }
  }

  lemma OversizedShape(s: int, chunks: seq<Ref>, g: Group)
    requires g in Wrap(s, Singles(Filter(chunks, IsOversized)), CompressedMerge)
    ensures WellPlanned(g) && g.series == s
    ensures forall r | r in g.sources :: r in chunks
  {
    WrapMember(s, Singles(Filter(chunks, IsOversized)), CompressedMerge, g);
    SinglesMember(Filter(chunks, IsOversized), g.sources);
    var r :| r in Filter(chunks, IsOversized) && g.sources == [r];
    FilterMember(chunks, IsOversized, r);
  }

  lemma MergeShape(s: int, chunks: seq<Ref>, atLeast: nat, g: Group)
    requires forall r | r in chunks :: Eligible(r) && IsMergeable(r)
    requires g in MergeGroups(s, chunks, atLeast)
    ensures WellPlanned(g) && g.series == s
    ensures forall r | r in g.sources :: r in chunks
    ensures WorthMerging(g.sources, atLeast)
  {
    var sorted := SortBy(chunks, MergeLe);
    var runs := MergeRuns(sorted, []);
    var p := (run: seq<Ref>) => WorthMerging(run, atLeast);
    WrapMember(s, Filter(runs, p), CompressedMerge, g);
    FilterMember(runs, p, g.sources);
    MergeRunsFlatten(sorted, []);
    MergeRunsBound(sorted, []);
    LargestBounds(g.sources);
    assert [] + sorted == sorted;
    SortByMembers(chunks, MergeLe);
    forall r | r in g.sources ensures r in chunks {
      FlattenMember(runs, r);
      var i :| 0 <= i < |runs| && runs[i] == g.sources;
    }
  }

  /** Every group of a series' plan is well planned, of that series and made
      of the chunks the plan was given. */
  lemma PlanSeriesShape(s: int, chunks: seq<Ref>, lately: bool, rawMin: nat, g: Group)
    requires forall r | r in chunks :: Eligible(r)
    requires g in PlanSeries(s, chunks, lately, rawMin)
    ensures WellPlanned(g) && g.series == s
    ensures forall r | r in g.sources :: r in chunks
  {
    if g in Wrap(s, RawRuns(RawWorthwhile(chunks, lately, rawMin), []), RawCompression) {
      RawGroupsShape(s, chunks, lately, rawMin, g);
    } else if g in Wrap(s, Singles(Filter(chunks, IsOversized)), CompressedMerge) {
      OversizedShape(s, chunks, g);
    } else {
      var under := Filter(chunks, IsMergeable);
      forall r | r in under ensures Eligible(r) && IsMergeable(r) && r in chunks {
        FilterMember(chunks, IsMergeable, r);
      }
      MergeShape(s, under, AtLeast(lately), g);
      forall r | r in g.sources ensures r in chunks {
        FilterMember(chunks, IsMergeable, r);
      }
    }
  }

  // ---------------------------------------------- no chunk in two groups

  /** The sources of a list of groups, in order. */
  function SourcesOf(groups: seq<Group>): seq<Ref> {
    if groups == [] then [] else SourcesOf(groups[..|groups| - 1]) + groups[|groups| - 1].sources
  }

  lemma {:induction false} SourcesConcat(a: seq<Group>, b: seq<Group>)
    ensures SourcesOf(a + b) == SourcesOf(a) + SourcesOf(b)
  {
    if b == [] {
      assert a + b == a;
    } else {
      assert (a + b)[..|a + b| - 1] == a + b[..|b| - 1];
      SourcesConcat(a, b[..|b| - 1]);
    }
  }

  lemma {:induction false} SourcesMember(groups: seq<Group>, r: Ref)
    ensures r in SourcesOf(groups) <==> exists g :: g in groups && r in g.sources
  {
    if groups != [] {
      var t, x := groups[..|groups| - 1], groups[|groups| - 1];
      SourcesMember(t, r);
      assert groups == t + [x];
      if r in SourcesOf(t) {
        var g :| g in t && r in g.sources;
        assert g in groups;
      } else if r in x.sources {
        assert x in groups;
      }
    }
  }

  lemma {:induction false} SourcesOfWrap(s: int, runs: seq<seq<Ref>>, kind: Kind)
    ensures SourcesOf(Wrap(s, runs, kind)) == Flatten(runs)
  {
    if runs != [] {
      var t, x := runs[..|runs| - 1], runs[|runs| - 1];
      SourcesOfWrap(s, t, kind);
      assert runs == t + [x];
      FlattenConcat(t, [x]);
      FlattenOne(x);
    }
  }

  lemma {:induction false} FlattenSingles(refs: seq<Ref>)
    ensures Flatten(Singles(refs)) == refs
  {
    if refs != [] {
      var t, x := refs[..|refs| - 1], refs[|refs| - 1];
      FlattenSingles(t);
      FlattenConcat(Singles(t), [[x]]);
      FlattenOne([x]);
      assert refs == t + [x];
    }
  }

  lemma {:induction false} FlattenFilter(runs: seq<seq<Ref>>, p: seq<Ref> -> bool, x: Ref)
    ensures multiset(Flatten(Filter(runs, p)))[x] <= multiset(Flatten(runs))[x]
  {
    if runs != [] {
      var t, last := runs[..|runs| - 1], runs[|runs| - 1];
      FlattenFilter(t, p, x);
      assert runs == t + [last];
      FlattenConcat(t, [last]);
      FlattenOne(last);
      FlattenConcat(Filter(t, p), if p(last) then [last] else []);
      if p(last) {
      } else {
        assert Flatten(Filter(t, p) + []) == Flatten(Filter(t, p)) + Flatten<Ref>([]);
      }
    }
  }

  /** How often a chunk is a source of a series' plan: never more often than
      it is a chunk. */
  lemma PlanSeriesCount(s: int, chunks: seq<Ref>, lately: bool, rawMin: nat, x: Ref)
    ensures multiset(SourcesOf(PlanSeries(s, chunks, lately, rawMin)))[x] <= multiset(chunks)[x]
  {
    var raw := RawWorthwhile(chunks, lately, rawMin);
    var g1 := Wrap(s, RawRuns(raw, []), RawCompression);
    var big := Filter(chunks, IsOversized);
    var g2 := Wrap(s, Singles(big), CompressedMerge);
    var under := Filter(chunks, IsMergeable);
    var sorted := SortBy(under, MergeLe);
    var g3 := MergeGroups(s, under, AtLeast(lately));
    SourcesConcat(g1 + g2, g3);
    SourcesConcat(g1, g2);
    assert multiset(SourcesOf(g1))[x] <= if IsRaw(x) then multiset(chunks)[x] else 0 by {
      SourcesOfWrap(s, RawRuns(raw, []), RawCompression);
      RawRunsFlatten(raw, []);
      assert [] + raw == raw;
      SortByMultiset(Filter(chunks, IsRaw), RawLe);
      FilterCount(chunks, IsRaw, x);
    }
    assert multiset(SourcesOf(g2))[x] == if IsOversized(x) then multiset(chunks)[x] else 0 by {
      SourcesOfWrap(s, Singles(big), CompressedMerge);
      FlattenSingles(big);
      FilterCount(chunks, IsOversized, x);
    }
    assert multiset(SourcesOf(g3))[x] <= if IsMergeable(x) then multiset(chunks)[x] else 0 by {
      var p := (run: seq<Ref>) => WorthMerging(run, AtLeast(lately));
      SourcesOfWrap(s, Filter(MergeRuns(sorted, []), p), CompressedMerge);
      FlattenFilter(MergeRuns(sorted, []), p, x);
      MergeRunsFlatten(sorted, []);
      assert [] + sorted == sorted;
      SortByMultiset(under, MergeLe);
      FilterCount(chunks, IsMergeable, x);
    }
  }

  lemma PlanSeriesDistinct(s: int, chunks: seq<Ref>, lately: bool, rawMin: nat)
    requires Distinct(chunks)
    ensures Distinct(SourcesOf(PlanSeries(s, chunks, lately, rawMin)))
  {
    DistinctCount(chunks);
    DistinctCount(SourcesOf(PlanSeries(s, chunks, lately, rawMin)));
    forall x: Ref ensures multiset(SourcesOf(PlanSeries(s, chunks, lately, rawMin)))[x] <= 1 {
      PlanSeriesCount(s, chunks, lately, rawMin, x);
    }
  }

  // -------------------------------------------- a series starts being written

  lemma WrapEmpty(s: int, runs: seq<seq<Ref>>, kind: Kind)
    ensures Wrap(s, runs, kind) == [] <==> runs == []
  {
  }

  /** Being written only postpones work: a series with nothing to do once it
      has ended has nothing to do while it is written. */
  lemma WrittenLatelyOnlyPostpones(s: int, chunks: seq<Ref>, rawMin: nat)
    requires PlanSeries(s, chunks, false, rawMin) == []
    ensures PlanSeries(s, chunks, true, rawMin) == []
  {
    var raw := Filter(chunks, IsRaw);
    var under := Filter(chunks, IsMergeable);
    var runs := MergeRuns(SortBy(under, MergeLe), []);
    assert Wrap(s, RawRuns(RawWorthwhile(chunks, false, rawMin), []), RawCompression) == [];
    assert MergeGroups(s, under, 2) == [];
    assert raw == [] by {
      WrapEmpty(s, RawRuns(SortBy(raw, RawLe), []), RawCompression);
      RawRunsFlatten(SortBy(raw, RawLe), []);
      assert [] + SortBy(raw, RawLe) == [];
      SortByMembers(raw, RawLe);
    }
    WrapEmpty(s, Worth(runs, 2), CompressedMerge);
    forall run | run in runs ensures !WorthMerging(run, MERGE_MIN_CHUNKS) {
      FilterMember(runs, (run: seq<Ref>) => WorthMerging(run, 2), run);
    }
    FilterNone(runs, (run: seq<Ref>) => WorthMerging(run, MERGE_MIN_CHUNKS));
  }
}
