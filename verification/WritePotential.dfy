/** The potential that pays for size-tiered merging. A compressed chunk of `n`
    points below the target carries `n * (12 - floor(log2 n))`, a full one
    nothing: each merge frees at least the points it rewrites. */
module WritePotential {
  import opened Sequences
  import opened Samples
  import opened ChunkTable
  import opened CompactionPlanner
  import opened CompactionExec

  // ---------------------------------------------------------------- log2

  function Log2(n: nat): nat
    requires n > 0
  {
    if n < 2 then 0 else 1 + Log2(n / 2)
  }

  lemma {:induction false} Log2Monotone(a: nat, b: nat)
    requires 0 < a <= b
    ensures Log2(a) <= Log2(b)
    decreases b
  {
    if a >= 2 {
      Log2Monotone(a / 2, b / 2);
    }
  }

  lemma Log2Double(a: nat, b: nat)
    requires 0 < a && 2 * a <= b
    ensures Log2(a) + 1 <= Log2(b)
  {
    Log2Monotone(a, b / 2);
  }

  function Pow2(n: nat): nat {
    if n == 0 then 1 else 2 * Pow2(n - 1)
  }

  lemma {:induction false} Log2Range(n: nat, l: nat)
    requires Pow2(l) <= n < Pow2(l + 1)
    ensures n > 0 && Log2(n) == l
    decreases l
  {
    if l > 0 {
      Log2Range(n / 2, l - 1);
    }
  }

  lemma PowersOfTwo()
    ensures Pow2(0) == 1 && Pow2(1) == 2 && Pow2(2) == 4 && Pow2(3) == 8
    ensures Pow2(4) == 16 && Pow2(5) == 32 && Pow2(6) == 64 && Pow2(7) == 128
    ensures Pow2(8) == 256 && Pow2(9) == 512 && Pow2(10) == 1024 && Pow2(11) == 2048
    ensures Pow2(12) == 4096
  {
    assert Pow2(4) == 16;
    assert Pow2(8) == 256;
  }

  lemma Log2Below(n: nat)
    requires 0 < n < 2048
    ensures Log2(n) <= 10
  {
    PowersOfTwo();
    Log2Range(2047, 10);
    Log2Monotone(n, 2047);
  }

  // ----------------------------------------------------------- potential

  function Phi(n: nat): int {
    if n == 0 then 0
    else if n < TARGET_POINTS then n * (12 - Log2(n))
    else if n == TARGET_POINTS then 0
    else 12 * n
  }

  lemma PhiBounds(n: nat)
    ensures 0 <= Phi(n) <= 12 * n
  {
    if 0 < n < TARGET_POINTS {
      Log2Below(n);
      assert 0 <= 12 - Log2(n) <= 12;
    }
  }

  function PhiRow(r: Row): int {
    if r.enc.Pco? then Phi(|r.points|) else 0
  }

  function PointCount(r: Row): int {
    |r.points|
  }

  /** The potential of `n` points cut at the target. */
  function PhiCut(n: nat): int {
    if n <= TARGET_POINTS then Phi(n) else PhiCut(n - TARGET_POINTS)
  }

  lemma {:induction false} PhiCutBound(n: nat)
    ensures 0 <= PhiCut(n) <= 12 * n
  {
    if n <= TARGET_POINTS {
      PhiBounds(n);
    } else {
      PhiCutBound(n - TARGET_POINTS);
    }
  }

  /** The tail a merge may leave past the target carries less than the target
      and itself together. */
  lemma TailPotential(t: nat)
    requires 0 < t <= 512
    ensures Phi(t) <= 2048 + t
  {
    PowersOfTwo();
    hide Log2, Pow2;
    if t < 2 { Log2Range(t, 0); }
    else if t < 4 { Log2Range(t, 1); }
    else if t < 8 { Log2Range(t, 2); }
    else if t < 16 { Log2Range(t, 3); }
    else if t < 32 { Log2Range(t, 4); }
    else if t < 64 { Log2Range(t, 5); }
    else if t < 128 { Log2Range(t, 6); }
    else if t < 256 { Log2Range(t, 7); }
    else if t < 512 { Log2Range(t, 8); }
    else { Log2Range(t, 9); }
  }

  // ----------------------------------------------------- a merge pays

  lemma {:induction false} SumScale(rows: seq<Row>, k: int)
    ensures Sum(rows, (r: Row) => k * PointCount(r)) == k * Sum(rows, PointCount)
  {
    if rows != [] {
      SumScale(rows[..|rows| - 1], k);
    }
  }

  function PhiSize(r: Row): int {
    Phi(|r.points|)
  }

  lemma MemberPays(n: nat, total: nat, k: int)
    requires 0 < n < TARGET_POINTS && 2 * n <= total && k == 13 - Log2(total)
    ensures k * n <= Phi(n)
  {
    Log2Double(n, total);
    var d := 12 - Log2(n);
    assert k <= d;
    assert k * n <= d * n;
  }

  lemma CutFreed(total: nat, k: int)
    requires 2 <= total <= MERGE_LIMIT && k == 13 - Log2(total)
    ensures k * total >= total + PhiCut(total)
  {
    PowersOfTwo();
    if total < TARGET_POINTS {
      assert k * total == total * (12 - Log2(total)) + total;
    } else {
      Log2Range(total, 11);
      if total > TARGET_POINTS {
        TailPotential(total - TARGET_POINTS);
      }
    }
  }

  /** A run of under-target chunks, none more than half of its `total`, frees at
      least what it rewrites. */
  lemma MergeFrees(rows: seq<Row>, total: nat)
    requires |rows| >= 2 && total == Sum(rows, PointCount) && total <= MERGE_LIMIT
    requires forall r | r in rows :: 0 < |r.points| < TARGET_POINTS && 2 * |r.points| <= total
    ensures Sum(rows, PhiSize) >= total + PhiCut(total)
  {
    assert rows[0] in rows;
    var k: int := 13 - Log2(total) as int;
    forall r | r in rows ensures k * PointCount(r) <= PhiSize(r) {
      MemberPays(|r.points|, total, k);
    }
    SumBelow(rows, (r: Row) => k * PointCount(r), PhiSize);
    SumScale(rows, k);
    CutFreed(total, k);
  }

  // ------------------------------------------------- accounting of a group

  lemma {:induction false} PointsOfLength(rows: seq<Row>)
    ensures |PointsOf(rows)| == Sum(rows, PointCount)
  {
    if rows != [] {
      PointsOfLength(rows[..|rows| - 1]);
    }
  }

  lemma PieceCut(r: Row, series: int, pts: seq<Sample>)
    requires Encodes(r, series, pts) && |pts| <= TARGET_POINTS
    ensures PhiRow(r) == PhiCut(|pts|) && (|pts| == TARGET_POINTS ==> PhiRow(r) == 0)
  {
  }

  lemma CutTail(n: nat)
    requires n > TARGET_POINTS
    ensures PhiCut(n) == PhiCut(n - TARGET_POINTS)
  {
  }

  lemma NoPieces()
    ensures Sum([], PhiRow) == PhiCut(0)
  {
    SumNone(PhiRow);
  }

  lemma {:induction false} EncodedPotential(part: seq<Row>, series: int, pts: seq<Sample>)
    requires EncodesCut(part, series, pts)
    ensures Sum(part, PhiRow) == PhiCut(|pts|)
    decreases |pts|
  {
    hide EncodesCut, Encodes, Sum, PhiCut, PhiRow;
    EncodesCutNext(part, series, pts);
    if pts == [] {
      NoPieces();
    } else if |pts| <= TARGET_POINTS {
      assert part == [part[0]];
      PieceCut(part[0], series, pts);
      SumOne(part[0], PhiRow);
    } else {
      var r, rest, more := part[0], part[1..], pts[TARGET_POINTS..];
      PieceCut(r, series, pts[..TARGET_POINTS]);
      EncodedPotential(rest, series, more);
      CutTail(|pts|);
      assert part == [r] + rest;
      SumConcat([r], rest, PhiRow);
      SumOne(r, PhiRow);
    }
  }

  lemma RewritesPotential(from: seq<Row>, series: int, part: seq<Row>)
    requires Rewrites(from, series, part)
    ensures Sum(part, PhiRow) == PhiCut(|PointsOf(from)|) && |PointsOf(from)| == Sum(from, PointCount)
  {
    var pts: seq<Sample> :|
      SortedTs(pts) && multiset(pts) == multiset(PointsOf(from)) && EncodesCut(part, series, pts);
    assert |multiset(pts)| == |multiset(PointsOf(from))|;
    PointsOfLength(from);
    EncodedPotential(part, series, pts);
  }

  function RawPoints(r: Row): int {
    if r.enc.Raw? then |r.points| else 0
  }

  /** Points a group brings into compressed chunks: all of a raw compression,
      and of a merge what is not compressed yet. */
  ghost function EnteredBy(rows: seq<Row>, g: Group): int
    requires Indexed(rows) && Present(rows, g)
  {
    if g.kind.RawCompression? then Sum(GroupRows(rows, g), PointCount)
    else Sum(GroupRows(rows, g), RawPoints)
  }

  /** Points a merge of under-target chunks rewrites. */
  ghost function RewrittenBy(rows: seq<Row>, g: Group): int
    requires Indexed(rows) && Present(rows, g)
  {
    if g.kind.CompressedMerge? && |g.sources| >= 2 then Sum(GroupRows(rows, g), PointCount) else 0
  }

  lemma {:induction false} RefPoints(rows: seq<Row>, s: int, refs: seq<Ref>)
    requires ValidTable(rows) && PresentRefs(rows, s, refs)
    ensures Sum(SourceRows(rows, s, refs), PointCount) == Points(refs)
  {
    if refs != [] {
      var n := |refs| - 1;
      RefPoints(rows, s, refs[..n]);
      PresentRow(rows, s, refs, refs[n]);
      assert SourceRows(rows, s, refs) == SourceRows(rows, s, refs[..n]) + [RowAt(rows, refs[n].id)];
    }
  }

  lemma PhiCoversRaw(rows: seq<Row>)
    ensures Sum(rows, PhiSize) <= 12 * Sum(rows, RawPoints) + Sum(rows, PhiRow)
    decreases |rows|
  {
    if rows != [] {
      PhiCoversRaw(rows[..|rows| - 1]);
      PhiBounds(|rows[|rows| - 1].points|);
    }
  }

  lemma PhiRowsNonNegative(rows: seq<Row>)
    ensures Sum(rows, PhiRow) >= 0
  {
    forall r | r in rows ensures PhiRow(r) >= 0 {
      PhiBounds(|r.points|);
    }
    SumNonNegative(rows, PhiRow);
  }

  lemma MergePays(rows: seq<Row>, g: Group)
    requires ValidTable(rows) && Present(rows, g) && WellPlanned(g)
    requires g.kind.CompressedMerge? && |g.sources| >= 2
    ensures |PointsOf(GroupRows(rows, g))| == Sum(GroupRows(rows, g), PointCount)
    ensures Sum(GroupRows(rows, g), PhiSize) >=
            Sum(GroupRows(rows, g), PointCount) + PhiCut(|PointsOf(GroupRows(rows, g))|)
  {
    var from := GroupRows(rows, g);
    PointsOfLength(from);
    RefPoints(rows, g.series, g.sources);
    var total := |PointsOf(from)|;
    assert total == Points(g.sources);
    forall r | r in from ensures 0 < |r.points| < TARGET_POINTS && 2 * |r.points| <= total {
      var i :| 0 <= i < |from| && from[i] == r;
      assert Matches(from[i], g.series, g.sources[i]) && WellFormed(from[i]);
      assert g.sources[i] in g.sources;
    }
    MergeFrees(from, total);
  }

  lemma OversizedPays(rows: seq<Row>, g: Group)
    requires ValidTable(rows) && Present(rows, g) && WellPlanned(g)
    requires g.kind.CompressedMerge? && |g.sources| == 1
    ensures Sum(GroupRows(rows, g), PhiSize) >= PhiCut(|PointsOf(GroupRows(rows, g))|)
  {
    var from := GroupRows(rows, g);
    assert from == [from[0]];
    assert Matches(from[0], g.series, g.sources[0]) && WellFormed(from[0]);
    SumOne(from[0], PhiSize);
    PointsOfLength(from);
    SumOne(from[0], PointCount);
    PhiCutBound(|PointsOf(from)|);
  }

  /** Every well-planned group pays: what it frees and what it brings in, at
      twelve a point, cover what it rewrites and what it leaves behind. It
      holds of the rows found under the planned ids whatever has happened to
      the table since the plan was made. */
  lemma GroupPays(rows: seq<Row>, g: Group, part: seq<Row>)
    requires ValidTable(rows) && Present(rows, g) && WellPlanned(g)
    requires Rewrites(GroupRows(rows, g), g.series, part)
    ensures 12 * EnteredBy(rows, g) + Sum(GroupRows(rows, g), PhiRow)
            >= RewrittenBy(rows, g) + Sum(part, PhiRow)
  {
    var from := GroupRows(rows, g);
    RewritesPotential(from, g.series, part);
    PhiCutBound(|PointsOf(from)|);
    PhiRowsNonNegative(from);
    PhiCoversRaw(from);
    if g.kind.CompressedMerge? {
      if |g.sources| == 1 {
        OversizedPays(rows, g);
      } else {
        MergePays(rows, g);
      }
    }
  }
}
