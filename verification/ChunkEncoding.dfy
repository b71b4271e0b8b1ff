/** Encoding a partition into a chunk row, with the metadata kept of it. */
module ChunkEncoding {
  import opened Sequences
  import opened Samples
  import opened ChunkTable

  /** `fold_min_max_sum`: minimum and maximum ignore NaN, the sum absorbs it. */
  method FoldMinMaxSum(points: seq<Sample>) returns (lo: Value, hi: Value, sum: Value)
    ensures lo == MinOf(points) && hi == MaxOf(points) && sum == SumOf(points)
  {
    lo, hi, sum := NaN, NaN, Num(0.0);
    for i := 0 to |points|
      invariant lo == MinOf(points[..i]) && hi == MaxOf(points[..i]) && sum == SumOf(points[..i])
    {
      assert points[..i + 1][..i] == points[..i];
      var v := points[i].val;
      if lo.NaN? || (v.Num? && v.r < lo.r) {
        lo := v;
      }
      if hi.NaN? || (v.Num? && v.r > hi.r) {
        hi := v;
      }
      sum := Add(sum, v);
    }
    assert points[..|points|] == points;
  }

  predicate NeedsSort(points: seq<Sample>) {
    exists i :: 0 < i < |points| && points[i - 1].ts > points[i].ts
  }

  lemma {:induction false} InOrder(points: seq<Sample>)
    requires !NeedsSort(points)
    ensures SortedTs(points)
  {
    if |points| > 1 {
      var n := |points| - 1;
      forall i | 0 < i < n ensures points[..n][i - 1].ts <= points[..n][i].ts {
        assert points[i - 1].ts <= points[i].ts;
      }
      InOrder(points[..n]);
      assert points[n - 1].ts <= points[n].ts;
      forall i | 0 <= i < n ensures points[i].ts <= points[n].ts {
        assert points[..n][i].ts <= points[..n][n - 1].ts;
      }
      assert points == points[..n] + [points[n]];
    }
  }

  /** `encode_partition`: an empty partition is refused; otherwise the samples in
      timestamp order (left alone if they already are) with exact metadata. */
  method EncodePartition(id: nat, series: int, points: seq<Sample>, enc: Encoding, size: seq<Sample> -> nat)
    returns (r: Option<Row>)
    ensures r.None? <==> points == []
    ensures r.Some? ==>
              && r.value.id == id && r.value.series == series && r.value.enc == enc
              && WellFormed(r.value) && ExactMeta(r.value.meta, r.value.points)
              && multiset(r.value.points) == multiset(points)
              && (SortedTs(points) ==> r.value.points == points)
  {
    if points == [] {
      return None;
    }
    var sorted := points;
    if NeedsSort(points) {
      sorted := SortUnstable(points);
      assert |multiset(sorted)| == |multiset(points)|;
    } else {
      InOrder(points);
    }
    var newest := sorted[|sorted| - 1].ts;
    var lo, hi, sum := FoldMinMaxSum(sorted);
    var meta := Meta(sorted[0].ts, newest, Some(sorted[FirstAt(sorted, newest)].val), |sorted|,
                     size(sorted), lo, hi, sum);
    r := Some(Row(id, series, enc, meta, sorted));
  }

  /** `decode_chunk_data`: a row's samples in `[lo, hi]`, in their order. */
  method DecodeRange(row: Row, lo: int, hi: int) returns (out: seq<Sample>)
    ensures out == InRange(row.points, lo, hi)
  {
    out := [];
    for i := 0 to |row.points|
      invariant out == InRange(row.points[..i], lo, hi)
    {
      assert row.points[..i + 1][..i] == row.points[..i];
      if row.points[i].ts >= lo && row.points[i].ts <= hi {
        out := out + [row.points[i]];
      }
    }
    assert row.points[..|row.points|] == row.points;
  }
}
