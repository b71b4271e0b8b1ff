/** The rollup kernel: samples in timestamp order folded into buckets of one
    width. */
module RollupKernel {
  import opened Sequences
  import opened Samples

  datatype Bucket = Bucket(ts: int, count: nat, sum: Value, min: Value, max: Value, lastTs: int, lastVal: Value)

  datatype Outcome<+T> = Ok(value: T) | Overflow

  /** The start of the bucket of width `r` that holds `ts`: `div_euclid` and
      back, right for negative timestamps. */
  function BucketStart(ts: int, r: int): int
    requires r > 0
  {
    ts / r * r
  }

  lemma BucketStartBounds(ts: int, r: int)
    requires r > 0
    ensures BucketStart(ts, r) <= ts < BucketStart(ts, r) + r
    ensures BucketStart(ts, r) % r == 0
  {
    assert ts == ts / r * r + ts % r;
    MultipleMod(ts / r, r);
  }

  /** A greater quotient is greater by a whole width. */
  lemma WidthApart(p: int, q: int, r: int)
    requires r > 0 && p < q
    ensures p * r + r <= q * r
  {
    assert (p + 1) * r <= q * r;
    assert (p + 1) * r == p * r + r;
  }

  lemma MultipleMod(q: int, r: int)
    requires r > 0
    ensures (q * r) % r == 0
  {
    var d, m := (q * r) / r, (q * r) % r;
    assert q * r == d * r + m;
    if q > d {
      WidthApart(d, q, r);
    } else if q < d {
      WidthApart(q, d, r);
    }
  }

  /** A multiple of the width at or below `ts` is at or below its bucket. */
  lemma BucketStartGreatest(b: int, ts: int, r: int)
    requires r > 0 && b % r == 0 && b <= ts
    ensures b <= BucketStart(ts, r)
  {
    var q, p := b / r, ts / r;
    assert b == q * r;
    assert ts < p * r + r by {
      BucketStartBounds(ts, r);
    }
    if q > p {
      WidthApart(p, q, r);
    } else if q < p {
      WidthApart(q, p, r);
    }
  }

  lemma BucketUnique(b: int, ts: int, r: int)
    requires r > 0 && b % r == 0 && b <= ts <= b + r - 1
    ensures b == BucketStart(ts, r)
  {
    BucketStartGreatest(b, ts, r);
    BucketStartBounds(ts, r);
    var q, p := b / r, ts / r;
    assert b == q * r;
    if q < p {
      WidthApart(q, p, r);
    } else if q > p {
      WidthApart(p, q, r);
    }
  }

  function First(x: Sample, r: int): Bucket
    requires r > 0
  {
    Bucket(BucketStart(x.ts, r), 1, x.val, x.val, x.val, x.ts, x.val)
  }

  function Absorb(b: Bucket, x: Sample): Bucket {
    var c := b.(count := b.count + 1, sum := Add(b.sum, x.val),
                min := Least(b.min, x.val), max := Greatest(b.max, x.val));
    if x.ts >= b.lastTs then c.(lastTs := x.ts, lastVal := x.val) else c
  }

  /** One sample folded onto the buckets so far. */
  function Push(out: seq<Bucket>, x: Sample, r: int): seq<Bucket>
    requires r > 0
  {
    if out != [] && out[|out| - 1].ts == BucketStart(x.ts, r) then
      out[..|out| - 1] + [Absorb(out[|out| - 1], x)]
    else out + [First(x, r)]
  }

  function BucketsOf(samples: seq<Sample>, r: int): seq<Bucket>
    requires r > 0
  {
    if samples == [] then []
    else Push(BucketsOf(samples[..|samples| - 1], r), samples[|samples| - 1], r)
  }

  predicate Overflows(samples: seq<Sample>, r: int)
    requires r > 0
  {
    exists x :: x in samples && BucketStart(x.ts, r) < I64_MIN
  }

  lemma {:induction false} HasBucket(samples: seq<Sample>, r: int, x: Sample) returns (b: Bucket)
    requires r > 0 && x in samples
    ensures b in BucketsOf(samples, r) && b.ts == BucketStart(x.ts, r)
  {
    hide BucketStart, Push;
    var t, last := samples[..|samples| - 1], samples[|samples| - 1];
    assert samples == t + [last];
    PushStarts(BucketsOf(t, r), last, r);
    if x in t {
      var c := HasBucket(t, r, x);
      b :| b in BucketsOf(samples, r) && b.ts == c.ts;
    } else {
      b :| b in BucketsOf(samples, r) && b.ts == BucketStart(x.ts, r);
    }
  }

  lemma {:induction false} HasSample(samples: seq<Sample>, r: int, b: Bucket) returns (x: Sample)
    requires r > 0 && b in BucketsOf(samples, r)
    ensures x in samples && b.ts == BucketStart(x.ts, r)
    decreases |samples|
  {
    hide BucketStart, Push;
    var t, last := samples[..|samples| - 1], samples[|samples| - 1];
    assert samples == t + [last];
    PushStarts(BucketsOf(t, r), last, r);
    if b.ts == BucketStart(last.ts, r) {
      x := last;
    } else {
      var c :| c in BucketsOf(t, r) && c.ts == b.ts;
      x := HasSample(t, r, c);
    }
  }

  lemma PushStarts(out: seq<Bucket>, x: Sample, r: int)
    requires r > 0
    ensures forall c | c in out :: exists b :: b in Push(out, x, r) && b.ts == c.ts
    ensures exists b :: b in Push(out, x, r) && b.ts == BucketStart(x.ts, r)
    ensures forall b | b in Push(out, x, r) :: b.ts == BucketStart(x.ts, r) || exists c :: c in out && c.ts == b.ts
  {
    hide BucketStart;
    var now := Push(out, x, r);
    assert now[|now| - 1] in now && now[|now| - 1].ts == BucketStart(x.ts, r);
    forall c | c in out ensures exists b :: b in now && b.ts == c.ts {
      var i :| 0 <= i < |out| && out[i] == c;
      assert now[i] in now && now[i].ts == c.ts;
    }
    forall b | b in now ensures b.ts == BucketStart(x.ts, r) || exists c :: c in out && c.ts == b.ts {
      var i :| 0 <= i < |now| && now[i] == b;
      if i < |now| - 1 {
        assert out[i] in out && out[i].ts == b.ts;
      }
    }
  }

  /** The kernel refuses exactly when a bucket would start below the least 64-bit
      timestamp. */
  lemma OverflowsIff(samples: seq<Sample>, r: int)
    requires r > 0
    ensures Overflows(samples, r) <==> exists b :: b in BucketsOf(samples, r) && b.ts < -0x8000_0000_0000_0000
  {
    hide BucketsOf, BucketStart;
    if x :| x in samples && BucketStart(x.ts, r) < I64_MIN {
      var b := HasBucket(samples, r, x);
    }
    if b :| b in BucketsOf(samples, r) && b.ts < -0x8000_0000_0000_0000 {
      var x := HasSample(samples, r, b);
    }
  }

  /** `rollup_buckets`: an error exactly when a bucket would start below the
      least representable timestamp. */
  method RollupBuckets(samples: seq<Sample>, r: int) returns (o: Outcome<seq<Bucket>>)
    requires r > 0
    ensures o == if Overflows(samples, r) then Overflow else Ok(BucketsOf(samples, r))
  {
    var out: seq<Bucket> := [];
    for i := 0 to |samples|
      invariant out == BucketsOf(samples[..i], r)
      invariant forall x | x in samples[..i] :: BucketStart(x.ts, r) >= I64_MIN
    {
      var x := samples[i];
      assert samples[..i + 1] == samples[..i] + [x];
      assert samples[..i + 1][..i] == samples[..i];
      var start := BucketStart(x.ts, r);
      if start < I64_MIN {
        return Overflow;
      }
      if out != [] && out[|out| - 1].ts == start {
        var b := out[|out| - 1];
        b := b.(count := b.count + 1, sum := Add(b.sum, x.val),
                min := Least(b.min, x.val), max := Greatest(b.max, x.val));
        if x.ts >= b.lastTs {
          b := b.(lastTs := x.ts, lastVal := x.val);
        }
        out := out[..|out| - 1] + [b];
      } else {
        out := out + [Bucket(start, 1, x.val, x.val, x.val, x.ts, x.val)];
      }
    }
    assert samples[..|samples|] == samples;
    o := Ok(out);
  }

  // ------------------------------------------------- the bucket contract

  predicate Rising(buckets: seq<Bucket>) {
    forall i, j | 0 <= i < j < |buckets| :: buckets[i].ts < buckets[j].ts
  }

  /** What a bucket says of the samples it is over: their number, their sum,
      least and greatest, and the last of them. */
  ghost predicate Summarizes(b: Bucket, samples: seq<Sample>) {
    && samples != []
    && b.count == |samples|
    && b.sum == SumOf(samples)
    && b.min == MinOf(samples)
    && b.max == MaxOf(samples)
    && b.lastTs == samples[|samples| - 1].ts
    && b.lastVal == samples[|samples| - 1].val
  }

  /** The naive definition: a bucket starts at a multiple of the width and
      summarizes exactly the samples in it. */
  ghost predicate IsBucket(b: Bucket, samples: seq<Sample>, r: int)
    requires r > 0
  {
    b.ts % r == 0 && Summarizes(b, InRange(samples, b.ts, b.ts + r - 1))
  }

  ghost predicate Covers(buckets: seq<Bucket>, samples: seq<Sample>, r: int)
    requires r > 0
  {
    && Rising(buckets)
    && (forall b | b in buckets :: IsBucket(b, samples, r))
    && (samples != [] ==> buckets != [] && buckets[|buckets| - 1].ts == BucketStart(samples[|samples| - 1].ts, r))
  }

  lemma InRangeLast(samples: seq<Sample>, x: Sample, lo: int, hi: int)
    ensures InRange(samples + [x], lo, hi) ==
            InRange(samples, lo, hi) + if lo <= x.ts <= hi then [x] else []
  {
    assert (samples + [x])[..|samples|] == samples;
  }

  lemma SummarizeOne(x: Sample, r: int)
    requires r > 0
    ensures Summarizes(First(x, r), [x])
  {
    FoldOne(x);
  }

  lemma SummarizeMore(b: Bucket, w: seq<Sample>, x: Sample)
    requires Summarizes(b, w) && w[|w| - 1].ts <= x.ts
    ensures Summarizes(Absorb(b, x), w + [x])
  {
    assert (w + [x])[..|w|] == w;
  }

  lemma SortedInit(samples: seq<Sample>, x: Sample)
    requires SortedTs(samples + [x])
    ensures SortedTs(samples)
    ensures forall y | y in samples :: y.ts <= x.ts
  {
    var all := samples + [x];
    assert forall i | 0 <= i < |samples| :: all[i] == samples[i];
    assert all[|samples|] == x;
  }

  /** A sample leaves the buckets it is not in as they were. */
  lemma OtherBucket(b: Bucket, samples: seq<Sample>, x: Sample, r: int)
    requires r > 0 && IsBucket(b, samples, r) && b.ts != BucketStart(x.ts, r)
    ensures IsBucket(b, samples + [x], r)
  {
    hide BucketStart, InRange, SumOf, MinOf, MaxOf;
    InRangeLast(samples, x, b.ts, b.ts + r - 1);
    if b.ts <= x.ts <= b.ts + r - 1 {
      BucketUnique(b.ts, x.ts, r);
    } else {
      var w := InRange(samples, b.ts, b.ts + r - 1);
      assert InRange(samples + [x], b.ts, b.ts + r - 1) == w + [] == w;
    }
  }

  lemma GrownBucket(b: Bucket, samples: seq<Sample>, x: Sample, r: int)
    requires r > 0 && IsBucket(b, samples, r) && b.ts == BucketStart(x.ts, r)
    requires SortedTs(samples + [x])
    ensures IsBucket(Absorb(b, x), samples + [x], r)
  {
    hide InRange, SumOf, MinOf, MaxOf, BucketStart;
    InRangeLast(samples, x, b.ts, b.ts + r - 1);
    BucketStartBounds(x.ts, r);
    SortedInit(samples, x);
    var w := InRange(samples, b.ts, b.ts + r - 1);
    assert w[|w| - 1] in samples by {
      InRangeMember(samples, b.ts, b.ts + r - 1, w[|w| - 1]);
    }
    SummarizeMore(b, w, x);
  }

  lemma InRangeMember(samples: seq<Sample>, lo: int, hi: int, x: Sample)
    requires x in InRange(samples, lo, hi)
    ensures x in samples
  {
    FilterMember(samples, (y: Sample) => lo <= y.ts <= hi, x);
  }

  lemma NewBucket(samples: seq<Sample>, x: Sample, r: int)
    requires r > 0 && SortedTs(samples + [x])
    requires samples != [] ==> BucketStart(samples[|samples| - 1].ts, r) < BucketStart(x.ts, r)
    ensures IsBucket(First(x, r), samples + [x], r)
  {
    hide InRange, Summarizes, BucketStart;
    var start := BucketStart(x.ts, r);
    BucketStartBounds(x.ts, r);
    SortedInit(samples, x);
    InRangeLast(samples, x, start, start + r - 1);
    NothingYet(samples, start, r);
    assert InRange(samples + [x], start, start + r - 1) == [] + [x] == [x];
    SummarizeOne(x, r);
  }

  lemma NothingYet(samples: seq<Sample>, start: int, r: int)
    requires r > 0 && start % r == 0 && SortedTs(samples)
    requires samples != [] ==> BucketStart(samples[|samples| - 1].ts, r) < start
    ensures InRange(samples, start, start + r - 1) == []
  {
    hide BucketStart;
    var p := (x: Sample) => start <= x.ts <= start + r - 1;
    if samples != [] {
      var y := samples[|samples| - 1];
      assert y.ts < start by {
        if start <= y.ts {
          BucketStartGreatest(start, y.ts, r);
        }
      }
      forall x | x in samples ensures !p(x) {
        var i :| 0 <= i < |samples| && samples[i] == x;
        assert i == |samples| - 1 || samples[i].ts <= y.ts;
      }
    }
    FilterNone(samples, p);
  }

  lemma PushCovers(out: seq<Bucket>, samples: seq<Sample>, x: Sample, r: int)
    requires r > 0 && Covers(out, samples, r)
    requires SortedTs(samples + [x])
    ensures Covers(Push(out, x, r), samples + [x], r)
  {
    hide BucketStart, IsBucket;
    var start := BucketStart(x.ts, r);
    var all := samples + [x];
    SortedInit(samples, x);
    assert samples != [] ==> BucketStart(samples[|samples| - 1].ts, r) <= start by {
      if samples != [] {
        var y := samples[|samples| - 1];
        assert y in samples;
        BucketStartBounds(y.ts, r);
        BucketStartGreatest(BucketStart(y.ts, r), x.ts, r);
      }
    }
    assert samples == [] ==> out == [] by {
      NoBuckets(out, samples, r);
    }
    if out != [] && out[|out| - 1].ts == start {
      PushGrows(out, samples, x, r);
    } else {
      PushAdds(out, samples, x, r);
    }
  }

  lemma NoBuckets(out: seq<Bucket>, samples: seq<Sample>, r: int)
    requires r > 0 && Covers(out, samples, r)
    ensures samples == [] ==> out == []
  {
    assert out != [] ==> IsBucket(out[0], samples, r);
  }

  lemma PushGrows(out: seq<Bucket>, samples: seq<Sample>, x: Sample, r: int)
    requires r > 0 && Covers(out, samples, r) && SortedTs(samples + [x])
    requires out != [] && out[|out| - 1].ts == BucketStart(x.ts, r)
    ensures Covers(Push(out, x, r), samples + [x], r)
  {
    hide BucketStart, IsBucket;
    var k := |out| - 1;
    var b := out[k];
    GrownBucket(b, samples, x, r);
    var next := Push(out, x, r);
    assert next == out[..k] + [Absorb(b, x)];
    forall c | c in next ensures IsBucket(c, samples + [x], r) {
      if c != Absorb(b, x) {
        var i :| 0 <= i < k && out[i] == c;
        OtherBucket(c, samples, x, r);
      }
    }
    assert Rising(next) by {
      assert forall i | 0 <= i < |out| :: next[i].ts == out[i].ts;
    }
  }

  lemma PushAdds(out: seq<Bucket>, samples: seq<Sample>, x: Sample, r: int)
    requires r > 0 && Covers(out, samples, r) && SortedTs(samples + [x])
    requires samples == [] ==> out == []
    requires samples != [] ==> BucketStart(samples[|samples| - 1].ts, r) <= BucketStart(x.ts, r)
    requires out == [] || out[|out| - 1].ts != BucketStart(x.ts, r)
    ensures Covers(Push(out, x, r), samples + [x], r)
  {
    hide BucketStart, IsBucket;
    NewBucket(samples, x, r);
    var next := Push(out, x, r);
    assert next == out + [First(x, r)];
    assert First(x, r).ts == BucketStart(x.ts, r);
    forall i | 0 <= i < |out| ensures out[i].ts < BucketStart(x.ts, r) {
      assert i == |out| - 1 || out[i].ts < out[|out| - 1].ts;
    }
    forall c | c in next ensures IsBucket(c, samples + [x], r) {
      if c != First(x, r) {
        var i :| 0 <= i < |out| && out[i] == c;
        OtherBucket(c, samples, x, r);
      }
    }
    assert Rising(next) by {
      assert forall i | 0 <= i < |out| :: next[i] == out[i];
    }
  }

  /** Every stored bucket equals the naive computation over the samples, the
      buckets rise, and every sample is in one. */
  lemma {:induction false} BucketsOfCovers(samples: seq<Sample>, r: int)
    requires r > 0 && SortedTs(samples)
    ensures Covers(BucketsOf(samples, r), samples, r)
    ensures forall x | x in samples :: HasStart(BucketsOf(samples, r), BucketStart(x.ts, r))
  {
    hide BucketStart, Push, Covers;
    if samples != [] {
      var t, x := samples[..|samples| - 1], samples[|samples| - 1];
      BucketsOfCovers(t, r);
      assert samples == t + [x];
      PushCovers(BucketsOf(t, r), t, x, r);
      PushKeepsStarts(BucketsOf(t, r), x, r);
      forall y | y in samples
        ensures HasStart(BucketsOf(samples, r), BucketStart(y.ts, r))
      {
        assert y in t || y == x;
      }
    } else {
      NothingCovered(r);
    }
  }

  ghost predicate HasStart(buckets: seq<Bucket>, start: int) {
    exists b :: b in buckets && b.ts == start
  }

  lemma NothingCovered(r: int)
    requires r > 0
    ensures Covers([], [], r)
  {
  }

  lemma PushKeepsStarts(out: seq<Bucket>, x: Sample, r: int)
    requires r > 0
    ensures forall ts | HasStart(out, ts) :: HasStart(Push(out, x, r), ts)
    ensures HasStart(Push(out, x, r), BucketStart(x.ts, r))
  {
    hide BucketStart;
    var next := Push(out, x, r);
    assert next[|next| - 1] in next;
    forall ts | HasStart(out, ts) ensures HasStart(next, ts) {
      var i :| 0 <= i < |out| && out[i].ts == ts;
      assert next[i] in next && next[i].ts == ts;
    }
  }

  /** At a bucket boundary the kernel may be stopped and started again: the
      buckets of the whole are those of the two parts. */
  lemma {:induction false} BucketsOfSplit(a: seq<Sample>, b: seq<Sample>, end: int, r: int)
    requires r > 0 && (end + 1) % r == 0 && SortedTs(a)
    requires forall x | x in a :: x.ts <= end
    requires forall x | x in b :: x.ts > end
    ensures BucketsOf(a + b, r) == BucketsOf(a, r) + BucketsOf(b, r)
    decreases |b|
  {
    hide BucketStart, BucketsOf;
    if b == [] {
      assert a + b == a;
      BucketsOfNone(r);
      assert BucketsOf(a, r) + [] == BucketsOf(a, r);
    } else {
      var t, x := b[..|b| - 1], b[|b| - 1];
      assert a + b == (a + t) + [x] && b == t + [x];
      assert x in b && x.ts >= end + 1;
      BucketsOfSplit(a, t, end, r);
      BucketsOfLast(a + t, x, r);
      BucketsOfLast(t, x, r);
      assert BucketStart(x.ts, r) > end by {
        BucketStartGreatest(end + 1, x.ts, r);
      }
      BucketsBelow(a, end, r);
      BucketsOfNone(r);
      PushAfter(BucketsOf(a, r), BucketsOf(t, r), x, end, r);
    }
  }

  lemma BucketsOfNone(r: int)
    requires r > 0
    ensures BucketsOf([], r) == []
  {
  }

  lemma BucketsOfLast(t: seq<Sample>, x: Sample, r: int)
    requires r > 0
    ensures BucketsOf(t + [x], r) == Push(BucketsOf(t, r), x, r)
  {
    assert (t + [x])[..|t|] == t;
  }

  lemma PushAfter(early: seq<Bucket>, late: seq<Bucket>, x: Sample, end: int, r: int)
    requires r > 0 && BucketStart(x.ts, r) > end
    requires forall b | b in early :: b.ts <= end
    ensures Push(early + late, x, r) == early + Push(late, x, r)
  {
    hide BucketStart;
    if late == [] {
      assert early + late == early;
      assert early != [] ==> early[|early| - 1] in early;
    } else {
      assert (early + late)[|early + late| - 1] == late[|late| - 1];
      assert (early + late)[..|early + late| - 1] == early + late[..|late| - 1];
    }
  }

  lemma BucketsBelow(a: seq<Sample>, end: int, r: int)
    requires r > 0 && SortedTs(a)
    requires forall x | x in a :: x.ts <= end
    ensures forall b | b in BucketsOf(a, r) :: b.ts <= end
  {
    hide BucketsOf;
    BucketsOfCovers(a, r);
    forall b | b in BucketsOf(a, r) ensures b.ts <= end {
      assert IsBucket(b, a, r);
      var w := InRange(a, b.ts, b.ts + r - 1);
      var x := w[0];
      FilterMember(a, (y: Sample) => b.ts <= y.ts <= b.ts + r - 1, x);
    }
  }
}
