/** Samples and the folds the engine keeps of them. */
module Samples {
  import opened Sequences

  const I64_MIN: int := -0x8000_0000_0000_0000
  const I64_MAX: int := 0x7FFF_FFFF_FFFF_FFFF

  /** A sample value in exact arithmetic, with the one element the engine's
      folds treat apart. */
  datatype Value = NaN | Num(r: real)

  datatype Sample = Sample(ts: int, val: Value)

  predicate TsLe(a: Sample, b: Sample) {
    a.ts <= b.ts
  }

  lemma TsLeTotal()
    ensures TotalPreorder(TsLe)
  {
  }

  ghost predicate SortedTs(s: seq<Sample>) {
    forall i, j | 0 <= i < j < |s| :: s[i].ts <= s[j].ts
  }

  function InRange(s: seq<Sample>, lo: int, hi: int): seq<Sample> {
    Filter(s, (x: Sample) => lo <= x.ts <= hi)
  }

  lemma InRangeCount(s: seq<Sample>, lo: int, hi: int, x: Sample)
    ensures multiset(InRange(s, lo, hi))[x] == if lo <= x.ts <= hi then multiset(s)[x] else 0
  {
    FilterCount(s, (x: Sample) => lo <= x.ts <= hi, x);
  }

  function StableSort(s: seq<Sample>): seq<Sample> {
    SortBy(s, TsLe)
  }

  lemma StableSortSorted(s: seq<Sample>)
    ensures SortedTs(StableSort(s))
    ensures multiset(StableSort(s)) == multiset(s)
  {
    TsLeTotal();
    SortByAscending(s, TsLe);
    SortByMultiset(s, TsLe);
    var r := StableSort(s);
    forall i, j | 0 <= i < j < |r| ensures r[i].ts <= r[j].ts {
      assert TsLe(r[i], r[j]);
    }
  }

  /** `slice::sort_unstable_by_key` on the timestamp: sorted, the same samples,
      and no promise about the order of equal timestamps. */
  method SortUnstable(s: seq<Sample>) returns (r: seq<Sample>)
    ensures SortedTs(r)
    ensures multiset(r) == multiset(s)
  {
    r := StableSort(s);
    StableSortSorted(s);
  }

  ghost predicate DistinctTs(s: seq<Sample>) {
    forall i, j | 0 <= i < j < |s| :: s[i].ts != s[j].ts
  }

  /** The last of two sorted arrangements of the same samples, where no two
      share a timestamp. */
  lemma SortedLast(a: seq<Sample>, b: seq<Sample>)
    requires SortedTs(a) && SortedTs(b) && DistinctTs(a) && a != []
    requires multiset(a) == multiset(b)
    ensures |a| == |b| && a[|a| - 1] == b[|b| - 1]
  {
    assert |multiset(a)| == |multiset(b)|;
    var n := |a| - 1;
    var x, y := a[n], b[n];
    assert x in multiset(b) && y in multiset(a);
    NoneLater(b, x);
    NoneLater(a, y);
    OneAt(a, x, y);
  }

  lemma NoneLater(s: seq<Sample>, x: Sample)
    requires SortedTs(s) && x in s
    ensures x.ts <= s[|s| - 1].ts
  {
    var i :| 0 <= i < |s| && s[i] == x;
    assert i == |s| - 1 || s[i].ts <= s[|s| - 1].ts;
  }

  lemma DistinctAt(s: seq<Sample>, i: nat, j: nat)
    requires DistinctTs(s) && i < j < |s|
    ensures s[i].ts != s[j].ts
  {
  }

  lemma OneAt(s: seq<Sample>, x: Sample, y: Sample)
    requires DistinctTs(s) && x in s && y in s && x.ts == y.ts
    ensures x == y
  {
    hide DistinctTs;
    var i :| 0 <= i < |s| && s[i] == x;
    var j :| 0 <= j < |s| && s[j] == y;
    if i < j {
      DistinctAt(s, i, j);
    } else if j < i {
      DistinctAt(s, j, i);
    }
  }

  lemma MultisetInit(s: seq<Sample>)
    requires s != []
    ensures multiset(s[..|s| - 1]) == multiset(s) - multiset{s[|s| - 1]}
  {
    assert s == s[..|s| - 1] + [s[|s| - 1]];
  }

  /** With distinct timestamps the sorted order is the only one. */
  lemma {:induction false} SortedUnique(a: seq<Sample>, b: seq<Sample>)
    requires SortedTs(a) && SortedTs(b) && DistinctTs(a)
    requires multiset(a) == multiset(b)
    ensures a == b
    decreases |a|
  {
    if a == [] {
      assert |multiset(b)| == 0;
    } else {
      SortedLast(a, b);
      var n := |a| - 1;
      assert a[..n] == b[..n] by {
        MultisetInit(a);
        MultisetInit(b);
        SortedUnique(a[..n], b[..n]);
      }
      assert a == a[..n] + [a[n]];
      assert b == b[..n] + [b[n]];
    }
  }

  // ------------------------------------------------------- arithmetic folds

  /** IEEE addition in exact arithmetic: a NaN absorbs. */
  function Add(a: Value, b: Value): Value {
    if a.NaN? || b.NaN? then NaN else Num(a.r + b.r)
  }

  /** `f64::min`: a NaN is ignored unless both are. */
  function Least(a: Value, b: Value): Value {
    if a.NaN? then b else if b.NaN? then a else if b.r < a.r then b else a
  }

  /** `f64::max`. */
  function Greatest(a: Value, b: Value): Value {
    if a.NaN? then b else if b.NaN? then a else if b.r > a.r then b else a
  }

  function SumOf(s: seq<Sample>): Value {
    if s == [] then Num(0.0) else Add(SumOf(s[..|s| - 1]), s[|s| - 1].val)
  }

  function MinOf(s: seq<Sample>): Value {
    if s == [] then NaN else Least(MinOf(s[..|s| - 1]), s[|s| - 1].val)
  }

  function MaxOf(s: seq<Sample>): Value {
    if s == [] then NaN else Greatest(MaxOf(s[..|s| - 1]), s[|s| - 1].val)
  }

  lemma FoldAssociative(a: Value, b: Value, c: Value)
    ensures Add(Add(a, b), c) == Add(a, Add(b, c))
    ensures Least(Least(a, b), c) == Least(a, Least(b, c))
    ensures Greatest(Greatest(a, b), c) == Greatest(a, Greatest(b, c))
  {
  }

  lemma {:induction false} SumOfConcat(a: seq<Sample>, b: seq<Sample>)
    ensures SumOf(a + b) == Add(SumOf(a), SumOf(b))
  {
    if b == [] {
      assert a + b == a;
    } else {
      var t, y := b[..|b| - 1], b[|b| - 1].val;
      assert (a + b)[..|a + b| - 1] == a + t;
      assert SumOf(a + b) == Add(SumOf(a + t), y);
      SumOfConcat(a, t);
      FoldAssociative(SumOf(a), SumOf(t), y);
    }
  }

  lemma {:induction false} MinOfConcat(a: seq<Sample>, b: seq<Sample>)
    ensures MinOf(a + b) == Least(MinOf(a), MinOf(b))
  {
    if b == [] {
      assert a + b == a;
    } else {
      var t, y := b[..|b| - 1], b[|b| - 1].val;
      assert (a + b)[..|a + b| - 1] == a + t;
      assert MinOf(a + b) == Least(MinOf(a + t), y);
      MinOfConcat(a, t);
      FoldAssociative(MinOf(a), MinOf(t), y);
    }
  }

  lemma {:induction false} MaxOfConcat(a: seq<Sample>, b: seq<Sample>)
    ensures MaxOf(a + b) == Greatest(MaxOf(a), MaxOf(b))
  {
    if b == [] {
      assert a + b == a;
    } else {
      var t, y := b[..|b| - 1], b[|b| - 1].val;
      assert (a + b)[..|a + b| - 1] == a + t;
      assert MaxOf(a + b) == Greatest(MaxOf(a + t), y);
      MaxOfConcat(a, t);
      FoldAssociative(MaxOf(a), MaxOf(t), y);
    }
  }

  lemma FoldOne(x: Sample)
    ensures SumOf([x]) == x.val && MinOf([x]) == x.val && MaxOf([x]) == x.val
  {
    assert [x][..0] == [];
  }

  /** NaN exactly when there is no number, and otherwise a number that occurs and
      that no number is below. */
  ghost predicate IsLeast(v: Value, s: seq<Sample>) {
    && (v.NaN? <==> forall x | x in s :: x.val.NaN?)
    && (v.Num? ==> exists x :: x in s && x.val == v)
    && (v.Num? ==> forall x | x in s && x.val.Num? :: v.r <= x.val.r)
  }

  ghost predicate IsGreatest(v: Value, s: seq<Sample>) {
    && (v.NaN? <==> forall x | x in s :: x.val.NaN?)
    && (v.Num? ==> exists x :: x in s && x.val == v)
    && (v.Num? ==> forall x | x in s && x.val.Num? :: x.val.r <= v.r)
  }

  lemma {:induction false} MinOfMeaning(s: seq<Sample>)
    ensures IsLeast(MinOf(s), s)
  {
    if s != [] {
      var t, y := s[..|s| - 1], s[|s| - 1];
      MinOfMeaning(t);
      assert s == t + [y];
      assert forall x :: x in s <==> x in t || x == y;
      if !MinOf(s).NaN? {
        if MinOf(s) == y.val {
          assert y in s;
        } else {
          var x :| x in t && x.val == MinOf(t);
          assert x in s;
        }
      }
    }
  }

  /** The numbers among the samples added up, from the front. */
  function RealSum(s: seq<Sample>): real {
    if s == [] then 0.0 else (if s[0].val.Num? then s[0].val.r else 0.0) + RealSum(s[1..])
  }

  lemma {:induction false} RealSumConcat(a: seq<Sample>, b: seq<Sample>)
    ensures RealSum(a + b) == RealSum(a) + RealSum(b)
  {
    if a == [] {
      assert a + b == b;
    } else {
      assert (a + b)[1..] == a[1..] + b;
      RealSumConcat(a[1..], b);
    }
  }

  lemma RealSumAt(s: seq<Sample>, k: nat)
    requires k < |s|
    ensures RealSum(s) == RealSum(s[..k] + s[k + 1..]) + RealSum([s[k]])
  {
    hide RealSum;
    var l, x, t := s[..k], s[k], s[k + 1..];
    assert s == (l + [x]) + t;
    RealSumConcat(l + [x], t);
    RealSumConcat(l, [x]);
    RealSumConcat(l, t);
  }

  lemma {:induction false} RealSumPermutation(a: seq<Sample>, b: seq<Sample>)
    requires multiset(a) == multiset(b)
    ensures RealSum(a) == RealSum(b)
    decreases |a|
  {
    hide RealSum;
    assert |multiset(a)| == |a| && |multiset(b)| == |b|;
    if a == [] {
      assert b == [];
    } else {
      var x := a[0];
      assert x in multiset(b);
      var k :| 0 <= k < |b| && b[k] == x;
      MultisetAt(a, 0);
      MultisetAt(b, k);
      RealSumPermutation(a[..0] + a[1..], b[..k] + b[k + 1..]);
      RealSumAt(a, 0);
      RealSumAt(b, k);
    }
  }

  /** NaN exactly when some value is, and otherwise the numbers added up. */
  ghost predicate IsSum(v: Value, s: seq<Sample>) {
    (v.NaN? <==> exists x :: x in s && x.val.NaN?) && (v.Num? ==> v.r == RealSum(s))
  }

  lemma {:induction false} SumOfMeaning(s: seq<Sample>)
    ensures IsSum(SumOf(s), s)
  {
    if s != [] {
      var t, y := s[..|s| - 1], s[|s| - 1];
      SumOfMeaning(t);
      assert s == t + [y];
      assert forall x :: x in s <==> x in t || x == y;
      RealSumConcat(t, [y]);
      assert [y][1..] == [];
      if x :| x in t && x.val.NaN? {
        assert x in s;
      }
    }
  }

  lemma {:induction false} MaxOfMeaning(s: seq<Sample>)
    ensures IsGreatest(MaxOf(s), s)
  {
    if s != [] {
      var t, y := s[..|s| - 1], s[|s| - 1];
      MaxOfMeaning(t);
      assert s == t + [y];
      assert forall x :: x in s <==> x in t || x == y;
      if !MaxOf(s).NaN? {
        if MaxOf(s) == y.val {
          assert y in s;
        } else {
          var x :| x in t && x.val == MaxOf(t);
          assert x in s;
        }
      }
    }
  }
}
