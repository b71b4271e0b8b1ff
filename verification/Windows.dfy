/** Grid and window kernels: one pass with two pointers over a pruned read,
    against a fresh read of every window. */
module Windows {
  import opened Sequences
  import opened Samples
  import opened ChunkTable
  import opened RollupKernel
  import opened RollupPass
  import opened ReadOrder

  const MAX_GRID_POINTS: int := 1_000_000

  datatype Point = Point(ts: int, val: Value)

  datatype Agg = Count | Sum | Avg | Min | Max

  datatype Reply = Rows(points: seq<Point>) | BadWindow | BadStep | TooManyPoints

  datatype GridLen = Len(n: nat) | StepNotPositive | OverCap

  // ------------------------------------------------------------------ the grid

  /** `grid_len`. */
  function GridLength(start: int, stop: int, step: int): GridLen {
    if step <= 0 then StepNotPositive
    else if stop < start then Len(0)
    else
      var count := (stop - start) / step + 1;
      if count > MAX_GRID_POINTS then OverCap else Len(count)
  }

  function Tick(start: int, step: int, i: nat): int {
    start + i * step
  }

  function GridCount(start: int, stop: int, step: int): nat
    requires step > 0 && start <= stop
  {
    (stop - start) / step + 1
  }

  function Grid(start: int, step: int, n: nat): seq<int> {
    if n == 0 then [] else Grid(start, step, n - 1) + [Tick(start, step, n - 1)]
  }

  lemma {:induction false} GridAt(start: int, step: int, n: nat)
    ensures |Grid(start, step, n)| == n
    ensures forall i | 0 <= i < n :: Grid(start, step, n)[i] == Tick(start, step, i)
  {
    if n > 0 {
      GridAt(start, step, n - 1);
    }
  }

  /** The grid is every step from the start that does not pass the stop. */
  lemma GridExact(start: int, stop: int, step: int, i: nat)
    requires step > 0 && start <= stop
    ensures i < GridCount(start, stop, step) <==> Tick(start, step, i) <= stop
  {
    var d := stop - start;
    var q := d / step;
    assert d == q * step + d % step;
    if i <= q {
      assert i * step <= q * step;
    } else {
      WidthApart(q, i, step);
    }
  }

  // ----------------------------------------------------------------- the folds

  function Fold(agg: Agg, win: seq<Sample>): Value
    requires win != []
  {
    match agg
    case Count => Num(|win| as real)
    case Sum => SumOf(win)
    case Avg => (match SumOf(win) case NaN => NaN case Num(r) => Num(r / |win| as real))
    case Min => MinOf(win)
    case Max => MaxOf(win)
  }

  method WindowValue(win: seq<Sample>, agg: Agg) returns (v: Value)
    requires win != []
    ensures v == Fold(agg, win)
  {
    if agg.Count? {
      return Num(|win| as real);
    }
    var sum, least, greatest := Num(0.0), win[0].val, win[0].val;
    assert win[..1] == [win[0]];
    FoldOne(win[0]);
    sum := Add(sum, win[0].val);
    for i := 1 to |win|
      invariant sum == SumOf(win[..i]) && least == MinOf(win[..i]) && greatest == MaxOf(win[..i])
    {
      assert win[..i + 1][..i] == win[..i];
      var x := win[i].val;
      sum := Add(sum, x);
      if least.NaN? || (x.Num? && least.r > x.r) {
        least := x;
      }
      if greatest.NaN? || (x.Num? && greatest.r < x.r) {
        greatest := x;
      }
    }
    assert win[..|win|] == win;
    match agg {
      case Sum => v := sum;
      case Avg => v := if sum.NaN? then NaN else Num(sum.r / |win| as real);
      case Min => v := least;
      case Max => v := greatest;
    }
  }

  // ------------------------------------------------------- the naive definition

  /** The samples of `(t - width, t]`, as a range read has them. */
  function Window(rows: seq<Row>, s: int, t: int, width: int): seq<Sample> {
    RangeQuery(rows, s, t - width + 1, t)
  }

  function FoldAt(rows: seq<Row>, s: int, t: int, width: int, agg: Agg): seq<Point> {
    var win := Window(rows, s, t, width);
    if win == [] then [] else [Point(t, Fold(agg, win))]
  }

  /** A row at `t` exactly when the window holds a sample, and then the fold of
      exactly those samples. */
  function FoldRows(rows: seq<Row>, s: int, grid: seq<int>, width: int, agg: Agg): seq<Point> {
    if grid == [] then []
    else FoldRows(rows, s, grid[..|grid| - 1], width, agg) + FoldAt(rows, s, grid[|grid| - 1], width, agg)
  }

  function LastAt(rows: seq<Row>, s: int, t: int, lookback: int): seq<Point> {
    var win := Window(rows, s, t, lookback);
    if win == [] then [] else [Point(t, win[|win| - 1].val)]
  }

  function LastRows(rows: seq<Row>, s: int, grid: seq<int>, lookback: int): seq<Point> {
    if grid == [] then []
    else LastRows(rows, s, grid[..|grid| - 1], lookback) + LastAt(rows, s, grid[|grid| - 1], lookback)
  }

  lemma {:induction false} NoMoreThanGrid(rows: seq<Row>, s: int, grid: seq<int>, width: int, agg: Agg)
    ensures |FoldRows(rows, s, grid, width, agg)| <= |grid|
    ensures |LastRows(rows, s, grid, width)| <= |grid|
  {
    hide Window, Fold;
    if grid != [] {
      NoMoreThanGrid(rows, s, grid[..|grid| - 1], width, agg);
    }
  }

  // ----------------------------------------------------------- sorted windows

  /** How many samples are at or before `t`. */
  ghost predicate CountedTo(samples: seq<Sample>, k: nat, t: int) {
    && k <= |samples|
    && (forall i | 0 <= i < k :: samples[i].ts <= t)
    && (forall i | k <= i < |samples| :: samples[i].ts > t)
  }

  lemma CountedParts(samples: seq<Sample>, k: nat, t: int)
    requires CountedTo(samples, k, t)
    ensures k <= |samples|
    ensures (forall x | x in samples[..k] :: x.ts <= t) && forall x | x in samples[k..] :: x.ts > t
  {
  }

  lemma CountedRise(samples: seq<Sample>, lo: nat, hi: nat, from: int, to: int)
    requires CountedTo(samples, lo, from) && CountedTo(samples, hi, to) && from <= to
    ensures lo <= hi <= |samples|
  {
    assert hi < |samples| ==> samples[hi].ts > to;
  }

  lemma MiddleOf(samples: seq<Sample>, lo: nat, hi: nat)
    requires lo <= hi <= |samples|
    ensures samples == (samples[..lo] + samples[lo..hi]) + samples[hi..]
    ensures forall x | x in samples[lo..hi] :: x in samples[lo..] && x in samples[..hi]
  {
    forall x | x in samples[lo..hi] ensures x in samples[lo..] && x in samples[..hi] {
      var i :| 0 <= i < hi - lo && samples[lo..hi][i] == x;
      assert samples[lo..][i] == x && samples[..hi][lo + i] == x;
    }
  }

  lemma SliceIsRange(samples: seq<Sample>, lo: nat, hi: nat, from: int, to: int)
    requires CountedTo(samples, lo, from) && CountedTo(samples, hi, to) && from <= to
    ensures lo <= hi && InRange(samples, from + 1, to) == samples[lo..hi]
  {
    hide Filter, CountedTo;
    CountedRise(samples, lo, hi, from, to);
    CountedParts(samples, lo, from);
    CountedParts(samples, hi, to);
    MiddleOf(samples, lo, hi);
    var p := (x: Sample) => from + 1 <= x.ts <= to;
    var a, b, c := samples[..lo], samples[lo..hi], samples[hi..];
    FilterConcat(a + b, c, p);
    FilterConcat(a, b, p);
    FilterNone(a, p);
    FilterNone(c, p);
    FilterAll(b, p);
    assert [] + b == b && b + [] == b;
  }

  /** `while k < n && samples[k].ts <= t`: the pointer moves on. */
  method Advance(samples: seq<Sample>, k: nat, t: int) returns (k': nat)
    requires SortedTs(samples) && k <= |samples| && forall i | 0 <= i < k :: samples[i].ts <= t
    ensures k <= k' && CountedTo(samples, k', t)
  {
    k' := k;
    while k' < |samples| && samples[k'].ts <= t
      invariant k <= k' <= |samples| && forall i | 0 <= i < k' :: samples[i].ts <= t
    {
      k' := k' + 1;
    }
    if k' < |samples| {
      forall i | k' <= i < |samples| ensures samples[i].ts > t {
        assert i == k' || samples[k'].ts <= samples[i].ts;
      }
    }
  }

  lemma StillCounted(samples: seq<Sample>, k: nat, t: int, u: int)
    requires CountedTo(samples, k, t) && t <= u
    ensures k <= |samples| && forall i | 0 <= i < k :: samples[i].ts <= u
  {
  }

  // ------------------------------------------------------------------ the walks

  /** What a read from `lo` to `stop` serves: every window of the grid. */
  ghost predicate Reads(rows: seq<Row>, s: int, samples: seq<Sample>, start: int, stop: int, width: int) {
    SortedTs(samples) &&
    forall t | start <= t <= stop :: InRange(samples, t - width + 1, t) == Window(rows, s, t, width)
  }

  lemma ReadsAt(rows: seq<Row>, s: int, samples: seq<Sample>, start: int, stop: int, width: int, t: int)
    requires Reads(rows, s, samples, start, stop, width) && start <= t <= stop
    ensures InRange(samples, t - width + 1, t) == Window(rows, s, t, width)
  {
  }

  lemma ReadsSorted(rows: seq<Row>, s: int, samples: seq<Sample>, start: int, stop: int, width: int)
    requires Reads(rows, s, samples, start, stop, width)
    ensures SortedTs(samples)
  {
  }

  method WindowWalk(ghost rows: seq<Row>, ghost s: int, samples: seq<Sample>,
                    start: int, stop: int, step: int, width: int, agg: Agg)
    returns (points: seq<Point>)
    requires step > 0 && start <= stop && width > 0 && Reads(rows, s, samples, start, stop, width)
    ensures points == FoldRows(rows, s, Grid(start, step, GridCount(start, stop, step)), width, agg)
  {
    hide *;
    NextTick(start, step, 0);
    points := [];
    var lo, hi, t := 0, 0, start;
    ghost var i := 0;
    NoRowsYet(rows, s, start, step, width, agg);
    var more := true;
    while more
      invariant more ==> t == Tick(start, step, i) && start <= t <= stop
      invariant more ==> points == FoldRows(rows, s, Grid(start, step, i), width, agg)
      invariant more ==> lo <= |samples| && forall j | 0 <= j < lo :: samples[j].ts <= t - width
      invariant more ==> hi <= |samples| && forall j | 0 <= j < hi :: samples[j].ts <= t
      invariant !more ==> points == FoldRows(rows, s, Grid(start, step, GridCount(start, stop, step)), width, agg)
      decreases more, stop - t
    {
      ReadsSorted(rows, s, samples, start, stop, width);
      hi := Advance(samples, hi, t);
      lo := Advance(samples, lo, t - width);
      SliceIsRange(samples, lo, hi, t - width, t);
      ReadsAt(rows, s, samples, start, stop, width, t);
      OneMoreRow(rows, s, start, step, i, width, agg);
      if lo < hi {
        var v := WindowValue(samples[lo..hi], agg);
        points := points + [Point(t, v)];
      } else {
        assert points + [] == points;
      }
      NextTick(start, step, i);
      GridExact(start, stop, step, i);
      i := i + 1;
      GridExact(start, stop, step, i);
      if t + step <= stop {
        StillCounted(samples, lo, t - width, t + step - width);
        StillCounted(samples, hi, t, t + step);
        t := t + step;
      } else {
        more := false;
      }
    }
  }

  lemma NextTick(start: int, step: int, i: nat)
    ensures Tick(start, step, i + 1) == Tick(start, step, i) + step && Tick(start, step, 0) == start
  {
    assert (i + 1) * step == i * step + step;
  }

  lemma NoRowsYet(rows: seq<Row>, s: int, start: int, step: int, width: int, agg: Agg)
    ensures FoldRows(rows, s, Grid(start, step, 0), width, agg) == []
    ensures LastRows(rows, s, Grid(start, step, 0), width) == []
  {
  }

  lemma OneMoreRow(rows: seq<Row>, s: int, start: int, step: int, i: nat, width: int, agg: Agg)
    ensures var t := Tick(start, step, i);
            && FoldRows(rows, s, Grid(start, step, i + 1), width, agg) ==
               FoldRows(rows, s, Grid(start, step, i), width, agg) +
               (var win := Window(rows, s, t, width); if win == [] then [] else [Point(t, Fold(agg, win))])
            && LastRows(rows, s, Grid(start, step, i + 1), width) ==
               LastRows(rows, s, Grid(start, step, i), width) +
               (var win := Window(rows, s, t, width); if win == [] then [] else [Point(t, win[|win| - 1].val)])
  {
    hide Window, Fold, Tick;
    var g := Grid(start, step, i);
    var t := Tick(start, step, i);
    assert Grid(start, step, i + 1) == g + [t];
    assert (g + [t])[..|g|] == g;
  }

  /** `grid_last_walk`: the newest sample at or before each grid point, if it is
      within the lookback. */
  method GridLastWalk(ghost rows: seq<Row>, ghost s: int, samples: seq<Sample>,
                      start: int, stop: int, step: int, lookback: int)
    returns (points: seq<Point>)
    requires step > 0 && start <= stop && lookback >= 0 && Reads(rows, s, samples, start, stop, lookback)
    ensures points == LastRows(rows, s, Grid(start, step, GridCount(start, stop, step)), lookback)
  {
    hide *;
    NextTick(start, step, 0);
    points := [];
    var k, t := 0, start;
    ghost var i := 0;
    NoRowsYet(rows, s, start, step, lookback, Count);
    var more := true;
    while more
      invariant more ==> t == Tick(start, step, i) && start <= t <= stop
      invariant more ==> points == LastRows(rows, s, Grid(start, step, i), lookback)
      invariant more ==> k <= |samples| && forall j | 0 <= j < k :: samples[j].ts <= t
      invariant !more ==> points == LastRows(rows, s, Grid(start, step, GridCount(start, stop, step)), lookback)
      decreases more, stop - t
    {
      ReadsSorted(rows, s, samples, start, stop, lookback);
      k := Advance(samples, k, t);
      LastOfRange(samples, k, t, lookback);
      ReadsAt(rows, s, samples, start, stop, lookback, t);
      OneMoreRow(rows, s, start, step, i, lookback, Count);
      if k > 0 && samples[k - 1].ts > t - lookback {
        points := points + [Point(t, samples[k - 1].val)];
      } else {
        assert points + [] == points;
      }
      NextTick(start, step, i);
      GridExact(start, stop, step, i);
      i := i + 1;
      GridExact(start, stop, step, i);
      if t + step <= stop {
        StillCounted(samples, k, t, t + step);
        t := t + step;
      } else {
        more := false;
      }
    }
  }

  /** The window is empty exactly when the newest sample up to `t` is too old;
      otherwise that sample is its last. */
  lemma LastOfRange(samples: seq<Sample>, k: nat, t: int, lookback: int)
    requires SortedTs(samples) && CountedTo(samples, k, t) && lookback >= 0
    ensures var win := InRange(samples, t - lookback + 1, t);
            && (win != [] <==> k > 0 && samples[k - 1].ts > t - lookback)
            && (win != [] ==> win[|win| - 1] == samples[k - 1])
  {
    var lo := CountTo(samples, t - lookback);
    SliceIsRange(samples, lo, k, t - lookback, t);
    assert lo < k ==> samples[k - 1].ts > t - lookback;
    assert lo == k && k > 0 ==> samples[k - 1].ts <= t - lookback;
  }

  ghost function CountTo(samples: seq<Sample>, t: int): (k: nat)
    requires SortedTs(samples)
    ensures CountedTo(samples, k, t)
    decreases |samples|
  {
    if samples == [] then 0
    else if samples[|samples| - 1].ts <= t then
      assert forall i | 0 <= i < |samples| - 1 :: samples[i].ts <= samples[|samples| - 1].ts;
      |samples|
    else
      var init := samples[..|samples| - 1];
      var k := CountTo(init, t);
      assert forall i | 0 <= i < |init| :: init[i] == samples[i];
      k
  }

  // ----------------------------------------------------------------- the queries

  /** `i64::saturating_sub`. */
  function SaturatingSub(a: int, b: int): int {
    if a - b < I64_MIN then I64_MIN else a - b
  }

  lemma ReadFromLeast(rows: seq<Row>, s: int, a: int, b: int)
    requires (forall r | r in rows :: WellFormed(r)) && Timely(rows) && a < I64_MIN
    ensures RangeQuery(rows, s, a, b) == RangeQuery(rows, s, I64_MIN, b)
  {
    hide RangeQuery, WellFormed, Timely, Contents;
    NarrowerRead(rows, s, a, b, I64_MIN, b);
    var q := RangeQuery(rows, s, a, b);
    forall x | x in q ensures I64_MIN <= x.ts <= b {
      ReadMember(rows, s, a, b, x);
      ContentsTimely(rows, s, x);
    }
    FilterAll(q, (x: Sample) => I64_MIN <= x.ts <= b);
  }

  /** One pruned read serves every window of the grid. */
  lemma ReadServes(rows: seq<Row>, s: int, start: int, stop: int, width: int)
    requires (forall r | r in rows :: WellFormed(r)) && Timely(rows) && width >= 0 && I64_MIN <= start
    ensures Reads(rows, s, RangeQuery(rows, s, SaturatingSub(start, width), stop), start, stop, width)
  {
    hide RangeQuery, WellFormed, Timely, SortedTs, InRange;
    var from := SaturatingSub(start, width);
    RangeQueryExact(rows, s, from, stop);
    var q := RangeQuery(rows, s, from, stop);
    forall t | start <= t <= stop ensures InRange(q, t - width + 1, t) == Window(rows, s, t, width) {
      var a := t - width + 1;
      if from <= a {
        NarrowerRead(rows, s, from, stop, a, t);
      } else {
        NarrowerRead(rows, s, from, stop, I64_MIN, t);
        ReadFromLeast(rows, s, a, t);
        forall x | x in q ensures I64_MIN <= x.ts {
          ReadMember(rows, s, from, stop, x);
        }
        SameFromLeast(q, a, t);
      }
    }
  }

  lemma SameFromLeast(q: seq<Sample>, a: int, t: int)
    requires a < I64_MIN && forall x | x in q :: I64_MIN <= x.ts
    ensures InRange(q, a, t) == InRange(q, I64_MIN, t)
  {
    FilterAgree(q, (x: Sample) => a <= x.ts <= t, (x: Sample) => I64_MIN <= x.ts <= t);
  }

  /** `query_window_agg_by_id`. */
  method QueryWindowAgg(rows: seq<Row>, s: int, start: int, stop: int, step: int, width: int, agg: Agg)
    returns (reply: Reply)
    requires (forall r | r in rows :: WellFormed(r)) && Timely(rows)
    requires I64_MIN <= start <= I64_MAX && I64_MIN <= stop <= I64_MAX
    ensures reply.BadWindow? <==> width <= 0
    ensures reply.BadStep? <==> width > 0 && step <= 0
    ensures reply.TooManyPoints? <==> width > 0 && step > 0 && start <= stop && (stop - start) / step + 1 > 1_000_000
    ensures reply.Rows? ==>
              var n := if stop < start then 0 else (stop - start) / step + 1;
              reply.points == FoldRows(rows, s, Grid(start, step, n), width, agg) && |reply.points| <= n <= 1_000_000
  {
    hide FoldRows, Reads, RangeQuery, WellFormed, Timely;
    if width <= 0 {
      return BadWindow;
    }
    var len := GridLength(start, stop, step);
    match len {
      case StepNotPositive => return BadStep;
      case OverCap => return TooManyPoints;
      case Len(n) =>
        NoMoreThanGrid(rows, s, Grid(start, step, n), width, agg);
        GridAt(start, step, n);
        if n == 0 {
          NoRowsYet(rows, s, start, step, width, agg);
          return Rows([]);
        }
        ReadServes(rows, s, start, stop, width);
        var samples := RangeQuery(rows, s, SaturatingSub(start, width), stop);
        var points := WindowWalk(rows, s, samples, start, stop, step, width, agg);
        reply := Rows(points);
    }
  }

  /** `query_grid_last_by_id`. */
  method QueryGridLast(rows: seq<Row>, s: int, start: int, stop: int, step: int, lookback: int)
    returns (reply: Reply)
    requires (forall r | r in rows :: WellFormed(r)) && Timely(rows)
    requires I64_MIN <= start <= I64_MAX && I64_MIN <= stop <= I64_MAX
    ensures reply.BadWindow? <==> lookback < 0
    ensures reply.BadStep? <==> lookback >= 0 && step <= 0
    ensures reply.TooManyPoints? <==> lookback >= 0 && step > 0 && start <= stop && (stop - start) / step + 1 > 1_000_000
    ensures reply.Rows? ==>
              var n := if stop < start then 0 else (stop - start) / step + 1;
              reply.points == LastRows(rows, s, Grid(start, step, n), lookback) && |reply.points| <= n <= 1_000_000
  {
    hide LastRows, Reads, RangeQuery, WellFormed, Timely;
    if lookback < 0 {
      return BadWindow;
    }
    var len := GridLength(start, stop, step);
    match len {
      case StepNotPositive => return BadStep;
      case OverCap => return TooManyPoints;
      case Len(n) =>
        NoMoreThanGrid(rows, s, Grid(start, step, n), lookback, Count);
        GridAt(start, step, n);
        if n == 0 {
          NoRowsYet(rows, s, start, step, lookback, Count);
          return Rows([]);
        }
        ReadServes(rows, s, start, stop, lookback);
        var samples := RangeQuery(rows, s, SaturatingSub(start, lookback), stop);
        var points := GridLastWalk(rows, s, samples, start, stop, step, lookback);
        reply := Rows(points);
    }
  }

  /** A row at `t` says that the window holds a sample, and the other way
      round. */
  lemma {:induction false} RowIffSample(rows: seq<Row>, s: int, grid: seq<int>, width: int, agg: Agg, t: int)
    requires forall r | r in rows :: WellFormed(r)
    ensures (exists p :: p in FoldRows(rows, s, grid, width, agg) && p.ts == t) <==>
            t in grid && exists x :: x in Contents(rows, s) && t - width < x.ts <= t
  {
    hide Window, Fold, WellFormed, Contents;
    if grid != [] {
      var init, last := grid[..|grid| - 1], grid[|grid| - 1];
      assert grid == init + [last];
      RowIffSample(rows, s, init, width, agg, t);
      WindowHolds(rows, s, last, width);
      var all, more := FoldRows(rows, s, init, width, agg), FoldAt(rows, s, last, width, agg);
      assert forall p :: p in all + more <==> p in all || p in more;
      if t == last && Window(rows, s, last, width) != [] {
        assert Point(last, Fold(agg, Window(rows, s, last, width))) in more;
      }
    }
  }

  /** What is answered of a window: its number of samples, their sum, what times
      their number is their sum, their least or their greatest. */
  ghost predicate Answers(agg: Agg, v: Value, win: seq<Sample>) {
    match agg
    case Count => v == Num(|win| as real)
    case Sum => IsSum(v, win)
    case Avg => (v.NaN? <==> exists x :: x in win && x.val.NaN?) && (v.Num? ==> v.r * |win| as real == RealSum(win))
    case Min => IsLeast(v, win)
    case Max => IsGreatest(v, win)
  }

  lemma FoldAnswers(agg: Agg, win: seq<Sample>)
    requires win != []
    ensures Answers(agg, Fold(agg, win), win)
  {
    hide SumOf, MinOf, MaxOf, RealSum;
    SumOfMeaning(win);
    MinOfMeaning(win);
    MaxOfMeaning(win);
  }

  lemma AnswersSame(agg: Agg, v: Value, a: seq<Sample>, b: seq<Sample>)
    requires Answers(agg, v, a) && multiset(a) == multiset(b) && |a| == |b| && forall x :: x in a <==> x in b
    ensures Answers(agg, v, b)
  {
    hide RealSum;
    RealSumPermutation(a, b);
  }

  /** Every row of a window query answers for the samples stored in its window,
      in whatever order they are listed. */
  lemma {:induction false} RowAnswers(rows: seq<Row>, s: int, grid: seq<int>, width: int, agg: Agg, p: Point,
                                      win: seq<Sample>)
    requires (forall r | r in rows :: WellFormed(r)) && p in FoldRows(rows, s, grid, width, agg)
    requires Lists(win, rows, s, p.ts - width + 1, p.ts)
    ensures Answers(agg, p.val, win)
  {
    hide RangeQuery, Fold, WellFormed, Contents, Lists, Answers;
    var init, last := grid[..|grid| - 1], grid[|grid| - 1];
    var all, more := FoldRows(rows, s, init, width, agg), FoldAt(rows, s, last, width, agg);
    assert p in all + more;
    if p in all {
      RowAnswers(rows, s, init, width, agg, p, win);
    } else {
      var read := Window(rows, s, last, width);
      FoldAnswers(agg, read);
      ReadLists(rows, s, last - width + 1, last);
      SameListed(read, win, rows, s, last - width + 1, last);
      AnswersSame(agg, p.val, read, win);
    }
  }

  ghost predicate Rise(points: seq<Point>) {
    forall i, j | 0 <= i < j < |points| :: points[i].ts < points[j].ts
  }

  /** The rows come in grid order, at most one a grid point. */
  lemma {:induction false} RowsRise(rows: seq<Row>, s: int, start: int, step: int, n: nat, width: int, agg: Agg)
    requires step > 0
    ensures Rise(FoldRows(rows, s, Grid(start, step, n), width, agg)) && Rise(LastRows(rows, s, Grid(start, step, n), width))
    ensures forall p | p in FoldRows(rows, s, Grid(start, step, n), width, agg) ||
                       p in LastRows(rows, s, Grid(start, step, n), width) :: p.ts < start + n * step
  {
    hide Window, Fold, FoldRows, LastRows, Grid;
    if n == 0 {
      NoRowsYet(rows, s, start, step, width, agg);
    } else {
      RowsRise(rows, s, start, step, n - 1, width, agg);
      OneMoreRow(rows, s, start, step, n - 1, width, agg);
      NextTick(start, step, n - 1);
      assert Tick(start, step, n) == start + n * step;
      var t := Tick(start, step, n - 1);
      RiseMore(FoldRows(rows, s, Grid(start, step, n - 1), width, agg), t);
      RiseMore(LastRows(rows, s, Grid(start, step, n - 1), width), t);
    }
  }

  lemma RiseMore(points: seq<Point>, t: int)
    requires Rise(points) && forall p | p in points :: p.ts < t
    ensures forall v :: Rise(points + [Point(t, v)])
    ensures Rise(points + [])
  {
    assert points + [] == points;
  }

  /** The newest of the samples within the lookback. */
  ghost predicate NewestWithin(rows: seq<Row>, s: int, t: int, lookback: int, x: Sample) {
    && x in Contents(rows, s) && t - lookback < x.ts <= t
    && forall y | y in Contents(rows, s) && t - lookback < y.ts <= t :: y.ts <= x.ts
  }

  /** The same of grid-last, whose row holds the value of a newest sample within
      the lookback. */
  lemma {:induction false} LastRowIffSample(rows: seq<Row>, s: int, grid: seq<int>, lookback: int, t: int)
    requires forall r | r in rows :: WellFormed(r)
    ensures (exists p :: p in LastRows(rows, s, grid, lookback) && p.ts == t) <==>
            t in grid && exists x :: x in Contents(rows, s) && t - lookback < x.ts <= t
    ensures forall p | p in LastRows(rows, s, grid, lookback) && p.ts == t ::
              exists x :: NewestWithin(rows, s, t, lookback, x) && p.val == x.val
  {
    hide Window, WellFormed, Contents, NewestWithin;
    if grid != [] {
      var init, last := grid[..|grid| - 1], grid[|grid| - 1];
      assert grid == init + [last];
      LastRowIffSample(rows, s, init, lookback, t);
      WindowHolds(rows, s, last, lookback);
      var all, more := LastRows(rows, s, init, lookback), LastAt(rows, s, last, lookback);
      assert forall p :: p in all + more <==> p in all || p in more;
      var win := Window(rows, s, last, lookback);
      if t == last && win != [] {
        assert Point(last, win[|win| - 1].val) in more;
        WindowNewest(rows, s, last, lookback);
      }
    }
  }

  lemma WindowNewest(rows: seq<Row>, s: int, t: int, lookback: int)
    requires (forall r | r in rows :: WellFormed(r)) && Window(rows, s, t, lookback) != []
    ensures var win := Window(rows, s, t, lookback); NewestWithin(rows, s, t, lookback, win[|win| - 1])
  {
    hide RangeQuery, WellFormed, Contents;
    var win := Window(rows, s, t, lookback);
    var x := win[|win| - 1];
    RangeQueryExact(rows, s, t - lookback + 1, t);
    ReadMember(rows, s, t - lookback + 1, t, x);
    forall y | y in Contents(rows, s) && t - lookback < y.ts <= t ensures y.ts <= x.ts {
      ReadMember(rows, s, t - lookback + 1, t, y);
      var i :| 0 <= i < |win| && win[i] == y;
      assert i == |win| - 1 || win[i].ts <= win[|win| - 1].ts;
    }
  }

  lemma WindowHolds(rows: seq<Row>, s: int, t: int, width: int)
    requires forall r | r in rows :: WellFormed(r)
    ensures Window(rows, s, t, width) != [] <==> exists x :: x in Contents(rows, s) && t - width < x.ts <= t
  {
    hide RangeQuery, WellFormed, Contents;
    var win := Window(rows, s, t, width);
    if win != [] {
      ReadMember(rows, s, t - width + 1, t, win[0]);
    }
    if x :| x in Contents(rows, s) && t - width < x.ts <= t {
      ReadMember(rows, s, t - width + 1, t, x);
    }
  }
}
