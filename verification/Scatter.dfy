/** Batches of points scattered into runs, one per series, by a counting sort in
    place; and the runs appended to the buffers as the points would have been,
    one by one. */
module Scatter {
  import opened Sequences
  import opened Samples
  import opened Transactions

  // ----------------------------------------------------------- points by series

  /** The samples of a series, in the order they came. */
  function Of(points: seq<Write>, s: int): seq<Sample> {
    if points == [] then []
    else
      var w := points[|points| - 1];
      Of(points[..|points| - 1], s) + (if w.series == s then [w.sample] else [])
  }

  lemma OfMore(points: seq<Write>, i: nat, s: int)
    requires i < |points|
    ensures Of(points[..i + 1], s) == Of(points[..i], s) + (if points[i].series == s then [points[i].sample] else [])
  {
    assert points[..i + 1][..i] == points[..i];
  }

  lemma {:induction false} OfPrefix(points: seq<Write>, i: nat, s: int)
    requires i <= |points|
    ensures Of(points[..i], s) <= Of(points, s)
    decreases |points|
  {
    if i < |points| {
      var t := points[..|points| - 1];
      assert t[..i] == points[..i];
      OfPrefix(t, i, s);
    } else {
      assert points[..i] == points;
    }
  }

  lemma OfRoom(points: seq<Write>, i: nat)
    requires i < |points|
    ensures |Of(points[..i], points[i].series)| < |Of(points, points[i].series)|
    ensures Of(points, points[i].series)[|Of(points[..i], points[i].series)|] == points[i].sample
  {
    var s := points[i].series;
    OfMore(points, i, s);
    OfPrefix(points, i + 1, s);
  }

  /** The series named, in the order they first appear. */
  function FirstSeen(points: seq<Write>): seq<int> {
    if points == [] then []
    else
      var before, s := FirstSeen(points[..|points| - 1]), points[|points| - 1].series;
      if s in before then before else before + [s]
  }

  lemma {:induction false} FirstSeenShape(points: seq<Write>)
    ensures Distinct(FirstSeen(points))
    ensures forall i | 0 <= i < |points| :: points[i].series in FirstSeen(points)
    ensures forall s | s in FirstSeen(points) :: exists i :: 0 <= i < |points| && points[i].series == s
  {
    if points != [] {
      var t := points[..|points| - 1];
      FirstSeenShape(t);
      forall s | s in FirstSeen(points) ensures exists i :: 0 <= i < |points| && points[i].series == s {
        if s in FirstSeen(t) {
          var i :| 0 <= i < |t| && t[i].series == s;
          assert points[i].series == s;
        } else {
          assert points[|points| - 1].series == s;
        }
      }
      forall i | 0 <= i < |points| ensures points[i].series in FirstSeen(points) {
        assert i < |t| ==> t[i].series in FirstSeen(t);
      }
    }
  }

  lemma {:induction false} FirstSeenPrefix(points: seq<Write>, i: nat)
    requires i <= |points|
    ensures FirstSeen(points[..i]) <= FirstSeen(points)
    decreases |points|
  {
    if i < |points| {
      var t := points[..|points| - 1];
      assert t[..i] == points[..i];
      FirstSeenPrefix(t, i);
    } else {
      assert points[..i] == points;
    }
  }

  lemma {:induction false} NotSeen(points: seq<Write>, s: int)
    requires forall i | 0 <= i < |points| :: points[i].series != s
    ensures s !in FirstSeen(points)
  {
    if points != [] {
      NotSeen(points[..|points| - 1], s);
    }
  }

  /** Series renumbered densely. */
  ghost predicate Numbered(dense: map<int, nat>, uniq: seq<int>) {
    && (forall s :: s in dense <==> s in uniq)
    && (forall s | s in dense :: dense[s] < |uniq| && uniq[dense[s]] == s)
    && Distinct(uniq)
  }

  ghost predicate Covered(points: seq<Write>, dense: map<int, nat>) {
    forall i | 0 <= i < |points| :: points[i].series in dense
  }

  lemma NoneNumbered()
    ensures Numbered(map[], [])
  {
  }

  lemma NumberedMore(dense: map<int, nat>, uniq: seq<int>, s: int)
    requires Numbered(dense, uniq)
    ensures s in dense <==> s in uniq
    ensures s !in dense ==> Numbered(dense[s := |uniq|], uniq + [s])
  {
  }

  method Intern(points: seq<Write>) returns (dense: map<int, nat>, uniq: seq<int>)
    ensures uniq == FirstSeen(points) && Numbered(dense, uniq) && Covered(points, dense)
  {
    hide Numbered;
    dense, uniq := map[], [];
    NoneNumbered();
    for i := 0 to |points|
      invariant uniq == FirstSeen(points[..i]) && Numbered(dense, uniq)
    {
      var s := points[i].series;
      assert points[..i + 1][..i] == points[..i];
      NumberedMore(dense, uniq, s);
      if s !in dense {
        dense, uniq := dense[s := |uniq|], uniq + [s];
      }
    }
    assert points[..|points|] == points;
    FirstSeenShape(points);
    forall i | 0 <= i < |points| ensures points[i].series in dense {
      NumberedMore(dense, uniq, points[i].series);
    }
  }

  // ------------------------------------------------------------- counting sort

  /** Where the run of the `d`th series starts. */
  ghost function Start(points: seq<Write>, uniq: seq<int>, d: nat): nat
    requires d <= |uniq|
  {
    if d == 0 then 0 else Start(points, uniq, d - 1) + |Of(points, uniq[d - 1])|
  }

  lemma {:induction false} StartRises(points: seq<Write>, uniq: seq<int>, d: nat, e: nat)
    requires d < e <= |uniq|
    ensures Start(points, uniq, d) + |Of(points, uniq[d])| <= Start(points, uniq, e)
    decreases e
  {
    if d < e - 1 {
      StartRises(points, uniq, d, e - 1);
    }
  }

  lemma {:induction false} StartMore(points: seq<Write>, w: Write, uniq: seq<int>, d: nat)
    requires d <= |uniq| && Distinct(uniq)
    ensures Start(points + [w], uniq, d) == Start(points, uniq, d) + (if w.series in uniq[..d] then 1 else 0)
  {
    if d > 0 {
      StartMore(points, w, uniq, d - 1);
      assert uniq[..d] == uniq[..d - 1] + [uniq[d - 1]];
      assert (points + [w])[..|points|] == points;
    }
  }

  lemma {:induction false} StartNone(uniq: seq<int>, d: nat)
    requires d <= |uniq|
    ensures Start([], uniq, d) == 0
  {
    if d > 0 {
      StartNone(uniq, d - 1);
    }
  }

  /** The runs hold every point. */
  lemma {:induction false} StartTotal(points: seq<Write>, uniq: seq<int>)
    requires Distinct(uniq) && forall i | 0 <= i < |points| :: points[i].series in uniq
    ensures Start(points, uniq, |uniq|) == |points|
  {
    if points == [] {
      StartNone(uniq, |uniq|);
    } else {
      var t, w := points[..|points| - 1], points[|points| - 1];
      assert points == t + [w];
      forall i | 0 <= i < |t| ensures t[i].series in uniq {
        assert t[i] == points[i];
      }
      StartTotal(t, uniq);
      StartMore(t, w, uniq, |uniq|);
      assert uniq[..|uniq|] == uniq;
    }
  }

  /** The slot of the `i`th point: after the earlier ones of its series. */
  ghost function Slot(points: seq<Write>, dense: map<int, nat>, uniq: seq<int>, i: nat): nat
    requires Numbered(dense, uniq) && Covered(points, dense) && i < |points|
  {
    Start(points, uniq, dense[points[i].series]) + |Of(points[..i], points[i].series)|
  }

  lemma SlotInRun(points: seq<Write>, dense: map<int, nat>, uniq: seq<int>, i: nat)
    requires Numbered(dense, uniq) && Covered(points, dense) && i < |points|
    ensures var d := dense[points[i].series];
            Start(points, uniq, d) <= Slot(points, dense, uniq, i) < Start(points, uniq, d + 1)
  {
    hide Of;
    OfRoom(points, i);
  }

  lemma RunsApart(points: seq<Write>, uniq: seq<int>, d: nat, e: nat)
    requires d < e <= |uniq|
    ensures Start(points, uniq, d + 1) <= Start(points, uniq, e)
  {
    if d + 1 < e {
      StartRises(points, uniq, d + 1, e);
    }
  }

  /** No two points share a slot. */
  lemma SlotsApart(points: seq<Write>, dense: map<int, nat>, uniq: seq<int>, i: nat, j: nat)
    requires Numbered(dense, uniq) && Covered(points, dense) && i < j < |points|
    ensures Slot(points, dense, uniq, i) != Slot(points, dense, uniq, j)
  {
    hide Of, Start;
    var d, e := dense[points[i].series], dense[points[j].series];
    SlotInRun(points, dense, uniq, i);
    SlotInRun(points, dense, uniq, j);
    if d < e {
      RunsApart(points, uniq, d, e);
    } else if e < d {
      RunsApart(points, uniq, e, d);
    } else {
      var s := points[i].series;
      assert points[j].series == s;
      OfMore(points, i, s);
      OfPrefix(points[..j], i + 1, s);
      assert points[..j][..i + 1] == points[..i + 1];
    }
  }

  lemma {:induction false} RunHolds(points: seq<Write>, s: int, k: nat) returns (i: nat)
    requires k < |Of(points, s)|
    ensures i < |points| && points[i].series == s && |Of(points[..i], s)| == k
  {
    var t := points[..|points| - 1];
    if k < |Of(t, s)| {
      i := RunHolds(t, s, k);
      assert t[..i] == points[..i];
    } else {
      i := |points| - 1;
    }
  }

  lemma {:induction false} RunOf(points: seq<Write>, uniq: seq<int>, n: nat, k: nat) returns (d: nat)
    requires n <= |uniq| && k < Start(points, uniq, n)
    ensures d < n && Start(points, uniq, d) <= k < Start(points, uniq, d + 1)
    decreases n
  {
    if k < Start(points, uniq, n - 1) {
      d := RunOf(points, uniq, n - 1, k);
    } else {
      d := n - 1;
    }
  }

  /** Every slot is filled, and by one point only. */
  lemma EachSlotOnce(points: seq<Write>, dense: map<int, nat>, uniq: seq<int>, k: nat) returns (i: nat)
    requires Numbered(dense, uniq) && Covered(points, dense) && k < |points|
    ensures i < |points| && Slot(points, dense, uniq, i) == k
    ensures forall j | 0 <= j < |points| && j != i :: Slot(points, dense, uniq, j) != k
  {
    hide Of, Start;
    StartTotal(points, uniq);
    var d := RunOf(points, uniq, |uniq|, k);
    NextStart(points, uniq, d);
    i := RunHolds(points, uniq[d], k - Start(points, uniq, d));
    NumberedBack(dense, uniq, d);
    forall j | 0 <= j < |points| && j != i ensures Slot(points, dense, uniq, j) != k {
      if i < j {
        SlotsApart(points, dense, uniq, i, j);
      } else {
        SlotsApart(points, dense, uniq, j, i);
      }
    }
  }

  lemma NoStart(points: seq<Write>, uniq: seq<int>)
    ensures Start(points, uniq, 0) == 0
  {
  }

  lemma NextStart(points: seq<Write>, uniq: seq<int>, d: nat)
    requires d < |uniq|
    ensures Start(points, uniq, d + 1) == Start(points, uniq, d) + |Of(points, uniq[d])|
  {
  }

  lemma NumberedBack(dense: map<int, nat>, uniq: seq<int>, d: nat)
    requires Numbered(dense, uniq) && d < |uniq|
    ensures uniq[d] in dense && dense[uniq[d]] == d
  {
    var s := uniq[d];
    assert s in uniq;
    assert s in dense;
  }

  method CountRuns(points: seq<Write>, dense: map<int, nat>, uniq: seq<int>) returns (counts: seq<nat>)
    requires Numbered(dense, uniq) && Covered(points, dense)
    ensures |counts| == |uniq| && forall d | 0 <= d < |uniq| :: counts[d] == |Of(points, uniq[d])|
  {
    hide Of;
    var tally := new nat[|uniq|](_ => 0);
    NoneOf(points[..0]);
    for i := 0 to |points|
      invariant forall d | 0 <= d < |uniq| :: tally[d] == |Of(points[..i], uniq[d])|
    {
      var d := dense[points[i].series];
      forall e | 0 <= e < |uniq| ensures |Of(points[..i + 1], uniq[e])| == tally[e] + (if e == d then 1 else 0) {
        OfMore(points, i, uniq[e]);
        NumberedBack(dense, uniq, e);
      }
      tally[d] := tally[d] + 1;
    }
    assert points[..|points|] == points;
    counts := tally[..];
  }

  lemma NoneOf(points: seq<Write>)
    requires points == []
    ensures forall s :: Of(points, s) == []
  {
  }

  method RunStarts(points: seq<Write>, uniq: seq<int>, counts: seq<nat>) returns (starts: seq<nat>)
    requires |counts| == |uniq| && forall d | 0 <= d < |uniq| :: counts[d] == |Of(points, uniq[d])|
    ensures |starts| == |uniq| + 1 && forall d | 0 <= d <= |uniq| :: starts[d] == Start(points, uniq, d)
  {
    hide Of, Start;
    NoStart(points, uniq);
    var acc := 0;
    starts := [0];
    for d := 0 to |counts|
      invariant |starts| == d + 1 && acc == Start(points, uniq, d)
      invariant forall e | 0 <= e <= d :: starts[e] == Start(points, uniq, e)
    {
      NextStart(points, uniq, d);
      acc := acc + counts[d];
      starts := starts + [acc];
    }
  }

  /** The first `i` points are in their slots. */
  ghost predicate Placed(flat: seq<Sample>, points: seq<Write>, dense: map<int, nat>, uniq: seq<int>, i: nat)
    requires Numbered(dense, uniq) && Covered(points, dense)
  {
    i <= |points| && forall j | 0 <= j < i ::
      Slot(points, dense, uniq, j) < |flat| && flat[Slot(points, dense, uniq, j)] == points[j].sample
  }

  lemma PlaceOne(flat: seq<Sample>, now: seq<Sample>, points: seq<Write>, dense: map<int, nat>, uniq: seq<int>, i: nat)
    requires Numbered(dense, uniq) && Covered(points, dense) && Placed(flat, points, dense, uniq, i) && i < |points|
    requires var k := Slot(points, dense, uniq, i); k < |flat| && now == flat[k := points[i].sample]
    ensures Placed(now, points, dense, uniq, i + 1)
  {
    hide Slot, Numbered, Covered;
    forall j | 0 <= j < i ensures Slot(points, dense, uniq, j) != Slot(points, dense, uniq, i) {
      SlotsApart(points, dense, uniq, j, i);
    }
  }

  /** Points in their slots make runs in order of arrival. */
  lemma PlacedRun(flat: seq<Sample>, points: seq<Write>, dense: map<int, nat>, uniq: seq<int>, d: nat)
    requires Numbered(dense, uniq) && Covered(points, dense) && Placed(flat, points, dense, uniq, |points|)
    requires d < |uniq| && |flat| == |points|
    ensures Start(points, uniq, d) <= Start(points, uniq, d + 1) <= |flat|
    ensures flat[Start(points, uniq, d)..Start(points, uniq, d + 1)] == Of(points, uniq[d])
  {
    hide Of, Start;
    var s, a := uniq[d], Start(points, uniq, d);
    NextStart(points, uniq, d);
    StartTotal(points, uniq);
    NumberedBack(dense, uniq, d);
    if d + 1 < |uniq| {
      RunsApart(points, uniq, d, |uniq|);
    }
    forall k | 0 <= k < |Of(points, s)| ensures flat[a + k] == Of(points, s)[k] {
      var i := RunHolds(points, s, k);
      OfRoom(points, i);
      assert Slot(points, dense, uniq, i) == a + k;
    }
  }

  /** Where every write cursor stands after `i` points. */
  ghost predicate Cursors(pos: seq<nat>, points: seq<Write>, uniq: seq<int>, i: nat) {
    && |pos| == |uniq| && i <= |points|
    && forall d | 0 <= d < |uniq| :: pos[d] == Start(points, uniq, d) + |Of(points[..i], uniq[d])|
  }

  lemma CursorsMore(pos: seq<nat>, points: seq<Write>, dense: map<int, nat>, uniq: seq<int>, i: nat)
    requires Numbered(dense, uniq) && Covered(points, dense) && i < |points| && Cursors(pos, points, uniq, i)
    ensures var d := dense[points[i].series];
            pos[d] == Slot(points, dense, uniq, i) < |points|
            && Cursors(pos[d := pos[d] + 1], points, uniq, i + 1)
  {
    hide Of, Start;
    var d := dense[points[i].series];
    SlotInRun(points, dense, uniq, i);
    StartTotal(points, uniq);
    if d + 1 < |uniq| {
      RunsApart(points, uniq, d, |uniq|);
    }
    forall e | 0 <= e < |uniq|
      ensures |Of(points[..i + 1], uniq[e])| == |Of(points[..i], uniq[e])| + (if e == d then 1 else 0)
    {
      OfMore(points, i, uniq[e]);
      NumberedBack(dense, uniq, e);
    }
  }

  /** What lies between the `d`th start and the next. */
  ghost predicate RunIs(flat: seq<Sample>, starts: seq<nat>, d: nat, run: seq<Sample>) {
    d + 1 < |starts| && starts[d] <= starts[d + 1] <= |flat| && flat[starts[d]..starts[d + 1]] == run
  }

  /** The counting sort: runs end to end, each series' samples in the order they
      came. */
  method ScatterPoints(points: seq<Write>, dense: map<int, nat>, uniq: seq<int>)
    returns (starts: seq<nat>, flat: seq<Sample>)
    requires Numbered(dense, uniq) && Covered(points, dense)
    ensures |starts| == |uniq| + 1 && |flat| == |points| && starts[0] == 0 && starts[|uniq|] == |points|
    ensures forall d | 0 <= d < |uniq| :: RunIs(flat, starts, d, Of(points, uniq[d]))
  {
    hide Of, Start, Slot, Numbered, Covered, Placed, Cursors;
    var counts := CountRuns(points, dense, uniq);
    starts := RunStarts(points, uniq, counts);
    StartsWhole(points, dense, uniq);
    var cells := new Sample[|points|](_ => Sample(0, Num(0.0)));
    var pos := new nat[|uniq|](d requires 0 <= d < |uniq| => starts[d]);
    NothingPlaced(cells[..], pos[..], points, dense, uniq);
    for i := 0 to |points|
      invariant Placed(cells[..], points, dense, uniq, i) && Cursors(pos[..], points, uniq, i)
    {
      CoveredAt(points, dense, uniq, i);
      var d := dense[points[i].series];
      CursorsMore(pos[..], points, dense, uniq, i);
      PlaceOne(cells[..], cells[..][pos[d] := points[i].sample], points, dense, uniq, i);
      var slot := pos[d];
      ghost var was, next := cells[..], pos[..];
      cells[slot] := points[i].sample;
      pos[d] := slot + 1;
      assert cells[..] == was[slot := points[i].sample];
      assert pos[..] == next[d := slot + 1];
    }
    flat := cells[..];
    forall d | 0 <= d < |uniq| ensures RunIs(flat, starts, d, Of(points, uniq[d])) {
      PlacedRun(flat, points, dense, uniq, d);
    }
  }

  lemma CoveredAt(points: seq<Write>, dense: map<int, nat>, uniq: seq<int>, i: nat)
    requires Numbered(dense, uniq) && Covered(points, dense) && i < |points|
    ensures points[i].series in dense && dense[points[i].series] < |uniq|
  {
  }

  lemma StartsWhole(points: seq<Write>, dense: map<int, nat>, uniq: seq<int>)
    requires Numbered(dense, uniq) && Covered(points, dense)
    ensures Start(points, uniq, 0) == 0 && Start(points, uniq, |uniq|) == |points|
  {
    hide Of;
    StartTotal(points, uniq);
  }

  lemma NothingPlaced(flat: seq<Sample>, pos: seq<nat>, points: seq<Write>, dense: map<int, nat>, uniq: seq<int>)
    requires Numbered(dense, uniq) && Covered(points, dense)
    requires |pos| == |uniq| && forall d | 0 <= d < |uniq| :: pos[d] == Start(points, uniq, d)
    ensures Placed(flat, points, dense, uniq, 0) && Cursors(pos, points, uniq, 0)
  {
    hide Start;
    NoneOf(points[..0]);
  }
}
