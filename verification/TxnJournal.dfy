/** The transaction journal: undo frames that hold the ladder as it was before
    the first change and whether a series came or went, against a stack of full
    copies. */
module TxnJournal {
  import opened Sequences

  /** What identifies a series; its 128-bit key is taken as injective. */
  type Ident = string

  datatype Frame = Frame(savepoint: Option<int>, seriesChanged: bool, tiersBefore: Option<seq<int>>)

  /** The engine's side with the host's: the catalog rows, and the copies of
      them the host keeps for its own savepoints. */
  datatype Live = Live(
    frames: seq<Frame>, tiers: seq<int>, cache: map<Ident, int>,
    catalog: map<Ident, int>, host: seq<map<Ident, int>>)

  /** The simple form: everything copied at every savepoint. */
  datatype Copy = Copy(savepoint: Option<int>, tiers: seq<int>, catalog: map<Ident, int>)

  datatype Full = Full(tiers: seq<int>, catalog: map<Ident, int>, copies: seq<Copy>)

  datatype Op =
    | Begin
    | Savepoint(id: int)
    | Release(id: int)
    | RollbackTo(id: int)
    | Rollback
    | Commit
    | SetLadder(tiers: seq<int>)
    | Resolve(key: Ident, next: int, room: bool)
    | Remove(keys: set<Ident>)
    | Refresh(catalog: map<Ident, int>)

  function NewFrame(savepoint: Option<int>): Frame {
    Frame(savepoint, false, None)
  }

  /** Where the frame of savepoint `id` is, the first if there are several. */
  function Position(frames: seq<Frame>, id: int): (k: Option<nat>)
    ensures k.Some? ==> k.value < |frames| && frames[k.value].savepoint == Some(id)
    ensures k.Some? ==> forall i | 0 <= i < k.value :: frames[i].savepoint != Some(id)
    ensures k.None? ==> forall i | 0 <= i < |frames| :: frames[i].savepoint != Some(id)
    decreases |frames|
  {
    if frames == [] then None
    else
      var t := frames[..|frames| - 1];
      match Position(t, id)
      case Some(k) => Some(k)
      case None => if frames[|frames| - 1].savepoint == Some(id) then Some(|frames| - 1) else None
  }

  /** The ladder after the frames from `i` up were rolled back. */
  function Restored(frames: seq<Frame>, tiers: seq<int>, i: nat): seq<int>
    requires i <= |frames|
    decreases |frames| - i
  {
    if i == |frames| then tiers
    else if frames[i].tiersBefore.Some? then frames[i].tiersBefore.value
    else Restored(frames, tiers, i + 1)
  }

  predicate Changed(frames: seq<Frame>, i: nat)
    requires i <= |frames|
    decreases |frames| - i
  {
    i < |frames| && (frames[i].seriesChanged || Changed(frames, i + 1))
  }

  function MergeFrame(parent: Frame, child: Frame): Frame {
    Frame(parent.savepoint, parent.seriesChanged || child.seriesChanged,
          if parent.tiersBefore.None? then child.tiersBefore else parent.tiersBefore)
  }

  function MergeFrames(parent: Frame, children: seq<Frame>): Frame {
    if children == [] then parent
    else MergeFrame(MergeFrames(parent, children[..|children| - 1]), children[|children| - 1])
  }

  function Touch(frames: seq<Frame>, f: Frame): seq<Frame>
    requires frames != []
  {
    frames[..|frames| - 1] + [f]
  }

  /** A series came or went: the frame on top, if there is one, says so. */
  function Marked(frames: seq<Frame>): (marked: seq<Frame>)
    ensures |marked| == |frames|
  {
    if frames == [] then [] else Touch(frames, frames[|frames| - 1].(seriesChanged := true))
  }

  /** The cache takes an id while it has room. */
  function Admitted(cache: map<Ident, int>, key: Ident, id: int, room: bool): map<Ident, int> {
    if room then cache[key := id] else cache
  }

  /** The frames from `pos` rolled back, newest first. */
  function Undo(l: Live, pos: nat): Live
    requires pos < |l.frames| == |l.host|
  {
    l.(frames := l.frames[..pos], tiers := Restored(l.frames, l.tiers, pos), catalog := l.host[pos],
       host := l.host[..pos], cache := if Changed(l.frames, pos) then map[] else l.cache)
  }

  predicate Active(l: Live) {
    l.frames != []
  }

  function LiveStep(l: Live, op: Op): Live
    requires |l.frames| == |l.host|
  {
    match op
    case Begin => l.(frames := [NewFrame(None)], host := [l.catalog])
    case Savepoint(id) =>
      if !Active(l) then l
      else l.(frames := l.frames + [NewFrame(Some(id))], host := l.host + [l.catalog])
    case Release(id) =>
      (match Position(l.frames, id)
       case None => l
       case Some(pos) =>
         if pos == 0 then l
         else l.(frames := l.frames[..pos - 1] + [MergeFrames(l.frames[pos - 1], l.frames[pos..])],
                 host := l.host[..pos]))
    case RollbackTo(id) =>
      (match Position(l.frames, id)
       case None => l
       case Some(pos) =>
         var u := Undo(l, pos);
         u.(frames := u.frames + [NewFrame(Some(id))], host := u.host + [u.catalog]))
    case Rollback => if !Active(l) then l else Undo(l, 0)
    case Commit => l.(frames := [], host := [])
    case SetLadder(tiers) =>
      if tiers == l.tiers then l
      else if !Active(l) then l.(tiers := tiers)
      else
        var top := l.frames[|l.frames| - 1];
        l.(frames := Touch(l.frames, if top.tiersBefore.None? then top.(tiersBefore := Some(l.tiers)) else top),
           tiers := tiers)
    case Resolve(key, id, room) =>
      if key in l.cache then l
      else if key in l.catalog then l.(cache := Admitted(l.cache, key, l.catalog[key], room))
      else l.(frames := Marked(l.frames), catalog := l.catalog[key := id], cache := Admitted(l.cache, key, id, room))
    case Remove(keys) =>
      if keys == {} then l else l.(frames := Marked(l.frames), catalog := l.catalog - keys, cache := map[])
    case Refresh(catalog) => if Active(l) then l else l.(catalog := catalog, cache := map[])
  }

  function CopyPosition(copies: seq<Copy>, id: int): (k: Option<nat>)
    ensures k.Some? ==> k.value < |copies| && copies[k.value].savepoint == Some(id)
    ensures k.Some? ==> forall i | 0 <= i < k.value :: copies[i].savepoint != Some(id)
    ensures k.None? ==> forall i | 0 <= i < |copies| :: copies[i].savepoint != Some(id)
    decreases |copies|
  {
    if copies == [] then None
    else
      var t := copies[..|copies| - 1];
      match CopyPosition(t, id)
      case Some(k) => Some(k)
      case None => if copies[|copies| - 1].savepoint == Some(id) then Some(|copies| - 1) else None
  }

  function FullStep(f: Full, op: Op): Full {
    match op
    case Begin => f.(copies := [Copy(None, f.tiers, f.catalog)])
    case Savepoint(id) =>
      if f.copies == [] then f else f.(copies := f.copies + [Copy(Some(id), f.tiers, f.catalog)])
    case Release(id) =>
      (match CopyPosition(f.copies, id)
       case None => f
       case Some(pos) => if pos == 0 then f else f.(copies := f.copies[..pos]))
    case RollbackTo(id) =>
      (match CopyPosition(f.copies, id)
       case None => f
       case Some(pos) => Full(f.copies[pos].tiers, f.copies[pos].catalog, f.copies[..pos + 1]))
    case Rollback => if f.copies == [] then f else Full(f.copies[0].tiers, f.copies[0].catalog, [])
    case Commit => f.(copies := [])
    case SetLadder(tiers) => f.(tiers := tiers)
    case Resolve(key, id, _) => if key in f.catalog then f else f.(catalog := f.catalog[key := id])
    case Remove(keys) => if keys == {} then f else f.(catalog := f.catalog - keys)
    case Refresh(catalog) => if f.copies == [] then f.(catalog := catalog) else f
  }

  // ------------------------------------------------------------ the relation

  /** How things stood when the frame above `i` opened, or stand now. */
  function TiersAfter(f: Full, i: nat): seq<int> {
    if i + 1 < |f.copies| then f.copies[i + 1].tiers else f.tiers
  }

  function CatalogAfter(f: Full, i: nat): map<Ident, int> {
    if i + 1 < |f.copies| then f.copies[i + 1].catalog else f.catalog
  }

  /** What a frame says of the time it was on top: the ladder before its first
      change, or that there was none; and that no series came or went, unless
      it is marked. */
  ghost predicate Says(frame: Frame, copy: Copy, tiers: seq<int>, catalog: map<Ident, int>) {
    && frame.savepoint == copy.savepoint
    && (if frame.tiersBefore.Some? then frame.tiersBefore.value == copy.tiers else copy.tiers == tiers)
    && (!frame.seriesChanged ==> copy.catalog == catalog)
  }

  ghost predicate Backs(l: Live, f: Full, i: nat)
    requires i < |l.frames| == |l.host| == |f.copies|
  {
    Says(l.frames[i], f.copies[i], TiersAfter(f, i), CatalogAfter(f, i)) && l.host[i] == f.copies[i].catalog
  }

  ghost predicate CacheAgrees(cache: map<Ident, int>, catalog: map<Ident, int>) {
    forall k | k in cache :: k in catalog && catalog[k] == cache[k]
  }

  ghost predicate Agrees(l: Live, f: Full) {
    && l.tiers == f.tiers && l.catalog == f.catalog
    && |l.frames| == |l.host| == |f.copies|
    && (forall i: nat | i < |l.frames| :: Backs(l, f, i))
    && CacheAgrees(l.cache, l.catalog)
  }

  /** Rolling the frames back from `i` up comes to the copy. */
  lemma {:induction false} RestoredIsCopy(l: Live, f: Full, i: nat)
    requires Agrees(l, f) && i < |l.frames|
    ensures Restored(l.frames, l.tiers, i) == f.copies[i].tiers
    ensures !Changed(l.frames, i) ==> l.catalog == f.copies[i].catalog
    decreases |l.frames| - i
  {
    assert Backs(l, f, i);
    if i + 1 < |l.frames| {
      RestoredIsCopy(l, f, i + 1);
    } else {
      assert Restored(l.frames, l.tiers, i + 1) == l.tiers && !Changed(l.frames, i + 1);
    }
  }

  /** Frames merged into their parent say together what each said in turn. */
  lemma {:induction false} MergedSays(l: Live, f: Full, k: nat, n: nat)
    requires Agrees(l, f) && k < n <= |l.frames|
    ensures Says(MergeFrames(l.frames[k], l.frames[k + 1..n]), f.copies[k], TiersAfter(f, n - 1), CatalogAfter(f, n - 1))
    decreases n
  {
    assert Backs(l, f, n - 1);
    var kids := l.frames[k + 1..n];
    if n == k + 1 {
      assert kids == [];
    } else {
      MergedSays(l, f, k, n - 1);
      assert kids[..|kids| - 1] == l.frames[k + 1..n - 1] && kids[|kids| - 1] == l.frames[n - 1];
    }
  }

  lemma SamePosition(l: Live, f: Full, id: int)
    requires Agrees(l, f)
    ensures Position(l.frames, id) == CopyPosition(f.copies, id)
  {
    forall i: nat | i < |l.frames| ensures l.frames[i].savepoint == f.copies[i].savepoint {
      assert Backs(l, f, i);
    }
  }

  // --------------------------------------------------------------- the steps

  lemma OpenAgrees(l: Live, f: Full, savepoint: Option<int>)
    requires Agrees(l, f)
    ensures Agrees(l.(frames := l.frames + [NewFrame(savepoint)], host := l.host + [l.catalog]),
                   f.(copies := f.copies + [Copy(savepoint, f.tiers, f.catalog)]))
  {
    var l' := l.(frames := l.frames + [NewFrame(savepoint)], host := l.host + [l.catalog]);
    var f' := f.(copies := f.copies + [Copy(savepoint, f.tiers, f.catalog)]);
    forall i: nat | i < |l'.frames| ensures Backs(l', f', i) {
      if i < |l.frames| {
        assert Backs(l, f, i);
      }
    }
  }

  lemma UndoAgrees(l: Live, f: Full, pos: nat)
    requires Agrees(l, f) && pos < |l.frames|
    ensures Agrees(Undo(l, pos), Full(f.copies[pos].tiers, f.copies[pos].catalog, f.copies[..pos]))
  {
    var u := Undo(l, pos);
    var g := Full(f.copies[pos].tiers, f.copies[pos].catalog, f.copies[..pos]);
    RestoredIsCopy(l, f, pos);
    assert Backs(l, f, pos);
    forall i: nat | i < pos ensures Backs(u, g, i) {
      assert Backs(l, f, i);
      assert TiersAfter(g, i) == TiersAfter(f, i) && CatalogAfter(g, i) == CatalogAfter(f, i);
    }
  }

  lemma ReleaseAgrees(l: Live, f: Full, pos: nat)
    requires Agrees(l, f) && 0 < pos < |l.frames|
    ensures Agrees(l.(frames := l.frames[..pos - 1] + [MergeFrames(l.frames[pos - 1], l.frames[pos..])],
                      host := l.host[..pos]),
                   f.(copies := f.copies[..pos]))
  {
    var n := |l.frames|;
    var m := MergeFrames(l.frames[pos - 1], l.frames[pos..]);
    var l' := l.(frames := l.frames[..pos - 1] + [m], host := l.host[..pos]);
    var g := f.(copies := f.copies[..pos]);
    assert l.frames[pos..n] == l.frames[pos..];
    MergedSays(l, f, pos - 1, n);
    forall i: nat | i < pos ensures Backs(l', g, i) {
      assert Backs(l, f, i);
      if i < pos - 1 {
        assert l'.frames[i] == l.frames[i];
        assert TiersAfter(g, i) == TiersAfter(f, i) && CatalogAfter(g, i) == CatalogAfter(f, i);
      }
    }
  }

  lemma TopAgrees(l: Live, f: Full, top: Frame, g: Full, catalog: map<Ident, int>, cache: map<Ident, int>)
    requires Agrees(l, f) && l.frames != [] && g.copies == f.copies && CacheAgrees(cache, catalog)
    requires g.catalog == catalog
    requires Says(top, f.copies[|f.copies| - 1], g.tiers, g.catalog)
    ensures Agrees(l.(frames := Touch(l.frames, top), tiers := g.tiers, catalog := catalog, cache := cache), g)
  {
    var n := |l.frames| - 1;
    var l' := l.(frames := Touch(l.frames, top), tiers := g.tiers, catalog := catalog, cache := cache);
    forall i: nat | i < |l.frames| ensures Backs(l', g, i) {
      assert Backs(l, f, i);
      if i < n {
        assert l'.frames[i] == l.frames[i];
      }
    }
  }

  /** A change of the catalog that the top frame, if there is one, is marked
      for. */
  lemma MarkedAgrees(l: Live, f: Full, catalog: map<Ident, int>, cache: map<Ident, int>)
    requires Agrees(l, f) && CacheAgrees(cache, catalog)
    ensures Agrees(l.(frames := Marked(l.frames), catalog := catalog, cache := cache), f.(catalog := catalog))
  {
    if l.frames != [] {
      var n := |l.frames| - 1;
      assert Backs(l, f, n);
      TopAgrees(l, f, l.frames[n].(seriesChanged := true), f.(catalog := catalog), catalog, cache);
    }
  }

  lemma ResolveAgrees(l: Live, f: Full, key: Ident, id: int, room: bool)
    requires Agrees(l, f)
    ensures Agrees(LiveStep(l, Resolve(key, id, room)), FullStep(f, Resolve(key, id, room)))
  {
    if key !in l.cache {
      if key in l.catalog {
        var l' := LiveStep(l, Resolve(key, id, room));
        forall i: nat | i < |l.frames| ensures Backs(l', f, i) {
          assert Backs(l, f, i);
        }
      } else {
        MarkedAgrees(l, f, l.catalog[key := id], Admitted(l.cache, key, id, room));
      }
    }
  }

  lemma OthersAgree(l: Live, f: Full, op: Op)
    requires Agrees(l, f) && (op.SetLadder? || op.Remove? || op.Refresh? || op.Begin? || op.Commit?)
    ensures Agrees(LiveStep(l, op), FullStep(f, op))
  {
    match op {
      case SetLadder(tiers) =>
        if tiers != l.tiers && Active(l) {
          var n := |l.frames| - 1;
          assert Backs(l, f, n);
          var top := l.frames[n];
          var now := if top.tiersBefore.None? then top.(tiersBefore := Some(l.tiers)) else top;
          TopAgrees(l, f, now, f.(tiers := tiers), l.catalog, l.cache);
        }
      case Remove(keys) =>
        if keys != {} {
          MarkedAgrees(l, f, l.catalog - keys, map[]);
        }
      case Refresh(catalog) =>
      case Begin =>
      case Commit =>
    }
  }

  /** Every step of the frames is a step of the full copies: the same ladder,
      the same catalog, and a cache that says nothing the catalog does not. */
  lemma StepAgrees(l: Live, f: Full, op: Op)
    requires Agrees(l, f)
    ensures Agrees(LiveStep(l, op), FullStep(f, op))
  {
    hide Agrees, Restored, Changed, MergeFrames;
    AgreesShape(l, f);
    match op {
      case Savepoint(id) =>
        if Active(l) {
          OpenAgrees(l, f, Some(id));
        }
      case Release(id) =>
        SamePosition(l, f, id);
        if Position(l.frames, id).Some? && Position(l.frames, id).value > 0 {
          ReleaseAgrees(l, f, Position(l.frames, id).value);
        }
      case RollbackTo(id) =>
        SamePosition(l, f, id);
        if Position(l.frames, id).Some? {
          var pos := Position(l.frames, id).value;
          UndoAgrees(l, f, pos);
          var g := Full(f.copies[pos].tiers, f.copies[pos].catalog, f.copies[..pos]);
          OpenAgrees(Undo(l, pos), g, Some(id));
          assert g.copies + [Copy(Some(id), g.tiers, g.catalog)] == f.copies[..pos + 1];
        }
      case Rollback =>
        if Active(l) {
          UndoAgrees(l, f, 0);
          assert f.copies[..0] == [];
        }
      case Resolve(key, id, room) => ResolveAgrees(l, f, key, id, room);
      case _ => OthersAgree(l, f, op);
    }
  }

  lemma AgreesShape(l: Live, f: Full)
    requires Agrees(l, f)
    ensures l.tiers == f.tiers && l.catalog == f.catalog && |l.frames| == |l.host| == |f.copies|
  {
  }

  ghost predicate IsRun(ls: seq<Live>, fs: seq<Full>, ops: seq<Op>) {
    && |ls| == |fs| == |ops| + 1
    && forall i | 0 <= i < |ops| ::
         |ls[i].frames| == |ls[i].host| && ls[i + 1] == LiveStep(ls[i], ops[i]) && fs[i + 1] == FullStep(fs[i], ops[i])
  }

  /** Over every sequence of begins, savepoints, releases, rollbacks, commits,
      ladder changes and series coming and going, the frames restore what full
      copies restore, and the cache never disagrees with the catalog. */
  lemma {:induction false} JournalRefinesCopies(ls: seq<Live>, fs: seq<Full>, ops: seq<Op>, n: nat)
    requires IsRun(ls, fs, ops) && n <= |ops|
    requires Agrees(ls[0], fs[0])
    ensures Agrees(ls[n], fs[n])
    ensures ls[n].tiers == fs[n].tiers && CacheAgrees(ls[n].cache, fs[n].catalog)
  {
    hide LiveStep, FullStep;
    if n > 0 {
      JournalRefinesCopies(ls, fs, ops, n - 1);
      StepAgrees(ls[n - 1], fs[n - 1], ops[n - 1]);
    }
  }

  // ---------------------------------------------------------------- the loops

  /** The engine's journal, with the host's rows beside it. */
  class Journal {
    var frames: seq<Frame>
    var tiers: seq<int>
    var cache: map<Ident, int>
    var catalog: map<Ident, int>
    var host: seq<map<Ident, int>>

    ghost function LiveOf(): Live
      reads this
    {
      Live(frames, tiers, cache, catalog, host)
    }

    ghost predicate Valid()
      reads this
    {
      |frames| == |host|
    }

    constructor (tiers: seq<int>, catalog: map<Ident, int>)
      ensures Valid() && LiveOf() == Live([], tiers, map[], catalog, [])
      ensures Agrees(LiveOf(), Full(tiers, catalog, []))
    {
      this.tiers, this.catalog := tiers, catalog;
      frames, host, cache := [], [], map[];
    }

    method TxnBegin()
      requires Valid()
      modifies this
      ensures Valid() && LiveOf() == LiveStep(old(LiveOf()), Begin)
    {
      frames, host := [NewFrame(None)], [catalog];
    }

    method TxnSavepoint(id: int)
      requires Valid()
      modifies this
      ensures Valid() && LiveOf() == LiveStep(old(LiveOf()), Savepoint(id))
    {
      if frames != [] {
        frames, host := frames + [NewFrame(Some(id))], host + [catalog];
      }
    }

    method FindFrame(id: int) returns (pos: Option<nat>)
      ensures pos == Position(frames, id)
    {
      var i := 0;
      while i < |frames|
        invariant i <= |frames|
        invariant forall j | 0 <= j < i :: frames[j].savepoint != Some(id)
      {
        if frames[i].savepoint == Some(id) {
          return Some(i);
        }
        i := i + 1;
      }
      pos := None;
    }

    /** `txn_release`: the frames from `id` up go into their parent. */
    method TxnRelease(id: int)
      requires Valid()
      modifies this
      ensures Valid() && LiveOf() == LiveStep(old(LiveOf()), Release(id))
    {
      var pos := FindFrame(id);
      if pos.None? || pos.value == 0 {
        return;
      }
      var released := frames[pos.value..];
      var parent := frames[pos.value - 1];
      for i := 0 to |released|
        invariant parent == MergeFrames(old(frames)[pos.value - 1], released[..i])
      {
        assert released[..i + 1][..i] == released[..i];
        var child := released[i];
        if parent.tiersBefore.None? {
          parent := parent.(tiersBefore := child.tiersBefore);
        }
        if child.seriesChanged {
          parent := parent.(seriesChanged := true);
        }
      }
      assert released[..|released|] == released;
      frames := frames[..pos.value - 1] + [parent];
      host := host[..pos.value];
    }

    /** `rollback_txn_frame` for each frame down to `pos`, newest first; the
        host puts its rows back. */
    method UndoFrames(pos: nat)
      requires Valid() && pos < |frames|
      modifies this
      ensures Valid() && LiveOf() == Undo(old(LiveOf()), pos)
    {
      catalog, host := host[pos], host[..pos];
      while |frames| > pos
        invariant pos <= |frames| <= |old(frames)| && frames == old(frames)[..|frames|]
        invariant tiers == Restored(old(frames), old(tiers), |frames|)
        invariant cache == if Changed(old(frames), |frames|) then map[] else old(cache)
        invariant catalog == old(host)[pos] && host == old(host)[..pos]
      {
        var top := frames[|frames| - 1];
        assert top == old(frames)[|frames| - 1];
        frames := frames[..|frames| - 1];
        if top.tiersBefore.Some? {
          tiers := top.tiersBefore.value;
        }
        if top.seriesChanged {
          cache := map[];
        }
      }
    }

    method TxnRollbackTo(id: int)
      requires Valid()
      modifies this
      ensures Valid() && LiveOf() == LiveStep(old(LiveOf()), RollbackTo(id))
    {
      var pos := FindFrame(id);
      if pos.None? {
        return;
      }
      UndoFrames(pos.value);
      frames, host := frames + [NewFrame(Some(id))], host + [catalog];
    }

    method TxnRollback()
      requires Valid()
      modifies this
      ensures Valid() && LiveOf() == LiveStep(old(LiveOf()), Rollback)
    {
      if frames != [] {
        UndoFrames(0);
      }
    }

    method TxnCommit()
      requires Valid()
      modifies this
      ensures Valid() && LiveOf() == LiveStep(old(LiveOf()), Commit)
    {
      frames, host := [], [];
    }

    /** `set_rollups_transactional`. */
    method SetRollupsTransactional(ladder: seq<int>)
      requires Valid()
      modifies this
      ensures Valid() && LiveOf() == LiveStep(old(LiveOf()), SetLadder(ladder))
    {
      if tiers == ladder {
        return;
      }
      if frames != [] {
        var n := |frames| - 1;
        var top := frames[n];
        if top.tiersBefore.None? {
          top := top.(tiersBefore := Some(tiers));
        }
        frames := frames[..n] + [top];
      }
      tiers := ladder;
    }

    /** The frame on top, if a transaction is open, is marked. */
    method MarkTop()
      requires Valid()
      modifies this`frames
      ensures Valid() && frames == Marked(old(frames))
    {
      if frames != [] {
        var n := |frames| - 1;
        frames := frames[..n] + [frames[n].(seriesChanged := true)];
      }
    }

    /** `resolve_series`: the cache, then the store, which creates the series
        under `next` where there is none; the cache may be full. */
    method ResolveSeries(key: Ident, next: int, room: bool) returns (id: int)
      requires Valid() && CacheAgrees(cache, catalog)
      modifies this
      ensures Valid() && LiveOf() == LiveStep(old(LiveOf()), Resolve(key, next, room))
      ensures key in catalog && catalog[key] == id && CacheAgrees(cache, catalog)
      ensures room ==> key in cache
      ensures id == if key in old(catalog) then old(catalog)[key] else next
    {
      if key in cache {
        return cache[key];
      }
      if key in catalog {
        id := catalog[key];
      } else {
        id := next;
        catalog := catalog[key := id];
        MarkTop();
      }
      if room {
        cache := cache[key := id];
      }
    }

    /** `remove_series_without_data`, for the series it found. */
    method RemoveSeries(doomed: set<Ident>)
      requires Valid()
      modifies this
      ensures Valid() && LiveOf() == LiveStep(old(LiveOf()), Remove(doomed))
    {
      if doomed == {} {
        return;
      }
      MarkTop();
      cache := map[];
      catalog := catalog - doomed;
    }
  }
}
