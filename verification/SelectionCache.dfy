/** The selection cache under every interleaving: readers that admit answers,
    writers that publish a catalog and invalidate, each in its atomic steps,
    over a map that is cleared shard by shard. */
module SelectionCache {
  import opened Sequences

  /** What the map is made of, and what catalog each generation has. */
  datatype Config = Config(shards: nat, shardOf: string -> nat, content: nat -> int)

  /** An answer: asked under generation `gen`, with the epoch read before it
      was worked out, and the generation published when the epoch was read. */
  datatype Entry = Entry(key: string, gen: nat, tag: nat, seen: nat)

  datatype Thread =
    | Idle
    | Checked(key: string, gen: nat)
    | Tagged(x: Entry)
    | Admitting(x: Entry)
    | MakingRoom(x: Entry, at: nat)
    | Inserted(x: Entry)
    | Emptying(x: Entry, at: nat)
    | Published
    | Scanning(at: nat)
    | Clearing(at: nat)

  datatype Machine = Machine(epoch: nat, gen: nat, cache: map<string, Entry>, threads: seq<Thread>)

  function ClearShard(c: Config, cache: map<string, Entry>, shard: nat): map<string, Entry> {
    map k | k in cache && c.shardOf(k) != shard :: cache[k]
  }

  predicate ShardEmpty(c: Config, cache: map<string, Entry>, shard: nat) {
    forall k | k in cache :: c.shardOf(k) != shard
  }

  function At(m: Machine, i: nat, t: Thread): Machine
    requires i < |m.threads|
  {
    m.(threads := m.threads[i := t])
  }

  /** One atomic step of thread `i`. */
  ghost predicate StepOf(c: Config, m: Machine, i: nat, n: Machine)
    requires i < |m.threads|
  {
    match m.threads[i]
    case Idle =>
      // A reader's snapshot is the catalog as last published; a commit
      // publishes the next generation, and says so if series came or went; a
      // series changed within a transaction invalidates at once.
      || (exists key :: n == At(m, i, Checked(key, m.gen)))
      || (n == At(m.(gen := m.gen + 1), i, if c.content(m.gen + 1) == c.content(m.gen) then Idle else Published))
      || (n == At(m.(epoch := m.epoch + 1), i, Scanning(0)))
    case Checked(key, g) => n == At(m, i, Tagged(Entry(key, g, m.epoch, m.gen))) || n == At(m, i, Idle)
    case Tagged(x) => n == At(m, i, Idle) || (x.tag == m.epoch && n == At(m, i, Admitting(x)))
    case Admitting(x) =>
      n == At(m, i, MakingRoom(x, 0)) || n == At(m.(cache := m.cache[x.key := x]), i, Inserted(x))
    case MakingRoom(x, k) =>
      if k < c.shards then n == At(m.(cache := ClearShard(c, m.cache, k)), i, MakingRoom(x, k + 1))
      else n == At(m.(cache := m.cache[x.key := x]), i, Inserted(x))
    case Inserted(x) => n == At(m, i, if x.tag != m.epoch then Emptying(x, 0) else Idle)
    case Emptying(x, k) =>
      if k < c.shards then n == At(m.(cache := ClearShard(c, m.cache, k)), i, Emptying(x, k + 1))
      else n == At(m, i, Idle)
    case Published => n == At(m.(epoch := m.epoch + 1), i, Scanning(0))
    case Scanning(k) =>
      if k >= c.shards then n == At(m, i, Idle)
      else n == At(m, i, if ShardEmpty(c, m.cache, k) then Scanning(k + 1) else Clearing(0))
    case Clearing(k) =>
      if k < c.shards then n == At(m.(cache := ClearShard(c, m.cache, k)), i, Clearing(k + 1))
      else n == At(m, i, Idle)
  }

  // ----------------------------------------------------------- what is kept

  /** The thread will yet clear shard `s`. */
  predicate Clears(t: Thread, epoch: nat, s: nat) {
    match t
    case Inserted(x) => x.tag != epoch
    case Emptying(_, k) => k <= s
    case Scanning(k) => k <= s
    case Clearing(k) => k <= s
    case _ => false
  }

  ghost predicate Covered(m: Machine, s: nat) {
    exists i :: 0 <= i < |m.threads| && Clears(m.threads[i], m.epoch, s)
  }

  /** The answer a thread has in hand. */
  function InHand(t: Thread): Option<Entry> {
    match t
    case Tagged(x) => Some(x)
    case Admitting(x) => Some(x)
    case MakingRoom(x, _) => Some(x)
    case Inserted(x) => Some(x)
    case _ => None
  }

  /** An answer tagged with the epoch that still is: the catalog is as it was
      at the tag, or a bump is on its way. */
  ghost predicate Timely(c: Config, m: Machine, x: Entry) {
    && x.tag <= m.epoch
    && (x.tag == m.epoch ==> c.content(x.seen) == c.content(m.gen) || BumpPending(m))
  }

  ghost predicate BumpPending(m: Machine) {
    exists i :: 0 <= i < |m.threads| && m.threads[i].Published?
  }

  ghost predicate CacheKept(c: Config, m: Machine) {
    forall k | k in m.cache ::
      && m.cache[k].key == k && c.shardOf(k) < c.shards
      && Timely(c, m, m.cache[k])
      && (m.cache[k].tag == m.epoch || Covered(m, c.shardOf(k)))
  }

  ghost predicate HandsKept(c: Config, m: Machine) {
    forall i | 0 <= i < |m.threads| && InHand(m.threads[i]).Some? :: Timely(c, m, InHand(m.threads[i]).value)
  }

  ghost predicate Kept(c: Config, m: Machine) {
    && (forall k :: c.shardOf(k) < c.shards)
    && CacheKept(c, m)
    && HandsKept(c, m)
  }

  // -------------------------------------------------------------- the steps

  /** Another thread still covers what it covered. */
  lemma StillCovered(m: Machine, n: Machine, i: nat, s: nat)
    requires i < |m.threads| == |n.threads| && n.epoch >= m.epoch && Covered(m, s)
    requires forall j | 0 <= j < |m.threads| && j != i :: n.threads[j] == m.threads[j]
    requires forall j | 0 <= j < |m.threads| && m.threads[j].Inserted? :: m.threads[j].x.tag <= m.epoch
    requires Clears(m.threads[i], m.epoch, s) ==> Clears(n.threads[i], n.epoch, s)
    ensures Covered(n, s)
  {
    var j :| 0 <= j < |m.threads| && Clears(m.threads[j], m.epoch, s);
    assert Clears(n.threads[j], n.epoch, s);
  }

  lemma StillPending(m: Machine, n: Machine, i: nat)
    requires i < |m.threads| == |n.threads| && BumpPending(m)
    requires forall j | 0 <= j < |m.threads| && j != i :: n.threads[j] == m.threads[j]
    requires m.threads[i].Published? ==> n.threads[i].Published?
    ensures BumpPending(n)
  {
    var j :| 0 <= j < |m.threads| && m.threads[j].Published?;
    assert n.threads[j].Published?;
  }

  /** A step that neither bumps nor publishes keeps every answer timely. */
  lemma TimelySame(c: Config, m: Machine, n: Machine, i: nat, x: Entry)
    requires i < |m.threads| == |n.threads| && n.epoch == m.epoch && n.gen == m.gen && Timely(c, m, x)
    requires forall j | 0 <= j < |m.threads| && j != i :: n.threads[j] == m.threads[j]
    requires !m.threads[i].Published?
    ensures Timely(c, n, x)
  {
    if BumpPending(m) {
      StillPending(m, n, i);
    }
  }

  /** After a bump nothing older can be taken for current. */
  lemma TimelyBumped(c: Config, m: Machine, n: Machine, x: Entry)
    requires n.epoch == m.epoch + 1 && Timely(c, m, x)
    ensures Timely(c, n, x)
  {
  }

  lemma TimelyPublished(c: Config, m: Machine, n: Machine, i: nat, x: Entry)
    requires i < |m.threads| == |n.threads| && n.epoch == m.epoch && Timely(c, m, x)
    requires forall j | 0 <= j < |m.threads| && j != i :: n.threads[j] == m.threads[j]
    requires m.threads[i].Idle?
    requires c.content(n.gen) == c.content(m.gen) || n.threads[i].Published?
    ensures Timely(c, n, x)
  {
    if n.threads[i].Published? {
      assert BumpPending(n);
    } else if BumpPending(m) {
      StillPending(m, n, i);
    }
  }

  /** The epoch moved on: the thread that moved it covers every shard. */
  lemma BumpKeeps(c: Config, m: Machine, i: nat)
    requires Kept(c, m) && i < |m.threads|
    ensures Kept(c, At(m.(epoch := m.epoch + 1), i, Scanning(0)))
  {
    var n := At(m.(epoch := m.epoch + 1), i, Scanning(0));
    forall s: nat ensures Covered(n, s) {
      assert Clears(n.threads[i], n.epoch, s);
    }
    forall k | k in n.cache ensures Timely(c, n, n.cache[k]) {
      TimelyBumped(c, m, n, m.cache[k]);
    }
    forall j | 0 <= j < |n.threads| && InHand(n.threads[j]).Some? ensures Timely(c, n, InHand(n.threads[j]).value) {
      assert j != i && n.threads[j] == m.threads[j];
      TimelyBumped(c, m, n, InHand(m.threads[j]).value);
    }
  }

  lemma PublishKeeps(c: Config, m: Machine, i: nat)
    requires Kept(c, m) && i < |m.threads| && m.threads[i].Idle?
    ensures Kept(c, At(m.(gen := m.gen + 1), i, if c.content(m.gen + 1) == c.content(m.gen) then Idle else Published))
  {
    var n := At(m.(gen := m.gen + 1), i, if c.content(m.gen + 1) == c.content(m.gen) then Idle else Published);
    InsertedTags(c, m);
    forall k | k in n.cache
      ensures Timely(c, n, n.cache[k]) && (n.cache[k].tag == n.epoch || Covered(n, c.shardOf(k)))
    {
      TimelyPublished(c, m, n, i, m.cache[k]);
      if m.cache[k].tag != m.epoch {
        StillCovered(m, n, i, c.shardOf(k));
      }
    }
    forall j | 0 <= j < |n.threads| && InHand(n.threads[j]).Some? ensures Timely(c, n, InHand(n.threads[j]).value) {
      assert j != i && n.threads[j] == m.threads[j];
      TimelyPublished(c, m, n, i, InHand(m.threads[j]).value);
    }
  }

  lemma InsertedTags(c: Config, m: Machine)
    requires Kept(c, m)
    ensures forall j | 0 <= j < |m.threads| && m.threads[j].Inserted? :: m.threads[j].x.tag <= m.epoch
  {
    forall j | 0 <= j < |m.threads| && m.threads[j].Inserted? ensures m.threads[j].x.tag <= m.epoch {
      assert InHand(m.threads[j]).Some?;
      assert Timely(c, m, InHand(m.threads[j]).value);
    }
  }

  /** A thread moves on, and perhaps a shard is cleared or an answer put in:
      what it no longer covers is not there to be covered. */
  lemma MoveKeeps(c: Config, m: Machine, i: nat, cache: map<string, Entry>, t: Thread)
    requires Kept(c, m) && i < |m.threads| && !m.threads[i].Published?
    requires forall k | k in cache ::
      || (k in m.cache && cache[k] == m.cache[k])
      || (t == Inserted(cache[k]) && cache[k].key == k && Timely(c, m, cache[k]))
    requires forall k | k in cache && k in m.cache && cache[k] == m.cache[k] && Clears(m.threads[i], m.epoch, c.shardOf(k)) ::
      Clears(t, m.epoch, c.shardOf(k))
    requires InHand(t).Some? ==> Timely(c, m, InHand(t).value)
    ensures Kept(c, At(m.(cache := cache), i, t))
  {
    hide Timely, Covered, BumpPending;
    var n := At(m.(cache := cache), i, t);
    InsertedTags(c, m);
    forall k | k in n.cache
      ensures && n.cache[k].key == k && c.shardOf(k) < c.shards
              && Timely(c, n, n.cache[k])
              && (n.cache[k].tag == n.epoch || Covered(n, c.shardOf(k)))
    {
      TimelySame(c, m, n, i, n.cache[k]);
      if k in m.cache && n.cache[k] == m.cache[k] {
        if n.cache[k].tag != m.epoch {
          StillCovered(m, n, i, c.shardOf(k));
        }
      } else if n.cache[k].tag != n.epoch {
        CoveredBy(n, i, c.shardOf(k));
      }
    }
    forall j | 0 <= j < |n.threads| && InHand(n.threads[j]).Some? ensures Timely(c, n, InHand(n.threads[j]).value) {
      if j != i {
        assert n.threads[j] == m.threads[j];
      }
      TimelySame(c, m, n, i, InHand(n.threads[j]).value);
    }
  }

  lemma CoveredBy(m: Machine, i: nat, s: nat)
    requires i < |m.threads| && Clears(m.threads[i], m.epoch, s)
    ensures Covered(m, s)
  {
  }

  /** Every step of every thread keeps it. */
  lemma StepKeeps(c: Config, m: Machine, i: nat, n: Machine)
    requires Kept(c, m) && i < |m.threads| && StepOf(c, m, i, n)
    ensures Kept(c, n)
  {
    hide Kept, Timely, Covered, BumpPending;
    HandTimely(c, m, i);
    match m.threads[i] {
      case Idle =>
        if n == At(m.(epoch := m.epoch + 1), i, Scanning(0)) {
          BumpKeeps(c, m, i);
        } else if n == At(m.(gen := m.gen + 1), i, if c.content(m.gen + 1) == c.content(m.gen) then Idle else Published) {
          PublishKeeps(c, m, i);
        } else {
          MoveKeeps(c, m, i, m.cache, n.threads[i]);
        }
      case Published => BumpKeeps(c, m, i);
      case Checked(key, g) =>
        TaggedTimely(c, m, key, g);
        MoveKeeps(c, m, i, m.cache, n.threads[i]);
      case Scanning(k) =>
        if k < c.shards && ShardEmpty(c, m.cache, k) {
          ScanMoves(c, m, i, k);
        }
        MoveKeeps(c, m, i, m.cache, n.threads[i]);
      case _ => MoveKeeps(c, m, i, n.cache, n.threads[i]);
    }
  }

  lemma HandTimely(c: Config, m: Machine, i: nat)
    requires Kept(c, m) && i < |m.threads|
    ensures InHand(m.threads[i]).Some? ==> Timely(c, m, InHand(m.threads[i]).value)
    ensures forall k | k in m.cache :: m.cache[k].key == k && c.shardOf(k) < c.shards
  {
  }

  lemma TaggedTimely(c: Config, m: Machine, key: string, g: nat)
    ensures Timely(c, m, Entry(key, g, m.epoch, m.gen))
  {
  }

  /** An empty shard needs no covering. */
  lemma ScanMoves(c: Config, m: Machine, i: nat, k: nat)
    requires i < |m.threads| && ShardEmpty(c, m.cache, k)
    ensures forall key | key in m.cache && Clears(Scanning(k), m.epoch, c.shardOf(key)) ::
              Clears(Scanning(k + 1), m.epoch, c.shardOf(key))
  {
  }

  // --------------------------------------------------------------- whole runs

  /** No admit and no invalidate is in flight. */
  ghost predicate Quiet(m: Machine) {
    forall i | 0 <= i < |m.threads| :: m.threads[i].Idle? || m.threads[i].Checked? || m.threads[i].Tagged?
  }

  ghost predicate IsRun(c: Config, ms: seq<Machine>, who: seq<nat>) {
    && |ms| == |who| + 1
    && forall i | 0 <= i < |who| :: who[i] < |ms[i].threads| && StepOf(c, ms[i], who[i], ms[i + 1])
  }

  lemma {:induction false} RunKeeps(c: Config, ms: seq<Machine>, who: seq<nat>, n: nat)
    requires IsRun(c, ms, who) && n <= |who| && Kept(c, ms[0])
    ensures Kept(c, ms[n])
  {
    hide StepOf, Kept;
    if n > 0 {
      RunKeeps(c, ms, who, n - 1);
      StepKeeps(c, ms[n - 1], who[n - 1], ms[n]);
    }
  }

  lemma StartKept(c: Config, epoch: nat, gen: nat, threads: nat)
    requires forall k :: c.shardOf(k) < c.shards
    ensures Kept(c, Machine(epoch, gen, map[], seq(threads, i => Idle)))
  {
  }

  /** Once nothing is in flight, whatever is remembered was worked out wholly
      within the epoch that is. And it is an answer of the catalog that is if
      and only if the catalog had not changed between the reader's check of its
      generation and its reading of the epoch. */
  lemma QuietIsCurrent(c: Config, ms: seq<Machine>, who: seq<nat>, n: nat, k: string)
    requires IsRun(c, ms, who) && n <= |who| && Kept(c, ms[0])
    requires Quiet(ms[n]) && k in ms[n].cache
    ensures ms[n].cache[k].tag == ms[n].epoch
    ensures c.content(ms[n].cache[k].gen) == c.content(ms[n].gen) <==>
            c.content(ms[n].cache[k].gen) == c.content(ms[n].cache[k].seen)
  {
    hide StepOf;
    RunKeeps(c, ms, who, n);
    var m := ms[n];
    assert !BumpPending(m) && !Covered(m, c.shardOf(k));
    assert Timely(c, m, m.cache[k]);
  }

  // ----------------------------------------------------------- a stale answer

  /** Nothing is in flight, and what is remembered is of another catalog. */
  ghost predicate IsStale(c: Config, m: Machine, key: string) {
    Quiet(m) && key in m.cache && c.content(m.cache[key].gen) != c.content(m.gen)
  }

  function StaleEntry(key: string): Entry {
    Entry(key, 0, 1, 1)
  }

  /** A reader checks its generation; a writer publishes and bumps. */
  function CommitBetween(key: string): seq<Machine> {
    [Machine(0, 0, map[], [Idle, Idle]),
     Machine(0, 0, map[], [Checked(key, 0), Idle]),
     Machine(0, 1, map[], [Checked(key, 0), Published]),
     Scanned(key, 0)]
  }

  function Scanned(key: string, k: nat): Machine {
    Machine(1, 1, map[], [Checked(key, 0), Scanning(k)])
  }

  /** The writer finds nothing to clear, shard after shard. */
  function ScansOn(key: string, n: nat): (ms: seq<Machine>)
    ensures |ms| == n + 1 && forall k | 0 <= k <= n :: ms[k] == Scanned(key, k)
  {
    seq(n + 1, k requires 0 <= k <= n => Scanned(key, k))
  }

  function Ones(n: nat): (who: seq<nat>)
    ensures |who| == n && forall k | 0 <= k < n :: who[k] == 1
  {
    seq(n, _ => 1)
  }

  /** The writer is done; the reader reads the epoch and admits what it found. */
  function AdmittedAfter(key: string, shards: nat): seq<Machine> {
    var x := StaleEntry(key);
    [Scanned(key, shards),
     Machine(1, 1, map[], [Checked(key, 0), Idle]),
     Machine(1, 1, map[], [Tagged(x), Idle]),
     Machine(1, 1, map[], [Admitting(x), Idle]),
     Machine(1, 1, map[key := x], [Inserted(x), Idle]),
     Machine(1, 1, map[key := x], [Idle, Idle])]
  }

  lemma CommitBetweenRuns(c: Config, key: string)
    requires c.content(1) != c.content(0)
    ensures IsRun(c, CommitBetween(key), [0, 1, 1])
  {
    var ms := CommitBetween(key);
    assert ms[1] == At(ms[0], 0, Checked(key, ms[0].gen));
    assert ms[2] == At(ms[1].(gen := ms[1].gen + 1), 1, Published);
    assert ms[3] == At(ms[2].(epoch := ms[2].epoch + 1), 1, Scanning(0));
  }

  lemma ScansOnRuns(c: Config, key: string)
    ensures IsRun(c, ScansOn(key, c.shards), Ones(c.shards))
  {
    var ms, who := ScansOn(key, c.shards), Ones(c.shards);
    forall k | 0 <= k < |who| ensures who[k] < |ms[k].threads| && StepOf(c, ms[k], who[k], ms[k + 1]) {
      assert ms[k + 1] == At(ms[k], 1, Scanning(k + 1));
    }
  }

  lemma AdmittedAfterRuns(c: Config, key: string)
    ensures IsRun(c, AdmittedAfter(key, c.shards), [1, 0, 0, 0, 0])
  {
    var ms, x := AdmittedAfter(key, c.shards), StaleEntry(key);
    assert ms[1] == At(ms[0], 1, Idle);
    assert ms[2] == At(ms[1], 0, Tagged(x));
    assert ms[3] == At(ms[2], 0, Admitting(x));
    assert ms[4] == At(ms[3].(cache := ms[3].cache[x.key := x]), 0, Inserted(x));
    assert ms[5] == At(ms[4], 0, Idle);
  }

  /** A commit that adds a series falls between a reader's check and its
      reading of the epoch: the answer of the old catalog is admitted under the
      new epoch, and stays, however many shards the map has. */
  lemma StaleAnswer(c: Config, key: string)
    requires c.content(1) != c.content(0)
    ensures exists ms: seq<Machine>, who: seq<nat> ::
      && IsRun(c, ms, who) && |ms| == |who| + 1 && ms[0] == Machine(0, 0, map[], [Idle, Idle])
      && IsStale(c, ms[|who|], key)
  {
    hide IsRun, StepOf;
    var a, b, d := CommitBetween(key), ScansOn(key, c.shards), AdmittedAfter(key, c.shards);
    CommitBetweenRuns(c, key);
    ScansOnRuns(c, key);
    AdmittedAfterRuns(c, key);
    RunsJoin(c, b, Ones(c.shards), d, [1, 0, 0, 0, 0]);
    RunsJoin(c, a, [0, 1, 1], b[..c.shards] + d, Ones(c.shards) + [1, 0, 0, 0, 0]);
    assert IsStale(c, d[5], key);
  }

  lemma RunsJoin(c: Config, a: seq<Machine>, p: seq<nat>, b: seq<Machine>, q: seq<nat>)
    requires IsRun(c, a, p) && IsRun(c, b, q) && |a| == |p| + 1 && |b| == |q| + 1 && a[|p|] == b[0]
    ensures IsRun(c, a[..|p|] + b, p + q)
    ensures (a[..|p|] + b)[0] == a[0] && (a[..|p|] + b)[|p + q|] == b[|q|]
  {
    hide StepOf;
    var ms, who := a[..|p|] + b, p + q;
    forall i | 0 <= i < |who| ensures who[i] < |ms[i].threads| && StepOf(c, ms[i], who[i], ms[i + 1]) {
      if i < |p| {
        assert ms[i] == a[i] && ms[i + 1] == a[i + 1] && who[i] == p[i];
      } else {
        var j := i - |p|;
        assert ms[i] == b[j] && ms[i + 1] == b[j + 1] && who[i] == q[j];
      }
    }
  }
}
