/** String columns: text behind its lengths, or a dictionary of the distinct
    strings with the codes in runs; decoded whole, or only the rows asked for. */
module StringColumn {
  import opened Sequences
  import opened Bytes
  import opened ColumnCodec

  const ENC_STR_DICT: Byte := 5
  const ENC_STR_ZSTD: Byte := 6

  type Text = seq<Byte>

  // -------------------------------------------------------- length-prefixed text

  function Concat(strs: seq<Text>): seq<Byte> {
    if strs == [] then []
    else Concat(strs[..|strs| - 1]) + (LE(|strs[|strs| - 1]|, 4) + strs[|strs| - 1])
  }

  /** The strings read, and where the reader stands. */
  datatype Parsed = Parsed(strings: seq<Text>, at: nat)

  /** One more string, if it is there and is text. */
  function ParseNext(c: Codec, raw: seq<Byte>, p: Parsed): Option<Parsed> {
    if p.at + 4 > |raw| then None
    else
      var len := WordAt(raw, p.at, 4);
      if p.at + 4 + len > |raw| then None
      else
        var s := raw[p.at + 4..p.at + 4 + len];
        if !c.utf8(s) then None else Some(Parsed(p.strings + [s], p.at + 4 + len))
  }

  function Parse(c: Codec, raw: seq<Byte>, n: nat): Option<Parsed> {
    if n == 0 then Some(Parsed([], 0))
    else
      match Parse(c, raw, n - 1)
      case None => None
      case Some(p) => ParseNext(c, raw, p)
  }

  /** Exactly `n` strings and nothing after them. */
  function ParseAll(c: Codec, raw: seq<Byte>, n: nat): Option<seq<Text>> {
    match Parse(c, raw, n)
    case None => None
    case Some(p) => if p.at == |raw| then Some(p.strings) else None
  }

  lemma {:induction false} ParseShape(c: Codec, raw: seq<Byte>, n: nat)
    ensures Parse(c, raw, n).Some? ==>
              var p := Parse(c, raw, n).value; |p.strings| == n && 4 * n <= p.at <= |raw|
  {
    hide FromLE;
    if n > 0 {
      ParseShape(c, raw, n - 1);
    }
  }

  lemma {:induction false} ParseStops(c: Codec, raw: seq<Byte>, i: nat, n: nat)
    requires i <= n && Parse(c, raw, i).None?
    ensures Parse(c, raw, n).None?
    decreases n
  {
    if i < n {
      ParseStops(c, raw, i, n - 1);
    }
  }

  ghost predicate Texts(c: Codec, strs: seq<Text>) {
    forall s | s in strs :: c.utf8(s) && |s| <= U32_MAX
  }

  lemma ConcatMore(t: seq<Text>, s: Text)
    ensures Concat(t + [s]) == Concat(t) + (LE(|s|, 4) + s)
  {
    assert (t + [s])[..|t|] == t;
  }

  lemma ParseNextIs(c: Codec, raw: seq<Byte>, p: Parsed, s: Text)
    requires c.utf8(s) && |s| <= U32_MAX && p.at + 4 + |s| <= |raw|
    requires raw[p.at..p.at + 4] == LE(|s|, 4) && raw[p.at + 4..p.at + 4 + |s|] == s
    ensures ParseNext(c, raw, p) == Some(Parsed(p.strings + [s], p.at + 4 + |s|))
  {
    hide *;
    LengthAt(raw, p.at, |s|);
    ParseNextWith(c, raw, p, |s|);
  }

  lemma ParseNextWith(c: Codec, raw: seq<Byte>, p: Parsed, len: nat)
    requires p.at + 4 + len <= |raw| && WordAt(raw, p.at, 4) == len
    ensures var s := raw[p.at + 4..p.at + 4 + len];
            ParseNext(c, raw, p) == if !c.utf8(s) then None else Some(Parsed(p.strings + [s], p.at + 4 + len))
  {
    hide WordAt;
  }

  lemma LengthAt(raw: seq<Byte>, at: nat, n: nat)
    requires n <= U32_MAX && at + 4 <= |raw| && raw[at..at + 4] == LE(n, 4)
    ensures WordAt(raw, at, 4) == n
  {
    hide LE, FromLE;
    WordSizes();
    WordRoundTrip(n, 4);
  }

  lemma ParseOneMore(c: Codec, raw: seq<Byte>, early: seq<Byte>, s: Text, post: seq<Byte>, strings: seq<Text>)
    requires c.utf8(s) && |s| <= U32_MAX && raw == early + LE(|s|, 4) + s + post
    ensures ParseNext(c, raw, Parsed(strings, |early|)) == Some(Parsed(strings + [s], |early| + 4 + |s|))
  {
    hide *;
    var w := LE(|s|, 4);
    ReadOne(raw, early, w, s, post);
    ParseNextIs(c, raw, Parsed(strings, |early|), s);
  }

  lemma {:induction false} ParseConcat(c: Codec, strs: seq<Text>, post: seq<Byte>)
    requires Texts(c, strs)
    ensures Parse(c, Concat(strs) + post, |strs|) == Some(Parsed(strs, |Concat(strs)|))
    decreases |strs|
  {
    hide LE, Concat, ParseNext;
    if strs == [] {
      NothingParsed(c, Concat(strs) + post);
    } else {
      var t, s := strs[..|strs| - 1], strs[|strs| - 1];
      assert strs == t + [s] && s in strs && forall x | x in t :: x in strs;
      var early, w := Concat(t), LE(|s|, 4);
      ConcatMore(t, s);
      var raw := Concat(strs) + post;
      assert raw == early + ((w + s) + post);
      ParseConcat(c, t, (w + s) + post);
      assert raw == early + w + s + post;
      ParseOneMore(c, raw, early, s, post, t);
    }
  }

  lemma NothingParsed(c: Codec, raw: seq<Byte>)
    ensures Parse(c, raw, 0) == Some(Parsed([], 0)) && Concat([]) == []
  {
  }

  lemma ReadOne(raw: seq<Byte>, early: seq<Byte>, w: seq<Byte>, s: seq<Byte>, post: seq<Byte>)
    requires |w| == 4 && raw == early + w + s + post
    ensures |early| + 4 + |s| <= |raw|
    ensures raw[|early|..|early| + 4] == w
    ensures raw[|early| + 4..|early| + 4 + |s|] == s
  {
    assert raw == early + w + (s + post);
    SliceMid(early, w, s + post);
    SliceMid(early + w, s, post);
  }

  lemma ConcatRoundTrip(c: Codec, strs: seq<Text>)
    requires Texts(c, strs)
    ensures ParseAll(c, Concat(strs), |strs|) == Some(strs)
  {
    ParseConcat(c, strs, []);
    assert Concat(strs) + [] == Concat(strs);
  }

  /** Text `i` is behind its length: where the ones before it end, four bytes
      say how long it is. */
  lemma {:induction false} ConcatAt(strs: seq<Text>, i: nat)
    requires i < |strs| && |strs[i]| <= U32_MAX
    ensures var at, b := |Concat(strs[..i])|, Concat(strs);
            && at + 4 + |strs[i]| <= |b|
            && FromLE(b[at..at + 4]) == |strs[i]| && b[at + 4..at + 4 + |strs[i]|] == strs[i]
    decreases |strs|
  {
    hide LE, FromLE, Concat;
    var t, s := strs[..|strs| - 1], strs[|strs| - 1];
    assert strs == t + [s];
    ConcatMore(t, s);
    if i < |t| {
      assert t[..i] == strs[..i];
      ConcatAt(t, i);
      var at, b, n := |Concat(t[..i])|, Concat(t), |strs[i]|;
      assert Concat(strs)[at..at + 4] == b[at..at + 4] && Concat(strs)[at + 4..at + 4 + n] == b[at + 4..at + 4 + n];
    } else {
      assert strs[..i] == t;
      var early, w := Concat(t), LE(|s|, 4);
      assert Concat(strs) == early + w + s + [];
      ReadOne(Concat(strs), early, w, s, []);
      WordSizes();
      WordRoundTrip(|s|, 4);
    }
  }

  lemma NextIsConcat(raw: seq<Byte>, strings: seq<Text>, at: nat, len: nat)
    requires at + 4 + len <= |raw| && raw[..at] == Concat(strings) && FromLE(raw[at..at + 4]) == len
    ensures raw[..at + 4 + len] == Concat(strings + [raw[at + 4..at + 4 + len]])
  {
    hide *;
    var early, w, s := raw[..at], raw[at..at + 4], raw[at + 4..at + 4 + len];
    WordCanonical(w);
    ConcatMore(strings, s);
    CutInThree(raw, at, at + 4, at + 4 + len);
  }

  lemma CutInThree(raw: seq<Byte>, a: nat, b: nat, c: nat)
    requires a <= b <= c <= |raw|
    ensures raw[..c] == raw[..a] + (raw[a..b] + raw[b..c])
  {
  }

  lemma ParsedNext(c: Codec, raw: seq<Byte>, p: Parsed)
    requires ParseNext(c, raw, p).Some? && p.at <= |raw| && raw[..p.at] == Concat(p.strings)
    ensures var q := ParseNext(c, raw, p).value; q.at <= |raw| && raw[..q.at] == Concat(q.strings)
  {
    hide FromLE, Concat;
    NextIsConcat(raw, p.strings, p.at, WordAt(raw, p.at, 4));
  }

  /** What parses is exactly the text behind its lengths. */
  lemma {:induction false} ParsedIsConcat(c: Codec, raw: seq<Byte>, n: nat)
    requires Parse(c, raw, n).Some?
    ensures var p := Parse(c, raw, n).value; p.at <= |raw| && raw[..p.at] == Concat(p.strings)
  {
    hide ParseNext, Concat;
    if n > 0 {
      ParsedIsConcat(c, raw, n - 1);
      ParsedNext(c, raw, Parse(c, raw, n - 1).value);
    } else {
      NothingParsed(c, raw);
    }
  }

  // ------------------------------------------------------------- the dictionary

  /** Byte order, a prefix first. */
  predicate Before(a: Text, b: Text)
    decreases |a|
  {
    if b == [] then false
    else if a == [] then true
    else a[0] < b[0] || (a[0] == b[0] && Before(a[1..], b[1..]))
  }

  lemma {:induction false} BeforeTotal(a: Text, b: Text)
    ensures Before(a, b) || a == b || Before(b, a)
    decreases |a|
  {
    if a != [] && b != [] && a[0] == b[0] {
      BeforeTotal(a[1..], b[1..]);
      assert a == [a[0]] + a[1..] && b == [b[0]] + b[1..];
    }
  }

  /** Byte order: at the first byte where they differ the earlier has the lesser,
      or it ends there. */
  lemma {:induction false} BeforeMeans(a: Text, b: Text, k: nat)
    requires k <= |a| && k <= |b| && a[..k] == b[..k]
    requires k == |a| || k == |b| || a[k] != b[k]
    ensures Before(a, b) <==> k < |b| && (k == |a| || a[k] < b[k])
    decreases k
  {
    if k > 0 {
      assert a[0] == a[..k][0] == b[0];
      assert a[1..][..k - 1] == a[..k][1..] == b[1..][..k - 1];
      BeforeMeans(a[1..], b[1..], k - 1);
    }
  }

  lemma {:induction false} BeforeTransitive(a: Text, b: Text, d: Text)
    requires Before(a, b) && Before(b, d)
    ensures Before(a, d)
    decreases |a|
  {
    if a != [] && a[0] == b[0] && b[0] == d[0] {
      BeforeTransitive(a[1..], b[1..], d[1..]);
    }
  }

  /** Into its place in the sorted table, unless it is there. */
  function AddText(table: seq<Text>, s: Text): seq<Text> {
    if table == [] then [s]
    else
      var last := table[|table| - 1];
      if Before(last, s) then table + [s]
      else if last == s then table
      else AddText(table[..|table| - 1], s) + [last]
  }

  function Table(strs: seq<Text>): seq<Text> {
    if strs == [] then [] else AddText(Table(strs[..|strs| - 1]), strs[|strs| - 1])
  }

  ghost predicate Sorted(table: seq<Text>) {
    forall i, j | 0 <= i < j < |table| :: Before(table[i], table[j])
  }

  lemma {:induction false} AddTextKeeps(table: seq<Text>, s: Text)
    requires Sorted(table)
    ensures Sorted(AddText(table, s))
    ensures forall x :: x in AddText(table, s) <==> x in table || x == s
    ensures |AddText(table, s)| <= |table| + 1
  {
    hide Before;
    if table != [] {
      var t, last := table[..|table| - 1], table[|table| - 1];
      assert table == t + [last];
      if Before(last, s) {
        AppendSorted(table, s, last);
      } else if last != s {
        AddTextKeeps(t, s);
        BeforeTotal(last, s);
        var u := AddText(t, s);
        forall x | x in u ensures Before(x, last) {
          if x != s {
            var i :| 0 <= i < |t| && t[i] == x;
            assert table[i] == x;
          }
        }
        forall i, j | 0 <= i < j < |u + [last]| ensures Before((u + [last])[i], (u + [last])[j]) {
          if j == |u| {
            assert u[i] in u;
          }
        }
      }
    }
  }

  lemma AppendSorted(table: seq<Text>, s: Text, last: Text)
    requires Sorted(table) && table != [] && last == table[|table| - 1] && Before(last, s)
    ensures Sorted(table + [s])
  {
    hide Before;
    forall i | 0 <= i < |table| ensures Before(table[i], s) {
      if i < |table| - 1 {
        BeforeTransitive(table[i], last, s);
      }
    }
  }

  /** Sorted, each string once, and exactly the strings there are. */
  lemma {:induction false} TableShape(strs: seq<Text>)
    ensures Sorted(Table(strs)) && |Table(strs)| <= |strs|
    ensures forall x :: x in Table(strs) <==> x in strs
  {
    hide Before, AddText;
    if strs != [] {
      var t, s := strs[..|strs| - 1], strs[|strs| - 1];
      assert strs == t + [s];
      TableShape(t);
      AddTextKeeps(Table(t), s);
    }
  }

  function CodeOf(table: seq<Text>, s: Text): (k: nat)
    requires s in table
    ensures k < |table| && table[k] == s
  {
    if table[|table| - 1] == s then |table| - 1
    else
      assert s in table[..|table| - 1];
      CodeOf(table[..|table| - 1], s)
  }

  function Codes(table: seq<Text>, strs: seq<Text>): (codes: seq<nat>)
    requires forall s | s in strs :: s in table
    ensures |codes| == |strs|
  {
    if strs == [] then []
    else
      var t, s := strs[..|strs| - 1], strs[|strs| - 1];
      assert s in strs && forall x | x in t :: x in strs;
      Codes(table, t) + [CodeOf(table, s)]
  }

  /** Text by code. */
  function Lookup(table: seq<Text>, codes: seq<nat>): (out: seq<Text>)
    requires forall k | k in codes :: k < |table|
    ensures |out| == |codes|
  {
    if codes == [] then []
    else
      var t, k := codes[..|codes| - 1], codes[|codes| - 1];
      assert k in codes && forall x | x in t :: x in codes;
      Lookup(table, t) + [table[k]]
  }

  lemma {:induction false} LookupCodes(table: seq<Text>, strs: seq<Text>)
    requires forall s | s in strs :: s in table
    ensures (forall k | k in Codes(table, strs) :: k < |table|) && Lookup(table, Codes(table, strs)) == strs
  {
    hide CodeOf;
    if strs != [] {
      var t, s := strs[..|strs| - 1], strs[|strs| - 1];
      assert strs == t + [s] && s in strs && forall x | x in t :: x in strs;
      LookupCodes(table, t);
      var codes := Codes(table, t);
      assert (codes + [CodeOf(table, s)])[..|codes|] == codes;
    }
  }

  /** Pairs of a u32 length and a u32 code. */
  function CodeBytes(runs: seq<Run<nat>>): (b: seq<Byte>)
    ensures |b| == 8 * |runs|
  {
    if runs == [] then []
    else CodeBytes(runs[..|runs| - 1]) + (LE(runs[|runs| - 1].len, 4) + LE(runs[|runs| - 1].val, 4))
  }

  function CodesIn(b: seq<Byte>, n: nat): (runs: seq<Run<nat>>)
    requires 8 * n <= |b|
    ensures |runs| == n
  {
    if n == 0 then []
    else CodesIn(b, n - 1) + [Run(WordAt(b, 8 * (n - 1), 4), WordAt(b, 8 * (n - 1) + 4, 4))]
  }

  /** Run `i`: its length in four bytes from `8 * i` on, its code in the next
      four. */
  lemma {:induction false} CodesAt(b: seq<Byte>, n: nat, i: nat)
    requires 8 * n <= |b| && i < n
    ensures CodesIn(b, n)[i] == Run(FromLE(b[8 * i..8 * i + 4]), FromLE(b[8 * i + 4..8 * i + 8]))
    decreases n
  {
    hide FromLE;
    if i < n - 1 {
      CodesAt(b, n - 1, i);
    }
  }

  lemma {:induction false} CodesPrefix(a: seq<Byte>, b: seq<Byte>, n: nat)
    requires 8 * n <= |a|
    ensures CodesIn(a + b, n) == CodesIn(a, n)
  {
    hide FromLE;
    if n > 0 {
      CodesPrefix(a, b, n - 1);
      var at := 8 * (n - 1);
      assert (a + b)[at..at + 4] == a[at..at + 4];
      assert (a + b)[at + 4..at + 8] == a[at + 4..at + 8];
    }
  }

  lemma {:induction false} CodesRoundTrip(runs: seq<Run<nat>>)
    requires forall r | r in runs :: r.len <= U32_MAX && r.val <= U32_MAX
    ensures CodesIn(CodeBytes(runs), |runs|) == runs
  {
    hide LE, WordAt;
    if runs != [] {
      var t, r := runs[..|runs| - 1], runs[|runs| - 1];
      assert runs == t + [r] && r in runs && forall x | x in t :: x in runs;
      CodesRoundTrip(t);
      var a, v, w := CodeBytes(t), LE(r.len, 4), LE(r.val, 4);
      CodesPrefix(a, v + w, |t|);
      assert CodeBytes(runs) == a + (v + w);
      PairAt(a, r);
    }
  }

  lemma PairAt(a: seq<Byte>, r: Run<nat>)
    requires r.len <= U32_MAX && r.val <= U32_MAX
    ensures var b := a + (LE(r.len, 4) + LE(r.val, 4));
            WordAt(b, |a|, 4) == r.len && WordAt(b, |a| + 4, 4) == r.val
  {
    hide LE, FromLE;
    var v, w := LE(r.len, 4), LE(r.val, 4);
    var b := a + (v + w);
    assert b == a + v + w + [];
    ReadOne(b, a, v, w, []);
    WordSizes();
    WordRoundTrip(r.len, 4);
    WordRoundTrip(r.val, 4);
  }

  // ------------------------------------------------------------------- encoding

  predicate DictWorthy(strs: seq<Text>) {
    var n := if |strs| < SAMPLE_LEN then |strs| else SAMPLE_LEN;
    |Table(strs[..n])| * 8 <= n
  }

  function DictPayload(c: Codec, strs: seq<Text>): Option<seq<Byte>> {
    TableShape(strs);
    var table := Table(strs);
    var dict, codes := c.compress(Concat(table)), c.compress(CodeBytes(RunsOf<nat>(Codes(table, strs))));
    if |table| > U32_MAX || |dict| > U32_MAX then None
    else Some(LE(|table|, 4) + LE(|dict|, 4) + dict + codes)
  }

  /** `encode_str`. */
  function EncodeStr(c: Codec, strs: seq<Text>): Option<Column> {
    if strs == [] then Some(Column(ENC_STR_ZSTD, c.compress([])))
    else if exists s :: s in strs && |s| > U32_MAX then None
    else if DictWorthy(strs) then
      match DictPayload(c, strs)
      case None => None
      case Some(p) => Some(Column(ENC_STR_DICT, p))
    else Some(Column(ENC_STR_ZSTD, c.compress(Concat(strs))))
  }

  // ------------------------------------------------------------------- decoding

  /** The dictionary and the runs of a payload, as they are before they are
      held to `n` rows. */
  datatype Dict = Dict(table: seq<Text>, runs: seq<Run<nat>>)

  /** The table and the codes, each inflated. */
  function Halves(c: Codec, count: nat, dict: seq<Byte>, codes: seq<Byte>): Option<Dict> {
    match Inflate(c, dict, DECOMPRESS_MAX_BYTES)
    case None => None
    case Some(raw) =>
      match ParseAll(c, raw, count)
      case None => None
      case Some(table) =>
        match Inflate(c, codes, DECOMPRESS_MAX_BYTES)
        case None => None
        case Some(b) => if |b| % 8 != 0 then None else Some(Dict(table, CodesIn(b, |b| / 8)))
  }

  function ReadDict(c: Codec, payload: seq<Byte>): Option<Dict> {
    if |payload| < 8 || |payload| < 8 + WordAt(payload, 4, 4) then None
    else
      var count, len := WordAt(payload, 0, 4), WordAt(payload, 4, 4);
      Halves(c, count, payload[8..8 + len], payload[8 + len..])
  }

  predicate InTable(d: Dict) {
    forall r | r in d.runs :: r.val < |d.table|
  }

  lemma {:induction false} ExpandVals(runs: seq<Run<nat>>, bound: nat)
    requires forall r | r in runs :: r.val < bound
    ensures forall k | k in Expand<nat>(runs) :: k < bound
  {
    if runs != [] {
      var t, r := runs[..|runs| - 1], runs[|runs| - 1];
      assert r in runs && forall x | x in t :: x in runs;
      ExpandVals(t, bound);
      RepeatVals(r.val, r.len);
    }
  }

  lemma {:induction false} RepeatVals(v: nat, n: nat)
    ensures forall k | k in Repeat<nat>(v, n) :: k == v
  {
    if n > 0 {
      RepeatVals(v, n - 1);
    }
  }

  function RowsOf(d: Dict, n: nat): Option<seq<Text>> {
    if !InTable(d) then None
    else
      match ExpandTo<nat>(d.runs, n)
      case None => None
      case Some(codes) =>
        ExpandVals(d.runs, |d.table|);
        Some(Lookup(d.table, codes))
  }

  /** `decode_str`. */
  function DecodeStr(c: Codec, bytes: seq<Byte>, n: nat): Option<seq<Text>> {
    match ReadFrame(bytes)
    case None => None
    case Some(col) =>
      if col.encoding == ENC_STR_ZSTD then
        match Inflate(c, col.payload, DECOMPRESS_MAX_BYTES)
        case None => None
        case Some(raw) => ParseAll(c, raw, n)
      else if col.encoding == ENC_STR_DICT then
        match ReadDict(c, col.payload)
        case None => None
        case Some(d) => RowsOf(d, n)
      else None
  }

  /** A dictionary is written if and only if, in the first 65536 strings, at most
      one in eight is a new one. */
  lemma DictIff(c: Codec, strs: seq<Text>)
    requires strs != [] && EncodeStr(c, strs).Some?
    ensures var n := if |strs| < 65536 then |strs| else 65536;
            (EncodeStr(c, strs).value.encoding == 5 <==> 8 * |set s | s in strs[..n]| <= n)
    ensures EncodeStr(c, strs).value.encoding == 5 || EncodeStr(c, strs).value.encoding == 6
  {
    hide DictPayload, Concat;
    var n := if |strs| < 65536 then |strs| else 65536;
    TableCount(strs[..n]);
  }

  lemma TableCount(strs: seq<Text>)
    ensures |Table(strs)| == |set s | s in strs|
  {
    hide Table, Before;
    var table := Table(strs);
    TableShape(strs);
    assert (set s | s in strs) == (set s | s in table);
    forall i, j | 0 <= i < j < |table| ensures table[i] != table[j] {
      NotBeforeItself(table[i]);
    }
    DistinctSize(table);
  }

  lemma {:induction false} NotBeforeItself(a: Text)
    ensures !Before(a, a)
  {
    if a != [] {
      NotBeforeItself(a[1..]);
    }
  }

  lemma {:induction false} DistinctSize(table: seq<Text>)
    requires forall i, j | 0 <= i < j < |table| :: table[i] != table[j]
    ensures |set s | s in table| == |table|
  {
    if table != [] {
      var t, last := table[..|table| - 1], table[|table| - 1];
      DistinctSize(t);
      assert table == t + [last];
      assert (set s | s in table) == (set s | s in t) + {last};
    }
  }

  /** The payload of a dictionary: how many strings, how long the compressed table
      is, the table, the codes. */
  lemma DictLayout(c: Codec, strs: seq<Text>)
    requires DictPayload(c, strs).Some?
    ensures var p, dict := DictPayload(c, strs).value, c.compress(Concat(Table(strs)));
            && |p| >= 8 + |dict|
            && FromLE(p[0..4]) == |Table(strs)| && FromLE(p[4..8]) == |dict| && p[8..8 + |dict|] == dict
  {
    hide LE, FromLE, Concat, CodeBytes, Table;
    var p, dict := DictPayload(c, strs).value, c.compress(Concat(Table(strs)));
    var a, b := LE(|Table(strs)|, 4), LE(|dict|, 4);
    assert p[0..4] == a && p[4..8] == b && p[8..8 + |dict|] == dict;
    WordSizes();
    WordRoundTrip(|Table(strs)|, 4);
    WordRoundTrip(|dict|, 4);
  }

  // ----------------------------------------------------------------- round trip

  /** What the reader will inflate: the text, or the table and the codes. */
  predicate WithinCaps(strs: seq<Text>) {
    if strs == [] then true
    else if DictWorthy(strs) then
      TableShape(strs);
      && |Concat(Table(strs))| <= DECOMPRESS_MAX_BYTES
      && |CodeBytes(RunsOf<nat>(Codes(Table(strs), strs)))| <= DECOMPRESS_MAX_BYTES
    else |Concat(strs)| <= DECOMPRESS_MAX_BYTES
  }

  lemma DictParts(p: seq<Byte>, q: seq<Byte>, dict: seq<Byte>, codes: seq<Byte>)
    requires |p| == 4 && |q| == 4
    ensures var b := p + q + dict + codes;
            b[0..4] == p && b[4..8] == q && b[8..8 + |dict|] == dict && b[8 + |dict|..] == codes
  {
  }

  lemma RunVals(values: seq<nat>, bound: nat)
    requires forall v | v in values :: v < bound
    ensures forall r | r in RunsOf<nat>(values) :: r.val < bound
    decreases |values|
  {
    if values != [] {
      var t, v := values[..|values| - 1], values[|values| - 1];
      assert v in values && forall x | x in t :: x in values;
      RunVals(t, bound);
    }
  }

  /** What a reader makes of the two halves of a payload. */
  lemma ReadHalves(c: Codec, count: nat, dict: seq<Byte>, codes: seq<Byte>)
    requires count <= U32_MAX && |dict| <= U32_MAX
    ensures ReadDict(c, LE(count, 4) + LE(|dict|, 4) + dict + codes) == Halves(c, count, dict, codes)
  {
    hide LE, FromLE, CodesIn, ParseAll, Inflate;
    DictParts(LE(count, 4), LE(|dict|, 4), dict, codes);
    WordSizes();
    WordRoundTrip(count, 4);
    WordRoundTrip(|dict|, 4);
  }

  lemma HalvesRead(c: Codec, table: seq<Text>, runs: seq<Run<nat>>)
    requires Lossless(c) && Texts(c, table) && forall r | r in runs :: r.len <= U32_MAX && r.val <= U32_MAX
    ensures Halves(c, |table|, c.compress(Concat(table)), c.compress(CodeBytes(runs))) ==
            if |Concat(table)| <= DECOMPRESS_MAX_BYTES && |CodeBytes(runs)| <= DECOMPRESS_MAX_BYTES
            then Some(Dict(table, runs)) else None
  {
    hide Concat, CodeBytes, CodesIn, ParseAll, Inflate, Lossless;
    InflateCompressed(c, Concat(table), DECOMPRESS_MAX_BYTES);
    InflateCompressed(c, CodeBytes(runs), DECOMPRESS_MAX_BYTES);
    ConcatRoundTrip(c, table);
    CodesRoundTrip(runs);
  }

  lemma ReadDictPayload(c: Codec, strs: seq<Text>)
    requires Lossless(c) && Texts(c, strs) && DictPayload(c, strs).Some?
    ensures (forall s | s in strs :: s in Table(strs))
    ensures var table := Table(strs);
            var runs := RunsOf<nat>(Codes(table, strs));
            ReadDict(c, DictPayload(c, strs).value) ==
            if |Concat(table)| <= DECOMPRESS_MAX_BYTES && |CodeBytes(runs)| <= DECOMPRESS_MAX_BYTES
            then Some(Dict(table, runs)) else None
  {
    hide LE, Concat, CodeBytes, Codes, RunsOf, Table, Halves, ReadDict, Lossless, Expand;
    TableShape(strs);
    var table := Table(strs);
    var codes := Codes(table, strs);
    var runs := RunsOf<nat>(codes);
    ReadHalves(c, |table|, c.compress(Concat(table)), c.compress(CodeBytes(runs)));
    LookupCodes(table, strs);
    RunVals(codes, |table|);
    ExpandRuns<nat>(codes);
    assert Texts(c, table);
    HalvesRead(c, table, runs);
  }

  lemma DictRows(strs: seq<Text>)
    ensures (forall s | s in strs :: s in Table(strs))
    ensures RowsOf(Dict(Table(strs), RunsOf<nat>(Codes(Table(strs), strs))), |strs|) == Some(strs)
  {
    hide Table, Codes, RunsOf, Lookup, Expand;
    TableShape(strs);
    var table := Table(strs);
    var codes := Codes(table, strs);
    LookupCodes(table, strs);
    RunVals(codes, |table|);
    ExpandRuns<nat>(codes);
  }

  /** A string column that was encoded and framed comes back if and only if what
      has to be inflated is within the 64 MiB a read allows. */
  lemma StrRoundTrip(c: Codec, strs: seq<Text>)
    requires Lossless(c) && forall s | s in strs :: c.utf8(s)
    requires EncodeStr(c, strs).Some? && ToBytes(EncodeStr(c, strs).value).Some?
    ensures DecodeStr(c, ToBytes(EncodeStr(c, strs).value).value, |strs|) == Some(strs) <==> WithinCaps(strs)
  {
    hide Concat, CodeBytes, CodesIn, RunsOf, Table, ParseAll, ReadDict, RowsOf, DictPayload, ToBytes, ReadFrame,
      DictWorthy, Lossless, Inflate;
    var col := EncodeStr(c, strs).value;
    FrameRoundTrip(col);
    if strs == [] {
      InflateCompressed(c, [], DECOMPRESS_MAX_BYTES);
      NoStrings(c);
    } else {
      assert Texts(c, strs);
      if DictWorthy(strs) {
        ReadDictPayload(c, strs);
        DictRows(strs);
      } else {
        InflateCompressed(c, Concat(strs), DECOMPRESS_MAX_BYTES);
        ConcatRoundTrip(c, strs);
      }
    }
  }

  /** One string three bytes short of 64 MiB: its length in front makes it one
      byte too many. */
  function LongText(): (s: Text)
    ensures |s| == DECOMPRESS_MAX_BYTES - 3
  {
    seq(DECOMPRESS_MAX_BYTES - 3, _ => 0)
  }

  lemma LongTextIsLost(c: Codec)
    requires Lossless(c) && c.utf8(LongText()) && |c.compress(Concat([LongText()]))| <= U32_MAX
    ensures EncodeStr(c, [LongText()]).Some? && ToBytes(EncodeStr(c, [LongText()]).value).Some?
    ensures DecodeStr(c, ToBytes(EncodeStr(c, [LongText()]).value).value, 1) != Some([LongText()])
  {
    hide LongText, LE, Lossless, DecodeStr;
    var s := LongText();
    var strs: seq<Text> := [s];
    ConcatMore([], s);
    assert [] + strs == strs;
    assert |Concat(strs)| == |Concat([])| + (4 + |s|);
    assert strs[..1] == strs && strs[..0] == [];
    assert Table(strs) == AddText(Table([]), s) == strs;
    StrRoundTrip(c, strs);
  }

  lemma NoStrings(c: Codec)
    ensures ParseAll(c, [], 0) == Some([])
  {
  }
}
