/** The loops over string columns: building the dictionary, reading every row
    back, and reading only the rows asked for without building the others. */
module StringDecode {
  import opened Sequences
  import opened Bytes
  import opened ColumnCodec
  import opened StringColumn

  // ------------------------------------------------------------------- encoding

  /** The sorted table of the distinct strings. */
  method BuildTable(strs: seq<Text>) returns (table: seq<Text>)
    ensures table == Table(strs)
  {
    table := [];
    for i := 0 to |strs|
      invariant table == Table(strs[..i])
    {
      assert strs[..i + 1][..i] == strs[..i];
      table := AddText(table, strs[i]);
    }
    assert strs[..|strs|] == strs;
  }

  method EncodeStrColumn(c: Codec, strs: seq<Text>) returns (o: Option<Column>)
    ensures o == EncodeStr(c, strs)
  {
    hide Table, Concat, CodeBytes, Codes, CodeOf, AddText;
    if strs == [] {
      return Some(Column(ENC_STR_ZSTD, c.compress([])));
    }
    for i := 0 to |strs|
      invariant forall s | s in strs[..i] :: |s| <= U32_MAX
    {
      if |strs[i]| > U32_MAX {
        assert strs[i] in strs;
        return None;
      }
      assert strs[..i + 1] == strs[..i] + [strs[i]];
    }
    assert strs[..|strs|] == strs;
    var n := if |strs| < SAMPLE_LEN then |strs| else SAMPLE_LEN;
    var distinct := BuildTable(strs[..n]);
    if |distinct| * 8 > n {
      return Some(Column(ENC_STR_ZSTD, c.compress(Concat(strs))));
    }
    var table := BuildTable(strs);
    TableShape(strs);
    if |table| > U32_MAX {
      return None;
    }
    var runs := CollectRuns<nat>(Codes(table, strs));
    var dict, codes := c.compress(Concat(table)), c.compress(CodeBytes(runs));
    o := if |dict| > U32_MAX then None
    else Some(Column(ENC_STR_DICT, LE(|table|, 4) + LE(|dict|, 4) + dict + codes));
  }

  // -------------------------------------------------------------------- reading

  /** Exactly `n` strings; a count the bytes cannot hold is refused first. */
  method ReadTexts(c: Codec, raw: seq<Byte>, n: nat) returns (o: Option<seq<Text>>)
    ensures o == ParseAll(c, raw, n)
  {
    hide FromLE;
    ParseShape(c, raw, n);
    if 4 * n > |raw| {
      return None;
    }
    var r := new Reader(raw);
    var out: seq<Text> := [];
    for i := 0 to n
      invariant r.Valid() && r.buf == raw && Parse(c, raw, i) == Some(Parsed(out, r.pos))
    {
      var s := NextText(c, r, out);
      if s.None? {
        ParseStops(c, raw, i + 1, n);
        return None;
      }
      out := out + [s.value];
    }
    o := if r.Remaining() != 0 then None else Some(out);
  }

  /** A length, then as many bytes, which have to be text. */
  method NextText(c: Codec, r: Reader, ghost before: seq<Text>) returns (o: Option<Text>)
    requires r.Valid()
    modifies r`pos
    ensures r.Valid()
    ensures var next := ParseNext(c, r.buf, Parsed(before, old(r.pos)));
            if o.None? then next.None? else next == Some(Parsed(before + [o.value], r.pos))
  {
    hide FromLE;
    var len := r.U32();
    if len.None? {
      return None;
    }
    var b := r.Take(len.value);
    if b.None? || !c.utf8(b.value) {
      return None;
    }
    o := b;
  }

  method ReadDictionary(c: Codec, payload: seq<Byte>) returns (o: Option<Dict>)
    ensures o == ReadDict(c, payload)
  {
    hide FromLE, CodesIn, ParseAll, Inflate;
    var r := new Reader(payload);
    var count := r.U32();
    if count.None? {
      return None;
    }
    var len := r.U32();
    if len.None? {
      return None;
    }
    var dict := r.Take(len.value);
    if dict.None? {
      return None;
    }
    var rest := r.Take(r.Remaining());
    assert rest.value == payload[8 + len.value..];
    var raw := Inflate(c, dict.value, DECOMPRESS_MAX_BYTES);
    if raw.None? {
      return None;
    }
    var table := ReadTexts(c, raw.value, count.value);
    if table.None? {
      return None;
    }
    var codes := Inflate(c, rest.value, DECOMPRESS_MAX_BYTES);
    if codes.None? || |codes.value| % 8 != 0 {
      return None;
    }
    o := Some(Dict(table.value, CodesIn(codes.value, |codes.value| / 8)));
  }

  // ------------------------------------------------------------- rows from runs

  /** The rows the first `i` runs stand for. */
  ghost function RowsTo(d: Dict, i: nat): (rows: seq<Text>)
    requires i <= |d.runs| && InTable(d)
  {
    assert forall r | r in d.runs[..i] :: r in d.runs;
    ExpandVals(d.runs[..i], |d.table|);
    Lookup(d.table, Expand<nat>(d.runs[..i]))
  }

  lemma {:induction false} LookupRepeat(table: seq<Text>, codes: seq<nat>, k: nat, n: nat)
    requires k < |table| && forall x | x in codes :: x < |table|
    ensures forall x | x in codes + Repeat<nat>(k, n) :: x < |table|
    ensures Lookup(table, codes + Repeat<nat>(k, n)) == Lookup(table, codes) + Repeat(table[k], n)
    decreases n
  {
    hide Lookup;
    RepeatVals(k, n);
    var got, text := Lookup(table, codes), table[k];
    if n == 0 {
      assert codes + Repeat<nat>(k, 0) == codes;
      assert got + Repeat(text, 0) == got;
    } else {
      hide Repeat;
      LookupRepeat(table, codes, k, n - 1);
      RepeatMore<nat>(k, n - 1);
      RepeatMore(text, n - 1);
      var more := codes + Repeat<nat>(k, n - 1);
      assert codes + Repeat<nat>(k, n) == more + [k];
      LookupMore(table, more, k);
      assert got + Repeat(text, n) == got + Repeat(text, n - 1) + [text];
    }
  }

  lemma LookupMore(table: seq<Text>, codes: seq<nat>, k: nat)
    requires k < |table| && forall x | x in codes :: x < |table|
    ensures Lookup(table, codes + [k]) == Lookup(table, codes) + [table[k]]
  {
    assert (codes + [k])[..|codes|] == codes;
  }

  lemma RowsNext(d: Dict, i: nat)
    requires i < |d.runs| && InTable(d)
    ensures d.runs[i].val < |d.table|
    ensures RowsTo(d, i + 1) == RowsTo(d, i) + Repeat(d.table[d.runs[i].val], d.runs[i].len)
  {
    hide Lookup, Expand, Repeat;
    var r := d.runs[i];
    assert r in d.runs;
    assert forall x | x in d.runs[..i] :: x in d.runs;
    ExpandVals(d.runs[..i], |d.table|);
    ExpandNext<nat>(d.runs, i);
    LookupRepeat(d.table, Expand<nat>(d.runs[..i]), r.val, r.len);
  }

  lemma RowsEnds(d: Dict)
    requires InTable(d)
    ensures RowsTo(d, 0) == []
    ensures forall n | ExpandTo<nat>(d.runs, n).Some? :: RowsOf(d, n) == Some(RowsTo(d, |d.runs|))
  {
    assert d.runs[..|d.runs|] == d.runs;
  }

  /** The first pass of `decode_str`: codes in the table, no empty run, and the
      runs together exactly `n` rows. */
  method CheckRuns(d: Dict, n: nat) returns (ok: bool)
    ensures ok == RowsOf(d, n).Some?
  {
    hide Expand, Lookup;
    var expanded := 0;
    NoRuns<nat>();
    for i := 0 to |d.runs|
      invariant expanded == |Expand<nat>(d.runs[..i])| <= n
      invariant forall r | r in d.runs[..i] :: r.val < |d.table| && r.len > 0
    {
      var r := d.runs[i];
      assert r in d.runs;
      assert d.runs[..i + 1] == d.runs[..i] + [r];
      ExpandNext<nat>(d.runs, i);
      ExpandPrefix<nat>(d.runs, i + 1);
      if r.val >= |d.table| || r.len == 0 || expanded + r.len > n {
        return false;
      }
      expanded := expanded + r.len;
    }
    assert d.runs[..|d.runs|] == d.runs;
    ok := expanded == n;
  }

  /** The second pass: every run written out. */
  method ExpandRows(d: Dict, n: nat) returns (out: seq<Text>)
    requires RowsOf(d, n).Some?
    ensures RowsOf(d, n) == Some(out)
  {
    hide RowsOf, RowsTo, ExpandTo, Expand;
    RowsSome(d, n);
    RowsEnds(d);
    out := [];
    for i := 0 to |d.runs|
      invariant out == RowsTo(d, i)
    {
      RowsNext(d, i);
      var r := d.runs[i];
      ghost var before := out;
      for k := 0 to r.len
        invariant out == before + Repeat(d.table[r.val], k)
      {
        RepeatMore(d.table[r.val], k);
        out := out + [d.table[r.val]];
      }
    }
  }

  lemma RowsSome(d: Dict, n: nat)
    requires RowsOf(d, n).Some?
    ensures InTable(d) && ExpandTo<nat>(d.runs, n).Some?
  {
  }

  /** `decode_str`, as its loops do it. */
  method DecodeStrColumn(c: Codec, bytes: seq<Byte>, n: nat) returns (o: Option<seq<Text>>)
    ensures o == DecodeStr(c, bytes, n)
  {
    hide RowsOf, ReadDict, ParseAll, Inflate, ReadFrame;
    var col := ReadColumnFrame(bytes);
    if col.None? {
      return None;
    }
    if col.value.encoding == ENC_STR_ZSTD {
      var raw := Inflate(c, col.value.payload, DECOMPRESS_MAX_BYTES);
      if raw.None? {
        return None;
      }
      o := ReadTexts(c, raw.value, n);
    } else if col.value.encoding == ENC_STR_DICT {
      var d := ReadDictionary(c, col.value.payload);
      if d.None? {
        return None;
      }
      var ok := CheckRuns(d.value, n);
      if !ok {
        return None;
      }
      var out := ExpandRows(d.value, n);
      o := Some(out);
    } else {
      o := None;
    }
  }

  // -------------------------------------------------------------- selected rows

  ghost predicate Below(selected: seq<nat>, n: nat) {
    forall i | 0 <= i < |selected| :: selected[i] < n
  }

  /** Strictly increasing, and all below `n`. */
  ghost predicate Rising(selected: seq<nat>, n: nat) {
    (forall i, j | 0 <= i < j < |selected| :: selected[i] < selected[j]) && Below(selected, n)
  }

  /** The rows at the indices given. */
  ghost function Pick(rows: seq<Text>, selected: seq<nat>): seq<Text>
    requires Below(selected, |rows|)
  {
    seq(|selected|, i requires 0 <= i < |selected| => rows[selected[i]])
  }

  lemma PickGrows(rows: seq<Text>, more: seq<Text>, selected: seq<nat>)
    requires Below(selected, |rows|)
    ensures Below(selected, |rows + more|) && Pick(rows + more, selected) == Pick(rows, selected)
  {
    var a, b := Pick(rows, selected), Pick(rows + more, selected);
    forall i | 0 <= i < |selected| ensures a[i] == b[i] {
      assert selected[i] < |rows|;
    }
  }

  lemma PickNext(rows: seq<Text>, selected: seq<nat>, at: nat)
    requires at < |selected| && selected[at] < |rows| && Below(selected[..at], |rows|)
    ensures Below(selected[..at + 1], |rows|)
    ensures Pick(rows, selected[..at + 1]) == Pick(rows, selected[..at]) + [rows[selected[at]]]
  {
    var early, more := selected[..at], selected[..at + 1];
    assert more == early + [selected[at]];
    assert Below(more, |rows|);
    var a, b := Pick(rows, early), Pick(rows, more);
    assert |a| == at && |b| == at + 1 && b[at] == rows[selected[at]];
    forall i | 0 <= i < at ensures a[i] == b[i] {
      assert early[i] == more[i];
    }
    assert b == b[..at] + [b[at]] && b[..at] == a;
  }

  /** Where a reader of rising rows stands: those before `at` are behind `row`,
      the rest are not. */
  ghost predicate Reached(selected: seq<nat>, at: nat, row: nat) {
    at <= |selected| && Below(selected[..at], row) && forall j | at <= j < |selected| :: selected[j] >= row
  }

  lemma ReachedNext(selected: seq<nat>, at: nat, row: nat)
    requires Reached(selected, at, row)
    ensures at < |selected| ==> !Below(selected, row)
  {
    assert at < |selected| ==> selected[at] >= row;
  }

  lemma ReachedEnd(selected: seq<nat>, at: nat, n: nat)
    requires Rising(selected, n) && Reached(selected, at, n)
    ensures at == |selected| && selected[..at] == selected
  {
    ReachedNext(selected, at, n);
  }

  method CheckSelection(selected: seq<nat>, n: nat) returns (ok: bool)
    ensures ok == Rising(selected, n)
  {
    for i := 0 to |selected|
      invariant forall a, b | 0 <= a < b < i :: selected[a] < selected[b]
    {
      if i > 0 && selected[i - 1] >= selected[i] {
        return false;
      }
    }
    ok := selected == [] || selected[|selected| - 1] < n;
  }

  /** Every string is read and checked; only the selected are kept. */
  method SelectTexts(c: Codec, raw: seq<Byte>, n: nat, selected: seq<nat>) returns (o: Option<seq<Text>>)
    requires Rising(selected, n)
    ensures match ParseAll(c, raw, n)
            case None => o == None
            case Some(all) => |all| == n && o == Some(Pick(all, selected))
  {
    hide ParseNext, Pick, Rising, Reached;
    var r := new Reader(raw);
    var out: seq<Text>, at := [], 0;
    ghost var seen: seq<Text> := [];
    NothingReached(selected, n);
    for row := 0 to n
      invariant r.Valid() && r.buf == raw && |seen| == row && Parse(c, raw, row) == Some(Parsed(seen, r.pos))
      invariant at <= |selected| && Reached(selected, at, row) && Below(selected[..at], |seen|) && out == Pick(seen, selected[..at])
    {
      var s := NextText(c, r, seen);
      if s.None? {
        ParseStops(c, raw, row + 1, n);
        return None;
      }
      PickGrows(seen, [s.value], selected[..at]);
      seen := seen + [s.value];
      RowStep(selected, at, row, n);
      if at < |selected| && selected[at] == row {
        PickNext(seen, selected, at);
        out, at := out + [s.value], at + 1;
      }
    }
    if r.Remaining() != 0 {
      return None;
    }
    ReachedEnd(selected, at, n);
    o := Some(out);
  }

  lemma NothingReached(selected: seq<nat>, n: nat)
    requires Rising(selected, n)
    ensures Reached(selected, 0, 0) && selected[..0] == [] && Pick([], []) == []
  {
  }

  /** One row further on. */
  lemma RowStep(selected: seq<nat>, at: nat, row: nat, n: nat)
    requires Rising(selected, n) && Reached(selected, at, row)
    ensures Below(selected[..at], row + 1)
    ensures Reached(selected, if at < |selected| && selected[at] == row then at + 1 else at, row + 1)
  {
  }

  /** Rows of one run: pushed while the next index is inside it. */
  method SelectRun(text: Text, end: nat, n: nat, selected: seq<nat>, start: nat,
      ghost row: nat, ghost rows: seq<Text>) returns (more: seq<Text>, at: nat)
    requires Rising(selected, n) && Reached(selected, start, row) && row <= end == |rows|
    requires forall k | row <= k < end :: rows[k] == text
    ensures start <= at <= |selected| && Reached(selected, at, end)
    ensures Below(selected[..start], |rows|) && Below(selected[..at], |rows|)
    ensures Pick(rows, selected[..at]) == Pick(rows, selected[..start]) + more
  {
    hide Pick;
    more, at := [], start;
    while at < |selected| && selected[at] < end
      invariant start <= at <= |selected|
      invariant Below(selected[..start], |rows|) && Below(selected[..at], |rows|)
      invariant Pick(rows, selected[..at]) == Pick(rows, selected[..start]) + more
      decreases |selected| - at
    {
      PickNext(rows, selected, at);
      more, at := more + [text], at + 1;
    }
    assert forall j | at <= j < |selected| :: selected[j] >= end by {
      if at < |selected| {
        assert forall j | at < j < |selected| :: selected[at] < selected[j];
      }
    }
  }

  method SelectRows(d: Dict, n: nat, selected: seq<nat>) returns (o: Option<seq<Text>>)
    requires Rising(selected, n)
    ensures match RowsOf(d, n)
            case None => o == None
            case Some(all) => |all| == n && o == Some(Pick(all, selected))
  {
    hide Expand, Lookup, Pick, Rising, Reached, RowsTo;
    var row, at, out := 0, 0, [];
    ghost var rows: seq<Text> := [];
    NothingReached(selected, n);
    NoRuns<nat>();
    if InTable(d) {
      RowsEnds(d);
    }
    for i := 0 to |d.runs|
      invariant row == |Expand<nat>(d.runs[..i])| <= n && row == |rows|
      invariant forall r | r in d.runs[..i] :: r.val < |d.table| && r.len > 0
      invariant InTable(d) ==> rows == RowsTo(d, i)
      invariant at <= |selected| && Reached(selected, at, row) && Below(selected[..at], |rows|) && out == Pick(rows, selected[..at])
    {
      var r := d.runs[i];
      assert r in d.runs;
      assert d.runs[..i + 1] == d.runs[..i] + [r];
      ExpandNext<nat>(d.runs, i);
      ExpandPrefix<nat>(d.runs, i + 1);
      if r.val >= |d.table| || r.len == 0 || row + r.len > n {
        return None;
      }
      var text, end := d.table[r.val], row + r.len;
      ghost var rest := Repeat(text, r.len);
      RepeatIs(text, r.len);
      PickGrows(rows, rest, selected[..at]);
      if InTable(d) {
        RowsNext(d, i);
      }
      rows := rows + rest;
      var more, next := SelectRun(text, end, n, selected, at, row, rows);
      out, at, row := out + more, next, end;
    }
    assert d.runs[..|d.runs|] == d.runs;
    if row != n {
      return None;
    }
    RowsEnds(d);
    ReachedEnd(selected, at, n);
    o := Some(out);
  }

  lemma {:induction false} RepeatIs<T>(v: T, n: nat)
    ensures forall k | 0 <= k < n :: Repeat(v, n)[k] == v
  {
    if n > 0 {
      RepeatIs(v, n - 1);
    }
  }

  /** The rows of a column at rising indices, by decoding the whole column. */
  ghost function Selected(c: Codec, bytes: seq<Byte>, n: nat, selected: seq<nat>): Option<seq<Text>> {
    match DecodeStr(c, bytes, n)
    case None => None
    case Some(all) => if |all| == n && Rising(selected, n) then Some(Pick(all, selected)) else None
  }

  /** A decoded column has the rows asked for. */
  lemma DecodedLength(c: Codec, bytes: seq<Byte>, n: nat)
    ensures DecodeStr(c, bytes, n).Some? ==> |DecodeStr(c, bytes, n).value| == n
  {
    hide Lookup, Expand, ReadDict, ReadFrame, Inflate, Parse;
    var col := ReadFrame(bytes);
    if col.Some? {
      var raw := Inflate(c, col.value.payload, DECOMPRESS_MAX_BYTES);
      if raw.Some? {
        ParseShape(c, raw.value, n);
      }
    }
  }

  /** `decode_str_selected`: fails exactly where the indices are not rising or
      decoding the whole column fails, though the rows left out are not built;
      otherwise it is the selection of the whole column. */
  method DecodeStrSelected(c: Codec, bytes: seq<Byte>, n: nat, selected: seq<nat>) returns (o: Option<seq<Text>>)
    ensures o == Selected(c, bytes, n, selected)
    ensures o.None? <==> DecodeStr(c, bytes, n).None? || !Rising(selected, n)
    ensures o.Some? ==>
              var all := DecodeStr(c, bytes, n).value;
              |all| == n && |o.value| == |selected| &&
              forall i | 0 <= i < |selected| :: selected[i] < n && o.value[i] == all[selected[i]]
  {
    hide RowsOf, ReadDict, ParseAll, Inflate, ReadFrame, Rising, Pick;
    DecodedLength(c, bytes, n);
    var ok := CheckSelection(selected, n);
    if !ok {
      return None;
    }
    var col := ReadColumnFrame(bytes);
    if col.None? {
      return None;
    }
    if col.value.encoding == ENC_STR_ZSTD {
      var raw := Inflate(c, col.value.payload, DECOMPRESS_MAX_BYTES);
      if raw.None? {
        return None;
      }
      o := SelectTexts(c, raw.value, n, selected);
    } else if col.value.encoding == ENC_STR_DICT {
      var d := ReadDictionary(c, col.value.payload);
      if d.None? {
        return None;
      }
      o := SelectRows(d.value, n, selected);
    } else {
      o := None;
    }
    if o.Some? {
      PickedAt(DecodeStr(c, bytes, n).value, selected, n);
    }
  }

  lemma PickedAt(all: seq<Text>, selected: seq<nat>, n: nat)
    requires |all| == n && Rising(selected, n)
    ensures Below(selected, |all|) && |Pick(all, selected)| == |selected|
    ensures forall i | 0 <= i < |selected| :: selected[i] < n && Pick(all, selected)[i] == all[selected[i]]
  {
  }
}
