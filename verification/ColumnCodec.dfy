/** Integer and byte columns: deltas that wrap, runs, and the choice between
    two encodings. zstd and pco are taken as lossless functions. */
module ColumnCodec {
  import opened Sequences
  import opened Bytes

  const SAMPLE_LEN: nat := 65536
  const DECOMPRESS_MAX_BYTES: nat := 67108864

  const ENC_I64_DELTA_PCO: Byte := 1
  const ENC_I64_DELTA_ZSTD: Byte := 2
  const ENC_U8_RLE: Byte := 7
  const ENC_U8_ZSTD: Byte := 8

  /** The compressors, and which bytes are text. */
  datatype Codec = Codec(
    compress: seq<Byte> -> seq<Byte>, decompress: seq<Byte> -> Option<seq<Byte>>,
    pack: seq<int> -> seq<Byte>, unpack: seq<Byte> -> Option<seq<int>>,
    utf8: seq<Byte> -> bool)

  ghost predicate AllI64(values: seq<int>) {
    forall v | v in values :: IsI64(v)
  }

  ghost predicate Lossless(c: Codec) {
    && (forall x :: c.decompress(c.compress(x)) == Some(x))
    && (forall v | AllI64(v) :: c.unpack(c.pack(v)) == Some(v))
    && (forall b | c.unpack(b).Some? :: AllI64(c.unpack(b).value))
  }

  /** Output past the cap is an error. */
  function Inflate(c: Codec, data: seq<Byte>, cap: nat): Option<seq<Byte>> {
    match c.decompress(data)
    case None => None
    case Some(x) => if |x| <= cap then Some(x) else None
  }

  lemma InflateCompressed(c: Codec, x: seq<Byte>, cap: nat)
    requires Lossless(c)
    ensures Inflate(c, c.compress(x), cap) == if |x| <= cap then Some(x) else None
  {
    assert c.decompress(c.compress(x)) == Some(x);
  }

  // -------------------------------------------------------------------- deltas

  function Last(s: seq<int>): int {
    if s == [] then 0 else s[|s| - 1]
  }

  function Deltas(values: seq<int>): seq<int> {
    if values == [] then []
    else
      var t := values[..|values| - 1];
      Deltas(t) + [Wrap(values[|values| - 1] - Last(t))]
  }

  function Sums(deltas: seq<int>): seq<int> {
    if deltas == [] then []
    else
      var t := Sums(deltas[..|deltas| - 1]);
      t + [Wrap(Last(t) + deltas[|deltas| - 1])]
  }

  lemma DeltasMore(t: seq<int>, v: int)
    ensures Deltas(t + [v]) == Deltas(t) + [Wrap(v - Last(t))]
  {
    assert (t + [v])[..|t|] == t;
  }

  lemma SumsMore(t: seq<int>, d: int)
    ensures Sums(t + [d]) == Sums(t) + [Wrap(Last(Sums(t)) + d)]
  {
    assert (t + [d])[..|t|] == t;
  }

  lemma {:induction false} SumsOfDeltas(values: seq<int>)
    requires AllI64(values)
    ensures |Deltas(values)| == |values| && AllI64(Deltas(values)) && Sums(Deltas(values)) == values
  {
    hide Wrap, Deltas, Sums;
    if values == [] {
      NoDeltas();
    } else {
      var t, v := values[..|values| - 1], values[|values| - 1];
      assert values == t + [v] && v in values;
      assert AllI64(t) && IsI64(Last(t)) by {
        assert forall x | x in t :: x in values;
        assert t != [] ==> t[|t| - 1] in t;
      }
      SumsOfDeltas(t);
      DeltasMore(t, v);
      SumsMore(Deltas(t), Wrap(v - Last(t)));
      WrapInverse(v, Last(t));
    }
  }

  /** The first value stands for itself, every other for its distance from the
      one before. */
  lemma {:induction false} DeltasAt(values: seq<int>, i: nat)
    requires AllI64(values) && i < |values|
    ensures |Deltas(values)| == |values|
    ensures Deltas(values)[i] == if i == 0 then values[0] else Wrap(values[i] - values[i - 1])
    decreases |values|
  {
    hide Wrap, Deltas, Sums, AllI64;
    var t, v := values[..|values| - 1], values[|values| - 1];
    assert values == t + [v];
    AllI64Parts(t, v);
    SumsOfDeltas(t);
    DeltasMore(t, v);
    if i < |t| {
      DeltasAt(t, i);
    } else if i == 0 {
      WrapMeaning(v, v);
    }
  }

  lemma AllI64Parts(t: seq<int>, v: int)
    requires AllI64(t + [v])
    ensures AllI64(t) && IsI64(v)
  {
    assert v in t + [v] && forall x | x in t :: x in t + [v];
  }

  /** The deltas before `n`, added up. */
  function Total(deltas: seq<int>, n: nat): int
    requires n <= |deltas|
  {
    if n == 0 then 0 else Total(deltas, n - 1) + deltas[n - 1]
  }

  lemma {:induction false} TotalPrefix(deltas: seq<int>, m: nat, n: nat)
    requires n <= m <= |deltas|
    ensures Total(deltas[..m], n) == Total(deltas, n)
    decreases n
  {
    if n > 0 {
      TotalPrefix(deltas, m, n - 1);
    }
  }

  /** Each value is the sum of the deltas so far. */
  lemma {:induction false} SumsAt(deltas: seq<int>, i: nat)
    requires i < |deltas|
    ensures |Sums(deltas)| == |deltas|
    ensures Sums(deltas)[i] == Wrap(Total(deltas, i + 1))
    decreases |deltas|
  {
    hide Wrap;
    var n := |deltas| - 1;
    var t := deltas[..n];
    if n == 0 {
      assert t == [] && Total(deltas, 0) == 0;
    } else {
      SumsAt(t, if i < n then i else n - 1);
      TotalPrefix(deltas, n, if i < n then i + 1 else n);
      if i == n {
        WrapAdds(Total(deltas, n), deltas[n]);
      }
    }
  }

  lemma NoDeltas()
    ensures Deltas([]) == [] && Sums([]) == []
  {
  }

  function BitsOf(values: seq<int>): (b: seq<nat>)
    requires forall v | v in values :: IsI64(v)
    ensures |b| == |values|
  {
    if values == [] then []
    else
      var t, last := values[..|values| - 1], values[|values| - 1];
      assert last in values && forall v | v in t :: v in values;
      BitsOf(t) + [ToBits(last)]
  }

  function OfBits(bits: seq<nat>): seq<int>
    requires forall b | b in bits :: b < U64_COUNT
  {
    if bits == [] then []
    else
      var t, last := bits[..|bits| - 1], bits[|bits| - 1];
      assert last in bits && forall b | b in t :: b in bits;
      OfBits(t) + [FromBits(last)]
  }

  lemma {:induction false} OfBitsOf(values: seq<int>)
    requires AllI64(values)
    ensures (forall b | b in BitsOf(values) :: b < U64_COUNT) && OfBits(BitsOf(values)) == values
  {
    if values != [] {
      var t, v := values[..|values| - 1], values[|values| - 1];
      assert values == t + [v] && v in values;
      assert forall x | x in t :: x in values;
      OfBitsOf(t);
      BitsRoundTrip(v);
      var bits := BitsOf(t);
      assert (bits + [ToBits(v)])[..|bits|] == bits;
    }
  }

  /** `i64s_to_le_bytes`. */
  function I64Bytes(values: seq<int>): seq<Byte>
    requires AllI64(values)
  {
    Words(BitsOf(values), 8)
  }

  lemma {:induction false} WordsBelow(b: seq<Byte>, at: nat, n: nat)
    requires at + 8 * n <= |b|
    ensures forall w | w in ReadWords(b, at, 8, n) :: w < U64_COUNT
    decreases n
  {
    hide FromLE;
    if n > 0 {
      WordsBelow(b, at, n - 1);
      WordSizes();
      WordBelow(b[at + 8 * (n - 1)..at + 8 * (n - 1) + 8]);
    }
  }

  function I64sAt(b: seq<Byte>, n: nat): seq<int>
    requires 8 * n <= |b|
  {
    WordsBelow(b, 0, n);
    OfBits(ReadWords(b, 0, 8, n))
  }

  lemma {:induction false} OfBitsAt(bits: seq<nat>, i: nat)
    requires (forall b | b in bits :: b < U64_COUNT) && i < |bits|
    ensures bits[i] < U64_COUNT && |OfBits(bits)| == |bits| && OfBits(bits)[i] == FromBits(bits[i])
    decreases |bits|
  {
    var t, last := bits[..|bits| - 1], bits[|bits| - 1];
    assert forall b | b in t :: b in bits;
    assert bits[i] in bits && last in bits;
    if |t| > 0 {
      OfBitsAt(t, if i < |t| then i else 0);
    }
  }

  /** Value `i` is the eight bytes from `8 * i` on, modulo 2^64. */
  lemma I64sMeaning(b: seq<Byte>, n: nat, i: nat)
    requires 8 * n <= |b| && i < n
    ensures |I64sAt(b, n)| == n && IsI64(I64sAt(b, n)[i])
    ensures (I64sAt(b, n)[i] - FromLE(b[8 * i..8 * i + 8])) % 0x1_0000_0000_0000_0000 == 0
  {
    hide FromLE, ReadWords, OfBits;
    WordsBelow(b, 0, n);
    var words := ReadWords(b, 0, 8, n);
    OfBitsAt(words, i);
    ReadWordsAt(b, 0, 8, n, i);
    assert words[i] in words;
  }

  lemma I64BytesRoundTrip(values: seq<int>)
    requires AllI64(values)
    ensures |I64Bytes(values)| == 8 * |values| && I64sAt(I64Bytes(values), |values|) == values
  {
    hide FromLE, LE, Words, ReadWords;
    OfBitsOf(values);
    WordSizes();
    var bits := BitsOf(values);
    WordsRoundTrip(bits, 8, [], []);
    assert [] + Words(bits, 8) + [] == Words(bits, 8);
  }

  // --------------------------------------------------------------- i64 columns

  /** `encode_i64`: the smaller of the two encodings on a sample decides. */
  function EncodeI64(c: Codec, values: seq<int>): Column
    requires AllI64(values)
  {
    if values == [] then Column(ENC_I64_DELTA_ZSTD, c.compress([]))
    else
      SumsOfDeltas(values);
      var ds := Deltas(values);
      var n := if |ds| < SAMPLE_LEN then |ds| else SAMPLE_LEN;
      assert forall v | v in ds[..n] :: v in ds;
      if |c.pack(ds[..n])| < |c.compress(I64Bytes(ds[..n]))| then Column(ENC_I64_DELTA_PCO, c.pack(ds))
      else Column(ENC_I64_DELTA_ZSTD, c.compress(I64Bytes(ds)))
  }

  /** The deltas a payload holds, exactly `n` of them. */
  function DeltasIn(c: Codec, col: Column, n: nat): Option<seq<int>> {
    if col.encoding == ENC_I64_DELTA_PCO then
      match c.unpack(col.payload)
      case None => None
      case Some(ds) => if |ds| == n then Some(ds) else None
    else if col.encoding == ENC_I64_DELTA_ZSTD then
      match Inflate(c, col.payload, 8 * n)
      case None => None
      case Some(raw) => if |raw| == 8 * n then Some(I64sAt(raw, n)) else None
    else None
  }

  function DecodeI64(c: Codec, bytes: seq<Byte>, n: nat): Option<seq<int>> {
    match ReadFrame(bytes)
    case None => None
    case Some(col) =>
      match DeltasIn(c, col, n)
      case None => None
      case Some(ds) => Some(Sums(ds))
  }

  /** Every i64 column that fits its frame comes back. */
  lemma I64RoundTrip(c: Codec, values: seq<int>)
    requires Lossless(c) && AllI64(values)
    ensures var col := EncodeI64(c, values);
            ToBytes(col).Some? ==> DecodeI64(c, ToBytes(col).value, |values|) == Some(values)
  {
    hide I64Bytes, I64sAt, Deltas, Sums, ToBytes, ReadFrame;
    var col := EncodeI64(c, values);
    SumsOfDeltas(values);
    if ToBytes(col).Some? {
      FrameRoundTrip(col);
      if values == [] {
        InflateCompressed(c, [], 0);
        NoI64s();
      } else {
        var ds := Deltas(values);
        I64BytesRoundTrip(ds);
        InflateCompressed(c, I64Bytes(ds), 8 * |ds|);
      }
    }
  }

  /** Of up to 65536 values the smaller of the two encodings is kept, zstd if
      they are as small. */
  lemma I64IsSmaller(c: Codec, values: seq<int>)
    requires AllI64(values) && 0 < |values| <= 65536
    ensures AllI64(Deltas(values))
    ensures var col := EncodeI64(c, values);
            var pco, zstd := c.pack(Deltas(values)), c.compress(I64Bytes(Deltas(values)));
            && |col.payload| <= |pco| && |col.payload| <= |zstd|
            && ((col.encoding == 1 && col.payload == pco && |pco| != |zstd|) || (col.encoding == 2 && col.payload == zstd))
  {
    hide Deltas, I64Bytes;
    SumsOfDeltas(values);
    var ds := Deltas(values);
    assert ds[..|ds|] == ds;
  }

  lemma NoI64s()
    ensures I64sAt([], 0) == [] && Sums([]) == []
  {
  }

  method EncodeI64Column(c: Codec, values: seq<int>) returns (col: Column)
    requires AllI64(values)
    ensures col == EncodeI64(c, values)
  {
    if values == [] {
      return Column(ENC_I64_DELTA_ZSTD, c.compress([]));
    }
    var deltas: seq<int>, prev := [], 0;
    for i := 0 to |values|
      invariant deltas == Deltas(values[..i]) && prev == Last(values[..i])
    {
      assert values[..i + 1][..i] == values[..i];
      deltas := deltas + [Wrap(values[i] - prev)];
      prev := values[i];
    }
    assert values[..|values|] == values;
    SumsOfDeltas(values);
    var n := if |deltas| < SAMPLE_LEN then |deltas| else SAMPLE_LEN;
    var sample := deltas[..n];
    assert forall v | v in sample :: v in deltas;
    var packed, zipped := c.pack(sample), c.compress(I64Bytes(sample));
    if |packed| < |zipped| {
      assert n == |deltas| ==> sample == deltas;
      col := Column(ENC_I64_DELTA_PCO, if n == |deltas| then packed else c.pack(deltas));
    } else {
      assert n == |deltas| ==> sample == deltas;
      col := Column(ENC_I64_DELTA_ZSTD, if n == |deltas| then zipped else c.compress(I64Bytes(deltas)));
    }
  }

  method DecodeI64Column(c: Codec, bytes: seq<Byte>, n: nat) returns (o: Option<seq<int>>)
    ensures o == DecodeI64(c, bytes, n)
  {
    var col := ReadColumnFrame(bytes);
    if col.None? {
      return None;
    }
    var ds := DeltasIn(c, col.value, n);
    if ds.None? {
      return None;
    }
    var out: seq<int>, prev := [], 0;
    for i := 0 to |ds.value|
      invariant out == Sums(ds.value[..i]) && prev == Last(out)
    {
      assert ds.value[..i + 1][..i] == ds.value[..i];
      prev := Wrap(prev + ds.value[i]);
      out := out + [prev];
    }
    assert ds.value[..|ds.value|] == ds.value;
    o := Some(out);
  }

  // ---------------------------------------------------------------------- runs

  datatype Run<T> = Run(len: nat, val: T)

  /** Maximal runs, cut where the length would not fit. */
  function RunsOf<T(==)>(values: seq<T>): seq<Run<T>> {
    if values == [] then []
    else
      var runs, v := RunsOf(values[..|values| - 1]), values[|values| - 1];
      if runs != [] && runs[|runs| - 1].val == v && runs[|runs| - 1].len < U32_MAX then
        runs[..|runs| - 1] + [Run(runs[|runs| - 1].len + 1, v)]
      else runs + [Run(1, v)]
  }

  function Repeat<T>(v: T, n: nat): (s: seq<T>)
    ensures |s| == n
  {
    if n == 0 then [] else Repeat(v, n - 1) + [v]
  }

  function Expand<T>(runs: seq<Run<T>>): seq<T> {
    if runs == [] then [] else Expand(runs[..|runs| - 1]) + Repeat(runs[|runs| - 1].val, runs[|runs| - 1].len)
  }

  ghost predicate Proper<T>(runs: seq<Run<T>>) {
    forall r | r in runs :: 0 < r.len <= U32_MAX
  }

  lemma ExpandLast<T>(early: seq<Run<T>>, r: Run<T>)
    ensures Expand(early + [r]) == Expand(early) + Repeat(r.val, r.len)
  {
    assert (early + [r])[..|early|] == early;
  }

  lemma RunsMore<T>(t: seq<T>, v: T)
    ensures var runs := RunsOf(t);
            RunsOf(t + [v]) ==
            if runs != [] && runs[|runs| - 1].val == v && runs[|runs| - 1].len < U32_MAX
            then runs[..|runs| - 1] + [Run(runs[|runs| - 1].len + 1, v)]
            else runs + [Run(1, v)]
  {
    assert (t + [v])[..|t|] == t;
  }

  lemma RepeatMore<T>(v: T, n: nat)
    ensures Repeat(v, n + 1) == Repeat(v, n) + [v] && Repeat(v, 1) == [v]
  {
    assert Repeat(v, 1) == Repeat(v, 0) + [v];
  }

  lemma {:induction false} ExpandRuns<T>(values: seq<T>)
    ensures Proper(RunsOf(values)) && Expand(RunsOf(values)) == values
  {
    hide RunsOf, Expand, Repeat;
    if values == [] {
      NoRuns<T>();
    } else {
      var t, v := values[..|values| - 1], values[|values| - 1];
      assert values == t + [v];
      ExpandRuns(t);
      RunsMore(t, v);
      var runs := RunsOf(t);
      if runs != [] && runs[|runs| - 1].val == v && runs[|runs| - 1].len < U32_MAX {
        var early, last := runs[..|runs| - 1], runs[|runs| - 1];
        assert runs == early + [last] && last in runs;
        ExpandLast(early, last);
        ExpandLast(early, Run(last.len + 1, v));
        RepeatMore(v, last.len);
        assert Expand(early) + (Repeat(v, last.len) + [v]) == (Expand(early) + Repeat(v, last.len)) + [v];
      } else {
        ExpandLast(runs, Run(1, v));
        RepeatMore(v, 0);
      }
    }
  }

  lemma {:induction false} RepeatAt<T>(v: T, n: nat, i: nat)
    requires i < n
    ensures Repeat(v, n)[i] == v
  {
    if i < n - 1 {
      RepeatAt(v, n - 1, i);
    }
  }

  /** Where run `k` begins. */
  function RunStart<T>(runs: seq<Run<T>>, k: nat): nat
    requires k <= |runs|
  {
    if k == 0 then 0 else RunStart(runs, k - 1) + runs[k - 1].len
  }

  lemma {:induction false} RunStartPrefix<T>(runs: seq<Run<T>>, m: nat, k: nat)
    requires k <= m <= |runs|
    ensures RunStart(runs[..m], k) == RunStart(runs, k)
    decreases k
  {
    if k > 0 {
      RunStartPrefix(runs, m, k - 1);
    }
  }

  /** Run `k` stands for its value, from where it begins, as often as it says. */
  lemma {:induction false} ExpandAt<T>(runs: seq<Run<T>>, k: nat, i: nat)
    requires k < |runs| && i < runs[k].len
    ensures |Expand(runs)| == RunStart(runs, |runs|)
    ensures RunStart(runs, k) + i < |Expand(runs)| && Expand(runs)[RunStart(runs, k) + i] == runs[k].val
    decreases |runs|
  {
    hide Repeat;
    var n := |runs| - 1;
    var t := runs[..n];
    ExpandLength(t);
    RunStartPrefix(runs, n, n);
    if k < n {
      ExpandAt(t, k, i);
      RunStartPrefix(runs, n, k);
    } else {
      RepeatAt(runs[n].val, runs[n].len, i);
    }
  }

  lemma {:induction false} ExpandLength<T>(runs: seq<Run<T>>)
    ensures |Expand(runs)| == RunStart(runs, |runs|)
  {
    hide Repeat;
    if runs != [] {
      var n := |runs| - 1;
      ExpandLength(runs[..n]);
      RunStartPrefix(runs, n, n);
    }
  }

  /** Two neighbouring runs differ, unless the first is as long as a length may
      say. */
  lemma {:induction false} RunsMaximal<T>(values: seq<T>, k: nat)
    requires 0 < k < |RunsOf(values)|
    ensures RunsOf(values)[k - 1].val != RunsOf(values)[k].val || RunsOf(values)[k - 1].len == 0xFFFF_FFFF
    decreases |values|
  {
    hide RunsOf;
    if values == [] {
      NoRuns<T>();
    } else {
      var t, v := values[..|values| - 1], values[|values| - 1];
      assert values == t + [v];
      RunsMore(t, v);
      ExpandRuns(t);
      var runs := RunsOf(t);
      if k < |runs| {
        RunsMaximal(t, k);
      } else {
        assert runs[|runs| - 1] in runs;
      }
    }
  }

  lemma NoRuns<T>()
    ensures RunsOf<T>([]) == [] && Expand<T>([]) == []
  {
  }

  /** The runs expanded to exactly `n` values: no empty run, and not a value
      more or less. */
  function ExpandTo<T(==)>(runs: seq<Run<T>>, n: nat): Option<seq<T>> {
    if (forall r | r in runs :: r.len > 0) && |Expand(runs)| == n then Some(Expand(runs)) else None
  }

  lemma {:induction false} ExpandPrefix<T>(runs: seq<Run<T>>, i: nat)
    requires i <= |runs|
    ensures |Expand(runs[..i])| <= |Expand(runs)|
    decreases |runs|
  {
    if i < |runs| {
      var t := runs[..|runs| - 1];
      assert t[..i] == runs[..i];
      ExpandPrefix(t, i);
    } else {
      assert runs[..i] == runs;
    }
  }

  lemma ExpandNext<T>(runs: seq<Run<T>>, i: nat)
    requires i < |runs|
    ensures Expand(runs[..i + 1]) == Expand(runs[..i]) + Repeat(runs[i].val, runs[i].len)
  {
    assert runs[..i + 1][..i] == runs[..i];
  }

  /** The loop over runs: stopped at an empty run or as soon as they pass `n`. */
  method ExpandCapped<T(==)>(runs: seq<Run<T>>, n: nat) returns (o: Option<seq<T>>)
    ensures o == ExpandTo(runs, n)
  {
    hide Expand;
    var out: seq<T> := [];
    NoRuns<T>();
    for i := 0 to |runs|
      invariant out == Expand(runs[..i]) && |out| <= n
      invariant forall r | r in runs[..i] :: r.len > 0
    {
      var r := runs[i];
      assert r in runs;
      assert runs[..i + 1] == runs[..i] + [r];
      ExpandNext(runs, i);
      ExpandPrefix(runs, i + 1);
      if r.len == 0 || |out| + r.len > n {
        return None;
      }
      out := out + Repeat(r.val, r.len);
    }
    assert runs[..|runs|] == runs;
    if |out| != n {
      return None;
    }
    o := Some(out);
  }

  /** The loop that collects runs. */
  method CollectRuns<T(==)>(values: seq<T>) returns (runs: seq<Run<T>>)
    ensures runs == RunsOf(values)
  {
    if values == [] {
      return [];
    }
    runs := [];
    var cur, len := values[0], 1;
    assert values[..1][..0] == [];
    for i := 1 to |values|
      invariant len > 0 && RunsOf(values[..i]) == runs + [Run(len, cur)]
    {
      assert values[..i + 1][..i] == values[..i];
      ghost var all := runs + [Run(len, cur)];
      assert all[..|all| - 1] == runs && all[|all| - 1] == Run(len, cur);
      if values[i] == cur && len < U32_MAX {
        len := len + 1;
      } else {
        runs := runs + [Run(len, cur)];
        cur, len := values[i], 1;
      }
    }
    assert values[..|values|] == values;
    runs := runs + [Run(len, cur)];
  }

  // ---------------------------------------------------------------- u8 columns

  /** Pairs of a u32 length and a byte. */
  function PairBytes(runs: seq<Run<Byte>>): (b: seq<Byte>)
    ensures |b| == 5 * |runs|
  {
    if runs == [] then []
    else PairBytes(runs[..|runs| - 1]) + LE(runs[|runs| - 1].len, 4) + [runs[|runs| - 1].val]
  }

  function PairsIn(b: seq<Byte>, n: nat): (runs: seq<Run<Byte>>)
    requires 5 * n <= |b|
    ensures |runs| == n
  {
    if n == 0 then [] else PairsIn(b, n - 1) + [Run(WordAt(b, 5 * (n - 1), 4), b[5 * (n - 1) + 4])]
  }

  /** Run `i`: its length in four bytes from `5 * i` on, and then its value. */
  lemma {:induction false} PairsAt(b: seq<Byte>, n: nat, i: nat)
    requires 5 * n <= |b| && i < n
    ensures PairsIn(b, n)[i] == Run(FromLE(b[5 * i..5 * i + 4]), b[5 * i + 4])
    decreases n
  {
    hide FromLE;
    if i < n - 1 {
      PairsAt(b, n - 1, i);
    }
  }

  lemma {:induction false} PairsPrefix(a: seq<Byte>, b: seq<Byte>, n: nat)
    requires 5 * n <= |a|
    ensures PairsIn(a + b, n) == PairsIn(a, n)
  {
    if n > 0 {
      PairsPrefix(a, b, n - 1);
      var at := 5 * (n - 1);
      assert (a + b)[at..at + 4] == a[at..at + 4];
    }
  }

  lemma {:induction false} PairsRoundTrip(runs: seq<Run<Byte>>)
    requires forall r | r in runs :: r.len <= U32_MAX
    ensures PairsIn(PairBytes(runs), |runs|) == runs
  {
    hide LE, FromLE;
    if runs != [] {
      var t, r := runs[..|runs| - 1], runs[|runs| - 1];
      assert runs == t + [r] && r in runs && forall x | x in t :: x in runs;
      PairsRoundTrip(t);
      var a, w := PairBytes(t), LE(r.len, 4);
      var b := PairBytes(runs);
      assert b == a + (w + [r.val]);
      PairsPrefix(a, w + [r.val], |t|);
      assert b[|a|..|a| + 4] == w;
      WordSizes();
      WordRoundTrip(r.len, 4);
    }
  }

  /** `encode_u8`: runs, unless compressing is smaller. */
  function EncodeU8(c: Codec, values: seq<Byte>): Column {
    if values == [] then Column(ENC_U8_ZSTD, c.compress([]))
    else
      var rle, zipped := PairBytes(RunsOf(values)), c.compress(values);
      if |rle| <= |zipped| then Column(ENC_U8_RLE, rle) else Column(ENC_U8_ZSTD, zipped)
  }

  function DecodeU8(c: Codec, bytes: seq<Byte>, n: nat): Option<seq<Byte>> {
    match ReadFrame(bytes)
    case None => None
    case Some(col) =>
      if col.encoding == ENC_U8_RLE then
        if |col.payload| % 5 != 0 then None else ExpandTo(PairsIn(col.payload, |col.payload| / 5), n)
      else if col.encoding == ENC_U8_ZSTD then
        match Inflate(c, col.payload, n)
        case None => None
        case Some(raw) => if |raw| == n then Some(raw) else None
      else None
  }

  /** Every byte column that fits its frame comes back. */
  lemma U8RoundTrip(c: Codec, values: seq<Byte>)
    requires Lossless(c)
    ensures var col := EncodeU8(c, values);
            ToBytes(col).Some? ==> DecodeU8(c, ToBytes(col).value, |values|) == Some(values)
  {
    hide PairBytes, PairsIn, RunsOf, Expand, ToBytes, ReadFrame;
    var col := EncodeU8(c, values);
    if ToBytes(col).Some? {
      FrameRoundTrip(col);
      InflateCompressed(c, values, |values|);
      ExpandRuns(values);
      PairsRoundTrip(RunsOf(values));
    }
  }

  /** The smaller of runs and compressed bytes is kept, runs if they are as
      small. */
  lemma U8IsSmaller(c: Codec, values: seq<Byte>)
    requires values != []
    ensures var col, rle, zipped := EncodeU8(c, values), PairBytes(RunsOf(values)), c.compress(values);
            && |col.payload| <= |rle| && |col.payload| <= |zipped|
            && ((col.encoding == 7 && col.payload == rle) || (col.encoding == 8 && col.payload == zipped && |rle| != |zipped|))
  {
    hide PairBytes, RunsOf;
  }

  method EncodeU8Column(c: Codec, values: seq<Byte>) returns (col: Column)
    ensures col == EncodeU8(c, values)
  {
    if values == [] {
      return Column(ENC_U8_ZSTD, c.compress([]));
    }
    var runs := CollectRuns(values);
    var rle, zipped := PairBytes(runs), c.compress(values);
    col := if |rle| <= |zipped| then Column(ENC_U8_RLE, rle) else Column(ENC_U8_ZSTD, zipped);
  }

  method DecodeU8Column(c: Codec, bytes: seq<Byte>, n: nat) returns (o: Option<seq<Byte>>)
    ensures o == DecodeU8(c, bytes, n)
  {
    var col := ReadColumnFrame(bytes);
    if col.None? {
      return None;
    }
    var payload := col.value.payload;
    if col.value.encoding == ENC_U8_RLE {
      if |payload| % 5 != 0 {
        return None;
      }
      o := ExpandCapped(PairsIn(payload, |payload| / 5), n);
    } else if col.value.encoding == ENC_U8_ZSTD {
      var raw := Inflate(c, payload, n);
      o := if raw.None? || |raw.value| != n then None else raw;
    } else {
      o := None;
    }
  }
}
