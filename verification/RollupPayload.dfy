/** A rollup chunk's payload: seven columns of eight-byte words behind a count,
    compressed. Values are bit patterns here, so that every one of them is kept,
    NaNs included. */
module RollupPayload {
  import opened Sequences
  import opened Bytes
  import opened ColumnCodec

  const COLUMNS: nat := 7

  /** A bucket's fields in the order of the columns: start, count, sum, least,
      greatest, last timestamp, last value. */
  type Fields = f: seq<nat> | |f| == 7 witness [0, 0, 0, 0, 0, 0, 0]

  ghost predicate Fits(buckets: seq<Fields>) {
    forall b | b in buckets :: forall w | w in b :: w < U64_COUNT
  }

  function Col(buckets: seq<Fields>, j: nat): (c: seq<nat>)
    requires j < COLUMNS
    ensures |c| == |buckets|
    ensures forall i | 0 <= i < |buckets| :: c[i] == buckets[i][j]
  {
    if buckets == [] then [] else Col(buckets[..|buckets| - 1], j) + [buckets[|buckets| - 1][j]]
  }

  /** The first `k` columns, one after another. */
  function Cols(buckets: seq<Fields>, k: nat): (b: seq<Byte>)
    requires k <= COLUMNS
    ensures |b| == k * (8 * |buckets|)
  {
    if k == 0 then []
    else
      assert k * (8 * |buckets|) == (k - 1) * (8 * |buckets|) + 8 * |buckets|;
      Cols(buckets, k - 1) + Words(Col(buckets, k - 1), 8)
  }

  function Raw(buckets: seq<Fields>): (b: seq<Byte>)
    ensures |b| == 4 + 56 * |buckets|
  {
    LE(|buckets|, 4) + Cols(buckets, COLUMNS)
  }

  /** `encode_rollup_payload`. */
  function Encode(c: Codec, buckets: seq<Fields>): Option<seq<Byte>> {
    if |buckets| > U32_MAX then None else Some(c.compress(Raw(buckets)))
  }

  function ColumnAt(n: nat, j: nat): nat {
    4 + n * 8 * j
  }

  lemma ColumnWithin(n: nat, j: nat)
    requires j < COLUMNS
    ensures ColumnAt(n, j) + 8 * n <= 4 + 56 * n
  {
    var m := n * 8;
    assert m * j <= m * 6;
  }

  function FieldsAt(raw: seq<Byte>, n: nat, i: nat, k: nat): (f: seq<nat>)
    requires |raw| == 4 + 56 * n && i < n && k <= COLUMNS
    ensures |f| == k
  {
    if k == 0 then []
    else
      ColumnWithin(n, k - 1);
      FieldsAt(raw, n, i, k - 1) + [ReadWords(raw, ColumnAt(n, k - 1), 8, n)[i]]
  }

  function BucketsIn(raw: seq<Byte>, n: nat, i: nat): (out: seq<Fields>)
    requires |raw| == 4 + 56 * n && i <= n
    ensures |out| == i
  {
    if i == 0 then [] else BucketsIn(raw, n, i - 1) + [FieldsAt(raw, n, i - 1, COLUMNS)]
  }

  /** `decode_rollup_payload`. */
  function Decode(c: Codec, payload: seq<Byte>): Option<seq<Fields>> {
    match Inflate(c, payload, DECOMPRESS_MAX_BYTES)
    case None => None
    case Some(raw) =>
      if |raw| < 4 then None
      else
        var n := WordAt(raw, 0, 4);
        if |raw| != 4 + 56 * n then None else Some(BucketsIn(raw, n, n))
  }

  lemma {:induction false} FieldsAre(raw: seq<Byte>, n: nat, i: nat, k: nat, j: nat)
    requires |raw| == 4 + 56 * n && i < n && j < k <= COLUMNS
    ensures ColumnAt(n, j) + 8 * i + 8 <= |raw|
    ensures FieldsAt(raw, n, i, k)[j] == FromLE(raw[ColumnAt(n, j) + 8 * i..ColumnAt(n, j) + 8 * i + 8])
    decreases k
  {
    hide FromLE, ReadWords, ColumnAt;
    ColumnWithin(n, j);
    if j < k - 1 {
      FieldsAre(raw, n, i, k - 1, j);
    } else {
      ReadWordsAt(raw, ColumnAt(n, j), 8, n, i);
    }
  }

  lemma {:induction false} BucketAt(raw: seq<Byte>, n: nat, m: nat, i: nat)
    requires |raw| == 4 + 56 * n && i < m <= n
    ensures BucketsIn(raw, n, m)[i] == FieldsAt(raw, n, i, COLUMNS)
    decreases m
  {
    hide FieldsAt;
    if i < m - 1 {
      BucketAt(raw, n, m - 1, i);
    }
  }

  /** Field `j` of bucket `i` is the eight bytes at `4 + 8 * n * j + 8 * i` of what
      a payload of `n` buckets inflates to. */
  lemma PayloadLayout(c: Codec, payload: seq<Byte>, i: nat, j: nat)
    requires Decode(c, payload).Some? && i < |Decode(c, payload).value| && j < 7
    ensures Inflate(c, payload, 67108864).Some?
    ensures var raw, n := Inflate(c, payload, 67108864).value, |Decode(c, payload).value|;
            var at := 4 + n * 8 * j + 8 * i;
            && |raw| == 4 + 56 * n && at + 8 <= |raw| && FromLE(raw[0..4]) == n
            && Decode(c, payload).value[i][j] == FromLE(raw[at..at + 8])
  {
    hide FromLE, FieldsAt, BucketsIn;
    var raw := Inflate(c, payload, DECOMPRESS_MAX_BYTES).value;
    var n := WordAt(raw, 0, 4);
    BucketAt(raw, n, n, i);
    FieldsAre(raw, n, i, COLUMNS, j);
  }

  // ---------------------------------------------------------------- round trip

  /** The columns from `k` on. */
  function ColsFrom(buckets: seq<Fields>, k: nat): seq<Byte>
    requires k <= COLUMNS
    decreases COLUMNS - k
  {
    if k == COLUMNS then [] else Words(Col(buckets, k), 8) + ColsFrom(buckets, k + 1)
  }

  lemma {:induction false} ColsSplit(buckets: seq<Fields>, k: nat)
    requires k <= COLUMNS
    ensures Cols(buckets, COLUMNS) == Cols(buckets, k) + ColsFrom(buckets, k)
    decreases COLUMNS - k
  {
    hide Words, Col;
    if k == COLUMNS {
      assert Cols(buckets, k) + [] == Cols(buckets, k);
    } else {
      ColsSplit(buckets, k + 1);
      var a, b, d := Cols(buckets, k), Words(Col(buckets, k), 8), ColsFrom(buckets, k + 1);
      assert (a + b) + d == a + (b + d);
    }
  }

  lemma ColumnStart(buckets: seq<Fields>, j: nat)
    requires j < COLUMNS
    ensures |LE(|buckets|, 4) + Cols(buckets, j)| == ColumnAt(|buckets|, j)
  {
    hide Cols, LE;
    TimesSwap(j, |buckets|);
  }

  lemma TimesSwap(j: nat, n: nat)
    ensures j * (8 * n) == n * 8 * j
  {
  }

  lemma ColumnFits(buckets: seq<Fields>, j: nat)
    requires Fits(buckets) && j < COLUMNS
    ensures forall v | v in Col(buckets, j) :: v < U64_COUNT
  {
    forall v | v in Col(buckets, j) ensures v < U64_COUNT {
      var i :| 0 <= i < |buckets| && Col(buckets, j)[i] == v;
      assert buckets[i] in buckets && buckets[i][j] in buckets[i];
    }
  }

  lemma RawParts(buckets: seq<Fields>, j: nat)
    requires j < COLUMNS
    ensures Raw(buckets) == (LE(|buckets|, 4) + Cols(buckets, j)) + Words(Col(buckets, j), 8) + ColsFrom(buckets, j + 1)
  {
    hide Words, LE, Cols, Col;
    ColsSplit(buckets, j);
    var a, b, c, d := LE(|buckets|, 4), Cols(buckets, j), Words(Col(buckets, j), 8), ColsFrom(buckets, j + 1);
    assert a + (b + (c + d)) == (a + b) + c + d;
  }

  lemma ColumnReads(buckets: seq<Fields>, j: nat)
    requires Fits(buckets) && j < COLUMNS
    ensures ColumnAt(|buckets|, j) + 8 * |buckets| <= |Raw(buckets)|
    ensures ReadWords(Raw(buckets), ColumnAt(|buckets|, j), 8, |buckets|) == Col(buckets, j)
  {
    hide *;
    ColumnWithin(|buckets|, j);
    ColumnStart(buckets, j);
    ColumnFits(buckets, j);
    RawParts(buckets, j);
    WordSizes();
    WordsRoundTrip(Col(buckets, j), 8, LE(|buckets|, 4) + Cols(buckets, j), ColsFrom(buckets, j + 1));
  }

  lemma {:induction false} FieldsRead(buckets: seq<Fields>, i: nat, k: nat)
    requires Fits(buckets) && i < |buckets| && k <= COLUMNS
    ensures FieldsAt(Raw(buckets), |buckets|, i, k) == buckets[i][..k]
  {
    hide ReadWords, Raw;
    if k > 0 {
      FieldsRead(buckets, i, k - 1);
      ColumnReads(buckets, k - 1);
      assert buckets[i][..k] == buckets[i][..k - 1] + [buckets[i][k - 1]];
    }
  }

  lemma {:induction false} BucketsRead(buckets: seq<Fields>, i: nat)
    requires Fits(buckets) && i <= |buckets|
    ensures BucketsIn(Raw(buckets), |buckets|, i) == buckets[..i]
  {
    hide FieldsAt, Raw;
    if i > 0 {
      BucketsRead(buckets, i - 1);
      FieldsRead(buckets, i - 1, COLUMNS);
      assert buckets[i - 1][..COLUMNS] == buckets[i - 1];
      assert buckets[..i] == buckets[..i - 1] + [buckets[i - 1]];
    }
  }

  /** A payload comes back, bit for bit, if and only if it is within the 64 MiB
      a read will inflate. */
  lemma PayloadRoundTrip(c: Codec, buckets: seq<Fields>)
    requires Lossless(c) && Fits(buckets) && Encode(c, buckets).Some?
    ensures Decode(c, Encode(c, buckets).value) == Some(buckets) <==> 4 + 56 * |buckets| <= DECOMPRESS_MAX_BYTES
  {
    hide Cols, BucketsIn, LE;
    var n, raw := |buckets|, Raw(buckets);
    InflateCompressed(c, raw, DECOMPRESS_MAX_BYTES);
    WordSizes();
    WordRoundTrip(n, 4);
    assert raw[0..4] == LE(n, 4);
    BucketsRead(buckets, n);
    assert buckets[..n] == buckets;
  }

  // ------------------------------------------------------------------ the loops

  method EncodePayload(c: Codec, buckets: seq<Fields>) returns (o: Option<seq<Byte>>)
    ensures o == Encode(c, buckets)
  {
    if |buckets| > U32_MAX {
      return None;
    }
    var body: seq<Byte> := [];
    hide Words, Col, LE, Cols;
    NoCols(buckets);
    for j := 0 to COLUMNS
      invariant body == Cols(buckets, j)
    {
      var words := ColumnWords(buckets, j);
      OneMoreCol(buckets, j);
      body := body + words;
    }
    o := Some(c.compress(LE(|buckets|, 4) + body));
  }

  lemma NoCols(buckets: seq<Fields>)
    ensures Cols(buckets, 0) == []
  {
  }

  lemma OneMoreCol(buckets: seq<Fields>, j: nat)
    requires j < COLUMNS
    ensures Cols(buckets, j + 1) == Cols(buckets, j) + Words(Col(buckets, j), 8)
  {
    hide Words, Col;
  }

  method ColumnWords(buckets: seq<Fields>, j: nat) returns (words: seq<Byte>)
    requires j < COLUMNS
    ensures words == Words(Col(buckets, j), 8)
  {
    ghost var col := Col(buckets, j);
    words := [];
    for i := 0 to |buckets|
      invariant words == Words(col[..i], 8)
    {
      hide LE, Col;
      assert col[..i + 1][..i] == col[..i];
      words := words + LE(buckets[i][j], 8);
    }
    assert col[..|buckets|] == col;
  }

  method DecodePayload(c: Codec, payload: seq<Byte>) returns (o: Option<seq<Fields>>)
    ensures o == Decode(c, payload)
  {
    var raw := Inflate(c, payload, DECOMPRESS_MAX_BYTES);
    if raw.None? || |raw.value| < 4 {
      return None;
    }
    var n := WordAt(raw.value, 0, 4);
    if |raw.value| != 4 + 56 * n {
      return None;
    }
    var out: seq<Fields> := [];
    for i := 0 to n
      invariant out == BucketsIn(raw.value, n, i)
    {
      out := out + [FieldsAt(raw.value, n, i, COLUMNS)];
    }
    o := Some(out);
  }

  /** As many buckets of zeros as are just over 64 MiB. */
  function ManyBuckets(): (b: seq<Fields>)
    ensures |b| == 1198373 && Fits(b)
  {
    seq(1198373, _ => Zeros())
  }

  function Zeros(): Fields {
    [0, 0, 0, 0, 0, 0, 0]
  }

  lemma ManyBucketsAreLost(c: Codec)
    requires Lossless(c)
    ensures Encode(c, ManyBuckets()).Some? && Decode(c, Encode(c, ManyBuckets()).value) != Some(ManyBuckets())
  {
    hide ManyBuckets, Raw, Decode, Lossless, Fits;
    PayloadRoundTrip(c, ManyBuckets());
  }
}
