/** Bytes and little-endian words, and the reader and frames over them. */
module Bytes {
  import opened Sequences

  type Byte = x: int | 0 <= x < 256

  const U32_MAX: nat := 0xFFFF_FFFF
  const U64_COUNT: nat := 0x1_0000_0000_0000_0000
  const I64_COUNT: nat := 0x8000_0000_0000_0000

  // --------------------------------------------------------------------- words

  function Pow256(k: nat): nat {
    if k == 0 then 1 else 256 * Pow256(k - 1)
  }

  lemma WordSizes()
    ensures Pow256(4) == U32_MAX + 1 && Pow256(8) == U64_COUNT
  {
    assert Pow256(2) == 65536;
    assert Pow256(4) == 4294967296;
    assert Pow256(6) == 281474976710656;
  }

  /** `v` as `k` bytes, least significant first. */
  function LE(v: nat, k: nat): (b: seq<Byte>)
    ensures |b| == k
  {
    if k == 0 then [] else [v % 256] + LE(v / 256, k - 1)
  }

  function FromLE(b: seq<Byte>): nat {
    if b == [] then 0 else b[0] + 256 * FromLE(b[1..])
  }

  lemma {:induction false} WordRoundTrip(v: nat, k: nat)
    requires v < Pow256(k)
    ensures FromLE(LE(v, k)) == v
    decreases k
  {
    if k > 0 {
      WordRoundTrip(v / 256, k - 1);
      var b := LE(v, k);
      assert b[1..] == LE(v / 256, k - 1);
    }
  }

  /** The first four bytes of a word, place by place. */
  lemma WordPlaces(b: seq<Byte>)
    requires |b| >= 4
    ensures FromLE(b) == b[0] + 0x100 * b[1] as int + 0x1_0000 * b[2] as int + 0x100_0000 * b[3] as int
                         + 0x1_0000_0000 * FromLE(b[4..])
  {
    var t, u, v, w := b[1..], b[2..], b[3..], b[4..];
    assert t[1..] == u && u[1..] == v && v[1..] == w;
    assert FromLE(v) == b[3] + 0x100 * FromLE(w);
    assert FromLE(u) == b[2] + 0x100 * FromLE(v);
    assert FromLE(t) == b[1] + 0x100 * FromLE(u);
  }

  lemma WordOfFour(b: seq<Byte>)
    requires |b| == 4
    ensures FromLE(b) == b[0] + 0x100 * b[1] as int + 0x1_0000 * b[2] as int + 0x100_0000 * b[3] as int
  {
    WordPlaces(b);
    assert b[4..] == [];
  }

  lemma WordOfEight(b: seq<Byte>)
    requires |b| == 8
    ensures FromLE(b) == FromLE(b[..4]) + 0x1_0000_0000 * FromLE(b[4..])
  {
    WordPlaces(b);
    WordOfFour(b[..4]);
  }

  lemma {:induction false} WordBelow(b: seq<Byte>)
    ensures FromLE(b) < Pow256(|b|)
  {
    if b != [] {
      WordBelow(b[1..]);
    }
  }

  lemma {:induction false} WordCanonical(b: seq<Byte>)
    ensures LE(FromLE(b), |b|) == b
  {
    if b != [] {
      WordCanonical(b[1..]);
      var v := FromLE(b);
      assert v % 256 == b[0] && v / 256 == FromLE(b[1..]);
      assert b == [b[0]] + b[1..];
    }
  }

  /** Words of `k` bytes one after another. */
  function Words(values: seq<nat>, k: nat): (b: seq<Byte>)
    ensures |b| == k * |values|
  {
    if values == [] then []
    else
      assert k * |values| == k * (|values| - 1) + k;
      Words(values[..|values| - 1], k) + LE(values[|values| - 1], k)
  }

  /** The word of `k` bytes at `at`. */
  function WordAt(b: seq<Byte>, at: nat, k: nat): nat
    requires at + k <= |b|
  {
    FromLE(b[at..at + k])
  }

  function ReadWords(b: seq<Byte>, at: nat, k: nat, n: nat): (w: seq<nat>)
    requires at + k * n <= |b|
    ensures |w| == n
    decreases n
  {
    if n == 0 then []
    else
      assert k * n == k * (n - 1) + k;
      ReadWords(b, at, k, n - 1) + [WordAt(b, at + k * (n - 1), k)]
  }

  lemma {:induction false} ReadWordsAt(b: seq<Byte>, at: nat, k: nat, n: nat, i: nat)
    requires at + k * n <= |b| && i < n
    ensures at + k * i + k <= |b| && ReadWords(b, at, k, n)[i] == FromLE(b[at + k * i..at + k * i + k])
    decreases n
  {
    hide FromLE;
    KTimes(k, n - 1);
    if i < n - 1 {
      ReadWordsAt(b, at, k, n - 1, i);
    }
  }

  lemma {:induction false} WordsRoundTrip(values: seq<nat>, k: nat, pre: seq<Byte>, post: seq<Byte>)
    requires forall v | v in values :: v < Pow256(k)
    ensures |pre| + k * |values| <= |pre + Words(values, k) + post|
    ensures ReadWords(pre + Words(values, k) + post, |pre|, k, |values|) == values
    decreases |values|
  {
    hide LE, Pow256;
    if values != [] {
      var t, v := values[..|values| - 1], values[|values| - 1];
      assert values == t + [v] && v in values;
      assert forall x | x in t :: x in values;
      var w, early := LE(v, k), Words(t, k);
      KTimes(k, |t|);
      var b := pre + Words(values, k) + post;
      assert b == pre + early + (w + post);
      WordsRoundTrip(t, k, pre, w + post);
      assert b == (pre + early) + w + post;
      SliceMid(pre + early, w, post);
      WordRoundTrip(v, k);
    }
  }

  lemma KTimes(k: nat, n: nat)
    ensures k * (n + 1) == k * n + k
  {
  }

  lemma SliceMid(p: seq<Byte>, w: seq<Byte>, q: seq<Byte>)
    ensures (p + w + q)[|p|..|p| + |w|] == w
  {
  }

  // ---------------------------------------------------------- two's complement

  predicate IsI64(v: int) {
    -(I64_COUNT as int) <= v < I64_COUNT
  }

  function ToBits(v: int): nat
    requires IsI64(v)
  {
    if v < 0 then v + U64_COUNT else v
  }

  function FromBits(b: nat): (v: int)
    requires b < U64_COUNT
    ensures IsI64(v)
  {
    if b >= I64_COUNT then b - U64_COUNT else b
  }

  lemma BitsRoundTrip(v: int)
    requires IsI64(v)
    ensures ToBits(v) < U64_COUNT && FromBits(ToBits(v)) == v
  {
  }

  /** Arithmetic modulo 2^64, read as signed. */
  function Wrap(v: int): (w: int)
    ensures IsI64(w)
  {
    FromBits(v % U64_COUNT)
  }

  /** Two's complement: the bits are the value modulo 2^64. */
  lemma BitsMeaning(v: int)
    requires IsI64(v)
    ensures ToBits(v) == v % U64_COUNT
  {
  }

  /** What `Wrap` means: the one 64-bit value that differs by a multiple of
      2^64. */
  lemma WrapMeaning(v: int, w: int)
    ensures Wrap(v) == w <==> IsI64(w) && (v - w) % 0x1_0000_0000_0000_0000 == 0
  {
  }

  lemma WrapAdds(a: int, b: int)
    ensures Wrap(Wrap(a) + b) == Wrap(a + b)
  {
    WrapMeaning(a, Wrap(a));
    WrapMeaning(a + b, Wrap(a + b));
    WrapMeaning(Wrap(a) + b, Wrap(a + b));
  }

  /** `wrapping_add` undoes `wrapping_sub`. */
  lemma WrapInverse(v: int, prev: int)
    requires IsI64(v) && IsI64(prev)
    ensures Wrap(prev + Wrap(v - prev)) == v
  {
    var d := v - prev;
    assert Wrap(d) == d || Wrap(d) == d - U64_COUNT || Wrap(d) == d + U64_COUNT;
  }

  // -------------------------------------------------------------------- reader

  /** A bounds-checked cursor over a buffer. */
  class Reader {
    const buf: seq<Byte>
    var pos: nat

    ghost predicate Valid()
      reads this
    {
      pos <= |buf|
    }

    constructor (buf: seq<Byte>)
      ensures Valid() && this.buf == buf && pos == 0
    {
      this.buf, pos := buf, 0;
    }

    function Remaining(): nat
      requires Valid()
      reads this
    {
      |buf| - pos
    }

    /** The next `n` bytes, or none if there are not as many; then nothing is
        consumed. */
    method Take(n: nat) returns (o: Option<seq<Byte>>)
      requires Valid()
      modifies this`pos
      ensures Valid()
      ensures if old(pos) + n <= |buf| then o == Some(buf[old(pos)..old(pos) + n]) && pos == old(pos) + n
              else o == None && pos == old(pos)
    {
      var end := pos + n;
      if end > |buf| {
        return None;
      }
      o := Some(buf[pos..end]);
      pos := end;
    }

    method U8() returns (o: Option<Byte>)
      requires Valid()
      modifies this`pos
      ensures Valid()
      ensures if old(pos) + 1 <= |buf| then o == Some(buf[old(pos)]) && pos == old(pos) + 1
              else o == None && pos == old(pos)
    {
      var b := Take(1);
      o := if b.None? then None else Some(b.value[0]);
    }

    method U32() returns (o: Option<nat>)
      requires Valid()
      modifies this`pos
      ensures Valid()
      ensures if old(pos) + 4 <= |buf| then o == Some(WordAt(buf, old(pos), 4)) && pos == old(pos) + 4
              else o == None && pos == old(pos)
    {
      var b := Take(4);
      o := if b.None? then None else Some(FromLE(b.value));
    }
  }

  // -------------------------------------------------------------------- frames

  datatype Column = Column(encoding: Byte, payload: seq<Byte>)

  /** `to_bytes`: id, length, payload; refused where the length would not fit. */
  function ToBytes(c: Column): Option<seq<Byte>> {
    if |c.payload| > U32_MAX then None
    else Some([c.encoding] + LE(|c.payload|, 4) + c.payload)
  }

  /** `read_column_frame`: the whole of the bytes is one frame. */
  function ReadFrame(b: seq<Byte>): Option<Column> {
    if |b| < 5 || |b| - 5 != WordAt(b, 1, 4) then None
    else Some(Column(b[0], b[5..]))
  }

  method ReadColumnFrame(bytes: seq<Byte>) returns (o: Option<Column>)
    ensures o == ReadFrame(bytes)
  {
    var r := new Reader(bytes);
    var enc := r.U8();
    if enc.None? {
      return None;
    }
    var len := r.U32();
    if len.None? {
      return None;
    }
    var payload := r.Take(len.value);
    if payload.None? || r.Remaining() != 0 {
      return None;
    }
    assert bytes[5..5 + len.value] == bytes[5..];
    o := Some(Column(enc.value, payload.value));
  }

  lemma FrameRoundTrip(c: Column)
    requires ToBytes(c).Some?
    ensures ReadFrame(ToBytes(c).value) == Some(c)
  {
    var b := ToBytes(c).value;
    WordSizes();
    WordRoundTrip(|c.payload|, 4);
    assert b[1..5] == LE(|c.payload|, 4);
    assert b[5..] == c.payload;
  }

  /** The frame byte by byte: the encoding, the payload's length with its least
      byte first, the payload. */
  lemma FrameLayout(c: Column)
    requires ToBytes(c).Some?
    ensures var b := ToBytes(c).value;
            && |b| == 5 + |c.payload| && b[0] == c.encoding && b[5..] == c.payload
            && b[1] + 0x100 * b[2] as int + 0x1_0000 * b[3] as int + 0x100_0000 * b[4] as int == |c.payload|
  {
    hide LE;
    var b, w := ToBytes(c).value, LE(|c.payload|, 4);
    WordSizes();
    WordRoundTrip(|c.payload|, 4);
    WordOfFour(w);
    assert b[1..5] == w && b[5..] == c.payload;
    assert b[1] == w[0] && b[2] == w[1] && b[3] == w[2] && b[4] == w[3];
  }

  /** A frame that reads back is the one frame of what it reads back as. */
  lemma FrameCanonical(b: seq<Byte>)
    requires ReadFrame(b).Some?
    ensures ToBytes(ReadFrame(b).value) == Some(b)
  {
    WordSizes();
    WordBelow(b[1..5]);
    WordCanonical(b[1..5]);
    assert b == [b[0]] + b[1..5] + b[5..];
  }
}
