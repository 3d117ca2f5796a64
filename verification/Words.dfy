/**
 Machine words: the byte, the 64-bit signed integer, and the little-endian
 fields every frame is built from.  Go's conversions and its wrapping `int`
 arithmetic are written out, so a lossy cast is visible in the model.
 */
module Words {

  newtype byte = x: int | 0 <= x < 0x100
  newtype uint16 = x: int | 0 <= x < 0x1_0000
  newtype uint32 = x: int | 0 <= x < 0x1_0000_0000
  newtype int64 = x: int | -0x8000_0000_0000_0000 <= x < 0x8000_0000_0000_0000

  type Bytes = seq<byte>

  const MAX_INT64: int := 0x7FFF_FFFF_FFFF_FFFF

  /** Every error the modelled code can hand back; texts and wrapping are left out. */
  datatype Error =
    | Truncated | InvalidMagic | BadVersion | TooLarge
    | Closed | Cancelled | Streaming | Io
    | TopicExists | TopicNotFound | EmptyTopicName | TopicNameTooLong | InvalidTopicName | TooManyTopics
    | Overloaded | Mismatch | EmptyBatch | Remote(code: uint16) | Unexpected

  datatype Result<+T> = Ok(value: T) | Err(error: Error)

  datatype Option<+T> = None | Some(value: T)

  // ---- casts ----

  /** Go's `uint32(n)`: keep the low 32 bits. */
  function U32(n: int): (r: uint32)
    ensures 0 <= n < 0x1_0000_0000 ==> r as int == n
  {
    (n % 0x1_0000_0000) as uint32
  }

  /** The width of Go's `int` on the platform. */
  datatype Width = W32 | W64

  function Span(w: Width): int {
    if w.W32? then 0x1_0000_0000 else 0x1_0000_0000_0000_0000
  }

  /** What a Go `int` of width `w` holds after computing the mathematical value `n`. */
  function Wrap(w: Width, n: int): (r: int)
    ensures -(Span(w) / 2) <= r < Span(w) / 2
    ensures -(Span(w) / 2) <= n < Span(w) / 2 ==> r == n
  {
    (n + Span(w) / 2) % Span(w) - Span(w) / 2
  }

  /** Wrapping moves a value by whole spans, and whole spans do not show after wrapping. */
  lemma WrapShift(w: Width, n: int, k: int)
    ensures Wrap(w, n + Span(w) * k) == Wrap(w, n)
  {
    if w.W32? {
      Shift32(n + Span(w) / 2, k);
    } else {
      Shift64(n + Span(w) / 2, k);
    }
  }

  lemma Shift32(n: int, k: int)
    ensures (n + 0x1_0000_0000 * k) % 0x1_0000_0000 == n % 0x1_0000_0000
  {
  }

  lemma Shift64(n: int, k: int)
    ensures (n + 0x1_0000_0000_0000_0000 * k) % 0x1_0000_0000_0000_0000 == n % 0x1_0000_0000_0000_0000
  {
  }

  function Turns(w: Width, n: int): (k: int)
    ensures Wrap(w, n) == n + Span(w) * k
  {
    -((n + Span(w) / 2) / Span(w))
  }

  /** Wrapping after every addition is the same as wrapping once at the end. */
  lemma WrapAdd(w: Width, a: int, b: int)
    ensures Wrap(w, Wrap(w, a) + b) == Wrap(w, a + b)
  {
    var k := Turns(w, a);
    WrapShift(w, a + b, k);
  }

  /** The low 32 bits survive wrapping at either width. */
  lemma WrapLow(w: Width, n: int)
    ensures U32(Wrap(w, n)) == U32(n)
  {
    var k := Turns(w, n);
    Shift32(n, if w.W32? then k else 0x1_0000_0000 * k);
  }

  // ---- little-endian fields ----

  function PutU16(v: uint16): (b: Bytes)
    ensures |b| == 2
  {
    [(v % 256) as byte, (v / 256) as byte]
  }

  function GetU16(b: Bytes): uint16
    requires |b| == 2
  {
    (b[0] as int + 256 * b[1] as int) as uint16
  }

  function Digit(n: int): byte {
    (n % 256) as byte
  }

  function PutU32(v: uint32): (b: Bytes)
    ensures |b| == 4
  {
    [Digit(v as int), Digit(v as int / 256), Digit(v as int / 256 / 256), Digit(v as int / 256 / 256 / 256)]
  }

  function GetU32(b: Bytes): uint32
    requires |b| == 4
  {
    (b[0] as int + 256 * (b[1] as int + 256 * (b[2] as int + 256 * b[3] as int))) as uint32
  }

  /** `PutUint64(b, uint64(v))` of a signed offset: two's complement, low word first. */
  function PutI64(v: int64): (b: Bytes)
    ensures |b| == 8
  {
    PutU32((Bits64(v) % 0x1_0000_0000) as uint32) + PutU32((Bits64(v) / 0x1_0000_0000) as uint32)
  }

  function GetI64(b: Bytes): int64
    requires |b| == 8
  {
    var u := GetU32(b[..4]) as int + 0x1_0000_0000 * GetU32(b[4..]) as int;
    (if u < 0x8000_0000_0000_0000 then u else u - 0x1_0000_0000_0000_0000) as int64
  }

  lemma U16Inverse(v: uint16, b: Bytes)
    requires |b| == 2
    ensures GetU16(PutU16(v)) == v && PutU16(GetU16(b)) == b
  {
  }

  lemma U32Inverse(v: uint32, b: Bytes)
    requires |b| == 4
    ensures GetU32(PutU32(v)) == v && PutU32(GetU32(b)) == b
  {
    var b1, b2, b3 := b[1] as int, b[2] as int, b[3] as int;
    var n := GetU32(b) as int;
    assert n / 256 == b1 + 256 * (b2 + 256 * b3) && Digit(n) == b[0];
    assert n / 256 / 256 == b2 + 256 * b3 && Digit(n / 256) == b[1];
    assert n / 256 / 256 / 256 == b3 && Digit(n / 256 / 256) == b[2];
  }

  /** The word of 64 bits an offset is sent as. */
  function Bits64(v: int64): (u: int)
    ensures 0 <= u < 0x1_0000_0000_0000_0000
  {
    if v < 0 then v as int + 0x1_0000_0000_0000_0000 else v as int
  }

  lemma SplitWord(lo: int, hi: int)
    requires 0 <= lo < 0x1_0000_0000
    ensures (lo + 0x1_0000_0000 * hi) % 0x1_0000_0000 == lo
    ensures (lo + 0x1_0000_0000 * hi) / 0x1_0000_0000 == hi
  {
  }

  lemma I64Out(v: int64)
    ensures GetI64(PutI64(v)) == v
  {
    var lo, hi := Bits64(v) % 0x1_0000_0000, Bits64(v) / 0x1_0000_0000;
    assert PutI64(v)[..4] == PutU32(lo as uint32) && PutI64(v)[4..] == PutU32(hi as uint32);
    U32Inverse(lo as uint32, PutI64(v)[..4]);
    U32Inverse(hi as uint32, PutI64(v)[4..]);
  }

  /** Both directions: every offset survives the wire, and every 8 bytes are some offset. */
  lemma I64Inverse(v: int64, b: Bytes)
    requires |b| == 8
    ensures GetI64(PutI64(v)) == v && PutI64(GetI64(b)) == b
  {
    I64Out(v);
    U32Inverse(0, b[..4]);
    U32Inverse(0, b[4..]);
    var lo, hi := GetU32(b[..4]) as int, GetU32(b[4..]) as int;
    SplitWord(lo, hi);
    assert Bits64(GetI64(b)) == lo + 0x1_0000_0000 * hi;
    assert b == b[..4] + b[4..];
  }

  /** The fields as numbers: the byte at place k counts 256 to the power k, offsets in two's complement. */
  lemma LittleEndian(u: uint16, v: uint32, w: int64)
    ensures var b := PutU16(u); u as int == b[0] as int + 0x100 * b[1] as int
    ensures var b := PutU32(v);
            v as int == b[0] as int + 0x100 * b[1] as int + 0x1_0000 * b[2] as int + 0x100_0000 * b[3] as int
    ensures var b := PutI64(w);
            (if w < 0 then w as int + 0x1_0000_0000_0000_0000 else w as int)
            == b[0] as int + 0x100 * b[1] as int + 0x1_0000 * b[2] as int + 0x100_0000 * b[3] as int
               + 0x1_0000_0000 * b[4] as int + 0x100_0000_0000 * b[5] as int
               + 0x1_0000_0000_0000 * b[6] as int + 0x100_0000_0000_0000 * b[7] as int
  {
    U16Inverse(u, [0, 0]);
    U32Inverse(v, [0, 0, 0, 0]);
    var lo, hi := Bits64(w) % 0x1_0000_0000, Bits64(w) / 0x1_0000_0000;
    U32Inverse(lo as uint32, [0, 0, 0, 0]);
    U32Inverse(hi as uint32, [0, 0, 0, 0]);
  }

  // ---- sequences of byte strings ----

  /** The first `n` bytes, or all of them when there are fewer. */
  function Take<T>(b: seq<T>, n: nat): (r: seq<T>)
    ensures r <= b
    ensures |r| == if n < |b| then n else |b|
  {
    if n < |b| then b[..n] else b
  }

  /** Concatenation in order; grows at the end, the way logs and streams do. */
  function Flatten<T>(xs: seq<seq<T>>): seq<T> {
    if xs == [] then [] else Flatten(xs[..|xs| - 1]) + xs[|xs| - 1]
  }

  lemma FlattenSnoc<T>(xs: seq<seq<T>>, x: seq<T>)
    ensures Flatten(xs + [x]) == Flatten(xs) + x
  {
    assert (xs + [x])[..|xs|] == xs;
  }

  lemma {:induction false} FlattenConcat<T>(xs: seq<seq<T>>, ys: seq<seq<T>>)
    ensures Flatten(xs + ys) == Flatten(xs) + Flatten(ys)
  {
    if ys == [] {
      assert xs + ys == xs;
    } else {
      FlattenConcat(xs, ys[..|ys| - 1]);
      FlattenConcatSnoc(xs, ys[..|ys| - 1], ys[|ys| - 1]);
      assert ys == ys[..|ys| - 1] + [ys[|ys| - 1]];
    }
  }

  lemma FlattenConcatSnoc<T>(xs: seq<seq<T>>, ys: seq<seq<T>>, y: seq<T>)
    requires Flatten(xs + ys) == Flatten(xs) + Flatten(ys)
    ensures Flatten(xs + (ys + [y])) == Flatten(xs) + Flatten(ys + [y])
  {
    hide Flatten;
    FlattenSnoc(xs + ys, y);
    FlattenSnoc(ys, y);
    assert xs + (ys + [y]) == (xs + ys) + [y];
    assert (Flatten(xs) + Flatten(ys)) + y == Flatten(xs) + (Flatten(ys) + y);
  }

  lemma FlattenFront<T>(xs: seq<seq<T>>)
    requires xs != []
    ensures Flatten(xs) == xs[0] + Flatten(xs[1..])
  {
    FlattenConcat([xs[0]], xs[1..]);
    assert [xs[0]] + xs[1..] == xs;
    FlattenSnoc([], xs[0]);
    assert [] + [xs[0]] == [xs[0]];
  }

  /** The encodings of a list, one after the other. */
  function Concat<T>(enc: T -> Bytes, xs: seq<T>): Bytes {
    if xs == [] then [] else enc(xs[0]) + Concat(enc, xs[1..])
  }

  lemma {:induction false} ConcatAppend<T>(enc: T -> Bytes, xs: seq<T>, ys: seq<T>)
    ensures Concat(enc, xs + ys) == Concat(enc, xs) + Concat(enc, ys)
  {
    hide Concat;
    ConcatFirst(enc, xs);
    if xs == [] {
      assert xs + ys == ys;
      assert Concat(enc, xs) + Concat(enc, ys) == Concat(enc, ys);
    } else {
      ConcatFirst(enc, xs + ys);
      ConcatAppend(enc, xs[1..], ys);
      assert (xs + ys)[1..] == xs[1..] + ys;
      Associative(enc(xs[0]), Concat(enc, xs[1..]), Concat(enc, ys));
    }
  }

  lemma ConcatFirst<T>(enc: T -> Bytes, xs: seq<T>)
    ensures Concat(enc, xs) == if xs == [] then [] else enc(xs[0]) + Concat(enc, xs[1..])
  {
  }

  lemma Associative(a: Bytes, b: Bytes, c: Bytes)
    ensures (a + b) + c == a + (b + c)
  {
  }

  lemma ConcatOne<T>(enc: T -> Bytes, x: T)
    ensures Concat(enc, [x]) == enc(x)
  {
    assert Concat(enc, [x]) == enc(x) + Concat(enc, [x][1..]);
  }

  lemma ConcatTake<T>(enc: T -> Bytes, xs: seq<T>, k: nat)
    requires k < |xs|
    ensures Concat(enc, xs[..k + 1]) == enc(xs[0]) + Concat(enc, xs[1..][..k])
  {
    assert xs[..k + 1][1..] == xs[1..][..k];
  }

  /** A prefix of `a + w` either stops inside `a` or covers it. */
  lemma PrefixSplit(s: Bytes, a: Bytes, w: Bytes)
    requires s <= a + w
    ensures |s| < |a| ==> s < a
    ensures |s| >= |a| ==> s == a + s[|a|..] && s[|a|..] <= w
  {
    if |s| < |a| {
      assert s == (a + w)[..|s|] == a[..|s|];
    } else {
      assert s == (a + w)[..|s|];
      assert s[..|a|] == a && s[|a|..] == w[..|s| - |a|];
    }
  }

  lemma PrefixJoin(s: Bytes, a: Bytes, w: Bytes)
    requires |s| >= |a| && s == a + s[|a|..] && w <= s[|a|..]
    ensures a + w <= s
  {
    assert s[..|a| + |w|] == a + s[|a|..][..|w|];
  }
}
