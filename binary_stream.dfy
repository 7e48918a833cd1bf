/** `BinaryWriter`/`BinaryReader` over a stream, the little-endian primitive
    encodings the project file uses, and the decoders that read them.

    A stream is a sequence of units. Plain bytes are bytes. A single precision
    float is an opaque 4-unit chunk carrying its value, since the IEEE layout
    is not modelled. A string is a length unit followed by its characters, an
    abstract length-prefixed chunk in place of the 7-bit length prefix and
    UTF-8 bytes. When `ReadInt32` meets a float chunk it returns the chunk's
    bit pattern as an integer: a decoder's `bits` parameter stands for that
    layout. Reading a unit of another kind than the read expects is not
    modelled and yields `None`, as does reading past the end, which throws in
    the source.

    A decoder takes the stream from the cursor on and returns the value it
    reads with the stream after it; a reader keeps the part of its stream
    that it has not read yet. */
module BinaryStreams {
  import opened Common

  datatype Unit = Byte(b: byte) | FloatByte(x: real, k: nat) | StrLen(n: nat) | StrChar(c: char)

  /** A value decoded from the front of a stream, with the stream after it. */
  datatype Read<+T> = Read(value: T, rest: seq<Unit>)

  /** The bit pattern of a single precision float, read as a little-endian `int`. */
  type SingleBits = real -> int32

  /** The outcome of a reading method as a decoder result: its value and what is left unread. */
  function Outcome<T>(r: Option<T>, rest: seq<Unit>): Option<Read<T>> {
    if r.Some? then Some(Read(r.value, rest)) else None
  }

  /** Concatenation regroups; the round trips use it to move the stream after
      a record inside the record's encoding. */
  lemma Assoc(a: seq<Unit>, b: seq<Unit>, c: seq<Unit>)
    ensures (a + b) + c == a + (b + c)
  {
  }

  // ---------------------------------------------------------------------------
  // Encodings of the primitives

  const TwoTo32: int := 0x1_0000_0000

  function EncU8(b: byte): seq<Unit> {
    [Byte(b)]
  }

  /** `Write(ushort)`: low byte first. */
  function EncU16(v: nat): (u: seq<Unit>)
    requires v < 0x1_0000
    ensures |u| == 2
  {
    [Byte((v % 0x100) as byte), Byte((v / 0x100) as byte)]
  }

  /** The unsigned 32-bit pattern of an `int`: two's complement. */
  function Unsigned(v: int32): (u: nat)
    ensures u < TwoTo32
    ensures v >= 0 ==> u == v as int
  {
    if v < 0 then v as int + TwoTo32 else v as int
  }

  /** The `k` low bytes of `n`, low byte first. */
  function LowBytes(n: nat, k: nat): (u: seq<Unit>)
    ensures |u| == k
    decreases k
  {
    if k == 0 then [] else [Byte((n % 0x100) as byte)] + LowBytes(n / 0x100, k - 1)
  }

  /** `Write(int)`: four bytes of the two's complement pattern, low byte first. */
  function EncI32(v: int32): (u: seq<Unit>)
    ensures |u| == 4
  {
    LowBytes(Unsigned(v), 4)
  }

  /** `Write(float)`: an opaque four-unit chunk. */
  function EncF32(x: real): (u: seq<Unit>)
    ensures |u| == 4
  {
    [FloatByte(x, 0), FloatByte(x, 1), FloatByte(x, 2), FloatByte(x, 3)]
  }

  /** `Write(bool)`: one byte, 1 for true and 0 for false. */
  function EncBool(b: bool): (u: seq<Unit>)
    ensures |u| == 1
  {
    [Byte(if b then 1 else 0)]
  }

  /** `Write(string)`: the length, then the characters. */
  function EncStr(s: string): (u: seq<Unit>)
    ensures |u| == |s| + 1
    ensures u[0] == StrLen(|s|) && forall i :: 0 <= i < |s| ==> u[i + 1] == StrChar(s[i])
  {
    [StrLen(|s|)] + seq(|s|, i requires 0 <= i < |s| => StrChar(s[i]))
  }

  /** `Write(byte[])`: the bytes, without a length. */
  function EncBytes(bs: seq<byte>): (u: seq<Unit>)
    ensures |u| == |bs| && forall i :: 0 <= i < |bs| ==> u[i] == Byte(bs[i])
  {
    seq(|bs|, i requires 0 <= i < |bs| => Byte(bs[i]))
  }

  // ---------------------------------------------------------------------------
  // Decoders of the primitives

  function DecU8(s: seq<Unit>): (r: Option<Read<byte>>)
    ensures r.Some? ==> |s| >= 1 && r.value.rest == s[1..]
  {
    if |s| >= 1 && s[0].Byte? then Some(Read(s[0].b, s[1..])) else None
  }

  /** `ReadUInt16`: two bytes, low byte first. */
  function DecU16(s: seq<Unit>): (r: Option<Read<nat>>)
    ensures r.Some? ==> r.value.value < 0x1_0000 && |s| >= 2 && r.value.rest == s[2..]
  {
    if |s| >= 2 && s[0].Byte? && s[1].Byte? then
      Some(Read(s[0].b as nat + 0x100 * s[1].b as nat, s[2..]))
    else None
  }

  /** The `int` with unsigned pattern `n`. */
  function Signed(n: nat): (v: int32)
    requires n < TwoTo32
    ensures Unsigned(v) == n
  {
    if n < 0x8000_0000 then n as int32 else (n - TwoTo32) as int32
  }

  /** Four bytes. */
  predicate AreFourBytes(s: seq<Unit>) {
    |s| >= 4 && s[0].Byte? && s[1].Byte? && s[2].Byte? && s[3].Byte?
  }

  /** Four float units of one value, in order. */
  predicate IsFloatChunk(s: seq<Unit>) {
    && |s| >= 4
    && s[0].FloatByte? && s[0].k == 0
    && s[1] == FloatByte(s[0].x, 1)
    && s[2] == FloatByte(s[0].x, 2)
    && s[3] == FloatByte(s[0].x, 3)
  }

  /** `ReadInt32`: four bytes, low byte first, as two's complement; on a float
      chunk, the chunk's bit pattern. */
  function DecI32(bits: SingleBits, s: seq<Unit>): (r: Option<Read<int32>>)
    ensures r.Some? ==> |s| >= 4 && r.value.rest == s[4..]
  {
    if AreFourBytes(s) then
      var n := s[0].b as nat + 0x100 * (s[1].b as nat + 0x100 * (s[2].b as nat + 0x100 * s[3].b as nat));
      Some(Read(Signed(n), s[4..]))
    else if IsFloatChunk(s) then Some(Read(bits(s[0].x), s[4..]))
    else None
  }

  /** `ReadSingle`: a float chunk. */
  function DecF32(s: seq<Unit>): (r: Option<Read<real>>)
    ensures r.Some? ==> |s| >= 4 && r.value.rest == s[4..]
  {
    if IsFloatChunk(s) then Some(Read(s[0].x, s[4..])) else None
  }

  /** `ReadBoolean`: one byte, true unless it is zero. */
  function DecBool(s: seq<Unit>): (r: Option<Read<bool>>)
    ensures r.Some? ==> |s| >= 1 && r.value.rest == s[1..]
  {
    if |s| >= 1 && s[0].Byte? then Some(Read(s[0].b != 0, s[1..])) else None
  }

  predicate AreChars(s: seq<Unit>, n: nat) {
    n <= |s| && forall i :: 0 <= i < n ==> s[i].StrChar?
  }

  /** `ReadString`: a length unit and that many characters. */
  function DecStr(s: seq<Unit>): (r: Option<Read<string>>)
    ensures r.Some? ==> 1 + |r.value.value| <= |s| && r.value.rest == s[1 + |r.value.value|..]
  {
    if |s| >= 1 && s[0].StrLen? && AreChars(s[1..], s[0].n) then
      var n := s[0].n;
      Some(Read(seq(n, i requires 0 <= i < n => s[1 + i].c), s[1 + n..]))
    else None
  }

  predicate AreBytes(s: seq<Unit>, n: nat) {
    n <= |s| && forall i :: 0 <= i < n ==> s[i].Byte?
  }

  /** `ReadBytes(count)`: a negative count throws; otherwise as many bytes as
      are asked for and left in the stream. */
  function DecBytes(s: seq<Unit>, count: int32): (r: Option<Read<seq<byte>>>)
    ensures r.Some? ==> 0 <= count && |r.value.value| <= count as int && |r.value.value| <= |s|
    ensures r.Some? ==> r.value.rest == s[|r.value.value|..]
    ensures r.Some? && count as int <= |s| ==> |r.value.value| == count as int
  {
    if count < 0 then None
    else
      var n := if count as int <= |s| then count as int else |s|;
      if AreBytes(s, n) then Some(Read(seq(n, i requires 0 <= i < n => s[i].b), s[n..]))
      else None
  }

  // ---------------------------------------------------------------------------
  // Each decoder reads back what its encoder wrote, leaving what follows

  lemma U8RoundTrip(b: byte, rest: seq<Unit>)
    ensures DecU8(EncU8(b) + rest) == Some(Read(b, rest))
  {
    assert (EncU8(b) + rest)[1..] == rest;
  }

  lemma U16RoundTrip(v: nat, rest: seq<Unit>)
    requires v < 0x1_0000
    ensures DecU16(EncU16(v) + rest) == Some(Read(v, rest))
  {
    assert (EncU16(v) + rest)[2..] == rest;
  }

  /** The four low bytes of `n`, spelled out. */
  lemma FourLowBytes(n: nat)
    ensures LowBytes(n, 4) ==
              [Byte((n % 0x100) as byte), Byte((n / 0x100 % 0x100) as byte),
               Byte((n / 0x100 / 0x100 % 0x100) as byte), Byte((n / 0x100 / 0x100 / 0x100 % 0x100) as byte)]
  {
    var r1 := n / 0x100;
    var r2 := r1 / 0x100;
    var r3 := r2 / 0x100;
    assert LowBytes(r3, 1) == [Byte((r3 % 0x100) as byte)] + LowBytes(r3 / 0x100, 0);
    assert LowBytes(r2, 2) == [Byte((r2 % 0x100) as byte)] + LowBytes(r3, 1);
    assert LowBytes(r1, 3) == [Byte((r1 % 0x100) as byte)] + LowBytes(r2, 2);
    assert LowBytes(n, 4) == [Byte((n % 0x100) as byte)] + LowBytes(r1, 3);
  }

  /** The four bytes of a 32-bit pattern put it back together. */
  lemma BytesOfUnsigned(n: nat)
    requires n < TwoTo32
    ensures n % 0x100 + 0x100 * (n / 0x100 % 0x100 + 0x100 * (n / 0x100 / 0x100 % 0x100 +
              0x100 * (n / 0x100 / 0x100 / 0x100 % 0x100))) == n
  {
    var r1 := n / 0x100;
    var r2 := r1 / 0x100;
    var r3 := r2 / 0x100;
    assert r3 < 0x100;
    assert r2 == r2 % 0x100 + 0x100 * r3;
    assert r1 == r1 % 0x100 + 0x100 * r2;
    assert n == n % 0x100 + 0x100 * r1;
  }

  lemma I32RoundTrip(bits: SingleBits, v: int32, rest: seq<Unit>)
    ensures DecI32(bits, EncI32(v) + rest) == Some(Read(v, rest))
  {
    var s := EncI32(v) + rest;
    FourLowBytes(Unsigned(v));
    assert s[4..] == rest;
    assert AreFourBytes(s);
    BytesOfUnsigned(Unsigned(v));
  }

  lemma F32RoundTrip(x: real, rest: seq<Unit>)
    ensures DecF32(EncF32(x) + rest) == Some(Read(x, rest))
  {
    assert (EncF32(x) + rest)[4..] == rest;
  }

  /** `ReadInt32` over a float chunk: the bit pattern of the float, not its value. */
  lemma I32OfF32(bits: SingleBits, x: real, rest: seq<Unit>)
    ensures DecI32(bits, EncF32(x) + rest) == Some(Read(bits(x), rest))
  {
    var s := EncF32(x) + rest;
    assert s[4..] == rest;
    assert !s[0].Byte?;
  }

  lemma BoolRoundTrip(b: bool, rest: seq<Unit>)
    ensures DecBool(EncBool(b) + rest) == Some(Read(b, rest))
  {
    assert (EncBool(b) + rest)[1..] == rest;
  }

  lemma StrRoundTrip(str: string, rest: seq<Unit>)
    ensures DecStr(EncStr(str) + rest) == Some(Read(str, rest))
  {
    var s := EncStr(str) + rest;
    assert s[0] == StrLen(|str|);
    assert forall i :: 0 <= i < |str| ==> s[1..][i] == StrChar(str[i]);
    assert s[1 + |str|..] == rest;
    assert seq(|str|, i requires 0 <= i < |str| => s[1 + i].c) == str;
  }

  lemma BytesRoundTrip(bs: seq<byte>, rest: seq<Unit>)
    requires |bs| <= MaxCount
    ensures DecBytes(EncBytes(bs) + rest, |bs| as int32) == Some(Read(bs, rest))
  {
    var s := EncBytes(bs) + rest;
    assert forall i :: 0 <= i < |bs| ==> s[i] == Byte(bs[i]);
    assert s[|bs|..] == rest;
    assert seq(|bs|, i requires 0 <= i < |bs| => s[i].b) == bs;
  }

  /** The same, for a value at the front of a longer encoding. */
  lemma I32Front(bits: SingleBits, v: int32, e: seq<Unit>, rest: seq<Unit>)
    ensures DecI32(bits, (EncI32(v) + e) + rest) == Some(Read(v, e + rest))
  {
    Assoc(EncI32(v), e, rest);
    I32RoundTrip(bits, v, e + rest);
  }

  lemma F32Front(x: real, e: seq<Unit>, rest: seq<Unit>)
    ensures DecF32((EncF32(x) + e) + rest) == Some(Read(x, e + rest))
  {
    Assoc(EncF32(x), e, rest);
    F32RoundTrip(x, e + rest);
  }

  lemma BoolFront(b: bool, e: seq<Unit>, rest: seq<Unit>)
    ensures DecBool((EncBool(b) + e) + rest) == Some(Read(b, e + rest))
  {
    Assoc(EncBool(b), e, rest);
    BoolRoundTrip(b, e + rest);
  }

  lemma StrFront(str: string, e: seq<Unit>, rest: seq<Unit>)
    ensures DecStr((EncStr(str) + e) + rest) == Some(Read(str, e + rest))
  {
    Assoc(EncStr(str), e, rest);
    StrRoundTrip(str, e + rest);
  }

  // ---------------------------------------------------------------------------
  // Count-prefixed lists

  /** The items of a list, encoded one after the other. */
  function EncList<T>(enc: T --> seq<Unit>, xs: seq<T>): seq<Unit>
    requires forall i :: 0 <= i < |xs| ==> enc.requires(xs[i])
    decreases |xs|, 1
  {
    if xs == [] then [] else EncItems(enc, xs)
  }

  /** A non-empty list: its first item, then the others. */
  function EncItems<T>(enc: T --> seq<Unit>, xs: seq<T>): seq<Unit>
    requires xs != [] && forall i :: 0 <= i < |xs| ==> enc.requires(xs[i])
    decreases |xs|, 0
  {
    enc(xs[0]) + EncList(enc, xs[1..])
  }

  lemma {:induction false} EncListSnoc<T>(enc: T --> seq<Unit>, xs: seq<T>, x: T)
    requires forall i :: 0 <= i < |xs| ==> enc.requires(xs[i])
    requires enc.requires(x)
    ensures EncList(enc, xs + [x]) == EncList(enc, xs) + enc(x)
  {
    if xs == [] {
      assert [x][1..] == [];
    } else {
      assert (xs + [x])[1..] == xs[1..] + [x];
      EncListSnoc(enc, xs[1..], x);
    }
  }

  /** Writing item `i` after the first `i` items of a list, behind what was
      written before the list, leaves the first `i + 1` items written. */
  lemma EncListPrefix<T>(enc: T --> seq<Unit>, xs: seq<T>, i: nat, start: seq<Unit>)
    requires i < |xs| && forall k :: 0 <= k < |xs| ==> enc.requires(xs[k])
    ensures start + EncList(enc, xs[..i + 1]) == (start + EncList(enc, xs[..i])) + enc(xs[i])
  {
    assert xs[..i + 1] == xs[..i] + [xs[i]];
    EncListSnoc(enc, xs[..i], xs[i]);
    Assoc(start, EncList(enc, xs[..i]), enc(xs[i]));
  }

  /** `count` items read one after the other with `dec`, in order. */
  function DecMany<T>(dec: (SingleBits, seq<Unit>) -> Option<Read<T>>, bits: SingleBits,
                      s: seq<Unit>, count: nat): Option<Read<seq<T>>>
    decreases count, 1
  {
    if count == 0 then Some(Read([], s)) else DecItems(dec, bits, s, count)
  }

  /** At least one item: the first, then the others. */
  function DecItems<T>(dec: (SingleBits, seq<Unit>) -> Option<Read<T>>, bits: SingleBits,
                       s: seq<Unit>, count: nat): Option<Read<seq<T>>>
    requires count > 0
    decreases count, 0
  {
    var x :- dec(bits, s);
    var rest :- DecMany(dec, bits, x.rest, count - 1);
    Some(Read([x.value] + rest.value, rest.rest))
  }

  /** A non-empty list read: its first item, then the rest. */
  lemma DecManyCons<T>(dec: (SingleBits, seq<Unit>) -> Option<Read<T>>, bits: SingleBits,
                       s: seq<Unit>, count: nat, x: T, mid: seq<Unit>, xs: seq<T>, rest: seq<Unit>)
    requires count > 0 && dec(bits, s) == Some(Read(x, mid))
    requires DecMany(dec, bits, mid, count - 1) == Some(Read(xs, rest))
    ensures DecMany(dec, bits, s, count) == Some(Read([x] + xs, rest))
  {
  }

  /** A list written with `enc` reads back with `dec`, item for item, whenever reading
      one encoded item gives back `ys[i]` and leaves what followed it. */
  lemma {:induction false} ListRoundTrip<T, S>(enc: T --> seq<Unit>,
                                               dec: (SingleBits, seq<Unit>) -> Option<Read<S>>,
                                               bits: SingleBits, xs: seq<T>, ys: seq<S>, rest: seq<Unit>)
    requires forall i :: 0 <= i < |xs| ==> enc.requires(xs[i])
    requires |ys| == |xs|
    requires forall i, r :: 0 <= i < |xs| ==> dec(bits, enc(xs[i]) + r) == Some(Read(ys[i], r))
    ensures DecMany(dec, bits, EncList(enc, xs) + rest, |xs|) == Some(Read(ys, rest))
    decreases |xs|
  {
    if xs == [] {
      assert EncList(enc, xs) + rest == rest;
    } else {
      var tail := EncList(enc, xs[1..]);
      var s := enc(xs[0]) + (tail + rest);
      assert EncList(enc, xs) + rest == s by {
        Assoc(enc(xs[0]), tail, rest);
      }
      assert dec(bits, s) == Some(Read(ys[0], tail + rest));
      forall i, r | 0 <= i < |xs[1..]|
        ensures dec(bits, enc(xs[1..][i]) + r) == Some(Read(ys[1..][i], r))
      {
        assert xs[1..][i] == xs[i + 1];
      }
      ListRoundTrip(enc, dec, bits, xs[1..], ys[1..], rest);
      DecManyCons(dec, bits, s, |xs|, ys[0], tail + rest, ys[1..], rest);
      assert [ys[0]] + ys[1..] == ys;
    }
  }

  /** Reading a list item by item, as the reading loops do: one more item
      after the first `i` extends what has been read. */
  lemma {:induction false} DecManySnoc<T>(dec: (SingleBits, seq<Unit>) -> Option<Read<T>>, bits: SingleBits,
                                          s: seq<Unit>, i: nat, xs: seq<T>, mid: seq<Unit>, x: T, after: seq<Unit>)
    requires DecMany(dec, bits, s, i) == Some(Read(xs, mid))
    requires dec(bits, mid) == Some(Read(x, after))
    ensures DecMany(dec, bits, s, i + 1) == Some(Read(xs + [x], after))
    decreases i
  {
    if i == 0 {
      assert DecMany(dec, bits, after, 0) == Some(Read([], after));
      assert xs + [x] == [x] + [];
    } else {
      var first := dec(bits, s).value;
      var tail := DecMany(dec, bits, first.rest, i - 1).value;
      DecManySnoc(dec, bits, first.rest, i - 1, tail.value, mid, x, after);
      assert [first.value] + (tail.value + [x]) == xs + [x];
    }
  }

  /** An item after the first `i` that cannot be read fails every longer list. */
  lemma {:induction false} DecManyStuck<T>(dec: (SingleBits, seq<Unit>) -> Option<Read<T>>, bits: SingleBits,
                                           s: seq<Unit>, i: nat, count: nat, xs: seq<T>, mid: seq<Unit>)
    requires i < count
    requires DecMany(dec, bits, s, i) == Some(Read(xs, mid))
    requires dec(bits, mid).None?
    ensures DecMany(dec, bits, s, count) == None
    decreases i
  {
    if i > 0 {
      var first := dec(bits, s).value;
      var tail := DecMany(dec, bits, first.rest, i - 1).value;
      DecManyStuck(dec, bits, first.rest, i - 1, count - 1, tail.value, mid);
    }
  }

  /** A list of `count` items decodes to `count` items. */
  lemma {:induction false} DecManyLength<T>(dec: (SingleBits, seq<Unit>) -> Option<Read<T>>, bits: SingleBits,
                                            s: seq<Unit>, count: nat)
    ensures DecMany(dec, bits, s, count).Some? ==> |DecMany(dec, bits, s, count).value.value| == count
    decreases count
  {
    if count > 0 {
      var x := dec(bits, s);
      if x.Some? {
        DecManyLength(dec, bits, x.value.rest, count - 1);
      }
    }
  }

  // ---------------------------------------------------------------------------
  // The writer and the reader

  class BinaryWriter {
    /** Everything written so far. */
    var written: seq<Unit>

    constructor ()
      ensures written == []
    {
      written := [];
    }

    method WriteU8(b: byte)
      modifies this
      ensures written == old(written) + EncU8(b)
    {
      written := written + EncU8(b);
    }

    method WriteU16(v: nat)
      requires v < 0x1_0000
      modifies this
      ensures written == old(written) + EncU16(v)
    {
      written := written + EncU16(v);
    }

    method WriteI32(v: int32)
      modifies this
      ensures written == old(written) + EncI32(v)
    {
      written := written + EncI32(v);
    }

    method WriteF32(x: real)
      modifies this
      ensures written == old(written) + EncF32(x)
    {
      written := written + EncF32(x);
    }

    method WriteBool(b: bool)
      modifies this
      ensures written == old(written) + EncBool(b)
    {
      written := written + EncBool(b);
    }

    method WriteStr(s: string)
      modifies this
      ensures written == old(written) + EncStr(s)
    {
      written := written + EncStr(s);
    }

    method WriteBytes(bs: seq<byte>)
      modifies this
      ensures written == old(written) + EncBytes(bs)
    {
      written := written + EncBytes(bs);
    }
  }

  class BinaryReader {
    /** The stream after the cursor; `bits` is the layout of its float chunks. */
    var unread: seq<Unit>
    const bits: SingleBits

    constructor (data: seq<Unit>, bits: SingleBits)
      ensures unread == data && this.bits == bits
    {
      unread := data;
      this.bits := bits;
    }

    method ReadU8() returns (r: Option<byte>)
      modifies this
      ensures Outcome(r, unread) == DecU8(old(unread))
    {
      if |unread| >= 1 && unread[0].Byte? {
        r := Some(unread[0].b);
        unread := unread[1..];
      } else {
        r := None;
      }
    }

    method ReadU16() returns (r: Option<nat>)
      modifies this
      ensures Outcome(r, unread) == DecU16(old(unread))
    {
      var lo := ReadU8();
      if lo.None? {
        return None;
      }
      var hi := ReadU8();
      if hi.None? {
        return None;
      }
      assert old(unread)[1..][1..] == old(unread)[2..];
      r := Some(lo.value as nat + 0x100 * hi.value as nat);
    }

    method ReadI32() returns (r: Option<int32>)
      modifies this
      ensures Outcome(r, unread) == DecI32(bits, old(unread))
    {
      r := None;
      var s := unread;
      if AreFourBytes(s) {
        var n := s[0].b as nat + 0x100 * (s[1].b as nat + 0x100 * (s[2].b as nat + 0x100 * s[3].b as nat));
        r := Some(Signed(n));
        unread := s[4..];
      } else if IsFloatChunk(s) {
        r := Some(bits(s[0].x));
        unread := s[4..];
      }
    }

    method ReadF32() returns (r: Option<real>)
      modifies this
      ensures Outcome(r, unread) == DecF32(old(unread))
    {
      r := None;
      if IsFloatChunk(unread) {
        r := Some(unread[0].x);
        unread := unread[4..];
      }
    }

    method ReadBool() returns (r: Option<bool>)
      modifies this
      ensures Outcome(r, unread) == DecBool(old(unread))
    {
      var b := ReadU8();
      if b.None? {
        return None;
      }
      r := Some(b.value != 0);
    }

    method ReadStr() returns (r: Option<string>)
      modifies this
      ensures Outcome(r, unread) == DecStr(old(unread))
    {
      var s := unread;
      if !(|s| >= 1 && s[0].StrLen?) {
        return None;
      }
      var n := s[0].n;
      var str: string := [];
      var i := 0;
      while i < n
        invariant i <= n && |str| == i
        invariant AreChars(s[1..], i)
        invariant forall k :: 0 <= k < i ==> str[k] == s[1 + k].c
      {
        if !(1 + i < |s| && s[1 + i].StrChar?) {
          assert !AreChars(s[1..], n);
          return None;
        }
        str := str + [s[1 + i].c];
        i := i + 1;
      }
      assert str == seq(n, k requires 0 <= k < n => s[1 + k].c);
      r := Some(str);
      unread := s[1 + n..];
    }

    method ReadBytes(count: int32) returns (r: Option<seq<byte>>)
      modifies this
      ensures Outcome(r, unread) == DecBytes(old(unread), count)
    {
      if count < 0 {
        return None;
      }
      var s := unread;
      var n := if count as int <= |s| then count as int else |s|;
      var bs: seq<byte> := [];
      var i := 0;
      while i < n
        invariant i <= n && |bs| == i
        invariant AreBytes(s, i)
        invariant forall k :: 0 <= k < i ==> bs[k] == s[k].b
      {
        if !s[i].Byte? {
          assert !AreBytes(s, n);
          return None;
        }
        bs := bs + [s[i].b];
        i := i + 1;
      }
      assert bs == seq(n, k requires 0 <= k < n => s[k].b);
      r := Some(bs);
      unread := s[n..];
    }
  }
}
