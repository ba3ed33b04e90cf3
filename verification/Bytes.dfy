/**
 Byte encodings: big-endian integers, and base-128 varints (unsigned LEB128,
 section 7.6 of DWARF 5) with zigzag for signed values, as encoding/binary
 writes and reads them. 64-bit wrap-around is written out.
 */
module Bytes {
  import opened Options

  newtype byte = x: int | 0 <= x < 256

  type bytes = seq<byte>

  const TWO_63: int := 0x8000_0000_0000_0000
  const TWO_64: int := 0x1_0000_0000_0000_0000

  predicate IsInt64(x: int) { -TWO_63 <= x < TWO_63 }

  predicate IsUint64(x: int) { 0 <= x < TWO_64 }

  // Arithmetic wraps.
  function ToUint64(x: int): (r: int)
    ensures IsUint64(r)
  {
    x % TWO_64
  }

  function ToInt64(x: int): (r: int)
    ensures IsInt64(r)
  {
    (x + TWO_63) % TWO_64 - TWO_63
  }

  // A difference that wrapped still leads back.
  lemma DeltaBack(x: int, prev: int)
    requires IsInt64(x) && IsInt64(prev)
    ensures ToInt64(prev + ToInt64(x - prev)) == x
  {
  }

  lemma SeqDeltaBack(x: int, prev: int)
    requires IsUint64(x) && IsUint64(prev)
    ensures ToUint64(prev + ToUint64(ToInt64(x - prev))) == x
  {
  }

  /* Big-endian. */

  // 256^n
  function Span(n: nat): nat {
    if n == 0 then 1 else 256 * Span(n - 1)
  }

  function PutBe(x: nat, n: nat): (r: bytes)
    requires x < Span(n)
    ensures |r| == n
  {
    if n == 0 then [] else PutBe(x / 256, n - 1) + [(x % 256) as byte]
  }

  function GetBe(b: bytes): (r: nat)
    ensures r < Span(|b|)
  {
    if b == [] then 0 else 256 * GetBe(b[..|b| - 1]) + b[|b| - 1] as nat
  }

  lemma {:induction false} BeBack(x: nat, n: nat)
    requires x < Span(n)
    ensures GetBe(PutBe(x, n)) == x
  {
    if n > 0 {
      var b := PutBe(x, n);
      assert b[..|b| - 1] == PutBe(x / 256, n - 1);
      BeBack(x / 256, n - 1);
    }
  }

  /* Varints. */

  function PutUvarint(x: nat): (r: bytes)
    ensures r != []
  {
    if x < 128 then [x as byte] else [(x % 128 + 128) as byte] + PutUvarint(x / 128)
  }

  const MAX_VARINT_LEN := 10

  // The value and the bytes read, from the i-th byte of an encoding; none if the buffer ends first or the
  // value does not fit 64 bits.
  function UvarintFrom(b: bytes, i: nat): (r: Option<(nat, nat)>)
    ensures r.Some? ==> 0 < r.value.1 <= |b|
  {
    if b == [] || i == MAX_VARINT_LEN then None
    else if b[0] < 128 then (if i == MAX_VARINT_LEN - 1 && b[0] > 1 then None else Some((b[0] as nat, 1)))
    else
      var rest := UvarintFrom(b[1..], i + 1);
      if rest.None? then None else Some((b[0] as nat - 128 + 128 * rest.value.0, rest.value.1 + 1))
  }

  function Uvarint(b: bytes): (r: Option<(nat, nat)>)
    ensures r.Some? ==> 0 < r.value.1 <= |b|
  {
    UvarintFrom(b, 0)
  }

  // What still fits from the i-th byte on: 2^(64 - 7i).
  function Room(i: nat): nat
    requires i < MAX_VARINT_LEN
    decreases MAX_VARINT_LEN - i
  {
    if i == MAX_VARINT_LEN - 1 then 2 else 128 * Room(i + 1)
  }

  lemma {:induction false} UvarintBackFrom(x: nat, rest: bytes, i: nat)
    requires i < MAX_VARINT_LEN && x < Room(i)
    ensures UvarintFrom(PutUvarint(x) + rest, i) == Some((x, |PutUvarint(x)|))
    decreases x
  {
    var b := PutUvarint(x) + rest;
    if x >= 128 {
      assert b[1..] == PutUvarint(x / 128) + rest;
      UvarintBackFrom(x / 128, rest, i + 1);
    }
  }

  lemma UvarintBack(x: nat, rest: bytes)
    requires IsUint64(x)
    ensures Uvarint(PutUvarint(x) + rest) == Some((x, |PutUvarint(x)|))
  {
    assert Room(0) == TWO_64 by {
      assert Room(7) == 128 * 128 * 2;
      assert Room(5) == 128 * 128 * Room(7);
      assert Room(3) == 128 * 128 * Room(5);
      assert Room(1) == 128 * 128 * Room(3);
    }
    UvarintBackFrom(x, rest, 0);
  }

  function Zigzag(x: int): (r: nat)
    requires IsInt64(x)
    ensures IsUint64(r)
  {
    if x >= 0 then 2 * x else -2 * x - 1
  }

  function Unzigzag(u: nat): int {
    if u % 2 == 0 then u / 2 else -(u / 2) - 1
  }

  function PutVarint(x: int): (r: bytes)
    requires IsInt64(x)
    ensures r != []
  {
    PutUvarint(Zigzag(x))
  }

  function Varint(b: bytes): (r: Option<(int, nat)>)
    ensures r.Some? ==> 0 < r.value.1 <= |b|
  {
    var u := Uvarint(b);
    if u.None? then None else Some((Unzigzag(u.value.0), u.value.1))
  }

  lemma VarintBack(x: int, rest: bytes)
    requires IsInt64(x)
    ensures Varint(PutVarint(x) + rest) == Some((x, |PutVarint(x)|))
  {
    UvarintBack(Zigzag(x), rest);
  }

  /* Records of big-endian fields. */

  datatype Field = Field(value: nat, width: nat)

  ghost predicate Fits(fs: seq<Field>) {
    forall f :: f in fs ==> f.value < Span(f.width)
  }

  function Widths(ws: seq<nat>): nat {
    if ws == [] then 0 else ws[0] + Widths(ws[1..])
  }

  function Pack(fs: seq<Field>): bytes
    requires Fits(fs)
  {
    if fs == [] then [] else assert fs[0] in fs; PutBe(fs[0].value, fs[0].width) + Pack(fs[1..])
  }

  function Unpack(b: bytes, ws: seq<nat>): (r: seq<nat>)
    requires Widths(ws) <= |b|
    ensures |r| == |ws|
  {
    if ws == [] then [] else [GetBe(b[..ws[0]])] + Unpack(b[ws[0]..], ws[1..])
  }

  lemma {:induction false} PackBack(fs: seq<Field>, ws: seq<nat>, rest: bytes)
    requires Fits(fs) && |ws| == |fs| && forall i :: 0 <= i < |fs| ==> fs[i].width == ws[i]
    ensures |Pack(fs)| == Widths(ws)
    ensures var v := Unpack(Pack(fs) + rest, ws); forall i :: 0 <= i < |fs| ==> v[i] == fs[i].value
  {
    if fs != [] {
      assert fs[0] in fs;
      BeBack(fs[0].value, fs[0].width);
      PackBack(fs[1..], ws[1..], rest);
      var head := PutBe(fs[0].value, fs[0].width);
      var b := Pack(fs) + rest;
      assert b[..ws[0]] == head && b[ws[0]..] == Pack(fs[1..]) + rest;
    }
  }
}
