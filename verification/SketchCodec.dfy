/**
 The stored form of a sketch (internal/sketchstore/encode.go:100-228): exact
 aggregates, then each side's buckets as index deltas and counts, with whole
 counts packed as varints. The bits of a float are a parameter.
 */
module SketchCodec {
  import opened Options
  import opened Bytes
  import H = Histogram
  import W = SketchWire
  import R = SketchRank
  import LogCodec

  const FORMAT_VERSION: byte := 1
  const COUNTS_FLOAT: byte := 0
  const COUNTS_INTEGRAL: byte := 1

  // Eight bytes for each of the numbers a float can be, and back.
  ghost predicate IsFloat(isF64: real -> bool, bits: real -> bytes, unbits: bytes -> real) {
    forall x :: isF64(x) ==> |bits(x)| == 8 && unbits(bits(x)) == x
  }

  predicate IsWhole(w: real) {
    w == w.Floor as real && 0 <= w.Floor < TWO_64
  }

  predicate Integral(bins: seq<H.Bin>) {
    forall i :: 0 <= i < |bins| ==> IsWhole(bins[i].w)
  }

  // Counts that are not packed as varints are floats.
  ghost predicate CountsOk(bins: seq<H.Bin>, isF64: real -> bool) {
    Integral(bins) || forall i :: 0 <= i < |bins| ==> isF64(bins[i].w)
  }

  ghost predicate FloatsOk(w: W.Wire, isF64: real -> bool) {
    && isF64(w.gamma) && isF64(w.count) && isF64(w.sum) && isF64(w.min) && isF64(w.max) && isF64(w.zeros)
    && CountsOk(w.bins, isF64) && CountsOk(w.negBins, isF64)
  }

  predicate IndexOk(k: int) {
    R.MIN_INDEX <= k <= R.MAX_INDEX
  }

  predicate IndexesOk(bins: seq<H.Bin>) {
    forall i :: 0 <= i < |bins| ==> IndexOk(bins[i].k)
  }

  /* Eight bytes that come back. */

  // Multiples of 1/1024 between -2^53 and 2^53, each as a shifted integer.
  function Tick(x: real): int {
    (x * 1024.0).Floor + TWO_63
  }

  predicate IsTick(x: real) {
    (x * 1024.0).Floor as real == x * 1024.0 && 0 <= Tick(x) < TWO_64
  }

  function TickBits(x: real): bytes {
    if IsTick(x) then PutBe(Tick(x), 8) else []
  }

  function TickOf(p: bytes): real {
    (GetBe(p) - TWO_63) as real / 1024.0
  }

  // What is asked of floats can be met, also for numbers that are not whole: the round trips are about something.
  lemma TicksAreFloats()
    ensures IsFloat(IsTick, TickBits, TickOf) && IsTick(0.5) && IsTick(-2.25) && IsTick(1.0e9)
  {
    forall x | IsTick(x) ensures |TickBits(x)| == 8 && TickOf(TickBits(x)) == x {
      BeBack(Tick(x), 8);
    }
  }

  /* One bucket. */

  function PutBin(b: H.Bin, prev: int, whole: bool, bits: real -> bytes): bytes
    requires whole ==> IsWhole(b.w)
  {
    PutVarint(ToInt64(b.k - prev)) + if whole then PutUvarint(b.w.Floor) else bits(b.w)
  }

  // A bucket and what follows it.
  function GetBin(p: bytes, prev: int, whole: bool, unbits: bytes -> real): (r: Option<(H.Bin, bytes)>)
    ensures r.Some? ==> |r.value.1| < |p| && IndexOk(r.value.0.k)
  {
    var d := Varint(p);
    if d.None? then None
    else
      var k, q := ToInt64(prev + d.value.0), p[d.value.1..];
      if !IndexOk(k) then None
      else if whole then
        var c := Uvarint(q);
        if c.None? then None else Some((H.Bin(k, c.value.0 as real), q[c.value.1..]))
      else if |q| < 8 then None
      else Some((H.Bin(k, unbits(q[..8])), q[8..]))
  }

  lemma BinBack(b: H.Bin, prev: int, whole: bool, isF64: real -> bool, bits: real -> bytes, unbits: bytes -> real,
                rest: bytes)
    requires IsFloat(isF64, bits, unbits) && (if whole then IsWhole(b.w) else isF64(b.w)) && IndexOk(b.k)
    requires IndexOk(prev)
    ensures GetBin(PutBin(b, prev, whole, bits) + rest, prev, whole, unbits) == Some((b, rest))
  {
    var d := ToInt64(b.k - prev);
    var head, tail := PutVarint(d), if whole then PutUvarint(b.w.Floor) else bits(b.w);
    DeltaBack(b.k, prev);
    hide PutVarint, Varint, PutUvarint, Uvarint;
    VarintBack(d, tail + rest);
    assert head + tail + rest == head + (tail + rest);
    assert (head + (tail + rest))[|head|..] == tail + rest;
    if whole {
      UvarintBack(b.w.Floor, rest);
      assert (tail + rest)[|tail|..] == rest;
    } else {
      assert (tail + rest)[..8] == tail && (tail + rest)[8..] == rest;
    }
  }

  /* One side. */

  ghost function PutList(bins: seq<H.Bin>, prev: int, whole: bool, bits: real -> bytes): bytes
    requires whole ==> Integral(bins)
  {
    if bins == [] then [] else PutBin(bins[0], prev, whole, bits) + PutList(bins[1..], bins[0].k, whole, bits)
  }

  ghost function GetList(p: bytes, n: nat, prev: int, whole: bool, unbits: bytes -> real): Option<(seq<H.Bin>, bytes)> {
    if n == 0 then Some(([], p))
    else
      var b := GetBin(p, prev, whole, unbits);
      if b.None? then None
      else
        var rest := GetList(b.value.1, n - 1, b.value.0.k, whole, unbits);
        if rest.None? then None else Some(([b.value.0] + rest.value.0, rest.value.1))
  }

  lemma {:induction false} ListBack(bins: seq<H.Bin>, prev: int, whole: bool, isF64: real -> bool,
                                    bits: real -> bytes, unbits: bytes -> real, rest: bytes)
    requires IsFloat(isF64, bits, unbits)
    requires if whole then Integral(bins) else forall i :: 0 <= i < |bins| ==> isF64(bins[i].w)
    requires IndexesOk(bins) && IndexOk(prev)
    ensures GetList(PutList(bins, prev, whole, bits) + rest, |bins|, prev, whole, unbits) == Some((bins, rest))
  {
    hide PutBin, GetBin, IsFloat;
    if bins == [] {
      assert [] + rest == rest;
    } else {
      var b, more := bins[0], PutList(bins[1..], bins[0].k, whole, bits);
      assert [b] + bins[1..] == bins;
      assert PutList(bins, prev, whole, bits) + rest == PutBin(b, prev, whole, bits) + (more + rest);
      BinBack(b, prev, whole, isF64, bits, unbits, more + rest);
      ListBack(bins[1..], b.k, whole, isF64, bits, unbits, rest);
    }
  }

  ghost function PutBins(bins: seq<H.Bin>, bits: real -> bytes): bytes {
    var whole := Integral(bins);
    [if whole then COUNTS_INTEGRAL else COUNTS_FLOAT] + PutUvarint(|bins|) + PutList(bins, 0, whole, bits)
  }

  ghost function GetBins(p: bytes, unbits: bytes -> real): Option<(seq<H.Bin>, bytes)> {
    if p == [] || p[0] > COUNTS_INTEGRAL then None
    else
      var n := Uvarint(p[1..]);
      if n.None? || n.value.0 > H.MAX_BINS then None
      else GetList(p[1 + n.value.1..], n.value.0, 0, p[0] == COUNTS_INTEGRAL, unbits)
  }

  lemma BinsBack(bins: seq<H.Bin>, isF64: real -> bool, bits: real -> bytes, unbits: bytes -> real, rest: bytes)
    requires IsFloat(isF64, bits, unbits) && CountsOk(bins, isF64) && IndexesOk(bins) && |bins| <= H.MAX_BINS
    ensures GetBins(PutBins(bins, bits) + rest, unbits) == Some((bins, rest))
  {
    hide PutUvarint, Uvarint, GetList, PutList, IsFloat;
    var whole := Integral(bins);
    var flag, n, list := if whole then COUNTS_INTEGRAL
        else COUNTS_FLOAT, PutUvarint(|bins|), PutList(bins, 0, whole, bits);
    var p := PutBins(bins, bits) + rest;
    LogCodec.Parts3([flag], n, list + rest);
    assert p == [flag] + n + (list + rest);
    UvarintBack(|bins|, list + rest);
    ListBack(bins, 0, whole, isF64, bits, unbits, rest);
  }

  method AppendBins(buf: bytes, bins: seq<H.Bin>, bits: real -> bytes) returns (out: bytes)
    ensures out == buf + PutBins(bins, bits)
  {
    var whole, i := true, 0;
    while i < |bins|
      invariant 0 <= i <= |bins| && whole && forall j :: 0 <= j < i ==> IsWhole(bins[j].w)
    {
      if !IsWhole(bins[i].w) {
        whole := false;
        break;
      }
      i := i + 1;
    }
    assert whole == Integral(bins);
    var head := [if whole then COUNTS_INTEGRAL else COUNTS_FLOAT] + PutUvarint(|bins|);
    out := buf + head;
    var prev := 0;
    i := 0;
    hide PutUvarint, PutBin, IsWhole;
    while i < |bins|
      invariant 0 <= i <= |bins| && (whole ==> Integral(bins[i..]))
      invariant out + PutList(bins[i..], prev, whole, bits) == buf + head + PutList(bins, 0, whole, bits)
    {
      assert bins[i..][0] == bins[i] && bins[i..][1..] == bins[i + 1..];
      var one := PutBin(bins[i], prev, whole, bits);
      assert out + (one + PutList(bins[i + 1..], bins[i].k, whole, bits)) == out + one + PutList(bins[i + 1..],
          bins[i].k, whole, bits);
      out := out + one;
      prev := bins[i].k;
      i := i + 1;
    }
    assert bins[i..] == [] && out + [] == out;
    assert buf + head + PutList(bins, 0, whole, bits) == buf + (head + PutList(bins, 0, whole, bits));
  }

  method ReadList(all: bytes, n: nat, whole: bool, unbits: bytes -> real) returns (r: Option<(seq<H.Bin>, bytes)>)
    ensures r == GetList(all, n, 0, whole, unbits)
  {
    hide GetBin;
    var rest, bins, prev, i := all, [], 0, 0;
    JoinNothing(GetList(all, n, 0, whole, unbits));
    while i < n
      invariant 0 <= i <= n
      invariant GetList(all, n, 0, whole, unbits) == Join(bins, GetList(rest, n - i, prev, whole, unbits))
    {
      var b := GetBin(rest, prev, whole, unbits);
      if b.None? {
        return None;
      }
      JoinOne(bins, b.value.0, GetList(b.value.1, n - i - 1, b.value.0.k, whole, unbits));
      bins := bins + [b.value.0];
      rest, prev := b.value.1, b.value.0.k;
      i := i + 1;
    }
    assert bins + [] == bins;
    r := Some((bins, rest));
  }

  method ReadBins(p: bytes, unbits: bytes -> real) returns (r: Option<(seq<H.Bin>, bytes)>)
    ensures r == GetBins(p, unbits)
  {
    if p == [] || p[0] > COUNTS_INTEGRAL {
      return None;
    }
    hide Uvarint, GetList;
    var n := Uvarint(p[1..]);
    if n.None? || n.value.0 > H.MAX_BINS {
      return None;
    }
    r := ReadList(p[1 + n.value.1..], n.value.0, p[0] == COUNTS_INTEGRAL, unbits);
  }

  ghost function Join(bins: seq<H.Bin>, rest: Option<(seq<H.Bin>, bytes)>): Option<(seq<H.Bin>, bytes)> {
    if rest.None? then None else Some((bins + rest.value.0, rest.value.1))
  }

  lemma JoinNothing(rest: Option<(seq<H.Bin>, bytes)>)
    ensures Join([], rest) == rest
  {
    if rest.Some? {
      assert [] + rest.value.0 == rest.value.0;
    }
  }

  lemma JoinOne(bins: seq<H.Bin>, b: H.Bin, rest: Option<(seq<H.Bin>, bytes)>)
    ensures Join(bins, if rest.None? then None else Some(([b] + rest.value.0, rest.value.1))) == Join(bins + [b], rest)
  {
    if rest.Some? {
      assert bins + ([b] + rest.value.0) == bins + [b] + rest.value.0;
    }
  }

  /* The payload. */

  ghost function Head(w: W.Wire, bits: real -> bytes): bytes {
    [FORMAT_VERSION] + bits(w.gamma) + bits(w.count) + bits(w.sum) + bits(w.min) + bits(w.max) + bits(w.zeros)
  }

  ghost function PutPayload(w: W.Wire, bits: real -> bytes): bytes {
    Head(w, bits) + PutBins(w.bins, bits) + PutBins(w.negBins, bits)
  }

  ghost function GetPayload(p: bytes, unbits: bytes -> real): Option<W.Wire> {
    if |p| < 49 || p[0] != FORMAT_VERSION then None
    else
      var pos := GetBins(p[49..], unbits);
      if pos.None? then None
      else
        var neg := GetBins(pos.value.1, unbits);
        if neg.None? || neg.value.1 != [] then None
        else Some(W.Wire(unbits(p[1..9]), unbits(p[9..17]), unbits(p[17..25]), unbits(p[25..33]), unbits(p[33..41]),
            unbits(p[41..49]), pos.value.0, neg.value.0))
  }

  lemma HeadBack(w: W.Wire, isF64: real -> bool, bits: real -> bytes, unbits: bytes -> real, rest: bytes)
    requires IsFloat(isF64, bits, unbits) && FloatsOk(w, isF64)
    ensures var p := Head(w, bits) + rest;
            && |p| == 49 + |rest| && p[0] == FORMAT_VERSION && p[49..] == rest
            && unbits(p[1..9]) == w.gamma && unbits(p[9..17]) == w.count && unbits(p[17..25]) == w.sum
            && unbits(p[25..33]) == w.min && unbits(p[33..41]) == w.max && unbits(p[41..49]) == w.zeros
  {
    var a, b, c, d, e, f := bits(w.gamma), bits(w.count), bits(w.sum), bits(w.min), bits(w.max), bits(w.zeros);
    var p := Head(w, bits) + rest;
    assert p[1..9] == a && p[9..17] == b && p[17..25] == c && p[25..33] == d && p[33..41] == e && p[41..49] == f &&
        p[49..] == rest;
  }

  // Every sketch's message survives being stored.
  lemma PayloadBack(w: W.Wire, isF64: real -> bool, bits: real -> bytes, unbits: bytes -> real)
    requires IsFloat(isF64, bits, unbits) && FloatsOk(w, isF64) && IndexesOk(w.bins) && IndexesOk(w.negBins)
    requires |w.bins| <= H.MAX_BINS && |w.negBins| <= H.MAX_BINS
    ensures GetPayload(PutPayload(w, bits), unbits) == Some(w)
  {
    hide Head, PutBins, GetBins, IsFloat;
    var pos, neg := PutBins(w.bins, bits), PutBins(w.negBins, bits);
    assert Head(w, bits) + pos + neg == Head(w, bits) + (pos + neg) && neg + [] == neg;
    HeadBack(w, isF64, bits, unbits, pos + neg);
    BinsBack(w.bins, isF64, bits, unbits, neg);
    BinsBack(w.negBins, isF64, bits, unbits, []);
  }

  // So a stored sketch is a sketch of the same samples.
  lemma StoredIsWire(w: W.Wire, h: seq<R.Sample>, isF64: real -> bool, bits: real -> bytes, unbits: bytes -> real)
    requires IsFloat(isF64, bits, unbits) && FloatsOk(w, isF64) && W.IsWire(w, h)
    ensures GetPayload(PutPayload(w, bits), unbits) == Some(w) && W.WireOk(w)
  {
    W.SentIsOk(w, h);
    PayloadBack(w, isF64, bits, unbits);
  }
}
