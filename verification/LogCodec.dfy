/**
 The log store's encodings: a block's entries (internal/logstore/chunk.go:147-230)
 and a WAL record (internal/logstore/store.go:454-493). zstd and CRC32C are
 parameters; of zstd only that it inverts is used, of the checksum nothing.
 */
module LogCodec {
  import opened Options
  import opened Bytes

  const MAX_BLOCK_RAW := 16 * 1024 * 1024
  const MAX_BLOCK_COUNT := 0x40_0000

  datatype RawEntry = RawEntry(ts: int, num: int, body: bytes)

  datatype BlockMeta = BlockMeta(offset: int, minTs: int, maxTs: int, n: nat, rawLen: nat, compLen: nat, crc: nat,
      lastSeq: int, bloomLen: nat)

  // The machine's types: 64-bit timestamp and number, a length that fits.
  ghost predicate EntryOk(e: RawEntry) {
    IsInt64(e.ts) && IsUint64(e.num) && IsUint64(|e.body|)
  }

  ghost predicate EntriesOk(es: seq<RawEntry>) {
    forall e :: e in es ==> EntryOk(e)
  }

  ghost predicate IsCodec(zip: bytes -> bytes, unzip: bytes -> Option<bytes>) {
    forall raw :: unzip(zip(raw)) == Some(raw)
  }

  /* Entries, one after the other. */

  function PutEntry(e: RawEntry, prev: int, prevSeq: int): bytes {
    PutVarint(ToInt64(e.ts - prev)) + PutVarint(ToInt64(e.num - prevSeq)) + PutUvarint(|e.body|) + e.body
  }

  ghost function PutEntries(es: seq<RawEntry>, prev: int, prevSeq: int): bytes {
    if es == [] then [] else PutEntry(es[0], prev, prevSeq) + PutEntries(es[1..], es[0].ts, es[0].num)
  }

  // One entry and what follows it.
  function GetEntry(raw: bytes, prev: int, prevSeq: int): (r: Option<(RawEntry, bytes)>)
    ensures r.Some? ==> |r.value.1| < |raw|
  {
    var d := Varint(raw);
    if d.None? then None
    else
      var a := raw[d.value.1..];
      var s := Varint(a);
      if s.None? then None
      else
        var b := a[s.value.1..];
        var l := Uvarint(b);
        if l.None? || l.value.0 > |b| - l.value.1 then None
        else
          var (n, k) := l.value;
          Some((RawEntry(ToInt64(prev + d.value.0), ToUint64(prevSeq + ToUint64(s.value.0)), b[k..k + n]), b[k + n..]))
  }

  ghost function GetEntries(raw: bytes, n: nat, prev: int, prevSeq: int): Option<seq<RawEntry>> {
    if n == 0 then (if raw == [] then Some([]) else None)
    else
      var e := GetEntry(raw, prev, prevSeq);
      if e.None? then None
      else
        var rest := GetEntries(e.value.1, n - 1, e.value.0.ts, e.value.0.num);
        if rest.None? then None else Some([e.value.0] + rest.value)
  }

  lemma {:induction false} GetEntriesCount(raw: bytes, n: nat, prev: int, prevSeq: int)
    ensures GetEntries(raw, n, prev, prevSeq).Some? ==> |GetEntries(raw, n, prev, prevSeq).value| == n
    decreases n
  {
    hide GetEntry;
    if n > 0 {
      var e := GetEntry(raw, prev, prevSeq);
      if e.Some? {
        GetEntriesCount(e.value.1, n - 1, e.value.0.ts, e.value.0.num);
      }
    }
  }

  lemma Parts(a: bytes, b: bytes, c: bytes, d: bytes, rest: bytes)
    ensures var raw := a + b + c + d + rest;
            && raw == a + (b + (c + (d + rest))) && raw[|a|..] == b + (c + (d + rest))
            && (b + (c + (d + rest)))[|b|..] == c + (d + rest)
            && (c + (d + rest))[|c|..|c| + |d|] == d && (c + (d + rest))[|c| + |d|..] == rest
  {
  }

  lemma EntryBack(e: RawEntry, prev: int, prevSeq: int, rest: bytes)
    requires EntryOk(e) && IsInt64(prev) && IsUint64(prevSeq)
    ensures GetEntry(PutEntry(e, prev, prevSeq) + rest, prev, prevSeq) == Some((e, rest))
  {
    hide Varint, Uvarint, PutVarint, PutUvarint, ToInt64, ToUint64;
    var d, s, l := ToInt64(e.ts - prev), ToInt64(e.num - prevSeq), |e.body|;
    DeltaBack(e.ts, prev);
    SeqDeltaBack(e.num, prevSeq);
    Parts(PutVarint(d), PutVarint(s), PutUvarint(l), e.body, rest);
    VarintBack(d, PutVarint(s) + (PutUvarint(l) + (e.body + rest)));
    VarintBack(s, PutUvarint(l) + (e.body + rest));
    UvarintBack(l, e.body + rest);
  }

  lemma {:induction false} EntriesBack(es: seq<RawEntry>, prev: int, prevSeq: int)
    requires EntriesOk(es) && IsInt64(prev) && IsUint64(prevSeq)
    ensures GetEntries(PutEntries(es, prev, prevSeq), |es|, prev, prevSeq) == Some(es)
  {
    hide PutEntry, GetEntry;
    if es != [] {
      assert es[0] in es && [es[0]] + es[1..] == es;
      EntryBack(es[0], prev, prevSeq, PutEntries(es[1..], es[0].ts, es[0].num));
      EntriesBack(es[1..], es[0].ts, es[0].num);
    }
  }

  /* Blocks. */

  ghost predicate Bounds(es: seq<RawEntry>, min: int, max: int, last: int) {
    && (forall e :: e in es ==> min <= e.ts <= max && e.num <= last)
    && (exists e :: e in es && e.ts == min) && (exists e :: e in es && e.ts == max) &&
           (exists e :: e in es && e.num == last)
  }

  // The least and greatest timestamp and the highest number.
  method FindBounds(es: seq<RawEntry>) returns (min: int, max: int, last: int)
    requires es != []
    ensures Bounds(es, min, max, last)
  {
    min, max, last := es[0].ts, es[0].ts, es[0].num;
    var i := 0;
    while i < |es|
      invariant 0 <= i <= |es|
      invariant forall j :: 0 <= j < i ==> min <= es[j].ts <= max && es[j].num <= last
      invariant (exists e :: e in es && e.ts == min) && (exists e :: e in es && e.ts == max)
      invariant exists e :: e in es && e.num == last
    {
      assert es[i] in es;
      min := if es[i].ts < min then es[i].ts else min;
      max := if es[i].ts > max then es[i].ts else max;
      last := if es[i].num > last then es[i].num else last;
      i := i + 1;
    }
  }

  method EncodeRaw(es: seq<RawEntry>, min: int) returns (raw: bytes)
    ensures raw == PutEntries(es, min, 0)
  {
    raw := [];
    var prev, prevSeq, i := min, 0, 0;
    while i < |es|
      invariant 0 <= i <= |es|
      invariant raw + PutEntries(es[i..], prev, prevSeq) == PutEntries(es, min, 0)
    {
      assert es[i..][0] == es[i] && es[i..][1..] == es[i + 1..];
      var one := PutEntry(es[i], prev, prevSeq);
      assert raw + (one + PutEntries(es[i + 1..], es[i].ts, es[i].num)) == raw + one + PutEntries(es[i + 1..],
          es[i].ts, es[i].num);
      raw := raw + one;
      prev, prevSeq := es[i].ts, es[i].num;
      i := i + 1;
    }
    assert es[i..] == [];
  }

  // The header fields that describe a block, and its bytes; none for an empty or oversized one.
  ghost predicate IsBlock(es: seq<RawEntry>, m: BlockMeta, comp: bytes, zip: bytes -> bytes, crc: bytes -> nat) {
    && Bounds(es, m.minTs, m.maxTs, m.lastSeq)
    && var raw := PutEntries(es, m.minTs, 0);
       comp == zip(raw) && |raw| <= MAX_BLOCK_RAW && m.rawLen == |raw| && m.n == |es| && m.compLen == |comp| &&
           m.crc == crc(comp)
  }

  method EncodeBlock(es: seq<RawEntry>, zip: bytes -> bytes, crc: bytes -> nat) returns (r: Option<(BlockMeta, bytes)>)
    ensures r.Some? ==> IsBlock(es, r.value.0, r.value.1, zip, crc)
    ensures r.None? ==>
              || es == []
              || exists min, max, last :: Bounds(es, min, max, last) && |PutEntries(es, min, 0)| > MAX_BLOCK_RAW
  {
    if es == [] {
      return None;
    }
    var min, max, last := FindBounds(es);
    var raw := EncodeRaw(es, min);
    if |raw| > MAX_BLOCK_RAW {
      return None;
    }
    var comp := zip(raw);
    r := Some((BlockMeta(0, min, max, |es|, |raw|, |comp|, crc(comp), last, 0), comp));
  }

  ghost function DecodedBlock(m: BlockMeta, comp: bytes, unzip: bytes -> Option<bytes>,
                              crc: bytes -> nat): Option<seq<RawEntry>> {
    if |comp| != m.compLen || crc(comp) != m.crc || m.rawLen > MAX_BLOCK_RAW || m.n > MAX_BLOCK_COUNT then None
    else
      var raw := unzip(comp);
      if raw.None? || |raw.value| != m.rawLen then None else GetEntries(raw.value, m.n, m.minTs, 0)
  }

  method DecodeRaw(all: bytes, n: nat, min: int) returns (r: Option<seq<RawEntry>>)
    ensures r == GetEntries(all, n, min, 0)
  {
    hide GetEntry;
    var raw, out, prev, prevSeq, i := all, [], min, 0, 0;
    AfterNothing(GetEntries(all, n, min, 0));
    while i < n
      invariant 0 <= i <= n
      invariant GetEntries(all, n, min, 0) == After(out, GetEntries(raw, n - i, prev, prevSeq))
    {
      var e := GetEntry(raw, prev, prevSeq);
      if e.None? {
        return None;
      }
      AfterOne(out, e.value.0, GetEntries(e.value.1, n - i - 1, e.value.0.ts, e.value.0.num));
      out := out + [e.value.0];
      raw, prev, prevSeq := e.value.1, e.value.0.ts, e.value.0.num;
      i := i + 1;
    }
    if raw != [] {
      return None;
    }
    assert out + [] == out;
    r := Some(out);
  }

  method DecodeBlock(m: BlockMeta, comp: bytes, unzip: bytes -> Option<bytes>, crc: bytes -> nat)
    returns (r: Option<seq<RawEntry>>)
    ensures r == DecodedBlock(m, comp, unzip, crc)
    ensures r.Some? ==> |comp| == m.compLen && crc(comp) == m.crc && m.rawLen <= 16_777_216 && m.n <= 4_194_304
    ensures r.Some? ==> unzip(comp).Some? && |unzip(comp).value| == m.rawLen && |r.value| == m.n
  {
    if |comp| != m.compLen || crc(comp) != m.crc || m.rawLen > MAX_BLOCK_RAW || m.n > MAX_BLOCK_COUNT {
      return None;
    }
    var inflated := unzip(comp);
    if inflated.None? || |inflated.value| != m.rawLen {
      return None;
    }
    r := DecodeRaw(inflated.value, m.n, m.minTs);
    GetEntriesCount(inflated.value, m.n, m.minTs, 0);
  }

  ghost function After<T>(out: seq<T>, rest: Option<seq<T>>): Option<seq<T>> {
    if rest.None? then None else Some(out + rest.value)
  }

  lemma AfterNothing<T>(rest: Option<seq<T>>)
    ensures After([], rest) == rest
  {
    if rest.Some? {
      assert [] + rest.value == rest.value;
    }
  }

  lemma AfterOne<T>(out: seq<T>, x: T, rest: Option<seq<T>>)
    ensures After(out, if rest.None? then None else Some([x] + rest.value)) == After(out + [x], rest)
  {
    if rest.Some? {
      assert out + ([x] + rest.value) == out + [x] + rest.value;
    }
  }

  // Decoding undoes encoding, deltas that wrap at 64 bits included: for every block the encoder makes, if and
  // only if it has no more entries than the decoder accepts.
  lemma BlockBack(es: seq<RawEntry>, m: BlockMeta, comp: bytes, zip: bytes -> bytes, unzip: bytes -> Option<bytes>,
                  crc: bytes -> nat)
    requires EntriesOk(es) && IsCodec(zip, unzip) && IsBlock(es, m, comp, zip, crc)
    ensures DecodedBlock(m, comp, unzip, crc) == Some(es) <==> |es| <= MAX_BLOCK_COUNT
  {
    var e :| e in es && e.ts == m.minTs;
    assert EntryOk(e);
    EntriesBack(es, m.minTs, 0);
    hide PutEntries, GetEntries;
    assert unzip(zip(PutEntries(es, m.minTs, 0))) == Some(PutEntries(es, m.minTs, 0));
  }

  // n empty logs at the epoch.
  ghost function Empties(n: nat): (es: seq<RawEntry>)
    ensures |es| == n && forall i :: 0 <= i < n ==> es[i] == RawEntry(0, 0, [])
  {
    seq(n, i => RawEntry(0, 0, []))
  }

  lemma {:induction false} EmptiesRaw(n: nat)
    ensures |PutEntries(Empties(n), 0, 0)| == 3 * n
  {
    if n > 0 {
      var e := RawEntry(0, 0, []);
      assert Empties(n)[1..] == Empties(n - 1);
      assert |PutEntry(e, 0, 0)| == 3;
      hide PutEntry;
      EmptiesRaw(n - 1);
    }
  }

  // One entry more than the decoder accepts, and the encoder still makes a block of it: three bytes each,
  // within the size limit. It never decodes.
  lemma TooMany(zip: bytes -> bytes, unzip: bytes -> Option<bytes>, crc: bytes -> nat) returns (m: BlockMeta)
    requires IsCodec(zip, unzip)
    ensures var es := Empties(MAX_BLOCK_COUNT + 1); var comp := zip(PutEntries(es, 0, 0));
            EntriesOk(es) && IsBlock(es, m, comp, zip, crc) && DecodedBlock(m, comp, unzip, crc) == None
  {
    hide PutEntries;
    var es := Empties(MAX_BLOCK_COUNT + 1);
    var comp := zip(PutEntries(es, 0, 0));
    m := BlockMeta(0, 0, 0, |es|, 3 * |es|, |comp|, crc(comp), 0, 0);
    EmptiesRaw(MAX_BLOCK_COUNT + 1);
    assert es[0] in es;
    assert forall e :: e in es ==> e == RawEntry(0, 0, []);
  }

  // An entry takes three bytes and its body, at least.
  lemma EntryAtLeast(e: RawEntry, prev: int, prevSeq: int)
    ensures |PutEntry(e, prev, prevSeq)| >= 3 + |e.body|
  {
    hide PutVarint, PutUvarint;
    hide ToInt64;
  }

  lemma {:induction false} RawAtLeast(es: seq<RawEntry>, prev: int, prevSeq: int)
    requires forall e :: e in es ==> |e.body| >= 2
    ensures |PutEntries(es, prev, prevSeq)| >= 5 * |es|
  {
    if es != [] {
      assert es[0] in es;
      EntryAtLeast(es[0], prev, prevSeq);
      hide PutEntry;
      RawAtLeast(es[1..], es[0].ts, es[0].num);
    }
  }

  // The store's own bodies are JSON objects, two bytes at least: a block of them is never too many.
  lemma JsonBlockBack(es: seq<RawEntry>, m: BlockMeta, comp: bytes, zip: bytes -> bytes, unzip: bytes -> Option<bytes>,
                      crc: bytes -> nat)
    requires EntriesOk(es) && IsCodec(zip, unzip) && IsBlock(es, m, comp, zip, crc)
    requires forall e :: e in es ==> |e.body| >= 2
    ensures DecodedBlock(m, comp, unzip, crc) == Some(es)
  {
    RawAtLeast(es, m.minTs, 0);
    BlockBack(es, m, comp, zip, unzip, crc);
  }

  /* WAL records. */

  ghost function PutBodies(bodies: seq<bytes>): bytes {
    if bodies == [] then [] else PutUvarint(|bodies[0]|) + bodies[0] + PutBodies(bodies[1..])
  }

  ghost function GetBodies(p: bytes, n: nat): Option<seq<bytes>> {
    if n == 0 then (if p == [] then Some([]) else None)
    else
      var l := Uvarint(p);
      if l.None? || l.value.0 > |p| - l.value.1 then None
      else
        var (len, k) := l.value;
        var rest := GetBodies(p[k + len..], n - 1);
        if rest.None? then None else Some([p[k..k + len]] + rest.value)
  }

  method EncodeWalRecord(base: nat, bodies: seq<bytes>) returns (out: bytes)
    requires IsUint64(base)
    ensures base < Span(8) && out == PutBe(base, 8) + PutUvarint(|bodies|) + PutBodies(bodies)
  {
    Span8();
    var head := PutBe(base, 8) + PutUvarint(|bodies|);
    out := head;
    var i := 0;
    while i < |bodies|
      invariant 0 <= i <= |bodies|
      invariant out + PutBodies(bodies[i..]) == head + PutBodies(bodies)
    {
      assert bodies[i..][0] == bodies[i] && bodies[i..][1..] == bodies[i + 1..];
      var one := PutUvarint(|bodies[i]|) + bodies[i];
      assert out + (one + PutBodies(bodies[i + 1..])) == out + one + PutBodies(bodies[i + 1..]);
      out := out + PutUvarint(|bodies[i]|);
      out := out + bodies[i];
      assert out + PutBodies(bodies[i + 1..]) == head + PutBodies(bodies);
      i := i + 1;
    }
    assert bodies[i..] == [];
  }

  lemma Span8()
    ensures Span(8) == TWO_64
  {
    assert Span(4) == 0x1_0000_0000;
    assert Span(6) == 256 * (256 * Span(4));
  }

  ghost function DecodedWal(p: bytes): Option<(nat, seq<bytes>)> {
    if |p| < 9 then None
    else
      var n := Uvarint(p[8..]);
      if n.None? || n.value.0 > |p| - 8 then None
      else
        var bodies := GetBodies(p[8 + n.value.1..], n.value.0);
        if bodies.None? then None else Some((GetBe(p[..8]), bodies.value))
  }

  method DecodeWalRecord(p: bytes) returns (r: Option<(nat, seq<bytes>)>)
    ensures r == DecodedWal(p)
  {
    if |p| < 9 {
      return None;
    }
    hide GetBe, Uvarint;
    var base := GetBe(p[..8]);
    var n := Uvarint(p[8..]);
    if n.None? || n.value.0 > |p| - 8 {
      return None;
    }
    var bodies := ReadBodies(p[8 + n.value.1..], n.value.0);
    r := if bodies.None? then None else Some((base, bodies.value));
  }

  method ReadBodies(all: bytes, n: nat) returns (r: Option<seq<bytes>>)
    ensures r == GetBodies(all, n)
  {
    hide Uvarint;
    var rest, bodies, i := all, [], 0;
    AfterNothing(GetBodies(all, n));
    while i < n
      invariant 0 <= i <= n
      invariant GetBodies(all, n) == After(bodies, GetBodies(rest, n - i))
    {
      var l := Uvarint(rest);
      if l.None? || l.value.0 > |rest| - l.value.1 {
        return None;
      }
      var (len, k) := l.value;
      AfterOne(bodies, rest[k..k + len], GetBodies(rest[k + len..], n - i - 1));
      bodies := bodies + [rest[k..k + len]];
      rest := rest[k + len..];
      i := i + 1;
    }
    if rest != [] {
      return None;
    }
    assert bodies + [] == bodies;
    r := Some(bodies);
  }

  lemma BodyBack(len: bytes, b: bytes, rest: bytes)
    requires len == PutUvarint(|b|) && IsUint64(|b|)
    ensures var p := len + b + rest;
            Uvarint(p) == Some((|b|, |len|)) && p[|len|..|len| + |b|] == b && p[|len| + |b|..] == rest
  {
    hide PutUvarint, Uvarint;
    var p := len + b + rest;
    assert p == len + (b + rest);
    UvarintBack(|b|, b + rest);
  }

  lemma {:induction false} BodiesBack(bodies: seq<bytes>)
    requires forall b :: b in bodies ==> IsUint64(|b|)
    ensures GetBodies(PutBodies(bodies), |bodies|) == Some(bodies) && |PutBodies(bodies)| >= |bodies|
  {
    hide PutUvarint, Uvarint;
    if bodies != [] {
      var b, rest := bodies[0], PutBodies(bodies[1..]);
      assert b in bodies && [b] + bodies[1..] == bodies;
      BodiesBack(bodies[1..]);
      var len := PutUvarint(|b|);
      assert PutBodies(bodies) == len + b + rest;
      BodyBack(len, b, rest);
    }
  }

  lemma WalBack(base: nat, bodies: seq<bytes>)
    requires IsUint64(base) && IsUint64(|bodies|) && forall b :: b in bodies ==> IsUint64(|b|)
    ensures base < Span(8)
    ensures DecodedWal(PutBe(base, 8) + PutUvarint(|bodies|) + PutBodies(bodies)) == Some((base, bodies))
  {
    Span8();
    hide PutUvarint, Uvarint, PutBe, GetBe, Span, GetBodies, PutBodies;
    var head, n, rest := PutBe(base, 8), PutUvarint(|bodies|), PutBodies(bodies);
    BeBack(base, 8);
    UvarintBack(|bodies|, rest);
    BodiesBack(bodies);
    Parts3(head, n, rest);
  }

  lemma Parts3(a: bytes, b: bytes, c: bytes)
    ensures var p := a + b + c;
            p[..|a|] == a && p[|a|..] == b + c && p[|a| + |b|..] == c
  {
  }
}
