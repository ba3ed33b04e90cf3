/**
 The chunk file (internal/logstore/chunk.go:232-545): self-describing blocks, an
 optional footer index, and a reader that serves the valid prefix of whatever a
 crash left. CRC32C is a parameter, of which nothing is assumed.
 */
module LogChunk {
  import opened Options
  import opened Bytes
  import opened LogCodec

  const CHUNK_HDR: nat := 8
  const TRAILER: nat := 20
  const MAX_BLOCK_COMP := 16 * 1024 * 1024
  const MAX_BLOOM_LEN := 0x10_0000
  const TWO_32: nat := 0x1_0000_0000

  const FOOTER_MAGIC: nat := 0x4F5A_5946   // "OZYF"

  function HdrSize(ver: nat): nat { if ver >= 2 then 44 else 40 }

  function EntrySize(ver: nat): nat { if ver >= 2 then 48 else 44 }

  function End(m: BlockMeta, ver: nat): int {
    m.offset + HdrSize(ver) + m.compLen + m.bloomLen
  }

  // The limits a reader holds a header to. The writer does not check them.
  predicate InLimits(m: BlockMeta) {
    && 0 < m.n <= MAX_BLOCK_COUNT && m.rawLen <= MAX_BLOCK_RAW && m.compLen <= MAX_BLOCK_COMP
    && m.bloomLen <= MAX_BLOOM_LEN && m.minTs <= m.maxTs
  }

  ghost predicate AllInLimits(blocks: seq<BlockMeta>) {
    forall i :: 0 <= i < |blocks| ==> InLimits(blocks[i])
  }

  predicate Plausible(m: BlockMeta, ver: nat, size: int) {
    InLimits(m) && End(m, ver) <= size
  }

  /* Block headers. */

  ghost predicate MetaOk(m: BlockMeta) {
    && IsInt64(m.minTs) && IsInt64(m.maxTs) && m.n < TWO_32 && m.rawLen < TWO_32 && m.compLen < TWO_32 && m.crc < TWO_32
    && IsUint64(m.lastSeq) && m.bloomLen < TWO_32
  }

  function HeaderWidths(ver: nat): seq<nat> {
    if ver >= 2 then [8, 8, 4, 4, 4, 4, 8, 4] else [8, 8, 4, 4, 4, 4, 8]
  }

  function HeaderFields(m: BlockMeta, ver: nat): seq<Field>
    requires 0 <= m.lastSeq
  {
    [Field(ToUint64(m.minTs), 8), Field(ToUint64(m.maxTs), 8), Field(m.n, 4), Field(m.rawLen, 4),
        Field(m.compLen, 4), Field(m.crc, 4),
     Field(m.lastSeq, 8)] + if ver >= 2 then [Field(m.bloomLen, 4)] else []
  }

  lemma HeaderFits(m: BlockMeta, ver: nat)
    requires MetaOk(m)
    ensures Fits(HeaderFields(m, ver))
  {
    Span8();
    assert Span(4) == TWO_32;
    hide Span;
  }

  lemma HeaderSize(ver: nat)
    ensures Widths(HeaderWidths(ver)) == HdrSize(ver)
  {
    WidthsOf(8, [8, 4, 4, 4, 4, 8]);
    WidthsOf(8, [4, 4, 4, 4, 8]);
    WidthsOf(4, [4, 4, 4, 8]);
    WidthsOf(4, [4, 4, 8]);
    WidthsOf(4, [4, 8]);
    WidthsOf(4, [8]);
    WidthsOf(8, []);
    WidthsJoin([8, 8, 4, 4, 4, 4, 8], [4]);
    WidthsOf(4, []);
    assert [8, 8, 4, 4, 4, 4, 8] + [4] == [8, 8, 4, 4, 4, 4, 8, 4];
  }

  lemma WidthsOf(w: nat, ws: seq<nat>)
    ensures Widths([w] + ws) == w + Widths(ws)
  {
    assert ([w] + ws)[1..] == ws;
  }

  lemma {:induction false} WidthsJoin(ws: seq<nat>, more: seq<nat>)
    ensures Widths(ws + more) == Widths(ws) + Widths(more)
  {
    if ws == [] {
      assert ws + more == more;
    } else {
      assert (ws + more)[1..] == ws[1..] + more;
      WidthsJoin(ws[1..], more);
    }
  }

  function PutHeader(m: BlockMeta, ver: nat): bytes
    requires MetaOk(m)
  {
    HeaderFits(m, ver);
    Pack(HeaderFields(m, ver))
  }

  function GetHeader(b: bytes, offset: int, ver: nat): (m: BlockMeta)
    requires HdrSize(ver) <= |b|
    ensures m.offset == offset
  {
    HeaderSize(ver);
    FromFields(Unpack(b, HeaderWidths(ver)), offset, ver)
  }

  function FromFields(v: seq<nat>, offset: int, ver: nat): (m: BlockMeta)
    requires |v| == |HeaderWidths(ver)|
    ensures m.offset == offset
  {
    BlockMeta(offset, ToInt64(v[0]), ToInt64(v[1]), v[2], v[3], v[4], v[5], v[6], if ver >= 2 then v[7] else 0)
  }

  lemma SignBack(x: int)
    requires IsInt64(x)
    ensures ToInt64(ToUint64(x)) == x
  {
  }

  lemma HeaderBack(m: BlockMeta, ver: nat, rest: bytes)
    requires MetaOk(m) && (ver < 2 ==> m.bloomLen == 0)
    ensures |PutHeader(m, ver)| == HdrSize(ver)
    ensures GetHeader(PutHeader(m, ver) + rest, m.offset, ver) == m
  {
    HeaderFits(m, ver);
    HeaderSize(ver);
    SignBack(m.minTs);
    SignBack(m.maxTs);
    hide Pack, Unpack, ToInt64, ToUint64, Widths, Fits, Span, FromFields, HeaderFields;
    var fs, ws := HeaderFields(m, ver), HeaderWidths(ver);
    FieldsAre(m, ver);
    PackBack(fs, ws, rest);
    FieldsBack(m, ver, Unpack(Pack(fs) + rest, ws));
  }

  lemma FieldsAre(m: BlockMeta, ver: nat)
    requires 0 <= m.lastSeq
    ensures var fs, ws := HeaderFields(m, ver), HeaderWidths(ver);
            |fs| == |ws| && forall i :: 0 <= i < |fs| ==> fs[i].width == ws[i]
  {
  }

  lemma FieldsBack(m: BlockMeta, ver: nat, v: seq<nat>)
    requires MetaOk(m) && (ver < 2 ==> m.bloomLen == 0) && |v| == |HeaderFields(m, ver)| == |HeaderWidths(ver)|
    requires forall i :: 0 <= i < |v| ==> v[i] == HeaderFields(m, ver)[i].value
    ensures FromFields(v, m.offset, ver) == m
  {
    SignBack(m.minTs);
    SignBack(m.maxTs);
    hide ToInt64, ToUint64;
    assert v[0] == ToUint64(m.minTs) && v[1] == ToUint64(m.maxTs) && v[2] == m.n && v[3] == m.rawLen;
    assert v[4] == m.compLen && v[5] == m.crc && v[6] == m.lastSeq && (ver >= 2 ==> v[7] == m.bloomLen);
  }

  /* Walking the blocks. */

  function BlockData(file: bytes, m: BlockMeta, ver: nat): bytes
    requires 0 <= m.offset && m.offset + HdrSize(ver) + m.compLen <= |file|
  {
    file[m.offset + HdrSize(ver)..m.offset + HdrSize(ver) + m.compLen]
  }

  // The good blocks from at on: the walk ends at the first header that does not check out.
  ghost function Walk(file: bytes, ver: nat, at: nat, crc: bytes -> nat): seq<BlockMeta>
    decreases |file| - at
  {
    if at + HdrSize(ver) > |file| then []
    else
      var m := GetHeader(file[at..at + HdrSize(ver)], at, ver);
      if !Plausible(m, ver, |file|) || crc(BlockData(file, m, ver)) != m.crc then []
      else [m] + Walk(file, ver, End(m, ver), crc)
  }

  // The blocks lie one after the other from at to end.
  ghost predicate Tiles(blocks: seq<BlockMeta>, ver: nat, at: int, end: int) {
    if blocks == [] then at == end
    else blocks[0].offset == at && Tiles(blocks[1..], ver, End(blocks[0], ver), end)
  }

  lemma {:induction false} TilesMore(blocks: seq<BlockMeta>, ver: nat, at: int, m: BlockMeta)
    requires Tiles(blocks, ver, at, m.offset)
    ensures Tiles(blocks + [m], ver, at, End(m, ver))
  {
    if blocks != [] {
      assert (blocks + [m])[1..] == blocks[1..] + [m];
      TilesMore(blocks[1..], ver, End(blocks[0], ver), m);
    } else {
      assert blocks + [m] == [m] && [m][1..] == [];
    }
  }

  method WalkBlocks(file: bytes, ver: nat, crc: bytes -> nat) returns (blocks: seq<BlockMeta>, validEnd: nat)
    requires CHUNK_HDR <= |file|
    ensures blocks == Walk(file, ver, CHUNK_HDR, crc)
    ensures Tiles(blocks, ver, CHUNK_HDR, validEnd) && validEnd <= |file|
  {
    hide GetHeader, BlockData;
    blocks, validEnd := [], CHUNK_HDR;
    assert [] + Walk(file, ver, CHUNK_HDR, crc) == Walk(file, ver, CHUNK_HDR, crc);
    while validEnd + HdrSize(ver) <= |file|
      invariant CHUNK_HDR <= validEnd <= |file| && Tiles(blocks, ver, CHUNK_HDR, validEnd)
      invariant blocks + Walk(file, ver, validEnd, crc) == Walk(file, ver, CHUNK_HDR, crc)
      decreases |file| - validEnd
    {
      var m := GetHeader(file[validEnd..validEnd + HdrSize(ver)], validEnd, ver);
      if !Plausible(m, ver, |file|) {
        break;
      }
      if crc(BlockData(file, m, ver)) != m.crc {
        break;
      }
      TilesMore(blocks, ver, CHUNK_HDR, m);
      WalkOne(file, ver, validEnd, crc, m);
      assert blocks + ([m] + Walk(file, ver, End(m, ver), crc)) == blocks + [m] + Walk(file, ver, End(m, ver), crc);
      blocks := blocks + [m];
      validEnd := End(m, ver);
    }
    assert Walk(file, ver, validEnd, crc) == [];
    assert blocks + [] == blocks;
  }

  lemma WalkOne(file: bytes, ver: nat, at: nat, crc: bytes -> nat, m: BlockMeta)
    requires at + HdrSize(ver) <= |file| && m == GetHeader(file[at..at + HdrSize(ver)], at, ver)
    requires Plausible(m, ver, |file|) && crc(BlockData(file, m, ver)) == m.crc
    ensures Walk(file, ver, at, crc) == [m] + Walk(file, ver, End(m, ver), crc)
  {
  }

  /* Writing. */

  // The blocks are in the file where their headers say, whole and with their checksums.
  ghost predicate Laid(file: bytes, ver: nat, blocks: seq<BlockMeta>, at: nat, end: nat, crc: bytes -> nat) {
    if blocks == [] then at == end <= |file|
    else
      var m := blocks[0];
      && m.offset == at && MetaOk(m) && End(m, ver) <= end <= |file|
      && GetHeader(file[at..at + HdrSize(ver)], at, ver) == m && crc(BlockData(file, m, ver)) == m.crc
      && Laid(file, ver, blocks[1..], End(m, ver), end, crc)
  }

  // The blocks up to the first that ends past n or exceeds a reader's limits.
  ghost function Served(blocks: seq<BlockMeta>, ver: nat, n: int): seq<BlockMeta> {
    if blocks == [] || !Plausible(blocks[0], ver, n) then [] else [blocks[0]] + Served(blocks[1..], ver, n)
  }

  // A chunk without a footer, cut at any byte: the walk finds exactly the blocks that are wholly there, up to
  // one beyond the limits. The checksum has no part in it.
  lemma {:induction false} CutServesPrefix(file: bytes, ver: nat, blocks: seq<BlockMeta>, at: nat, crc: bytes -> nat,
                                           n: nat)
    requires Laid(file, ver, blocks, at, |file|, crc) && n <= |file|
    ensures Walk(file[..n], ver, at, crc) == Served(blocks, ver, n)
    decreases |blocks|
  {
    hide GetHeader;
    if blocks != [] && at + HdrSize(ver) <= n {
      var m, cut := blocks[0], file[..n];
      SliceOf(file, n, at, at + HdrSize(ver));
      if Plausible(m, ver, n) {
        SliceOf(file, n, at + HdrSize(ver), at + HdrSize(ver) + m.compLen);
        CutServesPrefix(file, ver, blocks[1..], End(m, ver), crc, n);
      }
    }
  }

  // Whatever follows the last good block, a footer or stale bytes, the walk finds the blocks first.
  lemma {:induction false} WalkFinds(file: bytes, ver: nat, blocks: seq<BlockMeta>, at: nat, end: nat,
                                     crc: bytes -> nat)
    requires Laid(file, ver, blocks, at, end, crc) && AllInLimits(blocks)
    ensures blocks <= Walk(file, ver, at, crc)
    decreases |blocks|
  {
    hide GetHeader, BlockData, InLimits;
    if blocks != [] {
      var m := blocks[0];
      assert InLimits(m);
      LaidEnd(file, ver, blocks, at, end, crc);
      LaidEnd(file, ver, blocks[1..], End(m, ver), end, crc);
      WalkFinds(file, ver, blocks[1..], End(m, ver), end, crc);
      WalkOne(file, ver, at, crc, m);
      assert [m] + blocks[1..] == blocks;
    }
  }

  lemma SliceOf(file: bytes, n: nat, i: nat, j: nat)
    requires i <= j <= n <= |file|
    ensures file[..n][i..j] == file[i..j]
  {
  }

  lemma FrontSlice(file: bytes, end: nat, more: bytes, i: nat, j: nat)
    requires i <= j <= end <= |file|
    ensures (file[..end] + more)[i..j] == file[i..j]
  {
  }

  lemma {:induction false} LaidStays(file: bytes, more: bytes, ver: nat, blocks: seq<BlockMeta>, at: nat, end: nat,
                                     crc: bytes -> nat)
    requires Laid(file, ver, blocks, at, end, crc)
    ensures Laid(file[..end] + more, ver, blocks, at, end, crc)
    decreases |blocks|
  {
    if blocks != [] {
      var m, t := blocks[0], file[..end] + more;
      LaidEnd(file, ver, blocks, at, end, crc);
      FrontSlice(file, end, more, at, at + HdrSize(ver));
      FrontSlice(file, end, more, at + HdrSize(ver), at + HdrSize(ver) + m.compLen);
      hide GetHeader;
      LaidStays(file, more, ver, blocks[1..], End(m, ver), end, crc);
    }
  }

  lemma LaidEnd(file: bytes, ver: nat, blocks: seq<BlockMeta>, at: nat, end: nat, crc: bytes -> nat)
    requires Laid(file, ver, blocks, at, end, crc)
    ensures at <= end <= |file|
  {
  }

  lemma {:induction false} LaidMore(file: bytes, ver: nat, blocks: seq<BlockMeta>, at: nat, m: BlockMeta,
                                    crc: bytes -> nat)
    requires m.offset >= 0 && Laid(file, ver, blocks, at, m.offset, crc) && MetaOk(m) && End(m, ver) <= |file|
    requires GetHeader(file[m.offset..m.offset + HdrSize(ver)], m.offset, ver) == m
    requires crc(BlockData(file, m, ver)) == m.crc
    ensures Laid(file, ver, blocks + [m], at, End(m, ver), crc)
    decreases |blocks|
  {
    if blocks != [] {
      assert (blocks + [m])[1..] == blocks[1..] + [m];
      LaidMore(file, ver, blocks[1..], End(blocks[0], ver), m, crc);
    } else {
      assert blocks + [m] == [m] && [m][1..] == [];
    }
  }

  lemma Pieces(a: bytes, b: bytes, c: bytes, d: bytes)
    ensures var t := a + (b + c + d);
            t[|a|..|a| + |b|] == b && t[|a| + |b|..|a| + |b| + |c|] == c && |t| == |a| + |b| + |c| + |d| &&
                t[..|a|] == a
  {
  }

  // A write at end, over whatever is there.
  function Overwrite(file: bytes, end: nat, buf: bytes): bytes
    requires end <= |file|
  {
    file[..end] + (buf + if end + |buf| < |file| then file[end + |buf|..] else [])
  }

  function BlockBytes(m: BlockMeta, ver: nat, comp: bytes, filter: bytes): bytes
    requires MetaOk(m)
  {
    PutHeader(m, ver) + comp + filter
  }

  // A whole block written over what follows the last good one.
  lemma AppendLaid(file: bytes, ver: nat, blocks: seq<BlockMeta>, end: nat, m: BlockMeta, comp: bytes, filter: bytes,
                   crc: bytes -> nat)
    requires Laid(file, ver, blocks, CHUNK_HDR, end, crc) && end <= |file| && m.offset == end && MetaOk(m)
    requires m.compLen == |comp| && m.crc == crc(comp) && m.bloomLen == |filter| && (ver < 2 ==> filter == [])
    ensures var buf := BlockBytes(m, ver, comp, filter);
            var after := Overwrite(file, end, buf);
            && Laid(after, ver, blocks, CHUNK_HDR, end, crc) &&
               Laid(after, ver, blocks + [m], CHUNK_HDR, End(m, ver), crc)
            && after[..end] == file[..end] && |buf| == HdrSize(ver) + |comp| + |filter|
  {
    hide PutHeader, GetHeader, MetaOk, Laid, BlockData;
    HeaderBack(m, ver, []);
    var head := PutHeader(m, ver);
    var buf := head + comp + filter;
    var tail := if end + |buf| < |file| then file[end + |buf|..] else [];
    LaidStays(file, buf + tail, ver, blocks, CHUNK_HDR, end, crc);
    assert buf + tail == head + comp + (filter + tail);
    BlockThere(file[..end], head, comp, filter + tail, m, ver);
    LaidMore(file[..end] + (buf + tail), ver, blocks, CHUNK_HDR, m, crc);
  }

  lemma BlockThere(front: bytes, head: bytes, comp: bytes, rest: bytes, m: BlockMeta, ver: nat)
    requires m.offset == |front| && m.compLen == |comp| && |head| == HdrSize(ver)
    requires GetHeader(head + [], m.offset, ver) == m
    ensures var after := front + (head + comp + rest);
            && GetHeader(after[m.offset..m.offset + HdrSize(ver)], m.offset, ver) == m
            && BlockData(after, m, ver) == comp && after[..m.offset] == front
  {
    hide GetHeader;
    Pieces(front, head, comp, rest);
    assert head + [] == head;
  }

  class ChunkWriter {
    var file: bytes
    var blocks: seq<BlockMeta>
    var end: nat
    const ver: nat
    const crc: bytes -> nat

    constructor (ver: nat, crc: bytes -> nat)
      requires 1 <= ver <= 2
      ensures Valid() && file == ChunkHeader(ver) && blocks == [] && end == |file| && this.ver == ver
    {
      file, blocks, end, this.ver := ChunkHeader(ver), [], CHUNK_HDR, ver;
      this.crc := crc;
    }

    ghost predicate Valid()
      reads this
    {
      && 1 <= ver <= 2 && CHUNK_HDR <= end <= |file|
      && file[..CHUNK_HDR] == ChunkHeader(ver)
      && Laid(file, ver, blocks, CHUNK_HDR, end, crc)
    }

    // The block is written over whatever follows the last good one; a failed write is cut off again, a failed
    // fsync leaves the bytes without the block.
    method AppendBlock(m: BlockMeta, comp: bytes, bloom: bytes, written: bool, synced: bool)
      returns (r: Option<BlockMeta>)
      requires Valid() && MetaOk(m) && m.compLen == |comp| && m.crc == crc(comp) && |bloom| < TWO_32
      modifies this
      ensures Valid() && r.Some? == (written && synced)
      ensures r.Some? ==> blocks == old(blocks) + [r.value] && end == End(r.value, ver)
      ensures r.Some? ==> r.value == m.(offset := old(end), bloomLen := if ver < 2 then 0 else |bloom|)
      ensures r.None? ==> blocks == old(blocks) && end == old(end)
      ensures file == if written
                then Overwrite(old(file), old(end), BlockBytes(Placed(m, old(end), bloom), ver, comp, Filter(bloom)))
                else old(file)[..end]
      ensures file[..old(end)] == old(file[..end])
    {
      hide Laid, ChunkHeader;
      var filter := Filter(bloom);
      var meta := Placed(m, end, bloom);
      var buf := BlockBytes(meta, ver, comp, filter);
      hide BlockBytes;
      if !written {
        LaidStays(file, [], ver, blocks, CHUNK_HDR, end, crc);
        assert file[..end] + [] == file[..end];
        assert file[..end][..CHUNK_HDR] == file[..CHUNK_HDR];
        file := file[..end];
        return None;
      }
      AppendLaid(file, ver, blocks, end, meta, comp, filter, crc);
      FrontStays(file, end, buf, CHUNK_HDR);
      file := Overwrite(file, end, buf);
      if !synced {
        return None;
      }
      blocks := blocks + [meta];
      end := End(meta, ver);
      r := Some(meta);
    }

    // A version 1 file has no room for a filter.
    function Filter(bloom: bytes): bytes {
      if ver < 2 then [] else bloom
    }

    function Placed(m: BlockMeta, offset: nat, bloom: bytes): BlockMeta {
      m.(offset := offset, bloomLen := |Filter(bloom)|)
    }

    // The footer goes where the next block would; if it cannot be written the file is cut back. As long as
    // nothing stale reaches past it, the reader finds it and has the blocks back, unless one exceeds its
    // limits; and whatever follows, the blocks stay in place for the walk.
    method Seal(written: bool)
      requires Valid() && |blocks| < TWO_32 && IsInt64(end)
      requires forall b :: crc(b) < TWO_32
      modifies this`file
      ensures Valid() && file[..end] == old(file[..end])
      ensures FooterOk(blocks, ver) && file == if written
                then Overwrite(old(file), end, FooterBytes(blocks, end, ver, crc)) else old(file)[..end]
      ensures written && |old(file)| <= end + FooterSize(|blocks|, ver) ==>
                Footer(file, ver, crc) == if |blocks| <= MAX_BLOCK_COUNT && AllInLimits(blocks)
                    then Some((NoCrc(blocks), end)) else None
      ensures AllInLimits(blocks) ==> blocks <= Walk(file, ver, CHUNK_HDR, crc)
    {
      hide Laid, Footer, FooterOk, PutTrailer, Walk, ChunkHeader, AllInLimits, FooterSize;
      LaidFooterOk(file, ver, blocks, CHUNK_HDR, end, crc);
      var footer := EncodeFooter(blocks, end, ver, crc);
      hide FooterBytes;
      if written {
        SealStays(file, ver, blocks, end, footer, crc);
        FooterFound(file, blocks, ver, end, crc);
        file := Overwrite(file, end, footer);
      } else {
        LaidStays(file, [], ver, blocks, CHUNK_HDR, end, crc);
        assert file[..end] + [] == file[..end];
        assert file[..end][..CHUNK_HDR] == file[..CHUNK_HDR];
        file := file[..end];
      }
      if AllInLimits(blocks) { WalkFinds(file, ver, blocks, CHUNK_HDR, end, crc); }
    }
  }

  lemma FrontStays(file: bytes, end: nat, buf: bytes, n: nat)
    requires n <= end <= |file|
    ensures Overwrite(file, end, buf)[..end] == file[..end] && Overwrite(file, end, buf)[..n] == file[..n]
    ensures end <= |Overwrite(file, end, buf)|
  {
  }

  lemma SealStays(file: bytes, ver: nat, blocks: seq<BlockMeta>, end: nat, footer: bytes, crc: bytes -> nat)
    requires CHUNK_HDR <= end <= |file| && Laid(file, ver, blocks, CHUNK_HDR, end, crc)
    ensures var after := Overwrite(file, end, footer);
            && Laid(after, ver, blocks, CHUNK_HDR, end, crc) && end <= |after| && after[..end] == file[..end]
            && after[..CHUNK_HDR] == file[..CHUNK_HDR]
  {
    FrontStays(file, end, footer, CHUNK_HDR);
    hide Laid;
    LaidStays(file, footer + if end + |footer| < |file| then file[end + |footer|..] else [], ver, blocks, CHUNK_HDR,
        end, crc);
  }

  /* The footer. */

  function IndexWidths(ver: nat): seq<nat> {
    if ver >= 2 then [8, 8, 8, 4, 4, 4, 8, 4] else [8, 8, 8, 4, 4, 4, 8]
  }

  function IndexFields(m: BlockMeta, ver: nat): seq<Field>
    requires 0 <= m.lastSeq
  {
    [Field(ToUint64(m.offset), 8), Field(ToUint64(m.minTs), 8), Field(ToUint64(m.maxTs), 8), Field(m.n, 4),
        Field(m.rawLen, 4), Field(m.compLen, 4),
     Field(m.lastSeq, 8)] + if ver >= 2 then [Field(m.bloomLen, 4)] else []
  }

  lemma IndexFits(m: BlockMeta, ver: nat)
    requires MetaOk(m)
    ensures Fits(IndexFields(m, ver))
  {
    Span8();
    assert Span(4) == TWO_32;
    hide Span;
  }

  lemma IndexSize(ver: nat)
    ensures Widths(IndexWidths(ver)) == EntrySize(ver)
  {
    WidthsOf(8, [8, 8, 4, 4, 4, 8]);
    WidthsOf(8, [8, 4, 4, 4, 8]);
    WidthsOf(8, [4, 4, 4, 8]);
    WidthsOf(4, [4, 4, 8]);
    WidthsOf(4, [4, 8]);
    WidthsOf(4, [8]);
    WidthsOf(8, []);
    WidthsJoin([8, 8, 8, 4, 4, 4, 8], [4]);
    WidthsOf(4, []);
    assert [8, 8, 8, 4, 4, 4, 8] + [4] == [8, 8, 8, 4, 4, 4, 8, 4];
  }

  // The index does not carry the block's checksum.
  function FromIndex(v: seq<nat>, ver: nat): BlockMeta
    requires |v| == |IndexWidths(ver)|
  {
    BlockMeta(ToInt64(v[0]), ToInt64(v[1]), ToInt64(v[2]), v[3], v[4], v[5], 0, v[6], if ver >= 2 then v[7] else 0)
  }

  function PutIndex(m: BlockMeta, ver: nat): bytes
    requires MetaOk(m)
  {
    IndexFits(m, ver);
    Pack(IndexFields(m, ver))
  }

  function GetIndex(b: bytes, ver: nat): BlockMeta
    requires EntrySize(ver) <= |b|
  {
    IndexSize(ver);
    FromIndex(Unpack(b, IndexWidths(ver)), ver)
  }

  lemma IndexBack(m: BlockMeta, ver: nat, rest: bytes)
    requires MetaOk(m) && IsInt64(m.offset) && (ver < 2 ==> m.bloomLen == 0)
    ensures |PutIndex(m, ver)| == EntrySize(ver)
    ensures GetIndex(PutIndex(m, ver) + rest, ver) == m.(crc := 0)
  {
    IndexFits(m, ver);
    IndexSize(ver);
    hide Pack, Unpack, ToInt64, ToUint64, Widths, Fits, Span, FromIndex, IndexFields;
    var fs, ws := IndexFields(m, ver), IndexWidths(ver);
    IndexFieldsAre(m, ver);
    PackBack(fs, ws, rest);
    IndexFieldsBack(m, ver, Unpack(Pack(fs) + rest, ws));
  }

  lemma IndexFieldsAre(m: BlockMeta, ver: nat)
    requires 0 <= m.lastSeq
    ensures var fs, ws := IndexFields(m, ver), IndexWidths(ver);
            |fs| == |ws| && forall i :: 0 <= i < |fs| ==> fs[i].width == ws[i]
  {
  }

  lemma IndexFieldsBack(m: BlockMeta, ver: nat, v: seq<nat>)
    requires MetaOk(m) && IsInt64(m.offset) && (ver < 2 ==> m.bloomLen == 0)
    requires |v| == |IndexFields(m, ver)| == |IndexWidths(ver)|
    requires forall i :: 0 <= i < |v| ==> v[i] == IndexFields(m, ver)[i].value
    ensures FromIndex(v, ver) == m.(crc := 0)
  {
    SignBack(m.offset);
    SignBack(m.minTs);
    SignBack(m.maxTs);
    hide ToInt64, ToUint64;
    assert v[0] == ToUint64(m.offset) && v[1] == ToUint64(m.minTs) && v[2] == ToUint64(m.maxTs) && v[3] == m.n;
    assert v[4] == m.rawLen && v[5] == m.compLen && v[6] == m.lastSeq && (ver >= 2 ==> v[7] == m.bloomLen);
  }

  ghost predicate FooterOk(blocks: seq<BlockMeta>, ver: nat) {
    forall m :: m in blocks ==> MetaOk(m) && IsInt64(m.offset) && (ver < 2 ==> m.bloomLen == 0)
  }

  ghost function PutIndexes(blocks: seq<BlockMeta>, ver: nat): bytes
    requires FooterOk(blocks, ver)
  {
    if blocks == [] then [] else assert blocks[0] in blocks; PutIndex(blocks[0], ver) + PutIndexes(blocks[1..], ver)
  }

  // n index entries that tile from prevEnd to off, each one plausible; none if they do not.
  ghost function GetIndexes(buf: bytes, n: nat, ver: nat, prevEnd: int, off: int): (r: Option<seq<BlockMeta>>)
    requires |buf| == n * EntrySize(ver)
    ensures r.Some? ==> Tiles(r.value, ver, prevEnd, off) && |r.value| == n
  {
    if n == 0 then (if prevEnd == off then Some([]) else None)
    else
      assert n * EntrySize(ver) == EntrySize(ver) + (n - 1) * EntrySize(ver);
      var m := GetIndex(buf, ver);
      if m.offset != prevEnd || !Plausible(m, ver, off) then None
      else
        var rest := GetIndexes(buf[EntrySize(ver)..], n - 1, ver, End(m, ver), off);
        if rest.None? then None
        else
          assert ([m] + rest.value)[1..] == rest.value;
          Some([m] + rest.value)
  }

  ghost function NoCrc(blocks: seq<BlockMeta>): seq<BlockMeta> {
    seq(|blocks|, i requires 0 <= i < |blocks| => blocks[i].(crc := 0))
  }

  // The index read back: the blocks, or nothing if a reader's limits rule one out.
  lemma {:induction false} IndexesBack(file: bytes, blocks: seq<BlockMeta>, ver: nat, at: nat, end: nat,
                                       crc: bytes -> nat)
    requires Laid(file, ver, blocks, at, end, crc) && FooterOk(blocks, ver)
    ensures |PutIndexes(blocks, ver)| == |blocks| * EntrySize(ver)
    ensures GetIndexes(PutIndexes(blocks, ver), |blocks|, ver, at, end) == if AllInLimits(blocks)
              then Some(NoCrc(blocks)) else None
    decreases |blocks|
  {
    hide GetHeader, GetIndex, PutIndex, MetaOk, InLimits;
    if blocks == [] {
      assert NoCrc(blocks) == [];
    } else {
      var m, rest := blocks[0], PutIndexes(blocks[1..], ver);
      assert m in blocks && FooterOk(blocks[1..], ver);
      IndexesBack(file, blocks[1..], ver, End(m, ver), end, crc);
      IndexBack(m, ver, rest);
      SameLimits(m);
      var buf := PutIndex(m, ver) + rest;
      assert |blocks| * EntrySize(ver) == EntrySize(ver) + |blocks[1..]| * EntrySize(ver);
      assert buf[EntrySize(ver)..] == rest;
      assert NoCrc(blocks) == [m.(crc := 0)] + NoCrc(blocks[1..]);
      assert AllInLimits(blocks) <==> InLimits(m) && AllInLimits(blocks[1..]) by { LimitsSplit(blocks); }
    }
  }

  lemma SameLimits(m: BlockMeta)
    ensures InLimits(m.(crc := 0)) == InLimits(m)
  {
  }

  lemma LimitsSplit(blocks: seq<BlockMeta>)
    requires blocks != []
    ensures AllInLimits(blocks) <==> InLimits(blocks[0]) && AllInLimits(blocks[1..])
  {
    hide InLimits;
    assert forall i :: 0 < i < |blocks| ==> blocks[i] == blocks[1..][i - 1];
  }

  lemma {:induction false} LaidFooterOk(file: bytes, ver: nat, blocks: seq<BlockMeta>, at: nat, end: nat,
                                        crc: bytes -> nat)
    requires Laid(file, ver, blocks, at, end, crc) && IsInt64(end)
    ensures FooterOk(blocks, ver)
    decreases |blocks|
  {
    hide BlockData, MetaOk;
    if blocks != [] {
      var m := blocks[0];
      LaidEnd(file, ver, blocks, at, end, crc);
      if ver < 2 { NoBloom(file[at..at + HdrSize(ver)], at, ver); }
      hide GetHeader;
      LaidFooterOk(file, ver, blocks[1..], End(m, ver), end, crc);
      assert forall b :: b in blocks ==> b == m || b in blocks[1..];
    }
  }

  lemma NoBloom(b: bytes, offset: int, ver: nat)
    requires HdrSize(ver) <= |b| && ver < 2
    ensures GetHeader(b, offset, ver).bloomLen == 0
  {
  }

  function PutTrailer(count: nat, off: int, sum: nat): bytes
    requires count < TWO_32 && sum < TWO_32
  {
    TrailerFits(count, off, sum);
    Pack(TrailerFields(count, off, sum))
  }

  function TrailerFields(count: nat, off: int, sum: nat): seq<Field> {
    [Field(count, 4), Field(ToUint64(off), 8), Field(sum, 4), Field(FOOTER_MAGIC, 4)]
  }

  lemma TrailerFits(count: nat, off: int, sum: nat)
    requires count < TWO_32 && sum < TWO_32
    ensures Fits(TrailerFields(count, off, sum))
  {
    Span8();
    assert Span(4) == TWO_32;
    hide Span;
  }

  const TRAILER_WIDTHS: seq<nat> := [4, 8, 4, 4]

  lemma TrailerSize()
    ensures Widths(TRAILER_WIDTHS) == TRAILER
  {
    WidthsOf(4, [8, 4, 4]);
    WidthsOf(8, [4, 4]);
    WidthsOf(4, [4]);
    WidthsOf(4, []);
  }

  lemma TrailerBack(count: nat, off: int, sum: nat)
    requires count < TWO_32 && sum < TWO_32 && IsInt64(off)
    ensures |PutTrailer(count, off, sum)| == TRAILER && Widths(TRAILER_WIDTHS) == TRAILER
    ensures var v := Unpack(PutTrailer(count, off, sum), TRAILER_WIDTHS);
            v[0] == count && ToInt64(v[1]) == off && v[2] == sum && v[3] == FOOTER_MAGIC
  {
    TrailerFits(count, off, sum);
    TrailerSize();
    SignBack(off);
    hide Pack, Unpack, Widths, Fits, Span, ToInt64, ToUint64;
    var fs := TrailerFields(count, off, sum);
    PackBack(fs, TRAILER_WIDTHS, []);
    assert Pack(fs) + [] == Pack(fs);
    assert fs[0].value == count && fs[1].value == ToUint64(off) && fs[2].value == sum && fs[3].value == FOOTER_MAGIC;
  }

  // What the footer says, if there is one and it holds together: blocks that tile the file from the header to
  // the index.
  ghost function Footer(file: bytes, ver: nat, crc: bytes -> nat): (r: Option<(seq<BlockMeta>, nat)>)
    ensures r.Some? ==> Tiles(r.value.0, ver, CHUNK_HDR, r.value.1) && r.value.1 <= |file|
  {
    if |file| < CHUNK_HDR + TRAILER then None
    else
      TrailerSize();
      var at := |file| - TRAILER;
      var t := Unpack(file[at..], TRAILER_WIDTHS);
      var count, off := t[0], ToInt64(t[1]);
      if t[3] != FOOTER_MAGIC || count > MAX_BLOCK_COUNT || off < 0 || off + count * EntrySize(ver) != at ||
          crc(file[off..at]) != t[2] then None
      else
        var blocks := GetIndexes(file[off..at], count, ver, CHUNK_HDR, off);
        if blocks.None? then None else Some((blocks.value, off))
  }

  ghost function FooterBytes(blocks: seq<BlockMeta>, end: nat, ver: nat, crc: bytes -> nat): bytes
    requires FooterOk(blocks, ver) && |blocks| < TWO_32 && crc(PutIndexes(blocks, ver)) < TWO_32
  {
    PutIndexes(blocks, ver) + PutTrailer(|blocks|, end, crc(PutIndexes(blocks, ver)))
  }

  function FooterSize(count: nat, ver: nat): nat {
    count * EntrySize(ver) + TRAILER
  }

  method EncodeFooter(blocks: seq<BlockMeta>, end: nat, ver: nat, crc: bytes -> nat) returns (footer: bytes)
    requires FooterOk(blocks, ver) && |blocks| < TWO_32
    requires forall b :: crc(b) < TWO_32
    ensures footer == FooterBytes(blocks, end, ver, crc)
  {
    hide FooterOk, PutTrailer;
    var index := EncodeIndex(blocks, ver);
    footer := index + PutTrailer(|blocks|, end, crc(index));
  }

  // A footer that ends the file gives back the blocks it was written for, checksums aside, if a reader's
  // limits allow them.
  lemma FooterBack(file: bytes, blocks: seq<BlockMeta>, ver: nat, crc: bytes -> nat)
    requires Laid(file, ver, blocks, CHUNK_HDR, |file|, crc) && FooterOk(blocks, ver) && CHUNK_HDR <= |file|
    requires |blocks| < TWO_32 && IsInt64(|file|) && crc(PutIndexes(blocks, ver)) < TWO_32
    ensures |FooterBytes(blocks, |file|, ver, crc)| == FooterSize(|blocks|, ver)
    ensures Footer(file + FooterBytes(blocks, |file|, ver, crc), ver, crc) ==
              if |blocks| <= MAX_BLOCK_COUNT && AllInLimits(blocks) then Some((NoCrc(blocks), |file|)) else None
  {
    assert CHUNK_HDR + TRAILER <= |file| + TRAILER;
    hide Laid, FooterOk, PutIndexes, GetIndexes, AllInLimits, Footer, PutTrailer, Unpack, Widths, ToInt64, EntrySize;
    IndexesBack(file, blocks, ver, CHUNK_HDR, |file|, crc);
    var index := PutIndexes(blocks, ver);
    TrailerBack(|blocks|, |file|, crc(index));
    var trailer := PutTrailer(|blocks|, |file|, crc(index));
    FooterFrom(file, index, trailer, ver, crc, |blocks|, if AllInLimits(blocks) then Some(NoCrc(blocks)) else None);
  }

  // What Seal leaves when nothing reaches past the footer.
  lemma FooterFound(file: bytes, blocks: seq<BlockMeta>, ver: nat, end: nat, crc: bytes -> nat)
    requires CHUNK_HDR <= end <= |file| && Laid(file, ver, blocks, CHUNK_HDR, end, crc) && FooterOk(blocks, ver)
    requires |blocks| < TWO_32 && IsInt64(end) && crc(PutIndexes(blocks, ver)) < TWO_32
    ensures |FooterBytes(blocks, end, ver, crc)| == FooterSize(|blocks|, ver)
    ensures |file| <= end + FooterSize(|blocks|, ver) ==>
              Footer(Overwrite(file, end, FooterBytes(blocks, end, ver, crc)), ver, crc) ==
                if |blocks| <= MAX_BLOCK_COUNT && AllInLimits(blocks) then Some((NoCrc(blocks), end)) else None
  {
    hide Laid, FooterOk, PutIndexes, FooterBytes, AllInLimits, Footer, FooterSize;
    LaidStays(file, [], ver, blocks, CHUNK_HDR, end, crc);
    assert file[..end] + [] == file[..end];
    FooterBack(file[..end], blocks, ver, crc);
    assert forall f: bytes :: f + [] == f;
  }

  lemma NoMagic(t: bytes)
    requires |t| >= TRAILER && Widths(TRAILER_WIDTHS) == TRAILER
    ensures Unpack(t[|t| - TRAILER..], TRAILER_WIDTHS)[3] == GetBe(t[|t| - 4..])
  {
    var b := t[|t| - TRAILER..];
    hide GetBe;
    assert TRAILER_WIDTHS[1..] == [8, 4, 4] && TRAILER_WIDTHS[1..][1..] == [4, 4] &&
        TRAILER_WIDTHS[1..][1..][1..] == [4];
    assert b[4..][8..] == b[12..] && b[12..][4..] == b[16..] && b[16..][..4] == t[|t| - 4..];
    assert Unpack(b[16..], [4])[0] == GetBe(b[16..][..4]);
    assert Unpack(b[12..], [4, 4])[1] == Unpack(b[16..], [4])[0];
    assert Unpack(b[4..], [8, 4, 4])[2] == Unpack(b[12..], [4, 4])[1];
  }

  const FOOTER_MAGIC_BYTES: bytes := [0x4F, 0x5A, 0x59, 0x46]

  lemma MagicBytes()
    ensures FOOTER_MAGIC < Span(4) && PutBe(FOOTER_MAGIC, 4) == FOOTER_MAGIC_BYTES
  {
    assert Span(4) == TWO_32;
    assert PutBe(0x4F, 1) == [0x4F];
    assert PutBe(0x4F5A, 2) == [0x4F, 0x5A];
    assert PutBe(0x4F_5A59, 3) == [0x4F, 0x5A, 0x59];
  }

  lemma {:induction false} BeOnly(b: bytes)
    ensures GetBe(b) < Span(|b|) && PutBe(GetBe(b), |b|) == b
  {
    if b != [] {
      BeOnly(b[..|b| - 1]);
    }
  }

  lemma TrailerTail(count: nat, off: int, sum: nat)
    requires count < TWO_32 && sum < TWO_32
    ensures |PutTrailer(count, off, sum)| == TRAILER && PutTrailer(count, off, sum)[TRAILER - 4..] == FOOTER_MAGIC_BYTES
  {
    TrailerFits(count, off, sum);
    MagicBytes();
    hide PutBe, Span, ToUint64;
    var fs := TrailerFields(count, off, sum);
    assert fs[1..][1..][1..] == [fs[3]] && fs[1..][1..] == [fs[2], fs[3]] && fs[1..] == [fs[1], fs[2], fs[3]];
    assert Pack([fs[3]]) == FOOTER_MAGIC_BYTES + [] == FOOTER_MAGIC_BYTES;
    assert Pack([fs[2], fs[3]]) == PutBe(fs[2].value, 4) + Pack([fs[3]]);
    assert Pack([fs[1], fs[2], fs[3]]) == PutBe(fs[1].value, 8) + Pack([fs[2], fs[3]]);
  }

  lemma FooterTail(blocks: seq<BlockMeta>, end: nat, ver: nat, crc: bytes -> nat)
    requires FooterOk(blocks, ver) && |blocks| < TWO_32 && crc(PutIndexes(blocks, ver)) < TWO_32
    ensures var f := FooterBytes(blocks, end, ver, crc); |f| >= 4 && f[|f| - 4..] == FOOTER_MAGIC_BYTES
  {
    hide PutIndexes, PutTrailer;
    TrailerTail(|blocks|, end, crc(PutIndexes(blocks, ver)));
  }

  // A file that does not end in the magic has no footer.
  lemma NoFooter(t: bytes, ver: nat, crc: bytes -> nat)
    requires |t| >= 4 && t[|t| - 4..] != FOOTER_MAGIC_BYTES
    ensures Footer(t, ver, crc) == None
  {
    if |t| >= CHUNK_HDR + TRAILER {
      TrailerSize();
      NoMagic(t);
      MagicBytes();
      BeOnly(t[|t| - 4..]);
      hide GetBe, PutBe, Unpack, GetIndexes, ToInt64;
    }
  }

  // Stale bytes past the footer bury it: no shift of its magic is the magic again.
  lemma StaleTail(file: bytes, end: nat, footer: bytes)
    requires end <= |file| && |footer| >= 4 && footer[|footer| - 4..] == FOOTER_MAGIC_BYTES
    requires |file| > end + |footer| && file[|file| - 4..] != FOOTER_MAGIC_BYTES
    ensures var t := Overwrite(file, end, footer); |t| == |file| && t[|t| - 4..] != FOOTER_MAGIC_BYTES
  {
    var t, n := Overwrite(file, end, footer), |file| - end - |footer|;
    if n >= 4 {
      assert t[|t| - 4..] == file[|file| - 4..];
    } else {
      assert t[|t| - 4] == footer[|footer| - 4 + n];
      assert footer[|footer| - 4..][n] == FOOTER_MAGIC_BYTES[n];
      assert t[|t| - 4..][0] == FOOTER_MAGIC_BYTES[n];
    }
  }

  // The exact guard: where the old tail does not itself end like a footer, Seal's is found if and only if
  // nothing reaches past it. A file grown by a block whose fsync failed is the case it is not.
  lemma FooterFoundIff(file: bytes, blocks: seq<BlockMeta>, ver: nat, end: nat, crc: bytes -> nat)
    requires CHUNK_HDR <= end <= |file| && Laid(file, ver, blocks, CHUNK_HDR, end, crc) && FooterOk(blocks, ver)
    requires |blocks| <= MAX_BLOCK_COUNT && AllInLimits(blocks) && IsInt64(end) && crc(PutIndexes(blocks, ver)) < TWO_32
    requires file[|file| - 4..] != FOOTER_MAGIC_BYTES
    ensures Footer(Overwrite(file, end, FooterBytes(blocks, end, ver, crc)), ver, crc).Some? <==>
              |file| <= end + FooterSize(|blocks|, ver)
  {
    hide Laid, FooterOk, PutIndexes, FooterBytes, AllInLimits, Footer, FooterSize, NoCrc, Overwrite;
    var footer := FooterBytes(blocks, end, ver, crc);
    FooterFound(file, blocks, ver, end, crc);
    FooterTail(blocks, end, ver, crc);
    if |file| > end + |footer| {
      StaleTail(file, end, footer);
      NoFooter(Overwrite(file, end, footer), ver, crc);
    }
  }

  // Such a file: one empty block of a hundred zeros, written to a new chunk and never synced.
  const ZEROS: bytes := seq(100, _ => 0)

  lemma BuriedFooter(crc: bytes -> nat)
    requires forall b :: crc(b) < TWO_32
    ensures var m := BlockMeta(8, 0, 0, 1, 0, 100, crc(ZEROS), 0, 0);
            && InLimits(m) && MetaOk(m) && FooterOk([], 2)
            && var unsynced := Overwrite(ChunkHeader(2), 8, BlockBytes(m, 2, ZEROS, []));
               Footer(Overwrite(unsynced, 8, FooterBytes([], 8, 2, crc)), 2, crc) == None
  {
    var m := BlockMeta(8, 0, 0, 1, 0, 100, crc(ZEROS), 0, 0);
    HeaderBack(m, 2, []);
    hide ChunkHeader, PutHeader, Footer, PutTrailer, FooterBytes, Overwrite, BlockBytes;
    var file := Overwrite(ChunkHeader(2), 8, BlockBytes(m, 2, ZEROS, []));
    UnsyncedIs(m);
    NoBlocksFooter(crc);
    var footer := FooterBytes([], 8, 2, crc);
    StaleTail(file, 8, footer);
    NoFooter(Overwrite(file, 8, footer), 2, crc);
  }

  lemma UnsyncedIs(m: BlockMeta)
    requires MetaOk(m) && |PutHeader(m, 2)| == 44
    ensures var file := Overwrite(ChunkHeader(2), 8, BlockBytes(m, 2, ZEROS, []));
              |file| == 152 && file[148..] == [0, 0, 0, 0]
  {
    hide ChunkHeader, PutHeader;
    var file := Overwrite(ChunkHeader(2), 8, BlockBytes(m, 2, ZEROS, []));
    assert file == ChunkHeader(2) + PutHeader(m, 2) + ZEROS;
  }

  lemma NoBlocksFooter(crc: bytes -> nat)
    requires crc([]) < TWO_32
    ensures FooterOk([], 2) && |FooterBytes([], 8, 2, crc)| == TRAILER
    ensures FooterBytes([], 8, 2, crc)[TRAILER - 4..] == FOOTER_MAGIC_BYTES
  {
    hide PutTrailer;
    TrailerTail(0, 8, crc([]));
    assert PutIndexes([], 2) == [];
    assert [] + PutTrailer(0, 8, crc([])) == PutTrailer(0, 8, crc([]));
  }

  lemma FooterFrom(file: bytes, index: bytes, trailer: bytes, ver: nat, crc: bytes -> nat, count: nat,
                   blocks: Option<seq<BlockMeta>>)
    requires CHUNK_HDR <= |file| && |trailer| == TRAILER == Widths(TRAILER_WIDTHS) && |index| == count * EntrySize(ver)
    requires var v := Unpack(trailer, TRAILER_WIDTHS);
             v[0] == count && ToInt64(v[1]) == |file| && v[2] == crc(index) && v[3] == FOOTER_MAGIC
    requires GetIndexes(index, count, ver, CHUNK_HDR, |file|) == blocks
    ensures Footer(file + (index + trailer), ver, crc) == if count <= MAX_BLOCK_COUNT && blocks.Some?
              then Some((blocks.value, |file|)) else None
  {
    hide Footer, GetIndexes, Unpack, Widths, ToInt64, EntrySize;
    FooterPieces(file, index, trailer);
    FooterIs(file + (index + trailer), ver, crc, count, |file|, blocks);
  }

  lemma FooterIs(t: bytes, ver: nat, crc: bytes -> nat, count: nat, off: nat, blocks: Option<seq<BlockMeta>>)
    requires |t| >= CHUNK_HDR + TRAILER && Widths(TRAILER_WIDTHS) == TRAILER
    requires var at := |t| - TRAILER;
             var v := Unpack(t[at..], TRAILER_WIDTHS);
             && off <= at && at - off == count * EntrySize(ver)
             && v[0] == count && ToInt64(v[1]) == off && v[2] == crc(t[off..at]) && v[3] == FOOTER_MAGIC
             && GetIndexes(t[off..at], count, ver, CHUNK_HDR, off) == blocks
    ensures Footer(t, ver, crc) == if count <= MAX_BLOCK_COUNT && blocks.Some? then Some((blocks.value, off)) else None
  {
    hide GetIndexes, Unpack, Widths, ToInt64, Tiles;
  }

  lemma FooterPieces(a: bytes, b: bytes, c: bytes)
    ensures var t := a + (b + c);
            var at := |t| - |c|;
            t[at..] == c && at == |a| + |b| && t[|a|..at] == b
  {
  }

  method EncodeIndex(blocks: seq<BlockMeta>, ver: nat) returns (buf: bytes)
    requires FooterOk(blocks, ver)
    ensures buf == PutIndexes(blocks, ver)
  {
    hide PutIndex, MetaOk;
    buf := [];
    var i := 0;
    while i < |blocks|
      invariant 0 <= i <= |blocks| && FooterOk(blocks[i..], ver)
      invariant buf + PutIndexes(blocks[i..], ver) == PutIndexes(blocks, ver)
    {
      var m := blocks[i];
      assert blocks[i..][0] == m && blocks[i..][1..] == blocks[i + 1..] && m in blocks;
      assert buf + (PutIndex(m, ver) + PutIndexes(blocks[i + 1..], ver))
          == buf + PutIndex(m, ver) + PutIndexes(blocks[i + 1..], ver);
      buf := buf + PutIndex(m, ver);
      i := i + 1;
    }
    assert blocks[i..] == [] && buf + [] == buf;
  }

  method ReadFooter(file: bytes, ver: nat, crc: bytes -> nat) returns (r: Option<(seq<BlockMeta>, nat)>)
    ensures r == Footer(file, ver, crc)
  {
    if |file| < CHUNK_HDR + TRAILER {
      return None;
    }
    TrailerSize();
    hide Unpack, Widths;
    var at := |file| - TRAILER;
    var t := Unpack(file[at..], TRAILER_WIDTHS);
    var count, off := t[0], ToInt64(t[1]);
    hide ToInt64;
    if t[3] != FOOTER_MAGIC || count > MAX_BLOCK_COUNT || off < 0 || off + count * EntrySize(ver) != at ||
        crc(file[off..at]) != t[2] {
      return None;
    }
    var blocks := ReadIndexes(file[off..at], count, ver, off);
    r := if blocks.None? then None else Some((blocks.value, off));
  }

  method ReadIndexes(all: bytes, count: nat, ver: nat, off: int) returns (r: Option<seq<BlockMeta>>)
    requires |all| == count * EntrySize(ver)
    ensures r == GetIndexes(all, count, ver, CHUNK_HDR, off)
  {
    hide GetIndex, Plausible, Tiles;
    var rest, blocks, prevEnd: int, i := all, [], CHUNK_HDR, 0;
    AfterNothing(GetIndexes(all, count, ver, CHUNK_HDR, off));
    while i < count
      invariant 0 <= i <= count && |rest| == (count - i) * EntrySize(ver)
      invariant GetIndexes(all, count, ver, CHUNK_HDR, off) == After(blocks,
                  GetIndexes(rest, count - i, ver, prevEnd, off))
    {
      assert (count - i) * EntrySize(ver) == EntrySize(ver) + (count - i - 1) * EntrySize(ver);
      var m := GetIndex(rest, ver);
      if m.offset != prevEnd || !Plausible(m, ver, off) {
        return None;
      }
      AfterOne(blocks, m, GetIndexes(rest[EntrySize(ver)..], count - i - 1, ver, End(m, ver), off));
      blocks := blocks + [m];
      rest, prevEnd := rest[EntrySize(ver)..], End(m, ver);
      i := i + 1;
    }
    if prevEnd != off {
      return None;
    }
    assert blocks + [] == blocks;
    r := Some(blocks);
  }

  /* Opening a chunk. */

  const CHUNK_MAGIC: nat := 0x4F5A_5943   // "OZYC"

  // What openChunk writes at the front of a new file.
  function ChunkHeader(ver: nat): (h: bytes)
    requires ver < 0x1_0000
    ensures |h| == CHUNK_HDR
  {
    assert Span(4) == TWO_32 && Span(2) == 0x1_0000;
    PutBe(CHUNK_MAGIC, 4) + PutBe(ver, 2) + [0, 0]
  }

  lemma ChunkHeaderBack(file: bytes, ver: nat)
    requires ver < 0x1_0000 && CHUNK_HDR <= |file| && file[..CHUNK_HDR] == ChunkHeader(ver)
    ensures GetBe(file[..4]) == CHUNK_MAGIC && GetBe(file[4..6]) == ver
  {
    assert Span(4) == TWO_32 && Span(2) == 0x1_0000;
    hide PutBe, GetBe, Span;
    BeBack(CHUNK_MAGIC, 4);
    BeBack(ver, 2);
    var magic, version := PutBe(CHUNK_MAGIC, 4), PutBe(ver, 2);
    assert file[..4] == file[..CHUNK_HDR][..4] && file[4..6] == file[..CHUNK_HDR][4..6];
    assert (magic + version + [0, 0])[..4] == magic && (magic + version + [0, 0])[4..6] == version;
  }

  datatype ChunkIndex = ChunkIndex(blocks: seq<BlockMeta>, validEnd: nat, sealed: bool, ver: nat)

  // The footer if it holds together, and the walk otherwise. Any bytes at all that are accepted are tiled by
  // the blocks reported, from the header to the end of the valid data.
  method ReadIndex(file: bytes, crc: bytes -> nat) returns (r: Option<ChunkIndex>)
    ensures r.None? <==> |file| < CHUNK_HDR || GetBe(file[..4]) != CHUNK_MAGIC || !(1 <= GetBe(file[4..6]) <= 2)
    ensures r.Some? ==> r.value.ver == GetBe(file[4..6]) && r.value.sealed == Footer(file, r.value.ver, crc).Some?
    ensures r.Some? ==> Tiles(r.value.blocks, r.value.ver, CHUNK_HDR, r.value.validEnd) && r.value.validEnd <= |file|
    ensures r.Some? && r.value.sealed ==> Footer(file, r.value.ver, crc) == Some((r.value.blocks, r.value.validEnd))
    ensures r.Some? && !r.value.sealed ==> r.value.blocks == Walk(file, r.value.ver, CHUNK_HDR, crc)
  {
    hide Footer, Walk, GetBe, Tiles;
    if |file| < CHUNK_HDR || GetBe(file[..4]) != CHUNK_MAGIC {
      return None;
    }
    var ver := GetBe(file[4..6]);
    if ver < 1 || ver > 2 {
      return None;
    }
    var footer := ReadFooter(file, ver, crc);
    if footer.Some? {
      return Some(ChunkIndex(footer.value.0, footer.value.1, true, ver));
    }
    var blocks, validEnd := WalkBlocks(file, ver, crc);
    r := Some(ChunkIndex(blocks, validEnd, false, ver));
  }

  // Writing, sealing and opening again: what the writer had is what the reader reports.
  method Reopen(w: ChunkWriter) returns (r: Option<ChunkIndex>)
    requires w.Valid() && |w.blocks| <= MAX_BLOCK_COUNT && AllInLimits(w.blocks) && IsInt64(w.end)
    requires forall b :: w.crc(b) < TWO_32
    modifies w
    ensures r.Some? && r.value.ver == w.ver
    ensures |old(w.file)| <= w.end + FooterSize(|w.blocks|, w.ver) ==>
              r.value == ChunkIndex(NoCrc(w.blocks), w.end, true, w.ver)
    ensures !r.value.sealed ==> w.blocks <= r.value.blocks
    ensures w.blocks == old(w.blocks) && w.end == old(w.end)
  {
    hide Footer, Walk, GetBe, Tiles, Laid, NoCrc, AllInLimits, FooterSize;
    w.Seal(true);
    ChunkHeaderBack(w.file, w.ver);
    r := ReadIndex(w.file, w.crc);
  }
}
