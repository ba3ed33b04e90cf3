/**
 What every step of the log store keeps, and the guarantee it adds up to: in
 every run of appends, failures, seals, truncations and crashes, an acknowledged
 log is held, unchanged, in its own stream's head or in a block of its own day's
 chunk, and everything held is filed that way. That it is held only once is
 LogOnce.
 */
module LogDurability {
  import opened Options
  import opened LogState

  type Catalog = map<Labels, nat>
  type Chunks = map<ChunkKey, seq<Block>>

  /* The invariant, part by part. Each part names only what it reads. */

  ghost predicate WalOk(wal: seq<WalEntry>, cur: nat, catalog: Catalog, max: nat) {
    && SegmentsOk(wal)
    && (forall x :: x in wal ==> x.seg <= cur && 1 <= x.e.num && Resolve(catalog, max, x.e.log.labels).Some?)
  }

  ghost predicate SegmentsOk(wal: seq<WalEntry>) {
    forall i, j :: 0 <= i < j < |wal| ==> wal[i].seg <= wal[j].seg
  }

  // What was acknowledged and is still in the WAL is there durably.
  ghost predicate DurableOk(wal: seq<WalEntry>, acked: set<Entry>) {
    forall x :: x in wal && x.e in acked ==> x.durable
  }

  // The WAL still holds e, in no segment before seg.
  ghost predicate Backed(wal: seq<WalEntry>, e: Entry, seg: nat) {
    exists x :: x in wal && x.e == e && x.seg >= seg
  }

  ghost predicate HeadOk(h: Head, id: nat, last: nat, wal: seq<WalEntry>, catalog: Catalog, max: nat) {
    forall e :: e in h.entries ==>
        e.num <= last && Resolve(catalog, max, e.log.labels) == Some(id) && Backed(wal, e, h.seg)
  }

  ghost predicate HeadsOk(heads: map<nat, Head>, last: nat, wal: seq<WalEntry>, catalog: Catalog, max: nat) {
    forall id :: HeadOk(HeadOf(heads, id), id, last, wal, catalog, max)
  }

  ghost predicate InChunk(chunks: Chunks, k: ChunkKey, b: nat, e: Entry) {
    b < |BlocksOf(chunks, k)| && e in BlocksOf(chunks, k)[b]
  }

  ghost predicate ChunksOk(chunks: Chunks, last: nat, catalog: Catalog, max: nat) {
    forall k, b: nat, e :: InChunk(chunks, k, b, e) ==>
      e.num <= last && Resolve(catalog, max, e.log.labels) == Some(k.stream) && DayOf(e.log.ts) == k.day
  }

  // A head entry is newer than everything its chunk already holds: LastSeq is exact.
  ghost predicate SealsOk(heads: map<nat, Head>, chunks: Chunks) {
    forall id, e, b: nat, f :: e in HeadOf(heads, id).entries && InChunk(chunks, KeyOf(id, e), b, f) ==> f.num < e.num
  }

  // A written but unacknowledged block is a copy of the oldest head entries of its day.
  ghost predicate InLimboOk(b: Block, es: seq<Entry>, day: int) {
    && (forall e :: e in b ==> e in es && DayOf(e.log.ts) == day)
    && (forall e, f :: e in es && DayOf(e.log.ts) == day && e !in b && f in b ==> f.num < e.num)
  }

  ghost predicate LimboOk(limbo: map<ChunkKey, Block>, heads: map<nat, Head>) {
    forall k :: k in limbo ==> InLimboOk(limbo[k], HeadOf(heads, k.stream).entries, k.day)
  }

  ghost predicate Stored(heads: map<nat, Head>, chunks: Chunks, catalog: Catalog, max: nat, e: Entry) {
    && Resolve(catalog, max, e.log.labels).Some?
    && var id := Resolve(catalog, max, e.log.labels).value;
       e in HeadOf(heads, id).entries || exists b: nat :: InChunk(chunks, KeyOf(id, e), b, e)
  }

  ghost predicate AckedOk(acked: set<Entry>, last: nat, heads: map<nat, Head>, chunks: Chunks, catalog: Catalog,
                          max: nat)
  {
    forall e :: e in acked ==> e.num <= last && Stored(heads, chunks, catalog, max, e)
  }

  // A batch that is logged and not yet acknowledged: the newest numbers, in no head or block.
  ghost predicate PendingOk(p: Pending, wal: seq<WalEntry>, cur: nat, last: nat, heads: map<nat, Head>,
                            chunks: Chunks, acked: set<Entry>)
  {
    && p.seg == cur
    && p.base + |p.batch| == last + 1
    && EndsWith(wal, p)
    && (forall id, e :: e in HeadOf(heads, id).entries ==> e.num < p.base)
    && (forall k, b: nat, e :: InChunk(chunks, k, b, e) ==> e.num < p.base)
    && (forall e :: e in acked ==> e.num < p.base)
  }

  ghost predicate EndsWith(wal: seq<WalEntry>, p: Pending) {
    && |p.batch| <= |wal|
    && forall i :: 0 <= i < |p.batch| ==>
       TailAt(wal, |p.batch|, i).e == Entry(p.base + i, p.batch[i]) && TailAt(wal, |p.batch|, i).seg == p.seg
  }

  ghost function TailAt(wal: seq<WalEntry>, n: nat, i: nat): WalEntry
    requires i < n <= |wal|
  {
    wal[|wal| - n + i]
  }

  ghost predicate Inv(s: State, max: nat) {
    && WalOk(s.wal, s.cur, s.catalog, max)
    && DurableOk(s.wal, s.acked)
    && HeadsOk(s.heads, s.last, s.wal, s.catalog, max)
    && ChunksOk(s.chunks, s.last, s.catalog, max)
    && SealsOk(s.heads, s.chunks)
    && LimboOk(s.limbo, s.heads)
    && AckedOk(s.acked, s.last, s.heads, s.chunks, s.catalog, max)
    && (s.pending.Some? ==> PendingOk(s.pending.value, s.wal, s.cur, s.last, s.heads, s.chunks, s.acked))
  }

  /* Creating a stream. */

  // Which stream a log goes to never changes: not when another stream is created, not at the limit.
  lemma ResolveStable(catalog: Catalog, max: nat, other: Labels, id: nat, l: Labels)
    requires Resolve(catalog, max, other).None?
    requires Resolve(catalog, max, l).Some?
    ensures Resolve(catalog[Target(catalog, max, other) := id], max, l) == Resolve(catalog, max, l)
  {
    var t := Target(catalog, max, other);
    var after := catalog[t := id];
    assert after.Keys == catalog.Keys + {t};
    if l !in catalog {
      assert Fold(l) in catalog && |catalog| >= max;
      assert t == Fold(other) && t !in catalog;
      assert Fold(Fold(other)) == Fold(other);
    }
  }

  lemma CreateStreamKeeps(s: State, t: State, max: nat, l: Labels, id: nat)
    requires Inv(s, max) && Enabled(s, max, CreateStream(l, id)) && t == Apply(s, max, CreateStream(l, id))
    ensures Inv(t, max)
  {
    hide SealsOk, LimboOk, InChunk, Backed;
    forall m: Labels | Resolve(s.catalog, max, m).Some?
      ensures Resolve(t.catalog, max, m) == Resolve(s.catalog, max, m)
    {
      ResolveStable(s.catalog, max, l, id, m);
    }
    hide Resolve;
    forall i: nat ensures HeadOk(HeadOf(t.heads, i), i, t.last, t.wal, t.catalog, max) {
      assert HeadOk(HeadOf(s.heads, i), i, s.last, s.wal, s.catalog, max);
    }
    forall e | e in t.acked ensures Stored(t.heads, t.chunks, t.catalog, max, e) {
      assert Stored(s.heads, s.chunks, s.catalog, max, e);
    }
  }

  /* Logging a batch. */

  lemma WalGrows(wal: seq<WalEntry>, cur: nat, last: nat, catalog: Catalog, max: nat, batch: seq<Log>, seg: nat)
    requires WalOk(wal, cur, catalog, max) && cur <= seg
    requires AllFiled(catalog, max, batch)
    ensures WalOk(wal + WalEntries(last + 1, batch, seg), seg, catalog, max)
  {
    var more := WalEntries(last + 1, batch, seg);
    assert forall i :: 0 <= i < |wal| ==> wal[i] in wal;
    forall x | x in wal + more
      ensures x.seg <= seg && 1 <= x.e.num && Resolve(catalog, max, x.e.log.labels).Some?
    {
      assert x in wal || x in more;
    }
  }

  // New records have numbers above everything acknowledged.
  lemma DurableStill(s: State, max: nat, batch: seq<Log>, seg: nat)
    requires DurableOk(s.wal, s.acked) && AckedOk(s.acked, s.last, s.heads, s.chunks, s.catalog, max)
    ensures DurableOk(s.wal + WalEntries(s.last + 1, batch, seg), s.acked)
  {
    hide Stored;
    var more := WalEntries(s.last + 1, batch, seg);
    forall x | x in s.wal + more && x.e in s.acked ensures x.durable {
      assert x in s.wal || x in more;
    }
  }

  lemma HeadsBackedStill(heads: map<nat, Head>, last: nat, later: nat, wal: seq<WalEntry>, more: seq<WalEntry>,
                         catalog: Catalog, max: nat)
    requires HeadsOk(heads, last, wal, catalog, max) && last <= later
    ensures HeadsOk(heads, later, wal + more, catalog, max)
  {
    forall id: nat ensures HeadOk(HeadOf(heads, id), id, later, wal + more, catalog, max) {
      assert HeadOk(HeadOf(heads, id), id, last, wal, catalog, max);
    }
  }

  lemma HeadsBelow(s: State, max: nat)
    requires HeadsOk(s.heads, s.last, s.wal, s.catalog, max)
    ensures forall id, e :: e in HeadOf(s.heads, id).entries ==> e.num <= s.last
  {
    forall id: nat, e | e in HeadOf(s.heads, id).entries ensures e.num <= s.last {
      assert HeadOk(HeadOf(s.heads, id), id, s.last, s.wal, s.catalog, max);
    }
  }

  lemma LogBatchPends(s: State, max: nat, p: Pending)
    requires HeadsOk(s.heads, s.last, s.wal, s.catalog, max)
    requires ChunksOk(s.chunks, s.last, s.catalog, max)
    requires AckedOk(s.acked, s.last, s.heads, s.chunks, s.catalog, max)
    requires p.base == s.last + 1
    ensures PendingOk(p, s.wal + WalEntries(p.base, p.batch, p.seg), p.seg, s.last + |p.batch|, s.heads, s.chunks,
              s.acked)
  {
    HeadsBelow(s, max);
    LoggedAtEnd(s.wal, p);
    hide HeadsOk, WalEntries, Stored, InChunk, HeadOf, EndsWith, Resolve;
  }

  lemma LoggedAtEnd(wal: seq<WalEntry>, p: Pending)
    ensures EndsWith(wal + WalEntries(p.base, p.batch, p.seg), p)
  {
    var more := WalEntries(p.base, p.batch, p.seg);
    forall i | 0 <= i < |p.batch| ensures TailAt(wal + more, |p.batch|, i) == more[i] {}
  }

  lemma AckedBelow(acked: set<Entry>, last: nat, more: nat, heads: map<nat, Head>, chunks: Chunks, catalog: Catalog,
                   max: nat)
    requires AckedOk(acked, last, heads, chunks, catalog, max) && ChunksOk(chunks, last, catalog, max)
    ensures AckedOk(acked, last + more, heads, chunks, catalog, max) && ChunksOk(chunks, last + more, catalog, max)
  {
  }

  lemma LogBatchKeeps(s: State, t: State, max: nat, batch: seq<Log>, roll: bool)
    requires Inv(s, max) && Enabled(s, max, LogBatch(batch, roll)) && t == Apply(s, max, LogBatch(batch, roll))
    ensures Inv(t, max)
  {
    hide WalOk, DurableOk, HeadsOk, ChunksOk, SealsOk, LimboOk, AckedOk, PendingOk, WalEntries, Spent, Numbered,
         Resolve;
    WalGrows(s.wal, s.cur, s.last, s.catalog, max, batch, t.cur);
    DurableStill(s, max, batch, t.cur);
    HeadsBackedStill(s.heads, s.last, t.last, s.wal, WalEntries(s.last + 1, batch, t.cur), s.catalog, max);
    AckedBelow(s.acked, s.last, |batch|, s.heads, s.chunks, s.catalog, max);
    LogBatchPends(s, max, t.pending.value);
  }

  /* Acknowledging a batch. */

  // The part of a batch that goes to stream id, numbered.
  ghost function Share(catalog: Catalog, max: nat, batch: seq<Log>, base: nat, id: nat): seq<Entry> {
    if batch == [] then []
    else
      var n := |batch| - 1;
      Share(catalog, max, batch[..n], base, id) +
        (if Resolve(catalog, max, batch[n].labels) == Some(id) then [Entry(base + n, batch[n])] else [])
  }

  ghost predicate IsShare(es: seq<Entry>, catalog: Catalog, max: nat, batch: seq<Log>, base: nat, id: nat) {
    && (forall e :: e in es ==>
           base <= e.num < base + |batch| && e.log == batch[e.num - base] &&
           Resolve(catalog, max, e.log.labels) == Some(id))
    && (forall i :: 0 <= i < |batch| && Resolve(catalog, max, batch[i].labels) == Some(id) ==>
           Entry(base + i, batch[i]) in es)
  }

  lemma {:induction false} ShareFrom(catalog: Catalog, max: nat, batch: seq<Log>, base: nat, id: nat, e: Entry)
    requires e in Share(catalog, max, batch, base, id)
    ensures base <= e.num < base + |batch| && e.log == batch[e.num - base]
    ensures Resolve(catalog, max, e.log.labels) == Some(id)
  {
    hide Resolve;
    var n := |batch| - 1;
    if e in Share(catalog, max, batch[..n], base, id) {
      ShareFrom(catalog, max, batch[..n], base, id, e);
    }
  }

  lemma {:induction false} ShareHas(catalog: Catalog, max: nat, batch: seq<Log>, base: nat, id: nat, i: nat)
    requires i < |batch| && Resolve(catalog, max, batch[i].labels) == Some(id)
    ensures Entry(base + i, batch[i]) in Share(catalog, max, batch, base, id)
  {
    hide Resolve;
    if i < |batch| - 1 {
      ShareHas(catalog, max, batch[..|batch| - 1], base, id, i);
    }
  }

  lemma ShareIs(catalog: Catalog, max: nat, batch: seq<Log>, base: nat, id: nat)
    ensures IsShare(Share(catalog, max, batch, base, id), catalog, max, batch, base, id)
  {
    hide Resolve, Share;
    var share := Share(catalog, max, batch, base, id);
    forall e | e in share
      ensures base <= e.num < base + |batch| && e.log == batch[e.num - base]
      ensures Resolve(catalog, max, e.log.labels) == Some(id)
    {
      ShareFrom(catalog, max, batch, base, id, e);
    }
    forall i | 0 <= i < |batch| && Resolve(catalog, max, batch[i].labels) == Some(id)
      ensures Entry(base + i, batch[i]) in share
    {
      ShareHas(catalog, max, batch, base, id, i);
    }
  }

  lemma AddAllStep(heads: map<nat, Head>, catalog: Catalog, max: nat, batch: seq<Log>, base: nat, seg: nat, id: nat)
    requires batch != [] && AllFiled(catalog, max, batch)
    ensures var n := |batch| - 1;
            var before := HeadOf(AddAll(heads, catalog, max, batch[..n], base, seg), id);
            HeadOf(AddAll(heads, catalog, max, batch, base, seg), id) ==
              if Resolve(catalog, max, batch[n].labels) == Some(id)
                  then AddTo(before, Entry(base + n, batch[n]), seg) else before
  {
    hide Resolve;
  }

  // What filling the heads does to one of them: its share is appended, and its segment set if it was empty.
  lemma {:induction false} AddAllHead(heads: map<nat, Head>, catalog: Catalog, max: nat, batch: seq<Log>, base: nat,
                                      seg: nat, id: nat)
    requires AllFiled(catalog, max, batch)
    ensures var h, share := HeadOf(heads, id), Share(catalog, max, batch, base, id);
            HeadOf(AddAll(heads, catalog, max, batch, base, seg), id)
              == Head(h.entries + share, if h.entries == [] && share != [] then seg else h.seg)
  {
    var h := HeadOf(heads, id);
    if batch == [] {
      assert h.entries + [] == h.entries;
    } else {
      AddAllStep(heads, catalog, max, batch, base, seg, id);
      hide AddAll, HeadOf, Resolve;
      var n := |batch| - 1;
      AddAllHead(heads, catalog, max, batch[..n], base, seg, id);
      assert forall es: seq<Entry>, e: Entry :: h.entries + es + [e] == h.entries + (es + [e]);
    }
  }

  lemma SyncedHolds(wal: seq<WalEntry>, x: WalEntry)
    requires x in wal
    ensures x.(durable := true) in Synced(wal)
  {
    var i :| 0 <= i < |wal| && wal[i] == x;
    assert Synced(wal)[i] == x.(durable := true);
  }

  lemma SyncedFrom(wal: seq<WalEntry>, y: WalEntry) returns (x: WalEntry)
    requires y in Synced(wal)
    ensures x in wal && x.e == y.e && x.seg == y.seg && y.durable
  {
    var i :| 0 <= i < |wal| && Synced(wal)[i] == y;
    x := wal[i];
  }

  lemma SyncedBacks(wal: seq<WalEntry>, e: Entry, seg: nat)
    requires Backed(wal, e, seg)
    ensures Backed(Synced(wal), e, seg)
  {
    var x :| x in wal && x.e == e && x.seg >= seg;
    SyncedHolds(wal, x);
  }

  lemma PendingBacked(wal: seq<WalEntry>, p: Pending, i: nat, seg: nat)
    requires EndsWith(wal, p) && i < |p.batch| && seg <= p.seg
    ensures Backed(Synced(wal), Entry(p.base + i, p.batch[i]), seg)
  {
    SyncedHolds(wal, TailAt(wal, |p.batch|, i));
  }

  lemma HeadSegBelow(h: Head, id: nat, s: State, max: nat)
    requires WalOk(s.wal, s.cur, s.catalog, max) && HeadOk(h, id, s.last, s.wal, s.catalog, max)
    requires h.entries != []
    ensures h.seg <= s.cur
  {
    assert Backed(s.wal, h.entries[0], h.seg);
  }

  lemma AcknowledgeHead(s: State, t: State, max: nat, id: nat)
    requires s.pending.Some? && PendingOk(s.pending.value, s.wal, s.cur, s.last, s.heads, s.chunks, s.acked)
    requires WalOk(s.wal, s.cur, s.catalog, max) && HeadOk(HeadOf(s.heads, id), id, s.last, s.wal, s.catalog, max)
    requires Enabled(s, max, Acknowledge) && t == Apply(s, max, Acknowledge)
    ensures HeadOk(HeadOf(t.heads, id), id, t.last, t.wal, t.catalog, max)
  {
    hide InChunk, Numbered, AddAll, Resolve, Synced, EndsWith, Share;
    var p := s.pending.value;
    AddAllHead(s.heads, s.catalog, max, p.batch, p.base, p.seg, id);
    ShareIs(s.catalog, max, p.batch, p.base, id);
    hide HeadOf;
    var h, g := HeadOf(s.heads, id), HeadOf(t.heads, id);
    if h.entries != [] { HeadSegBelow(h, id, s, max); }
    hide WalOk;
    forall e | e in g.entries
      ensures e.num <= t.last && Backed(t.wal, e, g.seg) && Resolve(t.catalog, max, e.log.labels) == Some(id)
    {
      hide Backed;
      assert g.entries != [];
      if e in h.entries {
        SyncedBacks(s.wal, e, h.seg);
      } else {
        PendingBacked(s.wal, p, e.num - p.base, g.seg);
      }
    }
  }

  lemma SyncedOk(wal: seq<WalEntry>, cur: nat, catalog: Catalog, max: nat, acked: set<Entry>)
    requires WalOk(wal, cur, catalog, max)
    ensures WalOk(Synced(wal), cur, catalog, max) && DurableOk(Synced(wal), acked)
  {
    hide Resolve;
    forall y | y in Synced(wal)
      ensures y.seg <= cur && 1 <= y.e.num && y.durable && Resolve(catalog, max, y.e.log.labels).Some?
    {
      var x := SyncedFrom(wal, y);
    }
  }

  ghost predicate Grown(heads: map<nat, Head>, heads': map<nat, Head>, base: nat) {
    forall id :: HeadGrown(HeadOf(heads, id).entries, HeadOf(heads', id).entries, base)
  }

  ghost predicate HeadGrown(es: seq<Entry>, fs: seq<Entry>, base: nat) {
    es <= fs && forall e :: e in fs && e !in es ==> base <= e.num
  }

  lemma AddAllGrows(s: State, max: nat)
    requires s.pending.Some? && PendingOk(s.pending.value, s.wal, s.cur, s.last, s.heads, s.chunks, s.acked)
    requires HeadsOk(s.heads, s.last, s.wal, s.catalog, max) && Enabled(s, max, Acknowledge)
    ensures var p := s.pending.value;
            Grown(s.heads, AddAll(s.heads, s.catalog, max, p.batch, p.base, p.seg), p.base)
  {
    hide Backed, EndsWith, InChunk, Resolve;
    var p := s.pending.value;
    forall id: nat
      ensures HeadGrown(HeadOf(s.heads, id).entries,
                HeadOf(AddAll(s.heads, s.catalog, max, p.batch, p.base, p.seg), id).entries, p.base)
    {
      assert HeadOk(HeadOf(s.heads, id), id, s.last, s.wal, s.catalog, max);
      AddAllHead(s.heads, s.catalog, max, p.batch, p.base, p.seg, id);
      ShareIs(s.catalog, max, p.batch, p.base, id);
    }
  }

  lemma GrownSeals(heads: map<nat, Head>, heads': map<nat, Head>, base: nat, chunks: Chunks)
    requires Grown(heads, heads', base) && SealsOk(heads, chunks)
    requires forall k, b: nat, e :: InChunk(chunks, k, b, e) ==> e.num < base
    ensures SealsOk(heads', chunks)
  {
    hide InChunk, HeadOf;
  }

  lemma GrownLimbo(heads: map<nat, Head>, heads': map<nat, Head>, base: nat, limbo: map<ChunkKey, Block>)
    requires Grown(heads, heads', base) && LimboOk(limbo, heads)
    requires forall id, e :: e in HeadOf(heads, id).entries ==> e.num < base
    ensures LimboOk(limbo, heads')
  {
    hide HeadOf;
    forall k | k in limbo ensures InLimboOk(limbo[k], HeadOf(heads', k.stream).entries, k.day) {
      assert InLimboOk(limbo[k], HeadOf(heads, k.stream).entries, k.day);
    }
  }

  lemma GrownStored(heads: map<nat, Head>, heads': map<nat, Head>, base: nat, chunks: Chunks, catalog: Catalog,
                    max: nat, e: Entry)
    requires Grown(heads, heads', base) && Stored(heads, chunks, catalog, max, e)
    ensures Stored(heads', chunks, catalog, max, e)
  {
    hide InChunk, HeadOf, Resolve;
  }

  lemma PendingStored(s: State, max: nat, i: nat)
    requires s.pending.Some? && PendingOk(s.pending.value, s.wal, s.cur, s.last, s.heads, s.chunks, s.acked)
    requires HeadsOk(s.heads, s.last, s.wal, s.catalog, max) && Enabled(s, max, Acknowledge)
    requires i < |s.pending.value.batch|
    ensures var p := s.pending.value;
            Stored(AddAll(s.heads, s.catalog, max, p.batch, p.base, p.seg), s.chunks, s.catalog, max,
                Entry(p.base + i, p.batch[i]))
  {
    hide Backed, EndsWith, InChunk;
    var p := s.pending.value;
    var id := Resolve(s.catalog, max, p.batch[i].labels).value;
    AddAllHead(s.heads, s.catalog, max, p.batch, p.base, p.seg, id);
    ShareIs(s.catalog, max, p.batch, p.base, id);
  }

  lemma AcknowledgeAcked(s: State, t: State, max: nat)
    requires Inv(s, max) && Enabled(s, max, Acknowledge) && t == Apply(s, max, Acknowledge)
    ensures AckedOk(t.acked, t.last, t.heads, t.chunks, t.catalog, max)
  {
    hide WalOk, DurableOk, HeadsOk, ChunksOk, SealsOk, LimboOk, Stored, AddAll, InChunk, HeadOf, Resolve, Grown;
    var p := s.pending.value;
    AddAllGrows(s, max);
    forall e | e in t.acked ensures e.num <= t.last && Stored(t.heads, t.chunks, t.catalog, max, e) {
      if e in s.acked {
        GrownStored(s.heads, t.heads, p.base, s.chunks, s.catalog, max, e);
      } else {
        PendingStored(s, max, e.num - p.base);
      }
    }
  }

  lemma AcknowledgeKeeps(s: State, t: State, max: nat)
    requires Inv(s, max) && Enabled(s, max, Acknowledge) && t == Apply(s, max, Acknowledge)
    ensures Inv(t, max)
  {
    hide WalOk, ChunksOk, SealsOk, LimboOk, AckedOk, HeadOk, InChunk, Numbered, AddAll, HeadOf, Grown;
    SyncedOk(s.wal, s.cur, s.catalog, max, t.acked);
    forall id: nat ensures HeadOk(HeadOf(t.heads, id), id, t.last, t.wal, t.catalog, max) {
      AcknowledgeHead(s, t, max, id);
    }
    AddAllGrows(s, max);
    GrownSeals(s.heads, t.heads, s.pending.value.base, s.chunks);
    GrownLimbo(s.heads, t.heads, s.pending.value.base, s.limbo);
    AcknowledgeAcked(s, t, max);
  }

  // Whatever records a failed wal.Log leaves, what is acknowledged stays safe.
  lemma LogFailedKeeps(s: State, t: State, max: nat, left: seq<Log>, roll: bool)
    requires Inv(s, max) && Enabled(s, max, LogFailed(left, roll)) && t == Apply(s, max, LogFailed(left, roll))
    ensures Inv(t, max)
  {
    hide WalOk, DurableOk, HeadsOk, ChunksOk, SealsOk, LimboOk, AckedOk, PendingOk, WalEntries, Spent, Numbered,
         Resolve;
    WalGrows(s.wal, s.cur, s.last, s.catalog, max, left, t.cur);
    DurableStill(s, max, left, t.cur);
    HeadsBackedStill(s.heads, s.last, s.last, s.wal, WalEntries(s.last + 1, left, t.cur), s.catalog, max);
  }

  lemma SyncFailedKeeps(s: State, t: State, max: nat)
    requires Inv(s, max) && Enabled(s, max, SyncFailed) && t == Apply(s, max, SyncFailed)
    ensures Inv(t, max)
  {
    hide WalOk, DurableOk, HeadsOk, ChunksOk, SealsOk, LimboOk, AckedOk, PendingOk;
  }

  /* Sealing a day. */

  lemma DayGroupIs(b: Block, es: seq<Entry>, day: int)
    requires IsDayGroup(b, es, day)
    ensures forall e :: e in b <==> e in es && DayOf(e.log.ts) == day
  {
    hide DayOf;
    assert forall e :: e in b <==> e in multiset(b);
    assert forall e :: e in es <==> e in multiset(es);
  }

  lemma WriteBlockKeeps(s: State, t: State, max: nat, k: ChunkKey, b: Block)
    requires Inv(s, max) && Enabled(s, max, WriteBlock(k, b)) && t == Apply(s, max, WriteBlock(k, b))
    ensures Inv(t, max)
  {
    hide WalOk, DurableOk, HeadsOk, ChunksOk, SealsOk, AckedOk, PendingOk;
    DayGroupIs(b, HeadOf(s.heads, k.stream).entries, k.day);
  }

  lemma LoseBlockKeeps(s: State, t: State, max: nat, k: ChunkKey)
    requires Inv(s, max) && t == Apply(s, max, LoseBlock(k))
    ensures Inv(t, max)
  {
    hide WalOk, DurableOk, HeadsOk, ChunksOk, SealsOk, AckedOk, PendingOk;
  }

  // What publishing does to the blocks: the chunk gains one, holding exactly the day's head entries.
  lemma PublishedBlocks(s: State, t: State, max: nat, k: ChunkKey)
    requires Enabled(s, max, Publish(k)) && t == Apply(s, max, Publish(k))
    ensures forall l, b: nat, e :: InChunk(t.chunks, l, b, e) <==>
              InChunk(s.chunks, l, b, e) || (l == k && b == |BlocksOf(s.chunks, k)| && e in s.limbo[k])
    ensures forall id, e :: e in HeadOf(t.heads, id).entries <==>
              e in HeadOf(s.heads, id).entries && KeyOf(id, e) != k
    ensures forall e :: e in s.limbo[k] <==> e in HeadOf(s.heads, k.stream).entries && DayOf(e.log.ts) == k.day
  {
    DayGroupIs(s.limbo[k], HeadOf(s.heads, k.stream).entries, k.day);
    hide IsDayGroup, HeadOf;
    forall id: nat, e
      ensures e in HeadOf(t.heads, id).entries <==>
              e in HeadOf(s.heads, id).entries && KeyOf(id, e) != k
    {
      PublishedHead(s, t, max, k, id);
    }
  }

  lemma PublishedHead(s: State, t: State, max: nat, k: ChunkKey, id: nat)
    requires Enabled(s, max, Publish(k)) && t == Apply(s, max, Publish(k))
    ensures var h := HeadOf(s.heads, id);
            HeadOf(t.heads, id) == if id == k.stream then Head(Rest(h.entries, k.day), h.seg) else h
  {
  }

  lemma PublishHeads(s: State, t: State, max: nat, k: ChunkKey)
    requires HeadsOk(s.heads, s.last, s.wal, s.catalog, max)
    requires Enabled(s, max, Publish(k)) && t == Apply(s, max, Publish(k))
    ensures HeadsOk(t.heads, t.last, t.wal, t.catalog, max)
  {
    hide Backed, Resolve, DayOf;
    forall id: nat ensures HeadOk(HeadOf(t.heads, id), id, t.last, t.wal, t.catalog, max) {
      assert HeadOk(HeadOf(s.heads, id), id, s.last, s.wal, s.catalog, max);
    }
  }

  lemma PublishLimbo(s: State, t: State, max: nat, k: ChunkKey)
    requires LimboOk(s.limbo, s.heads)
    requires HeadsOk(s.heads, s.last, s.wal, s.catalog, max)
    requires Enabled(s, max, Publish(k)) && t == Apply(s, max, Publish(k))
    ensures LimboOk(t.limbo, t.heads)
  {
    PublishedBlocks(s, t, max, k);
    hide InChunk, HeadOf, DayOf, Rest, IsDayGroup, HeadsOk;
    forall l | l in t.limbo ensures InLimboOk(t.limbo[l], HeadOf(t.heads, l.stream).entries, l.day) {
      assert InLimboOk(s.limbo[l], HeadOf(s.heads, l.stream).entries, l.day);
      hide LimboOk;
    }
  }

  lemma PublishStored(s: State, t: State, max: nat, k: ChunkKey, e: Entry)
    requires Stored(s.heads, s.chunks, s.catalog, max, e)
    requires HeadsOk(s.heads, s.last, s.wal, s.catalog, max)
    requires Enabled(s, max, Publish(k)) && t == Apply(s, max, Publish(k))
    ensures Stored(t.heads, t.chunks, t.catalog, max, e)
  {
    PublishedBlocks(s, t, max, k);
    hide InChunk, HeadOf, DayOf, Rest, Resolve, IsDayGroup, HeadsOk;
    var id := Resolve(s.catalog, max, e.log.labels).value;
    if e in HeadOf(s.heads, id).entries {
      if id == k.stream && DayOf(e.log.ts) == k.day {
        assert InChunk(t.chunks, KeyOf(id, e), |BlocksOf(s.chunks, k)|, e);
      }
    } else {
      var b: nat :| InChunk(s.chunks, KeyOf(id, e), b, e);
      assert InChunk(t.chunks, KeyOf(id, e), b, e);
    }
  }

  // Head entries are filed and numbered as their chunk requires.
  lemma HeadEntry(s: State, max: nat, id: nat, e: Entry)
    requires HeadsOk(s.heads, s.last, s.wal, s.catalog, max) && e in HeadOf(s.heads, id).entries
    ensures e.num <= s.last && Resolve(s.catalog, max, e.log.labels) == Some(id)
    ensures exists x :: x in s.wal && x.e == e
  {
    var h := HeadOf(s.heads, id);
    assert HeadOk(h, id, s.last, s.wal, s.catalog, max);
    assert Backed(s.wal, e, h.seg);
  }

  lemma PublishChunks(s: State, t: State, max: nat, k: ChunkKey)
    requires Inv(s, max) && Enabled(s, max, Publish(k)) && t == Apply(s, max, Publish(k))
    ensures ChunksOk(t.chunks, t.last, t.catalog, max)
  {
    hide InChunk, HeadOf, Rest, Resolve, WalOk, HeadsOk, LimboOk, AckedOk, SealsOk, DayOf, IsDayGroup;
    PublishedBlocks(s, t, max, k);
    forall l, b: nat, e | InChunk(t.chunks, l, b, e)
      ensures e.num <= s.last && DayOf(e.log.ts) == l.day && Resolve(s.catalog, max, e.log.labels) == Some(l.stream)
    {
      if !InChunk(s.chunks, l, b, e) {
        HeadEntry(s, max, k.stream, e);
      }
    }
  }

  lemma PublishSeals(s: State, t: State, max: nat, k: ChunkKey)
    requires HeadsOk(s.heads, s.last, s.wal, s.catalog, max)
    requires SealsOk(s.heads, s.chunks) && Enabled(s, max, Publish(k)) && t == Apply(s, max, Publish(k))
    ensures SealsOk(t.heads, t.chunks)
  {
    PublishedBlocks(s, t, max, k);
    hide InChunk, HeadOf, Rest, DayOf, IsDayGroup, HeadsOk;
  }

  lemma PublishKeeps(s: State, t: State, max: nat, k: ChunkKey)
    requires Inv(s, max) && Enabled(s, max, Publish(k)) && t == Apply(s, max, Publish(k))
    ensures Inv(t, max)
  {
    hide WalOk, DurableOk, HeadsOk, ChunksOk, SealsOk, LimboOk, Stored;
    PublishHeads(s, t, max, k);
    PublishLimbo(s, t, max, k);
    PublishChunks(s, t, max, k);
    PublishSeals(s, t, max, k);
    forall e | e in t.acked ensures Stored(t.heads, t.chunks, t.catalog, max, e) {
      PublishStored(s, t, max, k, e);
    }
  }

  /* Truncating the WAL. */

  lemma {:induction false} DropSegmentOk(wal: seq<WalEntry>, seg: nat)
    requires SegmentsOk(wal)
    ensures SegmentsOk(DropSegment(wal, seg))
  {
    if wal != [] {
      var n := |wal| - 1;
      DropSegmentOk(wal[..n], seg);
      var r, kept := DropSegment(wal, seg), DropSegment(wal[..n], seg);
      forall i | 0 <= i < |kept| ensures kept[i].seg <= wal[n].seg {
        assert kept[i] in wal[..n];
      }
      assert r == kept || r == kept + [wal[n]];
    }
  }

  lemma RemoveSegmentKeeps(s: State, t: State, max: nat, seg: nat)
    requires Inv(s, max) && Enabled(s, max, RemoveSegment(seg)) && t == Apply(s, max, RemoveSegment(seg))
    ensures Inv(t, max)
  {
    hide ChunksOk, SealsOk, LimboOk, AckedOk, Resolve, InChunk, SegmentsOk;
    DropSegmentOk(s.wal, seg);
    forall id: nat ensures HeadOk(HeadOf(t.heads, id), id, t.last, t.wal, t.catalog, max) {
      var h := HeadOf(s.heads, id);
      assert HeadOk(h, id, s.last, s.wal, s.catalog, max);
      forall e | e in h.entries ensures Backed(t.wal, e, h.seg) {
        assert Backed(s.wal, e, h.seg) && h.entries != [];
      }
    }
  }

  /* Crashing and recovering. */

  lemma SurvivingBlocks(chunks: Chunks, limbo: map<ChunkKey, Block>, kept: set<ChunkKey>, k: ChunkKey, b: nat, e: Entry)
    ensures InChunk(Surviving(chunks, limbo, kept), k, b, e) <==>
              InChunk(chunks, k, b, e) || (k in limbo && k in kept && b == |BlocksOf(chunks, k)| && e in limbo[k])
  {
    var after := Surviving(chunks, limbo, kept);
    assert BlocksOf(after, k) == if k in limbo && k in kept then BlocksOf(chunks, k) + [limbo[k]]
        else BlocksOf(chunks, k);
  }

  // Blocks that survive in limbo are filed, numbered and ordered like published ones.
  lemma CrashChunks(s: State, t: State, max: nat, step: Step)
    requires Inv(s, max) && step.CrashAndRecover? && Enabled(s, max, step) && t == Apply(s, max, step)
    ensures ChunksOk(t.chunks, t.last, t.catalog, max)
  {
    hide InChunk, HeadOf, Resolve, HeadsOk, AckedOk, SealsOk, DayOf, Surviving, ReplayedHeads;
    forall k, b: nat, e | InChunk(t.chunks, k, b, e)
      ensures e.num <= t.last && DayOf(e.log.ts) == k.day && Resolve(s.catalog, max, e.log.labels) == Some(k.stream)
    {
      SurvivingBlocks(s.chunks, s.limbo, step.blocks, k, b, e);
      CrashNumbers(t.chunks, t.last, t.wal, k, b, e);
      if !InChunk(s.chunks, k, b, e) {
        assert InLimboOk(s.limbo[k], HeadOf(s.heads, k.stream).entries, k.day);
        HeadEntry(s, max, k.stream, e);
      }
    }
  }

  lemma CrashNumbers(chunks: Chunks, last: nat, wal: seq<WalEntry>, k: ChunkKey, b: nat, e: Entry)
    requires IsLastSeq(last, wal, chunks) && InChunk(chunks, k, b, e)
    ensures e.num <= last
  {
  }

  lemma {:induction false} UnsealedOk(wal: seq<WalEntry>, catalog: Catalog, max: nat, chunks: Chunks, id: nat)
    requires SegmentsOk(wal)
    ensures SegmentsOk(Unsealed(wal, catalog, max, chunks, id))
  {
    if wal != [] {
      var n := |wal| - 1;
      UnsealedOk(wal[..n], catalog, max, chunks, id);
      var r, kept := Unsealed(wal, catalog, max, chunks, id), Unsealed(wal[..n], catalog, max, chunks, id);
      forall i | 0 <= i < |kept| ensures kept[i].seg <= wal[n].seg {
        assert kept[i] in wal[..n];
      }
      assert r == kept || r == kept + [wal[n]];
    }
  }

  // Replay rebuilds heads that are filed right and backed by the WAL.
  lemma ReplayHead(wal: seq<WalEntry>, last: nat, catalog: Catalog, max: nat, chunks: Chunks, id: nat)
    requires SegmentsOk(wal) && forall x :: x in wal ==> x.e.num <= last
    ensures HeadOk(ReplayedHead(wal, catalog, max, chunks, id), id, last, wal, catalog, max)
  {
    var xs := Unsealed(wal, catalog, max, chunks, id);
    var h := ReplayedHead(wal, catalog, max, chunks, id);
    UnsealedOk(wal, catalog, max, chunks, id);
    forall e | e in h.entries
      ensures e.num <= last && Resolve(catalog, max, e.log.labels) == Some(id) && Backed(wal, e, h.seg)
    {
      var i :| 0 <= i < |xs| && xs[i].e == e;
      assert xs[i] in xs;
    }
  }

  lemma ReplayHeads(wal: seq<WalEntry>, last: nat, catalog: Catalog, max: nat, chunks: Chunks)
    requires SegmentsOk(wal) && forall x :: x in wal ==> x.e.num <= last
    ensures HeadsOk(ReplayedHeads(wal, catalog, max, chunks), last, wal, catalog, max)
  {
    var heads := ReplayedHeads(wal, catalog, max, chunks);
    forall id: nat ensures HeadOk(HeadOf(heads, id), id, last, wal, catalog, max) {
      ReplayHead(wal, last, catalog, max, chunks, id);
    }
  }

  // Replayed means logged, this stream's, and past what its chunk already holds.
  lemma ReplayedFrom(wal: seq<WalEntry>, catalog: Catalog, max: nat, chunks: Chunks, id: nat, e: Entry)
    requires e in HeadOf(ReplayedHeads(wal, catalog, max, chunks), id).entries
    ensures e.num > SealedTo(BlocksOf(chunks, KeyOf(id, e)))
  {
    hide Resolve, SealedTo;
    var xs := Unsealed(wal, catalog, max, chunks, id);
    var i :| 0 <= i < |xs| && xs[i].e == e;
    assert xs[i] in xs;
  }

  lemma ReplayedAll(wal: seq<WalEntry>, catalog: Catalog, max: nat, chunks: Chunks, id: nat, x: WalEntry)
    requires x in wal && Resolve(catalog, max, x.e.log.labels) == Some(id)
    requires x.e.num > SealedTo(BlocksOf(chunks, KeyOf(id, x.e)))
    ensures x.e in HeadOf(ReplayedHeads(wal, catalog, max, chunks), id).entries
  {
    assert id in catalog.Values;
    hide Resolve, SealedTo;
    var xs := Unsealed(wal, catalog, max, chunks, id);
    var i :| 0 <= i < |xs| && xs[i] == x;
    assert ReplayedHead(wal, catalog, max, chunks, id).entries[i] == x.e;
  }

  lemma ReplaySeals(wal: seq<WalEntry>, catalog: Catalog, max: nat, chunks: Chunks)
    ensures SealsOk(ReplayedHeads(wal, catalog, max, chunks), chunks)
  {
    var heads := ReplayedHeads(wal, catalog, max, chunks);
    forall id: nat, e, b: nat, f | e in HeadOf(heads, id).entries && InChunk(chunks, KeyOf(id, e), b, f)
      ensures f.num < e.num
    {
      ReplayedFrom(wal, catalog, max, chunks, id, e);
    }
  }

  // An acknowledged head entry is in the part of the WAL no crash can cut.
  lemma HeadDurable(s: State, max: nat, id: nat, e: Entry, kept: nat)
    requires WalOk(s.wal, s.cur, s.catalog, max) && DurableOk(s.wal, s.acked)
    requires HeadsOk(s.heads, s.last, s.wal, s.catalog, max)
    requires e in HeadOf(s.heads, id).entries && e in s.acked
    requires kept <= |s.wal| && forall i :: kept <= i < |s.wal| ==> !s.wal[i].durable
    ensures 1 <= e.num && exists x :: x in s.wal[..kept] && x.e == e
  {
    var h := HeadOf(s.heads, id);
    assert HeadOk(h, id, s.last, s.wal, s.catalog, max);
    assert Backed(s.wal, e, h.seg);
    var x :| x in s.wal && x.e == e;
    var i :| 0 <= i < |s.wal| && s.wal[i] == x;
    assert s.wal[..kept][i] == x;
  }

  lemma SealedHolder(chunks: Chunks, k: ChunkKey, num: nat) returns (b: nat, f: Entry)
    requires 1 <= num <= SealedTo(BlocksOf(chunks, k))
    ensures InChunk(chunks, k, b, f) && num <= f.num
  {
    var i, g :| 0 <= i < |BlocksOf(chunks, k)| && g in BlocksOf(chunks, k)[i] && g.num == SealedTo(BlocksOf(chunks, k));
    b, f := i, g;
  }

  // Nothing acknowledged is lost: what leaves the heads at the crash is replayed, or is in a surviving block.
  lemma CrashStored(s: State, t: State, max: nat, step: Step, e: Entry)
    requires Inv(s, max) && step.CrashAndRecover? && Enabled(s, max, step) && t == Apply(s, max, step)
    requires e in s.acked
    ensures Stored(t.heads, t.chunks, t.catalog, max, e)
  {
    hide WalOk, DurableOk, HeadsOk, InChunk, HeadOf, Resolve, ChunksOk, DayOf, Surviving, ReplayedHeads, SealedTo,
         IsLastSeq;
    assert Stored(s.heads, s.chunks, s.catalog, max, e);
    var id := Resolve(s.catalog, max, e.log.labels).value;
    var k := KeyOf(id, e);
    if e in HeadOf(s.heads, id).entries {
      HeadDurable(s, max, id, e, step.kept);
      var x :| x in s.wal[..step.kept] && x.e == e;
      if e.num > SealedTo(BlocksOf(t.chunks, k)) {
        ReplayedAll(t.wal, t.catalog, max, t.chunks, id, x);
      } else {
        var b, f := SealedHolder(t.chunks, k, e.num);
        SurvivingBlocks(s.chunks, s.limbo, step.blocks, k, b, f);
        assert InLimboOk(s.limbo[k], HeadOf(s.heads, id).entries, k.day);
        SurvivingBlocks(s.chunks, s.limbo, step.blocks, k, b, e);
      }
    } else {
      var b: nat :| InChunk(s.chunks, k, b, e);
      SurvivingBlocks(s.chunks, s.limbo, step.blocks, k, b, e);
    }
  }

  lemma StoredBelow(s: State, max: nat, e: Entry)
    requires HeadsOk(s.heads, s.last, s.wal, s.catalog, max)
    requires ChunksOk(s.chunks, s.last, s.catalog, max) && Stored(s.heads, s.chunks, s.catalog, max, e)
    ensures e.num <= s.last
  {
    HeadsBelow(s, max);
  }

  lemma CrashKeeps(s: State, t: State, max: nat, step: Step)
    requires Inv(s, max) && step.CrashAndRecover? && Enabled(s, max, step) && t == Apply(s, max, step)
    ensures Inv(t, max)
  {
    hide HeadsOk, ChunksOk, SealsOk, Stored, Surviving, ReplayedHeads, Resolve, InChunk;
    CrashChunks(s, t, max, step);
    ReplayHeads(t.wal, t.last, t.catalog, max, t.chunks);
    ReplaySeals(t.wal, t.catalog, max, t.chunks);
    forall e | e in t.acked ensures e.num <= t.last && Stored(t.heads, t.chunks, t.catalog, max, e) {
      CrashStored(s, t, max, step, e);
      StoredBelow(t, max, e);
    }
  }

  /* Every run. */

  lemma StepKeeps(s: State, t: State, max: nat, step: Step)
    requires Inv(s, max) && Enabled(s, max, step) && t == Apply(s, max, step)
    ensures Inv(t, max)
  {
    hide Inv, Enabled, Apply;
    match step
    case CreateStream(l, id) => CreateStreamKeeps(s, t, max, l, id);
    case LogBatch(batch, roll) => LogBatchKeeps(s, t, max, batch, roll);
    case LogFailed(left, roll) => LogFailedKeeps(s, t, max, left, roll);
    case SyncFailed => SyncFailedKeeps(s, t, max);
    case Acknowledge => AcknowledgeKeeps(s, t, max);
    case WriteBlock(k, b) => WriteBlockKeeps(s, t, max, k, b);
    case Publish(k) => PublishKeeps(s, t, max, k);
    case LoseBlock(k) => LoseBlockKeeps(s, t, max, k);
    case RemoveSegment(seg) => RemoveSegmentKeeps(s, t, max, seg);
    case CrashAndRecover(_, _, _, _) => CrashKeeps(s, t, max, step);
  }

  lemma {:induction false} RunKeeps(run: seq<State>, steps: seq<Step>, max: nat, i: nat)
    requires IsRun(run, steps, max) && i < |run|
    ensures Inv(run[i], max)
  {
    hide Enabled, Apply;
    if i > 0 {
      RunKeeps(run, steps, max, i - 1);
      StepKeeps(run[i - 1], run[i], max, steps[i - 1]);
    }
  }

  // A place an entry can be: a position in a head, or in a block of a chunk.
  datatype Place = InHead(stream: nat, at: nat) | InBlock(key: ChunkKey, block: nat, at: nat)

  ghost predicate Holds(s: State, p: Place, e: Entry) {
    match p
    case InHead(id, i) => i < |HeadOf(s.heads, id).entries| && HeadOf(s.heads, id).entries[i] == e
    case InBlock(k, b, i) =>
      b < |BlocksOf(s.chunks, k)| && i < |BlocksOf(s.chunks, k)[b]| && BlocksOf(s.chunks, k)[b][i] == e
  }

  // The stream and day a place belongs to are the entry's own.
  ghost predicate FiledAt(s: State, max: nat, p: Place, e: Entry) {
    && Resolve(s.catalog, max, e.log.labels) == Some(if p.InHead? then p.stream else p.key.stream)
    && (p.InBlock? ==> p.key.day == DayOf(e.log.ts))
  }

  lemma HeldFiled(s: State, max: nat, p: Place, e: Entry)
    requires Inv(s, max) && Holds(s, p, e)
    ensures FiledAt(s, max, p, e)
  {
    if p.InHead? {
      HeadEntry(s, max, p.stream, e);
    } else {
      assert InChunk(s.chunks, p.key, p.block, e);
    }
  }

  lemma StoredHeld(s: State, max: nat, e: Entry) returns (p: Place)
    requires Stored(s.heads, s.chunks, s.catalog, max, e)
    ensures Holds(s, p, e)
  {
    var id := Resolve(s.catalog, max, e.log.labels).value;
    if e in HeadOf(s.heads, id).entries {
      var i :| 0 <= i < |HeadOf(s.heads, id).entries| && HeadOf(s.heads, id).entries[i] == e;
      p := InHead(id, i);
    } else {
      var b: nat :| InChunk(s.chunks, KeyOf(id, e), b, e);
      var i :| 0 <= i < |BlocksOf(s.chunks, KeyOf(id, e))[b]| && BlocksOf(s.chunks, KeyOf(id, e))[b][i] == e;
      p := InBlock(KeyOf(id, e), b, i);
    }
  }

  // The store's guarantee. In every state of every run, whatever failed and wherever it crashed, each
  // acknowledged log is held, unchanged; and everything held is in its own stream's head or in a block
  // of its own stream and day.
  lemma NeverLost(run: seq<State>, steps: seq<Step>, max: nat, i: nat)
    requires IsRun(run, steps, max) && i < |run|
    ensures var s := run[i];
            && (forall e :: e in s.acked ==> exists p :: Holds(s, p, e))
            && (forall p, e :: Holds(s, p, e) ==> FiledAt(s, max, p, e))
  {
    var s := run[i];
    RunKeeps(run, steps, max, i);
    forall e | e in s.acked ensures exists p :: Holds(s, p, e) {
      var p := StoredHeld(s, max, e);
    }
    hide Inv, Holds;
    forall p, e | Holds(s, p, e) ensures FiledAt(s, max, p, e) { HeldFiled(s, max, p, e); }
  }

  // What was acknowledged stays acknowledged through every later step.
  lemma {:induction false} NeverForgotten(run: seq<State>, steps: seq<Step>, max: nat, i: nat, j: nat)
    requires IsRun(run, steps, max) && i <= j < |run|
    ensures run[i].acked <= run[j].acked
  {
    hide Enabled, Apply;
    if i < j {
      NeverForgotten(run, steps, max, i, j - 1);
      AckedGrows(run[j - 1], run[j], max, steps[j - 1]);
    }
  }

  lemma AckedGrows(s: State, t: State, max: nat, step: Step)
    requires Enabled(s, max, step) && t == Apply(s, max, step)
    ensures s.acked <= t.acked
  {
    hide Enabled;
  }
}
