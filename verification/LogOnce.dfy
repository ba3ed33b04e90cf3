/**
 Held once, and no more. As long as records are only added where the next number
 is free, no number is in the WAL twice and nothing the store holds is held
 twice; the first part is exact. A failed wal.Log that leaves a record behind
 takes that away until a recovery, and a run shows what is then held twice.
 */
module LogOnce {
  import opened Options
  import opened LogState
  import opened LogDurability

  /* The invariant, part by part. */

  ghost predicate WalAscends(wal: seq<WalEntry>) {
    forall i, j :: 0 <= i < j < |wal| ==> wal[i].e.num < wal[j].e.num
  }

  ghost predicate Ascending(es: seq<Entry>) {
    forall i, j :: 0 <= i < j < |es| ==> es[i].num < es[j].num
  }

  ghost predicate HeadsAscend(heads: map<nat, Head>) {
    forall id :: Ascending(HeadOf(heads, id).entries)
  }

  // Within a chunk no number repeats, and a later block holds later numbers.
  ghost predicate BlocksOk(chunks: Chunks) {
    forall k :: InOrder(BlocksOf(chunks, k))
  }

  ghost predicate InOrder(bs: seq<Block>) {
    && (forall b :: 0 <= b < |bs| ==> Distinct(bs[b]))
    && (forall b, c, e, f :: 0 <= b < c < |bs| && e in bs[b] && f in bs[c] ==> e.num < f.num)
  }

  ghost predicate LimboDistinct(limbo: map<ChunkKey, Block>) {
    forall k :: k in limbo ==> Distinct(limbo[k])
  }

  // One number, one log: in the WAL and in the blocks.
  ghost predicate NumberingOk(named: set<Entry>, wal: seq<WalEntry>, chunks: Chunks) {
    && (forall e, f :: e in named && f in named && e.num == f.num ==> e == f)
    && (forall x :: x in wal ==> x.e in named)
    && (forall k, b: nat, e :: InChunk(chunks, k, b, e) ==> e in named)
  }

  // Records above the counter come from one failed wal.Log: they share a segment and start at the next number.
  ghost predicate StraysOk(wal: seq<WalEntry>, last: nat) {
    && (forall x, y :: x in wal && y in wal && x.e.num > last && y.e.num > last ==> x.seg == y.seg)
    && (forall x :: x in wal && x.e.num > last ==> exists y :: y in wal && y.e.num == last + 1)
  }

  ghost predicate Once(s: State) {
    && WalAscends(s.wal)
    && HeadsAscend(s.heads)
    && BlocksOk(s.chunks)
    && LimboDistinct(s.limbo)
    && NumberingOk(s.named, s.wal, s.chunks)
    && StraysOk(s.wal, s.last)
  }

  /* Logging a batch. */

  lemma WalAscendsStill(wal: seq<WalEntry>, last: nat, batch: seq<Log>, seg: nat)
    requires WalAscends(wal) && forall x :: x in wal ==> x.e.num <= last
    ensures WalAscends(wal + WalEntries(last + 1, batch, seg))
  {
    assert forall i :: 0 <= i < |wal| ==> wal[i] in wal;
  }

  lemma NamesGrow(named: set<Entry>, wal: seq<WalEntry>, chunks: Chunks, last: nat, batch: seq<Log>, seg: nat)
    requires NumberingOk(named, wal, chunks)
    requires forall x :: x in wal ==> x.e.num <= last
    requires forall k, b: nat, e :: InChunk(chunks, k, b, e) ==> e.num <= last
    ensures NumberingOk(Spent(named, last) + Numbered(last + 1, batch), wal + WalEntries(last + 1, batch, seg), chunks)
  {
    hide InChunk;
  }

  // Records added after numbers up to `last`: all of them above it, or none if the counter moves past them.
  lemma StraysAre(wal: seq<WalEntry>, last: nat, batch: seq<Log>, seg: nat)
    requires forall x :: x in wal ==> x.e.num <= last
    ensures StraysOk(wal + WalEntries(last + 1, batch, seg), last)
    ensures StraysOk(wal + WalEntries(last + 1, batch, seg), last + |batch|)
  {
    var more := WalEntries(last + 1, batch, seg);
    forall x | x in wal + more && x.e.num > last
      ensures x in more && exists y :: y in wal + more && y.e.num == last + 1
    {
      assert x in wal || x in more;
      assert more[0] in wal + more;
    }
  }

  lemma LogOnceKeeps(s: State, t: State, max: nat, batch: seq<Log>, seg: nat)
    requires Inv(s, max) && Once(s) && NextIsFree(s)
    requires t.wal == s.wal + WalEntries(s.last + 1, batch, seg)
    requires t.named == Spent(s.named, s.last) + Numbered(s.last + 1, batch)
    requires t.heads == s.heads && t.chunks == s.chunks && t.limbo == s.limbo
    requires t.last == s.last || t.last == s.last + |batch|
    ensures Once(t)
  {
    hide WalOk, DurableOk, HeadsOk, SealsOk, LimboOk, AckedOk, PendingOk, WalAscends, HeadsAscend, BlocksOk,
         LimboDistinct, NumberingOk, StraysOk, WalEntries, Spent, Numbered, Resolve, InChunk;
    WalAscendsStill(s.wal, s.last, batch, seg);
    NamesGrow(s.named, s.wal, s.chunks, s.last, batch, seg);
    StraysAre(s.wal, s.last, batch, seg);
  }

  /* Acknowledging a batch. */

  lemma {:induction false} ShareAscends(catalog: Catalog, max: nat, batch: seq<Log>, base: nat, id: nat)
    ensures Ascending(Share(catalog, max, batch, base, id))
  {
    if batch != [] {
      hide Resolve;
      var n := |batch| - 1;
      var before := Share(catalog, max, batch[..n], base, id);
      ShareAscends(catalog, max, batch[..n], base, id);
      forall i | 0 <= i < |before| ensures before[i].num < base + n {
        ShareFrom(catalog, max, batch[..n], base, id, before[i]);
      }
    }
  }

  lemma AscendingJoin(es: seq<Entry>, fs: seq<Entry>, base: nat)
    requires Ascending(es) && Ascending(fs)
    requires (forall e :: e in es ==> e.num < base) && (forall f :: f in fs ==> base <= f.num)
    ensures Ascending(es + fs)
  {
    forall i, j | 0 <= i < |es| && 0 <= j < |fs| ensures es[i].num < fs[j].num {
      assert es[i] in es && fs[j] in fs;
    }
  }

  lemma AcknowledgeHeadAscends(s: State, t: State, max: nat, id: nat)
    requires s.pending.Some? && PendingOk(s.pending.value, s.wal, s.cur, s.last, s.heads, s.chunks, s.acked)
    requires Ascending(HeadOf(s.heads, id).entries)
    requires Enabled(s, max, Acknowledge) && t == Apply(s, max, Acknowledge)
    ensures Ascending(HeadOf(t.heads, id).entries)
  {
    hide InChunk, Numbered, AddAll, Resolve, Synced, EndsWith, Share, Ascending;
    var p := s.pending.value;
    AddAllHead(s.heads, s.catalog, max, p.batch, p.base, p.seg, id);
    ShareIs(s.catalog, max, p.batch, p.base, id);
    ShareAscends(s.catalog, max, p.batch, p.base, id);
    AscendingJoin(HeadOf(s.heads, id).entries, Share(s.catalog, max, p.batch, p.base, id), p.base);
  }

  lemma SyncedOnce(wal: seq<WalEntry>, last: nat, named: set<Entry>, chunks: Chunks)
    requires WalAscends(wal) && NumberingOk(named, wal, chunks) && StraysOk(wal, last)
    ensures WalAscends(Synced(wal)) && NumberingOk(named, Synced(wal), chunks) && StraysOk(Synced(wal), last)
  {
    hide InChunk;
    forall y | y in Synced(wal) ensures exists x :: x in wal && x.e == y.e && x.seg == y.seg {
      var x := SyncedFrom(wal, y);
    }
    forall y | y in Synced(wal) && y.e.num > last ensures exists z :: z in Synced(wal) && z.e.num == last + 1 {
      var x :| x in wal && x.e == y.e;
      var z :| z in wal && z.e.num == last + 1;
      SyncedHolds(wal, z);
    }
  }

  lemma AcknowledgeOnce(s: State, t: State, max: nat)
    requires Inv(s, max) && Once(s) && Enabled(s, max, Acknowledge) && t == Apply(s, max, Acknowledge)
    ensures Once(t)
  {
    hide WalOk, DurableOk, HeadsOk, ChunksOk, SealsOk, LimboOk, AckedOk, PendingOk, WalAscends, Ascending, BlocksOk,
         LimboDistinct, NumberingOk, StraysOk, AddAll, Synced, Numbered;
    SyncedOnce(s.wal, s.last, s.named, s.chunks);
    forall id: nat ensures Ascending(HeadOf(t.heads, id).entries) { AcknowledgeHeadAscends(s, t, max, id); }
  }

  /* Sealing a day. */

  lemma {:induction false} CountAscending(es: seq<Entry>, e: Entry)
    requires Ascending(es)
    ensures multiset(es)[e] <= 1
  {
    if es != [] {
      var n := |es| - 1;
      CountAscending(es[..n], e);
      assert es == es[..n] + [es[n]];
      assert es[n] !in es[..n];
    }
  }

  lemma CountTwice(b: seq<Entry>, i: nat, j: nat)
    requires i < j < |b| && b[i] == b[j]
    ensures multiset(b)[b[i]] >= 2
  {
    assert b == b[..j] + [b[j]] + b[j + 1..];
    assert b[i] in b[..j];
  }

  lemma DayGroupDistinct(b: Block, es: seq<Entry>, day: int)
    requires IsDayGroup(b, es, day) && Ascending(es)
    ensures Distinct(b)
  {
    hide DayOf;
    DayGroupIs(b, es, day);
    forall i, j | 0 <= i < j < |b| ensures b[i].num != b[j].num {
      CountAscending(es, b[i]);
      if b[i] == b[j] {
        CountTwice(b, i, j);
      }
      assert b[i] in es && b[j] in es;
    }
  }

  lemma {:induction false} RestAscends(es: seq<Entry>, day: int)
    requires Ascending(es)
    ensures Ascending(Rest(es, day))
  {
    if es != [] {
      RestAscends(es[..|es| - 1], day);
    }
  }

  // A block of head entries is later than everything in its chunk.
  lemma LaterBlock(chunks: Chunks, k: ChunkKey, block: Block, heads: map<nat, Head>)
    requires InOrder(BlocksOf(chunks, k)) && SealsOk(heads, chunks) && Distinct(block)
    requires forall e :: e in block ==> e in HeadOf(heads, k.stream).entries && DayOf(e.log.ts) == k.day
    ensures InOrder(BlocksOf(chunks, k) + [block])
  {
    hide HeadOf, DayOf, Distinct;
    var bs := BlocksOf(chunks, k);
    forall b, e: Entry, f: Entry | 0 <= b < |bs| && e in bs[b] && f in block ensures e.num < f.num {
      assert InChunk(chunks, KeyOf(k.stream, f), b, e);
    }
  }

  lemma PublishBlocks(s: State, t: State, max: nat, k: ChunkKey)
    requires BlocksOk(s.chunks) && SealsOk(s.heads, s.chunks) && LimboDistinct(s.limbo)
    requires Enabled(s, max, Publish(k)) && t == Apply(s, max, Publish(k))
    ensures BlocksOk(t.chunks)
  {
    hide SealsOk, InOrder, Rest, Distinct, IsDayGroup;
    DayGroupIs(s.limbo[k], HeadOf(s.heads, k.stream).entries, k.day);
    assert InOrder(BlocksOf(s.chunks, k));
    LaterBlock(s.chunks, k, s.limbo[k], s.heads);
    forall l ensures InOrder(BlocksOf(t.chunks, l)) {
      assert InOrder(BlocksOf(s.chunks, l));
      assert BlocksOf(t.chunks, l) == if l == k then BlocksOf(s.chunks, k) + [s.limbo[k]] else BlocksOf(s.chunks, l);
    }
  }

  // What the heads hold is in the WAL, so it is named; so is what a block is made of.
  lemma HeadNamed(s: State, max: nat, id: nat, e: Entry)
    requires NumberingOk(s.named, s.wal, s.chunks) && HeadsOk(s.heads, s.last, s.wal, s.catalog, max)
    requires e in HeadOf(s.heads, id).entries
    ensures e in s.named
  {
    hide HeadsOk, HeadOf;
    HeadEntry(s, max, id, e);
  }

  lemma PublishNames(s: State, t: State, max: nat, k: ChunkKey)
    requires NumberingOk(s.named, s.wal, s.chunks) && HeadsOk(s.heads, s.last, s.wal, s.catalog, max)
    requires Enabled(s, max, Publish(k)) && t == Apply(s, max, Publish(k))
    ensures NumberingOk(t.named, t.wal, t.chunks)
  {
    hide InChunk, HeadOf, Rest, HeadsOk, IsDayGroup;
    PublishedBlocks(s, t, max, k);
    forall l, b: nat, e | InChunk(t.chunks, l, b, e) ensures e in s.named {
      if !InChunk(s.chunks, l, b, e) {
        HeadNamed(s, max, k.stream, e);
      }
    }
  }

  lemma PublishHeadsAscend(s: State, t: State, max: nat, k: ChunkKey)
    requires HeadsAscend(s.heads) && Enabled(s, max, Publish(k)) && t == Apply(s, max, Publish(k))
    ensures HeadsAscend(t.heads)
  {
    forall id: nat ensures Ascending(HeadOf(t.heads, id).entries) {
      PublishedHead(s, t, max, k, id);
      RestAscends(HeadOf(s.heads, id).entries, k.day);
    }
  }

  lemma PublishOnce(s: State, t: State, max: nat, k: ChunkKey)
    requires Inv(s, max) && Once(s) && Enabled(s, max, Publish(k)) && t == Apply(s, max, Publish(k))
    ensures Once(t)
  {
    hide WalOk, DurableOk, HeadsOk, ChunksOk, SealsOk, LimboOk, AckedOk, WalAscends, HeadsAscend, BlocksOk,
         NumberingOk, StraysOk, IsDayGroup, Rest;
    PublishHeadsAscend(s, t, max, k);
    PublishBlocks(s, t, max, k);
    PublishNames(s, t, max, k);
  }

  lemma WriteBlockOnce(s: State, t: State, max: nat, k: ChunkKey, b: Block)
    requires Once(s) && Enabled(s, max, WriteBlock(k, b)) && t == Apply(s, max, WriteBlock(k, b))
    ensures Once(t)
  {
    hide WalAscends, Ascending, BlocksOk, NumberingOk, StraysOk, IsDayGroup, Distinct;
    DayGroupDistinct(b, HeadOf(s.heads, k.stream).entries, k.day);
  }

  /* Truncating the WAL. */

  lemma {:induction false} DropAscends(wal: seq<WalEntry>, seg: nat)
    requires WalAscends(wal)
    ensures WalAscends(DropSegment(wal, seg))
  {
    if wal != [] {
      var n := |wal| - 1;
      DropAscends(wal[..n], seg);
      var r, kept := DropSegment(wal, seg), DropSegment(wal[..n], seg);
      forall i | 0 <= i < |kept| ensures kept[i].e.num < wal[n].e.num {
        assert kept[i] in wal[..n];
      }
      assert r == kept || r == kept + [wal[n]];
    }
  }

  // Removing a segment removes every stray record or none.
  lemma DropStrays(wal: seq<WalEntry>, last: nat, seg: nat)
    requires StraysOk(wal, last)
    ensures StraysOk(DropSegment(wal, seg), last)
  {
    hide DropSegment;
    var after := DropSegment(wal, seg);
    forall x | x in after && x.e.num > last ensures exists y :: y in after && y.e.num == last + 1 {
      var y :| y in wal && y.e.num == last + 1;
      assert y.seg == x.seg;
    }
  }

  lemma RemoveSegmentOnce(s: State, t: State, max: nat, seg: nat)
    requires Once(s) && Enabled(s, max, RemoveSegment(seg)) && t == Apply(s, max, RemoveSegment(seg))
    ensures Once(t)
  {
    hide WalAscends, HeadsAscend, BlocksOk, LimboDistinct, StraysOk, InChunk, SafeToRemove;
    DropAscends(s.wal, seg);
    DropStrays(s.wal, s.last, seg);
  }

  /* Crashing and recovering. */

  lemma CrashBlocks(s: State, kept: set<ChunkKey>)
    requires BlocksOk(s.chunks) && SealsOk(s.heads, s.chunks) && LimboOk(s.limbo, s.heads) && LimboDistinct(s.limbo)
    ensures BlocksOk(Surviving(s.chunks, s.limbo, kept))
  {
    hide SealsOk, InOrder, Distinct, HeadOf;
    var after := Surviving(s.chunks, s.limbo, kept);
    forall k: ChunkKey ensures InOrder(BlocksOf(after, k)) {
      assert InOrder(BlocksOf(s.chunks, k));
      if k in s.limbo && k in kept {
        assert InLimboOk(s.limbo[k], HeadOf(s.heads, k.stream).entries, k.day);
        LaterBlock(s.chunks, k, s.limbo[k], s.heads);
      }
    }
  }

  lemma {:induction false} UnsealedAscends(wal: seq<WalEntry>, catalog: Catalog, max: nat, chunks: Chunks, id: nat)
    requires WalAscends(wal)
    ensures WalAscends(Unsealed(wal, catalog, max, chunks, id))
  {
    if wal != [] {
      var n := |wal| - 1;
      UnsealedAscends(wal[..n], catalog, max, chunks, id);
      var r, kept := Unsealed(wal, catalog, max, chunks, id), Unsealed(wal[..n], catalog, max, chunks, id);
      forall i | 0 <= i < |kept| ensures kept[i].e.num < wal[n].e.num {
        assert kept[i] in wal[..n];
      }
      assert r == kept || r == kept + [wal[n]];
    }
  }

  lemma ReplayAscends(wal: seq<WalEntry>, catalog: Catalog, max: nat, chunks: Chunks)
    requires WalAscends(wal)
    ensures HeadsAscend(ReplayedHeads(wal, catalog, max, chunks))
  {
    hide Resolve, Unsealed;
    forall id: nat ensures Ascending(HeadOf(ReplayedHeads(wal, catalog, max, chunks), id).entries) {
      UnsealedAscends(wal, catalog, max, chunks, id);
    }
  }

  lemma CrashNames(s: State, t: State, max: nat, step: Step)
    requires NumberingOk(s.named, s.wal, s.chunks) && HeadsOk(s.heads, s.last, s.wal, s.catalog, max)
    requires LimboOk(s.limbo, s.heads)
    requires step.CrashAndRecover? && Enabled(s, max, step) && t == Apply(s, max, step)
    ensures NumberingOk(t.named, t.wal, t.chunks)
  {
    hide InChunk, HeadOf, HeadsOk, DayOf, Surviving, ReplayedHeads, IsLastSeq;
    forall k, b: nat, e | InChunk(t.chunks, k, b, e) ensures e in s.named {
      SurvivingBlocks(s.chunks, s.limbo, step.blocks, k, b, e);
      if !InChunk(s.chunks, k, b, e) {
        assert InLimboOk(s.limbo[k], HeadOf(s.heads, k.stream).entries, k.day);
        HeadNamed(s, max, k.stream, e);
      }
    }
  }

  lemma CrashOnce(s: State, t: State, max: nat, step: Step)
    requires Inv(s, max) && Once(s) && step.CrashAndRecover? && Enabled(s, max, step) && t == Apply(s, max, step)
    ensures Once(t)
  {
    hide WalOk, DurableOk, HeadsOk, ChunksOk, SealsOk, LimboOk, AckedOk, PendingOk, HeadsAscend, BlocksOk,
         NumberingOk, Surviving, ReplayedHeads;
    CrashBlocks(s, step.blocks);
    CrashNames(s, t, max, step);
    ReplayAscends(t.wal, t.catalog, max, t.chunks);
  }

  /* Every run. */

  lemma StepOnce(s: State, t: State, max: nat, step: Step)
    requires Inv(s, max) && Once(s) && Enabled(s, max, step) && t == Apply(s, max, step)
    requires Records(step) ==> NextIsFree(s)
    ensures Once(t)
  {
    hide Inv, Once, AllFiled, IsDayGroup, SafeToRemove, CanCrash;
    match step
    case LogBatch(batch, _) => LogOnceKeeps(s, t, max, batch, t.cur);
    case LogFailed(left, _) =>
      if left == [] {
        assert t.wal == s.wal;
        SameOnce(s, t);
      } else {
        LogOnceKeeps(s, t, max, left, t.cur);
      }
    case Acknowledge => AcknowledgeOnce(s, t, max);
    case WriteBlock(k, b) => WriteBlockOnce(s, t, max, k, b);
    case Publish(k) => PublishOnce(s, t, max, k);
    case LoseBlock(k) => LoseBlockOnce(s, t, k);
    case RemoveSegment(seg) => RemoveSegmentOnce(s, t, max, seg);
    case CrashAndRecover(_, _, _, _) => CrashOnce(s, t, max, step);
    case CreateStream(_, _) => SameOnce(s, t);
    case SyncFailed => SameOnce(s, t);
  }

  lemma SameOnce(s: State, t: State)
    requires Once(s) && t == s.(catalog := t.catalog, cur := t.cur, pending := t.pending)
    ensures Once(t)
  {
  }

  lemma LoseBlockOnce(s: State, t: State, k: ChunkKey)
    requires Once(s) && t == s.(limbo := s.limbo - {k})
    ensures Once(t)
  {
    hide WalAscends, HeadsAscend, BlocksOk, NumberingOk, StraysOk;
  }

  lemma {:induction false} RunOnce(run: seq<State>, steps: seq<Step>, max: nat, i: nat)
    requires IsRun(run, steps, max) && i < |run| && NumbersFree(run, steps, i)
    ensures Once(run[i])
  {
    hide Enabled, Apply;
    if i > 0 {
      RunOnce(run, steps, max, i - 1);
      RunKeeps(run, steps, max, i - 1);
      hide Inv, Once, NextIsFree;
      StepOnce(run[i - 1], run[i], max, steps[i - 1]);
    }
  }

  // No two records of the WAL have the same number.
  ghost predicate Unique(wal: seq<WalEntry>) {
    forall i, j :: 0 <= i < j < |wal| ==> wal[i].e.num != wal[j].e.num
  }

  // Adding records while one lies above the counter puts the next number into the WAL twice.
  lemma NotFreeTwice(s: State, t: State, max: nat, step: Step)
    requires StraysOk(s.wal, s.last) && !NextIsFree(s)
    requires Records(step) && Enabled(s, max, step) && t == Apply(s, max, step)
    ensures !Unique(t.wal)
  {
    var x :| x in s.wal && x.e.num > s.last;
    var y :| y in s.wal && y.e.num == s.last + 1;
    var i :| 0 <= i < |s.wal| && s.wal[i] == y;
    assert t.wal[i] == y && t.wal[|s.wal|].e.num == s.last + 1;
  }

  // Numbers stay unique in the WAL throughout a run exactly when records are only added where the next number is free.
  lemma {:induction false} UniqueIff(run: seq<State>, steps: seq<Step>, max: nat, n: nat)
    requires IsRun(run, steps, max) && n <= |steps|
    ensures (forall i :: 0 <= i <= n ==> Unique(run[i].wal)) <==> NumbersFree(run, steps, n)
  {
    hide Enabled, Apply, NextIsFree, Unique;
    if n > 0 {
      UniqueIff(run, steps, max, n - 1);
      if NumbersFree(run, steps, n - 1) && Records(steps[n - 1]) && !NextIsFree(run[n - 1]) {
        RunOnce(run, steps, max, n - 1);
        NotFreeTwice(run[n - 1], run[n], max, steps[n - 1]);
      }
    }
    if NumbersFree(run, steps, n) {
      forall i | 0 <= i <= n ensures Unique(run[i].wal) {
        RunOnce(run, steps, max, i);
        AscendsUnique(run[i].wal);
      }
    }
  }

  lemma AscendsUnique(wal: seq<WalEntry>)
    requires WalAscends(wal)
    ensures Unique(wal)
  {
  }

  lemma HeldNamed(s: State, max: nat, p: Place, e: Entry)
    requires Inv(s, max) && Once(s) && Holds(s, p, e)
    ensures e in s.named && FiledAt(s, max, p, e)
  {
    HeldFiled(s, max, p, e);
    if p.InHead? {
      HeadNamed(s, max, p.stream, e);
    } else {
      assert InChunk(s.chunks, p.key, p.block, e);
    }
  }

  // No log is in a head and in a block.
  lemma HeadNotSealed(s: State, id: nat, e: Entry, b: nat)
    requires SealsOk(s.heads, s.chunks) && e in HeadOf(s.heads, id).entries
    ensures !InChunk(s.chunks, KeyOf(id, e), b, e)
  {
  }

  lemma HeldOnce(s: State, max: nat, p: Place, e: Entry, r: Place, f: Entry)
    requires Inv(s, max) && Once(s) && Holds(s, p, e) && Holds(s, r, f) && e.num == f.num
    ensures p == r && e == f && FiledAt(s, max, p, e)
  {
    hide Resolve, DayOf, AckedOk, LimboOk, HeadOf;
    HeldNamed(s, max, p, e);
    HeldNamed(s, max, r, f);
    if p.InBlock? && r.InBlock? {
      assert InChunk(s.chunks, p.key, p.block, e) && InChunk(s.chunks, r.key, r.block, f);
    } else if p.InHead? && r.InHead? {
      assert Ascending(HeadOf(s.heads, p.stream).entries);
    } else {
      var h, b := if p.InHead? then p else r, if p.InHead? then r else p;
      assert e in HeadOf(s.heads, h.stream).entries;
      HeadNotSealed(s, h.stream, e, b.block);
    }
  }

  // Held once: where numbers were free so far, nothing the store holds is held in two places or under
  // another log's number. With NeverLost, every acknowledged log is in exactly one place.
  lemma ExactlyOnce(run: seq<State>, steps: seq<Step>, max: nat, i: nat)
    requires IsRun(run, steps, max) && i < |run| && NumbersFree(run, steps, i)
    ensures var s := run[i];
            && (forall e :: e in s.acked ==> exists p :: Holds(s, p, e) && FiledAt(s, max, p, e))
            && (forall p, e, r, f :: Holds(s, p, e) && Holds(s, r, f) && e.num == f.num ==> p == r && e == f)
  {
    var s := run[i];
    NeverLost(run, steps, max, i);
    RunKeeps(run, steps, max, i);
    RunOnce(run, steps, max, i);
    hide Inv, Once, Holds;
    forall p, e, r, f | Holds(s, p, e) && Holds(s, r, f) && e.num == f.num ensures p == r && e == f {
      HeldOnce(s, max, p, e, r, f);
    }
  }

  /* Where it fails. */

  // A failed wal.Log that leaves its record, the same log sent again and acknowledged, a crash: for any
  // log, a run of five steps in which the store holds it twice.
  lemma HeldTwice(l: Log, max: nat) returns (run: seq<State>, steps: seq<Step>)
    ensures steps == [CreateStream(l.labels, 0), LogFailed([l], false), LogBatch([l], false), Acknowledge,
              CrashAndRecover(2, {}, 0, 1)]
    ensures IsRun(run, steps, max) && !NextIsFree(run[2])
    ensures var s := run[5];
              Entry(1, l) in s.acked && Holds(s, InHead(0, 0), Entry(1, l)) && Holds(s, InHead(0, 1), Entry(1, l))
  {
    hide Enabled, Apply, Holds, NextIsFree, IsRun, Resolve;
    steps := [CreateStream(l.labels, 0), LogFailed([l], false), LogBatch([l], false), Acknowledge,
        CrashAndRecover(2, {}, 0, 1)];
    var e := Entry(1, l);
    var one := Created(l, max);
    var two, three := LoggedTwice(one, l, max);
    var four := Acknowledged(three, l, max);
    var five := ReplayedTwice(four, e, max);
    run := [EMPTY, one, two, three, four, five];
    FiveSteps(run, steps, max);
    HeldBoth(five, e);
  }

  lemma HeldBoth(s: State, e: Entry)
    requires HeadOf(s.heads, 0).entries == [e, e]
    ensures Holds(s, InHead(0, 0), e) && Holds(s, InHead(0, 1), e)
  {
  }

  lemma FiveSteps(run: seq<State>, steps: seq<Step>, max: nat)
    requires |run| == 6 && |steps| == 5 && run[0] == EMPTY
    requires Enabled(run[0], max, steps[0]) && run[1] == Apply(run[0], max, steps[0])
    requires Enabled(run[1], max, steps[1]) && run[2] == Apply(run[1], max, steps[1])
    requires Enabled(run[2], max, steps[2]) && run[3] == Apply(run[2], max, steps[2])
    requires Enabled(run[3], max, steps[3]) && run[4] == Apply(run[3], max, steps[3])
    requires Enabled(run[4], max, steps[4]) && run[5] == Apply(run[4], max, steps[4])
    ensures IsRun(run, steps, max)
  {
    hide Enabled, Apply;
    forall i | 0 <= i < 5 ensures Enabled(run[i], max, steps[i]) && run[i + 1] == Apply(run[i], max, steps[i]) {
      assert i == 0 || i == 1 || i == 2 || i == 3 || i == 4;
    }
  }

  lemma Created(l: Log, max: nat) returns (t: State)
    ensures Enabled(EMPTY, max, CreateStream(l.labels, 0)) && t == Apply(EMPTY, max, CreateStream(l.labels, 0))
    ensures t == EMPTY.(catalog := t.catalog) && Resolve(t.catalog, max, l.labels) == Some(0)
  {
    t := Apply(EMPTY, max, CreateStream(l.labels, 0));
  }

  lemma LoggedTwice(s: State, l: Log, max: nat) returns (t: State, u: State)
    requires s == EMPTY.(catalog := s.catalog) && Resolve(s.catalog, max, l.labels) == Some(0)
    ensures Enabled(s, max, LogFailed([l], false)) && t == Apply(s, max, LogFailed([l], false))
    ensures Enabled(t, max, LogBatch([l], false)) && u == Apply(t, max, LogBatch([l], false))
    ensures !NextIsFree(t) && u.catalog == s.catalog && u.chunks == map[] && u.limbo == map[]
    ensures u.pending == Some(Pending(1, [l], 0))
    ensures u.wal == [WalEntry(0, Entry(1, l), false), WalEntry(0, Entry(1, l), false)]
  {
    hide Resolve, Numbered, Spent;
    t := Apply(s, max, LogFailed([l], false));
    assert t.wal == [WalEntry(0, Entry(1, l), false)];
    assert t.wal[0] in t.wal;
    u := Apply(t, max, LogBatch([l], false));
  }

  lemma Acknowledged(s: State, l: Log, max: nat) returns (t: State)
    requires s.pending == Some(Pending(1, [l], 0)) && Resolve(s.catalog, max, l.labels) == Some(0)
    requires s.wal == [WalEntry(0, Entry(1, l), false), WalEntry(0, Entry(1, l), false)]
    ensures Enabled(s, max, Acknowledge) && t == Apply(s, max, Acknowledge)
    ensures t.catalog == s.catalog && t.chunks == s.chunks && t.limbo == s.limbo && Entry(1, l) in t.acked
    ensures t.wal == [WalEntry(0, Entry(1, l), true), WalEntry(0, Entry(1, l), true)]
  {
    hide Resolve, AddAll;
    t := Apply(s, max, Acknowledge);
    assert Entry(1 + 0, [l][0]) in Numbered(1, [l]);
  }

  lemma ReplayedTwice(s: State, e: Entry, max: nat) returns (t: State)
    requires Resolve(s.catalog, max, e.log.labels) == Some(0) && s.chunks == map[] && s.limbo == map[] && e.num == 1
    requires s.wal == [WalEntry(0, e, true), WalEntry(0, e, true)]
    ensures Enabled(s, max, CrashAndRecover(2, {}, 0, 1)) && t == Apply(s, max, CrashAndRecover(2, {}, 0, 1))
    ensures t.acked == s.acked && HeadOf(t.heads, 0).entries == [e, e]
  {
    hide Resolve;
    assert s.wal[..2] == s.wal && s.wal[0] in s.wal;
    assert Surviving(s.chunks, s.limbo, {}) == map[];
    t := Apply(s, max, CrashAndRecover(2, {}, 0, 1));
    UnsealedTwice(s.wal, s.catalog, max, e);
  }

  lemma UnsealedTwice(wal: seq<WalEntry>, catalog: Catalog, max: nat, e: Entry)
    requires |wal| == 2 && wal[0].e == e && wal[1].e == e && e.num == 1
    requires Resolve(catalog, max, e.log.labels) == Some(0)
    ensures HeadOf(ReplayedHeads(wal, catalog, max, map[]), 0).entries == [e, e]
  {
    assert 0 in catalog.Values;
    hide Resolve;
    assert SealedTo(BlocksOf(map[], KeyOf(0, e))) == 0;
    assert wal[..1] == [wal[0]];
    assert Unsealed([], catalog, max, map[], 0) == [];
    assert Unsealed([wal[0]], catalog, max, map[], 0) == [wal[0]];
    assert Unsealed(wal, catalog, max, map[], 0) == wal;
  }
}
