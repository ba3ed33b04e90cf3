/**
 The log store object (internal/logstore/store.go). Its methods update the
 fields step by step as the source does; a ghost history records every state the
 object passes through, and each method is proved to move only along the steps
 of LogState. A crash may be placed at any recorded state.
 */
module LogStore {
  import opened Options
  import opened LogState
  import opened LogDurability

  // How one block write went: done; failed and cut back; written but the fsync failed.
  datatype BlockIo = Done | WriteFailed | FsyncFailed

  // How wal.Log and wal.Sync went: both good; Log failed after writing some records whole; Sync failed.
  datatype WalIo = Good | LogError(records: nat) | SyncError

  const MAX_WAL_RECORD := 8 * 1024 * 1024
  const MAX_VARINT := 10
  const ENTRY_OVERHEAD := 16

  // The store's total order on entries: timestamp, then sequence number.
  predicate Less(a: Entry, b: Entry) {
    a.log.ts < b.log.ts || (a.log.ts == b.log.ts && a.num < b.num)
  }

  ghost predicate InOrder(es: seq<Entry>) {
    forall i, j :: 0 <= i < j < |es| ==>
      es[i].log.ts < es[j].log.ts || (es[i].log.ts == es[j].log.ts && es[i].num <= es[j].num)
  }

  // Where a stable insertion puts e: after everything not above it.
  function Slot(e: Entry, es: seq<Entry>): (k: nat)
    requires InOrder(es)
    ensures k <= |es|
    ensures forall i :: 0 <= i < k ==> !Less(e, es[i])
    ensures forall i :: k <= i < |es| ==> Less(e, es[i])
  {
    if es == [] || !Less(e, es[|es| - 1]) then |es| else Slot(e, es[..|es| - 1])
  }

  function Insert(e: Entry, es: seq<Entry>): (r: seq<Entry>)
    requires InOrder(es)
    ensures InOrder(r)
  {
    var k := Slot(e, es);
    es[..k] + [e] + es[k..]
  }

  lemma InsertCount(e: Entry, es: seq<Entry>)
    requires InOrder(es)
    ensures multiset(Insert(e, es)) == multiset(es) + multiset{e}
  {
    hide InOrder, Less;
    var k := Slot(e, es);
    assert es == es[..k] + es[k..];
  }

  // sort.SliceStable with Less.
  function Sorted(es: seq<Entry>): (r: seq<Entry>)
    ensures InOrder(r)
  {
    if es == [] then [] else Insert(es[|es| - 1], Sorted(es[..|es| - 1]))
  }

  lemma {:induction false} SortedCount(es: seq<Entry>)
    ensures multiset(Sorted(es)) == multiset(es)
  {
    if es != [] {
      hide InOrder, Insert;
      var n := |es| - 1;
      SortedCount(es[..n]);
      InsertCount(es[n], Sorted(es[..n]));
      assert es == es[..n] + [es[n]];
    }
  }

  function HeadBytes(es: seq<Entry>): nat {
    if es == [] then 0 else HeadBytes(es[..|es| - 1]) + |es[|es| - 1].log.body| + ENTRY_OVERHEAD
  }

  ghost function Total(ns: seq<nat>): nat {
    if ns == [] then 0 else ns[0] + Total(ns[1..])
  }

  // What a head holds: over its entries, the body and sixteen bytes each.
  ghost function Held(es: seq<Entry>): nat {
    Total(seq(|es|, i requires 0 <= i < |es| => |es[i].log.body| + 16))
  }

  lemma {:induction false} TotalMore(ns: seq<nat>, n: nat)
    ensures Total(ns + [n]) == Total(ns) + n
  {
    if ns != [] {
      assert (ns + [n])[1..] == ns[1..] + [n];
      TotalMore(ns[1..], n);
    }
  }

  lemma {:induction false} HeadBytesHeld(es: seq<Entry>)
    ensures HeadBytes(es) == Held(es)
  {
    var sizes := (es: seq<Entry>) => seq(|es|, i requires 0 <= i < |es| => |es[i].log.body| + 16);
    if es != [] {
      var n := |es| - 1;
      HeadBytesHeld(es[..n]);
      TotalMore(sizes(es[..n]), |es[n].log.body| + 16);
      assert sizes(es) == sizes(es[..n]) + [|es[n].log.body| + 16];
    }
  }

  // How the block writes of each sealed stream go; one not named here goes well.
  type Writes = map<nat, seq<BlockIo>>

  function WritesOf(blocks: Writes, id: nat): seq<BlockIo> {
    if id in blocks then blocks[id] else []
  }

  ghost predicate AllGood(blocks: Writes, id: nat) {
    id in blocks ==> forall d :: d in blocks[id] ==> d == Done
  }

  // Every block there was not before is in order.
  ghost predicate NewInOrder(before: map<ChunkKey, seq<Block>>, after: map<ChunkKey, seq<Block>>) {
    forall k, b :: b in BlocksOf(after, k) ==> b in BlocksOf(before, k) || InOrder(b)
  }

  lemma OneMoreInOrder(before: map<ChunkKey, seq<Block>>, mid: map<ChunkKey, seq<Block>>, k: ChunkKey, b: Block)
    requires NewInOrder(before, mid) && InOrder(b)
    ensures NewInOrder(before, mid[k := BlocksOf(mid, k) + [b]])
  {
    hide InOrder;
  }

  lemma PartInOrder(es: seq<Entry>, from: nat, to: nat)
    requires InOrder(es) && from <= to <= |es|
    ensures InOrder(es[from..to])
  {
  }

  // Every head but id's is as it was.
  ghost predicate OthersKept(before: map<nat, Head>, after: map<nat, Head>, id: nat) {
    forall o :: o != id ==> HeadOf(after, o) == HeadOf(before, o)
  }

  // The streams named that hold limit or more are empty, if their writes went well; the rest are as they were.
  ghost predicate FullSealed(before: map<nat, Head>, after: map<nat, Head>, streams: seq<nat>, limit: nat,
                             blocks: Writes)
  {
    forall id ::
      if id in streams && Held(HeadOf(before, id).entries) >= limit
        then AllGood(blocks, id) ==> HeadOf(after, id).entries == []
        else HeadOf(after, id) == HeadOf(before, id)
  }

  // Every head has gained its stream's logs of the batch, in order and numbered from base, except that a stream of
  // the batch that now holds limit or more has been emptied, if its writes went well.
  ghost predicate FilledAndSealed(before: map<nat, Head>, after: map<nat, Head>, catalog: map<Labels, nat>, max: nat,
                                  batch: seq<Log>, base: nat, limit: nat, blocks: Writes)
  {
    forall id ::
      var share := Share(catalog, max, batch, base, id);
      var filled := HeadOf(before, id).entries + share;
      if share != [] && Held(filled) >= limit then AllGood(blocks, id) ==> HeadOf(after, id).entries == []
      else HeadOf(after, id).entries == filled
  }

  lemma SharedStreams(catalog: map<Labels, nat>, max: nat, batch: seq<Log>, base: nat, streams: seq<nat>, id: nat)
    requires FiledAs(catalog, max, batch, streams)
    ensures id in streams <==> Share(catalog, max, batch, base, id) != []
  {
    hide Resolve, Share;
    var share := Share(catalog, max, batch, base, id);
    ShareIs(catalog, max, batch, base, id);
    if id in streams {
      var i :| 0 <= i < |streams| && streams[i] == id;
      assert Entry(base + i, batch[i]) in share;
    }
    if share != [] {
      assert share[0] in share;
    }
  }

  lemma FillThenSeal(before: map<nat, Head>, filled: map<nat, Head>, after: map<nat, Head>, catalog: map<Labels, nat>,
                     max: nat, batch: seq<Log>, base: nat, seg: nat, streams: seq<nat>, limit: nat, blocks: Writes)
    requires FiledAs(catalog, max, batch, streams) && filled == AddAll(before, catalog, max, batch, base, seg)
    requires FullSealed(filled, after, streams, limit, blocks)
    ensures FilledAndSealed(before, after, catalog, max, batch, base, limit, blocks)
  {
    hide Resolve, Share, Held, AddAll, AllGood;
    forall id
      ensures var share := Share(catalog, max, batch, base, id);
              var es := HeadOf(before, id).entries + share;
              if share != [] && Held(es) >= limit then AllGood(blocks, id) ==> HeadOf(after, id).entries == []
              else HeadOf(after, id).entries == es
    {
      AddAllHead(before, catalog, max, batch, base, seg, id);
      SharedStreams(catalog, max, batch, base, streams, id);
    }
  }

  // A batch as WAL records: consecutive pieces, each with the number of its first entry.
  datatype WalRecord = WalRecord(base: nat, logs: seq<Log>)

  ghost function Logged(recs: seq<WalRecord>): seq<Log> {
    if recs == [] then [] else Logged(recs[..|recs| - 1]) + recs[|recs| - 1].logs
  }

  // What a batch takes in the WAL: each body and ten bytes.
  ghost function BatchBytes(batch: seq<Log>): nat {
    if batch == [] then 0 else BatchBytes(batch[..|batch| - 1]) + |batch[|batch| - 1].body| + 10
  }

  lemma {:induction false} BytesOfPrefix(batch: seq<Log>, n: nat)
    requires n <= |batch|
    ensures BatchBytes(batch[..n]) <= BatchBytes(batch)
  {
    if n < |batch| {
      assert batch[..|batch| - 1][..n] == batch[..n];
      BytesOfPrefix(batch[..|batch| - 1], n);
    } else {
      assert batch[..n] == batch;
    }
  }

  // Consecutive records of one batch, numbered from base.
  ghost predicate Consecutive(recs: seq<WalRecord>, base: nat) {
    forall i :: 0 <= i < |recs| ==> Follows(recs, i, base)
  }

  ghost predicate Follows(recs: seq<WalRecord>, i: nat, base: nat)
    requires i < |recs|
  {
    recs[i].logs != [] && recs[i].base == base + |Logged(recs[..i])|
  }

  lemma SameFollows(recs: seq<WalRecord>, longer: seq<WalRecord>, i: nat, base: nat)
    requires i < |recs| && recs <= longer
    ensures Follows(recs, i, base) <==> Follows(longer, i, base)
  {
    assert recs[..i] == longer[..i];
  }

  lemma LoggedMore(recs: seq<WalRecord>, rec: WalRecord)
    ensures Logged(recs + [rec]) == Logged(recs) + rec.logs
  {
    assert (recs + [rec])[..|recs|] == recs;
  }

  lemma OneMoreRecord(recs: seq<WalRecord>, base: nat, rec: WalRecord)
    requires Consecutive(recs, base) && rec.logs != [] && rec.base == base + |Logged(recs)|
    ensures Consecutive(recs + [rec], base)
  {
    hide Logged;
    var after := recs + [rec];
    assert after[..|recs|] == recs;
    assert Follows(after, |recs|, base);
    hide Follows;
    forall i | 0 <= i < |recs| ensures Follows(after, i, base) { SameFollows(recs, after, i, base); }
  }

  // Log n still goes into the record that starts at from.
  ghost predicate Fits(batch: seq<Log>, from: nat, n: nat)
    requires from <= n < |batch|
  {
    BatchBytes(batch[from..n]) + |batch[n].body| < 8_388_608
  }

  // A record that starts at from and reaches to: one log at least, then as many as fit.
  ghost predicate Filled(batch: seq<Log>, from: nat, to: nat) {
    && from < to <= |batch|
    && (forall n :: from < n < to ==> Fits(batch, from, n))
    && (to < |batch| ==> !Fits(batch, from, to))
  }

  // recs are the records of the batch, each filled.
  ghost predicate IsSplit(recs: seq<WalRecord>, batch: seq<Log>) {
    && Logged(recs) == batch
    && forall i :: 0 <= i < |recs| ==> FilledAt(recs, batch, i)
  }

  ghost predicate FilledAt(recs: seq<WalRecord>, batch: seq<Log>, i: nat)
    requires i < |recs|
  {
    Filled(batch, |Logged(recs[..i])|, |Logged(recs[..i + 1])|)
  }

  // A log of the batch that stops at a record, never past the last, leaves the first n logs.
  ghost predicate Leaves(batch: seq<Log>, records: nat, n: nat) {
    exists recs :: IsSplit(recs, batch) && recs != [] &&
        n == |Logged(recs[..if records < |recs| then records else |recs| - 1])|
  }

  // How far a record starting at from reaches: at least one log, then as many as fit.
  method RecordEnd(batch: seq<Log>, from: nat) returns (to: nat)
    requires from < |batch|
    ensures Filled(batch, from, to)
    ensures from == 0 && BatchBytes(batch) <= 8_388_608 ==> to == |batch|
  {
    var size := 0;
    to := from;
    while to < |batch| && (to == from || size + |batch[to].body| < MAX_WAL_RECORD)
      invariant from <= to <= |batch|
      invariant forall n :: from < n < to ==> Fits(batch, from, n)
      invariant size == BatchBytes(batch[from..to])
    {
      assert batch[from..to + 1][..to - from] == batch[from..to];
      size := size + |batch[to].body| + MAX_VARINT;
      to := to + 1;
    }
    if from == 0 && to < |batch| {
      BytesOfPrefix(batch, to + 1);
      assert batch[..to + 1][..to] == batch[0..to];
    }
  }

  // Append's splitting: the records cover the batch exactly, in order, numbered consecutively, each filled; and
  // a batch within the record size is one record.
  method SplitRecords(base: nat, batch: seq<Log>) returns (recs: seq<WalRecord>)
    ensures IsSplit(recs, batch) && Consecutive(recs, base)
    ensures BatchBytes(batch) <= 8_388_608 ==> |recs| <= 1
  {
    recs := [];
    var from := 0;
    while from < |batch|
      invariant 0 <= from <= |batch|
      invariant Logged(recs) == batch[..from] && Consecutive(recs, base)
      invariant forall i :: 0 <= i < |recs| ==> FilledAt(recs, batch, i)
      invariant BatchBytes(batch) <= 8_388_608 ==> |recs| == 0 == from || (|recs| == 1 && from == |batch|)
    {
      hide Consecutive, Logged, FilledAt, Filled;
      var to := RecordEnd(batch, from);
      FilledWithin(batch, from, to);
      var rec := WalRecord(base + from, batch[from..to]);
      OneMoreRecord(recs, base, rec);
      OneMoreFilled(recs, batch, rec, from, to);
      LoggedMore(recs, rec);
      recs := recs + [rec];
      assert batch[..to] == batch[..from] + batch[from..to];
      from := to;
    }
    assert batch[..from] == batch;
  }

  lemma FilledWithin(batch: seq<Log>, from: nat, to: nat)
    requires Filled(batch, from, to)
    ensures from < to <= |batch|
  {
  }

  lemma OneMoreFilled(recs: seq<WalRecord>, batch: seq<Log>, rec: WalRecord, from: nat, to: nat)
    requires from <= to <= |batch| && Logged(recs) == batch[..from] && rec.logs == batch[from..to]
    requires Filled(batch, from, to)
    requires forall i :: 0 <= i < |recs| ==> FilledAt(recs, batch, i)
    ensures forall i :: 0 <= i < |recs + [rec]| ==> FilledAt(recs + [rec], batch, i)
  {
    hide Filled, Logged;
    var after := recs + [rec];
    LoggedMore(recs, rec);
    assert after[..|recs|] == recs && after[..|recs| + 1] == after;
    forall i | 0 <= i < |after| ensures FilledAt(after, batch, i) {
      if i < |recs| {
        assert FilledAt(recs, batch, i);
        assert after[..i] == recs[..i] && after[..i + 1] == recs[..i + 1];
      }
    }
  }

  lemma DayMonotone(a: int, b: int)
    requires a <= b
    ensures DayOf(a) <= DayOf(b)
  {
  }

  lemma CreateIsStep(s: State, t: State, max: nat, l: Labels, id: nat)
    requires s.pending.None? && Resolve(s.catalog, max, l).None? && id !in s.catalog.Values
    requires t == s.(catalog := s.catalog[Target(s.catalog, max, l) := id])
    ensures Enabled(s, max, CreateStream(l, id)) && t == Apply(s, max, CreateStream(l, id))
  {
  }

  lemma LogIsStep(s: State, max: nat, batch: seq<Log>, roll: bool)
    requires s.pending.None? && batch != [] && AllFiled(s.catalog, max, batch)
    ensures Enabled(s, max, LogBatch(batch, roll))
    ensures AfterLog(s, batch, if roll then s.cur + 1 else s.cur) == Apply(s, max, LogBatch(batch, roll))
  {
    hide AllFiled, AfterLog;
  }

  lemma FiledPrefix(catalog: map<Labels, nat>, max: nat, batch: seq<Log>, left: seq<Log>)
    requires AllFiled(catalog, max, batch) && left <= batch
    ensures AllFiled(catalog, max, left)
  {
    hide Resolve;
  }

  lemma PrefixOfRecords(recs: seq<WalRecord>, base: nat, n: nat)
    requires Consecutive(recs, base) && n <= |recs|
    ensures Consecutive(recs[..n], base) && Logged(recs[..n]) <= Logged(recs)
    ensures n == 0 ==> Logged(recs[..n]) == []
  {
    hide Follows;
    forall i | 0 <= i < n ensures Follows(recs[..n], i, base) { SameFollows(recs[..n], recs, i, base); }
    hide Consecutive;
    LoggedPrefix(recs, n);
  }

  lemma {:induction false} LoggedPrefix(recs: seq<WalRecord>, n: nat)
    requires n <= |recs|
    ensures Logged(recs[..n]) <= Logged(recs)
  {
    if n == |recs| {
      assert recs[..n] == recs;
    } else {
      assert recs[..|recs| - 1][..n] == recs[..n];
      LoggedPrefix(recs[..|recs| - 1], n);
    }
  }

  lemma IsAfterLog(s: State, t: State, batch: seq<Log>)
    requires t.wal == s.wal + WalEntries(s.last + 1, batch, t.cur) && t.last == s.last + |batch|
    requires t.named == Spent(s.named, s.last) + Numbered(s.last + 1, batch)
    requires t.pending == Some(Pending(s.last + 1, batch, t.cur))
    requires t.catalog == s.catalog && t.chunks == s.chunks && t.limbo == s.limbo && t.heads == s.heads
    requires t.acked == s.acked
    ensures t == AfterLog(s, batch, t.cur)
  {
    hide WalEntries, Spent, Numbered;
  }

  ghost function NamedAfter(named: set<Entry>, last: nat, left: seq<Log>): set<Entry> {
    if left == [] then named else Spent(named, last) + Numbered(last + 1, left)
  }

  lemma FailedIsStep(s: State, t: State, max: nat, left: seq<Log>, roll: bool)
    requires s.pending.None? && AllFiled(s.catalog, max, left) && t.cur == if roll then s.cur + 1 else s.cur
    requires t.wal == s.wal + WalEntries(s.last + 1, left, t.cur) && t.named == NamedAfter(s.named, s.last, left)
    requires t == s.(wal := t.wal, cur := t.cur, named := t.named)
    ensures Enabled(s, max, LogFailed(left, roll)) && t == Apply(s, max, LogFailed(left, roll))
  {
    hide AllFiled, WalEntries, Spent, Numbered;
  }

  lemma SomeLogged(wal: seq<WalEntry>, base: nat, batch: seq<Log>, records: nat, more: seq<WalEntry>, seg: nat)
    requires |more| <= |batch| && more == WalEntries(base, batch[..|more|], seg) && Leaves(batch, records, |more|)
    ensures LogsSome(wal, wal + more, base, batch, records, seg)
  {
    hide Leaves, WalEntries;
  }

  lemma SyncFailedIsStep(s: State, max: nat)
    requires s.pending.Some?
    ensures Enabled(s, max, SyncFailed) && s.(pending := None) == Apply(s, max, SyncFailed)
  {
  }

  lemma AcknowledgeIsStep(s: State, max: nat)
    requires s.pending.Some? && AllFiled(s.catalog, max, s.pending.value.batch)
    ensures Enabled(s, max, Acknowledge) && AfterAck(s, max, s.pending.value) == Apply(s, max, Acknowledge)
  {
    hide AllFiled, AfterAck;
  }

  lemma BlockIsStep(s: State, max: nat, k: ChunkKey, b: Block)
    requires s.pending.None? && IsDayGroup(b, HeadOf(s.heads, k.stream).entries, k.day)
    ensures Enabled(s, max, WriteBlock(k, b)) && s.(limbo := s.limbo[k := b]) == Apply(s, max, WriteBlock(k, b))
  {
  }

  lemma LoseIsStep(s: State, max: nat, k: ChunkKey)
    ensures Enabled(s, max, LoseBlock(k)) && s.(limbo := s.limbo - {k}) == Apply(s, max, LoseBlock(k))
  {
  }

  lemma PublishIsStep(s: State, max: nat, k: ChunkKey)
    requires s.pending.None? && k in s.limbo && IsDayGroup(s.limbo[k], HeadOf(s.heads, k.stream).entries, k.day)
    ensures Enabled(s, max, Publish(k)) && AfterPublish(s, k) == Apply(s, max, Publish(k))
  {
    hide IsDayGroup, AfterPublish;
  }

  lemma RemoveIsStep(s: State, max: nat, seg: nat)
    requires s.pending.None? && SafeToRemove(s, seg)
    ensures Enabled(s, max, RemoveSegment(seg))
    ensures s.(wal := DropSegment(s.wal, seg)) == Apply(s, max, RemoveSegment(seg))
  {
  }

  // wal.Log: all records go to one segment, their entries one after another.
  method LogRecords(base: nat, recs: seq<WalRecord>, seg: nat) returns (more: seq<WalEntry>)
    requires Consecutive(recs, base)
    ensures more == WalEntries(base, Logged(recs), seg)
  {
    more := [];
    for i := 0 to |recs|
      invariant more == WalEntries(base, Logged(recs[..i]), seg)
    {
      ghost var before := Logged(recs[..i]);
      var logs := recs[i].logs;
      assert Follows(recs, i, base);
      for j := 0 to |logs|
        invariant more == WalEntries(base, before + logs[..j], seg)
      {
        hide Consecutive, Logged;
        more := more + [WalEntry(seg, Entry(recs[i].base + j, logs[j]), false)];
        assert before + logs[..j + 1] == before + logs[..j] + [logs[j]];
      }
      assert logs[..|logs|] == logs;
      assert recs[..i + 1][..i] == recs[..i];
    }
    assert recs[..|recs|] == recs;
  }

  // The WAL has gained the first n logs of the batch.
  ghost predicate Logs(wal: seq<WalEntry>, wal': seq<WalEntry>, base: nat, batch: seq<Log>, n: int, seg: nat) {
    0 <= n <= |batch| && wal' == wal + WalEntries(base, batch[..n], seg)
  }

  // ... as a log that fails at a record leaves them.
  ghost predicate LogsSome(wal: seq<WalEntry>, wal': seq<WalEntry>, base: nat, batch: seq<Log>, records: nat, seg: nat)
  {
    var n := |wal'| - |wal|;
    Logs(wal, wal', base, batch, n, seg) && Leaves(batch, records, n)
  }

  // A wal.Log that stops at a bad record: some of the records, never the last, are logged.
  method LogSome(base: nat, batch: seq<Log>, records: nat, seg: nat) returns (more: seq<WalEntry>)
    requires batch != []
    ensures |more| <= |batch| && more == WalEntries(base, batch[..|more|], seg) && Leaves(batch, records, |more|)
    ensures BatchBytes(batch) <= 8_388_608 ==> more == []
  {
    hide BatchBytes, Consecutive, FilledAt;
    var recs := SplitRecords(base, batch);
    assert recs != [];
    var n := if records < |recs| then records else |recs| - 1;
    PrefixOfRecords(recs, base, n);
    more := LogRecords(base, recs[..n], seg);
    assert batch[..|more|] == Logged(recs[..n]);
  }

  // The end of the run of entries on the same day as the one at from.
  method DayEnd(entries: seq<Entry>, from: nat) returns (to: nat)
    requires from < |entries|
    ensures from < to <= |entries|
    ensures forall i :: from <= i < to ==> DayOf(entries[i].log.ts) == DayOf(entries[from].log.ts)
    ensures to < |entries| ==> DayOf(entries[to].log.ts) != DayOf(entries[from].log.ts)
  {
    hide DayOf;
    to := from;
    while to < |entries| && DayOf(entries[to].log.ts) == DayOf(entries[from].log.ts)
      invariant from <= to <= |entries|
      invariant forall i :: from <= i < to ==> DayOf(entries[i].log.ts) == DayOf(entries[from].log.ts)
    {
      to := to + 1;
    }
  }

  // The loop that rebuilds a head without one day.
  method RestOf(es: seq<Entry>, day: int) returns (rest: seq<Entry>)
    ensures rest == Rest(es, day)
  {
    hide DayOf;
    rest := [];
    for i := 0 to |es|
      invariant rest == Rest(es[..i], day)
    {
      if DayOf(es[i].log.ts) != day {
        rest := rest + [es[i]];
      }
      assert es[..i + 1][..i] == es[..i];
    }
    assert es[..|es|] == es;
  }

  lemma RestCount(es: seq<Entry>, day: int, e: Entry)
    ensures multiset(Rest(es, day))[e] == if DayOf(e.log.ts) != day then multiset(es)[e] else 0
  {
    RestTimes(es, day, e);
  }

  ghost function Times(es: seq<Entry>, e: Entry): nat {
    multiset(es)[e]
  }

  lemma {:induction false} RestTimes(es: seq<Entry>, day: int, e: Entry)
    ensures Times(Rest(es, day), e) == if DayOf(e.log.ts) != day then Times(es, e) else 0
  {
    if es != [] {
      hide DayOf, Rest, Times;
      var n := |es| - 1;
      RestTimes(es[..n], day, e);
      RestStep(es, day);
      TimesMore(es[..n], es[n], e);
      TimesMore(Rest(es[..n], day), es[n], e);
      assert es == es[..n] + [es[n]];
    }
  }

  lemma TimesMore(es: seq<Entry>, x: Entry, e: Entry)
    ensures Times(es + [x], e) == Times(es, e) + (if x == e then 1 else 0) && es + [] == es
  {
  }

  lemma RestStep(es: seq<Entry>, day: int)
    requires es != []
    ensures var n := |es| - 1; Rest(es, day) == Rest(es[..n], day) + if DayOf(es[n].log.ts) != day then [es[n]] else []
  {
    hide DayOf;
  }

  // In sorted order a day is one unbroken run, so cutting at the first change of day takes all of it.
  lemma DayIsGroup(entries: seq<Entry>, from: nat, to: nat, es: seq<Entry>)
    requires InOrder(entries) && from < to <= |entries|
    requires forall i :: from <= i < to ==> DayOf(entries[i].log.ts) == DayOf(entries[from].log.ts)
    requires to < |entries| ==> DayOf(entries[to].log.ts) != DayOf(entries[from].log.ts)
    requires multiset(es) == multiset(entries[from..])
    ensures IsDayGroup(entries[from..to], es, DayOf(entries[from].log.ts))
    ensures multiset(Rest(es, DayOf(entries[from].log.ts))) == multiset(entries[to..])
  {
    var day := DayOf(entries[from].log.ts);
    forall i | to <= i < |entries| ensures DayOf(entries[i].log.ts) != day {
      DayMonotone(entries[from].log.ts, entries[to].log.ts);
      DayMonotone(entries[to].log.ts, entries[i].log.ts);
    }
    hide DayOf, InOrder, IsDayGroup;
    assert entries[from..] == entries[from..to] + entries[to..];
    SplitByDay(entries[from..to], entries[to..], es, day);
  }

  lemma SplitByDay(group: Block, tail: seq<Entry>, es: seq<Entry>, day: int)
    requires group != [] && multiset(es) == multiset(group + tail)
    requires forall i :: 0 <= i < |group| ==> DayOf(group[i].log.ts) == day
    requires forall i :: 0 <= i < |tail| ==> DayOf(tail[i].log.ts) != day
    ensures IsDayGroup(group, es, day) && multiset(Rest(es, day)) == multiset(tail)
  {
    hide DayOf, Rest;
    forall e: Entry
      ensures multiset(group)[e] == if DayOf(e.log.ts) == day then multiset(es)[e] else 0
      ensures multiset(Rest(es, day))[e] == multiset(tail)[e]
    {
      RestCount(es, day, e);
      if DayOf(e.log.ts) == day {
        assert e !in tail;
      } else {
        assert e !in group;
      }
    }
  }

  // One replayed WAL entry goes to the end of its stream's head, unless its chunk already holds its number.
  lemma ReplayStep(wal: seq<WalEntry>, catalog: map<Labels, nat>, max: nat, chunks: map<ChunkKey, seq<Block>>,
                   n: nat, id: nat)
    requires n < |wal|
    ensures var x := wal[n];
            var before := ReplayedHead(wal[..n], catalog, max, chunks, id);
            ReplayedHead(wal[..n + 1], catalog, max, chunks, id) ==
              if Resolve(catalog, max, x.e.log.labels) == Some(id) &&
                  x.e.num > SealedTo(BlocksOf(chunks, KeyOf(id, x.e)))
              then AddTo(before, x.e, x.seg) else before
  {
    hide Resolve, SealedTo;
    assert wal[..n + 1][..n] == wal[..n];
    var xs := Unsealed(wal[..n], catalog, max, chunks, id);
    assert Bodies(xs + [wal[n]]) == Bodies(xs) + [wal[n].e];
  }

  // recover's loop over the WAL.
  method Replay(wal: seq<WalEntry>, catalog: map<Labels, nat>, max: nat, chunks: map<ChunkKey, seq<Block>>)
    returns (heads: map<nat, Head>)
    requires forall x :: x in wal ==> Resolve(catalog, max, x.e.log.labels).Some?
    ensures AreReplayed(heads, wal, catalog, max, chunks)
  {
    heads := map id | id in catalog.Values :: Head([], 0);
    for n := 0 to |wal|
      invariant AreReplayed(heads, wal[..n], catalog, max, chunks)
    {
      var x := wal[n];
      assert x in wal;
      var id := Resolve(catalog, max, x.e.log.labels).value;
      assert id in heads;
      hide Resolve, SealedTo, AreReplayed;
      ReplayOne(heads, wal, catalog, max, chunks, n, id);
      if x.e.num > SealedTo(BlocksOf(chunks, KeyOf(id, x.e))) {
        heads := heads[id := AddTo(heads[id], x.e, x.seg)];
      }
    }
    assert wal[..|wal|] == wal;
  }

  lemma ReplayOne(heads: map<nat, Head>, wal: seq<WalEntry>, catalog: map<Labels, nat>, max: nat,
                  chunks: map<ChunkKey, seq<Block>>, n: nat, id: nat)
    requires n < |wal| && AreReplayed(heads, wal[..n], catalog, max, chunks)
    requires Resolve(catalog, max, wal[n].e.log.labels) == Some(id) && id in heads
    ensures AreReplayed(if wal[n].e.num > SealedTo(BlocksOf(chunks, KeyOf(id, wal[n].e)))
                        then heads[id := AddTo(heads[id], wal[n].e, wal[n].seg)] else heads,
                        wal[..n + 1], catalog, max, chunks)
  {
    hide Resolve, SealedTo, ReplayedHead;
    forall i | i in catalog.Values
      ensures ReplayedHead(wal[..n + 1], catalog, max, chunks, i) ==
                if i == id && wal[n].e.num > SealedTo(BlocksOf(chunks, KeyOf(id, wal[n].e)))
                then AddTo(heads[id], wal[n].e, wal[n].seg) else heads[i]
    {
      ReplayStep(wal, catalog, max, chunks, n, i);
    }
  }

  ghost predicate AreReplayed(heads: map<nat, Head>, wal: seq<WalEntry>, catalog: map<Labels, nat>, max: nat,
                              chunks: map<ChunkKey, seq<Block>>)
  {
    heads.Keys == catalog.Values && forall i :: i in catalog.Values ==>
        heads[i] == ReplayedHead(wal, catalog, max, chunks, i)
  }

  // The sequence counter recover ends with: the highest number in any block or WAL entry.
  method LastNumber(wal: seq<WalEntry>, chunks: map<ChunkKey, seq<Block>>) returns (last: nat)
    ensures IsLastSeq(last, wal, chunks)
  {
    last := 0;
    for n := 0 to |wal|
      invariant forall i :: 0 <= i < n ==> wal[i].e.num <= last
      invariant last > 0 ==> exists x :: x in wal && x.e.num == last
    {
      assert wal[n] in wal;
      if wal[n].e.num > last {
        last := wal[n].e.num;
      }
    }
    var keys := chunks.Keys;
    while keys != {}
      invariant keys <= chunks.Keys
      invariant forall x :: x in wal ==> x.e.num <= last
      invariant forall k, i, e :: k in chunks && k !in keys && 0 <= i < |chunks[k]| && e in chunks[k][i] ==>
                  e.num <= last
      invariant last > 0 ==>
                  || (exists x :: x in wal && x.e.num == last)
                  || (exists k, i, e :: k in chunks && 0 <= i < |chunks[k]| && e in chunks[k][i] && e.num == last)
      decreases |keys|
    {
      var k :| k in keys;
      if SealedTo(chunks[k]) > last {
        last := SealedTo(chunks[k]);
      }
      keys := keys - {k};
    }
  }

  // Every log in the WAL of a reachable state has its stream: replay creates none.
  lemma WalFiled(run: seq<State>, steps: seq<Step>, max: nat)
    requires IsRun(run, steps, max)
    ensures var s := run[|steps|];
            forall x :: x in s.wal ==> Resolve(s.catalog, max, x.e.log.labels).Some?
  {
    hide Enabled, Apply, Resolve, SegmentsOk, HeadsOk, DurableOk, ChunksOk, SealsOk, LimboOk, AckedOk, PendingOk;
    RunKeeps(run, steps, max, |steps|);
  }

  // So far no step added records where the next number was in use: what ExactlyOnce asks of a run.
  ghost predicate Free(run: seq<State>, steps: seq<Step>) {
    |steps| < |run| && NumbersFree(run, steps, |steps|)
  }

  // And the next step may.
  ghost predicate Sound(run: seq<State>, steps: seq<Step>) {
    Free(run, steps) && NextIsFree(run[|steps|])
  }

  lemma NoneNumbered(base: nat)
    ensures Numbered(base, []) == {}
  {
  }

  lemma SoundFree(run: seq<State>, steps: seq<Step>)
    ensures Sound(run, steps) ==> Free(run, steps)
  {
  }

  ghost predicate Keeps(run: seq<State>, steps: seq<Step>, run': seq<State>, steps': seq<Step>) {
    && (Free(run, steps) ==> Free(run', steps'))
    && (Sound(run, steps) ==> Sound(run', steps'))
  }

  // Only a failed wal.Log that leaves records puts numbers into the WAL that are not spent, and a recovery
  // moves the counter past whatever is there.
  lemma FreeStep(s: State, t: State, max: nat, step: Step)
    requires Enabled(s, max, step) && t == Apply(s, max, step)
    ensures NextIsFree(s) && !(step.LogFailed? && step.left != []) ==> NextIsFree(t)
    ensures step.CrashAndRecover? ==> NextIsFree(t)
  {
    hide Resolve, AllFiled, AddAll, Numbered, Spent, IsDayGroup, Rest, HeadOf, SafeToRemove, Surviving, ReplayedHeads;
  }

  lemma RunMore(run: seq<State>, steps: seq<Step>, t: State, max: nat, step: Step)
    requires IsRun(run, steps, max) && Enabled(run[|run| - 1], max, step) && t == Apply(run[|run| - 1], max, step)
    ensures IsRun(run + [t], steps + [step], max)
  {
    hide Enabled, Apply;
  }

  lemma FreeMore(run: seq<State>, steps: seq<Step>, t: State, max: nat, step: Step)
    requires IsRun(run, steps, max) && Enabled(run[|run| - 1], max, step) && t == Apply(run[|run| - 1], max, step)
    ensures Free(run, steps) && !Records(step) ==> Free(run + [t], steps + [step])
    ensures Sound(run, steps) ==> Free(run + [t], steps + [step])
    ensures Sound(run, steps) && !(step.LogFailed? && step.left != []) ==> Sound(run + [t], steps + [step])
    ensures Free(run, steps) && step.CrashAndRecover? ==> Sound(run + [t], steps + [step])
  {
    FreeStep(run[|steps|], t, max, step);
    hide Enabled, Apply, NextIsFree;
  }

  // A crash may cut the WAL here, and appending goes on in this segment.
  ghost predicate CanCut(wal: seq<WalEntry>, kept: nat, segment: nat) {
    && kept <= |wal|
    && (forall i :: kept <= i < |wal| ==> !wal[i].durable)
    && (forall i :: 0 <= i < kept ==> wal[i].seg <= segment)
  }

  // What recover computes from the durable parts: the counter and the heads.
  method Rebuild(wal: seq<WalEntry>, catalog: map<Labels, nat>, max: nat, chunks: map<ChunkKey, seq<Block>>)
    returns (last: nat, heads: map<nat, Head>)
    requires forall x :: x in wal ==> Resolve(catalog, max, x.e.log.labels).Some?
    ensures IsLastSeq(last, wal, chunks) && AreReplayed(heads, wal, catalog, max, chunks)
  {
    hide IsLastSeq, AreReplayed, Resolve;
    last := LastNumber(wal, chunks);
    heads := Replay(wal, catalog, max, chunks);
  }

  lemma CutBounds(wal: seq<WalEntry>, kept: nat, segment: nat)
    requires CanCut(wal, kept, segment)
    ensures kept <= |wal|
  {
  }

  lemma CutCanCrash(s: State, kept: nat, blocks: set<ChunkKey>, cur: nat, last: nat)
    requires CanCut(s.wal, kept, cur) && IsLastSeq(last, s.wal[..kept], Surviving(s.chunks, s.limbo, blocks))
    ensures CanCrash(s, kept, blocks, cur, last)
  {
    hide IsLastSeq, Surviving;
  }

  lemma IsAfterCrash(s: State, t: State, max: nat, kept: nat, blocks: set<ChunkKey>)
    requires kept <= |s.wal| && t.wal == s.wal[..kept] && t.chunks == Surviving(s.chunks, s.limbo, blocks)
    requires AreReplayed(t.heads, t.wal, s.catalog, max, t.chunks)
    requires t.catalog == s.catalog && t.limbo == map[] && t.pending == None && t.acked == s.acked && t.named == s.named
    ensures t == AfterCrash(s, max, kept, blocks, t.cur, t.last)
  {
    hide ReplayedHead, Surviving;
    assert t.heads == ReplayedHeads(t.wal, s.catalog, max, t.chunks);
  }

  lemma CrashIsStep(s: State, max: nat, kept: nat, blocks: set<ChunkKey>, cur: nat, last: nat)
    requires CanCrash(s, kept, blocks, cur, last)
    ensures var step := CrashAndRecover(kept, blocks, cur, last);
            Enabled(s, max, step) && AfterCrash(s, max, kept, blocks, cur, last) == Apply(s, max, step)
  {
    hide CanCrash, AfterCrash;
  }

  // A stream created for labels is theirs from then on, and leaves every other's where it was.
  lemma NewStream(catalog: map<Labels, nat>, max: nat, l: Labels, id: nat)
    requires Resolve(catalog, max, l).None?
    ensures var after := catalog[Target(catalog, max, l) := id];
            Resolve(after, max, l) == Some(id) && forall m :: Resolve(catalog, max, m).Some? ==>
                Resolve(after, max, m) == Resolve(catalog, max, m)
  {
    var after := catalog[Target(catalog, max, l) := id];
    assert after.Keys == catalog.Keys + {Target(catalog, max, l)};
    forall m | Resolve(catalog, max, m).Some? ensures Resolve(after, max, m) == Resolve(catalog, max, m) {
      ResolveStable(catalog, max, l, id, m);
    }
  }

  // Each log of the batch with its stream.
  ghost predicate FiledAs(catalog: map<Labels, nat>, max: nat, batch: seq<Log>, streams: seq<nat>) {
    |streams| == |batch| && forall i :: 0 <= i < |batch| ==> Resolve(catalog, max, batch[i].labels) == Some(streams[i])
  }

  ghost predicate IdsBelow(catalog: map<Labels, nat>, next: nat) {
    forall l :: l in catalog ==> catalog[l] < next
  }

  ghost predicate Extends(a: seq<Step>, b: seq<Step>) {
    a <= b
  }

  lemma ExtendsSelf(a: seq<Step>)
    ensures Extends(a, a)
  {
  }

  lemma ExtendsTrans(a: seq<Step>, b: seq<Step>, c: seq<Step>)
    requires Extends(a, b) && Extends(b, c)
    ensures Extends(a, c)
  {
  }

  class Store {
    const max: nat
    const blockBytes: nat

    var catalog: map<Labels, nat>
    var nextId: nat
    var wal: seq<WalEntry>
    var cur: nat
    var chunks: map<ChunkKey, seq<Block>>
    var limbo: map<ChunkKey, Block>
    var heads: map<nat, Head>
    var last: nat

    // History: the batch between its log and its acknowledgement, what was acknowledged, and the
    // whole run so far.
    ghost var pending: Option<Pending>
    ghost var acked: set<Entry>
    ghost var named: set<Entry>
    ghost var run: seq<State>
    ghost var steps: seq<Step>

    ghost function Now(): State
      reads this
    {
      State(catalog, wal, cur, chunks, limbo, heads, last, pending, acked, named)
    }

    // The object is at the end of a run of the protocol.
    ghost predicate Valid()
      reads this
    {
      && IsRun(run, steps, max)
      && run[|run| - 1] == Now()
      && IdsBelow(catalog, nextId)
    }

    constructor (max: nat, blockBytes: nat)
      ensures Valid() && this.max == max && Now() == EMPTY
    {
      this.max, this.blockBytes := max, blockBytes;
      catalog, nextId, wal, cur, chunks, limbo, heads, last := map[], 1, [], 0, map[], map[], map[], 0;
      pending, acked, named := None, {}, {};
      run, steps := [EMPTY], [];
    }

    ghost method Note(step: Step)
      requires IsRun(run, steps, max) && Enabled(run[|run| - 1], max, step) && Now() == Apply(run[|run| - 1], max, step)
      requires IdsBelow(catalog, nextId)
      modifies this`run, this`steps
      ensures Valid() && steps == old(steps) + [step] && Extends(old(steps), steps)
      ensures old(Free(run, steps)) && !Records(step) ==> Free(run, steps)
      ensures old(Sound(run, steps)) ==> Free(run, steps)
      ensures old(Sound(run, steps)) && !(step.LogFailed? && step.left != []) ==> Sound(run, steps)
      ensures old(Free(run, steps)) && step.CrashAndRecover? ==> Sound(run, steps)
    {
      hide IsRun, Enabled, Apply, Free, Sound;
      FreeMore(run, steps, Now(), max, step);
      RunMore(run, steps, Now(), max, step);
      run, steps := run + [Now()], steps + [step];
    }

    // streamFor: the stream of a log, created in the catalog if it is new. Streams found before stay.
    method StreamFor(l: Log) returns (id: nat)
      requires Valid() && pending.None?
      modifies this`catalog, this`nextId, this`run, this`steps
      ensures Valid() && Extends(old(steps), steps)
      ensures Keeps(old(run), old(steps), run, steps)
      ensures Resolve(catalog, max, l.labels) == Some(id)
      ensures forall m :: old(Resolve(catalog, max, m)).Some? ==>
                Resolve(catalog, max, m) == old(Resolve(catalog, max, m))
      ensures l.labels in old(catalog) ==> catalog == old(catalog) && id == catalog[l.labels]
      ensures l.labels !in old(catalog) ==>
                var ls := if |old(catalog)| < max then l.labels
                          else Labels("_overflow", "_overflow", "_overflow", l.labels.env, l.labels.status);
                if ls in old(catalog) then catalog == old(catalog) && id == catalog[ls]
                else catalog == old(catalog)[ls := id] && id !in old(catalog).Values
    {
      hide IsRun, Enabled, Apply, Free, Sound;
      var ls := l.labels;
      if ls in catalog {
        return catalog[ls];
      }
      if |catalog| >= max {
        ls := Fold(ls);
        if ls in catalog {
          return catalog[ls];
        }
      }
      id := nextId;
      nextId := nextId + 1;
      ghost var s, before := Now(), catalog;
      catalog := catalog[ls := id];
      NewStream(before, max, l.labels, id);
      hide Resolve;
      CreateIsStep(s, Now(), max, l.labels, id);
      Note(CreateStream(l.labels, id));
    }

    method FillHeads(batch: seq<Log>, streams: seq<nat>, base: nat)
      requires FiledAs(catalog, max, batch, streams)
      modifies this`heads
      ensures heads == AddAll(old(heads), catalog, max, batch, base, cur)
    {
      for i := 0 to |batch|
        invariant heads == AddAll(old(heads), catalog, max, batch[..i], base, cur)
      {
        hide Resolve;
        heads := heads[streams[i] := AddTo(HeadOf(heads, streams[i]), Entry(base + i, batch[i]), cur)];
        assert batch[..i + 1][..i] == batch[..i];
      }
      assert batch[..|batch|] == batch;
    }

    // The batch goes to the WAL, and from here its numbers are spent.
    method LogPhase(batch: seq<Log>, roll: bool)
      requires Valid() && pending.None? && batch != []
      requires AllFiled(catalog, max, batch)
      modifies this`wal, this`cur, this`last, this`named, this`pending, this`run, this`steps
      ensures Valid() && Extends(old(steps), steps)
      ensures last == old(last) + |batch| && pending == Some(Pending(old(last) + 1, batch, cur))
      ensures cur == (if roll then old(cur) + 1 else old(cur))
      ensures wal == old(wal) + WalEntries(old(last) + 1, batch, cur)
      ensures old(Sound(run, steps)) ==> Sound(run, steps)
    {
      hide IsRun, Enabled, Apply, Numbered, AllFiled, WalEntries, Extends, IdsBelow;
      ghost var s := Now();
      var base := last + 1;
      var seg := if roll then cur + 1 else cur;
      var recs := SplitRecords(base, batch);
      var more := LogRecords(base, recs, seg);
      wal, cur, last, named, pending :=
        wal + more, seg, base + |batch| - 1, Spent(named, last) + Numbered(base, batch),
            Some(Pending(base, batch, seg));
      hide AfterLog;
      IsAfterLog(s, Now(), batch);
      LogIsStep(s, max, batch, roll);
      Note(LogBatch(batch, roll));
    }

    // wal.Log fails at some record: the ones before it are in the file, and their numbers are not spent.
    method FailPhase(batch: seq<Log>, records: nat, roll: bool)
      requires Valid() && pending.None? && batch != [] && AllFiled(catalog, max, batch)
      modifies this`wal, this`cur, this`named, this`run, this`steps
      ensures Valid() && Extends(old(steps), steps) && cur == (if roll then old(cur) + 1 else old(cur))
      ensures LogsSome(old(wal), wal, old(last) + 1, batch, records, cur)
      ensures old(Sound(run, steps)) ==> Free(run, steps)
      ensures old(Sound(run, steps)) && BatchBytes(batch) <= 8_388_608 ==> Sound(run, steps)
    {
      hide IsRun, Enabled, Apply, AllFiled, WalEntries, Extends, IdsBelow, BatchBytes, Free, Sound, Spent, Numbered,
           Leaves, LogsSome;
      ghost var s := Now();
      var seg := if roll then cur + 1 else cur;
      var more := LogSome(last + 1, batch, records, seg);
      ghost var left := batch[..|more|];
      SomeLogged(wal, last + 1, batch, records, more, seg);
      FiledPrefix(catalog, max, batch, left);
      wal, cur, named := wal + more, seg, NamedAfter(named, last, left);
      FailedIsStep(s, Now(), max, left, roll);
      Note(LogFailed(left, roll));
    }

    // The fsync succeeded: the heads are filled and the batch is acknowledged.
    method AckPhase(batch: seq<Log>, streams: seq<nat>, base: nat)
      requires Valid() && pending == Some(Pending(base, batch, cur))
      requires FiledAs(catalog, max, batch, streams)
      modifies this`wal, this`heads, this`acked, this`pending, this`run, this`steps
      ensures Valid() && pending.None? && Extends(old(steps), steps)
      ensures Keeps(old(run), old(steps), run, steps)
      ensures acked == old(acked) + Numbered(base, batch) && wal == Synced(old(wal))
      ensures heads == AddAll(old(heads), catalog, max, batch, base, cur)
    {
      hide IsRun, Enabled, Apply, AddAll, Numbered, Resolve, Synced;
      ghost var s := Now();
      wal := Synced(wal);
      FillHeads(batch, streams, base);
      pending, acked := None, acked + Numbered(base, batch);
      assert Now() == AfterAck(s, max, s.pending.value);
      AcknowledgeIsStep(s, max);
      Note(Acknowledge);
    }

    method LogAndSync(batch: seq<Log>, streams: seq<nat>, io: WalIo, roll: bool)
      requires Valid() && pending.None? && batch != []
      requires FiledAs(catalog, max, batch, streams)
      modifies this`wal, this`cur, this`last, this`named, this`heads, this`acked, this`pending, this`run, this`steps
      ensures Valid() && pending.None? && Extends(old(steps), steps)
      ensures heads == if io.Good? then AddAll(old(heads), catalog, max, batch, old(last) + 1, cur) else old(heads)
      ensures acked == if io.Good? then old(acked) + Numbered(old(last) + 1, batch) else old(acked)
      ensures last == old(last) + if io.LogError? then 0 else |batch|
      ensures cur == if roll then old(cur) + 1 else old(cur)
      ensures io.Good? ==> wal == Synced(old(wal) + WalEntries(old(last) + 1, batch, cur))
      ensures io.SyncError? ==> wal == old(wal) + WalEntries(old(last) + 1, batch, cur)
      ensures io.LogError? ==> LogsSome(old(wal), wal, old(last) + 1, batch, io.records, cur)
      ensures old(Sound(run, steps)) ==> Free(run, steps)
      ensures old(Sound(run, steps)) && (io.LogError? ==> BatchBytes(batch) <= 8_388_608) ==> Sound(run, steps)
    {
      hide IsRun, Enabled, Apply, Numbered, Resolve, Extends, BatchBytes, IdsBelow, Free, Sound, LogsSome,
           WalEntries, Synced;
      if io.LogError? {
        FailPhase(batch, io.records, roll);
        return;
      }
      var base := last + 1;
      LogPhase(batch, roll);
      ghost var mid := steps;
      if io.Good? {
        AckPhase(batch, streams, base);
      } else {
        SyncFailedIsStep(Now(), max);
        pending := None;
        Note(SyncFailed);
      }
      SoundFree(run, steps);
      ExtendsTrans(old(steps), mid, steps);
    }

    // Append. io says how wal.Log and wal.Sync go, roll whether the batch starts a new segment, blocks how
    // the block writes of the seals it triggers go. It reports success exactly when the batch is durable,
    // and then every log of it is acknowledged under the next numbers, whatever becomes of the seals. A
    // failed Append of a batch of one record leaves nothing behind that could reuse a number.
    method Append(batch: seq<Log>, io: WalIo, roll: bool, blocks: Writes) returns (ok: bool)
      requires Valid() && pending.None?
      modifies this
      ensures Valid() && pending.None? && Extends(old(steps), steps)
      ensures ok == (batch == [] || io.Good?)
      ensures acked == if ok then old(acked) + Numbered(old(last) + 1, batch) else old(acked)
      ensures last == old(last) + if io.LogError? then 0 else |batch|
      ensures batch != [] && io.LogError? ==> cur == (if roll then old(cur) + 1 else old(cur))
      ensures batch != [] && io.LogError? ==> LogsSome(old(wal), wal, old(last) + 1, batch, io.records, cur)
      ensures !ok ==> chunks == old(chunks) && limbo == old(limbo) && heads == old(heads)
      ensures ok ==> FilledAndSealed(old(heads), heads, catalog, max, batch, old(last) + 1, blockBytes, blocks)
      ensures old(Sound(run, steps)) ==> Free(run, steps)
      ensures old(Sound(run, steps)) && (io.LogError? ==> BatchBytes(batch) <= 8_388_608) ==> Sound(run, steps)
    {
      hide IsRun, Enabled, Apply, Numbered, FiledAs, Extends, BatchBytes, IdsBelow, Free, Sound, LogsSome,
           WalEntries, Synced;
      ExtendsSelf(steps);
      SoundFree(run, steps);
      if batch == [] {
        NoneNumbered(last + 1);
        return true;
      }
      var streams := FileAndLog(batch, io, roll);
      if io.Good? {
        ghost var mid, filled := steps, heads;
        SealFull(streams, blocks);
        FillThenSeal(old(heads), filled, heads, catalog, max, batch, old(last) + 1, cur, streams, blockBytes, blocks);
        SoundFree(run, steps);
        ExtendsTrans(old(steps), mid, steps);
      }
      return io.Good?;
    }

    // Append without the sealing: streams are found or created, and the batch is logged and synced.
    method FileAndLog(batch: seq<Log>, io: WalIo, roll: bool) returns (streams: seq<nat>)
      requires Valid() && pending.None? && batch != []
      modifies this
      ensures Valid() && pending.None? && Extends(old(steps), steps) && FiledAs(catalog, max, batch, streams)
      ensures acked == if io.Good? then old(acked) + Numbered(old(last) + 1, batch) else old(acked)
      ensures last == old(last) + (if io.LogError? then 0 else |batch|) && cur == if roll then old(cur) + 1
                else old(cur)
      ensures io.Good? ==> wal == Synced(old(wal) + WalEntries(old(last) + 1, batch, cur))
      ensures io.LogError? ==> LogsSome(old(wal), wal, old(last) + 1, batch, io.records, cur)
      ensures chunks == old(chunks) && limbo == old(limbo)
      ensures heads == if io.Good? then AddAll(old(heads), catalog, max, batch, old(last) + 1, cur) else old(heads)
      ensures old(Sound(run, steps)) ==> Free(run, steps)
      ensures old(Sound(run, steps)) && (io.LogError? ==> BatchBytes(batch) <= 8_388_608) ==> Sound(run, steps)
    {
      hide IsRun, Enabled, Apply, Numbered, FiledAs, Extends, BatchBytes, IdsBelow, Free, Sound, LogsSome,
           WalEntries, Synced;
      streams := StreamsFor(batch);
      ghost var mid := steps;
      LogAndSync(batch, streams, io, roll);
      ExtendsTrans(old(steps), mid, steps);
    }

    // The streams among these whose heads have reached the block size.
    method Full(streams: seq<nat>) returns (full: seq<nat>)
      ensures forall id :: id in full <==> id in streams && Held(HeadOf(heads, id).entries) >= blockBytes
    {
      hide HeadBytes, Held;
      full := [];
      for i := 0 to |streams|
        invariant forall id :: id in full <==> id in streams[..i] && Held(HeadOf(heads, id).entries) >= blockBytes
      {
        HeadBytesHeld(HeadOf(heads, streams[i]).entries);
        if streams[i] !in full && HeadBytes(HeadOf(heads, streams[i]).entries) >= blockBytes {
          full := full + [streams[i]];
        }
      }
    }

    // The streams a batch filled past the block size are sealed, each once; a seal that fails is only logged.
    method SealFull(streams: seq<nat>, blocks: Writes)
      requires Valid() && pending.None?
      modifies this`chunks, this`limbo, this`heads, this`wal, this`run, this`steps
      ensures Valid() && Extends(old(steps), steps)
      ensures Keeps(old(run), old(steps), run, steps)
      ensures FullSealed(old(heads), heads, streams, blockBytes, blocks)
    {
      hide IsRun, Enabled, Apply, Extends, IdsBelow, Free, Sound, Held;
      ExtendsSelf(steps);
      var full := Full(streams);
      for i := 0 to |full|
        invariant Valid() && Extends(old(steps), steps)
        invariant Keeps(old(run), old(steps), run, steps)
        invariant forall id :: id !in full[..i] ==> HeadOf(heads, id) == HeadOf(old(heads), id)
        invariant forall id :: id in full[..i] && AllGood(blocks, id) ==> HeadOf(heads, id).entries == []
      {
        ghost var mid := steps;
        var _ := Seal(full[i], WritesOf(blocks, full[i]));
        ExtendsTrans(old(steps), mid, steps);
      }
    }

    method StreamsFor(batch: seq<Log>) returns (streams: seq<nat>)
      requires Valid() && pending.None?
      modifies this`catalog, this`nextId, this`run, this`steps
      ensures Valid() && Extends(old(steps), steps)
      ensures Keeps(old(run), old(steps), run, steps)
      ensures FiledAs(catalog, max, batch, streams)
    {
      hide IsRun, Resolve;
      streams := [];
      for n := 0 to |batch|
        invariant Valid() && Extends(old(steps), steps)
        invariant Keeps(old(run), old(steps), run, steps)
        invariant |streams| == n
        invariant forall i :: 0 <= i < n ==> Resolve(catalog, max, batch[i].labels) == Some(streams[i])
      {
        var id := StreamFor(batch[n]);
        streams := streams + [id];
      }
    }

    // Some head still needs this segment or an earlier one, or it is the one being written.
    ghost predicate Needed(seg: nat)
      reads this
    {
      seg >= cur || exists id :: id in heads && heads[id].entries != [] && heads[id].seg <= seg
    }

    // truncateWAL: drop, one file at a time, the segments before the oldest one any head still needs.
    method TruncateWal()
      requires Valid() && pending.None?
      modifies this`wal, this`run, this`steps
      ensures Valid() && Extends(old(steps), steps)
      ensures Keeps(old(run), old(steps), run, steps)
      ensures forall x :: x in wal <==> x in old(wal) && Needed(x.seg)
    {
      hide IsRun, Enabled, Apply;
      var safe := Safe();
      for seg := 0 to safe
        invariant Valid() && Extends(old(steps), steps)
        invariant Keeps(old(run), old(steps), run, steps)
        invariant forall x :: x in wal <==> x in old(wal) && x.seg >= seg
      {
        RemoveIsStep(Now(), max, seg);
        wal := DropSegment(wal, seg);
        Note(RemoveSegment(seg));
      }
    }

    method Safe() returns (safe: nat)
      ensures safe <= cur
      ensures forall id :: id in heads && heads[id].entries != [] ==> safe <= heads[id].seg
      ensures safe == cur || exists id :: id in heads && heads[id].entries != [] && heads[id].seg == safe
    {
      safe := cur;
      var ids := heads.Keys;
      while ids != {}
        invariant ids <= heads.Keys && safe <= cur
        invariant forall id :: id in heads && id !in ids && heads[id].entries != [] ==> safe <= heads[id].seg
        invariant safe == cur || exists id :: id in heads && heads[id].entries != [] && heads[id].seg == safe
        decreases |ids|
      {
        var id :| id in ids;
        if heads[id].entries != [] && heads[id].seg < safe {
          safe := heads[id].seg;
        }
        ids := ids - {id};
      }
    }

    // sealDay: write one day's block, and once it is durable publish it and empty the head of that day
    // in one step. A write that fails is cut back; a block whose fsync failed may or may not be on disk.
    method SealDay(id: nat, day: int, group: Block, io: BlockIo) returns (ok: bool)
      requires Valid() && pending.None? && IsDayGroup(group, HeadOf(heads, id).entries, day)
      modifies this`chunks, this`limbo, this`heads, this`run, this`steps
      ensures Valid() && Extends(old(steps), steps) && ok == io.Done?
      ensures Keeps(old(run), old(steps), run, steps)
      ensures ok ==> PublishedFrom(old(chunks), old(heads), ChunkKey(id, day), group)
      ensures !ok ==> chunks == old(chunks) && heads == old(heads)
    {
      hide IsRun, Enabled, Apply, IsDayGroup, PublishedFrom;
      var k := ChunkKey(id, day);
      BlockIsStep(Now(), max, k, group);
      limbo := limbo[k := group];
      Note(WriteBlock(k, group));
      if io == WriteFailed {
        LoseIsStep(Now(), max, k);
        limbo := limbo - {k};
        Note(LoseBlock(k));
        return false;
      }
      if io == FsyncFailed {
        return false;
      }
      PublishDay(k);
      return true;
    }

    // The chunk has gained exactly this block and the head has lost exactly that day.
    ghost predicate PublishedFrom(chunks0: map<ChunkKey, seq<Block>>, heads0: map<nat, Head>, k: ChunkKey, group: Block)
      reads this
    {
      var h := HeadOf(heads0, k.stream);
      && chunks == chunks0[k := BlocksOf(chunks0, k) + [group]]
      && heads == heads0[k.stream := Head(Rest(h.entries, k.day), h.seg)]
    }

    method PublishDay(k: ChunkKey)
      requires Valid() && pending.None? && k in limbo && IsDayGroup(limbo[k], HeadOf(heads, k.stream).entries, k.day)
      modifies this`chunks, this`limbo, this`heads, this`run, this`steps
      ensures Valid() && Extends(old(steps), steps)
      ensures Keeps(old(run), old(steps), run, steps)
      ensures PublishedFrom(old(chunks), old(heads), k, old(limbo)[k])
    {
      hide IsRun, Enabled, Apply, IsDayGroup;
      ghost var s := Now();
      var h := HeadOf(heads, k.stream);
      var rest := RestOf(h.entries, k.day);
      chunks, limbo, heads :=
          chunks[k := BlocksOf(chunks, k) + [limbo[k]]], limbo - {k}, heads[k.stream := Head(rest, h.seg)];
      assert Now() == AfterPublish(s, k);
      PublishIsStep(s, max, k);
      Note(Publish(k));
    }

    // seal's loop: entries is the sorted head; days are cut off its front and sealed one by one.
    method SealDays(id: nat, entries: seq<Entry>, io: seq<BlockIo>) returns (ok: bool)
      requires Valid() && pending.None? && InOrder(entries)
      requires multiset(HeadOf(heads, id).entries) == multiset(entries)
      modifies this`chunks, this`limbo, this`heads, this`run, this`steps
      ensures Valid() && Extends(old(steps), steps)
      ensures Keeps(old(run), old(steps), run, steps)
      ensures ok ==> HeadOf(heads, id).entries == []
      ensures OthersKept(old(heads), heads, id) && NewInOrder(old(chunks), chunks)
      ensures (forall d :: d in io ==> d.Done?) ==> ok
    {
      hide IsRun, Enabled, Apply, Extends, DayOf, InOrder, IsDayGroup;
      ExtendsSelf(steps);
      var from, n := 0, 0;
      assert entries[0..] == entries;
      while from < |entries|
        invariant 0 <= from <= |entries|
        invariant Valid() && Extends(old(steps), steps)
        invariant Keeps(old(run), old(steps), run, steps)
        invariant multiset(HeadOf(heads, id).entries) == multiset(entries[from..])
        invariant OthersKept(old(heads), heads, id) && NewInOrder(old(chunks), chunks)
        decreases |entries| - from
      {
        ghost var before, had := steps, chunks;
        var to := DayEnd(entries, from);
        PartInOrder(entries, from, to);
        DayIsGroup(entries, from, to, HeadOf(heads, id).entries);
        var written := SealDay(id, DayOf(entries[from].log.ts), entries[from..to], if n < |io| then io[n] else Done);
        ExtendsTrans(old(steps), before, steps);
        if !written {
          return false;
        }
        OneMoreInOrder(old(chunks), had, ChunkKey(id, DayOf(entries[from].log.ts)), entries[from..to]);
        from, n := to, n + 1;
      }
      assert |HeadOf(heads, id).entries| == |multiset(HeadOf(heads, id).entries)|;
      return true;
    }

    // seal: sort the head, cut it into days, seal each in turn, then truncate the WAL. A failure keeps
    // the days already sealed and leaves the rest in the head. With every write good the head ends empty.
    method Seal(id: nat, io: seq<BlockIo>) returns (ok: bool)
      requires Valid() && pending.None?
      modifies this`chunks, this`limbo, this`heads, this`wal, this`run, this`steps
      ensures Valid() && Extends(old(steps), steps)
      ensures Keeps(old(run), old(steps), run, steps)
      ensures ok ==> HeadOf(heads, id).entries == []
      ensures OthersKept(old(heads), heads, id) && NewInOrder(old(chunks), chunks)
      ensures (forall d :: d in io ==> d.Done?) ==> ok
    {
      hide IsRun, Enabled, Apply, Extends, Sorted;
      ExtendsSelf(steps);
      var h := HeadOf(heads, id).entries;
      if h == [] {
        return true;
      }
      SortedCount(h);
      ok := SealDays(id, Sorted(h), io);
      if ok {
        ghost var before := steps;
        TruncateWal();
        ExtendsTrans(old(steps), before, steps);
      }
    }

    // The process dies and recover runs: the WAL is cut anywhere past what an fsync covered, a block in limbo
    // is there or not, and memory is rebuilt from what is left. Callable in every state, between any two steps.
    method CrashThenRecover(kept: nat, blocks: set<ChunkKey>, segment: nat)
      requires Valid()
      requires CanCut(wal, kept, segment)
      modifies this
      ensures Valid() && Extends(old(steps), steps) && (old(Free(run, steps)) ==> Sound(run, steps))
      ensures acked == old(acked) && pending.None? && kept <= |old(wal)| && wal == old(wal)[..kept]
      ensures catalog == old(catalog)
      ensures chunks == Surviving(old(chunks), old(limbo), blocks) && AreReplayed(heads, wal, catalog, max, chunks)
    {
      ghost var s := Now();
      hide Enabled, Apply, Extends, IdsBelow, Resolve;
      WalFiled(run, steps, max);
      hide IsRun;
      hide CanCut, CanCrash, AfterCrash, AreReplayed, Surviving, IsLastSeq, Free, Sound;
      CutBounds(wal, kept, segment);
      var found := Surviving(chunks, limbo, blocks);
      var number, replayed := Rebuild(wal[..kept], catalog, max, found);
      CutCanCrash(s, kept, blocks, segment, number);
      wal, chunks, limbo, cur, pending, last, heads := wal[..kept], found, map[], segment, None, number, replayed;
      IsAfterCrash(s, Now(), max, kept, blocks);
      CrashIsStep(s, max, kept, blocks, segment, last);
      Note(CrashAndRecover(kept, blocks, segment, last));
    }
  }

  /* Where a log comes to be held twice. */

  lemma DoNotFit(l: Log, m: Log)
    requires |l.body| + MAX_VARINT + |m.body| >= MAX_WAL_RECORD
    ensures !Fits([l, m], 0, 1)
  {
    assert [l, m][0..1] == [l] && [l][..0] == [];
    assert BatchBytes([l]) == |l.body| + MAX_VARINT;
  }

  lemma WholeRecords(recs: seq<WalRecord>)
    ensures recs[..|recs|] == recs
  {
  }

  // Of two logs that do not go into one record, a log that fails at the second leaves the first.
  lemma LeavesFirst(l: Log, m: Log, n: nat)
    requires |l.body| + MAX_VARINT + |m.body| >= MAX_WAL_RECORD && Leaves([l, m], 1, n)
    ensures n == 1
  {
    var batch := [l, m];
    var recs :| IsSplit(recs, batch) && recs != [] && n == |Logged(recs[..if 1 < |recs| then 1 else |recs| - 1])|;
    assert FilledAt(recs, batch, 0);
    assert recs[..0] == [] && Logged([]) == [];
    DoNotFit(l, m);
    hide Fits;
    WholeRecords(recs);
  }

  // A batch of two records whose log fails at the second, the same batch again, a crash: the store holds the
  // first log twice. The resend is what Append does with a batch, short of sealing heads that are full.
  method SentTwice(l: Log, m: Log, max: nat) returns (s: Store, id: nat)
    requires |l.body| + MAX_VARINT + |m.body| >= MAX_WAL_RECORD
    ensures fresh(s) && s.Valid() && Entry(1, l) in s.acked
    ensures Holds(s.Now(), InHead(id, 0), Entry(1, l)) && Holds(s.Now(), InHead(id, 1), Entry(1, l))
  {
    s := FailFirst(l, m, max);
    id := Resend(s, l, m);
  }

  method FailFirst(l: Log, m: Log, max: nat) returns (s: Store)
    requires |l.body| + MAX_VARINT + |m.body| >= MAX_WAL_RECORD
    ensures fresh(s) && s.Valid() && s.pending.None? && s.last == 0 && s.cur == 0 && s.chunks == map[]
    ensures s.limbo == map[]
    ensures s.wal == [WalEntry(0, Entry(1, l), false)]
  {
    hide IsRun, Extends, Free, Sound, Leaves, Numbered;
    s := new Store(max, 0);
    var failed := s.Append([l, m], LogError(1), false, map[]);
    LeavesFirst(l, m, |s.wal|);
  }

  method Resend(s: Store, l: Log, m: Log) returns (id: nat)
    requires s.Valid() && s.pending.None? && s.last == 0 && s.cur == 0 && s.chunks == map[] && s.limbo == map[]
    requires s.wal == [WalEntry(0, Entry(1, l), false)]
    modifies s
    ensures s.Valid() && Entry(1, l) in s.acked
    ensures Holds(s.Now(), InHead(id, 0), Entry(1, l)) && Holds(s.Now(), InHead(id, 1), Entry(1, l))
  {
    hide IsRun, Extends, Free, Sound, IdsBelow, AreReplayed, Resolve;
    var streams := s.FileAndLog([l, m], Good, false);
    assert s.wal == [WalEntry(0, Entry(1, l), true), WalEntry(0, Entry(1, l), true), WalEntry(0, Entry(2, m), true)];
    assert Entry(1 + 0, [l, m][0]) in Numbered(1, [l, m]);
    id := streams[0];
    ghost var wal := s.wal;
    s.CrashThenRecover(3, {}, 0);
    assert wal[..3] == wal && Surviving(map[], map[], {}) == map[];
    TwiceReplayed(wal, s.catalog, s.max, id, Entry(1, l), s.heads);
  }

  lemma TwiceReplayed(wal: seq<WalEntry>, catalog: map<Labels, nat>, max: nat, id: nat, e: Entry, heads: map<nat, Head>)
    requires |wal| == 3 && wal[0].e == e && wal[1].e == e && e.num == 1
    requires Resolve(catalog, max, e.log.labels) == Some(id)
    requires AreReplayed(heads, wal, catalog, max, map[])
    ensures var es := HeadOf(heads, id).entries; |es| >= 2 && es[0] == e && es[1] == e
  {
    assert id in catalog.Values;
    hide Resolve;
    assert SealedTo(BlocksOf(map[], KeyOf(id, e))) == 0;
    TwoUnsealed(wal, catalog, max, map[], id);
  }

  lemma TwoUnsealed(wal: seq<WalEntry>, catalog: map<Labels, nat>, max: nat, chunks: map<ChunkKey, seq<Block>>, id: nat)
    requires |wal| == 3 && Replayable(wal[0], catalog, max, chunks, id) && Replayable(wal[1], catalog, max, chunks, id)
    ensures wal[..2] <= Unsealed(wal, catalog, max, chunks, id)
  {
    hide Resolve, SealedTo;
    assert Unsealed(wal[..1], catalog, max, chunks, id) == wal[..1] by { assert wal[..1][..0] == []; }
    assert wal[..2][..1] == wal[..1];
    assert Unsealed(wal[..2], catalog, max, chunks, id) == wal[..2];
  }

  ghost predicate Replayable(x: WalEntry, catalog: map<Labels, nat>, max: nat, chunks: map<ChunkKey, seq<Block>>,
                             id: nat)
  {
    Resolve(catalog, max, x.e.log.labels) == Some(id) && x.e.num > SealedTo(BlocksOf(chunks, KeyOf(id, x.e)))
  }
}
