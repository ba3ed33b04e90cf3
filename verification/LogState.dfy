/**
 The log store's protocol (internal/logstore/store.go) as a state machine: what
 is durable (stream catalog, write-ahead log, chunk files), what is in memory
 (heads, the sequence counter), and the steps that move entries between them.
 Everything a lock makes atomic is one step; a crash may fall between any two.
 */
module LogState {
  import opened Options

  // A stream's identity: service, source, host, env and status, in that order.
  datatype Labels = Labels(service: string, source: string, host: string, env: string, status: string)

  // A log as the store sees it. `body` is its JSON, of which only the length matters here.
  datatype Log = Log(ts: int, labels: Labels, body: string)

  // A log with the sequence number the WAL gave it.
  datatype Entry = Entry(num: nat, log: Log)

  // An entry as logged: the segment it lies in, and whether an fsync has covered it.
  datatype WalEntry = WalEntry(seg: nat, e: Entry, durable: bool)

  // A stream's unsealed entries in arrival order; `seg` is the segment recorded
  // when the head last became non-empty.
  datatype Head = Head(entries: seq<Entry>, seg: nat)

  type Block = seq<Entry>

  // Days are numbered from the epoch; the source's YYYY-MM-DD names are one to one with them.
  datatype ChunkKey = ChunkKey(stream: nat, day: int)

  datatype Pending = Pending(base: nat, batch: seq<Log>, seg: nat)

  datatype State = State(
    catalog: map<Labels, nat>,
    wal: seq<WalEntry>,
    cur: nat,
    chunks: map<ChunkKey, seq<Block>>,
    limbo: map<ChunkKey, Block>,
    heads: map<nat, Head>,
    last: nat,
    pending: Option<Pending>,
    acked: set<Entry>,   // history: what Append has reported stored
    named: set<Entry>)   // history: the log each number was last given to

  const OVERFLOW_LABEL := "_overflow"
  const DAY_MS := 86_400_000

  function DayOf(ts: int): int {
    ts / DAY_MS
  }

  // A day is a UTC day: 24 hours from midnight, also before the epoch.
  lemma DayIs(ts: int)
    ensures DayOf(ts) * (24 * 60 * 60 * 1000) <= ts < (DayOf(ts) + 1) * (24 * 60 * 60 * 1000)
  {
  }

  function Fold(l: Labels): Labels {
    Labels(OVERFLOW_LABEL, OVERFLOW_LABEL, OVERFLOW_LABEL, l.env, l.status)
  }

  // The stream a log's labels lead to, if the catalog already has it.
  function Resolve(catalog: map<Labels, nat>, max: nat, l: Labels): Option<nat> {
    if l in catalog then Some(catalog[l])
    else if |catalog| >= max && Fold(l) in catalog then Some(catalog[Fold(l)])
    else None
  }

  // The label set streamFor files a log under when Resolve finds none.
  function Target(catalog: map<Labels, nat>, max: nat, l: Labels): Labels {
    if |catalog| >= max then Fold(l) else l
  }

  function HeadOf(heads: map<nat, Head>, id: nat): Head {
    if id in heads then heads[id] else Head([], 0)
  }

  function BlocksOf(chunks: map<ChunkKey, seq<Block>>, k: ChunkKey): seq<Block> {
    if k in chunks then chunks[k] else []
  }

  // st.add: the segment is noted only when the head was empty.
  function AddTo(h: Head, e: Entry, seg: nat): Head {
    Head(h.entries + [e], if h.entries == [] then seg else h.seg)
  }

  // Every log of the batch has its stream.
  predicate AllFiled(catalog: map<Labels, nat>, max: nat, batch: seq<Log>) {
    forall i :: 0 <= i < |batch| ==> Resolve(catalog, max, batch[i].labels).Some?
  }

  function AddAll(heads: map<nat, Head>, catalog: map<Labels, nat>, max: nat, batch: seq<Log>, base: nat,
                  seg: nat): map<nat, Head>
    requires AllFiled(catalog, max, batch)
  {
    if batch == [] then heads
    else
      var n := |batch| - 1;
      var before := AddAll(heads, catalog, max, batch[..n], base, seg);
      var id := Resolve(catalog, max, batch[n].labels).value;
      before[id := AddTo(HeadOf(before, id), Entry(base + n, batch[n]), seg)]
  }

  function WalEntries(base: nat, batch: seq<Log>, seg: nat): (r: seq<WalEntry>)
    ensures |r| == |batch|
    ensures forall i :: 0 <= i < |r| ==> r[i] == WalEntry(seg, Entry(base + i, batch[i]), false)
  {
    seq(|batch|, i requires 0 <= i < |batch| => WalEntry(seg, Entry(base + i, batch[i]), false))
  }

  function Synced(wal: seq<WalEntry>): (r: seq<WalEntry>)
    ensures |r| == |wal|
    ensures forall i :: 0 <= i < |r| ==> r[i] == wal[i].(durable := true)
  {
    seq(|wal|, i requires 0 <= i < |wal| => wal[i].(durable := true))
  }

  // A batch under consecutive numbers.
  function Numbered(base: nat, batch: seq<Log>): set<Entry> {
    set i | 0 <= i < |batch| :: Entry(base + i, batch[i])
  }

  // Numbers above `last` are free to be given again.
  function Spent(named: set<Entry>, last: nat): set<Entry> {
    set e | e in named && e.num <= last
  }

  // The head's entries off the given day: what stays when that day is sealed.
  function Rest(es: seq<Entry>, day: int): (r: seq<Entry>)
    ensures forall e :: e in r <==> e in es && DayOf(e.log.ts) != day
  {
    if es == [] then []
    else
      var n := |es| - 1;
      Rest(es[..n], day) + (if DayOf(es[n].log.ts) != day then [es[n]] else [])
  }

  ghost predicate Distinct(b: seq<Entry>) {
    forall i, j :: 0 <= i < j < |b| ==> b[i].num != b[j].num
  }

  // b is the head's entries of one day, each as often as the head has it, in any order.
  ghost predicate IsDayGroup(b: Block, es: seq<Entry>, day: int) {
    && b != []
    && forall e :: multiset(b)[e] == if DayOf(e.log.ts) == day then multiset(es)[e] else 0
  }

  // The segments before this one hold nothing still in a head.
  ghost predicate SafeToRemove(s: State, seg: nat) {
    && seg < s.cur
    && forall id :: id in s.heads && s.heads[id].entries != [] ==> seg < s.heads[id].seg
  }

  function DropSegment(wal: seq<WalEntry>, seg: nat): (r: seq<WalEntry>)
    ensures forall x :: x in r <==> x in wal && x.seg != seg
  {
    if wal == [] then []
    else
      var n := |wal| - 1;
      DropSegment(wal[..n], seg) + (if wal[n].seg != seg then [wal[n]] else [])
  }

  function LastSeq(b: Block): (m: nat)
    ensures forall e :: e in b ==> e.num <= m
    ensures b != [] ==> exists e :: e in b && e.num == m
    ensures b == [] ==> m == 0
  {
    if b == [] then 0
    else
      var n := |b| - 1;
      var m := LastSeq(b[..n]);
      assert b[n] in b;
      assert forall e :: e in b[..n] ==> e in b;
      assert forall e :: e in b ==> e in b[..n] || e == b[n];
      if b[n].num > m then b[n].num else m
  }

  // recover's sealed[stream, day]: the highest sequence number in any block of the chunk.
  function SealedTo(bs: seq<Block>): (m: nat)
    ensures forall i, e :: 0 <= i < |bs| && e in bs[i] ==> e.num <= m
    ensures m > 0 ==> exists i, e :: 0 <= i < |bs| && e in bs[i] && e.num == m
  {
    if bs == [] then 0
    else
      var n := |bs| - 1;
      var m := SealedTo(bs[..n]);
      var l := LastSeq(bs[n]);
      assert m > 0 ==> exists i, e :: 0 <= i < |bs| && e in bs[i] && e.num == m by {
        if m > 0 {
          var i, e :| 0 <= i < n && e in bs[..n][i] && e.num == m;
          assert e in bs[i];
        }
      }
      if l > m then l else m
  }

  function KeyOf(id: nat, e: Entry): ChunkKey {
    ChunkKey(id, DayOf(e.log.ts))
  }

  // What recover replays into stream id's head, in WAL order.
  function Unsealed(wal: seq<WalEntry>, catalog: map<Labels, nat>, max: nat, chunks: map<ChunkKey, seq<Block>>,
                    id: nat): (r: seq<WalEntry>)
    ensures forall x :: x in r <==>
      x in wal && Resolve(catalog, max, x.e.log.labels) == Some(id) &&
          x.e.num > SealedTo(BlocksOf(chunks, KeyOf(id, x.e)))
  {
    if wal == [] then []
    else
      var n := |wal| - 1;
      var x := wal[n];
      Unsealed(wal[..n], catalog, max, chunks, id) +
        (if Resolve(catalog, max, x.e.log.labels) == Some(id) && x.e.num > SealedTo(BlocksOf(chunks, KeyOf(id, x.e)))
         then [x] else [])
  }

  function Bodies(xs: seq<WalEntry>): (r: seq<Entry>)
    ensures |r| == |xs|
    ensures forall i :: 0 <= i < |r| ==> r[i] == xs[i].e
  {
    seq(|xs|, i requires 0 <= i < |xs| => xs[i].e)
  }

  function ReplayedHead(wal: seq<WalEntry>, catalog: map<Labels, nat>, max: nat, chunks: map<ChunkKey, seq<Block>>,
                        id: nat): Head {
    var xs := Unsealed(wal, catalog, max, chunks, id);
    Head(Bodies(xs), if xs == [] then 0 else xs[0].seg)
  }

  function ReplayedHeads(wal: seq<WalEntry>, catalog: map<Labels, nat>, max: nat,
                         chunks: map<ChunkKey, seq<Block>>): map<nat, Head> {
    map id | id in catalog.Values :: ReplayedHead(wal, catalog, max, chunks, id)
  }

  // The sequence counter after recovery: the highest number in any block or WAL entry that is left.
  ghost predicate IsLastSeq(q: nat, wal: seq<WalEntry>, chunks: map<ChunkKey, seq<Block>>) {
    && (forall x :: x in wal ==> x.e.num <= q)
    && (forall k, i, e :: k in chunks && 0 <= i < |chunks[k]| && e in chunks[k][i] ==> e.num <= q)
    && (q > 0 ==>
          || (exists x :: x in wal && x.e.num == q)
          || (exists k, i, e :: k in chunks && 0 <= i < |chunks[k]| && e in chunks[k][i] && e.num == q))
  }

  // The chunk files a crash leaves: a block not yet acknowledged by fsync is there or not.
  function Surviving(chunks: map<ChunkKey, seq<Block>>, limbo: map<ChunkKey, Block>,
                     kept: set<ChunkKey>): map<ChunkKey, seq<Block>>
  {
    map k | k in chunks.Keys + (limbo.Keys * kept) ::
      if k in limbo && k in kept then BlocksOf(chunks, k) + [limbo[k]] else BlocksOf(chunks, k)
  }

  /* The steps. */

  datatype Step =
    | CreateStream(labels: Labels, id: nat)             // streamFor, not found: a catalog row
    | LogBatch(batch: seq<Log>, roll: bool)             // wal.Log, then the numbers are spent
    | LogFailed(left: seq<Log>, roll: bool)             // wal.Log fails; the records before the bad one stay
    | SyncFailed                                        // Append returns an error
    | Acknowledge                                       // fsync succeeded, heads filled, nil returned
    | WriteBlock(key: ChunkKey, block: Block)           // appendBlock's write
    | Publish(key: ChunkKey)                            // fsync succeeded: publish and empty, in one step
    | LoseBlock(key: ChunkKey)                          // a failed write cut back, or a footer over it
    | RemoveSegment(seg: nat)                           // one file of truncateWAL
    | CrashAndRecover(kept: nat, blocks: set<ChunkKey>, cur: nat, last: nat)

  ghost predicate CanCrash(s: State, kept: nat, blocks: set<ChunkKey>, cur: nat, last: nat) {
    && kept <= |s.wal|
    && (forall i :: kept <= i < |s.wal| ==> !s.wal[i].durable)
    && (forall i :: 0 <= i < kept ==> s.wal[i].seg <= cur)
    && IsLastSeq(last, s.wal[..kept], Surviving(s.chunks, s.limbo, blocks))
  }

  ghost predicate Enabled(s: State, max: nat, step: Step) {
    match step
    case CreateStream(l, id) => s.pending.None? && Resolve(s.catalog, max, l).None? && id !in s.catalog.Values
    case LogBatch(batch, _) => s.pending.None? && batch != [] && AllFiled(s.catalog, max, batch)
    case LogFailed(left, _) => s.pending.None? && AllFiled(s.catalog, max, left)
    case SyncFailed => s.pending.Some?
    case Acknowledge => s.pending.Some? && AllFiled(s.catalog, max, s.pending.value.batch)
    case WriteBlock(k, b) => s.pending.None? && IsDayGroup(b, HeadOf(s.heads, k.stream).entries, k.day)
    case Publish(k) => s.pending.None? && k in s.limbo &&
         IsDayGroup(s.limbo[k], HeadOf(s.heads, k.stream).entries, k.day)
    case LoseBlock(k) => true
    case RemoveSegment(seg) => s.pending.None? && SafeToRemove(s, seg)
    case CrashAndRecover(kept, blocks, cur, last) => CanCrash(s, kept, blocks, cur, last)
  }

  function AfterLog(s: State, batch: seq<Log>, seg: nat): State {
    s.(wal := s.wal + WalEntries(s.last + 1, batch, seg), cur := seg, last := s.last + |batch|,
       named := Spent(s.named, s.last) + Numbered(s.last + 1, batch), pending := Some(Pending(s.last + 1, batch, seg)))
  }

  // Log returns its error before Append moves the counter: whatever it left keeps numbers not yet spent.
  function AfterFailedLog(s: State, left: seq<Log>, seg: nat): State {
    s.(wal := s.wal + WalEntries(s.last + 1, left, seg), cur := seg,
       named := if left == [] then s.named else Spent(s.named, s.last) + Numbered(s.last + 1, left))
  }

  function AfterAck(s: State, max: nat, p: Pending): State
    requires AllFiled(s.catalog, max, p.batch)
  {
    s.(wal := Synced(s.wal), pending := None,
       heads := AddAll(s.heads, s.catalog, max, p.batch, p.base, p.seg), acked := s.acked + Numbered(p.base, p.batch))
  }

  function AfterPublish(s: State, k: ChunkKey): State
    requires k in s.limbo
  {
    var h := HeadOf(s.heads, k.stream);
    s.(chunks := s.chunks[k := BlocksOf(s.chunks, k) + [s.limbo[k]]], limbo := s.limbo - {k},
       heads := s.heads[k.stream := Head(Rest(h.entries, k.day), h.seg)])
  }

  // The durable part that survives, and the memory recover rebuilds from it.
  function AfterCrash(s: State, max: nat, kept: nat, blocks: set<ChunkKey>, cur: nat, last: nat): State
    requires kept <= |s.wal|
  {
    var wal, chunks := s.wal[..kept], Surviving(s.chunks, s.limbo, blocks);
    State(s.catalog, wal, cur, chunks, map[], ReplayedHeads(wal, s.catalog, max, chunks), last, None, s.acked, s.named)
  }

  ghost function Apply(s: State, max: nat, step: Step): State
    requires Enabled(s, max, step)
  {
    match step
    case CreateStream(l, id) => s.(catalog := s.catalog[Target(s.catalog, max, l) := id])
    case LogBatch(batch, roll) => AfterLog(s, batch, if roll then s.cur + 1 else s.cur)
    case LogFailed(left, roll) => AfterFailedLog(s, left, if roll then s.cur + 1 else s.cur)
    case SyncFailed => s.(pending := None)
    case Acknowledge => AfterAck(s, max, s.pending.value)
    case WriteBlock(k, b) => s.(limbo := s.limbo[k := b])
    case Publish(k) => AfterPublish(s, k)
    case LoseBlock(k) => s.(limbo := s.limbo - {k})
    case RemoveSegment(seg) => s.(wal := DropSegment(s.wal, seg))
    case CrashAndRecover(kept, blocks, cur, last) => AfterCrash(s, max, kept, blocks, cur, last)
  }

  const EMPTY := State(map[], [], 0, map[], map[], map[], 0, None, {}, {})

  // run[0] is the empty store and every state follows from the one before by a step.
  ghost predicate IsRun(run: seq<State>, steps: seq<Step>, max: nat) {
    && |run| == |steps| + 1
    && run[0] == EMPTY
    && forall i :: 0 <= i < |steps| ==> Enabled(run[i], max, steps[i]) && run[i + 1] == Apply(run[i], max, steps[i])
  }

  // The step adds records to the WAL.
  predicate Records(step: Step) {
    step.LogBatch? || (step.LogFailed? && step.left != [])
  }

  // No record in the WAL has a number above the counter: the next number is not in use.
  ghost predicate NextIsFree(s: State) {
    forall x :: x in s.wal ==> x.e.num <= s.last
  }

  // The first n steps add records only where the next number is free. It is not after a failed wal.Log
  // that left a record, until a recovery moves the counter past it or its segment is removed.
  ghost predicate NumbersFree(run: seq<State>, steps: seq<Step>, n: nat)
    requires n <= |steps| < |run|
  {
    forall i :: 0 <= i < n && Records(steps[i]) ==> NextIsFree(run[i])
  }
}
