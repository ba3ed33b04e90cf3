# ozymandias: storage and aggregation engines in Dafny

A Dafny model of the parts of ozymandias that carry whole-run guarantees, with
proofs of those guarantees. `dafny verify dfyconfig.toml` checks everything.

- **Log store.** `LogState` is the WAL, head and block protocol as a state
  machine: append, failed log, failed fsync, seal day by day, WAL truncation,
  and a crash at any point followed by recovery. `LogDurability` proves what every step
  keeps and, for every run, that nothing acknowledged is lost; `LogOnce` that nothing is held
  twice, and exactly when numbers stay unique. `LogStore` is the store as a class whose
  methods have the loops of the source and move only along that machine's steps.
  `LogSearch` and `LogMerge` are one page of a search, the lazy budgeted
  merge; `LogPaging` follows cursors from page to page, and `LogView` joins the two
  halves: pages read from a live store.
  `Bytes`, `LogCodec` and `LogChunk` are the encodings and the chunk file;
  `Bloom` is the filter that lets a search skip a block.
- **Sketches.** `Histogram` says what a folding dense store means, independent of
  history; `SketchBins` is the store that grows, folds and merges; `SketchRank` is
  order statistics, powers and the error bound; `SketchOrder` says which sample a quantile
  asks for, by weights, by counting and by sorting; `Sketch` is the sketch and its
  quantile; `SketchWire` the wire form. `SketchCodec` and `SketchStore` are the
  stored form and the store.
- **Trace store.** `TraceClaims` is the claim protocol of concurrent appends as a
  state machine over their interleaved steps, `TraceEdges` what becomes of the service-map
  edges, and `TraceLooks` how a lookup's answer decides it. `TraceKeys` is the key layout,
  `TraceSearch` the merge and its cursors.
- **Agent.** `ZeroFill` is the walk of a counter's zero-fill cursor, in one flush and over
  all of them; `Aggregator` is one context with its buckets, that cursor and the shared
  watermark; `SelfMetrics` is the registry and reporter of one counter, and the restart rule.

`Options` is the type of a value that may be missing.

Conventions. A class keeps ghost fields for history (what was acknowledged, what
was emitted, what samples a sketch stands for); `Valid` ties them to the real fields.
A method may be called in any state in which its `requires` holds, so
what `Valid` says is an invariant of every order of calls. Times, counts and
weights are unbounded integers and exact reals; 64-bit wrap-around is written out
where the encodings rely on it. Hashes, checksums, zstd, the logarithm, JSON and
the bits of a float are parameters. What I/O does (a write or an fsync that fails,
a crash) is a parameter or a step. container/heap is modelled by its contract: the
least element comes first.

## Findings

- A `wal.Log` that fails after writing some records of a batch leaves those records
  in the segment: only the half-written one is cut off, and Append returns before
  the sequence counter moves. If the next batch is logged before a recovery, it is given the
  same numbers. Nothing acknowledged is lost by that, in any run (`LogDurability.NeverLost`),
  but a log can come to be held twice: `LogOnce.HeldTwice` is a run of five steps, and
  `LogStore.SentTwice` such a run of the store, with a batch of two records. Numbers stay
  unique in the WAL if and only if no step adds records while one lies above the counter
  (`LogOnce.UniqueIff`), and then nothing is held twice (`LogOnce.ExactlyOnce`).
  `LogStore.Store.Append` keeps to that for every batch of one WAL record, that is, within
  8 MiB; so does a larger one unless its log fails, and a recovery restores it.
- A search page stopped by the scan budget before it examined anything resumes
  at the edge of the block it stopped at, which can lie behind the cursor it was given. The
  pages of a session are in order and repeat nothing if and only if every page that starts
  behind a log already returned returns none (`LogPaging.OrderedIff`). A budget that does not
  grow is enough, because the same blocks stop every later page (`LogPaging.TightIsSteady`);
  with a larger budget later on a log is returned twice (`LogPaging.RepeatsIfBudgetGrows`).
- A block of more than 2^22 tiny entries can be encoded and is then refused by
  the decoder: `LogCodec.BlockBack` is an equivalence, and `LogCodec.TooMany` such a block. The
  store does not write one: its bodies are JSON objects, of two bytes at least, and 16 MiB holds
  fewer of those (`LogCodec.JsonBlockBack`).
- A block whose fsync failed stays in the chunk file past its end. A footer written over it
  may not reach the end of the file, and a reader does not find it: it is found if and only if
  the stale bytes do not reach past it (`LogChunk.FooterFoundIff`, `LogChunk.BuriedFooter`).
  The blocks are not lost: the walk finds them, whatever follows (`LogChunk.WalkFinds`).
- In the trace search, two pairs' entries with one (start, trace, span) suffix are told
  apart only within a page: a cursor between them skips one (`TraceSearch.SharedSuffixLost`).
  A finished session returned everything if and only if no cursor had the key of an entry still
  to be returned (`TraceSearch.PagesCoverIff`); unique suffixes are enough.
- A lookup that fails is taken for an absent key. On a stored key it books the edge again
  (`TraceEdges.EdgeTwice`). Every edge is booked by the commit that first stored its key if and
  only if no call that commits has had a lookup fail on a stored key whose span names a parent
  (`TraceEdges.BookedFirstIff`). What Append's nil promises does not depend on it
  (`TraceClaims.NilMeansStored`).

## Model

| member | source | states |
|---|---|---|
| LogDurability.ResolveStable | internal/logstore/store.go:398-429 | The stream a log's labels lead to never changes: not when another stream is created, not when the stream limit folds it into the overflow stream. |
| LogDurability.CreateStreamKeeps | internal/logstore/store.go:398-429 | Creating a stream keeps the invariant of the protocol. |
| LogDurability.LogBatchKeeps | internal/logstore/store.go:531-551 | Logging a batch under the next numbers keeps the invariant. |
| LogDurability.LogFailedKeeps | internal/logstore/store.go:542-544 | A failed log keeps the invariant, whatever records it leaves. |
| LogDurability.SyncFailedKeeps | internal/logstore/store.go:551-556 | A failed fsync keeps the invariant; the numbers stay spent. |
| LogDurability.AcknowledgeKeeps | internal/logstore/store.go:551-563 | Filling the heads and acknowledging keeps the invariant: every log of the batch is stored. |
| LogDurability.WriteBlockKeeps | internal/logstore/store.go:628-640 | Writing a day's block, not yet durable, keeps the invariant. |
| LogDurability.LoseBlockKeeps | internal/logstore/chunk.go:524-531 | Losing a block that was not acknowledged keeps the invariant. |
| LogDurability.PublishKeeps | internal/logstore/store.go:641-655 | Publishing a block and emptying the head of that day in one step keeps the invariant: nothing lost. |
| LogDurability.RemoveSegmentKeeps | internal/logstore/store.go:705-717 | Dropping a segment no head needs keeps the invariant. |
| LogDurability.CrashKeeps | internal/logstore/store.go:274-371 | A crash at any point and recovery keep the invariant. |
| LogDurability.CrashStored | internal/logstore/store.go:284-371 | Every acknowledged log is still stored after a crash: replayed into its own stream's head, or already in a block; the per-day LastSeq test is exact. |
| LogDurability.ReplayHead | internal/logstore/store.go:339-369 | What replay rebuilds is a well-formed head: its own stream's entries, all still in the WAL, in no segment before the one it notes. |
| LogDurability.PublishStored | internal/logstore/store.go:585-601 | An entry stored before a publish is stored after it. |
| LogDurability.AddAllHead | internal/logstore/store.go:558-563 | A head after a batch is the head before followed by that stream's share of the batch, with the segment noted only when it was empty. |
| LogDurability.StepKeeps | internal/logstore/store.go:119-135 | Every step of the protocol keeps the invariant. |
| LogDurability.RunKeeps | internal/logstore/store.go:119-135 | Every state of every run satisfies the invariant. |
| LogDurability.NeverLost | internal/logstore/store.go:119-135 | In every run, whatever failed and wherever it crashed, each acknowledged log is held, unchanged, and everything held is in its own stream's head or in a block of its own stream and day. |
| LogDurability.NeverForgotten | internal/logstore/store.go:495-499 | What was acknowledged stays acknowledged through every later step. |
| LogOnce.LogOnceKeeps | internal/logstore/store.go:529-550 | Logging where the next number is free keeps every number on one log. |
| LogOnce.AcknowledgeOnce | internal/logstore/store.go:551-563 | So does acknowledging: heads stay in order. |
| LogOnce.PublishOnce | internal/logstore/store.go:641-655 | So does publishing: the new block repeats nothing and is later than the chunk's earlier ones. |
| LogOnce.RemoveSegmentOnce | internal/logstore/store.go:705-717 | So does dropping a segment: it takes every record a failed log left, or none. |
| LogOnce.CrashOnce | internal/logstore/store.go:274-371 | So do a crash and recovery: nothing is both replayed and in a surviving block. |
| LogOnce.UniqueIff | internal/tsdb/wal/wal.go:161-211 | Over every run, numbers stay unique in the WAL if and only if records are only added while none lies above the counter. |
| LogOnce.HeldOnce | internal/logstore/store.go:119-135 | A number is in one place, under one log. |
| LogOnce.ExactlyOnce | internal/logstore/store.go:119-135 | In every run in which records were added only where the next number was free, each acknowledged log is in exactly one place, its own, and nothing the store holds is there twice. |
| LogOnce.HeldTwice | internal/tsdb/wal/wal.go:161-211 | For any log, a run that breaks this: its log fails and leaves it, it is sent again and acknowledged, a crash, and the store holds it twice. |
| LogStore.SortedCount | internal/logstore/store.go:606-612 | The sorted head is a permutation of the head. |
| LogStore.RecordEnd | internal/logstore/store.go:533-538 | A record takes one log and then as many as fit, no fewer; starting at the front of a batch within the record size, all of it. |
| LogStore.SplitRecords | internal/logstore/store.go:529-541 | The records cover the batch exactly, in order, numbered consecutively, each with as many logs as fit; a batch within the record size is one record. |
| LogStore.LogRecords | internal/tsdb/wal/wal.go:137-181 | The records' entries go one after another into one segment, with consecutive numbers. |
| LogStore.LogSome | internal/tsdb/wal/wal.go:161-211 | A log that fails at a record leaves the entries of the records before it, never of the last; of a batch of one record, none. |
| LogStore.DayEnd | internal/logstore/store.go:614-618 | The longest run of entries on one day. |
| LogState.DayIs | internal/logstore/store.go:583-583 | A day is the 24 hours of milliseconds from a midnight, also before the epoch. |
| LogStore.DayIsGroup | internal/logstore/store.go:613-624 | The run cut off the sorted head is exactly the head's entries of that day, each as often. |
| LogStore.RestOf | internal/logstore/store.go:643-651 | The rebuilt head is the head without that day, in order. |
| LogStore.Replay | internal/logstore/store.go:337-369 | Each head is its stream's WAL entries above what its day's chunk already holds, in WAL order. |
| LogStore.LastNumber | internal/logstore/store.go:325-352 | The counter is the highest number in any block or WAL entry. |
| LogStore.Rebuild | internal/logstore/store.go:274-371 | Recovery's counter and heads are those the protocol's crash step prescribes. |
| LogStore.WalFiled | internal/logstore/store.go:339-369 | Every log in the WAL of a reachable state has its stream, so replay creates none. |
| LogStore.Store.constructor | internal/logstore/store.go:215-265 | A new store is the empty state of the protocol. |
| LogStore.Store.StreamFor | internal/logstore/store.go:398-429 | The stream the labels resolve to. A new one gets a fresh number, under the labels themselves while there is room and under the overflow labels of their env and status after that; streams resolved before stay. |
| LogStore.Store.StreamsFor | internal/logstore/store.go:520-527 | Every log of the batch has its stream. |
| LogStore.Store.FillHeads | internal/logstore/store.go:556-563 | Each log ends in its own stream's head, in batch order. |
| LogStore.Store.LogPhase | internal/logstore/store.go:529-550 | The batch is in the WAL and its numbers are spent: one step of the protocol. |
| LogStore.Store.FailPhase | internal/logstore/store.go:542-544 | The records before the failing one stay and no number is spent; after a batch of one record the next number is still free. |
| LogStore.Store.AckPhase | internal/logstore/store.go:551-563 | The batch is acknowledged under its numbers, and each head has gained its stream's logs: one step of the protocol. |
| LogStore.Store.LogAndSync | internal/logstore/store.go:529-563 | What is in the WAL, what is in the heads, what is acknowledged and which numbers are spent, in each of the three outcomes of log and fsync. |
| LogStore.Store.Append | internal/logstore/store.go:499-581 | Success exactly when the batch is durable; then every log of it is acknowledged under the next numbers, whatever becomes of the seals. Each head gains its stream's logs in order; a stream of the batch whose entries then hold the block size or more, bodies and sixteen bytes each, ends empty if its writes go well, and every other head stays as filled. Only protocol steps are taken, and the next number is free again unless the log of a larger batch failed. |
| LogStore.HeadBytesHeld | internal/logstore/store.go:556-563 | The running size of a head is the sum over its entries of the body and sixteen bytes. |
| LogStore.Store.Full | internal/logstore/store.go:565-572 | Exactly the streams among these whose heads hold the block size or more. |
| LogStore.Store.SealFull | internal/logstore/store.go:565-580 | A stream named whose head holds the block size or more is empty afterwards if its writes go well; every other head is as it was, whatever fails; only protocol steps are taken. |
| LogStore.Store.SealDay | internal/logstore/store.go:628-657 | A good write publishes exactly this block and removes exactly that day from the head; a bad one changes neither. |
| LogStore.Store.PublishDay | internal/logstore/store.go:641-655 | The chunk gains the block and the head loses the day in one step. |
| LogStore.Store.SealDays | internal/logstore/store.go:613-624 | With every write good the head ends empty; a failure keeps the days already sealed; no other head changes, and every block added is in order of time, then number. |
| LogStore.Store.Seal | internal/logstore/store.go:602-626 | Sealing, complete or broken off between days, takes only protocol steps; with every write good the head ends empty, no other head changes, and every block added is in order of time, then number. |
| LogStore.Store.Safe | internal/logstore/store.go:707-715 | The oldest segment any head still needs. |
| LogStore.Store.TruncateWal | internal/logstore/store.go:705-717 | Exactly the entries of segments before every head's and before the current one are dropped. |
| LogStore.Store.CrashThenRecover | internal/logstore/store.go:274-371 | From any reachable state, recovery from any cut of the WAL past what an fsync covered, with any unacknowledged block there or not, is the protocol's crash step; nothing acknowledged is forgotten, and the next number is free. |
| LogStore.SentTwice | internal/logstore/store.go:529-550 | Two logs too large for one record, logged with a failure at the second record, sent again and acknowledged, a crash: the store holds the first twice. |
| LogSearch.SortEntries | internal/logstore/search.go:426-431 | Sorted in search order, same entries. |
| LogSearch.SortRuns | internal/logstore/search.go:298-303 | Runs by the edge at which they are reached, same runs. |
| LogSearch.InRange | internal/logstore/search.go:126-131 | Exactly the head's entries in the time range. |
| LogSearch.HeadRun | internal/logstore/search.go:132-135 | A head's run has true bounds. |
| LogSearch.Snapshot | internal/logstore/search.go:90-149 | The runs hold every entry of the store in the range and all blocks that touch it, each entry once. |
| LogMerge.OrderedFiltered | internal/logstore/search.go:407-433 | A run's entries in the range and strictly past the cursor, in search order. |
| LogMerge.Least | internal/logstore/search.go:435-462 | The top of the heap is the earliest entry in hand. |
| LogMerge.DecodeNext | internal/logstore/search.go:326-357 | Decoding one run keeps the merge and budget invariants, or stops at a block that does not fit. |
| LogMerge.Fill | internal/logstore/search.go:320-358 | When it is done, no undecoded run can hold anything earlier than the best entry in hand. |
| LogMerge.Examine | internal/logstore/search.go:362-384 | Taking the best entry keeps the output an ordered prefix of what is wanted. |
| LogMerge.StopPage | internal/logstore/search.go:386-394 | A page cut by the budget resumes at the last entry examined, or at the stopping block's edge. |
| LogMerge.Merge | internal/logstore/search.go:319-395 | The whole loop returns a page that keeps the page promise. |
| LogMerge.Search | internal/logstore/search.go:263-396 | The page promise: at most n logs, n being 100 by default and never over 10,000, in order, all wanted and past the cursor; exactly n if a wanted log is missing and the budget, 2 GiB by default, did not cut the page; what is missing lies past the new cursor; no cursor means nothing is missing; a page is cut only if the blocks in range exceed the budget; and exactly when the budget stops a page before it moves. |
| LogPaging.PastEdge | internal/logstore/search.go:339-344 | The entries past a stop edge are exactly those not short of it. |
| LogPaging.AdvanceKeeps | internal/logstore/search.go:386-394 | A page that starts at or past everything returned keeps the session invariant: no repeat, no skip. |
| LogPaging.EmptyKeeps | internal/logstore/search.go:334-345 | A page without logs keeps it too, wherever it started: its cursor is before everything still to come. |
| LogPaging.StuckKeeps | internal/logstore/search.go:334-345 | After a cursor went back, every later page under a budget no larger is stopped by the same blocks and returns nothing. |
| LogPaging.SessionKeeps | internal/logstore/search.go:275-290 | Every steady session, one in which a page from behind a returned log returns none, keeps the invariant. |
| LogPaging.PageIsSorted | internal/logstore/search.go:298-385 | The lazy merge refines sorting: a page is a prefix of the sorted, filtered answer past the cursor, its first `limit` entries unless the budget cut it, with a cursor exactly when more is left. |
| LogPaging.PagesArePrefix | internal/logstore/search.go:275-290 | Paging safety: in either order, whatever happens to the store between pages and however the budget cuts them, the pages of a steady session end to end repeat nothing and hold a prefix of the sorted logs there throughout, all of them once a page has no cursor. |
| LogPaging.OrderedIff | internal/logstore/search.go:275-290 | In a session that loses no log between pages, the pages end to end are in order and without repeats if and only if it is steady. |
| LogPaging.TightIsSteady | internal/logstore/search.go:334-345 | A session whose budget does not grow, and whose published blocks stay, is steady. |
| LogPaging.RepeatsIfBudgetGrows | internal/logstore/search.go:339-346 | A session of three pages with a growing budget that returns a log twice. |
| LogView.ShowsOk | internal/logstore/search.go:90-149 | The heads and blocks of a reachable state, numbers free so far, are a store a page may read: no entry in two runs. |
| LogView.StepKeepsLogs | internal/logstore/store.go:585-601 | Between pages no step but a crash takes a log away. |
| LogView.StepKeepsBlocks | internal/logstore/store.go:585-601 | No step at all changes a published block or takes it away. |
| LogView.RunKeepsLogs | internal/logstore/store.go:585-601 | Over any stretch of any run without a crash, nothing the store holds leaves it, acknowledged or not. |
| LogView.ShownLogs | internal/logstore/search.go:90-149 | Then what a later page reads holds what an earlier one read. |
| LogView.BudgetSteady | internal/logstore/search.go:334-345 | A session over a live store, crashes included, is steady while its budget does not grow. |
| LogView.OrderedOverRun | internal/logstore/search.go:275-290 | Without a crash between the pages, they are in order if and only if the session is steady. |
| LogView.PagesOverRun | internal/logstore/search.go:275-290 | Pages read at successive moments of a run, crashes between them included, hold the beginning of what was there throughout, all of it once a page has no cursor, and that includes every matching log acknowledged before the first page. |
| Bloom.Windows | internal/logstore/bloom.go:103-116 | Every three-byte window of every text is collected. |
| Bloom.SetProbes | internal/logstore/bloom.go:59-74 | A trigram's bits get set and no bit is cleared. |
| Bloom.BuildBloom | internal/logstore/bloom.go:101-128 | Every window of every text is in the filter; its size is within its bounds. |
| Bloom.AskLiteral | internal/logstore/bloom.go:155-163 | True exactly when all windows of the literal may be present. |
| Bloom.Ask | internal/logstore/bloom.go:165-184 | False exactly when every alternative has a literal the filter denies. |
| Bloom.LiteralHeld | internal/logstore/bloom.go:19-32 | A literal that occurs in a text of the block is never denied, whatever the hash. |
| Bloom.SkipIsSafe | internal/logstore/search.go:221-236 | A block ruled out holds no log the query wants. |
| Bloom.SkippedRunOk | internal/logstore/search.go:221-236 | So a run skipped on its filter's word satisfies what search requires of a skipped run. |
| Bytes.DeltaBack | internal/logstore/chunk.go:163-168 | A timestamp delta that wrapped at 64 bits still leads back. |
| Bytes.SeqDeltaBack | internal/logstore/chunk.go:163-168 | So does a sequence number's. |
| Bytes.UvarintBack | internal/logstore/store.go:454-467 | Reading an unsigned varint undoes writing it, whatever follows. |
| Bytes.VarintBack | internal/logstore/chunk.go:163-168 | Reading a zigzag varint undoes writing it. |
| Bytes.PackBack | internal/logstore/chunk.go:232-262 | Reading a record of big-endian fields undoes writing it. |
| LogCodec.FindBounds | internal/logstore/chunk.go:157-160 | The least and greatest timestamp and the highest number, each attained. |
| LogCodec.EncodeRaw | internal/logstore/chunk.go:161-171 | The loop writes the entries one after the other. |
| LogCodec.EncodeBlock | internal/logstore/chunk.go:153-183 | A block with true bounds and lengths; refused exactly when empty or too big. |
| LogCodec.DecodeBlock | internal/logstore/chunk.go:185-230 | The decoding loop with all its checks computes the block's entries or none; none unless length and checksum match and raw size and count are within 16 MiB and 2^22, and then as many entries as the header says. |
| LogCodec.EntriesBack | internal/logstore/chunk.go:147-230 | Decoding entries undoes encoding them, in any order of times and numbers. |
| LogCodec.BlockBack | internal/logstore/chunk.go:147-230 | Decoding undoes encoding for every block the encoder makes, if and only if it has no more entries than the decoder takes. |
| LogCodec.TooMany | internal/logstore/chunk.go:147-199 | One entry more than the decoder takes, three bytes each: the encoder makes a block of them and it never decodes. |
| LogCodec.JsonBlockBack | internal/logstore/store.go:439-439 | A block of bodies of two bytes or more, as JSON objects are, always decodes back. |
| LogCodec.EncodeWalRecord | internal/logstore/store.go:452-467 | The record is base, count and length-prefixed bodies. |
| LogCodec.DecodeWalRecord | internal/logstore/store.go:469-493 | The decoding loop with all its checks computes base and bodies or none. |
| LogCodec.WalBack | internal/logstore/store.go:452-493 | Decoding a WAL record undoes encoding it. |
| LogChunk.HeaderBack | internal/logstore/chunk.go:232-262 | Reading a block header undoes writing it, in both versions. |
| LogChunk.WalkBlocks | internal/logstore/chunk.go:360-383 | The walk returns the good blocks up to the first that does not check out, and they tile the file from the header to the end it reports. |
| LogChunk.CutServesPrefix | internal/logstore/chunk.go:33-37 | A chunk cut at any byte is read as exactly the blocks wholly before the cut, up to one beyond the reader's limits. |
| LogChunk.WalkFinds | internal/logstore/chunk.go:360-383 | Whatever follows the last good block, the walk finds the blocks first. |
| LogChunk.ChunkWriter.constructor | internal/logstore/chunk.go:469-481 | A new chunk is its header, magic and version, and no block. |
| LogChunk.ChunkWriter.AppendBlock | internal/logstore/chunk.go:507-534 | A block written and synced is where its header says, whole, after the ones before, which stay; a failed write leaves the file cut back to its last good block, a failed fsync leaves the bytes without the block. |
| LogChunk.ChunkWriter.Seal | internal/logstore/chunk.go:536-545 | Unless stale bytes reach past the footer, a reader finds in it exactly the blocks written, checksums aside, or none if one exceeds its limits; in any case the walk finds them; a failed write leaves the file cut back. |
| LogChunk.IndexBack | internal/logstore/chunk.go:332-346 | Reading an index entry undoes writing it, checksum aside. |
| LogChunk.EncodeIndex | internal/logstore/chunk.go:414-431 | The loop writes one index entry per block. |
| LogChunk.FooterBack | internal/logstore/chunk.go:414-438 | Reading the footer of a sealed chunk yields the written blocks, if and only if they are within the reader's limits. |
| LogChunk.FooterFoundIff | internal/logstore/chunk.go:536-545 | Over a tail that does not itself end like a footer, the footer written is found if and only if nothing reaches past it. |
| LogChunk.BuriedFooter | internal/logstore/chunk.go:524-545 | A new chunk with a block whose fsync failed, then sealed: the reader finds no footer. |
| LogChunk.ReadFooter | internal/logstore/chunk.go:310-358 | The footer's blocks if it holds together, and then they tile the file up to the index. |
| LogChunk.ReadIndex | internal/logstore/chunk.go:285-308 | Refused exactly for a short file, a bad magic or version; any other bytes yield the footer's blocks or the walk's, and they tile the file from the header to the valid end. |
| LogChunk.ChunkHeaderBack | internal/logstore/chunk.go:469-481 | A reader accepts the header a writer writes and reads the writer's version. |
| LogChunk.Reopen | internal/logstore/chunk.go:285-308 | Sealing a chunk and reading it again reports the writer's blocks, end and version, from the footer unless stale bytes bury it, and at least the blocks from the walk if so. |
| Histogram.PadLow | internal/sketch/store.go:79-105 | Extending downward changes no bucket. |
| Histogram.PadHigh | internal/sketch/store.go:111-124 | Extending upward within the width changes no bucket. |
| Histogram.FoldHigh | internal/sketch/store.go:126-136 | Folding the low end into the new floor leaves each bucket with the weight that belongs there. |
| Histogram.AddOne | internal/sketch/store.go:33-44 | One observation goes to its bucket, or to the floor that absorbs it. |
| Histogram.BucketsWeigh | internal/sketch/store.go:139-162 | Another store's buckets, folded further, weigh what the observations behind them weigh. |
| Histogram.MergedHolds | internal/sketch/store.go:139-162 | A store that took in another's buckets holds both histories. |
| Histogram.MassOrder | internal/sketch/sketch.go:196-202 | A bucket's weight does not depend on the order of the observations. |
| Histogram.SameBins | internal/sketch/sketch.go:196-202 | Stores that saw the same observations, through any adds and merges and any collapsing, have the same top and the same buckets. |
| Histogram.Rebuilt | internal/sketch/bin.go:25-64 | A store filled from another's bins holds what the other saw. |
| SketchBins.Store.Add | internal/sketch/store.go:33-44 | The store has seen one more observation; the top is the largest index seen. |
| SketchBins.Store.Grow | internal/sketch/store.go:46-60 | The index becomes addressable, or is below a floor that absorbs it; nothing seen changes. |
| SketchBins.Store.GrowLow | internal/sketch/store.go:62-106 | So when growing downward, at the width limit too. |
| SketchBins.Store.GrowHigh | internal/sketch/store.go:108-137 | So when growing upward, into spare slots, a larger array or with a fold. |
| SketchBins.Store.Fold | internal/sketch/store.go:126-136 | The loop folds exactly the buckets below the new floor. |
| SketchBins.Store.Highest | internal/sketch/store.go:147-155 | The last non-empty bucket is the top. |
| SketchBins.Store.Merge | internal/sketch/store.go:139-162 | Merging is seeing the other store's observations too, also for a store merged into itself. |
| SketchBins.Store.Bins | internal/sketch/store.go:183-189 | Exactly the non-empty buckets, ascending. |
| SketchRank.EstimateNear | internal/sketch/sketch.go:170-175 | A bucket's estimate is within alpha of every value in the bucket. |
| SketchRank.LogOrder | internal/sketch/sketch.go:149-156 | A larger bucket holds larger values. |
| SketchRank.RankIn | internal/sketch/sketch.go:268-298 | If a walk in value order has seen at most the rank before a group and more after it, the order statistic is in the group. |
| SketchRank.RankExists | internal/sketch/sketch.go:232-240 | There is an order statistic at every rank below the count. |
| SketchRank.AlphaBack | internal/sketch/sketch.go:65-82 | The error bound of a sketch made for alpha is alpha. |
| SketchOrder.Target | internal/sketch/sketch.go:256-266 | The rank looked for is q*(count-1), or 0 where count is below 1, and is below the count, so that a walk always stops. |
| SketchOrder.QuantileRank | internal/sketch/sketch.go:256-266 | A sample is at that rank exactly if it is the order statistic a quantile asks for. |
| SketchOrder.UnitQuantile | internal/sketch/sketch.go:232-240 | With unit weights a sample is the order statistic exactly if at most q*(n-1) samples are below it and more than that up to it. |
| SketchOrder.SortedQuantile | internal/sketch/sketch.go:232-240 | With unit weights it is the entry of the sorted samples at q*(n-1), rounded down. |
| SketchOrder.QuantileMonotone | internal/sketch/sketch.go:232-240 | A greater quantile is at no smaller a sample. |
| Sketch.WalkDown | internal/sketch/sketch.go:268-281 | The negative walk stops in the bucket where the weight seen passes the rank. |
| Sketch.WalkUp | internal/sketch/sketch.go:288-295 | So does the positive walk. |
| Sketch.StopsNegative | internal/sketch/sketch.go:268-284 | A stop in a negative bucket means the order statistic is counted there. |
| Sketch.StopsZero | internal/sketch/sketch.go:285-287 | A stop at the zeros means it is zero. |
| Sketch.StopsPositive | internal/sketch/sketch.go:288-298 | A stop in a positive bucket means it is counted there. |
| Sketch.ClampNear | internal/sketch/sketch.go:305-321 | Clamping an estimate to the observed range takes it no further from the truth. |
| Sketch.OwnCell | internal/sketch/sketch.go:149-169 | A sample within 32 bits and less than 2048 buckets below the others of its sign is counted in the bucket of its own logarithm. |
| Sketch.Sketch.constructor | internal/sketch/sketch.go:89-107 | A new sketch has seen nothing. |
| Sketch.Sketch.AddWithCount | internal/sketch/sketch.go:123-147 | The sketch has seen the sample; refused, without effect, exactly for a weight that is not positive. |
| Sketch.Sketch.Merge | internal/sketch/sketch.go:196-222 | Merging is having seen the other's samples; refused, without effect, exactly for another gamma. |
| Sketch.Sketch.Quantile | internal/sketch/sketch.go:232-303 | Exact at 0 and 1; NaN exactly when nothing was seen. In between, after any adds and merges, the answer is within alpha of the sample below which the others weigh at most q*(count-1) and up to which they weigh more, or the least sample where count is below 1, unless its logarithm is cut to 32 bits or 2048 below another's. With unit weights that is the sample with at most q*(n-1) samples below it and more than that up to it. |
| Sketch.Sketch.Walk | internal/sketch/sketch.go:258-303 | For every rank below the count, the order statistic at that rank is answered for; the final fallback to the maximum is never the answer. |
| Sketch.AnswersAscend | internal/sketch/sketch.go:232-303 | The answer for a greater quantile is never smaller, folded samples included. |
| SketchWire.ToWire | internal/sketch/wire.go:9-28 | The message says exactly what was seen: bins, aggregates, zero for the ends of nothing. |
| SketchWire.SentIsOk | pkg/wire/sketches.go:218-289 | Every message a sketch sends passes the decoder's checks. |
| SketchWire.FromWire | internal/sketch/wire.go:40-75 | Refused exactly when a check fails; a sketch sent comes back as a sketch of the same samples, so nothing collapsed on the way. |
| SketchWire.SameWire | internal/sketch/sketch.go:196-202 | Sketches that saw the same samples, in any order and through any merges and wire trips, send the same message. |
| SketchWire.MergeOrder | internal/sketch/sketch.go:196-202 | So merging is commutative and associative. |
| SketchCodec.AppendBins | internal/sketchstore/encode.go:114-135 | The loops write flag, count and buckets, whole counts packed exactly when all are whole. |
| SketchCodec.ReadBins | internal/sketchstore/encode.go:177-228 | The reading loop with all its checks computes the buckets and the rest, or none. |
| SketchCodec.BinsBack | internal/sketchstore/encode.go:114-228 | Reading buckets undoes writing them, whatever follows, for counts that are whole or floats. |
| SketchCodec.PayloadBack | internal/sketchstore/encode.go:92-175 | Decoding a payload of floats undoes encoding it. |
| SketchCodec.TicksAreFloats | internal/sketchstore/encode.go:100-112 | There is an eight-byte encoding of enough numbers, fractions and negatives among them, that meets what is asked of floats. |
| SketchCodec.StoredIsWire | internal/sketchstore/encode.go:92-175 | A stored sketch comes back as the same message, which the decoder accepts. |
| SketchStore.EncodePoints | internal/sketchstore/sketchstore.go:313-339 | For each second, cut to 32 bits, the last of its points, under the series' id, and nothing else; none if a point cannot be encoded. |
| SketchStore.Store.constructor | internal/sketchstore/sketchstore.go:166-204 | An empty store. |
| SketchStore.Store.TryEntry | internal/sketchstore/sketchstore.go:272-296 | An entry goes into the batch whole, its points over the batch's, under an id held for its own key; refused only if invalid, clashing or not encodable. |
| SketchStore.Store.Prepare | internal/sketchstore/sketchstore.go:257-299 | Under each key the batch holds the last point of the last entry taken that has one there, and nothing else; every entry is taken whole or rejected for a reason. |
| SketchStore.Store.Commit | internal/sketchstore/sketchstore.go:300-302 | All of the batch or nothing; every stored point's series has an index entry. |
| SketchStore.Store.Learn | internal/sketchstore/sketchstore.go:303-307 | Memory learns the new ids. |
| SketchStore.Store.Truncate | internal/sketchstore/sketchstore.go:456-530 | Exactly the points older than the cutoff second go, then exactly the series left empty; stopped between the two commits, points still imply an index entry. |
| SketchStore.Store.Crash | internal/sketchstore/sketchstore.go:207-228 | After a crash at any point memory is the index again. |
| TraceClaims.ReserveKeeps | internal/tracestore/store.go:290-317 | Reserving, deferring to a claimant or passing over an own key keeps the invariant of the protocol. |
| TraceClaims.LookKeeps | internal/tracestore/store.go:318-360 | A lookup, failed or not, keeps the invariant: what was found stored is. A missing key with a parent has its edge in the batch if the parent's service is known and among those to park if not, and nothing about other keys changes. |
| TraceEdges.TakeEdges | internal/tracestore/store.go:368-377 | Taking parked edges keeps every edge in one place. |
| TraceClaims.CommitKeeps | internal/tracestore/store.go:378-398 | The atomic commit keeps the invariant: each key has one first commit. |
| TraceEdges.CommitEdges | internal/tracestore/store.go:378-398 | A commit without an edge for a stored key books the edge of each new key whose span names a parent, once, and moves the taken ones into the service map. |
| TraceClaims.CallStays | internal/tracestore/store.go:385-397 | A failed commit or earlier error return keeps the call's claims until it releases them. |
| TraceEdges.PutBackEdges | internal/tracestore/store.go:388-396 | Parking taken edges again, as far as the bound allows, keeps every edge in one place. |
| TraceEdges.AbortEdges | internal/tracestore/store.go:260-280 | So does any earlier error return. |
| TraceClaims.ReleaseKeeps | internal/tracestore/store.go:247-260 | Releasing lets go of exactly the call's own keys. |
| TraceEdges.ParkEdges | internal/tracestore/edges.go:133-151 | Parking after the commit moves edges, it does not copy them. |
| TraceClaims.CheckKeeps | internal/tracestore/store.go:408-420 | A receive from a deferred claim passes only if its claimant committed. |
| TraceEdges.ExpireEdges | internal/tracestore/edges.go:169-188 | Expiry gives edges up, once. |
| TraceClaims.CrashKeeps | internal/tracestore/store.go:203-209 | A crash keeps the invariant. |
| TraceEdges.CrashEdges | internal/tracestore/store.go:203-209 | After a crash, what was committed stays counted once. |
| TraceClaims.RunKeeps | internal/tracestore/store.go:290-326 | Every state of every interleaving satisfies the invariant. |
| TraceEdges.EdgesOnce | internal/tracestore/store.go:203-209 | Over every interleaving of appends, resends, failed commits and crashes in which no call that commits has had a lookup fail on a stored key whose span names a parent: a key has one first commit, which booked its edge if its span names a parent; no other commit ever does; and the edge is counted, waiting, in one call's hands (taken or still to be parked) or given up, exactly one of these. |
| TraceEdges.FirstCommitBooks | internal/tracestore/store.go:345-360 | The first commit of a key books its edge exactly when the item of its batch it was looked up for names a parent. |
| TraceEdges.BookedFirstIff | internal/tracestore/store.go:423-430 | Over every run, each edge is booked by the commit that first stored its key if and only if no call that commits has had a lookup fail on a stored key whose span names a parent. |
| TraceEdges.GoodLooksIff | internal/tracestore/store.go:290-326 | A commit carries an edge for a stored key if and only if its call has had such a lookup, because nobody else can store a reserved key. |
| TraceEdges.EdgeTwice | internal/tracestore/store.go:423-430 | A run in which a lookup fails on a stored key and its edge is counted twice. |
| TraceLooks.LookDecides | internal/tracestore/store.go:345-398 | Over every run: a commit counts the edge of a key its call looked up exactly if the key was missing, its span names a parent and the parent's service was known, and beyond that only what the call took from the pending edges; it is left to be parked exactly if the service was not known. |
| TraceLooks.CountedBy | internal/tracestore/store.go:368-398 | Over every run: the count of an edge grows only in a commit whose call took it from the pending ones, or looked the key up as missing with a parent whose service was known; it never shrinks. |
| TraceLooks.ParkedThenTaken | internal/tracestore/edges.go:130-200 | Over every run in which no lookup that matters fails: an edge whose parent's service was not known is not counted by its own commit; if it is counted later, then once, and some call took it after that commit and committed since. |
| TraceLooks.FoundStaysCounted | internal/tracestore/store.go:345-398 | In such a run an edge whose parent's service was known is not counted before its own commit, and once from then on. |
| TraceClaims.NilMeansStored | internal/tracestore/store.go:407-420 | Append returns nil only if every entry key of its batch is stored, whatever lookups failed. |
| TraceClaims.NoDeadlock | internal/tracestore/store.go:398-399 | While a call has not returned, some call can take a step; a waiting call holds no key. |
| TraceKeys.BeOrder | internal/tracestore/keys.go:33-36 | Byte order of equal-length strings is the order of the numbers they spell. |
| TraceKeys.Successor | internal/tracestore/keys.go:193-203 | The loop finds the least key above a prefix, if there is one. |
| TraceKeys.PrefixRange | internal/tracestore/keys.go:193-203 | From a prefix to its successor are exactly the keys with the prefix. |
| TraceKeys.PairsApart | internal/tracestore/keys.go:40-48 | A key under one pair's prefix is under no other's, whatever follows. |
| TraceKeys.NewestFirst | internal/tracestore/keys.go:33-36 | Within a pair a later span's key comes first. |
| TraceKeys.SplitBack | internal/tracestore/keys.go:118-125 | What is read back from a key is what it was made of. |
| TraceSearch.RemainingIs | internal/tracestore/search.go:133-151 | An iterator yields exactly the keys in the window strictly past the cursor, in order. |
| TraceSearch.Open | internal/tracestore/search.go:126-158 | The runs to merge hold exactly what the window holds past the cursor. |
| TraceSearch.Search | internal/tracestore/search.go:95-198 | For any pairs' entries, suffixes shared or not: a page, of at most n traces, n being 50 by default and never over 500, keeps the wanted ones of the first entries past its cursor, in an order by suffix, and says where it stopped, unless it went through all; it stops early only when it is full or has used its budget, 100,000 entries by default. |
| TraceSearch.PagesSound | internal/tracestore/search.go:88-94 | Pages end to end are in order, repeat nothing and hold only what was asked for. |
| TraceSearch.CursorsAdvance | internal/tracestore/search.go:164-171 | Every page with a cursor moves on. |
| TraceSearch.PagesCover | internal/tracestore/search.go:88-94 | If no cursor has the key of an entry still to be returned, the pages hold exactly the wanted entries up to the cursor, all of them once there is none. |
| TraceSearch.PagesCoverIff | internal/tracestore/search.go:88-94 | A finished session returned every wanted entry if and only if no cursor had the key of one still to be returned. |
| TraceSearch.UniqueNotSkipped | internal/tracestore/search.go:88-94 | Suffixes that no two pairs share are never skipped. |
| TraceSearch.SharedSuffixLost | internal/tracestore/search.go:147-151 | Two pairs with an entry under one suffix, one a page: a session of two pages that ends without ever returning the second. |
| ZeroFill.FloorToIs | internal/agent/aggregator/aggregator.go:644-650 | The bucket boundary at or before a time, also before the epoch. |
| ZeroFill.JumpIsSteps | internal/agent/aggregator/aggregator.go:514-525 | Jumping a long gap emits exactly what stepping through it would. |
| ZeroFill.SteppedIs | internal/agent/aggregator/aggregator.go:497-530 | Stepping emits strictly increasing boundaries, each that is due exactly once, with its bucket's sum or zero. |
| ZeroFill.VisitFilled | internal/agent/aggregator/aggregator.go:497-530 | After a flush, over all flushes so far, every boundary within the expiry after data and before the cursor has its point. |
| ZeroFill.VisitZeros | internal/agent/aggregator/aggregator.go:497-530 | And every point without data is a zero within the expiry after data. |
| ZeroFill.NothingDue | internal/agent/aggregator/aggregator.go:412-415 | A counter forgotten once the cursor is past its last data's expiry has had every zero that was due. |
| Aggregator.Starts | internal/agent/aggregator/aggregator.go:449-461 | The closed buckets, and with final those begun, ascending; the others are counted as held back. |
| Aggregator.Context.constructor | internal/agent/aggregator/aggregator.go:190-225 | A new context has emitted nothing; its floor, if it was told a start, is a bucket strictly after it. |
| Aggregator.Context.Add | internal/agent/aggregator/aggregator.go:228-296 | The scaled value is accepted into one bucket on the grid, which begins at or before the sample's time and ends after it, or else is the later of the floor and the oldest open one; never one that was flushed. That bucket then holds the value as its kind says, and no other bucket changes. |
| Aggregator.Context.Put | internal/agent/aggregator/aggregator.go:270-296 | The bucket is opened or added to, and a gauge's is replaced; the time last seen is noted and the cursor lowered if need be; everything Valid says is kept. |
| Aggregator.Context.Raise | internal/agent/aggregator/aggregator.go:398-404 | The watermark only rises, to the cutoff at least. |
| Aggregator.Context.FillTo | internal/agent/aggregator/aggregator.go:503-530 | The loop with jumps emits what stepping emits; emitted and left over together are what was open. |
| Aggregator.Context.EmitOpen | internal/agent/aggregator/aggregator.go:531-538 | Exactly the chosen open buckets, ascending, each once. |
| Aggregator.Context.Visit | internal/agent/aggregator/aggregator.go:406-416 | Over every interleaving: no boundary emitted twice (emitted timestamps strictly increase), every chosen bucket emitted with its value and the others left, a counter's zeros exactly the boundaries within the expiry after data up to the cursor, nothing emitted after now, the buckets a final flush leaves counted as held back, and for a counter emitted plus open is all that was accepted. |
| Aggregator.Context.Forget | internal/agent/aggregator/aggregator.go:412-415 | A context is dropped only when no zero is due any more. |
| Aggregator.RestartAscends | internal/agent/aggregator/aggregator.go:214-224 | An agent started no earlier than the second its predecessor last flushed in emits no bucket the predecessor emitted: what the store gets from the two ascends. |
| SelfMetrics.FirstBucketIs | internal/selfmetrics/report.go:28-37 | The first boundary strictly after the start second, also before the epoch. |
| SelfMetrics.StampIs | internal/selfmetrics/report.go:74-74 | A stamp is the multiple of the interval in which now falls, rounded toward the epoch. |
| SelfMetrics.RestartDisjoint | internal/selfmetrics/report.go:28-48 | A process started no earlier than the second its predecessor last reported in stamps no bucket the predecessor stamped; if neither clock went back, what the two stamp increases throughout. |
| SelfMetrics.Counter.constructor | internal/selfmetrics/report.go:50-58 | Nothing counted, nothing reported. |
| SelfMetrics.Counter.NotBefore | internal/selfmetrics/report.go:39-48 | Every stamp from here on is strictly after the start second, and the first that is allowed is the next whole bucket. |
| SelfMetrics.Counter.Take | internal/selfmetrics/selfmetrics.go:138-149 | Taking a counter, new or released, adds one holder and loses no increment. |
| SelfMetrics.Counter.Inc | internal/selfmetrics/selfmetrics.go:30-39 | An increment by a holder is counted. |
| SelfMetrics.Counter.Release | internal/selfmetrics/selfmetrics.go:151-171 | Releasing takes one holder off and keeps what is yet to be reported. |
| SelfMetrics.Counter.Snapshot | internal/selfmetrics/selfmetrics.go:198-205 | The snapshot sees every increment so far. |
| SelfMetrics.Counter.Report | internal/selfmetrics/report.go:60-114 | The stamp is now cut to a multiple of the interval, toward the epoch. When a bucket is stamped, the differences reported add up to exactly the increments the snapshot saw, across drops and re-creations; an entry goes exactly when nobody holds it and nothing of it is unreported; with a clock that does not go back, stamps strictly increase. |

## Left out

- LogOnce.ExactlyOnce: holds for runs in which records are added only where the next number is free; HeldTwice shows a run where it fails. UniqueIff is exact about the numbers in the WAL; a run may break them and never come to hold a log twice.
- LogPaging.PagesArePrefix: asks for a steady session, which is exactly when the pages are in order (OrderedIff). A search moving its cursor off the 64-bit end of time is not modelled.
- LogView.PagesOverRun: asks that numbers were free up to the last page, without which a number may be in two runs, and that they fit 64 bits.
- LogChunk.FooterFoundIff: asks that the old tail does not end in the footer's magic; stale bytes that spell a whole footer would be read as one.
- Aggregator.Context.Visit: one context at a time; the values of gauges, sets, histograms and distributions are a single number, and reservoir sampling is not modelled.
- SelfMetrics.Counter.Inc: only by a current holder; an increment through a handle kept after its release is not modelled.
- Sketch.Sketch.Merge: asks that two sketches do not share a store; the source embeds its stores by value.
- SelfMetrics.Counter.Report: one counter; gauges, function instruments and the float rounding of a difference are not modelled.
- TraceEdges.EdgesOnce: an edge of a span whose parent is in its own service is booked here and dropped when written by the source; retention sweeps are not modelled.
- Sketch.Sketch.Quantile: makes no accuracy promise for an order statistic cut to 32 bits or 2048 buckets or more below another of its sign; it says only which bucket's estimate is reported.
- LogStore: MaxStreams is constant over a run, no chunk is damaged beyond a torn tail, nothing expires; a crash during recovery is covered as another crash. The WAL is torn at entry granularity, finer than the records it is torn at. Days are numbers, the catalog is a map.
- LogChunk: a chunk opened again for appending is read (ReadIndex) but not written to further.
- Bloom: bits are booleans, not packed bytes; a filter that passes its checksum is taken to be the one written.
- LogCodec: a compressed length is taken to fit 32 bits; zstd is an invertible function.
- Progress of log paging when overlapping blocks together exceed the scan budget: the code does not promise it.
- The aggregate and facet scans over logs, and the cursor's text form: they would only add easy members.
- The trace store's edge counters, service map reads, retention and the resource index: easy members.
- The sketch store's reads, and the zstd wrapper of its values.
- Backtesting of monitors, dashboards, HTTP handlers, configuration, the metric TSDB, the query languages and the SDKs.
- Floating-point rounding, NaN and infinities: exact reals, with the source's finiteness guards taken as given.
