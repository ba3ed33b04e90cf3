/**
 Search (internal/logstore/search.go): a lazy merge of sorted runs under a scan
 budget. A run (one head snapshot or one sealed block) is decoded only when its
 near edge reaches the best entry in hand, and a block too big for the rest of
 the budget stops the page. PageOk says what a page promises in terms of the
 whole store, without mentioning runs being decoded.
 */
module LogSearch {
  import opened Options
  import opened LogState

  const DEFAULT_LIMIT := 100
  const MAX_LIMIT := 10_000
  const DEFAULT_SCAN_BUDGET := 2 * 1024 * 1024 * 1024
  const MAX_SEQ: nat := 0xFFFF_FFFF_FFFF_FFFF

  datatype Key = Key(ts: int, num: nat)

  // lo and hi bound the timestamps; raw is the decompressed size of a block; skip says that its bloom
  // filter rules it out for this query.
  datatype Run = Run(entries: seq<Entry>, isBlock: bool, lo: int, hi: int, raw: nat, skip: bool)

  datatype Query = Query(from: int, to: int, desc: bool, want: Entry -> bool)

  datatype Page = Page(logs: seq<Entry>, cursor: Option<Key>, truncated: bool)

  function At(e: Entry): Key {
    Key(e.log.ts, e.num)
  }

  /* The search order. */

  // Position along the search direction: smaller is reached earlier.
  function Pos(ts: int, desc: bool): int {
    if desc then -ts else ts
  }

  predicate Before(a: Key, b: Key, desc: bool) {
    if desc then b.ts < a.ts || (b.ts == a.ts && b.num < a.num)
    else a.ts < b.ts || (a.ts == b.ts && a.num < b.num)
  }

  predicate Past(cur: Option<Key>, k: Key, desc: bool) {
    cur.Some? ==> Before(cur.value, k, desc)
  }

  ghost predicate Ordered(es: seq<Entry>, desc: bool) {
    forall i, j :: 0 <= i < j < |es| ==> Before(At(es[i]), At(es[j]), desc)
  }

  function Near(r: Run, desc: bool): int {
    if desc then -r.hi else r.lo
  }

  // Where a page that could examine nothing resumes: just short of the edge of the run it stopped at.
  function Edge(r: Run, desc: bool): Key {
    if desc then Key(r.hi + 1, 0) else Key(r.lo - 1, MAX_SEQ)
  }

  // reaches: r could hold an entry that sorts at or before ts.
  predicate Reaches(r: Run, ts: int, desc: bool) {
    if desc then r.hi >= ts else r.lo <= ts
  }

  // The cursor narrows the range; entries at its own timestamp are dropped by key.
  function Narrowed(q: Query, cur: Option<Key>): (int, int) {
    if cur.None? then (q.from, q.to)
    else if q.desc then (q.from, if cur.value.ts < q.to then cur.value.ts else q.to)
    else (if cur.value.ts > q.from then cur.value.ts else q.from, q.to)
  }

  // What the range left by a cursor is: of the query's own, what is not before the cursor's timestamp.
  lemma NarrowedIs(q: Query, cur: Option<Key>, ts: int)
    ensures var (from, to) := Narrowed(q, cur);
            from <= ts <= to <==>
              q.from <= ts <= q.to && (cur.Some? ==> if q.desc then ts <= cur.value.ts else cur.value.ts <= ts)
  {
  }

  /* The store a page reads. */

  ghost predicate RunOk(r: Run, want: Entry -> bool) {
    && (forall e :: e in r.entries ==> r.lo <= e.log.ts <= r.hi && e.num <= MAX_SEQ)
    && (r.skip ==> r.isBlock && forall e :: e in r.entries ==> !want(e))
    && r.entries != []
    && Distinct(r.entries)
  }

  // Every run is as its bounds and filter say, and no number is in two runs.
  ghost predicate StoreOk(store: seq<Run>, want: Entry -> bool) {
    && (forall r :: r in store ==> RunOk(r, want))
    && (forall r, o, e, f :: r in store && o in store && r != o && e in r.entries && f in o.entries ==> e.num != f.num)
    && NoRepeat(store)
  }

  ghost predicate NoRepeat(store: seq<Run>) {
    forall i, j :: 0 <= i < j < |store| ==> store[i] != store[j]
  }

  ghost predicate Holds(store: seq<Run>, e: Entry) {
    exists r :: r in store && e in r.entries
  }

  ghost predicate Candidate(store: seq<Run>, q: Query, cur: Option<Key>, e: Entry) {
    Holds(store, e) && q.from <= e.log.ts <= q.to && Past(cur, At(e), q.desc)
  }

  ghost predicate Wanted(store: seq<Run>, q: Query, cur: Option<Key>, e: Entry) {
    Candidate(store, q, cur, e) && q.want(e)
  }

  /* What the budget buys. */

  ghost function SumRaw(s: set<Run>): nat {
    if s == {} then 0 else var r :| r in s; r.raw + SumRaw(s - {r})
  }

  // The blocks a page must decode before it may emit anything past t.
  ghost function Blocks(store: seq<Run>, range: (int, int), t: int, desc: bool): set<Run> {
    set r | r in store && r.isBlock && !r.skip && r.hi >= range.0 && r.lo <= range.1 && Near(r, desc) <= t
  }

  // The first block is always read; after that the total must stay within the budget.
  ghost predicate Fits(s: set<Run>, budget: int) {
    |s| <= 1 || SumRaw(s) <= budget
  }

  /* What a page promises. */

  ghost predicate Stopped(store: seq<Run>, q: Query, cur: Option<Key>, budget: int, page: Page) {
    && page.truncated
    && page.logs == []
    && exists r :: r in store && page.cursor == Some(Edge(r, q.desc)) && StoppedAt(store, q, cur, budget, r)
  }

  // Reading everything up to r's edge would not fit, and no earlier edge has that trouble; nothing past the
  // cursor lies short of r's edge.
  ghost predicate StoppedAt(store: seq<Run>, q: Query, cur: Option<Key>, budget: int, r: Run) {
    && Narrowed(q, cur).0 <= Narrowed(q, cur).1
    && (forall t :: t < Near(r, q.desc) ==> Fits(Blocks(store, Narrowed(q, cur), t, q.desc), budget))
    && r in Blocks(store, Narrowed(q, cur), Near(r, q.desc), q.desc)
    && !Fits(Blocks(store, Narrowed(q, cur), Near(r, q.desc), q.desc), budget)
    && forall e :: Wanted(store, q, cur, e) ==> Near(r, q.desc) <= Pos(e.log.ts, q.desc)
  }

  // The page moved: whatever edge nothing past the cursor lies short of, the blocks up to it did fit.
  ghost predicate Moved(store: seq<Run>, q: Query, cur: Option<Key>, budget: int) {
    var range := Narrowed(q, cur);
    range.0 <= range.1 ==> forall t :: NoneShort(store, q, cur, t) ==> Fits(Blocks(store, range, t, q.desc), budget)
  }

  // The blocks in range, up to some block's edge, are more than the budget reads: the only reason to cut a page.
  ghost predicate Exceeded(store: seq<Run>, q: Query, cur: Option<Key>, budget: int) {
    exists r :: r in store && !Fits(Blocks(store, Narrowed(q, cur), Near(r, q.desc), q.desc), budget)
  }

  ghost predicate NoneShort(store: seq<Run>, q: Query, cur: Option<Key>, t: int) {
    forall e :: Candidate(store, q, cur, e) ==> t <= Pos(e.log.ts, q.desc)
  }

  // Logs in order, all of them wanted; what is wanted and missing lies past the cursor, which lies at or
  // past every log; without a cursor nothing is missing.
  ghost predicate Advanced(store: seq<Run>, q: Query, cur: Option<Key>, limit: nat, page: Page) {
    && |page.logs| <= limit
    && Ordered(page.logs, q.desc)
    && (forall e :: e in page.logs ==> Wanted(store, q, cur, e))
    && (page.cursor.None? ==> !page.truncated && forall e :: Wanted(store, q, cur, e) ==> e in page.logs)
    && (page.cursor.Some? ==> AdvancedTo(store, q, cur, page.logs, page.cursor.value))
    && (page.cursor.Some? && !page.truncated ==>
          && |page.logs| == limit > 0 && page.cursor.value == At(page.logs[limit - 1])
          && exists e :: Wanted(store, q, cur, e) && e !in page.logs)
  }

  ghost predicate AdvancedTo(store: seq<Run>, q: Query, cur: Option<Key>, logs: seq<Entry>, c: Key) {
    && Past(cur, c, q.desc)
    && (forall e :: e in logs ==> At(e) == c || Before(At(e), c, q.desc))
    && (forall e :: Wanted(store, q, cur, e) && e !in logs ==> Before(c, At(e), q.desc))
  }

  ghost predicate PageOk(store: seq<Run>, q: Query, cur: Option<Key>, limit: nat, budget: int, page: Page) {
    || Stopped(store, q, cur, budget, page)
    || (Advanced(store, q, cur, limit, page) && Moved(store, q, cur, budget) &&
        (page.truncated ==> Exceeded(store, q, cur, budget)))
  }

  /* Sorting. */

  // sort.SliceStable in search order; keys are distinct, so the order is total.
  function InsertEntry(e: Entry, es: seq<Entry>, desc: bool): (r: seq<Entry>)
    requires Ordered(es, desc) && forall f :: f in es ==> f.num != e.num
    ensures Ordered(r, desc) && forall f :: f in r <==> f == e || f in es
  {
    if es == [] || Before(At(e), At(es[0]), desc) then [e] + es
    else
      var rest := InsertEntry(e, es[1..], desc);
      assert forall f :: f in es <==> f == es[0] || f in es[1..];
      assert forall i :: 0 <= i < |rest| ==> rest[i] == e || rest[i] in es[1..];
      assert forall i :: 0 <= i < |rest| ==> Before(At(es[0]), At(rest[i]), desc);
      [es[0]] + rest
  }

  function SortEntries(es: seq<Entry>, desc: bool): (r: seq<Entry>)
    requires Distinct(es)
    ensures Ordered(r, desc) && forall f :: f in r <==> f in es
  {
    if es == [] then []
    else
      assert forall f :: f in es <==> f == es[0] || f in es[1..];
      InsertEntry(es[0], SortEntries(es[1..], desc), desc)
  }

  ghost predicate ByEdge(rs: seq<Run>, desc: bool) {
    forall i, j :: 0 <= i < j < |rs| ==> Near(rs[i], desc) <= Near(rs[j], desc)
  }

  lemma FirstRun(r: Run, rs: seq<Run>, desc: bool)
    requires ByEdge(rs, desc) && NoRepeat(rs) && r !in rs && forall o :: o in rs ==> Near(r, desc) <= Near(o, desc)
    ensures ByEdge([r] + rs, desc) && NoRepeat([r] + rs) && forall o :: o in [r] + rs <==> o == r || o in rs
  {
    hide Near;
    assert forall i :: 0 <= i < |rs| ==> rs[i] in rs;
  }

  function InsertRun(r: Run, rs: seq<Run>, desc: bool): (out: seq<Run>)
    requires ByEdge(rs, desc) && NoRepeat(rs) && r !in rs
    ensures ByEdge(out, desc) && NoRepeat(out) && forall o :: o in out <==> o == r || o in rs
  {
    if rs == [] || Near(r, desc) <= Near(rs[0], desc) then
      FirstRun(r, rs, desc);
      [r] + rs
    else
      assert forall o :: o in rs <==> o == rs[0] || o in rs[1..];
      var rest := InsertRun(r, rs[1..], desc);
      FirstRun(rs[0], rest, desc);
      [rs[0]] + rest
  }

  // Runs in the order their near edge is reached.
  function SortRuns(rs: seq<Run>, desc: bool): (out: seq<Run>)
    requires NoRepeat(rs)
    ensures ByEdge(out, desc) && NoRepeat(out) && forall o :: o in out <==> o in rs
  {
    if rs == [] then []
    else
      assert forall o :: o in rs <==> o == rs[0] || o in rs[1..];
      InsertRun(rs[0], SortRuns(rs[1..], desc), desc)
  }

  /* The snapshot. */

  method InRange(es: seq<Entry>, from: int, to: int) returns (r: seq<Entry>)
    requires Distinct(es)
    ensures Distinct(r) && forall e :: e in r <==> e in es && from <= e.log.ts <= to
  {
    r := [];
    for i := 0 to |es|
      invariant forall e :: e in r <==> e in es[..i] && from <= e.log.ts <= to
      invariant Distinct(r)
    {
      if from <= es[i].log.ts <= to {
        r := r + [es[i]];
      }
    }
    assert es[..|es|] == es;
  }

  // A head's entries in range as a run, with their exact bounds.
  method HeadRun(es: seq<Entry>, ghost want: Entry -> bool) returns (r: Run)
    requires es != [] && Distinct(es) && forall e :: e in es ==> e.num <= MAX_SEQ
    ensures r.entries == es && !r.isBlock && RunOk(r, want)
  {
    var lo, hi := es[0].log.ts, es[0].log.ts;
    for i := 1 to |es|
      invariant forall j :: 0 <= j < i ==> lo <= es[j].log.ts <= hi
    {
      lo := if es[i].log.ts < lo then es[i].log.ts else lo;
      hi := if es[i].log.ts > hi then es[i].log.ts else hi;
    }
    r := Run(es, false, lo, hi, 0, false);
  }

  // The store's entries and blocks in the range, as runs.
  ghost predicate SnapshotOf(store: seq<Run>, range: (int, int), runs: seq<Run>, want: Entry -> bool) {
    && StoreOk(runs, want)
    && (forall r :: r in runs ==> From(store, r))
    && (forall r :: r in runs && r.isBlock ==> r in store && r.hi >= range.0 && r.lo <= range.1)
    && (forall r :: r in store && r.isBlock && r.hi >= range.0 && r.lo <= range.1 ==> r in runs)
    && (forall r, e :: r in store && e in r.entries && range.0 <= e.log.ts <= range.1 ==> Holds(runs, e))
  }

  // r is a run of the store, or the part in range of a head of the store.
  ghost predicate From(store: seq<Run>, r: Run) {
    exists o :: o in store && o.isBlock == r.isBlock && forall e :: e in r.entries ==> e in o.entries
  }

  method Snapshot(store: seq<Run>, from: int, to: int, ghost want: Entry -> bool) returns (runs: seq<Run>)
    requires StoreOk(store, want)
    ensures SnapshotOf(store, (from, to), runs, want)
  {
    runs := [];
    for i := 0 to |store|
      invariant SnapshotOf(store[..i], (from, to), runs, want)
    {
      var r := store[i];
      assert r in store;
      if r.isBlock {
        if r.hi >= from && r.lo <= to {
          SnapshotMore(store, i, (from, to), runs, r, want);
          runs := runs + [r];
        } else {
          SnapshotSame(store, i, (from, to), runs, want);
        }
      } else {
        var es := InRange(r.entries, from, to);
        if es != [] {
          var h := HeadRun(es, want);
          SnapshotMore(store, i, (from, to), runs, h, want);
          runs := runs + [h];
        } else {
          SnapshotSame(store, i, (from, to), runs, want);
        }
      }
    }
    assert store[..|store|] == store;
  }

  lemma SnapshotSame(store: seq<Run>, i: nat, range: (int, int), runs: seq<Run>, want: Entry -> bool)
    requires StoreOk(store, want) && i < |store| && SnapshotOf(store[..i], range, runs, want)
    requires store[i].isBlock ==> !(store[i].hi >= range.0 && store[i].lo <= range.1)
    requires forall e :: e in store[i].entries ==> !(range.0 <= e.log.ts <= range.1)
    ensures SnapshotOf(store[..i + 1], range, runs, want)
  {
    assert forall r :: r in store[..i + 1] <==> r in store[..i] || r == store[i];
    forall r | r in runs ensures From(store[..i + 1], r) { assert From(store[..i], r); }
  }

  lemma SnapshotMore(store: seq<Run>, i: nat, range: (int, int), runs: seq<Run>, h: Run, want: Entry -> bool)
    requires StoreOk(store, want) && i < |store| && SnapshotOf(store[..i], range, runs, want)
    requires RunOk(h, want) && h.isBlock == store[i].isBlock
    requires h.isBlock ==> h == store[i] && h.hi >= range.0 && h.lo <= range.1
    requires forall e :: e in h.entries ==> e in store[i].entries
    requires forall e :: e in store[i].entries && range.0 <= e.log.ts <= range.1 ==> e in h.entries
    ensures SnapshotOf(store[..i + 1], range, runs + [h], want)
  {
    hide StoreOk, RunOk, Distinct, From, Holds;
    SnapshotDisjoint(store, i, runs, h, want);
    OneMoreRun(runs, h, want);
    AllFrom(store, i, runs, h);
    BlocksMore(store, i, range, runs, h);
    HoldsMore(store, i, range, runs, h);
  }

  lemma AllFrom(store: seq<Run>, i: nat, runs: seq<Run>, h: Run)
    requires i < |store| && forall o :: o in runs ==> From(store[..i], o)
    requires h.isBlock == store[i].isBlock && (h.isBlock ==> h == store[i])
    requires forall e :: e in h.entries ==> e in store[i].entries
    ensures forall r :: r in runs + [h] ==> From(store[..i + 1], r)
  {
    hide From;
    forall r | r in runs + [h] ensures From(store[..i + 1], r) {
      FromMore(store, i, runs, r, h);
    }
  }

  lemma BlocksMore(store: seq<Run>, i: nat, range: (int, int), runs: seq<Run>, h: Run)
    requires i < |store| && h.isBlock == store[i].isBlock
    requires h.isBlock ==> h == store[i] && h.hi >= range.0 && h.lo <= range.1
    requires forall r :: r in runs && r.isBlock ==> r in store[..i] && r.hi >= range.0 && r.lo <= range.1
    requires forall r :: r in store[..i] && r.isBlock && r.hi >= range.0 && r.lo <= range.1 ==> r in runs
    ensures forall r :: r in runs + [h] && r.isBlock ==> r in store[..i + 1] && r.hi >= range.0 && r.lo <= range.1
    ensures forall r :: r in store[..i + 1] && r.isBlock && r.hi >= range.0 && r.lo <= range.1 ==> r in runs + [h]
  {
    assert forall r :: r in store[..i + 1] <==> r in store[..i] || r == store[i];
    assert forall r :: r in runs + [h] <==> r in runs || r == h;
  }

  lemma HoldsMore(store: seq<Run>, i: nat, range: (int, int), runs: seq<Run>, h: Run)
    requires i < |store|
    requires forall r, e :: r in store[..i] && e in r.entries && range.0 <= e.log.ts <= range.1 ==> Holds(runs, e)
    requires forall e :: e in store[i].entries && range.0 <= e.log.ts <= range.1 ==> e in h.entries
    ensures forall r, e :: r in store[..i + 1] && e in r.entries && range.0 <= e.log.ts <= range.1 ==>
              Holds(runs + [h], e)
  {
    forall r, e | r in store[..i + 1] && e in r.entries && range.0 <= e.log.ts <= range.1
      ensures Holds(runs + [h], e)
    {
      if r in store[..i] {
        assert Holds(runs, e);
      } else {
        assert h in runs + [h] && e in h.entries;
      }
    }
  }

  lemma FromMore(store: seq<Run>, i: nat, runs: seq<Run>, r: Run, h: Run)
    requires i < |store| && (r in runs || r == h) && forall o :: o in runs ==> From(store[..i], o)
    requires h.isBlock == store[i].isBlock && (h.isBlock ==> h == store[i])
    requires forall e :: e in h.entries ==> e in store[i].entries
    ensures From(store[..i + 1], r)
  {
    assert store[i] in store[..i + 1];
    if r in runs {
      assert From(store[..i], r);
    }
  }

  lemma SnapshotDisjoint(store: seq<Run>, i: nat, runs: seq<Run>, h: Run, want: Entry -> bool)
    requires StoreOk(store, want) && i < |store| && forall r :: r in runs ==> From(store[..i], r)
    requires forall e :: e in h.entries ==> e in store[i].entries
    ensures forall r, e, f :: r in runs && e in r.entries && f in h.entries ==> e.num != f.num
  {
    hide RunOk;
    forall r, e, f | r in runs && e in r.entries && f in h.entries ensures e.num != f.num {
      assert From(store[..i], r);
      var o :| o in store[..i] && forall x :: x in r.entries ==> x in o.entries;
      assert o in store && store[i] in store && e in o.entries && f in store[i].entries;
    }
  }

  lemma OneMoreRun(runs: seq<Run>, h: Run, want: Entry -> bool)
    requires StoreOk(runs, want) && RunOk(h, want)
    requires forall r, e, f :: r in runs && e in r.entries && f in h.entries ==> e.num != f.num
    ensures StoreOk(runs + [h], want)
  {
    var out := runs + [h];
    assert forall r :: r in out <==> r in runs || r == h;
    assert h.entries[0] in h.entries;
    hide RunOk;
    assert h !in runs;
  }
}
