/**
 The merge loop of Search (internal/logstore/search.go:298-396): decode what the
 best entry in hand needs, take the best entry, repeat.
 */
module LogMerge {
  import opened Options
  import opened LogState
  import opened LogSearch

  // What a page may look at: a range of timestamps, and only what lies past the cursor.
  datatype Window = Window(lo: int, hi: int, cur: Option<Key>, desc: bool) {
    predicate Sees(e: Entry) {
      lo <= e.log.ts <= hi && Past(cur, At(e), desc)
    }
  }

  // orderedFiltered: a run's entries in the window, in search order.
  method OrderedFiltered(es: seq<Entry>, w: Window) returns (out: seq<Entry>)
    requires Distinct(es)
    ensures Ordered(out, w.desc) && forall e :: e in out <==> e in es && w.Sees(e)
  {
    var kept := [];
    for i := 0 to |es|
      invariant forall e :: e in kept <==> e in es[..i] && w.Sees(e)
      invariant Distinct(kept)
    {
      assert forall j :: 0 <= j < |kept| ==> kept[j] in es[..i];
      if w.Sees(es[i]) {
        kept := kept + [es[i]];
      }
    }
    assert es[..|es|] == es;
    out := SortEntries(kept, w.desc);
  }

  /* The heap: the rest of each decoded run, none empty. container/heap keeps the least in front. */

  ghost predicate InHeap(heap: seq<seq<Entry>>, e: Entry) {
    exists i :: 0 <= i < |heap| && e in heap[i]
  }

  ghost predicate HeapOk(heap: seq<seq<Entry>>, desc: bool) {
    && (forall i :: 0 <= i < |heap| ==> heap[i] != [] && Ordered(heap[i], desc))
    && (forall i, j, e,
           f :: 0 <= i < |heap| && 0 <= j < |heap| && i != j && e in heap[i] && f in heap[j] ==> e.num != f.num)
  }

  function HeapSize(heap: seq<seq<Entry>>): nat {
    if heap == [] then 0 else |heap[0]| + HeapSize(heap[1..])
  }

  method Least(heap: seq<seq<Entry>>, desc: bool) returns (k: nat)
    requires heap != [] && HeapOk(heap, desc)
    ensures k < |heap|
    ensures forall e :: InHeap(heap, e) ==> e == heap[k][0] || Before(At(heap[k][0]), At(e), desc)
  {
    k := 0;
    for i := 1 to |heap|
      invariant k < i
      invariant forall j :: 0 <= j < i ==> j == k || Before(At(heap[k][0]), At(heap[j][0]), desc)
    {
      assert heap[i][0] in heap[i] && heap[k][0] in heap[k];
      if Before(At(heap[i][0]), At(heap[k][0]), desc) {
        k := i;
      }
    }
    LeastOfFronts(heap, k, desc);
  }

  lemma LeastOfFronts(heap: seq<seq<Entry>>, k: nat, desc: bool)
    requires HeapOk(heap, desc) && k < |heap|
    requires forall j :: 0 <= j < |heap| ==> j == k || Before(At(heap[k][0]), At(heap[j][0]), desc)
    ensures forall e :: InHeap(heap, e) ==> e == heap[k][0] || Before(At(heap[k][0]), At(e), desc)
  {
    forall e | InHeap(heap, e) ensures e == heap[k][0] || Before(At(heap[k][0]), At(e), desc) {
      var i :| 0 <= i < |heap| && e in heap[i];
      var j :| 0 <= j < |heap[i]| && heap[i][j] == e;
      assert Ordered(heap[i], desc);
    }
  }

  // Taking the front entry of list k: the list advances, or leaves the heap when it is used up.
  function Taken(heap: seq<seq<Entry>>, k: nat): seq<seq<Entry>>
    requires k < |heap| && heap[k] != []
  {
    if |heap[k]| == 1 then heap[..k] + heap[k + 1..] else heap[k := heap[k][1..]]
  }

  lemma TakenOk(heap: seq<seq<Entry>>, k: nat, desc: bool)
    requires HeapOk(heap, desc) && k < |heap|
    ensures HeapOk(Taken(heap, k), desc)
    ensures forall e :: InHeap(Taken(heap, k), e) <==> InHeap(heap, e) && e != heap[k][0]
  {
    hide HeapOk, InHeap, Taken;
    if Single(heap, k, desc) {
      DroppedOk(heap, k, desc);
    } else {
      SteppedOk(heap, k, desc);
    }
  }

  ghost predicate Single(heap: seq<seq<Entry>>, k: nat, desc: bool)
    requires HeapOk(heap, desc) && k < |heap|
  {
    |heap[k]| == 1
  }

  lemma DroppedOk(heap: seq<seq<Entry>>, k: nat, desc: bool)
    requires HeapOk(heap, desc) && k < |heap| && Single(heap, k, desc)
    ensures HeapOk(Taken(heap, k), desc)
    ensures forall e :: InHeap(Taken(heap, k), e) <==> InHeap(heap, e) && e != heap[k][0]
  {
    hide Before;
    var t := heap[..k] + heap[k + 1..];
    assert heap[k][0] in heap[k];
    assert forall i :: 0 <= i < |t| ==> t[i] == heap[if i < k then i else i + 1];
    forall e ensures InHeap(t, e) <==> InHeap(heap, e) && e != heap[k][0] {
      if InHeap(heap, e) && e != heap[k][0] {
        var i :| 0 <= i < |heap| && e in heap[i];
        assert t[if i < k then i else i - 1] == heap[i];
      }
    }
  }

  lemma SteppedOk(heap: seq<seq<Entry>>, k: nat, desc: bool)
    requires HeapOk(heap, desc) && k < |heap| && !Single(heap, k, desc)
    ensures HeapOk(Taken(heap, k), desc)
    ensures forall e :: InHeap(Taken(heap, k), e) <==> InHeap(heap, e) && e != heap[k][0]
  {
    var rest := heap[k][1..];
    var t := heap[k := rest];
    assert Ordered(rest, desc) && heap[k][0] !in rest;
    hide Before, Ordered;
    assert heap[k][0] in heap[k];
    assert forall e :: e in heap[k] <==> e == heap[k][0] || e in rest;
    forall e ensures InHeap(t, e) <==> InHeap(heap, e) && e != heap[k][0] {
      if InHeap(heap, e) && e != heap[k][0] {
        var i :| 0 <= i < |heap| && e in heap[i];
        assert e in t[i];
      }
    }
  }

  lemma {:induction false} TakenSmaller(heap: seq<seq<Entry>>, k: nat)
    requires k < |heap| && heap[k] != []
    ensures HeapSize(Taken(heap, k)) < HeapSize(heap)
  {
    var t := Taken(heap, k);
    if k == 0 {
      if |heap[0]| == 1 {
        assert t == heap[1..];
      } else {
        assert t[1..] == heap[1..];
      }
    } else {
      TakenSmaller(heap[1..], k - 1);
      assert t[0] == heap[0];
      assert t[1..] == Taken(heap[1..], k - 1);
    }
  }

  lemma PushOk(heap: seq<seq<Entry>>, es: seq<Entry>, desc: bool)
    requires HeapOk(heap, desc) && es != [] && Ordered(es, desc)
    requires forall e, f :: InHeap(heap, e) && f in es ==> e.num != f.num
    ensures HeapOk(heap + [es], desc)
    ensures forall e :: InHeap(heap + [es], e) <==> InHeap(heap, e) || e in es
  {
    var t := heap + [es];
    forall i, e | 0 <= i < |heap| && e in heap[i] ensures InHeap(heap, e) {}
    forall e ensures InHeap(t, e) <==> InHeap(heap, e) || e in es {
      if InHeap(heap, e) {
        var i :| 0 <= i < |heap| && e in heap[i];
        assert e in t[i];
      }
      if e in es {
        assert e in t[|heap|];
      }
    }
  }

  /* The loop's invariant. */

  // e is in one of the first n runs, not skipped, and in the window.
  ghost predicate Met(runs: seq<Run>, n: nat, w: Window, e: Entry) {
    w.Sees(e) && exists i :: 0 <= i < n && i < |runs| && !runs[i].skip && e in runs[i].entries
  }

  // What the decoded runs offer is in the heap or examined; examined entries are in order, before
  // everything in the heap, and before anything an undecoded run could hold.
  ghost predicate MergeOk(runs: seq<Run>, n: nat, w: Window, heap: seq<seq<Entry>>, done: seq<Entry>) {
    && n <= |runs|
    && HeapOk(heap, w.desc)
    && (forall e :: Met(runs, n, w, e) <==> InHeap(heap, e) || e in done)
    && Ordered(done, w.desc)
    && (forall e, d :: InHeap(heap, e) && d in done ==> Before(At(d), At(e), w.desc))
    && (forall i, d :: n <= i < |runs| && d in done ==> Pos(d.log.ts, w.desc) < Near(runs[i], w.desc))
  }

  ghost function ReadSet(runs: seq<Run>, n: nat): set<Run>
    requires n <= |runs|
  {
    set i | 0 <= i < n && runs[i].isBlock && !runs[i].skip :: runs[i]
  }

  ghost predicate BudgetOk(runs: seq<Run>, n: nat, total: int, left: int, read: nat)
    requires n <= |runs|
  {
    left == total - SumRaw(ReadSet(runs, n)) && read == |ReadSet(runs, n)| && Fits(ReadSet(runs, n), total)
  }

  lemma {:induction false} SumRawAdd(s: set<Run>, r: Run)
    requires r !in s
    ensures SumRaw(s + {r}) == SumRaw(s) + r.raw
  {
    var t := s + {r};
    var x :| x in t && SumRaw(t) == x.raw + SumRaw(t - {x});
    if x == r {
      assert t - {x} == s;
    } else {
      assert t - {x} == (s - {x}) + {r};
      SumRawAdd(s - {x}, r);
      SumRawAdd(s - {x}, x);
      assert s - {x} + {x} == s;
    }
  }

  lemma {:induction false} SumRawSubset(s: set<Run>, t: set<Run>)
    requires s <= t
    ensures SumRaw(s) <= SumRaw(t) && |s| <= |t|
    decreases t
  {
    if s != t {
      var x :| x in t && x !in s;
      SumRawSubset(s, t - {x});
      SumRawAdd(t - {x}, x);
      assert t - {x} + {x} == t;
    }
  }

  lemma FitsSubset(s: set<Run>, t: set<Run>, budget: int)
    requires s <= t && Fits(t, budget)
    ensures Fits(s, budget)
  {
    SumRawSubset(s, t);
  }

  // Decoding one more run.
  lemma DecodeOne(runs: seq<Run>, n: nat, w: Window, heap: seq<seq<Entry>>, done: seq<Entry>, es: seq<Entry>,
                  want: Entry -> bool)
    requires MergeOk(runs, n, w, heap, done) && StoreOk(runs, want) && n < |runs| && !runs[n].skip
    requires Ordered(es, w.desc) && forall e :: e in es <==> e in runs[n].entries && w.Sees(e)
    ensures MergeOk(runs, n + 1, w, if es == [] then heap else heap + [es], done)
  {
    var after := if es == [] then heap else heap + [es];
    assert forall e :: Met(runs, n + 1, w, e) <==> Met(runs, n, w, e) || e in es;
    NewToHeap(runs, n, w, heap, done, want);
    assert RunOk(runs[n], want);
    hide StoreOk, RunOk;
    if es != [] {
      PushOk(heap, es, w.desc);
    }
    hide Met, InHeap, HeapOk;
    forall e, d | e in es && d in done ensures Before(At(d), At(e), w.desc) {
      assert Pos(d.log.ts, w.desc) < Near(runs[n], w.desc);
    }
  }

  lemma NewToHeap(runs: seq<Run>, n: nat, w: Window, heap: seq<seq<Entry>>, done: seq<Entry>, want: Entry -> bool)
    requires MergeOk(runs, n, w, heap, done) && StoreOk(runs, want) && n < |runs|
    ensures forall e, f :: InHeap(heap, e) && f in runs[n].entries ==> e.num != f.num
    ensures forall f :: f in runs[n].entries ==> runs[n].lo <= f.log.ts <= runs[n].hi
  {
    hide HeapOk, InHeap, Before;
    assert RunOk(runs[n], want);
    forall e, f | InHeap(heap, e) && f in runs[n].entries ensures e.num != f.num {
      assert Met(runs, n, w, e);
      var i :| 0 <= i < n && e in runs[i].entries;
      assert runs[i] in runs && runs[n] in runs;
    }
  }

  // Passing over a run the filter rules out.
  lemma PassOne(runs: seq<Run>, n: nat, w: Window, heap: seq<seq<Entry>>, done: seq<Entry>)
    requires MergeOk(runs, n, w, heap, done) && n < |runs| && runs[n].skip
    ensures MergeOk(runs, n + 1, w, heap, done)
  {
    hide InHeap, HeapOk, Before;
    assert forall e :: Met(runs, n + 1, w, e) <==> Met(runs, n, w, e);
  }

  lemma ReadOne(runs: seq<Run>, n: nat, total: int, left: int, read: nat)
    requires n < |runs| && NoRepeat(runs) && BudgetOk(runs, n, total, left, read)
    requires runs[n].isBlock && !runs[n].skip ==> !(left < runs[n].raw && read > 0)
    ensures var pays := runs[n].isBlock && !runs[n].skip;
            BudgetOk(runs, n + 1, total, if pays then left - runs[n].raw else left, if pays then read + 1 else read)
  {
    var s := ReadSet(runs, n);
    if runs[n].isBlock && !runs[n].skip {
      assert ReadSet(runs, n + 1) == s + {runs[n]};
      assert runs[n] !in s;
      SumRawAdd(s, runs[n]);
    } else {
      assert ReadSet(runs, n + 1) == s;
    }
  }

  // Every entry in the heap lies past t.
  ghost predicate HeapPast(heap: seq<seq<Entry>>, t: int, desc: bool) {
    forall e :: InHeap(heap, e) ==> t <= Pos(e.log.ts, desc)
  }

  // One run of the inner loop: passed over if its filter rules it out, else decoded into the heap.
  method DecodeNext(runs: seq<Run>, w: Window, next: nat, heap0: seq<seq<Entry>>, left0: int, read0: nat,
                    ghost done: seq<Entry>, ghost total: int, ghost want: Entry -> bool)
    returns (heap: seq<seq<Entry>>, left: int, read: nat)
    requires StoreOk(runs, want) && next < |runs| && MergeOk(runs, next, w, heap0, done)
    requires BudgetOk(runs, next, total, left0, read0)
    requires runs[next].isBlock && !runs[next].skip ==> !(left0 < runs[next].raw && read0 > 0)
    ensures MergeOk(runs, next + 1, w, heap, done) && BudgetOk(runs, next + 1, total, left, read)
  {
    var r := runs[next];
    RunIn(runs, next, want);
    hide StoreOk, BudgetOk, MergeOk;
    ReadOne(runs, next, total, left0, read0);
    heap, left, read := heap0, left0, read0;
    if r.skip {
      PassOne(runs, next, w, heap, done);
      return;
    }
    if r.isBlock {
      left, read := left - r.raw, read + 1;
    }
    var es := OrderedFiltered(r.entries, w);
    DecodeOne(runs, next, w, heap, done, es, want);
    if |es| > 0 {
      heap := heap + [es];
    }
  }

  // Decode every run whose near edge reaches the best entry in hand. Either the next run reaches no
  // entry in hand, or it is a block the rest of the budget does not cover.
  method Fill(runs: seq<Run>, w: Window, next0: nat, heap0: seq<seq<Entry>>, left0: int, read0: nat,
              ghost done: seq<Entry>, ghost total: int, ghost want: Entry -> bool)
    returns (next: nat, heap: seq<seq<Entry>>, left: int, read: nat, stopped: bool)
    requires StoreOk(runs, want) && MergeOk(runs, next0, w, heap0, done) && BudgetOk(runs, next0, total, left0, read0)
    ensures MergeOk(runs, next, w, heap, done) && next0 <= next <= |runs| && BudgetOk(runs, next, total, left, read)
    ensures next == next0 ==> heap == heap0
    ensures if stopped then StoppedBy(runs, w.desc, next, heap, left, read) else Ready(runs, w.desc, next, heap)
  {
    assert next0 <= |runs|;
    hide StoreOk, BudgetOk, MergeOk, HeapPast, Near;
    next, heap, left, read := next0, heap0, left0, read0;
    while next < |runs|
      invariant next0 <= next <= |runs|
      invariant MergeOk(runs, next, w, heap, done) && BudgetOk(runs, next, total, left, read)
      invariant next == next0 ==> heap == heap0
    {
      var r := runs[next];
      var reached := Reached(runs, w, next, heap, done);
      if !reached {
        return next, heap, left, read, false;
      }
      if r.isBlock && !r.skip && left < r.raw && read > 0 {
        return next, heap, left, read, true;
      }
      heap, left, read := DecodeNext(runs, w, next, heap, left, read, done, total, want);
      next := next + 1;
    }
    stopped := false;
  }

  // Whether the next run reaches the best entry in hand, if there is one.
  method Reached(runs: seq<Run>, w: Window, next: nat, heap: seq<seq<Entry>>, ghost done: seq<Entry>)
    returns (reached: bool)
    requires MergeOk(runs, next, w, heap, done) && next < |runs|
    ensures if reached then HeapPast(heap, Near(runs[next], w.desc), w.desc) else Ready(runs, w.desc, next, heap)
  {
    hide MergeOk, HeapOk, InHeap, Before;
    if heap == [] {
      EmptyPast(Near(runs[next], w.desc), w.desc);
      return true;
    }
    HeapIsOk(runs, next, w, heap, done);
    var k := Least(heap, w.desc);
    reached := Reaches(runs[next], heap[k][0].log.ts, w.desc);
    if reached {
      LeastPast(heap, k, Near(runs[next], w.desc), w.desc);
    } else {
      assert InHeap(heap, heap[k][0]) by { FrontIn(heap, k); }
    }
  }

  // The next run is a block the rest of the budget does not cover, and it reaches everything in hand.
  ghost predicate StoppedBy(runs: seq<Run>, desc: bool, next: nat, heap: seq<seq<Entry>>, left: int, read: nat) {
    && next < |runs| && runs[next].isBlock && !runs[next].skip && left < runs[next].raw && read > 0
    && HeapPast(heap, Near(runs[next], desc), desc)
  }

  // No run left undecoded reaches the best entry in hand.
  ghost predicate Ready(runs: seq<Run>, desc: bool, next: nat, heap: seq<seq<Entry>>) {
    && (next < |runs| ==> exists e :: InHeap(heap, e) && Pos(e.log.ts, desc) < Near(runs[next], desc))
    && (heap == [] ==> next == |runs|)
  }

  lemma HeapIsOk(runs: seq<Run>, n: nat, w: Window, heap: seq<seq<Entry>>, done: seq<Entry>)
    requires MergeOk(runs, n, w, heap, done)
    ensures HeapOk(heap, w.desc) && forall i :: 0 <= i < |heap| ==> heap[i] != []
  {
  }

  lemma FrontIn(heap: seq<seq<Entry>>, k: nat)
    requires k < |heap| && heap[k] != []
    ensures InHeap(heap, heap[k][0])
  {
    assert heap[k][0] in heap[k];
  }

  lemma EmptyPast(t: int, desc: bool)
    ensures HeapPast([], t, desc)
  {
    assert forall e :: !InHeap([], e);
  }

  lemma RunIn(runs: seq<Run>, n: nat, want: Entry -> bool)
    requires StoreOk(runs, want) && n < |runs|
    ensures NoRepeat(runs) && runs[n].entries != [] && Distinct(runs[n].entries)
  {
    assert RunOk(runs[n], want);
  }

  lemma LeastPast(heap: seq<seq<Entry>>, k: nat, t: int, desc: bool)
    requires HeapOk(heap, desc) && k < |heap| && t <= Pos(heap[k][0].log.ts, desc)
    requires forall e :: InHeap(heap, e) ==> e == heap[k][0] || Before(At(heap[k][0]), At(e), desc)
    ensures HeapPast(heap, t, desc)
  {
  }

  // Examining the least entry.
  lemma ExamineOne(runs: seq<Run>, n: nat, w: Window, heap: seq<seq<Entry>>, done: seq<Entry>, k: nat)
    requires MergeOk(runs, n, w, heap, done) && k < |heap|
    requires forall e :: InHeap(heap, e) ==> e == heap[k][0] || Before(At(heap[k][0]), At(e), w.desc)
    requires n < |runs| ==> exists e :: InHeap(heap, e) && Pos(e.log.ts, w.desc) < Near(runs[n], w.desc)
    requires ByEdge(runs, w.desc)
    ensures MergeOk(runs, n, w, Taken(heap, k), done + [heap[k][0]])
  {
    var e0 := heap[k][0];
    assert e0 in heap[k] && InHeap(heap, e0);
    TakenOk(heap, k, w.desc);
    OrderedMore(done, e0, w.desc);
    FirstShort(runs, n, heap, e0, w.desc);
    hide MergeOk, Met, InHeap, HeapOk, Taken, Before, Pos, Near, Ordered;
    Examined(runs, n, w, heap, Taken(heap, k), done, e0);
  }

  lemma Examined(runs: seq<Run>, n: nat, w: Window, heap: seq<seq<Entry>>, left: seq<seq<Entry>>, done: seq<Entry>,
                 e0: Entry)
    requires MergeOk(runs, n, w, heap, done) && InHeap(heap, e0) && HeapOk(left, w.desc)
    requires forall e :: InHeap(left, e) <==> InHeap(heap, e) && e != e0
    requires forall e :: InHeap(heap, e) ==> e == e0 || Before(At(e0), At(e), w.desc)
    requires Ordered(done + [e0], w.desc)
    requires forall i :: n <= i < |runs| ==> Pos(e0.log.ts, w.desc) < Near(runs[i], w.desc)
    ensures MergeOk(runs, n, w, left, done + [e0])
  {
    hide Met, InHeap, HeapOk, Before, Pos, Near, Ordered;
    assert forall d :: d in done + [e0] <==> d in done || d == e0;
  }

  lemma OrderedMore(es: seq<Entry>, e: Entry, desc: bool)
    requires Ordered(es, desc) && forall d :: d in es ==> Before(At(d), At(e), desc)
    ensures Ordered(es + [e], desc)
  {
  }

  lemma FirstShort(runs: seq<Run>, n: nat, heap: seq<seq<Entry>>, e0: Entry, desc: bool)
    requires ByEdge(runs, desc) && (forall e :: InHeap(heap, e) ==> e == e0 || Before(At(e0), At(e), desc))
    requires n < |runs| ==> exists e :: InHeap(heap, e) && Pos(e.log.ts, desc) < Near(runs[n], desc)
    ensures forall i :: n <= i < |runs| ==> Pos(e0.log.ts, desc) < Near(runs[i], desc)
  {
    hide InHeap;
  }

  /* A page. */

  ghost predicate OutOk(done: seq<Entry>, out: seq<Entry>, want: Entry -> bool, limit: nat, desc: bool) {
    && Ordered(out, desc)
    && (forall e :: e in out <==> e in done && want(e))
    && |out| <= limit
  }

  ghost predicate Setup(store: seq<Run>, q: Query, cur: Option<Key>, runs: seq<Run>, w: Window) {
    && StoreOk(store, q.want)
    && SnapshotOf(store, Narrowed(q, cur), runs, q.want)
    && ByEdge(runs, q.desc)
    && Narrowed(q, cur).0 <= Narrowed(q, cur).1
    && w == Window(Narrowed(q, cur).0, Narrowed(q, cur).1, cur, q.desc)
  }

  // Narrowing the range to the cursor loses nothing that lies past it.
  lemma WindowIs(q: Query, cur: Option<Key>, w: Window, e: Entry)
    requires w == Window(Narrowed(q, cur).0, Narrowed(q, cur).1, cur, q.desc)
    ensures w.Sees(e) <==> q.from <= e.log.ts <= q.to && Past(cur, At(e), q.desc)
  {
  }

  lemma MetIsCandidate(store: seq<Run>, q: Query, cur: Option<Key>, runs: seq<Run>, w: Window, n: nat, e: Entry)
    requires Setup(store, q, cur, runs, w) && Met(runs, n, w, e)
    ensures Candidate(store, q, cur, e)
  {
    hide StoreOk;
    WindowIs(q, cur, w, e);
    var i :| 0 <= i < n && i < |runs| && e in runs[i].entries;
    assert From(store, runs[i]);
  }

  // A wanted entry has been met, or is in a run not yet decoded.
  lemma WantedIs(store: seq<Run>, q: Query, cur: Option<Key>, runs: seq<Run>, w: Window, n: nat, e: Entry)
    requires Setup(store, q, cur, runs, w) && n <= |runs| && Wanted(store, q, cur, e)
    ensures Met(runs, n, w, e) || exists i :: n <= i < |runs| && Near(runs[i], q.desc) <= Pos(e.log.ts, q.desc)
  {
    hide From, Distinct, ByEdge;
    WindowIs(q, cur, w, e);
    assert Holds(runs, e);
    var r :| r in runs && e in r.entries;
    assert RunOk(r, q.want);
    var i :| 0 <= i < |runs| && runs[i] == r;
  }

  // Everything wanted and not yet out lies past everything examined.
  lemma RestIsPast(store: seq<Run>, q: Query, cur: Option<Key>, runs: seq<Run>, w: Window, n: nat,
                   heap: seq<seq<Entry>>, done: seq<Entry>, out: seq<Entry>, limit: nat, d: Entry, e: Entry)
    requires Setup(store, q, cur, runs, w) && MergeOk(runs, n, w, heap, done) && OutOk(done, out, q.want, limit, q.desc)
    requires d in done && Wanted(store, q, cur, e) && e !in out
    ensures Before(At(d), At(e), q.desc)
  {
    hide StoreOk, SnapshotOf, Met, InHeap, HeapOk, Candidate;
    WantedIs(store, q, cur, runs, w, n, e);
    assert q.want(e);
  }

  lemma MovedFrom(store: seq<Run>, q: Query, cur: Option<Key>, runs: seq<Run>, w: Window, n: nat,
                  heap: seq<seq<Entry>>, done: seq<Entry>, total: int, left: int, read: nat)
    requires Setup(store, q, cur, runs, w) && MergeOk(runs, n, w, heap, done) && BudgetOk(runs, n, total, left, read)
    requires done != [] || n == |runs|
    ensures Moved(store, q, cur, total)
  {
    hide StoreOk, RunOk, From, Distinct, Holds, Met;
    var range := Narrowed(q, cur);
    forall t | NoneShort(store, q, cur, t) ensures Fits(Blocks(store, range, t, q.desc), total) {
      var s := Blocks(store, range, t, q.desc);
      if done != [] {
        assert done[0] in done;
        MetIsCandidate(store, q, cur, runs, w, n, done[0]);
        assert t <= Pos(done[0].log.ts, q.desc);
      }
      forall r | r in s ensures r in ReadSet(runs, n) {
        assert r in runs;
        var i :| 0 <= i < |runs| && runs[i] == r;
      }
      FitsSubset(s, ReadSet(runs, n), total);
    }
  }

  // The blocks read and the one that stopped the page do not fit together.
  lemma OverBudget(store: seq<Run>, range: (int, int), runs: seq<Run>, want: Entry -> bool, n: nat, desc: bool,
                   total: int, left: int, read: nat)
    requires SnapshotOf(store, range, runs, want) && ByEdge(runs, desc) && n < |runs|
    requires BudgetOk(runs, n, total, left, read)
    requires runs[n].isBlock && !runs[n].skip && left < runs[n].raw && read > 0
    ensures var b := Blocks(store, range, Near(runs[n], desc), desc);
            runs[n] in b && runs[n] in store && !Fits(b, total)
    ensures forall t :: t < Near(runs[n], desc) ==> Fits(Blocks(store, range, t, desc), total)
  {
    hide RunOk, From, Holds, Fits;
    var r := runs[n];
    forall t | t < Near(r, desc) ensures Fits(Blocks(store, range, t, desc), total) {
      EarlierFit(store, range, runs, want, n, desc, total, left, read, t);
    }
    OverNow(store, range, runs, want, n, desc, total, left, read);
  }

  lemma EarlierFit(store: seq<Run>, range: (int, int), runs: seq<Run>, want: Entry -> bool, n: nat, desc: bool,
                   total: int, left: int, read: nat, t: int)
    requires SnapshotOf(store, range, runs, want) && ByEdge(runs, desc) && n < |runs|
    requires BudgetOk(runs, n, total, left, read)
    requires t < Near(runs[n], desc)
    ensures Fits(Blocks(store, range, t, desc), total)
  {
    hide StoreOk, From, Holds;
    forall x | x in Blocks(store, range, t, desc) ensures x in ReadSet(runs, n) {
      assert x in runs;
      var i :| 0 <= i < |runs| && runs[i] == x;
    }
    FitsSubset(Blocks(store, range, t, desc), ReadSet(runs, n), total);
  }

  lemma OverNow(store: seq<Run>, range: (int, int), runs: seq<Run>, want: Entry -> bool, n: nat, desc: bool,
                total: int, left: int, read: nat)
    requires SnapshotOf(store, range, runs, want) && ByEdge(runs, desc) && n < |runs|
    requires BudgetOk(runs, n, total, left, read)
    requires runs[n].isBlock && !runs[n].skip && left < runs[n].raw && read > 0
    ensures var b := Blocks(store, range, Near(runs[n], desc), desc);
            runs[n] in b && runs[n] in store && !Fits(b, total)
  {
    hide RunOk, From, Holds;
    var r := runs[n];
    var s, b := ReadSet(runs, n), Blocks(store, range, Near(r, desc), desc);
    assert r in runs && r !in s by { assert NoRepeat(runs); }
    forall x | x in s + {r} ensures x in b {
      assert x in runs;
    }
    hide SnapshotOf;
    SumRawAdd(s, r);
    SumRawSubset(s + {r}, b);
  }

  lemma ExceededFrom(store: seq<Run>, q: Query, cur: Option<Key>, runs: seq<Run>, w: Window, n: nat, total: int,
                     left: int, read: nat)
    requires Setup(store, q, cur, runs, w) && n < |runs| && BudgetOk(runs, n, total, left, read)
    requires runs[n].isBlock && !runs[n].skip && left < runs[n].raw && read > 0
    ensures Exceeded(store, q, cur, total)
  {
    hide StoreOk, SnapshotOf, Blocks, Fits, BudgetOk, Narrowed;
    OverBudget(store, Narrowed(q, cur), runs, q.want, n, q.desc, total, left, read);
  }

  lemma StoppedFrom(store: seq<Run>, q: Query, cur: Option<Key>, runs: seq<Run>, w: Window, n: nat,
                    heap: seq<seq<Entry>>, total: int, left: int, read: nat)
    requires Setup(store, q, cur, runs, w) && MergeOk(runs, n, w, heap, []) && BudgetOk(runs, n, total, left, read)
    requires n < |runs| && runs[n].isBlock && !runs[n].skip && left < runs[n].raw && read > 0
    requires HeapPast(heap, Near(runs[n], q.desc), q.desc)
    ensures Stopped(store, q, cur, total, Page([], Some(Edge(runs[n], q.desc)), true))
  {
    hide StoreOk, SnapshotOf, HeapOk, Before, Blocks, Fits, BudgetOk, Candidate, InHeap, Edge, ReadSet;
    var r := runs[n];
    OverBudget(store, Narrowed(q, cur), runs, q.want, n, q.desc, total, left, read);
    hide Narrowed;
    forall e | Wanted(store, q, cur, e) ensures Near(r, q.desc) <= Pos(e.log.ts, q.desc) {
      WantedIs(store, q, cur, runs, w, n, e);
      hide Met, Wanted, Pos, Near;
    }
    assert StoppedAt(store, q, cur, total, r);
  }

  // What a page that examined something and stopped, for whatever reason, has achieved.
  lemma CutAt(store: seq<Run>, q: Query, cur: Option<Key>, runs: seq<Run>, w: Window, n: nat,
              heap: seq<seq<Entry>>, done: seq<Entry>, out: seq<Entry>, limit: nat, d: Entry)
    requires Setup(store, q, cur, runs, w) && MergeOk(runs, n, w, heap, done) && OutOk(done, out, q.want, limit, q.desc)
    requires d in done && forall e :: e in out ==> e == d || Before(At(e), At(d), q.desc)
    ensures AdvancedTo(store, q, cur, out, At(d))
  {
    hide StoreOk, SnapshotOf, InHeap, HeapOk, Wanted, Before;
    assert Past(cur, At(d), q.desc) by { assert Met(runs, n, w, d); }
    hide Met, Past;
    forall e | Wanted(store, q, cur, e) && e !in out ensures Before(At(d), At(e), q.desc) {
      RestIsPast(store, q, cur, runs, w, n, heap, done, out, limit, d, e);
    }
  }

  lemma OutIsWanted(store: seq<Run>, q: Query, cur: Option<Key>, runs: seq<Run>, w: Window, n: nat,
                    heap: seq<seq<Entry>>, done: seq<Entry>, out: seq<Entry>, limit: nat)
    requires Setup(store, q, cur, runs, w) && MergeOk(runs, n, w, heap, done) && OutOk(done, out, q.want, limit, q.desc)
    ensures forall e :: e in out ==> Wanted(store, q, cur, e)
  {
    hide Setup, InHeap, HeapOk, Before, Candidate, Met;
    forall e | e in out ensures Wanted(store, q, cur, e) {
      MetIsCandidate(store, q, cur, runs, w, n, e);
    }
  }

  // Once every run is decoded and the heap is empty nothing wanted is missing.
  lemma NothingLeft(store: seq<Run>, q: Query, cur: Option<Key>, runs: seq<Run>, w: Window, done: seq<Entry>,
                    out: seq<Entry>, limit: nat)
    requires Setup(store, q, cur, runs, w) && MergeOk(runs, |runs|, w, [], done)
    requires OutOk(done, out, q.want, limit, q.desc)
    ensures forall e :: Wanted(store, q, cur, e) ==> e in out
  {
    hide Setup, Candidate;
    forall e | Wanted(store, q, cur, e) ensures e in out {
      WantedIs(store, q, cur, runs, w, |runs|, e);
      hide Met;
      assert !InHeap([], e);
    }
  }

  lemma LastOfOrdered(es: seq<Entry>, desc: bool)
    requires es != [] && Ordered(es, desc)
    ensures forall e :: e in es ==> e == es[|es| - 1] || Before(At(e), At(es[|es| - 1]), desc)
  {
  }

  datatype Progress = Progress(next: nat, heap: seq<seq<Entry>>, left: int, read: nat, out: seq<Entry>,
      examined: Option<Entry>)

  ghost predicate Going(runs: seq<Run>, w: Window, want: Entry -> bool, limit: nat, budget: int, p: Progress,
                        done: seq<Entry>)
  {
    && p.next <= |runs|
    && MergeOk(runs, p.next, w, p.heap, done)
    && BudgetOk(runs, p.next, budget, p.left, p.read)
    && OutOk(done, p.out, want, limit, w.desc)
    && p.examined == if done == [] then None else Some(done[|done| - 1])
  }

  // The merge loop.
  method Merge(ghost store: seq<Run>, q: Query, ghost cur: Option<Key>, runs: seq<Run>, w: Window, limit: nat,
               budget: int)
    returns (page: Page)
    requires Setup(store, q, cur, runs, w) && limit > 0
    ensures PageOk(store, q, cur, limit, budget, page)
  {
    var p := Progress(0, [], budget, 0, [], None);
    ghost var done: seq<Entry> := [];
    MergeStart(runs, w, q.want, limit, budget);
    while true
      invariant p.next <= |runs| && Going(runs, w, q.want, limit, budget, p, done)
      decreases |runs| - p.next, HeapSize(p.heap)
    {
      hide Setup, Going, PageOk, HeapSize;
      var next, heap, left, read, stopped := Advance(store, q, cur, runs, w, limit, budget, p, done);
      var filled := p.(next := next, heap := heap, left := left, read := read);
      if stopped {
        page := StopPage(store, q, cur, runs, w, limit, budget, filled, done);
        return;
      }
      if heap == [] {
        FinishedOk(store, q, cur, runs, w, limit, budget, filled, done);
        return Page(filled.out, None, false);
      }
      GoingHeap(runs, w, q.want, limit, budget, filled, done);
      var k := Least(heap, w.desc);
      var e := heap[k][0];
      if q.want(e) && |filled.out| == limit {
        FullOk(store, q, cur, runs, w, limit, budget, filled, done, k);
        return Page(filled.out, Some(At(filled.out[limit - 1])), false);
      }
      p := Examine(store, q, cur, runs, w, limit, budget, filled, done, k);
      done := done + [e];
    }
  }

  method Advance(ghost store: seq<Run>, q: Query, ghost cur: Option<Key>, runs: seq<Run>, w: Window, limit: nat,
                 budget: int, p: Progress, ghost done: seq<Entry>)
    returns (next: nat, heap: seq<seq<Entry>>, left: int, read: nat, stopped: bool)
    requires Setup(store, q, cur, runs, w) && Going(runs, w, q.want, limit, budget, p, done)
    ensures p.next <= next <= |runs| && (next == p.next ==> heap == p.heap)
    ensures Going(runs, w, q.want, limit, budget, p.(next := next, heap := heap, left := left, read := read), done)
    ensures if stopped then StoppedBy(runs, w.desc, next, heap, left, read) else Ready(runs, w.desc, next, heap)
  {
    hide MergeOk, BudgetOk, OutOk;
    SetupRuns(store, q, cur, runs, w);
    hide Setup, InHeap;
    next, heap, left, read, stopped := Fill(runs, w, p.next, p.heap, p.left, p.read, done, budget, q.want);
  }

  method StopPage(ghost store: seq<Run>, q: Query, ghost cur: Option<Key>, runs: seq<Run>, w: Window, limit: nat,
                  budget: int, p: Progress, ghost done: seq<Entry>)
    returns (page: Page)
    requires Setup(store, q, cur, runs, w) && Going(runs, w, q.want, limit, budget, p, done)
    requires StoppedBy(runs, w.desc, p.next, p.heap, p.left, p.read)
    ensures PageOk(store, q, cur, limit, budget, page)
  {
    hide MergeOk, BudgetOk, OutOk, Advanced, Moved, Stopped, Exceeded, HeapPast;
    SameDirection(store, q, cur, runs, w);
    hide Setup;
    if p.examined.Some? {
      TruncatedPage(store, q, cur, runs, w, p.next, p.heap, done, p.out, limit);
      MovedFrom(store, q, cur, runs, w, p.next, p.heap, done, budget, p.left, p.read);
      ExceededFrom(store, q, cur, runs, w, p.next, budget, p.left, p.read);
      return Page(p.out, Some(At(p.examined.value)), true);
    } else {
      StoppedFrom(store, q, cur, runs, w, p.next, p.heap, budget, p.left, p.read);
      return Page([], Some(Edge(runs[p.next], q.desc)), true);
    }
  }

  lemma FinishedOk(store: seq<Run>, q: Query, cur: Option<Key>, runs: seq<Run>, w: Window, limit: nat, budget: int,
                   p: Progress, done: seq<Entry>)
    requires Setup(store, q, cur, runs, w) && Going(runs, w, q.want, limit, budget, p, done)
    requires p.heap == [] && Ready(runs, w.desc, p.next, p.heap)
    ensures PageOk(store, q, cur, limit, budget, Page(p.out, None, false))
  {
    hide MergeOk, BudgetOk, OutOk, Advanced, Moved, Exceeded;
    SameDirection(store, q, cur, runs, w);
    hide Setup;
    FinishedPage(store, q, cur, runs, w, done, p.out, limit);
    MovedFrom(store, q, cur, runs, w, p.next, p.heap, done, budget, p.left, p.read);
  }

  lemma FullOk(store: seq<Run>, q: Query, cur: Option<Key>, runs: seq<Run>, w: Window, limit: nat, budget: int,
               p: Progress, done: seq<Entry>, k: nat)
    requires Setup(store, q, cur, runs, w) && Going(runs, w, q.want, limit, budget, p, done)
    requires k < |p.heap| && p.heap[k] != [] && q.want(p.heap[k][0]) && |p.out| == limit > 0
    ensures PageOk(store, q, cur, limit, budget, Page(p.out, Some(At(p.out[limit - 1])), false))
  {
    hide MergeOk, BudgetOk, Advanced, Moved, Exceeded;
    SameDirection(store, q, cur, runs, w);
    hide Setup;
    assert p.out[0] in done by { assert p.out[0] in p.out; }
    hide OutOk;
    FullPage(store, q, cur, runs, w, p.next, p.heap, done, p.out, limit, k);
    MovedFrom(store, q, cur, runs, w, p.next, p.heap, done, budget, p.left, p.read);
  }

  method Examine(ghost store: seq<Run>, q: Query, ghost cur: Option<Key>, runs: seq<Run>, w: Window, limit: nat,
                 ghost budget: int, p: Progress, ghost done: seq<Entry>, k: nat)
    returns (r: Progress)
    requires Setup(store, q, cur, runs, w) && Going(runs, w, q.want, limit, budget, p, done)
    requires k < |p.heap| && p.heap[k] != [] && (q.want(p.heap[k][0]) ==> |p.out| != limit)
    requires Ready(runs, w.desc, p.next, p.heap)
    requires forall e :: InHeap(p.heap, e) ==> e == p.heap[k][0] || Before(At(p.heap[k][0]), At(e), w.desc)
    ensures Going(runs, w, q.want, limit, budget, r, done + [p.heap[k][0]])
    ensures r.next == p.next && HeapSize(r.heap) < HeapSize(p.heap)
  {
    hide MergeOk, BudgetOk, InHeap, HeapSize, Before;
    SetupRuns(store, q, cur, runs, w);
    hide Setup, ByEdge, StoreOk;
    ExamineOne(runs, p.next, w, p.heap, done, k);
    TakenSmaller(p.heap, k);
    OutMore(runs, p.next, w, p.heap, done, p.out, q.want, limit, k);
    hide OutOk, Taken;
    var e := p.heap[k][0];
    r := p.(heap := Taken(p.heap, k), out := if q.want(e) then p.out + [e] else p.out, examined := Some(e));
  }

  lemma SetupRuns(store: seq<Run>, q: Query, cur: Option<Key>, runs: seq<Run>, w: Window)
    requires Setup(store, q, cur, runs, w)
    ensures StoreOk(runs, q.want) && ByEdge(runs, w.desc)
  {
  }

  lemma MergeStart(runs: seq<Run>, w: Window, want: Entry -> bool, limit: nat, budget: int)
    ensures Going(runs, w, want, limit, budget, Progress(0, [], budget, 0, [], None), [])
  {
    assert ReadSet(runs, 0) == {};
  }

  lemma GoingHeap(runs: seq<Run>, w: Window, want: Entry -> bool, limit: nat, budget: int, p: Progress,
                  done: seq<Entry>)
    requires Going(runs, w, want, limit, budget, p, done)
    ensures HeapOk(p.heap, w.desc) && forall i :: 0 <= i < |p.heap| ==> p.heap[i] != []
  {
  }

  lemma OutMore(runs: seq<Run>, n: nat, w: Window, heap: seq<seq<Entry>>, done: seq<Entry>, out: seq<Entry>,
                want: Entry -> bool, limit: nat, k: nat)
    requires MergeOk(runs, n, w, heap, done) && k < |heap| && heap[k] != [] && OutOk(done, out, want, limit, w.desc)
    requires want(heap[k][0]) ==> |out| < limit
    ensures OutOk(done + [heap[k][0]], if want(heap[k][0]) then out + [heap[k][0]] else out, want, limit, w.desc)
  {
    var e := heap[k][0];
    assert e in heap[k] && InHeap(heap, e);
    hide Met, HeapOk, InHeap;
    if want(e) {
      OrderedMore(out, e, w.desc);
    }
  }

  lemma TruncatedPage(store: seq<Run>, q: Query, cur: Option<Key>, runs: seq<Run>, w: Window, n: nat,
                      heap: seq<seq<Entry>>, done: seq<Entry>, out: seq<Entry>, limit: nat)
    requires Setup(store, q, cur, runs, w) && MergeOk(runs, n, w, heap, done) && OutOk(done, out, q.want, limit, q.desc)
    requires done != []
    ensures Advanced(store, q, cur, limit, Page(out, Some(At(done[|done| - 1])), true))
  {
    hide Setup, Wanted, AdvancedTo, HeapOk, Met, InHeap;
    LastOfOrdered(done, q.desc) by { SameDirection(store, q, cur, runs, w); }
    CutAt(store, q, cur, runs, w, n, heap, done, out, limit, done[|done| - 1]);
    OutIsWanted(store, q, cur, runs, w, n, heap, done, out, limit);
  }

  lemma SameDirection(store: seq<Run>, q: Query, cur: Option<Key>, runs: seq<Run>, w: Window)
    requires Setup(store, q, cur, runs, w)
    ensures w.desc == q.desc
  {
  }

  lemma FinishedPage(store: seq<Run>, q: Query, cur: Option<Key>, runs: seq<Run>, w: Window, done: seq<Entry>,
                     out: seq<Entry>, limit: nat)
    requires Setup(store, q, cur, runs, w) && MergeOk(runs, |runs|, w, [], done)
    requires OutOk(done, out, q.want, limit, q.desc)
    ensures Advanced(store, q, cur, limit, Page(out, None, false))
  {
    hide Setup, Wanted, MergeOk;
    NothingLeft(store, q, cur, runs, w, done, out, limit);
    OutIsWanted(store, q, cur, runs, w, |runs|, [], done, out, limit);
  }

  // One more match than asked for: there is a next page, and it starts after the last log of this one.
  lemma FullPage(store: seq<Run>, q: Query, cur: Option<Key>, runs: seq<Run>, w: Window, n: nat,
                 heap: seq<seq<Entry>>, done: seq<Entry>, out: seq<Entry>, limit: nat, k: nat)
    requires Setup(store, q, cur, runs, w) && MergeOk(runs, n, w, heap, done) && OutOk(done, out, q.want, limit, q.desc)
    requires k < |heap| && heap[k] != [] && q.want(heap[k][0]) && |out| == limit > 0
    ensures Advanced(store, q, cur, limit, Page(out, Some(At(out[limit - 1])), false))
  {
    hide Setup, MergeOk, AdvancedTo, Met, Candidate;
    var e := heap[k][0];
    HeapIsAhead(runs, n, w, heap, done, k);
    assert out[limit - 1] in out && out[limit - 1] in done && e !in out;
    LastOfOrdered(out, q.desc);
    hide Before;
    CutAt(store, q, cur, runs, w, n, heap, done, out, limit, out[limit - 1]);
    OutIsWanted(store, q, cur, runs, w, n, heap, done, out, limit);
    MetIsCandidate(store, q, cur, runs, w, n, e);
    assert Wanted(store, q, cur, e);
    hide Wanted, Ordered;
  }

  lemma HeapIsAhead(runs: seq<Run>, n: nat, w: Window, heap: seq<seq<Entry>>, done: seq<Entry>, k: nat)
    requires MergeOk(runs, n, w, heap, done) && k < |heap| && heap[k] != []
    ensures Met(runs, n, w, heap[k][0]) && heap[k][0] !in done
  {
    FrontIn(heap, k);
    hide Met, InHeap, HeapOk;
  }

  // Search: one page. It holds as many logs as asked for, 100 by default and 10,000 at most, unless there are no
  // more or the scan budget, 2 GiB by default, cut it; newest first, or oldest first, with numbers breaking ties.
  method Search(store: seq<Run>, q: Query, cur: Option<Key>, askedLimit: int, askedBudget: int) returns (page: Page)
    requires StoreOk(store, q.want)
    ensures var n := if askedLimit <= 0 then 100 else if askedLimit <= 10_000 then askedLimit else 10_000;
            && PageOk(store, q, cur, n, if askedBudget <= 0 then 0x8000_0000 else askedBudget, page)
            && |page.logs| <= n
            && (!page.truncated && (exists e :: Wanted(store, q, cur, e) && e !in page.logs) ==> |page.logs| == n)
    ensures forall i, j :: 0 <= i < j < |page.logs| ==>
              var a, b := page.logs[i], page.logs[j];
              if q.desc then a.log.ts > b.log.ts || (a.log.ts == b.log.ts && a.num > b.num)
              else a.log.ts < b.log.ts || (a.log.ts == b.log.ts && a.num < b.num)
  {
    page := SearchPage(store, q, cur, Limit(askedLimit), Budget(askedBudget));
    PageSize(store, q, cur, Limit(askedLimit), Budget(askedBudget), page);
    hide PageOk, Wanted;
  }

  lemma PageSize(store: seq<Run>, q: Query, cur: Option<Key>, limit: nat, budget: int, page: Page)
    requires PageOk(store, q, cur, limit, budget, page)
    ensures |page.logs| <= limit && Ordered(page.logs, q.desc)
    ensures forall e :: !page.truncated && Wanted(store, q, cur, e) && e !in page.logs ==> |page.logs| == limit
  {
    hide Wanted, Moved, Exceeded, AdvancedTo;
  }

  method SearchPage(store: seq<Run>, q: Query, cur: Option<Key>, limit: nat, budget: int) returns (page: Page)
    requires StoreOk(store, q.want) && limit > 0
    ensures PageOk(store, q, cur, limit, budget, page)
  {
    var (from, to) := Narrowed(q, cur);
    if from > to {
      EmptyRange(store, q, cur, limit);
      return Page([], None, false);
    }
    var found := Snapshot(store, from, to, q.want);
    var runs := SortRuns(found, q.desc);
    assert SnapshotOf(store, (from, to), runs, q.want) by { SortedSnapshot(store, (from, to), found, runs, q.want); }
    page := Merge(store, q, cur, runs, Window(from, to, cur, q.desc), limit, budget);
  }

  function Limit(asked: int): (n: nat)
    ensures 0 < n <= MAX_LIMIT
  {
    var l := if asked <= 0 then DEFAULT_LIMIT else asked;
    if l < MAX_LIMIT then l else MAX_LIMIT
  }

  function Budget(asked: int): int {
    if asked <= 0 then DEFAULT_SCAN_BUDGET else asked
  }

  lemma SortedSnapshot(store: seq<Run>, range: (int, int), found: seq<Run>, runs: seq<Run>, want: Entry -> bool)
    requires SnapshotOf(store, range, found, want) && NoRepeat(runs) && forall o :: o in runs <==> o in found
    ensures SnapshotOf(store, range, runs, want)
  {
    hide RunOk, From;
    forall r, e | r in store && e in r.entries && range.0 <= e.log.ts <= range.1 ensures Holds(runs, e) {
      assert Holds(found, e);
    }
  }

  lemma EmptyRange(store: seq<Run>, q: Query, cur: Option<Key>, limit: nat)
    requires Narrowed(q, cur).0 > Narrowed(q, cur).1
    ensures forall budget: int :: PageOk(store, q, cur, limit, budget, Page([], None, false))
  {
    var page: Page := Page([], None, false);
    assert forall e :: !Wanted(store, q, cur, e);
    assert Advanced(store, q, cur, limit, page);
    forall budget: int ensures PageOk(store, q, cur, limit, budget, page) {
      assert Moved(store, q, cur, budget);
    }
  }
}
