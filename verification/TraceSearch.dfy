/**
 Trace search (internal/tracestore/search.go:92-198): one sorted run of index keys
 per (env, service) pair, merged newest first, with a limit, a bound on entries
 examined and a cursor. A key's suffix is the number its bytes spell, which orders
 suffixes the same way (TraceKeys.BeOrder). The same suffix may be in two pairs:
 the merge then takes them in either order, and a cursor between them skips one.
 */
module TraceSearch {
  import opened Options

  // An index entry: its suffix, its pair, and whether the filter keeps it.
  datatype Item = Item(key: nat, pair: string, wanted: bool)

  const DEFAULT_LIMIT := 50
  const MAX_LIMIT := 500
  const DEFAULT_MAX_EXAMINED := 100_000

  ghost predicate Ascending(xs: seq<Item>) {
    forall i, j :: 0 <= i < j < |xs| ==> xs[i].key < xs[j].key
  }

  // In order, without repeats; entries of two pairs may share a key.
  ghost predicate Merged(xs: seq<Item>) {
    forall i, j :: 0 <= i < j < |xs| ==> xs[i].key <= xs[j].key && xs[i] != xs[j]
  }

  lemma MergedJoin(a: seq<Item>, b: seq<Item>)
    requires Merged(a) && Merged(b) && forall x, y :: x in a && y in b ==> x.key <= y.key && x != y
    ensures Merged(a + b)
  {
    forall i, j | 0 <= i < |a| && 0 <= j < |b| ensures a[i].key <= b[j].key && a[i] != b[j] {
      assert a[i] in a && b[j] in b;
    }
  }

  predicate Past(after: Option<nat>, k: nat) {
    after.Some? ==> after.value < k
  }

  // What an iterator over one pair yields: the keys in [low, high) past the cursor.
  function Remaining(source: seq<Item>, low: nat, high: nat, after: Option<nat>): seq<Item> {
    if source == [] then []
    else
      var n := |source| - 1;
      Remaining(source[..n], low, high, after) + if low <= source[n].key < high && Past(after, source[n].key)
          then [source[n]] else []
  }

  lemma {:induction false} RemainingHas(source: seq<Item>, low: nat, high: nat, after: Option<nat>)
    ensures forall x :: x in Remaining(source, low, high, after) <==>
              x in source && low <= x.key < high && Past(after, x.key)
  {
    if source != [] {
      var n := |source| - 1;
      RemainingHas(source[..n], low, high, after);
      assert source == source[..n] + [source[n]];
      hide Past;
    }
  }

  lemma {:induction false} RemainingIs(source: seq<Item>, low: nat, high: nat, after: Option<nat>)
    requires Ascending(source)
    ensures var r := Remaining(source, low, high, after);
            Ascending(r) && forall x :: x in r <==> x in source && low <= x.key < high && Past(after, x.key)
  {
    RemainingHas(source, low, high, after);
    if source != [] {
      hide Past;
      var n := |source| - 1;
      var rest := Remaining(source[..n], low, high, after);
      RemainingIs(source[..n], low, high, after);
      forall i | 0 <= i < |rest| ensures rest[i].key < source[n].key {
        assert rest[i] in source[..n];
      }
    }
  }

  function Wanted(xs: seq<Item>): seq<Item> {
    if xs == [] then [] else Wanted(xs[..|xs| - 1]) + if xs[|xs| - 1].wanted then [xs[|xs| - 1]] else []
  }

  lemma {:induction false} WantedIs(xs: seq<Item>)
    requires Merged(xs)
    ensures Merged(Wanted(xs)) && forall x :: x in Wanted(xs) <==> x in xs && x.wanted
  {
    if xs != [] {
      var n := |xs| - 1;
      WantedIs(xs[..n]);
      assert forall x :: x in xs <==> x in xs[..n] || x == xs[n];
      forall y | y in Wanted(xs[..n]) ensures y.key <= xs[n].key && y != xs[n] {
        assert y in xs[..n];
      }
      MergedJoin(Wanted(xs[..n]), if xs[n].wanted then [xs[n]] else []);
    }
  }

  /* The merge. */

  ghost predicate InRuns(runs: seq<seq<Item>>, x: Item) {
    exists i :: 0 <= i < |runs| && x in runs[i]
  }

  // Runs that are sorted and not empty, and no entry in two of them.
  ghost predicate RunsOk(runs: seq<seq<Item>>) {
    && (forall i :: 0 <= i < |runs| ==> runs[i] != [] && Ascending(runs[i]))
    && (forall i, j, x :: 0 <= i < j < |runs| && x in runs[i] ==> x !in runs[j])
  }

  // The heap's top: a run with the least head, any of them.
  ghost predicate IsTop(runs: seq<seq<Item>>, t: nat) {
    && t < |runs|
    && (forall i :: 0 <= i < |runs| ==> runs[i] != [])
    && (forall i :: 0 <= i < |runs| ==> runs[t][0].key <= runs[i][0].key)
  }

  method Top(runs: seq<seq<Item>>) returns (t: nat)
    requires runs != [] && RunsOk(runs)
    ensures IsTop(runs, t)
  {
    t := 0;
    var i := 1;
    while i < |runs|
      invariant 1 <= i <= |runs| && t < i && forall j :: 0 <= j < i ==> runs[t][0].key <= runs[j][0].key
    {
      if runs[i][0].key < runs[t][0].key {
        t := i;
      }
      i := i + 1;
    }
  }

  lemma TopIsLeast(runs: seq<seq<Item>>, t: nat, x: Item)
    requires RunsOk(runs) && IsTop(runs, t) && InRuns(runs, x)
    ensures InRuns(runs, runs[t][0]) && runs[t][0].key <= x.key
  {
    assert runs[t][0] in runs[t];
    var i :| 0 <= i < |runs| && x in runs[i];
    var j :| 0 <= j < |runs[i]| && runs[i][j] == x;
  }

  function Advance(runs: seq<seq<Item>>, t: nat): seq<seq<Item>>
    requires t < |runs| && runs[t] != []
  {
    if |runs[t]| == 1 then runs[..t] + runs[t + 1..] else runs[t := runs[t][1..]]
  }

  // Advancing takes away the head and nothing else.
  lemma AdvanceIs(runs: seq<seq<Item>>, t: nat)
    requires RunsOk(runs) && t < |runs| && runs[t] != []
    ensures RunsOk(Advance(runs, t)) && Size(Advance(runs, t)) < Size(runs)
    ensures forall x :: InRuns(Advance(runs, t), x) <==> InRuns(runs, x) && x != runs[t][0]
  {
    AdvanceRuns(runs, t);
    AdvanceSize(runs, t);
    hide Size;
    forall x ensures InRuns(Advance(runs, t), x) <==> InRuns(runs, x) && x != runs[t][0] {
      if InRuns(runs, x) && x != runs[t][0] { StillThere(runs, t, x); }
      if InRuns(Advance(runs, t), x) { WasThere(runs, t, x); }
    }
  }

  lemma AdvanceRuns(runs: seq<seq<Item>>, t: nat)
    requires RunsOk(runs) && t < |runs|
    ensures RunsOk(Advance(runs, t))
  {
    assert forall x :: x in runs[t][1..] ==> x in runs[t];
    var next := Advance(runs, t);
    if |runs[t]| == 1 {
      assert forall i :: 0 <= i < |next| ==> next[i] == if i < t then runs[i] else runs[i + 1];
    }
  }

  lemma StillThere(runs: seq<seq<Item>>, t: nat, x: Item)
    requires t < |runs| && runs[t] != [] && InRuns(runs, x) && x != runs[t][0]
    ensures InRuns(Advance(runs, t), x)
  {
    var next := Advance(runs, t);
    var i :| 0 <= i < |runs| && x in runs[i];
    assert forall y :: y in runs[t] <==> y == runs[t][0] || y in runs[t][1..];
    assert if |runs[t]| == 1 then i != t && next[if i < t then i else i - 1] == runs[i] else x in next[i];
  }

  lemma WasThere(runs: seq<seq<Item>>, t: nat, x: Item)
    requires RunsOk(runs) && t < |runs| && runs[t] != [] && InRuns(Advance(runs, t), x)
    ensures InRuns(runs, x) && x != runs[t][0]
  {
    var next := Advance(runs, t);
    var i :| 0 <= i < |next| && x in next[i];
    var j := if |runs[t]| == 1 && i >= t then i + 1 else i;
    assert x in runs[j];
    assert runs[t][0] in runs[t] && runs[t][0] !in runs[t][1..];
  }

  function Size(runs: seq<seq<Item>>): nat {
    if runs == [] then 0 else |runs[0]| + Size(runs[1..])
  }

  lemma {:induction false} AdvanceSize(runs: seq<seq<Item>>, t: nat)
    requires t < |runs| && runs[t] != []
    ensures Size(Advance(runs, t)) + 1 == Size(runs)
  {
    var next := Advance(runs, t);
    if t == 0 {
      assert |runs[0]| == 1 ==> next == runs[1..];
      assert |runs[0]| > 1 ==> next[1..] == runs[1..];
    } else {
      AdvanceSize(runs[1..], t - 1);
      assert next[0] == runs[0] && next[1..] == Advance(runs[1..], t - 1);
    }
  }

  // What is left in the runs can be put in order.
  lemma {:induction false} Merge(runs: seq<seq<Item>>) returns (rest: seq<Item>)
    requires RunsOk(runs)
    ensures Merged(rest) && forall x :: x in rest <==> InRuns(runs, x)
    decreases Size(runs)
  {
    if runs == [] {
      rest := [];
    } else {
      var t := LeastRun(runs, |runs|);
      AdvanceIs(runs, t);
      var more := Merge(Advance(runs, t));
      hide RunsOk, Advance, Size;
      forall y | y in more ensures runs[t][0].key <= y.key && runs[t][0] != y { TopIsLeast(runs, t, y); }
      assert InRuns(runs, runs[t][0]) by { assert runs[t][0] in runs[t]; }
      MergedJoin([runs[t][0]], more);
      rest := [runs[t][0]] + more;
    }
  }

  lemma {:induction false} LeastRun(runs: seq<seq<Item>>, n: nat) returns (t: nat)
    requires RunsOk(runs) && 0 < n <= |runs|
    ensures t < n && forall i :: 0 <= i < n ==> runs[t][0].key <= runs[i][0].key
  {
    t := 0;
    if n > 1 {
      var s := LeastRun(runs, n - 1);
      t := if runs[n - 1][0].key < runs[s][0].key then n - 1 else s;
    }
  }

  /* A page. */

  // What a page is, of the entries past its cursor in order: it went through the first n of them, kept the
  // wanted ones, and says where it stopped unless it went through all. It stops early only when it is full or
  // has used its budget.
  ghost predicate PageOk(all: seq<Item>, limit: nat, budget: nat, page: seq<Item>, next: Option<nat>) {
    exists n: nat :: PageTo(all, limit, budget, page, next, n)
  }

  ghost predicate PageTo(all: seq<Item>, limit: nat, budget: nat, page: seq<Item>, next: Option<nat>, n: nat) {
    && n <= |all| && page == Wanted(all[..n]) && |page| <= limit && n <= budget
    && (next.None? <==> n == |all|)
    && (next.Some? ==> 0 < n && next.value == all[n - 1].key && (|page| == limit || n == budget))
  }

  // One sorted run of keys per pair, and no entry in two of them.
  ghost predicate SourcesOk(sources: seq<seq<Item>>) {
    && (forall i :: 0 <= i < |sources| ==> Ascending(sources[i]))
    && (forall i, j, x :: 0 <= i < j < |sources| && x in sources[i] ==> x !in sources[j])
  }

  ghost predicate InWindow(sources: seq<seq<Item>>, low: nat, high: nat, x: Item) {
    InRuns(sources, x) && low <= x.key < high
  }

  // all is, in order, what lies in the window past the cursor.
  ghost predicate Selected(all: seq<Item>, sources: seq<seq<Item>>, low: nat, high: nat, after: Option<nat>) {
    Merged(all) && forall x :: x in all <==> InWindow(sources, low, high, x) && Past(after, x.key)
  }

  // A page of what lies in the window past the cursor, in some order by suffix.
  ghost predicate IsPage(sources: seq<seq<Item>>, low: nat, high: nat, after: Option<nat>, limit: nat, budget: nat,
                         page: seq<Item>, next: Option<nat>)
  {
    exists all :: Selected(all, sources, low, high, after) && PageOk(all, limit, budget, page, next)
  }

  // Midway: done has been examined, the runs hold the rest.
  ghost predicate Going(done: seq<Item>, runs: seq<seq<Item>>, sources: seq<seq<Item>>, low: nat, high: nat,
                        after: Option<nat>)
  {
    && Merged(done) && RunsOk(runs)
    && (forall x, y :: x in done && InRuns(runs, y) ==> x.key <= y.key && x != y)
    && (forall x :: x in done || InRuns(runs, x) <==> InWindow(sources, low, high, x) && Past(after, x.key))
  }

  method Search(sources: seq<seq<Item>>, low: nat, high: nat, askedLimit: int, askedBudget: int, after: Option<nat>)
    returns (page: seq<Item>, next: Option<nat>)
    requires SourcesOk(sources)
    ensures var n := if askedLimit <= 0 then 50 else if askedLimit <= 500 then askedLimit else 500;
            && IsPage(sources, low, high, after, n, if askedBudget <= 0 then 100_000 else askedBudget, page, next)
            && |page| <= n
  {
    var limit, budget := Limit(askedLimit), Budget(askedBudget);
    page, next := SearchPage(sources, low, high, limit, budget, after);
  }

  method SearchPage(sources: seq<seq<Item>>, low: nat, high: nat, limit: nat, budget: nat, after: Option<nat>)
    returns (page: seq<Item>, next: Option<nat>)
    requires SourcesOk(sources) && limit > 0 && budget > 0
    ensures IsPage(sources, low, high, after, limit, budget, page, next) && |page| <= limit
  {
    hide Wanted, Going, Advance, SourcesOk, Selected, RunsOk, IsTop, Size;
    var runs := Open(sources, low, high, after);
    page, next := [], None;
    var examined, lastKey := 0, 0;
    ghost var done: seq<Item> := [];
    NoneWanted();
    while runs != []
      invariant Going(done, runs, sources, low, high, after)
      invariant examined == |done| <= budget && page == Wanted(done) && |page| <= limit
      invariant examined > 0 ==> lastKey == done[examined - 1].key
      decreases Size(runs)
    {
      GoingRuns(done, runs, sources, low, high, after);
      if |page| == limit || examined >= budget {
        next := Some(lastKey);
        ghost var all := Finish(done, runs, sources, low, high, after);
        assert PageTo(all, limit, budget, page, next, examined);
        return;
      }
      var t := Top(runs);
      OneExamined(done, runs, t, sources, low, high, after);
      var x := runs[t][0];
      if x.wanted {
        page := page + [x];
      }
      lastKey, runs, examined, done := x.key, Advance(runs, t), examined + 1, done + [x];
    }
    ghost var all := Finish(done, runs, sources, low, high, after);
    assert PageTo(all, limit, budget, page, next, examined);
  }

  lemma GoingRuns(done: seq<Item>, runs: seq<seq<Item>>, sources: seq<seq<Item>>, low: nat, high: nat,
                  after: Option<nat>)
    requires Going(done, runs, sources, low, high, after)
    ensures RunsOk(runs)
  {
  }

  lemma OneExamined(done: seq<Item>, runs: seq<seq<Item>>, t: nat, sources: seq<seq<Item>>, low: nat, high: nat,
                    after: Option<nat>)
    requires Going(done, runs, sources, low, high, after) && IsTop(runs, t)
    ensures t < |runs| && runs[t] != [] && Size(Advance(runs, t)) < Size(runs)
    ensures Going(done + [runs[t][0]], Advance(runs, t), sources, low, high, after)
    ensures Wanted(done + [runs[t][0]]) == if runs[t][0].wanted then Wanted(done) + [runs[t][0]] else Wanted(done)
  {
    hide Size, Going, RunsOk;
    var x, next := runs[t][0], Advance(runs, t);
    GoingRuns(done, runs, sources, low, high, after);
    AdvanceIs(runs, t);
    WantedOne(done, x);
    assert InRuns(runs, x) by { assert runs[t][0] in runs[t]; }
    forall y | InRuns(next, y) ensures x.key <= y.key { TopIsLeast(runs, t, y); }
    hide Advance, InRuns, Wanted;
    GoingOn(done, runs, x, next, sources, low, high, after);
  }

  lemma GoingOn(done: seq<Item>, runs: seq<seq<Item>>, x: Item, next: seq<seq<Item>>, sources: seq<seq<Item>>,
                low: nat, high: nat, after: Option<nat>)
    requires Going(done, runs, sources, low, high, after) && InRuns(runs, x) && RunsOk(next)
    requires forall y :: InRuns(next, y) <==> InRuns(runs, y) && y != x
    requires forall y :: InRuns(next, y) ==> x.key <= y.key
    ensures Going(done + [x], next, sources, low, high, after)
  {
    hide RunsOk, InRuns, InWindow;
    MergedJoin(done, [x]);
    hide Merged;
    assert forall y :: y in done + [x] <==> y in done || y == x;
  }

  // Put in order, what the runs still hold completes the list.
  lemma Finish(done: seq<Item>, runs: seq<seq<Item>>, sources: seq<seq<Item>>, low: nat, high: nat, after: Option<nat>)
    returns (all: seq<Item>)
    requires Going(done, runs, sources, low, high, after)
    ensures Selected(all, sources, low, high, after) && done <= all && all[..|done|] == done
    ensures |done| == |all| <==> runs == []
  {
    hide InWindow;
    var rest := Merge(runs);
    MergedJoin(done, rest);
    all := done + rest;
    if runs != [] {
      assert runs[0][0] in runs[0] && InRuns(runs, runs[0][0]);
    } else {
      HeadIn(rest);
    }
  }

  lemma WantedOne(xs: seq<Item>, x: Item)
    ensures Wanted(xs + [x]) == if x.wanted then Wanted(xs) + [x] else Wanted(xs)
  {
    assert (xs + [x])[..|xs|] == xs;
  }

  lemma NoneWanted()
    ensures Wanted([]) == []
  {
  }

  lemma HeadIn(a: seq<Item>)
    ensures a == [] || a[0] in a
  {
  }

  function Limit(asked: int): (r: nat)
    ensures 0 < r <= MAX_LIMIT
  {
    if asked <= 0 then DEFAULT_LIMIT else if asked > MAX_LIMIT then MAX_LIMIT else asked
  }

  function Budget(asked: int): (r: nat)
    ensures 0 < r
  {
    if asked <= 0 then DEFAULT_MAX_EXAMINED else asked
  }

  method Open(sources: seq<seq<Item>>, low: nat, high: nat, after: Option<nat>) returns (runs: seq<seq<Item>>)
    requires SourcesOk(sources)
    ensures Going([], runs, sources, low, high, after)
  {
    runs := [];
    var i := 0;
    hide SourcesOk, RunsOk, Ascending, InRuns, Past;
    OpenNone(sources, low, high, after);
    while i < |sources|
      invariant 0 <= i <= |sources| && Opened(sources, i, low, high, after, runs)
    {
      var run := Remaining(sources[i], low, high, after);
      OpenOne(sources, i, low, high, after, runs);
      hide Remaining, Opened;
      if run != [] {
        runs := runs + [run];
      }
      i := i + 1;
    }
    OpenAll(sources, low, high, after, runs);
  }

  // The first i sources have been opened.
  ghost predicate Opened(sources: seq<seq<Item>>, i: nat, low: nat, high: nat, after: Option<nat>, runs: seq<seq<Item>>)
    requires i <= |sources|
  {
    RunsOk(runs) && forall x :: InRuns(runs, x) <==>
        InRuns(sources[..i], x) && low <= x.key < high && Past(after, x.key)
  }

  lemma OpenNone(sources: seq<seq<Item>>, low: nat, high: nat, after: Option<nat>)
    ensures Opened(sources, 0, low, high, after, [])
  {
  }

  lemma OpenAll(sources: seq<seq<Item>>, low: nat, high: nat, after: Option<nat>, runs: seq<seq<Item>>)
    requires Opened(sources, |sources|, low, high, after, runs)
    ensures Going([], runs, sources, low, high, after)
  {
    hide RunsOk, InRuns, Past;
    assert sources[..|sources|] == sources;
  }

  lemma OpenOne(sources: seq<seq<Item>>, i: nat, low: nat, high: nat, after: Option<nat>, runs: seq<seq<Item>>)
    requires SourcesOk(sources) && i < |sources| && Opened(sources, i, low, high, after, runs)
    ensures var run := Remaining(sources[i], low, high, after);
            Opened(sources, i + 1, low, high, after, if run != [] then runs + [run] else runs)
  {
    var run := Remaining(sources[i], low, high, after);
    RemainingIs(sources[i], low, high, after);
    hide Remaining, Past;
    InMore(sources, i);
    if run != [] {
      InOneMore(runs, run);
      forall j, x | 0 <= j < |runs| && x in runs[j] ensures x !in run {
        assert InRuns(runs, x);
        var k :| 0 <= k < i && x in sources[..i][k];
        assert x in sources[k];
      }
      RunsMore(runs, run);
      hide RunsOk, InRuns, SourcesOk;
    }
  }

  lemma RunsMore(runs: seq<seq<Item>>, run: seq<Item>)
    requires RunsOk(runs) && run != [] && Ascending(run)
    requires forall j, x :: 0 <= j < |runs| && x in runs[j] ==> x !in run
    ensures RunsOk(runs + [run])
  {
    hide Ascending;
  }

  lemma InMore(sources: seq<seq<Item>>, i: nat)
    requires i < |sources|
    ensures forall x :: InRuns(sources[..i + 1], x) <==> InRuns(sources[..i], x) || x in sources[i]
  {
    forall x ensures InRuns(sources[..i + 1], x) <==> InRuns(sources[..i], x) || x in sources[i] {
      if InRuns(sources[..i], x) {
        var k :| 0 <= k < i && x in sources[..i][k];
        assert x in sources[..i + 1][k];
      }
      if x in sources[i] {
        assert x in sources[..i + 1][i];
      }
    }
  }

  lemma InOneMore(runs: seq<seq<Item>>, run: seq<Item>)
    ensures forall x :: InRuns(runs + [run], x) <==> InRuns(runs, x) || x in run
  {
    var more := runs + [run];
    assert more[..|runs|] == runs && more[..|runs| + 1] == more;
    InMore(more, |runs|);
  }

  /* Following cursors. */

  datatype Turn = Turn(limit: nat, budget: nat, page: seq<Item>, next: Option<nat>)

  ghost function Cursor(turns: seq<Turn>, n: nat): Option<nat>
    requires n <= |turns|
  {
    if n == 0 then None else turns[n - 1].next
  }

  ghost predicate IsSession(turns: seq<Turn>, sources: seq<seq<Item>>, low: nat, high: nat) {
    forall i :: 0 <= i < |turns| ==> TurnOk(turns, sources, low, high, i)
  }

  ghost predicate TurnOk(turns: seq<Turn>, sources: seq<seq<Item>>, low: nat, high: nat, i: nat)
    requires i < |turns|
  {
    var t := turns[i];
    && (i > 0 ==> Cursor(turns, i).Some?)
    && IsPage(sources, low, high, Cursor(turns, i), t.limit, t.budget, t.page, t.next)
  }

  ghost function Returned(turns: seq<Turn>, n: nat): seq<Item>
    requires n <= |turns|
  {
    if n == 0 then [] else Returned(turns, n - 1) + turns[n - 1].page
  }

  ghost predicate Short(next: Option<nat>, k: nat) {
    next.Some? ==> k < next.value
  }

  ghost predicate UpTo(next: Option<nat>, k: nat) {
    next.Some? ==> k <= next.value
  }

  // One page: wanted entries past its cursor, none past the cursor it leaves, and of those before that all.
  lemma PageHas(sources: seq<seq<Item>>, low: nat, high: nat, after: Option<nat>, limit: nat, budget: nat,
                page: seq<Item>, next: Option<nat>)
    requires IsPage(sources, low, high, after, limit, budget, page, next)
    ensures Merged(page) && (next.Some? ==> Past(after, next.value))
    ensures forall x :: x in page ==>
              InWindow(sources, low, high, x) && x.wanted && Past(after, x.key) && UpTo(next, x.key)
    ensures forall x ::
              InWindow(sources, low, high, x) && x.wanted && Past(after, x.key) && Short(next, x.key) ==> x in page
  {
    hide InWindow, Selected, PageOk, Merged;
    var all :| Selected(all, sources, low, high, after) && PageOk(all, limit, budget, page, next);
    PageHasOf(all, sources, low, high, after, limit, budget, page, next);
  }

  lemma PageHasOf(all: seq<Item>, sources: seq<seq<Item>>, low: nat, high: nat, after: Option<nat>, limit: nat,
                  budget: nat, page: seq<Item>, next: Option<nat>)
    requires Selected(all, sources, low, high, after) && PageOk(all, limit, budget, page, next)
    ensures Merged(page) && (next.Some? ==> Past(after, next.value))
    ensures forall x :: x in page ==>
              InWindow(sources, low, high, x) && x.wanted && Past(after, x.key) && UpTo(next, x.key)
    ensures forall x ::
              InWindow(sources, low, high, x) && x.wanted && Past(after, x.key) && Short(next, x.key) ==> x in page
  {
    hide Wanted, InWindow;
    var n: nat :| PageTo(all, limit, budget, page, next, n);
    WantedIs(all[..n]);
    assert all[..|all|] == all;
    assert next.Some? ==> all[n - 1] in all;
    forall x | x in page ensures x in all && UpTo(next, x.key) {
      assert x in all[..n];
    }
    forall x | x in all && x.wanted && (next.Some? ==> x.key < next.value) ensures x in page {
      var i :| 0 <= i < |all| && all[i] == x;
      assert i < n;
      assert all[..n][i] == x;
    }
  }

  // Whatever shares a suffix, pages end to end are in order and repeat nothing, and hold only what was asked for.
  lemma {:induction false} PagesSound(turns: seq<Turn>, sources: seq<seq<Item>>, low: nat, high: nat, k: nat)
    requires IsSession(turns, sources, low, high) && k <= |turns|
    ensures Merged(Returned(turns, k))
    ensures forall x :: x in Returned(turns, k) ==>
              InWindow(sources, low, high, x) && x.wanted && UpTo(Cursor(turns, k), x.key)
  {
    if k > 0 {
      PagesSound(turns, sources, low, high, k - 1);
      var t, before := turns[k - 1], Returned(turns, k - 1);
      assert TurnOk(turns, sources, low, high, k - 1);
      PageHas(sources, low, high, Cursor(turns, k - 1), t.limit, t.budget, t.page, t.next);
      hide InWindow, IsPage;
      if k == 1 {
        assert before + t.page == t.page;
      } else {
        MergedJoin(before, t.page);
      }
    }
  }

  // Cursors advance, so a session of enough pages ends.
  lemma {:induction false} CursorsAdvance(turns: seq<Turn>, sources: seq<seq<Item>>, low: nat, high: nat, i: nat,
                                          j: nat)
    requires IsSession(turns, sources, low, high) && i < j <= |turns| && Cursor(turns, j).Some?
    ensures Past(Cursor(turns, i), Cursor(turns, j).value)
    decreases j
  {
    var t := turns[j - 1];
    assert TurnOk(turns, sources, low, high, j - 1);
    PageHas(sources, low, high, Cursor(turns, j - 1), t.limit, t.budget, t.page, t.next);
    if i < j - 1 {
      CursorsAdvance(turns, sources, low, high, i, j - 1);
    }
  }

  // No page's cursor has the key of a wanted entry that is still to be returned.
  ghost predicate NoneSkipped(turns: seq<Turn>, sources: seq<seq<Item>>, low: nat, high: nat, k: nat)
    requires k <= |turns|
  {
    forall i, y :: 0 <= i < k && InWindow(sources, low, high, y) && y.wanted && turns[i].next == Some(y.key) ==>
        y in Returned(turns, i + 1)
  }

  // Then the pages hold exactly the wanted entries up to the cursor: nothing skipped, wherever a page stopped,
  // and all of them once a page comes without a cursor.
  lemma {:induction false} PagesCover(turns: seq<Turn>, sources: seq<seq<Item>>, low: nat, high: nat, k: nat)
    requires IsSession(turns, sources, low, high) && 0 < k <= |turns| && NoneSkipped(turns, sources, low, high, k)
    ensures forall x :: x in Returned(turns, k) <==>
              InWindow(sources, low, high, x) && x.wanted && UpTo(Cursor(turns, k), x.key)
  {
    PagesSound(turns, sources, low, high, k);
    var t := turns[k - 1];
    assert TurnOk(turns, sources, low, high, k - 1);
    PageHas(sources, low, high, Cursor(turns, k - 1), t.limit, t.budget, t.page, t.next);
    if k > 1 {
      PagesCover(turns, sources, low, high, k - 1);
    }
    hide InWindow, IsPage;
    forall x | InWindow(sources, low, high, x) && x.wanted && UpTo(Cursor(turns, k), x.key)
      ensures x in Returned(turns, k)
    {
      if t.next != Some(x.key) && Past(Cursor(turns, k - 1), x.key) {
        assert x in t.page;
      }
    }
  }

  // A finished session returned every wanted entry if and only if no cursor skipped one.
  lemma PagesCoverIff(turns: seq<Turn>, sources: seq<seq<Item>>, low: nat, high: nat)
    requires IsSession(turns, sources, low, high) && turns != [] && turns[|turns| - 1].next.None?
    ensures (forall x :: InWindow(sources, low, high, x) && x.wanted ==> x in Returned(turns, |turns|))
       <==> NoneSkipped(turns, sources, low, high, |turns|)
  {
    hide InWindow, Returned;
    if NoneSkipped(turns, sources, low, high, |turns|) {
      PagesCover(turns, sources, low, high, |turns|);
    }
    if forall x :: InWindow(sources, low, high, x) && x.wanted ==> x in Returned(turns, |turns|) {
      forall i, y | 0 <= i < |turns| && InWindow(sources, low, high, y) && y.wanted && turns[i].next == Some(y.key)
        ensures y in Returned(turns, i + 1)
      {
        NotLater(turns, sources, low, high, i + 1, |turns|, y);
      }
    }
  }

  // What a cursor has reached is not in a later page.
  lemma {:induction false} NotLater(turns: seq<Turn>, sources: seq<seq<Item>>, low: nat, high: nat, i: nat, j: nat,
                                    y: Item)
    requires IsSession(turns, sources, low, high) && 0 < i <= j <= |turns| && Cursor(turns, i) == Some(y.key)
    requires y in Returned(turns, j)
    ensures y in Returned(turns, i)
    decreases j
  {
    if i < j {
      var t := turns[j - 1];
      assert TurnOk(turns, sources, low, high, j - 1);
      PageHas(sources, low, high, Cursor(turns, j - 1), t.limit, t.budget, t.page, t.next);
      if i < j - 1 {
        CursorsAdvance(turns, sources, low, high, i, j - 1);
      }
      assert y !in t.page;
      NotLater(turns, sources, low, high, i, j - 1, y);
    }
  }

  // Suffixes that no two pairs share are never skipped.
  lemma UniqueNotSkipped(turns: seq<Turn>, sources: seq<seq<Item>>, low: nat, high: nat)
    requires IsSession(turns, sources, low, high)
    requires forall x, y :: InWindow(sources, low, high, x) && InWindow(sources, low, high, y) && x.key == y.key ==>
               x == y
    ensures NoneSkipped(turns, sources, low, high, |turns|)
  {
    hide InWindow;
    forall i, y | 0 <= i < |turns| && InWindow(sources, low, high, y) && y.wanted && turns[i].next == Some(y.key)
      ensures y in Returned(turns, i + 1)
    {
      var t := turns[i];
      assert TurnOk(turns, sources, low, high, i);
      var all :| Selected(all, sources, low, high, Cursor(turns, i)) && PageOk(all, t.limit, t.budget, t.page, t.next);
      LastConsumed(all, t.limit, t.budget, t.page, t.next, y);
    }
  }

  lemma LastConsumed(all: seq<Item>, limit: nat, budget: nat, page: seq<Item>, next: Option<nat>, y: Item)
    requires Merged(all) && PageOk(all, limit, budget, page, next) && next == Some(y.key) && y.wanted
    requires forall x :: x in all && x.key == y.key ==> x == y
    ensures y in page
  {
    var n: nat :| PageTo(all, limit, budget, page, next, n);
    WantedIs(all[..n]);
    assert all[n - 1] in all && all[..n][n - 1] == all[n - 1];
  }

  // Two pairs with an entry under the same suffix, one log a page: whichever comes first, the other is never
  // returned, and the session ends.
  lemma SharedSuffixLost(x: Item, y: Item) returns (turns: seq<Turn>)
    requires x.key == y.key && x != y && x.wanted && y.wanted
    ensures SourcesOk([[x], [y]]) && IsSession(turns, [[x], [y]], 0, x.key + 1)
    ensures |turns| == 2 && turns[0].limit == 1 && turns[1].next.None?
    ensures Returned(turns, 2) == [x] && y !in Returned(turns, 2)
  {
    turns := [Turn(1, 10, [x], Some(x.key)), Turn(1, 10, [], None)];
    TwoSources(x, y);
    TwoPages(x, y, turns);
    hide SourcesOk, IsSession;
    assert Returned(turns, 1) == [x];
  }

  lemma TwoPages(x: Item, y: Item, turns: seq<Turn>)
    requires turns == [Turn(1, 10, [x], Some(x.key)), Turn(1, 10, [], None)] && x.wanted
    requires Selected([x, y], [[x], [y]], 0, x.key + 1, None) && Selected([], [[x], [y]], 0, x.key + 1, Some(x.key))
    ensures IsSession(turns, [[x], [y]], 0, x.key + 1)
  {
    FirstOfTwo(x, y);
    assert PageTo([], 1, 10, [], None, 0);
    hide Selected, PageTo;
    var sources := [[x], [y]];
    assert PageOk([x, y], 1, 10, [x], Some(x.key)) && PageOk([], 1, 10, [], None);
    assert TurnOk(turns, sources, 0, x.key + 1, 0) && TurnOk(turns, sources, 0, x.key + 1, 1);
  }

  lemma TwoSources(x: Item, y: Item)
    requires x.key == y.key && x != y
    ensures SourcesOk([[x], [y]]) && Selected([x, y], [[x], [y]], 0, x.key + 1, None)
    ensures Selected([], [[x], [y]], 0, x.key + 1, Some(x.key))
  {
    var sources := [[x], [y]];
    assert sources[0] == [x] && sources[1] == [y];
    assert forall z :: InRuns(sources, z) <==> z == x || z == y;
    hide InRuns;
  }

  lemma FirstOfTwo(x: Item, y: Item)
    requires x.wanted
    ensures PageTo([x, y], 1, 10, [x], Some(x.key), 1)
  {
    assert [x, y][..1] == [] + [x];
    WantedOne([], x);
  }
}
