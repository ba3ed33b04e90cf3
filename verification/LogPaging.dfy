/**
 Following cursors (internal/logstore/search.go:275-290, 386-396). Between pages
 the store may take in new logs, move entries from heads to blocks, or crash and
 recover. The pages of a session, end to end, are the reference answer as far as
 they got: nothing repeated, nothing skipped, also when a page stops on the scan
 budget. A page that stops may resume behind the cursor it was given; the order
 holds exactly when pages from such a cursor return nothing, and they do return
 nothing as long as the budget does not grow.
 */
module LogPaging {
  import opened Options
  import opened LogState
  import opened LogSearch
  import LogMerge

  datatype Turn = Turn(store: seq<Run>, limit: nat, budget: int, page: Page)

  ghost function Cursor(turns: seq<Turn>, i: nat): Option<Key>
    requires i <= |turns|
  {
    if i == 0 then None else turns[i - 1].page.cursor
  }

  // Each page starts from the cursor of the one before.
  ghost predicate IsSession(turns: seq<Turn>, q: Query) {
    && (forall i :: 0 <= i < |turns| ==> TurnOk(turns, q, i))
    && (forall i :: 0 <= i < |turns| - 1 ==> turns[i].page.cursor.Some?)
  }

  ghost predicate TurnOk(turns: seq<Turn>, q: Query, i: nat)
    requires i < |turns|
  {
    var t := turns[i];
    StoreOk(t.store, q.want) && t.limit > 0 && PageOk(t.store, q, Cursor(turns, i), t.limit, t.budget, t.page)
  }

  // Everything the first n pages returned.
  ghost function Returned(turns: seq<Turn>, n: nat): seq<Entry>
    requires n <= |turns|
  {
    if n == 0 then [] else Returned(turns, n - 1) + turns[n - 1].page.logs
  }

  // What there was to find whenever a page was read.
  ghost predicate Base(turns: seq<Turn>, q: Query, e: Entry) {
    forall i :: 0 <= i < |turns| ==> Wanted(turns[i].store, q, None, e)
  }

  // Page n starts behind a log already returned.
  ghost predicate Behind(turns: seq<Turn>, q: Query, n: nat)
    requires n < |turns|
  {
    Cursor(turns, n).Some? && !Clear(Returned(turns, n), Cursor(turns, n).value, q.desc)
  }

  // Every page that starts behind a log already returned returns none.
  ghost predicate Steady(turns: seq<Turn>, q: Query) {
    forall n :: 0 <= n < |turns| && Behind(turns, q, n) ==> turns[n].page.logs == []
  }

  /* The invariant of a session. */

  ghost predicate AtOrBefore(a: Key, b: Key, desc: bool) {
    a == b || Before(a, b, desc)
  }

  // The cursor separates what was returned from what was not.
  ghost predicate Clear(out: seq<Entry>, c: Key, desc: bool) {
    forall f :: f in out ==> AtOrBefore(At(f), c, desc)
  }

  ghost predicate SessionOk(turns: seq<Turn>, q: Query, n: nat)
    requires 0 < n <= |turns|
  {
    var out, c := Returned(turns, n), turns[n - 1].page.cursor;
    && Ordered(out, q.desc)
    && (forall e :: Base(turns, q, e) && e !in out ==> c.Some? && Ahead(out, c.value, e, q.desc))
  }

  // e lies past the cursor and past everything returned.
  ghost predicate Ahead(out: seq<Entry>, c: Key, e: Entry, desc: bool) {
    Before(c, At(e), desc) && forall f :: f in out ==> Before(At(f), At(e), desc)
  }

  /* Orders. */

  // The entries past an edge are exactly those not short of it.
  lemma PastEdge(r: Run, e: Entry, desc: bool)
    requires e.num <= MAX_SEQ
    ensures Before(Edge(r, desc), At(e), desc) <==> Near(r, desc) <= Pos(e.log.ts, desc)
  {
  }

  lemma BaseIsWanted(turns: seq<Turn>, q: Query, i: nat, cur: Option<Key>, e: Entry)
    requires IsSession(turns, q) && i < |turns| && Base(turns, q, e) && Past(cur, At(e), q.desc)
    ensures Wanted(turns[i].store, q, cur, e) && e.num <= MAX_SEQ
  {
    assert TurnOk(turns, q, i) && Wanted(turns[i].store, q, None, e);
    var r :| r in turns[i].store && e in r.entries;
    assert RunOk(r, q.want);
    hide StoreOk, RunOk, PageOk;
  }

  lemma OrderedJoin(out: seq<Entry>, logs: seq<Entry>, desc: bool)
    requires Ordered(out, desc) && Ordered(logs, desc)
    requires forall f, e :: f in out && e in logs ==> Before(At(f), At(e), desc)
    ensures Ordered(out + logs, desc)
  {
    hide Before;
    forall i, j | 0 <= i < |out| && 0 <= j < |logs| ensures Before(At(out[i]), At(logs[j]), desc) {
      assert out[i] in out && logs[j] in logs;
    }
  }

  /* One more page. */

  // A page that starts at or past everything returned goes on from there.
  lemma AdvanceKeeps(turns: seq<Turn>, q: Query, n: nat)
    requires IsSession(turns, q) && n < |turns| && (n > 0 ==> SessionOk(turns, q, n)) && !Behind(turns, q, n)
    requires Advanced(turns[n].store, q, Cursor(turns, n), turns[n].limit, turns[n].page)
    ensures SessionOk(turns, q, n + 1)
  {
    hide TurnOk, Holds, Candidate;
    var t, cur, before, out := turns[n], Cursor(turns, n), Returned(turns, n), Returned(turns, n + 1);
    assert out == before + t.page.logs;
    forall f, e | f in before && e in t.page.logs ensures Before(At(f), At(e), q.desc) {
      assert Wanted(t.store, q, cur, e);
      assert Past(cur, At(e), q.desc) by { WantedPast(t.store, q, cur, e); }
    }
    OrderedJoin(before, t.page.logs, q.desc);
    forall e | Base(turns, q, e) && e !in out
      ensures t.page.cursor.Some? && Ahead(out, t.page.cursor.value, e, q.desc)
    {
      BaseIsWanted(turns, q, n, cur, e);
      assert e !in t.page.logs;
      assert AdvancedTo(t.store, q, cur, t.page.logs, t.page.cursor.value);
    }
  }

  // A page without logs, wherever it started, leaves a cursor no further on than what is still to come.
  lemma EmptyKeeps(turns: seq<Turn>, q: Query, n: nat)
    requires IsSession(turns, q) && n < |turns| && (n > 0 ==> SessionOk(turns, q, n)) && turns[n].page.logs == []
    ensures SessionOk(turns, q, n + 1)
  {
    hide Holds, Candidate, Fits, Blocks, Narrowed, Moved, StoreOk, Exceeded;
    var t, cur, out := turns[n], Cursor(turns, n), Returned(turns, n);
    assert Returned(turns, n + 1) == out && TurnOk(turns, q, n);
    forall e | Base(turns, q, e) && e !in out
      ensures t.page.cursor.Some? && Ahead(out, t.page.cursor.value, e, q.desc)
    {
      BaseIsWanted(turns, q, n, cur, e);
      EmptyBefore(t.store, q, cur, t.limit, t.budget, t.page, e);
    }
  }

  lemma EmptyBefore(store: seq<Run>, q: Query, cur: Option<Key>, limit: nat, budget: int, page: Page, e: Entry)
    requires PageOk(store, q, cur, limit, budget, page) && page.logs == [] && Wanted(store, q, cur, e)
    requires e.num <= MAX_SEQ
    ensures page.cursor.Some? && Before(page.cursor.value, At(e), q.desc)
  {
    hide Wanted, Fits, Blocks, Narrowed, Moved, Exceeded;
    if Stopped(store, q, cur, budget, page) {
      var r :| r in store && page.cursor == Some(Edge(r, q.desc)) && StoppedAt(store, q, cur, budget, r);
      PastEdge(r, e, q.desc);
    }
  }

  lemma WantedPast(store: seq<Run>, q: Query, cur: Option<Key>, e: Entry)
    requires Wanted(store, q, cur, e)
    ensures Past(cur, At(e), q.desc)
  {
  }

  lemma {:induction false} SessionKeeps(turns: seq<Turn>, q: Query, n: nat)
    requires IsSession(turns, q) && Steady(turns, q) && 0 < n <= |turns|
    ensures SessionOk(turns, q, n)
  {
    hide SessionOk, Behind, Stopped, Advanced, Moved, Exceeded, StoreOk;
    var i := n - 1;
    if i > 0 {
      SessionKeeps(turns, q, i);
    }
    assert TurnOk(turns, q, i);
    var t := turns[i];
    if Stopped(t.store, q, Cursor(turns, i), t.budget, t.page) {
      StoppedEmpty(t.store, q, Cursor(turns, i), t.budget, t.page);
    }
    if t.page.logs == [] {
      EmptyKeeps(turns, q, i);
    } else {
      AdvanceKeeps(turns, q, i);
    }
  }

  /* The guarantee. */

  ghost function Kept(turns: seq<Turn>, q: Query, es: seq<Entry>): seq<Entry> {
    if es == [] then []
    else Kept(turns, q, es[..|es| - 1]) + (if Base(turns, q, es[|es| - 1]) then [es[|es| - 1]] else [])
  }

  lemma {:induction false} KeptIs(turns: seq<Turn>, q: Query, es: seq<Entry>)
    requires Ordered(es, q.desc)
    ensures Ordered(Kept(turns, q, es), q.desc)
    ensures forall e :: e in Kept(turns, q, es) <==> e in es && Base(turns, q, e)
  {
    hide Base, Before;
    if es != [] {
      var n := |es| - 1;
      KeptIs(turns, q, es[..n]);
      var before := Kept(turns, q, es[..n]);
      forall i | 0 <= i < |before| ensures Before(At(before[i]), At(es[n]), q.desc) {
        assert before[i] in es[..n];
      }
    }
  }

  // An ordered list that holds part of another, and nothing that comes after a missing element, begins it.
  lemma {:induction false} BeginsWith(xs: seq<Entry>, whole: seq<Entry>, desc: bool)
    requires Ordered(xs, desc) && Ordered(whole, desc) && (forall e :: e in xs ==> e in whole)
    requires forall e, f :: e in whole && e !in xs && f in xs ==> Before(At(f), At(e), desc)
    ensures xs <= whole
  {
    if xs != [] {
      SameHead(xs, whole, desc);
      TailsFit(xs, whole, desc);
      BeginsWith(xs[1..], whole[1..], desc);
    }
  }

  lemma SameHead(xs: seq<Entry>, whole: seq<Entry>, desc: bool)
    requires Ordered(xs, desc) && Ordered(whole, desc) && xs != [] && (forall e :: e in xs ==> e in whole)
    requires forall e, f :: e in whole && e !in xs && f in xs ==> Before(At(f), At(e), desc)
    ensures whole != [] && xs[0] == whole[0]
  {
    assert xs[0] in xs;
    var j :| 0 <= j < |whole| && whole[j] == xs[0];
    assert whole[0] in whole;
    assert j > 0 ==> Before(At(whole[0]), At(whole[j]), desc);
  }

  lemma TailsFit(xs: seq<Entry>, whole: seq<Entry>, desc: bool)
    requires Ordered(xs, desc) && Ordered(whole, desc) && xs != [] && whole != [] && xs[0] == whole[0]
    requires forall e :: e in xs ==> e in whole
    requires forall e, f :: e in whole && e !in xs && f in xs ==> Before(At(f), At(e), desc)
    ensures forall e :: e in xs[1..] ==> e in whole[1..]
    ensures forall e, f :: e in whole[1..] && e !in xs[1..] && f in xs[1..] ==> Before(At(f), At(e), desc)
  {
    assert xs[0] !in xs[1..] && whole[0] !in whole[1..];
    hide Before, Ordered;
    assert forall e :: e in xs <==> e == xs[0] || e in xs[1..];
    assert forall e :: e in whole <==> e == whole[0] || e in whole[1..];
  }

  // One page: the merge decodes a run only when it must, and yet the page is the sorted answer's beginning;
  // the first `limit` of it unless the budget cut the page, with a cursor exactly when more is left.
  lemma PageIsSorted(store: seq<Run>, q: Query, cur: Option<Key>, limit: nat, budget: int, page: Page,
                     answer: seq<Entry>)
    requires PageOk(store, q, cur, limit, budget, page) && limit > 0
    requires Ordered(answer, q.desc) && forall e :: e in answer <==> Wanted(store, q, cur, e)
    ensures page.logs <= answer
    ensures !page.truncated ==> |page.logs| == (if |answer| < limit then |answer| else limit)
    ensures !page.truncated ==> (page.cursor.None? <==> |answer| <= limit)
  {
    hide Wanted, Stopped, Moved, Exceeded;
    if Advanced(store, q, cur, limit, page) {
      if page.cursor.Some? {
        assert AdvancedTo(store, q, cur, page.logs, page.cursor.value);
      }
      BeginsWith(page.logs, answer, q.desc);
      if page.cursor.None? {
        AllOf(page.logs, answer, q.desc);
      } else if !page.truncated {
        var e :| Wanted(store, q, cur, e) && e !in page.logs;
        assert e in answer && answer[..limit] == page.logs;
      }
    } else {
      assert Stopped(store, q, cur, budget, page);
      assert page.logs == [] && page.truncated by { StoppedEmpty(store, q, cur, budget, page); }
    }
  }

  lemma StoppedEmpty(store: seq<Run>, q: Query, cur: Option<Key>, budget: int, page: Page)
    requires Stopped(store, q, cur, budget, page)
    ensures page.logs == [] && page.truncated
  {
  }

  // Paging safety. However the pages were cut, and whatever was appended, sealed or lost meanwhile, the
  // pages of a steady session repeat nothing, and what they hold of the logs there throughout is a prefix of
  // those logs in search order: all of them once a page comes without a cursor.
  lemma PagesArePrefix(turns: seq<Turn>, q: Query, answer: seq<Entry>)
    requires IsSession(turns, q) && Steady(turns, q) && turns != []
    requires Ordered(answer, q.desc) && forall e :: e in answer <==> Base(turns, q, e)
    ensures var out := Returned(turns, |turns|);
            && Ordered(out, q.desc)
            && Kept(turns, q, out) <= answer
            && (turns[|turns| - 1].page.cursor.None? ==> Kept(turns, q, out) == answer)
  {
    var out := Returned(turns, |turns|);
    SessionKeeps(turns, q, |turns|);
    KeptIs(turns, q, out);
    hide IsSession, Steady, Base, Before;
    var kept := Kept(turns, q, out);
    BeginsWith(kept, answer, q.desc);
    if turns[|turns| - 1].page.cursor.None? {
      AllOf(kept, answer, q.desc);
    }
  }

  lemma AllOf(xs: seq<Entry>, whole: seq<Entry>, desc: bool)
    requires Ordered(whole, desc) && xs <= whole && forall e :: e in whole ==> e in xs
    ensures xs == whole
  {
    if |xs| < |whole| {
      NotBefore(whole, |xs|, desc);
    }
  }

  lemma NotBefore(es: seq<Entry>, n: nat, desc: bool)
    requires Ordered(es, desc) && n < |es|
    ensures es[n] in es && es[n] !in es[..n]
  {
  }

  /* Where the order breaks. */

  // Between pages the store only gains logs.
  ghost predicate NothingLost(turns: seq<Turn>) {
    forall i :: 0 < i < |turns| ==> NoneLost(turns, i)
  }

  ghost predicate NoneLost(turns: seq<Turn>, i: nat)
    requires 0 < i < |turns|
  {
    forall e :: Holds(turns[i - 1].store, e) ==> Holds(turns[i].store, e)
  }

  lemma {:induction false} HeldSince(turns: seq<Turn>, m: nat, n: nat, e: Entry)
    requires NothingLost(turns) && m <= n < |turns| && Holds(turns[m].store, e)
    ensures Holds(turns[n].store, e)
  {
    if m < n {
      HeldSince(turns, m, n - 1, e);
      assert NoneLost(turns, n);
    }
  }

  lemma {:induction false} ReturnedAt(turns: seq<Turn>, n: nat, f: Entry) returns (m: nat)
    requires n <= |turns| && f in Returned(turns, n)
    ensures m < n && f in turns[m].page.logs
  {
    if f in turns[n - 1].page.logs {
      m := n - 1;
    } else {
      m := ReturnedAt(turns, n - 1, f);
    }
  }

  // What was returned once is there to be returned again, by any page that starts behind it.
  lemma StillWanted(turns: seq<Turn>, q: Query, n: nat, cur: Option<Key>, f: Entry)
    requires IsSession(turns, q) && NothingLost(turns) && n < |turns| && f in Returned(turns, n)
    requires Past(cur, At(f), q.desc)
    ensures Wanted(turns[n].store, q, cur, f)
  {
    hide StoreOk, AdvancedTo, Moved, Exceeded, Stopped, NothingLost;
    var m := ReturnedAt(turns, n, f);
    hide Returned;
    assert TurnOk(turns, q, m);
    var t := turns[m];
    assert Wanted(t.store, q, Cursor(turns, m), f) by {
      if Stopped(t.store, q, Cursor(turns, m), t.budget, t.page) {
        StoppedEmpty(t.store, q, Cursor(turns, m), t.budget, t.page);
      }
    }
    HeldSince(turns, m, n, f);
  }

  // A page from behind a returned log returns that log again, or stops short of it with logs that belong before it.
  lemma RepeatsOrRegresses(store: seq<Run>, q: Query, cur: Option<Key>, limit: nat, budget: int, page: Page, f: Entry)
    requires PageOk(store, q, cur, limit, budget, page) && page.logs != [] && Wanted(store, q, cur, f)
    ensures f in page.logs || Before(At(page.logs[0]), At(f), q.desc)
  {
    hide Wanted, Moved, Exceeded;
    assert page.logs[0] in page.logs;
    if f !in page.logs {
      assert AdvancedTo(store, q, cur, page.logs, page.cursor.value);
    }
  }

  lemma {:induction false} OrderedPart(turns: seq<Turn>, q: Query, n: nat)
    requires n <= |turns| && Ordered(Returned(turns, |turns|), q.desc)
    ensures Ordered(Returned(turns, n), q.desc)
    decreases |turns| - n
  {
    if n < |turns| {
      OrderedPart(turns, q, n + 1);
      OrderedPrefix(Returned(turns, n), turns[n].page.logs, q.desc);
    }
  }

  lemma OrderedPrefix(out: seq<Entry>, logs: seq<Entry>, desc: bool)
    requires Ordered(out + logs, desc)
    ensures Ordered(out, desc)
  {
    hide Before;
    assert (out + logs)[..|out|] == out;
  }

  lemma OrderedSteady(turns: seq<Turn>, q: Query)
    requires IsSession(turns, q) && NothingLost(turns) && Ordered(Returned(turns, |turns|), q.desc)
    ensures Steady(turns, q)
  {
    hide NothingLost, PageOk, StoreOk, Returned, Before;
    forall n | 0 <= n < |turns| && Behind(turns, q, n) && turns[n].page.logs != [] ensures false {
      var t, cur, out := turns[n], Cursor(turns, n), Returned(turns, n);
      var f :| f in out && !AtOrBefore(At(f), cur.value, q.desc);
      BeforeTotal(cur.value, At(f), q.desc);
      StillWanted(turns, q, n, cur, f);
      assert TurnOk(turns, q, n);
      RepeatsOrRegresses(t.store, q, cur, t.limit, t.budget, t.page, f);
      OrderedPart(turns, q, n + 1);
      JoinedBefore(out, t.page.logs, q.desc, f, t.page.logs[0]) by { ReturnedMore(turns, n); }
      if f in t.page.logs {
        JoinedBefore(out, t.page.logs, q.desc, f, f) by { ReturnedMore(turns, n); }
      }
      BeforeStrict(At(f), At(t.page.logs[0]), q.desc);
    }
  }

  lemma ReturnedMore(turns: seq<Turn>, n: nat)
    requires n < |turns|
    ensures Returned(turns, n + 1) == Returned(turns, n) + turns[n].page.logs
  {
  }

  lemma BeforeTotal(a: Key, b: Key, desc: bool)
    ensures AtOrBefore(b, a, desc) || Before(a, b, desc)
  {
  }

  lemma BeforeStrict(a: Key, b: Key, desc: bool)
    ensures !(Before(a, b, desc) && Before(b, a, desc)) && !Before(a, a, desc)
  {
  }

  lemma JoinedBefore(out: seq<Entry>, logs: seq<Entry>, desc: bool, f: Entry, e: Entry)
    requires Ordered(out + logs, desc) && f in out && e in logs
    ensures Before(At(f), At(e), desc)
  {
    hide Before;
    var i :| 0 <= i < |out| && out[i] == f;
    var j :| 0 <= j < |logs| && logs[j] == e;
    assert (out + logs)[i] == f && (out + logs)[|out| + j] == e;
  }

  // Exactly when the pages, end to end, are in order and without repeats.
  lemma OrderedIff(turns: seq<Turn>, q: Query)
    requires IsSession(turns, q) && NothingLost(turns)
    ensures Ordered(Returned(turns, |turns|), q.desc) <==> Steady(turns, q)
  {
    hide IsSession, NothingLost, Steady;
    if Steady(turns, q) && turns != [] {
      SessionKeeps(turns, q, |turns|);
    }
    if Ordered(Returned(turns, |turns|), q.desc) {
      OrderedSteady(turns, q);
    }
  }

  /* A budget that does not grow. */

  // A published block stays as it is, and no page is given more to read than the one before.
  ghost predicate Tightens(turns: seq<Turn>) {
    forall i :: 0 < i < |turns| ==> TightensAt(turns, i)
  }

  ghost predicate TightensAt(turns: seq<Turn>, i: nat)
    requires 0 < i < |turns|
  {
    var a, b := turns[i - 1], turns[i];
    (forall r :: r in a.store && r.isBlock ==> r in b.store) && b.budget <= a.budget
  }

  // The cursor is the edge of a run whose blocks do not fit the budget: no page gets past it.
  ghost predicate Stuck(store: seq<Run>, q: Query, budget: int, c: Key) {
    exists r :: r in store && c == Edge(r, q.desc) && StuckAt(store, q, budget, r)
  }

  ghost predicate StuckAt(store: seq<Run>, q: Query, budget: int, r: Run) {
    var range := Narrowed(q, Some(Edge(r, q.desc)));
    range.0 <= range.1 && !Fits(Blocks(store, range, Near(r, q.desc), q.desc), budget)
  }

  // After n pages the cursor separates what was returned from what was not, or no page gets past it.
  ghost predicate ClearOrStuck(turns: seq<Turn>, q: Query, n: nat)
    requires 0 < n <= |turns|
  {
    var last := turns[n - 1];
    last.page.cursor.Some? ==>
      Clear(Returned(turns, n), last.page.cursor.value, q.desc) ||
          Stuck(last.store, q, last.budget, last.page.cursor.value)
  }

  lemma AdvanceClear(turns: seq<Turn>, q: Query, n: nat)
    requires IsSession(turns, q) && n < |turns| && !Behind(turns, q, n)
    requires Advanced(turns[n].store, q, Cursor(turns, n), turns[n].limit, turns[n].page)
    ensures ClearOrStuck(turns, q, n + 1)
  {
    hide Stuck, Wanted, TurnOk;
    var t, cur := turns[n], Cursor(turns, n);
    assert Returned(turns, n + 1) == Returned(turns, n) + t.page.logs;
    if t.page.cursor.Some? {
      assert AdvancedTo(t.store, q, cur, t.page.logs, t.page.cursor.value);
    }
  }

  // A page that could examine nothing and goes back has blocks in its way that stop every later page too.
  lemma StopClear(turns: seq<Turn>, q: Query, n: nat)
    requires IsSession(turns, q) && n < |turns| && !Behind(turns, q, n)
    requires Stopped(turns[n].store, q, Cursor(turns, n), turns[n].budget, turns[n].page)
    ensures ClearOrStuck(turns, q, n + 1)
  {
    hide TurnOk, Fits, Blocks, Narrowed, Wanted;
    var t, cur, out := turns[n], Cursor(turns, n), Returned(turns, n);
    assert Returned(turns, n + 1) == out;
    var r :| r in t.store && t.page.cursor == Some(Edge(r, q.desc)) && StoppedAt(t.store, q, cur, t.budget, r);
    var c := Edge(r, q.desc);
    if n > 0 && !Clear(out, c, q.desc) {
      assert !AtOrBefore(cur.value, c, q.desc);
      WiderRange(q, cur.value, r);
      StillOver(t.store, t.store, Narrowed(q, cur), Narrowed(q, Some(c)), Near(r, q.desc), q.desc, t.budget, t.budget);
      assert StuckAt(t.store, q, t.budget, r);
    }
  }

  // A cursor that went back widens the range.
  lemma WiderRange(q: Query, cur: Key, r: Run)
    requires !AtOrBefore(cur, Edge(r, q.desc), q.desc)
    ensures var old', new' := Narrowed(q, Some(cur)), Narrowed(q, Some(Edge(r, q.desc)));
            new'.0 <= old'.0 && old'.1 <= new'.1
  {
  }

  lemma StillOver(a: seq<Run>, b: seq<Run>, range: (int, int), wider: (int, int), t: int, desc: bool, budget: int,
                  less: int)
    requires (forall r :: r in a && r.isBlock ==> r in b) && wider.0 <= range.0 && range.1 <= wider.1 && less <= budget
    requires !Fits(Blocks(a, range, t, desc), budget)
    ensures !Fits(Blocks(b, wider, t, desc), less)
  {
    LogMerge.SumRawSubset(Blocks(a, range, t, desc), Blocks(b, wider, t, desc));
  }

  // Once stuck, a page examines nothing and the session stays stuck.
  lemma StuckKeeps(turns: seq<Turn>, q: Query, n: nat)
    requires IsSession(turns, q) && Tightens(turns) && 0 < n < |turns|
    requires turns[n - 1].page.cursor.Some?
    requires Stuck(turns[n - 1].store, q, turns[n - 1].budget, turns[n - 1].page.cursor.value)
    ensures ClearOrStuck(turns, q, n + 1) && turns[n].page.logs == []
  {
    var t, prev, cur := turns[n], turns[n - 1], turns[n - 1].page.cursor;
    var r :| r in prev.store && cur.value == Edge(r, q.desc) && StuckAt(prev.store, q, prev.budget, r);
    assert TurnOk(turns, q, n) && TightensAt(turns, n);
    StillOver(prev.store, t.store, Narrowed(q, cur), Narrowed(q, cur), Near(r, q.desc), q.desc, prev.budget, t.budget);
    NotMoved(t.store, q, r, t.budget);
    assert Stopped(t.store, q, cur, t.budget, t.page);
    StuckAgain(turns, q, n, r);
  }

  // Everything past an edge lies beyond it, so a page from there has to pay for all the blocks up to it.
  lemma NotMoved(store: seq<Run>, q: Query, r: Run, budget: int)
    requires StoreOk(store, q.want) && StuckAt(store, q, budget, r)
    ensures !Moved(store, q, Some(Edge(r, q.desc)), budget)
  {
    hide Fits, Blocks;
    var cur := Some(Edge(r, q.desc));
    forall e | Candidate(store, q, cur, e) ensures Near(r, q.desc) <= Pos(e.log.ts, q.desc) {
      var o :| o in store && e in o.entries;
      assert RunOk(o, q.want);
      PastEdge(r, e, q.desc);
    }
    assert NoneShort(store, q, cur, Near(r, q.desc));
  }

  lemma StuckAgain(turns: seq<Turn>, q: Query, n: nat, r: Run)
    requires 0 < n < |turns|
    requires turns[n - 1].page.cursor == Some(Edge(r, q.desc)) && StuckAt(turns[n].store, q, turns[n].budget, r)
    requires Stopped(turns[n].store, q, Cursor(turns, n), turns[n].budget, turns[n].page)
    ensures ClearOrStuck(turns, q, n + 1)
  {
    hide Fits, Blocks, Wanted;
    var t, cur := turns[n], Cursor(turns, n);
    var o :| o in t.store && t.page.cursor == Some(Edge(o, q.desc)) && StoppedAt(t.store, q, cur, t.budget, o);
    var c := Edge(o, q.desc);
    assert Near(o, q.desc) <= Near(r, q.desc);
    StillOver(t.store, t.store, Narrowed(q, cur), Narrowed(q, Some(c)), Near(o, q.desc), q.desc, t.budget, t.budget);
    assert StuckAt(t.store, q, t.budget, o);
  }

  lemma {:induction false} TightKeeps(turns: seq<Turn>, q: Query, n: nat)
    requires IsSession(turns, q) && Tightens(turns) && 0 < n <= |turns|
    ensures ClearOrStuck(turns, q, n) && (Behind(turns, q, n - 1) ==> turns[n - 1].page.logs == [])
  {
    hide Clear, Stuck, Stopped, Advanced, Moved, Exceeded, StoreOk, Tightens, Returned;
    var i := n - 1;
    if i > 0 {
      TightKeeps(turns, q, i);
    }
    assert TurnOk(turns, q, i);
    if Behind(turns, q, i) {
      StuckKeeps(turns, q, i);
    } else if Stopped(turns[i].store, q, Cursor(turns, i), turns[i].budget, turns[i].page) {
      StopClear(turns, q, i);
    } else {
      AdvanceClear(turns, q, i);
    }
  }

  // A budget that does not grow is enough.
  lemma TightIsSteady(turns: seq<Turn>, q: Query)
    requires IsSession(turns, q) && Tightens(turns)
    ensures Steady(turns, q)
  {
    forall n | 0 <= n < |turns| && Behind(turns, q, n) ensures turns[n].page.logs == [] {
      TightKeeps(turns, q, n + 1);
    }
  }

  /* A budget that grows on the way. */

  function Logged(ts: int, num: nat): Entry {
    Entry(num, Log(ts, Labels("", "", "", "", ""), ""))
  }

  // Two blocks that overlap, the second sealed between the first page and the second.
  const OLD := Run([Logged(5, 0), Logged(20, 1)], true, 5, 20, 10, false)
  const HEAD := Run([Logged(6, 2), Logged(30, 3)], false, 6, 30, 0, false)
  const SEALED := Run([Logged(6, 2), Logged(30, 3)], true, 6, 30, 10, false)
  const FIRST := Page([Logged(5, 0), Logged(6, 2)], Some(Key(6, 2)), false)
  const CUT := Page([], Some(Key(5, MAX_SEQ)), true)
  const AGAIN := Page([Logged(6, 2), Logged(20, 1)], Some(Key(20, 1)), false)

  const REPEATING :=
      [Turn([OLD, HEAD], 2, 10, FIRST), Turn([OLD, SEALED], 2, 10, CUT), Turn([OLD, SEALED], 2, 20, AGAIN)]

  // A page stopped on the budget may resume behind the cursor it was given, so a later page with a larger
  // budget returns a log again.
  lemma RepeatsIfBudgetGrows(q: Query)
    requires q == Query(0, 100, false, e => true)
    ensures IsSession(REPEATING, q) && NothingLost(REPEATING) && !Steady(REPEATING, q)
    ensures Returned(REPEATING, 3) == [Logged(5, 0), Logged(6, 2), Logged(6, 2), Logged(20, 1)]
    ensures !Ordered(Returned(REPEATING, 3), q.desc)
  {
    hide *;
    StoresHere(q.want);
    BothBlocks();
    FirstHere(q);
    CutHere(q);
    AgainHere(q);
    GrowsHere();
    SessionHere(q);
    LostHere();
    ReturnedHere(q);
    OrderedIff(REPEATING, q);
    ThreeHere();
  }

  lemma ThreeHere()
    ensures |REPEATING| == 3
  {
  }

  lemma SessionHere(q: Query)
    requires StoreOk([OLD, HEAD], q.want) && StoreOk([OLD, SEALED], q.want)
    requires PageOk([OLD, HEAD], q, None, 2, 10, FIRST) && PageOk([OLD, SEALED], q, FIRST.cursor, 2, 10, CUT)
    requires PageOk([OLD, SEALED], q, CUT.cursor, 2, 20, AGAIN)
    ensures IsSession(REPEATING, q)
  {
    hide StoreOk, PageOk;
    assert TurnOk(REPEATING, q, 0) && TurnOk(REPEATING, q, 1) && TurnOk(REPEATING, q, 2);
  }

  lemma LostHere()
    requires forall e :: Holds([OLD, HEAD], e) ==> Holds([OLD, SEALED], e)
    ensures NothingLost(REPEATING)
  {
    hide Holds;
    assert NoneLost(REPEATING, 1) && NoneLost(REPEATING, 2);
  }

  lemma ReturnedHere(q: Query)
    requires q.desc == false
    ensures Returned(REPEATING, 3) == [Logged(5, 0), Logged(6, 2), Logged(6, 2), Logged(20, 1)]
    ensures !Ordered(Returned(REPEATING, 3), q.desc)
  {
    assert Returned(REPEATING, 1) == FIRST.logs;
    assert Returned(REPEATING, 2) == FIRST.logs;
    assert Returned(REPEATING, 3) == FIRST.logs + AGAIN.logs;
    assert !Before(At(Returned(REPEATING, 3)[1]), At(Returned(REPEATING, 3)[2]), false);
  }

  lemma StoresHere(want: Entry -> bool)
    ensures StoreOk([OLD, HEAD], want) && StoreOk([OLD, SEALED], want)
  {
    hide StoreOk;
    StoreHere(OLD, HEAD, want);
    StoreHere(OLD, SEALED, want);
  }

  lemma GrowsHere()
    ensures forall e :: Holds([OLD, HEAD], e) ==> Holds([OLD, SEALED], e)
  {
    HoldsHere(OLD, HEAD);
    HoldsHere(OLD, SEALED);
    hide Holds;
  }

  lemma StoreHere(a: Run, b: Run, want: Entry -> bool)
    requires RunOk(a, want) && RunOk(b, want) && a != b
    requires forall e, f :: e in a.entries && f in b.entries ==> e.num != f.num
    ensures StoreOk([a, b], want)
  {
    hide RunOk;
  }

  lemma HoldsHere(a: Run, b: Run)
    ensures forall e :: Holds([a, b], e) <==> e in a.entries || e in b.entries
  {
    assert a in [a, b] && b in [a, b];
  }

  lemma BothBlocks()
    ensures !Fits({OLD, SEALED}, 10) && Fits({OLD, SEALED}, 20)
    ensures forall s, budget :: s <= {OLD} ==> Fits(s, budget)
  {
    LogMerge.SumRawAdd({}, OLD);
    LogMerge.SumRawAdd({OLD}, SEALED);
    assert {} + {OLD} == {OLD} && {OLD} + {SEALED} == {OLD, SEALED};
    assert |{OLD, SEALED}| == 2;
    forall s, budget | s <= {OLD} ensures Fits(s, budget) {
      LogMerge.SumRawSubset(s, {OLD});
    }
  }

  lemma FirstHere(q: Query)
    requires q == Query(0, 100, false, e => true) && forall s, budget :: s <= {OLD} ==> Fits(s, budget)
    ensures PageOk([OLD, HEAD], q, None, 2, 10, FIRST)
  {
    HoldsHere(OLD, HEAD);
    hide Holds, Fits;
    assert Wanted([OLD, HEAD], q, None, Logged(20, 1));
    assert AdvancedTo([OLD, HEAD], q, None, FIRST.logs, Key(6, 2));
  }

  lemma CutHere(q: Query)
    requires q == Query(0, 100, false, e => true) && !Fits({OLD, SEALED}, 10)
    requires forall s, budget :: s <= {OLD} ==> Fits(s, budget)
    ensures PageOk([OLD, SEALED], q, FIRST.cursor, 2, 10, CUT)
  {
    HoldsHere(OLD, SEALED);
    hide Holds, Fits;
    var store := [OLD, SEALED];
    assert OLD in store && SEALED in store;
    assert Blocks(store, (6, 100), 6, false) == {OLD, SEALED};
    assert StoppedAt(store, q, FIRST.cursor, 10, SEALED);
  }

  lemma AgainHere(q: Query)
    requires q == Query(0, 100, false, e => true) && Fits({OLD, SEALED}, 20)
    ensures PageOk([OLD, SEALED], q, CUT.cursor, 2, 20, AGAIN)
  {
    HoldsHere(OLD, SEALED);
    hide Holds, Fits;
    var store := [OLD, SEALED];
    assert Wanted(store, q, CUT.cursor, Logged(30, 3));
    assert AdvancedTo(store, q, CUT.cursor, AGAIN.logs, Key(20, 1));
    forall t ensures Fits(Blocks(store, (5, 100), t, false), 20) {
      LogMerge.FitsSubset(Blocks(store, (5, 100), t, false), {OLD, SEALED}, 20);
    }
  }
}
