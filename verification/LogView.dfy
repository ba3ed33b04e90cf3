/**
 Search over a live store: the runs a page reads are the heads and blocks of a
 reachable state (internal/logstore/search.go:90-149), appends, seals and crashes
 go on between pages, and the pages still are a prefix of the answer.
 */
module LogView {
  import opened Options
  import opened LogState
  import opened LogSearch
  import D = LogDurability
  import O = LogOnce
  import P = LogPaging

  datatype Spot = HeadSpot(stream: nat) | BlockSpot(key: ChunkKey, block: nat)

  ghost function Content(s: State, p: Spot): seq<Entry> {
    match p
    case HeadSpot(id) => HeadOf(s.heads, id).entries
    case BlockSpot(k, b) => if b < |BlocksOf(s.chunks, k)| then BlocksOf(s.chunks, k)[b] else []
  }

  // look gives the run for a head's or a block's entries: true bounds, and a filter that rules out only
  // blocks without a match.
  ghost predicate Describes(look: (seq<Entry>, bool) -> Run, want: Entry -> bool) {
    forall es, isBlock :: Usable(es) ==>
        RunOk(look(es, isBlock), want) && look(es, isBlock).entries == es && look(es, isBlock).isBlock == isBlock
  }

  ghost predicate Usable(es: seq<Entry>) {
    es != [] && Distinct(es) && forall e :: e in es ==> e.num <= MAX_SEQ
  }

  // The runs of a state: one for each head and block that holds anything.
  ghost predicate Shows(s: State, store: seq<Run>, look: (seq<Entry>, bool) -> Run) {
    && (forall r :: r in store ==> exists p :: ShownAt(s, p, r, look))
    && (forall p, r :: ShownAt(s, p, r, look) ==> r in store)
    && NoRepeat(store)
  }

  ghost predicate ShownAt(s: State, p: Spot, r: Run, look: (seq<Entry>, bool) -> Run) {
    Content(s, p) != [] && r == look(Content(s, p), p.BlockSpot?)
  }

  ghost function PlaceIn(p: Spot, i: nat): D.Place {
    match p
    case HeadSpot(id) => D.InHead(id, i)
    case BlockSpot(k, b) => D.InBlock(k, b, i)
  }

  lemma ContentHeld(s: State, p: Spot, i: nat)
    requires i < |Content(s, p)|
    ensures D.Holds(s, PlaceIn(p, i), Content(s, p)[i])
  {
  }

  lemma HeldInContent(s: State, l: D.Place, e: Entry) returns (p: Spot)
    requires D.Holds(s, l, e)
    ensures e in Content(s, p)
  {
    p := if l.InHead? then HeadSpot(l.stream) else BlockSpot(l.key, l.block);
    assert Content(s, p)[l.at] == e;
  }

  // What the store's invariants say of a state.
  ghost predicate Sane(s: State, max: nat) {
    D.Inv(s, max) && O.Once(s)
  }

  lemma RunSane(run: seq<State>, steps: seq<Step>, max: nat, i: nat)
    requires IsRun(run, steps, max) && i < |run| && NumbersFree(run, steps, i)
    ensures Sane(run[i], max)
  {
    hide IsRun, NumbersFree, D.Inv, O.Once;
    D.RunKeeps(run, steps, max, i);
    O.RunOnce(run, steps, max, i);
  }

  // No number is held twice.
  lemma ContentOnce(s: State, max: nat, p: Spot, i: nat, r: Spot, j: nat)
    requires Sane(s, max) && i < |Content(s, p)| && j < |Content(s, r)|
    requires Content(s, p)[i].num == Content(s, r)[j].num
    ensures p == r && i == j
  {
    hide Content, D.Inv, O.Once, D.Holds;
    ContentHeld(s, p, i);
    ContentHeld(s, r, j);
    O.HeldOnce(s, max, PlaceIn(p, i), Content(s, p)[i], PlaceIn(r, j), Content(s, r)[j]);
  }

  lemma ContentBelow(s: State, max: nat, p: Spot, e: Entry)
    requires Sane(s, max) && e in Content(s, p)
    ensures e.num <= s.last
  {
    hide Resolve, DayOf, O.Once;
    if p.HeadSpot? {
      D.HeadEntry(s, max, p.stream, e);
    } else {
      assert D.InChunk(s.chunks, p.key, p.block, e);
    }
  }

  lemma ContentUsable(s: State, max: nat, p: Spot)
    requires Sane(s, max) && s.last <= MAX_SEQ && Content(s, p) != []
    ensures Usable(Content(s, p))
  {
    hide Content, Sane;
    forall i, j | 0 <= i < j < |Content(s, p)| ensures Content(s, p)[i].num != Content(s, p)[j].num {
      if Content(s, p)[i].num == Content(s, p)[j].num {
        ContentOnce(s, max, p, i, p, j);
      }
    }
    forall e | e in Content(s, p) ensures e.num <= MAX_SEQ { ContentBelow(s, max, p, e); }
  }

  lemma ShownIs(s: State, max: nat, p: Spot, r: Run, look: (seq<Entry>, bool) -> Run, want: Entry -> bool)
    requires Sane(s, max) && s.last <= MAX_SEQ && Describes(look, want) && ShownAt(s, p, r, look)
    ensures RunOk(r, want) && r.entries == Content(s, p) && r.isBlock == p.BlockSpot?
  {
    hide Content, Sane, RunOk;
    ContentUsable(s, max, p);
  }

  // Every reachable state is a store a page may read.
  lemma ShowsOk(s: State, max: nat, store: seq<Run>, look: (seq<Entry>, bool) -> Run, want: Entry -> bool)
    requires Sane(s, max) && s.last <= MAX_SEQ && Describes(look, want) && Shows(s, store, look)
    ensures StoreOk(store, want)
  {
    hide Content, Sane, RunOk, Describes, ShownAt;
    forall r | r in store ensures RunOk(r, want) {
      var p :| ShownAt(s, p, r, look);
      ShownIs(s, max, p, r, look, want);
    }
    forall r, o, e, f | r in store && o in store && r != o && e in r.entries && f in o.entries ensures e.num != f.num {
      RunsApart(s, max, store, look, want, r, o, e, f);
    }
  }

  lemma RunsApart(s: State, max: nat, store: seq<Run>, look: (seq<Entry>, bool) -> Run, want: Entry -> bool, r: Run,
                  o: Run, e: Entry, f: Entry)
    requires Sane(s, max) && s.last <= MAX_SEQ && Describes(look, want) && Shows(s, store, look)
    requires r in store && o in store && r != o && e in r.entries && f in o.entries
    ensures e.num != f.num
  {
    hide Content, Sane, RunOk, Describes;
    var p :| ShownAt(s, p, r, look);
    var l :| ShownAt(s, l, o, look);
    ShownIs(s, max, p, r, look, want);
    ShownIs(s, max, l, o, look, want);
    var i :| 0 <= i < |Content(s, p)| && Content(s, p)[i] == e;
    var j :| 0 <= j < |Content(s, l)| && Content(s, l)[j] == f;
    if e.num == f.num {
      ContentOnce(s, max, p, i, l, j);
    }
  }

  lemma HoldsIsContent(s: State, max: nat, store: seq<Run>, look: (seq<Entry>, bool) -> Run, want: Entry -> bool,
                       e: Entry)
    requires Sane(s, max) && s.last <= MAX_SEQ && Describes(look, want) && Shows(s, store, look)
    ensures Holds(store, e) <==> exists p :: e in Content(s, p)
  {
    hide Content, Sane, RunOk, Describes;
    if Holds(store, e) {
      var r :| r in store && e in r.entries;
      var p :| ShownAt(s, p, r, look);
      ShownIs(s, max, p, r, look, want);
    }
    if p :| e in Content(s, p) {
      var r := look(Content(s, p), p.BlockSpot?);
      assert ShownAt(s, p, r, look);
      ShownIs(s, max, p, r, look, want);
    }
  }

  /* Between pages. */

  // Nothing leaves the store.
  ghost predicate KeepsLogs(s: State, t: State) {
    forall p, e :: e in Content(s, p) ==> exists r :: e in Content(t, r)
  }

  // A block stays where and as it is.
  ghost predicate KeepsBlocks(s: State, t: State) {
    forall k :: BlocksOf(s.chunks, k) <= BlocksOf(t.chunks, k)
  }

  lemma StepKeepsBlocks(s: State, t: State, max: nat, step: Step)
    requires Enabled(s, max, step) && t == Apply(s, max, step)
    ensures KeepsBlocks(s, t)
  {
    hide Resolve, AllFiled, AddAll, Numbered, Spent, IsDayGroup, Rest, HeadOf, SafeToRemove, CanCrash, ReplayedHeads;
  }

  lemma StepKeepsLogs(s: State, t: State, max: nat, step: Step)
    requires Enabled(s, max, step) && t == Apply(s, max, step) && !step.CrashAndRecover?
    ensures KeepsLogs(s, t)
  {
    hide Enabled, Apply, Content;
    if step.Publish? {
      PublishKeepsLogs(s, t, max, step.key);
    } else if step.Acknowledge? {
      AckKeepsLogs(s, t, max);
    } else {
      OtherKeepsLogs(s, t, max, step);
    }
  }

  lemma OtherKeepsLogs(s: State, t: State, max: nat, step: Step)
    requires Enabled(s, max, step) && t == Apply(s, max, step)
    requires !step.CrashAndRecover? && !step.Publish? && !step.Acknowledge?
    ensures KeepsLogs(s, t)
  {
    assert t.heads == s.heads && t.chunks == s.chunks;
    hide Enabled, Apply;
    assert forall p :: Content(s, p) == Content(t, p);
  }

  lemma AckKeepsLogs(s: State, t: State, max: nat)
    requires Enabled(s, max, Acknowledge) && t == Apply(s, max, Acknowledge)
    ensures KeepsLogs(s, t)
  {
    hide AddAll, HeadOf, Resolve, Synced, Numbered;
    var b := s.pending.value;
    forall p, e | e in Content(s, p) ensures e in Content(t, p) {
      if p.HeadSpot? {
        D.AddAllHead(s.heads, s.catalog, max, b.batch, b.base, b.seg, p.stream);
      }
    }
  }

  lemma PublishKeepsLogs(s: State, t: State, max: nat, k: ChunkKey)
    requires Enabled(s, max, Publish(k)) && t == Apply(s, max, Publish(k))
    ensures KeepsLogs(s, t)
  {
    D.PublishedBlocks(s, t, max, k);
    PublishAddsBlock(s, t, max, k);
    hide *;
    forall p, e | e in Content(s, p) ensures exists r :: e in Content(t, r) {
      MovedTo(s, t, k, p, e);
    }
    IsKeptLogs(s, t);
  }

  lemma IsKeptLogs(s: State, t: State)
    requires forall p, e :: e in Content(s, p) ==> exists r :: e in Content(t, r)
    ensures KeepsLogs(s, t)
  {
    hide Content;
  }

  lemma PublishAddsBlock(s: State, t: State, max: nat, k: ChunkKey)
    requires Enabled(s, max, Publish(k)) && t == Apply(s, max, Publish(k))
    ensures forall l :: BlocksOf(t.chunks, l) == if l == k then BlocksOf(s.chunks, k) + [s.limbo[k]]
              else BlocksOf(s.chunks, l)
  {
    hide IsDayGroup, Rest;
  }

  lemma MovedTo(s: State, t: State, k: ChunkKey, p: Spot, e: Entry)
    requires k in s.limbo && e in Content(s, p)
    requires forall l :: BlocksOf(t.chunks, l) == if l == k then BlocksOf(s.chunks, k) + [s.limbo[k]]
               else BlocksOf(s.chunks, l)
    requires forall id, e :: e in HeadOf(t.heads, id).entries <==> e in HeadOf(s.heads, id).entries && KeyOf(id, e) != k
    requires forall e :: e in s.limbo[k] <==> e in HeadOf(s.heads, k.stream).entries && DayOf(e.log.ts) == k.day
    ensures exists r :: e in Content(t, r)
  {
    hide BlocksOf, HeadOf, DayOf;
    if p.BlockSpot? || KeyOf(p.stream, e) != k {
      assert e in Content(t, p);
    } else {
      assert e in Content(t, BlockSpot(k, |BlocksOf(s.chunks, k)|));
    }
  }

  // Whatever happens short of a crash, nothing the store holds leaves it, acknowledged or not.
  lemma {:induction false} RunKeepsLogs(run: seq<State>, steps: seq<Step>, max: nat, i: nat, j: nat)
    requires IsRun(run, steps, max) && i <= j < |run| && NoCrash(steps, i, j)
    ensures KeepsLogs(run[i], run[j])
  {
    hide Enabled, Apply, Content;
    if i < j {
      RunKeepsLogs(run, steps, max, i, j - 1);
      assert !steps[j - 1].CrashAndRecover?;
      StepKeepsLogs(run[j - 1], run[j], max, steps[j - 1]);
    }
  }

  ghost predicate NoCrash(steps: seq<Step>, i: nat, j: nat)
    requires i <= j <= |steps|
  {
    forall n :: i <= n < j ==> !steps[n].CrashAndRecover?
  }

  lemma {:induction false} RunKeepsBlocks(run: seq<State>, steps: seq<Step>, max: nat, i: nat, j: nat)
    requires IsRun(run, steps, max) && i <= j < |run|
    ensures KeepsBlocks(run[i], run[j])
  {
    hide Enabled, Apply, BlocksOf;
    if i < j {
      RunKeepsBlocks(run, steps, max, i, j - 1);
      StepKeepsBlocks(run[j - 1], run[j], max, steps[j - 1]);
    }
  }

  lemma ShownLogs(s: State, t: State, max: nat, a: seq<Run>, b: seq<Run>, look: (seq<Entry>, bool) -> Run,
                  want: Entry -> bool)
    requires Sane(s, max) && Sane(t, max) && s.last <= MAX_SEQ && t.last <= MAX_SEQ && Describes(look, want)
    requires KeepsLogs(s, t) && Shows(s, a, look) && Shows(t, b, look)
    ensures forall e :: Holds(a, e) ==> Holds(b, e)
  {
    hide Content, Sane, RunOk, Describes, Holds, Shows;
    forall e | Holds(a, e) ensures Holds(b, e) {
      HoldsIsContent(s, max, a, look, want, e);
      HoldsIsContent(t, max, b, look, want, e);
    }
  }

  lemma ShownBlocks(s: State, t: State, max: nat, a: seq<Run>, b: seq<Run>, look: (seq<Entry>, bool) -> Run,
                    want: Entry -> bool)
    requires Sane(s, max) && s.last <= MAX_SEQ && Describes(look, want)
    requires KeepsBlocks(s, t) && Shows(s, a, look) && Shows(t, b, look)
    ensures forall r :: r in a && r.isBlock ==> r in b
  {
    hide Sane, RunOk, Describes;
    forall r | r in a && r.isBlock ensures r in b {
      var p :| ShownAt(s, p, r, look);
      ShownIs(s, max, p, r, look, want);
      assert BlocksOf(s.chunks, p.key) <= BlocksOf(t.chunks, p.key);
      assert ShownAt(t, p, r, look);
    }
  }

  /* Sessions over a run. */

  // Turn i reads the store as it is at state at[i] of the run.
  ghost predicate Reads(run: seq<State>, turns: seq<P.Turn>, at: seq<nat>, look: (seq<Entry>, bool) -> Run) {
    && |at| == |turns|
    && (forall i :: 0 <= i < |at| ==> ReadsAt(run, turns[i], at[i], look))
    && (forall i, j :: 0 <= i <= j < |at| ==> at[i] <= at[j])
  }

  ghost predicate ReadsAt(run: seq<State>, turn: P.Turn, n: nat, look: (seq<Entry>, bool) -> Run) {
    n < |run| && run[n].last <= MAX_SEQ && Shows(run[n], turn.store, look)
  }

  // Each page answers the query from the cursor before it.
  ghost predicate Paged(turns: seq<P.Turn>, q: Query) {
    && (forall i :: 0 <= i < |turns| ==> Answered(turns, q, i))
    && (forall i :: 0 <= i < |turns| - 1 ==> turns[i].page.cursor.Some?)
  }

  ghost predicate Answered(turns: seq<P.Turn>, q: Query, i: nat)
    requires i < |turns|
  {
    var t := turns[i];
    t.limit > 0 && PageOk(t.store, q, P.Cursor(turns, i), t.limit, t.budget, t.page)
  }

  // What a session over a run is: pages read at successive moments, up to which numbers were free.
  ghost predicate Session(run: seq<State>, steps: seq<Step>, max: nat, turns: seq<P.Turn>, at: seq<nat>,
                          look: (seq<Entry>, bool) -> Run, q: Query)
  {
    && IsRun(run, steps, max)
    && Reads(run, turns, at, look) && Describes(look, q.want) && Paged(turns, q)
    && forall i :: 0 <= i < |at| ==> FreeAt(run, steps, at[i])
  }

  ghost predicate FreeAt(run: seq<State>, steps: seq<Step>, n: nat) {
    n <= |steps| < |run| && NumbersFree(run, steps, n)
  }

  lemma TurnAt(run: seq<State>, steps: seq<Step>, max: nat, turns: seq<P.Turn>, at: seq<nat>,
               look: (seq<Entry>, bool) -> Run, q: Query, i: nat)
    requires Session(run, steps, max, turns, at, look, q) && i < |turns|
    ensures |at| == |turns| && ReadsAt(run, turns[i], at[i], look) && Describes(look, q.want)
    ensures Sane(run[at[i]], max) && P.TurnOk(turns, q, i)
  {
    hide IsRun, Describes, PageOk, Shows, StoreOk, NumbersFree;
    assert ReadsAt(run, turns[i], at[i], look) && Answered(turns, q, i) && FreeAt(run, steps, at[i]);
    RunSane(run, steps, max, at[i]);
    hide Sane;
    ShowsOk(run[at[i]], max, turns[i].store, look, q.want);
  }

  lemma SessionIs(run: seq<State>, steps: seq<Step>, max: nat, turns: seq<P.Turn>, at: seq<nat>,
                  look: (seq<Entry>, bool) -> Run, q: Query)
    requires Session(run, steps, max, turns, at, look, q)
    ensures P.IsSession(turns, q)
  {
    hide IsRun, Describes, Reads, Sane, P.TurnOk, NumbersFree;
    forall i | 0 <= i < |turns| ensures P.TurnOk(turns, q, i) {
      TurnAt(run, steps, max, turns, at, look, q, i);
    }
  }

  // A budget that does not grow keeps the session steady, crashes included: blocks stay.
  lemma BudgetSteady(run: seq<State>, steps: seq<Step>, max: nat, turns: seq<P.Turn>, at: seq<nat>,
                     look: (seq<Entry>, bool) -> Run, q: Query)
    requires Session(run, steps, max, turns, at, look, q)
    requires forall i, j :: 0 <= i < j < |turns| ==> turns[j].budget <= turns[i].budget
    ensures P.Steady(turns, q)
  {
    hide IsRun, Describes, Shows, Sane, P.TurnOk, P.Steady, P.IsSession, KeepsBlocks, NumbersFree, Paged;
    SessionIs(run, steps, max, turns, at, look, q);
    forall i | 0 < i < |turns| ensures P.TightensAt(turns, i) {
      TurnAt(run, steps, max, turns, at, look, q, i - 1);
      TurnAt(run, steps, max, turns, at, look, q, i);
      RunKeepsBlocks(run, steps, max, at[i - 1], at[i]);
      ShownBlocks(run[at[i - 1]], run[at[i]], max, turns[i - 1].store, turns[i].store, look, q.want);
    }
    P.TightIsSteady(turns, q);
  }

  // Where nothing crashes between the pages, they are in order exactly when the session is steady.
  lemma OrderedOverRun(run: seq<State>, steps: seq<Step>, max: nat, turns: seq<P.Turn>, at: seq<nat>,
                       look: (seq<Entry>, bool) -> Run, q: Query)
    requires Session(run, steps, max, turns, at, look, q)
    requires forall i :: 0 < i < |at| ==> at[i - 1] <= at[i] <= |steps| && NoCrash(steps, at[i - 1], at[i])
    ensures Ordered(P.Returned(turns, |turns|), q.desc) <==> P.Steady(turns, q)
  {
    hide IsRun, Describes, Shows, Sane, P.TurnOk, P.Steady, P.IsSession, KeepsLogs, Holds, NumbersFree, Paged,
         NoCrash, Ordered, P.Returned;
    SessionIs(run, steps, max, turns, at, look, q);
    forall i | 0 < i < |turns| ensures P.NoneLost(turns, i) {
      TurnAt(run, steps, max, turns, at, look, q, i - 1);
      TurnAt(run, steps, max, turns, at, look, q, i);
      RunKeepsLogs(run, steps, max, at[i - 1], at[i]);
      ShownLogs(run[at[i - 1]], run[at[i]], max, turns[i - 1].store, turns[i].store, look, q.want);
    }
    P.OrderedIff(turns, q);
  }

  // The two guarantees together. Pages read at successive moments of a run, with appends, seals,
  // truncations and crashes between them, hold exactly the beginning of what was there throughout, all of
  // it when the last page has no cursor; and that includes every matching log acknowledged before the first.
  lemma PagesOverRun(run: seq<State>, steps: seq<Step>, max: nat, turns: seq<P.Turn>, at: seq<nat>,
                     look: (seq<Entry>, bool) -> Run, q: Query, answer: seq<Entry>)
    requires Session(run, steps, max, turns, at, look, q) && P.Steady(turns, q) && turns != []
    requires Ordered(answer, q.desc) && forall e :: e in answer <==> P.Base(turns, q, e)
    ensures var out := P.Returned(turns, |turns|);
            && Ordered(out, q.desc)
            && P.Kept(turns, q, out) <= answer
            && (turns[|turns| - 1].page.cursor.None? ==> P.Kept(turns, q, out) == answer)
    ensures |at| == |turns| && at[0] < |run|
    ensures forall e :: e in run[at[0]].acked && q.from <= e.log.ts <= q.to && q.want(e) ==> e in answer
  {
    hide Session, Sane, Shows, Describes, P.TurnOk, P.IsSession, P.Steady, P.Base, P.Kept, P.Returned, Ordered;
    SessionIs(run, steps, max, turns, at, look, q);
    P.PagesArePrefix(turns, q, answer);
    TurnAt(run, steps, max, turns, at, look, q, 0);
    forall e | e in run[at[0]].acked && q.from <= e.log.ts <= q.to && q.want(e) ensures P.Base(turns, q, e) {
      AckedIsBase(run, steps, max, turns, at, look, q, e);
    }
  }

  lemma AckedIsBase(run: seq<State>, steps: seq<Step>, max: nat, turns: seq<P.Turn>, at: seq<nat>,
                    look: (seq<Entry>, bool) -> Run, q: Query, e: Entry)
    requires Session(run, steps, max, turns, at, look, q) && turns != []
    requires at[0] < |run| && e in run[at[0]].acked && q.from <= e.log.ts <= q.to && q.want(e)
    ensures P.Base(turns, q, e)
  {
    hide IsRun, Describes, Shows, Paged, Sane, P.TurnOk, Holds, NumbersFree;
    forall i | 0 <= i < |turns| ensures Wanted(turns[i].store, q, None, e) {
      TurnAt(run, steps, max, turns, at, look, q, i);
      D.NeverForgotten(run, steps, max, at[0], at[i]);
      AckedIsFound(run, steps, max, at[i], turns[i].store, look, q.want, e);
    }
  }

  lemma AckedIsFound(run: seq<State>, steps: seq<Step>, max: nat, n: nat, store: seq<Run>,
                     look: (seq<Entry>, bool) -> Run, want: Entry -> bool, e: Entry)
    requires IsRun(run, steps, max) && n < |run| && e in run[n].acked
    requires Sane(run[n], max) && run[n].last <= MAX_SEQ && Describes(look, want) && Shows(run[n], store, look)
    ensures Holds(store, e)
  {
    hide IsRun, Describes, Shows, Content, Sane, Holds, D.Holds;
    var s := run[n];
    D.NeverLost(run, steps, max, n);
    var l :| D.Holds(s, l, e);
    var p := HeldInContent(s, l, e);
    HoldsIsContent(s, max, store, look, want, e);
  }
}
