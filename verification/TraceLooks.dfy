/**
 What a lookup's answer comes to (internal/tracestore/edges.go:130-200,
 store.go:300-420), over whole runs: an edge whose parent's service was known is
 counted by its own commit; one whose parent was not is left out of that commit,
 and is counted, if ever, by the commit of a call that took it from the pending
 ones since.
 */
module TraceLooks {
  import opened TraceClaims
  import opened TraceEdges

  /* The answer stays with the call. */

  ghost predicate Remembers(s: State, id: nat, a: Answer) {
    id < s.next && (id in s.calls ==> Noted(s.calls[id], a))
  }

  lemma NotedSame(c: Call, d: Call, k: Key, a: Answer)
    requires Noted(c, a) && SameElsewhere(c, d, k) && a.key != k
    ensures Noted(d, a)
  {
  }

  lemma LookRemembers(s: State, t: State, step: Step, id: nat, a: Answer)
    requires Inv(s) && Enabled(s, step) && t == Apply(s, step) && Looks(s, step, id, a)
    ensures Remembers(t, id, a)
  {
    CallParts(s, id);
    LookKeeps(s, t, id, step.found, step.errs);
    hide Inv, Noted, SameElsewhere, CallsOk, SetsOk, DurableOk, DeferredOk, Looked;
  }

  // A key is looked up once in a call.
  lemma LookElsewhere(s: State, t: State, id: nat, found: bool, errs: bool, a: Answer)
    requires Inv(s) && Enabled(s, Look(id, found, errs)) && t == Apply(s, Look(id, found, errs))
    requires Remembers(s, id, a)
    ensures Remembers(t, id, a)
  {
    CallParts(s, id);
    var c := s.calls[id];
    var b := Answer(Current(c).key, Current(c).hasParent, errs || Current(c).key !in s.durable, found);
    assert a.key in c.looked && b.key !in c.looked;
    LookKeeps(s, t, id, found, errs);
    assert Looks(s, Look(id, found, errs), id, b);
    hide Inv, Noted, SameElsewhere, CallsOk, SetsOk, DurableOk, DeferredOk, Looked;
    NotedSame(c, t.calls[id], b.key, a);
  }

  lemma RemembersStep(s: State, t: State, step: Step, id: nat, a: Answer)
    requires Inv(s) && Enabled(s, step) && t == Apply(s, step) && Remembers(s, id, a)
    ensures Remembers(t, id, a)
  {
    hide Inv;
    if step.Look? && step.id == id {
      LookElsewhere(s, t, id, step.found, step.errs, a);
    } else {
      hide Move, Keys, Placed, Claims, Looked;
    }
  }

  lemma {:induction false} RunRemembers(run: seq<State>, steps: seq<Step>, j: nat, i: nat, id: nat, a: Answer)
    requires IsRun(run, steps) && j < i < |run| && Looks(run[j], steps[j], id, a)
    ensures Remembers(run[i], id, a)
  {
    hide Enabled, Apply, Remembers, Looks, Inv;
    RunKeeps(run, steps, i - 1);
    if i == j + 1 {
      LookRemembers(run[j], run[i], steps[j], id, a);
    } else {
      RunRemembers(run, steps, j, i - 1, id, a);
      RemembersStep(run[i - 1], run[i], steps[i - 1], id, a);
    }
  }

  /* What is counted, and by whom. */

  ghost function Adds(s: State, step: Step, k: Key): nat
    requires Enabled(s, step)
  {
    if step.CommitOk? then (if k in s.calls[step.id].resolved then 1 else 0) + s.calls[step.id].taken[k] else 0
  }

  lemma CountedStep(s: State, t: State, step: Step, k: Key)
    requires Enabled(s, step) && t == Apply(s, step)
    ensures t.counted[k] == s.counted[k] + Adds(s, step, k)
  {
    hide Move, Keys, Placed, Claims, Looked;
  }

  // A commit counts the edge of a key its call looked up exactly if the key was missing, its span names a parent
  // and the parent's service was known; beyond that it counts what the call took from the pending ones. It undertakes
  // to park the edge exactly if the service was not known.
  lemma LookDecides(run: seq<State>, steps: seq<Step>, j: nat, i: nat, id: nat, a: Answer)
    requires IsRun(run, steps) && j < i < |steps| && Looks(run[j], steps[j], id, a) && steps[i] == CommitOk(id)
    ensures id in run[i].calls && id in run[i + 1].calls && a.key in run[i + 1].durable
    ensures run[i + 1].counted[a.key] == run[i].counted[a.key] + run[i].calls[id].taken[a.key] +
              if a.parent && a.absent && a.found then 1 else 0
    ensures a.key in Unparked(run[i + 1].calls[id]) <==> a.parent && a.absent && !a.found
  {
    RunRemembers(run, steps, j, i, id, a);
    assert Enabled(run[i], steps[i]);
    CountedStep(run[i], run[i + 1], steps[i], a.key);
    hide Move, Keys, Placed, Claims, Looks;
  }

  // Where a call's edges come from: lookups of its own, and the pending ones it took.
  lemma ResolvedStep(s: State, t: State, step: Step, id: nat, k: Key)
    requires Enabled(s, step) && t == Apply(s, step) && id in t.calls && k in t.calls[id].resolved
    ensures (id in s.calls && k in s.calls[id].resolved) || Looks(s, step, id, Answer(k, true, true, true))
  {
    hide Move, Keys, Placed, Claims;
  }

  lemma {:induction false} ResolvedFrom(run: seq<State>, steps: seq<Step>, n: nat, id: nat, k: Key) returns (j: nat)
    requires IsRun(run, steps) && n < |run| && id in run[n].calls && k in run[n].calls[id].resolved
    ensures j < n && Looks(run[j], steps[j], id, Answer(k, true, true, true))
  {
    hide Enabled, Apply, Looks;
    j := n - 1;
    ResolvedStep(run[j], run[n], steps[j], id, k);
    if !Looks(run[j], steps[j], id, Answer(k, true, true, true)) {
      j := ResolvedFrom(run, steps, j, id, k);
    }
  }

  ghost predicate Took(step: Step, id: nat, k: Key) {
    step.Take? && step.id == id && k in step.part
  }

  lemma TakenStep(s: State, t: State, step: Step, id: nat, k: Key)
    requires Enabled(s, step) && t == Apply(s, step) && id in t.calls && k in t.calls[id].taken
    ensures (id in s.calls && k in s.calls[id].taken) || Took(step, id, k)
  {
    hide Move, Keys, Placed, Claims;
  }

  lemma {:induction false} TakenFrom(run: seq<State>, steps: seq<Step>, n: nat, id: nat, k: Key) returns (j: nat)
    requires IsRun(run, steps) && n < |run| && id in run[n].calls && k in run[n].calls[id].taken
    ensures j < n && Took(steps[j], id, k)
  {
    hide Enabled, Apply, Took;
    j := n - 1;
    TakenStep(run[j], run[n], steps[j], id, k);
    if !Took(steps[j], id, k) {
      j := TakenFrom(run, steps, j, id, k);
    }
  }

  // Over every run: the count of an edge grows only in a commit whose call had taken the edge, or had looked the
  // key up as missing with a parent whose service was known. It never shrinks.
  lemma CountedBy(run: seq<State>, steps: seq<Step>, n: nat, k: Key)
    requires IsRun(run, steps) && n < |steps|
    ensures run[n].counted[k] <= run[n + 1].counted[k]
    ensures run[n].counted[k] < run[n + 1].counted[k] ==>
              && steps[n].CommitOk?
              && ((exists j :: 0 <= j < n && Took(steps[j], steps[n].id, k)) ||
                  exists j :: 0 <= j < n && Looks(run[j], steps[j], steps[n].id, Answer(k, true, true, true)))
  {
    CountedStep(run[n], run[n + 1], steps[n], k);
    assert Enabled(run[n], steps[n]);
    hide Apply, Looks, Took;
    if run[n].counted[k] < run[n + 1].counted[k] {
      if k in run[n].calls[steps[n].id].taken {
        var j := TakenFrom(run, steps, n, steps[n].id, k);
      } else {
        var j := ResolvedFrom(run, steps, n, steps[n].id, k);
      }
    }
  }

  /* As long as no lookup that matters fails. */

  lemma {:induction false} StaysStored(run: seq<State>, steps: seq<Step>, i: nat, n: nat, k: Key)
    requires IsRun(run, steps) && i <= n < |run| && k in run[i].durable
    ensures k in run[n].durable
  {
    hide Enabled, Apply;
    if i < n {
      StaysStored(run, steps, i, n - 1, k);
      StoredStep(run[n - 1], run[n], steps[n - 1], k);
    }
  }

  lemma StoredStep(s: State, t: State, step: Step, k: Key)
    requires Enabled(s, step) && t == Apply(s, step) && k in s.durable
    ensures k in t.durable
  {
    hide Move, Keys, Placed, Claims, Looked;
  }

  // The edge of a key not stored yet is nowhere.
  lemma NowhereYet(s: State, k: Key)
    requires Inv(s) && Edges(s) && k !in s.durable
    ensures s.counted[k] == 0 && s.pending[k] == 0 && forall id :: id in s.calls ==> k !in s.calls[id].taken
  {
    BookedOnce(s);
    PlacedOnce(s);
    assert k !in s.place;
    hide Inv, Edges, BookedOk, PlacesOk, HandsOk;
    forall id | id in s.calls ensures k !in s.calls[id].taken {
      if k in s.calls[id].taken {
        HandIs(s, id, k);
      }
    }
  }

  // An edge looked up as missing, with a parent, is booked by its call's commit: it is counted once if the parent's
  // service was known, and not at all if it was not.
  lemma OwnCommit(run: seq<State>, steps: seq<Step>, j: nat, i: nat, id: nat, a: Answer)
    requires IsRun(run, steps) && j < i < |steps| && Looks(run[j], steps[j], id, a) && steps[i] == CommitOk(id)
    requires a.parent && a.absent && GoodLooks(run, steps, i + 1)
    ensures a.key !in run[i].durable && a.key in run[i + 1].durable && run[i].counted[a.key] == 0
    ensures run[i + 1].counted[a.key] == if a.found then 1 else 0
  {
    hide Enabled, Apply, Looks, GoodLooks, Inv, Edges;
    LookDecides(run, steps, j, i, id, a);
    RunRemembers(run, steps, j, i, id, a);
    GoodLooksIff(run, steps, i + 1);
    assert FreshEdges(run[i], id);
    RunKeeps(run, steps, i);
    RunEdges(run, steps, i);
    NowhereYet(run[i], a.key);
  }

  // A counted edge was counted by some commit.
  lemma {:induction false} CountedAt(run: seq<State>, steps: seq<Step>, i: nat, m: nat, k: Key) returns (n: nat)
    requires IsRun(run, steps) && i < m < |run| && run[i].counted[k] < run[m].counted[k]
    ensures i <= n < m && run[n].counted[k] < run[n + 1].counted[k]
  {
    hide Enabled, Apply;
    n := m - 1;
    CountedBy(run, steps, n, k);
    if run[n].counted[k] == run[m].counted[k] {
      n := CountedAt(run, steps, i, n, k);
    }
  }

  // A commit of n counted the edge of k, which a call had taken at t.
  ghost predicate CountsTaken(steps: seq<Step>, t: int, n: int, k: Key) {
    0 <= t < n < |steps| && steps[n].CommitOk? && Took(steps[t], steps[n].id, k)
  }

  // An edge whose parent's service was not known is not counted by its own commit. If it is counted at m, a call
  // took it after that commit, and committed before m. If it is ever counted, it is once.
  lemma ParkedThenTaken(run: seq<State>, steps: seq<Step>, j: nat, i: nat, m: nat, id: nat, a: Answer)
    requires IsRun(run, steps) && j < i < m < |run| && Looks(run[j], steps[j], id, a) && steps[i] == CommitOk(id)
    requires a.parent && a.absent && !a.found && GoodLooks(run, steps, m)
    ensures run[i + 1].counted[a.key] == 0 && run[m].counted[a.key] <= 1
    ensures run[m].counted[a.key] == 1 ==> exists t, n :: i < t < n < m && CountsTaken(steps, t, n, a.key)
  {
    hide Enabled, Apply, Looks, Inv, Edges, Took;
    var k := a.key;
    OwnCommit(run, steps, j, i, id, a);
    GoodLooksIff(run, steps, m);
    RunEdges(run, steps, m);
    PlacedOnce(run[m]);
    if run[m].counted[k] == 1 {
      var n := CountedAt(run, steps, i + 1, m, k);
      var t := TookAfter(run, steps, i, n, k);
      assert CountsTaken(steps, t, n, k);
    }
  }

  // A commit that counts the edge of a key stored at i, with no lookups failed, is of a call that took it since.
  lemma TookAfter(run: seq<State>, steps: seq<Step>, i: nat, n: nat, k: Key) returns (t: nat)
    requires IsRun(run, steps) && i < n < |steps| && FreshCommits(run, steps, n + 1)
    requires k !in run[i].durable && k in run[i + 1].durable && run[n].counted[k] < run[n + 1].counted[k]
    ensures i < t < n && steps[n].CommitOk? && Took(steps[t], steps[n].id, k)
  {
    StaysStored(run, steps, i + 1, n, k);
    CountedStep(run[n], run[n + 1], steps[n], k);
    assert Enabled(run[n], steps[n]);
    hide Apply, Inv, Edges;
    assert FreshEdges(run[n], steps[n].id);
    t := TakenFrom(run, steps, n, steps[n].id, k);
    TakenStored(run, steps, t, k);
    if t <= i {
      StaysStored(run, steps, t, i, k);
    }
  }

  // Only edges of stored keys are pending.
  lemma TakenStored(run: seq<State>, steps: seq<Step>, t: nat, k: Key)
    requires IsRun(run, steps) && t < |steps| && steps[t].Take? && k in steps[t].part && FreshCommits(run, steps, t)
    ensures k in run[t].durable
  {
    assert Enabled(run[t], steps[t]);
    assert k in run[t].pending;
    RunKeeps(run, steps, t);
    RunEdges(run, steps, t);
    hide Enabled, Apply, Inv, Edges;
    if k !in run[t].durable {
      NowhereYet(run[t], k);
    }
  }

  // An edge whose parent's service was known is counted once from its own commit on.
  lemma FoundStaysCounted(run: seq<State>, steps: seq<Step>, j: nat, i: nat, m: nat, id: nat, a: Answer)
    requires IsRun(run, steps) && j < i < m < |run| && Looks(run[j], steps[j], id, a) && steps[i] == CommitOk(id)
    requires a.parent && a.absent && a.found && GoodLooks(run, steps, m)
    ensures run[i].counted[a.key] == 0 && run[m].counted[a.key] == 1
  {
    hide Enabled, Apply, Looks, Inv, Edges;
    OwnCommit(run, steps, j, i, id, a);
    CountsOn(run, steps, i + 1, m, a.key);
    GoodLooksIff(run, steps, m);
    RunEdges(run, steps, m);
    PlacedOnce(run[m]);
  }

  lemma {:induction false} CountsOn(run: seq<State>, steps: seq<Step>, i: nat, m: nat, k: Key)
    requires IsRun(run, steps) && i <= m < |run|
    ensures run[i].counted[k] <= run[m].counted[k]
  {
    hide Enabled, Apply;
    if i < m {
      CountsOn(run, steps, i, m - 1, k);
      CountedBy(run, steps, m - 1, k);
    }
  }
}
