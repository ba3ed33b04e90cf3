/**
 Concurrent Appends in the trace store (internal/tracestore/store.go:203-420,
 edges.go:130-200). Each call reserves an entry key, looks whether it is stored,
 commits one batch, releases, parks what it could not resolve and waits for the
 reservations it skipped past. Calls interleave step by step; lookups and commits
 may fail, contexts be cancelled, parked edges expire, and the process crash.
 */
module TraceClaims {
  type Key = string

  // A top-level span: its entry key, and whether it names a parent, so that it has an edge to count.
  datatype Item = Item(key: Key, hasParent: bool)

  // A reservation of key by a call; also a record that a call did something about key.
  datatype Claim = Claim(holder: nat, key: Key)

  // Reserving and Looking go through the items; Committed and Failed have not released yet.
  datatype Phase = Reserving | Looking | Committed | Failed | Booking | Waiting(checked: nat) | Returned(ok: bool)

  datatype Call = Call(
    items: seq<Item>,
    pos: nat,
    own: set<Key>,        // reserved by this call
    looked: set<Key>,     // ... looked up, and in the batch
    absent: set<Key>,     // ... and not found
    parents: set<Key>,    // ... whose span has a parent
    resolved: set<Key>,   // edges in the batch
    parked: set<Key>,     // edges to park after the commit
    taken: multiset<Key>, // parked edges of earlier calls, now in the batch
    deferred: seq<Claim>,
    phase: Phase,
    committed: bool)

  // Where the edge of an entry key is.
  datatype Place = Counted | Pending | Lost | TakenBy(call: nat) | ParkedBy(call: nat)

  datatype State = State(
    calls: map<nat, Call>,
    next: nat,
    inflight: map<Key, nat>,
    durable: set<Key>,
    counted: multiset<Key>,   // edges merged into the service map
    pending: multiset<Key>,   // edges waiting for their parent's span
    published: set<Claim>,    // history: the commit that first stored a key
    booked: set<Claim>,       // history: commits that recorded a key's edge, or undertook to park it
    orphans: set<Key>,        // history: keys first stored for a span that names no parent
    place: map<Key, Place>)   // history: what became of each booked edge

  datatype Step =
    | Start(items: seq<Item>)
    | Reserve(id: nat)
    | Look(id: nat, found: bool, errs: bool)     // found: the parent's service is known; errs: the lookup failed
    | Take(id: nat, part: multiset<Key>)         // takePending for the batch's spans
    | CommitOk(id: nat)
    | CommitFailed(id: nat)
    | Abort(id: nat)                             // any earlier error return
    | PutBack(id: nat, back: multiset<Key>)      // after a failed commit, as far as the bound allows
    | Release(id: nat)
    | Park(id: nat, kept: set<Key>)
    | Check(id: nat)                             // one receive from a deferred claim
    | Cancel(id: nat)
    | Expire(part: multiset<Key>)
    | Crash

  predicate Released(c: Call) {
    c.phase.Booking? || c.phase.Waiting? || c.phase.Returned?
  }

  predicate Before(c: Call) {
    c.phase.Reserving? || c.phase.Looking?
  }

  function Current(c: Call): Item
    requires c.pos < |c.items|
  {
    c.items[c.pos]
  }

  predicate Enabled(s: State, step: Step) {
    match step
    case Start(_) => true
    case Reserve(id) => id in s.calls && s.calls[id].phase.Reserving? && s.calls[id].pos < |s.calls[id].items|
    case Look(id, _, _) => id in s.calls && s.calls[id].phase.Looking? && s.calls[id].pos < |s.calls[id].items|
    case Take(id, part) => id in s.calls && s.calls[id].phase.Reserving? && s.calls[id].pos == |s.calls[id].items| &&
         part <= s.pending
    case CommitOk(id) => id in s.calls && s.calls[id].phase.Reserving? && s.calls[id].pos == |s.calls[id].items|
    case CommitFailed(id) => id in s.calls && s.calls[id].phase.Reserving? && s.calls[id].pos == |s.calls[id].items|
    case Abort(id) => id in s.calls && Before(s.calls[id])
    case PutBack(id, kept) => id in s.calls && s.calls[id].phase.Failed? && kept <= s.calls[id].taken
    case Release(id) => id in s.calls &&
         (s.calls[id].phase.Committed? || (s.calls[id].phase.Failed? && s.calls[id].taken == multiset{}))
    case Park(id, kept) => id in s.calls && s.calls[id].phase.Booking? && kept <= s.calls[id].parked
    case Check(id) =>
      && id in s.calls && s.calls[id].phase.Waiting? && s.calls[id].phase.checked < |s.calls[id].deferred|
      && s.calls[id].deferred[s.calls[id].phase.checked].holder in s.calls
      && Released(s.calls[s.calls[id].deferred[s.calls[id].phase.checked].holder])
    case Cancel(id) => id in s.calls && s.calls[id].phase.Waiting?
    case Expire(part) => part <= s.pending
    case Crash => true
  }

  /* The steps. */

  function Keys(m: multiset<Key>): set<Key> {
    set k | k in m
  }

  ghost function Move(place: map<Key, Place>, ks: set<Key>, to: Place): map<Key, Place> {
    map k | k in place :: if k in ks then to else place[k]
  }

  // Under the lock: take the key, or note who has it; a key already this call's own is passed over.
  function AfterReserve(s: State, id: nat): State
    requires Enabled(s, Reserve(id))
  {
    var c := s.calls[id];
    var k := Current(c).key;
    if k !in s.inflight then
      s.(inflight := s.inflight[k := id], calls := s.calls[id := c.(own := c.own + {k}, phase := Looking)])
    else if k in c.own then
      s.(calls := s.calls[id := c.(pos := c.pos + 1)])
    else
      var claim := Claim(s.inflight[k], k);
      var deferred := if c.deferred == [] || c.deferred[|c.deferred| - 1] != claim then c.deferred + [claim]
          else c.deferred;
      s.(calls := s.calls[id := c.(pos := c.pos + 1, deferred := deferred)])
  }

  // A lookup that fails counts as not found.
  function Looked(c: Call, absent: bool, found: bool): Call
    requires c.pos < |c.items|
  {
    var one, edge := {Current(c).key}, Current(c).hasParent && absent;
    c.(pos := c.pos + 1, phase := Reserving, looked := c.looked + one,
       absent := c.absent + (if absent then one else {}), parents :=
           c.parents + (if Current(c).hasParent then one else {}),
       resolved := c.resolved + (if edge && found then one else {}), parked :=
           c.parked + (if edge && !found then one else {}))
  }

  function AfterLook(s: State, id: nat, found: bool, errs: bool): State
    requires Enabled(s, Look(id, found, errs))
  {
    var c := s.calls[id];
    s.(calls := s.calls[id := Looked(c, errs || Current(c).key !in s.durable, found)])
  }

  ghost function Placed(mid: map<Key, Place>, id: nat, c: Call): map<Key, Place> {
    mid + (map k | k in c.resolved :: Counted) + (map k | k in c.parked :: ParkedBy(id))
  }

  // One atomic batch: entry keys, edges and taken edges.
  ghost function AfterCommit(s: State, id: nat): State
    requires Enabled(s, CommitOk(id))
  {
    var c := s.calls[id];
    s.(calls := s.calls[id := c.(phase := Committed, committed := true, taken := multiset{})],
       durable := s.durable + c.looked,
       counted := s.counted + multiset(c.resolved) + c.taken,
       published := s.published + Claims(id, c.looked - s.durable),
       booked := s.booked + Claims(id, c.resolved + c.parked),
       orphans := s.orphans + (c.looked - s.durable - c.parents),
       place := Placed(Move(s.place, Keys(c.taken), Counted), id, c))
  }

  ghost function Claims(id: nat, ks: set<Key>): set<Claim> {
    set k | k in ks :: Claim(id, k)
  }

  function AfterRelease(s: State, id: nat): State
    requires Enabled(s, Release(id))
  {
    var c := s.calls[id];
    s.(inflight := s.inflight - c.own,
       calls := s.calls[id := c.(phase := if c.committed then Booking else Returned(false))])
  }

  function AfterCheck(s: State, id: nat): State
    requires Enabled(s, Check(id))
  {
    var c := s.calls[id];
    var ok := s.calls[c.deferred[c.phase.checked].holder].committed;
    s.(calls := s.calls[id := c.(phase := if !ok then Returned(false) else Next(c, c.phase.checked + 1))])
  }

  // Nil is returned once every deferred claim has been checked.
  function Next(c: Call, checked: nat): Phase {
    if checked == |c.deferred| then Returned(true) else Waiting(checked)
  }

  ghost function Apply(s: State, step: Step): State
    requires Enabled(s, step)
  {
    match step
    case Start(items) =>
      s.(next := s.next + 1,
         calls := s.calls[s.next := Call(items, 0, {}, {}, {}, {}, {}, {}, multiset{}, [], Reserving, false)])
    case Reserve(id) => AfterReserve(s, id)
    case Look(id, found, errs) => AfterLook(s, id, found, errs)
    case Take(id, part) =>
      s.(pending := s.pending - part, calls := s.calls[id := s.calls[id].(taken := s.calls[id].taken + part)],
         place := Move(s.place, Keys(part), TakenBy(id)))
    case CommitOk(id) => AfterCommit(s, id)
    case CommitFailed(id) => s.(calls := s.calls[id := s.calls[id].(phase := Failed)])
    case Abort(id) =>
      s.(calls := s.calls[id := s.calls[id].(phase := Failed, taken := multiset{})],
          place := Move(s.place, Keys(s.calls[id].taken), Lost))
    case PutBack(id, kept) =>
      s.(pending := s.pending + kept, calls := s.calls[id := s.calls[id].(taken := multiset{})],
         place := Move(Move(s.place, Keys(s.calls[id].taken), Lost), Keys(kept), Pending))
    case Release(id) => AfterRelease(s, id)
    case Park(id, kept) =>
      s.(pending := s.pending + multiset(kept), calls := s.calls[id := s.calls[id].(phase := Next(s.calls[id], 0))],
         place := Move(Move(s.place, s.calls[id].parked, Lost), kept, Pending))
    case Check(id) => AfterCheck(s, id)
    case Cancel(id) => s.(calls := s.calls[id := s.calls[id].(phase := Returned(false))])
    case Expire(part) => s.(pending := s.pending - part, place := Move(s.place, Keys(part), Lost))
    case Crash =>
      s.(calls := map[], inflight := map[], pending := multiset{},
         place := map k | k in s.place :: if s.place[k] == Counted then Counted else Lost)
  }

  const EMPTY := State(map[], 0, map[], {}, multiset{}, multiset{}, {}, {}, {}, map[])

  ghost predicate IsRun(run: seq<State>, steps: seq<Step>) {
    && |run| == |steps| + 1
    && run[0] == EMPTY
    && forall i :: 0 <= i < |steps| ==> Enabled(run[i], steps[i]) && run[i + 1] == Apply(run[i], steps[i])
  }

  // What one lookup found out: whether the span names a parent, whether the key is missing, or taken to be so
  // because the lookup failed, and whether the parent's service is known.
  datatype Answer = Answer(key: Key, parent: bool, absent: bool, found: bool)

  ghost predicate Looks(s: State, step: Step, id: nat, a: Answer) {
    && step.Look? && step.id == id && step.found == a.found
    && id in s.calls && s.calls[id].pos < |s.calls[id].items| && Current(s.calls[id]) == Item(a.key, a.parent)
    && a.absent == (step.errs || a.key !in s.durable)
  }

  // The key is in the call's batch. A missing one with a parent has its edge there if the parent's service is
  // known, and otherwise among those to be parked.
  ghost predicate Noted(c: Call, a: Answer) {
    && a.key in c.looked
    && (a.key in c.resolved <==> a.parent && a.absent && a.found)
    && (a.key in c.parked <==> a.parent && a.absent && !a.found)
  }

  // Nothing is different about other keys.
  ghost predicate SameElsewhere(c: Call, d: Call, k: Key) {
    forall o :: o != k ==>
      (o in d.looked <==> o in c.looked) && (o in d.resolved <==> o in c.resolved) && (o in d.parked <==> o in c.parked)
  }

  /* What every step keeps. */

  // A key is in flight exactly while one unreleased call owns it.
  ghost predicate OwnOk(inflight: map<Key, nat>, calls: map<nat, Call>) {
    && (forall k :: k in inflight ==>
           inflight[k] in calls && k in calls[inflight[k]].own && !Released(calls[inflight[k]]))
    && (forall id, k :: id in calls && k in calls[id].own && !Released(calls[id]) ==>
           k in inflight && inflight[k] == id)
  }

  // The item k was looked up for, and whether it names a parent.
  ghost predicate LookedAt(c: Call, k: Key) {
    exists i :: 0 <= i < c.pos && i < |c.items| && c.items[i] == Item(k, k in c.parents)
  }

  ghost predicate SetsOk(c: Call) {
    && c.looked <= c.own && c.absent <= c.looked && c.parents <= c.looked
    && c.resolved !! c.parked
    && c.resolved + c.parked == c.absent * c.parents
    && (forall k :: k in c.looked ==> LookedAt(c, k))
    && c.pos <= |c.items|
    && (c.phase.Looking? ==>
           c.pos < |c.items| && Current(c).key in c.own && Current(c).key !in c.looked &&
           c.own == c.looked + {Current(c).key})
    && (c.phase.Reserving? ==> c.own == c.looked)
  }

  // What a call found stored is; once it has committed, all its keys are.
  ghost predicate DurableOk(c: Call, durable: set<Key>) {
    && (forall k :: k in c.looked && k !in c.absent ==> k in durable)
    && (c.committed ==> c.own == c.looked && c.looked <= durable && c.pos == |c.items|)
    && (c.phase.Committed? || c.phase.Booking? || c.phase.Waiting? ==> c.committed)
    && (Before(c) || c.phase.Failed? ==> !c.committed)
  }

  // Every item gone through is the call's own or deferred to its claimant; what was checked had committed.
  ghost predicate DeferredOk(c: Call, calls: map<nat, Call>) {
    && c.pos <= |c.items|
    && (forall i :: 0 <= i < c.pos ==> Handled(c, c.items[i].key))
    && (forall d :: d in c.deferred ==> d.holder in calls && d.key in calls[d.holder].own)
    && (c.phase.Waiting? ==> c.phase.checked < |c.deferred| && Checked(c, calls, c.phase.checked))
    && (c.phase == Returned(true) ==> c.committed && Checked(c, calls, |c.deferred|))
  }

  ghost predicate Handled(c: Call, k: Key) {
    k in c.own || exists d :: d in c.deferred && d.key == k
  }

  ghost predicate Checked(c: Call, calls: map<nat, Call>, n: nat)
    requires n <= |c.deferred|
  {
    forall j :: 0 <= j < n ==> c.deferred[j].holder in calls && calls[c.deferred[j].holder].committed
  }

  // One first commit per key, by a call that has committed.
  ghost predicate PublishedOk(durable: set<Key>, published: set<Claim>, calls: map<nat, Call>, next: nat) {
    && (forall p, q :: p in published && q in published && p.key == q.key ==> p == q)
    && (forall k :: k in durable <==> exists p :: p in published && p.key == k)
    && (forall p :: p in published ==> p.holder < next && (p.holder in calls ==> calls[p.holder].committed))
  }

  ghost predicate CallOk(s: State, id: nat)
    requires id in s.calls
  {
    && id < s.next
    && SetsOk(s.calls[id])
    && DurableOk(s.calls[id], s.durable)
    && DeferredOk(s.calls[id], s.calls)
  }

  ghost predicate CallsOk(s: State) {
    forall id :: id in s.calls ==> CallOk(s, id)
  }

  // What holds in every run.
  ghost predicate Inv(s: State) {
    && OwnOk(s.inflight, s.calls)
    && PublishedOk(s.durable, s.published, s.calls, s.next)
    && CallsOk(s)
  }

  // Calls only ever gain keys and commit; they are not forgotten.
  ghost predicate Extends(calls: map<nat, Call>, calls': map<nat, Call>) {
    forall id :: id in calls ==> id in calls' && Grows(calls[id], calls'[id])
  }

  ghost predicate Grows(c: Call, d: Call) {
    c.own <= d.own && (c.committed ==> d.committed)
  }

  lemma DeferredStay(c: Call, calls: map<nat, Call>, calls': map<nat, Call>)
    requires DeferredOk(c, calls) && Extends(calls, calls')
    ensures DeferredOk(c, calls')
  {
    hide Handled;
  }

  // A call not taking the step keeps what it has.
  lemma OtherStays(s: State, t: State, o: nat)
    requires o in s.calls && o in t.calls && CallOk(s, o) && t.calls[o] == s.calls[o] && s.next <= t.next
    requires Extends(s.calls, t.calls) && s.durable <= t.durable
    ensures CallOk(t, o)
  {
    hide SetsOk;
    DeferredStay(s.calls[o], s.calls, t.calls);
    hide DeferredOk;
  }

  lemma Same(c: Call)
    ensures Grows(c, c)
  {
  }

  lemma OthersStay(s: State, t: State, id: nat)
    requires CallsOk(s) && id in t.calls && (id in s.calls ==> Grows(s.calls[id], t.calls[id])) && s.next <= t.next
    requires t.calls == s.calls[id := t.calls[id]] && s.durable <= t.durable && CallOk(t, id)
    ensures CallsOk(t)
  {
    hide CallOk, Grows;
    assert Extends(s.calls, t.calls) by {
      forall o | o in s.calls ensures Grows(s.calls[o], t.calls[o]) {
        if o != id { Same(s.calls[o]); }
      }
    }
    hide Extends;
    forall o | o in t.calls ensures CallOk(t, o) {
      if o != id {
        assert CallOk(s, o);
        OtherStays(s, t, o);
      }
    }
  }

  // A step of one call that stores nothing.
  lemma QuietKeeps(s: State, t: State, id: nat)
    requires Inv(s) && id in t.calls && s.next <= t.next && t.calls == s.calls[id := t.calls[id]]
    requires if id in s.calls then Grows(s.calls[id], t.calls[id]) else s.next <= id
    requires t.durable == s.durable && t.published == s.published
    requires OwnOk(t.inflight, t.calls) && CallOk(t, id)
    ensures Inv(t)
  {
    OthersStay(s, t, id);
    hide CallOk, OwnOk, CallsOk;
  }

  /* Reserving and looking. */

  lemma StartKeeps(s: State, t: State, items: seq<Item>)
    requires Inv(s) && t == Apply(s, Start(items))
    ensures Inv(t)
  {
    NextIsNew(s);
    var d := Call(items, 0, {}, {}, {}, {}, {}, {}, multiset{}, [], Reserving, false);
    assert t == s.(next := s.next + 1, calls := s.calls[s.next := d]);
    hide Apply, CallsOk, PublishedOk;
    OwnNew(s.inflight, s.calls, s.next, d);
    hide OwnOk;
    assert CallOk(t, s.next);
    hide CallOk;
    QuietKeeps(s, t, s.next);
  }

  lemma OwnNew(inflight: map<Key, nat>, calls: map<nat, Call>, id: nat, d: Call)
    requires OwnOk(inflight, calls) && id !in calls && d.own == {}
    ensures OwnOk(inflight, calls[id := d])
  {
  }

  lemma NextIsNew(s: State)
    requires CallsOk(s)
    ensures s.next !in s.calls
  {
  }

  // A call that keeps its keys, or takes a free one.
  lemma OwnSame(inflight: map<Key, nat>, calls: map<nat, Call>, id: nat, d: Call)
    requires OwnOk(inflight, calls) && id in calls && d.own == calls[id].own && Released(d) == Released(calls[id])
    ensures OwnOk(inflight, calls[id := d])
  {
  }

  lemma OwnMore(inflight: map<Key, nat>, calls: map<nat, Call>, id: nat, d: Call, k: Key)
    requires OwnOk(inflight, calls) && id in calls && k !in inflight && d.own == calls[id].own + {k}
    requires !Released(calls[id]) && !Released(d)
    ensures OwnOk(inflight[k := id], calls[id := d])
  {
  }

  lemma ReserveKeeps(s: State, t: State, id: nat)
    requires Inv(s) && Enabled(s, Reserve(id)) && t == AfterReserve(s, id)
    ensures Inv(t)
  {
    hide Inv;
    var k := Current(s.calls[id]).key;
    if k !in s.inflight {
      ReserveFree(s, t, id, k);
    } else if k in s.calls[id].own {
      ReserveMine(s, t, id, k);
    } else {
      ReserveTaken(s, t, id, k, t.calls[id].deferred);
    }
  }

  lemma ReserveFree(s: State, t: State, id: nat, k: Key)
    requires Inv(s) && Enabled(s, Reserve(id)) && k == Current(s.calls[id]).key && k !in s.inflight
    requires var c := s.calls[id];
             t == s.(inflight := s.inflight[k := id], calls := s.calls[id := c.(own := c.own + {k}, phase := Looking)])
    ensures Inv(t)
  {
    var c, d := s.calls[id], t.calls[id];
    assert k !in c.own;
    hide PublishedOk;
    CallParts(s, id);
    OwnMore(s.inflight, s.calls, id, d, k);
    hide OwnOk, CallsOk;
    DeferredMine(c, d, s.calls, t.calls, id);
    hide DeferredOk;
    assert CallOk(t, id);
    hide CallOk;
    QuietKeeps(s, t, id);
  }

  lemma CallParts(s: State, id: nat)
    requires CallsOk(s) && id in s.calls
    ensures CallOk(s, id)
  {
  }

  // The acting call still accounts for its items when it takes a step that adds none.
  lemma DeferredMine(c: Call, d: Call, calls: map<nat, Call>, calls': map<nat, Call>, id: nat)
    requires DeferredOk(c, calls) && id in calls && calls[id] == c && calls' == calls[id := d] && Grows(c, d)
    requires d.items == c.items && d.pos == c.pos && d.deferred == c.deferred
    requires !d.phase.Waiting? && d.phase != Returned(true)
    ensures DeferredOk(d, calls')
  {
    DeferredStay(c, calls, calls');
  }

  // ... or goes on past an item it has an answer for.
  lemma DeferredPast(c: Call, d: Call, calls: map<nat, Call>, calls': map<nat, Call>, id: nat)
    requires DeferredOk(c, calls) && id in calls && calls[id] == c && calls' == calls[id := d] && Grows(c, d)
    requires d.items == c.items && d.pos == c.pos + 1 <= |c.items| && d.phase.Reserving?
    requires Handled(d, c.items[c.pos].key)
    requires c.deferred <= d.deferred
    requires forall x :: x in d.deferred && x !in c.deferred ==> x.holder in calls && x.key in calls[x.holder].own
    ensures DeferredOk(d, calls')
  {
    forall i | 0 <= i < d.pos ensures Handled(d, d.items[i].key) {
      if i < c.pos {
        assert Handled(c, c.items[i].key);
      }
    }
  }

  // A call that keeps its keys.
  lemma CallKeeps(s: State, t: State, id: nat, d: Call)
    requires Inv(s) && id in s.calls && t.calls == s.calls[id := d] && t.inflight == s.inflight && t.next == s.next
    requires t.durable == s.durable && t.published == s.published
    requires d.own == s.calls[id].own && d.committed == s.calls[id].committed && Released(d) == Released(s.calls[id])
    requires SetsOk(d) && DurableOk(d, s.durable) && DeferredOk(d, t.calls)
    ensures Inv(t)
  {
    hide PublishedOk, SetsOk, DurableOk, DeferredOk;
    CallParts(s, id);
    OwnSame(s.inflight, s.calls, id, d);
    hide OwnOk, CallsOk;
    assert CallOk(t, id);
    hide CallOk;
    QuietKeeps(s, t, id);
  }

  lemma ReserveMine(s: State, t: State, id: nat, k: Key)
    requires Inv(s) && Enabled(s, Reserve(id)) && k == Current(s.calls[id]).key && k in s.calls[id].own
    requires var c := s.calls[id];
             t == s.(calls := s.calls[id := c.(pos := c.pos + 1)])
    ensures Inv(t)
  {
    CallParts(s, id);
    hide Inv;
    DeferredPast(s.calls[id], t.calls[id], s.calls, t.calls, id);
    hide DeferredOk;
    CallKeeps(s, t, id, t.calls[id]);
  }

  lemma ReserveTaken(s: State, t: State, id: nat, k: Key, more: seq<Claim>)
    requires Inv(s) && Enabled(s, Reserve(id)) && k == Current(s.calls[id]).key && k in s.inflight
    requires k !in s.calls[id].own
    requires var c := s.calls[id];
             t == s.(calls := s.calls[id := c.(pos := c.pos + 1, deferred := more)]) && c.deferred <= more
    requires var x := Claim(s.inflight[k], k);
             x in more && forall y :: y in more ==> y in s.calls[id].deferred || y == x
    ensures Inv(t)
  {
    var x := Claim(s.inflight[k], k);
    assert x.holder in s.calls && k in s.calls[x.holder].own;
    CallParts(s, id);
    hide Inv;
    assert Handled(t.calls[id], k);
    DeferredPast(s.calls[id], t.calls[id], s.calls, t.calls, id);
    hide DeferredOk;
    CallKeeps(s, t, id, t.calls[id]);
  }

  lemma LookKeeps(s: State, t: State, id: nat, found: bool, errs: bool)
    requires Inv(s) && Enabled(s, Look(id, found, errs)) && t == AfterLook(s, id, found, errs)
    ensures Inv(t)
    ensures forall a :: Looks(s, Look(id, found, errs), id, a) ==>
              Noted(t.calls[id], a) && SameElsewhere(s.calls[id], t.calls[id], a.key)
  {
    CallParts(s, id);
    hide Inv;
    DeferredPast(s.calls[id], t.calls[id], s.calls, t.calls, id);
    hide DeferredOk;
    LookNotes(s.calls[id], errs || Current(s.calls[id]).key !in s.durable, found);
    hide Noted, SameElsewhere;
    LookSets(s.calls[id], s.durable, errs || Current(s.calls[id]).key !in s.durable, found);
    hide SetsOk, DurableOk;
    CallKeeps(s, t, id, t.calls[id]);
  }

  // The key was not in the batch before, so what is noted about it is this answer.
  lemma LookNotes(c: Call, absent: bool, found: bool)
    requires SetsOk(c) && c.phase.Looking?
    ensures var item := Current(c);
            && Noted(Looked(c, absent, found), Answer(item.key, item.hasParent, absent, found))
            && SameElsewhere(c, Looked(c, absent, found), item.key)
  {
    var k := Current(c).key;
    assert k !in c.resolved + c.parked;
    hide LookedAt;
  }

  lemma LookSets(c: Call, durable: set<Key>, absent: bool, found: bool)
    requires SetsOk(c) && DurableOk(c, durable) && c.phase.Looking? && (absent || Current(c).key in durable)
    ensures SetsOk(Looked(c, absent, found)) && DurableOk(Looked(c, absent, found), durable)
  {
    var d := Looked(c, absent, found);
    assert c.resolved + c.parked == c.absent * c.parents;
    assert d.resolved + d.parked == d.absent * d.parents;
    forall k | k in d.looked ensures LookedAt(d, k) {
      if k in c.looked {
        assert LookedAt(c, k);
      } else {
        assert d.items[c.pos] == Item(k, k in d.parents);
      }
    }
  }

  /* Ending a call. */

  // The call fails or is cancelled, or has other edges in its hands.
  lemma CallStays(s: State, t: State, id: nat)
    requires Inv(s) && id in s.calls && !Released(s.calls[id]) && !s.calls[id].committed
    requires id in t.calls && var d := t.calls[id];
             t == s.(calls := s.calls[id := d], pending := t.pending, place := t.place)
             && d == s.calls[id].(phase := d.phase, taken := d.taken) &&
                (d.phase == s.calls[id].phase || d.phase.Failed?)
    ensures Inv(t)
  {
    CallParts(s, id);
    hide Inv;
    DeferredMine(s.calls[id], t.calls[id], s.calls, t.calls, id);
    CallKeeps(s, t, id, t.calls[id]);
  }

  lemma CancelKeeps(s: State, t: State, id: nat)
    requires Inv(s) && Enabled(s, Cancel(id)) && t == s.(calls := s.calls[id := s.calls[id].(phase := Returned(false))])
    ensures Inv(t)
  {
    CallParts(s, id);
    hide Inv;
    DeferredMine(s.calls[id], t.calls[id], s.calls, t.calls, id);
    CallKeeps(s, t, id, t.calls[id]);
  }

  lemma CheckKeeps(s: State, t: State, id: nat)
    requires Inv(s) && Enabled(s, Check(id)) && t == AfterCheck(s, id)
    ensures Inv(t)
  {
    CallParts(s, id);
    hide Inv;
    var c, d := s.calls[id], t.calls[id];
    if d.phase == Returned(false) {
      DeferredMine(c, d, s.calls, t.calls, id);
    } else {
      DeferredNext(c, d, s.calls, t.calls, id);
    }
    hide DeferredOk;
    CallKeeps(s, t, id, d);
  }

  lemma DeferredNext(c: Call, d: Call, calls: map<nat, Call>, calls': map<nat, Call>, id: nat)
    requires DeferredOk(c, calls) && id in calls && calls[id] == c && calls' == calls[id := d] && Grows(c, d)
    requires c.committed
    requires c.phase.Waiting? && c.phase.checked < |c.deferred|
    requires c.deferred[c.phase.checked].holder in calls && calls[c.deferred[c.phase.checked].holder].committed
    requires d == c.(phase := Next(c, c.phase.checked + 1))
    ensures DeferredOk(d, calls')
  {
    DeferredStay(c, calls, calls');
    assert Checked(d, calls', c.phase.checked + 1);
    assert forall k :: Handled(c, k) ==> Handled(d, k);
  }

  lemma OwnLess(inflight: map<Key, nat>, calls: map<nat, Call>, id: nat, d: Call)
    requires OwnOk(inflight, calls) && id in calls && d.own == calls[id].own && !Released(calls[id]) && Released(d)
    ensures OwnOk(inflight - d.own, calls[id := d])
  {
    forall o, k | o in calls && o != id && k in calls[o].own && !Released(calls[o]) ensures k !in d.own {
      assert inflight[k] == o;
    }
  }

  lemma ReleaseKeeps(s: State, t: State, id: nat)
    requires Inv(s) && Enabled(s, Release(id)) && t == AfterRelease(s, id)
    ensures Inv(t)
  {
    hide PublishedOk;
    var c, d := s.calls[id], t.calls[id];
    CallParts(s, id);
    OwnLess(s.inflight, s.calls, id, d);
    hide OwnOk, CallsOk;
    DeferredMine(c, d, s.calls, t.calls, id);
    hide DeferredOk;
    assert CallOk(t, id);
    hide CallOk;
    QuietKeeps(s, t, id);
  }

  lemma DeferredStart(c: Call, d: Call, calls: map<nat, Call>, calls': map<nat, Call>, id: nat)
    requires DeferredOk(c, calls) && id in calls && calls[id] == c && calls' == calls[id := d] && c.committed
    requires d == c.(phase := Next(c, 0))
    ensures DeferredOk(d, calls')
  {
    assert Extends(calls, calls');
    DeferredStay(c, calls, calls');
    assert forall k :: Handled(c, k) ==> Handled(d, k);
  }

  lemma ParkKeeps(s: State, t: State, id: nat)
    requires Inv(s) && id in s.calls && s.calls[id].phase.Booking?
    requires t == s.(pending := t.pending, calls := s.calls[id := s.calls[id].(phase := Next(s.calls[id], 0))],
               place := t.place)
    ensures Inv(t)
  {
    CallParts(s, id);
    hide Inv;
    DeferredStart(s.calls[id], t.calls[id], s.calls, t.calls, id);
    hide DeferredOk;
    CallKeeps(s, t, id, t.calls[id]);
  }

  lemma SameKeeps(s: State, t: State)
    requires Inv(s) && t == s.(pending := t.pending, place := t.place)
    ensures Inv(t)
  {
    hide OwnOk, PublishedOk, SetsOk, DurableOk, DeferredOk;
    forall o | o in t.calls ensures CallOk(t, o) {
      CallParts(s, o);
    }
    hide CallOk;
    AllCallsOk(t);
  }

  lemma AllCallsOk(s: State)
    requires forall o :: o in s.calls ==> CallOk(s, o)
    ensures CallsOk(s)
  {
  }

  lemma CrashKeeps(s: State, t: State)
    requires Inv(s) && t == Apply(s, Crash)
    ensures Inv(t)
  {
    hide CallsOk;
    assert CallsOk(t) by { AllCallsOk(t); }
  }

  /* The commit. */

  // New keys and their first commit.
  lemma CommitPublishes(durable: set<Key>, published: set<Claim>, calls: map<nat, Call>, next: nat, id: nat, d: Call)
    requires PublishedOk(durable, published, calls, next) && id in calls && id < next && d.committed
    ensures PublishedOk(durable + d.looked, published + Claims(id, d.looked - durable), calls[id := d], next)
  {
    var p := published + Claims(id, d.looked - durable);
    assert forall x :: x in p <==> x in published || (x.holder == id && x.key in d.looked - durable) by {
      ClaimsAre(id, d.looked - durable);
    }
    hide Claims;
    forall k ensures k in durable + d.looked <==> exists x :: x in p && x.key == k {
      if k in durable {
        var x :| x in published && x.key == k;
        assert x in p;
      } else if k in d.looked {
        assert Claim(id, k) in p;
      }
    }
  }

  lemma ClaimsAre(id: nat, ks: set<Key>)
    ensures forall x :: x in Claims(id, ks) <==> x.holder == id && x.key in ks
  {
    forall x ensures x in Claims(id, ks) <==> x.holder == id && x.key in ks {
      assert x.holder == id ==> x == Claim(id, x.key);
    }
  }

  lemma CommitCall(c: Call, d: Call, durable: set<Key>)
    requires SetsOk(c) && DurableOk(c, durable) && c.phase.Reserving? && c.pos == |c.items|
    requires d == c.(phase := Committed, committed := true, taken := multiset{})
    ensures SetsOk(d) && DurableOk(d, durable + c.looked)
  {
  }

  lemma CommitKeeps(s: State, t: State, id: nat)
    requires Inv(s) && Enabled(s, CommitOk(id)) && t == AfterCommit(s, id)
    ensures Inv(t)
  {
    var c, d := s.calls[id], t.calls[id];
    hide PublishedOk, OwnOk, CallsOk, Move, Keys, Claims, Placed;
    CallParts(s, id);
    OwnSame(s.inflight, s.calls, id, d);
    CommitPublishes(s.durable, s.published, s.calls, s.next, id, d);
    hide SetsOk, DurableOk, DeferredOk;
    CommitCall(c, d, s.durable);
    DeferredMine(c, d, s.calls, t.calls, id);
    assert CallOk(t, id);
    hide CallOk;
    OthersStay(s, t, id);
  }

  /* Every run. */

  lemma StepKeeps(s: State, t: State, step: Step)
    requires Inv(s) && Enabled(s, step) && t == Apply(s, step)
    ensures Inv(t)
  {
    hide Inv;
    match step
    case Start(items) => StartKeeps(s, t, items);
    case Reserve(id) => ReserveKeeps(s, t, id);
    case Look(id, found, errs) => LookKeeps(s, t, id, found, errs);
    case Take(id, _) => NotYet(s, id); CallStays(s, t, id);
    case CommitOk(id) => CommitKeeps(s, t, id);
    case CommitFailed(id) => NotYet(s, id); CallStays(s, t, id);
    case Abort(id) => NotYet(s, id); CallStays(s, t, id);
    case PutBack(id, _) => NotYet(s, id); CallStays(s, t, id);
    case Release(id) => ReleaseKeeps(s, t, id);
    case Park(id, _) => ParkKeeps(s, t, id);
    case Check(id) => CheckKeeps(s, t, id);
    case Cancel(id) => CancelKeeps(s, t, id);
    case Expire(_) => SameKeeps(s, t);
    case Crash => CrashKeeps(s, t);
  }

  lemma NotYet(s: State, id: nat)
    requires Inv(s) && id in s.calls && (Before(s.calls[id]) || s.calls[id].phase.Failed?)
    ensures !Released(s.calls[id]) && !s.calls[id].committed
  {
    CallParts(s, id);
  }

  lemma {:induction false} RunKeeps(run: seq<State>, steps: seq<Step>, i: nat)
    requires IsRun(run, steps) && i < |run|
    ensures Inv(run[i])
  {
    hide Enabled, Apply;
    if i > 0 {
      RunKeeps(run, steps, i - 1);
      hide Inv;
      StepKeeps(run[i - 1], run[i], steps[i - 1]);
    }
  }

  // Append returns nil only when every entry key of its batch is stored, whatever lookups failed.
  lemma NilMeansStored(run: seq<State>, steps: seq<Step>, i: nat, id: nat, n: nat)
    requires IsRun(run, steps) && i < |run| && id in run[i].calls && run[i].calls[id].phase == Returned(true)
    requires n < |run[i].calls[id].items|
    ensures run[i].calls[id].items[n].key in run[i].durable
  {
    RunKeeps(run, steps, i);
    var s := run[i];
    var c := s.calls[id];
    CallParts(s, id);
    var k := c.items[n].key;
    assert Handled(c, k);
    if k !in c.own {
      var d :| d in c.deferred && d.key == k;
      var j :| 0 <= j < |c.deferred| && c.deferred[j] == d;
      CallParts(s, d.holder);
    }
  }

  // A step a call can take on its own account, not counting cancellation.
  predicate CanStep(s: State, id: nat) {
    && id in s.calls
    && (Enabled(s, Reserve(id)) || Enabled(s, Look(id, false, false)) || Enabled(s, CommitOk(id)) ||
           Enabled(s, PutBack(id, multiset{}))
        || Enabled(s, Release(id)) || Enabled(s, Park(id, {})) || Enabled(s, Check(id)))
  }

  // Some call can always go on: one that waits holds nothing, so what it waits for is not waiting for it.
  lemma NoDeadlock(run: seq<State>, steps: seq<Step>, i: nat, id: nat)
    requires IsRun(run, steps) && i < |run| && id in run[i].calls && !run[i].calls[id].phase.Returned?
    ensures exists o :: CanStep(run[i], o) && !run[i].calls[o].phase.Returned?
    ensures run[i].calls[id].phase.Waiting? ==> forall k :: k in run[i].inflight ==> run[i].inflight[k] != id
  {
    RunKeeps(run, steps, i);
    var s := run[i];
    CallParts(s, id);
    hide PublishedOk, DurableOk;
    if s.calls[id].phase.Waiting? {
      var c := s.calls[id];
      var o := c.deferred[c.phase.checked].holder;
      assert c.deferred[c.phase.checked] in c.deferred;
      if Released(s.calls[o]) {
        assert CanStep(s, id);
      } else {
        CallParts(s, o);
        assert CanStep(s, o);
      }
    } else {
      assert CanStep(s, id);
    }
  }
}
