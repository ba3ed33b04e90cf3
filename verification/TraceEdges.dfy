/**
 Service-map edges (internal/tracestore/edges.go:130-200, store.go:345-420). As
 long as no commit carries an edge for a key that is already stored, an edge is
 booked once, by the commit that first stored its key, and is in one place ever
 after. A lookup that fails on a stored key is the one way to break that.
 */
module TraceEdges {
  import opened TraceClaims

  /* The invariant, part by part. */

  // One booked edge per key, by the first commit, if it had one.
  ghost predicate BookedOk(durable: set<Key>, published: set<Claim>, booked: set<Claim>, orphans: set<Key>,
                           named: set<Key>)
  {
    && booked <= published
    && (forall p :: p in published ==> (p in booked <==> p.key !in orphans))
    && orphans <= durable
    && (forall k :: k in named <==> exists p :: p in booked && p.key == k)
  }

  ghost function One(place: map<Key, Place>, k: Key, p: Place): nat {
    if k in place && place[k] == p then 1 else 0
  }

  // The edges a committed call has yet to park.
  function Unparked(c: Call): set<Key> {
    if c.phase.Committed? || c.phase.Booking? then c.parked else {}
  }

  // Every booked edge is in exactly one place, once.
  ghost predicate PlacesOk(place: map<Key, Place>, counted: multiset<Key>, pending: multiset<Key>) {
    && (forall k :: counted[k] == One(place, k, Counted))
    && (forall k :: pending[k] == One(place, k, Pending))
  }

  ghost predicate CallPlaces(place: map<Key, Place>, id: nat, c: Call) {
    && (forall k :: c.taken[k] == One(place, k, TakenBy(id)))
    && (forall k :: k in Unparked(c) <==> One(place, k, ParkedBy(id)) == 1)
  }

  // An edge in a call's hands is in the hands of a call there is.
  ghost predicate InHands(place: map<Key, Place>, calls: map<nat, Call>) {
    forall k :: k in place && (place[k].TakenBy? || place[k].ParkedBy?) ==> place[k].call in calls
  }

  ghost predicate HandsOk(place: map<Key, Place>, calls: map<nat, Call>) {
    && InHands(place, calls)
    && (forall id :: id in calls ==> CallPlaces(place, id, calls[id]))
  }

  // What holds as long as no commit carries an edge for a key already stored.
  ghost predicate Edges(s: State) {
    && BookedOk(s.durable, s.published, s.booked, s.orphans, s.place.Keys)
    && PlacesOk(s.place, s.counted, s.pending)
    && HandsOk(s.place, s.calls)
  }

  // The edges in the call's batch are all for keys not stored yet.
  ghost predicate FreshEdges(s: State, id: nat) {
    id in s.calls && (s.calls[id].resolved + s.calls[id].parked) !! s.durable
  }

  ghost predicate FreshCommits(run: seq<State>, steps: seq<Step>, n: nat)
    requires n <= |steps| < |run|
  {
    forall i :: 0 <= i < n && steps[i].CommitOk? ==> FreshEdges(run[i], steps[i].id)
  }

  /* Steps that leave the edges where they are. */

  lemma QuietEdges(s: State, t: State, id: nat)
    requires Edges(s) && id in t.calls && t.calls == s.calls[id := t.calls[id]] && t.place == s.place
    requires t.counted == s.counted && t.pending == s.pending
    requires t.durable == s.durable && t.published == s.published && t.booked == s.booked && t.orphans == s.orphans
    requires if id in s.calls
               then t.calls[id].taken == s.calls[id].taken && Unparked(t.calls[id]) == Unparked(s.calls[id])
             else t.calls[id].taken == multiset{} && Unparked(t.calls[id]) == {}
    ensures Edges(t)
  {
    hide BookedOk, PlacesOk, Unparked;
    assert CallPlaces(t.place, id, t.calls[id]) by {
      if id in s.calls {
        assert CallPlaces(s.place, id, s.calls[id]);
      } else {
        NotInHands(s, id);
        hide One;
      }
    }
    forall o | o in t.calls ensures CallPlaces(t.place, o, t.calls[o]) {
      assert o != id ==> CallPlaces(s.place, o, s.calls[o]);
    }
    hide CallPlaces;
  }

  lemma NotInHands(s: State, id: nat)
    requires HandsOk(s.place, s.calls) && id !in s.calls
    ensures forall k :: One(s.place, k, TakenBy(id)) == 0 && One(s.place, k, ParkedBy(id)) == 0
  {
  }

  /* Edges on the move. */

  // A step of one call that moves edges between its own hands and the pending ones.
  lemma PlacedEdges(s: State, t: State, id: nat, d: Call)
    requires Edges(s) && id in s.calls && t.place.Keys == s.place.Keys
    requires t == s.(calls := s.calls[id := d], pending := t.pending, place := t.place)
    requires CallPlaces(t.place, id, d) && PlacesOk(t.place, t.counted, t.pending) && InHands(t.place, t.calls)
    requires Apart(s.place, t.place, id)
    ensures Edges(t)
  {
    hide BookedOk, PlacesOk;
    OthersApart(s.place, t.place, s.calls, t.calls, id);
  }

  lemma OthersApart(place: map<Key, Place>, place': map<Key, Place>, calls: map<nat, Call>, calls': map<nat, Call>,
                    id: nat)
    requires HandsOk(place, calls) && InHands(place', calls') && Apart(place, place', id)
    requires id in calls && id in calls' && calls' == calls[id := calls'[id]] && CallPlaces(place', id, calls'[id])
    ensures HandsOk(place', calls')
  {
    hide One, Unparked;
    forall o | o in calls' ensures CallPlaces(place', o, calls'[o]) {
      assert o != id ==> CallPlaces(place, o, calls[o]);
    }
  }

  // part is some of the edges at `from`, each once.
  ghost predicate PartOf(place: map<Key, Place>, from: Place, part: multiset<Key>) {
    forall k :: part[k] <= One(place, k, from)
  }

  // Moving part away takes exactly that many from one place and adds them to the other.
  lemma MoveOne(place: map<Key, Place>, part: multiset<Key>, from: Place, to: Place, k: Key, p: Place)
    requires PartOf(place, from, part) && from != to
    ensures Move(place, Keys(part), to).Keys == place.Keys
    ensures One(Move(place, Keys(part), to), k, p)
         == One(place, k, p) - (if p == from then part[k] else 0) + (if p == to then part[k] else 0)
  {
    assert part[k] <= One(place, k, from);
    assert k in Keys(part) <==> part[k] > 0;
  }

  ghost predicate Shifted(place: map<Key, Place>, place': map<Key, Place>, part: multiset<Key>, from: Place, to: Place)
  {
    && place'.Keys == place.Keys
    && forall k, p :: One(place', k, p) == One(place, k,
       p) - (if p == from then part[k] else 0) + (if p == to then part[k] else 0)
  }

  lemma MoveShifts(place: map<Key, Place>, part: multiset<Key>, from: Place, to: Place)
    requires PartOf(place, from, part) && from != to
    ensures Shifted(place, Move(place, Keys(part), to), part, from, to)
  {
    forall k, p
      ensures One(Move(place, Keys(part), to), k, p)
           == One(place, k, p) - (if p == from then part[k] else 0) + (if p == to then part[k] else 0)
    {
      MoveOne(place, part, from, to, k, p);
    }
  }

  lemma ShiftedHands(place: map<Key, Place>, place': map<Key, Place>, part: multiset<Key>, from: Place, to: Place,
                     calls: map<nat, Call>)
    requires Shifted(place, place', part, from, to) && InHands(place, calls)
    requires (to.TakenBy? || to.ParkedBy?) ==> to.call in calls
    ensures InHands(place', calls)
  {
    forall k | k in place' && (place'[k].TakenBy? || place'[k].ParkedBy?) ensures place'[k].call in calls {
      assert One(place', k, place'[k]) == 1;
      if place'[k] != to {
        assert One(place, k, place'[k]) == 1;
      }
    }
  }

  lemma PendingLess(place: map<Key, Place>, place': map<Key, Place>, counted: multiset<Key>, pending: multiset<Key>,
                    part: multiset<Key>, to: Place)
    requires PlacesOk(place, counted, pending) && part <= pending && Shifted(place, place', part, Pending, to)
    requires to != Counted && to != Pending
    ensures PlacesOk(place', counted, pending - part)
  {
    hide One;
    forall k ensures (pending - part)[k] == One(place', k, Pending) {
      assert part[k] <= pending[k];
    }
  }

  lemma PendingMore(place: map<Key, Place>, place': map<Key, Place>, counted: multiset<Key>, pending: multiset<Key>,
                    part: multiset<Key>, from: Place)
    requires PlacesOk(place, counted, pending) && Shifted(place, place', part, from, Pending) && from != Counted
    requires from != Pending
    ensures PlacesOk(place', counted, pending + part)
  {
    hide One;
  }

  lemma PendingSame(place: map<Key, Place>, place': map<Key, Place>, counted: multiset<Key>, pending: multiset<Key>,
                    part: multiset<Key>, from: Place, to: Place)
    requires PlacesOk(place, counted, pending) && Shifted(place, place', part, from, to)
    requires from != Counted && from != Pending && to != Counted && to != Pending
    ensures PlacesOk(place', counted, pending)
  {
    hide One;
  }

  // Edges moved to or from one call's hands are in no other's.
  ghost predicate Apart(place: map<Key, Place>, place': map<Key, Place>, id: nat) {
    forall o, k :: o != id ==>
        One(place', k, TakenBy(o)) == One(place, k, TakenBy(o)) &&
        One(place', k, ParkedBy(o)) == One(place, k, ParkedBy(o))
  }

  lemma ShiftedApart(place: map<Key, Place>, place': map<Key, Place>, part: multiset<Key>, from: Place, to: Place,
                     id: nat)
    requires Shifted(place, place', part, from, to)
    requires (from.TakenBy? || from.ParkedBy? ==> from.call == id) && (to.TakenBy? || to.ParkedBy? ==> to.call == id)
    ensures Apart(place, place', id)
  {
    hide One;
  }

  lemma HandsMore(place: map<Key, Place>, calls: map<nat, Call>, calls': map<nat, Call>)
    requires HandsOk(place, calls) && calls.Keys <= calls'.Keys
    ensures InHands(place, calls')
  {
    hide CallPlaces;
    assert forall id :: id in calls ==> id in calls.Keys;
  }

  lemma HandsPart(s: State, id: nat)
    requires Edges(s) && id in s.calls
    ensures CallPlaces(s.place, id, s.calls[id])
  {
  }

  lemma TakenMore(place: map<Key, Place>, place': map<Key, Place>, id: nat, c: Call, d: Call, part: multiset<Key>)
    requires CallPlaces(place, id, c) && Shifted(place, place', part, Pending, TakenBy(id))
    requires d.taken == c.taken + part && Unparked(d) == Unparked(c)
    ensures CallPlaces(place', id, d)
  {
    hide One, Unparked;
  }

  lemma TakeEdges(s: State, t: State, id: nat, part: multiset<Key>)
    requires Edges(s) && Enabled(s, Take(id, part)) && t == Apply(s, Take(id, part))
    ensures Edges(t)
  {
    var c, d := s.calls[id], t.calls[id];
    HandsPart(s, id);
    hide One, BookedOk, CallPlaces;
    HandsMore(s.place, s.calls, t.calls);
    PendingPart(s.place, s.counted, s.pending, part);
    MoveShifts(s.place, part, Pending, TakenBy(id));
    hide Keys, Move, Shifted, PlacesOk, HandsOk, InHands;
    PendingLess(s.place, t.place, s.counted, s.pending, part, TakenBy(id));
    ShiftedHands(s.place, t.place, part, Pending, TakenBy(id), t.calls);
    ShiftedApart(s.place, t.place, part, Pending, TakenBy(id), id);
    TakenMore(s.place, t.place, id, c, d, part);
    ShiftedKeys(s.place, t.place, part, Pending, TakenBy(id));
    hide Apart;
    PlacedEdges(s, t, id, d);
  }

  lemma ShiftedKeys(place: map<Key, Place>, place': map<Key, Place>, part: multiset<Key>, from: Place, to: Place)
    requires Shifted(place, place', part, from, to)
    ensures place'.Keys == place.Keys
  {
    hide One;
  }

  lemma PendingPart(place: map<Key, Place>, counted: multiset<Key>, pending: multiset<Key>, part: multiset<Key>)
    requires PlacesOk(place, counted, pending) && part <= pending
    ensures PartOf(place, Pending, part)
  {
    hide One;
    forall k ensures part[k] <= One(place, k, Pending) {
      assert part[k] <= pending[k];
    }
  }

  // Hands emptied: everything taken has gone somewhere else.
  lemma TakenNone(place: map<Key, Place>, place': map<Key, Place>, id: nat, c: Call, d: Call, to: Place)
    requires CallPlaces(place, id, c) && Shifted(place, place', c.taken, TakenBy(id), to) && !to.TakenBy?
    requires !to.ParkedBy?
    requires d.taken == multiset{} && Unparked(d) == Unparked(c)
    ensures CallPlaces(place', id, d)
  {
    hide One, Unparked;
  }

  lemma TakenPart(place: map<Key, Place>, id: nat, c: Call)
    requires CallPlaces(place, id, c)
    ensures PartOf(place, TakenBy(id), c.taken)
  {
    hide One;
  }

  // Edges passing between places that are in no call's hands.
  lemma HandsOff(place: map<Key, Place>, place': map<Key, Place>, part: multiset<Key>, from: Place, to: Place,
                 id: nat, c: Call)
    requires CallPlaces(place, id, c) && Shifted(place, place', part, from, to)
    requires !from.TakenBy? && !from.ParkedBy? && !to.TakenBy? && !to.ParkedBy?
    ensures CallPlaces(place', id, c)
  {
    hide One, Unparked;
  }

  lemma AbortEdges(s: State, t: State, id: nat)
    requires Edges(s) && Enabled(s, Abort(id)) && t == Apply(s, Abort(id))
    ensures Edges(t)
  {
    var c, d := s.calls[id], t.calls[id];
    HandsPart(s, id);
    hide One, BookedOk;
    HandsMore(s.place, s.calls, t.calls);
    TakenPart(s.place, id, c);
    MoveShifts(s.place, c.taken, TakenBy(id), Lost);
    hide Keys, Move, Shifted, PlacesOk, HandsOk, InHands, CallPlaces;
    PendingSame(s.place, t.place, s.counted, s.pending, c.taken, TakenBy(id), Lost);
    ShiftedHands(s.place, t.place, c.taken, TakenBy(id), Lost, t.calls);
    ShiftedApart(s.place, t.place, c.taken, TakenBy(id), Lost, id);
    TakenNone(s.place, t.place, id, c, d, Lost);
    ShiftedKeys(s.place, t.place, c.taken, TakenBy(id), Lost);
    hide Apart;
    PlacedEdges(s, t, id, d);
  }

  // Edges given up and then, as far as there is room, pending.
  lemma LostThenPending(place: map<Key, Place>, mid: map<Key, Place>, place': map<Key, Place>, part: multiset<Key>,
                        back: multiset<Key>, from: Place, counted: multiset<Key>, pending: multiset<Key>,
                        calls: map<nat, Call>, id: nat)
    requires PartOf(place, from, part) && back <= part && (from.TakenBy? || from.ParkedBy?) && from.call == id
    requires mid == Move(place, Keys(part), Lost) && place' == Move(mid, Keys(back), Pending)
    requires PlacesOk(place, counted, pending) && InHands(place, calls)
    ensures PlacesOk(place', counted, pending + back) && InHands(place', calls) && Apart(place, place', id)
    ensures place'.Keys == place.Keys
    ensures Shifted(place, mid, part, from, Lost) && Shifted(mid, place', back, Lost, Pending)
  {
    hide One;
    MoveShifts(place, part, from, Lost);
    assert PartOf(mid, Lost, back) by {
      forall k ensures back[k] <= One(mid, k, Lost) { assert back[k] <= part[k]; }
    }
    MoveShifts(mid, back, Lost, Pending);
    hide PartOf, Move, Keys;
    PendingSame(place, mid, counted, pending, part, from, Lost);
    PendingMore(mid, place', counted, pending, back, Lost);
    ShiftedHands(place, mid, part, from, Lost, calls);
    ShiftedHands(mid, place', back, Lost, Pending, calls);
    ShiftedApart(place, mid, part, from, Lost, id);
    ShiftedApart(mid, place', back, Lost, Pending, id);
  }

  lemma PutBackEdges(s: State, t: State, id: nat, back: multiset<Key>)
    requires Edges(s) && Enabled(s, PutBack(id, back)) && t == Apply(s, PutBack(id, back))
    ensures Edges(t)
  {
    var c, d := s.calls[id], t.calls[id];
    var mid := Move(s.place, Keys(c.taken), Lost);
    HandsPart(s, id);
    hide One, BookedOk, PlacesOk;
    HandsMore(s.place, s.calls, t.calls);
    TakenPart(s.place, id, c);
    hide HandsOk, InHands;
    LostThenPending(s.place, mid, t.place, c.taken, back, TakenBy(id), s.counted, s.pending, t.calls, id);
    hide Keys, Move, Shifted, CallPlaces;
    TakenNone(s.place, mid, id, c, d, Lost);
    HandsOff(mid, t.place, back, Lost, Pending, id, d);
    hide Apart;
    PlacedEdges(s, t, id, d);
  }

  lemma ParkedPart(place: map<Key, Place>, id: nat, c: Call)
    requires CallPlaces(place, id, c)
    ensures PartOf(place, ParkedBy(id), multiset(Unparked(c)))
  {
  }

  lemma ParkedNone(place: map<Key, Place>, place': map<Key, Place>, id: nat, c: Call, d: Call)
    requires CallPlaces(place, id, c) && Shifted(place, place', multiset(Unparked(c)), ParkedBy(id), Lost)
    requires d.taken == c.taken && Unparked(d) == {}
    ensures CallPlaces(place', id, d)
  {
    hide Unparked, One;
    forall k ensures One(place', k, ParkedBy(id)) != 1 {
      OneAtMost(place, k, ParkedBy(id));
    }
  }

  lemma OneAtMost(place: map<Key, Place>, k: Key, p: Place)
    ensures One(place, k, p) <= 1
  {
  }

  lemma KeysOfSet(ks: set<Key>)
    ensures Keys(multiset(ks)) == ks
  {
  }

  lemma ParkEdges(s: State, t: State, id: nat, kept: set<Key>)
    requires Edges(s) && Enabled(s, Park(id, kept)) && t == Apply(s, Park(id, kept))
    ensures Edges(t)
  {
    var c, d := s.calls[id], t.calls[id];
    var mid := Move(s.place, c.parked, Lost);
    HandsPart(s, id);
    hide One, BookedOk, PlacesOk, PartOf, Shifted;
    HandsMore(s.place, s.calls, t.calls);
    ParkedPart(s.place, id, c);
    KeysOfSet(c.parked);
    KeysOfSet(kept);
    hide HandsOk, InHands;
    LostThenPending(s.place, mid, t.place, multiset(c.parked), multiset(kept), ParkedBy(id), s.counted, s.pending,
        t.calls, id);
    hide Keys, Move, CallPlaces;
    ParkedNone(s.place, mid, id, c, d);
    HandsOff(mid, t.place, multiset(kept), Lost, Pending, id, d);
    hide Apart;
    PlacedEdges(s, t, id, d);
  }

  lemma ExpireEdges(s: State, t: State, part: multiset<Key>)
    requires Edges(s) && Enabled(s, Expire(part)) && t == Apply(s, Expire(part))
    ensures Edges(t)
  {
    hide One, BookedOk, CallPlaces;
    HandsMore(s.place, s.calls, t.calls);
    PendingPart(s.place, s.counted, s.pending, part);
    MoveShifts(s.place, part, Pending, Lost);
    hide Keys, Move, PlacesOk;
    PendingLess(s.place, t.place, s.counted, s.pending, part, Lost);
    ShiftedHands(s.place, t.place, part, Pending, Lost, t.calls);
    forall o | o in t.calls ensures CallPlaces(t.place, o, t.calls[o]) {
      HandsPart(s, o);
      HandsOff(s.place, t.place, part, Pending, Lost, o, s.calls[o]);
    }
  }

  lemma CrashEdges(s: State, t: State)
    requires Edges(s) && t == Apply(s, Crash)
    ensures Edges(t)
  {
    hide BookedOk;
    assert t.place.Keys == s.place.Keys;
  }

  /* The commit. */

  // A call without a stale edge books its new keys, those of them whose span names a parent.
  lemma CommitBooked(durable: set<Key>, published: set<Claim>, booked: set<Claim>, orphans: set<Key>,
                     named: set<Key>, id: nat, c: Call, calls: map<nat, Call>, next: nat)
    requires PublishedOk(durable, published, calls, next) && BookedOk(durable, published, booked, orphans, named)
    requires c.resolved + c.parked == c.absent * c.parents && c.absent <= c.looked && (c.resolved + c.parked) !! durable
    requires (forall k :: k in c.looked && k !in c.absent ==> k in durable) && id in calls && !calls[id].committed
    ensures BookedOk(durable + c.looked, published + Claims(id, c.looked - durable),
              booked + Claims(id, c.resolved + c.parked),
                     orphans + (c.looked - durable - c.parents), named + c.resolved + c.parked)
  {
    var fresh', edges := c.looked - durable, c.resolved + c.parked;
    ClaimsAre(id, fresh');
    ClaimsAre(id, edges);
    var p, b, o := published + Claims(id, fresh'), booked + Claims(id, edges), orphans + (fresh' - c.parents);
    hide Claims;
    forall x | x in p ensures x in b <==> x.key !in o {
      if x in published {
        assert x.key in durable;
      } else {
        assert x.key !in durable && x !in booked && x.key !in orphans;
      }
    }
    var n := named + c.resolved + c.parked;
    forall k ensures k in n <==> exists x :: x in b && x.key == k {
      if k in named {
        var x :| x in booked && x.key == k;
        assert x in b;
      } else if k in edges {
        assert Claim(id, k) in b;
      }
    }
  }

  lemma PlacedOne(mid: map<Key, Place>, id: nat, c: Call, k: Key, p: Place)
    requires c.resolved !! c.parked && (c.resolved + c.parked) !! mid.Keys
    ensures One(Placed(mid, id, c), k, p)
         == One(mid, k, p) + (if k in c.resolved && p == Counted then 1 else 0) + (if k in c.parked &&
             p == ParkedBy(id) then 1 else 0)
    ensures Placed(mid, id, c).Keys == mid.Keys + c.resolved + c.parked
  {
    assert k in c.resolved + c.parked ==> k !in mid.Keys;
  }

  // The edges a commit moves: taken ones and resolved ones are counted, the rest is to be parked.
  ghost predicate Booked(place: map<Key, Place>, place': map<Key, Place>, id: nat, c: Call) {
    && place'.Keys == place.Keys + c.resolved + c.parked
    && forall k, p :: One(place', k, p) == One(place, k, p) - (if p == TakenBy(id) then c.taken[k] else 0)
                + (if p == Counted then c.taken[k] + (if k in c.resolved then 1 else 0) else 0)
                + (if k in c.parked && p == ParkedBy(id) then 1 else 0)
  }

  lemma CommitBooks(place: map<Key, Place>, id: nat, c: Call)
    requires CallPlaces(place, id, c) && c.resolved !! c.parked && (c.resolved + c.parked) !! place.Keys
    ensures Booked(place, Placed(Move(place, Keys(c.taken), Counted), id, c), id, c)
  {
    var mid := Move(place, Keys(c.taken), Counted);
    TakenPart(place, id, c);
    MoveShifts(place, c.taken, TakenBy(id), Counted);
    hide Move, Keys, CallPlaces, PartOf;
    forall k, p
      ensures One(Placed(mid, id, c), k, p) == One(place, k, p) - (if p == TakenBy(id) then c.taken[k] else 0)
                + (if p == Counted then c.taken[k] + (if k in c.resolved then 1 else 0) else 0)
                + (if k in c.parked && p == ParkedBy(id) then 1 else 0)
    {
      PlacedOne(mid, id, c, k, p);
      hide Placed, One;
    }
    PlacedOne(mid, id, c, "", Lost);
  }

  lemma BookedPlaces(place: map<Key, Place>, place': map<Key, Place>, counted: multiset<Key>, pending: multiset<Key>,
                     id: nat, c: Call)
    requires PlacesOk(place, counted, pending) && Booked(place, place', id, c)
    ensures PlacesOk(place', counted + multiset(c.resolved) + c.taken, pending)
    ensures Apart(place, place', id)
  {
    hide One;
  }

  lemma BookedHands(place: map<Key, Place>, place': map<Key, Place>, id: nat, c: Call, d: Call, calls: map<nat, Call>)
    requires Booked(place, place', id, c) && CallPlaces(place, id, c) && InHands(place, calls) && id in calls
    requires Unparked(c) == {} && d.taken == multiset{} && Unparked(d) == c.parked
    ensures CallPlaces(place', id, d) && InHands(place', calls)
  {
    forall k | k in place' && (place'[k].TakenBy? || place'[k].ParkedBy?) ensures place'[k].call in calls {
      assert One(place', k, place'[k]) == 1;
      if place'[k] != ParkedBy(id) {
        assert One(place, k, place'[k]) >= 1;
      }
    }
    hide One, Unparked, InHands;
    forall k ensures k in Unparked(d) <==> One(place', k, ParkedBy(id)) == 1 {
      OneAtMost(place, k, ParkedBy(id));
    }
  }

  lemma CommitPlaces(place: map<Key, Place>, place': map<Key, Place>, counted: multiset<Key>, pending: multiset<Key>,
                     id: nat, c: Call, d: Call, calls: map<nat, Call>)
    requires PlacesOk(place, counted, pending) && CallPlaces(place, id, c) && InHands(place, calls) && id in calls
    requires c.resolved !! c.parked && (c.resolved + c.parked) !! place.Keys
    requires Unparked(c) == {} && d.taken == multiset{} && Unparked(d) == c.parked
    requires place' == Placed(Move(place, Keys(c.taken), Counted), id, c)
    ensures place'.Keys == place.Keys + c.resolved + c.parked
    ensures PlacesOk(place', counted + multiset(c.resolved) + c.taken, pending) && InHands(place', calls)
    ensures CallPlaces(place', id, d) && Apart(place, place', id)
  {
    hide *;
    CommitBooks(place, id, c);
    BookedKeys(place, place', id, c);
    BookedPlaces(place, place', counted, pending, id, c);
    BookedHands(place, place', id, c, d, calls);
  }

  lemma BookedKeys(place: map<Key, Place>, place': map<Key, Place>, id: nat, c: Call)
    requires Booked(place, place', id, c)
    ensures place'.Keys == place.Keys + c.resolved + c.parked
  {
    hide One;
  }

  // Keys with a place were booked before, so they are stored.
  lemma NewPlaces(s: State, id: nat)
    requires Inv(s) && BookedOk(s.durable, s.published, s.booked, s.orphans, s.place.Keys) && FreshEdges(s, id)
    ensures (s.calls[id].resolved + s.calls[id].parked) !! s.place.Keys
  {
    forall k | k in s.place.Keys ensures k in s.durable {
      var p :| p in s.booked && p.key == k;
      assert p in s.published;
    }
  }

  // What a call about to commit has in its batch.
  lemma BatchIs(s: State, id: nat)
    requires Inv(s) && Enabled(s, CommitOk(id))
    ensures var c := s.calls[id];
            && c.resolved + c.parked == c.absent * c.parents && c.absent <= c.looked && c.resolved !! c.parked
            && (forall k :: k in c.looked && k !in c.absent ==> k in s.durable) && !c.committed && Unparked(c) == {}
            && Unparked(c.(phase := Committed, committed := true, taken := multiset{})) == c.parked
    ensures PublishedOk(s.durable, s.published, s.calls, s.next)
  {
    CallParts(s, id);
    hide OwnOk, PublishedOk, CallsOk, DeferredOk;
  }

  lemma CommitEdges(s: State, t: State, id: nat)
    requires Inv(s) && Edges(s) && Enabled(s, CommitOk(id)) && t == Apply(s, CommitOk(id)) && FreshEdges(s, id)
    ensures Edges(t)
  {
    var c, d := s.calls[id], t.calls[id];
    HandsPart(s, id);
    NewPlaces(s, id);
    BatchIs(s, id);
    hide Inv, CallPlaces, Move, Keys, Claims, Placed, Apart, PlacesOk, Unparked, BookedOk, PublishedOk;
    HandsMore(s.place, s.calls, t.calls);
    hide HandsOk;
    CommitPlaces(s.place, t.place, s.counted, s.pending, id, c, d, t.calls);
    hide InHands;
    CommitBooked(s.durable, s.published, s.booked, s.orphans, s.place.Keys, id, c, s.calls, s.next);
    OthersApart(s.place, t.place, s.calls, t.calls, id);
  }

  /* Every run. */

  lemma StepEdges(s: State, t: State, step: Step)
    requires Inv(s) && Edges(s) && Enabled(s, step) && t == Apply(s, step)
    requires step.CommitOk? ==> FreshEdges(s, step.id)
    ensures Edges(t)
  {
    hide Edges, FreshEdges, Inv, Enabled, Apply;
    match step
    case Take(id, part) => TakeEdges(s, t, id, part);
    case CommitOk(id) => CommitEdges(s, t, id);
    case Abort(id) => AbortEdges(s, t, id);
    case PutBack(id, back) => PutBackEdges(s, t, id, back);
    case Park(id, kept) => ParkEdges(s, t, id, kept);
    case Expire(part) => ExpireEdges(s, t, part);
    case Crash => CrashEdges(s, t);
    case Start(_) => StartEdges(s, t, step);
    case Release(id) => ReleaseEdges(s, t, id);
    case _ => OtherEdges(s, t, step, step.id);
  }

  lemma StartEdges(s: State, t: State, step: Step)
    requires Inv(s) && Edges(s) && step.Start? && t == Apply(s, step)
    ensures Edges(t)
  {
    NextIsNew(s);
    hide Edges, Inv;
    QuietEdges(s, t, s.next);
  }

  lemma ReleaseEdges(s: State, t: State, id: nat)
    requires Inv(s) && Edges(s) && Enabled(s, Release(id)) && t == Apply(s, Release(id))
    ensures Edges(t)
  {
    CallParts(s, id);
    hide Edges, Inv, OwnOk, PublishedOk, CallsOk, DeferredOk, SetsOk;
    QuietEdges(s, t, id);
  }

  // What a call has in hand does not change before it commits, nor after it has parked.
  lemma OtherEdges(s: State, t: State, step: Step, id: nat)
    requires Edges(s) && Enabled(s, step) && t == Apply(s, step)
    requires (step.Reserve? || step.Look? || step.CommitFailed? || step.Check? || step.Cancel?) && step.id == id
    ensures Edges(t)
  {
    assert id in t.calls && t == s.(inflight := t.inflight, calls := s.calls[id := t.calls[id]]);
    assert t.calls[id].taken == s.calls[id].taken && Unparked(t.calls[id]) == Unparked(s.calls[id]);
    hide Edges, Enabled, Apply, Unparked;
    QuietEdges(s, t, id);
  }

  lemma {:induction false} RunEdges(run: seq<State>, steps: seq<Step>, i: nat)
    requires IsRun(run, steps) && i < |run| && FreshCommits(run, steps, i)
    ensures Edges(run[i])
  {
    hide Enabled, Apply, FreshEdges;
    if i > 0 {
      RunEdges(run, steps, i - 1);
      RunKeeps(run, steps, i - 1);
      hide Edges, Inv;
      StepEdges(run[i - 1], run[i], steps[i - 1]);
    }
  }

  // Resends and races included, an entry key has one first commit; that commit booked the key's edge if its
  // span names a parent, and no other commit ever did; and the edge is in the service map, or waiting, or in
  // one call's hands, taken or still to be parked, or given up: in exactly one of these.
  lemma EdgesOnce(run: seq<State>, steps: seq<Step>, i: nat)
    requires IsRun(run, steps) && i < |run| && GoodLooks(run, steps, i)
    ensures var s := run[i];
            && (forall k :: k in s.durable <==> exists p :: p in s.published && p.key == k)
            && (forall p, q :: p in s.published && q in s.published && p.key == q.key ==> p == q)
            && (forall p :: p in s.published ==> (p in s.booked <==> p.key !in s.orphans))
            && (forall p, q :: p in s.booked && q in s.booked && p.key == q.key ==> p == q)
            && (forall k :: s.counted[k] + s.pending[k] <= 1)
            && (forall k :: s.counted[k] + s.pending[k] == 1 ==> exists p :: p in s.booked && p.key == k)
            && (forall k, id :: id in s.calls && k in s.calls[id].taken ==>
                  s.counted[k] + s.pending[k] == 0 && s.calls[id].taken[k] == 1)
            && (forall k, id :: id in s.calls && k in Unparked(s.calls[id]) ==> s.counted[k] + s.pending[k] == 0)
            && (forall k, id, o ::
                  id in s.calls && o in s.calls && InHand(s.calls[id], k) && InHand(s.calls[o], k) ==> id == o)
            && (forall p :: p in s.booked ==> Somewhere(s, p.key))
  {
    GoodLooksIff(run, steps, i);
    RunEdges(run, steps, i);
    RunKeeps(run, steps, i);
    hide IsRun, GoodLooks, FreshCommits, Edges, Inv, Somewhere;
    BookedOnce(run[i]);
    PlacedOnce(run[i]);
    PlacedSomewhere(run[i]);
  }

  // The edge was given up, or is counted, pending or in some call's hands.
  ghost predicate Somewhere(s: State, k: Key) {
    && k in s.place
    && (s.place[k] == Lost || s.counted[k] == 1 || s.pending[k] == 1 ||
           exists id :: id in s.calls && InHand(s.calls[id], k))
  }

  lemma PlacedSomewhere(s: State)
    requires Edges(s)
    ensures forall p :: p in s.booked ==> Somewhere(s, p.key)
  {
    forall p | p in s.booked ensures Somewhere(s, p.key) {
      var k := p.key;
      assert k in s.place.Keys;
      hide BookedOk;
      assert One(s.place, k, s.place[k]) == 1;
      if s.place[k].TakenBy? || s.place[k].ParkedBy? {
        var id := s.place[k].call;
        HandsPart(s, id);
        assert InHand(s.calls[id], k);
      }
    }
  }

  // What the history says of orphans, said of the batch: the first commit of a key books its edge exactly when
  // the span it was looked up for names a parent.
  lemma FirstCommitBooks(run: seq<State>, steps: seq<Step>, i: nat, id: nat, k: Key)
    requires IsRun(run, steps) && i < |steps| && steps[i] == CommitOk(id) && GoodLooks(run, steps, i + 1)
    requires id in run[i].calls && k in run[i].calls[id].looked && k !in run[i].durable
    ensures Claim(id, k) in run[i + 1].published
    ensures exists n :: 0 <= n < |run[i].calls[id].items| && run[i].calls[id].items[n].key == k
                     && (Claim(id, k) in run[i + 1].booked <==> run[i].calls[id].items[n].hasParent)
  {
    var s, t := run[i], run[i + 1];
    var c := s.calls[id];
    RunKeeps(run, steps, i);
    CallParts(s, id);
    GoodLooksIff(run, steps, i + 1);
    RunEdges(run, steps, i + 1);
    RunEdges(run, steps, i);
    assert LookedAt(c, k);
    var n :| 0 <= n < |c.items| && c.items[n] == Item(k, k in c.parents);
    ClaimsAre(id, c.resolved + c.parked);
    ClaimsAre(id, c.looked - s.durable);
    assert k in c.absent;
    assert Claim(id, k) !in s.booked by { assert Claim(id, k) !in s.published; }
    hide Claims, Move, Placed, Edges, CallsOk, OwnOk;
  }

  lemma BookedOnce(s: State)
    requires Inv(s) && Edges(s)
    ensures forall k :: k in s.durable <==> exists p :: p in s.published && p.key == k
    ensures forall p, q :: p in s.published && q in s.published && p.key == q.key ==> p == q
    ensures forall p :: p in s.published ==> (p in s.booked <==> p.key !in s.orphans)
    ensures forall p, q :: p in s.booked && q in s.booked && p.key == q.key ==> p == q
    ensures forall k :: k in s.place ==> exists p :: p in s.booked && p.key == k
  {
    hide OwnOk, CallsOk, PlacesOk, HandsOk;
  }

  lemma PlacedOnce(s: State)
    requires Edges(s)
    ensures forall k :: s.counted[k] + s.pending[k] <= 1 && (s.counted[k] + s.pending[k] == 1 ==> k in s.place)
    ensures forall k, id :: id in s.calls && k in s.calls[id].taken ==>
              s.counted[k] + s.pending[k] == 0 && s.calls[id].taken[k] == 1
    ensures forall k, id :: id in s.calls && k in Unparked(s.calls[id]) ==> s.counted[k] + s.pending[k] == 0
    ensures forall k, id, o :: id in s.calls && o in s.calls && InHand(s.calls[id], k) && InHand(s.calls[o], k) ==>
              id == o
  {
    forall k ensures s.counted[k] + s.pending[k] <= 1 && (s.counted[k] + s.pending[k] == 1 ==> k in s.place) {
      hide BookedOk, HandsOk;
    }
    hide Edges, Unparked;
    forall k, id | id in s.calls && k in s.calls[id].taken
      ensures s.counted[k] + s.pending[k] == 0 && s.calls[id].taken[k] == 1
    {
      HandIs(s, id, k);
    }
    forall k, id | id in s.calls && k in Unparked(s.calls[id]) ensures s.counted[k] + s.pending[k] == 0 {
      HandIs(s, id, k);
    }
    forall k, id, o | id in s.calls && o in s.calls && InHand(s.calls[id], k) && InHand(s.calls[o], k) ensures id == o {
      HandIs(s, id, k);
      HandIs(s, o, k);
    }
  }

  // An edge in a call's hands is nowhere else.
  lemma HandIs(s: State, id: nat, k: Key)
    requires Edges(s) && id in s.calls && InHand(s.calls[id], k)
    ensures k in s.place && (s.place[k] == TakenBy(id) || s.place[k] == ParkedBy(id))
    ensures s.counted[k] + s.pending[k] == 0 && (k in s.calls[id].taken ==> s.calls[id].taken[k] == 1)
  {
    HandsPart(s, id);
    hide BookedOk, HandsOk, Unparked;
    assert s.counted[k] == One(s.place, k, Counted) && s.pending[k] == One(s.place, k, Pending);
    hide PlacesOk;
  }

  // The edge of k is in the call's hands: taken, or still to be parked.
  ghost predicate InHand(c: Call, k: Key) {
    k in c.taken || k in Unparked(c)
  }

  // A commit carries no edge for a stored key, in the first n steps, exactly when each is booked by the commit
  // that first stored its key.
  lemma {:induction false} FreshIff(run: seq<State>, steps: seq<Step>, n: nat)
    requires IsRun(run, steps) && n <= |steps|
    ensures (forall i :: 0 <= i <= n ==> run[i].booked <= run[i].published) <==> FreshCommits(run, steps, n)
  {
    hide Enabled, Apply, FreshEdges;
    if n > 0 {
      FreshIff(run, steps, n - 1);
      if steps[n - 1].CommitOk? && !FreshEdges(run[n - 1], steps[n - 1].id) {
        RunKeeps(run, steps, n - 1);
        StaleBooked(run[n - 1], run[n], steps[n - 1].id);
      }
    }
    if FreshCommits(run, steps, n) {
      forall i | 0 <= i <= n ensures run[i].booked <= run[i].published {
        RunEdges(run, steps, i);
        BookedPart(run[i]);
      }
    }
  }

  lemma BookedPart(s: State)
    requires Edges(s)
    ensures s.booked <= s.published
  {
  }

  lemma StaleBooked(s: State, t: State, id: nat)
    requires Inv(s) && Enabled(s, CommitOk(id)) && t == Apply(s, CommitOk(id)) && !FreshEdges(s, id)
    ensures !(t.booked <= t.published)
  {
    var c := s.calls[id];
    var k :| k in c.resolved + c.parked && k in s.durable;
    ClaimsAre(id, c.resolved + c.parked);
    ClaimsAre(id, c.looked - s.durable);
    CallParts(s, id);
    hide Claims, Move, Placed, CallsOk, OwnOk;
    assert Claim(id, k) in t.booked && Claim(id, k) !in t.published;
  }

  /* Lookups. */

  // A lookup that fails on a stored key, for a span with an edge to book.
  ghost predicate BadLook(s: State, step: Step) {
    && step.Look? && step.errs && step.id in s.calls && s.calls[step.id].pos < |s.calls[step.id].items|
    && Current(s.calls[step.id]).hasParent && Current(s.calls[step.id]).key in s.durable
  }

  // No call that commits in the first n steps has had one.
  ghost predicate GoodLooks(run: seq<State>, steps: seq<Step>, n: nat)
    requires n <= |steps| < |run|
  {
    forall i, j :: 0 <= i < j < n && BadLook(run[i], steps[i]) ==> steps[j] != CommitOk(steps[i].id)
  }

  // No other call is looking at a key this call commits.
  lemma CommitApart(inflight: map<Key, nat>, calls: map<nat, Call>, id: nat, o: nat, k: Key)
    requires OwnOk(inflight, calls) && id in calls && o in calls && id != o && !Released(calls[id])
    requires !Released(calls[o])
    requires k in calls[id].own
    ensures k !in calls[o].own
  {
    assert inflight[k] == id;
  }

  // An unfinished call has an edge in its batch for k, which is stored.
  ghost predicate Stale(s: State, id: nat, k: Key) {
    && id in s.calls && !Released(s.calls[id]) && !s.calls[id].committed
    && k in s.calls[id].absent && k in s.calls[id].parents && k in s.durable
  }

  // It comes from a lookup that failed: while the key is claimed nobody else can store it.
  lemma StaleStep(s: State, t: State, step: Step, id: nat, k: Key)
    requires Inv(s) && Enabled(s, step) && t == Apply(s, step) && Stale(t, id, k)
    ensures Stale(s, id, k) || (BadLook(s, step) && step.id == id)
  {
    hide Inv, Enabled, Apply, Stale, BadLook;
    match step
    case CommitOk(o) => StaleCommit(s, t, o, id, k);
    case Look(o, found, errs) => StaleLook(s, t, o, found, errs, id, k);
    case Crash => StaleAlone(s, t, step, id, k);
    case Expire(_) => StaleAlone(s, t, step, id, k);
    case Start(_) => StaleAlone(s, t, step, id, k);
    case _ => StaleOther(s, t, step, step.id, id, k);
  }

  lemma StaleAlone(s: State, t: State, step: Step, id: nat, k: Key)
    requires Enabled(s, step) && t == Apply(s, step) && (step.Crash? || step.Expire? || step.Start?) && Stale(t, id, k)
    ensures Stale(s, id, k)
  {
    hide Move, Keys;
  }

  lemma StaleCommit(s: State, t: State, o: nat, id: nat, k: Key)
    requires Inv(s) && Enabled(s, CommitOk(o)) && t == Apply(s, CommitOk(o)) && Stale(t, id, k)
    ensures Stale(s, id, k)
  {
    hide PublishedOk, Move, Claims, Placed, Keys;
    assert id != o;
    CallParts(s, o);
    CallParts(s, id);
    if k in s.calls[o].looked {
      CommitApart(s.inflight, s.calls, o, id, k);
    }
  }

  lemma StaleLook(s: State, t: State, o: nat, found: bool, errs: bool, id: nat, k: Key)
    requires Inv(s) && Enabled(s, Look(o, found, errs)) && t == Apply(s, Look(o, found, errs)) && Stale(t, id, k)
    ensures Stale(s, id, k) || (BadLook(s, Look(o, found, errs)) && o == id)
  {
    CallParts(s, o);
    NotYet(s, o);
    hide Inv, DeferredOk, DurableOk;
  }

  lemma StaleOther(s: State, t: State, step: Step, o: nat, id: nat, k: Key)
    requires Enabled(s, step) && t == Apply(s, step) && Stale(t, id, k)
    requires !step.CommitOk? && !step.Look? && !step.Crash? && !step.Expire? && !step.Start? && step.id == o
    ensures Stale(s, id, k)
  {
    hide Stale, Move, Keys;
    assert t.durable == s.durable && o in t.calls && t.calls == s.calls[o := t.calls[o]];
    assert t.calls[o].absent == s.calls[o].absent && t.calls[o].parents == s.calls[o].parents;
    assert t.calls[o].committed == s.calls[o].committed && (Released(s.calls[o]) ==> Released(t.calls[o]));
    hide Enabled, Apply;
    StaleSame(s, t, o, id, k);
  }

  lemma StaleSame(s: State, t: State, o: nat, id: nat, k: Key)
    requires Stale(t, id, k) && t.durable == s.durable && o in s.calls && o in t.calls
    requires t.calls == s.calls[o := t.calls[o]]
    requires t.calls[o].absent == s.calls[o].absent && t.calls[o].parents == s.calls[o].parents
    requires t.calls[o].committed == s.calls[o].committed && (Released(s.calls[o]) ==> Released(t.calls[o]))
    ensures Stale(s, id, k)
  {
  }

  lemma NoneStale(id: nat, k: Key)
    ensures !Stale(EMPTY, id, k)
  {
  }

  lemma {:induction false} StaleFrom(run: seq<State>, steps: seq<Step>, i: nat, id: nat, k: Key) returns (j: nat)
    requires IsRun(run, steps) && i < |run| && Stale(run[i], id, k)
    ensures j < i && BadLook(run[j], steps[j]) && steps[j].id == id
  {
    hide Enabled, Apply, Inv, Stale, BadLook;
    NoneStale(id, k);
    RunKeeps(run, steps, i - 1);
    StaleStep(run[i - 1], run[i], steps[i - 1], id, k);
    if Stale(run[i - 1], id, k) {
      j := StaleFrom(run, steps, i - 1, id, k);
    } else {
      j := i - 1;
    }
  }

  // Whatever the call does next, it has that edge for a stored key until it is gone.
  ghost predicate Carries(s: State, id: nat, k: Key) {
    && id < s.next && k in s.durable
    && (id in s.calls ==> k in s.calls[id].resolved + s.calls[id].parked)
  }

  lemma CarriesStep(s: State, t: State, step: Step, id: nat, k: Key)
    requires Enabled(s, step) && t == Apply(s, step) && Carries(s, id, k)
    ensures Carries(t, id, k)
  {
    hide Move, Keys, Placed, Claims;
  }

  lemma BadLookCarries(s: State, t: State, step: Step)
    requires Inv(s) && BadLook(s, step) && Enabled(s, step) && t == Apply(s, step)
    ensures Carries(t, step.id, Current(s.calls[step.id]).key)
  {
    CallParts(s, step.id);
    hide Inv, DeferredOk, DurableOk;
  }

  lemma {:induction false} CarriesOn(run: seq<State>, steps: seq<Step>, i: nat, j: nat)
    requires IsRun(run, steps) && i < j < |run| && BadLook(run[i], steps[i])
    ensures Carries(run[j], steps[i].id, Current(run[i].calls[steps[i].id]).key)
  {
    hide Enabled, Apply, Carries;
    if j == i + 1 {
      RunKeeps(run, steps, i);
      hide Inv, BadLook;
      BadLookCarries(run[i], run[j], steps[i]);
    } else {
      CarriesOn(run, steps, i, j - 1);
      CarriesStep(run[j - 1], run[j], steps[j - 1], steps[i].id, Current(run[i].calls[steps[i].id]).key);
    }
  }

  // A commit carries an edge for a stored key exactly when its call has had a lookup fail on a stored key whose
  // span names a parent.
  lemma GoodLooksIff(run: seq<State>, steps: seq<Step>, n: nat)
    requires IsRun(run, steps) && n <= |steps|
    ensures FreshCommits(run, steps, n) <==> GoodLooks(run, steps, n)
  {
    hide Apply;
    if !FreshCommits(run, steps, n) {
      var i :| 0 <= i < n && steps[i].CommitOk? && !FreshEdges(run[i], steps[i].id);
      var k := StaleAt(run, steps, i);
      var j := StaleFrom(run, steps, i, steps[i].id, k);
      hide BadLook, Enabled;
      assert steps[i] == CommitOk(steps[j].id);
    }
    if !GoodLooks(run, steps, n) {
      var i, j :| 0 <= i < j < n && BadLook(run[i], steps[i]) && steps[j] == CommitOk(steps[i].id);
      CarriesOn(run, steps, i, j);
      assert !FreshEdges(run[j], steps[j].id);
    }
  }

  lemma StaleAt(run: seq<State>, steps: seq<Step>, i: nat) returns (k: Key)
    requires IsRun(run, steps) && i < |steps| && steps[i].CommitOk? && !FreshEdges(run[i], steps[i].id)
    ensures Stale(run[i], steps[i].id, k)
  {
    var s, id := run[i], steps[i].id;
    RunKeeps(run, steps, i);
    CallParts(s, id);
    hide PublishedOk, OwnOk, CallsOk, DeferredOk;
    assert Enabled(s, steps[i]);
    hide Apply, IsRun;
    var c := s.calls[id];
    k :| k in c.resolved + c.parked && k in s.durable;
    assert k in c.absent * c.parents;
  }

  // Over every run, each edge is booked by the commit that first stored its key if and only if no call that
  // commits has had a lookup fail on a stored key whose span names a parent.
  lemma BookedFirstIff(run: seq<State>, steps: seq<Step>, n: nat)
    requires IsRun(run, steps) && n <= |steps|
    ensures (forall i :: 0 <= i <= n ==> run[i].booked <= run[i].published) <==> GoodLooks(run, steps, n)
  {
    hide IsRun, GoodLooks, FreshCommits;
    FreshIff(run, steps, n);
    GoodLooksIff(run, steps, n);
  }

  /* Where it fails. */

  const SENT := Item("k", true)

  ghost function Sent(id: nat, errs: bool): seq<Step> {
    [Start([SENT]), Reserve(id), Look(id, true, errs), CommitOk(id)]
  }

  // A span is stored with its edge, and sent again; this time the lookup fails. The edge is counted twice.
  lemma EdgeTwice() returns (run: seq<State>, steps: seq<Step>)
    ensures steps == Sent(0, false) + [Release(0)] + Sent(1, true) && IsRun(run, steps)
    ensures run[9].counted["k"] == 2 && {Claim(0, "k"), Claim(1, "k")} <= run[9].booked
  {
    var first := OneCall(EMPTY, false);
    var mid := ReleasedAlone(first[4]);
    var second := OneCall(mid, true);
    assert EMPTY.counted + multiset{"k"} + multiset{"k"} == multiset{"k", "k"};
    hide Enabled, Apply;
    var one, two, more := Sent(0, false), Sent(1, true), [Release(0)];
    FollowsOn(first, one, [first[4], mid], more);
    FollowsOn(first + [mid], one + more, second, two);
    run, steps := first + [mid] + second[1..], one + more + two;
  }

  lemma ReleasedAlone(s: State) returns (t: State)
    requires 0 in s.calls && s.calls[0].phase.Committed? && s.calls[0].own == {"k"} && s.inflight == map["k" := 0]
    requires s.next == 1 && s.calls.Keys == {0}
    ensures Enabled(s, Release(0)) && t == Apply(s, Release(0))
    ensures t == s.(inflight := map[], calls := t.calls) && 1 !in t.calls
  {
    t := Apply(s, Release(0));
    assert t.inflight == map[] && t.calls.Keys == {0};
  }

  // Two stretches, the second from where the first ends.
  lemma FollowsOn(run: seq<State>, steps: seq<Step>, run': seq<State>, steps': seq<Step>)
    requires Follows(run, steps) && Follows(run', steps') && run'[0] == run[|steps|]
    ensures Follows(run + run'[1..], steps + steps')
  {
    hide Enabled, Apply;
    var r, n := run + run'[1..], |steps|;
    forall i | 0 <= i < |steps + steps'|
      ensures Enabled(r[i], (steps + steps')[i]) && r[i + 1] == Apply(r[i], (steps + steps')[i])
    {
      if i >= n {
        assert r[i] == run'[i - n] && r[i + 1] == run'[i + 1 - n] && (steps + steps')[i] == steps'[i - n];
      }
    }
  }

  ghost predicate Follows(run: seq<State>, steps: seq<Step>) {
    |run| == |steps| + 1 && forall i :: 0 <= i < |steps| ==>
        Enabled(run[i], steps[i]) && run[i + 1] == Apply(run[i], steps[i])
  }

  // A call alone with one item that it claims and finds absent.
  lemma OneCall(s: State, errs: bool) returns (run: seq<State>)
    requires s.inflight == map[] && s.next !in s.calls && (errs || "k" !in s.durable)
    ensures Follows(run, Sent(s.next, errs)) && run[0] == s
    ensures run[4].counted == s.counted + multiset{"k"} && run[4].booked == s.booked + {Claim(s.next, "k")}
    ensures run[4].next == s.next + 1 && run[4].calls.Keys == s.calls.Keys + {s.next}
    ensures run[4].inflight == map["k" := s.next]
    ensures run[4].calls[s.next].phase.Committed? && run[4].calls[s.next].own == {"k"}
  {
    var id := s.next;
    var one, two := ClaimsAlone(s);
    var three, four := CommitsAlone(two, id, errs);
    run := [s, one, two, three, four];
    hide Enabled, Apply;
    forall i | 0 <= i < 4 ensures Enabled(run[i], Sent(id, errs)[i]) && run[i + 1] == Apply(run[i], Sent(id, errs)[i]) {
      assert i == 0 || i == 1 || i == 2 || i == 3;
    }
  }

  lemma ClaimsAlone(s: State) returns (t: State, u: State)
    requires s.inflight == map[] && s.next !in s.calls
    ensures Enabled(s, Start([SENT])) && t == Apply(s, Start([SENT])) && Enabled(t, Reserve(s.next))
    ensures u == Apply(t, Reserve(s.next))
    ensures u.calls == s.calls[s.next := Call([SENT], 0, {"k"}, {}, {}, {}, {}, {}, multiset{}, [], Looking, false)]
    ensures u == s.(next := s.next + 1, inflight := map["k" := s.next], calls := u.calls)
  {
    t := Apply(s, Start([SENT]));
    u := Apply(t, Reserve(s.next));
    assert u.calls[s.next].own == {"k"};
  }

  lemma CommitsAlone(s: State, id: nat, errs: bool) returns (t: State, u: State)
    requires id in s.calls && s.calls[id] == Call([SENT], 0, {"k"}, {}, {}, {}, {}, {}, multiset{}, [], Looking, false)
    requires errs || "k" !in s.durable
    ensures Enabled(s, Look(id, true, errs)) && t == Apply(s, Look(id, true, errs)) && Enabled(t, CommitOk(id))
    ensures u == Apply(t, CommitOk(id))
    ensures u.counted == s.counted + multiset{"k"} && u.booked == s.booked + {Claim(id, "k")}
    ensures u.next == s.next && u.calls.Keys == s.calls.Keys && u.inflight == s.inflight
    ensures u.calls[id].phase.Committed? && u.calls[id].own == {"k"}
  {
    t := Apply(s, Look(id, true, errs));
    var c := t.calls[id];
    assert c.resolved == {"k"} && c.parked == {};
    hide Move, Placed, Keys;
    u := Apply(t, CommitOk(id));
    ClaimsAre(id, c.resolved + c.parked);
    assert Claims(id, c.resolved + c.parked) == {Claim(id, "k")};
    assert s.counted + multiset{"k"} + multiset{} == s.counted + multiset{"k"};
  }
}
