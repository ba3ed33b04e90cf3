/**
 The sketch store (internal/sketchstore/sketchstore.go:257-338, 464-542): points
 and a series index in a sorted map with atomic batches, and the ids held in
 memory. Appends overlap one another; a sweep excludes them, and may fail or be
 cut short by a crash between its two commits.
 */
module SketchStore {
  import opened Options
  import opened Bytes

  const MAX_TIMESTAMP: int := 0xFFFF_FFFF

  datatype PointKey = PointKey(id: nat, ts: nat)

  // value is none for a sketch that cannot be encoded.
  datatype Point = Point(timeMs: int, value: Option<bytes>)

  // A series with its canonical key and the id hashed from it.
  datatype Entry = Entry(valid: bool, id: nat, key: string, points: seq<Point>)

  datatype Batch = Batch(index: map<nat, string>, points: map<PointKey, bytes>, committed: bool)

  predicate InRange(p: Point) {
    p.timeMs >= 0 && p.timeMs / 1000 <= MAX_TIMESTAMP
  }

  function ClampSeconds(ms: int): nat {
    if ms < 0 then 0 else if ms / 1000 < MAX_TIMESTAMP then ms / 1000 else MAX_TIMESTAMP
  }

  ghost predicate Encodable(e: Entry) {
    forall p :: p in e.points ==> p.value.Some? && InRange(p)
  }

  // Another series has the id, in memory or earlier in the batch.
  ghost predicate Clashes(e: Entry, ids: map<nat, string>, newIds: map<nat, string>) {
    (e.id in ids && ids[e.id] != e.key) || (e.id !in ids && e.id in newIds && newIds[e.id] != e.key)
  }

  ghost predicate Taken(e: Entry, b: Batch) {
    e.valid && Encodable(e) && forall p :: p in e.points ==> PointKey(e.id, p.timeMs / 1000) in b.points
  }

  // What a series stores at a second: the last of its points there.
  ghost function LastAt(points: seq<Point>, ts: nat): Option<bytes> {
    if points == [] then None
    else
      var n := |points| - 1;
      if points[n].timeMs / 1000 == ts then points[n].value else LastAt(points[..n], ts)
  }

  // Exactly the last point of each second, under the series' id.
  ghost predicate IsEncoded(m: map<PointKey, bytes>, id: nat, points: seq<Point>) {
    && (forall k :: k in m ==> k.id == id && k.ts <= MAX_TIMESTAMP)
    && (forall ts: nat :: PointKey(id, ts) in m <==> LastAt(points, ts).Some?)
    && (forall ts: nat :: PointKey(id, ts) in m ==> LastAt(points, ts) == Some(m[PointKey(id, ts)]))
  }

  // All of a series' points, or none of them.
  method EncodePoints(id: nat, points: seq<Point>) returns (r: Option<map<PointKey, bytes>>)
    ensures r.None? <==>
              exists p :: p in points && (p.value.None? || p.timeMs < 0 || p.timeMs / 1000 > 0xFFFF_FFFF)
    ensures r.Some? ==> IsEncoded(r.value, id, points)
    ensures r.Some? ==> forall i :: 0 <= i < |points| ==> PointKey(id, points[i].timeMs / 1000) in r.value
  {
    var out: map<PointKey, bytes>, i := map[], 0;
    while i < |points|
      invariant 0 <= i <= |points|
      invariant IsEncoded(out, id, points[..i])
      invariant forall j :: 0 <= j < i ==>
                  points[j].value.Some? && InRange(points[j]) && PointKey(id, points[j].timeMs / 1000) in out
    {
      var p := points[i];
      if p.value.None? || !InRange(p) {
        assert p in points;
        return None;
      }
      EncodeMore(out, id, points[..i], p);
      assert points[..i + 1] == points[..i] + [p];
      hide IsEncoded;
      out := out[PointKey(id, p.timeMs / 1000) := p.value.value];
      i := i + 1;
    }
    assert points[..i] == points;
    r := Some(out);
  }

  lemma EncodeMore(m: map<PointKey, bytes>, id: nat, points: seq<Point>, p: Point)
    requires IsEncoded(m, id, points) && p.value.Some? && InRange(p)
    ensures IsEncoded(m[PointKey(id, p.timeMs / 1000) := p.value.value], id, points + [p])
  {
    var all := points + [p];
    assert all[..|points|] == points;
    forall ts: nat ensures LastAt(all, ts) == if p.timeMs / 1000 == ts then p.value else LastAt(points, ts) {
    }
  }

  // What a batch stores under a key: the last point there of the last entry taken that has one.
  ghost function ValueOf(entries: seq<Entry>, rejected: set<nat>, n: nat, k: PointKey): Option<bytes>
    requires n <= |entries|
  {
    if n == 0 then None
    else if n - 1 !in rejected && entries[n - 1].id == k.id && LastAt(entries[n - 1].points, k.ts).Some?
        then LastAt(entries[n - 1].points, k.ts)
    else ValueOf(entries, rejected, n - 1, k)
  }

  ghost predicate IsBatch(m: map<PointKey, bytes>, entries: seq<Entry>, rejected: set<nat>, n: nat)
    requires n <= |entries|
  {
    forall k :: (k in m <==> ValueOf(entries, rejected, n, k).Some?) &&
        (k in m ==> ValueOf(entries, rejected, n, k) == Some(m[k]))
  }

  lemma {:induction false} ValueSame(entries: seq<Entry>, rejected: set<nat>, n: nat, k: PointKey, i: nat)
    requires n <= i <= |entries|
    ensures ValueOf(entries, rejected + {i}, n, k) == ValueOf(entries, rejected, n, k)
  {
    if n > 0 {
      ValueSame(entries, rejected, n - 1, k, i);
    }
  }

  lemma RejectedMore(m: map<PointKey, bytes>, entries: seq<Entry>, rejected: set<nat>, i: nat)
    requires i < |entries| && IsBatch(m, entries, rejected, i)
    ensures IsBatch(m, entries, rejected + {i}, i + 1)
  {
    forall k ensures ValueOf(entries, rejected + {i}, i + 1, k) == ValueOf(entries, rejected, i, k) {
      ValueSame(entries, rejected, i, k, i);
    }
    hide ValueOf;
  }

  lemma TakenMore(m: map<PointKey, bytes>, kvs: map<PointKey, bytes>, entries: seq<Entry>, rejected: set<nat>, i: nat)
    requires i < |entries| && i !in rejected && IsBatch(m, entries, rejected, i)
    requires IsEncoded(kvs, entries[i].id, entries[i].points)
    ensures IsBatch(m + kvs, entries, rejected, i + 1)
  {
    hide LastAt;
    forall k ensures (k in m + kvs <==> ValueOf(entries, rejected, i + 1, k).Some?) &&
        (k in m + kvs ==> ValueOf(entries, rejected, i + 1, k) == Some((m + kvs)[k])) {
      assert k in kvs ==> k == PointKey(entries[i].id, k.ts);
    }
  }

  // Every point of the batch is under a series that the batch or the index has.
  ghost predicate BatchOk(b: Batch, index: map<nat, string>) {
    && (forall k :: k in b.points ==> k.id in b.index || k.id in index)
    && (b.committed ==> b.index.Keys <= index.Keys)
  }

  ghost predicate PointsOk(points: map<PointKey, bytes>, index: map<nat, string>) {
    forall k :: k in points ==> k.id in index
  }

  ghost predicate KnownOk(index: map<nat, string>, ids: map<nat, string>, flights: map<nat, Batch>) {
    && ids.Keys <= index.Keys
    && forall id :: id in index && id !in ids ==> Brought(flights, id)
  }

  // An append that has committed is about to tell memory of id.
  ghost predicate Brought(flights: map<nat, Batch>, id: nat) {
    exists a :: a in flights && id in flights[a].index && flights[a].committed
  }

  ghost predicate FlightsOk(flights: map<nat, Batch>, next: nat, index: map<nat, string>) {
    forall a :: a in flights ==> a < next && BatchOk(flights[a], index)
  }

  // What one committed append is about to tell memory, another set of appends with it in it is too.
  lemma BroughtStill(flights: map<nat, Batch>, flights': map<nat, Batch>, id: nat)
    requires Brought(flights, id)
    requires forall a :: a in flights && flights[a].committed && id in flights[a].index ==>
               a in flights' && flights'[a] == flights[a]
    ensures Brought(flights', id)
  {
    var a :| a in flights && id in flights[a].index && flights[a].committed;
    assert a in flights' && id in flights'[a].index && flights'[a].committed;
  }

  lemma NewBatchOk(index: map<nat, string>, ids: map<nat, string>, b: Batch)
    requires ids.Keys <= index.Keys && !b.committed && forall k :: k in b.points ==> k.id in b.index || k.id in ids
    ensures BatchOk(b, index)
  {
    forall k | k in b.points && k.id in ids ensures k.id in index {
      assert k.id in ids.Keys;
    }
  }

  lemma PrepareOk(index: map<nat, string>, ids: map<nat, string>, flights: map<nat, Batch>, next: nat, b: Batch)
    requires KnownOk(index, ids, flights) && FlightsOk(flights, next, index) && !b.committed
    requires forall k :: k in b.points ==> k.id in b.index || k.id in ids
    ensures KnownOk(index, ids, flights[next := b]) && FlightsOk(flights[next := b], next + 1, index)
  {
    hide Brought, BatchOk;
    assert next !in flights;
    NewBatchOk(index, ids, b);
    forall id | id in index && id !in ids ensures Brought(flights[next := b], id) {
      BroughtStill(flights, flights[next := b], id);
    }
  }

  lemma FailOk(index: map<nat, string>, ids: map<nat, string>, flights: map<nat, Batch>, next: nat, a: nat)
    requires KnownOk(index, ids, flights) && FlightsOk(flights, next, index) && a in flights && !flights[a].committed
    ensures KnownOk(index, ids, flights - {a}) && FlightsOk(flights - {a}, next, index)
  {
    hide Brought, BatchOk;
    forall id | id in index && id !in ids ensures Brought(flights - {a}, id) {
      BroughtStill(flights, flights - {a}, id);
    }
  }

  lemma CommitOk(points: map<PointKey, bytes>, index: map<nat, string>, ids: map<nat, string>,
                 flights: map<nat, Batch>, next: nat, a: nat)
    requires PointsOk(points, index) && KnownOk(index, ids, flights) && FlightsOk(flights, next, index) && a in flights
    ensures var b, after := flights[a], index + flights[a].index;
            var flights' := flights[a := b.(committed := true)];
            PointsOk(points + b.points, after) && KnownOk(after, ids, flights') && FlightsOk(flights', next, after)
  {
    var b, after := flights[a], index + flights[a].index;
    var flights' := flights[a := b.(committed := true)];
    assert BatchOk(b, index) && after.Keys == index.Keys + b.index.Keys;
    forall id | id in after && id !in ids ensures Brought(flights', id) {
      if id in b.index {
        assert a in flights';
      } else {
        assert Brought(flights, id);
        var o :| o in flights && id in flights[o].index && flights[o].committed;
        assert o in flights';
      }
    }
  }

  lemma LearnKeys(index: map<nat, string>, ids: map<nat, string>, b: Batch)
    requires ids.Keys <= index.Keys && BatchOk(b, index) && b.committed
    ensures (ids + b.index).Keys <= index.Keys && forall id :: id !in ids + b.index ==> id !in ids && id !in b.index
  {
  }

  lemma LearnOk(index: map<nat, string>, ids: map<nat, string>, flights: map<nat, Batch>, next: nat, a: nat)
    requires KnownOk(index, ids, flights) && FlightsOk(flights, next, index) && a in flights && flights[a].committed
    ensures KnownOk(index, ids + flights[a].index, flights - {a}) && FlightsOk(flights - {a}, next, index)
  {
    hide Brought, BatchOk;
    assert BatchOk(flights[a], index);
    LearnKeys(index, ids, flights[a]);
    var ids' := ids + flights[a].index;
    forall id | id in index && id !in ids' ensures Brought(flights - {a}, id) {
      BroughtStill(flights, flights - {a}, id);
    }
  }

  lemma AllKnown(index: map<nat, string>, ids: map<nat, string>)
    requires KnownOk(index, ids, map[])
    ensures ids.Keys == index.Keys
  {
    assert forall id :: !Brought(map[], id);
    assert forall id :: id in index.Keys ==> id in ids.Keys;
  }

  // Every point is of a known series, so sweeping the known series sweeps every old point.
  lemma SweepOk(points: map<PointKey, bytes>, index: map<nat, string>, ids: map<nat, string>, before: nat)
    requires PointsOk(points, index) && ids.Keys == index.Keys
    ensures var left := map k | k in points && !(k.id in ids && k.ts < before) :: points[k];
            PointsOk(left, index) && left == map k | k in points && k.ts >= before :: points[k]
  {
    assert forall k :: k in points ==> k.id in index.Keys;
  }

  // Forgetting the series without points leaves the others as they were.
  lemma ForgetOk(points: map<PointKey, bytes>, index: map<nat, string>, ids: map<nat, string>, emptied: set<nat>)
    requires PointsOk(points, index) && KnownOk(index, ids, map[]) && ids.Keys == index.Keys
    requires emptied == set id | id in ids && forall k :: k in points ==> k.id != id
    ensures var index', ids' := map id | id in index && id !in emptied :: index[id], map id | id in ids &&
              id !in emptied :: ids[id];
            && PointsOk(points, index') && KnownOk(index', ids', map[]) && ids'.Keys == index'.Keys &&
               ids'.Keys <= ids.Keys
            && index' == (map id | id in index && HasPoint(points, id) :: index[id]) &&
               (emptied == {} ==> index' == index)
  {
    hide Brought;
    forall id | id in index ensures id in emptied <==> !HasPoint(points, id) {
      assert id in ids.Keys;
    }
    var index' := map id | id in index && id !in emptied :: index[id];
    var ids' := map id | id in ids && id !in emptied :: ids[id];
    assert index'.Keys == index.Keys - emptied && ids'.Keys == ids.Keys - emptied;
    forall k | k in points ensures k.id in index' {
      assert HasPoint(points, k.id);
    }
  }

  lemma NoneEmptied(points: map<PointKey, bytes>, index: map<nat, string>, ids: map<nat, string>, emptied: set<nat>)
    requires ids.Keys == index.Keys && emptied == set id | id in ids && forall k :: k in points ==> k.id != id
    ensures emptied == {} ==> index == map id | id in index && HasPoint(points, id) :: index[id]
  {
    forall id | id in index ensures id in emptied <==> !HasPoint(points, id) {
      assert id in ids.Keys;
    }
  }

  class Store {
    var points: map<PointKey, bytes>
    var index: map<nat, string>
    var ids: map<nat, string>
    var flights: map<nat, Batch>   // appends under way
    var next: nat

    constructor ()
      ensures Valid() && points == map[] && index == map[]
    {
      points, index, ids, flights, next := map[], map[], map[], map[], 0;
    }

    // Points imply an index entry; memory knows what the index has, but for appends still under way.
    ghost predicate Valid()
      reads this
    {
      PointsOk(points, index) && KnownOk(index, ids, flights) && FlightsOk(flights, next, index)
    }

    function Held(id: nat, newIds: map<nat, string>): Option<string>
      reads this
    {
      if id in ids then Some(ids[id]) else if id in newIds then Some(newIds[id]) else None
    }

    // The first half of Append: a batch in which the index entry goes with the points. An entry is in it whole
    // or is rejected, and nothing else is in it.
    method Prepare(entries: seq<Entry>) returns (a: nat, rejected: set<nat>)
      requires Valid()
      modifies this`flights, this`next
      ensures Valid() && a in flights && !flights[a].committed && flights == old(flights)[a := flights[a]]
      ensures a == old(next)
      ensures forall i :: 0 <= i < |entries| && i !in rejected ==>
                Taken(entries[i], flights[a]) && Held(entries[i].id, flights[a].index) == Some(entries[i].key)
      ensures forall i :: 0 <= i < |entries| && i in rejected ==>
                !entries[i].valid || !Encodable(entries[i]) || Clashes(entries[i], ids, flights[a].index)
      ensures IsBatch(flights[a].points, entries, rejected, |entries|)
      ensures forall id :: id in flights[a].index ==>
                exists i :: 0 <= i < |entries| && i !in rejected && entries[i].id == id
    {
      hide KnownOk, FlightsOk, PointsOk;
      var b := Batch(map[], map[], false);
      rejected := {};
      var i := 0;
      while i < |entries|
        invariant 0 <= i <= |entries| && !b.committed && (forall k :: k in b.points ==> k.id in b.index || k.id in ids)
        invariant forall j :: j in rejected ==> j < i
        invariant forall j :: 0 <= j < i && j !in rejected ==>
                    Taken(entries[j], b) && Held(entries[j].id, b.index) == Some(entries[j].key)
        invariant forall j :: 0 <= j < i && j in rejected ==>
                    !entries[j].valid || !Encodable(entries[j]) || Clashes(entries[j], ids, b.index)
        invariant IsBatch(b.points, entries, rejected, i)
        invariant forall id :: id in b.index ==> exists j :: 0 <= j < i && j !in rejected && entries[j].id == id
        invariant unchanged(this)
      {
        var e := entries[i];
        var more, kvs := TryEntry(b, e);
        if more.None? {
          RejectedMore(b.points, entries, rejected, i);
          hide IsBatch, IsEncoded;
          rejected := rejected + {i};
        } else {
          TakenMore(b.points, kvs, entries, rejected, i);
          hide IsBatch, IsEncoded;
          ghost var before := b;
          b := more.value;
          forall j | 0 <= j < i && j in rejected
            ensures !entries[j].valid || !Encodable(entries[j]) || Clashes(entries[j], ids, b.index)
          {
            assert Clashes(entries[j], ids, before.index) ==> Clashes(entries[j], ids, b.index);
          }
        }
        i := i + 1;
      }
      PrepareOk(index, ids, flights, next, b);
      a, next := next, next + 1;
      flights := flights[a := b];
    }

    // One entry added to the batch, index first, its points over any the batch had; none if it is rejected.
    method TryEntry(b: Batch, e: Entry) returns (r: Option<Batch>, ghost kvs: map<PointKey, bytes>)
      ensures r.None? ==> !e.valid || !Encodable(e) || Clashes(e, ids, b.index)
      ensures r.Some? ==>
                Taken(e, r.value) && Held(e.id, r.value.index) == Some(e.key) && r.value.committed == b.committed
      ensures r.Some? ==> forall id :: id in b.index ==> id in r.value.index && r.value.index[id] == b.index[id]
      ensures r.Some? ==> forall id :: id in r.value.index ==> id in b.index || id == e.id
      ensures r.Some? ==> r.value.points == b.points + kvs && IsEncoded(kvs, e.id, e.points)
    {
      hide IsEncoded;
      kvs := map[];
      var held := Held(e.id, b.index);
      if !e.valid || (held.Some? && held.value != e.key) {
        return None, kvs;
      }
      var found := EncodePoints(e.id, e.points);
      if found.None? {
        return None, kvs;
      }
      var index' := if held.Some? then b.index else b.index[e.id := e.key];
      return Some(Batch(index', b.points + found.value, b.committed)), found.value;
    }

    method Commit(a: nat, ok: bool)
      requires Valid() && a in flights && !flights[a].committed
      modifies this`points, this`index, this`flights
      ensures Valid()
      ensures ok ==> points == old(points) + old(flights)[a].points && index == old(index) + old(flights)[a].index
      ensures !ok ==> points == old(points) && index == old(index) && a !in flights
    {
      var b := flights[a];
      hide PointsOk, KnownOk, FlightsOk;
      if !ok {
        FailOk(index, ids, flights, next, a);
        flights := flights - {a};
        return;
      }
      CommitOk(points, index, ids, flights, next, a);
      index := index + b.index;
      points := points + b.points;
      flights := flights[a := b.(committed := true)];
    }

    // The last half of Append: memory learns the new ids.
    method Learn(a: nat)
      requires Valid() && a in flights && flights[a].committed
      modifies this`ids, this`flights
      ensures Valid() && a !in flights && ids == old(ids) + old(flights)[a].index
    {
      hide PointsOk, KnownOk, FlightsOk;
      LearnOk(index, ids, flights, next, a);
      ids := ids + flights[a].index;
      flights := flights - {a};
    }

    // A sweep, with no append under way. It gets as far as its first commit (swept), then its second (forgot).
    method Truncate(beforeMs: int, swept: bool, forgot: bool) returns (dropped: nat)
      requires Valid() && flights == map[]
      modifies this`points, this`index, this`ids
      ensures Valid()
      ensures var before := if beforeMs / 1000 < 0xFFFF_FFFF then beforeMs / 1000 else 0xFFFF_FFFF;
              points == if beforeMs <= 0 || !swept then old(points)
                        else map k | k in old(points) && k.ts >= before :: old(points)[k]
      ensures index == if beforeMs <= 0 || !swept || !forgot then old(index)
                       else map id | id in old(index) && HasPoint(points, id) :: old(index)[id]
      ensures ids.Keys == index.Keys && ids.Keys <= old(ids).Keys
    {
      AllKnown(index, ids);
      hide PointsOk, KnownOk, FlightsOk, HasPoint;
      if beforeMs <= 0 || !swept {
        return 0;
      }
      Sweep(ClampSeconds(beforeMs));
      var emptied := set id | id in ids && forall k :: k in points ==> k.id != id;
      NoneEmptied(points, index, ids, emptied);
      if emptied == {} || !forgot {
        return 0;
      }
      Forget(emptied);
      dropped := |emptied|;
    }

    // The first commit: the old points of the series in memory, which are all there are.
    method Sweep(before: nat)
      requires Valid() && ids.Keys == index.Keys
      modifies this`points
      ensures Valid() && points == map k | k in old(points) && k.ts >= before :: old(points)[k]
    {
      hide PointsOk, KnownOk, FlightsOk;
      SweepOk(points, index, ids, before);
      points := map k | k in points && !(k.id in ids && k.ts < before) :: points[k];
    }

    // The second: the series left without a point.
    method Forget(emptied: set<nat>)
      requires Valid() && flights == map[] && ids.Keys == index.Keys
      requires emptied == set id | id in ids && forall k :: k in points ==> k.id != id
      modifies this`index, this`ids
      ensures Valid() && ids.Keys == index.Keys && ids.Keys <= old(ids).Keys
      ensures index == map id | id in old(index) && HasPoint(points, id) :: old(index)[id]
    {
      ForgetOk(points, index, ids, emptied);
      hide PointsOk, KnownOk, HasPoint;
      index := map id | id in index && id !in emptied :: index[id];
      ids := map id | id in ids && id !in emptied :: ids[id];
    }

    // The process stops at any point, also between a sweep's commits, and opens again.
    method Crash()
      requires Valid()
      modifies this`ids, this`flights
      ensures Valid() && ids == index && flights == map[]
    {
      ids, flights := index, map[];
    }
  }

  ghost predicate HasPoint(points: map<PointKey, bytes>, id: nat) {
    exists k :: k in points && k.id == id
  }
}
