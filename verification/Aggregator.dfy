/**
 The agent's aggregator (internal/agent/aggregator/aggregator.go:228-296,
 387-540), seen from one context: its open buckets, its zero-fill cursor and the
 shared watermark. Methods are the atomic sections: a flush raises the watermark
 (Raise) and visits the context later (Visit), and samples may come at any point
 between. Every order of calls is a run, so what Valid says holds in every run.
 */
module Aggregator {
  import opened Options
  import opened ZeroFill
  import M = SelfMetrics

  const TIMESTAMP_TOLERANCE := 60

  /* One context. */

  ghost predicate Sorted(xs: seq<int>) {
    forall i, j :: 0 <= i < j < |xs| ==> xs[i] < xs[j]
  }

  function Insert(x: int, xs: seq<int>): (r: seq<int>)
    requires Sorted(xs) && x !in xs
    ensures Sorted(r) && forall y :: y in r <==> y == x || y in xs
  {
    if xs == [] || x < xs[0] then [x] + xs
    else
      assert forall y :: y in xs <==> y == xs[0] || y in xs[1..];
      var rest := Insert(x, xs[1..]);
      assert forall i :: 0 <= i < |rest| ==> rest[i] in rest;
      assert forall y :: y in xs[1..] ==> xs[0] < y;
      [xs[0]] + rest
  }

  // The starts a flush is to emit, ascending: the closed ones, and with final the begun ones too.
  predicate Chosen(s: int, cutoff: int, final: bool, now: int) {
    s < cutoff || (final && s <= now)
  }

  method Starts(buckets: map<int, real>, cutoff: int, final: bool, now: int) returns (starts: seq<int>, held: nat)
    ensures Sorted(starts) && forall s :: s in starts <==> s in buckets && Chosen(s, cutoff, final, now)
    ensures if final then |starts| + held == |buckets| else held == 0
  {
    starts, held := [], 0;
    var rest := buckets.Keys;
    while rest != {}
      invariant rest <= buckets.Keys && Sorted(starts)
      invariant forall s :: s in starts <==> s in buckets && s !in rest && Chosen(s, cutoff, final, now)
      invariant if final then |starts| + held + |rest| == |buckets| else held == 0
    {
      NotEmpty(rest);
      var s :| s in rest;
      if final && s >= cutoff && s > now {
        held := held + 1;
      } else if s < cutoff || final {
        InsertLength(s, starts);
        starts := Insert(s, starts);
      }
      rest := rest - {s};
    }
  }

  lemma {:induction false} InsertLength(x: int, xs: seq<int>)
    requires Sorted(xs) && x !in xs
    ensures |Insert(x, xs)| == |xs| + 1
  {
    if !(xs == [] || x < xs[0]) {
      InsertLength(x, xs[1..]);
    }
  }

  // The buckets that start at s or later.
  ghost predicate From(m: map<int, real>, all: map<int, real>, s: int) {
    && (forall b :: b in m <==> b in all && b >= s)
    && (forall b :: b in m ==> m[b] == all[b])
  }

  // The floor is a bucket after the start.
  ghost predicate FloorOk(width: int, first: Option<int>, started: Option<int>)
    requires width > 0
  {
    && (first.Some? ==> OnGrid(first.value, width))
    && (started.Some? ==> first.Some? && started.value < first.value)
  }

  // The cursor is at or before every open bucket and past everything emitted.
  ghost predicate CursorOk(width: int, first: Option<int>, next: int, lastData: int, buckets: map<int, real>,
                           emitted: seq<Point>, closed: bool)
    requires width > 0
  {
    && OnGrid(next, width) && OnGrid(lastData, width)
    && (forall b :: b in buckets ==> next <= b)
    && (first.Some? ==> first.value <= next)
    && (!closed ==> forall p :: p in emitted ==> p.ts < next)
  }

  // Nothing is before the floor or after the last flush. Until the final flush, what was emitted is behind the
  // watermark and behind every open bucket.
  ghost predicate EmittedOk(width: int, first: Option<int>, watermark: Option<int>, flushed: Option<int>,
                            buckets: map<int, real>, emitted: seq<Point>, closed: bool)
    requires width > 0
  {
    && (forall p :: p in emitted ==>
           OnGrid(p.ts, width) && (first.Some? ==> first.value <= p.ts) && flushed.Some? && p.ts <= flushed.value)
    && (first.Some? ==> forall b :: b in buckets ==> first.value <= b)
    && (!closed ==> forall p :: p in emitted ==> watermark.Some? && p.ts < watermark.value)
    && (!closed ==> forall p, b :: p in emitted && b in buckets ==> p.ts < b)
  }

  // A counter's zeros are exactly the boundaries within the expiry after data, as far as the cursor has come,
  // and all of them once the context is forgotten. Anything else is never filled.
  ghost predicate FillOk(width: int, expiry: int, isCounter: bool, live: bool, closed: bool, buckets: map<int, real>,
                         next: int, lastData: int, emitted: seq<Point>, data: set<int>)
    requires width > 0
  {
    && DataTold(emitted, data) && ZerosOk(emitted, data, expiry)
    && (!isCounter ==> forall p :: p in emitted ==> p.ts in data)
    && (isCounter && !closed ==> Filled(emitted, data, expiry, width, if live then Some(next) else None))
    && (isCounter && live && !closed ==> Grounded(buckets, data, next, lastData))
  }

  /* Opening a bucket. */

  // The cursor after a sample at start: a new context's is there, and a bucket opened before it pulls it back
  // (one already open is not before it).
  function CursorAt(isCounter: bool, live: bool, next: int, start: int): int {
    if !live || (isCounter && start < next) then start else next
  }

  // A bucket that may still be opened: on the grid, not before the floor, not flushed.
  predicate MayOpen(width: int, first: Option<int>, watermark: Option<int>, start: int)
    requires width > 0
  {
    OnGrid(start, width) && (first.Some? ==> first.value <= start) && (watermark.Some? ==> watermark.value <= start)
  }

  // Where a sample of second ts belongs: its own bucket, or the later of floor and watermark.
  ghost predicate Lands(width: int, first: Option<int>, watermark: Option<int>, ts: int, b: int) {
    if (first.Some? ==> first.value <= ts) && (watermark.Some? ==> watermark.value <= ts) then b <= ts < b + width
    else (first.Some? && b == first.value) || (watermark.Some? && b == watermark.value)
  }

  lemma PutCursor(width: int, first: Option<int>, watermark: Option<int>, flushed: Option<int>, live: bool,
                  next: int, lastData: int, buckets: map<int, real>, emitted: seq<Point>, closed: bool, start: int,
                  v: real)
    requires width > 0 && MayOpen(width, first, watermark, start)
    requires (if live then CursorOk(width, first, next, lastData, buckets, emitted, closed) else buckets == map[])
    requires EmittedOk(width, first, watermark, flushed, buckets, emitted, closed)
    ensures CursorOk(width, first, CursorAt(true, live, next, start), if live then lastData else start,
              buckets[start := v], emitted, closed)
  {
    hide OnGrid;
  }

  lemma PutEmitted(width: int, first: Option<int>, watermark: Option<int>, flushed: Option<int>,
                   buckets: map<int, real>, emitted: seq<Point>, closed: bool, start: int, v: real)
    requires width > 0 && MayOpen(width, first, watermark, start)
    requires EmittedOk(width, first, watermark, flushed, buckets, emitted, closed) && GridKeys(buckets, width)
    ensures EmittedOk(width, first, watermark, flushed, buckets[start := v], emitted, closed)
    ensures GridKeys(buckets[start := v], width)
  {
    hide OnGrid;
  }

  // Opening a bucket takes nothing from what is filled.
  lemma PutFill(width: int, expiry: int, isCounter: bool, live: bool, closed: bool, buckets: map<int, real>,
                next: int, lastData: int, emitted: seq<Point>, data: set<int>, first: Option<int>,
                watermark: Option<int>, flushed: Option<int>, start: int, v: real)
    requires width > 0 && FillOk(width, expiry, isCounter, live, closed, buckets, next, lastData, emitted, data)
    requires EmittedOk(width, first, watermark, flushed, buckets, emitted, closed)
    requires MayOpen(width, first, watermark, start)
    ensures FillOk(width, expiry, isCounter, true, closed, buckets[start := v],
              CursorAt(isCounter, live, next, start), if live then lastData else start, emitted, data)
  {
    hide OnGrid, ZerosOk;
    forall d | !closed && d in data ensures d <= start {
      assert At(emitted, d);
    }
    hide At;
  }

  class Context {
    const interval: int
    const expiry: int
    const isCounter: bool
    const first: Option<int>        // the floor a restart sets
    var watermark: Option<int>      // shared by all contexts
    var live: bool
    var buckets: map<int, real>     // a counter's sum, or the value to report
    var lastSeen: int
    var next: int
    var lastData: int
    ghost const started: Option<int>
    ghost var emitted: seq<Point>
    ghost var data: set<int>        // the starts emitted with data
    ghost var accepted: real
    ghost var flushed: Option<int>  // the latest time of a flush that has been here
    ghost var closed: bool          // the final flush has been here

    constructor (interval: int, expiry: int, isCounter: bool, started: Option<int>)
      requires interval > 0
      ensures Valid() && emitted == [] && accepted == 0.0 && !closed && !live && flushed.None?
      ensures this.started == started
    {
      this.interval, this.expiry, this.isCounter, this.started := interval, expiry, isCounter, started;
      first := if started.Some? then Some(M.FirstBucket(started.value, interval)) else None;
      watermark, live, buckets, lastSeen, next, lastData := None, false, map[], 0, 0, 0;
      emitted, data, accepted, flushed, closed := [], {}, 0.0, None, false;
      new;
      if started.Some? {
        M.FirstBucketIs(started.value, interval);
      }
    }

    ghost predicate Valid()
      reads this
    {
      && interval > 0 && FloorOk(interval, first, started)
      && (watermark.Some? ==> OnGrid(watermark.value, interval))
      && GridKeys(buckets, interval)
      && (!live ==> buckets == map[])
      && (live && isCounter ==> CursorOk(interval, first, next, lastData, buckets, emitted, closed))
      && EmittedOk(interval, first, watermark, flushed, buckets, emitted, closed)
      && Ascending(emitted)
      && (isCounter ==> accepted == Total(emitted) + Sum(buckets))
      && FillOk(interval, expiry, isCounter, live, closed, buckets, next, lastData, emitted, data)
    }

    // The bucket a sample goes to: its own, unless that is before the floor or has been flushed.
    function StartFor(ts: int): int
      requires interval > 0
      reads this
    {
      var own := FloorTo(ts, interval);
      var start := if first.Some? && own < first.value then first.value else own;
      if watermark.Some? && start < watermark.value then watermark.value else start
    }

    lemma StartForIs(ts: int)
      requires Valid()
      ensures MayOpen(interval, first, watermark, StartFor(ts)) && Lands(interval, first, watermark, ts, StartFor(ts))
    {
      FloorToIs(ts, interval);
      var own := FloorTo(ts, interval);
      assert forall t :: OnGrid(t, interval) && own < t ==> ts < t by {
        forall t | OnGrid(t, interval) && own < t ensures ts < t { Gap(own, t, interval); }
      }
    }

    // The sample goes to bucket b: the one its time lies in, or if that is before the floor or has been flushed
    // the later of the two. A sample's own timestamp counts within a minute of now. A counter's sampled value is
    // scaled up; any other kind keeps the last value.
    method Add(value: real, sampleRate: real, timestamp: int, now: int) returns (ghost b: int)
      requires Valid()
      modifies this`live, this`buckets, this`lastSeen, this`next, this`lastData, this`accepted
      ensures Valid() && live
      ensures b % interval == 0 && (first.Some? ==> first.value <= b) && (watermark.Some? ==> watermark.value <= b)
      ensures var ts := if timestamp != 0 && -60 <= timestamp - now <= 60 then timestamp else now;
              if (first.Some? ==> first.value <= ts) && (watermark.Some? ==> watermark.value <= ts)
              then b <= ts < b + interval
              else (first.Some? && b == first.value) || (watermark.Some? && b == watermark.value)
      ensures var rate := if 0.0 < sampleRate <= 1.0 then sampleRate else 1.0;
              && (isCounter ==> accepted == old(accepted) + value / rate)
              && buckets == old(buckets)[b := if !isCounter then value
                                              else value / rate + if b in old(buckets) then old(buckets)[b] else 0.0]
      ensures lastSeen >= now && (old(live) ==> lastSeen >= old(lastSeen))
      ensures lastSeen == now || lastSeen == 0 || (old(live) && lastSeen == old(lastSeen))
    {
      var ts := now;
      if timestamp != 0 && -TIMESTAMP_TOLERANCE <= timestamp - now <= TIMESTAMP_TOLERANCE {
        ts := timestamp;
      }
      var rate := sampleRate;
      if !(rate > 0.0 && rate <= 1.0) {
        rate := 1.0;
      }
      StartForIs(ts);
      var start := StartFor(ts);
      b := start;
      Put(start, value / rate, value, now);
    }

    method Put(start: int, scaled: real, value: real, now: int)
      requires Valid() && MayOpen(interval, first, watermark, start)
      modifies this`live, this`buckets, this`lastSeen, this`next, this`lastData, this`accepted
      ensures Valid() && live && (isCounter ==> accepted == old(accepted) + scaled)
      ensures buckets == old(buckets)[start := if !isCounter then value
                                               else scaled + if start in old(buckets) then old(buckets)[start] else 0.0]
      ensures lastSeen >= now && (old(live) ==> lastSeen >= old(lastSeen))
      ensures lastSeen == now || lastSeen == 0 || (old(live) && lastSeen == old(lastSeen))
    {
      var before := if start in buckets then buckets[start] else 0.0;
      var after := if isCounter then before + scaled else value;
      SumSet(buckets, start, after);
      hide Sum, Total, MayOpen;
      Set(start, after, scaled, now);
    }

    // The bucket gets its value; a context that was not there comes up with the cursor at it.
    method Set(start: int, v: real, ghost scaled: real, now: int)
      requires Valid() && MayOpen(interval, first, watermark, start)
      requires isCounter ==> Sum(buckets[start := v]) == Sum(buckets) + scaled
      modifies this`live, this`buckets, this`lastSeen, this`next, this`lastData, this`accepted
      ensures Valid() && live && buckets == old(buckets)[start := v] && accepted == old(accepted) + scaled
      ensures lastSeen >= now && (old(live) ==> lastSeen >= old(lastSeen))
      ensures lastSeen == now || lastSeen == 0 || (old(live) && lastSeen == old(lastSeen))
    {
      hide OnGrid, Total, Sum, Ascending, CursorOk, EmittedOk, FillOk, GridKeys, FloorOk, MayOpen, CursorAt;
      if isCounter {
        PutCursor(interval, first, watermark, flushed, live, next, lastData, buckets, emitted, closed, start, v);
      }
      PutFill(interval, expiry, isCounter, live, closed, buckets, next, lastData, emitted, data, first, watermark,
          flushed, start, v);
      PutEmitted(interval, first, watermark, flushed, buckets, emitted, closed, start, v);
      var seen := if live then lastSeen else 0;
      next, lastData := CursorAt(isCounter, live, next, start), if live then lastData else start;
      live, lastSeen, buckets := true, if now > seen then now else seen, buckets[start := v];
      accepted := accepted + scaled;
    }

    // The start of a flush at now: buckets before the cutoff are closed.
    method Raise(now: int) returns (cutoff: int)
      requires Valid()
      modifies this`watermark
      ensures Valid() && cutoff == FloorTo(now, interval) && watermark.Some? && cutoff <= watermark.value
      ensures old(watermark).Some? ==> watermark.value >= old(watermark).value
    {
      FloorToIs(now, interval);
      cutoff := FloorTo(now, interval);
      if watermark.None? || cutoff > watermark.value {
        watermark := Some(cutoff);
      }
    }

    // The walk of the zero-fill cursor up to cutoff, jumping over long gaps.
    method FillTo(cutoff: int, starts: seq<int>) returns (points: seq<Point>)
      requires Valid() && live && isCounter && OnGrid(cutoff, interval)
      requires Sorted(starts) && (forall b :: b in buckets && b < cutoff ==> b in starts)
      requires forall b :: b in starts ==> b in buckets
      modifies this`buckets, this`next, this`lastData
      ensures Fill(points, lastData) == Stepped(old(next), old(lastData), old(buckets), expiry, interval, cutoff)
      ensures next == if old(next) < cutoff then cutoff else old(next)
      ensures From(buckets, old(buckets), cutoff) && OnGrid(lastData, interval)
      ensures Total(points) + Sum(buckets) == Sum(old(buckets))
    {
      hide Total, Sum, OnGrid, Ascending, EmittedOk, FillOk, FloorOk;
      ghost var all, whole := buckets, Stepped(next, lastData, buckets, expiry, interval, cutoff);
      var s, i := next, 0;
      points := [];
      assert Total(points) == 0.0 by { NoTotal(); }
      assert From(buckets, all, next);
      while s < cutoff
        invariant OnGrid(s, interval) && OnGrid(lastData, interval) && next == old(next) && (s > cutoff ==> s == next)
        invariant From(buckets, all, s) && 0 <= i <= |starts| && forall j :: 0 <= j < i ==> starts[j] <= s
        invariant Joined(whole, points, s, lastData, all, expiry, interval, cutoff)
        invariant Total(points) + Sum(buckets) == Sum(all)
        decreases cutoff - s
      {
        Gap(s, cutoff, interval);
        NextMultiple(s, interval);
        JoinOne(whole, points, s, lastData, all, expiry, interval, cutoff);
        if s in buckets {
          SumWithout(buckets, s);
          AddTotal(points, Point(s, buckets[s]));
          points := points + [Point(s, buckets[s])];
          buckets := buckets - {s};
          lastData := s;
          FromNext(buckets, all, s, interval, cutoff);
        } else if s <= lastData + expiry {
          AddTotal(points, Point(s, 0.0));
          points := points + [Point(s, 0.0)];
          FromNext(buckets, all, s, interval, cutoff);
        } else {
          i := Skip(starts, i, s);
          var goal := if i == |starts| || starts[i] >= cutoff then cutoff else starts[i];
          NothingBetween(buckets, all, starts, i, s, goal, cutoff);
          JoinJump(whole, points, s, goal, lastData, all, expiry, interval, cutoff);
          s := goal;
          continue;
        }
        s := s + interval;
      }
      if s > next {
        next := s;
      }
    }

    // Whatever else was chosen, in order.
    method EmitOpen(starts: seq<int>) returns (points: seq<Point>)
      requires Sorted(starts)
      modifies this`buckets
      ensures Ascending(points) && Total(points) + Sum(buckets) == Sum(old(buckets))
      ensures forall p :: p in points <==> p.ts in starts && p.ts in old(buckets) && p.value == old(buckets)[p.ts]
      ensures buckets == old(buckets) - (set b | b in starts)
    {
      hide Total, Sum;
      ghost var all := buckets;
      points := [];
      NoTotal();
      var i := 0;
      while i < |starts|
        invariant 0 <= i <= |starts| && Ascending(points) && Total(points) + Sum(buckets) == Sum(all)
        invariant forall p :: p in points <==> p.ts in starts[..i] && p.ts in all && p.value == all[p.ts]
        invariant buckets == all - (set b | b in starts[..i])
      {
        var s := starts[i];
        assert starts[..i + 1] == starts[..i] + [s];
        assert forall p :: p in points ==> p.ts < s;
        if s in buckets {
          SumWithout(buckets, s);
          AddTotal(points, Point(s, buckets[s]));
          points := points + [Point(s, buckets[s])];
          buckets := buckets - {s};
        }
        i := i + 1;
      }
      assert starts[..|starts|] == starts;
    }

    // The flush begun at now reaches this context. final is the last flush there is. A counter's points begin
    // with the walk of the cursor up to the cutoff, zeros included; with the zeros of earlier visits they leave
    // nothing out (FillOk), also when the context is forgotten.
    method Visit(final: bool, now: int) returns (points: seq<Point>, held: nat)
      requires Valid() && !closed && watermark.Some? && FloorTo(now, interval) <= watermark.value
      modifies this`live, this`buckets, this`next, this`lastData, this`emitted, this`data, this`flushed, this`closed
      ensures Valid() && emitted == old(emitted) + points && closed == final && accepted == old(accepted)
      ensures Visited(points, old(buckets), buckets, FloorTo(now, interval), final, now)
      ensures data == old(data) + Emptied(old(buckets), buckets) && flushed == Latest(old(flushed), now)
      ensures old(live) && isCounter ==>
                Stepped(old(next), old(lastData), old(buckets), expiry, interval,
                FloorTo(now, interval)).points <= points
      ensures old(live) && isCounter ==> Filled(emitted, data, expiry, interval, Some(next))
      ensures held == if final then |buckets| else 0
      ensures !live <==> !old(live) || Idle(buckets, now, lastSeen, expiry, isCounter, next, lastData)
    {
      FloorToIs(now, interval);
      var cutoff := FloorTo(now, interval);
      var starts;
      starts, held := Starts(buckets, cutoff, final, now);
      ghost var all := buckets;
      hide OnGrid, Total, Sum, Stepped, FillOk, Filled, CursorOk, EmittedOk, FloorOk, GridKeys, Ascending;
      if live && isCounter {
        points := VisitCounter(cutoff, starts, final, now);
      } else {
        points := VisitOther(cutoff, starts, final, now);
      }
      HeldAre(all, buckets, points, starts, held, cutoff, final, now);
      if live && buckets == map[] && now - lastSeen > expiry && (!isCounter || next > lastData + expiry) {
        Forget();
      }
    }

    // The context is dropped; a counter's only when no zero is due any more.
    method Forget()
      requires Valid() && live && buckets == map[] && (isCounter ==> next > lastData + expiry)
      modifies this`live
      ensures Valid() && !live
    {
      hide OnGrid, Total, Sum, DataTold, ZerosOk, Filled, Ascending, CursorOk, EmittedOk, FloorOk, GridKeys;
      if isCounter && !closed {
        NothingDue(emitted, data, expiry, interval, buckets, next, lastData);
      }
      live := false;
    }

    method VisitOther(cutoff: int, starts: seq<int>, final: bool, now: int) returns (points: seq<Point>)
      requires Valid() && !closed && !(live && isCounter) && OnGrid(cutoff, interval) && watermark.Some?
      requires cutoff <= watermark.value && cutoff <= now
      requires Sorted(starts) && forall s :: s in starts <==> s in buckets && Chosen(s, cutoff, final, now)
      modifies this`buckets, this`emitted, this`data, this`flushed, this`closed
      ensures Valid() && emitted == old(emitted) + points && closed == final
      ensures Visited(points, old(buckets), buckets, cutoff, final, now)
      ensures data == old(data) + Emptied(old(buckets), buckets) && flushed == Latest(old(flushed), now)
    {
      hide OnGrid, Total, Sum, FillOk, Ascending, Sorted, FloorOk, EmittedOk;
      ghost var all, before := buckets, emitted;
      points := EmitOpen(starts);
      OtherVisited(points, all, buckets, starts, cutoff, final, now);
      OtherFill(interval, expiry, isCounter, live, final, all, buckets, next, lastData, before, data, points);
      OtherEmitted(interval, first, watermark, flushed, all, buckets, before, points, cutoff, final, now);
      TotalJoin(before, points);
      hide Visited, CursorOk;
      emitted, data, flushed, closed := emitted + points, data + Emptied(all, buckets), Latest(flushed, now), final;
    }

    // Fill, then the open buckets of a final flush.
    method CounterPoints(cutoff: int, starts: seq<int>, final: bool, now: int)
      returns (points: seq<Point>, ghost open: seq<Point>)
      requires Valid() && !closed && live && isCounter && OnGrid(cutoff, interval) && cutoff <= now
      requires Sorted(starts) && forall s :: s in starts <==> s in buckets && Chosen(s, cutoff, final, now)
      modifies this`buckets, this`next, this`lastData
      ensures Ascending(points) && Total(points) + Sum(buckets) == Sum(old(buckets))
      ensures forall p :: p in points ==> old(next) <= p.ts <= now && OnGrid(p.ts, interval) && (p.ts < cutoff || final)
      ensures Visited(points, old(buckets), buckets, cutoff, final, now)
      ensures forall b :: b in buckets ==> cutoff <= b
      ensures next == if old(next) < cutoff then cutoff else old(next)
      ensures OnGrid(lastData, interval)
      ensures lastData == Stepped(old(next), old(lastData), old(buckets), expiry, interval, cutoff).lastData
      ensures points == Stepped(old(next), old(lastData), old(buckets), expiry, interval, cutoff).points + open
      ensures forall p :: p in open ==> p.ts in old(buckets) && p.ts !in buckets
    {
      ghost var all, from, data0 := buckets, next, lastData;
      hide OnGrid, Total, Sum, Stepped, EmittedOk, FillOk, FloorOk, Ascending, Sorted;
      StartsAre(starts, buckets, cutoff, final, now);
      var filled := FillTo(cutoff, starts);
      ghost var mid := buckets;
      var begun := EmitOpen(starts);
      hide CursorOk;
      CounterJoined(filled, begun, all, mid, buckets, starts, from, data0, expiry, interval, cutoff, final, now);
      TotalJoin(filled, begun);
      points, open := filled + begun, begun;
    }

    method VisitCounter(cutoff: int, starts: seq<int>, final: bool, now: int) returns (points: seq<Point>)
      requires Valid() && !closed && live && isCounter && OnGrid(cutoff, interval) && watermark.Some?
      requires cutoff <= watermark.value && cutoff <= now
      requires Sorted(starts) && forall s :: s in starts <==> s in buckets && Chosen(s, cutoff, final, now)
      modifies this`buckets, this`next, this`lastData, this`emitted, this`data, this`flushed, this`closed
      ensures Valid() && emitted == old(emitted) + points && closed == final
      ensures Visited(points, old(buckets), buckets, cutoff, final, now)
      ensures data == old(data) + Emptied(old(buckets), buckets) && flushed == Latest(old(flushed), now)
      ensures Stepped(old(next), old(lastData), old(buckets), expiry, interval, cutoff).points <= points
      ensures Filled(emitted, data, expiry, interval, Some(next))
    {
      hide OnGrid, Total, Sum, Stepped, Sorted, FillOk, Filled, Ascending, FloorOk, EmittedOk;
      ghost var before, all, from, last := emitted, buckets, next, lastData;
      ghost var open;
      points, open := CounterPoints(cutoff, starts, final, now);
      CounterFill(interval, expiry, first, all, buckets, from, last, before, data, open, cutoff, final, now);
      CounterEmitted(interval, first, watermark, flushed, all, buckets, from, last, before, points, cutoff, final, now);
      TotalJoin(before, points);
      hide Visited;
      emitted, data, flushed, closed := emitted + points, data + Emptied(all, buckets), Latest(flushed, now), final;
    }
  }

  ghost function Latest(t: Option<int>, now: int): Option<int> {
    Some(if t.Some? && t.value > now then t.value else now)
  }

  /* Visiting. */

  // New points and the buckets left keep to the floor, the flush time and the watermark.
  lemma PointsEmitted(width: int, first: Option<int>, watermark: Option<int>, flushed: Option<int>,
                      all: map<int, real>, left: map<int, real>, emitted: seq<Point>, points: seq<Point>,
                      cutoff: int, final: bool, now: int)
    requires width > 0 && EmittedOk(width, first, watermark, flushed, all, emitted, false) && watermark.Some?
    requires cutoff <= watermark.value
    requires forall p :: p in points ==>
               p.ts <= now && OnGrid(p.ts, width) && (first.Some? ==> first.value <= p.ts) && (p.ts < cutoff || final)
    requires forall b :: b in left ==> b in all && (!final ==> cutoff <= b)
    ensures EmittedOk(width, first, watermark, Latest(flushed, now), left, emitted + points, final)
  {
    hide OnGrid;
  }

  lemma CounterEmitted(width: int, first: Option<int>, watermark: Option<int>, flushed: Option<int>,
                       all: map<int, real>, left: map<int, real>, next: int, lastData: int, emitted: seq<Point>,
                       points: seq<Point>, cutoff: int, final: bool, now: int)
    requires width > 0 && EmittedOk(width, first, watermark, flushed, all, emitted, false) && watermark.Some?
    requires cutoff <= watermark.value
    requires CursorOk(width, first, next, lastData, all, emitted, false) && Ascending(emitted) && Ascending(points)
    requires forall p :: p in points ==> next <= p.ts <= now && OnGrid(p.ts, width) && (p.ts < cutoff || final)
    requires forall b :: b in left ==> b in all && cutoff <= b
    ensures EmittedOk(width, first, watermark, Latest(flushed, now), left, emitted + points, final)
    ensures Ascending(emitted + points)
  {
    hide OnGrid, Ascending;
    PointsEmitted(width, first, watermark, flushed, all, left, emitted, points, cutoff, final, now);
    hide EmittedOk;
    AscendingJoin(emitted, points);
  }

  lemma OtherEmitted(width: int, first: Option<int>, watermark: Option<int>, flushed: Option<int>,
                     all: map<int, real>, left: map<int, real>, emitted: seq<Point>, points: seq<Point>, cutoff: int,
                     final: bool, now: int)
    requires width > 0 && EmittedOk(width, first, watermark, flushed, all, emitted, false) && watermark.Some?
    requires cutoff <= watermark.value && cutoff <= now
    requires Ascending(emitted) && Ascending(points) && GridKeys(all, width)
    requires Visited(points, all, left, cutoff, final, now)
    requires forall p :: p in points ==> p.ts in all && p.ts !in left
    ensures EmittedOk(width, first, watermark, Latest(flushed, now), left, emitted + points, final)
    ensures Ascending(emitted + points)
    ensures GridKeys(left, width)
  {
    hide OnGrid, Ascending;
    PointsEmitted(width, first, watermark, flushed, all, left, emitted, points, cutoff, final, now);
    AscendingJoin(emitted, points);
  }

  lemma OtherVisited(points: seq<Point>, all: map<int, real>, left: map<int, real>, starts: seq<int>, cutoff: int,
                     final: bool, now: int)
    requires cutoff <= now && left == all - (set b | b in starts)
    requires forall s :: s in starts <==> s in all && Chosen(s, cutoff, final, now)
    requires forall p :: p in points <==> p.ts in starts && p.ts in all && p.value == all[p.ts]
    ensures Visited(points, all, left, cutoff, final, now) && forall p :: p in points ==> p.ts in all && p.ts !in left
  {
  }

  // What is no counter, or not there, gets no zeros.
  lemma OtherFill(width: int, expiry: int, isCounter: bool, live: bool, final: bool, all: map<int, real>,
                  left: map<int, real>, next: int, lastData: int, emitted: seq<Point>, data: set<int>,
                  points: seq<Point>)
    requires width > 0 && FillOk(width, expiry, isCounter, live, false, all, next, lastData, emitted, data)
    requires !(live && isCounter) && (!live ==> all == map[]) && (forall b :: b in left ==> b in all)
    requires forall p :: p in points ==> p.ts in all && p.ts !in left
    requires forall b :: b in all && b !in left ==> Point(b, all[b]) in points
    ensures FillOk(width, expiry, isCounter, live, final, left, next, lastData, emitted + points,
              data + Emptied(all, left))
  {
    hide OnGrid, Filled;
    forall b | b in all && b !in left ensures At(points, b) { assert Point(b, all[b]) in points; }
    OtherFilled(emitted, data, points, all, left, expiry);
    if isCounter {
      PointFree(points, all);
      assert emitted + [] == emitted && data + Emptied(all, left) == data;
    }
    hide DataTold, ZerosOk, Near, At;
  }

  // A counter's visit: the zeros of all visits so far are exactly those due up to the cursor.
  lemma CounterFill(width: int, expiry: int, first: Option<int>, all: map<int, real>, left: map<int, real>,
                    next: int, lastData: int, emitted: seq<Point>, data: set<int>, open: seq<Point>, cutoff: int,
                    final: bool, now: int)
    requires width > 0 && FillOk(width, expiry, true, true, false, all, next, lastData, emitted, data)
    requires OnGrid(cutoff, width) && GridKeys(all, width)
    requires CursorOk(width, first, next, lastData, all, emitted, false)
    requires Visited(Stepped(next, lastData, all, expiry, width, cutoff).points + open, all, left, cutoff, final, now)
    requires (forall b :: b in left ==> cutoff <= b) && forall p :: p in open ==> p.ts in all && p.ts !in left
    ensures var out := Stepped(next, lastData, all, expiry, width, cutoff);
            FillOk(width, expiry, true, true, final, left, if next < cutoff then cutoff else next, out.lastData,
                   emitted + (out.points + open), data + Emptied(all, left))
            && Filled(emitted + (out.points + open), data + Emptied(all, left), expiry, width,
               Some(if next < cutoff then cutoff else next))
  {
    var out := Stepped(next, lastData, all, expiry, width, cutoff);
    assert forall d :: d in data ==> d < next by { DataBefore(emitted, data, next); }
    SteppedFill(width, expiry, all, left, next, lastData, open, cutoff, final, now);
    SteppedLast(next, lastData, all, expiry, width, cutoff);
    hide Stepped, OnGrid, FillIs, DataTold, ZerosOk, Filled, Grounded, Ascending, CursorOk;
    VisitTold(emitted, data, out.points, open, all, left, next, lastData, expiry, width, cutoff);
    VisitZeros(emitted, data, out.points, open, all, left, next, lastData, expiry, width, cutoff);
    VisitFilled(emitted, data, out.points, open, all, left, next, lastData, expiry, width, cutoff);
    if !final {
      assert forall b :: b in all ==> next <= b && (b in left <==> cutoff <= b) by {
        BucketsAhead(width, first, next, lastData, all, emitted);
      }
      VisitGrounded(data, all, left, next, lastData, out.lastData, cutoff);
    }
  }

  lemma BucketsAhead(width: int, first: Option<int>, next: int, lastData: int, all: map<int, real>, emitted: seq<Point>)
    requires width > 0 && CursorOk(width, first, next, lastData, all, emitted, false)
    ensures forall b :: b in all ==> next <= b
  {
  }

  lemma DataBefore(emitted: seq<Point>, data: set<int>, next: int)
    requires DataTold(emitted, data) && forall p :: p in emitted ==> p.ts < next
    ensures forall d :: d in data ==> d < next
  {
    forall d | d in data ensures d < next {
      assert At(emitted, d);
    }
  }

  lemma SteppedFill(width: int, expiry: int, all: map<int, real>, left: map<int, real>, next: int, lastData: int,
                    open: seq<Point>, cutoff: int, final: bool, now: int)
    requires width > 0 && OnGrid(next, width) && OnGrid(cutoff, width) && GridKeys(all, width)
    requires forall b :: b in all ==> next <= b
    requires Visited(Stepped(next, lastData, all, expiry, width, cutoff).points + open, all, left, cutoff, final, now)
    requires (forall b :: b in left ==> cutoff <= b) && forall p :: p in open ==> p.ts in all && p.ts !in left
    ensures FillIs(Stepped(next, lastData, all, expiry, width, cutoff).points, open, all, left, next, lastData,
              expiry, width, cutoff)
  {
    SteppedIs(next, lastData, all, expiry, width, cutoff);
    hide Stepped, OnGrid, Due, Ascending;
    var steps := Stepped(next, lastData, all, expiry, width, cutoff).points;
    forall b | b in all && b !in left ensures At(steps + open, b) {
      assert Point(b, all[b]) in steps + open;
    }
  }

  lemma OtherFilled(ps: seq<Point>, data: set<int>, points: seq<Point>, all: map<int, real>, left: map<int, real>,
                    expiry: int)
    requires DataTold(ps, data) && ZerosOk(ps, data, expiry)
    requires forall p :: p in points ==> p.ts in all && p.ts !in left
    requires forall b :: b in all && b !in left ==> At(points, b)
    ensures DataTold(ps + points, data + Emptied(all, left)) && ZerosOk(ps + points, data + Emptied(all, left), expiry)
    ensures (forall p :: p in ps ==> p.ts in data) ==> forall p :: p in ps + points ==>
              p.ts in data + Emptied(all, left)
  {
    var more := data + Emptied(all, left);
    forall d | d in more ensures At(ps + points, d) { AtMore(ps, points, d); }
    forall p | p in ps + points && p.ts !in more ensures p.value == 0.0 && Near(more, p.ts, expiry) {
      assert p in ps;
      var d :| d in data && d < p.ts <= d + expiry;
      assert d in more;
    }
  }

  lemma FrontIn(points: seq<Point>)
    ensures points == [] || points[0] in points
  {
  }

  lemma PointFree(points: seq<Point>, all: map<int, real>)
    requires all == map[] && forall p :: p in points ==> p.ts in all
    ensures points == []
  {
    FrontIn(points);
  }

  // Restart: an agent whose last flush is no later than the next one's start and the next one never emit the
  // same bucket of a context; what the store gets from the two in turn ascends throughout.
  lemma RestartAscends(before: Context, after: Context)
    requires before.Valid() && after.Valid() && after.started.Some?
    requires before.flushed.Some? ==> before.flushed.value <= after.started.value
    ensures forall p, q :: p in before.emitted && q in after.emitted ==> p.ts < q.ts
    ensures Ascending(before.emitted + after.emitted)
  {
    hide OnGrid, Ascending;
    AscendingJoin(before.emitted, after.emitted);
  }

  // The filled points and the open ones after them, together.
  lemma CounterJoined(filled: seq<Point>, begun: seq<Point>, all: map<int, real>, mid: map<int, real>,
                      left: map<int, real>, starts: seq<int>, from: int, lastData: int, expiry: int, width: int,
                      cutoff: int, final: bool, now: int)
    requires width > 0 && OnGrid(from, width) && OnGrid(cutoff, width) && GridKeys(all, width) && cutoff <= now
    requires filled == Stepped(from, lastData, all, expiry, width, cutoff).points && forall b :: b in all ==> from <= b
    requires From(mid, all, cutoff) && left == mid - (set b | b in starts)
    requires Ascending(begun) && forall p :: p in begun <==> p.ts in starts && p.ts in mid && p.value == mid[p.ts]
    requires forall s :: s in starts <==> s in all && Chosen(s, cutoff, final, now)
    ensures Ascending(filled + begun) && Visited(filled + begun, all, left, cutoff, final, now)
    ensures forall p :: p in filled + begun ==> from <= p.ts <= now && OnGrid(p.ts, width) && (p.ts < cutoff || final)
    ensures (forall b :: b in left ==> cutoff <= b) && forall p :: p in begun ==> p.ts in all && p.ts !in left
  {
    SteppedIs(from, lastData, all, expiry, width, cutoff);
    hide OnGrid, Stepped, Due, Ascending;
    FilledAll(filled, all, from, lastData, expiry, width, cutoff);
    assert forall p :: p in begun ==> cutoff <= p.ts <= now && p.ts in all && p.ts !in left && OnGrid(p.ts, width);
    AscendingJoin(filled, begun);
    BothVisited(filled, begun, all, mid, left, starts, cutoff, final, now);
    hide Visited, At, From;
  }

  // Nothing is open, no sample came for longer than the expiry, and no zero is due.
  ghost predicate Idle(buckets: map<int, real>, now: int, lastSeen: int, expiry: int, isCounter: bool, next: int,
                       lastData: int)
  {
    buckets == map[] && now - lastSeen > expiry && (isCounter ==> next > lastData + expiry)
  }

  lemma StartsAre(starts: seq<int>, buckets: map<int, real>, cutoff: int, final: bool, now: int)
    requires forall s :: s in starts <==> s in buckets && Chosen(s, cutoff, final, now)
    ensures (forall b :: b in buckets && b < cutoff ==> b in starts) && forall b :: b in starts ==> b in buckets
  {
  }

  lemma BothVisited(filled: seq<Point>, open: seq<Point>, all: map<int, real>, mid: map<int, real>,
                    left: map<int, real>, starts: seq<int>, cutoff: int, final: bool, now: int)
    requires (forall b :: b in all && b < cutoff ==> Point(b, all[b]) in filled) && From(mid, all, cutoff)
    requires forall p :: p in filled + open ==> p.ts <= now
    requires forall p :: p in open <==> p.ts in starts && p.ts in mid && p.value == mid[p.ts]
    requires left == mid - (set b | b in starts)
    requires forall s :: s in starts <==> s in all && Chosen(s, cutoff, final, now)
    ensures Visited(filled + open, all, left, cutoff, final, now)
  {
    forall b | b in all && Chosen(b, cutoff, final, now) ensures Point(b, all[b]) in filled + open {
      if b >= cutoff {
        assert Point(b, all[b]) in open;
      }
    }
  }

  // What a visit emits and leaves: each chosen bucket's value is in a point, the others stay as they were.
  ghost predicate Visited(points: seq<Point>, all: map<int, real>, left: map<int, real>, cutoff: int, final: bool,
                          now: int)
  {
    && (forall p :: p in points ==> p.ts <= now)
    && (forall b :: b in all ==>
           if Chosen(b, cutoff, final, now) then Point(b, all[b]) in points && b !in left
           else b in left && left[b] == all[b])
    && (forall b :: b in left ==> b in all)
  }

  // The buckets a final flush leaves are the ones it held back.
  lemma HeldAre(all: map<int, real>, left: map<int, real>, points: seq<Point>, starts: seq<int>, held: nat,
                cutoff: int, final: bool, now: int)
    requires Visited(points, all, left, cutoff, final, now) && Sorted(starts)
    requires forall s :: s in starts <==> s in all && Chosen(s, cutoff, final, now)
    requires final ==> |starts| + held == |all|
    ensures final ==> held == |left|
  {
    var chosen := set s | s in starts;
    SortedSize(starts);
    forall b ensures b in left <==> b in all && b !in chosen {
      if b in all && !Chosen(b, cutoff, final, now) {
        assert b in left;
      }
    }
    assert left.Keys == all.Keys - chosen;
    assert chosen <= all.Keys;
    assert |all.Keys| == |all| && |left.Keys| == |left|;
  }

  lemma {:induction false} SortedSize(xs: seq<int>)
    requires Sorted(xs)
    ensures |set x | x in xs| == |xs|
  {
    var all := set x | x in xs;
    if xs != [] {
      var n := |xs| - 1;
      SortedSize(xs[..n]);
      var rest := set x | x in xs[..n];
      assert all == rest + {xs[n]} && xs[n] !in rest;
    } else {
      assert all == {};
    }
  }

  lemma NothingBetween(m: map<int, real>, all: map<int, real>, starts: seq<int>, i: nat, s: int, goal: int, cutoff: int)
    requires From(m, all, s) && s !in m && Sorted(starts) && i <= |starts| && s < goal <= cutoff
    requires forall b :: b in all && b < cutoff ==> b in starts
    requires (forall j :: 0 <= j < i ==> starts[j] <= s) && (i < |starts| ==> goal <= starts[i])
    ensures (forall b :: b in all ==> !(s <= b < goal)) && From(m, all, goal)
  {
    assert forall b :: b in all && s <= b < goal ==> b in starts;
  }

  lemma FromNext(m: map<int, real>, all: map<int, real>, s: int, width: int, cutoff: int)
    requires width > 0 && OnGrid(s, width) && GridKeys(all, width) && s !in m
    requires (forall b :: b in m ==> b in all && b >= s && m[b] == all[b]) && (forall b :: b in all && b > s ==> b in m)
    ensures From(m, all, s + width)
  {
    forall b | b in all && b > s ensures b >= s + width {
      Gap(s, b, width);
    }
  }

  method Skip(starts: seq<int>, i: nat, s: int) returns (j: nat)
    requires i <= |starts| && forall n :: 0 <= n < i ==> starts[n] <= s
    ensures i <= j <= |starts| && (forall n :: 0 <= n < j ==> starts[n] <= s) && (j < |starts| ==> starts[j] > s)
  {
    j := i;
    while j < |starts| && starts[j] <= s
      invariant i <= j <= |starts| && forall n :: 0 <= n < j ==> starts[n] <= s
    {
      j := j + 1;
    }
  }
}
