/**
 The zero-fill cursor of a counter (internal/agent/aggregator/aggregator.go:497-540):
 boundaries are walked one interval at a time or jumped over, one with data
 reports its sum, one without reports 0 if it is within the expiry of the last
 data. Then the same over all flushes: exactly the boundaries within the expiry
 after data get a zero.
 */
module ZeroFill {
  import opened Options

  datatype Point = Point(ts: int, value: real)

  function FloorTo(t: int, width: int): int
    requires width > 0
  {
    t / width * width
  }

  // t is where a bucket starts.
  predicate OnGrid(t: int, width: int)
    requires width > 0
  {
    t % width == 0
  }

  lemma FloorToIs(t: int, width: int)
    requires width > 0
    ensures OnGrid(FloorTo(t, width), width) && FloorTo(t, width) <= t < FloorTo(t, width) + width
  {
    Multiple(t / width, width);
  }

  lemma Multiple(q: int, width: int)
    requires width > 0
    ensures (q * width) % width == 0
  {
    assert q * width == q * width + 0;
    DivIs(q * width, q, 0, width);
  }

  lemma DivIs(t: int, q: int, r: int, width: int)
    requires width > 0 && t == q * width + r && 0 <= r < width
    ensures t / width == q && t % width == r
  {
    var d := t / width - q;
    assert t == t / width * width + t % width;
    assert d * width == r - t % width;
    assert d >= 1 ==> d * width >= width;
    assert d <= -1 ==> d * width <= -width;
  }

  // A sample's bucket boundaries are the interval apart.
  lemma NextMultiple(s: int, width: int)
    requires width > 0 && OnGrid(s, width)
    ensures OnGrid(s + width, width)
  {
    assert s == s / width * width;
    Multiple(s / width + 1, width);
    assert (s / width + 1) * width == s + width;
  }

  lemma Gap(s: int, t: int, width: int)
    requires width > 0 && OnGrid(s, width) && OnGrid(t, width) && s < t
    ensures s + width <= t
  {
    assert s == s / width * width && t == t / width * width;
    assert t / width <= s / width ==> t <= s;
    assert (s / width + 1) * width <= t / width * width;
  }

  /* Sums. */

  ghost function SumOf(m: map<int, real>, ks: set<int>): real
    requires ks <= m.Keys
  {
    if ks == {} then 0.0 else NotEmpty(ks); var k :| k in ks; m[k] + SumOf(m, ks - {k})
  }

  lemma NotEmpty(ks: set<int>)
    ensures ks == {} || exists k :: k in ks
  {
    if forall k :: k !in ks {
      assert ks == {};
    }
  }

  ghost function Sum(m: map<int, real>): real {
    SumOf(m, m.Keys)
  }

  lemma {:induction false} SumOfWithout(m: map<int, real>, ks: set<int>, k: int)
    requires ks <= m.Keys && k in ks
    ensures SumOf(m, ks) == m[k] + SumOf(m, ks - {k})
    decreases ks
  {
    var x :| x in ks && SumOf(m, ks) == m[x] + SumOf(m, ks - {x});
    if x != k {
      SumOfWithout(m, ks - {x}, k);
      SumOfWithout(m, ks - {k}, x);
      assert ks - {x} - {k} == ks - {k} - {x};
    }
  }

  lemma {:induction false} SumOfSame(m: map<int, real>, n: map<int, real>, ks: set<int>)
    requires ks <= m.Keys && ks <= n.Keys && forall k :: k in ks ==> m[k] == n[k]
    ensures SumOf(m, ks) == SumOf(n, ks)
    decreases ks
  {
    if ks != {} {
      NotEmpty(ks);
      var k :| k in ks;
      SumOfWithout(m, ks, k);
      SumOfWithout(n, ks, k);
      SumOfSame(m, n, ks - {k});
    }
  }

  lemma SumWithout(m: map<int, real>, k: int)
    requires k in m
    ensures Sum(m) == m[k] + Sum(m - {k})
  {
    SumOfWithout(m, m.Keys, k);
    assert (m - {k}).Keys == m.Keys - {k};
    SumOfSame(m, m - {k}, m.Keys - {k});
  }

  lemma SumSet(m: map<int, real>, k: int, v: real)
    ensures Sum(m[k := v]) == Sum(m) - (if k in m then m[k] else 0.0) + v
  {
    SumWithout(m[k := v], k);
    if k in m {
      SumWithout(m, k);
      assert m[k := v] - {k} == m - {k};
    } else {
      assert m[k := v] - {k} == m;
    }
  }

  ghost function Total(ps: seq<Point>): real {
    if ps == [] then 0.0 else Total(ps[..|ps| - 1]) + ps[|ps| - 1].value
  }

  lemma {:induction false} TotalJoin(a: seq<Point>, b: seq<Point>)
    ensures Total(a + b) == Total(a) + Total(b)
  {
    if b == [] {
      assert a + b == a;
    } else {
      assert (a + b)[..|a + b| - 1] == a + b[..|b| - 1];
      TotalJoin(a, b[..|b| - 1]);
    }
  }

  lemma NoTotal()
    ensures Total([]) == 0.0
  {
  }

  lemma AddTotal(ps: seq<Point>, p: Point)
    ensures Total(ps + [p]) == Total(ps) + p.value
  {
    assert (ps + [p])[..|ps|] == ps;
  }

  ghost predicate Ascending(ps: seq<Point>) {
    forall i, j :: 0 <= i < j < |ps| ==> ps[i].ts < ps[j].ts
  }

  lemma AscendingJoin(a: seq<Point>, b: seq<Point>)
    requires Ascending(a) && Ascending(b) && forall p, q :: p in a && q in b ==> p.ts < q.ts
    ensures Ascending(a + b)
  {
    forall i, j | 0 <= i < |a| && 0 <= j < |b| ensures a[i].ts < b[j].ts {
      assert a[i] in a && b[j] in b;
    }
  }

  ghost predicate At(ps: seq<Point>, t: int) {
    exists p :: p in ps && p.ts == t
  }

  lemma AtMore(ps: seq<Point>, more: seq<Point>, t: int)
    ensures At(ps + more, t) <==> At(ps, t) || At(more, t)
  {
  }

  /* Zero fill, one interval at a time. */

  datatype Fill = Fill(points: seq<Point>, lastData: int)

  // What the boundary s contributes.
  ghost function FillAt(s: int, lastData: int, buckets: map<int, real>, expiry: int): Fill {
    if s in buckets then Fill([Point(s, buckets[s])], s)
    else if s <= lastData + expiry then Fill([Point(s, 0.0)], lastData)
    else Fill([], lastData)
  }

  // The boundaries from s up to cutoff, each looked at in turn.
  ghost function Stepped(s: int, lastData: int, buckets: map<int, real>, expiry: int, width: int, cutoff: int): Fill
    requires width > 0
    decreases cutoff - s
  {
    if s >= cutoff then Fill([], lastData)
    else
      var one := FillAt(s, lastData, buckets, expiry);
      var rest := Stepped(s + width, one.lastData, buckets, expiry, width, cutoff);
      Fill(one.points + rest.points, rest.lastData)
  }

  // A gap past the horizon yields nothing, so it may be jumped.
  lemma {:induction false} JumpIsSteps(s: int, goal: int, lastData: int, buckets: map<int, real>, expiry: int,
                                       width: int, cutoff: int)
    requires width > 0 && OnGrid(s, width) && OnGrid(goal, width) && s <= goal <= cutoff && lastData + expiry < s
    requires forall b :: b in buckets ==> !(s <= b < goal)
    ensures Stepped(s, lastData, buckets, expiry, width, cutoff) == Stepped(goal, lastData, buckets, expiry, width,
              cutoff)
    decreases goal - s
  {
    hide OnGrid;
    if s < goal {
      Gap(s, goal, width);
      NextMultiple(s, width);
      JumpIsSteps(s + width, goal, lastData, buckets, expiry, width, cutoff);
    }
  }

  // Which boundaries get a point, said without stepping: those with data, and those within the expiry after
  // the last data before them. Each gets one.
  ghost predicate Due(s: int, from: int, lastData: int, buckets: map<int, real>, expiry: int) {
    || s in buckets
    || (exists b :: b in buckets && from <= b < s <= b + expiry)
    || (s <= lastData + expiry && forall b :: b in buckets ==> !(from <= b < s))
  }

  lemma SteppedIs(s: int, lastData: int, buckets: map<int, real>, expiry: int, width: int, cutoff: int)
    requires width > 0 && OnGrid(s, width) && OnGrid(cutoff, width) && GridKeys(buckets, width)
    ensures var out := Stepped(s, lastData, buckets, expiry, width, cutoff);
            && Ascending(out.points)
            && (forall p :: p in out.points ==>
                   s <= p.ts < cutoff && OnGrid(p.ts, width) && p.value == if p.ts in buckets then buckets[p.ts]
                   else 0.0)
            && (forall t :: s <= t < cutoff && OnGrid(t, width) ==>
                   (At(out.points, t) <==> Due(t, s, lastData, buckets, expiry)))
  {
    SteppedPoints(s, lastData, buckets, expiry, width, cutoff);
    hide Stepped, OnGrid, At, Due;
    forall t | s <= t < cutoff && OnGrid(t, width)
      ensures At(Stepped(s, lastData, buckets, expiry, width, cutoff).points, t) <==>
                Due(t, s, lastData, buckets, expiry)
    {
      SteppedAt(s, lastData, buckets, expiry, width, cutoff, t);
    }
  }

  lemma {:induction false} SteppedPoints(s: int, lastData: int, buckets: map<int, real>, expiry: int, width: int,
                                         cutoff: int)
    requires width > 0 && OnGrid(s, width)
    ensures var out := Stepped(s, lastData, buckets, expiry, width, cutoff);
            && Ascending(out.points)
            && (forall p :: p in out.points ==>
                   s <= p.ts < cutoff && OnGrid(p.ts, width) && p.value == if p.ts in buckets then buckets[p.ts]
                   else 0.0)
    decreases cutoff - s
  {
    hide OnGrid;
    if s < cutoff {
      NextMultiple(s, width);
      var one := FillAt(s, lastData, buckets, expiry);
      SteppedPoints(s + width, one.lastData, buckets, expiry, width, cutoff);
      AscendingJoin(one.points, Stepped(s + width, one.lastData, buckets, expiry, width, cutoff).points);
      hide Ascending;
    }
  }

  lemma DueNext(t: int, s: int, lastData: int, after: int, buckets: map<int, real>, expiry: int, width: int)
    requires width > 0 && OnGrid(s, width) && s + width <= t && OnGrid(t, width) && after == if s in buckets then s
               else lastData
    requires GridKeys(buckets, width)
    ensures Due(t, s + width, after, buckets, expiry) <==> Due(t, s, lastData, buckets, expiry)
  {
    assert forall b :: b in buckets && s < b ==> s + width <= b by {
      forall b | b in buckets && s < b ensures s + width <= b {
        Gap(s, b, width);
      }
    }
    hide OnGrid;
  }

  ghost predicate GridKeys(buckets: map<int, real>, width: int)
    requires width > 0
  {
    forall b :: b in buckets ==> OnGrid(b, width)
  }

  lemma {:induction false} SteppedAt(s: int, lastData: int, buckets: map<int, real>, expiry: int, width: int,
                                     cutoff: int, t: int)
    requires width > 0 && OnGrid(s, width) && s <= t < cutoff && OnGrid(t, width) && GridKeys(buckets, width)
    ensures At(Stepped(s, lastData, buckets, expiry, width, cutoff).points, t) <==> Due(t, s, lastData, buckets, expiry)
    decreases cutoff - s
  {
    var one := FillAt(s, lastData, buckets, expiry);
    var rest := Stepped(s + width, one.lastData, buckets, expiry, width, cutoff).points;
    assert Stepped(s, lastData, buckets, expiry, width, cutoff).points == one.points + rest;
    NextMultiple(s, width);
    SteppedPoints(s + width, one.lastData, buckets, expiry, width, cutoff);
    hide Stepped, OnGrid, Ascending;
    AtMore(one.points, rest, t);
    if s < t {
      Gap(s, t, width);
      DueNext(t, s, lastData, one.lastData, buckets, expiry, width);
      hide Due;
      SteppedAt(s + width, one.lastData, buckets, expiry, width, cutoff, t);
      assert !At(one.points, t);
    } else {
      assert one.points != [] ==> one.points[0] in one.points;
    }
  }

  lemma FilledAll(steps: seq<Point>, all: map<int, real>, from: int, lastData: int, expiry: int, width: int,
                  cutoff: int)
    requires width > 0 && GridKeys(all, width) && forall b :: b in all ==> from <= b
    requires forall p :: p in steps ==> p.value == if p.ts in all then all[p.ts] else 0.0
    requires forall t :: from <= t < cutoff && OnGrid(t, width) ==>
               (At(steps, t) <==> Due(t, from, lastData, all, expiry))
    ensures forall b :: b in all && b < cutoff ==> Point(b, all[b]) in steps
  {
    hide OnGrid;
    forall b | b in all && b < cutoff ensures Point(b, all[b]) in steps {
      assert Due(b, from, lastData, all, expiry);
      var p :| p in steps && p.ts == b;
      assert p == Point(b, all[b]);
    }
  }

  // The points so far and the steps to come make up the whole.
  ghost predicate Joined(whole: Fill, points: seq<Point>, s: int, lastData: int, all: map<int, real>, expiry: int,
                         width: int, cutoff: int)
    requires width > 0
  {
    var rest := Stepped(s, lastData, all, expiry, width, cutoff);
    whole == Fill(points + rest.points, rest.lastData)
  }

  lemma JoinOne(whole: Fill, points: seq<Point>, s: int, lastData: int, all: map<int, real>, expiry: int, width: int,
                cutoff: int)
    requires width > 0 && s < cutoff && Joined(whole, points, s, lastData, all, expiry, width, cutoff)
    ensures var one := FillAt(s, lastData, all, expiry);
            Joined(whole, points + one.points, s + width, one.lastData, all, expiry, width, cutoff)
  {
    var one := FillAt(s, lastData, all, expiry);
    var rest := Stepped(s + width, one.lastData, all, expiry, width, cutoff);
    assert points + (one.points + rest.points) == points + one.points + rest.points;
  }

  lemma JoinJump(whole: Fill, points: seq<Point>, s: int, goal: int, lastData: int, all: map<int, real>, expiry: int,
                 width: int, cutoff: int)
    requires width > 0 && s <= goal <= cutoff && Joined(whole, points, s, lastData, all, expiry, width, cutoff)
    requires OnGrid(s, width) && OnGrid(goal, width) && lastData + expiry < s
    requires forall b :: b in all ==> !(s <= b < goal)
    ensures Joined(whole, points, goal, lastData, all, expiry, width, cutoff)
  {
    JumpIsSteps(s, goal, lastData, all, expiry, width, cutoff);
  }

  // The cursor's last data is the last bucket it passed, if it passed one.
  lemma {:induction false} SteppedLast(s: int, lastData: int, buckets: map<int, real>, expiry: int, width: int,
                                       cutoff: int)
    requires width > 0 && OnGrid(s, width) && GridKeys(buckets, width)
    ensures var last := Stepped(s, lastData, buckets, expiry, width, cutoff).lastData;
            && (forall b :: b in buckets && s <= b < cutoff ==> b <= last)
            && ((last in buckets && s <= last < cutoff) ||
                   (last == lastData && forall b :: b in buckets ==> !(s <= b < cutoff)))
    decreases cutoff - s
  {
    if s < cutoff {
      NextMultiple(s, width);
      forall b | b in buckets && s < b ensures s + width <= b { Gap(s, b, width); }
      hide OnGrid;
      SteppedLast(s + width, FillAt(s, lastData, buckets, expiry).lastData, buckets, expiry, width, cutoff);
    }
  }

  /* Zero fill over all flushes. `data` is where points with data were emitted. */

  ghost predicate Near(data: set<int>, t: int, expiry: int) {
    exists d :: d in data && d < t <= d + expiry
  }

  ghost predicate DataTold(ps: seq<Point>, data: set<int>) {
    forall d :: d in data ==> At(ps, d)
  }

  // Only zeros are made up, and only within the expiry after data.
  ghost predicate ZerosOk(ps: seq<Point>, data: set<int>, expiry: int) {
    forall p :: p in ps && p.ts !in data ==> p.value == 0.0 && Near(data, p.ts, expiry)
  }

  // Every boundary within the expiry after data, before the limit if there is one, has its point.
  ghost predicate Filled(ps: seq<Point>, data: set<int>, expiry: int, width: int, limit: Option<int>)
    requires width > 0
  {
    forall d, t :: d in data && OnGrid(t, width) && d < t <= d + expiry && (limit.Some? ==> t < limit.value) ==>
        At(ps, t)
  }

  // The cursor stands on an open bucket, or its last data was emitted; no data was emitted after it.
  ghost predicate Grounded(buckets: map<int, real>, data: set<int>, next: int, lastData: int) {
    (next in buckets || lastData in data) && forall d :: d in data ==> d <= lastData
  }

  ghost function Emptied(all: map<int, real>, left: map<int, real>): set<int> {
    set b | b in all && b !in left
  }

  // What a visit's points are: the steps up to the cutoff, then open buckets.
  ghost predicate FillIs(steps: seq<Point>, open: seq<Point>, all: map<int, real>, left: map<int, real>, next: int,
                         lastData: int, expiry: int, width: int, cutoff: int)
    requires width > 0
  {
    && (forall p :: p in steps ==>
           next <= p.ts < cutoff && OnGrid(p.ts, width) && p.value == if p.ts in all then all[p.ts] else 0.0)
    && (forall t :: next <= t < cutoff && OnGrid(t, width) ==> (At(steps, t) <==> Due(t, next, lastData, all, expiry)))
    && (forall p :: p in open ==> p.ts in all && p.ts !in left)
    && (forall b :: b in left ==> cutoff <= b)
    && (forall b :: b in all ==> next <= b && OnGrid(b, width))
    && (forall b :: b in all && b !in left ==> At(steps + open, b))
  }

  lemma VisitZeros(ps: seq<Point>, data: set<int>, steps: seq<Point>, open: seq<Point>, all: map<int, real>,
                   left: map<int, real>, next: int, lastData: int, expiry: int, width: int, cutoff: int)
    requires width > 0 && FillIs(steps, open, all, left, next, lastData, expiry, width, cutoff)
    requires ZerosOk(ps, data, expiry) && Grounded(all, data, next, lastData) && forall d :: d in data ==> d < next
    ensures ZerosOk(ps + (steps + open), data + Emptied(all, left), expiry)
  {
    hide OnGrid;
    var more := data + Emptied(all, left);
    forall p | p in ps + (steps + open) && p.ts !in more ensures p.value == 0.0 && Near(more, p.ts, expiry) {
      if p in ps {
        var d :| d in data && d < p.ts <= d + expiry;
        assert d in more;
      } else {
        assert p in steps && p.ts !in all;
        assert At(steps, p.ts);
        ZeroNear(p.ts, data, all, left, next, lastData, expiry, cutoff);
      }
    }
  }

  lemma ZeroNear(t: int, data: set<int>, all: map<int, real>, left: map<int, real>, next: int, lastData: int,
                 expiry: int, cutoff: int)
    requires Due(t, next, lastData, all, expiry) && t !in all && next <= t < cutoff
    requires Grounded(all, data, next, lastData) && (forall d :: d in data ==> d < next)
    requires forall b :: b in left ==> cutoff <= b
    ensures Near(data + Emptied(all, left), t, expiry)
  {
    var more := data + Emptied(all, left);
    if b :| b in all && next <= b < t <= b + expiry {
      assert b in more;
    } else {
      assert lastData in more;
    }
  }

  lemma VisitFilled(ps: seq<Point>, data: set<int>, steps: seq<Point>, open: seq<Point>, all: map<int, real>,
                    left: map<int, real>, next: int, lastData: int, expiry: int, width: int, cutoff: int)
    requires width > 0 && FillIs(steps, open, all, left, next, lastData, expiry, width, cutoff)
    requires Filled(ps, data, expiry, width, Some(next)) && Grounded(all, data, next, lastData)
    requires forall d :: d in data ==> d < next
    ensures Filled(ps + (steps + open), data + Emptied(all, left), expiry, width,
              Some(if next < cutoff then cutoff else next))
  {
    hide OnGrid, At;
    forall d, t | d in data + Emptied(all, left) && OnGrid(t, width) && d < t <= d + expiry &&
        t < (if next < cutoff then cutoff else next)
      ensures At(ps + (steps + open), t)
    {
      AtMore(ps, steps + open, t);
      AtMore(steps, open, t);
      if next <= t {
        DueAfter(d, t, data, all, left, next, lastData, expiry);
        assert At(steps, t);
      }
    }
  }

  // Whatever is within the expiry of data emitted, before or now, is due.
  lemma DueAfter(d: int, t: int, data: set<int>, all: map<int, real>, left: map<int, real>, next: int, lastData: int,
                 expiry: int)
    requires d in data + Emptied(all, left) && d < t <= d + expiry && next <= t
    requires Grounded(all, data, next, lastData) && (forall e :: e in data ==> e < next)
    requires forall b :: b in all ==> next <= b
    ensures Due(t, next, lastData, all, expiry)
  {
    if d !in all {
      if b :| b in all && next <= b < t {
        assert d < b;
      }
    }
  }

  lemma VisitTold(ps: seq<Point>, data: set<int>, steps: seq<Point>, open: seq<Point>, all: map<int, real>,
                  left: map<int, real>, next: int, lastData: int, expiry: int, width: int, cutoff: int)
    requires width > 0 && FillIs(steps, open, all, left, next, lastData, expiry, width, cutoff) && DataTold(ps, data)
    ensures DataTold(ps + (steps + open), data + Emptied(all, left))
  {
    hide At, OnGrid, Due;
    forall d | d in data + Emptied(all, left) ensures At(ps + (steps + open), d) {
      AtMore(ps, steps + open, d);
    }
  }

  // A visit that leaves the open buckets alone leaves the cursor grounded.
  lemma VisitGrounded(data: set<int>, all: map<int, real>, left: map<int, real>, next: int, lastData: int, last: int,
                      cutoff: int)
    requires Grounded(all, data, next, lastData) && forall d :: d in data ==> d < next
    requires forall b :: b in all ==> next <= b && (b in left <==> cutoff <= b)
    requires forall b :: b in all && next <= b < cutoff ==> b <= last
    requires (last in all && next <= last < cutoff) ||
               (last == lastData && forall b :: b in all ==> !(next <= b < cutoff))
    ensures Grounded(left, data + Emptied(all, left), if next < cutoff then cutoff else next, last)
  {
  }

  // Nothing is due any more once the cursor is past the last data's expiry.
  lemma NothingDue(ps: seq<Point>, data: set<int>, expiry: int, width: int, buckets: map<int, real>, next: int,
                   lastData: int)
    requires width > 0 && Filled(ps, data, expiry, width, Some(next)) && Grounded(buckets, data, next, lastData)
    requires next > lastData + expiry
    ensures Filled(ps, data, expiry, width, None)
  {
    hide OnGrid, At;
  }
}
