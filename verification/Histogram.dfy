/**
 What a sketch's dense store means (internal/sketch/store.go): the weight of a
 list of bucketed observations, with everything more than MAX_BINS below the top
 folded into one floor bucket. Nothing here depends on the order in which the
 observations came or on how the store grew.
 */
module Histogram {
  const MAX_BINS: nat := 2048

  // Weight w in bucket k: an observation, or a whole bucket.
  datatype Bin = Bin(k: int, w: real)

  function Floor(top: int): int {
    top - MAX_BINS + 1
  }

  function Clamp(k: int, floor: int): int {
    if k < floor then floor else k
  }

  function Last<T>(h: seq<T>): T
    requires h != []
  {
    h[|h| - 1]
  }

  function Front<T>(h: seq<T>): seq<T>
    requires h != []
  {
    h[..|h| - 1]
  }

  ghost function Share(x: Bin, floor: int, j: int): real {
    if Clamp(x.k, floor) == j then x.w else 0.0
  }

  // The weight that belongs in bucket j.
  ghost function Mass(h: seq<Bin>, floor: int, j: int): real {
    if h == [] then 0.0 else Mass(Front(h), floor, j) + Share(Last(h), floor, j)
  }

  ghost function Weight(h: seq<Bin>): real {
    if h == [] then 0.0 else Weight(Front(h)) + Last(h).w
  }

  // The weight in buckets a up to b, b not included.
  ghost function Span(h: seq<Bin>, floor: int, a: int, b: int): real
    decreases b - a
  {
    if b <= a then 0.0 else Span(h, floor, a, b - 1) + Mass(h, floor, b - 1)
  }

  ghost predicate AtMost(h: seq<Bin>, top: int) {
    forall x :: x in h ==> x.k <= top
  }

  ghost predicate AtLeast(h: seq<Bin>, floor: int, low: int) {
    forall x :: x in h ==> low <= Clamp(x.k, floor)
  }

  ghost predicate Positive(h: seq<Bin>) {
    forall x :: x in h ==> x.w > 0.0
  }

  // counts, starting at bucket offset and ending at bucket top, hold exactly h.
  ghost predicate Holds(counts: seq<real>, offset: int, h: seq<Bin>, top: int) {
    && 0 < |counts| <= MAX_BINS
    && offset + |counts| - 1 == top
    && AtMost(h, top)
    && AtLeast(h, Floor(top), offset)
    && forall i :: 0 <= i < |counts| ==> counts[i] == Mass(h, Floor(top), offset + i)
  }

  ghost predicate IsTop(h: seq<Bin>, top: int) {
    AtMost(h, top) && exists x :: x in h && x.k == top
  }

  /* Sums. */

  lemma {:induction false} MassJoin(h: seq<Bin>, g: seq<Bin>, floor: int, j: int)
    ensures Mass(h + g, floor, j) == Mass(h, floor, j) + Mass(g, floor, j)
  {
    if g == [] {
      assert h + g == h;
    } else {
      assert Front(h + g) == h + Front(g) && Last(h + g) == Last(g);
      MassJoin(h, Front(g), floor, j);
    }
  }

  lemma {:induction false} WeightJoin(h: seq<Bin>, g: seq<Bin>)
    ensures Weight(h + g) == Weight(h) + Weight(g)
  {
    if g == [] {
      assert h + g == h;
    } else {
      assert Front(h + g) == h + Front(g) && Last(h + g) == Last(g);
      WeightJoin(h, Front(g));
    }
  }

  // Two floors that send the same observations to j give j the same weight.
  lemma {:induction false} MassSame(h: seq<Bin>, f: int, g: int, j: int)
    requires forall x :: x in h ==> (Clamp(x.k, f) == j <==> Clamp(x.k, g) == j)
    ensures Mass(h, f, j) == Mass(h, g, j)
  {
    if h != [] {
      assert Last(h) in h;
      MassSame(Front(h), f, g, j);
    }
  }

  lemma {:induction false} MassNone(h: seq<Bin>, f: int, j: int)
    requires forall x :: x in h ==> Clamp(x.k, f) != j
    ensures Mass(h, f, j) == 0.0
  {
    if h != [] {
      assert Last(h) in h;
      MassNone(Front(h), f, j);
    }
  }

  lemma {:induction false} SpanAdd(h: seq<Bin>, x: Bin, f: int, a: int, b: int)
    ensures Span(h + [x], f, a, b) == Span(h, f, a, b) + if a <= Clamp(x.k, f) < b then x.w else 0.0
    decreases b - a
  {
    if a < b {
      SpanAdd(h, x, f, a, b - 1);
      assert Front(h + [x]) == h;
    }
  }

  // Raising the floor to g gives bucket g everything that was at or below it.
  lemma {:induction false} MassFold(h: seq<Bin>, f: int, g: int, low: int)
    requires f <= g && AtLeast(h, f, low)
    ensures Mass(h, g, g) == Span(h, f, low, g + 1)
  {
    if h == [] {
      SpanEmpty(f, low, g + 1);
    } else {
      assert h == Front(h) + [Last(h)] && Last(h) in h;
      MassFold(Front(h), f, g, low);
      SpanAdd(Front(h), Last(h), f, low, g + 1);
    }
  }

  lemma {:induction false} SpanEmpty(f: int, a: int, b: int)
    ensures Span([], f, a, b) == 0.0
    decreases b - a
  {
    if a < b {
      SpanEmpty(f, a, b - 1);
    }
  }

  // The buckets together hold the whole weight.
  lemma {:induction false} SpanAll(h: seq<Bin>, f: int, a: int, b: int)
    requires AtLeast(h, f, a) && forall x :: x in h ==> Clamp(x.k, f) < b
    ensures Span(h, f, a, b) == Weight(h)
  {
    if h == [] {
      SpanEmpty(f, a, b);
    } else {
      assert h == Front(h) + [Last(h)] && Last(h) in h;
      SpanAll(Front(h), f, a, b);
      SpanAdd(Front(h), Last(h), f, a, b);
    }
  }

  /* Growing. */

  function Zeros(n: nat): seq<real> {
    seq(n, _ => 0.0)
  }

  // Padding below changes nothing.
  lemma PadLow(counts: seq<real>, offset: int, h: seq<Bin>, top: int, pad: nat)
    requires Holds(counts, offset, h, top) && |counts| + pad <= MAX_BINS
    ensures Holds(Zeros(pad) + counts, offset - pad, h, top)
  {
    forall i | 0 <= i < |counts| + pad ensures (Zeros(pad) + counts)[i] == Mass(h, Floor(top), offset - pad + i) {
      if i < pad {
        MassNone(h, Floor(top), offset - pad + i);
      } else {
        assert offset - pad + i == offset + (i - pad);
      }
    }
  }

  // A store that need not fold holds every observation at its own index.
  lemma Unfolded(counts: seq<real>, offset: int, h: seq<Bin>, top: int)
    requires Holds(counts, offset, h, top) && |counts| < MAX_BINS
    ensures forall x :: x in h ==> offset <= x.k
  {
  }

  // Room above for a new top, without folding.
  lemma PadHigh(counts: seq<real>, offset: int, h: seq<Bin>, top: int, k: int)
    requires Holds(counts, offset, h, top) && top < k && k - offset + 1 <= MAX_BINS
    ensures Holds(counts + Zeros(k - top), offset, h, k)
  {
    Unfolded(counts, offset, h, top);
    var out := counts + Zeros(k - top);
    forall i | 0 <= i < |out| ensures out[i] == Mass(h, Floor(k), offset + i) {
      if i < |counts| {
        MassSame(h, Floor(top), Floor(k), offset + i);
      } else {
        MassNone(h, Floor(k), offset + i);
      }
    }
  }

  // The weight of the first n buckets.
  ghost function Prefix(counts: seq<real>, n: nat): real
    requires n <= |counts|
  {
    if n == 0 then 0.0 else Prefix(counts, n - 1) + counts[n - 1]
  }

  lemma {:induction false} PrefixIsSpan(counts: seq<real>, offset: int, h: seq<Bin>, top: int, n: nat)
    requires Holds(counts, offset, h, top) && n <= |counts|
    ensures Prefix(counts, n) == Span(h, Floor(top), offset, offset + n)
  {
    if n > 0 {
      PrefixIsSpan(counts, offset, h, top, n - 1);
    }
  }

  lemma {:induction false} SpanBeyond(h: seq<Bin>, f: int, a: int, b: int, c: int)
    requires a <= b <= c && forall x :: x in h ==> Clamp(x.k, f) < b
    ensures Span(h, f, a, c) == Span(h, f, a, b)
    decreases c - b
  {
    if b < c {
      SpanBeyond(h, f, a, b, c - 1);
      MassNone(h, f, c - 1);
    }
  }

  // What is below the new floor, folded into it.
  ghost function Folded(counts: seq<real>, offset: int, k: int): seq<real>
    requires 0 < |counts| <= MAX_BINS && Floor(k) > offset
  {
    var from := Floor(k) - offset;
    var n := if from < |counts| then from else |counts|;
    var kept := counts[n..] + Zeros(MAX_BINS - (|counts| - n));
    kept[0 := kept[0] + Prefix(counts, n)]
  }

  lemma FoldHigh(counts: seq<real>, offset: int, h: seq<Bin>, top: int, k: int)
    requires Holds(counts, offset, h, top) && top < k && Floor(k) > offset
    ensures Holds(Folded(counts, offset, k), Floor(k), h, k)
  {
    var out, f := Folded(counts, offset, k), Floor(k);
    forall i | 0 <= i < MAX_BINS ensures out[i] == Mass(h, f, f + i) {
      if i > 0 {
        MassSame(h, Floor(top), f, f + i);
        if f + i > top {
          MassNone(h, f, f + i);
        } else {
          assert out[i] == counts[f - offset + i];
        }
      } else {
        FoldedFloor(counts, offset, h, top, k);
      }
    }
  }

  lemma FoldedFloor(counts: seq<real>, offset: int, h: seq<Bin>, top: int, k: int)
    requires Holds(counts, offset, h, top) && top < k && Floor(k) > offset
    ensures Folded(counts, offset, k)[0] == Mass(h, Floor(k), Floor(k))
  {
    var f, from := Floor(k), Floor(k) - offset;
    MassFold(h, Floor(top), f, offset);
    if from < |counts| {
      PrefixIsSpan(counts, offset, h, top, from + 1);
    } else {
      PrefixIsSpan(counts, offset, h, top, |counts|);
      SpanBeyond(h, Floor(top), offset, top + 1, f + 1);
    }
  }

  // One more observation.
  lemma AddOne(counts: seq<real>, offset: int, h: seq<Bin>, top: int, x: Bin)
    requires Holds(counts, offset, h, top) && x.k <= top && (x.k < offset ==> offset == Floor(top))
    ensures var i := if x.k < offset then 0 else x.k - offset;
            Holds(counts[i := counts[i] + x.w], offset, h + [x], top)
  {
    var i := if x.k < offset then 0 else x.k - offset;
    var after := counts[i := counts[i] + x.w];
    assert Clamp(x.k, Floor(top)) == offset + i;
    assert Front(h + [x]) == h;
    forall n | 0 <= n < |after| ensures after[n] == Mass(h + [x], Floor(top), offset + n) {
    }
  }

  /* Merging: the other store's buckets, added one by one. */

  // The non-empty ones among the first n buckets, as observations.
  function AsBins(counts: seq<real>, offset: int, n: nat): seq<Bin>
    requires n <= |counts|
  {
    if n == 0 then []
    else AsBins(counts, offset, n - 1) + (if counts[n - 1] != 0.0 then [Bin(offset + n - 1, counts[n - 1])] else [])
  }

  // Ascending, and exactly the non-empty buckets.
  lemma {:induction false} AsBinsAre(counts: seq<real>, offset: int, h: seq<Bin>, top: int, n: nat)
    requires Holds(counts, offset, h, top) && n <= |counts|
    ensures var bins := AsBins(counts, offset, n);
            && (forall i, j :: 0 <= i < j < |bins| ==> bins[i].k < bins[j].k)
            && (forall b :: b in bins <==> offset <= b.k < offset + n && b.w == Mass(h, Floor(top), b.k) != 0.0)
  {
    if n > 0 {
      AsBinsAre(counts, offset, h, top, n - 1);
      assert counts[n - 1] == Mass(h, Floor(top), offset + (n - 1));
      hide Mass, Holds;
    }
  }

  lemma {:induction false} AsBinsAbove(counts: seq<real>, offset: int, n: nat, g: int, j: int)
    requires n <= |counts| && j > g
    ensures Mass(AsBins(counts, offset, n), g, j) == if 0 <= j - offset < n then counts[j - offset] else 0.0
  {
    if n > 0 {
      AsBinsAbove(counts, offset, n - 1, g, j);
      AsBinsStep(counts, offset, n, g, j);
    }
  }

  lemma AsBinsStep(counts: seq<real>, offset: int, n: nat, g: int, j: int)
    requires 0 < n <= |counts|
    ensures Mass(AsBins(counts, offset, n), g, j)
         == Mass(AsBins(counts, offset, n - 1), g, j) + Share(Bin(offset + n - 1, counts[n - 1]), g, j)
    ensures Weight(AsBins(counts, offset, n)) == Weight(AsBins(counts, offset, n - 1)) + counts[n - 1]
  {
    var before, x := AsBins(counts, offset, n - 1), Bin(offset + n - 1, counts[n - 1]);
    assert Front(before + [x]) == before && Last(before + [x]) == x;
    assert before + [] == before;
  }

  ghost function UpTo(offset: int, n: nat, g: int): nat {
    if g + 1 - offset < 0 then 0 else if g + 1 - offset < n then g + 1 - offset else n
  }

  lemma {:induction false} AsBinsFloor(counts: seq<real>, offset: int, n: nat, g: int)
    requires n <= |counts|
    ensures Mass(AsBins(counts, offset, n), g, g) == Prefix(counts, UpTo(offset, n, g))
    ensures Weight(AsBins(counts, offset, n)) == Prefix(counts, n)
  {
    if n > 0 {
      hide Mass, UpTo, Share;
      AsBinsFloor(counts, offset, n - 1, g);
      AsBinsStep(counts, offset, n, g, g);
      PrefixUpTo(counts, offset, n, g);
    }
  }

  lemma PrefixUpTo(counts: seq<real>, offset: int, n: nat, g: int)
    requires 0 < n <= |counts|
    ensures Prefix(counts, UpTo(offset, n, g)) == Prefix(counts,
              UpTo(offset, n - 1, g)) + Share(Bin(offset + n - 1, counts[n - 1]), g, g)
  {
    if g + 1 - offset >= n {
      assert UpTo(offset, n, g) == n && UpTo(offset, n - 1, g) == n - 1;
    } else {
      assert UpTo(offset, n, g) == UpTo(offset, n - 1, g);
    }
  }

  // Folded to any higher floor, the buckets weigh what the observations behind them weigh.
  lemma BucketsWeigh(counts: seq<real>, offset: int, h: seq<Bin>, top: int, above: int, j: int)
    requires Holds(counts, offset, h, top) && top <= above
    ensures Mass(AsBins(counts, offset, |counts|), Floor(above), j) == Mass(h, Floor(above), j)
    ensures Weight(AsBins(counts, offset, |counts|)) == Weight(h)
  {
    hide Mass, AsBins, Weight, Prefix, Span, Holds;
    var g, n := Floor(above), |counts|;
    BucketsTotal(counts, offset, h, top, g);
    if j < g {
      MassNone(h, g, j);
      MassNone(AsBins(counts, offset, n), g, j);
    } else if j > g {
      BucketsAbove(counts, offset, h, top, g, j);
    } else {
      BucketsFold(counts, offset, h, top, g);
    }
  }

  lemma BucketsTotal(counts: seq<real>, offset: int, h: seq<Bin>, top: int, g: int)
    requires Holds(counts, offset, h, top)
    ensures Mass(AsBins(counts, offset, |counts|), g, g) == Prefix(counts, UpTo(offset, |counts|, g))
    ensures Weight(AsBins(counts, offset, |counts|)) == Weight(h)
  {
    AsBinsFloor(counts, offset, |counts|, g);
    PrefixIsSpan(counts, offset, h, top, |counts|);
    SpanAll(h, Floor(top), offset, top + 1);
  }

  lemma BucketsAbove(counts: seq<real>, offset: int, h: seq<Bin>, top: int, g: int, j: int)
    requires Holds(counts, offset, h, top) && Floor(top) <= g < j
    ensures Mass(AsBins(counts, offset, |counts|), g, j) == Mass(h, g, j)
  {
    AsBinsAbove(counts, offset, |counts|, g, j);
    MassSame(h, Floor(top), g, j);
    if !(0 <= j - offset < |counts|) {
      MassNone(h, Floor(top), j);
    }
  }

  lemma BucketsFold(counts: seq<real>, offset: int, h: seq<Bin>, top: int, g: int)
    requires Holds(counts, offset, h, top) && Floor(top) <= g
    ensures Prefix(counts, UpTo(offset, |counts|, g)) == Mass(h, g, g)
  {
    MassFold(h, Floor(top), g, offset);
    PrefixIsSpan(counts, offset, h, top, UpTo(offset, |counts|, g));
    if g + 1 - offset > |counts| {
      SpanBeyond(h, Floor(top), offset, top + 1, g + 1);
    }
  }

  // A store that took in another's buckets holds both histories.
  lemma MergedHolds(counts: seq<real>, offset: int, h: seq<Bin>, above: int, other: seq<real>, at: int, g: seq<Bin>,
                    top: int)
    requires Holds(other, at, g, top) && Positive(g) && top <= above
    requires Holds(counts, offset, h + AsBins(other, at, |other|), above)
    ensures Holds(counts, offset, h + g, above)
  {
    hide Mass, AsBins, Weight;
    var p, f := AsBins(other, at, |other|), Floor(above);
    forall i | 0 <= i < |counts| ensures counts[i] == Mass(h + g, f, offset + i) {
      MergedMass(h, above, other, at, g, top, offset + i);
    }
    assert AtLeast(h + g, f, offset) by { MergedLow(counts, offset, h, above, other, at, g, top); }
    assert AtMost(h + g, above) by {
      forall x | x in h + g ensures x.k <= above {
        assert x in h ==> x in h + p;
      }
    }
  }

  lemma MergedMass(h: seq<Bin>, above: int, other: seq<real>, at: int, g: seq<Bin>, top: int, j: int)
    requires Holds(other, at, g, top) && top <= above
    ensures Mass(h + AsBins(other, at, |other|), Floor(above), j) == Mass(h + g, Floor(above), j)
  {
    hide Mass, AsBins, Weight, Holds;
    MassJoin(h, AsBins(other, at, |other|), Floor(above), j);
    MassJoin(h, g, Floor(above), j);
    BucketsWeigh(other, at, g, top, above, j);
  }

  // No observation of the other store lies below the merged store's lowest bucket: its bucket is not empty
  // there, as weights are positive, so it was added.
  lemma MergedLow(counts: seq<real>, offset: int, h: seq<Bin>, above: int, other: seq<real>, at: int, g: seq<Bin>,
                  top: int)
    requires Holds(other, at, g, top) && Positive(g) && top <= above
    requires Holds(counts, offset, h + AsBins(other, at, |other|), above)
    ensures AtLeast(h + g, Floor(above), offset)
  {
    var p := AsBins(other, at, |other|);
    forall x | x in h + g ensures offset <= Clamp(x.k, Floor(above)) {
      if x in h {
        assert x in h + p;
      } else {
        var b := Clamp(x.k, Floor(top));
        MassPositive(g, Floor(top), x);
        AsBinsHas(other, at, |other|, b - at);
        assert Bin(b, other[b - at]) in h + p;
      }
    }
  }

  lemma {:induction false} MassPositive(h: seq<Bin>, f: int, x: Bin)
    requires Positive(h) && x in h
    ensures Mass(h, f, Clamp(x.k, f)) > 0.0
  {
    assert Last(h) in h;
    MassNonNegative(Front(h), f, Clamp(x.k, f));
    if x in Front(h) {
      MassPositive(Front(h), f, x);
    }
  }

  lemma {:induction false} MassNonNegative(h: seq<Bin>, f: int, j: int)
    requires Positive(h)
    ensures Mass(h, f, j) >= 0.0
  {
    if h != [] {
      assert Last(h) in h;
      MassNonNegative(Front(h), f, j);
    }
  }

  lemma {:induction false} AsBinsHas(counts: seq<real>, offset: int, n: nat, i: nat)
    requires i < n <= |counts| && counts[i] != 0.0
    ensures Bin(offset + i, counts[i]) in AsBins(counts, offset, n)
  {
    if i < n - 1 {
      AsBinsHas(counts, offset, n - 1, i);
      assert Bin(offset + i, counts[i]) in AsBins(counts, offset, n - 1);
    }
  }

  /* What the buckets are does not depend on the order of the observations. */

  // The non-empty buckets, ascending: what the wire carries and the quantile walks.
  ghost predicate IsBins(bins: seq<Bin>, h: seq<Bin>, top: int) {
    && (forall i, j :: 0 <= i < j < |bins| ==> bins[i].k < bins[j].k)
    && (forall b :: b in bins <==> b.w == Mass(h, Floor(top), b.k) != 0.0)
  }

  // ... of a store that has seen h, which may be nothing.
  ghost predicate AreBins(bins: seq<Bin>, h: seq<Bin>) {
    if h == [] then bins == [] else exists top :: IsTop(h, top) && IsBins(bins, h, top)
  }

  lemma HeldBins(counts: seq<real>, offset: int, h: seq<Bin>, top: int)
    requires Holds(counts, offset, h, top)
    ensures IsBins(AsBins(counts, offset, |counts|), h, top)
  {
    AsBinsAre(counts, offset, h, top, |counts|);
    forall j | j < offset || j > top ensures Mass(h, Floor(top), j) == 0.0 {
      MassNone(h, Floor(top), j);
    }
  }

  lemma {:induction false} MassWithout(h: seq<Bin>, i: nat, f: int, j: int)
    requires i < |h|
    ensures Mass(h, f, j) == Mass(h[..i] + h[i + 1..], f, j) + Share(h[i], f, j)
  {
    MassJoin(h[..i], h[i..], f, j);
    MassJoin(h[..i], h[i + 1..], f, j);
    MassJoin([h[i]], h[i + 1..], f, j);
    assert h[..i] + h[i..] == h && [h[i]] + h[i + 1..] == h[i..];
    assert Front([h[i]]) == [];
  }

  lemma {:induction false} MassOrder(h: seq<Bin>, g: seq<Bin>, f: int, j: int)
    requires multiset(h) == multiset(g)
    ensures Mass(h, f, j) == Mass(g, f, j)
  {
    if h == [] {
      assert |g| == |multiset(g)|;
    } else {
      var x := Last(h);
      var i := FindIn(h, g);
      hide Mass;
      MassOrder(Front(h), g[..i] + g[i + 1..], f, j);
      MassWithout(g, i, f, j);
      assert Mass(h, f, j) == Mass(Front(h), f, j) + Share(x, f, j) by { MassLast(h, f, j); }
    }
  }

  lemma MassLast(h: seq<Bin>, f: int, j: int)
    requires h != []
    ensures Mass(h, f, j) == Mass(Front(h), f, j) + Share(Last(h), f, j)
  {
  }

  lemma FindIn<T>(h: seq<T>, g: seq<T>) returns (i: nat)
    requires h != [] && multiset(h) == multiset(g)
    ensures i < |g| && g[i] == Last(h) && multiset(Front(h)) == multiset(g[..i] + g[i + 1..])
  {
    var x := Last(h);
    assert x in multiset(h);
    assert x in g;
    i :| 0 <= i < |g| && g[i] == x;
    CutOut(g, i);
    CutOut(h, |h| - 1);
    assert h[..|h| - 1] + h[|h|..] == Front(h);
    Cancel(multiset(Front(h)), multiset(g[..i] + g[i + 1..]), x);
  }

  lemma CutOut<T>(h: seq<T>, i: nat)
    requires i < |h|
    ensures multiset(h) == multiset(h[..i] + h[i + 1..]) + multiset{h[i]}
  {
    assert h == h[..i] + [h[i]] + h[i + 1..];
  }

  lemma Cancel<T>(a: multiset<T>, b: multiset<T>, x: T)
    requires a + multiset{x} == b + multiset{x}
    ensures a == b
  {
    assert a == (a + multiset{x}) - multiset{x};
    assert b == (b + multiset{x}) - multiset{x};
  }

  // History independence: stores that saw the same observations, in any order and through any adds and
  // merges, have the same top and the same buckets.
  lemma SameBins(h: seq<Bin>, g: seq<Bin>, top: int, top': int, bins: seq<Bin>, bins': seq<Bin>)
    requires multiset(h) == multiset(g) && IsTop(h, top) && IsTop(g, top')
    requires IsBins(bins, h, top) && IsBins(bins', g, top')
    ensures top == top' && bins == bins'
  {
    assert forall x :: x in multiset(h) <==> x in h;
    assert forall x :: x in multiset(g) <==> x in g;
    forall j ensures Mass(h, Floor(top), j) == Mass(g, Floor(top), j) {
      MassOrder(h, g, Floor(top), j);
    }
    SameSorted(bins, bins');
  }

  /* Buckets taken as observations: what a decoder sees. */

  // A list of bins weighs in each bucket what the list says.
  lemma {:induction false} MassOfBins(bins: seq<Bin>, f: int, j: int)
    requires forall i, n :: 0 <= i < n < |bins| ==> bins[i].k < bins[n].k
    requires forall b :: b in bins ==> f <= b.k
    ensures forall b :: b in bins && b.k == j ==> Mass(bins, f, j) == b.w
    ensures (forall b :: b in bins ==> b.k != j) ==> Mass(bins, f, j) == 0.0
  {
    if bins != [] {
      var front, last := Front(bins), Last(bins);
      assert last in bins && forall b :: b in bins <==> b in front || b == last;
      MassOfBins(front, f, j);
      if last.k == j {
        forall b | b in front ensures b.k != j {
          var i :| 0 <= i < |front| && front[i] == b;
          assert bins[i] == b;
        }
      }
    }
  }

  // The bins of h weigh, bucket by bucket and together, what h weighs.
  lemma RebuiltMass(bins: seq<Bin>, h: seq<Bin>, top: int, j: int)
    requires IsBins(bins, h, top)
    ensures Mass(bins, Floor(top), j) == Mass(h, Floor(top), j)
  {
    forall b | b in bins ensures Floor(top) <= b.k {
      if b.k < Floor(top) {
        MassNone(h, Floor(top), b.k);
      }
    }
    hide Mass;
    MassOfBins(bins, Floor(top), j);
    var b := Bin(j, Mass(h, Floor(top), j));
    assert b in bins <==> b.w != 0.0;
  }

  // A store filled from the bins of h holds h.
  lemma Rebuilt(counts: seq<real>, offset: int, bins: seq<Bin>, h: seq<Bin>, top: int)
    requires IsBins(bins, h, top) && Holds(counts, offset, bins, top) && Positive(h) && AtMost(h, top)
    ensures Holds(counts, offset, h, top) && Weight(bins) == Weight(h)
  {
    var f := Floor(top);
    forall i | 0 <= i < |counts| ensures counts[i] == Mass(h, f, offset + i) {
      RebuiltMass(bins, h, top, offset + i);
    }
    forall x | x in h ensures offset <= Clamp(x.k, f) {
      MassPositive(h, f, x);
      assert Bin(Clamp(x.k, f), Mass(h, f, Clamp(x.k, f))) in bins;
    }
    hide Mass, Weight;
    SpanAll(bins, f, offset, top + 1);
    SpanAll(h, f, offset, top + 1);
    SpanSame(bins, h, top, offset, top + 1);
  }

  lemma {:induction false} SpanSame(bins: seq<Bin>, h: seq<Bin>, top: int, a: int, b: int)
    requires IsBins(bins, h, top)
    ensures Span(bins, Floor(top), a, b) == Span(h, Floor(top), a, b)
    decreases b - a
  {
    if a < b {
      SpanSame(bins, h, top, a, b - 1);
      RebuiltMass(bins, h, top, b - 1);
    }
  }

  // The last bin is the top.
  lemma LastIsTop(bins: seq<Bin>, h: seq<Bin>, top: int)
    requires IsBins(bins, h, top) && IsTop(h, top) && Positive(h)
    ensures bins != [] && Last(bins).k == top && IsTop(bins, top) && Positive(bins)
  {
    var x :| x in h && x.k == top;
    MassPositive(h, Floor(top), x);
    var b := Bin(top, Mass(h, Floor(top), top));
    assert b in bins;
    forall c | c in bins ensures c.k <= top && c.w > 0.0 {
      MassNonNegative(h, Floor(top), c.k);
      if c.k > top {
        MassNone(h, Floor(top), c.k);
      }
    }
    assert Last(bins) in bins;
  }

  lemma {:induction false} SameSorted(a: seq<Bin>, b: seq<Bin>)
    requires forall i, j :: 0 <= i < j < |a| ==> a[i].k < a[j].k
    requires forall i, j :: 0 <= i < j < |b| ==> b[i].k < b[j].k
    requires forall x :: x in a <==> x in b
    ensures a == b
  {
    HeadIn(a);
    HeadIn(b);
    if a != [] {
      assert a[0] == b[0];
      assert forall x :: x in a <==> x == a[0] || x in a[1..];
      assert forall x :: x in b <==> x == b[0] || x in b[1..];
      SameSorted(a[1..], b[1..]);
    }
  }

  lemma HeadIn(a: seq<Bin>)
    ensures a == [] || a[0] in a
  {
  }
}
