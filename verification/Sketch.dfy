/**
 DDSketch (internal/sketch/sketch.go): two dense stores, a zero counter and exact
 aggregates. Whatever was added and merged, in whatever order, a quantile is
 within alpha of the order statistic of everything seen.
 */
module Sketch {
  import opened Options
  import opened Histogram
  import opened SketchRank
  import opened SketchOrder
  import opened SketchBins

  /* The samples behind the two stores. */

  predicate OnSide(x: Sample, neg: bool) {
    if neg then x.v < 0.0 else x.v > 0.0
  }

  ghost function BinsOf(h: seq<Sample>, neg: bool): seq<Bin> {
    if h == [] then []
    else
      var x := h[|h| - 1];
      BinsOf(h[..|h| - 1], neg) + if OnSide(x, neg) then [Bin(Index(x.k), x.w)] else []
  }

  // Every sample has a positive weight and its true logarithm.
  ghost predicate SamplesOk(h: seq<Sample>, g: real) {
    forall x :: x in h ==> x.w > 0.0 && (x.v != 0.0 ==> IsLog(g, Abs(x.v), x.k))
  }

  lemma {:induction false} BinsJoin(h: seq<Sample>, g: seq<Sample>, neg: bool)
    ensures BinsOf(h + g, neg) == BinsOf(h, neg) + BinsOf(g, neg)
  {
    if g == [] {
      assert h + g == h;
    } else {
      var n := |g| - 1;
      assert (h + g)[..|h + g| - 1] == h + g[..n];
      BinsJoin(h, g[..n], neg);
    }
  }

  // The bucket a sample is counted in, when the store's floor is f.
  function Cell(x: Sample, f: int): int {
    Clamp(Index(x.k), f)
  }

  ghost function Under(neg: bool, f: int, k: int): Sample -> bool {
    (x: Sample) => OnSide(x, neg) && Cell(x, f) < k
  }

  ghost function Side(neg: bool): Sample -> bool {
    (x: Sample) => OnSide(x, neg)
  }

  // The buckets below k weigh what the samples in them weigh.
  lemma {:induction false} SideSpan(h: seq<Sample>, neg: bool, f: int, a: int, k: int)
    requires AtLeast(BinsOf(h, neg), f, a)
    ensures Span(BinsOf(h, neg), f, a, k) == Sum(h, Under(neg, f, k))
  {
    if h == [] {
      SpanEmpty(f, a, k);
    } else {
      var n := |h| - 1;
      var before, x := BinsOf(h[..n], neg), Bin(Index(h[n].k), h[n].w);
      assert forall b :: b in before ==> b in BinsOf(h, neg);
      SideSpan(h[..n], neg, f, a, k);
      if OnSide(h[n], neg) {
        SpanAdd(before, x, f, a, k);
        assert x in BinsOf(h, neg);
      } else {
        assert BinsOf(h, neg) == before;
      }
    }
  }

  lemma {:induction false} SideWeight(h: seq<Sample>, neg: bool)
    ensures Weight(BinsOf(h, neg)) == Sum(h, Side(neg))
  {
    if h != [] {
      var n := |h| - 1;
      var before, x := BinsOf(h[..n], neg), Bin(Index(h[n].k), h[n].w);
      SideWeight(h[..n], neg);
      if OnSide(h[n], neg) {
        assert Front(before + [x]) == before && Last(before + [x]) == x;
      } else {
        assert BinsOf(h, neg) == before;
      }
    }
  }

  /* Where a walk stops. */

  // The samples a walk has passed once it is through the negative buckets from k up.
  ghost function NegFrom(f: int, k: int): Sample -> bool {
    (x: Sample) => x.v < 0.0 && Cell(x, f) >= k
  }

  // ... and once it is through the positive buckets below k.
  ghost function PosBelow(f: int, k: int): Sample -> bool {
    (x: Sample) => x.v <= 0.0 || Cell(x, f) < k
  }

  lemma CellOrder(h: seq<Sample>, g: real, x: Sample, y: Sample, f: int)
    requires SamplesOk(h, g) && x in h && y in h && x.v != 0.0 && y.v != 0.0 && Abs(x.v) <= Abs(y.v)
    ensures Cell(x, f) <= Cell(y, f)
  {
    if y.k < x.k {
      LogOrder(g, Abs(y.v), y.k, Abs(x.v), x.k);
    }
  }

  lemma NegFromClosed(h: seq<Sample>, g: real, f: int, k: int)
    requires SamplesOk(h, g)
    ensures DownClosed(h, NegFrom(f, k))
  {
    forall x, y | x in h && y in h && NegFrom(f, k)(y) && x.v <= y.v ensures NegFrom(f, k)(x) {
      CellOrder(h, g, y, x, f);
    }
  }

  lemma PosBelowClosed(h: seq<Sample>, g: real, f: int, k: int)
    requires SamplesOk(h, g)
    ensures DownClosed(h, PosBelow(f, k))
  {
    forall x, y | x in h && y in h && PosBelow(f, k)(y) && x.v <= y.v ensures PosBelow(f, k)(x) {
      if x.v > 0.0 {
        CellOrder(h, g, x, y, f);
      }
    }
  }

  // The negative walk stopped in bucket k: so the order statistic is negative and counted there.
  lemma StopsNegative(h: seq<Sample>, g: real, f: int, k: int, rank: real, x: Sample)
    requires SamplesOk(h, g) && x in h && IsRank(h, x.v, rank)
    requires Sum(h, Side(true)) - Sum(h, Under(true, f, k + 1)) <= rank < Sum(h, Side(true)) - Sum(h, Under(true, f, k))
    ensures x.v < 0.0 && Cell(x, f) == k
  {
    NegFromClosed(h, g, f, k);
    NegFromClosed(h, g, f, k + 1);
    SumSplit(h, NegFrom(f, k), Under(true, f, k), Side(true));
    SumSplit(h, NegFrom(f, k + 1), Under(true, f, k + 1), Side(true));
    RankIn(h, NegFrom(f, k + 1), NegFrom(f, k), rank, x);
  }

  ghost function IsZero(): Sample -> bool {
    (x: Sample) => x.v == 0.0
  }

  lemma StopsZero(h: seq<Sample>, g: real, rank: real, x: Sample)
    requires SamplesOk(h, g) && x in h && IsRank(h, x.v, rank)
    requires Sum(h, Side(true)) <= rank < Sum(h, Side(true)) + Sum(h, IsZero())
    ensures x.v == 0.0
  {
    var upTo := (x: Sample) => x.v <= 0.0;
    SumSplit(h, Side(true), IsZero(), upTo);
    RankIn(h, Side(true), upTo, rank, x);
  }

  lemma StopsPositive(h: seq<Sample>, g: real, f: int, k: int, rank: real, x: Sample)
    requires SamplesOk(h, g) && x in h && IsRank(h, x.v, rank)
    requires var start := Sum(h, Side(true)) + Sum(h, IsZero());
             start + Sum(h, Under(false, f, k)) <= rank < start + Sum(h, Under(false, f, k + 1))
    ensures x.v > 0.0 && Cell(x, f) == k
  {
    PosBelowClosed(h, g, f, k);
    PosBelowClosed(h, g, f, k + 1);
    var upTo := (x: Sample) => x.v <= 0.0;
    SumSplit(h, Side(true), IsZero(), upTo);
    SumSplit(h, upTo, Under(false, f, k), PosBelow(f, k));
    SumSplit(h, upTo, Under(false, f, k + 1), PosBelow(f, k + 1));
    RankIn(h, PosBelow(f, k), PosBelow(f, k + 1), rank, x);
  }

  /* Answers. */

  datatype Answer = BadQuantile | NoData | Value(v: real)

  ghost predicate IsMin(h: seq<Sample>, m: Option<real>) {
    if h == [] then m == None
    else m.Some? && (exists x :: x in h && x.v == m.value) && forall x :: x in h ==> m.value <= x.v
  }

  ghost predicate IsMax(h: seq<Sample>, m: Option<real>) {
    if h == [] then m == None
    else m.Some? && (exists x :: x in h && x.v == m.value) && forall x :: x in h ==> x.v <= m.value
  }

  function Scaled(v: real, w: real): real {
    v * w
  }

  ghost function Times(h: seq<Sample>): real {
    if h == [] then 0.0 else Times(h[..|h| - 1]) + Scaled(h[|h| - 1].v, h[|h| - 1].w)
  }

  lemma {:induction false} TimesJoin(h: seq<Sample>, g: seq<Sample>)
    ensures Times(h + g) == Times(h) + Times(g)
  {
    if g == [] {
      assert h + g == h;
    } else {
      var n := |g| - 1;
      assert (h + g)[..|h + g| - 1] == h + g[..n];
      TimesJoin(h, g[..n]);
    }
  }

  // A sample is told apart from others if its logarithm fits 32 bits and is less than 2048 below that of any other
  // sample of its sign. Otherwise it is counted in a bucket that may not be its own.
  ghost predicate Separate(h: seq<Sample>, x: Sample) {
    x.v != 0.0 ==>
      && -0x8000_0000 <= x.k <= 0x7FFF_FFFF
      && forall y :: y in h && (if x.v < 0.0 then y.v < 0.0 else y.v > 0.0) ==> y.k < x.k + 2048
  }

  lemma {:induction false} BinFrom(h: seq<Sample>, neg: bool, b: Bin) returns (x: Sample)
    requires b in BinsOf(h, neg)
    ensures x in h && OnSide(x, neg) && b.k == Index(x.k)
  {
    var n := |h| - 1;
    if b in BinsOf(h[..n], neg) {
      x := BinFrom(h[..n], neg, b);
    } else {
      x := h[n];
    }
  }

  // A sample told apart is counted in its own bucket.
  lemma OwnCell(h: seq<Sample>, x: Sample, top: int)
    requires x.v != 0.0 && IsTop(BinsOf(h, x.v < 0.0), top) && Separate(h, x)
    ensures Cell(x, Floor(top)) == x.k
  {
    var b :| b in BinsOf(h, x.v < 0.0) && b.k == top;
    var y := BinFrom(h, x.v < 0.0, b);
  }

  // r answers for the order statistic x: exactly at zero, and within alpha unless x was folded.
  ghost predicate Answers(g: real, h: seq<Sample>, r: real, x: Sample)
    requires g > 1.0
  {
    && (x.v == 0.0 ==> r == 0.0)
    && (Separate(h, x) ==> Near(g, r, x.v))
  }

  function ClampTo(v: real, min: real, max: real): real {
    if v < min then min else if v > max then max else v
  }

  // min <= v <= max, so clamping an estimate of v does not take it further from v.
  lemma ClampNear(g: real, r: real, v: real, min: real, max: real)
    requires g > 1.0 && Near(g, r, v) && min <= v <= max
    ensures Near(g, ClampTo(r, min, max), v)
  {
    hide Abs;
    assert Abs(ClampTo(r, min, max) - v) <= Abs(r - v) by { ClampCloser(r, v, min, max); }
  }

  lemma ClampCloser(r: real, v: real, min: real, max: real)
    requires min <= v <= max
    ensures Abs(ClampTo(r, min, max) - v) <= Abs(r - v)
  {
  }

  /* One sample more, or another sketch's. */

  lemma BothSeen(h: seq<Sample>, g: seq<Sample>)
    ensures var t := h + g;
            && BinsOf(t, false) == BinsOf(h, false) + BinsOf(g, false)
            && BinsOf(t, true) == BinsOf(h, true) + BinsOf(g, true)
            && Sum(t, IsZero()) == Sum(h, IsZero()) + Sum(g, IsZero())
            && Sum(t, All()) == Sum(h, All()) + Sum(g, All())
            && Times(t) == Times(h) + Times(g)
  {
    BinsJoin(h, g, false);
    BinsJoin(h, g, true);
    SumJoin(h, g, IsZero());
    SumJoin(h, g, All());
    TimesJoin(h, g);
  }

  // The running minimum and maximum of two lots of samples.
  function Lower(a: Option<real>, b: Option<real>): Option<real> {
    if b.Some? && (a.None? || b.value < a.value) then b else a
  }

  function Higher(a: Option<real>, b: Option<real>): Option<real> {
    if b.Some? && (a.None? || b.value > a.value) then b else a
  }

  lemma MinBoth(h: seq<Sample>, a: Option<real>, g: seq<Sample>, b: Option<real>)
    requires IsMin(h, a) && IsMin(g, b)
    ensures IsMin(h + g, Lower(a, b))
  {
    var t := h + g;
    assert forall x :: x in t <==> x in h || x in g;
    if t != [] {
      assert h != [] || g != [];
    }
  }

  lemma MaxBoth(h: seq<Sample>, a: Option<real>, g: seq<Sample>, b: Option<real>)
    requires IsMax(h, a) && IsMax(g, b)
    ensures IsMax(h + g, Higher(a, b))
  {
    var t := h + g;
    assert forall x :: x in t <==> x in h || x in g;
    if t != [] {
      assert h != [] || g != [];
    }
  }

  lemma OneSample(x: Sample, gamma: real)
    requires x.w > 0.0 && (x.v != 0.0 ==> IsLog(gamma, Abs(x.v), x.k))
    ensures IsMin([x], Some(x.v)) && IsMax([x], Some(x.v)) && SamplesOk([x], gamma)
    ensures Sum([x], All()) == x.w && Times([x]) == Scaled(x.v, x.w) && Sum([x], IsZero()) == if x.v == 0.0 then x.w
              else 0.0
    ensures BinsOf([x], false) == if x.v > 0.0 then [Bin(Index(x.k), x.w)] else []
    ensures BinsOf([x], true) == if x.v < 0.0 then [Bin(Index(x.k), x.w)] else []
  {
    hide IsLog, Index, Scaled;
    assert x in [x] && [x][..0] == [];
  }

  lemma SamplesJoin(h: seq<Sample>, g: seq<Sample>, gamma: real)
    requires SamplesOk(h, gamma) && SamplesOk(g, gamma)
    ensures SamplesOk(h + g, gamma)
  {
    hide IsLog;
  }

  lemma CountZero(h: seq<Sample>)
    requires Weighed(h)
    ensures if h == [] then Sum(h, All()) == 0.0 else Sum(h, All()) > 0.0
  {
    if h != [] {
      assert h[0] in h;
      SumHas(h, All(), h[0]);
    }
  }

  // Some sample is at every rank below the count.
  lemma SomeRank(h: seq<Sample>, rank: real, max: real)
    requires Weighed(h) && 0.0 <= rank < Sum(h, All()) && IsMax(h, Some(max))
    ensures exists x :: x in h && IsRank(h, x.v, rank)
  {
    SumGrows(h, All(), (x: Sample) => x.v <= max);
    var x := RankExists(h, rank, max);
  }

  // Negatives, zeros and positives are all there is.
  lemma ThreeParts(h: seq<Sample>)
    ensures Sum(h, All()) == Sum(h, Side(true)) + Sum(h, IsZero()) + Sum(h, Side(false))
  {
    var upTo := (x: Sample) => x.v <= 0.0;
    SumSplit(h, Side(true), IsZero(), upTo);
    SumSplit(h, upTo, Side(false), All());
  }

  /* The walks. */

  ghost function WeightBelow(s: Store, k: int): real
    reads s
  {
    Span(s.seen, Floor(s.Top()), s.offset, k)
  }

  // From the top bucket down, until more than rank has been seen.
  method WalkDown(s: Store, rank: real) returns (seen: real, found: Option<int>)
    requires s.Valid() && rank >= 0.0
    ensures found.None? ==> seen == Weight(s.seen) <= rank
    ensures found.Some? ==> s.len > 0
    ensures found.Some? ==>
              Weight(s.seen) - WeightBelow(s, found.value + 1) <= rank < Weight(s.seen) - WeightBelow(s, found.value)
  {
    seen, found := 0.0, None;
    var i := s.len;
    if i > 0 {
      WholeSpan(s);
    }
    while i > 0
      invariant 0 <= i <= s.len && found == None && seen <= rank
      invariant s.len > 0 ==> seen == Weight(s.seen) - WeightBelow(s, s.offset + i)
      invariant s.len == 0 ==> seen == 0.0
    {
      i := i - 1;
      assert s.slots[..s.len][i] == Mass(s.seen, Floor(s.Top()), s.offset + i);
      var c := s.slots[i];
      if c != 0.0 {
        seen := seen + c;
        if seen > rank {
          found := Some(s.offset + i);
          return;
        }
      }
    }
  }

  lemma WholeSpan(s: Store)
    requires s.Valid() && s.len > 0
    ensures WeightBelow(s, s.offset + s.len) == Weight(s.seen)
  {
    SpanAll(s.seen, Floor(s.Top()), s.offset, s.offset + s.len);
  }

  // From the bottom bucket up, with start already seen.
  method WalkUp(s: Store, rank: real, start: real) returns (seen: real, found: Option<int>)
    requires s.Valid() && start <= rank
    ensures found.None? ==> seen == start + Weight(s.seen) <= rank
    ensures found.Some? ==> s.len > 0
    ensures found.Some? ==>
              start + WeightBelow(s, found.value) <= rank < start + WeightBelow(s, found.value + 1)
  {
    seen, found := start, None;
    var i := 0;
    if s.len > 0 {
      WholeSpan(s);
    }
    while i < s.len
      invariant 0 <= i <= s.len && found == None && seen <= rank
      invariant seen == start + WeightBelow(s, s.offset + i)
    {
      assert s.slots[..s.len][i] == Mass(s.seen, Floor(s.Top()), s.offset + i);
      var c := s.slots[i];
      if c != 0.0 {
        seen := seen + c;
        if seen > rank {
          found := Some(s.offset + i);
          return;
        }
      }
      i := i + 1;
    }
  }

  // What is reported for a sample: the estimate of the bucket it is counted in, kept within what was seen.
  ghost function Reported(g: real, x: Sample, posTop: int, negTop: int, min: real, max: real): real
    requires g > 1.0
  {
    if x.v == 0.0 then 0.0
    else if x.v < 0.0 then ClampTo(-Estimate(g, Cell(x, Floor(negTop))), min, max)
    else ClampTo(Estimate(g, Cell(x, Floor(posTop))), min, max)
  }

  // Bucket k's estimate, clamped, answers for a sample counted in bucket k and not folded.
  lemma BucketAnswers(g: real, x: Sample, min: real, max: real)
    requires x.v != 0.0 && IsLog(g, Abs(x.v), x.k) && min <= x.v <= max
    ensures Near(g, ClampTo(if x.v < 0.0 then -Estimate(g, x.k) else Estimate(g, x.k), min, max), x.v)
  {
    EstimateNear(g, Abs(x.v), x.k);
    hide Estimate;
    var r := if x.v < 0.0 then -Estimate(g, x.k) else Estimate(g, x.k);
    assert Near(g, r, x.v);
    ClampNear(g, r, x.v, min, max);
  }

  lemma ReportedAnswers(g: real, h: seq<Sample>, x: Sample, posTop: int, negTop: int, min: real, max: real)
    requires SamplesOk(h, g) && g > 1.0 && x in h && min <= x.v <= max
    requires x.v < 0.0 ==> IsTop(BinsOf(h, true), negTop)
    requires x.v > 0.0 ==> IsTop(BinsOf(h, false), posTop)
    ensures Answers(g, h, Reported(g, x, posTop, negTop, min, max), x)
  {
    hide IsLog, Estimate, Near, ClampTo, IsTop, Cell, Separate;
    if x.v != 0.0 && Separate(h, x) {
      OwnCell(h, x, if x.v < 0.0 then negTop else posTop);
      BucketAnswers(g, x, min, max);
    }
    assert x.v == 0.0 ==> Near(g, 0.0, x.v) by { NearZero(g); }
  }

  lemma NearZero(g: real)
    requires g > 1.0
    ensures Near(g, 0.0, 0.0)
  {
  }

  lemma EstimateGrows(g: real, k: int, m: int)
    requires g > 1.0 && k <= m
    ensures 0.0 < Estimate(g, k) <= Estimate(g, m)
  {
    PowGrows(g, k, m);
    PowPositive(g, k);
    hide Pow;
    Divides(2.0 * Pow(g, k), 2.0 * Pow(g, m), g + 1.0);
  }

  lemma Divides(a: real, b: real, d: real)
    requires 0.0 < a <= b && d > 0.0
    ensures 0.0 < a / d <= b / d
  {
  }

  // A greater sample is never reported as a smaller value.
  lemma ReportedGrows(g: real, h: seq<Sample>, x: Sample, y: Sample, posTop: int, negTop: int, min: real, max: real)
    requires g > 1.0 && SamplesOk(h, g) && x in h && y in h && x.v <= y.v && min <= x.v && y.v <= max
    ensures Reported(g, x, posTop, negTop, min, max) <= Reported(g, y, posTop, negTop, min, max)
  {
    hide IsLog, Estimate, Cell, SamplesOk;
    var a := Cell(x, Floor(if x.v < 0.0 then negTop else posTop));
    var b := Cell(y, Floor(if y.v < 0.0 then negTop else posTop));
    EstimateGrows(g, a, a);
    EstimateGrows(g, b, b);
    if y.v < 0.0 {
      CellOrder(h, g, y, x, Floor(negTop));
      EstimateGrows(g, b, a);
    } else if x.v > 0.0 {
      CellOrder(h, g, x, y, Floor(posTop));
      EstimateGrows(g, a, b);
    }
  }

  // The answer for a greater quantile is never smaller.
  lemma AnswersAscend(g: real, h: seq<Sample>, q: real, p: real, x: Sample, y: Sample, posTop: int, negTop: int,
                      min: real, max: real)
    requires g > 1.0 && SamplesOk(h, g) && IsMin(h, Some(min)) && IsMax(h, Some(max)) && q <= p
    requires x in h && IsQuantile(h, x, q) && y in h && IsQuantile(h, y, p)
    ensures Reported(g, x, posTop, negTop, min, max) <= Reported(g, y, posTop, negTop, min, max)
  {
    hide Reported, IsQuantile, IsLog;
    QuantileMonotone(h, q, p, x, y);
    ReportedGrows(g, h, x, y, posTop, negTop, min, max);
  }

  class Sketch {
    const gamma: real
    const pos: Store
    const neg: Store
    var zeros: real
    var count: real
    var sum: real
    var min: Option<real>   // None is +Inf
    var max: Option<real>   // None is -Inf
    ghost var h: seq<Sample>

    constructor (g: real)
      requires g > 1.0
      ensures Valid() && h == [] && gamma == g && fresh(pos) && fresh(neg)
    {
      gamma := g;
      pos := new Store();
      neg := new Store();
      zeros, count, sum, min, max, h := 0.0, 0.0, 0.0, None, None, [];
    }

    ghost predicate Valid()
      reads this, pos, neg
    {
      && gamma > 1.0 && pos != neg
      && pos.Valid() && neg.Valid()
      && pos.seen == BinsOf(h, false) && neg.seen == BinsOf(h, true)
      && SamplesOk(h, gamma)
      && Aggregates()
    }

    ghost predicate Aggregates()
      reads this
    {
      zeros == Sum(h, IsZero()) && count == Sum(h, All()) && sum == Times(h) && IsMin(h, min) && IsMax(h, max)
    }

    method Bucket(v: real, weight: real, k: int)
      requires pos != neg && pos.Valid() && neg.Valid() && weight > 0.0
      modifies this`zeros, pos, neg
      ensures pos.Valid() && pos.seen == old(pos.seen) + (if v > 0.0 then [Bin(Index(k), weight)] else [])
      ensures neg.Valid() && neg.seen == old(neg.seen) + (if v < 0.0 then [Bin(Index(k), weight)] else [])
      ensures zeros == old(zeros) + if v == 0.0 then weight else 0.0
    {
      hide Store.Loose;
      if v > 0.0 {
        pos.Add(Index(k), weight);
      } else if v < 0.0 {
        neg.Add(Index(k), weight);
      } else {
        zeros := zeros + weight;
      }
    }

    // The aggregates of what was seen so far and of more samples, given those of the latter.
    method Tally(count': real, sum': real, min': Option<real>, max': Option<real>, ghost g: seq<Sample>)
      requires IsMin(h, min) && IsMax(h, max) && count == Sum(h, All()) && sum == Times(h)
      requires IsMin(g, min') && IsMax(g, max') && count' == Sum(g, All()) && sum' == Times(g)
      modifies this`count, this`sum, this`min, this`max, this`h
      ensures h == old(h) + g
      ensures IsMin(h, min) && IsMax(h, max) && count == Sum(h, All()) && sum == Times(h)
    {
      hide Sum, Times, IsMin, IsMax;
      SumJoin(h, g, All());
      TimesJoin(h, g);
      MinBoth(h, min, g, min');
      MaxBoth(h, max, g, max');
      count := count + count';
      sum := sum + sum';
      min := Lower(min, min');
      max := Higher(max, max');
      h := h + g;
    }

    // k is what ceil(log_gamma |v|) gives.
    method AddWithCount(v: real, weight: real, k: int) returns (ok: bool)
      requires Valid() && (v != 0.0 ==> IsLog(gamma, Abs(v), k))
      modifies this, pos, neg
      ensures Valid() && ok == (weight > 0.0)
      ensures h == if ok then old(h) + [Sample(v, weight, k)] else old(h)
    {
      if weight <= 0.0 {
        return false;
      }
      ghost var x := Sample(v, weight, k);
      OneSample(x, gamma);
      hide Sum, Times, BinsOf, IsMin, IsMax, SamplesOk, Store.Valid, Index, IsLog, Scaled;
      BothSeen(h, [x]);
      SamplesJoin(h, [x], gamma);
      Bucket(v, weight, k);
      Tally(weight, Scaled(v, weight), Some(v), Some(v), [x]);
      ok := true;
    }

    // Merging is having seen the other sketch's samples too.
    method Merge(other: Sketch) returns (ok: bool)
      requires Valid() && other.Valid()
      requires other == this || {other.pos, other.neg} !! {pos, neg}
      modifies this, pos, neg
      ensures Valid() && ok == (gamma == other.gamma)
      ensures h == if ok then old(h) + old(other.h) else old(h)
    {
      if gamma != other.gamma {
        return false;
      }
      hide Sum, Times, BinsOf, IsMin, IsMax, SamplesOk, Store.Valid, Index;
      ghost var theirs := other.h;
      BothSeen(h, theirs);
      SamplesJoin(h, theirs, gamma);
      pos.Merge(other.pos);
      assert pos.seen == BinsOf(h + theirs, false) && other.neg.seen == BinsOf(theirs, true);
      neg.Merge(other.neg);
      assert neg.seen == BinsOf(h + theirs, true);
      zeros := zeros + other.zeros;
      Tally(other.count, other.sum, other.min, other.max, theirs);
      ok := true;
    }

    ghost function Shown(x: Sample): real
      requires gamma > 1.0 && min.Some? && max.Some?
      reads this, pos, neg
    {
      Reported(gamma, x, pos.Top(), neg.Top(), min.value, max.value)
    }

    // The promise: exact at the ends, and in between an answer for the order statistic at rank q * (count - 1).
    method Quantile(q: real) returns (r: Answer)
      requires Valid()
      ensures r == BadQuantile <==> !(0.0 <= q <= 1.0)
      ensures 0.0 <= q <= 1.0 ==> (r == NoData <==> h == [])
      ensures r.Value? && q == 0.0 ==> Some(r.v) == min
      ensures r.Value? && q == 1.0 ==> Some(r.v) == max
      ensures r.Value? && 0.0 < q < 1.0 ==>
                && (exists x :: x in h && IsQuantile(h, x, q))
                && forall x :: x in h && IsQuantile(h, x, q) ==> r.v == Shown(x) && Answers(gamma, h, r.v, x)
      ensures r.Value? && 0.0 < q < 1.0 && Ones(h) ==>
                && (exists x :: x in h && IsPlaced(h, x, q))
                && forall x :: x in h && IsPlaced(h, x, q) ==> Answers(gamma, h, r.v, x)
    {
      hide Sum, IsQuantile, IsPlaced, Ones, Answers, Reported, BinsOf, Store.Valid;
      if !(0.0 <= q <= 1.0) {
        return BadQuantile;
      }
      CountZero(h);
      if count == 0.0 {
        return NoData;
      }
      if q == 0.0 {
        return Value(min.value);
      }
      if q == 1.0 {
        return Value(max.value);
      }
      var rank := Target(q, count);
      QuantileRank(h, q, count, rank);
      hide IsRank;
      var v, _ := Walk(rank);
      AllPlaced(h, q);
      r := Value(v);
    }

    // A walk looks for any rank below the count, so it always stops; falling through to max cannot happen.
    method Walk(rank: real) returns (v: real, ghost fellThrough: bool)
      requires Valid() && h != [] && 0.0 <= rank < count
      ensures !fellThrough
      ensures exists x :: x in h && IsRank(h, x.v, rank)
      ensures forall x :: x in h && IsRank(h, x.v, rank) ==> v == Shown(x) && Answers(gamma, h, v, x)
    {
      fellThrough := false;
      SideWeight(h, true);
      SideWeight(h, false);
      ThreeParts(h);
      SomeRank(h, rank, max.value);
      hide Sum, Answers, IsRank, WeightBelow;
      var least, most := min.value, max.value;
      var seen, found := WalkDown(neg, rank);
      if found.Some? {
        v := ClampTo(-Estimate(gamma, found.value), least, most);
        forall x | x in h && IsRank(h, x.v, rank) ensures v == Shown(x) && Answers(gamma, h, v, x) {
          NegativeAnswers(found.value, rank, x);
        }
        return;
      }
      if seen + zeros > rank {
        v := 0.0;
        forall x | x in h && IsRank(h, x.v, rank) ensures v == Shown(x) && Answers(gamma, h, v, x) {
          ZeroAnswers(rank, x);
        }
        return;
      }
      seen, found := WalkUp(pos, rank, seen + zeros);
      v, fellThrough := if found.Some? then ClampTo(Estimate(gamma, found.value), least, most) else most, found.None?;
      forall x | x in h && IsRank(h, x.v, rank) ensures v == Shown(x) && Answers(gamma, h, v, x) {
        PositiveAnswers(found.value, rank, x);
      }
    }

    lemma NegativeAnswers(k: int, rank: real, x: Sample)
      requires Valid() && x in h && IsRank(h, x.v, rank) && neg.len > 0
      requires Weight(neg.seen) - WeightBelow(neg, k + 1) <= rank < Weight(neg.seen) - WeightBelow(neg, k)
      ensures ClampTo(-Estimate(gamma, k), min.value, max.value) == Shown(x) && Answers(gamma, h, Shown(x), x)
    {
      hide Sum, IsRank, Estimate, Near, ClampTo, IsLog;
      var f := Floor(neg.Top());
      SideWeight(h, true);
      SideSpan(h, true, f, neg.offset, k);
      SideSpan(h, true, f, neg.offset, k + 1);
      StopsNegative(h, gamma, f, k, rank, x);
      ReportedAnswers(gamma, h, x, pos.Top(), neg.Top(), min.value, max.value);
    }

    lemma ZeroAnswers(rank: real, x: Sample)
      requires Valid() && x in h && IsRank(h, x.v, rank)
      requires Sum(h, Side(true)) <= rank < Sum(h, Side(true)) + Sum(h, IsZero())
      ensures Shown(x) == 0.0 && Answers(gamma, h, 0.0, x)
    {
      StopsZero(h, gamma, rank, x);
      NearZero(gamma);
    }

    lemma PositiveAnswers(k: int, rank: real, x: Sample)
      requires Valid() && x in h && IsRank(h, x.v, rank) && pos.len > 0
      requires var start := Sum(h, Side(true)) + Sum(h, IsZero());
               start + WeightBelow(pos, k) <= rank < start + WeightBelow(pos, k + 1)
      ensures ClampTo(Estimate(gamma, k), min.value, max.value) == Shown(x) && Answers(gamma, h, Shown(x), x)
    {
      hide Sum, IsRank, Estimate, Near, ClampTo, IsLog;
      var f := Floor(pos.Top());
      SideSpan(h, false, f, pos.offset, k);
      SideSpan(h, false, f, pos.offset, k + 1);
      StopsPositive(h, gamma, f, k, rank, x);
      ReportedAnswers(gamma, h, x, pos.Top(), neg.Top(), min.value, max.value);
    }
  }
}
