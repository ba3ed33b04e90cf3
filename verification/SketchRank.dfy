/**
 What a sketch's answers mean (internal/sketch/sketch.go:149-175, 232-321):
 weighted samples, their order statistics, bucket bounds as powers of gamma, and
 the estimate whose relative error is alpha at both ends of a bucket.
 */
module SketchRank {
  import opened Histogram

  // A value v seen w times. k is its ceil(log_gamma |v|); it means nothing for zero.
  datatype Sample = Sample(v: real, w: real, k: int)

  const MIN_INDEX := -0x8000_0000
  const MAX_INDEX := 0x7FFF_FFFF

  function Abs(v: real): real { if v < 0.0 then -v else v }

  // index: the logarithm, kept within 32 bits.
  function Index(k: int): int {
    if k < MIN_INDEX then MIN_INDEX else if k > MAX_INDEX then MAX_INDEX else k
  }

  function Pow(g: real, k: int): real
    requires g > 1.0
    decreases if k < 0 then -k else k
  {
    if k == 0 then 1.0 else if k > 0 then g * Pow(g, k - 1) else Pow(g, k + 1) / g
  }

  // k is ceil(log_g v): v lies in (g^(k-1), g^k].
  ghost predicate IsLog(g: real, v: real, k: int) {
    g > 1.0 && Pow(g, k - 1) < v <= Pow(g, k)
  }

  // value: the estimate for bucket k.
  function Estimate(g: real, k: int): real
    requires g > 1.0
  {
    2.0 * Pow(g, k) / (g + 1.0)
  }

  // r is within alpha of v, relative to v.
  ghost predicate Near(g: real, r: real, v: real)
    requires g > 1.0
  {
    Abs(r - v) <= (g - 1.0) / (g + 1.0) * Abs(v)
  }

  // That ratio is the accuracy a sketch was made for.
  lemma AlphaBack(alpha: real)
    requires 0.0 < alpha < 1.0
    ensures var g := (1.0 + alpha) / (1.0 - alpha); g > 1.0 && (g - 1.0) / (g + 1.0) == alpha
  {
    var g := (1.0 + alpha) / (1.0 - alpha);
    assert g * (1.0 - alpha) == 1.0 + alpha;
    ScaleDown(1.0, g, 1.0 - alpha);
    assert g != 1.0;
    assert g - 1.0 == alpha * (g + 1.0);
  }

  /* Powers. */

  lemma {:induction false} PowPositive(g: real, k: int)
    requires g > 1.0
    ensures Pow(g, k) > 0.0
    decreases if k < 0 then -k else k
  {
    if k > 0 {
      PowPositive(g, k - 1);
    } else if k < 0 {
      PowPositive(g, k + 1);
    }
  }

  lemma PowStep(g: real, k: int)
    requires g > 1.0
    ensures Pow(g, k) == g * Pow(g, k - 1)
  {
    if k <= 0 {
      assert Pow(g, k - 1) == Pow(g, k) / g;
    }
  }

  lemma {:induction false} PowGrows(g: real, k: int, m: int)
    requires g > 1.0 && k <= m
    ensures Pow(g, k) <= Pow(g, m)
    decreases m - k
  {
    hide Pow;
    if k < m {
      PowGrows(g, k, m - 1);
      PowStep(g, m);
      PowPositive(g, m - 1);
      Bigger(g, Pow(g, m - 1));
    }
  }

  lemma Bigger(g: real, p: real)
    requires g > 1.0 && p > 0.0
    ensures p <= g * p
  {
    assert g * p - p == (g - 1.0) * p;
  }

  // A larger bucket holds larger values.
  lemma LogOrder(g: real, u: real, k: int, v: real, m: int)
    requires IsLog(g, u, k) && IsLog(g, v, m) && k < m
    ensures u < v
  {
    PowGrows(g, k, m - 1);
  }

  // The estimate is within alpha of everything in its bucket.
  lemma EstimateNear(g: real, v: real, k: int)
    requires IsLog(g, v, k)
    ensures Near(g, Estimate(g, k), v) && v > 0.0
  {
    PowPositive(g, k - 1);
    PowStep(g, k);
    hide Pow, Near;
    Bounds(g, v, Pow(g, k - 1), Pow(g, k));
  }

  lemma Bounds(g: real, v: real, p: real, q: real)
    requires g > 1.0 && 0.0 < p < v <= q && q == g * p
    ensures Near(g, 2.0 * q / (g + 1.0), v)
  {
    var d := g + 1.0;
    var e, a := 2.0 * q / d, (g - 1.0) / d;
    assert e * d == 2.0 * q && a * d == g - 1.0;
    assert (a * v) * d == (a * d) * v == g * v - v;
    assert (e - v) * d == e * d - v * d == 2.0 * q - g * v - v;
    assert q < g * v;
    ScaleDown(e - v, a * v, d);
    ScaleDown(v - e, a * v, d);
    assert Abs(v) == v;
  }

  lemma ScaleDown(x: real, y: real, d: real)
    requires d > 0.0 && x * d <= y * d
    ensures x <= y
  {
  }

  /* Weights and ranks. */

  // The weight of the samples that satisfy p.
  ghost function Sum(h: seq<Sample>, p: Sample -> bool): real {
    if h == [] then 0.0 else Sum(h[..|h| - 1], p) + if p(h[|h| - 1]) then h[|h| - 1].w else 0.0
  }

  ghost function All(): Sample -> bool {
    (x: Sample) => true
  }

  ghost predicate Weighed(h: seq<Sample>) {
    forall x :: x in h ==> x.w > 0.0
  }

  lemma {:induction false} SumGrows(h: seq<Sample>, p: Sample -> bool, q: Sample -> bool)
    requires Weighed(h) && forall x :: x in h && p(x) ==> q(x)
    ensures Sum(h, p) <= Sum(h, q)
  {
    if h != [] {
      var n := |h| - 1;
      assert h[n] in h && forall x :: x in h[..n] ==> x in h;
      SumGrows(h[..n], p, q);
    }
  }

  lemma {:induction false} SumNone(h: seq<Sample>, p: Sample -> bool)
    requires forall x :: x in h ==> !p(x)
    ensures Sum(h, p) == 0.0
  {
    if h != [] {
      var n := |h| - 1;
      assert h[n] in h && forall x :: x in h[..n] ==> x in h;
      SumNone(h[..n], p);
    }
  }

  lemma {:induction false} SumJoin(h: seq<Sample>, g: seq<Sample>, p: Sample -> bool)
    ensures Sum(h + g, p) == Sum(h, p) + Sum(g, p)
  {
    if g == [] {
      assert h + g == h;
    } else {
      var n := |g| - 1;
      assert (h + g)[..|h + g| - 1] == h + g[..n];
      SumJoin(h, g[..n], p);
    }
  }

  lemma {:induction false} SumSplit(h: seq<Sample>, p: Sample -> bool, q: Sample -> bool, r: Sample -> bool)
    requires forall x :: x in h ==> (r(x) <==> p(x) || q(x)) && !(p(x) && q(x))
    ensures Sum(h, r) == Sum(h, p) + Sum(h, q)
  {
    if h != [] {
      var n := |h| - 1;
      assert h[n] in h && forall x :: x in h[..n] ==> x in h;
      SumSplit(h[..n], p, q, r);
    }
  }

  ghost function Below(h: seq<Sample>, v: real): real {
    Sum(h, (x: Sample) => x.v < v)
  }

  ghost function UpTo(h: seq<Sample>, v: real): real {
    Sum(h, (x: Sample) => x.v <= v)
  }

  // v is the order statistic at a (possibly fractional) rank: the samples below it weigh at most that much,
  // those up to it more. With unit weights this is the value at index floor(rank) of the sorted samples.
  ghost predicate IsRank(h: seq<Sample>, v: real, rank: real) {
    Below(h, v) <= rank < UpTo(h, v)
  }

  ghost predicate DownClosed(h: seq<Sample>, p: Sample -> bool) {
    forall x, y :: x in h && y in h && p(y) && x.v <= y.v ==> p(x)
  }

  // If a walk in value order has seen at most rank before a group and more than rank after it, the order
  // statistic is in the group.
  lemma RankIn(h: seq<Sample>, before: Sample -> bool, after: Sample -> bool, rank: real, x: Sample)
    requires Weighed(h) && DownClosed(h, before) && DownClosed(h, after)
    requires Sum(h, before) <= rank < Sum(h, after)
    requires x in h && IsRank(h, x.v, rank)
    ensures after(x) && !before(x)
  {
    if before(x) {
      SumGrows(h, (y: Sample) => y.v <= x.v, before);
    }
    if !after(x) {
      SumGrows(h, after, (y: Sample) => y.v < x.v);
    }
  }

  // Some sample is at every rank below the total.
  lemma {:induction false} RankExists(h: seq<Sample>, rank: real, bound: real) returns (x: Sample)
    requires Weighed(h) && 0.0 <= rank < UpTo(h, bound)
    ensures x in h && x.v <= bound && IsRank(h, x.v, rank)
    decreases Under(h, bound)
  {
    x := LargestIn(h, (y: Sample) => y.v <= bound);
    SumGrows(h, (y: Sample) => y.v <= bound, (y: Sample) => y.v <= x.v);
    if Below(h, x.v) > rank {
      var y := LargestIn(h, (z: Sample) => z.v < x.v);
      SumGrows(h, (z: Sample) => z.v < x.v, (z: Sample) => z.v <= y.v);
      UnderLess(h, y.v, bound, x);
      x := RankExists(h, rank, y.v);
    }
  }

  ghost function Under(h: seq<Sample>, bound: real): set<Sample> {
    set x | x in h && x.v <= bound
  }

  lemma UnderLess(h: seq<Sample>, a: real, b: real, x: Sample)
    requires x in h && a < x.v <= b
    ensures Under(h, a) < Under(h, b)
  {
    assert x in Under(h, b) && x !in Under(h, a);
  }

  lemma {:induction false} SumHas(h: seq<Sample>, p: Sample -> bool, x: Sample)
    requires Weighed(h) && x in h && p(x)
    ensures Sum(h, p) > 0.0
  {
    var n := |h| - 1;
    assert h[n] in h && forall y :: y in h <==> y in h[..n] || y == h[n];
    SumGrows(h[..n], (y: Sample) => false, p);
    SumNone(h[..n], (y: Sample) => false);
    if x in h[..n] {
      SumHas(h[..n], p, x);
    }
  }

  lemma {:induction false} LargestIn(h: seq<Sample>, p: Sample -> bool) returns (x: Sample)
    requires Weighed(h) && Sum(h, p) > 0.0
    ensures x in h && p(x) && forall y :: y in h && p(y) ==> y.v <= x.v
  {
    var n := |h| - 1;
    assert h[n] in h && forall y :: y in h <==> y in h[..n] || y == h[n];
    if Sum(h[..n], p) > 0.0 {
      x := LargestIn(h[..n], p);
      if p(h[n]) && x.v <= h[n].v {
        x := h[n];
      }
    } else {
      x := h[n];
      forall y | y in h[..n] ensures !p(y) {
        if p(y) {
          SumHas(h[..n], p, y);
        }
      }
    }
  }
}
