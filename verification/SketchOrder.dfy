/**
 The order statistic a quantile asks for (internal/sketch/sketch.go:232-266),
 said three ways: by the weights on either side of it, with unit weights by
 counting samples, and as an entry of the sorted samples. It never goes back as
 the quantile grows, and neither does what is reported for it.
 */
module SketchOrder {
  import H = Histogram
  import opened SketchRank

  // x is at q: the samples below it weigh at most q * (n - 1) and those up to it more, n being the weight of all.
  // Where n is below one, x is the least.
  ghost predicate IsQuantile(h: seq<Sample>, x: Sample, q: real) {
    var n := Sum(h, All());
    if n >= 1.0 then Below(h, x.v) <= q * (n - 1.0) < UpTo(h, x.v)
    else forall y :: y in h ==> x.v <= y.v
  }

  lemma Product(a: real, b: real)
    requires a > 0.0 && b > 0.0
    ensures a * b > 0.0
  {
  }

  // Only the least sample is at rank zero.
  lemma LeastRank(h: seq<Sample>, x: Sample)
    requires Weighed(h) && x in h
    ensures IsRank(h, x.v, 0.0) <==> forall y :: y in h ==> x.v <= y.v
  {
    SumHas(h, (y: Sample) => y.v <= x.v, x);
    if y :| y in h && y.v < x.v {
      SumHas(h, (z: Sample) => z.v < x.v, y);
    } else {
      SumNone(h, (z: Sample) => z.v < x.v);
    }
  }

  // The rank a walk looks for. It is below the weight of all, so the walk will find it.
  ghost predicate IsTarget(rank: real, q: real, n: real) {
    0.0 <= rank < n && rank == if n >= 1.0 then q * (n - 1.0) else 0.0
  }

  method Target(q: real, n: real) returns (rank: real)
    requires 0.0 < q < 1.0 && n > 0.0
    ensures IsTarget(rank, q, n)
  {
    rank := q * (n - 1.0);
    if n >= 1.0 {
      BelowTotal(q, n - 1.0);
    } else {
      Product(q, 1.0 - n);
      assert q * (1.0 - n) == -(q * (n - 1.0));
    }
    if rank < 0.0 {
      rank := 0.0;
    }
  }

  // At that rank is the order statistic.
  lemma QuantileRank(h: seq<Sample>, q: real, n: real, rank: real)
    requires Weighed(h) && n == Sum(h, All()) && IsTarget(rank, q, n)
    ensures forall x :: x in h ==> (IsRank(h, x.v, rank) <==> IsQuantile(h, x, q))
  {
    hide Sum, IsRank, IsQuantile;
    forall x | x in h ensures IsRank(h, x.v, rank) <==> IsQuantile(h, x, q) {
      QuantileAt(h, x, q, n, rank);
    }
  }

  lemma QuantileAt(h: seq<Sample>, x: Sample, q: real, n: real, rank: real)
    requires Weighed(h) && x in h && n == Sum(h, All()) && rank == if n >= 1.0 then q * (n - 1.0) else 0.0
    ensures IsRank(h, x.v, rank) <==> IsQuantile(h, x, q)
  {
    hide Sum, Below, UpTo;
    if n < 1.0 {
      LeastRank(h, x);
    }
  }

  lemma BelowTotal(q: real, m: real)
    requires 0.0 < q < 1.0 && m >= 0.0
    ensures 0.0 <= q * m <= m
  {
    if m > 0.0 {
      Product(q, m);
      Product(1.0 - q, m);
      assert (1.0 - q) * m == m - q * m;
    }
  }

  lemma Scales(q: real, p: real, m: real)
    requires q <= p && m >= 0.0
    ensures q * m <= p * m
  {
    assert p * m - q * m == (p - q) * m;
    if q < p && m > 0.0 {
      Product(p - q, m);
    }
  }

  // A greater quantile is at no smaller a sample.
  lemma QuantileMonotone(h: seq<Sample>, q: real, p: real, x: Sample, y: Sample)
    requires Weighed(h) && q <= p && x in h && y in h && IsQuantile(h, x, q) && IsQuantile(h, y, p)
    ensures x.v <= y.v
  {
    var n := Sum(h, All());
    if n >= 1.0 {
      Scales(q, p, n - 1.0);
      if y.v < x.v {
        SumGrows(h, (z: Sample) => z.v <= y.v, (z: Sample) => z.v < x.v);
      }
    }
  }

  /* Unit weights. */

  ghost predicate Ones(h: seq<Sample>) {
    forall x :: x in h ==> x.w == 1.0
  }

  ghost function Where(h: seq<Sample>, p: Sample -> bool): set<int> {
    set i | 0 <= i < |h| && p(h[i])
  }

  ghost function First(n: nat): (r: set<int>)
    ensures |r| == n && forall i :: i in r <==> 0 <= i < n
  {
    if n == 0 then {} else First(n - 1) + {n - 1}
  }

  lemma SubsetCount(a: set<int>, b: set<int>)
    requires a <= b
    ensures |a| <= |b|
  {
    assert b == a + (b - a);
  }

  lemma {:induction false} UnitSum(h: seq<Sample>, p: Sample -> bool)
    requires Ones(h)
    ensures Sum(h, p) == |Where(h, p)| as real
  {
    if h != [] {
      var n := |h| - 1;
      assert h[n] in h && forall x :: x in h[..n] ==> x in h;
      UnitSum(h[..n], p);
      assert Where(h, p) == Where(h[..n], p) + if p(h[n]) then {n} else {};
    }
  }

  lemma UnitTotal(h: seq<Sample>)
    requires Ones(h)
    ensures Sum(h, All()) == |h| as real
  {
    UnitSum(h, All());
    assert Where(h, All()) == First(|h|);
  }

  ghost function At(q: real, n: nat): real {
    q * ((n - 1) as real)
  }

  lemma AtWithin(q: real, n: nat)
    requires 0.0 < q < 1.0 && n > 0
    ensures 0.0 <= At(q, n) <= (n - 1) as real
  {
    BelowTotal(q, (n - 1) as real);
  }

  lemma UnitRank(h: seq<Sample>, x: Sample, q: real)
    requires Ones(h) && x in h
    ensures IsQuantile(h, x, q) <==> IsRank(h, x.v, At(q, |h|))
  {
    hide Sum, Ones, Below, UpTo, All;
    UnitTotal(h);
    var n, m := Sum(h, All()), (|h| - 1) as real;
    assert n >= 1.0 && n - 1.0 == m;
    assert q * (n - 1.0) == q * m;
  }

  // With unit weights: at most q * (n - 1) samples are below x, and more than that are at or below it.
  ghost predicate IsPlaced(h: seq<Sample>, x: Sample, q: real) {
    && |set i | 0 <= i < |h| && h[i].v < x.v| as real <= At(q, |h|)
    && At(q, |h|) < |set i | 0 <= i < |h| && h[i].v <= x.v| as real
  }

  lemma UnitQuantile(h: seq<Sample>, x: Sample, q: real)
    requires Ones(h) && x in h
    ensures IsQuantile(h, x, q) <==> IsPlaced(h, x, q)
  {
    UnitRank(h, x, q);
    var below, upTo := (y: Sample) => y.v < x.v, (y: Sample) => y.v <= x.v;
    UnitSum(h, below);
    UnitSum(h, upTo);
    hide Sum, IsQuantile, At;
    assert Where(h, below) == set i | 0 <= i < |h| && h[i].v < x.v;
    assert Where(h, upTo) == set i | 0 <= i < |h| && h[i].v <= x.v;
  }

  lemma AllPlaced(h: seq<Sample>, q: real)
    ensures Ones(h) ==> forall x :: x in h ==> (IsQuantile(h, x, q) <==> IsPlaced(h, x, q))
  {
    hide IsQuantile, IsPlaced;
    if Ones(h) {
      forall x | x in h ensures IsQuantile(h, x, q) <==> IsPlaced(h, x, q) {
        UnitQuantile(h, x, q);
      }
    }
  }

  lemma {:induction false} SumWithout(h: seq<Sample>, k: nat, p: Sample -> bool)
    requires k < |h|
    ensures Sum(h, p) == Sum(h[..k] + h[k + 1..], p) + if p(h[k]) then h[k].w else 0.0
  {
    var n := |h| - 1;
    if k == n {
      assert h[..k] + h[k + 1..] == h[..n];
    } else {
      SumWithout(h[..n], k, p);
      var rest := h[..k] + h[k + 1..];
      assert rest[..|rest| - 1] == h[..n][..k] + h[..n][k + 1..] && rest[|rest| - 1] == h[n];
    }
  }

  // Weights do not depend on the order of the samples.
  lemma {:induction false} SumOrder(h: seq<Sample>, g: seq<Sample>, p: Sample -> bool)
    requires multiset(h) == multiset(g)
    ensures Sum(h, p) == Sum(g, p)
  {
    if h == [] {
      assert |g| == |multiset(g)|;
    } else {
      var k := H.FindIn(h, g);
      SumOrder(h[..|h| - 1], g[..k] + g[k + 1..], p);
      SumWithout(g, k, p);
    }
  }

  ghost predicate Ascending(s: seq<Sample>) {
    forall i, j :: 0 <= i < j < |s| ==> s[i].v <= s[j].v
  }

  // Position j of the sorted samples is below v exactly if more than j of them are.
  lemma PlaceBelow(s: seq<Sample>, j: nat, v: real)
    requires Ascending(s) && Ones(s) && j < |s|
    ensures Below(s, v) <= j as real <==> v <= s[j].v
  {
    var p := (x: Sample) => x.v < v;
    UnitSum(s, p);
    if v <= s[j].v {
      SubsetCount(Where(s, p), First(j));
    } else {
      SubsetCount(First(j + 1), Where(s, p));
    }
  }

  lemma PlaceUpTo(s: seq<Sample>, j: nat, v: real)
    requires Ascending(s) && Ones(s) && j < |s|
    ensures UpTo(s, v) >= (j + 1) as real <==> s[j].v <= v
  {
    var p := (x: Sample) => x.v <= v;
    UnitSum(s, p);
    if s[j].v <= v {
      SubsetCount(First(j + 1), Where(s, p));
    } else {
      SubsetCount(Where(s, p), First(j));
    }
  }

  lemma WholeFloor(n: int, r: real)
    ensures n as real <= r <==> n <= r.Floor
    ensures r < n as real <==> r.Floor + 1 <= n
  {
  }

  lemma PlaceRank(s: seq<Sample>, v: real, rank: real)
    requires Ascending(s) && Ones(s) && 0 <= rank.Floor < |s|
    ensures IsRank(s, v, rank) <==> v == s[rank.Floor].v
  {
    var below, upTo := (x: Sample) => x.v < v, (x: Sample) => x.v <= v;
    PlaceBelow(s, rank.Floor, v);
    PlaceUpTo(s, rank.Floor, v);
    UnitSum(s, below);
    UnitSum(s, upTo);
    hide Sum, Where, Ascending, Ones;
    var a, b, j := |Where(s, below)|, |Where(s, upTo)|, rank.Floor;
    assert Below(s, v) == a as real && UpTo(s, v) == b as real;
    WholeFloor(a, rank);
    WholeFloor(b, rank);
    WholeFloor(a, j as real);
    WholeFloor(j + 1, b as real);
  }

  // With unit weights the order statistic is the entry of the sorted samples at q * (n - 1), rounded down.
  lemma SortedQuantile(h: seq<Sample>, s: seq<Sample>, x: Sample, q: real)
    requires Ones(h) && x in h && 0.0 < q < 1.0 && multiset(s) == multiset(h) && Ascending(s)
    ensures 0 <= At(q, |h|).Floor < |s| == |h|
    ensures IsQuantile(h, x, q) <==> x.v == s[At(q, |h|).Floor].v
  {
    hide IsQuantile, IsRank, Ascending, Ones, At;
    AtWithin(q, |h|);
    UnitRank(h, x, q);
    SortedAt(h, s, x.v, At(q, |h|));
  }

  lemma SortedAt(h: seq<Sample>, s: seq<Sample>, v: real, rank: real)
    requires Ones(h) && multiset(s) == multiset(h) && Ascending(s) && h != [] && 0.0 <= rank <= (|h| - 1) as real
    ensures 0 <= rank.Floor < |s| == |h|
    ensures IsRank(h, v, rank) <==> v == s[rank.Floor].v
  {
    hide IsRank, Ascending, Ones;
    SamePlaces(h, s);
    FloorWithin(rank, |h| - 1);
    SortedRank(h, s, v, rank);
  }

  lemma FloorWithin(r: real, n: nat)
    requires 0.0 <= r <= n as real
    ensures 0 <= r.Floor <= n
  {
  }

  lemma SortedRank(h: seq<Sample>, s: seq<Sample>, v: real, rank: real)
    requires Ones(h) && multiset(s) == multiset(h) && Ascending(s) && 0 <= rank.Floor < |s|
    ensures IsRank(h, v, rank) <==> v == s[rank.Floor].v
  {
    SamePlaces(h, s);
    SumOrder(h, s, (y: Sample) => y.v < v);
    SumOrder(h, s, (y: Sample) => y.v <= v);
    hide Sum, Ascending, Ones;
    PlaceRank(s, v, rank);
  }

  lemma SamePlaces(h: seq<Sample>, s: seq<Sample>)
    requires multiset(s) == multiset(h) && Ones(h)
    ensures |s| == |h| && Ones(s)
  {
    assert |multiset(s)| == |multiset(h)|;
    assert forall y :: y in s ==> y in multiset(h);
  }
}
