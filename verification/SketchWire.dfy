/**
 The wire form of a sketch (internal/sketch/wire.go, bin.go; pkg/wire/sketches.go):
 its bins and exact aggregates. A decoder that accepts it has a sketch of the
 very same samples, so merging and quantiles go on as if nothing had happened.
 */
module SketchWire {
  import opened Options
  import opened Histogram
  import opened SketchRank
  import opened SketchBins
  import opened Sketch

  // min and max are zero when nothing was seen.
  datatype Wire = Wire(gamma: real, count: real, sum: real, min: real, max: real, zeros: real, bins: seq<Bin>,
      negBins: seq<Bin>)

  // w is how a sketch of the samples h is sent.
  ghost predicate IsWire(w: Wire, h: seq<Sample>) {
    && w.gamma > 1.0 && SamplesOk(h, w.gamma)
    && AreBins(w.bins, BinsOf(h, false)) && AreBins(w.negBins, BinsOf(h, true))
    && |w.bins| <= MAX_BINS && |w.negBins| <= MAX_BINS
    && w.zeros == Sum(h, IsZero()) && w.count == Sum(h, All()) && w.sum == Times(h)
    && (h == [] ==> w.min == w.max == 0.0)
    && IsMin(h, if h == [] then None else Some(w.min))
    && IsMax(h, if h == [] then None else Some(w.max))
  }

  method ToWire(s: Sketch) returns (w: Wire)
    requires s.Valid()
    ensures w.gamma == s.gamma && IsWire(w, s.h)
  {
    var bins := s.pos.Bins();
    var negBins := s.neg.Bins();
    hide Sum, Times, BinsOf, AreBins, IsMin, IsMax;
    CountZero(s.h);
    NoneMin(s.h, s.min, s.max);
    var min, max := 0.0, 0.0;
    if s.count > 0.0 {
      min, max := s.min.value, s.max.value;
    }
    SumNotNegative(s.h);
    w := Wire(s.gamma, s.count, s.sum, min, max, s.zeros, bins, negBins);
  }

  lemma NoneMin(h: seq<Sample>, min: Option<real>, max: Option<real>)
    requires IsMin(h, min) && IsMax(h, max)
    ensures h == [] <==> min == None
    ensures h == [] <==> max == None
  {
  }

  lemma SumNotNegative(h: seq<Sample>)
    requires Weighed(h)
    ensures Sum(h, All()) >= 0.0 && Sum(h, IsZero()) >= 0.0
  {
    var none := (x: Sample) => false;
    SumNone(h, none);
    SumGrows(h, none, All());
    SumGrows(h, none, IsZero());
  }

  /* What a decoder checks. */

  predicate BinsOk(bins: seq<Bin>) {
    && |bins| <= MAX_BINS
    && forall i :: 0 <= i < |bins| ==>
         bins[i].w > 0.0 && MIN_INDEX <= bins[i].k <= MAX_INDEX && (i > 0 ==> bins[i - 1].k < bins[i].k)
  }

  function Total(bins: seq<Bin>): real {
    if bins == [] then 0.0 else Total(bins[..|bins| - 1]) + bins[|bins| - 1].w
  }

  predicate WireOk(w: Wire) {
    && w.gamma > 1.0 && w.count >= 0.0 && w.zeros >= 0.0
    && (w.count > 0.0 ==> w.min <= w.max)
    && BinsOk(w.bins) && BinsOk(w.negBins)
    && Abs(Total(w.bins) + Total(w.negBins) + w.zeros - w.count) <= 0.000001 * w.count + 0.000000001
  }

  method AddBins(s: Store, bins: seq<Bin>)
    requires s.Valid() && s.seen == [] && BinsOk(bins)
    modifies s
    ensures s.Valid() && s.seen == bins
  {
    hide Store.Loose;
    var i := 0;
    while i < |bins|
      invariant 0 <= i <= |bins| && s.Valid() && s.seen == bins[..i]
    {
      s.Add(bins[i].k, bins[i].w);
      i := i + 1;
    }
  }

  // The aggregates are taken over only when something was seen.
  ghost predicate Loaded(s: Sketch, w: Wire)
    reads s
  {
    && (w.count != 0.0 ==>
          s.count == w.count && s.sum == w.sum && s.min == Some(w.min) && s.max == Some(w.max) && s.zeros == w.zeros)
    && (w.count == 0.0 ==> s.count == s.sum == s.zeros == 0.0 && s.min == s.max == None)
  }

  method Load(w: Wire) returns (s: Sketch)
    requires WireOk(w)
    ensures fresh(s) && fresh(s.pos) && fresh(s.neg) && s.gamma == w.gamma && s.pos != s.neg && s.pos.Valid()
    ensures s.neg.Valid()
    ensures s.pos.seen == w.bins && s.neg.seen == w.negBins && Loaded(s, w)
  {
    hide WireOk, Store.Valid;
    s := LoadBins(w);
    if w.count != 0.0 {
      s.count, s.sum, s.min, s.max, s.zeros := w.count, w.sum, Some(w.min), Some(w.max), w.zeros;
    }
  }

  // The two stores filled, and nothing counted yet.
  method LoadBins(w: Wire) returns (s: Sketch)
    requires WireOk(w)
    ensures fresh(s) && fresh(s.pos) && fresh(s.neg) && s.gamma == w.gamma && s.pos != s.neg && s.pos.Valid()
    ensures s.neg.Valid()
    ensures s.pos.seen == w.bins && s.neg.seen == w.negBins && s.count == s.sum == s.zeros == 0.0
    ensures s.min == s.max == None
  {
    s := new Sketch(w.gamma);
    hide Store.Valid, BinsOk, Abs, Total;
    AddBins(s.pos, w.bins);
    AddBins(s.neg, w.negBins);
  }

  // Refused exactly when the checks fail; and a sketch sent by ToWire comes back as a sketch of the same
  // samples.
  method FromWire(w: Wire, ghost h: seq<Sample>) returns (s: Sketch?)
    ensures s == null <==> !WireOk(w)
    ensures s != null ==> s.gamma == w.gamma && s.pos.Valid() && s.neg.Valid() && Loaded(s, w)
    ensures s != null && !IsWire(w, h) ==> s.pos.seen == w.bins && s.neg.seen == w.negBins
    ensures IsWire(w, h) ==> s != null && s.Valid() && s.h == h
  {
    hide IsWire, WireOk, Store.Valid, BinsOf, Sum, Times, SamplesOk, IsMin, IsMax;
    if IsWire(w, h) {
      SentIsOk(w, h);
    }
    if !WireOk(w) {
      return null;
    }
    s := Load(w);
    if IsWire(w, h) {
      Remember(s, w, h);
    }
  }

  ghost method Remember(s: Sketch, w: Wire, h: seq<Sample>)
    requires IsWire(w, h) && s.gamma == w.gamma && s.pos != s.neg && s.pos.Valid() && s.neg.Valid()
    requires s.pos.seen == w.bins && s.neg.seen == w.negBins
    requires Loaded(s, w)
    modifies s`h, s.pos`seen, s.neg`seen
    ensures s.Valid() && s.h == h
  {
    hide IsLog, AreBins, Store.Valid;
    CountZero(h);
    BinsPositive(h, w.gamma, false);
    BinsPositive(h, w.gamma, true);
    assert h == [] ==> Sum(h, IsZero()) == 0.0 && Times(h) == 0.0;
    hide Sum, Times, BinsOf, SamplesOk, Positive;
    s.pos.Recall(BinsOf(h, false));
    s.neg.Recall(BinsOf(h, true));
    s.h := h;
  }

  lemma {:induction false} BinsPositive(h: seq<Sample>, g: real, neg: bool)
    requires SamplesOk(h, g)
    ensures Positive(BinsOf(h, neg))
    ensures forall b :: b in BinsOf(h, neg) ==> MIN_INDEX <= b.k <= MAX_INDEX
  {
    hide IsLog;
    if h != [] {
      var n := |h| - 1;
      assert h[n] in h && forall x :: x in h[..n] ==> x in h;
      BinsPositive(h[..n], g, neg);
    }
  }

  // Everything ToWire sends passes the checks.
  lemma SentIsOk(w: Wire, h: seq<Sample>)
    requires IsWire(w, h)
    ensures WireOk(w)
  {
    BinsPositive(h, w.gamma, false);
    BinsPositive(h, w.gamma, true);
    SentBins(w.bins, BinsOf(h, false));
    SentBins(w.negBins, BinsOf(h, true));
    SideWeight(h, false);
    SideWeight(h, true);
    ThreeParts(h);
    SumNotNegative(h);
    CountZero(h);
    hide Sum, Times, AreBins, BinsOf, Total, Weight, BinsOk, SamplesOk;
    if h != [] {
      var x :| x in h && x.v == w.min;
    }
  }

  lemma {:induction false} TotalIsWeight(bins: seq<Bin>)
    ensures Total(bins) == Weight(bins)
  {
    if bins != [] {
      TotalIsWeight(bins[..|bins| - 1]);
    }
  }

  lemma SentBins(bins: seq<Bin>, g: seq<Bin>)
    requires AreBins(bins, g) && Positive(g) && |bins| <= MAX_BINS
    requires forall b :: b in g ==> MIN_INDEX <= b.k <= MAX_INDEX
    ensures BinsOk(bins) && Total(bins) == Weight(g)
  {
    TotalIsWeight(bins);
    if g != [] {
      var top :| IsTop(g, top) && IsBins(bins, g, top);
      LastIsTop(bins, g, top);
      var f := Floor(top);
      SameWeight(bins, g, top);
      hide Mass, Weight, Total;
      forall b | b in bins ensures MIN_INDEX <= b.k {
        SomeBehind(g, f, b.k);
      }
    }
  }

  lemma SameWeight(bins: seq<Bin>, g: seq<Bin>, top: int)
    requires IsBins(bins, g, top) && IsTop(g, top) && IsTop(bins, top)
    ensures Weight(bins) == Weight(g)
  {
    var f := Floor(top);
    SpanAll(bins, f, f, top + 1);
    SpanAll(g, f, f, top + 1);
    hide Mass, Weight, Span;
    SpanSame(bins, g, top, f, top + 1);
  }

  lemma SomeBehind(g: seq<Bin>, f: int, k: int)
    requires Mass(g, f, k) != 0.0 && forall b :: b in g ==> MIN_INDEX <= b.k
    ensures MIN_INDEX <= k
  {
    if forall x :: x in g ==> Clamp(x.k, f) != k {
      MassNone(g, f, k);
    }
  }

  /* The order of adds and merges does not show. */

  lemma {:induction false} SumOrder(h: seq<Sample>, g: seq<Sample>, p: Sample -> bool)
    requires multiset(h) == multiset(g)
    ensures Sum(h, p) == Sum(g, p)
  {
    if h == [] {
      assert |g| == |multiset(g)|;
    } else {
      var i := FindIn(h, g);
      SumOrder(Front(h), g[..i] + g[i + 1..], p);
      SumMiddle(g[..i], g[i], g[i + 1..], p);
      assert g == g[..i] + ([g[i]] + g[i + 1..]);
    }
  }

  lemma SumMiddle(a: seq<Sample>, x: Sample, c: seq<Sample>, p: Sample -> bool)
    ensures Sum(a + ([x] + c), p) == Sum(a + c, p) + if p(x) then x.w else 0.0
  {
    SumJoin(a, [x] + c, p);
    SumJoin([x], c, p);
    SumJoin(a, c, p);
    assert [x][..0] == [];
    assert Sum([x], p) == if p(x) then x.w else 0.0;
    hide Sum;
  }

  lemma {:induction false} TimesOrder(h: seq<Sample>, g: seq<Sample>)
    requires multiset(h) == multiset(g)
    ensures Times(h) == Times(g)
  {
    hide Scaled;
    if h == [] {
      assert |g| == |multiset(g)|;
    } else {
      var i := FindIn(h, g);
      TimesOrder(Front(h), g[..i] + g[i + 1..]);
      TimesMiddle(g[..i], g[i], g[i + 1..]);
      assert g == g[..i] + ([g[i]] + g[i + 1..]);
    }
  }

  lemma TimesMiddle(a: seq<Sample>, x: Sample, c: seq<Sample>)
    ensures Times(a + ([x] + c)) == Times(a + c) + Scaled(x.v, x.w)
  {
    TimesJoin(a, [x] + c);
    TimesJoin([x], c);
    TimesJoin(a, c);
    assert [x][..0] == [];
    assert Times([x]) == Scaled(x.v, x.w);
    hide Times, Scaled;
  }

  lemma {:induction false} BinsOrder(h: seq<Sample>, g: seq<Sample>, neg: bool)
    requires multiset(h) == multiset(g)
    ensures multiset(BinsOf(h, neg)) == multiset(BinsOf(g, neg))
  {
    if h == [] {
      assert |g| == |multiset(g)|;
    } else {
      var i := FindIn(h, g);
      BinsOrder(Front(h), g[..i] + g[i + 1..], neg);
      BinsMiddle(g, i, neg);
      BinsMiddle(h, |h| - 1, neg);
      assert h[..|h| - 1] + h[|h|..] == Front(h);
    }
  }

  lemma BinsMiddle(g: seq<Sample>, i: nat, neg: bool)
    requires i < |g|
    ensures multiset(BinsOf(g, neg)) == multiset(BinsOf(g[..i] + g[i + 1..], neg)) + multiset(BinsOf([g[i]], neg))
  {
    hide BinsOf;
    BinsJoin(g[..i], [g[i]] + g[i + 1..], neg);
    BinsJoin([g[i]], g[i + 1..], neg);
    BinsJoin(g[..i], g[i + 1..], neg);
    assert g == g[..i] + ([g[i]] + g[i + 1..]);
    Regroup(BinsOf(g[..i], neg), BinsOf([g[i]], neg), BinsOf(g[i + 1..], neg));
  }

  lemma Regroup(a: seq<Bin>, b: seq<Bin>, c: seq<Bin>)
    ensures multiset(a + (b + c)) == multiset(a + c) + multiset(b)
  {
  }

  lemma SameAreBins(h: seq<Bin>, g: seq<Bin>, bins: seq<Bin>, bins': seq<Bin>)
    requires multiset(h) == multiset(g) && AreBins(bins, h) && AreBins(bins', g)
    ensures bins == bins'
  {
    assert |h| == |multiset(h)| && |g| == |multiset(g)|;
    if h != [] {
      var top :| IsTop(h, top) && IsBins(bins, h, top);
      var top' :| IsTop(g, top') && IsBins(bins', g, top');
      SameBins(h, g, top, top', bins, bins');
    }
  }

  // Sketches that saw the same samples, in any order and through any tree of merges and wire trips, are sent
  // as the same message. So Merge is commutative and associative, whatever collapsed on the way.
  lemma SameWire(w: Wire, h: seq<Sample>, w': Wire, g: seq<Sample>)
    requires IsWire(w, h) && IsWire(w', g) && w.gamma == w'.gamma && multiset(h) == multiset(g)
    ensures w == w'
  {
    hide IsTop, IsBins, SamplesOk;
    BinsOrder(h, g, false);
    BinsOrder(h, g, true);
    SameAreBins(BinsOf(h, false), BinsOf(g, false), w.bins, w'.bins);
    SameAreBins(BinsOf(h, true), BinsOf(g, true), w.negBins, w'.negBins);
    SumOrder(h, g, All());
    SumOrder(h, g, IsZero());
    TimesOrder(h, g);
    SameEnds(w, h, w', g);
  }

  lemma SameEnds(w: Wire, h: seq<Sample>, w': Wire, g: seq<Sample>)
    requires IsWire(w, h) && IsWire(w', g) && multiset(h) == multiset(g)
    ensures w.min == w'.min && w.max == w'.max
  {
    hide AreBins, SamplesOk, Sum, Times;
    assert |h| == |multiset(h)| && |g| == |multiset(g)|;
    assert forall x :: x in h <==> x in multiset(h);
    assert forall x :: x in g <==> x in multiset(g);
  }

  lemma MergeOrder(a: seq<Sample>, b: seq<Sample>, c: seq<Sample>, w: Wire, w': Wire)
    requires w.gamma == w'.gamma && IsWire(w, (a + b) + c)
    requires IsWire(w', c + (b + a)) || IsWire(w', a + (c + b))
    ensures w == w'
  {
    hide IsWire;
    assert multiset((a + b) + c) == multiset(c + (b + a)) == multiset(a + (c + b));
    SameWire(w, (a + b) + c, w', if IsWire(w', c + (b + a)) then c + (b + a) else a + (c + b));
  }
}
