/**
 The dense store (internal/sketch/store.go:23-189): a run of bucket counts that
 grows at both ends, folds its low end when it would get too wide, and merges.
 Each method is tied to the list of observations the store stands for.
 */
module SketchBins {
  import opened Histogram

  function Min(a: nat, b: nat): nat { if a < b then a else b }

  function Max(a: nat, b: nat): nat { if a < b then b else a }

  class Store {
    var slots: seq<real>       // the backing array; its length is the capacity
    var len: nat               // counts is slots[..len]
    var offset: int            // slots[i] is bucket offset + i
    var total: real
    ghost var seen: seq<Bin>   // the observations, in order

    constructor ()
      ensures Valid() && seen == []
    {
      slots, len, offset, total, seen := [], 0, 0, 0.0, [];
    }

    ghost function Top(): int
      reads this
    {
      offset + len - 1
    }

    // The buckets hold what was seen; the spare slots are empty.
    ghost predicate Loose()
      reads this
    {
      && len <= |slots| <= MAX_BINS
      && (forall i :: len <= i < |slots| ==> slots[i] == 0.0)
      && (if len == 0 then seen == [] else Holds(slots[..len], offset, seen, Top()))
      && Positive(seen)
      && total == Weight(seen)
    }

    ghost predicate Valid()
      reads this
    {
      Loose() && (len > 0 ==> IsTop(seen, Top()))
    }

    method Add(k: int, weight: real)
      requires Loose() && weight > 0.0
      modifies this
      ensures Loose() && seen == old(seen) + [Bin(k, weight)]
      ensures len > 0 && Top() == if old(len) == 0 || k > old(Top()) then k else old(Top())
      ensures old(Valid()) ==> Valid()
      ensures old(len) > 0 && old(offset) <= k <= old(Top()) ==>
                len == old(len) && offset == old(offset) &&
                    slots == old(slots)[k - offset := old(slots)[k - offset] + weight]
    {
      hide Mass;
      Grow(k);
      var i := k - offset;
      if i < 0 {
        i := 0;
      }
      ghost var before := slots[..len];
      AddOne(before, offset, seen, Top(), Bin(k, weight));
      slots := slots[i := slots[i] + weight];
      total := total + weight;
      assert slots[..len] == before[i := before[i] + weight];
      ghost var x := Bin(k, weight);
      assert Front(seen + [x]) == seen && Last(seen + [x]) == x;
      seen := seen + [x];
      assert x in seen;
    }

    // The non-empty buckets, ascending.
    method Bins() returns (bins: seq<Bin>)
      requires Valid()
      ensures AreBins(bins, seen) && |bins| <= MAX_BINS
    {
      ghost var counts := slots[..len];
      bins := [];
      var i := 0;
      while i < len
        invariant 0 <= i <= len && |bins| <= i
        invariant bins == AsBins(counts, offset, i)
      {
        if slots[i] != 0.0 {
          bins := bins + [Bin(offset + i, slots[i])];
        }
        i := i + 1;
      }
      if len > 0 {
        HeldBins(counts, offset, seen, Top());
        assert IsTop(seen, Top()) && IsBins(bins, seen, Top());
      }
    }

    // A store filled from the bins of h is a store that has seen h.
    ghost method Recall(h: seq<Bin>)
      requires Valid() && AreBins(seen, h) && Positive(h)
      modifies this`seen
      ensures Valid() && seen == h
    {
      if h != [] {
        var top :| IsTop(h, top) && IsBins(seen, h, top);
        LastIsTop(seen, h, top);
        Rebuilt(slots[..len], offset, seen, h, top);
      }
      seen := h;
    }

    // After it k is in range, or below a floor that absorbs it.
    method Grow(k: int)
      requires Loose()
      modifies this`slots, this`len, this`offset
      ensures Loose() && len > 0
      ensures Top() == if old(len) == 0 || k > old(Top()) then k else old(Top())
      ensures k < offset ==> offset == Floor(Top())
      ensures old(len) > 0 && old(offset) <= k <= old(Top()) ==>
                len == old(len) && offset == old(offset) && slots == old(slots)
    {
      if len == 0 {
        slots := Zeros(8);
        len := 1;
        offset := k;
        return;
      }
      if k < offset {
        GrowLow(k);
      } else if k >= offset + len {
        GrowHigh(k);
      }
    }

    method GrowLow(k: int)
      requires Loose() && len > 0 && k < offset
      modifies this`slots, this`len, this`offset
      ensures Loose() && len > 0 && Top() == old(Top())
      ensures k < offset ==> offset == Floor(Top())
    {
      if len == MAX_BINS {
        return;
      }
      var need := offset + len - k;
      var want := if need <= MAX_BINS then Min(Max(need, 2 * len), MAX_BINS) else MAX_BINS;
      var newOffset := offset + len - want;
      PadLow(slots[..len], offset, seen, Top(), offset - newOffset);
      slots := Zeros(offset - newOffset) + slots[..len];
      len := want;
      offset := newOffset;
      assert slots[..len] == slots;
    }

    method GrowHigh(k: int)
      requires Loose() && len > 0 && k > Top()
      modifies this`slots, this`len, this`offset
      ensures Loose() && len > 0 && Top() == k && offset <= k
    {
      var want := k - offset + 1;
      ghost var counts := slots[..len];
      if want <= MAX_BINS {
        PadHigh(counts, offset, seen, Top(), k);
        if want > |slots| {
          slots := slots[..len] + Zeros(Min(Max(2 * want, 8), MAX_BINS) - len);
        }
        assert slots[..want] == counts + Zeros(k - Top());
        len := want;
        return;
      }
      FoldHigh(counts, offset, seen, Top(), k);
      var newOffset := k - MAX_BINS + 1;
      slots := Fold(newOffset, k);
      len, offset := MAX_BINS, newOffset;
      assert slots[..len] == slots;
    }

    method Fold(newOffset: int, ghost k: int) returns (grown: seq<real>)
      requires 0 < len <= |slots| && len <= MAX_BINS && newOffset == Floor(k) > offset
      ensures grown == Folded(slots[..len], offset, k)
    {
      ghost var counts := slots[..len];
      var folded, i := 0.0, 0;
      while i < newOffset - offset && i < len
        invariant 0 <= i <= len && i <= newOffset - offset
        invariant folded == Prefix(counts, i)
      {
        folded := folded + slots[i];
        i := i + 1;
      }
      grown := slots[i..len] + Zeros(MAX_BINS - (len - i));
      assert slots[i..len] == counts[i..];
      grown := grown[0 := grown[0] + folded];
    }

    // The last non-empty bucket, or -1; in a valid store that is its top.
    method Highest() returns (hi: int)
      requires Valid()
      ensures hi == len - 1
    {
      hi := -1;
      var i := 0;
      while i < len
        invariant 0 <= i <= len && -1 <= hi < i
        invariant forall j :: hi < j < i ==> slots[j] == 0.0
      {
        if slots[i] != 0.0 {
          hi := i;
        }
        i := i + 1;
      }
      if len > 0 {
        TopNotEmpty(slots[..len], offset, seen);
      }
    }

    // Merging is seeing the other store's observations too; merging a store into itself included.
    method Merge(other: Store)
      requires Valid() && other.Valid()
      modifies this
      ensures Valid() && seen == old(seen) + old(other.seen)
    {
      hide Mass, Weight, AsBins;
      ghost var was, at, theirs, mine, old' := other.slots[..other.len], other.offset, other.seen, seen, Top();
      var hi := other.Highest();
      if hi < 0 {
        assert mine + theirs == mine;
        return;
      }
      NoneNegative(was, at, theirs);
      Grow(other.offset + hi);
      AddBins(other, hi, was);
      SeenBoth(was, at, theirs, mine);
      TopOfBoth(mine, theirs, old', at + hi);
      seen := mine + theirs;
    }

    // other's buckets from i on are still as they were.
    ghost predicate Ahead(was: seq<real>, at: int, i: nat)
      reads this
    {
      offset == at && len == |was| <= |slots| && forall j :: i <= j < |was| ==> slots[j] == was[j]
    }

    method AddBins(other: Store, hi: int, ghost was: seq<real>)
      requires Loose() && len > 0 && other.Ahead(was, other.offset, 0) && hi == |was| - 1
      requires other.offset + hi <= Top() && forall i :: 0 <= i < |was| ==> was[i] >= 0.0
      modifies this
      ensures Loose() && len > 0 && Top() == old(Top())
      ensures seen == old(seen) + AsBins(was, old(other.offset), |was|)
    {
      ghost var at, mine, top := other.offset, seen, Top();
      var i := 0;
      assert mine + AsBins(was, at, 0) == mine;
      hide Ahead, Loose, AsBins;
      while i <= hi
        invariant 0 <= i <= hi + 1
        invariant Loose() && len > 0 && Top() == top
        invariant seen == mine + AsBins(was, at, i)
        invariant other.Ahead(was, at, i)
      {
        AddBucket(other, i, was, at);
        AsBinsNext(mine, was, at, i);
        i := i + 1;
      }
    }

    method AddBucket(other: Store, i: nat, ghost was: seq<real>, ghost at: int)
      requires Loose() && len > 0 && other.Ahead(was, at, i) && i < |was| && at + i <= Top() && was[i] >= 0.0
      modifies this
      ensures Loose() && len > 0 && Top() == old(Top()) && other.Ahead(was, at, i + 1)
      ensures seen == if was[i] != 0.0 then old(seen) + [Bin(at + i, was[i])] else old(seen)
    {
      hide Holds, Weight, Positive;
      var c := other.slots[i];
      if c != 0.0 {
        Add(other.offset + i, c);
      }
    }

    ghost method SeenBoth(was: seq<real>, at: int, theirs: seq<Bin>, mine: seq<Bin>)
      requires Loose() && len > 0 && seen == mine + AsBins(was, at, |was|)
      requires Holds(was, at, theirs, at + |was| - 1) && Positive(theirs) && Positive(mine) && at + |was| - 1 <= Top()
      ensures Holds(slots[..len], offset, mine + theirs, Top())
      ensures total == Weight(mine + theirs) && Positive(mine + theirs)
    {
      MergedHolds(slots[..len], offset, mine, Top(), was, at, theirs, at + |was| - 1);
      BucketsWeigh(was, at, theirs, at + |was| - 1, Top(), 0);
      WeightJoin(mine, theirs);
      WeightJoin(mine, AsBins(was, at, |was|));
    }
  }

  lemma AsBinsNext(mine: seq<Bin>, counts: seq<real>, offset: int, i: nat)
    requires i < |counts|
    ensures mine + AsBins(counts, offset, i + 1)
         == if counts[i] != 0.0 then mine + AsBins(counts, offset, i) + [Bin(offset + i, counts[i])]
             else mine + AsBins(counts, offset, i)
  {
  }

  lemma TopOfBoth(h: seq<Bin>, g: seq<Bin>, top: int, theirs: int)
    requires (h == [] || IsTop(h, top)) && IsTop(g, theirs)
    ensures IsTop(h + g, if h == [] || theirs > top then theirs else top)
  {
    if h == [] || theirs > top {
      var x :| x in g && x.k == theirs;
      assert x in h + g;
    } else {
      var x :| x in h && x.k == top;
      assert x in h + g;
    }
  }

  lemma NoneNegative(counts: seq<real>, offset: int, h: seq<Bin>)
    requires Holds(counts, offset, h, offset + |counts| - 1) && Positive(h)
    ensures forall i :: 0 <= i < |counts| ==> counts[i] >= 0.0
  {
    forall i | 0 <= i < |counts| ensures counts[i] >= 0.0 {
      MassNonNegative(h, Floor(offset + |counts| - 1), offset + i);
    }
  }

  lemma TopNotEmpty(counts: seq<real>, offset: int, h: seq<Bin>)
    requires Holds(counts, offset, h, offset + |counts| - 1) && Positive(h) && IsTop(h, offset + |counts| - 1)
    ensures counts[|counts| - 1] != 0.0
  {
    var top := offset + |counts| - 1;
    var x :| x in h && x.k == top;
    MassPositive(h, Floor(top), x);
    assert counts[|counts| - 1] == Mass(h, Floor(top), offset + (|counts| - 1));
  }
}
