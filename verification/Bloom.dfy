/**
 The trigram filter of a block (internal/logstore/bloom.go:57-184, search.go:226-236):
 a "no" is certain. Whatever the hash, a block skipped by its filter holds no log
 the query wants, so skipping never changes an answer. The bits are modelled as
 an array of booleans; the bytes they are packed in are left out.
 */
module Bloom {
  import opened Options
  import opened LogState
  import opened LogSearch

  const K := 4
  const BITS_PER_ITEM := 8
  const MIN_BYTES := 8
  const MAX_BYTES := 64 * 1024

  type Text = seq<char>   // lowercased bytes

  datatype Trigram = Trigram(a: char, b: char, c: char)

  // The two hash values double hashing starts from.
  type Mix = Trigram -> (nat, nat)

  function Window(s: Text, i: nat): Trigram
    requires i + 2 < |s|
  {
    Trigram(s[i], s[i + 1], s[i + 2])
  }

  function Probe(t: Trigram, m: nat, mix: Mix, i: nat): (r: nat)
    requires m > 0
    ensures r < m
  {
    (mix(t).0 + i * mix(t).1) % m
  }

  predicate Has(bits: seq<bool>, t: Trigram, mix: Mix)
    requires |bits| > 0
  {
    forall i :: 0 <= i < K ==> bits[Probe(t, |bits|, mix, i)]
  }

  // Every window of lit may be present. A literal of fewer than three bytes has none.
  predicate HasLiteral(bits: seq<bool>, lit: Text, mix: Mix)
    requires |bits| > 0
  {
    forall i :: 0 <= i && i + 2 < |lit| ==> Has(bits, Window(lit, i), mix)
  }

  // Some alternative's literals may all be present; no alternatives at all constrain nothing.
  predicate MayMatch(bits: seq<bool>, need: seq<seq<Text>>, mix: Mix)
    requires |bits| > 0
  {
    need == [] || exists a :: 0 <= a < |need| && AllMay(bits, need[a], mix)
  }

  predicate AllMay(bits: seq<bool>, alt: seq<Text>, mix: Mix)
    requires |bits| > 0
  {
    forall l :: 0 <= l < |alt| ==> HasLiteral(bits, alt[l], mix)
  }

  function Bytes(n: nat): nat {
    var want := (n * BITS_PER_ITEM + 7) / 8;
    if want < MIN_BYTES then MIN_BYTES else if want > MAX_BYTES then MAX_BYTES else want
  }

  ghost predicate Occurs(lit: Text, s: Text) {
    exists i :: Within(lit, s, i)
  }

  ghost predicate Within(lit: Text, s: Text, i: nat) {
    i + |lit| <= |s| && s[i..i + |lit|] == lit
  }

  /* Building. */

  method Windows(texts: seq<Text>) returns (seen: set<Trigram>)
    ensures forall k, i :: 0 <= k < |texts| && 0 <= i && i + 2 < |texts[k]| ==> Window(texts[k], i) in seen
  {
    seen := {};
    for k := 0 to |texts|
      invariant forall j, i :: 0 <= j < k && 0 <= i && i + 2 < |texts[j]| ==> Window(texts[j], i) in seen
    {
      var s, i := texts[k], 0;
      while i + 2 < |s|
        invariant forall j, n :: 0 <= j < k && 0 <= n && n + 2 < |texts[j]| ==> Window(texts[j], n) in seen
        invariant forall n :: 0 <= n < i && n + 2 < |s| ==> Window(s, n) in seen
      {
        seen := seen + {Window(s, i)};
        i := i + 1;
      }
    }
  }

  // Setting bits only ever adds trigrams.
  lemma HasStays(bits: seq<bool>, more: seq<bool>, t: Trigram, mix: Mix)
    requires |bits| == |more| > 0 && Has(bits, t, mix) && forall i :: 0 <= i < |bits| && bits[i] ==> more[i]
    ensures Has(more, t, mix)
  {
  }

  method SetProbes(bits: array<bool>, t: Trigram, mix: Mix)
    requires bits.Length > 0
    modifies bits
    ensures Has(bits[..], t, mix)
    ensures forall i :: 0 <= i < bits.Length && old(bits[i]) ==> bits[i]
  {
    var i := 0;
    while i < K
      invariant 0 <= i <= K
      invariant forall n :: 0 <= n < i ==> bits[Probe(t, bits.Length, mix, n)]
      invariant forall n :: 0 <= n < bits.Length && old(bits[n]) ==> bits[n]
    {
      bits[Probe(t, bits.Length, mix, i)] := true;
      i := i + 1;
    }
  }

  method BuildBloom(texts: seq<Text>, mix: Mix) returns (bits: array<bool>)
    ensures fresh(bits) && MIN_BYTES * 8 <= bits.Length <= MAX_BYTES * 8
    ensures Holds(bits[..], texts, mix)
  {
    var seen := Windows(texts);
    bits := new bool[Bytes(|seen|) * 8](_ => false);
    var left := seen;
    while left != {}
      invariant fresh(bits) && bits.Length == Bytes(|seen|) * 8 && left <= seen
      invariant forall t :: t in seen && t !in left ==> Has(bits[..], t, mix)
    {
      var t :| t in left;
      ghost var before := bits[..];
      SetProbes(bits, t, mix);
      forall u | u in seen && u !in left ensures Has(bits[..], u, mix) {
        HasStays(before, bits[..], u, mix);
      }
      left := left - {t};
    }
  }

  // Every window of every text is in the filter.
  ghost predicate Holds(bits: seq<bool>, texts: seq<Text>, mix: Mix) {
    |bits| > 0 && forall k, i :: 0 <= k < |texts| && 0 <= i && i + 2 < |texts[k]| ==>
        Has(bits, Window(texts[k], i), mix)
  }

  /* Asking. */

  method Ask(bits: seq<bool>, need: seq<seq<Text>>, mix: Mix) returns (may: bool)
    requires |bits| > 0
    ensures may == MayMatch(bits, need, mix)
  {
    if need == [] {
      return true;
    }
    for a := 0 to |need|
      invariant forall b :: 0 <= b < a ==> !AllMay(bits, need[b], mix)
    {
      var ok := AskAll(bits, need[a], mix);
      if ok {
        return true;
      }
    }
    may := false;
  }

  method AskAll(bits: seq<bool>, alt: seq<Text>, mix: Mix) returns (ok: bool)
    requires |bits| > 0
    ensures ok == AllMay(bits, alt, mix)
  {
    var l := 0;
    while l < |alt|
      invariant 0 <= l <= |alt| && forall n :: 0 <= n < l ==> HasLiteral(bits, alt[n], mix)
    {
      var has := AskLiteral(bits, alt[l], mix);
      if !has {
        return false;
      }
      l := l + 1;
    }
    ok := true;
  }

  method AskLiteral(bits: seq<bool>, lit: Text, mix: Mix) returns (has: bool)
    requires |bits| > 0
    ensures has == HasLiteral(bits, lit, mix)
  {
    var i := 0;
    while i + 2 < |lit|
      invariant 0 <= i && forall n :: 0 <= n < i && n + 2 < |lit| ==> Has(bits, Window(lit, n), mix)
    {
      if !Has(bits, Window(lit, i), mix) {
        return false;
      }
      i := i + 1;
    }
    has := true;
  }

  /* Soundness. */

  // A literal that occurs in a text is never denied.
  lemma LiteralHeld(bits: seq<bool>, texts: seq<Text>, mix: Mix, k: nat, lit: Text)
    requires Holds(bits, texts, mix) && k < |texts| && Occurs(lit, texts[k])
    ensures HasLiteral(bits, lit, mix)
  {
    var at: nat :| Within(lit, texts[k], at);
    forall i | 0 <= i && i + 2 < |lit| ensures Has(bits, Window(lit, i), mix) {
      assert lit[i] == texts[k][at + i] && lit[i + 1] == texts[k][at + i + 1] && lit[i + 2] == texts[k][at + i + 2];
      assert Has(bits, Window(texts[k], at + i), mix);
    }
  }

  // What the query language promises about its literals: a wanted log contains all those of some alternative.
  ghost predicate NeedOk(need: seq<seq<Text>>, want: Entry -> bool, texts: Entry -> seq<Text>) {
    need != [] ==> forall e :: want(e) ==> exists a :: 0 <= a < |need| && AllOccur(need[a], texts(e))
  }

  ghost predicate AllOccur(alt: seq<Text>, texts: seq<Text>) {
    forall l :: 0 <= l < |alt| ==> exists k :: 0 <= k < |texts| && Occurs(alt[l], texts[k])
  }

  // The filter covers the block: the texts of every entry went in.
  ghost predicate Covers(bits: seq<bool>, entries: seq<Entry>, texts: Entry -> seq<Text>, mix: Mix) {
    forall e :: e in entries ==> Holds(bits, texts(e), mix)
  }

  // A block is skipped only on the word of a filter that verified.
  predicate RuledOut(filter: Option<seq<bool>>, need: seq<seq<Text>>, mix: Mix)
    requires filter.Some? ==> |filter.value| > 0
  {
    need != [] && filter.Some? && !MayMatch(filter.value, need, mix)
  }

  // A block ruled out holds nothing the query wants: what Search relies on when it skips one.
  lemma SkipIsSafe(filter: Option<seq<bool>>, need: seq<seq<Text>>, mix: Mix, entries: seq<Entry>,
                   want: Entry -> bool, texts: Entry -> seq<Text>)
    requires filter.Some? ==> |filter.value| > 0 && Covers(filter.value, entries, texts, mix)
    requires NeedOk(need, want, texts) && RuledOut(filter, need, mix)
    ensures forall e :: e in entries ==> !want(e)
  {
    var bits := filter.value;
    forall e | e in entries ensures !want(e) {
      if want(e) {
        var a :| 0 <= a < |need| && AllOccur(need[a], texts(e));
        MatchMay(bits, need, mix, texts(e), a);
      }
    }
  }

  lemma MatchMay(bits: seq<bool>, need: seq<seq<Text>>, mix: Mix, texts: seq<Text>, a: nat)
    requires Holds(bits, texts, mix) && a < |need| && AllOccur(need[a], texts)
    ensures MayMatch(bits, need, mix)
  {
    hide HasLiteral, Occurs;
    forall l | 0 <= l < |need[a]| ensures HasLiteral(bits, need[a][l], mix) {
      var k :| 0 <= k < |texts| && Occurs(need[a][l], texts[k]);
      LiteralHeld(bits, texts, mix, k, need[a][l]);
    }
  }

  // So a run that is skipped on its filter's word is one the search may skip.
  lemma SkippedRunOk(r: Run, filter: Option<seq<bool>>, need: seq<seq<Text>>, mix: Mix, want: Entry -> bool,
                     texts: Entry -> seq<Text>)
    requires RunOk(r.(skip := false), want) && r.isBlock
    requires filter.Some? ==> |filter.value| > 0 && Covers(filter.value, r.entries, texts, mix)
    requires NeedOk(need, want, texts) && r.skip == RuledOut(filter, need, mix)
    ensures RunOk(r, want)
  {
    if r.skip {
      SkipIsSafe(filter, need, mix, r.entries, want, texts);
    }
  }
}
