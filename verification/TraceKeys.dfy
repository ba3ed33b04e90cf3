/**
 The trace store's keys (internal/tracestore/keys.go): byte strings whose order is
 the order of a search. A prefix scan finds exactly the keys of one (env, service)
 pair, newest first.
 */
module TraceKeys {
  import opened Options
  import opened Bytes

  const SUFFIX_LEN: nat := 32   // inverted start, trace id, span id

  // bytes.Compare(a, b) < 0
  predicate Less(a: bytes, b: bytes) {
    if b == [] then false
    else if a == [] then true
    else a[0] < b[0] || (a[0] == b[0] && Less(a[1..], b[1..]))
  }

  /* Order. */

  lemma {:induction false} LessShared(p: bytes, a: bytes, b: bytes)
    ensures Less(p + a, p + b) <==> Less(a, b)
  {
    if p == [] {
      assert p + a == a && p + b == b;
    } else {
      assert (p + a)[1..] == p[1..] + a && (p + b)[1..] == p[1..] + b;
      LessShared(p[1..], a, b);
    }
  }

  // Among byte strings of one length, the order is that of the numbers they spell.
  lemma {:induction false} BeOrder(a: bytes, b: bytes)
    requires |a| == |b|
    ensures Less(a, b) <==> GetBe(a) < GetBe(b)
    ensures a == b <==> GetBe(a) == GetBe(b)
  {
    if a != [] {
      FirstByte(a);
      FirstByte(b);
      BeOrder(a[1..], b[1..]);
      assert a == b <==> a[0] == b[0] && a[1..] == b[1..] by {
        assert a == [a[0]] + a[1..] && b == [b[0]] + b[1..];
      }
      HighByte(a[0] as nat, GetBe(a[1..]), b[0] as nat, GetBe(b[1..]), Span(|a| - 1));
    }
  }

  lemma {:induction false} FirstByte(a: bytes)
    requires a != []
    ensures GetBe(a) == a[0] as nat * Span(|a| - 1) + GetBe(a[1..])
  {
    var n := |a| - 1;
    if n == 0 {
      assert a[..0] == [] && a[1..] == [];
    } else {
      FirstByte(a[..n]);
      assert a[..n][1..] == a[1..][..n - 1];
      assert Span(n) == 256 * Span(n - 1);
      Distribute(a[0] as nat, Span(n - 1), GetBe(a[..n][1..]));
    }
  }

  lemma Distribute(d: nat, s: nat, r: nat)
    ensures 256 * (d * s + r) == d * (256 * s) + 256 * r
  {
  }

  lemma HighByte(c: nat, x: nat, d: nat, y: nat, s: nat)
    requires x < s && y < s
    ensures c * s + x < d * s + y <==> c < d || (c == d && x < y)
    ensures c * s + x == d * s + y <==> c == d && x == y
  {
    if c < d {
      assert (c + 1) * s <= d * s;
    } else if d < c {
      assert (d + 1) * s <= c * s;
    }
  }

  /* Prefix scans. */

  predicate HasPrefix(k: bytes, p: bytes) {
    p <= k
  }

  // The smallest key above every key with the prefix; none if there is no bound.
  method Successor(p: bytes) returns (r: Option<bytes>)
    ensures r == Next(p)
  {
    var i := |p|;
    assert p[..i] == p;
    while i > 0
      invariant 0 <= i <= |p| && Next(p) == Next(p[..i])
    {
      i := i - 1;
      assert p[..i + 1][..i] == p[..i];
      if p[i] < 255 {
        return Some(p[..i] + [p[i] + 1]);
      }
    }
    assert p[..0] == [];
    r := None;
  }

  function Next(p: bytes): Option<bytes> {
    if p == [] then None
    else
      var n := |p| - 1;
      if p[n] < 255 then Some(p[..n] + [p[n] + 1]) else Next(p[..n])
  }

  // A scan from p to its successor sees exactly the keys that start with p.
  lemma {:induction false} PrefixRange(p: bytes, k: bytes)
    ensures HasPrefix(k, p) <==> !Less(k, p) && (Next(p).Some? ==> Less(k, Next(p).value))
    decreases |p|
  {
    if p == [] {
    } else if k == [] {
      NextNotEmpty(p);
    } else {
      NextFirst(p);
      if k[0] == p[0] {
        PrefixRange(p[1..], k[1..]);
        assert HasPrefix(k, p) <==> HasPrefix(k[1..], p[1..]) by {
          if HasPrefix(k[1..], p[1..]) {
            assert p == [p[0]] + p[1..] && k == [k[0]] + k[1..];
          }
        }
      }
    }
  }

  lemma {:induction false} NextNotEmpty(p: bytes)
    ensures Next(p).Some? ==> Next(p).value != []
  {
    if p != [] {
      NextNotEmpty(p[..|p| - 1]);
    }
  }

  // The successor changes the first byte only when nothing after it can grow.
  lemma {:induction false} NextFirst(p: bytes)
    requires p != []
    ensures var rest := Next(p[1..]);
            Next(p) == if rest.Some? then Some([p[0]] + rest.value) else if p[0] < 255 then Some([p[0] + 1]) else None
  {
    var n := |p| - 1;
    if n == 0 {
      assert p[..0] == [] && p[1..] == [];
      assert p[0] < 255 ==> [] + [p[0] + 1] == [p[0] + 1];
    } else {
      assert p[1..][..n - 1] == p[..n][1..] && p[1..][n - 1] == p[n];
      NextFirst(p[..n]);
      if p[n] < 255 {
        assert p[..n] + [p[n] + 1] == [p[0]] + (p[1..][..n - 1] + [p[n] + 1]);
      }
    }
  }

  /* Pairs. */

  predicate NoNul(s: bytes) {
    forall i :: 0 <= i < |s| ==> s[i] != 0
  }

  const UNDERSCORE: byte := 95

  function Clean(s: bytes): (r: bytes)
    ensures NoNul(r) && |r| == |s| && (NoNul(s) ==> r == s)
  {
    seq(|s|, i requires 0 <= i < |s| => if s[i] == 0 then UNDERSCORE else s[i])
  }

  function PairPrefix(kind: byte, env: bytes, service: bytes): bytes {
    [kind] + Clean(env) + [0] + Clean(service) + [0]
  }

  function First(s: bytes): byte {
    if s == [] then 0 else s[0]
  }

  // Up to the first NUL, two strings that agree are the same string.
  lemma {:induction false} OneSplit(a: bytes, x: bytes, b: bytes, y: bytes)
    requires NoNul(a) && NoNul(b) && a + [0] + x == b + [0] + y
    ensures a == b && x == y
  {
    var s, t := a + [0] + x, b + [0] + y;
    if a == [] || b == [] {
      assert s[0] == First(a) && t[0] == First(b);
      assert a == b;
      assert s[1..] == x && t[1..] == y;
    } else {
      assert s[0] == a[0] && t[0] == b[0];
      assert s[1..] == a[1..] + [0] + x && t[1..] == b[1..] + [0] + y;
      OneSplit(a[1..], x, b[1..], y);
      assert a == [a[0]] + a[1..] && b == [b[0]] + b[1..];
    }
  }

  // A key under one pair's prefix is under no other's, whatever follows: names cannot run into each other.
  lemma PairsApart(kind: byte, env: bytes, service: bytes, x: bytes, env': bytes, service': bytes, y: bytes)
    requires PairPrefix(kind, env, service) + x == PairPrefix(kind, env', service') + y
    ensures Clean(env) == Clean(env') && Clean(service) == Clean(service') && x == y
  {
    var a, b, c, d := Clean(env), Clean(service), Clean(env'), Clean(service');
    var s, t := PairPrefix(kind, env, service) + x, PairPrefix(kind, env', service') + y;
    assert s[1..] == a + [0] + (b + [0] + x) && t[1..] == c + [0] + (d + [0] + y);
    OneSplit(a, b + [0] + x, c, d + [0] + y);
    OneSplit(b, x, d, y);
  }

  /* Suffixes. */

  // invert: the bits of a start time flipped.
  function Invert(start: int): nat
    requires IsInt64(start)
  {
    TWO_64 - 1 - ToUint64(start)
  }

  function Suffix(start: int, trace: bytes, span: bytes): (r: bytes)
    requires IsInt64(start) && |trace| == 16 && |span| == 8
    ensures |r| == SUFFIX_LEN
  {
    SpanOf8();
    PutBe(Invert(start), 8) + trace + span
  }

  lemma SpanOf8()
    ensures Span(8) == TWO_64
  {
    assert Span(4) == 0x1_0000_0000;
    assert Span(6) == 256 * (256 * Span(4));
  }

  // Within a pair a later span comes first.
  lemma NewestFirst(p: bytes, s: int, t: bytes, n: bytes, s': int, t': bytes, n': bytes)
    requires 0 <= s' < s < TWO_63 && |t| == 16 == |t'| && |n| == 8 == |n'|
    ensures Less(p + Suffix(s, t, n), p + Suffix(s', t', n'))
  {
    hide PutBe, GetBe, Less, Span, Suffix, Invert;
    SuffixIs(s, t, n);
    SuffixIs(s', t', n');
    var a, b := PutBe(Invert(s), 8), PutBe(Invert(s'), 8);
    LaterIsLess(s, s');
    LessGrows(a, t + n, b, t' + n');
    LessShared(p, Suffix(s, t, n), Suffix(s', t', n'));
  }

  lemma SuffixIs(start: int, trace: bytes, span: bytes)
    requires IsInt64(start) && |trace| == 16 && |span| == 8
    ensures Invert(start) < Span(8) && Suffix(start, trace, span) == PutBe(Invert(start), 8) + (trace + span)
  {
    SpanOf8();
    hide PutBe, Span;
  }

  lemma LaterIsLess(s: int, s': int)
    requires 0 <= s' < s < TWO_63
    ensures Invert(s) < Span(8) && Invert(s') < Span(8) && Less(PutBe(Invert(s), 8), PutBe(Invert(s'), 8))
  {
    SpanOf8();
    assert Invert(s) < Invert(s') < Span(8);
    hide PutBe, GetBe, Less, Span, Invert;
    BeBack(Invert(s), 8);
    BeBack(Invert(s'), 8);
    BeOrder(PutBe(Invert(s), 8), PutBe(Invert(s'), 8));
  }

  lemma {:induction false} LessGrows(a: bytes, x: bytes, b: bytes, y: bytes)
    requires |a| == |b| && Less(a, b)
    ensures Less(a + x, b + y)
  {
    if a[0] == b[0] {
      LessGrows(a[1..], x, b[1..], y);
      assert (a + x)[1..] == a[1..] + x && (b + y)[1..] == b[1..] + y;
    }
  }

  // What is read back from a key is what it was made of.
  function SplitStart(key: bytes): int
    requires |key| > SUFFIX_LEN
  {
    ToInt64(TWO_64 - 1 - GetBe(key[|key| - SUFFIX_LEN..|key| - SUFFIX_LEN + 8]))
  }

  lemma SplitBack(p: bytes, start: int, trace: bytes, span: bytes)
    requires p != [] && IsInt64(start) && |trace| == 16 && |span| == 8
    ensures var key := p + Suffix(start, trace, span);
            SplitStart(key) == start && key[|p| + 8..|p| + 24] == trace && key[|p| + 24..] == span
  {
    hide PutBe, GetBe, Span, Suffix, Invert, ToInt64;
    SuffixIs(start, trace, span);
    var a := PutBe(Invert(start), 8);
    KeyParts(p, a, trace, span);
    BeBack(Invert(start), 8);
    InvertBack(start);
  }

  lemma KeyParts(p: bytes, a: bytes, trace: bytes, span: bytes)
    requires |a| == 8 && |trace| == 16 && |span| == 8
    ensures var key := p + (a + (trace + span));
            && |key| == |p| + SUFFIX_LEN && key[|p|..|p| + 8] == a
            && key[|p| + 8..|p| + 24] == trace && key[|p| + 24..] == span
  {
  }

  lemma InvertBack(start: int)
    requires IsInt64(start)
    ensures ToInt64(TWO_64 - 1 - Invert(start)) == start
  {
  }
}
