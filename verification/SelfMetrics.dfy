/**
 Self-metrics (internal/selfmetrics): counters that are held, released and taken
 back while a reporter turns their totals into differences, and the rule that
 keeps a restarted process from stamping a bucket its predecessor stamped.
 */
module SelfMetrics {
  import opened Options

  // Division and remainder as in Go: toward zero.
  function Quot(a: int, b: int): int
    requires b > 0
  {
    if a >= 0 then a / b else -(-a / b)
  }

  function Rem(a: int, b: int): int
    requires b > 0
  {
    a - Quot(a, b) * b
  }

  // The first bucket a process started at `started` may stamp.
  function FirstBucket(started: int, interval: int): int
    requires interval > 0
  {
    started - Rem(Rem(started, interval) + interval, interval) + interval
  }

  function Later(a: int, b: int): int {
    if a < b then b else a
  }

  lemma StampGrows(a: int, c: int, b: int)
    requires b > 0 && a <= c
    ensures Stamp(a, b) <= Stamp(c, b) && Stamp(a, b) <= Later(0, a)
  {
    QuotOf(a, b);
    QuotOf(c, b);
    hide Quot;
    NextTo(Quot(a, b), Quot(c, b), b);
  }

  lemma TimesSign(n: int, b: int)
    requires b > 0
    ensures if n >= 1 then n * b >= b else n * b <= 0
  {
  }

  lemma NextTo(p: int, q: int, b: int)
    requires b > 0 && p * b < q * b + b
    ensures p * b <= q * b
  {
    TimesSign(p - q, b);
    assert p * b == q * b + (p - q) * b;
  }

  // The bucket a report at now is stamped with.
  function Stamp(now: int, interval: int): int
    requires interval > 0
  {
    Quot(now, interval) * interval
  }

  // The quotient is the multiple next to a on zero's side.
  lemma QuotOf(a: int, b: int)
    requires b > 0
    ensures a >= 0 ==> Quot(a, b) * b <= a < Quot(a, b) * b + b
    ensures a < 0 ==> Quot(a, b) * b - b < a <= Quot(a, b) * b && Quot(a, b) * b <= 0
  {
    if a >= 0 {
      assert a == a / b * b + a % b;
    } else {
      var n := -a;
      assert n == n / b * b + n % b;
      assert -(n / b) * b == -(n / b * b);
      assert n / b >= 0;
      assert n / b * b >= 0;
    }
  }

  // It is a multiple of the interval, and the next one strictly after the start.
  lemma FirstBucketIs(started: int, interval: int)
    requires interval > 0
    ensures FirstBucket(started, interval) % interval == 0
    ensures started < FirstBucket(started, interval) <= started + interval
  {
    QuotOf(started, interval);
    var r := Rem(started, interval) + interval;
    QuotOf(r, interval);
    var q := Quot(started, interval) + Quot(r, interval);
    assert FirstBucket(started, interval) == started - (r - Quot(r, interval) * interval) + interval;
    assert q * interval == Quot(started, interval) * interval + Quot(r, interval) * interval;
    assert FirstBucket(started, interval) == q * interval;
    MultipleOf(q, interval);
  }

  lemma MultipleOf(q: int, b: int)
    requires b > 0
    ensures (q * b) % b == 0
  {
    var d := q * b / b - q;
    assert q * b == q * b / b * b + (q * b) % b;
    assert d * b == -((q * b) % b);
    assert d <= -1 ==> d * b <= -b;
    assert d >= 1 ==> d * b >= b;
  }

  // Nobody held the instrument when the snapshot was taken, and nobody has taken it since.
  ghost predicate Unused(entry: Option<Entry>, shot: Option<Option<Shot>>) {
    && entry.Some? && shot.Some? && shot.value.Some?
    && shot.value.value.released && entry.value.refs == 0 && entry.value.gen == shot.value.value.gen
  }

  // The stamp is the boundary at or before now, toward zero before the epoch.
  lemma StampIs(now: int, interval: int)
    requires interval > 0
    ensures var ts := Stamp(now, interval);
            && ts % interval == 0
            && if now >= 0 then ts <= now < ts + interval else ts - interval < now <= ts
  {
    QuotOf(now, interval);
    MultipleOf(Quot(now, interval), interval);
  }

  ghost predicate Increasing(xs: seq<int>) {
    forall i, j :: 0 <= i < j < |xs| ==> xs[i] < xs[j]
  }

  // A registry entry: the counter's total since it was created, its holders, and how often it was taken.
  datatype Entry = Entry(value: nat, refs: nat, gen: nat)

  datatype Shot = Shot(value: nat, released: bool, gen: nat)

  // One counter identity, and the reporter's memory of it. A Collect is Snapshot and then Report; anything
  // may happen between.
  class Counter {
    const interval: int
    var first: int
    var entry: Option<Entry>
    var prev: Option<nat>
    var lastTs: int
    var shot: Option<Option<Shot>>   // taken by the Collect under way
    ghost var total: nat             // every increment there ever was
    ghost var dropped: nat           // ... by instruments dropped since
    ghost var visible: nat           // ... as of the snapshot
    ghost var reported: int          // the sum of the differences reported
    ghost var stamps: seq<int>
    ghost var latest: Option<int>    // the last time given to Report
    ghost var forward: bool          // the times never went back
    ghost var high: int              // the greatest time given to Report, or zero
    ghost var started: Option<int>   // what NotBefore was told
    ghost var since: nat             // ... and how many stamps there were then

    constructor (interval: int)
      requires interval > 0
      ensures Valid() && total == 0 && reported == 0 && stamps == [] && high == 0 && started.None?
    {
      this.interval := interval;
      first, entry, prev, lastTs, shot := 0, None, None, 0, None;
      total, dropped, visible, reported, stamps, latest, forward := 0, 0, 0, 0, [], None, true;
      high, started, since := 0, None, 0;
    }

    ghost predicate Valid()
      reads this
    {
      && interval > 0
      && total == dropped + (if entry.Some? then entry.value.value else 0)
      && reported == dropped + (if prev.Some? then prev.value else 0)
      && (entry.None? ==> prev.None?)
      && (shot.Some? ==> ShotOk(shot.value))
      && (forward ==> StampsOk())
      && WithinOk()
    }

    // No stamp is later than the latest report, and none since NotBefore is at or before the start.
    ghost predicate WithinOk()
      reads this
    {
      && high >= 0 && (forall t :: t in stamps ==> t <= high)
      && (started.Some? ==> started.value < first && since <= |stamps| && forall i :: since <= i < |stamps| ==>
             first <= stamps[i])
    }

    // If the instrument was released at the snapshot and not taken since, it has not moved since.
    ghost predicate ShotOk(p: Option<Shot>)
      reads this
    {
      if p.None? then visible == dropped && prev.None?
      else
        && entry.Some? && visible == dropped + p.value.value && p.value.gen <= entry.value.gen
        && (p.value.released && entry.value.gen == p.value.gen ==>
               entry.value.refs == 0 && entry.value.value == p.value.value)
    }

    ghost predicate StampsOk()
      requires interval > 0
      reads this
    {
      && Increasing(stamps)
      && (stamps != [] ==> stamps[|stamps| - 1] == lastTs && latest.Some? && lastTs <= Stamp(latest.value, interval))
    }

    // A process that started in second s: from here on, every stamp is strictly after s (Valid), and no whole
    // bucket after it is left out.
    method NotBefore(s: int)
      requires Valid()
      modifies this`first, this`started, this`since
      ensures Valid() && started == Some(s) && since == |stamps|
      ensures s < first <= s + interval && first % interval == 0
    {
      FirstBucketIs(s, interval);
      hide FirstBucket;
      first, started, since := FirstBucket(s, interval), Some(s), |stamps|;
    }

    // Registry.Counter: found or created, and one holder more.
    method Take()
      requires Valid()
      modifies this`entry
      ensures Valid() && entry.Some?
      ensures entry.value.refs == 1 + if old(entry).Some? then old(entry).value.refs else 0
    {
      entry := if entry.Some? then Some(Entry(entry.value.value, entry.value.refs + 1, entry.value.gen + 1))
          else Some(Entry(0, 1, 1));
    }

    // By a holder.
    method Inc(n: nat)
      requires Valid() && entry.Some? && entry.value.refs > 0
      modifies this`entry, this`total
      ensures Valid() && total == old(total) + n && entry.Some? && entry.value.refs > 0
    {
      entry := Some(entry.value.(value := entry.value.value + n));
      total := total + n;
    }

    method Release()
      requires Valid()
      modifies this`entry
      ensures Valid() && entry.Some? == old(entry).Some?
      ensures entry.Some? ==> entry.value.refs == if old(entry).value.refs > 0 then old(entry).value.refs - 1 else 0
    {
      if entry.Some? && entry.value.refs > 0 {
        entry := Some(entry.value.(refs := entry.value.refs - 1));
      }
    }

    method Snapshot()
      requires Valid() && shot.None?
      modifies this`shot, this`visible
      ensures Valid() && shot.Some? && visible == total
    {
      shot := Some(if entry.Some? then Some(Shot(entry.value.value, entry.value.refs == 0, entry.value.gen)) else None);
      visible := total;
    }

    // The difference since the last report; a released instrument nobody has taken back goes.
    method Settle(p: Shot) returns (d: int)
      requires total == dropped + (if entry.Some? then entry.value.value else 0)
      requires reported == dropped + (if prev.Some? then prev.value else 0) && ShotOk(Some(p))
      modifies this`entry, this`prev, this`dropped, this`reported
      ensures total == dropped + (if entry.Some? then entry.value.value else 0)
      ensures reported == dropped + (if prev.Some? then prev.value else 0) == visible == old(reported) + d
      ensures entry.None? ==> prev.None?
      ensures entry == if Unused(old(entry), Some(Some(p))) then None else old(entry)
    {
      d := p.value - if prev.Some? then prev.value else 0;
      if p.released && entry.value.refs == 0 && entry.value.gen == p.gen {
        dropped := dropped + entry.value.value;
        entry, prev := None, None;
      } else {
        prev := Some(p.value);
      }
      reported := reported + d;
    }

    // The rest of Collect at now. ts is the boundary now lies after, toward zero. When it stamps, what has been
    // reported is exactly what the snapshot saw.
    method Report(now: int) returns (delta: Option<int>, ghost ts: int)
      requires Valid() && shot.Some?
      modifies this`entry, this`prev, this`lastTs, this`shot, this`dropped, this`reported, this`stamps, this`latest,
               this`forward, this`high
      ensures Valid() && shot.None? && total == old(total)
      ensures reported == old(reported) + if delta.Some? then delta.value else 0
      ensures ts % interval == 0 && (if now >= 0 then ts <= now < ts + interval else ts - interval < now <= ts)
      ensures if ts == old(lastTs) || ts < first then delta.None? && stamps == old(stamps) && entry == old(entry)
              else reported == visible && stamps == old(stamps) + [ts]
      ensures entry == old(entry) || (entry.None? && Unused(old(entry), old(shot)))
      ensures ts != old(lastTs) && ts >= first && Unused(old(entry), old(shot)) ==> entry.None?
      ensures ts <= high == Later(old(high), now)
      ensures forward <==> old(forward) && (old(latest).Some? ==> old(latest.value) <= now)
    {
      var p := shot.value;
      StampIs(now, interval);
      ts := Stamp(now, interval);
      hide Stamp, StampsOk, WithinOk;
      var due := Mark(now);
      shot, delta := None, None;
      if due && p.Some? {
        var d := Settle(p.value);
        delta := Some(d);
      }
    }

    // Whether now has a bucket to stamp, and if so that it is stamped.
    method Mark(now: int) returns (due: bool)
      requires interval > 0 && (forward ==> StampsOk()) && WithinOk()
      modifies this`lastTs, this`stamps, this`latest, this`forward, this`high
      ensures (forward ==> StampsOk()) && WithinOk() && Stamp(now, interval) <= high == Later(old(high), now)
      ensures var ts := Stamp(now, interval);
              due == (ts != old(lastTs) && ts >= first) && stamps == if due then old(stamps) + [ts] else old(stamps)
      ensures forward <==> old(forward) && (old(latest).Some? ==> old(latest.value) <= now)
    {
      StampGrows(now, now, interval);
      hide Stamp;
      var ts := Stamp(now, interval);
      if latest.Some? && latest.value <= now {
        StampGrows(latest.value, now, interval);
      }
      due := ts != lastTs && ts >= first;
      if due {
        lastTs, stamps := ts, stamps + [ts];
      }
      forward, latest, high := forward && (latest.Some? ==> latest.value <= now), Some(now), Later(high, now);
    }
  }

  // Restart: a process that reports for the last time no later than the next one's start and the next one,
  // told when it started, never stamp the same bucket, even when both fall within a second. If neither
  // clock went back, what the two stamp in turn increases throughout.
  lemma RestartDisjoint(before: Counter, after: Counter)
    requires before.Valid() && after.Valid()
    requires after.started.Some? && after.since == 0 && before.high <= after.started.value
    ensures forall s, t :: s in before.stamps && t in after.stamps ==> s < t
    ensures before.forward && after.forward ==> Increasing(before.stamps + after.stamps)
  {
    var a, b := before.stamps, after.stamps;
    forall i, j | 0 <= i < |a| && 0 <= j < |b| ensures a[i] < b[j] {
      assert a[i] in a && b[j] in b;
    }
  }
}
