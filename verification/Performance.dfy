/**
 The rolling fee history: per position a bounded run of samples, from which fees and capital over a
 window are integrated with linear interpolation at the boundary.
 */
module Performance {
  import opened Common

  const WINDOW: nat := 3_600_000

  const MAX_SAMPLES: nat := 3602

  datatype Sample = Sample(time: nat, block: nat, hash: string, revision: string, feeBase: real, feeQuote: real, principal: real)

  datatype Holding = Holding(since: nat, confirmed: bool, samples: seq<Sample>)

  type Positions = map<nat, Holding>

  datatype Item = Item(id: nat, revision: string, feeBase: real, feeQuote: real, principal: real)

  datatype Snapshot = Snapshot(
    time: nat, price: real, block: nat, hash: string, identity: nat, reorg: bool, items: seq<Item>)

  // ---------------------------------------------------------------- validation

  predicate ValidSample(s: Sample) {
    s.time > 0 && s.hash != "" && s.revision != "" && s.feeBase >= 0.0 && s.feeQuote >= 0.0 && s.principal >= 0.0
  }

  predicate Follows(a: Sample, b: Sample) {
    b.time > a.time && b.block > a.block && b.revision == a.revision && b.feeBase >= a.feeBase && b.feeQuote >= a.feeQuote
  }

  predicate ValidSamples(xs: seq<Sample>) {
    && (forall i :: 0 <= i < |xs| ==> ValidSample(xs[i]))
    && (forall i :: 0 < i < |xs| ==> Follows(xs[i - 1], xs[i]))
  }

  /** Everything the check demands but the length. */
  predicate Sound(h: Holding) { h.since > 0 && ValidSamples(h.samples) }

  predicate ValidHolding(h: Holding) { Sound(h) && |h.samples| <= MAX_SAMPLES }

  predicate Valid(ps: Positions) { forall id :: id in ps ==> ValidHolding(ps[id]) }

  // ---------------------------------------------------------------- observing

  function Trimmed(xs: seq<Sample>, cutoff: nat): seq<Sample> {
    if |xs| > 2 && xs[1].time <= cutoff then Trimmed(xs[1..], cutoff) else xs
  }

  predicate Repeats(prev: Sample, s: Sample) { prev.block == s.block && prev.hash == s.hash }

  /** The next sample cannot extend the run: reorganised, too late, operated on, or counters fell. */
  predicate Breaks(prev: Sample, s: Sample, maxGap: nat) {
    || s.time <= prev.time || s.block <= prev.block || s.time - prev.time > maxGap
    || s.revision != prev.revision || s.feeBase < prev.feeBase || s.feeQuote < prev.feeQuote
  }

  function Sampled(xs: seq<Sample>, s: Sample, maxGap: nat): seq<Sample> {
    if xs != [] && Repeats(xs[|xs| - 1], s) then xs
    else
      var kept := if xs != [] && Breaks(xs[|xs| - 1], s, maxGap) then [] else xs;
      Trimmed(kept + [s], SatSub(s.time, WINDOW))
  }

  function SampleOf(o: Snapshot, i: Item): Sample { Sample(o.time, o.block, o.hash, i.revision, i.feeBase, i.feeQuote, i.principal) }

  /** `start` is a confirmed mint not after the snapshot. */
  function Begun(h: Option<Holding>, start: Option<nat>, time: nat): Holding {
    if h.None? then Holding(if start.Some? then start.value else time, start.Some?, [])
    else if start.Some? && start.value < h.value.since then h.value.(since := start.value, confirmed := true)
    else h.value
  }

  function Held(h: Option<Holding>, start: Option<nat>, o: Snapshot, i: Item, maxGap: nat): Holding {
    var b := Begun(h, start, o.time);
    b.(samples := Sampled(b.samples, SampleOf(o, i), maxGap))
  }

  function Start(starts: map<nat, nat>, id: nat, time: nat): Option<nat> {
    if id in starts && starts[id] <= time then Some(starts[id]) else None
  }

  function Lookup(ps: Positions, id: nat): Option<Holding> { if id in ps then Some(ps[id]) else None }

  predicate Readable(items: seq<Item>, n: nat)
    requires n < |items|
  {
    && items[n].feeBase >= 0.0 && items[n].feeQuote >= 0.0 && items[n].principal >= 0.0
    && (forall k :: 0 <= k < n ==> items[k].id != items[n].id)
  }

  /** How many items are read before one is unreadable or repeated. */
  function ReadablePrefix(items: seq<Item>, n: nat): (r: nat)
    requires n <= |items|
    ensures n <= r <= |items|
    decreases |items| - n
  {
    if n < |items| && Readable(items, n) then ReadablePrefix(items, n + 1) else n
  }

  function HeldAll(ps: Positions, o: Snapshot, maxGap: nat, starts: map<nat, nat>, n: nat): Positions
    requires n <= |o.items|
  {
    if n == 0 then ps
    else
      var before, i := HeldAll(ps, o, maxGap, starts, n - 1), o.items[n - 1];
      before[i.id := Held(Lookup(before, i.id), Start(starts, i.id, o.time), o, i, maxGap)]
  }

  predicate Acceptable(o: Snapshot, now: nat, maxGap: nat) {
    0 < o.time <= now + 5000 && SatSub(now, o.time) <= maxGap && o.price > 0.0
  }

  function Cleared(ps: Positions): Positions { map id | id in ps :: ps[id].(samples := []) }

  /** The positions an observation starts from. */
  function Opened(identity: nat, ps: Positions, o: Snapshot): Positions {
    var kept := if identity != o.identity then map[] else ps;
    if o.reorg then Cleared(kept) else kept
  }

  function Retained(ps: Positions, items: seq<Item>): Positions { map id | id in ps && (exists k :: 0 <= k < |items| && items[k].id == id) :: ps[id] }

  /** The resulting positions; on an unreadable item, what was done before it. */
  function Observed(identity: nat, ps: Positions, o: Snapshot, now: nat, maxGap: nat, starts: map<nat, nat>): Positions {
    if !Acceptable(o, now, maxGap) then ps
    else
      var n := ReadablePrefix(o.items, 0);
      var all := HeldAll(Opened(identity, ps, o), o, maxGap, starts, n);
      if n < |o.items| then all else Retained(all, o.items)
  }

  // -------------------------------- observed histories stay valid

  predicate WholeSeconds(xs: seq<Sample>) { forall i :: 0 <= i < |xs| ==> xs[i].time % 1000 == 0 }

  lemma {:induction false} TrimKeeps(xs: seq<Sample>, cutoff: nat)
    requires ValidSamples(xs)
    ensures var t := Trimmed(xs, cutoff);
            && ValidSamples(t) && (WholeSeconds(xs) ==> WholeSeconds(t))
            && (xs != [] ==> t != [] && t[|t| - 1] == xs[|xs| - 1])
            && (|t| <= 2 || t[1].time > cutoff)
  {
    if |xs| > 2 && xs[1].time <= cutoff {
      var tail := xs[1..];
      assert forall i :: 0 <= i < |tail| ==> tail[i] == xs[i + 1];
      forall i | 0 < i < |tail| ensures Follows(tail[i - 1], tail[i]) { assert Follows(xs[i], xs[i + 1]); }
      TrimKeeps(tail, cutoff);
    }
  }

  lemma NextSecond(a: nat, b: nat)
    requires a < b && a % 1000 == 0 && b % 1000 == 0
    ensures b >= a + 1000
  {
  }

  lemma {:induction false} SecondsApart(xs: seq<Sample>, i: nat, j: nat)
    requires ValidSamples(xs) && WholeSeconds(xs) && i <= j < |xs|
    ensures xs[j].time >= xs[i].time + 1000 * (j - i)
  {
    if i < j {
      SecondsApart(xs, i, j - 1);
      assert Follows(xs[j - 1], xs[j]);
      NextSecond(xs[j - 1].time, xs[j].time);
    }
  }

  lemma SampledKeeps(xs: seq<Sample>, s: Sample, maxGap: nat)
    requires ValidSamples(xs) && ValidSample(s)
    ensures ValidSamples(Sampled(xs, s, maxGap))
    ensures WholeSeconds(xs) && s.time % 1000 == 0 ==> WholeSeconds(Sampled(xs, s, maxGap))
    ensures |xs| <= MAX_SAMPLES && WholeSeconds(xs) && s.time % 1000 == 0 ==> |Sampled(xs, s, maxGap)| <= MAX_SAMPLES
  {
    if !(xs != [] && Repeats(xs[|xs| - 1], s)) {
      var kept := if xs != [] && Breaks(xs[|xs| - 1], s, maxGap) then [] else xs;
      var all := kept + [s];
      forall i | 0 < i < |all| ensures Follows(all[i - 1], all[i]) {
        if i < |kept| { assert Follows(kept[i - 1], kept[i]); }
      }
      TrimKeeps(all, SatSub(s.time, WINDOW));
      var t := Trimmed(all, SatSub(s.time, WINDOW));
      if |t| > 2 && WholeSeconds(all) { SecondsApart(t, 1, |t| - 1); }
    }
  }

  /** Nothing in the snapshot is empty, and mints are dated after time zero. */
  predicate Named(o: Snapshot, starts: map<nat, nat>) {
    o.hash != "" && (forall i :: 0 <= i < |o.items| ==> o.items[i].revision != "") && (forall id :: id in starts ==> starts[id] > 0)
  }

  predicate Timely(ps: Positions) { forall id :: id in ps ==> |ps[id].samples| <= MAX_SAMPLES && WholeSeconds(ps[id].samples) }

  predicate AllSound(ps: Positions) { forall id :: id in ps ==> Sound(ps[id]) }

  lemma {:induction false} PrefixReadable(items: seq<Item>, n: nat, k: nat)
    requires n <= |items| && n <= k < ReadablePrefix(items, n)
    ensures k < |items| && Readable(items, k)
    decreases k - n
  {
    if n < k { PrefixReadable(items, n + 1, k); }
  }

  lemma HeldKeeps(h: Option<Holding>, start: Option<nat>, o: Snapshot, i: Item, maxGap: nat)
    requires (h.Some? ==> Sound(h.value)) && (start.Some? ==> start.value > 0) && o.time > 0 && ValidSample(SampleOf(o, i))
    ensures var r := Held(h, start, o, i, maxGap);
            && Sound(r)
            && ((h.Some? ==> |h.value.samples| <= MAX_SAMPLES && WholeSeconds(h.value.samples)) && o.time % 1000 == 0 ==>
                  |r.samples| <= MAX_SAMPLES && WholeSeconds(r.samples))
  {
    SampledKeeps(Begun(h, start, o.time).samples, SampleOf(o, i), maxGap);
  }

  lemma {:induction false} HeldAllKeeps(ps: Positions, o: Snapshot, maxGap: nat, starts: map<nat, nat>, n: nat)
    requires n <= ReadablePrefix(o.items, 0) && o.time > 0 && Named(o, starts) && AllSound(ps)
    ensures AllSound(HeldAll(ps, o, maxGap, starts, n))
    ensures Timely(ps) && o.time % 1000 == 0 ==> Timely(HeldAll(ps, o, maxGap, starts, n))
  {
    if n > 0 {
      HeldAllKeeps(ps, o, maxGap, starts, n - 1);
      PrefixReadable(o.items, 0, n - 1);
      var before, i := HeldAll(ps, o, maxGap, starts, n - 1), o.items[n - 1];
      HeldKeeps(Lookup(before, i.id), Start(starts, i.id, o.time), o, i, maxGap);
    }
  }

  /**
   Whatever a validated history observes, errors included, every condition of validation holds again;
   with whole-second block times that includes the bound on samples.
   */
  lemma ObservedValid(identity: nat, ps: Positions, o: Snapshot, now: nat, maxGap: nat, starts: map<nat, nat>)
    requires Valid(ps) && Named(o, starts)
    ensures var r := Observed(identity, ps, o, now, maxGap, starts);
            AllSound(r) && (Timely(ps) && o.time % 1000 == 0 ==> Valid(r) && Timely(r))
  {
    if Acceptable(o, now, maxGap) {
      HeldAllKeeps(Opened(identity, ps, o), o, maxGap, starts, ReadablePrefix(o.items, 0));
    }
  }

  datatype Call = Call(snapshot: Snapshot, now: nat, maxGap: nat, starts: map<nat, nat>)

  datatype History = History(identity: nat, positions: Positions)

  function Next(h: History, c: Call): History {
    History(if Acceptable(c.snapshot, c.now, c.maxGap) then c.snapshot.identity else h.identity,
            Observed(h.identity, h.positions, c.snapshot, c.now, c.maxGap, c.starts))
  }

  function Run(calls: seq<Call>): History {
    if calls == [] then History(0, map[]) else Next(Run(calls[..|calls| - 1]), calls[|calls| - 1])
  }

  /** Every history built from nothing by whole-second snapshots is accepted by validation. */
  lemma {:induction false} HistoriesValidate(calls: seq<Call>)
    requires forall k :: 0 <= k < |calls| ==> Named(calls[k].snapshot, calls[k].starts) && calls[k].snapshot.time % 1000 == 0
    ensures Valid(Run(calls).positions) && Timely(Run(calls).positions)
  {
    if calls != [] {
      var before, c := calls[..|calls| - 1], calls[|calls| - 1];
      HistoriesValidate(before);
      ObservedValid(Run(before).identity, Run(before).positions, c.snapshot, c.now, c.maxGap, c.starts);
    }
  }

  // ---------------------------------------------------------------- the integral

  function Fraction(a: nat, b: nat): real
    requires b > 0
  {
    a as real / b as real
  }

  function Left(a: Sample, start: nat): nat { if a.time >= start then a.time else start }

  /** The part of the interval from `a` to `b` after `start`. */
  function Part(a: Sample, b: Sample, start: nat): real
    requires a.time < b.time
  {
    if b.time <= start then 0.0 else Fraction(b.time - Left(a, start), b.time - a.time)
  }

  /** Two fee amounts valued at one price. */
  function Valued(base: real, quote: real, price: real): real { base * price + quote }

  /** Token amounts are differenced before they are valued. */
  function Income(a: Sample, b: Sample, price: real): real { Valued(b.feeBase - a.feeBase, b.feeQuote - a.feeQuote, price) }

  function FeePiece(a: Sample, b: Sample, start: nat, price: real): real
    requires a.time < b.time
  {
    if b.time <= start then 0.0 else Income(a, b, price) * Part(a, b, start)
  }

  ghost predicate Increasing(xs: seq<Sample>) { forall i :: 0 < i < |xs| ==> xs[i - 1].time < xs[i].time }

  function Fees(xs: seq<Sample>, start: nat, price: real): real
    requires Increasing(xs)
  {
    if |xs| < 2 then 0.0 else Fees(xs[..|xs| - 1], start, price) + FeePiece(xs[|xs| - 2], xs[|xs| - 1], start, price)
  }

  /** The trapezoid of interpolated principal over the part after `start`. */
  function CapitalPiece(a: Sample, b: Sample, start: nat): real
    requires a.time < b.time
  {
    if b.time <= start then 0.0
    else ((b.principal + (a.principal - b.principal) * Part(a, b, start)) + b.principal) * 0.5 * ((b.time - Left(a, start)) as real)
  }

  function Capital(xs: seq<Sample>, start: nat): real
    requires Increasing(xs)
  {
    if |xs| < 2 then 0.0 else Capital(xs[..|xs| - 1], start) + CapitalPiece(xs[|xs| - 2], xs[|xs| - 1], start)
  }

  datatype Counter = BaseFee | QuoteFee

  function Read(s: Sample, k: Counter): real { if k.BaseFee? then s.feeBase else s.feeQuote }

  /** The counter at a time: linear between samples, constant outside them. */
  function Interpolated(xs: seq<Sample>, k: Counter, t: nat): real
    requires Increasing(xs) && xs != []
  {
    var b := xs[|xs| - 1];
    if |xs| == 1 || t >= b.time then Read(b, k)
    else
      var a := xs[|xs| - 2];
      if t >= a.time then Read(a, k) + (Read(b, k) - Read(a, k)) * Fraction(t - a.time, b.time - a.time)
      else Interpolated(xs[..|xs| - 1], k, t)
  }

  lemma FractionSplit(a: nat, t: nat, b: nat)
    requires a <= t <= b && a < b
    ensures Fraction(b - t, b - a) == 1.0 - Fraction(t - a, b - a)
    ensures 0.0 <= Fraction(b - t, b - a) <= 1.0
  {
    var d, x, y := (b - a) as real, (b - t) as real, (t - a) as real;
    assert x + y == d;
    DivideSum(x, y, d);
  }

  lemma DivideSum(x: real, y: real, d: real)
    requires d > 0.0 && x >= 0.0 && y >= 0.0 && x + y == d
    ensures x / d == 1.0 - y / d && 0.0 <= x / d <= 1.0
  {
    var p, q := x / d, y / d;
    assert p * d == x && q * d == y;
    Spread(p, q, d);
    Cancel(p + q, 1.0, d);
    if p < 0.0 || q < 0.0 { NegativeTimes(p, q, d); }
  }

  lemma Spread(p: real, q: real, d: real)
    ensures (p + q) * d == p * d + q * d
  {
  }

  lemma NegativeTimes(p: real, q: real, d: real)
    requires d > 0.0
    ensures (p < 0.0 ==> p * d < 0.0) && (q < 0.0 ==> q * d < 0.0)
  {
  }

  lemma Cancel(a: real, b: real, d: real)
    requires d > 0.0 && a * d == b * d
    ensures a == b
  {
    if a < b { StrictTimes(a, b, d); }
    if b < a { StrictTimes(b, a, d); }
  }

  lemma StrictTimes(a: real, b: real, d: real)
    requires a < b && d > 0.0
    ensures a * d < b * d
  {
  }

  lemma {:induction false} NothingAfter(xs: seq<Sample>, start: nat, price: real)
    requires Increasing(xs) && (xs != [] ==> xs[|xs| - 1].time <= start)
    ensures Fees(xs, start, price) == 0.0
  {
    if |xs| >= 2 { NothingAfter(xs[..|xs| - 1], start, price); }
  }

  function LastCounter(xs: seq<Sample>, k: Counter): real
    requires xs != []
  {
    Read(xs[|xs| - 1], k)
  }

  /** What the counters gained after `start`, valued at one price. */
  function Gained(xs: seq<Sample>, start: nat, price: real): real
    requires Increasing(xs) && xs != []
  {
    Valued(LastCounter(xs, BaseFee) - Interpolated(xs, BaseFee, start), LastCounter(xs, QuoteFee) - Interpolated(xs, QuoteFee, start), price)
  }

  lemma ValuedScales(base: real, quote: real, price: real, f: real)
    ensures Valued(base, quote, price) * f == Valued(base * f, quote * f, price)
  {
  }

  lemma ValuedAdds(b: real, q: real, b': real, q': real, price: real)
    ensures Valued(b + b', q + q', price) == Valued(b, q, price) + Valued(b', q', price)
  {
    Spread(b, b', price);
  }

  /** Within one interval: the counter's rise after `start` is its rise times the remaining part. */
  lemma RiseAfter(u: real, v: real, f: real, g: real)
    requires f == 1.0 - g
    ensures v - (u + (v - u) * g) == (v - u) * f
  {
    assert (v - u) * f == (v - u) - (v - u) * g;
  }

  lemma BoundaryInterval(xs: seq<Sample>, start: nat, price: real)
    requires Increasing(xs) && |xs| >= 2 && xs[|xs| - 2].time <= start < xs[|xs| - 1].time
    ensures Fees(xs, start, price) == Gained(xs, start, price)
  {
    var a, b := xs[|xs| - 2], xs[|xs| - 1];
    NothingAfter(xs[..|xs| - 1], start, price);
    FractionSplit(a.time, start, b.time);
    var f, g := Fraction(b.time - start, b.time - a.time), Fraction(start - a.time, b.time - a.time);
    RiseAfter(a.feeBase, b.feeBase, f, g);
    RiseAfter(a.feeQuote, b.feeQuote, f, g);
    ValuedScales(b.feeBase - a.feeBase, b.feeQuote - a.feeQuote, price, f);
  }

  lemma WholePart(a: nat, b: nat)
    requires a < b
    ensures Fraction(b - a, b - a) == 1.0
  {
    SelfDivided((b - a) as real);
  }

  lemma SelfDivided(d: real)
    requires d > 0.0
    ensures d / d == 1.0
  {
    var q := d / d;
    assert q * d == d;
    Cancel(q, 1.0, d);
  }

  /** Income over a window is the difference of the linearly interpolated fee counters at its ends. */
  lemma {:induction false} FeesAreCounterDifference(xs: seq<Sample>, start: nat, price: real)
    requires Increasing(xs) && xs != []
    ensures Fees(xs, start, price) == Gained(xs, start, price)
  {
    var n := |xs| - 1;
    if xs[n].time <= start {
      NothingAfter(xs, start, price);
    } else if n > 0 && xs[n - 1].time <= start {
      BoundaryInterval(xs, start, price);
    } else if n > 0 {
      FeesAreCounterDifference(xs[..n], start, price);
      WholeInterval(xs, start, price);
    }
  }

  lemma WholeInterval(xs: seq<Sample>, start: nat, price: real)
    requires Increasing(xs) && |xs| >= 2 && start < xs[|xs| - 2].time
    requires Fees(xs[..|xs| - 1], start, price) == Gained(xs[..|xs| - 1], start, price)
    ensures Fees(xs, start, price) == Gained(xs, start, price)
  {
    var n := |xs| - 1;
    var a, b, before := xs[n - 1], xs[n], xs[..n];
    var u, v := Interpolated(xs, BaseFee, start), Interpolated(xs, QuoteFee, start);
    assert Interpolated(before, BaseFee, start) == u && Interpolated(before, QuoteFee, start) == v;
    WholePiece(a, b, start, price);
    ValuedAdds(b.feeBase - a.feeBase, b.feeQuote - a.feeQuote, a.feeBase - u, a.feeQuote - v, price);
    assert Gained(before, start, price) == Valued(a.feeBase - u, a.feeQuote - v, price);
    assert Gained(xs, start, price) == Valued(b.feeBase - u, b.feeQuote - v, price);
    assert b.feeBase - a.feeBase + (a.feeBase - u) == b.feeBase - u && b.feeQuote - a.feeQuote + (a.feeQuote - v) == b.feeQuote - v;
  }

  lemma WholePiece(a: Sample, b: Sample, start: nat, price: real)
    requires start <= a.time < b.time
    ensures FeePiece(a, b, start, price) == Income(a, b, price)
  {
    WholePart(a.time, b.time);
  }

  /** Fees over a window are never negative: validated counters never fall. */
  lemma {:induction false} FeesNonNegative(xs: seq<Sample>, start: nat, price: real)
    requires ValidSamples(xs) && price >= 0.0
    ensures Increasing(xs) && Fees(xs, start, price) >= 0.0
  {
    assert forall i :: 0 < i < |xs| ==> Follows(xs[i - 1], xs[i]);
    if |xs| >= 2 {
      var n := |xs| - 1;
      FeesNonNegative(xs[..n], start, price);
      PieceNonNegative(xs[n - 1], xs[n], start, price);
    }
  }

  lemma IncomeNonNegative(a: Sample, b: Sample, price: real)
    requires Follows(a, b) && price >= 0.0
    ensures Income(a, b, price) >= 0.0
  {
    ValuedNonNegative(b.feeBase - a.feeBase, b.feeQuote - a.feeQuote, price);
  }

  lemma ValuedNonNegative(base: real, quote: real, price: real)
    requires base >= 0.0 && quote >= 0.0 && price >= 0.0
    ensures Valued(base, quote, price) >= 0.0
  {
    TimesNonNegative(base, price);
  }

  lemma PartNonNegative(a: Sample, b: Sample, start: nat)
    requires a.time < b.time
    ensures 0.0 <= Part(a, b, start) <= 1.0
  {
    if b.time > start { FractionSplit(a.time, Left(a, start), b.time); }
  }

  lemma PieceNonNegative(a: Sample, b: Sample, start: nat, price: real)
    requires Follows(a, b) && price >= 0.0
    ensures FeePiece(a, b, start, price) >= 0.0
  {
    IncomeNonNegative(a, b, price);
    PartNonNegative(a, b, start);
    TimesNonNegative(Income(a, b, price), Part(a, b, start));
  }

  lemma TimesNonNegative(a: real, b: real)
    requires a >= 0.0 && b >= 0.0
    ensures a * b >= 0.0
  {
  }

  lemma CutSnoc(xs: seq<Sample>, ys: seq<Sample>)
    requires xs != [] && ys != [] && Increasing(xs + ys) && Increasing([xs[|xs| - 1]] + ys)
    ensures var all, tail, n := xs + ys, [xs[|xs| - 1]] + ys, |ys| - 1;
            && all[..|all| - 1] == xs + ys[..n] && tail[..|tail| - 1] == [xs[|xs| - 1]] + ys[..n]
            && all[|all| - 2] == tail[|tail| - 2] && all[|all| - 1] == tail[|tail| - 1]
            && Increasing(all[..|all| - 1]) && Increasing(tail[..|tail| - 1])
  {
  }

  lemma FeesSnoc(xs: seq<Sample>, start: nat, price: real)
    requires Increasing(xs) && |xs| >= 2
    ensures Fees(xs, start, price) == Fees(xs[..|xs| - 1], start, price) + FeePiece(xs[|xs| - 2], xs[|xs| - 1], start, price)
  {
  }

  /** Adjacent windows add up: cutting a history at a sample splits its income. */
  lemma {:induction false} WindowsAddUp(xs: seq<Sample>, ys: seq<Sample>, start: nat, price: real)
    requires xs != [] && Increasing(xs + ys) && Increasing(xs) && Increasing([xs[|xs| - 1]] + ys)
    ensures Fees(xs + ys, start, price) == Fees(xs, start, price) + Fees([xs[|xs| - 1]] + ys, start, price)
  {
    if ys == [] {
      assert xs + ys == xs;
    } else {
      CutSnoc(xs, ys);
      WindowsAddUp(xs, ys[..|ys| - 1], start, price);
      FeesSnoc(xs + ys, start, price);
      FeesSnoc([xs[|xs| - 1]] + ys, start, price);
    }
  }

  lemma CapitalSnoc(xs: seq<Sample>, start: nat)
    requires Increasing(xs) && |xs| >= 2
    ensures Capital(xs, start) == Capital(xs[..|xs| - 1], start) + CapitalPiece(xs[|xs| - 2], xs[|xs| - 1], start)
  {
  }

  /** So does the capital. */
  lemma {:induction false} CapitalAddsUp(xs: seq<Sample>, ys: seq<Sample>, start: nat)
    requires xs != [] && Increasing(xs + ys) && Increasing(xs) && Increasing([xs[|xs| - 1]] + ys)
    ensures Capital(xs + ys, start) == Capital(xs, start) + Capital([xs[|xs| - 1]] + ys, start)
  {
    if ys == [] {
      assert xs + ys == xs;
    } else {
      CutSnoc(xs, ys);
      CapitalAddsUp(xs, ys[..|ys| - 1], start);
      CapitalSnoc(xs + ys, start);
      CapitalSnoc([xs[|xs| - 1]] + ys, start);
    }
  }

  /** Moving the start of the window earlier adds what the counters gained between the two starts. */
  lemma EarlierStartAdds(xs: seq<Sample>, start: nat, later: nat, price: real)
    requires Increasing(xs) && xs != [] && start <= later
    ensures Fees(xs, start, price) == Fees(xs, later, price)
                                      + Valued(Interpolated(xs, BaseFee, later) - Interpolated(xs, BaseFee, start),
                                               Interpolated(xs, QuoteFee, later) - Interpolated(xs, QuoteFee, start), price)
  {
    FeesAreCounterDifference(xs, start, price);
    FeesAreCounterDifference(xs, later, price);
    var b, q := LastCounter(xs, BaseFee), LastCounter(xs, QuoteFee);
    var b1, q1 := Interpolated(xs, BaseFee, start), Interpolated(xs, QuoteFee, start);
    var b2, q2 := Interpolated(xs, BaseFee, later), Interpolated(xs, QuoteFee, later);
    ValuedAdds(b - b2, q - q2, b2 - b1, q2 - q1, price);
  }

  // ---------------------------------------------------------------- in place

  lemma PrefixAdds(xs: seq<Sample>, i: nat, start: nat, price: real)
    requires Increasing(xs) && 0 < i < |xs|
    ensures Increasing(xs[..i]) && Increasing(xs[..i + 1])
    ensures Fees(xs[..i + 1], start, price) == Fees(xs[..i], start, price) + FeePiece(xs[i - 1], xs[i], start, price)
    ensures Capital(xs[..i + 1], start) == Capital(xs[..i], start) + CapitalPiece(xs[i - 1], xs[i], start)
  {
    var ys := xs[..i + 1];
    assert ys[..i] == xs[..i];
    FeesSnoc(ys, start, price);
    CapitalSnoc(ys, start);
  }

  method Integrate(xs: seq<Sample>, start: nat, price: real) returns (fees: real, capital: real)
    requires ValidSamples(xs)
    ensures Increasing(xs) && fees == Fees(xs, start, price) && capital == Capital(xs, start)
  {
    assert forall i :: 0 < i < |xs| ==> Follows(xs[i - 1], xs[i]);
    fees, capital := 0.0, 0.0;
    var i := 1;
    while i < |xs|
      invariant 1 <= i && (|xs| > 0 ==> i <= |xs|)
      invariant xs != [] ==> Increasing(xs[..i]) && fees == Fees(xs[..i], start, price) && capital == Capital(xs[..i], start)
      invariant xs == [] ==> fees == 0.0 && capital == 0.0
    {
      var a, b := xs[i - 1], xs[i];
      PrefixAdds(xs, i, start, price);
      if b.time > start {
        fees := fees + FeePiece(a, b, start, price);
        capital := capital + CapitalPiece(a, b, start);
      }
      i := i + 1;
    }
    if xs != [] { assert xs[..i] == xs; }
  }

  class FeeHistory {
    var identity: nat
    var positions: Positions

    constructor ()
      ensures History(identity, positions) == Run([])
    {
      identity, positions := 0, map[];
    }

    /** Pops the samples a one-hour window no longer needs. */
    method Trim(xs: seq<Sample>, cutoff: nat) returns (r: seq<Sample>)
      ensures r == Trimmed(xs, cutoff)
    {
      r := xs;
      while |r| > 2 && r[1].time <= cutoff
        invariant Trimmed(xs, cutoff) == Trimmed(r, cutoff)
      {
        r := r[1..];
      }
    }

    method AddSample(id: nat, s: Sample, maxGap: nat)
      requires id in positions
      modifies this`positions
      ensures positions == old(positions)[id := old(positions)[id].(samples := Sampled(old(positions)[id].samples, s, maxGap))]
    {
      var xs := positions[id].samples;
      if xs != [] {
        var last := xs[|xs| - 1];
        if Repeats(last, s) {
          assert positions[id].(samples := xs) == positions[id];
          return;
        }
        if Breaks(last, s, maxGap) { xs := []; }
      }
      xs := Trim(xs + [s], SatSub(s.time, WINDOW));
      positions := positions[id := positions[id].(samples := xs)];
    }

    method ObserveItem(o: Snapshot, item: Item, maxGap: nat, start: Option<nat>)
      modifies this`positions
      ensures positions == old(positions)[item.id := Held(Lookup(old(positions), item.id), start, o, item, maxGap)]
    {
      positions := positions[item.id := Begun(Lookup(positions, item.id), start, o.time)];
      AddSample(item.id, SampleOf(o, item), maxGap);
    }

    method Observe(o: Snapshot, now: nat, maxGap: nat, starts: map<nat, nat>) returns (ok: bool)
      modifies this
      ensures History(identity, positions) == Next(old(History(identity, positions)), Call(o, now, maxGap, starts))
      ensures ok <==> Acceptable(o, now, maxGap) && ReadablePrefix(o.items, 0) == |o.items|
    {
      if !Acceptable(o, now, maxGap) { return false; }
      if identity != o.identity {
        positions := map[];
        identity := o.identity;
      }
      if o.reorg { positions := Cleared(positions); }
      assert positions == Opened(old(identity), old(positions), o);
      ok := ObserveItems(o, maxGap, starts);
      if ok { positions := Retained(positions, o.items); }
    }

    /** Reads the items in turn; an unreadable or repeated one stops the observation. */
    method ObserveItems(o: Snapshot, maxGap: nat, starts: map<nat, nat>) returns (ok: bool)
      modifies this`positions
      ensures positions == HeldAll(old(positions), o, maxGap, starts, ReadablePrefix(o.items, 0))
      ensures ok <==> ReadablePrefix(o.items, 0) == |o.items|
    {
      var ids: set<nat> := {};
      var i := 0;
      while i < |o.items|
        invariant 0 <= i <= |o.items| && positions == HeldAll(old(positions), o, maxGap, starts, i)
        invariant ReadablePrefix(o.items, 0) == ReadablePrefix(o.items, i)
        invariant forall id :: id in ids <==> exists k :: 0 <= k < i && o.items[k].id == id
      {
        var item := o.items[i];
        if item.feeBase < 0.0 || item.feeQuote < 0.0 || item.principal < 0.0 || item.id in ids { return false; }
        ids := ids + {item.id};
        ObserveItem(o, item, maxGap, Start(starts, item.id, o.time));
        i := i + 1;
      }
      ok := true;
    }
  }
}
