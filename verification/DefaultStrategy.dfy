/**
 The default strategy: risk pauses, the count of healthy hours that gates recovery, and the
 stepwise return of liquidity.
 */
module DefaultStrategy {
  import opened Common
  import opened StrategyState

  const RECHECK_GRACE: nat := 300_000

  // ---------------------------------------------------------------- what an evaluation computes

  predicate Unusable(c: Config, f: Frame) {
    || SatSub(f.now, f.poolTime) > c.maxAgeSeconds * 1000 || SatSub(f.now, f.hedgeTime) > c.maxAgeSeconds * 1000
    || f.price <= 0.0 || f.hedgePrice <= 0.0
  }

  predicate Basis(c: Config, f: Frame)
    requires f.hedgePrice > 0.0
  {
    RAbs(f.price / f.hedgePrice - 1.0) * 10000.0 > c.maxBasis
  }

  predicate Unsafe(c: Config, f: Frame, m: Metrics)
    requires f.hedgePrice > 0.0
  {
    m.return1h < -c.fastDrop || f.price / m.lastClose - 1.0 < -c.fastDrop || m.volRatio > c.volPause || m.downtrend || Basis(c, f)
  }

  /** No recovery blocker remains. */
  predicate Healthy(c: Config, f: Frame, m: Metrics)
    requires f.hedgePrice > 0.0
  {
    !Unsafe(c, f, m) && m.volRatio < c.volResume && m.noNewLow && f.price >= m.emaFast
  }

  function Opened(s: Strategy, f: Frame): Strategy {
    var t := ObserveLp(s, f.portfolio.positions != []);
    if t.phase.Warmup? && !t.history.Initial? && f.portfolio.positions == [] then t.(phase := Paused, pauseSince := f.now) else t
  }

  function Stalled(s: Strategy, f: Frame, continuity: bool): Strategy {
    if continuity then Frozen(s)
    else (if s.phase.Halted? then s else s.(phase := Paused, pauseSince := f.now)).(healthy := 0)
  }

  /** The market as one frame shows it. */
  datatype Market = Market(danger: bool, healthy: bool, close: nat)

  /** A frame judged against the equity peak: unusable, or the new peak, whether it halts, and the market if known. */
  datatype View = Blind | View(peak: real, halts: bool, market: Option<Market>)

  function Seen(c: Config, s: Strategy, f: Frame): View {
    if Unusable(c, f) then Blind
    else
      var equity := f.portfolio.Equity(f.price);
      var peak := RMax(RMax(s.peak, equity), c.totalCapital);
      View(peak, s.phase.Halted? || equity < peak * (1.0 - c.maxDrawdown),
           if f.metrics.None? then None
           else Some(Market(Unsafe(c, f, f.metrics.value), Healthy(c, f, f.metrics.value), f.metrics.value.lastCloseMs)))
  }

  predicate AnchorHolds(s: Strategy, f: Frame) {
    && s.progress.anchor.Some? && s.progress.anchor.value.closeMs == s.lastHour && s.progress.anchor.value in f.candles
  }

  /** The first evaluation after a gap keeps the count only with proof of continuity. */
  function Rechecked(s: Strategy, f: Frame, m: Market): Strategy {
    if !s.progress.pending then s
    else
      var t := s.(progress := s.progress.(pending := false));
      var kept :=
        && s.progress.observed > 0 && s.progress.anchor.Some?
        && s.progress.observed <= f.now && f.now - s.progress.observed <= RECHECK_GRACE
        && s.lastHour <= m.close && m.close - s.lastHour <= Hours(1)
        && AnchorHolds(s, f) && m.healthy;
      if kept then t else t.(healthy := 0)
  }

  function RiskPaused(s: Strategy, f: Frame, continuity: bool): Strategy {
    s.(phase := Paused, pauseSince := if s.phase.Paused? then s.pauseSince else f.now, healthy := 0, fraction := 0.0,
    layers := Quieted(s.layers), progress := if continuity then s.progress.(pending := false) else s.progress)
  }

  function HourCounted(s: Strategy, m: Market): Strategy {
    if m.close <= s.lastHour then s
    else
      var run := if s.lastHour > 0 && m.close - s.lastHour > Hours(1) then 0 else s.healthy;
      s.(lastHour := m.close, healthy := if m.healthy then CountUp(run) else 0)
  }

  function CandleClosing(candles: seq<Candle>, t: nat): Option<Candle> {
    if candles == [] then None else if candles[0].closeMs == t then Some(candles[0]) else CandleClosing(candles[1..], t)
  }

  function Observed(s: Strategy, f: Frame, m: Market, continuity: bool): Strategy {
    var a := if continuity && !m.danger then Rechecked(s, f, m) else s;
    var b := if m.danger then RiskPaused(a, f, continuity) else a;
    var h := HourCounted(b, m);
    if continuity then h.(progress := h.progress.(observed := f.now, anchor := CandleClosing(f.candles, m.close))) else h
  }

  predicate HoursReached(c: Config, s: Strategy, healthy: bool, continuity: bool) {
    (!continuity || healthy) && s.healthy >= c.resumeHours
  }

  /** The phase step: `None` means the evaluation ends waiting in Paused. */
  function Advanced(c: Config, s: Strategy, f: Frame, m: Market, continuity: bool): Option<(Strategy, Intent)> {
    match s.phase
    case Paused =>
      if s.history.Initial? && !m.danger then Some((s.(phase := Active, fraction := 1.0), Deploy(1.0)))
      else if !m.danger && HoursReached(c, s, m.healthy, continuity) && SatSub(f.now, s.pauseSince) >= Hours(c.cooldownHours) then
        Some((s.(phase := Recovering, fraction := c.recoveryFraction, lastScale := f.now), Deploy(c.recoveryFraction)))
      else None
    case Warmup =>
      Some((s.(phase := Active, fraction := 1.0), if f.portfolio.positions == [] then Deploy(1.0) else Hold))
    case Recovering =>
      if HoursReached(c, s, m.healthy, continuity) && SatSub(f.now, s.lastScale) >= Hours(c.stepHours) then
        var fraction := RMin(s.fraction + c.recoveryFraction, 1.0);
        Some((s.(fraction := fraction, lastScale := f.now, phase := if fraction >= 1.0 then Active else Recovering), Deploy(fraction)))
      else Some((s, Hold))
    case _ => Some((s, Hold))
  }

  datatype Scan = Scan(layers: map<string, LayerState>, resets: seq<string>, target: real, emergency: bool)

  function Side(price: real, lower: real, upper: real): int { if price < lower then -1 else if price > upper then 1 else 0 }

  function Protected(c: Config, price: real, p: Position, was: bool): bool {
    if price > p.lower * (1.0 + c.releaseBuffer) then false else price < p.lower || was
  }

  function Streak(side: int, l: LayerState): nat {
    if side == 0 then 0 else if side == l.side then l.count + 1 else 1
  }

  /** Where the price stands against the range widened by the breakout buffer. */
  function SideOf(c: Config, price: real, p: Position): int {
    Side(price, p.lower * (1.0 - c.breakoutBuffer), p.upper * (1.0 + c.breakoutBuffer))
  }

  function HedgeShare(base: real, ratio: real, whole: bool): real { base * (if whole then 1.0 else ratio) }

  function ScanOne(c: Config, price: real, newBar: bool, r: Scan, p: Position): Scan {
    var l := Layer(r.layers, p.layer);
    var prot := Protected(c, price, p, l.protected);
    var side := SideOf(c, price, p);
    var count := Streak(side, l);
    var out := newBar && count >= c.confirmBars;
    var l' := if newBar then LayerState(prot, side, if out then 0 else count) else l.(protected := prot);
    Scan(r.layers[p.layer := l'], if out then r.resets + [p.layer] else r.resets,
         r.target + HedgeShare(p.base, c.insideRatio, prot), r.emergency || prot)
  }

  function Scanned(c: Config, price: real, newBar: bool, r: Scan, ps: seq<Position>, n: nat): Scan
    requires n <= |ps|
  {
    if n == 0 then r else ScanOne(c, price, newBar, Scanned(c, price, newBar, r, ps, n - 1), ps[n - 1])
  }

  function Bar(now: nat, seconds: nat): nat
    requires seconds > 0
  {
    Quotient(now, seconds * 1000)
  }

  function Quotient(a: nat, b: nat): nat
    requires b > 0
  {
    a / b
  }

  function Bucket(c: Config, f: Frame): nat { Bar(f.now, c.barSeconds) }

  function Barred(c: Config, s: Strategy, f: Frame): Strategy {
    if Bucket(c, f) <= s.lastBar then s
    else s.(lastBar := Bucket(c, f), layers := if s.lastBar > 0 && Bucket(c, f) > s.lastBar + 1 then Quieted(s.layers) else s.layers)
  }

  function Finished(c: Config, s: Strategy, f: Frame, lp: Intent): (Strategy, Decision) {
    var t := Barred(c, s, f);
    var ps := f.portfolio.positions;
    var r := Scanned(c, f.price, Bucket(c, f) > s.lastBar, Scan(t.layers, [], f.portfolio.walletBase, false), ps, |ps|);
    (t.(layers := r.layers),
     Decision(s.phase, if lp.Hold? && r.resets != [] then Recenter(r.resets) else lp, RMax(r.target, 0.0), r.emergency, false))
  }

  /** The phase machine's verdict: done, or go on to the per-layer scan with an intent. */
  datatype Verdict = Stop(s: Strategy, d: Decision) | Go(s: Strategy, lp: Intent)

  function Judged(c: Config, s: Strategy, f: Frame, v: View, continuity: bool): Verdict {
    if v.Blind? then
      var b := Stalled(s, f, continuity);
      Stop(b, Decision(b.phase, Hold, f.portfolio.shortBase, false, true))
    else
      var b := s.(peak := v.peak);
      if v.halts then Stop(b.(phase := Halted), Decision(Halted, ExitToQuote, f.portfolio.Base(), true, false))
      else if v.market.None? then
        Stop(if continuity then Frozen(b) else b,
             Decision(s.phase, Hold, f.portfolio.Base(), f.portfolio.positions != [], false))
      else
        var o := Observed(b, f, v.market.value, continuity);
        match Advanced(c, o, f, v.market.value, continuity)
        case None => Stop(o, Decision(Paused, ExitToQuote, f.portfolio.Base(), true, false))
        case Some((t, lp)) => Go(t, lp)
  }

  function Evaluate(c: Config, s: Strategy, f: Frame, continuity: bool): (Strategy, Decision) {
    var a := Opened(s, f);
    match Judged(c, a, f, Seen(c, a, f), continuity)
    case Stop(t, d) => (t, d)
    case Go(t, lp) => Finished(c, t, f, lp)
  }

  // ---------------------------------------------------------------- runs

  /** `deferred`: the deployment decided on this frame was not covered by collateral. */
  datatype Event =
    | Observation(frame: Frame, deferred: bool)
    | LpSeen
    | Restart
    | WorkflowRecovery(now: nat)
    | InventoryMissing(now: nat)

  function Previewed(c: Config, s: Strategy, f: Frame, continuity: bool): Decision { Evaluate(c, s, f, continuity).1 }

  /** Collateral is only checked for a deployment with no position open. */
  predicate Defers(c: Config, s: Strategy, e: Event, continuity: bool) {
    e.Observation? && e.deferred && Previewed(c, s, e.frame, continuity).lp.Deploy? && e.frame.portfolio.positions == []
  }

  /** What recovery code does to the state between evaluations. */
  function Edited(s: Strategy, e: Event): Strategy {
    match e
    case Observation(_, _) => s
    case LpSeen => ObserveLp(s, true)
    case Restart => Revalidated(s)
    case WorkflowRecovery(now) => WorkflowRecovered(s, now)
    case InventoryMissing(now) => InventoryPaused(s, true, now)
  }

  function Step(c: Config, s: Strategy, e: Event, continuity: bool): Strategy {
    if !e.Observation? then Edited(s, e)
    else
      var t := Evaluate(c, s, e.frame, continuity).0;
      if Defers(c, s, e, continuity) then Deferred(t, s, e.frame.portfolio) else t
  }

  /** The intent that is carried out. */
  function Intent(c: Config, s: Strategy, e: Event, continuity: bool): Intent {
    if !e.Observation? then Hold
    else if Defers(c, s, e, continuity) then DeferredDecision(s, Previewed(c, s, e.frame, continuity), e.frame.portfolio).lp
    else Previewed(c, s, e.frame, continuity).lp
  }

  function Time(e: Event): nat {
    match e
    case Observation(f, _) => f.now
    case LpSeen => 0
    case Restart => 0
    case WorkflowRecovery(now) => now
    case InventoryMissing(now) => now
  }

  function Sight(c: Config, s: Strategy, e: Event): View {
    if e.Observation? then Seen(c, Opened(s, e.frame), e.frame) else Blind
  }

  /** One event of a run: the state it met and what its frame showed. */
  datatype Entry = Entry(before: Strategy, event: Event, view: View)

  function EntryOf(c: Config, s: Strategy, e: Event): Entry { Entry(s, e, Sight(c, s, e)) }

  /** A run: the state reached and the log of its events. */
  datatype Trace = Trace(s: Strategy, log: seq<Entry>)

  function Next(c: Config, t: Trace, e: Event, continuity: bool): Trace {
    Trace(Step(c, t.s, e, continuity), t.log + [EntryOf(c, t.s, e)])
  }

  function Run(c: Config, s0: Strategy, es: seq<Event>, continuity: bool): Trace {
    if es == [] then Trace(s0, []) else Next(c, Run(c, s0, es[..|es| - 1], continuity), es[|es| - 1], continuity)
  }

  lemma EvaluateIsJudged(c: Config, s: Strategy, f: Frame, continuity: bool)
    ensures var a := Opened(s, f);
            var v, r := Judged(c, a, f, Seen(c, a, f), continuity), Evaluate(c, s, f, continuity);
            && r.0 == v.s.(layers := r.0.layers, lastBar := r.0.lastBar)
            && (r.1.lp.Deploy? <==> v.Go? && v.lp.Deploy?)
            && (r.1.lp.Deploy? ==> r.1.lp == v.lp)
  {
  }

  // -------------------------------- the count of healthy hours

  /** The frame is evaluated in full: usable data, no halt, indicators available. */
  ghost predicate Full(x: Entry) { x.event.Observation? && x.view.View? && !x.view.halts && x.view.market.Some? }

  ghost function Close(x: Entry): nat
    requires Full(x)
  {
    x.view.market.value.close
  }

  ghost predicate RiskSeen(x: Entry) { Full(x) && x.view.market.value.danger }

  ghost predicate HealthySeen(x: Entry) { Full(x) && x.view.market.value.healthy }

  /** No earlier frame showed this close or a later one. */
  ghost predicate FirstSight(log: seq<Entry>, i: nat)
    requires i < |log| && Full(log[i])
  {
    forall j :: 0 <= j < i && Full(log[j]) ==> Close(log[j]) < Close(log[i])
  }

  /** Successive listed closes rise by at most an hour. */
  ghost predicate HourAfterHour(log: seq<Entry>, w: seq<nat>, i: nat)
    requires 0 < i < |w| && w[i - 1] < |log| && w[i] < |log| && Full(log[w[i - 1]]) && Full(log[w[i]])
  {
    w[i - 1] < w[i] && Close(log[w[i - 1]]) < Close(log[w[i]]) <= Close(log[w[i - 1]]) + Hours(1)
  }

  /** `w` lists frames that each brought a new, healthy close, hour after hour, with no risk since the first. */
  ghost predicate HealthyHours(log: seq<Entry>, w: seq<nat>) {
    && (forall i :: 0 <= i < |w| ==> w[i] < |log| && HealthySeen(log[w[i]]) && FirstSight(log, w[i]))
    && (forall i :: 0 < i < |w| ==> HourAfterHour(log, w, i))
    && (forall k :: 0 <= k < |log| && |w| > 0 && w[0] <= k ==> !RiskSeen(log[k]))
  }

  ghost predicate Tracks(t: Trace, w: seq<nat>) {
    var log, s := t.log, t.s;
    && HealthyHours(log, w)
    && s.healthy <= |w|
    && (|w| > 0 ==> Close(log[w[|w| - 1]]) == s.lastHour && s.lastHour > 0)
    && (forall k :: 0 <= k < |log| && Full(log[k]) ==> Close(log[k]) <= s.lastHour)
  }

  /** What a market reading does to the count. */
  ghost predicate ReadingEffect(s: Strategy, m: Market, s': Strategy) {
    && (m.danger ==> s'.healthy == 0)
    && (m.close <= s.lastHour ==> s'.lastHour == s.lastHour && (s'.healthy == s.healthy || s'.healthy == 0))
    && (m.close > s.lastHour ==>
          && s'.lastHour == m.close
          && (s'.healthy > 0 ==> m.healthy)
          && (s'.healthy <= 1 || (s'.healthy <= s.healthy + 1 && (s.lastHour == 0 || m.close <= s.lastHour + Hours(1)))))
  }

  /** What one event does to the count. */
  ghost predicate CountEffect(x: Entry, s': Strategy) {
    if Full(x) then ReadingEffect(x.before, x.view.market.value, s')
    else s'.lastHour == x.before.lastHour && (s'.healthy == x.before.healthy || s'.healthy == 0)
  }

  lemma ObservedCounts(s: Strategy, f: Frame, m: Market, continuity: bool)
    requires !(m.danger && m.healthy)
    ensures ReadingEffect(s, m, Observed(s, f, m, continuity))
  {
  }

  lemma AdvancedCounts(c: Config, s: Strategy, f: Frame, m: Market, continuity: bool)
    ensures var a := Advanced(c, s, f, m, continuity);
            a.Some? ==> a.value.0.healthy == s.healthy && a.value.0.lastHour == s.lastHour
  {
  }

  lemma JudgedCounts(c: Config, s: Strategy, f: Frame, v: View, continuity: bool)
    requires v.View? && !v.halts && v.market.Some? && !(v.market.value.danger && v.market.value.healthy)
    ensures ReadingEffect(s, v.market.value, Judged(c, s, f, v, continuity).s)
  {
    var b := s.(peak := v.peak);
    ObservedCounts(b, f, v.market.value, continuity);
    AdvancedCounts(c, Observed(b, f, v.market.value, continuity), f, v.market.value, continuity);
  }

  lemma JudgedUncounted(c: Config, s: Strategy, f: Frame, v: View, continuity: bool)
    requires v.Blind? || v.halts || v.market.None?
    ensures var s' := Judged(c, s, f, v, continuity).s; s'.lastHour == s.lastHour && (s'.healthy == s.healthy || s'.healthy == 0)
  {
  }

  lemma StepCounts(c: Config, s: Strategy, e: Event, continuity: bool)
    ensures CountEffect(EntryOf(c, s, e), Step(c, s, e, continuity))
  {
    if e.Observation? {
      var x := EntryOf(c, s, e);
      if Full(x) {
        JudgedCounts(c, Opened(s, e.frame), e.frame, x.view, continuity);
      } else {
        JudgedUncounted(c, Opened(s, e.frame), e.frame, x.view, continuity);
      }
      EvaluateIsJudged(c, s, e.frame, continuity);
    }
  }

  lemma HoursKept(log: seq<Entry>, x: Entry, w: seq<nat>)
    requires HealthyHours(log, w) && (|w| > 0 ==> !RiskSeen(x))
    ensures HealthyHours(log + [x], w)
  {
    var log' := log + [x];
    forall i | 0 <= i < |w| ensures w[i] < |log'| && HealthySeen(log'[w[i]]) && FirstSight(log', w[i]) {
      assert FirstSight(log, w[i]);
    }
    forall i | 0 < i < |w| ensures HourAfterHour(log', w, i) { assert HourAfterHour(log, w, i); }
  }

  lemma HoursExtended(log: seq<Entry>, x: Entry, w: seq<nat>)
    requires HealthyHours(log, w) && HealthySeen(x) && !RiskSeen(x)
    requires forall k :: 0 <= k < |log| && Full(log[k]) ==> Close(log[k]) < Close(x)
    requires |w| > 0 ==> Close(x) <= Close(log[w[|w| - 1]]) + Hours(1)
    ensures HealthyHours(log + [x], w + [|log|])
  {
    var log', w' := log + [x], w + [|log|];
    HoursKept(log, x, w);
    forall i | 0 <= i < |w'| ensures w'[i] < |log'| && HealthySeen(log'[w'[i]]) && FirstSight(log', w'[i]) {
      if i < |w| { assert FirstSight(log', w[i]); }
    }
    if |w| > 0 { assert HourAfterHour(log', w', |w|); }
    forall i | 0 < i < |w'| ensures HourAfterHour(log', w', i) {
      if i < |w| { assert HourAfterHour(log', w, i) && w'[i] == w[i] && w'[i - 1] == w[i - 1]; }
    }
    assert w'[0] == if |w| > 0 then w[0] else |log|;
  }

  lemma TracksSame(t: Trace, x: Entry, s': Strategy, w: seq<nat>)
    requires t.s == x.before && Tracks(t, w) && CountEffect(x, s') && s'.healthy > 0 && (Full(x) ==> Close(x) <= x.before.lastHour)
    ensures Tracks(Trace(s', t.log + [x]), w)
  {
    HoursKept(t.log, x, w);
  }

  lemma TracksMore(log: seq<Entry>, x: Entry, s': Strategy, w: seq<nat>)
    requires HealthyHours(log, w) && HealthySeen(x) && !RiskSeen(x) && s'.lastHour == Close(x) > 0 && s'.healthy <= |w| + 1
    requires forall k :: 0 <= k < |log| && Full(log[k]) ==> Close(log[k]) < Close(x)
    requires |w| > 0 ==> Close(x) <= Close(log[w[|w| - 1]]) + Hours(1)
    ensures Tracks(Trace(s', log + [x]), w + [|log|])
  {
    HoursExtended(log, x, w);
  }

  /** One event: the witness is kept, extended or dropped. */
  lemma TracksNext(t: Trace, x: Entry, s': Strategy, w: seq<nat>) returns (w': seq<nat>)
    requires t.s == x.before && Tracks(t, w) && CountEffect(x, s')
    ensures Tracks(Trace(s', t.log + [x]), w')
  {
    if s'.healthy == 0 {
      w' := [];
    } else if !Full(x) || Close(x) <= x.before.lastHour {
      w' := w;
      TracksSame(t, x, s', w);
    } else if s'.healthy == 1 || |w| == 0 {
      w' := [] + [|t.log|];
      TracksMore(t.log, x, s', []);
    } else {
      w' := w + [|t.log|];
      TracksMore(t.log, x, s', w);
    }
  }

  lemma TracksStep(c: Config, t: Trace, e: Event, continuity: bool, w: seq<nat>) returns (w': seq<nat>)
    requires Tracks(t, w)
    ensures Tracks(Next(c, t, e, continuity), w')
  {
    StepCounts(c, t.s, e, continuity);
    w' := TracksNext(t, EntryOf(c, t.s, e), Step(c, t.s, e, continuity), w);
  }

  /** A state no run has touched: nothing counted and not yet entered. */
  ghost predicate Start(s: Strategy) { s.healthy == 0 && s.phase.Warmup? }

  lemma {:induction false} CountIsWitnessed(c: Config, s0: Strategy, es: seq<Event>, continuity: bool) returns (w: seq<nat>)
    requires Start(s0)
    ensures Tracks(Run(c, s0, es, continuity), w)
  {
    if es == [] {
      w := [];
    } else {
      w := CountIsWitnessed(c, s0, es[..|es| - 1], continuity);
      w := TracksStep(c, Run(c, s0, es[..|es| - 1], continuity), es[|es| - 1], continuity, w);
    }
  }

  // -------------------------------- the pause clock

  /** A deployment deferred while inventory or a hedge is open pauses on the clock the state already had. */
  ghost predicate OldClock(c: Config, s: Strategy, e: Event, continuity: bool) {
    && !s.phase.Paused? && Defers(c, s, e, continuity) && Exposed(e.frame.portfolio)
    && !(s.phase.Warmup? && !s.history.Initial?)   // there the same frame has just paused, with its own time
  }

  lemma ObservedPause(s: Strategy, f: Frame, m: Market, continuity: bool)
    ensures var o := Observed(s, f, m, continuity);
            && o.history == s.history && (o.phase.Paused? || o.phase == s.phase)
            && o.pauseSince == if m.danger && !s.phase.Paused? then f.now else s.pauseSince
  {
  }

  lemma AdvancedPause(c: Config, s: Strategy, f: Frame, m: Market, continuity: bool)
    ensures var a := Advanced(c, s, f, m, continuity);
            if a.None? then s.phase.Paused? else !a.value.0.phase.Paused? && a.value.0.pauseSince == s.pauseSince
  {
  }

  lemma JudgedPause(c: Config, s: Strategy, f: Frame, v: View, continuity: bool)
    requires Judged(c, Opened(s, f), f, v, continuity).s.phase.Paused?
    ensures var j := Judged(c, Opened(s, f), f, v, continuity);
            !j.Go? && (j.s.pauseSince == f.now || (s.phase.Paused? && j.s.pauseSince == s.pauseSince))
  {
    if v.View? && !v.halts && v.market.Some? {
      var b := Opened(s, f).(peak := v.peak);
      ObservedPause(b, f, v.market.value, continuity);
      AdvancedPause(c, Observed(b, f, v.market.value, continuity), f, v.market.value, continuity);
    }
  }

  lemma JudgedClock(c: Config, s: Strategy, f: Frame, v: View, continuity: bool)
    requires Judged(c, s, f, v, continuity).Go?
    ensures Judged(c, s, f, v, continuity).s.pauseSince == s.pauseSince
  {
  }

  /** What the clock shows after any event that leaves or makes the strategy paused. */
  lemma PauseClock(c: Config, s: Strategy, e: Event, continuity: bool)
    requires Step(c, s, e, continuity).phase.Paused?
    ensures var s' := Step(c, s, e, continuity);
            if s.phase.Paused? then s'.pauseSince == s.pauseSince || (Timed(e) && s'.pauseSince == Time(e))
            else Timed(e) && s'.pauseSince == if OldClock(c, s, e, continuity) then s.pauseSince else Time(e)
  {
    if e.Observation? {
      var f := e.frame;
      var a := Opened(s, f);
      var v := Seen(c, a, f);
      var j := Judged(c, a, f, v, continuity);
      EvaluateIsJudged(c, s, f, continuity);
      if j.s.phase.Paused? { JudgedPause(c, s, f, v, continuity); }
      if j.Go? { JudgedClock(c, a, f, v, continuity); }
    }
  }

  /** The clock as the event of this entry set it. */
  ghost function ClockOf(c: Config, x: Entry, continuity: bool): nat {
    if OldClock(c, x.before, x.event, continuity) then x.before.pauseSince else Time(x.event)
  }

  /** Phase Paused ever since event `k`, which began the pause or restarted its clock, and the clock is that event's. */
  ghost predicate PausedFrom(c: Config, t: Trace, k: nat, continuity: bool) {
    && k < |t.log| && (forall j :: k < j < |t.log| ==> t.log[j].before.phase.Paused?)
    && t.s.pauseSince == ClockOf(c, t.log[k], continuity)
  }

  lemma {:induction false} PauseStart(c: Config, s0: Strategy, es: seq<Event>, continuity: bool) returns (k: nat)
    requires Start(s0) && Run(c, s0, es, continuity).s.phase.Paused?
    ensures PausedFrom(c, Run(c, s0, es, continuity), k, continuity)
  {
    var t, e := Run(c, s0, es[..|es| - 1], continuity), es[|es| - 1];
    PauseClock(c, t.s, e, continuity);
    if t.s.phase.Paused? && Step(c, t.s, e, continuity).pauseSince == t.s.pauseSince {
      k := PauseStart(c, s0, es[..|es| - 1], continuity);
    } else {
      k := |t.log|;
    }
  }

  lemma AdvancedResume(c: Config, s: Strategy, f: Frame, m: Market, continuity: bool)
    requires s.phase.Paused? && !s.history.Initial?
    ensures var a := Advanced(c, s, f, m, continuity);
            && (a.Some? ==> a.value.1.Deploy? && a.value.0.healthy == s.healthy)
            && (a.Some? <==> !m.danger && (continuity ==> m.healthy) && s.healthy >= c.resumeHours
                             && SatSub(f.now, s.pauseSince) >= Hours(c.cooldownHours))
  {
  }

  lemma JudgedResume(c: Config, s: Strategy, f: Frame, v: View, continuity: bool)
    requires s.phase.Paused? && !s.history.Initial?
    ensures var j := Judged(c, Opened(s, f), f, v, continuity);
            j.Go? && j.lp.Deploy? <==>
            && v.View? && !v.halts && v.market.Some? && !v.market.value.danger && (continuity ==> v.market.value.healthy)
            && j.s.healthy >= c.resumeHours && SatSub(f.now, s.pauseSince) >= Hours(c.cooldownHours)
  {
    if v.View? && !v.halts && v.market.Some? {
      var b := Opened(s, f).(peak := v.peak);
      ObservedPause(b, f, v.market.value, continuity);
      AdvancedResume(c, Observed(b, f, v.market.value, continuity), f, v.market.value, continuity);
    }
  }

  /** Exactly when a frame that is not deferred resumes: a full, safe look, enough hours, and the clock run out. */
  lemma ResumeExactly(c: Config, s: Strategy, e: Event, continuity: bool)
    requires s.phase.Paused? && !s.history.Initial? && e.Observation? && !e.deferred
    ensures var x := EntryOf(c, s, e);
            Intent(c, s, e, continuity).Deploy? <==>
            && Full(x) && !RiskSeen(x) && (continuity ==> HealthySeen(x))
            && Step(c, s, e, continuity).healthy >= c.resumeHours
            && SatSub(e.frame.now, s.pauseSince) >= Hours(c.cooldownHours)
  {
    EvaluateIsJudged(c, s, e.frame, continuity);
    JudgedResume(c, s, e.frame, Seen(c, Opened(s, e.frame), e.frame), continuity);
  }

  lemma StepResume(c: Config, s: Strategy, e: Event, continuity: bool)
    requires s.phase.Paused? && !s.history.Initial? && Intent(c, s, e, continuity).Deploy?
    ensures e.Observation? && SatSub(e.frame.now, s.pauseSince) >= Hours(c.cooldownHours)
    ensures Step(c, s, e, continuity).healthy >= c.resumeHours
  {
    EvaluateIsJudged(c, s, e.frame, continuity);
    JudgedResume(c, s, e.frame, Seen(c, Opened(s, e.frame), e.frame), continuity);
  }

  /**
   With history not Initial, a deployment out of Paused needs an unbroken pause whose clock has run
   the cooldown, and at least `resumeHours` frames that each showed a new healthy close, at most an
   hour after the one before, with no unsafe frame since the first of them.
   */
  lemma ResumeGated(c: Config, s0: Strategy, es: seq<Event>, e: Event, continuity: bool) returns (w: seq<nat>, k: nat)
    requires Start(s0)
    requires var s := Run(c, s0, es, continuity).s;
             s.phase.Paused? && !s.history.Initial? && Intent(c, s, e, continuity).Deploy?
    ensures var t := Run(c, s0, es, continuity);
            && HealthyHours(Run(c, s0, es + [e], continuity).log, w) && |w| >= c.resumeHours
            && PausedFrom(c, t, k, continuity)
            && e.Observation? && SatSub(e.frame.now, ClockOf(c, t.log[k], continuity)) >= Hours(c.cooldownHours)
  {
    var es' := es + [e];
    assert es'[..|es'| - 1] == es;
    StepResume(c, Run(c, s0, es, continuity).s, e, continuity);
    w := CountIsWitnessed(c, s0, es', continuity);
    k := PauseStart(c, s0, es, continuity);
  }

  // -------------------------------- when a pause can end before its full cooldown

  predicate Timed(e: Event) { e.Observation? || e.WorkflowRecovery? || e.InventoryMissing? }

  function Follow(c: Config, s: Strategy, es: seq<Event>, continuity: bool): Strategy
    decreases |es|
  {
    if es == [] then s else Follow(c, Step(c, s, es[0], continuity), es[1..], continuity)
  }

  ghost predicate StaysPaused(c: Config, s: Strategy, es: seq<Event>, continuity: bool)
    decreases |es|
  {
    s.phase.Paused? && (es != [] ==> StaysPaused(c, Step(c, s, es[0], continuity), es[1..], continuity))
  }

  ghost predicate NotBefore(es: seq<Event>, start: nat) { forall i :: 0 <= i < |es| && Timed(es[i]) ==> start <= Time(es[i]) }

  /** From a state paused at `start`: the pause lasts through `es` and `f` then deploys before the cooldown is over. */
  ghost predicate EarlyResume(c: Config, s: Strategy, start: nat, continuity: bool, es: seq<Event>, f: Event) {
    var u := Follow(c, s, es, continuity);
    && StaysPaused(c, s, es, continuity) && NotBefore(es, start) && !u.history.Initial?
    && Intent(c, u, f, continuity).Deploy? && start <= Time(f) < start + Hours(c.cooldownHours)
  }

  lemma {:induction false} FreshClockHolds(c: Config, s: Strategy, start: nat, continuity: bool, es: seq<Event>, f: Event)
    requires StaysPaused(c, s, es, continuity) && NotBefore(es, start) && (s.pauseSince >= start || c.cooldownHours == 0)
    requires var u := Follow(c, s, es, continuity); !u.history.Initial? && Intent(c, u, f, continuity).Deploy?
    requires start <= Time(f)
    ensures Time(f) >= start + Hours(c.cooldownHours)
    decreases |es|
  {
    if es == [] {
      StepResume(c, s, f, continuity);
    } else {
      PausedTail(c, s, es, start, continuity);
      FreshClockHolds(c, Step(c, s, es[0], continuity), start, continuity, es[1..], f);
    }
  }

  lemma PausedTail(c: Config, s: Strategy, es: seq<Event>, start: nat, continuity: bool)
    requires es != [] && StaysPaused(c, s, es, continuity) && NotBefore(es, start) && (s.pauseSince >= start || c.cooldownHours == 0)
    ensures var s' := Step(c, s, es[0], continuity);
            StaysPaused(c, s', es[1..], continuity) && NotBefore(es[1..], start) && (s'.pauseSince >= start || c.cooldownHours == 0)
  {
    PauseClock(c, s, es[0], continuity);
    TailNotBefore(es, start);
  }

  lemma TailNotBefore(es: seq<Event>, start: nat)
    requires es != [] && NotBefore(es, start)
    ensures NotBefore(es[1..], start)
  {
    forall i | 0 <= i < |es[1..]| && Timed(es[1..][i]) ensures start <= Time(es[1..][i]) { assert es[1..][i] == es[i + 1]; }
  }

  /** A frame on which nothing is wrong: prices agree, the market is quiet, equity stands at its peak. */
  function CalmFrame(c: Config, s: Strategy, now: nat, short: real): Frame {
    Frame(now, now, 1.0, 1.0, now, [], Portfolio([], 0.0, RMax(s.peak, c.totalCapital), short, 0.0, 0.0),
          Some(Metrics(0.0, 0.0, false, true, 1.0, 1.0, s.lastHour + 1)), None)
  }

  lemma CalmSeen(c: Config, s: Strategy, now: nat, short: real)
    ensures var f := CalmFrame(c, s, now, short);
            && Opened(s, f).peak == s.peak && Opened(s, f).phase.Halted? == s.phase.Halted?
            && Seen(c, Opened(s, f), f) == View(RMax(s.peak, c.totalCapital), s.phase.Halted?, Some(Market(false, true, s.lastHour + 1)))
  {
    var f, peak := CalmFrame(c, s, now, short), RMax(s.peak, c.totalCapital);
    assert f.portfolio.Base() == 0.0 && SumQuote(f.portfolio.positions) == 0.0;
    assert f.portfolio.Equity(1.0) == peak;
    NoDrawdown(peak, c.maxDrawdown);
    assert 1.0 / 1.0 == 1.0;
  }

  lemma NoDrawdown(peak: real, limit: real)
    requires peak > 0.0 && limit > 0.0
    ensures peak * (1.0 - limit) < peak
  {
    assert peak * limit > 0.0;
  }

  /** Such a frame adds an hour; it resumes if that is enough and the clock has run out, else the pause goes on. */
  lemma CalmStep(c: Config, s: Strategy, now: nat, continuity: bool)
    requires s.phase.Paused? && !s.history.Initial? && SatSub(now, s.pauseSince) >= Hours(c.cooldownHours)
    ensures var e := Observation(CalmFrame(c, s, now, 0.0), false);
            var s' := Step(c, s, e, continuity);
            || (Intent(c, s, e, continuity).Deploy? && s'.healthy >= c.resumeHours)
            || (s'.phase.Paused? && s'.pauseSince == s.pauseSince && !s'.history.Initial? && s'.healthy < c.resumeHours
                && !(continuity && s'.progress.pending)
                && (!(continuity && s.progress.pending) ==> s'.healthy > s.healthy))
  {
    var f := CalmFrame(c, s, now, 0.0);
    CalmSeen(c, s, now, 0.0);
    EvaluateIsJudged(c, s, f, continuity);
    CalmJudged(c, Opened(s, f), f, Seen(c, Opened(s, f), f), continuity);
  }

  lemma CalmJudged(c: Config, s: Strategy, f: Frame, v: View, continuity: bool)
    requires s.phase.Paused? && !s.history.Initial? && SatSub(f.now, s.pauseSince) >= Hours(c.cooldownHours)
    requires v.View? && !v.halts && v.market == Some(Market(false, true, s.lastHour + 1))
    ensures var j := Judged(c, s, f, v, continuity);
            || (j.Go? && j.lp.Deploy? && j.s.healthy >= c.resumeHours)
            || (j.s.phase.Paused? && j.s.pauseSince == s.pauseSince && !j.s.history.Initial? && j.s.healthy < c.resumeHours
                && !j.Go? && !(continuity && j.s.progress.pending)
                && (!(continuity && s.progress.pending) ==> j.s.healthy > s.healthy))
  {
  }

  /** Once the clock has run out, calm frames at one moment bring the resume. */
  lemma {:induction false} CalmResume(c: Config, s: Strategy, now: nat, continuity: bool) returns (es: seq<Event>, f: Event)
    requires s.phase.Paused? && !s.history.Initial? && SatSub(now, s.pauseSince) >= Hours(c.cooldownHours)
    ensures StaysPaused(c, s, es, continuity) && NotBefore(es, now) && Time(f) == now
    ensures var u := Follow(c, s, es, continuity); !u.history.Initial? && Intent(c, u, f, continuity).Deploy?
    decreases if continuity && s.progress.pending then 1 else 0, SatSub(c.resumeHours, s.healthy)
  {
    var e := Observation(CalmFrame(c, s, now, 0.0), false);
    CalmStep(c, s, now, continuity);
    if Intent(c, s, e, continuity).Deploy? {
      es, f := [], e;
    } else {
      var rest;
      rest, f := CalmResume(c, Step(c, s, e, continuity), now, continuity);
      es := [e] + rest;
      assert es[1..] == rest;
    }
  }

  /**
   Exactly when a pause can end, with history established, before the cooldown counted from its
   beginning: it began with an exposed deferral, whose clock is older, and there is a cooldown.
   */
  lemma CooldownExactly(c: Config, s: Strategy, e: Event, continuity: bool)
    requires !s.phase.Paused? && Step(c, s, e, continuity).phase.Paused?
    ensures (exists es, f :: EarlyResume(c, Step(c, s, e, continuity), Time(e), continuity, es, f)) <==>
            OldClock(c, s, e, continuity) && s.pauseSince < Time(e) && c.cooldownHours > 0
  {
    var s', start := Step(c, s, e, continuity), Time(e);
    PauseClock(c, s, e, continuity);
    if OldClock(c, s, e, continuity) && s.pauseSince < start && c.cooldownHours > 0 {
      var es, f := EarlyExists(c, s', start, continuity);
    } else {
      forall es, f ensures !EarlyResume(c, s', start, continuity, es, f) {
        if EarlyResume(c, s', start, continuity, es, f) { FreshClockHolds(c, s', start, continuity, es, f); }
      }
    }
  }

  lemma EarlyExists(c: Config, s: Strategy, start: nat, continuity: bool) returns (es: seq<Event>, f: Event)
    requires s.phase.Paused? && s.pauseSince < start && c.cooldownHours > 0
    ensures EarlyResume(c, s, start, continuity, es, f)
  {
    var now := Max(start, s.pauseSince + Hours(c.cooldownHours));
    var seen := Step(c, s, LpSeen, continuity);
    var rest;
    rest, f := CalmResume(c, seen, now, continuity);
    es := [LpSeen] + rest;
    assert es[1..] == rest;
    forall i | 0 <= i < |es| && Timed(es[i]) ensures start <= Time(es[i]) { assert es[i] == rest[i - 1]; }
  }

  lemma FirstEntryDeferred(c: Config, now: nat, continuity: bool)
    ensures var e := Observation(CalmFrame(c, FRESH, now, 1.0), true);
            OldClock(c, FRESH, e, continuity) && Step(c, FRESH, e, continuity).phase.Paused?
  {
    var frame := CalmFrame(c, FRESH, now, 1.0);
    CalmSeen(c, FRESH, now, 1.0);
    EvaluateIsJudged(c, FRESH, frame, continuity);
    FirstEntry(c, FRESH, frame, Seen(c, FRESH, frame), continuity);
    assert Exposed(frame.portfolio);
  }

  /** Such a run from a fresh bot: its first entry is deferred with a hedge open and pauses on a clock at zero. */
  lemma EarlyResumeRun(c: Config, now: nat, continuity: bool) returns (e: Event, es: seq<Event>, f: Event)
    requires now > 0 && c.cooldownHours > 0
    ensures Time(e) == now && Step(c, FRESH, e, continuity).phase.Paused?
    ensures EarlyResume(c, Step(c, FRESH, e, continuity), now, continuity, es, f)
  {
    e := Observation(CalmFrame(c, FRESH, now, 1.0), true);
    FirstEntryDeferred(c, now, continuity);
    PauseClock(c, FRESH, e, continuity);
    es, f := EarlyExists(c, Step(c, FRESH, e, continuity), now, continuity);
  }

  lemma FirstEntry(c: Config, s: Strategy, f: Frame, v: View, continuity: bool)
    requires s.phase.Warmup? && s.history.Initial? && f.portfolio.positions == []
    requires v.View? && !v.halts && v.market.Some? && !v.market.value.danger
    ensures var j := Judged(c, s, f, v, continuity); j.Go? && j.lp.Deploy? && j.s.pauseSince == s.pauseSince
  {
  }

  // -------------------------------- the stepwise return

  datatype Scale = Scale(time: nat, fraction: real)

  /** The deployments carried out since the strategy last left Paused; a first entry, before any history, is not among them. */
  ghost function Scales(c: Config, s0: Strategy, es: seq<Event>, continuity: bool): seq<Scale> {
    if es == [] then []
    else
      var before, e := es[..|es| - 1], es[|es| - 1];
      var s := Run(c, s0, before, continuity).s;
      NextScales(Scales(c, s0, before, continuity), s, Intent(c, s, e, continuity), Time(e), Step(c, s, e, continuity))
  }

  ghost function NextScales(ds: seq<Scale>, s: Strategy, lp: Intent, now: nat, s': Strategy): seq<Scale> {
    if s'.history.Initial? then []
    else if lp.Deploy? then (if s.phase.Recovering? then ds else []) + [Scale(now, lp.fraction)]
    else if s'.phase.Recovering? || s'.phase.Active? then ds else []
  }

  ghost function Share(step: real, n: nat): real { RMin(1.0, (n + 1) as real * step) }

  ghost predicate Stepped(c: Config, ds: seq<Scale>) {
    && (forall n :: 0 <= n < |ds| ==> ds[n].fraction == Share(c.recoveryFraction, n))
    && (forall n :: 0 < n < |ds| ==> ds[n].time >= ds[n - 1].time + Hours(c.stepHours))
  }

  ghost predicate ScalesInv(c: Config, s: Strategy, ds: seq<Scale>) {
    && Stepped(c, ds)
    && (s.phase.Recovering? ==> |ds| > 0 && s.fraction == ds[|ds| - 1].fraction && s.lastScale == ds[|ds| - 1].time)
  }

  lemma NextShare(step: real, n: nat)
    requires n > 0 && step > 0.0
    ensures Share(step, n) == RMin(Share(step, n - 1) + step, 1.0)
  {
    var a := n as real * step;
    assert (n + 1) as real * step == a + step;
  }

  lemma FirstShare(step: real)
    requires 0.0 < step <= 1.0
    ensures Share(step, 0) == step
  {
    assert 1 as real * step == step;
  }

  /** Deployments come only from a resume or from a scale-up at least one step after the last. */
  ghost predicate DeployEffect(c: Config, s: Strategy, fraction: real, now: nat, s': Strategy) {
    && s'.fraction == fraction && s'.lastScale == now
    && (s.phase.Recovering? ==> fraction == RMin(s.fraction + c.recoveryFraction, 1.0) && now >= s.lastScale + Hours(c.stepHours))
    && (!s.phase.Recovering? ==> fraction == c.recoveryFraction)
  }

  ghost predicate QuietEffect(s: Strategy, s': Strategy) {
    s'.phase.Recovering? ==> s.phase.Recovering? && s'.fraction == s.fraction && s'.lastScale == s.lastScale
  }

  lemma ObservedQuiet(s: Strategy, f: Frame, m: Market, continuity: bool)
    ensures var o := Observed(s, f, m, continuity);
            && o.history == s.history && (!o.phase.Paused? ==> o.phase == s.phase)
            && (o.phase.Recovering? ==> o.fraction == s.fraction && o.lastScale == s.lastScale)
  {
  }

  lemma AdvancedScales(c: Config, s: Strategy, f: Frame, m: Market, continuity: bool)
    requires !s.history.Initial? && (s.phase.Warmup? ==> f.portfolio.positions != [])
    ensures var a := Advanced(c, s, f, m, continuity);
            && (a.None? ==> s.phase.Paused?)
            && (a.Some? ==> a.value.0.history == s.history)
            && (a.Some? && a.value.1.Deploy? ==>
                  (s.phase.Recovering? || s.phase.Paused?) && DeployEffect(c, s, a.value.1.fraction, f.now, a.value.0))
            && (a.Some? && !a.value.1.Deploy? ==> QuietEffect(s, a.value.0))
  {
  }

  lemma JudgedScales(c: Config, s: Strategy, f: Frame, v: View, continuity: bool)
    requires !s.history.Initial? && (s.phase.Warmup? ==> f.portfolio.positions != [])
    ensures var j := Judged(c, s, f, v, continuity);
            && !j.s.history.Initial?
            && (j.Go? && j.lp.Deploy? ==> DeployEffect(c, s, j.lp.fraction, f.now, j.s))
            && (!(j.Go? && j.lp.Deploy?) ==> QuietEffect(s, j.s))
  {
    if v.View? && !v.halts && v.market.Some? {
      var b := s.(peak := v.peak);
      ObservedQuiet(b, f, v.market.value, continuity);
      AdvancedScales(c, Observed(b, f, v.market.value, continuity), f, v.market.value, continuity);
    }
  }

  lemma StepScales(c: Config, s: Strategy, e: Event, continuity: bool)
    requires !s.history.Initial?
    ensures var s', lp := Step(c, s, e, continuity), Intent(c, s, e, continuity);
            && !s'.history.Initial?
            && (if lp.Deploy? then DeployEffect(c, s, lp.fraction, Time(e), s') else QuietEffect(s, s'))
  {
    if e.Observation? {
      EvaluateIsJudged(c, s, e.frame, continuity);
      JudgedScales(c, Opened(s, e.frame), e.frame, Seen(c, Opened(s, e.frame), e.frame), continuity);
    }
  }

  lemma ScalesNext(c: Config, s: Strategy, ds: seq<Scale>, lp: Intent, now: nat, s': Strategy)
    requires ScalesInv(c, s, ds) && !s'.history.Initial?
    requires if lp.Deploy? then DeployEffect(c, s, lp.fraction, now, s') else QuietEffect(s, s')
    ensures ScalesInv(c, s', NextScales(ds, s, lp, now, s'))
  {
    if lp.Deploy? {
      FirstShare(c.recoveryFraction);
      if s.phase.Recovering? { NextShare(c.recoveryFraction, |ds|); }
    }
  }

  /** Before any history the strategy never recovers stepwise. */
  lemma FirstEntrySteps(c: Config, s: Strategy, e: Event, continuity: bool)
    requires s.history.Initial? && !s.phase.Recovering?
    ensures var s', lp := Step(c, s, e, continuity), Intent(c, s, e, continuity);
            if s'.history.Initial? then !s'.phase.Recovering?
            else if lp.Deploy? then DeployEffect(c, s, lp.fraction, Time(e), s') else QuietEffect(s, s')
  {
    if e.Observation? {
      var f := e.frame;
      var a := Opened(s, f);
      var v := Seen(c, a, f);
      EvaluateIsJudged(c, s, f, continuity);
      if f.portfolio.positions == [] { JudgedInitial(c, s, f, v, continuity); } else { JudgedScales(c, a, f, v, continuity); }
    }
  }

  lemma JudgedInitial(c: Config, s: Strategy, f: Frame, v: View, continuity: bool)
    requires s.history.Initial? && !s.phase.Recovering?
    ensures var j := Judged(c, s, f, v, continuity); j.s.history.Initial? && !j.s.phase.Recovering?
  {
  }

  ghost predicate ScalesRunInv(c: Config, s: Strategy, ds: seq<Scale>) {
    if s.history.Initial? then !s.phase.Recovering? && ds == [] else ScalesInv(c, s, ds)
  }

  lemma ScalesStep(c: Config, s: Strategy, ds: seq<Scale>, e: Event, continuity: bool)
    requires ScalesRunInv(c, s, ds)
    ensures ScalesRunInv(c, Step(c, s, e, continuity),
                         NextScales(ds, s, Intent(c, s, e, continuity), Time(e), Step(c, s, e, continuity)))
  {
    var s', lp := Step(c, s, e, continuity), Intent(c, s, e, continuity);
    if s.history.Initial? {
      FirstEntrySteps(c, s, e, continuity);
      if !s'.history.Initial? { ScalesNext(c, s, [], lp, Time(e), s'); }
    } else {
      StepScales(c, s, e, continuity);
      ScalesNext(c, s, ds, lp, Time(e), s');
    }
  }

  lemma {:induction false} ScalesRun(c: Config, s0: Strategy, es: seq<Event>, continuity: bool)
    requires Start(s0)
    ensures ScalesRunInv(c, Run(c, s0, es, continuity).s, Scales(c, s0, es, continuity))
  {
    if es != [] {
      var before, e := es[..|es| - 1], es[|es| - 1];
      ScalesRun(c, s0, before, continuity);
      ScalesStep(c, Run(c, s0, before, continuity).s, Scales(c, s0, before, continuity), e, continuity);
    }
  }

  lemma {:induction false} StepsAddUp(ds: seq<Scale>, step: nat, n: nat)
    requires n < |ds| && forall i :: 0 < i < |ds| ==> ds[i].time >= ds[i - 1].time + step
    ensures ds[n].time >= ds[0].time + n * step
  {
    if n > 0 {
      StepsAddUp(ds, step, n - 1);
      assert n * step == (n - 1) * step + step;
    }
  }

  /** In every run the n-th scale-up comes at least n steps after the resume and has its share. */
  lemma ScaleUpsGated(c: Config, s0: Strategy, es: seq<Event>, continuity: bool, n: nat)
    requires Start(s0) && n < |Scales(c, s0, es, continuity)|
    ensures var ds := Scales(c, s0, es, continuity);
            ds[n].time >= ds[0].time + n * Hours(c.stepHours) && ds[n].fraction == Share(c.recoveryFraction, n)
  {
    ScalesRun(c, s0, es, continuity);
    StepsAddUp(Scales(c, s0, es, continuity), Hours(c.stepHours), n);
  }

  // ---------------------------------------------------------------- the per-layer scan

  lemma SumSnoc(ps: seq<Position>, n: nat)
    requires n < |ps|
    ensures SumBase(ps[..n + 1]) == SumBase(ps[..n]) + ps[n].base
  {
    assert ps[..n + 1][..n] == ps[..n];
  }

  function InsideShare(ratio: real, sum: real): real { ratio * sum }

  lemma ShareGrows(ratio: real, sum: real, base: real, whole: bool)
    requires base >= 0.0 && 0.0 <= ratio <= 1.0
    ensures InsideShare(ratio, sum + base) <= InsideShare(ratio, sum) + HedgeShare(base, ratio, whole)
    ensures HedgeShare(base, ratio, whole) <= base
  {
    assert ratio * (sum + base) == ratio * sum + ratio * base;
    assert ratio * base <= base;
  }

  lemma {:induction false} ScanTarget(c: Config, price: real, newBar: bool, r: Scan, ps: seq<Position>, n: nat)
    requires n <= |ps| && forall i :: 0 <= i < |ps| ==> ps[i].base >= 0.0
    ensures var t := Scanned(c, price, newBar, r, ps, n).target;
            r.target + InsideShare(c.insideRatio, SumBase(ps[..n])) <= t <= r.target + SumBase(ps[..n])
  {
    if n > 0 {
      var p, before := ps[n - 1], Scanned(c, price, newBar, r, ps, n - 1);
      ScanTarget(c, price, newBar, r, ps, n - 1);
      SumSnoc(ps, n - 1);
      ShareGrows(c.insideRatio, SumBase(ps[..n - 1]), p.base, Protected(c, price, p, Layer(before.layers, p.layer).protected));
    }
  }

  /** The hedge asked for lies between the wallet plus the inside share of the positions and the whole inventory. */
  lemma HedgeWithinInventory(c: Config, s: Strategy, f: Frame, lp: Intent)
    requires f.portfolio.walletBase >= 0.0 && forall i :: 0 <= i < |f.portfolio.positions| ==> f.portfolio.positions[i].base >= 0.0
    ensures var t := Finished(c, s, f, lp).1.target;
            f.portfolio.walletBase + InsideShare(c.insideRatio, SumBase(f.portfolio.positions)) <= t <= RMax(f.portfolio.Base(), 0.0)
  {
    var ps := f.portfolio.positions;
    assert ps[..|ps|] == ps;
    ScanTarget(c, f.price, Bucket(c, f) > s.lastBar, Scan(Barred(c, s, f).layers, [], f.portfolio.walletBase, false), ps, |ps|);
  }

  ghost predicate DistinctLayers(ps: seq<Position>) { forall i, j :: 0 <= i < j < |ps| ==> ps[i].layer != ps[j].layer }

  /** What one position's turn does to a layer, its own or another. */
  lemma ScanOneEffect(c: Config, price: real, newBar: bool, r: Scan, p: Position, name: string)
    ensures var t, own := ScanOne(c, price, newBar, r, p), Streak(SideOf(c, price, p), Layer(r.layers, p.layer));
            var hit := newBar && own >= c.confirmBars;
            && (name != p.layer ==> Layer(t.layers, name) == Layer(r.layers, name) && (name in t.resets <==> name in r.resets))
            && (p.layer in t.resets <==> p.layer in r.resets || hit)
            && (newBar ==> Layer(t.layers, p.layer).count == if hit then 0 else own)
  {
  }

  lemma {:induction false} OthersUntouched(c: Config, price: real, newBar: bool, r: Scan, ps: seq<Position>, n: nat, name: string)
    requires n <= |ps| && forall k :: 0 <= k < n ==> ps[k].layer != name
    ensures var t := Scanned(c, price, newBar, r, ps, n);
            Layer(t.layers, name) == Layer(r.layers, name) && (name in t.resets <==> name in r.resets)
  {
    if n > 0 {
      OthersUntouched(c, price, newBar, r, ps, n - 1, name);
      ScanOneEffect(c, price, newBar, Scanned(c, price, newBar, r, ps, n - 1), ps[n - 1], name);
    }
  }

  /** A scanned layer is reset exactly when this is a new bar and its streak reaches the confirmation count, which restarts it. */
  lemma {:induction false} ResetsExactly(
    c: Config, price: real, newBar: bool, layers: map<string, LayerState>, target: real, ps: seq<Position>, n: nat, i: nat)
    requires i < n <= |ps| && DistinctLayers(ps)
    ensures var r := Scanned(c, price, newBar, Scan(layers, [], target, false), ps, n);
            var streak := Streak(SideOf(c, price, ps[i]), Layer(layers, ps[i].layer));
            var hit := newBar && streak >= c.confirmBars;
            && (ps[i].layer in r.resets <==> hit)
            && (newBar ==> Layer(r.layers, ps[i].layer).count == if hit then 0 else streak)
  {
    var start := Scan(layers, [], target, false);
    var before := Scanned(c, price, newBar, start, ps, n - 1);
    ScanOneEffect(c, price, newBar, before, ps[n - 1], ps[i].layer);
    if i < n - 1 {
      ResetsExactly(c, price, newBar, layers, target, ps, n - 1, i);
    } else {
      OthersUntouched(c, price, newBar, start, ps, n - 1, ps[i].layer);
    }
  }

  // ---------------------------------------------------------------- the evaluation in place

  method RecheckProgress(o: StrategyObject, f: Frame, m: Market)
    modifies o`progress, o`healthy
    ensures o.Value() == Rechecked(old(o.Value()), f, m)
  {
    if !o.progress.pending { return; }
    o.progress := o.progress.(pending := false);
    if o.healthy == 0 { return; }
    var p := o.progress;
    if p.observed == 0 || p.anchor.None? || f.now < p.observed || f.now - p.observed > RECHECK_GRACE
       || m.close < o.lastHour || m.close - o.lastHour > Hours(1)
       || p.anchor.value.closeMs != o.lastHour || p.anchor.value !in f.candles || !m.healthy
    {
      o.healthy := 0;
    }
  }

  method CountHour(o: StrategyObject, m: Market)
    modifies o`lastHour, o`healthy
    ensures o.Value() == HourCounted(old(o.Value()), m)
  {
    if m.close > o.lastHour {
      if o.lastHour > 0 && m.close - o.lastHour > Hours(1) { o.healthy := 0; }
      o.lastHour := m.close;
      if m.healthy {
        o.healthy := CountUp(o.healthy);
      } else {
        o.healthy := 0;
      }
    }
  }

  method FindClose(candles: seq<Candle>, t: nat) returns (r: Option<Candle>)
    ensures r == CandleClosing(candles, t)
  {
    var i := 0;
    while i < |candles|
      invariant 0 <= i <= |candles| && CandleClosing(candles, t) == CandleClosing(candles[i..], t)
    {
      if candles[i].closeMs == t { return Some(candles[i]); }
      assert candles[i..][1..] == candles[i + 1..];
      i := i + 1;
    }
    r := None;
  }

  method ObserveMarket(o: StrategyObject, f: Frame, m: Market, continuity: bool)
    modifies o
    ensures o.Value() == Observed(old(o.Value()), f, m, continuity)
  {
    if continuity && !m.danger { RecheckProgress(o, f, m); }
    if m.danger {
      if o.phase != Paused { o.pauseSince := f.now; }
      o.phase := Paused;
      if continuity { o.progress := o.progress.(pending := false); }
      o.healthy := 0;
      o.fraction := 0.0;
      o.QuietLayers();
    }
    CountHour(o, m);
    if continuity {
      var anchor := FindClose(f.candles, m.close);
      o.progress := o.progress.(observed := f.now, anchor := anchor);
    }
  }

  method AdvancePhase(o: StrategyObject, c: Config, f: Frame, m: Market, continuity: bool) returns (lp: Option<Intent>)
    modifies o`phase, o`fraction, o`lastScale
    ensures match Advanced(c, old(o.Value()), f, m, continuity)
            case None => lp.None? && o.Value() == old(o.Value())
            case Some((t, i)) => lp == Some(i) && o.Value() == t
  {
    lp := Some(Hold);
    if o.phase == Paused {
      if o.history == Initial && !m.danger {
        o.phase, o.fraction := Active, 1.0;
        lp := Some(Deploy(1.0));
      } else if !m.danger && (!continuity || m.healthy) && o.healthy >= c.resumeHours
                && SatSub(f.now, o.pauseSince) >= Hours(c.cooldownHours)
      {
        o.phase, o.fraction, o.lastScale := Recovering, c.recoveryFraction, f.now;
        lp := Some(Deploy(o.fraction));
      } else {
        lp := None;
      }
    } else if o.phase == Warmup {
      o.phase, o.fraction := Active, 1.0;
      if f.portfolio.positions == [] { lp := Some(Deploy(1.0)); }
    } else if o.phase == Recovering && (!continuity || m.healthy) && o.healthy >= c.resumeHours
              && SatSub(f.now, o.lastScale) >= Hours(c.stepHours)
    {
      o.fraction := RMin(o.fraction + c.recoveryFraction, 1.0);
      o.lastScale := f.now;
      if o.fraction >= 1.0 { o.phase := Active; }
      lp := Some(Deploy(o.fraction));
    }
  }

  /** The per-position loop: range protection, hedge target and breakout streaks. */
  method ScanLayers(o: StrategyObject, c: Config, f: Frame, lp: Intent) returns (d: Decision)
    modifies o`layers, o`lastBar
    ensures (o.Value(), d) == Finished(c, old(o.Value()), f, lp)
  {
    var bucket := Bucket(c, f);
    var newBar := bucket > o.lastBar;
    if newBar {
      if o.lastBar > 0 && bucket > o.lastBar + 1 { o.QuietLayers(); }
      o.lastBar := bucket;
    }
    ghost var start := Scan(o.layers, [], f.portfolio.walletBase, false);
    var resets, target, emergency := [], f.portfolio.walletBase, false;
    var ps := f.portfolio.positions;
    var i := 0;
    while i < |ps|
      invariant 0 <= i <= |ps|
      invariant Scan(o.layers, resets, target, emergency) == Scanned(c, f.price, newBar, start, ps, i)
      invariant o.Value() == Barred(c, old(o.Value()), f).(layers := o.layers)
    {
      var r := ScanOne(c, f.price, newBar, Scan(o.layers, resets, target, emergency), ps[i]);
      o.layers, resets, target, emergency := r.layers, r.resets, r.target, r.emergency;
      i := i + 1;
    }
    d := Decision(o.phase, if lp == Hold && resets != [] then Recenter(resets) else lp, RMax(target, 0.0), emergency, false);
  }

  method EvaluateInPlace(o: StrategyObject, c: Config, f: Frame, continuity: bool) returns (d: Decision)
    modifies o
    ensures (o.Value(), d) == Evaluate(c, old(o.Value()), f, continuity)
  {
    var flat := f.portfolio.positions == [];
    if !flat { o.history := Established; }
    if o.phase == Warmup && o.history != Initial && flat {
      o.phase, o.pauseSince := Paused, f.now;
    }
    ghost var a := o.Value();
    assert a == Opened(old(o.Value()), f);
    var v := Seen(c, o.Value(), f);
    if v.Blind? {
      if continuity {
        o.progress := o.progress.(pending := true);
      } else {
        if o.phase != Halted { o.phase, o.pauseSince := Paused, f.now; }
        o.healthy := 0;
      }
      return Decision(o.phase, Hold, f.portfolio.shortBase, false, true);
    }
    o.peak := v.peak;
    if v.halts {
      o.phase := Halted;
      return Decision(Halted, ExitToQuote, f.portfolio.Base(), true, false);
    }
    if v.market.None? {
      if continuity { o.progress := o.progress.(pending := true); }
      return Decision(o.phase, Hold, f.portfolio.Base(), !flat, false);
    }
    ObserveMarket(o, f, v.market.value, continuity);
    var lp := AdvancePhase(o, c, f, v.market.value, continuity);
    if lp.None? { return Decision(Paused, ExitToQuote, f.portfolio.Base(), true, false); }
    d := ScanLayers(o, c, f, lp.value);
  }
}
