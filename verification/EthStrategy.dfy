/**
 The persistent ETH strategy and its band variant: drawdown halts, re-entry clocks, holding time,
 and the quick equity guard used between transactions.
 */
module EthStrategy {
  import opened Common
  import opened StrategyState
  import DefaultStrategy

  // ---------------------------------------------------------------- market and equity readings

  predicate GuardDanger(c: Config, e: EthConfig, x: Feature, price: real)
    requires x.close != 0.0
  {
    || x.r1 < -c.fastDrop || price / x.close - 1.0 < -c.fastDrop
    || x.r24 < -e.drop24 || x.r72 < -e.drop72 || x.vol6 > e.maxVol
  }

  predicate GuardRecovered(c: Config, e: EthConfig, x: Feature, price: real)
    requires x.close != 0.0
  {
    !GuardDanger(c, e, x, price) && x.r6 >= -0.01 && x.r1 >= -0.005 && x.vol6 < e.maxVol * 0.8
  }

  predicate OldPrices(c: Config, f: Frame) {
    || f.price <= 0.0 || f.hedgePrice <= 0.0 || f.poolTime > f.now || f.hedgeTime > f.now
    || SatSub(f.now, f.poolTime) > c.maxAgeSeconds * 1000 || SatSub(f.now, f.hedgeTime) > c.maxAgeSeconds * 1000
  }

  predicate Unusable(c: Config, f: Frame, x: Feature) {
    OldPrices(c, f) || x.close <= 0.0 || x.time >= f.now || SatSub(f.now, x.time) > Hours(1) + 60_000
  }

  /** The fall of `equity` below `peak`; a zero peak follows the floating-point limits. */
  function Drop(equity: real, peak: real): real {
    if peak == 0.0 then (if equity < 0.0 then 1.0 else 0.0) else 1.0 - equity / peak
  }

  const NEW_BAND := BandState(None, 0.0, 0, 0.0, 0.0, 0.0, 0.0)

  const NEW_ETH := EthState(None, 0, 0, None, 0, 0)

  function Eth(s: Strategy): EthState { if s.eth.Some? then s.eth.value else NEW_ETH }

  function Band(e: EthState): BandState { if e.band.Some? then e.band.value else NEW_BAND }

  /** Records the first equity seen; risk equity is the capital plus the change since. */
  function Managed(c: Config, s: Strategy, raw: real): Strategy {
    var b := Band(Eth(s));
    var origin := if b.origin.Some? then b.origin.value else raw;
    s.(eth := Some(Eth(s).(band := Some(b.(origin := Some(origin), riskEquity := c.totalCapital + raw - origin)))))
  }

  // ---------------------------------------------------------------- stages both variants share

  datatype Scan = Scan(layers: map<string, LayerState>, outside: bool)

  /** `banded` measures against the range itself, without the breakout buffer. */
  function SideOf(c: Config, banded: bool, price: real, p: Position): int {
    if banded then DefaultStrategy.Side(price, p.lower, p.upper)
    else DefaultStrategy.Side(price, p.lower * (1.0 - c.breakoutBuffer), p.upper * (1.0 + c.breakoutBuffer))
  }

  function ScanOne(c: Config, side: int, r: Scan, p: Position): Scan {
    var l := Layer(r.layers, p.layer);
    var count := if side == 0 then 0 else if side == l.side then CountUp(l.count) else 1;
    Scan(r.layers[p.layer := l.(side := side, count := count)], r.outside || count >= c.confirmBars)
  }

  function Scanned(c: Config, banded: bool, price: real, layers: map<string, LayerState>, ps: seq<Position>, n: nat): Scan
    requires n <= |ps|
  {
    if n == 0 then Scan(layers, false)
    else ScanOne(c, SideOf(c, banded, price, ps[n - 1]), Scanned(c, banded, price, layers, ps, n - 1), ps[n - 1])
  }

  /** The breakout count of a new decision bar. */
  function BarScan(c: Config, banded: bool, s: Strategy, f: Frame): (Scan, nat) {
    var bucket := DefaultStrategy.Bucket(c, f);
    var ps := f.portfolio.positions;
    if ps == [] || bucket <= s.lastBar then (Scan(s.layers, false), s.lastBar)
    else
      var layers := if s.lastBar > 0 && bucket > s.lastBar + 1 then map[] else s.layers;
      (Scanned(c, banded, f.price, layers, ps, |ps|), bucket)
  }

  /** A pause set from outside restarts the re-entry clock. */
  function Anchored(c: Config, s: Strategy): Strategy
    requires s.eth.Some?
  {
    var e := s.eth.value;
    if s.phase.Paused? && e.pauseAnchor != s.pauseSince then
      s.(eth := Some(e.(pauseAnchor := s.pauseSince, reentryNotBefore := s.pauseSince + Hours(c.cooldownHours), pendingTarget := None,
                     band := if e.band.Some? then Some(e.band.value.(enteredMs := 0)) else None)),
      healthy := 0)
    else s
  }

  /** An observation gap drops the healthy hours and streaks, nothing else. */
  function Gapped(c: Config, s: Strategy, now: nat): Strategy
    requires s.eth.Some?
  {
    var e := s.eth.value;
    var gap := e.lastObserved > now || (e.lastObserved > 0 && now - e.lastObserved > c.maxAgeSeconds * 1000);
    var t := s.(eth := Some(e.(lastObserved := now)));
    if gap then t.(healthy := 0, layers := map[]) else t
  }

  function HourCounted(s: Strategy, time: nat, recovered: bool, danger: bool): Strategy {
    var run := if s.lastHour > 0 && time - s.lastHour != Hours(1) then 0 else s.healthy;
    var t := if time > s.lastHour then s.(lastHour := time, healthy := if recovered then CountUp(run) else 0) else s;
    if danger then t.(healthy := 0) else t
  }

  /** The hedge clock, the unfilled target and the target this round. */
  datatype Hedge = Hedge(checked: nat, pending: Option<real>, target: real)

  predicate HedgeDue(c: Config, e: EthState, f: Frame)
    requires c.eth.Some?
  {
    SatSub(f.now, e.lastHedgeCheck) >= Hours(c.eth.value.hedgeIntervalHours)
  }

  function WithHedge(e: EthState, h: Hedge): EthState { e.(lastHedgeCheck := h.checked, pendingTarget := h.pending) }

  // ---------------------------------------------------------------- the persistent variant

  datatype View = View(
    peak: real, halts: bool, danger: bool, recovered: bool, scan: Scan, lastBar: nat, bucket: nat, hedge: Hedge)

  function PersistentHedge(c: Config, e: EthState, f: Frame): Hedge
    requires c.eth.Some?
  {
    var due := HedgeDue(c, e, f);
    var checked := if due then f.now else e.lastHedgeCheck;
    var pending := if due then Some(f.portfolio.Base() * c.insideRatio) else e.pendingTarget;
    if pending.Some? && RAbs(pending.value - f.portfolio.shortBase) * f.price >= c.deadband
    then Hedge(checked, pending, pending.value) else Hedge(checked, None, f.portfolio.shortBase)
  }

  function Prepared(c: Config, s: Strategy, f: Frame): (r: Strategy)
    ensures r.eth.Some?
  {
    var a := ObserveLp(s, f.portfolio.positions != []);
    Gapped(c, Anchored(c, a.(eth := Some(Eth(a)))), f.now)
  }

  predicate Danger(c: Config, f: Frame, x: Feature)
    requires c.eth.Some? && !Unusable(c, f, x)
  {
    GuardDanger(c, c.eth.value, x, f.price) || DefaultStrategy.Basis(c, f)
  }

  function Seen(c: Config, s: Strategy, f: Frame, x: Feature): View
    requires c.eth.Some? && !Unusable(c, f, x) && s.eth.Some?
  {
    var equity := f.portfolio.Equity(f.price);
    var peak := RMax(RMax(s.peak, equity), c.totalCapital);
    var (scan, bar) := BarScan(c, false, s, f);
    View(peak, s.phase.Halted? || equity <= peak * (1.0 - c.maxDrawdown), Danger(c, f, x), GuardRecovered(c, c.eth.value, x, f.price),
         scan, bar, DefaultStrategy.Bucket(c, f), PersistentHedge(c, s.eth.value, f))
  }

  function Exit(s: Strategy, f: Frame): (Strategy, Decision) {
    (s, Decision(s.phase, ExitToQuote, f.portfolio.Base(), true, false))
  }

  /** Restarts the pause unless it already runs with nothing held. */
  function Repaused(s: Strategy, f: Frame, wait: nat): Strategy
    requires s.eth.Some?
  {
    var t :=
      if s.phase.Paused? && f.portfolio.positions == [] then s
      else s.(pauseSince := f.now, eth := Some(s.eth.value.(pauseAnchor := f.now, reentryNotBefore := f.now + wait)));
    t.(phase := Paused)
  }

  function Cleared(s: Strategy): Strategy
    requires s.eth.Some?
  {
    s.(fraction := 0.0, layers := map[], eth := Some(s.eth.value.(pendingTarget := None)))
  }

  function WarmupPaused(c: Config, s: Strategy, f: Frame): Strategy
    requires s.eth.Some?
  {
    if s.phase.Warmup? && !s.history.Initial? then
      s.(phase := Paused, pauseSince := f.now,
      eth := Some(s.eth.value.(pauseAnchor := f.now, reentryNotBefore := f.now + Hours(c.cooldownHours))))
    else s
  }

  function PersistentActed(c: Config, s0: Strategy, f: Frame, v: View): (Strategy, Decision)
    requires s0.eth.Some?
  {
    var s := s0.(layers := v.scan.layers, lastBar := v.lastBar);
    if s.phase.Halted? || v.danger || v.scan.outside then
      var wait := if v.scan.outside && !v.danger then c.barSeconds * 1000 else Hours(c.cooldownHours);
      var t := if s.phase.Halted? then s else Repaused(s, f, wait);
      Exit(Cleared(if v.scan.outside && !v.danger then t else t.(healthy := 0)), f)
    else if f.portfolio.positions == [] then
      var t := WarmupPaused(c, s, f);
      var e := t.eth.value;
      var deadline := if e.reentryNotBefore > 0 then e.reentryNotBefore else t.pauseSince + Hours(c.cooldownHours);
      if t.history.Initial? || (f.now >= deadline && t.healthy >= c.resumeHours) then
        (t.(phase := Active, fraction := 1.0, lastBar := v.bucket, eth := Some(e.(lastHedgeCheck := f.now, pendingTarget := None))),
         Decision(Active, Deploy(1.0), f.portfolio.shortBase, false, false))
      else Exit(t.(phase := Paused), f)
    else
      (s.(phase := Active, eth := Some(WithHedge(s.eth.value, v.hedge))), Decision(Active, Hold, v.hedge.target, false, false))
  }

  function Marked(s: Strategy, peak: real, halts: bool): Strategy { s.(peak := peak, phase := if halts then Halted else s.phase) }

  function PersistentEvaluate(c: Config, s: Strategy, f: Frame, x: Feature): (Strategy, Decision)
    requires c.eth.Some? && !Unusable(c, f, x)
  {
    var a := Prepared(c, s, f);
    var v := Seen(c, a, f, x);
    PersistentActed(c, HourCounted(Marked(a, v.peak, v.halts), x.time, v.recovered, v.danger), f, v)
  }

  // ---------------------------------------------------------------- the band variant

  /** `band` is the episode state after this frame's marks. */
  datatype BandView = BandView(
    equity: real, peak: real, drawdown: real, halts: bool, danger: bool, recovered: bool, band: BandState, soft: bool, global: bool,
    scan: Scan, lastBar: nat, bucket: nat, hedge: Hedge)

  /** The largest short the collateral carries. */
  function HedgeCap(p: Portfolio, price: real): real
    requires price > 0.0
  {
    RMin(RMax(p.hedgeEquity, 0.0), 60.0) * 2.55 / price
  }

  /** The short wanted before the collateral cap. */
  function Wanted(base: real, short: real, lower: real, upper: real, price: real): real
    requires price > 0.0
  {
    var net := (base - short) * price;
    if net > upper then RMax(base - upper / price, 0.0) else if net < lower then RMax(base - lower / price, 0.0) else short
  }

  /** The short that brings net exposure back to the nearer edge of its band, within collateral. */
  function Target(b: BandConfig, p: Portfolio, price: real): real
    requires price > 0.0
  {
    RMin(Wanted(p.Base(), p.shortBase, b.netLower, b.netUpper, price), HedgeCap(p, price))
  }

  function BandHedge(c: Config, b: BandConfig, e: EthState, f: Frame): Hedge
    requires c.eth.Some? && f.price > 0.0
  {
    if HedgeDue(c, e, f) || e.pendingTarget.Some? then
      var checked := if e.pendingTarget.None? then f.now else e.lastHedgeCheck;
      var target := Target(b, f.portfolio, f.price);
      if RAbs(target - f.portfolio.shortBase) * f.price >= c.deadband then Hedge(checked, Some(target), target)
      else Hedge(checked, None, f.portfolio.shortBase)
    else Hedge(e.lastHedgeCheck, e.pendingTarget, f.portfolio.shortBase)
  }

  predicate IsBand(c: Config) { c.eth.Some? && c.eth.value.band.Some? }

  /** The drawdown at which held liquidity is withdrawn. */
  function Trip(b: BandConfig, entryDrawdown: real): real { RMin(RMax(b.pauseDrawdown, entryDrawdown + b.reentryBudget), 0.0475) }

  /** The first sight of a position starts its holding clock, and its episode if none runs. */
  function Episode(b: BandConfig, bs: BandState, hasLp: bool, f: Frame, equity: real, drawdown: real): BandState {
    var starts := hasLp && bs.enteredMs == 0;
    var opens := starts && bs.episodePeak == 0.0;
    var peak := if opens then equity else bs.episodePeak;
    var entry := if opens then drawdown else bs.entryDrawdown;
    bs.(enteredMs := if starts then f.now else bs.enteredMs, episodePeak := RMax(peak, equity), entryDrawdown := entry,
    netExposure := (f.portfolio.Base() - f.portfolio.shortBase) * f.price, pauseThreshold := Trip(b, entry))
  }

  function BandPrepared(c: Config, s: Strategy, f: Frame): (r: Strategy)
    ensures r.eth.Some? && r.eth.value.band.Some?
  {
    var a := ObserveLp(Managed(c, s, f.portfolio.Equity(f.price)), f.portfolio.positions != []);
    Gapped(c, Anchored(c, a), f.now)
  }

  function BandSeen(c: Config, s: Strategy, f: Frame, x: Feature): BandView
    requires IsBand(c) && !Unusable(c, f, x) && s.eth.Some?
  {
    var b := c.eth.value.band.value;
    var bs := Band(s.eth.value);
    var equity := bs.riskEquity;
    var peak := RMax(RMax(s.peak, equity), c.totalCapital);
    var drawdown := Drop(equity, peak);
    var hasLp := f.portfolio.positions != [];
    var bs' := Episode(b, bs, hasLp, f, equity, drawdown);
    var (scan, bar) := BarScan(c, true, s, f);
    BandView(equity, peak, drawdown, s.phase.Halted? || drawdown >= c.maxDrawdown, Danger(c, f, x), GuardRecovered(c, c.eth.value, x, f.price),
             bs', hasLp && Drop(equity, bs'.episodePeak) >= b.episodeDrawdown, hasLp && drawdown >= bs'.pauseThreshold,
             scan, bar, DefaultStrategy.Bucket(c, f), BandHedge(c, b, s.eth.value, f))
  }

  function LayerNames(ps: seq<Position>): (r: seq<string>)
    ensures |r| == |ps| && forall i :: 0 <= i < |ps| ==> r[i] == ps[i].layer
  {
    if ps == [] then [] else LayerNames(ps[..|ps| - 1]) + [ps[|ps| - 1].layer]
  }

  /** A new episode begins with the next position seen. */
  function Rebased(bs: BandState, v: BandView): BandState {
    bs.(enteredMs := 0, episodePeak := v.equity, entryDrawdown := v.drawdown)
  }

  function BandActed(c: Config, s0: Strategy, f: Frame, v: BandView): (Strategy, Decision)
    requires IsBand(c) && s0.eth.Some?
  {
    var hasLp := f.portfolio.positions != [];
    var e := s0.eth.value.(band := Some(v.band));
    var s := s0.(eth := Some(e), layers := v.scan.layers, lastBar := v.lastBar);
    if s.phase.Halted? || v.danger || v.soft || v.global then
      var t := if s.phase.Halted? then s else Repaused(s, f, Hours(c.cooldownHours));
      Exit(Cleared(t.(healthy := 0)), f)
    else if hasLp then
      if v.scan.outside && SatSub(f.now, v.band.enteredMs) >= Hours(c.eth.value.band.value.minimumHoldingHours) then
        (s.(phase := Active, layers := map[],
         eth := Some(e.(band := Some(Rebased(v.band, v)), pendingTarget := None, lastHedgeCheck := f.now))),
         Decision(Active, Recenter(LayerNames(f.portfolio.positions)), f.portfolio.shortBase, false, false))
      else (s.(phase := Active, eth := Some(WithHedge(e, v.hedge))), Decision(Active, Hold, v.hedge.target, false, false))
    else
      var t := WarmupPaused(c, s, f);
      var e' := t.eth.value;
      if t.history.Initial? || (f.now >= e'.reentryNotBefore && t.healthy >= c.resumeHours && v.recovered) then
        (t.(phase := Active, fraction := 1.0, lastBar := v.bucket,
         eth := Some(e'.(band := Some(Rebased(v.band, v)), pendingTarget := None, lastHedgeCheck := f.now, reentryNotBefore := 0))),
         Decision(Active, Deploy(1.0), f.portfolio.shortBase, false, false))
      else Exit(t.(phase := Paused), f)
  }

  function BandEvaluate(c: Config, s: Strategy, f: Frame, x: Feature): (Strategy, Decision)
    requires IsBand(c) && !Unusable(c, f, x)
  {
    var a := BandPrepared(c, s, f);
    var v := BandSeen(c, a, f, x);
    BandActed(c, HourCounted(Marked(a, v.peak, v.halts), x.time, v.recovered, v.danger), f, v)
  }

  // ---------------------------------------------------------------- the common entry

  function Untrusted(s: Strategy, f: Frame): (Strategy, Decision) {
    (s.(healthy := 0), Decision(s.phase, Hold, f.portfolio.shortBase, false, true))
  }

  function EvaluateFeature(c: Config, s: Strategy, f: Frame, x: Feature): (Strategy, Decision)
    requires c.eth.Some?
  {
    if Unusable(c, f, x) then Untrusted(s, f)
    else if IsBand(c) then BandEvaluate(c, s, f, x)
    else PersistentEvaluate(c, s, f, x)
  }

  /** A gap in the hourly history does not hide a verifiable drawdown. */
  function EvaluateWithoutHistory(c: Config, s: Strategy, f: Frame): (Strategy, Decision) {
    if OldPrices(c, f) then Untrusted(s, f)
    else
      var raw := f.portfolio.Equity(f.price);
      var a := (if IsBand(c) then Managed(c, s, raw) else s).(healthy := 0);
      var equity := if IsBand(c) then Band(Eth(a)).riskEquity else raw;
      var peak := RMax(RMax(s.peak, equity), c.totalCapital);
      if s.phase.Halted? || equity <= peak * (1.0 - c.maxDrawdown) then Exit(Marked(a, peak, true), f)
      else (a.(peak := peak), Decision(s.phase, Hold, f.portfolio.shortBase, false, true))
  }

  function EthEvaluate(c: Config, s: Strategy, f: Frame): (Strategy, Decision)
    requires c.eth.Some?
  {
    if f.feature.Some? then EvaluateFeature(c, s, f, f.feature.value) else EvaluateWithoutHistory(c, s, f)
  }

  /** The live runner's evaluation. */
  function Evaluate(c: Config, s: Strategy, f: Frame): (Strategy, Decision) {
    if c.eth.Some? then EthEvaluate(c, s, f) else DefaultStrategy.Evaluate(c, s, f, true)
  }

  /** The quick guard between transactions of one entry. */
  predicate EntryEquitySafe(s: Strategy, c: Config, raw: real) {
    if !IsBand(c) then true
    else if s.eth.None? || s.eth.value.band.None? || s.eth.value.band.value.origin.None? then false
    else
      var b, bs := c.eth.value.band.value, s.eth.value.band.value;
      var equity := c.totalCapital + raw - bs.origin.value;
      && !s.phase.Halted?
      && Above(equity, s.peak, c.maxDrawdown)
      && Above(equity, s.peak, Trip(b, bs.entryDrawdown))
      && Above(equity, bs.episodePeak, b.episodeDrawdown)
  }

  predicate Above(equity: real, peak: real, limit: real) { equity > peak * (1.0 - limit) }

  // ---------------------------------------------------------------- the band's hedge target

  lemma OverTimes(a: real, price: real) returns (q: real)
    requires price > 0.0
    ensures q == a / price && q * price == a && (a >= 0.0 ==> q >= 0.0) && (a <= 0.0 ==> q <= 0.0)
  {
    q := a / price;
  }

  lemma LessTimes(a: real, b: real, price: real)
    requires price > 0.0
    ensures a < b <==> a * price < b * price
  {
  }

  lemma WantedAbove(base: real, short: real, lower: real, upper: real, price: real)
    requires price > 0.0 && short >= 0.0 && upper > 0.0 && (base - short) * price > upper
    ensures (base - Wanted(base, short, lower, upper, price)) * price == upper
  {
    var up := OverTimes(upper, price);
    LessTimes(up, base - short, price);
  }

  lemma WantedBelow(base: real, short: real, lower: real, upper: real, price: real)
    requires price > 0.0 && base >= 0.0 && lower <= 0.0 < upper && (base - short) * price < lower
    ensures (base - Wanted(base, short, lower, upper, price)) * price == lower
  {
    var low := OverTimes(lower, price);
  }

  function Net(base: real, short: real, price: real): real { (base - short) * price }

  lemma WantedReaches(base: real, short: real, lower: real, upper: real, price: real)
    requires price > 0.0 && short >= 0.0 && base >= 0.0 && lower <= 0.0 < upper
    ensures Net(base, Wanted(base, short, lower, upper, price), price) == RMax(lower, RMin(Net(base, short, price), upper))
  {
    if (base - short) * price > upper {
      WantedAbove(base, short, lower, upper, price);
    } else if (base - short) * price < lower {
      WantedBelow(base, short, lower, upper, price);
    }
  }

  /**
   The target never exceeds what the collateral carries; when it is below that, it brings net
   exposure into the band, to its nearer edge, and leaves a short that is already inside alone.
   */
  lemma TargetReachesBand(b: BandConfig, p: Portfolio, price: real)
    requires price > 0.0 && p.shortBase >= 0.0 && p.Base() >= 0.0 && b.netLower <= 0.0 < b.netUpper
    ensures var t := Target(b, p, price);
            && t <= HedgeCap(p, price)
            && (t < HedgeCap(p, price) ==> Net(p.Base(), t, price) == RMax(b.netLower, RMin(Net(p.Base(), p.shortBase, price), b.netUpper)))
  {
    WantedReaches(p.Base(), p.shortBase, b.netLower, b.netUpper, price);
  }

  // ---------------------------------------------------------------- the quick guard agrees with the full evaluation

  lemma ExactQuotient(a: real, b: real) returns (q: real)
    requires b > 0.0
    ensures q == a / b && q * b == a
  {
    q := a / b;
  }

  lemma DropAtLeast(equity: real, peak: real, limit: real)
    requires peak > 0.0
    ensures Drop(equity, peak) >= limit <==> !Above(equity, peak, limit)
  {
    var q := ExactQuotient(equity, peak);
    var cap := 1.0 - limit;
    if q <= cap { Scale(q, cap, peak); } else { ScaleStrict(cap, q, peak); }
  }

  lemma Scale(a: real, b: real, m: real)
    requires a <= b && m >= 0.0
    ensures a * m <= b * m
  {
  }

  lemma ScaleStrict(a: real, b: real, m: real)
    requires a < b && m > 0.0
    ensures a * m < b * m
  {
  }

  /** Measured against a peak raised to the current equity, a drop reaches a positive limit only below the old peak. */
  lemma RaisedPeak(equity: real, peak: real, raised: real, limit: real)
    requires peak > 0.0 && limit > 0.0 && raised == RMax(peak, equity)
    ensures Drop(equity, raised) >= limit <==> !Above(equity, peak, limit)
  {
    DropAtLeast(equity, raised, limit);
    if equity > peak {
      ScaleStrict(1.0 - limit, 1.0, equity);
      if 1.0 - limit >= 0.0 { Scale(peak, equity, 1.0 - limit); } else { ScaleStrict(1.0 - limit, 0.0, peak); }
    }
  }

  /** A band state with a started episode, a recorded origin and a marked peak. */
  ghost predicate EpisodeRuns(c: Config, s: Strategy) {
    && IsBand(c) && s.eth.Some? && s.eth.value.band.Some? && s.eth.value.band.value.origin.Some?
    && s.eth.value.band.value.episodePeak > 0.0 && s.peak >= c.totalCapital
  }

  lemma PreparedEpisode(c: Config, s: Strategy, f: Frame)
    requires EpisodeRuns(c, s)
    ensures var a, b, raw := BandPrepared(c, s, f), s.eth.value.band.value, f.portfolio.Equity(f.price);
            var bs := a.eth.value.band.value;
            && a.peak == s.peak && (a.phase.Halted? <==> s.phase.Halted?)
            && bs.riskEquity == c.totalCapital + raw - b.origin.value
            && bs.episodePeak == b.episodePeak && bs.entryDrawdown == b.entryDrawdown
  {
  }

  /** The guard is true exactly when a full evaluation with liquidity held would see no halt, no global and no episode drawdown. */
  lemma EntrySafeAgrees(c: Config, s: Strategy, f: Frame, x: Feature)
    requires EpisodeRuns(c, s) && !Unusable(c, f, x) && f.portfolio.positions != []
    ensures var v := BandSeen(c, BandPrepared(c, s, f), f, x);
            EntryEquitySafe(s, c, f.portfolio.Equity(f.price)) <==> !v.halts && !v.global && !v.soft
  {
    PreparedEpisode(c, s, f);
    GuardMatches(c, s, BandPrepared(c, s, f), f, x);
  }

  lemma RaisedToCapital(peak: real, equity: real, capital: real)
    requires peak >= capital
    ensures RMax(RMax(peak, equity), capital) == RMax(peak, equity)
  {
  }

  lemma SeenTrips(c: Config, a: Strategy, f: Frame, x: Feature)
    requires IsBand(c) && !Unusable(c, f, x) && f.portfolio.positions != []
    requires a.eth.Some? && a.eth.value.band.Some? && a.peak >= c.totalCapital && a.eth.value.band.value.episodePeak > 0.0
    ensures var v, b, bs := BandSeen(c, a, f, x), c.eth.value.band.value, a.eth.value.band.value;
            var drawdown := Drop(bs.riskEquity, RMax(a.peak, bs.riskEquity));
            && (v.halts <==> a.phase.Halted? || drawdown >= c.maxDrawdown)
            && (v.global <==> drawdown >= Trip(b, bs.entryDrawdown))
            && (v.soft <==> Drop(bs.riskEquity, RMax(bs.episodePeak, bs.riskEquity)) >= b.episodeDrawdown)
  {
    RaisedToCapital(a.peak, a.eth.value.band.value.riskEquity, c.totalCapital);
  }

  lemma GuardMatches(c: Config, s: Strategy, a: Strategy, f: Frame, x: Feature)
    requires EpisodeRuns(c, s) && !Unusable(c, f, x) && f.portfolio.positions != []
    requires a.eth.Some? && a.eth.value.band.Some? && a.peak == s.peak && (a.phase.Halted? <==> s.phase.Halted?)
    requires var bs, b := a.eth.value.band.value, s.eth.value.band.value;
             && bs.riskEquity == c.totalCapital + f.portfolio.Equity(f.price) - b.origin.value
             && bs.episodePeak == b.episodePeak && bs.entryDrawdown == b.entryDrawdown
    ensures var v := BandSeen(c, a, f, x);
            EntryEquitySafe(s, c, f.portfolio.Equity(f.price)) <==> !v.halts && !v.global && !v.soft
  {
    var bs := a.eth.value.band.value;
    SeenTrips(c, a, f, x);
    GuardTrips(c, s, f.portfolio.Equity(f.price), bs.riskEquity);
  }

  /** Three drops against raised peaks, as three comparisons. */
  lemma Comparisons(equity: real, peak: real, episode: real, limit: real, trip: real, soft: real)
    requires peak > 0.0 && episode > 0.0 && limit > 0.0 && trip > 0.0 && soft > 0.0
    ensures Drop(equity, RMax(peak, equity)) >= limit <==> !Above(equity, peak, limit)
    ensures Drop(equity, RMax(peak, equity)) >= trip <==> !Above(equity, peak, trip)
    ensures Drop(equity, RMax(episode, equity)) >= soft <==> !Above(equity, episode, soft)
  {
    RaisedPeak(equity, peak, RMax(peak, equity), limit);
    RaisedPeak(equity, peak, RMax(peak, equity), trip);
    RaisedPeak(equity, episode, RMax(episode, equity), soft);
  }

  lemma TripPositive(b: BandConfig, entry: real)
    requires b.pauseDrawdown > 0.0
    ensures Trip(b, entry) > 0.0
  {
  }

  lemma GuardTrips(c: Config, s: Strategy, raw: real, equity: real)
    requires EpisodeRuns(c, s) && equity == c.totalCapital + raw - s.eth.value.band.value.origin.value
    ensures var b, bs := c.eth.value.band.value, s.eth.value.band.value;
            var drawdown := Drop(equity, RMax(s.peak, equity));
            EntryEquitySafe(s, c, raw) <==>
            && !s.phase.Halted? && !(drawdown >= c.maxDrawdown) && !(drawdown >= Trip(b, bs.entryDrawdown))
            && !(Drop(equity, RMax(bs.episodePeak, equity)) >= b.episodeDrawdown)
  {
    var b, bs := c.eth.value.band.value, s.eth.value.band.value;
    TripPositive(b, bs.entryDrawdown);
    Comparisons(equity, s.peak, bs.episodePeak, c.maxDrawdown, Trip(b, bs.entryDrawdown), b.episodeDrawdown);
  }

  /** With no market danger the evaluation withdraws held liquidity exactly when the guard is false. */
  lemma ExitsExactlyWhenUnsafe(c: Config, s: Strategy, f: Frame, x: Feature)
    requires EpisodeRuns(c, s) && !Unusable(c, f, x) && f.portfolio.positions != [] && !Danger(c, f, x)
    ensures BandEvaluate(c, s, f, x).1.lp.ExitToQuote? <==> !EntryEquitySafe(s, c, f.portfolio.Equity(f.price))
  {
    EntrySafeAgrees(c, s, f, x);
    var a := BandPrepared(c, s, f);
    var v := BandSeen(c, a, f, x);
    ExitBranch(c, a, f, x, v);
  }

  lemma ExitBranch(c: Config, a: Strategy, f: Frame, x: Feature, v: BandView)
    requires IsBand(c) && a.eth.Some? && f.portfolio.positions != [] && !v.danger && (a.phase.Halted? ==> v.halts)
    ensures BandActed(c, HourCounted(Marked(a, v.peak, v.halts), x.time, v.recovered, v.danger), f, v).1.lp.ExitToQuote?
       <==> v.halts || v.global || v.soft
  {
  }

  // ---------------------------------------------------------------- the evaluations in place

  /** Counts breakout bars position by position. */
  method ScanBar(o: StrategyObject, c: Config, banded: bool, f: Frame) returns (outside: bool)
    modifies o`layers, o`lastBar
    ensures var r := BarScan(c, banded, old(o.Value()), f);
            outside == r.0.outside && o.Value() == old(o.Value()).(layers := r.0.layers, lastBar := r.1)
  {
    outside := false;
    var bucket := DefaultStrategy.Bucket(c, f);
    var ps := f.portfolio.positions;
    if ps == [] || bucket <= o.lastBar { return; }
    if o.lastBar > 0 && bucket > o.lastBar + 1 { o.layers := map[]; }
    o.lastBar := bucket;
    ghost var start := o.layers;
    var i := 0;
    while i < |ps|
      invariant 0 <= i <= |ps| && o.lastBar == bucket
      invariant Scan(o.layers, outside) == Scanned(c, banded, f.price, start, ps, i)
      invariant o.Value() == old(o.Value()).(layers := o.layers, lastBar := bucket)
    {
      var side := SideOf(c, banded, f.price, ps[i]);
      var l := Layer(o.layers, ps[i].layer);
      var count := if side == 0 then 0 else if side == l.side then CountUp(l.count) else 1;
      o.layers := o.layers[ps[i].layer := l.(side := side, count := count)];
      outside := outside || count >= c.confirmBars;
      i := i + 1;
    }
  }

  method Prepare(o: StrategyObject, c: Config, f: Frame)
    requires o.eth.Some?
    modifies o
    ensures o.Value() == Gapped(c, Anchored(c, ObserveLp(old(o.Value()), f.portfolio.positions != [])), f.now)
  {
    if f.portfolio.positions != [] { o.history := Established; }
    var e := o.eth.value;
    if o.phase == Paused && e.pauseAnchor != o.pauseSince {
      e := e.(pauseAnchor := o.pauseSince, reentryNotBefore := o.pauseSince + Hours(c.cooldownHours), pendingTarget := None);
      if e.band.Some? { e := e.(band := Some(e.band.value.(enteredMs := 0))); }
      o.healthy := 0;
    }
    if e.lastObserved > f.now || (e.lastObserved > 0 && f.now - e.lastObserved > c.maxAgeSeconds * 1000) {
      o.healthy := 0;
      o.layers := map[];
    }
    o.eth := Some(e.(lastObserved := f.now));
  }

  method CountHour(o: StrategyObject, time: nat, recovered: bool, danger: bool)
    modifies o`lastHour, o`healthy
    ensures o.Value() == HourCounted(old(o.Value()), time, recovered, danger)
  {
    if time > o.lastHour {
      if o.lastHour > 0 && time - o.lastHour != Hours(1) { o.healthy := 0; }
      o.lastHour := time;
      if recovered { o.healthy := CountUp(o.healthy); } else { o.healthy := 0; }
    }
    if danger { o.healthy := 0; }
  }

  /** Withdraws; unless halted, pauses for `wait`. */
  method Withdraw(o: StrategyObject, f: Frame, wait: nat) returns (d: Decision)
    requires o.eth.Some?
    modifies o
    ensures var s := old(o.Value());
            (o.Value(), d) == Exit(Cleared(if s.phase.Halted? then s else Repaused(s, f, wait)), f)
  {
    var e := o.eth.value;
    if o.phase != Halted {
      if o.phase != Paused || f.portfolio.positions != [] {
        o.pauseSince := f.now;
        e := e.(pauseAnchor := f.now, reentryNotBefore := f.now + wait);
      }
      o.phase := Paused;
    }
    o.fraction := 0.0;
    o.layers := map[];
    o.eth := Some(e.(pendingTarget := None));
    d := Decision(o.phase, ExitToQuote, f.portfolio.Base(), true, false);
  }

  method PauseWarmup(o: StrategyObject, c: Config, f: Frame)
    requires o.eth.Some?
    modifies o`phase, o`pauseSince, o`eth
    ensures o.Value() == WarmupPaused(c, old(o.Value()), f)
  {
    if o.phase == Warmup && o.history != Initial {
      o.phase := Paused;
      o.pauseSince := f.now;
      o.eth := Some(o.eth.value.(pauseAnchor := f.now, reentryNotBefore := f.now + Hours(c.cooldownHours)));
    }
  }

  method ActBand(o: StrategyObject, c: Config, f: Frame, v: BandView) returns (d: Decision)
    requires IsBand(c) && o.eth.Some? && o.layers == v.scan.layers && o.lastBar == v.lastBar
    modifies o
    ensures (o.Value(), d) == BandActed(c, old(o.Value()), f, v)
  {
    var e := o.eth.value.(band := Some(v.band));
    o.eth := Some(e);
    if o.phase == Halted || v.danger || v.soft || v.global {
      o.healthy := 0;
      d := Withdraw(o, f, Hours(c.cooldownHours));
    } else if f.portfolio.positions != [] {
      o.phase := Active;
      if v.scan.outside && SatSub(f.now, v.band.enteredMs) >= Hours(c.eth.value.band.value.minimumHoldingHours) {
        o.layers := map[];
        o.eth := Some(e.(band := Some(Rebased(v.band, v)), pendingTarget := None, lastHedgeCheck := f.now));
        d := Decision(Active, Recenter(LayerNames(f.portfolio.positions)), f.portfolio.shortBase, false, false);
      } else {
        o.eth := Some(WithHedge(e, v.hedge));
        d := Decision(Active, Hold, v.hedge.target, false, false);
      }
    } else {
      PauseWarmup(o, c, f);
      e := o.eth.value;
      if o.history == Initial || (f.now >= e.reentryNotBefore && o.healthy >= c.resumeHours && v.recovered) {
        o.phase, o.fraction, o.lastBar := Active, 1.0, v.bucket;
        o.eth := Some(e.(band := Some(Rebased(v.band, v)), pendingTarget := None, lastHedgeCheck := f.now, reentryNotBefore := 0));
        d := Decision(Active, Deploy(1.0), f.portfolio.shortBase, false, false);
      } else {
        o.phase := Paused;
        d := Decision(Paused, ExitToQuote, f.portfolio.Base(), true, false);
      }
    }
  }

  method EvaluateBandInPlace(o: StrategyObject, c: Config, f: Frame, x: Feature) returns (d: Decision)
    requires IsBand(c) && !Unusable(c, f, x)
    modifies o
    ensures (o.Value(), d) == BandEvaluate(c, old(o.Value()), f, x)
  {
    o.eth := Managed(c, o.Value(), f.portfolio.Equity(f.price)).eth;
    Prepare(o, c, f);
    assert o.Value() == BandPrepared(c, old(o.Value()), f);
    var v := BandSeen(c, o.Value(), f, x);
    d := FinishBand(o, c, f, x.time, v);
  }

  method FinishBand(o: StrategyObject, c: Config, f: Frame, time: nat, v: BandView) returns (d: Decision)
    requires IsBand(c) && o.eth.Some? && (v.scan, v.lastBar) == BarScan(c, true, o.Value(), f)
    modifies o
    ensures (o.Value(), d) == BandActed(c, HourCounted(Marked(old(o.Value()), v.peak, v.halts), time, v.recovered, v.danger), f, v)
  {
    o.peak := v.peak;
    if v.halts { o.phase := Halted; }
    CountHour(o, time, v.recovered, v.danger);
    var outside := ScanBar(o, c, true, f);
    assert outside == v.scan.outside && o.layers == v.scan.layers;
    d := ActBand(o, c, f, v);
  }

  method EvaluatePersistentInPlace(o: StrategyObject, c: Config, f: Frame, x: Feature) returns (d: Decision)
    requires c.eth.Some? && !Unusable(c, f, x)
    modifies o
    ensures (o.Value(), d) == PersistentEvaluate(c, old(o.Value()), f, x)
  {
    if o.eth.None? { o.eth := Some(NEW_ETH); }
    Prepare(o, c, f);
    assert o.Value() == Prepared(c, old(o.Value()), f);
    var v := Seen(c, o.Value(), f, x);
    d := FinishPersistent(o, c, f, x.time, v);
  }

  method FinishPersistent(o: StrategyObject, c: Config, f: Frame, time: nat, v: View) returns (d: Decision)
    requires o.eth.Some? && (v.scan, v.lastBar) == BarScan(c, false, o.Value(), f)
    modifies o
    ensures (o.Value(), d) == PersistentActed(c, HourCounted(Marked(old(o.Value()), v.peak, v.halts), time, v.recovered, v.danger), f, v)
  {
    o.peak := v.peak;
    if v.halts { o.phase := Halted; }
    CountHour(o, time, v.recovered, v.danger);
    var outside := ScanBar(o, c, false, f);
    assert outside == v.scan.outside && o.layers == v.scan.layers;
    d := ActPersistent(o, c, f, v);
  }

  method ActPersistent(o: StrategyObject, c: Config, f: Frame, v: View) returns (d: Decision)
    requires o.eth.Some? && o.layers == v.scan.layers && o.lastBar == v.lastBar
    modifies o
    ensures (o.Value(), d) == PersistentActed(c, old(o.Value()), f, v)
  {
    if o.phase == Halted || v.danger || v.scan.outside {
      if !(v.scan.outside && !v.danger) { o.healthy := 0; }
      d := Withdraw(o, f, if v.scan.outside && !v.danger then c.barSeconds * 1000 else Hours(c.cooldownHours));
    } else if f.portfolio.positions == [] {
      PauseWarmup(o, c, f);
      var e := o.eth.value;
      var deadline := if e.reentryNotBefore > 0 then e.reentryNotBefore else o.pauseSince + Hours(c.cooldownHours);
      if o.history == Initial || (f.now >= deadline && o.healthy >= c.resumeHours) {
        o.phase, o.fraction, o.lastBar := Active, 1.0, v.bucket;
        o.eth := Some(e.(lastHedgeCheck := f.now, pendingTarget := None));
        d := Decision(Active, Deploy(1.0), f.portfolio.shortBase, false, false);
      } else {
        o.phase := Paused;
        d := Decision(Paused, ExitToQuote, f.portfolio.Base(), true, false);
      }
    } else {
      o.phase := Active;
      o.eth := Some(WithHedge(o.eth.value, v.hedge));
      d := Decision(Active, Hold, v.hedge.target, false, false);
    }
  }
}
