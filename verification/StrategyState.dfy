/** The market and portfolio values a strategy sees, and the state it keeps between evaluations. */
module StrategyState {
  import opened Common

  /** Milliseconds in `n` hours. */
  function Hours(n: nat): nat { n * 3_600_000 }

  datatype Candle = Candle(openMs: nat, closeMs: nat, open: real, high: real, low: real, close: real)

  datatype Position = Position(layer: string, lower: real, upper: real, liquidity: real, base: real, quote: real)

  datatype Portfolio = Portfolio(
    positions: seq<Position>, walletBase: real, walletQuote: real, shortBase: real, hedgeEquity: real, reserve: real)
  {
    function Base(): real { walletBase + SumBase(positions) }

    function Equity(price: real): real { Base() * price + walletQuote + SumQuote(positions) + hedgeEquity + reserve }
  }

  function SumBase(ps: seq<Position>): real { if ps == [] then 0.0 else SumBase(ps[..|ps| - 1]) + ps[|ps| - 1].base }

  function SumQuote(ps: seq<Position>): real { if ps == [] then 0.0 else SumQuote(ps[..|ps| - 1]) + ps[|ps| - 1].quote }

  /** Indicator values over completed candles; the last close is a price. */
  datatype MetricValues = Metrics(
    return1h: real, volRatio: real, downtrend: bool, noNewLow: bool, emaFast: real, lastClose: real, lastCloseMs: nat)

  type Metrics = m: MetricValues | m.lastClose > 0.0 witness Metrics(0.0, 0.0, false, false, 0.0, 1.0, 0)

  datatype Feature = Feature(time: nat, close: real, r1: real, r6: real, r24: real, r72: real, vol6: real)

  /** `metrics` and `feature` are what the indicator code makes of `candles`, or nothing when it refuses them. */
  datatype Frame = Frame(
    now: nat, poolTime: nat, price: real, hedgePrice: real, hedgeTime: nat, candles: seq<Candle>, portfolio: Portfolio,
    metrics: Option<Metrics>, feature: Option<Feature>)

  datatype BandConfig = BandConfig(
    netLower: real, netUpper: real, minimumHoldingHours: nat, episodeDrawdown: real, pauseDrawdown: real, reentryBudget: real)

  datatype EthConfig = EthConfig(drop24: real, drop72: real, maxVol: real, hedgeIntervalHours: nat, band: Option<BandConfig>)

  datatype ConfigValues = Config(
    totalCapital: real, maxDrawdown: real, maxAgeSeconds: nat, fastDrop: real, volPause: real, volResume: real,
    maxBasis: real, resumeHours: nat, cooldownHours: nat, recoveryFraction: real, stepHours: nat,
    insideRatio: real, releaseBuffer: real, breakoutBuffer: real, confirmBars: nat, barSeconds: nat,
    deadband: real, eth: Option<EthConfig>)

  predicate ValidBand(b: BandConfig, maxDrawdown: real) {
    && 0.0 < b.episodeDrawdown < maxDrawdown && 0.0 < b.pauseDrawdown < maxDrawdown && 0.0 < b.reentryBudget < maxDrawdown
    && b.netLower <= 0.0 < b.netUpper && 1 <= b.minimumHoldingHours <= 720
  }

  /** The ranges configuration loading enforces. */
  predicate ValidConfig(c: ConfigValues) {
    && c.totalCapital > 0.0 && 0.0 < c.maxDrawdown <= 1.0 && 0.0 < c.recoveryFraction <= 1.0
    && 0.0 < c.fastDrop <= 1.0 && 0.0 < c.volResume < c.volPause && c.maxBasis > 0.0
    && 0.0 <= c.insideRatio <= 1.0 && 0 < c.resumeHours <= U32_MAX && c.stepHours > 0 && c.confirmBars > 0 && c.barSeconds > 0
    && (c.eth.Some? ==> c.cooldownHours >= 1 && c.maxDrawdown <= 0.05)
    && (c.eth.Some? && c.eth.value.band.Some? ==> ValidBand(c.eth.value.band.value, c.maxDrawdown))
  }

  const SAMPLE: ConfigValues := Config(200.0, 0.05, 60, 0.1, 2.0, 1.0, 50.0, 1, 1, 0.5, 1, 0.5, 0.0, 0.0, 1, 60, 1.0, None)

  type Config = c: ConfigValues | ValidConfig(c) witness SAMPLE

  datatype Phase = Warmup | Active | Paused | Recovering | Halted

  datatype EntryHistory = Initial | Established | LegacyUnknown

  datatype LayerState = LayerState(protected: bool, side: int, count: nat)

  datatype Progress = Progress(observed: nat, anchor: Option<Candle>, pending: bool)

  datatype BandState = BandState(
    origin: Option<real>, riskEquity: real, enteredMs: nat, episodePeak: real, entryDrawdown: real,
    netExposure: real, pauseThreshold: real)

  datatype EthState = EthState(
    band: Option<BandState>, lastObserved: nat, lastHedgeCheck: nat, pendingTarget: Option<real>,
    reentryNotBefore: nat, pauseAnchor: nat)

  datatype Strategy = Strategy(
    eth: Option<EthState>, history: EntryHistory, phase: Phase, peak: real, pauseSince: nat, lastHour: nat,
    healthy: nat, fraction: real, lastScale: nat, lastBar: nat, layers: map<string, LayerState>, progress: Progress)

  const FRESH: Strategy := Strategy(None, Initial, Warmup, 0.0, 0, 0, 0, 0.0, 0, 0, map[], Progress(0, None, false))

  const NO_LAYER := LayerState(false, 0, 0)

  datatype Intent = Hold | ExitToQuote | Deploy(fraction: real) | Recenter(layers: seq<string>)

  /** `stale` stands for the reason text that makes the runner skip execution. */
  datatype Decision = Decision(state: Phase, lp: Intent, target: real, emergency: bool, stale: bool)

  // ---------------------------------------------------------------- edits shared by several callers

  /** Counters are 32-bit and saturate. */
  function CountUp(n: nat): nat { if n < U32_MAX then n + 1 else U32_MAX }

  function Layer(layers: map<string, LayerState>, name: string): LayerState {
    if name in layers then layers[name] else NO_LAYER
  }

  function ObserveLp(s: Strategy, hasPositions: bool): Strategy {
    if hasPositions then s.(history := Established) else s
  }

  function Quieted(layers: map<string, LayerState>): map<string, LayerState> {
    map n | n in layers :: layers[n].(count := 0, side := 0)
  }

  function Frozen(s: Strategy): Strategy { s.(progress := s.progress.(pending := true)) }

  /** What a restart or a failed read does. */
  function Revalidated(s: Strategy): Strategy { Frozen(s).(layers := Quieted(s.layers)) }

  function StreaksDropped(s: Strategy): Strategy {
    s.(healthy := 0, progress := s.progress.(anchor := None, observed := 0), layers := Quieted(s.layers))
  }

  function WorkflowRecovered(s: Strategy, now: nat): Strategy {
    var t := if s.phase.Halted? then s else s.(phase := Paused, pauseSince := now);
    StreaksDropped(t.(fraction := 0.0))
  }

  function InventoryPaused(s: Strategy, missing: bool, now: nat): Strategy {
    if (s.phase.Active? || s.phase.Recovering?) && missing
    then StreaksDropped(s.(phase := Paused, pauseSince := now, fraction := 0.0)) else s
  }

  predicate Exposed(p: Portfolio) { RAbs(p.walletBase) > 0.00000001 || RAbs(p.shortBase) > 0.00000001 }

  /** A deployment that collateral does not cover is undone before anything executes. */
  function Deferred(s: Strategy, previous: Strategy, p: Portfolio): Strategy {
    s.(phase := if Exposed(p) then Paused else previous.phase, fraction := previous.fraction,
    lastScale := previous.lastScale, eth := previous.eth)
  }

  function DeferredDecision(previous: Strategy, d: Decision, p: Portfolio): Decision {
    if Exposed(p) then d.(state := Paused, lp := ExitToQuote, target := p.shortBase, emergency := true)
    else d.(state := previous.phase, lp := Hold, target := p.shortBase)
  }

  /** The strategy as the runner holds it: one object, edited field by field. */
  class StrategyObject {
    var eth: Option<EthState>
    var history: EntryHistory
    var phase: Phase
    var peak: real
    var pauseSince: nat
    var lastHour: nat
    var healthy: nat
    var fraction: real
    var lastScale: nat
    var lastBar: nat
    var layers: map<string, LayerState>
    var progress: Progress

    function Value(): Strategy
      reads this
    {
      Strategy(eth, history, phase, peak, pauseSince, lastHour, healthy, fraction, lastScale, lastBar, layers, progress)
    }

    constructor ()
      ensures Value() == FRESH
    {
      eth, history, phase, peak, pauseSince, lastHour := None, Initial, Warmup, 0.0, 0, 0;
      healthy, fraction, lastScale, lastBar, layers, progress := 0, 0.0, 0, 0, map[], Progress(0, None, false);
    }

    /** Clears every layer's breakout streak. */
    method QuietLayers()
      modifies this`layers
      ensures layers == Quieted(old(layers))
    {
      var rest := layers.Keys;
      while rest != {}
        invariant rest <= old(layers).Keys && layers.Keys == old(layers).Keys
        invariant forall n :: n in rest ==> layers[n] == old(layers)[n]
        invariant forall n :: n in layers && n !in rest ==> layers[n] == old(layers)[n].(count := 0, side := 0)
        decreases |rest|
      {
        var n :| n in rest;
        layers := layers[n := layers[n].(count := 0, side := 0)];
        rest := rest - {n};
      }
    }

    method FinishWorkflowRecovery(now: nat)
      modifies this
      ensures Value() == WorkflowRecovered(old(Value()), now)
    {
      if phase != Halted {
        phase := Paused;
        pauseSince := now;
      }
      fraction := 0.0;
      healthy := 0;
      progress := progress.(anchor := None, observed := 0);
      QuietLayers();
    }

    /** Called on the object just evaluated, with the value it had before. */
    method DeferEntry(previous: Strategy, d: Decision, p: Portfolio) returns (d': Decision)
      modifies this
      ensures Value() == Deferred(old(Value()), previous, p) && d' == DeferredDecision(previous, d, p)
    {
      phase, fraction, lastScale, eth := previous.phase, previous.fraction, previous.lastScale, previous.eth;
      d' := d.(lp := Hold, state := phase, target := p.shortBase);
      if Exposed(p) {
        phase := Paused;
        d' := d'.(state := Paused, lp := ExitToQuote, emergency := true);
      }
    }
  }
}
