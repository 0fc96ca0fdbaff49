/**
 The paper ledger: simulated liquidity positions, a hedge account marked to market, and what each
 simulated execution costs.

 Prices are given with their square roots; a position stores the roots of its range.
 */
module Paper {
  import opened Common

  type Root = r: real | r > 0.0 witness 1.0

  datatype QuoteValues = Quote(root: Root, price: real)

  type Quote = q: QuoteValues | q.price > 0.0 witness Quote(1.0, 1.0)

  datatype Lp = Lp(layer: string, lower: Root, upper: Root, liquidity: real, base: real, quote: real)

  datatype Order = Order(target: real, buy: bool, price: real, submitted: nat, emergency: bool)

  datatype Ledger = Ledger(
    positions: seq<Lp>, walletBase: real, walletQuote: real, shortBase: real, hedgeEquity: real, reserve: real,
    lastHedge: real, pending: Option<Order>, hedgeFees: real, swapCosts: real, fundingPnl: real, lastFunding: nat)

  /** `half` is the root of one plus the layer's half width. */
  datatype LayerConfig = LayerConfig(name: string, weight: real, half: Root)

  /** `swapRate` is pool fee plus slippage; `emergencySlip` the forced hedge's slippage. */
  datatype Config = Config(
    layers: seq<LayerConfig>, budget: real, collateral: real, reserve: real, swapRate: real, emergencySlip: real,
    makerWaitMs: nat, deadband: real)

  datatype Intent = Hold | ExitToQuote | Deploy(fraction: real) | Recenter(layers: seq<string>)

  /** `target` is the hedge the decision asks for; `inventoryTarget` the one fresh inventory asks for. */
  datatype Decision = Decision(lp: Intent, target: real, emergency: bool, inventoryTarget: real, band: bool, widths: Option<(Root, Root)>)

  const TAKER := 0.00045

  const MAKER := 0.00015

  /** A call that may fail after changing the ledger. */
  datatype Outcome = Outcome(s: Ledger, ok: bool)

  // ---------------------------------------------------------------- amounts and values

  function Clamp(s: Root, lower: Root, upper: Root): Root { if s < lower then lower else if s > upper then upper else s }

  /** Base and quote of a liquidity over a range of root prices. */
  function Amounts(liquidity: real, lower: Root, upper: Root, s: Root): (real, real) {
    (liquidity * BasePerUnit(lower, upper, s), liquidity * QuotePerUnit(lower, upper, s))
  }

  function BasePerUnit(lower: Root, upper: Root, s: Root): real { 1.0 / Clamp(s, lower, upper) - 1.0 / upper }

  function QuotePerUnit(lower: Root, upper: Root, s: Root): real { Clamp(s, lower, upper) - lower }

  function Worth(base: real, quote: real, price: real): real { base * price + quote }

  function UnitWorth(lower: Root, upper: Root, q: Quote): real {
    Worth(BasePerUnit(lower, upper, q.root), QuotePerUnit(lower, upper, q.root), q.price)
  }

  lemma InverseOrder(a: Root, b: Root)
    requires a < b
    ensures 1.0 / a > 1.0 / b
  {
    var x, y := 1.0 / a, 1.0 / b;
    assert x * a == 1.0 && y * b == 1.0;
    Positive(x, y);
    Positive(x * y, b - a);
    assert x * y * b == x * (y * b) && x * y * a == y * (x * a);
  }

  lemma Positive(a: real, b: real)
    requires a > 0.0 && b > 0.0
    ensures a * b > 0.0
  {
  }

  lemma UnitPositive(lower: Root, upper: Root, q: Quote)
    requires lower < upper
    ensures UnitWorth(lower, upper, q) > 0.0
  {
    var c := Clamp(q.root, lower, upper);
    if c < upper {
      InverseOrder(c, upper);
      Positive(1.0 / c - 1.0 / upper, q.price);
    }
  }

  function LiquidityForValue(value: real, lower: Root, upper: Root, q: Quote): Option<real> {
    if value <= 0.0 || lower >= upper then None
    else
      UnitPositive(lower, upper, q);
      Some(value / UnitWorth(lower, upper, q))
  }

  lemma Times(a: real, b: real, c: real)
    ensures (a * b) * c == a * (b * c)
  {
  }

  lemma Over(a: real, b: real)
    requires b > 0.0
    ensures a / b * b == a
  {
  }

  /** The liquidity bought for a value is worth exactly that value at that price. */
  lemma LiquidityIsWorthItsValue(value: real, lower: Root, upper: Root, q: Quote)
    requires value > 0.0 && lower < upper
    ensures var l := LiquidityForValue(value, lower, upper, q).value;
            var (b, n) := Amounts(l, lower, upper, q.root);
            Worth(b, n, q.price) == value
  {
    UnitPositive(lower, upper, q);
    var unit := UnitWorth(lower, upper, q);
    var l := value / unit;
    WorthScales(l, BasePerUnit(lower, upper, q.root), QuotePerUnit(lower, upper, q.root), q.price);
    Over(value, unit);
  }

  lemma WorthScales(l: real, b: real, n: real, price: real)
    ensures Worth(l * b, l * n, price) == l * Worth(b, n, price)
  {
    Times(l, b, price);
    Spread(l, b * price, n);
  }

  lemma Spread(a: real, b: real, c: real)
    ensures a * (b + c) == a * b + a * c && (b + c) * a == b * a + c * a
  {
  }

  /** Amounts add up in liquidity. */
  lemma AmountsAdd(l: real, m: real, lower: Root, upper: Root, s: Root)
    ensures Amounts(l + m, lower, upper, s).0 == Amounts(l, lower, upper, s).0 + Amounts(m, lower, upper, s).0
    ensures Amounts(l + m, lower, upper, s).1 == Amounts(l, lower, upper, s).1 + Amounts(m, lower, upper, s).1
  {
    Spread(BasePerUnit(lower, upper, s), l, m);
    Spread(QuotePerUnit(lower, upper, s), l, m);
  }

  // ---------------------------------------------------------------- what each call computes

  function Held(ps: seq<Lp>, price: real): real {
    if ps == [] then 0.0 else Held(ps[..|ps| - 1], price) + Worth(ps[|ps| - 1].base, ps[|ps| - 1].quote, price)
  }

  function Equity(s: Ledger, price: real): real {
    Worth(s.walletBase, s.walletQuote, price) + Held(s.positions, price) + s.hedgeEquity + s.reserve
  }

  function Revalue(p: Lp, s: Root): Lp {
    p.(base := Amounts(p.liquidity, p.lower, p.upper, s).0, quote := Amounts(p.liquidity, p.lower, p.upper, s).1)
  }

  function RevalueAll(ps: seq<Lp>, s: Root): (r: seq<Lp>)
    ensures |r| == |ps|
  {
    if ps == [] then [] else RevalueAll(ps[..|ps| - 1], s) + [Revalue(ps[|ps| - 1], s)]
  }

  /** A short's gain when its mark moves. */
  function ShortGain(short: real, was: real, mark: real): real { short * (was - mark) }

  function HedgeMarked(s: Ledger, hedge: real): Ledger {
    (if s.lastHedge > 0.0 then s.(hedgeEquity := s.hedgeEquity + ShortGain(s.shortBase, s.lastHedge, hedge)) else s).(lastHedge := hedge)
  }

  function Revalued(s: Ledger, q: Quote, hedge: real): Ledger {
    HedgeMarked(s, hedge).(positions := RevalueAll(s.positions, q.root))
  }

  /** A cost proportional to the amount traded at a price. */
  function Cost(delta: real, price: real, rate: real): real { RAbs(delta) * price * rate }

  function FillGain(delta: real, execution: real, mark: real): real { delta * (execution - mark) }

  function Filled(s: Ledger, target: real, execution: real, rate: real): Ledger {
    var delta := target - s.shortBase;
    var fee := Cost(delta, execution, rate);
    s.(hedgeEquity := s.hedgeEquity + FillGain(delta, execution, s.lastHedge) - fee, hedgeFees := s.hedgeFees + fee, shortBase := target)
  }

  predicate Crossed(o: Order, hedge: real, now: nat) { now > o.submitted && if o.buy then hedge < o.price else hedge > o.price }

  predicate Expired(c: Config, o: Order, now: nat) { SatSub(now, o.submitted) >= c.makerWaitMs }

  function Forced(c: Config, buy: bool, hedge: real): real { hedge * (1.0 + (if buy then 1.0 else -1.0) * c.emergencySlip) }

  /** The price a resting order executes at on this mark, if it does. */
  function Execution(c: Config, o: Order, hedge: real, now: nat): Option<(real, real)> {
    if Crossed(o, hedge, now) then Some((o.price, MAKER))
    else if Expired(c, o, now) && o.emergency then Some((Forced(c, o.buy, hedge), TAKER))
    else None
  }

  function Settled(c: Config, s: Ledger, hedge: real, now: nat): Ledger {
    if s.pending.None? then s
    else
      var o := s.pending.value;
      var x := Execution(c, o, hedge, now);
      if x.Some? then Filled(s, o.target, x.value.0, x.value.1).(pending := None)
      else if Expired(c, o, now) then s.(pending := None)
      else s
  }

  function Marked(c: Config, s: Ledger, q: Quote, hedge: real, now: nat): Ledger { Settled(c, Revalued(s, q, hedge), hedge, now) }

  function Swapped(c: Config, s: Ledger, target: real, price: real): Ledger {
    var delta := target - s.walletBase;
    var cost := Cost(delta, price, c.swapRate);
    s.(walletQuote := s.walletQuote - Worth(delta, cost, price), walletBase := target, swapCosts := s.swapCosts + cost)
  }

  /** A position sold into the wallet, or kept. */
  function TakeOne(t: Ledger, p: Lp, sold: bool): Ledger {
    if sold then t.(walletBase := t.walletBase + p.base, walletQuote := t.walletQuote + p.quote)
    else t.(positions := t.positions + [p])
  }

  function RemovedUpTo(s: Ledger, layers: seq<string>, n: nat): Ledger
    requires n <= |s.positions|
  {
    if n == 0 then s.(positions := [])
    else TakeOne(RemovedUpTo(s, layers, n - 1), s.positions[n - 1], s.positions[n - 1].layer in layers)
  }

  function Removed(s: Ledger, layers: seq<string>): Ledger { RemovedUpTo(s, layers, |s.positions|) }

  function FindLayer(ls: seq<LayerConfig>, name: string): Option<LayerConfig> {
    if ls == [] then None else if ls[0].name == name then Some(ls[0]) else FindLayer(ls[1..], name)
  }

  function Spent(s: Ledger, b: real, n: real): Ledger { s.(walletBase := s.walletBase - b, walletQuote := s.walletQuote - n) }

  function Enlarged(s: Ledger, i: nat, added: real, q: Quote): Ledger
    requires i < |s.positions|
  {
    var p := s.positions[i];
    s.(positions := s.positions[i := Revalue(p.(liquidity := p.liquidity + added), q.root)])
  }

  /** Buys liquidity for `value` into position `i`. */
  function Grown(c: Config, s: Ledger, i: nat, value: real, q: Quote): Outcome
    requires i < |s.positions|
  {
    var p := s.positions[i];
    var added := LiquidityForValue(value, p.lower, p.upper, q);
    if added.None? then Outcome(s, false)
    else
      var (b, n) := Amounts(added.value, p.lower, p.upper, q.root);
      var t := Swapped(c, s, b, q.price);
      if t.walletQuote < n then Outcome(t, false) else Outcome(Enlarged(Spent(t, b, n), i, added.value, q), true)
  }

  /** What a position lacks of its share, as far as the wallet allows. */
  function Missing(c: Config, p: Lp, weight: real, fraction: real, available: real, price: real): real {
    RMin(c.budget * fraction * weight - Worth(p.base, p.quote, price), available) * 0.995
  }

  function ScaleOne(c: Config, s: Ledger, i: nat, fraction: real, q: Quote): Outcome
    requires i < |s.positions|
  {
    var p := s.positions[i];
    var layer := FindLayer(c.layers, p.layer);
    if layer.None? then Outcome(s, false)
    else
      var value := Missing(c, p, layer.value.weight, fraction, Worth(s.walletBase, s.walletQuote, q.price), q.price);
      if value < 10.0 then Outcome(s, true)
      else if !(p.lower < q.root < p.upper) then Outcome(s, false)
      else Grown(c, s, i, value, q)
  }

  function ScaleAll(c: Config, s: Ledger, fraction: real, q: Quote, n: nat): (r: Outcome)
    requires n <= |s.positions|
    ensures |r.s.positions| == |s.positions|
  {
    if n == 0 then Outcome(s, true)
    else
      var r := ScaleAll(c, s, fraction, q, n - 1);
      if r.ok then ScaleOne(c, r.s, n - 1, fraction, q) else r
  }

  /** The chosen layers, in configuration order. */
  function Chosen(ls: seq<LayerConfig>, names: seq<string>): seq<LayerConfig> {
    if ls == [] then []
    else
      var r := Chosen(ls[..|ls| - 1], names);
      if ls[|ls| - 1].name in names then r + [ls[|ls| - 1]] else r
  }

  function Names(ls: seq<LayerConfig>): seq<string> { if ls == [] then [] else Names(ls[..|ls| - 1]) + [ls[|ls| - 1].name] }

  function LayersOf(ps: seq<Lp>): seq<string> { if ps == [] then [] else LayersOf(ps[..|ps| - 1]) + [ps[|ps| - 1].layer] }

  function Weights(ls: seq<LayerConfig>): real { if ls == [] then 0.0 else Weights(ls[..|ls| - 1]) + ls[|ls| - 1].weight }

  /** A layer's part of the budget; weights are positive, so a sum over chosen layers is never zero. */
  function Portion(budget: real, weight: real, total: real): real { if total == 0.0 then 0.0 else budget * weight / total }

  lemma RootTimes(a: Root, b: Root)
    ensures a * b > 0.0 && a / b > 0.0
  {
    Positive(a, b);
    Over(a, b);
  }

  function RangeOf(l: LayerConfig, q: Quote, widths: Option<(Root, Root)>): (Root, Root) {
    RootTimes(q.root, l.half);
    if widths.Some? then
      RootTimes(q.root, widths.value.0);
      RootTimes(q.root, widths.value.1);
      (q.root * widths.value.0, q.root * widths.value.1)
    else (q.root / l.half, q.root * l.half)
  }

  function MintOne(c: Config, s: Ledger, l: LayerConfig, value: real, q: Quote, widths: Option<(Root, Root)>): Outcome {
    var (lower, upper) := RangeOf(l, q, widths);
    var liquidity := LiquidityForValue(value, lower, upper, q);
    if liquidity.None? then Outcome(s, false)
    else
      var (b, n) := Amounts(liquidity.value, lower, upper, q.root);
      var t := Swapped(c, s, b, q.price);
      if t.walletQuote + 0.000001 < n then Outcome(t, false)
      else
        Outcome(Opened(Spent(t, b, n), Lp(l.name, lower, upper, liquidity.value, b, n)), true)
  }

  function Opened(s: Ledger, p: Lp): Ledger { s.(positions := s.positions + [p]) }

  function MintAll(c: Config, s: Ledger, ls: seq<LayerConfig>, budget: real, q: Quote, widths: Option<(Root, Root)>, n: nat): Outcome
    requires n <= |ls|
  {
    if n == 0 then Outcome(s, true)
    else
      var r := MintAll(c, s, ls, budget, q, widths, n - 1);
      if r.ok then MintOne(c, r.s, ls[n - 1], Portion(budget, ls[n - 1].weight, Weights(ls)), q, widths) else r
  }

  function Exited(c: Config, s: Ledger, q: Quote, hedge: real): Ledger {
    var t := Swapped(c, Removed(s.(pending := None), LayersOf(s.positions)), 0.0, q.price);
    if t.shortBase > 0.0 then Filled(t, 0.0, hedge * (1.0 + c.emergencySlip), TAKER) else t
  }

  function Budget(c: Config, s: Ledger, d: Decision, q: Quote): real {
    var available := Worth(s.walletBase, s.walletQuote, q.price);
    RMin(if d.lp.Deploy? then c.budget * d.lp.fraction else if d.widths.Some? then c.budget else available, available) * 0.995
  }

  function Redeployed(c: Config, s: Ledger, d: Decision, q: Quote): Outcome {
    var names := if d.lp.Recenter? then d.lp.layers else Names(c.layers);
    var t := Removed(s, names);
    var ls := Chosen(c.layers, names);
    MintAll(c, t, ls, Budget(c, t, d, q), q, d.widths, |ls|)
  }

  predicate Enters(d: Decision) { d.lp.Deploy? || d.lp.Recenter? }

  predicate AnyBelow(ps: seq<Lp>, s: Root) { exists i :: 0 <= i < |ps| && s < ps[i].lower }

  /** What the distance between two hedge sizes is worth. */
  function Drift(a: real, b: real, hedge: real): real { RAbs(a - b) * hedge }

  function RestingPrice(buy: bool, hedge: real): real { hedge * (if buy then 0.9999 else 1.0001) }

  /** The resting hedge order an application leaves. */
  function Hedged(c: Config, s: Ledger, d: Decision, q: Quote, hedge: real, now: nat): Ledger {
    var target := if Enters(d) then d.inventoryTarget else d.target;
    var kept := s.pending.Some? && Drift(s.pending.value.target, target, hedge) < c.deadband;
    var t := if kept then s else s.(pending := None);
    var entry := d.widths.Some? && Enters(d);
    if Drift(target, s.shortBase, hedge) >= (if entry then 10.0 else c.deadband) && t.pending.None? then
      var buy := target < s.shortBase;
      t.(pending := Some(Order(target, buy, RestingPrice(buy, hedge), now,
                               d.emergency || entry || AnyBelow(s.positions, q.root))))
    else t
  }

  function Applied(c: Config, s: Ledger, d: Decision, q: Quote, hedge: real, now: nat): Outcome {
    if d.band && Enters(d) && d.widths.None? then Outcome(s, false)
    else if d.lp.ExitToQuote? then Outcome(Exited(c, s, q, hedge), true)
    else
      var r :=
        if d.lp.Hold? then Outcome(s, true)
        else if d.lp.Deploy? && s.positions != [] then ScaleAll(c, s, d.lp.fraction, q, |s.positions|)
        else Redeployed(c, s, d, q);
      if r.ok then Outcome(Hedged(c, r.s, d, q, hedge, now), true) else r
  }

  datatype Funding = Funding(time: nat, rate: real)

  function FundingGain(short: real, mark: real, rate: real): real { short * mark * rate }

  function Funded(s: Ledger, rows: seq<Funding>, n: nat): Ledger
    requires n <= |rows|
  {
    if n == 0 then s
    else
      var t, r := Funded(s, rows, n - 1), rows[n - 1];
      if r.time > t.lastFunding then
        var pnl := FundingGain(t.shortBase, t.lastHedge, r.rate);
        t.(hedgeEquity := t.hedgeEquity + pnl, fundingPnl := t.fundingPnl + pnl, lastFunding := r.time)
      else t
  }

  // ---------------------------------------------------------------- conservation, call by call

  /** Equity with the recorded costs put back and the recorded funding taken out. */
  function Book(s: Ledger, price: real): real { Equity(s, price) + s.swapCosts + s.hedgeFees - s.fundingPnl }

  /** A fill's gain or loss against the mark. */
  function Slip(s: Ledger, target: real, execution: real): real { FillGain(target - s.shortBase, execution, s.lastHedge) }

  lemma FillBooks(s: Ledger, target: real, execution: real, rate: real, price: real)
    ensures Book(Filled(s, target, execution, rate), price) == Book(s, price) + Slip(s, target, execution)
  {
  }

  lemma WorthMoves(base: real, quote: real, delta: real, cost: real, price: real)
    ensures Worth(base + delta, quote - Worth(delta, cost, price), price) == Worth(base, quote, price) - cost
  {
    Spread(price, base, delta);
  }

  lemma SwapBooks(c: Config, s: Ledger, target: real, price: real)
    ensures Book(Swapped(c, s, target, price), price) == Book(s, price)
  {
    var delta := target - s.walletBase;
    WorthMoves(s.walletBase, s.walletQuote, delta, Cost(delta, price, c.swapRate), price);
    assert s.walletBase + delta == target;
  }

  lemma WorthAdds(b: real, n: real, b': real, n': real, price: real)
    ensures Worth(b + b', n + n', price) == Worth(b, n, price) + Worth(b', n', price)
    ensures Worth(b - b', n - n', price) == Worth(b, n, price) - Worth(b', n', price)
  {
    Spread(price, b, b');
    Spread(price, b - b', b');
  }

  lemma HeldSnoc(ps: seq<Lp>, p: Lp, price: real)
    ensures Held(ps + [p], price) == Held(ps, price) + Worth(p.base, p.quote, price)
  {
    assert (ps + [p])[..|ps|] == ps;
  }

  /** One position sold or kept: what the list loses, wallet or rest gains. */
  lemma RemoveOneBooks(t: Ledger, p: Lp, sold: bool, price: real)
    ensures Book(TakeOne(t, p, sold), price) == Book(t, price) + Worth(p.base, p.quote, price)
  {
    HeldSnoc(t.positions, p, price);
    WorthAdds(t.walletBase, t.walletQuote, p.base, p.quote, price);
  }

  lemma RemoveNext(s: Ledger, layers: seq<string>, n: nat, price: real)
    requires 0 < n <= |s.positions|
    ensures Book(RemovedUpTo(s, layers, n), price)
         == Book(RemovedUpTo(s, layers, n - 1), price) + Worth(s.positions[n - 1].base, s.positions[n - 1].quote, price)
  {
    var p := s.positions[n - 1];
    RemoveOneBooks(RemovedUpTo(s, layers, n - 1), p, p.layer in layers, price);
  }

  lemma HeldPrefix(ps: seq<Lp>, n: nat, price: real)
    requires 0 < n <= |ps|
    ensures Held(ps[..n], price) == Held(ps[..n - 1], price) + Worth(ps[n - 1].base, ps[n - 1].quote, price)
  {
    assert ps[..n] == ps[..n - 1] + [ps[n - 1]];
    HeldSnoc(ps[..n - 1], ps[n - 1], price);
  }

  lemma RemoveNothing(s: Ledger, price: real)
    ensures Book(s.(positions := []), price) == Book(s, price) - Held(s.positions, price)
  {
  }

  lemma {:induction false} RemoveBooks(s: Ledger, layers: seq<string>, n: nat, price: real)
    requires n <= |s.positions|
    ensures Book(RemovedUpTo(s, layers, n), price) == Book(s, price) - Held(s.positions, price) + Held(s.positions[..n], price)
  {
    if n == 0 {
      RemoveNothing(s, price);
    } else {
      RemoveBooks(s, layers, n - 1, price);
      RemoveNext(s, layers, n, price);
      HeldPrefix(s.positions, n, price);
    }
  }

  lemma RemovedBooks(s: Ledger, layers: seq<string>, price: real)
    ensures Book(Removed(s, layers), price) == Book(s, price)
  {
    RemoveBooks(s, layers, |s.positions|, price);
    assert s.positions[..|s.positions|] == s.positions;
  }

  lemma {:induction false} HeldUpdate(ps: seq<Lp>, i: nat, p: Lp, price: real)
    requires i < |ps|
    ensures Held(ps[i := p], price) == Held(ps, price) - Worth(ps[i].base, ps[i].quote, price) + Worth(p.base, p.quote, price)
  {
    var n := |ps| - 1;
    if i < n {
      HeldUpdate(ps[..n], i, p, price);
      assert ps[i := p][..n] == ps[..n][i := p];
    } else {
      assert ps[i := p][..n] == ps[..n];
    }
  }

  /** Every position shows its amounts at this root price. */
  ghost predicate Shown(ps: seq<Lp>, s: Root) { forall i :: 0 <= i < |ps| ==> ps[i] == Revalue(ps[i], s) }

  /** Paying for a new position moves value from the wallet into it. */
  lemma OpenBooks(t: Ledger, p: Lp, q: Quote)
    requires Shown(t.positions, q.root) && p == Revalue(p, q.root)
    ensures var u := Opened(Spent(t, p.base, p.quote), p); Book(u, q.price) == Book(t, q.price) && Shown(u.positions, q.root)
  {
    WorthAdds(t.walletBase, t.walletQuote, p.base, p.quote, q.price);
    HeldSnoc(t.positions, p, q.price);
  }

  lemma MintBooks(c: Config, s: Ledger, l: LayerConfig, value: real, q: Quote, widths: Option<(Root, Root)>)
    requires Shown(s.positions, q.root)
    ensures var r := MintOne(c, s, l, value, q, widths); Book(r.s, q.price) == Book(s, q.price) && Shown(r.s.positions, q.root)
  {
    var (lower, upper) := RangeOf(l, q, widths);
    var liquidity := LiquidityForValue(value, lower, upper, q);
    if liquidity.Some? {
      var (b, n) := Amounts(liquidity.value, lower, upper, q.root);
      SwapBooks(c, s, b, q.price);
      OpenBooks(Swapped(c, s, b, q.price), Lp(l.name, lower, upper, liquidity.value, b, n), q);
    }
  }

  lemma {:induction false} MintAllBooks(
    c: Config, s: Ledger, ls: seq<LayerConfig>, budget: real, q: Quote, widths: Option<(Root, Root)>, n: nat)
    requires n <= |ls| && Shown(s.positions, q.root)
    ensures var r := MintAll(c, s, ls, budget, q, widths, n); Book(r.s, q.price) == Book(s, q.price) && Shown(r.s.positions, q.root)
  {
    if n > 0 {
      MintAllBooks(c, s, ls, budget, q, widths, n - 1);
      var r := MintAll(c, s, ls, budget, q, widths, n - 1);
      if r.ok { MintBooks(c, r.s, ls[n - 1], Portion(budget, ls[n - 1].weight, Weights(ls)), q, widths); }
    }
  }

  /** Paying for added liquidity moves value from the wallet into the position. */
  lemma EnlargeBooks(t: Ledger, i: nat, added: real, q: Quote)
    requires i < |t.positions| && Shown(t.positions, q.root)
    ensures var p := t.positions[i];
            var (b, n) := Amounts(added, p.lower, p.upper, q.root);
            var u := Enlarged(Spent(t, b, n), i, added, q);
            Book(u, q.price) == Book(t, q.price) && Shown(u.positions, q.root)
  {
    var p := t.positions[i];
    var (b, n) := Amounts(added, p.lower, p.upper, q.root);
    var p' := Revalue(p.(liquidity := p.liquidity + added), q.root);
    AmountsAdd(p.liquidity, added, p.lower, p.upper, q.root);
    WorthAdds(p.base, p.quote, b, n, q.price);
    WorthAdds(t.walletBase, t.walletQuote, b, n, q.price);
    HeldUpdate(t.positions, i, p', q.price);
  }

  lemma GrowBooks(c: Config, s: Ledger, i: nat, value: real, q: Quote)
    requires i < |s.positions| && Shown(s.positions, q.root)
    ensures var r := Grown(c, s, i, value, q); Book(r.s, q.price) == Book(s, q.price) && Shown(r.s.positions, q.root)
  {
    var p := s.positions[i];
    var added := LiquidityForValue(value, p.lower, p.upper, q);
    if added.Some? {
      var b := Amounts(added.value, p.lower, p.upper, q.root).0;
      SwapBooks(c, s, b, q.price);
      EnlargeBooks(Swapped(c, s, b, q.price), i, added.value, q);
    }
  }

  lemma ScaleBooks(c: Config, s: Ledger, i: nat, fraction: real, q: Quote)
    requires i < |s.positions| && Shown(s.positions, q.root)
    ensures var r := ScaleOne(c, s, i, fraction, q); Book(r.s, q.price) == Book(s, q.price) && Shown(r.s.positions, q.root)
  {
    var p, layer := s.positions[i], FindLayer(c.layers, s.positions[i].layer);
    if layer.Some? {
      var value := Missing(c, p, layer.value.weight, fraction, Worth(s.walletBase, s.walletQuote, q.price), q.price);
      GrowBooks(c, s, i, value, q);
    }
  }

  lemma {:induction false} ScaleAllBooks(c: Config, s: Ledger, fraction: real, q: Quote, n: nat)
    requires n <= |s.positions| && Shown(s.positions, q.root)
    ensures var r := ScaleAll(c, s, fraction, q, n); Book(r.s, q.price) == Book(s, q.price) && Shown(r.s.positions, q.root)
  {
    if n > 0 {
      ScaleAllBooks(c, s, fraction, q, n - 1);
      var r := ScaleAll(c, s, fraction, q, n - 1);
      if r.ok { ScaleBooks(c, r.s, n - 1, fraction, q); }
    }
  }

  lemma {:induction false} RemovedKeeps(s: Ledger, layers: seq<string>, n: nat, root: Root)
    requires n <= |s.positions|
    ensures var t := RemovedUpTo(s, layers, n);
            && t == s.(positions := t.positions, walletBase := t.walletBase, walletQuote := t.walletQuote)
            && (Shown(s.positions, root) ==> Shown(t.positions, root))
            && (forall i :: 0 <= i < |t.positions| ==> t.positions[i].layer !in layers)
  {
    if n > 0 { RemovedKeeps(s, layers, n - 1, root); }
  }

  lemma {:induction false} LayersOfAll(ps: seq<Lp>)
    ensures |LayersOf(ps)| == |ps| && forall i :: 0 <= i < |ps| ==> LayersOf(ps)[i] == ps[i].layer
  {
    if ps != [] { LayersOfAll(ps[..|ps| - 1]); }
  }

  lemma {:induction false} RemovedNothing(s: Ledger, layers: seq<string>, n: nat)
    requires n <= |s.positions| && forall i :: 0 <= i < n ==> s.positions[i].layer in layers
    ensures RemovedUpTo(s, layers, n).positions == []
  {
    if n > 0 { RemovedNothing(s, layers, n - 1); }
  }

  function ExitSlip(c: Config, s: Ledger, hedge: real): real {
    if s.shortBase > 0.0 then Slip(s, 0.0, hedge * (1.0 + c.emergencySlip)) else 0.0
  }

  /** An exit sells everything, closes the hedge, and costs what it records. */
  lemma ExitBooks(c: Config, s: Ledger, q: Quote, hedge: real)
    ensures var t := Exited(c, s, q, hedge);
            && Book(t, q.price) == Book(s, q.price) + ExitSlip(c, s, hedge)
            && t.positions == [] && t.walletBase == 0.0 && t.shortBase <= 0.0 && t.pending.None?
  {
    var a := s.(pending := None);
    var b := Removed(a, LayersOf(s.positions));
    LayersOfAll(s.positions);
    RemovedNothing(a, LayersOf(s.positions), |a.positions|);
    RemovedKeeps(a, LayersOf(s.positions), |a.positions|, q.root);
    RemovedBooks(a, LayersOf(s.positions), q.price);
    SwapBooks(c, b, 0.0, q.price);
    FillBooks(Swapped(c, b, 0.0, q.price), 0.0, hedge * (1.0 + c.emergencySlip), TAKER, q.price);
  }

  lemma RedeployBooks(c: Config, s: Ledger, d: Decision, q: Quote)
    requires Shown(s.positions, q.root)
    ensures var r := Redeployed(c, s, d, q); Book(r.s, q.price) == Book(s, q.price) && Shown(r.s.positions, q.root)
  {
    var names := if d.lp.Recenter? then d.lp.layers else Names(c.layers);
    var t, ls := Removed(s, names), Chosen(c.layers, names);
    RemovedBooks(s, names, q.price);
    RemovedKeeps(s, names, |s.positions|, q.root);
    MintAllBooks(c, t, ls, Budget(c, t, d, q), q, d.widths, |ls|);
  }

  lemma HedgeBooks(c: Config, s: Ledger, d: Decision, q: Quote, hedge: real, now: nat)
    ensures var t := Hedged(c, s, d, q, hedge, now); t == s.(pending := t.pending)
  {
  }

  /**
   At marked prices an application changes equity by minus the recorded swap cost, minus the recorded
   hedge fee, plus the fill's difference from the mark, on success and on every failure.
   */
  lemma ApplyBooks(c: Config, s: Ledger, d: Decision, q: Quote, hedge: real, now: nat)
    requires Shown(s.positions, q.root)
    ensures var r := Applied(c, s, d, q, hedge, now);
            && Equity(r.s, q.price) == Equity(s, q.price) - (r.s.swapCosts - s.swapCosts) - (r.s.hedgeFees - s.hedgeFees)
                                       + (r.s.fundingPnl - s.fundingPnl) + (if d.lp.ExitToQuote? then ExitSlip(c, s, hedge) else 0.0)
            && Shown(r.s.positions, q.root)
  {
    if d.lp.ExitToQuote? {
      ExitBooks(c, s, q, hedge);
    } else {
      RedeployBooks(c, s, d, q);
      if d.lp.Deploy? { ScaleAllBooks(c, s, d.lp.fraction, q, |s.positions|); }
      EntryBooks(c, s, d, q, hedge, now);
    }
  }

  lemma EntryBooks(c: Config, s: Ledger, d: Decision, q: Quote, hedge: real, now: nat)
    requires !d.lp.ExitToQuote? && Shown(s.positions, q.root)
    requires var r := Redeployed(c, s, d, q); Book(r.s, q.price) == Book(s, q.price) && Shown(r.s.positions, q.root)
    requires d.lp.Deploy? ==>
               var r := ScaleAll(c, s, d.lp.fraction, q, |s.positions|); Book(r.s, q.price) == Book(s, q.price) && Shown(r.s.positions, q.root)
    ensures var r := Applied(c, s, d, q, hedge, now); Book(r.s, q.price) == Book(s, q.price) && Shown(r.s.positions, q.root)
  {
    var r :=
      if d.lp.Hold? then Outcome(s, true)
      else if d.lp.Deploy? && s.positions != [] then ScaleAll(c, s, d.lp.fraction, q, |s.positions|)
      else Redeployed(c, s, d, q);
    HedgeBooks(c, r.s, d, q, hedge, now);
  }

  // -------------------------------- marks and funding

  lemma {:induction false} RevalueEach(ps: seq<Lp>, s: Root)
    ensures forall i :: 0 <= i < |ps| ==> RevalueAll(ps, s)[i] == Revalue(ps[i], s)
  {
    if ps != [] { RevalueEach(ps[..|ps| - 1], s); }
  }

  lemma {:induction false} RevalueShows(ps: seq<Lp>, s: Root)
    ensures Shown(RevalueAll(ps, s), s)
  {
    if ps != [] { RevalueShows(ps[..|ps| - 1], s); }
  }

  /** What a move of the pool and hedge prices earns. */
  function MarkGain(s: Ledger, was: Quote, q: Quote, hedge: real): real {
    (Worth(s.walletBase, 0.0, q.price) - Worth(s.walletBase, 0.0, was.price))
    + (Held(RevalueAll(s.positions, q.root), q.price) - Held(s.positions, was.price))
    + (if s.lastHedge > 0.0 then ShortGain(s.shortBase, s.lastHedge, hedge) else 0.0)
  }

  /** What the resting order's fill earns against the mark. */
  function SettleSlip(c: Config, s: Ledger, hedge: real, now: nat): real {
    if s.pending.Some? && Execution(c, s.pending.value, hedge, now).Some?
    then FillGain(s.pending.value.target - s.shortBase, Execution(c, s.pending.value, hedge, now).value.0, hedge) else 0.0
  }

  lemma RevalueBooks(s: Ledger, was: Quote, q: Quote, hedge: real)
    ensures Book(Revalued(s, q, hedge), q.price) == Book(s, was.price) + MarkGain(s, was, q, hedge)
  {
  }

  lemma SettleBooks(c: Config, s: Ledger, hedge: real, now: nat, price: real)
    requires s.lastHedge == hedge
    ensures var t := Settled(c, s, hedge, now);
            Book(t, price) == Book(s, price) + SettleSlip(c, s, hedge, now) && t.positions == s.positions
  {
    if s.pending.Some? {
      var x := Execution(c, s.pending.value, hedge, now);
      if x.Some? { FillBooks(s, s.pending.value.target, x.value.0, x.value.1, price); }
    }
  }

  lemma MarkBooks(c: Config, s: Ledger, was: Quote, q: Quote, hedge: real, now: nat)
    ensures var t := Marked(c, s, q, hedge, now);
            && Book(t, q.price) == Book(s, was.price) + MarkGain(s, was, q, hedge) + SettleSlip(c, s, hedge, now)
            && Shown(t.positions, q.root)
  {
    RevalueBooks(s, was, q, hedge);
    RevalueShows(s.positions, q.root);
    SettleBooks(c, Revalued(s, q, hedge), hedge, now, q.price);
    SlipUnmoved(c, s, Revalued(s, q, hedge), hedge, now);
  }

  lemma SlipUnmoved(c: Config, s: Ledger, r: Ledger, hedge: real, now: nat)
    requires r.pending == s.pending && r.shortBase == s.shortBase
    ensures SettleSlip(c, r, hedge, now) == SettleSlip(c, s, hedge, now)
  {
  }

  lemma {:induction false} FundingBooks(s: Ledger, rows: seq<Funding>, n: nat, price: real)
    requires n <= |rows|
    ensures var t := Funded(s, rows, n); Book(t, price) == Book(s, price) && t.positions == s.positions
  {
    if n > 0 { FundingBooks(s, rows, n - 1, price); }
  }

  // -------------------------------- runs

  datatype Action =
    | Mark(q: Quote, hedge: real, now: nat)
    | Apply(d: Decision, now: nat)
    | Fund(rows: seq<Funding>)

  /** The ledger with the prices it was last marked at; `gains` and `slips` accumulate what the market did. */
  datatype World = World(s: Ledger, q: Quote, hedge: real, gains: real, slips: real)

  function Step(c: Config, w: World, a: Action): World {
    match a
    case Mark(q, hedge, now) =>
      World(Marked(c, w.s, q, hedge, now), q, hedge, w.gains + MarkGain(w.s, w.q, q, hedge), w.slips + SettleSlip(c, w.s, hedge, now))
    case Apply(d, now) =>
      w.(s := Applied(c, w.s, d, w.q, w.hedge, now).s, slips := w.slips + (if d.lp.ExitToQuote? then ExitSlip(c, w.s, w.hedge) else 0.0))
    case Fund(rows) => w.(s := Funded(w.s, rows, |rows|))
  }

  function NewLedger(c: Config, now: nat): Ledger {
    Ledger([], 0.0, c.budget, 0.0, c.collateral, c.reserve, 0.0, None, 0.0, 0.0, 0.0, now)
  }

  function Run(c: Config, now: nat, q: Quote, hedge: real, actions: seq<Action>): World {
    if actions == [] then World(NewLedger(c, now), q, hedge, 0.0, 0.0)
    else Step(c, Run(c, now, q, hedge, actions[..|actions| - 1]), actions[|actions| - 1])
  }

  lemma StepBooks(c: Config, w: World, a: Action)
    requires Shown(w.s.positions, w.q.root)
    ensures var u := Step(c, w, a);
            && Book(u.s, u.q.price) - u.gains - u.slips == Book(w.s, w.q.price) - w.gains - w.slips
            && Shown(u.s.positions, u.q.root)
  {
    match a
    case Mark(q, hedge, now) => MarkBooks(c, w.s, w.q, q, hedge, now);
    case Apply(d, now) => ApplyBooks(c, w.s, d, w.q, w.hedge, now);
    case Fund(rows) => FundingBooks(w.s, rows, |rows|, w.q.price);
  }

  /**
   Over every run of marks, applications and funding, equity is the starting capital plus market
   gains, fills against the mark and funding, minus exactly the recorded swap costs and hedge fees.
   */
  lemma {:induction false} EquityConserved(c: Config, now: nat, q: Quote, hedge: real, actions: seq<Action>)
    ensures var w := Run(c, now, q, hedge, actions);
            && Equity(w.s, w.q.price) == c.budget + c.collateral + c.reserve + w.gains + w.slips + w.s.fundingPnl
                                         - w.s.swapCosts - w.s.hedgeFees
            && Shown(w.s.positions, w.q.root)
  {
    if actions == [] {
      assert Held([], q.price) == 0.0 && Worth(0.0, c.budget, q.price) == c.budget;
    } else {
      EquityConserved(c, now, q, hedge, actions[..|actions| - 1]);
      StepBooks(c, Run(c, now, q, hedge, actions[..|actions| - 1]), actions[|actions| - 1]);
    }
  }

  // -------------------------------- what a deployment builds

  lemma MintOneBuilds(c: Config, s: Ledger, l: LayerConfig, value: real, q: Quote, widths: Option<(Root, Root)>)
    requires MintOne(c, s, l, value, q, widths).ok
    ensures var u := MintOne(c, s, l, value, q, widths).s; var n := |s.positions|;
                                                           && |u.positions| == n + 1 && u.positions[..n] == s.positions && u.walletBase == 0.0
                                                           && u.positions[n].layer == l.name && Worth(u.positions[n].base, u.positions[n].quote, q.price) == value
                                                           && (u.positions[n].lower, u.positions[n].upper) == RangeOf(l, q, widths)
  {
    var (lower, upper) := RangeOf(l, q, widths);
    LiquidityIsWorthItsValue(value, lower, upper, q);
  }

  /** A completed deployment adds one position per layer, each worth its weighted share, and leaves no loose base. */
  lemma {:induction false} MintAllBuilds(
    c: Config, s: Ledger, ls: seq<LayerConfig>, budget: real, q: Quote, widths: Option<(Root, Root)>, n: nat)
    requires n <= |ls| && MintAll(c, s, ls, budget, q, widths, n).ok
    ensures var u := MintAll(c, s, ls, budget, q, widths, n).s;
            && |u.positions| == |s.positions| + n && (n > 0 ==> u.walletBase == 0.0)
            && (forall i :: 0 <= i < n ==>
                              var p := u.positions[|s.positions| + i];
                              && p.layer == ls[i].name && Worth(p.base, p.quote, q.price) == Portion(budget, ls[i].weight, Weights(ls))
                              && (p.lower, p.upper) == RangeOf(ls[i], q, widths))
  {
    if n > 0 {
      MintAllBuilds(c, s, ls, budget, q, widths, n - 1);
      var t := MintAll(c, s, ls, budget, q, widths, n - 1).s;
      MintOneBuilds(c, t, ls[n - 1], Portion(budget, ls[n - 1].weight, Weights(ls)), q, widths);
      var u := MintAll(c, s, ls, budget, q, widths, n).s;
      assert forall i :: 0 <= i < |t.positions| ==> u.positions[i] == u.positions[..|t.positions|][i] == t.positions[i];
    }
  }

  // ---------------------------------------------------------------- the ledger in place

  class PaperLedger {
    var positions: seq<Lp>
    var walletBase: real
    var walletQuote: real
    var shortBase: real
    var hedgeEquity: real
    var reserve: real
    var lastHedge: real
    var pending: Option<Order>
    var hedgeFees: real
    var swapCosts: real
    var fundingPnl: real
    var lastFunding: nat

    function Value(): Ledger
      reads this
    {
      Ledger(positions, walletBase, walletQuote, shortBase, hedgeEquity, reserve, lastHedge, pending, hedgeFees, swapCosts, fundingPnl, lastFunding)
    }

    constructor (c: Config, now: nat)
      ensures Value() == NewLedger(c, now)
    {
      positions, walletBase, walletQuote, shortBase := [], 0.0, c.budget, 0.0;
      hedgeEquity, reserve, lastHedge, pending := c.collateral, c.reserve, 0.0, None;
      hedgeFees, swapCosts, fundingPnl, lastFunding := 0.0, 0.0, 0.0, now;
    }

    method MarkPrices(c: Config, q: Quote, hedge: real, now: nat)
      modifies this
      ensures Value() == Marked(c, old(Value()), q, hedge, now)
    {
      if lastHedge > 0.0 { hedgeEquity := hedgeEquity + ShortGain(shortBase, lastHedge, hedge); }
      lastHedge := hedge;
      RevaluePositions(q);
      ghost var r := Value();
      assert r == Revalued(old(Value()), q, hedge);
      if pending.Some? {
        var o := pending.value;
        if Crossed(o, hedge, now) {
          Fill(o.target, o.price, MAKER);
          pending := None;
        } else if Expired(c, o, now) {
          if o.emergency { Fill(o.target, Forced(c, o.buy, hedge), TAKER); }
          pending := None;
        }
      }
    }

    method RevaluePositions(q: Quote)
      modifies this`positions
      ensures positions == RevalueAll(old(positions), q.root)
    {
      ghost var ps := positions;
      var i := 0;
      while i < |positions|
        invariant 0 <= i <= |positions| == |ps|
        invariant forall k :: 0 <= k < i ==> positions[k] == Revalue(ps[k], q.root)
        invariant forall k :: i <= k < |ps| ==> positions[k] == ps[k]
      {
        positions := positions[i := Revalue(positions[i], q.root)];
        i := i + 1;
      }
      RevalueEach(ps, q.root);
    }

    method Fill(target: real, execution: real, rate: real)
      modifies this`hedgeEquity, this`hedgeFees, this`shortBase
      ensures Value() == Filled(old(Value()), target, execution, rate)
    {
      var delta := target - shortBase;
      var fee := Cost(delta, execution, rate);
      hedgeEquity := hedgeEquity + FillGain(delta, execution, lastHedge) - fee;
      hedgeFees := hedgeFees + fee;
      shortBase := target;
    }

    method SwapToBase(c: Config, target: real, price: real)
      modifies this`walletBase, this`walletQuote, this`swapCosts
      ensures Value() == Swapped(c, old(Value()), target, price)
    {
      var delta := target - walletBase;
      var cost := Cost(delta, price, c.swapRate);
      walletQuote := walletQuote - Worth(delta, cost, price);
      walletBase := target;
      swapCosts := swapCosts + cost;
    }

    method Remove(layers: seq<string>)
      modifies this`positions, this`walletBase, this`walletQuote
      ensures Value() == Removed(old(Value()), layers)
    {
      var ps := positions;
      positions := [];
      var i := 0;
      while i < |ps|
        invariant 0 <= i <= |ps| && Value() == RemovedUpTo(old(Value()), layers, i)
      {
        if ps[i].layer in layers {
          walletBase, walletQuote := walletBase + ps[i].base, walletQuote + ps[i].quote;
        } else {
          positions := positions + [ps[i]];
        }
        i := i + 1;
      }
    }

    method ScaleLayers(c: Config, fraction: real, q: Quote) returns (ok: bool)
      modifies this
      ensures Outcome(Value(), ok) == ScaleAll(c, old(Value()), fraction, q, |old(positions)|)
    {
      var n := |positions|;
      var i := 0;
      while i < n
        invariant 0 <= i <= n == |positions|
        invariant Outcome(Value(), true) == ScaleAll(c, old(Value()), fraction, q, i)
      {
        ghost var before := Value();
        ok := ScaleLayer(c, i, fraction, q);
        assert Outcome(Value(), ok) == ScaleAll(c, old(Value()), fraction, q, i + 1);
        if !ok {
          ScaleStops(c, old(Value()), fraction, q, i + 1);
          return;
        }
        i := i + 1;
      }
      ok := true;
    }

    method ScaleLayer(c: Config, i: nat, fraction: real, q: Quote) returns (ok: bool)
      requires i < |positions|
      modifies this
      ensures Outcome(Value(), ok) == ScaleOne(c, old(Value()), i, fraction, q)
      ensures |positions| == |old(positions)|
    {
      var p := positions[i];
      var layer := FindLayer(c.layers, p.layer);
      if layer.None? { return false; }
      var value := Missing(c, p, layer.value.weight, fraction, Worth(walletBase, walletQuote, q.price), q.price);
      if value < 10.0 { return true; }
      if !(p.lower < q.root < p.upper) { return false; }
      ok := GrowLayer(c, i, value, q);
    }

    method GrowLayer(c: Config, i: nat, value: real, q: Quote) returns (ok: bool)
      requires i < |positions|
      modifies this
      ensures Outcome(Value(), ok) == Grown(c, old(Value()), i, value, q)
      ensures |positions| == |old(positions)|
    {
      var p := positions[i];
      var added := LiquidityForValue(value, p.lower, p.upper, q);
      if added.None? { return false; }
      var (b, n) := Amounts(added.value, p.lower, p.upper, q.root);
      SwapToBase(c, b, q.price);
      if walletQuote < n { return false; }
      walletBase, walletQuote := walletBase - b, walletQuote - n;
      positions := positions[i := Revalue(p.(liquidity := p.liquidity + added.value), q.root)];
      ok := true;
    }

    method MintLayers(c: Config, ls: seq<LayerConfig>, budget: real, q: Quote, widths: Option<(Root, Root)>) returns (ok: bool)
      modifies this
      ensures Outcome(Value(), ok) == MintAll(c, old(Value()), ls, budget, q, widths, |ls|)
    {
      var total := Weights(ls);
      var i := 0;
      while i < |ls|
        invariant 0 <= i <= |ls|
        invariant Outcome(Value(), true) == MintAll(c, old(Value()), ls, budget, q, widths, i)
      {
        ok := MintLayer(c, ls[i], Portion(budget, ls[i].weight, total), q, widths);
        assert Outcome(Value(), ok) == MintAll(c, old(Value()), ls, budget, q, widths, i + 1);
        if !ok {
          MintStops(c, old(Value()), ls, budget, q, widths, i + 1);
          return;
        }
        i := i + 1;
      }
      ok := true;
    }

    method MintLayer(c: Config, l: LayerConfig, value: real, q: Quote, widths: Option<(Root, Root)>) returns (ok: bool)
      modifies this
      ensures Outcome(Value(), ok) == MintOne(c, old(Value()), l, value, q, widths)
    {
      var (lower, upper) := RangeOf(l, q, widths);
      var liquidity := LiquidityForValue(value, lower, upper, q);
      if liquidity.None? { return false; }
      var (b, n) := Amounts(liquidity.value, lower, upper, q.root);
      SwapToBase(c, b, q.price);
      if walletQuote + 0.000001 < n { return false; }
      walletBase, walletQuote := walletBase - b, walletQuote - n;
      positions := positions + [Lp(l.name, lower, upper, liquidity.value, b, n)];
      ok := true;
    }

    method ApplyDecision(c: Config, d: Decision, q: Quote, hedge: real, now: nat) returns (ok: bool)
      modifies this
      ensures Outcome(Value(), ok) == Applied(c, old(Value()), d, q, hedge, now)
    {
      if d.band && Enters(d) && d.widths.None? { return false; }
      ok := true;
      match d.lp {
        case Hold =>
        case ExitToQuote =>
          pending := None;
          Remove(LayersOf(positions));
          SwapToBase(c, 0.0, q.price);
          if shortBase > 0.0 { Fill(0.0, hedge * (1.0 + c.emergencySlip), TAKER); }
          return;
        case Deploy(fraction) =>
          if positions != [] { ok := ScaleLayers(c, fraction, q); } else { ok := Redeploy(c, d, q); }
        case Recenter(_) => ok := Redeploy(c, d, q);
      }
      if ok { RestHedge(c, d, q, hedge, now); }
    }

    method Redeploy(c: Config, d: Decision, q: Quote) returns (ok: bool)
      modifies this
      ensures Outcome(Value(), ok) == Redeployed(c, old(Value()), d, q)
    {
      var names := if d.lp.Recenter? then d.lp.layers else Names(c.layers);
      Remove(names);
      ok := MintLayers(c, Chosen(c.layers, names), Budget(c, Value(), d, q), q, d.widths);
    }

    method RestHedge(c: Config, d: Decision, q: Quote, hedge: real, now: nat)
      modifies this`pending
      ensures Value() == Hedged(c, old(Value()), d, q, hedge, now)
    {
      var target := if Enters(d) then d.inventoryTarget else d.target;
      if pending.Some? && Drift(pending.value.target, target, hedge) >= c.deadband { pending := None; }
      var entry := d.widths.Some? && Enters(d);
      if Drift(target, shortBase, hedge) >= (if entry then 10.0 else c.deadband) && pending.None? {
        var buy := target < shortBase;
        pending := Some(Order(target, buy, RestingPrice(buy, hedge), now,
                              d.emergency || entry || AnyBelow(positions, q.root)));
      }
    }

    method ApplyFunding(rows: seq<Funding>)
      modifies this`hedgeEquity, this`fundingPnl, this`lastFunding
      ensures Value() == Funded(old(Value()), rows, |rows|)
    {
      var i := 0;
      while i < |rows|
        invariant 0 <= i <= |rows| && Value() == Funded(old(Value()), rows, i)
      {
        if rows[i].time > lastFunding {
          var pnl := FundingGain(shortBase, lastHedge, rows[i].rate);
          hedgeEquity, fundingPnl, lastFunding := hedgeEquity + pnl, fundingPnl + pnl, rows[i].time;
        }
        i := i + 1;
      }
    }
  }

  /** A failed fold stays as it failed. */
  lemma {:induction false} ScaleStops(c: Config, s: Ledger, fraction: real, q: Quote, n: nat)
    requires n <= |s.positions| && !ScaleAll(c, s, fraction, q, n).ok
    ensures ScaleAll(c, s, fraction, q, |s.positions|) == ScaleAll(c, s, fraction, q, n)
    decreases |s.positions| - n
  {
    if n < |s.positions| { ScaleStops(c, s, fraction, q, n + 1); }
  }

  lemma {:induction false} MintStops(c: Config, s: Ledger, ls: seq<LayerConfig>, budget: real, q: Quote, widths: Option<(Root, Root)>, n: nat)
    requires n <= |ls| && !MintAll(c, s, ls, budget, q, widths, n).ok
    ensures MintAll(c, s, ls, budget, q, widths, |ls|) == MintAll(c, s, ls, budget, q, widths, n)
    decreases |ls| - n
  {
    if n < |ls| { MintStops(c, s, ls, budget, q, widths, n + 1); }
  }
}
