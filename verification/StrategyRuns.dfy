/**
 Whole runs of a live strategy, of any variant: evaluations (with or without a one-use entry
 waiver), deferred deployments, and the edits recovery makes to the same state.
 */
module StrategyRuns {
  import opened Common
  import opened StrategyState
  import DefaultStrategy
  import opened EthStrategy

  /**
   One thing that happens to the strategy. `waived`: an armed entry permit is on file.
   `deferred`: collateral does not cover the deployment this frame decides.
   */
  datatype Event =
    | Observe(frame: Frame, waived: bool, deferred: bool)
    | LpSeen
    | Restart
    | WorkflowRecovery(now: nat)
    | InventoryMissing(now: nat)

  predicate Flat(p: Portfolio) { p.positions == [] && !Exposed(p) }

  predicate Waives(s: Strategy, f: Frame) { s.phase.Paused? && Flat(f.portfolio) }

  /** A waived evaluation runs with first-entry history and restores the real one. */
  function Judge(c: Config, s: Strategy, f: Frame, waived: bool): (Strategy, Decision) {
    if waived && Waives(s, f) then
      var r := Evaluate(c, s.(history := Initial), f);
      (r.0.(history := s.history), r.1)
    else Evaluate(c, s, f)
  }

  predicate Uncovered(d: Decision, f: Frame, deferred: bool) { deferred && d.lp.Deploy? && f.portfolio.positions == [] }

  /** The state after the event and the intent carried out. */
  function Step(c: Config, s: Strategy, e: Event): (Strategy, Intent) {
    match e
    case Observe(f, waived, deferred) =>
      var (t, d) := Judge(c, s, f, waived);
      if Uncovered(d, f, deferred) then (Deferred(t, s, f.portfolio), DeferredDecision(s, d, f.portfolio).lp) else (t, d.lp)
    case LpSeen => (ObserveLp(s, true), Hold)
    case Restart => (Revalidated(s), Hold)
    case WorkflowRecovery(now) => (WorkflowRecovered(s, now), Hold)
    case InventoryMissing(now) => (InventoryPaused(s, true, now), Hold)
  }

  // ---------------------------------------------------------------- halting

  /** No step leaves a halt, lowers the peak, or acts during a halt other than to withdraw. */
  ghost predicate HaltKept(s: Strategy, s': Strategy, lp: Intent) {
    && s'.peak >= s.peak
    && (s.phase.Halted? ==> s'.phase.Halted?)
    && (s'.phase.Halted? ==> lp.ExitToQuote? || lp.Hold?)
  }

  lemma DefaultKeepsHalt(c: Config, s: Strategy, f: Frame, continuity: bool)
    ensures var r := DefaultStrategy.Evaluate(c, s, f, continuity); HaltKept(s, r.0, r.1.lp)
  {
    var a := DefaultStrategy.Opened(s, f);
    var v := DefaultStrategy.Seen(c, a, f);
    DefaultStrategy.EvaluateIsJudged(c, s, f, continuity);
    JudgedKeepsHalt(c, a, f, v, continuity);
    if DefaultStrategy.Judged(c, a, f, v, continuity).Go? { assert !a.phase.Halted?; }
  }

  lemma JudgedKeepsHalt(c: Config, s: Strategy, f: Frame, v: DefaultStrategy.View, continuity: bool)
    requires v.View? ==> v.peak >= s.peak && (s.phase.Halted? ==> v.halts)
    ensures var j := DefaultStrategy.Judged(c, s, f, v, continuity);
            && j.s.peak >= s.peak && (s.phase.Halted? ==> j.s.phase.Halted?)
            && (j.Go? ==> !j.s.phase.Halted?)
            && (j.Stop? ==> j.d.lp.ExitToQuote? || j.d.lp.Hold?)
  {
  }

  lemma BandActedKeepsHalt(c: Config, s: Strategy, f: Frame, v: BandView)
    requires IsBand(c) && s.eth.Some?
    ensures var r := BandActed(c, s, f, v); HaltKept(s, r.0, r.1.lp) && (r.0.phase.Halted? ==> s.phase.Halted?)
  {
  }

  lemma PersistentActedKeepsHalt(c: Config, s: Strategy, f: Frame, v: View)
    requires s.eth.Some?
    ensures var r := PersistentActed(c, s, f, v); HaltKept(s, r.0, r.1.lp)
  {
  }

  lemma MarkedKeepsHalt(s: Strategy, peak: real, halts: bool, time: nat, recovered: bool, danger: bool)
    requires peak >= s.peak
    ensures var r := HourCounted(Marked(s, peak, halts), time, recovered, danger);
            r.peak >= s.peak && (s.phase.Halted? ==> r.phase.Halted?) && r.eth == s.eth
  {
  }

  lemma PreparedKeepsHalt(c: Config, s: Strategy, f: Frame)
    ensures var a := Prepared(c, s, f); a.peak == s.peak && a.phase == s.phase
    ensures var a := BandPrepared(c, s, f); a.peak == s.peak && a.phase == s.phase
  {
  }

  lemma BandKeepsHalt(c: Config, s: Strategy, f: Frame, x: Feature)
    requires IsBand(c) && !Unusable(c, f, x)
    ensures var r := BandEvaluate(c, s, f, x); HaltKept(s, r.0, r.1.lp)
  {
    var a := BandPrepared(c, s, f);
    var v := BandSeen(c, a, f, x);
    PreparedKeepsHalt(c, s, f);
    MarkedKeepsHalt(a, v.peak, v.halts, x.time, v.recovered, v.danger);
    BandActedKeepsHalt(c, HourCounted(Marked(a, v.peak, v.halts), x.time, v.recovered, v.danger), f, v);
  }

  lemma PersistentKeepsHalt(c: Config, s: Strategy, f: Frame, x: Feature)
    requires c.eth.Some? && !Unusable(c, f, x)
    ensures var r := PersistentEvaluate(c, s, f, x); HaltKept(s, r.0, r.1.lp)
  {
    var a := Prepared(c, s, f);
    var v := Seen(c, a, f, x);
    PreparedKeepsHalt(c, s, f);
    MarkedKeepsHalt(a, v.peak, v.halts, x.time, v.recovered, v.danger);
    PersistentActedKeepsHalt(c, HourCounted(Marked(a, v.peak, v.halts), x.time, v.recovered, v.danger), f, v);
  }

  lemma EvaluateKeepsHalt(c: Config, s: Strategy, f: Frame)
    ensures var r := Evaluate(c, s, f); HaltKept(s, r.0, r.1.lp)
  {
    if c.eth.None? {
      DefaultKeepsHalt(c, s, f, true);
    } else if f.feature.None? {
      HistorylessKeepsHalt(c, s, f);
    } else if !Unusable(c, f, f.feature.value) {
      if IsBand(c) { BandKeepsHalt(c, s, f, f.feature.value); } else { PersistentKeepsHalt(c, s, f, f.feature.value); }
    }
  }

  lemma HistorylessKeepsHalt(c: Config, s: Strategy, f: Frame)
    requires c.eth.Some?
    ensures var r := EvaluateWithoutHistory(c, s, f); HaltKept(s, r.0, r.1.lp)
  {
  }

  lemma StepKeepsHalt(c: Config, s: Strategy, e: Event)
    ensures var r := Step(c, s, e); HaltKept(s, r.0, r.1)
  {
    if e.Observe? {
      EvaluateKeepsHalt(c, s, e.frame);
      EvaluateKeepsHalt(c, s.(history := Initial), e.frame);
      JudgeKeepsHalt(c, s, e.frame, e.waived);
    }
  }

  lemma JudgeKeepsHalt(c: Config, s: Strategy, f: Frame, waived: bool)
    ensures var r := Judge(c, s, f, waived); HaltKept(s, r.0, r.1.lp)
  {
    EvaluateKeepsHalt(c, s, f);
    EvaluateKeepsHalt(c, s.(history := Initial), f);
  }

  function Run(c: Config, s0: Strategy, es: seq<Event>): Strategy {
    if es == [] then s0 else Step(c, Run(c, s0, es[..|es| - 1]), es[|es| - 1]).0
  }

  /** From any state, whatever follows: the peak never falls, a halt never ends and only ever withdraws or holds. */
  lemma {:induction false} HaltIsFinal(c: Config, s: Strategy, es: seq<Event>, e: Event)
    ensures Run(c, s, es).peak >= s.peak
    ensures s.phase.Halted? ==> Run(c, s, es).phase.Halted?
    ensures var lp := Step(c, Run(c, s, es), e).1; s.phase.Halted? ==> lp.ExitToQuote? || lp.Hold?
  {
    if es != [] {
      HaltIsFinal(c, s, es[..|es| - 1], es[|es| - 1]);
      StepKeepsHalt(c, Run(c, s, es[..|es| - 1]), es[|es| - 1]);
    }
    StepKeepsHalt(c, Run(c, s, es), e);
  }

  // ---------------------------------------------------------------- the band's clocks

  predicate Timed(e: Event) { e.Observe? || e.WorkflowRecovery? || e.InventoryMissing? }

  function Time(e: Event): nat {
    match e
    case Observe(f, _, _) => f.now
    case WorkflowRecovery(now) => now
    case InventoryMissing(now) => now
    case _ => 0
  }

  /** A risk exit at `t` still rules: re-entry waits for its cooldown unless that has passed. */
  ghost predicate Cooling(c: Config, s: Strategy, clock: nat, t: nat) {
    && t <= clock
    && (s.phase.Halted? ||
        (&& !s.history.Initial? && s.pauseSince >= t && s.eth.Some?
         && (s.eth.value.reentryNotBefore >= t + Hours(c.cooldownHours) || clock >= t + Hours(c.cooldownHours))))
  }

  /** A recentering at `t` still rules: the holding clock is stopped or started later. */
  ghost predicate HeldSince(s: Strategy, t: nat) {
    var entered := if s.eth.Some? && s.eth.value.band.Some? then s.eth.value.band.value.enteredMs else 0;
    entered == 0 || entered >= t
  }

  lemma CoolingActed(c: Config, s: Strategy, f: Frame, v: BandView, t: nat)
    requires IsBand(c) && s.eth.Some? && Cooling(c, s, f.now, t)
    ensures var r := BandActed(c, s, f, v); Cooling(c, r.0, f.now, t) && (r.1.lp.Deploy? ==> f.now >= t + Hours(c.cooldownHours))
  {
  }

  lemma CoolingPrepared(c: Config, s: Strategy, f: Frame, clock: nat, t: nat)
    requires Cooling(c, s, clock, t) && clock <= f.now
    ensures Cooling(c, BandPrepared(c, s, f), f.now, t)
  {
  }

  lemma CoolingCounted(c: Config, s: Strategy, clock: nat, t: nat, peak: real, halts: bool, time: nat, recovered: bool, danger: bool)
    requires Cooling(c, s, clock, t)
    ensures Cooling(c, HourCounted(Marked(s, peak, halts), time, recovered, danger), clock, t)
  {
  }

  lemma CoolingEvaluated(c: Config, s: Strategy, f: Frame, clock: nat, t: nat)
    requires IsBand(c) && Cooling(c, s, clock, t) && clock <= f.now
    ensures var r := Evaluate(c, s, f); Cooling(c, r.0, f.now, t) && (r.1.lp.Deploy? ==> f.now >= t + Hours(c.cooldownHours))
  {
    if f.feature.Some? && !Unusable(c, f, f.feature.value) {
      var x := f.feature.value;
      var a := BandPrepared(c, s, f);
      var v := BandSeen(c, a, f, x);
      CoolingPrepared(c, s, f, clock, t);
      CoolingCounted(c, a, f.now, t, v.peak, v.halts, x.time, v.recovered, v.danger);
      CoolingActed(c, HourCounted(Marked(a, v.peak, v.halts), x.time, v.recovered, v.danger), f, v, t);
    }
  }

  /** The exit itself starts the clock. */
  lemma ExitActed(c: Config, s: Strategy, f: Frame, v: BandView)
    requires IsBand(c) && s.eth.Some? && f.portfolio.positions != [] && s.history.Established?
    requires BandActed(c, s, f, v).1.lp.ExitToQuote?
    ensures Cooling(c, BandActed(c, s, f, v).0, f.now, f.now)
  {
  }

  lemma ExitEvaluated(c: Config, s: Strategy, f: Frame)
    requires IsBand(c) && f.portfolio.positions != [] && Evaluate(c, s, f).1.lp.ExitToQuote?
    ensures Cooling(c, Evaluate(c, s, f).0, f.now, f.now)
  {
    if f.feature.Some? {
      var x := f.feature.value;
      var a := BandPrepared(c, s, f);
      var v := BandSeen(c, a, f, x);
      var b := HourCounted(Marked(a, v.peak, v.halts), x.time, v.recovered, v.danger);
      PreparedHistory(c, s, f);
      ExitActed(c, b, f, v);
    }
  }

  lemma PreparedHistory(c: Config, s: Strategy, f: Frame)
    requires f.portfolio.positions != []
    ensures BandPrepared(c, s, f).history.Established?
  {
  }

  lemma DeferCools(c: Config, s: Strategy, t': Strategy, p: Portfolio, clock: nat, now: nat, t: nat)
    requires Cooling(c, s, clock, t) && clock <= now && Cooling(c, t', now, t) && !s.phase.Halted? && !t'.phase.Halted?
    ensures Cooling(c, Deferred(t', s, p), now, t)
  {
  }

  lemma StepCools(c: Config, s: Strategy, e: Event, clock: nat, t: nat)
    requires IsBand(c) && Cooling(c, s, clock, t) && (Timed(e) ==> clock <= Time(e)) && (e.Observe? ==> !e.waived)
    ensures var r := Step(c, s, e);
            && Cooling(c, r.0, if Timed(e) then Time(e) else clock, t)
            && (r.1.Deploy? ==> Time(e) >= t + Hours(c.cooldownHours))
  {
    if e.Observe? {
      CoolingEvaluated(c, s, e.frame, clock, t);
      EvaluateKeepsHalt(c, s, e.frame);
      var (t', d) := Evaluate(c, s, e.frame);
      if Uncovered(d, e.frame, e.deferred) { DeferCools(c, s, t', e.frame.portfolio, clock, e.frame.now, t); }
    }
  }

  lemma HoldingActed(c: Config, s: Strategy, f: Frame, v: BandView, t: nat)
    requires IsBand(c) && s.eth.Some? && (v.band.enteredMs == 0 || v.band.enteredMs >= t)
    requires f.portfolio.positions != [] && v.band.enteredMs == 0 ==> f.now == 0
    ensures var r := BandActed(c, s, f, v);
            && HeldSince(r.0, t)
            && (r.1.lp.Recenter? ==> f.now >= t + Hours(c.eth.value.band.value.minimumHoldingHours) && HeldSince(r.0, f.now))
  {
  }

  lemma EpisodeEntered(c: Config, s: Strategy, f: Frame, x: Feature)
    requires IsBand(c) && !Unusable(c, f, x) && s.eth.Some?
    ensures var bs, v := Band(s.eth.value), BandSeen(c, s, f, x);
            v.band.enteredMs == (if f.portfolio.positions != [] && bs.enteredMs == 0 then f.now else bs.enteredMs)
  {
  }

  lemma HoldingPrepared(c: Config, s: Strategy, f: Frame, t: nat)
    requires HeldSince(s, t)
    ensures HeldSince(BandPrepared(c, s, f), t)
  {
  }

  lemma HoldingEvaluated(c: Config, s: Strategy, f: Frame, t: nat)
    requires IsBand(c) && HeldSince(s, t) && t <= f.now
    ensures var r := Evaluate(c, s, f);
            && HeldSince(r.0, t)
            && (r.1.lp.Recenter? ==> f.now >= t + Hours(c.eth.value.band.value.minimumHoldingHours) && HeldSince(r.0, f.now))
  {
    if f.feature.Some? && !Unusable(c, f, f.feature.value) {
      var x := f.feature.value;
      var a := BandPrepared(c, s, f);
      var v := BandSeen(c, a, f, x);
      HoldingPrepared(c, s, f, t);
      EpisodeEntered(c, a, f, x);
      HoldingActed(c, HourCounted(Marked(a, v.peak, v.halts), x.time, v.recovered, v.danger), f, v, t);
    }
  }

  lemma StepHolds(c: Config, s: Strategy, e: Event, clock: nat, t: nat)
    requires IsBand(c) && HeldSince(s, t) && t <= clock && (Timed(e) ==> clock <= Time(e)) && (e.Observe? ==> !e.waived)
    ensures var r := Step(c, s, e);
            && HeldSince(r.0, t)
            && (r.1.Recenter? ==> Time(e) >= t + Hours(c.eth.value.band.value.minimumHoldingHours) && HeldSince(r.0, Time(e)))
  {
    if e.Observe? { HoldingEvaluated(c, s, e.frame, t); }
  }

  /** What one event carried out; `held` when its frame showed liquidity. */
  datatype Act = Act(time: nat, lp: Intent, held: bool)

  function ActOf(e: Event, lp: Intent): Act { Act(Time(e), lp, e.Observe? && e.frame.portfolio.positions != []) }

  /** A band run: the state, the last time seen and what was carried out. */
  datatype Trace = Trace(s: Strategy, clock: nat, acts: seq<Act>)

  function Next(c: Config, t: Trace, e: Event): Trace {
    var (s, lp) := Step(c, t.s, e);
    Trace(s, if Timed(e) then Time(e) else t.clock, t.acts + [ActOf(e, lp)])
  }

  function BandRun(c: Config, s0: Strategy, es: seq<Event>): Trace {
    if es == [] then Trace(s0, 0, []) else Next(c, BandRun(c, s0, es[..|es| - 1]), es[|es| - 1])
  }

  /** The event neither turns the clock back nor uses a permit. */
  predicate Proper(clock: nat, e: Event) { (Timed(e) ==> clock <= Time(e)) && (e.Observe? ==> !e.waived) }

  predicate AllProper(c: Config, s0: Strategy, es: seq<Event>) {
    es == [] ||
    (AllProper(c, s0, es[..|es| - 1]) && Proper(BandRun(c, s0, es[..|es| - 1]).clock, es[|es| - 1]))
  }

  ghost predicate RiskExit(a: Act) { a.lp.ExitToQuote? && a.held }

  ghost predicate Spaced(c: Config, acts: seq<Act>)
    requires IsBand(c)
  {
    forall i, j :: 0 <= i < j < |acts| ==>
                     && (RiskExit(acts[i]) && acts[j].lp.Deploy? ==> acts[j].time >= acts[i].time + Hours(c.cooldownHours))
                     && (acts[i].lp.Recenter? && acts[j].lp.Recenter? ==>
                           acts[j].time >= acts[i].time + Hours(c.eth.value.band.value.minimumHoldingHours))
  }

  ghost predicate ClocksRun(c: Config, t: Trace) {
    forall i :: 0 <= i < |t.acts| ==>
                  && (RiskExit(t.acts[i]) ==> Cooling(c, t.s, t.clock, t.acts[i].time))
                  && (t.acts[i].lp.Recenter? ==> t.acts[i].time <= t.clock && HeldSince(t.s, t.acts[i].time))
  }

  /** The event's own act starts its clock. */
  lemma NewAct(c: Config, s: Strategy, e: Event)
    requires IsBand(c) && (e.Observe? ==> !e.waived)
    ensures var r := Step(c, s, e);
            && (RiskExit(ActOf(e, r.1)) ==> Cooling(c, r.0, Time(e), Time(e)) && Timed(e))
            && (r.1.Recenter? ==> HeldSince(r.0, Time(e)) && Timed(e))
  {
    if e.Observe? {
      var d := Evaluate(c, s, e.frame).1;
      if d.lp.ExitToQuote? && e.frame.portfolio.positions != [] { ExitEvaluated(c, s, e.frame); }
      if d.lp.Recenter? { RecenterStopsClock(c, s, e.frame); }
    }
  }

  lemma RecenterStopsClock(c: Config, s: Strategy, f: Frame)
    requires IsBand(c) && Evaluate(c, s, f).1.lp.Recenter?
    ensures HeldSince(Evaluate(c, s, f).0, f.now)
  {
    HoldingEvaluated(c, s, f, 0);
  }

  lemma OldAct(c: Config, t: Trace, e: Event, i: nat)
    requires IsBand(c) && ClocksRun(c, t) && Proper(t.clock, e) && i < |t.acts|
    ensures var a, u := t.acts[i], Next(c, t, e);
            && (RiskExit(a) ==> Cooling(c, u.s, u.clock, a.time)
                                && (u.acts[|t.acts|].lp.Deploy? ==> u.acts[|t.acts|].time >= a.time + Hours(c.cooldownHours)))
            && (a.lp.Recenter? ==>
                  && a.time <= u.clock && HeldSince(u.s, a.time)
                  && (u.acts[|t.acts|].lp.Recenter? ==>
                        u.acts[|t.acts|].time >= a.time + Hours(c.eth.value.band.value.minimumHoldingHours)))
  {
    var a := t.acts[i];
    if RiskExit(a) { StepCools(c, t.s, e, t.clock, a.time); }
    if a.lp.Recenter? { StepHolds(c, t.s, e, t.clock, a.time); }
  }

  lemma NextClocks(c: Config, t: Trace, e: Event)
    requires IsBand(c) && ClocksRun(c, t) && Spaced(c, t.acts) && Proper(t.clock, e)
    ensures ClocksRun(c, Next(c, t, e)) && Spaced(c, Next(c, t, e).acts)
  {
    NewAct(c, t.s, e);
    forall i: nat | i < |t.acts| { OldAct(c, t, e, i); }
  }

  lemma {:induction false} ClocksHold(c: Config, s0: Strategy, es: seq<Event>)
    requires IsBand(c) && AllProper(c, s0, es)
    ensures ClocksRun(c, BandRun(c, s0, es)) && Spaced(c, BandRun(c, s0, es).acts)
  {
    if es != [] {
      ClocksHold(c, s0, es[..|es| - 1]);
      NextClocks(c, BandRun(c, s0, es[..|es| - 1]), es[|es| - 1]);
    }
  }

  /**
   In every band run with a monotone clock and no permit, from any starting state, a deployment
   comes at least the cooldown after every risk exit taken with liquidity held, and recenterings
   are at least the minimum holding time apart; recovery pauses and deferrals included.
   */
  lemma BandSpacing(c: Config, s0: Strategy, es: seq<Event>, i: nat, j: nat)
    requires IsBand(c) && AllProper(c, s0, es) && i < j < |BandRun(c, s0, es).acts|
    ensures var a, b := BandRun(c, s0, es).acts[i], BandRun(c, s0, es).acts[j];
            && (RiskExit(a) && b.lp.Deploy? ==> b.time >= a.time + Hours(c.cooldownHours))
            && (a.lp.Recenter? && b.lp.Recenter? ==> b.time >= a.time + Hours(c.eth.value.band.value.minimumHoldingHours))
  {
    ClocksHold(c, s0, es);
  }

  // ---------------------------------------------------------------- entry history

  /** Evaluating only ever establishes history, and only on a frame with liquidity. */
  ghost predicate HistoryKept(s: Strategy, f: Frame, s': Strategy) {
    s'.history == s.history || (f.portfolio.positions != [] && s'.history.Established?)
  }

  lemma DefaultKeepsHistory(c: Config, s: Strategy, f: Frame, continuity: bool)
    ensures HistoryKept(s, f, DefaultStrategy.Evaluate(c, s, f, continuity).0)
  {
    var a := DefaultStrategy.Opened(s, f);
    var v := DefaultStrategy.Seen(c, a, f);
    DefaultStrategy.EvaluateIsJudged(c, s, f, continuity);
    JudgedKeepsHistory(c, a, f, v, continuity);
  }

  lemma JudgedKeepsHistory(c: Config, s: Strategy, f: Frame, v: DefaultStrategy.View, continuity: bool)
    ensures DefaultStrategy.Judged(c, s, f, v, continuity).s.history == s.history
  {
  }

  lemma EthKeepsHistory(c: Config, s: Strategy, f: Frame, x: Feature)
    requires c.eth.Some? && !Unusable(c, f, x)
    ensures HistoryKept(s, f, EvaluateFeature(c, s, f, x).0)
  {
    if IsBand(c) { BandHistory(c, s, f, x); } else { PersistentHistory(c, s, f, x); }
  }

  lemma PreparedKeepsHistory(c: Config, s: Strategy, f: Frame)
    ensures HistoryKept(s, f, BandPrepared(c, s, f)) && HistoryKept(s, f, Prepared(c, s, f))
  {
  }

  lemma MarkedKeepsHistory(s: Strategy, peak: real, halts: bool, time: nat, recovered: bool, danger: bool)
    ensures var r := HourCounted(Marked(s, peak, halts), time, recovered, danger); r.history == s.history && r.eth == s.eth
  {
  }

  lemma BandHistory(c: Config, s: Strategy, f: Frame, x: Feature)
    requires IsBand(c) && !Unusable(c, f, x)
    ensures HistoryKept(s, f, BandEvaluate(c, s, f, x).0)
  {
    var a := BandPrepared(c, s, f);
    var v := BandSeen(c, a, f, x);
    PreparedKeepsHistory(c, s, f);
    MarkedKeepsHistory(a, v.peak, v.halts, x.time, v.recovered, v.danger);
    BandKeepsHistory(c, HourCounted(Marked(a, v.peak, v.halts), x.time, v.recovered, v.danger), f, v);
  }

  lemma PersistentHistory(c: Config, s: Strategy, f: Frame, x: Feature)
    requires c.eth.Some? && !Unusable(c, f, x)
    ensures HistoryKept(s, f, PersistentEvaluate(c, s, f, x).0)
  {
    var a := Prepared(c, s, f);
    var v := Seen(c, a, f, x);
    PreparedKeepsHistory(c, s, f);
    MarkedKeepsHistory(a, v.peak, v.halts, x.time, v.recovered, v.danger);
    PersistentKeepsHistory(c, HourCounted(Marked(a, v.peak, v.halts), x.time, v.recovered, v.danger), f, v);
  }

  lemma BandKeepsHistory(c: Config, s: Strategy, f: Frame, v: BandView)
    requires IsBand(c) && s.eth.Some?
    ensures BandActed(c, s, f, v).0.history == s.history
  {
  }

  lemma PersistentKeepsHistory(c: Config, s: Strategy, f: Frame, v: View)
    requires s.eth.Some?
    ensures PersistentActed(c, s, f, v).0.history == s.history
  {
  }

  lemma EvaluateKeepsHistory(c: Config, s: Strategy, f: Frame)
    ensures HistoryKept(s, f, Evaluate(c, s, f).0)
  {
    if c.eth.None? {
      DefaultKeepsHistory(c, s, f, true);
    } else if f.feature.Some? && !Unusable(c, f, f.feature.value) {
      EthKeepsHistory(c, s, f, f.feature.value);
    }
  }

  /** A waiver borrows the first-entry rules but never the history. */
  lemma JudgeKeepsHistory(c: Config, s: Strategy, f: Frame, waived: bool)
    ensures HistoryKept(s, f, Judge(c, s, f, waived).0)
  {
    EvaluateKeepsHistory(c, s, f);
  }
}
