/**
 The live runner's loop around the strategy: evaluate, check collateral, consume the entry permit,
 save, execute; with a crash possible between any two durable writes.

 A permit is an operator's request to skip the waiting once. The runner and the operator command
 cannot run together: both need the store's process lock.
 */
module EntryRearm {
  import opened Common
  import opened StrategyState
  import StrategyRuns

  datatype Status = Armed | Consumed | Canceled

  datatype Permit = Permit(id: nat, status: Status)

  /** `everOpened` is lp_history.json, written before any record of a position. */
  datatype Disk = Disk(checkpoint: Strategy, permit: Option<Permit>, everOpened: bool)

  /** What one round has decided; `previous` is the state before it. */
  datatype Round = Round(frame: Frame, previous: Strategy, decision: Decision, waiver: Option<nat>)

  datatype Task =
    | Down
    | Ready
    | Decided(round: Round)    // evaluated; collateral not yet checked
    | Covered(round: Round)    // collateral checked or entry deferred
    | Consuming(round: Round)  // permit consumed, if any was used
    | Committed(round: Round)  // checkpoint saved
    | Executing

  /** `executed` lists, for each deployment handed to execution, the permit it used. */
  datatype State = State(disk: Disk, mem: Strategy, task: Task, executed: seq<Option<nat>>, nextId: nat)

  datatype Action =
    | Arm(flat: bool, settled: bool)
    | Start
    | ReadPortfolio(held: bool, missing: bool, now: nat)
    | ConfirmFirstEntry(flat: bool, settled: bool)
    | WorkflowRecovery(now: nat)
    | SaveIdle
    | Evaluate(frame: Frame, settled: bool)
    | Preflight(covered: bool)
    | Consume
    | Save
    | BeginExecution
    | Minted
    | EndExecution(held: bool)
    | RiskExit(now: nat)
    | Crash

  function Restored(d: Disk): (Disk, Strategy) {
    var s := d.checkpoint;
    var ever := d.everOpened || s.history.Established?;
    (d.(everOpened := ever),
     if ever then s.(history := Established)
     else if s.history.LegacyUnknown? && s.phase.Warmup? then s.(history := Initial)
     else s)
  }

  /** Reading a portfolio with positions records the history first. */
  function Read(s: State, held: bool): State {
    if held then s.(disk := s.disk.(everOpened := true), mem := ObserveLp(s.mem, true)) else s
  }

  function WithPermit(s: State, status: Status): State
    requires s.disk.permit.Some?
  {
    s.(disk := s.disk.(permit := Some(s.disk.permit.value.(status := status))))
  }

  predicate IsArmed(d: Disk) { d.permit.Some? && d.permit.value.status.Armed? }

  function DoArm(s: State): State {
    if IsArmed(s.disk) then s
    else s.(disk := s.disk.(permit := Some(Permit(s.nextId, Armed))), nextId := s.nextId + 1)
  }

  function DoEvaluate(c: Config, s0: State, f: Frame, settled: bool): State {
    // the frame's portfolio was read before
    var s := if f.portfolio.positions != [] then s0.(disk := s0.disk.(everOpened := true)) else s0;
    var waives := StrategyRuns.Waives(s.mem, f);
    if IsArmed(s.disk) && waives && !settled then s.(task := Down)
    else
      var used := IsArmed(s.disk) && waives;
      var (t, d) := StrategyRuns.Judge(c, s.mem, f, IsArmed(s.disk));
      var p := if IsArmed(s.disk) && (!waives || t.phase.Halted?) then WithPermit(s, Canceled) else s;
      var waiver := if used && d.lp.Deploy? then Some(s.disk.permit.value.id) else None;
      p.(mem := t, task := Decided(Round(f, s.mem, d, waiver)))
  }

  function DoPreflight(s: State, r: Round, covered: bool): State {
    if StrategyRuns.Uncovered(r.decision, r.frame, !covered) then
      s.(mem := Deferred(s.mem, r.previous, r.frame.portfolio),
      task := Covered(r.(decision := DeferredDecision(r.previous, r.decision, r.frame.portfolio))))
    else s.(task := Covered(r))
  }

  function DoConsume(s: State, r: Round): State {
    if !r.decision.lp.Deploy? || r.waiver.None? then s.(task := Consuming(r))
    else if s.disk.permit == Some(Permit(r.waiver.value, Armed)) then WithPermit(s, Consumed).(task := Consuming(r))
    else s.(task := Down)
  }

  /** A disabled action leaves the state unchanged. */
  function Step(c: Config, s: State, a: Action): State {
    match a
    case Arm(flat, settled) => if s.task.Down? && flat && settled && s.disk.checkpoint.phase.Paused? then DoArm(s) else s
    case Start =>
      if s.task.Down? then
        var (d, t) := Restored(s.disk);
        s.(disk := d, mem := Revalidated(t), task := Ready)
      else s
    case ReadPortfolio(held, missing, now) =>
      if s.task.Ready? then
        var t := Read(s, held);
        t.(mem := InventoryPaused(t.mem, missing, now))
      else s
    case ConfirmFirstEntry(flat, settled) =>
      if s.task.Ready? && flat && settled && !s.disk.everOpened && s.mem.history.LegacyUnknown? && !s.mem.phase.Halted?
      then s.(mem := s.mem.(history := Initial)) else s
    case WorkflowRecovery(now) => if s.task.Ready? then s.(mem := WorkflowRecovered(s.mem, now)) else s
    case SaveIdle => if s.task.Ready? then s.(disk := s.disk.(checkpoint := s.mem)) else s
    case Evaluate(f, settled) => if s.task.Ready? then DoEvaluate(c, s, f, settled) else s
    case Preflight(covered) => if s.task.Decided? then DoPreflight(s, s.task.round, covered) else s
    case Consume => if s.task.Covered? then DoConsume(s, s.task.round) else s
    case Save => if s.task.Consuming? then s.(disk := s.disk.(checkpoint := s.mem), task := Committed(s.task.round)) else s
    case BeginExecution =>
      if !s.task.Committed? then s
      else if s.task.round.decision.lp.Deploy? then s.(executed := s.executed + [s.task.round.waiver], task := Executing)
      else s.(task := Ready)
    case Minted => if s.task.Executing? then s.(disk := s.disk.(everOpened := true)) else s
    case EndExecution(held) => if s.task.Executing? then Read(s, held).(task := Ready) else s
    case RiskExit(now) => if s.task.Executing? then s.(mem := WorkflowRecovered(s.mem, now), task := Ready) else s
    case Crash => s.(task := Down)
  }

  function Run(c: Config, s0: State, actions: seq<Action>): State {
    if actions == [] then s0 else Step(c, Run(c, s0, actions[..|actions| - 1]), actions[|actions| - 1])
  }

  /** Where a run may begin: nothing running, nothing executed, whatever is on disk. */
  predicate Begins(s: State) { s.task.Down? && s.executed == [] && (s.disk.permit.Some? ==> s.disk.permit.value.id < s.nextId) }

  // ---------------------------------------------------------------- one waived entry per permit

  predicate UsedUp(s: State, id: nat) { id < s.nextId && s.disk.permit != Some(Permit(id, Armed)) }

  predicate PermitInv(s: State) {
    && (s.disk.permit.Some? ==> s.disk.permit.value.id < s.nextId)
    && (forall i :: 0 <= i < |s.executed| && s.executed[i].Some? ==> UsedUp(s, s.executed[i].value))
    && (forall i, j :: 0 <= i < j < |s.executed| && s.executed[i].Some? ==> s.executed[i] != s.executed[j])
    && ((s.task.Consuming? || s.task.Committed?) && s.task.round.decision.lp.Deploy? && s.task.round.waiver.Some? ==>
          UsedUp(s, s.task.round.waiver.value) && s.task.round.waiver !in s.executed)
  }

  /** A step that hands nothing to execution and leaves permits alone or cancels them. */
  lemma QuietPermits(s: State, t: State)
    requires PermitInv(s) && t.executed == s.executed && t.nextId == s.nextId
    requires t.disk.permit == s.disk.permit
             || (s.disk.permit.Some? && t.disk.permit == Some(Permit(s.disk.permit.value.id, Canceled)))
    requires t.task.Consuming? || t.task.Committed? ==>
               (s.task.Consuming? || s.task.Committed?) && t.task.round == s.task.round
    ensures PermitInv(t)
  {
  }

  lemma ConsumePermits(s: State, r: Round)
    requires PermitInv(s)
    ensures PermitInv(DoConsume(s, r))
  {
  }

  predicate PermitNeutral(a: Action) { !a.Evaluate? && !a.Consume? && !a.Arm? && !a.BeginExecution? }

  lemma NeutralStep(c: Config, s: State, a: Action)
    requires PermitNeutral(a)
    ensures var t := Step(c, s, a);
            && t.executed == s.executed && t.nextId == s.nextId && t.disk.permit == s.disk.permit
            && (t.task.Consuming? || t.task.Committed? ==> (s.task.Consuming? || s.task.Committed?) && t.task.round == s.task.round)
  {
    match a
    case Preflight(covered) =>
    case _ =>
  }

  lemma PermitStep(c: Config, s: State, a: Action)
    requires PermitInv(s)
    ensures PermitInv(Step(c, s, a))
  {
    if PermitNeutral(a) {
      NeutralStep(c, s, a);
      QuietPermits(s, Step(c, s, a));
    } else if a.Evaluate? {
      EvaluatePermits(c, s, a.frame, a.settled);
    } else if a.Consume? {
      if s.task.Covered? { ConsumePermits(s, s.task.round); }
    } else if a.Arm? {
      ArmPermits(c, s, a.flat, a.settled);
    } else {
      ExecutePermits(c, s);
    }
  }

  lemma EvaluatePermits(c: Config, s: State, f: Frame, settled: bool)
    requires PermitInv(s)
    ensures PermitInv(Step(c, s, Evaluate(f, settled)))
  {
    if s.task.Ready? {
      EvaluateEffect(c, s, f, settled);
      QuietPermits(s, DoEvaluate(c, s, f, settled));
    }
  }

  lemma ArmPermits(c: Config, s: State, flat: bool, settled: bool)
    requires PermitInv(s)
    ensures PermitInv(Step(c, s, Arm(flat, settled)))
  {
  }

  lemma ExecutePermits(c: Config, s: State)
    requires PermitInv(s)
    ensures PermitInv(Step(c, s, BeginExecution))
  {
  }

  /** Evaluating writes nothing but a cancellation and the history marker. */
  lemma EvaluateEffect(c: Config, s: State, f: Frame, settled: bool)
    ensures var t := DoEvaluate(c, s, f, settled);
            && t.executed == s.executed && t.nextId == s.nextId && t.disk.checkpoint == s.disk.checkpoint
            && (t.disk.permit == s.disk.permit
                || (s.disk.permit.Some? && t.disk.permit == Some(Permit(s.disk.permit.value.id, Canceled))))
            && (t.task.Down? || t.task.Decided?)
            && t.disk.everOpened == (s.disk.everOpened || f.portfolio.positions != [])
  {
  }

  lemma {:induction false} PermitRun(c: Config, s0: State, actions: seq<Action>)
    requires Begins(s0)
    ensures PermitInv(Run(c, s0, actions))
  {
    if actions != [] {
      PermitRun(c, s0, actions[..|actions| - 1]);
      PermitStep(c, Run(c, s0, actions[..|actions| - 1]), actions[|actions| - 1]);
    }
  }

  /** Across every crash and deferral each permit lets at most one waived deployment reach execution. */
  lemma OneEntryPerPermit(c: Config, s0: State, actions: seq<Action>, i: nat, j: nat)
    requires Begins(s0) && i < |Run(c, s0, actions).executed| && j < |Run(c, s0, actions).executed|
    requires var x := Run(c, s0, actions).executed; x[i].Some? && x[i] == x[j]
    ensures i == j
  {
    PermitRun(c, s0, actions);
  }

  // ---------------------------------------------------------------- history survives

  /** In memory, an established history always has its marker on disk. */
  predicate HistoryInv(s: State) {
    !s.task.Down? && s.mem.history.Established? ==> s.disk.everOpened
  }

  /** The history is on record, and in memory whenever the runner is up. */
  predicate Remembered(s: State) {
    if s.task.Down? then s.disk.everOpened || s.disk.checkpoint.history.Established?
    else s.disk.everOpened && s.mem.history.Established?
  }

  lemma HistoryStep(c: Config, s: State, a: Action)
    requires HistoryInv(s)
    ensures HistoryInv(Step(c, s, a))
    ensures Remembered(s) ==> Remembered(Step(c, s, a))
  {
    if a.Evaluate? && s.task.Ready? {
      EvaluateEffect(c, s, a.frame, a.settled);
      EvaluateMem(c, s, a.frame, a.settled);
      StrategyRuns.JudgeKeepsHistory(c, s.mem, a.frame, IsArmed(s.disk));
    }
  }

  lemma EvaluateMem(c: Config, s: State, f: Frame, settled: bool)
    ensures var t := DoEvaluate(c, s, f, settled);
            t.task.Decided? ==>
              && (t.mem, t.task.round.decision) == StrategyRuns.Judge(c, s.mem, f, IsArmed(s.disk))
              && t.task.round.previous == s.mem && t.task.round.frame == f
  {
  }

  lemma {:induction false} HistoryRun(c: Config, s0: State, actions: seq<Action>)
    requires HistoryInv(s0)
    ensures HistoryInv(Run(c, s0, actions))
    ensures Remembered(s0) ==> Remembered(Run(c, s0, actions))
  {
    if actions != [] {
      HistoryRun(c, s0, actions[..|actions| - 1]);
      HistoryStep(c, Run(c, s0, actions[..|actions| - 1]), actions[|actions| - 1]);
    }
  }

  /**
   Once established, in memory or only in the saved checkpoint, entry history stays established
   through every evaluation under a permit, crash and restart.
   */
  lemma HistoryNeverLost(c: Config, s0: State, before: seq<Action>, after: seq<Action>)
    requires Begins(s0)
    requires var s := Run(c, s0, before);
             if s.task.Down? then s.disk.everOpened || s.disk.checkpoint.history.Established? else s.mem.history.Established?
    ensures var u := Run(c, Run(c, s0, before), after);
            !u.task.Down? ==> u.mem.history.Established?
  {
    HistoryRun(c, s0, before);
    HistoryRun(c, Run(c, s0, before), after);
  }

  // ---------------------------------------------------------------- a saved halt survives

  predicate HaltInv(s: State) {
    s.task.Down? ||
    (&& s.mem.peak >= s.disk.checkpoint.peak && (s.disk.checkpoint.phase.Halted? ==> s.mem.phase.Halted?)
     && ((s.task.Covered? || s.task.Consuming? || s.task.Committed?) && s.task.round.decision.lp.Deploy? ==> !s.mem.phase.Halted?)
     && (s.task.Decided? ==>
           var r := s.task.round;
           && (s.disk.checkpoint.phase.Halted? ==> r.previous.phase.Halted?)
           && (r.previous.phase.Halted? ==> s.mem.phase.Halted?)
           && (r.decision.lp.Deploy? ==> !s.mem.phase.Halted?)))
  }

  /** Checkpoints only raise the peak and never leave a halt; a halted one lets nothing new execute. */
  predicate Durable(s: State, t: State) {
    && t.disk.checkpoint.peak >= s.disk.checkpoint.peak
    && (s.disk.checkpoint.phase.Halted? ==> t.disk.checkpoint.phase.Halted? && t.executed == s.executed)
  }

  lemma EvaluateHalts(c: Config, s: State, f: Frame, settled: bool)
    requires HaltInv(s) && s.task.Ready?
    ensures HaltInv(DoEvaluate(c, s, f, settled)) && Durable(s, DoEvaluate(c, s, f, settled))
  {
    EvaluateEffect(c, s, f, settled);
    EvaluateMem(c, s, f, settled);
    StrategyRuns.JudgeKeepsHalt(c, s.mem, f, IsArmed(s.disk));
  }

  lemma PreflightHalts(s: State, r: Round, covered: bool)
    requires HaltInv(s) && s.task == Decided(r)
    ensures HaltInv(DoPreflight(s, r, covered)) && Durable(s, DoPreflight(s, r, covered))
  {
  }

  lemma ConsumeHalts(s: State, r: Round)
    requires HaltInv(s) && s.task == Covered(r)
    ensures HaltInv(DoConsume(s, r)) && Durable(s, DoConsume(s, r))
  {
  }

  /** Other work on the state in memory: the peak and a halt stay, and no decision is under way. */
  lemma IdleHalts(s: State, t: State)
    requires HaltInv(s) && !s.task.Down? && t.executed == s.executed && (t.task.Ready? || t.task.Executing?)
    requires t.mem.peak >= s.mem.peak && (s.mem.phase.Halted? ==> t.mem.phase.Halted?)
    requires t.disk.checkpoint == s.disk.checkpoint || (t.disk.checkpoint == s.mem && t.mem == s.mem)
    ensures HaltInv(t) && Durable(s, t)
  {
  }

  predicate IsIdle(a: Action) {
    a.ReadPortfolio? || a.ConfirmFirstEntry? || a.WorkflowRecovery? || a.SaveIdle? || a.Minted? || a.EndExecution? || a.RiskExit?
  }

  lemma IdleStep(c: Config, s: State, a: Action)
    requires HaltInv(s) && IsIdle(a)
    ensures HaltInv(Step(c, s, a)) && Durable(s, Step(c, s, a))
  {
    var t := Step(c, s, a);
    if t != s {
      match a
      case ReadPortfolio(held, missing, now) => IdleHalts(s, t);
      case ConfirmFirstEntry(flat, settled) => IdleHalts(s, t);
      case WorkflowRecovery(now) => IdleHalts(s, t);
      case SaveIdle => IdleHalts(s, t);
      case Minted => IdleHalts(s, t);
      case EndExecution(held) => IdleHalts(s, t);
      case RiskExit(now) => IdleHalts(s, t);
    }
  }

  lemma ExecuteHalts(c: Config, s: State)
    requires HaltInv(s)
    ensures HaltInv(Step(c, s, BeginExecution)) && Durable(s, Step(c, s, BeginExecution))
  {
  }

  lemma SaveHalts(c: Config, s: State)
    requires HaltInv(s)
    ensures HaltInv(Step(c, s, Save)) && Durable(s, Step(c, s, Save))
  {
  }

  lemma HaltStep(c: Config, s: State, a: Action)
    requires HaltInv(s)
    ensures HaltInv(Step(c, s, a)) && Durable(s, Step(c, s, a))
  {
    match a
    case Evaluate(f, settled) => if s.task.Ready? { EvaluateHalts(c, s, f, settled); }
    case Preflight(covered) => if s.task.Decided? { PreflightHalts(s, s.task.round, covered); }
    case Consume => if s.task.Covered? { ConsumeHalts(s, s.task.round); }
    case Save => SaveHalts(c, s);
    case BeginExecution => ExecuteHalts(c, s);
    case Arm(flat, settled) =>
    case Start =>
    case Crash =>
    case _ => IdleStep(c, s, a);
  }

  /** A drawdown halt that reached a checkpoint outlives every crash and restart. */
  lemma {:induction false} SavedHaltSurvives(c: Config, s: State, actions: seq<Action>)
    requires HaltInv(s)
    ensures HaltInv(Run(c, s, actions)) && Durable(s, Run(c, s, actions))
  {
    if actions != [] {
      SavedHaltSurvives(c, s, actions[..|actions| - 1]);
      HaltStep(c, Run(c, s, actions[..|actions| - 1]), actions[|actions| - 1]);
    }
  }

  // ---------------------------------------------------------------- the permit's methods

  class Runner {
    var permit: Option<Permit>
    var everOpened: bool
    var checkpoint: Strategy
    var mem: Strategy
    var task: Task
    var executed: seq<Option<nat>>
    var nextId: nat

    function View(): State
      reads this
    {
      State(Disk(checkpoint, permit, everOpened), mem, task, executed, nextId)
    }

    constructor (saved: Strategy, permit: Option<Permit>, everOpened: bool, nextId: nat)
      requires permit.Some? ==> permit.value.id < nextId
      ensures Begins(View())
    {
      this.permit, this.everOpened, this.checkpoint, this.mem := permit, everOpened, saved, saved;
      this.task, this.executed, this.nextId := Down, [], nextId;
    }

    /** A repeated request neither stacks permits nor replaces the armed one. */
    method ArmEntry(flat: bool, settled: bool) returns (ok: bool)
      requires task.Down?
      modifies this
      ensures ok <==> flat && settled && checkpoint.phase.Paused?
      ensures View() == if ok then DoArm(old(View())) else old(View())
    {
      ok := checkpoint.phase == Paused && flat && settled;
      if !ok || (permit.Some? && permit.value.status == Armed) { return; }
      permit := Some(Permit(nextId, Armed));
      nextId := nextId + 1;
    }

    method EvaluateEntry(c: Config, f: Frame, settled: bool)
      requires task.Ready?
      modifies this
      ensures View() == DoEvaluate(c, old(View()), f, settled)
    {
      if f.portfolio.positions != [] { everOpened := true; }
      var previous := mem;
      if permit.None? || permit.value.status != Armed {
        var (t, d) := StrategyRuns.Judge(c, mem, f, false);
        mem, task := t, Decided(Round(f, previous, d, None));
        return;
      }
      if !StrategyRuns.Waives(mem, f) {
        permit := Some(permit.value.(status := Canceled));
        var (t, d) := StrategyRuns.Judge(c, mem, f, false);
        mem, task := t, Decided(Round(f, previous, d, None));
        return;
      }
      if !settled {
        task := Down;
        return;
      }
      var (t, d) := StrategyRuns.Judge(c, mem, f, true);
      mem, task := t, Decided(Round(f, previous, d, if d.lp.Deploy? then Some(permit.value.id) else None));
      if mem.phase == Halted { permit := Some(permit.value.(status := Canceled)); }
    }

    method ConsumeEntry()
      requires task.Covered?
      modifies this
      ensures View() == DoConsume(old(View()), old(task).round)
    {
      var r := task.round;
      if r.decision.lp.Deploy? && r.waiver.Some? {
        if permit.None? || permit.value.id != r.waiver.value || permit.value.status != Armed {
          task := Down;
          return;
        }
        permit := Some(permit.value.(status := Consumed));
      }
      task := Consuming(r);
    }
  }
}
