/**
 The shared request gate: one permit, a minimum spacing between requests, and a cooldown after the
 provider limits. Callers interleave freely and may be cancelled at any point.
 */
module RequestGate {
  import opened Common

  const SECOND: nat := 1_000

  /** Times are milliseconds on one monotonic clock. */
  datatype GateState = GateState(spacing: nat, next: nat, cooldown: Option<nat>, failures: nat, healthySince: Option<nat>)

  predicate Cooling(g: GateState, now: nat) { g.cooldown.Some? && g.cooldown.value > now }

  /** 30 s doubling with each failure, at most 300 s. */
  function Backoff(failures: nat): nat { Min(30 * Doubled(Min(failures, 4)), 300) * SECOND }

  function Doubled(n: nat): nat { if n == 0 then 1 else 2 * Doubled(n - 1) }

  /** Successive limits without recovery wait 30, 60, 120, 240 and then 300 seconds. */
  lemma BackoffLadder(failures: nat)
    ensures Backoff(failures) == (if failures == 0 then 30_000 else if failures == 1 then 60_000
                                  else if failures == 2 then 120_000 else if failures == 3 then 240_000 else 300_000)
    ensures Backoff(failures) <= Backoff(failures + 1)
  {
    assert Doubled(1) == 2 && Doubled(2) == 4 && Doubled(3) == 8 && Doubled(4) == 16;
  }

  function Limited(g: GateState, retryAfter: Option<nat>, now: nat): GateState {
    var delay := Max(Backoff(g.failures), if retryAfter.Some? then retryAfter.value else 0);
    g.(failures := Min(g.failures + 1, U32_MAX), healthySince := None, cooldown := Some(now + delay))
  }

  function Succeeded(g: GateState, now: nat): GateState {
    var healthy := if g.healthySince.Some? then g.healthySince.value else now;
    g.(cooldown := None, healthySince := Some(healthy), failures := if SatSub(now, healthy) >= 60 * SECOND then 0 else g.failures)
  }

  /** A caller: waiting for the permit, holding it until its turn, or allowed to send. */
  datatype Caller = Queued | Sleeping(until: nat) | Sending

  datatype Mark =
    | Grant(at: nat, spacing: nat)
    | Deadline(at: nat, until: nat, failures: nat, retryAfter: Option<nat>)

  datatype State = State(gate: GateState, now: nat, callers: map<nat, Caller>, holder: Option<nat>, log: seq<Mark>)

  datatype Action =
    | Tick(ms: nat)
    | Share(spacing: nat)                        // another module opens the same endpoint
    | Request(id: nat)
    | Admit(id: nat)
    | Wake(id: nat)
    | Reject(id: nat, retryAfter: Option<nat>)   // the provider answered "limited"
    | Succeed(id: nat)
    | Leave(id: nat)                             // finished or cancelled

  function Dropped(s: State, id: nat): State {
    s.(callers := s.callers - {id}, holder := if s.holder == Some(id) then None else s.holder)
  }

  predicate Is(s: State, id: nat, c: Caller) { id in s.callers && s.callers[id] == c }

  function DoWake(s: State, id: nat): State {
    if Cooling(s.gate, s.now) then Dropped(s, id)
    else
      s.(gate := s.gate.(next := s.now + s.gate.spacing), callers := s.callers[id := Sending],
      log := s.log + [Grant(s.now, s.gate.spacing)])
  }

  function DoReject(s: State, id: nat, retryAfter: Option<nat>): State {
    var g := Limited(s.gate, retryAfter, s.now);
    Dropped(s.(gate := g, log := s.log + [Deadline(s.now, g.cooldown.value, s.gate.failures, retryAfter)]), id)
  }

  /** A disabled action leaves the state unchanged. */
  function Step(s: State, a: Action): State {
    match a
    case Tick(ms) => s.(now := s.now + ms)
    case Share(spacing) => s.(gate := s.gate.(spacing := Max(s.gate.spacing, spacing)))
    case Request(id) => if id !in s.callers && !Cooling(s.gate, s.now) then s.(callers := s.callers[id := Queued]) else s
    case Admit(id) =>
      if Is(s, id, Queued) && s.holder.None? then
        if Cooling(s.gate, s.now) then Dropped(s, id)
        else s.(holder := Some(id), callers := s.callers[id := Sleeping(s.gate.next)])
      else s
    case Wake(id) => if id in s.callers && s.callers[id].Sleeping? && s.callers[id].until <= s.now then DoWake(s, id) else s
    case Reject(id, retryAfter) => if Is(s, id, Sending) then DoReject(s, id, retryAfter) else s
    case Succeed(id) => if Is(s, id, Sending) then s.(gate := Succeeded(s.gate, s.now)) else s
    case Leave(id) => if id in s.callers then Dropped(s, id) else s
  }

  function Start(spacing: nat, now: nat): State { State(GateState(spacing, now, None, 0, None), now, map[], None, []) }

  function Run(s0: State, actions: seq<Action>): State {
    if actions == [] then s0 else Step(Run(s0, actions[..|actions| - 1]), actions[|actions| - 1])
  }

  // ---------------------------------------------------------------- what every step keeps

  /** Only the permit's holder is past the queue, and its wake time is the gate's. */
  predicate HolderInv(s: State) {
    && (s.holder.Some? ==> s.holder.value in s.callers && !s.callers[s.holder.value].Queued?)
    && (forall id :: id in s.callers && !s.callers[id].Queued? ==> s.holder == Some(id))
    && (forall id :: id in s.callers && s.callers[id].Sleeping? ==> s.callers[id].until == s.gate.next)
  }

  /** While a caller sends, no cooldown is pending: it would have been refused. */
  predicate SendingInv(s: State) { forall id :: id in s.callers && s.callers[id].Sending? ==> !Cooling(s.gate, s.now) }

  /** The gate has not forgotten any past grant or deadline that still matters. */
  predicate PastInv(s: State) {
    forall i :: 0 <= i < |s.log| ==>
                  if s.log[i].Grant? then s.log[i].at + s.log[i].spacing <= s.gate.next
                  else s.log[i].until <= s.now || (s.gate.cooldown.Some? && s.log[i].until <= s.gate.cooldown.value)
  }

  predicate Ordered(m: Mark, n: Mark) {
    if n.Grant? then (if m.Grant? then n.at >= m.at + m.spacing else n.at >= m.until)
    else m.Deadline? ==> n.until >= m.until
  }

  predicate LogInv(log: seq<Mark>) {
    && (forall i, j :: 0 <= i < j < |log| ==> Ordered(log[i], log[j]))
    && (forall i :: 0 <= i < |log| && log[i].Deadline? ==>
                      && log[i].until >= log[i].at + Backoff(log[i].failures)
                      && (log[i].retryAfter.Some? ==> log[i].until >= log[i].at + log[i].retryAfter.value))
  }

  /** A pending deadline is one the log shows. */
  predicate CooldownLogged(s: State) {
    s.gate.cooldown.Some? ==> exists i :: 0 <= i < |s.log| && s.log[i].Deadline? && s.log[i].until == s.gate.cooldown.value
  }

  predicate Inv(s: State) { HolderInv(s) && SendingInv(s) && PastInv(s) && LogInv(s.log) && CooldownLogged(s) }

  lemma StillLogged(s: State, s': State, m: Mark)
    requires CooldownLogged(s) && s'.log == s.log + [m]
    requires s'.gate.cooldown == s.gate.cooldown || (m.Deadline? && s'.gate.cooldown == Some(m.until))
    ensures CooldownLogged(s')
  {
    assert s'.log[|s.log|] == m;
    if s'.gate.cooldown == s.gate.cooldown && s.gate.cooldown.Some? {
      var i :| 0 <= i < |s.log| && s.log[i].Deadline? && s.log[i].until == s.gate.cooldown.value;
      assert s'.log[i] == s.log[i];
    }
  }

  lemma WakeStep(s: State, id: nat)
    requires Inv(s)
    ensures Inv(Step(s, Wake(id)))
  {
    var s' := Step(s, Wake(id));
    if s'.log != s.log {
      forall i | 0 <= i < |s.log| ensures Ordered(s.log[i], s'.log[|s.log|]) {
        assert s.log[i].Grant? ==> s.log[i].at + s.log[i].spacing <= s.gate.next;
      }
      StillLogged(s, s', s'.log[|s.log|]);
    }
  }

  lemma RejectStep(s: State, id: nat, retryAfter: Option<nat>)
    requires Inv(s)
    ensures Inv(Step(s, Reject(id, retryAfter)))
  {
    var s' := Step(s, Reject(id, retryAfter));
    if s'.log != s.log {
      forall i | 0 <= i < |s.log| && s.log[i].Deadline? ensures s.log[i].until <= s.now {
        assert !Cooling(s.gate, s.now);
      }
      StillLogged(s, s', s'.log[|s.log|]);
    }
  }

  lemma StepKeeps(s: State, a: Action)
    requires Inv(s)
    ensures Inv(Step(s, a))
  {
    match a
    case Wake(id) => WakeStep(s, id);
    case Reject(id, retryAfter) => RejectStep(s, id, retryAfter);
    case _ =>
  }

  lemma {:induction false} RunKeeps(spacing: nat, now: nat, actions: seq<Action>)
    ensures Inv(Run(Start(spacing, now), actions))
  {
    if actions != [] {
      RunKeeps(spacing, now, actions[..|actions| - 1]);
      StepKeeps(Run(Start(spacing, now), actions[..|actions| - 1]), actions[|actions| - 1]);
    }
  }

  // ---------------------------------------------------------------- the results

  /** Every grant keeps the spacing in force at the grants before it and waits out every earlier deadline. */
  lemma GrantsSpaced(spacing: nat, now: nat, actions: seq<Action>, i: nat, j: nat)
    requires var log := Run(Start(spacing, now), actions).log; i < j < |log| && log[j].Grant?
    ensures var log := Run(Start(spacing, now), actions).log;
            log[j].at >= if log[i].Grant? then log[i].at + log[i].spacing else log[i].until
  {
    RunKeeps(spacing, now, actions);
    assert Ordered(Run(Start(spacing, now), actions).log[i], Run(Start(spacing, now), actions).log[j]);
  }

  /** Deadlines never move earlier, and each honours the backoff and the provider's Retry-After. */
  lemma DeadlinesHold(spacing: nat, now: nat, actions: seq<Action>, i: nat, j: nat)
    requires var log := Run(Start(spacing, now), actions).log; i <= j < |log| && log[i].Deadline? && log[j].Deadline?
    ensures var log := Run(Start(spacing, now), actions).log;
            && log[i].until <= log[j].until
            && log[j].until >= log[j].at + Max(Backoff(log[j].failures), if log[j].retryAfter.Some? then log[j].retryAfter.value else 0)
  {
    RunKeeps(spacing, now, actions);
    var log := Run(Start(spacing, now), actions).log;
    if i < j { assert Ordered(log[i], log[j]); }
  }

  function Delay(g: GateState, retryAfter: Option<nat>): nat { Max(Backoff(g.failures), if retryAfter.Some? then retryAfter.value else 0) }

  /** A limit reported by someone who does not hold the permit. */
  function RejectUnheld(s: State, retryAfter: Option<nat>): State {
    var g := Limited(s.gate, retryAfter, s.now);
    s.(gate := g, log := s.log + [Deadline(s.now, g.cooldown.value, s.gate.failures, retryAfter)])
  }

  /**
   Why limits are only reported under the permit: at any point of any run, one reported without it
   keeps the deadlines of the whole run in order exactly when no longer wait is still pending.
   */
  lemma UnheldLimitExactly(spacing: nat, now: nat, actions: seq<Action>, retryAfter: Option<nat>)
    ensures var s := Run(Start(spacing, now), actions);
            LogInv(RejectUnheld(s, retryAfter).log) <==>
            (s.gate.cooldown.Some? ==> s.gate.cooldown.value <= s.now + Delay(s.gate, retryAfter))
  {
    RunKeeps(spacing, now, actions);
    UnheldStep(Run(Start(spacing, now), actions), retryAfter);
  }

  lemma UnheldStep(s: State, retryAfter: Option<nat>)
    requires PastInv(s) && LogInv(s.log) && CooldownLogged(s)
    ensures LogInv(RejectUnheld(s, retryAfter).log) <==>
            (s.gate.cooldown.Some? ==> s.gate.cooldown.value <= s.now + Delay(s.gate, retryAfter))
  {
    var n, log' := |s.log|, RejectUnheld(s, retryAfter).log;
    assert log'[n].Deadline? && log'[n].until == s.now + Delay(s.gate, retryAfter);
    if s.gate.cooldown.Some? {
      var i :| 0 <= i < n && s.log[i].Deadline? && s.log[i].until == s.gate.cooldown.value;
      assert log'[i] == s.log[i];
      if LogInv(log') { assert Ordered(log'[i], log'[n]); }
    }
    if s.gate.cooldown.Some? ==> s.gate.cooldown.value <= s.now + Delay(s.gate, retryAfter) {
      forall i, j | 0 <= i < j < |log'| ensures Ordered(log'[i], log'[j]) {
        if j < n { assert Ordered(s.log[i], s.log[j]); }
      }
    }
  }

  lemma OneHolder(s: State, a: nat, b: nat)
    requires HolderInv(s) && a in s.callers && b in s.callers && !s.callers[a].Queued? && !s.callers[b].Queued?
    ensures a == b && Step(s, Leave(a)).holder.None?
  {
  }

  /** At most one caller is past the queue, so cancelling any caller frees the permit it held. */
  lemma OnePermit(spacing: nat, now: nat, actions: seq<Action>, a: nat, b: nat)
    requires var s := Run(Start(spacing, now), actions);
             a in s.callers && b in s.callers && !s.callers[a].Queued? && !s.callers[b].Queued?
    ensures a == b && Step(Run(Start(spacing, now), actions), Leave(a)).holder.None?
  {
    RunKeeps(spacing, now, actions);
    OneHolder(Run(Start(spacing, now), actions), a, b);
  }

  // ---------------------------------------------------------------- the gate object

  class Gate {
    var spacing: nat
    var next: nat
    var cooldown: Option<nat>
    var failures: nat
    var healthySince: Option<nat>

    function Value(): GateState
      reads this
    {
      GateState(spacing, next, cooldown, failures, healthySince)
    }

    constructor (spacing: nat, now: nat)
      ensures Value() == Start(spacing, now).gate
    {
      this.spacing, this.next, this.cooldown, this.failures, this.healthySince := spacing, now, None, 0, None;
    }

    /** The last part of an acquisition, at the wake time: refuse, or claim the next slot. */
    method ClaimSlot(now: nat) returns (granted: bool)
      modifies this`next
      ensures granted <==> !Cooling(old(Value()), now)
      ensures Value() == if granted then old(Value()).(next := now + spacing) else old(Value())
    {
      granted := !(cooldown.Some? && cooldown.value > now);
      if granted { next := now + spacing; }
    }

    method Limit(retryAfter: Option<nat>, now: nat) returns (until: nat)
      modifies this`failures, this`healthySince, this`cooldown
      ensures Value() == Limited(old(Value()), retryAfter, now) && cooldown == Some(until)
    {
      var backoff := Backoff(failures);
      failures := Min(failures + 1, U32_MAX);
      healthySince := None;
      until := now + Max(backoff, if retryAfter.Some? then retryAfter.value else 0);
      cooldown := Some(until);
    }

    method Succeed(now: nat)
      modifies this`failures, this`healthySince, this`cooldown
      ensures Value() == Succeeded(old(Value()), now)
    {
      cooldown := None;
      if healthySince.None? { healthySince := Some(now); }
      if SatSub(now, healthySince.value) >= 60 * SECOND { failures := 0; }
    }
  }
}
