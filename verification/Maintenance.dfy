/**
 Leaving a position for good: the manual reset, and the strategy switch that wraps it. Both work on
 files, leave a marker while unfinished, and may crash between any two file operations.
 */
module Maintenance {
  import opened Common

  /** A configuration file. `account` is everything that identifies the account, chain and market. */
  datatype Config = Config(account: nat, transport: nat, strategy: nat, margin: nat)

  /** What the state directory is bound to: a configuration without its transport settings. */
  datatype Binding = Binding(account: nat, strategy: nat, margin: nat)

  function BindingOf(c: Config): Binding { Binding(c.account, c.strategy, c.margin) }

  /** The two shipped profiles and the margin settings they demand. */
  datatype Profile = Persistent | Band

  function TemplateStrategy(p: Profile): nat { if p.Persistent? then 1 else 2 }

  const TEMPLATE_MARGIN: nat := 3

  function Target(c: Config, p: Profile): Config { c.(strategy := TemplateStrategy(p), margin := TEMPLATE_MARGIN) }

  datatype ResetMarker = ResetMarker(binding: Binding, verified: bool)

  datatype MigrationMarker = MigrationMarker(profile: Profile, exit: Binding, target: Binding)

  /** `records` are the other files of the state directory; the lock file always stays. */
  datatype Disk = Disk(
    config: Config, saved: Option<Binding>, reset: Option<ResetMarker>, migration: Option<MigrationMarker>,
    records: map<nat, nat>, backups: seq<Backup>)

  datatype Backup = Backup(saved: Option<Binding>, records: map<nat, nat>)

  datatype Plan = Plan(profile: Profile, exit: Config, target: Config)

  predicate OnlyLock(d: Disk) { d.saved.None? && d.reset.None? && d.records == map[] }

  /** The binding the state directory still shows: its config, else the reset's, else the migration's. */
  function OldBinding(d: Disk): Option<Binding> {
    if d.saved.Some? then d.saved
    else if d.reset.Some? then Some(d.reset.value.binding)
    else if d.migration.Some? then Some(d.migration.value.exit)
    else None
  }

  function PlanFor(d: Disk, current: Config, p: Profile): Option<Plan> {
    var target := Target(current, p);
    var previous := d.migration;
    if previous.Some? && (previous.value.profile != p || previous.value.target != BindingOf(target)) then None
    else if OldBinding(d).Some? then
      var was := OldBinding(d).value;
      var exit := current.(strategy := was.strategy, margin := was.margin);
      if BindingOf(exit) != was || (previous.Some? && previous.value.exit != was) || (d.reset.Some? && d.reset.value.binding != was)
      then None else Some(Plan(p, exit, target))
    else if OnlyLock(d) then Some(Plan(p, current, target))
    else None
  }

  function MarkerOf(p: Plan): MigrationMarker { MigrationMarker(p.profile, BindingOf(p.exit), BindingOf(p.target)) }

  // ---------------------------------------------------------------- the flat proof

  datatype Proof = Proof(lpIds: nat, base: nat, dustChecked: bool, hedge: int, openOrders: nat, pending: bool, unresolved: nat)

  predicate Flat(p: Proof) {
    && p.lpIds == 0 && p.hedge == 0 && p.openOrders == 0 && !p.pending && p.unresolved == 0
    && (p.base != 0 <==> p.dustChecked)
  }

  // ---------------------------------------------------------------- the two commands as file operations

  /** A migration in progress: its plan and the configuration file as first read. */
  datatype Job = Job(plan: Plan, original: Config)

  datatype Task =
    | Idle
    | Planned(job: Job)
    | Exiting(job: Job)                                 // marker written, the exit may start
    | Flattening(cfg: Config, outer: Option<Job>, done: nat, staged: bool)   // `done` exit steps performed
    | Verified(cfg: Config, outer: Option<Job>)
    | Clearing(outer: Option<Job>, backup: nat)           // a complete copy exists
    | Exited(job: Job)
    | Installed(job: Job)

  /** `profile` is the last profile a migration marker was written for. */
  datatype State = State(disk: Disk, task: Task, profile: Option<Profile>)

  datatype Action =
    | PlanMigration(p: Profile)
    | WriteMigrationMarker
    | StartReset
    | StartExit
    | StageStep                                         // the marker names the next exit step
    | Execute(written: map<nat, nat>)                   // that step, with the records it writes
    | Verify(first: Proof, second: Proof)
    | CopyTree
    | RemoveRecord(name: nat)
    | RemoveConfigBinding
    | RemoveResetMarker
    | Install
    | RemoveMigrationMarker
    | Crash

  /** Reconcile, cancel orders, remove liquidity, sell base, close the hedge. */
  const EXIT_STEPS: nat := 5

  /** A reset accepts the binding the directory shows, and a marker it finds; else it writes its own. */
  function BeginReset(s: State, cfg: Config, job: Option<Job>): State {
    var d, b := s.disk, BindingOf(cfg);
    if (d.saved.Some? && d.saved.value != b) || (d.reset.Some? && d.reset.value.binding != b) then s.(task := Idle)
    else
      s.(disk := d.(reset := if d.reset.Some? then d.reset else Some(ResetMarker(b, false))), task := Flattening(cfg, job, 0, false))
  }

  /** A disabled action leaves the state unchanged. */
  function Step(s: State, a: Action): State {
    var d := s.disk;
    match a
    case PlanMigration(p) =>
      if s.task.Idle? && PlanFor(d, d.config, p).Some? then s.(task := Planned(Job(PlanFor(d, d.config, p).value, d.config))) else s
    case WriteMigrationMarker =>
      if s.task.Planned? then
        s.(disk := d.(migration := Some(MarkerOf(s.task.job.plan))), task := Exiting(s.task.job), profile := Some(s.task.job.plan.profile))
      else s
    case StartReset => if s.task.Idle? then BeginReset(s, d.config, None) else s
    case StartExit => if s.task.Exiting? then BeginReset(s, s.task.job.plan.exit, Some(s.task.job)) else s
    case StageStep =>
      if s.task.Flattening? && !s.task.staged && s.task.done < EXIT_STEPS then
        s.(disk := d.(reset := Some(ResetMarker(BindingOf(s.task.cfg), false))), task := s.task.(staged := true))
      else s
    case Execute(written) =>
      if s.task.Flattening? && s.task.staged then
        s.(disk := d.(records := d.records + written), task := s.task.(staged := false, done := s.task.done + 1))
      else s
    case Verify(first, second) =>
      if s.task.Flattening? && s.task.done == EXIT_STEPS && Flat(first) && Flat(second) then
        s.(disk := d.(reset := Some(ResetMarker(BindingOf(s.task.cfg), true))), task := Verified(s.task.cfg, s.task.outer))
      else s
    case CopyTree =>
      if s.task.Verified? && d.reset.Some? && d.reset.value.verified then
        s.(disk := d.(backups := d.backups + [Backup(d.saved, d.records)]), task := Clearing(s.task.outer, |d.backups|))
      else s
    case RemoveRecord(name) => if s.task.Clearing? then s.(disk := d.(records := d.records - {name})) else s
    case RemoveConfigBinding => if s.task.Clearing? then s.(disk := d.(saved := None)) else s
    case RemoveResetMarker =>
      if s.task.Clearing? && d.records == map[] && d.saved.None? then
        s.(disk := d.(reset := None), task := if s.task.outer.Some? then Exited(s.task.outer.value) else Idle)
      else s
    case Install =>
      if !s.task.Exited? then s
      else if OnlyLock(d) && d.migration == Some(MarkerOf(s.task.job.plan)) && d.config == s.task.job.original then
        s.(disk := d.(config := s.task.job.plan.target), task := Installed(s.task.job))
      else s.(task := Idle)
    case RemoveMigrationMarker => if s.task.Installed? then s.(disk := d.(migration := None), task := Idle) else s
    case Crash => s.(task := Idle)
  }

  function Run(d0: Disk, actions: seq<Action>): State {
    if actions == [] then State(d0, Idle, None) else Step(Run(d0, actions[..|actions| - 1]), actions[|actions| - 1])
  }

  /** The runner refuses to start behind either marker. */
  predicate Blocked(d: Disk) { d.reset.Some? || d.migration.Some? }

  // ---------------------------------------------------------------- what every step keeps

  ghost predicate Untouched(d0: Disk, d: Disk) { d.records == d0.records && d.saved == d0.saved && d.config == d0.config }

  /** The configuration file is the first one, or a profile's version of it. */
  ghost predicate FromOrigin(d0: Disk, c: Config) { c == d0.config || exists p :: c == Target(d0.config, p) }

  /** The configuration that belongs in place once nothing is unfinished. */
  function Settled(d0: Disk, profile: Option<Profile>): Config {
    if profile.Some? then Target(d0.config, profile.value) else d0.config
  }

  ghost predicate PlanFits(d0: Disk, d: Disk, p: Plan) {
    && p.target == Target(d0.config, p.profile) && p.exit.account == d0.config.account
    && (d.saved.Some? ==> d.saved.value == BindingOf(p.exit))
  }

  ghost predicate JobFits(d0: Disk, d: Disk, j: Job) { PlanFits(d0, d, j.plan) && FromOrigin(d0, j.original) }

  ghost predicate DiskInv(d0: Disk, s: State) {
    var d := s.disk;
    && FromOrigin(d0, d.config)
    && (d.migration.Some? ==>
          var m := d.migration.value;
          && s.profile == Some(m.profile) && m.target == BindingOf(Target(d0.config, m.profile)) && m.exit.account == d0.config.account
          && (d.saved.Some? ==> d.saved.value == m.exit))
    && (!Blocked(d) ==>
          || (Untouched(d0, d) && s.profile.None?)
          || (d.records == map[] && d.saved.None?))
    && (d.migration.None? ==> d.config == Settled(d0, s.profile))
  }

  ghost predicate InBackup(d: Disk, k: nat) {
    && k < |d.backups|
    && (forall n :: n in d.records ==> n in d.backups[k].records && d.backups[k].records[n] == d.records[n])
    && (d.saved.Some? ==> d.backups[k].saved == d.saved)
  }

  ghost predicate JobInv(d0: Disk, s: State, j: Job) {
    JobFits(d0, s.disk, j) && s.disk.migration == Some(MarkerOf(j.plan)) && s.profile == Some(j.plan.profile)
  }

  ghost predicate TaskInv(d0: Disk, s: State) {
    var d := s.disk;
    match s.task
    case Idle => true
    case Planned(j) => JobFits(d0, d, j) && (d.migration.Some? ==> d.migration.value == MarkerOf(j.plan))
    case Exiting(j) => JobInv(d0, s, j)
    case Flattening(cfg, job, done, staged) => d.reset.Some? && (job.Some? ==> JobInv(d0, s, job.value))
    case Verified(cfg, job) => d.reset.Some? && (job.Some? ==> JobInv(d0, s, job.value))
    case Clearing(job, k) => d.reset.Some? && InBackup(d, k) && (job.Some? ==> JobInv(d0, s, job.value))
    case Exited(j) => JobInv(d0, s, j) && OnlyLock(d)
    case Installed(j) => JobInv(d0, s, j) && OnlyLock(d) && d.config == j.plan.target
  }

  ghost predicate Inv(d0: Disk, s: State) { DiskInv(d0, s) && TaskInv(d0, s) }

  lemma PlanStep(d0: Disk, s: State, p: Profile)
    requires Inv(d0, s)
    ensures Inv(d0, Step(s, PlanMigration(p)))
  {
  }

  lemma MarkerStep(d0: Disk, s: State)
    requires Inv(d0, s)
    ensures Inv(d0, Step(s, WriteMigrationMarker))
  {
  }

  lemma ResetStep(d0: Disk, s: State, a: Action)
    requires Inv(d0, s) && (a.StartReset? || a.StartExit?)
    ensures Inv(d0, Step(s, a))
  {
  }

  lemma ClearStep(d0: Disk, s: State, a: Action)
    requires Inv(d0, s) && (a.RemoveRecord? || a.RemoveConfigBinding? || a.RemoveResetMarker? || a.CopyTree?)
    ensures Inv(d0, Step(s, a))
  {
  }

  lemma InstallStep(d0: Disk, s: State, a: Action)
    requires Inv(d0, s) && (a.Install? || a.RemoveMigrationMarker?)
    ensures Inv(d0, Step(s, a))
  {
  }

  lemma FlattenStep(d0: Disk, s: State, a: Action)
    requires Inv(d0, s) && (a.StageStep? || a.Execute? || a.Verify? || a.Crash?)
    ensures Inv(d0, Step(s, a))
  {
  }

  lemma StepKeeps(d0: Disk, s: State, a: Action)
    requires Inv(d0, s)
    ensures Inv(d0, Step(s, a))
  {
    match a
    case PlanMigration(p) => PlanStep(d0, s, p);
    case WriteMigrationMarker => MarkerStep(d0, s);
    case StartReset => ResetStep(d0, s, a);
    case StartExit => ResetStep(d0, s, a);
    case Install => InstallStep(d0, s, a);
    case RemoveMigrationMarker => InstallStep(d0, s, a);
    case StageStep => FlattenStep(d0, s, a);
    case Execute(_) => FlattenStep(d0, s, a);
    case Verify(_, _) => FlattenStep(d0, s, a);
    case Crash => FlattenStep(d0, s, a);
    case _ => ClearStep(d0, s, a);
  }

  lemma {:induction false} RunKeeps(d0: Disk, actions: seq<Action>)
    requires !Blocked(d0)
    ensures Inv(d0, Run(d0, actions))
  {
    if actions != [] {
      RunKeeps(d0, actions[..|actions| - 1]);
      StepKeeps(d0, Run(d0, actions[..|actions| - 1]), actions[|actions| - 1]);
    }
  }

  // ---------------------------------------------------------------- the results

  /**
   At every crash point, if no marker blocks the runner then either nothing was removed and the old
   configuration is in place, or the directory is clean and, after a migration, the new one is installed.
   */
  lemma UnblockedIsWhole(d0: Disk, actions: seq<Action>)
    requires !Blocked(d0) && !Blocked(Run(d0, actions).disk)
    ensures var s := Run(d0, actions);
            || (Untouched(d0, s.disk) && s.profile.None?)
            || (OnlyLock(s.disk) && s.disk.config == Settled(d0, s.profile))
  {
    RunKeeps(d0, actions);
  }

  /** Nothing is removed before a complete copy of it exists. */
  lemma RemovedIsBackedUp(d0: Disk, actions: seq<Action>, a: Action, name: nat)
    requires !Blocked(d0)
    ensures var d, d' := Run(d0, actions).disk, Step(Run(d0, actions), a).disk;
            && (name in d.records && name !in d'.records ==>
                  exists k :: 0 <= k < |d'.backups| && name in d'.backups[k].records && d'.backups[k].records[name] == d.records[name])
            && (d.saved.Some? && d'.saved.None? ==> exists k :: 0 <= k < |d'.backups| && d'.backups[k].saved == d.saved)
  {
    RunKeeps(d0, actions);
    var s := Run(d0, actions);
    if s.task.Clearing? { assert InBackup(s.disk, s.task.backup); }
  }

  /** The last removal is the marker's: until then the runner stays blocked. */
  lemma BlockedWhileClearing(d0: Disk, actions: seq<Action>, a: Action)
    requires !Blocked(d0)
    ensures var d, d' := Run(d0, actions).disk, Step(Run(d0, actions), a).disk;
            && (d'.records != d.records || d'.saved != d.saved ==> Blocked(d) && Blocked(d'))
            && (Blocked(d) && !Blocked(d') ==> OnlyLock(d'))
  {
    RunKeeps(d0, actions);
  }

  /**
   Planning an interrupted migration again gives the marker's exit and target bindings exactly when
   no other reset was started behind it with a different binding.
   */
  lemma ReplanExactly(d0: Disk, actions: seq<Action>)
    requires !Blocked(d0) && Run(d0, actions).disk.migration.Some?
    ensures var d := Run(d0, actions).disk;
            var m, p := d.migration.value, PlanFor(d, d.config, d.migration.value.profile);
            && (p.Some? <==> d.reset.None? || d.reset.value.binding == m.exit)
            && (p.Some? ==> MarkerOf(p.value) == m)
  {
    RunKeeps(d0, actions);
  }

  lemma RunSnoc(d0: Disk, actions: seq<Action>, a: Action)
    ensures Run(d0, actions + [a]) == Step(Run(d0, actions), a)
  {
    assert (actions + [a])[..|actions|] == actions;
  }

  const CLEAN := Disk(Config(7, 0, 5, 0), None, None, None, map[], [])

  const SWITCH := Job(Plan(Band, CLEAN.config, Target(CLEAN.config, Band)), CLEAN.config)

  const SWITCHED := MigrationMarker(Band, Binding(7, 5, 0), Binding(7, 2, 3))

  function Leaving(done: nat, verified: bool): State {
    State(CLEAN.(migration := Some(SWITCHED), reset := Some(ResetMarker(Binding(7, 5, 0), verified))),
          Flattening(CLEAN.config, Some(SWITCH), done, false), Some(Band))
  }

  lemma ExitStarts()
    ensures Run(CLEAN, [PlanMigration(Band)] + [WriteMigrationMarker] + [StartExit]) == Leaving(0, false)
  {
    var a := [PlanMigration(Band)];
    assert [] + a == a;
    RunSnoc(CLEAN, [], PlanMigration(Band));
    assert PlanFor(CLEAN, CLEAN.config, Band) == Some(SWITCH.plan);
    assert Run(CLEAN, a) == State(CLEAN, Planned(SWITCH), None);
    RunSnoc(CLEAN, a, WriteMigrationMarker);
    RunSnoc(CLEAN, a + [WriteMigrationMarker], StartExit);
  }

  /** The exit steps of an already flat account record nothing. */
  lemma {:induction false} ExitPerformed(before: seq<Action>, n: nat) returns (actions: seq<Action>)
    requires Run(CLEAN, before) == Leaving(0, false) && n <= EXIT_STEPS
    ensures Run(CLEAN, actions) == Leaving(n, false)
  {
    actions := before;
    if n > 0 {
      actions := ExitPerformed(before, n - 1);
      RunSnoc(CLEAN, actions, StageStep);
      RunSnoc(CLEAN, actions + [StageStep], Execute(map[]));
      actions := actions + [StageStep] + [Execute(map[])];
    }
  }

  /** From a flattened exit to the crash just before the migration marker goes. */
  lemma InstallThenCrash(before: seq<Action>, p: Proof) returns (actions: seq<Action>)
    requires Flat(p) && Run(CLEAN, before) == Leaving(EXIT_STEPS, false)
    ensures var d := Run(CLEAN, actions).disk;
            && d.config == SWITCH.plan.target && d.migration == Some(SWITCHED) && d.saved.None?
            && d.reset == Some(ResetMarker(Binding(7, 2, 3), false))
  {
    RunSnoc(CLEAN, before, Verify(p, p));
    var b := before + [Verify(p, p)];
    RunSnoc(CLEAN, b, CopyTree);
    RunSnoc(CLEAN, b + [CopyTree], RemoveResetMarker);
    var e := b + [CopyTree] + [RemoveResetMarker];
    RunSnoc(CLEAN, e, Install);
    RunSnoc(CLEAN, e + [Install], Crash);
    RunSnoc(CLEAN, e + [Install] + [Crash], StartReset);
    actions := e + [Install] + [Crash] + [StartReset];
  }

  /** The condition can fail: a switch crashes just before its marker goes, and a plain reset is started. */
  lemma InterleavedReset() returns (actions: seq<Action>)
    ensures var d := Run(CLEAN, actions).disk;
            d.migration.Some? && PlanFor(d, d.config, d.migration.value.profile).None?
  {
    ExitStarts();
    var flat := ExitPerformed([PlanMigration(Band)] + [WriteMigrationMarker] + [StartExit], EXIT_STEPS);
    actions := InstallThenCrash(flat, Proof(0, 0, false, 0, 0, false, 0));
  }

  // ---------------------------------------------------------------- clearing, in place

  /** The state directory; `budget` stops a method after that many file operations, as a crash would. */
  class StateDirectory {
    var saved: Option<Binding>
    var reset: Option<ResetMarker>
    var records: map<nat, nat>
    var backups: seq<Backup>

    /** Copies everything, removes everything, and takes the marker away last. */
    method ArchiveAndClear(budget: nat) returns (done: bool)
      requires reset.Some? && reset.value.verified
      modifies this
      ensures done <==> budget >= |old(records)| + 3
      ensures budget == 0 ==> backups == old(backups) && records == old(records) && saved == old(saved)
      ensures budget > 0 ==> backups == old(backups) + [Backup(old(saved), old(records))]
      ensures reset == if done then None else old(reset)
      ensures done ==> records == map[] && saved.None?
      ensures forall n :: n in records ==> n in old(records) && records[n] == old(records)[n]
      ensures saved.Some? ==> saved == old(saved)
    {
      done := false;
      if budget == 0 { return; }
      backups := backups + [Backup(saved, records)];
      var left: nat := budget - 1;
      while records != map[]
        invariant backups == old(backups) + [Backup(old(saved), old(records))] && saved == old(saved) && reset == old(reset)
        invariant forall n :: n in records ==> n in old(records) && records[n] == old(records)[n]
        invariant left + |old(records)| - |records| == budget - 1
        decreases |records|
      {
        if left == 0 { return; }
        var n :| n in records;
        assert |records - {n}| == |records| - 1 by { assert (records - {n}).Keys == records.Keys - {n}; }
        records := records - {n};
        left := left - 1;
      }
      assert |records| == 0;
      if left == 0 { return; }
      saved := None;
      if left == 1 { return; }
      reset := None;
      done := true;
    }
  }
}
