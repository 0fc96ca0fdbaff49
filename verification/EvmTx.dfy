/**
 The EVM transaction protocol: nonce allocation, durable intent, nonce reservation, broadcast,
 receipt confirmation and same-nonce fee replacement, over two durable files.

 `Step` is one durable write or one network call; a crash or a failed call may end the running
 operation between any two of them, a periodic refresh runs beside it, and every RPC answer is an
 arbitrary parameter of the action.
 */
module EvmTx {
  import opened Common

  type Hash = nat

  /** The signed fields that decide what a transaction does. */
  datatype Call = Call(target: nat, data: nat, value: nat, gas: nat)

  datatype Tx = Tx(nonce: nat, call: Call, fee: nat)

  datatype Candidate = Candidate(hash: Hash, raw: Tx)

  /** The recorded ERC20 approval a retry must reproduce: its token and its encoded call. */
  datatype Approval = Approval(token: nat, data: nat)

  /** pending.json: one slot shared by both venues. */
  datatype Pending =
    | Evm(hash: Hash, nonce: nat, raw: Tx, approval: Option<Approval>, replacements: seq<Candidate>, failedSend: bool)
    | Foreign(id: nat, dispatched: bool)

  datatype Reserved = Reserved(nonce: nat, hash: Hash)

  /** evm_nonce.json. */
  datatype Nonces = Nonces(latest: nat, pending: nat, nextFloor: nat, inflight: Option<Reserved>)

  const NO_NONCES := Nonces(0, 0, 0, None)

  datatype Disk = Disk(slot: Option<Pending>, nonces: Nonces)

  datatype Error =
    | InconsistentSnapshot | Unresolved | ExternalPending | NonceRegressed | NonceOverflow
    | AlreadyReserved | ReservationMismatch | UnknownReceipt | DuplicateHash | NotEvm | SlotTaken | BadSignature

  type Answer<T> = Result<T, Error>

  // ---------------------------------------------------------------- what each call computes

  function Observe(f: Nonces, latest: nat, pending: nat): Answer<Nonces> {
    if pending < latest then Err(InconsistentSnapshot)
    else Ok(f.(latest := latest, pending := pending, nextFloor := Max(f.nextFloor, latest)))
  }

  function Available(f: Nonces): Answer<nat> {
    if f.inflight.Some? then Err(Unresolved)
    else if f.pending != f.latest then Err(ExternalPending)
    else if f.latest < f.nextFloor then Err(NonceRegressed)
    else Ok(f.latest)
  }

  /** A refresh: the RPC counters, then the reservation recovered from an EVM slot. */
  function Refreshed(f: Nonces, slot: Option<Pending>, latest: nat, pending: nat): Answer<Nonces> {
    var g :- Observe(f, latest, pending);
    if slot.Some? && slot.value.Evm? then
      if slot.value.nonce >= U64_MAX then Err(NonceOverflow)
      else
        Ok(g.(nextFloor := Max(g.nextFloor, slot.value.nonce + 1),
           inflight := if g.inflight.None? then Some(Reserved(slot.value.nonce, slot.value.hash)) else g.inflight))
    else Ok(g)
  }

  function Reserve(f: Nonces, nonce: nat, hash: Hash): Answer<Nonces> {
    if f.inflight.Some? && f.inflight.value.hash != hash then Err(AlreadyReserved)
    else if nonce >= U64_MAX then Err(NonceOverflow)
    else Ok(f.(nextFloor := Max(f.nextFloor, nonce + 1), inflight := Some(Reserved(nonce, hash))))
  }

  /** All candidate hashes of a slot, the operation's own first. */
  function HashList(p: Pending): (r: seq<Hash>)
    requires p.Evm?
    ensures |r| == 1 + |p.replacements|
  {
    [p.hash] + seq(|p.replacements|, i requires 0 <= i < |p.replacements| => p.replacements[i].hash)
  }

  predicate Distinct(s: seq<Hash>) { forall i, j :: 0 <= i < j < |s| ==> s[i] != s[j] }

  /** Whether a receipt for `hash` may release the reservation. */
  function CheckConfirmed(d: Disk, hash: Hash): Answer<()> {
    match d.nonces.inflight
    case None => Ok(())
    case Some(op) =>
      if d.slot.None? then Err(Unresolved)
      else if !d.slot.value.Evm? then Err(ReservationMismatch)
      else if !(d.slot.value.hash == op.hash && d.slot.value.nonce == op.nonce) then Err(ReservationMismatch)
      else if !Distinct(HashList(d.slot.value)) then Err(DuplicateHash)
      else if hash !in HashList(d.slot.value) then Err(UnknownReceipt)
      else Ok(())
  }

  /** A stored signature decodes to what its record says. */
  predicate Decodes(keccak: Tx -> Hash, c: Candidate) { c.hash == keccak(c.raw) }

  /** The recovery check: every candidate was signed for this nonce and this very call. */
  function Validated(keccak: Tx -> Hash, p: Pending): Answer<seq<Hash>> {
    if !p.Evm? then Err(NotEvm)
    else if !(Decodes(keccak, Candidate(p.hash, p.raw)) && p.raw.nonce == p.nonce) then Err(BadSignature)
    else if !Distinct(HashList(p)) then Err(DuplicateHash)
    else if !SameOperations(keccak, p, |p.replacements|) then Err(BadSignature)
    else Ok(HashList(p))
  }

  predicate SameOperation(keccak: Tx -> Hash, p: Pending, c: Candidate)
    requires p.Evm?
  {
    Decodes(keccak, c) && c.raw.nonce == p.nonce && c.raw.call == p.raw.call
  }

  predicate SameOperations(keccak: Tx -> Hash, p: Pending, n: nat)
    requires p.Evm? && n <= |p.replacements|
  {
    forall i :: 0 <= i < n ==> SameOperation(keccak, p, p.replacements[i])
  }

  /** Whether a fee replacement of the slot may be signed, given the refreshed nonce file. */
  predicate ReplacementAllowed(keccak: Tx -> Hash, p: Pending, f: Nonces, known: bool) {
    && Validated(keccak, p).Ok?
    && p.approval == Some(Approval(p.raw.call.target, p.raw.call.data))
    && p.raw.call.value == 0
    && f.latest == p.nonce
    && f.nextFloor == p.nonce + 1
    && f.inflight == Some(Reserved(p.nonce, p.hash))
    && (f.pending == p.nonce || (known && f.pending == p.nonce + 1))
    && 1 + |p.replacements| <= 8
  }

  // ---------------------------------------------------------------- the protocol

  /** Where the one running operation stands; a process holds at most one (send lock). */
  datatype Sender =
    | Idle
    | Checked                     // the slot was seen empty
    | Allocated(nonce: nat)       // a nonce was allocated, nothing durable yet
    | Begun(tx: Tx)               // the intent is durable
    | Ready(tx: Tx)               // the nonce is reserved, or the replacement is durable
    | Waiting                     // polling receipts of the slot's candidates
    | Clearing                    // reservation released, slot not yet cleared (nonce lock held)
    | Retrying(copy: Pending)     // a replacement is being considered for this slot
    | Replacing(copy: Pending)    // the replacement passed every check

  /** The periodic refresh holds the nonce lock from its reads to its write. */
  datatype Worker = Resting | Reading(slot: Option<Pending>, latest: nat, pending: nat)

  /** `log` is everything ever handed to the network. */
  datatype State = State(disk: Disk, sender: Sender, worker: Worker, log: seq<Tx>)

  datatype Action =
    | CheckSlot
    | Allocate(latest: nat, pending: nat)
    | Begin(call: Call, fee: nat, approval: Option<Approval>)
    | Prepare
    | Send(acknowledged: bool)
    | Reconcile
    | Receipt(hash: Hash)
    | Clear
    | RetryRead
    | RetryRefresh(latest: nat, pending: nat, known: bool)
    | RetryWrite(fee: nat)
    | Abort
    | Crash
    | WorkerRead(latest: nat, pending: nat)
    | WorkerWrite
    | WorkerStop
    | ForeignBegin(id: nat)
    | ForeignDispatch
    | ForeignFinish

  const INIT := State(Disk(None, NO_NONCES), Idle, Resting, [])

  predicate NonceLockFree(s: State) { s.worker.Resting? && !s.sender.Clearing? }

  function WithNonces(s: State, f: Nonces): State { s.(disk := s.disk.(nonces := f)) }

  function WithSlot(s: State, p: Option<Pending>): State { s.(disk := s.disk.(slot := p)) }

  function DoAllocate(s: State, latest: nat, pending: nat): State {
    match Refreshed(s.disk.nonces, s.disk.slot, latest, pending)
    case Err(_) => s.(sender := Idle)
    case Ok(f) =>
      var s' := WithNonces(s, f);
      match Available(f)
      case Err(_) => s'.(sender := Idle)
      case Ok(n) => s'.(sender := Allocated(n))
  }

  function DoBegin(keccak: Tx -> Hash, s: State, nonce: nat, call: Call, fee: nat, approval: Option<Approval>): State {
    if s.disk.slot.Some? then s.(sender := Idle)
    else
      var tx := Tx(nonce, call, fee);
      WithSlot(s, Some(Evm(keccak(tx), nonce, tx, approval, [], false))).(sender := Begun(tx))
  }

  function DoPrepare(keccak: Tx -> Hash, s: State, tx: Tx): State {
    match Reserve(s.disk.nonces, tx.nonce, keccak(tx))
    case Err(_) => s.(sender := Idle)
    case Ok(f) => WithNonces(s, f).(sender := Ready(tx))
  }

  /** The network may have taken the transaction whether or not it said so. */
  function DoSend(s: State, tx: Tx, acknowledged: bool): State {
    var s' := s.(log := s.log + [tx]);
    if acknowledged then s'.(sender := Waiting)
    else if s.disk.slot.Some? && s.disk.slot.value.Evm? then
      WithSlot(s', Some(s.disk.slot.value.(failedSend := true))).(sender := Idle)
    else s'.(sender := Idle)
  }

  function DoReceipt(keccak: Tx -> Hash, s: State, hash: Hash): State {
    if s.disk.slot.None? || Validated(keccak, s.disk.slot.value).Err? then s.(sender := Idle)
    else if hash !in Validated(keccak, s.disk.slot.value).value then s
    else if CheckConfirmed(s.disk, hash).Err? then s.(sender := Idle)
    else WithNonces(s, s.disk.nonces.(inflight := None)).(sender := Clearing)
  }

  function DoRetryRefresh(keccak: Tx -> Hash, s: State, copy: Pending, latest: nat, pending: nat, known: bool): State {
    match Refreshed(s.disk.nonces, s.disk.slot, latest, pending)
    case Err(_) => s.(sender := Idle)
    case Ok(f) =>
      WithNonces(s, f).(sender := if ReplacementAllowed(keccak, copy, f, known) then Replacing(copy) else Idle)
  }

  /** Writes the whole record back from the copy read at the start. */
  function DoRetryWrite(keccak: Tx -> Hash, s: State, copy: Pending, fee: nat): State
    requires copy.Evm?
  {
    var tx := Tx(copy.nonce, copy.raw.call, fee);
    if keccak(tx) in HashList(copy) then s.(sender := Idle)
    else
      WithSlot(s, Some(copy.(replacements := copy.replacements + [Candidate(keccak(tx), tx)]))).(sender := Ready(tx))
  }

  function DoWorkerWrite(s: State): State
    requires s.worker.Reading?
  {
    var s' := s.(worker := Resting);
    match Refreshed(s.disk.nonces, s.worker.slot, s.worker.latest, s.worker.pending)
    case Err(_) => s'
    case Ok(f) => WithNonces(s', f)
  }

  /** A disabled action leaves the state unchanged. */
  function Step(keccak: Tx -> Hash, s: State, a: Action): State {
    match a
    case CheckSlot => if s.sender.Idle? && s.disk.slot.None? then s.(sender := Checked) else s
    case Allocate(l, p) => if s.sender.Checked? && NonceLockFree(s) then DoAllocate(s, l, p) else s
    case Begin(call, fee, ap) => if s.sender.Allocated? then DoBegin(keccak, s, s.sender.nonce, call, fee, ap) else s
    case Prepare => if s.sender.Begun? && NonceLockFree(s) then DoPrepare(keccak, s, s.sender.tx) else s
    case Send(ack) => if s.sender.Ready? then DoSend(s, s.sender.tx, ack) else s
    case Reconcile => if s.sender.Idle? && s.disk.slot.Some? && s.disk.slot.value.Evm? then s.(sender := Waiting) else s
    case Receipt(hash) => if s.sender.Waiting? && NonceLockFree(s) then DoReceipt(keccak, s, hash) else s
    case Clear => if s.sender.Clearing? then WithSlot(s, None).(sender := Idle) else s
    case RetryRead =>
      if s.sender.Idle? && s.disk.slot.Some? && s.disk.slot.value.Evm? then s.(sender := Retrying(s.disk.slot.value)) else s
    case RetryRefresh(l, p, known) =>
      if s.sender.Retrying? && NonceLockFree(s) then DoRetryRefresh(keccak, s, s.sender.copy, l, p, known) else s
    case RetryWrite(fee) =>
      if s.sender.Replacing? && s.sender.copy.Evm? then DoRetryWrite(keccak, s, s.sender.copy, fee) else s
    case Abort => s.(sender := Idle)
    case Crash => s.(sender := Idle, worker := Resting)
    case WorkerRead(l, p) => if NonceLockFree(s) then s.(worker := Reading(s.disk.slot, l, p)) else s
    case WorkerWrite => if s.worker.Reading? then DoWorkerWrite(s) else s
    case WorkerStop => s.(worker := Resting)
    case ForeignBegin(id) => if s.disk.slot.None? then WithSlot(s, Some(Foreign(id, false))) else s
    case ForeignDispatch =>
      if s.disk.slot.Some? && s.disk.slot.value.Foreign? then WithSlot(s, Some(s.disk.slot.value.(dispatched := true))) else s
    case ForeignFinish => if s.disk.slot.Some? && s.disk.slot.value.Foreign? then WithSlot(s, None) else s
  }

  function Run(keccak: Tx -> Hash, actions: seq<Action>): State {
    if actions == [] then INIT
    else Step(keccak, Run(keccak, actions[..|actions| - 1]), actions[|actions| - 1])
  }

  // ---------------------------------------------------------------- what every step keeps

  /** One operation's transactions: the signed original and its fee replacements. */
  predicate Belongs(tx: Tx, p: Pending)
    requires p.Evm?
  {
    tx == p.raw || exists i :: 0 <= i < |p.replacements| && tx == p.replacements[i].raw
  }

  predicate SlotWellFormed(keccak: Tx -> Hash, p: Pending) {
    p.Evm? ==>
      && Decodes(keccak, Candidate(p.hash, p.raw)) && p.raw.nonce == p.nonce
      && Distinct(HashList(p))
      && SameOperations(keccak, p, |p.replacements|)
  }

  predicate AllBelow(log: seq<Tx>, n: nat) { forall i :: 0 <= i < |log| ==> log[i].nonce < n }

  predicate OnlyOwnAt(log: seq<Tx>, p: Pending) {
    p.Evm? ==> forall i :: 0 <= i < |log| ==> log[i].nonce < p.nonce || Belongs(log[i], p)
  }

  /** Nonces never go back, and one nonce only ever carries one call. */
  predicate OneCallPerNonce(log: seq<Tx>) {
    forall i, j :: 0 <= i <= j < |log| ==>
                     log[i].nonce <= log[j].nonce && (log[i].nonce == log[j].nonce ==> log[i].call == log[j].call)
  }

  predicate SenderInv(s: State) {
    var slot := s.disk.slot;
    match s.sender
    case Idle => true
    case Checked => !(slot.Some? && slot.value.Evm?)
    case Allocated(n) => !(slot.Some? && slot.value.Evm?) && AllBelow(s.log, n)
    case Begun(tx) => slot.Some? && slot.value.Evm? && slot.value.raw == tx && AllBelow(s.log, tx.nonce)
    case Ready(tx) => slot.Some? && slot.value.Evm? && Belongs(tx, slot.value) && tx.nonce < s.disk.nonces.nextFloor
    case Waiting => true
    case Clearing => slot.Some? && slot.value.Evm?
    case Retrying(copy) => slot == Some(copy) && copy.Evm?
    case Replacing(copy) => slot == Some(copy) && copy.Evm? && copy.nonce < s.disk.nonces.nextFloor
  }

  predicate Inv(keccak: Tx -> Hash, s: State) {
    && AllBelow(s.log, s.disk.nonces.nextFloor)
    && OneCallPerNonce(s.log)
    && (s.disk.slot.Some? ==> SlotWellFormed(keccak, s.disk.slot.value) && OnlyOwnAt(s.log, s.disk.slot.value))
    && SenderInv(s)
  }

  lemma RefreshKeepsFloor(f: Nonces, slot: Option<Pending>, latest: nat, pending: nat)
    ensures var r := Refreshed(f, slot, latest, pending);
            r.Ok? ==> r.value.nextFloor >= f.nextFloor && (Available(r.value).Ok? ==> Available(r.value).value >= f.nextFloor)
  {
  }

  lemma SendKeeps(keccak: Tx -> Hash, s: State, tx: Tx, acknowledged: bool)
    requires Inv(keccak, s) && s.sender == Ready(tx)
    ensures Inv(keccak, DoSend(s, tx, acknowledged))
  {
    var p := s.disk.slot.value;
    forall i | 0 <= i < |s.log|
      ensures s.log[i].nonce <= tx.nonce && (s.log[i].nonce == tx.nonce ==> s.log[i].call == tx.call)
    {
    }
    var p' := p.(failedSend := true);
    assert HashList(p') == HashList(p);
    assert Belongs(tx, p');
  }

  lemma ReplaceKeeps(keccak: Tx -> Hash, s: State, copy: Pending, fee: nat)
    requires Inv(keccak, s) && s.sender == Replacing(copy)
    ensures Inv(keccak, DoRetryWrite(keccak, s, copy, fee))
  {
    var tx := Tx(copy.nonce, copy.raw.call, fee);
    if keccak(tx) !in HashList(copy) {
      var p' := copy.(replacements := copy.replacements + [Candidate(keccak(tx), tx)]);
      assert HashList(p') == HashList(copy) + [keccak(tx)];
      assert p'.replacements[|copy.replacements|].raw == tx;
      forall i | 0 <= i < |s.log| ensures s.log[i].nonce < p'.nonce || Belongs(s.log[i], p') {
        if exists k :: 0 <= k < |copy.replacements| && s.log[i] == copy.replacements[k].raw {
          var k :| 0 <= k < |copy.replacements| && s.log[i] == copy.replacements[k].raw;
          assert s.log[i] == p'.replacements[k].raw;
        }
      }
    }
  }

  /** Steps that write neither the slot nor the log, and never lower the floor. */
  lemma NonceStepKeeps(keccak: Tx -> Hash, s: State, f: Nonces, sender: Sender, worker: Worker)
    requires Inv(keccak, s) && f.nextFloor >= s.disk.nonces.nextFloor
    requires SenderInv(WithNonces(s, f).(sender := sender))
    ensures Inv(keccak, WithNonces(s, f).(sender := sender, worker := worker))
  {
  }

  lemma AllocateKeeps(keccak: Tx -> Hash, s: State, latest: nat, pending: nat)
    requires Inv(keccak, s) && s.sender.Checked?
    ensures Inv(keccak, DoAllocate(s, latest, pending))
  {
    RefreshKeepsFloor(s.disk.nonces, s.disk.slot, latest, pending);
  }

  lemma BeginKeeps(keccak: Tx -> Hash, s: State, call: Call, fee: nat, approval: Option<Approval>)
    requires Inv(keccak, s) && s.sender.Allocated?
    ensures Inv(keccak, DoBegin(keccak, s, s.sender.nonce, call, fee, approval))
  {
  }

  lemma PrepareKeeps(keccak: Tx -> Hash, s: State)
    requires Inv(keccak, s) && s.sender.Begun?
    ensures Inv(keccak, DoPrepare(keccak, s, s.sender.tx))
  {
  }

  lemma RetryRefreshKeeps(keccak: Tx -> Hash, s: State, latest: nat, pending: nat, known: bool)
    requires Inv(keccak, s) && s.sender.Retrying?
    ensures Inv(keccak, DoRetryRefresh(keccak, s, s.sender.copy, latest, pending, known))
  {
    RefreshKeepsFloor(s.disk.nonces, s.disk.slot, latest, pending);
  }

  lemma WorkerKeeps(keccak: Tx -> Hash, s: State)
    requires Inv(keccak, s) && s.worker.Reading?
    ensures Inv(keccak, DoWorkerWrite(s))
  {
    RefreshKeepsFloor(s.disk.nonces, s.worker.slot, s.worker.latest, s.worker.pending);
    var r := Refreshed(s.disk.nonces, s.worker.slot, s.worker.latest, s.worker.pending);
    if r.Ok? { NonceStepKeeps(keccak, s, r.value, s.sender, Resting); }
  }

  lemma ReceiptKeeps(keccak: Tx -> Hash, s: State, hash: Hash)
    requires Inv(keccak, s) && s.sender.Waiting?
    ensures Inv(keccak, DoReceipt(keccak, s, hash))
  {
  }

  lemma SlotOnlyKeeps(keccak: Tx -> Hash, s: State, a: Action)
    requires Inv(keccak, s) && (a.ForeignBegin? || a.ForeignDispatch? || a.ForeignFinish? || a.Clear?)
    ensures Inv(keccak, Step(keccak, s, a))
  {
  }

  lemma StepKeeps(keccak: Tx -> Hash, s: State, a: Action)
    requires Inv(keccak, s)
    ensures Inv(keccak, Step(keccak, s, a))
  {
    var s' := Step(keccak, s, a);
    if s' == s { return; }
    match a
    case Allocate(l, p) => AllocateKeeps(keccak, s, l, p);
    case Begin(call, fee, ap) => BeginKeeps(keccak, s, call, fee, ap);
    case Prepare => PrepareKeeps(keccak, s);
    case Send(ack) => SendKeeps(keccak, s, s.sender.tx, ack);
    case Receipt(hash) => ReceiptKeeps(keccak, s, hash);
    case RetryRefresh(l, p, known) => RetryRefreshKeeps(keccak, s, l, p, known);
    case RetryWrite(fee) => ReplaceKeeps(keccak, s, s.sender.copy, fee);
    case WorkerWrite => WorkerKeeps(keccak, s);
    case Clear => SlotOnlyKeeps(keccak, s, a);
    case ForeignBegin(_) => SlotOnlyKeeps(keccak, s, a);
    case ForeignDispatch => SlotOnlyKeeps(keccak, s, a);
    case ForeignFinish => SlotOnlyKeeps(keccak, s, a);
    case _ => NonceStepKeeps(keccak, s, s.disk.nonces, s'.sender, s'.worker);
  }

  lemma {:induction false} RunKeeps(keccak: Tx -> Hash, actions: seq<Action>)
    ensures Inv(keccak, Run(keccak, actions))
  {
    if actions != [] {
      RunKeeps(keccak, actions[..|actions| - 1]);
      StepKeeps(keccak, Run(keccak, actions[..|actions| - 1]), actions[|actions| - 1]);
    }
  }

  // ---------------------------------------------------------------- the results

  /**
   In every run, for any RPC answers, crashes and interleavings, two transactions handed to the
   network with the same nonce have the same target, calldata, value and gas limit, and a later
   operation never uses an earlier nonce.
   */
  lemma BroadcastSafety(keccak: Tx -> Hash, actions: seq<Action>, i: nat, j: nat)
    requires i <= j < |Run(keccak, actions).log|
    ensures var log := Run(keccak, actions).log;
            log[i].nonce <= log[j].nonce && (log[i].nonce == log[j].nonce ==> log[i].call == log[j].call)
  {
    RunKeeps(keccak, actions);
  }

  /** The slot still holds the same unresolved operation, with at most further fee replacements. */
  predicate SameSlot(p: Pending, q: Pending) {
    match p
    case Evm(hash, nonce, raw, approval, replacements, _) =>
      && q.Evm? && q.hash == hash && q.nonce == nonce && q.raw == raw && q.approval == approval
      && replacements <= q.replacements
    case Foreign(id, _) => q.Foreign? && q.id == id
  }

  /**
   An occupied slot is never overwritten by another operation: after any step of any run it holds
   the same operation, or it was cleared by that operation's own completion.
   */
  lemma SlotNeverReplaced(keccak: Tx -> Hash, actions: seq<Action>, a: Action)
    ensures var s := Run(keccak, actions);
            var s' := Step(keccak, s, a);
            s.disk.slot.Some? ==>
              || (s'.disk.slot.Some? && SameSlot(s.disk.slot.value, s'.disk.slot.value))
              || (s'.disk.slot.None? && s.disk.slot.value.Evm? && a.Clear? && s.sender.Clearing?)
              || (s'.disk.slot.None? && s.disk.slot.value.Foreign? && a.ForeignFinish?)
  {
    RunKeeps(keccak, actions);
  }

  /** A slot reaches its clearing step only through a receipt of one of its own candidates. */
  lemma ClearedOnlyByOwnReceipt(keccak: Tx -> Hash, actions: seq<Action>, a: Action)
    requires !Run(keccak, actions).sender.Clearing?
    requires Step(keccak, Run(keccak, actions), a).sender.Clearing?
    ensures var s := Run(keccak, actions);
            && a.Receipt? && s.disk.slot.Some? && s.disk.slot.value.Evm?
            && a.hash in HashList(s.disk.slot.value)
  {
  }

  /** Recovery never rejects a record this protocol wrote itself. */
  lemma OwnRecordsValidate(keccak: Tx -> Hash, actions: seq<Action>)
    ensures var slot := Run(keccak, actions).disk.slot;
            slot.Some? && slot.value.Evm? ==> Validated(keccak, slot.value) == Ok(HashList(slot.value))
  {
    RunKeeps(keccak, actions);
  }

  // ---------------------------------------------------------------- complete operations

  /** A quiet state: nothing running, nothing unresolved, and the RPC agrees with the floor. */
  predicate Quiet(s: State, n: nat) {
    && s.sender.Idle? && s.worker.Resting? && s.disk.slot.None?
    && s.disk.nonces.inflight.None? && s.disk.nonces.nextFloor <= n < U64_MAX
  }

  function Sent(keccak: Tx -> Hash, s: State, n: nat, call: Call, fee: nat, approval: Option<Approval>): State {
    var s1 := Step(keccak, Step(keccak, s, CheckSlot), Allocate(n, n));
    var s2 := Step(keccak, Step(keccak, s1, Begin(call, fee, approval)), Prepare);
    Step(keccak, s2, Send(true))
  }

  /** An uninterrupted send hands exactly its own transaction to the network and then frees the slot. */
  lemma CompleteSend(keccak: Tx -> Hash, s: State, n: nat, call: Call, fee: nat, approval: Option<Approval>)
    requires Quiet(s, n)
    ensures var sent := Sent(keccak, s, n, call, fee, approval);
            var tx := Tx(n, call, fee);
            && sent.log == s.log + [tx]
            && sent.disk.slot == Some(Evm(keccak(tx), n, tx, approval, [], false))
            && var done := Step(keccak, Step(keccak, sent, Receipt(keccak(tx))), Clear);
            Quiet(done, n + 1) || n + 1 == U64_MAX
  {
    var tx := Tx(n, call, fee);
    assert HashList(Evm(keccak(tx), n, tx, approval, [], false)) == [keccak(tx)];
  }

  /** The slot of a sent approval whose first transaction may be stuck. */
  predicate Stuck(keccak: Tx -> Hash, s: State, tx: Tx) {
    && s.sender.Idle? && s.worker.Resting?
    && s.disk.slot == Some(Evm(keccak(tx), tx.nonce, tx, Some(Approval(tx.call.target, tx.call.data)), [], false))
    && s.disk.nonces.nextFloor == tx.nonce + 1 && tx.nonce < U64_MAX && tx.call.value == 0
    && s.disk.nonces.inflight == Some(Reserved(tx.nonce, keccak(tx)))
  }

  /** A crash after sending leaves exactly that state. */
  lemma CrashLeavesStuck(keccak: Tx -> Hash, s: State, n: nat, call: Call, fee: nat)
    requires Quiet(s, n) && call.value == 0
    ensures Stuck(keccak, Step(keccak, Sent(keccak, s, n, call, fee, Some(Approval(call.target, call.data))), Crash), Tx(n, call, fee))
  {
    CompleteSend(keccak, s, n, call, fee, Some(Approval(call.target, call.data)));
  }

  /** A stuck approval can be re-sent with another fee: same nonce, same call, both hashes kept. */
  lemma CompleteReplacement(keccak: Tx -> Hash, s: State, tx: Tx, fee: nat)
    requires Stuck(keccak, s, tx) && keccak(tx) != keccak(tx.(fee := fee))
    ensures var r1 := Step(keccak, Step(keccak, s, RetryRead), RetryRefresh(tx.nonce, tx.nonce, false));
            var r2 := Step(keccak, Step(keccak, r1, RetryWrite(fee)), Send(true));
            && r2.log == s.log + [tx.(fee := fee)]
            && r2.disk.slot == Some(s.disk.slot.value.(replacements := [Candidate(keccak(tx.(fee := fee)), tx.(fee := fee))]))
  {
    var p := s.disk.slot.value;
    assert HashList(p) == [keccak(tx)];
    var r1 := Step(keccak, Step(keccak, s, RetryRead), RetryRefresh(tx.nonce, tx.nonce, false));
    assert r1.sender == Replacing(p) && r1.disk.slot == Some(p) && r1.log == s.log;
    assert Tx(p.nonce, p.raw.call, fee) == tx.(fee := fee);
    assert p.replacements + [Candidate(keccak(tx.(fee := fee)), tx.(fee := fee))]
        == [Candidate(keccak(tx.(fee := fee)), tx.(fee := fee))];
  }

  // ---------------------------------------------------------------- the imperative form

  /** The two durable files, with the store's slot discipline. */
  class Store {
    var slot: Option<Pending>
    var nonces: Nonces

    constructor ()
      ensures slot == None && nonces == NO_NONCES
    {
      slot := None;
      nonces := NO_NONCES;
    }

    method Begin(p: Pending) returns (r: Answer<()>)
      modifies this`slot
      ensures r.Ok? <==> old(slot).None?
      ensures slot == if r.Ok? then Some(p) else old(slot)
    {
      if slot.Some? { return Err(SlotTaken); }
      slot := Some(p);
      r := Ok(());
    }

    method Finish()
      modifies this`slot
      ensures slot == None
    {
      slot := None;
    }
  }

  class NonceManager {
    const store: Store

    constructor (store: Store)
      ensures this.store == store
    {
      this.store := store;
    }

    method Refresh(latest: nat, pending: nat) returns (r: Answer<Nonces>)
      modifies store`nonces
      ensures r == Refreshed(old(store.nonces), store.slot, latest, pending)
      ensures store.nonces == if r.Ok? then r.value else old(store.nonces)
    {
      var state := store.nonces;
      if pending < latest { return Err(InconsistentSnapshot); }
      state := state.(latest := latest);
      state := state.(pending := pending);
      state := state.(nextFloor := Max(state.nextFloor, latest));
      if store.slot.Some? && store.slot.value.Evm? {
        var n := store.slot.value.nonce;
        if n >= U64_MAX { return Err(NonceOverflow); }
        state := state.(nextFloor := Max(state.nextFloor, n + 1));
        if state.inflight.None? {
          state := state.(inflight := Some(Reserved(n, store.slot.value.hash)));
        }
      }
      store.nonces := state;
      r := Ok(state);
    }

    method Next(latest: nat, pending: nat) returns (r: Answer<nat>)
      modifies store`nonces
      ensures r.Ok? ==> store.slot.None? && old(store.nonces.nextFloor) <= r.value == latest == pending
      ensures r.Ok? ==> store.nonces == old(store.nonces).(latest := latest, pending := pending, nextFloor := latest)
      ensures var refreshed := Refreshed(old(store.nonces), store.slot, latest, pending);
              store.nonces == if store.slot.None? && refreshed.Ok? then refreshed.value else old(store.nonces)
      ensures r.Ok? <==>
              && store.slot.None? && old(store.nonces.inflight).None?
              && old(store.nonces.nextFloor) <= latest == pending
    {
      if store.slot.Some? { return Err(Unresolved); }
      var f := Refresh(latest, pending);
      if f.Err? { return Err(f.error); }
      r := Available(f.value);
    }

    method Prepared(nonce: nat, hash: Hash) returns (r: Answer<()>)
      modifies store`nonces
      ensures r.Ok? <==> Reserve(old(store.nonces), nonce, hash).Ok?
      ensures store.nonces == if r.Ok? then Reserve(old(store.nonces), nonce, hash).value else old(store.nonces)
    {
      var state := store.nonces;
      if state.inflight.Some? && state.inflight.value.hash != hash { return Err(AlreadyReserved); }
      if nonce >= U64_MAX { return Err(NonceOverflow); }
      state := state.(nextFloor := Max(state.nextFloor, nonce + 1));
      state := state.(inflight := Some(Reserved(nonce, hash)));
      store.nonces := state;
      r := Ok(());
    }

    /** Releases the reservation first, then the slot: two durable writes in this order. */
    method Confirmed(hash: Hash) returns (r: Answer<()>)
      modifies store
      ensures r == CheckConfirmed(Disk(old(store.slot), old(store.nonces)), hash)
      ensures r.Ok? ==> store.slot == None && store.nonces == old(store.nonces).(inflight := None)
      ensures r.Err? ==> store.slot == old(store.slot) && store.nonces == old(store.nonces)
    {
      var state := store.nonces;
      if state.inflight.Some? {
        var op := state.inflight.value;
        if store.slot.None? { return Err(Unresolved); }
        var pending := store.slot.value;
        if !pending.Evm? { return Err(ReservationMismatch); }
        if !(pending.hash == op.hash && pending.nonce == op.nonce) { return Err(ReservationMismatch); }
        var hs := Hashes(pending);
        if hs.Err? { return Err(DuplicateHash); }
        if hash !in hs.value { return Err(UnknownReceipt); }
      }
      store.nonces := state.(inflight := None);
      store.Finish();
      r := Ok(());
    }
  }

  /** The candidate hashes in order, refused when two coincide. */
  method Hashes(p: Pending) returns (r: Answer<seq<Hash>>)
    requires p.Evm?
    ensures r == if Distinct(HashList(p)) then Ok(HashList(p)) else Err(DuplicateHash)
  {
    var values := [p.hash];
    for i := 0 to |p.replacements|
      invariant values == HashList(p)[..i + 1]
    {
      values := values + [p.replacements[i].hash];
    }
    assert values == HashList(p);
    var out: seq<Hash> := [];
    for i := 0 to |values|
      invariant out == values[..i] && Distinct(out)
    {
      if values[i] in out {
        assert !Distinct(HashList(p)) by {
          var k :| 0 <= k < |out| && out[k] == values[i];
          assert HashList(p)[k] == HashList(p)[i];
        }
        return Err(DuplicateHash);
      }
      out := out + [values[i]];
    }
    assert out == values;
    r := Ok(out);
  }

  method ValidatedPendingHashes(keccak: Tx -> Hash, p: Pending) returns (r: Answer<seq<Hash>>)
    ensures r == Validated(keccak, p)
  {
    if !p.Evm? { return Err(NotEvm); }
    if p.hash != keccak(p.raw) || p.raw.nonce != p.nonce { return Err(BadSignature); }
    r := Hashes(p);
    if r.Err? { return; }
    for i := 0 to |p.replacements|
      invariant r == Ok(HashList(p))
      invariant SameOperations(keccak, p, i)
    {
      var c := p.replacements[i];
      if c.hash != keccak(c.raw) || c.raw.nonce != p.nonce || c.raw.call != p.raw.call {
        assert !SameOperation(keccak, p, p.replacements[i]);
        return Err(BadSignature);
      }
    }
  }
}
