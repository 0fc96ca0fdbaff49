/**
 The exchange order journal: a write-ahead protocol around one POST, its recovery, and the
 compaction of terminal orders into an immutable archive.

 `Step` is one durable write, one POST or one exchange answer; a crash may fall between any two.
 Exchange answers are arbitrary. The process runs one exchange task at a time.
 */
module OrderJournal {
  import opened Common

  /** A client order ID: `key` is the ID folded to lower case, `casing` its spelling. */
  datatype Cloid = Cloid(key: nat, casing: nat)

  datatype Wire = Wire(id: Cloid, body: nat)

  datatype Status =
    | Prepared | LegacyUnverified | Unknown | Open | Filled | Rejected | NotSubmitted
    | Cancelled(code: nat)     // the other statuses the source lists as terminal
    | Unlisted(code: nat)      // anything else the exchange may answer

  predicate TerminalStatus(s: Status) { s.Filled? || s.NotSubmitted? || s.Rejected? || s.Cancelled? }

  /** `wire` is absent on an entry imported from an older release. */
  datatype Order = Order(
    id: Cloid, oid: Option<nat>, managed: bool, submitted: nat, observed: nat,
    wire: Option<Wire>, status: Status, terminal: bool)

  type Ledger = map<Cloid, Order>
  type Archive = map<nat, Order>

  datatype Request = Orders(wires: seq<Wire>) | OtherAction(kind: nat)

  /** pending.json; `submitting` is the durable dispatch state. */
  datatype Pending = Pending(request: Request, nonce: nat, submitting: bool, hedge: Option<Cloid>)

  datatype Disk = Disk(slot: Option<Pending>, pointer: Option<Cloid>, ledger: Ledger, archive: Archive, lastNonce: nat)

  datatype Ack = Resting(oid: nat) | AckFilled(oid: nat) | AckError | Unrecognized

  datatype Response = AllRejected | Statuses(acks: seq<Ack>)

  /** An order-status answer: the exchange's row for the order, or nothing. */
  datatype Found = Found(id: Option<Cloid>, oid: nat, status: Status) | Missing

  datatype Error = IdUsed | IncompleteAck | UnknownAck | UnexpectedEvidence | IdMismatch | OidChanged | TerminalRegress | UnknownOrder | ArchiveDiffers

  type Answer<T> = Result<T, Error>

  // ---------------------------------------------------------------- what each call computes

  function Wires(r: Request): seq<Wire> { if r.Orders? then r.wires else [] }

  predicate HasKey(ws: seq<Wire>, key: nat) { exists i :: 0 <= i < |ws| && ws[i].id.key == key }

  predicate DistinctKeys(ws: seq<Wire>) { forall i, j :: 0 <= i < j < |ws| ==> ws[i].id.key != ws[j].id.key }

  /** No entry of the ledger or the archive uses one of these IDs, in any spelling. */
  predicate Unused(d: Disk, ws: seq<Wire>) {
    && (forall id :: id in d.ledger ==> !HasKey(ws, id.key))
    && (forall i :: 0 <= i < |ws| ==> ws[i].id.key !in d.archive)
  }

  predicate NewIds(d: Disk, ws: seq<Wire>) { DistinctKeys(ws) && Unused(d, ws) }

  function NewOrder(w: Wire, nonce: nat, managed: bool): Order {
    Order(w.id, None, managed, nonce, 0, Some(w), Prepared, false)
  }

  function Record(l: Ledger, w: Wire, nonce: nat, managed: bool): Answer<Ledger> {
    if w.id !in l then Ok(l[w.id := NewOrder(w, nonce, managed)])
    else if l[w.id].wire.None? then Ok(l[w.id := l[w.id].(wire := Some(w), submitted := nonce)])
    else if l[w.id].wire == Some(w) && l[w.id].submitted == nonce then Ok(l)
    else Err(IdUsed)
  }

  predicate IsHedge(d: Disk, id: Cloid) {
    d.pointer == Some(id) || (d.slot.Some? && d.slot.value.hedge == Some(id))
  }

  /** Records the first `n` intents of a request. */
  function RecordAll(d: Disk, ws: seq<Wire>, nonce: nat, n: nat): Answer<Ledger>
    requires n <= |ws|
  {
    if n == 0 then Ok(d.ledger)
    else
      var l :- RecordAll(d, ws, nonce, n - 1);
      Record(l, ws[n - 1], nonce, IsHedge(d, ws[n - 1].id))
  }

  function PreparedLedger(d: Disk, ws: seq<Wire>, nonce: nat): Answer<Ledger> {
    if exists i :: 0 <= i < |ws| && ws[i].id.key in d.archive then Err(IdUsed)
    else RecordAll(d, ws, nonce, |ws|)
  }

  function AckOrder(o: Order, a: Ack, now: nat): Answer<Order> {
    match a
    case AckError => Ok(o.(status := Rejected, terminal := true, oid := None, observed := now))
    case Resting(oid) => Ok(o.(status := Open, terminal := false, oid := Some(oid), observed := now))
    case AckFilled(oid) => Ok(o.(status := Filled, terminal := true, oid := Some(oid), observed := now))
    case Unrecognized => Err(UnknownAck)
  }

  function AckAt(r: Response, i: nat): Ack
    requires r.Statuses? ==> i < |r.acks|
  {
    if r.AllRejected? then AckError else r.acks[i]
  }

  function AckAll(l: Ledger, ws: seq<Wire>, r: Response, now: nat, n: nat): Answer<Ledger>
    requires n <= |ws| && (r.Statuses? ==> |r.acks| == |ws|)
  {
    if n == 0 then Ok(l)
    else
      var l' :- AckAll(l, ws, r, now, n - 1);
      if ws[n - 1].id !in l' then Err(UnknownOrder)
      else
        var o :- AckOrder(l'[ws[n - 1].id], AckAt(r, n - 1), now);
        Ok(l'[ws[n - 1].id := o])
  }

  function Acknowledged(l: Ledger, ws: seq<Wire>, r: Response, now: nat): Answer<Ledger> {
    if r.Statuses? && |r.acks| != |ws| then Err(IncompleteAck) else AckAll(l, ws, r, now, |ws|)
  }

  function Retire(l: Ledger, id: Cloid, now: nat): Answer<Ledger> {
    if id !in l then Ok(l)
    else if l[id].oid.Some? || !(l[id].status.Prepared? || l[id].status.NotSubmitted?) then Err(UnexpectedEvidence)
    else Ok(l[id := l[id].(status := NotSubmitted, terminal := true, observed := now)])
  }

  function RetireAll(l: Ledger, ws: seq<Wire>, now: nat, n: nat): Answer<Ledger>
    requires n <= |ws|
  {
    if n == 0 then Ok(l)
    else
      var l' :- RetireAll(l, ws, now, n - 1);
      Retire(l', ws[n - 1].id, now)
  }

  /** One exchange observation of a known order. */
  function Observe(o: Order, f: Found, now: nat): Answer<Order> {
    if f.Missing? then
      // absence is no evidence: it never erases a receipt
      Ok(if o.oid.Some? || o.terminal then o else o.(status := Unknown, terminal := false, observed := now))
    else if f.id.Some? && f.id.value.key != o.id.key then Err(IdMismatch)
    else if o.oid.Some? && o.oid.value != f.oid then Err(OidChanged)
    else if o.terminal && o.status != f.status then Err(TerminalRegress)
    else Ok(o.(oid := Some(f.oid), status := f.status, terminal := TerminalStatus(f.status), observed := now))
  }

  function LegacyOrder(id: Cloid): Order { Order(id, None, true, 0, 0, None, LegacyUnverified, false) }

  predicate Compactable(l: Ledger, pointer: Option<Cloid>, id: Cloid) {
    id in l && l[id].terminal && pointer != Some(id)
  }

  function CompactableSet(l: Ledger, pointer: Option<Cloid>): set<Cloid> {
    set id | id in l && Compactable(l, pointer, id)
  }

  /** Age order: last observation, then the ID. */
  predicate Older(l: Ledger, a: Cloid, b: Cloid)
    requires a in l && b in l
  {
    || l[a].observed < l[b].observed
    || (l[a].observed == l[b].observed && (a.key < b.key || (a.key == b.key && a.casing <= b.casing)))
  }

  /** The orders a compaction moves out: all but the `keep` youngest terminal ones. */
  predicate IsVictims(l: Ledger, pointer: Option<Cloid>, keep: nat, v: seq<Cloid>) {
    && (forall i :: 0 <= i < |v| ==> Compactable(l, pointer, v[i]))
    && (forall i, j :: 0 <= i < j < |v| ==> v[i] != v[j])
    && |v| == SatSub(|CompactableSet(l, pointer)|, keep)
    && (forall b :: b in l && Compactable(l, pointer, b) && b !in v ==> forall i :: 0 <= i < |v| ==> Older(l, v[i], b))
  }

  // ---------------------------------------------------------------- the protocol

  datatype Task =
    | Idle
    | Checked(request: Request, hedge: Option<Cloid>)
    | Begun(p: Pending)            // slot written
    | Pointed(p: Pending)          // hedge pointer written
    | Recorded(p: Pending)         // intents in the ledger
    | Dispatching(p: Pending)      // slot says submitting; the POST comes next
    | Posted(p: Pending)
    | Acked(p: Pending)
    | Retiring(p: Pending)         // recovery of a pre-dispatch slot: intents recorded
    | Retired(p: Pending)          // marked not submitted
    | Released(p: Pending)         // pointer cleared
    | Resolving(p: Pending, next: nat)
    | Compacting(todo: seq<Cloid>, local: Ledger)

  datatype Post = Post(nonce: nat, wires: seq<Wire>)

  datatype State = State(disk: Disk, task: Task, posts: seq<Post>)

  datatype Action =
    | Validate(request: Request, hedge: Option<Cloid>)
    | Begin(now: nat)
    | Point
    | RecordIntents
    | MarkSubmitting
    | PostRequest
    | Answer(response: Response, now: nat)
    | Finish
    | Reconcile
    | RetireIntents(now: nat)
    | ReleasePointer
    | ResolveNext(found: Found, now: nat)
    | FinishResolved
    | FinishOther
    | Refresh(id: Cloid, found: Found, now: nat)
    | ImportLegacy
    | ClearPointer
    | CompactStart(victims: seq<Cloid>)
    | ArchiveNext(stored: bool)
    | CompactWrite
    | Crash

  const INIT := State(Disk(None, None, map[], map[], 0), Idle, [])

  function WithLedger(s: State, l: Ledger): State { s.(disk := s.disk.(ledger := l)) }

  function WithSlot(s: State, p: Option<Pending>): State { s.(disk := s.disk.(slot := p)) }

  function DoBegin(s: State, request: Request, hedge: Option<Cloid>, now: nat): State {
    var n := Max(now, s.disk.lastNonce + 1);
    var s' := s.(disk := s.disk.(lastNonce := n));
    if s.disk.slot.Some? then s'.(task := Idle)
    else
      var p := Pending(request, n, false, hedge);
      WithSlot(s', Some(p)).(task := Begun(p))
  }

  function DoRecord(s: State, p: Pending, next: Task): State {
    match PreparedLedger(s.disk, Wires(p.request), p.nonce)
    case Err(_) => s.(task := Idle)
    case Ok(l) => WithLedger(s, l).(task := next)
  }

  function DoReconcile(s: State, p: Pending): State {
    if !p.submitting then DoRecord(s, p, Retiring(p))
    else if p.request.Orders? then DoRecord(s, p, Resolving(p, 0))
    else s
  }

  /** Recovery asks for one order; an answer without a row is not an observation. */
  function DoResolve(s: State, p: Pending, i: nat, f: Found, now: nat): State
    requires i < |Wires(p.request)|
  {
    var id := Wires(p.request)[i].id;
    if id !in s.disk.ledger || (!s.disk.ledger[id].terminal && f.Missing?) then s.(task := Idle)
    else if s.disk.ledger[id].terminal then s.(task := Resolving(p, i + 1))
    else
      match Observe(s.disk.ledger[id], f, now)
      case Err(_) => s.(task := Idle)
      case Ok(o) =>
        WithLedger(s, s.disk.ledger[id := o]).(
        task := if f.status.Open? || TerminalStatus(f.status) then Resolving(p, i + 1) else Idle)
  }

  function DoArchive(s: State, todo: seq<Cloid>, local: Ledger, stored: bool): State
    requires |todo| > 0
  {
    var id := todo[0];
    if id !in local || !stored then s.(task := Idle)
    else if id.key in s.disk.archive && s.disk.archive[id.key] != local[id] then s.(task := Idle)
    else
      s.(disk := s.disk.(archive := s.disk.archive[id.key := local[id]]),
      task := Compacting(todo[1..], local - {id}))
  }

  /** A disabled action leaves the state unchanged. `keep` is the configured number of hot terminal orders. */
  function Step(keep: nat, s: State, a: Action): State {
    match a
    case Validate(r, h) =>
      if s.task.Idle? && NewIds(s.disk, Wires(r)) && (h.Some? ==> exists i :: 0 <= i < |Wires(r)| && Wires(r)[i].id == h.value)
      then s.(task := Checked(r, h)) else s
    case Begin(now) => if s.task.Checked? then DoBegin(s, s.task.request, s.task.hedge, now) else s
    case Point =>
      if s.task.Begun? then
        s.(disk := if s.task.p.hedge.Some? then s.disk.(pointer := s.task.p.hedge) else s.disk, task := Pointed(s.task.p))
      else s
    case RecordIntents => if s.task.Pointed? then DoRecord(s, s.task.p, Recorded(s.task.p)) else s
    case MarkSubmitting =>
      if s.task.Recorded? then
        var p := s.task.p.(submitting := true);
        WithSlot(s, Some(p)).(task := Dispatching(p))
      else s
    case PostRequest =>
      if s.task.Dispatching? then
        s.(posts := s.posts + [Post(s.task.p.nonce, Wires(s.task.p.request))], task := Posted(s.task.p))
      else s
    case Answer(r, now) =>
      if s.task.Posted? then
        match Acknowledged(s.disk.ledger, Wires(s.task.p.request), r, now)
        case Err(_) => s.(task := Idle)
        case Ok(l) => WithLedger(s, l).(task := Acked(s.task.p))
      else s
    case Finish => if s.task.Acked? || s.task.Released? then WithSlot(s, None).(task := Idle) else s
    case Reconcile => if s.task.Idle? && s.disk.slot.Some? then DoReconcile(s, s.disk.slot.value) else s
    case RetireIntents(now) =>
      if s.task.Retiring? then
        var ws := Wires(s.task.p.request);
        match RetireAll(s.disk.ledger, ws, now, |ws|)
        case Err(_) => s.(task := Idle)
        case Ok(l) => WithLedger(s, l).(task := Retired(s.task.p))
      else s
    case ReleasePointer =>
      if s.task.Retired? then s.(disk := s.disk.(pointer := None), task := Released(s.task.p)) else s
    case ResolveNext(f, now) =>
      if s.task.Resolving? && s.task.next < |Wires(s.task.p.request)| then DoResolve(s, s.task.p, s.task.next, f, now) else s
    case FinishResolved =>
      if s.task.Resolving? && s.task.next == |Wires(s.task.p.request)| then WithSlot(s, None).(task := Idle) else s
    case FinishOther =>
      if s.task.Idle? && s.disk.slot.Some? && s.disk.slot.value.submitting && s.disk.slot.value.request.OtherAction?
      then WithSlot(s, None) else s
    case Refresh(id, f, now) =>
      if s.task.Idle? && id in s.disk.ledger && !s.disk.ledger[id].terminal && f.Found? then
        match Observe(s.disk.ledger[id], f, now)
        case Err(_) => s
        case Ok(o) => WithLedger(s, s.disk.ledger[id := o])
      else s
    case ImportLegacy =>
      if s.task.Idle? && s.disk.pointer.Some? && s.disk.pointer.value !in s.disk.ledger
      then WithLedger(s, s.disk.ledger[s.disk.pointer.value := LegacyOrder(s.disk.pointer.value)]) else s
    case ClearPointer => if s.task.Idle? then s.(disk := s.disk.(pointer := None)) else s
    case CompactStart(v) =>
      if s.task.Idle? && s.disk.slot.None? && IsVictims(s.disk.ledger, s.disk.pointer, keep, v)
      then s.(task := Compacting(v, s.disk.ledger)) else s
    case ArchiveNext(stored) =>
      if s.task.Compacting? && |s.task.todo| > 0 then DoArchive(s, s.task.todo, s.task.local, stored) else s
    case CompactWrite =>
      if s.task.Compacting? && s.task.todo == [] then WithLedger(s, s.task.local).(task := Idle) else s
    case Crash => s.(task := Idle)
  }

  function Run(keep: nat, actions: seq<Action>): State {
    if actions == [] then INIT
    else Step(keep, Run(keep, actions[..|actions| - 1]), actions[|actions| - 1])
  }

  // ---------------------------------------------------------------- what every step keeps

  ghost predicate PostedKey(posts: seq<Post>, key: nat) { exists i :: 0 <= i < |posts| && HasKey(posts[i].wires, key) }

  ghost predicate PostsOnce(posts: seq<Post>) {
    && (forall i :: 0 <= i < |posts| ==> DistinctKeys(posts[i].wires))
    && (forall i, j, k, m :: 0 <= i < j < |posts| && 0 <= k < |posts[i].wires| && 0 <= m < |posts[j].wires| ==>
                               posts[i].wires[k].id.key != posts[j].wires[m].id.key)
  }

  ghost predicate RecordedKey(d: Disk, key: nat) { key in d.archive || exists id :: id in d.ledger && id.key == key }

  ghost predicate NamesWire(ws: seq<Wire>, id: Cloid) { exists i :: 0 <= i < |ws| && ws[i].id == id }

  ghost predicate LedgerInv(l: Ledger, archive: Archive) {
    && (forall id :: id in l ==> l[id].id == id)
    && (forall a, b :: a in l && b in l && a.key == b.key ==> a == b)
    && (forall id :: id in l ==> (l[id].terminal <==> TerminalStatus(l[id].status)))
    && (forall id :: id in l && id.key in archive ==> archive[id.key] == l[id])
  }

  ghost predicate ArchiveInv(archive: Archive) {
    forall k :: k in archive ==> archive[k].terminal && TerminalStatus(archive[k].status) && archive[k].id.key == k
  }

  ghost predicate SlotInv(d: Disk, p: Pending) {
    var ws := Wires(p.request);
    && DistinctKeys(ws)
    && (forall i :: 0 <= i < |ws| ==> ws[i].id.key !in d.archive)
    && (forall id, i :: id in d.ledger && 0 <= i < |ws| && id.key == ws[i].id.key ==> id == ws[i].id)
    && (p.hedge.Some? ==> NamesWire(ws, p.hedge.value))
  }

  ghost predicate DiskInv(d: Disk) {
    && LedgerInv(d.ledger, d.archive)
    && ArchiveInv(d.archive)
    && (d.slot.Some? ==> SlotInv(d, d.slot.value))
    && (d.pointer.Some? ==>
          d.pointer.value in d.ledger || (d.slot.Some? && NamesWire(Wires(d.slot.value.request), d.pointer.value)))
  }

  ghost predicate NonePosted(posts: seq<Post>, ws: seq<Wire>) {
    forall i :: 0 <= i < |ws| ==> !PostedKey(posts, ws[i].id.key)
  }

  ghost predicate PostInv(s: State) {
    && PostsOnce(s.posts)
    && (forall i, k :: 0 <= i < |s.posts| && 0 <= k < |s.posts[i].wires| ==> RecordedKey(s.disk, s.posts[i].wires[k].id.key))
    && (s.disk.slot.Some? && !s.disk.slot.value.submitting ==> NonePosted(s.posts, Wires(s.disk.slot.value.request)))
  }

  ghost predicate JustPrepared(l: Ledger, ws: seq<Wire>) {
    forall i :: 0 <= i < |ws| ==>
                  ws[i].id in l && l[ws[i].id].status.Prepared? && l[ws[i].id].oid.None? && !l[ws[i].id].terminal
  }

  ghost predicate AllRecorded(l: Ledger, ws: seq<Wire>) { forall i :: 0 <= i < |ws| ==> ws[i].id in l }

  ghost predicate Leaving(l: Ledger, local: Ledger, todo: seq<Cloid>, r: Cloid) { r in l && (r !in local || r in todo) }

  ghost predicate OlderIn(l: Ledger, a: Cloid, b: Cloid) { a in l && b in l && Older(l, a, b) }

  /** A compaction's working copy: what left it is in the archive, unchanged and unneeded. */
  ghost predicate LocalInv(keep: nat, d: Disk, todo: seq<Cloid>, local: Ledger) {
    && d.slot.None?
    && (forall id :: id in local ==> id in d.ledger && local[id] == d.ledger[id])
    && (forall id :: id in d.ledger && id !in local ==> Compactable(d.ledger, d.pointer, id) && id.key in d.archive)
    && (forall i :: 0 <= i < |todo| ==> Compactable(local, d.pointer, todo[i]))
    && (forall i, j :: 0 <= i < j < |todo| ==> todo[i] != todo[j])
    && |CompactableSet(local, d.pointer)| <= keep + |todo|
    && (forall r, b :: Leaving(d.ledger, local, todo, r) && Compactable(local, d.pointer, b) && b !in todo ==> OlderIn(d.ledger, r, b))
  }

  ghost predicate TaskInv(keep: nat, s: State) {
    var d := s.disk;
    match s.task
    case Idle => true
    case Checked(r, h) => NewIds(d, Wires(r)) && (h.Some? ==> NamesWire(Wires(r), h.value))
    case Begun(p) => d.slot == Some(p) && !p.submitting && Unused(d, Wires(p.request))
    case Pointed(p) => d.slot == Some(p) && !p.submitting && Unused(d, Wires(p.request))
    case Recorded(p) => d.slot == Some(p) && !p.submitting && JustPrepared(d.ledger, Wires(p.request))
    case Dispatching(p) =>
      d.slot == Some(p) && p.submitting && JustPrepared(d.ledger, Wires(p.request)) && NonePosted(s.posts, Wires(p.request))
    case Posted(p) => d.slot == Some(p) && p.submitting && JustPrepared(d.ledger, Wires(p.request))
    case Acked(p) => d.slot == Some(p) && AllRecorded(d.ledger, Wires(p.request))
    case Retiring(p) => d.slot == Some(p) && !p.submitting && AllRecorded(d.ledger, Wires(p.request))
    case Retired(p) => d.slot == Some(p) && !p.submitting && AllRecorded(d.ledger, Wires(p.request))
    case Released(p) => d.slot == Some(p) && d.pointer.None?
    case Resolving(p, next) => d.slot == Some(p) && AllRecorded(d.ledger, Wires(p.request))
    case Compacting(todo, local) => LocalInv(keep, d, todo, local)
  }

  ghost predicate Inv(keep: nat, s: State) { DiskInv(s.disk) && PostInv(s) && TaskInv(keep, s) }

  // -------------------------------- the folds over a request

  lemma NamesPrefix(ws: seq<Wire>, n: nat, id: Cloid)
    requires n < |ws|
    ensures NamesWire(ws[..n + 1], id) <==> NamesWire(ws[..n], id) || ws[n].id == id
  {
    assert ws[..n + 1] == ws[..n] + [ws[n]];
    if NamesWire(ws[..n], id) {
      var i :| 0 <= i < |ws[..n]| && ws[..n][i].id == id;
      assert ws[..n + 1][i].id == id;
    }
    assert ws[..n + 1][n].id == ws[n].id;
  }

  /** A record kept, up to the details a legacy import lacked, and only for a named ID. */
  ghost predicate KeptRecord(ws: seq<Wire>, o: Order, o': Order) {
    && o'.id == o.id && o'.oid == o.oid && o'.status == o.status && o'.terminal == o.terminal
    && (o' != o ==> NamesWire(ws, o.id))
  }

  ghost predicate FreshRecord(ws: seq<Wire>, id: Cloid, o: Order) {
    NamesWire(ws, id) && o.id == id && o.status.Prepared? && o.oid.None? && !o.terminal
  }

  lemma RecordKept(l: Ledger, w: Wire, nonce: nat, managed: bool, id: Cloid)
    requires id in l && Record(l, w, nonce, managed).Ok?
    ensures var l' := Record(l, w, nonce, managed).value;
            && id in l' && l'[id].id == l[id].id && l'[id].oid == l[id].oid
            && l'[id].status == l[id].status && l'[id].terminal == l[id].terminal
            && (l'[id] != l[id] ==> id == w.id)
  {
  }

  /** What recording the intents `ws` does to a ledger. */
  ghost predicate RecordShape(before: Ledger, ws: seq<Wire>, l: Ledger) {
    && (forall id :: id in before ==> id in l && KeptRecord(ws, before[id], l[id]))
    && (forall id :: id in l && id !in before ==> FreshRecord(ws, id, l[id]))
    && AllRecorded(l, ws)
  }

  lemma RecordOneShape(before: Ledger, ws: seq<Wire>, n: nat, l: Ledger, nonce: nat, managed: bool)
    requires n < |ws| && RecordShape(before, ws[..n], l) && Record(l, ws[n], nonce, managed).Ok?
    requires forall id :: id in before ==> before[id].id == id
    ensures RecordShape(before, ws[..n + 1], Record(l, ws[n], nonce, managed).value)
  {
    var l' := Record(l, ws[n], nonce, managed).value;
    forall id | id in before ensures id in l' && KeptRecord(ws[..n + 1], before[id], l'[id]) {
      NamesPrefix(ws, n, id);
      RecordKept(l, ws[n], nonce, managed, id);
    }
    forall id | id in l' && id !in before ensures FreshRecord(ws[..n + 1], id, l'[id]) {
      NamesPrefix(ws, n, id);
      if id in l { RecordKept(l, ws[n], nonce, managed, id); }
    }
    var done := ws[..n + 1];
    forall i | 0 <= i < |done| ensures done[i].id in l' {
      if i < n { assert ws[..n][i].id in l; }
    }
  }

  lemma {:induction false} RecordAllSpec(d: Disk, ws: seq<Wire>, nonce: nat, n: nat)
    requires n <= |ws| && RecordAll(d, ws, nonce, n).Ok?
    requires forall id :: id in d.ledger ==> d.ledger[id].id == id
    ensures RecordShape(d.ledger, ws[..n], RecordAll(d, ws, nonce, n).value)
  {
    if n > 0 {
      RecordAllSpec(d, ws, nonce, n - 1);
      RecordOneShape(d.ledger, ws, n - 1, RecordAll(d, ws, nonce, n - 1).value, nonce, IsHedge(d, ws[n - 1].id));
    }
  }

  /** Intents with new IDs are all recorded, as freshly prepared orders. */
  lemma {:induction false} RecordAllFresh(d: Disk, ws: seq<Wire>, nonce: nat, n: nat)
    requires n <= |ws| && NewIds(d, ws)
    ensures RecordAll(d, ws, nonce, n).Ok?
    ensures forall i :: n <= i < |ws| ==> ws[i].id !in RecordAll(d, ws, nonce, n).value
  {
    assert forall i :: 0 <= i < |ws| ==> HasKey(ws, ws[i].id.key);
    if n > 0 {
      RecordAllFresh(d, ws, nonce, n - 1);
      assert forall i :: n <= i < |ws| ==> ws[i].id.key != ws[n - 1].id.key;
    }
  }

  lemma {:induction false} AckAllSpec(l: Ledger, ws: seq<Wire>, r: Response, now: nat, n: nat)
    requires n <= |ws| && (r.Statuses? ==> |r.acks| == |ws|) && AckAll(l, ws, r, now, n).Ok?
    ensures var l' := AckAll(l, ws, r, now, n).value;
            && l'.Keys == l.Keys
            && (forall id :: id in l ==>
                               || l'[id] == l[id]
                               || (NamesWire(ws[..n], id) && l'[id].id == l[id].id && !l'[id].status.NotSubmitted?
                                   && (l'[id].terminal <==> TerminalStatus(l'[id].status))))
  {
    if n > 0 {
      AckAllSpec(l, ws, r, now, n - 1);
      forall id ensures NamesWire(ws[..n], id) <==> NamesWire(ws[..n - 1], id) || ws[n - 1].id == id {
        NamesPrefix(ws, n - 1, id);
      }
    }
  }

  lemma {:induction false} RetireAllSpec(l: Ledger, ws: seq<Wire>, now: nat, n: nat)
    requires n <= |ws| && RetireAll(l, ws, now, n).Ok?
    ensures var l' := RetireAll(l, ws, now, n).value;
            && l'.Keys == l.Keys
            && (forall id :: id in l ==>
                               || l'[id] == l[id]
                               || (NamesWire(ws[..n], id) && l[id].oid.None? && (l[id].status.Prepared? || l[id].status.NotSubmitted?)
                                   && l'[id] == l[id].(status := NotSubmitted, terminal := true, observed := now)))
  {
    if n > 0 {
      RetireAllSpec(l, ws, now, n - 1);
      forall id ensures NamesWire(ws[..n], id) <==> NamesWire(ws[..n - 1], id) || ws[n - 1].id == id {
        NamesPrefix(ws, n - 1, id);
      }
    }
  }

  // -------------------------------- one step

  /** The stored record of an ID, hot or archived. */
  function Lookup(d: Disk, id: Cloid): Option<Order> {
    if id in d.ledger then Some(d.ledger[id]) else if id.key in d.archive then Some(d.archive[id.key]) else None
  }

  /** A terminal status and a known exchange order ID never change. */
  ghost predicate Stable(o: Order, o': Order) {
    (o.terminal ==> o'.terminal && o'.status == o.status) && (o.oid.Some? ==> o'.oid == o.oid)
  }

  ghost predicate DiskStable(d: Disk, d': Disk) {
    && (forall id :: id in d.ledger ==> Lookup(d', id).Some? && Stable(d.ledger[id], Lookup(d', id).value))
    && (forall k :: k in d.archive ==> k in d'.archive && d'.archive[k] == d.archive[k])
  }

  /** Ledger writes of a running request: entries only appear, for IDs the slot names. */
  ghost predicate LedgerGrows(d: Disk, l: Ledger) {
    && LedgerInv(l, d.archive)
    && (forall id :: id in d.ledger ==> id in l)
    && (forall id :: id in l && id !in d.ledger ==> d.slot.Some? && NamesWire(Wires(d.slot.value.request), id))
  }

  lemma GrowKeeps(s: State, l: Ledger)
    requires DiskInv(s.disk) && PostInv(s) && LedgerGrows(s.disk, l)
    ensures DiskInv(WithLedger(s, l).disk) && PostInv(WithLedger(s, l))
  {
    var d' := WithLedger(s, l).disk;
    forall i, k | 0 <= i < |s.posts| && 0 <= k < |s.posts[i].wires|
      ensures RecordedKey(d', s.posts[i].wires[k].id.key)
    {
      var key := s.posts[i].wires[k].id.key;
      assert RecordedKey(s.disk, key);
      if key !in s.disk.archive {
        var id :| id in s.disk.ledger && id.key == key;
        assert id in l;
      }
    }
  }

  /** Entries of the slot's own IDs are not archived, so they may still change. */
  lemma NamedNotArchived(d: Disk, p: Pending, id: Cloid)
    requires SlotInv(d, p) && NamesWire(Wires(p.request), id)
    ensures id.key !in d.archive
  {
  }

  lemma RecordHasShape(d: Disk, p: Pending)
    requires DiskInv(d) && PreparedLedger(d, Wires(p.request), p.nonce).Ok?
    ensures RecordShape(d.ledger, Wires(p.request), PreparedLedger(d, Wires(p.request), p.nonce).value)
  {
    var ws := Wires(p.request);
    RecordAllSpec(d, ws, p.nonce, |ws|);
    assert ws[..|ws|] == ws;
  }

  lemma ShapeKeysUnique(d: Disk, p: Pending, l: Ledger, a: Cloid, b: Cloid)
    requires DiskInv(d) && d.slot == Some(p) && RecordShape(d.ledger, Wires(p.request), l)
    requires a in l && b in l && a.key == b.key
    ensures a == b
  {
    if a !in d.ledger { assert FreshRecord(Wires(p.request), a, l[a]); }
    if b !in d.ledger { assert FreshRecord(Wires(p.request), b, l[b]); }
  }

  lemma ShapeGrows(d: Disk, p: Pending, l: Ledger)
    requires DiskInv(d) && d.slot == Some(p) && RecordShape(d.ledger, Wires(p.request), l)
    ensures LedgerGrows(d, l) && DiskStable(d, d.(ledger := l))
  {
    var ws := Wires(p.request);
    forall a, b | a in l && b in l && a.key == b.key ensures a == b { ShapeKeysUnique(d, p, l, a, b); }
    forall id | id in l ensures l[id].id == id && (l[id].terminal <==> TerminalStatus(l[id].status)) {
      if id !in d.ledger { assert FreshRecord(ws, id, l[id]); }
    }
    forall id | id in l && id.key in d.archive ensures d.archive[id.key] == l[id] {
      if NamesWire(ws, id) { NamedNotArchived(d, p, id); }
    }
  }

  lemma ShapeOfNew(d: Disk, ws: seq<Wire>, l: Ledger)
    requires RecordShape(d.ledger, ws, l) && Unused(d, ws)
    ensures JustPrepared(l, ws)
  {
    forall i | 0 <= i < |ws| ensures ws[i].id !in d.ledger { assert HasKey(ws, ws[i].id.key); }
  }

  /** Edits of the slot's own records, one by one stable, keep the ledger sound. */
  lemma EditGrows(d: Disk, p: Pending, l: Ledger)
    requires DiskInv(d) && d.slot == Some(p) && l.Keys == d.ledger.Keys
    requires forall id :: id in l && l[id] != d.ledger[id] ==>
                            && NamesWire(Wires(p.request), id) && l[id].id == d.ledger[id].id
                            && (l[id].terminal <==> TerminalStatus(l[id].status)) && Stable(d.ledger[id], l[id])
    ensures LedgerGrows(d, l) && DiskStable(d, d.(ledger := l))
  {
    forall id | id in l && id.key in d.archive ensures d.archive[id.key] == l[id] {
      if NamesWire(Wires(p.request), id) { NamedNotArchived(d, p, id); }
    }
  }

  lemma AckGrows(d: Disk, p: Pending, r: Response, now: nat)
    requires DiskInv(d) && d.slot == Some(p) && JustPrepared(d.ledger, Wires(p.request))
    requires Acknowledged(d.ledger, Wires(p.request), r, now).Ok?
    ensures var l := Acknowledged(d.ledger, Wires(p.request), r, now).value;
            && LedgerGrows(d, l) && DiskStable(d, d.(ledger := l)) && AllRecorded(l, Wires(p.request))
            && (forall id :: id in l && l[id].status.NotSubmitted? ==> id in d.ledger && d.ledger[id].status.NotSubmitted?)
  {
    var ws := Wires(p.request);
    AckAllSpec(d.ledger, ws, r, now, |ws|);
    assert ws[..|ws|] == ws;
    EditGrows(d, p, Acknowledged(d.ledger, ws, r, now).value);
  }

  lemma RetireGrows(d: Disk, p: Pending, now: nat)
    requires DiskInv(d) && d.slot == Some(p) && AllRecorded(d.ledger, Wires(p.request))
    requires RetireAll(d.ledger, Wires(p.request), now, |Wires(p.request)|).Ok?
    ensures var l := RetireAll(d.ledger, Wires(p.request), now, |Wires(p.request)|).value;
            && LedgerGrows(d, l) && DiskStable(d, d.(ledger := l)) && AllRecorded(l, Wires(p.request))
            && (forall id :: id in l && l[id].status.NotSubmitted? ==>
                               id in d.ledger && (d.ledger[id].status.NotSubmitted? || NamesWire(Wires(p.request), id)))
  {
    var ws := Wires(p.request);
    RetireAllSpec(d.ledger, ws, now, |ws|);
    assert ws[..|ws|] == ws;
    EditGrows(d, p, RetireAll(d.ledger, ws, now, |ws|).value);
  }

  lemma ObserveGrows(d: Disk, id: Cloid, f: Found, now: nat)
    requires DiskInv(d) && id in d.ledger && !d.ledger[id].terminal && Observe(d.ledger[id], f, now).Ok?
    ensures var l := d.ledger[id := Observe(d.ledger[id], f, now).value];
            LedgerGrows(d, l) && DiskStable(d, d.(ledger := l))
  {
    assert id.key !in d.archive;
  }

  ghost predicate Kept(keep: nat, s: State, s': State) { Inv(keep, s') && DiskStable(s.disk, s'.disk) }

  lemma RecordStep(keep: nat, s: State, a: Action)
    requires Inv(keep, s) && (a.RecordIntents? || a.Reconcile?)
    ensures Kept(keep, s, Step(keep, s, a))
  {
    var s' := Step(keep, s, a);
    if s'.disk != s.disk {
      var p := s.disk.slot.value;
      RecordHasShape(s.disk, p);
      ShapeGrows(s.disk, p, s'.disk.ledger);
      GrowKeeps(s, s'.disk.ledger);
      if a.RecordIntents? { ShapeOfNew(s.disk, Wires(p.request), s'.disk.ledger); }
    } else if s'.task != s.task && s'.task.Recorded? {
      RecordHasShape(s.disk, s.disk.slot.value);
      ShapeOfNew(s.disk, Wires(s.disk.slot.value.request), s'.disk.ledger);
    } else if s'.task != s.task && !s'.task.Idle? {
      RecordHasShape(s.disk, s.disk.slot.value);
    }
  }

  lemma BeginStep(keep: nat, s: State, now: nat)
    requires Inv(keep, s)
    ensures Kept(keep, s, Step(keep, s, Begin(now)))
  {
    if s.task.Checked? && s.disk.slot.None? {
      var ws := Wires(s.task.request);
      forall i | 0 <= i < |ws| ensures !PostedKey(s.posts, ws[i].id.key) { assert HasKey(ws, ws[i].id.key); }
    }
  }

  lemma PostStep(keep: nat, s: State)
    requires Inv(keep, s)
    ensures Kept(keep, s, Step(keep, s, PostRequest))
  {
    if s.task.Dispatching? {
      var ws := Wires(s.task.p.request);
      var posts' := s.posts + [Post(s.task.p.nonce, ws)];
      forall i, k, m | 0 <= i < |s.posts| && 0 <= k < |s.posts[i].wires| && 0 <= m < |ws|
        ensures s.posts[i].wires[k].id.key != ws[m].id.key
      {
        assert !PostedKey(s.posts, ws[m].id.key);
        assert HasKey(s.posts[i].wires, s.posts[i].wires[k].id.key);
      }
      assert PostsOnce(posts');
      forall k | 0 <= k < |ws| ensures RecordedKey(s.disk, ws[k].id.key) { assert ws[k].id in s.disk.ledger; }
    }
  }

  lemma AnswerStep(keep: nat, s: State, r: Response, now: nat)
    requires Inv(keep, s)
    ensures Kept(keep, s, Step(keep, s, Answer(r, now)))
  {
    if s.task.Posted? && Acknowledged(s.disk.ledger, Wires(s.task.p.request), r, now).Ok? {
      AckGrows(s.disk, s.task.p, r, now);
      GrowKeeps(s, Acknowledged(s.disk.ledger, Wires(s.task.p.request), r, now).value);
    }
  }

  lemma StoppedKept(keep: nat, s: State)
    requires Inv(keep, s)
    ensures Kept(keep, s, s.(task := Idle))
  {
  }

  lemma RetireStep(keep: nat, s: State, now: nat)
    requires Inv(keep, s)
    ensures Kept(keep, s, Step(keep, s, RetireIntents(now)))
  {
    var t := Step(keep, s, RetireIntents(now));
    if !s.task.Retiring? {
      assert t == s;
      SameKept(keep, s);
    } else {
      var r := RetireAll(s.disk.ledger, Wires(s.task.p.request), now, |Wires(s.task.p.request)|);
      if r.Ok? {
        assert t == WithLedger(s, r.value).(task := Retired(s.task.p));
        RetireOk(keep, s, now, r.value);
      } else {
        assert t == s.(task := Idle);
        StoppedKept(keep, s);
      }
    }
  }

  lemma RetireOk(keep: nat, s: State, now: nat, l: Ledger)
    requires Inv(keep, s) && s.task.Retiring?
    requires RetireAll(s.disk.ledger, Wires(s.task.p.request), now, |Wires(s.task.p.request)|) == Ok(l)
    ensures Kept(keep, s, WithLedger(s, l).(task := Retired(s.task.p)))
  {
    RetireGrows(s.disk, s.task.p, now);
    GrowKeeps(s, l);
    RetiredTask(keep, s, l);
  }

  lemma RetiredTask(keep: nat, s: State, l: Ledger)
    requires Inv(keep, s) && s.task.Retiring? && AllRecorded(l, Wires(s.task.p.request))
    requires var s' := WithLedger(s, l); DiskInv(s'.disk) && PostInv(s') && DiskStable(s.disk, s'.disk)
    ensures Kept(keep, s, WithLedger(s, l).(task := Retired(s.task.p)))
  {
  }

  lemma ObserveStep(keep: nat, s: State, id: Cloid, f: Found, now: nat)
    requires Inv(keep, s) && id in s.disk.ledger && !s.disk.ledger[id].terminal && Observe(s.disk.ledger[id], f, now).Ok?
    ensures var s' := WithLedger(s, s.disk.ledger[id := Observe(s.disk.ledger[id], f, now).value]);
            DiskInv(s'.disk) && PostInv(s') && DiskStable(s.disk, s'.disk) && s'.disk.ledger.Keys == s.disk.ledger.Keys
  {
    ObserveGrows(s.disk, id, f, now);
    GrowKeeps(s, s.disk.ledger[id := Observe(s.disk.ledger[id], f, now).value]);
  }

  lemma ResolveObserved(keep: nat, s: State, o: Order, next: Task)
    requires Inv(keep, s) && s.task.Resolving? && o.id in s.disk.ledger
    requires next.Idle? || next == Resolving(s.task.p, s.task.next + 1)
    requires var s' := WithLedger(s, s.disk.ledger[o.id := o]);
             DiskInv(s'.disk) && PostInv(s') && DiskStable(s.disk, s'.disk)
    ensures Kept(keep, s, WithLedger(s, s.disk.ledger[o.id := o]).(task := next))
  {
  }

  predicate ResolveWrites(s: State, id: Cloid, f: Found, now: nat) {
    id in s.disk.ledger && !s.disk.ledger[id].terminal && f.Found? && Observe(s.disk.ledger[id], f, now).Ok?
  }

  lemma ObservedId(o: Order, f: Found, now: nat)
    ensures Observe(o, f, now).Ok? ==> Observe(o, f, now).value.id == o.id
  {
  }

  lemma ResolveFound(keep: nat, s: State, f: Found, now: nat)
    requires Inv(keep, s) && s.task.Resolving? && s.task.next < |Wires(s.task.p.request)|
    requires ResolveWrites(s, Wires(s.task.p.request)[s.task.next].id, f, now)
    ensures Kept(keep, s, DoResolve(s, s.task.p, s.task.next, f, now))
  {
    var id, t := Wires(s.task.p.request)[s.task.next].id, DoResolve(s, s.task.p, s.task.next, f, now);
    var o := Observe(s.disk.ledger[id], f, now).value;
    ObservedId(s.disk.ledger[id], f, now);
    assert t == WithLedger(s, s.disk.ledger[o.id := o]).(task := t.task);
    ObserveStep(keep, s, id, f, now);
    ResolveObserved(keep, s, o, t.task);
  }

  /** An order without news only moves recovery on, or stops it. */
  lemma ResolveQuiet(s: State, p: Pending, i: nat, f: Found, now: nat)
    requires i < |Wires(p.request)| && !ResolveWrites(s, Wires(p.request)[i].id, f, now)
    ensures DoResolve(s, p, i, f, now) == s.(task := Idle) || DoResolve(s, p, i, f, now) == s.(task := Resolving(p, i + 1))
  {
  }

  lemma ResolveUnchanged(keep: nat, s: State, next: Task)
    requires Inv(keep, s) && s.task.Resolving? && (next.Idle? || next == Resolving(s.task.p, s.task.next + 1))
    ensures Kept(keep, s, s.(task := next))
  {
    LightStep(keep, s, s.(task := next));
  }

  lemma SameKept(keep: nat, s: State)
    requires Inv(keep, s)
    ensures Kept(keep, s, s)
  {
  }

  lemma ResolveDone(keep: nat, s: State, f: Found, now: nat)
    requires Inv(keep, s) && s.task.Resolving? && s.task.next < |Wires(s.task.p.request)|
    ensures Kept(keep, s, DoResolve(s, s.task.p, s.task.next, f, now))
  {
    var id := Wires(s.task.p.request)[s.task.next].id;
    if ResolveWrites(s, id, f, now) {
      ResolveFound(keep, s, f, now);
    } else {
      ResolveQuiet(s, s.task.p, s.task.next, f, now);
      ResolveUnchanged(keep, s, Idle);
      ResolveUnchanged(keep, s, Resolving(s.task.p, s.task.next + 1));
    }
  }

  lemma ResolveStep(keep: nat, s: State, f: Found, now: nat)
    requires Inv(keep, s)
    ensures Kept(keep, s, Step(keep, s, ResolveNext(f, now)))
  {
    var t := Step(keep, s, ResolveNext(f, now));
    if s.task.Resolving? && s.task.next < |Wires(s.task.p.request)| {
      assert t == DoResolve(s, s.task.p, s.task.next, f, now);
      ResolveDone(keep, s, f, now);
    } else {
      assert t == s;
      SameKept(keep, s);
    }
  }

  lemma RefreshStep(keep: nat, s: State, id: Cloid, f: Found, now: nat)
    requires Inv(keep, s)
    ensures Kept(keep, s, Step(keep, s, Refresh(id, f, now)))
  {
    if s.task.Idle? && id in s.disk.ledger && !s.disk.ledger[id].terminal && Observe(s.disk.ledger[id], f, now).Ok? {
      ObserveStep(keep, s, id, f, now);
    }
  }

  ghost predicate SameRecords(s: State, s': State) {
    s'.disk.ledger == s.disk.ledger && s'.disk.archive == s.disk.archive && s'.posts == s.posts
  }

  ghost predicate SlotFits(s: State, p: Pending) {
    SlotInv(s.disk, p) && (!p.submitting ==> NonePosted(s.posts, Wires(p.request)))
  }

  ghost predicate PointerFits(d: Disk) {
    d.pointer.Some? ==> d.pointer.value in d.ledger || (d.slot.Some? && NamesWire(Wires(d.slot.value.request), d.pointer.value))
  }

  /** A step that leaves all records alone keeps everything if slot, pointer and task fit. */
  lemma LightStep(keep: nat, s: State, s': State)
    requires DiskInv(s.disk) && PostInv(s) && SameRecords(s, s')
    requires (s'.disk.slot.Some? ==> SlotFits(s, s'.disk.slot.value)) && PointerFits(s'.disk) && TaskInv(keep, s')
    ensures Kept(keep, s, s')
  {
    RecordedSame(s.disk, s'.disk);
  }

  lemma RecordedSame(d: Disk, d': Disk)
    requires d'.ledger == d.ledger && d'.archive == d.archive
    ensures forall key :: RecordedKey(d, key) ==> RecordedKey(d', key)
  {
  }

  lemma SubmittingStep(keep: nat, s: State)
    requires Inv(keep, s)
    ensures Kept(keep, s, Step(keep, s, MarkSubmitting))
  {
    if s.task.Recorded? { LightStep(keep, s, Step(keep, s, MarkSubmitting)); }
  }

  lemma ClearStep(keep: nat, s: State)
    requires Inv(keep, s) && s.disk.slot.Some?
    requires s.disk.pointer.Some? ==> s.disk.pointer.value in s.disk.ledger
    ensures Kept(keep, s, WithSlot(s, None).(task := Idle))
  {
    LightStep(keep, s, WithSlot(s, None).(task := Idle));
  }

  /** A slot is only cleared once its intents are recorded, so a pointer to one of them never dangles. */
  lemma FinishStep(keep: nat, s: State)
    requires Inv(keep, s)
    ensures Kept(keep, s, Step(keep, s, Finish))
  {
    if s.task.Acked? || s.task.Released? { ClearStep(keep, s); }
  }

  lemma FinishResolvedStep(keep: nat, s: State)
    requires Inv(keep, s)
    ensures Kept(keep, s, Step(keep, s, FinishResolved))
  {
    if s.task.Resolving? && s.task.next == |Wires(s.task.p.request)| { ClearStep(keep, s); }
  }

  lemma FinishOtherStep(keep: nat, s: State)
    requires Inv(keep, s)
    ensures Kept(keep, s, Step(keep, s, FinishOther))
  {
    if s.task.Idle? && s.disk.slot.Some? && s.disk.slot.value.submitting && s.disk.slot.value.request.OtherAction? {
      ClearStep(keep, s);
    }
  }

  lemma TaskStep(keep: nat, s: State, a: Action)
    requires Inv(keep, s) && (a.Validate? || a.Crash?)
    ensures Kept(keep, s, Step(keep, s, a))
  {
    LightStep(keep, s, Step(keep, s, a));
  }

  lemma PointStep(keep: nat, s: State)
    requires Inv(keep, s)
    ensures Kept(keep, s, Step(keep, s, Point))
  {
    if s.task.Begun? { LightStep(keep, s, Step(keep, s, Point)); }
  }

  lemma ReleaseStep(keep: nat, s: State)
    requires Inv(keep, s)
    ensures Kept(keep, s, Step(keep, s, ReleasePointer))
  {
    if s.task.Retired? { LightStep(keep, s, Step(keep, s, ReleasePointer)); }
  }

  lemma ClearPointerStep(keep: nat, s: State)
    requires Inv(keep, s)
    ensures Kept(keep, s, Step(keep, s, ClearPointer))
  {
    if s.task.Idle? { LightStep(keep, s, Step(keep, s, ClearPointer)); }
  }

  lemma ImportGrows(d: Disk)
    requires DiskInv(d) && d.pointer.Some? && d.pointer.value !in d.ledger
    ensures var l := d.ledger[d.pointer.value := LegacyOrder(d.pointer.value)];
            LedgerGrows(d, l) && DiskStable(d, d.(ledger := l))
  {
    var id := d.pointer.value;
    var ws := Wires(d.slot.value.request);
    NamedNotArchived(d, d.slot.value, id);
    var i :| 0 <= i < |ws| && ws[i].id == id;
    assert forall b :: b in d.ledger && b.key == ws[i].id.key ==> b == ws[i].id;
  }

  lemma ImportStep(keep: nat, s: State)
    requires Inv(keep, s)
    ensures Kept(keep, s, Step(keep, s, ImportLegacy))
  {
    if s.task.Idle? && s.disk.pointer.Some? && s.disk.pointer.value !in s.disk.ledger {
      ImportGrows(s.disk);
      GrowKeeps(s, Step(keep, s, ImportLegacy).disk.ledger);
    }
  }

  lemma CompactStartStep(keep: nat, s: State, v: seq<Cloid>)
    requires Inv(keep, s)
    ensures Kept(keep, s, Step(keep, s, CompactStart(v)))
  {
    if s.task.Idle? && s.disk.slot.None? && IsVictims(s.disk.ledger, s.disk.pointer, keep, v) {
      LightStep(keep, s, Step(keep, s, CompactStart(v)));
    }
  }

  lemma RemoveOne(l: Ledger, pointer: Option<Cloid>, id: Cloid)
    requires Compactable(l, pointer, id)
    ensures |CompactableSet(l - {id}, pointer)| == |CompactableSet(l, pointer)| - 1
  {
    assert CompactableSet(l - {id}, pointer) == CompactableSet(l, pointer) - {id};
  }

  lemma ArchiveDisk(d: Disk, id: Cloid)
    requires DiskInv(d) && d.slot.None? && id in d.ledger && d.ledger[id].terminal
    requires id.key in d.archive ==> d.archive[id.key] == d.ledger[id]
    ensures var d' := d.(archive := d.archive[id.key := d.ledger[id]]);
            DiskInv(d') && DiskStable(d, d')
  {
  }

  lemma ArchiveLocal(keep: nat, d: Disk, todo: seq<Cloid>, local: Ledger)
    requires LocalInv(keep, d, todo, local) && |todo| > 0
    ensures LocalInv(keep, d.(archive := d.archive[todo[0].key := local[todo[0]]]), todo[1..], local - {todo[0]})
  {
    RemoveOne(local, d.pointer, todo[0]);
    forall i | 0 <= i < |todo[1..]| ensures Compactable(local - {todo[0]}, d.pointer, todo[1..][i]) {
      assert todo[1..][i] == todo[i + 1];
    }
  }

  lemma RecordedStays(d: Disk, d': Disk, posts: seq<Post>)
    requires forall key :: RecordedKey(d, key) ==> RecordedKey(d', key)
    requires forall i, k :: 0 <= i < |posts| && 0 <= k < |posts[i].wires| ==> RecordedKey(d, posts[i].wires[k].id.key)
    ensures forall i, k :: 0 <= i < |posts| && 0 <= k < |posts[i].wires| ==> RecordedKey(d', posts[i].wires[k].id.key)
  {
  }

  lemma ArchiveCopied(keep: nat, s: State)
    requires Inv(keep, s) && s.task.Compacting? && |s.task.todo| > 0
    requires var id := s.task.todo[0]; id.key in s.disk.archive ==> s.disk.archive[id.key] == s.task.local[id]
    ensures var id := s.task.todo[0];
            Kept(keep, s, s.(disk := s.disk.(archive := s.disk.archive[id.key := s.task.local[id]]),
                 task := Compacting(s.task.todo[1..], s.task.local - {id})))
  {
    var id := s.task.todo[0];
    assert Compactable(s.task.local, s.disk.pointer, id);
    ArchiveDisk(s.disk, id);
    ArchiveLocal(keep, s.disk, s.task.todo, s.task.local);
    RecordedStays(s.disk, s.disk.(archive := s.disk.archive[id.key := s.task.local[id]]), s.posts);
  }

  lemma ArchiveStep(keep: nat, s: State, stored: bool)
    requires Inv(keep, s)
    ensures Kept(keep, s, Step(keep, s, ArchiveNext(stored)))
  {
    var t := Step(keep, s, ArchiveNext(stored));
    if !(s.task.Compacting? && |s.task.todo| > 0) {
      assert t == s;
      SameKept(keep, s);
    } else {
      var id := s.task.todo[0];
      assert Compactable(s.task.local, s.disk.pointer, id);
      if stored && (id.key in s.disk.archive ==> s.disk.archive[id.key] == s.task.local[id]) {
        ArchiveCopied(keep, s);
      } else {
        assert t == s.(task := Idle);
        StoppedKept(keep, s);
      }
    }
  }

  lemma WrittenDisk(keep: nat, d: Disk, local: Ledger)
    requires DiskInv(d) && LocalInv(keep, d, [], local)
    ensures var d' := d.(ledger := local); DiskInv(d') && DiskStable(d, d')
    ensures forall key :: RecordedKey(d, key) ==> RecordedKey(d.(ledger := local), key)
  {
    forall key | RecordedKey(d, key) ensures RecordedKey(d.(ledger := local), key) {
      if key !in d.archive {
        var id :| id in d.ledger && id.key == key;
        assert id in local;
      }
    }
  }

  lemma CompactWriteStep(keep: nat, s: State)
    requires Inv(keep, s)
    ensures Kept(keep, s, Step(keep, s, CompactWrite))
  {
    if s.task.Compacting? && s.task.todo == [] {
      WrittenDisk(keep, s.disk, s.task.local);
      RecordedStays(s.disk, Step(keep, s, CompactWrite).disk, s.posts);
    }
  }

  /** Sending a request: from its check to its acknowledgement. */
  ghost predicate IsSend(a: Action) {
    a.Validate? || a.Begin? || a.Point? || a.RecordIntents? || a.MarkSubmitting? || a.PostRequest? || a.Answer? || a.Finish?
  }

  lemma SendKeeps(keep: nat, s: State, a: Action)
    requires Inv(keep, s) && IsSend(a)
    ensures Kept(keep, s, Step(keep, s, a))
  {
    match a
    case Validate(r, h) => TaskStep(keep, s, a);
    case Begin(now) => BeginStep(keep, s, now);
    case Point => PointStep(keep, s);
    case RecordIntents => RecordStep(keep, s, a);
    case MarkSubmitting => SubmittingStep(keep, s);
    case PostRequest => PostStep(keep, s);
    case Answer(r, now) => AnswerStep(keep, s, r, now);
    case Finish => FinishStep(keep, s);
  }

  /** Recovering a request left behind. */
  ghost predicate IsRecovery(a: Action) {
    a.Reconcile? || a.RetireIntents? || a.ReleasePointer? || a.ResolveNext? || a.FinishResolved? || a.FinishOther?
  }

  lemma RecoveryKeeps(keep: nat, s: State, a: Action)
    requires Inv(keep, s) && IsRecovery(a)
    ensures Kept(keep, s, Step(keep, s, a))
  {
    match a
    case Reconcile => RecordStep(keep, s, a);
    case RetireIntents(now) => RetireStep(keep, s, now);
    case ReleasePointer => ReleaseStep(keep, s);
    case ResolveNext(f, now) => ResolveStep(keep, s, f, now);
    case FinishResolved => FinishResolvedStep(keep, s);
    case FinishOther => FinishOtherStep(keep, s);
  }

  lemma UpkeepKeeps(keep: nat, s: State, a: Action)
    requires Inv(keep, s) && !IsSend(a) && !IsRecovery(a)
    ensures Kept(keep, s, Step(keep, s, a))
  {
    match a
    case Refresh(id, f, now) => RefreshStep(keep, s, id, f, now);
    case ImportLegacy => ImportStep(keep, s);
    case ClearPointer => ClearPointerStep(keep, s);
    case CompactStart(v) => CompactStartStep(keep, s, v);
    case ArchiveNext(stored) => ArchiveStep(keep, s, stored);
    case CompactWrite => CompactWriteStep(keep, s);
    case Crash => TaskStep(keep, s, a);
  }

  lemma StepKeeps(keep: nat, s: State, a: Action)
    requires Inv(keep, s)
    ensures Kept(keep, s, Step(keep, s, a))
  {
    if IsSend(a) {
      SendKeeps(keep, s, a);
    } else if IsRecovery(a) {
      RecoveryKeeps(keep, s, a);
    } else {
      UpkeepKeeps(keep, s, a);
    }
  }

  lemma {:induction false} RunKeeps(keep: nat, actions: seq<Action>)
    ensures Inv(keep, Run(keep, actions))
  {
    if actions != [] {
      RunKeeps(keep, actions[..|actions| - 1]);
      StepKeeps(keep, Run(keep, actions[..|actions| - 1]), actions[|actions| - 1]);
    }
  }

  // ---------------------------------------------------------------- the results

  /** In every run, however it crashes and whatever the exchange answers, each client ID is POSTed at most once. */
  lemma AtMostOncePosted(keep: nat, actions: seq<Action>, i: nat, k: nat, j: nat, m: nat)
    requires var posts := Run(keep, actions).posts;
             && i < |posts| && k < |posts[i].wires| && j < |posts| && m < |posts[j].wires|
             && posts[i].wires[k].id.key == posts[j].wires[m].id.key
    ensures i == j && k == m
  {
    RunKeeps(keep, actions);
    var posts := Run(keep, actions).posts;
    assert DistinctKeys(posts[i].wires);
  }

  /** Over every step of every run a terminal status and a known exchange ID never change, and no record is lost. */
  lemma RecordsStable(keep: nat, actions: seq<Action>, a: Action, id: Cloid)
    ensures var d, d' := Run(keep, actions).disk, Step(keep, Run(keep, actions), a).disk;
            Lookup(d, id).Some? ==> Lookup(d', id).Some? && Stable(Lookup(d, id).value, Lookup(d', id).value)
  {
    RunKeeps(keep, actions);
    StepKeeps(keep, Run(keep, actions), a);
    var d, d' := Run(keep, actions).disk, Step(keep, Run(keep, actions), a).disk;
    if id !in d.ledger && id.key in d.archive && id in d'.ledger {
      assert d'.archive[id.key] == d'.ledger[id];
    }
  }

  lemma RunPrefix(keep: nat, before: seq<Action>, after: seq<Action>)
    requires after != []
    ensures Run(keep, before + after) == Step(keep, Run(keep, before + after[..|after| - 1]), after[|after| - 1])
  {
    var n := |after| - 1;
    assert before + after == before + after[..n] + [after[n]];
    RunSnoc(keep, before + after[..n], after[n]);
  }

  /** And so over whole runs: what a record settled, it keeps. */
  lemma {:induction false} RecordsStableOver(keep: nat, before: seq<Action>, after: seq<Action>, id: Cloid)
    ensures var d, d' := Run(keep, before).disk, Run(keep, before + after).disk;
            Lookup(d, id).Some? ==> Lookup(d', id).Some? && Stable(Lookup(d, id).value, Lookup(d', id).value)
  {
    if after == [] {
      assert before + after == before;
    } else {
      var n := |after| - 1;
      RecordsStableOver(keep, before, after[..n], id);
      RunPrefix(keep, before, after);
      RecordsStable(keep, before + after[..n], after[n], id);
    }
  }

  /** A record marked not submitted was not POSTed. */
  ghost predicate MarkedNeverPosted(s: State) {
    && (forall id :: id in s.disk.ledger && s.disk.ledger[id].status.NotSubmitted? ==> !PostedKey(s.posts, id.key))
    && (forall k :: k in s.disk.archive && s.disk.archive[k].status.NotSubmitted? ==> !PostedKey(s.posts, k))
  }

  /** The exchange's row for an order that was POSTed carries the journal's own word for "never sent". */
  ghost predicate Mislabelled(s: State, id: Cloid, f: Found, now: nat) {
    && id in s.disk.ledger && !s.disk.ledger[id].terminal && PostedKey(s.posts, id.key)
    && f.Found? && f.status.NotSubmitted? && Observe(s.disk.ledger[id], f, now).Ok?
  }

  ghost predicate Mislabels(s: State, a: Action) {
    || (a.Refresh? && s.task.Idle? && Mislabelled(s, a.id, a.found, a.now))
    || (a.ResolveNext? && s.task.Resolving? && s.task.next < |Wires(s.task.p.request)|
        && Mislabelled(s, Wires(s.task.p.request)[s.task.next].id, a.found, a.now))
  }

  lemma PostedThen(posts: seq<Post>, p: Post, key: nat)
    requires PostedKey(posts + [p], key)
    ensures PostedKey(posts, key) || HasKey(p.wires, key)
  {
    var i :| 0 <= i < |posts + [p]| && HasKey((posts + [p])[i].wires, key);
    if i < |posts| { assert HasKey(posts[i].wires, key); }
  }

  /** A prepared request's IDs are neither archived nor marked. */
  lemma PreparedUnmarked(d: Disk, ws: seq<Wire>, key: nat)
    requires LedgerInv(d.ledger, d.archive) && JustPrepared(d.ledger, ws) && HasKey(ws, key)
    requires forall i :: 0 <= i < |ws| ==> ws[i].id.key !in d.archive
    ensures key !in d.archive
    ensures forall id :: id in d.ledger && id.key == key ==> d.ledger[id].status.Prepared?
  {
  }

  lemma PostNeverMarked(keep: nat, s: State)
    requires Inv(keep, s) && MarkedNeverPosted(s)
    ensures MarkedNeverPosted(Step(keep, s, PostRequest))
  {
    if s.task.Dispatching? {
      var ws := Wires(s.task.p.request);
      var p := Post(s.task.p.nonce, ws);
      forall key | PostedKey(s.posts + [p], key)
        ensures PostedKey(s.posts, key) || (key !in s.disk.archive && forall id :: id in s.disk.ledger && id.key == key ==> s.disk.ledger[id].status.Prepared?)
      {
        PostedThen(s.posts, p, key);
        if HasKey(ws, key) { PreparedUnmarked(s.disk, ws, key); }
      }
    }
  }

  /** Marks of a ledger that replaces the current one, with posts and archive unchanged. */
  lemma MarksFrom(s: State, s': State)
    requires MarkedNeverPosted(s) && s'.posts == s.posts && s'.disk.archive == s.disk.archive
    requires forall id :: id in s'.disk.ledger && s'.disk.ledger[id].status.NotSubmitted? ==>
                            (id in s.disk.ledger && s.disk.ledger[id].status.NotSubmitted?) || !PostedKey(s.posts, id.key)
    ensures MarkedNeverPosted(s')
  {
  }

  lemma RetireMarks(keep: nat, s: State, now: nat)
    requires Inv(keep, s) && MarkedNeverPosted(s)
    ensures MarkedNeverPosted(Step(keep, s, RetireIntents(now)))
  {
    if s.task.Retiring? {
      var ws := Wires(s.task.p.request);
      if RetireAll(s.disk.ledger, ws, now, |ws|).Ok? {
        RetireGrows(s.disk, s.task.p, now);
        MarksFrom(s, Step(keep, s, RetireIntents(now)));
      }
    }
  }

  lemma AnswerMarks(keep: nat, s: State, r: Response, now: nat)
    requires Inv(keep, s) && MarkedNeverPosted(s)
    ensures MarkedNeverPosted(Step(keep, s, Answer(r, now)))
  {
    if s.task.Posted? && Acknowledged(s.disk.ledger, Wires(s.task.p.request), r, now).Ok? {
      AckGrows(s.disk, s.task.p, r, now);
      MarksFrom(s, Step(keep, s, Answer(r, now)));
    }
  }

  lemma RecordMarks(keep: nat, s: State, a: Action)
    requires Inv(keep, s) && MarkedNeverPosted(s) && (a.RecordIntents? || a.Reconcile?)
    ensures MarkedNeverPosted(Step(keep, s, a))
  {
    var s' := Step(keep, s, a);
    if s'.disk != s.disk {
      RecordHasShape(s.disk, s.disk.slot.value);
      forall id | id in s'.disk.ledger && s'.disk.ledger[id].status.NotSubmitted?
        ensures id in s.disk.ledger && s.disk.ledger[id].status.NotSubmitted?
      {
        assert id !in s.disk.ledger ==> FreshRecord(Wires(s.disk.slot.value.request), id, s'.disk.ledger[id]);
      }
      MarksFrom(s, s');
    }
  }

  lemma ObserveMarks(s: State, s': State, id: Cloid, f: Found, now: nat)
    requires MarkedNeverPosted(s) && !Mislabelled(s, id, f, now)
    requires id in s.disk.ledger && !s.disk.ledger[id].terminal && Observe(s.disk.ledger[id], f, now).Ok?
    requires s'.posts == s.posts && s'.disk == s.disk.(ledger := s.disk.ledger[id := Observe(s.disk.ledger[id], f, now).value])
    ensures MarkedNeverPosted(s')
  {
    MarksFrom(s, s');
  }

  lemma RefreshMarks(keep: nat, s: State, id: Cloid, f: Found, now: nat)
    requires MarkedNeverPosted(s) && !Mislabels(s, Refresh(id, f, now))
    ensures MarkedNeverPosted(Step(keep, s, Refresh(id, f, now)))
  {
    var s' := Step(keep, s, Refresh(id, f, now));
    if s'.disk != s.disk { ObserveMarks(s, s', id, f, now); }
  }

  lemma ResolveMarks(keep: nat, s: State, f: Found, now: nat)
    requires MarkedNeverPosted(s) && !Mislabels(s, ResolveNext(f, now))
    ensures MarkedNeverPosted(Step(keep, s, ResolveNext(f, now)))
  {
    var s' := Step(keep, s, ResolveNext(f, now));
    if s'.disk != s.disk { ObserveMarks(s, s', Wires(s.task.p.request)[s.task.next].id, f, now); }
  }

  ghost predicate IsCompaction(s: State, a: Action) {
    a.CompactStart? || (s.task.Compacting? && (a.ArchiveNext? || a.CompactWrite? || a.Crash?))
  }

  ghost predicate Copied(d: Disk, archive: Archive, k: nat) {
    k in archive && exists id :: id in d.ledger && id.key == k && archive[k] == d.ledger[id]
  }

  /** What a compaction may do: copy hot orders into the archive, and drop copied ones that are not needed. */
  ghost predicate Moved(d: Disk, d': Disk) {
    && d'.pointer == d.pointer
    && (forall id :: id in d'.ledger ==> id in d.ledger && d'.ledger[id] == d.ledger[id])
    && (forall id :: id in d.ledger && id !in d'.ledger ==>
                       Compactable(d.ledger, d.pointer, id) && id.key in d'.archive && d'.archive[id.key] == d.ledger[id])
    && (forall k :: k in d.archive ==> k in d'.archive && d'.archive[k] == d.archive[k])
    && (forall k :: k in d'.archive && k !in d.archive ==> Copied(d, d'.archive, k))
  }

  lemma CopyMoves(d: Disk, id: Cloid)
    requires id in d.ledger && (id.key in d.archive ==> d.archive[id.key] == d.ledger[id])
    ensures Moved(d, d.(archive := d.archive[id.key := d.ledger[id]]))
  {
    var d' := d.(archive := d.archive[id.key := d.ledger[id]]);
    if id.key !in d.archive { assert Copied(d, d'.archive, id.key); }
  }

  lemma ArchiveMoves(keep: nat, s: State, stored: bool)
    requires TaskInv(keep, s)
    ensures Moved(s.disk, Step(keep, s, ArchiveNext(stored)).disk)
  {
    StillMoved(s.disk);
    if s.task.Compacting? && |s.task.todo| > 0 {
      var id := s.task.todo[0];
      assert Compactable(s.task.local, s.disk.pointer, id);
      if stored && (id.key in s.disk.archive ==> s.disk.archive[id.key] == s.task.local[id]) { CopyMoves(s.disk, id); }
    }
  }

  lemma WriteMoves(keep: nat, s: State)
    requires Inv(keep, s)
    ensures Moved(s.disk, Step(keep, s, CompactWrite).disk)
  {
    if s.task.Compacting? { assert LocalInv(keep, s.disk, s.task.todo, s.task.local); }
  }

  lemma StillMoved(d: Disk)
    ensures Moved(d, d)
  {
  }

  lemma CompactMoves(keep: nat, s: State, a: Action)
    requires Inv(keep, s) && (a.CompactStart? || a.ArchiveNext? || a.CompactWrite? || a.Crash?)
    ensures Moved(s.disk, Step(keep, s, a).disk)
  {
    if a.ArchiveNext? {
      ArchiveMoves(keep, s, a.stored);
    } else if a.CompactWrite? {
      WriteMoves(keep, s);
    } else {
      StillMoved(s.disk);
    }
  }

  lemma MovedMarks(s: State, s': State)
    requires Moved(s.disk, s'.disk) && s'.posts == s.posts && MarkedNeverPosted(s)
    ensures MarkedNeverPosted(s')
  {
    forall k | k in s'.disk.archive && s'.disk.archive[k].status.NotSubmitted? ensures !PostedKey(s.posts, k) {
      if k !in s.disk.archive { assert Copied(s.disk, s'.disk.archive, k); }
    }
  }

  lemma CompactMarks(keep: nat, s: State, a: Action)
    requires Inv(keep, s) && MarkedNeverPosted(s) && (a.ArchiveNext? || a.CompactWrite?)
    ensures MarkedNeverPosted(Step(keep, s, a))
  {
    CompactMoves(keep, s, a);
    OnlyPostsPost(keep, s, a);
    MovedMarks(s, Step(keep, s, a));
  }

  lemma MarksKept(keep: nat, s: State, a: Action)
    requires Inv(keep, s) && MarkedNeverPosted(s) && !Mislabels(s, a)
    ensures MarkedNeverPosted(Step(keep, s, a))
  {
    match a
    case PostRequest => PostNeverMarked(keep, s);
    case RetireIntents(now) => RetireMarks(keep, s, now);
    case Answer(r, now) => AnswerMarks(keep, s, r, now);
    case RecordIntents => RecordMarks(keep, s, a);
    case Reconcile => RecordMarks(keep, s, a);
    case Refresh(id, f, now) => RefreshMarks(keep, s, id, f, now);
    case ResolveNext(f, now) => ResolveMarks(keep, s, f, now);
    case ArchiveNext(_) => CompactMarks(keep, s, a);
    case CompactWrite => CompactMarks(keep, s, a);
    case ImportLegacy => ImportMarks(keep, s);
    case _ => LightMarks(keep, s, a);
  }

  lemma ImportMarks(keep: nat, s: State)
    requires MarkedNeverPosted(s)
    ensures MarkedNeverPosted(Step(keep, s, ImportLegacy))
  {
    MarksFrom(s, Step(keep, s, ImportLegacy));
  }

  /** The other actions touch neither records nor posts. */
  lemma LightMarks(keep: nat, s: State, a: Action)
    requires MarkedNeverPosted(s)
    requires a.Validate? || a.Begin? || a.Point? || a.MarkSubmitting? || a.Finish? || a.ReleasePointer? || a.FinishResolved?
             || a.FinishOther? || a.ClearPointer? || a.CompactStart? || a.Crash?
    ensures MarkedNeverPosted(Step(keep, s, a))
  {
    match a
    case Begin(now) => if s.task.Checked? { MarksFrom(s, Step(keep, s, a)); }
    case _ => MarksFrom(s, Step(keep, s, a));
  }

  lemma PostsOnlyGrow(keep: nat, s: State, a: Action, key: nat)
    requires PostedKey(s.posts, key)
    ensures PostedKey(Step(keep, s, a).posts, key)
  {
    var i :| 0 <= i < |s.posts| && HasKey(s.posts[i].wires, key);
    assert Step(keep, s, a).posts[i] == s.posts[i];
  }

  lemma WrongMarkPersists(s: State, s': State)
    requires !MarkedNeverPosted(s) && LedgerInv(s.disk.ledger, s.disk.archive) && DiskStable(s.disk, s'.disk)
    requires forall key :: PostedKey(s.posts, key) ==> PostedKey(s'.posts, key)
    ensures !MarkedNeverPosted(s')
  {
    if id :| id in s.disk.ledger && s.disk.ledger[id].status.NotSubmitted? && PostedKey(s.posts, id.key) {
      assert Lookup(s'.disk, id).value.status.NotSubmitted?;
    }
  }

  /** A wrong mark is never taken back. */
  lemma WrongMarkStays(keep: nat, s: State, a: Action)
    requires Inv(keep, s) && !MarkedNeverPosted(s)
    ensures !MarkedNeverPosted(Step(keep, s, a))
  {
    StepKeeps(keep, s, a);
    forall key | PostedKey(s.posts, key) ensures PostedKey(Step(keep, s, a).posts, key) { PostsOnlyGrow(keep, s, a, key); }
    WrongMarkPersists(s, Step(keep, s, a));
  }

  lemma WrongMark(s': State, id: Cloid)
    requires id in s'.disk.ledger && s'.disk.ledger[id].status.NotSubmitted? && PostedKey(s'.posts, id.key)
    ensures !MarkedNeverPosted(s')
  {
  }

  lemma MislabelMarks(keep: nat, s: State, a: Action)
    requires Mislabels(s, a)
    ensures !MarkedNeverPosted(Step(keep, s, a))
  {
    match a
    case Refresh(id, f, now) => WrongMark(Step(keep, s, a), id);
    case ResolveNext(f, now) => WrongMark(Step(keep, s, a), Wires(s.task.p.request)[s.task.next].id);
  }

  lemma MarksExactly(keep: nat, s: State, a: Action)
    requires Inv(keep, s)
    ensures MarkedNeverPosted(Step(keep, s, a)) <==> MarkedNeverPosted(s) && !Mislabels(s, a)
  {
    if !MarkedNeverPosted(s) {
      WrongMarkStays(keep, s, a);
    } else if Mislabels(s, a) {
      MislabelMarks(keep, s, a);
    } else {
      MarksKept(keep, s, a);
    }
  }

  ghost predicate NeverMislabels(keep: nat, actions: seq<Action>) {
    actions == [] ||
    var before := actions[..|actions| - 1];
    NeverMislabels(keep, before) && !Mislabels(Run(keep, before), actions[|actions| - 1])
  }

  /**
   In every run, entries marked not submitted, hot or archived, were never POSTed exactly when no
   accepted answer ever put that word on a POSTed order.
   */
  lemma {:induction false} NotSubmittedNeverPosted(keep: nat, actions: seq<Action>)
    ensures MarkedNeverPosted(Run(keep, actions)) <==> NeverMislabels(keep, actions)
  {
    if actions != [] {
      var before := actions[..|actions| - 1];
      NotSubmittedNeverPosted(keep, before);
      RunKeeps(keep, before);
      MarksExactly(keep, Run(keep, before), actions[|actions| - 1]);
    }
  }

  lemma PostSparesMarked(keep: nat, s: State, id: Cloid)
    requires Inv(keep, s) && !PostedKey(s.posts, id.key)
    requires Lookup(s.disk, id).Some? && Lookup(s.disk, id).value.status.NotSubmitted?
    ensures !PostedKey(Step(keep, s, PostRequest).posts, id.key)
  {
    if s.task.Dispatching? {
      var ws := Wires(s.task.p.request);
      var posts' := s.posts + [Post(s.task.p.nonce, ws)];
      forall i | 0 <= i < |posts'| ensures !HasKey(posts'[i].wires, id.key) {
        if i < |s.posts| { assert posts'[i] == s.posts[i]; }
      }
    }
  }

  lemma StepSparesMarked(keep: nat, s: State, a: Action, id: Cloid)
    requires Inv(keep, s) && !PostedKey(s.posts, id.key)
    requires Lookup(s.disk, id).Some? && Lookup(s.disk, id).value.status.NotSubmitted?
    ensures !PostedKey(Step(keep, s, a).posts, id.key)
  {
    if a.PostRequest? {
      PostSparesMarked(keep, s, id);
    } else {
      OnlyPostsPost(keep, s, a);
    }
  }

  lemma OnlyPostsPost(keep: nat, s: State, a: Action)
    requires !a.PostRequest?
    ensures Step(keep, s, a).posts == s.posts
  {
  }

  /** Whatever happens later, a record truly marked not submitted is never POSTed. */
  lemma {:induction false} NeverPostedLater(keep: nat, before: seq<Action>, after: seq<Action>, id: Cloid)
    requires var s := Run(keep, before);
             && Lookup(s.disk, id).Some? && Lookup(s.disk, id).value.status.NotSubmitted? && Lookup(s.disk, id).value.terminal
             && !PostedKey(s.posts, id.key)
    ensures !PostedKey(Run(keep, before + after).posts, id.key)
  {
    if after == [] {
      assert before + after == before;
    } else {
      var n := |after| - 1;
      NeverPostedLater(keep, before, after[..n], id);
      RecordsStableOver(keep, before, after[..n], id);
      RunPrefix(keep, before, after);
      RunKeeps(keep, before + after[..n]);
      StepSparesMarked(keep, Run(keep, before + after[..n]), after[n], id);
    }
  }

  lemma RunSnoc(keep: nat, actions: seq<Action>, a: Action)
    ensures Run(keep, actions + [a]) == Step(keep, Run(keep, actions), a)
  {
    assert (actions + [a])[..|actions|] == actions;
  }

  function Sample(w: Wire, submitting: bool): Pending { Pending(Orders([w]), 5, submitting, None) }

  lemma OneRecorded(w: Wire)
    ensures PreparedLedger(Disk(Some(Sample(w, false)), None, map[], map[], 5), [w], 5) == Ok(map[w.id := NewOrder(w, 5, false)])
  {
    var d := Disk(Some(Sample(w, false)), None, map[], map[], 5);
    assert RecordAll(d, [w], 5, 1) == Record(RecordAll(d, [w], 5, 0).value, w, 5, IsHedge(d, w.id));
  }

  lemma RecordedRun(w: Wire)
    ensures Run(0, [Validate(Orders([w]), None)] + [Begin(5)] + [Point] + [RecordIntents])
         == State(Disk(Some(Sample(w, false)), None, map[w.id := NewOrder(w, 5, false)], map[], 5), Recorded(Sample(w, false)), [])
  {
    var r0 := [Validate(Orders([w]), None)];
    RunSnoc(0, [], Validate(Orders([w]), None));
    assert [] + r0 == r0;
    RunSnoc(0, r0, Begin(5));
    RunSnoc(0, r0 + [Begin(5)], Point);
    assert Run(0, r0 + [Begin(5)] + [Point]) == State(Disk(Some(Sample(w, false)), None, map[], map[], 5), Pointed(Sample(w, false)), []);
    RunSnoc(0, r0 + [Begin(5)] + [Point], RecordIntents);
    OneRecorded(w);
  }

  /** A run that ends with a POSTed order and no task. */
  lemma PostedAndCrashed(w: Wire)
    ensures Run(0, [Validate(Orders([w]), None)] + [Begin(5)] + [Point] + [RecordIntents] + [MarkSubmitting] + [PostRequest] + [Crash])
         == State(Disk(Some(Sample(w, true)), None, map[w.id := NewOrder(w, 5, false)], map[], 5), Idle, [Post(5, [w])])
  {
    var r := [Validate(Orders([w]), None)] + [Begin(5)] + [Point] + [RecordIntents];
    RecordedRun(w);
    RunSnoc(0, r, MarkSubmitting);
    RunSnoc(0, r + [MarkSubmitting], PostRequest);
    RunSnoc(0, r + [MarkSubmitting] + [PostRequest], Crash);
  }

  /** The condition can fail: the exchange answers a POSTed order with that word. */
  lemma MislabelledRun() returns (actions: seq<Action>)
    ensures !MarkedNeverPosted(Run(0, actions))
  {
    var w := Wire(Cloid(1, 0), 0);
    var run := [Validate(Orders([w]), None)] + [Begin(5)] + [Point] + [RecordIntents] + [MarkSubmitting] + [PostRequest] + [Crash];
    PostedAndCrashed(w);
    var last := Refresh(w.id, Found(None, 7, NotSubmitted), 9);
    RunSnoc(0, run, last);
    assert Run(0, run).posts[0].wires[0].id == w.id;
    assert HasKey(Run(0, run).posts[0].wires, w.id.key);
    MislabelMarks(0, Run(0, run), last);
    actions := run + [last];
  }

  // -------------------------------- compaction

  lemma MovedLookup(d: Disk, d': Disk, id: Cloid)
    requires Moved(d, d') && LedgerInv(d.ledger, d.archive)
    ensures Lookup(d, id).Some? ==> Lookup(d', id) == Lookup(d, id)
    ensures id in d.ledger && !Compactable(d.ledger, d.pointer, id) ==> id in d'.ledger
  {
  }

  lemma MovedKeys(d: Disk, d': Disk, key: nat)
    requires Moved(d, d')
    ensures RecordedKey(d', key) <==> RecordedKey(d, key)
  {
    if x :| x in d.ledger && x.key == key { assert x in d'.ledger || key in d'.archive; }
    if key in d'.archive && key !in d.archive { assert Copied(d, d'.archive, key); }
  }

  /**
   Every step of a compaction, finished or interrupted, leaves the union of ledger and archive
   unchanged, and keeps each unresolved and each pointed-to order hot.
   */
  lemma CompactionConserves(keep: nat, actions: seq<Action>, a: Action, id: Cloid)
    requires IsCompaction(Run(keep, actions), a)
    ensures var d, d' := Run(keep, actions).disk, Step(keep, Run(keep, actions), a).disk;
            && (Lookup(d, id).Some? ==> Lookup(d', id) == Lookup(d, id))
            && (RecordedKey(d', id.key) <==> RecordedKey(d, id.key))
            && (id in d.ledger && (!d.ledger[id].terminal || d.pointer == Some(id)) ==> id in d'.ledger)
  {
    RunKeeps(keep, actions);
    var s := Run(keep, actions);
    CompactMoves(keep, s, a);
    MovedLookup(s.disk, Step(keep, s, a).disk, id);
    MovedKeys(s.disk, Step(keep, s, a).disk, id.key);
  }

  /** A finished compaction leaves at most `keep` terminal orders beside the pointed-to one, and those are the youngest. */
  lemma CompactionBounds(keep: nat, actions: seq<Action>)
    requires Run(keep, actions).task.Compacting? && Run(keep, actions).task.todo == []
    ensures var d, d' := Run(keep, actions).disk, Step(keep, Run(keep, actions), CompactWrite).disk;
            && |CompactableSet(d'.ledger, d'.pointer)| <= keep
            && (forall r, b :: Leaving(d.ledger, d'.ledger, [], r) && Compactable(d'.ledger, d'.pointer, b) ==> OlderIn(d.ledger, r, b))
  {
    RunKeeps(keep, actions);
    var s := Run(keep, actions);
    assert LocalInv(keep, s.disk, s.task.todo, s.task.local);
  }

  // ---------------------------------------------------------------- the journal's methods

  ghost predicate Sorted(l: Ledger, v: seq<Cloid>) {
    && (forall i :: 0 <= i < |v| ==> v[i] in l)
    && (forall i, j :: 0 <= i < j < |v| ==> v[i] != v[j] && OlderIn(l, v[i], v[j]))
  }

  /** The archive after storing the first `n` of `v`. */
  function ArchivedPrefix(archive: Archive, l: Ledger, v: seq<Cloid>, n: nat): Archive
    requires n <= |v| && forall i :: 0 <= i < |v| ==> v[i] in l
  {
    if n == 0 then archive else ArchivedPrefix(archive, l, v, n - 1)[v[n - 1].key := l[v[n - 1]]]
  }

  /** The archive already holds something else under this ID. */
  ghost predicate Conflicts(archive: Archive, l: Ledger, id: Cloid) {
    id in l && id.key in archive && archive[id.key] != l[id]
  }

  /** Puts an ID at its place in an age-ordered list. */
  method InsertByAge(l: Ledger, v: seq<Cloid>, x: Cloid) returns (r: seq<Cloid>)
    requires Sorted(l, v) && x in l && x !in v
    ensures Sorted(l, r) && |r| == |v| + 1 && (forall y :: y in r <==> y == x || y in v)
  {
    var i := 0;
    while i < |v| && Older(l, v[i], x)
      invariant 0 <= i <= |v|
      invariant forall k :: 0 <= k < i ==> OlderIn(l, v[k], x)
    {
      i := i + 1;
    }
    InsertKeepsSorted(l, v, i, x);
    r := v[..i] + [x] + v[i..];
    assert v == v[..i] + v[i..];
  }

  lemma InsertKeepsSorted(l: Ledger, v: seq<Cloid>, i: nat, x: Cloid)
    requires Sorted(l, v) && x in l && x !in v && i <= |v|
    requires (forall k :: 0 <= k < i ==> OlderIn(l, v[k], x)) && (i < |v| ==> !Older(l, v[i], x))
    ensures Sorted(l, v[..i] + [x] + v[i..])
  {
    var r := v[..i] + [x] + v[i..];
    forall k | i <= k < |v| ensures OlderIn(l, x, v[k]) {
      assert OlderIn(l, x, v[i]);
      if k > i { assert OlderIn(l, v[i], v[k]); }
    }
    forall a, b | 0 <= a < b < |r| ensures r[a] != r[b] && OlderIn(l, r[a], r[b]) {
      assert r[a] == (if a < i then v[a] else if a == i then x else v[a - 1]);
      assert r[b] == (if b < i then v[b] else if b == i then x else v[b - 1]);
    }
  }

  /** The IDs of a set, oldest first. */
  method OldestFirst(l: Ledger, ids: set<Cloid>) returns (v: seq<Cloid>)
    requires forall id :: id in ids ==> id in l
    ensures Sorted(l, v) && |v| == |ids| && (forall y :: y in v <==> y in ids)
  {
    v := [];
    var rest := ids;
    while rest != {}
      invariant rest <= ids && Sorted(l, v) && |v| + |rest| == |ids|
      invariant forall y :: y in v <==> y in ids && y !in rest
      decreases |rest|
    {
      var x :| x in rest;
      v := InsertByAge(l, v, x);
      rest := rest - {x};
    }
  }

  lemma OldestAreVictims(l: Ledger, pointer: Option<Cloid>, keep: nat, all: seq<Cloid>)
    requires Sorted(l, all) && |all| == |CompactableSet(l, pointer)| && (forall y :: y in all <==> y in CompactableSet(l, pointer))
    ensures IsVictims(l, pointer, keep, all[..SatSub(|all|, keep)])
  {
    var v := all[..SatSub(|all|, keep)];
    forall i | 0 <= i < |v| ensures Compactable(l, pointer, v[i]) { assert v[i] in all; }
    forall b, i | b in l && Compactable(l, pointer, b) && b !in v && 0 <= i < |v| ensures Older(l, v[i], b) {
      assert b in all;
      var j :| 0 <= j < |all| && all[j] == b;
      assert forall k :: 0 <= k < |v| ==> v[k] == all[k] && v[k] in v;
      assert OlderIn(l, all[i], all[j]);
    }
  }

  /** The journal's durable records, edited in place; each ledger edit is one write at the end. */
  class Journal {
    var slot: Option<Pending>
    var pointer: Option<Cloid>
    var ledger: Ledger
    var archive: Archive
    var lastNonce: nat

    function View(): Disk
      reads this
    {
      Disk(slot, pointer, ledger, archive, lastNonce)
    }

    /** Rejects a reused ID, in any spelling, before anything is written. */
    method ValidateNewIds(ws: seq<Wire>) returns (ok: bool)
      ensures ok <==> NewIds(View(), ws)
    {
      var seen: set<nat> := {};
      var i := 0;
      while i < |ws|
        invariant 0 <= i <= |ws|
        invariant forall key :: key in seen <==> exists k :: 0 <= k < i && ws[k].id.key == key
        invariant forall j, k :: 0 <= j < k < i ==> ws[j].id.key != ws[k].id.key
        invariant forall k :: 0 <= k < i ==> ws[k].id.key !in archive
        invariant forall id, k :: id in ledger && 0 <= k < i ==> id.key != ws[k].id.key
      {
        var key := ws[i].id.key;
        if key in seen || key in archive || exists used :: used in ledger && used.key == key {
          assert HasKey(ws, key);
          return false;
        }
        seen := seen + {key};
        i := i + 1;
      }
      ok := true;
    }

    method Prepare(ws: seq<Wire>, nonce: nat) returns (r: Answer<()>)
      modifies this`ledger
      ensures match PreparedLedger(old(View()), ws, nonce)
              case Ok(l) => r.Ok? && ledger == l
              case Err(e) => r == Err(e) && ledger == old(ledger)
    {
      if exists i :: 0 <= i < |ws| && ws[i].id.key in archive { return Err(IdUsed); }
      ghost var d := View();
      var l := ledger;
      var i := 0;
      while i < |ws|
        invariant 0 <= i <= |ws| && ledger == old(ledger) && RecordAll(d, ws, nonce, i) == Ok(l)
        invariant (forall n :: 0 <= n < i ==> RecordAll(d, ws, nonce, n).Ok?)
      {
        var next := Record(l, ws[i], nonce, pointer == Some(ws[i].id) || (slot.Some? && slot.value.hedge == Some(ws[i].id)));
        assert RecordAll(d, ws, nonce, i + 1) == next;
        if next.Err? {
          RecordAllError(d, ws, nonce, i + 1);
          return Err(next.error);
        }
        l := next.value;
        i := i + 1;
      }
      ledger := l;
      r := Ok(());
    }

    method Acknowledge(ws: seq<Wire>, response: Response, now: nat) returns (r: Answer<()>)
      modifies this`ledger
      ensures match Acknowledged(old(ledger), ws, response, now)
              case Ok(l) => r.Ok? && ledger == l
              case Err(e) => r == Err(e) && ledger == old(ledger)
    {
      if response.Statuses? && |response.acks| != |ws| { return Err(IncompleteAck); }
      var l := ledger;
      var i := 0;
      while i < |ws|
        invariant 0 <= i <= |ws| && ledger == old(ledger) && AckAll(ledger, ws, response, now, i) == Ok(l)
      {
        var id := ws[i].id;
        if id !in l {
          AckAllError(ledger, ws, response, now, i + 1);
          return Err(UnknownOrder);
        }
        var o := AckOrder(l[id], if response.AllRejected? then AckError else response.acks[i], now);
        if o.Err? {
          AckAllError(ledger, ws, response, now, i + 1);
          return Err(o.error);
        }
        l := l[id := o.value];
        i := i + 1;
      }
      ledger := l;
      r := Ok(());
    }

    /** Marks a pre-dispatch request's intents, then clears the hedge pointer. */
    method MarkNotSubmitted(ws: seq<Wire>, now: nat) returns (r: Answer<()>)
      modifies this`ledger, this`pointer
      ensures match RetireAll(old(ledger), ws, now, |ws|)
              case Ok(l) => r.Ok? && ledger == l && pointer.None?
              case Err(e) => r == Err(e) && ledger == old(ledger) && pointer == old(pointer)
    {
      var l := ledger;
      var i := 0;
      while i < |ws|
        invariant 0 <= i <= |ws| && ledger == old(ledger) && pointer == old(pointer) && RetireAll(ledger, ws, now, i) == Ok(l)
      {
        var next := Retire(l, ws[i].id, now);
        if next.Err? {
          RetireAllError(ledger, ws, now, i + 1);
          return Err(next.error);
        }
        l := next.value;
        i := i + 1;
      }
      ledger := l;
      pointer := None;
      r := Ok(());
    }

    /**
     Moves all but the `keep` youngest settled orders to the archive; `room` archive writes succeed
     before the store refuses one. The ledger is rewritten only after all were archived.
     */
    method Compact(keep: nat, room: nat) returns (ok: bool, ghost victims: seq<Cloid>, ghost stored: nat)
      modifies this`ledger, this`archive
      ensures old(slot).Some? ==> ok && ledger == old(ledger) && archive == old(archive)
      ensures old(slot).None? ==>
                && IsVictims(old(ledger), pointer, keep, victims) && stored <= |victims|
                && archive == ArchivedPrefix(old(archive), old(ledger), victims, stored)
                && (ok ==> stored == |victims| && ledger == old(ledger) - (set id | id in victims))
                && (!ok ==> ledger == old(ledger) && stored < |victims|)
                && (!ok && stored < room ==> Conflicts(archive, ledger, victims[stored]))
    {
      victims, stored := [], 0;
      if slot.Some? { return true, [], 0; }
      var all := OldestFirst(ledger, CompactableSet(ledger, pointer));
      OldestAreVictims(ledger, pointer, keep, all);
      var v := all[..SatSub(|all|, keep)];
      var n := ArchiveOrders(v, room);
      victims, stored := v, n;
      ok := n == |v|;
      if ok { ledger := ledger - (set id | id in v); }
    }

    /** Stores orders in turn and stops at the first refused write. */
    method ArchiveOrders(v: seq<Cloid>, room: nat) returns (n: nat)
      requires forall i :: 0 <= i < |v| ==> v[i] in ledger
      modifies this`archive
      ensures n <= |v| && archive == ArchivedPrefix(old(archive), ledger, v, n)
      ensures n < |v| && n < room ==> Conflicts(archive, ledger, v[n])
    {
      n := 0;
      while n < |v| && n < room
        invariant n <= |v| && archive == ArchivedPrefix(old(archive), ledger, v, n)
      {
        var key := v[n].key;
        if key in archive && archive[key] != ledger[v[n]] { return; }
        archive := archive[key := ledger[v[n]]];
        n := n + 1;
      }
    }
  }

  /** A failed fold stays failed, with the first error. */
  lemma {:induction false} RecordAllError(d: Disk, ws: seq<Wire>, nonce: nat, n: nat)
    requires n <= |ws| && RecordAll(d, ws, nonce, n).Err?
    ensures RecordAll(d, ws, nonce, |ws|) == RecordAll(d, ws, nonce, n)
    decreases |ws| - n
  {
    if n < |ws| { RecordAllError(d, ws, nonce, n + 1); }
  }

  lemma {:induction false} AckAllError(l: Ledger, ws: seq<Wire>, r: Response, now: nat, n: nat)
    requires n <= |ws| && (r.Statuses? ==> |r.acks| == |ws|) && AckAll(l, ws, r, now, n).Err?
    ensures AckAll(l, ws, r, now, |ws|) == AckAll(l, ws, r, now, n)
    decreases |ws| - n
  {
    if n < |ws| { AckAllError(l, ws, r, now, n + 1); }
  }

  lemma {:induction false} RetireAllError(l: Ledger, ws: seq<Wire>, now: nat, n: nat)
    requires n <= |ws| && RetireAll(l, ws, now, n).Err?
    ensures RetireAll(l, ws, now, |ws|) == RetireAll(l, ws, now, n)
    decreases |ws| - n
  {
    if n < |ws| { RetireAllError(l, ws, now, n + 1); }
  }
}
