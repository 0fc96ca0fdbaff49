/**
 The shared read cache over a streamed header chain. Stream events extend or reset the chain;
 every disturbance starts a new epoch and drops the caches; readers save under the epoch they began in.

 `began` counts invalidations without wrapping: it is how the statements say when a reader started.
 The code stores only the 64-bit epoch.
 */
module Observations {
  import opened Common

  const HEAD_AGE: nat := 30_000

  const SNAPSHOT_AGE: nat := 2_000

  const READ_AGE: nat := 30_000

  const ANCHOR_AGE: nat := 60_000

  const MAX_HEADERS: nat := 1024

  const MAX_WORDS: nat := 256

  const EPOCHS: nat := 0x1_0000_0000_0000_0000

  datatype Header = Header(number: nat, hash: nat, parent: nat, timeMs: nat, seen: nat)

  /** A cached value with its age stamp and the invalidation count when its reader began. */
  datatype Cached<T> = Cached(at: nat, began: nat, value: T)

  datatype Snapshot = Snapshot(block: nat, body: nat)

  datatype Positions = Positions(block: nat, owner: nat, ids: multiset<nat>, body: nat)

  datatype State = State(
    epoch: nat, connected: bool, headAck: bool, headers: seq<Header>, anchor: Option<nat>,
    snapshot: Option<Cached<Snapshot>>, words: map<nat, Cached<nat>>, positions: Option<Cached<Positions>>,
    owners: set<nat>, inventory: map<nat, Cached<set<nat>>>, ids: set<nat>, latestSwap: Option<(nat, nat)>)

  const EMPTY := State(0, false, false, [], None, None, map[], None, {}, map[], {}, None)

  datatype Event =
    | Connected
    | Disconnected
    | HeadsSubscribed
    | NewHead(head: Option<Header>)       // nothing when the header does not parse
    | LogRemoved
    | Swap(priced: bool, block: nat, index: nat)
    | LiquidityChanged
    | Transfer(id: Option<nat>, from: Option<nat>, to: Option<nat>)
    | NftEvent(id: Option<nat>)
    | Other

  // ---------------------------------------------------------------- what each call computes

  function NextEpoch(e: nat): nat { if e >= U64_MAX then 0 else e + 1 }

  function Invalidated(s: State): State {
    s.(epoch := NextEpoch(s.epoch), snapshot := None, words := map[], positions := None, inventory := map[])
  }

  function FeedReset(s: State): State { Invalidated(s).(headers := [], anchor := None, latestSwap := None) }

  /** Insertion into the number-ordered header map. */
  function Insert(hs: seq<Header>, h: Header): seq<Header> {
    if hs == [] then [h]
    else
      var last := hs[|hs| - 1];
      if last.number < h.number then hs + [h]
      else if last.number == h.number then hs[..|hs| - 1] + [h]
      else Insert(hs[..|hs| - 1], h) + [last]
  }

  function Trimmed(hs: seq<Header>): seq<Header> { if |hs| > MAX_HEADERS then hs[|hs| - MAX_HEADERS..] else hs }

  function Successor(n: nat): nat { if n >= U64_MAX then U64_MAX else n + 1 }

  predicate Repeats(s: State, h: Header) {
    |s.headers| > 0 && var tip := s.headers[|s.headers| - 1]; h.number == tip.number && h.hash == tip.hash
  }

  predicate Breaks(s: State, h: Header) {
    |s.headers| > 0 && var tip := s.headers[|s.headers| - 1]; h.number != Successor(tip.number) || h.parent != tip.hash
  }

  function HeadArrived(s: State, h: Header): State {
    if Repeats(s, h) then s
    else
      var t := if Breaks(s, h) then FeedReset(s) else s;
      t.(headers := Trimmed(Insert(t.headers, h)))
  }

  predicate Watched(s: State, e: Event)
    requires e.Transfer? || e.NftEvent?
  {
    || (e.id.Some? && e.id.value in s.ids)
    || (e.Transfer? && ((e.from.Some? && e.from.value in s.owners) || (e.to.Some? && e.to.value in s.owners)))
  }

  function Applied(s: State, e: Event): State {
    match e
    case Connected => FeedReset(s).(connected := true, headAck := false)
    case Disconnected => FeedReset(s).(connected := false, headAck := false)
    case HeadsSubscribed => s.(headAck := true)
    case NewHead(h) => if h.None? then FeedReset(s) else HeadArrived(s, h.value)
    case LogRemoved => FeedReset(s)
    case Swap(priced, block, index) =>
      if !priced then s
      else if s.latestSwap.Some? && (s.latestSwap.value.0 > block || (s.latestSwap.value.0 == block && s.latestSwap.value.1 >= index))
      then s else s.(latestSwap := Some((block, index)))
    case LiquidityChanged => s.(snapshot := None)
    case Transfer(_, _, _) => if Watched(s, e) then Invalidated(s) else s
    case NftEvent(_) => if Watched(s, e) then Invalidated(s) else s
    case Other => s
  }

  /** Which events start a new epoch. */
  predicate StartsEpoch(s: State, e: Event) {
    match e
    case Connected => true
    case Disconnected => true
    case LogRemoved => true
    case NewHead(h) => h.None? || (!Repeats(s, h.value) && Breaks(s, h.value))
    case Transfer(_, _, _) => Watched(s, e)
    case NftEvent(_) => Watched(s, e)
    case _ => false
  }

  function SnapshotSaved(s: State, epoch: nat, began: nat, v: Snapshot, now: nat): State {
    if s.epoch != epoch || (s.snapshot.Some? && s.snapshot.value.value.block > v.block) then s
    else s.(snapshot := Some(Cached(now, began, v)))
  }

  function Recent(words: map<nat, Cached<nat>>, now: nat): map<nat, Cached<nat>> {
    map k | k in words && SatSub(now, words[k].at) < READ_AGE :: words[k]
  }

  function WordsSaved(s: State, epoch: nat, began: nat, key: nat, v: nat, now: nat): State {
    if s.epoch != epoch then s
    else
      var kept := Recent(s.words, now);
      s.(words := (if |kept| >= MAX_WORDS then map[] else kept)[key := Cached(now, began, v)])
  }

  function PositionsSaved(s: State, epoch: nat, began: nat, v: Positions, now: nat): State {
    if s.epoch != epoch then s
    else if s.positions.Some? && s.positions.value.value.owner == v.owner && s.positions.value.value.block > v.block then s
    else s.(owners := s.owners + {v.owner}, ids := (set i | i in v.ids), positions := Some(Cached(now, began, v)))
  }

  function InventorySaved(s: State, epoch: nat, began: nat, owner: nat, ids: set<nat>, now: nat): State {
    if s.epoch != epoch then s else s.(inventory := s.inventory[owner := Cached(now, began, ids)])
  }

  function OwnerWatched(s: State, owner: nat): State { s.(owners := s.owners + {owner}) }

  // -------------------------------- what readers see

  function Young<T>(c: Option<Cached<T>>, now: nat, age: nat): Option<Cached<T>> {
    if c.Some? && SatSub(now, c.value.at) < age then c else None
  }

  function ReadSnapshot(s: State, now: nat): Option<Cached<Snapshot>> { Young(s.snapshot, now, SNAPSHOT_AGE) }

  function ReadWords(s: State, key: nat, now: nat): Option<Cached<nat>> {
    if key in s.words then Young(Some(s.words[key]), now, READ_AGE) else None
  }

  function ReadPositions(s: State, owner: nat, ids: multiset<nat>, maxAge: nat, now: nat): Option<Cached<Positions>> {
    if s.positions.Some? && s.positions.value.value.owner == owner && s.positions.value.value.ids == ids
    then Young(s.positions, now, maxAge) else None
  }

  predicate InventoryRecent(s: State, owner: nat, ids: set<nat>, now: nat) {
    owner in s.inventory && SatSub(now, s.inventory[owner].at) < 60_000 && s.inventory[owner].value == ids
  }

  // ---------------------------------------------------------------- the header chain

  /** Consecutive numbers, each header naming the one before as its parent. */
  ghost predicate Linked(hs: seq<Header>) {
    forall i :: 0 < i < |hs| ==> hs[i].number == hs[i - 1].number + 1 && hs[i].parent == hs[i - 1].hash
  }

  ghost predicate Chain(hs: seq<Header>) { Linked(hs) && |hs| <= MAX_HEADERS }

  /** The end of the 64-bit number range, where the successor saturates and a header replaces the tip. */
  ghost predicate Saturates(s: State, e: Event) {
    e.NewHead? && e.head.Some? && |s.headers| > 0 && s.headers[|s.headers| - 1].number >= U64_MAX
    && !Repeats(s, e.head.value) && !Breaks(s, e.head.value)
  }

  lemma TrimLinks(hs: seq<Header>)
    requires Linked(hs)
    ensures Chain(Trimmed(hs))
  {
    if |hs| > MAX_HEADERS {
      var k := |hs| - MAX_HEADERS;
      var tail := hs[k..];
      forall i | 0 < i < |tail| ensures tail[i].number == tail[i - 1].number + 1 && tail[i].parent == tail[i - 1].hash {
        assert tail[i] == hs[k + i] && tail[i - 1] == hs[k + i - 1];
      }
    }
  }

  lemma AppendLinks(hs: seq<Header>, h: Header)
    requires Linked(hs) && (|hs| > 0 ==> h.number == hs[|hs| - 1].number + 1 && h.parent == hs[|hs| - 1].hash)
    ensures Insert(hs, h) == hs + [h] && Linked(hs + [h])
  {
    var all := hs + [h];
    forall i | 0 < i < |all| ensures all[i].number == all[i - 1].number + 1 && all[i].parent == all[i - 1].hash {
      if i < |hs| { assert all[i] == hs[i] && all[i - 1] == hs[i - 1]; }
    }
  }

  lemma HeadLinks(s: State, h: Header)
    requires Chain(s.headers) && !Saturates(s, NewHead(Some(h)))
    ensures Chain(HeadArrived(s, h).headers)
  {
    if !Repeats(s, h) {
      var hs := if Breaks(s, h) then [] else s.headers;
      AppendLinks(hs, h);
      TrimLinks(hs + [h]);
    }
  }

  lemma ChainStep(s: State, e: Event)
    requires Chain(s.headers) && !Saturates(s, e)
    ensures Chain(Applied(s, e).headers)
  {
    if e.NewHead? && e.head.Some? { HeadLinks(s, e.head.value); }
  }

  /** At the end of the range the replaced tip's predecessor is no longer the new tip's parent, unless their hashes agree. */
  lemma SaturationExactly(s: State, h: Header)
    requires Chain(s.headers) && Saturates(s, NewHead(Some(h))) && h.number <= U64_MAX && s.headers[|s.headers| - 1].number <= U64_MAX
    ensures var n, hs := |s.headers|, HeadArrived(s, h).headers;
            Chain(hs) <==> n == 1 || s.headers[n - 2].hash == s.headers[n - 1].hash
  {
    var n, hs := |s.headers|, HeadArrived(s, h).headers;
    assert Insert(s.headers, h) == s.headers[..n - 1] + [h];
    assert hs == s.headers[..n - 1] + [h];
    if n > 1 { assert hs[n - 1].parent == s.headers[n - 1].hash && hs[n - 2] == s.headers[n - 2]; }
  }

  /** `path` leads from a header to a descendant, parent link by parent link. */
  ghost predicate Path(path: seq<Header>, from: Header, to: Header) {
    |path| > 0 && path[0] == from && path[|path| - 1] == to && Linked(path)
  }

  lemma {:induction false} FindAt(hs: seq<Header>, i: nat)
    requires Linked(hs) && i < |hs|
    ensures Find(hs, hs[0].number + i) == Some(hs[i])
  {
    Consecutive(hs, |hs| - 1);
    if i < |hs| - 1 { FindAt(hs[..|hs| - 1], i); }
  }

  lemma {:induction false} FindBelow(hs: seq<Header>, number: nat)
    requires Linked(hs) && (hs != [] ==> number < hs[0].number)
    ensures Find(hs, number).None?
  {
    if hs != [] {
      Consecutive(hs, |hs| - 1);
      FindBelow(hs[..|hs| - 1], number);
    }
  }

  lemma {:induction false} Consecutive(hs: seq<Header>, i: nat)
    requires Linked(hs) && i < |hs|
    ensures hs[i].number == hs[0].number + i
  {
    if i > 0 { Consecutive(hs, i - 1); }
  }

  function Find(hs: seq<Header>, number: nat): Option<Header> {
    if hs == [] then None
    else if hs[|hs| - 1].number == number then Some(hs[|hs| - 1])
    else Find(hs[..|hs| - 1], number)
  }

  function ConfirmedHeader(s: State, confirmations: nat, now: nat): Option<Header> {
    if !s.connected || !s.headAck || s.headers == [] then None
    else
      var tip := s.headers[|s.headers| - 1];
      if SatSub(now, tip.seen) > HEAD_AGE || tip.number < confirmations then None
      else Find(s.headers, tip.number - confirmations)
  }

  /** The confirmed header is the tip's ancestor exactly `confirmations` links back. */
  lemma ConfirmedIsAncestor(s: State, confirmations: nat, now: nat) returns (path: seq<Header>)
    requires Chain(s.headers) && ConfirmedHeader(s, confirmations, now).Some?
    ensures var tip, h := s.headers[|s.headers| - 1], ConfirmedHeader(s, confirmations, now).value;
            && h.number == tip.number - confirmations
            && Path(path, h, tip) && |path| == confirmations + 1
  {
    var n := |s.headers|;
    Consecutive(s.headers, n - 1);
    ConfirmedAvailable(s, confirmations, now);
    var k := n - 1 - confirmations;
    FindAt(s.headers, k);
    Consecutive(s.headers, k);
    TailIsPath(s.headers, k);
    path := s.headers[k..];
  }

  lemma TailIsPath(hs: seq<Header>, k: nat)
    requires Linked(hs) && k < |hs|
    ensures Path(hs[k..], hs[k], hs[|hs| - 1]) && |hs[k..]| == |hs| - k
  {
    var tail := hs[k..];
    forall i | 0 < i < |tail| ensures tail[i].number == tail[i - 1].number + 1 && tail[i].parent == tail[i - 1].hash {
      assert tail[i] == hs[k + i] && tail[i - 1] == hs[k + i - 1];
    }
  }

  /** It is withheld only for a stopped or stale feed, or a chain not yet long enough. */
  lemma ConfirmedAvailable(s: State, confirmations: nat, now: nat)
    requires Chain(s.headers) && s.headers != []
    ensures ConfirmedHeader(s, confirmations, now).Some? <==>
            s.connected && s.headAck && SatSub(now, s.headers[|s.headers| - 1].seen) <= HEAD_AGE && confirmations < |s.headers|
  {
    var n := |s.headers|;
    Consecutive(s.headers, n - 1);
    if confirmations < n {
      FindAt(s.headers, n - 1 - confirmations);
    } else if s.headers[n - 1].number >= confirmations {
      FindBelow(s.headers, s.headers[n - 1].number - confirmations);
    }
  }

  // ---------------------------------------------------------------- runs

  /** `generation` counts the invalidations; `readers` holds, per reader, the count when it took the epoch. */
  datatype World = World(state: State, generation: nat, readers: seq<nat>)

  datatype Action =
    | Stream(e: Event)
    | WatchOwner(owner: nat)
    | Invalidate
    | Disconnect
    | RejectFeed
    | BeginRead
    | SaveSnapshot(reader: nat, snapshot: Snapshot, now: nat)
    | SaveWords(reader: nat, key: nat, words: nat, now: nat)
    | SavePositions(reader: nat, positions: Positions, now: nat)
    | SaveInventory(reader: nat, owner: nat, ids: set<nat>, now: nat)
    | Anchor(reader: nat, now: nat)

  function EpochOf(generation: nat): nat { generation % EPOCHS }

  function Saving(w: World, a: Action): Option<nat> {
    match a
    case SaveSnapshot(r, _, _) => Some(r)
    case SaveWords(r, _, _, _) => Some(r)
    case SavePositions(r, _, _) => Some(r)
    case SaveInventory(r, _, _, _) => Some(r)
    case Anchor(r, _) => Some(r)
    case _ => None
  }

  function Step(w: World, a: Action): World {
    var s := w.state;
    if Saving(w, a).Some? && Saving(w, a).value >= |w.readers| then w
    else
      match a
      case Stream(e) => w.(state := Applied(s, e), generation := if StartsEpoch(s, e) then w.generation + 1 else w.generation)
      case WatchOwner(owner) => w.(state := OwnerWatched(s, owner))
      case Invalidate => w.(state := Invalidated(s), generation := w.generation + 1)
      case Disconnect => w.(state := FeedReset(s).(connected := false, headAck := false), generation := w.generation + 1)
      case RejectFeed => w.(state := FeedReset(s), generation := w.generation + 1)
      case BeginRead => w.(readers := w.readers + [w.generation])
      case SaveSnapshot(r, v, now) => w.(state := SnapshotSaved(s, EpochOf(w.readers[r]), w.readers[r], v, now))
      case SaveWords(r, key, v, now) => w.(state := WordsSaved(s, EpochOf(w.readers[r]), w.readers[r], key, v, now))
      case SavePositions(r, v, now) => w.(state := PositionsSaved(s, EpochOf(w.readers[r]), w.readers[r], v, now))
      case SaveInventory(r, owner, ids, now) => w.(state := InventorySaved(s, EpochOf(w.readers[r]), w.readers[r], owner, ids, now))
      case Anchor(r, now) => w.(state := if s.epoch == EpochOf(w.readers[r]) then s.(anchor := Some(now)) else s)
  }

  function Run(actions: seq<Action>): World {
    if actions == [] then World(EMPTY, 0, []) else Step(Run(actions[..|actions| - 1]), actions[|actions| - 1])
  }

  /** No save comes 2^64 or more invalidations after its reader began. */
  predicate Prompt(w: World, a: Action) {
    Saving(w, a).Some? && Saving(w, a).value < |w.readers| ==> w.generation - w.readers[Saving(w, a).value] < EPOCHS
  }

  ghost predicate AllPrompt(actions: seq<Action>) {
    actions == [] ||
    var before, a := actions[..|actions| - 1], actions[|actions| - 1];
    AllPrompt(before) && Prompt(Run(before), a) && (a.Stream? ==> !Saturates(Run(before).state, a.e))
  }

  /** Everything cached was read entirely within the current epoch. */
  ghost predicate CachesCurrent(s: State, generation: nat) {
    && (s.snapshot.Some? ==> s.snapshot.value.began == generation)
    && (s.positions.Some? ==> s.positions.value.began == generation)
    && (forall k :: k in s.words ==> s.words[k].began == generation)
    && (forall k :: k in s.inventory ==> s.inventory[k].began == generation)
  }

  ghost predicate Inv(w: World) {
    && w.state.epoch == EpochOf(w.generation) && CachesCurrent(w.state, w.generation) && Chain(w.state.headers)
    && (forall i :: 0 <= i < |w.readers| ==> w.readers[i] <= w.generation)
  }

  lemma EpochStep(g: nat)
    ensures EpochOf(g + 1) == NextEpoch(EpochOf(g))
  {
  }

  lemma CongruentClose(a: nat, b: nat)
    requires a <= b < a + EPOCHS && EpochOf(a) == EpochOf(b)
    ensures a == b
  {
  }

  lemma StreamStep(s: State, e: Event, generation: nat)
    requires CachesCurrent(s, generation)
    ensures var t := Applied(s, e);
            if StartsEpoch(s, e) then t.epoch == NextEpoch(s.epoch) && CachesCurrent(t, generation + 1)
            else t.epoch == s.epoch && CachesCurrent(t, generation)
  {
  }

  lemma SaveStep(w: World, a: Action)
    requires Inv(w) && Prompt(w, a) && Saving(w, a).Some? && Saving(w, a).value < |w.readers|
    ensures Inv(Step(w, a))
  {
    var began := w.readers[Saving(w, a).value];
    if EpochOf(began) == w.state.epoch { CongruentClose(began, w.generation); }
  }

  lemma StepKeeps(w: World, a: Action)
    requires Inv(w) && Prompt(w, a) && (a.Stream? ==> !Saturates(w.state, a.e))
    ensures Inv(Step(w, a))
  {
    EpochStep(w.generation);
    if a.Stream? {
      StreamStep(w.state, a.e, w.generation);
      ChainStep(w.state, a.e);
    } else if Saving(w, a).Some? && Saving(w, a).value < |w.readers| {
      SaveStep(w, a);
    }
  }

  /**
   Over every event sequence, with any readers and saves between, the header map is a parent-linked
   run of consecutive numbers of at most 1024 entries and every cached item was read in the current epoch.
   */
  lemma {:induction false} CachesFollowEpochs(actions: seq<Action>)
    requires AllPrompt(actions)
    ensures Inv(Run(actions))
  {
    if actions != [] {
      CachesFollowEpochs(actions[..|actions| - 1]);
      StepKeeps(Run(actions[..|actions| - 1]), actions[|actions| - 1]);
    }
  }

  /** Whatever any reader is given was saved by someone whose whole read lay in the current epoch, and is young enough. */
  lemma VisibleIsCurrent(actions: seq<Action>, now: nat, key: nat, owner: nat, ids: multiset<nat>, maxAge: nat)
    requires AllPrompt(actions)
    ensures var w := Run(actions);
            var a, b, c := ReadSnapshot(w.state, now), ReadWords(w.state, key, now), ReadPositions(w.state, owner, ids, maxAge, now);
            && (a.Some? ==> a.value.began == w.generation && SatSub(now, a.value.at) < SNAPSHOT_AGE)
            && (b.Some? ==> b.value.began == w.generation && SatSub(now, b.value.at) < READ_AGE)
            && (c.Some? ==> c.value.began == w.generation && SatSub(now, c.value.at) < maxAge
                            && c.value.value.owner == owner && c.value.value.ids == ids)
            && (InventoryRecent(w.state, owner, (set i | i in ids), now) ==> w.state.inventory[owner].began == w.generation)
  {
    CachesFollowEpochs(actions);
  }

  /** One save keeps that exactly when its read began in this epoch or it stores nothing. */
  lemma SaveExactly(w: World, a: Action)
    requires Inv(w) && Saving(w, a).Some? && !a.Anchor? && Saving(w, a).value < |w.readers|
    ensures CachesCurrent(Step(w, a).state, w.generation) <==>
            w.readers[Saving(w, a).value] == w.generation || Step(w, a).state == w.state
  {
    var t := Step(w, a).state;
    match a
    case SaveWords(r, key, v, now) =>
      if t != w.state { assert key in t.words && t.words[key].began == w.readers[r]; }
    case SaveInventory(r, owner, ids, now) =>
      if t != w.state { assert owner in t.inventory && t.inventory[owner].began == w.readers[r]; }
    case _ =>
  }

  lemma RunSnoc(actions: seq<Action>, a: Action)
    ensures Run(actions + [a]) == Step(Run(actions), a)
  {
    assert (actions + [a])[..|actions|] == actions;
  }

  ghost predicate Counted(w: World) { w.state.epoch == EpochOf(w.generation) }

  lemma InvalidateOnce(actions: seq<Action>)
    requires Counted(Run(actions))
    ensures var w, u := Run(actions), Run(actions + [Invalidate]);
            u.generation == w.generation + 1 && u.readers == w.readers && Counted(u)
  {
    RunSnoc(actions, Invalidate);
    EpochStep(Run(actions).generation);
  }

  lemma {:induction false} InvalidateMany(actions: seq<Action>, n: nat) returns (more: seq<Action>)
    requires Counted(Run(actions))
    ensures Run(more).generation == Run(actions).generation + n && Run(more).readers == Run(actions).readers && Counted(Run(more))
  {
    more := actions;
    if n > 0 {
      more := InvalidateMany(actions, n - 1);
      InvalidateOnce(more);
      more := more + [Invalidate];
    }
  }

  /** The bound is needed: after a whole turn of the epoch a stale read is taken for a current one. */
  lemma WrappedRead() returns (actions: seq<Action>)
    ensures !CachesCurrent(Run(actions).state, Run(actions).generation)
  {
    var begun := [] + [BeginRead];
    RunSnoc([], BeginRead);
    var turned := InvalidateMany(begun, EPOCHS);
    var save := SaveWords(0, 1, 1, 0);
    actions := turned + [save];
    RunSnoc(turned, save);
    var w := Run(turned);
    assert Run(begun).readers == [0] && w.readers == [0] && w.generation == EPOCHS;
    assert w.state.epoch == EpochOf(0);
    assert 1 in Run(actions).state.words && Run(actions).state.words[1].began == 0;
  }

  /** And the chain does break at the end of the number range. */
  lemma SaturatedRun() returns (actions: seq<Action>)
    ensures !Linked(Run(actions).state.headers)
  {
    var a, b, c := Header(U64_MAX - 1, 1, 0, 0, 0), Header(U64_MAX, 2, 1, 0, 0), Header(U64_MAX, 3, 2, 0, 0);
    var one := [] + [Stream(NewHead(Some(a)))];
    RunSnoc([], Stream(NewHead(Some(a))));
    RunSnoc(one, Stream(NewHead(Some(b))));
    var two := one + [Stream(NewHead(Some(b)))];
    RunSnoc(two, Stream(NewHead(Some(c))));
    actions := two + [Stream(NewHead(Some(c)))];
    assert Run(one).state.headers == [a];
    assert Run(two).state.headers == [a, b] by { assert [a][..0] == []; }
    assert Run(actions).state.headers == [a, c];
    assert [a, c][1].parent != [a, c][0].hash;
  }

  /** A save is refused exactly when its read was disturbed, up to a whole turn of the 64-bit epoch. */
  lemma RefusedExactly(w: World, reader: nat)
    requires Inv(w) && reader < |w.readers|
    ensures w.state.epoch == EpochOf(w.readers[reader]) <==> (w.generation - w.readers[reader]) % EPOCHS == 0
  {
    var d := w.generation - w.readers[reader];
    assert w.generation == w.readers[reader] + d;
  }

  // ---------------------------------------------------------------- the shared object

  lemma InsertAtEnd(hs: seq<Header>, i: nat, h: Header)
    requires i <= |hs| && (i > 0 ==> hs[i - 1].number <= h.number)
    ensures Insert(hs[..i], h) == (if i > 0 && hs[i - 1].number == h.number then hs[..i - 1] else hs[..i]) + [h]
  {
    if i > 0 { assert hs[..i][..i - 1] == hs[..i - 1] && hs[..i][i - 1] == hs[i - 1]; }
  }

  /** Finds the place from the end, where stream headers belong. */
  method InsertSorted(hs: seq<Header>, h: Header) returns (r: seq<Header>)
    ensures r == Insert(hs, h)
  {
    var i := |hs|;
    assert hs[..i] == hs;
    while i > 0 && hs[i - 1].number > h.number
      invariant 0 <= i <= |hs| && Insert(hs, h) == Insert(hs[..i], h) + hs[i..]
    {
      assert hs[..i][..i - 1] == hs[..i - 1];
      assert [hs[i - 1]] + hs[i..] == hs[i - 1..];
      i := i - 1;
    }
    InsertAtEnd(hs, i, h);
    r := (if i > 0 && hs[i - 1].number == h.number then hs[..i - 1] else hs[..i]) + [h] + hs[i..];
  }

  /** All readers and the stream edit one state behind a mutex. */
  class Shared {
    var state: State

    constructor ()
      ensures state == EMPTY
    {
      state := EMPTY;
    }

    method InsertHeader(h: Header)
      modifies this
      ensures state == old(state).(headers := Trimmed(Insert(old(state.headers), h)))
    {
      var hs := InsertSorted(state.headers, h);
      ghost var all := hs;
      while |hs| > MAX_HEADERS
        invariant |hs| <= |all| && hs == all[|all| - |hs|..]
        invariant |hs| >= MAX_HEADERS || hs == all
      {
        hs := hs[1..];
      }
      state := state.(headers := hs);
    }

    method OnEvent(e: Event)
      modifies this
      ensures state == Applied(old(state), e)
    {
      match e
      case Connected => state := FeedReset(state).(connected := true, headAck := false);
      case Disconnected => state := FeedReset(state).(connected := false, headAck := false);
      case HeadsSubscribed => state := state.(headAck := true);
      case NewHead(h) =>
        if h.None? {
          state := FeedReset(state);
        } else if !Repeats(state, h.value) {
          if Breaks(state, h.value) { state := FeedReset(state); }
          InsertHeader(h.value);
        }
      case LogRemoved => state := FeedReset(state);
      case Swap(priced, block, index) =>
        if priced && (state.latestSwap.None? || state.latestSwap.value.0 < block
                      || (state.latestSwap.value.0 == block && state.latestSwap.value.1 < index)) {
          state := state.(latestSwap := Some((block, index)));
        }
      case LiquidityChanged => state := state.(snapshot := None);
      case Transfer(_, _, _) => if Watched(state, e) { state := Invalidated(state); }
      case NftEvent(_) => if Watched(state, e) { state := Invalidated(state); }
      case Other =>
    }

    method SaveWords(epoch: nat, began: nat, key: nat, v: nat, now: nat)
      modifies this
      ensures state == WordsSaved(old(state), epoch, began, key, v, now)
    {
      if state.epoch != epoch { return; }
      var kept := Recent(state.words, now);
      if |kept| >= MAX_WORDS { kept := map[]; }
      state := state.(words := kept[key := Cached(now, began, v)]);
    }

    method Confirmed(confirmations: nat, now: nat) returns (r: Option<Header>)
      ensures r == ConfirmedHeader(state, confirmations, now)
    {
      if !state.connected || !state.headAck || state.headers == [] { return None; }
      var hs := state.headers;
      var tip := hs[|hs| - 1];
      if SatSub(now, tip.seen) > HEAD_AGE || tip.number < confirmations { return None; }
      var want := tip.number - confirmations;
      var i := |hs|;
      assert hs[..i] == hs;
      while i > 0
        invariant 0 <= i <= |hs| && Find(hs, want) == Find(hs[..i], want)
      {
        if hs[i - 1].number == want { return Some(hs[i - 1]); }
        assert hs[..i][..i - 1] == hs[..i - 1];
        i := i - 1;
      }
      r := None;
    }
  }
}
