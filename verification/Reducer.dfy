/**
  The shared gateway state and its transitions (claude-monitor-codex/src/state.rs), as values.

  JSON is replaced by small datatypes that keep what the transitions look at. A thread always has
  an array of turns and a turn an array of items; identifiers are compared, never inspected; a
  request id is its own map key. The directory decision of a message is an input.
*/
module Reducer {
  import opened Wrappers

  const EVENT_CAPACITY: nat := 128
  const MAX_PART: nat := 4096

  // ---------------------------------------------------------------------------------------
  // Values.

  datatype ItemKind = UserMessage | AgentMessage | Reasoning | ContextCompaction | DynamicTool | OtherKind

  datatype Item = Item(
    id: Name, kind: ItemKind, text: string, output: string, changes: string,
    summary: seq<string>, content: seq<string>, partialFromJoin: bool)

  datatype TurnStatus = InProgress | Ended(code: Name)

  datatype Turn = Turn(id: Name, status: TurnStatus, meta: string, items: seq<Item>)

  datatype Thread = Thread(id: Name, cwd: Option<Name>, legacy: bool, status: Name, turns: seq<Turn>)

  datatype Settings = Settings(cwd: Option<Name>, body: string)

  /** The reply of a native start, resume or read: a thread and the settings around it. */
  datatype Snapshot = Snapshot(thread: Option<Thread>, settings: Settings)

  datatype Scope = Unrestricted | Allowed(source: Name) | OutOfScope

  predicate Permits(scope: Scope, cwd: Option<Name>) {
    cwd.Some? && (scope.Unrestricted? || (scope.Allowed? && scope.source == cwd.value))
  }

  datatype RequestKind = CommandApproval | FileApproval | PermissionApproval | UserInput | ToolCall | OtherRequest

  datatype DeltaKind = AgentText | PlanText | CommandOutput | FileOutput

  datatype PartKind = SummaryText | SummaryAdded | ContentText

  /** The method of a native message together with its parameters. */
  datatype Body =
    | ThreadStarted(thread: Thread)
    | ThreadArchived
    | ThreadUnarchived
    | PlanUpdated(turn: Name, plan: string, wellFormed: bool)
    | SettingsUpdated(settings: Settings)
    | QueueChanged
    | StatusChanged(status: Name)
    | RequestResolved(resolved: Name)
    | TurnStarted(turnValue: Turn)
    | TurnCompleted(turnValue: Turn)
    | ItemStarted(turn: Name, item: Item)
    | ItemCompleted(turn: Name, item: Item)
    | Delta(kind: DeltaKind, turn: Name, itemId: Name, delta: string)
    | PatchUpdated(turn: Name, itemId: Name, changes: string)
    | ReasoningDelta(part: PartKind, turn: Name, itemId: Name, index: nat, delta: string)
    | ServerRequest(request: RequestKind, call: Name, content: string)
    | OtherMethod(code: Name)

  /** `thread` is `params.threadId`; `id` is present on server requests. */
  datatype Message = Message(thread: Option<Name>, id: Option<Name>, body: Body)

  predicate CanRespond(body: Body) {
    body.ServerRequest? && !body.request.ToolCall? && !body.request.OtherRequest?
  }

  predicate AliasKind(kind: ItemKind) {
    kind.UserMessage? || kind.AgentMessage? || kind.Reasoning? || kind.ContextCompaction?
  }

  function ThreadOf(m: Message): Option<Name> {
    if m.thread.Some? then m.thread
    else if m.body.ThreadStarted? then Some(m.body.thread.id) else None
  }

  function TurnOf(body: Body): Option<Name> {
    match body
    case PlanUpdated(turn, _, _) => Some(turn)
    case TurnStarted(turn) => Some(turn.id)
    case TurnCompleted(turn) => Some(turn.id)
    case ItemStarted(turn, _) => Some(turn)
    case ItemCompleted(turn, _) => Some(turn)
    case Delta(_, turn, _, _) => Some(turn)
    case PatchUpdated(turn, _, _) => Some(turn)
    case ReasoningDelta(_, turn, _, _, _) => Some(turn)
    case _ => None
  }

  function ItemOf(body: Body): Option<Name> {
    match body
    case ItemStarted(_, item) => Some(item.id)
    case ItemCompleted(_, item) => Some(item.id)
    case Delta(_, _, item, _) => Some(item)
    case PatchUpdated(_, item, _) => Some(item)
    case ReasoningDelta(_, _, item, _, _) => Some(item)
    case _ => None
  }

  // ---------------------------------------------------------------------------------------
  // The state.

  datatype Connection = Connecting | Connected | Reconnecting

  datatype TurnKey = TurnKey(thread: Name, turn: Name)
  datatype ItemKey = ItemKey(thread: Name, turn: Name, item: Name)

  datatype LiveItem = LiveItem(epoch: nat, completed: bool)
  datatype Provisional = Provisional(epoch: nat, sequence: nat, item: Item)
  datatype Plan = Plan(epoch: nat, sequence: nat, turn: Name, plan: string)

  /** `namespace:epoch:number`, unique to one content of one request. */
  datatype Token = Token(namespace: Name, epoch: nat, number: nat)

  datatype Request = Request(id: Name, thread: Option<Name>, body: Body, token: Token)

  /**
    One event stream. `delivered` is what its channel was ever given, `taken` how much of it the
    reader has read; a detached peer has left the source's list and is kept as history.
  */
  datatype Peer = Peer(joined: nat, delivered: seq<nat>, taken: nat, gone: bool, attached: bool)

  /** Cached native history and settings. */
  datatype Cache = Cache(threads: map<Name, Thread>, settings: map<Name, Settings>)

  /** Approval requests, and which threads may show them. */
  datatype Control = Control(
    pending: map<Name, Request>, subscribed: set<Name>, archived: set<Name>, resumes: map<Name, nat>)

  /** Watermarks: the sequence number of the latest event of a kind. */
  datatype Stamps = Stamps(
    settings: map<Name, nat>, queue: map<Name, nat>, status: map<Name, nat>, turns: map<TurnKey, nat>,
    archive: nat)

  /** `scope` marks the threads closed now; `change` and `access` are proofs against older reads. */
  datatype Fences = Fences(scope: map<Name, nat>, change: map<Name, nat>, access: map<Name, nat>)

  /** What only the current native connection vouches for. */
  datatype Streams = Streams(
    live: map<ItemKey, LiveItem>,
    provisional: map<ItemKey, Provisional>,
    plans: map<TurnKey, Plan>,
    pendingPlans: map<Name, Plan>)

  /** When a legacy history was last read and last known to have grown. */
  datatype Legacy = Legacy(read: map<Name, nat>, dirty: map<Name, nat>)

  datatype Model = Model(
    namespace: Name, restricted: bool, connection: Connection, epoch: nat, sequence: nat, peers: seq<Peer>,
    cache: Cache, control: Control, stamps: Stamps, fences: Fences, streams: Streams, legacy: Legacy)

  const NO_STREAMS := Streams(map[], map[], map[], map[])

  function Initial(namespace: Name, restricted: bool): Model {
    Model(namespace, restricted, Connecting, 0, 0, [], Cache(map[], map[]), Control(map[], {}, {}, map[]),
          Stamps(map[], map[], map[], map[], 0), Fences(map[], map[], map[]), NO_STREAMS, Legacy(map[], map[]))
  }

  /** Messages before Connected is published already belong to the coming epoch. */
  function NativeEpoch(s: Model): nat {
    if s.connection.Connected? then s.epoch else s.epoch + 1
  }

  // ---------------------------------------------------------------------------------------
  // Subscribers and emission.

  /** A full or abandoned channel is cut off; it never skips an event. */
  function Deliver(p: Peer, event: nat): Peer {
    if !p.attached then p
    else if p.gone || |p.delivered| - p.taken >= EVENT_CAPACITY then p.(attached := false)
    else p.(delivered := p.delivered + [event])
  }

  function DeliverAll(peers: seq<Peer>, event: nat): (r: seq<Peer>)
    ensures |r| == |peers|
    ensures forall k :: 0 <= k < |r| ==> r[k] == Deliver(peers[k], event)
  {
    if peers == [] then [] else [Deliver(peers[0], event)] + DeliverAll(peers[1..], event)
  }

  /** Dropping every sender leaves each reader what it was already given. */
  function DetachAll(peers: seq<Peer>): (r: seq<Peer>)
    ensures |r| == |peers|
    ensures forall k :: 0 <= k < |r| ==> r[k] == peers[k].(attached := false)
  {
    if peers == [] then [] else [peers[0].(attached := false)] + DetachAll(peers[1..])
  }

  function Emit(s: Model): Model {
    s.(sequence := s.sequence + 1, peers := DeliverAll(s.peers, s.sequence + 1))
  }

  function Subscribe(s: Model): Model {
    s.(peers := s.peers + [Peer(s.sequence, [], 0, false, true)])
  }

  /** The reader of channel `k` takes one event, or goes away. */
  function TakeEvent(s: Model, k: nat): Model {
    if k < |s.peers| && s.peers[k].taken < |s.peers[k].delivered|
    then s.(peers := s.peers[k := s.peers[k].(taken := s.peers[k].taken + 1)]) else s
  }

  function LeaveStream(s: Model, k: nat): Model {
    if k < |s.peers| then s.(peers := s.peers[k := s.peers[k].(gone := true)]) else s
  }

  // ---------------------------------------------------------------------------------------
  // Removing what belongs to one thread or turn.

  function DropPending(pending: map<Name, Request>, thread: Name): map<Name, Request> {
    map k | k in pending && pending[k].thread != Some(thread) :: pending[k]
  }

  function DropTurns<V>(m: map<TurnKey, V>, thread: Name): map<TurnKey, V> {
    map k | k in m && k.thread != thread :: m[k]
  }

  function DropItems<V>(m: map<ItemKey, V>, thread: Name): map<ItemKey, V> {
    map k | k in m && k.thread != thread :: m[k]
  }

  function DropTurnItems<V>(m: map<ItemKey, V>, thread: Name, turn: Name): map<ItemKey, V> {
    map k | k in m && !(k.thread == thread && k.turn == turn) :: m[k]
  }

  function ClearProvisional(s: Model, thread: Name): Model {
    s.(streams := s.streams.(provisional := DropItems(s.streams.provisional, thread)),
       legacy := Legacy(s.legacy.read - {thread}, s.legacy.dirty - {thread}))
  }

  // ---------------------------------------------------------------------------------------
  // Connection changes.

  function StableItems(thread: Name, turn: Name, items: seq<Item>, live: map<ItemKey, LiveItem>): seq<Item> {
    if items == [] then []
    else
      (if ItemKey(thread, turn, items[0].id) in live then [] else [items[0]])
      + StableItems(thread, turn, items[1..], live)
  }

  function StableTurns(thread: Name, turns: seq<Turn>, live: map<ItemKey, LiveItem>): seq<Turn> {
    if turns == [] then []
    else
      [turns[0].(items := StableItems(thread, turns[0].id, turns[0].items, live))]
      + StableTurns(thread, turns[1..], live)
  }

  function StableThreads(threads: map<Name, Thread>, live: map<ItemKey, LiveItem>): map<Name, Thread> {
    map id | id in threads :: threads[id].(turns := StableTurns(id, threads[id].turns, live))
  }

  /** Everything the previous native connection vouched for is forgotten. */
  function DropGeneration(s: Model): Model {
    s.(control := s.control.(resumes := map[]),
       cache := s.cache.(threads := StableThreads(s.cache.threads, s.streams.live)),
       streams := NO_STREAMS,
       stamps := s.stamps.(turns := map[]),
       legacy := Legacy(map[], map[]))
  }

  function Connect(s: Model, c: Connection): Model {
    var kept := if !c.Connected? || s.connection.Connected? then DropGeneration(s) else s;
    Emit(kept.(connection := c, epoch := s.epoch + if c.Connected? then 1 else 0))
  }

  function Deactivate(s: Model): Model {
    var t := Emit(s);
    t.(peers := DetachAll(t.peers), cache := t.cache.(threads := map[]),
       control := t.control.(subscribed := {}, pending := map[]))
  }

  // ---------------------------------------------------------------------------------------
  // Resumes.

  function BeginResume(s: Model, thread: Name): Model {
    var pending := if thread in s.control.archived && thread !in s.control.resumes then DropPending(s.control.pending, thread)
                   else s.control.pending;
    var count := if thread in s.control.resumes then s.control.resumes[thread] else 0;
    s.(control := s.control.(pending := pending, resumes := s.control.resumes[thread := count + 1]))
  }

  /** A stored count of zero would underflow; no run stores one. */
  predicate Underflows(s: Model, thread: Name) {
    thread in s.control.resumes && s.control.resumes[thread] == 0
  }

  function FinishResume(s: Model, thread: Name): Model
    requires !Underflows(s, thread)
  {
    var resumes :=
      if thread !in s.control.resumes then s.control.resumes
      else if s.control.resumes[thread] == 1 then s.control.resumes - {thread}
      else s.control.resumes[thread := s.control.resumes[thread] - 1];
    var pending := if thread in s.control.archived && thread !in resumes then DropPending(s.control.pending, thread)
                   else s.control.pending;
    s.(control := s.control.(resumes := resumes, pending := pending))
  }

  /** A failed resume gives back the subscription it reserved (client.rs, `finalize_resume`). */
  function ReleaseReservation(s: Model, thread: Name): Model {
    ClearProvisional(
      s.(control := s.control.(subscribed := s.control.subscribed - {thread},
                               pending := DropPending(s.control.pending, thread))),
      thread)
  }

  /** Recovery found the thread archived by another client (client.rs, `bootstrap`). */
  function RecoverArchived(s: Model, thread: Name): Model {
    Emit(ClearProvisional(
           s.(control := s.control.(archived := s.control.archived + {thread},
                                    pending := DropPending(s.control.pending, thread)),
              cache := s.cache.(settings := s.cache.settings - {thread})),
           thread))
  }

  /** Recovery failed for any other reason (client.rs, `bootstrap`). */
  function RecoveryFailed(s: Model, thread: Name): Model {
    Emit(ClearProvisional(
           s.(cache := Cache(s.cache.threads - {thread}, s.cache.settings - {thread}),
              control := s.control.(subscribed := s.control.subscribed - {thread})),
           thread))
  }

  // ---------------------------------------------------------------------------------------
  // Fences.

  predicate Newer<K>(stamps: map<K, nat>, key: K, after: nat) {
    key in stamps && stamps[key] > after
  }

  predicate Invalidated(s: Model, thread: Name, after: nat) {
    Newer(s.fences.change, thread, after) || Newer(s.fences.access, thread, after)
  }

  function ForgetOutsideScope(s: Model, thread: Name): Model {
    var st := s.stamps;
    var cleared := ClearProvisional(s, thread);
    Emit(cleared.(
      stamps := Stamps(st.settings - {thread}, st.queue - {thread}, st.status - {thread},
                       DropTurns(st.turns, thread), st.archive),
      fences := Fences(s.fences.scope[thread := s.sequence + 1], s.fences.change[thread := s.sequence + 1],
                       s.fences.access - {thread}),
      streams := Streams(DropItems(s.streams.live, thread), cleared.streams.provisional,
                         DropTurns(s.streams.plans, thread), s.streams.pendingPlans - {thread}),
      cache := Cache(s.cache.threads - {thread}, s.cache.settings - {thread}),
      control := Control(DropPending(s.control.pending, thread), s.control.subscribed - {thread},
                         s.control.archived - {thread}, s.control.resumes - {thread})))
  }

  // ---------------------------------------------------------------------------------------
  // Finding turns and items: the first with an id, or the length when there is none.

  function FindTurn(turns: seq<Turn>, id: Name): (k: nat)
    ensures k <= |turns|
    ensures k < |turns| ==> turns[k].id == id
    ensures forall j :: 0 <= j < k ==> turns[j].id != id
  {
    if turns == [] || turns[0].id == id then 0 else 1 + FindTurn(turns[1..], id)
  }

  function FindItem(items: seq<Item>, id: Name): (k: nat)
    ensures k <= |items|
    ensures k < |items| ==> items[k].id == id
    ensures forall j :: 0 <= j < k ==> items[j].id != id
  {
    if items == [] || items[0].id == id then 0 else 1 + FindItem(items[1..], id)
  }

  predicate HasTurn(turns: seq<Turn>, id: Name) {
    FindTurn(turns, id) < |turns|
  }

  predicate HasItem(items: seq<Item>, id: Name) {
    FindItem(items, id) < |items|
  }

  predicate AnyOpen(turns: seq<Turn>) {
    exists k :: 0 <= k < |turns| && turns[k].status.InProgress?
  }

  predicate TurnOpen(turns: seq<Turn>, id: Name) {
    exists k :: 0 <= k < |turns| && turns[k].id == id && turns[k].status.InProgress?
  }

  // ---------------------------------------------------------------------------------------
  // Plans.

  predicate KnowsTurn(s: Model, thread: Name, turn: Name) {
    thread in s.cache.threads && HasTurn(s.cache.threads[thread].turns, turn)
  }

  function RetainedPlans(s: Model, thread: Name, after: Option<nat>): map<TurnKey, Plan> {
    map k | k in s.streams.plans
            && (k.thread != thread
                || (s.streams.plans[k].epoch == NativeEpoch(s)
                    && (KnowsTurn(s, thread, k.turn)
                        || (after.Some? && s.streams.plans[k].sequence > after.value))))
      :: s.streams.plans[k]
  }

  /** Whether the thread's waiting plan stays, is dropped, or joins the plans of a confirmed turn. */
  predicate Confirms(s: Model, thread: Name) {
    && thread in s.streams.pendingPlans
    && s.streams.pendingPlans[thread].epoch == NativeEpoch(s)
    && KnowsTurn(s, thread, s.streams.pendingPlans[thread].turn)
  }

  predicate StillWaiting(s: Model, thread: Name) {
    && thread in s.streams.pendingPlans
    && s.streams.pendingPlans[thread].epoch == NativeEpoch(s)
    && !KnowsTurn(s, thread, s.streams.pendingPlans[thread].turn)
  }

  function Raise(stamps: map<TurnKey, nat>, key: TurnKey, sequence: nat): map<TurnKey, nat> {
    if key in stamps && stamps[key] > sequence then stamps else stamps[key := sequence]
  }

  /** `retain_plans_for_history`: plans follow the turns a history confirms. */
  function RetainPlans(s: Model, thread: Name, after: Option<nat>): Model {
    var plans := RetainedPlans(s, thread, after);
    if Confirms(s, thread) then
      var update := s.streams.pendingPlans[thread];
      var key := TurnKey(thread, update.turn);
      s.(stamps := s.stamps.(turns := Raise(s.stamps.turns, key, update.sequence)),
         streams := s.streams.(plans := plans[key := update], pendingPlans := s.streams.pendingPlans - {thread}))
    else
      var waiting := if StillWaiting(s, thread) then s.streams.pendingPlans else s.streams.pendingPlans - {thread};
      s.(streams := s.streams.(plans := plans, pendingPlans := waiting))
  }

  // ---------------------------------------------------------------------------------------
  // Merging a native snapshot.

  /** Metadata of `source` around the items of `target`. */
  function CopyMetadata(target: Turn, source: Turn): Turn {
    source.(items := target.items)
  }

  /** One cached turn that is newer than the snapshot. */
  function MergeTurn(turns: seq<Turn>, cached: Turn, legacy: bool): seq<Turn> {
    var k := FindTurn(turns, cached.id);
    if k < |turns| then
      if cached.status.InProgress? then turns
      else turns[k := if legacy then CopyMetadata(turns[k], cached) else cached]
    else turns + [if legacy then cached.(items := []) else cached]
  }

  /** Cached turns touched after the watermark, in cache order. */
  function MergeNewer(turns: seq<Turn>, cache: seq<Turn>, thread: Name, stamps: map<TurnKey, nat>,
                      after: nat, legacy: bool): seq<Turn>
    decreases |cache|
  {
    if cache == [] then turns
    else
      var merged := if Newer(stamps, TurnKey(thread, cache[0].id), after)
                    then MergeTurn(turns, cache[0], legacy) else turns;
      MergeNewer(merged, cache[1..], thread, stamps, after, legacy)
  }

  /** One cached item of a turn that both sides show in progress. */
  function MergeItem(items: seq<Item>, cached: Item, completed: bool): seq<Item> {
    var k := FindItem(items, cached.id);
    if k == |items| then items + [cached]
    else if completed then items
    else items[k := cached]
  }

  /** The current connection vouches for the cached item, and its id can be compared. */
  predicate Eligible(item: Item, key: ItemKey, live: map<ItemKey, LiveItem>, epoch: nat, legacy: bool) {
    key in live && live[key].epoch == epoch && !(legacy && AliasKind(item.kind))
  }

  function MergeItems(items: seq<Item>, cache: seq<Item>, thread: Name, turn: Name,
                      live: map<ItemKey, LiveItem>, epoch: nat, legacy: bool): seq<Item>
    decreases |cache|
  {
    if cache == [] then items
    else
      var key := ItemKey(thread, turn, cache[0].id);
      var merged := if Eligible(cache[0], key, live, epoch, legacy) then MergeItem(items, cache[0], live[key].completed)
                    else items;
      MergeItems(merged, cache[1..], thread, turn, live, epoch, legacy)
  }

  /** The first cached turn in progress with this id, or the length. */
  function FindOpenTurn(turns: seq<Turn>, id: Name): (k: nat)
    ensures k <= |turns|
    ensures k < |turns| ==> turns[k].id == id && turns[k].status.InProgress?
    ensures forall j :: 0 <= j < k ==> !(turns[j].id == id && turns[j].status.InProgress?)
  {
    if turns == [] || (turns[0].id == id && turns[0].status.InProgress?) then 0
    else 1 + FindOpenTurn(turns[1..], id)
  }

  function MergeLive(turns: seq<Turn>, cache: seq<Turn>, thread: Name,
                     live: map<ItemKey, LiveItem>, epoch: nat, legacy: bool): (r: seq<Turn>)
    ensures |r| == |turns|
    ensures forall k {:trigger r[k]} :: 0 <= k < |r| ==> r[k] == OpenTurnMerged(turns[k], cache, thread, live, epoch, legacy)
  {
    if turns == [] then []
    else [OpenTurnMerged(turns[0], cache, thread, live, epoch, legacy)]
         + MergeLive(turns[1..], cache, thread, live, epoch, legacy)
  }

  function OpenTurnMerged(turn: Turn, cache: seq<Turn>, thread: Name,
                          live: map<ItemKey, LiveItem>, epoch: nat, legacy: bool): Turn
  {
    var at := FindOpenTurn(cache, turn.id);
    if !turn.status.InProgress? || at == |cache| then turn
    else turn.(items := MergeItems(turn.items, cache[at].items, thread, turn.id, live, epoch, legacy))
  }

  function CacheOf(s: Model, thread: Name): seq<Turn> {
    if thread in s.cache.threads then s.cache.threads[thread].turns else []
  }

  function MergedTurns(s: Model, thread: Thread, after: Option<nat>): seq<Turn> {
    if after.None? then thread.turns
    else
      var cache := CacheOf(s, thread.id);
      var newer := MergeNewer(thread.turns, cache, thread.id, s.stamps.turns, after.value, thread.legacy);
      MergeLive(newer, cache, thread.id, s.streams.live, NativeEpoch(s), thread.legacy)
  }

  predicate NewerAfter(stamps: map<Name, nat>, thread: Name, after: Option<nat>) {
    after.Some? && Newer(stamps, thread, after.value)
  }

  function MergedThread(s: Model, result: Snapshot, after: Option<nat>): Thread
    requires result.thread.Some?
  {
    var thread := result.thread.value;
    var id := thread.id;
    var status := if NewerAfter(s.stamps.status, id, after) && id in s.cache.threads then s.cache.threads[id].status
                  else thread.status;
    var cwd := if NewerAfter(s.stamps.settings, id, after) && id in s.cache.settings && s.cache.settings[id].cwd.Some?
               then s.cache.settings[id].cwd else thread.cwd;
    thread.(status := status, turns := MergedTurns(s, thread, after), cwd := cwd)
  }

  /** A live entry retires when the snapshot's version of its item won. */
  predicate SnapshotWins(turns: seq<Turn>, key: ItemKey, live: LiveItem, after: Option<nat>) {
    var k := FindTurn(turns, key.turn);
    && k < |turns|
    && (after.None? || !turns[k].status.InProgress? || live.completed)
    && HasItem(turns[k].items, key.item)
  }

  function RetainedLive(s: Model, thread: Thread, after: Option<nat>): map<ItemKey, LiveItem> {
    map k | k in s.streams.live
            && (k.thread != thread.id || !SnapshotWins(thread.turns, k, s.streams.live[k], after))
      :: s.streams.live[k]
  }

  function RetainedProvisional(s: Model, merged: Thread): map<ItemKey, Provisional> {
    map k | k in s.streams.provisional
            && (k.thread != merged.id
                || (merged.legacy && s.streams.provisional[k].epoch == NativeEpoch(s)
                    && TurnOpen(merged.turns, k.turn)))
      :: s.streams.provisional[k]
  }

  /** The merged thread, its settings and the streams the snapshot leaves standing. */
  function Absorb(s: Model, result: Snapshot, after: Option<nat>): Model
    requires result.thread.Some?
  {
    var thread := result.thread.value;
    var id := thread.id;
    var merged := MergedThread(s, result, after);
    s.(cache := Cache(s.cache.threads[id := merged],
                      if NewerAfter(s.stamps.settings, id, after) then s.cache.settings
                      else s.cache.settings[id := result.settings]),
       streams := s.streams.(live := RetainedLive(s, thread, after), provisional := RetainedProvisional(s, merged)),
       legacy := if thread.legacy
                 then s.legacy.(read := s.legacy.read[id := if after.Some? then after.value else s.sequence])
                 else Legacy(s.legacy.read - {id}, s.legacy.dirty - {id}))
  }

  /** The thread is attached, out of the archive and in scope again. */
  function Reopen(s: Model, thread: Name): Model {
    s.(fences := s.fences.(scope := s.fences.scope - {thread}),
       control := s.control.(archived := s.control.archived - {thread}, subscribed := s.control.subscribed + {thread}))
  }

  function AcceptSnapshot(s: Model, result: Snapshot, after: Option<nat>): Model
    requires result.thread.Some?
  {
    var id := result.thread.value.id;
    Reopen(RetainPlans(Absorb(s, result, after), id, after), id)
  }

  function SnapshotCwd(result: Snapshot): Option<Name> {
    if result.settings.cwd.Some? then result.settings.cwd
    else if result.thread.Some? then result.thread.value.cwd else None
  }

  function Remember(s: Model, result: Snapshot, after: Option<nat>, scope: Scope): Model {
    if result.thread.None? then s
    else
      var id := result.thread.value.id;
      if after.Some? && Invalidated(s, id, after.value) then s
      else if s.restricted && !Permits(scope, SnapshotCwd(result)) then ForgetOutsideScope(s, id)
      else AcceptSnapshot(s, result, after)
  }

  predicate ArchivedReadStale(s: Model, thread: Thread, epoch: nat, after: nat, scope: Scope) {
    var id := thread.id;
    || !s.connection.Connected?
    || s.epoch != epoch
    || s.stamps.archive > after
    || Newer(s.fences.change, id, after)
    || Newer(s.stamps.status, id, after)
    || Newer(s.stamps.settings, id, after)
    || Newer(s.stamps.queue, id, after)
    || Newer(s.fences.access, id, after)
    || (exists k :: k in s.stamps.turns && k.thread == id && s.stamps.turns[k] > after)
    || !Permits(scope, thread.cwd)
  }

  function RememberArchived(s: Model, thread: Thread, epoch: nat, after: nat, scope: Scope): Model {
    if ArchivedReadStale(s, thread, epoch, after, scope) then s
    else
      var id := thread.id;
      var t := ClearProvisional(
                 s.(cache := Cache(s.cache.threads[id := thread], s.cache.settings - {id}),
                    control := s.control.(archived := s.control.archived + {id},
                                          pending := DropPending(s.control.pending, id)),
                    streams := s.streams.(live := DropItems(s.streams.live, id))),
                 id);
      var u := RetainPlans(t, id, Some(after));
      u.(control := u.control.(subscribed := u.control.subscribed + {id}))
  }

  // ---------------------------------------------------------------------------------------
  // Reducing a native message.

  /** Even an unattached thread's archive event invalidates inventory reads in flight. */
  function ArchiveStage(s: Model, m: Message): Model {
    if !(m.body.ThreadArchived? || m.body.ThreadUnarchived?) then s
    else
      var thread := ThreadOf(m);
      var stamped := s.(stamps := s.stamps.(archive := s.sequence + 1));
      if thread.None? || !(thread.value in s.cache.threads || thread.value in s.control.subscribed) then stamped
      else
        var id := thread.value;
        var fenced := stamped.(fences := s.fences.(access := s.fences.access[id := s.sequence + 1]));
        if m.body.ThreadUnarchived? then fenced
        else
          ClearProvisional(
            fenced.(control := s.control.(archived := s.control.archived + {id},
                                          pending := DropPending(s.control.pending, id))),
            id)
  }

  predicate PlanAdmitted(s: Model, m: Message, scope: Scope)
    requires m.body.PlanUpdated?
  {
    && m.thread.Some? && m.thread.value != NO_NAME && m.body.turn != NO_NAME
    && m.thread.value in s.control.subscribed && m.thread.value !in s.fences.scope
    && m.thread.value in s.cache.threads
    && (s.restricted ==> Permits(scope, s.cache.threads[m.thread.value].cwd))
    && m.body.wellFormed
  }

  /** A plan of a turn not yet known waits, one per thread. */
  function StorePlan(streams: Streams, known: bool, thread: Name, update: Plan): Streams {
    var waiting := streams.pendingPlans;
    if known then
      streams.(pendingPlans := if thread in waiting && waiting[thread].turn == update.turn then waiting - {thread}
                               else waiting,
               plans := streams.plans[TurnKey(thread, update.turn) := update])
    else streams.(pendingPlans := waiting[thread := update])
  }

  function PlanStage(s: Model, m: Message, scope: Scope): Model {
    if !m.body.PlanUpdated? || !PlanAdmitted(s, m, scope) then s
    else
      var thread := m.thread.value;
      var update := Plan(NativeEpoch(s), s.sequence + 1, m.body.turn, m.body.plan);
      s.(streams := StorePlan(s.streams, KnowsTurn(s, thread, m.body.turn), thread, update))
  }

  /** A replayed request keeps its token; anything else gets a new one. */
  function TokenFor(s: Model, m: Message): Token
    requires m.id.Some?
  {
    var key := m.id.value;
    if key in s.control.pending && s.control.pending[key].thread == m.thread && s.control.pending[key].body == m.body
       && s.control.pending[key].token.namespace == s.namespace && s.control.pending[key].token.epoch == NativeEpoch(s)
    then s.control.pending[key].token
    else Token(s.namespace, NativeEpoch(s), s.sequence + 1)
  }

  function RequestStage(s: Model, m: Message): Model {
    if m.id.None? then s
    else
      var request := Request(m.id.value, m.thread, m.body, TokenFor(s, m));
      s.(control := s.control.(pending := s.control.pending[m.id.value := request]))
  }

  predicate OwnedToolCall(r: Request, m: Message)
    requires m.body.ItemCompleted?
  {
    r.body.ServerRequest? && r.body.request.ToolCall? && r.thread == m.thread && r.body.call == m.body.item.id
  }

  function DropToolCalls(pending: map<Name, Request>, m: Message): map<Name, Request>
    requires m.body.ItemCompleted?
  {
    map k | k in pending && !OwnedToolCall(pending[k], m) :: pending[k]
  }

  function StampStage(s: Model, m: Message, id: Option<Name>): Model {
    match m.body
    case SettingsUpdated(settings) =>
      if m.thread.None? then s
      else
        var thread := m.thread.value;
        s.(cache := Cache(if thread in s.cache.threads
                          then s.cache.threads[thread := s.cache.threads[thread].(cwd := settings.cwd)]
                          else s.cache.threads,
                          s.cache.settings[thread := settings]),
           stamps := s.stamps.(settings := s.stamps.settings[thread := s.sequence + 1]))
    case QueueChanged =>
      if id.None? then s
      else s.(stamps := s.stamps.(queue := s.stamps.queue[id.value := s.sequence + 1]))
    case StatusChanged(_) =>
      if id.None? then s
      else s.(stamps := s.stamps.(status := s.stamps.status[id.value := s.sequence + 1]))
    case RequestResolved(resolved) => s.(control := s.control.(pending := s.control.pending - {resolved}))
    case ItemCompleted(_, item) =>
      if !item.kind.DynamicTool? then s
      else s.(control := s.control.(pending := DropToolCalls(s.control.pending, m)))
    case ThreadStarted(thread) => s.(cache := s.cache.(threads := s.cache.threads[thread.id := thread]))
    case _ => s
  }

  // The legacy projection: unfinished Core streams live beside a history whose ids are aliases.

  function Pad(parts: seq<string>, n: nat): (r: seq<string>)
    ensures |r| == if |parts| < n then n else |parts|
    decreases n - |parts|
  {
    if |parts| >= n then parts else Pad(parts + [""], n)
  }

  function AppendPart(parts: seq<string>, index: nat, delta: string): seq<string> {
    var padded := Pad(parts, index + 1);
    padded[index := padded[index] + delta]
  }

  function AppendReasoning(item: Item, part: PartKind, index: nat, delta: string): Item {
    if index > MAX_PART then item
    else if part.ContentText? then item.(content := AppendPart(item.content, index, delta))
    else item.(summary := AppendPart(item.summary, index, delta))
  }

  function JoinedItem(id: Name, kind: ItemKind): Item {
    Item(id, kind, "", "", "", [], [], true)
  }

  predicate LegacyStream(body: Body) {
    || (body.Delta? && body.kind.AgentText?)
    || body.ReasoningDelta?
    || ((body.ItemStarted? || body.ItemCompleted?) && AliasKind(body.item.kind))
  }

  function StreamItem(before: Option<Item>, body: Body): Item
    requires LegacyStream(body) && !body.ItemCompleted?
  {
    match body
    case ItemStarted(_, item) => item
    case Delta(_, _, id, delta) =>
      var item := if before.Some? then before.value else JoinedItem(id, AgentMessage);
      item.(text := item.text + delta)
    case ReasoningDelta(part, _, id, index, delta) =>
      AppendReasoning(if before.Some? then before.value else JoinedItem(id, Reasoning), part, index, delta)
  }

  predicate ShowsStream(body: Body) {
    body.Delta? || body.ReasoningDelta?
    || (body.ItemStarted? && (body.item.kind.AgentMessage? || body.item.kind.Reasoning?))
  }

  /** An attached legacy history has grown and wants another read. */
  function MarkDirty(s: Model, id: Name): Legacy {
    if id in s.control.archived then s.legacy else s.legacy.(dirty := s.legacy.dirty[id := s.sequence + 1])
  }

  function LegacyClosed(s: Model, id: Name, turn: Turn): Model
    requires id in s.cache.threads
  {
    var turns := s.cache.threads[id].turns;
    var k := FindTurn(turns, turn.id);
    var turns' := if k < |turns| then turns[k := CopyMetadata(turns[k], turn)] else turns + [turn.(items := [])];
    s.(legacy := MarkDirty(s, id),
       cache := s.cache.(threads := s.cache.threads[id := s.cache.threads[id].(turns := turns')]),
       streams := s.streams.(provisional := DropTurnItems(s.streams.provisional, id, turn.id),
                             live := DropTurnItems(s.streams.live, id, turn.id)),
       stamps := s.stamps.(turns := s.stamps.turns[TurnKey(id, turn.id) := s.sequence + 1]))
  }

  function LegacyCompleted(s: Model, id: Name, turn: Turn): Model
    requires id in s.cache.threads
  {
    Emit(RetainPlans(LegacyClosed(s, id, turn), id, Some(s.sequence + 1)))
  }

  /** A stream keeps the place of its first event. */
  function StreamUpdate(provisional: map<ItemKey, Provisional>, key: ItemKey, epoch: nat, next: nat,
                        body: Body): Provisional
    requires LegacyStream(body) && !body.ItemCompleted?
  {
    var before := if key in provisional then Some(provisional[key].item) else None;
    var sequence := if key in provisional then provisional[key].sequence else next;
    Provisional(epoch, sequence, StreamItem(before, body))
  }

  function StreamedItems(s: Model, key: ItemKey, body: Body): map<ItemKey, Provisional>
    requires LegacyStream(body)
  {
    var provisional := s.streams.provisional;
    if body.ItemCompleted? then provisional - {key}
    else if key.thread in s.control.archived || !ShowsStream(body) then provisional
    else provisional[key := StreamUpdate(provisional, key, NativeEpoch(s), s.sequence + 1, body)]
  }

  function StreamStage(s: Model, key: ItemKey, body: Body): Model
    requires LegacyStream(body)
  {
    s.(stamps := s.stamps.(turns := s.stamps.turns[TurnKey(key.thread, key.turn) := s.sequence + 1]),
       legacy := if body.ItemCompleted? then MarkDirty(s, key.thread) else s.legacy,
       streams := s.streams.(provisional := StreamedItems(s, key, body)))
  }

  function LegacyStreamed(s: Model, id: Name, turn: Name, item: Name, body: Body): Model
    requires LegacyStream(body)
  {
    Emit(StreamStage(s, ItemKey(id, turn, item), body))
  }

  /** `reduce_legacy_projection`: None when the message is not handled there. */
  function LegacyProjection(s: Model, id: Name, body: Body): Option<Model> {
    var legacy := id in s.cache.threads && s.cache.threads[id].legacy;
    var turn, item := TurnOf(body), ItemOf(body);
    if (id in s.cache.threads && !legacy) || turn.None? || turn.value == NO_NAME then None
    else if body.TurnCompleted? && legacy then Some(LegacyCompleted(s, id, body.turnValue))
    else if !LegacyStream(body) || item.None? || item.value == NO_NAME then None
    // The one path that consumes a message without emitting.
    else if legacy && id in s.control.archived && !body.ItemCompleted? then Some(s)
    else Some(LegacyStreamed(s, id, turn.value, item.value, body))
  }

  // The ordinary projection: events applied to the cached turns.

  function UpsertTurn(turns: seq<Turn>, turn: Turn): seq<Turn> {
    var k := FindTurn(turns, turn.id);
    if k < |turns| then turns[k := if turn.items == [] then turn.(items := turns[k].items) else turn]
    else turns + [turn]
  }

  function UpsertItem(items: seq<Item>, item: Item): seq<Item> {
    var k := FindItem(items, item.id);
    if k < |items| then items[k := item] else items + [item]
  }

  /** A late subscriber shows what follows as a partial message. */
  function JoinLate(turns: seq<Turn>, turn: Name, item: Name): seq<Turn> {
    var k := FindOpenTurn(turns, turn);
    if k == |turns| || item == NO_NAME || HasItem(turns[k].items, item) then turns
    else turns[k := turns[k].(items := turns[k].items + [JoinedItem(item, AgentMessage)])]
  }

  function ApplyDelta(item: Item, body: Body): Item {
    match body
    case Delta(kind, _, _, delta) =>
      if kind.CommandOutput? || kind.FileOutput? then item.(output := item.output + delta)
      else item.(text := item.text + delta)
    case PatchUpdated(_, _, changes) => item.(changes := changes)
    case ReasoningDelta(part, _, _, index, delta) => AppendReasoning(item, part, index, delta)
    case _ => item
  }

  function UpdateItems(items: seq<Item>, body: Body): seq<Item> {
    match body
    case ItemStarted(_, item) => UpsertItem(items, item)
    case ItemCompleted(_, item) => UpsertItem(items, item)
    case _ =>
      if ItemOf(body).None? then items
      else
        var k := FindItem(items, ItemOf(body).value);
        if k < |items| then items[k := ApplyDelta(items[k], body)] else items
  }

  /** The items of the first turn an item event names. */
  function UpdateInTurn(turns: seq<Turn>, body: Body): seq<Turn> {
    if ItemOf(body).None? || TurnOf(body).None? then turns
    else
      var k := FindTurn(turns, TurnOf(body).value);
      if k < |turns| then turns[k := turns[k].(items := UpdateItems(turns[k].items, body))] else turns
  }

  function UpdateTurns(turns: seq<Turn>, body: Body): seq<Turn> {
    match body
    case TurnStarted(turn) => UpsertTurn(turns, turn)
    case TurnCompleted(turn) => UpsertTurn(turns, turn)
    case Delta(kind, turn, item, _) =>
      UpdateInTurn(if kind.AgentText? then JoinLate(turns, turn, item) else turns, body)
    case _ => UpdateInTurn(turns, body)
  }

  function ContentStage(s: Model, id: Name, body: Body): Model {
    if id !in s.cache.threads then s
    else
      var thread := s.cache.threads[id];
      var status := if body.StatusChanged? then body.status else thread.status;
      s.(cache := s.cache.(
           threads := s.cache.threads[id := thread.(status := status, turns := UpdateTurns(thread.turns, body))]))
  }

  function TouchLive(live: map<ItemKey, LiveItem>, key: ItemKey, epoch: nat, body: Body): map<ItemKey, LiveItem> {
    var completed := if body.ItemCompleted? then true
                     else if body.ItemStarted? || key !in live then false
                     else live[key].completed;
    live[key := LiveItem(epoch, completed)]
  }

  function TouchStage(s: Model, id: Name, turn: Name, body: Body): Model {
    var key := TurnKey(id, turn);
    if body.PlanUpdated? && key !in s.streams.plans then s
    else
      var live := if ItemOf(body).None? then s.streams.live
                  else TouchLive(s.streams.live, ItemKey(id, turn, ItemOf(body).value), NativeEpoch(s), body);
      s.(stamps := s.stamps.(turns := s.stamps.turns[key := s.sequence + 1]),
         streams := s.streams.(live := live))
  }

  /** A completed turn keeps no stream. */
  function Settle(s: Model, id: Name, turn: Name): Model {
    s.(streams := s.streams.(live := DropTurnItems(s.streams.live, id, turn),
                             provisional := DropTurnItems(s.streams.provisional, id, turn)),
       legacy := if id in s.cache.threads then s.legacy else MarkDirty(s, id))
  }

  function TurnStage(s: Model, id: Name, turn: Name, body: Body): Model {
    var touched := TouchStage(s, id, turn, body);
    if body.TurnStarted? then RetainPlans(touched, id, Some(s.sequence + 1))
    else if body.TurnCompleted? then RetainPlans(Settle(touched, id, turn), id, Some(s.sequence + 1))
    else touched
  }

  /** Everything after the scope and request checks. */
  function Project(s: Model, m: Message, id: Option<Name>): Model {
    var stamped := StampStage(s, m, id);
    if id.None? then Emit(stamped)
    else
      var legacy := LegacyProjection(stamped, id.value, m.body);
      if legacy.Some? then legacy.value
      else
        var content := ContentStage(stamped, id.value, m.body);
        var turn := TurnOf(m.body);
        Emit(if turn.Some? then TurnStage(content, id.value, turn.value, m.body) else content)
  }

  /** What happens to a message of an attached thread, or a resolution without one. */
  function ReduceAttached(s: Model, m: Message, scope: Scope): Model {
    var id := ThreadOf(m);
    var planned := PlanStage(s, m, scope);
    if m.body.PlanUpdated? && !PlanAdmitted(s, m, scope) then s
    else if m.body.SettingsUpdated? && s.restricted && id.Some? && !Permits(scope, m.body.settings.cwd)
    then ForgetOutsideScope(planned, id.value)
    else if m.body.RequestResolved? && m.body.resolved !in s.control.pending then planned
    else if m.id.Some? && (id.None? || (id.value in s.control.archived && id.value !in s.control.resumes))
    then planned
    else Project(RequestStage(planned, m), m, id)
  }

  function Reduce(s: Model, m: Message, scope: Scope): Model {
    var id := ThreadOf(m);
    var t := ArchiveStage(s, m);
    if id.None? && !(m.body.RequestResolved? && m.id.None? && m.body.resolved in s.control.pending) then s
    else if id.Some? && id.value !in t.control.subscribed then
      if m.body.ThreadStarted? || m.body.ThreadArchived? || m.body.ThreadUnarchived? then Emit(t) else t
    else ReduceAttached(t, m, scope)
  }
}
