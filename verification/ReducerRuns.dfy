/** Every way the gateway changes its shared state, runs of them, and the event line they produce. */
module ReducerRuns {
  import opened Wrappers
  import opened Reducer

  /** One mutex-guarded section of client.rs or lib.rs, or a reader at work on its channel. */
  datatype Op =
    | Native(message: Message, scope: Scope)
    | Merge(result: Snapshot, after: Option<nat>, scope: Scope)
    | MergeArchived(history: Thread, epoch: nat, since: nat, scope: Scope)
    | Publish(connection: Connection)
    | Begin(thread: Name)
    | Finish(thread: Name)
    | Reserve(thread: Name)
    | Release(thread: Name)
    | ClearPending
    | FoundArchived(thread: Name)
    | FailedRecovery(thread: Name)
    | Join
    | Take(peer: nat)
    | Leave(peer: nat)
    | Disable

  function Apply(s: Model, op: Op): Model {
    match op
    case Native(message, scope) => Reduce(s, message, scope)
    case Merge(result, after, scope) => Remember(s, result, after, scope)
    case MergeArchived(history, epoch, since, scope) => RememberArchived(s, history, epoch, since, scope)
    case Publish(connection) => Connect(s, connection)
    case Begin(thread) => BeginResume(s, thread)
    case Finish(thread) => if Underflows(s, thread) then s else FinishResume(s, thread)
    case Reserve(thread) => s.(control := s.control.(subscribed := s.control.subscribed + {thread}))
    case Release(thread) => ReleaseReservation(s, thread)
    case ClearPending => s.(control := s.control.(pending := map[]))
    case FoundArchived(thread) => RecoverArchived(s, thread)
    case FailedRecovery(thread) => RecoveryFailed(s, thread)
    case Join => Subscribe(s)
    case Take(peer) => TakeEvent(s, peer)
    case Leave(peer) => LeaveStream(s, peer)
    case Disable => Deactivate(s)
  }

  function Run(s: Model, ops: seq<Op>): Model
    decreases |ops|
  {
    if ops == [] then s else Run(Apply(s, ops[0]), ops[1..])
  }

  lemma {:induction false} RunNone(s: Model)
    ensures Run(s, []) == s
  {
    hide Apply;
  }

  lemma {:induction false} RunOne(s: Model, op: Op)
    ensures Run(s, [op]) == Apply(s, op)
  {
    hide Apply;
    assert [op][1..] == [];
    assert Run(Apply(s, op), []) == Apply(s, op);
  }

  lemma {:induction false} RunTwo(s: Model, a: Op, b: Op)
    ensures Run(s, [a, b]) == Apply(Apply(s, a), b)
  {
    hide Apply;
    assert [a, b][1..] == [b];
    RunOne(Apply(s, a), b);
  }

  lemma {:induction false} RunSplit(s: Model, a: seq<Op>, b: seq<Op>)
    ensures Run(s, a + b) == Run(Run(s, a), b)
    decreases |a|
  {
    hide Apply;
    if a == [] {
      assert a + b == b;
    } else {
      assert (a + b)[0] == a[0] && (a + b)[1..] == a[1..] + b;
      RunSplit(Apply(s, a[0]), a[1..], b);
    }
  }

  lemma {:induction false} RunAppended(s: Model, ops: seq<Op>, op: Op)
    ensures Run(s, ops + [op]) == Apply(Run(s, ops), op)
    decreases |ops|
  {
    hide Apply;
    if ops == [] {
      assert ops + [op] == [op];
      assert Run(s, [op]) == Run(Apply(s, op), [op][1..]);
    } else {
      assert (ops + [op])[0] == ops[0] && (ops + [op])[1..] == ops[1..] + [op];
      RunAppended(Apply(s, ops[0]), ops[1..], op);
    }
  }

  // ---------------------------------------------------------------------------------------
  // What every section keeps.

  /** Each live item, provisional item and plan belongs to the current native connection. */
  ghost predicate OneGeneration(s: Model) {
    var e := NativeEpoch(s);
    LiveAt(s.streams.live, e) && ProvisionalAt(s.streams.provisional, e)
    && PlansAt(s.streams.plans, e) && WaitingAt(s.streams.pendingPlans, e)
  }

  ghost predicate LiveAt(live: map<ItemKey, LiveItem>, e: nat) {
    forall k :: k in live ==> live[k].epoch == e
  }

  ghost predicate ProvisionalAt(provisional: map<ItemKey, Provisional>, e: nat) {
    forall k :: k in provisional ==> provisional[k].epoch == e
  }

  ghost predicate PlansAt(plans: map<TurnKey, Plan>, e: nat) {
    forall k :: k in plans ==> plans[k].epoch == e
  }

  ghost predicate WaitingAt(plans: map<Name, Plan>, e: nat) {
    forall k :: k in plans ==> plans[k].epoch == e
  }

  /** The strongest watermark a thread's fences reject: reads begun before it are stale. */
  function Fence(f: Fences, thread: Name): nat {
    var change := if thread in f.change then f.change[thread] else 0;
    var access := if thread in f.access then f.access[thread] else 0;
    if change > access then change else access
  }

  /** No fence lies beyond the next event. */
  ghost predicate Bounded(f: Fences, sequence: nat) {
    && (forall id :: id in f.change ==> f.change[id] <= sequence + 1)
    && (forall id :: id in f.access ==> f.access[id] <= sequence + 1)
  }

  ghost predicate FencesGrow(f: Fences, g: Fences) {
    forall id :: Fence(f, id) <= Fence(g, id)
  }

  /** A thread in the archive shows no control unless a resume of it is under way. */
  ghost predicate Quiet(c: Control) {
    forall k :: k in c.pending && c.pending[k].thread.Some? && c.pending[k].thread.value in c.archived
      ==> c.pending[k].thread.value in c.resumes
  }

  ghost predicate Counted(c: Control) {
    forall id :: id in c.resumes ==> c.resumes[id] > 0
  }

  ghost predicate Orderly(c: Control, d: Control) {
    (Counted(c) ==> Counted(d)) && (Quiet(c) ==> Quiet(d))
  }

  predicate SameLink(s: Model, t: Model) {
    t.namespace == s.namespace && t.connection == s.connection && t.epoch == s.epoch
  }

  predicate Still(s: Model, t: Model) {
    t.sequence == s.sequence && t.peers == s.peers
  }

  predicate Emitted(s: Model, t: Model) {
    t.sequence == s.sequence + 1 && t.peers == DeliverAll(s.peers, s.sequence + 1)
  }

  ghost predicate Keeps(s: Model, t: Model) {
    && SameLink(s, t)
    && (OneGeneration(s) ==> OneGeneration(t))
    && (Bounded(s.fences, s.sequence) ==> Bounded(t.fences, t.sequence) && FencesGrow(s.fences, t.fences))
    && Orderly(s.control, t.control)
  }

  /** Before the event goes out. */
  ghost predicate Prepares(s: Model, t: Model) {
    Still(s, t) && Keeps(s, t)
  }

  /** A whole section: at most one event goes out. */
  ghost predicate Steps(s: Model, t: Model) {
    (Still(s, t) || Emitted(s, t)) && Keeps(s, t)
  }

  lemma {:induction false} PreparesThenSteps(s: Model, t: Model, u: Model)
    requires Prepares(s, t) && Steps(t, u)
    ensures Steps(s, u)
    ensures Prepares(t, u) ==> Prepares(s, u)
  {
    hide OneGeneration, Bounded, Counted, Quiet, Fence, DeliverAll;
  }

  lemma {:induction false} SelfSteps(s: Model)
    ensures Prepares(s, s) && Steps(s, s)
  {
    hide OneGeneration, Bounded, Counted, Quiet, Fence;
  }

  lemma {:induction false} EmitSteps(s: Model)
    ensures Steps(s, Emit(s)) && Emitted(s, Emit(s))
  {
    hide DeliverAll, Counted, Quiet;
  }

  lemma {:induction false} ClearPrepares(s: Model, thread: Name)
    ensures Prepares(s, ClearProvisional(s, thread))
  {
    hide Fence, Counted, Quiet;
  }

  /** Archiving a thread drops its controls. */
  lemma {:induction false} ArchivedControl(c: Control, thread: Name)
    ensures Orderly(c, c.(archived := c.archived + {thread}, pending := DropPending(c.pending, thread)))
  {
  }

  lemma {:induction false} AccessRaised(f: Fences, id: Name, sequence: nat)
    requires Bounded(f, sequence)
    ensures var g := f.(access := f.access[id := sequence + 1]);
            Bounded(g, sequence) && FencesGrow(f, g) && Fence(g, id) == sequence + 1
  {
  }

  /** Closing a thread drops its access stamp, so the change stamp must dominate it. */
  lemma {:induction false} ChangeRaised(f: Fences, id: Name, sequence: nat)
    requires Bounded(f, sequence)
    ensures var g := Fences(f.scope[id := sequence + 1], f.change[id := sequence + 1], f.access - {id});
            Bounded(g, sequence + 1) && FencesGrow(f, g) && Fence(g, id) == sequence + 1
  {
  }

  lemma {:induction false} ArchivePrepares(s: Model, m: Message)
    ensures Prepares(s, ArchiveStage(s, m))
  {
    hide Bounded, Fence, Counted, Quiet, DropPending, ClearProvisional, LiveAt, ProvisionalAt, PlansAt, WaitingAt;
    if ThreadOf(m).Some? {
      ArchivedControl(s.control, ThreadOf(m).value);
      if Bounded(s.fences, s.sequence) {
        AccessRaised(s.fences, ThreadOf(m).value, s.sequence);
      }
    }
    forall t: Model, id: Name ensures Prepares(t, ClearProvisional(t, id)) {
      ClearPrepares(t, id);
    }
  }

  lemma {:induction false} PlanPrepares(s: Model, m: Message, scope: Scope)
    ensures Prepares(s, PlanStage(s, m, scope)) && PlanStage(s, m, scope).control == s.control
  {
    hide PlanAdmitted, KnowsTurn, Counted, Quiet, Fence;
  }

  lemma {:induction false} RequestPrepares(s: Model, m: Message)
    requires m.id.Some? && m.thread.Some? && m.thread.value in s.control.archived
             ==> m.thread.value in s.control.resumes
    ensures Prepares(s, RequestStage(s, m))
  {
    hide TokenFor, LiveAt, ProvisionalAt, PlansAt, WaitingAt, Fence;
  }

  lemma {:induction false} StampPrepares(s: Model, m: Message, id: Option<Name>)
    ensures Prepares(s, StampStage(s, m, id))
  {
    hide LiveAt, ProvisionalAt, PlansAt, WaitingAt, Fence, OwnedToolCall;
  }

  lemma {:induction false} ContentPrepares(s: Model, id: Name, body: Body)
    ensures Prepares(s, ContentStage(s, id, body))
  {
    hide UpdateTurns, LiveAt, ProvisionalAt, PlansAt, WaitingAt, Fence, Counted, Quiet;
  }

  lemma {:induction false} RetainPrepares(s: Model, thread: Name, after: Option<nat>)
    ensures Prepares(s, RetainPlans(s, thread, after))
    ensures RetainPlans(s, thread, after).control == s.control
    ensures RetainPlans(s, thread, after).fences == s.fences
    ensures RetainPlans(s, thread, after).cache == s.cache
  {
    hide KnowsTurn, Fence, Counted, Quiet, Raise;
  }

  lemma {:induction false} TouchPrepares(s: Model, id: Name, turn: Name, body: Body)
    ensures Prepares(s, TouchStage(s, id, turn, body))
  {
    hide Fence, Counted, Quiet;
  }

  lemma {:induction false} SettlePrepares(s: Model, id: Name, turn: Name)
    ensures Prepares(s, Settle(s, id, turn))
  {
    hide Fence, Counted, Quiet, MarkDirty;
  }

  lemma {:induction false} TurnPrepares(s: Model, id: Name, turn: Name, body: Body)
    ensures Prepares(s, TurnStage(s, id, turn, body))
  {
    hide TouchStage, Settle, RetainPlans, Keeps, Still;
    var touched := TouchStage(s, id, turn, body);
    var settled := Settle(touched, id, turn);
    TouchPrepares(s, id, turn, body);
    SettlePrepares(touched, id, turn);
    PreparesThenSteps(s, touched, settled);
    RetainPrepares(touched, id, Some(s.sequence + 1));
    PreparesThenSteps(s, touched, RetainPlans(touched, id, Some(s.sequence + 1)));
    RetainPrepares(settled, id, Some(s.sequence + 1));
    PreparesThenSteps(s, settled, RetainPlans(settled, id, Some(s.sequence + 1)));
  }

  lemma {:induction false} LegacyClosedPrepares(s: Model, id: Name, turn: Turn)
    requires id in s.cache.threads
    ensures Prepares(s, LegacyClosed(s, id, turn))
  {
    hide MarkDirty, CopyMetadata, Fence, Counted, Quiet;
  }

  lemma {:induction false} LegacyCompletedSteps(s: Model, id: Name, turn: Turn)
    requires id in s.cache.threads
    ensures Steps(s, LegacyCompleted(s, id, turn))
  {
    hide RetainPlans, LegacyClosed, Keeps, Still, Emit;
    var t := LegacyClosed(s, id, turn);
    var u := RetainPlans(t, id, Some(s.sequence + 1));
    LegacyClosedPrepares(s, id, turn);
    RetainPrepares(t, id, Some(s.sequence + 1));
    EmitSteps(u);
    PreparesThenSteps(t, u, Emit(u));
    PreparesThenSteps(s, t, Emit(u));
  }

  lemma {:induction false} LegacyStreamedSteps(s: Model, id: Name, turn: Name, item: Name, body: Body)
    requires LegacyStream(body)
    ensures Steps(s, LegacyStreamed(s, id, turn, item, body))
  {
    hide MarkDirty, StreamItem, ShowsStream, Fence, Counted, Quiet, DeliverAll;
  }

  lemma {:induction false} LegacySteps(s: Model, id: Name, body: Body)
    ensures LegacyProjection(s, id, body).Some? ==> Steps(s, LegacyProjection(s, id, body).value)
  {
    hide LegacyCompleted, LegacyStreamed, Emitted, LiveAt, ProvisionalAt, PlansAt, WaitingAt, Fence, Counted, Quiet;
    if id in s.cache.threads && body.TurnCompleted? {
      LegacyCompletedSteps(s, id, body.turnValue);
    }
    if LegacyStream(body) && TurnOf(body).Some? && ItemOf(body).Some? {
      LegacyStreamedSteps(s, id, TurnOf(body).value, ItemOf(body).value, body);
    }
  }

  lemma {:induction false} ProjectSteps(s: Model, m: Message, id: Option<Name>)
    ensures Steps(s, Project(s, m, id))
  {
    hide StampStage, LegacyProjection, ContentStage, TurnStage, Keeps, Emit, Still, Emitted;
    var t := StampStage(s, m, id);
    StampPrepares(s, m, id);
    EmitSteps(t);
    PreparesThenSteps(s, t, Emit(t));
    if id.Some? {
      LegacySteps(t, id.value, m.body);
      if LegacyProjection(t, id.value, m.body).Some? {
        PreparesThenSteps(s, t, LegacyProjection(t, id.value, m.body).value);
      } else {
        var u := ContentStage(t, id.value, m.body);
        ContentPrepares(t, id.value, m.body);
        EmitSteps(u);
        PreparesThenSteps(t, u, Emit(u));
        PreparesThenSteps(s, t, Emit(u));
        if TurnOf(m.body).Some? {
          var v := TurnStage(u, id.value, TurnOf(m.body).value, m.body);
          TurnPrepares(u, id.value, TurnOf(m.body).value, m.body);
          EmitSteps(v);
          PreparesThenSteps(u, v, Emit(v));
          PreparesThenSteps(t, u, Emit(v));
          PreparesThenSteps(s, t, Emit(v));
        }
      }
    }
  }

  lemma {:induction false} ForgottenControl(c: Control, thread: Name)
    ensures Orderly(c, Control(DropPending(c.pending, thread), c.subscribed - {thread}, c.archived - {thread},
                            c.resumes - {thread}))
  {
  }

  lemma {:induction false} ForgottenStreams(f: Streams, thread: Name, e: nat)
    requires LiveAt(f.live, e) && ProvisionalAt(f.provisional, e) && PlansAt(f.plans, e) && WaitingAt(f.pendingPlans, e)
    ensures LiveAt(DropItems(f.live, thread), e) && ProvisionalAt(DropItems(f.provisional, thread), e)
    ensures PlansAt(DropTurns(f.plans, thread), e) && WaitingAt(f.pendingPlans - {thread}, e)
  {
  }

  lemma {:induction false} ForgetSteps(s: Model, thread: Name)
    ensures Steps(s, ForgetOutsideScope(s, thread)) && Emitted(s, ForgetOutsideScope(s, thread))
  {
    hide DeliverAll, Counted, Quiet, DropPending, Bounded, Fence, LiveAt, ProvisionalAt, PlansAt, WaitingAt,
         DropItems, DropTurns;
    if OneGeneration(s) {
      ForgottenStreams(s.streams, thread, NativeEpoch(s));
    }
    if Bounded(s.fences, s.sequence) {
      ChangeRaised(s.fences, thread, s.sequence);
    }
    ForgottenControl(s.control, thread);
  }

  lemma {:induction false} AttachedSteps(s: Model, m: Message, scope: Scope)
    ensures Steps(s, ReduceAttached(s, m, scope))
  {
    hide PlanStage, PlanAdmitted, RequestStage, Project, ForgetOutsideScope, Keeps, Still, Emitted;
    var id := ThreadOf(m);
    var t := PlanStage(s, m, scope);
    PlanPrepares(s, m, scope);
    SelfSteps(s);
    if id.Some? {
      ForgetSteps(t, id.value);
      PreparesThenSteps(s, t, ForgetOutsideScope(t, id.value));
    }
    if !(m.id.Some? && (id.None? || (id.value in s.control.archived && id.value !in s.control.resumes))) {
      RequestPrepares(t, m);
      ProjectSteps(RequestStage(t, m), m, id);
      PreparesThenSteps(t, RequestStage(t, m), Project(RequestStage(t, m), m, id));
      PreparesThenSteps(s, t, Project(RequestStage(t, m), m, id));
    }
  }

  /** A native message moves the line by at most one event and keeps every invariant. */
  lemma {:induction false} ReduceSteps(s: Model, m: Message, scope: Scope)
    ensures Steps(s, Reduce(s, m, scope))
  {
    hide ArchiveStage, ReduceAttached, Emit, Keeps, Still, Emitted;
    var t := ArchiveStage(s, m);
    SelfSteps(s);
    ArchivePrepares(s, m);
    EmitSteps(t);
    PreparesThenSteps(s, t, Emit(t));
    AttachedSteps(t, m, scope);
    PreparesThenSteps(s, t, ReduceAttached(t, m, scope));
  }

  lemma {:induction false} MergeSteps(s: Model, result: Snapshot, after: Option<nat>, scope: Scope)
    ensures Steps(s, Remember(s, result, after, scope))
  {
    SelfSteps(s);
    hide AcceptSnapshot, ForgetOutsideScope, Keeps, Still, Emitted, Invalidated, Permits;
    if result.thread.Some? {
      ForgetSteps(s, result.thread.value.id);
      AcceptPrepares(s, result, after);
    }
  }

  lemma {:induction false} AcceptPrepares(s: Model, result: Snapshot, after: Option<nat>)
    requires result.thread.Some?
    ensures Prepares(s, AcceptSnapshot(s, result, after))
  {
    hide Absorb, RetainPlans, Reopen, Keeps, Still;
    var id := result.thread.value.id;
    var t := Absorb(s, result, after);
    var u := RetainPlans(t, id, after);
    AbsorbPrepares(s, result, after);
    RetainPrepares(t, id, after);
    PreparesThenSteps(s, t, u);
    ReopenPrepares(u, id);
    PreparesThenSteps(s, u, Reopen(u, id));
  }

  lemma {:induction false} AbsorbPrepares(s: Model, result: Snapshot, after: Option<nat>)
    requires result.thread.Some?
    ensures Prepares(s, Absorb(s, result, after))
  {
    hide MergedThread, Fence, Counted, Quiet, SnapshotWins, TurnOpen;
  }

  lemma {:induction false} ReopenPrepares(s: Model, thread: Name)
    ensures Prepares(s, Reopen(s, thread))
  {
    hide LiveAt, ProvisionalAt, PlansAt, WaitingAt;
  }

  lemma {:induction false} MergeArchivedSteps(s: Model, thread: Thread, epoch: nat, after: nat, scope: Scope)
    ensures Steps(s, RememberArchived(s, thread, epoch, after, scope))
  {
    hide ArchivedReadStale, RetainPlans, Fence;
    forall t: Model ensures Prepares(t, RetainPlans(t, thread.id, Some(after))) {
      RetainPrepares(t, thread.id, Some(after));
    }
  }

  // ---------------------------------------------------------------------------------------
  // The sections of the worker.

  lemma {:induction false} BegunControl(c: Control, thread: Name)
    ensures var pending := if thread in c.archived && thread !in c.resumes then DropPending(c.pending, thread)
                           else c.pending;
            var count := if thread in c.resumes then c.resumes[thread] else 0;
            Orderly(c, c.(pending := pending, resumes := c.resumes[thread := count + 1]))
  {
  }

  lemma {:induction false} BeginSteps(s: Model, thread: Name)
    ensures Steps(s, BeginResume(s, thread))
  {
    hide Counted, Quiet, LiveAt, ProvisionalAt, PlansAt, WaitingAt, Fence, DropPending;
    BegunControl(s.control, thread);
  }

  lemma {:induction false} FinishSteps(s: Model, thread: Name)
    requires !Underflows(s, thread)
    ensures Steps(s, FinishResume(s, thread))
  {
    hide LiveAt, ProvisionalAt, PlansAt, WaitingAt, Fence;
  }

  lemma {:induction false} ReleaseSteps(s: Model, thread: Name)
    ensures Steps(s, ReleaseReservation(s, thread))
  {
    hide LiveAt, PlansAt, WaitingAt, Fence;
  }

  lemma {:induction false} RecoverySteps(s: Model, thread: Name)
    ensures Steps(s, RecoverArchived(s, thread)) && Steps(s, RecoveryFailed(s, thread))
  {
    hide LiveAt, PlansAt, WaitingAt, Fence, DeliverAll, DropPending, Counted, Quiet;
    ArchivedControl(s.control, thread);
    SameOrder(s.control, s.control.(subscribed := s.control.subscribed - {thread}));
  }

  lemma {:induction false} SameOrder(c: Control, d: Control)
    requires d.archived == c.archived && d.resumes == c.resumes && (d.pending == c.pending || d.pending == map[])
    ensures Orderly(c, d)
  {
  }
}
