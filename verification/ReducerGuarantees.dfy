/** What holds after every run of the shared state, whatever the clients and the native server do. */
module ReducerGuarantees {
  import opened Wrappers
  import opened Reducer
  import opened ReducerRuns

  // ---------------------------------------------------------------------------------------
  // One step keeps the invariants.

  ghost predicate Sound(s: Model) {
    OneGeneration(s) && Bounded(s.fences, s.sequence) && Counted(s.control)
  }

  /** From `s` to `t`: the invariants survive and no fence comes down. */
  ghost predicate Safe(s: Model, t: Model) {
    Sound(s) ==> Sound(t) && FencesGrow(s.fences, t.fences)
  }

  predicate Drops(s: Model, op: Op) {
    op.Publish? && (!op.connection.Connected? || s.connection.Connected?)
  }

  lemma {:induction false} InitiallySound(namespace: Name, restricted: bool)
    ensures Sound(Initial(namespace, restricted)) && Quiet(Initial(namespace, restricted).control)
  {
  }

  lemma {:induction false} ConnectKeeps(s: Model, c: Connection)
    ensures Safe(s, Connect(s, c)) && Emitted(s, Connect(s, c))
    ensures !Drops(s, Publish(c)) ==> Connect(s, c).control == s.control
  {
    hide StableThreads, DeliverAll, Fence;
  }

  lemma {:induction false} StepsAreSafe(s: Model, t: Model)
    requires Steps(s, t)
    ensures Safe(s, t) && (Quiet(s.control) ==> Quiet(t.control))
  {
    hide OneGeneration, Bounded, FencesGrow, Counted, Quiet, Still, Emitted;
  }

  /** The sections that only readers or the closing gateway run. */
  lemma {:induction false} OutsideKeeps(s: Model, op: Op)
    requires op.Join? || op.Take? || op.Leave? || op.Disable? || op.Reserve? || op.ClearPending?
    ensures Safe(s, Apply(s, op)) && (Quiet(s.control) ==> Quiet(Apply(s, op).control))
  {
    hide LiveAt, ProvisionalAt, PlansAt, WaitingAt, DeliverAll, DetachAll, Fence, Counted, Quiet;
    SameOrder(s.control, Apply(s, op).control);
  }

  lemma {:induction false} ApplyKeeps(s: Model, op: Op)
    ensures Safe(s, Apply(s, op))
    ensures Quiet(s.control) && !Drops(s, op) ==> Quiet(Apply(s, op).control)
  {
    hide Reduce, Remember, RememberArchived, Connect, BeginResume, FinishResume, ReleaseReservation,
         RecoverArchived, RecoveryFailed, Safe, Quiet, Steps;
    match op
    case Native(message, scope) =>
      ReduceSteps(s, message, scope);
      StepsAreSafe(s, Apply(s, op));
    case Merge(result, after, scope) =>
      MergeSteps(s, result, after, scope);
      StepsAreSafe(s, Apply(s, op));
    case MergeArchived(history, epoch, since, scope) =>
      MergeArchivedSteps(s, history, epoch, since, scope);
      StepsAreSafe(s, Apply(s, op));
    case Publish(connection) =>
      ConnectKeeps(s, connection);
    case Begin(thread) =>
      BeginSteps(s, thread);
      StepsAreSafe(s, Apply(s, op));
    case Finish(thread) =>
      SelfSteps(s);
      if !Underflows(s, thread) {
        FinishSteps(s, thread);
      }
      StepsAreSafe(s, Apply(s, op));
    case Release(thread) =>
      ReleaseSteps(s, thread);
      StepsAreSafe(s, Apply(s, op));
    case FoundArchived(thread) =>
      RecoverySteps(s, thread);
      StepsAreSafe(s, Apply(s, op));
    case FailedRecovery(thread) =>
      RecoverySteps(s, thread);
      StepsAreSafe(s, Apply(s, op));
    case _ =>
      OutsideKeeps(s, op);
  }

  // ---------------------------------------------------------------------------------------
  // One generation only.

  /**
    In every reachable state whatever is live, provisional or planned carries the current native
    epoch; and every fence ever raised still stands.
  */
  lemma {:induction false} RunKeeps(s: Model, ops: seq<Op>)
    requires Sound(s)
    ensures Sound(Run(s, ops)) && FencesGrow(s.fences, Run(s, ops).fences)
    decreases |ops|
  {
    hide Apply, Sound;
    if ops != [] {
      ApplyKeeps(s, ops[0]);
      RunKeeps(Apply(s, ops[0]), ops[1..]);
    }
  }

  lemma {:induction false} OneGenerationAlways(namespace: Name, restricted: bool, ops: seq<Op>)
    ensures OneGeneration(Run(Initial(namespace, restricted), ops))
  {
    InitiallySound(namespace, restricted);
    RunKeeps(Initial(namespace, restricted), ops);
  }

  /** Publishing Connected after a bootstrap keeps everything the bootstrap gathered. */
  lemma {:induction false} BootstrapSurvives(s: Model)
    requires !s.connection.Connected?
    ensures var t := Connect(s, Connected);
            t.cache == s.cache && t.control == s.control && t.streams == s.streams && t.legacy == s.legacy
            && t.stamps == s.stamps && NativeEpoch(t) == NativeEpoch(s) && t.epoch == NativeEpoch(s)
  {
  }

  /** The items a thread still shows: the cached ones, in order, without those the old connection kept live. */
  lemma {:induction false} StableItemsExact(thread: Name, turn: Name, items: seq<Item>, live: map<ItemKey, LiveItem>,
                                            item: Item)
    ensures item in StableItems(thread, turn, items, live) <==> item in items && ItemKey(thread, turn, item.id) !in live
  {
    if items != [] {
      StableItemsExact(thread, turn, items[1..], live, item);
    }
  }

  lemma {:induction false} StableItemsInOrder(thread: Name, turn: Name, a: seq<Item>, b: seq<Item>,
                                              live: map<ItemKey, LiveItem>)
    ensures StableItems(thread, turn, a + b, live)
            == StableItems(thread, turn, a, live) + StableItems(thread, turn, b, live)
  {
    if a == [] {
      assert a + b == b;
    } else {
      assert (a + b)[0] == a[0] && (a + b)[1..] == a[1..] + b;
      StableItemsInOrder(thread, turn, a[1..], b, live);
    }
  }

  lemma {:induction false} StableTurnsExact(thread: Name, turns: seq<Turn>, live: map<ItemKey, LiveItem>)
    ensures |StableTurns(thread, turns, live)| == |turns|
    ensures forall k {:trigger StableTurns(thread, turns, live)[k]} :: 0 <= k < |turns| ==>
      StableTurns(thread, turns, live)[k] == turns[k].(items := StableItems(thread, turns[k].id, turns[k].items, live))
  {
    if turns != [] {
      StableTurnsExact(thread, turns[1..], live);
    }
  }

  /**
    Replacing a connection removes from every thread exactly the items the old connection kept
    live, and every stream, provisional item and plan; nothing else of a thread changes.
  */
  lemma {:induction false} ReplacedConnectionShowsNothing(s: Model, c: Connection, thread: Name, k: nat, item: Item)
    requires Drops(s, Publish(c))
    requires thread in s.cache.threads && k < |s.cache.threads[thread].turns|
    ensures var t := Connect(s, c);
            && t.streams == NO_STREAMS && t.control.resumes == map[]
            && t.cache.threads.Keys == s.cache.threads.Keys
            && |t.cache.threads[thread].turns| == |s.cache.threads[thread].turns|
            && t.cache.threads[thread] == s.cache.threads[thread].(turns := t.cache.threads[thread].turns)
            && var (old', new') := (s.cache.threads[thread].turns[k], t.cache.threads[thread].turns[k]);
               && new' == old'.(items := new'.items)
               && (item in new'.items <==> item in old'.items && ItemKey(thread, old'.id, item.id) !in s.streams.live)
  {
    StableTurnsExact(thread, s.cache.threads[thread].turns, s.streams.live);
    var turn := s.cache.threads[thread].turns[k];
    StableItemsExact(thread, turn.id, turn.items, s.streams.live, item);
    assert Connect(s, c).cache.threads == StableThreads(s.cache.threads, s.streams.live);
  }

  // ---------------------------------------------------------------------------------------
  // Fences never lapse.

  lemma {:induction false} InvalidatedByFence(s: Model, thread: Name, after: nat)
    ensures Invalidated(s, thread, after) <==> Fence(s.fences, thread) > after
  {
  }

  /** A watermark once invalid stays invalid, through reopening and forgetting alike. */
  lemma {:induction false} InvalidForEver(s: Model, ops: seq<Op>, thread: Name, after: nat)
    requires Sound(s) && Invalidated(s, thread, after)
    ensures Invalidated(Run(s, ops), thread, after)
  {
    hide Run, Sound;
    RunKeeps(s, ops);
    InvalidatedByFence(s, thread, after);
    InvalidatedByFence(Run(s, ops), thread, after);
    assert Fence(s.fences, thread) <= Fence(Run(s, ops).fences, thread);
  }

  lemma {:induction false} StaleSnapshotIgnored(s: Model, after: nat, thread: Thread, settings: Settings, epoch: nat,
                                                scope: Scope)
    requires Invalidated(s, thread.id, after)
    ensures Remember(s, Snapshot(Some(thread), settings), Some(after), scope) == s
    ensures RememberArchived(s, thread, epoch, after, scope) == s
  {
    hide AcceptSnapshot, ForgetOutsideScope, RetainPlans;
  }

  /** Settings outside the allowed directories, reported for an attached thread. */
  predicate ClosesScope(s: Model, m: Message, scope: Scope) {
    && m.body.SettingsUpdated? && m.thread.Some? && m.thread.value in s.control.subscribed
    && s.restricted && !Permits(scope, m.body.settings.cwd)
  }

  /** A change of the archive naming a thread this gateway knows. */
  predicate ChangesAccess(s: Model, m: Message) {
    && (m.body.ThreadArchived? || m.body.ThreadUnarchived?) && m.thread.Some?
    && (m.thread.value in s.cache.threads || m.thread.value in s.control.subscribed)
  }

  lemma {:induction false} ClosureRaises(s: Model, m: Message, scope: Scope)
    requires Bounded(s.fences, s.sequence) && ClosesScope(s, m, scope)
    ensures Fence(Reduce(s, m, scope).fences, m.thread.value) == s.sequence + 1
  {
    hide ClearProvisional, DeliverAll, Permits, PlanAdmitted;
    ChangeRaised(s.fences, m.thread.value, s.sequence);
  }

  lemma {:induction false} AccessRaises(s: Model, m: Message, scope: Scope)
    requires Sound(s) && ChangesAccess(s, m)
    ensures Fence(Reduce(s, m, scope).fences, m.thread.value) >= s.sequence + 1
  {
    hide ReduceAttached, ArchiveStage, Emit, Sound, Fence;
    var t := ArchiveStage(s, m);
    ArchiveRaises(s, m);
    AttachedSteps(t, m, scope);
    ArchivePrepares(s, m);
    SoundBounded(s);
    EmitSteps(t);
  }

  lemma {:induction false} SoundBounded(s: Model)
    requires Sound(s)
    ensures Bounded(s.fences, s.sequence)
  {
  }

  lemma {:induction false} ArchiveRaises(s: Model, m: Message)
    requires Sound(s) && ChangesAccess(s, m)
    ensures Fence(ArchiveStage(s, m).fences, m.thread.value) == s.sequence + 1
  {
    hide DropItems, DropPending, OneGeneration;
    AccessRaised(s.fences, m.thread.value, s.sequence);
  }

  /**
    A snapshot requested before a scope closure or an archive change of its thread leaves the
    state unchanged, however late it is merged and whatever happened in between.
  */
  lemma {:induction false} FencesNeverLapse(s: Model, m: Message, scope: Scope, ops: seq<Op>,
                                           after: nat, thread: Thread, settings: Settings, epoch: nat, later: Scope)
    requires Sound(s) && after <= s.sequence && m.thread == Some(thread.id)
    requires ClosesScope(s, m, scope) || ChangesAccess(s, m)
    ensures var t := Run(Reduce(s, m, scope), ops);
            && Remember(t, Snapshot(Some(thread), settings), Some(after), later) == t
            && RememberArchived(t, thread, epoch, after, later) == t
  {
    hide Reduce, Run, Remember, RememberArchived, Invalidated, Sound, Fence, Permits;
    var u := Reduce(s, m, scope);
    SoundBounded(s);
    if ClosesScope(s, m, scope) {
      ClosureRaises(s, m, scope);
    } else {
      AccessRaises(s, m, scope);
    }
    ApplyKeeps(s, Native(m, scope));
    InvalidatedByFence(u, thread.id, after);
    InvalidForEver(u, ops, thread.id, after);
    StaleSnapshotIgnored(Run(u, ops), after, thread, settings, epoch, later);
  }

  /** A snapshot outside the allowed directories closes its thread for good as well. */
  lemma {:induction false} ClosingSnapshotFences(s: Model, closing: Snapshot, watermark: Option<nat>, scope: Scope,
                                                ops: seq<Op>, after: nat, thread: Thread, settings: Settings,
                                                epoch: nat, later: Scope)
    requires Sound(s) && after <= s.sequence
    requires closing.thread.Some? && closing.thread.value.id == thread.id
    requires watermark.Some? ==> !Invalidated(s, thread.id, watermark.value)
    requires s.restricted && !Permits(scope, SnapshotCwd(closing))
    ensures var t := Run(Remember(s, closing, watermark, scope), ops);
            && Remember(t, Snapshot(Some(thread), settings), Some(after), later) == t
            && RememberArchived(t, thread, epoch, after, later) == t
  {
    hide Run, RememberArchived, Sound, Fence, Permits, AcceptSnapshot, DeliverAll, ClearProvisional;
    var u := Remember(s, closing, watermark, scope);
    SoundBounded(s);
    assert u == ForgetOutsideScope(s, thread.id);
    ChangeRaised(s.fences, thread.id, s.sequence);
    ApplyKeeps(s, Merge(closing, watermark, scope));
    InvalidatedByFence(u, thread.id, after);
    InvalidForEver(u, ops, thread.id, after);
    StaleSnapshotIgnored(Run(u, ops), after, thread, settings, epoch, later);
  }

  // ---------------------------------------------------------------------------------------
  // Gap-free subscribers.

  /** A reader was given consecutive events from its first, and never more than fit its buffer. */
  ghost predicate GapFree(p: Peer, sequence: nat) {
    && p.taken <= |p.delivered| <= p.taken + EVENT_CAPACITY
    && (forall k :: 0 <= k < |p.delivered| ==> p.delivered[k] == p.joined + 1 + k)
    && p.joined + |p.delivered| <= sequence
    && (p.attached ==> p.joined + |p.delivered| == sequence)
  }

  ghost predicate AllGapFree(s: Model) {
    forall k :: 0 <= k < |s.peers| ==> GapFree(s.peers[k], s.sequence)
  }

  /** A reader only ever gains events, and none after it was cut off. */
  ghost predicate Follows(p: Peer, q: Peer) {
    && q.joined == p.joined && p.delivered <= q.delivered && p.taken <= q.taken
    && (!p.attached ==> q.delivered == p.delivered && !q.attached)
  }

  ghost predicate AllFollow(a: seq<Peer>, b: seq<Peer>) {
    |a| <= |b| && forall k :: 0 <= k < |a| ==> Follows(a[k], b[k])
  }

  lemma {:induction false} DeliveredGapFree(p: Peer, sequence: nat)
    requires GapFree(p, sequence)
    ensures GapFree(Deliver(p, sequence + 1), sequence + 1) && Follows(p, Deliver(p, sequence + 1))
    ensures Deliver(p, sequence + 1).attached <==> p.attached && !p.gone && |p.delivered| - p.taken < EVENT_CAPACITY
  {
  }

  lemma {:induction false} EmittedGapFree(s: Model, t: Model)
    requires AllGapFree(s) && Emitted(s, t)
    ensures AllGapFree(t) && AllFollow(s.peers, t.peers)
  {
    hide GapFree, Follows, Deliver;
    forall k | 0 <= k < |s.peers|
      ensures GapFree(t.peers[k], t.sequence) && Follows(s.peers[k], t.peers[k])
    {
      DeliveredGapFree(s.peers[k], s.sequence);
    }
  }

  lemma {:induction false} StillGapFree(s: Model, t: Model)
    requires AllGapFree(s) && Still(s, t)
    ensures AllGapFree(t) && AllFollow(s.peers, t.peers)
  {
    hide GapFree;
  }

  lemma {:induction false} ReadersGapFree(s: Model, op: Op)
    requires AllGapFree(s)
    requires op.Join? || op.Take? || op.Leave?
    ensures AllGapFree(Apply(s, op)) && AllFollow(s.peers, Apply(s, op).peers)
  {
  }

  lemma {:induction false} DisabledGapFree(s: Model)
    requires AllGapFree(s)
    ensures AllGapFree(Deactivate(s)) && AllFollow(s.peers, Deactivate(s).peers)
  {
    hide Deliver;
    EmittedGapFree(s, Emit(s));
  }

  lemma {:induction false} ApplyGapFree(s: Model, op: Op)
    requires AllGapFree(s)
    ensures AllGapFree(Apply(s, op)) && AllFollow(s.peers, Apply(s, op).peers)
  {
    if op.Join? || op.Take? || op.Leave? {
      ReadersGapFree(s, op);
    } else if op.Disable? {
      DisabledGapFree(s);
    } else {
      OneEvent(s, op);
      if Still(s, Apply(s, op)) {
        StillGapFree(s, Apply(s, op));
      } else {
        EmittedGapFree(s, Apply(s, op));
      }
    }
  }

  /** Every section but a reader's own and the closing one emits at most one event. */
  lemma {:induction false} OneEvent(s: Model, op: Op)
    requires !op.Join? && !op.Take? && !op.Leave? && !op.Disable?
    ensures Still(s, Apply(s, op)) || Emitted(s, Apply(s, op))
  {
    hide Reduce, Remember, RememberArchived, Connect, BeginResume, FinishResume, ReleaseReservation,
         RecoverArchived, RecoveryFailed, Keeps, Emitted;
    match op
    case Native(message, scope) => ReduceSteps(s, message, scope);
    case Merge(result, after, scope) => MergeSteps(s, result, after, scope);
    case MergeArchived(history, epoch, since, scope) => MergeArchivedSteps(s, history, epoch, since, scope);
    case Publish(connection) => ConnectKeeps(s, connection);
    case Begin(thread) => BeginSteps(s, thread);
    case Finish(thread) => if !Underflows(s, thread) { FinishSteps(s, thread); }
    case Release(thread) => ReleaseSteps(s, thread);
    case FoundArchived(thread) => RecoverySteps(s, thread);
    case FailedRecovery(thread) => RecoverySteps(s, thread);
    case _ =>
  }

  /** Only publishing a connection changes it, and that always emits. */
  lemma {:induction false} ApplyLink(s: Model, op: Op)
    ensures !op.Publish? ==> SameLink(s, Apply(s, op))
    ensures op.Publish? ==>
              && Apply(s, op).connection == op.connection && Apply(s, op).sequence == s.sequence + 1
              && Apply(s, op).epoch == s.epoch + if op.connection.Connected? then 1 else 0
  {
    hide Reduce, Remember, RememberArchived, BeginResume, FinishResume, ReleaseReservation,
         RecoverArchived, RecoveryFailed, StableThreads, DeliverAll, DetachAll, Emitted;
    match op
    case Native(message, scope) => ReduceSteps(s, message, scope);
    case Merge(result, after, scope) => MergeSteps(s, result, after, scope);
    case MergeArchived(history, epoch, since, scope) => MergeArchivedSteps(s, history, epoch, since, scope);
    case Begin(thread) => BeginSteps(s, thread);
    case Finish(thread) => if !Underflows(s, thread) { FinishSteps(s, thread); }
    case Release(thread) => ReleaseSteps(s, thread);
    case FoundArchived(thread) => RecoverySteps(s, thread);
    case FailedRecovery(thread) => RecoverySteps(s, thread);
    case _ =>
  }

  lemma {:induction false} RunGapFree(s: Model, ops: seq<Op>)
    requires AllGapFree(s)
    ensures AllGapFree(Run(s, ops)) && AllFollow(s.peers, Run(s, ops).peers)
    decreases |ops|
  {
    hide Apply, GapFree;
    if ops != [] {
      ApplyGapFree(s, ops[0]);
      RunGapFree(Apply(s, ops[0]), ops[1..]);
    }
  }

  /**
    A subscriber that joined at the status it was handed reads exactly the events after it, in
    order and without a gap; while it stays attached it has been given every one so far.
  */
  lemma {:induction false} SubscribersAreGapFree(s: Model, ops: seq<Op>)
    requires AllGapFree(s)
    ensures var t := Run(Subscribe(s), ops);
            && |s.peers| < |t.peers|
            && var p := t.peers[|s.peers|];
               && p.joined == s.sequence
               && (forall k :: 0 <= k < |p.delivered| ==> p.delivered[k] == s.sequence + 1 + k)
               && p.taken <= |p.delivered| <= p.taken + EVENT_CAPACITY
               && (p.attached ==> s.sequence + |p.delivered| == t.sequence)
  {
    hide Run;
    ReadersGapFree(s, Join);
    RunGapFree(Subscribe(s), ops);
    var t := Run(Subscribe(s), ops);
    assert Follows(Subscribe(s).peers[|s.peers|], t.peers[|s.peers|]);
    assert GapFree(t.peers[|s.peers|], t.sequence);
  }
}
