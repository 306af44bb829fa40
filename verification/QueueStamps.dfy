/**
  What a queue stamp tells. `thread/queue/changed` carries no entries: the reducer only marks the
  thread's queue with the number of the event. A reader that compares two marks learns whether the
  queue was reported changed in between, as long as the thread stays attached and unfenced.
*/
module QueueStamps {
  import opened Wrappers
  import opened Reducer
  import opened ReducerRuns
  import opened ReducerGuarantees
  import Queue = QueueSnapshot

  function QueueStamp(s: Model, id: Name): Option<nat> {
    if id in s.stamps.queue then Some(s.stamps.queue[id]) else None
  }

  /** A mark is the number of a past event. */
  predicate Stamped(s: Model, id: Name) {
    id in s.stamps.queue ==> s.stamps.queue[id] <= s.sequence
  }

  /** What a reader of the thread's queue looks at. */
  function Raised(fence: map<Name, nat>, id: Name): nat {
    if id in fence then fence[id] else 0
  }

  function ViewOf(s: Model, id: Name): Queue.View {
    Queue.View(s.connection.Connected?, s.epoch, s.sequence, id in s.fences.scope, id in s.control.archived,
               Raised(s.fences.change, id), Raised(s.fences.access, id), QueueStamp(s, id))
  }

  lemma {:induction false} ViewLine(s: Model, id: Name)
    ensures var v := ViewOf(s, id); v.epoch == s.epoch && v.sequence == s.sequence && v.queueStamp == QueueStamp(s, id)
  {
  }

  /** The native server reports a change of the thread's queue. */
  predicate QueueNotice(op: Op, id: Name) {
    op.Native? && op.message == Message(Some(id), None, QueueChanged)
  }

  /** A report that passes every check of the reducer. */
  predicate Reduces(s: Model, op: Op, id: Name) {
    && op.Native? && op.message.body.QueueChanged? && op.message.thread == Some(id) && id in s.control.subscribed
    && (op.message.id.Some? ==> id !in s.control.archived || id in s.control.resumes)
  }

  /** The sections that take a subscription away and leave no fence behind. */
  predicate Detaches(op: Op, id: Name) {
    op == Release(id) || op == FailedRecovery(id) || op.Disable?
  }

  ghost predicate Holds(ops: seq<Op>, id: Name) {
    forall k :: 0 <= k < |ops| ==> !Detaches(ops[k], id)
  }

  ghost predicate Noticed(ops: seq<Op>, id: Name) {
    exists k :: 0 <= k < |ops| && QueueNotice(ops[k], id)
  }

  /** Some section of the run reduced a report of this queue. */
  ghost predicate Reported(s: Model, ops: seq<Op>, id: Name)
    decreases |ops|
  {
    ops != [] && (Reduces(s, ops[0], id) || Reported(Apply(s, ops[0]), ops[1..], id))
  }

  // ---------------------------------------------------------------------------------------
  // One section.

  predicate SameQueues(s: Model, t: Model) {
    t.stamps.queue == s.stamps.queue && t.control.subscribed == s.control.subscribed
  }

  /** Attached and marked as before, or marked by this event. */
  predicate Attends(s: Model, t: Model, id: Name, reported: bool) {
    && (id in s.control.subscribed ==> id in t.control.subscribed)
    && QueueStamp(t, id) == (if reported then Some(s.sequence + 1) else QueueStamp(s, id))
    && (reported ==> t.sequence == s.sequence + 1)
  }

  /** The thread was closed: no read begun before can still be current. */
  predicate Closes(s: Model, t: Model, id: Name) {
    Fence(t.fences, id) > s.sequence && id !in t.stamps.queue && t.sequence > s.sequence
  }

  lemma {:induction false} EarlyQueues(s: Model, m: Message, scope: Scope)
    ensures SameQueues(s, ArchiveStage(s, m)) && Still(s, ArchiveStage(s, m))
    ensures SameQueues(s, PlanStage(s, m, scope)) && Still(s, PlanStage(s, m, scope))
    ensures SameQueues(s, RequestStage(s, m)) && Still(s, RequestStage(s, m))
    ensures PlanStage(s, m, scope).control == s.control
    ensures m.body.QueueChanged? ==> ArchiveStage(s, m) == s && PlanStage(s, m, scope) == s
  {
    hide DropPending, DropItems, PlanAdmitted, StorePlan, TokenFor;
  }

  lemma {:induction false} StampQueues(s: Model, m: Message, id: Option<Name>)
    ensures var t := StampStage(s, m, id);
            && t.control.subscribed == s.control.subscribed && t.sequence == s.sequence
            && t.stamps.queue == if m.body.QueueChanged? && id.Some? then s.stamps.queue[id.value := s.sequence + 1]
                                 else s.stamps.queue
  {
    hide DropToolCalls;
  }

  lemma {:induction false} RetainQueues(s: Model, thread: Name, after: Option<nat>)
    ensures SameQueues(s, RetainPlans(s, thread, after)) && Still(s, RetainPlans(s, thread, after))
  {
    hide RetainedPlans, KnowsTurn, Raise;
  }

  lemma {:induction false} TurnQueues(s: Model, id: Name, turn: Name, body: Body)
    ensures SameQueues(s, TurnStage(s, id, turn, body))
  {
    hide RetainPlans, TouchLive, MarkDirty, DropTurnItems;
    forall t: Model, after: Option<nat> ensures SameQueues(t, RetainPlans(t, id, after)) {
      RetainQueues(t, id, after);
    }
  }

  lemma {:induction false} LegacyQueues(s: Model, id: Name, body: Body)
    ensures LegacyProjection(s, id, body).Some? ==> SameQueues(s, LegacyProjection(s, id, body).value)
    ensures body.QueueChanged? ==> LegacyProjection(s, id, body).None?
  {
    hide RetainPlans, LegacyStreamed, MarkDirty, CopyMetadata, DropTurnItems, DeliverAll;
    forall t: Model, after: Option<nat> ensures SameQueues(t, RetainPlans(t, id, after)) {
      RetainQueues(t, id, after);
    }
    if LegacyStream(body) && TurnOf(body).Some? && ItemOf(body).Some? {
      StreamedQueues(s, id, TurnOf(body).value, ItemOf(body).value, body);
    }
  }

  lemma {:induction false} StreamedQueues(s: Model, id: Name, turn: Name, item: Name, body: Body)
    requires LegacyStream(body)
    ensures SameQueues(s, LegacyStreamed(s, id, turn, item, body))
  {
    hide StreamItem, MarkDirty, DeliverAll;
  }

  lemma {:induction false} ProjectQueues(s: Model, m: Message, id: Option<Name>)
    ensures var t := Project(s, m, id);
            && t.control.subscribed == s.control.subscribed
            && t.stamps.queue == (if m.body.QueueChanged? && id.Some? then s.stamps.queue[id.value := s.sequence + 1]
                                  else s.stamps.queue)
            && (m.body.QueueChanged? ==> t.sequence == s.sequence + 1)
  {
    hide StampStage, LegacyProjection, TurnStage, UpdateTurns, DeliverAll;
    var t := StampStage(s, m, id);
    StampQueues(s, m, id);
    if id.Some? {
      LegacyQueues(t, id.value, m.body);
      if TurnOf(m.body).Some? {
        TurnQueues(ContentStage(t, id.value, m.body), id.value, TurnOf(m.body).value, m.body);
      }
    }
  }

  lemma {:induction false} ForgetCloses(s: Model, thread: Name, id: Name)
    ensures var t := ForgetOutsideScope(s, thread);
            if thread == id then Closes(s, t, id) else Attends(s, t, id, false)
  {
    hide DeliverAll, DropPending, DropTurns, DropItems;
  }

  lemma {:induction false} AttachedQueues(s: Model, m: Message, scope: Scope, id: Name)
    requires ThreadOf(m).Some? ==> ThreadOf(m).value in s.control.subscribed
    ensures var t := ReduceAttached(s, m, scope);
            Attends(s, t, id, Reduces(s, Native(m, scope), id)) || Closes(s, t, id)
  {
    hide PlanStage, PlanAdmitted, RequestStage, Project, ForgetOutsideScope, Permits;
    var t := PlanStage(s, m, scope);
    EarlyQueues(s, m, scope);
    EarlyQueues(t, m, scope);
    ProjectQueues(RequestStage(t, m), m, ThreadOf(m));
    if ThreadOf(m).Some? {
      ForgetCloses(t, ThreadOf(m).value, id);
    }
  }

  lemma {:induction false} ReduceQueues(s: Model, m: Message, scope: Scope, id: Name)
    ensures var t := Reduce(s, m, scope);
            Attends(s, t, id, Reduces(s, Native(m, scope), id)) || Closes(s, t, id)
  {
    hide ArchiveStage, ReduceAttached, DeliverAll;
    var t := ArchiveStage(s, m);
    EarlyQueues(s, m, scope);
    if ThreadOf(m).Some? ==> ThreadOf(m).value in t.control.subscribed {
      AttachedQueues(t, m, scope, id);
    }
  }

  lemma {:induction false} MergeQueues(s: Model, result: Snapshot, after: Option<nat>, scope: Scope, id: Name)
    ensures var t := Remember(s, result, after, scope); Attends(s, t, id, false) || Closes(s, t, id)
  {
    hide ForgetOutsideScope, RetainPlans, MergedThread, RetainedLive, RetainedProvisional, Invalidated, Permits;
    if result.thread.Some? {
      ForgetCloses(s, result.thread.value.id, id);
      RetainQueues(Absorb(s, result, after), result.thread.value.id, after);
    }
  }

  lemma {:induction false} ArchivedQueues(s: Model, thread: Thread, epoch: nat, since: nat, scope: Scope, id: Name)
    ensures Attends(s, RememberArchived(s, thread, epoch, since, scope), id, false)
  {
    hide RetainPlans, ArchivedReadStale, DropItems, DropPending;
    forall t: Model ensures SameQueues(t, RetainPlans(t, thread.id, Some(since))) {
      RetainQueues(t, thread.id, Some(since));
    }
  }

  /** Every section attends to the queue of an attached thread, or closes the thread. */
  lemma {:induction false} ApplyQueues(s: Model, op: Op, id: Name)
    requires !Detaches(op, id)
    ensures Attends(s, Apply(s, op), id, Reduces(s, op, id)) || Closes(s, Apply(s, op), id)
  {
    hide Reduce, Remember, RememberArchived, StableThreads, DeliverAll, DropPending, DropItems, Closes;
    match op
    case Native(message, scope) => ReduceQueues(s, message, scope, id);
    case Merge(result, after, scope) => MergeQueues(s, result, after, scope, id);
    case MergeArchived(history, epoch, since, scope) => ArchivedQueues(s, history, epoch, since, scope, id);
    case _ =>
  }

  lemma {:induction false} LineGrows(s: Model, op: Op)
    ensures Apply(s, op).sequence >= s.sequence
  {
    hide Reduce, Remember, RememberArchived, Connect, BeginResume, FinishResume, ReleaseReservation,
         RecoverArchived, RecoveryFailed, DeliverAll, DetachAll;
    if !op.Join? && !op.Take? && !op.Leave? && !op.Disable? {
      OneEvent(s, op);
    }
  }

  lemma {:induction false} ApplyStamped(s: Model, op: Op, id: Name)
    requires Stamped(s, id)
    ensures Stamped(Apply(s, op), id)
  {
    hide Apply, Reduces;
    LineGrows(s, op);
    if Detaches(op, id) {
      DetachedQueues(s, op, id);
    } else {
      ApplyQueues(s, op, id);
    }
  }

  lemma {:induction false} DetachedQueues(s: Model, op: Op, id: Name)
    requires Detaches(op, id)
    ensures Apply(s, op).stamps == s.stamps && Apply(s, op).fences == s.fences && SameLink(s, Apply(s, op))
    ensures id !in Apply(s, op).control.subscribed
  {
    hide DeliverAll, DetachAll, DropPending, DropItems;
  }

  // ---------------------------------------------------------------------------------------
  // Runs.

  lemma {:induction false} RunStamped(s: Model, ops: seq<Op>, id: Name)
    requires Stamped(s, id)
    ensures Stamped(Run(s, ops), id) && s.sequence <= Run(s, ops).sequence
    decreases |ops|
  {
    hide Apply, Stamped;
    if ops != [] {
      LineGrows(s, ops[0]);
      ApplyStamped(s, ops[0], id);
      RunStamped(Apply(s, ops[0]), ops[1..], id);
    }
  }

  /** What a run leaves of an attached thread's queue mark: nothing new, or a later event. */
  lemma {:induction false} RunQueues(s: Model, ops: seq<Op>, id: Name, after: nat)
    requires Sound(s) && id in s.control.subscribed && after <= s.sequence && Holds(ops, id)
    requires !Invalidated(Run(s, ops), id, after)
    ensures var t := Run(s, ops);
            && id in t.control.subscribed
            && if Reported(s, ops, id) then QueueStamp(t, id).Some? && QueueStamp(t, id).value > s.sequence
               else QueueStamp(t, id) == QueueStamp(s, id)
    ensures Noticed(ops, id) ==> Reported(s, ops, id)
    decreases |ops|
  {
    hide Apply, Sound, Invalidated, Fence, Detaches, QueueStamp;
    if ops != [] {
      var t := Apply(s, ops[0]);
      ApplyQueues(s, ops[0], id);
      ApplyKeeps(s, ops[0]);
      LineGrows(s, ops[0]);
      if Closes(s, t, id) {
        InvalidatedByFence(t, id, after);
        InvalidForEver(t, ops[1..], id, after);
        assert false;
      } else {
        assert forall k :: 0 <= k < |ops[1..]| ==> ops[1..][k] == ops[k + 1];
        RunQueues(t, ops[1..], id, after);
        if Noticed(ops, id) && !QueueNotice(ops[0], id) {
          var k :| 0 < k < |ops| && QueueNotice(ops[k], id);
          assert QueueNotice(ops[1..][k - 1], id);
        }
      }
    }
  }

  /**
    While the thread is attached and no fence passes the watermark, equal stamps mean exactly that
    no report of its queue was reduced; and then none came at all.
  */
  lemma {:induction false} EqualStampsTell(s: Model, ops: seq<Op>, id: Name, after: nat)
    requires Sound(s) && Stamped(s, id) && id in s.control.subscribed && after <= s.sequence && Holds(ops, id)
    requires !Invalidated(Run(s, ops), id, after)
    ensures id in Run(s, ops).control.subscribed
    ensures QueueStamp(Run(s, ops), id) == QueueStamp(s, id) <==> !Reported(s, ops, id)
    ensures QueueStamp(Run(s, ops), id) == QueueStamp(s, id) ==> !Noticed(ops, id)
  {
    hide Sound, Invalidated, QueueNotice, Reported, Run;
    RunQueues(s, ops, id, after);
  }

  // ---------------------------------------------------------------------------------------
  // Attachment is what makes a stamp tell anything.

  /** The reducer drops a report of a thread that is not attached before it marks anything. */
  lemma {:induction false} UnattachedUnmarked(s: Model, m: Message, scope: Scope)
    requires m.body.QueueChanged? && (m.thread.Some? ==> m.thread.value !in s.control.subscribed)
    ensures Apply(s, Native(m, scope)) == s
  {
    hide ReduceAttached;
  }

  /** The run ends with the stamp it began with, and no fence passes its beginning. */
  ghost predicate Unmarked(s: Model, ops: seq<Op>, id: Name) {
    Holds(ops, id) && !Invalidated(Run(s, ops), id, s.sequence) && QueueStamp(Run(s, ops), id) == QueueStamp(s, id)
  }

  /** From here on, an equal stamp means that no report came. */
  ghost predicate Tells(s: Model, id: Name) {
    forall ops: seq<Op> :: Unmarked(s, ops, id) ==> !Noticed(ops, id)
  }

  lemma {:induction false} TellsExactlyWhenAttached(s: Model, id: Name)
    requires Sound(s) && Stamped(s, id) && !Invalidated(s, id, s.sequence)
    ensures Tells(s, id) <==> id in s.control.subscribed
  {
    hide Sound, Invalidated, Apply, Stamped, QueueStamp;
    if id in s.control.subscribed {
      forall ops: seq<Op> | Unmarked(s, ops, id) ensures !Noticed(ops, id) {
        EqualStampsTell(s, ops, id, s.sequence);
      }
    } else {
      var ops := [Native(Message(Some(id), None, QueueChanged), Unrestricted)];
      UnattachedUnmarked(s, ops[0].message, ops[0].scope);
      RunOne(s, ops[0]);
      assert QueueNotice(ops[0], id) && Noticed(ops, id);
      assert Unmarked(s, ops, id);
    }
  }
}
