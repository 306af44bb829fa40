/**
  What a native message may touch. A message is about one thread: every other thread keeps all its
  history, settings, marks, fences, streams, plans and requests, whatever the message says.
*/
module ReducerIsolation {
  import opened Wrappers
  import opened Reducer
  import opened ReducerRuns
  import opened ReducerTokens
  import opened ReducerMerge
  import opened ReducerStreams
  import opened ReducerEvents

  predicate SameAt<K(==), V(==)>(before: map<K, V>, after: map<K, V>, key: K) {
    (key in after <==> key in before) && (key in before ==> after[key] == before[key])
  }

  // ---------------------------------------------------------------------------------------
  // One thread's part of the state.

  predicate SameShown(s: Model, t: Model, thread: Name) {
    && SameAt(s.cache.threads, t.cache.threads, thread) && SameAt(s.cache.settings, t.cache.settings, thread)
    && SameAt(s.legacy.read, t.legacy.read, thread) && SameAt(s.legacy.dirty, t.legacy.dirty, thread)
  }

  predicate SameMarks(s: Model, t: Model, thread: Name) {
    && SameAt(s.stamps.settings, t.stamps.settings, thread) && SameAt(s.stamps.queue, t.stamps.queue, thread)
    && SameAt(s.stamps.status, t.stamps.status, thread) && SameAt(s.fences.scope, t.fences.scope, thread)
    && SameAt(s.fences.change, t.fences.change, thread) && SameAt(s.fences.access, t.fences.access, thread)
  }

  predicate SameAccess(s: Model, t: Model, thread: Name) {
    && (thread in t.control.subscribed <==> thread in s.control.subscribed)
    && (thread in t.control.archived <==> thread in s.control.archived)
    && SameAt(s.control.resumes, t.control.resumes, thread)
  }

  ghost predicate SameStreams(s: Model, t: Model, thread: Name) {
    && (forall k: TurnKey :: k.thread == thread ==> SameAt(s.stamps.turns, t.stamps.turns, k))
    && (forall k: TurnKey :: k.thread == thread ==> SameAt(s.streams.plans, t.streams.plans, k))
    && (forall k: ItemKey :: k.thread == thread ==> SameAt(s.streams.live, t.streams.live, k))
    && (forall k: ItemKey :: k.thread == thread ==> SameAt(s.streams.provisional, t.streams.provisional, k))
    && SameAt(s.streams.pendingPlans, t.streams.pendingPlans, thread)
  }

  predicate Kept(s: Model, t: Model, thread: Name) {
    SameShown(s, t, thread) && SameMarks(s, t, thread) && SameAccess(s, t, thread)
  }

  ghost predicate Untouched(s: Model, t: Model, thread: Name) {
    Kept(s, t, thread) && SameStreams(s, t, thread)
  }

  /** Requests of the thread stay, unless the message resolves or reuses their very id. */
  ghost predicate RequestsStay(s: Model, t: Model, m: Message, thread: Name) {
    forall k :: k in s.control.pending && s.control.pending[k].thread == Some(thread)
                && !(m.body.RequestResolved? && m.body.resolved == k) && m.id != Some(k)
                ==> k in t.control.pending && t.control.pending[k] == s.control.pending[k]
  }

  predicate About(m: Message, thread: Name) {
    ThreadOf(m) == Some(thread) || (m.body.ThreadStarted? && m.body.thread.id == thread)
  }

  lemma {:induction false} UntouchedThenUntouched(s: Model, t: Model, u: Model, m: Message, thread: Name)
    requires Untouched(s, t, thread) && RequestsStay(s, t, m, thread)
    requires Untouched(t, u, thread) && RequestsStay(t, u, m, thread)
    ensures Untouched(s, u, thread) && RequestsStay(s, u, m, thread)
  {
  }

  lemma {:induction false} Unchanged(s: Model, m: Message, thread: Name)
    ensures Untouched(s, s, thread) && RequestsStay(s, s, m, thread)
    ensures Untouched(s, Emit(s), thread) && RequestsStay(s, Emit(s), m, thread)
  {
    hide DeliverAll;
  }

  // ---------------------------------------------------------------------------------------
  // Stage by stage.

  lemma {:induction false} ArchiveKept(s: Model, m: Message, thread: Name)
    requires !About(m, thread)
    ensures var t := ArchiveStage(s, m); Kept(s, t, thread)
  {
  }

  lemma {:induction false} ArchiveUntouched(s: Model, m: Message, thread: Name)
    requires !About(m, thread)
    ensures var t := ArchiveStage(s, m); Untouched(s, t, thread) && RequestsStay(s, t, m, thread)
  {
    hide SameShown, SameMarks, SameAccess;
    ArchiveKept(s, m, thread);
  }

  lemma {:induction false} PlanUntouched(s: Model, m: Message, scope: Scope, thread: Name)
    requires !About(m, thread)
    ensures Untouched(s, PlanStage(s, m, scope), thread) && RequestsStay(s, PlanStage(s, m, scope), m, thread)
  {
    hide Permits, KnowsTurn;
  }

  lemma {:induction false} RequestUntouched(s: Model, m: Message, thread: Name)
    requires !About(m, thread)
    ensures Untouched(s, RequestStage(s, m), thread) && RequestsStay(s, RequestStage(s, m), m, thread)
  {
    hide TokenFor;
  }

  lemma {:induction false} StampKept(s: Model, m: Message, id: Option<Name>, thread: Name)
    requires !About(m, thread) && id == ThreadOf(m)
    ensures var t := StampStage(s, m, id); Kept(s, t, thread)
  {
    hide DropToolCalls, SameMarks, SameAccess;
    StampMarksKept(s, m, id, thread);
  }

  lemma {:induction false} StampMarksKept(s: Model, m: Message, id: Option<Name>, thread: Name)
    requires !About(m, thread) && id == ThreadOf(m)
    ensures var t := StampStage(s, m, id); SameMarks(s, t, thread) && SameAccess(s, t, thread)
  {
    hide DropToolCalls;
  }

  lemma {:induction false} StampRequests(s: Model, m: Message, id: Option<Name>, thread: Name)
    requires !About(m, thread) && id == ThreadOf(m)
    ensures RequestsStay(s, StampStage(s, m, id), m, thread)
  {
  }

  lemma {:induction false} StampUntouched(s: Model, m: Message, id: Option<Name>, thread: Name)
    requires !About(m, thread) && id == ThreadOf(m)
    ensures var t := StampStage(s, m, id); Untouched(s, t, thread) && RequestsStay(s, t, m, thread)
  {
    hide SameShown, SameMarks, SameAccess, RequestsStay, DropToolCalls;
    StampKept(s, m, id, thread);
    StampRequests(s, m, id, thread);
  }

  lemma {:induction false} ForgetKept(s: Model, m: Message, id: Name, thread: Name)
    requires thread != id
    ensures var t := ForgetOutsideScope(s, id); Kept(s, t, thread)
  {
    hide DropPending, DropItems, DropTurns, DeliverAll;
  }

  lemma {:induction false} ForgetUntouched(s: Model, m: Message, id: Name, thread: Name)
    requires thread != id
    ensures var t := ForgetOutsideScope(s, id); Untouched(s, t, thread) && RequestsStay(s, t, m, thread)
  {
    hide SameShown, SameMarks, SameAccess;
    hide DeliverAll;
    ForgetKept(s, m, id, thread);
  }

  lemma {:induction false} RetainKept(s: Model, m: Message, id: Name, after: Option<nat>, thread: Name)
    requires thread != id
    ensures var t := RetainPlans(s, id, after); Kept(s, t, thread)
  {
    hide RetainedPlans, Confirms, StillWaiting, Raise;
  }

  lemma {:induction false} RetainUntouched(s: Model, m: Message, id: Name, after: Option<nat>, thread: Name)
    requires thread != id
    ensures var t := RetainPlans(s, id, after); Untouched(s, t, thread) && RequestsStay(s, t, m, thread)
  {
    hide SameShown, SameMarks, SameAccess;
    hide KnowsTurn;
    RetainKept(s, m, id, after, thread);
  }

  lemma {:induction false} ClosedKept(s: Model, id: Name, turn: Turn, thread: Name)
    requires thread != id && id in s.cache.threads
    ensures var t := LegacyClosed(s, id, turn); Kept(s, t, thread)
  {
    hide CopyMetadata, DropTurnItems;
  }

  lemma {:induction false} ClosedUntouched(s: Model, m: Message, id: Name, turn: Turn, thread: Name)
    requires thread != id && id in s.cache.threads
    ensures var t := LegacyClosed(s, id, turn); Untouched(s, t, thread) && RequestsStay(s, t, m, thread)
  {
    hide CopyMetadata, MarkDirty, SameShown, SameMarks, SameAccess;
    ClosedKept(s, id, turn, thread);
  }

  lemma {:induction false} StreamUntouched(s: Model, m: Message, key: ItemKey, thread: Name)
    requires thread != key.thread && LegacyStream(m.body)
    ensures var t := StreamStage(s, key, m.body); Untouched(s, t, thread) && RequestsStay(s, t, m, thread)
  {
    hide StreamUpdate;
  }

  lemma {:induction false} LegacyUntouched(s: Model, m: Message, id: Name, thread: Name)
    requires thread != id && LegacyProjection(s, id, m.body).Some?
    ensures var t := LegacyProjection(s, id, m.body).value; Untouched(s, t, thread) && RequestsStay(s, t, m, thread)
  {
    hide RetainPlans, Emit, LegacyClosed, StreamStage, Untouched, RequestsStay;
    Unchanged(s, m, thread);
    if m.body.TurnCompleted? && id in s.cache.threads && s.cache.threads[id].legacy {
      var closed := LegacyClosed(s, id, m.body.turnValue);
      var retained := RetainPlans(closed, id, Some(s.sequence + 1));
      ClosedUntouched(s, m, id, m.body.turnValue, thread);
      RetainUntouched(closed, m, id, Some(s.sequence + 1), thread);
      UntouchedThenUntouched(s, closed, retained, m, thread);
      Unchanged(retained, m, thread);
      UntouchedThenUntouched(s, retained, Emit(retained), m, thread);
    } else {
      var key := ItemKey(id, TurnOf(m.body).value, ItemOf(m.body).value);
      var streamed := StreamStage(s, key, m.body);
      StreamUntouched(s, m, key, thread);
      Unchanged(streamed, m, thread);
      UntouchedThenUntouched(s, streamed, Emit(streamed), m, thread);
    }
  }

  lemma {:induction false} ContentUntouched(s: Model, m: Message, id: Name, thread: Name)
    requires thread != id
    ensures var t := ContentStage(s, id, m.body); Untouched(s, t, thread) && RequestsStay(s, t, m, thread)
  {
    hide UpdateTurns;
  }

  lemma {:induction false} TurnUntouched(s: Model, m: Message, id: Name, turn: Name, thread: Name)
    requires thread != id
    ensures var t := TurnStage(s, id, turn, m.body); Untouched(s, t, thread) && RequestsStay(s, t, m, thread)
  {
    hide RetainPlans, Untouched, RequestsStay;
    var touched := TouchStage(s, id, turn, m.body);
    TouchUntouched(s, m, id, turn, thread);
    var settled := Settle(touched, id, turn);
    SettleUntouched(touched, m, id, turn, thread);
    UntouchedThenUntouched(s, touched, settled, m, thread);
    RetainUntouched(touched, m, id, Some(s.sequence + 1), thread);
    RetainUntouched(settled, m, id, Some(s.sequence + 1), thread);
    UntouchedThenUntouched(s, touched, RetainPlans(touched, id, Some(s.sequence + 1)), m, thread);
    UntouchedThenUntouched(s, settled, RetainPlans(settled, id, Some(s.sequence + 1)), m, thread);
  }

  lemma {:induction false} TouchUntouched(s: Model, m: Message, id: Name, turn: Name, thread: Name)
    requires thread != id
    ensures var t := TouchStage(s, id, turn, m.body); Untouched(s, t, thread) && RequestsStay(s, t, m, thread)
  {
  }

  lemma {:induction false} SettleUntouched(s: Model, m: Message, id: Name, turn: Name, thread: Name)
    requires thread != id
    ensures Untouched(s, Settle(s, id, turn), thread) && RequestsStay(s, Settle(s, id, turn), m, thread)
  {
  }

  lemma {:induction false} ProjectUntouched(s: Model, m: Message, thread: Name)
    requires !About(m, thread)
    ensures var t := Project(s, m, ThreadOf(m)); Untouched(s, t, thread) && RequestsStay(s, t, m, thread)
  {
    hide StampStage, LegacyProjection, ContentStage, TurnStage, Untouched, RequestsStay, Emit;
    var id := ThreadOf(m);
    var stamped := StampStage(s, m, id);
    StampUntouched(s, m, id, thread);
    if id.None? {
      Unchanged(stamped, m, thread);
      UntouchedThenUntouched(s, stamped, Emit(stamped), m, thread);
    } else if LegacyProjection(stamped, id.value, m.body).Some? {
      LegacyUntouched(stamped, m, id.value, thread);
      UntouchedThenUntouched(s, stamped, LegacyProjection(stamped, id.value, m.body).value, m, thread);
    } else {
      var content := ContentStage(stamped, id.value, m.body);
      ContentUntouched(stamped, m, id.value, thread);
      UntouchedThenUntouched(s, stamped, content, m, thread);
      var turned := if TurnOf(m.body).Some? then TurnStage(content, id.value, TurnOf(m.body).value, m.body) else content;
      if TurnOf(m.body).Some? {
        TurnUntouched(content, m, id.value, TurnOf(m.body).value, thread);
        UntouchedThenUntouched(s, content, turned, m, thread);
      }
      Unchanged(turned, m, thread);
      UntouchedThenUntouched(s, turned, Emit(turned), m, thread);
    }
  }

  /**
    A message touches nothing of a thread it is not about, in any state and whatever its content:
    not its history, settings, marks or fences, nor its streams and plans; its requests stay unless
    the message resolves one by name or is itself a request under the same id.
  */
  lemma {:induction false} MessagesAreIsolated(s: Model, m: Message, scope: Scope, thread: Name)
    requires !About(m, thread)
    ensures Untouched(s, Reduce(s, m, scope), thread) && RequestsStay(s, Reduce(s, m, scope), m, thread)
  {
    hide ArchiveStage, PlanStage, RequestStage, Project, ForgetOutsideScope, Untouched, RequestsStay, Emit, Permits, PlanAdmitted;
    var archived := ArchiveStage(s, m);
    var planned := PlanStage(archived, m, scope);
    ArchiveUntouched(s, m, thread);
    Unchanged(s, m, thread);
    Unchanged(archived, m, thread);
    UntouchedThenUntouched(s, archived, Emit(archived), m, thread);
    PlanUntouched(archived, m, scope, thread);
    UntouchedThenUntouched(s, archived, planned, m, thread);
    if ThreadOf(m).Some? {
      ForgetUntouched(planned, m, ThreadOf(m).value, thread);
      UntouchedThenUntouched(s, planned, ForgetOutsideScope(planned, ThreadOf(m).value), m, thread);
    }
    var requested := RequestStage(planned, m);
    RequestUntouched(planned, m, thread);
    UntouchedThenUntouched(s, planned, requested, m, thread);
    ProjectUntouched(requested, m, thread);
    UntouchedThenUntouched(s, requested, Project(requested, m, ThreadOf(m)), m, thread);
  }

  // ---------------------------------------------------------------------------------------
  // What a message does to the controls and marks of its own thread.

  /** Only the history, streams, turn marks and growth of the thread may differ. */
  predicate SameControls(s: Model, t: Model) {
    && t.control == s.control && t.fences == s.fences && t.stamps == s.stamps.(turns := t.stamps.turns)
    && t.cache.settings == s.cache.settings && t.cache.threads.Keys == s.cache.threads.Keys
  }

  lemma {:induction false} RetainSame(s: Model, id: Name, after: Option<nat>)
    ensures SameControls(s, RetainPlans(s, id, after))
  {
    hide RetainedPlans, Confirms, StillWaiting, Raise;
  }

  lemma {:induction false} LegacySame(s: Model, id: Name, body: Body)
    requires LegacyProjection(s, id, body).Some?
    ensures SameControls(s, LegacyProjection(s, id, body).value)
  {
    hide RetainPlans, DeliverAll, StreamedItems, CopyMetadata, MarkDirty, DropTurnItems;
    if id in s.cache.threads && body.TurnCompleted? && s.cache.threads[id].legacy {
      RetainSame(LegacyClosed(s, id, body.turnValue), id, Some(s.sequence + 1));
    }
  }

  lemma {:induction false} TurnSame(s: Model, id: Name, turn: Name, body: Body)
    ensures SameControls(s, TurnStage(s, id, turn, body))
  {
    hide RetainPlans, TouchLive, MarkDirty, DropTurnItems;
    var touched := TouchStage(s, id, turn, body);
    RetainSame(touched, id, Some(s.sequence + 1));
    RetainSame(Settle(touched, id, turn), id, Some(s.sequence + 1));
  }

  lemma {:induction false} ProjectSame(s: Model, m: Message, id: Name)
    ensures SameControls(StampStage(s, m, Some(id)), Project(s, m, Some(id)))
  {
    hide StampStage, LegacyProjection, TurnStage, UpdateTurns, DeliverAll;
    var stamped := StampStage(s, m, Some(id));
    var content := ContentStage(stamped, id, m.body);
    if LegacyProjection(stamped, id, m.body).Some? {
      LegacySame(stamped, id, m.body);
    } else if TurnOf(m.body).Some? {
      TurnSame(content, id, TurnOf(m.body).value, m.body);
    }
  }

  /** The message voids the request: resolved by name, its tool call completed, or its thread archived. */
  predicate Voids(m: Message, id: Name, r: Request, key: Name) {
    match m.body
    case RequestResolved(resolved) => resolved == key
    case ItemCompleted(_, item) =>
      item.kind.DynamicTool? && r.body.ServerRequest? && r.body.request.ToolCall? && r.thread == Some(id)
      && r.body.call == item.id
    case ThreadArchived => r.thread == Some(id)
    case _ => false
  }

  /** A notification of an attached thread; only a started thread may be named by its content alone. */
  predicate OwnNotice(s: Model, m: Message, id: Name) {
    && ThreadOf(m) == Some(id) && m.id.None? && id in s.control.subscribed
    && (m.thread.None? ==> m.body.ThreadStarted?)
  }

  lemma {:induction false} NoticeStages(s: Model, m: Message, scope: Scope, id: Name)
    requires OwnNotice(s, m, id) && !m.body.PlanUpdated?
    requires m.body.SettingsUpdated? && s.restricted ==> Permits(scope, m.body.settings.cwd)
    requires m.body.RequestResolved? ==> m.body.resolved in s.control.pending
    ensures Reduce(s, m, scope) == Project(ArchiveStage(s, m), m, Some(id))
  {
    hide Project, ForgetOutsideScope, Permits, DeliverAll, PlanAdmitted, DropPending, DropItems;
  }

  /** A change of the archive is told before anything else, and every other message stamps only what it reports. */
  lemma {:induction false} OneStage(s: Model, m: Message, id: Name)
    requires OwnNotice(s, m, id)
    ensures var (a, changes) := (ArchiveStage(s, m), m.body.ThreadArchived? || m.body.ThreadUnarchived?);
            StampStage(a, m, Some(id)) == if changes then a else StampStage(s, m, Some(id))
  {
    hide DropToolCalls, ClearProvisional, DropPending;
  }

  lemma {:induction false} ArchiveControls(s: Model, m: Message, id: Name)
    requires OwnNotice(s, m, id) && (m.body.ThreadArchived? || m.body.ThreadUnarchived?)
    ensures var (t, next) := (ArchiveStage(s, m), s.sequence + 1);
            && t.stamps == s.stamps.(archive := next) && t.fences == s.fences.(access := s.fences.access[id := next])
            && t.cache == s.cache && t.control.subscribed == s.control.subscribed && t.control.resumes == s.control.resumes
            && t.control.archived == (if m.body.ThreadArchived? then s.control.archived + {id} else s.control.archived)
            && t.control.pending == if m.body.ThreadArchived? then DropPending(s.control.pending, id) else s.control.pending
  {
    hide DropPending;
  }

  lemma {:induction false} StampMarks(s: Model, m: Message, id: Name)
    requires OwnNotice(s, m, id) && !m.body.ThreadArchived? && !m.body.ThreadUnarchived?
    ensures var (t, next) := (StampStage(s, m, Some(id)), s.sequence + 1);
            && t.stamps.settings == (if m.body.SettingsUpdated? then s.stamps.settings[id := next] else s.stamps.settings)
            && t.stamps.queue == (if m.body.QueueChanged? then s.stamps.queue[id := next] else s.stamps.queue)
            && t.stamps.status == (if m.body.StatusChanged? then s.stamps.status[id := next] else s.stamps.status)
            && t.stamps.archive == s.stamps.archive && t.fences == s.fences
            && t.cache.settings == (if m.body.SettingsUpdated? then s.cache.settings[id := m.body.settings] else s.cache.settings)
            && t.cache.threads.Keys == (s.cache.threads.Keys
                                        + if m.body.ThreadStarted? then {m.body.thread.id} else {})
  {
    hide DropToolCalls;
  }

  lemma {:induction false} StampControls(s: Model, m: Message, id: Name)
    requires OwnNotice(s, m, id) && !m.body.ThreadArchived? && !m.body.ThreadUnarchived?
    ensures var t := StampStage(s, m, Some(id));
            && t.control == s.control.(pending := t.control.pending)
            && (forall k :: k in t.control.pending <==>
                  k in s.control.pending && !Voids(m, id, s.control.pending[k], k))
            && (forall k :: k in t.control.pending ==> t.control.pending[k] == s.control.pending[k])
  {
  }

  /**
    A notification marks exactly what it reports as newer than all earlier reads, takes away exactly
    the requests it settles, and archives or announces a thread only if that is what it says.
  */
  lemma {:induction false} ControlsFollowEvents(s: Model, m: Message, scope: Scope, id: Name)
    requires OwnNotice(s, m, id) && !m.body.PlanUpdated?
    requires m.body.SettingsUpdated? && s.restricted ==> Permits(scope, m.body.settings.cwd)
    requires m.body.RequestResolved? ==> m.body.resolved in s.control.pending
    ensures var (t, next) := (Reduce(s, m, scope), s.sequence + 1);
            var changes := m.body.ThreadArchived? || m.body.ThreadUnarchived?;
            && t.stamps.settings == (if m.body.SettingsUpdated? then s.stamps.settings[id := next] else s.stamps.settings)
            && t.stamps.queue == (if m.body.QueueChanged? then s.stamps.queue[id := next] else s.stamps.queue)
            && t.stamps.status == (if m.body.StatusChanged? then s.stamps.status[id := next] else s.stamps.status)
            && t.stamps.archive == (if changes then next else s.stamps.archive)
            && t.fences == (if changes then s.fences.(access := s.fences.access[id := next]) else s.fences)
            && t.cache.settings == (if m.body.SettingsUpdated? then s.cache.settings[id := m.body.settings] else s.cache.settings)
            && t.cache.threads.Keys == (s.cache.threads.Keys
                                        + if m.body.ThreadStarted? then {m.body.thread.id} else {})
            && t.control.subscribed == s.control.subscribed && t.control.resumes == s.control.resumes
            && t.control.archived == (if m.body.ThreadArchived? then s.control.archived + {id} else s.control.archived)
            && (forall k :: k in t.control.pending <==>
                  k in s.control.pending && !Voids(m, id, s.control.pending[k], k))
            && (forall k :: k in t.control.pending ==> t.control.pending[k] == s.control.pending[k])
  {
    hide Reduce, Project, StampStage, ArchiveStage, Permits, Voids, OwnNotice;
    NoticeStages(s, m, scope, id);
    ProjectSame(ArchiveStage(s, m), m, id);
    OneStage(s, m, id);
    if m.body.ThreadArchived? || m.body.ThreadUnarchived? {
      ArchiveControls(s, m, id);
      Dropped(s, m, id);
    } else {
      StampMarks(s, m, id);
      StampControls(s, m, id);
    }
  }

  lemma {:induction false} Dropped(s: Model, m: Message, id: Name)
    requires m.body.ThreadArchived? || m.body.ThreadUnarchived?
    ensures var pending := if m.body.ThreadArchived? then DropPending(s.control.pending, id) else s.control.pending;
            && (forall k :: k in pending <==> k in s.control.pending && !Voids(m, id, s.control.pending[k], k))
            && (forall k :: k in pending ==> pending[k] == s.control.pending[k])
  {
  }

  lemma {:induction false} ThreadStartedApplies(s: Model, m: Message, scope: Scope, id: Name)
    requires OwnNotice(s, m, id) && m.body.ThreadStarted?
    ensures var t := Reduce(s, m, scope);
            && t.cache == Cache(s.cache.threads[m.body.thread.id := m.body.thread], s.cache.settings)
            && t.control == s.control && t.streams == s.streams && t.fences == s.fences && t.stamps == s.stamps
            && t.legacy == s.legacy && t.sequence == s.sequence + 1
  {
    hide ForgetOutsideScope, Permits, DeliverAll, PlanAdmitted;
  }

  /** A completion the cached history does not show yet: of a legacy thread, or of one not cached. */
  predicate Grows(s: Model, body: Body, id: Name) {
    var unread := id !in s.cache.threads || s.cache.threads[id].legacy;
    match body
    case TurnCompleted(turn) => unread && (id in s.cache.threads ==> turn.id != NO_NAME)
    case ItemCompleted(turn, item) => unread && turn != NO_NAME && item.id != NO_NAME && AliasKind(item.kind)
    case _ => false
  }

  lemma {:induction false} TurnGrowth(s: Model, id: Name, turn: Name, body: Body)
    ensures TurnStage(s, id, turn, body).legacy
            == if body.TurnCompleted? && id !in s.cache.threads then MarkDirty(s, id) else s.legacy
  {
    hide RetainPlans, TouchLive, DropTurnItems, MarkDirty;
    var touched := TouchStage(s, id, turn, body);
    assert MarkDirty(touched, id) == MarkDirty(s, id) by { SameGrowth(s, touched, id); }
    RetainLegacy(touched, id, Some(s.sequence + 1));
    RetainLegacy(Settle(touched, id, turn), id, Some(s.sequence + 1));
  }

  lemma {:induction false} SameGrowth(s: Model, t: Model, id: Name)
    requires t.control.archived == s.control.archived && t.legacy == s.legacy && t.sequence == s.sequence
    ensures MarkDirty(t, id) == MarkDirty(s, id)
  {
  }

  lemma {:induction false} ProjectionGrowth(s: Model, id: Name, body: Body)
    requires (body.TurnCompleted? || body.ItemCompleted?) && LegacyProjection(s, id, body).Some?
    ensures Grows(s, body, id) && LegacyProjection(s, id, body).value.legacy == MarkDirty(s, id)
  {
    hide RetainPlans, DeliverAll, StreamedItems, CopyMetadata, MarkDirty, DropTurnItems;
    if body.TurnCompleted? {
      RetainLegacy(LegacyClosed(s, id, body.turnValue), id, Some(s.sequence + 1));
    }
  }

  /** Exactly such completions mark the history as grown, unless the thread is archived; none marks it read. */
  lemma {:induction false} GrowthFollowsEvents(s: Model, m: Message, scope: Scope, id: Name)
    requires OwnNotice(s, m, id) && (m.body.TurnCompleted? || m.body.ItemCompleted?)
    ensures Reduce(s, m, scope).legacy
            == s.legacy.(dirty := if Grows(s, m.body, id) && id !in s.control.archived
                                  then s.legacy.dirty[id := s.sequence + 1] else s.legacy.dirty)
  {
    hide Reduce, LegacyProjection, TurnStage, DeliverAll, DropToolCalls, UpdateTurns;
    NoticeStages(s, m, scope, id);
    var stamped := StampStage(s, m, Some(id));
    var content := ContentStage(stamped, id, m.body);
    SameGrowth(s, stamped, id);
    SameGrowth(s, content, id);
    if LegacyProjection(stamped, id, m.body).Some? {
      ProjectionGrowth(stamped, id, m.body);
    } else {
      NoProjection(stamped, id, m.body);
      TurnGrowth(content, id, TurnOf(m.body).value, m.body);
    }
  }

  lemma {:induction false} NoProjection(s: Model, id: Name, body: Body)
    requires (body.TurnCompleted? || body.ItemCompleted?) && LegacyProjection(s, id, body).None?
    ensures Grows(s, body, id) <==> body.TurnCompleted? && id !in s.cache.threads
  {
    hide LegacyCompleted, LegacyStreamed;
  }

  lemma {:induction false} RetainLegacy(s: Model, id: Name, after: Option<nat>)
    ensures RetainPlans(s, id, after).legacy == s.legacy
  {
    hide RetainedPlans, Confirms, StillWaiting, Raise;
  }
}
