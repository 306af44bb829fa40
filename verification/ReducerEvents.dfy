/** What one native message of an attached thread leaves behind, and what it leaves alone. */
module ReducerEvents {
  import opened Wrappers
  import opened Reducer
  import opened ReducerRuns
  import opened ReducerTokens
  import opened ReducerMerge
  import opened ReducerStreams

  /** A notification of an attached thread. */
  predicate Notice(s: Model, m: Message, id: Name) {
    m.thread == Some(id) && m.id.None? && id in s.control.subscribed
  }

  lemma {:induction false} NoticeProjects(s: Model, m: Message, scope: Scope, id: Name)
    requires Notice(s, m, id)
    requires !m.body.ThreadArchived? && !m.body.ThreadUnarchived? && !m.body.PlanUpdated?
    requires m.body.SettingsUpdated? && s.restricted ==> Permits(scope, m.body.settings.cwd)
    requires m.body.RequestResolved? ==> m.body.resolved in s.control.pending
    ensures Reduce(s, m, scope) == Project(s, m, Some(id))
  {
    hide Project, ForgetOutsideScope, Permits;
  }

  // ---------------------------------------------------------------------------------------
  // Watermarks: every event a snapshot must not overwrite is newer than all earlier reads.

  predicate TurnEvent(body: Body) {
    TurnOf(body).Some? && TurnOf(body).value != NO_NAME && !body.PlanUpdated?
  }

  lemma {:induction false} RetainKeepsStamp(s: Model, thread: Name, after: Option<nat>, key: TurnKey)
    requires key in s.stamps.turns
    ensures var t := RetainPlans(s, thread, after); key in t.stamps.turns && t.stamps.turns[key] >= s.stamps.turns[key]
  {
    hide KnowsTurn, RetainedPlans;
  }

  lemma {:induction false} TurnStamped(s: Model, id: Name, turn: Name, body: Body)
    requires TurnOf(body) == Some(turn) && !body.PlanUpdated?
    ensures var t := TurnStage(s, id, turn, body);
            TurnKey(id, turn) in t.stamps.turns && t.stamps.turns[TurnKey(id, turn)] >= s.sequence + 1
  {
    hide RetainPlans, TouchLive, MarkDirty, DropTurnItems;
    var touched := TouchStage(s, id, turn, body);
    RetainKeepsStamp(touched, id, Some(s.sequence + 1), TurnKey(id, turn));
    RetainKeepsStamp(Settle(touched, id, turn), id, Some(s.sequence + 1), TurnKey(id, turn));
  }

  lemma {:induction false} LegacyStamped(s: Model, id: Name, body: Body)
    requires LegacyProjection(s, id, body).Some? && !ClosedStream(s, id, body)
    ensures var t := LegacyProjection(s, id, body).value;
            var key := TurnKey(id, TurnOf(body).value);
            key in t.stamps.turns && t.stamps.turns[key] >= s.sequence + 1
  {
    hide RetainPlans, StreamedItems, DeliverAll, MarkDirty, DropTurnItems, CopyMetadata;
    if id in s.cache.threads && body.TurnCompleted? {
      RetainKeepsStamp(LegacyClosed(s, id, body.turnValue), id, Some(s.sequence + 1), TurnKey(id, body.turnValue.id));
    }
  }

  /**
    Every turn or item event of an attached thread marks its turn as newer than any snapshot
    requested so far, except on a legacy stream the archive has closed.
  */
  lemma {:induction false} TurnEventsAreNewer(s: Model, m: Message, scope: Scope, id: Name, after: nat)
    requires Notice(s, m, id) && TurnEvent(m.body) && !ClosedStream(s, id, m.body) && after <= s.sequence
    ensures Newer(Reduce(s, m, scope).stamps.turns, TurnKey(id, TurnOf(m.body).value), after)
  {
    hide Reduce, StampStage, LegacyProjection, ContentStage, TurnStage, DeliverAll, ClosedStream;
    NoticeProjects(s, m, scope, id);
    var t := StampStage(s, m, Some(id));
    StampPrepares(s, m, Some(id));
    StampClosed(s, m, id);
    if LegacyProjection(t, id, m.body).Some? {
      LegacyStamped(t, id, m.body);
    } else {
      ContentPrepares(t, id, m.body);
      TurnStamped(ContentStage(t, id, m.body), id, TurnOf(m.body).value, m.body);
    }
  }

  /** Settings in scope replace the cached ones, carry their directory, and are newer than earlier reads. */
  lemma {:induction false} SettingsApplied(s: Model, m: Message, scope: Scope, id: Name)
    requires Notice(s, m, id) && m.body.SettingsUpdated? && (s.restricted ==> Permits(scope, m.body.settings.cwd))
    ensures var t := Reduce(s, m, scope);
            && t.cache.settings == s.cache.settings[id := m.body.settings]
            && (id in s.cache.threads ==> t.cache.threads == s.cache.threads[id := s.cache.threads[id].(cwd := m.body.settings.cwd)])
            && t.stamps == s.stamps.(settings := s.stamps.settings[id := t.sequence]) && t.sequence == s.sequence + 1
            && t.control == s.control && t.streams == s.streams && t.fences == s.fences
  {
    hide Reduce, DeliverAll;
    NoticeProjects(s, m, scope, id);
  }

  lemma {:induction false} StatusApplied(s: Model, m: Message, scope: Scope, id: Name)
    requires Notice(s, m, id) && m.body.StatusChanged?
    ensures var t := Reduce(s, m, scope);
            && t.stamps == s.stamps.(status := s.stamps.status[id := t.sequence]) && t.sequence == s.sequence + 1
            && (id in s.cache.threads ==> t.cache.threads == s.cache.threads[id := s.cache.threads[id].(status := m.body.status)])
            && t.cache.settings == s.cache.settings && t.control == s.control && t.streams == s.streams && t.fences == s.fences
  {
    hide Reduce, DeliverAll;
    NoticeProjects(s, m, scope, id);
  }

  /** A queue event changes nothing but the queue's watermark, which restarts reads in flight. */
  lemma {:induction false} QueueEventStamps(s: Model, m: Message, scope: Scope, id: Name)
    requires Notice(s, m, id) && m.body.QueueChanged?
    ensures var t := Reduce(s, m, scope);
            && t.stamps == s.stamps.(queue := s.stamps.queue[id := t.sequence]) && t.sequence == s.sequence + 1
            && t.control == s.control && t.streams == s.streams && t.fences == s.fences && t.cache.settings == s.cache.settings
  {
    hide Reduce, DeliverAll;
    NoticeProjects(s, m, scope, id);
  }

  // ---------------------------------------------------------------------------------------
  // Requests.

  /** A resolution removes exactly the request it names. */
  lemma {:induction false} ResolutionRemoves(s: Model, m: Message, scope: Scope)
    requires m.body.RequestResolved? && m.id.None? && m.body.resolved in s.control.pending
    requires m.thread.Some? ==> m.thread.value in s.control.subscribed
    ensures var t := Reduce(s, m, scope);
            t.control == s.control.(pending := s.control.pending - {m.body.resolved}) && t.sequence == s.sequence + 1
  {
    hide DeliverAll, Permits;
  }

  /** A request of an attached thread outside the archive becomes pending, as sent, with its own token. */
  lemma {:induction false} RequestsArePending(s: Model, m: Message, scope: Scope, id: Name, key: Name)
    requires Ided(s.control.pending) && m.thread == Some(id) && m.id == Some(key) && id in s.control.subscribed
    requires m.body.ServerRequest? && (id in s.control.archived ==> id in s.control.resumes)
    ensures var t := Reduce(s, m, scope);
            && key in t.control.pending && t.control.pending[key].thread == m.thread && t.control.pending[key].body == m.body
            && (Replays(s, m) ==> t.control.pending == s.control.pending)
            && (!Replays(s, m) ==> t.control.pending == s.control.pending[key := NewRequest(s, m)] && t.sequence == s.sequence + 1)
  {
    hide DeliverAll, Permits, Replays, Ided;
    RequestStored(s, m);
    ReplayedRequest(s, m);
  }

  lemma {:induction false} ReplayedRequest(s: Model, m: Message)
    ensures Replays(s, m) ==>
            && s.control.pending[m.id.value].thread == m.thread && s.control.pending[m.id.value].body == m.body
  {
  }

  // ---------------------------------------------------------------------------------------
  // Content.

  lemma {:induction false} UpsertTurnLookup(turns: seq<Turn>, turn: Turn, id: Name)
    ensures Turned(UpsertTurn(turns, turn), id)
            == if id != turn.id then Turned(turns, id)
               else if turn.items == [] && Turned(turns, id).Some? then Some(turn.(items := Turned(turns, id).value.items))
               else Some(turn)
  {
    var k := FindTurn(turns, turn.id);
    if k < |turns| {
      ReplacedTurn(turns, k, if turn.items == [] then turn.(items := turns[k].items) else turn, id);
    } else {
      AppendedTurn(turns, turn, id);
    }
  }

  lemma {:induction false} InTurnLookup(turns: seq<Turn>, body: Body, id: Name)
    requires ItemOf(body).Some? && TurnOf(body).Some?
    ensures var found := Turned(turns, id);
            Turned(UpdateInTurn(turns, body), id)
            == if found.Some? && TurnOf(body) == Some(id) then Some(found.value.(items := UpdateItems(found.value.items, body)))
               else found
  {
    hide UpdateItems;
    var k := FindTurn(turns, TurnOf(body).value);
    if k < |turns| {
      ReplacedTurn(turns, k, turns[k].(items := UpdateItems(turns[k].items, body)), id);
    }
  }

  lemma {:induction false} OrdinaryContent(s: Model, m: Message, scope: Scope, id: Name)
    requires Notice(s, m, id) && TurnEvent(m.body)
    requires id in s.cache.threads && !s.cache.threads[id].legacy
    ensures var t := Reduce(s, m, scope);
            && t.cache.threads == s.cache.threads[id := s.cache.threads[id].(turns := UpdateTurns(s.cache.threads[id].turns, m.body))]
            && t.sequence == s.sequence + 1
  {
    hide Reduce, UpdateTurns, DeliverAll, TurnStage, DropToolCalls;
    NoticeProjects(s, m, scope, id);
    var t := StampStage(s, m, Some(id));
    NotLegacy(t, id, m.body);
    var u := ContentStage(t, id, m.body);
    TurnCache(u, id, TurnOf(m.body).value, m.body);
    TurnPrepares(u, id, TurnOf(m.body).value, m.body);
  }

  lemma {:induction false} TurnCache(s: Model, id: Name, turn: Name, body: Body)
    ensures TurnStage(s, id, turn, body).cache == s.cache
  {
    hide RetainPlans, TouchLive, DropTurnItems, MarkDirty;
    forall v: Model, after: Option<nat> ensures RetainPlans(v, id, after).cache == v.cache {
      RetainPrepares(v, id, after);
    }
  }

  /**
    An item event of a non-legacy thread stores exactly that item in its turn; every other item of
    the turn, every other turn and every other thread stay as they were.
  */
  lemma {:induction false} ItemEventApplies(s: Model, m: Message, scope: Scope, id: Name, turn: Name, item: Name)
    requires Notice(s, m, id) && (m.body.ItemStarted? || m.body.ItemCompleted?) && m.body.turn != NO_NAME
    requires id in s.cache.threads && !s.cache.threads[id].legacy
    ensures var (before, after) := (Turned(s.cache.threads[id].turns, turn), Turned(Reduce(s, m, scope).cache.threads[id].turns, turn));
            && (after.Some? <==> before.Some?)
            && (before.Some? ==>
                  after.value == before.value.(items := after.value.items)
                  && Itemed(after.value.items, item)
                     == if m.body.turn == turn && m.body.item.id == item then Some(m.body.item) else Itemed(before.value.items, item))
    ensures forall other :: other in s.cache.threads && other != id ==>
              other in Reduce(s, m, scope).cache.threads && Reduce(s, m, scope).cache.threads[other] == s.cache.threads[other]
  {
    hide Reduce, Turned, Itemed;
    OrdinaryContent(s, m, scope, id);
    InTurnLookup(s.cache.threads[id].turns, m.body, turn);
    if Turned(s.cache.threads[id].turns, turn).Some? {
      UpsertItemLookup(Turned(s.cache.threads[id].turns, turn).value.items, m.body.item, item);
    }
  }

  /** A turn event stores the turn it carries; an empty list of items keeps the cached ones. */
  lemma {:induction false} TurnEventApplies(s: Model, m: Message, scope: Scope, id: Name, turn: Name)
    requires Notice(s, m, id) && (m.body.TurnStarted? || m.body.TurnCompleted?) && m.body.turnValue.id != NO_NAME
    requires id in s.cache.threads && !s.cache.threads[id].legacy
    ensures var (before, after) := (Turned(s.cache.threads[id].turns, turn), Turned(Reduce(s, m, scope).cache.threads[id].turns, turn));
            var event := m.body.turnValue;
            after == if turn != event.id then before
                     else if event.items == [] && before.Some? then Some(event.(items := before.value.items))
                     else Some(event)
  {
    hide Reduce, Turned;
    OrdinaryContent(s, m, scope, id);
    UpsertTurnLookup(s.cache.threads[id].turns, m.body.turnValue, turn);
  }

  // ---------------------------------------------------------------------------------------
  // Archive and scope.

  /** Archiving an attached thread takes its controls and its streams, and no other thread's. */
  lemma {:induction false} ArchiveCloses(s: Model, m: Message, scope: Scope, id: Name)
    requires Notice(s, m, id) && m.body.ThreadArchived?
    ensures var t := Reduce(s, m, scope);
            && t.control.archived == s.control.archived + {id} && t.control.subscribed == s.control.subscribed
            && (forall k :: k in t.control.pending <==> k in s.control.pending && s.control.pending[k].thread != Some(id))
            && (forall k :: k in t.control.pending ==> t.control.pending[k] == s.control.pending[k])
            && (forall k :: k in t.streams.provisional <==> k in s.streams.provisional && k.thread != id)
            && t.stamps.archive == s.sequence + 1 && t.sequence == s.sequence + 1
            && t.cache.settings == s.cache.settings && t.streams.live == s.streams.live
  {
    hide DeliverAll, Permits, UpdateTurns;
  }

  /** Closing a thread leaves nothing of it but its closed marks, and nothing of another thread is lost. */
  lemma {:induction false} ForgettingErases(s: Model, thread: Name)
    ensures var t := ForgetOutsideScope(s, thread);
            && thread !in t.cache.threads && thread !in t.cache.settings && thread !in t.control.subscribed
            && thread !in t.control.archived && thread !in t.control.resumes
            && (forall k :: k in t.control.pending <==> k in s.control.pending && s.control.pending[k].thread != Some(thread))
            && (forall k :: k in t.streams.live <==> k in s.streams.live && k.thread != thread)
            && (forall k :: k in t.streams.provisional <==> k in s.streams.provisional && k.thread != thread)
            && (forall k :: k in t.streams.plans <==> k in s.streams.plans && k.thread != thread)
            && thread !in t.streams.pendingPlans
            && t.fences.scope == s.fences.scope[thread := t.sequence] && t.fences.change == s.fences.change[thread := t.sequence]
            && (forall other :: other in s.cache.threads && other != thread ==>
                  other in t.cache.threads && t.cache.threads[other] == s.cache.threads[other])
            && t.sequence == s.sequence + 1
  {
    hide DeliverAll;
  }

  /**
    A message of a thread that is not attached, cached or not: nothing at all, one event without
    content, or for a change of the archive what fences a cached thread and silences it.
  */
  lemma {:induction false} UnattachedIsIgnored(s: Model, m: Message, scope: Scope, id: Name)
    requires ThreadOf(m) == Some(id) && id !in s.control.subscribed
    ensures var t := Reduce(s, m, scope);
            var archive := m.body.ThreadArchived? || m.body.ThreadUnarchived?;
            && t.cache == s.cache && t.control.subscribed == s.control.subscribed && t.streams.live == s.streams.live
            && (!archive ==> t == if m.body.ThreadStarted? then Emit(s) else s)
            && (archive ==>
                  && t.sequence == s.sequence + 1 && t.stamps == s.stamps.(archive := s.sequence + 1)
                  && (id !in s.cache.threads ==> t.control == s.control && t.streams == s.streams && t.fences == s.fences)
                  && (id in s.cache.threads ==> Fence(t.fences, id) >= t.sequence)
                  && (m.body.ThreadUnarchived? ==> t.control == s.control && t.streams == s.streams)
                  && (m.body.ThreadArchived? && id in s.cache.threads ==>
                        && t.control.archived == s.control.archived + {id} && t.control.resumes == s.control.resumes
                        && (forall k :: k in t.control.pending <==>
                              k in s.control.pending && s.control.pending[k].thread != Some(id))
                        && (forall k :: k in t.streams.provisional <==> k in s.streams.provisional && k.thread != id)))
  {
    hide DeliverAll, ReduceAttached;
  }

  // ---------------------------------------------------------------------------------------
  // Resume counts.

  /** Finishing a resume undoes beginning it; an outer resume of the thread keeps its count. */
  lemma {:induction false} FinishUndoesBegin(s: Model, thread: Name)
    requires Counted(s.control)
    ensures FinishResume(BeginResume(s, thread), thread).control.resumes == s.control.resumes
    ensures BeginResume(s, thread).control.archived == s.control.archived
    ensures thread in s.control.archived && thread !in s.control.resumes ==>
              forall k :: k in FinishResume(BeginResume(s, thread), thread).control.pending ==>
                k in s.control.pending && s.control.pending[k].thread != Some(thread)
  {
    assert thread !in s.control.resumes ==> s.control.resumes - {thread} == s.control.resumes;
  }

  // ---------------------------------------------------------------------------------------
  // Plans.

  /** A history confirms the plans it knows the turns of, keeps the newer ones and drops the rest. */
  lemma {:induction false} PlansFollowHistory(s: Model, thread: Name, after: nat, key: TurnKey)
    requires OneGeneration(s)
    ensures var t := RetainPlans(s, thread, Some(after));
            var waiting := s.streams.pendingPlans;
            && (thread in t.streams.pendingPlans ==> !KnowsTurn(s, thread, t.streams.pendingPlans[thread].turn))
            && (thread in waiting && KnowsTurn(s, thread, waiting[thread].turn) ==>
                  var promoted := TurnKey(thread, waiting[thread].turn);
                  promoted in t.streams.plans && t.streams.plans[promoted] == waiting[thread]
                  && Newer(t.stamps.turns, promoted, after) == (Newer(s.stamps.turns, promoted, after) || waiting[thread].sequence > after))
            && (key in t.streams.plans && key.thread == thread ==>
                  KnowsTurn(s, thread, key.turn) || t.streams.plans[key].sequence > after)
            && (key in s.streams.plans && (key.thread != thread || KnowsTurn(s, thread, key.turn) || s.streams.plans[key].sequence > after)
                ==> key in t.streams.plans)
  {
    hide KnowsTurn;
  }

  // ---------------------------------------------------------------------------------------
  // Legacy histories.

  /** The history has grown since it was last read (`snapshot`, "legacyHistoryDirty"). */
  predicate Dirty(s: Model, id: Name) {
    && id !in s.control.archived && id in s.cache.threads && s.cache.threads[id].legacy
    && id in s.legacy.dirty && s.legacy.dirty[id] > if id in s.legacy.read then s.legacy.read[id] else 0
  }

  /** A delta extends its provisional stream, which keeps its place, and no other. */
  lemma {:induction false} LegacyDeltaAppends(s: Model, m: Message, scope: Scope, id: Name, key: ItemKey)
    requires Notice(s, m, id) && m.body.Delta? && m.body.kind.AgentText? && m.body.turn != NO_NAME && m.body.itemId != NO_NAME
    requires id !in s.control.archived && (id in s.cache.threads ==> s.cache.threads[id].legacy)
    ensures var (before, after) := (s.streams.provisional, Reduce(s, m, scope).streams.provisional);
            var own := ItemKey(id, m.body.turn, m.body.itemId);
            && (key != own ==> (key in after <==> key in before) && (key in before ==> after[key] == before[key]))
            && own in after && after[own].epoch == NativeEpoch(s)
            && (own in before ==> after[own].item == before[own].item.(text := before[own].item.text + m.body.delta)
                                  && after[own].sequence == before[own].sequence)
            && (own !in before ==> after[own].item.text == m.body.delta && after[own].sequence == s.sequence + 1)
  {
    hide Reduce, DeliverAll;
    NoticeProjects(s, m, scope, id);
    assert "" + m.body.delta == m.body.delta;
  }

  /** A completion makes the history dirty; only a read begun after it makes it clean again. */
  lemma {:induction false} DirtyUntilRead(s: Model, m: Message, scope: Scope, id: Name, result: Snapshot, after: nat,
                                          later: Scope)
    requires Notice(s, m, id) && m.body.ItemCompleted? && AliasKind(m.body.item.kind)
    requires m.body.turn != NO_NAME && m.body.item.id != NO_NAME
    requires id !in s.control.archived && id in s.cache.threads && s.cache.threads[id].legacy
    requires id in s.legacy.read ==> s.legacy.read[id] <= s.sequence
    requires result.thread.Some? && result.thread.value.id == id && result.thread.value.legacy
    ensures Dirty(Reduce(s, m, scope), id)
    ensures Accepted(Reduce(s, m, scope), result, after, later) ==>
              (Dirty(Remember(Reduce(s, m, scope), result, Some(after), later), id) <==> after < Reduce(s, m, scope).sequence)
  {
    hide Reduce, DeliverAll, Remember, Accepted;
    NoticeProjects(s, m, scope, id);
    var t := Reduce(s, m, scope);
    assert t.legacy.dirty[id] == s.sequence + 1 && t.sequence == s.sequence + 1;
    ReadLegacy(t, result, after, later);
  }

  lemma {:induction false} ReadLegacy(s: Model, result: Snapshot, after: nat, scope: Scope)
    requires result.thread.Some? && result.thread.value.legacy
    ensures var (t, id) := (Remember(s, result, Some(after), scope), result.thread.value.id);
            Accepted(s, result, after, scope) ==>
              t.legacy == s.legacy.(read := s.legacy.read[id := after]) && id !in t.control.archived
              && id in t.cache.threads && t.cache.threads[id].legacy
  {
    hide MergedTurns, RetainPlans, RetainedLive, RetainedProvisional, Invalidated, Permits, ForgetOutsideScope;
    var id := result.thread.value.id;
    RetainPrepares(Absorb(s, result, Some(after)), id, Some(after));
    RetainLegacy(Absorb(s, result, Some(after)), id, Some(after));
  }

  lemma {:induction false} RetainLegacy(s: Model, thread: Name, after: Option<nat>)
    ensures RetainPlans(s, thread, after).legacy == s.legacy
  {
    hide RetainedPlans, KnowsTurn, Raise;
  }
}
