/**
  Stream refinement. While an agent message of a non-legacy thread is unfinished, its cached text
  is the text it had when it became live followed by its deltas in order, whatever other events
  and watermarked snapshots come in between.
*/
module ReducerStreams {
  import opened Wrappers
  import opened Reducer
  import opened ReducerRuns
  import opened ReducerGuarantees
  import opened ReducerMerge

  /** The turns show an open turn whose item has this text. */
  ghost predicate Shows(turns: seq<Turn>, turn: Name, item: Name, text: string) {
    && WellFormed(turns)
    && Turned(turns, turn).Some? && Turned(turns, turn).value.status.InProgress?
    && Itemed(Turned(turns, turn).value.items, item).Some?
    && Itemed(Turned(turns, turn).value.items, item).value.text == text
  }

  predicate OwnDelta(body: Body, turn: Name, item: Name) {
    body.Delta? && body.kind.AgentText? && body.turn == turn && body.itemId == item
  }

  /** Events of other items, of other turns, and of the thread as a whole. */
  ghost predicate Elsewhere(body: Body, turn: Name, item: Name) {
    match body
    case TurnStarted(other) => other.id != turn && NoRepeats(ItemIds(other.items))
    case TurnCompleted(other) => other.id != turn && NoRepeats(ItemIds(other.items))
    case _ => TurnOf(body) != Some(turn) || ItemOf(body) != Some(item)
  }

  // ---------------------------------------------------------------------------------------
  // The ordinary projection.

  lemma {:induction false} UpsertItemLookup(items: seq<Item>, item: Item, id: Name)
    ensures Itemed(UpsertItem(items, item), id) == if id == item.id then Some(item) else Itemed(items, id)
    ensures NoRepeats(ItemIds(items)) ==> NoRepeats(ItemIds(UpsertItem(items, item)))
  {
    hide NoRepeats;
    var k := FindItem(items, item.id);
    if k < |items| {
      ReplacedItem(items, k, item, id);
      assert ItemIds(items[k := item]) == ItemIds(items);
    } else {
      AppendedItem(items, item, id);
      assert ItemIds(items + [item]) == ItemIds(items) + [item.id];
      RepeatsOf(ItemIds(items), item.id);
    }
  }

  lemma {:induction false} AppliedDelta(item: Item, body: Body)
    ensures ApplyDelta(item, body).id == item.id
    ensures body.Delta? && body.kind.AgentText? ==> ApplyDelta(item, body).text == item.text + body.delta
  {
  }

  lemma {:induction false} UpdateItemsLookup(items: seq<Item>, body: Body, id: Name)
    requires NoRepeats(ItemIds(items))
    ensures NoRepeats(ItemIds(UpdateItems(items, body)))
    ensures ItemOf(body) != Some(id) ==> Itemed(UpdateItems(items, body), id) == Itemed(items, id)
    ensures body.Delta? && ItemOf(body) == Some(id) ==>
            Itemed(UpdateItems(items, body), id)
            == if Itemed(items, id).None? then None else Some(ApplyDelta(Itemed(items, id).value, body))
  {
    hide NoRepeats, ApplyDelta;
    if body.ItemStarted? || body.ItemCompleted? {
      UpsertItemLookup(items, body.item, id);
    } else if ItemOf(body).Some? {
      var k := FindItem(items, ItemOf(body).value);
      if k < |items| {
        AppliedDelta(items[k], body);
        ReplacedItem(items, k, ApplyDelta(items[k], body), id);
        assert ItemIds(items[k := ApplyDelta(items[k], body)]) == ItemIds(items);
      }
    }
  }

  /** Replacing a turn in place. */
  lemma {:induction false} ReplacedShows(turns: seq<Turn>, k: nat, changed: Turn, turn: Name, item: Name,
                                         text: string, text': string)
    requires Shows(turns, turn, item, text)
    requires k < |turns| && k == FindTurn(turns, turns[k].id)
    requires changed.id == turns[k].id && NoRepeats(ItemIds(changed.items))
    requires turns[k].id == turn ==>
             changed.status.InProgress? && Itemed(changed.items, item).Some? && Itemed(changed.items, item).value.text == text'
    requires turns[k].id != turn ==> text' == text
    ensures Shows(turns[k := changed], turn, item, text')
  {
    hide NoRepeats, Itemed;
    ReplacedTurn(turns, k, changed, turn);
    assert TurnIds(turns[k := changed]) == TurnIds(turns);
  }

  lemma {:induction false} AppendedShows(turns: seq<Turn>, added: Turn, turn: Name, item: Name, text: string)
    requires Shows(turns, turn, item, text)
    requires !HasTurn(turns, added.id) && NoRepeats(ItemIds(added.items))
    ensures Shows(turns + [added], turn, item, text)
  {
    hide NoRepeats, Itemed;
    AppendedTurn(turns, added, turn);
    assert TurnIds(turns + [added]) == TurnIds(turns) + [added.id];
    HasTurnIn(turns, added.id);
    RepeatsOf(TurnIds(turns), added.id);
  }

  lemma {:induction false} UpsertShows(turns: seq<Turn>, added: Turn, turn: Name, item: Name, text: string)
    requires Shows(turns, turn, item, text) && added.id != turn && NoRepeats(ItemIds(added.items))
    ensures Shows(UpsertTurn(turns, added), turn, item, text)
  {
    hide Shows, NoRepeats;
    var k := FindTurn(turns, added.id);
    ShownItems(turns, turn, item, text);
    if k < |turns| {
      ReplacedShows(turns, k, if added.items == [] then added.(items := turns[k].items) else added, turn, item, text, text);
    } else {
      AppendedShows(turns, added, turn, item, text);
    }
  }

  lemma {:induction false} ShownItems(turns: seq<Turn>, turn: Name, item: Name, text: string)
    requires Shows(turns, turn, item, text)
    ensures forall k :: 0 <= k < |turns| ==> NoRepeats(ItemIds(turns[k].items))
    ensures forall k :: 0 <= k < |turns| && turns[k].id == turn && k == FindTurn(turns, turn) ==>
      turns[k].status.InProgress? && Itemed(turns[k].items, item).Some? && Itemed(turns[k].items, item).value.text == text
  {
  }

  lemma {:induction false} InTurnShows(turns: seq<Turn>, body: Body, turn: Name, item: Name, text: string)
    requires Shows(turns, turn, item, text)
    requires OwnDelta(body, turn, item) || TurnOf(body) != Some(turn) || ItemOf(body) != Some(item)
    ensures Shows(UpdateInTurn(turns, body), turn, item, if OwnDelta(body, turn, item) then text + body.delta else text)
  {
    hide Shows, NoRepeats, UpdateItems, ApplyDelta;
    if ItemOf(body).Some? && TurnOf(body).Some? && FindTurn(turns, TurnOf(body).value) < |turns| {
      var k := FindTurn(turns, TurnOf(body).value);
      ShownItems(turns, turn, item, text);
      UpdateItemsLookup(turns[k].items, body, item);
      if OwnDelta(body, turn, item) {
        AppliedDelta(Itemed(turns[k].items, item).value, body);
      }
      ReplacedShows(turns, k, turns[k].(items := UpdateItems(turns[k].items, body)), turn, item, text,
                    if OwnDelta(body, turn, item) then text + body.delta else text);
    } else if OwnDelta(body, turn, item) {
      ShownTurn(turns, turn, item, text);
    }
  }

  lemma {:induction false} ShownTurn(turns: seq<Turn>, turn: Name, item: Name, text: string)
    requires Shows(turns, turn, item, text)
    ensures FindTurn(turns, turn) < |turns|
  {
  }

  lemma {:induction false} JoinShows(turns: seq<Turn>, other: Name, joined: Name, turn: Name, item: Name, text: string)
    requires Shows(turns, turn, item, text)
    ensures Shows(JoinLate(turns, other, joined), turn, item, text)
  {
    hide Shows, NoRepeats;
    ShownItems(turns, turn, item, text);
    ShownDistinct(turns, turn, item, text);
    var k := FindOpenTurn(turns, other);
    OpenTurnFound(turns, other);
    if k < |turns| && joined != NO_NAME && !HasItem(turns[k].items, joined) {
      var items := turns[k].items + [JoinedItem(joined, AgentMessage)];
      TurnFoundAt(turns, k);
      AppendedItem(turns[k].items, JoinedItem(joined, AgentMessage), item);
      assert ItemIds(items) == ItemIds(turns[k].items) + [joined];
      MergeItemIds(turns[k].items, JoinedItem(joined, AgentMessage), false);
      RepeatsOf(ItemIds(turns[k].items), joined);
      FirstOf(turns, k);
      ReplacedShows(turns, k, turns[k].(items := items), turn, item, text, text);
    }
  }

  lemma {:induction false} ShownDistinct(turns: seq<Turn>, turn: Name, item: Name, text: string)
    requires Shows(turns, turn, item, text)
    ensures NoRepeats(TurnIds(turns))
  {
  }

  lemma {:induction false} FirstOf(turns: seq<Turn>, k: nat)
    requires NoRepeats(TurnIds(turns)) && k < |turns|
    ensures FindTurn(turns, turns[k].id) == k
  {
    forall j | 0 <= j < k ensures turns[j].id != turns[k].id {
      assert TurnIds(turns)[j] != TurnIds(turns)[k];
    }
    FirstTurn(turns, turns[k].id, k);
  }

  lemma {:induction false} UpdateShows(turns: seq<Turn>, body: Body, turn: Name, item: Name, text: string)
    requires Shows(turns, turn, item, text)
    requires OwnDelta(body, turn, item) || Elsewhere(body, turn, item)
    ensures Shows(UpdateTurns(turns, body), turn, item, if OwnDelta(body, turn, item) then text + body.delta else text)
  {
    hide Shows, NoRepeats, UpdateInTurn, JoinLate, UpsertTurn;
    match body
    case TurnStarted(other) => UpsertShows(turns, other, turn, item, text);
    case TurnCompleted(other) => UpsertShows(turns, other, turn, item, text);
    case Delta(kind, other, joined, _) =>
      JoinShows(turns, other, joined, turn, item, text);
      InTurnShows(if kind.AgentText? then JoinLate(turns, other, joined) else turns, body, turn, item, text);
    case _ => InTurnShows(turns, body, turn, item, text);
  }

  // ---------------------------------------------------------------------------------------
  // The state.

  /** An unfinished agent message of an attached non-legacy thread, live on this connection. */
  ghost predicate Streaming(s: Model, key: ItemKey, text: string) {
    && key.thread in s.control.subscribed && key.thread in s.cache.threads && !s.cache.threads[key.thread].legacy
    && Shows(s.cache.threads[key.thread].turns, key.turn, key.item, text)
    && key in s.streams.live && s.streams.live[key] == LiveItem(NativeEpoch(s), false)
  }

  /** What a stage must leave alone for a stream to go on. */
  ghost predicate Carries(s: Model, t: Model, key: ItemKey) {
    && NativeEpoch(t) == NativeEpoch(s)
    && (key.thread in s.control.subscribed ==> key.thread in t.control.subscribed)
    && (key.thread in s.cache.threads ==>
          key.thread in t.cache.threads
          && t.cache.threads[key.thread].turns == s.cache.threads[key.thread].turns
          && t.cache.threads[key.thread].legacy == s.cache.threads[key.thread].legacy)
    && (key in s.streams.live ==> key in t.streams.live && t.streams.live[key] == s.streams.live[key])
  }

  lemma {:induction false} CarriedStream(s: Model, t: Model, key: ItemKey, text: string)
    requires Streaming(s, key, text) && Carries(s, t, key)
    ensures Streaming(t, key, text)
  {
    hide Shows;
  }

  lemma {:induction false} CarriesOn(s: Model, t: Model, u: Model, key: ItemKey)
    requires Carries(s, t, key) && Carries(t, u, key)
    ensures Carries(s, u, key)
  {
  }

  lemma {:induction false} EmitCarries(s: Model, key: ItemKey)
    ensures Carries(s, Emit(s), key) && Carries(s, s, key)
  {
    hide DeliverAll;
  }

  lemma {:induction false} EarlyCarries(s: Model, m: Message, scope: Scope, key: ItemKey)
    ensures Carries(s, ArchiveStage(s, m), key) && Carries(s, PlanStage(s, m, scope), key)
    ensures Carries(s, RequestStage(s, m), key)
  {
    hide DropPending, DropItems, PlanAdmitted, TokenFor, KnowsTurn;
  }

  lemma {:induction false} StampCarries(s: Model, m: Message, id: Option<Name>, key: ItemKey)
    requires m.body.ThreadStarted? ==> m.body.thread.id != key.thread
    ensures Carries(s, StampStage(s, m, id), key)
  {
    hide DropToolCalls;
  }

  lemma {:induction false} RetainCarries(s: Model, thread: Name, after: Option<nat>, key: ItemKey)
    ensures Carries(s, RetainPlans(s, thread, after), key)
    ensures RetainPlans(s, thread, after).streams.live == s.streams.live
  {
    hide RetainedPlans, Confirms, StillWaiting, Raise;
  }

  lemma {:induction false} ForgetCarries(s: Model, thread: Name, key: ItemKey)
    requires thread != key.thread
    ensures Carries(s, ForgetOutsideScope(s, thread), key)
  {
    hide DropPending, DropTurns, DeliverAll;
  }

  lemma {:induction false} TouchCarries(s: Model, id: Name, turn: Name, body: Body, key: ItemKey)
    requires TurnOf(body) == Some(turn)
    requires id != key.thread || Elsewhere(body, key.turn, key.item)
    ensures Carries(s, TouchStage(s, id, turn, body), key)
  {
    hide NoRepeats;
  }

  lemma {:induction false} SettleCarries(s: Model, id: Name, turn: Name, key: ItemKey)
    requires id != key.thread || turn != key.turn
    ensures Carries(s, Settle(s, id, turn), key)
  {
    hide MarkDirty;
  }

  /** Events of other threads, or of other items and turns of the thread, leave the live entry. */
  lemma {:induction false} TurnCarries(s: Model, id: Name, turn: Name, body: Body, key: ItemKey)
    requires TurnOf(body) == Some(turn)
    requires id != key.thread || Elsewhere(body, key.turn, key.item)
    ensures Carries(s, TurnStage(s, id, turn, body), key)
  {
    hide RetainPlans, NoRepeats, TouchStage, Settle, Carries;
    var touched := TouchStage(s, id, turn, body);
    TouchCarries(s, id, turn, body, key);
    RetainCarries(touched, id, Some(s.sequence + 1), key);
    CarriesOn(s, touched, RetainPlans(touched, id, Some(s.sequence + 1)), key);
    if body.TurnCompleted? {
      var settled := Settle(touched, id, turn);
      SettleCarries(touched, id, turn, key);
      RetainCarries(settled, id, Some(s.sequence + 1), key);
      CarriesOn(s, touched, settled, key);
      CarriesOn(s, settled, RetainPlans(settled, id, Some(s.sequence + 1)), key);
    }
  }

  lemma {:induction false} OwnTurnStage(s: Model, id: Name, turn: Name, body: Body, key: ItemKey)
    requires OwnDelta(body, turn, key.item) && id == key.thread && turn == key.turn
    requires key in s.streams.live && s.streams.live[key] == LiveItem(NativeEpoch(s), false)
    ensures Carries(s, TurnStage(s, id, turn, body), key)
  {
    hide RetainPlans, MarkDirty;
  }

  lemma {:induction false} LegacyCarries(s: Model, id: Name, body: Body, key: ItemKey)
    requires id != key.thread && LegacyProjection(s, id, body).Some?
    ensures Carries(s, LegacyProjection(s, id, body).value, key)
  {
    hide RetainPlans, StreamItem, ShowsStream, DeliverAll, CopyMetadata, MarkDirty, FindTurn;
    if id in s.cache.threads && body.TurnCompleted? {
      var t := LegacyClosed(s, id, body.turnValue);
      RetainCarries(t, id, Some(s.sequence + 1), key);
      assert Carries(s, t, key);
      CarriesOn(s, t, RetainPlans(t, id, Some(s.sequence + 1)), key);
    }
  }

  lemma {:induction false} NotLegacy(s: Model, id: Name, body: Body)
    requires id in s.cache.threads && !s.cache.threads[id].legacy
    ensures LegacyProjection(s, id, body).None?
  {
  }

  lemma {:induction false} ContentElsewhere(s: Model, id: Name, body: Body, key: ItemKey)
    requires id != key.thread
    ensures Carries(s, ContentStage(s, id, body), key)
  {
    hide UpdateTurns;
  }

  lemma {:induction false} ContentStreams(s: Model, body: Body, key: ItemKey, text: string)
    requires Streaming(s, key, text)
    requires OwnDelta(body, key.turn, key.item) || Elsewhere(body, key.turn, key.item)
    ensures Streaming(ContentStage(s, key.thread, body), key,
                      if OwnDelta(body, key.turn, key.item) then text + body.delta else text)
  {
    hide UpdateTurns, Shows, Elsewhere;
    UpdateShows(s.cache.threads[key.thread].turns, body, key.turn, key.item, text);
  }

  /** A message of another thread that reaches the projection. */
  lemma {:induction false} ProjectElsewhere(s: Model, m: Message, id: Option<Name>, key: ItemKey)
    requires id != Some(key.thread) && (m.body.ThreadStarted? ==> m.body.thread.id != key.thread)
    ensures Carries(s, Project(s, m, id), key)
  {
    hide StampStage, LegacyProjection, ContentStage, TurnStage, Emit, Carries;
    var t := StampStage(s, m, id);
    StampCarries(s, m, id, key);
    EmitCarries(t, key);
    CarriesOn(s, t, Emit(t), key);
    if id.Some? {
      if LegacyProjection(t, id.value, m.body).Some? {
        LegacyCarries(t, id.value, m.body, key);
        CarriesOn(s, t, LegacyProjection(t, id.value, m.body).value, key);
      } else {
        var u := ContentStage(t, id.value, m.body);
        ContentElsewhere(t, id.value, m.body, key);
        CarriesOn(s, t, u, key);
        EmitCarries(u, key);
        CarriesOn(s, u, Emit(u), key);
        if TurnOf(m.body).Some? {
          var v := TurnStage(u, id.value, TurnOf(m.body).value, m.body);
          TurnCarries(u, id.value, TurnOf(m.body).value, m.body, key);
          CarriesOn(s, u, v, key);
          EmitCarries(v, key);
          CarriesOn(s, v, Emit(v), key);
        }
      }
    }
  }

  /** A message of the stream's own thread that reaches the projection. */
  lemma {:induction false} ProjectStreams(s: Model, m: Message, key: ItemKey, text: string)
    requires Streaming(s, key, text) && (m.body.ThreadStarted? ==> m.body.thread.id != key.thread)
    requires OwnDelta(m.body, key.turn, key.item) || Elsewhere(m.body, key.turn, key.item)
    ensures Streaming(Project(s, m, Some(key.thread)), key,
                      if OwnDelta(m.body, key.turn, key.item) then text + m.body.delta else text)
  {
    hide StampStage, LegacyProjection, ContentStage, TurnStage, Emit, Carries, Shows, Elsewhere;
    var text' := if OwnDelta(m.body, key.turn, key.item) then text + m.body.delta else text;
    var t := StampStage(s, m, Some(key.thread));
    StampCarries(s, m, Some(key.thread), key);
    CarriedStream(s, t, key, text);
    NotLegacy(t, key.thread, m.body);
    var u := ContentStage(t, key.thread, m.body);
    ContentStreams(t, m.body, key, text);
    var v := if TurnOf(m.body).Some? then TurnStage(u, key.thread, TurnOf(m.body).value, m.body) else u;
    if TurnOf(m.body).Some? {
      if OwnDelta(m.body, key.turn, key.item) {
        OwnTurnStage(u, key.thread, key.turn, m.body, key);
      } else {
        TurnCarries(u, key.thread, TurnOf(m.body).value, m.body, key);
      }
      CarriedStream(u, v, key, text');
    }
    EmitCarries(v, key);
    CarriedStream(v, Emit(v), key, text');
  }

  /** Messages a stream survives: those of other threads, and all but a few of its own. */
  ghost predicate Gentle(s: Model, m: Message, scope: Scope, key: ItemKey) {
    && (m.body.ThreadStarted? ==> m.body.thread.id != key.thread)
    && (ThreadOf(m) == Some(key.thread) ==>
          && (Elsewhere(m.body, key.turn, key.item) || (OwnDelta(m.body, key.turn, key.item) && m.id.None?))
          && (m.body.SettingsUpdated? && s.restricted ==> Permits(scope, m.body.settings.cwd)))
  }

  function DeltaOf(m: Message, key: ItemKey): string {
    if ThreadOf(m) == Some(key.thread) && OwnDelta(m.body, key.turn, key.item) then m.body.delta else ""
  }

  lemma {:induction false} OwnIsNotElsewhere(body: Body, turn: Name, item: Name)
    ensures !(OwnDelta(body, turn, item) && Elsewhere(body, turn, item))
  {
  }

  lemma {:induction false} AttachedStreams(s: Model, m: Message, scope: Scope, key: ItemKey, text: string)
    requires Streaming(s, key, text) && Gentle(s, m, scope, key)
    ensures Streaming(ReduceAttached(s, m, scope), key, text + DeltaOf(m, key))
  {
    hide PlanStage, PlanAdmitted, RequestStage, Project, ForgetOutsideScope, Shows, Elsewhere, Permits, Carries;
    var id := ThreadOf(m);
    var t := PlanStage(s, m, scope);
    var u := RequestStage(t, m);
    EarlyCarries(s, m, scope, key);
    EarlyCarries(t, m, scope, key);
    CarriedStream(s, t, key, text);
    CarriedStream(t, u, key, text);
    assert text + "" == text;
    OwnIsNotElsewhere(m.body, key.turn, key.item);
    if id == Some(key.thread) {
      ProjectStreams(u, m, key, text);
    } else {
      if id.Some? {
        ForgetCarries(t, id.value, key);
        CarriedStream(t, ForgetOutsideScope(t, id.value), key, text);
      }
      ProjectElsewhere(u, m, id, key);
      CarriedStream(u, Project(u, m, id), key, text);
    }
  }

  lemma {:induction false} ReduceStreams(s: Model, m: Message, scope: Scope, key: ItemKey, text: string)
    requires Streaming(s, key, text) && Gentle(s, m, scope, key)
    ensures Streaming(Reduce(s, m, scope), key, text + DeltaOf(m, key))
  {
    hide ArchiveStage, ReduceAttached, Emit, Shows, Elsewhere, Permits, Carries;
    var t := ArchiveStage(s, m);
    EarlyCarries(s, m, scope, key);
    SameRestriction(s, m);
    CarriedStream(s, t, key, text);
    EmitCarries(t, key);
    CarriedStream(t, Emit(t), key, text);
    assert text + "" == text;
    AttachedStreams(t, m, scope, key, text);
  }

  lemma {:induction false} SameRestriction(s: Model, m: Message)
    ensures ArchiveStage(s, m).restricted == s.restricted
  {
    hide DropPending, DropItems;
  }

  // ---------------------------------------------------------------------------------------
  // Snapshots and the other sections.

  /** A watermarked snapshot of the thread, in scope, that shows the turn in progress. */
  ghost predicate ShowsOpen(s: Model, result: Snapshot, after: Option<nat>, scope: Scope, key: ItemKey)
    requires result.thread.Some?
  {
    var thread := result.thread.value;
    && after.Some? && (s.restricted ==> Permits(scope, SnapshotCwd(result)))
    && !thread.legacy && WellFormed(thread.turns)
    && Turned(thread.turns, key.turn).Some? && Turned(thread.turns, key.turn).value.status.InProgress?
  }

  lemma {:induction false} LiveStays(s: Model, result: Snapshot, after: Option<nat>, scope: Scope, key: ItemKey)
    requires result.thread.Some? && key in s.streams.live && !s.streams.live[key].completed
    requires result.thread.value.id == key.thread ==> ShowsOpen(s, result, after, scope, key)
    ensures var t := AcceptSnapshot(s, result, after);
            && key in t.streams.live && t.streams.live[key] == s.streams.live[key]
            && NativeEpoch(t) == NativeEpoch(s)
            && t.control.subscribed == s.control.subscribed + {result.thread.value.id}
            && t.cache.threads == s.cache.threads[result.thread.value.id := MergedThread(s, result, after)]
  {
    hide RetainPlans, MergedThread, WellFormed, RetainedProvisional, HasItem, Permits;
    var t := Absorb(s, result, after);
    RetainCarries(t, result.thread.value.id, after, key);
    RetainPrepares(t, result.thread.value.id, after);
  }

  lemma {:induction false} MergeElsewhere(s: Model, result: Snapshot, after: Option<nat>, scope: Scope, key: ItemKey,
                                          text: string)
    requires Streaming(s, key, text)
    requires result.thread.None? || result.thread.value.id != key.thread
    ensures Streaming(Remember(s, result, after, scope), key, text)
  {
    hide AcceptSnapshot, ForgetOutsideScope, MergedThread, Shows, Invalidated, Permits;
    if result.thread.Some? {
      LiveStays(s, result, after, scope, key);
      ForgetCarries(s, result.thread.value.id, key);
      CarriedStream(s, ForgetOutsideScope(s, result.thread.value.id), key, text);
    }
  }

  lemma {:induction false} MergeStreams(s: Model, result: Snapshot, after: Option<nat>, scope: Scope, key: ItemKey,
                                        text: string)
    requires Streaming(s, key, text)
    requires result.thread.Some? && result.thread.value.id == key.thread && ShowsOpen(s, result, after, scope, key)
    ensures Streaming(Remember(s, result, after, scope), key, text)
  {
    hide AcceptSnapshot, Invalidated, Permits, NoRepeats, FindTurn, FindItem, MergedTurns, OpenTurnMerged, MergeNewer;
    if !Invalidated(s, key.thread, after.value) {
      LiveStays(s, result, after, scope, key);
      MergeKeepsWellFormed(s, result, after.value, scope);
      MergedTurnLookup(s, result, after.value, scope, key.turn);
      OpenTurnKeepsMetadata(Turned(result.thread.value.turns, key.turn).value, CacheOf(s, key.thread), key.thread,
                            s.streams.live, NativeEpoch(s), false);
      OpenItemsKept(s, result, after.value, scope, key.turn, key.item);
    }
  }

  lemma {:induction false} OthersCarry(s: Model, op: Op, key: ItemKey)
    requires !op.Native? && !op.Merge? && !op.Disable? && !Drops(s, op)
    requires op.MergeArchived? ==> op.history.id != key.thread
    requires op.Release? || op.FailedRecovery? ==> op.thread != key.thread
    ensures Carries(s, Apply(s, op), key)
  {
    hide ArchivedReadStale, RetainPlans, DeliverAll, DropPending, StableThreads;
    if op.MergeArchived? {
      forall t: Model ensures Carries(t, RetainPlans(t, op.history.id, Some(op.since)), key) {
        RetainCarries(t, op.history.id, Some(op.since), key);
      }
    }
  }

  // ---------------------------------------------------------------------------------------
  // Runs.

  /** The section leaves the stream alive: no disconnect, forgetting, archived reload or end of its turn. */
  ghost predicate Undisturbed(s: Model, op: Op, key: ItemKey) {
    match op
    case Native(message, scope) => Gentle(s, message, scope, key)
    case Merge(result, after, scope) =>
      result.thread.Some? && result.thread.value.id == key.thread ==> ShowsOpen(s, result, after, scope, key)
    case MergeArchived(history, _, _, _) => history.id != key.thread
    case Release(thread) => thread != key.thread
    case FailedRecovery(thread) => thread != key.thread
    case Disable => false
    case _ => !Drops(s, op)
  }

  ghost predicate AllUndisturbed(s: Model, ops: seq<Op>, key: ItemKey)
    decreases |ops|
  {
    ops == [] || (Undisturbed(s, ops[0], key) && AllUndisturbed(Apply(s, ops[0]), ops[1..], key))
  }

  /** Every delta of the item, in the order the sections received them. */
  function Deltas(ops: seq<Op>, key: ItemKey): string {
    if ops == [] then ""
    else (if ops[0].Native? then DeltaOf(ops[0].message, key) else "") + Deltas(ops[1..], key)
  }

  lemma {:induction false} ApplyStreams(s: Model, op: Op, key: ItemKey, text: string)
    requires Streaming(s, key, text) && Undisturbed(s, op, key)
    ensures Streaming(Apply(s, op), key, text + if op.Native? then DeltaOf(op.message, key) else "")
  {
    hide Reduce, Remember, Streaming, Gentle, ShowsOpen, Carries;
    assert text + "" == text;
    if op.Native? {
      ReduceStreams(s, op.message, op.scope, key, text);
    } else if op.Merge? {
      if op.result.thread.Some? && op.result.thread.value.id == key.thread {
        MergeStreams(s, op.result, op.after, op.scope, key, text);
      } else {
        MergeElsewhere(s, op.result, op.after, op.scope, key, text);
      }
    } else {
      OthersCarry(s, op, key);
      CarriedStream(s, Apply(s, op), key, text);
    }
  }

  /** The text of an unfinished agent message is its text when it became live and then its deltas. */
  lemma {:induction false} StreamRefinement(s: Model, ops: seq<Op>, key: ItemKey, text: string)
    requires Streaming(s, key, text) && AllUndisturbed(s, ops, key)
    ensures Streaming(Run(s, ops), key, text + Deltas(ops, key))
    decreases |ops|
  {
    hide Apply, Streaming, Undisturbed, DeltaOf;
    if ops == [] {
      assert text + "" == text;
    } else {
      var delta := if ops[0].Native? then DeltaOf(ops[0].message, key) else "";
      ApplyStreams(s, ops[0], key, text);
      StreamRefinement(Apply(s, ops[0]), ops[1..], key, text + delta);
      assert text + delta + Deltas(ops[1..], key) == text + (delta + Deltas(ops[1..], key));
    }
  }

  /** A thread ready to stream into an open turn. */
  ghost predicate Open(s: Model, thread: Name, turn: Name) {
    && thread in s.control.subscribed && thread in s.cache.threads && !s.cache.threads[thread].legacy
    && WellFormed(s.cache.threads[thread].turns)
    && Turned(s.cache.threads[thread].turns, turn).Some?
    && Turned(s.cache.threads[thread].turns, turn).value.status.InProgress?
  }

  lemma {:induction false} JoinedShows(turns: seq<Turn>, turn: Name, item: Name)
    requires WellFormed(turns) && Turned(turns, turn).Some? && Turned(turns, turn).value.status.InProgress?
    requires item != NO_NAME && Itemed(Turned(turns, turn).value.items, item).None?
    ensures Shows(JoinLate(turns, turn, item), turn, item, "")
  {
    hide NoRepeats;
    OpenTurnFound(turns, turn);
    var k := FindOpenTurn(turns, turn);
    FirstOf(turns, k);
    var own, joined := turns[k], JoinedItem(item, AgentMessage);
    AppendedItem(own.items, joined, item);
    MergeItemIds(own.items, joined, false);
    RepeatsOf(ItemIds(own.items), item);
    ReplacedTurn(turns, k, own.(items := own.items + [joined]), turn);
    assert TurnIds(turns[k := own.(items := own.items + [joined])]) == TurnIds(turns);
  }

  lemma {:induction false} StartedShows(turns: seq<Turn>, turn: Name, item: Item)
    requires WellFormed(turns) && Turned(turns, turn).Some? && Turned(turns, turn).value.status.InProgress?
    ensures Shows(UpdateInTurn(turns, ItemStarted(turn, item)), turn, item.id, item.text)
  {
    hide NoRepeats;
    var k := FindTurn(turns, turn);
    var changed := turns[k].(items := UpsertItem(turns[k].items, item));
    UpsertItemLookup(turns[k].items, item, item.id);
    ReplacedTurn(turns, k, changed, turn);
    assert TurnIds(turns[k := changed]) == TurnIds(turns);
  }

  /** The event that makes an agent message live: its start, or the first delta a late reader sees. */
  predicate Begins(turns: seq<Turn>, body: Body, turn: Name, item: Name) {
    || (body.ItemStarted? && body.turn == turn && body.item.id == item)
    || (OwnDelta(body, turn, item) && item != NO_NAME
        && Turned(turns, turn).Some? && Itemed(Turned(turns, turn).value.items, item).None?)
  }

  function FirstText(body: Body): string {
    if body.ItemStarted? then body.item.text else if body.Delta? then body.delta else ""
  }

  lemma {:induction false} BegunShows(turns: seq<Turn>, body: Body, turn: Name, item: Name)
    requires WellFormed(turns) && Turned(turns, turn).Some? && Turned(turns, turn).value.status.InProgress?
    requires Begins(turns, body, turn, item)
    ensures Shows(UpdateTurns(turns, body), turn, item, FirstText(body))
  {
    hide Shows, NoRepeats, JoinLate, UpdateInTurn, FindTurn, FindItem;
    if body.ItemStarted? {
      StartedShows(turns, turn, body.item);
    } else {
      JoinedShows(turns, turn, item);
      InTurnShows(JoinLate(turns, turn, item), body, turn, item, "");
      assert "" + body.delta == body.delta;
    }
  }

  /** How a stream comes to be. */
  lemma {:induction false} StreamBegins(s: Model, m: Message, scope: Scope, key: ItemKey)
    requires m.thread == Some(key.thread) && m.id.None? && Open(s, key.thread, key.turn)
    requires Begins(s.cache.threads[key.thread].turns, m.body, key.turn, key.item)
    requires key.item != NO_NAME
    requires m.body.Delta? ==> key !in s.streams.live
    ensures Streaming(Reduce(s, m, scope), key, FirstText(m.body))
  {
    hide UpdateTurns, Shows, WellFormed, DeliverAll, PlanAdmitted, Turned, Itemed;
    NotLegacy(s, key.thread, m.body);
    BegunShows(s.cache.threads[key.thread].turns, m.body, key.turn, key.item);
    assert StampStage(s, m, Some(key.thread)) == s;
    assert Reduce(s, m, scope) == Project(s, m, Some(key.thread));
  }
}
