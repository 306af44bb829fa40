/**
  What each native message does to what a thread shows, field by field: deltas and patches of a
  non-legacy thread, the provisional streams of a legacy one, the live marks, the plans, and what
  snapshots and archived reads leave of them.
*/
module ReducerContent {
  import opened Wrappers
  import opened Reducer
  import opened ReducerRuns
  import opened ReducerTokens
  import opened ReducerMerge
  import opened ReducerStreams
  import opened ReducerEvents

  // ---------------------------------------------------------------------------------------
  // Parts of a reasoning item.

  function PartAt(parts: seq<string>, k: nat): string {
    if k < |parts| then parts[k] else ""
  }

  /** `delta` at the end of part `index`, which exists from then on; an index above 4096 is ignored. */
  ghost predicate Extended(before: seq<string>, after: seq<string>, index: nat, delta: string) {
    if index > 4096 then after == before
    else
      && |after| == (if |before| > index then |before| else index + 1)
      && forall k :: 0 <= k < |after| ==> after[k] == PartAt(before, k) + if k == index then delta else ""
  }

  lemma {:induction false} PadExtends(parts: seq<string>, n: nat)
    ensures forall k :: 0 <= k < |Pad(parts, n)| ==> Pad(parts, n)[k] == PartAt(parts, k)
    decreases n - |parts|
  {
    if |parts| < n {
      PadExtends(parts + [""], n);
    }
  }

  /** A reasoning delta extends one part of the summary or of the content, and no other field. */
  ghost predicate Reasoned(before: Item, after: Item, part: PartKind, index: nat, delta: string) {
    if part.ContentText?
    then after == before.(content := after.content) && Extended(before.content, after.content, index, delta)
    else after == before.(summary := after.summary) && Extended(before.summary, after.summary, index, delta)
  }

  lemma {:induction false} ReasoningExtends(item: Item, part: PartKind, index: nat, delta: string)
    ensures Reasoned(item, AppendReasoning(item, part, index, delta), part, index, delta)
  {
    hide Pad;
    PadExtends(item.content, index + 1);
    PadExtends(item.summary, index + 1);
    if index > 4096 {
      assert AppendReasoning(item, part, index, delta) == item;
    }
  }

  // ---------------------------------------------------------------------------------------
  // Deltas and patches of a non-legacy thread.

  predicate Extends(body: Body) {
    body.Delta? || body.PatchUpdated? || body.ReasoningDelta?
  }

  /** What a delta or patch makes of the item it names. */
  ghost predicate Grown(body: Body, before: Item, after: Item)
    requires Extends(body)
  {
    match body
    case Delta(AgentText, _, _, delta) => after == before.(text := before.text + delta)
    case Delta(PlanText, _, _, delta) => after == before.(text := before.text + delta)
    case Delta(CommandOutput, _, _, delta) => after == before.(output := before.output + delta)
    case Delta(FileOutput, _, _, delta) => after == before.(output := before.output + delta)
    case PatchUpdated(_, _, changes) => after == before.(changes := changes)
    case ReasoningDelta(part, _, _, index, delta) => Reasoned(before, after, part, index, delta)
  }

  lemma {:induction false} DeltaGrows(item: Item, body: Body)
    requires Extends(body)
    ensures Grown(body, item, ApplyDelta(item, body)) && ApplyDelta(item, body).id == item.id
  {
    hide AppendReasoning, Extended;
    if body.ReasoningDelta? {
      ReasoningExtends(item, body.part, body.index, body.delta);
    }
  }

  lemma {:induction false} GrownItems(items: seq<Item>, body: Body, id: Name)
    requires Extends(body)
    ensures var (b, a) := (Itemed(items, id), Itemed(UpdateItems(items, body), id));
            && (a.Some? <==> b.Some?)
            && (b.Some? ==> if ItemOf(body) == Some(id) then Grown(body, b.value, a.value) else a == b)
  {
    hide ApplyDelta, Grown;
    var k := FindItem(items, ItemOf(body).value);
    if k < |items| {
      DeltaGrows(items[k], body);
      ReplacedItem(items, k, ApplyDelta(items[k], body), id);
    }
  }

  /** A late reader's first agent delta adds the item to the open turn it names. */
  lemma {:induction false} JoinLateLookup(turns: seq<Turn>, turn: Name, item: Name, id: Name)
    ensures var found := Turned(turns, id);
            Turned(JoinLate(turns, turn, item), id)
            == if id == turn && found.Some? && found.value.status.InProgress? && item != NO_NAME
                  && Itemed(found.value.items, item).None?
               then Some(found.value.(items := found.value.items + [JoinedItem(item, AgentMessage)]))
               else found
  {
    var k, first := FindOpenTurn(turns, turn), FindTurn(turns, turn);
    if first < |turns| && turns[first].status.InProgress? {
      assert k == first;
    }
    if k < |turns| && item != NO_NAME && !HasItem(turns[k].items, item) {
      ReplacedTurn(turns, k, turns[k].(items := turns[k].items + [JoinedItem(item, AgentMessage)]), id);
    }
  }

  /** What the events leave of an item that was not there. */
  predicate Joins(body: Body, turn: Turn, item: Name) {
    body.Delta? && body.kind.AgentText? && turn.status.InProgress? && body.itemId == item && item != NO_NAME
  }

  lemma {:induction false} GrownTurns(turns: seq<Turn>, body: Body, turn: Name, item: Name)
    requires Extends(body)
    ensures var (before, after) := (Turned(turns, turn), Turned(UpdateTurns(turns, body), turn));
            && (after.Some? <==> before.Some?)
            && (before.Some? && TurnOf(body) != Some(turn) ==> after == before)
            && (before.Some? && TurnOf(body) == Some(turn) ==>
                  after.value == before.value.(items := after.value.items)
                  && var (b, a) := (Itemed(before.value.items, item), Itemed(after.value.items, item));
                     if b.Some? then a.Some? && if ItemOf(body) == Some(item) then Grown(body, b.value, a.value) else a == b
                     else if Joins(body, before.value, item) then
                       a == Some(Item(item, AgentMessage, body.delta, "", "", [], [], true))
                     else a.None?)
  {
    hide UpdateInTurn, UpdateItems, JoinLate, Turned, Itemed, Grown;
    var joined := if body.Delta? && body.kind.AgentText? then JoinLate(turns, body.turn, body.itemId) else turns;
    if body.Delta? && body.kind.AgentText? {
      JoinLateLookup(turns, body.turn, body.itemId, turn);
      JoinedGrows(body);
    }
    InTurnLookup(joined, body, turn);
    if Turned(joined, turn).Some? {
      GrownItems(Turned(joined, turn).value.items, body, item);
    }
    if Turned(turns, turn).Some? {
      JoinedLookup(Turned(turns, turn).value.items, if body.Delta? then body.itemId else NO_NAME, item);
    }
  }

  lemma {:induction false} JoinedGrows(body: Body)
    requires body.Delta? && body.kind.AgentText?
    ensures forall a: Item :: Grown(body, JoinedItem(body.itemId, AgentMessage), a) ==>
              a == Item(body.itemId, AgentMessage, body.delta, "", "", [], [], true)
  {
    assert "" + body.delta == body.delta;
  }

  lemma {:induction false} JoinedLookup(items: seq<Item>, joined: Name, id: Name)
    ensures Itemed(items + [JoinedItem(joined, AgentMessage)], id)
            == if Itemed(items, id).Some? then Itemed(items, id)
               else if id == joined then Some(JoinedItem(joined, AgentMessage)) else None
  {
    AppendedItem(items, JoinedItem(joined, AgentMessage), id);
  }

  /**
    A delta or patch of a non-legacy thread changes exactly its own field of exactly the item it
    names: text and plan text grow the text, command and file output the output, a patch replaces
    the changes, a reasoning delta extends its part. Only an agent delta shows an item that was not
    there. Every other item of the turn, every other turn and every other thread stay.
  */
  lemma {:induction false} DeltasApply(s: Model, m: Message, scope: Scope, id: Name, turn: Name, item: Name)
    requires Notice(s, m, id) && Extends(m.body) && TurnOf(m.body) != Some(NO_NAME)
    requires id in s.cache.threads && !s.cache.threads[id].legacy
    ensures var t := Reduce(s, m, scope);
            && t.cache.threads.Keys == s.cache.threads.Keys && t.sequence == s.sequence + 1
            && (forall other :: other in s.cache.threads && other != id ==> t.cache.threads[other] == s.cache.threads[other])
            && t.cache.threads[id] == s.cache.threads[id].(turns := t.cache.threads[id].turns)
            && var (before, after) := (Turned(s.cache.threads[id].turns, turn), Turned(t.cache.threads[id].turns, turn));
               && (after.Some? <==> before.Some?)
               && (before.Some? && TurnOf(m.body) != Some(turn) ==> after == before)
               && (before.Some? && TurnOf(m.body) == Some(turn) ==>
                     after.value == before.value.(items := after.value.items)
                     && var (b, a) := (Itemed(before.value.items, item), Itemed(after.value.items, item));
                        if b.Some? then
                          a.Some? && if ItemOf(m.body) == Some(item) then Grown(m.body, b.value, a.value) else a == b
                        else if Joins(m.body, before.value, item) then
                          a == Some(Item(item, AgentMessage, m.body.delta, "", "", [], [], true))
                        else a.None?)
  {
    hide Reduce, Turned, Itemed, Grown, UpdateTurns;
    OrdinaryContent(s, m, scope, id);
    GrownTurns(s.cache.threads[id].turns, m.body, turn, item);
  }

  // ---------------------------------------------------------------------------------------
  // Live marks.

  /**
    An item event of a non-legacy thread marks its item live on the current connection: completed by
    its completion, open by its start, and otherwise as it was or open. No other mark changes.
  */
  lemma {:induction false} LiveFollowsEvents(s: Model, m: Message, scope: Scope, id: Name, key: ItemKey)
    requires Notice(s, m, id) && (Extends(m.body) || m.body.ItemStarted? || m.body.ItemCompleted?)
    requires TurnOf(m.body) != Some(NO_NAME) && id in s.cache.threads && !s.cache.threads[id].legacy
    ensures var (before, after) := (s.streams.live, Reduce(s, m, scope).streams.live);
            if key == ItemKey(id, TurnOf(m.body).value, ItemOf(m.body).value) then
              key in after
              && after[key] == LiveItem(NativeEpoch(s), m.body.ItemCompleted?
                                                        || (!m.body.ItemStarted? && key in before && before[key].completed))
            else (key in after <==> key in before) && (key in before ==> after[key] == before[key])
  {
    hide Reduce, UpdateTurns, DeliverAll, DropToolCalls;
    NoticeProjects(s, m, scope, id);
    NotLegacy(StampStage(s, m, Some(id)), id, m.body);
  }

  // ---------------------------------------------------------------------------------------
  // Legacy streams.

  /** A message that the legacy projection takes as a stream of one item. */
  predicate LegacyEvent(s: Model, m: Message, id: Name) {
    && Notice(s, m, id) && LegacyStream(m.body) && TurnOf(m.body) != Some(NO_NAME) && ItemOf(m.body) != Some(NO_NAME)
    && id !in s.control.archived && (id in s.cache.threads ==> s.cache.threads[id].legacy)
  }

  lemma {:induction false} LegacyStreams(s: Model, m: Message, scope: Scope, id: Name)
    requires LegacyEvent(s, m, id)
    ensures var own := ItemKey(id, TurnOf(m.body).value, ItemOf(m.body).value);
            && Reduce(s, m, scope).streams.provisional == StreamedItems(s, own, m.body)
            && Reduce(s, m, scope).cache == s.cache
  {
    hide Reduce, DeliverAll, StreamedItems;
    NoticeProjects(s, m, scope, id);
    assert !m.body.ItemCompleted? ==> StampStage(s, m, Some(id)) == s;
    if m.body.ItemCompleted? {
      CompletedStream(s, StampStage(s, m, Some(id)), ItemKey(id, m.body.turn, m.body.item.id), m.body);
    }
  }

  lemma {:induction false} CompletedStream(s: Model, t: Model, key: ItemKey, body: Body)
    requires LegacyStream(body) && body.ItemCompleted? && t.streams == s.streams
    ensures StreamedItems(t, key, body) == StreamedItems(s, key, body)
  {
  }

  /** Every other provisional stream is as it was. */
  predicate OthersStay(before: map<ItemKey, Provisional>, after: map<ItemKey, Provisional>, own: ItemKey, key: ItemKey) {
    key != own ==> (key in after <==> key in before) && (key in before ==> after[key] == before[key])
  }

  /** A reasoning delta extends one part of its provisional stream, which starts without any. */
  lemma {:induction false} LegacyReasoningExtends(s: Model, m: Message, scope: Scope, id: Name, key: ItemKey)
    requires LegacyEvent(s, m, id) && m.body.ReasoningDelta?
    ensures var (before, after) := (s.streams.provisional, Reduce(s, m, scope).streams.provisional);
            var own := ItemKey(id, m.body.turn, m.body.itemId);
            var was := if own in before then before[own].item
                       else Item(m.body.itemId, Reasoning, "", "", "", [], [], true);
            && OthersStay(before, after, own, key)
            && own in after && after[own].epoch == NativeEpoch(s)
            && after[own].sequence == (if own in before then before[own].sequence else s.sequence + 1)
            && Reasoned(was, after[own].item, m.body.part, m.body.index, m.body.delta)
  {
    hide Reduce, AppendReasoning, Reasoned;
    LegacyStreams(s, m, scope, id);
    var own := ItemKey(id, m.body.turn, m.body.itemId);
    var before := s.streams.provisional;
    ReasoningExtends(if own in before then before[own].item else JoinedItem(m.body.itemId, Reasoning),
                     m.body.part, m.body.index, m.body.delta);
  }

  /** A start shows its item if it is an agent message or reasoning; a completion takes its stream away. */
  lemma {:induction false} LegacyLifecycle(s: Model, m: Message, scope: Scope, id: Name, key: ItemKey)
    requires LegacyEvent(s, m, id) && (m.body.ItemStarted? || m.body.ItemCompleted?)
    ensures var (before, after) := (s.streams.provisional, Reduce(s, m, scope).streams.provisional);
            var own := ItemKey(id, m.body.turn, m.body.item.id);
            && OthersStay(before, after, own, key)
            && (m.body.ItemCompleted? ==> own !in after)
            && (m.body.ItemStarted? && (m.body.item.kind.AgentMessage? || m.body.item.kind.Reasoning?) ==>
                  own in after && after[own].item == m.body.item && after[own].epoch == NativeEpoch(s)
                  && after[own].sequence == (if own in before then before[own].sequence else s.sequence + 1))
            && (m.body.ItemStarted? && !(m.body.item.kind.AgentMessage? || m.body.item.kind.Reasoning?) ==>
                  after == before)
  {
    hide Reduce, AppendReasoning;
    LegacyStreams(s, m, scope, id);
  }

  /**
    A completed turn of a legacy thread takes the event's metadata and keeps its own items; it loses
    its streams, and its history has grown.
  */
  lemma {:induction false} LegacyTurnCloses(s: Model, m: Message, scope: Scope, id: Name, turn: Name)
    requires Notice(s, m, id) && m.body.TurnCompleted? && m.body.turnValue.id != NO_NAME
    requires id in s.cache.threads && s.cache.threads[id].legacy
    ensures var (t, event) := (Reduce(s, m, scope), m.body.turnValue);
            && t.cache.threads.Keys == s.cache.threads.Keys
            && (forall other :: other in s.cache.threads && other != id ==> t.cache.threads[other] == s.cache.threads[other])
            && var (before, after) := (Turned(s.cache.threads[id].turns, turn), Turned(t.cache.threads[id].turns, turn));
               after == if turn != event.id then before
                        else Some(event.(items := if before.Some? then before.value.items else []))
    ensures var (t, event) := (Reduce(s, m, scope), m.body.turnValue);
            && (forall k :: k in t.streams.provisional <==>
                  k in s.streams.provisional && !(k.thread == id && k.turn == event.id))
            && (forall k :: k in t.streams.live <==> k in s.streams.live && !(k.thread == id && k.turn == event.id))
            && (id !in s.control.archived ==> id in t.legacy.dirty && t.legacy.dirty[id] == s.sequence + 1)
            && t.sequence == s.sequence + 1
  {
    hide Reduce, RetainPlans, DeliverAll, MarkDirty;
    NoticeProjects(s, m, scope, id);
    var closed := LegacyClosed(s, id, m.body.turnValue);
    RetainPrepares(closed, id, Some(s.sequence + 1));
    RetainStreams(closed, id, Some(s.sequence + 1));
    ClosedTurns(s.cache.threads[id].turns, m.body.turnValue, turn);
    Dirtied(s, id);
  }

  /** The streams after an event of a turn: those before, without the turn's own if it ended. */
  ghost predicate Settled(f: Streams, g: Streams, id: Name, turn: Name, ended: bool) {
    && (forall k :: k in g.live <==> k in f.live && !(ended && k.thread == id && k.turn == turn))
    && (forall k :: k in g.live ==> g.live[k] == f.live[k])
    && (forall k :: k in g.provisional <==> k in f.provisional && !(ended && k.thread == id && k.turn == turn))
    && (forall k :: k in g.provisional ==> g.provisional[k] == f.provisional[k])
  }

  lemma {:induction false} TurnStageSettles(s: Model, id: Name, turn: Name, body: Body)
    requires (body.TurnStarted? || body.TurnCompleted?) && TurnOf(body) == Some(turn)
    ensures Settled(s.streams, TurnStage(s, id, turn, body).streams, id, turn, body.TurnCompleted?)
  {
    hide RetainPlans, MarkDirty;
    var touched := TouchStage(s, id, turn, body);
    RetainStreams(touched, id, Some(s.sequence + 1));
    RetainStreams(Settle(touched, id, turn), id, Some(s.sequence + 1));
  }

  lemma {:induction false} LegacyClosedSettles(s: Model, id: Name, turn: Turn)
    requires id in s.cache.threads
    ensures Settled(s.streams, LegacyCompleted(s, id, turn).streams, id, turn.id, true)
  {
    hide RetainPlans, MarkDirty, CopyMetadata, DeliverAll;
    RetainStreams(LegacyClosed(s, id, turn), id, Some(s.sequence + 1));
  }

  /** A turn that completes keeps no live mark and no provisional stream; one that starts changes neither. */
  lemma {:induction false} TurnSettles(s: Model, m: Message, scope: Scope, id: Name)
    requires Notice(s, m, id) && (m.body.TurnStarted? || m.body.TurnCompleted?)
    ensures Settled(s.streams, Reduce(s, m, scope).streams, id, m.body.turnValue.id, m.body.TurnCompleted?)
  {
    hide Reduce, LegacyCompleted, TurnStage, DeliverAll, UpdateTurns, Settled;
    NoticeProjects(s, m, scope, id);
    assert StampStage(s, m, Some(id)) == s;
    TurnStageSettles(ContentStage(s, id, m.body), id, m.body.turnValue.id, m.body);
    if id in s.cache.threads {
      LegacyClosedSettles(s, id, m.body.turnValue);
    }
  }

  lemma {:induction false} Dirtied(s: Model, id: Name)
    ensures id !in s.control.archived ==> MarkDirty(s, id).dirty == s.legacy.dirty[id := s.sequence + 1]
  {
  }

  lemma {:induction false} RetainStreams(s: Model, thread: Name, after: Option<nat>)
    ensures var t := RetainPlans(s, thread, after);
            t.streams.live == s.streams.live && t.streams.provisional == s.streams.provisional && t.legacy == s.legacy
  {
    hide RetainedPlans, KnowsTurn, Raise;
  }

  lemma {:induction false} ClosedTurns(turns: seq<Turn>, event: Turn, id: Name)
    ensures var k := FindTurn(turns, event.id);
            var closed := if k < |turns| then turns[k := CopyMetadata(turns[k], event)] else turns + [event.(items := [])];
            Turned(closed, id) == if id != event.id then Turned(turns, id)
                                  else Some(event.(items := if Turned(turns, id).Some? then Turned(turns, id).value.items else []))
  {
    var k := FindTurn(turns, event.id);
    if k < |turns| {
      ReplacedTurn(turns, k, CopyMetadata(turns[k], event), id);
    } else {
      AppendedTurn(turns, event.(items := []), id);
    }
  }

  // ---------------------------------------------------------------------------------------
  // Plans.

  /** A plan kept with its turn marks the turn as newer; nothing else is marked. */
  predicate Marked(before: Stamps, after: Stamps, key: TurnKey, plans: map<TurnKey, Plan>, next: nat) {
    after == before.(turns := if key in plans then before.turns[key := next] else before.turns)
  }

  /** A plan in scope is kept with its turn if the turn is known, and waits otherwise, one a thread. */
  lemma {:induction false} PlanStored(s: Model, m: Message, scope: Scope, id: Name)
    requires Notice(s, m, id) && m.body.PlanUpdated? && id != NO_NAME && m.body.turn != NO_NAME && m.body.wellFormed
    requires id in s.cache.threads && id !in s.fences.scope
    requires s.restricted ==> Permits(scope, s.cache.threads[id].cwd)
    ensures var (t, f) := (Reduce(s, m, scope), s.streams);
            var update := Plan(NativeEpoch(s), s.sequence + 1, m.body.turn, m.body.plan);
            && t.sequence == s.sequence + 1 && t.cache == s.cache && t.control == s.control
            && t.streams.live == f.live && t.streams.provisional == f.provisional
            && Marked(s.stamps, t.stamps, TurnKey(id, m.body.turn), t.streams.plans, s.sequence + 1)
            && if Turned(s.cache.threads[id].turns, m.body.turn).Some? then
                 && t.streams.plans == f.plans[TurnKey(id, m.body.turn) := update]
                 && t.streams.pendingPlans == (if id in f.pendingPlans && f.pendingPlans[id].turn == m.body.turn
                                               then f.pendingPlans - {id} else f.pendingPlans)
               else t.streams.plans == f.plans && t.streams.pendingPlans == f.pendingPlans[id := update]
  {
    hide Project, ForgetOutsideScope, Permits, PlanAdmitted, StorePlan;
    AdmittedPlan(s, m, scope, id);
    ProjectedPlan(PlanStage(s, m, scope), m, id);
    StoredPlan(s.streams, Turned(s.cache.threads[id].turns, m.body.turn).Some?, id,
               Plan(NativeEpoch(s), s.sequence + 1, m.body.turn, m.body.plan));
  }

  lemma {:induction false} AdmittedPlan(s: Model, m: Message, scope: Scope, id: Name)
    requires Notice(s, m, id) && m.body.PlanUpdated? && id != NO_NAME && m.body.turn != NO_NAME && m.body.wellFormed
    requires id in s.cache.threads && id !in s.fences.scope
    requires s.restricted ==> Permits(scope, s.cache.threads[id].cwd)
    ensures PlanAdmitted(s, m, scope)
    ensures KnowsTurn(s, id, m.body.turn) <==> Turned(s.cache.threads[id].turns, m.body.turn).Some?
  {
    hide Permits;
  }

  lemma {:induction false} StoredPlan(f: Streams, known: bool, thread: Name, update: Plan)
    ensures var g := StorePlan(f, known, thread, update);
            && g.live == f.live && g.provisional == f.provisional
            && g.plans == (if known then f.plans[TurnKey(thread, update.turn) := update] else f.plans)
            && g.pendingPlans == (if !known then f.pendingPlans[thread := update]
                                  else if thread in f.pendingPlans && f.pendingPlans[thread].turn == update.turn
                                  then f.pendingPlans - {thread} else f.pendingPlans)
  {
  }

  /** Past the checks a plan leaves a mark of its turn, and an event. */
  lemma {:induction false} ProjectedPlan(s: Model, m: Message, id: Name)
    requires m.body.PlanUpdated?
    ensures var t := Project(s, m, Some(id));
            && t.streams == s.streams && t.cache == s.cache && t.control == s.control && t.sequence == s.sequence + 1
            && Marked(s.stamps, t.stamps, TurnKey(id, m.body.turn), s.streams.plans, s.sequence + 1)
  {
    hide DeliverAll, RetainPlans;
    assert StampStage(s, m, Some(id)) == s;
    if id in s.cache.threads {
      assert UpdateTurns(s.cache.threads[id].turns, m.body) == s.cache.threads[id].turns;
      assert ContentStage(s, id, m.body).cache == s.cache;
    }
  }

  /** Any other plan leaves the state as it was. */
  lemma {:induction false} PlanRefused(s: Model, m: Message, scope: Scope)
    requires m.body.PlanUpdated?
    requires m.thread.None? || m.thread == Some(NO_NAME) || m.body.turn == NO_NAME || !m.body.wellFormed
             || m.thread.value !in s.control.subscribed || m.thread.value in s.fences.scope
             || m.thread.value !in s.cache.threads
             || (s.restricted && !Permits(scope, s.cache.threads[m.thread.value].cwd))
    ensures Reduce(s, m, scope) == s
  {
    hide DeliverAll, ForgetOutsideScope, Permits, Project;
  }

  // ---------------------------------------------------------------------------------------
  // What an accepted snapshot and an archived read leave.

  /** The snapshot shows the turn, and its version of the item is the one to keep. */
  predicate Superseded(turns: seq<Turn>, key: ItemKey, live: LiveItem) {
    var turn := Turned(turns, key.turn);
    turn.Some? && (turn.value.status != InProgress || live.completed) && Itemed(turn.value.items, key.item).Some?
  }

  lemma {:induction false} RetainedLiveExactly(s: Model, thread: Thread, after: nat)
    ensures var live := RetainedLive(s, thread, Some(after));
            && (forall k :: k in live <==>
                  k in s.streams.live && !(k.thread == thread.id && Superseded(thread.turns, k, s.streams.live[k])))
            && (forall k :: k in live ==> live[k] == s.streams.live[k])
  {
  }

  lemma {:induction false} RetainedProvisionalExactly(s: Model, merged: Thread)
    requires OneGeneration(s)
    ensures var provisional := RetainedProvisional(s, merged);
            && (forall k :: k in provisional <==>
                  k in s.streams.provisional
                  && (k.thread == merged.id ==> merged.legacy && TurnOpen(merged.turns, k.turn)))
            && (forall k :: k in provisional ==> provisional[k] == s.streams.provisional[k])
  {
    hide TurnOpen, LiveAt, PlansAt, WaitingAt;
  }

  /**
    An accepted snapshot retires exactly the live marks of its thread whose item it supersedes. Its
    thread's provisional streams stay exactly while it is a legacy thread showing their turn open
    after the merge. No stream of another thread changes, the thread is attached, open and in scope.
  */
  lemma {:induction false} SnapshotRetires(s: Model, result: Snapshot, after: nat, scope: Scope)
    requires Accepted(s, result, after, scope) && OneGeneration(s)
    ensures var (t, thread) := (Remember(s, result, Some(after), scope), result.thread.value);
            && (forall k :: k in t.streams.live <==>
                  k in s.streams.live && !(k.thread == thread.id && Superseded(thread.turns, k, s.streams.live[k])))
            && (forall k :: k in t.streams.live ==> t.streams.live[k] == s.streams.live[k])
            && (forall k :: k in t.streams.provisional <==>
                  k in s.streams.provisional
                  && (k.thread == thread.id ==> thread.legacy && TurnOpen(t.cache.threads[thread.id].turns, k.turn)))
            && (forall k :: k in t.streams.provisional ==> t.streams.provisional[k] == s.streams.provisional[k])
            && t.control == s.control.(archived := s.control.archived - {thread.id},
                                       subscribed := s.control.subscribed + {thread.id})
            && thread.id in t.cache.threads
            && t.fences == s.fences.(scope := s.fences.scope - {thread.id}) && t.sequence == s.sequence
            && t.legacy == (if thread.legacy then s.legacy.(read := s.legacy.read[thread.id := after])
                            else Legacy(s.legacy.read - {thread.id}, s.legacy.dirty - {thread.id}))
  {
    hide RetainPlans, MergedTurns, NewerAfter, RetainedLive, RetainedProvisional, Invalidated, Permits, ForgetOutsideScope, TurnOpen,
         OneGeneration, Superseded, Newer;
    var id := result.thread.value.id;
    var u := Absorb(s, result, Some(after));
    RetainStreams(u, id, Some(after));
    RetainPrepares(u, id, Some(after));
    RetainedLiveExactly(s, result.thread.value, after);
    RetainedProvisionalExactly(s, MergedThread(s, result, Some(after)));
  }

  /** A snapshot without a watermark is the whole truth: it replaces thread, settings and live marks. */
  lemma {:induction false} UnmarkedSnapshotReplaces(s: Model, result: Snapshot, scope: Scope)
    requires result.thread.Some? && (s.restricted ==> Permits(scope, SnapshotCwd(result)))
    ensures var (t, thread) := (Remember(s, result, None, scope), result.thread.value);
            && t.cache == Cache(s.cache.threads[thread.id := thread], s.cache.settings[thread.id := result.settings])
            && (forall k :: k in t.streams.live <==>
                  k in s.streams.live
                  && !(k.thread == thread.id && Turned(thread.turns, k.turn).Some?
                       && Itemed(Turned(thread.turns, k.turn).value.items, k.item).Some?))
            && t.control == s.control.(archived := s.control.archived - {thread.id},
                                       subscribed := s.control.subscribed + {thread.id})
            && t.legacy == (if thread.legacy then s.legacy.(read := s.legacy.read[thread.id := s.sequence])
                            else Legacy(s.legacy.read - {thread.id}, s.legacy.dirty - {thread.id}))
            && t.sequence == s.sequence
  {
    hide RetainPlans, Permits, ForgetOutsideScope, TurnOpen, RetainedProvisional;
    var id := result.thread.value.id;
    var u := Absorb(s, result, None);
    RetainStreams(u, id, None);
    RetainPrepares(u, id, None);
    assert MergedThread(s, result, None) == result.thread.value;
  }

  /**
    An archived read that is current replaces its thread and marks it archived and attached, drops
    its settings, requests, live marks and provisional streams, and emits nothing. One that is not
    changes nothing at all.
  */
  lemma {:induction false} ArchivedReadApplies(s: Model, history: Thread, epoch: nat, since: nat, scope: Scope)
    ensures var (t, id) := (RememberArchived(s, history, epoch, since, scope), history.id);
            var current := s.connection.Connected? && s.epoch == epoch && s.stamps.archive <= since
              && !Invalidated(s, id, since)
              && (id in s.stamps.status ==> s.stamps.status[id] <= since)
              && (id in s.stamps.settings ==> s.stamps.settings[id] <= since)
              && (id in s.stamps.queue ==> s.stamps.queue[id] <= since)
              && (forall k :: k in s.stamps.turns && k.thread == id ==> s.stamps.turns[k] <= since)
              && Permits(scope, history.cwd);
            && (!current ==> t == s)
            && (current ==>
                  && t.cache == Cache(s.cache.threads[id := history], s.cache.settings - {id})
                  && t.control.archived == s.control.archived + {id} && t.control.subscribed == s.control.subscribed + {id}
                  && t.control.resumes == s.control.resumes
                  && (forall k :: k in t.control.pending <==> k in s.control.pending && s.control.pending[k].thread != Some(id))
                  && (forall k :: k in t.streams.live <==> k in s.streams.live && k.thread != id)
                  && (forall k :: k in t.streams.provisional <==> k in s.streams.provisional && k.thread != id)
                  && t.fences == s.fences && t.sequence == s.sequence && t.peers == s.peers)
  {
    hide RetainPlans, Permits;
    var id := history.id;
    forall u: Model
      ensures var v := RetainPlans(u, id, Some(since));
              && v.streams.live == u.streams.live && v.streams.provisional == u.streams.provisional
              && v.control == u.control && v.cache == u.cache && v.fences == u.fences && Still(u, v)
    {
      RetainStreams(u, id, Some(since));
      RetainPrepares(u, id, Some(since));
    }
  }

  /** A closed gateway shows nothing and reaches nobody, after one last event. */
  lemma {:induction false} DeactivatedIsEmpty(s: Model, k: nat)
    requires k < |s.peers|
    ensures var t := Deactivate(s);
            && t.cache.threads == map[] && t.control.subscribed == {} && t.control.pending == map[]
            && t.sequence == s.sequence + 1 && |t.peers| == |s.peers|
            && t.peers[k] == Deliver(s.peers[k], s.sequence + 1).(attached := false)
            && t.control.archived == s.control.archived && t.control.resumes == s.control.resumes && t.fences == s.fences
  {
  }
}
