/**
  The shared state updated in place, its tables grouped into the records of module Reducer. Each
  method is one mutex-guarded section, or a stretch of one, and is proved against the transition it
  performs; the `retain` and merge loops of the source are loops here.
*/
module GatewayState {
  import opened Wrappers
  import opened Reducer
  import ReducerGuarantees

  /** What a replaced connection leaves behind does not depend on the one that replaces it. */
  lemma {:induction false} GenerationWithoutConnection(s: Model, next: Connection)
    ensures DropGeneration(s.(connection := next)) == DropGeneration(s).(connection := next)
  {
    hide StableThreads;
  }

  class State {
    var namespace: Name
    var restricted: bool
    var connection: Connection
    var epoch: nat
    var sequence: nat
    var peers: seq<Peer>
    var cache: Cache
    var control: Control
    var stamps: Stamps
    var fences: Fences
    var streams: Streams
    var legacy: Legacy

    function Snap(): Model
      reads this
    {
      Model(namespace, restricted, connection, epoch, sequence, peers, cache, control, stamps, fences, streams, legacy)
    }

    constructor (namespace': Name, restricted': bool)
      ensures Snap() == Initial(namespace', restricted')
    {
      namespace, restricted, connection, epoch, sequence := namespace', restricted', Connecting, 0, 0;
      peers, cache, control := [], Cache(map[], map[]), Control(map[], {}, {}, map[]);
      stamps, fences := Stamps(map[], map[], map[], map[], 0), Fences(map[], map[], map[]);
      streams, legacy := NO_STREAMS, Legacy(map[], map[]);
    }

    // -------------------------------------------------------------------------------------
    // Events.

    method Publish()
      modifies this`sequence, this`peers
      ensures Snap() == Emit(old(Snap()))
    {
      sequence := sequence + 1;
      var k := 0;
      while k < |peers|
        invariant 0 <= k <= |peers| == |old(peers)|
        invariant sequence == old(sequence) + 1
        invariant forall j :: 0 <= j < k ==> peers[j] == Deliver(old(peers)[j], sequence)
        invariant forall j :: k <= j < |peers| ==> peers[j] == old(peers)[j]
      {
        peers := peers[k := Deliver(peers[k], sequence)];
        k := k + 1;
      }
      assert peers == DeliverAll(old(peers), sequence);
    }

    method Join()
      modifies this`peers
      ensures Snap() == Subscribe(old(Snap()))
    {
      peers := peers + [Peer(sequence, [], 0, false, true)];
    }

    method DropPeers()
      modifies this`peers
      ensures peers == DetachAll(old(peers))
    {
      var k := 0;
      while k < |peers|
        invariant 0 <= k <= |peers| == |old(peers)|
        invariant forall j :: 0 <= j < k ==> peers[j] == old(peers)[j].(attached := false)
        invariant forall j :: k <= j < |peers| ==> peers[j] == old(peers)[j]
      {
        peers := peers[k := peers[k].(attached := false)];
        k := k + 1;
      }
      assert peers == DetachAll(old(peers));
    }

    method Disable()
      modifies this
      ensures Snap() == Deactivate(old(Snap()))
    {
      Publish();
      DropPeers();
      cache := cache.(threads := map[]);
      control := control.(subscribed := {}, pending := map[]);
    }

    // -------------------------------------------------------------------------------------
    // Connections and resumes.

    static method RetainStable(thread: Name, turn: Name, items: seq<Item>, live: map<ItemKey, LiveItem>)
      returns (kept: seq<Item>)
      ensures kept == StableItems(thread, turn, items, live)
    {
      kept := [];
      var k := 0;
      while k < |items|
        invariant 0 <= k <= |items|
        invariant kept == StableItems(thread, turn, items[..k], live)
      {
        ReducerGuarantees.StableItemsInOrder(thread, turn, items[..k], [items[k]], live);
        assert items[..k + 1] == items[..k] + [items[k]];
        if ItemKey(thread, turn, items[k].id) !in live {
          kept := kept + [items[k]];
        }
        k := k + 1;
      }
      assert items[..k] == items;
    }

    static method RetainStableTurns(thread: Name, turns: seq<Turn>, live: map<ItemKey, LiveItem>)
      returns (kept: seq<Turn>)
      ensures kept == StableTurns(thread, turns, live)
    {
      kept := [];
      var k := 0;
      while k < |turns|
        invariant 0 <= k <= |turns|
        invariant kept + StableTurns(thread, turns[k..], live) == StableTurns(thread, turns, live)
      {
        ghost var rest := turns[k..];
        assert rest[0] == turns[k] && rest[1..] == turns[k + 1..];
        var items := RetainStable(thread, turns[k].id, turns[k].items, live);
        kept := kept + [turns[k].(items := items)];
        k := k + 1;
      }
    }

    /** Only one generation's items are ever shown. */
    method ForgetLiveItems()
      modifies this`cache
      ensures cache.threads == StableThreads(old(cache).threads, streams.live)
      ensures cache.settings == old(cache).settings
    {
      var threads := cache.threads;
      var left := threads.Keys;
      while left != {}
        invariant cache == old(cache) && left <= threads.Keys == cache.threads.Keys
        invariant forall id :: id in threads ==>
          threads[id] == if id in left then cache.threads[id]
                         else cache.threads[id].(turns := StableTurns(id, cache.threads[id].turns, streams.live))
      {
        var id :| id in left;
        var turns := RetainStableTurns(id, threads[id].turns, streams.live);
        threads := threads[id := threads[id].(turns := turns)];
        left := left - {id};
      }
      assert threads == StableThreads(cache.threads, streams.live);
      cache := cache.(threads := threads);
    }

    method DropConnection()
      modifies this`control, this`cache, this`streams, this`stamps, this`legacy
      ensures Snap() == DropGeneration(old(Snap()))
    {
      hide StableThreads;
      control := control.(resumes := map[]);
      ForgetLiveItems();
      streams := NO_STREAMS;
      stamps := stamps.(turns := map[]);
      legacy := Legacy(map[], map[]);
    }

    method Connect(next: Connection)
      modifies this
      ensures Snap() == Reducer.Connect(old(Snap()), next)
    {
      hide DropGeneration, DeliverAll;
      var previous := connection;
      connection := next;
      GenerationWithoutConnection(old(Snap()), next);
      if !next.Connected? || previous.Connected? {
        DropConnection();
      }
      if next.Connected? {
        epoch := epoch + 1;
      }
      Publish();
    }

    method ClearProvisionalStreams(thread: Name)
      modifies this`streams, this`legacy
      ensures Snap() == ClearProvisional(old(Snap()), thread)
    {
      streams := streams.(provisional := DropItems(streams.provisional, thread));
      legacy := legacy.(read := legacy.read - {thread});
      legacy := legacy.(dirty := legacy.dirty - {thread});
    }

    method BeginResume(thread: Name)
      modifies this`control
      ensures Snap() == Reducer.BeginResume(old(Snap()), thread)
    {
      if thread in control.archived && thread !in control.resumes {
        control := control.(pending := DropPending(control.pending, thread));
      }
      var count := if thread in control.resumes then control.resumes[thread] else 0;
      control := control.(resumes := control.resumes[thread := count + 1]);
    }

    /** The stored count is never zero (`ReducerGuarantees.RunKeeps`), so the decrement is safe. */
    method FinishResume(thread: Name)
      requires !Underflows(Snap(), thread)
      modifies this`control
      ensures Snap() == Reducer.FinishResume(old(Snap()), thread)
    {
      if thread in control.resumes {
        control := control.(resumes := control.resumes[thread := control.resumes[thread] - 1]);
        if control.resumes[thread] == 0 {
          control := control.(resumes := control.resumes - {thread});
        }
      }
      if thread in control.archived && thread !in control.resumes {
        control := control.(pending := DropPending(control.pending, thread));
      }
    }

    /** The tables that survive a connection: nothing of the thread stays but its closed marks. */
    method CloseThread(thread: Name)
      modifies this`cache, this`control, this`stamps, this`fences
      ensures cache == Cache(old(cache).threads - {thread}, old(cache).settings - {thread})
      ensures control == Control(DropPending(old(control).pending, thread), old(control).subscribed - {thread},
                                 old(control).archived - {thread}, old(control).resumes - {thread})
      ensures stamps == Stamps(old(stamps).settings - {thread}, old(stamps).queue - {thread},
                               old(stamps).status - {thread}, DropTurns(old(stamps).turns, thread), old(stamps).archive)
      ensures fences == Fences(old(fences).scope[thread := sequence + 1], old(fences).change[thread := sequence + 1],
                               old(fences).access - {thread})
    {
      fences := fences.(change := fences.change[thread := sequence + 1]);
      fences := fences.(scope := fences.scope[thread := sequence + 1]);
      control := control.(subscribed := control.subscribed - {thread});
      cache := Cache(cache.threads - {thread}, cache.settings - {thread});
      stamps := stamps.(settings := stamps.settings - {thread}, queue := stamps.queue - {thread},
                        status := stamps.status - {thread}, turns := DropTurns(stamps.turns, thread));
      control := control.(archived := control.archived - {thread});
      fences := fences.(access := fences.access - {thread});
      control := control.(resumes := control.resumes - {thread}, pending := DropPending(control.pending, thread));
    }

    method ForgetThread(thread: Name)
      modifies this
      ensures Snap() == ForgetOutsideScope(old(Snap()), thread)
    {
      hide DropPending, DropTurns, DropItems, DeliverAll;
      CloseThread(thread);
      ClearProvisionalStreams(thread);
      streams := streams.(live := DropItems(streams.live, thread), plans := DropTurns(streams.plans, thread),
                          pendingPlans := streams.pendingPlans - {thread});
      Publish();
    }

    // -------------------------------------------------------------------------------------
    // Snapshots.

    method RetainPlansForHistory(thread: Name, after: Option<nat>)
      modifies this`streams, this`stamps
      ensures Snap() == RetainPlans(old(Snap()), thread, after)
    {
      hide KnowsTurn, Raise;
      var plans := RetainedPlans(Snap(), thread, after);
      if thread in streams.pendingPlans {
        var update := streams.pendingPlans[thread];
        if update.epoch != NativeEpoch(Snap()) {
          streams := streams.(pendingPlans := streams.pendingPlans - {thread});
        } else if KnowsTurn(Snap(), thread, update.turn) {
          streams := streams.(pendingPlans := streams.pendingPlans - {thread});
          var key := TurnKey(thread, update.turn);
          stamps := stamps.(turns := Raise(stamps.turns, key, update.sequence));
          plans := plans[key := update];
        }
      }
      streams := streams.(plans := plans);
      assert thread !in old(streams).pendingPlans ==>
          old(streams).pendingPlans - {thread} == old(streams).pendingPlans;
    }

    /** The first merge loop: cached turns newer than the snapshot. */
    static method MergeNewerTurns(turns: seq<Turn>, cached: seq<Turn>, thread: Name, sequences: map<TurnKey, nat>,
                                  after: nat, legacy: bool)
      returns (merged: seq<Turn>)
      ensures merged == MergeNewer(turns, cached, thread, sequences, after, legacy)
    {
      merged := turns;
      var k := 0;
      while k < |cached|
        invariant 0 <= k <= |cached|
        invariant MergeNewer(merged, cached[k..], thread, sequences, after, legacy)
                  == MergeNewer(turns, cached, thread, sequences, after, legacy)
      {
        assert cached[k..][0] == cached[k] && cached[k..][1..] == cached[k + 1..];
        var turn := cached[k];
        if Newer(sequences, TurnKey(thread, turn.id), after) {
          var at := FindTurn(merged, turn.id);
          if at < |merged| {
            if !turn.status.InProgress? {
              merged := merged[at := if legacy then CopyMetadata(merged[at], turn) else turn];
            }
          } else {
            merged := merged + [if legacy then turn.(items := []) else turn];
          }
        }
        k := k + 1;
      }
    }

    /** The innermost merge loop: cached items of a turn both sides show in progress. */
    static method MergeLiveItems(items: seq<Item>, cached: seq<Item>, thread: Name, turn: Name,
                                 live: map<ItemKey, LiveItem>, epoch: nat, legacy: bool)
      returns (merged: seq<Item>)
      ensures merged == MergeItems(items, cached, thread, turn, live, epoch, legacy)
    {
      hide AliasKind;
      merged := items;
      var k := 0;
      while k < |cached|
        invariant 0 <= k <= |cached|
        invariant MergeItems(merged, cached[k..], thread, turn, live, epoch, legacy)
                  == MergeItems(items, cached, thread, turn, live, epoch, legacy)
      {
        assert cached[k..][0] == cached[k] && cached[k..][1..] == cached[k + 1..];
        var item, key := cached[k], ItemKey(thread, turn, cached[k].id);
        if !(legacy && AliasKind(item.kind)) && key in live && live[key].epoch == epoch {
          var at := FindItem(merged, item.id);
          if at < |merged| {
            if !live[key].completed {
              merged := merged[at := item];
            }
          } else {
            merged := merged + [item];
          }
        }
        k := k + 1;
      }
    }

    static method MergeLiveTurns(turns: seq<Turn>, cached: seq<Turn>, thread: Name, live: map<ItemKey, LiveItem>,
                                 epoch: nat, legacy: bool)
      returns (merged: seq<Turn>)
      ensures merged == MergeLive(turns, cached, thread, live, epoch, legacy)
    {
      merged := turns;
      var k := 0;
      while k < |merged|
        invariant 0 <= k <= |merged| == |turns|
        invariant forall j :: 0 <= j < k ==> merged[j] == OpenTurnMerged(turns[j], cached, thread, live, epoch, legacy)
        invariant forall j :: k <= j < |turns| ==> merged[j] == turns[j]
      {
        if turns[k].status.InProgress? {
          var at := FindOpenTurn(cached, turns[k].id);
          if at < |cached| {
            var items := MergeLiveItems(turns[k].items, cached[at].items, thread, turns[k].id, live, epoch, legacy);
            merged := merged[k := turns[k].(items := items)];
          }
        }
        k := k + 1;
      }
      assert merged == MergeLive(turns, cached, thread, live, epoch, legacy);
    }

    /** The snapshot's thread with everything newer the cache knows. */
    method MergeThread(result: Snapshot, after: Option<nat>) returns (thread: Thread)
      requires result.thread.Some?
      ensures thread == MergedThread(Snap(), result, after)
    {
      hide MergeNewer, MergeLive;
      thread := result.thread.value;
      var id := thread.id;
      if NewerAfter(stamps.status, id, after) && id in cache.threads {
        thread := thread.(status := cache.threads[id].status);
      }
      if after.Some? {
        var cached := CacheOf(Snap(), id);
        var turns := MergeNewerTurns(thread.turns, cached, id, stamps.turns, after.value, thread.legacy);
        turns := MergeLiveTurns(turns, cached, id, streams.live, NativeEpoch(Snap()), thread.legacy);
        thread := thread.(turns := turns);
      }
      if NewerAfter(stamps.settings, id, after) && id in cache.settings && cache.settings[id].cwd.Some? {
        thread := thread.(cwd := cache.settings[id].cwd);
      }
    }

    /** What the accepted snapshot replaces. */
    method AbsorbSnapshot(result: Snapshot, after: Option<nat>)
      requires result.thread.Some?
      modifies this`cache, this`streams, this`legacy
      ensures Snap() == Absorb(old(Snap()), result, after)
    {
      hide MergedThread, RetainedLive, RetainedProvisional;
      var id := result.thread.value.id;
      var merged := MergeThread(result, after);
      var live := RetainedLive(Snap(), result.thread.value, after);
      var provisional := RetainedProvisional(Snap(), merged);
      if !NewerAfter(stamps.settings, id, after) {
        cache := cache.(settings := cache.settings[id := result.settings]);
      }
      streams := streams.(live := live, provisional := provisional);
      if result.thread.value.legacy {
        legacy := legacy.(read := legacy.read[id := if after.Some? then after.value else sequence]);
      } else {
        legacy := Legacy(legacy.read - {id}, legacy.dirty - {id});
      }
      cache := cache.(threads := cache.threads[id := merged]);
    }

    method RememberScoped(result: Snapshot, after: Option<nat>, scope: Scope)
      modifies this
      ensures Snap() == Remember(old(Snap()), result, after, scope)
    {
      hide Absorb, RetainPlans, ForgetOutsideScope, Invalidated, Permits;
      if result.thread.None? {
        return;
      }
      var id := result.thread.value.id;
      if after.Some? && Invalidated(Snap(), id, after.value) {
        return;
      }
      if restricted && !Permits(scope, SnapshotCwd(result)) {
        ForgetThread(id);
        return;
      }
      AbsorbSnapshot(result, after);
      RetainPlansForHistory(id, after);
      fences := fences.(scope := fences.scope - {id});
      control := control.(archived := control.archived - {id});
      control := control.(subscribed := control.subscribed + {id});
    }

    method RememberArchivedScoped(thread: Thread, at: nat, after: nat, scope: Scope) returns (stored: bool)
      modifies this
      ensures Snap() == RememberArchived(old(Snap()), thread, at, after, scope)
      ensures stored <==> !ArchivedReadStale(old(Snap()), thread, at, after, scope)
    {
      hide RetainPlans, DropPending, DropItems, ArchivedReadStale;
      var id := thread.id;
      if ArchivedReadStale(Snap(), thread, at, after, scope) {
        return false;
      }
      cache := Cache(cache.threads[id := thread], cache.settings - {id});
      control := control.(archived := control.archived + {id}, pending := DropPending(control.pending, id));
      streams := streams.(live := DropItems(streams.live, id));
      ClearProvisionalStreams(id);
      RetainPlansForHistory(id, Some(after));
      control := control.(subscribed := control.subscribed + {id});
      stored := true;
    }

    // -------------------------------------------------------------------------------------
    // Native messages.

    method NoteArchive(m: Message)
      modifies this`stamps, this`fences, this`control, this`streams, this`legacy
      ensures Snap() == ArchiveStage(old(Snap()), m)
    {
      hide ClearProvisional, DropPending;
      if m.body.ThreadArchived? || m.body.ThreadUnarchived? {
        stamps := stamps.(archive := sequence + 1);
        var thread := ThreadOf(m);
        if thread.Some? && (thread.value in cache.threads || thread.value in control.subscribed) {
          var id := thread.value;
          fences := fences.(access := fences.access[id := sequence + 1]);
          if m.body.ThreadArchived? {
            control := control.(archived := control.archived + {id}, pending := DropPending(control.pending, id));
            ClearProvisionalStreams(id);
          }
        }
      }
    }

    /** False when the update is refused. */
    method NotePlan(m: Message, scope: Scope) returns (admitted: bool)
      requires m.body.PlanUpdated?
      modifies this`streams
      ensures Snap() == PlanStage(old(Snap()), m, scope)
      ensures admitted == PlanAdmitted(old(Snap()), m, scope)
    {
      hide KnowsTurn, Permits;
      admitted := PlanAdmitted(Snap(), m, scope);
      if admitted {
        var thread := m.thread.value;
        var update := Plan(NativeEpoch(Snap()), sequence + 1, m.body.turn, m.body.plan);
        var waiting := streams.pendingPlans;
        if KnowsTurn(Snap(), thread, m.body.turn) {
          if thread in waiting && waiting[thread].turn == m.body.turn {
            streams := streams.(pendingPlans := waiting - {thread});
          }
          streams := streams.(plans := streams.plans[TurnKey(thread, m.body.turn) := update]);
        } else {
          streams := streams.(pendingPlans := waiting[thread := update]);
        }
      }
    }

    method NoteRequest(m: Message)
      modifies this`control
      ensures Snap() == RequestStage(old(Snap()), m)
    {
      if m.id.Some? {
        var key := m.id.value;
        var token := TokenFor(Snap(), m);
        control := control.(pending := control.pending[key := Request(key, m.thread, m.body, token)]);
      }
    }

    method NoteStamps(m: Message, id: Option<Name>)
      modifies this`control, this`cache, this`stamps
      ensures Snap() == StampStage(old(Snap()), m, id)
    {
      hide DropToolCalls;
      match m.body {
        case SettingsUpdated(updated) =>
          if m.thread.Some? {
            var thread := m.thread.value;
            cache := cache.(settings := cache.settings[thread := updated]);
            stamps := stamps.(settings := stamps.settings[thread := sequence + 1]);
            if thread in cache.threads {
              cache := cache.(threads := cache.threads[thread := cache.threads[thread].(cwd := updated.cwd)]);
            }
          }
        case QueueChanged =>
          if id.Some? {
            stamps := stamps.(queue := stamps.queue[id.value := sequence + 1]);
          }
        case StatusChanged(_) =>
          if id.Some? {
            stamps := stamps.(status := stamps.status[id.value := sequence + 1]);
          }
        case RequestResolved(resolved) =>
          control := control.(pending := control.pending - {resolved});
        case ItemCompleted(_, item) =>
          if item.kind.DynamicTool? {
            control := control.(pending := DropToolCalls(control.pending, m));
          }
        case ThreadStarted(thread) =>
          cache := cache.(threads := cache.threads[thread.id := thread]);
        case _ =>
      }
    }

    method UpdateContent(id: Name, body: Body)
      modifies this`cache
      ensures Snap() == ContentStage(old(Snap()), id, body)
    {
      hide UpdateTurns;
      if id in cache.threads {
        var thread := cache.threads[id];
        if body.StatusChanged? {
          thread := thread.(status := body.status);
        }
        thread := thread.(turns := UpdateTurns(thread.turns, body));
        cache := cache.(threads := cache.threads[id := thread]);
      }
    }

    method TouchTurn(id: Name, turn: Name, body: Body)
      modifies this`stamps, this`streams
      ensures Snap() == TouchStage(old(Snap()), id, turn, body)
    {
      var key := TurnKey(id, turn);
      if !body.PlanUpdated? || key in streams.plans {
        stamps := stamps.(turns := stamps.turns[key := sequence + 1]);
        if ItemOf(body).Some? {
          var itemKey := ItemKey(id, turn, ItemOf(body).value);
          var live := if itemKey in streams.live then streams.live[itemKey] else LiveItem(0, false);
          live := live.(epoch := NativeEpoch(Snap()));
          if body.ItemCompleted? {
            live := live.(completed := true);
          } else if body.ItemStarted? {
            live := live.(completed := false);
          }
          streams := streams.(live := streams.live[itemKey := live]);
        }
      }
    }

    method FinishTurn(id: Name, turn: Name, body: Body)
      modifies this`stamps, this`streams, this`legacy
      ensures Snap() == TurnStage(old(Snap()), id, turn, body)
    {
      hide TouchStage, RetainPlans, DropTurnItems;
      TouchTurn(id, turn, body);
      if body.TurnCompleted? {
        streams := streams.(live := DropTurnItems(streams.live, id, turn),
                            provisional := DropTurnItems(streams.provisional, id, turn));
        if id !in cache.threads && id !in control.archived {
          legacy := legacy.(dirty := legacy.dirty[id := sequence + 1]);
        }
      }
      if body.TurnStarted? || body.TurnCompleted? {
        RetainPlansForHistory(id, Some(sequence + 1));
      }
    }

    method CloseLegacyTurn(id: Name, turn: Turn)
      requires id in cache.threads
      modifies this
      ensures Snap() == LegacyCompleted(old(Snap()), id, turn)
    {
      hide RetainPlans, DropTurnItems, DeliverAll;
      if id !in control.archived {
        legacy := legacy.(dirty := legacy.dirty[id := sequence + 1]);
      }
      var turns := cache.threads[id].turns;
      var at := FindTurn(turns, turn.id);
      if at < |turns| {
        turns := turns[at := CopyMetadata(turns[at], turn)];
      } else {
        turns := turns + [turn.(items := [])];
      }
      cache := cache.(threads := cache.threads[id := cache.threads[id].(turns := turns)]);
      streams := streams.(provisional := DropTurnItems(streams.provisional, id, turn.id),
                          live := DropTurnItems(streams.live, id, turn.id));
      stamps := stamps.(turns := stamps.turns[TurnKey(id, turn.id) := sequence + 1]);
      RetainPlansForHistory(id, Some(sequence + 1));
      Publish();
    }

    method StreamLegacy(id: Name, turn: Name, item: Name, body: Body)
      requires LegacyStream(body)
      modifies this
      ensures Snap() == LegacyStreamed(old(Snap()), id, turn, item, body)
    {
      hide StreamUpdate, ShowsStream, DeliverAll, Emit;
      var key := ItemKey(id, turn, item);
      stamps := stamps.(turns := stamps.turns[TurnKey(id, turn) := sequence + 1]);
      if body.ItemCompleted? {
        if id !in control.archived {
          legacy := legacy.(dirty := legacy.dirty[id := sequence + 1]);
        }
        streams := streams.(provisional := streams.provisional - {key});
      } else if id !in control.archived && ShowsStream(body) {
        var stream := StreamUpdate(streams.provisional, key, NativeEpoch(Snap()), sequence + 1, body);
        streams := streams.(provisional := streams.provisional[key := stream]);
      }
      assert Snap() == StreamStage(old(Snap()), key, body);
      Publish();
    }

    /** True when the message was consumed here. */
    method ReduceLegacyProjection(id: Name, body: Body) returns (handled: bool)
      modifies this
      ensures handled <==> LegacyProjection(old(Snap()), id, body).Some?
      ensures Snap() == if handled then LegacyProjection(old(Snap()), id, body).value else old(Snap())
    {
      hide LegacyCompleted, LegacyStreamed, ShowsStream;
      var known := id in cache.threads;
      var legacyThread := known && cache.threads[id].legacy;
      if known && !legacyThread {
        return false;
      }
      var turn, item := TurnOf(body), ItemOf(body);
      if turn.None? || turn.value == NO_NAME {
        return false;
      }
      if body.TurnCompleted? && legacyThread {
        CloseLegacyTurn(id, body.turnValue);
        return true;
      }
      if !LegacyStream(body) || item.None? || item.value == NO_NAME {
        return false;
      }
      if legacyThread && id in control.archived && !body.ItemCompleted? {
        return true;
      }
      StreamLegacy(id, turn.value, item.value, body);
      handled := true;
    }

    method ProjectMessage(m: Message, id: Option<Name>)
      modifies this
      ensures Snap() == Project(old(Snap()), m, id)
    {
      hide StampStage, LegacyProjection, ContentStage, TurnStage, Emit;
      NoteStamps(m, id);
      if id.Some? {
        var handled := ReduceLegacyProjection(id.value, m.body);
        if handled {
          return;
        }
        UpdateContent(id.value, m.body);
        var turn := TurnOf(m.body);
        if turn.Some? {
          FinishTurn(id.value, turn.value, m.body);
        }
      }
      Publish();
    }

    method ReduceScoped(m: Message, scope: Scope)
      modifies this
      ensures Snap() == Reduce(old(Snap()), m, scope)
    {
      hide ArchiveStage, PlanStage, PlanAdmitted, RequestStage, Project, ForgetOutsideScope, Permits, Emit;
      var id := ThreadOf(m);
      if id.None? && !(m.body.RequestResolved? && m.id.None? && m.body.resolved in control.pending) {
        return;
      }
      NoteArchive(m);
      if id.Some? && id.value !in control.subscribed {
        if m.body.ThreadStarted? || m.body.ThreadArchived? || m.body.ThreadUnarchived? {
          Publish();
        }
        return;
      }
      ReduceOwn(m, scope);
    }

    /** A message of an attached thread, or a resolution without one. */
    method ReduceOwn(m: Message, scope: Scope)
      modifies this
      ensures Snap() == ReduceAttached(old(Snap()), m, scope)
    {
      hide PlanStage, PlanAdmitted, RequestStage, Project, ForgetOutsideScope, Permits;
      var id := ThreadOf(m);
      PlanOnly(Snap(), m, scope);
      if m.body.PlanUpdated? {
        var admitted := NotePlan(m, scope);
        if !admitted {
          return;
        }
      }
      if m.body.SettingsUpdated? && restricted && id.Some? && !Permits(scope, m.body.settings.cwd) {
        ForgetThread(id.value);
        return;
      }
      if m.body.RequestResolved? && m.body.resolved !in control.pending {
        return;
      }
      if m.id.Some? && (id.None? || (id.value in control.archived && id.value !in control.resumes)) {
        return;
      }
      NoteRequest(m);
      ProjectMessage(m, id);
    }
  }

  lemma {:induction false} PlanOnly(s: Model, m: Message, scope: Scope)
    ensures !m.body.PlanUpdated? ==> PlanStage(s, m, scope) == s
    ensures m.body.PlanUpdated? && !PlanAdmitted(s, m, scope) ==> PlanStage(s, m, scope) == s
    ensures PlanStage(s, m, scope).restricted == s.restricted && PlanStage(s, m, scope).control == s.control
  {
    hide PlanAdmitted, KnowsTurn, StorePlan;
  }
}
