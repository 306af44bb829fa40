/**
  Merging a native snapshot loses nothing newer than it. The merge loops of `remember_scoped` are
  characterised by what a lookup finds afterwards, for turns and for the items of a turn.
*/
module ReducerMerge {
  import opened Wrappers
  import opened Reducer
  import opened ReducerRuns

  function Turned(turns: seq<Turn>, id: Name): Option<Turn> {
    var k := FindTurn(turns, id);
    if k < |turns| then Some(turns[k]) else None
  }

  function Itemed(items: seq<Item>, id: Name): Option<Item> {
    var k := FindItem(items, id);
    if k < |items| then Some(items[k]) else None
  }

  function TurnIds(turns: seq<Turn>): seq<Name> {
    seq(|turns|, k requires 0 <= k < |turns| => turns[k].id)
  }

  function ItemIds(items: seq<Item>): seq<Name> {
    seq(|items|, k requires 0 <= k < |items| => items[k].id)
  }

  ghost predicate NoRepeats(ids: seq<Name>) {
    forall j, k :: 0 <= j < k < |ids| ==> ids[j] != ids[k]
  }

  /** Turn ids are distinct, and item ids within each turn. */
  ghost predicate WellFormed(turns: seq<Turn>) {
    NoRepeats(TurnIds(turns)) && forall k :: 0 <= k < |turns| ==> NoRepeats(ItemIds(turns[k].items))
  }

  // ---------------------------------------------------------------------------------------
  // Turns.

  /** What becomes of a snapshot's turn and a cached turn newer than the snapshot. */
  function TurnOutcome(persisted: Option<Turn>, newer: Option<Turn>, legacy: bool): Option<Turn> {
    if newer.None? then persisted
    else if persisted.None? then Some(if legacy then newer.value.(items := []) else newer.value)
    else if newer.value.status.InProgress? then persisted
    else Some(if legacy then newer.value.(items := persisted.value.items) else newer.value)
  }

  lemma {:induction false} FirstTurn(turns: seq<Turn>, id: Name, k: nat)
    requires k <= |turns|
    requires k < |turns| ==> turns[k].id == id
    requires forall j :: 0 <= j < k ==> turns[j].id != id
    ensures FindTurn(turns, id) == k
  {
  }

  lemma {:induction false} FirstItem(items: seq<Item>, id: Name, k: nat)
    requires k <= |items|
    requires k < |items| ==> items[k].id == id
    requires forall j :: 0 <= j < k ==> items[j].id != id
    ensures FindItem(items, id) == k
  {
  }

  /** Replacing a turn by one of the same id finds the same places. */
  lemma {:induction false} ReplacedTurn(turns: seq<Turn>, at: nat, turn: Turn, id: Name)
    requires at < |turns| && turn.id == turns[at].id
    ensures FindTurn(turns[at := turn], id) == FindTurn(turns, id)
  {
    var k, changed := FindTurn(turns, id), turns[at := turn];
    forall j | 0 <= j < k ensures changed[j].id != id {
      assert turns[j].id != id;
    }
    FirstTurn(changed, id, k);
  }

  lemma {:induction false} AppendedTurn(turns: seq<Turn>, turn: Turn, id: Name)
    ensures FindTurn(turns + [turn], id)
            == if FindTurn(turns, id) < |turns| || turn.id == id then FindTurn(turns, id) else |turns| + 1
  {
    var k := FindTurn(turns, id);
    forall j | 0 <= j < k ensures (turns + [turn])[j].id != id {
      assert turns[j].id != id;
    }
    FirstTurn(turns + [turn], id, if k < |turns| || turn.id == id then k else |turns| + 1);
  }

  lemma {:induction false} MergeTurnLookup(turns: seq<Turn>, cached: Turn, legacy: bool, id: Name)
    ensures Turned(MergeTurn(turns, cached, legacy), id)
            == if id == cached.id then TurnOutcome(Turned(turns, id), Some(cached), legacy) else Turned(turns, id)
  {
    var at := FindTurn(turns, cached.id);
    if at < |turns| {
      var turn := if legacy then CopyMetadata(turns[at], cached) else cached;
      ReplacedTurn(turns, at, turn, id);
    } else {
      AppendedTurn(turns, if legacy then cached.(items := []) else cached, id);
    }
  }

  function NewerTurn(cache: seq<Turn>, thread: Name, stamps: map<TurnKey, nat>, after: nat, id: Name): Option<Turn> {
    if Newer(stamps, TurnKey(thread, id), after) then Turned(cache, id) else None
  }

  lemma {:induction false} DistinctTail(turns: seq<Turn>, id: Name)
    requires turns != [] && NoRepeats(TurnIds(turns))
    ensures NoRepeats(TurnIds(turns[1..]))
    ensures turns[0].id == id ==> Turned(turns, id) == Some(turns[0]) && Turned(turns[1..], id) == None
    ensures turns[0].id != id ==> Turned(turns[1..], id) == Turned(turns, id)
  {
    assert TurnIds(turns[1..]) == TurnIds(turns)[1..];
    if turns[0].id == id {
      forall j | 0 <= j < |turns| - 1 ensures turns[1..][j].id != id {
        assert TurnIds(turns)[0] != TurnIds(turns)[j + 1];
      }
      FirstTurn(turns[1..], id, |turns| - 1);
    }
  }

  /** The first merge loop: each lookup afterwards is the outcome of the two lookups before. */
  lemma {:induction false} MergeNewerLookup(turns: seq<Turn>, cache: seq<Turn>, thread: Name, stamps: map<TurnKey, nat>,
                                           after: nat, legacy: bool, id: Name)
    requires NoRepeats(TurnIds(cache))
    ensures Turned(MergeNewer(turns, cache, thread, stamps, after, legacy), id)
            == TurnOutcome(Turned(turns, id), NewerTurn(cache, thread, stamps, after, id), legacy)
    decreases |cache|
  {
    hide MergeTurn, Turned, FindTurn, NoRepeats, TurnIds;
    if cache != [] {
      var newer := Newer(stamps, TurnKey(thread, cache[0].id), after);
      var merged := if newer then MergeTurn(turns, cache[0], legacy) else turns;
      MergeTurnLookup(turns, cache[0], legacy, id);
      DistinctTail(cache, id);
      MergeNewerLookup(merged, cache[1..], thread, stamps, after, legacy, id);
    } else {
      EmptyLookup(id);
    }
  }

  lemma {:induction false} EmptyLookup(id: Name)
    ensures Turned([], id) == None
  {
  }

  /** The ids of `ids` that are kept and not already known, in order. */
  function Unseen(known: seq<Name>, ids: seq<Name>, keep: Name -> bool): seq<Name> {
    if ids == [] then []
    else (if keep(ids[0]) && ids[0] !in known then [ids[0]] else []) + Unseen(known, ids[1..], keep)
  }

  lemma {:induction false} UnseenAfter(known: seq<Name>, id: Name, ids: seq<Name>, keep: Name -> bool)
    requires id !in ids
    ensures Unseen(known + [id], ids, keep) == Unseen(known, ids, keep)
    decreases |ids|
  {
    if ids != [] {
      UnseenAfter(known, id, ids[1..], keep);
    }
  }

  lemma {:induction false} UnseenExactly(known: seq<Name>, ids: seq<Name>, keep: Name -> bool, id: Name)
    ensures id in Unseen(known, ids, keep) <==> id in ids && keep(id) && id !in known
  {
    if ids != [] {
      UnseenExactly(known, ids[1..], keep, id);
    }
  }

  lemma {:induction false} RepeatsOf(ids: seq<Name>, id: Name)
    ensures NoRepeats([id] + ids) <==> id !in ids && NoRepeats(ids)
    ensures NoRepeats(ids + [id]) <==> id !in ids && NoRepeats(ids)
  {
    var front, back := [id] + ids, ids + [id];
    assert forall k :: 0 <= k < |ids| ==> front[k + 1] == ids[k] && back[k] == ids[k];
    assert front[0] == id && back[|ids|] == id;
    if NoRepeats(front) {
      forall k | 0 <= k < |ids| ensures ids[k] != id { assert front[0] != front[k + 1]; }
      forall j, k | 0 <= j < k < |ids| ensures ids[j] != ids[k] { assert front[j + 1] != front[k + 1]; }
    }
    if id !in ids && NoRepeats(ids) {
      forall j, k | 0 <= j < k < |front| ensures front[j] != front[k] {
        if j > 0 { assert ids[j - 1] != ids[k - 1]; } else { assert ids[k - 1] != id; }
      }
    }
  }

  lemma {:induction false} UnseenDistinct(known: seq<Name>, ids: seq<Name>, keep: Name -> bool)
    requires NoRepeats(known) && NoRepeats(ids)
    ensures NoRepeats(known + Unseen(known, ids, keep))
    decreases |ids|
  {
    hide NoRepeats;
    if ids != [] {
      assert ids == [ids[0]] + ids[1..];
      RepeatsOf(ids[1..], ids[0]);
      if keep(ids[0]) && ids[0] !in known {
        RepeatsOf(known, ids[0]);
        UnseenAfter(known, ids[0], ids[1..], keep);
        UnseenDistinct(known + [ids[0]], ids[1..], keep);
        assert known + Unseen(known, ids, keep) == known + [ids[0]] + Unseen(known + [ids[0]], ids[1..], keep);
      } else {
        UnseenDistinct(known, ids[1..], keep);
        assert Unseen(known, ids, keep) == Unseen(known, ids[1..], keep);
      }
    } else {
      assert known + Unseen(known, ids, keep) == known;
    }
  }

  lemma {:induction false} HasTurnIn(turns: seq<Turn>, id: Name)
    ensures HasTurn(turns, id) <==> id in TurnIds(turns)
  {
    if HasTurn(turns, id) {
      assert TurnIds(turns)[FindTurn(turns, id)] == id;
    }
  }

  lemma {:induction false} MergeTurnIds(turns: seq<Turn>, cached: Turn, legacy: bool)
    ensures TurnIds(MergeTurn(turns, cached, legacy))
            == if cached.id in TurnIds(turns) then TurnIds(turns) else TurnIds(turns) + [cached.id]
  {
    HasTurnIn(turns, cached.id);
  }

  /** The snapshot's turns keep their order; what only the cache knows follows, in cache order. */
  lemma {:induction false} MergeNewerIds(turns: seq<Turn>, cache: seq<Turn>, thread: Name, stamps: map<TurnKey, nat>,
                                        after: nat, legacy: bool, keep: Name -> bool)
    requires NoRepeats(TurnIds(cache))
    requires forall id :: keep(id) == Newer(stamps, TurnKey(thread, id), after)
    ensures TurnIds(MergeNewer(turns, cache, thread, stamps, after, legacy))
            == TurnIds(turns) + Unseen(TurnIds(turns), TurnIds(cache), keep)
    decreases |cache|
  {
    hide MergeTurn, NoRepeats;
    var known, ids := TurnIds(turns), TurnIds(cache);
    if cache != [] {
      var merged := if keep(cache[0].id) then MergeTurn(turns, cache[0], legacy) else turns;
      assert TurnIds(cache[1..]) == ids[1..] && ids == [ids[0]] + ids[1..];
      RepeatsOf(ids[1..], ids[0]);
      MergeTurnIds(turns, cache[0], legacy);
      MergeNewerIds(merged, cache[1..], thread, stamps, after, legacy, keep);
      if keep(ids[0]) && ids[0] !in known {
        UnseenAfter(known, ids[0], ids[1..], keep);
        assert known + Unseen(known, ids, keep) == known + [ids[0]] + Unseen(known + [ids[0]], ids[1..], keep);
      } else {
        assert Unseen(known, ids, keep) == Unseen(known, ids[1..], keep);
      }
    } else {
      assert known + Unseen(known, ids, keep) == known;
    }
  }

  // ---------------------------------------------------------------------------------------
  // Items of a turn that both sides show in progress.

  /** Native text is the source until the item completes; then persisted text is. */
  function ItemOutcome(persisted: Option<Item>, cached: Option<Item>, completed: bool): Option<Item> {
    if cached.None? || (persisted.Some? && completed) then persisted else cached
  }

  /** The cached item the current connection vouches for. */
  function LiveItemOf(cache: seq<Item>, thread: Name, turn: Name, live: map<ItemKey, LiveItem>, epoch: nat,
                      legacy: bool, id: Name): Option<Item>
  {
    var item := Itemed(cache, id);
    if item.Some? && Eligible(item.value, ItemKey(thread, turn, id), live, epoch, legacy) then item else None
  }

  predicate Completed(thread: Name, turn: Name, live: map<ItemKey, LiveItem>, id: Name) {
    var key := ItemKey(thread, turn, id);
    key in live && live[key].completed
  }

  lemma {:induction false} ReplacedItem(items: seq<Item>, at: nat, item: Item, id: Name)
    requires at < |items| && item.id == items[at].id
    ensures FindItem(items[at := item], id) == FindItem(items, id)
  {
    var k, changed := FindItem(items, id), items[at := item];
    forall j | 0 <= j < k ensures changed[j].id != id {
      assert items[j].id != id;
    }
    FirstItem(changed, id, k);
  }

  lemma {:induction false} AppendedItem(items: seq<Item>, item: Item, id: Name)
    ensures FindItem(items + [item], id)
            == if FindItem(items, id) < |items| || item.id == id then FindItem(items, id) else |items| + 1
  {
    var k := FindItem(items, id);
    forall j | 0 <= j < k ensures (items + [item])[j].id != id {
      assert items[j].id != id;
    }
    FirstItem(items + [item], id, if k < |items| || item.id == id then k else |items| + 1);
  }

  lemma {:induction false} MergeItemLookup(items: seq<Item>, cached: Item, completed: bool, id: Name)
    ensures Itemed(MergeItem(items, cached, completed), id)
            == if id == cached.id then ItemOutcome(Itemed(items, id), Some(cached), completed) else Itemed(items, id)
  {
    var at := FindItem(items, cached.id);
    if at < |items| {
      ReplacedItem(items, at, cached, id);
    } else {
      AppendedItem(items, cached, id);
    }
  }

  lemma {:induction false} DistinctItemTail(items: seq<Item>, id: Name)
    requires items != [] && NoRepeats(ItemIds(items))
    ensures NoRepeats(ItemIds(items[1..]))
    ensures items[0].id == id ==> Itemed(items, id) == Some(items[0]) && Itemed(items[1..], id) == None
    ensures items[0].id != id ==> Itemed(items[1..], id) == Itemed(items, id)
  {
    assert ItemIds(items[1..]) == ItemIds(items)[1..];
    if items[0].id == id {
      forall j | 0 <= j < |items| - 1 ensures items[1..][j].id != id {
        assert ItemIds(items)[0] != ItemIds(items)[j + 1];
      }
      FirstItem(items[1..], id, |items| - 1);
    }
  }

  /** The second merge loop: each lookup afterwards is the outcome of the two lookups before. */
  lemma {:induction false} MergeItemsLookup(items: seq<Item>, cache: seq<Item>, thread: Name, turn: Name,
                                           live: map<ItemKey, LiveItem>, epoch: nat, legacy: bool, id: Name)
    requires NoRepeats(ItemIds(cache))
    ensures Itemed(MergeItems(items, cache, thread, turn, live, epoch, legacy), id)
            == ItemOutcome(Itemed(items, id), LiveItemOf(cache, thread, turn, live, epoch, legacy, id),
                           Completed(thread, turn, live, id))
    decreases |cache|
  {
    hide MergeItem, Itemed, FindItem, NoRepeats, ItemIds, AliasKind;
    if cache != [] {
      var key := ItemKey(thread, turn, cache[0].id);
      var merged := if Eligible(cache[0], key, live, epoch, legacy) then MergeItem(items, cache[0], live[key].completed)
                    else items;
      if key in live {
        MergeItemLookup(items, cache[0], live[key].completed, id);
      }
      DistinctItemTail(cache, id);
      MergeItemsLookup(merged, cache[1..], thread, turn, live, epoch, legacy, id);
    } else {
      EmptyItemLookup(id);
    }
  }

  lemma {:induction false} EmptyItemLookup(id: Name)
    ensures Itemed([], id) == None
  {
  }

  lemma {:induction false} MergeItemIds(items: seq<Item>, cached: Item, completed: bool)
    ensures ItemIds(MergeItem(items, cached, completed))
            == if cached.id in ItemIds(items) then ItemIds(items) else ItemIds(items) + [cached.id]
  {
    var k := FindItem(items, cached.id);
    if k < |items| {
      assert ItemIds(items)[k] == cached.id;
    }
  }

  lemma {:induction false} MergeItemsIds(items: seq<Item>, cache: seq<Item>, thread: Name, turn: Name,
                                        live: map<ItemKey, LiveItem>, epoch: nat, legacy: bool, keep: Name -> bool)
    requires NoRepeats(ItemIds(cache))
    requires forall k :: 0 <= k < |cache| ==>
      keep(cache[k].id) == Eligible(cache[k], ItemKey(thread, turn, cache[k].id), live, epoch, legacy)
    ensures ItemIds(MergeItems(items, cache, thread, turn, live, epoch, legacy))
            == ItemIds(items) + Unseen(ItemIds(items), ItemIds(cache), keep)
    decreases |cache|
  {
    hide MergeItem, NoRepeats, AliasKind, FindItem;
    var known, ids := ItemIds(items), ItemIds(cache);
    if cache != [] {
      var key := ItemKey(thread, turn, cache[0].id);
      var merged := if keep(cache[0].id) then MergeItem(items, cache[0], live[key].completed) else items;
      assert ItemIds(cache[1..]) == ids[1..] && ids == [ids[0]] + ids[1..];
      RepeatsOf(ids[1..], ids[0]);
      if keep(cache[0].id) {
        MergeItemIds(items, cache[0], live[key].completed);
      }
      assert forall k :: 0 <= k < |cache[1..]| ==> cache[1..][k] == cache[k + 1];
      MergeItemsIds(merged, cache[1..], thread, turn, live, epoch, legacy, keep);
      if keep(ids[0]) && ids[0] !in known {
        UnseenAfter(known, ids[0], ids[1..], keep);
        assert known + Unseen(known, ids, keep) == known + [ids[0]] + Unseen(known + [ids[0]], ids[1..], keep);
      } else {
        assert Unseen(known, ids, keep) == Unseen(known, ids[1..], keep);
      }
    } else {
      assert known + Unseen(known, ids, keep) == known;
    }
  }

  lemma {:induction false} MergeItemsDistinct(items: seq<Item>, cache: seq<Item>, thread: Name, turn: Name,
                                             live: map<ItemKey, LiveItem>, epoch: nat, legacy: bool)
    requires NoRepeats(ItemIds(items)) && NoRepeats(ItemIds(cache))
    ensures NoRepeats(ItemIds(MergeItems(items, cache, thread, turn, live, epoch, legacy)))
  {
    hide MergeItems, Unseen, NoRepeats, Eligible;
    var keep := (id: Name) => LiveItemOf(cache, thread, turn, live, epoch, legacy, id).Some?;
    forall k | 0 <= k < |cache|
      ensures keep(cache[k].id) == Eligible(cache[k], ItemKey(thread, turn, cache[k].id), live, epoch, legacy)
    {
      FoundAt(cache, k);
    }
    MergeItemsIds(items, cache, thread, turn, live, epoch, legacy, keep);
    UnseenDistinct(ItemIds(items), ItemIds(cache), keep);
  }

  lemma {:induction false} FoundAt(items: seq<Item>, k: nat)
    requires k < |items| && NoRepeats(ItemIds(items))
    ensures Itemed(items, items[k].id) == Some(items[k])
  {
    forall j | 0 <= j < k ensures items[j].id != items[k].id {
      assert ItemIds(items)[j] != ItemIds(items)[k];
    }
    FirstItem(items, items[k].id, k);
  }

  lemma {:induction false} TurnFoundAt(turns: seq<Turn>, k: nat)
    requires k < |turns| && NoRepeats(TurnIds(turns))
    ensures Turned(turns, turns[k].id) == Some(turns[k])
  {
    forall j | 0 <= j < k ensures turns[j].id != turns[k].id {
      assert TurnIds(turns)[j] != TurnIds(turns)[k];
    }
    FirstTurn(turns, turns[k].id, k);
  }

  /** Merging a turn's own items into it changes nothing. */
  lemma {:induction false} SelfMerge(items: seq<Item>, thread: Name, turn: Name, live: map<ItemKey, LiveItem>,
                                     epoch: nat,
                                    legacy: bool, j: nat)
    requires NoRepeats(ItemIds(items)) && j <= |items|
    ensures MergeItems(items, items[j..], thread, turn, live, epoch, legacy) == items
    decreases |items| - j
  {
    hide NoRepeats, ItemIds, AliasKind;
    if j < |items| {
      assert items[j..][0] == items[j] && items[j..][1..] == items[j + 1..];
      FoundAt(items, j);
      var k := FindItem(items, items[j].id);
      assert items[k := items[j]] == items;
      SelfMerge(items, thread, turn, live, epoch, legacy, j + 1);
    }
  }

  // ---------------------------------------------------------------------------------------
  // The whole merge.

  lemma {:induction false} MergeLiveLookup(turns: seq<Turn>, cache: seq<Turn>, thread: Name, live: map<ItemKey,
                                           LiveItem>,
                                          epoch: nat, legacy: bool, id: Name)
    ensures var found := Turned(turns, id);
            Turned(MergeLive(turns, cache, thread, live, epoch, legacy), id)
            == if found.None? then None else Some(OpenTurnMerged(found.value, cache, thread, live, epoch, legacy))
  {
    hide OpenTurnMerged, MergeLive;
    var merged := MergeLive(turns, cache, thread, live, epoch, legacy);
    var k := FindTurn(turns, id);
    forall j | 0 <= j < |turns| ensures merged[j].id == turns[j].id {
      OpenTurnKeepsMetadata(turns[j], cache, thread, live, epoch, legacy);
    }
    forall j | 0 <= j < k ensures merged[j].id != id {
      assert turns[j].id != id;
    }
    FirstTurn(merged, id, k);
  }

  lemma {:induction false} OpenTurnKeepsMetadata(turn: Turn, cache: seq<Turn>, thread: Name, live: map<ItemKey,
                                                 LiveItem>,
                                                epoch: nat, legacy: bool)
    ensures var merged := OpenTurnMerged(turn, cache, thread, live, epoch, legacy);
            merged == turn.(items := merged.items) && (!turn.status.InProgress? ==> merged == turn)
  {
  }

  lemma {:induction false} OpenTurnFound(cache: seq<Turn>, id: Name)
    requires NoRepeats(TurnIds(cache))
    ensures var k := FindOpenTurn(cache, id);
            k < |cache| <==> Turned(cache, id).Some? && Turned(cache, id).value.status.InProgress?
    ensures var k := FindOpenTurn(cache, id); k < |cache| ==> Turned(cache, id) == Some(cache[k])
  {
    var k := FindOpenTurn(cache, id);
    if k < |cache| {
      TurnFoundAt(cache, k);
    }
  }

  /** A snapshot merged under watermark `after` passes every fence. */
  predicate Accepted(s: Model, result: Snapshot, after: nat, scope: Scope) {
    && result.thread.Some? && !Invalidated(s, result.thread.value.id, after)
    && (s.restricted ==> Permits(scope, SnapshotCwd(result)))
  }

  lemma {:induction false} AcceptedThread(s: Model, result: Snapshot, after: nat, scope: Scope)
    requires Accepted(s, result, after, scope)
    ensures var t := Remember(s, result, Some(after), scope);
            var id := result.thread.value.id;
            && t.cache.threads == s.cache.threads[id := MergedThread(s, result, Some(after))]
            && t.cache.settings == if Newer(s.stamps.settings, id, after) then s.cache.settings
                                   else s.cache.settings[id := result.settings]
  {
    hide MergedThread, RetainPlans, RetainedLive, RetainedProvisional, Invalidated, Permits;
    RetainPrepares(Absorb(s, result, Some(after)), result.thread.value.id, Some(after));
  }

  /** Where each turn of an accepted merge comes from. */
  lemma {:induction false} MergedTurnLookup(s: Model, result: Snapshot, after: nat, scope: Scope, turn: Name)
    requires Accepted(s, result, after, scope)
    requires NoRepeats(TurnIds(CacheOf(s, result.thread.value.id)))
    ensures var thread := result.thread.value;
            var cache := CacheOf(s, thread.id);
            var outcome := TurnOutcome(Turned(thread.turns, turn),
                                       NewerTurn(cache, thread.id, s.stamps.turns, after, turn), thread.legacy);
            Turned(CacheOf(Remember(s, result, Some(after), scope), thread.id), turn)
            == if outcome.None? then None
               else Some(OpenTurnMerged(outcome.value, cache, thread.id, s.streams.live, NativeEpoch(s), thread.legacy))
  {
    hide Remember, OpenTurnMerged, MergeNewer, MergeLive, Turned, NoRepeats, Invalidated, Permits;
    var thread := result.thread.value;
    var cache := CacheOf(s, thread.id);
    AcceptedThread(s, result, after, scope);
    MergeNewerLookup(thread.turns, cache, thread.id, s.stamps.turns, after, thread.legacy, turn);
    MergeLiveLookup(MergeNewer(thread.turns, cache, thread.id, s.stamps.turns, after, thread.legacy),
                    cache, thread.id, s.streams.live, NativeEpoch(s), thread.legacy, turn);
  }

  /** The items of an open turn after a merge with the open cached turn of the same id. */
  lemma {:induction false} OpenTurnItems(turn: Turn, cache: seq<Turn>, thread: Name, live: map<ItemKey, LiveItem>,
                                        epoch: nat, legacy: bool, item: Name)
    requires WellFormed(cache) && turn.status.InProgress?
    ensures var cached := Turned(cache, turn.id);
            Itemed(OpenTurnMerged(turn, cache, thread, live, epoch, legacy).items, item)
            == if cached.None? || !cached.value.status.InProgress? then Itemed(turn.items, item)
               else ItemOutcome(Itemed(turn.items, item),
                                LiveItemOf(cached.value.items, thread, turn.id, live, epoch, legacy, item),
                                Completed(thread, turn.id, live, item))
  {
    hide MergeItems, Itemed, LiveItemOf, Turned, NoRepeats;
    OpenTurnFound(cache, turn.id);
    var k := FindOpenTurn(cache, turn.id);
    if k < |cache| {
      MergeItemsLookup(turn.items, cache[k].items, thread, turn.id, live, epoch, legacy, item);
    }
  }

  /**
    An accepted merge keeps every cached turn touched after its watermark. A newer terminal turn
    wins, a persisted terminal turn is not reverted by a cached one in progress, and a turn both
    show in progress keeps its persisted metadata (its items: `OpenItemsKept`).
  */
  lemma {:induction false} MergeLosesNothingNewer(s: Model, result: Snapshot, after: nat, scope: Scope, turn: Name)
    requires Accepted(s, result, after, scope)
    requires var cache := CacheOf(s, result.thread.value.id);
             && WellFormed(cache)
             && NewerTurn(cache, result.thread.value.id, s.stamps.turns, after, turn).Some?
    ensures var thread := result.thread.value;
            var cached, persisted := Turned(CacheOf(s, thread.id), turn).value, Turned(thread.turns, turn);
            var kept := Turned(CacheOf(Remember(s, result, Some(after), scope), thread.id), turn);
            && kept.Some?
            && (!cached.status.InProgress? && !thread.legacy ==> kept.value == cached)
            && (!cached.status.InProgress? && thread.legacy ==>
                  kept.value == cached.(items := if persisted.Some? then persisted.value.items else []))
            && (cached.status.InProgress? && persisted.Some? && !persisted.value.status.InProgress? ==>
                  kept == persisted)
            && (cached.status.InProgress? && persisted.Some? ==>
                  kept.value == persisted.value.(items := kept.value.items))
            && (cached.status.InProgress? && persisted.None? && !thread.legacy ==> kept.value == cached)
            && (cached.status.InProgress? && persisted.None? && thread.legacy ==>
                  kept.value == cached.(items := kept.value.items))
  {
    hide Remember, Invalidated, Permits, OpenTurnMerged, NoRepeats, MergeItems, FindTurn;
    var thread := result.thread.value;
    var cache := CacheOf(s, thread.id);
    var cached := Turned(cache, turn).value;
    MergedTurnLookup(s, result, after, scope, turn);
    var outcome := TurnOutcome(Turned(thread.turns, turn), Some(cached), thread.legacy).value;
    OpenTurnKeepsMetadata(outcome, cache, thread.id, s.streams.live, NativeEpoch(s), thread.legacy);
    if cached.status.InProgress? && Turned(thread.turns, turn).None? && !thread.legacy {
      OwnTurnMerged(cache, turn, thread.id, s.streams.live, NativeEpoch(s));
    }
  }

  lemma {:induction false} OwnTurnMerged(cache: seq<Turn>, turn: Name, thread: Name, live: map<ItemKey, LiveItem>,
                                         epoch: nat)
    requires WellFormed(cache) && Turned(cache, turn).Some?
    ensures OpenTurnMerged(Turned(cache, turn).value, cache, thread, live, epoch, false) == Turned(cache, turn).value
  {
    hide MergeItems, NoRepeats;
    var own := Turned(cache, turn).value;
    OpenTurnFound(cache, turn);
    if own.status.InProgress? {
      assert own.items[0..] == own.items;
      SelfMerge(own.items, thread, turn, live, epoch, false, 0);
    }
  }

  /**
    Of a turn both sides show in progress, an item the current connection streams is the cached
    one until it completes, afterwards the persisted one if there is one; every other item is as
    persisted.
  */
  lemma {:induction false} OpenItemsKept(s: Model, result: Snapshot, after: nat, scope: Scope, turn: Name, item: Name)
    requires Accepted(s, result, after, scope)
    requires WellFormed(CacheOf(s, result.thread.value.id))
    requires Turned(CacheOf(s, result.thread.value.id), turn).Some?
    requires Turned(CacheOf(s, result.thread.value.id), turn).value.status.InProgress?
    requires Turned(result.thread.value.turns, turn).Some?
    requires Turned(result.thread.value.turns, turn).value.status.InProgress?
    ensures var thread := result.thread.value;
            var live, cached := s.streams.live, Turned(CacheOf(s, thread.id), turn).value;
            var kept := Turned(CacheOf(Remember(s, result, Some(after), scope), thread.id), turn);
            && kept.Some?
            && Itemed(kept.value.items, item)
               == ItemOutcome(Itemed(Turned(thread.turns, turn).value.items, item),
                              LiveItemOf(cached.items, thread.id, turn, live, NativeEpoch(s), thread.legacy, item),
                              Completed(thread.id, turn, live, item))
  {
    hide Remember, Invalidated, Permits, OpenTurnMerged, NoRepeats, FindTurn, FindItem;
    var thread := result.thread.value;
    var cache := CacheOf(s, thread.id);
    MergedTurnLookup(s, result, after, scope, turn);
    TurnedId(thread.turns, turn);
    OpenTurnItems(Turned(thread.turns, turn).value, cache, thread.id, s.streams.live, NativeEpoch(s), thread.legacy, item);
  }

  lemma {:induction false} TurnedId(turns: seq<Turn>, id: Name)
    ensures Turned(turns, id).Some? ==> Turned(turns, id).value.id == id && Turned(turns, id).value in turns
  {
  }

  /** Newer settings stay, with their directory; a newer status stays. */
  lemma {:induction false} MergeKeepsNewerSettingsAndStatus(s: Model, result: Snapshot, after: nat, scope: Scope)
    requires Accepted(s, result, after, scope)
    ensures var id := result.thread.value.id;
            var t := Remember(s, result, Some(after), scope);
            && id in t.cache.threads
            && (Newer(s.stamps.settings, id, after) ==> t.cache.settings == s.cache.settings)
            && (Newer(s.stamps.settings, id, after) && id in s.cache.settings && s.cache.settings[id].cwd.Some?
                ==> t.cache.threads[id].cwd == s.cache.settings[id].cwd)
            && (!Newer(s.stamps.settings, id, after) ==>
                  id in t.cache.settings && t.cache.settings[id] == result.settings
                  && t.cache.threads[id].cwd == result.thread.value.cwd)
            && (Newer(s.stamps.status, id, after) && id in s.cache.threads
                ==> t.cache.threads[id].status == s.cache.threads[id].status)
            && (!Newer(s.stamps.status, id, after) ==> t.cache.threads[id].status == result.thread.value.status)
            && (forall other :: other in s.cache.threads && other != id ==>
                  other in t.cache.threads && t.cache.threads[other] == s.cache.threads[other])
  {
    hide Remember, MergedTurns;
    AcceptedThread(s, result, after, scope);
  }

  /** Distinct turn and item ids stay distinct. */
  lemma {:induction false} MergeKeepsWellFormed(s: Model, result: Snapshot, after: nat, scope: Scope)
    requires Accepted(s, result, after, scope)
    requires WellFormed(CacheOf(s, result.thread.value.id)) && WellFormed(result.thread.value.turns)
    ensures WellFormed(CacheOf(Remember(s, result, Some(after), scope), result.thread.value.id))
  {
    hide Remember, Invalidated, Permits, MergeNewer, MergeLive, NoRepeats, Unseen;
    var thread := result.thread.value;
    var cache := CacheOf(s, thread.id);
    AcceptedThread(s, result, after, scope);
    var newer := MergeNewer(thread.turns, cache, thread.id, s.stamps.turns, after, thread.legacy);
    var keep := (id: Name) => Newer(s.stamps.turns, TurnKey(thread.id, id), after);
    MergeNewerIds(thread.turns, cache, thread.id, s.stamps.turns, after, thread.legacy, keep);
    UnseenDistinct(TurnIds(thread.turns), TurnIds(cache), keep);
    MergeNewerItems(thread.turns, cache, thread.id, s.stamps.turns, after, thread.legacy);
    MergeLiveWellFormed(newer, cache, thread.id, s.streams.live, NativeEpoch(s), thread.legacy);
  }

  ghost predicate ItemsDistinct(turns: seq<Turn>) {
    forall k :: 0 <= k < |turns| ==> NoRepeats(ItemIds(turns[k].items))
  }

  lemma {:induction false} MergeNewerItems(turns: seq<Turn>, cache: seq<Turn>, thread: Name, stamps: map<TurnKey, nat>,
                                          after: nat, legacy: bool)
    requires ItemsDistinct(turns) && ItemsDistinct(cache)
    ensures ItemsDistinct(MergeNewer(turns, cache, thread, stamps, after, legacy))
    decreases |cache|
  {
    hide FindTurn;
    if cache != [] {
      var merged := if Newer(stamps, TurnKey(thread, cache[0].id), after) then MergeTurn(turns, cache[0], legacy) else turns;
      assert ItemsDistinct(merged) by {
        assert NoRepeats(ItemIds([]));
      }
      MergeNewerItems(merged, cache[1..], thread, stamps, after, legacy);
    }
  }

  lemma {:induction false} MergeLiveWellFormed(turns: seq<Turn>, cache: seq<Turn>, thread: Name, live: map<ItemKey,
                                               LiveItem>,
                                              epoch: nat, legacy: bool)
    requires WellFormed(turns) && ItemsDistinct(cache)
    ensures WellFormed(MergeLive(turns, cache, thread, live, epoch, legacy))
  {
    hide MergeLive, NoRepeats, FindOpenTurn;
    var merged := MergeLive(turns, cache, thread, live, epoch, legacy);
    assert TurnIds(merged) == TurnIds(turns);
    forall k | 0 <= k < |merged| ensures NoRepeats(ItemIds(merged[k].items)) {
      var at := FindOpenTurn(cache, turns[k].id);
      if turns[k].status.InProgress? && at < |cache| {
        MergeItemsDistinct(turns[k].items, cache[at].items, thread, turns[k].id, live, epoch, legacy);
      }
    }
  }
}
