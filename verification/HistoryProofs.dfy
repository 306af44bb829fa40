/**
  The one-pass projection refines the declarative view: an invariant of the fold, record by
  record, and what it says of every accepted rollout.
*/
module RolloutRefinement {
  import opened Wrappers
  import opened Rollout

  function All(f: Fold): seq<Turn> {
    f.turns + if f.active.Some? then [f.active.value.turn] else []
  }

  ghost predicate DistinctTurns(turns: seq<Turn>) {
    forall i, j :: 0 <= i < j < |turns| ==> turns[i].id != turns[j].id
  }

  ghost predicate IdsIn(turns: seq<Turn>, ids: set<Name>) {
    forall k :: 0 <= k < |turns| ==> turns[k].id in ids
  }

  /** Nothing in the file names a turn that has not started. */
  ghost predicate Unheard(recs: seq<Record>, turn: Name) {
    && Select(recs, Ends(turn)) == []
    && Compactions(recs, turn) == []
    && FirstIds(recs, turn) == []
    && Current(recs) != Some(turn)
  }

  ghost predicate OneTurnPerItem(f: Fold, recs: seq<Record>) {
    forall turn, id {:trigger id in FirstIds(recs, turn)} ::
      id in FirstIds(recs, turn) ==> id in f.itemIds && f.itemIds[id].0 == turn
  }

  /** The turns so far, open or closed, are the declared turns of the records so far. */
  ghost predicate Refines(f: Fold, recs: seq<Record>, convert: Converter) {
    && All(f) == Declared(recs, convert)
    && DistinctTurns(All(f))
    && IdsIn(All(f), f.turnIds)
  }

  ghost predicate NothingUnheard(f: Fold, recs: seq<Record>) {
    forall turn :: turn !in f.turnIds ==> Unheard(recs, turn)
  }

  ghost predicate EndsSettle(f: Fold, recs: seq<Record>) {
    && (forall turn :: Select(recs, Ends(turn)) != [] ==> Select(recs, Ends(turn))[0].body.outcome.Some?)
    && (forall k :: 0 <= k < |f.turns| ==> Select(recs, Ends(f.turns[k].id)) != [])
  }

  ghost predicate ActiveFollows(f: Fold, recs: seq<Record>) {
    f.active.Some? ==>
      var p := f.active.value;
      && Current(recs) == Some(p.turn.id)
      && (p.terminal <==> Select(recs, Ends(p.turn.id)) != [])
      && (p.terminal ==> p.started == map[])
  }

  ghost predicate Inv(f: Fold, recs: seq<Record>, convert: Converter) {
    && f.nextOrdinal == |recs|
    && (!f.metaSeen ==> f == START && recs == [])
    && Refines(f, recs, convert)
    && NothingUnheard(f, recs)
    && OneTurnPerItem(f, recs)
    && EndsSettle(f, recs)
    && ActiveFollows(f, recs)
  }

  // ---------------------------------------------------------------------------------------
  // One more record at the end of the file.

  lemma {:induction false} SnocSelect(recs: seq<Record>, r: Record, s: Selector)
    ensures Select(recs + [r], s) == Select(recs, s) + if Matches(r, s) then [r] else []
  {
    assert (recs + [r])[..|recs|] == recs;
  }

  lemma {:induction false} SnocCurrent(recs: seq<Record>, r: Record)
    ensures Current(recs + [r]) == if r.body.TurnStart? then Some(r.body.turn) else Current(recs)
  {
    assert (recs + [r])[..|recs|] == recs;
  }

  lemma {:induction false} SnocCompactions(recs: seq<Record>, r: Record, turn: Name)
    ensures Compactions(recs + [r], turn)
            == Compactions(recs, turn) + if r.body.Compacted? && Current(recs) == Some(turn) then [r] else []
  {
    assert (recs + [r])[..|recs|] == recs;
  }

  lemma {:induction false} SnocFirstIds(recs: seq<Record>, r: Record, turn: Name)
    ensures FirstIds(recs + [r], turn) == FirstIds(recs, turn)
            + if Matches(r, Completes(turn)) && r.body.item.id !in FirstIds(recs, turn)
              then [r.body.item.id] else []
  {
    assert (recs + [r])[..|recs|] == recs;
  }

  lemma {:induction false} SnocItemView(recs: seq<Record>, r: Record, turn: Name, id: Name, convert: Converter)
    ensures Matches(r, CompletesItem(turn, id)) ==>
              ItemView(recs + [r], turn, id, convert)
              == View(id, Shown(convert, r), ItemView(recs, turn, id, convert).sources + [r])
    ensures !Matches(r, CompletesItem(turn, id)) ==>
              ItemView(recs + [r], turn, id, convert) == ItemView(recs, turn, id, convert)
  {
    SnocSelect(recs, r, CompletesItem(turn, id));
  }

  /** Whether `r` says something about a turn that has already started. */
  predicate Touches(recs: seq<Record>, r: Record, turn: Name) {
    Matches(r, Ends(turn)) || Matches(r, Completes(turn)) || (r.body.Compacted? && Current(recs) == Some(turn))
  }

  lemma {:induction false} FirstIdsDistinct(recs: seq<Record>, turn: Name)
    ensures forall i, j :: 0 <= i < j < |FirstIds(recs, turn)| ==> FirstIds(recs, turn)[i] != FirstIds(recs, turn)[j]
  {
    if recs != [] {
      FirstIdsDistinct(recs[..|recs| - 1], turn);
    }
  }

  lemma {:induction false} FirstIdsSeen(recs: seq<Record>, turn: Name, id: Name)
    ensures id in FirstIds(recs, turn) <==> Select(recs, CompletesItem(turn, id)) != []
  {
    if recs != [] {
      FirstIdsSeen(recs[..|recs| - 1], turn, id);
    }
  }

  lemma {:induction false} ItemViewsFrame(recs: seq<Record>, r: Record, turn: Name, convert: Converter)
    requires !Matches(r, Completes(turn))
    ensures ItemViews(recs + [r], turn, convert) == ItemViews(recs, turn, convert)
  {
    SnocFirstIds(recs, r, turn);
    var before, after := ItemViews(recs, turn, convert), ItemViews(recs + [r], turn, convert);
    forall k | 0 <= k < |before|
      ensures after[k] == before[k]
    {
      SnocItemView(recs, r, turn, FirstIds(recs, turn)[k], convert);
    }
    assert after == before;
  }

  lemma {:induction false} TurnViewFrame(recs: seq<Record>, r: Record, start: Record, convert: Converter)
    requires start.body.TurnStart? && !Touches(recs, r, start.body.turn)
    ensures TurnView(recs + [r], start, convert) == TurnView(recs, start, convert)
  {
    var id := start.body.turn;
    ItemViewsFrame(recs, r, id, convert);
    SnocSelect(recs, r, Ends(id));
    SnocCompactions(recs, r, id);
  }

  /** Pointwise, `after` is `before` with the completion `r` of the item `id` merged in. */
  ghost predicate Merged(before: seq<View>, after: seq<View>, id: Name, shown: string, r: Record) {
    && |before| <= |after| <= |before| + 1
    && (forall k :: 0 <= k < |before| ==>
          after[k] == if before[k].id == id then View(id, shown, before[k].sources + [r]) else before[k])
    && (|after| == |before| + 1 ==> after[|before|] == View(id, shown, [r]))
    && (|after| == |before| + 1 <==> FindView(before, id) == |before|)
  }

  lemma {:induction false} MergedIsUpsert(before: seq<View>, after: seq<View>, id: Name, shown: string, r: Record)
    requires forall i, j :: 0 <= i < j < |before| ==> before[i].id != before[j].id
    requires Merged(before, after, id, shown, r)
    ensures after == Upsert(before, id, shown, r)
  {
  }

  lemma {:induction false} ViewIds(recs: seq<Record>, turn: Name, convert: Converter)
    ensures |ItemViews(recs, turn, convert)| == |FirstIds(recs, turn)|
    ensures forall k :: 0 <= k < |FirstIds(recs, turn)|
                        ==> ItemViews(recs, turn, convert)[k].id == FirstIds(recs, turn)[k]
  {
  }

  lemma {:induction false} ViewsDistinct(recs: seq<Record>, turn: Name, convert: Converter)
    ensures var views := ItemViews(recs, turn, convert);
            forall i, j :: 0 <= i < j < |views| ==> views[i].id != views[j].id
  {
    FirstIdsDistinct(recs, turn);
    ViewIds(recs, turn, convert);
  }

  lemma {:induction false} FoundIffCompleted(recs: seq<Record>, turn: Name, id: Name, convert: Converter)
    ensures FindView(ItemViews(recs, turn, convert), id) == |FirstIds(recs, turn)| <==> id !in FirstIds(recs, turn)
  {
    ViewIds(recs, turn, convert);
    var views := ItemViews(recs, turn, convert);
    if id in FirstIds(recs, turn) {
      var k :| 0 <= k < |FirstIds(recs, turn)| && FirstIds(recs, turn)[k] == id;
      assert views[k].id == id;
    }
  }

  lemma {:induction false} ItemViewsMerged(recs: seq<Record>, r: Record, turn: Name, convert: Converter)
    requires Matches(r, Completes(turn))
    ensures Merged(ItemViews(recs, turn, convert), ItemViews(recs + [r], turn, convert),
                   r.body.item.id, Shown(convert, r), r)
  {
    var id := r.body.item.id;
    var ids := FirstIds(recs, turn);
    var before, after := ItemViews(recs, turn, convert), ItemViews(recs + [r], turn, convert);
    SnocFirstIds(recs, r, turn);
    FoundIffCompleted(recs, turn, id, convert);
    forall k | 0 <= k < |before|
      ensures after[k] == if before[k].id == id then View(id, Shown(convert, r), before[k].sources + [r])
                          else before[k]
    {
      SnocItemView(recs, r, turn, ids[k], convert);
    }
    if id !in ids {
      SnocItemView(recs, r, turn, id, convert);
      FirstIdsSeen(recs, turn, id);
    }
  }

  /** A completion record updates its item in place or appends it: what the fold does. */
  lemma {:induction false} ItemViewsUpsert(recs: seq<Record>, r: Record, turn: Name, convert: Converter)
    requires Matches(r, Completes(turn))
    ensures ItemViews(recs + [r], turn, convert)
            == Upsert(ItemViews(recs, turn, convert), r.body.item.id, Shown(convert, r), r)
  {
    ItemViewsMerged(recs, r, turn, convert);
    ViewsDistinct(recs, turn, convert);
    MergedIsUpsert(ItemViews(recs, turn, convert), ItemViews(recs + [r], turn, convert),
                   r.body.item.id, Shown(convert, r), r);
  }

  lemma {:induction false} ViewId(recs: seq<Record>, start: Record, convert: Converter)
    requires start.body.TurnStart?
    ensures TurnView(recs, start, convert).id == start.body.turn
  {
  }

  /** A record that starts no turn changes only the declared turns it touches. */
  lemma {:induction false} DeclaredFrame(recs: seq<Record>, r: Record, convert: Converter, k: nat)
    requires !r.body.TurnStart? && k < |Declared(recs, convert)|
    ensures |Declared(recs + [r], convert)| == |Declared(recs, convert)|
    ensures Declared(recs + [r], convert)[k].id == Declared(recs, convert)[k].id
    ensures !Touches(recs, r, Declared(recs, convert)[k].id)
            ==> Declared(recs + [r], convert)[k] == Declared(recs, convert)[k]
  {
    SnocSelect(recs, r, Starts);
    var start := Select(recs, Starts)[k];
    ViewId(recs, start, convert);
    ViewId(recs + [r], start, convert);
    if !Touches(recs, r, start.body.turn) {
      TurnViewFrame(recs, r, start, convert);
    }
  }

  lemma {:induction false} NewTurnView(recs: seq<Record>, r: Record, convert: Converter)
    requires r.body.TurnStart? && Unheard(recs, r.body.turn)
    ensures TurnView(recs + [r], r, convert) == FreshTurn(r.body.turn, r.body.startedAt, r)
  {
    var id := r.body.turn;
    SnocSelect(recs, r, Ends(id));
    SnocCompactions(recs, r, id);
    SnocFirstIds(recs, r, id);
  }

  lemma {:induction false} TurnViewsFrame(
      recs: seq<Record>, r: Record, starts: seq<Record>, convert: Converter)
    requires forall k :: 0 <= k < |starts| ==> starts[k].body.TurnStart?
    requires forall turn :: !Touches(recs, r, turn)
    ensures TurnViews(recs + [r], starts, convert) == TurnViews(recs, starts, convert)
  {
    if starts != [] {
      TurnViewsFrame(recs, r, starts[..|starts| - 1], convert);
      TurnViewFrame(recs, r, starts[|starts| - 1], convert);
    }
  }

  lemma {:induction false} DeclaredStart(recs: seq<Record>, r: Record, convert: Converter)
    requires r.body.TurnStart? && Unheard(recs, r.body.turn)
    ensures Declared(recs + [r], convert)
            == Declared(recs, convert) + [FreshTurn(r.body.turn, r.body.startedAt, r)]
  {
    SnocSelect(recs, r, Starts);
    NewTurnView(recs, r, convert);
    TurnViewsFrame(recs, r, Select(recs, Starts), convert);
    var starts := Select(recs + [r], Starts);
    assert starts[..|starts| - 1] == Select(recs, Starts);
  }

  // ---------------------------------------------------------------------------------------
  // What one record does to the turn it touches.

  lemma {:induction false} ViewAfterDone(recs: seq<Record>, r: Record, start: Record, convert: Converter)
    requires start.body.TurnStart? && Matches(r, Completes(start.body.turn))
    ensures var before := TurnView(recs, start, convert);
            TurnView(recs + [r], start, convert)
            == before.(items := Upsert(before.items, r.body.item.id, Shown(convert, r), r))
  {
    var id := start.body.turn;
    ItemViewsUpsert(recs, r, id, convert);
    SnocSelect(recs, r, Ends(id));
    SnocCompactions(recs, r, id);
  }

  lemma {:induction false} SettledSnoc(open: Turn, ends: seq<Record>, r: Record)
    requires forall k :: 0 <= k < |ends| ==> ends[k].body.Terminal?
    requires r.body.Terminal? && open.extra == []
    requires if ends == [] then r.body.outcome.Some? else ends[0].body.outcome.Some?
    ensures Settled(open, ends + [r])
            == if ends == [] then Close(open, r)
               else Settled(open, ends).(extra := Settled(open, ends).extra + [r])
  {
    if ends != [] {
      assert (ends + [r])[1..] == ends[1..] + [r];
    }
  }

  /** A terminal record leaves what its turn would show without an end. */
  lemma {:induction false} OpenViewFrame(recs: seq<Record>, r: Record, start: Record, convert: Converter)
    requires start.body.TurnStart? && r.body.Terminal?
    ensures OpenView(recs + [r], start, convert) == OpenView(recs, start, convert)
  {
    hide ItemViews, Compactions;
    ItemViewsFrame(recs, r, start.body.turn, convert);
    SnocCompactions(recs, r, start.body.turn);
  }

  lemma {:induction false} OpenIsPlain(recs: seq<Record>, start: Record, convert: Converter)
    requires start.body.TurnStart?
    ensures OpenView(recs, start, convert).extra == []
  {
    hide ItemViews, Compactions;
  }

  lemma {:induction false} SettledNone(open: Turn)
    ensures Settled(open, []) == open
  {
  }

  lemma {:induction false} ViewAfterEnd(recs: seq<Record>, r: Record, start: Record, convert: Converter)
    requires start.body.TurnStart? && Matches(r, Ends(start.body.turn))
    requires var ends := Select(recs, Ends(start.body.turn));
             if ends == [] then r.body.outcome.Some? else ends[0].body.outcome.Some?
    ensures var before := TurnView(recs, start, convert);
            TurnView(recs + [r], start, convert)
            == if Select(recs, Ends(start.body.turn)) == [] then Close(before, r)
               else before.(extra := before.extra + [r])
  {
    hide OpenView, Settled, Close;
    var id := start.body.turn;
    OpenViewFrame(recs, r, start, convert);
    OpenIsPlain(recs, start, convert);
    SnocSelect(recs, r, Ends(id));
    SettledNone(OpenView(recs, start, convert));
    SettledSnoc(OpenView(recs, start, convert), Select(recs, Ends(id)), r);
  }

  lemma {:induction false} ViewAfterCompaction(recs: seq<Record>, r: Record, start: Record, convert: Converter)
    requires start.body.TurnStart? && r.body.Compacted? && Current(recs) == Some(start.body.turn)
    requires Select(recs, Ends(start.body.turn)) == []
    ensures var before := TurnView(recs, start, convert);
            TurnView(recs + [r], start, convert) == before.(compactions := before.compactions + [r])
  {
    var id := start.body.turn;
    ItemViewsFrame(recs, r, id, convert);
    SnocSelect(recs, r, Ends(id));
    SnocCompactions(recs, r, id);
  }

  // ---------------------------------------------------------------------------------------
  // Preservation of the invariant.

  lemma {:induction false} UnheardFrame(recs: seq<Record>, r: Record, turn: Name)
    requires Unheard(recs, turn) && !Touches(recs, r, turn)
    requires r.body.TurnStart? ==> r.body.turn != turn
    ensures Unheard(recs + [r], turn)
  {
    SnocSelect(recs, r, Ends(turn));
    SnocCompactions(recs, r, turn);
    SnocFirstIds(recs, r, turn);
    SnocCurrent(recs, r);
  }

  /** Declared turns after a record that starts none and touches at most the turn at `at`. */
  lemma {:induction false} OnlyTouched(
      before: seq<Turn>, recs: seq<Record>, r: Record, convert: Converter, at: nat)
    requires before == Declared(recs, convert) && DistinctTurns(before)
    requires !r.body.TurnStart? && at < |before|
    requires forall id :: Touches(recs, r, id) ==> id == before[at].id
    ensures |Select(recs, Starts)| == |before|
    ensures Declared(recs + [r], convert)
            == before[at := TurnView(recs + [r], Select(recs, Starts)[at], convert)]
  {
    var after := Declared(recs + [r], convert);
    SnocSelect(recs, r, Starts);
    forall k | 0 <= k < |before|
      ensures |after| == |before| && (k != at ==> after[k] == before[k])
    {
      DeclaredFrame(recs, r, convert, k);
    }
  }

  lemma {:induction false} ReplaceKeepsIds(before: seq<Turn>, ids: set<Name>, at: nat, turn: Turn)
    requires DistinctTurns(before) && IdsIn(before, ids)
    requires at < |before| && turn.id == before[at].id
    ensures DistinctTurns(before[at := turn]) && IdsIn(before[at := turn], ids)
  {
  }

  lemma {:induction false} TouchKeepsUnheard(f: Fold, g: Fold, recs: seq<Record>, r: Record, turn: Name)
    requires NothingUnheard(f, recs) && !r.body.TurnStart? && g.turnIds == f.turnIds
    requires turn in f.turnIds && forall id :: Touches(recs, r, id) ==> id == turn
    ensures NothingUnheard(g, recs + [r])
  {
    forall id | id !in g.turnIds
      ensures Unheard(recs + [r], id)
    {
      UnheardFrame(recs, r, id);
    }
  }

  /** The fold replaced one turn by its new view: the refinement carries over. */
  lemma {:induction false} TouchRefines(
      f: Fold, g: Fold, recs: seq<Record>, r: Record, convert: Converter, at: nat, turn: Turn)
    requires Refines(f, recs, convert) && NothingUnheard(f, recs)
    requires !r.body.TurnStart? && g.turnIds == f.turnIds
    requires at < |All(f)| && All(g) == All(f)[at := turn]
    requires forall id :: Touches(recs, r, id) ==> id == All(f)[at].id
    requires |Select(recs, Starts)| == |All(f)|
    requires turn == TurnView(recs + [r], Select(recs, Starts)[at], convert)
    ensures Refines(g, recs + [r], convert) && NothingUnheard(g, recs + [r])
  {
    var before := All(f);
    var start := Select(recs, Starts)[at];
    ViewId(recs, start, convert);
    ViewId(recs + [r], start, convert);
    OnlyTouched(before, recs, r, convert, at);
    ReplaceKeepsIds(before, f.turnIds, at, turn);
    TouchKeepsUnheard(f, g, recs, r, before[at].id);
  }

  /** What `CompleteItem` changes: the items of one turn, which is open or already closed. */
  lemma {:induction false} DoneEffect(f: Fold, g: Fold, r: Record, e: Expected, convert: Converter) returns (at: nat)
    requires r.body.ItemDone? && Step(f, r, e, convert) == Some(g)
    ensures at < |All(f)| && All(f)[at].id == r.body.turn
    ensures var items := Upsert(All(f)[at].items, r.body.item.id, Shown(convert, r), r);
            All(g) == All(f)[at := All(f)[at].(items := items)]
    ensures g.turnIds == f.turnIds
  {
    at := if IsActive(f, r.body.turn) then |f.turns| else FindTurn(f.turns, r.body.turn);
  }

  lemma {:induction false} DoneRefines(
      f: Fold, g: Fold, recs: seq<Record>, r: Record, e: Expected, convert: Converter)
    requires Refines(f, recs, convert) && NothingUnheard(f, recs) && r.body.ItemDone?
    requires Step(f, r, e, convert) == Some(g)
    ensures Refines(g, recs + [r], convert) && NothingUnheard(g, recs + [r])
  {
    var at := DoneEffect(f, g, r, e, convert);
    var start := Select(recs, Starts)[at];
    ViewId(recs, start, convert);
    ViewAfterDone(recs, r, start, convert);
    TouchRefines(f, g, recs, r, convert, at, TurnView(recs + [r], start, convert));
  }

  lemma {:induction false} DoneKeepsItems(
      f: Fold, g: Fold, recs: seq<Record>, r: Record, e: Expected, convert: Converter)
    requires OneTurnPerItem(f, recs) && r.body.ItemDone?
    requires Step(f, r, e, convert) == Some(g)
    ensures OneTurnPerItem(g, recs + [r])
  {
    forall other, id | id in FirstIds(recs + [r], other)
      ensures id in g.itemIds && g.itemIds[id].0 == other
    {
      SnocFirstIds(recs, r, other);
    }
  }

  /** A record that ends nothing leaves every terminal selection alone. */
  lemma {:induction false} EndsFrame(recs: seq<Record>, r: Record)
    requires !r.body.Terminal?
    ensures forall turn :: Select(recs + [r], Ends(turn)) == Select(recs, Ends(turn))
  {
    forall turn ensures Select(recs + [r], Ends(turn)) == Select(recs, Ends(turn)) {
      SnocSelect(recs, r, Ends(turn));
    }
  }

  lemma {:induction false} DoneKeepsActive(
      f: Fold, g: Fold, recs: seq<Record>, r: Record, e: Expected, convert: Converter)
    requires ActiveFollows(f, recs) && EndsSettle(f, recs) && r.body.ItemDone?
    requires Step(f, r, e, convert) == Some(g)
    ensures ActiveFollows(g, recs + [r]) && EndsSettle(g, recs + [r])
  {
    EndsFrame(recs, r);
    SnocCurrent(recs, r);
    assert |g.turns| == |f.turns|;
    assert forall k :: 0 <= k < |f.turns| ==> g.turns[k].id == f.turns[k].id;
  }

  lemma {:induction false} FirstIdsFrame(f: Fold, g: Fold, recs: seq<Record>, r: Record)
    requires OneTurnPerItem(f, recs) && !r.body.ItemDone? && g.itemIds == f.itemIds
    ensures OneTurnPerItem(g, recs + [r])
  {
    forall turn ensures FirstIds(recs + [r], turn) == FirstIds(recs, turn) {
      SnocFirstIds(recs, r, turn);
    }
  }

  /** What `EndTurn` changes: the open turn is settled or annotated, and perhaps closed. */
  lemma {:induction false} EndEffect(f: Fold, g: Fold, r: Record, e: Expected, convert: Converter)
    requires r.body.Terminal? && Step(f, r, e, convert) == Some(g)
    ensures f.active.Some? && f.active.value.turn.id == r.body.turn
    ensures var p := f.active.value;
            && (!p.terminal ==> r.body.outcome.Some?)
            && All(g) == f.turns + [if p.terminal then p.turn.(extra := p.turn.extra + [r]) else Close(p.turn, r)]
    ensures g.turnIds == f.turnIds && g.itemIds == f.itemIds
    ensures g.turns == f.turns || (g.active.None? && |g.turns| == |f.turns| + 1 && g.turns == All(g))
    ensures g.active.Some? ==> g.active.value.terminal && g.active.value.started == map[]
                               && g.active.value.turn.id == r.body.turn
  {
  }

  lemma {:induction false} EndRefines(
      f: Fold, g: Fold, recs: seq<Record>, r: Record, e: Expected, convert: Converter)
    requires Refines(f, recs, convert) && NothingUnheard(f, recs) && EndsSettle(f, recs)
    requires ActiveFollows(f, recs) && r.body.Terminal?
    requires Step(f, r, e, convert) == Some(g)
    ensures Refines(g, recs + [r], convert) && NothingUnheard(g, recs + [r])
  {
    EndEffect(f, g, r, e, convert);
    var at := |f.turns|;
    assert All(f)[at] == f.active.value.turn;
    var start := Select(recs, Starts)[at];
    ViewId(recs, start, convert);
    ViewAfterEnd(recs, r, start, convert);
    assert All(g) == All(f)[at := TurnView(recs + [r], start, convert)];
    TouchRefines(f, g, recs, r, convert, at, TurnView(recs + [r], start, convert));
  }

  lemma {:induction false} EndKeepsActive(
      f: Fold, g: Fold, recs: seq<Record>, r: Record, e: Expected, convert: Converter)
    requires EndsSettle(f, recs) && ActiveFollows(f, recs) && r.body.Terminal?
    requires Step(f, r, e, convert) == Some(g)
    ensures ActiveFollows(g, recs + [r]) && EndsSettle(g, recs + [r])
  {
    EndEffect(f, g, r, e, convert);
    SnocCurrent(recs, r);
    forall turn
      ensures Select(recs + [r], Ends(turn)) == Select(recs, Ends(turn)) + if turn == r.body.turn then [r] else []
    {
      SnocSelect(recs, r, Ends(turn));
    }
    forall k | 0 <= k < |g.turns|
      ensures Select(recs + [r], Ends(g.turns[k].id)) != []
    {
      assert k < |f.turns| ==> g.turns[k] == f.turns[k];
      assert k == |f.turns| ==> g.turns[k].id == r.body.turn;
    }
  }

  lemma {:induction false} CompactRefines(
      f: Fold, g: Fold, recs: seq<Record>, r: Record, e: Expected, convert: Converter)
    requires Refines(f, recs, convert) && NothingUnheard(f, recs) && ActiveFollows(f, recs)
    requires r.body.Compacted? && Step(f, r, e, convert) == Some(g)
    ensures Refines(g, recs + [r], convert) && NothingUnheard(g, recs + [r])
  {
    var at := |f.turns|;
    assert All(f)[at] == f.active.value.turn;
    var start := Select(recs, Starts)[at];
    ViewId(recs, start, convert);
    ViewAfterCompaction(recs, r, start, convert);
    assert All(g) == All(f)[at := TurnView(recs + [r], start, convert)];
    TouchRefines(f, g, recs, r, convert, at, TurnView(recs + [r], start, convert));
  }

  /** A record that touches no turn leaves the declared turns alone. */
  lemma {:induction false} QuietRefines(f: Fold, g: Fold, recs: seq<Record>, r: Record, convert: Converter)
    requires Refines(f, recs, convert) && NothingUnheard(f, recs)
    requires !r.body.TurnStart? && !r.body.ItemDone? && !r.body.Terminal? && !r.body.Compacted?
    requires All(g) == All(f) && g.turnIds == f.turnIds
    ensures Refines(g, recs + [r], convert) && NothingUnheard(g, recs + [r])
  {
    var before := All(f);
    SnocSelect(recs, r, Starts);
    forall k | 0 <= k < |before|
      ensures Declared(recs + [r], convert)[k] == before[k]
    {
      DeclaredFrame(recs, r, convert, k);
    }
    assert Declared(recs + [r], convert) == before;
    forall id | id !in g.turnIds
      ensures Unheard(recs + [r], id)
    {
      UnheardFrame(recs, r, id);
    }
  }

  lemma {:induction false} StartEffect(f: Fold, g: Fold, r: Record, e: Expected, convert: Converter)
    requires r.body.TurnStart? && Step(f, r, e, convert) == Some(g)
    ensures g.turns == All(f) && (f.active.Some? ==> f.active.value.terminal)
    ensures g.active == Some(Pending(FreshTurn(r.body.turn, r.body.startedAt, r), map[], false))
    ensures r.body.turn !in f.turnIds && g.turnIds == f.turnIds + {r.body.turn} && g.itemIds == f.itemIds
  {
  }

  lemma {:induction false} AppendKeepsIds(before: seq<Turn>, ids: set<Name>, turn: Turn)
    requires DistinctTurns(before) && IdsIn(before, ids) && turn.id !in ids
    ensures DistinctTurns(before + [turn]) && IdsIn(before + [turn], ids + {turn.id})
  {
  }

  lemma {:induction false} StartRefines(
      f: Fold, g: Fold, recs: seq<Record>, r: Record, e: Expected, convert: Converter)
    requires Refines(f, recs, convert) && NothingUnheard(f, recs)
    requires r.body.TurnStart? && Step(f, r, e, convert) == Some(g)
    ensures Refines(g, recs + [r], convert) && NothingUnheard(g, recs + [r])
  {
    StartEffect(f, g, r, e, convert);
    DeclaredStart(recs, r, convert);
    AppendKeepsIds(All(f), f.turnIds, FreshTurn(r.body.turn, r.body.startedAt, r));
    forall id | id !in g.turnIds
      ensures Unheard(recs + [r], id)
    {
      UnheardFrame(recs, r, id);
    }
  }

  lemma {:induction false} StartKeepsActive(
      f: Fold, g: Fold, recs: seq<Record>, r: Record, e: Expected, convert: Converter)
    requires EndsSettle(f, recs) && ActiveFollows(f, recs) && NothingUnheard(f, recs)
    requires r.body.TurnStart? && Step(f, r, e, convert) == Some(g)
    ensures ActiveFollows(g, recs + [r]) && EndsSettle(g, recs + [r])
  {
    StartEffect(f, g, r, e, convert);
    SnocCurrent(recs, r);
    EndsFrame(recs, r);
    forall k | 0 <= k < |g.turns|
      ensures Select(recs + [r], Ends(g.turns[k].id)) != []
    {
      assert k < |f.turns| ==> g.turns[k] == f.turns[k];
    }
  }

  lemma {:induction false} QuietKeepsActive(f: Fold, g: Fold, recs: seq<Record>, r: Record, e: Expected,
                                            convert: Converter)
    requires ActiveFollows(f, recs) && EndsSettle(f, recs)
    requires !r.body.TurnStart? && !r.body.ItemDone? && !r.body.Terminal?
    requires Step(f, r, e, convert) == Some(g)
    ensures ActiveFollows(g, recs + [r]) && EndsSettle(g, recs + [r])
  {
    EndsFrame(recs, r);
    SnocCurrent(recs, r);
    assert g.turns == f.turns;
  }

  lemma {:induction false} StepBasics(f: Fold, g: Fold, r: Record, e: Expected, convert: Converter)
    requires Step(f, r, e, convert) == Some(g)
    ensures g.nextOrdinal == f.nextOrdinal + 1 && g.metaSeen
    ensures !r.body.ItemDone? ==> g.itemIds == f.itemIds
    ensures !r.body.TurnStart? && !r.body.ItemDone? && !r.body.Terminal? && !r.body.Compacted?
            ==> All(g) == All(f) && g.turnIds == f.turnIds
  {
  }

  lemma {:induction false} StepRefines(
      f: Fold, g: Fold, recs: seq<Record>, r: Record, e: Expected, convert: Converter)
    requires Inv(f, recs, convert)
    requires Step(f, r, e, convert) == Some(g)
    ensures Refines(g, recs + [r], convert) && NothingUnheard(g, recs + [r])
  {
    if r.body.ItemDone? {
      DoneRefines(f, g, recs, r, e, convert);
    } else if r.body.TurnStart? {
      StartRefines(f, g, recs, r, e, convert);
    } else if r.body.Terminal? {
      EndRefines(f, g, recs, r, e, convert);
    } else if r.body.Compacted? {
      CompactRefines(f, g, recs, r, e, convert);
    } else {
      StepBasics(f, g, r, e, convert);
      QuietRefines(f, g, recs, r, convert);
    }
  }

  lemma {:induction false} StepKeepsActive(
      f: Fold, g: Fold, recs: seq<Record>, r: Record, e: Expected, convert: Converter)
    requires Inv(f, recs, convert)
    requires Step(f, r, e, convert) == Some(g)
    ensures ActiveFollows(g, recs + [r]) && EndsSettle(g, recs + [r])
  {
    if r.body.ItemDone? {
      DoneKeepsActive(f, g, recs, r, e, convert);
    } else if r.body.TurnStart? {
      StartKeepsActive(f, g, recs, r, e, convert);
    } else if r.body.Terminal? {
      EndKeepsActive(f, g, recs, r, e, convert);
    } else {
      QuietKeepsActive(f, g, recs, r, e, convert);
    }
  }

  lemma {:induction false} StepKeepsItems(
      f: Fold, g: Fold, recs: seq<Record>, r: Record, e: Expected, convert: Converter)
    requires OneTurnPerItem(f, recs)
    requires Step(f, r, e, convert) == Some(g)
    ensures OneTurnPerItem(g, recs + [r])
  {
    if r.body.ItemDone? {
      DoneKeepsItems(f, g, recs, r, e, convert);
    } else {
      StepBasics(f, g, r, e, convert);
      FirstIdsFrame(f, g, recs, r);
    }
  }

  lemma {:induction false} StepKeepsInv(
      f: Fold, g: Fold, recs: seq<Record>, r: Record, e: Expected, convert: Converter)
    requires Inv(f, recs, convert)
    requires Step(f, r, e, convert) == Some(g)
    ensures Inv(g, recs + [r], convert)
  {
    StepBasics(f, g, r, e, convert);
    StepRefines(f, g, recs, r, e, convert);
    StepKeepsActive(f, g, recs, r, e, convert);
    StepKeepsItems(f, g, recs, r, e, convert);
  }

  lemma {:induction false} FoldBack(lines: seq<Line>, n: nat, e: Expected, convert: Converter)
    requires 0 < n <= |lines| && FoldLines(lines, n, e, convert).Ok?
    ensures FoldLines(lines, n - 1, e, convert).Ok?
    ensures StepLine(FoldLines(lines, n - 1, e, convert).value, lines[n - 1], e, convert)
            == Some(FoldLines(lines, n, e, convert).value)
  {
  }

  lemma {:induction false} RecordsSnoc(lines: seq<Line>, n: nat)
    requires 0 < n <= |lines|
    ensures Records(lines[..n])
            == Records(lines[..n - 1]) + if lines[n - 1].Entry? then [lines[n - 1].record] else []
  {
    assert lines[..n][..n - 1] == lines[..n - 1];
  }

  lemma {:induction false} StartInv(convert: Converter)
    ensures Inv(START, [], convert)
  {
  }

  lemma {:induction false} FoldInv(lines: seq<Line>, n: nat, e: Expected, convert: Converter)
    requires n <= |lines| && FoldLines(lines, n, e, convert).Ok?
    ensures Inv(FoldLines(lines, n, e, convert).value, Records(lines[..n]), convert)
  {
    if n == 0 {
      StartInv(convert);
    } else {
      FoldBack(lines, n, e, convert);
      FoldInv(lines, n - 1, e, convert);
      RecordsSnoc(lines, n);
      LineKeepsInv(FoldLines(lines, n - 1, e, convert).value, FoldLines(lines, n, e, convert).value,
                   Records(lines[..n - 1]), lines[n - 1], e, convert);
    }
  }

  lemma {:induction false} LineKeepsInv(
      f: Fold, g: Fold, recs: seq<Record>, line: Line, e: Expected, convert: Converter)
    requires Inv(f, recs, convert)
    requires StepLine(f, line, e, convert) == Some(g)
    ensures Inv(g, recs + if line.Entry? then [line.record] else [], convert)
  {
    if line.Entry? {
      StepKeepsInv(f, g, recs, line.record, e, convert);
    } else {
      assert recs + [] == recs;
    }
  }

  /** The projection of an accepted rollout is its declarative view. */
  lemma {:induction false} ProjectionRefines(lines: seq<Line>, e: Expected, convert: Converter)
    requires ProjectOf(Some(lines), e, convert).Ok?
    ensures ProjectOf(Some(lines), e, convert).value == Declared(Records(lines), convert)
  {
    FoldInv(lines, |lines|, e, convert);
    assert lines[..|lines|] == lines;
  }
}
