/**
  Which rollouts the projection accepts, and which line it blames for the others, said of the
  records alone: a record may follow others or may not, whatever the fold keeps in its tables.
*/
module RolloutAcceptance {
  import opened Wrappers
  import opened Rollout

  // ---------------------------------------------------------------------------------------
  // What records say.

  datatype Fact =
    | TurnBegan(turn: Name)
    | ItemOpened(turn: Name, item: Name, kind: Name)
    | ItemClosed(turn: Name, item: Name, kind: Name)
    | TurnOver(turn: Name, aborted: bool)

  function FactOf(r: Record): Option<Fact> {
    match r.body
    case TurnStart(turn, _, _) => Some(TurnBegan(turn))
    case ItemStart(_, turn, item) => Some(ItemOpened(turn, item.id, item.kind))
    case ItemDone(_, turn, item) => Some(ItemClosed(turn, item.id, item.kind))
    case Terminal(turn, _, aborted, _, _) => Some(TurnOver(turn, aborted))
    case _ => None
  }

  ghost predicate Said(recs: seq<Record>, fact: Fact) {
    exists k :: 0 <= k < |recs| && FactOf(recs[k]) == Some(fact)
  }

  ghost predicate Over(recs: seq<Record>, turn: Name) {
    Said(recs, TurnOver(turn, true)) || Said(recs, TurnOver(turn, false))
  }

  /** The item id has never been used. */
  ghost predicate FreshItem(recs: seq<Record>, item: Name) {
    && (forall turn, kind :: !Said(recs, ItemOpened(turn, item, kind)))
    && (forall turn, kind :: !Said(recs, ItemClosed(turn, item, kind)))
  }

  /** An item completes in one turn only, with one kind, which is the kind it was started with there. */
  ghost predicate SameItem(recs: seq<Record>, turn: Name, item: Name, kind: Name) {
    && (forall t, k :: Said(recs, ItemClosed(t, item, k)) ==> t == turn && k == kind)
    && (forall k :: Said(recs, ItemOpened(turn, item, k)) ==> k == kind)
  }

  ghost predicate AllCompleted(recs: seq<Record>, turn: Name) {
    forall item, kind :: Said(recs, ItemOpened(turn, item, kind)) ==> Said(recs, ItemClosed(turn, item, kind))
  }

  ghost predicate HasItems(recs: seq<Record>, turn: Name) {
    exists item, kind :: Said(recs, ItemClosed(turn, item, kind))
  }

  // ---------------------------------------------------------------------------------------
  // Which records may follow which.

  ghost predicate MayOpenSession(body: Body, e: Expected)
    requires body.SessionMeta?
  {
    body.metaThread == e.thread && body.cwd == Some(e.cwd) && body.mode == "paginated" && !body.inherited
  }

  /** A turn starts once, after the turn before it is over. */
  ghost predicate MayStartTurn(recs: seq<Record>, body: Body)
    requires body.TurnStart?
  {
    && (body.attribution == None || body.attribution == Some(body.turn))
    && !Said(recs, TurnBegan(body.turn))
    && (Current(recs).Some? ==> Over(recs, Current(recs).value))
  }

  ghost predicate MayStartItem(recs: seq<Record>, body: Body, thread: Name)
    requires body.ItemStart?
  {
    body.thread == thread && Current(recs) == Some(body.turn) && !Over(recs, body.turn) && FreshItem(recs, body.item.id)
  }

  /** An item may complete, and complete again, in any turn that has started. */
  ghost predicate MayCompleteItem(recs: seq<Record>, body: Body, thread: Name, convert: Converter)
    requires body.ItemDone?
  {
    && body.thread == thread && Said(recs, TurnBegan(body.turn)) && convert(body.item).Some?
    && SameItem(recs, body.turn, body.item.id, body.item.kind)
  }

  /**
    A turn may be aborted any number of times and then completed once, always with every item it
    started completed. Its first terminal event states an outcome; what it closes must show an item,
    an abort or an error.
  */
  ghost predicate MayEndTurn(recs: seq<Record>, body: Body)
    requires body.Terminal?
  {
    && (body.attribution == None || body.attribution == Some(body.turn))
    && Current(recs) == Some(body.turn) && !Said(recs, TurnOver(body.turn, false)) && AllCompleted(recs, body.turn)
    && (body.aborted ==> body.reason == "interrupted" || body.reason == "replaced"
                         || body.reason == "review_ended" || body.reason == "budget_limited")
    && (!Said(recs, TurnOver(body.turn, true)) ==>
          && body.outcome.Some?
          && (body.aborted || body.outcome.value.error.Some? || HasItems(recs, body.turn)))
  }

  /** Record `r` may follow `recs`. */
  ghost predicate Allowed(recs: seq<Record>, r: Record, e: Expected, convert: Converter) {
    && r.ordinal == Some(|recs|) && |recs| < MAX_ORDINAL
    && (recs == [] <==> r.body.SessionMeta?)
    && match r.body
       case SessionMeta(_, _, _, _) => MayOpenSession(r.body, e)
       case TurnStart(_, _, _) => MayStartTurn(recs, r.body)
       case ItemStart(_, _, _) => MayStartItem(recs, r.body, e.thread)
       case ItemDone(_, _, _) => MayCompleteItem(recs, r.body, e.thread, convert)
       case Terminal(_, _, _, _, _) => MayEndTurn(recs, r.body)
       case ResponseItem(compaction) => !compaction
       case Compacted => Current(recs).Some? && !Over(recs, Current(recs).value)
       case Inert => true
       case Unsupported => false
  }

  /** Line `k` is blank or holds a record that may follow those of the lines before it. */
  ghost predicate LineAllowed(lines: seq<Line>, k: nat, e: Expected, convert: Converter)
    requires k < |lines|
  {
    match lines[k]
    case Blank => true
    case Malformed => false
    case Entry(record) => Allowed(Records(lines[..k]), record, e, convert)
  }

  ghost predicate AllowedUpTo(lines: seq<Line>, n: nat, e: Expected, convert: Converter)
    requires n <= |lines|
  {
    forall k :: 0 <= k < n ==> LineAllowed(lines, k, e, convert)
  }

  /** There is a turn, and the last one is over. */
  ghost predicate Closes(recs: seq<Record>) {
    Current(recs).Some? && Over(recs, Current(recs).value)
  }

  ghost predicate Acceptable(text: Option<seq<Line>>, e: Expected, convert: Converter) {
    && e.thread != NO_NAME && e.absolute && text.Some?
    && AllowedUpTo(text.value, |text.value|, e, convert) && Closes(Records(text.value))
  }

  /** Line `at` (counted from one) is the first that may not be where it is; 0 and the last stand for the whole. */
  ghost predicate Blamed(text: Option<seq<Line>>, e: Expected, convert: Converter, at: nat) {
    if e.thread == NO_NAME || !e.absolute || text.None? then at == 0
    else
      || (0 < at <= |text.value| && AllowedUpTo(text.value, at - 1, e, convert)
          && !LineAllowed(text.value, at - 1, e, convert))
      || (at == |text.value| && AllowedUpTo(text.value, at, e, convert) && !Closes(Records(text.value)))
  }

  // ---------------------------------------------------------------------------------------
  // What the fold's tables say of the records read so far.

  ghost predicate TurnsTracked(f: Fold, recs: seq<Record>) {
    && (forall t :: t in f.turnIds <==> Said(recs, TurnBegan(t)))
    && (forall t :: t in f.turnIds <==> IsActive(f, t) || FindTurn(f.turns, t) < |f.turns|)
    && (Current(recs).Some? ==> Said(recs, TurnBegan(Current(recs).value)))
    && (Current(recs).None? ==> f.turnIds == {})
  }

  /** Nothing is said of a turn before its start. */
  ghost predicate NothingEarly(recs: seq<Record>) {
    && (forall t, aborted :: Said(recs, TurnOver(t, aborted)) ==> Said(recs, TurnBegan(t)))
    && (forall t, item, kind :: Said(recs, ItemOpened(t, item, kind)) ==> Said(recs, TurnBegan(t)))
    && (forall t, item, kind :: Said(recs, ItemClosed(t, item, kind)) ==> Said(recs, TurnBegan(t)))
  }

  ghost predicate ActiveTracked(f: Fold, recs: seq<Record>) {
    && (f.active.None? && Current(recs).Some? ==> Said(recs, TurnOver(Current(recs).value, false)))
    && (f.active.Some? ==>
          var p := f.active.value;
          && Current(recs) == Some(p.turn.id) && !Said(recs, TurnOver(p.turn.id, false))
          && (p.terminal <==> Said(recs, TurnOver(p.turn.id, true)))
          && (p.terminal ==> p.started == map[])
          && p.turn.status == (if p.terminal then Interrupted else InProgress)
          && (p.turn.items != [] <==> HasItems(recs, p.turn.id)))
  }

  ghost predicate ItemsTracked(f: Fold, recs: seq<Record>) {
    && (forall t: Name, item: Name, kind: Name :: Said(recs, ItemClosed(t, item, kind)) ==>
          item in f.itemIds && f.itemIds[item] == (t, kind))
    && (forall item :: item in f.itemIds ==> Said(recs, ItemClosed(f.itemIds[item].0, item, f.itemIds[item].1)))
  }

  /** Whatever was started was completed, or is in the table of the open turn. */
  ghost predicate StartsTracked(f: Fold, recs: seq<Record>) {
    && (forall t, item, kind :: Said(recs, ItemOpened(t, item, kind)) ==>
          Said(recs, ItemClosed(t, item, kind)) || Awaits(f, t, item, kind))
    && (forall t, item, kind :: Awaits(f, t, item, kind) ==>
          Said(recs, ItemOpened(t, item, kind)) && !Said(recs, ItemClosed(t, item, kind)))
  }

  predicate Awaits(f: Fold, turn: Name, item: Name, kind: Name) {
    IsActive(f, turn) && item in f.active.value.started && f.active.value.started[item] == kind
  }

  ghost predicate TurnsFollow(f: Fold, recs: seq<Record>) {
    TurnsTracked(f, recs) && NothingEarly(recs) && ActiveTracked(f, recs)
  }

  ghost predicate ItemsFollow(f: Fold, recs: seq<Record>) {
    ItemsTracked(f, recs) && StartsTracked(f, recs)
  }

  /** The tables say of turns and items what the records say. */
  ghost predicate Follows(f: Fold, recs: seq<Record>) {
    TurnsFollow(f, recs) && ItemsFollow(f, recs)
  }

  ghost predicate Tracks(f: Fold, recs: seq<Record>) {
    && f.nextOrdinal == |recs| && (f.metaSeen <==> recs != []) && (recs == [] ==> f == START)
    && Follows(f, recs)
  }

  // ---------------------------------------------------------------------------------------
  // One more record.

  lemma {:induction false} SnocSaid(recs: seq<Record>, r: Record, fact: Fact)
    ensures Said(recs + [r], fact) <==> Said(recs, fact) || FactOf(r) == Some(fact)
  {
    var longer := recs + [r];
    if Said(recs, fact) {
      var k :| 0 <= k < |recs| && FactOf(recs[k]) == Some(fact);
      assert longer[k] == recs[k];
    }
    assert longer[|recs|] == r;
  }

  /** What a longer file says is what it said before and the one fact of its last record. */
  lemma {:induction false} Snoc(recs: seq<Record>, r: Record)
    ensures forall fact :: Said(recs + [r], fact) <==> Said(recs, fact) || FactOf(r) == Some(fact)
    ensures Current(recs + [r]) == if r.body.TurnStart? then Some(r.body.turn) else Current(recs)
  {
    forall fact ensures Said(recs + [r], fact) <==> Said(recs, fact) || FactOf(r) == Some(fact) {
      SnocSaid(recs, r, fact);
    }
    assert (recs + [r])[..|recs|] == recs;
  }

  /** A record that says nothing of turns or items changes nothing that is tracked. */
  lemma {:induction false} QuietKeeps(f: Fold, g: Fold, recs: seq<Record>, r: Record)
    requires Follows(f, recs) && FactOf(r).None?
    requires g.turns == f.turns && g.turnIds == f.turnIds && g.itemIds == f.itemIds
    requires g.active.Some? == f.active.Some?
    requires f.active.Some? ==>
               var (p, q) := (f.active.value, g.active.value);
               && q.started == p.started && q.terminal == p.terminal && q.turn.id == p.turn.id
               && q.turn.status == p.turn.status && q.turn.items == p.turn.items
    ensures Follows(g, recs + [r])
  {
    hide Said, Current, FactOf;
    Snoc(recs, r);
    QuietStartsNothing(r);
    assert forall t, item, kind :: Awaits(f, t, item, kind) == Awaits(g, t, item, kind);
    assert HasItemsKept(recs, r);
  }

  lemma {:induction false} QuietStartsNothing(r: Record)
    requires FactOf(r).None?
    ensures !r.body.TurnStart?
  {
  }

  ghost predicate HasItemsKept(recs: seq<Record>, r: Record) {
    forall t :: HasItems(recs + [r], t) == HasItems(recs, t)
  }

  lemma {:induction false} CompactExactly(f: Fold, recs: seq<Record>, r: Record)
    requires Follows(f, recs) && r.body.Compacted?
    ensures Compact(f, r).Some? <==> Current(recs).Some? && !Over(recs, Current(recs).value)
  {
    hide Said, Current, FactOf;
  }

  lemma {:induction false} StartTurnExactly(f: Fold, recs: seq<Record>, r: Record)
    requires Follows(f, recs) && r.body.TurnStart?
    ensures StartTurn(f, r).Some? <==> MayStartTurn(recs, r.body)
  {
    hide Said, Current, FactOf;
  }

  /** An item id is fresh when neither table knows it. */
  lemma {:induction false} FreshIff(f: Fold, recs: seq<Record>, item: Name)
    requires Follows(f, recs) && f.active.Some?
    ensures FreshItem(recs, item) <==> item !in f.itemIds && item !in f.active.value.started
  {
    hide Said, Current;
    var p := f.active.value;
    if item in p.started {
      assert Awaits(f, p.turn.id, item, p.started[item]);
    }
  }

  lemma {:induction false} StartItemExactly(f: Fold, recs: seq<Record>, r: Record, thread: Name)
    requires Follows(f, recs) && r.body.ItemStart?
    ensures StartItem(f, r, thread).Some? <==> MayStartItem(recs, r.body, thread)
  {
    hide Said, Current, FactOf, FreshItem, StartsTracked, ItemsTracked;
    if f.active.Some? { FreshIff(f, recs, r.body.item.id); }
  }

  /** Neither table contradicts the completion exactly when no earlier record does. */
  lemma {:induction false} SameIff(f: Fold, recs: seq<Record>, turn: Name, item: Name, kind: Name)
    requires Follows(f, recs)
    ensures SameItem(recs, turn, item, kind) <==>
            && !(item in f.itemIds && f.itemIds[item] != (turn, kind))
            && !(IsActive(f, turn) && item in f.active.value.started && f.active.value.started[item] != kind)
  {
    hide Said, Current;
    if IsActive(f, turn) && item in f.active.value.started {
      assert Awaits(f, turn, item, f.active.value.started[item]);
    }
  }

  lemma {:induction false} CompleteItemExactly(f: Fold, recs: seq<Record>, r: Record, thread: Name, convert: Converter)
    requires Follows(f, recs) && r.body.ItemDone?
    ensures CompleteItem(f, r, thread, convert).Some? <==> MayCompleteItem(recs, r.body, thread, convert)
  {
    hide Said, Current, FactOf, SameItem, StartsTracked, ItemsTracked;
    SameIff(f, recs, r.body.turn, r.body.item.id, r.body.item.kind);
  }

  lemma {:induction false} AllCompletedIff(f: Fold, recs: seq<Record>)
    requires Follows(f, recs) && f.active.Some?
    ensures AllCompleted(recs, f.active.value.turn.id) <==> f.active.value.started == map[]
  {
    hide Said, Current;
    var p := f.active.value;
    if item :| item in p.started {
      assert Awaits(f, p.turn.id, item, p.started[item]);
    } else {
      assert p.started.Keys == {};
    }
  }

  lemma {:induction false} EndTurnExactly(f: Fold, recs: seq<Record>, r: Record)
    requires Follows(f, recs) && r.body.Terminal?
    ensures EndTurn(f, r).Some? <==> MayEndTurn(recs, r.body)
  {
    hide Said, Current, FactOf, AllCompleted, StartsTracked, ItemsTracked;
    if f.active.Some? { AllCompletedIff(f, recs); }
  }

  lemma {:induction false} FindAppended(turns: seq<Turn>, turn: Turn, id: Name)
    ensures FindTurn(turns + [turn], id) < |turns| + 1 <==> FindTurn(turns, id) < |turns| || turn.id == id
  {
    var longer, k, n := turns + [turn], FindTurn(turns, id), FindTurn(turns + [turn], id);
    if k < |turns| { assert longer[k].id == id; }
    if turn.id == id { assert longer[|turns|].id == id; }
    if n < |turns| { assert turns[n] == longer[n]; }
  }

  lemma {:induction false} FindUpdated(turns: seq<Turn>, at: nat, items: seq<View>, id: Name)
    requires at < |turns|
    ensures var after := turns[at := turns[at].(items := items)];
            FindTurn(after, id) < |turns| <==> FindTurn(turns, id) < |turns|
  {
    var after := turns[at := turns[at].(items := items)];
    var k, n := FindTurn(turns, id), FindTurn(after, id);
    if k < |turns| { assert after[k].id == id; }
    if n < |turns| { assert turns[n].id == id; }
  }

  /** What is said last is said of a turn that has begun. */
  lemma {:induction false} StillNothingEarly(recs: seq<Record>, r: Record, turn: Name)
    requires NothingEarly(recs) && Said(recs, TurnBegan(turn))
    requires FactOf(r).Some? && FactOf(r).value.turn == turn
    ensures NothingEarly(recs + [r])
  {
    hide Said, Current, FactOf;
    Snoc(recs, r);
  }

  lemma {:induction false} StartTurnKeeps(f: Fold, recs: seq<Record>, r: Record)
    requires Follows(f, recs) && r.body.TurnStart? && StartTurn(f, r).Some?
    ensures TurnsFollow(StartTurn(f, r).value, recs + [r])
  {
    hide Said, Current, ItemsFollow;
    Snoc(recs, r);
    var g := StartTurn(f, r).value;
    if f.active.Some? {
      forall t ensures FindTurn(g.turns, t) < |g.turns| <==> FindTurn(f.turns, t) < |f.turns| || IsActive(f, t) {
        FindAppended(f.turns, f.active.value.turn, t);
      }
    }
  }

  lemma {:induction false} StartTurnKeepsItems(f: Fold, recs: seq<Record>, r: Record)
    requires Follows(f, recs) && r.body.TurnStart? && StartTurn(f, r).Some?
    ensures ItemsFollow(StartTurn(f, r).value, recs + [r])
  {
    hide Said, Current, TurnsTracked, NothingEarly;
    Snoc(recs, r);
  }

  lemma {:induction false} StartItemKeeps(f: Fold, recs: seq<Record>, r: Record, thread: Name)
    requires Follows(f, recs) && r.body.ItemStart? && StartItem(f, r, thread).Some?
    ensures TurnsFollow(StartItem(f, r, thread).value, recs + [r])
  {
    hide Said, Current, ItemsFollow;
    Snoc(recs, r);
  }

  lemma {:induction false} StartItemKeepsItems(f: Fold, recs: seq<Record>, r: Record, thread: Name)
    requires Follows(f, recs) && r.body.ItemStart? && StartItem(f, r, thread).Some?
    ensures ItemsFollow(StartItem(f, r, thread).value, recs + [r])
  {
    hide Said, Current, TurnsTracked, NothingEarly;
    Snoc(recs, r);
  }

  lemma {:induction false} OpenItemKeeps(f: Fold, recs: seq<Record>, r: Record, thread: Name, convert: Converter)
    requires Follows(f, recs) && r.body.ItemDone? && CompleteItem(f, r, thread, convert).Some? && IsActive(f, r.body.turn)
    ensures TurnsFollow(CompleteItem(f, r, thread, convert).value, recs + [r])
  {
    hide Said, Current, ItemsFollow;
    Snoc(recs, r);
    assert Said(recs + [r], ItemClosed(r.body.turn, r.body.item.id, r.body.item.kind));
  }

  lemma {:induction false} LateItemKeepsActive(f: Fold, recs: seq<Record>, r: Record, thread: Name, convert: Converter)
    requires Follows(f, recs) && r.body.ItemDone? && CompleteItem(f, r, thread, convert).Some? && !IsActive(f, r.body.turn)
    ensures ActiveTracked(CompleteItem(f, r, thread, convert).value, recs + [r])
  {
    hide Said, Current, ItemsFollow, TurnsTracked, NothingEarly, Upsert;
    Snoc(recs, r);
    if f.active.Some? {
      assert HasItems(recs + [r], f.active.value.turn.id) == HasItems(recs, f.active.value.turn.id);
    }
  }

  lemma {:induction false} LateItemKeeps(f: Fold, recs: seq<Record>, r: Record, thread: Name, convert: Converter)
    requires Follows(f, recs) && r.body.ItemDone? && CompleteItem(f, r, thread, convert).Some? && !IsActive(f, r.body.turn)
    ensures TurnsFollow(CompleteItem(f, r, thread, convert).value, recs + [r])
  {
    hide Said, Current, ItemsFollow, ActiveTracked, NothingEarly, HasItems, Upsert;
    var g, at := CompleteItem(f, r, thread, convert).value, FindTurn(f.turns, r.body.turn);
    Snoc(recs, r);
    LateItemKeepsActive(f, recs, r, thread, convert);
    StillNothingEarly(recs, r, r.body.turn);
    forall t ensures FindTurn(g.turns, t) < |f.turns| <==> FindTurn(f.turns, t) < |f.turns| {
      FindUpdated(f.turns, at, g.turns[at].items, t);
    }
  }

  lemma {:induction false} CompleteItemKeepsIds(f: Fold, recs: seq<Record>, r: Record, thread: Name, convert: Converter)
    requires Follows(f, recs) && r.body.ItemDone? && CompleteItem(f, r, thread, convert).Some?
    ensures ItemsTracked(CompleteItem(f, r, thread, convert).value, recs + [r])
  {
    hide Said, Current, TurnsFollow, StartsTracked, Upsert, FindTurn;
    Snoc(recs, r);
  }

  lemma {:induction false} CompleteItemKeepsStarts(f: Fold, recs: seq<Record>, r: Record, thread: Name, convert: Converter)
    requires Follows(f, recs) && r.body.ItemDone? && CompleteItem(f, r, thread, convert).Some?
    ensures StartsTracked(CompleteItem(f, r, thread, convert).value, recs + [r])
  {
    hide Said, Current, TurnsFollow, Upsert, FindTurn;
    Snoc(recs, r);
  }

  lemma {:induction false} EndTurnKeepsActive(f: Fold, recs: seq<Record>, r: Record)
    requires Follows(f, recs) && r.body.Terminal? && EndTurn(f, r).Some?
    ensures ActiveTracked(EndTurn(f, r).value, recs + [r])
  {
    hide Said, Current, ItemsFollow, TurnsTracked, NothingEarly, KnownReason, Attributed;
    Snoc(recs, r);
    if f.active.Some? {
      assert HasItems(recs + [r], f.active.value.turn.id) == HasItems(recs, f.active.value.turn.id);
    }
  }

  /** The turn that ends stays open under its id, or becomes the last of the closed ones. */
  lemma {:induction false} EndTurnMoves(f: Fold, r: Record)
    requires r.body.Terminal? && EndTurn(f, r).Some?
    ensures IsActive(f, r.body.turn) && EndTurn(f, r).value.turnIds == f.turnIds
    ensures var g := EndTurn(f, r).value;
            || (g.turns == f.turns && IsActive(g, r.body.turn))
            || (g.active.None? && |g.turns| == |f.turns| + 1 && g.turns == f.turns + [g.turns[|f.turns|]]
                && g.turns[|f.turns|].id == r.body.turn)
  {
  }

  lemma {:induction false} EndTurnKeeps(f: Fold, recs: seq<Record>, r: Record)
    requires Follows(f, recs) && r.body.Terminal? && EndTurn(f, r).Some?
    ensures TurnsFollow(EndTurn(f, r).value, recs + [r])
  {
    hide Said, Current, ItemsFollow, ActiveTracked, NothingEarly, EndTurn;
    Snoc(recs, r);
    EndTurnKeepsActive(f, recs, r);
    EndTurnMoves(f, r);
    StillNothingEarly(recs, r, r.body.turn);
    var g := EndTurn(f, r).value;
    if g.active.None? {
      forall t ensures FindTurn(g.turns, t) < |g.turns| <==> FindTurn(f.turns, t) < |f.turns| || IsActive(f, t) {
        FindAppended(f.turns, g.turns[|f.turns|], t);
      }
    }
  }

  lemma {:induction false} EndTurnKeepsItems(f: Fold, recs: seq<Record>, r: Record)
    requires Follows(f, recs) && r.body.Terminal? && EndTurn(f, r).Some?
    ensures ItemsFollow(EndTurn(f, r).value, recs + [r])
  {
    hide Said, Current, TurnsTracked, NothingEarly;
    Snoc(recs, r);
  }

  // ---------------------------------------------------------------------------------------
  // The fold goes on exactly when the records allow it.

  lemma {:induction false} CountedFollows(f: Fold, recs: seq<Record>)
    requires Follows(f, recs)
    ensures Follows(f.(nextOrdinal := f.nextOrdinal + 1), recs)
  {
    hide Said, Current;
    var g := f.(nextOrdinal := f.nextOrdinal + 1);
    assert forall t, item, kind :: Awaits(f, t, item, kind) == Awaits(g, t, item, kind);
  }

  lemma {:induction false} StartFollows()
    ensures Tracks(START, [])
  {
  }

  /** The step of the fold, past the ordinal and the leading SessionMeta. */
  lemma {:induction false} BodyExactly(f: Fold, recs: seq<Record>, r: Record, thread: Name, convert: Converter)
    requires Follows(f, recs)
    ensures r.body.TurnStart? ==>
              && (StartTurn(f, r).Some? <==> MayStartTurn(recs, r.body))
              && (StartTurn(f, r).Some? ==> Follows(StartTurn(f, r).value, recs + [r]))
    ensures r.body.ItemStart? ==>
              && (StartItem(f, r, thread).Some? <==> MayStartItem(recs, r.body, thread))
              && (StartItem(f, r, thread).Some? ==> Follows(StartItem(f, r, thread).value, recs + [r]))
    ensures r.body.ItemDone? ==>
              && (CompleteItem(f, r, thread, convert).Some? <==> MayCompleteItem(recs, r.body, thread, convert))
              && (CompleteItem(f, r, thread, convert).Some? ==>
                    Follows(CompleteItem(f, r, thread, convert).value, recs + [r]))
    ensures r.body.Terminal? ==>
              && (EndTurn(f, r).Some? <==> MayEndTurn(recs, r.body))
              && (EndTurn(f, r).Some? ==> Follows(EndTurn(f, r).value, recs + [r]))
    ensures r.body.Compacted? ==>
              && (Compact(f, r).Some? <==> Current(recs).Some? && !Over(recs, Current(recs).value))
              && (Compact(f, r).Some? ==> Follows(Compact(f, r).value, recs + [r]))
    ensures r.body.Inert? || r.body.ResponseItem? ==> Follows(f, recs + [r])
  {
    hide StartTurn, StartItem, CompleteItem, EndTurn, Current, Over, TurnsFollow, ItemsFollow, MayStartTurn, MayStartItem,
         MayCompleteItem, MayEndTurn;
    match r.body {
      case TurnStart(_, _, _) =>
        StartTurnExactly(f, recs, r);
        if StartTurn(f, r).Some? { StartTurnKeeps(f, recs, r); StartTurnKeepsItems(f, recs, r); }
      case ItemStart(_, _, _) =>
        StartItemExactly(f, recs, r, thread);
        if StartItem(f, r, thread).Some? { StartItemKeeps(f, recs, r, thread); StartItemKeepsItems(f, recs, r, thread); }
      case ItemDone(_, _, _) =>
        CompleteItemExactly(f, recs, r, thread, convert);
        if CompleteItem(f, r, thread, convert).Some? { CompleteItemKeeps(f, recs, r, thread, convert); }
      case Terminal(_, _, _, _, _) =>
        EndTurnExactly(f, recs, r);
        if EndTurn(f, r).Some? { EndTurnKeeps(f, recs, r); EndTurnKeepsItems(f, recs, r); }
      case Compacted =>
        CompactExactly(f, recs, r);
        if Compact(f, r).Some? { QuietKeeps(f, Compact(f, r).value, recs, r); }
      case _ =>
        if r.body.Inert? || r.body.ResponseItem? { QuietKeeps(f, f, recs, r); }
    }
  }

  lemma {:induction false} CompleteItemKeeps(f: Fold, recs: seq<Record>, r: Record, thread: Name, convert: Converter)
    requires Follows(f, recs) && r.body.ItemDone? && CompleteItem(f, r, thread, convert).Some?
    ensures Follows(CompleteItem(f, r, thread, convert).value, recs + [r])
  {
    hide CompleteItem, TurnsFollow, ItemsTracked, StartsTracked;
    if IsActive(f, r.body.turn) {
      OpenItemKeeps(f, recs, r, thread, convert);
    } else {
      LateItemKeeps(f, recs, r, thread, convert);
    }
    CompleteItemKeepsIds(f, recs, r, thread, convert);
    CompleteItemKeepsStarts(f, recs, r, thread, convert);
  }

  /** The fold takes a record exactly when it may follow those before it. */
  lemma {:induction false} StepExactly(f: Fold, recs: seq<Record>, r: Record, e: Expected, convert: Converter)
    requires Tracks(f, recs)
    ensures Step(f, r, e, convert).Some? <==> Allowed(recs, r, e, convert)
    ensures Step(f, r, e, convert).Some? ==> Tracks(Step(f, r, e, convert).value, recs + [r])
  {
    hide Follows, Current, Over, MayStartTurn, MayStartItem, MayCompleteItem, MayEndTurn;
    var g := f.(nextOrdinal := f.nextOrdinal + 1);
    CountedFollows(f, recs);
    BodyExactly(g, recs, r, e.thread, convert);
    if r.body.SessionMeta? {
      SessionFollows(g, recs, r, e);
    }
  }

  lemma {:induction false} SessionFollows(f: Fold, recs: seq<Record>, r: Record, e: Expected)
    requires Follows(f, recs) && r.body.SessionMeta?
    ensures OpenSession(f, r, e).Some? ==> Follows(OpenSession(f, r, e).value, recs + [r])
  {
    hide Follows;
    if OpenSession(f, r, e).Some? {
      QuietKeeps(f, OpenSession(f, r, e).value, recs, r);
    }
  }

  lemma {:induction false} SnocLines(lines: seq<Line>, n: nat)
    requires n < |lines|
    ensures Records(lines[..n + 1])
            == if lines[n].Entry? then Records(lines[..n]) + [lines[n].record] else Records(lines[..n])
  {
    assert lines[..n + 1][..n] == lines[..n];
  }

  /** The fold reaches a line exactly when every line before it may be where it is. */
  lemma {:induction false} FoldExactly(lines: seq<Line>, n: nat, e: Expected, convert: Converter)
    requires n <= |lines|
    ensures match FoldLines(lines, n, e, convert)
            case Ok(f) => AllowedUpTo(lines, n, e, convert) && Tracks(f, Records(lines[..n]))
            case Err(at) => 0 < at <= n && AllowedUpTo(lines, at - 1, e, convert) && !LineAllowed(lines, at - 1, e, convert)
  {
    hide Tracks, Step, Allowed, Records;
    if n == 0 {
      StartFollows();
      assert Records(lines[..0]) == [] by { NoRecords(lines[..0]); }
    } else {
      FoldExactly(lines, n - 1, e, convert);
      SnocLines(lines, n - 1);
      var before := FoldLines(lines, n - 1, e, convert);
      if before.Ok? && lines[n - 1].Entry? {
        StepExactly(before.value, Records(lines[..n - 1]), lines[n - 1].record, e, convert);
      }
    }
  }

  lemma {:induction false} NoRecords(lines: seq<Line>)
    requires lines == []
    ensures Records(lines) == []
  {
  }

  /** The end of the file is accepted exactly when there is a turn and the last one is over. */
  lemma {:induction false} ConcludeExactly(f: Fold, recs: seq<Record>, last: nat)
    requires Tracks(f, recs)
    ensures if Closes(recs) then Conclude(f, last).Ok? else Conclude(f, last) == Err(last)
  {
    hide Said, Current, ItemsFollow;
    if f.turns != [] {
      assert FindTurn(f.turns, f.turns[0].id) == 0;
      assert f.turns[0].id in f.turnIds;
    }
  }

  /**
    A rollout is projected exactly when its records may follow one another and its last turn is
    over; otherwise the error names the first line that may not be where it is.
  */
  lemma {:induction false} AcceptedExactlyWhen(text: Option<seq<Line>>, e: Expected, convert: Converter)
    ensures ProjectOf(text, e, convert).Ok? <==> Acceptable(text, e, convert)
    ensures ProjectOf(text, e, convert).Err? ==> Blamed(text, e, convert, ProjectOf(text, e, convert).error)
  {
    hide Tracks, FoldLines, Conclude, Closes, LineAllowed, Records;
    if text.Some? {
      var lines := text.value;
      FoldExactly(lines, |lines|, e, convert);
      assert lines[..|lines|] == lines;
      var folded := FoldLines(lines, |lines|, e, convert);
      if folded.Ok? { ConcludeExactly(folded.value, Records(lines), |lines|); }
    }
  }

  /** Only one line can be blamed. */
  lemma {:induction false} OneLineBlamed(text: Option<seq<Line>>, e: Expected, convert: Converter, at: nat, other: nat)
    requires Blamed(text, e, convert, at) && Blamed(text, e, convert, other)
    ensures at == other && !Acceptable(text, e, convert)
  {
    hide LineAllowed, Closes, Records;
  }
}
