/**
  `project` as the source runs it: one loop over the lines with its mutable tables, proved
  against the fold and, through it, against the declarative view.
*/
module RolloutProjection {
  import opened Wrappers
  import opened Rollout
  import opened RolloutRefinement
  import opened RolloutConservation
  import opened RolloutAcceptance

  method Project(text: Option<seq<Line>>, e: Expected, convert: Converter) returns (r: Result<seq<Turn>, nat>)
    ensures r == ProjectOf(text, e, convert)
    ensures r.Ok? ==> r.value == Declared(Records(text.value), convert)
    ensures r.Ok? ==> Bag(r.value) == RelevantBag(Records(text.value))
    ensures r.Ok? <==> Acceptable(text, e, convert)
    ensures r.Err? ==> Blamed(text, e, convert, r.error)
  {
    hide Acceptable, Blamed, Declared, Records, Bag, RelevantBag, CompleteItem, Close, FreshTurn, KnownReason;
    AcceptedExactlyWhen(text, e, convert);
    if e.thread == NO_NAME || !e.absolute || text.None? {
      return Err(0);
    }
    var lines := text.value;
    var metaSeen := false;
    var turns: seq<Turn> := [];
    var active: Option<Pending> := None;
    var turnIds: set<Name> := {};
    var itemIds: map<Name, (Name, Name)> := map[];
    var nextOrdinal := 0;
    for i := 0 to |lines|
      invariant FoldLines(lines, i, e, convert) == Ok(Fold(metaSeen, turns, active, turnIds, itemIds, nextOrdinal))
    {
      ghost var f := Fold(metaSeen, turns, active, turnIds, itemIds, nextOrdinal);
      assert FoldLines(lines, i + 1, e, convert)
          == match StepLine(f, lines[i], e, convert) case Some(g) => Ok(g) case None => Err(i + 1);
      if lines[i].Blank? {
        continue;
      }
      if lines[i].Malformed? {
        Stuck(lines, i + 1, |lines|, e, convert);
        return Err(i + 1);
      }
      var record := lines[i].record;
      var ok := record.ordinal == Some(nextOrdinal) && nextOrdinal < MAX_ORDINAL;
      nextOrdinal := nextOrdinal + 1;
      ok := ok && (record.body.SessionMeta? || metaSeen);
      if ok {
        match record.body {
          case SessionMeta(thread, cwd, mode, inherited) =>
            ok := !metaSeen && active.None? && turns == [] && thread == e.thread
                  && cwd == Some(e.cwd) && mode == "paginated" && !inherited;
            metaSeen := true;
          case TurnStart(id, attribution, startedAt) =>
            if active.Some? {
              ok := active.value.terminal && active.value.started == map[] && Finishable(active.value.turn);
              turns := turns + [active.value.turn];
            }
            ok := ok && Attributed(attribution, id) && id !in turnIds;
            turnIds := turnIds + {id};
            active := Some(Pending(FreshTurn(id, startedAt, record), map[], false));
          case ItemStart(thread, turn, item) =>
            ok := thread == e.thread && active.Some? && !active.value.terminal
                  && active.value.turn.id == turn && item.id !in itemIds && item.id !in active.value.started;
            if ok {
              active := Some(active.value.(started := active.value.started[item.id := item.kind]));
            }
          case ItemDone(thread, turn, item) =>
            ok, turns, active, itemIds := Complete(turns, active, itemIds, record, e, convert);
          case Terminal(turn, attribution, aborted, reason, outcome) =>
            ok := active.Some? && Attributed(attribution, turn) && active.value.turn.id == turn
                  && active.value.started == map[] && (!aborted || KnownReason(reason))
                  && (active.value.terminal || outcome.Some?);
            if ok {
              var current := active.value.turn;
              current := if active.value.terminal then current.(extra := current.extra + [record])
                         else Close(current, record);
              if aborted {
                active := Some(active.value.(turn := current, terminal := true));
              } else {
                ok := Finishable(current);
                active, turns := None, turns + [current];
              }
            }
          case ResponseItem(compaction) =>
            ok := !compaction;
          case Compacted =>
            ok := active.Some? && !active.value.terminal;
            if ok {
              var current := active.value.turn;
              active := Some(active.value.(turn := current.(compactions := current.compactions + [record])));
            }
          case Inert =>
          case Unsupported =>
            ok := false;
        }
      }
      if !ok {
        Stuck(lines, i + 1, |lines|, e, convert);
        return Err(i + 1);
      }
    }
    if active.Some? {
      if !active.value.terminal || active.value.started != map[] || !Finishable(active.value.turn) {
        return Err(|lines|);
      }
      turns := turns + [active.value.turn];
    }
    if !metaSeen || turns == [] {
      return Err(|lines|);
    }
    ProjectionRefines(lines, e, convert);
    ProjectionConserves(lines, e, convert);
    r := Ok(turns);
  }

  /** The `item_completed` branch: the open turn's table entry goes, its item is updated or added. */
  method Complete(turns: seq<Turn>, active: Option<Pending>, itemIds: map<Name, (Name, Name)>,
                  record: Record, e: Expected, convert: Converter)
    returns (ok: bool, turns': seq<Turn>, active': Option<Pending>, itemIds': map<Name, (Name, Name)>)
    requires record.body.ItemDone?
    ensures forall f: Fold :: f.turns == turns && f.active == active && f.itemIds == itemIds ==>
              CompleteItem(f, record, e.thread, convert)
              == if ok then Some(f.(turns := turns', active := active', itemIds := itemIds')) else None
  {
    turns', active', itemIds' := turns, active, itemIds;
    var turn, id, kind := record.body.turn, record.body.item.id, record.body.item.kind;
    var open := active.Some? && active.value.turn.id == turn;
    var shown := convert(record.body.item);
    ok := record.body.thread == e.thread && shown.Some?
          && !(open && id in active.value.started && active.value.started[id] != kind)
          && !(id in itemIds && itemIds[id] != (turn, kind));
    if !ok {
      return;
    }
    var at := FindTurn(turns, turn);
    itemIds' := itemIds[id := (turn, kind)];
    if open {
      var current := active.value.turn;
      active' := Some(active.value.(turn := current.(items := Upsert(current.items, id, shown.value, record)),
                                    started := active.value.started - {id}));
    } else if at < |turns| {
      turns' := turns[at := turns[at].(items := Upsert(turns[at].items, id, shown.value, record))];
    } else {
      ok := false;
    }
  }

  /** Once refused, a rollout stays refused at the same line. */
  lemma {:induction false} Stuck(lines: seq<Line>, at: nat, n: nat, e: Expected, convert: Converter)
    requires at <= n <= |lines| && FoldLines(lines, at, e, convert) == Err(at)
    ensures FoldLines(lines, n, e, convert) == Err(at)
  {
    if at < n {
      Stuck(lines, at, n - 1, e, convert);
    }
  }
}
