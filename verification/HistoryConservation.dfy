/**
  Nothing of an accepted rollout is lost, invented or shown twice: every start, completion,
  terminal and compaction record is a source of exactly one place of one turn.
*/
module RolloutConservation {
  import opened Wrappers
  import opened Rollout
  import opened RolloutRefinement

  predicate Relevant(r: Record) {
    r.body.TurnStart? || r.body.ItemDone? || r.body.Terminal? || r.body.Compacted?
  }

  function RelevantBag(recs: seq<Record>): multiset<Record> {
    if recs == [] then multiset{}
    else
      var last := recs[|recs| - 1];
      RelevantBag(recs[..|recs| - 1]) + if Relevant(last) then multiset{last} else multiset{}
  }

  function OptionBag(r: Option<Record>): multiset<Record> {
    if r.Some? then multiset{r.value} else multiset{}
  }

  function ItemBag(items: seq<View>): multiset<Record> {
    if items == [] then multiset{} else multiset(items[0].sources) + ItemBag(items[1..])
  }

  /** Every record a turn keeps, in whichever source field. */
  function Sources(t: Turn): multiset<Record> {
    multiset{t.start} + ItemBag(t.items) + multiset(t.compactions) + OptionBag(t.abort)
    + OptionBag(t.terminal) + multiset(t.extra)
  }

  function Sum(weight: Turn -> multiset<Record>, turns: seq<Turn>): multiset<Record> {
    if turns == [] then multiset{} else weight(turns[0]) + Sum(weight, turns[1..])
  }

  function Bag(turns: seq<Turn>): multiset<Record> {
    Sum(Sources, turns)
  }

  lemma {:induction false} ItemBagAppend(a: seq<View>, v: View)
    ensures ItemBag(a + [v]) == ItemBag(a) + multiset(v.sources)
  {
    if a == [] {
      assert a + [v] == [v];
    } else {
      assert (a + [v])[1..] == a[1..] + [v];
      ItemBagAppend(a[1..], v);
    }
  }

  lemma {:induction false} ItemBagUpdate(a: seq<View>, at: nat, v: View, r: Record)
    requires at < |a| && v.sources == a[at].sources + [r]
    ensures ItemBag(a[at := v]) == ItemBag(a) + multiset{r}
  {
    if at == 0 {
      assert a[0 := v][1..] == a[1..];
    } else {
      assert a[at := v][1..] == a[1..][at - 1 := v];
      ItemBagUpdate(a[1..], at - 1, v, r);
    }
  }

  lemma {:induction false} UpsertBag(items: seq<View>, id: Name, shown: string, r: Record)
    ensures ItemBag(Upsert(items, id, shown, r)) == ItemBag(items) + multiset{r}
  {
    var at := FindView(items, id);
    if at < |items| {
      ItemBagUpdate(items, at, View(id, shown, items[at].sources + [r]), r);
    } else {
      ItemBagAppend(items, View(id, shown, [r]));
    }
  }

  lemma {:induction false} SumAppend(weight: Turn -> multiset<Record>, a: seq<Turn>, t: Turn)
    ensures Sum(weight, a + [t]) == Sum(weight, a) + weight(t)
  {
    if a == [] {
      assert a + [t] == [t];
    } else {
      assert (a + [t])[1..] == a[1..] + [t];
      SumAppend(weight, a[1..], t);
    }
  }

  lemma {:induction false} SumUpdate(weight: Turn -> multiset<Record>, a: seq<Turn>, at: nat, t: Turn, r: Record)
    requires at < |a| && weight(t) == weight(a[at]) + multiset{r}
    ensures Sum(weight, a[at := t]) == Sum(weight, a) + multiset{r}
  {
    if at == 0 {
      assert a[0 := t][1..] == a[1..];
    } else {
      assert a[at := t][1..] == a[1..][at - 1 := t];
      SumUpdate(weight, a[1..], at - 1, t, r);
    }
  }

  lemma {:induction false} LastGains(a: seq<Turn>, t: Turn, u: Turn, r: Record)
    requires Sources(u) == Sources(t) + multiset{r}
    ensures Bag(a + [u]) == Bag(a + [t]) + multiset{r}
  {
    SumAppend(Sources, a, t);
    SumAppend(Sources, a, u);
  }

  lemma {:induction false} CloseSources(t: Turn, r: Record)
    requires r.body.Terminal? && r.body.outcome.Some? && t.abort.None? && t.terminal.None?
    ensures Sources(Close(t, r)) == Sources(t) + multiset{r}
  {
  }

  lemma {:induction false} ExtraSources(t: Turn, r: Record)
    ensures Sources(t.(extra := t.extra + [r])) == Sources(t) + multiset{r}
  {
  }

  lemma {:induction false} CompactedSources(t: Turn, r: Record)
    ensures Sources(t.(compactions := t.compactions + [r])) == Sources(t) + multiset{r}
  {
  }

  /** A turn that is not yet terminal holds no terminal record. */
  ghost predicate Unsettled(f: Fold) {
    f.active.Some? && !f.active.value.terminal ==>
      f.active.value.turn.abort.None? && f.active.value.turn.terminal.None?
  }

  lemma {:induction false} EndBag(f: Fold, g: Fold, r: Record, e: Expected, convert: Converter)
    requires Unsettled(f) && r.body.Terminal? && Step(f, r, e, convert) == Some(g)
    ensures Bag(All(g)) == Bag(All(f)) + multiset{r}
  {
    EndEffect(f, g, r, e, convert);
    var p := f.active.value;
    if p.terminal {
      ExtraSources(p.turn, r);
      LastGains(f.turns, p.turn, p.turn.(extra := p.turn.extra + [r]), r);
    } else {
      CloseSources(p.turn, r);
      LastGains(f.turns, p.turn, Close(p.turn, r), r);
    }
  }

  lemma {:induction false} DoneBag(f: Fold, g: Fold, r: Record, e: Expected, convert: Converter)
    requires r.body.ItemDone? && Step(f, r, e, convert) == Some(g)
    ensures Bag(All(g)) == Bag(All(f)) + multiset{r}
  {
    var at := DoneEffect(f, g, r, e, convert);
    var items := Upsert(All(f)[at].items, r.body.item.id, Shown(convert, r), r);
    UpsertBag(All(f)[at].items, r.body.item.id, Shown(convert, r), r);
    SumUpdate(Sources, All(f), at, All(f)[at].(items := items), r);
  }

  lemma {:induction false} CompactEffect(f: Fold, g: Fold, r: Record, e: Expected, convert: Converter)
    requires r.body.Compacted? && Step(f, r, e, convert) == Some(g)
    ensures f.active.Some?
    ensures var turn := f.active.value.turn;
            All(g) == f.turns + [turn.(compactions := turn.compactions + [r])]
  {
  }

  lemma {:induction false} CompactBag(f: Fold, g: Fold, r: Record, e: Expected, convert: Converter)
    requires r.body.Compacted? && Step(f, r, e, convert) == Some(g)
    ensures Bag(All(g)) == Bag(All(f)) + multiset{r}
  {
    CompactEffect(f, g, r, e, convert);
    var turn := f.active.value.turn;
    CompactedSources(turn, r);
    LastGains(f.turns, turn, turn.(compactions := turn.compactions + [r]), r);
  }

  lemma {:induction false} StartBag(f: Fold, g: Fold, r: Record, e: Expected, convert: Converter)
    requires r.body.TurnStart? && Step(f, r, e, convert) == Some(g)
    ensures Bag(All(g)) == Bag(All(f)) + multiset{r}
  {
    StartEffect(f, g, r, e, convert);
    var started := FreshTurn(r.body.turn, r.body.startedAt, r);
    assert Sources(started) == multiset{r};
    SumAppend(Sources, All(f), started);
    assert All(g) == All(f) + [started];
  }

  lemma {:induction false} StepBag(f: Fold, g: Fold, r: Record, e: Expected, convert: Converter)
    requires Unsettled(f) && Step(f, r, e, convert) == Some(g)
    ensures Bag(All(g)) == Bag(All(f)) + if Relevant(r) then multiset{r} else multiset{}
  {
    if r.body.TurnStart? {
      StartBag(f, g, r, e, convert);
    } else if r.body.ItemDone? {
      DoneBag(f, g, r, e, convert);
    } else if r.body.Terminal? {
      EndBag(f, g, r, e, convert);
    } else if r.body.Compacted? {
      CompactBag(f, g, r, e, convert);
    } else {
      StepBasics(f, g, r, e, convert);
    }
  }

  lemma {:induction false} StepUnsettled(f: Fold, g: Fold, r: Record, e: Expected, convert: Converter)
    requires Unsettled(f) && Step(f, r, e, convert) == Some(g)
    ensures Unsettled(g)
  {
  }

  lemma {:induction false} FoldBag(lines: seq<Line>, n: nat, e: Expected, convert: Converter)
    requires n <= |lines| && FoldLines(lines, n, e, convert).Ok?
    ensures Unsettled(FoldLines(lines, n, e, convert).value)
    ensures Bag(All(FoldLines(lines, n, e, convert).value)) == RelevantBag(Records(lines[..n]))
  {
    if n > 0 {
      FoldBack(lines, n, e, convert);
      FoldBag(lines, n - 1, e, convert);
      RecordsSnoc(lines, n);
      var f, g := FoldLines(lines, n - 1, e, convert).value, FoldLines(lines, n, e, convert).value;
      var recs := Records(lines[..n - 1]);
      if lines[n - 1].Entry? {
        var r := lines[n - 1].record;
        StepBag(f, g, r, e, convert);
        StepUnsettled(f, g, r, e, convert);
        assert (recs + [r])[..|recs|] == recs;
      } else {
        assert recs + [] == recs;
      }
    }
  }

  /** An accepted rollout shows every turn of the last state of the fold, and all are closed. */
  lemma {:induction false} AcceptedTurns(lines: seq<Line>, e: Expected, convert: Converter)
    requires ProjectOf(Some(lines), e, convert).Ok?
    ensures FoldLines(lines, |lines|, e, convert).Ok?
    ensures var f := FoldLines(lines, |lines|, e, convert).value;
            && ProjectOf(Some(lines), e, convert).value == All(f)
            && (f.active.Some? ==> f.active.value.terminal)
  {
  }

  /** Conservation for an accepted rollout, as multisets of records. */
  lemma {:induction false} ProjectionConserves(lines: seq<Line>, e: Expected, convert: Converter)
    requires ProjectOf(Some(lines), e, convert).Ok?
    ensures Bag(ProjectOf(Some(lines), e, convert).value) == RelevantBag(Records(lines))
  {
    AcceptedTurns(lines, e, convert);
    FoldBag(lines, |lines|, e, convert);
    assert lines[..|lines|] == lines;
  }

  ghost predicate ClosedByFirst(t: Turn, ends: seq<Record>) {
    && ends != [] && ends[0].body.Terminal? && ends[0].body.outcome.Some?
    && var first := ends[0].body;
    && t.status != InProgress
    && (first.aborted <==> t.status == Interrupted)
    && (t.status == Completed ==> t.error.None?)
    && t.error == first.outcome.value.error
    && t.startedAt == first.outcome.value.startedAt
    && t.completedAt == first.outcome.value.completedAt
    && t.durationMs == first.outcome.value.durationMs
    && t.extra == ends[1..]
    && (if first.aborted then t.abort == Some(ends[0]) else t.terminal == Some(ends[0]))
  }

  lemma {:induction false} ViewClosedByFirst(recs: seq<Record>, start: Record, convert: Converter)
    requires start.body.TurnStart?
    requires var ends := Select(recs, Ends(start.body.turn)); ends != [] && ends[0].body.outcome.Some?
    ensures ClosedByFirst(TurnView(recs, start, convert), Select(recs, Ends(start.body.turn)))
  {
  }

  /**
    The rest of what acceptance means: turn ids are distinct, no item id is completed in two
    turns, and every turn is closed, with the status, error and times of its first terminal
    record, which no later record changes.
  */
  lemma {:induction false} AcceptedIsClosed(lines: seq<Line>, e: Expected, convert: Converter)
    requires ProjectOf(Some(lines), e, convert).Ok?
    ensures DistinctTurns(ProjectOf(Some(lines), e, convert).value)
    ensures forall t, u, id :: id in FirstIds(Records(lines), t) && id in FirstIds(Records(lines), u) ==> t == u
    ensures var turns := ProjectOf(Some(lines), e, convert).value;
            forall k :: 0 <= k < |turns| ==> ClosedByFirst(turns[k], Select(Records(lines), Ends(turns[k].id)))
  {
    AcceptedTurns(lines, e, convert);
    FoldInv(lines, |lines|, e, convert);
    assert lines[..|lines|] == lines;
    var f := FoldLines(lines, |lines|, e, convert).value;
    var recs := Records(lines);
    forall t, u, id | id in FirstIds(recs, t) && id in FirstIds(recs, u)
      ensures t == u
    {
      assert OneTurnPerItem(f, recs);
      assert f.itemIds[id].0 == t;
    }
    forall k | 0 <= k < |All(f)|
      ensures ClosedByFirst(All(f)[k], Select(recs, Ends(All(f)[k].id)))
    {
      AcceptedTurnClosed(f, recs, convert, k);
    }
  }

  lemma {:induction false} AcceptedTurnClosed(f: Fold, recs: seq<Record>, convert: Converter, k: nat)
    requires Refines(f, recs, convert) && EndsSettle(f, recs) && ActiveFollows(f, recs)
    requires f.active.Some? ==> f.active.value.terminal
    requires k < |All(f)|
    ensures ClosedByFirst(All(f)[k], Select(recs, Ends(All(f)[k].id)))
  {
    var start := Select(recs, Starts)[k];
    ViewId(recs, start, convert);
    assert All(f)[k] == TurnView(recs, start, convert);
    assert k < |f.turns| ==> All(f)[k] == f.turns[k];
    assert k == |f.turns| ==> All(f)[k] == f.active.value.turn;
    ViewClosedByFirst(recs, start, convert);
  }
}
