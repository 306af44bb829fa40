/**
  The archived rollout projection (claude-monitor-codex/src/history.rs).

  A rollout is a sequence of lines. Decoding one line is taken as given: `Malformed` is a line
  that is no JSON record of a known shape, `Unsupported` a record type the projection refuses.
  The field-by-field item converter is a parameter; it decides what an item shows, never its id.
*/
module Rollout {
  import opened Wrappers

  const MAX_ORDINAL: nat := 0xFFFF_FFFF_FFFF_FFFF

  datatype CoreItem = CoreItem(id: Name, kind: Name, payload: string)

  /** What a terminal event says of its turn; the turn keeps it as it is written. */
  datatype Outcome = Outcome(
    error: Option<string>, startedAt: Option<int>, completedAt: Option<int>, durationMs: Option<nat>)

  datatype Body =
    | SessionMeta(metaThread: Name, cwd: Option<string>, mode: string, inherited: bool)
    | TurnStart(turn: Name, attribution: Option<Name>, startedAt: Option<int>)
    | ItemStart(thread: Name, turn: Name, item: CoreItem)
    | ItemDone(thread: Name, turn: Name, item: CoreItem)
    | Terminal(turn: Name, attribution: Option<Name>, aborted: bool, reason: string,
               outcome: Option<Outcome>)
    | ResponseItem(compaction: bool)
    | Compacted
    | Inert
    | Unsupported

  datatype Record = Record(ordinal: Option<nat>, body: Body)

  datatype Line = Blank | Malformed | Entry(record: Record)

  datatype TurnStatus = InProgress | Completed | Failed | Interrupted

  datatype View = View(id: Name, shown: string, sources: seq<Record>)

  datatype Turn = Turn(
    id: Name,
    items: seq<View>,
    status: TurnStatus,
    error: Option<string>,
    startedAt: Option<int>,
    completedAt: Option<int>,
    durationMs: Option<nat>,
    start: Record,
    compactions: seq<Record>,
    abort: Option<Record>,
    terminal: Option<Record>,
    extra: seq<Record>)

  type Converter = CoreItem -> Option<string>

  datatype Expected = Expected(thread: Name, cwd: string, absolute: bool)

  // ---------------------------------------------------------------------------------------
  // The one-pass fold.

  datatype Pending = Pending(turn: Turn, started: map<Name, Name>, terminal: bool)

  datatype Fold = Fold(
    metaSeen: bool,
    turns: seq<Turn>,
    active: Option<Pending>,
    turnIds: set<Name>,
    itemIds: map<Name, (Name, Name)>,
    nextOrdinal: nat)

  const START := Fold(false, [], None, {}, map[], 0)

  predicate Attributed(attribution: Option<Name>, turn: Name) {
    attribution.None? || attribution.value == turn
  }

  predicate KnownReason(reason: string) {
    reason == "interrupted" || reason == "replaced" || reason == "review_ended" || reason == "budget_limited"
  }

  function FreshTurn(id: Name, startedAt: Option<int>, record: Record): Turn {
    Turn(id, [], InProgress, None, startedAt, None, None, record, [], None, None, [])
  }

  /** The first terminal event fixes the status, the error and the times of a turn. */
  function Close(turn: Turn, record: Record): Turn
    requires record.body.Terminal? && record.body.outcome.Some?
  {
    var Outcome(error, startedAt, completedAt, durationMs) := record.body.outcome.value;
    var status := if record.body.aborted then Interrupted else if error.Some? then Failed else Completed;
    var closed := turn.(status := status, error := error, startedAt := startedAt,
                        completedAt := completedAt, durationMs := durationMs);
    if record.body.aborted then closed.(abort := Some(record)) else closed.(terminal := Some(record))
  }

  predicate Finishable(turn: Turn) {
    turn.items != [] || turn.status == Interrupted || turn.status == Failed
  }

  /** `finish`: a turn closes with no open item and something to show or a reason why not. */
  function Finished(p: Pending, turns: seq<Turn>): Option<seq<Turn>> {
    if p.started != map[] || !Finishable(p.turn) then None else Some(turns + [p.turn])
  }

  /** The position of the first view with this id, or the length when there is none. */
  function FindView(items: seq<View>, id: Name): (k: nat)
    ensures k <= |items|
    ensures k < |items| ==> items[k].id == id
    ensures forall j :: 0 <= j < k ==> items[j].id != id
  {
    if items == [] || items[0].id == id then 0 else 1 + FindView(items[1..], id)
  }

  /** The position of the first turn with this id, or the length when there is none. */
  function FindTurn(turns: seq<Turn>, id: Name): (k: nat)
    ensures k <= |turns|
    ensures k < |turns| ==> turns[k].id == id
    ensures forall j :: 0 <= j < k ==> turns[j].id != id
  {
    if turns == [] || turns[0].id == id then 0 else 1 + FindTurn(turns[1..], id)
  }

  function Upsert(items: seq<View>, id: Name, shown: string, record: Record): seq<View> {
    var k := FindView(items, id);
    if k < |items| then items[k := View(id, shown, items[k].sources + [record])]
    else items + [View(id, shown, [record])]
  }

  function StartTurn(f: Fold, r: Record): Option<Fold>
    requires r.body.TurnStart?
  {
    var id := r.body.turn;
    var closed := if f.active.None? then Some(f.turns)
                  else if !f.active.value.terminal then None
                  else Finished(f.active.value, f.turns);
    if closed.None? || !Attributed(r.body.attribution, id) || id in f.turnIds then None
    else Some(f.(turns := closed.value, turnIds := f.turnIds + {id},
                 active := Some(Pending(FreshTurn(id, r.body.startedAt, r), map[], false))))
  }

  function StartItem(f: Fold, r: Record, thread: Name): Option<Fold>
    requires r.body.ItemStart?
  {
    var id := r.body.item.id;
    if r.body.thread != thread || f.active.None? then None
    else
      var p := f.active.value;
      if p.terminal || p.turn.id != r.body.turn || id in f.itemIds || id in p.started then None
      else Some(f.(active := Some(p.(started := p.started[id := r.body.item.kind]))))
  }

  predicate IsActive(f: Fold, turn: Name) {
    f.active.Some? && f.active.value.turn.id == turn
  }

  function CompleteItem(f: Fold, r: Record, thread: Name, convert: Converter): Option<Fold>
    requires r.body.ItemDone?
  {
    var turn, id, kind := r.body.turn, r.body.item.id, r.body.item.kind;
    var shown := convert(r.body.item);
    var at := FindTurn(f.turns, turn);
    if r.body.thread != thread then None
    else if IsActive(f, turn) && id in f.active.value.started && f.active.value.started[id] != kind then None
    else if id in f.itemIds && f.itemIds[id] != (turn, kind) then None
    else if shown.None? then None
    else if IsActive(f, turn) then
      var p := f.active.value;
      var items := Upsert(p.turn.items, id, shown.value, r);
      Some(f.(itemIds := f.itemIds[id := (turn, kind)],
              active := Some(p.(turn := p.turn.(items := items), started := p.started - {id}))))
    else if at < |f.turns| then
      var items := Upsert(f.turns[at].items, id, shown.value, r);
      Some(f.(itemIds := f.itemIds[id := (turn, kind)], turns := f.turns[at := f.turns[at].(items := items)]))
    else None
  }

  function EndTurn(f: Fold, r: Record): Option<Fold>
    requires r.body.Terminal?
  {
    if f.active.None? then None
    else
      var p := f.active.value;
      if !Attributed(r.body.attribution, r.body.turn) || p.turn.id != r.body.turn
         || p.started != map[] || (r.body.aborted && !KnownReason(r.body.reason))
         || (!p.terminal && r.body.outcome.None?) then None
      else
        var turn := if p.terminal then p.turn.(extra := p.turn.extra + [r]) else Close(p.turn, r);
        if r.body.aborted then Some(f.(active := Some(p.(turn := turn, terminal := true))))
        else if Finishable(turn) then Some(f.(active := None, turns := f.turns + [turn]))
        else None
  }

  function Compact(f: Fold, r: Record): Option<Fold> {
    if f.active.None? || f.active.value.terminal then None
    else
      var p := f.active.value;
      Some(f.(active := Some(p.(turn := p.turn.(compactions := p.turn.compactions + [r])))))
  }

  function OpenSession(f: Fold, r: Record, e: Expected): Option<Fold>
    requires r.body.SessionMeta?
  {
    if f.metaSeen || f.active.Some? || f.turns != [] || r.body.metaThread != e.thread
       || r.body.cwd != Some(e.cwd) || r.body.mode != "paginated" || r.body.inherited then None
    else Some(f.(metaSeen := true))
  }

  /** One record, or None when the projection refuses the rollout at it. */
  function Step(f: Fold, r: Record, e: Expected, convert: Converter): Option<Fold> {
    if r.ordinal != Some(f.nextOrdinal) || f.nextOrdinal >= MAX_ORDINAL then None
    else
      var g := f.(nextOrdinal := f.nextOrdinal + 1);
      if r.body.SessionMeta? then OpenSession(g, r, e)
      else if !f.metaSeen then None
      else match r.body
        case TurnStart(_, _, _) => StartTurn(g, r)
        case ItemStart(_, _, _) => StartItem(g, r, e.thread)
        case ItemDone(_, _, _) => CompleteItem(g, r, e.thread, convert)
        case Terminal(_, _, _, _, _) => EndTurn(g, r)
        case ResponseItem(compaction) => if compaction then None else Some(g)
        case Compacted => Compact(g, r)
        case Inert => Some(g)
        case _ => None
  }

  function StepLine(f: Fold, line: Line, e: Expected, convert: Converter): Option<Fold> {
    match line
    case Blank => Some(f)
    case Malformed => None
    case Entry(record) => Step(f, record, e, convert)
  }

  /** The fold over the first `n` lines: the state, or the number of the refused line. */
  function FoldLines(lines: seq<Line>, n: nat, e: Expected, convert: Converter): Result<Fold, nat>
    requires n <= |lines|
  {
    if n == 0 then Ok(START)
    else
      match FoldLines(lines, n - 1, e, convert)
      case Err(line) => Err(line)
      case Ok(f) => match StepLine(f, lines[n - 1], e, convert) case Some(g) => Ok(g) case None => Err(n)
  }

  function Conclude(f: Fold, last: nat): Result<seq<Turn>, nat> {
    var turns := if f.active.None? then Some(f.turns)
                 else if !f.active.value.terminal then None
                 else Finished(f.active.value, f.turns);
    if turns.None? || !f.metaSeen || turns.value == [] then Err(last) else Ok(turns.value)
  }

  function ProjectOf(text: Option<seq<Line>>, e: Expected, convert: Converter): Result<seq<Turn>, nat> {
    if e.thread == NO_NAME || !e.absolute || text.None? then Err(0)
    else
      match FoldLines(text.value, |text.value|, e, convert)
      case Err(line) => Err(line)
      case Ok(f) => Conclude(f, |text.value|)
  }

  // ---------------------------------------------------------------------------------------
  // The declarative view of the same file.

  function Records(lines: seq<Line>): seq<Record> {
    if lines == [] then []
    else
      var front, last := lines[..|lines| - 1], lines[|lines| - 1];
      Records(front) + if last.Entry? then [last.record] else []
  }

  datatype Selector = Starts | Ends(turn: Name) | Completes(turn: Name)
                    | CompletesItem(turn: Name, item: Name)

  predicate Matches(r: Record, s: Selector) {
    match s
    case Starts => r.body.TurnStart?
    case Ends(turn) => r.body.Terminal? && r.body.turn == turn
    case Completes(turn) => r.body.ItemDone? && r.body.turn == turn
    case CompletesItem(turn, item) => r.body.ItemDone? && r.body.turn == turn && r.body.item.id == item
  }

  /** The records a selector picks, in file order. */
  function Select(recs: seq<Record>, s: Selector): (r: seq<Record>)
    ensures forall k :: 0 <= k < |r| ==> Matches(r[k], s)
  {
    if recs == [] then []
    else
      var front, last := recs[..|recs| - 1], recs[|recs| - 1];
      Select(front, s) + if Matches(last, s) then [last] else []
  }

  /** The turn whose start most recently precedes the end of `recs`. */
  function Current(recs: seq<Record>): Option<Name> {
    if recs == [] then None
    else if recs[|recs| - 1].body.TurnStart? then Some(recs[|recs| - 1].body.turn)
    else Current(recs[..|recs| - 1])
  }

  /** The compaction records between the start of `turn` and the next start. */
  function Compactions(recs: seq<Record>, turn: Name): seq<Record> {
    if recs == [] then []
    else
      var front, last := recs[..|recs| - 1], recs[|recs| - 1];
      Compactions(front, turn) + if last.body.Compacted? && Current(front) == Some(turn) then [last] else []
  }

  /** The ids of the items a turn completes, in the order of their first completion. */
  function FirstIds(recs: seq<Record>, turn: Name): seq<Name> {
    if recs == [] then []
    else
      var front, last := recs[..|recs| - 1], recs[|recs| - 1];
      var ids := FirstIds(front, turn);
      if Matches(last, Completes(turn)) && last.body.item.id !in ids then ids + [last.body.item.id] else ids
  }

  function Shown(convert: Converter, r: Record): string
    requires r.body.ItemDone?
  {
    match convert(r.body.item) case Some(shown) => shown case None => ""
  }

  /** One item: the conversion of its last completion, with all its completion records. */
  function ItemView(recs: seq<Record>, turn: Name, id: Name, convert: Converter): View {
    var sources := Select(recs, CompletesItem(turn, id));
    View(id, if sources == [] then "" else Shown(convert, sources[|sources| - 1]), sources)
  }

  function ViewsOf(recs: seq<Record>, turn: Name, ids: seq<Name>, convert: Converter): (r: seq<View>)
    ensures |r| == |ids|
    ensures forall k {:trigger r[k]} :: 0 <= k < |r| ==> r[k] == ItemView(recs, turn, ids[k], convert)
  {
    if ids == [] then []
    else ViewsOf(recs, turn, ids[..|ids| - 1], convert) + [ItemView(recs, turn, ids[|ids| - 1], convert)]
  }

  function ItemViews(recs: seq<Record>, turn: Name, convert: Converter): seq<View> {
    ViewsOf(recs, turn, FirstIds(recs, turn), convert)
  }

  /** What a turn would show had it never ended. */
  function OpenView(recs: seq<Record>, start: Record, convert: Converter): Turn
    requires start.body.TurnStart?
  {
    var id := start.body.turn;
    FreshTurn(id, start.body.startedAt, start)
    .(items := ItemViews(recs, id, convert), compactions := Compactions(recs, id))
  }

  /** The first terminal record settles a turn, the later ones are only kept. */
  function Settled(open: Turn, ends: seq<Record>): Turn
    requires forall k :: 0 <= k < |ends| ==> ends[k].body.Terminal?
  {
    if ends == [] || ends[0].body.outcome.None? then open else Close(open, ends[0]).(extra := ends[1..])
  }

  /** The turn begun by `start`: everything the whole file says about it. */
  function TurnView(recs: seq<Record>, start: Record, convert: Converter): Turn
    requires start.body.TurnStart?
  {
    Settled(OpenView(recs, start, convert), Select(recs, Ends(start.body.turn)))
  }

  function TurnViews(recs: seq<Record>, starts: seq<Record>, convert: Converter): (r: seq<Turn>)
    requires forall k :: 0 <= k < |starts| ==> starts[k].body.TurnStart?
    ensures |r| == |starts|
    ensures forall k {:trigger r[k]} :: 0 <= k < |r| ==> r[k] == TurnView(recs, starts[k], convert)
  {
    if starts == [] then []
    else TurnViews(recs, starts[..|starts| - 1], convert) + [TurnView(recs, starts[|starts| - 1], convert)]
  }

  /** Turns in start order, each as the whole file describes it. */
  function Declared(recs: seq<Record>, convert: Converter): seq<Turn> {
    TurnViews(recs, Select(recs, Starts), convert)
  }
}
