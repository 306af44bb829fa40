/**
  The socket worker (claude-monitor-codex/src/client.rs) beside the shared state.

  One thread owns the socket. It takes commands from a queue, matches replies to calls by wire id
  and runs sections on the shared state, each the reducer operations listed by `Sections`. The
  socket, the clock and the other threads are the choices inside an event. `wire`, `issued` and
  `dropped` are history: every frame ever written, every call ever sent, every call whose answer
  channel was let go.
*/
module Worker {
  import opened Wrappers
  import opened Reducer
  import opened ReducerRuns
  import opened ReducerTokens

  datatype Method =
    | SettingsUpdate | QueueAdd | QueueStart | QueueDelete | Steer | Interrupt | Archive | Unarchive
    | Resume | Start | Read | OtherCall(code: Name)

  predicate ArchiveGuarded(m: Method) {
    m.SettingsUpdate? || m.QueueAdd? || m.QueueStart? || m.QueueDelete? || m.Steer? || m.Interrupt? || m.Archive?
  }

  predicate ScopeGuarded(m: Method) {
    ArchiveGuarded(m) || m.Unarchive?
  }

  /** `ticket` stands for the answer channel of one caller. */
  datatype Call = Call(ticket: Name, rpc: Method, thread: Option<Name>, epoch: nat, deadline: nat)

  datatype Command =
    | Invoke(call: Call)
    | Respond(ticket: Name, request: Name, epoch: nat, token: Token)
    | Stop

  datatype Answer = Success(result: Snapshot) | Delivered | Failed(failure: Failure)

  /** A native reply; `paginated` is the other history mode that may need a full read. */
  datatype Reply = Replied(result: Snapshot, paginated: bool) | RpcError(archived: bool, busy: bool)

  /** `resume` holds the first reply of a resume that now waits for its canonical read. */
  datatype Pending = Pending(call: Call, reserved: bool, started: nat, resume: Option<Reply>)

  datatype Frame =
    | RequestFrame(wire: nat, call: Call, link: nat)
    | ReadFrame(wire: nat, call: Call, link: nat)
    | AnswerFrame(ticket: Name, request: Name, token: Token, link: nat)

  datatype Verdict = Recovered(result: Snapshot, scope: Scope) | GoneArchived | Lost

  /** Recovering one subscription: resumed, decided, then its count released, then stored. */
  datatype Recovery =
    | Idle
    | Resuming(thread: Name, epoch: nat, started: nat)
    | Decided(thread: Name, started: nat, verdict: Verdict)
    | Released(thread: Name, started: nat, verdict: Verdict)

  datatype Phase = Starting | Recovering(left: seq<Name>, recovery: Recovery) | Up | Waiting | Finished

  /** Where each call is. */
  datatype Calls = Calls(
    queue: seq<Command>, pending: map<nat, Pending>, answers: map<Name, Answer>, dropped: set<Name>, issued: set<Name>)

  datatype Books = Books(nextId: nat, calls: Calls, wire: seq<Frame>)

  datatype System = System(phase: Phase, stopping: bool, books: Books, state: Model)

  function Begun(namespace: Name, restricted: bool): System {
    System(Starting, false, Books(0, Calls([], map[], map[], {}, {}), []), Initial(namespace, restricted))
  }

  function TicketOf(c: Command): Option<Name> {
    match c
    case Invoke(call) => Some(call.ticket)
    case Respond(ticket, _, _, _) => Some(ticket)
    case Stop => None
  }

  // ---------------------------------------------------------------------------------------
  // Decisions of the worker.

  /** Why a call is refused before delivery, if it is. */
  function Refusal(s: Model, call: Call, now: nat): Option<Failure> {
    if call.thread.Some? && call.thread.value in s.control.archived && ArchiveGuarded(call.rpc) then Some(Rejected)
    else if call.thread.Some? && call.thread.value in s.fences.scope && ScopeGuarded(call.rpc) then Some(Rejected)
    else if call.deadline <= now || s.epoch != call.epoch then Some(Unavailable)
    else None
  }

  predicate NeedsCanonicalHistory(r: Reply) {
    && r.Replied? && r.result.thread.Some?
    && (r.result.thread.value.legacy || (r.paginated && AnyOpen(r.result.thread.value.turns)))
  }

  /** The reply names the requested thread and an execution directory. */
  predicate ResumeIdentity(resume: Snapshot, thread: Name) {
    resume.thread.Some? && resume.thread.value.id == thread && SnapshotCwd(resume).Some?
  }

  predicate KeepsOpenTurns(resumed: seq<Turn>, history: seq<Turn>) {
    forall k :: 0 <= k < |resumed| && resumed[k].status.InProgress? ==> HasTurn(history, resumed[k].id)
  }

  /** The resume's settings around the history of the full read, if the two agree. */
  function CanonicalResume(resume: Reply, read: Reply, thread: Name): Result<Snapshot, Failure>
    requires resume.Replied? && read.Replied?
  {
    if && ResumeIdentity(resume.result, thread)
       && read.result.thread.Some? && read.result.thread.value.id == thread
       && read.result.thread.value.cwd == SnapshotCwd(resume.result)
       && (resume.result.thread.value.legacy || resume.paginated)
       && read.result.thread.value.legacy == resume.result.thread.value.legacy && read.paginated == resume.paginated
       && KeepsOpenTurns(resume.result.thread.value.turns, read.result.thread.value.turns)
    then Ok(resume.result.(thread := read.result.thread))
    else Err(Rejected)
  }

  function ResumeFence(s: Model, thread: Name, epoch: nat, after: nat): Option<Failure> {
    if s.epoch != epoch then Some(Unavailable)
    else if Invalidated(s, thread, after) then Some(Rejected)
    else None
  }

  /** What a reply means to its call. */
  function ResultOf(p: Pending, reply: Reply): Result<Snapshot, Failure> {
    match reply
    case RpcError(archived, busy) => Err(RpcRejected(archived, busy))
    case Replied(result, _) =>
      if p.resume.Some? && p.resume.value.Replied?
      then CanonicalResume(p.resume.value, reply, if p.call.thread.Some? then p.call.thread.value else NO_NAME)
      else Ok(result)
  }

  /** The reply of a resume is only the first half. */
  predicate AwaitsHistory(p: Pending, reply: Reply) {
    p.call.rpc.Resume? && p.resume.None? && NeedsCanonicalHistory(reply)
  }

  /** Why the full read must not be asked for, if it must not. */
  function HistoryRefusal(s: Model, p: Pending, reply: Reply): Option<Failure>
    requires AwaitsHistory(p, reply)
  {
    if p.call.thread.None? || !ResumeIdentity(reply.result, p.call.thread.value) then Some(Rejected)
    else ResumeFence(s, p.call.thread.value, p.call.epoch, p.started)
  }

  /** `finalize_resume`, the answer: expiry first, then the fence of a resume. */
  function Final(s: Model, p: Pending, result: Result<Snapshot, Failure>, now: nat): Result<Snapshot, Failure> {
    if p.call.deadline <= now then Err(Uncertain)
    else if !p.call.rpc.Resume? || result.Err? then result
    else if p.call.thread.None? then Err(Rejected)
    else
      var fence := ResumeFence(s, p.call.thread.value, p.call.epoch, p.started);
      if fence.Some? then Err(fence.value) else result
  }

  /** `finalize_resume`, the sections on the shared state: the result, then the resume count. */
  function ResultSections(p: Pending, final: Result<Snapshot, Failure>, scope: Scope): seq<Op> {
    if final.Ok? && (p.call.rpc.Start? || p.call.rpc.Resume?) then [Merge(final.value, Some(p.started), scope)]
    else if final.Err? && p.reserved && p.call.thread.Some? then [Release(p.call.thread.value)]
    else []
  }

  function CountSections(p: Pending): seq<Op> {
    if p.call.rpc.Resume? && p.call.thread.Some? then [Finish(p.call.thread.value)] else []
  }

  function FinalSections(p: Pending, final: Result<Snapshot, Failure>, scope: Scope): seq<Op> {
    ResultSections(p, final, scope) + CountSections(p)
  }

  function AnswerOf(final: Result<Snapshot, Failure>): Answer {
    if final.Ok? then Success(final.value) else Failed(final.error)
  }

  // ---------------------------------------------------------------------------------------
  // Events.

  datatype Event =
    | Send(command: Command)
    | Notify(message: Message, scope: Scope)
    | Outside(op: Op)
    | AskStop
    | Clear(order: seq<Name>)
    | RecoverNext
    | RecoverReply(verdict: Verdict)
    | RecoverRelease
    | RecoverStore
    | Online
    | BootFails
    | WaitAnswer
    | Retry
    | Serve(now: nat, written: bool)
    | Receive(wire: nat, reply: Reply, now: nat, scope: Scope, written: bool)
    | Expire(wire: nat, now: nat)
    | Break
    | CloseOne(wire: nat, now: nat)
    | Quit

  /** Sections other threads run: streams, archived reads and the closing of the gateway. */
  predicate OutsideOp(op: Op) {
    op.Join? || op.Take? || op.Leave? || op.MergeArchived? || op.Disable?
  }

  predicate NoDuplicates(ids: seq<Name>) {
    forall j, k :: 0 <= j < k < |ids| ==> ids[j] != ids[k]
  }

  predicate Enabled(w: System, e: Event) {
    var c := w.books.calls;
    match e
    case Send(command) => TicketOf(command).Some? ==> TicketOf(command).value !in c.issued
    case Notify(_, _) => w.phase.Starting? || w.phase.Recovering? || w.phase.Up?
    case Outside(op) => OutsideOp(op)
    case AskStop => true
    case Clear(order) =>
      w.phase.Starting? && NoDuplicates(order)
      && (set id | id in order) == w.state.control.subscribed - w.state.control.archived
    case RecoverNext => w.phase.Recovering? && w.phase.recovery.Idle? && w.phase.left != []
    case RecoverReply(_) => w.phase.Recovering? && w.phase.recovery.Resuming?
    case RecoverRelease => w.phase.Recovering? && w.phase.recovery.Decided?
    case RecoverStore => w.phase.Recovering? && w.phase.recovery.Released?
    case Online => w.phase.Recovering? && w.phase.recovery.Idle? && w.phase.left == []
    case BootFails => w.phase.Starting?
    case WaitAnswer => w.phase.Waiting? && c.queue != []
    case Retry => w.phase.Waiting?
    case Serve(_, _) => w.phase.Up? && c.queue != []
    case Receive(wire, _, _, _, _) => w.phase.Up? && wire in c.pending
    case Expire(wire, now) => w.phase.Up? && wire in c.pending && c.pending[wire].call.deadline <= now
    case Break => w.phase.Up?
    case CloseOne(wire, _) => w.phase.Up? && w.stopping && wire in c.pending
    case Quit => w.stopping && (w.phase.Starting? || (w.phase.Up? && c.pending == map[]))
  }

  // ---------------------------------------------------------------------------------------
  // What events do to the books.

  function Answered(c: Calls, ticket: Name, answer: Answer): Calls {
    c.(answers := c.answers[ticket := answer])
  }

  function Popped(c: Calls): Calls
    requires c.queue != []
  {
    c.(queue := c.queue[1..])
  }

  /** `send` fails once the worker's thread is gone. */
  function Enqueue(b: Books, command: Command, finished: bool): Books {
    var ticket := TicketOf(command);
    var c := b.calls.(issued := b.calls.issued + if ticket.Some? then {ticket.value} else {});
    b.(calls := if !finished then c.(queue := c.queue + [command])
                else if ticket.Some? then Answered(c, ticket.value, Failed(Unavailable)) else c)
  }

  /** The head of the queue is refused before anything is written. */
  function Decline(b: Books, failure: Failure): Books
    requires b.calls.queue != []
  {
    var ticket := TicketOf(b.calls.queue[0]);
    b.(calls := if ticket.Some? then Answered(Popped(b.calls), ticket.value, Failed(failure)) else Popped(b.calls))
  }

  /** The head of the queue is a call that is written under a fresh wire id. */
  function Dispatch(b: Books, reserved: bool, started: nat, epoch: nat): Books
    requires b.calls.queue != [] && b.calls.queue[0].Invoke?
  {
    var call, id := b.calls.queue[0].call, b.nextId + 1;
    Books(id,
          Popped(b.calls).(pending := b.calls.pending[id := Pending(call, reserved, started, None)]),
          b.wire + [RequestFrame(id, call, epoch)])
  }

  /** The head of the queue is an answer to a runtime request. */
  function DispatchAnswer(b: Books, epoch: nat, written: bool): Books
    requires b.calls.queue != [] && b.calls.queue[0].Respond?
  {
    var c := b.calls.queue[0];
    b.(calls := Answered(Popped(b.calls), c.ticket, if written then Delivered else Failed(Uncertain)),
       wire := b.wire + [AnswerFrame(c.ticket, c.request, c.token, epoch)])
  }

  /** A finished call: out of the pending table, answered. */
  function Close(b: Books, wire: nat, answer: Answer): Books
    requires wire in b.calls.pending
  {
    b.(calls := Answered(b.calls.(pending := b.calls.pending - {wire}), b.calls.pending[wire].call.ticket, answer))
  }

  /** The resume moves to a new wire id and waits for its full read. */
  function Continue(b: Books, wire: nat, reply: Reply, epoch: nat): Books
    requires wire in b.calls.pending
  {
    var p, id := b.calls.pending[wire], b.nextId + 1;
    Books(id,
          b.calls.(pending := (b.calls.pending - {wire})[id := p.(resume := Some(reply))]),
          b.wire + [ReadFrame(id, p.call, epoch)])
  }

  function PendingTickets(pending: map<nat, Pending>): set<Name> {
    set wire | wire in pending :: pending[wire].call.ticket
  }

  function QueuedTickets(queue: seq<Command>): set<Name> {
    set k | 0 <= k < |queue| && TicketOf(queue[k]).Some? :: TicketOf(queue[k]).value
  }

  function AllUncertain(answers: map<Name, Answer>, tickets: set<Name>): map<Name, Answer> {
    answers + map t | t in tickets :: Failed(Uncertain)
  }

  /** A lost connection: whatever was pending may have been committed. */
  function Lose(b: Books): Books {
    b.(calls := b.calls.(
         pending := map[],
         answers := AllUncertain(b.calls.answers, PendingTickets(b.calls.pending))))
  }

  /** Every channel left over when the worker's thread ends is let go unanswered. */
  function End(b: Books): Books {
    b.(calls := b.calls.(
         queue := [], pending := map[],
         dropped := b.calls.dropped + QueuedTickets(b.calls.queue) + PendingTickets(b.calls.pending)))
  }

  // ---------------------------------------------------------------------------------------
  // Events, put together.

  /** The command at the head of the queue reaches the socket. */
  predicate Writes(w: System, now: nat)
    requires w.books.calls.queue != []
  {
    var command := w.books.calls.queue[0];
    && !w.stopping
    && match command
       case Invoke(call) => Refusal(w.state, call, now).None?
       case Respond(_, request, epoch, token) => Deliverable(w.state, request, epoch, token)
       case Stop => false
  }

  function Served(w: System, now: nat, written: bool): Books
    requires w.books.calls.queue != []
  {
    var b, command := w.books, w.books.calls.queue[0];
    if w.stopping then Decline(b, Unavailable)
    else
      match command
      case Invoke(call) =>
        if Writes(w, now) then
          Dispatch(b, call.rpc.Resume? && call.thread.Some? && call.thread.value !in w.state.control.subscribed,
                   w.state.sequence, w.state.epoch)
        else Decline(b, Refusal(w.state, call, now).value)
      case Respond(_, _, _, _) => if Writes(w, now) then DispatchAnswer(b, w.state.epoch, written) else Decline(b, Rejected)
      case Stop => Decline(b, Unavailable)
  }

  /** The result a received reply is finalized with. */
  function ReplyResult(s: Model, p: Pending, reply: Reply): Result<Snapshot, Failure> {
    if AwaitsHistory(p, reply) && HistoryRefusal(s, p, reply).Some? then Err(HistoryRefusal(s, p, reply).value)
    else ResultOf(p, reply)
  }

  predicate Continues(s: Model, p: Pending, reply: Reply) {
    AwaitsHistory(p, reply) && HistoryRefusal(s, p, reply).None?
  }

  function Received(w: System, wire: nat, reply: Reply, now: nat): Books
    requires wire in w.books.calls.pending
  {
    var p := w.books.calls.pending[wire];
    if Continues(w.state, p, reply) then Continue(w.books, wire, reply, w.state.epoch)
    else Close(w.books, wire, AnswerOf(Final(w.state, p, ReplyResult(w.state, p, reply), now)))
  }

  /** A failed write or read ends the connection. */
  predicate Loses(w: System, e: Event)
    requires Enabled(w, e)
  {
    match e
    case Serve(now, written) => !written && Writes(w, now)
    case Receive(wire, reply, _, _, written) => !written && Continues(w.state, w.books.calls.pending[wire], reply)
    case Break => true
    case _ => false
  }

  predicate Ends(w: System, e: Event)
    requires Enabled(w, e)
  {
    match e
    case Serve(_, _) => !w.stopping && w.books.calls.queue[0].Stop?
    case WaitAnswer => w.books.calls.queue[0].Stop?
    case Quit => true
    case _ => false
  }

  function Core(w: System, e: Event): Books
    requires Enabled(w, e)
  {
    match e
    case Send(command) => Enqueue(w.books, command, w.phase.Finished?)
    case WaitAnswer => Decline(w.books, Unavailable)
    case Serve(now, written) => Served(w, now, written)
    case Receive(wire, reply, now, _, _) => Received(w, wire, reply, now)
    case Expire(wire, _) => Close(w.books, wire, Failed(Uncertain))
    case CloseOne(wire, _) => Close(w.books, wire, Failed(Uncertain))
    case _ => w.books
  }

  function BooksAfter(w: System, e: Event): Books
    requires Enabled(w, e)
  {
    if Loses(w, e) then Lose(Core(w, e)) else if Ends(w, e) then End(Core(w, e)) else Core(w, e)
  }

  /** The verdict of a recovery after its own fence. */
  function Fenced(s: Model, r: Recovery, verdict: Verdict): Verdict
    requires r.Resuming?
  {
    if verdict.Recovered? && ResumeFence(s, r.thread, r.epoch, r.started).Some? then Lost else verdict
  }

  function PhaseAfter(w: System, e: Event): Phase
    requires Enabled(w, e)
  {
    if Loses(w, e) then Starting
    else if Ends(w, e) then Finished
    else
      match e
      case Clear(order) => Recovering(order, Idle)
      case RecoverNext => Recovering(w.phase.left[1..], Resuming(w.phase.left[0], w.state.epoch, w.state.sequence))
      case RecoverReply(verdict) =>
        var r := w.phase.recovery;
        w.phase.(recovery := Decided(r.thread, r.started, Fenced(w.state, r, verdict)))
      case RecoverRelease =>
        var r := w.phase.recovery;
        w.phase.(recovery := Released(r.thread, r.started, r.verdict))
      case RecoverStore => w.phase.(recovery := Idle)
      case Online => Up
      case BootFails => Waiting
      case Retry => Starting
      case _ => w.phase
  }

  function ServeSections(w: System, now: nat): seq<Op>
    requires w.books.calls.queue != []
  {
    var command := w.books.calls.queue[0];
    if Writes(w, now) && command.Invoke? && command.call.rpc.Resume? && command.call.thread.Some?
    then [Reserve(command.call.thread.value), Begin(command.call.thread.value)] else []
  }

  function ReceiveSections(w: System, wire: nat, reply: Reply, now: nat, scope: Scope): seq<Op>
    requires wire in w.books.calls.pending
  {
    var p := w.books.calls.pending[wire];
    if Continues(w.state, p, reply) then []
    else FinalSections(p, Final(w.state, p, ReplyResult(w.state, p, reply), now), scope)
  }

  function StoreSections(r: Recovery): seq<Op>
    requires r.Released?
  {
    match r.verdict
    case Recovered(result, scope) => [Merge(result, Some(r.started), scope)]
    case GoneArchived => [FoundArchived(r.thread)]
    case Lost => [FailedRecovery(r.thread)]
  }

  /** The sections an event runs on the shared state, before a lost connection is published. */
  function CoreSections(w: System, e: Event): seq<Op>
    requires Enabled(w, e)
  {
    match e
    case Notify(message, scope) => [Native(message, scope)]
    case Outside(op) => [op]
    case Clear(_) => [ClearPending]
    case RecoverNext => [Begin(w.phase.left[0])]
    case RecoverRelease => [Finish(w.phase.recovery.thread)]
    case RecoverStore => StoreSections(w.phase.recovery)
    case Online => [Publish(Connected)]
    case BootFails => [Publish(Reconnecting)]
    case Serve(now, _) => ServeSections(w, now)
    case Receive(wire, reply, now, scope, _) => ReceiveSections(w, wire, reply, now, scope)
    case Expire(wire, _) => FinalSections(w.books.calls.pending[wire], Err(Uncertain), OutOfScope)
    case CloseOne(wire, _) => FinalSections(w.books.calls.pending[wire], Err(Uncertain), OutOfScope)
    case _ => []
  }

  function Sections(w: System, e: Event): seq<Op>
    requires Enabled(w, e)
  {
    CoreSections(w, e) + if Loses(w, e) then [Publish(Reconnecting)] else []
  }

  function Next(w: System, e: Event): System
    requires Enabled(w, e)
  {
    System(PhaseAfter(w, e), w.stopping || e.AskStop?, BooksAfter(w, e), Run(w.state, Sections(w, e)))
  }

  ghost predicate Unfolds(w: System, events: seq<Event>)
    decreases |events|
  {
    events == [] || (Enabled(w, events[0]) && Unfolds(Next(w, events[0]), events[1..]))
  }

  ghost function After(w: System, events: seq<Event>): System
    requires Unfolds(w, events)
    decreases |events|
  {
    if events == [] then w else After(Next(w, events[0]), events[1..])
  }

  /** All sections of a run, in order. */
  ghost function AllSections(w: System, events: seq<Event>): seq<Op>
    requires Unfolds(w, events)
    decreases |events|
  {
    if events == [] then [] else Sections(w, events[0]) + AllSections(Next(w, events[0]), events[1..])
  }
}
