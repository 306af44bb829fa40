/** The life of a call: where it is, how often it is written, and what its answer tells the caller. */
module WorkerCalls {
  import opened Wrappers
  import opened Reducer
  import opened ReducerRuns
  import opened ReducerGuarantees
  import opened Worker

  // ---------------------------------------------------------------------------------------
  // Counting where a ticket is and what was written for it.

  predicate Carries(c: Command, t: Name) {
    TicketOf(c) == Some(t)
  }

  function Queued(queue: seq<Command>, t: Name): nat {
    if queue == [] then 0 else (if Carries(queue[0], t) then 1 else 0) + Queued(queue[1..], t)
  }

  function PendingOf(pending: map<nat, Pending>, t: Name): set<nat> {
    set wire | wire in pending && pending[wire].call.ticket == t
  }

  /** In how many places a ticket is: queue, pending table, answered, let go. */
  function Places(c: Calls, t: Name): nat {
    Queued(c.queue, t) + |PendingOf(c.pending, t)| + (if t in c.answers then 1 else 0) + (if t in c.dropped then 1 else 0)
  }

  function FrameTicket(f: Frame): Name {
    match f
    case RequestFrame(_, call, _) => call.ticket
    case ReadFrame(_, call, _) => call.ticket
    case AnswerFrame(ticket, _, _, _) => ticket
  }

  /** How often a ticket's request, canonical read and runtime answer were written. */
  datatype Tally = Tally(requests: nat, fetches: nat, answers: nat)

  const UNWRITTEN := Tally(0, 0, 0)

  function Tick(n: Tally, f: Frame): Tally {
    if f.RequestFrame? then n.(requests := n.requests + 1)
    else if f.ReadFrame? then n.(fetches := n.fetches + 1)
    else n.(answers := n.answers + 1)
  }

  function TallyOf(wire: seq<Frame>, t: Name): Tally {
    if wire == [] then UNWRITTEN
    else
      var before := TallyOf(wire[..|wire| - 1], t);
      if FrameTicket(wire[|wire| - 1]) == t then Tick(before, wire[|wire| - 1]) else before
  }

  // ---------------------------------------------------------------------------------------
  // Invariants of the books, ticket by ticket.

  /** A ticket once sent is in exactly one place; before that, in none. */
  ghost predicate Placed(c: Calls, t: Name) {
    Places(c, t) == if t in c.issued then 1 else 0
  }

  /** Written at most once, a resume with at most one canonical read, and nothing while queued. */
  ghost predicate Written(b: Books, t: Name) {
    var n := TallyOf(b.wire, t);
    && n.requests + n.answers <= 1 && n.fetches <= n.requests
    && (t !in b.calls.issued || Queued(b.calls.queue, t) > 0 ==> n == UNWRITTEN)
  }

  predicate OfCall(f: Frame, call: Call) {
    !f.AnswerFrame? && f.call == call
  }

  /** Every frame of a pending call is that call's; it was written once, and read once if it continues. */
  ghost predicate PendingWritten(b: Books, id: nat)
    requires id in b.calls.pending
  {
    var p := b.calls.pending[id];
    && 0 < id <= b.nextId
    && TallyOf(b.wire, p.call.ticket) == Tally(1, if p.resume.Some? then 1 else 0, 0)
    && (p.resume.Some? ==> p.call.rpc.Resume?)
    && (forall k :: 0 <= k < |b.wire| && FrameTicket(b.wire[k]) == p.call.ticket ==> OfCall(b.wire[k], p.call))
  }

  predicate Refused(a: Answer) {
    a.Failed? && (a.failure.Unavailable? || a.failure.Rejected?)
  }

  predicate OfResume(f: Frame) {
    !f.AnswerFrame? && f.call.rpc.Resume?
  }

  ghost predicate OnlyResumes(wire: seq<Frame>, t: Name) {
    forall k :: 0 <= k < |wire| && FrameTicket(wire[k]) == t ==> OfResume(wire[k])
  }

  /** Refused without being written, unless it was a resume. */
  ghost predicate Truthful(b: Books, t: Name) {
    t in b.calls.answers && Refused(b.calls.answers[t]) ==> OnlyResumes(b.wire, t)
  }

  predicate Linked(f: Frame) {
    !f.AnswerFrame? ==> f.link == f.call.epoch && (f.ReadFrame? ==> f.call.rpc.Resume?)
  }

  predicate Below(f: Frame, id: nat) {
    !f.AnswerFrame? ==> 0 < f.wire <= id
  }

  /** Wire ids grow along the wire and are never reused. */
  ghost predicate WireFresh(wire: seq<Frame>, nextId: nat) {
    && (forall k :: 0 <= k < |wire| ==> Below(wire[k], nextId) && Linked(wire[k]))
    && (forall j, k :: 0 <= j < k < |wire| && !wire[j].AnswerFrame? && !wire[k].AnswerFrame? ==>
          wire[j].wire < wire[k].wire)
  }

  ghost predicate BooksOk(b: Books) {
    && (forall t :: Placed(b.calls, t))
    && (forall t :: Written(b, t))
    && (forall id :: id in b.calls.pending ==> PendingWritten(b, id))
    && (forall t :: Truthful(b, t))
    && WireFresh(b.wire, b.nextId)
  }

  // ---------------------------------------------------------------------------------------
  // Counting lemmas.

  lemma {:induction false} QueuedSnoc(queue: seq<Command>, c: Command, t: Name)
    ensures Queued(queue + [c], t) == Queued(queue, t) + if Carries(c, t) then 1 else 0
  {
    if queue == [] {
      assert queue + [c] == [c];
    } else {
      assert (queue + [c])[0] == queue[0] && (queue + [c])[1..] == queue[1..] + [c];
      QueuedSnoc(queue[1..], c, t);
    }
  }

  lemma {:induction false} QueuedIn(queue: seq<Command>, t: Name)
    ensures Queued(queue, t) > 0 <==> t in QueuedTickets(queue)
  {
    if queue != [] {
      QueuedIn(queue[1..], t);
      assert forall k :: 0 <= k < |queue[1..]| ==> queue[1..][k] == queue[k + 1];
      if t in QueuedTickets(queue[1..]) {
        var k :| 0 <= k < |queue[1..]| && TicketOf(queue[1..][k]) == Some(t);
        assert TicketOf(queue[k + 1]) == Some(t);
      }
      if t in QueuedTickets(queue) {
        var k :| 0 <= k < |queue| && TicketOf(queue[k]) == Some(t);
        if k > 0 { assert queue[1..][k - 1] == queue[k]; }
      }
    }
  }

  lemma {:induction false} PendingInserted(pending: map<nat, Pending>, id: nat, p: Pending, t: Name)
    requires id !in pending
    ensures |PendingOf(pending[id := p], t)| == |PendingOf(pending, t)| + if p.call.ticket == t then 1 else 0
  {
    if p.call.ticket == t {
      assert PendingOf(pending[id := p], t) == PendingOf(pending, t) + {id};
    } else {
      assert PendingOf(pending[id := p], t) == PendingOf(pending, t);
    }
  }

  lemma {:induction false} PendingRemoved(pending: map<nat, Pending>, id: nat, t: Name)
    requires id in pending
    ensures |PendingOf(pending - {id}, t)| == |PendingOf(pending, t)| - if pending[id].call.ticket == t then 1 else 0
  {
    if pending[id].call.ticket == t {
      assert PendingOf(pending - {id}, t) == PendingOf(pending, t) - {id};
      assert id in PendingOf(pending, t);
    } else {
      assert PendingOf(pending - {id}, t) == PendingOf(pending, t);
    }
  }

  lemma {:induction false} PendingIn(pending: map<nat, Pending>, t: Name)
    ensures |PendingOf(pending, t)| > 0 <==> t in PendingTickets(pending)
  {
    if t in PendingTickets(pending) {
      var id :| id in pending && pending[id].call.ticket == t;
      assert id in PendingOf(pending, t);
    } else {
      assert PendingOf(pending, t) == {};
    }
  }

  lemma {:induction false} TallyAppended(wire: seq<Frame>, f: Frame, t: Name)
    ensures TallyOf(wire + [f], t) == if FrameTicket(f) == t then Tick(TallyOf(wire, t), f) else TallyOf(wire, t)
  {
    assert (wire + [f])[..|wire|] == wire;
  }

  lemma {:induction false} UnwrittenHasNoFrame(wire: seq<Frame>, t: Name)
    requires TallyOf(wire, t) == UNWRITTEN
    ensures forall k :: 0 <= k < |wire| ==> FrameTicket(wire[k]) != t
  {
    if wire != [] {
      UnwrittenHasNoFrame(wire[..|wire| - 1], t);
      assert forall k :: 0 <= k < |wire| - 1 ==> wire[..|wire| - 1][k] == wire[k];
    }
  }

  // ---------------------------------------------------------------------------------------
  // Places.

  lemma {:induction false} EnqueuePlaced(b: Books, command: Command, finished: bool, t: Name)
    requires Placed(b.calls, t) && (TicketOf(command).Some? ==> TicketOf(command).value !in b.calls.issued)
    ensures Placed(Enqueue(b, command, finished).calls, t)
  {
    QueuedSnoc(b.calls.queue, command, t);
  }

  lemma {:induction false} DeclinePlaced(b: Books, failure: Failure, t: Name)
    requires b.calls.queue != [] && Placed(b.calls, t)
    ensures Placed(Decline(b, failure).calls, t)
  {
  }

  lemma {:induction false} DispatchPlaced(b: Books, reserved: bool, started: nat, epoch: nat, t: Name)
    requires b.calls.queue != [] && b.calls.queue[0].Invoke? && Placed(b.calls, t)
    requires b.nextId + 1 !in b.calls.pending
    ensures Placed(Dispatch(b, reserved, started, epoch).calls, t)
  {
    PendingInserted(b.calls.pending, b.nextId + 1, Pending(b.calls.queue[0].call, reserved, started, None), t);
  }

  lemma {:induction false} DispatchAnswerPlaced(b: Books, epoch: nat, written: bool, t: Name)
    requires b.calls.queue != [] && b.calls.queue[0].Respond? && Placed(b.calls, t)
    ensures Placed(DispatchAnswer(b, epoch, written).calls, t)
  {
  }

  lemma {:induction false} ClosePlaced(b: Books, id: nat, answer: Answer, t: Name)
    requires id in b.calls.pending && Placed(b.calls, t)
    ensures Placed(Close(b, id, answer).calls, t)
  {
    PendingRemoved(b.calls.pending, id, t);
  }

  lemma {:induction false} ContinuePlaced(b: Books, id: nat, reply: Reply, epoch: nat, t: Name)
    requires id in b.calls.pending && b.nextId + 1 !in b.calls.pending && Placed(b.calls, t)
    ensures Placed(Continue(b, id, reply, epoch).calls, t)
  {
    PendingRemoved(b.calls.pending, id, t);
    PendingInserted(b.calls.pending - {id}, b.nextId + 1, b.calls.pending[id].(resume := Some(reply)), t);
  }

  lemma {:induction false} LosePlaced(b: Books, t: Name)
    requires Placed(b.calls, t)
    ensures Placed(Lose(b).calls, t)
  {
    PendingIn(b.calls.pending, t);
    assert PendingOf(map[], t) == {};
  }

  lemma {:induction false} EndPlaced(b: Books, t: Name)
    requires Placed(b.calls, t)
    ensures Placed(End(b).calls, t)
  {
    PendingIn(b.calls.pending, t);
    QueuedIn(b.calls.queue, t);
    assert PendingOf(map[], t) == {};
  }

  // ---------------------------------------------------------------------------------------
  // Frames.

  lemma {:induction false} HeadExclusive(b: Books, t: Name)
    requires BooksOk(b) && b.calls.queue != [] && TicketOf(b.calls.queue[0]) == Some(t)
    ensures Queued(b.calls.queue[1..], t) == 0 && t !in b.calls.answers && t in b.calls.issued
    ensures t !in PendingTickets(b.calls.pending) && TallyOf(b.wire, t) == UNWRITTEN
    ensures forall k :: 0 <= k < |b.wire| ==> FrameTicket(b.wire[k]) != t
  {
    assert Placed(b.calls, t) && Written(b, t);
    PendingIn(b.calls.pending, t);
    UnwrittenHasNoFrame(b.wire, t);
  }

  lemma {:induction false} PendingExclusive(b: Books, id: nat, t: Name)
    requires BooksOk(b) && id in b.calls.pending && b.calls.pending[id].call.ticket == t
    ensures Queued(b.calls.queue, t) == 0 && t !in b.calls.answers && t in b.calls.issued
    ensures forall other :: other in b.calls.pending && b.calls.pending[other].call.ticket == t ==> other == id
  {
    assert Placed(b.calls, t);
    var ids := PendingOf(b.calls.pending, t);
    assert id in ids && {id} <= ids;
    assert |ids| == 1;
    forall other | other in b.calls.pending && b.calls.pending[other].call.ticket == t ensures other == id {
      if other != id {
        assert {id, other} <= ids;
        SubsetSize({id, other}, ids);
      }
    }
  }

  lemma {:induction false} SubsetSize(a: set<nat>, b: set<nat>)
    requires a <= b
    ensures |a| <= |b|
  {
    if a != {} {
      var x :| x in a;
      SubsetSize(a - {x}, b - {x});
    }
  }

  /** Appending a frame with the next wire id, or none. */
  lemma {:induction false} WireAppended(wire: seq<Frame>, nextId: nat, f: Frame, id: nat)
    requires WireFresh(wire, nextId) && Linked(f)
    requires if f.AnswerFrame? then id == nextId else id == nextId + 1 && f.wire == id
    ensures WireFresh(wire + [f], id)
  {
    var longer := wire + [f];
    forall k | 0 <= k < |longer| ensures Below(longer[k], id) && Linked(longer[k]) {
      if k < |wire| { assert Below(wire[k], nextId) && Linked(wire[k]); }
    }
    forall j, k | 0 <= j < k < |longer| && !longer[j].AnswerFrame? && !longer[k].AnswerFrame?
      ensures longer[j].wire < longer[k].wire
    {
      assert Below(wire[j], nextId);
      if k < |wire| { assert wire[j].wire < wire[k].wire; }
    }
  }

  /** A frame of another ticket changes nothing for a pending call or a refused ticket. */
  lemma {:induction false} OtherFrame(wire: seq<Frame>, f: Frame, t: Name)
    requires FrameTicket(f) != t
    ensures TallyOf(wire + [f], t) == TallyOf(wire, t)
    ensures OnlyResumes(wire, t) ==> OnlyResumes(wire + [f], t)
    ensures forall k :: 0 <= k < |wire + [f]| && FrameTicket((wire + [f])[k]) == t ==> k < |wire| && (wire + [f])[k] == wire[k]
  {
    TallyAppended(wire, f, t);
  }

  lemma {:induction false} UnwrittenOnlyResumes(wire: seq<Frame>, t: Name)
    requires TallyOf(wire, t) == UNWRITTEN
    ensures OnlyResumes(wire, t)
  {
    UnwrittenHasNoFrame(wire, t);
  }

  // ---------------------------------------------------------------------------------------
  // Every move keeps the books in order.

  lemma {:induction false} EnqueueOk(b: Books, command: Command, finished: bool)
    requires BooksOk(b) && (TicketOf(command).Some? ==> TicketOf(command).value !in b.calls.issued)
    ensures BooksOk(Enqueue(b, command, finished))
  {
    hide Placed, OnlyResumes, WireFresh;
    var u := Enqueue(b, command, finished);
    forall t: Name ensures Placed(u.calls, t) && Written(u, t) && Truthful(u, t) {
      EnqueuePlaced(b, command, finished, t);
      QueuedSnoc(b.calls.queue, command, t);
      assert Written(b, t) && Truthful(b, t);
      if TicketOf(command) == Some(t) {
        UnwrittenOnlyResumes(b.wire, t);
      }
    }
    forall id | id in u.calls.pending ensures PendingWritten(u, id) {
      assert PendingWritten(b, id);
    }
  }

  lemma {:induction false} DeclineOk(b: Books, failure: Failure)
    requires BooksOk(b) && b.calls.queue != []
    ensures BooksOk(Decline(b, failure))
  {
    hide Placed, OnlyResumes, WireFresh;
    var u := Decline(b, failure);
    forall t: Name ensures Placed(u.calls, t) && Written(u, t) && Truthful(u, t) {
      DeclinePlaced(b, failure, t);
      assert Written(b, t) && Truthful(b, t);
      if TicketOf(b.calls.queue[0]) == Some(t) {
        UnwrittenOnlyResumes(b.wire, t);
      }
    }
    forall id | id in u.calls.pending ensures PendingWritten(u, id) {
      assert PendingWritten(b, id);
    }
  }

  lemma {:induction false} NextIdUnused(b: Books)
    requires BooksOk(b)
    ensures b.nextId + 1 !in b.calls.pending
  {
    forall id | id in b.calls.pending ensures id <= b.nextId {
      assert PendingWritten(b, id);
    }
  }

  lemma {:induction false} DispatchOk(b: Books, reserved: bool, started: nat, epoch: nat)
    requires BooksOk(b) && b.calls.queue != [] && b.calls.queue[0].Invoke? && b.calls.queue[0].call.epoch == epoch
    ensures BooksOk(Dispatch(b, reserved, started, epoch))
  {
    hide Placed, OnlyResumes, WireFresh, TallyOf;
    var call, u := b.calls.queue[0].call, Dispatch(b, reserved, started, epoch);
    var f := RequestFrame(b.nextId + 1, call, epoch);
    NextIdUnused(b);
    HeadExclusive(b, call.ticket);
    forall t: Name ensures Placed(u.calls, t) && Written(u, t) && Truthful(u, t) {
      DispatchPlaced(b, reserved, started, epoch, t);
      TallyAppended(b.wire, f, t);
      assert Written(b, t) && Truthful(b, t);
      if t != call.ticket { OtherFrame(b.wire, f, t); }
    }
    forall id | id in u.calls.pending ensures PendingWritten(u, id) {
      if id == b.nextId + 1 {
        TallyAppended(b.wire, f, call.ticket);
      } else {
        assert PendingWritten(b, id);
        OtherFrame(b.wire, f, b.calls.pending[id].call.ticket);
      }
    }
    WireAppended(b.wire, b.nextId, f, u.nextId);
  }

  lemma {:induction false} DispatchAnswerOk(b: Books, epoch: nat, written: bool)
    requires BooksOk(b) && b.calls.queue != [] && b.calls.queue[0].Respond?
    ensures BooksOk(DispatchAnswer(b, epoch, written))
  {
    hide Placed, OnlyResumes, WireFresh, TallyOf;
    var c, u := b.calls.queue[0], DispatchAnswer(b, epoch, written);
    var f := AnswerFrame(c.ticket, c.request, c.token, epoch);
    HeadExclusive(b, c.ticket);
    forall t: Name ensures Placed(u.calls, t) && Written(u, t) && Truthful(u, t) {
      DispatchAnswerPlaced(b, epoch, written, t);
      TallyAppended(b.wire, f, t);
      assert Written(b, t) && Truthful(b, t);
      if t != c.ticket { OtherFrame(b.wire, f, t); }
    }
    forall id | id in u.calls.pending ensures PendingWritten(u, id) {
      assert PendingWritten(b, id);
      OtherFrame(b.wire, f, b.calls.pending[id].call.ticket);
    }
    WireAppended(b.wire, b.nextId, f, u.nextId);
  }

  lemma {:induction false} CloseOk(b: Books, id: nat, answer: Answer)
    requires BooksOk(b) && id in b.calls.pending && (Refused(answer) ==> b.calls.pending[id].call.rpc.Resume?)
    ensures BooksOk(Close(b, id, answer))
  {
    hide Placed, WireFresh, TallyOf;
    var p, u := b.calls.pending[id], Close(b, id, answer);
    assert PendingWritten(b, id);
    forall t: Name ensures Placed(u.calls, t) && Written(u, t) && Truthful(u, t) {
      ClosePlaced(b, id, answer, t);
      assert Written(b, t) && Truthful(b, t);
      if t == p.call.ticket && p.call.rpc.Resume? {
        assert OnlyResumes(b.wire, t);
      }
    }
    forall other | other in u.calls.pending ensures PendingWritten(u, other) {
      assert PendingWritten(b, other);
    }
  }

  lemma {:induction false} ContinueOk(b: Books, id: nat, reply: Reply, epoch: nat)
    requires BooksOk(b) && id in b.calls.pending
    requires b.calls.pending[id].resume.None? && b.calls.pending[id].call.rpc.Resume?
    requires b.calls.pending[id].call.epoch == epoch
    ensures BooksOk(Continue(b, id, reply, epoch))
  {
    hide Placed, OnlyResumes, WireFresh, TallyOf;
    var p, u := b.calls.pending[id], Continue(b, id, reply, epoch);
    var f := ReadFrame(b.nextId + 1, p.call, epoch);
    NextIdUnused(b);
    assert PendingWritten(b, id);
    PendingExclusive(b, id, p.call.ticket);
    forall t: Name ensures Placed(u.calls, t) && Written(u, t) && Truthful(u, t) {
      ContinuePlaced(b, id, reply, epoch, t);
      TallyAppended(b.wire, f, t);
      assert Written(b, t) && Truthful(b, t);
      if t != p.call.ticket { OtherFrame(b.wire, f, t); }
    }
    forall other | other in u.calls.pending ensures PendingWritten(u, other) {
      if other == b.nextId + 1 {
        TallyAppended(b.wire, f, p.call.ticket);
      } else {
        assert PendingWritten(b, other);
        OtherFrame(b.wire, f, b.calls.pending[other].call.ticket);
      }
    }
    WireAppended(b.wire, b.nextId, f, u.nextId);
  }

  lemma {:induction false} LoseOk(b: Books)
    requires BooksOk(b)
    ensures BooksOk(Lose(b))
  {
    hide Placed, OnlyResumes, WireFresh, TallyOf;
    var u := Lose(b);
    forall t: Name ensures Placed(u.calls, t) && Written(u, t) && Truthful(u, t) {
      LosePlaced(b, t);
      assert Written(b, t) && Truthful(b, t);
    }
  }

  lemma {:induction false} EndOk(b: Books)
    requires BooksOk(b)
    ensures BooksOk(End(b))
  {
    hide Placed, OnlyResumes, WireFresh, TallyOf;
    var u := End(b);
    forall t: Name ensures Placed(u.calls, t) && Written(u, t) && Truthful(u, t) {
      EndPlaced(b, t);
      assert Written(b, t) && Truthful(b, t);
    }
  }

  // ---------------------------------------------------------------------------------------
  // The worker.

  ghost predicate SameEpoch(pending: map<nat, Pending>, epoch: nat) {
    forall id :: id in pending ==> pending[id].call.epoch == epoch
  }

  /** Calls are pending only while connected, each on the connection it was sent for. */
  ghost predicate SystemOk(w: System) {
    && BooksOk(w.books)
    && (if w.phase.Up? then SameEpoch(w.books.calls.pending, w.state.epoch) else w.books.calls.pending == map[])
    && (w.phase.Up? ==> w.state.connection.Connected?)
    && (w.phase.Starting? || w.phase.Recovering? || w.phase.Waiting? ==> !w.state.connection.Connected?)
  }

  lemma {:induction false} BegunOk(namespace: Name, restricted: bool)
    ensures SystemOk(Begun(namespace, restricted))
  {
    var b := Begun(namespace, restricted).books;
    forall t: Name ensures Placed(b.calls, t) {
      assert PendingOf(map[], t) == {};
    }
  }

  /** Sections that publish nothing stay on the connection. */
  lemma {:induction false} RunLink(s: Model, ops: seq<Op>)
    requires forall k :: 0 <= k < |ops| ==> !ops[k].Publish?
    ensures SameLink(s, Run(s, ops))
    decreases |ops|
  {
    hide Apply;
    if ops != [] {
      ApplyLink(s, ops[0]);
      RunLink(Apply(s, ops[0]), ops[1..]);
    }
  }

  /** A call that is not a resume is never refused by its reply. */
  lemma {:induction false} FinalTruthful(s: Model, p: Pending, reply: Reply, now: nat)
    requires p.resume.Some? ==> p.call.rpc.Resume?
    ensures Refused(AnswerOf(Final(s, p, ReplyResult(s, p, reply), now))) ==> p.call.rpc.Resume?
  {
    hide NeedsCanonicalHistory, CanonicalResume, ResumeFence;
  }

  lemma {:induction false} ServeOk(w: System, now: nat, written: bool)
    requires SystemOk(w) && w.phase.Up? && w.books.calls.queue != []
    ensures BooksOk(Served(w, now, written))
    ensures SameEpoch(Served(w, now, written).calls.pending, w.state.epoch)
  {
    hide BooksOk;
    var command := w.books.calls.queue[0];
    if Writes(w, now) && command.Invoke? {
      DispatchOk(w.books, command.call.rpc.Resume? && command.call.thread.Some?
                          && command.call.thread.value !in w.state.control.subscribed,
                 w.state.sequence, w.state.epoch);
    } else if Writes(w, now) {
      DispatchAnswerOk(w.books, w.state.epoch, written);
    } else {
      DeclineOk(w.books, Unavailable);
      DeclineOk(w.books, Rejected);
    }
  }

  lemma {:induction false} ReceiveOk(w: System, wire: nat, reply: Reply, now: nat)
    requires SystemOk(w) && w.phase.Up? && wire in w.books.calls.pending
    ensures BooksOk(Received(w, wire, reply, now))
    ensures SameEpoch(Received(w, wire, reply, now).calls.pending, w.state.epoch)
  {
    hide HistoryRefusal, Final, ReplyResult, TallyOf, WireFresh, Placed, Written, Truthful;
    var p := w.books.calls.pending[wire];
    assert PendingWritten(w.books, wire);
    if Continues(w.state, p, reply) {
      ContinueOk(w.books, wire, reply, w.state.epoch);
    } else {
      FinalTruthful(w.state, p, reply, now);
      CloseOk(w.books, wire, AnswerOf(Final(w.state, p, ReplyResult(w.state, p, reply), now)));
    }
  }

  lemma {:induction false} CoreOk(w: System, e: Event)
    requires SystemOk(w) && Enabled(w, e)
    ensures BooksOk(Core(w, e))
    ensures if w.phase.Up? then SameEpoch(Core(w, e).calls.pending, w.state.epoch) else Core(w, e).calls.pending == map[]
  {
    hide BooksOk, Served, Received;
    match e
    case Send(command) => EnqueueOk(w.books, command, w.phase.Finished?);
    case WaitAnswer => DeclineOk(w.books, Unavailable);
    case Serve(now, written) => ServeOk(w, now, written);
    case Receive(wire, reply, now, _, _) => ReceiveOk(w, wire, reply, now);
    case Expire(wire, _) => CloseOk(w.books, wire, Failed(Uncertain));
    case CloseOne(wire, _) => CloseOk(w.books, wire, Failed(Uncertain));
    case _ =>
  }

  lemma {:induction false} BooksAfterOk(w: System, e: Event)
    requires SystemOk(w) && Enabled(w, e)
    ensures BooksOk(BooksAfter(w, e))
  {
    hide BooksOk, Core;
    CoreOk(w, e);
    LoseOk(Core(w, e));
    EndOk(Core(w, e));
  }

  lemma {:induction false} CorePublishes(w: System, e: Event)
    requires Enabled(w, e) && !e.Online? && !e.BootFails?
    ensures forall k :: 0 <= k < |CoreSections(w, e)| ==> !CoreSections(w, e)[k].Publish?
  {
    hide Writes, Continues, Final, ReplyResult;
  }

  /** What an event does to the connection. */
  lemma {:induction false} NextLink(w: System, e: Event)
    requires Enabled(w, e)
    ensures var t := Next(w, e).state;
            && (e.Online? ==> t.connection.Connected?)
            && (e.BootFails? || Loses(w, e) ==> !t.connection.Connected? && t.epoch == w.state.epoch)
            && (!e.Online? && !e.BootFails? && !Loses(w, e) ==> SameLink(w.state, t))
  {
    hide Apply, BooksAfter, PhaseAfter, CoreSections;
    var core := CoreSections(w, e);
    if e.Online? || e.BootFails? {
      SinglePublish(w, e);
      ApplyLink(w.state, Publish(if e.Online? then Connected else Reconnecting));
      LosesUp(w, e);
    } else {
      CorePublishes(w, e);
      RunLink(w.state, core);
      if Loses(w, e) {
        RunAppended(w.state, core, Publish(Reconnecting));
        ApplyLink(Run(w.state, core), Publish(Reconnecting));
      } else {
        assert core + [] == core;
      }
    }
  }

  lemma {:induction false} SinglePublish(w: System, e: Event)
    requires Enabled(w, e) && (e.Online? || e.BootFails?)
    ensures Next(w, e).state == Apply(w.state, Publish(if e.Online? then Connected else Reconnecting))
  {
    hide Apply, BooksAfter, PhaseAfter;
    var ops := Sections(w, e);
    assert ops == [Publish(if e.Online? then Connected else Reconnecting)];
    assert Run(w.state, ops) == Run(Apply(w.state, ops[0]), ops[1..]);
  }

  lemma {:induction false} NextOk(w: System, e: Event)
    requires SystemOk(w) && Enabled(w, e)
    ensures SystemOk(Next(w, e))
  {
    hide BooksOk, Core, Sections, Run, Lose, End;
    CoreOk(w, e);
    BooksAfterOk(w, e);
    NextLink(w, e);
    LosesUp(w, e);
    NothingPending(Core(w, e));
  }

  lemma {:induction false} NothingPending(b: Books)
    ensures Lose(b).calls.pending == map[] && End(b).calls.pending == map[]
  {
  }

  lemma {:induction false} LosesUp(w: System, e: Event)
    requires Enabled(w, e)
    ensures Loses(w, e) ==> w.phase.Up?
  {
  }

  lemma {:induction false} RunOk(w: System, events: seq<Event>)
    requires SystemOk(w) && Unfolds(w, events)
    ensures SystemOk(After(w, events))
    decreases |events|
  {
    hide SystemOk, Enabled, Next;
    if events != [] {
      NextOk(w, events[0]);
      RunOk(Next(w, events[0]), events[1..]);
    }
  }

  // ---------------------------------------------------------------------------------------
  // What callers can rely on.

  predicate InQueue(w: System, t: Name) { t in QueuedTickets(w.books.calls.queue) }
  predicate IsPending(w: System, t: Name) { t in PendingTickets(w.books.calls.pending) }
  predicate IsAnswered(w: System, t: Name) { t in w.books.calls.answers }
  predicate IsDropped(w: System, t: Name) { t in w.books.calls.dropped }

  /** Each call is in exactly one place, and pending under exactly one wire id. */
  lemma {:induction false} ExactlyOnePlace(w: System, t: Name)
    requires SystemOk(w)
    ensures t in w.books.calls.issued <==> InQueue(w, t) || IsPending(w, t) || IsAnswered(w, t) || IsDropped(w, t)
    ensures !(InQueue(w, t) && (IsPending(w, t) || IsAnswered(w, t) || IsDropped(w, t)))
    ensures !(IsPending(w, t) && (IsAnswered(w, t) || IsDropped(w, t))) && !(IsAnswered(w, t) && IsDropped(w, t))
    ensures forall j, k :: (j in w.books.calls.pending && k in w.books.calls.pending
                            && w.books.calls.pending[j].call.ticket == t && w.books.calls.pending[k].call.ticket == t)
                           ==> j == k
  {
    hide Written, Truthful, WireFresh, PendingWritten;
    assert Placed(w.books.calls, t);
    QueuedIn(w.books.calls.queue, t);
    PendingIn(w.books.calls.pending, t);
    forall j, k | j in w.books.calls.pending && k in w.books.calls.pending
                  && w.books.calls.pending[j].call.ticket == t && w.books.calls.pending[k].call.ticket == t
      ensures j == k
    {
      PendingExclusive(w.books, j, t);
    }
  }

  predicate SameKind(f: Frame, g: Frame) {
    f.RequestFrame? == g.RequestFrame? && f.ReadFrame? == g.ReadFrame?
  }

  function Share(n: Tally, f: Frame): nat {
    if f.RequestFrame? then n.requests else if f.ReadFrame? then n.fetches else n.answers
  }

  lemma {:induction false} TallyCounts(wire: seq<Frame>, j: nat, k: nat)
    requires j <= k < |wire| && FrameTicket(wire[j]) == FrameTicket(wire[k]) && SameKind(wire[j], wire[k])
    ensures Share(TallyOf(wire, FrameTicket(wire[k])), wire[k]) >= if j < k then 2 else 1
    decreases |wire|
  {
    var front := wire[..|wire| - 1];
    if k < |wire| - 1 {
      assert front[j] == wire[j] && front[k] == wire[k];
      TallyCounts(front, j, k);
    } else if j < k {
      assert front[j] == wire[j];
      TallyCounts(front, j, j);
    }
  }

  /** A call's request is written at most once; only a resume adds one canonical read under a new wire id. */
  lemma {:induction false} WrittenAtMostOnce(w: System, j: nat, k: nat)
    requires SystemOk(w) && j < k < |w.books.wire|
    requires FrameTicket(w.books.wire[j]) == FrameTicket(w.books.wire[k])
    ensures var (f, g) := (w.books.wire[j], w.books.wire[k]);
            && !SameKind(f, g) && !f.AnswerFrame? && !g.AnswerFrame?
            && (if f.ReadFrame? then f.call else g.call).rpc.Resume? && f.wire < g.wire
  {
    hide TallyOf, Placed, Truthful, PendingWritten;
    var wire, t := w.books.wire, FrameTicket(w.books.wire[j]);
    assert Written(w.books, t);
    if SameKind(wire[j], wire[k]) {
      TallyCounts(wire, j, k);
    } else {
      TallyCounts(wire, j, j);
      TallyCounts(wire, k, k);
    }
    assert Linked(wire[j]) && Linked(wire[k]);
  }

  /** What was written stays written; whatever is new is written on the connection of its call. */
  lemma {:induction false} WireGrows(w: System, e: Event)
    requires SystemOk(w) && Enabled(w, e)
    ensures var (old', new') := (w.books.wire, Next(w, e).books.wire);
            && |old'| <= |new'| <= |old'| + 1 && new'[..|old'|] == old'
            && (forall k :: |old'| <= k < |new'| ==>
                  w.phase.Up? && new'[k].link == w.state.epoch
                  && (!new'[k].AnswerFrame? ==> new'[k].call.epoch == w.state.epoch))
  {
    hide BooksOk, Run, Sections, PhaseAfter;
    NextOk(w, e);
    if e.Serve? && Writes(w, e.now) {
      assert w.books.calls.queue[0].Invoke? ==> Refusal(w.state, w.books.calls.queue[0].call, e.now).None?;
    }
  }

  /** Answers are final. */
  lemma {:induction false} AnsweredOnce(w: System, e: Event, t: Name)
    requires SystemOk(w) && Enabled(w, e) && IsAnswered(w, t)
    ensures IsAnswered(Next(w, e), t) && Next(w, e).books.calls.answers[t] == w.books.calls.answers[t]
  {
    hide Written, Truthful, WireFresh, PendingWritten, Run, Sections, PhaseAfter, Final, ReplyResult;
    assert Placed(w.books.calls, t);
    QueuedIn(w.books.calls.queue, t);
    PendingIn(w.books.calls.pending, t);
    CoreKeepsAnswer(w, e, t);
    CoreOk(w, e);
    assert Placed(Core(w, e).calls, t);
    PendingIn(Core(w, e).calls.pending, t);
  }

  lemma {:induction false} CoreKeepsAnswer(w: System, e: Event, t: Name)
    requires SystemOk(w) && Enabled(w, e) && IsAnswered(w, t)
    ensures t in Core(w, e).calls.answers && Core(w, e).calls.answers[t] == w.books.calls.answers[t]
  {
    hide Written, Truthful, WireFresh, PendingWritten, Final, ReplyResult, Places;
    ExactlyOnePlace(w, t);
    var c := w.books.calls;
    if c.queue != [] && TicketOf(c.queue[0]).Some? {
      assert TicketOf(c.queue[0]).value in QueuedTickets(c.queue);
    }
    if e.Receive? || e.Expire? || e.CloseOne? {
      assert c.pending[e.wire].call.ticket in PendingTickets(c.pending);
    }
  }

  lemma {:induction false} AnswersKept(w: System, events: seq<Event>, t: Name)
    requires SystemOk(w) && Unfolds(w, events) && IsAnswered(w, t)
    ensures IsAnswered(After(w, events), t) && After(w, events).books.calls.answers[t] == w.books.calls.answers[t]
    decreases |events|
  {
    hide SystemOk, Enabled, Next;
    if events != [] {
      AnsweredOnce(w, events[0], t);
      NextOk(w, events[0]);
      AnswersKept(Next(w, events[0]), events[1..], t);
    }
  }

  /**
    Except for a resume, a caller that was told Unavailable, or was rejected by this worker, can
    rely on nothing having been written for its call, then and for ever after.
  */
  lemma {:induction false} RefusedNeverWritten(w: System, events: seq<Event>, t: Name, k: nat)
    requires SystemOk(w) && Unfolds(w, events)
    requires IsAnswered(w, t) && Refused(w.books.calls.answers[t])
    requires k < |After(w, events).books.wire| && FrameTicket(After(w, events).books.wire[k]) == t
    ensures var f := After(w, events).books.wire[k]; !f.AnswerFrame? && f.call.rpc.Resume?
  {
    hide Next, Enabled, Placed, Written, WireFresh, PendingWritten;
    AnswersKept(w, events, t);
    RunOk(w, events);
    assert Truthful(After(w, events).books, t);
    assert OnlyResumes(After(w, events).books.wire, t);
  }

  /** What the caller's bounded wait returns: the answer, or Uncertain if it did not come or came late. */
  function CallerSees(w: System, t: Name, inTime: bool): Answer {
    if inTime && t in w.books.calls.answers then w.books.calls.answers[t] else Failed(Uncertain)
  }

  lemma {:induction false} DroppedIsFinal(w: System, events: seq<Event>, t: Name)
    requires SystemOk(w) && Unfolds(w, events) && IsDropped(w, t)
    ensures IsDropped(After(w, events), t)
    decreases |events|
  {
    hide SystemOk, Enabled, Run, Sections, PhaseAfter;
    if events != [] {
      NextOk(w, events[0]);
      DroppedIsFinal(Next(w, events[0]), events[1..], t);
    }
  }

  /** A call the worker let go, as Stop does with everything outstanding, reads as Uncertain for ever. */
  lemma {:induction false} DroppedIsUncertain(w: System, events: seq<Event>, t: Name, inTime: bool)
    requires SystemOk(w) && Unfolds(w, events) && IsDropped(w, t)
    ensures CallerSees(After(w, events), t, inTime) == Failed(Uncertain)
  {
    hide SystemOk, Unfolds, After;
    DroppedIsFinal(w, events, t);
    RunOk(w, events);
    ExactlyOnePlace(After(w, events), t);
  }

  lemma {:induction false} UnavailableNeverWritten(w: System, events: seq<Event>, t: Name, inTime: bool, k: nat)
    requires SystemOk(w) && Unfolds(w, events)
    requires CallerSees(w, t, inTime) == Failed(Unavailable)
    requires k < |After(w, events).books.wire| && FrameTicket(After(w, events).books.wire[k]) == t
    ensures var f := After(w, events).books.wire[k]; !f.AnswerFrame? && f.call.rpc.Resume?
  {
    hide SystemOk, Unfolds, After;
    RefusedNeverWritten(w, events, t, k);
  }

  /** A call is written only in time, on its own connection, and past the archive and scope guards. */
  lemma {:induction false} WritesAreAdmitted(w: System, now: nat, written: bool)
    requires Enabled(w, Serve(now, written)) && w.books.calls.queue[0].Invoke?
    ensures var (call, next) := (w.books.calls.queue[0].call, Next(w, Serve(now, written)));
            var admitted := !w.stopping && now < call.deadline && call.epoch == w.state.epoch
              && !(call.thread.Some? && call.thread.value in w.state.control.archived && ArchiveGuarded(call.rpc))
              && !(call.thread.Some? && call.thread.value in w.state.fences.scope && ScopeGuarded(call.rpc));
            if admitted then next.books.wire == w.books.wire + [RequestFrame(w.books.nextId + 1, call, call.epoch)]
            else next.books.wire == w.books.wire
                 && IsAnswered(next, call.ticket) && Refused(next.books.calls.answers[call.ticket])
  {
    hide Run, Sections, PhaseAfter;
  }

  /** A canonical read keeps the resume's settings and loses none of its open turns. */
  lemma {:induction false} CanonicalKeepsOpenTurns(resume: Reply, read: Reply, thread: Name)
    requires resume.Replied? && read.Replied? && CanonicalResume(resume, read, thread).Ok?
    ensures var result := CanonicalResume(resume, read, thread).value;
            && result.settings == resume.result.settings && result.thread == read.result.thread
            && result.thread.value.id == thread && result.thread.value.cwd == SnapshotCwd(resume.result)
            && result.thread.value.legacy == resume.result.thread.value.legacy
            && forall k :: 0 <= k < |resume.result.thread.value.turns| && resume.result.thread.value.turns[k].status.InProgress? ==>
                 HasTurn(result.thread.value.turns, resume.result.thread.value.turns[k].id)
  {
  }

  /**
    A resume is answered with success only in time, on its own connection, while its snapshot is
    still valid, and, where the history mode calls for it, only with the canonical read merged in.
  */
  lemma {:induction false} ResumesAreCanonical(w: System, wire: nat, reply: Reply, now: nat)
    requires SystemOk(w) && w.phase.Up? && wire in w.books.calls.pending && w.books.calls.pending[wire].call.rpc.Resume?
    requires !Continues(w.state, w.books.calls.pending[wire], reply)
    requires var p := w.books.calls.pending[wire];
             IsAnswered(w.(books := Received(w, wire, reply, now)), p.call.ticket)
             && Received(w, wire, reply, now).calls.answers[p.call.ticket].Success?
    ensures var p := w.books.calls.pending[wire];
            && now < p.call.deadline && p.call.epoch == w.state.epoch && p.call.thread.Some?
            && !Invalidated(w.state, p.call.thread.value, p.started)
            && (p.resume.None? ==> !NeedsCanonicalHistory(reply))
            && (p.resume.Some? && p.resume.value.Replied? ==>
                  reply.Replied?
                  && CanonicalResume(p.resume.value, reply, p.call.thread.value)
                     == Ok(Received(w, wire, reply, now).calls.answers[p.call.ticket].result))
  {
    hide NeedsCanonicalHistory, CanonicalResume, ResumeIdentity, Invalidated, BooksOk;
  }

  /** A recovery stores a snapshot only if no fence passed it while it was under way. */
  lemma {:induction false} RecoveriesAreFenced(w: System, verdict: Verdict)
    requires Enabled(w, RecoverReply(verdict))
    ensures var (r, decided) := (w.phase.recovery, Next(w, RecoverReply(verdict)).phase);
            && decided.Recovering? && decided.recovery.Decided? && decided.recovery.thread == r.thread
            && decided.recovery.started == r.started
            && (decided.recovery.verdict.Recovered? <==>
                  verdict.Recovered? && w.state.epoch == r.epoch && !Invalidated(w.state, r.thread, r.started))
            && (decided.recovery.verdict.Recovered? ==> decided.recovery.verdict == verdict)
  {
    hide Run, Invalidated, BooksAfter;
  }
}
