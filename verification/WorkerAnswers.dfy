/**
  What an answer says. A caller is told Success only if its own call was replied to in time, with
  that very result unless a resume took its history from a second reply; it is told of a native
  refusal exactly when the native server refused it.
*/
module WorkerAnswers {
  import opened Wrappers
  import opened Reducer
  import opened ReducerRuns
  import opened ReducerTokens
  import opened Worker
  import opened WorkerCalls

  // ---------------------------------------------------------------------------------------
  // Replies to a call on its own wire id.

  /** Some frame of the wire carries this id for this call. */
  ghost predicate OnWire(wire: seq<Frame>, id: nat, call: Call) {
    exists k :: 0 <= k < |wire| && !wire[k].AnswerFrame? && wire[k].wire == id && wire[k].call == call
  }

  /** Every pending call was written under its id; what a resume holds is a result. */
  ghost predicate Framed(b: Books) {
    forall id :: id in b.calls.pending ==>
      OnWire(b.wire, id, b.calls.pending[id].call)
      && (b.calls.pending[id].resume.Some? ==> b.calls.pending[id].resume.value.Replied?)
  }

  /** `e` is the reply to `call`, on an id it was written under; `timely` asks that it came in time. */
  ghost predicate Hears(w: System, e: Event, call: Call, reply: Reply, timely: bool) {
    && e.Receive? && e.reply == reply && e.wire in w.books.calls.pending
    && w.books.calls.pending[e.wire].call == call && OnWire(w.books.wire, e.wire, call)
    && (timely ==> e.now < call.deadline)
  }

  ghost predicate Heard(w: System, events: seq<Event>, call: Call, reply: Reply, timely: bool)
    requires Unfolds(w, events)
    decreases |events|
  {
    events != [] && (Hears(w, events[0], call, reply, timely) || Heard(Next(w, events[0]), events[1..], call, reply, timely))
  }

  /** The first reply of a resume that waits for its history. */
  ghost predicate Holding(w: System, call: Call, first: Reply) {
    exists id :: id in w.books.calls.pending && w.books.calls.pending[id].call == call
                 && w.books.calls.pending[id].resume == Some(first)
  }

  lemma {:induction false} WireKept(wire: seq<Frame>, longer: seq<Frame>, id: nat, call: Call)
    requires OnWire(wire, id, call) && |wire| <= |longer| && longer[..|wire|] == wire
    ensures OnWire(longer, id, call)
  {
    var k :| 0 <= k < |wire| && !wire[k].AnswerFrame? && wire[k].wire == id && wire[k].call == call;
    assert longer[k] == longer[..|wire|][k];
  }

  lemma {:induction false} LastOnWire(wire: seq<Frame>, f: Frame)
    requires !f.AnswerFrame?
    ensures OnWire(wire + [f], f.wire, f.call)
  {
    assert (wire + [f])[|wire|] == f;
  }

  /** A call pending after the event was pending before, or was written by it. */
  lemma {:induction false} CoreFramed(w: System, e: Event)
    requires SystemOk(w) && Framed(w.books) && Enabled(w, e)
    ensures Framed(Core(w, e))
  {
    hide SystemOk, Final, ReplyResult, HistoryRefusal, Refusal, Deliverable, OnWire;
    var b, c := w.books, Core(w, e);
    assert |b.wire| <= |c.wire| && c.wire[..|b.wire|] == b.wire;
    forall id | id in c.calls.pending
      ensures OnWire(c.wire, id, c.calls.pending[id].call)
              && (c.calls.pending[id].resume.Some? ==> c.calls.pending[id].resume.value.Replied?)
    {
      if id in b.calls.pending && b.calls.pending[id].call == c.calls.pending[id].call {
        WireKept(b.wire, c.wire, id, c.calls.pending[id].call);
      } else {
        assert c.wire == b.wire + [c.wire[|b.wire|]];
        LastOnWire(b.wire, c.wire[|b.wire|]);
      }
    }
  }

  lemma {:induction false} NextFramed(w: System, e: Event)
    requires SystemOk(w) && Framed(w.books) && Enabled(w, e)
    ensures SystemOk(Next(w, e)) && Framed(Next(w, e).books)
  {
    hide SystemOk, Core, Lose, End, Framed;
    NextOk(w, e);
    CoreFramed(w, e);
    NothingFramed(Core(w, e));
  }

  lemma {:induction false} NothingFramed(b: Books)
    ensures Framed(Lose(b)) && Framed(End(b))
  {
  }

  lemma {:induction false} BegunFramed(namespace: Name, restricted: bool)
    ensures SystemOk(Begun(namespace, restricted)) && Framed(Begun(namespace, restricted).books)
  {
    BegunOk(namespace, restricted);
  }

  // ---------------------------------------------------------------------------------------
  // From the reply to the answer.

  /** What its caller is told when a reply to a pending call arrives, unless it is a resume's result. */
  function Told(call: Call, reply: Reply, now: nat): Answer {
    if call.deadline <= now then Failed(Uncertain)
    else if reply.RpcError? then Failed(RpcRejected(reply.archived, reply.busy))
    else Success(reply.result)
  }

  /** A reply in time reaches its caller as it is; one too late leaves the outcome open. */
  lemma {:induction false} ReplyReachesCaller(w: System, wire: nat, reply: Reply, now: nat, scope: Scope, written: bool)
    requires SystemOk(w) && Enabled(w, Receive(wire, reply, now, scope, written))
    requires reply.RpcError? || !w.books.calls.pending[wire].call.rpc.Resume?
    ensures var (call, after) := (w.books.calls.pending[wire].call,
                                  Next(w, Receive(wire, reply, now, scope, written)).books.calls);
            && wire !in after.pending && call.ticket in after.answers
            && after.answers[call.ticket] == Told(call, reply, now)
  {
    hide Run, Sections, PhaseAfter, CanonicalResume, ResumeFence, ResumeIdentity, TallyOf, Placed, Written, Truthful;
    assert PendingWritten(w.books, wire);
  }

  /** What a resume is told that still stands: its snapshot may be outdated by then. */
  function ToldResume(s: Model, p: Pending, result: Snapshot, now: nat): Answer {
    if p.call.deadline <= now then Failed(Uncertain)
    else if p.call.thread.None? then Failed(Rejected)
    else if s.epoch != p.call.epoch then Failed(Unavailable)
    else if Invalidated(s, p.call.thread.value, p.started) then Failed(Rejected)
    else Success(result)
  }

  /**
    The first reply of a resume is its result, or, where the history mode asks for it, the first
    half: the resume then waits, unanswered, for the thread's history under the next wire id.
  */
  lemma {:induction false} ResumeReply(w: System, wire: nat, result: Snapshot, paginated: bool, now: nat, scope: Scope)
    requires SystemOk(w) && Enabled(w, Receive(wire, Replied(result, paginated), now, scope, true))
    requires w.books.calls.pending[wire].call.rpc.Resume? && w.books.calls.pending[wire].resume.None?
    ensures var (reply, p) := (Replied(result, paginated), w.books.calls.pending[wire]);
            var (call, next) := (p.call, Next(w, Receive(wire, reply, now, scope, true)).books);
            if !NeedsCanonicalHistory(reply) then
              && wire !in next.calls.pending && call.ticket in next.calls.answers
              && next.calls.answers[call.ticket] == ToldResume(w.state, p, result, now)
            else if && call.thread.Some? && result.thread.value.id == call.thread.value && SnapshotCwd(result).Some?
                    && w.state.epoch == call.epoch && !Invalidated(w.state, call.thread.value, p.started) then
              && next.calls.answers == w.books.calls.answers
              && next.calls.pending == (w.books.calls.pending - {wire})[w.books.nextId + 1 := p.(resume := Some(reply))]
              && next.wire == w.books.wire + [ReadFrame(w.books.nextId + 1, call, w.state.epoch)]
            else
              wire !in next.calls.pending && call.ticket in next.calls.answers && next.calls.answers[call.ticket].Failed?
  {
    hide Run, Sections, PhaseAfter, CanonicalResume, NeedsCanonicalHistory, Invalidated, SnapshotCwd, BooksOk;
    var reply := Replied(result, paginated);
    if NeedsCanonicalHistory(reply) { NeedsThread(reply); }
  }

  lemma {:induction false} NeedsThread(reply: Reply)
    requires NeedsCanonicalHistory(reply)
    ensures reply.Replied? && reply.result.thread.Some?
  {
  }

  /** The full read is of the resumed thread, in its directory and history mode, with all its open turns. */
  ghost predicate Agrees(first: Reply, read: Reply, thread: Name)
    requires first.Replied? && read.Replied?
  {
    && first.result.thread.Some? && read.result.thread.Some?
    && var (resumed, history) := (first.result.thread.value, read.result.thread.value);
       && resumed.id == thread && history.id == thread
       && SnapshotCwd(first.result).Some? && history.cwd == SnapshotCwd(first.result)
       && (resumed.legacy || first.paginated) && history.legacy == resumed.legacy && read.paginated == first.paginated
       && (forall k :: 0 <= k < |resumed.turns| && resumed.turns[k].status.InProgress? ==>
             HasTurn(history.turns, resumed.turns[k].id))
  }

  /** The second reply of a resume gives the first its thread, if the two agree. */
  lemma {:induction false} HistoryReply(w: System, wire: nat, read: Reply, now: nat, scope: Scope, written: bool)
    requires SystemOk(w) && Framed(w.books) && Enabled(w, Receive(wire, read, now, scope, written))
    requires read.Replied? && w.books.calls.pending[wire].resume.Some?
    ensures var p := w.books.calls.pending[wire];
            var (call, first, after) :=
              (p.call, p.resume.value, Next(w, Receive(wire, read, now, scope, written)).books.calls);
            && first.Replied? && wire !in after.pending && call.ticket in after.answers
            && after.answers[call.ticket] ==
               if now < call.deadline && !(call.thread.Some? && Agrees(first, read, call.thread.value))
               then Failed(Rejected)
               else ToldResume(w.state, p, first.result.(thread := read.result.thread), now)
  {
    hide Run, Sections, PhaseAfter, NeedsCanonicalHistory, Invalidated, SnapshotCwd, HasTurn, TallyOf, Placed, Written,
         Truthful, OnWire;
    assert PendingWritten(w.books, wire);
  }

  /**
    An answer to a runtime request is written exactly while its request is pending, unchanged and
    answerable on the live connection and its thread is not archived; its caller is told so, or that
    nobody knows if the write failed.
  */
  lemma {:induction false} AnswerReachesServer(w: System, now: nat, written: bool, ticket: Name, request: Name,
                                               epoch: nat, token: Token)
    requires Enabled(w, Serve(now, written)) && !w.stopping
    requires w.books.calls.queue[0] == Respond(ticket, request, epoch, token)
    ensures var (s, c, next) := (w.state, w.state.control, Next(w, Serve(now, written)).books);
            var current := s.epoch == epoch && request in c.pending && c.pending[request].token == token
              && c.pending[request].body.ServerRequest?
              && !c.pending[request].body.request.ToolCall? && !c.pending[request].body.request.OtherRequest?
              && !(c.pending[request].thread.Some? && c.pending[request].thread.value in c.archived);
            && ticket in next.calls.answers
            && next.calls.answers[ticket] == (if !current then Failed(Rejected) else if written then Delivered
                                              else Failed(Uncertain))
            && next.wire == if current then w.books.wire + [AnswerFrame(ticket, request, token, epoch)] else w.books.wire
  {
    hide Run, Sections, PhaseAfter;
  }

  // ---------------------------------------------------------------------------------------
  // From the answer back to the reply, over every run.

  /** A Success the event gives was in a reply that came in time. */
  lemma {:induction false} StepSuccess(w: System, e: Event, t: Name)
    requires SystemOk(w) && Framed(w.books) && Enabled(w, e)
    requires t !in w.books.calls.answers && t in Next(w, e).books.calls.answers
    requires Next(w, e).books.calls.answers[t].Success?
    ensures e.Receive? && e.wire in w.books.calls.pending
    ensures var (p, r) := (w.books.calls.pending[e.wire], Next(w, e).books.calls.answers[t].result);
            && p.call.ticket == t && e.reply.Replied? && Hears(w, e, p.call, e.reply, true)
            && (p.resume.Some? ==> p.call.rpc.Resume? && p.resume.value.Replied?)
            && r == if p.resume.None? then e.reply.result
                    else p.resume.value.result.(thread := e.reply.result.thread)
  {
    hide Run, Sections, PhaseAfter, ResumeFence, ResumeIdentity, NeedsCanonicalHistory, KeepsOpenTurns, OnWire,
         Places, TallyOf, Placed, Written, Truthful, Invalidated, HistoryRefusal;
    if e.Receive? {
      assert PendingWritten(w.books, e.wire);
    }
  }

  /** A native refusal the event gives was a reply that came in time. */
  lemma {:induction false} StepRejected(w: System, e: Event, t: Name)
    requires SystemOk(w) && Framed(w.books) && Enabled(w, e)
    requires t !in w.books.calls.answers && t in Next(w, e).books.calls.answers
    requires var a := Next(w, e).books.calls.answers[t]; a.Failed? && a.failure.RpcRejected?
    ensures e.Receive? && e.wire in w.books.calls.pending
    ensures var (call, failure) := (w.books.calls.pending[e.wire].call, Next(w, e).books.calls.answers[t].failure);
            call.ticket == t && Hears(w, e, call, RpcError(failure.archived, failure.busy), true)
  {
    hide Run, Sections, PhaseAfter, ResumeIdentity, NeedsCanonicalHistory, KeepsOpenTurns, OnWire,
         Places, TallyOf, Placed, Written, Truthful, Invalidated, SnapshotCwd;
    if e.Receive? {
      assert PendingWritten(w.books, e.wire);
    }
  }

  /** What a resume holds it held before, or has just been told. */
  lemma {:induction false} StepHolding(w: System, e: Event, call: Call, first: Reply)
    requires SystemOk(w) && Framed(w.books) && Enabled(w, e) && Holding(Next(w, e), call, first)
    ensures Holding(w, call, first) || Hears(w, e, call, first, false)
  {
    hide Run, Sections, PhaseAfter, Final, ReplyResult, HistoryRefusal, OnWire, NeedsCanonicalHistory,
         Places, TallyOf, Placed, Written, Truthful, Refusal, Deliverable;
    var n := Next(w, e).books.calls.pending;
    var id :| id in n && n[id].call == call && n[id].resume == Some(first);
    if !(id in w.books.calls.pending && w.books.calls.pending[id] == n[id]) {
      assert e.Receive? && w.books.calls.pending[e.wire].call == call;
    }
  }

  /**
    Where a Success comes from: a reply to that very call, on an id it was written under, that came
    in time. A call other than a resume is
    given exactly that reply's result; a resume at most takes the thread of its first reply from it.
  */
  lemma {:induction false} SuccessFrom(w: System, events: seq<Event>, t: Name) returns (call: Call, reply: Reply, first: Reply)
    requires SystemOk(w) && Framed(w.books) && Unfolds(w, events)
    requires t !in w.books.calls.answers && IsAnswered(After(w, events), t)
    requires After(w, events).books.calls.answers[t].Success?
    ensures call.ticket == t && reply.Replied? && Heard(w, events, call, reply, true)
    ensures var r := After(w, events).books.calls.answers[t].result;
            || r == reply.result
            || (call.rpc.Resume? && first.Replied? && (Holding(w, call, first) || Heard(w, events, call, first, false))
                && r == first.result.(thread := reply.result.thread))
    decreases |events|
  {
    hide SystemOk, Framed, Enabled, Next, Hears, Holding;
    var e, n := events[0], Next(w, events[0]);
    NextFramed(w, e);
    if t in n.books.calls.answers {
      AnswersKept(n, events[1..], t);
      StepSuccess(w, e, t);
      var p := w.books.calls.pending[e.wire];
      call, reply, first := p.call, e.reply, if p.resume.Some? then p.resume.value else e.reply;
      if p.resume.Some? { IsHolding(w, e.wire, first); }
    } else {
      call, reply, first := SuccessFrom(n, events[1..], t);
      if Holding(n, call, first) { StepHolding(w, e, call, first); }
    }
  }

  lemma {:induction false} IsHolding(w: System, id: nat, first: Reply)
    requires id in w.books.calls.pending && w.books.calls.pending[id].resume == Some(first)
    ensures Holding(w, w.books.calls.pending[id].call, first)
  {
  }

  lemma {:induction false} RejectedFrom(w: System, events: seq<Event>, t: Name) returns (call: Call)
    requires SystemOk(w) && Framed(w.books) && Unfolds(w, events)
    requires t !in w.books.calls.answers && IsAnswered(After(w, events), t)
    requires var a := After(w, events).books.calls.answers[t]; a.Failed? && a.failure.RpcRejected?
    ensures var failure := After(w, events).books.calls.answers[t].failure;
            call.ticket == t && Heard(w, events, call, RpcError(failure.archived, failure.busy), true)
    decreases |events|
  {
    hide SystemOk, Framed, Enabled, Next, Hears;
    var e, n := events[0], Next(w, events[0]);
    NextFramed(w, e);
    if t in n.books.calls.answers {
      AnswersKept(n, events[1..], t);
      StepRejected(w, e, t);
      call := w.books.calls.pending[e.wire].call;
    } else {
      call := RejectedFrom(n, events[1..], t);
    }
  }

  /** What was heard in time is what the caller was told, for good. */
  lemma {:induction false} HeardIsTold(w: System, events: seq<Event>, call: Call, reply: Reply)
    requires SystemOk(w) && Unfolds(w, events) && Heard(w, events, call, reply, true)
    requires reply.RpcError? || !call.rpc.Resume?
    ensures IsAnswered(After(w, events), call.ticket)
    ensures After(w, events).books.calls.answers[call.ticket] ==
            if reply.RpcError? then Failed(RpcRejected(reply.archived, reply.busy)) else Success(reply.result)
    decreases |events|
  {
    hide SystemOk, Enabled, Next, OnWire;
    var e, n := events[0], Next(w, events[0]);
    NextOk(w, e);
    if Hears(w, e, call, reply, true) {
      ReplyReachesCaller(w, e.wire, e.reply, e.now, e.scope, e.written);
      AnswersKept(n, events[1..], call.ticket);
    } else {
      HeardIsTold(n, events[1..], call, reply);
    }
  }

  // ---------------------------------------------------------------------------------------
  // The two directions, over every run of the worker.

  /** A call's reply of this kind was received in time. */
  ghost predicate TimelyReply(w: System, events: seq<Event>, t: Name, reply: Reply)
    requires Unfolds(w, events)
  {
    exists call: Call :: call.ticket == t && Heard(w, events, call, reply, true)
  }

  /** A caller is told of a native refusal exactly when the native server refused its call in time. */
  lemma {:induction false} RejectedExactlyWhen(namespace: Name, restricted: bool, events: seq<Event>, t: Name,
                                               archived: bool, busy: bool)
    requires Unfolds(Begun(namespace, restricted), events)
    ensures var w := Begun(namespace, restricted);
            (t in After(w, events).books.calls.answers
             && After(w, events).books.calls.answers[t] == Failed(RpcRejected(archived, busy)))
            <==> TimelyReply(w, events, t, RpcError(archived, busy))
  {
    hide SystemOk, Framed, Unfolds, After, Heard;
    var w := Begun(namespace, restricted);
    BegunFramed(namespace, restricted);
    if t in After(w, events).books.calls.answers
       && After(w, events).books.calls.answers[t] == Failed(RpcRejected(archived, busy)) {
      var call := RejectedFrom(w, events, t);
    }
    if TimelyReply(w, events, t, RpcError(archived, busy)) {
      var call: Call :| call.ticket == t && Heard(w, events, call, RpcError(archived, busy), true);
      HeardIsTold(w, events, call, RpcError(archived, busy));
    }
  }

  /** No resume was ever written for this ticket. */
  ghost predicate NoResume(wire: seq<Frame>, t: Name) {
    forall k :: 0 <= k < |wire| && FrameTicket(wire[k]) == t ==> !OfResume(wire[k])
  }

  lemma {:induction false} OnWireKept(w: System, events: seq<Event>, id: nat, call: Call)
    requires SystemOk(w) && Unfolds(w, events) && OnWire(w.books.wire, id, call)
    ensures OnWire(After(w, events).books.wire, id, call)
    decreases |events|
  {
    hide SystemOk, Enabled, Next, OnWire;
    if events != [] {
      NextOk(w, events[0]);
      WireGrows(w, events[0]);
      WireKept(w.books.wire, Next(w, events[0]).books.wire, id, call);
      OnWireKept(Next(w, events[0]), events[1..], id, call);
    }
  }

  /** What was replied to had been written. */
  lemma {:induction false} HeardWasWritten(w: System, events: seq<Event>, call: Call, reply: Reply) returns (id: nat)
    requires SystemOk(w) && Unfolds(w, events) && Heard(w, events, call, reply, true)
    ensures OnWire(After(w, events).books.wire, id, call)
    decreases |events|
  {
    hide SystemOk, Enabled, Next, OnWire;
    if Hears(w, events[0], call, reply, true) {
      id := events[0].wire;
      OnWireKept(w, events, id, call);
    } else {
      NextOk(w, events[0]);
      id := HeardWasWritten(Next(w, events[0]), events[1..], call, reply);
    }
  }

  lemma {:induction false} NotResume(wire: seq<Frame>, id: nat, call: Call)
    requires OnWire(wire, id, call) && NoResume(wire, call.ticket)
    ensures !call.rpc.Resume?
  {
    var k :| 0 <= k < |wire| && !wire[k].AnswerFrame? && wire[k].wire == id && wire[k].call == call;
    assert FrameTicket(wire[k]) == call.ticket;
  }

  /** A call other than a resume succeeds with a result exactly when that result was received for it in time. */
  lemma {:induction false} SuccessExactlyWhen(namespace: Name, restricted: bool, events: seq<Event>, t: Name, result: Snapshot)
    requires Unfolds(Begun(namespace, restricted), events)
    requires NoResume(After(Begun(namespace, restricted), events).books.wire, t)
    ensures var w := Begun(namespace, restricted);
            (t in After(w, events).books.calls.answers && After(w, events).books.calls.answers[t] == Success(result))
            <==> exists paginated :: TimelyReply(w, events, t, Replied(result, paginated))
  {
    hide SystemOk, Framed, Unfolds, After, Heard, OnWire, NoResume;
    var w := Begun(namespace, restricted);
    BegunFramed(namespace, restricted);
    if t in After(w, events).books.calls.answers && After(w, events).books.calls.answers[t] == Success(result) {
      var call, reply, first := SuccessFrom(w, events, t);
      var id := HeardWasWritten(w, events, call, reply);
      NotResume(After(w, events).books.wire, id, call);
      assert TimelyReply(w, events, t, Replied(result, reply.paginated));
    }
    if paginated :| TimelyReply(w, events, t, Replied(result, paginated)) {
      var call: Call :| call.ticket == t && Heard(w, events, call, Replied(result, paginated), true);
      var id := HeardWasWritten(w, events, call, Replied(result, paginated));
      NotResume(After(w, events).books.wire, id, call);
      HeardIsTold(w, events, call, Replied(result, paginated));
    }
  }

  /** Where the Success of any call comes from, a resume's included. */
  lemma {:induction false} SuccessWasReplied(namespace: Name, restricted: bool, events: seq<Event>, t: Name)
    requires Unfolds(Begun(namespace, restricted), events)
    requires var c := After(Begun(namespace, restricted), events).books.calls; t in c.answers && c.answers[t].Success?
    ensures var w := Begun(namespace, restricted);
            exists call: Call, reply: Reply, first: Reply ::
              && call.ticket == t && reply.Replied? && Heard(w, events, call, reply, true)
              && Given(After(w, events).books.calls.answers[t].result, call, reply, first)
              && (call.rpc.Resume? && first != reply ==> Heard(w, events, call, first, false))
  {
    hide SystemOk, Framed, Unfolds, After, Heard;
    var w := Begun(namespace, restricted);
    BegunFramed(namespace, restricted);
    var call, reply, first := SuccessFrom(w, events, t);
    assert !Holding(w, call, first);
    var r := After(w, events).books.calls.answers[t].result;
    if r == reply.result {
      assert Given(r, call, reply, reply);
    } else {
      assert Given(r, call, reply, first);
    }
  }

  /** The result is the reply's, or for a resume the first reply's around the thread of the second. */
  predicate Given(result: Snapshot, call: Call, reply: Reply, first: Reply) {
    reply.Replied?
    && (result == reply.result
        || (call.rpc.Resume? && first.Replied? && result == first.result.(thread := reply.result.thread)))
  }
}
