/**
  The worker's loop as the source runs it: an object with its tables beside the shared state
  object, whose methods are proved to perform the events of module Worker.
*/
module WorkerLoop {
  import opened Wrappers
  import opened Reducer
  import opened ReducerRuns
  import opened ReducerGuarantees
  import opened ReducerTokens
  import opened Worker
  import opened WorkerCalls
  import opened WorkerControls
  import opened GatewayState

  lemma {:induction false} SoundNeverUnderflows(s: Model, thread: Name)
    requires Sound(s)
    ensures !Underflows(s, thread)
  {
    SoundCounted(s);
  }

  lemma {:induction false} OneMoreUncertain(answers: map<Name, Answer>, tickets: set<Name>, t: Name)
    ensures AllUncertain(answers, tickets)[t := Failed(Failure.Uncertain)] == AllUncertain(answers, tickets + {t})
    ensures AllUncertain(answers, {}) == answers
  {
  }

  lemma {:induction false} NoTickets()
    ensures PendingTickets(map[]) == {}
  {
  }

  lemma {:induction false} TicketsRemoved(pending: map<nat, Pending>, id: nat)
    requires id in pending
    ensures PendingTickets(pending) == PendingTickets(pending - {id}) + {pending[id].call.ticket}
    ensures |pending - {id}| < |pending|
  {
    assert pending.Keys == (pending - {id}).Keys + {id};
    forall t | t in PendingTickets(pending) ensures t in PendingTickets(pending - {id}) + {pending[id].call.ticket} {
      var k :| k in pending && pending[k].call.ticket == t;
      assert k != id ==> k in pending - {id};
    }
  }

  class SocketWorker {
    const state: State
    var phase: Phase
    var stopping: bool
    var nextId: nat
    var calls: Calls
    var wire: seq<Frame>

    function View(): System
      reads this, state
    {
      System(phase, stopping, Books(nextId, calls, wire), state.Snap())
    }

    constructor (shared: State)
      ensures state == shared && View() == System(Starting, false, Books(0, Calls([], map[], map[], {}, {}), []), shared.Snap())
    {
      state := shared;
      phase, stopping, nextId, wire := Starting, false, 0, [];
      calls := Calls([], map[], map[], {}, {});
    }

    /** The result of a finished call enters the shared state. */
    method StoreResult(p: Pending, final: Result<Snapshot, Failure>, scope: Scope)
      modifies state
      ensures state.Snap() == Run(old(state.Snap()), ResultSections(p, final, scope))
    {
      hide Remember, ClearProvisional, Run;
      ghost var s := state.Snap();
      if final.Ok? {
        if p.call.rpc.Start? || p.call.rpc.Resume? {
          state.RememberScoped(final.value, Some(p.started), scope);
          RunOne(s, Merge(final.value, Some(p.started), scope));
        } else {
          RunNone(s);
        }
      } else if p.reserved && p.call.thread.Some? {
        var thread := p.call.thread.value;
        state.control := state.control.(subscribed := state.control.subscribed - {thread},
                                        pending := DropPending(state.control.pending, thread));
        state.ClearProvisionalStreams(thread);
        RunOne(s, Release(thread));
      } else {
        RunNone(s);
      }
    }

    /** `finalize_resume`: the answer, and everything a finished call leaves in the shared state. */
    method FinalizeResume(p: Pending, result: Result<Snapshot, Failure>, now: nat, scope: Scope)
      returns (final: Result<Snapshot, Failure>)
      requires Sound(state.Snap())
      modifies state
      ensures final == Final(old(state.Snap()), p, result, now)
      ensures state.Snap() == Run(old(state.Snap()), FinalSections(p, final, scope))
      ensures Sound(state.Snap())
    {
      hide Apply, ResultSections, Sound, ResumeFence, Run;
      ghost var s := state.Snap();
      final := if p.call.deadline <= now then Err(Failure.Uncertain) else result;
      if p.call.rpc.Resume? && final.Ok? {
        if p.call.thread.None? {
          final := Err(Failure.Rejected);
        } else {
          var fence := ResumeFence(state.Snap(), p.call.thread.value, p.call.epoch, p.started);
          if fence.Some? {
            final := Err(fence.value);
          }
        }
      }
      StoreResult(p, final, scope);
      ghost var t := state.Snap();
      RunKeeps(s, ResultSections(p, final, scope));
      RunSplit(s, ResultSections(p, final, scope), CountSections(p));
      RunNone(t);
      if p.call.rpc.Resume? && p.call.thread.Some? {
        SoundNeverUnderflows(t, p.call.thread.value);
        ReleaseCount(p.call.thread.value);
      }
      RunKeeps(t, CountSections(p));
    }

    method ReleaseCount(thread: Name)
      requires !Underflows(state.Snap(), thread)
      modifies state
      ensures state.Snap() == Run(old(state.Snap()), [Finish(thread)])
    {
      hide Reducer.FinishResume, Run;
      RunOne(state.Snap(), Finish(thread));
      state.FinishResume(thread);
    }

    // -------------------------------------------------------------------------------------
    // The tables of the worker.

    /** Every pending call of a lost connection may have been committed. */
    method FailPending()
      modifies this`calls
      ensures Books(nextId, calls, wire) == Lose(Books(nextId, old(calls), wire))
    {
      hide PendingTickets, AllUncertain;
      var left, answers := calls.pending, calls.answers;
      OneMoreUncertain(answers, {}, NO_NAME);
      ghost var done: set<Name> := {};
      while left != map[]
        invariant calls == old(calls)
        invariant done + PendingTickets(left) == PendingTickets(calls.pending)
        invariant answers == AllUncertain(calls.answers, done)
        decreases |left|
      {
        var id :| id in left;
        var ticket := left[id].call.ticket;
        TicketsRemoved(left, id);
        OneMoreUncertain(calls.answers, done, ticket);
        answers := answers[ticket := Failed(Failure.Uncertain)];
        left := left - {id};
        done := done + {ticket};
      }
      NoTickets();
      assert done == PendingTickets(calls.pending);
      calls := calls.(pending := map[], answers := answers);
    }

    /** `reconnect` after everything pending was answered. */
    method LoseConnection()
      modifies this`phase, this`calls, state
      ensures phase == Starting
      ensures Books(nextId, calls, wire) == Lose(Books(nextId, old(calls), wire))
      ensures state.Snap() == Apply(old(state.Snap()), Publish(Reconnecting))
    {
      FailPending();
      state.Connect(Reconnecting);
      phase := Starting;
    }

    /** The thread ends: every channel is let go. */
    method EndThread()
      modifies this`phase, this`calls
      ensures phase == Finished
      ensures Books(nextId, calls, wire) == End(Books(nextId, old(calls), wire))
    {
      calls := calls.(queue := [], pending := map[],
                      dropped := calls.dropped + QueuedTickets(calls.queue) + PendingTickets(calls.pending));
      phase := Finished;
    }

    method DeclineHead(failure: Failure)
      requires calls.queue != []
      modifies this`calls
      ensures Books(nextId, calls, wire) == Decline(Books(nextId, old(calls), wire), failure)
    {
      var ticket := TicketOf(calls.queue[0]);
      calls := calls.(queue := calls.queue[1..]);
      if ticket.Some? {
        calls := calls.(answers := calls.answers[ticket.value := Failed(failure)]);
      }
    }

    method BeginCall(thread: Name)
      modifies state`control
      ensures state.Snap() == Run(old(state.Snap()), [Reserve(thread), Begin(thread)])
    {
      hide Reducer.BeginResume, Run;
      RunTwo(state.Snap(), Reserve(thread), Begin(thread));
      state.control := state.control.(subscribed := state.control.subscribed + {thread});
      state.BeginResume(thread);
    }

    /** The call at the head of the queue goes out under a fresh wire id. */
    method SendHead()
      requires calls.queue != [] && calls.queue[0].Invoke?
      modifies this`nextId, this`calls, this`wire, state
      ensures var (call, s) := (old(calls).queue[0].call, old(state.Snap()));
              && Books(nextId, calls, wire)
                 == Dispatch(old(Books(nextId, calls, wire)),
                             call.rpc.Resume? && call.thread.Some? && call.thread.value !in s.control.subscribed,
                             s.sequence, s.epoch)
              && state.Snap() == Run(s, if call.rpc.Resume? && call.thread.Some?
                                        then [Reserve(call.thread.value), Begin(call.thread.value)] else [])
    {
      hide Reducer.BeginResume, Run, Apply;
      ghost var s := state.Snap();
      var call := calls.queue[0].call;
      nextId := nextId + 1;
      var reserved := false;
      if call.rpc.Resume? && call.thread.Some? {
        var thread := call.thread.value;
        reserved := thread !in state.control.subscribed;
        BeginCall(thread);
      } else {
        RunNone(s);
      }
      SameLine(s, call);
      calls := calls.(queue := calls.queue[1..],
                      pending := calls.pending[nextId := Pending(call, reserved, state.sequence, None)]);
      wire := wire + [RequestFrame(nextId, call, state.epoch)];
    }

    // -------------------------------------------------------------------------------------
    // The connected loop.

    /** The head of the queue, taken while connected. */
    method TakeCommand(now: nat, written: bool)
      requires phase.Up? && calls.queue != []
      modifies this, state
      ensures View() == Next(old(View()), Serve(now, written))
    {
      hide Apply, Run, Lose, End, Decline, Dispatch, Refusal, Deliverable;
      ghost var w := View();
      var command := calls.queue[0];
      RunNone(w.state);
      ServeEvent(w, now, written);
      if stopping {
        DeclineHead(Unavailable);
        return;
      }
      match command {
        case Stop =>
          DeclineHead(Unavailable);
          EndThread();
        case Invoke(call) =>
          var refusal := Refusal(state.Snap(), call, now);
          if refusal.Some? {
            DeclineHead(refusal.value);
            return;
          }
          SendHead();
          if !written {
            RunAppended(w.state, ServeSections(w, now), Publish(Reconnecting));
            LoseConnection();
          }
        case Respond(ticket, request, epoch, token) =>
          if !Deliverable(state.Snap(), request, epoch, token) {
            DeclineHead(Rejected);
            return;
          }
          calls := calls.(queue := calls.queue[1..],
                          answers := calls.answers[ticket := if written then Worker.Delivered else Failed(Failure.Uncertain)]);
          wire := wire + [AnswerFrame(ticket, request, token, state.epoch)];
          if !written {
            RunAppended(w.state, ServeSections(w, now), Publish(Reconnecting));
            LoseConnection();
          }
      }
    }

    /** One reply to a pending call. */
    method HandleReply(id: nat, reply: Reply, now: nat, scope: Scope, written: bool)
      requires phase.Up? && id in calls.pending && Sound(state.Snap())
      modifies this, state
      ensures View() == Next(old(View()), Receive(id, reply, now, scope, written))
    {
      hide Apply, Run, Lose, FinalSections, Final, Sound, ResumeFence, NeedsCanonicalHistory, CanonicalResume,
           ResumeIdentity;
      ghost var w := View();
      var p := calls.pending[id];
      ReceiveEvent(w, id, reply, now, scope, written);
      RunNone(w.state);
      calls := calls.(pending := calls.pending - {id});
      if Continues(state.Snap(), p, reply) {
        nextId := nextId + 1;
        calls := calls.(pending := calls.pending[nextId := p.(resume := Some(reply))]);
        wire := wire + [ReadFrame(nextId, p.call, state.epoch)];
        if !written {
          RunAppended(w.state, [], Publish(Reconnecting));
          LoseConnection();
        }
        return;
      }
      var final := FinalizeResume(p, ReplyResult(state.Snap(), p, reply), now, scope);
      calls := calls.(answers := calls.answers[p.call.ticket := AnswerOf(final)]);
    }

    /** One call whose deadline passed. */
    method ExpireCall(id: nat, now: nat)
      requires phase.Up? && id in calls.pending && calls.pending[id].call.deadline <= now && Sound(state.Snap())
      modifies this, state
      ensures View() == Next(old(View()), Expire(id, now))
      ensures Sound(state.Snap())
    {
      hide Apply, Run, FinalSections, Sound;
      ghost var w := View();
      var p := calls.pending[id];
      ExpireEvent(w, id, now);
      calls := calls.(pending := calls.pending - {id});
      var final := FinalizeResume(p, Err(Failure.Uncertain), now, OutOfScope);
      assert final == Err(Failure.Uncertain);
      calls := calls.(answers := calls.answers[p.call.ticket := AnswerOf(final)]);
    }

    /** After each turn of the loop every expired call is finalized; `events` says in which order. */
    method ExpireCalls(now: nat) returns (ghost events: seq<Event>)
      requires phase.Up? && Sound(state.Snap())
      modifies this, state
      ensures forall k :: 0 <= k < |events| ==> events[k].Expire?
      ensures Unfolds(old(View()), events) && View() == After(old(View()), events)
      ensures phase.Up? && forall id :: id in calls.pending ==> calls.pending[id].call.deadline > now
    {
      hide Next, Enabled, Sound;
      events := [];
      var expired := set id | id in calls.pending && calls.pending[id].call.deadline <= now;
      while expired != {}
        invariant phase.Up? && Sound(state.Snap())
        invariant expired == set id | id in calls.pending && calls.pending[id].call.deadline <= now
        invariant forall k :: 0 <= k < |events| ==> events[k].Expire?
        invariant Unfolds(old(View()), events) && View() == After(old(View()), events)
        decreases expired
      {
        var id :| id in expired;
        ghost var w := View();
        ExpireEnabled(w, id, now);
        ExtendRun(old(View()), events, Expire(id, now));
        ExpireCall(id, now);
        events := events + [Expire(id, now)];
        expired := expired - {id};
      }
      forall id | id in calls.pending ensures calls.pending[id].call.deadline > now {
        assert id !in expired;
      }
    }
  }

  lemma {:induction false} ExpireEnabled(w: System, id: nat, now: nat)
    requires w.phase.Up? && id in w.books.calls.pending && w.books.calls.pending[id].call.deadline <= now
    ensures Enabled(w, Expire(id, now))
    ensures Next(w, Expire(id, now)).phase.Up?
    ensures Next(w, Expire(id, now)).books.calls.pending == w.books.calls.pending - {id}
  {
    hide Run, Sections;
  }

  lemma {:induction false} ExtendRun(w: System, events: seq<Event>, e: Event)
    requires Unfolds(w, events) && Enabled(After(w, events), e)
    ensures Unfolds(w, events + [e]) && After(w, events + [e]) == Next(After(w, events), e)
    decreases |events|
  {
    hide Enabled, Next;
    if events == [] {
      assert events + [e] == [e];
      assert [e][1..] == [];
    } else {
      assert (events + [e])[0] == events[0] && (events + [e])[1..] == events[1..] + [e];
      ExtendRun(Next(w, events[0]), events[1..], e);
    }
  }

  /** The parts of a served command, as the loop meets them. */
  lemma {:induction false} ServeEvent(w: System, now: nat, written: bool)
    requires w.phase.Up? && w.books.calls.queue != []
    ensures var e := Serve(now, written);
            Enabled(w, e)
            && Next(w, e).stopping == w.stopping
            && (Loses(w, e) ==> Sections(w, e) == ServeSections(w, now) + [Publish(Reconnecting)])
            && (!Loses(w, e) ==> Sections(w, e) == ServeSections(w, now))
  {
    hide Run, Served, Refusal, Deliverable, ServeSections, Lose, End;
    assert ServeSections(w, now) + [] == ServeSections(w, now);
  }

  lemma {:induction false} ReceiveEvent(w: System, id: nat, reply: Reply, now: nat, scope: Scope, written: bool)
    requires w.phase.Up? && id in w.books.calls.pending
    ensures var e := Receive(id, reply, now, scope, written);
            Enabled(w, e)
            && (Loses(w, e) ==> Sections(w, e) == [] + [Publish(Reconnecting)])
            && (!Loses(w, e) ==> Sections(w, e) == ReceiveSections(w, id, reply, now, scope))
  {
    hide FinalSections, Final, ReplyResult, AwaitsHistory, HistoryRefusal;
    assert ReceiveSections(w, id, reply, now, scope) + [] == ReceiveSections(w, id, reply, now, scope);
  }

  lemma {:induction false} ExpireEvent(w: System, id: nat, now: nat)
    requires w.phase.Up? && id in w.books.calls.pending && w.books.calls.pending[id].call.deadline <= now
    ensures var e := Expire(id, now);
            Enabled(w, e) && Sections(w, e) == FinalSections(w.books.calls.pending[id], Err(Failure.Uncertain), OutOfScope)
  {
    hide FinalSections;
    var ops := FinalSections(w.books.calls.pending[id], Err(Failure.Uncertain), OutOfScope);
    assert ops + [] == ops;
  }

  /** Reserving and beginning a resume leave the line and the connection alone. */
  lemma {:induction false} SameLine(s: Model, call: Call)
    ensures var ops := if call.rpc.Resume? && call.thread.Some?
                       then [Reserve(call.thread.value), Begin(call.thread.value)] else [];
            Run(s, ops).sequence == s.sequence && Run(s, ops).epoch == s.epoch
  {
    hide Run, DropPending;
    if call.rpc.Resume? && call.thread.Some? {
      RunTwo(s, Reserve(call.thread.value), Begin(call.thread.value));
    } else {
      RunNone(s);
    }
  }
}
