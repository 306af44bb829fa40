/** Runs of the worker built event by event, and what the end of the worker leaves behind. */
module WorkerRuns {
  import opened Wrappers
  import opened Reducer
  import opened ReducerRuns
  import opened ReducerGuarantees
  import opened Worker
  import opened WorkerCalls
  import opened WorkerControls

  lemma {:induction false} OneEventRun(w: System, e: Event)
    requires Enabled(w, e)
    ensures Unfolds(w, [e]) && After(w, [e]) == Next(w, e)
  {
    hide Enabled, Next;
    assert [e][1..] == [];
    assert Unfolds(Next(w, e), []) && After(Next(w, e), []) == Next(w, e);
  }

  lemma {:induction false} TwoEventRun(w: System, e: Event, f: Event)
    requires Enabled(w, e) && Enabled(Next(w, e), f)
    ensures Unfolds(w, [e, f]) && After(w, [e, f]) == Next(Next(w, e), f)
  {
    hide Enabled, Next;
    assert [e, f][1..] == [f];
    OneEventRun(Next(w, e), f);
  }

  lemma {:induction false} RunsJoin(w: System, a: seq<Event>, b: seq<Event>)
    requires Unfolds(w, a) && Unfolds(After(w, a), b)
    ensures Unfolds(w, a + b) && After(w, a + b) == After(After(w, a), b)
    decreases |a|
  {
    hide Enabled, Next;
    if a == [] {
      assert a + b == b;
    } else {
      assert (a + b)[0] == a[0] && (a + b)[1..] == a[1..] + b;
      RunsJoin(Next(w, a[0]), a[1..], b);
    }
  }

  lemma {:induction false} ComesOnline()
    ensures var w := Begun(1, false);
            && Enabled(w, Clear([])) && Enabled(Next(w, Clear([])), Online)
            && var v := Next(Next(w, Clear([])), Online);
               && v.phase.Up? && !v.stopping && v.books == w.books
               && v.state == Connect(w.state, Connected)
  {
    var w := Begun(1, false);
    var v := Next(w, Clear([]));
    RunOne(w.state, ClearPending);
    assert Sections(w, Clear([])) == [ClearPending];
    assert v.state == w.state && v.phase == Recovering([], Idle);
    RunOne(v.state, Publish(Connected));
    assert Sections(v, Online) == [Publish(Connected)];
  }

  function ResumeCall(ticket: Name): Call {
    Call(ticket, Resume, Some(5), 1, 100)
  }

  lemma {:induction false} Sent(w: System, command: Command)
    requires !w.phase.Finished? && TicketOf(command).Some? && TicketOf(command).value !in w.books.calls.issued
    ensures Enabled(w, Send(command))
    ensures Next(w, Send(command)) == w.(books := Enqueue(w.books, command, false))
  {
    hide Run;
    RunNone(w.state);
    assert Sections(w, Send(command)) == [];
  }

  /** The worker writes a resume: it reserves the subscription unless there is one. */
  lemma {:induction false} Resumed(w: System, call: Call, thread: Name)
    requires w.phase.Up? && !w.stopping && w.books.calls.queue == [Invoke(call)]
    requires call.rpc.Resume? && call.thread == Some(thread) && call.epoch == w.state.epoch && call.deadline > 0
    ensures Enabled(w, Serve(0, true))
    ensures var v := Next(w, Serve(0, true));
            && v.phase == w.phase && !v.stopping
            && v.books == Dispatch(w.books, thread !in w.state.control.subscribed, w.state.sequence, w.state.epoch)
            && v.state == BeginResume(Apply(w.state, Reserve(thread)), thread)
  {
    hide BeginResume, Run;
    RunTwo(w.state, Reserve(thread), Begin(thread));
    assert Sections(w, Serve(0, true)) == [Reserve(thread), Begin(thread)];
  }

  /** A device's call is sent, and written by the worker. */
  lemma {:induction false} Resumes(w: System, call: Call, thread: Name)
    requires w.phase.Up? && !w.stopping && w.books.calls.queue == [] && call.ticket !in w.books.calls.issued
    requires call.rpc.Resume? && call.thread == Some(thread) && call.epoch == w.state.epoch && call.deadline > 0
    ensures var e, f := Send(Invoke(call)), Serve(0, true);
            && Enabled(w, e) && Enabled(Next(w, e), f)
            && var (v, b) := (Next(Next(w, e), f), w.books);
               && v.phase == w.phase && !v.stopping && v.books.nextId == b.nextId + 1
               && v.books.calls.queue == [] && v.books.calls.issued == b.calls.issued + {call.ticket}
               && v.books.calls.answers == b.calls.answers
               && v.books.calls.pending == b.calls.pending[b.nextId + 1 :=
                    Pending(call, thread !in w.state.control.subscribed, w.state.sequence, None)]
               && v.state == BeginResume(Apply(w.state, Reserve(thread)), thread)
  {
    hide BeginResume, Apply, Enabled, Next;
    Sent(w, Invoke(call));
    Resumed(Next(w, Send(Invoke(call))), call, thread);
  }

  // ---------------------------------------------------------------------------------------
  // The end of the worker.

  /**
    When the worker ends it lets every pending call go without finishing its resume: the stored
    counts stay covered by outstanding resumes exactly when there are none.
  */
  lemma {:induction false} EndsCoveredExactlyWhen(w: System, e: Event)
    requires Guarded(w) && Enabled(w, e) && Ends(w, e)
    ensures var v := Next(w, e);
            Covered(v.state.control.resumes, v.books.calls.pending, v.phase) <==> w.state.control.resumes == map[]
  {
    hide SystemOk, Run;
    var v := Next(w, e);
    RunNone(w.state);
    assert Sections(w, e) == [];
    assert v.state == w.state && v.books.calls.pending == map[] && v.phase.Finished?;
    forall id: Name ensures Outstanding(v.books.calls.pending, v.phase, id) == 0 {
      assert ResumesOf(map[], id) == {};
    }
    if id :| id in w.state.control.resumes {
      assert w.state.control.resumes[id] > 0;
    }
  }

  /** One resume is written, then the gateway stops: its count is left with nobody to finish it. */
  lemma {:induction false} StopLeavesACount() returns (events: seq<Event>)
    ensures Unfolds(Begun(1, false), events)
    ensures var w := After(Begun(1, false), events);
            && w.phase.Finished? && w.state.control.resumes == map[5 := 1]
            && !Covered(w.state.control.resumes, w.books.calls.pending, w.phase)
  {
    hide Enabled, Next, Connect, Guarded, Covered, BeginResume, Apply;
    var w := Begun(1, false);
    ComesOnline();
    var w0 := Next(Next(w, Clear([])), Online);
    var first := Invoke(ResumeCall(1));
    ConnectedState();
    Resumes(w0, ResumeCall(1), 5);
    var w1 := Next(Next(w0, Send(first)), Serve(0, true));
    Stops(w1);
    TwoEventRun(w, Clear([]), Online);
    TwoEventRun(w0, Send(first), Serve(0, true));
    TwoEventRun(w1, Send(Stop), Serve(0, true));
    RunsJoin(w0, [Send(first), Serve(0, true)], [Send(Stop), Serve(0, true)]);
    var rest := [Send(first), Serve(0, true)] + [Send(Stop), Serve(0, true)];
    RunsJoin(w, [Clear([]), Online], rest);
    events := [Clear([]), Online] + rest;
    var before := Next(w1, Send(Stop));
    BegunGuarded(1, false);
    NextGuarded(w, Clear([]));
    NextGuarded(Next(w, Clear([])), Online);
    NextGuarded(w0, Send(first));
    NextGuarded(Next(w0, Send(first)), Serve(0, true));
    NextGuarded(w1, Send(Stop));
    assert 5 in before.state.control.resumes;
    EndsCoveredExactlyWhen(before, Serve(0, true));
  }

  lemma {:induction false} ConnectedState()
    ensures var s := Connect(Initial(1, false), Connected);
            s.epoch == 1 && BeginResume(Apply(s, Reserve(5)), 5).control.resumes == map[5 := 1]
  {
    hide DropPending;
  }

  lemma {:induction false} Stops(w: System)
    requires w.phase.Up? && !w.stopping && w.books.calls.queue == []
    ensures Enabled(w, Send(Stop)) && Next(w, Send(Stop)).state == w.state
    ensures var v := Next(w, Send(Stop));
            && Enabled(v, Serve(0, true)) && Ends(v, Serve(0, true))
            && Next(v, Serve(0, true)).state == w.state && Next(v, Serve(0, true)).phase.Finished?
  {
    hide Run;
    var v := Next(w, Send(Stop));
    RunNone(w.state);
    assert Sections(w, Send(Stop)) == [];
    assert v.books.calls.queue == [Stop];
    assert Sections(v, Serve(0, true)) == [];
  }
}
