/**
  Worker and shared state together: an archived thread shows no control, resume counts never
  underflow, and an answer only ever reaches the request it was validated against.
*/
module WorkerControls {
  import opened Wrappers
  import opened Reducer
  import opened ReducerRuns
  import opened ReducerGuarantees
  import opened ReducerTokens
  import opened Worker
  import opened WorkerCalls

  // ---------------------------------------------------------------------------------------
  // What each section does to the resume counts.

  /** Counts are only dropped. */
  ghost predicate Lower(a: map<Name, nat>, b: map<Name, nat>) {
    forall id :: id in b ==> id in a && b[id] == a[id]
  }

  lemma {:induction false} StampResumes(s: Model, m: Message, id: Option<Name>)
    ensures StampStage(s, m, id).control.resumes == s.control.resumes
  {
    hide DropToolCalls;
  }

  lemma {:induction false} ProjectResumes(s: Model, m: Message, id: Option<Name>)
    ensures Project(s, m, id).control.resumes == s.control.resumes
  {
    hide StampStage, LegacyProjection, TurnStage, UpdateTurns, DeliverAll;
    var t := StampStage(s, m, id);
    StampResumes(s, m, id);
    if id.Some? {
      LegacyControl(t, id.value, m.body);
      if TurnOf(m.body).Some? {
        TurnControl(ContentStage(t, id.value, m.body), id.value, TurnOf(m.body).value, m.body);
      }
    }
  }

  lemma {:induction false} EarlyResumes(s: Model, m: Message, scope: Scope)
    ensures ArchiveStage(s, m).control.resumes == s.control.resumes
    ensures PlanStage(s, m, scope).control == s.control
    ensures RequestStage(s, m).control.resumes == s.control.resumes
  {
    hide DropPending, DropItems, PlanAdmitted, StorePlan, TokenFor;
  }

  lemma {:induction false} AttachedResumes(s: Model, m: Message, scope: Scope)
    ensures Lower(s.control.resumes, ReduceAttached(s, m, scope).control.resumes)
  {
    hide PlanStage, PlanAdmitted, RequestStage, Project, ClearProvisional, DropPending, DeliverAll;
    var t := PlanStage(s, m, scope);
    EarlyResumes(s, m, scope);
    EarlyResumes(t, m, scope);
    ProjectResumes(RequestStage(t, m), m, ThreadOf(m));
  }

  lemma {:induction false} ReduceResumes(s: Model, m: Message, scope: Scope)
    ensures Lower(s.control.resumes, Reduce(s, m, scope).control.resumes)
  {
    hide ArchiveStage, ReduceAttached, DeliverAll;
    EarlyResumes(s, m, scope);
    AttachedResumes(ArchiveStage(s, m), m, scope);
  }

  lemma {:induction false} OpResumes(s: Model, op: Op)
    requires !op.Begin? && !op.Finish?
    ensures Lower(s.control.resumes, Apply(s, op).control.resumes)
    ensures Drops(s, op) ==> Apply(s, op).control.resumes == map[]
  {
    hide Reduce, DeliverAll, DetachAll, StableThreads, MergedThread, RetainedLive, RetainedProvisional, RetainPlans,
         ArchivedReadStale, Invalidated, Permits, DropItems, DropPending;
    if op.Native? {
      ReduceResumes(s, op.message, op.scope);
    } else {
      forall t: Model, id: Name, after: Option<nat> ensures RetainPlans(t, id, after).control == t.control {
        RetainPrepares(t, id, after);
      }
    }
  }

  lemma {:induction false} BeginResumes(s: Model, thread: Name)
    ensures var count := if thread in s.control.resumes then s.control.resumes[thread] else 0;
            Apply(s, Begin(thread)).control.resumes == s.control.resumes[thread := count + 1]
  {
    hide DropPending;
  }

  lemma {:induction false} FinishResumes(s: Model, thread: Name)
    requires Counted(s.control)
    ensures var t := Apply(s, Finish(thread)).control.resumes;
            forall id :: id in t ==>
              id in s.control.resumes && t[id] == s.control.resumes[id] - if id == thread then 1 else 0
  {
    hide DropPending;
  }

  // ---------------------------------------------------------------------------------------
  // Outstanding resumes.

  predicate ResumeOf(p: Pending, thread: Name) {
    p.call.rpc.Resume? && p.call.thread == Some(thread)
  }

  function ResumesOf(pending: map<nat, Pending>, thread: Name): set<nat> {
    set id | id in pending && ResumeOf(pending[id], thread)
  }

  function RecoveringThread(phase: Phase): Option<Name> {
    if phase.Recovering? && (phase.recovery.Resuming? || phase.recovery.Decided?) then Some(phase.recovery.thread) else None
  }

  /** Calls and recoveries of the worker that will still finish a resume of this thread. */
  function Outstanding(pending: map<nat, Pending>, phase: Phase, thread: Name): nat {
    |ResumesOf(pending, thread)| + if RecoveringThread(phase) == Some(thread) then 1 else 0
  }

  ghost predicate Covered(resumes: map<Name, nat>, pending: map<nat, Pending>, phase: Phase) {
    forall id :: id in resumes ==> resumes[id] <= Outstanding(pending, phase, id)
  }

  lemma {:induction false} ResumeInserted(pending: map<nat, Pending>, id: nat, p: Pending, thread: Name)
    requires id !in pending
    ensures |ResumesOf(pending[id := p], thread)| == |ResumesOf(pending, thread)| + if ResumeOf(p, thread) then 1 else 0
  {
    if ResumeOf(p, thread) {
      assert ResumesOf(pending[id := p], thread) == ResumesOf(pending, thread) + {id};
    } else {
      assert ResumesOf(pending[id := p], thread) == ResumesOf(pending, thread);
    }
  }

  lemma {:induction false} ResumeRemoved(pending: map<nat, Pending>, id: nat, thread: Name)
    requires id in pending
    ensures |ResumesOf(pending - {id}, thread)| == |ResumesOf(pending, thread)| - if ResumeOf(pending[id], thread) then 1 else 0
  {
    if ResumeOf(pending[id], thread) {
      assert id in ResumesOf(pending, thread);
      assert ResumesOf(pending - {id}, thread) == ResumesOf(pending, thread) - {id};
    } else {
      assert ResumesOf(pending - {id}, thread) == ResumesOf(pending, thread);
    }
  }

  lemma {:induction false} LowerCovered(a: map<Name, nat>, b: map<Name, nat>, pending: map<nat, Pending>,
                                        phase: Phase, next: Phase)
    requires Lower(a, b) && Covered(a, pending, phase) && RecoveringThread(next) == RecoveringThread(phase)
    ensures Covered(b, pending, next)
  {
  }

  // ---------------------------------------------------------------------------------------
  // Every event keeps the counts covered.

  /** A call that is finalized takes its count with it. */
  lemma {:induction false} FinishCovered(s: Model, pending: map<nat, Pending>, id: nat, phase: Phase)
    requires Sound(s) && id in pending && Covered(s.control.resumes, pending, phase)
    ensures var p := pending[id];
            Covered(if p.call.rpc.Resume? && p.call.thread.Some?
                    then Apply(s, Finish(p.call.thread.value)).control.resumes else s.control.resumes,
                    pending - {id}, phase)
  {
    hide Apply, OneGeneration, Bounded, ResumesOf, RecoveringThread;
    var p := pending[id];
    if p.call.rpc.Resume? && p.call.thread.Some? {
      FinishResumes(s, p.call.thread.value);
    }
    forall other: Name
      ensures Outstanding(pending - {id}, phase, other)
              == Outstanding(pending, phase, other) - if ResumeOf(p, other) then 1 else 0
    {
      ResumeRemoved(pending, id, other);
    }
  }

  lemma {:induction false} FinalCovered(s: Model, pending: map<nat, Pending>, id: nat, final: Result<Snapshot, Failure>,
                                       scope: Scope, phase: Phase)
    requires Sound(s) && id in pending && Covered(s.control.resumes, pending, phase)
    ensures Covered(Run(s, FinalSections(pending[id], final, scope)).control.resumes, pending - {id}, phase)
  {
    hide Apply, Run, Sound, Covered;
    var p := pending[id];
    var ops := FinalSections(p, final, scope);
    var resume := p.call.rpc.Resume? && p.call.thread.Some?;
    if |ops| == 0 || (|ops| == 1 && resume) {
      if |ops| == 1 { RunOne(s, ops[0]); assert ops == [ops[0]]; } else { RunNone(s); assert ops == []; }
      FinishCovered(s, pending, id, phase);
    } else {
      var t := Apply(s, ops[0]);
      OpResumes(s, ops[0]);
      ApplyKeeps(s, ops[0]);
      LowerCovered(s.control.resumes, t.control.resumes, pending, phase, phase);
      FinishCovered(t, pending, id, phase);
      if resume {
        assert ops == [ops[0], ops[1]];
        RunTwo(s, ops[0], ops[1]);
      } else {
        assert ops == [ops[0]];
        RunOne(s, ops[0]);
      }
    }
  }

  lemma {:induction false} DispatchCovered(w: System, now: nat, written: bool)
    requires Enabled(w, Serve(now, written)) && SystemOk(w) && Sound(w.state)
    requires Covered(w.state.control.resumes, w.books.calls.pending, w.phase)
    ensures Covered(Run(w.state, ServeSections(w, now)).control.resumes, Served(w, now, written).calls.pending, w.phase)
  {
    hide Apply, Run, Refusal, Deliverable, ResumesOf, Sound;
    var s, pending, command := w.state, w.books.calls.pending, w.books.calls.queue[0];
    NextIdUnused(w.books);
    var ops := ServeSections(w, now);
    if Writes(w, now) && command.Invoke? {
      var id, call := w.books.nextId + 1, command.call;
      var p := Served(w, now, written).calls.pending[id];
      assert Served(w, now, written).calls.pending == pending[id := p] && p.call == call;
      forall other: Name
        ensures Outstanding(pending[id := p], w.phase, other)
                == Outstanding(pending, w.phase, other) + if ResumeOf(p, other) then 1 else 0
      {
        ResumeInserted(pending, id, p, other);
      }
      if call.rpc.Resume? && call.thread.Some? {
        var t := Apply(s, Reserve(call.thread.value));
        OpResumes(s, Reserve(call.thread.value));
        BeginResumes(t, call.thread.value);
        RunTwo(s, Reserve(call.thread.value), Begin(call.thread.value));
        assert ops == [Reserve(call.thread.value), Begin(call.thread.value)];
        assert ResumeOf(p, call.thread.value);
      } else {
        RunNone(s);
      }
    } else {
      RunNone(s);
    }
  }

  lemma {:induction false} ReceiveCovered(w: System, wire: nat, reply: Reply, now: nat, scope: Scope)
    requires SystemOk(w) && Sound(w.state) && wire in w.books.calls.pending
    requires Covered(w.state.control.resumes, w.books.calls.pending, w.phase)
    ensures Covered(Run(w.state, ReceiveSections(w, wire, reply, now, scope)).control.resumes,
                    Received(w, wire, reply, now).calls.pending, w.phase)
  {
    hide Run, FinalSections, Final, ReplyResult, Continues, ResumesOf, Sound;
    var pending := w.books.calls.pending;
    var p := pending[wire];
    if Continues(w.state, p, reply) {
      NextIdUnused(w.books);
      RunNone(w.state);
      var id, moved := w.books.nextId + 1, p.(resume := Some(reply));
      forall other: Name
        ensures Outstanding((pending - {wire})[id := moved], w.phase, other) == Outstanding(pending, w.phase, other)
      {
        ResumeRemoved(pending, wire, other);
        ResumeInserted(pending - {wire}, id, moved, other);
      }
    } else {
      FinalCovered(w.state, pending, wire, Final(w.state, p, ReplyResult(w.state, p, reply), now), scope, w.phase);
    }
  }

  lemma {:induction false} RecoveryCovered(w: System, e: Event)
    requires Enabled(w, e) && (e.RecoverNext? || e.RecoverRelease?) && Sound(w.state)
    requires Covered(w.state.control.resumes, w.books.calls.pending, w.phase)
    ensures Covered(Run(w.state, CoreSections(w, e)).control.resumes, w.books.calls.pending, PhaseAfter(w, e))
  {
    hide Apply, Run, ResumesOf, Sound;
    if e.RecoverNext? {
      BeginResumes(w.state, w.phase.left[0]);
      RunOne(w.state, Begin(w.phase.left[0]));
    } else {
      assert Counted(w.state.control) by { SoundCounted(w.state); }
      FinishResumes(w.state, w.phase.recovery.thread);
      RunOne(w.state, Finish(w.phase.recovery.thread));
    }
  }

  lemma {:induction false} SoundCounted(s: Model)
    requires Sound(s)
    ensures Counted(s.control)
  {
  }

  /** One section that is neither the start nor the end of a resume. */
  lemma {:induction false} OneCovered(w: System, e: Event, op: Op)
    requires Enabled(w, e) && CoreSections(w, e) == [op] && !op.Begin? && !op.Finish?
    requires Covered(w.state.control.resumes, w.books.calls.pending, w.phase)
    requires RecoveringThread(PhaseAfter(w, e)) == RecoveringThread(w.phase)
    ensures Covered(Run(w.state, CoreSections(w, e)).control.resumes, w.books.calls.pending, PhaseAfter(w, e))
  {
    hide Apply, Run, Outstanding, CoreSections, PhaseAfter, Enabled;
    OpResumes(w.state, op);
    RunOne(w.state, op);
    LowerCovered(w.state.control.resumes, Apply(w.state, op).control.resumes, w.books.calls.pending, w.phase, PhaseAfter(w, e));
  }

  lemma {:induction false} CoreCovered(w: System, e: Event)
    requires Enabled(w, e) && SystemOk(w) && Sound(w.state) && !Loses(w, e) && !Ends(w, e)
    requires Covered(w.state.control.resumes, w.books.calls.pending, w.phase)
    ensures Covered(Run(w.state, CoreSections(w, e)).control.resumes, Core(w, e).calls.pending, PhaseAfter(w, e))
  {
    hide Run, Covered, Sound, SystemOk, Served, Received, ServeSections, ReceiveSections, FinalSections;
    if e.RecoverReply? || e.Send? || e.AskStop? || e.WaitAnswer? || e.Retry? {
      RunNone(w.state);
      SameCovered(w.state.control.resumes, w.books.calls.pending, w.phase, PhaseAfter(w, e));
    }
    match e
    case RecoverNext => RecoveryCovered(w, e);
    case RecoverRelease => RecoveryCovered(w, e);
    case Serve(now, written) => DispatchCovered(w, now, written);
    case Receive(wire, reply, now, scope, _) => ReceiveCovered(w, wire, reply, now, scope);
    case Expire(wire, _) => FinalCovered(w.state, w.books.calls.pending, wire, Err(Uncertain), OutOfScope, w.phase);
    case CloseOne(wire, _) => FinalCovered(w.state, w.books.calls.pending, wire, Err(Uncertain), OutOfScope, w.phase);
    case Notify(message, scope) => OneCovered(w, e, Native(message, scope));
    case Outside(op) => OneCovered(w, e, op);
    case Clear(_) => OneCovered(w, e, ClearPending);
    case RecoverStore => OneCovered(w, e, StoreSections(w.phase.recovery)[0]);
    case Online => OneCovered(w, e, Publish(Connected));
    case BootFails => OneCovered(w, e, Publish(Reconnecting));
    case _ =>
  }

  lemma {:induction false} SameCovered(a: map<Name, nat>, pending: map<nat, Pending>, phase: Phase, next: Phase)
    requires Covered(a, pending, phase) && RecoveringThread(next) == RecoveringThread(phase)
    ensures Covered(a, pending, next)
  {
  }

  // ---------------------------------------------------------------------------------------
  // The composed invariant.

  ghost predicate Guarded(w: System) {
    && SystemOk(w) && Sound(w.state)
    && (!w.phase.Finished? ==> Covered(w.state.control.resumes, w.books.calls.pending, w.phase))
    && (w.phase.Recovering? || w.state.connection.Connected? ==> Quiet(w.state.control))
  }

  lemma {:induction false} RunQuiet(s: Model, ops: seq<Op>)
    requires forall k :: 0 <= k < |ops| ==> !ops[k].Publish?
    ensures Quiet(s.control) ==> Quiet(Run(s, ops).control)
    decreases |ops|
  {
    hide Apply, Quiet, Safe;
    if ops != [] {
      ApplyKeeps(s, ops[0]);
      RunQuiet(Apply(s, ops[0]), ops[1..]);
    }
  }

  lemma {:induction false} NextCovered(w: System, e: Event)
    requires Guarded(w) && Enabled(w, e) && !Next(w, e).phase.Finished?
    ensures Covered(Next(w, e).state.control.resumes, Next(w, e).books.calls.pending, Next(w, e).phase)
  {
    hide Run, Covered, SystemOk, Sound, Core, CoreSections, Loses, Ends, Quiet;
    if Loses(w, e) {
      RunAppended(w.state, CoreSections(w, e), Publish(Reconnecting));
      OpResumes(Run(w.state, CoreSections(w, e)), Publish(Reconnecting));
      NothingCovered(Next(w, e).books.calls.pending, Next(w, e).phase);
    } else if !Ends(w, e) {
      FinishedStays(w, e);
      CoreCovered(w, e);
      assert CoreSections(w, e) + [] == CoreSections(w, e);
    }
  }

  lemma {:induction false} NothingCovered(pending: map<nat, Pending>, phase: Phase)
    ensures Covered(map[], pending, phase)
  {
  }

  lemma {:induction false} FinishedStays(w: System, e: Event)
    requires Enabled(w, e)
    ensures w.phase.Finished? ==> Next(w, e).phase.Finished?
  {
    hide Run, BooksAfter, Sections;
  }

  lemma {:induction false} NextQuiet(w: System, e: Event)
    requires Guarded(w) && Enabled(w, e)
    ensures Next(w, e).phase.Recovering? || Next(w, e).state.connection.Connected? ==> Quiet(Next(w, e).state.control)
  {
    hide Apply, BooksAfter, Covered, BooksOk, Sound, Quiet, Safe, CoreSections;
    NextLink(w, e);
    LosesUp(w, e);
    if e.Online? {
      SinglePublish(w, e);
      ApplyKeeps(w.state, Publish(Connected));
    } else if e.Clear? {
      ClearedQuiet(w, e);
    } else if !e.BootFails? && !Loses(w, e) {
      CorePublishes(w, e);
      RunQuiet(w.state, CoreSections(w, e));
      assert CoreSections(w, e) + [] == CoreSections(w, e);
    }
  }

  lemma {:induction false} ClearedQuiet(w: System, e: Event)
    requires Enabled(w, e) && e.Clear?
    ensures Quiet(Next(w, e).state.control)
  {
    hide BooksAfter, PhaseAfter;
    assert Sections(w, e) == [ClearPending];
    RunOne(w.state, ClearPending);
  }

  lemma {:induction false} NextGuarded(w: System, e: Event)
    requires Guarded(w) && Enabled(w, e)
    ensures Guarded(Next(w, e))
  {
    hide SystemOk, Sound, Covered, Quiet, Run, Sections, PhaseAfter, BooksAfter, Enabled;
    NextOk(w, e);
    RunKeeps(w.state, Sections(w, e));
    if !Next(w, e).phase.Finished? {
      NextCovered(w, e);
    }
    NextQuiet(w, e);
  }

  lemma {:induction false} RunGuarded(w: System, events: seq<Event>)
    requires Guarded(w) && Unfolds(w, events)
    ensures Guarded(After(w, events))
    decreases |events|
  {
    hide Guarded, Enabled, Next;
    if events != [] {
      NextGuarded(w, events[0]);
      RunGuarded(Next(w, events[0]), events[1..]);
    }
  }

  lemma {:induction false} BegunGuarded(namespace: Name, restricted: bool)
    ensures Guarded(Begun(namespace, restricted))
  {
    hide SystemOk;
    BegunOk(namespace, restricted);
    InitiallySound(namespace, restricted);
  }

  /**
    In every reachable state of worker and shared state: while connected, a thread in the archive
    with no resume in flight has no pending request; and as long as the worker runs, each stored
    resume count is positive and at most the resumes the worker will still finish.
  */
  lemma {:induction false} ArchivedMeansNoControls(namespace: Name, restricted: bool, events: seq<Event>, thread: Name)
    requires Unfolds(Begun(namespace, restricted), events)
    ensures var w := After(Begun(namespace, restricted), events);
            && (w.state.connection.Connected? && thread in w.state.control.archived && thread !in w.state.control.resumes ==>
                  forall k :: k in w.state.control.pending ==> w.state.control.pending[k].thread != Some(thread))
            && (thread in w.state.control.resumes ==> w.state.control.resumes[thread] > 0)
            && (thread in w.state.control.resumes && !w.phase.Finished? ==>
                  w.state.control.resumes[thread] <= Outstanding(w.books.calls.pending, w.phase, thread))
  {
    hide Begun, Unfolds, After, SystemOk, OneGeneration, Bounded;
    BegunGuarded(namespace, restricted);
    RunGuarded(Begun(namespace, restricted), events);
  }

  /** The decrement of `finish_resume` never underflows, whenever the worker runs it. */
  lemma {:induction false} NeverUnderflows(w: System, thread: Name)
    requires Guarded(w)
    ensures !Underflows(w.state, thread)
  {
    hide SystemOk;
  }

  // ---------------------------------------------------------------------------------------
  // Answers to runtime requests, end to end.

  /** The shared state of a run is the reducer's run of its sections. */
  lemma {:induction false} AfterRuns(w: System, events: seq<Event>)
    requires Unfolds(w, events)
    ensures After(w, events).state == Run(w.state, AllSections(w, events))
    decreases |events|
  {
    hide Enabled, Sections, BooksAfter, PhaseAfter, Apply;
    if events != [] {
      AfterRuns(Next(w, events[0]), events[1..]);
      RunSplit(w.state, Sections(w, events[0]), AllSections(Next(w, events[0]), events[1..]));
    }
  }

  /** No native request is also an item notification. */
  predicate Ordinary(e: Event) {
    e.Notify? ==> Regular(Native(e.message, e.scope))
  }

  predicate AllOrdinary(events: seq<Event>) {
    forall k :: 0 <= k < |events| ==> Ordinary(events[k])
  }

  lemma {:induction false} SectionsRegular(w: System, e: Event)
    requires Enabled(w, e) && Ordinary(e)
    ensures forall k :: 0 <= k < |Sections(w, e)| ==> Regular(Sections(w, e)[k])
  {
    hide Writes, Continues, Final, ReplyResult, Loses;
  }

  lemma {:induction false} AllSectionsRegular(w: System, events: seq<Event>)
    requires Unfolds(w, events) && AllOrdinary(events)
    ensures forall k :: 0 <= k < |AllSections(w, events)| ==> Regular(AllSections(w, events)[k])
    decreases |events|
  {
    hide Enabled, Next, Sections, Regular;
    if events != [] {
      assert Ordinary(events[0]);
      SectionsRegular(w, events[0]);
      AllSectionsRegular(Next(w, events[0]), events[1..]);
    }
  }

  lemma {:induction false} IssuedAlong(w: System, events: seq<Event>)
    requires Issued(w.state) && Unfolds(w, events) && AllOrdinary(events)
    ensures Issued(After(w, events).state) && AllSettle(w.state, AllSections(w, events))
  {
    hide Issued, After, AllSections, Unfolds, Run, Settles, Regular;
    var ops := AllSections(w, events);
    AfterRuns(w, events);
    AllSectionsRegular(w, events);
    RegularSettles(w.state, ops);
    RunTokens(w.state, ops, Token(0, 0, 0), Request(0, None, ThreadArchived, Token(0, 0, 0)));
  }

  lemma {:induction false} BegunIssued(namespace: Name, restricted: bool)
    ensures Issued(Begun(namespace, restricted).state)
  {
  }

  lemma {:induction false} BegunAnswerable(namespace: Name, restricted: bool)
    ensures Answerable(Begun(namespace, restricted).state)
  {
  }

  lemma {:induction false} AnswerableAlong(w: System, events: seq<Event>)
    requires Answerable(w.state) && Unfolds(w, events)
    ensures Answerable(After(w, events).state)
  {
    hide Answerable, After, AllSections, Unfolds, Run;
    AfterRuns(w, events);
    RunAnswerable(w.state, AllSections(w, events), 0, Token(0, 0, 0), Request(0, None, ThreadArchived, Token(0, 0, 0)));
  }

  /**
    Over every run of worker and shared state: an answer that was validated against a request and
    later passes the worker's own check is written to that same request, method and parameters
    unchanged, on the live connection, whatever was replayed, reused or reconnected in between.
  */
  lemma {:induction false} AnswersLandWhereChecked(namespace: Name, restricted: bool, before: seq<Event>,
                                                   between: seq<Event>,
                                                  id: Name, thread: Name, token: Token, ticket: Name, epoch: nat,
                                                  now: nat, written: bool)
    requires Unfolds(Begun(namespace, restricted), before)
    requires Unfolds(After(Begun(namespace, restricted), before), between)
    requires Checked(After(Begun(namespace, restricted), before).state, id, thread, token).Some?
    requires var w := After(After(Begun(namespace, restricted), before), between);
             && Enabled(w, Serve(now, written)) && Writes(w, now)
             && w.books.calls.queue[0] == Respond(ticket, id, epoch, token)
    ensures var u := After(Begun(namespace, restricted), before);
            var w := After(u, between);
            && id in w.state.control.pending && w.state.control.pending[id] == Checked(u.state, id, thread, token).value
            && thread !in w.state.control.archived
            && Served(w, now, written).wire == w.books.wire + [AnswerFrame(ticket, id, token, w.state.epoch)]
  {
    hide Begun, Answerable, After, AllSections, Unfolds, Run, Checked;
    var s := Begun(namespace, restricted);
    var u := After(s, before);
    var w := After(u, between);
    BegunAnswerable(namespace, restricted);
    AnswerableAlong(s, before);
    AfterRuns(u, between);
    StaleAnswersNeverLand(u.state, AllSections(u, between), id, thread, token, epoch);
  }

  // ---------------------------------------------------------------------------------------
  // A failed resume leaves no trace of its reservation.

  lemma {:induction false} FailedResumeUndone(s: Model, p: Pending, failure: Failure, scope: Scope)
    requires Sound(s) && p.reserved && p.call.rpc.Resume? && p.call.thread.Some?
    ensures var (thread, t) := (p.call.thread.value, Run(s, FinalSections(p, Err(failure), scope)));
            && t.control.subscribed == s.control.subscribed - {thread}
            && (forall k :: k in t.control.pending <==> k in s.control.pending && s.control.pending[k].thread != Some(thread))
            && (forall k :: k in t.streams.provisional <==> k in s.streams.provisional && k.thread != thread)
            && t.cache == s.cache && t.fences == s.fences && t.sequence == s.sequence
  {
    hide Run;
    var thread := p.call.thread.value;
    assert FinalSections(p, Err(failure), scope) == [Release(thread), Finish(thread)];
    RunTwo(s, Release(thread), Finish(thread));
    assert Apply(s, Release(thread)).control.resumes == s.control.resumes;
  }
}
