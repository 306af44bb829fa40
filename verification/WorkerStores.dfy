/** What the worker's calls leave in the shared state: when written, when answered, when recovered. */
module WorkerStores {
  import opened Wrappers
  import opened Reducer
  import opened ReducerRuns
  import opened Worker
  import opened WorkerCalls

  function CountOf(c: Control, thread: Name): nat {
    if thread in c.resumes then c.resumes[thread] else 0
  }

  /** The requests that stay are those `gone` does not name. */
  ghost predicate PendingWithout(before: Control, after: Control, thread: Name, gone: bool) {
    && (forall k :: k in after.pending <==>
          k in before.pending && !(gone && before.pending[k].thread == Some(thread)))
    && (forall k :: k in after.pending ==> after.pending[k] == before.pending[k])
  }

  ghost predicate StreamsWithout(before: Streams, after: Streams, thread: Name) {
    && (forall k :: k in after.provisional <==> k in before.provisional && k.thread != thread)
    && (forall k :: k in after.provisional ==> after.provisional[k] == before.provisional[k])
    && after.live == before.live && after.plans == before.plans && after.pendingPlans == before.pendingPlans
  }

  /**
    A written call remembers the event line at its delivery. A resume also counts itself and takes
    its thread's subscription, which is its own to give back only if nobody held it before.
  */
  lemma {:induction false} DispatchRecords(w: System, now: nat, call: Call)
    requires SystemOk(w) && Enabled(w, Serve(now, true)) && w.books.calls.queue[0] == Invoke(call) && Writes(w, now)
    ensures var (s, next, id) := (w.state, Next(w, Serve(now, true)), w.books.nextId + 1);
            && id in next.books.calls.pending
            && next.books.calls.pending[id].call == call && next.books.calls.pending[id].resume.None?
            && next.books.calls.pending[id].started == s.sequence
            && (next.books.calls.pending[id].reserved <==>
                  call.rpc.Resume? && call.thread.Some? && call.thread.value !in s.control.subscribed)
            && if call.rpc.Resume? && call.thread.Some? then
                 var (t, thread) := (next.state, call.thread.value);
                 && t.control.subscribed == s.control.subscribed + {thread} && t.control.archived == s.control.archived
                 && thread in t.control.resumes && t.control.resumes[thread] == CountOf(s.control, thread) + 1
                 && t.control.resumes - {thread} == s.control.resumes - {thread}
                 && PendingWithout(s.control, t.control, thread,
                                   thread in s.control.archived && thread !in s.control.resumes)
                 && t == s.(control := t.control)
               else next.state == s
  {
    hide SystemOk, Run, Refusal;
    var s := w.state;
    if call.rpc.Resume? && call.thread.Some? {
      var thread := call.thread.value;
      RunTwo(s, Reserve(thread), Begin(thread));
      assert Sections(w, Serve(now, true)) == [Reserve(thread), Begin(thread)];
    } else {
      RunNone(s);
      assert Sections(w, Serve(now, true)) == [];
    }
  }

  /** The event that may answer the call pending under a wire id. */
  predicate Concerns(e: Event, wire: nat) {
    (e.Receive? && e.wire == wire && e.written) || (e.Expire? && e.wire == wire) || (e.CloseOne? && e.wire == wire)
  }

  /** The sections of an event that answers a call are those of the answer. */
  lemma {:induction false} AnswerSections(w: System, e: Event, wire: nat, scope: Scope)
      returns (final: Result<Snapshot, Failure>)
    requires SystemOk(w) && Enabled(w, e) && wire in w.books.calls.pending && Concerns(e, wire)
    requires e.Receive? ==> e.scope == scope
    ensures var (p, answers) := (w.books.calls.pending[wire], Next(w, e).books.calls.answers);
            if p.call.ticket !in answers then Sections(w, e) == []
            else answers[p.call.ticket] == AnswerOf(final) && Sections(w, e) == FinalSections(p, final, scope)
  {
    hide BooksOk, Run, Final, ReplyResult, ResultSections, CountSections, HistoryRefusal, AwaitsHistory, PhaseAfter,
         Served, ServeSections, StoreSections, Lose, End, Enqueue, Decline, SystemOk;
    var p := w.books.calls.pending[wire];
    assert BooksOk(w.books) by { BooksInOrder(w); }
    PendingExclusive(w.books, wire, p.call.ticket);
    final := if e.Receive? then Final(w.state, p, ReplyResult(w.state, p, e.reply), e.now) else Err(Uncertain);
    FailedScope(p, scope);
  }

  lemma {:induction false} FailedScope(p: Pending, scope: Scope)
    ensures FinalSections(p, Err(Uncertain), OutOfScope) == FinalSections(p, Err(Uncertain), scope)
  {
  }

  /** What an outcome leaves of its call. */
  lemma {:induction false} FinalStores(s: Model, p: Pending, final: Result<Snapshot, Failure>, scope: Scope)
    ensures var thread := p.call.thread;
            var stored :=
              if final.Ok? && (p.call.rpc.Start? || p.call.rpc.Resume?)
              then Remember(s, final.value, Some(p.started), scope)
              else if final.Err? && p.reserved && thread.Some? then ReleaseReservation(s, thread.value)
              else s;
            Run(s, FinalSections(p, final, scope)) ==
            if p.call.rpc.Resume? && thread.Some? then Apply(stored, Finish(thread.value)) else stored
  {
    hide Run, Remember, ReleaseReservation, FinishResume;
    RunShort(s, FinalSections(p, final, scope));
  }

  /**
    The caller and the shared state agree on the outcome: a started or resumed thread is remembered,
    as of the delivery of its call, exactly when the caller is given that snapshot; otherwise a
    reservation is given back; every other call leaves the state alone. An unanswered resume too.
  */
  lemma {:induction false} AnswerStores(w: System, e: Event, wire: nat, scope: Scope)
    requires SystemOk(w) && Enabled(w, e) && wire in w.books.calls.pending && Concerns(e, wire)
    requires e.Receive? ==> e.scope == scope
    ensures var (s, p, next) := (w.state, w.books.calls.pending[wire], Next(w, e));
            if p.call.ticket !in next.books.calls.answers then next.state == s
            else
              var answer, thread := next.books.calls.answers[p.call.ticket], p.call.thread;
              var stored :=
                if answer.Success? && (p.call.rpc.Start? || p.call.rpc.Resume?)
                then Remember(s, answer.result, Some(p.started), scope)
                else if answer.Failed? && p.reserved && thread.Some? then ReleaseReservation(s, thread.value)
                else s;
              next.state == if p.call.rpc.Resume? && thread.Some? then Apply(stored, Finish(thread.value)) else stored
  {
    hide BooksOk, SystemOk, Run, Sections, FinalSections, Remember, ReleaseReservation, Apply, Enabled, BooksAfter, PhaseAfter;
    var final := AnswerSections(w, e, wire, scope);
    FinalStores(w.state, w.books.calls.pending[wire], final, scope);
    RunNone(w.state);
  }

  lemma {:induction false} BooksInOrder(w: System)
    requires SystemOk(w)
    ensures BooksOk(w.books)
  {
    hide BooksOk;
  }

  lemma {:induction false} RunShort(s: Model, ops: seq<Op>)
    requires |ops| <= 2
    ensures Run(s, ops) ==
            if ops == [] then s else if |ops| == 1 then Apply(s, ops[0]) else Apply(Apply(s, ops[0]), ops[1])
  {
    hide Apply;
    if ops == [] {
      RunNone(s);
    } else if |ops| == 1 {
      assert ops == [ops[0]];
      RunOne(s, ops[0]);
    } else {
      assert ops == [ops[0], ops[1]];
      RunTwo(s, ops[0], ops[1]);
    }
  }

  // ---------------------------------------------------------------------------------------
  // Recoveries.

  lemma {:induction false} RecoveryRecords(w: System)
    requires Enabled(w, RecoverNext)
    ensures var (next, thread) := (Next(w, RecoverNext), w.phase.left[0]);
            && next.phase == Recovering(w.phase.left[1..], Resuming(thread, w.state.epoch, w.state.sequence))
            && next.state == BeginResume(w.state, thread)
  {
    hide BeginResume, Run;
    assert Sections(w, RecoverNext) == [Begin(w.phase.left[0])];
    RunOne(w.state, Begin(w.phase.left[0]));
  }

  /** The thread was found archived: it keeps its subscription and history, but no controls. */
  ghost predicate KeptArchived(s: Model, t: Model, thread: Name) {
    && t.control.archived == s.control.archived + {thread} && t.control.subscribed == s.control.subscribed
    && t.control.resumes == s.control.resumes && PendingWithout(s.control, t.control, thread, true)
    && t.cache.threads == s.cache.threads && t.cache.settings == s.cache.settings - {thread}
    && StreamsWithout(s.streams, t.streams, thread) && t.sequence == s.sequence + 1
  }

  /** The thread could not be recovered: it and its subscription are gone. */
  ghost predicate GivenUp(s: Model, t: Model, thread: Name) {
    && t.control == s.control.(subscribed := s.control.subscribed - {thread})
    && t.cache.threads == s.cache.threads - {thread} && t.cache.settings == s.cache.settings - {thread}
    && StreamsWithout(s.streams, t.streams, thread) && t.sequence == s.sequence + 1
  }

  lemma {:induction false} RecoveryLeaves(s: Model, thread: Name)
    ensures KeptArchived(s, RecoverArchived(s, thread), thread) && GivenUp(s, RecoveryFailed(s, thread), thread)
  {
    hide DeliverAll;
  }

  /**
    A recovered snapshot is remembered as of the start of its recovery; a thread found archived
    only loses its controls; any other failure takes the thread away. Either is told in one event.
  */
  lemma {:induction false} RecoveryStores(w: System)
    requires Enabled(w, RecoverStore)
    ensures var (s, r, next) := (w.state, w.phase.recovery, Next(w, RecoverStore));
            && next.phase == w.phase.(recovery := Idle)
            && match r.verdict
               case Recovered(result, scope) => next.state == Remember(s, result, Some(r.started), scope)
               case GoneArchived => KeptArchived(s, next.state, r.thread)
               case Lost => GivenUp(s, next.state, r.thread)
  {
    hide Remember, Run, RecoverArchived, RecoveryFailed, KeptArchived, GivenUp;
    var op := StoreSections(w.phase.recovery)[0];
    assert Sections(w, RecoverStore) == [op];
    RunOne(w.state, op);
    RecoveryLeaves(w.state, w.phase.recovery.thread);
  }
}
