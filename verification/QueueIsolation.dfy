/**
  When a queue read is isolated. The read (QueueSnapshot) compares stamps of the shared state while
  the worker and the other threads keep changing it. Here its timeline is a run of the worker, and
  the stamps are those of the reducer: they tell of every notice exactly as long as the thread
  stays attached, which it does unless a resume that reserved its subscription is still pending.
*/
module QueueIsolation {
  import opened Wrappers
  import opened Reducer
  import opened ReducerRuns
  import opened ReducerGuarantees
  import opened QueueStamps
  import opened Worker
  import opened WorkerCalls
  import opened WorkerControls
  import opened WorkerRuns
  import Queue = QueueSnapshot

  // ---------------------------------------------------------------------------------------
  // Runs seen through the facts a read looks at.

  /** `events(t)` is what happens between the moments `t` and `t + 1`. */
  datatype Trace = Trace(system: nat -> System, events: nat -> seq<Event>)

  ghost predicate Evolves(x: Trace) {
    forall t: nat :: Unfolds(x.system(t), x.events(t)) && x.system(t + 1) == After(x.system(t), x.events(t))
  }

  /** A reader inside the lifecycle lock keeps the gateway from closing. */
  predicate Locked(e: Event) {
    !(e.Outside? && e.op.Disable?)
  }

  ghost predicate AllLocked(events: seq<Event>) {
    forall k :: 0 <= k < |events| ==> Locked(events[k])
  }

  predicate Reports(e: Event, id: Name) {
    e.Notify? && e.message == Message(Some(id), None, QueueChanged)
  }

  ghost predicate AnyReports(events: seq<Event>, id: Name) {
    exists k :: 0 <= k < |events| && Reports(events[k], id)
  }

  /** The read of thread `id` happens in this run, and the server's notices arrive as messages of it. */
  ghost predicate Observes(x: Trace, w: Queue.Timeline, s: Queue.Server, id: Name) {
    && Evolves(x)
    && (forall t: nat :: AllLocked(x.events(t)))
    && (forall t: nat :: w.view(t) == ViewOf(x.system(t).state, id))
    && (forall t: nat :: s.noticed(t + 1) != s.noticed(t) ==> AnyReports(x.events(t), id))
  }

  // ---------------------------------------------------------------------------------------
  // Staying attached.

  /** A pending call would give the thread's subscription back if it failed. */
  predicate ReservedFor(pending: map<nat, Pending>, id: Name) {
    exists wire :: wire in pending && pending[wire].reserved && pending[wire].call.thread == Some(id)
  }

  /** Attached, and not on the strength of a resume still under way. */
  predicate Firm(w: System, id: Name) {
    id in w.state.control.subscribed && !ReservedFor(w.books.calls.pending, id)
  }

  predicate Serving(phase: Phase) {
    phase.Up? || phase.Finished?
  }

  lemma {:induction false} FinalHolds(p: Pending, final: Result<Snapshot, Failure>, scope: Scope, id: Name)
    requires !(p.reserved && p.call.thread == Some(id))
    ensures Holds(FinalSections(p, final, scope), id)
  {
  }

  lemma {:induction false} SectionsHold(w: System, e: Event, id: Name)
    requires Enabled(w, e) && Locked(e) && Serving(w.phase) && Firm(w, id)
    ensures Holds(Sections(w, e), id)
  {
    hide Writes, Continues, Final, ReplyResult, FinalSections, Loses;
    if e.Receive? || e.Expire? || e.CloseOne? {
      var p := w.books.calls.pending[e.wire];
      forall final, scope ensures Holds(FinalSections(p, final, scope), id) {
        FinalHolds(p, final, scope, id);
      }
    }
  }

  lemma {:induction false} BooksFirm(w: System, e: Event, id: Name)
    requires Enabled(w, e) && Firm(w, id)
    ensures !ReservedFor(BooksAfter(w, e).calls.pending, id)
  {
    hide Writes, Continues, Final, ReplyResult, AllUncertain, PendingTickets, QueuedTickets;
  }

  lemma {:induction false} PhaseServing(w: System, e: Event)
    requires Enabled(w, e) && Serving(w.phase)
    ensures Loses(w, e) || Serving(PhaseAfter(w, e))
    ensures !e.Online? && !e.BootFails?
  {
    hide Writes, Continues;
  }

  // ---------------------------------------------------------------------------------------
  // What a read that began earlier can still see.

  /** Its connection is over, or a fence passed its watermark. */
  predicate Lapsed(s: Model, id: Name, epoch: nat, after: nat) {
    s.epoch > epoch || (s.epoch == epoch && !s.connection.Connected?) || Invalidated(s, id, after)
  }

  predicate Attending(w: System, id: Name, epoch: nat) {
    Serving(w.phase) && w.state.connection.Connected? && w.state.epoch == epoch && Firm(w, id)
  }

  /** The queue was marked since `b`; it must have been if a notice came. */
  predicate Marks(b: Model, s: Model, id: Name, noticed: bool) {
    || (QueueStamp(s, id).Some? && QueueStamp(s, id).value > b.sequence)
    || (!noticed && QueueStamp(s, id) == QueueStamp(b, id))
  }

  /** For a read with this epoch and watermark, looking since `b`: all is lost, or every notice shows. */
  ghost predicate Watched(b: Model, w: System, id: Name, epoch: nat, after: nat, noticed: bool) {
    && Guarded(w) && after <= b.sequence <= w.state.sequence
    && (Lapsed(w.state, id, epoch, after) || (Attending(w, id, epoch) && Marks(b, w.state, id, noticed)))
  }

  lemma {:induction false} RunLapses(s: Model, ops: seq<Op>, id: Name, epoch: nat, after: nat)
    requires Sound(s)
    ensures Lapsed(s, id, epoch, after) ==> Lapsed(Run(s, ops), id, epoch, after)
    ensures s.sequence <= Run(s, ops).sequence
    decreases |ops|
  {
    hide Apply, Sound, Invalidated;
    if ops != [] {
      var t := Apply(s, ops[0]);
      ApplyKeeps(s, ops[0]);
      ApplyLink(s, ops[0]);
      LineGrows(s, ops[0]);
      if Invalidated(s, id, after) {
        RunOne(s, ops[0]);
        InvalidForEver(s, [ops[0]], id, after);
      }
      RunLapses(t, ops[1..], id, epoch, after);
    }
  }

  lemma {:induction false} NextWatched(b: Model, w: System, e: Event, id: Name, epoch: nat, after: nat, noticed: bool)
    requires Watched(b, w, id, epoch, after, noticed) && Enabled(w, e) && Locked(e)
    ensures Watched(b, Next(w, e), id, epoch, after, noticed || Reports(e, id))
  {
    hide SystemOk, Sound, Covered, Quiet, Run, Sections, PhaseAfter, BooksAfter, Enabled, Invalidated, QueueStamp,
         ReservedFor, Loses;
    var t := Next(w, e);
    var ops := Sections(w, e);
    NextGuarded(w, e);
    RunLapses(w.state, ops, id, epoch, after);
    if !Lapsed(w.state, id, epoch, after) && !Lapsed(t.state, id, epoch, after) {
      SectionsHold(w, e, id);
      RunQueues(w.state, ops, id, after);
      BooksFirm(w, e, id);
      PhaseServing(w, e);
      NextLink(w, e);
      if Reports(e, id) {
        ReportSection(w, e, id);
      }
    }
  }

  lemma {:induction false} ReportSection(w: System, e: Event, id: Name)
    requires Enabled(w, e) && Reports(e, id)
    ensures Noticed(Sections(w, e), id)
  {
    assert QueueNotice(Sections(w, e)[0], id);
  }

  lemma {:induction false} AfterWatched(b: Model, w: System, events: seq<Event>, id: Name, epoch: nat, after: nat,
                                        noticed: bool)
    requires Watched(b, w, id, epoch, after, noticed) && Unfolds(w, events) && AllLocked(events)
    ensures Watched(b, After(w, events), id, epoch, after, noticed || AnyReports(events, id))
    decreases |events|
  {
    hide Watched, Enabled, Next, Reports, Locked;
    if events != [] {
      NextWatched(b, w, events[0], id, epoch, after, noticed);
      AfterWatched(b, Next(w, events[0]), events[1..], id, epoch, after, noticed || Reports(events[0], id));
      if AnyReports(events, id) && !Reports(events[0], id) {
        var k :| 0 < k < |events| && Reports(events[k], id);
        assert Reports(events[1..][k - 1], id);
      }
    }
  }

  lemma {:induction false} WatchesLess(b: Model, w: System, id: Name, epoch: nat, after: nat, noticed: bool, less: bool)
    requires Watched(b, w, id, epoch, after, noticed) && (less ==> noticed)
    ensures Watched(b, w, id, epoch, after, less)
  {
    hide Guarded, Lapsed, Attending;
  }

  lemma {:induction false} MomentsWatched(x: Trace, w: Queue.Timeline, s: Queue.Server, id: Name, t: nat, u: nat,
                                          epoch: nat, after: nat)
    requires Observes(x, w, s, id) && t <= u
    requires Watched(x.system(t).state, x.system(t), id, epoch, after, false)
    ensures Watched(x.system(t).state, x.system(u), id, epoch, after, s.noticed(u) != s.noticed(t))
    decreases u - t
  {
    hide Watched, AllLocked, AnyReports, Unfolds, After, ViewOf;
    if t < u {
      var before := s.noticed(u - 1) != s.noticed(t);
      MomentsWatched(x, w, s, id, t, u - 1, epoch, after);
      assert x.system(u - 1 + 1) == x.system(u) && s.noticed(u - 1 + 1) == s.noticed(u);
      AfterWatched(x.system(t).state, x.system(u - 1), x.events(u - 1), id, epoch, after, before);
      WatchesLess(x.system(t).state, x.system(u), id, epoch, after, before || AnyReports(x.events(u - 1), id),
                  s.noticed(u) != s.noticed(t));
    }
  }

  lemma {:induction false} MomentsStamped(x: Trace, id: Name, t: nat, u: nat)
    requires Evolves(x) && t <= u && Stamped(x.system(t).state, id)
    ensures Stamped(x.system(u).state, id)
    decreases u - t
  {
    hide Unfolds, After, AllSections, Run, Stamped;
    if t < u {
      MomentsStamped(x, id, t, u - 1);
      assert x.system(u - 1 + 1) == x.system(u);
      AfterRuns(x.system(u - 1), x.events(u - 1));
      RunStamped(x.system(u - 1).state, AllSections(x.system(u - 1), x.events(u - 1)), id);
    }
  }

  lemma {:induction false} UsableNotLapsed(s: Model, id: Name, epoch: nat, after: nat)
    requires Queue.Usable(ViewOf(s, id), epoch, after)
    ensures !Lapsed(s, id, epoch, after) && s.connection.Connected? && s.epoch == epoch
  {
  }

  // ---------------------------------------------------------------------------------------
  // Isolation.

  /** `current` accepts the thread now. */
  predicate Readable(s: Model, id: Name) {
    Queue.Readable(ViewOf(s, id))
  }

  lemma {:induction false} ReadableServing(w: System, id: Name)
    requires Guarded(w) && Readable(w.state, id)
    ensures Serving(w.phase) && w.state.connection.Connected? && !Lapsed(w.state, id, w.state.epoch, w.state.sequence)
  {
    hide BooksOk, Sound, Covered, Quiet, SameEpoch;
  }

  /** From a firm attachment on, the reducer's stamps tell of every notice. */
  lemma {:induction false} FirmTells(x: Trace, w: Queue.Timeline, s: Queue.Server, id: Name, start: nat, end: nat)
    requires Observes(x, w, s, id) && Guarded(x.system(start)) && Stamped(x.system(start).state, id)
    requires Readable(x.system(start).state, id) && Firm(x.system(start), id)
    ensures Queue.Telling(s, w, start, end)
  {
    hide Guarded, Unfolds, After, AllLocked, AnyReports, ViewOf, Firm, Stamped, Serving, Lapsed, Queue.Usable, QueueStamp;
    var b := x.system(start);
    var epoch, after := w.view(start).epoch, w.view(start).sequence;
    assert epoch == b.state.epoch && after == b.state.sequence by {
      ViewLine(b.state, id);
    }
    ReadableServing(b, id);
    forall t: nat, u: nat | start <= t <= u < end && Queue.Alike(w, t, u, epoch, after)
      ensures s.noticed(t) == s.noticed(u)
    {
      MomentsWatched(x, w, s, id, start, t, epoch, after);
      UsableNotLapsed(x.system(t).state, id, epoch, after);
      MomentsWatched(x, w, s, id, t, u, epoch, after);
      UsableNotLapsed(x.system(u).state, id, epoch, after);
      MomentsStamped(x, id, start, t);
      ViewLine(x.system(t).state, id);
      ViewLine(x.system(u).state, id);
      EqualMarks(x.system(t).state, x.system(u).state, id, s.noticed(u) != s.noticed(t));
    }
  }

  lemma {:induction false} EqualMarks(b: Model, s: Model, id: Name, noticed: bool)
    requires Stamped(b, id) && Marks(b, s, id, noticed) && QueueStamp(s, id) == QueueStamp(b, id)
    ensures !noticed
  {
  }

  lemma {:induction false} ObservedView(x: Trace, w: Queue.Timeline, s: Queue.Server, id: Name, t: nat)
    requires Observes(x, w, s, id)
    ensures w.view(t) == ViewOf(x.system(t).state, id)
  {
    hide AllLocked, AnyReports, ViewOf, Evolves;
  }

  /**
    A read begun on a firm attachment returns the complete queue of a single version, whatever
    every other client, the native server, the worker and the connection do meanwhile.
  */
  lemma {:induction false} FirmReadIsIsolated(x: Trace, w: Queue.Timeline, s: Queue.Server, id: Name, start: nat)
    requires Observes(x, w, s, id) && Queue.Notifies(s, w)
    requires Guarded(x.system(start)) && Stamped(x.system(start).state, id)
    requires Readable(x.system(start).state, id) ==> Firm(x.system(start), id)
    ensures var r := Queue.ReadOf(w, start, true);
            r.result.Ok? ==> r.now > 0 && r.result.value.entries == s.contents(s.noticed(r.now - 1))
  {
    hide Observes, Queue.Notifies, Queue.Telling, Guarded, Stamped, Firm, Queue.AttemptsFrom;
    ObservedView(x, w, s, id, start);
    if Readable(x.system(start).state, id) {
      FirmTells(x, w, s, id, start, Queue.ReadOf(w, start, true).now);
      Queue.ReadIsOneVersion(w, s, start, true);
    }
  }

  // ---------------------------------------------------------------------------------------
  // Without a firm attachment it is not.

  /** A refused resume gives the subscription back and leaves every fact `current` looks at as it was. */
  lemma {:induction false} RefusalInvisible(s: Model, p: Pending, failure: Failure, scope: Scope)
    requires p.reserved && p.call.thread.Some?
    ensures var t := Run(s, FinalSections(p, Err(failure), scope));
            && p.call.thread.value !in t.control.subscribed
            && ViewOf(t, p.call.thread.value) == ViewOf(s, p.call.thread.value)
  {
    hide Run, DropPending, DropItems;
    var id := p.call.thread.value;
    var ops := FinalSections(p, Err(failure), scope);
    if p.call.rpc.Resume? {
      assert ops == [Release(id), Finish(id)];
      RunTwo(s, Release(id), Finish(id));
    } else {
      assert ops == [Release(id)];
      RunOne(s, Release(id));
    }
  }

  /** The events of one moment, and a system in which they happen unseen by a reader of the thread. */
  lemma {:induction false} ChangeUnseen(w: System, id: Name) returns (events: seq<Event>)
    requires w.phase.Up? && !Firm(w, id)
    ensures Unfolds(w, events) && AllLocked(events) && AnyReports(events, id)
    ensures ViewOf(After(w, events).state, id) == ViewOf(w.state, id)
  {
    var notice := Notify(Message(Some(id), None, QueueChanged), Unrestricted);
    if id !in w.state.control.subscribed {
      events := [notice];
      NoticeUnseen(w, id);
      OneEventRun(w, notice);
    } else {
      var wire :| wire in w.books.calls.pending && w.books.calls.pending[wire].reserved
                  && w.books.calls.pending[wire].call.thread == Some(id);
      var refusal := Receive(wire, RpcError(false, false), 0, OutOfScope, true);
      events := [refusal, notice];
      RefusalUnseen(w, id, wire);
      NoticeUnseen(Next(w, refusal), id);
      TwoEventRun(w, refusal, notice);
      assert Reports(events[1], id);
    }
  }

  lemma {:induction false} NoticeUnseen(w: System, id: Name)
    requires w.phase.Up? && id !in w.state.control.subscribed
    ensures var e := Notify(Message(Some(id), None, QueueChanged), Unrestricted);
            Enabled(w, e) && Next(w, e).state == w.state
  {
    hide Apply, Run;
    var e := Notify(Message(Some(id), None, QueueChanged), Unrestricted);
    UnattachedUnmarked(w.state, e.message, e.scope);
    RunOne(w.state, Native(e.message, e.scope));
    assert Sections(w, e) == [Native(e.message, e.scope)];
  }

  lemma {:induction false} RefusalUnseen(w: System, id: Name, wire: nat)
    requires w.phase.Up? && wire in w.books.calls.pending
    requires w.books.calls.pending[wire].reserved && w.books.calls.pending[wire].call.thread == Some(id)
    ensures var e := Receive(wire, RpcError(false, false), 0, OutOfScope, true);
            && Enabled(w, e) && Next(w, e).phase.Up?
            && id !in Next(w, e).state.control.subscribed && ViewOf(Next(w, e).state, id) == ViewOf(w.state, id)
  {
    hide Apply, Run, ViewOf, FinalSections, Received;
    var e := Receive(wire, RpcError(false, false), 0, OutOfScope, true);
    var p := w.books.calls.pending[wire];
    var final := Final(w.state, p, ReplyResult(w.state, p, e.reply), 0);
    assert final.Err?;
    RefusalInvisible(w.state, p, final.error, OutOfScope);
    assert Sections(w, e) == FinalSections(p, final, OutOfScope);
  }

  /** `w` until the fifth moment, then what `events` make of it. */
  function Interrupted(w: System, after: System, events: seq<Event>): Trace {
    Trace((t: nat) => if t <= 4 then w else after, (t: nat) => if t == 4 then events else [])
  }

  /** From a readable thread without a firm attachment, a read can return a queue that never was. */
  lemma {:induction false} LooseReadMixes(w0: System, id: Name)
    returns (x: Trace, w: Queue.Timeline, s: Queue.Server)
    requires w0.phase.Up? && Readable(w0.state, id) && !Firm(w0, id)
    ensures x.system(0) == w0 && Observes(x, w, s, id) && Queue.Notifies(s, w)
    ensures var r := Queue.ReadOf(w, 0, true);
            r.result.Ok? && forall version: nat :: !Queue.OneVersion(s, r.result.value.entries, version)
  {
    hide ViewOf, Firm, Queue.Notifies, Queue.ReadOf, AnyReports, AllLocked;
    var events := ChangeUnseen(w0, id);
    var w1 := After(w0, events);
    x, w, s := Interrupted(w0, w1, events), Queue.Unchanging(ViewOf(w0.state, id)), Queue.CHANGING;
    InterruptedEvolves(w0, events);
    NothingHappens();
    ViewLine(w0.state, id);
    Queue.ChangingNotifies(ViewOf(w0.state, id));
    Queue.MixedRead(ViewOf(w0.state, id));
  }

  lemma {:induction false} NothingHappens()
    ensures AllLocked([])
  {
  }

  lemma {:induction false} InterruptedEvolves(w: System, events: seq<Event>)
    requires Unfolds(w, events)
    ensures Evolves(Interrupted(w, After(w, events), events))
  {
    hide Enabled, Next;
    forall v: System ensures Unfolds(v, []) && After(v, []) == v {
    }
  }

  // ---------------------------------------------------------------------------------------
  // Exactly when a read is isolated.

  /** Whatever happens from `w0` on, a read that begins there returns one version of the queue. */
  ghost predicate Isolated(w0: System, id: Name) {
    forall x: Trace, w: Queue.Timeline, s: Queue.Server ::
      x.system(0) == w0 && Observes(x, w, s, id) && Queue.Notifies(s, w) ==> ReadsOne(w, s)
  }

  ghost predicate ReadsOne(w: Queue.Timeline, s: Queue.Server) {
    var r := Queue.ReadOf(w, 0, true);
    r.result.Ok? ==> exists version: nat :: Queue.OneVersion(s, r.result.value.entries, version)
  }

  /**
    A read is isolated in every run and from every server that notifies its changes if and only if
    it begins on a firm attachment, or is refused at its first look.
  */
  lemma {:induction false} IsolatedExactlyWhenFirm(w0: System, id: Name)
    requires Guarded(w0) && Stamped(w0.state, id) && w0.phase.Up?
    ensures Isolated(w0, id) <==> (Readable(w0.state, id) ==> Firm(w0, id))
  {
    hide Guarded, Stamped, Firm, Readable, Observes, Queue.Notifies, Queue.ReadOf;
    if Readable(w0.state, id) && !Firm(w0, id) {
      var x, w, s := LooseReadMixes(w0, id);
      assert !ReadsOne(w, s);
    } else {
      forall x: Trace, w: Queue.Timeline, s: Queue.Server
        | x.system(0) == w0 && Observes(x, w, s, id) && Queue.Notifies(s, w)
        ensures ReadsOne(w, s)
      {
        FirmReadIsIsolated(x, w, s, id, 0);
        var r := Queue.ReadOf(w, 0, true);
        if r.result.Ok? {
          assert Queue.OneVersion(s, r.result.value.entries, s.noticed(r.now - 1));
        }
      }
    }
  }

  /** Every reachable state meets what the two results ask of the beginning of a read. */
  lemma {:induction false} ReachableStamped(namespace: Name, restricted: bool, events: seq<Event>, id: Name)
    requires Unfolds(Begun(namespace, restricted), events)
    ensures var w := After(Begun(namespace, restricted), events); Guarded(w) && Stamped(w.state, id)
  {
    hide Guarded, Unfolds, After, AllSections, Run;
    BegunGuarded(namespace, restricted);
    RunGuarded(Begun(namespace, restricted), events);
    AfterRuns(Begun(namespace, restricted), events);
    RunStamped(Begun(namespace, restricted).state, AllSections(Begun(namespace, restricted), events), id);
  }

  // ---------------------------------------------------------------------------------------
  // Two ways to get there.

  /** Connected, with nothing attached: `queue/cancel` reads the queue of a thread without opening it. */
  lemma {:induction false} UnopenedIsLoose(id: Name) returns (events: seq<Event>)
    ensures Unfolds(Begun(1, false), events)
    ensures var w := After(Begun(1, false), events); w.phase.Up? && Readable(w.state, id) && !Firm(w, id)
  {
    events := [Clear([]), Online];
    ComesOnline();
    TwoEventRun(Begun(1, false), Clear([]), Online);
  }

  const THREAD := Thread(5, Some(3), false, 0, [])
  const RESUMED := Replied(Snapshot(Some(THREAD), Settings(Some(3), "")), false)

  /** A resume answered in time attaches its thread, out of the archive and in scope. */
  lemma {:induction false} Reattached(s: Model, result: Snapshot, after: nat)
    requires !s.restricted && result.thread.Some? && !Invalidated(s, result.thread.value.id, after)
    ensures var id := result.thread.value.id;
            var t := Run(s, [Merge(result, Some(after), Unrestricted), Finish(id)]);
            && id in t.control.subscribed && SameLink(s, t) && t.sequence == s.sequence
            && ViewOf(t, id) == ViewOf(s, id).(scopeClosed := false, archived := false)
  {
    hide Run, Absorb, RetainPlans, DropPending, Invalidated;
    var id := result.thread.value.id;
    RunTwo(s, Merge(result, Some(after), Unrestricted), Finish(id));
    RetainQueues(Absorb(s, result, Some(after)), id, Some(after));
    RetainPrepares(Absorb(s, result, Some(after)), id, Some(after));
    AbsorbKeeps(s, result, after);
  }

  lemma {:induction false} AbsorbKeeps(s: Model, result: Snapshot, after: nat)
    requires result.thread.Some?
    ensures var t := Absorb(s, result, Some(after));
            t.control == s.control && t.stamps == s.stamps && t.fences == s.fences && SameLink(s, t) && Still(s, t)
  {
    hide MergedThread, RetainedLive, RetainedProvisional;
  }

  /** The second device's resume succeeds while the first device's is still pending. */
  lemma {:induction false} ResumeAnswered(w: System, wire: nat, result: Snapshot)
    requires w.phase.Up? && wire in w.books.calls.pending && !w.state.restricted && result.thread.Some?
    requires var p := w.books.calls.pending[wire];
             && p.call.rpc.Resume? && p.call.thread == Some(result.thread.value.id) && p.resume.None?
             && p.call.deadline > 0 && p.call.epoch == w.state.epoch && !Invalidated(w.state, result.thread.value.id, p.started)
    requires !result.thread.value.legacy
    ensures var (e, id) := (Receive(wire, Replied(result, false), 0, Unrestricted, true), result.thread.value.id);
            && Enabled(w, e)
            && var v := Next(w, e);
               && v.phase.Up? && v.books == Close(w.books, wire, Success(result))
               && id in v.state.control.subscribed
               && ViewOf(v.state, id) == ViewOf(w.state, id).(scopeClosed := false, archived := false)
  {
    hide Run, ViewOf, Invalidated;
    var e := Receive(wire, Replied(result, false), 0, Unrestricted, true);
    var p := w.books.calls.pending[wire];
    Reattached(w.state, result, p.started);
    assert Sections(w, e) == [Merge(result, Some(p.started), Unrestricted), Finish(result.thread.value.id)];
  }

  lemma {:induction false} ReservedView(s: Model, id: Name)
    ensures var t := BeginResume(Apply(s, Reserve(id)), id);
            id in t.control.subscribed && ViewOf(t, id) == ViewOf(s, id) && t.restricted == s.restricted
  {
    hide DropPending;
  }

  /** From a connected worker: two resumes of one thread are written, and the second is answered. */
  lemma {:induction false} RacingResumes(w0: System) returns (events: seq<Event>)
    requires w0.phase.Up? && !w0.stopping && w0.books == Begun(1, false).books
    requires w0.state == Connect(Initial(1, false), Connected)
    ensures Unfolds(w0, events)
    ensures var w := After(w0, events);
            && w.phase.Up? && 5 in w.state.control.subscribed && ViewOf(w.state, 5) == ViewOf(w0.state, 5)
            && w.books.calls.answers == map[2 := Success(RESUMED.result)]
            && 1 in w.books.calls.pending
            && w.books.calls.pending[1] == Pending(ResumeCall(1), true, w0.state.sequence, None)
  {
    hide Enabled, Next, ViewOf, BeginResume, Apply, Connect;
    var first, second := Invoke(ResumeCall(1)), Invoke(ResumeCall(2));
    ConnectedView();
    Resumes(w0, ResumeCall(1), 5);
    TwoEventRun(w0, Send(first), Serve(0, true));
    ReservedView(w0.state, 5);
    var w1 := Next(Next(w0, Send(first)), Serve(0, true));
    ViewLine(w0.state, 5);
    ViewLine(w1.state, 5);
    Resumes(w1, ResumeCall(2), 5);
    TwoEventRun(w1, Send(second), Serve(0, true));
    ReservedView(w1.state, 5);
    var w2 := Next(Next(w1, Send(second)), Serve(0, true));
    ViewLine(w2.state, 5);
    UsableNotLapsed(w2.state, 5, 1, 1);
    ResumeAnswered(w2, 2, RESUMED.result);
    OneEventRun(w2, Receive(2, RESUMED, 0, Unrestricted, true));
    RunsJoin(w1, [Send(second), Serve(0, true)], [Receive(2, RESUMED, 0, Unrestricted, true)]);
    var rest := [Send(second), Serve(0, true)] + [Receive(2, RESUMED, 0, Unrestricted, true)];
    events := [Send(first), Serve(0, true)] + rest;
    RunsJoin(w0, [Send(first), Serve(0, true)], rest);
  }

  lemma {:induction false} ConnectedView()
    ensures var s := Connect(Initial(1, false), Connected);
            && s.epoch == 1 && s.sequence == 1 && !s.restricted && 5 !in s.control.subscribed
            && ViewOf(s, 5) == Queue.View(true, 1, 1, false, false, 0, 0, None)
  {
  }

  /**
    Two devices open one thread. The first reserves the subscription; the second's resume succeeds
    and its `open` goes on to read the queue, while the first can still be refused.
  */
  lemma {:induction false} RacingResumesAreLoose() returns (events: seq<Event>)
    ensures Unfolds(Begun(1, false), events)
    ensures var w := After(Begun(1, false), events);
            && w.phase.Up? && Readable(w.state, 5) && !Firm(w, 5)
            && 5 in w.state.control.subscribed && w.books.calls.answers == map[2 := Success(RESUMED.result)]
  {
    hide Enabled, Next, ViewOf, Connect;
    ComesOnline();
    ConnectedView();
    TwoEventRun(Begun(1, false), Clear([]), Online);
    var race := RacingResumes(After(Begun(1, false), [Clear([]), Online]));
    events := [Clear([]), Online] + race;
    RunsJoin(Begun(1, false), [Clear([]), Online], race);
    ViewLine(After(Begun(1, false), events).state, 5);
  }
}
