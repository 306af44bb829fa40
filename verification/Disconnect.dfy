/**
  The two-phase disconnect (claude-monitor-codex/src/lib.rs, `disconnect_inner` and `route`).

  `readers` are the guarded requests inside the lifecycle lock. A writer section runs only when
  there is none and holds the state mutex throughout, so it is one step. Before, between and after
  the two sections anything may happen: requests come and go, every other section of the shared
  state runs, other threads disconnect or close. `activity` is taken as unbounded. `admitted` and
  the history of a system are there so that what happened can be stated.
*/
module SafeDisconnect {
  import opened Wrappers
  import opened Reducer
  import opened ReducerRuns
  import opened ReducerGuarantees
  import opened QueueStamps
  import Queue = QueueSnapshot

  datatype Gateway = Gateway(
    disconnected: bool, stopping: bool, readers: set<Name>, activity: nat, state: Model, admitted: seq<Name>)

  /** What the first section remembers. */
  datatype Attempt = Attempt(force: bool, owned: set<Name>, epoch: nat, sequence: nat, activity: nat)

  datatype Outcome = Busy | AlreadyDone | Transitioned

  /** The status code of an active thread. */
  const ACTIVE: Name := 1

  predicate Active(t: Thread) {
    t.status == ACTIVE || AnyOpen(t.turns)
  }

  /** `has_active_work`: a resume, a request, or a thread or turn shown as active. */
  predicate ActiveWork(s: Model) {
    s.control.resumes != map[] || s.control.pending != map[]
    || exists id :: id in s.cache.threads && Active(s.cache.threads[id])
  }

  /** Both sections refuse the same situations. */
  predicate Refuses(s: Model, force: bool) {
    || (ActiveWork(s) && (!force || s.connection.Connected?))
    || (!force && !s.connection.Connected? && s.cache.threads != map[])
  }

  /** A request is admitted only while active, and counts before its handler runs. */
  function AdmitOf(g: Gateway, request: Name): Gateway {
    if g.stopping || g.disconnected then g
    else g.(readers := g.readers + {request}, activity := g.activity + 1, admitted := g.admitted + [request])
  }

  function Deactivated(g: Gateway): Gateway {
    g.(disconnected := true, state := Deactivate(g.state))
  }

  function CheckOf(g: Gateway, force: bool): Result<Attempt, Outcome> {
    if g.readers != {} then Err(Busy)
    else if g.disconnected then Err(AlreadyDone)
    else if Refuses(g.state, force) then Err(Busy)
    else Ok(Attempt(force, g.state.cache.threads.Keys - g.state.control.archived, g.state.epoch, g.state.sequence,
                    g.activity))
  }

  function CommitOf(g: Gateway, a: Attempt): Outcome {
    if g.readers != {} then Busy
    else if g.disconnected then AlreadyDone
    else if g.activity != a.activity || g.state.epoch != a.epoch || g.state.sequence != a.sequence
            || Refuses(g.state, a.force) then Busy
    else Transitioned
  }

  // ---------------------------------------------------------------------------------------
  // What the two sections look for, written out.

  /** No resume, no request, no active thread and no turn in progress. */
  ghost predicate Quiescent(s: Model) {
    && s.control.resumes == map[] && s.control.pending == map[]
    && (forall id :: id in s.cache.threads ==> s.cache.threads[id].status != ACTIVE)
    && (forall id, k :: id in s.cache.threads && 0 <= k < |s.cache.threads[id].turns| ==>
          s.cache.threads[id].turns[k].status != InProgress)
  }

  /**
    Nobody is inside and nobody disconnected. A forced disconnect wants a connected gateway
    quiescent; an unforced one wants it quiescent, and connected unless no thread is cached.
  */
  ghost predicate Clear(g: Gateway, force: bool) {
    && g.readers == {} && !g.disconnected
    && (!force || g.state.connection.Connected? ==> Quiescent(g.state))
    && (!force && !g.state.connection.Connected? ==> g.state.cache.threads == map[])
  }

  /** The cached threads that are not archived are the ones a disconnect has to ask about. */
  ghost predicate Owns(s: Model, id: Name) {
    id in s.cache.threads && id !in s.control.archived
  }

  /** The first section goes on exactly when the gateway is clear, and remembers what it saw. */
  lemma {:induction false} CheckExactlyWhen(g: Gateway, force: bool)
    ensures CheckOf(g, force).Ok? <==> Clear(g, force)
    ensures CheckOf(g, force) == Err(AlreadyDone) <==> g.disconnected && g.readers == {}
    ensures CheckOf(g, force).Ok? ==>
              var a := CheckOf(g, force).value;
              && a.force == force && a.activity == g.activity
              && a.epoch == g.state.epoch && a.sequence == g.state.sequence
              && forall id :: id in a.owned <==> Owns(g.state, id)
  {
    if id :| id in g.state.cache.threads && Active(g.state.cache.threads[id]) {
      assert !Quiescent(g.state);
    }
  }

  lemma {:induction false} RefusesUnlessClear(g: Gateway, force: bool)
    requires g.readers == {} && !g.disconnected
    ensures Refuses(g.state, force) <==> !Clear(g, force)
  {
    CheckExactlyWhen(g, force);
  }

  // ---------------------------------------------------------------------------------------
  // Everyone else.

  /** `Decided` is a disconnect making its transition. */
  datatype Event =
    | Admit(request: Name)
    | Leave(request: Name)
    | Section(op: Op)
    | CloseBegin
    | CloseEnd
    | Decided

  /** Closing the shared state is a writer section of its own; a close takes it when nobody is inside. */
  predicate Possible(g: Gateway, e: Event) {
    match e
    case Section(op) => !op.Disable?
    case CloseEnd => g.stopping && g.readers == {}
    case Decided => g.readers == {}
    case _ => true
  }

  /** An event that is not possible does not happen. */
  function Happen(g: Gateway, e: Event): Gateway {
    if !Possible(g, e) then g
    else
      match e
      case Admit(request) => AdmitOf(g, request)
      case Leave(request) => g.(readers := g.readers - {request})
      case Section(op) => g.(state := Apply(g.state, op))
      case CloseBegin => g.(stopping := true)
      case CloseEnd => Deactivated(g)
      case Decided => Deactivated(g)
  }

  function After(g: Gateway, events: seq<Event>): Gateway
    decreases |events|
  {
    if events == [] then g else After(Happen(g, events[0]), events[1..])
  }

  // ---------------------------------------------------------------------------------------
  // What no event undoes, and what a silent one leaves alone.

  /** Events, admissions and the disconnect are for good. */
  predicate Advances(g: Gateway, h: Gateway) {
    && g.state.sequence <= h.state.sequence && g.admitted <= h.admitted
    && (g.activity == |g.admitted| ==> h.activity == |h.admitted|)
    && (g.disconnected ==> h.disconnected && h.admitted == g.admitted)
  }

  /** No event was emitted and nobody was admitted; so the connection is the same. */
  predicate Silent(g: Gateway, h: Gateway) {
    h.state.sequence == g.state.sequence && h.admitted == g.admitted && SameLink(g.state, h.state)
    && h.disconnected == g.disconnected
  }

  lemma {:induction false} HappenAdvances(g: Gateway, e: Event)
    ensures Advances(g, Happen(g, e))
  {
    hide Apply, DeliverAll, DetachAll;
    if e.Section? {
      LineGrows(g.state, e.op);
    }
  }

  /** Each section emits at most one event, and each change of connection emits. */
  lemma {:induction false} HappenSilent(g: Gateway, e: Event)
    requires Happen(g, e).state.sequence == g.state.sequence && Happen(g, e).admitted == g.admitted
    ensures Silent(g, Happen(g, e))
  {
    hide Reduce, Remember, RememberArchived, BeginResume, FinishResume, ReleaseReservation,
         RecoverArchived, RecoveryFailed, StableThreads, DeliverAll, DetachAll, Emitted, Keeps;
    if e.Section? && !e.op.Disable? && !e.op.Join? && !e.op.Take? && !e.op.Leave? {
      OneEvent(g.state, e.op);
      ApplyLink(g.state, e.op);
    }
  }

  // ---------------------------------------------------------------------------------------
  // Any number of threads disconnecting at once.

  /** `thread/read` as answered. */
  datatype ThreadReply = ThreadReply(id: Name, status: Name)

  /**
    How a thread was looked at: when it was asked about and what came back, and the read of its
    queue, whose look `t` saw the shared state of moment `looks(t)`.
  */
  datatype Evidence = Evidence(asked: nat, reply: Option<ThreadReply>, timeline: Queue.Timeline, looks: nat -> nat)

  /** An attempt under way since moment `since`. */
  datatype Caller = Caller(attempt: Attempt, since: nat, confirmed: map<Name, Evidence>)

  /** The transition made at moment `at`. */
  datatype Transition = Transition(caller: Caller, at: nat)

  datatype Moment = Moment(before: Gateway, event: Event)

  datatype System = System(
    gateway: Gateway, history: seq<Moment>, callers: map<Name, Caller>, transitions: seq<Transition>)

  datatype Step =
    | Other(event: Event)
    | Check(pid: Name, force: bool)
    | Confirm(pid: Name, thread: Name, evidence: Evidence)
    | Commit(pid: Name)

  /** The gateway at moment `j`; the last moment is now. */
  function At(s: System, j: nat): Gateway
    requires j <= |s.history|
  {
    if j == |s.history| then s.gateway else s.history[j].before
  }

  function Log(s: System, e: Event): System {
    s.(gateway := Happen(s.gateway, e), history := s.history + [Moment(s.gateway, e)])
  }

  /** Everything the evidence tells was seen from `since` on and not after `end`. */
  ghost predicate Within(s: System, since: nat, end: nat, thread: Name, v: Evidence) {
    && since <= v.asked <= end <= |s.history|
    && (forall t: nat :: t < Queue.ReadOf(v.timeline, 0, true).now ==>
          && v.asked <= v.looks(t) <= end
          && v.timeline.view(t) == ViewOf(At(s, v.looks(t)).state, thread))
    && (forall t: nat, u: nat :: t <= u < Queue.ReadOf(v.timeline, 0, true).now ==> v.looks(t) <= v.looks(u))
  }

  /** Connected, not active, and with an empty queue. */
  ghost predicate FoundIdle(s: System, thread: Name, v: Evidence)
    requires v.asked <= |s.history|
  {
    var r := Queue.ReadOf(v.timeline, 0, true).result;
    && At(s, v.asked).state.connection.Connected?
    && v.reply.Some? && v.reply.value.id == thread && v.reply.value.status != ACTIVE
    && r.Ok? && r.value.entries == []
  }

  ghost predicate Ready(s: System, step: Step) {
    match step
    case Other(_) => true
    case Check(pid, _) => pid !in s.callers
    case Confirm(pid, thread, evidence) =>
      && pid in s.callers && !s.callers[pid].attempt.force && thread in s.callers[pid].attempt.owned
      && Within(s, s.callers[pid].since, |s.history|, thread, evidence)
    // Every owned thread is confirmed before the second section begins.
    case Commit(pid) =>
      && pid in s.callers
      && (s.callers[pid].attempt.force || s.callers[pid].attempt.owned == s.callers[pid].confirmed.Keys)
  }

  ghost function Perform(s: System, step: Step): System
    requires Ready(s, step)
  {
    match step
    case Other(event) => Log(s, event)
    case Check(pid, force) =>
      (match CheckOf(s.gateway, force)
       case Err(_) => s
       case Ok(a) => s.(callers := s.callers[pid := Caller(a, |s.history|, map[])]))
    case Confirm(pid, thread, evidence) =>
      var c := s.callers[pid];
      if FoundIdle(s, thread, evidence)
      then s.(callers := s.callers[pid := c.(confirmed := c.confirmed[thread := evidence])])
      else s.(callers := s.callers - {pid})
    case Commit(pid) =>
      var rest := s.(callers := s.callers - {pid});
      if CommitOf(s.gateway, s.callers[pid].attempt) != Transitioned then rest
      else Log(rest, Decided).(transitions := s.transitions + [Transition(s.callers[pid], |s.history|)])
  }

  ghost predicate Performs(s: System, steps: seq<Step>)
    decreases |steps|
  {
    steps == [] || (Ready(s, steps[0]) && Performs(Perform(s, steps[0]), steps[1..]))
  }

  ghost function Performed(s: System, steps: seq<Step>): System
    requires Performs(s, steps)
    decreases |steps|
  {
    if steps == [] then s else Performed(Perform(s, steps[0]), steps[1..])
  }

  // ---------------------------------------------------------------------------------------
  // Histories.

  /** Moment `j + 1` is what the event of moment `j` made of it. */
  ghost predicate Follows(s: System, j: nat)
    requires j < |s.history|
  {
    At(s, j + 1) == Happen(At(s, j), s.history[j].event)
  }

  ghost predicate Logged(s: System) {
    At(s, 0).activity == |At(s, 0).admitted| && forall j :: 0 <= j < |s.history| ==> Follows(s, j)
  }

  /** `u` has a longer history than `s`. */
  ghost predicate Extends(s: System, u: System) {
    && |s.history| <= |u.history|
    && (forall j :: 0 <= j <= |s.history| ==> At(u, j) == At(s, j))
    && (forall j :: 0 <= j < |s.history| ==> u.history[j] == s.history[j])
  }

  /** No event was emitted and nobody admitted from moment `i` to moment `j`. */
  ghost predicate Calm(s: System, i: nat, j: nat) {
    j <= |s.history| && forall k :: i <= k < j ==> SilentAt(s, k)
  }

  ghost predicate SilentAt(s: System, k: nat)
    requires k < |s.history|
  {
    Silent(At(s, k), At(s, k + 1))
  }

  lemma {:induction false} AdvancesTwice(g: Gateway, h: Gateway, k: Gateway)
    requires Advances(g, h) && Advances(h, k)
    ensures Advances(g, k)
  {
  }

  lemma {:induction false} HistoryAdvances(s: System, i: nat, j: nat)
    requires Logged(s) && i <= j <= |s.history|
    ensures Advances(At(s, i), At(s, j))
    decreases j - i
  {
    hide Happen, Advances;
    if i < j {
      HistoryAdvances(s, i, j - 1);
      HappenAdvances(At(s, j - 1), s.history[j - 1].event);
      assert Follows(s, j - 1);
      AdvancesTwice(At(s, i), At(s, j - 1), At(s, j));
    } else {
      assert Advances(At(s, i), At(s, i)) by {
        StaysPut(At(s, i));
      }
    }
  }

  lemma {:induction false} StaysPut(g: Gateway)
    ensures Advances(g, g)
  {
  }

  /** Equal ends, and nothing ever goes back: so nothing happened in between. */
  lemma {:induction false} CalmBetween(s: System, i: nat, j: nat)
    requires Logged(s) && i <= j <= |s.history|
    requires At(s, i).state.sequence == At(s, j).state.sequence && At(s, i).activity == At(s, j).activity
    ensures Calm(s, i, j) && At(s, i).admitted == At(s, j).admitted
  {
    hide Happen, Silent;
    HistoryAdvances(s, 0, i);
    HistoryAdvances(s, i, j);
    forall k | i <= k < j ensures SilentAt(s, k) {
      HistoryAdvances(s, i, k);
      HistoryAdvances(s, k, k + 1);
      HistoryAdvances(s, k + 1, j);
      assert Follows(s, k);
      HappenSilent(At(s, k), s.history[k].event);
    }
  }

  // ---------------------------------------------------------------------------------------
  // Safety.

  ghost predicate AllConfirmed(s: System, c: Caller, end: nat) {
    forall thread :: thread in c.confirmed ==> Shown(s, c.since, end, thread, c.confirmed[thread])
  }

  ghost predicate Shown(s: System, since: nat, end: nat, thread: Name, v: Evidence) {
    Within(s, since, end, thread, v) && FoundIdle(s, thread, v)
  }

  ghost predicate CallerOk(s: System, c: Caller) {
    && c.since <= |s.history| && CheckOf(At(s, c.since), c.attempt.force) == Ok(c.attempt)
    && c.confirmed.Keys <= c.attempt.owned && AllConfirmed(s, c, |s.history|)
  }

  /**
    What a transition promises. The gateway was clear at both sections; nobody was admitted and no
    event was emitted in between; unless forced, every cached unarchived thread of the first
    section was found idle with an empty queue since; and nobody was admitted afterwards.
  */
  ghost predicate Safe(s: System, t: Transition) {
    var c := t.caller;
    && c.since <= t.at < |s.history| && s.history[t.at].event.Decided?
    && Clear(At(s, c.since), c.attempt.force) && Clear(At(s, t.at), c.attempt.force)
    && Calm(s, c.since, t.at)
    && (!c.attempt.force ==> forall id :: Owns(At(s, c.since).state, id) ==> id in c.confirmed)
    && (!c.attempt.force ==> AllConfirmed(s, c, t.at))
    && s.gateway.disconnected && s.gateway.admitted == At(s, c.since).admitted
  }

  ghost predicate Inv(s: System) {
    && Logged(s)
    && (forall pid :: pid in s.callers ==> CallerOk(s, s.callers[pid]))
    && (forall k :: 0 <= k < |s.transitions| ==> Safe(s, s.transitions[k]))
    && |s.transitions| <= 1
  }

  /** Nothing has been done yet. */
  function Fresh(g: Gateway): System {
    System(g, [], map[], [])
  }

  lemma {:induction false} FreshOk(g: Gateway)
    requires g.activity == |g.admitted|
    ensures Inv(Fresh(g))
  {
  }

  lemma {:induction false} LogExtends(s: System, e: Event)
    requires Logged(s)
    ensures Extends(s, Log(s, e)) && Logged(Log(s, e))
  {
    hide Happen;
    var u := Log(s, e);
    forall j | 0 <= j < |u.history| ensures Follows(u, j) {
      if j < |s.history| {
        assert Follows(s, j);
      }
    }
  }

  lemma {:induction false} EvidenceExtends(s: System, u: System, since: nat, end: nat, later: nat, thread: Name,
                                           v: Evidence)
    requires Extends(s, u) && Shown(s, since, end, thread, v) && end <= later <= |u.history|
    ensures Shown(u, since, later, thread, v)
  {
    hide ViewOf, At, Queue.ReadOf;
  }

  lemma {:induction false} ConfirmedExtends(s: System, u: System, c: Caller, end: nat, later: nat)
    requires Extends(s, u) && AllConfirmed(s, c, end) && end <= later <= |u.history|
    ensures AllConfirmed(u, c, later)
  {
    hide Shown, Extends;
    forall thread | thread in c.confirmed ensures Shown(u, c.since, later, thread, c.confirmed[thread]) {
      EvidenceExtends(s, u, c.since, end, later, thread, c.confirmed[thread]);
    }
  }

  lemma {:induction false} CallerExtends(s: System, u: System, c: Caller)
    requires Extends(s, u) && CallerOk(s, c)
    ensures CallerOk(u, c)
  {
    hide CheckOf, AllConfirmed;
    ConfirmedExtends(s, u, c, |s.history|, |u.history|);
  }

  lemma {:induction false} SafeExtends(s: System, u: System, t: Transition)
    requires Extends(s, u) && Safe(s, t) && Advances(s.gateway, u.gateway)
    ensures Safe(u, t)
  {
    hide Clear, Owns, AllConfirmed, Calm;
    CalmExtends(s, u, t.caller.since, t.at);
    if !t.caller.attempt.force {
      ConfirmedExtends(s, u, t.caller, t.at, t.at);
    }
  }

  lemma {:induction false} CalmExtends(s: System, u: System, i: nat, j: nat)
    requires Extends(s, u) && Calm(s, i, j)
    ensures Calm(u, i, j)
  {
    hide Silent, At;
    forall k | i <= k < j ensures SilentAt(u, k) {
      assert SilentAt(s, k);
    }
  }

  /** The second section's checks, compared with what the first saw. */
  lemma {:induction false} ChecksMeet(s: System, c: Caller)
    requires Logged(s) && CallerOk(s, c)
    ensures CommitOf(s.gateway, c.attempt).Transitioned?
            <==> && !s.gateway.disconnected && s.gateway.readers == {} && !Refuses(s.gateway.state, c.attempt.force)
                 && Calm(s, c.since, |s.history|)
    ensures Calm(s, c.since, |s.history|) ==> s.gateway.admitted == At(s, c.since).admitted
  {
    hide Refuses, AllConfirmed, Happen;
    HistoryAdvances(s, 0, c.since);
    HistoryAdvances(s, c.since, |s.history|);
    if Calm(s, c.since, |s.history|) {
      CalmEnds(s, c.since, |s.history|);
    }
    if s.gateway.activity == c.attempt.activity && s.gateway.state.sequence == c.attempt.sequence {
      CalmBetween(s, c.since, |s.history|);
      CalmEnds(s, c.since, |s.history|);
    }
  }

  /** A calm stretch ends as it began. */
  lemma {:induction false} CalmEnds(s: System, i: nat, j: nat)
    requires i <= j && Calm(s, i, j)
    ensures Silent(At(s, i), At(s, j))
    decreases j - i
  {
    hide At;
    if i < j {
      CalmEnds(s, i, j - 1);
      assert SilentAt(s, j - 1);
    }
  }

  lemma {:induction false} CommitSafe(s: System, pid: Name)
    requires Inv(s) && Ready(s, Commit(pid)) && CommitOf(s.gateway, s.callers[pid].attempt).Transitioned?
    ensures var u := Perform(s, Commit(pid));
            s.transitions == [] && Safe(u, Transition(s.callers[pid], |s.history|))
  {
    hide Deactivate, AllConfirmed, CommitOf, CheckOf, Calm, Logged, Extends, Clear, Owns;
    var c, u := s.callers[pid], Perform(s, Commit(pid));
    StepExtends(s, Commit(pid));
    assert CallerOk(s, c);
    ChecksMeet(s, c);
    CheckExactlyWhen(At(s, c.since), c.attempt.force);
    RefusesUnlessClear(s.gateway, c.attempt.force);
    CalmExtends(s, u, c.since, |s.history|);
    if !c.attempt.force {
      ConfirmedExtends(s, u, c, |s.history|, |s.history|);
    }
    SameMoment(s, u, c.since);
    SameMoment(s, u, |s.history|);
    if s.transitions != [] {
      InvClosed(s);
    }
  }

  lemma {:induction false} InvClosed(s: System)
    requires Inv(s) && s.transitions != []
    ensures s.gateway.disconnected
  {
    hide Logged, CallerOk;
    assert Safe(s, s.transitions[0]);
  }

  lemma {:induction false} SameMoment(s: System, u: System, j: nat)
    requires Extends(s, u) && j <= |s.history|
    ensures At(u, j) == At(s, j)
  {
    hide At;
  }

  lemma {:induction false} SameHistory(s: System, u: System)
    requires Logged(s) && u.gateway == s.gateway && u.history == s.history
    ensures Logged(u) && Extends(s, u)
  {
    hide Happen;
    forall j | 0 <= j < |u.history| ensures Follows(u, j) {
      assert Follows(s, j);
    }
  }

  lemma {:induction false} StepExtends(s: System, step: Step)
    requires Inv(s) && Ready(s, step)
    ensures var u := Perform(s, step); Extends(s, u) && Logged(u) && Advances(s.gateway, u.gateway)
  {
    hide Happen, Advances, FoundIdle, CheckOf, CommitOf, CallerOk, Safe;
    StaysPut(s.gateway);
    match step
    case Other(event) =>
      LogExtends(s, event);
      HappenAdvances(s.gateway, event);
    case Commit(pid) =>
      var rest := s.(callers := s.callers - {pid});
      SameHistory(s, rest);
      LogExtends(rest, Decided);
      if CommitOf(s.gateway, s.callers[pid].attempt).Transitioned? {
        SameHistory(Log(rest, Decided), Perform(s, step));
      }
      HappenAdvances(s.gateway, Decided);
    case _ =>
      SameHistory(s, Perform(s, step));
  }

  lemma {:induction false} StepKeepsInv(s: System, step: Step)
    requires Inv(s) && Ready(s, step)
    ensures Inv(Perform(s, step))
  {
    hide CallerOk, Safe, Extends, Logged, Advances, CommitOf;
    var u := Perform(s, step);
    StepExtends(s, step);
    forall pid | pid in u.callers ensures CallerOk(u, u.callers[pid]) {
      if pid in s.callers {
        CallerExtends(s, u, s.callers[pid]);
      }
      if step.Confirm? && step.pid == pid {
        ConfirmKeeps(s, step);
      } else if step.Check? && step.pid == pid {
        CheckKeeps(s, step);
      }
    }
    forall k | 0 <= k < |s.transitions| ensures Safe(u, s.transitions[k]) {
      SafeExtends(s, u, s.transitions[k]);
    }
    if step.Commit? && CommitOf(s.gateway, s.callers[step.pid].attempt).Transitioned? {
      CommitSafe(s, step.pid);
    }
  }

  lemma {:induction false} ConfirmKeeps(s: System, step: Step)
    requires Inv(s) && Ready(s, step) && step.Confirm? && FoundIdle(s, step.thread, step.evidence)
    ensures CallerOk(Perform(s, step), Perform(s, step).callers[step.pid])
  {
    hide Safe, Within, FoundIdle, CheckOf, Logged;
    var u, c := Perform(s, step), s.callers[step.pid];
    assert CallerOk(s, c);
    assert Extends(s, u);
    ConfirmedExtends(s, u, c, |s.history|, |s.history|);
    assert Shown(s, c.since, |s.history|, step.thread, step.evidence);
    EvidenceExtends(s, u, c.since, |s.history|, |s.history|, step.thread, step.evidence);
  }

  lemma {:induction false} CheckKeeps(s: System, step: Step)
    requires Ready(s, step) && step.Check? && CheckOf(s.gateway, step.force).Ok?
    ensures CallerOk(Perform(s, step), Perform(s, step).callers[step.pid])
  {
  }

  /** In every run, every transition made is safe, and stays so; there is at most one. */
  lemma {:induction false} DisconnectIsSafe(s: System, steps: seq<Step>)
    requires Inv(s) && Performs(s, steps)
    ensures Inv(Performed(s, steps))
    ensures forall t :: t in Performed(s, steps).transitions ==> Safe(Performed(s, steps), t)
    decreases |steps|
  {
    hide Inv, Ready, Perform, Safe;
    if steps != [] {
      StepKeepsInv(s, steps[0]);
      DisconnectIsSafe(Perform(s, steps[0]), steps[1..]);
    } else {
      InvSafe(s);
    }
  }

  /**
    In every run, whatever a disconnect that was not forced had to ask about was asked: each thread
    cached and unarchived at its first section was answered idle, while connected, with its own id,
    and the read of its queue came back empty, all between its two sections.
  */
  lemma {:induction false} EveryThreadWasAsked(s: System, steps: seq<Step>, t: Transition, id: Name)
    requires Inv(s) && Performs(s, steps) && t in Performed(s, steps).transitions && !t.caller.attempt.force
    requires t.caller.since <= |Performed(s, steps).history|
    requires var first := At(Performed(s, steps), t.caller.since).state;
             id in first.cache.threads && id !in first.control.archived
    ensures t.caller.since <= t.at < |Performed(s, steps).history| && id in t.caller.confirmed
    ensures var (u, v) := (Performed(s, steps), t.caller.confirmed[id]);
            && t.caller.since <= v.asked <= t.at && At(u, v.asked).state.connection.Connected?
            && v.reply.Some? && v.reply.value.id == id && v.reply.value.status != ACTIVE
            && var read := Queue.ReadOf(v.timeline, 0, true);
               && read.result.Ok? && read.result.value.entries == []
               && forall k: nat :: k < read.now ==>
                    && v.asked <= v.looks(k) <= t.at
                    && v.timeline.view(k) == ViewOf(At(u, v.looks(k)).state, id)
  {
    hide Inv, Performs, Performed, Queue.ReadOf, ViewOf, At, Calm, Clear;
    DisconnectIsSafe(s, steps);
    var u := Performed(s, steps);
    assert Safe(u, t);
    assert Owns(At(u, t.caller.since).state, id);
    assert Shown(u, t.caller.since, t.at, id, t.caller.confirmed[id]);
  }

  lemma {:induction false} InvSafe(s: System)
    requires Inv(s)
    ensures forall t :: t in s.transitions ==> Safe(s, t)
  {
    hide Safe, Logged, CallerOk;
  }

  /** Once disconnected, by whatever path, no request is ever admitted again. */
  lemma {:induction false} DisconnectedForEver(s: System, steps: seq<Step>)
    requires s.gateway.disconnected && Performs(s, steps)
    ensures Performed(s, steps).gateway.disconnected && Performed(s, steps).gateway.admitted == s.gateway.admitted
    decreases |steps|
  {
    hide Happen, FoundIdle, CheckOf, CommitOf;
    if steps != [] {
      if steps[0].Other? {
        HappenAdvances(s.gateway, steps[0].event);
      }
      HappenAdvances(s.gateway, Decided);
      DisconnectedForEver(Perform(s, steps[0]), steps[1..]);
    }
  }

  /** The second section transitions exactly when nothing happened since the first. */
  lemma {:induction false} CommitExactlyWhen(s: System, pid: Name)
    requires Inv(s) && Ready(s, Commit(pid)) && !s.gateway.disconnected
    ensures var (c, g) := (s.callers[pid], s.gateway);
            Perform(s, Commit(pid)).gateway.disconnected
            <==> Clear(g, c.attempt.force) && Calm(s, c.since, |s.history|)
    ensures !Perform(s, Commit(pid)).gateway.disconnected ==> Perform(s, Commit(pid)).gateway == s.gateway
  {
    hide Refuses, Safe, CallerOk, Logged, Calm, CommitOf, Deactivate, CheckOf;
    ChecksMeet(s, s.callers[pid]);
    if s.gateway.readers == {} {
      RefusesUnlessClear(s.gateway, s.callers[pid].attempt.force);
    }
  }

  // ---------------------------------------------------------------------------------------
  // What the empty queues of a transition are worth.

  predicate ReportsQueue(e: Event, id: Name) {
    e.Section? && QueueNotice(e.op, id)
  }

  /** A silent section neither detaches a thread nor loses a report of its queue; only a release could. */
  lemma {:induction false} SilentQueue(g: Gateway, e: Event, id: Name)
    requires Silent(g, Happen(g, e)) && id in g.state.control.subscribed && e != Section(Release(id))
    ensures id in Happen(g, e).state.control.subscribed && !ReportsQueue(e, id)
  {
    hide Reduce, Remember, RememberArchived, StableThreads, DeliverAll, DetachAll, DropPending, DropItems, Permits;
    if e.Section? && !Detaches(e.op, id) {
      ApplyQueues(g.state, e.op, id);
    }
  }

  /** `noticed(j)`: the version of the thread's queue reported by moment `j`. */
  ghost predicate Carried(s: System, id: Name, noticed: nat -> nat) {
    forall j :: 0 <= j < |s.history| ==> Heard(s, id, noticed, j)
  }

  ghost predicate Heard(s: System, id: Name, noticed: nat -> nat, j: nat)
    requires j < |s.history|
  {
    ReportsQueue(s.history[j].event, id) || noticed(j + 1) == noticed(j)
  }

  ghost predicate Kept(s: System, i: nat, j: nat, id: Name) {
    j <= |s.history| && forall k :: i <= k < j ==> s.history[k].event != Section(Release(id))
  }

  lemma {:induction false} CalmMoment(s: System, i: nat, k: nat, j: nat, id: Name, noticed: nat -> nat)
    requires Logged(s) && Calm(s, i, j) && Kept(s, i, j, id) && Carried(s, id, noticed) && i <= k < j
    ensures At(s, k + 1) == Happen(At(s, k), s.history[k].event) && Silent(At(s, k), At(s, k + 1))
    ensures s.history[k].event != Section(Release(id))
    ensures ReportsQueue(s.history[k].event, id) || noticed(k + 1) == noticed(k)
  {
    hide Silent, Happen, ReportsQueue;
    assert Follows(s, k) && SilentAt(s, k);
    assert Heard(s, id, noticed, k) && s.history[k].event != Section(Release(id));
  }

  lemma {:induction false} CalmQueue(s: System, i: nat, j: nat, id: Name, noticed: nat -> nat)
    requires Logged(s) && i <= j <= |s.history| && Calm(s, i, j) && Kept(s, i, j, id) && Carried(s, id, noticed)
    requires id in At(s, i).state.control.subscribed
    ensures id in At(s, j).state.control.subscribed && noticed(j) == noticed(i)
    decreases j - i
  {
    hide Silent, Happen, ReportsQueue, Carried, Kept, Calm, Logged;
    if i < j {
      CalmParts(s, i, j - 1, j, id);
      CalmQueue(s, i, j - 1, id, noticed);
      CalmMoment(s, i, j - 1, j, id, noticed);
      SilentQueue(At(s, j - 1), s.history[j - 1].event, id);
    }
  }

  /**
    Unless forced, at the moment of the transition the queue of every owned thread is empty in the
    version last reported, for a server that notifies its changes and a thread that was attached at
    the first section and not released since.
  */
  lemma {:induction false} EmptyWhenDisconnected(s: System, t: Transition, id: Name, server: Queue.Server,
                                                 noticed: nat -> nat)
    requires Logged(s) && Safe(s, t) && !t.caller.attempt.force && Owns(At(s, t.caller.since).state, id)
    requires id in At(s, t.caller.since).state.control.subscribed && Kept(s, t.caller.since, t.at, id)
    requires Carried(s, id, noticed)
    requires var v := t.caller.confirmed[id];
             && Queue.Notifies(server, v.timeline)
             && forall u: nat :: u < Queue.ReadOf(v.timeline, 0, true).now ==> server.noticed(u) == noticed(v.looks(u))
    ensures server.contents(noticed(t.at)) == []
  {
    hide Queue.Notifies, Queue.ReadOf, Silent, ViewOf, Clear, Carried, Kept, Calm, Logged;
    var c, v := t.caller, t.caller.confirmed[id];
    var end := Queue.ReadOf(v.timeline, 0, true).now;
    assert Shown(s, c.since, t.at, id, v);
    forall u: nat | u < end ensures server.noticed(u) == noticed(t.at) {
      assert c.since <= v.looks(u) <= t.at;
      CalmParts(s, c.since, v.looks(u), t.at, id);
      CalmQueue(s, c.since, v.looks(u), id, noticed);
      CalmQueue(s, v.looks(u), t.at, id, noticed);
    }
    assert Queue.Telling(server, v.timeline, 0, end);
    Queue.ReadIsOneVersion(v.timeline, server, 0, true);
  }

  lemma {:induction false} CalmParts(s: System, i: nat, k: nat, j: nat, id: Name)
    requires Calm(s, i, j) && Kept(s, i, j, id) && i <= k <= j
    ensures Calm(s, i, k) && Kept(s, i, k, id) && Calm(s, k, j) && Kept(s, k, j, id)
  {
    hide At, Silent;
  }
}
