/**
  `disconnect_inner` as performed on the gateway's own fields, against everyone else: events happen
  before and while each thread is asked about, between any two looks of its queue read, and before
  the second section. The whole disconnect is a run of the machine in SafeDisconnect.
*/
module DisconnectActions {
  import opened Wrappers
  import opened Reducer
  import opened ReducerRuns
  import opened QueueStamps
  import opened SafeDisconnect
  import Queue = QueueSnapshot

  /**
    One thread being confirmed: what happens before it is asked about and before the reply, the
    reply, what happens after each moment of the queue read, and the pages.
  */
  datatype Reading = Reading(
    before: seq<Event>, asking: seq<Event>, reply: Option<ThreadReply>,
    during: nat -> seq<Event>, answer: (nat, Option<Name>) -> Result<Queue.Page, Failure>)

  /** Everything that happened by moment `t` of the queue read. */
  function Flat(during: nat -> seq<Event>, t: nat): seq<Event> {
    if t == 0 then [] else Flat(during, t - 1) + during(t - 1)
  }

  /** The queue read looks at a gateway that goes on changing. */
  function TimelineOf(g: Gateway, r: Reading, id: Name): Queue.Timeline {
    Queue.Timeline((t: nat) => ViewOf(After(g, Flat(r.during, t)).state, id), r.answer)
  }

  predicate ReplyIdle(reply: Option<ThreadReply>, id: Name) {
    reply.Some? && reply.value.id == id && reply.value.status != ACTIVE
  }

  /** Whether a thread was found idle with an empty queue, and the gateway by then. */
  ghost function ConfirmOf(g: Gateway, id: Name, r: Reading): (Gateway, bool) {
    var asked := After(g, r.before);
    var answered := After(asked, r.asking);
    var read := Queue.ReadOf(TimelineOf(answered, r, id), 0, true);
    if !asked.state.connection.Connected? then (asked, false)
    else if !ReplyIdle(r.reply, id) then (answered, false)
    else (After(answered, Flat(r.during, read.now)), read.result.Ok? && read.result.value.entries == [])
  }

  /** The owned threads in the order of the source's vector, up to the first that is not idle. */
  ghost function ConfirmAll(g: Gateway, order: seq<Name>, reading: Name -> Reading): (Gateway, bool)
    decreases |order|
  {
    if order == [] then (g, true)
    else
      var first := ConfirmOf(g, order[0], reading(order[0]));
      if first.1 then ConfirmAll(first.0, order[1..], reading) else first
  }

  ghost function DisconnectOf(g: Gateway, force: bool, order: seq<Name>, reading: Name -> Reading, last: seq<Event>)
    : (Gateway, Outcome)
  {
    var first := CheckOf(g, force);
    if first.Err? then (g, first.error)
    else
      var confirmed := if force then (g, true) else ConfirmAll(g, order, reading);
      if !confirmed.1 then (confirmed.0, Busy)
      else
        var h := After(confirmed.0, last);
        var decision := CommitOf(h, first.value);
        (if decision.Transitioned? then Deactivated(h) else h, decision)
  }

  /** `order` lists the cached threads that are not archived. */
  ghost predicate Lists(order: seq<Name>, s: Model) {
    forall id :: id in order <==> id in s.cache.threads && id !in s.control.archived
  }

  /** The gateway's own fields; each method is one section under the lock it takes in the source. */
  class Lifecycle {
    var disconnected: bool
    var stopping: bool
    var readers: set<Name>
    var activity: nat
    var state: Model
    var admitted: seq<Name>

    function Snap(): Gateway
      reads this
    {
      Gateway(disconnected, stopping, readers, activity, state, admitted)
    }

    method Admit(request: Name) returns (refused: bool)
      modifies this
      ensures Snap() == AdmitOf(old(Snap()), request)
      ensures refused <==> old(stopping || disconnected)
    {
      refused := stopping || disconnected;
      if !refused {
        readers := readers + {request};
        activity := activity + 1;
        admitted := admitted + [request];
      }
    }

    /** The first writer section. */
    method Check(force: bool) returns (r: Result<Attempt, Outcome>)
      ensures r == CheckOf(Snap(), force)
    {
      hide Refuses;
      if readers != {} {
        return Err(Busy);
      }
      if disconnected {
        return Err(AlreadyDone);
      }
      if Refuses(state, force) {
        return Err(Busy);
      }
      r := Ok(Attempt(force, state.cache.threads.Keys - state.control.archived, state.epoch, state.sequence, activity));
    }

    /** The second writer section. */
    method Commit(a: Attempt) returns (r: Outcome)
      modifies this
      ensures r == CommitOf(old(Snap()), a)
      ensures Snap() == if r == Transitioned then Deactivated(old(Snap())) else old(Snap())
    {
      hide Refuses, Deactivate;
      if readers != {} {
        return Busy;
      }
      if disconnected {
        return AlreadyDone;
      }
      if activity != a.activity || state.epoch != a.epoch || state.sequence != a.sequence || Refuses(state, a.force) {
        return Busy;
      }
      disconnected := true;
      state := Deactivate(state);
      r := Transitioned;
    }

    /** One thing someone else does. */
    method React(event: Event)
      modifies this
      ensures Snap() == Happen(old(Snap()), event)
    {
      hide Deactivate, ReducerRuns.Apply;
      match event {
        case Admit(request) =>
          var _ := Admit(request);
        case Leave(request) =>
          readers := readers - {request};
        case Section(op) =>
          if !op.Disable? {
            state := Apply(state, op);
          }
        case CloseBegin =>
          stopping := true;
        case CloseEnd =>
          if stopping && readers == {} {
            disconnected := true;
            state := Deactivate(state);
          }
        case Decided =>
          if readers == {} {
            disconnected := true;
            state := Deactivate(state);
          }
      }
    }

    /** Everyone else, for a while. */
    method Interfere(events: seq<Event>)
      modifies this
      ensures Snap() == After(old(Snap()), events)
    {
      hide Happen;
      for i := 0 to |events|
        invariant After(Snap(), events[i..]) == After(old(Snap()), events)
      {
        assert events[i..][0] == events[i] && events[i..][1..] == events[i + 1..];
        React(events[i]);
      }
      assert events[|events|..] == [];
    }

    /** One owned thread: `thread/read`, then its queue. */
    method ConfirmThread(id: Name, r: Reading) returns (idle: bool)
      modifies this
      ensures (Snap(), idle) == ConfirmOf(old(Snap()), id, r)
    {
      hide Happen, ViewOf, Queue.ReadOf;
      Interfere(r.before);
      if !state.connection.Connected? {
        return false;
      }
      Interfere(r.asking);
      if !ReplyIdle(r.reply, id) {
        return false;
      }
      var g := Snap();
      var queue, _, now := Queue.ReadQueue(TimelineOf(g, r, id), 0, true);
      for t := 0 to now
        invariant Snap() == After(g, Flat(r.during, t))
      {
        AfterJoin(g, Flat(r.during, t), r.during(t));
        Interfere(r.during(t));
      }
      idle := queue.Ok? && queue.value.entries == [];
    }

    method Disconnect(force: bool, order: seq<Name>, reading: Name -> Reading, last: seq<Event>) returns (r: Outcome)
      requires Lists(order, Snap().state)
      modifies this
      ensures (Snap(), r) == DisconnectOf(old(Snap()), force, order, reading, last)
    {
      hide ConfirmOf, CheckOf, CommitOf, Deactivated;
      var first := Check(force);
      if first.Err? {
        return first.error;
      }
      if !force {
        for i := 0 to |order|
          invariant ConfirmAll(Snap(), order[i..], reading) == ConfirmAll(old(Snap()), order, reading)
        {
          assert order[i..][0] == order[i] && order[i..][1..] == order[i + 1..];
          var idle := ConfirmThread(order[i], reading(order[i]));
          if !idle {
            return Busy;
          }
        }
        assert order[|order|..] == [];
      }
      Interfere(last);
      r := Commit(first.value);
    }
  }

  lemma {:induction false} AfterJoin(g: Gateway, a: seq<Event>, b: seq<Event>)
    ensures After(g, a + b) == After(After(g, a), b)
    decreases |a|
  {
    hide Happen;
    if a == [] {
      assert a + b == b;
    } else {
      assert (a + b)[0] == a[0] && (a + b)[1..] == a[1..] + b;
      AfterJoin(Happen(g, a[0]), a[1..], b);
    }
  }

  // ---------------------------------------------------------------------------------------
  // The disconnect is a run of the machine.

  function Others(events: seq<Event>): seq<Step> {
    seq(|events|, i requires 0 <= i < |events| => Other(events[i]))
  }

  ghost function LogAll(s: System, events: seq<Event>): System
    decreases |events|
  {
    if events == [] then s else LogAll(Log(s, events[0]), events[1..])
  }

  lemma {:induction false} OthersRun(s: System, events: seq<Event>)
    ensures Performs(s, Others(events)) && Performed(s, Others(events)) == LogAll(s, events)
    decreases |events|
  {
    hide Happen;
    if events != [] {
      assert Others(events)[0] == Other(events[0]) && Others(events)[1..] == Others(events[1..]);
      OthersRun(Log(s, events[0]), events[1..]);
    }
  }

  lemma {:induction false} Logs(s: System, events: seq<Event>)
    ensures var u := LogAll(s, events);
            && u.gateway == After(s.gateway, events) && u.callers == s.callers && u.transitions == s.transitions
            && |u.history| == |s.history| + |events|
            && (forall j :: 0 <= j <= |s.history| ==> At(u, j) == At(s, j))
    decreases |events|
  {
    hide Happen;
    if events != [] {
      var v := Log(s, events[0]);
      Logs(v, events[1..]);
      assert forall j :: 0 <= j <= |s.history| ==> At(v, j) == At(s, j);
    }
  }

  /** The moment after the first `k` events. */
  lemma {:induction false} LogMoment(s: System, events: seq<Event>, k: nat)
    requires k <= |events|
    ensures |LogAll(s, events).history| == |s.history| + |events|
    ensures At(LogAll(s, events), |s.history| + k) == After(s.gateway, events[..k])
  {
    hide Happen, After;
    LogJoin(s, events[..k], events[k..]);
    assert events[..k] + events[k..] == events;
    Logs(s, events[..k]);
    Logs(LogAll(s, events[..k]), events[k..]);
    Logs(s, events);
    assert At(LogAll(s, events), |s.history| + k) == At(LogAll(s, events[..k]), |s.history| + k);
  }

  lemma {:induction false} LogJoin(s: System, a: seq<Event>, b: seq<Event>)
    ensures LogAll(s, a + b) == LogAll(LogAll(s, a), b)
    decreases |a|
  {
    hide Happen;
    if a == [] {
      assert a + b == b;
    } else {
      assert (a + b)[0] == a[0] && (a + b)[1..] == a[1..] + b;
      LogJoin(Log(s, a[0]), a[1..], b);
    }
  }

  lemma {:induction false} RunsJoin(s: System, a: seq<Step>, b: seq<Step>)
    requires Performs(s, a) && Performs(Performed(s, a), b)
    ensures Performs(s, a + b) && Performed(s, a + b) == Performed(Performed(s, a), b)
    decreases |a|
  {
    hide Ready, Perform;
    if a == [] {
      assert a + b == b;
    } else {
      assert (a + b)[0] == a[0] && (a + b)[1..] == a[1..] + b;
      RunsJoin(Perform(s, a[0]), a[1..], b);
    }
  }

  lemma {:induction false} OneStep(s: System, step: Step)
    requires Ready(s, step)
    ensures Performs(s, [step]) && Performed(s, [step]) == Perform(s, step)
  {
    hide Ready, Perform;
    assert [step][1..] == [];
    assert Performs(Perform(s, step), []) && Performed(Perform(s, step), []) == Perform(s, step);
  }

  lemma {:induction false} FlatGrows(during: nat -> seq<Event>, t: nat, u: nat)
    requires t <= u
    ensures |Flat(during, t)| <= |Flat(during, u)| && Flat(during, u)[..|Flat(during, t)|] == Flat(during, t)
    decreases u
  {
    if t < u {
      FlatGrows(during, t, u - 1);
    }
  }

  /** The evidence a disconnect gathers about one thread, and all events until it has it. */
  function EvidenceOf(base: nat, r: Reading, timeline: Queue.Timeline): Evidence {
    Evidence(base + |r.before|, r.reply, timeline, (t: nat) => base + |r.before| + |r.asking| + |Flat(r.during, t)|)
  }

  ghost function EventsOf(r: Reading, now: nat): seq<Event> {
    r.before + r.asking + Flat(r.during, now)
  }

  /** Look `t` of the queue read sees the gateway of that moment of the history. */
  lemma {:induction false} LookMoment(s: System, r: Reading, t: nat, now: nat)
    requires t <= now
    ensures var u := LogAll(s, EventsOf(r, now));
            var j := |s.history| + |r.before| + |r.asking| + |Flat(r.during, t)|;
            j <= |u.history| && At(u, j) == After(After(After(s.gateway, r.before), r.asking), Flat(r.during, t))
  {
    hide After, At, LogAll;
    var flat, events := Flat(r.during, t), EventsOf(r, now);
    FlatGrows(r.during, t, now);
    var k := |r.before + r.asking + flat|;
    assert events[..k] == r.before + r.asking + flat;
    LogMoment(s, events, k);
    AfterJoin(s.gateway, r.before, r.asking);
    AfterJoin(s.gateway, r.before + r.asking, flat);
  }

  lemma {:induction false} AskedMoment(s: System, r: Reading, now: nat)
    ensures var u := LogAll(s, EventsOf(r, now));
            && |s.history| + |r.before| <= |u.history| == |s.history| + |EventsOf(r, now)|
            && At(u, |s.history| + |r.before|) == After(s.gateway, r.before)
  {
    hide After, At, LogAll;
    assert EventsOf(r, now)[..|r.before|] == r.before;
    LogMoment(s, EventsOf(r, now), |r.before|);
  }

  lemma {:induction false} EvidenceHolds(s: System, since: nat, id: Name, r: Reading, timeline: Queue.Timeline, now: nat)
    requires since <= |s.history| && now == Queue.ReadOf(timeline, 0, true).now
    requires timeline == TimelineOf(After(After(s.gateway, r.before), r.asking), r, id)
    ensures var u := LogAll(s, EventsOf(r, now));
            Within(u, since, |u.history|, id, EvidenceOf(|s.history|, r, timeline))
  {
    hide After, ViewOf, Queue.ReadOf, At, LogAll, EventsOf, Flat;
    var u, v := LogAll(s, EventsOf(r, now)), EvidenceOf(|s.history|, r, timeline);
    AskedMoment(s, r, now);
    forall t: nat | t < now
      ensures v.asked <= v.looks(t) <= |u.history| && timeline.view(t) == ViewOf(At(u, v.looks(t)).state, id)
    {
      LookMoment(s, r, t, now);
    }
    forall t: nat, w: nat | t <= w < now ensures v.looks(t) <= v.looks(w) {
      FlatGrows(r.during, t, w);
    }
  }

  /** Confirming one thread, as steps of the machine. */
  lemma {:induction false} ConfirmRuns(s: System, pid: Name, id: Name, r: Reading) returns (steps: seq<Step>)
    requires Inv(s) && pid in s.callers && !s.callers[pid].attempt.force && id in s.callers[pid].attempt.owned
    ensures Performs(s, steps)
    ensures var u := Performed(s, steps);
            && Inv(u) && u.gateway == ConfirmOf(s.gateway, id, r).0 && u.transitions == s.transitions
            && (ConfirmOf(s.gateway, id, r).1 ==>
                  pid in u.callers && u.callers[pid].attempt == s.callers[pid].attempt
                  && u.callers[pid].since == s.callers[pid].since
                  && u.callers[pid].confirmed.Keys == s.callers[pid].confirmed.Keys + {id})
  {
    hide After, ViewOf, Queue.ReadOf, At, LogAll, EventsOf, Flat, Inv, Within, FoundIdle, EvidenceOf, ReplyIdle;
    var asked := After(s.gateway, r.before);
    var answered := After(asked, r.asking);
    var timeline := TimelineOf(answered, r, id);
    var read := Queue.ReadOf(timeline, 0, true);
    if !ConfirmOf(s.gateway, id, r).1 {
      var events := if !asked.state.connection.Connected? then r.before
                    else if !ReplyIdle(r.reply, id) then r.before + r.asking
                    else EventsOf(r, read.now);
      steps := Others(events);
      OthersRun(s, events);
      Logs(s, events);
      AfterJoin(s.gateway, r.before, r.asking);
      EventsEnd(s.gateway, r, read.now);
      DisconnectIsSafe(s, steps);
    } else {
      var events, v := EventsOf(r, read.now), EvidenceOf(|s.history|, r, timeline);
      var confirm := Confirm(pid, id, v);
      OthersRun(s, events);
      Logs(s, events);
      EventsEnd(s.gateway, r, read.now);
      InvCaller(s, pid);
      EvidenceHolds(s, s.callers[pid].since, id, r, timeline, read.now);
      EvidenceIdle(s, id, r, timeline);
      OneStep(LogAll(s, events), confirm);
      RunsJoin(s, Others(events), [confirm]);
      steps := Others(events) + [confirm];
      DisconnectIsSafe(s, steps);
    }
  }

  lemma {:induction false} InvCaller(s: System, pid: Name)
    requires Inv(s) && pid in s.callers
    ensures CallerOk(s, s.callers[pid]) && s.callers[pid].since <= |s.history|
  {
    hide Logged, Safe;
  }

  lemma {:induction false} EventsEnd(g: Gateway, r: Reading, now: nat)
    ensures After(g, EventsOf(r, now)) == After(After(After(g, r.before), r.asking), Flat(r.during, now))
  {
    hide After, Flat;
    AfterJoin(g, r.before, r.asking);
    AfterJoin(g, r.before + r.asking, Flat(r.during, now));
  }

  lemma {:induction false} EvidenceIdle(s: System, id: Name, r: Reading, timeline: Queue.Timeline)
    requires ConfirmOf(s.gateway, id, r).1
    requires timeline == TimelineOf(After(After(s.gateway, r.before), r.asking), r, id)
    ensures var u := LogAll(s, EventsOf(r, Queue.ReadOf(timeline, 0, true).now));
            var v := EvidenceOf(|s.history|, r, timeline);
            v.asked <= |u.history| && FoundIdle(u, id, v)
  {
    hide After, Queue.ReadOf, At, LogAll, EventsOf, Flat, ViewOf;
    AskedMoment(s, r, Queue.ReadOf(timeline, 0, true).now);
  }

  function Elements(order: seq<Name>): set<Name> {
    set id | id in order
  }

  lemma {:induction false} ConfirmAllRuns(s: System, pid: Name, order: seq<Name>, reading: Name -> Reading)
    returns (steps: seq<Step>)
    requires Inv(s) && pid in s.callers && !s.callers[pid].attempt.force
    requires Elements(order) <= s.callers[pid].attempt.owned
    ensures Performs(s, steps)
    ensures var u := Performed(s, steps);
            && Inv(u) && u.gateway == ConfirmAll(s.gateway, order, reading).0 && u.transitions == s.transitions
            && (ConfirmAll(s.gateway, order, reading).1 ==>
                  pid in u.callers && u.callers[pid].attempt == s.callers[pid].attempt
                  && u.callers[pid].since == s.callers[pid].since
                  && u.callers[pid].confirmed.Keys == s.callers[pid].confirmed.Keys + Elements(order))
    decreases |order|
  {
    hide Inv, ConfirmOf, Ready, Perform;
    if order == [] {
      steps := [];
    } else {
      assert order[0] in Elements(order) && Elements(order) == {order[0]} + Elements(order[1..]);
      var first := ConfirmRuns(s, pid, order[0], reading(order[0]));
      if ConfirmOf(s.gateway, order[0], reading(order[0])).1 {
        var rest := ConfirmAllRuns(Performed(s, first), pid, order[1..], reading);
        RunsJoin(s, first, rest);
        steps := first + rest;
      } else {
        steps := first;
      }
    }
  }

  /** After the confirmations: what else happens, and the second section. */
  lemma {:induction false} CommitRuns(s: System, pid: Name, last: seq<Event>) returns (steps: seq<Step>)
    requires Inv(s) && pid in s.callers
    requires s.callers[pid].attempt.force || s.callers[pid].attempt.owned == s.callers[pid].confirmed.Keys
    ensures Performs(s, steps)
    ensures var (u, h, c) := (Performed(s, steps), After(s.gateway, last), s.callers[pid]);
            if CommitOf(h, c.attempt).Transitioned?
            then u.gateway == Deactivated(h)
                 && u.transitions == s.transitions + [Transition(c, |s.history| + |last|)]
            else u.gateway == h && u.transitions == s.transitions
  {
    hide Inv, After, CommitOf, Deactivated, LogAll;
    OthersRun(s, last);
    Logs(s, last);
    var u := LogAll(s, last);
    assert Ready(u, Commit(pid));
    OneStep(u, Commit(pid));
    RunsJoin(s, Others(last), [Commit(pid)]);
    steps := Others(last) + [Commit(pid)];
    CommitLogs(u, pid);
  }

  lemma {:induction false} CommitLogs(s: System, pid: Name)
    requires Ready(s, Commit(pid))
    ensures Perform(s, Commit(pid)).gateway
            == if CommitOf(s.gateway, s.callers[pid].attempt).Transitioned? then Deactivated(s.gateway) else s.gateway
  {
    hide Refuses, Deactivated;
  }

  /**
    Whatever happens meanwhile, `disconnect_inner` is a run of the machine, with a transition
    exactly when it reports one; so that transition is safe from its own first section on.
  */
  lemma {:induction false} DisconnectIsRun(g: Gateway, force: bool, order: seq<Name>, reading: Name -> Reading,
                                           last: seq<Event>)
    returns (steps: seq<Step>)
    requires g.activity == |g.admitted|
    requires Lists(order, g.state)
    ensures Performs(Fresh(g), steps)
    ensures var (u, r) := (Performed(Fresh(g), steps), DisconnectOf(g, force, order, reading, last));
            && u.gateway == r.0 && |u.transitions| == (if r.1.Transitioned? then 1 else 0)
            && forall t :: t in u.transitions ==> t.caller.since == 0 && t.caller.attempt.force == force && Safe(u, t)
  {
    hide Inv, After, CommitOf, Deactivated, Safe, ConfirmAll, Ready, Refuses;
    var s := Fresh(g);
    FreshOk(g);
    if CheckOf(g, force).Err? {
      steps := [];
    } else {
      var a := CheckOf(g, force).value;
      var s1 := s.(callers := map[0 := Caller(a, 0, map[])]);
      var steps1 := [Check(0, force)];
      CheckRuns(s, force);
      DisconnectIsSafe(s, steps1);
      CheckExactlyWhen(g, force);
      assert Elements(order) == a.owned;
      var steps2: seq<Step> := [];
      if !force {
        steps2 := ConfirmAllRuns(s1, 0, order, reading);
      }
      var s2 := Performed(s1, steps2);
      RunsJoin(s, steps1, steps2);
      steps := steps1 + steps2;
      if force || ConfirmAll(g, order, reading).1 {
        var steps3 := CommitRuns(s2, 0, last);
        RunsJoin(s, steps, steps3);
        steps := steps + steps3;
      }
    }
    DisconnectIsSafe(s, steps);
  }

  lemma {:induction false} CheckRuns(s: System, force: bool)
    requires s.callers == map[] && CheckOf(s.gateway, force).Ok?
    ensures Performs(s, [Check(0, force)])
    ensures Performed(s, [Check(0, force)])
            == s.(callers := map[0 := Caller(CheckOf(s.gateway, force).value, |s.history|, map[])])
  {
    hide CheckOf;
    OneStep(s, Check(0, force));
  }

  // ---------------------------------------------------------------------------------------
  // A disconnect nobody disturbs.

  ghost predicate Undisturbed(r: Reading) {
    r.before == [] && r.asking == [] && forall t: nat :: r.during(t) == []
  }

  /** What the native server has to answer about a thread. */
  ghost predicate AnsweredIdle(g: Gateway, id: Name, r: Reading) {
    var read := Queue.ReadOf(TimelineOf(g, r, id), 0, true).result;
    && g.state.connection.Connected?
    && r.reply.Some? && r.reply.value.id == id && r.reply.value.status != ACTIVE
    && read.Ok? && read.value.entries == []
  }

  lemma {:induction false} FlatEmpty(during: nat -> seq<Event>, t: nat)
    requires forall k: nat :: during(k) == []
    ensures Flat(during, t) == []
    decreases t
  {
    if t > 0 {
      FlatEmpty(during, t - 1);
    }
  }

  lemma {:induction false} UndisturbedConfirm(g: Gateway, id: Name, r: Reading)
    requires Undisturbed(r)
    ensures ConfirmOf(g, id, r) == (g, AnsweredIdle(g, id, r))
  {
    hide Queue.ReadOf, ViewOf, Happen;
    FlatEmpty(r.during, Queue.ReadOf(TimelineOf(g, r, id), 0, true).now);
  }

  lemma {:induction false} UndisturbedAll(g: Gateway, order: seq<Name>, reading: Name -> Reading)
    requires forall id :: Undisturbed(reading(id))
    ensures ConfirmAll(g, order, reading).0 == g
    ensures ConfirmAll(g, order, reading).1 <==> forall id :: id in order ==> AnsweredIdle(g, id, reading(id))
    decreases |order|
  {
    hide ConfirmOf, AnsweredIdle, Undisturbed;
    if order != [] {
      UndisturbedConfirm(g, order[0], reading(order[0]));
      UndisturbedAll(g, order[1..], reading);
      assert forall id :: id in order <==> id == order[0] || id in order[1..];
    }
  }

  /**
    With nobody else about, an unforced disconnect transitions exactly when the gateway is clear and
    every cached unarchived thread is answered idle with an empty queue; otherwise nothing changes.
  */
  lemma {:induction false} UndisturbedExactlyWhen(g: Gateway, order: seq<Name>, reading: Name -> Reading)
    requires Lists(order, g.state)
    requires forall id :: Undisturbed(reading(id))
    ensures var (h, outcome) := DisconnectOf(g, false, order, reading, []);
            && (outcome.Transitioned? <==>
                  Clear(g, false) && forall id :: Owns(g.state, id) ==> AnsweredIdle(g, id, reading(id)))
            && h == if outcome.Transitioned? then Deactivated(g) else g
  {
    hide ConfirmAll, AnsweredIdle, Undisturbed, Clear, Deactivated, Refuses;
    CheckExactlyWhen(g, false);
    UndisturbedAll(g, order, reading);
  }
}
