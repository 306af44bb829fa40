/**
  One request as the gateway runs it: `write_route` around `steer_queued`, `enqueue_next` and a
  plain native call, over a real store. What the native server and the disk answer is a script.
  Each method is proved to be a run of module Steering, so what holds of every run holds of it.
*/
module SteeringActions {
  import opened Wrappers
  import opened ReceiptTables
  import opened ReceiptReplays
  import opened Steering

  /** What happens to one queued steer: the binding stored and confirmed, the steer, its release, the delete. */
  datatype SteerScript = SteerScript(stored: bool, bound: bool, steer: Reply, released: bool, confirmed: bool, delete: Reply)

  datatype Work =
    | SteerWork(key: SteerKey, script: SteerScript)
    | NextWork(add: Reply, interrupted: bool, start: Reply)
    | DirectWork(reply: Reply)

  function RouteOf(work: Work): Route {
    match work
    case SteerWork(_, _) => QueueSteer
    case NextWork(_, _, _) => SendNext
    case DirectWork(_) => SendSteer
  }

  /** A binding reported as failed may be stored, and a release reported as failed may have deleted it. */
  predicate Sensible(e: SteerScript) {
    (e.bound ==> e.stored) && (e.confirmed ==> e.released)
  }

  // ---------------------------------------------------------------------------------------
  // The steps a request takes.

  function SteerSteps(t: Tables, r: Name, key: SteerKey, action: Name, e: SteerScript): seq<Step> {
    var bind := Bind(r, key, e.stored, e.bound);
    if !e.bound || ClaimSteerOf(t, key, action).1 != Ok(true) then [bind]
    else if e.steer.Success? then [bind, Steer(r, e.steer), Delete(r, e.delete)]
    else if e.steer.failure.Uncertain? then [bind, Steer(r, e.steer)]
    else [bind, Steer(r, e.steer), ReleaseBinding(r, e.released, e.confirmed)]
  }

  function NextSteps(r: Name, add: Reply, interrupted: bool, start: Reply): seq<Step> {
    [Add(r, add, interrupted)] + if AfterAdd(add, interrupted).Queued? then [Start(r, start)] else []
  }

  function WorkSteps(t: Tables, r: Name, action: Name, work: Work): seq<Step> {
    match work
    case SteerWork(key, e) => SteerSteps(t, r, key, action, e)
    case NextWork(add, interrupted, start) => NextSteps(r, add, interrupted, start)
    case DirectWork(reply) => [SteerDirectly(r, reply)]
  }

  predicate SensibleWork(work: Work) {
    work.SteerWork? ==> Sensible(work.script)
  }

  function Reach(w: System, steps: seq<Step>): Option<System>
    decreases |steps|
  {
    if steps == [] then Some(w)
    else if !Enabled(w, steps[0]) then None
    else Reach(Next(w, steps[0]), steps[1..])
  }

  lemma {:induction false} ReachOne(w: System, a: Step)
    requires Enabled(w, a)
    ensures Reach(w, [a]) == Some(Next(w, a))
  {
    hide Enabled, Next;
    assert [a][1..] == [];
    assert Reach(Next(w, a), []) == Some(Next(w, a));
  }

  lemma {:induction false} ReachMore(w: System, a: Step, rest: seq<Step>)
    requires Enabled(w, a)
    ensures Reach(w, [a] + rest) == Reach(Next(w, a), rest)
  {
    hide Enabled, Next;
    assert ([a] + rest)[1..] == rest;
  }

  // ---------------------------------------------------------------------------------------
  // What each method leaves behind.

  /** The bindings and the outcome of one queued steer. */
  function SteerOf(t: Tables, key: SteerKey, action: Name, e: SteerScript): (Tables, Outcome) {
    var (bound, claimed) := ClaimSteerOf(t, key, action);
    if !e.stored || claimed != Ok(true) then (t, Refused)
    else if !e.bound then (bound, Refused)
    else if e.steer.Success? then (bound, AfterDelete(e.delete))
    else if e.steer.failure.Uncertain? then (bound, UNCONFIRMED)
    else (if e.released then ReleaseSteerOf(bound, key, action) else bound,
          if e.confirmed then Native(e.steer.failure) else UNCONFIRMED)
  }

  function NextOf(add: Reply, interrupted: bool, start: Reply): Outcome {
    var stage := AfterAdd(add, interrupted);
    if stage.Executed? then stage.outcome else AfterStart(start)
  }

  function WorkOf(t: Tables, action: Name, work: Work): (Tables, Outcome) {
    match work
    case SteerWork(key, e) => SteerOf(t, key, action, e)
    case NextWork(add, interrupted, start) => (t, NextOf(add, interrupted, start))
    case DirectWork(reply) => (t, if reply.Success? then Done else Native(reply.failure))
  }

  /** What `write_route` answers; `recorded` says the receipt was stored. */
  datatype RouteReply = Replayed(response: Response) | NotClaimed(error: ClaimError) | Answered(outcome: Outcome, recorded: bool)

  function RouteOutcome(t: Tables, action: Name, mark: Fingerprint, work: Work, now: int, later: int, body: string,
                        stored: bool): (Tables, RouteReply)
  {
    var (claimed, result) := ClaimOf(t, action, mark, now);
    if result.Err? then (claimed, NotClaimed(result.error))
    else if result.value.Some? then (claimed, Replayed(result.value.value))
    else
      var (done, outcome) := WorkOf(claimed, action, work);
      if stored then (FinishOf(done, action, StatusOf(outcome), body, later).0, Answered(outcome, true))
      else (done, Answered(outcome, false))
  }

  // ---------------------------------------------------------------------------------------
  // The methods.

  method SteerQueued(store: Receipts, key: SteerKey, action: Name, e: SteerScript) returns (outcome: Outcome)
    modifies store`steers
    ensures (store.Snap(), outcome) == SteerOf(old(store.Snap()), key, action, e)
  {
    if !e.stored {
      return Refused;
    }
    var claimed := store.ClaimQueueSteer(key, action);
    if claimed != Ok(true) || !e.bound {
      return Refused;
    }
    if e.steer.Failed? {
      if !e.steer.failure.Uncertain? {
        if e.released {
          store.ReleaseQueueSteer(key, action);
        }
        if !e.confirmed {
          return UNCONFIRMED;
        }
      }
      return Native(e.steer.failure);
    }
    if e.delete.Failed? || !e.delete.complete {
      return UNCONFIRMED;
    }
    outcome := Done;
  }

  method EnqueueNext(add: Reply, interrupted: bool, start: Reply) returns (outcome: Outcome)
    ensures outcome == NextOf(add, interrupted, start)
    ensures add.Success? ==> outcome.Done? || outcome == UNCONFIRMED
    ensures outcome.Done? ==> add.Success?
  {
    if add.Failed? {
      return Native(add.failure);
    }
    if !interrupted {
      return Done;
    }
    if !add.complete {
      return UNCONFIRMED;
    }
    if start.Success? && start.complete {
      return Done;
    }
    if start.Failed? && start.failure.RpcRejected? && start.failure.busy {
      return Done;
    }
    outcome := UNCONFIRMED;
  }

  method WriteRoute(store: Receipts, action: Name, mark: Fingerprint, work: Work, now: int, later: int, body: string,
                    stored: bool)
    returns (reply: RouteReply)
    modifies store
    ensures (store.Snap(), reply) == RouteOutcome(old(store.Snap()), action, mark, work, now, later, body, stored)
  {
    hide ClaimOf, SteerOf, NextOf, FinishOf;
    var claimed := store.Claim(action, mark, now);
    if claimed.Err? {
      return NotClaimed(claimed.error);
    }
    if claimed.value.Some? {
      return Replayed(claimed.value.value);
    }
    var outcome: Outcome;
    match work {
      case SteerWork(key, e) => outcome := SteerQueued(store, key, action, e);
      case NextWork(add, interrupted, start) => outcome := EnqueueNext(add, interrupted, start);
      case DirectWork(answer) => outcome := if answer.Success? then Done else Native(answer.failure);
    }
    if stored {
      var found := store.Finish(action, StatusOf(outcome), body, later);
    }
    reply := Answered(outcome, stored);
  }

  // ---------------------------------------------------------------------------------------
  // The methods are runs of the machine.

  /**
    A queued steer is done exactly when it was bound, accepted and its copy deleted; a submission
    already bound is left alone; a binding that stays is reported as rejected exactly when its own
    commit was reported as failed, and one that is gone was never accepted.
  */
  lemma {:induction false} SteerOutcomes(t: Tables, key: SteerKey, action: Name, e: SteerScript)
    requires Sensible(e)
    ensures var (u, outcome) := SteerOf(t, key, action, e);
            && u.actions == t.actions && u.retired == t.retired
            && (outcome.Done? <==> key !in t.steers && |t.steers| < MAX_IDENTITIES && e.bound
                                   && e.steer.Success? && e.delete.Success? && e.delete.complete)
            && (key in t.steers ==> outcome == Refused && u == t)
            && (key !in t.steers && key in u.steers ==>
                  u.steers == t.steers[key := action] && e.stored
                  && (if e.bound then outcome.Done? || outcome == UNCONFIRMED else outcome == Refused))
            && (key !in u.steers ==> u.steers == t.steers && !outcome.Done?)
  {
  }

  /**
    A message sent next is done exactly when it was added and, if its thread was interrupted, the
    addition named its submission and starting it succeeded or met a busy thread; it is refused
    exactly when the addition was, and unconfirmed otherwise.
  */
  lemma {:induction false} NextOutcomes(add: Reply, interrupted: bool, start: Reply)
    ensures var started := (start.Success? && start.complete)
                           || (start.Failed? && start.failure.RpcRejected? && start.failure.busy);
            NextOf(add, interrupted, start)
            == if add.Failed? then Native(add.failure)
               else if interrupted && !(add.complete && started) then Native(Failure.Uncertain)
               else Done
  {
  }

  /** The receipt of a route says accepted, uncertain or rejected exactly as the work ended. */
  lemma {:induction false} RouteRecords(t: Tables, action: Name, mark: Fingerprint, work: Work, now: int, later: int,
                                        body: string)
    requires Valid(t) && ClaimOf(t, action, mark, now).1 == Ok(None)
    ensures var (u, reply) := RouteOutcome(t, action, mark, work, now, later, body, true);
            var outcome := WorkOf(ClaimOf(t, action, mark, now).0, action, work).1;
            var status := if outcome == Done then Accepted
                          else if outcome == Native(Failure.Uncertain) then Status.Uncertain else Status.Rejected;
            && reply == Answered(outcome, true)
            && action in u.actions && u.actions[action] == Row(mark, status, Finished(action, status, body), later)
  {
    hide ClaimOf, SteerOf, NextOf;
    ClaimKeepsValid(t, action, mark, now);
    GrantedExactlyWhen(t, action, mark, now);
    var claimed := ClaimOf(t, action, mark, now).0;
    WorkKeepsActions(claimed, action, work);
    var (done, outcome) := WorkOf(claimed, action, work);
    FinishStores(done, action, StatusOf(outcome), body, later);
  }

  lemma {:induction false} WorkKeepsActions(t: Tables, action: Name, work: Work)
    ensures WorkOf(t, action, work).0.actions == t.actions
  {
  }

  lemma {:induction false} SteerIsRun(w: System, r: Name, key: SteerKey, e: SteerScript)
    requires r in w.requests && w.requests[r].route.QueueSteer? && w.requests[r].stage.Granted? && Sensible(e)
    ensures var action := w.requests[r].action;
            var end := Reach(w, SteerSteps(w.tables, r, key, action, e));
            && end.Some? && r in end.value.requests
            && (end.value.tables, end.value.requests[r].stage)
               == (SteerOf(w.tables, key, action, e).0, Executed(SteerOf(w.tables, key, action, e).1))
  {
    hide Reach;
    var action := w.requests[r].action;
    var bind := Bind(r, key, e.stored, e.bound);
    var v := Next(w, bind);
    if !e.bound || ClaimSteerOf(w.tables, key, action).1 != Ok(true) {
      ReachOne(w, bind);
    } else {
      var steer := Steer(r, e.steer);
      var u := Next(v, steer);
      if e.steer.Failed? && e.steer.failure.Uncertain? {
        ReachMore(w, bind, [steer]);
        ReachOne(v, steer);
        assert [bind] + [steer] == [bind, steer];
      } else {
        var last := if e.steer.Success? then Delete(r, e.delete) else ReleaseBinding(r, e.released, e.confirmed);
        ReachMore(w, bind, [steer, last]);
        ReachMore(v, steer, [last]);
        ReachOne(u, last);
        assert [bind] + [steer, last] == [bind, steer, last] && [steer] + [last] == [steer, last];
      }
    }
  }

  lemma {:induction false} NextIsRun(w: System, r: Name, add: Reply, interrupted: bool, start: Reply)
    requires r in w.requests && w.requests[r].route.SendNext? && w.requests[r].stage.Granted?
    ensures var end := Reach(w, NextSteps(r, add, interrupted, start));
            && end.Some? && r in end.value.requests && end.value.tables == w.tables
            && end.value.requests[r].stage == Executed(NextOf(add, interrupted, start))
  {
    hide Reach;
    var first := Add(r, add, interrupted);
    if AfterAdd(add, interrupted).Queued? {
      ReachMore(w, first, [Start(r, start)]);
      ReachOne(Next(w, first), Start(r, start));
    } else {
      ReachOne(w, first);
      assert [first] + [] == [first];
    }
  }

  /** Executing a granted request is a run of the machine that ends with the same tables and outcome. */
  lemma {:induction false} WorkIsRun(w: System, r: Name, work: Work)
    requires r in w.requests && w.requests[r].stage.Granted? && w.requests[r].route == RouteOf(work) && SensibleWork(work)
    ensures var action := w.requests[r].action;
            var end := Reach(w, WorkSteps(w.tables, r, action, work));
            && end.Some? && r in end.value.requests
            && (end.value.tables, end.value.requests[r].stage)
               == (WorkOf(w.tables, action, work).0, Executed(WorkOf(w.tables, action, work).1))
  {
    hide Reach, SteerSteps, SteerOf;
    match work
    case SteerWork(key, e) => SteerIsRun(w, r, key, e);
    case NextWork(add, interrupted, start) => NextIsRun(w, r, add, interrupted, start);
    case DirectWork(reply) => ReachOne(w, SteerDirectly(r, reply));
  }

  lemma {:induction false} ReachJoined(w: System, a: seq<Step>, b: seq<Step>)
    requires Reach(w, a).Some?
    ensures Reach(w, a + b) == Reach(Reach(w, a).value, b)
    decreases |a|
  {
    hide Enabled, Next;
    if a == [] {
      assert a + b == b;
    } else {
      assert (a + b)[0] == a[0] && (a + b)[1..] == a[1..] + b;
      ReachJoined(Next(w, a[0]), a[1..], b);
    }
  }

  lemma {:induction false} ReachUnfolds(w: System, steps: seq<Step>)
    requires Reach(w, steps).Some?
    ensures Unfolds(w, steps) && After(w, steps) == Reach(w, steps).value
    decreases |steps|
  {
    hide Enabled, Next;
    if steps != [] {
      ReachUnfolds(Next(w, steps[0]), steps[1..]);
    }
  }

  /** The steps of a whole route: claim, work, receipt; only the claim if it was not granted. */
  function RouteSteps(t: Tables, r: Name, action: Name, mark: Fingerprint, work: Work, now: int, later: int,
                      body: string,
                      stored: bool): seq<Step>
  {
    var (claimed, result) := ClaimOf(t, action, mark, now);
    var claim := [Step.Claim(r, action, RouteOf(work), mark, now)];
    if result == Ok(None) then claim + WorkSteps(claimed, r, action, work) + [Step.Finish(r, body, later, stored)] else claim
  }

  /** `write_route` is a run of the machine, so every theorem about runs is one about it. */
  lemma {:induction false} RouteIsRun(w: System, r: Name, action: Name, mark: Fingerprint, work: Work, now: int,
                                      later: int,
                                     body: string, stored: bool)
    requires r !in w.requests && SensibleWork(work)
    ensures var steps := RouteSteps(w.tables, r, action, mark, work, now, later, body, stored);
            Unfolds(w, steps)
            && After(w, steps).tables == RouteOutcome(w.tables, action, mark, work, now, later, body, stored).0
  {
    hide Reach, ClaimOf, WorkSteps, WorkOf, FinishOf;
    var claim := Step.Claim(r, action, RouteOf(work), mark, now);
    var steps := RouteSteps(w.tables, r, action, mark, work, now, later, body, stored);
    var v := Next(w, claim);
    ReachOne(w, claim);
    if ClaimOf(w.tables, action, mark, now).1 == Ok(None) {
      var middle := WorkSteps(v.tables, r, action, work);
      WorkIsRun(v, r, work);
      var u := Reach(v, middle).value;
      var finish := Step.Finish(r, body, later, stored);
      assert u.requests[r].action == action by { WorkKeepsAction(v, r, middle); }
      ReachOne(u, finish);
      ReachJoined(w, [claim], middle);
      ReachJoined(w, [claim] + middle, [finish]);
    }
    ReachUnfolds(w, steps);
  }

  lemma {:induction false} WorkKeepsAction(w: System, r: Name, steps: seq<Step>)
    requires r in w.requests && Reach(w, steps).Some?
    ensures r in Reach(w, steps).value.requests && Reach(w, steps).value.requests[r].action == w.requests[r].action
    decreases |steps|
  {
    if steps != [] {
      StepKeepsAction(w, r, steps[0]);
      WorkKeepsAction(Next(w, steps[0]), r, steps[1..]);
    }
  }

  lemma {:induction false} StepKeepsAction(w: System, r: Name, s: Step)
    requires r in w.requests && Enabled(w, s)
    ensures r in Next(w, s).requests && Next(w, s).requests[r].action == w.requests[r].action
  {
    hide ClaimOf, Pruned, FinishOf, ReleaseSteerOf, ClaimSteerOf;
  }
}
