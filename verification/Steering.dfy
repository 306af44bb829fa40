/**
  Actions over the shared receipt store (claude-monitor-codex/src/lib.rs, `write_route`,
  `steer_queued`, `enqueue_next`): any number of requests, of any number of gateways sharing one
  store, each able to crash between any two steps.

  A native call either was never written, or was written and refused, or was applied, or nobody
  knows; which of these an answer allows is what the socket worker guarantees (module
  WorkerCalls). `steers` and `deletes` are the history of what reached the server.
*/
module Steering {
  import opened Wrappers
  import opened ReceiptTables

  /** What the server did with the action, as far as anyone can know. */
  datatype Effect = Untouched | Maybe | Applied

  /** The answer of a native call; `complete` says the reply carried what the caller looks for in it. */
  datatype Reply = Success(complete: bool) | Failed(failure: Failure)

  function EffectOf(reply: Reply): Effect {
    if reply.Success? then Applied else if reply.failure.Uncertain? then Maybe else Untouched
  }

  /** Whether the call may have reached the server: Unavailable and a local rejection never do. */
  predicate Reached(reply: Reply) {
    reply.Success? || reply.failure.RpcRejected? || reply.failure.Uncertain?
  }

  /** How a route ends; `Refused` stands for every error that is not a native call's. */
  datatype Outcome = Done | Refused | Native(failure: Failure)

  const UNCONFIRMED := Native(Failure.Uncertain)

  function StatusOf(outcome: Outcome): Status {
    if outcome.Done? then Status.Accepted
    else if outcome.Native? && outcome.failure.Uncertain? then Status.Uncertain
    else Status.Rejected
  }

  datatype Route = QueueSteer | SendNext | SendSteer | OtherRoute

  /** Where a request stands. */
  datatype Stage =
    | Granted
    | Bound(key: SteerKey)
    | Rebuffed(key: SteerKey, failure: Failure)
    | Delivered(key: SteerKey)
    | Queued
    | Executed(outcome: Outcome)
    | Recorded
    | Crashed

  datatype Request = Request(action: Name, route: Route, stage: Stage, effect: Effect)

  datatype Attempt = Attempt(key: SteerKey, action: Name, effect: Effect)
  datatype Deletion = Deletion(key: SteerKey, action: Name)

  datatype System = System(
    tables: Tables, requests: map<Name, Request>, steers: seq<Attempt>, deletes: seq<Deletion>)

  const NEW := System(EMPTY, map[], [], [])

  // ---------------------------------------------------------------------------------------
  // Steps. `r` names a request; several gateways and their restarts share the tables.

  datatype Step =
    | Restart(now: int)
    | Claim(r: Name, action: Name, route: Route, mark: Fingerprint, now: int)
    | Fail(r: Name, outcome: Outcome)
    | Bind(r: Name, key: SteerKey, stored: bool, confirmed: bool)
    | Steer(r: Name, reply: Reply)
    | ReleaseBinding(r: Name, deleted: bool, confirmed: bool)
    | Delete(r: Name, reply: Reply)
    | SteerDirectly(r: Name, reply: Reply)
    | Add(r: Name, reply: Reply, interrupted: bool)
    | Start(r: Name, reply: Reply)
    | Execute(r: Name, outcome: Outcome, effect: Effect)
    | Finish(r: Name, body: string, now: int, stored: bool)
    | Crash(r: Name, written: bool)

  predicate At(w: System, r: Name, route: Route) {
    r in w.requests && w.requests[r].route == route
  }

  predicate Enabled(w: System, s: Step) {
    match s
    case Restart(_) => true
    case Claim(r, _, _, _, _) => r !in w.requests
    case Fail(r, outcome) => r in w.requests && w.requests[r].stage.Granted? && !outcome.Done?
    // A commit reported as failed may still have stored the binding.
    case Bind(r, _, stored, confirmed) =>
      At(w, r, QueueSteer) && w.requests[r].stage.Granted? && (confirmed ==> stored)
    case Steer(r, _) => At(w, r, QueueSteer) && w.requests[r].stage.Bound?
    case ReleaseBinding(r, deleted, confirmed) =>
      At(w, r, QueueSteer) && w.requests[r].stage.Rebuffed? && (confirmed ==> deleted)
    case Delete(r, _) => At(w, r, QueueSteer) && w.requests[r].stage.Delivered?
    case SteerDirectly(r, _) => At(w, r, SendSteer) && w.requests[r].stage.Granted?
    case Add(r, _, _) => At(w, r, SendNext) && w.requests[r].stage.Granted?
    case Start(r, _) => At(w, r, SendNext) && w.requests[r].stage.Queued?
    case Execute(r, _, _) => At(w, r, OtherRoute) && w.requests[r].stage.Granted?
    case Finish(r, _, _, _) => r in w.requests && w.requests[r].stage.Executed?
    case Crash(r, _) => r in w.requests && !w.requests[r].stage.Recorded? && !w.requests[r].stage.Crashed?
  }

  /** `enqueue_next` after the addition: only an interrupted thread is started explicitly. */
  function AfterAdd(reply: Reply, interrupted: bool): Stage {
    if reply.Failed? then Executed(Native(reply.failure))
    else if !interrupted then Executed(Done)
    else if !reply.complete then Executed(UNCONFIRMED)
    else Queued
  }

  /** A busy thread keeps the message queued; anything else cannot be confirmed. */
  function AfterStart(reply: Reply): Outcome {
    if reply.Success? && reply.complete then Done
    else if reply.Failed? && reply.failure.RpcRejected? && reply.failure.busy then Done
    else UNCONFIRMED
  }

  function AfterSteer(key: SteerKey, reply: Reply): Stage {
    if reply.Success? then Delivered(key)
    else if reply.failure.Uncertain? then Executed(UNCONFIRMED)
    else Rebuffed(key, reply.failure)
  }

  function AfterDelete(reply: Reply): Outcome {
    if reply.Success? && reply.complete then Done else UNCONFIRMED
  }

  /** What a call cut short by a crash may have done. */
  function CrashEffect(q: Request, written: bool): Effect {
    if written && (q.stage.Bound? || (q.stage.Granted? && !q.route.QueueSteer?)) then Maybe else q.effect
  }

  function Move(w: System, r: Name, stage: Stage, effect: Effect): System
    requires r in w.requests
  {
    w.(requests := w.requests[r := w.requests[r].(stage := stage, effect := effect)])
  }

  function Next(w: System, s: Step): System
    requires Enabled(w, s)
  {
    match s
    case Restart(now) => w.(tables := Pruned(w.tables, now))
    case Claim(r, action, route, mark, now) =>
      var (tables, result) := ClaimOf(w.tables, action, mark, now);
      w.(tables := tables,
         requests := if result == Ok(None) then w.requests[r := Request(action, route, Granted, Untouched)] else w.requests)
    case Fail(r, outcome) => Move(w, r, Executed(outcome), w.requests[r].effect)
    case Bind(r, key, stored, confirmed) =>
      var (tables, result) := ClaimSteerOf(w.tables, key, w.requests[r].action);
      Move(w.(tables := if stored then tables else w.tables), r,
           if confirmed && result == Ok(true) then Bound(key) else Executed(Refused), Untouched)
    case Steer(r, reply) =>
      var key, action := w.requests[r].stage.key, w.requests[r].action;
      Move(w.(steers := w.steers + if Reached(reply) then [Attempt(key, action, EffectOf(reply))] else []),
           r, AfterSteer(key, reply), EffectOf(reply))
    case ReleaseBinding(r, deleted, confirmed) =>
      var key, action := w.requests[r].stage.key, w.requests[r].action;
      Move(w.(tables := if deleted then ReleaseSteerOf(w.tables, key, action) else w.tables),
           r, Executed(if confirmed then Native(w.requests[r].stage.failure) else UNCONFIRMED), w.requests[r].effect)
    case Delete(r, reply) =>
      var key, action := w.requests[r].stage.key, w.requests[r].action;
      Move(w.(deletes := w.deletes + if Reached(reply) then [Deletion(key, action)] else []),
           r, Executed(AfterDelete(reply)), w.requests[r].effect)
    case SteerDirectly(r, reply) =>
      Move(w, r, Executed(if reply.Success? then Done else Native(reply.failure)), EffectOf(reply))
    case Add(r, reply, interrupted) => Move(w, r, AfterAdd(reply, interrupted), EffectOf(reply))
    case Start(r, reply) => Move(w, r, Executed(AfterStart(reply)), w.requests[r].effect)
    case Execute(r, outcome, effect) => Move(w, r, Executed(outcome), effect)
    case Finish(r, body, now, stored) =>
      var q := w.requests[r];
      var tables := if stored then FinishOf(w.tables, q.action, StatusOf(q.stage.outcome), body, now).0 else w.tables;
      Move(w.(tables := tables), r, Recorded, q.effect)
    case Crash(r, written) =>
      var q := w.requests[r];
      var steers := if written && q.stage.Bound? then [Attempt(q.stage.key, q.action, Maybe)] else [];
      var deletes := if written && q.stage.Delivered? then [Deletion(q.stage.key, q.action)] else [];
      Move(w.(steers := w.steers + steers, deletes := w.deletes + deletes), r, Crashed, CrashEffect(q, written))
  }

  ghost predicate Unfolds(w: System, steps: seq<Step>)
    decreases |steps|
  {
    steps == [] || (Enabled(w, steps[0]) && Unfolds(Next(w, steps[0]), steps[1..]))
  }

  ghost function After(w: System, steps: seq<Step>): System
    requires Unfolds(w, steps)
    decreases |steps|
  {
    if steps == [] then w else After(Next(w, steps[0]), steps[1..])
  }

  // ---------------------------------------------------------------------------------------
  // Invariants.

  /** An unfinished action keeps its uncertain row, so it is never handed out again. */
  ghost predicate Rowed(t: Tables, q: Request) {
    && Known(t, q.action)
    && (!q.stage.Recorded? ==> q.action in t.actions && t.actions[q.action].status == Status.Uncertain)
  }

  /** What a request's stage says about the server. */
  ghost predicate Honest(q: Request) {
    match q.stage
    case Granted => q.effect.Untouched?
    case Bound(_) => q.effect.Untouched?
    case Rebuffed(_, _) => q.effect.Untouched?
    case Executed(outcome) => !q.route.OtherRoute? && !q.effect.Untouched? ==> StatusOf(outcome) != Status.Rejected
    case _ => true
  }

  ghost predicate Settled(t: Tables, q: Request) {
    q.stage.Recorded? && !q.route.OtherRoute? && !q.effect.Untouched? && q.action in t.actions ==>
      t.actions[q.action].status != Status.Rejected
  }

  predicate Holds(stage: Stage) {
    stage.Bound? || stage.Rebuffed? || stage.Delivered?
  }

  ghost predicate Holder(t: Tables, q: Request) {
    Holds(q.stage) ==> q.stage.key in t.steers && t.steers[q.stage.key] == q.action
  }

  ghost predicate Deleter(steers: seq<Attempt>, q: Request) {
    q.stage.Delivered? ==> Attempt(q.stage.key, q.action, Applied) in steers
  }

  ghost predicate RequestsOk(w: System) {
    forall r :: r in w.requests ==>
      Rowed(w.tables, w.requests[r]) && Honest(w.requests[r]) && Settled(w.tables, w.requests[r])
      && Holder(w.tables, w.requests[r]) && Deleter(w.steers, w.requests[r])
  }

  ghost predicate OwnActions(requests: map<Name, Request>) {
    forall j, k :: j in requests && k in requests && requests[j].action == requests[k].action ==> j == k
  }

  /** An attempt not definitely refused keeps its submission bound to its action. */
  ghost predicate AttemptOk(t: Tables, requests: map<Name, Request>, a: Attempt) {
    && Known(t, a.action)
    && (!a.effect.Untouched? ==> a.key in t.steers && t.steers[a.key] == a.action)
    && (forall r :: r in requests && requests[r].action == a.action ==>
          !requests[r].stage.Granted? && !requests[r].stage.Bound? && (requests[r].stage.Rebuffed? ==> a.effect.Untouched?))
  }

  ghost predicate AttemptsOk(w: System) {
    && (forall i :: 0 <= i < |w.steers| ==> AttemptOk(w.tables, w.requests, w.steers[i]))
    && Once(w.steers)
  }

  /** A later attempt on a submission is possible only after a definite refusal. */
  ghost predicate Once(steers: seq<Attempt>) {
    forall i, j :: 0 <= i < j < |steers| && steers[i].key == steers[j].key ==> steers[i].effect.Untouched?
  }

  ghost predicate DeletesOk(w: System) {
    forall i :: 0 <= i < |w.deletes| ==> Attempt(w.deletes[i].key, w.deletes[i].action, Applied) in w.steers
  }

  ghost predicate BindingsOk(t: Tables) {
    forall k :: k in t.steers ==> Known(t, t.steers[k])
  }

  ghost predicate Inv(w: System) {
    && Valid(w.tables) && BindingsOk(w.tables)
    && RequestsOk(w) && OwnActions(w.requests)
    && AttemptsOk(w) && DeletesOk(w)
  }
}
