/** At-most-once steering and truthful receipts, over every run of module Steering. */
module SteeringProofs {
  import opened Wrappers
  import opened ReceiptTables
  import opened Steering

  // ---------------------------------------------------------------------------------------
  // Tables.

  /** Rows of other identities survive or are retired as they are; bindings do not move. */
  ghost predicate Spares(t: Tables, u: Tables, own: Option<Name>) {
    && (forall id :: Known(t, id) ==> Known(u, id))
    && (forall id :: id in t.actions && t.actions[id].status == Status.Uncertain && Some(id) != own ==>
          id in u.actions && u.actions[id] == t.actions[id])
    && (forall id :: id in u.actions && Some(id) != own ==> id in t.actions && u.actions[id] == t.actions[id])
    && u.steers == t.steers
  }

  lemma {:induction false} PruneSpares(t: Tables, now: int)
    requires Valid(t)
    ensures Spares(t, Pruned(t, now), None) && Valid(Pruned(t, now))
  {
    PruneConserves(t, now);
  }

  lemma {:induction false} InsertSpares(t: Tables, p: Tables, id: Name, row: Row)
    requires Spares(t, p, None)
    ensures Spares(t, p.(actions := p.actions[id := row]), Some(id))
  {
  }

  lemma {:induction false} ClaimSpares(t: Tables, id: Name, mark: Fingerprint, now: int)
    requires Valid(t)
    ensures var (u, result) := ClaimOf(t, id, mark, now);
            && Valid(u)
            && (result == Ok(None) ==> !Known(t, id) && Spares(t, u, Some(id)) && id in u.actions
                                       && u.actions[id].status == Status.Uncertain)
            && (result != Ok(None) ==> Spares(t, u, None))
  {
    hide Pruned, Spares, Valid, Remembers;
    ClaimKeepsValid(t, id, mark, now);
    PruneSpares(t, now);
    SelfSpares(t);
    InsertSpares(t, Pruned(t, now), id, Row(mark, Status.Uncertain, Unconfirmed(id), now));
  }

  lemma {:induction false} SelfSpares(t: Tables)
    ensures Spares(t, t, None)
  {
  }

  lemma {:induction false} FinishSpares(t: Tables, id: Name, status: Status, body: string, now: int)
    requires Valid(t) && id in t.actions
    ensures var u := FinishOf(t, id, status, body, now).0;
            Valid(u) && Spares(t, u, Some(id)) && id in u.actions && u.actions[id].status == status
  {
    FinishKeepsValid(t, id, status, body, now);
  }

  /** A request whose row is spared keeps everything its stage says about the tables. */
  lemma {:induction false} SparedRequest(t: Tables, u: Tables, own: Option<Name>, q: Request)
    requires Spares(t, u, own) && Some(q.action) != own
    requires Rowed(t, q) && Settled(t, q) && Holder(t, q)
    ensures Rowed(u, q) && Settled(u, q) && Holder(u, q)
  {
  }

  lemma {:induction false} SparedAttempt(t: Tables, u: Tables, own: Option<Name>, requests: map<Name, Request>,
                                         a: Attempt)
    requires Spares(t, u, own) && AttemptOk(t, requests, a)
    ensures AttemptOk(u, requests, a)
  {
  }

  /** Changing the rows of nobody's action. */
  lemma {:induction false} TablesOk(w: System, u: Tables, own: Option<Name>)
    requires Inv(w) && Valid(u) && Spares(w.tables, u, own)
    requires forall r :: r in w.requests ==> Some(w.requests[r].action) != own
    ensures Inv(w.(tables := u))
  {
    hide Valid, Spares, Rowed, Settled, Holder, AttemptOk, Once;
    forall r | r in w.requests ensures Rowed(u, w.requests[r]) && Settled(u, w.requests[r]) && Holder(u, w.requests[r]) {
      SparedRequest(w.tables, u, own, w.requests[r]);
    }
    forall i | 0 <= i < |w.steers| ensures AttemptOk(u, w.requests, w.steers[i]) {
      SparedAttempt(w.tables, u, own, w.requests, w.steers[i]);
    }
    SparedBindings(w.tables, u, own);
  }

  lemma {:induction false} SparedBindings(t: Tables, u: Tables, own: Option<Name>)
    requires Spares(t, u, own) && BindingsOk(t)
    ensures BindingsOk(u)
  {
  }

  // ---------------------------------------------------------------------------------------
  // Requests.

  lemma {:induction false} RequestAdded(w: System, r: Name, q: Request)
    requires Inv(w) && r !in w.requests && q.stage.Granted? && q.effect.Untouched?
    requires Rowed(w.tables, q)
    requires forall other :: other in w.requests ==> w.requests[other].action != q.action
    requires forall i :: 0 <= i < |w.steers| ==> w.steers[i].action != q.action
    ensures Inv(w.(requests := w.requests[r := q]))
  {
    hide Valid, Rowed, Settled, Holder, Once;
    var requests := w.requests[r := q];
    assert Settled(w.tables, q) by { NewRequestOk(w.tables, q); }
    assert Holder(w.tables, q) by { NewRequestOk(w.tables, q); }
    forall i | 0 <= i < |w.steers| ensures AttemptOk(w.tables, requests, w.steers[i]) {
      assert AttemptOk(w.tables, w.requests, w.steers[i]);
    }
  }

  lemma {:induction false} NewRequestOk(t: Tables, q: Request)
    requires q.stage.Granted?
    ensures Settled(t, q) && Holder(t, q)
  {
  }

  /** A request moves on without a new attempt. */
  lemma {:induction false} MoveOk(w: System, r: Name, stage: Stage, effect: Effect)
    requires Inv(w) && r in w.requests && !stage.Granted? && !stage.Rebuffed?
    requires stage.Bound? ==> w.requests[r].stage.Granted?
    requires var q := w.requests[r].(stage := stage, effect := effect);
             && Rowed(w.tables, q) && Honest(q) && Settled(w.tables, q) && Holder(w.tables, q) && Deleter(w.steers, q)
    ensures Inv(Move(w, r, stage, effect))
  {
    hide Valid, Rowed, Honest, Settled, Holder, Deleter, Once, BindingsOk;
    var q := w.requests[r].(stage := stage, effect := effect);
    var requests := w.requests[r := q];
    forall i | 0 <= i < |w.steers| ensures AttemptOk(w.tables, requests, w.steers[i]) {
      assert AttemptOk(w.tables, w.requests, w.steers[i]);
    }
    forall j, k | j in requests && k in requests && requests[j].action == requests[k].action ensures j == k {
      assert w.requests[j].action == w.requests[k].action;
    }
  }

  // ---------------------------------------------------------------------------------------
  // Bindings and history.

  /** Rows do not depend on bindings. */
  lemma {:induction false} SameRows(t: Tables, u: Tables, q: Request)
    requires u.actions == t.actions && u.retired == t.retired && Rowed(t, q) && Settled(t, q)
    ensures Rowed(u, q) && Settled(u, q)
  {
  }

  lemma {:induction false} SameKnown(t: Tables, u: Tables)
    requires u.actions == t.actions && u.retired == t.retired
    ensures forall id :: Known(u, id) == Known(t, id)
  {
  }

  lemma {:induction false} BindingAdded(w: System, key: SteerKey, action: Name)
    requires Inv(w) && key !in w.tables.steers && |w.tables.steers| < MAX_IDENTITIES && Known(w.tables, action)
    ensures Inv(w.(tables := w.tables.(steers := w.tables.steers[key := action])))
  {
    hide Valid, Rowed, Settled, Known, Once;
    var u := w.tables.(steers := w.tables.steers[key := action]);
    ClaimSteerKeepsValid(w.tables, key, action);
    SameKnown(w.tables, u);
    forall r | r in w.requests ensures Rowed(u, w.requests[r]) && Settled(u, w.requests[r]) && Holder(u, w.requests[r]) {
      SameRows(w.tables, u, w.requests[r]);
      assert Holder(w.tables, w.requests[r]);
    }
    forall i | 0 <= i < |w.steers| ensures AttemptOk(u, w.requests, w.steers[i]) {
      assert AttemptOk(w.tables, w.requests, w.steers[i]);
    }
  }

  lemma {:induction false} HolderReleased(t: Tables, key: SteerKey, action: Name, q: Request)
    requires Holder(t, q) && (q.action == action ==> !Holds(q.stage))
    ensures Holder(ReleaseSteerOf(t, key, action), q)
  {
  }

  lemma {:induction false} AttemptReleased(t: Tables, key: SteerKey, action: Name, requests: map<Name, Request>,
                                           a: Attempt)
    requires AttemptOk(t, requests, a) && (a.action == action ==> a.effect.Untouched?)
    ensures AttemptOk(ReleaseSteerOf(t, key, action), requests, a)
  {
    SameKnown(t, ReleaseSteerOf(t, key, action));
  }

  lemma {:induction false} BindingsReleased(t: Tables, key: SteerKey, action: Name)
    requires BindingsOk(t)
    ensures BindingsOk(ReleaseSteerOf(t, key, action))
  {
    SameKnown(t, ReleaseSteerOf(t, key, action));
  }

  /** A binding goes away only when nobody holds it and every attempt under it was refused. */
  lemma {:induction false} BindingRemoved(w: System, key: SteerKey, action: Name)
    requires Inv(w)
    requires forall r :: r in w.requests && w.requests[r].action == action ==> !Holds(w.requests[r].stage)
    requires forall i :: 0 <= i < |w.steers| && w.steers[i].action == action ==> w.steers[i].effect.Untouched?
    ensures Inv(w.(tables := ReleaseSteerOf(w.tables, key, action)))
  {
    hide Valid, Rowed, Settled, Known, Once, Holds, Holder, AttemptOk, BindingsOk;
    var u := ReleaseSteerOf(w.tables, key, action);
    ReleaseSteerKeepsValid(w.tables, key, action);
    BindingsReleased(w.tables, key, action);
    forall r | r in w.requests ensures Rowed(u, w.requests[r]) && Settled(u, w.requests[r]) && Holder(u, w.requests[r]) {
      SameRows(w.tables, u, w.requests[r]);
      HolderReleased(w.tables, key, action, w.requests[r]);
    }
    forall i | 0 <= i < |w.steers| ensures AttemptOk(u, w.requests, w.steers[i]) {
      AttemptReleased(w.tables, key, action, w.requests, w.steers[i]);
    }
  }

  lemma {:induction false} DeletionLogged(w: System, d: Deletion)
    requires Inv(w) && Attempt(d.key, d.action, Applied) in w.steers
    ensures Inv(w.(deletes := w.deletes + [d]))
  {
    hide Valid, Rowed, Honest, Settled, Holder, Deleter, AttemptOk, Once, BindingsOk;
    var deletes := w.deletes + [d];
    assert forall i :: 0 <= i < |w.deletes| ==> deletes[i] == w.deletes[i];
  }

  /** The holder of a binding makes its one attempt. */
  lemma {:induction false} AttemptLogged(w: System, r: Name, effect: Effect, stage: Stage, after: Effect)
    requires Inv(w) && r in w.requests && w.requests[r].stage.Bound?
    requires !stage.Granted? && !stage.Bound? && (stage.Rebuffed? ==> effect.Untouched?)
    requires var q := w.requests[r];
             var a := Attempt(q.stage.key, q.action, effect);
             var q' := q.(stage := stage, effect := after);
             && Rowed(w.tables, q') && Honest(q') && Settled(w.tables, q') && Holder(w.tables, q')
             && Deleter(w.steers + [a], q')
    ensures var q := w.requests[r];
            Inv(Move(w.(steers := w.steers + [Attempt(q.stage.key, q.action, effect)]), r, stage, after))
  {
    hide Valid, Rowed, Honest, Settled, BindingsOk;
    var q := w.requests[r];
    var a := Attempt(q.stage.key, q.action, effect);
    var q' := q.(stage := stage, effect := after);
    var requests, steers := w.requests[r := q'], w.steers + [a];
    assert Holder(w.tables, q) && Rowed(w.tables, q);
    KnownRow(w.tables, q);
    forall i | 0 <= i < |w.steers| ensures AttemptOk(w.tables, requests, w.steers[i]) {
      assert AttemptOk(w.tables, w.requests, w.steers[i]);
    }
    OwnKept(w.requests, r, q');
    assert AttemptOk(w.tables, requests, a);
    forall i | 0 <= i < |steers| ensures AttemptOk(w.tables, requests, steers[i]) {
      if i < |w.steers| { assert AttemptOk(w.tables, requests, w.steers[i]); }
    }
    BoundOnce(w, r, a);
    forall k | k in requests ensures Deleter(steers, requests[k]) {
      if k != r { assert Deleter(w.steers, w.requests[k]); }
    }
    forall i | 0 <= i < |w.deletes| ensures Attempt(w.deletes[i].key, w.deletes[i].action, Applied) in steers {
      assert Attempt(w.deletes[i].key, w.deletes[i].action, Applied) in w.steers;
    }
  }

  lemma {:induction false} KnownRow(t: Tables, q: Request)
    requires Rowed(t, q)
    ensures Known(t, q.action)
  {
  }

  lemma {:induction false} OwnKept(requests: map<Name, Request>, r: Name, q: Request)
    requires OwnActions(requests) && r in requests && q.action == requests[r].action
    ensures OwnActions(requests[r := q])
  {
    forall j, k | j in requests && k in requests && requests[r := q][j].action == requests[r := q][k].action ensures j == k {
      assert requests[j].action == requests[k].action;
    }
  }

  /** Earlier attempts on a bound submission were all refused. */
  lemma {:induction false} BoundOnce(w: System, r: Name, a: Attempt)
    requires Inv(w) && r in w.requests && w.requests[r].stage.Bound?
    requires a.key == w.requests[r].stage.key && a.action == w.requests[r].action
    ensures Once(w.steers + [a])
  {
    hide Valid, Rowed, Honest, Settled, BindingsOk, Deleter;
    var steers := w.steers + [a];
    assert Holder(w.tables, w.requests[r]);
    forall i, j | 0 <= i < j < |steers| && steers[i].key == steers[j].key ensures steers[i].effect.Untouched? {
      assert AttemptOk(w.tables, w.requests, w.steers[i]);
      if j < |w.steers| {
        assert w.steers[i].key == w.steers[j].key;
      }
    }
  }

  // ---------------------------------------------------------------------------------------
  // Every step keeps the invariant.

  lemma {:induction false} ClaimOk(w: System, s: Step)
    requires Inv(w) && Enabled(w, s) && s.Claim?
    ensures Inv(Next(w, s))
  {
    hide Valid, Settled, Holder, Honest, Deleter, Once, ClaimOf, BindingsOk, DeletesOk;
    var (u, result) := ClaimOf(w.tables, s.action, s.mark, s.now);
    ClaimSpares(w.tables, s.action, s.mark, s.now);
    if result == Ok(None) {
      forall r | r in w.requests ensures w.requests[r].action != s.action {
        assert Rowed(w.tables, w.requests[r]);
      }
      forall i | 0 <= i < |w.steers| ensures w.steers[i].action != s.action {
        assert AttemptOk(w.tables, w.requests, w.steers[i]);
      }
      TablesOk(w, u, Some(s.action));
      RequestAdded(w.(tables := u), s.r, Request(s.action, s.route, Granted, Untouched));
    } else {
      TablesOk(w, u, None);
    }
  }

  /** Moves to a stage that claims nothing about the tables. */
  lemma {:induction false} EndOk(w: System, r: Name, stage: Stage, effect: Effect)
    requires Inv(w) && r in w.requests && !w.requests[r].stage.Recorded?
    requires stage.Executed? || stage.Crashed? || stage.Queued?
    requires Honest(w.requests[r].(stage := stage, effect := effect))
    ensures Inv(Move(w, r, stage, effect))
  {
    hide Valid, Honest, AttemptsOk, DeletesOk, OwnActions, BindingsOk;
    assert Rowed(w.tables, w.requests[r]);
    MoveOk(w, r, stage, effect);
  }

  lemma {:induction false} BindOk(w: System, s: Step)
    requires Inv(w) && Enabled(w, s) && s.Bind?
    ensures Inv(Next(w, s))
  {
    hide Valid, AttemptsOk, DeletesOk, OwnActions, BindingsOk, Settled;
    var q := w.requests[s.r];
    var (u, result) := ClaimSteerOf(w.tables, s.key, q.action);
    assert Rowed(w.tables, q) && Honest(q);
    var v := w.(tables := if s.stored then u else w.tables);
    if s.stored && result == Ok(true) {
      BindingAdded(w, s.key, q.action);
    }
    if s.confirmed && result == Ok(true) {
      assert Rowed(u, q) && Settled(u, q.(stage := Bound(s.key), effect := Untouched)) by { BoundSettled(u, q, s.key); }
      MoveOk(v, s.r, Bound(s.key), Untouched);
    } else {
      EndOk(v, s.r, Executed(Refused), Untouched);
    }
  }

  lemma {:induction false} BoundSettled(t: Tables, q: Request, key: SteerKey)
    ensures Settled(t, q.(stage := Bound(key), effect := Untouched))
  {
  }

  lemma {:induction false} SteerOk(w: System, s: Step)
    requires Inv(w) && Enabled(w, s) && s.Steer?
    ensures Inv(Next(w, s))
  {
    hide Valid, AttemptsOk, DeletesOk, OwnActions, BindingsOk, Once;
    var q := w.requests[s.r];
    var stage, effect := AfterSteer(q.stage.key, s.reply), EffectOf(s.reply);
    assert Rowed(w.tables, q) && Honest(q) && Holder(w.tables, q);
    if Reached(s.reply) {
      AttemptLogged(w, s.r, effect, stage, effect);
    } else {
      assert w.steers + [] == w.steers;
      UnsentOk(w, s.r, s.reply.failure);
    }
  }

  /** A call that never left the worker leaves no attempt. */
  lemma {:induction false} UnsentOk(w: System, r: Name, failure: Failure)
    requires Inv(w) && r in w.requests && w.requests[r].stage.Bound?
    ensures Inv(Move(w, r, Rebuffed(w.requests[r].stage.key, failure), Untouched))
  {
    hide Valid, Once, BindingsOk;
    var q := w.requests[r].(stage := Rebuffed(w.requests[r].stage.key, failure), effect := Untouched);
    assert Rowed(w.tables, w.requests[r]) && Holder(w.tables, w.requests[r]);
    OwnKept(w.requests, r, q);
    forall i | 0 <= i < |w.steers| ensures AttemptOk(w.tables, w.requests[r := q], w.steers[i]) {
      assert AttemptOk(w.tables, w.requests, w.steers[i]);
    }
  }

  lemma {:induction false} ReleaseOk(w: System, s: Step)
    requires Inv(w) && Enabled(w, s) && s.ReleaseBinding?
    ensures Inv(Next(w, s))
  {
    hide Valid, BindingsOk, DeletesOk, Settled, Once;
    var q := w.requests[s.r];
    var outcome := if s.confirmed then Native(q.stage.failure) else UNCONFIRMED;
    assert Honest(q);
    forall i | 0 <= i < |w.steers| && w.steers[i].action == q.action ensures w.steers[i].effect.Untouched? {
      assert AttemptOk(w.tables, w.requests, w.steers[i]);
    }
    EndOk(w, s.r, Executed(outcome), q.effect);
    var v := Move(w, s.r, Executed(outcome), q.effect);
    if s.deleted {
      forall r | r in v.requests && v.requests[r].action == q.action ensures !Holds(v.requests[r].stage) {
        assert r in w.requests && w.requests[r].action == w.requests[s.r].action;
      }
      BindingRemoved(v, q.stage.key, q.action);
    }
  }

  lemma {:induction false} DeleteOk(w: System, s: Step)
    requires Inv(w) && Enabled(w, s) && s.Delete?
    ensures Inv(Next(w, s))
  {
    hide Valid, BindingsOk, AttemptsOk, OwnActions, Rowed, Settled, Holder;
    var q := w.requests[s.r];
    assert Deleter(w.steers, q);
    var v := if Reached(s.reply) then w.(deletes := w.deletes + [Deletion(q.stage.key, q.action)]) else w;
    if Reached(s.reply) {
      DeletionLogged(w, Deletion(q.stage.key, q.action));
    } else {
      assert w.deletes + [] == w.deletes;
    }
    EndOk(v, s.r, Executed(AfterDelete(s.reply)), q.effect);
  }

  lemma {:induction false} FinishOk(w: System, s: Step)
    requires Inv(w) && Enabled(w, s) && s.Finish?
    ensures Inv(Next(w, s))
  {
    hide Valid, BindingsOk, DeletesOk, Once, FinishOf;
    var q := w.requests[s.r];
    var status := StatusOf(q.stage.outcome);
    assert Rowed(w.tables, q) && Honest(q);
    if s.stored {
      RecordedOk(w, s.r, status, s.body, s.now);
    } else {
      var q' := q.(stage := Recorded);
      assert Settled(w.tables, q');
      MoveOk(w, s.r, Recorded, q.effect);
    }
  }

  lemma {:induction false} RecordedOk(w: System, r: Name, status: Status, body: string, now: int)
    requires Inv(w) && r in w.requests && w.requests[r].stage.Executed?
    requires status == StatusOf(w.requests[r].stage.outcome)
    ensures Inv(Move(w.(tables := FinishOf(w.tables, w.requests[r].action, status, body, now).0), r, Recorded, w.requests[r].effect))
  {
    hide Valid, BindingsOk, DeletesOk, Once, FinishOf, Spares;
    var q := w.requests[r];
    assert Rowed(w.tables, q) && Honest(q);
    var u := FinishOf(w.tables, q.action, status, body, now).0;
    FinishSpares(w.tables, q.action, status, body, now);
    RecordedRequest(w.tables, u, q, status);
    var q' := q.(stage := Recorded);
    var requests := w.requests[r := q'];
    OwnKept(w.requests, r, q');
    forall k | k in requests
      ensures Rowed(u, requests[k]) && Settled(u, requests[k]) && Holder(u, requests[k]) && Honest(requests[k])
              && Deleter(w.steers, requests[k])
    {
      if k != r {
        assert w.requests[k].action != q.action;
        SparedRequest(w.tables, u, Some(q.action), w.requests[k]);
      }
    }
    forall i | 0 <= i < |w.steers| ensures AttemptOk(u, requests, w.steers[i]) {
      SparedAttempt(w.tables, u, Some(q.action), w.requests, w.steers[i]);
    }
    SparedBindings(w.tables, u, Some(q.action));
    var v := Move(w.(tables := u), r, Recorded, q.effect);
    assert v.requests == requests && v.steers == w.steers;
    assert RequestsOk(v);
    assert AttemptsOk(v);
    assert DeletesOk(v) by { SameDeletes(w, v); }
  }

  lemma {:induction false} SameDeletes(w: System, v: System)
    requires DeletesOk(w) && v.steers == w.steers && v.deletes == w.deletes
    ensures DeletesOk(v)
  {
  }

  lemma {:induction false} RecordedRequest(t: Tables, u: Tables, q: Request, status: Status)
    requires q.stage.Executed? && status == StatusOf(q.stage.outcome) && Honest(q) && Rowed(t, q)
    requires Spares(t, u, Some(q.action)) && q.action in u.actions && u.actions[q.action].status == status
    ensures Rowed(u, q.(stage := Recorded)) && Settled(u, q.(stage := Recorded))
  {
  }

  lemma {:induction false} CrashOk(w: System, s: Step)
    requires Inv(w) && Enabled(w, s) && s.Crash?
    ensures Inv(Next(w, s))
  {
    hide Valid, BindingsOk, AttemptsOk, OwnActions, DeletesOk, Settled, Once;
    var q := w.requests[s.r];
    assert Rowed(w.tables, q) && Holder(w.tables, q) && Deleter(w.steers, q);
    var effect := CrashEffect(q, s.written);
    CrashedSettled(w.tables, q, effect);
    assert w.steers + [] == w.steers && w.deletes + [] == w.deletes;
    if s.written && q.stage.Bound? {
      AttemptLogged(w, s.r, Maybe, Crashed, Maybe);
    } else if s.written && q.stage.Delivered? {
      DeletionLogged(w, Deletion(q.stage.key, q.action));
      EndOk(w.(deletes := w.deletes + [Deletion(q.stage.key, q.action)]), s.r, Crashed, effect);
    } else {
      EndOk(w, s.r, Crashed, effect);
    }
  }

  lemma {:induction false} CrashedSettled(t: Tables, q: Request, effect: Effect)
    ensures Settled(t, q.(stage := Crashed, effect := effect)) && Honest(q.(stage := Crashed, effect := effect))
  {
  }

  lemma {:induction false} NextOk(w: System, s: Step)
    requires Inv(w) && Enabled(w, s)
    ensures Inv(Next(w, s))
  {
    hide Valid, BindingsOk, AttemptsOk, OwnActions, DeletesOk, Rowed, Settled, Holder, Deleter;
    match s
    case Restart(now) =>
      PruneSpares(w.tables, now);
      TablesOk(w, Pruned(w.tables, now), None);
    case Claim(_, _, _, _, _) => ClaimOk(w, s);
    case Bind(_, _, _, _) => BindOk(w, s);
    case Steer(_, _) => SteerOk(w, s);
    case ReleaseBinding(_, _, _) => ReleaseOk(w, s);
    case Delete(_, _) => DeleteOk(w, s);
    case Finish(_, _, _, _) => FinishOk(w, s);
    case Crash(_, _) => CrashOk(w, s);
    case Fail(r, outcome) =>
      assert Honest(w.requests[r]);
      EndOk(w, r, Executed(outcome), w.requests[r].effect);
    case SteerDirectly(r, reply) =>
      EndOk(w, r, Executed(if reply.Success? then Done else Native(reply.failure)), EffectOf(reply));
    case Add(r, reply, interrupted) => EndOk(w, r, AfterAdd(reply, interrupted), EffectOf(reply));
    case Start(r, reply) => EndOk(w, r, Executed(AfterStart(reply)), w.requests[r].effect);
    case Execute(r, outcome, effect) => EndOk(w, r, Executed(outcome), effect);
  }

  lemma {:induction false} NewOk()
    ensures Inv(NEW)
  {
  }

  lemma {:induction false} RunOk(w: System, steps: seq<Step>)
    requires Inv(w) && Unfolds(w, steps)
    ensures Inv(After(w, steps))
    decreases |steps|
  {
    hide Inv, Enabled, Next;
    if steps != [] {
      NextOk(w, steps[0]);
      RunOk(Next(w, steps[0]), steps[1..]);
    }
  }

  // ---------------------------------------------------------------------------------------
  // At-most-once steering.

  /**
    Over any number of devices, gateways, crashes and restarts: of two `turn/steer` requests for
    one queued submission the earlier was definitely refused. So at most one can have had effect.
  */
  lemma {:induction false} SteeredAtMostOnce(steps: seq<Step>, i: nat, j: nat)
    requires Unfolds(NEW, steps)
    requires i < j < |After(NEW, steps).steers| && After(NEW, steps).steers[i].key == After(NEW, steps).steers[j].key
    ensures After(NEW, steps).steers[i].effect.Untouched?
  {
    hide After, Unfolds, RequestsOk, Valid, OwnActions, DeletesOk, BindingsOk;
    NewOk();
    RunOk(NEW, steps);
  }

  /** The submission is bound to an action that will not release it. */
  ghost predicate Sealed(w: System, key: SteerKey) {
    && key in w.tables.steers && Known(w.tables, w.tables.steers[key])
    && (forall r :: r in w.requests && w.requests[r].action == w.tables.steers[key] ==>
          !w.requests[r].stage.Granted? && !w.requests[r].stage.Bound? && !w.requests[r].stage.Rebuffed?)
  }

  /**
    A submission is sealed as soon as the request that bound it was accepted, left uncertain or
    crashed, that is once it is neither about to steer nor about to release.
  */
  lemma {:induction false} SettledSeals(w: System, r: Name, key: SteerKey)
    requires Inv(w) && r in w.requests
    requires key in w.tables.steers && w.tables.steers[key] == w.requests[r].action
    requires var stage := w.requests[r].stage;
             stage.Delivered? || stage.Executed? || stage.Recorded? || stage.Crashed?
    ensures Sealed(w, key)
  {
    hide Valid, AttemptsOk, DeletesOk;
    forall k | k in w.requests && w.requests[k].action == w.tables.steers[key] ensures k == r {
    }
    assert Rowed(w.tables, w.requests[r]);
  }

  lemma {:induction false} SealKept(w: System, s: Step, key: SteerKey)
    requires Inv(w) && Enabled(w, s) && Sealed(w, key)
    ensures Sealed(Next(w, s), key)
    ensures var (a, b) := (w.steers, Next(w, s).steers);
            |a| <= |b| && b[..|a|] == a && forall i :: |a| <= i < |b| ==> b[i].key != key
  {
    hide Valid, AttemptsOk, DeletesOk, OwnActions, Rowed, Honest, Settled, Deleter, BindingsOk, Known, Pruned,
         ClaimOf, FinishOf;
    if s.Restart? {
      PruneSpares(w.tables, s.now);
    } else if s.Claim? {
      ClaimSpares(w.tables, s.action, s.mark, s.now);
    } else if s.Finish? {
      assert Rowed(w.tables, w.requests[s.r]);
      FinishedKeepsBindings(w, s.r, StatusOf(w.requests[s.r].stage.outcome), s.body, s.now);
    } else if s.Bind? || s.Steer? || s.ReleaseBinding? || s.Crash? {
      assert Holder(w.tables, w.requests[s.r]);
      BindingKnown(w, s);
    }
  }

  lemma {:induction false} FinishedKeepsBindings(w: System, r: Name, status: Status, body: string, now: int)
    requires r in w.requests
    ensures var u := FinishOf(w.tables, w.requests[r].action, status, body, now).0;
            u.steers == w.tables.steers && forall id :: Known(w.tables, id) ==> Known(u, id)
  {
  }

  lemma {:induction false} BindingKnown(w: System, s: Step)
    requires Enabled(w, s) && (s.Bind? || s.Steer? || s.ReleaseBinding? || s.Crash?)
    ensures forall id :: Known(w.tables, id) ==> Known(Next(w, s).tables, id)
  {
  }

  /** Nothing ever steers a sealed submission again. */
  lemma {:induction false} SealedForEver(w: System, steps: seq<Step>, key: SteerKey)
    requires Inv(w) && Unfolds(w, steps) && Sealed(w, key)
    ensures Sealed(After(w, steps), key)
    ensures var (a, b) := (w.steers, After(w, steps).steers);
            |a| <= |b| && b[..|a|] == a && forall i :: |a| <= i < |b| ==> b[i].key != key
    decreases |steps|
  {
    hide Inv, Enabled, Next, Sealed;
    if steps != [] {
      var v := Next(w, steps[0]);
      SealKept(w, steps[0], key);
      NextOk(w, steps[0]);
      SealedForEver(v, steps[1..], key);
      var b := After(w, steps).steers;
      assert b[..|w.steers|] == v.steers[..|w.steers|];
      forall i | |w.steers| <= i < |b| ensures b[i].key != key {
        if i < |v.steers| { assert b[..|v.steers|][i] == v.steers[i]; }
      }
    }
  }

  /** The queued copy is deleted only after the server accepted this very action's steer. */
  lemma {:induction false} DeletedOnlyAfterAcceptance(steps: seq<Step>, i: nat)
    requires Unfolds(NEW, steps) && i < |After(NEW, steps).deletes|
    ensures var d := After(NEW, steps).deletes[i]; Attempt(d.key, d.action, Applied) in After(NEW, steps).steers
  {
    hide After, Unfolds, RequestsOk, Valid, OwnActions, AttemptsOk, BindingsOk;
    NewOk();
    RunOk(NEW, steps);
  }

  // ---------------------------------------------------------------------------------------
  // Truthful receipts.

  /**
    For `send` and `queue/steer`: if the server applied, or may have applied, the addition or the
    steer, the stored receipt never says rejected, whatever the later calls answered, whether or
    not the outcome could be stored, and across restarts.
  */
  lemma {:induction false} ReceiptsAreTruthful(steps: seq<Step>, r: Name)
    requires Unfolds(NEW, steps) && r in After(NEW, steps).requests
    requires var q := After(NEW, steps).requests[r]; !q.route.OtherRoute? && !q.effect.Untouched?
    ensures var w := After(NEW, steps);
            var q := w.requests[r];
            && Known(w.tables, q.action)
            && (q.action in w.tables.actions ==> w.tables.actions[q.action].status != Status.Rejected)
  {
    hide After, Unfolds, Valid, OwnActions, AttemptsOk, BindingsOk, DeletesOk;
    NewOk();
    RunOk(NEW, steps);
    var w := After(NEW, steps);
    assert Rowed(w.tables, w.requests[r]) && Settled(w.tables, w.requests[r]);
  }
}
