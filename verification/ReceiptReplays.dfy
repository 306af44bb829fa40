/**
  What a claim answers. A fresh action is granted below the capacity; a repeated one is told what
  its receipt says: not yet confirmed, the stored outcome, or, once retired, that it expired.
*/
module ReceiptReplays {
  import opened Wrappers
  import opened ReceiptTables

  /** Nobody finishes the action. */
  ghost predicate Unfinished(ops: seq<Op>, id: Name) {
    forall k :: 0 <= k < |ops| && ops[k].Finish? ==> ops[k].id != id
  }

  /** A transaction that prunes, more than 30 days after `at`. */
  predicate Late(op: Op, at: int) {
    (op.Open? || op.Claim?) && op.now > at + 2_592_000
  }

  ghost predicate NoneLate(ops: seq<Op>, at: int) {
    forall k :: 0 <= k < |ops| ==> !Late(ops[k], at)
  }

  /** A claim is granted exactly to an unknown action below the capacity, and leaves its unconfirmed row. */
  lemma {:induction false} GrantedExactlyWhen(t: Tables, id: Name, mark: Fingerprint, now: int)
    requires Valid(t)
    ensures var (u, r) := ClaimOf(t, id, mark, now);
            && (r == Ok(None) <==> id !in t.actions && id !in t.retired && |t.actions| + |t.retired| < 100_000)
            && (r == Err(ReceiptCapacity) <==> id !in t.actions && id !in t.retired && |t.actions| + |t.retired| >= 100_000)
            && (r == Ok(None) ==> id in u.actions && u.actions[id] == Row(mark, Status.Uncertain, Unconfirmed(id), now))
  {
    PruneConserves(t, now);
    PruneKeepsIdentity(t, now, id);
  }

  /** A conflicting claim leaves the store as it was. */
  lemma {:induction false} ConflictRollsBack(t: Tables, id: Name, mark: Fingerprint, now: int)
    requires Valid(t) && Known(t, id) && mark != FingerprintOf(t, id)
    ensures ClaimOf(t, id, mark, now) == (t, Err(ActionConflict))
  {
    PruneKeepsIdentity(t, now, id);
  }

  // ---------------------------------------------------------------------------------------
  // The life of a row.

  /** The row is as it was, or its identity is retired. */
  predicate Lives(t: Tables, u: Tables, id: Name)
    requires id in t.actions
  {
    if id in u.actions then u.actions[id] == t.actions[id]
    else id in u.retired && u.retired[id] == t.actions[id].fingerprint
  }

  lemma {:induction false} PrunedRow(t: Tables, now: int, id: Name)
    requires Valid(t) && id in t.actions
    ensures Lives(t, Pruned(t, now), id)
    ensures id in Pruned(t, now).actions <==>
            t.actions[id].status == Status.Uncertain || now <= t.actions[id].updatedAt + 2_592_000
  {
  }

  /** Claiming one action does to the row of another, or of itself, no more than pruning. */
  lemma {:induction false} ClaimRow(t: Tables, claimed: Name, mark: Fingerprint, now: int, id: Name)
    requires Valid(t) && Known(t, id)
    ensures var (u, p) := (ClaimOf(t, claimed, mark, now).0, Pruned(t, now));
            u == t || (u.retired == p.retired && (id in u.actions <==> id in p.actions)
                       && (id in p.actions ==> u.actions[id] == p.actions[id]))
  {
    hide Pruned, Usage;
    PruneKeepsIdentity(t, now, id);
  }

  lemma {:induction false} StepRow(t: Tables, op: Op, id: Name)
    requires Valid(t) && id in t.actions && (op.Finish? ==> op.id != id)
    ensures Lives(t, Apply(t, op), id)
    ensures t.actions[id].status == Status.Uncertain || !Late(op, t.actions[id].updatedAt) ==> id in Apply(t, op).actions
    ensures op.Open? && t.actions[id].status != Status.Uncertain && Late(op, t.actions[id].updatedAt) ==>
              id !in Apply(t, op).actions
  {
    hide Usage, Pruned, ClaimOf;
    if op.Open? || op.Claim? {
      PrunedRow(t, op.now, id);
    }
    if op.Claim? {
      ClaimRow(t, op.id, op.mark, op.now, id);
    }
  }

  lemma {:induction false} StepRetired(t: Tables, op: Op, id: Name)
    requires Valid(t) && id in t.retired
    ensures id in Apply(t, op).retired
  {
    hide Usage, ClaimOf;
    if op.Claim? {
      ClaimRow(t, op.id, op.mark, op.now, id);
    }
  }

  lemma {:induction false} RetiredStays(t: Tables, ops: seq<Op>, id: Name)
    requires Valid(t) && id in t.retired
    ensures id in Run(t, ops).retired && id !in Run(t, ops).actions && Run(t, ops).retired[id] == t.retired[id]
  {
    hide Run, Usage;
    IdentitiesKept(t, ops);
    RetiredIn(t, ops, id);
    assert FingerprintOf(Run(t, ops), id) == FingerprintOf(t, id);
  }

  lemma {:induction false} RetiredIn(t: Tables, ops: seq<Op>, id: Name)
    requires Valid(t) && id in t.retired
    ensures id in Run(t, ops).retired
    decreases |ops|
  {
    hide Apply, Valid;
    if ops != [] {
      StepKeepsValid(t, ops[0]);
      StepRetired(t, ops[0], id);
      RetiredIn(Apply(t, ops[0]), ops[1..], id);
    }
  }

  ghost predicate OpensLate(ops: seq<Op>, at: int) {
    exists k :: 0 <= k < |ops| && ops[k].Open? && Late(ops[k], at)
  }

  lemma {:induction false} RunRow(t: Tables, ops: seq<Op>, id: Name)
    requires Valid(t) && id in t.actions && Unfinished(ops, id)
    ensures Lives(t, Run(t, ops), id)
    ensures t.actions[id].status == Status.Uncertain || NoneLate(ops, t.actions[id].updatedAt) ==> id in Run(t, ops).actions
    ensures t.actions[id].status != Status.Uncertain && OpensLate(ops, t.actions[id].updatedAt) ==> id !in Run(t, ops).actions
    decreases |ops|
  {
    hide Apply, Late, Valid;
    if ops != [] {
      var u := Apply(t, ops[0]);
      StepRow(t, ops[0], id);
      StepKeepsValid(t, ops[0]);
      if id in u.actions {
        RunRow(u, ops[1..], id);
      } else {
        RetiredStays(u, ops[1..], id);
      }
      if OpensLate(ops, t.actions[id].updatedAt) && !(ops[0].Open? && Late(ops[0], t.actions[id].updatedAt)) {
        var k :| 0 < k < |ops| && ops[k].Open? && Late(ops[k], t.actions[id].updatedAt);
        assert ops[1..][k - 1] == ops[k];
      }
    }
  }

  // ---------------------------------------------------------------------------------------
  // Replays.

  /**
    After an action is finished, a claim of it with its own content answers exactly the stored
    outcome as long as its row is kept, and that it expired once it is not. A row is kept for 30
    days of the clocks that prune, and for ever while its outcome is uncertain; one of another
    outcome is gone with the first pruning after that.
  */
  lemma {:induction false} ReplayIsStored(t: Tables, id: Name, status: Status, body: string, at: int, ops: seq<Op>, now: int)
    requires Valid(t) && id in t.actions && Unfinished(ops, id)
    ensures var v := Run(Apply(t, Finish(id, status, body, at)), ops);
            var (w, r) := ClaimOf(v, id, t.actions[id].fingerprint, now);
            && r == Ok(Some(if id in w.actions then Finished(id, status, body) else Expired(id)))
            && (status == Status.Uncertain || (now <= at + 2_592_000 && NoneLate(ops, at)) ==> id in w.actions)
            && (status != Status.Uncertain && (now > at + 2_592_000 || OpensLate(ops, at)) ==> id !in w.actions)
  {
    hide Run, NoneLate, OpensLate, Unfinished, Usage;
    var u := Apply(t, Finish(id, status, body, at));
    var v := Run(u, ops);
    FinishKeepsValid(t, id, status, body, at);
    RunRow(u, ops, id);
    IdentitiesKept(u, ops);
    if id in v.actions {
      PrunedRow(v, now, id);
    }
  }

  /** Until it is finished, a granted action answers its own content with Unconfirmed, and any other with a conflict. */
  lemma {:induction false} UnfinishedReplays(t: Tables, id: Name, mark: Fingerprint, at: int, ops: seq<Op>,
                                             again: Fingerprint, now: int)
    requires Valid(t) && ClaimOf(t, id, mark, at).1 == Ok(None) && Unfinished(ops, id)
    ensures var v := Run(ClaimOf(t, id, mark, at).0, ops);
            ClaimOf(v, id, again, now).1 == if again == mark then Ok(Some(Unconfirmed(id))) else Err(ActionConflict)
  {
    hide Run, NoneLate, OpensLate, Unfinished, Usage, ClaimOf;
    var u := ClaimOf(t, id, mark, at).0;
    GrantedExactlyWhen(t, id, mark, at);
    ClaimKeepsValid(t, id, mark, at);
    RunRow(u, ops, id);
    IdentitiesKept(u, ops);
    UncertainRow(Run(u, ops), id, again, now);
  }

  lemma {:induction false} UncertainRow(t: Tables, id: Name, mark: Fingerprint, now: int)
    requires Valid(t) && id in t.actions && t.actions[id].status == Status.Uncertain
    ensures ClaimOf(t, id, mark, now).1
            == if mark == t.actions[id].fingerprint then Ok(Some(t.actions[id].response)) else Err(ActionConflict)
  {
    hide Usage;
    PrunedRow(t, now, id);
  }

  /** A finish that finds its row stores exactly its outcome; one that does not changes nothing. */
  lemma {:induction false} FinishStores(t: Tables, id: Name, status: Status, body: string, now: int)
    ensures var (u, found) := FinishOf(t, id, status, body, now);
            && (found <==> id in t.actions)
            && (!found ==> u == t)
            && (found ==> u == t.(actions := t.actions[id := Row(t.actions[id].fingerprint, status, Finished(id, status, body), now)]))
  {
  }
}
