/**
  The durable identity store (claude-monitor-codex/src/receipts.rs).

  Three SQLite tables are maps; each transaction is one atomic method. A fingerprint is the
  hashed triple itself, so it is injective. `now` is the database clock, read once per
  transaction; nothing is assumed of it, not even that it moves forward.
*/
module ReceiptTables {
  import opened Wrappers

  const RETAIN_SECONDS: int := 30 * 24 * 60 * 60
  const MAX_IDENTITIES: nat := 100_000

  datatype Status = Uncertain | Accepted | Rejected

  datatype Fingerprint = Fingerprint(endpoint: Name, route: Name, payload: Name)

  datatype Response =
    | Unconfirmed(actionId: Name)
    | Expired(actionId: Name)
    | Finished(actionId: Name, status: Status, body: string)

  datatype Row = Row(fingerprint: Fingerprint, status: Status, response: Response, updatedAt: int)

  datatype SteerKey = SteerKey(endpoint: Name, thread: Name, submission: Name)

  datatype Tables = Tables(
    actions: map<Name, Row>,
    retired: map<Name, Fingerprint>,
    steers: map<SteerKey, Name>)

  const EMPTY := Tables(map[], map[], map[])

  datatype ClaimError = ActionConflict | ReceiptCapacity

  /** `Ok(None)` means the caller owns the action and may deliver it. */
  type ClaimResult = Result<Option<Response>, ClaimError>

  predicate Prunable(row: Row, cutoff: int) {
    row.status != Status.Uncertain && row.updatedAt < cutoff
  }

  /** INSERT OR IGNORE into the retired table, then DELETE, under one cutoff. */
  function Pruned(t: Tables, now: int): Tables {
    var cutoff := now - RETAIN_SECONDS;
    var moved := map id | id in t.actions && Prunable(t.actions[id], cutoff) && id !in t.retired
                   :: t.actions[id].fingerprint;
    var kept := map id | id in t.actions && !Prunable(t.actions[id], cutoff) :: t.actions[id];
    t.(retired := t.retired + moved, actions := kept)
  }

  predicate Known(t: Tables, id: Name) {
    id in t.actions || id in t.retired
  }

  function FingerprintOf(t: Tables, id: Name): Fingerprint
    requires Known(t, id)
  {
    if id in t.retired then t.retired[id] else t.actions[id].fingerprint
  }

  function Usage(t: Tables): nat {
    |t.actions| + |t.retired|
  }

  /**
    One `claim` transaction. A conflict drops the transaction, which rolls the prune back;
    the other outcomes commit it.
  */
  function ClaimOf(t: Tables, id: Name, mark: Fingerprint, now: int): (Tables, ClaimResult) {
    var p := Pruned(t, now);
    if id in p.retired then
      if p.retired[id] != mark then (t, Err(ActionConflict)) else (p, Ok(Some(Expired(id))))
    else if id in p.actions then
      if p.actions[id].fingerprint != mark then (t, Err(ActionConflict))
      else (p, Ok(Some(p.actions[id].response)))
    else if Usage(p) >= MAX_IDENTITIES then (p, Err(ReceiptCapacity))
    else (p.(actions := p.actions[id := Row(mark, Status.Uncertain, Unconfirmed(id), now)]), Ok(None))
  }

  function FinishOf(t: Tables, id: Name, status: Status, body: string, now: int): (Tables, bool) {
    if id in t.actions then
      var row := t.actions[id].(status := status, response := Finished(id, status, body), updatedAt := now);
      (t.(actions := t.actions[id := row]), true)
    else (t, false)
  }

  function ClaimSteerOf(t: Tables, key: SteerKey, action: Name): (Tables, Result<bool, ClaimError>) {
    if key in t.steers then (t, Ok(false))
    else if |t.steers| >= MAX_IDENTITIES then (t, Err(ReceiptCapacity))
    else (t.(steers := t.steers[key := action]), Ok(true))
  }

  function ReleaseSteerOf(t: Tables, key: SteerKey, action: Name): Tables {
    if key in t.steers && t.steers[key] == action then t.(steers := t.steers - {key}) else t
  }

  /** The store as one process sees it: every method below is one SQLite transaction. */
  class Receipts {
    var actions: map<Name, Row>
    var retired: map<Name, Fingerprint>
    var steers: map<SteerKey, Name>

    function Snap(): Tables
      reads this
    {
      Tables(actions, retired, steers)
    }

    /** `open` on an existing database: the tables survive and one prune runs. */
    constructor Open(stored: Tables, now: int)
      ensures Snap() == Pruned(stored, now)
    {
      var p := Pruned(stored, now);
      actions, retired, steers := p.actions, p.retired, p.steers;
    }

    method Prune(now: int)
      modifies this`actions, this`retired
      ensures Snap() == Pruned(old(Snap()), now)
    {
      var cutoff := now - RETAIN_SECONDS;
      var before := Pruned(Snap(), now);
      retired := retired + map id | id in actions && Prunable(actions[id], cutoff) && id !in retired
                     :: actions[id].fingerprint;
      actions := map id | id in actions && !Prunable(actions[id], cutoff) :: actions[id];
      assert actions == before.actions && retired == before.retired;
    }

    method Claim(id: Name, mark: Fingerprint, now: int) returns (r: ClaimResult)
      modifies this`actions, this`retired
      ensures (Snap(), r) == ClaimOf(old(Snap()), id, mark, now)
    {
      var savedActions, savedRetired := actions, retired;
      Prune(now);
      if id in retired {
        if retired[id] != mark {
          actions, retired := savedActions, savedRetired;
          return Err(ActionConflict);
        }
        return Ok(Some(Expired(id)));
      }
      if id in actions {
        if actions[id].fingerprint != mark {
          actions, retired := savedActions, savedRetired;
          return Err(ActionConflict);
        }
        return Ok(Some(actions[id].response));
      }
      if |actions| + |retired| >= MAX_IDENTITIES {
        return Err(ReceiptCapacity);
      }
      actions := actions[id := Row(mark, Status.Uncertain, Unconfirmed(id), now)];
      r := Ok(None);
    }

    method Finish(id: Name, status: Status, body: string, now: int) returns (found: bool)
      modifies this`actions
      ensures (Snap(), found) == FinishOf(old(Snap()), id, status, body, now)
    {
      found := id in actions;
      if found {
        actions := actions[id := actions[id].(status := status,
                                              response := Finished(id, status, body),
                                              updatedAt := now)];
      }
    }

    method ClaimQueueSteer(key: SteerKey, action: Name) returns (r: Result<bool, ClaimError>)
      modifies this`steers
      ensures (Snap(), r) == ClaimSteerOf(old(Snap()), key, action)
    {
      if key in steers {
        return Ok(false);
      }
      if |steers| >= MAX_IDENTITIES {
        return Err(ReceiptCapacity);
      }
      steers := steers[key := action];
      r := Ok(true);
    }

    method ReleaseQueueSteer(key: SteerKey, action: Name)
      modifies this`steers
      ensures Snap() == ReleaseSteerOf(old(Snap()), key, action)
    {
      if key in steers && steers[key] == action {
        steers := steers - {key};
      }
    }

    /** `lookup` inspects a receipt without claiming anything. */
    method Lookup(id: Name) returns (r: Option<Response>)
      ensures r.None? <==> !Known(Snap(), id)
      ensures id in actions ==> r == Some(actions[id].response)
      ensures id !in actions && id in retired ==> r == Some(Expired(id))
    {
      if id in actions {
        r := Some(actions[id].response);
      } else if id in retired {
        r := Some(Expired(id));
      } else {
        r := None;
      }
    }
  }

  // ---------------------------------------------------------------------------------------
  // Runs: any sequence of transactions by any number of processes sharing the store.

  datatype Op =
    | Open(now: int)
    | Claim(id: Name, mark: Fingerprint, now: int)
    | Finish(id: Name, status: Status, body: string, now: int)
    | ClaimSteer(key: SteerKey, action: Name)
    | ReleaseSteer(key: SteerKey, action: Name)

  function Apply(t: Tables, op: Op): Tables {
    match op
    case Open(now) => Pruned(t, now)
    case Claim(id, mark, now) => ClaimOf(t, id, mark, now).0
    case Finish(id, status, body, now) => FinishOf(t, id, status, body, now).0
    case ClaimSteer(key, action) => ClaimSteerOf(t, key, action).0
    case ReleaseSteer(key, action) => ReleaseSteerOf(t, key, action)
  }

  function Run(t: Tables, ops: seq<Op>): Tables
    decreases |ops|
  {
    if ops == [] then t else Run(Apply(t, ops[0]), ops[1..])
  }

  /** Whether this operation is a claim of `id` that hands the action to its caller. */
  predicate Grants(t: Tables, op: Op, id: Name) {
    op.Claim? && op.id == id && ClaimOf(t, id, op.mark, op.now).1 == Ok(None)
  }

  function Grantings(t: Tables, ops: seq<Op>, id: Name): nat
    decreases |ops|
  {
    if ops == [] then 0
    else (if Grants(t, ops[0], id) then 1 else 0) + Grantings(Apply(t, ops[0]), ops[1..], id)
  }

  ghost predicate Valid(t: Tables) {
    && t.actions.Keys !! t.retired.Keys
    && Usage(t) <= MAX_IDENTITIES
    && |t.steers| <= MAX_IDENTITIES
  }

  /** From `t` to `u` no identity is forgotten and none changes its fingerprint. */
  ghost predicate Remembers(t: Tables, u: Tables) {
    forall id :: Known(t, id) ==> Known(u, id) && FingerprintOf(u, id) == FingerprintOf(t, id)
  }

  lemma {:induction false} PruneKeepsIdentity(t: Tables, now: int, id: Name)
    requires t.actions.Keys !! t.retired.Keys
    ensures Known(Pruned(t, now), id) <==> Known(t, id)
    ensures Known(t, id) ==> FingerprintOf(Pruned(t, now), id) == FingerprintOf(t, id)
  {
  }

  lemma {:induction false} SameUsage(t: Tables, p: Tables)
    requires t.actions.Keys !! t.retired.Keys && p.actions.Keys !! p.retired.Keys
    requires p.actions.Keys + p.retired.Keys == t.actions.Keys + t.retired.Keys
    ensures Usage(p) == Usage(t)
  {
    assert |t.actions.Keys + t.retired.Keys| == |t.actions.Keys| + |t.retired.Keys|;
    assert |p.actions.Keys + p.retired.Keys| == |p.actions.Keys| + |p.retired.Keys|;
  }

  lemma {:induction false} PruneKeepsTables(t: Tables, now: int)
    requires t.actions.Keys !! t.retired.Keys
    ensures Pruned(t, now).actions.Keys !! Pruned(t, now).retired.Keys
    ensures Pruned(t, now).actions.Keys + Pruned(t, now).retired.Keys == t.actions.Keys + t.retired.Keys
  {
  }

  lemma {:induction false} PruneRemembers(t: Tables, now: int)
    requires t.actions.Keys !! t.retired.Keys
    ensures Remembers(t, Pruned(t, now))
  {
    forall id | Known(t, id)
      ensures Known(Pruned(t, now), id) && FingerprintOf(Pruned(t, now), id) == FingerprintOf(t, id)
    {
      PruneKeepsIdentity(t, now, id);
    }
  }

  /** Pruning moves identities, it neither loses nor invents one. */
  lemma {:induction false} PruneConserves(t: Tables, now: int)
    requires t.actions.Keys !! t.retired.Keys
    ensures Pruned(t, now).actions.Keys !! Pruned(t, now).retired.Keys
    ensures Usage(Pruned(t, now)) == Usage(t)
    ensures Remembers(t, Pruned(t, now))
  {
    PruneKeepsTables(t, now);
    PruneRemembers(t, now);
    SameUsage(t, Pruned(t, now));
  }

  lemma {:induction false} PruneSparesUncertain(t: Tables, now: int, id: Name)
    requires id in t.actions && t.actions[id].status == Status.Uncertain
    ensures id in Pruned(t, now).actions && Pruned(t, now).actions[id] == t.actions[id]
  {
  }

  lemma {:induction false} MapGrows<K, V>(m: map<K, V>, k: K, v: V)
    requires k !in m
    ensures |m[k := v]| == |m| + 1
  {
    assert m[k := v].Keys == m.Keys + {k};
  }

  lemma {:induction false} MapShrinks<K, V>(m: map<K, V>, k: K)
    ensures |m - {k}| <= |m|
  {
    assert (m - {k}).Keys == m.Keys - {k};
  }

  lemma {:induction false} InsertRemembers(p: Tables, id: Name, row: Row)
    requires !Known(p, id)
    ensures Remembers(p, p.(actions := p.actions[id := row]))
  {
  }

  lemma {:induction false} InsertKeepsValid(p: Tables, id: Name, row: Row)
    requires Valid(p) && !Known(p, id) && Usage(p) < MAX_IDENTITIES
    ensures Valid(p.(actions := p.actions[id := row])) && Remembers(p, p.(actions := p.actions[id := row]))
  {
    hide Remembers, FingerprintOf;
    MapGrows(p.actions, id, row);
    InsertRemembers(p, id, row);
  }

  lemma {:induction false} ClaimSparesUncertain(t: Tables, claimed: Name, mark: Fingerprint, now: int, id: Name)
    requires id in t.actions && t.actions[id].status == Status.Uncertain
    ensures var u := ClaimOf(t, claimed, mark, now).0; id in u.actions && u.actions[id] == t.actions[id]
  {
    PruneSparesUncertain(t, now, id);
    var u := ClaimOf(t, claimed, mark, now).0;
    var p := Pruned(t, now);
    assert claimed == id ==> Known(p, claimed);
    assert u == t || u == p || (claimed != id && u.actions == p.actions[claimed := u.actions[claimed]]);
  }

  lemma {:induction false} ClaimKeepsValid(t: Tables, id: Name, mark: Fingerprint, now: int)
    requires Valid(t)
    ensures Valid(ClaimOf(t, id, mark, now).0) && Remembers(t, ClaimOf(t, id, mark, now).0)
    ensures Known(t, id) ==> ClaimOf(t, id, mark, now).1 != Ok(None)
    ensures ClaimOf(t, id, mark, now).1 == Ok(None) ==> Known(ClaimOf(t, id, mark, now).0, id)
  {
    PruneKeepsIdentity(t, now, id);
    PruneConserves(t, now);
    var p := Pruned(t, now);
    assert Pruned(t, now).steers == t.steers;
    assert Valid(p);
    var u := ClaimOf(t, id, mark, now).0;
    if ClaimOf(t, id, mark, now).1 == Ok(None) {
      InsertKeepsValid(p, id, Row(mark, Status.Uncertain, Unconfirmed(id), now));
      RemembersTransitive(t, p, u);
    } else {
      assert u == t || u == p;
    }
  }

  lemma {:induction false} RemembersTransitive(t: Tables, u: Tables, v: Tables)
    requires Remembers(t, u) && Remembers(u, v)
    ensures Remembers(t, v)
  {
  }

  lemma {:induction false} FinishKeepsValid(t: Tables, id: Name, status: Status, body: string, now: int)
    requires Valid(t)
    ensures Valid(FinishOf(t, id, status, body, now).0) && Remembers(t, FinishOf(t, id, status, body, now).0)
  {
    if id in t.actions {
      assert FinishOf(t, id, status, body, now).0.actions.Keys == t.actions.Keys;
    }
  }

  /** Bindings play no part in identities. */
  lemma {:induction false} BindingsKeepIdentities(t: Tables, u: Tables)
    requires u.actions == t.actions && u.retired == t.retired
    ensures Remembers(t, u) && Usage(u) == Usage(t)
  {
  }

  lemma {:induction false} ClaimSteerKeepsValid(t: Tables, key: SteerKey, action: Name)
    requires Valid(t)
    ensures Valid(ClaimSteerOf(t, key, action).0) && Remembers(t, ClaimSteerOf(t, key, action).0)
  {
    hide Remembers, Usage;
    BindingsKeepIdentities(t, ClaimSteerOf(t, key, action).0);
    if key !in t.steers {
      MapGrows(t.steers, key, action);
    }
  }

  lemma {:induction false} ReleaseSteerKeepsValid(t: Tables, key: SteerKey, action: Name)
    requires Valid(t)
    ensures Valid(ReleaseSteerOf(t, key, action)) && Remembers(t, ReleaseSteerOf(t, key, action))
  {
    hide Remembers, Usage;
    BindingsKeepIdentities(t, ReleaseSteerOf(t, key, action));
    MapShrinks(t.steers, key);
  }

  lemma {:induction false} StepKeepsValid(t: Tables, op: Op)
    requires Valid(t)
    ensures Valid(Apply(t, op)) && Remembers(t, Apply(t, op))
  {
    match op
    case Open(now) => PruneConserves(t, now);
    case Claim(id, mark, now) => ClaimKeepsValid(t, id, mark, now);
    case Finish(id, status, body, now) => FinishKeepsValid(t, id, status, body, now);
    case ClaimSteer(key, action) => ClaimSteerKeepsValid(t, key, action);
    case ReleaseSteer(key, action) => ReleaseSteerKeepsValid(t, key, action);
  }

  /**
    Over any run: the total never passes the capacity, and an identity once known is for ever
    in exactly one of the two tables with the fingerprint it was claimed under.
  */
  lemma {:induction false} IdentitiesKept(t: Tables, ops: seq<Op>)
    requires Valid(t)
    ensures Valid(Run(t, ops)) && Remembers(t, Run(t, ops))
    decreases |ops|
  {
    if ops != [] {
      StepKeepsValid(t, ops[0]);
      IdentitiesKept(Apply(t, ops[0]), ops[1..]);
    }
  }

  /** `claim` hands an action to at most one caller, over every run and every reopening. */
  lemma {:induction false} ClaimOnceForEver(t: Tables, ops: seq<Op>, id: Name)
    requires Valid(t)
    ensures Grantings(t, ops, id) <= 1
    ensures Known(t, id) ==> Grantings(t, ops, id) == 0
    decreases |ops|
  {
    if ops != [] {
      StepKeepsValid(t, ops[0]);
      if Grants(t, ops[0], id) {
        ClaimKeepsValid(t, id, ops[0].mark, ops[0].now);
      }
      ClaimOnceForEver(Apply(t, ops[0]), ops[1..], id);
    }
  }

  /** A later claim of a known identity never delivers: it replays, or conflicts on other content. */
  lemma {:induction false} KnownClaimNeverDelivers(t: Tables, id: Name, mark: Fingerprint, now: int)
    requires Valid(t) && Known(t, id)
    ensures ClaimOf(t, id, mark, now).1 == Err(ActionConflict) <==> mark != FingerprintOf(t, id)
    ensures mark == FingerprintOf(t, id) <==>
            ClaimOf(t, id, mark, now).1.Ok? && ClaimOf(t, id, mark, now).1.value.Some?
  {
    PruneConserves(t, now);
    assert FingerprintOf(Pruned(t, now), id) == FingerprintOf(t, id);
  }

  lemma {:induction false} StepSparesUncertain(t: Tables, op: Op, id: Name)
    requires id in t.actions && t.actions[id].status == Status.Uncertain
    requires op.Finish? ==> op.id != id
    ensures id in Apply(t, op).actions && Apply(t, op).actions[id] == t.actions[id]
  {
    if op.Open? {
      PruneSparesUncertain(t, op.now, id);
    } else if op.Claim? {
      ClaimSparesUncertain(t, op.id, op.mark, op.now, id);
    }
  }

  /**
    An unfinished action is never pruned: as long as nobody finishes it, its row stays exactly
    as it was claimed, whatever the clock does, so its own `finish` finds it.
  */
  lemma {:induction false} UnfinishedNeverPruned(t: Tables, ops: seq<Op>, id: Name)
    requires Valid(t)
    requires id in t.actions && t.actions[id].status == Status.Uncertain
    requires forall k :: 0 <= k < |ops| && ops[k].Finish? ==> ops[k].id != id
    ensures id in Run(t, ops).actions && Run(t, ops).actions[id] == t.actions[id]
    ensures forall status, body, now :: FinishOf(Run(t, ops), id, status, body, now).1
    decreases |ops|
  {
    if ops != [] {
      var op := ops[0];
      StepKeepsValid(t, op);
      StepSparesUncertain(t, op, id);
      UnfinishedNeverPruned(Apply(t, op), ops[1..], id);
    }
  }
}
