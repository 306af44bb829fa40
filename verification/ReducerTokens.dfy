/**
  Request tokens. A token is issued for one content of one request and never means another, so a
  reply validated against a request can only ever be delivered to that same request.
*/
module ReducerTokens {
  import opened Wrappers
  import opened Reducer
  import opened ReducerRuns
  import opened ReducerGuarantees

  /** Tokens name requests one to one and none lies ahead of the event line. */
  ghost predicate Issued(s: Model) {
    Keyed(s.control.pending, s.namespace, s.sequence) && Distinct(s.control.pending)
  }

  ghost predicate Keyed(pending: map<Name, Request>, namespace: Name, sequence: nat) {
    forall k :: k in pending ==>
      pending[k].id == k && pending[k].token.namespace == namespace && pending[k].token.number <= sequence
  }

  ghost predicate Distinct(pending: map<Name, Request>) {
    forall j, k :: j in pending && k in pending && pending[j].token == pending[k].token ==> j == k
  }

  ghost predicate Ided(pending: map<Name, Request>) {
    forall k :: k in pending ==> pending[k].id == k
  }

  /** From `p` to `q` requests are only removed. */
  ghost predicate Shrinks(p: map<Name, Request>, q: map<Name, Request>) {
    forall k :: k in q ==> k in p && q[k] == p[k]
  }

  /** Except for one request with this token. */
  ghost predicate ShrinksBut(p: map<Name, Request>, q: map<Name, Request>, fresh': Request) {
    forall k :: k in q ==> (k in p && q[k] == p[k]) || (k == fresh'.id && q[k] == fresh')
  }

  // ---------------------------------------------------------------------------------------
  // What the stages do to requests.

  lemma {:induction false} StampShrinks(s: Model, m: Message, id: Option<Name>)
    ensures Shrinks(s.control.pending, StampStage(s, m, id).control.pending)
  {
  }

  lemma {:induction false} TurnControl(s: Model, id: Name, turn: Name, body: Body)
    ensures TurnStage(s, id, turn, body).control == s.control
  {
    hide RetainPlans;
    forall t: Model, after: Option<nat> ensures RetainPlans(t, id, after).control == t.control {
      RetainPrepares(t, id, after);
    }
  }

  lemma {:induction false} LegacyControl(s: Model, id: Name, body: Body)
    ensures LegacyProjection(s, id, body).Some? ==> LegacyProjection(s, id, body).value.control == s.control
  {
    hide RetainPlans, LegacyStreamed;
    forall t: Model, after: Option<nat> ensures RetainPlans(t, id, after).control == t.control {
      RetainPrepares(t, id, after);
    }
    if LegacyStream(body) && TurnOf(body).Some? && ItemOf(body).Some? {
      StreamedControl(s, id, TurnOf(body).value, ItemOf(body).value, body);
    }
  }

  lemma {:induction false} StreamedControl(s: Model, id: Name, turn: Name, item: Name, body: Body)
    requires LegacyStream(body)
    ensures LegacyStreamed(s, id, turn, item, body).control == s.control
    ensures LegacyStreamed(s, id, turn, item, body).sequence == s.sequence + 1
  {
    hide StreamItem, MarkDirty, DeliverAll;
  }

  /** The message starts or extends a legacy stream that the archive has closed. */
  predicate ClosedStream(s: Model, id: Name, body: Body) {
    && id in s.cache.threads && s.cache.threads[id].legacy && id in s.control.archived
    && LegacyStream(body) && !body.ItemCompleted?
    && TurnOf(body).Some? && TurnOf(body).value != NO_NAME && ItemOf(body).Some? && ItemOf(body).value != NO_NAME
  }

  lemma {:induction false} LegacyLine(s: Model, id: Name, body: Body)
    requires LegacyProjection(s, id, body).Some?
    ensures LegacyProjection(s, id, body).value.sequence
            == s.sequence + if ClosedStream(s, id, body) then 0 else 1
  {
    hide RetainPlans, LegacyStreamed;
    forall t: Model, after: Option<nat> ensures RetainPlans(t, id, after).sequence == t.sequence {
      RetainPrepares(t, id, after);
    }
    if LegacyStream(body) && TurnOf(body).Some? && ItemOf(body).Some? {
      StreamedControl(s, id, TurnOf(body).value, ItemOf(body).value, body);
    }
  }

  /** A closed stream is the only message that passes every check without an event. */
  lemma {:induction false} ProjectLine(s: Model, m: Message, id: Option<Name>)
    ensures Shrinks(s.control.pending, Project(s, m, id).control.pending)
    ensures Project(s, m, id).sequence
            == s.sequence + if id.Some? && ClosedStream(s, id.value, m.body) then 0 else 1
  {
    hide StampStage, LegacyProjection, TurnStage, UpdateTurns, Keeps, DeliverAll;
    var t := StampStage(s, m, id);
    StampShrinks(s, m, id);
    StampPrepares(s, m, id);
    if id.Some? {
      StampClosed(s, m, id.value);
      LegacyControl(t, id.value, m.body);
      if LegacyProjection(t, id.value, m.body).Some? {
        LegacyLine(t, id.value, m.body);
      } else {
        NotClosed(t, id.value, m.body);
        if TurnOf(m.body).Some? {
          var u := ContentStage(t, id.value, m.body);
          TurnControl(u, id.value, TurnOf(m.body).value, m.body);
          TurnPrepares(u, id.value, TurnOf(m.body).value, m.body);
        }
      }
    }
  }

  lemma {:induction false} StampClosed(s: Model, m: Message, id: Name)
    ensures ClosedStream(StampStage(s, m, Some(id)), id, m.body) == ClosedStream(s, id, m.body)
  {
    if LegacyStream(m.body) && !m.body.ItemCompleted? {
      assert StampStage(s, m, Some(id)) == s;
    }
  }

  lemma {:induction false} NotClosed(s: Model, id: Name, body: Body)
    requires LegacyProjection(s, id, body).None?
    ensures !ClosedStream(s, id, body)
  {
    hide LegacyCompleted, LegacyStreamed;
  }

  // ---------------------------------------------------------------------------------------
  // What one message does to requests.

  predicate Replays(s: Model, m: Message) {
    && m.id.Some? && m.id.value in s.control.pending
    && s.control.pending[m.id.value] == Request(m.id.value, m.thread, m.body, s.control.pending[m.id.value].token)
    && s.control.pending[m.id.value].token.namespace == s.namespace
    && s.control.pending[m.id.value].token.epoch == NativeEpoch(s)
  }

  function NewRequest(s: Model, m: Message): Request
    requires m.id.Some?
  {
    Request(m.id.value, m.thread, m.body, Token(s.namespace, NativeEpoch(s), s.sequence + 1))
  }

  lemma {:induction false} RequestStored(s: Model, m: Message)
    requires Ided(s.control.pending) && m.id.Some?
    ensures var p, q := s.control.pending, RequestStage(s, m).control.pending;
            q == if Replays(s, m) then p else p[m.id.value := NewRequest(s, m)]
  {
  }

  /** An execution thread's request that passes every check but is consumed by a closed stream. */
  predicate Silent(s: Model, m: Message) {
    && m.id.Some? && m.thread.Some? && m.thread.value in s.control.subscribed
    && m.thread.value in s.control.resumes && ClosedStream(s, m.thread.value, m.body)
  }

  /** A new request is kept and the line does not move past its token. */
  predicate Lags(s: Model, m: Message) {
    Silent(s, m) && !Replays(s, m)
  }

  /** Requests after a message: fewer, or fewer with one new one and, unless it is silent, its event. */
  ghost predicate Proceeds(s: Model, t: Model, m: Message) {
    || (Shrinks(s.control.pending, t.control.pending) && t.sequence >= s.sequence)
    || (m.id.Some? && ShrinksBut(s.control.pending, t.control.pending, NewRequest(s, m))
        && t.sequence == s.sequence + if Lags(s, m) then 0 else 1)
  }

  lemma {:induction false} EarlyShrinks(s: Model, m: Message, scope: Scope)
    ensures Shrinks(s.control.pending, ArchiveStage(s, m).control.pending)
    ensures PlanStage(s, m, scope).control == s.control && PlanStage(s, m, scope).cache == s.cache
    ensures LegacyStream(m.body) ==> ArchiveStage(s, m) == s && PlanStage(s, m, scope) == s
  {
    hide PlanAdmitted, StorePlan;
  }

  lemma {:induction false} ForgetShrinks(s: Model, thread: Name)
    ensures Shrinks(s.control.pending, ForgetOutsideScope(s, thread).control.pending)
  {
    hide DeliverAll;
  }

  lemma {:induction false} StoredProceeds(s: Model, m: Message, id: Option<Name>)
    requires Ided(s.control.pending) && id == ThreadOf(m)
    requires m.id.Some? ==> Silent(s, m) == (id.Some? && ClosedStream(s, id.value, m.body))
    ensures Proceeds(s, Project(RequestStage(s, m), m, id), m)
  {
    hide Project, RequestStage, ClosedStream, Silent;
    var t := RequestStage(s, m);
    ProjectLine(t, m, id);
    RequestKeeps(s, m);
    if m.id.Some? {
      RequestStored(s, m);
    }
    if id.Some? {
      SameClosed(s, t, id.value, m.body);
    }
  }

  lemma {:induction false} RequestKeeps(s: Model, m: Message)
    ensures RequestStage(s, m).cache == s.cache && RequestStage(s, m).control.archived == s.control.archived
    ensures RequestStage(s, m).sequence == s.sequence && RequestStage(s, m).namespace == s.namespace
    ensures m.id.None? ==> RequestStage(s, m) == s
  {
    hide TokenFor;
  }

  lemma {:induction false} SameClosed(s: Model, t: Model, id: Name, body: Body)
    requires t.cache == s.cache && t.control.archived == s.control.archived
    ensures ClosedStream(t, id, body) == ClosedStream(s, id, body)
  {
  }

  /** Past the checks, silent is the same as consumed by a closed stream. */
  lemma {:induction false} PassedSilent(s: Model, m: Message)
    requires ThreadOf(m).Some? ==> ThreadOf(m).value in s.control.subscribed
    requires m.id.Some? && ThreadOf(m).Some?
    requires !(ThreadOf(m).value in s.control.archived && ThreadOf(m).value !in s.control.resumes)
    ensures Silent(s, m) == ClosedStream(s, ThreadOf(m).value, m.body)
  {
  }

  lemma {:induction false} AttachedProceeds(s: Model, m: Message, scope: Scope)
    requires Ided(s.control.pending) && (ThreadOf(m).Some? ==> ThreadOf(m).value in s.control.subscribed)
    ensures Proceeds(s, ReduceAttached(s, m, scope), m)
  {
    hide PlanStage, PlanAdmitted, RequestStage, Project, ForgetOutsideScope, Ided, ClosedStream, Silent, Replays,
         OneGeneration, Bounded, FencesGrow, Orderly, DeliverAll, Permits;
    var id := ThreadOf(m);
    var t := PlanStage(s, m, scope);
    EarlyShrinks(s, m, scope);
    PlanPrepares(s, m, scope);
    if id.Some? {
      ForgetShrinks(t, id.value);
      ForgetSteps(t, id.value);
    }
    SameLags(s, t, m);
    if !(m.id.Some? && (id.None? || (id.value in s.control.archived && id.value !in s.control.resumes))) {
      if m.id.Some? {
        PassedSilent(t, m);
      }
      StoredProceeds(t, m, id);
    }
  }

  lemma {:induction false} SameLags(s: Model, t: Model, m: Message)
    requires SameLink(s, t) && t.control == s.control && t.cache == s.cache
    ensures Lags(t, m) == Lags(s, m)
    ensures t.sequence == s.sequence && m.id.Some? ==> NewRequest(t, m) == NewRequest(s, m)
  {
  }

  lemma {:induction false} ProceedsIssued(s: Model, t: Model, m: Message)
    requires Issued(s) && Proceeds(s, t, m) && t.namespace == s.namespace && !Lags(s, m)
    ensures Issued(t)
  {
  }

  lemma {:induction false} ProceedsAfter(s: Model, t: Model, u: Model, m: Message)
    requires Shrinks(s.control.pending, t.control.pending) && Still(s, t) && SameLink(s, t)
    requires Lags(s, m) == Lags(t, m)
    requires Proceeds(t, u, m)
    ensures Proceeds(s, u, m)
  {
    hide Lags;
  }

  lemma {:induction false} ReduceProceeds(s: Model, m: Message, scope: Scope)
    requires Ided(s.control.pending)
    ensures Proceeds(s, Reduce(s, m, scope), m)
  {
    hide ArchiveStage, ReduceAttached, ClosedStream, Replays, Silent, DeliverAll, Keeps;
    var t := ArchiveStage(s, m);
    EarlyShrinks(s, m, scope);
    ArchivePrepares(s, m);
    ArchiveLink(s, m);
    SilentStreams(s, m);
    SilentStreams(t, m);
    if ThreadOf(m).Some? ==> ThreadOf(m).value in t.control.subscribed {
      AttachedProceeds(t, m, scope);
      ProceedsAfter(s, t, ReduceAttached(t, m, scope), m);
    }
  }

  lemma {:induction false} ArchiveLink(s: Model, m: Message)
    ensures SameLink(s, ArchiveStage(s, m))
  {
    ArchivePrepares(s, m);
  }

  lemma {:induction false} SilentStreams(s: Model, m: Message)
    ensures Silent(s, m) ==> LegacyStream(m.body)
  {
  }

  lemma {:induction false} SilentStores(s: Model, m: Message, scope: Scope)
    requires Silent(s, m)
    ensures Reduce(s, m, scope) == RequestStage(s, m)
  {
    hide ArchiveStage, PlanStage, PlanAdmitted, RequestStage, Project, ForgetOutsideScope;
    EarlyShrinks(s, m, scope);
    RequestKeeps(s, m);
    SameClosed(s, RequestStage(s, m), m.thread.value, m.body);
    ClosedProjects(RequestStage(s, m), m, m.thread.value);
  }

  /** A silent request is kept without moving the line past its token. */
  lemma {:induction false} SilentLags(s: Model, m: Message, scope: Scope)
    requires Ided(s.control.pending) && Lags(s, m)
    ensures var t := Reduce(s, m, scope);
            && t.sequence == s.sequence
            && m.id.value in t.control.pending && t.control.pending[m.id.value] == NewRequest(s, m)
    ensures !Issued(Reduce(s, m, scope))
  {
    hide Reduce, RequestStage, Replays, Ided, Distinct;
    SilentStores(s, m, scope);
    RequestStored(s, m);
    RequestKeeps(s, m);
    AheadOfLine(Reduce(s, m, scope), m.id.value);
  }

  lemma {:induction false} AheadOfLine(s: Model, k: Name)
    requires k in s.control.pending && s.control.pending[k].token.number > s.sequence
    ensures !Issued(s)
  {
  }

  lemma {:induction false} ClosedProjects(s: Model, m: Message, id: Name)
    requires ClosedStream(s, id, m.body)
    ensures Project(s, m, Some(id)) == s
  {
    assert StampStage(s, m, Some(id)) == s;
  }

  /** Exactly the silent requests break the freshness of tokens. */
  lemma {:induction false} TokensSettleExactly(s: Model, m: Message, scope: Scope)
    requires Issued(s)
    ensures Issued(Reduce(s, m, scope)) <==> !Lags(s, m)
  {
    hide Reduce, Lags, Distinct, Keeps;
    if Lags(s, m) {
      SilentLags(s, m, scope);
    } else {
      ReduceProceeds(s, m, scope);
      ReduceSteps(s, m, scope);
      ReduceLink(s, m, scope);
      ProceedsIssued(s, Reduce(s, m, scope), m);
    }
  }

  lemma {:induction false} ReduceLink(s: Model, m: Message, scope: Scope)
    ensures SameLink(s, Reduce(s, m, scope))
  {
    hide Reduce;
    ReduceSteps(s, m, scope);
  }

  // ---------------------------------------------------------------------------------------
  // Runs.

  ghost predicate Settles(s: Model, op: Op) {
    op.Native? ==> !Lags(s, op.message)
  }

  ghost predicate AllSettle(s: Model, ops: seq<Op>)
    decreases |ops|
  {
    ops == [] || (Settles(s, ops[0]) && AllSettle(Apply(s, ops[0]), ops[1..]))
  }

  /** Every section other than a native message only removes requests, and the line never goes back. */
  lemma {:induction false} OthersShrink(s: Model, op: Op)
    requires !op.Native?
    ensures Shrinks(s.control.pending, Apply(s, op).control.pending)
    ensures Apply(s, op).sequence >= s.sequence && Apply(s, op).namespace == s.namespace
  {
    hide DeliverAll, DetachAll, StableThreads, MergedThread, RetainedLive, RetainedProvisional, RetainPlans,
         ArchivedReadStale, Invalidated, Permits, DropItems;
    forall t: Model, id: Name, after: Option<nat>
      ensures RetainPlans(t, id, after).control == t.control
      ensures Still(t, RetainPlans(t, id, after)) && SameLink(t, RetainPlans(t, id, after))
    {
      RetainPrepares(t, id, after);
    }
  }

  /** In the protocol no request is also an item notification; then no message is silent. */
  predicate Regular(op: Op) {
    op.Native? && op.message.id.Some? ==> !LegacyStream(op.message.body)
  }

  lemma {:induction false} RegularSettles(s: Model, ops: seq<Op>)
    requires forall k :: 0 <= k < |ops| ==> Regular(ops[k])
    ensures AllSettle(s, ops)
    decreases |ops|
  {
    hide Apply, Replays;
    if ops != [] {
      if ops[0].Native? {
        SilentStreams(s, ops[0].message);
      }
      RegularSettles(Apply(s, ops[0]), ops[1..]);
    }
  }

  /** A token in the past belongs to one request for good. */
  ghost predicate Owned(s: Model, token: Token, request: Request) {
    token.number <= s.sequence && OwnedIn(s.control.pending, token, request)
  }

  ghost predicate OwnedIn(pending: map<Name, Request>, token: Token, request: Request) {
    forall k :: k in pending && pending[k].token == token ==> pending[k] == request
  }

  lemma {:induction false} ApplyTokens(s: Model, op: Op, token: Token, request: Request)
    requires Issued(s) && Settles(s, op)
    ensures Issued(Apply(s, op))
    ensures Owned(s, token, request) ==> Owned(Apply(s, op), token, request)
  {
    hide Reduce, Lags, Keeps, Emitted;
    if op.Native? {
      ReduceProceeds(s, op.message, op.scope);
      ReduceLink(s, op.message, op.scope);
      ProceedsIssued(s, Apply(s, op), op.message);
    } else {
      OthersShrink(s, op);
    }
  }

  lemma {:induction false} RunTokens(s: Model, ops: seq<Op>, token: Token, request: Request)
    requires Issued(s) && AllSettle(s, ops)
    ensures Issued(Run(s, ops))
    ensures Owned(s, token, request) ==> Owned(Run(s, ops), token, request)
    decreases |ops|
  {
    hide Apply, Settles, Issued, Owned;
    if ops != [] {
      ApplyTokens(s, ops[0], token, request);
      RunTokens(Apply(s, ops[0]), ops[1..], token, request);
    }
  }

  /** Whatever is replayed, resolved, reconnected or reused later, an equal token means the same request. */
  lemma {:induction false} TokenForEver(s: Model, ops: seq<Op>, j: Name, k: Name)
    requires Issued(s) && AllSettle(s, ops)
    requires j in s.control.pending && k in Run(s, ops).control.pending
    requires Run(s, ops).control.pending[k].token == s.control.pending[j].token
    ensures Run(s, ops).control.pending[k] == s.control.pending[j] && k == j
  {
    hide Run, AllSettle;
    var request := s.control.pending[j];
    assert Owned(s, request.token, request);
    RunTokens(s, ops, request.token, request);
    assert Keyed(Run(s, ops).control.pending, Run(s, ops).namespace, Run(s, ops).sequence);
  }

  // ---------------------------------------------------------------------------------------
  // Answers.

  /** `execute` for "respond": the request an answer is validated against (lib.rs). */
  function Checked(s: Model, id: Name, thread: Name, token: Token): Option<Request> {
    if s.connection.Connected? && id in s.control.pending && s.control.pending[id].token == token
       && s.control.pending[id].thread == Some(thread) && CanRespond(s.control.pending[id].body)
    then Some(s.control.pending[id]) else None
  }

  /** The worker's own check, immediately before it writes the answer (client.rs, `run`). */
  predicate Deliverable(s: Model, id: Name, epoch: nat, token: Token) {
    && s.epoch == epoch && id in s.control.pending && CanRespond(s.control.pending[id].body)
    && s.control.pending[id].token == token
    && (s.control.pending[id].thread.Some? ==> s.control.pending[id].thread.value !in s.control.archived)
  }

  /**
    A request that can be answered was never silent, so its token lies behind the line. The others
    may lag, but no answer is accepted for them.
  */
  ghost predicate Answerable(s: Model) {
    forall k :: k in s.control.pending ==>
      && s.control.pending[k].id == k
      && (CanRespond(s.control.pending[k].body) ==> s.control.pending[k].token.number <= s.sequence)
  }

  /** Under this id the token means this request, or nothing. */
  ghost predicate OwnedAt(s: Model, id: Name, token: Token, request: Request) {
    && token.number <= s.sequence
    && (id in s.control.pending && s.control.pending[id].token == token ==> s.control.pending[id] == request)
  }

  lemma {:induction false} AnswerableIded(s: Model)
    requires Answerable(s)
    ensures Ided(s.control.pending)
  {
  }

  lemma {:induction false} LagsUnanswerable(s: Model, m: Message)
    requires Lags(s, m)
    ensures !CanRespond(m.body)
  {
  }

  lemma {:induction false} ProceedsAnswerable(s: Model, t: Model, m: Message, id: Name, token: Token, request: Request)
    requires Answerable(s) && Proceeds(s, t, m)
    requires Lags(s, m) ==> !CanRespond(m.body)
    ensures Answerable(t)
    ensures OwnedAt(s, id, token, request) ==> OwnedAt(t, id, token, request)
  {
    hide Lags;
  }

  lemma {:induction false} ApplyAnswerable(s: Model, op: Op, id: Name, token: Token, request: Request)
    requires Answerable(s)
    ensures Answerable(Apply(s, op))
    ensures OwnedAt(s, id, token, request) ==> OwnedAt(Apply(s, op), id, token, request)
  {
    hide Reduce, Lags, Proceeds;
    if op.Native? {
      AnswerableIded(s);
      ReduceProceeds(s, op.message, op.scope);
      if Lags(s, op.message) {
        LagsUnanswerable(s, op.message);
      }
      ProceedsAnswerable(s, Apply(s, op), op.message, id, token, request);
    } else {
      OthersShrink(s, op);
    }
  }

  lemma {:induction false} RunAnswerable(s: Model, ops: seq<Op>, id: Name, token: Token, request: Request)
    requires Answerable(s)
    ensures Answerable(Run(s, ops))
    ensures OwnedAt(s, id, token, request) ==> OwnedAt(Run(s, ops), id, token, request)
    decreases |ops|
  {
    hide Apply, Answerable, OwnedAt;
    if ops != [] {
      ApplyAnswerable(s, ops[0], id, token, request);
      RunAnswerable(Apply(s, ops[0]), ops[1..], id, token, request);
    }
  }

  lemma {:induction false} InitiallyAnswerable(namespace: Name, restricted: bool)
    ensures Answerable(Initial(namespace, restricted))
  {
  }

  /**
    Over every run of every section, whatever the messages: an answer validated at one moment and
    delivered at any later one reaches the request it was validated against. Same id, same method
    and parameters, not archived, still on its connection.
  */
  lemma {:induction false} StaleAnswersNeverLand(s: Model, ops: seq<Op>, id: Name, thread: Name, token: Token,
                                                 epoch: nat)
    requires Answerable(s)
    requires Checked(s, id, thread, token).Some?
    requires Deliverable(Run(s, ops), id, epoch, token)
    ensures var t := Run(s, ops);
            && t.control.pending[id] == Checked(s, id, thread, token).value
            && thread !in t.control.archived && t.epoch == epoch
  {
    hide Run;
    RunAnswerable(s, ops, id, token, s.control.pending[id]);
  }

  // ---------------------------------------------------------------------------------------
  // Why the condition on messages is needed.

  const LEGACY_THREAD := Thread(7, Some(1), true, 0, [])

  function Attaching(): Model {
    Apply(Initial(1, false), Merge(Snapshot(Some(LEGACY_THREAD), Settings(Some(1), "")), None, Unrestricted))
  }

  /** Attach a legacy thread, see it archived elsewhere, and begin to reopen it. */
  function Reopening(): Model {
    Apply(Apply(Attaching(), Native(Message(Some(7), None, ThreadArchived), Unrestricted)), Begin(7))
  }

  function StreamRequest(id: Name): Message {
    Message(Some(7), Some(id), Delta(AgentText, 8, id, ""))
  }

  lemma {:induction false} AttachingState()
    ensures var s := Attaching();
            && s.control.pending == map[] && s.control.subscribed == {7} && 7 in s.cache.threads && s.cache.threads[7].legacy
  {
  }

  lemma {:induction false} ReopeningState()
    ensures var s := Reopening();
            && s.control.pending == map[] && 7 in s.control.subscribed && 7 in s.control.archived
            && 7 in s.control.resumes && 7 in s.cache.threads && s.cache.threads[7].legacy
  {
    hide Attaching, UpdateTurns, DeliverAll;
    AttachingState();
  }

  /** Two different requests on one closed stream are given one token. */
  lemma {:induction false} SilentRequestsCollide()
    ensures var s := Reopening();
            var t := Reduce(Reduce(s, StreamRequest(2), Unrestricted), StreamRequest(3), Unrestricted);
            && 2 in t.control.pending && 3 in t.control.pending
            && t.control.pending[2].token == t.control.pending[3].token
            && t.control.pending[2].body != t.control.pending[3].body
  {
    hide Reopening, Reduce;
    ReopeningState();
    var s := Reopening();
    SilentStores(s, StreamRequest(2), Unrestricted);
    var t := Reduce(s, StreamRequest(2), Unrestricted);
    SilentStores(t, StreamRequest(3), Unrestricted);
  }
}
