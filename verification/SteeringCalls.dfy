/** What the actions assume of a native call is what the socket worker guarantees. */
module SteeringCalls {
  import opened Wrappers
  import opened Worker
  import opened WorkerCalls
  import opened WorkerAnswers
  import opened Reducer
  import Steering

  /** The answer a caller sees, as an action reads it; whether it is complete is in its content. */
  function ReplyOf(answer: Answer, complete: bool): Steering.Reply {
    if answer.Failed? then Steering.Reply.Failed(answer.failure) else Steering.Reply.Success(complete)
  }

  /**
    A steer, an addition, a start or a delete whose answer says it did not reach the server was not
    written when its caller was told so, and is never written afterwards.
  */
  lemma {:induction false} UnreachedNeverWritten(w: System, events: seq<Event>, t: Name, inTime: bool,
                                                 complete: bool, k: nat)
    requires SystemOk(w) && Unfolds(w, events)
    requires !Steering.Reached(ReplyOf(CallerSees(w, t, inTime), complete))
    requires k < |After(w, events).books.wire| && FrameTicket(After(w, events).books.wire[k]) == t
    ensures var f := After(w, events).books.wire[k];
            !f.AnswerFrame? && !f.call.rpc.Steer? && !f.call.rpc.QueueAdd? && !f.call.rpc.QueueStart? && !f.call.rpc.QueueDelete?
  {
    hide SystemOk, Unfolds, After;
    RefusedNeverWritten(w, events, t, k);
  }

  /** Some reply with a result was received in time for the call of this ticket. */
  ghost predicate Performed(w: System, events: seq<Event>, t: Name)
    requires Unfolds(w, events)
  {
    exists result: Snapshot, paginated: bool :: TimelyReply(w, events, t, Replied(result, paginated))
  }

  /** The native server refused the call of this ticket in time. */
  ghost predicate Declined(w: System, events: seq<Event>, t: Name)
    requires Unfolds(w, events)
  {
    exists archived: bool, busy: bool :: TimelyReply(w, events, t, RpcError(archived, busy))
  }

  /**
    What an action concludes about the server from its call's answer is what happened there: it
    counts the call as applied exactly when a result of its call came in time, and as never applied
    only if the server refused it or nothing was ever written for it, nor will be. (The
    acknowledgement of an answer to a runtime request is no action's answer.)
  */
  lemma {:induction false} EffectIsReal(namespace: Name, restricted: bool, events: seq<Event>, later: seq<Event>,
                                        t: Name, inTime: bool, complete: bool)
    requires var w := Begun(namespace, restricted); Unfolds(w, events) && Unfolds(After(w, events), later)
    requires NoResume(After(Begun(namespace, restricted), events).books.wire, t)
    requires !CallerSees(After(Begun(namespace, restricted), events), t, inTime).Delivered?
    ensures var w := Begun(namespace, restricted);
            var effect := Steering.EffectOf(ReplyOf(CallerSees(After(w, events), t, inTime), complete));
            && (effect.Applied? <==> inTime && Performed(w, events, t))
            && (inTime && Declined(w, events, t) ==> effect.Untouched?)
            && (effect.Untouched? ==>
                  Declined(w, events, t) || OnlyResumes(After(After(w, events), later).books.wire, t))
  {
    hide SystemOk, Framed, Unfolds, After, TimelyReply, NoResume, OnlyResumes;
    var w := Begun(namespace, restricted);
    var answers := After(w, events).books.calls.answers;
    BegunFramed(namespace, restricted);
    RunOk(w, events);
    if t in answers && answers[t].Success? {
      SuccessExactlyWhen(namespace, restricted, events, t, answers[t].result);
    }
    if t in answers && answers[t].Failed? && answers[t].failure.RpcRejected? {
      RejectedExactlyWhen(namespace, restricted, events, t, answers[t].failure.archived, answers[t].failure.busy);
    }
    if t in answers && Refused(answers[t]) {
      StaysUnwritten(After(w, events), later, t);
    }
    if result: Snapshot, paginated: bool :| TimelyReply(w, events, t, Replied(result, paginated)) {
      SuccessExactlyWhen(namespace, restricted, events, t, result);
    }
    if archived: bool, busy: bool :| TimelyReply(w, events, t, RpcError(archived, busy)) {
      RejectedExactlyWhen(namespace, restricted, events, t, archived, busy);
    }
  }

  lemma {:induction false} StaysUnwritten(w: System, later: seq<Event>, t: Name)
    requires SystemOk(w) && Unfolds(w, later) && IsAnswered(w, t) && Refused(w.books.calls.answers[t])
    ensures OnlyResumes(After(w, later).books.wire, t)
  {
    hide SystemOk, Unfolds, After;
    var wire := After(w, later).books.wire;
    forall k | 0 <= k < |wire| && FrameTicket(wire[k]) == t ensures OfResume(wire[k]) {
      RefusedNeverWritten(w, later, t, k);
    }
  }
}
