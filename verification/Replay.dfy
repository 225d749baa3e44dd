/**
 Identical idempotent calls on a live approval, with no competing verdict: one decides, the others replay it.
 */
module Replay {
  import opened Bytes
  import opened Approval

  /** What a task for approval `id` may be when all its callers make the same call `c` in time. */
  predicate TaskAgrees(task: Task, id: string, c: Call) {
    match task
    case Register(_) => true
    case Update(call, verdict, edited, _, _, _) => call.id == id ==> call == c && verdict == c.verdict && edited == c.edited
    case Deliver(call, d) => call.id == id ==> call == c && d.verdict == c.verdict
    case Send(caller, _, d) => caller.Some? && caller.value.id == id ==> caller.value == c && d.verdict == c.verdict
    case CloseCh(caller, _, d) => caller.Some? && caller.value.id == id ==> caller.value == c && d.verdict == c.verdict
    case Reread(call) => call.id == id ==> call == c
    case Finished(caller, r) => caller.Some? && caller.value.id == id ==> caller.value == c && !r.AlreadyDecided? && !r.TooLate?
  }

  ghost predicate Agree(w: World, id: string, c: Call) {
    && (forall t :: t in w.tasks ==> TaskAgrees(w.tasks[t], id, c))
    && (id in w.rows ==> w.rows[id].state == Pending || Matches(w.rows[id], c))
  }

  /** Every call about `id` is `c`, made before the deadline. */
  predicate InTime(w: World, a: Action, id: string, c: Call) {
    a.Start? && a.call.id == id ==> a.call == c && (id in w.rows ==> a.now < w.rows[id].expiresAt * SECOND)
  }

  ghost predicate AllInTime(w: World, actions: seq<Action>, id: string, c: Call)
    decreases |actions|
  {
    actions == [] || (InTime(w, actions[0], id, c) && AllInTime(Next(w, actions[0]), actions[1..], id, c))
  }

  lemma BeginAgrees(w: World, call: Call, now: Time, id: string, c: Call)
    requires c.id == id && c.idempotent && (call.id == id ==> call == c && (id in w.rows ==> now < w.rows[id].expiresAt * SECOND))
    ensures TaskAgrees(Begin(w, call, now), id, c)
  {}

  lemma AdvanceAgrees(w: World, t: nat, id: string, c: Call)
    requires Inv(w) && Agree(w, id, c) && c.id == id && c.idempotent && t in w.tasks
    ensures t in Advance(w, t).tasks && TaskAgrees(Advance(w, t).tasks[t], id, c)
  {
    assert TaskOk(w, t, w.tasks[t]) && TaskAgrees(w.tasks[t], id, c);
    hide Inv, Agree;
    StepAgrees(w, t, id, c);
  }

  lemma StepAgrees(w: World, t: nat, id: string, c: Call)
    requires t in w.tasks && TaskOk(w, t, w.tasks[t]) && TaskAgrees(w.tasks[t], id, c) && c.id == id && c.idempotent
    requires id in w.rows ==> w.rows[id].state == Pending || Matches(w.rows[id], c)
    ensures t in Advance(w, t).tasks && TaskAgrees(Advance(w, t).tasks[t], id, c)
  {
    if w.tasks[t].Reread? {
      RereadAgrees(w, t, id, c);
    } else {
      hide DecisionFromRow, TaskOk, Matches, StateForVerdict;
      if w.tasks[t].Update? {
      } else if w.tasks[t].Deliver? {
      } else if w.tasks[t].Send? {
      }
    }
  }

  /** A terminal row that matches is replayed. */
  lemma RereadAgrees(w: World, t: nat, id: string, c: Call)
    requires t in w.tasks && w.tasks[t].Reread? && TaskOk(w, t, w.tasks[t]) && TaskAgrees(w.tasks[t], id, c) && c.id == id
    requires id in w.rows ==> w.rows[id].state == Pending || Matches(w.rows[id], c)
    ensures t in Advance(w, t).tasks && TaskAgrees(Advance(w, t).tasks[t], id, c)
  {}

  lemma RowAgrees(w: World, t: nat, id: string, c: Call)
    requires t in w.tasks && TaskAgrees(w.tasks[t], id, c) && c.id == id
    requires id in w.rows ==> w.rows[id].state == Pending || Matches(w.rows[id], c)
    ensures id in Advance(w, t).rows ==> Advance(w, t).rows[id].state == Pending || Matches(Advance(w, t).rows[id], c)
  {}

  lemma NextAgrees(w: World, a: Action, id: string, c: Call)
    requires Inv(w) && Agree(w, id, c) && c.id == id && c.idempotent && InTime(w, a, id, c)
    ensures Agree(Next(w, a), id, c)
  {
    hide Advance, Begin, Matches, Inv, TaskAgrees;
    match a {
      case Go(t) =>
        if t in w.tasks {
          AdvanceAgrees(w, t, id, c);
          RowAgrees(w, t, id, c);
          OnlyItMoves(w, t);
        }
      case Start(t, call, now) => BeginAgrees(w, call, now, id, c);
      case Insert(t, other, _, _) => RegisterAgrees(other, id, c);
      case Invalidate(t, other, reason, now) =>
        if other in w.waiters {
          InvalidationAgrees(w.waiters[other], Decision(Cancel, None, reason, 0, Unix(now)), id, c);
        }
      case DropWaiter(_) =>
    }
  }

  lemma RegisterAgrees(other: string, id: string, c: Call)
    ensures TaskAgrees(Register(other), id, c)
  {}

  lemma InvalidationAgrees(ch: nat, d: Decision, id: string, c: Call)
    ensures TaskAgrees(Send(None, ch, d), id, c)
  {}

  lemma {:induction false} RunAgrees(w: World, actions: seq<Action>, id: string, c: Call)
    requires Inv(w) && Agree(w, id, c) && c.id == id && c.idempotent && AllInTime(w, actions, id, c)
    ensures Agree(Run(w, actions), id, c)
    decreases |actions|
  {
    hide Inv, Agree, Next, InTime;
    if actions != [] {
      NextKeepsInv(w, actions[0]);
      NextAgrees(w, actions[0], id, c);
      RunAgrees(Next(w, actions[0]), actions[1..], id, c);
    }
  }

  /** A call about `id` that was let in, as a caller sees it. */
  predicate Answered(task: Task, id: string) {
    task.Finished? && task.caller.Some? && task.caller.value.id == id && task.result != UnknownApproval && task.result != Invalid
  }

  /** All such callers come back with the stored decision. */
  ghost predicate AllHaveIt(w: World, id: string) {
    forall t :: t in w.tasks && Answered(w.tasks[t], id) ==>
      && (w.tasks[t].result.Decided? || w.tasks[t].result.Replayed?)
      && id in w.rows && Some(w.tasks[t].result.decision) == DecisionFromRow(w.rows[id])
  }

  /** Exactly one of them decided, the others replay it. */
  ghost predicate OneDecided(w: World, id: string) {
    exists t :: && t in w.tasks && Answered(w.tasks[t], id) && w.tasks[t].result.Decided?
                && forall u :: u in w.tasks && Answered(w.tasks[u], id) && u != t ==> w.tasks[u].result.Replayed?
  }

  ghost predicate AllBack(w: World, id: string) {
    (exists t :: t in w.tasks && Answered(w.tasks[t], id)) && forall t :: t in w.tasks ==> w.tasks[t].Finished?
  }

  /** Such callers all come back with the one stored decision, decided or replayed; once all are back, exactly one decided. */
  lemma OneDecidesTheRestReplay(actions: seq<Action>, id: string, c: Call)
    requires c.id == id && c.idempotent && AllInTime(Empty(), actions, id, c)
    ensures AllHaveIt(Run(Empty(), actions), id)
    ensures AllBack(Run(Empty(), actions), id) ==> OneDecided(Run(Empty(), actions), id)
  {
    hide Run, AllInTime, Inv, AllHaveIt, OneDecided;
    EmptyInv();
    RunKeepsInv(Empty(), actions);
    EmptyAgrees(id, c);
    RunAgrees(Empty(), actions, id, c);
    hide Agree;
    var w := Run(Empty(), actions);
    AnswersAreStored(w, id, c);
    if AllBack(w, id) {
      var t :| t in w.tasks && Answered(w.tasks[t], id);
      AnswerIsStored(w, t, id, c);
      ExactlyOneDecided(actions, id);
      OneIsDecided(w, id, c);
    }
  }

  lemma EmptyAgrees(id: string, c: Call)
    ensures Agree(Empty(), id, c)
  {}

  lemma AnswersAreStored(w: World, id: string, c: Call)
    requires Inv(w) && Agree(w, id, c)
    ensures AllHaveIt(w, id)
  {
    hide Inv, Agree;
    forall t | t in w.tasks && Answered(w.tasks[t], id)
      ensures w.tasks[t].result.Decided? || w.tasks[t].result.Replayed?
      ensures id in w.rows && Some(w.tasks[t].result.decision) == DecisionFromRow(w.rows[id])
    {
      AnswerIsStored(w, t, id, c);
    }
  }

  lemma OneIsDecided(w: World, id: string, c: Call)
    requires Inv(w) && Agree(w, id, c)
    requires exists t :: t in w.tasks && Decisive(w.tasks[t], id) && forall u :: u in w.tasks && Decisive(w.tasks[u], id) ==> u == t
    ensures OneDecided(w, id)
  {
    hide Inv, Agree;
    var t :| t in w.tasks && Decisive(w.tasks[t], id) && forall u :: u in w.tasks && Decisive(w.tasks[u], id) ==> u == t;
    AnswerIsStored(w, t, id, c);
    forall u | u in w.tasks && Answered(w.tasks[u], id) && u != t ensures w.tasks[u].result.Replayed? {
      AnswerIsStored(w, u, id, c);
    }
  }

  lemma AnswerIsStored(w: World, t: nat, id: string, c: Call)
    requires Inv(w) && Agree(w, id, c) && t in w.tasks && Answered(w.tasks[t], id)
    ensures w.tasks[t].result.Decided? || w.tasks[t].result.Replayed?
    ensures id in w.rows && Some(w.tasks[t].result.decision) == DecisionFromRow(w.rows[id]) && Terminal(w.rows[id].state)
  {
    assert TaskAgrees(w.tasks[t], id, c) && TaskOk(w, t, w.tasks[t]);
  }
}
