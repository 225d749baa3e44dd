/**
 What a decision call comes to: which calls are let in, whatever others do, and, for a call with nobody
 else about, the row it leaves and the answer it brings back, verdict by verdict.
 */
module Calls {
  import opened Bytes
  import opened Approval

  /** No verdict that is known, or an edit whose input is no JSON object. */
  predicate TurnedAway(call: Call) {
    call.verdict == Unknown || (call.verdict == Edit && !call.isObject)
  }

  function CallOf(task: Task): Option<Call> {
    match task
    case Register(_) => None
    case Update(call, _, _, _, _, _) => Some(call)
    case Deliver(call, _) => Some(call)
    case Send(caller, _, _) => caller
    case CloseCh(caller, _, _) => caller
    case Reread(call) => Some(call)
    case Finished(caller, _) => caller
  }

  /** `known`: the id had a row when the call began. Who is let in goes on; who is not is told why. */
  predicate LetIn(task: Task, call: Call, known: bool) {
    && CallOf(task) == Some(call)
    && if task.Finished? then
         && (task.result == Invalid <==> TurnedAway(call))
         && (task.result == UnknownApproval <==> !TurnedAway(call) && !known)
       else !TurnedAway(call) && known
  }

  lemma BeginLetsIn(w: World, call: Call, now: Time)
    ensures LetIn(Begin(w, call, now), call, call.id in w.rows)
  {}

  lemma StepLetsIn(w: World, t: nat, call: Call, known: bool)
    requires t in w.tasks && TaskOk(w, t, w.tasks[t]) && LetIn(w.tasks[t], call, known) && (known ==> call.id in w.rows)
    ensures t in Advance(w, t).tasks && LetIn(Advance(w, t).tasks[t], call, known)
  {
    hide StateForVerdict, DecisionFromRow, Won, UpdateOk;
    if w.tasks[t].Finished? { FinishedStays(w, t); }
  }

  lemma InvTask(w: World, t: nat)
    requires Inv(w) && t in w.tasks
    ensures TaskOk(w, t, w.tasks[t])
  {}

  lemma NextLetsIn(w: World, a: Action, t: nat, call: Call, known: bool)
    requires Inv(w) && t in w.tasks && LetIn(w.tasks[t], call, known) && (known ==> call.id in w.rows)
    ensures var w' := Next(w, a); t in w'.tasks && LetIn(w'.tasks[t], call, known) && (known ==> call.id in w'.rows)
  {
    InvTask(w, t);
    NextExtends(w, a);
    hide Inv, LetIn, TaskOk, Begin, Advance;
    if a.Go? && a.t in w.tasks {
      if a.t == t { StepLetsIn(w, t, call, known); } else { OnlyItMoves(w, a.t); }
    }
  }

  lemma {:induction false} RunLetsIn(w: World, actions: seq<Action>, t: nat, call: Call, known: bool)
    requires Inv(w) && t in w.tasks && LetIn(w.tasks[t], call, known) && (known ==> call.id in w.rows)
    ensures t in Run(w, actions).tasks && LetIn(Run(w, actions).tasks[t], call, known)
    decreases |actions|
  {
    hide Inv, Next, LetIn;
    if actions != [] {
      NextKeepsInv(w, actions[0]);
      NextLetsIn(w, actions[0], t, call, known);
      RunLetsIn(Next(w, actions[0]), actions[1..], t, call, known);
    }
  }

  /**
   In every run: a call ends as invalid iff its verdict is unknown or it is an edit whose input is no object, and with
   an unknown approval iff its id had no row when it began; otherwise it ends, if at all, with a decision.
   */
  lemma WhoIsLetIn(before: seq<Action>, t: nat, call: Call, now: Time, later: seq<Action>)
    requires t !in Run(Empty(), before).tasks
    ensures var w := Run(Empty(), before);
            var w' := Run(Next(w, Start(t, call, now)), later);
            t in w'.tasks && LetIn(w'.tasks[t], call, call.id in w.rows)
  {
    var w := Run(Empty(), before);
    EmptyInv();
    RunKeepsInv(Empty(), before);
    hide Run, Inv, Begin, LetIn;
    BeginLetsIn(w, call, now);
    NextKeepsInv(w, Start(t, call, now));
    RunLetsIn(Next(w, Start(t, call, now)), later, t, call, call.id in w.rows);
  }

  // ---- a call with nobody else about ----

  /** A call that takes `k` steps, and nothing else. */
  function Alone(t: nat, call: Call, now: Time, k: nat): seq<Action> {
    if k == 0 then [Start(t, call, now)] else Alone(t, call, now, k - 1) + [Go(t)]
  }

  lemma BeginsAlone(w: World, t: nat, call: Call, now: Time)
    requires t !in w.tasks
    ensures Run(w, Alone(t, call, now, 0)) == Put(w, t, Begin(w, call, now))
  {
    hide Begin;
    RunAppend(w, [], Start(t, call, now));
    assert [] + [Start(t, call, now)] == Alone(t, call, now, 0);
  }

  lemma GoesAlone(w: World, t: nat, call: Call, now: Time, k: nat)
    ensures Run(w, Alone(t, call, now, k + 1)) == Next(Run(w, Alone(t, call, now, k)), Go(t))
  {
    RunAppend(w, Alone(t, call, now, k), Go(t));
  }

  /** The world a lone call leaves. */
  function Lone(w: World, t: nat, call: Call, now: Time): World {
    Run(w, Alone(t, call, now, 4))
  }

  /** A lone call that is over has left that world. */
  lemma {:induction false} OverIsLone(w: World, t: nat, call: Call, now: Time, k: nat)
    requires k <= 4 && t in Run(w, Alone(t, call, now, k)).tasks && Run(w, Alone(t, call, now, k)).tasks[t].Finished?
    ensures Run(w, Alone(t, call, now, k)) == Lone(w, t, call, now)
    decreases 4 - k
  {
    hide Run, Advance;
    if k < 4 {
      GoesAlone(w, t, call, now, k);
      FinishedStays(Run(w, Alone(t, call, now, k)), t);
      OverIsLone(w, t, call, now, k + 1);
    }
  }

  /** The state that stands for a verdict, and what is said about it. */
  predicate StandsFor(v: Verdict, s: State) {
    || (v == Approve && s == Approved) || (v == Deny && s == Denied) || (v == Edit && s == Edited)
    || (v == Expire && s == Expired) || (v == Cancel && s == Cancelled)
  }

  /** A user's verdict after the deadline. */
  predicate Late(row: Row, call: Call, now: Time) {
    (call.verdict == Approve || call.verdict == Deny || call.verdict == Edit) && row.expiresAt * 1_000_000_000 <= now
  }

  /** The row decided by `d`, with input `edited`, now. */
  predicate DecidedAs(row: Row, row': Row, d: Decision, edited: string, now: Time) {
    && StandsFor(d.verdict, row'.state) && row'.edited == edited && row'.reason == d.reason && row'.decidedBy == d.decidedBy
    && row'.decidedAt == d.decidedAt == now / 1_000_000_000 && row'.expiresAt == row.expiresAt
    && d.updated == if d.verdict == Edit && edited != "" then Some(edited) else None
  }

  /** The waiter of `id`, if there is one, is sent `d`, its channel is closed, and it is forgotten. */
  predicate Hears(w: World, w': World, id: string, d: Decision) {
    && w'.waiters == w.waiters - {id} && |w'.chans| == |w.chans|
    && if id in w.waiters && w.waiters[id] < |w.chans| then
         var ch, c := w.waiters[id], w.chans[w.waiters[id]];
         w'.chans == w.chans[ch := c.(sent := c.sent + [d], closes := c.closes + 1)]
       else w'.chans == w.chans
  }

  /** What a call on a pending row comes to: in time its own verdict, words and actor; late an expiry in nobody's name. */
  predicate Decides(w: World, w': World, call: Call, now: Time, r: Result)
    requires call.id in w.rows
  {
    var row, id := w.rows[call.id], call.id;
    && id in w'.rows && w'.rows == w.rows[id := w'.rows[id]]
    && if Late(row, call, now) then
         && r.TooLate? && r.decision.verdict == Expire && r.decision.reason == "approval expired (5 min TTL)" && r.decision.decidedBy == 0
         && DecidedAs(row, w'.rows[id], r.decision, "", now) && (r.delivered <==> id in w.waiters) && Hears(w, w', id, r.decision)
       else
         && r.Decided? && r.decision.verdict == call.verdict && r.decision.reason == call.reason && r.decision.decidedBy == call.actor
         && DecidedAs(row, w'.rows[id], r.decision, call.edited, now) && (r.delivered <==> id in w.waiters) && Hears(w, w', id, r.decision)
  }

  /** What a call on a decided row comes to: only an idempotent one that asks for the same thing gets the stored decision. */
  predicate Repeats(w: World, call: Call, r: Result)
    requires call.id in w.rows
  {
    var row := w.rows[call.id];
    if call.idempotent && StandsFor(call.verdict, row.state) && (call.verdict == Edit ==> row.edited == call.edited) then
      && r.Replayed? && r.decision.verdict == call.verdict && r.decision.reason == row.reason && r.decision.decidedBy == row.decidedBy
      && (row.decidedAt > 0 ==> r.decision.decidedAt == row.decidedAt)
      && r.decision.updated == if call.verdict == Edit && row.edited != "" then Some(row.edited) else None
    else r == AlreadyDecided
  }

  /** The whole outcome of a lone call. */
  predicate Outcome(w: World, w': World, call: Call, now: Time, r: Result) {
    if TurnedAway(call) then r == Invalid && Same(w, w')
    else if call.id !in w.rows then r == UnknownApproval && Same(w, w')
    else if w.rows[call.id].state != Pending then Repeats(w, call, r) && Same(w, w')
    else Decides(w, w', call, now, r)
  }

  predicate Same(w: World, w': World) {
    w'.rows == w.rows && w'.waiters == w.waiters && w'.chans == w.chans
  }

  lemma LoneSteps(w: World, t: nat, call: Call, now: Time)
    requires t !in w.tasks
    ensures var w0 := Put(w, t, Begin(w, call, now));
            Lone(w, t, call, now) == Next(Next(Next(Next(w0, Go(t)), Go(t)), Go(t)), Go(t))
  {
    hide Run, Begin, Next;
    BeginsAlone(w, t, call, now);
    GoesAlone(w, t, call, now, 0);
    GoesAlone(w, t, call, now, 1);
    GoesAlone(w, t, call, now, 2);
    GoesAlone(w, t, call, now, 3);
  }

  lemma Rests(w: World, t: nat)
    requires t in w.tasks && w.tasks[t].Finished?
    ensures Next(w, Go(t)) == w
  {
    FinishedStays(w, t);
  }

  lemma TurnedAwayOutcome(w: World, t: nat, call: Call, now: Time)
    requires t !in w.tasks && (TurnedAway(call) || call.id !in w.rows)
    ensures var w' := Lone(w, t, call, now);
            t in w'.tasks && w'.tasks[t].Finished? && Outcome(w, w', call, now, w'.tasks[t].result)
  {
    LoneSteps(w, t, call, now);
    var w0 := Put(w, t, Begin(w, call, now));
    Rests(w0, t);
    hide Run, Next;
  }

  lemma RepeatOutcome(w: World, t: nat, call: Call, now: Time)
    requires t !in w.tasks && !TurnedAway(call) && call.id in w.rows && w.rows[call.id].state != Pending
    ensures var w' := Lone(w, t, call, now);
            t in w'.tasks && w'.tasks[t].Finished? && Outcome(w, w', call, now, w'.tasks[t].result)
  {
    LoneSteps(w, t, call, now);
    var w0 := Put(w, t, Begin(w, call, now));
    var w1 := Next(w0, Go(t));
    LooksOnce(w, t, call, now);
    Rests(w1, t);
    hide Run, Next, Outcome, Begin, Lone;
  }

  lemma LooksOnce(w: World, t: nat, call: Call, now: Time)
    requires t !in w.tasks && !TurnedAway(call) && call.id in w.rows && w.rows[call.id].state != Pending
    ensures var w1 := Next(Put(w, t, Begin(w, call, now)), Go(t));
            t in w1.tasks && w1.tasks[t].Finished? && Outcome(w, w1, call, now, w1.tasks[t].result)
  {}

  /** The update of a pending row. */
  lemma Updates(w: World, t: nat, call: Call, now: Time)
    requires t !in w.tasks && !TurnedAway(call) && call.id in w.rows && w.rows[call.id].state == Pending
    ensures var w1 := Next(Put(w, t, Begin(w, call, now)), Go(t));
            && t in w1.tasks && w1.tasks[t].Deliver? && w1.tasks[t].call == call && w1.waiters == w.waiters && w1.chans == w.chans
            && call.id in w1.rows && w1.rows == w.rows[call.id := w1.rows[call.id]]
            && var d, late := w1.tasks[t].decision, Late(w.rows[call.id], call, now);
               && DecidedAs(w.rows[call.id], w1.rows[call.id], d, if late then "" else call.edited, now)
               && (if late then d.verdict == Expire && d.reason == "approval expired (5 min TTL)" && d.decidedBy == 0
                   else d.verdict == call.verdict && d.reason == call.reason && d.decidedBy == call.actor)
  {}

  /** From there on: the delivery, and the answer. */
  lemma Delivers(w: World, t: nat)
    requires t in w.tasks && w.tasks[t].Deliver?
    requires var id := w.tasks[t].call.id; id in w.waiters ==> w.waiters[id] < |w.chans|
    ensures var call, d := w.tasks[t].call, w.tasks[t].decision;
            var w' := Next(Next(Next(w, Go(t)), Go(t)), Go(t));
            && t in w'.tasks && w'.tasks[t] == Finished(Some(call), Final(call, d.verdict, d, call.id in w.waiters))
            && w'.rows == w.rows && Hears(w, w', call.id, d)
  {
    hide Final;
    var id := w.tasks[t].call.id;
    var w1 := Next(w, Go(t));
    if id in w.waiters {
      var w2 := Next(w1, Go(t));
      assert w2.tasks[t].CloseCh? && w2.chans == w.chans[w.waiters[id] := w2.chans[w.waiters[id]]];
    } else {
      Rests(w1, t);
      assert w.waiters - {id} == w.waiters;
    }
  }

  lemma DecideOutcome(w: World, t: nat, call: Call, now: Time)
    requires t !in w.tasks && !TurnedAway(call) && call.id in w.rows && w.rows[call.id].state == Pending
    requires call.id in w.waiters ==> w.waiters[call.id] < |w.chans|
    ensures var w' := Lone(w, t, call, now);
            t in w'.tasks && w'.tasks[t].Finished? && Outcome(w, w', call, now, w'.tasks[t].result)
  {
    LoneSteps(w, t, call, now);
    Updates(w, t, call, now);
    hide Run, Next, Begin, Lone, Hears, DecidedAs;
    Delivers(Next(Put(w, t, Begin(w, call, now)), Go(t)), t);
    HearsSame(w, Next(Put(w, t, Begin(w, call, now)), Go(t)), Lone(w, t, call, now), call.id);
  }

  lemma HearsSame(w: World, w1: World, w': World, id: string)
    requires w1.waiters == w.waiters && w1.chans == w.chans
    ensures forall d :: Hears(w1, w', id, d) ==> Hears(w, w', id, d)
  {}

  /** The row and the answer of any call that has the queue to itself. */
  lemma LoneOutcome(w: World, t: nat, call: Call, now: Time)
    requires Inv(w) && t !in w.tasks
    ensures var w' := Lone(w, t, call, now);
            t in w'.tasks && w'.tasks[t].Finished? && Outcome(w, w', call, now, w'.tasks[t].result)
  {
    WaiterInRange(w, call.id);
    hide Inv, Lone, Outcome, TurnedAway;
    if TurnedAway(call) || call.id !in w.rows {
      TurnedAwayOutcome(w, t, call, now);
    } else if w.rows[call.id].state != Pending {
      RepeatOutcome(w, t, call, now);
    } else {
      DecideOutcome(w, t, call, now);
    }
  }

  /** Invalidating a waiter sends it a cancellation with the reason given, in nobody's name, and closes its channel; the row stays. */
  lemma InvalidationTold(w: World, t: nat, id: string, reason: string, now: Time)
    requires t !in w.tasks && id in w.waiters && w.waiters[id] < |w.chans|
    ensures var w' := Next(Next(Next(w, Invalidate(t, id, reason, now)), Go(t)), Go(t));
            && w'.rows == w.rows && Hears(w.(chans := w.chans[w.waiters[id] := w.chans[w.waiters[id]].(forced := true)]), w', id,
                                          Decision(Cancel, None, reason, 0, now / 1_000_000_000))
            && t in w'.tasks && w'.tasks[t].Finished?
  {
    var ch := w.waiters[id];
    var w1 := Next(w, Invalidate(t, id, reason, now));
    var w2 := Next(w1, Go(t));
    assert w2.tasks[t].CloseCh? && w2.chans == w.chans[ch := w2.chans[ch]];
  }

  lemma WaiterInRange(w: World, id: string)
    requires Inv(w)
    ensures id in w.waiters ==> w.waiters[id] < |w.chans|
  {
    if id in w.waiters { assert WaiterOk(w, id); }
  }
}
