/**
 The queue object: its calls, section by section, are the steps of the protocol.
 */
module ApprovalQueue {
  import opened Bytes
  import opened Approval
  import opened Calls

  datatype Fields = Fields(rows: map<string, Row>, waiters: map<string, nat>, chans: seq<Waiter>)

  function FieldsOf(w: World): Fields {
    Fields(w.rows, w.waiters, w.chans)
  }

  /** The step of caller `t` takes the queue from `f` to `f'` and the caller to `task`. */
  ghost predicate Steps(w: World, t: nat, f: Fields, f': Fields, task: Task) {
    && t in w.tasks && f == FieldsOf(w) && f' == FieldsOf(Next(w, Go(t)))
    && t in Next(w, Go(t)).tasks && Next(w, Go(t)).tasks[t] == task
  }

  lemma {:induction false} AloneLength(t: nat, call: Call, now: Time, k: nat)
    ensures |Alone(t, call, now, k)| == k + 1
  {
    if k > 0 { AloneLength(t, call, now, k - 1); }
  }

  /** A lone call begins with one of three tasks. */
  lemma BeginsWith(w: World, t: nat, call: Call, now: Time)
    requires t !in w.tasks
    ensures var w' := Run(w, Alone(t, call, now, 0));
            FieldsOf(w') == FieldsOf(w) && t in w'.tasks && w'.tasks[t] == Begin(w, call, now)
            && (Begin(w, call, now) == Already(call)
                || (Begin(w, call, now).Update? && Begin(w, call, now).call == call)
                || (Begin(w, call, now).Finished? && Begin(w, call, now).caller == Some(call)))
  {
    BeginsAlone(w, t, call, now);
    hide Run;
  }

  lemma ChannelThere(w: World, t: nat, call: Call, now: Time, k: nat)
    requires Inv(w)
    ensures var w' := Run(w, Alone(t, call, now, k));
            t in w'.tasks && w'.tasks[t].Send? ==> w'.tasks[t].ch < |w'.chans|
  {
    hide Run;
    RunKeepsInv(w, Alone(t, call, now, k));
    var w' := Run(w, Alone(t, call, now, k));
    if t in w'.tasks { BusyInRange(w', t); }
  }

  class Queue {
    var rows: map<string, Row>
    var waiters: map<string, nat>
    var chans: seq<Waiter>

    constructor ()
      ensures Value() == FieldsOf(Empty())
    {
      rows, waiters, chans := map[], map[], [];
    }

    function Value(): Fields
      reads this
    {
      Fields(rows, waiters, chans)
    }

    /** The INSERT of `request`. */
    method InsertPending(id: string, now: Time, ttl: nat, ghost w: World, ghost t: nat) returns (ok: bool)
      requires Value() == FieldsOf(w) && t !in w.tasks
      modifies this`rows
      ensures Value() == FieldsOf(Next(w, Insert(t, id, now, ttl)))
      ensures ok <==> id !in w.rows
    {
      ok := id !in rows;
      if ok {
        rows := rows[id := Row(Pending, "", "", 0, 0, (now + ttl) / SECOND)];
      }
    }

    /** The locked part of `request`: a channel for the caller to wait on. */
    method RegisterWaiter(id: string, ghost w: World, ghost t: nat) returns (ch: nat)
      requires Value() == FieldsOf(w) && t in w.tasks && w.tasks[t] == Register(id)
      modifies this`waiters, this`chans
      ensures Value() == FieldsOf(Next(w, Go(t)))
      ensures ch == |old(chans)| && chans == old(chans) + [Waiter(id, [], 0, false)] && waiters == old(waiters)[id := ch]
    {
      ch := |chans|;
      chans := chans + [Waiter(id, [], 0, false)];
      waiters := waiters[id := ch];
    }

    /** The checks and the read of `DecideWithResult`. */
    method Check(call: Call, now: Time) returns (task: Task)
      ensures forall w: World :: FieldsOf(w) == Value() ==> task == Begin(w, call, now)
    {
      if StateForVerdict(call.verdict).None? {
        return Finished(Some(call), Invalid);
      }
      if call.verdict == Edit && !call.isObject {
        return Finished(Some(call), Invalid);
      }
      if call.id !in rows {
        return Finished(Some(call), UnknownApproval);
      }
      var row := rows[call.id];
      if row.state != Pending {
        return Already(call);
      }
      if UserVerdict(call.verdict) && row.expiresAt * SECOND <= now {
        return Update(call, Expire, "", EXPIRED_REASON, 0, now);
      }
      task := Update(call, call.verdict, call.edited, call.reason, call.actor, now);
    }

    /** The guarded UPDATE of `finish`: it moves the row only out of pending. */
    method UpdatePending(u: Task, ghost w: World, ghost t: nat) returns (task: Task)
      requires u.Update? && Value() == FieldsOf(w) && t in w.tasks && w.tasks[t] == u
      modifies this`rows
      ensures Steps(w, t, old(Value()), Value(), task)
      ensures task == Already(u.call) || (task.Deliver? && task.call == u.call)
    {
      var id := u.call.id;
      var st := StateForVerdict(u.verdict);
      if id !in rows || st.None? || rows[id].state != Pending {
        return Already(u.call);
      }
      rows := rows[id := Row(st.value, u.edited, u.reason, Unix(u.now), u.actor, rows[id].expiresAt)];
      var updated := None;
      if u.verdict == Edit && u.edited != "" {
        updated := Some(u.edited);
      }
      task := Deliver(u.call, Decision(u.verdict, updated, u.reason, u.actor, Unix(u.now)));
    }

    /** The locked part of `deliver`. */
    method TakeWaiter(u: Task, ghost w: World, ghost t: nat) returns (task: Task)
      requires u.Deliver? && Value() == FieldsOf(w) && t in w.tasks && w.tasks[t] == u
      modifies this`waiters
      ensures Steps(w, t, old(Value()), Value(), task)
      ensures (task.Finished? || task.Send?) && task.caller == Some(u.call)
    {
      var id := u.call.id;
      if id !in waiters {
        return Finished(Some(u.call), Final(u.call, u.decision.verdict, u.decision, false));
      }
      var ch := waiters[id];
      waiters := waiters - {id};
      task := Send(Some(u.call), ch, u.decision);
    }

    method SendOn(u: Task, ghost w: World, ghost t: nat) returns (task: Task)
      requires u.Send? && Value() == FieldsOf(w) && t in w.tasks && w.tasks[t] == u && u.ch < |chans|
      modifies this`chans
      ensures Steps(w, t, old(Value()), Value(), task)
      ensures task == CloseCh(u.caller, u.ch, u.decision) && |chans| == |old(chans)|
    {
      var c := chans[u.ch];
      chans := chans[u.ch := c.(sent := c.sent + [u.decision], forced := c.forced || u.caller.None?)];
      task := CloseCh(u.caller, u.ch, u.decision);
    }

    method CloseChannel(u: Task, ghost w: World, ghost t: nat) returns (task: Task)
      requires u.CloseCh? && Value() == FieldsOf(w) && t in w.tasks && w.tasks[t] == u && u.ch < |chans|
      modifies this`chans
      ensures Steps(w, t, old(Value()), Value(), task)
      ensures task.Finished? && task.caller == u.caller
    {
      var c := chans[u.ch];
      chans := chans[u.ch := c.(closes := c.closes + 1)];
      task := Finished(u.caller, if u.caller.Some? then Final(u.caller.value, u.decision.verdict, u.decision, true) else Invalid);
    }

    /** The second look of `DecideIdempotently`. */
    method LookAgain(u: Task, ghost w: World, ghost t: nat) returns (task: Task)
      requires u.Reread? && Value() == FieldsOf(w) && t in w.tasks && w.tasks[t] == u
      ensures Steps(w, t, Value(), Value(), task)
      ensures task.Finished? && task.caller == Some(u.call)
    {
      var call := u.call;
      if call.id !in rows {
        return Finished(Some(call), UnknownApproval);
      }
      var row := rows[call.id];
      if Some(row.state) != StateForVerdict(call.verdict) || (call.verdict == Edit && row.edited != call.edited) {
        return Finished(Some(call), AlreadyDecided);
      }
      var d := DecisionFromRow(row);
      if d.None? {
        return Finished(Some(call), AlreadyDecided);
      }
      task := Finished(Some(call), Replayed(d.value));
    }

    /** A whole call with nobody else about: a run of the protocol by one caller, and what it comes to. */
    method DecideUndisturbed(call: Call, now: Time, ghost w: World, ghost t: nat) returns (r: Result, ghost actions: seq<Action>)
      requires Inv(w) && Value() == FieldsOf(w) && t !in w.tasks
      modifies this
      ensures 1 <= |actions| <= 5 && actions == Alone(t, call, now, |actions| - 1)
      ensures Value() == FieldsOf(Run(w, actions))
      ensures t in Run(w, actions).tasks && Run(w, actions).tasks[t] == Finished(Some(call), r)
      ensures Outcome(w, Run(w, actions), call, now, r)
    {
      hide Inv, Next, Run, Alone, Lone, Outcome;
      LoneOutcome(w, t, call, now);
      var task := Check(call, now);
      BeginsWith(w, t, call, now);
      ghost var k := 0;
      if task.Update? {
        task := UpdatePending(task, Run(w, Alone(t, call, now, 0)), t);
        GoesAlone(w, t, call, now, k);
        k := 1;
        if task.Deliver? {
          task := TakeWaiter(task, Run(w, Alone(t, call, now, k)), t);
          GoesAlone(w, t, call, now, k);
          k := 2;
          if task.Send? {
            ChannelThere(w, t, call, now, k);
            task := SendOn(task, Run(w, Alone(t, call, now, k)), t);
            GoesAlone(w, t, call, now, k);
            k := 3;
            task := CloseChannel(task, Run(w, Alone(t, call, now, k)), t);
            GoesAlone(w, t, call, now, k);
            k := 4;
          }
        }
      }
      if task.Reread? {
        task := LookAgain(task, Run(w, Alone(t, call, now, k)), t);
        GoesAlone(w, t, call, now, k);
        k := k + 1;
      }
      r := task.result;
      actions := Alone(t, call, now, k);
      AloneLength(t, call, now, k);
      OverIsLone(w, t, call, now, k);
    }

    method DropWaiterOf(id: string, ghost w: World)
      requires Value() == FieldsOf(w)
      modifies this`waiters
      ensures Value() == FieldsOf(Next(w, DropWaiter(id)))
    {
      waiters := waiters - {id};
    }
  }
}
