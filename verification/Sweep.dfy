/**
 The expiry sweeper, a loop of ordinary decision calls, run against any behaviour of the other
 callers: `others` gives what they do before each of its own steps.
 */
module Sweep {
  import opened Bytes
  import opened Approval

  /** Other callers' tasks have numbers below `lo`. */
  predicate Foreign(a: Action, lo: nat) {
    match a
    case Insert(t, _, _, _) => t < lo
    case Start(t, _, _) => t < lo
    case Go(t) => t < lo
    case Invalidate(t, _, _, _) => t < lo
    case DropWaiter(_) => true
  }

  predicate AllForeign(actions: seq<Action>, lo: nat) {
    forall a :: a in actions ==> Foreign(a, lo)
  }

  ghost predicate TasksBelow(w: World, hi: nat) {
    forall t :: t in w.tasks ==> t < hi
  }

  /** Tasks numbered from `lo` on are as they were. */
  ghost predicate OwnTasksStay(w: World, w': World, lo: nat) {
    forall t :: t >= lo ==> (t in w'.tasks <==> t in w.tasks) && (t in w.tasks ==> w'.tasks[t] == w.tasks[t])
  }

  lemma {:induction false} ForeignRun(w: World, actions: seq<Action>, lo: nat, hi: nat)
    requires AllForeign(actions, lo) && TasksBelow(w, hi) && lo <= hi
    ensures TasksBelow(Run(w, actions), hi) && OwnTasksStay(w, Run(w, actions), lo)
    decreases |actions|
  {
    if actions != [] {
      ForeignNext(w, actions[0], lo, hi);
      hide Next;
      assert forall a :: a in actions[1..] ==> a in actions;
      ForeignRun(Next(w, actions[0]), actions[1..], lo, hi);
    }
  }

  lemma ForeignNext(w: World, a: Action, lo: nat, hi: nat)
    requires Foreign(a, lo) && TasksBelow(w, hi) && lo <= hi
    ensures TasksBelow(Next(w, a), hi) && OwnTasksStay(w, Next(w, a), lo)
  {
    hide Advance, Begin;
    if a.Go? && a.t in w.tasks { OnlyItMoves(w, a.t); }
  }

  /** How many steps a call still has. */
  function StepsLeft(task: Task): nat {
    match task
    case Register(_) => 1
    case Update(_, _, _, _, _, _) => 4
    case Deliver(_, _) => 3
    case Send(_, _, _) => 2
    case CloseCh(_, _, _) => 1
    case Reread(_) => 1
    case Finished(_, _) => 0
  }

  predicate Deciding(task: Task, call: Call) {
    match task
    case Update(c, _, _, _, _, _) => c == call
    case Deliver(c, _) => c == call
    case Send(c, _, _) => c == Some(call)
    case CloseCh(c, _, _) => c == Some(call)
    case Reread(c) => c == call
    case Finished(c, r) => c == Some(call)
    case _ => false
  }

  /** A call on a known id with a verdict that needs no input cannot be turned away as such. */
  predicate Answered(task: Task) {
    task.Finished? ==> task.result != UnknownApproval && task.result != Invalid
  }

  predicate Plain(call: Call) {
    StateForVerdict(call.verdict).Some? && call.verdict != Edit
  }

  lemma Begins(w: World, t: nat, call: Call, now: Time)
    requires Sound(w) && t !in w.tasks && TasksBelow(w, t + 1)
    ensures var w' := Next(w, Start(t, call, now));
            && Sound(w') && Extends(w, w') && TasksBelow(w', t + 1) && t in w'.tasks
            && Deciding(w'.tasks[t], call) && (call.id in w.rows && Plain(call) ==> Answered(w'.tasks[t]))
  {
    NextKeepsSound(w, Start(t, call, now));
    NextExtends(w, Start(t, call, now));
    hide Sound, Extends, TasksBelow;
  }

  lemma GoesOn(w: World, t: nat, call: Call)
    requires Sound(w) && t in w.tasks && Deciding(w.tasks[t], call) && !w.tasks[t].Finished? && TasksBelow(w, t + 1)
    ensures var w' := Next(w, Go(t));
            && Sound(w') && Extends(w, w') && TasksBelow(w', t + 1) && t in w'.tasks
            && Deciding(w'.tasks[t], call) && StepsLeft(w'.tasks[t]) < StepsLeft(w.tasks[t])
            && (call.id in w.rows && Plain(call) ==> Answered(w'.tasks[t]))
  {
    hide Sound, Extends, TasksBelow, Advance, Inv, Answered, Plain, Deciding, StepsLeft;
    InvOfTask(w, t);
    NextKeepsSound(w, Go(t));
    NextExtends(w, Go(t));
    AdvanceProgresses(w, t, call);
    StillBelow(w, Next(w, Go(t)), t + 1);
  }

  lemma InvOfTask(w: World, t: nat)
    requires Sound(w) && t in w.tasks
    ensures Inv(w) && TaskOk(w, t, w.tasks[t])
  {}

  lemma StillBelow(w: World, w': World, hi: nat)
    requires TasksBelow(w, hi) && w'.tasks.Keys == w.tasks.Keys
    ensures TasksBelow(w', hi)
  {}

  lemma AdvanceProgresses(w: World, t: nat, call: Call)
    requires t in w.tasks && TaskOk(w, t, w.tasks[t]) && Deciding(w.tasks[t], call) && !w.tasks[t].Finished?
    ensures var w' := Advance(w, t);
            && t in w'.tasks && Deciding(w'.tasks[t], call) && StepsLeft(w'.tasks[t]) < StepsLeft(w.tasks[t])
            && w'.tasks.Keys == w.tasks.Keys
            && (call.id in w.rows && Plain(call) ==> Answered(w'.tasks[t]))
  {
    if w.tasks[t].Update? {
      UpdateProgresses(w, t, call);
    } else if w.tasks[t].Reread? {
      RereadProgresses(w, t, call);
    } else {
      DeliveryProgresses(w, t, call);
    }
  }

  lemma UpdateProgresses(w: World, t: nat, call: Call)
    requires t in w.tasks && TaskOk(w, t, w.tasks[t]) && Deciding(w.tasks[t], call) && w.tasks[t].Update?
    ensures var w' := Advance(w, t);
            && t in w'.tasks && Deciding(w'.tasks[t], call) && StepsLeft(w'.tasks[t]) < StepsLeft(w.tasks[t])
            && w'.tasks.Keys == w.tasks.Keys && (call.id in w.rows && Plain(call) ==> Answered(w'.tasks[t]))
  {
    hide DecisionFromRow;
  }

  lemma RereadProgresses(w: World, t: nat, call: Call)
    requires t in w.tasks && TaskOk(w, t, w.tasks[t]) && Deciding(w.tasks[t], call) && w.tasks[t].Reread?
    ensures var w' := Advance(w, t);
            && t in w'.tasks && Deciding(w'.tasks[t], call) && StepsLeft(w'.tasks[t]) < StepsLeft(w.tasks[t])
            && w'.tasks.Keys == w.tasks.Keys && (call.id in w.rows && Plain(call) ==> Answered(w'.tasks[t]))
  {}

  lemma DeliveryProgresses(w: World, t: nat, call: Call)
    requires t in w.tasks && TaskOk(w, t, w.tasks[t]) && Deciding(w.tasks[t], call)
    requires w.tasks[t].Deliver? || w.tasks[t].Send? || w.tasks[t].CloseCh?
    ensures var w' := Advance(w, t);
            && t in w'.tasks && Deciding(w'.tasks[t], call) && StepsLeft(w'.tasks[t]) < StepsLeft(w.tasks[t])
            && w'.tasks.Keys == w.tasks.Keys && (call.id in w.rows && Plain(call) ==> Answered(w'.tasks[t]))
  {
    hide Won, StateForVerdict;
  }

  lemma ExtendsHas(w: World, w': World, id: string)
    requires Extends(w, w') && id in w.rows
    ensures id in w'.rows && (Terminal(w.rows[id].state) ==> w'.rows[id] == w.rows[id])
  {}

  predicate Overdue(row: Row, now: int) {
    row.state == Pending && row.expiresAt <= now
  }

  /** Rows the sweeper itself moved: `ids[i]` was won by its `i`th call. */
  function Moved(w: World, ids: seq<string>, lo: nat): nat {
    if ids == [] then 0
    else
      var i := |ids| - 1;
      Moved(w, ids[..i], lo) + (if ids[i] in w.winner && w.winner[ids[i]] == lo + i then 1 else 0)
  }

  lemma MovedStays(w: World, w': World, ids: seq<string>, lo: nat)
    requires Extends(w, w') && forall id :: id in ids ==> id in w.winner
    ensures Moved(w', ids, lo) == Moved(w, ids, lo)
  {
    if ids != [] {
      var i := |ids| - 1;
      assert ids[i] in ids && forall id :: id in ids[..i] ==> id in ids;
      MovedStays(w, w', ids[..i], lo);
    }
  }

  /** A finished call that was not turned away left its row decided, and won it iff it says so. */
  lemma FinishedDecided(w: World, t: nat, call: Call, r: Result)
    requires Sound(w) && t in w.tasks && w.tasks[t] == Finished(Some(call), r)
    requires r != UnknownApproval && r != Invalid && call.verdict == Expire
    ensures call.id in w.rows && Terminal(w.rows[call.id].state) && call.id in w.winner
    ensures w.winner[call.id] == t <==> r.Decided?
    ensures r.Decided? ==> var row := w.rows[call.id]; row.state == Expired && row.reason == call.reason && row.decidedBy == call.actor
  {
    assert TaskOk(w, t, w.tasks[t]);
    assert RowOk(w, call.id);
    assert Acting(w.tasks[w.winner[call.id]], call.id);
  }

  lemma HasWinner(w: World, id: string)
    requires Sound(w) && id in w.rows && Terminal(w.rows[id].state)
    ensures id in w.winner
  {
    assert RowOk(w, id);
  }

  ghost predicate AllDecided(w: World, ids: seq<string>) {
    forall id :: id in ids ==> id in w.rows && Terminal(w.rows[id].state)
  }

  /** The rows the sweeper won are expired, in nobody's name and with the reason it gives. */
  ghost predicate MovedExpired(w: World, ids: seq<string>, lo: nat) {
    forall i :: OwnWin(w, ids, lo, i) ==> ids[i] in w.rows && ExpiredRow(w.rows[ids[i]])
  }

  /** Row `ids[i]` was won by the sweeper's call for it. */
  predicate OwnWin(w: World, ids: seq<string>, lo: nat, i: int) {
    0 <= i < |ids| && ids[i] in w.winner && w.winner[ids[i]] == lo + i
  }

  predicate ExpiredRow(row: Row) {
    row.state == Expired && row.reason == "approval expired (5 min TTL)" && row.decidedBy == 0
  }

  lemma MovedExpiredStays(w: World, w': World, ids: seq<string>, lo: nat)
    requires Extends(w, w') && MovedExpired(w, ids, lo) && AllDecided(w, ids) && forall id :: id in ids ==> id in w.winner
    ensures MovedExpired(w', ids, lo)
  {
    hide ExpiredRow;
    forall i | OwnWin(w', ids, lo, i) ensures ids[i] in w'.rows && ExpiredRow(w'.rows[ids[i]]) {
      assert ids[i] in ids;
      assert OwnWin(w, ids, lo, i);
    }
  }

  lemma AllDecidedStays(w: World, w': World, ids: seq<string>)
    requires Extends(w, w') && AllDecided(w, ids)
    ensures AllDecided(w', ids)
  {}

  lemma AllWon(w: World, ids: seq<string>)
    requires Sound(w) && AllDecided(w, ids)
    ensures forall id :: id in ids ==> id in w.winner
  {
    hide Sound;
    forall id | id in ids ensures id in w.winner { HasWinner(w, id); }
  }

  lemma SweepBegins(w: World, lo: nat)
    ensures Extends(w, w) && AllDecided(w, []) && MovedExpired(w, [], lo)
  {}

  lemma NextIsFree(w: World, t: nat)
    requires TasksBelow(w, t)
    ensures t !in w.tasks && TasksBelow(w, t + 1)
  {}

  /** What one call of the sweep adds. */
  lemma SweepStep(was: World, w: World, ids: seq<string>, i: nat, lo: nat, call: Call, r: Result)
    requires i < |ids| && call.id == ids[i] && call.verdict == Expire
    requires Sound(was) && Sound(w) && Extends(was, w) && AllDecided(was, ids[..i])
    requires lo + i in w.tasks && w.tasks[lo + i] == Finished(Some(call), r)
    requires r != UnknownApproval && r != Invalid
    ensures AllDecided(w, ids[..i + 1])
    ensures Moved(w, ids[..i + 1], lo) == Moved(was, ids[..i], lo) + if r.Decided? then 1 else 0
    ensures MovedExpired(was, ids[..i], lo) && call.reason == EXPIRED_REASON && call.actor == 0 ==> MovedExpired(w, ids[..i + 1], lo)
  {
    hide Sound, Extends;
    AllDecidedStays(was, w, ids[..i]);
    AllWon(was, ids[..i]);
    MovedStays(was, w, ids[..i], lo);
    FinishedDecided(w, lo + i, call, r);
    assert ids[..i + 1] == ids[..i] + [ids[i]] && ids[..i + 1][..i] == ids[..i];
    if MovedExpired(was, ids[..i], lo) && call.reason == EXPIRED_REASON && call.actor == 0 {
      MovedExpiredStays(was, w, ids[..i], lo);
      hide AllDecided, Moved, MovedExpired;
      OneMoreExpired(w, ids, i, lo);
    }
  }

  lemma OneMoreExpired(w: World, ids: seq<string>, i: nat, lo: nat)
    requires i < |ids| && MovedExpired(w, ids[..i], lo)
    requires OwnWin(w, ids, lo, i) ==> ids[i] in w.rows && ExpiredRow(w.rows[ids[i]])
    ensures MovedExpired(w, ids[..i + 1], lo)
  {
    hide ExpiredRow;
    var more := ids[..i + 1];
    forall j | OwnWin(w, more, lo, j) ensures more[j] in w.rows && ExpiredRow(w.rows[more[j]]) {
      assert OwnWin(w, ids, lo, j);
      assert j < i ==> OwnWin(w, ids[..i], lo, j) && ids[..i][j] == more[j];
    }
  }

  class Queue {
    var w: World

    constructor ()
      ensures w == Empty()
    {
      w := Empty();
    }

    method Others(actions: seq<Action>)
      modifies this
      ensures w == Run(old(w), actions)
    {
      for i := 0 to |actions|
        invariant Run(w, actions[i..]) == Run(old(w), actions)
      {
        assert actions[i..][1..] == actions[i + 1..];
        w := Next(w, actions[i]);
      }
    }

    /** The ids of the overdue rows: the sweeper's SELECT. */
    method SelectOverdue(now: int) returns (ids: seq<string>)
      ensures forall id :: id in ids <==> id in w.rows && w.rows[id].state == Pending && w.rows[id].expiresAt <= now
      ensures forall i, j :: 0 <= i < j < |ids| ==> ids[i] != ids[j]
    {
      ids := [];
      var todo := w.rows.Keys;
      while todo != {}
        invariant todo <= w.rows.Keys
        invariant forall id :: id in ids <==> id in w.rows && id !in todo && Overdue(w.rows[id], now)
        invariant forall i, j :: 0 <= i < j < |ids| ==> ids[i] != ids[j]
      {
        var id :| id in todo;
        if Overdue(w.rows[id], now) {
          ids := ids + [id];
        }
        todo := todo - {id};
      }
    }

    /** A whole decision call, the others acting before each of its steps; it starts from the `k`th. */
    method Decide(t: nat, call: Call, now: Time, lo: nat, others: seq<seq<Action>>, k: nat) returns (r: Result, k': nat)
      requires Sound(w) && lo <= t && t !in w.tasks && TasksBelow(w, t + 1)
      requires forall i :: 0 <= i < |others| ==> AllForeign(others[i], lo)
      modifies this
      ensures Sound(w) && Extends(old(w), w) && TasksBelow(w, t + 1)
      ensures t in w.tasks && w.tasks[t] == Finished(Some(call), r)
      ensures call.id in old(w).rows && Plain(call) ==> r != UnknownApproval && r != Invalid
    {
      hide Sound, Extends, Next, TasksBelow;
      ghost var w0 := w;
      k' := Interleave(t, lo, others, k);
      Begins(w, t, call, now);
      ExtendsTransitive(w0, w, Next(w, Start(t, call, now)));
      if call.id in w0.rows { ExtendsHas(w0, w, call.id); }
      w := Next(w, Start(t, call, now));
      while !w.tasks[t].Finished?
        invariant Sound(w) && Extends(w0, w) && t in w.tasks && TasksBelow(w, t + 1)
        invariant Deciding(w.tasks[t], call)
        invariant call.id in w0.rows && Plain(call) ==> Answered(w.tasks[t])
        decreases StepsLeft(w.tasks[t])
      {
        ghost var w1 := w;
        k' := Interleave(t, lo, others, k');
        GoesOn(w, t, call);
        ExtendsTransitive(w0, w1, w);
        ExtendsTransitive(w0, w, Next(w, Go(t)));
        if call.id in w0.rows { ExtendsHas(w0, w, call.id); }
        w := Next(w, Go(t));
      }
      r := w.tasks[t].result;
    }

    /** What the others do now, if they still do anything. */
    method Interleave(t: nat, lo: nat, others: seq<seq<Action>>, k: nat) returns (k': nat)
      requires Sound(w) && lo <= t && TasksBelow(w, t + 1)
      requires forall i :: 0 <= i < |others| ==> AllForeign(others[i], lo)
      modifies this
      ensures Sound(w) && Extends(old(w), w) && TasksBelow(w, t + 1)
      ensures t in w.tasks <==> t in old(w).tasks
      ensures t in w.tasks ==> w.tasks[t] == old(w).tasks[t]
    {
      k' := k;
      if k < |others| {
        ghost var was := w;
        Others(others[k]);
        k' := k + 1;
        RunKeepsSound(was, others[k]);
        RunExtends(was, others[k]);
        ForeignRun(was, others[k], lo, t + 1);
      }
    }

    /**
     The sweep, `clock` giving the time of each of its calls: none of the rows it found overdue is still
     pending afterwards, and it returns how many of them its own calls moved.
     */
    method ExpireOverdue(now: Time, clock: nat -> Time, lo: nat, others: seq<seq<Action>>) returns (n: nat, ids: seq<string>)
      requires Sound(w) && TasksBelow(w, lo)
      requires forall i :: 0 <= i < |others| ==> AllForeign(others[i], lo)
      modifies this
      ensures Sound(w) && Extends(old(w), w)
      ensures forall id :: id in ids <==> id in old(w).rows && old(w).rows[id].state == Pending && old(w).rows[id].expiresAt <= now / 1_000_000_000
      ensures AllDecided(w, ids) && n == Moved(w, ids, lo) && MovedExpired(w, ids, lo)
    {
      hide Sound, Extends, TasksBelow, AllDecided, MovedExpired;
      ghost var w0 := w;
      ids := SelectOverdue(Unix(now));
      n := 0;
      var k := 0;
      SweepBegins(w, lo);
      for i := 0 to |ids|
        invariant Sound(w) && Extends(w0, w) && TasksBelow(w, lo + i)
        invariant AllDecided(w, ids[..i]) && n == Moved(w, ids[..i], lo) && MovedExpired(w, ids[..i], lo)
      {
        ghost var was := w;
        var call := Call(ids[i], Expire, "", true, EXPIRED_REASON, 0, false);
        assert ids[i] in ids && Plain(call);
        NextIsFree(w, lo + i);
        ExtendsHas(w0, w, ids[i]);
        var r;
        r, k := Decide(lo + i, call, clock(i), lo, others, k);
        if r.Decided? {
          n := n + 1;
        }
        ExtendsTransitive(w0, was, w);
        SweepStep(was, w, ids, i, lo, call, r);
      }
      assert ids[..|ids|] == ids;
    }
  }
}
