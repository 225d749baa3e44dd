/**
 Whether a waiter hears anything: exactly when it was registered before the decision was delivered and
 nobody dropped or invalidated it in between.
 */
module Delivery {
  import opened Bytes
  import opened Approval

  /**
   What became of approval `id`'s waiter, told from the order of the actions alone: `ch` is its channel,
   `taker` the task that took it off, to deliver a decision or, `forced`, to invalidate it.
   */
  datatype Fate =
    | Unregistered
    | Waiting(ch: nat)
    | Dropped(ch: nat)
    | Taken(ch: nat, taker: nat, forced: bool)

  predicate Registers(w: World, a: Action, id: string) {
    a.Go? && a.t in w.tasks && w.tasks[a.t] == Register(id)
  }

  /** A decision for `id` gets to its delivery. */
  predicate Delivers(w: World, a: Action, id: string) {
    a.Go? && a.t in w.tasks && w.tasks[a.t].Deliver? && w.tasks[a.t].call.id == id
  }

  predicate Cancels(w: World, a: Action, id: string) {
    a.Invalidate? && a.id == id && a.t !in w.tasks
  }

  function FateAfter(w: World, fate: Fate, a: Action, id: string): Fate {
    if Registers(w, a, id) then Waiting(|w.chans|)
    else if !fate.Waiting? then fate
    else if Delivers(w, a, id) then Taken(fate.ch, a.t, false)
    else if Cancels(w, a, id) then Taken(fate.ch, a.t, true)
    else if a == DropWaiter(id) then Dropped(fate.ch)
    else fate
  }

  function FateOf(w: World, fate: Fate, actions: seq<Action>, id: string): Fate
    decreases |actions|
  {
    if actions == [] then fate else FateOf(Next(w, actions[0]), FateAfter(w, fate, actions[0], id), actions[1..], id)
  }

  // ---- the invariant ----

  /** The channel of a registered waiter is its own, and it is registered once. */
  ghost predicate Placed(w: World, id: string, fate: Fate) {
    && (id in w.waiters <==> fate.Waiting?) && (fate.Waiting? ==> w.waiters[id] == fate.ch)
    && if fate.Unregistered? then forall c :: 0 <= c < |w.chans| ==> w.chans[c].id != id
       else
         && id in w.rows && fate.ch < |w.chans| && w.chans[fate.ch].id == id
         && (forall c :: 0 <= c < |w.chans| && c != fate.ch ==> w.chans[c].id != id)
         && (forall t :: t in w.tasks ==> w.tasks[t] != Register(id))
  }

  /** How far the task that took the waiter has come with its channel. */
  predicate OnItsWay(c: Waiter, task: Task, id: string, ch: nat, forced: bool) {
    match task
    case Send(caller, ch', _) =>
      && ch' == ch && (caller.None? <==> forced) && c.sent == [] && c.closes == 0 && !c.forced
      && (caller.Some? ==> caller.value.id == id)
    case CloseCh(caller, ch', _) =>
      && ch' == ch && (caller.None? <==> forced) && |c.sent| == 1 && c.closes == 0 && c.forced == forced
      && (caller.Some? ==> caller.value.id == id)
    case Finished(caller, r) =>
      && (caller.None? <==> forced) && |c.sent| == 1 && c.closes == 1 && c.forced == forced
      && (caller.Some? ==> Decisive(task, id) && r.delivered)
    case _ => false
  }

  /** An untaken waiter's channel is silent; a taken one's is its taker's alone. */
  ghost predicate Heard(w: World, id: string, fate: Fate) {
    match fate
    case Unregistered => true
    case Waiting(ch) => Silent(w, ch)
    case Dropped(ch) => Silent(w, ch)
    case Taken(ch, t, forced) =>
      && ch < |w.chans| && t in w.tasks && OnItsWay(w.chans[ch], w.tasks[t], id, ch, forced)
      && forall u :: u in w.tasks && u != t ==> Busy(w.tasks[u]) != Some(ch)
  }

  ghost predicate Silent(w: World, ch: nat) {
    Untouched(w, ch) && forall u :: u in w.tasks ==> Busy(w.tasks[u]) != Some(ch)
  }

  /** A decision was on its way to the waiter. */
  predicate Told(fate: Fate) {
    fate.Taken? && !fate.forced
  }

  /** The call that decided `id` says rightly whether it delivered. */
  predicate Reports(task: Task, t: nat, id: string, fate: Fate) {
    && (Told(fate) ==> fate.taker == t)
    && match task
       case Deliver(call, _) => call.id == id && !Told(fate)
       case Send(_, _, _) => Told(fate)
       case CloseCh(_, _, _) => Told(fate)
       case Finished(_, r) => Decisive(task, id) && (r.delivered <==> Told(fate))
       case _ => false
  }

  predicate WinnerReports(w: World, id: string, fate: Fate) {
    if id in w.winner then w.winner[id] in w.tasks && Reports(w.tasks[w.winner[id]], w.winner[id], id, fate)
    else !Told(fate)
  }

  ghost predicate Tracks(w: World, id: string, fate: Fate) {
    Placed(w, id, fate) && Heard(w, id, fate) && WinnerReports(w, id, fate)
  }

  // ---- every action keeps it ----

  /** Nothing about `id` changes but tasks that have nothing to do with its waiter. */
  ghost predicate Aside(w: World, w': World, t: nat, id: string) {
    && w'.winner.Keys >= w.winner.Keys && (id in w'.winner ==> id in w.winner && w'.winner[id] == w.winner[id])
    && (id in w.rows ==> id in w'.rows)
    && (id in w.waiters <==> id in w'.waiters) && (id in w.waiters ==> w'.waiters[id] == w.waiters[id])
    && |w'.chans| >= |w.chans|
    && (forall c :: 0 <= c < |w'.chans| ==> (w'.chans[c].id == id <==> c < |w.chans| && w.chans[c].id == id))
    && (forall c :: 0 <= c < |w.chans| && w.chans[c].id == id ==> w'.chans[c] == w.chans[c])
    && (forall u :: u in w.tasks ==> u in w'.tasks)
    && (forall u :: u in w'.tasks && u != t ==> u in w.tasks && w'.tasks[u] == w.tasks[u])
    && t in w'.tasks && (id in w.rows ==> w'.tasks[t] != Register(id))
  }

  lemma AsideTracks(w: World, w': World, t: nat, id: string, fate: Fate)
    requires Tracks(w, id, fate) && Aside(w, w', t, id)
    requires !fate.Unregistered? ==> fate.ch < |w.chans|
    requires !fate.Unregistered? ==> Busy(w'.tasks[t]) != Some(fate.ch)
    requires fate.Taken? ==> fate.taker != t
    requires id in w.winner ==> w.winner[id] != t
    ensures Tracks(w', id, fate)
  {
  }

  lemma RegisterTracks(w: World, t: nat, id: string, fate: Fate)
    requires Sound(w) && Tracks(w, id, fate) && t in w.tasks && w.tasks[t].Register?
    ensures Tracks(Next(w, Go(t)), id, FateAfter(w, fate, Go(t), id))
  {
    hide Sound, Tracks, Next;
    InvOf(w);
    BusyInRange(w, t);
    NobodyBusyYet(w);
    OnlyOneRegisters(w, t);
    hide Inv;
    if w.tasks[t].id != id {
      RegisterElsewhere(w, Next(w, Go(t)), t, id, fate);
    } else {
      NowWaiting(w, Next(w, Go(t)), t, id, fate);
    }
  }

  lemma InvOf(w: World)
    requires Sound(w)
    ensures Inv(w)
  {}

  lemma RegisterElsewhere(w: World, w': World, t: nat, id: string, fate: Fate)
    requires Tracks(w, id, fate) && t in w.tasks && w.tasks[t].Register? && w.tasks[t].id != id && w' == Next(w, Go(t))
    ensures Tracks(w', id, fate)
  {
    AsideTracks(w, w', t, id, fate);
  }

  lemma NobodyBusyYet(w: World)
    requires Inv(w)
    ensures forall u :: u in w.tasks ==> Busy(w.tasks[u]) != Some(|w.chans|)
  {
    forall u | u in w.tasks ensures Busy(w.tasks[u]) != Some(|w.chans|) { BusyInRange(w, u); }
  }

  lemma OnlyOneRegisters(w: World, t: nat)
    requires Inv(w) && t in w.tasks && w.tasks[t].Register?
    ensures forall u :: u in w.tasks && u != t ==> w.tasks[u] != w.tasks[t]
  {}

  lemma NowWaiting(w: World, w': World, t: nat, id: string, fate: Fate)
    requires Tracks(w, id, fate) && t in w.tasks && w.tasks[t] == Register(id) && w' == Next(w, Go(t)) && id in w.rows
    requires forall u :: u in w.tasks ==> Busy(w.tasks[u]) != Some(|w.chans|)
    requires forall u :: u in w.tasks && u != t ==> w.tasks[u] != Register(id)
    ensures Tracks(w', id, Waiting(|w.chans|))
  {}

  lemma UpdateTracks(w: World, t: nat, id: string, fate: Fate)
    requires Sound(w) && Tracks(w, id, fate) && t in w.tasks && w.tasks[t].Update?
    ensures Tracks(Next(w, Go(t)), id, FateAfter(w, fate, Go(t), id))
  {
    hide Sound, Tracks, Next, StateForVerdict;
    var call := w.tasks[t].call;
    UpdateFacts(w, t);
    if call.id == id && w.rows[id].state == Pending {
      NowWon(w, Next(w, Go(t)), t, id, fate);
    } else {
      UpdateElsewhere(w, Next(w, Go(t)), t, id, fate);
    }
  }

  lemma UpdateFacts(w: World, t: nat)
    requires Sound(w) && t in w.tasks && w.tasks[t].Update?
    ensures var id := w.tasks[t].call.id;
            && id in w.rows && StateForVerdict(w.tasks[t].verdict).Some?
            && (w.rows[id].state == Pending <==> id !in w.winner)
  {
    hide StateForVerdict;
    assert TaskOk(w, t, w.tasks[t]);
    assert RowOk(w, w.tasks[t].call.id);
  }

  lemma UpdateElsewhere(w: World, w': World, t: nat, id: string, fate: Fate)
    requires Tracks(w, id, fate) && t in w.tasks && w.tasks[t].Update? && w' == Next(w, Go(t))
    requires w.tasks[t].call.id != id || (id in w.rows && w.rows[id].state != Pending)
    ensures Tracks(w', id, fate)
  {
    AlreadyIdle(w.tasks[t].call);
    AsideTracks(w, w', t, id, fate);
  }

  lemma AlreadyIdle(call: Call)
    ensures Busy(Already(call)).None? && !Already(call).Register?
  {}

  lemma NowWon(w: World, w': World, t: nat, id: string, fate: Fate)
    requires Tracks(w, id, fate) && t in w.tasks && w.tasks[t].Update? && w' == Next(w, Go(t))
    requires w.tasks[t].call.id == id && id in w.rows && w.rows[id].state == Pending && id !in w.winner
    requires StateForVerdict(w.tasks[t].verdict).Some?
    ensures Tracks(w', id, fate)
  {}

  lemma DeliverTracks(w: World, t: nat, id: string, fate: Fate)
    requires Sound(w) && Tracks(w, id, fate) && t in w.tasks && w.tasks[t].Deliver?
    ensures Tracks(Next(w, Go(t)), id, FateAfter(w, fate, Go(t), id))
  {
    hide Sound, Tracks, Next;
    DeliverFacts(w, t);
    if w.tasks[t].call.id != id {
      DeliverElsewhere(w, Next(w, Go(t)), t, id, fate);
    } else {
      NowDelivered(w, Next(w, Go(t)), t, id, fate);
    }
  }

  lemma DeliverFacts(w: World, t: nat)
    requires Sound(w) && t in w.tasks && w.tasks[t].Deliver?
    ensures var id := w.tasks[t].call.id;
            && id in w.rows && id in w.winner && w.winner[id] == t
            && (id in w.waiters ==> w.waiters[id] < |w.chans| && w.chans[w.waiters[id]].id == id)
  {
    var id := w.tasks[t].call.id;
    assert TaskOk(w, t, w.tasks[t]);
    if id in w.waiters { assert WaiterOk(w, id); }
  }

  lemma DeliverElsewhere(w: World, w': World, t: nat, id: string, fate: Fate)
    requires Tracks(w, id, fate) && t in w.tasks && w.tasks[t].Deliver? && w' == Next(w, Go(t))
    requires var other := w.tasks[t].call.id;
             other != id && (other in w.waiters ==> w.waiters[other] < |w.chans| && w.chans[w.waiters[other]].id == other)
             && other in w.winner && w.winner[other] == t
    ensures Tracks(w', id, fate)
  {
    hide Final;
    AsideTracks(w, w', t, id, fate);
  }

  lemma NowDelivered(w: World, w': World, t: nat, id: string, fate: Fate)
    requires Tracks(w, id, fate) && t in w.tasks && w.tasks[t].Deliver? && w.tasks[t].call.id == id && w' == Next(w, Go(t))
    requires id in w.winner && w.winner[id] == t && id in w.rows
    ensures Tracks(w', id, FateAfter(w, fate, Go(t), id))
  {}

  lemma SendTracks(w: World, t: nat, id: string, fate: Fate)
    requires Sound(w) && Tracks(w, id, fate) && t in w.tasks && (w.tasks[t].Send? || w.tasks[t].CloseCh?)
    ensures Tracks(Next(w, Go(t)), id, FateAfter(w, fate, Go(t), id))
  {
    hide Sound, Tracks, Next, Inv;
    InvOf(w);
    BusyInRange(w, t);
    if fate.Taken? && fate.ch == w.tasks[t].ch {
      NowSent(w, Next(w, Go(t)), t, id, fate);
    } else {
      NotItsChannel(w, t, id, fate);
      SendElsewhere(w, Next(w, Go(t)), t, id, fate);
    }
  }

  lemma SendElsewhere(w: World, w': World, t: nat, id: string, fate: Fate)
    requires Tracks(w, id, fate) && t in w.tasks && (w.tasks[t].Send? || w.tasks[t].CloseCh?) && w' == Next(w, Go(t))
    requires var ch := w.tasks[t].ch;
             ch < |w.chans| && w.chans[ch].id != id && (!fate.Unregistered? ==> fate.ch != ch)
    requires (fate.Taken? ==> fate.taker != t) && (id in w.winner ==> w.winner[id] != t)
    ensures Tracks(w', id, fate)
  {
    hide Final, Tracks;
    assert Aside(w, w', t, id);
    RegisteredInRange(w, id, fate);
    hide Aside;
    AsideTracks(w, w', t, id, fate);
  }

  lemma RegisteredInRange(w: World, id: string, fate: Fate)
    requires Tracks(w, id, fate)
    ensures !fate.Unregistered? ==> fate.ch < |w.chans|
  {}

  lemma NotItsChannel(w: World, t: nat, id: string, fate: Fate)
    requires Tracks(w, id, fate) && t in w.tasks && Busy(w.tasks[t]).Some? && Busy(w.tasks[t]).value < |w.chans|
    requires !(fate.Taken? && fate.ch == Busy(w.tasks[t]).value)
    ensures w.chans[Busy(w.tasks[t]).value].id != id && (id in w.winner ==> w.winner[id] != t)
    ensures fate.Taken? ==> fate.taker != t
    ensures !fate.Unregistered? ==> fate.ch != Busy(w.tasks[t]).value
  {}

  lemma NowSent(w: World, w': World, t: nat, id: string, fate: Fate)
    requires Tracks(w, id, fate) && t in w.tasks && (w.tasks[t].Send? || w.tasks[t].CloseCh?) && w' == Next(w, Go(t))
    requires fate.Taken? && fate.ch == w.tasks[t].ch
    ensures Tracks(w', id, fate)
  {}

  lemma IdleTracks(w: World, w': World, t: nat, task: Task, id: string, fate: Fate)
    requires Tracks(w, id, fate) && w' == Put(w, t, task) && Busy(task).None? && !task.Register?
    requires t in w.tasks ==> w.tasks[t].Reread?
    ensures Tracks(w', id, fate)
  {
    AsideTracks(w, w', t, id, fate);
  }

  lemma GoTracks(w: World, t: nat, id: string, fate: Fate)
    requires Sound(w) && Tracks(w, id, fate) && t in w.tasks
    ensures Tracks(Next(w, Go(t)), id, FateAfter(w, fate, Go(t), id))
  {
    hide Sound, Tracks, Advance;
    match w.tasks[t] {
      case Register(_) => RegisterTracks(w, t, id, fate);
      case Update(_, _, _, _, _, _) => UpdateTracks(w, t, id, fate);
      case Deliver(_, _) => DeliverTracks(w, t, id, fate);
      case Send(_, _, _) => SendTracks(w, t, id, fate);
      case CloseCh(_, _, _) => SendTracks(w, t, id, fate);
      case Reread(call) =>
        LooksAgain(w, t);
        IdleTracks(w, Next(w, Go(t)), t, Next(w, Go(t)).tasks[t], id, fate);
      case Finished(_, _) => FinishedStays(w, t);
    }
  }

  lemma LooksAgain(w: World, t: nat)
    requires t in w.tasks && w.tasks[t].Reread?
    ensures var w' := Advance(w, t);
            t in w'.tasks && w' == Put(w, t, w'.tasks[t]) && Busy(w'.tasks[t]).None? && !w'.tasks[t].Register?
  {
    hide DecisionFromRow, StateForVerdict;
  }

  lemma InsertTracks(w: World, t: nat, i: string, now: Time, ttl: nat, id: string, fate: Fate)
    requires Inv(w) && Tracks(w, id, fate) && t !in w.tasks && i !in w.rows
    ensures Tracks(Next(w, Insert(t, i, now, ttl)), id, fate)
  {
    NoWinnerYet(w, i);
    NotTaskYet(w, t, id, fate);
    hide Inv;
    AsideTracks(w, Next(w, Insert(t, i, now, ttl)), t, id, fate);
  }

  lemma NoWinnerYet(w: World, i: string)
    requires Inv(w) && i !in w.rows
    ensures i !in w.winner
  {}

  lemma NotTaskYet(w: World, t: nat, id: string, fate: Fate)
    requires Tracks(w, id, fate) && t !in w.tasks
    ensures fate.Taken? ==> fate.taker != t
    ensures id in w.winner ==> w.winner[id] != t
  {}

  lemma DropTracks(w: World, i: string, id: string, fate: Fate)
    requires Tracks(w, id, fate)
    ensures Tracks(Next(w, DropWaiter(i)), id, FateAfter(w, fate, DropWaiter(i), id))
  {}

  lemma InvalidateTracks(w: World, a: Action, id: string, fate: Fate)
    requires Inv(w) && Tracks(w, id, fate) && a.Invalidate? && a.t !in w.tasks && a.id in w.waiters
    ensures Tracks(Next(w, a), id, FateAfter(w, fate, a, id))
  {
    hide Inv, Tracks, Next;
    WaiterPlace(w, a.id);
    if a.id != id {
      InvalidateElsewhere(w, a, id, fate);
    } else {
      NowInvalidated(w, a, id, fate);
    }
  }

  lemma WaiterPlace(w: World, i: string)
    requires Inv(w) && i in w.waiters
    ensures w.waiters[i] < |w.chans| && w.chans[w.waiters[i]].id == i
  {
    assert WaiterOk(w, i);
  }

  lemma InvalidateElsewhere(w: World, a: Action, id: string, fate: Fate)
    requires Tracks(w, id, fate) && a.Invalidate? && a.t !in w.tasks && a.id in w.waiters && a.id != id
    requires w.waiters[a.id] < |w.chans| && w.chans[w.waiters[a.id]].id == a.id
    ensures Tracks(Next(w, a), id, FateAfter(w, fate, a, id))
  {
    NotTaskYet(w, a.t, id, fate);
    AsideTracks(w, Next(w, a), a.t, id, fate);
  }

  lemma NowInvalidated(w: World, a: Action, id: string, fate: Fate)
    requires Tracks(w, id, fate) && a.Invalidate? && a.t !in w.tasks && a.id == id && id in w.waiters
    ensures Tracks(Next(w, a), id, FateAfter(w, fate, a, id))
  {}

  lemma NextTracks(w: World, a: Action, id: string, fate: Fate)
    requires Sound(w) && Tracks(w, id, fate)
    ensures Tracks(Next(w, a), id, FateAfter(w, fate, a, id))
  {
    InvOf(w);
    hide Sound, Inv, Tracks, Advance, Begin;
    match a {
      case Insert(t, i, now, ttl) => if t !in w.tasks && i !in w.rows { InsertTracks(w, t, i, now, ttl, id, fate); }
      case Start(t, call, now) =>
        if t !in w.tasks {
          BeginIdle(w, call, now);
          IdleTracks(w, Next(w, a), t, Begin(w, call, now), id, fate);
        }
      case Go(t) => if t in w.tasks { GoTracks(w, t, id, fate); }
      case DropWaiter(i) => DropTracks(w, i, id, fate);
      case Invalidate(t, i, _, _) =>
        if t !in w.tasks && i in w.waiters { InvalidateTracks(w, a, id, fate); } else { NothingInvalidated(w, a, id, fate); }
    }
  }

  lemma NothingInvalidated(w: World, a: Action, id: string, fate: Fate)
    requires Tracks(w, id, fate) && a.Invalidate? && (a.t in w.tasks || a.id !in w.waiters)
    ensures Next(w, a) == w && FateAfter(w, fate, a, id) == fate
  {}

  lemma {:induction false} RunTracks(w: World, actions: seq<Action>, id: string, fate: Fate)
    requires Sound(w) && Tracks(w, id, fate)
    ensures Tracks(Run(w, actions), id, FateOf(w, fate, actions, id))
    decreases |actions|
  {
    hide Sound, Tracks, Next, FateAfter;
    if actions != [] {
      NextKeepsSound(w, actions[0]);
      NextTracks(w, actions[0], id, fate);
      RunTracks(Next(w, actions[0]), actions[1..], id, FateAfter(w, fate, actions[0], id));
    }
  }

  // ---- told from the order of the actions ----

  /** The world before action `k`. */
  function Before(actions: seq<Action>, k: nat): World
    requires k <= |actions|
  {
    Run(Empty(), actions[..k])
  }

  function FateBefore(actions: seq<Action>, k: nat, id: string): Fate
    requires k <= |actions|
  {
    FateOf(Empty(), Unregistered, actions[..k], id)
  }

  predicate RegisteredAt(actions: seq<Action>, i: int, id: string) {
    0 <= i < |actions| && Registers(Before(actions, i), actions[i], id)
  }

  /** Action `j` takes the waiter off if there is one: to invalidate it if `forced`, else to deliver a decision. */
  predicate TakenAt(actions: seq<Action>, j: int, id: string, forced: bool) {
    0 <= j < |actions| && if forced then Cancels(Before(actions, j), actions[j], id) else Delivers(Before(actions, j), actions[j], id)
  }

  predicate LostAt(actions: seq<Action>, k: int, id: string) {
    0 <= k < |actions| && (actions[k] == DropWaiter(id) || TakenAt(actions, k, id, false) || TakenAt(actions, k, id, true))
  }

  /** Registered by action `i`, and not taken off between it and action `j`. */
  predicate WaitsBetween(actions: seq<Action>, i: int, j: int, id: string) {
    i < j <= |actions| && RegisteredAt(actions, i, id) && forall k :: i < k < j ==> !LostAt(actions, k, id)
  }

  predicate TakenVia(actions: seq<Action>, i: int, j: int, id: string, forced: bool) {
    WaitsBetween(actions, i, j, id) && TakenAt(actions, j, id, forced)
  }

  lemma {:induction false} FateAppend(w: World, fate: Fate, actions: seq<Action>, a: Action, id: string)
    ensures FateOf(w, fate, actions + [a], id) == FateAfter(Run(w, actions), FateOf(w, fate, actions, id), a, id)
    decreases |actions|
  {
    hide Next, FateAfter;
    if actions == [] {
      assert [a][1..] == [] && [] + [a] == [a];
      assert FateOf(Next(w, a), FateAfter(w, fate, a, id), [], id) == FateAfter(w, fate, a, id);
    } else {
      assert (actions + [a])[1..] == actions[1..] + [a];
      FateAppend(Next(w, actions[0]), FateAfter(w, fate, actions[0], id), actions[1..], a, id);
    }
  }

  lemma FateStep(actions: seq<Action>, k: nat, id: string)
    requires k < |actions|
    ensures FateBefore(actions, k + 1, id) == FateAfter(Before(actions, k), FateBefore(actions, k, id), actions[k], id)
    ensures Before(actions, k + 1) == Next(Before(actions, k), actions[k])
  {
    hide Next, FateAfter;
    assert actions[..k + 1] == actions[..k] + [actions[k]];
    FateAppend(Empty(), Unregistered, actions[..k], actions[k], id);
    RunAppend(Empty(), actions[..k], actions[k]);
  }

  lemma EmptyTracks(id: string)
    ensures Sound(Empty()) && Tracks(Empty(), id, Unregistered)
  {}

  lemma TracksBefore(actions: seq<Action>, k: nat, id: string)
    requires k <= |actions|
    ensures Sound(Before(actions, k)) && Tracks(Before(actions, k), id, FateBefore(actions, k, id))
  {
    hide Run, FateOf, Sound, Tracks;
    EmptyTracks(id);
    RunKeepsSound(Empty(), actions[..k]);
    RunTracks(Empty(), actions[..k], id, Unregistered);
  }

  /** Who is registered is not registered again. */
  lemma NotAgain(w: World, fate: Fate, a: Action, id: string)
    requires Tracks(w, id, fate) && !fate.Unregistered?
    ensures !Registers(w, a, id)
  {}

  /** How a waiter came to wait, or to be taken. */
  lemma {:induction false} FateExplained(actions: seq<Action>, n: nat, id: string)
    requires n <= |actions|
    ensures FateBefore(actions, n, id).Waiting? ==> exists i :: WaitsBetween(actions, i, n, id)
    ensures FateBefore(actions, n, id).Taken? ==>
              exists i, j :: j < n && TakenVia(actions, i, j, id, FateBefore(actions, n, id).forced)
  {
    if n > 0 {
      hide Before, FateBefore, Delivers, Cancels, Registers;
      FateExplained(actions, n - 1, id);
      FateStep(actions, n - 1, id);
      var was, now := FateBefore(actions, n - 1, id), FateBefore(actions, n, id);
      if now.Waiting? && RegisteredAt(actions, n - 1, id) {
        assert WaitsBetween(actions, n - 1, n, id);
      } else if now.Waiting? {
        var i :| WaitsBetween(actions, i, n - 1, id);
        assert WaitsBetween(actions, i, n, id);
      } else if now.Taken? && was.Waiting? {
        var i :| WaitsBetween(actions, i, n - 1, id);
        assert TakenVia(actions, i, n - 1, id, now.forced);
      }
    }
  }

  /** A registered waiter waits until something takes it off. */
  lemma {:induction false} WaitsOn(actions: seq<Action>, i: nat, j: nat, id: string)
    requires WaitsBetween(actions, i, j, id)
    ensures FateBefore(actions, j, id).Waiting?
    decreases j
  {
    hide Before, FateBefore, Delivers, Cancels, Registers;
    FateStep(actions, j - 1, id);
    if i < j - 1 {
      assert WaitsBetween(actions, i, j - 1, id);
      WaitsOn(actions, i, j - 1, id);
      assert !LostAt(actions, j - 1, id);
    }
  }

  /** Taken once, taken for good. */
  lemma {:induction false} StaysTaken(actions: seq<Action>, j: nat, n: nat, id: string)
    requires j <= n <= |actions| && FateBefore(actions, j, id).Taken?
    ensures FateBefore(actions, n, id) == FateBefore(actions, j, id)
    decreases n - j
  {
    hide Before, FateBefore, Tracks, Registers;
    if j < n {
      TracksBefore(actions, j, id);
      NotAgain(Before(actions, j), FateBefore(actions, j, id), actions[j], id);
      FateStep(actions, j, id);
      StaysTaken(actions, j + 1, n, id);
    }
  }

  lemma TakenOnce(actions: seq<Action>, i: nat, j: nat, id: string, forced: bool)
    requires TakenVia(actions, i, j, id, forced)
    ensures var fate := FateBefore(actions, |actions|, id); fate.Taken? && fate.forced == forced
  {
    hide FateBefore, Before, WaitsBetween, Registers, FateAfter, Tracks, Delivers, Cancels, Sound;
    WaitsOn(actions, i, j, id);
    FateStep(actions, j, id);
    TracksBefore(actions, j, id);
    NotAgain(Before(actions, j), FateBefore(actions, j, id), actions[j], id);
    TakesOff(Before(actions, j), FateBefore(actions, j, id), actions[j], id, forced);
    StaysTaken(actions, j + 1, |actions|, id);
  }

  lemma TakesOff(w: World, fate: Fate, a: Action, id: string, forced: bool)
    requires fate.Waiting? && !Registers(w, a, id) && if forced then Cancels(w, a, id) else Delivers(w, a, id)
    ensures FateAfter(w, fate, a, id) == Taken(fate.ch, a.t, forced)
  {}

  /** A waiter is taken, to be told or to be invalidated, iff it was registered before and nothing took it off in between. */
  lemma TakenIff(actions: seq<Action>, id: string, forced: bool)
    ensures var fate := FateOf(Empty(), Unregistered, actions, id);
            fate.Taken? && fate.forced == forced <==> exists i, j :: TakenVia(actions, i, j, id, forced)
  {
    var n := |actions|;
    assert actions[..n] == actions;
    FateExplained(actions, n, id);
    hide FateOf, Before, TakenVia;
    if i, j :| TakenVia(actions, i, j, id, forced) { TakenOnce(actions, i, j, id, forced); }
  }

  // ---- what a waiter and the caller who decided may rely on ----

  /** The channel holds one decision and was closed once. */
  predicate HeardOnce(c: Waiter) {
    |c.sent| == 1 && c.closes == 1
  }

  predicate AllOver(w: World) {
    forall t :: t in w.tasks ==> w.tasks[t].Finished?
  }

  /**
   Once every call is over, an approval's channel holds exactly one decision and was closed exactly once iff
   the waiter was registered before a decision or an invalidation got to it, with nothing taking it off in between;
   otherwise it is silent. What it holds is the stored decision iff it was not an invalidation.
   */
  lemma WaiterHears(actions: seq<Action>, id: string, ch: nat)
    requires var w := Run(Empty(), actions); AllOver(w) && ch < |w.chans| && w.chans[ch].id == id
    ensures var c := Run(Empty(), actions).chans[ch];
            && (HeardOnce(c) <==> exists i, j, forced :: TakenVia(actions, i, j, id, forced))
            && (!HeardOnce(c) ==> c.sent == [] && c.closes == 0)
            && (HeardOnce(c) && !c.forced <==> exists i, j :: TakenVia(actions, i, j, id, false))
    ensures var w := Run(Empty(), actions); var c := w.chans[ch];
            HeardOnce(c) && !c.forced ==> Stored(w, id, c.sent[0])
  {
    var w, fate := Run(Empty(), actions), FateOf(Empty(), Unregistered, actions, id);
    assert actions[..|actions|] == actions;
    TracksBefore(actions, |actions|, id);
    TakenIff(actions, id, false);
    TakenIff(actions, id, true);
    hide Run, FateOf, TakenVia;
    ChannelTells(w, id, fate, ch);
    WaitersHearTheStoredDecision(actions, ch);
  }

  lemma ChannelTells(w: World, id: string, fate: Fate, ch: nat)
    requires Tracks(w, id, fate) && AllOver(w) && ch < |w.chans| && w.chans[ch].id == id
    ensures var c := w.chans[ch];
            && (HeardOnce(c) <==> fate.Taken?) && (!HeardOnce(c) ==> c.sent == [] && c.closes == 0)
            && (fate.Taken? ==> c.forced == fate.forced)
  {}

  /** The call that decided reports a delivery iff one was made. */
  lemma DeliveredMeansHeard(actions: seq<Action>, id: string, t: nat)
    requires var w := Run(Empty(), actions); t in w.tasks && Decisive(w.tasks[t], id)
    ensures Run(Empty(), actions).tasks[t].result.delivered <==> exists i, j :: TakenVia(actions, i, j, id, false)
  {
    var w, fate := Run(Empty(), actions), FateOf(Empty(), Unregistered, actions, id);
    assert actions[..|actions|] == actions;
    TracksBefore(actions, |actions|, id);
    TakenIff(actions, id, false);
    hide Run, FateOf, TakenVia;
    DeciderIsWinner(w, id, t);
    hide Sound;
  }

  lemma DeciderIsWinner(w: World, id: string, t: nat)
    requires Sound(w) && t in w.tasks && Decisive(w.tasks[t], id)
    ensures id in w.winner && w.winner[id] == t
  {
    assert TaskOk(w, t, w.tasks[t]);
  }

  // ---- a decision that went unheard stays unheard ----

  /** The action does not invalidate `id`'s waiter. */
  predicate Spares(a: Action, id: string) {
    !(a.Invalidate? && a.id == id)
  }

  /** The call that decided `id` is over. */
  ghost predicate Settled(w: World, id: string) {
    Sound(w) && id in w.winner && w.winner[id] in w.tasks && w.tasks[w.winner[id]].Finished?
  }

  predicate Untaken(fate: Fate, ch: nat) {
    fate == Waiting(ch) || fate == Dropped(ch)
  }

  lemma FinishedForGood(w: World, a: Action, t: nat)
    requires t in w.tasks && w.tasks[t].Finished?
    ensures t in Next(w, a).tasks && Next(w, a).tasks[t] == w.tasks[t]
  {
    hide Advance, Begin;
    if a.Go? && a.t in w.tasks {
      if a.t == t { FinishedStays(w, t); } else { OnlyItMoves(w, a.t); }
    }
  }

  lemma NextSettled(w: World, a: Action, id: string)
    requires Settled(w, id)
    ensures Settled(Next(w, a), id)
  {
    hide Sound, Next, Inv;
    InvOf(w);
    NextKeepsSound(w, a);
    NextExtends(w, a);
    FinishedForGood(w, a, w.winner[id]);
  }

  lemma NotTaken(w: World, fate: Fate, a: Action, id: string, ch: nat)
    requires Settled(w, id) && Tracks(w, id, fate) && Untaken(fate, ch) && Spares(a, id)
    ensures Untaken(FateAfter(w, fate, a, id), ch)
  {
    hide Sound, Tracks;
    NotAgain(w, fate, a, id);
    if Delivers(w, a, id) { DeliverFacts(w, a.t); }
  }

  lemma {:induction false} StaysUntaken(w: World, fate: Fate, later: seq<Action>, id: string, ch: nat)
    requires Settled(w, id) && Tracks(w, id, fate) && Untaken(fate, ch) && forall a :: a in later ==> Spares(a, id)
    ensures Settled(Run(w, later), id)
    ensures exists fate' :: Tracks(Run(w, later), id, fate') && Untaken(fate', ch)
    decreases |later|
  {
    hide Settled, Tracks, Next, FateAfter, Untaken, Spares;
    if later != [] {
      var a := later[0];
      NextSettled(w, a, id);
      NotTaken(w, fate, a, id, ch);
      SoundIfSettled(w, id);
      NextTracks(w, a, id, fate);
      StaysUntaken(Next(w, a), FateAfter(w, fate, a, id), later[1..], id, ch);
    }
  }

  lemma SoundIfSettled(w: World, id: string)
    requires Settled(w, id)
    ensures Sound(w)
  {}

  lemma UntakenIsSilent(w: World, id: string, fate: Fate, ch: nat)
    requires Tracks(w, id, fate) && Untaken(fate, ch)
    ensures ch < |w.chans| && w.chans[ch] == Waiter(id, [], 0, false)
  {}

  /**
   A call decided `id` without reaching its waiter. Then, whatever comes later short of an invalidation of `id`,
   the waiter's channel stays open and empty.
   */
  lemma UnheardForGood(actions: seq<Action>, later: seq<Action>, id: string, t: nat, ch: nat)
    requires var w := Run(Empty(), actions);
             && AllOver(w) && t in w.tasks && Decisive(w.tasks[t], id)
             && ch < |w.chans| && w.chans[ch].id == id && w.chans[ch].sent == []
    requires forall a :: a in later ==> Spares(a, id)
    ensures var w' := Run(Run(Empty(), actions), later);
            ch < |w'.chans| && w'.chans[ch] == Waiter(id, [], 0, false)
  {
    var w, fate := Run(Empty(), actions), FateOf(Empty(), Unregistered, actions, id);
    assert actions[..|actions|] == actions;
    TracksBefore(actions, |actions|, id);
    hide Run, FateOf, Spares;
    DeciderIsWinner(w, id, t);
    EmptyMeansUntaken(w, id, fate, ch);
    hide Sound, Tracks, Untaken, AllOver;
    StaysUntaken(w, fate, later, id, ch);
    var fate' :| Tracks(Run(w, later), id, fate') && Untaken(fate', ch);
    UntakenIsSilent(Run(w, later), id, fate', ch);
  }

  lemma EmptyMeansUntaken(w: World, id: string, fate: Fate, ch: nat)
    requires Tracks(w, id, fate) && AllOver(w) && ch < |w.chans| && w.chans[ch].id == id && w.chans[ch].sent == []
    ensures Untaken(fate, ch)
  {}

  // ---- and there is one that does ----

  /** Decided between the insertion of its row and the registration of its waiter. */
  function Early(id: string, call: Call, now: Time, ttl: nat): seq<Action> {
    [Insert(0, id, now, ttl), Start(1, call, now), Go(1), Go(1), Go(0)]
  }

  lemma RunStep(w: World, a: Action, rest: seq<Action>)
    ensures Run(w, [a] + rest) == Run(Next(w, a), rest)
  {
    assert ([a] + rest)[1..] == rest;
  }

  lemma RunFive(w: World, a: Action, b: Action, c: Action, d: Action, e: Action)
    ensures Run(w, [a, b, c, d, e]) == Next(Next(Next(Next(Next(w, a), b), c), d), e)
  {
    hide Next;
    RunStep(w, a, [b, c, d, e]);
    RunStep(Next(w, a), b, [c, d, e]);
    RunStep(Next(Next(w, a), b), c, [d, e]);
    RunStep(Next(Next(Next(w, a), b), c), d, [e]);
    RunStep(Next(Next(Next(Next(w, a), b), c), d), e, []);
    assert [a, b, c, d, e] == [a] + [b, c, d, e] && [b, c, d, e] == [b] + [c, d, e] && [c, d, e] == [c] + [d, e];
    assert [d, e] == [d] + [e] && [e] == [e] + [];
  }

  lemma EarlyBegins(id: string, call: Call, now: Time, ttl: nat)
    requires call.id == id && call.verdict == Approve && (now + ttl) / SECOND * SECOND > now
    ensures Next(Next(Empty(), Insert(0, id, now, ttl)), Start(1, call, now))
            == World(map[id := Row(Pending, "", "", 0, 0, (now + ttl) / SECOND)], map[], [],
                     map[0 := Register(id), 1 := Update(call, Approve, call.edited, call.reason, call.actor, now)], map[])
  {
    var w := Next(Empty(), Insert(0, id, now, ttl));
    assert w == World(map[id := Row(Pending, "", "", 0, 0, (now + ttl) / SECOND)], map[], [], map[0 := Register(id)], map[]);
  }

  lemma EarlyDecides(w: World, id: string, call: Call, now: Time)
    requires call.id == id && id in w.rows && w.rows[id].state == Pending && id !in w.waiters
    requires w.tasks == map[0 := Register(id), 1 := Update(call, Approve, call.edited, call.reason, call.actor, now)]
    ensures var w' := Next(Next(w, Go(1)), Go(1));
            && id in w'.rows && w'.rows[id].state == Approved && w'.waiters == w.waiters && w'.chans == w.chans
            && 1 in w'.tasks && Decisive(w'.tasks[1], id) && w'.tasks[1].result.Decided? && !w'.tasks[1].result.delivered
            && w'.tasks == map[0 := Register(id), 1 := w'.tasks[1]]
  {
    var w1 := Next(w, Go(1));
    assert w1.tasks == map[0 := Register(id), 1 := w1.tasks[1]] && w1.tasks[1].Deliver? && w1.tasks[1].decision.verdict == Approve;
  }

  lemma EarlyRegisters(w: World, id: string)
    requires 0 in w.tasks && w.tasks[0] == Register(id) && w.tasks.Keys == {0, 1} && w.tasks[1].Finished?
    requires w.waiters == map[] && w.chans == []
    ensures var w' := Next(w, Go(0));
            && AllOver(w') && w'.rows == w.rows && 1 in w'.tasks && w'.tasks[1] == w.tasks[1]
            && w'.waiters == map[id := 0] && w'.chans == [Waiter(id, [], 0, false)]
  {
    assert [] + [Waiter(id, [], 0, false)] == [Waiter(id, [], 0, false)];
  }

  /**
   Then nobody hears of it: the calls are over, the row is decided, and the channel is silent, and stays silent
   whatever happens short of an invalidation.
   */
  lemma EarlyDecisionIsUnheard(id: string, call: Call, now: Time, ttl: nat, later: seq<Action>)
    requires call.id == id && call.verdict == Approve && (now + ttl) / SECOND * SECOND > now
    requires forall a :: a in later ==> Spares(a, id)
    ensures var w := Run(Empty(), Early(id, call, now, ttl));
            && AllOver(w) && id in w.rows && w.rows[id].state == Approved
            && w.waiters == map[id := 0] && w.chans == [Waiter(id, [], 0, false)]
            && 1 in w.tasks && w.tasks[1].Finished? && w.tasks[1].result.Decided? && !w.tasks[1].result.delivered
            && var chans := Run(w, later).chans; |chans| > 0 && chans[0] == Waiter(id, [], 0, false)
  {
    hide Run, Next, AllOver, Spares, Early;
    EarlyGoesUnheard(id, call, now, ttl);
    UnheardForGood(Early(id, call, now, ttl), later, id, 1, 0);
  }

  lemma EarlyGoesUnheard(id: string, call: Call, now: Time, ttl: nat)
    requires call.id == id && call.verdict == Approve && (now + ttl) / SECOND * SECOND > now
    ensures var w := Run(Empty(), Early(id, call, now, ttl));
            && AllOver(w) && id in w.rows && w.rows[id].state == Approved
            && w.waiters == map[id := 0] && w.chans == [Waiter(id, [], 0, false)]
            && 1 in w.tasks && Decisive(w.tasks[1], id) && w.tasks[1].result.Decided? && !w.tasks[1].result.delivered
  {
    hide Run, Next, AllOver;
    RunFive(Empty(), Insert(0, id, now, ttl), Start(1, call, now), Go(1), Go(1), Go(0));
    EarlyBegins(id, call, now, ttl);
    var w := Next(Next(Empty(), Insert(0, id, now, ttl)), Start(1, call, now));
    EarlyDecides(w, id, call, now);
    EarlyRegisters(Next(Next(w, Go(1)), Go(1)), id);
  }
}
