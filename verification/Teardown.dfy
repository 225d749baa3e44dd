/**
 Who closes a subscriber's channels. Any number of threads unsubscribe (by hand or because a
 context ended), broadcast, or close the hub; the swap of the closed flag happens without the
 lock, everything else under it. Each step below is one such action.
 */
module Teardown {
  import opened Bytes

  /** `done` and `ch` count how often each channel has been closed; `live` is false for the stub a closed hub hands out. */
  datatype Channel = Channel(flag: bool, done: nat, ch: nat, listed: bool, live: bool)

  datatype Pc =
    | Unsub(id: nat)                            // about to swap the flag
    | CloseDone(id: nat)                        // won the swap
    | TakeLock(id: nat)
    | CloseCh(id: nat)                          // holds the lock
    | CastStart(closing: bool)
    | Cast(closing: bool, todo: set<nat>)       // holds the lock, subscribers still to visit
    | Send(closing: bool, todo: set<nat>, id: nat)   // has seen the flag unset
    | Kill(todo: set<nat>)                      // the loop of Close
    | KillDone(todo: set<nat>, id: nat)
    | KillCh(todo: set<nat>, id: nat)
    | Over
  {
    predicate HoldsLock() {
      CloseCh? || Cast? || Send? || Kill? || KillDone? || KillCh?
    }
    /** This thread alone must still close `id`. */
    predicate Owns(i: nat) {
      (CloseDone? || TakeLock? || CloseCh? || KillDone? || KillCh?) && id == i
    }
    /** The loop of `Close` has yet to come to `i`. */
    predicate Visits(i: nat) {
      (Kill? || KillDone? || KillCh?) && i in todo
    }
    predicate BeforeDone() {
      CloseDone? || KillDone?
    }
  }

  datatype World = World(subs: map<nat, Channel>, pcs: map<nat, Pc>, lock: Option<nat>, closed: bool, sentOnClosed: bool)

  datatype Action =
    | Subscribe(id: nat)
    | Spawn(t: nat, pc: Pc)
    | Go(t: nat, pick: nat, again: bool)

  function Start(): World {
    World(map[], map[], None, false, false)
  }

  function Listed(w: World): set<nat> {
    set id | id in w.subs && w.subs[id].listed
  }

  function At(w: World, t: nat, pc: Pc): World {
    w.(pcs := w.pcs[t := pc])
  }

  function Release(w: World, t: nat): World {
    At(w, t, Over).(lock := None)
  }

  function SetChan(w: World, id: nat, c: Channel): World {
    w.(subs := w.subs[id := c])
  }

  /** One action of thread `t`; `pick` chooses among subscribers still to visit, `again` sends once more. */
  function Step(w: World, t: nat, pick: nat, again: bool): World
    requires t in w.pcs
  {
    match w.pcs[t]
    case Unsub(id) =>
      if id !in w.subs || w.subs[id].flag then At(w, t, Over)
      else At(SetChan(w, id, w.subs[id].(flag := true)), t, CloseDone(id))
    case CloseDone(id) =>
      if id !in w.subs then w
      else At(SetChan(w, id, w.subs[id].(done := w.subs[id].done + 1)), t, TakeLock(id))
    case TakeLock(id) =>
      if w.lock.Some? then w else At(w, t, CloseCh(id)).(lock := Some(t))
    case CloseCh(id) =>
      if id !in w.subs then w
      else Release(SetChan(w, id, w.subs[id].(listed := false, ch := w.subs[id].ch + 1)), t)
    case CastStart(closing) =>
      if w.lock.Some? then w
      else if w.closed then At(w, t, Over)
      else At(w, t, Cast(closing, Listed(w))).(lock := Some(t))
    case Cast(closing, todo) =>
      if pick in todo && pick in w.subs then
        if w.subs[pick].flag then At(w, t, Cast(closing, todo - {pick}))
        else At(w, t, Send(closing, todo - {pick}, pick))
      else if todo != {} then w
      else if closing then At(w, t, Kill(Listed(w))).(closed := true)
      else Release(w, t)
    case Send(closing, todo, id) =>
      var sent := w.(sentOnClosed := w.sentOnClosed || (id in w.subs && w.subs[id].ch > 0));
      if again then sent else At(sent, t, Cast(closing, todo))
    case Kill(todo) =>
      if pick in todo && pick in w.subs then
        var out := SetChan(w, pick, w.subs[pick].(listed := false, flag := true));
        if w.subs[pick].flag then At(out, t, Kill(todo - {pick})) else At(out, t, KillDone(todo - {pick}, pick))
      else if todo != {} then w
      else Release(w, t)
    case KillDone(todo, id) =>
      if id !in w.subs then w
      else At(SetChan(w, id, w.subs[id].(done := w.subs[id].done + 1)), t, KillCh(todo, id))
    case KillCh(todo, id) =>
      if id !in w.subs then w
      else At(SetChan(w, id, w.subs[id].(ch := w.subs[id].ch + 1)), t, Kill(todo))
    case Over => w
  }

  function Next(w: World, a: Action): World {
    match a
    case Subscribe(id) =>
      if id in w.subs || w.lock.Some? then w
      else SetChan(w, id, if w.closed then Channel(false, 0, 1, false, false) else Channel(false, 0, 0, true, true))
    case Spawn(t, pc) =>
      if t in w.pcs || !(pc.CastStart? || (pc.Unsub? && pc.id in w.subs && w.subs[pc.id].live)) then w
      else At(w, t, pc)
    case Go(t, pick, again) =>
      if t in w.pcs then Step(w, t, pick, again) else w
  }

  function Run(w: World, actions: seq<Action>): World
    decreases |actions|
  {
    if actions == [] then w else Run(Next(w, actions[0]), actions[1..])
  }

  // ---- the invariant ----

  /** A listed channel is open, an unset flag means nothing was closed, and nothing is closed twice. */
  predicate ChannelOk(c: Channel) {
    && (c.listed ==> c.live && c.ch == 0)
    && (c.live && !c.flag ==> c.done == 0 && c.ch == 0)
    && (!c.live ==> !c.flag && c.done == 0)
    && c.done <= 1 && c.ch <= 1
  }

  /** What a thread's position says of the channels. */
  ghost predicate PcOk(w: World, pc: Pc) {
    && (forall id :: pc.Owns(id) ==>
          id in w.subs && w.subs[id].live && w.subs[id].flag && w.subs[id].ch == 0
          && w.subs[id].done == if pc.BeforeDone() then 0 else 1)
    && (pc.Unsub? ==> pc.id in w.subs && w.subs[pc.id].live)
    && (pc.Cast? || pc.Kill? || pc.KillDone? || pc.KillCh? || pc.Send? ==> pc.todo <= Listed(w))
    && (pc.Send? ==> pc.id in Listed(w))
    && (pc.KillDone? || pc.KillCh? ==> pc.id !in Listed(w))
  }

  ghost predicate Inv(w: World) {
    && !w.sentOnClosed
    && (forall id :: id in w.subs ==> ChannelOk(w.subs[id]))
    && (forall t :: t in w.pcs ==> PcOk(w, w.pcs[t]))
    && (forall t :: t in w.pcs && w.pcs[t].HoldsLock() ==> w.lock == Some(t))
    && (w.lock.Some? ==> w.lock.value in w.pcs && w.pcs[w.lock.value].HoldsLock())
    && (forall t, u, id :: t in w.pcs && u in w.pcs && w.pcs[t].Owns(id) && w.pcs[u].Owns(id) ==> t == u)
  }

  /** The lock goes with the thread's position. */
  predicate LockOk(w: World, w': World, t: nat, pc: Pc, pc': Pc) {
    if pc'.HoldsLock() then w'.lock == Some(t) && (pc.HoldsLock() || w.lock.None?)
    else w'.lock == if pc.HoldsLock() then None else w.lock
  }

  /** A step that moves one thread and leaves the channels as they are. */
  lemma Moves(w: World, w': World, t: nat, pc': Pc)
    requires Inv(w) && t in w.pcs && w'.subs == w.subs && w'.pcs == w.pcs[t := pc'] && !w'.sentOnClosed
    requires LockOk(w, w', t, w.pcs[t], pc') && PcOk(w, pc')
    requires forall id :: pc'.Owns(id) ==> w.pcs[t].Owns(id)
    ensures Inv(w')
  {
    hide ChannelOk;
    assert Listed(w') == Listed(w);
    forall u | u in w'.pcs ensures PcOk(w', w'.pcs[u]) {
      assert u != t ==> PcOk(w, w.pcs[u]);
    }
  }

  /** What a step may do to one channel: unlist it with the lock held, or close it as its only owner. */
  predicate ChangeOk(w: World, t: nat, id: nat, c: Channel, c': Channel) {
    && c'.live == c.live && ChannelOk(c')
    && (c'.listed == c.listed || (!c'.listed && w.lock == Some(t)))
    && (c' == c.(listed := c'.listed) || forall u :: u in w.pcs && u != t ==> !w.pcs[u].Owns(id))
  }

  /** A step that also changes a channel. */
  lemma Changes(w: World, w': World, t: nat, pc': Pc, id: nat, c': Channel)
    requires Inv(w) && t in w.pcs && id in w.subs && !w'.sentOnClosed
    requires w'.subs == w.subs[id := c'] && w'.pcs == w.pcs[t := pc']
    requires LockOk(w, w', t, w.pcs[t], pc') && ChangeOk(w, t, id, w.subs[id], c') && PcOk(w', pc')
    requires forall i :: pc'.Owns(i) ==> i == id && (w.pcs[t].Owns(id) || !w.subs[id].flag)
    ensures Inv(w')
  {
    hide ChannelOk;
    OthersStayOk(w, w', t, pc', id, c');
    OwnersStayAlone(w, w', t, pc', id);
    hide PcOk;
  }

  lemma OthersStayOk(w: World, w': World, t: nat, pc': Pc, id: nat, c': Channel)
    requires Inv(w) && t in w.pcs && id in w.subs && w'.subs == w.subs[id := c'] && w'.pcs == w.pcs[t := pc']
    requires ChangeOk(w, t, id, w.subs[id], c')
    ensures forall u :: u in w'.pcs && u != t ==> PcOk(w', w'.pcs[u])
  {
    hide ChannelOk;
    forall u | u in w'.pcs && u != t ensures PcOk(w', w'.pcs[u]) {
      assert PcOk(w, w.pcs[u]);
      assert !w.pcs[u].HoldsLock() || c'.listed == w.subs[id].listed;
    }
  }

  lemma OwnersStayAlone(w: World, w': World, t: nat, pc': Pc, id: nat)
    requires Inv(w) && t in w.pcs && id in w.subs && w'.pcs == w.pcs[t := pc']
    requires forall i :: pc'.Owns(i) ==> i == id && (w.pcs[t].Owns(id) || !w.subs[id].flag)
    ensures forall u, v, i :: u in w'.pcs && v in w'.pcs && w'.pcs[u].Owns(i) && w'.pcs[v].Owns(i) ==> u == v
  {
    hide ChannelOk;
    forall u, v, i | u in w'.pcs && v in w'.pcs && w'.pcs[u].Owns(i) && w'.pcs[v].Owns(i) ensures u == v {
      assert u != t ==> PcOk(w, w.pcs[u]);
      assert v != t ==> PcOk(w, w.pcs[v]);
    }
  }

  /** The swap, lost or won. */
  lemma UnsubSwaps(w: World, t: nat, pick: nat, again: bool)
    requires Inv(w) && t in w.pcs && w.pcs[t].Unsub?
    ensures Inv(Step(w, t, pick, again))
  {
    var w', pc, id := Step(w, t, pick, again), w.pcs[t], w.pcs[t].id;
    assert PcOk(w, pc) && ChannelOk(w.subs[id]);
    if w.subs[id].flag {
      Moves(w, w', t, Over);
    } else {
      assert Listed(w') == Listed(w);
      assert forall u :: u in w.pcs && w.pcs[u].Owns(id) ==> PcOk(w, w.pcs[u]);
      Changes(w, w', t, CloseDone(id), id, w'.subs[id]);
    }
  }

  lemma UnsubCloses(w: World, t: nat, pick: nat, again: bool)
    requires Inv(w) && t in w.pcs && (w.pcs[t].CloseDone? || w.pcs[t].TakeLock? || w.pcs[t].CloseCh?)
    ensures Inv(Step(w, t, pick, again))
  {
    var w', pc, id := Step(w, t, pick, again), w.pcs[t], w.pcs[t].id;
    assert PcOk(w, pc) && pc.Owns(id) && ChannelOk(w.subs[id]);
    if pc.TakeLock? {
      if w' != w { Moves(w, w', t, CloseCh(id)); }
    } else {
      assert Listed(w') == if pc.CloseCh? then Listed(w) - {id} else Listed(w);
      Changes(w, w', t, w'.pcs[t], id, w'.subs[id]);
    }
  }

  lemma CastSteps(w: World, t: nat, pick: nat, again: bool)
    requires Inv(w) && t in w.pcs && (w.pcs[t].CastStart? || w.pcs[t].Cast? || w.pcs[t].Send?)
    ensures Inv(Step(w, t, pick, again))
  {
    var w', pc := Step(w, t, pick, again), w.pcs[t];
    assert PcOk(w, pc);
    assert pc.Send? ==> ChannelOk(w.subs[pc.id]);
    if w' != w { Moves(w, w', t, w'.pcs[t]); }
  }

  lemma KillCloses(w: World, t: nat, pick: nat, again: bool)
    requires Inv(w) && t in w.pcs && (w.pcs[t].KillDone? || w.pcs[t].KillCh?)
    ensures Inv(Step(w, t, pick, again))
  {
    var w', pc := Step(w, t, pick, again), w.pcs[t];
    var id := pc.id;
    assert PcOk(w, pc) && pc.Owns(id) && ChannelOk(w.subs[id]);
    assert Listed(w') == Listed(w);
    Changes(w, w', t, w'.pcs[t], id, w'.subs[id]);
  }

  lemma KillVisits(w: World, t: nat, pick: nat, again: bool)
    requires Inv(w) && t in w.pcs && w.pcs[t].Kill?
    ensures Inv(Step(w, t, pick, again))
  {
    var w', pc := Step(w, t, pick, again), w.pcs[t];
    assert PcOk(w, pc);
    if pick in pc.todo && pick in w.subs {
      assert pick in Listed(w) && ChannelOk(w.subs[pick]);
      assert Listed(w') == Listed(w) - {pick};
      assert forall u :: u in w.pcs && u != t && w.pcs[u].Owns(pick) ==> PcOk(w, w.pcs[u]);
      Changes(w, w', t, w'.pcs[t], pick, w'.subs[pick]);
    } else if w' != w {
      Moves(w, w', t, w'.pcs[t]);
    }
  }

  lemma NextKeepsInv(w: World, a: Action)
    requires Inv(w)
    ensures Inv(Next(w, a))
  {
    hide Step;
    match a {
      case Subscribe(id) =>
        var w' := Next(w, a);
        forall t | t in w'.pcs ensures PcOk(w', w'.pcs[t]) {
          assert PcOk(w, w.pcs[t]);
          assert Listed(w) <= Listed(w');
        }
      case Spawn(t, pc) =>
        var w' := Next(w, a);
        assert Listed(w') == Listed(w);
        forall u | u in w'.pcs ensures PcOk(w', w'.pcs[u]) {
          assert u in w.pcs ==> PcOk(w, w.pcs[u]);
        }
      case Go(t, pick, again) =>
        hide Inv;
        if t in w.pcs { GoKeepsInv(w, t, pick, again); }
    }
  }

  lemma GoKeepsInv(w: World, t: nat, pick: nat, again: bool)
    requires Inv(w) && t in w.pcs
    ensures Inv(Step(w, t, pick, again))
  {
    hide Inv;
    var pc := w.pcs[t];
    if pc.Unsub? {
      UnsubSwaps(w, t, pick, again);
    } else if pc.CloseDone? || pc.TakeLock? || pc.CloseCh? {
      UnsubCloses(w, t, pick, again);
    } else if pc.CastStart? || pc.Cast? || pc.Send? {
      CastSteps(w, t, pick, again);
    } else if pc.Kill? {
      KillVisits(w, t, pick, again);
    } else if !pc.Over? {
      KillCloses(w, t, pick, again);
    }
  }

  lemma {:induction false} RunKeepsInv(w: World, actions: seq<Action>)
    requires Inv(w)
    ensures Inv(Run(w, actions))
    decreases |actions|
  {
    hide Inv, Next;
    if actions != [] {
      NextKeepsInv(w, actions[0]);
      RunKeepsInv(Next(w, actions[0]), actions[1..]);
    }
  }

  /**
   In every run each channel is closed at most once, and nothing is ever sent on a closed one; a
   subscriber whose flag is unset has both its channels open.
   */
  lemma ClosedOnceAndNeverSentOn(actions: seq<Action>)
    ensures var w := Run(Start(), actions);
            && !w.sentOnClosed
            && forall id :: id in w.subs ==>
                 && w.subs[id].done <= 1 && w.subs[id].ch <= 1
                 && (w.subs[id].live && !w.subs[id].flag ==> w.subs[id].done == 0 && w.subs[id].ch == 0)
  {
    hide Run;
    RunKeepsInv(Start(), actions);
  }

  // ---- nobody is forgotten ----

  /** Both channels of a subscriber are closed, once each. */
  predicate ClosedOnce(c: Channel) {
    c.done == 1 && c.ch == 1
  }

  ghost predicate Owned(w: World, id: nat) {
    exists t :: t in w.pcs && w.pcs[t].Owns(id)
  }

  /** Some thread closing the hub has yet to visit `id`. */
  ghost predicate ToVisit(w: World, id: nat) {
    exists t :: t in w.pcs && w.pcs[t].Visits(id)
  }

  /** A swapped flag leads to a close, an unset one is on the list, and a closed hub still has to visit what is on it. */
  ghost predicate Attended(w: World, id: nat)
    requires id in w.subs
  {
    var c := w.subs[id];
    c.live ==>
      && (c.flag || c.listed)
      && (c.flag ==> ClosedOnce(c) || Owned(w, id))
      && (w.closed && c.listed ==> ToVisit(w, id))
  }

  /** A thread moves on without letting go of `id`, whose channel stays as it is. */
  lemma StaysAttended(w: World, w': World, t: nat, id: nat)
    requires id in w.subs && Attended(w, id) && t in w.pcs && t in w'.pcs && w'.pcs == w.pcs[t := w'.pcs[t]]
    requires id in w'.subs && w'.subs[id] == w.subs[id]
    requires w.pcs[t].Owns(id) ==> w'.pcs[t].Owns(id)
    requires w.pcs[t].Visits(id) ==> w'.pcs[t].Visits(id)
    requires w'.closed ==> w.closed || !w.subs[id].listed || w'.pcs[t].Visits(id)
    ensures Attended(w', id)
  {
    if Owned(w, id) {
      var u :| u in w.pcs && w.pcs[u].Owns(id);
      assert w'.pcs[u].Owns(id);
    }
    if ToVisit(w, id) {
      var u :| u in w.pcs && w.pcs[u].Visits(id);
      assert w'.pcs[u].Visits(id);
    }
  }

  /** The swap gives the channels an owner, and closing one of them does not take it away before the other. */
  lemma UnsubAttends(w: World, t: nat, pick: nat, again: bool, id: nat)
    requires Inv(w) && t in w.pcs && id in w.subs && Attended(w, id)
    requires w.pcs[t].Unsub? || w.pcs[t].CloseDone? || w.pcs[t].TakeLock? || w.pcs[t].CloseCh?
    ensures id in Step(w, t, pick, again).subs && Attended(Step(w, t, pick, again), id)
  {
    var w', pc := Step(w, t, pick, again), w.pcs[t];
    assert PcOk(w, pc);
    hide Attended, Owned, ToVisit, Inv, PcOk, ChannelOk;
    if pc.id != id || pc.TakeLock? || w' == w || (pc.Unsub? && w.subs[id].flag) {
      StaysAttended(w, w', t, id);
    } else {
      TouchedByUnsub(w, t, pick, again);
    }
  }

  lemma TouchedByUnsub(w: World, t: nat, pick: nat, again: bool)
    requires Inv(w) && t in w.pcs
    requires w.pcs[t].Unsub? || w.pcs[t].CloseDone? || w.pcs[t].CloseCh?
    requires w.pcs[t].id in w.subs && Attended(w, w.pcs[t].id) && !(w.pcs[t].Unsub? && w.subs[w.pcs[t].id].flag)
    ensures Attended(Step(w, t, pick, again), w.pcs[t].id)
  {
    var w', pc, id := Step(w, t, pick, again), w.pcs[t], w.pcs[t].id;
    assert PcOk(w, pc);
    hide Inv;
    assert pc.Owns(id) || pc.Unsub?;
    assert pc.CloseCh? || w'.pcs[t].Owns(id);
    if ToVisit(w, id) {
      var u :| u in w.pcs && w.pcs[u].Visits(id);
      assert w'.pcs[u].Visits(id);
    }
  }

  lemma CastAttends(w: World, t: nat, pick: nat, again: bool, id: nat)
    requires Inv(w) && t in w.pcs && id in w.subs && Attended(w, id)
    requires w.pcs[t].CastStart? || w.pcs[t].Cast? || w.pcs[t].Send? || w.pcs[t].Over?
    ensures id in Step(w, t, pick, again).subs && Attended(Step(w, t, pick, again), id)
  {
    var w' := Step(w, t, pick, again);
    hide Attended, Inv;
    assert w'.subs == w.subs;
    assert w.subs[id].listed ==> id in Listed(w);
    StaysAttended(w, w', t, id);
  }

  lemma KillAttends(w: World, t: nat, pick: nat, again: bool, id: nat)
    requires Inv(w) && t in w.pcs && id in w.subs && Attended(w, id)
    requires w.pcs[t].Kill? || w.pcs[t].KillDone? || w.pcs[t].KillCh?
    ensures id in Step(w, t, pick, again).subs && Attended(Step(w, t, pick, again), id)
  {
    var w', pc := Step(w, t, pick, again), w.pcs[t];
    assert PcOk(w, pc);
    hide Attended, Owned, ToVisit, Inv, PcOk, ChannelOk;
    if if pc.Kill? then pick == id && id in pc.todo else pc.id == id {
      TouchedByKill(w, t, pick, again, id);
    } else {
      StaysAttended(w, w', t, id);
    }
  }

  lemma TouchedByKill(w: World, t: nat, pick: nat, again: bool, id: nat)
    requires Inv(w) && t in w.pcs && id in w.subs && Attended(w, id)
    requires w.pcs[t].Kill? || w.pcs[t].KillDone? || w.pcs[t].KillCh?
    requires if w.pcs[t].Kill? then pick == id && id in w.pcs[t].todo else w.pcs[t].id == id
    ensures id in Step(w, t, pick, again).subs && Attended(Step(w, t, pick, again), id)
  {
    var w', pc := Step(w, t, pick, again), w.pcs[t];
    assert PcOk(w, pc);
    hide Inv;
    assert !w'.subs[id].listed;
    if pc.Kill? && w.subs[id].flag {
      StillOwned(w, w', t, id);
    } else {
      assert pc.KillCh? || w'.pcs[t].Owns(id);
    }
  }

  lemma StillOwned(w: World, w': World, t: nat, id: nat)
    requires t in w.pcs && t in w'.pcs && w'.pcs == w.pcs[t := w'.pcs[t]] && !w.pcs[t].Owns(id)
    ensures Owned(w, id) ==> Owned(w', id)
  {
    if Owned(w, id) {
      var u :| u in w.pcs && w.pcs[u].Owns(id);
      assert w'.pcs[u].Owns(id);
    }
  }

  lemma NextAttends(w: World, a: Action, id: nat)
    requires Inv(w) && id in w.subs && Attended(w, id)
    ensures id in Next(w, a).subs && Attended(Next(w, a), id)
  {
    hide Inv, Step, Attended;
    match a {
      case Subscribe(i) => SubsGrow(w, Next(w, a), id);
      case Spawn(t, pc) => SubsGrow(w, Next(w, a), id);
      case Go(t, pick, again) =>
        if t in w.pcs {
          var pc := w.pcs[t];
          if pc.Unsub? || pc.CloseDone? || pc.TakeLock? || pc.CloseCh? { UnsubAttends(w, t, pick, again, id); }
          else if pc.Kill? || pc.KillDone? || pc.KillCh? { KillAttends(w, t, pick, again, id); }
          else { CastAttends(w, t, pick, again, id); }
        }
    }
  }

  lemma SubsGrow(w: World, w': World, id: nat)
    requires id in w.subs && Attended(w, id)
    requires id in w'.subs && w'.subs[id] == w.subs[id] && w'.closed == w.closed
    requires forall t :: t in w.pcs ==> t in w'.pcs && w'.pcs[t] == w.pcs[t]
    ensures Attended(w', id)
  {}

  lemma NewIsAttended(w: World, a: Action, id: nat)
    requires id !in w.subs && id in Next(w, a).subs
    ensures Attended(Next(w, a), id)
  {}

  ghost predicate AllAttended(w: World) {
    forall id :: id in w.subs ==> Attended(w, id)
  }

  lemma {:induction false} RunAttends(w: World, actions: seq<Action>)
    requires Inv(w) && AllAttended(w)
    ensures AllAttended(Run(w, actions))
    decreases |actions|
  {
    hide Inv, Next, Attended;
    if actions != [] {
      var a := actions[0];
      forall id | id in Next(w, a).subs ensures Attended(Next(w, a), id) {
        if id in w.subs { NextAttends(w, a, id); } else { NewIsAttended(w, a, id); }
      }
      NextKeepsInv(w, a);
      RunAttends(Next(w, a), actions[1..]);
    }
  }

  /**
   Once every thread is over, whoever was unsubscribed has both channels closed exactly once, and the others
   are still on the list with both open; after `Close` there are no others.
   */
  lemma NobodyForgotten(actions: seq<Action>)
    requires var w := Run(Start(), actions);
             forall t :: t in w.pcs ==> w.pcs[t].Over?
    ensures var w := Run(Start(), actions);
            forall id :: id in w.subs && w.subs[id].live ==>
              && (if w.subs[id].flag then ClosedOnce(w.subs[id]) else w.subs[id].listed && w.subs[id].done == 0 && w.subs[id].ch == 0)
              && (w.closed ==> w.subs[id].flag)
  {
    hide Run;
    var w := Run(Start(), actions);
    RunKeepsInv(Start(), actions);
    RunAttends(Start(), actions);
    forall id | id in w.subs ensures !Owned(w, id) && !ToVisit(w, id) && ChannelOk(w.subs[id]) && Attended(w, id) {}
  }
}
