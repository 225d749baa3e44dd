/**
 Attaching the web terminal to a tmux session: any number of callers, one spawn per session at a
 time. Each section under the lock is one action; hosts and channels are numbers, never reused.
 */
module WebAttach {
  import opened Bytes

  /** What the lock guards. `closes`: how often each channel was closed. */
  datatype Shared = Shared(hosts: map<string, nat>, pending: map<string, nat>, closes: seq<nat>)

  datatype Caller =
    | Entering(id: string)
    | Waiting(id: string, ch: nat)
    | Spawning(id: string, ch: nat)
    | Spawned(id: string, ch: nat, host: Option<nat>)   // none: the spawn failed
    | Returned(id: string, result: Option<nat>)

  /** `owner`: for whom each host was spawned; `watched`: hosts whose clean-up is still to come. */
  datatype World = World(shared: Shared, callers: map<nat, Caller>, owner: seq<string>, watched: set<nat>)

  datatype Action =
    | Call(t: nat, id: string)
    | Look(t: nat)
    | Wake(t: nat)
    | GiveUp(t: nat)
    | Spawn(t: nat, ok: bool)
    | Install(t: nat)
    | CleanUp(host: nat)
    | CloseHost(id: string)

  function Idle(): World {
    World(Shared(map[], map[], []), map[], [], {})
  }

  // ---- the sections under the lock ----

  /** What a caller finds: a host, somebody's spawn, or that it must spawn itself. */
  function Found(s: Shared, id: string): Caller {
    if id in s.hosts then Returned(id, Some(s.hosts[id]))
    else if id in s.pending then Waiting(id, s.pending[id])
    else Spawning(id, |s.closes|)
  }

  function AfterLook(s: Shared, id: string): Shared {
    if id in s.hosts || id in s.pending then s
    else s.(pending := s.pending[id := |s.closes|], closes := s.closes + [0])
  }

  function AfterInstall(s: Shared, id: string, ch: nat, host: Option<nat>): Shared {
    Shared(if host.Some? then s.hosts[id := host.value] else s.hosts, s.pending - {id},
           if ch < |s.closes| then s.closes[ch := s.closes[ch] + 1] else s.closes)
  }

  function AfterCleanUp(s: Shared, id: string, host: nat): Shared {
    if id in s.hosts && s.hosts[id] == host then s.(hosts := s.hosts - {id}) else s
  }

  function AfterClose(s: Shared, id: string): Shared {
    s.(hosts := s.hosts - {id})
  }

  // ---- runs ----

  function Step(w: World, t: nat, c: Caller, s: Shared): World {
    w.(callers := w.callers[t := c], shared := s)
  }

  function Next(w: World, a: Action): World {
    match a
    case Call(t, id) => if t in w.callers then w else Step(w, t, Entering(id), w.shared)
    case Look(t) =>
      if t in w.callers && w.callers[t].Entering? then
        Step(w, t, Found(w.shared, w.callers[t].id), AfterLook(w.shared, w.callers[t].id))
      else w
    case Wake(t) =>
      if t in w.callers && w.callers[t].Waiting? && w.callers[t].ch < |w.shared.closes| && w.shared.closes[w.callers[t].ch] > 0 then
        Step(w, t, Entering(w.callers[t].id), w.shared)
      else w
    case GiveUp(t) =>
      if t in w.callers && w.callers[t].Waiting? then Step(w, t, Returned(w.callers[t].id, None), w.shared) else w
    case Spawn(t, ok) =>
      if t in w.callers && w.callers[t].Spawning? then
        var c := w.callers[t];
        if ok then Step(w, t, Spawned(c.id, c.ch, Some(|w.owner|)), w.shared).(owner := w.owner + [c.id])
        else Step(w, t, Spawned(c.id, c.ch, None), w.shared)
      else w
    case Install(t) =>
      if t in w.callers && w.callers[t].Spawned? then
        var c := w.callers[t];
        Step(w, t, Returned(c.id, c.host), AfterInstall(w.shared, c.id, c.ch, c.host)).(
          watched := if c.host.Some? then w.watched + {c.host.value} else w.watched)
      else w
    case CleanUp(host) =>
      if host in w.watched && host < |w.owner| then
        w.(shared := AfterCleanUp(w.shared, w.owner[host], host), watched := w.watched - {host})
      else w
    case CloseHost(id) => w.(shared := AfterClose(w.shared, id))
  }

  function Run(w: World, actions: seq<Action>): World
    decreases |actions|
  {
    if actions == [] then w else Run(Next(w, actions[0]), actions[1..])
  }

  // ---- the invariant ----

  /** The caller's own spawn is in flight. */
  predicate Working(c: Caller) {
    c.Spawning? || c.Spawned?
  }

  predicate CallerOk(w: World, c: Caller) {
    var s := w.shared;
    match c
    case Waiting(id, ch) => ch < |s.closes| && (s.closes[ch] == 0 ==> id in s.pending && s.pending[id] == ch)
    case Spawning(id, ch) => id in s.pending && s.pending[id] == ch
    case Spawned(id, ch, host) =>
      && id in s.pending && s.pending[id] == ch
      && (host.Some? ==> host.value < |w.owner| && w.owner[host.value] == id && host.value !in w.watched)
    case Returned(id, result) => result.Some? ==> result.value < |w.owner| && w.owner[result.value] == id
    case Entering(_) => true
  }

  /** An open entry: no host is installed, its channel is open and nobody else's, somebody is spawning. */
  ghost predicate PendingOk(w: World, id: string)
    requires id in w.shared.pending
  {
    var ch := w.shared.pending[id];
    && id !in w.shared.hosts && ch < |w.shared.closes| && w.shared.closes[ch] == 0
    && exists t :: t in w.callers && Working(w.callers[t]) && w.callers[t].id == id
  }

  ghost predicate SharedOk(w: World) {
    && (forall id :: id in w.shared.pending ==> PendingOk(w, id))
    && (forall i, j :: i in w.shared.pending && j in w.shared.pending && i != j ==> w.shared.pending[i] != w.shared.pending[j])
    && (forall ch :: 0 <= ch < |w.shared.closes| ==> w.shared.closes[ch] <= 1)
  }

  /** An installed host is the session's own and is watched. */
  ghost predicate HostsOk(w: World) {
    && (forall id :: id in w.shared.hosts ==>
          w.shared.hosts[id] < |w.owner| && w.owner[w.shared.hosts[id]] == id && w.shared.hosts[id] in w.watched)
    && (forall h :: h in w.watched ==> h < |w.owner|)
  }

  /** At most one caller spawns for a session. */
  ghost predicate Single(w: World) {
    forall t, u :: t in w.callers && u in w.callers && t != u && Working(w.callers[t]) && Working(w.callers[u]) ==>
      w.callers[t].id != w.callers[u].id
  }

  ghost predicate CallersOk(w: World) {
    forall t :: t in w.callers ==> CallerOk(w, w.callers[t])
  }

  ghost predicate Inv(w: World) {
    CallersOk(w) && SharedOk(w) && HostsOk(w) && Single(w)
  }

  // ---- every action keeps it ----

  /** A caller that neither starts nor ends a spawn moves. */
  lemma Moves(w: World, t: nat, c: Caller)
    requires Inv(w) && CallerOk(w, c) && !Working(c) && (t in w.callers ==> !Working(w.callers[t]))
    ensures Inv(Step(w, t, c, w.shared))
  {
    var w' := Step(w, t, c, w.shared);
    forall id | id in w.shared.pending ensures PendingOk(w', id) {
      assert PendingOk(w, id);
      var u :| u in w.callers && Working(w.callers[u]) && w.callers[u].id == id;
      assert u in w'.callers && Working(w'.callers[u]);
    }
  }

  /** A spawn in flight goes on as one for the same session. */
  ghost predicate GoesOn(w: World, w': World, id: string) {
    forall t :: t in w.callers && Working(w.callers[t]) && w.callers[t].id == id ==>
      t in w'.callers && Working(w'.callers[t]) && w'.callers[t].id == id
  }

  lemma OpenStays(w: World, w': World, id: string)
    requires id in w.shared.pending && PendingOk(w, id) && id in w'.shared.pending && w'.shared.pending[id] == w.shared.pending[id]
    requires id !in w'.shared.hosts && GoesOn(w, w', id)
    requires var ch := w.shared.pending[id]; ch < |w'.shared.closes| && w'.shared.closes[ch] == 0
    ensures PendingOk(w', id)
  {
    var u :| u in w.callers && Working(w.callers[u]) && w.callers[u].id == id;
    assert u in w'.callers && Working(w'.callers[u]) && w'.callers[u].id == id;
  }

  lemma PendingStays(w: World, w': World, id: string)
    requires id in w.shared.pending && PendingOk(w, id) && id in w'.shared.pending && w'.shared.pending[id] == w.shared.pending[id]
    requires id !in w'.shared.hosts && w.shared.closes <= w'.shared.closes && GoesOn(w, w', id)
    ensures PendingOk(w', id)
  {
    OpenStays(w, w', id);
  }

  lemma Begins(w: World, t: nat, id: string)
    requires Inv(w) && t in w.callers && w.callers[t] == Entering(id) && id !in w.shared.pending && id !in w.shared.hosts
    ensures Inv(Step(w, t, Found(w.shared, id), AfterLook(w.shared, id)))
  {
    var w' := Step(w, t, Found(w.shared, id), AfterLook(w.shared, id));
    assert w'.callers[t] == Spawning(id, |w.shared.closes|);
    BeginsAlone(w, w', t, id);
    BeginsPending(w, w', t, id);
    hide PendingOk, Single, SharedOk;
    BeginsCallers(w, w', t, id);
    hide Found, AfterLook, CallersOk;
  }

  lemma BeginsCallers(w: World, w': World, t: nat, id: string)
    requires CallersOk(w) && t in w.callers && w.callers[t] == Entering(id) && id !in w.shared.pending && id !in w.shared.hosts
    requires w' == w.(callers := w.callers[t := Spawning(id, |w.shared.closes|)], shared := AfterLook(w.shared, id))
    ensures CallersOk(w')
  {
    forall u | u in w'.callers ensures CallerOk(w', w'.callers[u]) {
      if u != t { assert CallerOk(w, w.callers[u]); }
    }
  }

  lemma BeginsAlone(w: World, w': World, t: nat, id: string)
    requires Single(w) && CallersOk(w) && t in w.callers && w.callers[t] == Entering(id) && id !in w.shared.pending
    requires w'.callers == w.callers[t := Spawning(id, |w.shared.closes|)]
    ensures Single(w')
  {
    forall u | u in w.callers && Working(w.callers[u]) ensures w.callers[u].id != id { assert CallerOk(w, w.callers[u]); }
    hide CallerOk;
  }

  lemma BeginsPending(w: World, w': World, t: nat, id: string)
    requires SharedOk(w) && t in w.callers && w.callers[t] == Entering(id) && id !in w.shared.pending && id !in w.shared.hosts
    requires w' == w.(callers := w.callers[t := Spawning(id, |w.shared.closes|)], shared := AfterLook(w.shared, id))
    ensures SharedOk(w')
  {
    assert PendingOk(w', id) by { assert t in w'.callers && Working(w'.callers[t]); }
    forall i | i in w.shared.pending ensures PendingOk(w', i) && w.shared.pending[i] < |w.shared.closes| {
      assert PendingOk(w, i);
      PendingStays(w, w', i);
    }
    hide PendingOk;
  }

  lemma Spawns(w: World, t: nat, ok: bool)
    requires Inv(w) && t in w.callers && w.callers[t].Spawning?
    ensures Inv(Next(w, Spawn(t, ok)))
  {
    hide Next, CallersOk, SharedOk, HostsOk, Single;
    SpawnChanges(w, t, ok);
    SpawnsCallers(w, t, ok);
    SpawnsShared(w, Next(w, Spawn(t, ok)), t);
    SpawnsHosts(w, Next(w, Spawn(t, ok)));
    SpawnsSingle(w, Next(w, Spawn(t, ok)), t);
  }

  /** The caller stays at work for the same session; nothing that is shared changes. */
  predicate StaysAtWork(w: World, w': World, t: nat) {
    && t in w.callers && Working(w.callers[t]) && t in w'.callers && Working(w'.callers[t])
    && w'.callers[t].id == w.callers[t].id && w'.callers == w.callers[t := w'.callers[t]]
    && w'.shared == w.shared && w.owner <= w'.owner && w'.watched == w.watched
  }

  lemma SpawnChanges(w: World, t: nat, ok: bool)
    requires t in w.callers && w.callers[t].Spawning?
    ensures StaysAtWork(w, Next(w, Spawn(t, ok)), t)
  {}

  lemma SpawnsShared(w: World, w': World, t: nat)
    requires SharedOk(w) && StaysAtWork(w, w', t)
    ensures SharedOk(w')
  {
    forall id | id in w.shared.pending ensures PendingOk(w', id) { PendingStays(w, w', id); }
    hide PendingOk;
  }

  lemma SpawnsHosts(w: World, w': World)
    requires HostsOk(w) && w'.shared == w.shared && w.owner <= w'.owner && w'.watched == w.watched
    ensures HostsOk(w')
  {}

  lemma SpawnsSingle(w: World, w': World, t: nat)
    requires Single(w) && StaysAtWork(w, w', t)
    ensures Single(w')
  {}

  lemma SpawnsCallers(w: World, t: nat, ok: bool)
    requires CallersOk(w) && HostsOk(w) && t in w.callers && w.callers[t].Spawning?
    ensures CallersOk(Next(w, Spawn(t, ok)))
  {
    var w' := Next(w, Spawn(t, ok));
    assert CallerOk(w, w.callers[t]);
    forall u | u in w'.callers ensures CallerOk(w', w'.callers[u]) {
      if u != t { assert CallerOk(w, w.callers[u]); }
    }
  }

  /** The other callers do not notice that `t` installs what it spawned. */
  lemma InstallKeepsCallers(w: World, t: nat)
    requires Inv(w) && t in w.callers && w.callers[t].Spawned?
    ensures CallersOk(Next(w, Install(t)))
  {
    var w' := Next(w, Install(t));
    var c := w.callers[t];
    assert CallerOk(w, c);
    assert PendingOk(w, c.id);
    forall u | u in w'.callers ensures CallerOk(w', w'.callers[u]) {
      if u != t { assert CallerOk(w, w.callers[u]); }
    }
  }

  lemma InstallKeepsPending(w: World, t: nat)
    requires Inv(w) && t in w.callers && w.callers[t].Spawned?
    ensures SharedOk(Next(w, Install(t)))
  {
    var w' := Next(w, Install(t));
    var c := w.callers[t];
    assert CallerOk(w, c);
    assert PendingOk(w, c.id);
    hide CallersOk, HostsOk, Single, CallerOk;
    forall id | id in w'.shared.pending ensures PendingOk(w', id) {
      assert PendingOk(w, id);
      OpenStays(w, w', id);
    }
  }

  lemma InstallKeepsRest(w: World, t: nat)
    requires Inv(w) && t in w.callers && w.callers[t].Spawned?
    ensures HostsOk(Next(w, Install(t))) && Single(Next(w, Install(t)))
  {
    assert CallerOk(w, w.callers[t]);
    hide CallersOk, SharedOk, CallerOk;
  }

  lemma Installs(w: World, t: nat)
    requires Inv(w) && t in w.callers && w.callers[t].Spawned?
    ensures Inv(Next(w, Install(t)))
  {
    InstallKeepsCallers(w, t);
    InstallKeepsPending(w, t);
    InstallKeepsRest(w, t);
    hide *;
    assert Inv(Next(w, Install(t))) by { InvParts(Next(w, Install(t))); }
  }

  lemma InvParts(w: World)
    requires CallersOk(w) && SharedOk(w) && HostsOk(w) && Single(w)
    ensures Inv(w)
  {}

  /** Fewer hosts, and none unwatched. */
  ghost predicate Drops(w: World, w': World) {
    && w' == w.(shared := w.shared.(hosts := w'.shared.hosts), watched := w'.watched)
    && w'.watched <= w.watched
    && (forall id :: id in w'.shared.hosts ==>
          id in w.shared.hosts && w'.shared.hosts[id] == w.shared.hosts[id] && w'.shared.hosts[id] in w'.watched)
  }

  lemma DropsKeepsInv(w: World, w': World)
    requires Inv(w) && Drops(w, w')
    ensures Inv(w')
  {
    forall u | u in w'.callers ensures CallerOk(w', w'.callers[u]) { assert CallerOk(w, w.callers[u]); }
    hide CallerOk;
    forall id | id in w'.shared.pending ensures PendingOk(w', id) {
      assert PendingOk(w, id);
    }
  }

  lemma CleanUpDrops(w: World, host: nat)
    requires HostsOk(w)
    ensures Drops(w, Next(w, CleanUp(host)))
  {}

  lemma NextKeepsInv(w: World, a: Action)
    requires Inv(w)
    ensures Inv(Next(w, a))
  {
    hide Inv, CallersOk, SharedOk, HostsOk, Single, Found, AfterLook, AfterInstall, AfterCleanUp;
    match a {
      case Call(t, id) => if t !in w.callers { Moves(w, t, Entering(id)); }
      case Look(t) => if t in w.callers && w.callers[t].Entering? { Looks(w, t); }
      case Wake(t) => if Next(w, a) != w { Moves(w, t, Entering(w.callers[t].id)); }
      case GiveUp(t) => if Next(w, a) != w { Moves(w, t, Returned(w.callers[t].id, None)); }
      case Spawn(t, ok) => if Next(w, a) != w { Spawns(w, t, ok); }
      case Install(t) => if t in w.callers && w.callers[t].Spawned? { Installs(w, t); }
      case CleanUp(host) => AllHostsOk(w); CleanUpDrops(w, host); DropsKeepsInv(w, Next(w, a));
      case CloseHost(id) => AllHostsOk(w); ClosesDrops(w, id); DropsKeepsInv(w, Next(w, a));
    }
  }

  lemma AllHostsOk(w: World)
    requires Inv(w)
    ensures HostsOk(w)
  {}

  lemma ClosesDrops(w: World, id: string)
    requires HostsOk(w)
    ensures Drops(w, Next(w, CloseHost(id)))
  {}

  lemma Looks(w: World, t: nat)
    requires Inv(w) && t in w.callers && w.callers[t].Entering?
    ensures Inv(Next(w, Look(t)))
  {
    var id := w.callers[t].id;
    if id in w.shared.hosts {
      Moves(w, t, Returned(id, Some(w.shared.hosts[id])));
    } else if id in w.shared.pending {
      assert PendingOk(w, id);
      Moves(w, t, Waiting(id, w.shared.pending[id]));
    } else {
      Begins(w, t, id);
    }
  }

  lemma {:induction false} RunKeepsInv(w: World, actions: seq<Action>)
    requires Inv(w)
    ensures Inv(Run(w, actions))
    decreases |actions|
  {
    hide Inv, Next;
    if actions != [] {
      NextKeepsInv(w, actions[0]);
      RunKeepsInv(Next(w, actions[0]), actions[1..]);
    }
  }

  lemma IdleInv()
    ensures Inv(Idle())
  {}

  // ---- what callers may rely on ----

  /**
   In every run: one spawn per session at a time; while it lasts no host is installed, so installing
   overwrites none; a waiter's channel is closed or about to be, by a caller at work; none is closed twice.
   */
  lemma SingleFlight(actions: seq<Action>)
    ensures var w := Run(Idle(), actions); var s := w.shared;
            && (forall t, u :: t in w.callers && u in w.callers && t != u && Working(w.callers[t]) && Working(w.callers[u]) ==>
                  w.callers[t].id != w.callers[u].id)
            && (forall t :: t in w.callers && Working(w.callers[t]) ==>
                  var id := w.callers[t].id; id !in s.hosts && id in s.pending && s.pending[id] == w.callers[t].ch)
            && (forall t :: t in w.callers && w.callers[t].Waiting? ==> Awaited(w, w.callers[t].id, w.callers[t].ch))
            && (forall ch :: 0 <= ch < |s.closes| ==> s.closes[ch] <= 1)
  {
    hide Run;
    IdleInv();
    RunKeepsInv(Idle(), actions);
    var w := Run(Idle(), actions);
    forall t | t in w.callers && Working(w.callers[t])
      ensures var id := w.callers[t].id; id !in w.shared.hosts && id in w.shared.pending && w.shared.pending[id] == w.callers[t].ch
    {
      assert CallerOk(w, w.callers[t]) && PendingOk(w, w.callers[t].id);
    }
    forall t | t in w.callers && w.callers[t].Waiting? ensures Awaited(w, w.callers[t].id, w.callers[t].ch) {
      assert CallerOk(w, w.callers[t]);
      var id, ch := w.callers[t].id, w.callers[t].ch;
      if w.shared.closes[ch] == 0 { PendingCloser(w, id); }
    }
  }

  /** The channel is closed, or some caller at work will close it. */
  ghost predicate Awaited(w: World, id: string, ch: nat) {
    || (ch < |w.shared.closes| && w.shared.closes[ch] > 0)
    || exists t :: t in w.callers && Working(w.callers[t]) && w.callers[t].id == id && w.callers[t].ch == ch
  }

  lemma PendingCloser(w: World, id: string)
    requires Inv(w) && id in w.shared.pending
    ensures Awaited(w, id, w.shared.pending[id])
  {
    assert PendingOk(w, id);
    var t :| t in w.callers && Working(w.callers[t]) && w.callers[t].id == id;
    assert CallerOk(w, w.callers[t]);
  }

  /** Who comes back without a host gave up waiting, or failed to spawn. */
  ghost predicate EmptyHanded(c: Caller, t: nat, actions: seq<Action>) {
    && (c.Returned? && c.result.None? ==> GiveUp(t) in actions || Spawn(t, false) in actions)
    && (c.Spawned? && c.host.None? ==> Spawn(t, false) in actions)
  }

  lemma NextEmptyHanded(w: World, a: Action, t: nat, earlier: seq<Action>)
    requires t in w.callers ==> EmptyHanded(w.callers[t], t, earlier)
    ensures t in Next(w, a).callers ==> EmptyHanded(Next(w, a).callers[t], t, earlier + [a])
  {
    assert a in earlier + [a] && forall b :: b in earlier ==> b in earlier + [a];
    hide AfterLook, AfterInstall, AfterCleanUp;
  }

  lemma {:induction false} RunEmptyHanded(w: World, actions: seq<Action>, t: nat, earlier: seq<Action>)
    requires t in w.callers ==> EmptyHanded(w.callers[t], t, earlier)
    ensures t in Run(w, actions).callers ==> EmptyHanded(Run(w, actions).callers[t], t, earlier + actions)
    decreases |actions|
  {
    hide Next, EmptyHanded;
    if actions == [] {
      assert earlier + actions == earlier;
    } else {
      NextEmptyHanded(w, actions[0], t, earlier);
      RunEmptyHanded(Next(w, actions[0]), actions[1..], t, earlier + [actions[0]]);
      assert earlier + [actions[0]] + actions[1..] == earlier + actions;
    }
  }

  /** In every run a caller comes back without a host only if it gave up waiting or its own spawn failed. */
  lemma NoHostOnlyIf(actions: seq<Action>, t: nat)
    requires var w := Run(Idle(), actions); t in w.callers && w.callers[t].Returned? && w.callers[t].result.None?
    ensures GiveUp(t) in actions || Spawn(t, false) in actions
  {
    hide Run;
    RunEmptyHanded(Idle(), actions, t, []);
    assert [] + actions == actions;
  }

  /** The action may remove the installed host `h` of session `id`. */
  predicate Removes(a: Action, id: string, h: nat) {
    a == CleanUp(h) || a == CloseHost(id)
  }

  lemma NextKeepsHost(w: World, a: Action, id: string)
    requires Inv(w) && id in w.shared.hosts && !Removes(a, id, w.shared.hosts[id])
    ensures id in Next(w, a).shared.hosts && Next(w, a).shared.hosts[id] == w.shared.hosts[id]
  {
    match a {
      case Install(t) =>
        if t in w.callers && w.callers[t].Spawned? {
          assert CallerOk(w, w.callers[t]) && PendingOk(w, w.callers[t].id);
        }
      case _ => hide Inv;
    }
  }

  /** An installed host stays until its own clean-up or a close of its session: a stale clean-up leaves it alone. */
  lemma {:induction false} HostStays(w: World, actions: seq<Action>, id: string)
    requires Inv(w) && id in w.shared.hosts && forall a :: a in actions ==> !Removes(a, id, w.shared.hosts[id])
    ensures id in Run(w, actions).shared.hosts && Run(w, actions).shared.hosts[id] == w.shared.hosts[id]
    decreases |actions|
  {
    hide Inv, Next;
    if actions != [] {
      NextKeepsInv(w, actions[0]);
      NextKeepsHost(w, actions[0], id);
      HostStays(Next(w, actions[0]), actions[1..], id);
    }
  }

  /** A host goes when its own process ends or its session is closed, and no other with it; who then looks spawns a new one. */
  lemma HostGoes(w: World, id: string, t: nat)
    requires Inv(w) && id in w.shared.hosts && t in w.callers && w.callers[t] == Entering(id)
    ensures forall a :: a in {CloseHost(id), CleanUp(w.shared.hosts[id])} ==>
              var s := Next(w, a).shared;
              && s == w.shared.(hosts := w.shared.hosts - {id})
              && Next(Next(w, a), Look(t)).callers[t] == Spawning(id, |w.shared.closes|)
  {
    NotPending(w, id);
    OwnHosts(w, id);
    assert w.shared.hosts[id] in w.watched;
    hide Inv;
  }

  lemma NotPending(w: World, id: string)
    requires Inv(w) && id in w.shared.hosts
    ensures id !in w.shared.pending
  {
    assert id in w.shared.pending ==> PendingOk(w, id);
  }

  /** Host `h` was spawned, and nobody is about to install it. */
  ghost predicate Spent(w: World, h: nat) {
    && h < |w.owner| && (forall id :: id in w.shared.hosts ==> w.shared.hosts[id] != h)
    && (forall t :: t in w.callers && w.callers[t].Spawned? ==> w.callers[t].host != Some(h))
  }

  lemma NextKeepsSpent(w: World, a: Action, h: nat)
    requires Spent(w, h)
    ensures Spent(Next(w, a), h)
  {
    hide AfterLook;
    assert forall s, id :: AfterLook(s, id).hosts == s.hosts by { LookLeavesHosts(); }
  }

  lemma LookLeavesHosts()
    ensures forall s, id :: AfterLook(s, id).hosts == s.hosts
  {}

  /** A host that was installed and is not any more. */
  lemma WentIsSpent(w: World, a: Action, id: string)
    requires Inv(w) && id in w.shared.hosts
    requires var s := Next(w, a).shared; id in s.hosts ==> s.hosts[id] != w.shared.hosts[id]
    ensures Spent(Next(w, a), w.shared.hosts[id])
  {
    var h := w.shared.hosts[id];
    if !Removes(a, id, h) { NextKeepsHost(w, a, id); }
    OwnHosts(w, id);
    hide Inv;
  }

  lemma OwnHosts(w: World, id: string)
    requires Inv(w) && id in w.shared.hosts
    ensures var h := w.shared.hosts[id];
            && h < |w.owner| && w.owner[h] == id
            && (forall i :: i in w.shared.hosts && i != id ==> w.shared.hosts[i] != h)
            && (forall t :: t in w.callers && w.callers[t].Spawned? ==> w.callers[t].host != Some(h))
  {
    forall t | t in w.callers && w.callers[t].Spawned? ensures w.callers[t].host != Some(w.shared.hosts[id]) {
      assert CallerOk(w, w.callers[t]);
    }
  }

  /** A host that went is never installed again. */
  lemma {:induction false} NeverBack(w: World, actions: seq<Action>, h: nat)
    requires Spent(w, h)
    ensures forall id :: id in Run(w, actions).shared.hosts ==> Run(w, actions).shared.hosts[id] != h
    decreases |actions|
  {
    hide Next;
    if actions != [] {
      NextKeepsSpent(w, actions[0], h);
      hide Spent;
      NeverBack(Next(w, actions[0]), actions[1..], h);
    }
  }

  /** The callers for `id` who came back with a host since `before` all hold the installed one. */
  ghost predicate Agree(w: World, before: set<nat>, id: string) {
    forall t :: t in w.callers && t !in before && Got(w.callers[t], id) ==>
      id in w.shared.hosts && w.shared.hosts[id] == w.callers[t].result.value
  }

  /** No clean-up or close for session `id`. */
  predicate Leaves(a: Action, owner: seq<string>, id: string) {
    match a
    case CleanUp(h) => h < |owner| ==> owner[h] != id
    case CloseHost(other) => other != id
    case _ => true
  }

  lemma OwnersStay(w: World, a: Action)
    ensures w.owner <= Next(w, a).owner
  {}

  lemma {:induction false} OwnersStayInRun(w: World, actions: seq<Action>)
    ensures w.owner <= Run(w, actions).owner
    decreases |actions|
  {
    hide Next;
    if actions != [] {
      OwnersStay(w, actions[0]);
      OwnersStayInRun(Next(w, actions[0]), actions[1..]);
    }
  }

  lemma NextKeepsAgree(w: World, a: Action, before: set<nat>, id: string)
    requires Inv(w) && Agree(w, before, id) && Leaves(a, w.owner, id)
    requires forall t :: t in before ==> t in w.callers
    ensures Agree(Next(w, a), before, id)
  {
    if id in w.shared.hosts { HostIsOwn(w, a, id); }
    hide Inv, AfterCleanUp, Leaves, Found, AfterLook, AfterInstall;
    forall t | t in Next(w, a).callers && t !in before && Got(Next(w, a).callers[t], id)
      ensures id in Next(w, a).shared.hosts && Next(w, a).shared.hosts[id] == Next(w, a).callers[t].result.value
    {
      if t !in w.callers || w.callers[t] != Next(w, a).callers[t] { NewlyBack(w, a, t, id); }
    }
  }

  predicate Got(c: Caller, id: string) {
    c.Returned? && c.id == id && c.result.Some?
  }

  /** Who comes back with a host just now found or installed it. */
  lemma NewlyBack(w: World, a: Action, t: nat, id: string)
    requires t in Next(w, a).callers && Got(Next(w, a).callers[t], id) && (t in w.callers ==> w.callers[t] != Next(w, a).callers[t])
    ensures id in Next(w, a).shared.hosts && Next(w, a).shared.hosts[id] == Next(w, a).callers[t].result.value
  {}

  lemma HostIsOwn(w: World, a: Action, id: string)
    requires Inv(w) && id in w.shared.hosts && Leaves(a, w.owner, id)
    ensures id in Next(w, a).shared.hosts && Next(w, a).shared.hosts[id] == w.shared.hosts[id]
  {
    assert !Removes(a, id, w.shared.hosts[id]);
    NextKeepsHost(w, a, id);
  }

  lemma LeavesEarlier(a: Action, owner: seq<string>, owner': seq<string>, id: string)
    requires Leaves(a, owner', id) && owner <= owner'
    ensures Leaves(a, owner, id)
  {}

  lemma KeepsCallers(w: World, a: Action)
    ensures forall t :: t in w.callers ==> t in Next(w, a).callers
  {}

  lemma {:induction false} RunKeepsAgree(w: World, actions: seq<Action>, before: set<nat>, id: string)
    requires Inv(w) && Agree(w, before, id) && forall t :: t in before ==> t in w.callers
    requires forall a :: a in actions ==> Leaves(a, Run(w, actions).owner, id)
    ensures Agree(Run(w, actions), before, id)
    decreases |actions|
  {
    hide Inv, Next, Agree, Leaves;
    if actions != [] {
      OwnersStayInRun(w, actions);
      LeavesEarlier(actions[0], w.owner, Run(w, actions).owner, id);
      NextKeepsInv(w, actions[0]);
      NextKeepsAgree(w, actions[0], before, id);
      KeepsCallers(w, actions[0]);
      RunKeepsAgree(Next(w, actions[0]), actions[1..], before, id);
    }
  }

  /** Callers who come back while nothing takes the session's host away all get the same one. */
  lemma SameHost(earlier: seq<Action>, actions: seq<Action>, id: string, t: nat, u: nat)
    requires var w := Run(Idle(), earlier); var w' := Run(w, actions);
             && (forall a :: a in actions ==> Leaves(a, w'.owner, id))
             && (forall c :: c == t || c == u ==>
                   c in w'.callers && (c in w.callers ==> !w.callers[c].Returned?)
                   && w'.callers[c].Returned? && w'.callers[c].id == id && w'.callers[c].result.Some?)
    ensures var w' := Run(Run(Idle(), earlier), actions); w'.callers[t].result == w'.callers[u].result
  {
    hide Run, Inv, Leaves;
    var w := Run(Idle(), earlier);
    IdleInv();
    RunKeepsInv(Idle(), earlier);
    var before := set c | c in w.callers && w.callers[c].Returned?;
    RunKeepsAgree(w, actions, before, id);
    assert t !in before && u !in before;
  }

  // ---- the sections as the code runs them ----

  class Attachments {
    var hosts: map<string, nat>
    var pending: map<string, nat>
    var closes: seq<nat>

    constructor ()
      ensures Value() == Idle().shared
    {
      hosts, pending, closes := map[], map[], [];
    }

    function Value(): Shared
      reads this
    {
      Shared(hosts, pending, closes)
    }

    /** The start of `EnsureWebPTYHost`'s loop: take the host, wait, or spawn. */
    method Look(id: string) returns (c: Caller)
      modifies this
      ensures c == Found(old(Value()), id) && Value() == AfterLook(old(Value()), id)
    {
      if id in hosts {
        return Returned(id, Some(hosts[id]));
      }
      if id in pending {
        return Waiting(id, pending[id]);
      }
      var ch := |closes|;
      closes := closes + [0];
      pending := pending[id := ch];
      c := Spawning(id, ch);
    }

    /** The end of a spawn. */
    method Install(id: string, ch: nat, host: Option<nat>)
      requires ch < |closes|
      modifies this
      ensures Value() == AfterInstall(old(Value()), id, ch, host)
    {
      pending := pending - {id};
      if host.Some? {
        hosts := hosts[id := host.value];
      }
      closes := closes[ch := closes[ch] + 1];
    }

    method ClearWebAttachHost(id: string, host: nat)
      modifies this
      ensures Value() == AfterCleanUp(old(Value()), id, host)
    {
      if id !in hosts || hosts[id] != host {
        return;
      }
      hosts := hosts - {id};
    }

    /** The host that is to be closed, if there was one. */
    method CloseWebAttachHost(id: string) returns (host: Option<nat>)
      modifies this
      ensures host == if id in old(hosts) then Some(old(hosts)[id]) else None
      ensures Value() == AfterClose(old(Value()), id)
    {
      host := if id in hosts then Some(hosts[id]) else None;
      hosts := hosts - {id};
    }
  }
}
