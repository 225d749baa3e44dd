/**
 The browser's event client as a machine over socket events, timers and calls. Sockets are numbers,
 never reused; sealing an attach and decoding a message may take time, during which anything else may happen.
 */
module Events {
  import opened Bytes

  /** A JSON value where a number is expected. */
  datatype Number = Integer(n: int) | Other

  datatype Mode = Replay | Snapshot | NoMode

  /** `Garbled`: cannot be decrypted or parsed. */
  datatype Message = NotText | Garbled | Recovery(mode: Mode, checkpoint: Number) | Envelope(seqNo: Number)

  datatype Ready = Connecting | Open | Closing | Closed

  /**
   `busy`: the first message of the inbox is being decoded. `attach`: the checkpoint the socket announces,
   from when it opened; `sent`: the announcement has been sealed and sent, which never happens if sealing fails.
   */
  datatype Socket = Socket(ready: Ready, inbox: seq<Message>, busy: bool, attach: Option<int>, sent: bool)

  /** What the client tells its listeners, and the calls of `connect`. */
  datatype Entry =
    | Connected(from: int)
    | Opened
    | Dropped
    | ProtocolError
    | Recovered(mode: Mode, at: int)
    | Event(n: int)

  datatype Client = Client(ws: Option<nat>, sockets: seq<Socket>, known: bool, stopped: bool, timer: bool, attempts: nat,
                           lastSeq: int, log: seq<Entry>)

  datatype Action =
    | Connect(from: int)
    | Close
    | Resume
    | TimerFires
    | OpenFires(s: nat)
    | Sealed(s: nat)
    | CloseFires(s: nat)
    | ErrorFires(s: nat)
    | Receive(s: nat, message: Message)
    | Begin(s: nat)
    | Finish(s: nat)

  const MAX_SAFE: int := 9007199254740991

  predicate Safe(x: Number) {
    x.Integer? && -MAX_SAFE <= x.n <= MAX_SAFE
  }

  predicate Live(s: Socket) {
    s.ready == Connecting || s.ready == Open
  }

  function Initial(): Client {
    Client(None, [], false, false, false, 0, 0, [])
  }

  predicate Current(c: Client, s: nat) {
    s < |c.sockets| && c.ws == Some(s) && !c.stopped
  }

  // ---- the parts ----

  function Shut(c: Client, s: nat): Client {
    if s < |c.sockets| && Live(c.sockets[s]) then
      c.(sockets := c.sockets[s := c.sockets[s].(ready := Closing)])
    else c
  }

  predicate HasLive(c: Client) {
    c.ws.Some? && c.ws.value < |c.sockets| && Live(c.sockets[c.ws.value])
  }

  function OpenSocket(c: Client): Client {
    if c.stopped || HasLive(c) then c
    else c.(ws := Some(|c.sockets|), sockets := c.sockets + [Socket(Connecting, [], false, None, false)])
  }

  function ShutCurrent(c: Client): Client {
    if c.ws.Some? then Shut(c, c.ws.value) else c
  }

  function Say(c: Client, e: Entry): Client {
    c.(log := c.log + [e])
  }

  function Reject(c: Client, s: nat): Client {
    var told := Say(c, ProtocolError);
    if c.ws == Some(s) then Shut(told, s) else told
  }

  /** The current socket's message, decoded. */
  function Handle(c: Client, s: nat, m: Message): Client {
    match m
    case NotText => c
    case Garbled => Shut(c, s)
    case Recovery(mode, at) =>
      if mode == NoMode || !Safe(at) || at.n < 0 || (mode == Replay && at.n != c.lastSeq) then Reject(c, s)
      else Say(c.(lastSeq := at.n), Recovered(mode, at.n))
    case Envelope(x) =>
      if !Safe(x) || x.n < 0 then Reject(c, s)
      else if x.n > 0 && x.n != c.lastSeq + 1 then Reject(c, s)
      else Say(if x.n > 0 then c.(lastSeq := x.n) else c, Event(x.n))
  }

  function Taken(c: Client, s: nat): Client
    requires s < |c.sockets| && c.sockets[s].inbox != []
  {
    c.(sockets := c.sockets[s := c.sockets[s].(inbox := c.sockets[s].inbox[1..], busy := false)])
  }

  // ---- one step ----

  function Next(c: Client, a: Action): Client {
    match a
    case Connect(from) => OpenSocket(Say(ShutCurrent(c).(known := true, lastSeq := from, stopped := false), Connected(from)))
    case Close => ShutCurrent(c).(stopped := true, timer := false, ws := None)
    case Resume => if c.stopped || !c.known || HasLive(c) then c else OpenSocket(c.(timer := false))
    case TimerFires => if c.timer then OpenSocket(c.(timer := false)) else c
    case OpenFires(s) =>
      if s >= |c.sockets| || c.sockets[s].ready != Connecting then c
      else
        var socket := c.sockets[s].(ready := Open);
        if !Current(c, s) then Shut(c.(sockets := c.sockets[s := socket]), s)
        else c.(sockets := c.sockets[s := socket.(attach := Some(c.lastSeq))], attempts := 0)
    case Sealed(s) =>
      if s >= |c.sockets| || c.sockets[s].attach.None? || c.sockets[s].sent then c
      else
        var c' := c.(sockets := c.sockets[s := c.sockets[s].(sent := true)]);
        if Current(c, s) then Say(c', Opened) else c'
    case CloseFires(s) =>
      if s >= |c.sockets| || c.sockets[s].ready == Closed then c
      else
        var c' := c.(sockets := c.sockets[s := c.sockets[s].(ready := Closed)]);
        if c.ws != Some(s) then c'
        else if c.stopped then Say(c'.(ws := None), Dropped)
        else Say(c'.(ws := None), Dropped).(timer := true, attempts := c.attempts + 1)
    case ErrorFires(s) => Shut(c, s)
    case Receive(s, m) =>
      if s < |c.sockets| then c.(sockets := c.sockets[s := c.sockets[s].(inbox := c.sockets[s].inbox + [m])]) else c
    case Begin(s) =>
      if s >= |c.sockets| || c.sockets[s].busy || c.sockets[s].inbox == [] then c
      else if !Current(c, s) then Taken(c, s)
      else if c.sockets[s].inbox[0].NotText? then Reject(Taken(c, s), s)
      else c.(sockets := c.sockets[s := c.sockets[s].(busy := true)])
    case Finish(s) =>
      if s >= |c.sockets| || !c.sockets[s].busy || c.sockets[s].inbox == [] then c
      else if !Current(c, s) then Taken(c, s)
      else Handle(Taken(c, s), s, c.sockets[s].inbox[0])
  }

  function Run(c: Client, actions: seq<Action>): Client
    decreases |actions|
  {
    if actions == [] then c else Run(Next(c, actions[0]), actions[1..])
  }

  // ---- what listeners see ----

  /** The checkpoint after entry `e`; none if `e` does not follow checkpoint `at`. */
  function Follow(at: Option<int>, e: Entry): Option<int> {
    if at.None? then None
    else
      match e
      case Connected(from) => Some(from)
      case Recovered(mode, k) => if mode == Snapshot || k == at.value then Some(k) else None
      case Event(n) => if n == 0 then at else if n > 0 && n == at.value + 1 then Some(n) else None
      case _ => at
  }

  function Checkpoint(log: seq<Entry>): Option<int> {
    if log == [] then Some(0) else Follow(Checkpoint(log[..|log| - 1]), log[|log| - 1])
  }

  predicate InStep(c: Client) {
    Checkpoint(c.log) == Some(c.lastSeq)
  }

  /** Only the current socket is still open or opening; none is current once stopped. */
  ghost predicate OneLive(c: Client) {
    && (forall s :: 0 <= s < |c.sockets| && Live(c.sockets[s]) ==> c.ws == Some(s))
    && (c.ws.Some? ==> c.ws.value < |c.sockets|)
    && (c.stopped ==> c.ws == None)
  }

  lemma SayFollows(c: Client, e: Entry)
    ensures Checkpoint(Say(c, e).log) == Follow(Checkpoint(c.log), e)
  {
    assert Say(c, e).log[..|c.log|] == c.log;
  }

  lemma RejectInStep(c: Client, s: nat)
    requires InStep(c)
    ensures InStep(Reject(c, s)) && Reject(c, s).lastSeq == c.lastSeq
  {
    hide Checkpoint;
    SayFollows(c, ProtocolError);
  }

  lemma HandleInStep(c: Client, s: nat, m: Message)
    requires InStep(c)
    ensures InStep(Handle(c, s, m))
  {
    hide Checkpoint, Say, Reject;
    RejectInStep(c, s);
    match m {
      case Recovery(mode, at) =>
        if at.Integer? { Says(c.(lastSeq := at.n), Recovered(mode, at.n)); }
      case Envelope(x) =>
        if x.Integer? { Says(c.(lastSeq := x.n), Event(x.n)); Says(c, Event(x.n)); }
      case _ =>
    }
  }

  lemma Says(c: Client, e: Entry)
    ensures Checkpoint(Say(c, e).log) == Follow(Checkpoint(c.log), e) && Say(c, e).lastSeq == c.lastSeq
  {
    SayFollows(c, e);
  }

  lemma NextInStep(c: Client, a: Action)
    requires InStep(c)
    ensures InStep(Next(c, a))
  {
    hide Checkpoint, Reject, Handle;
    match a {
      case Connect(from) => Says(ShutCurrent(c).(known := true, lastSeq := from, stopped := false), Connected(from));
      case Sealed(s) =>
        if s < |c.sockets| { Says(c.(sockets := c.sockets[s := c.sockets[s].(sent := true)]), Opened); }
      case CloseFires(s) =>
        if s < |c.sockets| { Says(c.(sockets := c.sockets[s := c.sockets[s].(ready := Closed)], ws := None), Dropped); }
      case Begin(s) =>
        if s < |c.sockets| && c.sockets[s].inbox != [] { RejectInStep(Taken(c, s), s); }
      case Finish(s) =>
        if s < |c.sockets| && c.sockets[s].inbox != [] { HandleInStep(Taken(c, s), s, c.sockets[s].inbox[0]); }
      case _ =>
    }
  }

  lemma {:induction false} RunInStep(c: Client, actions: seq<Action>)
    requires InStep(c)
    ensures InStep(Run(c, actions))
    decreases |actions|
  {
    hide InStep, Next;
    if actions != [] {
      NextInStep(c, actions[0]);
      RunInStep(Next(c, actions[0]), actions[1..]);
    }
  }

  /** In every run, each numbered event follows the checkpoint before it, and the client knows the last one. */
  lemma EventsFollow(actions: seq<Action>)
    ensures Checkpoint(Run(Initial(), actions).log) == Some(Run(Initial(), actions).lastSeq)
  {
    hide Run;
    RunInStep(Initial(), actions);
  }

  /** The numbered events of a log. */
  function Numbers(log: seq<Entry>): seq<int> {
    if log == [] then []
    else
      var e := log[|log| - 1];
      Numbers(log[..|log| - 1]) + if e.Event? && e.n > 0 then [e.n] else []
  }

  /** From, from + 1, ..., to - 1. */
  function Counting(from: int, n: nat): seq<int> {
    seq(n, i => from + i)
  }

  /** Nothing but replay: no new connection by a caller and no recovery from a snapshot. */
  predicate OnlyReplay(log: seq<Entry>) {
    forall e :: e in log ==> !e.Connected? && !(e.Recovered? && e.mode == Snapshot)
  }

  lemma {:induction false} CountsOn(before: seq<Entry>, since: seq<Entry>, at: int, k: int)
    requires OnlyReplay(since) && Checkpoint(before) == Some(at) && Checkpoint(before + since) == Some(k)
    ensures at <= k && Numbers(since) == Counting(at + 1, k - at)
    decreases |since|
  {
    if since == [] {
      assert before + since == before;
    } else {
      var n := |since| - 1;
      var fewer, e := since[..n], since[n];
      assert since == fewer + [e];
      OnlyReplayParts(fewer, e);
      hide OnlyReplay, Numbers, Counting, Checkpoint;
      CheckpointStep(before, fewer, e);
      NumbersStep(fewer, e);
      var j := Checkpoint(before + fewer).value;
      CountsOn(before, fewer, at, j);
      CountingStep(at + 1, j - at);
    }
  }

  lemma OnlyReplayParts(fewer: seq<Entry>, e: Entry)
    requires OnlyReplay(fewer + [e])
    ensures OnlyReplay(fewer) && !e.Connected? && !(e.Recovered? && e.mode == Snapshot)
  {
    assert e in fewer + [e] && forall f :: f in fewer ==> f in fewer + [e];
  }

  lemma CheckpointStep(before: seq<Entry>, fewer: seq<Entry>, e: Entry)
    ensures Checkpoint(before + (fewer + [e])) == Follow(Checkpoint(before + fewer), e)
  {
    var log := before + (fewer + [e]);
    assert log[..|log| - 1] == before + fewer && log[|log| - 1] == e;
  }

  lemma NumbersStep(fewer: seq<Entry>, e: Entry)
    ensures Numbers(fewer + [e]) == Numbers(fewer) + if e.Event? && e.n > 0 then [e.n] else []
  {
    assert (fewer + [e])[..|fewer|] == fewer;
  }

  lemma CountingStep(from: int, n: nat)
    ensures Counting(from, n) + [from + n] == Counting(from, n + 1) && Counting(from, n) + [] == Counting(from, n)
  {}

  lemma {:induction false} RunAdds(c: Client, actions: seq<Action>)
    ensures c.log <= Run(c, actions).log
    decreases |actions|
  {
    hide Next;
    if actions != [] {
      NextAdds(c, actions[0]);
      RunAdds(Next(c, actions[0]), actions[1..]);
    }
  }

  lemma HandleAdds(c: Client, s: nat, m: Message)
    ensures c.log <= Handle(c, s, m).log && c.log <= Reject(c, s).log
  {
    hide Safe;
  }

  lemma NextAdds(c: Client, a: Action)
    ensures c.log <= Next(c, a).log
  {
    hide Handle, Reject, Live;
    if (a.Begin? || a.Finish?) && a.s < |c.sockets| && c.sockets[a.s].inbox != [] {
      HandleAdds(Taken(c, a.s), a.s, c.sockets[a.s].inbox[0]);
    }
  }

  /**
   After `connect(url, from)`, whatever sockets, timers and callers do, as long as nobody connects anew
   and no snapshot replaces the checkpoint: the numbered events are from + 1, ..., `lastSeq`, each once, in order.
   */
  lemma ExactlyOnceInOrder(earlier: seq<Action>, from: int, later: seq<Action>)
    requires var c := Next(Run(Initial(), earlier), Connect(from));
             var c' := Run(c, later);
             |c.log| <= |c'.log| ==> OnlyReplay(c'.log[|c.log|..])
    ensures var c := Next(Run(Initial(), earlier), Connect(from));
            var c' := Run(c, later);
            |c.log| <= |c'.log| && from <= c'.lastSeq
            && Numbers(c'.log[|c.log|..]) == Counting(from + 1, c'.lastSeq - from)
  {
    var c0 := Run(Initial(), earlier);
    hide Run, Next, OnlyReplay;
    var c := Next(c0, Connect(from));
    var c' := Run(c, later);
    RunInStep(Initial(), earlier);
    NextInStep(c0, Connect(from));
    RunInStep(c, later);
    RunAdds(c, later);
    assert c.lastSeq == from by { ConnectSets(c0, from); }
    assert c.log + c'.log[|c.log|..] == c'.log;
    CountsOn(c.log, c'.log[|c.log|..], from, c'.lastSeq);
  }

  lemma ConnectSets(c: Client, from: int)
    ensures Next(c, Connect(from)).lastSeq == from
  {}

  // ---- resuming on a new socket ----

  /** `log` grew to `log'` without a new connection by a caller. */
  predicate GrewUnconnected(log: seq<Entry>, log': seq<Entry>) {
    log <= log' && forall e :: e in log'[|log|..] ==> !e.Connected?
  }

  lemma GrewAtMostOne(log: seq<Entry>, e: Entry)
    ensures GrewUnconnected(log, log)
    ensures !e.Connected? ==> GrewUnconnected(log, log + [e])
  {
    assert log[|log|..] == [] && (log + [e])[|log|..] == [e];
  }

  lemma GrewTransitive(a: seq<Entry>, b: seq<Entry>, c: seq<Entry>)
    requires GrewUnconnected(a, b) && GrewUnconnected(b, c)
    ensures GrewUnconnected(a, c)
  {
    assert c[|a|..] == b[|a|..] + c[|b|..];
  }

  /** Socket `s` has opened with checkpoint `k` to announce. */
  predicate Announces(c: Client, s: nat, k: int) {
    s < |c.sockets| && c.sockets[s].ready != Connecting && c.sockets[s].attach == Some(k)
  }

  /** From `c` to `c'` socket `s` goes on announcing what it does, and did not become current again. */
  ghost predicate Carries(c: Client, c': Client, s: nat) {
    && s < |c.sockets| && s < |c'.sockets|
    && (forall k :: Announces(c, s, k) ==> Announces(c', s, k))
    && (c'.ws == Some(s) ==> c.ws == Some(s) && GrewUnconnected(c.log, c'.log))
  }

  lemma CarriesTransitive(a: Client, b: Client, c: Client, s: nat)
    requires Carries(a, b, s) && Carries(b, c, s)
    ensures Carries(a, c, s)
  {
    hide GrewUnconnected, Announces;
    if c.ws == Some(s) { GrewTransitive(a.log, b.log, c.log); }
  }

  lemma PartsCarry(c: Client, t: nat, e: Entry, s: nat)
    requires s < |c.sockets|
    ensures Carries(c, c, s) && Carries(c, Shut(c, t), s) && Carries(c, Reject(c, t), s)
    ensures !e.Connected? ==> Carries(c, Say(c, e), s)
    ensures t < |c.sockets| && c.sockets[t].inbox != [] ==> Carries(c, Taken(c, t), s)
  {
    GrewAtMostOne(c.log, e);
    GrewAtMostOne(c.log, ProtocolError);
    hide GrewUnconnected;
  }

  lemma HandleCarries(c: Client, t: nat, m: Message, s: nat)
    requires s < |c.sockets|
    ensures Carries(c, Handle(c, t, m), s)
  {
    PartsCarry(c, t, ProtocolError, s);
    match m {
      case Recovery(mode, at) =>
        if at.Integer? { PartsCarry(c.(lastSeq := at.n), t, Recovered(mode, at.n), s); }
      case Envelope(x) =>
        if x.Integer? { PartsCarry(c.(lastSeq := x.n), t, Event(x.n), s); PartsCarry(c, t, Event(x.n), s); }
      case _ =>
    }
    hide GrewUnconnected, Reject, Shut;
  }

  lemma MessagesCarry(c: Client, a: Action, s: nat)
    requires s < |c.sockets| && (a.Receive? || a.Begin? || a.Finish? || a.ErrorFires?)
    ensures Carries(c, Next(c, a), s)
  {
    PartsCarry(c, a.s, ProtocolError, s);
    hide GrewUnconnected, Reject, Shut, Handle;
    if (a.Begin? || a.Finish?) && a.s < |c.sockets| && c.sockets[a.s].inbox != [] {
      var t := Taken(c, a.s);
      PartsCarry(t, a.s, ProtocolError, s);
      HandleCarries(t, a.s, c.sockets[a.s].inbox[0], s);
      hide Taken;
      CarriesTransitive(c, t, Reject(t, a.s), s);
      CarriesTransitive(c, t, Handle(t, a.s, c.sockets[a.s].inbox[0]), s);
    }
  }

  lemma SocketEventsCarry(c: Client, a: Action, s: nat)
    requires s < |c.sockets| && (a.OpenFires? || a.Sealed? || a.CloseFires?)
    ensures Carries(c, Next(c, a), s)
  {
    GrewAtMostOne(c.log, Opened);
    GrewAtMostOne(c.log, Dropped);
    hide GrewUnconnected;
  }

  lemma CallsCarry(c: Client, a: Action, s: nat)
    requires s < |c.sockets| && (a.Connect? || a.Close? || a.Resume? || a.TimerFires?)
    ensures Carries(c, Next(c, a), s)
  {
    GrewAtMostOne(c.log, Opened);
    hide GrewUnconnected;
  }

  lemma NextCarries(c: Client, a: Action, s: nat)
    requires s < |c.sockets|
    ensures Carries(c, Next(c, a), s)
  {
    hide Carries, Next;
    if a.Receive? || a.Begin? || a.Finish? || a.ErrorFires? { MessagesCarry(c, a, s); }
    else if a.OpenFires? || a.Sealed? || a.CloseFires? { SocketEventsCarry(c, a, s); }
    else { CallsCarry(c, a, s); }
  }

  lemma {:induction false} RunCarries(c: Client, actions: seq<Action>, s: nat)
    requires s < |c.sockets|
    ensures Carries(c, Run(c, actions), s)
    decreases |actions|
  {
    hide Next;
    if actions == [] {
      PartsCarry(c, s, Opened, s);
    } else {
      NextCarries(c, actions[0], s);
      RunCarries(Next(c, actions[0]), actions[1..], s);
      CarriesTransitive(c, Next(c, actions[0]), Run(c, actions), s);
    }
  }

  predicate NoSnapshots(log: seq<Entry>) {
    forall e :: e in log ==> !(e.Recovered? && e.mode == Snapshot)
  }

  /**
   A socket announces the checkpoint of the moment it opened, and for as long as it is the current one the
   numbered events since that moment are those right behind the checkpoint, each once, in order.
   */
  lemma ResumesWhereItAttached(earlier: seq<Action>, s: nat, later: seq<Action>)
    requires var c0 := Run(Initial(), earlier);
             var c' := Run(Next(c0, OpenFires(s)), later);
             && Current(c0, s) && c0.sockets[s].ready == Connecting && c'.ws == Some(s)
             && (|c0.log| <= |c'.log| ==> NoSnapshots(c'.log[|c0.log|..]))
    ensures var c0 := Run(Initial(), earlier);
            var c' := Run(Next(c0, OpenFires(s)), later);
            && s < |c'.sockets| && c'.sockets[s].attach == Some(c0.lastSeq)
            && |c0.log| <= |c'.log| && c0.lastSeq <= c'.lastSeq
            && Numbers(c'.log[|c0.log|..]) == Counting(c0.lastSeq + 1, c'.lastSeq - c0.lastSeq)
  {
    hide Run;
    var c0 := Run(Initial(), earlier);
    RunInStep(Initial(), earlier);
    OpensAndCounts(c0, s, later);
  }

  lemma OpensAndCounts(c: Client, s: nat, later: seq<Action>)
    requires Current(c, s) && c.sockets[s].ready == Connecting && InStep(c)
    requires var c' := Run(Next(c, OpenFires(s)), later);
             c'.ws == Some(s) && (|c.log| <= |c'.log| ==> NoSnapshots(c'.log[|c.log|..]))
    ensures var c' := Run(Next(c, OpenFires(s)), later);
            && s < |c'.sockets| && c'.sockets[s].attach == Some(c.lastSeq)
            && |c.log| <= |c'.log| && c.lastSeq <= c'.lastSeq
            && Numbers(c'.log[|c.log|..]) == Counting(c.lastSeq + 1, c'.lastSeq - c.lastSeq)
  {
    OpensAnnouncing(c, s);
    hide Run, Next, OnlyReplay, NoSnapshots, Numbers, Counting, Checkpoint;
    var c1 := Next(c, OpenFires(s));
    var c' := Run(c1, later);
    RunInStep(c1, later);
    RunCarries(c1, later, s);
    NoneConnected(c.log, c'.log);
    assert c.log + c'.log[|c.log|..] == c'.log;
    CountsOn(c.log, c'.log[|c.log|..], c.lastSeq, c'.lastSeq);
  }

  lemma OpensAnnouncing(c: Client, s: nat)
    requires Current(c, s) && c.sockets[s].ready == Connecting
    ensures var c' := Next(c, OpenFires(s));
            Announces(c', s, c.lastSeq) && c'.log == c.log && c'.lastSeq == c.lastSeq
  {}

  lemma NoneConnected(log: seq<Entry>, log': seq<Entry>)
    requires GrewUnconnected(log, log') && NoSnapshots(log'[|log|..])
    ensures OnlyReplay(log'[|log|..])
  {}

  // ---- what one message does ----

  /** The message that socket `s` has in work is done with; nothing else about the sockets changes but that `s` may be shut. */
  predicate Consumed(c: Client, c': Client, s: nat, shut: bool)
    requires s < |c.sockets| && c.sockets[s].inbox != []
  {
    && c'.ws == c.ws && c'.known == c.known && c'.stopped == c.stopped && c'.timer == c.timer && c'.attempts == c.attempts
    && |c'.sockets| == |c.sockets| && (forall t :: 0 <= t < |c.sockets| && t != s ==> c'.sockets[t] == c.sockets[t])
    && c'.sockets[s] == Socket(if shut && Live(c.sockets[s]) then Closing else c.sockets[s].ready, c.sockets[s].inbox[1..], false,
                               c.sockets[s].attach, c.sockets[s].sent)
  }

  /** The message is told to the listeners as entry `e`, and the checkpoint is `at`. */
  predicate Tells(c: Client, c': Client, s: nat, e: Entry, at: int)
    requires s < |c.sockets| && c.sockets[s].inbox != []
  {
    Consumed(c, c', s, false) && c'.log == c.log + [e] && c'.lastSeq == at
  }

  /** A protocol error is reported and the socket shut; the checkpoint stays. */
  predicate Refuses(c: Client, c': Client, s: nat)
    requires s < |c.sockets| && c.sockets[s].inbox != []
  {
    Consumed(c, c', s, true) && c'.log == c.log + [ProtocolError] && c'.lastSeq == c.lastSeq
  }

  /** The current socket has a decoded message to be handled. */
  predicate Handling(c: Client, s: nat, m: Message) {
    Current(c, s) && c.sockets[s].busy && c.sockets[s].inbox != [] && c.sockets[s].inbox[0] == m
  }

  /**
   A numbered event is delivered and becomes the checkpoint iff it is the next one and a safe integer; number 0 is
   delivered and moves nothing; anything else is refused.
   */
  lemma EventDelivered(c: Client, s: nat, x: Number)
    requires Handling(c, s, Envelope(x))
    ensures var c' := Next(c, Finish(s));
            if x == Integer(0) then Tells(c, c', s, Event(0), c.lastSeq)
            else if x == Integer(c.lastSeq + 1) && 1 <= x.n <= 9007199254740991 then Tells(c, c', s, Event(x.n), x.n)
            else Refuses(c, c', s)
  {}

  /** A recovery is taken on iff it names its mode and a safe checkpoint that is not negative, in a replay the client's own. */
  lemma RecoveryTaken(c: Client, s: nat, mode: Mode, at: Number)
    requires Handling(c, s, Recovery(mode, at))
    ensures var c' := Next(c, Finish(s));
            if mode != NoMode && at.Integer? && 0 <= at.n <= 9007199254740991 && (mode == Snapshot || at.n == c.lastSeq) then
              Tells(c, c', s, Recovered(mode, at.n), at.n)
            else Refuses(c, c', s)
  {}

  /** What cannot be decoded shuts the socket without a word; what is no text is refused before it is decoded. */
  lemma BadMessages(c: Client, s: nat)
    ensures Handling(c, s, Garbled) ==>
              var c' := Next(c, Finish(s)); Consumed(c, c', s, true) && c'.log == c.log && c'.lastSeq == c.lastSeq
    ensures Current(c, s) && !c.sockets[s].busy && c.sockets[s].inbox != [] && c.sockets[s].inbox[0] == NotText ==>
              Refuses(c, Next(c, Begin(s)), s)
  {}

  /** On any other socket a message is dropped. */
  lemma StaleDropped(c: Client, s: nat)
    requires s < |c.sockets| && !Current(c, s) && c.sockets[s].inbox != []
    ensures c.sockets[s].busy ==> Consumed(c, Next(c, Finish(s)), s, false) && Next(c, Finish(s)).log == c.log && Next(c, Finish(s)).lastSeq == c.lastSeq
    ensures !c.sockets[s].busy ==> Consumed(c, Next(c, Begin(s)), s, false) && Next(c, Begin(s)).log == c.log && Next(c, Begin(s)).lastSeq == c.lastSeq
  {}

  /** The server sends the events behind the checkpoint, one after the other. */
  function Sending(s: nat, from: int, n: nat): seq<Action>
    decreases n
  {
    if n == 0 then [] else [Receive(s, Envelope(Integer(from + 1))), Begin(s), Finish(s)] + Sending(s, from + 1, n - 1)
  }

  /** The current socket is open and has nothing to do. */
  predicate Listening(c: Client, s: nat) {
    Current(c, s) && c.sockets[s].ready == Open && c.sockets[s].inbox == [] && !c.sockets[s].busy
  }

  lemma OneArrives(c: Client, s: nat)
    requires Listening(c, s) && 0 <= c.lastSeq < 9007199254740991
    ensures var c' := Next(Next(Next(c, Receive(s, Envelope(Integer(c.lastSeq + 1)))), Begin(s)), Finish(s));
            Listening(c', s) && c'.lastSeq == c.lastSeq + 1 && c'.log == c.log + [Event(c.lastSeq + 1)]
  {
    hide Handle, Reject;
    var x := Integer(c.lastSeq + 1);
    var c1 := Next(c, Receive(s, Envelope(x)));
    var c2 := Next(c1, Begin(s));
    assert c1.sockets[s].inbox == [Envelope(x)];
    EventDelivered(c2, s, x);
    hide Next;
  }

  lemma RunOne(c: Client, a: Action, rest: seq<Action>)
    ensures Run(c, [a] + rest) == Run(Next(c, a), rest)
  {
    hide Next;
    assert ([a] + rest)[1..] == rest;
  }

  lemma RunThree(c: Client, a: Action, b: Action, d: Action, rest: seq<Action>)
    ensures Run(c, [a, b, d] + rest) == Run(Next(Next(Next(c, a), b), d), rest)
  {
    hide Next, Run;
    RunOne(c, a, [b] + ([d] + rest));
    RunOne(Next(c, a), b, [d] + rest);
    RunOne(Next(Next(c, a), b), d, rest);
    assert [a, b, d] + rest == [a] + ([b] + ([d] + rest));
  }

  /** All of them are told, in order, and the socket stays open. */
  lemma {:induction false} AllArrive(c: Client, s: nat, n: nat)
    requires Listening(c, s) && 0 <= c.lastSeq && c.lastSeq + n <= 9007199254740991
    ensures var c' := Run(c, Sending(s, c.lastSeq, n));
            Listening(c', s) && c'.lastSeq == c.lastSeq + n && c'.log == c.log + seq(n, i => Event(c.lastSeq + 1 + i))
    decreases n
  {
    hide Next, Listening;
    if n == 0 {
      assert c.log + seq(0, i => Event(c.lastSeq + 1 + i)) == c.log;
    } else {
      var k := c.lastSeq;
      var c1 := Next(Next(Next(c, Receive(s, Envelope(Integer(k + 1)))), Begin(s)), Finish(s));
      OneArrives(c, s);
      RunThree(c, Receive(s, Envelope(Integer(k + 1))), Begin(s), Finish(s), Sending(s, k + 1, n - 1));
      AllArrive(c1, s, n - 1);
      assert [Event(k + 1)] + seq(n - 1, i => Event(k + 1 + 1 + i)) == seq(n, i => Event(k + 1 + i));
      assert c.log + [Event(k + 1)] + seq(n - 1, i => Event(k + 1 + 1 + i)) == c.log + ([Event(k + 1)] + seq(n - 1, i => Event(k + 1 + 1 + i)));
    }
  }

  /** Once its attach is sealed and sent, the current socket is told to be open. */
  lemma OpeningTold(c: Client, s: nat)
    requires Current(c, s) && c.sockets[s].attach.Some? && !c.sockets[s].sent
    ensures var c' := Next(c, Sealed(s));
            && c'.log == c.log + [Opened] && c'.sockets == c.sockets[s := c.sockets[s].(sent := true)]
            && c'.lastSeq == c.lastSeq && c'.ws == c.ws && !c'.stopped
  {}

  /** The client was given a new socket, which is opening, and keeps the others. */
  predicate NewSocket(c: Client, c': Client) {
    && c'.ws == Some(|c.sockets|) && |c'.sockets| == |c.sockets| + 1
    && c'.sockets[|c.sockets|] == Socket(Connecting, [], false, None, false)
  }

  /** `connect` and `resume` bring a new socket, unless one is at work when resuming; `close` leaves none. */
  lemma CallsDo(c: Client, from: int)
    requires OneLive(c)
    ensures NewSocket(c, Next(c, Connect(from))) && !Next(c, Connect(from)).stopped && Next(c, Connect(from)).lastSeq == from
    ensures !c.stopped && c.known && !HasLive(c) ==> NewSocket(c, Next(c, Resume)) && !Next(c, Resume).timer
    ensures c.stopped || !c.known || HasLive(c) ==> Next(c, Resume) == c
    ensures var c' := Next(c, Action.Close);
            c'.stopped && !c'.timer && c'.ws == None && c'.log == c.log && forall s :: 0 <= s < |c'.sockets| ==> !Live(c'.sockets[s])
  {
    ShutCurrentLeavesNone(c);
  }

  /** A current connection that drops is told, and unless the client was stopped a timer is set that opens a new one. */
  lemma DropIsReopened(c: Client, s: nat)
    requires Current(c, s) && c.sockets[s].ready != Closed
    ensures var c1 := Next(c, CloseFires(s));
            var c2 := Next(c1, TimerFires);
            && c1.log == c.log + [Dropped] && c1.ws == None && c1.timer && c1.attempts == c.attempts + 1 && c1.lastSeq == c.lastSeq
            && c2.ws == Some(|c.sockets|) && !c2.timer && c2.sockets == c1.sockets + [Socket(Connecting, [], false, None, false)]
            && c2.lastSeq == c.lastSeq && c2.log == c1.log
  {}

  /** Another socket that drops is no news, and one with an error is shut. */
  lemma OtherDrops(c: Client, s: nat)
    requires s < |c.sockets|
    ensures c.ws != Some(s) ==> var c' := Next(c, CloseFires(s)); c' == c.(sockets := c'.sockets) && !Live(c'.sockets[s])
    ensures !Live(Next(c, ErrorFires(s)).sockets[s]) && Next(c, ErrorFires(s)).log == c.log
  {}

  // ---- one connection ----

  /** No socket came to life, none became current. */
  ghost predicate Quieter(c: Client, c': Client) {
    && c'.ws == c.ws && c'.stopped == c.stopped && |c'.sockets| == |c.sockets|
    && forall s :: 0 <= s < |c.sockets| && Live(c'.sockets[s]) ==> Live(c.sockets[s])
  }

  lemma QuieterKeepsOneLive(c: Client, c': Client)
    requires OneLive(c) && Quieter(c, c')
    ensures OneLive(c')
  {}

  lemma ShutIsQuieter(c: Client, s: nat)
    ensures Quieter(c, Shut(c, s)) && Quieter(c, Reject(c, s)) && (forall e :: Quieter(c, Say(c, e)))
    ensures s < |c.sockets| ==> !Live(Shut(c, s).sockets[s])
  {}

  lemma HandleIsQuieter(c: Client, s: nat, m: Message)
    ensures Quieter(c, Handle(c, s, m))
  {
    hide Shut, Reject, Quieter;
    ShutIsQuieter(c, s);
    QuieterSame(c);
  }

  lemma QuieterSame(c: Client)
    ensures Quieter(c, c)
    ensures forall n, e :: Quieter(c, Say(c.(lastSeq := n), e)) && Quieter(c, Say(c, e))
  {}

  lemma QuieterTransitive(a: Client, b: Client, c: Client)
    requires Quieter(a, b) && Quieter(b, c)
    ensures Quieter(a, c)
  {}

  lemma TakenIsQuieter(c: Client, s: nat)
    requires s < |c.sockets| && c.sockets[s].inbox != []
    ensures Quieter(c, Taken(c, s))
  {}

  /** Messages never bring a socket to life. */
  lemma MessagesAreQuieter(c: Client, a: Action)
    requires a.Receive? || a.Begin? || a.Finish? || a.ErrorFires?
    ensures Quieter(c, Next(c, a))
  {
    ShutIsQuieter(c, a.s);
    QuieterSame(c);
    if a.s < |c.sockets| && c.sockets[a.s].inbox != [] {
      var t := Taken(c, a.s);
      TakenIsQuieter(c, a.s);
      ShutIsQuieter(t, a.s);
      HandleIsQuieter(t, a.s, c.sockets[a.s].inbox[0]);
      hide Shut, Reject, Handle, Taken;
      QuieterTransitive(c, t, Reject(t, a.s));
      QuieterTransitive(c, t, Handle(t, a.s, c.sockets[a.s].inbox[0]));
    }
  }

  /** A new socket while none is alive. */
  lemma OpenKeepsOneLive(c: Client)
    requires OneLive(c)
    ensures OneLive(OpenSocket(c))
  {}

  lemma ShutCurrentLeavesNone(c: Client)
    requires OneLive(c)
    ensures var c' := ShutCurrent(c);
            && Quieter(c, c') && forall s :: 0 <= s < |c'.sockets| ==> !Live(c'.sockets[s])
  {
    if c.ws.Some? { ShutIsQuieter(c, c.ws.value); }
  }

  lemma CallsKeepOneLive(c: Client, a: Action)
    requires OneLive(c) && (a.Connect? || a.Close? || a.Resume? || a.TimerFires?)
    ensures OneLive(Next(c, a))
  {
    ShutCurrentLeavesNone(c);
    hide ShutCurrent, OpenSocket;
    OpenKeepsOneLive(c.(timer := false));
    if a.Connect? {
      OpenKeepsOneLive(Say(ShutCurrent(c).(known := true, lastSeq := a.from, stopped := false), Connected(a.from)));
    }
  }

  lemma SocketEventsKeepOneLive(c: Client, a: Action)
    requires OneLive(c) && (a.OpenFires? || a.Sealed? || a.CloseFires?)
    ensures OneLive(Next(c, a))
  {}

  lemma NextKeepsOneLive(c: Client, a: Action)
    requires OneLive(c)
    ensures OneLive(Next(c, a))
  {
    hide OneLive, Next;
    if a.Receive? || a.Begin? || a.Finish? || a.ErrorFires? {
      MessagesAreQuieter(c, a);
      QuieterKeepsOneLive(c, Next(c, a));
    } else if a.OpenFires? || a.Sealed? || a.CloseFires? {
      SocketEventsKeepOneLive(c, a);
    } else {
      CallsKeepOneLive(c, a);
    }
  }

  /** In every run at most one socket is open or opening, the current one. */
  lemma {:induction false} OneConnection(c: Client, actions: seq<Action>)
    requires OneLive(c)
    ensures OneLive(Run(c, actions))
    decreases |actions|
  {
    hide OneLive, Next;
    if actions != [] {
      NextKeepsOneLive(c, actions[0]);
      OneConnection(Next(c, actions[0]), actions[1..]);
    }
  }

  /** At no time are two sockets open or opening. */
  lemma OneSocketAtATime(actions: seq<Action>, s: nat, t: nat)
    requires var c := Run(Initial(), actions);
             s < |c.sockets| && t < |c.sockets| && Live(c.sockets[s]) && Live(c.sockets[t])
    ensures s == t && Run(Initial(), actions).ws == Some(s) && !Run(Initial(), actions).stopped
  {
    hide Run;
    OneConnection(Initial(), actions);
  }

  // ---- the client ----

  class EventsWS {
    var ws: Option<nat>
    var sockets: seq<Socket>
    var known: bool
    var stopped: bool
    var timer: bool
    var attempts: nat
    var lastSeq: int
    var log: seq<Entry>

    constructor ()
      ensures Value() == Initial()
    {
      ws, sockets, known, stopped := None, [], false, false;
      timer, attempts, lastSeq, log := false, 0, 0, [];
    }

    function Value(): Client
      reads this
    {
      Client(ws, sockets, known, stopped, timer, attempts, lastSeq, log)
    }

    method CloseSocket(s: nat)
      modifies this`sockets
      ensures Value() == Shut(old(Value()), s)
    {
      if s < |sockets| && Live(sockets[s]) {
        sockets := sockets[s := sockets[s].(ready := Closing)];
      }
    }

    method OpenNow()
      modifies this
      ensures Value() == OpenSocket(old(Value()))
    {
      if stopped || (ws.Some? && ws.value < |sockets| && Live(sockets[ws.value])) {
        return;
      }
      var socket := |sockets|;
      sockets := sockets + [Socket(Connecting, [], false, None, false)];
      ws := Some(socket);
    }

    method Connect(from: int)
      modifies this
      ensures Value() == Next(old(Value()), Action.Connect(from))
    {
      if ws.Some? {
        CloseSocket(ws.value);
      }
      known := true;
      lastSeq := from;
      stopped := false;
      log := log + [Connected(from)];
      OpenNow();
    }

    method Close()
      modifies this
      ensures Value() == Next(old(Value()), Action.Close)
    {
      stopped := true;
      timer := false;
      var socket := ws;
      ws := None;
      if socket.Some? {
        CloseSocket(socket.value);
      }
    }

    method Resume()
      modifies this
      ensures Value() == Next(old(Value()), Action.Resume)
    {
      if stopped || !known {
        return;
      }
      if ws.Some? && ws.value < |sockets| && Live(sockets[ws.value]) {
        return;
      }
      timer := false;
      OpenNow();
    }

    /** `handleOpen` up to the sealing of the attach. */
    method BeginOpen(s: nat)
      requires s < |sockets| && sockets[s].ready == Connecting
      modifies this
      ensures Value() == Next(old(Value()), OpenFires(s))
    {
      sockets := sockets[s := sockets[s].(ready := Open)];
      if ws != Some(s) || stopped {
        CloseSocket(s);
        return;
      }
      attempts := 0;
      sockets := sockets[s := sockets[s].(attach := Some(lastSeq))];
    }

    /** `handleOpen` from there on. */
    method FinishOpen(s: nat)
      requires s < |sockets| && sockets[s].attach.Some? && !sockets[s].sent
      modifies this
      ensures Value() == Next(old(Value()), Sealed(s))
    {
      sockets := sockets[s := sockets[s].(sent := true)];
      if ws != Some(s) || stopped {
        return;
      }
      log := log + [Opened];
    }

    method HandleClose(s: nat)
      requires s < |sockets| && sockets[s].ready != Closed
      modifies this
      ensures Value() == Next(old(Value()), CloseFires(s))
    {
      sockets := sockets[s := sockets[s].(ready := Closed)];
      if ws != Some(s) {
        return;
      }
      ws := None;
      log := log + [Dropped];
      if !stopped {
        timer := true;
        attempts := attempts + 1;
      }
    }

    method RejectFrame(s: nat)
      modifies this
      ensures Value() == Reject(old(Value()), s)
    {
      log := log + [ProtocolError];
      if ws == Some(s) {
        CloseSocket(s);
      }
    }

    /** The second half of `handleMessage`, for the socket that is still current. */
    method HandleDecoded(s: nat, m: Message)
      modifies this
      ensures Value() == Handle(old(Value()), s, m)
    {
      match m {
        case NotText =>
        case Garbled =>
          CloseSocket(s);
        case Recovery(mode, at) =>
          if mode == NoMode || !Safe(at) || at.n < 0 || (mode == Replay && at.n != lastSeq) {
            RejectFrame(s);
            return;
          }
          lastSeq := at.n;
          log := log + [Recovered(mode, at.n)];
        case Envelope(x) =>
          if !Safe(x) || x.n < 0 {
            RejectFrame(s);
            return;
          }
          if x.n > 0 {
            if x.n != lastSeq + 1 {
              RejectFrame(s);
              return;
            }
            lastSeq := x.n;
          }
          log := log + [Event(x.n)];
      }
    }

    /** `handleMessage` up to the decoding of the socket's next message. */
    method BeginMessage(s: nat)
      requires s < |sockets| && !sockets[s].busy && sockets[s].inbox != []
      modifies this
      ensures Value() == Next(old(Value()), Begin(s))
    {
      var m, socket := sockets[s].inbox[0], sockets[s];
      if ws != Some(s) || stopped {
        sockets := sockets[s := socket.(inbox := socket.inbox[1..], busy := false)];
        return;
      }
      if m.NotText? {
        sockets := sockets[s := socket.(inbox := socket.inbox[1..], busy := false)];
        RejectFrame(s);
        return;
      }
      sockets := sockets[s := socket.(busy := true)];
    }

    /** `handleMessage` from there on. */
    method FinishMessage(s: nat)
      requires s < |sockets| && sockets[s].busy && sockets[s].inbox != []
      modifies this
      ensures Value() == Next(old(Value()), Finish(s))
    {
      var m, socket := sockets[s].inbox[0], sockets[s];
      sockets := sockets[s := socket.(inbox := socket.inbox[1..], busy := false)];
      if ws != Some(s) || stopped {
        return;
      }
      HandleDecoded(s, m);
    }
  }
}
