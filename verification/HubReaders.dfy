/**
 One reader through a run of the hub: what each step does to its history and its channel, and what
 follows for resuming, for losses and for the counts in markers.
 */
module HubReaders {
  import opened Bytes
  import opened Subscribers
  import opened HubSpec
  import opened HubRuns
  import Kitty

  // ---- one step, one reader ----

  /** The hub as it is when a step sends: a write has put its bytes out. */
  function Sending(c: Core, step: Step): Core {
    if step.Write? && step.p != [] && !c.closed then Appended(c, Kitty.Render(Kitty.Write(c.kitty, step.p).pieces)) else c
  }

  /** The frame a step sends to all subscribers, if any: what was coalesced, or a resize. */
  function SentFrame(c: Core, step: Step): Option<Frame> {
    var d := Sending(c, step);
    if c.closed then None
    else
      match step
      case Write(p) => if |d.coalesce| >= COALESCE_FLUSH_BYTES && d.stream != c.stream then Some(Data(d.coalesce)) else None
      case Resized(frame) => if frame == [] then None else Some(Resize(frame))
      case Tick => if c.coalesce == [] then None else Some(Data(c.coalesce))
      case SubscribeFrom(_, _) => if c.coalesce == [] then None else Some(Data(c.coalesce))
      case Close => if c.coalesce == [] then None else Some(Data(c.coalesce))
      case _ => None
  }

  datatype Reader = Reader(history: History, sub: Sub)

  function ReaderOf(w: World, id: nat): Reader
    requires id in w.clients && HasSub(w, id)
  {
    Reader(w.clients[id], SubOf(w, id))
  }

  /** A reader in the hub is sent a frame by hub `d`. */
  function Noted(r: Reader, d: Core, f: Frame): Reader {
    if |d.coalesce| > |d.stream| then r
    else Reader(Note(r.history, r.sub, f, d.Snapshot(), |d.stream| - |d.coalesce|), Enqueue(r.sub, f, d.Snapshot()))
  }

  /** Reader `id` once the step has sent. */
  function SentTo(w: World, step: Step, id: nat): Reader
    requires id in w.clients && HasSub(w, id)
  {
    var sent := SentFrame(w.core, step);
    if sent.Some? && id in w.core.subs then Noted(ReaderOf(w, id), Sending(w.core, step), sent.value) else ReaderOf(w, id)
  }

  /** And after it has received, or was unsubscribed or closed. */
  function Settled(w: World, step: Step, id: nat, r: Reader): Reader {
    if step == Receive(id) && r.sub.queue != [] then
      Reader(r.history.(got := r.history.got + [r.sub.queue[0]]), r.sub.(queue := r.sub.queue[1..]))
    else if step == UnsubSwap(id) && id in w.core.subs && !r.sub.closed then
      Reader(r.history.(left := true), r.sub.(closed := true))
    else if step == Close && id in w.core.subs && !w.core.closed then Reader(r.history, r.sub.(closed := true))
    else r
  }

  /** What a step makes of reader `id`. */
  function Turn(w: World, step: Step, id: nat): Reader
    requires id in w.clients && HasSub(w, id)
  {
    Settled(w, step, id, SentTo(w, step, id))
  }

  lemma InvHas(w: World, id: nat)
    requires Inv(w) && id in w.clients
    ensures HasSub(w, id) && id <= w.core.nextID && |w.core.coalesce| <= |w.core.stream|
    ensures id in w.core.subs ==> id !in w.gone
    ensures w.core.closed ==> id !in w.core.subs
    ensures w.core.coalesce != [] ==> !w.core.closed
  {
    hide Listed, Departed;
  }

  /** A flush, for one subscriber. */
  lemma FlushTurns(c: Core, clients: map<nat, History>, id: nat)
    requires id in clients && |c.coalesce| <= |c.stream|
    ensures id in NoteFlush(clients, c) && (id in Flush(c).subs <==> id in c.subs)
    ensures if c.closed || c.coalesce == [] || id !in c.subs then
              NoteFlush(clients, c)[id] == clients[id] && (id in c.subs ==> Flush(c).subs[id] == c.subs[id])
            else Reader(NoteFlush(clients, c)[id], Flush(c).subs[id]) == Noted(Reader(clients[id], c.subs[id]), c, Data(c.coalesce))
  {
    hide Note, Enqueue, LastN;
  }

  ghost predicate Turned(w: World, step: Step, id: nat)
    requires id in w.clients && HasSub(w, id)
  {
    var w' := Next(w, step);
    id in w'.clients && HasSub(w', id) && ReaderOf(w', id) == Turn(w, step, id)
  }

  /** The reader and the table fit together, and a flush changes the reader as `Noted` says. */
  ghost predicate Steady(w: World, id: nat) {
    var c := w.core;
    && id in w.clients && HasSub(w, id) && id <= c.nextID && |c.coalesce| <= |c.stream|
    && (id in c.subs ==> id !in w.gone) && (c.closed ==> id !in c.subs) && (c.coalesce != [] ==> !c.closed)
  }

  ghost predicate FlushNoted(w: World, id: nat)
    requires Steady(w, id)
  {
    var c, d, hs := w.core, Flush(w.core), NoteFlush(w.clients, w.core);
    && id in hs && (id in d.subs <==> id in c.subs) && d.closed == c.closed && d.nextID == c.nextID
    && if c.coalesce == [] || id !in c.subs then hs[id] == w.clients[id] && (id in c.subs ==> d.subs[id] == c.subs[id])
       else Reader(hs[id], d.subs[id]) == Noted(Reader(w.clients[id], c.subs[id]), c, Data(c.coalesce))
  }

  lemma FlushIsNoted(w: World, id: nat)
    requires Steady(w, id)
    ensures FlushNoted(w, id)
  {
    hide Flush, NoteFlush, Noted;
    FlushTurns(w.core, w.clients, id);
    FlushEmpties(w.core);
  }

  lemma TickTurns(w: World, id: nat)
    requires Steady(w, id) && FlushNoted(w, id)
    ensures Turned(w, Tick, id)
  {
    hide Flush, NoteFlush, Noted;
  }

  lemma CloseTurns(w: World, id: nat)
    requires Steady(w, id) && FlushNoted(w, id)
    ensures Turned(w, Close, id)
  {
    hide Flush, NoteFlush, Noted;
  }

  lemma SubscribeFromTurns(w: World, cap: int, k: nat, id: nat)
    requires Steady(w, id) && FlushNoted(w, id)
    ensures Turned(w, SubscribeFrom(cap, k), id)
  {
    hide Flush, NoteFlush, Noted, ReplaySince;
  }

  lemma SubscribeTurns(w: World, cap: int, replay: bool, id: nat)
    requires Steady(w, id)
    ensures Turned(w, Subscribe(cap, replay), id)
  {
    hide NewSub, Noted;
  }

  lemma ResizedTurns(w: World, frame: Bytes, id: nat)
    requires Steady(w, id)
    ensures Turned(w, Resized(frame), id)
  {
    hide Note, Enqueue, LastN;
  }

  lemma WriteTurns(w: World, p: Bytes, id: nat)
    requires Steady(w, id)
    ensures Turned(w, Write(p), id)
  {
    hide Kitty.Write, Kitty.Render, Flush, NoteFlush, Noted, LastN;
    var c := w.core;
    if p != [] && !c.closed {
      var out := Kitty.Render(Kitty.Write(c.kitty, p).pieces);
      var d := Appended(c, out);
      assert out == [] ==> d.stream == c.stream && d.coalesce == c.coalesce;
      assert out != [] ==> |d.stream| > |c.stream|;
      FlushTurns(d, w.clients, id);
      KittyAside(c, d, Kitty.Write(c.kitty, p).state);
      hide Appended;
    }
  }

  lemma KittyAside(c: Core, d: Core, state: Kitty.State)
    ensures Flush(d.(kitty := state, timer := c.timer)).subs == Flush(d).subs
  {
    hide Enqueue, LastN;
  }

  lemma LeavingTurns(w: World, step: Step, id: nat)
    requires Steady(w, id) && (step.Receive? || step.UnsubSwap? || step.UnsubLock?)
    ensures Turned(w, step, id)
  {
    hide Noted;
  }

  /** Every step turns every reader as `Turn` says. */
  lemma NextTurns(w: World, step: Step, id: nat)
    requires Inv(w) && id in w.clients
    ensures HasSub(w, id) && Turned(w, step, id)
  {
    InvHas(w, id);
    assert Steady(w, id);
    FlushIsNoted(w, id);
    hide Inv, Turned, Steady, FlushNoted;
    match step {
      case Write(p) => WriteTurns(w, p, id);
      case Tick => TickTurns(w, id);
      case Resized(frame) => ResizedTurns(w, frame, id);
      case SubscribeFrom(cap, k) => SubscribeFromTurns(w, cap, k, id);
      case Subscribe(cap, replay) => SubscribeTurns(w, cap, replay, id);
      case Close => CloseTurns(w, id);
      case _ => LeavingTurns(w, step, id);
    }
  }

  // ---- resuming ----

  lemma NotedKeepsOrigin(r: Reader, d: Core, f: Frame)
    ensures Noted(r, d, f).history.origin == r.history.origin && Noted(r, d, f).history.prefix == r.history.prefix
  {
    hide Enqueue, LastN, Counts, Total;
  }

  lemma TurnKeepsOrigin(w: World, step: Step, id: nat)
    requires id in w.clients && HasSub(w, id)
    ensures Turn(w, step, id).history.origin == w.clients[id].origin && Turn(w, step, id).history.prefix == w.clients[id].prefix
  {
    hide Noted, Sending, SentFrame;
    var sent := SentFrame(w.core, step);
    if sent.Some? { NotedKeepsOrigin(ReaderOf(w, id), Sending(w.core, step), sent.value); }
  }

  /** Where a reader began and what it was replayed stays, and the stream only grows. */
  lemma {:induction false} RunKeepsOrigin(w: World, steps: seq<Step>, id: nat)
    requires Inv(w) && id in w.clients
    ensures Inv(Run(w, steps)) && id in Run(w, steps).clients && HasSub(Run(w, steps), id)
    ensures Run(w, steps).clients[id].origin == w.clients[id].origin && Run(w, steps).clients[id].prefix == w.clients[id].prefix
    ensures w.core.stream <= Run(w, steps).core.stream
    decreases |steps|
  {
    InvHas(w, id);
    hide Inv, Next, Turn, HasSub;
    if steps != [] {
      NextTurns(w, steps[0], id);
      TurnKeepsOrigin(w, steps[0], id);
      NextGrows(w, steps[0]);
      NextKeepsInv(w, steps[0]);
      RunKeepsOrigin(Next(w, steps[0]), steps[1..], id);
    }
  }

  lemma NextGrows(w: World, step: Step)
    ensures w.core.stream <= Next(w, step).core.stream
  {
    hide Note, Enqueue, LastN, Kitty.Write, Kitty.Render, NewSub;
    FlushEmpties(w.core);
    if step.Write? && step.p != [] && !w.core.closed {
      FlushEmpties(Appended(w.core, Kitty.Render(Kitty.Write(w.core.kitty, step.p).pieces)).(
                     kitty := Kitty.Write(w.core.kitty, step.p).state, timer := w.core.timer));
    }
    hide Flush;
  }

  /**
   Exact resume: a reader that subscribed from `k`, with `k` in the ring's window, and that was told of no loss
   with none due, has in its replay, the data frames it took, those queued and the unflushed bytes exactly the
   stream from `k`, whatever happened in between; once unsubscribed, a piece of that without holes.
   */
  lemma ResumesFrom(ringSize: nat, before: seq<Step>, cap: int, k: nat, after: seq<Step>)
    requires var w := Run(Start(ringSize), before);
             !w.core.closed && |w.core.stream| - |w.core.Snapshot()| <= k <= |w.core.stream|
    requires var w, id := Run(Start(ringSize), before), Run(Start(ringSize), before).core.nextID + 1;
             var w' := Run(Next(w, SubscribeFrom(cap, k)), after);
             id in w'.clients && HasSub(w', id) ==> !SubOf(w', id).needMarker && NoMarker(w'.clients[id].got + SubOf(w', id).queue)
    ensures var w, id := Run(Start(ringSize), before), Run(Start(ringSize), before).core.nextID + 1;
            var w' := Run(Next(w, SubscribeFrom(cap, k)), after);
            && w.core.stream <= w'.core.stream && id in w'.clients && HasSub(w', id)
            && var h, q := w'.clients[id], SubOf(w', id).queue;
               if h.left then h.prefix + DataOf(h.got) + DataOf(q) <= w'.core.stream[k..]
               else h.prefix + DataOf(h.got) + DataOf(q) + w'.core.coalesce == w'.core.stream[k..]
  {
    hide Run, Next, Inv, HasSub, NoMarker;
    RunKeepsInv(Start(ringSize), before) by { StartInv(ringSize); }
    var w := Run(Start(ringSize), before);
    var id, w1 := w.core.nextID + 1, Next(w, SubscribeFrom(cap, k));
    SubscribeFromBegins(w, cap, k);
    NextKeepsInv(w, SubscribeFrom(cap, k));
    RunKeepsOrigin(w1, after, id);
    var w' := Run(w1, after);
    ReaderIsGood(w', id);
    GoodResumes(w'.clients[id], SubOf(w', id), w'.core.stream, w'.core.coalesce);
  }

  lemma StartInv(ringSize: nat)
    ensures Inv(Start(ringSize))
  {}

  lemma ReaderIsGood(w: World, id: nat)
    requires Inv(w) && id in w.clients
    ensures HasSub(w, id) && Good(w.clients[id], SubOf(w, id), w.core.stream, w.core.coalesce)
  {
    hide Good;
  }

  // ---- what markers report ----

  lemma {:induction false} CountsConcat(a: seq<Frame>, b: seq<Frame>)
    ensures Counts(a + b) == Counts(a) + Counts(b)
    decreases |a|
  {
    if a == [] {
      assert a + b == b;
    } else {
      assert (a + b)[1..] == a[1..] + b;
      CountsConcat(a[1..], b);
    }
  }

  lemma CountsOne(f: Frame)
    ensures Counts([f]) == if f.Marker? then f.count else 0
  {
    assert [f][1..] == [];
  }

  lemma {:induction false} CountsNone(fs: seq<Frame>)
    requires NoMarker(fs)
    ensures Counts(fs) == 0
    decreases |fs|
  {
    if fs != [] {
      assert fs[0] in fs && forall f :: f in fs[1..] ==> f in fs;
      CountsNone(fs[1..]);
    }
  }

  /** A marker can only be the oldest frame queued; while one is due none is queued, and something was given up. */
  ghost predicate MarkerFirst(s: Sub) {
    && (forall f :: f in s.queue ==> f.Size() > 0 && (f.Marker? ==> f.count > 0))
    && (forall i :: 0 < i < |s.queue| ==> !s.queue[i].Marker?)
    && (s.needMarker ==> NoMarker(s.queue) && s.dropped > 0)
  }

  /** The frame does not fit behind what is queued. */
  predicate Overruns(s: Sub, f: Frame) {
    s.queue != [] && (s.bufBytes + f.Size() > s.bufCap || |s.queue| >= s.chanCap)
  }

  /** The frame pushes a marker out that the reader has not taken. */
  predicate PushesMarkerOut(s: Sub, f: Frame) {
    !s.closed && !s.needMarker && Overruns(s, f) && s.queue[0].Marker?
  }

  lemma SendDrops(s: Sub, f: Frame)
    requires s.Valid() && f.Size() > 0
    ensures var t := Send(s, f, true, true);
            && 1 <= |t.queue| && (|t.queue| <= |s.queue| <==> Overruns(s, f))
            && t.queue == s.queue[|GivenUp(s, t)|..] + [f] && |GivenUp(s, t)| <= |s.queue|
            && GivenUp(s, t) == s.queue[..|GivenUp(s, t)|]
            && t.needMarker == (s.needMarker || GivenUp(s, t) != []) && t.dropped == s.dropped + Total(GivenUp(s, t))
            && t.Valid() && t.closed == s.closed
  {
    hide Total;
    var k := SendTracked(s, f);
    var t := Send(s, f, true, true);
    assert |t.queue| == |s.queue| - k + 1;
    assert GivenUp(s, t) == s.queue[..k];
    DropsSomething(s, f);
  }

  lemma DropsSomething(s: Sub, f: Frame)
    requires s.Valid() && f.Size() > 0
    ensures |Send(s, f, true, true).queue| <= |s.queue| <==> Overruns(s, f)
  {
    hide Total, Frame.Size;
    var n := f.Size();
    var t := if s.queue == [] then s.(bufBytes := 0) else s;
    ShedAllEmpties(t);
    ShedShortens(t, n);
    PushLength(MakeRoom(s, n, true, true), f);
  }

  lemma {:induction false} ShedShortens(s: Sub, n: nat)
    ensures var r := Shed(s, n, true);
            && |r.queue| <= |s.queue| && r.chanCap == s.chanCap
            && (r == s || (|r.queue| < |s.queue| && s.queue != [] && s.bufBytes + n > s.bufCap))
            && (s.queue != [] && s.bufBytes + n > s.bufCap ==> |r.queue| < |s.queue|)
    decreases |s.queue|
  {
    if s.queue != [] && s.bufBytes + n > s.bufCap { ShedShortens(DropOldest(s, true), n); }
  }

  lemma {:induction false} PushLength(r: Sub, f: Frame)
    requires 1 <= r.chanCap
    ensures |Push(r, f, true).queue| == (if |r.queue| < r.chanCap then |r.queue| + 1 else r.chanCap)
    decreases |r.queue|
  {
    if |r.queue| >= r.chanCap {
      PushLength(DropOldest(r, true), f);
    }
  }

  lemma SendKeepsFirst(s: Sub, f: Frame)
    requires s.Valid() && MarkerFirst(s) && !s.needMarker && f.Size() > 0 && !f.Marker?
    ensures MarkerFirst(Send(s, f, true, true))
  {
    hide Send, Sub.Valid, Frame.Size, Overruns;
    SendDrops(s, f);
    var t := Send(s, f, true, true);
    var gone := GivenUp(s, t);
    var k := |gone|;
    assert forall i :: 0 <= i < |t.queue| ==> t.queue[i] == if i < |s.queue| - k then s.queue[k + i] else f;
    if k > 0 {
      assert gone[0] == s.queue[0] && s.queue[0] in s.queue;
      TotalFirst(gone);
    }
  }

  lemma TotalFirst(fs: seq<Frame>)
    requires fs != [] && fs[0].Size() > 0
    ensures Total(fs) > 0
  {}

  lemma RecoveryKeepsFirst(s: Sub, f: Frame, snapshot: Bytes)
    requires s.Valid() && MarkerFirst(s) && s.needMarker && !s.closed && f.Size() > 0 && !f.Marker?
    ensures MarkerFirst(Enqueue(s, f, snapshot))
  {
    hide Enqueue, Sub.Valid, Total;
    EnqueueMarks(s, f, snapshot);
  }

  lemma EnqueueKeepsFirst(s: Sub, f: Frame, snapshot: Bytes)
    requires s.Valid() && MarkerFirst(s) && f.Size() > 0 && !f.Marker?
    ensures MarkerFirst(Enqueue(s, f, snapshot))
  {
    hide MarkerFirst, Send, Sub.Valid, Frame.Size;
    if s.closed {
    } else if s.needMarker {
      RecoveryKeepsFirst(s, f, snapshot);
    } else {
      SendKeepsFirst(s, f);
    }
  }

  /** Every marker made is with the reader, queued for it, or was given up. */
  predicate Accounted(h: History, s: Sub) {
    h.marked == Counts(h.got) + Counts(s.queue) + h.evicted
  }

  /** Sending a frame loses the report of a marker exactly when it pushes one out. */
  lemma NoteAccounts(h: History, s: Sub, f: Frame, snapshot: Bytes, start: nat)
    requires s.Valid() && MarkerFirst(s) && Accounted(h, s) && f.Size() > 0 && !f.Marker?
    ensures var h', t := Note(h, s, f, snapshot, start), Enqueue(s, f, snapshot);
            && Accounted(h', t) && (if PushesMarkerOut(s, f) then h'.evicted > h.evicted else h'.evicted == h.evicted)
  {
    hide Send, Sub.Valid, Frame.Size, Total, Overruns;
    if !s.closed && s.needMarker {
      RecoveryAccounts(h, s, f, snapshot, start);
    } else if !s.closed {
      SendAccounts(h, s, f, snapshot, start);
    }
  }

  lemma RecoveryAccounts(h: History, s: Sub, f: Frame, snapshot: Bytes, start: nat)
    requires s.Valid() && MarkerFirst(s) && Accounted(h, s) && f.Size() > 0 && !f.Marker? && !s.closed && s.needMarker
    ensures var h', t := Note(h, s, f, snapshot, start), Enqueue(s, f, snapshot);
            Accounted(h', t) && h'.evicted == h.evicted
  {
    hide Enqueue, Sub.Valid, Frame.Size, Total;
    EnqueueMarks(s, f, snapshot);
    CountsNone(s.queue);
    CountsRecovery(s.dropped + Total(s.queue), snapshot, f);
  }

  lemma CountsRecovery(lost: nat, snapshot: Bytes, f: Frame)
    requires !f.Marker?
    ensures Counts(Recovery(lost, snapshot, f)) == lost
  {
    hide Counts;
    var rest := (if snapshot == [] then [] else [Catchup(snapshot)]) + [f];
    CountsConcat([Marker(lost)], rest);
    CountsOne(Marker(lost));
    CountsNone(rest);
    assert Recovery(lost, snapshot, f) == [Marker(lost)] + rest;
  }

  lemma SendAccounts(h: History, s: Sub, f: Frame, snapshot: Bytes, start: nat)
    requires s.Valid() && MarkerFirst(s) && Accounted(h, s) && f.Size() > 0 && !f.Marker? && !s.closed && !s.needMarker
    ensures var h', t := Note(h, s, f, snapshot, start), Enqueue(s, f, snapshot);
            && Accounted(h', t) && (if PushesMarkerOut(s, f) then h'.evicted > h.evicted else h'.evicted == h.evicted)
  {
    hide Send, Sub.Valid, Frame.Size, Total, Overruns, GivenUp, Counts;
    SendDrops(s, f);
    var t := Send(s, f, true, true);
    var gone := GivenUp(s, t);
    var k := |gone|;
    assert s.queue == s.queue[..k] + s.queue[k..];
    CountsConcat(s.queue[..k], s.queue[k..]);
    CountsConcat(s.queue[k..], [f]);
    CountsOne(f);
    GoneCounts(s, k);
  }

  /** The oldest `k` frames report something iff the first of them is a marker. */
  lemma GoneCounts(s: Sub, k: nat)
    requires MarkerFirst(s) && k <= |s.queue|
    ensures Counts(s.queue[..k]) > 0 <==> k > 0 && s.queue[0].Marker?
  {
    if k > 0 {
      hide Counts;
      var gone := s.queue[..k];
      assert gone == [gone[0]] + gone[1..] && gone[0] in s.queue;
      CountsConcat([gone[0]], gone[1..]);
      CountsOne(gone[0]);
      assert NoMarker(gone[1..]);
      CountsNone(gone[1..]);
    }
  }

  ghost predicate Reporting(w: World, id: nat) {
    id in w.clients && HasSub(w, id) && Accounted(w.clients[id], SubOf(w, id)) && MarkerFirst(SubOf(w, id))
  }

  /** The step sends reader `id` a frame that pushes a marker out. */
  predicate MarkerLostAt(w: World, step: Step, id: nat) {
    id in w.core.subs && SentFrame(w.core, step).Some? && PushesMarkerOut(w.core.subs[id], SentFrame(w.core, step).value)
  }

  lemma SentFrameSize(w: World, step: Step)
    ensures SentFrame(w.core, step).Some? ==> SentFrame(w.core, step).value.Size() > 0 && !SentFrame(w.core, step).value.Marker?
  {}

  lemma TurnReports(w: World, step: Step, id: nat)
    requires Inv(w) && Reporting(w, id)
    ensures var r := Turn(w, step, id);
            && Accounted(r.history, r.sub) && MarkerFirst(r.sub)
            && if MarkerLostAt(w, step, id) then r.history.evicted > w.clients[id].evicted else r.history.evicted == w.clients[id].evicted
  {
    SentReports(w, step, id);
    hide Inv, SentTo, MarkerLostAt, Reporting, MarkerFirst, Accounted;
    SettledReports(w, step, id, SentTo(w, step, id));
  }

  lemma SentReports(w: World, step: Step, id: nat)
    requires Inv(w) && Reporting(w, id)
    ensures var r := SentTo(w, step, id);
            && Accounted(r.history, r.sub) && MarkerFirst(r.sub)
            && if MarkerLostAt(w, step, id) then r.history.evicted > w.clients[id].evicted else r.history.evicted == w.clients[id].evicted
  {
    InvHas(w, id);
    ReaderIsGood(w, id);
    SentFrameSize(w, step);
    SendingFits(w, step);
    hide Inv, SentFrame, Sending, Frame.Size, Noted, MarkerFirst, Accounted, PushesMarkerOut;
    var sent := SentFrame(w.core, step);
    if sent.Some? && id in w.core.subs { NotedReports(ReaderOf(w, id), Sending(w.core, step), sent.value); }
  }

  lemma SettledReports(w: World, step: Step, id: nat, r: Reader)
    requires Accounted(r.history, r.sub) && MarkerFirst(r.sub)
    ensures var r' := Settled(w, step, id, r); Accounted(r'.history, r'.sub) && MarkerFirst(r'.sub) && r'.history.evicted == r.history.evicted
  {
    hide MarkerFirst, Accounted;
    if r.sub.queue != [] { ReceiveReports(r.history, r.sub); }
    ClosedFirst(r.sub);
    ClosedAccounts(r.history, r.sub);
  }

  lemma SendingFits(w: World, step: Step)
    requires Inv(w)
    ensures var d := Sending(w.core, step); |d.coalesce| <= |d.stream| && d.stream[|d.stream| - |d.coalesce|..] == d.coalesce
  {
    hide Listed, Departed, Kitty.Write, Kitty.Render;
    if step.Write? && step.p != [] && !w.core.closed {
      SuffixGrows(w.core.stream, w.core.coalesce, Kitty.Render(Kitty.Write(w.core.kitty, step.p).pieces));
    }
  }

  lemma NotedReports(r: Reader, d: Core, f: Frame)
    requires r.sub.Valid() && MarkerFirst(r.sub) && Accounted(r.history, r.sub) && f.Size() > 0 && !f.Marker? && |d.coalesce| <= |d.stream|
    ensures var r' := Noted(r, d, f);
            && Accounted(r'.history, r'.sub) && MarkerFirst(r'.sub)
            && if PushesMarkerOut(r.sub, f) then r'.history.evicted > r.history.evicted else r'.history.evicted == r.history.evicted
  {
    hide Note, Enqueue, Sub.Valid, MarkerFirst, Accounted, PushesMarkerOut, Frame.Size, LastN;
    NoteAccounts(r.history, r.sub, f, d.Snapshot(), |d.stream| - |d.coalesce|);
    EnqueueKeepsFirst(r.sub, f, d.Snapshot());
  }

  lemma ReceiveReports(h: History, s: Sub)
    requires s.queue != [] && Accounted(h, s) && MarkerFirst(s)
    ensures Accounted(h.(got := h.got + [s.queue[0]]), s.(queue := s.queue[1..])) && MarkerFirst(s.(queue := s.queue[1..]))
  {
    hide Counts, Frame.Size;
    var q := s.queue;
    assert q == [q[0]] + q[1..];
    CountsConcat([q[0]], q[1..]);
    CountsConcat(h.got, [q[0]]);
    assert forall f :: f in q[1..] ==> f in q;
  }

  lemma ClosedFirst(s: Sub)
    requires MarkerFirst(s)
    ensures MarkerFirst(s.(closed := true))
  {}

  lemma ClosedAccounts(h: History, s: Sub)
    requires Accounted(h, s)
    ensures Accounted(h.(left := true), s.(closed := true)) && Accounted(h, s.(closed := true))
  {}

  /** A new reader has no markers yet. */
  lemma NewReaders(w: World, step: Step, id: nat)
    requires Inv(w) && id !in w.clients && id in Next(w, step).clients
    ensures HasSub(Next(w, step), id)
    ensures var h, s := Next(w, step).clients[id], SubOf(Next(w, step), id);
            && h.got == [] && h.marked == 0 && h.evicted == 0
            && (s.queue == [] || (w.core.Snapshot() != [] && s.queue == [Catchup(w.core.Snapshot())]))
            && !s.needMarker && s.dropped == 0
  {
    hide Listed, Departed, Note, Enqueue, LastN, Kitty.Write, Kitty.Render;
    FlushEmpties(w.core);
    hide Flush;
  }

  ghost predicate AllReporting(w: World) {
    forall id :: id in w.clients ==> Reporting(w, id)
  }

  lemma NextReports(w: World, step: Step, id: nat)
    requires Inv(w) && AllReporting(w) && id in Next(w, step).clients
    ensures Reporting(Next(w, step), id)
  {
    if id in w.clients {
      NextTurns(w, step, id);
      hide Inv, Next, Turn, HasSub;
      TurnReports(w, step, id);
    } else {
      NewReaders(w, step, id);
      hide Inv, Next;
      NewReports(Next(w, step).clients[id], SubOf(Next(w, step), id));
    }
  }

  lemma NewReports(h: History, s: Sub)
    requires h.got == [] && h.marked == 0 && h.evicted == 0 && !s.needMarker
    requires s.queue == [] || (|s.queue| == 1 && s.queue[0].Catchup? && s.queue[0].bytes != [])
    ensures Accounted(h, s) && MarkerFirst(s)
  {
    CountsNone(s.queue);
  }

  lemma {:induction false} RunReports(w: World, steps: seq<Step>)
    requires Inv(w) && AllReporting(w)
    ensures AllReporting(Run(w, steps))
    decreases |steps|
  {
    hide Inv, Next, Reporting;
    if steps != [] {
      forall id | id in Next(w, steps[0]).clients ensures Reporting(Next(w, steps[0]), id) { NextReports(w, steps[0], id); }
      NextKeepsInv(w, steps[0]);
      RunReports(Next(w, steps[0]), steps[1..]);
    }
  }

  lemma StartReports(ringSize: nat)
    ensures AllReporting(Start(ringSize))
  {}

  /** The world before step `k`. */
  function Before(ringSize: nat, steps: seq<Step>, k: nat): World
    requires k <= |steps|
  {
    Run(Start(ringSize), steps[..k])
  }

  lemma {:induction false} RunAppend(w: World, steps: seq<Step>, step: Step)
    ensures Run(w, steps + [step]) == Next(Run(w, steps), step)
    decreases |steps|
  {
    hide Next;
    if steps == [] {
      assert [step][1..] == [] && [] + [step] == [step];
      assert Run(Next(w, step), []) == Next(w, step);
    } else {
      assert (steps + [step])[1..] == steps[1..] + [step];
      RunAppend(Next(w, steps[0]), steps[1..], step);
    }
  }

  lemma BeforeNext(ringSize: nat, steps: seq<Step>, k: nat)
    requires k < |steps|
    ensures Before(ringSize, steps, k + 1) == Next(Before(ringSize, steps, k), steps[k])
  {
    hide Next, Run;
    assert steps[..k + 1] == steps[..k] + [steps[k]];
    RunAppend(Start(ringSize), steps[..k], steps[k]);
  }

  lemma BeforeInv(ringSize: nat, steps: seq<Step>, k: nat)
    requires k <= |steps|
    ensures Inv(Before(ringSize, steps, k)) && AllReporting(Before(ringSize, steps, k))
  {
    hide Inv, Run, AllReporting;
    StartInv(ringSize);
    StartReports(ringSize);
    RunKeepsInv(Start(ringSize), steps[..k]);
    RunReports(Start(ringSize), steps[..k]);
  }

  /** A reader has lost the report of a marker iff some step pushed one out. */
  lemma {:induction false} EvictedIff(ringSize: nat, steps: seq<Step>, n: nat, id: nat)
    requires n <= |steps| && id in Before(ringSize, steps, n).clients
    ensures Before(ringSize, steps, n).clients[id].evicted == 0
            <==> forall k :: 0 <= k < n ==> !MarkerLostAt(Before(ringSize, steps, k), steps[k], id)
  {
    hide Inv, Next, MarkerLostAt, Turn, AllReporting, HasSub, Before;
    if n == 0 {
      NobodyAtStart(ringSize, steps);
    } else {
      var w := Before(ringSize, steps, n - 1);
      BeforeInv(ringSize, steps, n - 1);
      BeforeNext(ringSize, steps, n - 1);
      if id in w.clients {
        EvictedIff(ringSize, steps, n - 1, id);
        ReportsOf(w, id);
        NextTurns(w, steps[n - 1], id);
        TurnReports(w, steps[n - 1], id);
      } else {
        NewReaders(w, steps[n - 1], id);
        forall k | 0 <= k < n ensures !MarkerLostAt(Before(ringSize, steps, k), steps[k], id) {
          NotThereYet(ringSize, steps, k, n - 1, id);
        }
      }
    }
  }

  lemma NobodyAtStart(ringSize: nat, steps: seq<Step>)
    ensures Before(ringSize, steps, 0).clients == map[]
  {
    assert steps[..0] == [];
  }

  lemma ReportsOf(w: World, id: nat)
    requires AllReporting(w) && id in w.clients
    ensures Reporting(w, id)
  {}

  /** Who is not a reader yet was none before. */
  lemma {:induction false} NotThereYet(ringSize: nat, steps: seq<Step>, k: nat, n: nat, id: nat)
    requires k <= n < |steps| && id !in Before(ringSize, steps, n).clients
    ensures !MarkerLostAt(Before(ringSize, steps, k), steps[k], id)
    decreases n - k
  {
    hide Before, Next, AllReporting, MarkerLostAt, Inv;
    BeforeInv(ringSize, steps, k);
    if id in Before(ringSize, steps, k).clients { StaysClient(ringSize, steps, k, n, id); }
    NothingForOutsiders(Before(ringSize, steps, k), steps[k], id);
  }

  lemma NothingForOutsiders(w: World, step: Step, id: nat)
    requires Inv(w) && id !in w.clients
    ensures id !in w.core.subs && !MarkerLostAt(w, step, id)
  {
    hide Listed, Departed;
  }

  lemma {:induction false} StaysClient(ringSize: nat, steps: seq<Step>, k: nat, n: nat, id: nat)
    requires k <= n <= |steps| && id in Before(ringSize, steps, k).clients
    ensures id in Before(ringSize, steps, n).clients
    decreases n
  {
    hide Before, Next, AllReporting, Inv, Turn, HasSub;
    if k < n {
      StaysClient(ringSize, steps, k, n - 1, id);
      BeforeInv(ringSize, steps, n - 1);
      BeforeNext(ringSize, steps, n - 1);
      NextTurns(Before(ringSize, steps, n - 1), steps[n - 1], id);
    }
  }

  /**
   The byte ledger, in every run: all that was ever put in a channel was received, is queued, is reported in
   the markers received or queued, was to be reported in markers that were given up themselves, or will be in the next
   one. So the reader is or will be told of exactly what it lost iff no marker was ever pushed out of its
   channel: iff no frame was sent to it that did not fit while a marker waited at the head.
   */
  lemma ByteLedger(ringSize: nat, steps: seq<Step>, id: nat)
    requires id in Run(Start(ringSize), steps).clients
    ensures var w := Run(Start(ringSize), steps);
            && HasSub(w, id)
            && var h, s := w.clients[id], SubOf(w, id);
               && h.enqueued == Total(h.got) + Total(s.queue) + Counts(h.got + s.queue) + h.evicted + s.dropped
               && (s.dropped > 0 <==> s.needMarker)
               && (h.evicted == 0 <==>
                     forall k :: 0 <= k < |steps| ==> !MarkerLostAt(Before(ringSize, steps, k), steps[k], id))
               && Total(s.queue) <= s.bufBytes && |s.queue| <= s.chanCap
  {
    var w := Run(Start(ringSize), steps);
    assert steps[..|steps|] == steps;
    EvictedIff(ringSize, steps, |steps|, id);
    BeforeInv(ringSize, steps, |steps|);
    hide Run, Inv, MarkerLostAt;
    ReportsOf(w, id);
    ReaderIsGood(w, id);
    hide Counts, Total, AllReporting, Follows, Told;
    CountsConcat(w.clients[id].got, SubOf(w, id).queue);
  }
}
