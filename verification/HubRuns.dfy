/**
 Runs of the hub: writes, timer flushes, resizes, subscriptions, readers taking frames,
 unsubscribes and close, in any order. Beside the hub every subscriber has a history of what
 its reader has been given; the invariant ties that history to the output stream.
 */
module HubRuns {
  import opened Bytes
  import opened Subscribers
  import opened HubSpec
  import Kitty

  /**
   got: frames the reader took. prefix: the replay it was given at subscription. base: where in the
   stream its bytes start, since the last marker if there was one. enqueued, marked: bytes ever put
   in its channel, and the counts of all markers made. left: it was unsubscribed. evicted: the counts of
   markers given up before the reader could take them.
   */
  datatype History = History(got: seq<Frame>, prefix: Bytes, base: nat, origin: nat,
                             enqueued: nat, marked: nat, left: bool, evicted: nat)

  /** `gone`: channels no longer in the hub, which a reader may still drain. */
  datatype World = World(core: Core, gone: map<nat, Sub>, clients: map<nat, History>)

  datatype Step =
    | Write(p: Bytes)
    | Tick
    | Resized(frame: Bytes)
    | SubscribeFrom(cap: int, k: nat)
    | Subscribe(cap: int, replay: bool)
    | Receive(id: nat)
    | UnsubSwap(id: nat)
    | UnsubLock(id: nat)
    | Close

  function Start(ringSize: nat): World {
    World(NewHub(ringSize), map[], map[])
  }

  /** What the markers among `fs` report. */
  function Counts(fs: seq<Frame>): nat {
    if fs == [] then 0 else (if fs[0].Marker? then fs[0].count else 0) + Counts(fs[1..])
  }

  /** The frames given up to make room for one more, when `s` becomes `t`. */
  function GivenUp(s: Sub, t: Sub): seq<Frame> {
    if 1 <= |t.queue| <= |s.queue| then s.queue[..|s.queue| + 1 - |t.queue|] else []
  }

  /** The history of a subscriber that is sent `f`, where `start` is the first byte not yet flushed. */
  function Note(h: History, s: Sub, f: Frame, snapshot: Bytes, start: nat): History {
    if s.closed then h
    else if s.needMarker then
      var lost := s.dropped + Total(s.queue);
      h.(base := start, marked := h.marked + lost, enqueued := h.enqueued + Total(Recovery(lost, snapshot, f)),
         evicted := h.evicted + Counts(s.queue))
    else h.(enqueued := h.enqueued + f.Size(), evicted := h.evicted + Counts(GivenUp(s, Enqueue(s, f, snapshot))))
  }

  /** A broadcast of `f` by hub `c`, whose unflushed bytes begin at `start`. */
  function NoteAll(clients: map<nat, History>, c: Core, f: Frame, start: nat): map<nat, History> {
    if c.closed || f.Size() == 0 then clients
    else map id | id in clients ::
           if id in c.subs then Note(clients[id], c.subs[id], f, c.Snapshot(), start) else clients[id]
  }

  function NoteFlush(clients: map<nat, History>, c: Core): map<nat, History> {
    if c.coalesce == [] || |c.coalesce| > |c.stream| then clients
    else NoteAll(clients, c, Data(c.coalesce), |c.stream| - |c.coalesce|)
  }

  function Appended(c: Core, out: Bytes): Core {
    c.(stream := c.stream + out, coalesce := c.coalesce + out, timer := true)
  }

  function NoteWrite(clients: map<nat, History>, c: Core, p: Bytes): map<nat, History> {
    if p == [] || c.closed then clients
    else
      var d := Appended(c, Kitty.Render(Kitty.Write(c.kitty, p).pieces));
      if |d.coalesce| >= COALESCE_FLUSH_BYTES && d.stream != c.stream then NoteFlush(clients, d) else clients
  }

  function Next(w: World, step: Step): World {
    var c := w.core;
    match step
    case Write(p) => w.(core := HubSpec.Write(c, p), clients := NoteWrite(w.clients, c, p))
    case Tick => w.(core := Flush(c), clients := NoteFlush(w.clients, c))
    case Resized(frame) =>
      if |c.coalesce| > |c.stream| then w
      else w.(core := Broadcast(c, Resize(frame)),
              clients := NoteAll(w.clients, c, Resize(frame), |c.stream| - |c.coalesce|))
    case SubscribeFrom(cap, k) =>
      var (d, replay) := HubSpec.SubscribeFrom(c, cap, k);
      var clients := NoteFlush(w.clients, c);
      if d.closed || |replay.data| > |d.stream| then w.(core := d, clients := clients)
      else
        var base := |d.stream| - |replay.data|;
        World(d, w.gone, clients[d.nextID := History([], replay.data, base, base, 0, 0, false, 0)])
    case Subscribe(cap, replay) =>
      if c.closed || |c.coalesce| > |c.stream| then w
      else
        var d := HubSpec.Subscribe(c, cap, replay);
        var base := |c.stream| - |c.coalesce|;
        World(d, w.gone, w.clients[d.nextID := History([], [], base, base, Total(NewSub(c, cap, replay).queue), 0, false, 0)])
    case Receive(id) =>
      if id in w.clients && HasSub(w, id) && SubOf(w, id).queue != [] then
        var s := SubOf(w, id);
        WithSub(w, id, s.(queue := s.queue[1..])).(
          clients := w.clients[id := w.clients[id].(got := w.clients[id].got + [s.queue[0]])])
      else w
    case UnsubSwap(id) =>
      if id in w.clients && id in c.subs && !c.subs[id].closed then
        w.(core := c.(subs := c.subs[id := c.subs[id].(closed := true)]),
           clients := w.clients[id := w.clients[id].(left := true)])
      else w
    case UnsubLock(id) =>
      if id in c.subs && c.subs[id].closed then
        w.(core := c.(subs := c.subs - {id}), gone := w.gone[id := c.subs[id]])
      else w
    case Close =>
      if c.closed then w
      else
        World(HubSpec.Close(c), w.gone + Dismissed(c), NoteFlush(w.clients, c))
  }

  predicate HasSub(w: World, id: nat) {
    id in w.core.subs || id in w.gone
  }

  function SubOf(w: World, id: nat): Sub
    requires HasSub(w, id)
  {
    if id in w.core.subs then w.core.subs[id] else w.gone[id]
  }

  function WithSub(w: World, id: nat, s: Sub): World {
    if id in w.core.subs then w.(core := w.core.(subs := w.core.subs[id := s])) else w.(gone := w.gone[id := s])
  }

  function Run(w: World, steps: seq<Step>): World
    decreases |steps|
  {
    if steps == [] then w else Run(Next(w, steps[0]), steps[1..])
  }

  // ---- what a reader has been given ----

  /** The bytes of data frames, starting over at each marker; `prefix` until the first. */
  function Seen(fs: seq<Frame>, prefix: Bytes): Bytes {
    if fs == [] then prefix
    else After(Seen(fs[..|fs| - 1], prefix), fs[|fs| - 1])
  }

  function After(seen: Bytes, f: Frame): Bytes {
    match f
    case Marker(_) => []
    case Data(bytes) => seen + bytes
    case _ => seen
  }

  predicate NoMarker(fs: seq<Frame>) {
    forall f :: f in fs ==> !f.Marker?
  }

  function DataOf(fs: seq<Frame>): Bytes {
    if fs == [] then [] else DataOf(fs[..|fs| - 1]) + (if fs[|fs| - 1].Data? then fs[|fs| - 1].bytes else [])
  }

  /** Unless a loss is yet to be reported, what the reader has and will have is the stream from `base` up to what is unflushed. */
  predicate Follows(h: History, s: Sub, stream: Bytes, coalesce: Bytes) {
    !s.needMarker ==>
      && h.base <= |stream|
      && var seen := Seen(h.got + s.queue, h.prefix);
         if h.left then seen <= stream[h.base..] else seen + coalesce == stream[h.base..]
  }

  /** A loss cannot be overlooked: until a marker is due, queued or received, `base` is where the reader began. */
  predicate Told(h: History, s: Sub) {
    !s.needMarker && NoMarker(h.got + s.queue) ==> h.base == h.origin
  }

  predicate Balanced(h: History, s: Sub) {
    h.enqueued == Total(h.got) + Total(s.queue) + h.marked + s.dropped
  }

  predicate Good(h: History, s: Sub, stream: Bytes, coalesce: Bytes) {
    s.Valid() && Follows(h, s, stream, coalesce) && Told(h, s) && Balanced(h, s) && (h.left ==> s.closed)
  }

  /** A subscriber in the hub: if it is marked closed, its unsubscribe is under way. */
  predicate Listed(h: History, s: Sub, stream: Bytes, coalesce: Bytes) {
    Good(h, s, stream, coalesce) && (s.closed ==> h.left)
  }

  /** A subscriber no longer in an open hub was unsubscribed. */
  predicate Departed(h: History, s: Sub, stream: Bytes, coalesce: Bytes, closed: bool) {
    Good(h, s, stream, coalesce) && (closed || h.left)
  }

  ghost predicate Linked(w: World) {
    && w.core.Linked()
    && w.core.subs.Keys !! w.gone.Keys
    && w.clients.Keys == w.core.subs.Keys + w.gone.Keys
    && (forall id :: id in w.clients ==> id <= w.core.nextID)
    && (forall id :: id in w.core.subs ==>
          Listed(w.clients[id], w.core.subs[id], w.core.stream, w.core.coalesce))
    && (forall id :: id in w.gone ==>
          Departed(w.clients[id], w.gone[id], w.core.stream, w.core.coalesce, w.core.closed))
  }

  ghost predicate Inv(w: World) {
    w.core.Valid() && Linked(w)
  }

  // ---- one subscriber, one event ----

  lemma SeenAppend(fs: seq<Frame>, f: Frame, prefix: Bytes)
    ensures Seen(fs + [f], prefix) == After(Seen(fs, prefix), f)
  {
    assert (fs + [f])[..|fs|] == fs;
  }

  lemma NoMarkerAppend(fs: seq<Frame>, f: Frame)
    ensures NoMarker(fs + [f]) <==> NoMarker(fs) && !f.Marker?
  {
    assert f in fs + [f] && forall g :: g in fs ==> g in fs + [f];
  }

  /** More output: nothing sent yet, so it only waits to be flushed. */
  lemma GoodAppend(h: History, s: Sub, stream: Bytes, coalesce: Bytes, out: Bytes)
    requires Good(h, s, stream, coalesce)
    ensures Good(h, s, stream + out, coalesce + out)
  {
    if !s.needMarker {
      hide Seen;
      var seen := Seen(h.got + s.queue, h.prefix);
      assert (stream + out)[h.base..] == stream[h.base..] + out;
      assert !h.left ==> seen + (coalesce + out) == seen + coalesce + out;
    }
  }

  /** What a sent frame leaves unflushed: itself nothing, when it is the coalesced data. */
  predicate Flushes(f: Frame, before: Bytes, after: Bytes) {
    (f == Data(before) && after == []) || (f.Resize? && after == before)
  }

  lemma GoodSend(h: History, s: Sub, f: Frame, snapshot: Bytes, stream: Bytes, before: Bytes, after: Bytes)
    requires Good(h, s, stream, before) && f.Size() > 0 && Flushes(f, before, after)
    requires !s.closed && !s.needMarker
    ensures Good(Note(h, s, f, snapshot, 0), Enqueue(s, f, snapshot), stream, after)
  {
    hide Seen, Send, Total;
    var k := SendTracked(s, f);
    var t := Send(s, f, true, true);
    assert s.queue == s.queue[..k] + s.queue[k..];
    TotalConcat(s.queue[..k], s.queue[k..]);
    TotalConcat(s.queue[k..], [f]);
    TotalOne(f);
    if k == 0 {
      assert s.queue[0..] == s.queue;
      var fs := h.got + s.queue;
      assert h.got + t.queue == fs + [f];
      SeenAppend(fs, f, h.prefix);
      NoMarkerAppend(fs, f);
      var seen := Seen(fs, h.prefix);
      assert f.Data? ==> (seen + before) + [] == seen + before;
    }
  }

  lemma GoodRecover(h: History, s: Sub, f: Frame, snapshot: Bytes, stream: Bytes, before: Bytes, after: Bytes)
    requires Good(h, s, stream, before) && f.Size() > 0 && Flushes(f, before, after)
    requires !s.closed && s.needMarker
    requires |before| <= |stream| && stream[|stream| - |before|..] == before
    ensures Good(Note(h, s, f, snapshot, |stream| - |before|), Enqueue(s, f, snapshot), stream, after)
  {
    hide Enqueue, Recovery, Total, Frame.Size, NoMarker, Seen;
    EnqueueMarks(s, f, snapshot);
    var lost := s.dropped + Total(s.queue);
    RecoveryMarks(h.got, lost, snapshot, f);
    RecoveryFollows(h.got, lost, h.prefix, f, snapshot, stream, before, after);
  }

  lemma RecoveryMarks(got: seq<Frame>, lost: nat, snapshot: Bytes, f: Frame)
    ensures !NoMarker(got + Recovery(lost, snapshot, f))
  {
    var fs := got + Recovery(lost, snapshot, f);
    assert fs[|got|] == Marker(lost);
  }

  lemma RecoveryFollows(got: seq<Frame>, lost: nat, prefix: Bytes, f: Frame, snapshot: Bytes,
                        stream: Bytes, before: Bytes, after: Bytes)
    requires Flushes(f, before, after)
    requires |before| <= |stream| && stream[|stream| - |before|..] == before
    ensures Seen(got + Recovery(lost, snapshot, f), prefix) + after == stream[|stream| - |before|..]
  {
    hide Seen, Recovery;
    SeenRecovery(got, lost, snapshot, f, prefix);
    assert [] + before == before && before + [] == before;
  }

  lemma SeenRecovery(got: seq<Frame>, lost: nat, snapshot: Bytes, f: Frame, prefix: Bytes)
    requires f.Data? || f.Resize?
    ensures Seen(got + Recovery(lost, snapshot, f), prefix) == if f.Data? then f.bytes else []
  {
    hide Seen;
    var m, c := Marker(lost), Catchup(snapshot);
    SeenAppend(got, m, prefix);
    SeenAppend(got + [m], c, prefix);
    SeenAppend(got + [m], f, prefix);
    SeenAppend(got + [m] + [c], f, prefix);
    assert got + Recovery(lost, snapshot, f) == if snapshot == [] then got + [m] + [f] else got + [m] + [c] + [f];
    assert f.Data? ==> [] + f.bytes == f.bytes;
  }

  lemma GoodReceive(h: History, s: Sub, stream: Bytes, coalesce: Bytes)
    requires Good(h, s, stream, coalesce) && s.queue != []
    ensures Good(h.(got := h.got + [s.queue[0]]), s.(queue := s.queue[1..]), stream, coalesce)
  {
    var f := s.queue[0];
    assert h.got + [f] + s.queue[1..] == h.got + s.queue;
    TotalConcat(h.got, [f]);
    TotalOne(f);
  }

  /** A subscriber that has left only keeps what it has. */
  lemma GoodLeft(h: History, s: Sub, stream: Bytes, before: Bytes, after: Bytes)
    requires Good(h, s, stream, before) && s.closed
    ensures Good(h.(left := true), s, stream, after)
  {
    var seen := Seen(h.got + s.queue, h.prefix);
    assert !s.needMarker ==> seen <= seen + before;
  }

  /** A broadcast frame, whatever state the subscriber is in. */
  lemma ListedNote(h: History, s: Sub, f: Frame, snapshot: Bytes, stream: Bytes, before: Bytes, after: Bytes)
    requires Listed(h, s, stream, before) && f.Size() > 0 && Flushes(f, before, after)
    requires |before| <= |stream| && stream[|stream| - |before|..] == before
    ensures Listed(Note(h, s, f, snapshot, |stream| - |before|), Enqueue(s, f, snapshot), stream, after)
  {
    EnqueueKeepsValid(s, f, snapshot);
    hide Good, Enqueue, Flushes, Frame.Size;
    if s.closed {
      GoodLeft(h, s, stream, before, after);
      ClosedNote(h, s, f, snapshot, |stream| - |before|);
    } else if s.needMarker {
      GoodRecover(h, s, f, snapshot, stream, before, after);
    } else {
      GoodSend(h, s, f, snapshot, stream, before, after);
      NoteIgnoresStart(h, s, f, snapshot, |stream| - |before|);
    }
  }

  /** In an open hub those who have departed do not care what is flushed. */
  lemma DepartedStays(h: History, s: Sub, stream: Bytes, before: Bytes, after: Bytes)
    requires Departed(h, s, stream, before, false)
    ensures Departed(h, s, stream, after, false)
  {
    GoodLeft(h, s, stream, before, after);
    assert h.(left := true) == h;
  }

  lemma ClosedNote(h: History, s: Sub, f: Frame, snapshot: Bytes, start: nat)
    requires s.closed
    ensures Note(h, s, f, snapshot, start) == h && Enqueue(s, f, snapshot) == s
  {}

  lemma NoteIgnoresStart(h: History, s: Sub, f: Frame, snapshot: Bytes, start: nat)
    requires !s.closed && !s.needMarker
    ensures Note(h, s, f, snapshot, start) == Note(h, s, f, snapshot, 0)
  {}

  // ---- every step keeps the invariant ----

  lemma LinkedBroadcast(w: World, f: Frame, after: Bytes)
    requires Linked(w) && !w.core.closed && f.Size() > 0 && Flushes(f, w.core.coalesce, after)
    ensures var c := w.core;
            Linked(World(Broadcast(c.(coalesce := after), f), w.gone, NoteAll(w.clients, c, f, |c.stream| - |c.coalesce|)))
  {
    hide Listed, Departed, Note, Enqueue, Frame.Size, LastN, Flushes;
    var c := w.core;
    forall id | id in c.subs
      ensures Listed(Note(w.clients[id], c.subs[id], f, c.Snapshot(), |c.stream| - |c.coalesce|),
                     Enqueue(c.subs[id], f, c.Snapshot()), c.stream, after)
    {
      ListedNote(w.clients[id], c.subs[id], f, c.Snapshot(), c.stream, c.coalesce, after);
    }
    forall id | id in w.gone
      ensures Departed(w.clients[id], w.gone[id], c.stream, after, false)
    {
      DepartedStays(w.clients[id], w.gone[id], c.stream, c.coalesce, after);
    }
    SuffixStays(c.stream, c.coalesce, f, after);
  }

  lemma SuffixStays(stream: Bytes, before: Bytes, f: Frame, after: Bytes)
    requires |before| <= |stream| && stream[|stream| - |before|..] == before && Flushes(f, before, after)
    ensures |after| <= |stream| && stream[|stream| - |after|..] == after
  {}

  lemma InvFlush(w: World)
    requires Linked(w)
    ensures Inv(World(Flush(w.core), w.gone, NoteFlush(w.clients, w.core)))
  {
    hide Linked, Flush, NoteFlush, NoteAll, Broadcast, Core.Snapshot, Flushes, Core.Valid, Core.Linked, Inv, Frame.Size;
    var w' := w.(core := w.core.(timer := false));
    LinkedTimer(w);
    FlushEmpties(w.core);
    FlushParts(w);
    FlushesAll(w.core.coalesce);
    OpenIfUnflushed(w);
    if w.core.coalesce != [] { LinkedBroadcast(w', Data(w.core.coalesce), []); }
    NothingLeft(World(Flush(w.core), w.gone, NoteFlush(w.clients, w.core)));
  }

  lemma NothingLeft(w: World)
    requires Linked(w) && w.core.coalesce == []
    ensures Inv(w)
  {
    hide Listed, Departed;
  }

  lemma FlushParts(w: World)
    requires Linked(w)
    ensures var c, d := w.core, w.core.(timer := false);
            if c.coalesce == [] then Flush(c) == d && NoteFlush(w.clients, c) == w.clients
            else
              && Flush(c) == Broadcast(d.(coalesce := []), Data(c.coalesce))
              && NoteFlush(w.clients, c) == NoteAll(w.clients, d, Data(c.coalesce), |d.stream| - |d.coalesce|)
  {
    hide Listed, Departed, LastN, Note, Enqueue;
  }

  lemma FlushesAll(bytes: Bytes)
    ensures Flushes(Data(bytes), bytes, []) && (bytes != [] ==> Data(bytes).Size() > 0)
  {}

  lemma OpenIfUnflushed(w: World)
    requires Linked(w)
    ensures w.core.coalesce != [] ==> !w.core.closed
  {
    hide Listed, Departed;
  }

  lemma LinkedTimer(w: World)
    requires Linked(w)
    ensures Linked(w.(core := w.core.(timer := false)))
  {
    hide Listed, Departed, LastN;
  }

  lemma LinkedAppend(w: World, out: Bytes, kitty: Kitty.State)
    requires Linked(w) && !w.core.closed
    ensures Linked(w.(core := Appended(w.core, out).(kitty := kitty)))
  {
    hide Listed, Departed, LastN;
    var c := w.core;
    forall id | id in c.subs
      ensures Listed(w.clients[id], c.subs[id], c.stream + out, c.coalesce + out)
    {
      ListedAppend(w.clients[id], c.subs[id], c.stream, c.coalesce, out);
    }
    forall id | id in w.gone
      ensures Departed(w.clients[id], w.gone[id], c.stream + out, c.coalesce + out, false)
    {
      ListedAppend(w.clients[id], w.gone[id], c.stream, c.coalesce, out);
    }
    SuffixGrows(c.stream, c.coalesce, out);
  }

  lemma ListedAppend(h: History, s: Sub, stream: Bytes, coalesce: Bytes, out: Bytes)
    ensures Listed(h, s, stream, coalesce) ==> Listed(h, s, stream + out, coalesce + out)
    ensures Departed(h, s, stream, coalesce, false) ==> Departed(h, s, stream + out, coalesce + out, false)
  {
    hide Good;
    if Good(h, s, stream, coalesce) { GoodAppend(h, s, stream, coalesce, out); }
  }

  lemma SuffixGrows(stream: Bytes, coalesce: Bytes, out: Bytes)
    requires |coalesce| <= |stream| && stream[|stream| - |coalesce|..] == coalesce
    ensures (stream + out)[|stream + out| - |coalesce + out|..] == coalesce + out
  {}

  lemma InvWrite(w: World, p: Bytes)
    requires Inv(w)
    ensures Inv(Next(w, Write(p)))
  {
    hide Listed, Departed, Flush, Kitty.Write, Kitty.Render, NoteFlush;
    var c := w.core;
    if p != [] && !c.closed {
      var r := Kitty.Write(c.kitty, p);
      var out := Kitty.Render(r.pieces);
      LinkedAppend(w, out, r.state);
      hide Linked;
      if out != [] && |c.coalesce + out| >= COALESCE_FLUSH_BYTES {
        WriteFlushes(w, p);
        hide Next, Inv;
        InvFlush(w.(core := Appended(c, out).(kitty := r.state)));
      } else {
        WriteWaits(w, p);
        hide Next;
        TimedIsValid(w, out, r.state);
      }
    }
  }

  /** A write that does not only sets the timer, if it puts out anything. */
  lemma WriteWaits(w: World, p: Bytes)
    requires p != [] && !w.core.closed
    requires var out := Kitty.Render(Kitty.Write(w.core.kitty, p).pieces); out == [] || |w.core.coalesce + out| < COALESCE_FLUSH_BYTES
    ensures var r := Kitty.Write(w.core.kitty, p);
            var out := Kitty.Render(r.pieces);
            Next(w, Write(p)) == w.(core := Timed(w.core, out, r.state))
  {
    hide Flush, Kitty.Write, Kitty.Render, NoteFlush;
    var c, out := w.core, Kitty.Render(Kitty.Write(w.core.kitty, p).pieces);
    assert out == [] ==> c.stream + out == c.stream && c.coalesce + out == c.coalesce;
  }

  function Timed(c: Core, out: Bytes, kitty: Kitty.State): Core {
    Appended(c, out).(kitty := kitty, timer := c.timer || out != [])
  }

  lemma TimedIsValid(w: World, out: Bytes, kitty: Kitty.State)
    requires Inv(w) && Linked(w.(core := Appended(w.core, out).(kitty := kitty)))
    requires out == [] || |w.core.coalesce + out| < COALESCE_FLUSH_BYTES
    ensures Inv(w.(core := Timed(w.core, out, kitty)))
  {
    hide Listed, Departed, LastN;
    assert out == [] ==> w.core.coalesce + out == w.core.coalesce;
  }

  /** A write that fills the buffer is an append and a flush. */
  lemma WriteFlushes(w: World, p: Bytes)
    requires p != [] && !w.core.closed
    requires var out := Kitty.Render(Kitty.Write(w.core.kitty, p).pieces); out != [] && |w.core.coalesce + out| >= COALESCE_FLUSH_BYTES
    ensures var r := Kitty.Write(w.core.kitty, p);
            var d := Appended(w.core, Kitty.Render(r.pieces)).(kitty := r.state);
            Next(w, Write(p)) == World(Flush(d), w.gone, NoteFlush(w.clients, d))
  {
    hide Flush, Kitty.Write, Kitty.Render, NoteFlush;
    var c, r := w.core, Kitty.Write(w.core.kitty, p);
    var d := Appended(c, Kitty.Render(r.pieces)).(kitty := r.state);
    assert |d.stream| > |c.stream|;
    TimerAndKitty(c, d, w.clients, Kitty.Render(r.pieces));
  }

  /** A flush does not look at the timer or the transcoder. */
  lemma TimerAndKitty(c: Core, d: Core, clients: map<nat, History>, out: Bytes)
    requires d == Appended(c, out).(kitty := d.kitty)
    ensures Flush(d) == Flush(d.(timer := c.timer))
    ensures NoteFlush(clients, d) == NoteFlush(clients, Appended(c, out))
  {
    hide Note, Enqueue, LastN;
  }

  lemma InvResized(w: World, frame: Bytes)
    requires Inv(w)
    ensures Inv(Next(w, Resized(frame)))
  {
    hide Listed, Departed, Note, Enqueue, LastN;
    var c, f := w.core, Resize(frame);
    if !c.closed && f.Size() > 0 {
      LinkedBroadcast(w, f, c.coalesce);
      assert c.(coalesce := c.coalesce) == c;
    }
  }

  lemma GoodNew(s: Sub, prefix: Bytes, base: nat, stream: Bytes, coalesce: Bytes)
    requires s.Valid() && !s.closed && !s.needMarker && s.dropped == 0
    requires forall f :: f in s.queue ==> f.Catchup?
    requires base <= |stream| && prefix + coalesce == stream[base..]
    ensures Listed(History([], prefix, base, base, Total(s.queue), 0, false, 0), s, stream, coalesce)
  {
    assert [] + s.queue == s.queue;
    SeenCatchup(s.queue, prefix);
  }

  lemma {:induction false} SeenCatchup(fs: seq<Frame>, prefix: Bytes)
    requires forall f :: f in fs ==> f.Catchup?
    ensures Seen(fs, prefix) == prefix
    decreases |fs|
  {
    if fs != [] {
      var n := |fs| - 1;
      assert fs[n] in fs && forall f :: f in fs[..n] ==> f in fs;
      SeenCatchup(fs[..n], prefix);
    }
  }

  lemma LinkedNew(w: World, s: Sub, h: History)
    requires Linked(w) && !w.core.closed && Listed(h, s, w.core.stream, w.core.coalesce)
    ensures var id := w.core.nextID + 1;
            Linked(World(w.core.(nextID := id, subs := w.core.subs[id := s]), w.gone, w.clients[id := h]))
  {
    hide Listed, Departed;
  }

  lemma InvSubscribeFrom(w: World, cap: int, k: nat)
    requires Inv(w)
    ensures Inv(Next(w, SubscribeFrom(cap, k)))
  {
    hide Listed, Departed, Flush, NoteFlush, ReplaySince;
    InvFlush(w);
    FlushEmpties(w.core);
    var d := Flush(w.core);
    var w' := World(d, w.gone, NoteFlush(w.clients, w.core));
    ReplayIsSuffix(d, k);
    var data := ReplaySince(d, k).data;
    if !d.closed {
      var base := |d.stream| - |data|;
      assert data + [] == data;
      GoodNew(Fresh(cap), data, base, d.stream, []);
      LinkedNew(w', Fresh(cap), History([], data, base, base, 0, 0, false, 0));
    }
  }

  lemma FlushEmpties(c: Core)
    ensures Flush(c).coalesce == [] && Flush(c).stream == c.stream && Flush(c).closed == c.closed
    ensures Flush(c).subs.Keys == c.subs.Keys && Flush(c).nextID == c.nextID
  {
    hide Enqueue, LastN;
  }

  lemma InvSubscribe(w: World, cap: int, replay: bool)
    requires Inv(w)
    ensures Inv(Next(w, Subscribe(cap, replay)))
  {
    hide Listed, Departed, NewSub, Total, LastN, Sub.Valid;
    var c := w.core;
    if !c.closed {
      var s := NewSub(c, cap, replay);
      NewSubIsValid(c, cap, replay);
      NewSubIsFresh(c, cap, replay);
      var base := |c.stream| - |c.coalesce|;
      assert [] + c.coalesce == c.coalesce;
      GoodNew(s, [], base, c.stream, c.coalesce);
      LinkedNew(w, s, History([], [], base, base, Total(s.queue), 0, false, 0));
    }
  }

  lemma NewSubIsFresh(c: Core, cap: int, replay: bool)
    ensures var s := NewSub(c, cap, replay); !s.closed && !s.needMarker && s.dropped == 0
  {}

  lemma ListedReceive(h: History, s: Sub, stream: Bytes, coalesce: Bytes, closed: bool)
    requires s.queue != []
    ensures var h', s' := h.(got := h.got + [s.queue[0]]), s.(queue := s.queue[1..]);
            && (Listed(h, s, stream, coalesce) ==> Listed(h', s', stream, coalesce))
            && (Departed(h, s, stream, coalesce, closed) ==> Departed(h', s', stream, coalesce, closed))
  {
    if Good(h, s, stream, coalesce) { GoodReceive(h, s, stream, coalesce); }
  }

  lemma InvReceive(w: World, id: nat)
    requires Inv(w)
    ensures Inv(Next(w, Receive(id)))
  {
    hide Listed, Departed;
    if HasSub(w, id) && SubOf(w, id).queue != [] {
      ListedReceive(w.clients[id], SubOf(w, id), w.core.stream, w.core.coalesce, w.core.closed);
    }
  }

  lemma ListedSwap(h: History, s: Sub, stream: Bytes, coalesce: Bytes)
    requires Listed(h, s, stream, coalesce)
    ensures Listed(h.(left := true), s.(closed := true), stream, coalesce)
  {
    var seen := Seen(h.got + s.queue, h.prefix);
    assert !s.needMarker ==> seen <= seen + coalesce;
  }

  lemma InvUnsubSwap(w: World, id: nat)
    requires Inv(w)
    ensures Inv(Next(w, UnsubSwap(id)))
  {
    hide Listed, Departed;
    if id in w.core.subs {
      ListedSwap(w.clients[id], w.core.subs[id], w.core.stream, w.core.coalesce);
    }
  }

  lemma ListedLeaves(h: History, s: Sub, stream: Bytes, coalesce: Bytes)
    requires Listed(h, s, stream, coalesce) && s.closed
    ensures Departed(h, s, stream, coalesce, false)
  {}

  lemma InvUnsubLock(w: World, id: nat)
    requires Inv(w)
    ensures Inv(Next(w, UnsubLock(id)))
  {
    hide Listed, Departed;
    if id in w.core.subs && w.core.subs[id].closed {
      ListedLeaves(w.clients[id], w.core.subs[id], w.core.stream, w.core.coalesce);
    }
  }

  lemma InvClose(w: World)
    requires Inv(w)
    ensures Inv(Next(w, Close))
  {
    hide Listed, Departed, Flush, NoteFlush;
    if !w.core.closed {
      InvFlush(w);
      FlushEmpties(w.core);
      var f := World(Flush(w.core), w.gone, NoteFlush(w.clients, w.core));
      hide Inv;
      CloseFlushed(f);
      assert Next(w, Close) == Shut(f);
    }
  }

  /** A hub with nothing left to flush is shut. */
  function Shut(w: World): World {
    World(w.core.(closed := true, timer := false, subs := map[]),
          w.gone + map id | id in w.core.subs :: w.core.subs[id].(closed := true), w.clients)
  }

  lemma CloseFlushed(w: World)
    requires Inv(w) && !w.core.closed && w.core.coalesce == []
    ensures Inv(Shut(w))
  {
    hide Listed, Departed;
    forall id | id in w.core.subs ensures Departed(w.clients[id], w.core.subs[id].(closed := true), w.core.stream, [], true) {
      ListedCloses(w.clients[id], w.core.subs[id], w.core.stream);
    }
    forall id | id in w.gone ensures Departed(w.clients[id], w.gone[id], w.core.stream, [], true) {
      DepartedCloses(w.clients[id], w.gone[id], w.core.stream);
    }
  }

  lemma ListedCloses(h: History, s: Sub, stream: Bytes)
    requires Listed(h, s, stream, [])
    ensures Departed(h, s.(closed := true), stream, [], true)
  {}

  lemma DepartedCloses(h: History, s: Sub, stream: Bytes)
    requires Departed(h, s, stream, [], false)
    ensures Departed(h, s, stream, [], true)
  {}

  lemma NextKeepsInv(w: World, step: Step)
    requires Inv(w)
    ensures Inv(Next(w, step))
  {
    hide Inv, Next;
    match step {
      case Write(p) => InvWrite(w, p);
      case Tick => InvTick(w);
      case Resized(frame) => InvResized(w, frame);
      case SubscribeFrom(cap, k) => InvSubscribeFrom(w, cap, k);
      case Subscribe(cap, replay) => InvSubscribe(w, cap, replay);
      case Receive(id) => InvReceive(w, id);
      case UnsubSwap(id) => InvUnsubSwap(w, id);
      case UnsubLock(id) => InvUnsubLock(w, id);
      case Close => InvClose(w);
    }
  }

  lemma InvTick(w: World)
    requires Inv(w)
    ensures Inv(Next(w, Tick))
  {
    hide Listed, Departed, Flush, NoteFlush;
    InvFlush(w);
  }

  lemma {:induction false} RunKeepsInv(w: World, steps: seq<Step>)
    requires Inv(w)
    ensures Inv(Run(w, steps))
    decreases |steps|
  {
    hide Inv, Next;
    if steps != [] {
      NextKeepsInv(w, steps[0]);
      RunKeepsInv(Next(w, steps[0]), steps[1..]);
    }
  }

  // ---- what that means for a reader ----

  lemma {:induction false} SeenWithoutMarker(fs: seq<Frame>, prefix: Bytes)
    requires NoMarker(fs)
    ensures Seen(fs, prefix) == prefix + DataOf(fs)
    decreases |fs|
  {
    if fs != [] {
      var n := |fs| - 1;
      var rest, f := fs[..n], fs[n];
      assert fs == rest + [f];
      NoMarkerAppend(rest, f);
      SeenWithoutMarker(rest, prefix);
      SeenAppend(rest, f, prefix);
      DataOfStep(fs);
      hide Seen, DataOf, NoMarker;
      assert f.Data? ==> prefix + DataOf(rest) + f.bytes == prefix + (DataOf(rest) + f.bytes);
      assert prefix + DataOf(rest) + [] == prefix + DataOf(rest);
    } else {
      assert prefix + [] == prefix;
    }
  }

  lemma {:induction false} DataOfConcat(a: seq<Frame>, b: seq<Frame>)
    ensures DataOf(a + b) == DataOf(a) + DataOf(b)
  {
    if b == [] {
      assert a + b == a;
    } else {
      DataOfConcat(a, b[..|b| - 1]);
      assert (a + b)[..|a + b| - 1] == a + b[..|b| - 1];
      DataOfStep(a + b);
      DataOfStep(b);
    }
  }

  lemma DataOfStep(fs: seq<Frame>)
    requires fs != []
    ensures var f := fs[|fs| - 1];
            DataOf(fs) == DataOf(fs[..|fs| - 1]) + if f.Data? then f.bytes else []
  {}

  /**
   Exact resume, in every run: as long as a reader has been told of no loss and none is due, its replay,
   the data frames it took, those queued for it and the bytes not yet flushed are the stream from where it
   began; once it has unsubscribed, what it has is still a piece of the stream from there without holes.
   */
  lemma ExactResume(ringSize: nat, steps: seq<Step>, id: nat)
    requires var w := Run(Start(ringSize), steps);
             id in w.clients && HasSub(w, id)
             && !SubOf(w, id).needMarker && NoMarker(w.clients[id].got + SubOf(w, id).queue)
    ensures var w := Run(Start(ringSize), steps);
            var h, q := w.clients[id], SubOf(w, id).queue;
            && h.origin <= |w.core.stream|
            && if h.left then h.prefix + DataOf(h.got) + DataOf(q) <= w.core.stream[h.origin..]
               else h.prefix + DataOf(h.got) + DataOf(q) + w.core.coalesce == w.core.stream[h.origin..]
  {
    hide Run;
    RunKeepsInv(Start(ringSize), steps);
    var w := Run(Start(ringSize), steps);
    var h, s := w.clients[id], SubOf(w, id);
    assert Good(h, s, w.core.stream, w.core.coalesce);
    hide Inv;
    GoodResumes(h, s, w.core.stream, w.core.coalesce);
  }

  lemma GoodResumes(h: History, s: Sub, stream: Bytes, coalesce: Bytes)
    requires Good(h, s, stream, coalesce) && !s.needMarker && NoMarker(h.got + s.queue)
    ensures h.origin <= |stream|
    ensures if h.left then h.prefix + DataOf(h.got) + DataOf(s.queue) <= stream[h.origin..]
            else h.prefix + DataOf(h.got) + DataOf(s.queue) + coalesce == stream[h.origin..]
  {
    SeenWithoutMarker(h.got + s.queue, h.prefix);
    DataOfConcat(h.got, s.queue);
    hide Seen, DataOf, Sub.Valid, Balanced;
    assert h.prefix + (DataOf(h.got) + DataOf(s.queue)) == h.prefix + DataOf(h.got) + DataOf(s.queue);
  }

  /** A subscription from `k` begins at `k` with the bytes since, if the ring still has them, and else with all the ring has. */
  lemma SubscribeFromBegins(w: World, cap: int, k: nat)
    requires Inv(w) && !w.core.closed
    ensures var w' := Next(w, SubscribeFrom(cap, k));
            var id := w.core.nextID + 1;
            && id in w'.clients && w'.core.stream == w.core.stream
            && var h := w'.clients[id];
               && h.got == [] && h.base == h.origin && h.origin <= |w.core.stream|
               && h.prefix == w.core.stream[h.origin..]
               && h.origin == if |w.core.stream| - |w.core.Snapshot()| <= k <= |w.core.stream| then k
                              else |w.core.stream| - |w.core.Snapshot()|
  {
    hide Listed, Departed, NoteFlush, Flush, LastN;
    FlushEmpties(w.core);
    FlushKeepsRing(w.core);
    ReplayIsExact(Flush(w.core), k);
    ReplayIsSuffix(Flush(w.core), k);
  }

  lemma FlushKeepsRing(c: Core)
    ensures Flush(c).ringSize == c.ringSize
  {
    hide Enqueue, LastN;
  }

  /** No byte waits without a timer to flush it, in every run. */
  lemma UnflushedHasTimer(ringSize: nat, steps: seq<Step>)
    ensures var c := Run(Start(ringSize), steps).core;
            c.coalesce != [] ==> c.timer && !c.closed && |c.coalesce| < COALESCE_FLUSH_BYTES
  {
    hide Run;
    RunKeepsInv(Start(ringSize), steps);
  }
}
