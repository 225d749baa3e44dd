/**
 The PTY hub on values: its state, what each section under its lock does to it, and the
 windows of the output it can replay.
 */
module HubSpec {
  import opened Bytes
  import opened Subscribers
  import Kitty

  const COALESCE_FLUSH_BYTES: nat := 64 * 1024

  /** `stream` is everything ever put out; the ring holds its last `ringSize` bytes. */
  datatype Core = Core(stream: Bytes, ringSize: nat, coalesce: Bytes, timer: bool,
                       subs: map<nat, Sub>, nextID: nat, closed: bool, kitty: Kitty.State) {
    function Snapshot(): Bytes {
      LastN(stream, ringSize)
    }

    /** Bytes waiting for the flush are the last ones put out; a closed hub has none. */
    predicate Linked() {
      && |coalesce| <= |stream| && stream[|stream| - |coalesce|..] == coalesce
      && (closed ==> subs == map[] && coalesce == [])
    }

    /** And they are few, and a timer is set to flush them. */
    predicate Valid() {
      Linked() && (coalesce != [] ==> timer && |coalesce| < COALESCE_FLUSH_BYTES)
    }
  }

  function NewHub(ringSize: nat): Core {
    Core([], ringSize, [], false, map[], 0, false, Kitty.State([], Kitty.IDLE))
  }

  function Broadcast(c: Core, f: Frame): Core {
    if c.closed || f.Size() == 0 then c
    else c.(subs := map id | id in c.subs :: Enqueue(c.subs[id], f, c.Snapshot()))
  }

  function Flush(c: Core): Core {
    if c.coalesce == [] then c.(timer := false)
    else Broadcast(c.(coalesce := [], timer := false), Data(c.coalesce))
  }

  /** Put bytes out: into the ring, the sequence number and the coalescing buffer. */
  function Append(c: Core, out: Bytes): Core {
    var d := c.(stream := c.stream + out, coalesce := c.coalesce + out);
    if |d.coalesce| >= COALESCE_FLUSH_BYTES then Flush(d) else d.(timer := true)
  }

  function Write(c: Core, p: Bytes): Core {
    if p == [] || c.closed then c
    else
      var w := Kitty.Write(c.kitty, p);
      var d := c.(kitty := w.state);
      var out := Kitty.Render(w.pieces);
      if out == [] then d else Append(d, out)
  }

  datatype Replay = Replay(data: Bytes, seqNo: nat, snapshot: bool)

  function ReplaySince(c: Core, k: nat): Replay {
    var snapshot, current := c.Snapshot(), |c.stream|;
    var earliest := if |snapshot| < current then current - |snapshot| else 0;
    if k < earliest || k > current then Replay(snapshot, current, true)
    else Replay(snapshot[k - earliest..], current, false)
  }

  function SubscribeFrom(c: Core, cap: int, k: nat): (Core, Replay) {
    var d := Flush(c);
    var replay := ReplaySince(d, k);
    if d.closed then (d, replay)
    else (d.(nextID := d.nextID + 1, subs := d.subs[d.nextID + 1 := Fresh(cap)]), replay)
  }

  /** A subscriber that starts with the ring in its channel, or with nothing. */
  function NewSub(c: Core, cap: int, replay: bool): Sub {
    if replay then Send(Fresh(cap), Catchup(c.Snapshot()), false, false) else Fresh(cap)
  }

  function Subscribe(c: Core, cap: int, replay: bool): Core {
    if c.closed then c
    else c.(nextID := c.nextID + 1, subs := c.subs[c.nextID + 1 := NewSub(c, cap, replay)])
  }

  function Close(c: Core): Core {
    if c.closed then c else Flush(c).(closed := true, timer := false, subs := map[])
  }

  /** The subscribers of a hub that is closed: flushed to, and closed. */
  function Dismissed(c: Core): map<nat, Sub> {
    map id | id in Flush(c).subs :: Flush(c).subs[id].(closed := true)
  }

  // ---- replay windows ----

  /** Inside the window, exactly the bytes from `k` on; outside, all the ring has, and the caller is told. */
  lemma ReplayIsExact(c: Core, k: nat)
    ensures var r := ReplaySince(c, k);
            var have := |c.Snapshot()|;
            && r.seqNo == |c.stream|
            && (r.snapshot <==> k > |c.stream| || k + have < |c.stream|)
            && (if r.snapshot then r.data == c.Snapshot() else r.data == c.stream[k..])
  {}

  /** Either way it is the end of the stream, so nothing is missing between it and what comes next. */
  lemma ReplayIsSuffix(c: Core, k: nat)
    ensures var r := ReplaySince(c, k);
            |r.data| <= |c.stream| && r.data == c.stream[|c.stream| - |r.data|..]
  {}

  lemma {:induction false} EnqueueKeepsValid(s: Sub, f: Frame, snapshot: Bytes)
    requires s.Valid() && f.Size() > 0
    ensures Enqueue(s, f, snapshot).Valid() && Enqueue(s, f, snapshot).closed == s.closed
  {
    hide Send;
    if !s.closed {
      if s.needMarker { EnqueueMarks(s, f, snapshot); } else { var _ := SendTracked(s, f); }
    }
  }

  lemma NewSubIsValid(c: Core, cap: int, replay: bool)
    ensures NewSub(c, cap, replay).Valid()
    ensures var q := NewSub(c, cap, replay).queue;
            q == if replay && c.Snapshot() != [] then [Catchup(c.Snapshot())] else []
  {
    var s, f := Fresh(cap), Catchup(c.Snapshot());
    if replay && f.Size() > 0 {
      SendUntracked(s, f);
      assert [] + [f] == [f];
    }
  }

  lemma LastNEnds(stream: Bytes, p: Bytes, n: nat)
    requires |p| <= |stream| && stream[|stream| - |p|..] == p && |p| <= n
    ensures |p| <= |LastN(stream, n)| && LastN(stream, n)[|LastN(stream, n)| - |p|..] == p
  {}

  /**
   After a loss the next flush gives a marker with every byte not received, the whole ring, and then the
   flushed data, which the ring already ends with: nothing is missing from there on, but those bytes come twice.
   */
  lemma RecoveryRepeatsFlushedBytes(c: Core, id: nat)
    requires c.Valid() && id in c.subs && c.subs[id].Valid() && !c.subs[id].closed && c.subs[id].needMarker
    requires c.coalesce != [] && |c.coalesce| <= c.ringSize
    ensures var s := c.subs[id];
            && id in Flush(c).subs
            && Flush(c).subs[id].queue
               == [Marker(s.dropped + Total(s.queue)), Catchup(c.Snapshot()), Data(c.coalesce)]
            && |c.coalesce| <= |c.Snapshot()|
            && c.Snapshot()[|c.Snapshot()| - |c.coalesce|..] == c.coalesce
  {
    hide Total, Enqueue, Flush, Sub.Valid, Core.Snapshot, Core.Valid, Frame.Size;
    SnapshotEnds(c);
    FlushReaches(c, id);
    ComesInThree(c.subs[id], c.coalesce, c.Snapshot());
  }

  lemma ComesInThree(s: Sub, data: Bytes, snapshot: Bytes)
    requires s.Valid() && !s.closed && s.needMarker && data != [] && snapshot != []
    ensures Enqueue(s, Data(data), snapshot).queue == [Marker(s.dropped + Total(s.queue)), Catchup(snapshot), Data(data)]
  {
    EnqueueMarks(s, Data(data), snapshot);
    hide Sub.Valid, Total, Enqueue;
  }

  lemma SnapshotEnds(c: Core)
    requires c.Valid() && c.coalesce != [] && |c.coalesce| <= c.ringSize
    ensures c.Snapshot() != [] && |c.coalesce| <= |c.Snapshot()| && !c.closed
    ensures c.Snapshot()[|c.Snapshot()| - |c.coalesce|..] == c.coalesce
  {
    LastNEnds(c.stream, c.coalesce, c.ringSize);
  }

  lemma FlushReaches(c: Core, id: nat)
    requires !c.closed && id in c.subs && c.coalesce != []
    ensures id in Flush(c).subs && Flush(c).subs[id] == Enqueue(c.subs[id], Data(c.coalesce), c.Snapshot())
  {
    hide Enqueue, LastN;
  }
}
