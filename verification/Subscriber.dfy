/**
 One subscriber of the PTY hub: a bounded channel that gives up its oldest frames, counts the
 bytes it gave up and later sends a marker with that count. First on values, then as the
 object whose methods the hub calls with its lock held.
 */
module Subscribers {
  import opened Bytes
  import Kitty

  const AVG_FRAME_SIZE: nat := 4 * 1024
  const MIN_SUBSCRIBER_FRAMES: nat := 4
  const DEFAULT_SUBSCRIBER_BUFFER: nat := 32 * 1024

  /** NUL ONIBI-DROPPED: */
  const DROPPED: Bytes := [0, 79, 78, 73, 66, 73, 45, 68, 82, 79, 80, 80, 69, 68, 58]

  /** A frame in the channel. The wire carries the bytes only; what a frame is for is kept for the specification. */
  datatype Frame = Data(bytes: Bytes) | Resize(bytes: Bytes) | Catchup(bytes: Bytes) | Marker(count: nat) {
    function Wire(): Bytes {
      if Marker? then DROPPED + Kitty.Decimal(count) + [0] else bytes
    }
    function Size(): nat {
      |Wire()|
    }
  }

  /** On the wire a marker says its count. */
  lemma MarkerReadsBack(n: nat) returns (digits: Bytes)
    ensures Marker(n).Wire() == [0] + Ascii("ONIBI-DROPPED:") + digits + [0]
    ensures Kitty.IsDecimal(digits) && Kitty.ReadDecimal(digits) == n
  {
    hide Kitty.Decimal, Kitty.ReadDecimal, Kitty.IsDecimal;
    digits := Kitty.Decimal(n);
    Kitty.DecimalReadsBack(n);
    assert DROPPED == [0] + Ascii("ONIBI-DROPPED:");
  }

  function Total(q: seq<Frame>): nat {
    if q == [] then 0 else q[0].Size() + Total(q[1..])
  }

  lemma TotalConcat(a: seq<Frame>, b: seq<Frame>)
    ensures Total(a + b) == Total(a) + Total(b)
  {
    if a == [] {
      assert a + b == b;
    } else {
      assert (a + b)[1..] == a[1..] + b;
      TotalConcat(a[1..], b);
    }
  }

  lemma TotalOne(f: Frame)
    ensures Total([f]) == f.Size()
  {
    assert [f][1..] == [];
  }

  datatype Sub = Sub(queue: seq<Frame>, chanCap: nat, bufBytes: int, bufCap: int,
                     dropped: nat, needMarker: bool, closed: bool) {
    predicate Valid() {
      && MIN_SUBSCRIBER_FRAMES <= chanCap && |queue| <= chanCap
      && bufCap > 0
      && Total(queue) <= bufBytes
      && (dropped > 0 ==> needMarker)
    }
  }

  function Fresh(bufCap: int): Sub {
    var cap := if bufCap <= 0 then DEFAULT_SUBSCRIBER_BUFFER else bufCap;
    var frames := cap / AVG_FRAME_SIZE;
    Sub([], if frames < MIN_SUBSCRIBER_FRAMES then MIN_SUBSCRIBER_FRAMES else frames, 0, cap, 0, false, false)
  }

  /** `dropOldestLocked` on a queue that has something to drop. */
  function DropOldest(s: Sub, track: bool): Sub
    requires s.queue != []
  {
    var n := s.queue[0].Size();
    s.(queue := s.queue[1..],
       bufBytes := if s.bufBytes < n then 0 else s.bufBytes - n,
       dropped := if track then s.dropped + n else s.dropped,
       needMarker := s.needMarker || track)
  }

  /** Drop until `n` more bytes fit. */
  function Shed(s: Sub, n: nat, track: bool): Sub
    decreases |s.queue|
  {
    if s.queue != [] && s.bufBytes + n > s.bufCap then Shed(DropOldest(s, track), n, track) else s
  }

  function ShedAll(s: Sub, track: bool): Sub
    decreases |s.queue|
  {
    if s.queue != [] then ShedAll(DropOldest(s, track), track) else s
  }

  /** Put a frame in the channel, dropping while it is full; a channel without room for one drops the frame. */
  function Push(s: Sub, f: Frame, track: bool): Sub
    decreases |s.queue|
  {
    if |s.queue| < s.chanCap then s.(queue := s.queue + [f], bufBytes := s.bufBytes + f.Size())
    else if s.queue == [] then s
    else Push(DropOldest(s, track), f, track)
  }

  /** The byte bound, before the frame is put in. */
  function MakeRoom(s: Sub, n: nat, track: bool, enforce: bool): Sub {
    var t := if s.queue == [] then s.(bufBytes := 0) else s;
    if !enforce || t.bufCap <= 0 then t
    else if n > t.bufCap then ShedAll(t, track)
    else Shed(t, n, track)
  }

  /** `sendLocked`. */
  function Send(s: Sub, f: Frame, track: bool, enforce: bool): Sub {
    if f.Size() == 0 then s else Push(MakeRoom(s, f.Size(), track, enforce), f, track)
  }

  /** `enqueueLocked`. */
  function Enqueue(s: Sub, f: Frame, snapshot: Bytes): Sub {
    if s.closed then s
    else if !s.needMarker then Send(s, f, true, true)
    else
      var lost := s.dropped + Total(s.queue);
      var cleared := s.(queue := [], bufBytes := 0, dropped := 0, needMarker := false);
      var marked := Send(cleared, Marker(lost), false, false);
      Send(Send(marked, Catchup(snapshot), false, false), f, false, false)
  }

  // ---- what sending keeps ----

  /** `t` is `s` with its oldest `k` frames given up and accounted for. */
  predicate GaveUp(s: Sub, t: Sub, k: nat) {
    && k <= |s.queue|
    && t.queue == s.queue[k..]
    && t.dropped == s.dropped + Total(s.queue[..k])
    && t.needMarker == (s.needMarker || k > 0)
    && t.chanCap == s.chanCap && t.bufCap == s.bufCap && t.closed == s.closed
    && Total(t.queue) <= t.bufBytes
  }

  lemma GaveUpNothing(s: Sub)
    requires Total(s.queue) <= s.bufBytes
    ensures GaveUp(s, s, 0)
  {
    assert s.queue[0..] == s.queue && s.queue[..0] == [];
  }

  lemma GaveUpMore(s: Sub, t: Sub, k: nat)
    requires s.queue != [] && GaveUp(DropOldest(s, true), t, k)
    ensures GaveUp(s, t, k + 1)
  {
    var q := s.queue;
    assert q[1..][k..] == q[k + 1..];
    assert q[..k + 1] == [q[0]] + q[1..][..k];
    TotalConcat([q[0]], q[1..][..k]);
    TotalOne(q[0]);
  }

  lemma {:induction false} ShedGivesUp(s: Sub, n: nat) returns (k: nat)
    requires Total(s.queue) <= s.bufBytes
    ensures GaveUp(s, Shed(s, n, true), k)
    ensures var t := Shed(s, n, true); t.queue != [] ==> t.bufBytes + n <= t.bufCap
    decreases |s.queue|
  {
    if s.queue != [] && s.bufBytes + n > s.bufCap {
      k := ShedGivesUp(DropOldest(s, true), n);
      GaveUpMore(s, Shed(s, n, true), k);
      k := k + 1;
    } else {
      GaveUpNothing(s);
      k := 0;
    }
  }

  lemma {:induction false} ShedAllGivesUp(s: Sub)
    requires Total(s.queue) <= s.bufBytes
    ensures GaveUp(s, ShedAll(s, true), |s.queue|)
    decreases |s.queue|
  {
    if s.queue != [] {
      ShedAllGivesUp(DropOldest(s, true));
      GaveUpMore(s, ShedAll(s, true), |s.queue| - 1);
    } else {
      GaveUpNothing(s);
    }
  }

  lemma MakeRoomGivesUp(s: Sub, n: nat) returns (k: nat)
    requires s.Valid()
    ensures GaveUp(s, MakeRoom(s, n, true, true), k)
    ensures var t := MakeRoom(s, n, true, true); t.queue != [] ==> Total(t.queue) + n <= t.bufCap
  {
    hide GaveUp;
    var t := if s.queue == [] then s.(bufBytes := 0) else s;
    if n > t.bufCap {
      ShedAllGivesUp(t);
      k := |s.queue|;
    } else {
      k := ShedGivesUp(t, n);
    }
    SameQueue(s, t, MakeRoom(s, n, true, true), k);
  }

  lemma SameQueue(s: Sub, t: Sub, r: Sub, k: nat)
    requires t == s.(bufBytes := t.bufBytes) && GaveUp(t, r, k)
    ensures GaveUp(s, r, k) && Total(r.queue) <= r.bufBytes
  {}

  /**
   A tracked send: some oldest frames are given up and counted, the frame is last, and the
   queue keeps within its byte bound unless the frame alone exceeds it.
   */
  lemma SendTracked(s: Sub, f: Frame) returns (k: nat)
    requires s.Valid() && f.Size() > 0
    ensures var t := Send(s, f, true, true);
            && k <= |s.queue|
            && t.queue == s.queue[k..] + [f]
            && t.dropped == s.dropped + Total(s.queue[..k])
            && t.needMarker == (s.needMarker || k > 0)
            && t.Valid() && t.bufCap == s.bufCap && t.closed == s.closed
            && Total(t.queue) <= (if f.Size() > t.bufCap then f.Size() else t.bufCap)
  {
    hide MakeRoom, Push, GaveUp;
    k := MakeRoomGivesUp(s, f.Size());
    var r := MakeRoom(s, f.Size(), true, true);
    GaveUpBounds(s, r, k);
    var j := PushTracked(r, f);
    assert r.queue[0..] == r.queue;
    GaveUpParts(s, r, k);
    if j == 1 {
      assert k == 0 && r.queue == s.queue;
      k := 1;
    } else {
      assert r.queue[..0] == [];
    }
  }

  /** With `k` frames given up the new one has room, in bytes and in frames, as the subscriber counts them. */
  predicate HasRoom(s: Sub, f: Frame, k: nat)
    requires k <= |s.queue|
  {
    k == |s.queue| || (s.bufBytes - Total(s.queue[..k]) + f.Size() <= s.bufCap && |s.queue| - k < s.chanCap)
  }

  lemma {:induction false} ShedStops(s: Sub, n: nat) returns (k: nat)
    requires Total(s.queue) <= s.bufBytes
    ensures k <= |s.queue|
    ensures var t := Shed(s, n, true);
            && t.queue == s.queue[k..] && t.bufBytes == s.bufBytes - Total(s.queue[..k])
            && (k == |s.queue| || t.bufBytes + n <= s.bufCap)
    ensures forall j :: 0 <= j < k ==> s.bufBytes - Total(s.queue[..j]) + n > s.bufCap
    decreases |s.queue|
  {
    var q := s.queue;
    assert q[0..] == q && q[..0] == [];
    k := 0;
    if q != [] && s.bufBytes + n > s.bufCap {
      var r := DropOldest(s, true);
      var m := ShedStops(r, n);
      k := m + 1;
      hide Shed;
      assert q[1..][m..] == q[k..];
      OneMore(q, m);
      forall j | 0 <= j < k ensures s.bufBytes - Total(q[..j]) + n > s.bufCap {
        if j > 0 { OneMore(q, j - 1); assert r.bufBytes - Total(q[1..][..j - 1]) + n > s.bufCap; }
      }
    }
  }

  lemma OneMore(q: seq<Frame>, j: nat)
    requires q != [] && j <= |q| - 1
    ensures Total(q[..j + 1]) == q[0].Size() + Total(q[1..][..j])
  {
    assert q[..j + 1][1..] == q[1..][..j];
  }

  lemma {:induction false} TotalGrows(q: seq<Frame>, j: nat)
    requires j <= |q|
    ensures Total(q[..j]) <= Total(q)
  {
    assert q == q[..j] + q[j..];
    TotalConcat(q[..j], q[j..]);
  }

  lemma {:induction false} ShedAllEmpties(s: Sub)
    ensures ShedAll(s, true).queue == [] && ShedAll(s, true).chanCap == s.chanCap
    decreases |s.queue|
  {
    if s.queue != [] { ShedAllEmpties(DropOldest(s, true)); }
  }

  /** A tracked send gives up no more than it must: the least number of frames that leaves room, or all of them. */
  lemma GivesUpLeast(s: Sub, f: Frame) returns (k: nat)
    requires s.Valid() && f.Size() > 0
    ensures k <= |s.queue| && Send(s, f, true, true).queue == s.queue[k..] + [f]
    ensures HasRoom(s, f, k) && forall j :: 0 <= j < k ==> !HasRoom(s, f, j)
    ensures Send(s, f, true, true).bufBytes == (if s.queue == [] then 0 else s.bufBytes - Total(s.queue[..k])) + f.Size()
  {
    k := SendTracked(s, f);
    var m := RoomLeast(s, f);
    hide Send, HasRoom, Sub.Valid, MakeRoom;
    assert |s.queue[k..] + [f]| == |s.queue[m..] + [f]|;
  }

  lemma RoomLeast(s: Sub, f: Frame) returns (k: nat)
    requires s.Valid() && f.Size() > 0
    ensures k <= |s.queue| && Send(s, f, true, true).queue == s.queue[k..] + [f]
    ensures HasRoom(s, f, k) && forall j :: 0 <= j < k ==> !HasRoom(s, f, j)
    ensures Send(s, f, true, true).bufBytes == (if s.queue == [] then 0 else s.bufBytes - Total(s.queue[..k])) + f.Size()
  {
    var n, t := f.Size(), if s.queue == [] then s.(bufBytes := 0) else s;
    hide Shed, ShedAll, Push, Frame.Size;
    var r := MakeRoom(s, n, true, true);
    if n > t.bufCap {
      ShedAllEmpties(t);
      ShedAllCounts(t);
      k := |s.queue|;
      assert s.queue[..k] == s.queue;
      forall j | 0 <= j < k ensures !HasRoom(s, f, j) { TotalGrows(s.queue, j); }
    } else {
      k := ShedStops(t, n);
    }
    assert r.queue == s.queue[k..] && r.chanCap == s.chanCap by { ShedCaps(t, n); }
    assert s.queue == s.queue[..k] + s.queue[k..];
    TotalConcat(s.queue[..k], s.queue[k..]);
    PushOne(r, f);
    if |r.queue| == r.chanCap {
      assert k == 0;
      k := 1;
      assert r.queue[1..] == s.queue[1..] && s.queue[..1] == [s.queue[0]] && s.queue[..0] == [];
      TotalOne(s.queue[0]);
    }
  }

  lemma PushOne(r: Sub, f: Frame)
    requires |r.queue| <= r.chanCap && 1 <= r.chanCap
    requires Total(r.queue) <= r.bufBytes
    ensures Push(r, f, true).queue == (if |r.queue| == r.chanCap then r.queue[1..] else r.queue) + [f]
    ensures Push(r, f, true).bufBytes == r.bufBytes - (if |r.queue| == r.chanCap then r.queue[0].Size() else 0) + f.Size()
  {}

  lemma {:induction false} ShedAllCounts(s: Sub)
    requires Total(s.queue) <= s.bufBytes
    ensures ShedAll(s, true).bufBytes == s.bufBytes - Total(s.queue)
    decreases |s.queue|
  {
    if s.queue != [] { ShedAllCounts(DropOldest(s, true)); }
  }

  lemma {:induction false} ShedCaps(s: Sub, n: nat)
    ensures Shed(s, n, true).chanCap == s.chanCap
    decreases |s.queue|
  {
    if s.queue != [] { ShedCaps(DropOldest(s, true), n); }
  }

  /** The channel has room for as many average frames as the byte bound, four at least; the bound is 32 KiB if none is given. */
  lemma FreshRoom(cap: int)
    ensures var s := Fresh(cap);
            && s.Valid() && s.queue == [] && s.bufBytes == 0 && !s.needMarker && !s.closed
            && s.bufCap == (if cap > 0 then cap else 32768)
            && s.chanCap >= 4 && s.bufCap < (s.chanCap + 1) * 4096 && (s.chanCap > 4 ==> s.chanCap * 4096 <= s.bufCap)
  {}

  lemma GaveUpBounds(s: Sub, r: Sub, k: nat)
    requires s.Valid() && GaveUp(s, r, k)
    ensures |r.queue| <= r.chanCap && MIN_SUBSCRIBER_FRAMES <= r.chanCap && Total(r.queue) <= r.bufBytes
  {}

  lemma GaveUpParts(s: Sub, t: Sub, k: nat)
    requires GaveUp(s, t, k)
    ensures k <= |s.queue| && t.queue == s.queue[k..] && t.dropped == s.dropped + Total(s.queue[..k])
    ensures t.needMarker == (s.needMarker || k > 0)
    ensures t.chanCap == s.chanCap && t.bufCap == s.bufCap && t.closed == s.closed
    ensures k == 0 ==> t.queue == s.queue && t.dropped == s.dropped
  {
    assert s.queue[0..] == s.queue && s.queue[..0] == [];
  }

  /** The last drop, when the channel itself is full. */
  lemma PushTracked(r: Sub, f: Frame) returns (j: nat)
    requires |r.queue| <= r.chanCap && 1 <= r.chanCap && Total(r.queue) <= r.bufBytes
    ensures j == if |r.queue| == r.chanCap then 1 else 0
    ensures var t := Push(r, f, true);
            && t.queue == r.queue[j..] + [f] && |t.queue| <= t.chanCap
            && Total(t.queue) <= t.bufBytes && Total(t.queue) <= Total(r.queue) + f.Size()
            && t == r.(queue := t.queue, bufBytes := t.bufBytes, dropped := r.dropped + Total(r.queue[..j]),
                       needMarker := r.needMarker || j > 0)
  {
    var q := r.queue;
    j := if |q| == r.chanCap then 1 else 0;
    assert q == q[..j] + q[j..];
    TotalConcat(q[..j], q[j..]);
    TotalConcat(q[j..], [f]);
    TotalOne(f);
    if j == 1 {
      assert q[..1] == [q[0]];
      TotalOne(q[0]);
    }
  }

  /** An untracked send into a channel with room gives nothing up. */
  lemma SendUntracked(s: Sub, f: Frame)
    requires |s.queue| < s.chanCap && Total(s.queue) <= s.bufBytes && f.Size() > 0
    ensures var t := Send(s, f, false, false);
            t.queue == s.queue + [f] && Total(t.queue) <= t.bufBytes && t == s.(queue := t.queue, bufBytes := t.bufBytes)
  {
    TotalConcat(s.queue, [f]);
    TotalOne(f);
  }

  lemma NothingToSend(s: Sub)
    ensures Send(s, Catchup([]), false, false) == s
  {}

  function Recovery(lost: nat, snapshot: Bytes, f: Frame): seq<Frame> {
    [Marker(lost)] + (if snapshot == [] then [] else [Catchup(snapshot)]) + [f]
  }

  /** The frame after a loss: everything queued is counted as lost too, and a marker, the ring and the frame take its place. */
  lemma EnqueueMarks(s: Sub, f: Frame, snapshot: Bytes)
    requires s.Valid() && !s.closed && s.needMarker && f.Size() > 0
    ensures var t := Enqueue(s, f, snapshot);
            && t.queue == Recovery(s.dropped + Total(s.queue), snapshot, f)
            && t.dropped == 0 && !t.needMarker && t.Valid() && t.bufCap == s.bufCap && !t.closed
  {
    var cleared := s.(queue := [], bufBytes := 0, dropped := 0, needMarker := false);
    var m := Marker(s.dropped + Total(s.queue));
    SendUntracked(cleared, m);
    hide Send, Total, Frame.Size;
    var marked := Send(cleared, m, false, false);
    NothingToSend(marked);
    if snapshot != [] { SendUntracked(marked, Catchup(snapshot)); }
    SendUntracked(Send(marked, Catchup(snapshot), false, false), f);
  }

  // ---- the object ----

  class Subscriber {
    var queue: seq<Frame>
    const chanCap: nat
    var bufBytes: int
    const bufCap: int
    var dropped: nat
    var needMarker: bool
    var closed: bool

    function View(): Sub
      reads this
    {
      Sub(queue, chanCap, bufBytes, bufCap, dropped, needMarker, closed)
    }

    constructor (cap: int)
      ensures View() == Fresh(cap)
    {
      var bound := if cap <= 0 then DEFAULT_SUBSCRIBER_BUFFER else cap;
      var frames := bound / AVG_FRAME_SIZE;
      queue, bufBytes, dropped, needMarker, closed := [], 0, 0, false, false;
      chanCap := if frames < MIN_SUBSCRIBER_FRAMES then MIN_SUBSCRIBER_FRAMES else frames;
      bufCap := bound;
    }

    /** `closed.Swap(true)`; its answer decides who closes the channels. */
    method MarkClosed()
      modifies this`closed
      ensures View() == old(View()).(closed := true)
    {
      closed := true;
    }

    method DropOldestLocked(track: bool) returns (ok: bool)
      modifies this
      ensures ok == (old(queue) != [])
      ensures View() == if ok then DropOldest(old(View()), track) else old(View())
    {
      if |queue| == 0 {
        return false;
      }
      var oldest := queue[0];
      queue := queue[1..];
      bufBytes := bufBytes - oldest.Size();
      if bufBytes < 0 {
        bufBytes := 0;
      }
      if track {
        dropped := dropped + oldest.Size();
        needMarker := true;
      }
      return true;
    }

    method ClearQueuedLocked() returns (total: nat)
      modifies this
      ensures total == Total(old(queue))
      ensures View() == old(View()).(queue := [], bufBytes := 0)
    {
      total := 0;
      while |queue| > 0
        invariant total + Total(queue) == Total(old(queue))
        invariant View() == old(View()).(queue := queue)
        decreases |queue|
      {
        total := total + queue[0].Size();
        queue := queue[1..];
      }
      bufBytes := 0;
    }

    /** The first half of `sendLocked`: the byte bound. */
    method MakeRoomLocked(n: nat, track: bool, enforce: bool)
      modifies this
      ensures View() == MakeRoom(old(View()), n, track, enforce)
    {
      if |queue| == 0 {
        bufBytes := 0;
      }
      if enforce && bufCap > 0 {
        ghost var before := View();
        if n > bufCap {
          while |queue| > 0
            invariant ShedAll(View(), track) == ShedAll(before, track)
            decreases |queue|
          {
            var _ := DropOldestLocked(track);
          }
        } else {
          while bufBytes + n > bufCap && |queue| > 0
            invariant Shed(View(), n, track) == Shed(before, n, track)
            decreases |queue|
          {
            var _ := DropOldestLocked(track);
          }
        }
      }
    }

    method SendLocked(f: Frame, track: bool, enforce: bool)
      modifies this
      ensures View() == Send(old(View()), f, track, enforce)
    {
      hide MakeRoom;
      if f.Size() == 0 {
        return;
      }
      MakeRoomLocked(f.Size(), track, enforce);
      ghost var room := View();
      while |queue| >= chanCap
        invariant Push(View(), f, track) == Push(room, f, track)
        decreases |queue|
      {
        var ok := DropOldestLocked(track);
        if !ok {
          return;
        }
      }
      queue := queue + [f];
      bufBytes := bufBytes + f.Size();
    }

    method EnqueueLocked(f: Frame, snapshot: Bytes)
      modifies this
      ensures View() == Enqueue(old(View()), f, snapshot)
    {
      hide Send;
      if closed {
        return;
      }
      if needMarker {
        var queued := ClearQueuedLocked();
        var lost := dropped + queued;
        dropped := 0;
        needMarker := false;
        SendLocked(Marker(lost), false, false);
        NothingToSend(View());
        if |snapshot| > 0 {
          SendLocked(Catchup(snapshot), false, false);
        }
        SendLocked(f, false, false);
        return;
      }
      SendLocked(f, true, true);
    }
  }
}
