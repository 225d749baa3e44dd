/**
 The hub object: a ring, a transcoder, a coalescing buffer and a table of subscribers, all
 changed in place. Each method is one section under the hub's lock.
 */
module HubObject {
  import opened Bytes
  import opened Subscribers
  import opened Ring
  import HubSpec
  import Kitty
  import KittyTranscoder

  class Hub {
    var subs: map<nat, Subscriber>
    var nextID: nat
    const ring: BulkRing
    var seqNo: nat
    var coalesceBuf: Bytes
    var timer: bool
    const transcoder: KittyTranscoder.Transcoder
    var closed: bool

    ghost predicate Valid()
      reads this, ring, ring.buf
    {
      && ring.Valid()
      && seqNo == |ring.stream|
      && Distinct(subs)
    }

    /** The hub's state as a value. */
    ghost function Core(): HubSpec.Core
      reads this, ring, transcoder, subs.Values
    {
      HubSpec.Core(ring.stream, ring.buf.Length, coalesceBuf, timer, ViewsOf(subs), nextID, closed, transcoder.Current())
    }

    constructor (ringSize: int)
      ensures Valid() && Core() == HubSpec.NewHub(if ringSize <= 0 then DEFAULT_RING_SIZE else ringSize)
      ensures fresh(ring) && fresh(ring.buf) && fresh(transcoder)
    {
      ring := new BulkRing(ringSize);
      transcoder := new KittyTranscoder.Transcoder();
      subs, nextID, seqNo, coalesceBuf, timer, closed := map[], 0, 0, [], false, false;
    }

    method BroadcastLocked(f: Frame)
      requires Valid()
      modifies subs.Values
      ensures Valid() && Core() == HubSpec.Broadcast(old(Core()), f)
    {
      hide Enqueue, Frame.Size, Holds, LastN;
      if closed || f.Size() == 0 {
        return;
      }
      EnqueueAll(subs, ring, f);
    }

    method FlushLocked()
      requires Valid()
      modifies this`coalesceBuf, this`timer, subs.Values
      ensures Valid() && Core() == HubSpec.Flush(old(Core()))
    {
      hide Enqueue, Holds, LastN;
      timer := false;
      if |coalesceBuf| == 0 {
        return;
      }
      var p := coalesceBuf;
      coalesceBuf := [];
      ghost var before := Core();
      BroadcastLocked(Data(p));
    }

    method Write(p: Bytes) returns (n: nat)
      requires Valid()
      modifies this, ring, ring.buf, transcoder, subs.Values
      ensures Valid() && Core() == HubSpec.Write(old(Core()), p) && n == |p|
    {
      hide Holds, Kitty.Write, Kitty.Render, HubSpec.Append, LastN, Enqueue;
      n := |p|;
      if |p| == 0 || closed {
        return;
      }
      var out := transcoder.Write(p);
      if |out| == 0 {
        return;
      }
      Append(out);
    }

    /** Output for the ring, the sequence number and the coalescing buffer, and the flush or its timer. */
    method Append(out: Bytes)
      requires Valid()
      modifies this, ring, ring.buf, subs.Values
      ensures Valid() && Core() == HubSpec.Append(old(Core()), out)
    {
      hide Holds, LastN, Enqueue, HubSpec.Flush, Kitty.Write, Kitty.Render;
      ring.Write(out);
      seqNo := seqNo + |out|;
      coalesceBuf := coalesceBuf + out;
      assert Core() == old(Core()).(stream := ring.stream, coalesce := coalesceBuf);
      hide ViewsOf, Distinct;
      if |coalesceBuf| >= HubSpec.COALESCE_FLUSH_BYTES {
        FlushLocked();
      } else {
        timer := true;
      }
    }

    method ReplaySinceLocked(k: nat) returns (r: HubSpec.Replay)
      requires Valid()
      ensures r == HubSpec.ReplaySince(Core(), k)
    {
      hide Holds;
      var snapshot := ring.Snapshot();
      var current, earliest := seqNo, 0;
      if |snapshot| < current {
        earliest := current - |snapshot|;
      }
      if k < earliest || k > current {
        return HubSpec.Replay(snapshot, current, true);
      }
      return HubSpec.Replay(snapshot[k - earliest..], current, false);
    }

    method SubscribeFrom(cap: int, k: nat) returns (r: HubSpec.Replay, sub: Subscriber)
      requires Valid()
      modifies this, subs.Values
      ensures Valid() && fresh(sub) && sub.View() == Fresh(cap)
      ensures (Core(), r) == HubSpec.SubscribeFrom(old(Core()), cap, k)
      ensures subs == if closed then old(subs) else old(subs)[nextID := sub]
    {
      hide Enqueue, Holds, LastN, HubSpec.Flush, HubSpec.ReplaySince;
      sub := new Subscriber(cap);
      FlushLocked();
      r := ReplaySinceLocked(k);
      if closed {
        return;
      }
      Register(sub);
    }

    /** Both kinds of subscription enter the table in the same way. */
    method Register(sub: Subscriber)
      requires Valid() && sub !in subs.Values
      modifies this`subs, this`nextID
      ensures Valid() && nextID == old(nextID) + 1 && subs == old(subs)[nextID := sub]
      ensures Core() == old(Core()).(nextID := nextID, subs := old(Core()).subs[nextID := sub.View()])
    {
      hide Holds;
      ghost var views := ViewsOf(subs);
      nextID := nextID + 1;
      subs := subs[nextID := sub];
      assert ViewsOf(subs) == views[nextID := sub.View()];
    }

    method Subscribe(cap: int, replay: bool) returns (sub: Subscriber)
      requires Valid()
      modifies this
      ensures Valid() && fresh(sub) && sub.View() == HubSpec.NewSub(old(Core()), cap, replay)
      ensures Core() == HubSpec.Subscribe(old(Core()), cap, replay)
      ensures subs == if closed then old(subs) else old(subs)[nextID := sub]
    {
      hide Holds, HubSpec.NewSub, LastN;
      sub := NewSubscriber(cap, replay);
      if closed {
        return;
      }
      Register(sub);
    }

    method NewSubscriber(cap: int, replay: bool) returns (sub: Subscriber)
      requires Valid()
      ensures fresh(sub) && sub.View() == HubSpec.NewSub(Core(), cap, replay)
    {
      hide Holds, Send, LastN;
      sub := new Subscriber(cap);
      if replay {
        var snapshot := ring.Snapshot();
        sub.SendLocked(Catchup(snapshot), false, false);
      }
    }

    /** The part of an unsubscribe that needs the lock. */
    method Forget(id: nat)
      requires Valid()
      modifies this`subs
      ensures Valid() && subs == old(subs) - {id}
      ensures Core() == old(Core()).(subs := old(Core()).subs - {id})
    {
      hide Holds;
      subs := subs - {id};
    }

    method Close()
      requires Valid()
      modifies this, subs.Values
      ensures Valid() && Core() == HubSpec.Close(old(Core()))
      ensures !old(closed) ==> old(subs).Keys == HubSpec.Dismissed(old(Core())).Keys
      ensures !old(closed) ==> forall id :: id in old(subs) ==> old(subs)[id].View() == HubSpec.Dismissed(old(Core()))[id]
    {
      hide Holds, LastN, HubSpec.Flush, Enqueue;
      if closed {
        return;
      }
      FlushLocked();
      closed := true;
      timer := false;
      CloseAll(subs);
      subs := map[];
    }

  }

  /** Each subscriber's state as a value. */
  ghost function ViewsOf(subs: map<nat, Subscriber>): map<nat, Sub>
    reads subs.Values
  {
    map id | id in subs :: subs[id].View()
  }

  ghost predicate Distinct(subs: map<nat, Subscriber>) {
    forall i, j :: i in subs && j in subs && i != j ==> subs[i] != subs[j]
  }

  /** The loop of `Close`: every subscriber is marked closed. */
  method CloseAll(subs: map<nat, Subscriber>)
    requires Distinct(subs)
    modifies subs.Values
    ensures forall id :: id in subs ==> subs[id].View() == old(subs[id].View()).(closed := true)
  {
    var todo := subs.Keys;
    while todo != {}
      invariant todo <= subs.Keys
      invariant forall id :: id in todo ==> subs[id].View() == old(subs[id].View())
      invariant forall id :: id in subs && id !in todo ==> subs[id].View() == old(subs[id].View()).(closed := true)
      decreases |todo|
    {
      var id :| id in todo;
      subs[id].MarkClosed();
      todo := todo - {id};
    }
  }

  /** The loop of `broadcastLocked`: the snapshot is taken for the first subscriber that needs one. */
  method EnqueueAll(subs: map<nat, Subscriber>, ring: BulkRing, f: Frame)
    requires Distinct(subs) && ring.Valid()
    modifies subs.Values
    ensures forall id :: id in subs ==>
              subs[id].View() == Enqueue(old(subs[id].View()), f, LastN(ring.stream, ring.buf.Length))
  {
    hide Enqueue, Holds, LastN;
    var snapshot, taken := [], false;
    var todo := subs.Keys;
    while todo != {}
      invariant todo <= subs.Keys
      invariant taken ==> snapshot == LastN(ring.stream, ring.buf.Length)
      invariant forall id :: id in todo ==> subs[id].View() == old(subs[id].View())
      invariant forall id :: id in subs && id !in todo ==>
        subs[id].View() == Enqueue(old(subs[id].View()), f, LastN(ring.stream, ring.buf.Length))
      decreases |todo|
    {
      var id :| id in todo;
      var sub := subs[id];
      if sub.needMarker && !taken {
        snapshot := ring.Snapshot();
        taken := true;
      }
      SnapshotUnused(sub.View(), f, snapshot, LastN(ring.stream, ring.buf.Length));
      sub.EnqueueLocked(f, snapshot);
      todo := todo - {id};
    }
  }

  /** A subscriber that is owed no marker does not look at the snapshot. */
  lemma SnapshotUnused(s: Sub, f: Frame, a: Bytes, b: Bytes)
    requires !s.needMarker || a == b
    ensures Enqueue(s, f, a) == Enqueue(s, f, b)
  {
    hide Send;
  }
}
