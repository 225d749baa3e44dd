/**
 Bytes that are put into a reader's channel twice, and what the ring given to a reader joins on to.
 */
module HubRepeats {
  import opened Bytes
  import opened Subscribers
  import opened HubSpec
  import opened HubRuns
  import opened HubReaders
  import Kitty

  // ---- what a step puts into a channel ----

  /** Flushed data, the ring after a loss or on subscription, or a replay: `stream[lo..hi]`. */
  datatype Kind = Flushed | CaughtUp | Replayed

  datatype Put = Put(lo: int, hi: int, kind: Kind)

  predicate Overlaps(a: Put, b: Put) {
    a.lo < b.hi && b.lo < a.hi && a.lo < a.hi && b.lo < b.hi
  }

  /** The ring, for a reader that lost something. */
  function RingPut(s: Sub, d: Core): seq<Put> {
    if s.needMarker && d.Snapshot() != [] then [Put(|d.stream| - |d.Snapshot()|, |d.stream|, CaughtUp)] else []
  }

  function DataPut(f: Frame, d: Core): seq<Put> {
    if f.Data? then [Put(|d.stream| - |d.coalesce|, |d.stream|, Flushed)] else []
  }

  /** What a subscription begins with. */
  function FirstPut(c: Core, step: Step): seq<Put> {
    if step.SubscribeFrom? then
      [Put(|c.stream| - |HubSpec.SubscribeFrom(c, step.cap, step.k).1.data|, |c.stream|, Replayed)]
    else if step.Subscribe? && step.replay && c.Snapshot() != [] then [Put(|c.stream| - |c.Snapshot()|, |c.stream|, CaughtUp)]
    else []
  }

  /** The stretches of the stream that a step gives reader `id`, in the order of the frames. */
  function PutsOf(w: World, step: Step, id: nat): seq<Put> {
    var c, d, sent := w.core, Sending(w.core, step), SentFrame(w.core, step);
    if id in c.subs then
      if sent.None? || c.subs[id].closed then [] else RingPut(c.subs[id], d) + DataPut(sent.value, d)
    else if c.closed || id != c.nextID + 1 then []
    else FirstPut(c, step)
  }

  function Puts(w: World, steps: seq<Step>, id: nat): seq<Put>
    decreases |steps|
  {
    if steps == [] then [] else PutsOf(w, steps[0], id) + Puts(Next(w, steps[0]), steps[1..], id)
  }

  /** The frames a step queues for a reader in the hub are those stretches of the stream. */
  lemma PutsAreQueued(w: World, step: Step, id: nat)
    requires Inv(w) && id in w.core.subs && !w.core.subs[id].closed && SentFrame(w.core, step).Some?
    requires id in w.clients && HasSub(w, id)
    ensures var s, d, f := w.core.subs[id], Sending(w.core, step), SentFrame(w.core, step).value;
            var q := SentTo(w, step, id).sub.queue;
            && (f.Data? ==> f.bytes == d.stream[|d.stream| - |d.coalesce|..])
            && |d.Snapshot()| <= |d.stream| && d.Snapshot() == d.stream[|d.stream| - |d.Snapshot()|..]
            && (if s.needMarker then q == Recovery(s.dropped + Total(s.queue), d.Snapshot(), f)
                else q != [] && q[|q| - 1] == f)
  {
    hide Inv, SentFrame, Sending, Frame.Size, Total, Recovery, Noted, Core.Snapshot, SentTo, Good;
    InvHas(w, id);
    ReaderIsGood(w, id);
    SentFrameSize(w, step);
    SendingFits(w, step);
    SentIsUnflushed(w, step);
    var s, d, f := w.core.subs[id], Sending(w.core, step), SentFrame(w.core, step).value;
    SnapshotEndsStream(d);
    GoodSubValid(w.clients[id], s, w.core.stream, w.core.coalesce);
    NotedQueues(ReaderOf(w, id), d, f);
    SentToIt(w, step, id);
  }

  lemma SentToIt(w: World, step: Step, id: nat)
    requires id in w.clients && id in w.core.subs && SentFrame(w.core, step).Some?
    ensures SentTo(w, step, id) == Noted(ReaderOf(w, id), Sending(w.core, step), SentFrame(w.core, step).value)
    ensures ReaderOf(w, id).sub == w.core.subs[id]
  {
    hide Noted, Sending, SentFrame;
  }

  lemma GoodSubValid(h: History, s: Sub, stream: Bytes, coalesce: Bytes)
    requires Good(h, s, stream, coalesce)
    ensures s.Valid()
  {}

  lemma SnapshotEndsStream(d: Core)
    ensures |d.Snapshot()| <= |d.stream| && d.Snapshot() == d.stream[|d.stream| - |d.Snapshot()|..]
  {}

  lemma NotedQueues(r: Reader, d: Core, f: Frame)
    requires r.sub.Valid() && !r.sub.closed && f.Size() > 0 && |d.coalesce| <= |d.stream|
    ensures var s, q := r.sub, Noted(r, d, f).sub.queue;
            if s.needMarker then q == Recovery(s.dropped + Total(s.queue), d.Snapshot(), f) else q != [] && q[|q| - 1] == f
  {
    hide Note, Sub.Valid, Frame.Size, Total, Send, Recovery, Core.Snapshot;
    if r.sub.needMarker { EnqueueMarks(r.sub, f, d.Snapshot()); } else { var _ := SendTracked(r.sub, f); }
  }

  lemma SentIsUnflushed(w: World, step: Step)
    ensures var sent := SentFrame(w.core, step);
            sent.Some? && sent.value.Data? ==> sent.value.bytes == Sending(w.core, step).coalesce != []
  {}

  // ---- when a flush repeats bytes ----

  /** Puts so far, when `n` bytes are out of which `u` are unflushed. */
  ghost predicate Sensible(ps: seq<Put>, n: int, u: int) {
    forall i :: 0 <= i < |ps| ==>
      && ps[i].lo <= ps[i].hi <= n && (ps[i].kind == CaughtUp ==> ps[i].lo < ps[i].hi)
      && (ps[i].kind != CaughtUp ==> ps[i].hi <= n - u)
  }

  /** A flush meets an earlier put iff that was the ring, taken when bytes of this flush were out already. */
  ghost predicate RepeatsOnlyTheRing(ps: seq<Put>) {
    forall m, n :: 0 <= m < n < |ps| && ps[n].kind == Flushed ==>
      (Overlaps(ps[m], ps[n]) <==> ps[m].kind == CaughtUp && ps[n].lo < ps[m].hi)
  }

  lemma OnePut(ps: seq<Put>, p: Put, n: int, u: int)
    requires Sensible(ps, n, u) && RepeatsOnlyTheRing(ps) && 0 <= u <= n
    requires p.kind == Flushed ==> p == Put(n - u, n, Flushed) && u > 0
    requires p.kind == CaughtUp ==> p.lo < p.hi == n
    requires p.kind == Replayed ==> p.lo <= p.hi == n
    ensures RepeatsOnlyTheRing(ps + [p]) && Sensible(ps + [p], n, if p.kind == CaughtUp then u else 0)
  {
    var qs := ps + [p];
    assert forall i :: 0 <= i < |ps| ==> qs[i] == ps[i];
  }

  lemma SensibleLater(ps: seq<Put>, n: int, u: int, n': int, u': int)
    requires Sensible(ps, n, u) && n <= n' && n - u <= n' - u'
    ensures Sensible(ps, n', u')
  {}

  /** How a step changes the lengths of the stream and of what is not flushed. */
  predicate LengthsAfter(w: World, step: Step) {
    var c', d, sent := Next(w, step).core, Sending(w.core, step), SentFrame(w.core, step);
    && |c'.stream| == |d.stream| && |c'.coalesce| == (if sent.Some? && sent.value.Data? then 0 else |d.coalesce|)
    && |d.stream| - |d.coalesce| == |w.core.stream| - |w.core.coalesce| && |w.core.stream| <= |d.stream| && |d.coalesce| <= |d.stream|
    && (step.SubscribeFrom? ==> c'.coalesce == [])
  }

  lemma CoreAfter(w: World, step: Step)
    requires Inv(w)
    ensures LengthsAfter(w, step)
  {
    NoneWhenClosed(w);
    if step.Write? {
      CoreAfterWrite(w, step);
    } else {
      hide Inv, Note, Enqueue, LastN, Kitty.Write, Kitty.Render, NewSub, Listed, Departed;
      FlushEmpties(w.core);
      hide Flush;
    }
  }

  lemma CoreAfterWrite(w: World, step: Step)
    requires step.Write? && |w.core.coalesce| <= |w.core.stream|
    requires w.core.closed ==> w.core.coalesce == []
    ensures LengthsAfter(w, step)
  {
    hide Note, Enqueue, LastN, Kitty.Write, Kitty.Render, NewSub;
    if step.p != [] && !w.core.closed {
      FlushEmpties(Appended(w.core, Kitty.Render(Kitty.Write(w.core.kitty, step.p).pieces)).(
                     kitty := Kitty.Write(w.core.kitty, step.p).state, timer := w.core.timer));
    }
    hide Flush;
  }

  lemma NoneWhenClosed(w: World)
    requires Inv(w)
    ensures w.core.closed ==> w.core.coalesce == []
    ensures |w.core.coalesce| <= |w.core.stream| && (|w.core.coalesce| < COALESCE_FLUSH_BYTES)
  {
    hide Listed, Departed;
  }

  lemma SentPuts(ps: seq<Put>, catchup: seq<Put>, data: seq<Put>, n: int, u: int)
    requires Sensible(ps, n, u) && RepeatsOnlyTheRing(ps) && 0 <= u <= n
    requires catchup == [] || exists lo :: catchup == [Put(lo, n, CaughtUp)] && lo < n
    requires data == [] || (data == [Put(n - u, n, Flushed)] && u > 0)
    ensures RepeatsOnlyTheRing(ps + (catchup + data)) && Sensible(ps + (catchup + data), n, if data == [] then u else 0)
  {
    hide RepeatsOnlyTheRing, Sensible;
    assert ps + [] == ps && catchup + [] == catchup && ps + catchup + data == ps + (catchup + data);
    if catchup != [] { OnePut(ps, catchup[0], n, u); }
    if data != [] { OnePut(ps + catchup, data[0], n, u); }
  }

  lemma StepPuts(w: World, step: Step, id: nat, ps: seq<Put>)
    requires Inv(w) && Sensible(ps, |w.core.stream|, |w.core.coalesce|) && RepeatsOnlyTheRing(ps)
    ensures var c', qs := Next(w, step).core, ps + PutsOf(w, step, id);
            RepeatsOnlyTheRing(qs) && Sensible(qs, |c'.stream|, |c'.coalesce|)
  {
    if id in w.core.subs {
      HubPuts(w, step, id, ps);
    } else {
      CoreAfter(w, step);
      hide Inv, Sending, SentFrame, Next, RepeatsOnlyTheRing, Sensible, PutsOf;
      SensibleLater(ps, |w.core.stream|, |w.core.coalesce|, |Sending(w.core, step).stream|, |Sending(w.core, step).coalesce|);
      SubscribingPuts(w, step, id, ps);
    }
  }

  lemma HubPuts(w: World, step: Step, id: nat, ps: seq<Put>)
    requires Inv(w) && Sensible(ps, |w.core.stream|, |w.core.coalesce|) && RepeatsOnlyTheRing(ps) && id in w.core.subs
    ensures var c', qs := Next(w, step).core, ps + PutsOf(w, step, id);
            RepeatsOnlyTheRing(qs) && Sensible(qs, |c'.stream|, |c'.coalesce|)
  {
    hide Inv, Sending, SentFrame, Next, RepeatsOnlyTheRing, Sensible, Core.Snapshot, RingPut, DataPut;
    var c, d, sent := w.core, Sending(w.core, step), SentFrame(w.core, step);
    var n, u, u' := |d.stream|, |d.coalesce|, |Next(w, step).core.coalesce|;
    CoreAfter(w, step);
    SentIsUnflushed(w, step);
    SensibleLater(ps, |c.stream|, |c.coalesce|, n, u);
    if sent.Some? && !c.subs[id].closed {
      PutShapes(c.subs[id], sent.value, d);
      var ring, data := RingPut(c.subs[id], d), DataPut(sent.value, d);
      SentPuts(ps, ring, data, n, u);
      SensibleLater(ps + (ring + data), n, if data == [] then u else 0, n, u');
    } else {
      assert ps + [] == ps;
      SensibleLater(ps, n, u, n, u');
    }
  }

  lemma PutShapes(s: Sub, f: Frame, d: Core)
    ensures RingPut(s, d) == [] || exists lo :: RingPut(s, d) == [Put(lo, |d.stream|, CaughtUp)] && lo < |d.stream|
    ensures DataPut(f, d) == if f.Data? then [Put(|d.stream| - |d.coalesce|, |d.stream|, Flushed)] else []
  {
    SnapshotEndsStream(d);
  }

  lemma SubscribingPuts(w: World, step: Step, id: nat, ps: seq<Put>)
    requires Inv(w) && id !in w.core.subs && RepeatsOnlyTheRing(ps)
    requires Sensible(ps, |Sending(w.core, step).stream|, |Sending(w.core, step).coalesce|)
    ensures var c', qs := Next(w, step).core, ps + PutsOf(w, step, id);
            RepeatsOnlyTheRing(qs) && Sensible(qs, |c'.stream|, |c'.coalesce|)
  {
    var c, d := w.core, Sending(w.core, step);
    var n, u, u' := |d.stream|, |d.coalesce|, |Next(w, step).core.coalesce|;
    CoreAfter(w, step);
    NewPut(w, step, id);
    hide Inv, SentFrame, Next, RepeatsOnlyTheRing, Sensible, Core.Snapshot, HubSpec.SubscribeFrom, PutsOf;
    var begun := PutsOf(w, step, id);
    assert ps + [] == ps;
    if begun != [] {
      assert begun == [begun[0]];
      OnePut(ps, begun[0], n, u);
      SensibleLater(ps + begun, n, if begun[0].kind == CaughtUp then u else 0, n, u');
    } else {
      SensibleLater(ps, n, u, n, u');
    }
  }

  /** What a subscription begins with ends where the stream ends. */
  lemma NewPut(w: World, step: Step, id: nat)
    requires Inv(w) && id !in w.core.subs
    ensures var ps := PutsOf(w, step, id); var n := |Sending(w.core, step).stream|;
            |ps| <= 1 && (ps != [] ==>
              && ps[0].lo <= ps[0].hi == n && ps[0].kind != Flushed && (ps[0].kind == CaughtUp ==> ps[0].lo < n)
              && (ps[0].kind == Replayed ==> step.SubscribeFrom?))
  {
    hide Inv, SentFrame, Flush;
    FlushEmpties(w.core);
    SnapshotEndsStream(w.core);
    if step.SubscribeFrom? { ReplayIsSuffix(Flush(w.core), step.k); }
    hide ReplaySince, Core.Snapshot;
  }

  lemma {:induction false} RunPuts(w: World, steps: seq<Step>, id: nat, ps: seq<Put>)
    requires Inv(w) && Sensible(ps, |w.core.stream|, |w.core.coalesce|) && RepeatsOnlyTheRing(ps)
    ensures RepeatsOnlyTheRing(ps + Puts(w, steps, id))
    decreases |steps|
  {
    hide Inv, Next, Sensible, RepeatsOnlyTheRing, PutsOf;
    if steps == [] {
      assert ps + [] == ps;
    } else {
      var now, rest := PutsOf(w, steps[0], id), Puts(Next(w, steps[0]), steps[1..], id);
      StepPuts(w, steps[0], id, ps);
      NextKeepsInv(w, steps[0]);
      RunPuts(Next(w, steps[0]), steps[1..], id, ps + now);
      assert ps + now + rest == ps + (now + rest);
    }
  }

  /**
   In every run, flushed data puts a byte into a channel that was put there before iff the ring was put there
   while some of that data was out already and not yet flushed: after a loss, or on subscription.
   */
  lemma FlushRepeatsIff(ringSize: nat, steps: seq<Step>, id: nat, m: nat, n: nat)
    requires var ps := Puts(Start(ringSize), steps, id); m < n < |ps| && ps[n].kind == Flushed
    ensures var ps := Puts(Start(ringSize), steps, id);
            Overlaps(ps[m], ps[n]) <==> ps[m].kind == CaughtUp && ps[n].lo < ps[m].hi
  {
    hide Puts, Overlaps;
    PutsRepeatOnlyTheRing(ringSize, steps, id);
    MeetsOnlyTheRing(Puts(Start(ringSize), steps, id), m, n);
  }

  lemma MeetsOnlyTheRing(ps: seq<Put>, m: nat, n: nat)
    requires RepeatsOnlyTheRing(ps) && m < n < |ps| && ps[n].kind == Flushed
    ensures Overlaps(ps[m], ps[n]) <==> ps[m].kind == CaughtUp && ps[n].lo < ps[m].hi
  {}

  lemma PutsRepeatOnlyTheRing(ringSize: nat, steps: seq<Step>, id: nat)
    ensures RepeatsOnlyTheRing(Puts(Start(ringSize), steps, id))
  {
    hide Puts, Inv, Sensible, RepeatsOnlyTheRing;
    StartInv(ringSize);
    NoPuts(|Start(ringSize).core.stream|, |Start(ringSize).core.coalesce|);
    RunPuts(Start(ringSize), steps, id, []);
    assert [] + Puts(Start(ringSize), steps, id) == Puts(Start(ringSize), steps, id);
  }

  lemma NoPuts(n: int, u: int)
    ensures Sensible([], n, u) && RepeatsOnlyTheRing([])
  {}

  // ---- what a reader has after a loss ----

  /** The ring as it was when `end` bytes were out, not before `base`. */
  predicate RingAt(b: Bytes, base: nat, stream: Bytes, end: nat) {
    base <= end <= |stream| && |b| <= end && b == stream[end - |b|..end]
  }

  /** Frame `i` is the ring, right behind the last marker. */
  predicate RingBehind(fs: seq<Frame>, i: int) {
    0 < i < |fs| && fs[i - 1].Marker? && fs[i].Catchup? && NoMarker(fs[i..])
  }

  ghost predicate WasRing(f: Frame, base: nat, stream: Bytes) {
    f.Catchup? && exists end: nat :: RingAt(f.bytes, base, stream, end)
  }

  /** The ring that follows the last marker reaches at least to where the data goes on. */
  ghost predicate RingBehindMarker(fs: seq<Frame>, base: nat, stream: Bytes) {
    forall i :: RingBehind(fs, i) ==> WasRing(fs[i], base, stream)
  }

  ghost predicate Caught(h: History, s: Sub, stream: Bytes) {
    !s.needMarker ==> RingBehindMarker(h.got + s.queue, h.base, stream)
  }

  lemma CaughtLater(h: History, s: Sub, stream: Bytes, stream': Bytes)
    requires Caught(h, s, stream) && stream <= stream'
    ensures Caught(h, s, stream')
  {
    if !s.needMarker {
      var fs := h.got + s.queue;
      forall i | RingBehind(fs, i) ensures WasRing(fs[i], h.base, stream') {
        assert WasRing(fs[i], h.base, stream);
        var end: nat :| RingAt(fs[i].bytes, h.base, stream, end);
        assert stream'[..end] == stream[..end];
        assert RingAt(fs[i].bytes, h.base, stream', end);
      }
    }
  }

  lemma OneMoreFrame(fs: seq<Frame>, f: Frame, base: nat, stream: Bytes)
    requires RingBehindMarker(fs, base, stream) && !f.Catchup?
    ensures RingBehindMarker(fs + [f], base, stream)
  {
    var gs := fs + [f];
    forall i | RingBehind(gs, i) ensures WasRing(gs[i], base, stream) {
      assert gs[i..] == fs[i..] + [f];
      NoMarkerAppend(fs[i..], f);
      assert RingBehind(fs, i);
    }
  }

  lemma BehindMarker(fs: seq<Frame>, i: nat, j: nat)
    requires i <= |fs| && j < |fs| && fs[j].Marker?
    ensures i <= j ==> !NoMarker(fs[i..])
  {
    if i <= j { assert fs[i..][j - i] == fs[j]; }
  }

  lemma RingComes(got: seq<Frame>, lost: nat, snapshot: Bytes, f: Frame, base: nat, stream: Bytes)
    requires !f.Catchup? && RingAt(snapshot, base, stream, |stream|)
    ensures RingBehindMarker(got + Recovery(lost, snapshot, f), base, stream)
  {
    var gs := got + Recovery(lost, snapshot, f);
    forall i | RingBehind(gs, i) ensures WasRing(gs[i], base, stream) {
      BehindMarker(gs, i, |got|);
      assert gs[i] == Catchup(snapshot);
    }
  }

  lemma NotedCaught(r: Reader, d: Core, f: Frame)
    requires r.sub.Valid() && f.Size() > 0 && !f.Catchup? && |d.coalesce| <= |d.stream| && Caught(r.history, r.sub, d.stream)
    ensures Caught(Noted(r, d, f).history, Noted(r, d, f).sub, d.stream)
  {
    hide Sub.Valid, Frame.Size, Total, Send, Recovery, RingBehindMarker, Counts, Core.Snapshot, GivenUp;
    var h, s, snapshot, start := r.history, r.sub, d.Snapshot(), |d.stream| - |d.coalesce|;
    if s.closed {
    } else if s.needMarker {
      EnqueueMarks(s, f, snapshot);
      SnapshotEndsStream(d);
      RingComes(h.got, s.dropped + Total(s.queue), snapshot, f, start, d.stream);
    } else {
      SendDrops(s, f);
      SendCaught(h, s, f, d.stream);
    }
  }

  lemma SendCaught(h: History, s: Sub, f: Frame, stream: Bytes)
    requires s.Valid() && f.Size() > 0 && !f.Catchup? && !s.needMarker && RingBehindMarker(h.got + s.queue, h.base, stream)
    ensures var t := Send(s, f, true, true); !t.needMarker ==> RingBehindMarker(h.got + t.queue, h.base, stream)
  {
    hide Sub.Valid, Frame.Size, Total, Send, RingBehindMarker;
    SendDrops(s, f);
    var t := Send(s, f, true, true);
    if !t.needMarker {
      assert s.queue[0..] == s.queue;
      assert h.got + t.queue == h.got + s.queue + [f];
      OneMoreFrame(h.got + s.queue, f, h.base, stream);
    }
  }

  ghost predicate AllCaught(w: World) {
    forall id :: id in w.clients ==> HasSub(w, id) && Caught(w.clients[id], SubOf(w, id), w.core.stream)
  }

  lemma SettledCaught(w: World, step: Step, id: nat, r: Reader, stream: Bytes)
    requires Caught(r.history, r.sub, stream)
    ensures Caught(Settled(w, step, id, r).history, Settled(w, step, id, r).sub, stream)
  {
    hide RingBehindMarker;
    if r.sub.queue != [] {
      var q := r.sub.queue;
      assert r.history.got + [q[0]] + q[1..] == r.history.got + q;
    }
  }

  lemma TurnCaught(w: World, step: Step, id: nat)
    requires Inv(w) && AllCaught(w) && id in w.clients && HasSub(w, id)
    ensures Caught(Turn(w, step, id).history, Turn(w, step, id).sub, Sending(w.core, step).stream)
  {
    ReaderIsGood(w, id);
    SentFrameSize(w, step);
    SendingFits(w, step);
    SendingGrows(w.core, step);
    SentNoRing(w, step);
    hide Inv, SentFrame, Sending, Frame.Size, Noted, Caught, Settled;
    CaughtLater(w.clients[id], SubOf(w, id), w.core.stream, Sending(w.core, step).stream);
    var sent := SentFrame(w.core, step);
    if sent.Some? && id in w.core.subs { NotedCaught(ReaderOf(w, id), Sending(w.core, step), sent.value); }
    SettledCaught(w, step, id, SentTo(w, step, id), Sending(w.core, step).stream);
  }

  lemma SendingGrows(c: Core, step: Step)
    ensures c.stream <= Sending(c, step).stream
  {
    hide Kitty.Write, Kitty.Render;
  }

  lemma SentNoRing(w: World, step: Step)
    ensures SentFrame(w.core, step).Some? ==> !SentFrame(w.core, step).value.Catchup?
  {}

  lemma NextCaught(w: World, step: Step, id: nat)
    requires Inv(w) && AllCaught(w) && id in Next(w, step).clients
    ensures var w' := Next(w, step); HasSub(w', id) && Caught(w'.clients[id], SubOf(w', id), w'.core.stream)
  {
    if id in w.clients {
      SubOfClient(w, id);
      NextTurns(w, step, id);
      TurnCaught(w, step, id);
      SendingIsNext(w, step);
      hide Inv, Next, Turn, Caught, Sending, AllCaught;
      SameStream(Next(w, step).clients[id], SubOf(Next(w, step), id), Sending(w.core, step).stream, Next(w, step).core.stream);
    } else {
      NewReaders(w, step, id);
      hide Inv, Next;
      NewCaught(Next(w, step).clients[id], SubOf(Next(w, step), id), Next(w, step).core.stream);
    }
  }

  lemma SubOfClient(w: World, id: nat)
    requires AllCaught(w) && id in w.clients
    ensures HasSub(w, id)
  {}

  lemma SameStream(h: History, s: Sub, a: Bytes, b: Bytes)
    requires Caught(h, s, a) && a == b
    ensures Caught(h, s, b)
  {}

  lemma SendingIsNext(w: World, step: Step)
    ensures Next(w, step).core.stream == Sending(w.core, step).stream
  {
    hide Note, Enqueue, LastN, Kitty.Write, Kitty.Render, NewSub;
    FlushEmpties(w.core);
    if step.Write? && step.p != [] && !w.core.closed {
      FlushEmpties(Appended(w.core, Kitty.Render(Kitty.Write(w.core.kitty, step.p).pieces)).(
                     kitty := Kitty.Write(w.core.kitty, step.p).state, timer := w.core.timer));
      var out := Kitty.Render(Kitty.Write(w.core.kitty, step.p).pieces);
      assert out == [] ==> w.core.stream + out == w.core.stream;
    }
    hide Flush;
  }

  lemma NewCaught(h: History, s: Sub, stream: Bytes)
    requires h.got == [] && |s.queue| <= 1
    ensures Caught(h, s, stream)
  {}

  lemma {:induction false} RunCaught(w: World, steps: seq<Step>)
    requires Inv(w) && AllCaught(w)
    ensures AllCaught(Run(w, steps))
    decreases |steps|
  {
    hide Inv, Next, Caught;
    if steps != [] {
      forall id | id in Next(w, steps[0]).clients
        ensures HasSub(Next(w, steps[0]), id) && Caught(Next(w, steps[0]).clients[id], SubOf(Next(w, steps[0]), id), Next(w, steps[0]).core.stream)
      {
        NextCaught(w, steps[0], id);
      }
      NextKeepsInv(w, steps[0]);
      RunCaught(Next(w, steps[0]), steps[1..]);
    }
  }

  /** The bytes of data frames behind the last marker. */
  lemma {:induction false} SeenBehindMarker(fs: seq<Frame>, i: nat, prefix: Bytes)
    requires i < |fs| && fs[i].Marker? && NoMarker(fs[i + 1..])
    ensures Seen(fs, prefix) == DataOf(fs[i + 1..])
    decreases |fs|
  {
    var n := |fs| - 1;
    assert fs == fs[..n] + [fs[n]];
    SeenAppend(fs[..n], fs[n], prefix);
    if i < n {
      var rest := fs[i + 1..];
      assert rest[..|rest| - 1] == fs[..n][i + 1..] && rest[|rest| - 1] == fs[n] && fs[n] in rest;
      assert forall f :: f in fs[..n][i + 1..] ==> f in rest;
      SeenBehindMarker(fs[..n], i, prefix);
    } else {
      assert fs[i + 1..] == [];
    }
  }

  /**
   After a loss, in every run: behind the last marker that a reader took or that waits for it, the data frames and
   the unflushed bytes are the stream from some `base` on without holes, and the ring that came with the marker is a
   piece of the stream that ends at `base` or behind it. So from the start of that ring on nothing is missing.
   */
  lemma AfterTheLoss(ringSize: nat, steps: seq<Step>, id: nat, i: nat)
    requires id in Run(Start(ringSize), steps).clients
    requires var w := Run(Start(ringSize), steps);
             HasSub(w, id) ==>
               var fs := w.clients[id].got + SubOf(w, id).queue;
               !SubOf(w, id).needMarker && i < |fs| && fs[i].Marker? && NoMarker(fs[i + 1..])
    ensures var w := Run(Start(ringSize), steps);
            && HasSub(w, id)
            && var h, behind := w.clients[id], (w.clients[id].got + SubOf(w, id).queue)[i + 1..];
               && h.base <= |w.core.stream|
               && (if h.left then DataOf(behind) <= w.core.stream[h.base..] else DataOf(behind) + w.core.coalesce == w.core.stream[h.base..])
               && (behind != [] && behind[0].Catchup? ==> exists end: nat :: RingAt(behind[0].bytes, h.base, w.core.stream, end))
  {
    hide Run, Inv, Start;
    StartInv(ringSize);
    NobodyCaught(ringSize);
    RunKeepsInv(Start(ringSize), steps);
    RunCaught(Start(ringSize), steps);
    var w := Run(Start(ringSize), steps);
    ReaderIsGood(w, id);
    CaughtOf(w, id);
    hide AllCaught;
    LossIsBridged(w.clients[id], SubOf(w, id), w.core.stream, w.core.coalesce, i);
  }

  lemma NobodyCaught(ringSize: nat)
    ensures AllCaught(Start(ringSize))
  {}

  lemma CaughtOf(w: World, id: nat)
    requires AllCaught(w) && id in w.clients
    ensures HasSub(w, id) && Caught(w.clients[id], SubOf(w, id), w.core.stream)
  {}

  lemma LossIsBridged(h: History, s: Sub, stream: Bytes, coalesce: Bytes, i: nat)
    requires Good(h, s, stream, coalesce) && Caught(h, s, stream) && !s.needMarker
    requires var fs := h.got + s.queue; i < |fs| && fs[i].Marker? && NoMarker(fs[i + 1..])
    ensures var behind := (h.got + s.queue)[i + 1..];
            && h.base <= |stream|
            && (if h.left then DataOf(behind) <= stream[h.base..] else DataOf(behind) + coalesce == stream[h.base..])
            && (behind != [] && behind[0].Catchup? ==> exists end: nat :: RingAt(behind[0].bytes, h.base, stream, end))
  {
    hide Seen, DataOf, Sub.Valid, NoMarker, RingAt;
    var fs := h.got + s.queue;
    SeenBehindMarker(fs, i, h.prefix);
    if fs[i + 1..] != [] && fs[i + 1..][0].Catchup? {
      assert RingBehind(fs, i + 1);
      assert WasRing(fs[i + 1], h.base, stream);
    }
  }

  // ---- a subscriber that begins with the ring ----

  /** As long as it was told of no loss and none is due, the first frame a reader took or has is `first`. */
  predicate Begun(r: Reader, first: Frame) {
    var fs := r.history.got + r.sub.queue;
    !r.sub.needMarker && NoMarker(fs) ==> fs != [] && fs[0] == first
  }

  lemma NotedBegun(r: Reader, d: Core, f: Frame, first: Frame)
    requires r.sub.Valid() && f.Size() > 0 && Begun(r, first)
    ensures Begun(Noted(r, d, f), first)
  {
    hide Sub.Valid, Frame.Size, Total, Send, Counts, Core.Snapshot, GivenUp, NoMarker, Recovery;
    var s, snapshot := r.sub, d.Snapshot();
    if s.closed || |d.coalesce| > |d.stream| {
    } else if s.needMarker {
      EnqueueMarks(s, f, snapshot);
      RecoveryMarks(r.history.got, s.dropped + Total(s.queue), snapshot, f);
    } else {
      SendDrops(s, f);
      if !Send(s, f, true, true).needMarker {
        assert s.queue[0..] == s.queue;
        assert r.history.got + (s.queue + [f]) == r.history.got + s.queue + [f];
        NoMarkerAppend(r.history.got + s.queue, f);
      }
    }
  }

  lemma SettledBegun(w: World, step: Step, id: nat, r: Reader, first: Frame)
    requires Begun(r, first)
    ensures Begun(Settled(w, step, id, r), first)
  {
    hide NoMarker;
    if r.sub.queue != [] {
      var q := r.sub.queue;
      assert r.history.got + [q[0]] + q[1..] == r.history.got + q;
    }
  }

  lemma NextBegun(w: World, step: Step, id: nat, first: Frame)
    requires Inv(w) && id in w.clients && HasSub(w, id) && Begun(ReaderOf(w, id), first)
    ensures var w' := Next(w, step); id in w'.clients && HasSub(w', id) && Begun(ReaderOf(w', id), first)
  {
    NextTurns(w, step, id);
    ReaderIsGood(w, id);
    SentFrameSize(w, step);
    hide Inv, Next, SentFrame, Sending, Frame.Size, Noted, Begun, Settled, Sub.Valid, Follows, Told, Balanced;
    var sent := SentFrame(w.core, step);
    if sent.Some? && id in w.core.subs { NotedBegun(ReaderOf(w, id), Sending(w.core, step), sent.value, first); }
    SettledBegun(w, step, id, SentTo(w, step, id), first);
  }

  lemma {:induction false} RunBegun(w: World, steps: seq<Step>, id: nat, first: Frame)
    requires Inv(w) && id in w.clients && HasSub(w, id) && Begun(ReaderOf(w, id), first)
    ensures var w' := Run(w, steps); id in w'.clients && HasSub(w', id) && Begun(ReaderOf(w', id), first)
    decreases |steps|
  {
    hide Inv, Next, Begun, HasSub, ReaderOf;
    if steps != [] {
      NextBegun(w, steps[0], id, first);
      NextKeepsInv(w, steps[0]);
      RunBegun(Next(w, steps[0]), steps[1..], id, first);
    }
  }

  lemma SubscribeBegins(w: World, cap: int)
    requires Inv(w) && !w.core.closed && w.core.Snapshot() != []
    ensures var w', id := Next(w, Subscribe(cap, true)), w.core.nextID + 1;
            && id in w'.clients && HasSub(w', id) && w'.core.stream == w.core.stream
            && Begun(ReaderOf(w', id), Catchup(w.core.Snapshot()))
            && w'.clients[id].prefix == [] && |w.core.coalesce| <= |w.core.stream|
            && w'.clients[id].origin == |w.core.stream| - |w.core.coalesce|
  {
    NewReaders(w, Subscribe(cap, true), w.core.nextID + 1);
    NewFrame(w.core, cap);
    UnflushedFits(w);
    hide Inv, LastN, Total, NoMarker, NewSub;
    assert [] + [Catchup(w.core.Snapshot())] == [Catchup(w.core.Snapshot())];
  }

  lemma NewFrame(c: Core, cap: int)
    requires c.Snapshot() != []
    ensures NewSub(c, cap, true).queue == [Catchup(c.Snapshot())]
  {
    hide LastN;
  }

  lemma UnflushedFits(w: World)
    requires Inv(w)
    ensures |w.core.coalesce| <= |w.core.stream| && w.core.nextID + 1 !in w.clients
  {
    hide Listed, Departed;
  }

  /**
   A reader that subscribed with the ring, as long as it was told of no loss and none is due: the first frame it took or has
   is the end of the stream at that time, and its data frames with the unflushed bytes are the stream from what was
   then not flushed on. So the ring joins on to the data without a gap, and overlaps it by what was not flushed.
   */
  lemma SnapshotThenStream(ringSize: nat, before: seq<Step>, cap: int, after: seq<Step>)
    requires var w := Run(Start(ringSize), before); !w.core.closed && w.core.Snapshot() != []
    requires var w, id := Run(Start(ringSize), before), Run(Start(ringSize), before).core.nextID + 1;
             var w' := Run(Next(w, Subscribe(cap, true)), after);
             id in w'.clients && HasSub(w', id) ==> !SubOf(w', id).needMarker && NoMarker(w'.clients[id].got + SubOf(w', id).queue)
    ensures var w, id := Run(Start(ringSize), before), Run(Start(ringSize), before).core.nextID + 1;
            var w' := Run(Next(w, Subscribe(cap, true)), after);
            && w.core.stream <= w'.core.stream && id in w'.clients && HasSub(w', id) && |w.core.coalesce| <= |w.core.stream|
            && var h, fs, n := w'.clients[id], w'.clients[id].got + SubOf(w', id).queue, |w.core.stream|;
               && fs != [] && fs[0] == Catchup(w.core.Snapshot()) && |fs[0].bytes| <= n && fs[0].bytes == w.core.stream[n - |fs[0].bytes|..]
               && if h.left then DataOf(fs) <= w'.core.stream[n - |w.core.coalesce|..]
                  else DataOf(fs) + w'.core.coalesce == w'.core.stream[n - |w.core.coalesce|..]
  {
    hide Run, Next, Inv, HasSub, NoMarker, Begun, Core.Snapshot;
    RunKeepsInv(Start(ringSize), before) by { StartInv(ringSize); }
    var w := Run(Start(ringSize), before);
    var id, w1 := w.core.nextID + 1, Next(w, Subscribe(cap, true));
    SubscribeBegins(w, cap);
    NextKeepsInv(w, Subscribe(cap, true));
    RunKeepsOrigin(w1, after, id);
    RunBegun(w1, after, id, Catchup(w.core.Snapshot()));
    var w' := Run(w1, after);
    ReaderIsGood(w', id);
    FirstIs(ReaderOf(w', id), Catchup(w.core.Snapshot()));
    SnapshotEndsStream(w.core);
    DataFollows(w'.clients[id], SubOf(w', id), w'.core.stream, w'.core.coalesce);
  }

  lemma FirstIs(r: Reader, first: Frame)
    requires Begun(r, first) && !r.sub.needMarker && NoMarker(r.history.got + r.sub.queue)
    ensures var fs := r.history.got + r.sub.queue; fs != [] && fs[0] == first
  {}

  lemma DataFollows(h: History, s: Sub, stream: Bytes, coalesce: Bytes)
    requires Good(h, s, stream, coalesce) && !s.needMarker && NoMarker(h.got + s.queue) && h.prefix == []
    ensures h.origin <= |stream|
    ensures if h.left then DataOf(h.got + s.queue) <= stream[h.origin..] else DataOf(h.got + s.queue) + coalesce == stream[h.origin..]
  {
    SeenWithoutMarker(h.got + s.queue, h.prefix);
    hide Seen, DataOf, Sub.Valid, Balanced;
    assert h.prefix + DataOf(h.got + s.queue) == DataOf(h.got + s.queue);
  }
}
