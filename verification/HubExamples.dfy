/**
 Runs of the hub from its start in which a reader is not told all it lost, and in which bytes come twice.
 */
module HubExamples {
  import opened Bytes
  import opened Subscribers
  import opened HubSpec
  import opened HubRuns
  import HubReaders
  import Kitty
  import KittyStream

  /** A hub with one reader. */
  function Solo(ringSize: nat, stream: Bytes, coalesce: Bytes, timer: bool, s: Sub, h: History): World {
    World(Core(stream, ringSize, coalesce, timer, map[1 := s], 1, false, Kitty.State([], Kitty.IDLE)), map[], map[1 := h])
  }

  /** The letter A. */
  const A: Bytes := [65]

  lemma PlainText()
    ensures Kitty.Write(Kitty.State([], Kitty.IDLE), A).state == Kitty.State([], Kitty.IDLE)
    ensures Kitty.Render(Kitty.Write(Kitty.State([], Kitty.IDLE), A).pieces) == A
  {
    hide Kitty.Scan, Kitty.Render;
    assert [] + A == A;
    NoIntroducer();
    KittyStream.ScanStep(A, Kitty.IDLE);
  }

  lemma NoIntroducer()
    ensures Kitty.Frame(A).Plain?
  {
    forall i ensures !Kitty.IntroducerAt(A, i) {
      if Kitty.IntroducerAt(A, i) { KittyStream.IntroducerEsc(A, i); }
    }
  }

  lemma Begins(ringSize: nat)
    ensures Next(Start(ringSize), SubscribeFrom(1, 0)) == Solo(ringSize, [], [], false, Fresh(1), History([], [], 0, 0, 0, 0, false, 0))
  {}

  lemma SendsResize(ringSize: nat, stream: Bytes, coalesce: Bytes, timer: bool, s: Sub, h: History, r: Bytes)
    requires r != [] && |coalesce| <= |stream|
    ensures Next(Solo(ringSize, stream, coalesce, timer, s, h), Resized(r))
            == Solo(ringSize, stream, coalesce, timer, Enqueue(s, Resize(r), LastN(stream, ringSize)),
                    Note(h, s, Resize(r), LastN(stream, ringSize), |stream| - |coalesce|))
  {
    hide Note, Enqueue, LastN;
  }

  lemma Writes(ringSize: nat, s: Sub, h: History)
    ensures Next(Solo(ringSize, [], [], false, s, h), Write(A)) == Solo(ringSize, A, A, true, s, h)
  {
    hide Kitty.Write, Kitty.Render;
    PlainText();
    assert [] + A == A;
  }

  lemma Flushes(ringSize: nat, stream: Bytes, coalesce: Bytes, s: Sub, h: History)
    requires coalesce != [] && |coalesce| <= |stream|
    ensures Next(Solo(ringSize, stream, coalesce, true, s, h), Tick)
            == Solo(ringSize, stream, [], false, Enqueue(s, Data(coalesce), LastN(stream, ringSize)),
                    Note(h, s, Data(coalesce), LastN(stream, ringSize), |stream| - |coalesce|))
  {
    hide Note, Enqueue, LastN;
  }

  lemma Receives(ringSize: nat, stream: Bytes, coalesce: Bytes, timer: bool, s: Sub, h: History)
    requires s.queue != []
    ensures Next(Solo(ringSize, stream, coalesce, timer, s, h), Receive(1))
            == Solo(ringSize, stream, coalesce, timer, s.(queue := s.queue[1..]), h.(got := h.got + [s.queue[0]]))
  {}

  // ---- one subscriber that any of these frames overfills ----

  /** It keeps one byte's worth of frames, so any two frames are too many. */
  ghost predicate Tiny(s: Sub) {
    s.Valid() && s.bufCap == 1 && !s.closed && forall f :: f in s.queue ==> f.Size() > 0
  }

  lemma FreshIsTiny()
    ensures Tiny(Fresh(1)) && Fresh(1).queue == [] && !Fresh(1).needMarker && Fresh(1).dropped == 0
  {}

  lemma {:induction false} TotalPositive(q: seq<Frame>)
    requires q != [] && forall f :: f in q ==> f.Size() > 0
    ensures Total(q) > 0
  {
    assert q[0] in q;
  }

  /** A frame of more than a byte takes the place of all that is queued. */
  lemma Overfills(s: Sub, h: History, f: Frame, snapshot: Bytes, start: nat)
    requires Tiny(s) && !s.needMarker && f.Size() > 1
    ensures var t, h' := Enqueue(s, f, snapshot), Note(h, s, f, snapshot, start);
            && Tiny(t) && t.queue == [f] && t.dropped == s.dropped + Total(s.queue) && t.needMarker == (s.queue != [])
            && h' == h.(enqueued := h'.enqueued, evicted := h.evicted + Counts(s.queue))
  {
    hide Send, Total, Counts, Frame.Size, Sub.Valid;
    var k := SendTracked(s, f);
    var t := Send(s, f, true, true);
    TinyParts(s);
    TotalConcat(s.queue[k..], [f]);
    TotalOne(f);
    assert k == |s.queue| by {
      if k < |s.queue| {
        assert forall g :: g in s.queue[k..] ==> g in s.queue;
        TotalPositive(s.queue[k..]);
      }
    }
    assert s.queue[k..] == [] && [] + [f] == [f] && s.queue[..k] == s.queue;
    assert s.queue == [] ==> Counts(s.queue) == 0 && Counts([]) == 0 by { NoCounts(); }
  }

  lemma TinyParts(s: Sub)
    requires Tiny(s)
    ensures s.Valid() && s.bufCap == 1 && !s.closed
  {}

  lemma NoCounts()
    ensures Counts([]) == 0
  {}

  /** After a loss any frame brings the marker. */
  lemma Recovers(s: Sub, h: History, f: Frame, snapshot: Bytes, start: nat)
    requires Tiny(s) && s.needMarker && f.Size() > 0
    ensures var t, h' := Enqueue(s, f, snapshot), Note(h, s, f, snapshot, start);
            && Tiny(t) && t.queue == Recovery(s.dropped + Total(s.queue), snapshot, f) && t.dropped == 0 && !t.needMarker
            && h'.evicted == h.evicted + Counts(s.queue) && h'.got == h.got
  {
    hide Enqueue, Total, Counts, Frame.Size, Sub.Valid;
    EnqueueMarks(s, f, snapshot);
    MarkerSize(s.dropped + Total(s.queue));
    CatchupSize(snapshot);
  }

  lemma MarkerSize(n: nat)
    ensures Marker(n).Size() > 0
  {}

  lemma CatchupSize(snapshot: Bytes)
    ensures snapshot != [] ==> Catchup(snapshot).Size() > 0
  {}

  lemma RunStep(w: World, a: Step, rest: seq<Step>)
    ensures Run(w, [a] + rest) == Run(Next(w, a), rest) && Run(w, []) == w
  {
    hide Next;
    assert ([a] + rest)[1..] == rest;
  }

  // ---- a reader is lost and never told ----

  /** A reader that takes nothing, and `n` resizes. */
  function Resizes(r: Bytes, n: nat): seq<Step> {
    if n == 0 then [SubscribeFrom(1, 0)] else Resizes(r, n - 1) + [Resized(r)]
  }

  /** The reader after `n` resizes. */
  ghost predicate AfterResizes(ringSize: nat, r: Bytes, n: nat, s: Sub, h: History) {
    Run(Start(ringSize), Resizes(r, n)) == Solo(ringSize, [], [], false, s, h) && Tiny(s) && h.got == []
  }

  lemma NoResize(ringSize: nat, r: Bytes)
    ensures AfterResizes(ringSize, r, 0, Fresh(1), History([], [], 0, 0, 0, 0, false, 0))
  {
    hide Next, Start;
    Begins(ringSize);
    FreshIsTiny();
    assert [SubscribeFrom(1, 0)] == [SubscribeFrom(1, 0)] + [];
    RunStep(Start(ringSize), SubscribeFrom(1, 0), []);
    RunStep(Next(Start(ringSize), SubscribeFrom(1, 0)), Tick, []);
  }

  lemma OneResize(ringSize: nat, r: Bytes, n: nat, s: Sub, h: History)
    requires AfterResizes(ringSize, r, n, s, h) && |r| > 1
    ensures var s', h' := Enqueue(s, Resize(r), []), Note(h, s, Resize(r), [], 0);
            && AfterResizes(ringSize, r, n + 1, s', h')
            && (if s.needMarker then s'.queue == Recovery(s.dropped + Total(s.queue), [], Resize(r)) && s'.dropped == 0 && !s'.needMarker
                else s'.queue == [Resize(r)] && s'.dropped == s.dropped + Total(s.queue) && s'.needMarker == (s.queue != []))
            && h'.evicted == h.evicted + Counts(s.queue)
  {
    hide Next, Start, Enqueue, Note, Total, Counts, Tiny, Recovery, Run;
    HubReaders.RunAppend(Start(ringSize), Resizes(r, n), Resized(r));
    SendsResize(ringSize, [], [], false, s, h, r);
    assert LastN([], ringSize) == [];
    if s.needMarker { Recovers(s, h, Resize(r), [], 0); } else { Overfills(s, h, Resize(r), [], 0); }
  }

  /**
   Five resizes: the second pushes the first out, the third makes a marker with both counts, the fourth
   pushes that marker out, and the fifth makes one that reports the marker's own length, not its count.
   */
  lemma MarkerIsLost(ringSize: nat, r: Bytes) returns (s: Sub, h: History)
    requires |r| > 1
    ensures Run(Start(ringSize), Resizes(r, 5)) == Solo(ringSize, [], [], false, s, h)
    ensures h.got == [] && s.queue == [Marker(Marker(2 * |r|).Size() + 2 * |r|), Resize(r)] && !s.needMarker && s.dropped == 0
    ensures h.evicted == 2 * |r|
  {
    hide Enqueue, Note, Run, Resizes, Start, Fresh, Tiny, Total, Counts, Recovery, Frame.Size;
    h := History([], [], 0, 0, 0, 0, false, 0);
    s := Fresh(1);
    NoResize(ringSize, r);
    FreshIsTiny();
    OneResize(ringSize, r, 0, s, h);
    s, h := Enqueue(s, Resize(r), []), Note(h, s, Resize(r), [], 0);
    SumOne(r);
    SumNone();
    OneResize(ringSize, r, 1, s, h);
    s, h := Enqueue(s, Resize(r), []), Note(h, s, Resize(r), [], 0);
    assert s.dropped == |r| && s.needMarker;
    OneResize(ringSize, r, 2, s, h);
    s, h := Enqueue(s, Resize(r), []), Note(h, s, Resize(r), [], 0);
    SumRecovery(2 * |r|, r);
    OneResize(ringSize, r, 3, s, h);
    s, h := Enqueue(s, Resize(r), []), Note(h, s, Resize(r), [], 0);
    OneResize(ringSize, r, 4, s, h);
    s, h := Enqueue(s, Resize(r), []), Note(h, s, Resize(r), [], 0);
    SumRecovery(Marker(2 * |r|).Size() + 2 * |r|, r);
  }

  lemma SumOne(r: Bytes)
    ensures Total([Resize(r)]) == |r| && Counts([Resize(r)]) == 0
  {
    TotalOne(Resize(r));
    assert [Resize(r)][1..] == [];
  }

  lemma SumNone()
    ensures Total([]) == 0 && Counts([]) == 0
  {}

  lemma SumRecovery(n: nat, r: Bytes)
    ensures Recovery(n, [], Resize(r)) == [Marker(n), Resize(r)]
    ensures Total([Marker(n), Resize(r)]) == Marker(n).Size() + |r| && Counts([Marker(n), Resize(r)]) == n
  {
    hide Total, Frame.Wire;
    var q := [Marker(n), Resize(r)];
    assert q == [Marker(n)] + [Resize(r)];
    TotalConcat([Marker(n)], [Resize(r)]);
    TotalOne(Marker(n));
    SumOne(r);
    assert q[1..] == [Resize(r)];
  }

  // ---- bytes that come twice ----

  /** Two resizes, the second of which pushed the first out, and then the letter A is written. */
  lemma LossAndWrite(ringSize: nat, r: Bytes) returns (s: Sub, h: History)
    requires |r| > 1
    ensures Run(Start(ringSize), Resizes(r, 2) + [Write(A)]) == Solo(ringSize, A, A, true, s, h)
    ensures Tiny(s) && s.needMarker && s.dropped + Total(s.queue) == 2 * |r| && h.got == []
  {
    hide Enqueue, Note, Run, Resizes, Start, Fresh, Tiny, Total, Counts, Recovery, Next;
    h := History([], [], 0, 0, 0, 0, false, 0);
    s := Fresh(1);
    NoResize(ringSize, r);
    FreshIsTiny();
    SumOne(r);
    SumNone();
    OneResize(ringSize, r, 0, s, h);
    s, h := Enqueue(s, Resize(r), []), Note(h, s, Resize(r), [], 0);
    OneResize(ringSize, r, 1, s, h);
    s, h := Enqueue(s, Resize(r), []), Note(h, s, Resize(r), [], 0);
    HubReaders.RunAppend(Start(ringSize), Resizes(r, 2), Write(A));
    Writes(ringSize, s, h);
  }

  /** The next flush brings the marker, the ring, which has the A already, and the A again. */
  lemma FlushAfterLossRepeats(ringSize: nat, r: Bytes) returns (s: Sub, h: History)
    requires |r| > 1 && ringSize > 0
    ensures Run(Start(ringSize), Resizes(r, 2) + [Write(A)] + [Tick]) == Solo(ringSize, A, [], false, s, h)
    ensures h.got == [] && s.queue == [Marker(2 * |r|), Catchup(A), Data(A)] && !s.needMarker
  {
    hide Enqueue, Note, Run, Resizes, Start, Tiny, Total, Counts, Next, Frame.Size;
    s, h := LossAndWrite(ringSize, r);
    HubReaders.RunAppend(Start(ringSize), Resizes(r, 2) + [Write(A)], Tick);
    Flushes(ringSize, A, A, s, h);
    RingOfOne(ringSize);
    Recovers(s, h, Data(A), A, 0);
    s, h := Enqueue(s, Data(A), A), Note(h, s, Data(A), A, 0);
    assert Recovery(2 * |r|, A, Data(A)) == [Marker(2 * |r|), Catchup(A), Data(A)];
  }

  lemma RingOfOne(ringSize: nat)
    requires ringSize > 0
    ensures LastN(A, ringSize) == A && Data(A).Size() > 0
  {}

  /** Into an empty channel any frame goes. */
  lemma Fits(s: Sub, h: History, f: Frame, snapshot: Bytes, start: nat)
    requires s.Valid() && !s.closed && !s.needMarker && s.queue == [] && f.Size() > 0
    ensures var t, h' := Enqueue(s, f, snapshot), Note(h, s, f, snapshot, start);
            t.queue == [f] && !t.needMarker && h'.got == h.got
  {
    hide Send, Total, Counts, Frame.Size, Sub.Valid;
    var k := SendTracked(s, f);
    assert [] + [f] == [f];
  }

  /** The steps of a resize right after the loss, of a reader that then takes everything, and of the next flush. */
  function ResizeFirst(r: Bytes): seq<Step> {
    Resizes(r, 2) + [Write(A)] + [Resized(r)] + [Receive(1)] + [Receive(1)] + [Receive(1)] + [Tick]
  }

  /** The reader has the marker and the ring with the A; no loss is due, and yet the A comes again. */
  lemma ResizeAfterLossRepeats(ringSize: nat, r: Bytes) returns (s: Sub, h: History)
    requires |r| > 1 && ringSize > 0
    ensures Run(Start(ringSize), ResizeFirst(r)) == Solo(ringSize, A, [], false, s, h)
    ensures h.got == [Marker(2 * |r|), Catchup(A), Resize(r)] && s.queue == [Data(A)] && !s.needMarker
  {
    hide Enqueue, Note, Run, Resizes, Start, Tiny, Total, Counts, Next, Frame.Size, Recovery;
    s, h := LossAndWrite(ringSize, r);
    var steps := Resizes(r, 2) + [Write(A)];
    HubReaders.RunAppend(Start(ringSize), steps, Resized(r));
    SendsResize(ringSize, A, A, true, s, h, r);
    RingOfOne(ringSize);
    ResizeSize(r);
    Recovers(s, h, Resize(r), A, 0);
    ThreeFrames(2 * |r|, Resize(r));
    s, h := Enqueue(s, Resize(r), A), Note(h, s, Resize(r), A, 0);
    s, h := TakesThree(ringSize, steps + [Resized(r)], s, h);
    HubReaders.RunAppend(Start(ringSize), steps + [Resized(r)] + [Receive(1)] + [Receive(1)] + [Receive(1)], Tick);
    Flushes(ringSize, A, A, s, h);
    Fits(s, h, Data(A), A, 0);
    s, h := Enqueue(s, Data(A), A), Note(h, s, Data(A), A, 0);
  }

  lemma ResizeSize(r: Bytes)
    ensures Resize(r).Size() == |r|
  {}

  lemma ThreeFrames(n: nat, f: Frame)
    ensures Recovery(n, A, f) == [Marker(n), Catchup(A), f]
  {}

  lemma TakesThree(ringSize: nat, steps: seq<Step>, s0: Sub, h0: History) returns (s: Sub, h: History)
    requires Run(Start(ringSize), steps) == Solo(ringSize, A, A, true, s0, h0)
    requires |s0.queue| == 3 && h0.got == [] && Tiny(s0) && !s0.needMarker
    ensures Run(Start(ringSize), steps + [Receive(1)] + [Receive(1)] + [Receive(1)]) == Solo(ringSize, A, A, true, s, h)
    ensures h.got == s0.queue && s.queue == [] && s.Valid() && !s.closed && !s.needMarker
  {
    hide Run, Start, Next, Frame.Size;
    s, h := s0, h0;
    HubReaders.RunAppend(Start(ringSize), steps, Receive(1));
    Receives(ringSize, A, A, true, s, h);
    s, h := s.(queue := s.queue[1..]), h.(got := h.got + [s.queue[0]]);
    HubReaders.RunAppend(Start(ringSize), steps + [Receive(1)], Receive(1));
    Receives(ringSize, A, A, true, s, h);
    s, h := s.(queue := s.queue[1..]), h.(got := h.got + [s.queue[0]]);
    HubReaders.RunAppend(Start(ringSize), steps + [Receive(1)] + [Receive(1)], Receive(1));
    Receives(ringSize, A, A, true, s, h);
    s, h := s.(queue := s.queue[1..]), h.(got := h.got + [s.queue[0]]);
  }
}
