/**
 Where the hub's output comes from: over any run it is what the transcoder makes of everything written
 to the hub while it was open, in order, and the transcoder's state is the one it is left in.
 */
module HubStream {
  import opened Bytes
  import opened HubSpec
  import opened HubReaders
  import opened HubRuns
  import Kitty
  import KittyLedger
  import KittyStream

  /** What is written before the hub is closed. */
  function Inputs(steps: seq<Step>): seq<Bytes> {
    if steps == [] || steps[0].Close? then []
    else (if steps[0].Write? then [steps[0].p] else []) + Inputs(steps[1..])
  }

  /** A step other than a write leaves the stream and the transcoder alone; only a close closes. */
  lemma OtherSteps(w: World, step: Step)
    requires !w.core.closed && !step.Write?
    ensures var c := Next(w, step).core;
            c.stream == w.core.stream && c.kitty == w.core.kitty && (c.closed <==> step.Close?)
  {
    FlushAside(w.core);
    hide Flush, Note, NoteAll, NoteFlush, NewSub, Broadcast;
    if step.Resized? { BroadcastAside(w.core, Subscribers.Resize(step.frame)); }
  }

  lemma BroadcastAside(c: Core, f: Subscribers.Frame)
    ensures var d := Broadcast(c, f); d.stream == c.stream && d.kitty == c.kitty && d.closed == c.closed
  {}

  lemma FlushAside(c: Core)
    ensures var d := Flush(c); d.stream == c.stream && d.kitty == c.kitty && d.closed == c.closed
  {
    BroadcastAside(c.(coalesce := [], timer := false), Subscribers.Data(c.coalesce));
    hide Broadcast;
  }

  /** A write puts out what the transcoder makes of it, and keeps what the transcoder keeps. */
  lemma WriteStep(w: World, p: Bytes)
    requires !w.core.closed
    ensures var c, k := Next(w, Step.Write(p)).core, Kitty.Write(w.core.kitty, p);
            c.stream == w.core.stream + Kitty.Render(k.pieces) && c.kitty == k.state && !c.closed
  {
    hide Flush, Note, NoteAll, NoteFlush, Kitty.Scan, Kitty.Render;
    KittyStream.RenderNothing();
    var c, k := w.core, Kitty.Write(w.core.kitty, p);
    var out := Kitty.Render(k.pieces);
    FlushAside(c.(kitty := k.state, stream := c.stream + out, coalesce := c.coalesce + out));
    assert c.stream + [] == c.stream;
  }

  lemma ClosedStep(w: World, step: Step)
    requires w.core.closed
    ensures var c := Next(w, step).core; c.stream == w.core.stream && c.kitty == w.core.kitty && c.closed
  {
    FlushAside(w.core);
    hide Flush, Note, NoteAll, NoteFlush, NewSub;
  }

  lemma {:induction false} ClosedRun(w: World, steps: seq<Step>)
    requires w.core.closed
    ensures var c := Run(w, steps).core; c.stream == w.core.stream && c.kitty == w.core.kitty
    decreases |steps|
  {
    hide Next;
    if steps != [] {
      ClosedStep(w, steps[0]);
      ClosedRun(Next(w, steps[0]), steps[1..]);
    }
  }

  lemma {:induction false} RunWrites(w: World, steps: seq<Step>)
    requires !w.core.closed
    ensures var c, all := Run(w, steps).core, KittyStream.WriteAll(w.core.kitty, Inputs(steps));
            c.stream == w.core.stream + all.0 && c.kitty == all.1
    decreases |steps|
  {
    hide Next, Kitty.Write, Kitty.Render;
    if steps == [] {
      assert w.core.stream + [] == w.core.stream;
    } else {
      var w', rest := Next(w, steps[0]), Inputs(steps[1..]);
      match steps[0] {
        case Write(p) =>
          WriteStep(w, p);
          RunWrites(w', steps[1..]);
          assert ([p] + rest)[0] == p && ([p] + rest)[1..] == rest;
          Appended(w.core.stream, Kitty.Render(Kitty.Write(w.core.kitty, p).pieces), KittyStream.WriteAll(w'.core.kitty, rest).0);
        case Close =>
          OtherSteps(w, steps[0]);
          ClosedRun(w', steps[1..]);
          assert w.core.stream + [] == w.core.stream;
        case _ =>
          OtherSteps(w, steps[0]);
          RunWrites(w', steps[1..]);
          assert [] + rest == rest;
      }
    }
  }

  lemma Appended(a: Bytes, b: Bytes, c: Bytes)
    ensures a + b + c == a + (b + c)
  {}

  /** In every run: the hub has put out what the transcoder made of all that was written to it while open, and nothing else. */
  lemma StreamIsWritten(ringSize: nat, steps: seq<Step>)
    ensures var c := Run(Start(ringSize), steps).core;
            (c.stream, c.kitty) == KittyStream.WriteAll(Kitty.State([], Kitty.IDLE), Inputs(steps))
  {
    hide Run;
    RunWrites(Start(ringSize), steps);
    var out := KittyStream.WriteAll(Kitty.State([], Kitty.IDLE), Inputs(steps)).0;
    assert [] + out == out;
  }

  /** However the terminal's output was cut into writes, as long as the cuts are safe, the stream is that of one write. */
  lemma SafelyCutStream(ringSize: nat, steps: seq<Step>)
    requires KittyStream.SafeCuts(Kitty.State([], Kitty.IDLE), Inputs(steps))
    ensures var c := Run(Start(ringSize), steps).core;
            var one := Kitty.Write(Kitty.State([], Kitty.IDLE), KittyStream.Concat(Inputs(steps)));
            c.stream == Kitty.Render(one.pieces) && c.kitty == one.state
  {
    hide Run, Inputs, KittyStream.SafeCuts, KittyStream.WriteAll, KittyStream.Concat, Kitty.Write, Kitty.Render;
    StreamIsWritten(ringSize, steps);
    KittyStream.ChunkingIndependence(Kitty.State([], Kitty.IDLE), Inputs(steps));
  }

  /**
   No byte written to the hub is lost or invented on its way into the stream, however it was cut: the stream is
   the rendering of pieces whose bytes passed on and behind images, with those still carried or held, are those written.
   */
  lemma StreamConserves(ringSize: nat, steps: seq<Step>) returns (ps: seq<Kitty.Piece>)
    ensures var c, written := Run(Start(ringSize), steps).core, KittyStream.Concat(Inputs(steps));
            && c.stream == Kitty.Render(ps) && KittyLedger.Valid(c.kitty)
            && multiset(written)
               == multiset(KittyLedger.Passed(ps)) + multiset(KittyLedger.Replaced(ps)) + KittyLedger.Held(c.kitty)
            && |written| == |KittyLedger.Passed(ps)| + |KittyLedger.Replaced(ps)| + |c.kitty.carry| + |c.kitty.pending.original|
  {
    hide Run, Inputs, KittyStream.WriteAll, KittyStream.Concat, Kitty.Write, Kitty.Render, KittyLedger.Passed, KittyLedger.Replaced;
    var s := Kitty.State([], Kitty.IDLE);
    StreamIsWritten(ringSize, steps);
    KittyLedger.AllWritesConserve(s, Inputs(steps));
    ps := KittyLedger.AllPieces(s, Inputs(steps));
    assert KittyLedger.Held(s) == multiset{};
  }

  /** Without a PNG in sight, the stream and what the transcoder carries are exactly what was written. */
  lemma PlainStream(ringSize: nat, steps: seq<Step>)
    requires KittyLedger.NeverPNG(Kitty.State([], Kitty.IDLE), Inputs(steps))
    ensures var c := Run(Start(ringSize), steps).core;
            c.stream + c.kitty.carry == KittyStream.Concat(Inputs(steps)) && c.kitty.pending == Kitty.IDLE
  {
    hide Run, Inputs, KittyStream.WriteAll, KittyStream.Concat, KittyLedger.NeverPNG;
    StreamIsWritten(ringSize, steps);
    KittyLedger.NeverPNGNothingChanges(Kitty.State([], Kitty.IDLE), Inputs(steps));
    assert [] + KittyStream.Concat(Inputs(steps)) == KittyStream.Concat(Inputs(steps));
  }

  lemma {:induction false} RunConcat(w: World, a: seq<Step>, b: seq<Step>)
    ensures Run(w, a + b) == Run(Run(w, a), b)
    decreases |a|
  {
    hide Next;
    if a == [] {
      assert [] + b == b;
    } else {
      assert (a + b)[1..] == a[1..] + b;
      RunConcat(Next(w, a[0]), a[1..], b);
    }
  }

  lemma RunThree(w: World, before: seq<Step>, step: Step, after: seq<Step>)
    ensures Run(w, before + [step] + after) == Run(Next(Run(w, before), step), after)
  {
    hide Next;
    RunConcat(w, before + [step], after);
    RunAppend(w, before, step);
  }

  /**
   From the terminal to the reader: without a PNG in sight, a reader that subscribed from `k` inside the window and lost
   nothing has, with what is queued, not yet flushed and carried for the next write, the bytes written from the `k`th on.
   */
  lemma ReaderSeesWritten(ringSize: nat, before: seq<Step>, cap: int, k: nat, after: seq<Step>)
    requires var w := Run(Start(ringSize), before);
             !w.core.closed && |w.core.stream| - |w.core.Snapshot()| <= k <= |w.core.stream|
    requires var w, id := Run(Start(ringSize), before), Run(Start(ringSize), before).core.nextID + 1;
             var w' := Run(Next(w, Step.SubscribeFrom(cap, k)), after);
             id in w'.clients && HasSub(w', id) ==>
               !w'.clients[id].left && !SubOf(w', id).needMarker && NoMarker(w'.clients[id].got + SubOf(w', id).queue)
    requires KittyLedger.NeverPNG(Kitty.State([], Kitty.IDLE), Inputs(before + [Step.SubscribeFrom(cap, k)] + after))
    ensures var w, id := Run(Start(ringSize), before), Run(Start(ringSize), before).core.nextID + 1;
            var w' := Run(Next(w, Step.SubscribeFrom(cap, k)), after);
            var written := KittyStream.Concat(Inputs(before + [Step.SubscribeFrom(cap, k)] + after));
            && id in w'.clients && HasSub(w', id) && k <= |written|
            && var h := w'.clients[id];
               h.prefix + DataOf(h.got) + DataOf(SubOf(w', id).queue) + w'.core.coalesce + w'.core.kitty.carry == written[k..]
  {
    hide Run, Next, Inputs, DataOf, NoMarker, HasSub, SubOf, Core.Snapshot, KittyLedger.NeverPNG, KittyStream.Concat;
    ResumesFrom(ringSize, before, cap, k, after);
    var steps := before + [Step.SubscribeFrom(cap, k)] + after;
    PlainStream(ringSize, steps);
    RunThree(Start(ringSize), before, Step.SubscribeFrom(cap, k), after);
    var c := Run(Start(ringSize), steps).core;
    CarriedBehind(c.stream, c.kitty.carry, k);
  }

  lemma CarriedBehind(stream: Bytes, carry: Bytes, k: nat)
    requires k <= |stream|
    ensures (stream + carry)[k..] == stream[k..] + carry
  {}
}
