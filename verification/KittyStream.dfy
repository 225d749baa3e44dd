/**
 Cutting the input into writes. The output and the state after two writes are those
 of one write of both exactly when the cut is safe: it does not fall inside an
 introducer and leaves no oversized open envelope behind.
 */
module KittyStream {
  import opened Bytes
  import opened Kitty

  // ---- introducers and framing ----

  /** An introducer has its only ESC in front, so two of them cannot overlap. */
  lemma IntroducersApart(d: Bytes, i: int, j: int)
    requires 0 <= i < j < |d| && d[j] == ESC
    ensures OccursAt(d, KITTY, i) ==> i + |KITTY| <= j
    ensures OccursAt(d, TMUX, i) ==> i + |TMUX| <= j
  {
    assert OccursAt(d, KITTY, i) ==> forall k :: i < k < i + 3 ==> d[k] == d[i..i + 3][k - i] != ESC;
    assert OccursAt(d, TMUX, i) ==> forall k :: i < k < i + 7 ==> d[k] == d[i..i + 7][k - i] != ESC;
  }

  lemma IntroducerEsc(d: Bytes, i: int)
    requires IntroducerAt(d, i)
    ensures 0 <= i < |d| && d[i] == ESC
    ensures !(OccursAt(d, KITTY, i) && OccursAt(d, TMUX, i))
  {
    if OccursAt(d, KITTY, i) {
      assert d[i..i + 3][0] == KITTY[0] && d[i..i + 3][1] == KITTY[1];
    }
    if OccursAt(d, TMUX, i) {
      assert d[i..i + 7][0] == TMUX[0] && d[i..i + 7][1] == TMUX[1];
    }
  }

  lemma NextIs(d: Bytes, start: nat, wrapped: bool)
    requires OccursAt(d, Opening(wrapped), start)
    requires forall i :: 0 <= i < start ==> !IntroducerAt(d, i)
    ensures NextIntroducer(d) == At(start, wrapped)
  {
    hide OccursAt, Index;
    IntroducerEsc(d, start);
    assert IntroducerAt(d, start);
    var r := NextIntroducer(d);
    assert IntroducerAt(d, r.start);
  }

  function Shift(f: Framing, n: nat): Framing {
    match f
    case Plain => Plain
    case Open(start) => Open(start + n)
    case Closed(start, wrapped, end) => Closed(start + n, wrapped, end + n)
  }

  /** No introducer starts in the first `n` bytes of `d`. */
  predicate Quiet(d: Bytes, n: nat) {
    forall i :: 0 <= i < n ==> !IntroducerAt(d, i)
  }

  lemma NextAfterText(t: Bytes, d: Bytes)
    requires Quiet(t + d, |t|)
    ensures NextIntroducer(t + d) ==
            match NextIntroducer(d)
            case Absent => Absent
            case At(start, wrapped) => At(|t| + start, wrapped)
  {
    hide OccursAt, Index, NextIntroducer;
    OccursInSuffix(t, d, KITTY);
    OccursInSuffix(t, d, TMUX);
    forall i | i >= 0 ensures IntroducerAt(t + d, i) ==> IntroducerAt(d, i - |t|) {
      assert i >= |t| ==> (IntroducerAt(t + d, |t| + (i - |t|)) <==> IntroducerAt(d, i - |t|));
    }
    assert NextIntroducer(t + d).At? ==> IntroducerAt(t + d, NextIntroducer(t + d).start);
    match NextIntroducer(d) {
      case Absent =>
      case At(start, wrapped) => NextIs(t + d, |t| + start, wrapped);
    }
  }

  lemma FrameAfterText(t: Bytes, d: Bytes)
    requires Quiet(t + d, |t|)
    ensures Frame(t + d) == Shift(Frame(d), |t|)
  {
    hide OccursAt, IntroducerAt, Index, BodyLength, NextIntroducer;
    NextAfterText(t, d);
    if NextIntroducer(d).At? {
      var At(start, wrapped) := NextIntroducer(d);
      assert (t + d)[|t| + start + Lead(wrapped)..] == d[start + Lead(wrapped)..];
    }
  }

  lemma RenderConcat(a: seq<Piece>, b: seq<Piece>)
    ensures Render(a + b) == Render(a) + Render(b)
  {
    if a == [] {
      assert a + b == b;
    } else {
      assert (a + b)[1..] == a[1..] + b;
      RenderConcat(a[1..], b);
    }
  }

  lemma RenderNothing()
    ensures Render([]) == []
  {}

  lemma RenderText(t: Bytes)
    ensures Render([Text(t)]) == t
  {
    assert [Text(t)][1..] == [];
  }

  /** What one step of a scan writes out and leaves behind. */
  lemma ScanStep(d: Bytes, pend: Pending)
    ensures Frame(d).Plain? ==>
              Render(Scan(d, pend).pieces) == d && Scan(d, pend).state == State([], pend)
    ensures Frame(d).Open? ==>
              var start := Frame(d).start;
              if |d| - start > MAX_ENVELOPE then
                Render(Scan(d, pend).pieces) == d && Scan(d, pend).state == State([], pend)
              else
                Render(Scan(d, pend).pieces) == d[..start] && Scan(d, pend).state == State(d[start..], pend)
    ensures Frame(d).Closed? ==>
              var f := Frame(d);
              var h := Handle(f.wrapped, d[f.start..f.end], pend);
              var rest := Scan(d[f.end..], h.1);
              && Scan(d, pend).state == rest.state
              && Render(Scan(d, pend).pieces) == d[..f.start] + Render(h.0) + Render(rest.pieces)
  {
    hide Frame, Handle, Render;
    match Frame(d) {
      case Plain => RenderText(d);
      case Open(start) => RenderText(d); RenderText(d[..start]);
      case Closed(start, wrapped, end) =>
        var (ps, pend') := Handle(wrapped, d[start..end], pend);
        var rest := Scan(d[end..], pend');
        RenderText(d[..start]);
        RenderConcat([Text(d[..start])], ps);
        RenderConcat([Text(d[..start])] + ps, rest.pieces);
    }
  }

  /** Text with no introducer goes straight through. */
  lemma ScanAfterText(t: Bytes, d: Bytes, pend: Pending)
    requires Quiet(t + d, |t|)
    ensures Render(Scan(t + d, pend).pieces) == t + Render(Scan(d, pend).pieces)
    ensures Scan(t + d, pend).state == Scan(d, pend).state
  {
    hide Quiet, Frame, Handle, Scan, Render, IntroducerAt, OccursAt;
    FrameAfterText(t, d);
    match Frame(d) {
      case Plain => ScanStep(d, pend); ScanStep(t + d, pend);
      case Open(start) =>
        ScanStep(d, pend);
        ScanStep(t + d, pend);
        assert (t + d)[..|t| + start] == t + d[..start];
        assert (t + d)[|t| + start..] == d[start..];
      case Closed(_, _, _) => ScanClosedAfterText(t, d, pend);
    }
  }

  lemma ScanClosedAfterText(t: Bytes, d: Bytes, pend: Pending)
    requires Frame(d).Closed? && Frame(t + d) == Shift(Frame(d), |t|)
    ensures Render(Scan(t + d, pend).pieces) == t + Render(Scan(d, pend).pieces)
    ensures Scan(t + d, pend).state == Scan(d, pend).state
  {
    hide Frame, Handle, Scan, Render;
    var start, end := Frame(d).start, Frame(d).end;
    ScanStep(d, pend);
    ScanStep(t + d, pend);
    assert (t + d)[|t| + start..|t| + end] == d[start..end];
    assert (t + d)[|t| + end..] == d[end..];
    assert (t + d)[..|t| + start] == t + d[..start];
    var h := Handle(Frame(d).wrapped, d[start..end], pend);
    FourParts(t, d[..start], Render(h.0), Render(Scan(d[end..], h.1).pieces));
  }

  lemma FourParts(a: Bytes, b: Bytes, c: Bytes, d: Bytes)
    ensures a + (b + c + d) == a + b + c + d
  {}

  // ---- more input behind ----

  lemma PassthroughEndAppend(body: Bytes, q: Bytes)
    requires PassthroughEnd(body) >= 0
    ensures PassthroughEnd(body + q) == PassthroughEnd(body)
  {
    if !(body[0] == ESC && body[1] == ST[1]) {
      var skip := if body[0] == ESC && body[1] == ESC then 2 else 1;
      assert (body + q)[skip..] == body[skip..] + q;
      PassthroughEndAppend(body[skip..], q);
    }
  }

  lemma NextAppend(d: Bytes, q: Bytes)
    requires NextIntroducer(d).At?
    ensures NextIntroducer(d + q) == NextIntroducer(d)
  {
    var At(start, wrapped) := NextIntroducer(d);
    OccursInPrefix(d, q, KITTY);
    OccursInPrefix(d, q, TMUX);
    IntroducerEsc(d, start);
    hide OccursAt, Index, NextIntroducer;
    forall i | 0 <= i < start ensures !IntroducerAt(d + q, i) {
      if IntroducerAt(d + q, i) {
        IntroducersApart(d + q, i, start);
      }
    }
    NextIs(d + q, start, wrapped);
  }

  /** A closed envelope stays as it is whatever follows. */
  lemma FrameAppend(d: Bytes, q: Bytes)
    requires Frame(d).Closed?
    ensures Frame(d + q) == Frame(d)
  {
    hide OccursAt, NextIntroducer, Index, PassthroughEnd;
    NextAppend(d, q);
    var f := Frame(d);
    var lead := f.start + Lead(f.wrapped);
    assert (d + q)[lead..] == d[lead..] + q;
    if f.wrapped { PassthroughEndAppend(d[lead..], q); } else { IndexAppend(d[lead..], q, ST); }
  }

  // ---- safe cuts ----

  /** What is left of a buffer after its last closed envelope. */
  function Tail(d: Bytes): (t: Bytes)
    ensures !Frame(t).Closed?
    decreases |d|
  {
    match Frame(d)
    case Closed(_, _, end) => Tail(d[end..])
    case _ => d
  }

  /** `d` ends with the first `k` bytes of introducer `p`, and more are needed. */
  predicate EndsInside(d: Bytes, p: Bytes, k: int) {
    0 < k < |p| && k <= |d| && d[|d| - k..] == p[..k]
  }

  predicate EndsInsideIntroducer(d: Bytes) {
    || (exists k | 0 < k < |KITTY| :: EndsInside(d, KITTY, k))
    || (exists k | 0 < k < |TMUX| :: EndsInside(d, TMUX, k))
  }

  predicate SafeTail(t: Bytes) {
    match Frame(t)
    case Open(start) => |t| - start <= MAX_ENVELOPE
    case _ => !EndsInsideIntroducer(t)
  }

  /** Writing `p` in state `s` leaves nothing behind that a later write would need. */
  predicate SafeCut(s: State, p: Bytes) {
    p == [] || SafeTail(Tail(s.carry + p))
  }

  /** Writing `p` and then `q` is writing both at once. */
  predicate Joins(s: State, p: Bytes, q: Bytes) {
    var one := Write(s, p);
    var two := Write(one.state, q);
    var both := Write(s, p + q);
    Render(one.pieces) + Render(two.pieces) == Render(both.pieces) && two.state == both.state
  }

  predicate ScanJoins(d: Bytes, q: Bytes, pend: Pending) {
    var one := Scan(d, pend);
    var two := Scan(one.state.carry + q, one.state.pending);
    var both := Scan(d + q, pend);
    Render(one.pieces) + Render(two.pieces) == Render(both.pieces) && two.state == both.state
  }

  lemma QuietPrefix(t: Bytes, q: Bytes)
    requires Frame(t) == Plain && !EndsInsideIntroducer(t)
    ensures Quiet(t + q, |t|)
  {
    OccursInPrefix(t, q, KITTY);
    OccursInPrefix(t, q, TMUX);
    forall i | 0 <= i < |t| ensures !IntroducerAt(t + q, i) {
      if IntroducerAt(t + q, i) {
        assert !IntroducerAt(t, i);
        var p := if OccursAt(t + q, KITTY, i) then KITTY else TMUX;
        var k := |t| - i;
        assert k < |p|;
        assert (t + q)[i..i + |p|][..k] == t[i..];
        assert EndsInside(t, p, k);
      }
    }
  }

  lemma QuietBeforeOpen(d: Bytes, q: Bytes)
    requires Frame(d).Open?
    ensures var start := Frame(d).start; Quiet(d[..start] + (d[start..] + q), start)
  {
    hide Index, OccursAt, BodyLength;
    NextAppend(d, q);
    var start := Frame(d).start;
    assert d[..start] + (d[start..] + q) == d + q;
  }

  lemma {:induction false} SafeScanJoins(d: Bytes, q: Bytes, pend: Pending)
    requires SafeTail(Tail(d))
    ensures ScanJoins(d, q, pend)
    decreases |d|
  {
    hide OccursAt, EndsInsideIntroducer, Quiet, Frame, Handle, Scan, Render;
    ScanStep(d, pend);
    match Frame(d) {
      case Plain =>
        QuietPrefix(d, q);
        ScanAfterText(d, q, pend);
        assert [] + q == q;
      case Open(start) =>
        QuietBeforeOpen(d, q);
        ScanAfterText(d[..start], d[start..] + q, pend);
        assert d[..start] + (d[start..] + q) == d + q;
      case Closed(start, wrapped, end) =>
        FrameAppend(d, q);
        assert (d + q)[..start] == d[..start] && (d + q)[start..end] == d[start..end];
        assert (d + q)[end..] == d[end..] + q;
        ScanStep(d + q, pend);
        var (_, pend') := Handle(wrapped, d[start..end], pend);
        SafeScanJoins(d[end..], q, pend');
    }
  }

  /** The input that shows an unsafe tail to be unsafe: the rest of the introducer, or a new one. */
  ghost function Exposing(t: Bytes): (q: Bytes)
    requires !SafeTail(t)
    ensures q != []
  {
    if Frame(t).Open? then KITTY
    else if exists k :: EndsInside(t, KITTY, k) then
      var k :| EndsInside(t, KITTY, k); KITTY[k..]
    else
      var k :| EndsInside(t, TMUX, k); TMUX[k..]
  }

  /** A tail cut inside an introducer: one write would have carried it. */
  lemma SplitIntroducer(t: Bytes, p: Bytes, k: int, pend: Pending)
    requires Frame(t) == Plain && EndsInside(t, p, k) && (p == KITTY || p == TMUX)
    ensures Scan(t + p[k..], pend).state.carry == p
    ensures Scan(p[k..], pend).state.carry == []
  {
    hide OccursAt, Index, NextIntroducer, Frame, Scan, Render, Handle;
    SplitFrames(t, p, k);
    SplitOccurs(t, p, k);
    var v, i := p[k..], |t| - k;
    ScanStep(t + v, pend);
    ScanStep(v, pend);
  }

  lemma SplitFrames(t: Bytes, p: Bytes, k: int)
    requires Frame(t) == Plain && EndsInside(t, p, k) && (p == KITTY || p == TMUX)
    ensures Frame(t + p[k..]) == Open(|t| - k)
    ensures Frame(p[k..]) == Plain
  {
    hide OccursAt, Index, NextIntroducer, PassthroughEnd;
    var v, i := p[k..], |t| - k;
    SplitOccurs(t, p, k);
    forall j | 0 <= j < i ensures !IntroducerAt(t + v, j) {
      OccursInPrefix(t, v, KITTY);
      OccursInPrefix(t, v, TMUX);
      assert !IntroducerAt(t, j);
      IntroducersApart(t + v, j, i);
    }
    NextIs(t + v, i, p == TMUX);
    assert (t + v)[i + |p|..] == [];
    NothingEmpty();
    assert NextIntroducer(v).At? ==> IntroducerAt(v, NextIntroducer(v).start);
  }

  lemma NothingEmpty()
    ensures BodyLength([], true) == BodyLength([], false) == -1
  {}

  lemma SplitOccurs(t: Bytes, p: Bytes, k: int)
    requires EndsInside(t, p, k) && (p == KITTY || p == TMUX)
    ensures (t + p[k..])[|t| - k..] == p
    ensures OccursAt(t + p[k..], p, |t| - k) && (t + p[k..])[|t| - k] == ESC
    ensures forall j :: !IntroducerAt(p[k..], j)
  {
    var v, i := p[k..], |t| - k;
    assert (t + v)[i..] == t[i..] + v == p;
    forall j ensures !IntroducerAt(v, j) {
      if IntroducerAt(v, j) { IntroducerEsc(v, j); }
    }
  }

  lemma SkipsInto(body: Bytes, q: Bytes, n: nat)
    requires |body| < n <= |body| + |q|
    ensures (body + q)[n..] == [] + q[n - |body|..]
  {}

  lemma NothingIsOpen()
    ensures PassthroughEnd([]) < 0
  {}

  /** Bytes without a backslash close nothing. */
  lemma PassthroughStaysOpen(body: Bytes, q: Bytes)
    requires PassthroughEnd(body) < 0 && forall i :: 0 <= i < |q| ==> q[i] != ST[1]
    ensures PassthroughEnd(body + q) < 0
    decreases |body| + |q|
  {
    var b := body + q;
    if |b| >= 2 {
      var skip := if b[0] == ESC && b[1] == ESC then 2 else 1;
      if |body| >= skip {
        assert b[skip..] == body[skip..] + q;
        PassthroughStaysOpen(body[skip..], q);
      } else {
        var q' := q[skip - |body|..];
        SkipsInto(body, q, skip);
        NothingIsOpen();
        PassthroughStaysOpen([], q');
      }
    }
  }

  lemma RawStaysOpen(body: Bytes, q: Bytes)
    requires Index(body, ST) < 0 && forall i :: 0 <= i < |q| ==> q[i] != ST[1]
    ensures Index(body + q, ST) < 0
  {
    hide Index;
    OccursInPrefix(body, q, ST);
    OccursByte(body + q, ST, Index(body + q, ST), 1);
  }

  /** An oversized open envelope: written out at once, but not forgotten by a single write. */
  lemma OversizedTail(t: Bytes, pend: Pending)
    requires Frame(t).Open? && |t| - Frame(t).start > MAX_ENVELOPE
    ensures Scan(t + KITTY, pend).state.carry == []
    ensures Scan(KITTY, pend).state.carry == KITTY
  {
    OpenStaysOpen(t);
    KittyAlone();
    hide Frame, Scan, Render, Handle;
    ScanStep(t + KITTY, pend);
    ScanStep(KITTY, pend);
    assert KITTY[0..] == KITTY;
  }

  lemma OpenStaysOpen(t: Bytes)
    requires Frame(t).Open?
    ensures Frame(t + KITTY) == Frame(t)
  {
    hide OccursAt, Index, NextIntroducer, BodyLength;
    NextAppend(t, KITTY);
    var At(start, wrapped) := NextIntroducer(t);
    var lead := start + Lead(wrapped);
    assert (t + KITTY)[lead..] == t[lead..] + KITTY;
    StaysOpen(t[lead..], wrapped);
  }

  lemma StaysOpen(rest: Bytes, wrapped: bool)
    requires BodyLength(rest, wrapped) < 0
    ensures BodyLength(rest + KITTY, wrapped) < 0
  {
    hide Index, PassthroughEnd, OccursAt;
    if wrapped { PassthroughStaysOpen(rest, KITTY); } else { RawStaysOpen(rest, KITTY); }
  }

  lemma KittyAlone()
    ensures Frame(KITTY) == Open(0)
  {
    assert KITTY[0..3] == KITTY;
    NextIs(KITTY, 0, false);
    NothingEmpty();
    assert KITTY[3..] == [];
  }

  lemma ExposingRest(t: Bytes)
    requires !SafeTail(t)
    ensures Frame(t).Open? ==> Exposing(t) == KITTY && |t| - Frame(t).start > MAX_ENVELOPE
    ensures Frame(t).Plain? ==>
              exists p, k :: (p == KITTY || p == TMUX) && EndsInside(t, p, k) && Exposing(t) == p[k..]
  {
    hide Frame;
  }

  predicate CarryDiffers(d: Bytes, q: Bytes, pend: Pending) {
    var one := Scan(d, pend);
    Scan(d + q, pend).state.carry != Scan(one.state.carry + q, one.state.pending).state.carry
  }

  lemma UnsafeTailSplits(t: Bytes, pend: Pending)
    requires !SafeTail(t) && !Frame(t).Closed?
    ensures CarryDiffers(t, Exposing(t), pend)
  {
    hide Frame, Handle, Scan, Render, SafeTail, Exposing;
    ExposingRest(t);
    ScanStep(t, pend);
    assert [] + Exposing(t) == Exposing(t);
    if Frame(t).Open? {
      OversizedTail(t, pend);
    } else {
      var p, k :| (p == KITTY || p == TMUX) && EndsInside(t, p, k) && Exposing(t) == p[k..];
      SplitIntroducer(t, p, k, pend);
    }
  }

  lemma {:induction false} UnsafeScanSplits(d: Bytes, pend: Pending)
    requires !SafeTail(Tail(d))
    ensures CarryDiffers(d, Exposing(Tail(d)), pend)
    decreases |d|
  {
    hide Frame, Handle, Scan, Render, SafeTail, Exposing;
    match Frame(d) {
      case Closed(start, wrapped, end) =>
        var q := Exposing(Tail(d));
        FrameAppend(d, q);
        assert (d + q)[start..end] == d[start..end] && (d + q)[end..] == d[end..] + q;
        ScanStep(d, pend);
        ScanStep(d + q, pend);
        UnsafeScanSplits(d[end..], Handle(wrapped, d[start..end], pend).1);
      case _ =>
        UnsafeTailSplits(d, pend);
    }
  }

  /**
   Chunking independence for one cut, in both directions: after `p`, every continuation
   joins if and only if the cut is safe.
   */
  lemma CutIsSafeIffItJoins(s: State, p: Bytes)
    ensures SafeCut(s, p) <==> forall q :: Joins(s, p, q)
  {
    if SafeCut(s, p) {
      forall q ensures Joins(s, p, q) {
        SafeCutJoins(s, p, q);
      }
    } else {
      UnsafeCutSplits(s, p);
    }
  }

  lemma UnsafeCutSplits(s: State, p: Bytes)
    requires !SafeCut(s, p)
    ensures !Joins(s, p, Exposing(Tail(s.carry + p)))
  {
    hide SafeTail, Tail, Scan, Render, Exposing;
    var d := s.carry + p;
    var q := Exposing(Tail(d));
    UnsafeScanSplits(d, s.pending);
    assert d + q == s.carry + (p + q);
  }

  lemma SafeCutJoins(s: State, p: Bytes, q: Bytes)
    requires SafeCut(s, p)
    ensures Joins(s, p, q)
  {
    hide SafeTail, Tail, Scan, Render;
    RenderNothing();
    if p == [] {
      assert p + q == q;
    } else if q == [] {
      assert p + q == p;
      assert Write(Write(s, p).state, q).pieces == [];
    } else {
      var d := s.carry + p;
      SafeScanJoins(d, q, s.pending);
      assert d + q == s.carry + (p + q);
    }
  }

  // ---- any number of writes ----

  function Concat(chunks: seq<Bytes>): Bytes {
    if chunks == [] then [] else chunks[0] + Concat(chunks[1..])
  }

  /** One write after another: all the output, and the last state. */
  function WriteAll(s: State, chunks: seq<Bytes>): (Bytes, State)
    decreases |chunks|
  {
    if chunks == [] then ([], s)
    else
      var one := Write(s, chunks[0]);
      var (out, last) := WriteAll(one.state, chunks[1..]);
      (Render(one.pieces) + out, last)
  }

  predicate SafeCuts(s: State, chunks: seq<Bytes>)
    decreases |chunks|
  {
    |chunks| <= 1 || (SafeCut(s, chunks[0]) && SafeCuts(Write(s, chunks[0]).state, chunks[1..]))
  }

  /** However the input is cut, as long as every cut is safe, the result is that of one write. */
  lemma {:induction false} ChunkingIndependence(s: State, chunks: seq<Bytes>)
    requires SafeCuts(s, chunks)
    ensures var all := Write(s, Concat(chunks));
            WriteAll(s, chunks) == (Render(all.pieces), all.state)
    decreases |chunks|
  {
    if chunks != [] {
      var one := Write(s, chunks[0]);
      if |chunks| == 1 {
        assert chunks[1..] == [];
        assert chunks[0] + [] == chunks[0] && Render(one.pieces) + [] == Render(one.pieces);
      } else {
        ChunkingIndependence(one.state, chunks[1..]);
        SafeCutJoins(s, chunks[0], Concat(chunks[1..]));
      }
    }
  }
}
