/**
 Tmux passthrough and whole PNG transfers: wrapping is undone exactly, and an image sent in
 any number of envelopes comes out as the one inline image of its concatenated pieces.
 */
module KittyTransfer {
  import opened Bytes
  import opened Kitty
  import opened KittyStream
  import Base64

  // ---- tmux passthrough ----

  function DoubleEsc(x: Bytes): Bytes {
    if x == [] then []
    else (if x[0] == ESC then [ESC, ESC] else [x[0]]) + DoubleEsc(x[1..])
  }

  /** What tmux sends to pass `x` through to the outer terminal. */
  function TmuxWrap(x: Bytes): Bytes {
    TMUX + DoubleEsc(x) + ST
  }

  lemma {:induction false} PassthroughRoundTrip(x: Bytes, z: Bytes)
    requires ST <= z
    ensures PassthroughEnd(DoubleEsc(x) + z) == |DoubleEsc(x)|
  {
    hide PassthroughEnd;
    if x == [] {
      PassthroughStops(z);
      assert [] + z == z;
    } else {
      PassthroughRoundTrip(x[1..], z);
      var y := DoubleEsc(x[1..]) + z;
      PassthroughSkips(x[0], y);
      assert DoubleEsc(x) + z == (if x[0] == ESC then [ESC, ESC] else [x[0]]) + y;
    }
  }

  lemma PassthroughStops(z: Bytes)
    requires ST <= z
    ensures PassthroughEnd(z) == 0
  {
    assert z[0] == ST[0] && z[1] == ST[1];
  }

  lemma PassthroughSkips(b: byte, y: Bytes)
    requires PassthroughEnd(y) >= 0
    ensures b == ESC ==> PassthroughEnd([ESC, ESC] + y) == PassthroughEnd(y) + 2
    ensures b != ESC ==> PassthroughEnd([b] + y) == PassthroughEnd(y) + 1
  {
    assert ([ESC, ESC] + y)[2..] == y && ([b] + y)[1..] == y;
  }

  lemma {:induction false} UndoubleRoundTrip(x: Bytes)
    ensures Undouble(DoubleEsc(x)) == x
  {
    if x != [] {
      UndoubleRoundTrip(x[1..]);
      var b := DoubleEsc(x);
      assert b[if x[0] == ESC then 2 else 1..] == DoubleEsc(x[1..]);
      assert x == [x[0]] + x[1..];
      if x[0] != ESC { assert b[0] == x[0]; }
    }
  }

  /** Wrapping any bytes, whatever follows, is framed at its own end and unwraps to those bytes. */
  lemma TmuxRoundTrip(x: Bytes, r: Bytes)
    ensures var w := TmuxWrap(x);
            && Frame(w + r) == Closed(0, true, |w|)
            && Undouble(w[Lead(true)..|w| - 2]) == x
  {
    hide Index, PassthroughEnd, Undouble, DoubleEsc;
    var w := TmuxWrap(x);
    assert (w + r)[0..7] == TMUX;
    NextIs(w + r, 0, true);
    assert (w + r)[7..] == DoubleEsc(x) + (ST + r);
    PassthroughRoundTrip(x, ST + r);
    assert w[7..|w| - 2] == DoubleEsc(x);
    UndoubleRoundTrip(x);
  }

  // ---- one part of a transfer ----

  /** Text, and passthrough that carries something other than Kitty graphics. */
  predicate Foreign(gap: Bytes)
    decreases |gap|
  {
    match Frame(gap)
    case Plain => true
    case Open(_) => false
    case Closed(start, wrapped, end) => Body(wrapped, gap[start..end]) == None && Foreign(gap[end..])
  }

  /** The ESC of an envelope completes no introducer begun before it. */
  lemma EscEndsText(t: Bytes, d: Bytes)
    requires Frame(t).Plain? && d != [] && d[0] == ESC
    ensures Quiet(t + d, |t|)
  {
    hide OccursAt, Index, NextIntroducer;
    OccursInPrefix(t, d, KITTY);
    OccursInPrefix(t, d, TMUX);
    assert (t + d)[|t|] == ESC;
    forall i | 0 <= i < |t| ensures !IntroducerAt(t + d, i) {
      IntroducersApart(t + d, i, |t|);
      assert !IntroducerAt(t, i);
    }
  }

  /** What is foreign goes through as it is, even when it ends where an introducer might begin. */
  lemma {:induction false} ForeignGoesThrough(t: Bytes, d: Bytes, pend: Pending)
    requires Foreign(t) && d != [] && d[0] == ESC
    ensures Render(Scan(t + d, pend).pieces) == t + Render(Scan(d, pend).pieces)
    ensures Scan(t + d, pend).state == Scan(d, pend).state
    decreases |t|
  {
    hide Frame, Body, Scan, Render, Quiet;
    match Frame(t) {
      case Plain =>
        EscEndsText(t, d);
        ScanAfterText(t, d, pend);
      case Open(_) =>
      case Closed(start, wrapped, end) =>
        var framed, rest := t[start..end], t[end..];
        FrameAppend(t, d);
        assert (t + d)[start..end] == framed && (t + d)[end..] == rest + d && (t + d)[..start] == t[..start];
        ScanStep(t + d, pend);
        RenderText(framed);
        ForeignGoesThrough(rest, d, pend);
        Regrouped(t, start, end, Render(Scan(d, pend).pieces));
    }
  }

  lemma Regrouped(t: Bytes, start: nat, end: nat, r: Bytes)
    requires start <= end <= |t|
    ensures t[..start] + t[start..end] + (t[end..] + r) == t + r
  {}

  /** What stands before the envelope; its control text and payload; the piece of the image it carries. */
  datatype Part = Part(gap: Bytes, control: Bytes, payload: Bytes, piece: Bytes, wrapped: bool) {
    function Sequence(): Bytes {
      KITTY + control + [SEMICOLON] + payload + ST
    }
    function Framed(): Bytes {
      if wrapped then TmuxWrap(Sequence()) else Sequence()
    }
    /** Nothing before the envelope is Kitty graphics, and nothing inside the envelope ends it early. */
    predicate Framable() {
      && Foreign(gap)
      && (forall i :: 0 <= i < |control| ==> control[i] != ESC && control[i] != SEMICOLON)
      && (forall i :: 0 <= i < |payload| ==> payload[i] != ESC)
    }
    /** And the payload is the piece in base64, padded or not, in lines or not. */
    predicate Valid() {
      && Framable() && piece != []
      && var s := Base64.StripLineBreaks(payload);
         s == Base64.StdEncode(piece) || s == Base64.RawEncode(piece)
    }
    function Fields(): Control {
      ParseControl(control)
    }
  }

  lemma PayloadDecodes(payload: Bytes, piece: Bytes)
    requires piece != []
    requires var s := Base64.StripLineBreaks(payload);
             s == Base64.StdEncode(piece) || s == Base64.RawEncode(piece)
    ensures payload != [] && DecodePayload(payload) == Some(piece)
  {
    hide Base64.StdEncode, Base64.StdDecode, Base64.RawEncode, Base64.RawDecode;
    Base64.StdRoundTrip(piece);
    Base64.RawRoundTrip(piece);
    var s := Base64.StripLineBreaks(payload);
    if s != Base64.StdEncode(piece) { UnpaddedIsNotStd(piece); }
  }

  lemma UnpaddedIsNotStd(x: Bytes)
    ensures Base64.RawEncode(x) == Base64.StdEncode(x) || Base64.StdDecode(Base64.RawEncode(x)) == None
  {
    hide Base64.RawEncode, Base64.StdDecode;
    assert |x| % 3 == 0 ==> Base64.RawEncode(x) + [] == Base64.RawEncode(x);
  }

  /** A Kitty sequence without an ESC inside is framed by its own terminator. */
  lemma RawRoundTrip(body: Bytes, r: Bytes)
    requires forall i :: 0 <= i < |body| ==> body[i] != ESC
    ensures var k := KITTY + body + ST;
            Frame(k + r) == Closed(0, false, |k|)
  {
    hide Index, PassthroughEnd;
    var k := KITTY + body + ST;
    assert (k + r)[0..3] == KITTY;
    NextIs(k + r, 0, false);
    var rest := (k + r)[3..];
    assert rest == body + ST + r;
    assert rest[|body|..|body| + 2] == ST;
    forall i | 0 <= i < |body| ensures !OccursAt(rest, ST, i) { OccursByte(rest, ST, i, 0); }
    IndexUnique(rest, ST, |body|);
  }

  lemma SplitAt(control: Bytes, payload: Bytes)
    requires forall i :: 0 <= i < |control| ==> control[i] != SEMICOLON
    ensures SplitEnvelope(control + [SEMICOLON] + payload) == (control, payload)
  {
    hide IndexByte;
    var body := control + [SEMICOLON] + payload;
    assert body[|control|] == SEMICOLON;
    assert body[..|control|] == control && body[|control| + 1..] == payload;
  }

  /** A part is framed as a whole, and its body is its control text and payload. */
  lemma PartIsFramed(p: Part, r: Bytes)
    requires p.Framable()
    ensures Frame(p.Framed() + r) == Closed(0, p.wrapped, |p.Framed()|)
    ensures Body(p.wrapped, p.Framed()) == Some(p.control + [SEMICOLON] + p.payload)
    ensures SplitEnvelope(p.control + [SEMICOLON] + p.payload) == (p.control, p.payload)
  {
    hide Frame, Foreign, Undouble, SplitEnvelope;
    SplitAt(p.control, p.payload);
    var body := p.control + [SEMICOLON] + p.payload;
    var k := p.Sequence();
    assert k == KITTY + body + ST;
    assert k[3..|k| - 2] == body && k[|k| - 2..] == ST && k[..3] == KITTY;
    if p.wrapped { TmuxRoundTrip(k, r); } else { RawRoundTrip(body, r); }
  }

  lemma PartDecodes(p: Part)
    requires p.Valid()
    ensures p.Framable() && DecodePayload(p.payload) == Some(p.piece) && p.payload != [] && p.piece != []
  {
    hide DecodePayload, Base64.StripLineBreaks, Base64.StdEncode, Base64.RawEncode, Part.Framable;
    PayloadDecodes(p.payload, p.piece);
  }

  /** Scanning a part: its text out, then whatever its envelope becomes, then the rest. */
  lemma PartStep(p: Part, r: Bytes, pend: Pending)
    requires p.Framable()
    ensures var h := Envelope(p.control + [SEMICOLON] + p.payload, p.Framed(), pend);
            var rest := Scan(r, h.1);
            var all := Scan(p.gap + p.Framed() + r, pend);
            && Render(all.pieces) == p.gap + Render(h.0) + Render(rest.pieces)
            && all.state == rest.state
  {
    hide Frame, Body, Envelope, Scan, Render, Handle, Part.Framed, Part.Framable;
    var d := p.Framed() + r;
    GapGoesThrough(p, r, pend);
    PartIsFramed(p, r);
    FramedStep(p.wrapped, p.Framed(), r, pend);
    assert p.gap + p.Framed() + r == p.gap + d;
    HandleBody(p.wrapped, p.Framed(), p.control + [SEMICOLON] + p.payload, pend);
    var h := Handle(p.wrapped, p.Framed(), pend);
    assert p.gap + (Render(h.0) + Render(Scan(r, h.1).pieces)) == p.gap + Render(h.0) + Render(Scan(r, h.1).pieces);
  }

  lemma GapGoesThrough(p: Part, r: Bytes, pend: Pending)
    requires p.Framable()
    ensures Render(Scan(p.gap + (p.Framed() + r), pend).pieces) == p.gap + Render(Scan(p.Framed() + r, pend).pieces)
    ensures Scan(p.gap + (p.Framed() + r), pend).state == Scan(p.Framed() + r, pend).state
  {
    hide Scan, Render, Foreign, DoubleEsc;
    assert p.Framed()[0] == (if p.wrapped then TMUX else KITTY)[0];
    ForeignGoesThrough(p.gap, p.Framed() + r, pend);
  }

  lemma HandleBody(wrapped: bool, framed: Bytes, body: Bytes, pend: Pending)
    requires |framed| >= Lead(wrapped) + 2 && Body(wrapped, framed) == Some(body)
    ensures Handle(wrapped, framed, pend) == Envelope(body, framed, pend)
  {
    hide Body, Envelope;
  }

  lemma FramedStep(wrapped: bool, framed: Bytes, r: Bytes, pend: Pending)
    requires Frame(framed + r) == Closed(0, wrapped, |framed|)
    ensures |framed| >= Lead(wrapped) + 2
    ensures var h := Handle(wrapped, framed, pend);
            var rest, all := Scan(r, h.1), Scan(framed + r, pend);
            Render(all.pieces) == Render(h.0) + Render(rest.pieces) && all.state == rest.state
  {
    hide Frame, Handle, Scan, Render;
    var d := framed + r;
    ScanStep(d, pend);
    assert d[0..|framed|] == framed && d[|framed|..] == r && d[..0] == [];
    assert [] + Render(Handle(wrapped, framed, pend).0) == Render(Handle(wrapped, framed, pend).0);
  }

  // ---- a whole transfer ----

  function Stream(ps: seq<Part>): Bytes {
    if ps == [] then [] else ps[0].gap + ps[0].Framed() + Stream(ps[1..])
  }

  function Gaps(ps: seq<Part>): Bytes {
    if ps == [] then [] else ps[0].gap + Gaps(ps[1..])
  }

  function Pieces(ps: seq<Part>): Bytes {
    if ps == [] then [] else ps[0].piece + Pieces(ps[1..])
  }

  /** Every part continues the transfer, and exactly the last one ends it. */
  predicate Continues(ps: seq<Part>) {
    && ps != []
    && forall i :: 0 <= i < |ps| ==>
        ps[i].Valid() && SupportsContinuation(ps[i].Fields()) && (More(ps[i].Fields()) <==> i < |ps| - 1)
  }

  /** One direct PNG envelope, or a first one that asks for more and the parts that continue it. */
  predicate IsTransfer(ps: seq<Part>) {
    && ps != []
    && ps[0].Valid() && SupportsDirectPNG(ps[0].Fields())
    && if |ps| == 1 then !More(ps[0].Fields())
       else More(ps[0].Fields()) && Continues(ps[1..]) && |Pieces(ps)| <= MAX_IMAGE
  }

  /** `d` comes out as text, one image and the rest of the stream, and nothing else is changed. */
  predicate BecomesImage(d: Bytes, pend: Pending, text: Bytes, png: Bytes, r: Bytes) {
    var all, rest := Scan(d, pend), Scan(r, IDLE);
    Render(all.pieces) == text + BuildIIP(png) + Render(rest.pieces) && all.state == rest.state
  }

  lemma RenderImage(source: Bytes, png: Bytes)
    ensures Render([Image(source, png)]) == BuildIIP(png)
  {
    assert [Image(source, png)][1..] == [];
  }

  lemma {:induction false} ContinuationCompletes(ps: seq<Part>, original: Bytes, data: Bytes, r: Bytes)
    requires Continues(ps) && |data| + |Pieces(ps)| <= MAX_IMAGE
    ensures BecomesImage(Stream(ps) + r, Pending(true, original, data), Gaps(ps), data + Pieces(ps), r)
    decreases |ps|
  {
    hide ParseControl, Scan, Render, BuildIIP, DecodePayload, SplitEnvelope, SupportsContinuation, More, Part.Valid, Part.Framed, Foreign, Body;
    var p, pend := ps[0], Pending(true, original, data);
    var tail := Stream(ps[1..]) + r;
    assert Stream(ps) + r == p.gap + p.Framed() + tail;
    PartDecodes(p);
    hide Part.Framable;
    PartStep(p, tail, pend);
    PartIsFramed(p, tail);
    var all, data' := original + p.Framed(), data + p.piece;
    assert data + Pieces(ps) == data' + Pieces(ps[1..]);
    if |ps| > 1 {
      assert Continues(ps[1..]) by {
        assert forall i :: 0 <= i < |ps| - 1 ==> ps[1..][i] == ps[i + 1];
      }
      ContinuationCompletes(ps[1..], all, data', r);
      GapFirst(p.gap, Gaps(ps[1..]), BuildIIP(data' + Pieces(ps[1..])), Render(Scan(r, IDLE).pieces));
      RenderNothing();
    } else {
      assert ps[1..] == [] && tail == r;
      assert data' + [] == data' && p.gap + [] == p.gap;
      RenderImage(all, data');
    }
  }

  lemma GapFirst(a: Bytes, b: Bytes, c: Bytes, d: Bytes)
    ensures a + [] + (b + c + d) == a + b + c + d
  {}

  /** What the first envelope of a transfer becomes. */
  lemma FirstEnvelope(p: Part)
    requires p.Valid() && SupportsDirectPNG(p.Fields())
    ensures var h := Envelope(p.control + [SEMICOLON] + p.payload, p.Framed(), IDLE);
            if !More(p.Fields()) then h == ([Image(p.Framed(), p.piece)], IDLE)
            else |p.piece| <= MAX_IMAGE ==> h == ([], Pending(true, p.Framed(), p.piece))
  {
    hide ParseControl, DecodePayload, SplitEnvelope, SupportsDirectPNG, More, Part.Valid, Part.Framed;
    PartDecodes(p);
    hide Part.Framable;
    PartIsFramed(p, []);
    assert [] + p.piece == p.piece;
  }

  /**
   A PNG cut into pieces, each sent in its own envelope, comes out as exactly one inline image of
   the whole, after the text found between the envelopes.
   */
  lemma TransferBecomesOneImage(ps: seq<Part>, r: Bytes)
    requires IsTransfer(ps)
    ensures BecomesImage(Stream(ps) + r, IDLE, Gaps(ps), Pieces(ps), r)
  {
    hide ParseControl, Envelope, Scan, Render, BuildIIP, SupportsDirectPNG, More, Continues, Part.Valid, Part.Framed;
    var p := ps[0];
    var tail := Stream(ps[1..]) + r;
    assert Stream(ps) + r == p.gap + p.Framed() + tail;
    PartDecodes(p);
    hide Part.Framable;
    PartStep(p, tail, IDLE);
    FirstEnvelope(p);
    if |ps| > 1 {
      ContinuationCompletes(ps[1..], p.Framed(), p.piece, r);
      RenderNothing();
      GapFirst(p.gap, Gaps(ps[1..]), BuildIIP(Pieces(ps)), Render(Scan(r, IDLE).pieces));
    } else {
      assert ps[1..] == [] && tail == r;
      assert p.piece + [] == p.piece && p.gap + [] == p.gap;
      RenderImage(p.Framed(), p.piece);
    }
  }

  // ---- a transfer that breaks off ----

  function Originals(ps: seq<Part>): Bytes {
    if ps == [] then [] else ps[0].Framed() + Originals(ps[1..])
  }

  /** Parts that continue a transfer and ask for more. */
  predicate AllContinue(ps: seq<Part>) {
    forall i :: 0 <= i < |ps| ==> ps[i].Valid() && SupportsContinuation(ps[i].Fields()) && More(ps[i].Fields())
  }

  /** An envelope that does not continue a transfer with `data`: other fields, a bad payload, or too long an image. */
  predicate Breaks(bad: Part, data: Bytes) {
    && bad.Framable()
    && (!SupportsContinuation(bad.Fields()) || Accumulate(data, bad.payload) == None)
  }

  /** `d` comes out as text, the envelopes as they were, and the rest of the stream. */
  predicate ComesBack(d: Bytes, pend: Pending, text: Bytes, originals: Bytes, r: Bytes) {
    var all, rest := Scan(d, pend), Scan(r, IDLE);
    Render(all.pieces) == text + originals + Render(rest.pieces) && all.state == rest.state
  }

  lemma BreakFlushes(bad: Part, original: Bytes, data: Bytes, r: Bytes)
    requires Breaks(bad, data)
    ensures ComesBack(bad.gap + bad.Framed() + r, Pending(true, original, data), bad.gap, original + bad.Framed(), r)
  {
    hide ParseControl, SplitEnvelope, SupportsContinuation, Accumulate, Scan, Render, Part.Framable, Part.Framed;
    PartStep(bad, r, Pending(true, original, data));
    PartIsFramed(bad, r);
    RenderText(original + bad.Framed());
  }

  /** One continuing part is added to what is held. */
  lemma ContinueStep(p: Part, original: Bytes, data: Bytes)
    requires p.Valid() && SupportsContinuation(p.Fields()) && More(p.Fields()) && |data| + |p.piece| <= MAX_IMAGE
    ensures Envelope(p.control + [SEMICOLON] + p.payload, p.Framed(), Pending(true, original, data))
            == ([], Pending(true, original + p.Framed(), data + p.piece))
  {
    hide ParseControl, DecodePayload, SplitEnvelope, SupportsContinuation, More, Part.Valid, Part.Framed, Part.Framable;
    PartDecodes(p);
    PartIsFramed(p, []);
  }

  lemma {:induction false} BreakAfter(ps: seq<Part>, bad: Part, original: Bytes, data: Bytes, r: Bytes)
    requires AllContinue(ps) && |data| + |Pieces(ps)| <= MAX_IMAGE && Breaks(bad, data + Pieces(ps))
    ensures ComesBack(Stream(ps) + (bad.gap + bad.Framed() + r), Pending(true, original, data),
                      Gaps(ps) + bad.gap, original + Originals(ps) + bad.Framed(), r)
    decreases |ps|
  {
    hide Breaks, Envelope, Scan, Render, SupportsContinuation, More, Part.Valid, Part.Framed, Part.Framable, ParseControl, SplitEnvelope;
    var end := bad.gap + bad.Framed() + r;
    if ps == [] {
      assert data + [] == data && [] + end == end && [] + bad.gap == bad.gap && original + [] == original;
      BreakFlushes(bad, original, data, r);
    } else {
      var p, rest := ps[0], ps[1..];
      var tail := Stream(rest) + end;
      assert Stream(ps) + end == p.gap + p.Framed() + tail;
      PartDecodes(p);
      PartStep(p, tail, Pending(true, original, data));
      ContinueStep(p, original, data);
      RestContinues(ps);
      assert data + Pieces(ps) == data + p.piece + Pieces(rest);
      hide AllContinue;
      BreakAfter(rest, bad, original + p.Framed(), data + p.piece, r);
      RenderNothing();
      SixParts(p.gap, Gaps(rest), bad.gap, original, p.Framed(), Originals(rest), bad.Framed(), Render(Scan(r, IDLE).pieces));
    }
  }

  lemma RestContinues(ps: seq<Part>)
    requires ps != [] && AllContinue(ps)
    ensures AllContinue(ps[1..])
  {
    assert forall i :: 0 <= i < |ps| - 1 ==> ps[1..][i] == ps[i + 1];
  }

  lemma SixParts(g: Bytes, gs: Bytes, last: Bytes, o: Bytes, f: Bytes, os: Bytes, bad: Bytes, rest: Bytes)
    ensures g + [] + (gs + last + (o + f + os + bad) + rest) == g + gs + last + (o + (f + os) + bad) + rest
  {
    assert o + f + os + bad == o + (f + os) + bad;
    assert g + [] + (gs + last + (o + f + os + bad) + rest) == g + (gs + last + (o + f + os + bad) + rest);
  }

  /**
   A transfer that is broken off by an envelope that does not continue it comes back as it was: first the
   text that stood between the envelopes, then every envelope, in order, the one that broke it included.
   */
  lemma BrokenTransferComesBack(ps: seq<Part>, bad: Part, r: Bytes)
    requires ps != [] && ps[0].Valid() && SupportsDirectPNG(ps[0].Fields()) && More(ps[0].Fields())
    requires AllContinue(ps[1..]) && |Pieces(ps)| <= MAX_IMAGE && Breaks(bad, Pieces(ps))
    ensures ComesBack(Stream(ps) + (bad.gap + bad.Framed() + r), IDLE, Gaps(ps) + bad.gap, Originals(ps) + bad.Framed(), r)
  {
    hide Breaks, AllContinue, Envelope, Scan, Render, SupportsDirectPNG, More, Part.Valid, Part.Framed, Part.Framable;
    var p, rest := ps[0], ps[1..];
    var end := bad.gap + bad.Framed() + r;
    var tail := Stream(rest) + end;
    assert Stream(ps) + end == p.gap + p.Framed() + tail;
    PartDecodes(p);
    PartStep(p, tail, IDLE);
    FirstEnvelope(p);
    BreakAfter(rest, bad, p.Framed(), p.piece, r);
    RenderNothing();
    SixParts(p.gap, Gaps(rest), bad.gap, [], p.Framed(), Originals(rest), bad.Framed(), Render(Scan(r, IDLE).pieces));
    assert [] + p.Framed() == p.Framed() && [] + (p.Framed() + Originals(rest)) == Originals(ps);
  }

  /** Sending the image whole instead gives the same output. */
  lemma TransferIsOneEnvelope(ps: seq<Part>, one: Part, r: Bytes)
    requires IsTransfer(ps) && IsTransfer([one])
    requires one.gap == Gaps(ps) && one.piece == Pieces(ps)
    ensures var many, single := Scan(Stream(ps) + r, IDLE), Scan(Stream([one]) + r, IDLE);
            Render(many.pieces) == Render(single.pieces) && many.state == single.state
  {
    hide IsTransfer, Stream, Gaps, Pieces, Scan, Render, BuildIIP;
    TransferBecomesOneImage(ps, r);
    TransferBecomesOneImage([one], r);
    JustOne(one);
  }

  lemma JustOne(one: Part)
    ensures Pieces([one]) == one.piece && Gaps([one]) == one.gap
  {
    assert [one][1..] == [];
    assert one.piece + [] == one.piece && one.gap + [] == one.gap;
  }

  /** A transfer written to a fresh transcoder in any chunks with safe cuts: text, one image, nothing left behind. */
  lemma TransferInChunks(ps: seq<Part>, chunks: seq<Bytes>)
    requires IsTransfer(ps) && Concat(chunks) == Stream(ps)
    requires SafeCuts(State([], IDLE), chunks)
    ensures WriteAll(State([], IDLE), chunks) == (Gaps(ps) + BuildIIP(Pieces(ps)), State([], IDLE))
  {
    hide IsTransfer, Stream, Gaps, Pieces, Scan, Render, BuildIIP, SafeCuts, WriteAll, Concat;
    ChunkingIndependence(State([], IDLE), chunks);
    TransferBecomesOneImage(ps, []);
    StreamNotEmpty(ps);
    EmptyScan();
    var d := Stream(ps);
    assert d + [] == d && [] + d == d;
    assert Gaps(ps) + BuildIIP(Pieces(ps)) + [] == Gaps(ps) + BuildIIP(Pieces(ps));
  }

  lemma StreamNotEmpty(ps: seq<Part>)
    requires IsTransfer(ps)
    ensures Stream(ps) != []
  {
    hide Part.Valid, SupportsDirectPNG, More, Continues;
    assert |ps[0].Framed()| > 0;
  }

  lemma EmptyScan()
    ensures Render(Scan([], IDLE).pieces) == [] && Scan([], IDLE).state == State([], IDLE)
  {
    ScanStep([], IDLE);
  }
}
