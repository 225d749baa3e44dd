/**
 What becomes of the input: every byte is passed on, carried, held back for a transfer,
 or stands behind an image, and nothing held grows past its bound.
 */
module KittyLedger {
  import opened Bytes
  import opened Kitty
  import KittyStream

  predicate ValidPending(p: Pending) {
    (!p.active ==> p == IDLE) && |p.data| <= MAX_IMAGE
  }

  /** What every state between writes satisfies. */
  predicate Valid(s: State) {
    |s.carry| <= MAX_ENVELOPE && ValidPending(s.pending)
  }

  lemma SourcesConcat(a: seq<Piece>, b: seq<Piece>)
    ensures Sources(a + b) == Sources(a) + Sources(b)
  {
    if a == [] {
      assert a + b == b;
    } else {
      assert (a + b)[1..] == a[1..] + b;
      SourcesConcat(a[1..], b);
    }
  }

  lemma SourcesOne(p: Piece)
    ensures Sources([p]) == p.Source()
  {
    assert [p][1..] == [];
  }

  /** An envelope is added to what is held back; then part of that is given out, the rest kept. */
  lemma EnvelopeConserves(body: Bytes, original: Bytes, pend: Pending)
    requires ValidPending(pend)
    ensures var h := Envelope(body, original, pend);
            ValidPending(h.1) && pend.original + original == Sources(h.0) + h.1.original
  {
    hide ParseControl, SplitEnvelope, DecodePayload, SupportsContinuation, SupportsDirectPNG, More;
    var h := Envelope(body, original, pend);
    if h.0 != [] { SourcesOne(h.0[0]); assert h.0 == [h.0[0]]; }
  }

  lemma HandleConserves(wrapped: bool, framed: Bytes, pend: Pending)
    requires |framed| >= Lead(wrapped) + 2 && ValidPending(pend)
    ensures var h := Handle(wrapped, framed, pend);
            && ValidPending(h.1)
            && multiset(framed) + multiset(pend.original) == multiset(Sources(h.0)) + multiset(h.1.original)
  {
    hide Envelope, Sources;
    match Body(wrapped, framed) {
      case None => SourcesOne(Text(framed));
      case Some(body) =>
        EnvelopeConserves(body, framed, pend);
        assert multiset(pend.original + framed) == multiset(framed) + multiset(pend.original);
    }
  }

  lemma ScanSources(d: Bytes, pend: Pending)
    requires Frame(d).Closed?
    ensures var f := Frame(d);
            var h := Handle(f.wrapped, d[f.start..f.end], pend);
            Sources(Scan(d, pend).pieces) == d[..f.start] + Sources(h.0) + Sources(Scan(d[f.end..], h.1).pieces)
  {
    hide Frame, Handle, Sources;
    var f := Frame(d);
    var h := Handle(f.wrapped, d[f.start..f.end], pend);
    SourcesOne(Text(d[..f.start]));
    SourcesConcat([Text(d[..f.start])], h.0);
    SourcesConcat([Text(d[..f.start])] + h.0, Scan(d[f.end..], h.1).pieces);
  }

  lemma Regroup(pre: multiset<byte>, f: multiset<byte>, o: multiset<byte>, out: multiset<byte>, kept: multiset<byte>,
                post: multiset<byte>, rest: multiset<byte>, held: multiset<byte>)
    requires f + o == out + kept
    requires post + kept == rest + held
    ensures pre + f + post + o == pre + out + rest + held
  {
    forall b
      ensures (pre + f + post + o)[b] == (pre + out + rest + held)[b]
    {
      assert (f + o)[b] == (out + kept)[b] && (post + kept)[b] == (rest + held)[b];
    }
  }

  lemma ThreeParts(a: Bytes, b: Bytes, c: Bytes)
    ensures multiset(a + b + c) == multiset(a) + multiset(b) + multiset(c)
  {}

  predicate Balanced(d: Bytes, pend: Pending, r: Outcome) {
    multiset(d) + multiset(pend.original) == multiset(Sources(r.pieces)) + Held(r.state)
  }

  lemma {:induction false} ScanConserves(d: Bytes, pend: Pending)
    requires ValidPending(pend)
    ensures Valid(Scan(d, pend).state) && Balanced(d, pend, Scan(d, pend))
    decreases |d|
  {
    hide Frame, Handle, Sources, Scan, Balanced, ValidPending;
    match Frame(d) {
      case Closed(start, wrapped, end) =>
        var h := Handle(wrapped, d[start..end], pend);
        HandleConserves(wrapped, d[start..end], pend);
        ScanConserves(d[end..], h.1);
        ClosedBalances(d, pend);
        KittyStream.ScanStep(d, pend);
      case _ => LastBalances(d, pend);
    }
  }

  lemma LastBalances(d: Bytes, pend: Pending)
    requires ValidPending(pend) && !Frame(d).Closed?
    ensures Valid(Scan(d, pend).state) && Balanced(d, pend, Scan(d, pend))
  {
    hide Frame, Handle, Sources;
    SourcesOne(Text(d));
    if Frame(d).Open? {
      var start := Frame(d).start;
      SourcesOne(Text(d[..start]));
      assert d == d[..start] + d[start..];
    }
  }

  lemma ClosedBalances(d: Bytes, pend: Pending)
    requires Frame(d).Closed? && ValidPending(pend)
    requires var f := Frame(d);
             var h := Handle(f.wrapped, d[f.start..f.end], pend);
             Balanced(d[f.end..], h.1, Scan(d[f.end..], h.1))
    ensures Balanced(d, pend, Scan(d, pend))
  {
    hide Frame, Handle, Sources, Scan, Held;
    var f := Frame(d);
    var pre, framed, post := d[..f.start], d[f.start..f.end], d[f.end..];
    var h := Handle(f.wrapped, framed, pend);
    var rest := Scan(post, h.1);
    HandleConserves(f.wrapped, framed, pend);
    Regroup(multiset(pre), multiset(framed), multiset(pend.original), multiset(Sources(h.0)),
            multiset(h.1.original), multiset(post), multiset(Sources(rest.pieces)), Held(rest.state));
    assert d == pre + framed + post;
    ThreeParts(pre, framed, post);
    ThreeParts(pre, Sources(h.0), Sources(rest.pieces));
    ScanSources(d, pend);
    KittyStream.ScanStep(d, pend);
  }

  /** The input bytes written out as they are. */
  function Passed(ps: seq<Piece>): Bytes {
    if ps == [] then [] else (if ps[0].Text? then ps[0].bytes else []) + Passed(ps[1..])
  }

  /** The input bytes that images stand for. */
  function Replaced(ps: seq<Piece>): Bytes {
    if ps == [] then [] else (if ps[0].Image? then ps[0].source else []) + Replaced(ps[1..])
  }

  lemma SourcesSplit(ps: seq<Piece>)
    ensures multiset(Sources(ps)) == multiset(Passed(ps)) + multiset(Replaced(ps))
  {}

  /**
   Conservation over a write: the bytes that came in, with those already held, are the bytes
   that went through, those behind images, and those held now.
   */
  lemma WriteConserves(s: State, p: Bytes)
    requires Valid(s)
    ensures var w := Write(s, p);
            && Valid(w.state)
            && multiset(p) + Held(s) == multiset(Passed(w.pieces)) + multiset(Replaced(w.pieces)) + Held(w.state)
            && |p| + |s.carry| + |s.pending.original|
               == |Passed(w.pieces)| + |Replaced(w.pieces)| + |w.state.carry| + |w.state.pending.original|
  {
    hide Scan, Sources, Passed, Replaced;
    var w := Write(s, p);
    SourcesSplit(w.pieces);
    if p != [] {
      ScanConserves(s.carry + p, s.pending);
      assert multiset(s.carry + p) + multiset(s.pending.original) == multiset(p) + Held(s);
    } else {
      NoSources();
    }
    assert |multiset(p) + Held(s)| == |multiset(Passed(w.pieces)) + multiset(Replaced(w.pieces)) + Held(w.state)|;
  }

  /** All the pieces of one write after another. */
  function AllPieces(s: State, chunks: seq<Bytes>): seq<Piece>
    decreases |chunks|
  {
    if chunks == [] then [] else Write(s, chunks[0]).pieces + AllPieces(Write(s, chunks[0]).state, chunks[1..])
  }

  /** They are what the writes give out. */
  lemma {:induction false} AllPiecesRender(s: State, chunks: seq<Bytes>)
    ensures Render(AllPieces(s, chunks)) == KittyStream.WriteAll(s, chunks).0
    decreases |chunks|
  {
    hide Write;
    if chunks == [] {
      KittyStream.RenderNothing();
    } else {
      AllPiecesRender(Write(s, chunks[0]).state, chunks[1..]);
      KittyStream.RenderConcat(Write(s, chunks[0]).pieces, AllPieces(Write(s, chunks[0]).state, chunks[1..]));
    }
  }

  lemma {:induction false} PassedConcat(a: seq<Piece>, b: seq<Piece>)
    ensures Passed(a + b) == Passed(a) + Passed(b) && Replaced(a + b) == Replaced(a) + Replaced(b)
    decreases |a|
  {
    if a == [] {
      assert a + b == b;
    } else {
      assert (a + b)[1..] == a[1..] + b;
      PassedConcat(a[1..], b);
      SplitFirst(a);
      SplitFirst(a + b);
      hide Passed, Replaced;
      var p, r := if a[0].Text? then a[0].bytes else [], if a[0].Image? then a[0].source else [];
      assert p + Passed(a[1..]) + Passed(b) == p + (Passed(a[1..]) + Passed(b));
      assert r + Replaced(a[1..]) + Replaced(b) == r + (Replaced(a[1..]) + Replaced(b));
    }
  }

  lemma SplitFirst(ps: seq<Piece>)
    requires ps != []
    ensures Passed(ps) == (if ps[0].Text? then ps[0].bytes else []) + Passed(ps[1..])
    ensures Replaced(ps) == (if ps[0].Image? then ps[0].source else []) + Replaced(ps[1..])
  {}

  /** In, and held at first: through, behind images, and held at last. */
  predicate Conserved(p: Bytes, first: State, ps: seq<Piece>, last: State) {
    multiset(p) + Held(first) == multiset(Passed(ps)) + multiset(Replaced(ps)) + Held(last)
  }

  lemma ConservedOn(p: Bytes, q: Bytes, a: State, b: State, c: State, ps: seq<Piece>, qs: seq<Piece>)
    requires Conserved(p, a, ps, b) && Conserved(q, b, qs, c)
    ensures Conserved(p + q, a, ps + qs, c)
  {
    hide Passed, Replaced, Held;
    PassedConcat(ps, qs);
    forall x
      ensures (multiset(p + q) + Held(a))[x] == (multiset(Passed(ps + qs)) + multiset(Replaced(ps + qs)) + Held(c))[x]
    {
      assert (multiset(p) + Held(a))[x] == (multiset(Passed(ps)) + multiset(Replaced(ps)) + Held(b))[x];
      assert (multiset(q) + Held(b))[x] == (multiset(Passed(qs)) + multiset(Replaced(qs)) + Held(c))[x];
    }
  }

  lemma NothingConserved(s: State)
    ensures Conserved([], s, [], s)
  {}

  lemma SizesConserved(p: Bytes, first: State, ps: seq<Piece>, last: State)
    requires Conserved(p, first, ps, last)
    ensures |p| + |first.carry| + |first.pending.original|
            == |Passed(ps)| + |Replaced(ps)| + |last.carry| + |last.pending.original|
  {
    hide Passed, Replaced;
    assert |multiset(p) + Held(first)| == |multiset(Passed(ps)) + multiset(Replaced(ps)) + Held(last)|;
  }

  /** Conservation over any number of writes, wherever the input was cut. */
  lemma {:induction false} AllWritesConserve(s: State, chunks: seq<Bytes>)
    requires Valid(s)
    ensures var ps, last := AllPieces(s, chunks), KittyStream.WriteAll(s, chunks).1;
            && Valid(last) && Conserved(KittyStream.Concat(chunks), s, ps, last)
            && Render(ps) == KittyStream.WriteAll(s, chunks).0
            && |KittyStream.Concat(chunks)| + |s.carry| + |s.pending.original|
               == |Passed(ps)| + |Replaced(ps)| + |last.carry| + |last.pending.original|
    decreases |chunks|
  {
    AllPiecesRender(s, chunks);
    hide Write, Passed, Replaced, Conserved, Held, Render;
    if chunks == [] {
      NothingConserved(s);
    } else {
      var w := Write(s, chunks[0]);
      OneWriteConserves(s, chunks[0]);
      AllWritesConserve(w.state, chunks[1..]);
      ConservedOn(chunks[0], KittyStream.Concat(chunks[1..]), s, w.state, KittyStream.WriteAll(w.state, chunks[1..]).1,
                  w.pieces, AllPieces(w.state, chunks[1..]));
    }
    SizesConserved(KittyStream.Concat(chunks), s, AllPieces(s, chunks), KittyStream.WriteAll(s, chunks).1);
  }

  lemma OneWriteConserves(s: State, p: Bytes)
    requires Valid(s)
    ensures Valid(Write(s, p).state) && Conserved(p, s, Write(s, p).pieces, Write(s, p).state)
  {
    WriteConserves(s, p);
  }

  lemma NoSources()
    ensures Sources([]) == []
  {}

  function Held(s: State): multiset<byte> {
    multiset(s.carry) + multiset(s.pending.original)
  }

  // ---- when nothing is a PNG ----

  predicate StartsTransfer(wrapped: bool, framed: Bytes)
    requires |framed| >= Lead(wrapped) + 2
  {
    match Body(wrapped, framed)
    case None => false
    case Some(body) => SupportsDirectPNG(ParseControl(SplitEnvelope(body).0))
  }

  /** No whole envelope in `d` asks for a PNG. */
  predicate NoPNG(d: Bytes)
    decreases |d|
  {
    match Frame(d)
    case Closed(start, wrapped, end) => !StartsTransfer(wrapped, d[start..end]) && NoPNG(d[end..])
    case _ => true
  }

  /** Then the output and the carry are the input, byte for byte and in order. */
  lemma {:induction false} WithoutPNGNothingChanges(d: Bytes)
    requires NoPNG(d)
    ensures var r := Scan(d, IDLE);
            Render(r.pieces) + r.state.carry == d && r.state.pending == IDLE
    decreases |d|
  {
    hide Frame, Handle, Scan, Render, StartsTransfer;
    KittyStream.ScanStep(d, IDLE);
    match Frame(d) {
      case Plain =>
      case Open(start) => assert d[..start] + d[start..] == d;
      case Closed(start, wrapped, end) =>
        UntouchedEnvelope(wrapped, d[start..end]);
        WithoutPNGNothingChanges(d[end..]);
        assert d == d[..start] + d[start..end] + d[end..];
    }
  }

  /** No write comes upon a whole envelope that asks for a PNG. */
  predicate NeverPNG(s: State, chunks: seq<Bytes>)
    decreases |chunks|
  {
    chunks == [] || ((chunks[0] == [] || NoPNG(s.carry + chunks[0])) && NeverPNG(Write(s, chunks[0]).state, chunks[1..]))
  }

  /** Then the same holds of any number of writes, wherever the input was cut. */
  lemma {:induction false} NeverPNGNothingChanges(s: State, chunks: seq<Bytes>)
    requires s.pending == IDLE && NeverPNG(s, chunks)
    ensures var (out, last) := KittyStream.WriteAll(s, chunks);
            out + last.carry == s.carry + KittyStream.Concat(chunks) && last.pending == IDLE
    decreases |chunks|
  {
    hide NoPNG, Scan, Render;
    if chunks == [] {
      assert [] + s.carry == s.carry + [];
    } else {
      var p, w := chunks[0], Write(s, chunks[0]);
      KittyStream.RenderNothing();
      if p != [] { WithoutPNGNothingChanges(s.carry + p); }
      NeverPNGNothingChanges(w.state, chunks[1..]);
      var (out, last) := KittyStream.WriteAll(w.state, chunks[1..]);
      assert Render(w.pieces) + w.state.carry == s.carry + p;
      Onward(Render(w.pieces), w.state.carry, out, last.carry, s.carry, p, KittyStream.Concat(chunks[1..]));
    }
  }

  lemma Onward(a: Bytes, carry: Bytes, out: Bytes, last: Bytes, first: Bytes, p: Bytes, q: Bytes)
    requires a + carry == first + p && out + last == carry + q
    ensures a + out + last == first + (p + q)
  {
    assert a + out + last == a + (out + last) == a + carry + q == first + p + q;
  }

  lemma UntouchedEnvelope(wrapped: bool, framed: Bytes)
    requires |framed| >= Lead(wrapped) + 2 && !StartsTransfer(wrapped, framed)
    ensures Handle(wrapped, framed, IDLE).1 == IDLE && Render(Handle(wrapped, framed, IDLE).0) == framed
  {
    hide Body, ParseControl, SplitEnvelope, SupportsDirectPNG, Render;
    KittyStream.RenderText(framed);
  }
}
