/** The transcoder as the source runs it: buffers extended in place, loops over bytes. */
module KittyTranscoder {
  import opened Bytes
  import opened Kitty
  import KittyStream

  /** `parseKittyControl`. */
  method ReadControl(text: Bytes) returns (c: Control)
    ensures c == ParseControl(text)
  {
    var items := Split(text, COMMA);
    c := map[];
    for i := 0 to |items|
      invariant c == ControlOf(items[..i])
    {
      var eq := IndexByte(items[i], EQUALS);
      if eq > 0 {
        c := c[items[i][..eq] := items[i][eq + 1..]];
      }
      assert items[..i + 1][..i] == items[..i];
    }
    assert items[..|items|] == items;
  }

  /** The first loop of `unwrapTmuxPassthrough`: look for the terminator, stepping over doubled ESCs. */
  method FindPassthroughEnd(data: Bytes, bodyStart: nat) returns (bodyEnd: int)
    requires bodyStart <= |data|
    ensures bodyEnd == PassthroughFrom(data, bodyStart)
  {
    hide PassthroughFrom;
    var i := bodyStart;
    while i < |data| - 1
      invariant bodyStart <= i <= |data|
      invariant PassthroughFrom(data, i) == PassthroughFrom(data, bodyStart)
    {
      PassthroughStep(data, i);
      if data[i] == ESC && data[i + 1] == ST[1] {
        return i;
      }
      i := i + if data[i] == ESC && data[i + 1] == ESC then 2 else 1;
    }
    PassthroughStep(data, i);
    return -1;
  }

  /** `PassthroughEnd` of the buffer from `i` on, as an index into the buffer. */
  function PassthroughFrom(data: Bytes, i: nat): int
    requires i <= |data|
  {
    var r := PassthroughEnd(data[i..]);
    if r < 0 then -1 else i + r
  }

  lemma PassthroughStep(data: Bytes, i: nat)
    requires i <= |data|
    ensures i >= |data| - 1 ==> PassthroughFrom(data, i) == -1
    ensures i < |data| - 1 ==>
              PassthroughFrom(data, i) ==
              if data[i] == ESC && data[i + 1] == ST[1] then i
              else PassthroughFrom(data, i + if data[i] == ESC && data[i + 1] == ESC then 2 else 1)
  {
    if i < |data| - 1 {
      var skip := if data[i] == ESC && data[i + 1] == ESC then 2 else 1;
      assert data[i..][skip..] == data[i + skip..];
    }
  }

  /** Its second loop: one ESC for every two. */
  method UndoubleBytes(body: Bytes) returns (inner: Bytes)
    ensures inner == Undouble(body)
  {
    hide Undouble;
    inner := [];
    var i := 0;
    assert body[0..] == body;
    while i < |body|
      invariant 0 <= i <= |body|
      invariant inner + Undouble(body[i..]) == Undouble(body)
    {
      UndoubleStep(body, i);
      if body[i] == ESC && i + 1 < |body| && body[i + 1] == ESC {
        Appended(inner, [ESC], Undouble(body[i + 2..]));
        inner := inner + [ESC];
        i := i + 2;
      } else {
        Appended(inner, [body[i]], Undouble(body[i + 1..]));
        inner := inner + [body[i]];
        i := i + 1;
      }
    }
    UndoubleNothing();
    assert body[i..] == [] && inner + [] == inner;
  }

  lemma Appended(a: Bytes, b: Bytes, c: Bytes)
    ensures a + b + c == a + (b + c)
  {}

  lemma UndoubleNothing()
    ensures Undouble([]) == []
  {}

  lemma UndoubleStep(body: Bytes, i: nat)
    requires i < |body|
    ensures Undouble(body[i..]) == if body[i] == ESC && i + 1 < |body| && body[i + 1] == ESC
                                   then [ESC] + Undouble(body[i + 2..]) else [body[i]] + Undouble(body[i + 1..])
  {
    var rest := body[i..];
    assert rest[1..] == body[i + 1..];
    if i + 1 < |body| {
      assert rest[1] == body[i + 1] && rest[2..] == body[i + 2..];
    }
  }

  /** `unwrapTmuxPassthrough`: the unwrapped bytes and the index after the terminator. */
  method UnwrapTmuxPassthrough(data: Bytes, start: nat) returns (inner: Bytes, end: int, ok: bool)
    requires start + 7 <= |data|
    ensures ok <==> PassthroughFrom(data, start + 7) >= 0
    ensures ok ==> end == PassthroughFrom(data, start + 7) + 2 <= |data| && inner == Undouble(data[start + 7..end - 2])
  {
    hide PassthroughEnd, Undouble;
    var bodyStart := start + |TMUX|;
    var bodyEnd := FindPassthroughEnd(data, bodyStart);
    if bodyEnd < 0 {
      return [], 0, false;
    }
    inner := UndoubleBytes(data[bodyStart..bodyEnd]);
    return inner, bodyEnd + |ST|, true;
  }

  class Transcoder {
    var carry: Bytes
    var pending: Pending

    function Current(): State
      reads this
    {
      State(carry, pending)
    }

    constructor ()
      ensures Current() == State([], IDLE)
    {
      carry, pending := [], IDLE;
    }

    /** `flushPendingOriginal`. */
    method FlushPendingOriginal() returns (out: Bytes)
      modifies this`pending
      ensures out == old(pending).original && pending == IDLE
    {
      out := pending.original;
      pending := IDLE;
    }

    /** `finishPending`. */
    method FinishPending() returns (out: Bytes)
      modifies this`pending
      ensures out == Finish(old(pending).original, old(pending).data).Render() && pending == IDLE
    {
      var original, decoded := pending.original, pending.data;
      pending := IDLE;
      if |decoded| == 0 {
        return original;
      }
      out := BuildIIP(decoded);
    }

    method TranscodeEnvelope(body: Bytes, original: Bytes) returns (out: Bytes)
      modifies this`pending
      ensures var h := Envelope(body, original, old(pending)); out == Render(h.0) && pending == h.1
    {
      hide BuildIIP, ParseControl, SplitEnvelope, DecodePayload, SupportsDirectPNG, SupportsContinuation, More;
      var (text, payload) := SplitEnvelope(body);
      var control := ReadControl(text);
      var more := More(control);
      if pending.active {
        pending := pending.(original := pending.original + original);
        if !SupportsContinuation(control) {
          out := FlushPendingOriginal();
          KittyStream.RenderText(out);
          return;
        }
        if |payload| > 0 {
          var decoded := DecodePayload(payload);
          if decoded.None? || |pending.data| + |decoded.value| > MAX_IMAGE {
            out := FlushPendingOriginal();
            KittyStream.RenderText(out);
            return;
          }
          pending := pending.(data := pending.data + decoded.value);
        }
        if more {
          return [];
        }
        RenderOne(Finish(pending.original, pending.data));
        out := FinishPending();
        return;
      }
      KittyStream.RenderText(original);
      if !SupportsDirectPNG(control) {
        return original;
      }
      if more {
        pending := Pending(true, original, []);
        if |payload| > 0 {
          var decoded := DecodePayload(payload);
          if decoded.None? || |decoded.value| > MAX_IMAGE {
            out := FlushPendingOriginal();
            return;
          }
          pending := pending.(data := decoded.value);
          assert [] + decoded.value == decoded.value;
        }
        return [];
      }
      if |payload| == 0 {
        NoPayload();
        return original;
      }
      var decoded := DecodePayload(payload);
      if decoded.None? {
        return original;
      }
      RenderOne(Image(original, decoded.value));
      return BuildIIP(decoded.value);
    }

    /** `transcodeCompleteKitty`: what to put in place of a passthrough envelope, if anything. */
    method TranscodeCompleteKitty(seqn: Bytes, original: Bytes) returns (replacement: Bytes, changed: bool)
      requires original != []
      modifies this`pending
      ensures KITTY <= seqn && HasSuffix(seqn, ST) ==>
                |seqn| >= 5 &&
                var h := Envelope(seqn[3..|seqn| - 2], original, old(pending));
                pending == h.1 && (if changed then replacement else original) == Render(h.0)
      ensures !(KITTY <= seqn && HasSuffix(seqn, ST)) ==> !changed && pending == old(pending)
    {
      hide Envelope, Render;
      if !(KITTY <= seqn) || !HasSuffix(seqn, ST) {
        return [], false;
      }
      InnerIsLong(seqn);
      var out := TranscodeEnvelope(seqn[3..|seqn| - 2], original);
      if |out| == 0 && pending.active {
        return [], true;
      }
      if out == original {
        return [], false;
      }
      return out, true;
    }

    /** A framed passthrough envelope: its replacement, or itself. */
    method ReplaceWrapped(framed: Bytes, inner: Bytes) returns (out: Bytes)
      requires |framed| >= 9 && inner == Undouble(framed[7..|framed| - 2])
      modifies this`pending
      ensures var h := Handle(true, framed, old(pending)); out == Render(h.0) && pending == h.1
    {
      hide Envelope, Render, Undouble;
      KittyStream.RenderText(framed);
      var replacement, changed := TranscodeCompleteKitty(inner, framed);
      out := if changed then replacement else framed;
    }

    /** The end of a write that leaves an envelope open: carry it, or give it up once it is too long. */
    method LeaveOpen(data: Bytes, cursor: nat, start: nat) returns (last: Bytes)
      requires cursor <= start <= |data| && carry == []
      modifies this`carry
      ensures if |data| - start > MAX_ENVELOPE then last == data[cursor..] && carry == []
              else last == data[cursor..start] && carry == data[start..]
    {
      last := data[cursor..start];
      if |data[start..]| > MAX_ENVELOPE {
        assert data[cursor..start] + data[start..] == data[cursor..];
        return last + data[start..];
      }
      carry := carry + data[start..];
    }

    method Write(p: Bytes) returns (out: Bytes)
      modifies this
      ensures var w := Kitty.Write(old(Current()), p);
              out == Render(w.pieces) && Current() == w.state
    {
      hide Index, OccursAt, PassthroughEnd, Undouble, Handle, Envelope, Scan, Render, NextIntroducer, Progress, Frame, PassthroughFrom, Kitty.Write;
      WriteScans(Current(), p);
      if |p| == 0 {
        KittyStream.RenderNothing();
        return [];
      }
      var data := if |carry| > 0 then carry + p else p;
      assert data == carry + p;
      carry := [];
      ghost var pend := pending;
      Starts(data, pend);
      var next := NextIntroducer(data);
      if next.Absent? {
        Finishes(data, pend, [], data, pend);
        return data;
      }
      out := [];
      var cursor := 0;
      assert data[0..] == data;
      while true
        invariant 0 <= cursor <= |data| && carry == []
        invariant Progress(data, pend, out, data[cursor..], pending)
        decreases |data| - cursor
      {
        next := NextIntroducer(data[cursor..]);
        if next.Absent? {
          Finishes(data, pend, out, data[cursor..], pending);
          return out + data[cursor..];
        }
        var start := cursor + next.start;
        if next.wrapped {
          Framed(data, cursor, next, PassthroughFrom(data, start + 7));
          var inner, end, ok := UnwrapTmuxPassthrough(data, start);
          if !ok {
            Ends(data, pend, out, cursor, next.start, pending);
            var last := LeaveOpen(data, cursor, start);
            return out + last;
          }
          Advances(data, pend, out, cursor, start, end, true, pending);
          Within(data, start, end, 7);
          var replacement := ReplaceWrapped(data[start..end], inner);
          out := out + data[cursor..start] + replacement;
          cursor := end;
        } else {
          var bodyStart := start + |KITTY|;
          var endRel := Index(data[bodyStart..], ST);
          Framed(data, cursor, next, if endRel < 0 then -1 else bodyStart + endRel);
          if endRel < 0 {
            Ends(data, pend, out, cursor, next.start, pending);
            var last := LeaveOpen(data, cursor, start);
            return out + last;
          }
          var bodyEnd := bodyStart + endRel;
          var end := bodyEnd + |ST|;
          Advances(data, pend, out, cursor, start, end, false, pending);
          PlainBody(data, start, end, pending);
          var replacement := TranscodeEnvelope(data[bodyStart..bodyEnd], data[start..end]);
          out := out + data[cursor..start] + replacement;
          cursor := end;
        }
      }
    }
  }

  lemma WriteScans(s: State, p: Bytes)
    ensures Kitty.Write(s, p) == if p == [] then Outcome([], s) else Scan(s.carry + p, s.pending)
  {}

  /** The framing the loop finds is the one of the specification. */
  lemma Framed(d: Bytes, cursor: nat, next: Introducer, bodyEnd: int)
    requires cursor <= |d| && next == NextIntroducer(d[cursor..]) && next.At?
    requires var bodyStart := cursor + next.start + Lead(next.wrapped);
             var r := Index(d[bodyStart..], ST);
             bodyEnd == if next.wrapped then PassthroughFrom(d, bodyStart) else if r < 0 then -1 else bodyStart + r
    ensures bodyEnd < 0 ==> Frame(d[cursor..]) == Open(next.start)
    ensures bodyEnd >= 0 ==>
              && cursor + next.start + Lead(next.wrapped) <= bodyEnd <= |d| - 2
              && Frame(d[cursor..]) == Closed(next.start, next.wrapped, bodyEnd + 2 - cursor)
  {
    hide Index, PassthroughEnd, NextIntroducer;
    var rel := next.start + Lead(next.wrapped);
    assert d[cursor..][rel..] == d[cursor + rel..];
  }

  lemma Within(d: Bytes, start: nat, end: nat, lead: nat)
    requires start + lead + 2 <= end <= |d|
    ensures d[start..end][lead..|d[start..end]| - 2] == d[start + lead..end - 2]
  {
    var framed := d[start..end];
    var inner := framed[lead..|framed| - 2];
    assert forall i :: 0 <= i < |inner| ==> inner[i] == framed[lead + i] == d[start + lead + i];
  }

  lemma PlainBody(d: Bytes, start: nat, end: nat, pend: Pending)
    requires start + 5 <= end <= |d|
    ensures Handle(false, d[start..end], pend) == Envelope(d[start + 3..end - 2], d[start..end], pend)
  {
    hide Envelope;
    Within(d, start, end, 3);
  }

  /** `out` written and `rest` still to scan, with transfer `now`, is the scan of `d` under way. */
  ghost predicate Progress(d: Bytes, pend: Pending, out: Bytes, rest: Bytes, now: Pending) {
    && Render(Scan(d, pend).pieces) == out + Render(Scan(rest, now).pieces)
    && Scan(d, pend).state == Scan(rest, now).state
  }

  lemma Starts(d: Bytes, pend: Pending)
    ensures Progress(d, pend, [], d, pend)
  {
    hide Scan, Render;
  }

  lemma Finishes(d: Bytes, pend: Pending, out: Bytes, rest: Bytes, now: Pending)
    requires Progress(d, pend, out, rest, now) && NextIntroducer(rest).Absent?
    ensures Render(Scan(d, pend).pieces) == out + rest && Scan(d, pend).state == State([], now)
  {
    hide Scan, Render, NextIntroducer;
    KittyStream.ScanStep(rest, now);
  }

  lemma Ends(d: Bytes, pend: Pending, out: Bytes, cursor: nat, rel: nat, now: Pending)
    requires cursor <= |d| && Progress(d, pend, out, d[cursor..], now) && Frame(d[cursor..]) == Open(rel)
    ensures var start := cursor + rel;
            var r := Scan(d, pend);
            if |d| - start > MAX_ENVELOPE then
              Render(r.pieces) == out + d[cursor..] && r.state == State([], now)
            else
              Render(r.pieces) == out + d[cursor..start] && r.state == State(d[start..], now)
  {
    hide Scan, Render, Frame;
    var rest, start := d[cursor..], cursor + rel;
    KittyStream.ScanStep(rest, now);
    assert rest[..rel] == d[cursor..start] && rest[rel..] == d[start..];
  }

  lemma Advances(d: Bytes, pend: Pending, out: Bytes, cursor: nat, start: nat, end: nat, wrapped: bool, now: Pending)
    requires cursor <= start <= end <= |d| && Progress(d, pend, out, d[cursor..], now)
    requires Frame(d[cursor..]) == Closed(start - cursor, wrapped, end - cursor)
    ensures var h := Handle(wrapped, d[start..end], now);
            Progress(d, pend, out + d[cursor..start] + Render(h.0), d[end..], h.1)
  {
    hide Scan, Render, Frame, Handle;
    var rest := d[cursor..];
    KittyStream.ScanStep(rest, now);
    assert rest[..start - cursor] == d[cursor..start] && rest[start - cursor..end - cursor] == d[start..end];
    assert rest[end - cursor..] == d[end..];
    var h := Handle(wrapped, d[start..end], now);
    assert out + (d[cursor..start] + Render(h.0) + Render(Scan(d[end..], h.1).pieces))
        == out + d[cursor..start] + Render(h.0) + Render(Scan(d[end..], h.1).pieces);
  }

  lemma NoPayload()
    ensures DecodePayload([]) == None
  {}

  lemma RenderOne(p: Piece)
    ensures Render([p]) == p.Render()
  {
    assert [p][1..] == [];
  }
}
