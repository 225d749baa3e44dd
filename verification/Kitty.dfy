/**
 What one call of the Kitty-to-IIP transcoder computes, on values: finding and
 closing envelopes, unwrapping tmux passthrough, deciding what an envelope becomes.
 Output is kept as pieces, so that each byte written stays tied to the input bytes
 it stands for; `Render` gives the bytes the source returns.
 */
module Kitty {
  import opened Bytes
  import Base64

  const KITTY: Bytes := [0x1b, 95, 71]                        // ESC _ G
  const TMUX: Bytes := [0x1b, 80, 116, 109, 117, 120, 59]     // ESC P t m u x ;
  const ST: Bytes := [0x1b, 92]                               // ESC \
  const IIP: Bytes := [0x1b, 93, 49, 51, 51, 55, 59, 70, 105, 108, 101, 61, 105, 110,
                       108, 105, 110, 101, 61, 49, 59, 115, 105, 122, 101, 61]  // ESC ]1337;File=inline=1;size=
  const SEMICOLON: byte := 59
  const COMMA: byte := 44
  const EQUALS: byte := 61
  const COLON: byte := 58

  // control keys and values
  const A_KEY: Bytes := [97]
  const F_KEY: Bytes := [102]
  const M_KEY: Bytes := [109]
  const O_KEY: Bytes := [111]
  const Q_KEY: Bytes := [113]
  const T_KEY: Bytes := [116]
  const PNG_FORMAT: Bytes := [49, 48, 48]   // 100
  const TRANSMIT: Bytes := [84]             // T
  const DIRECT: Bytes := [100]              // d
  const ONE: Bytes := [49]

  const MAX_ENVELOPE: nat := 8 * 1024 * 1024
  const MAX_IMAGE: nat := 32 * 1024 * 1024

  /** A transfer that has begun: the envelopes as received, and the decoded bytes. */
  datatype Pending = Pending(active: bool, original: Bytes, data: Bytes)

  const IDLE := Pending(false, [], [])

  datatype Piece = Text(bytes: Bytes) | Image(source: Bytes, png: Bytes) {
    function Render(): Bytes {
      if Text? then bytes else BuildIIP(png)
    }
    function Source(): Bytes {
      if Text? then bytes else source
    }
  }

  function Render(ps: seq<Piece>): Bytes {
    if ps == [] then [] else ps[0].Render() + Render(ps[1..])
  }

  function Sources(ps: seq<Piece>): Bytes {
    if ps == [] then [] else ps[0].Source() + Sources(ps[1..])
  }

  datatype State = State(carry: Bytes, pending: Pending)

  datatype Outcome = Outcome(pieces: seq<Piece>, state: State)

  // ---- building the inline-image sequence ----

  function Decimal(n: nat): (d: Bytes) {
    (if n < 10 then [] else Decimal(n / 10)) + [(48 + n % 10) as byte]
  }

  function ReadDecimal(d: Bytes): int {
    if d == [] then 0 else 10 * ReadDecimal(d[..|d| - 1]) + d[|d| - 1] as int - 48
  }

  /** Digits, and no zero in front of others. */
  predicate IsDecimal(d: Bytes) {
    d != [] && (forall i :: 0 <= i < |d| ==> 48 <= d[i] <= 57) && (|d| > 1 ==> d[0] != 48)
  }

  lemma {:induction false} DecimalReadsBack(n: nat)
    ensures IsDecimal(Decimal(n)) && ReadDecimal(Decimal(n)) == n
    ensures n > 0 ==> Decimal(n)[0] != 48
    decreases n
  {
    var d := Decimal(n);
    if n >= 10 { DecimalReadsBack(n / 10); }
    assert d[..|d| - 1] == if n < 10 then [] else Decimal(n / 10);
  }

  function BuildIIP(png: Bytes): Bytes {
    IIP + Decimal(|png|) + [COLON] + Base64.StdEncode(png) + ST
  }

  // ---- finding envelopes ----

  predicate IntroducerAt(d: Bytes, i: int) {
    OccursAt(d, KITTY, i) || OccursAt(d, TMUX, i)
  }

  datatype Introducer = Absent | At(start: nat, wrapped: bool)

  function Opening(wrapped: bool): Bytes {
    if wrapped then TMUX else KITTY
  }

  /** `nextKittySequence`: the first introducer and whether it is the tmux one. */
  function NextIntroducer(d: Bytes): (r: Introducer)
    ensures r.At? ==> OccursAt(d, Opening(r.wrapped), r.start) && r.start + Lead(r.wrapped) <= |d|
    ensures forall i :: IntroducerAt(d, i) ==> r.At? && r.start <= i
  {
    var raw, wrapped := Index(d, KITTY), Index(d, TMUX);
    if raw < 0 && wrapped < 0 then Absent
    else if wrapped >= 0 && (raw < 0 || wrapped < raw) then At(wrapped, true)
    else At(raw, false)
  }

  /** Where the passthrough terminator's ESC is in `body`, skipping doubled ESCs; -1 if there is none. */
  function PassthroughEnd(body: Bytes): (r: int)
    ensures r == -1 || 0 <= r <= |body| - 2
    ensures r >= 0 ==> body[r] == ESC && body[r + 1] == ST[1]
  {
    if |body| < 2 then -1
    else if body[0] == ESC && body[1] == ST[1] then 0
    else
      var skip := if body[0] == ESC && body[1] == ESC then 2 else 1;
      var r := PassthroughEnd(body[skip..]);
      if r < 0 then -1 else r + skip
  }

  /** How many ESCs in a row stand right before index `i`. */
  function EscRun(body: Bytes, i: nat): (n: nat)
    requires i <= |body|
    ensures n <= i
  {
    if i == 0 || body[i - 1] != ESC then 0 else EscRun(body, i - 1) + 1
  }

  /** ESC and backslash at `i`, and the ESCs before them all in pairs. */
  predicate TerminatorAt(body: Bytes, i: int) {
    0 <= i <= |body| - 2 && body[i] == ESC && body[i + 1] == ST[1] && EscRun(body, i) % 2 == 0
  }

  lemma {:induction false} EscRunAfter(body: Bytes, skip: nat, i: nat)
    requires skip <= i <= |body|
    ensures EscRun(body, i) == EscRun(body[skip..], i - skip) + if EscRun(body[skip..], i - skip) == i - skip then EscRun(body, skip) else 0
  {
    if i > skip {
      EscRunAfter(body, skip, i - 1);
      assert body[skip..][i - 1 - skip] == body[i - 1];
    }
  }

  /** Dropping a pair of ESCs, or one byte that begins neither a pair nor a terminator, moves the terminators along. */
  lemma TerminatorAfter(body: Bytes, i: int)
    requires |body| >= 2 && !(body[0] == ESC && body[1] == ST[1])
    ensures var skip := if body[0] == ESC && body[1] == ESC then 2 else 1;
            TerminatorAt(body, i) <==> TerminatorAt(body[skip..], i - skip)
  {
    var skip := if body[0] == ESC && body[1] == ESC then 2 else 1;
    if i >= skip && i <= |body| - 2 {
      EscRunAfter(body, skip, i);
      assert body[skip..][i - skip] == body[i] && body[skip..][i - skip + 1] == body[i + 1];
      assert EscRun(body, 1) == if body[0] == ESC then 1 else 0;
      assert skip == 2 ==> EscRun(body, 2) == 2;
      if skip == 1 && body[0] == ESC { assert i > 1 ==> EscRun(body[1..], 1) == 0; NoRunFromStart(body[1..], i - 1); }
    } else if i == 1 && skip == 2 {
      assert EscRun(body, 1) == EscRun(body, 0) + 1;
    }
  }

  lemma {:induction false} NoRunFromStart(body: Bytes, i: nat)
    requires body != [] && body[0] != ESC && i <= |body|
    ensures EscRun(body, i) == i ==> i == 0
  {
    if i > 1 { NoRunFromStart(body, i - 1); }
  }

  /** The terminator found is the first one whose ESC is not half of a pair, and one is found if there is one. */
  lemma {:induction false} PassthroughEndIsFirst(body: Bytes)
    ensures PassthroughEnd(body) >= 0 ==> TerminatorAt(body, PassthroughEnd(body))
    ensures forall i :: TerminatorAt(body, i) ==> 0 <= PassthroughEnd(body) <= i
  {
    hide TerminatorAt;
    if |body| < 2 || (body[0] == ESC && body[1] == ST[1]) {
      TerminatorEnds(body);
    } else {
      var skip := if body[0] == ESC && body[1] == ESC then 2 else 1;
      PassthroughEndIsFirst(body[skip..]);
      TerminatorAfter(body, PassthroughEnd(body));
      forall i | TerminatorAt(body, i) ensures 0 <= PassthroughEnd(body) <= i { TerminatorAfter(body, i); }
    }
  }

  lemma TerminatorEnds(body: Bytes)
    ensures |body| < 2 ==> forall i :: !TerminatorAt(body, i)
    ensures |body| >= 2 && body[0] == ESC && body[1] == ST[1] ==> TerminatorAt(body, 0)
    ensures forall i :: TerminatorAt(body, i) ==> i >= 0
  {}

  function Undouble(body: Bytes): Bytes {
    if body == [] then []
    else if |body| >= 2 && body[0] == ESC && body[1] == ESC then [ESC] + Undouble(body[2..])
    else [body[0]] + Undouble(body[1..])
  }

  /** How a buffer begins: no introducer, one whose terminator has not arrived, or a whole envelope. */
  datatype Framing = Plain | Open(start: nat) | Closed(start: nat, wrapped: bool, end: nat)

  /** The length of an introducer. */
  function Lead(wrapped: bool): nat {
    if wrapped then 7 else 3
  }

  /** The length of the body, terminator included, of an envelope whose introducer is gone; -1 while it is open. */
  function BodyLength(rest: Bytes, wrapped: bool): (n: int)
    ensures n == -1 || 2 <= n <= |rest|
  {
    var r := if wrapped then PassthroughEnd(rest) else Index(rest, ST);
    if r < 0 then -1 else r + 2
  }

  function Frame(d: Bytes): (f: Framing)
    ensures f.Open? ==> f.start < |d|
    ensures f.Closed? ==> f.start + Lead(f.wrapped) + 2 <= f.end <= |d|
  {
    match NextIntroducer(d)
    case Absent => Plain
    case At(start, wrapped) =>
      var lead := start + Lead(wrapped);
      var n := BodyLength(d[lead..], wrapped);
      if n < 0 then Open(start) else Closed(start, wrapped, lead + n)
  }

  // ---- reading an envelope ----

  function SplitEnvelope(body: Bytes): (Bytes, Bytes) {
    var semi := IndexByte(body, SEMICOLON);
    if semi < 0 then (body, []) else (body[..semi], body[semi + 1..])
  }

  function Split(s: Bytes, sep: byte): (items: seq<Bytes>)
    ensures items != []
    decreases |s|
  {
    var i := IndexByte(s, sep);
    if i < 0 then [s] else [s[..i]] + Split(s[i + 1..], sep)
  }

  type Control = map<Bytes, Bytes>

  function AddItem(c: Control, item: Bytes): Control {
    var eq := IndexByte(item, EQUALS);
    if eq <= 0 then c else c[item[..eq] := item[eq + 1..]]
  }

  /** Later items win. */
  function ControlOf(items: seq<Bytes>): Control {
    if items == [] then map[]
    else AddItem(ControlOf(items[..|items| - 1]), items[|items| - 1])
  }

  function ParseControl(text: Bytes): Control {
    ControlOf(Split(text, COMMA))
  }

  function Get(c: Control, key: Bytes): Bytes {
    if key in c then c[key] else []
  }

  predicate SupportsDirectPNG(c: Control) {
    && Get(c, F_KEY) == PNG_FORMAT
    && (Get(c, A_KEY) == [] || Get(c, A_KEY) == TRANSMIT)
    && Get(c, O_KEY) == []
    && (Get(c, T_KEY) == [] || Get(c, T_KEY) == DIRECT)
  }

  /** m is set, and nothing but m and q is. */
  predicate SupportsContinuation(c: Control) {
    && M_KEY in c
    && forall key | key in c :: key == M_KEY || key == Q_KEY
  }

  predicate More(c: Control) {
    Get(c, M_KEY) == ONE
  }

  /** Padded base64 first, unpadded second; an empty image is no image. */
  function DecodePayload(payload: Bytes): (r: Option<Bytes>)
    ensures r.Some? ==> r.value != []
  {
    var s := Base64.StripLineBreaks(payload);
    var std := Base64.StdDecode(s);
    var r := if std.Some? then std else Base64.RawDecode(s);
    if r.Some? && r.value == [] then None else r
  }

  /** The transfer's data with one more payload, unless that is not base64 or grows past the bound. */
  function Accumulate(data: Bytes, payload: Bytes): (r: Option<Bytes>)
    ensures r.Some? && |data| <= MAX_IMAGE ==> |r.value| <= MAX_IMAGE
    ensures r.Some? ==> data <= r.value && Some(r.value[|data|..]) == if payload == [] then Some([]) else DecodePayload(payload)
    ensures r.None? ==> payload != [] && (DecodePayload(payload) == None || |data| + |DecodePayload(payload).value| > MAX_IMAGE)
  {
    assert data[|data|..] == [];
    if payload == [] then Some(data)
    else
      match DecodePayload(payload)
      case None => None
      case Some(x) => if |data| + |x| > MAX_IMAGE then None
        else
          assert (data + x)[|data|..] == x;
          Some(data + x)
  }

  /** `finishPending`. */
  function Finish(original: Bytes, data: Bytes): Piece {
    if data == [] then Text(original) else Image(original, data)
  }

  /** `transcodeEnvelope`: what an envelope is replaced by, and the transfer afterwards. */
  function Envelope(body: Bytes, original: Bytes, pend: Pending): (seq<Piece>, Pending) {
    var (text, payload) := SplitEnvelope(body);
    var c := ParseControl(text);
    if pend.active then
      var all := pend.original + original;
      if !SupportsContinuation(c) then ([Text(all)], IDLE)
      else
        match Accumulate(pend.data, payload)
        case None => ([Text(all)], IDLE)
        case Some(data) =>
          if More(c) then ([], Pending(true, all, data)) else ([Finish(all, data)], IDLE)
    else if !SupportsDirectPNG(c) then ([Text(original)], pend)
    else if More(c) then
      match Accumulate([], payload)
      case None => ([Text(original)], IDLE)
      case Some(data) => ([], Pending(true, original, data))
    else
      match DecodePayload(payload)
      case None => ([Text(original)], pend)
      case Some(x) => ([Image(original, x)], pend)
  }

  predicate HasSuffix(s: Bytes, p: Bytes) {
    |p| <= |s| && s[|s| - |p|..] == p
  }

  /** The Kitty body inside a whole envelope; passthrough may carry something else. */
  function Body(wrapped: bool, framed: Bytes): Option<Bytes>
    requires |framed| >= Lead(wrapped) + 2
  {
    var body := framed[Lead(wrapped)..|framed| - 2];
    if !wrapped then Some(body)
    else
      var inner := Undouble(body);
      if KITTY <= inner && HasSuffix(inner, ST) then
        InnerIsLong(inner);
        Some(inner[3..|inner| - 2])
      else None
  }

  /** Introducer and terminator cannot overlap. */
  lemma InnerIsLong(inner: Bytes)
    requires KITTY <= inner && HasSuffix(inner, ST)
    ensures |inner| >= 5
  {
    assert inner[|inner| - 2] == ST[0] && inner[|inner| - 1] == ST[1];
    assert inner[0] == KITTY[0] && inner[1] == KITTY[1] && inner[2] == KITTY[2];
  }

  /** One whole envelope as it stood in the buffer. */
  function Handle(wrapped: bool, framed: Bytes, pend: Pending): (seq<Piece>, Pending)
    requires |framed| >= Lead(wrapped) + 2
  {
    match Body(wrapped, framed)
    case None => ([Text(framed)], pend)
    case Some(body) => Envelope(body, framed, pend)
  }

  // ---- a whole call ----

  function Scan(d: Bytes, pend: Pending): Outcome
    decreases |d|
  {
    match Frame(d)
    case Plain => Outcome([Text(d)], State([], pend))
    case Open(start) =>
      if |d| - start > MAX_ENVELOPE then Outcome([Text(d)], State([], pend))
      else Outcome([Text(d[..start])], State(d[start..], pend))
    case Closed(start, wrapped, end) =>
      var (ps, pend') := Handle(wrapped, d[start..end], pend);
      var rest := Scan(d[end..], pend');
      Outcome([Text(d[..start])] + ps + rest.pieces, rest.state)
  }

  function Write(s: State, p: Bytes): Outcome {
    if p == [] then Outcome([], s) else Scan(s.carry + p, s.pending)
  }
}
