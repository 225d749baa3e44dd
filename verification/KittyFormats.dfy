/**
 The texts on both sides of the transcoder: which control texts mean a PNG that is to be shown, told from
 their comma-separated fields, and what the inline-image sequence says, read back from its bytes.
 */
module KittyFormats {
  import opened Bytes
  import opened Kitty
  import opened KittyStream
  import opened KittyTransfer
  import Base64

  // ---- control texts ----

  function Join(fields: seq<Bytes>): Bytes
    requires fields != []
  {
    if |fields| == 1 then fields[0] else fields[0] + Ascii(",") + Join(fields[1..])
  }

  /** Fields have no comma in them. */
  predicate AreFields(fields: seq<Bytes>) {
    fields != [] && forall k :: 0 <= k < |fields| ==> COMMA !in fields[k]
  }

  lemma SplitAtComma(s: Bytes, n: nat)
    requires IndexByte(s, COMMA) == n
    ensures n < |s| && Split(s, COMMA) == [s[..n]] + Split(s[n + 1..], COMMA)
  {
    hide IndexByte;
  }

  lemma FirstComma(field: Bytes, rest: Bytes)
    requires COMMA !in field
    ensures IndexByte(field + [COMMA] + rest, COMMA) == |field|
  {
    hide IndexByte;
    var s, n := field + [COMMA] + rest, |field|;
    assert s[n] == COMMA && forall i :: 0 <= i < n ==> s[i] == field[i];
  }

  lemma SplitFirst(field: Bytes, rest: Bytes)
    requires COMMA !in field
    ensures Split(field, COMMA) == [field]
    ensures Split(field + Ascii(",") + rest, COMMA) == [field] + Split(rest, COMMA)
  {
    assert Split(field, COMMA) == [field] by { hide Ascii; }
    assert Ascii(",") == [COMMA];
    hide Split, IndexByte, Ascii;
    var s, n := field + [COMMA] + rest, |field|;
    FirstComma(field, rest);
    SplitAtComma(s, n);
    assert s[..n] == field && s[n + 1..] == rest;
  }

  lemma {:induction false} SplitJoin(fields: seq<Bytes>)
    requires AreFields(fields)
    ensures Split(Join(fields), COMMA) == fields
    decreases |fields|
  {
    hide Split, Ascii;
    assert COMMA !in fields[0];
    if |fields| == 1 {
      SplitFirst(fields[0], []);
      assert fields == [fields[0]];
    } else {
      var rest := fields[1..];
      assert AreFields(rest) by { assert forall k :: 0 <= k < |rest| ==> rest[k] == fields[k + 1]; }
      hide AreFields;
      SplitJoin(rest);
      SplitFirst(fields[0], Join(rest));
      assert fields == [fields[0]] + rest;
    }
  }

  /** A name as it may stand in front of the equals sign. */
  predicate IsName(name: Bytes) {
    name != [] && EQUALS !in name
  }

  predicate About(field: Bytes, name: Bytes) {
    name + Ascii("=") <= field
  }

  /** The last field about `name` gives it `value`. */
  ghost predicate Says(fields: seq<Bytes>, name: Bytes, value: Bytes) {
    exists k :: 0 <= k < |fields| && fields[k] == name + Ascii("=") + value
                && forall l :: k < l < |fields| ==> !About(fields[l], name)
  }

  predicate Silent(fields: seq<Bytes>, name: Bytes) {
    forall k :: 0 <= k < |fields| ==> !About(fields[k], name)
  }

  /** No value, or the empty one. */
  ghost predicate Blank(fields: seq<Bytes>, name: Bytes) {
    Silent(fields, name) || Says(fields, name, [])
  }

  lemma OneField(c: Control, field: Bytes, name: Bytes)
    requires IsName(name)
    ensures var d := AddItem(c, field);
            if About(field, name) then name in d && d[name] == field[|name| + 1..] && field == name + Ascii("=") + d[name]
            else (name in d <==> name in c) && (name in c ==> d[name] == c[name])
  {
    hide IndexByte;
    assert Ascii("=") == [EQUALS];
    var eq := IndexByte(field, EQUALS);
    if About(field, name) {
      assert (name + [EQUALS])[|name|] == field[|name|];
      assert forall i :: 0 <= i < |name| ==> field[i] == name[i];
      assert field[..|name|] == name;
      assert field == name + [EQUALS] + field[|name| + 1..];
    } else if eq > 0 {
      assert field[..eq] + [EQUALS] <= field;
    }
  }

  /** What the control map holds under a name is what the last field about it says. */
  lemma {:induction false} ControlSays(fields: seq<Bytes>, name: Bytes)
    requires IsName(name)
    ensures name in ControlOf(fields) <==> !Silent(fields, name)
    ensures name in ControlOf(fields) ==> Says(fields, name, ControlOf(fields)[name])
    decreases |fields|
  {
    hide AddItem, About;
    if fields != [] {
      var n := |fields| - 1;
      var rest, last := fields[..n], fields[n];
      ControlSays(rest, name);
      OneField(ControlOf(rest), last, name);
      if !About(last, name) && name in ControlOf(rest) {
        var v := ControlOf(rest)[name];
        var k :| 0 <= k < n && rest[k] == name + Ascii("=") + v && forall l :: k < l < n ==> !About(rest[l], name);
        assert fields[k] == rest[k] && forall l :: k < l < n ==> fields[l] == rest[l];
      }
    }
  }

  lemma SaysOne(fields: seq<Bytes>, name: Bytes, v: Bytes, u: Bytes)
    requires Says(fields, name, v) && Says(fields, name, u)
    ensures v == u
  {
    var k :| 0 <= k < |fields| && fields[k] == name + Ascii("=") + v && forall l :: k < l < |fields| ==> !About(fields[l], name);
    var j :| 0 <= j < |fields| && fields[j] == name + Ascii("=") + u && forall l :: j < l < |fields| ==> !About(fields[l], name);
    assert About(fields[k], name) && About(fields[j], name);
    assert v == fields[k][|name| + 1..] && u == fields[j][|name| + 1..];
  }

  lemma SaysNotSilent(fields: seq<Bytes>, name: Bytes, v: Bytes)
    requires Says(fields, name, v)
    ensures !Silent(fields, name)
  {
    var k :| 0 <= k < |fields| && fields[k] == name + Ascii("=") + v && forall l :: k < l < |fields| ==> !About(fields[l], name);
    assert About(fields[k], name);
  }

  /** `Get` in terms of the fields. */
  lemma GetSays(fields: seq<Bytes>, name: Bytes, v: Bytes)
    requires IsName(name)
    ensures v != [] ==> (Get(ControlOf(fields), name) == v <==> Says(fields, name, v))
    ensures Get(ControlOf(fields), name) == [] <==> Blank(fields, name)
  {
    ControlSays(fields, name);
    hide Says, Silent;
    var c := ControlOf(fields);
    if Says(fields, name, v) {
      SaysNotSilent(fields, name, v);
      SaysOne(fields, name, v, c[name]);
    }
    if Says(fields, name, []) {
      SaysNotSilent(fields, name, []);
      SaysOne(fields, name, [], c[name]);
    }
  }

  /** The control text asks for a PNG in the envelope itself, to be shown: f=100, a missing or T, t missing or d, not compressed. */
  ghost predicate StartsPNG(fields: seq<Bytes>) {
    && Says(fields, Ascii("f"), Ascii("100"))
    && (Blank(fields, Ascii("a")) || Says(fields, Ascii("a"), Ascii("T")))
    && (Blank(fields, Ascii("t")) || Says(fields, Ascii("t"), Ascii("d")))
    && Blank(fields, Ascii("o"))
  }

  /** It continues a transfer: m is given, and nothing but m and q is. */
  ghost predicate Continuing(fields: seq<Bytes>) {
    !Silent(fields, Ascii("m")) && forall name :: IsName(name) && !Silent(fields, name) ==> name == Ascii("m") || name == Ascii("q")
  }

  /** There is more to come. */
  ghost predicate Asks(fields: seq<Bytes>) {
    Says(fields, Ascii("m"), Ascii("1"))
  }

  lemma Names()
    ensures Ascii("a") == A_KEY && Ascii("f") == F_KEY && Ascii("m") == M_KEY && Ascii("o") == O_KEY && Ascii("q") == Q_KEY && Ascii("t") == T_KEY
    ensures Ascii("100") == PNG_FORMAT && Ascii("T") == TRANSMIT && Ascii("d") == DIRECT && Ascii("1") == ONE
    ensures IsName(A_KEY) && IsName(F_KEY) && IsName(M_KEY) && IsName(O_KEY) && IsName(Q_KEY) && IsName(T_KEY)
  {}

  lemma {:induction false} KeysAreNames(fields: seq<Bytes>)
    ensures forall name :: name in ControlOf(fields) ==> IsName(name)
    decreases |fields|
  {
    if fields != [] {
      var item := fields[|fields| - 1];
      KeysAreNames(fields[..|fields| - 1]);
      var eq := IndexByte(item, EQUALS);
      assert eq > 0 ==> IsName(item[..eq]);
    }
  }

  /** What the source looks up in the control text is what its fields say. */
  lemma Reads(fields: seq<Bytes>)
    requires AreFields(fields)
    ensures var c := ParseControl(Join(fields));
            && (SupportsDirectPNG(c) <==> StartsPNG(fields)) && (SupportsContinuation(c) <==> Continuing(fields))
            && (More(c) <==> Asks(fields))
  {
    hide Split, ControlOf, Get, Says, Silent, Blank, AreFields, IsName, Join, Ascii;
    Names();
    SplitJoin(fields);
    GetSays(fields, F_KEY, PNG_FORMAT);
    GetSays(fields, A_KEY, TRANSMIT);
    GetSays(fields, O_KEY, ONE);
    GetSays(fields, T_KEY, DIRECT);
    GetSays(fields, M_KEY, ONE);
    KeysAreNames(fields);
    forall name | IsName(name) ensures name in ControlOf(fields) <==> !Silent(fields, name) { ControlSays(fields, name); }
  }

  // ---- what becomes of an envelope ----

  /** The part's control text is made of these fields. */
  predicate Written(p: Part, fields: seq<Bytes>) {
    AreFields(fields) && p.control == Join(fields)
  }

  /** `d` comes out as `out` and then as what `r` comes to. */
  predicate GoesThrough(d: Bytes, out: Bytes, r: Bytes) {
    var all, rest := Scan(d, IDLE), Scan(r, IDLE);
    Render(all.pieces) == out + Render(rest.pieces) && all.state == rest.state
  }

  /** An envelope on an idle transcoder that does not ask for a PNG to be shown goes through as it is. */
  lemma OthersGoThrough(p: Part, fields: seq<Bytes>, r: Bytes)
    requires p.Framable() && Written(p, fields) && !StartsPNG(fields)
    ensures GoesThrough(p.gap + p.Framed() + r, p.gap + p.Framed(), r)
  {
    hide StartsPNG, ParseControl, SupportsDirectPNG, SupportsContinuation, More, SplitEnvelope, Scan, Render, Part.Framable, Part.Framed, Join, AreFields;
    Reads(fields);
    PartStep(p, r, IDLE);
    PartIsFramed(p, r);
    RenderText(p.Framed());
  }

  /** With a whole PNG in it, an envelope on an idle transcoder becomes an image iff its fields ask for that. */
  lemma ShownIff(p: Part, fields: seq<Bytes>, r: Bytes)
    requires p.Valid() && Written(p, fields) && !Asks(fields)
    ensures StartsPNG(fields) ==> BecomesImage(p.gap + p.Framed() + r, IDLE, p.gap, p.piece, r)
    ensures !StartsPNG(fields) ==> GoesThrough(p.gap + p.Framed() + r, p.gap + p.Framed(), r)
  {
    if StartsPNG(fields) {
      hide StartsPNG, Asks, SupportsDirectPNG, More, ParseControl, Scan, Render, BuildIIP, Part.Valid, Part.Framed, Join, AreFields;
      Reads(fields);
      TransferBecomesOneImage([p], r);
      OneGap(p, r);
    } else {
      OthersGoThrough(p, fields, r);
    }
  }

  /** A first envelope whose payload is no base64, or too long, goes through as it is, and nothing is held. */
  lemma BadFirstGoesThrough(p: Part, fields: seq<Bytes>, r: Bytes)
    requires p.Framable() && Written(p, fields) && StartsPNG(fields)
    requires if Asks(fields) then Accumulate([], p.payload) == None else DecodePayload(p.payload) == None
    ensures GoesThrough(p.gap + p.Framed() + r, p.gap + p.Framed(), r)
  {
    hide StartsPNG, Asks, ParseControl, SupportsDirectPNG, SupportsContinuation, More, SplitEnvelope, Scan, Render,
         Accumulate, DecodePayload, Part.Framable, Part.Framed, Join, AreFields;
    Reads(fields);
    PartStep(p, r, IDLE);
    PartIsFramed(p, r);
    RenderText(p.Framed());
  }

  /** A transfer without any data is no image: its envelopes come back, behind the text between them. */
  lemma EmptyTransferComesBack(p: Part, q: Part, fp: seq<Bytes>, fq: seq<Bytes>, r: Bytes)
    requires p.Framable() && Written(p, fp) && p.payload == [] && StartsPNG(fp) && Asks(fp)
    requires q.Framable() && Written(q, fq) && q.payload == [] && Continuing(fq) && !Asks(fq)
    ensures GoesThrough(p.gap + p.Framed() + (q.gap + q.Framed() + r), p.gap + q.gap + p.Framed() + q.Framed(), r)
  {
    var end := q.gap + q.Framed() + r;
    EmptyStarts(p, fp);
    EmptyEnds(q, fq, p.Framed());
    hide StartsPNG, Continuing, Asks, Envelope, Scan, Render, Part.Framable, Part.Framed, Written;
    PartStep(p, end, IDLE);
    PartStep(q, r, Pending(true, p.Framed(), []));
    RenderNothing();
    RenderText(p.Framed() + q.Framed());
    Rejoined(p.gap, q.gap, p.Framed(), q.Framed(), Render(Scan(r, IDLE).pieces));
  }

  lemma Rejoined(a: Bytes, b: Bytes, c: Bytes, d: Bytes, rest: Bytes)
    ensures a + [] + (b + (c + d) + rest) == a + b + c + d + rest
  {}

  lemma EmptyStarts(p: Part, fp: seq<Bytes>)
    requires p.Framable() && Written(p, fp) && p.payload == [] && StartsPNG(fp) && Asks(fp)
    ensures Envelope(p.control + [SEMICOLON] + p.payload, p.Framed(), IDLE) == ([], Pending(true, p.Framed(), []))
  {
    hide StartsPNG, Continuing, Asks, ParseControl, SupportsDirectPNG, SupportsContinuation, More, SplitEnvelope, DecodePayload, Part.Framable, Part.Framed, Join, AreFields;
    Reads(fp);
    PartIsFramed(p, []);
  }

  lemma EmptyEnds(q: Part, fq: seq<Bytes>, held: Bytes)
    requires q.Framable() && Written(q, fq) && q.payload == [] && Continuing(fq) && !Asks(fq)
    ensures Envelope(q.control + [SEMICOLON] + q.payload, q.Framed(), Pending(true, held, [])) == ([Text(held + q.Framed())], IDLE)
  {
    hide StartsPNG, Continuing, Asks, ParseControl, SupportsDirectPNG, SupportsContinuation, More, SplitEnvelope, DecodePayload, Part.Framable, Part.Framed, Join, AreFields;
    Reads(fq);
    PartIsFramed(q, []);
  }

  lemma OneGap(p: Part, r: Bytes)
    ensures Gaps([p]) == p.gap && Pieces([p]) == p.piece && Stream([p]) + r == p.gap + p.Framed() + r
  {
    hide Part.Framed;
    JustOne(p);
    assert [p][1..] == [];
    assert Stream([p]) == p.gap + p.Framed() + [] == p.gap + p.Framed();
  }

  /** A PNG to be shown, in one envelope or in as many as say so: each but the last asks for more. */
  ghost predicate IsSent(ps: seq<Part>, fs: seq<seq<Bytes>>) {
    && ps != [] && |fs| == |ps|
    && (forall i :: 0 <= i < |ps| ==> ps[i].Valid() && Written(ps[i], fs[i]) && (Asks(fs[i]) <==> i < |ps| - 1))
    && StartsPNG(fs[0]) && (forall i :: 0 < i < |ps| ==> Continuing(fs[i]))
    && (|ps| > 1 ==> |Pieces(ps)| <= 32 * 1024 * 1024)
  }

  /** It comes out as the one inline image of all the pieces, behind what stood between the envelopes. */
  lemma SentIsShown(ps: seq<Part>, fs: seq<seq<Bytes>>, r: Bytes)
    requires IsSent(ps, fs)
    ensures BecomesImage(Stream(ps) + r, IDLE, Gaps(ps), Pieces(ps), r)
  {
    hide StartsPNG, Continuing, Asks, SupportsDirectPNG, SupportsContinuation, More, ParseControl, Part.Valid, Join, AreFields, Pieces, BecomesImage;
    forall i | 0 <= i < |ps|
      ensures ps[i].Valid() && (More(ps[i].Fields()) <==> i < |ps| - 1)
      ensures if i == 0 then SupportsDirectPNG(ps[i].Fields()) else SupportsContinuation(ps[i].Fields())
    {
      Reads(fs[i]);
    }
    RestContinue(ps);
    TransferBecomesOneImage(ps, r);
  }

  lemma RestContinue(ps: seq<Part>)
    requires ps != [] && forall i :: 0 < i < |ps| ==>
               ps[i].Valid() && SupportsContinuation(ps[i].Fields()) && (More(ps[i].Fields()) <==> i < |ps| - 1)
    ensures |ps| > 1 ==> Continues(ps[1..])
  {
    hide Part.Valid, SupportsContinuation, More;
    assert forall i :: 0 <= i < |ps| - 1 ==> ps[1..][i] == ps[i + 1];
  }

  // ---- as terminals and programs write it ----

  /** An envelope as programs write it: control text and base64 between the brackets of the protocol. */
  function Sequence(fields: seq<Bytes>, x: Bytes): Bytes
    requires fields != []
  {
    [ESC] + Ascii("_G") + Join(fields) + Ascii(";") + Base64.StdEncode(x) + [ESC] + Ascii("\\")
  }

  predicate Typed(fields: seq<Bytes>) {
    AreFields(fields) && forall k :: 0 <= k < |fields| ==> ESC !in fields[k] && SEMICOLON !in fields[k]
  }

  function PartOf(fields: seq<Bytes>, x: Bytes): Part
    requires fields != []
  {
    Part([], Join(fields), Base64.StdEncode(x), x, false)
  }

  lemma {:induction false} JoinLacks(fields: seq<Bytes>, b: byte)
    requires fields != [] && b != COMMA && forall k :: 0 <= k < |fields| ==> b !in fields[k]
    ensures b !in Join(fields)
    decreases |fields|
  {
    assert Ascii(",") == [COMMA];
    assert b !in fields[0];
    if |fields| > 1 {
      assert forall k :: 0 <= k < |fields| - 1 ==> fields[1..][k] == fields[k + 1];
      JoinLacks(fields[1..], b);
    }
  }

  lemma NothingForeign()
    ensures Foreign([])
  {
    assert NextIntroducer([]) == Absent;
  }

  lemma PartOfIs(fields: seq<Bytes>, x: Bytes)
    requires Typed(fields) && x != []
    ensures PartOf(fields, x).Valid() && Written(PartOf(fields, x), fields) && PartOf(fields, x).Framed() == Sequence(fields, x)
  {
    PartIsWritten(fields, x);
    hide Typed;
    SequenceIs(fields, x);
    NoBreaks(x);
    hide Join, Base64.StdEncode, Base64.StripLineBreaks;
  }

  lemma PartIsWritten(fields: seq<Bytes>, x: Bytes)
    requires Typed(fields)
    ensures PartOf(fields, x).Framable() && Written(PartOf(fields, x), fields)
  {
    NothingForeign();
    JoinLacks(fields, ESC);
    JoinLacks(fields, SEMICOLON);
    NoBreaks(x);
    hide Join, Base64.StdEncode, Foreign;
  }

  lemma SequenceIs(fields: seq<Bytes>, x: Bytes)
    requires fields != []
    ensures PartOf(fields, x).Framed() == Sequence(fields, x)
  {
    hide Join, Base64.StdEncode;
    assert Ascii("_G") == [95, 71] && Ascii(";") == [SEMICOLON] && Ascii("\\") == [92];
    assert KITTY == [ESC] + Ascii("_G") && ST == [ESC] + Ascii("\\");
    var c, e := Join(fields), Base64.StdEncode(x);
    assert KITTY + c + [SEMICOLON] + e + ST == [ESC] + Ascii("_G") + c + Ascii(";") + e + [ESC] + Ascii("\\");
  }

  /** An encoded text has no line breaks and no escapes. */
  lemma NoBreaks(x: Bytes)
    ensures Base64.StripLineBreaks(Base64.StdEncode(x)) == Base64.StdEncode(x)
    ensures ESC !in Base64.StdEncode(x)
  {
    hide Base64.RawEncode;
    Unbroken(Base64.StdEncode(x));
  }

  lemma {:induction false} Unbroken(s: Bytes)
    requires forall i :: 0 <= i < |s| ==> s[i] != 10 && s[i] != 13
    ensures Base64.StripLineBreaks(s) == s
    decreases |s|
  {
    if s != [] { Unbroken(s[1..]); }
  }

  /** What a fresh transcoder makes of `d` is `out`, and it keeps nothing. */
  predicate Gives(d: Bytes, out: Bytes) {
    Render(Write(State([], IDLE), d).pieces) == out && Write(State([], IDLE), d).state == State([], IDLE)
  }

  lemma ImageGives(d: Bytes, x: Bytes)
    requires d != [] && BecomesImage([] + d + [], IDLE, [], x, [])
    ensures Gives(d, BuildIIP(x))
  {
    EmptyScan();
    hide Scan, Render, BuildIIP;
    assert [] + d + [] == d && [] + d == d && [] + BuildIIP(x) + [] == BuildIIP(x);
  }

  lemma ThroughGives(d: Bytes)
    requires d != [] && GoesThrough([] + d + [], [] + d, [])
    ensures Gives(d, d)
  {
    EmptyScan();
    hide Scan, Render;
    assert [] + d + [] == d && [] + d == d && [] + d + [] == d;
  }

  /** One envelope with a whole PNG, on a fresh transcoder: the image if its fields ask for it, and else itself. */
  lemma SequenceShownIff(fields: seq<Bytes>, x: Bytes)
    requires Typed(fields) && x != [] && !Asks(fields)
    ensures Gives(Sequence(fields, x), if StartsPNG(fields) then BuildIIP(x) else Sequence(fields, x))
  {
    assert fields != [];
    hide StartsPNG, Asks, Typed, Join, BuildIIP, Part.Valid, Part.Framed, Sequence, Written, Gives, GoesThrough, BecomesImage;
    PartOfIs(fields, x);
    SequenceLong(fields, x);
    ShownIff(PartOf(fields, x), fields, []);
    if StartsPNG(fields) { ImageGives(Sequence(fields, x), x); } else { ThroughGives(Sequence(fields, x)); }
  }

  lemma SequenceLong(fields: seq<Bytes>, x: Bytes)
    requires fields != []
    ensures Sequence(fields, x) != []
  {
    hide Join, Base64.StdEncode;
  }

  // ---- in so many letters ----

  lemma Another(field: Bytes, name: Bytes)
    requires field != [] && name != [] && field[0] != name[0]
    ensures !About(field, name)
  {}

  lemma SaysAt(fields: seq<Bytes>, k: nat, name: Bytes, value: Bytes)
    requires k < |fields| && fields[k] == name + Ascii("=") + value
    requires forall l :: k < l < |fields| ==> fields[l] != [] && name != [] && fields[l][0] != name[0]
    ensures Says(fields, name, value)
  {
    hide About;
    forall l | k < l < |fields| ensures !About(fields[l], name) { Another(fields[l], name); }
  }

  lemma SilentOn(fields: seq<Bytes>, name: Bytes)
    requires name != [] && forall k :: 0 <= k < |fields| ==> fields[k] != [] && fields[k][0] != name[0]
    ensures Silent(fields, name)
  {
    hide About;
    forall k | 0 <= k < |fields| ensures !About(fields[k], name) { Another(fields[k], name); }
  }

  lemma LetterFields()
    ensures Ascii("f=100") == Ascii("f") + Ascii("=") + Ascii("100") && Ascii("f=24") == Ascii("f") + Ascii("=") + Ascii("24")
    ensures Ascii("a=T") == Ascii("a") + Ascii("=") + Ascii("T") && Ascii("a=q") == Ascii("a") + Ascii("=") + Ascii("q")
    ensures Ascii("o=z") == Ascii("o") + Ascii("=") + Ascii("z") && Ascii("t=f") == Ascii("t") + Ascii("=") + Ascii("f")
    ensures Ascii("m=1") == Ascii("m") + Ascii("=") + Ascii("1") && Ascii("m=0") == Ascii("m") + Ascii("=") + Ascii("0")
  {}

  /** Nothing in the field would end it, or the control text, or the envelope. */
  predicate Plainly(field: Bytes) {
    COMMA !in field && ESC !in field && SEMICOLON !in field
  }

  lemma PlainLetters(s: string)
    requires forall c :: c in s ==> c in "aTqfmotzd=0124"
    ensures Plainly(Ascii(s))
  {
    forall i | 0 <= i < |s| ensures Ascii(s)[i] != COMMA && Ascii(s)[i] != ESC && Ascii(s)[i] != SEMICOLON {
      assert s[i] in s;
      NoMark(s[i]);
    }
  }

  lemma NoMark(c: char)
    requires c in "aTqfmotzd=0124"
    ensures 48 <= c as int <= 52 || 61 <= c as int <= 122
  {
    hide Ascii;
    var i :| 0 <= i < 14 && "aTqfmotzd=0124"[i] == c;
  }

  lemma Typewritten(fields: seq<Bytes>)
    requires fields != []
    requires forall k :: 0 <= k < |fields| ==>
               fields[k] in {Ascii("f=100"), Ascii("f=24"), Ascii("a=T"), Ascii("a=q"), Ascii("o=z"), Ascii("t=f"), Ascii("m=1"), Ascii("m=0")}
    ensures Typed(fields)
  {
    hide Ascii;
    PlainLetters("f=100");
    PlainLetters("f=24");
    PlainLetters("a=T");
    PlainLetters("a=q");
    PlainLetters("o=z");
    PlainLetters("t=f");
    PlainLetters("m=1");
    PlainLetters("m=0");
  }

  /** f=100, with or without a=T, is shown. */
  lemma PlainPNGs()
    ensures StartsPNG([Ascii("f=100")]) && !Asks([Ascii("f=100")])
    ensures StartsPNG([Ascii("a=T"), Ascii("f=100")]) && !Asks([Ascii("a=T"), Ascii("f=100")])
  {
    LetterFields();
    var one, two := [Ascii("f=100")], [Ascii("a=T"), Ascii("f=100")];
    SaysAt(one, 0, Ascii("f"), Ascii("100"));
    SaysAt(two, 1, Ascii("f"), Ascii("100"));
    SaysAt(two, 0, Ascii("a"), Ascii("T"));
    SilentOn(one, Ascii("a"));
    SilentOn(one, Ascii("t"));
    SilentOn(one, Ascii("o"));
    SilentOn(one, Ascii("m"));
    SilentOn(two, Ascii("t"));
    SilentOn(two, Ascii("o"));
    SilentOn(two, Ascii("m"));
    hide Says, Silent;
    NotAsked(one);
    NotAsked(two);
  }

  lemma NotAsked(fields: seq<Bytes>)
    requires Silent(fields, Ascii("m"))
    ensures !Asks(fields)
  {
    hide Silent;
    if Asks(fields) { SaysNotSilent(fields, Ascii("m"), Ascii("1")); }
  }

  lemma Contradicts(fields: seq<Bytes>, name: Bytes, v: Bytes, u: Bytes)
    requires Says(fields, name, v) && u != v
    ensures !Says(fields, name, u)
  {
    hide Says;
    if Says(fields, name, u) { SaysOne(fields, name, v, u); }
  }

  /** A field behind f=100 that makes the envelope something else than a PNG to be shown. */
  predicate Spoils(name: Bytes, v: Bytes) {
    && v != []
    && (|| name == Ascii("o") || (name == Ascii("f") && v != Ascii("100"))
        || (name == Ascii("a") && v != Ascii("T")) || (name == Ascii("t") && v != Ascii("d")))
  }

  lemma LastSays(name: Bytes, v: Bytes)
    requires |name| == 1 && name[0] != Ascii("m")[0]
    ensures var fields := [Ascii("f=100"), name + Ascii("=") + v];
            Says(fields, name, v) && !Silent(fields, name) && !Asks(fields)
  {
    var fields := [Ascii("f=100"), name + Ascii("=") + v];
    SaysAt(fields, 1, name, v);
    SaysNotSilent(fields, name, v);
    SilentOn(fields, Ascii("m"));
    NotAsked(fields);
  }

  lemma NotShown(name: Bytes, v: Bytes)
    requires Spoils(name, v)
    ensures var fields := [Ascii("f=100"), name + Ascii("=") + v]; !StartsPNG(fields) && !Asks(fields)
  {
    var fields := [Ascii("f=100"), name + Ascii("=") + v];
    OneLetter(name);
    LastSays(name, v);
    hide Says, Silent, Asks;
    Contradicts(fields, name, v, []);
    if StartsPNG(fields) {
      var asked := if name == Ascii("f") then Ascii("100") else if name == Ascii("a") then Ascii("T") else Ascii("d");
      if v != asked { Contradicts(fields, name, v, asked); }
    }
  }

  lemma OneLetter(name: Bytes)
    requires name == Ascii("o") || name == Ascii("f") || name == Ascii("a") || name == Ascii("t")
    ensures |name| == 1 && name[0] != Ascii("m")[0]
  {}

  /** A program's plain PNG is shown; compressed data, other formats, queries and files are left to the terminal. */
  lemma InSoManyLetters(x: Bytes)
    requires x != []
    ensures Gives(Letters("f=100", x), BuildIIP(x)) && Gives(Letters("a=T,f=100", x), BuildIIP(x))
    ensures forall last :: last in {"o=z", "f=24", "a=q", "t=f"} ==>
              Gives(Letters("f=100," + last, x), Letters("f=100," + last, x))
  {
    hide Gives, BuildIIP, Letters, Join, StartsPNG, Asks, Typed, Ascii;
    PlainPNGs();
    LettersOfPNGs();
    ShownLetters("f=100", [Ascii("f=100")], x);
    ShownLetters("a=T,f=100", [Ascii("a=T"), Ascii("f=100")], x);
    forall last | last in {"o=z", "f=24", "a=q", "t=f"} ensures Gives(Letters("f=100," + last, x), Letters("f=100," + last, x)) {
      NotShownLetters(last, x);
    }
  }

  lemma LettersOfPNGs()
    ensures Typed([Ascii("f=100")]) && Join([Ascii("f=100")]) == Ascii("f=100")
    ensures Typed([Ascii("a=T"), Ascii("f=100")]) && Join([Ascii("a=T"), Ascii("f=100")]) == Ascii("a=T,f=100")
  {
    hide Typed, Join, Ascii;
    JoinTwo("f=100", "");
    JoinTwo("a=T", "f=100");
    assert "a=T" + "," + "f=100" == "a=T,f=100";
    Typewritten([Ascii("f=100")]);
    Typewritten([Ascii("a=T"), Ascii("f=100")]);
  }

  lemma ShownLetters(control: string, fields: seq<Bytes>, x: Bytes)
    requires x != [] && Typed(fields) && Join(fields) == Ascii(control) && StartsPNG(fields) && !Asks(fields)
    ensures Gives(Letters(control, x), BuildIIP(x))
  {
    Lettered(control, fields, x);
    hide StartsPNG, Asks, Gives, BuildIIP, Join;
    SequenceShownIff(fields, x);
  }

  /** An envelope as a program writes it. */
  function Letters(control: string, x: Bytes): Bytes {
    [ESC] + Ascii("_G" + control + ";") + Base64.StdEncode(x) + [ESC] + Ascii("\\")
  }

  lemma Lettered(control: string, fields: seq<Bytes>, x: Bytes)
    requires fields != [] && Join(fields) == Ascii(control)
    ensures Letters(control, x) == Sequence(fields, x)
  {
    hide Base64.StdEncode;
    assert Ascii("_G" + control + ";") == Ascii("_G") + Ascii(control) + Ascii(";");
    var e := Base64.StdEncode(x);
    assert [ESC] + (Ascii("_G") + Ascii(control) + Ascii(";")) + e == [ESC] + Ascii("_G") + Ascii(control) + Ascii(";") + e;
  }

  lemma JoinTwo(a: string, b: string)
    ensures Join([Ascii(a), Ascii(b)]) == Ascii(a + "," + b) && Join([Ascii(a)]) == Ascii(a)
  {
    assert [Ascii(a), Ascii(b)][1..] == [Ascii(b)];
    assert Ascii(a + "," + b) == Ascii(a) + Ascii(",") + Ascii(b);
  }

  lemma SpoilingLetters()
    ensures forall last :: last in {"o=z", "f=24", "a=q", "t=f"} ==>
              Spoils(Ascii(last)[..1], Ascii(last)[2..]) && Ascii(last) == Ascii(last)[..1] + Ascii("=") + Ascii(last)[2..]
  {
    LetterFields();
    assert Ascii("o=z")[..1] == Ascii("o") && Ascii("o=z")[2..] == Ascii("z");
    assert Ascii("f=24")[..1] == Ascii("f") && Ascii("f=24")[2..] == Ascii("24") && |Ascii("24")| != |Ascii("100")|;
    assert Ascii("a=q")[..1] == Ascii("a") && Ascii("a=q")[2..] == Ascii("q") && Ascii("q")[0] != Ascii("T")[0];
    assert Ascii("t=f")[..1] == Ascii("t") && Ascii("t=f")[2..] == Ascii("f") && Ascii("f")[0] != Ascii("d")[0];
  }

  lemma NotShownLetters(last: string, x: Bytes)
    requires x != [] && last in {"o=z", "f=24", "a=q", "t=f"}
    ensures Gives(Letters("f=100," + last, x), Letters("f=100," + last, x))
  {
    hide StartsPNG, Asks, Typed, Join, Ascii, Spoils, Gives, Letters, BuildIIP;
    var fields := [Ascii("f=100"), Ascii(last)];
    SpoilingLetters();
    NotShown(Ascii(last)[..1], Ascii(last)[2..]);
    Typewritten(fields);
    JoinTwo("f=100", last);
    assert "f=100" + "," + last == "f=100," + last;
    Lettered("f=100," + last, fields, x);
    SequenceShownIff(fields, x);
  }

  // ---- the image sequence, read back ----

  /** An inline image says how long the PNG is, and holds it in base64. */
  lemma ImageReadsBack(png: Bytes) returns (digits: Bytes, payload: Bytes)
    ensures BuildIIP(png) == [ESC] + Ascii("]1337;File=inline=1;size=") + digits + Ascii(":") + payload + [ESC] + Ascii("\\")
    ensures IsDecimal(digits) && ReadDecimal(digits) == |png| && Base64.StdDecode(payload) == Some(png)
  {
    hide Decimal, Base64.StdEncode, Base64.StdDecode, ReadDecimal, IsDecimal;
    digits, payload := Decimal(|png|), Base64.StdEncode(png);
    DecimalReadsBack(|png|);
    Base64.StdRoundTrip(png);
    ImageLetters();
    assert IIP + digits + [COLON] + payload + ST
           == [ESC] + Ascii("]1337;File=inline=1;size=") + digits + Ascii(":") + payload + ([ESC] + Ascii("\\"));
  }

  lemma ImageLetters()
    ensures IIP == [ESC] + Ascii("]1337;File=inline=1;size=") && [COLON] == Ascii(":") && ST == [ESC] + Ascii("\\")
  {
    PrefixLetters();
    hide Ascii;
    assert Ascii(":")[0] == COLON && Ascii("\\")[0] == ST[1];
  }

  lemma PrefixLetters()
    ensures IIP == [ESC] + Ascii("]1337;File=inline=1;size=")
  {
    hide Ascii;
    var text := "]1337;File=inline=1;size=";
    assert forall i :: 0 <= i < |text| ==> Ascii(text)[i] as int == text[i] as int % 256;
    assert |IIP| == |text| + 1;
  }

  // ---- a PNG in pieces, in so many letters ----

  /** The fields of envelope `i` of `n`: f=100,m=1 first, m=1 in between, m=0 last. */
  function ChunkFields(i: nat, n: nat): (fields: seq<Bytes>)
    ensures fields != []
  {
    if i == 0 then [Ascii("f=100"), Ascii("m=1")] else if i < n - 1 then [Ascii("m=1")] else [Ascii("m=0")]
  }

  function ChunkControl(i: nat, n: nat): string {
    if i == 0 then "f=100,m=1" else if i < n - 1 then "m=1" else "m=0"
  }

  /** The envelopes with the pieces from `i` on. */
  function ChunksFrom(xs: seq<Bytes>, i: nat): Bytes
    requires i <= |xs|
    decreases |xs| - i
  {
    if i == |xs| then [] else Letters(ChunkControl(i, |xs|), xs[i]) + ChunksFrom(xs, i + 1)
  }

  function FlatFrom(xs: seq<Bytes>, i: nat): Bytes
    requires i <= |xs|
    decreases |xs| - i
  {
    if i == |xs| then [] else xs[i] + FlatFrom(xs, i + 1)
  }

  lemma FirstChunk()
    ensures var fields := [Ascii("f=100"), Ascii("m=1")]; StartsPNG(fields) && Asks(fields)
  {
    LetterFields();
    var fields := [Ascii("f=100"), Ascii("m=1")];
    SaysAt(fields, 0, Ascii("f"), Ascii("100"));
    SaysAt(fields, 1, Ascii("m"), Ascii("1"));
    SilentOn(fields, Ascii("a"));
    SilentOn(fields, Ascii("o"));
    SilentOn(fields, Ascii("t"));
    hide Says, Silent;
  }

  lemma LaterChunk(v: Bytes)
    ensures var fields := [Ascii("m") + Ascii("=") + v]; Continuing(fields) && (Asks(fields) <==> v == Ascii("1"))
  {
    var m := Ascii("m");
    var fields := [m + Ascii("=") + v];
    SaysAt(fields, 0, m, v);
    SaysNotSilent(fields, m, v);
    if v != Ascii("1") { Contradicts(fields, m, v, Ascii("1")); }
    forall name | IsName(name) && !Silent(fields, name) ensures name == m { OnlyName(m, v, name); }
    hide Says, Silent;
  }

  lemma OnlyName(m: Bytes, v: Bytes, name: Bytes)
    requires |m| == 1 && IsName(name) && About(m + Ascii("=") + v, name)
    ensures name == m
  {
    var field, start := m + Ascii("=") + v, name + Ascii("=");
    assert field[0] == m[0] && field[1] == EQUALS && start[|name|] == EQUALS;
    assert forall i :: 0 <= i < |start| ==> start[i] == field[i];
    assert forall i :: 0 <= i < |name| ==> name[i] == start[i] && name[i] != EQUALS;
  }

  lemma ChunkIsSent(i: nat, n: nat)
    requires i < n && n >= 2
    ensures var fields := ChunkFields(i, n);
            && Typed(fields) && Join(fields) == Ascii(ChunkControl(i, n)) && (Asks(fields) <==> i < n - 1)
            && (if i == 0 then StartsPNG(fields) else Continuing(fields))
  {
    hide Typed, Join, StartsPNG, Asks, Continuing, Ascii;
    LetterFields();
    Typewritten(ChunkFields(i, n));
    assert Ascii("0")[0] != Ascii("1")[0];
    if i == 0 {
      FirstChunk();
      JoinTwo("f=100", "m=1");
      assert "f=100" + "," + "m=1" == "f=100,m=1";
    } else {
      LaterChunk(Ascii(if i < n - 1 then "1" else "0"));
      JoinTwo(if i < n - 1 then "m=1" else "m=0", "");
    }
  }

  function PartsOf(xs: seq<Bytes>): seq<Part> {
    seq(|xs|, i requires 0 <= i < |xs| => PartOf(ChunkFields(i, |xs|), xs[i]))
  }

  function FieldsOf(n: nat): seq<seq<Bytes>> {
    seq(n, i requires 0 <= i < n => ChunkFields(i, n))
  }

  lemma {:induction false} PartsStream(xs: seq<Bytes>, i: nat)
    requires |xs| >= 2 && i <= |xs| && forall k :: 0 <= k < |xs| ==> xs[k] != []
    ensures Stream(PartsOf(xs)[i..]) == ChunksFrom(xs, i)
    ensures Gaps(PartsOf(xs)[i..]) == [] && Pieces(PartsOf(xs)[i..]) == FlatFrom(xs, i)
    decreases |xs| - i
  {
    hide PartOf, ChunkFields, ChunkControl, Letters, Part.Framed;
    if i < |xs| {
      var ps := PartsOf(xs)[i..];
      assert ps[1..] == PartsOf(xs)[i + 1..];
      PartsStream(xs, i + 1);
      ChunkLetters(xs[i], i, |xs|);
      assert ps[0].gap + ps[0].Framed() == ps[0].Framed();
    }
  }

  lemma ChunkLetters(x: Bytes, i: nat, n: nat)
    requires i < n && n >= 2 && x != []
    ensures var p := PartOf(ChunkFields(i, n), x);
            && p.Framed() == Letters(ChunkControl(i, n), x) && p.gap == [] && p.piece == x
            && p.Valid() && Written(p, ChunkFields(i, n))
  {
    ChunkIsSent(i, n);
    hide Typed, Join, StartsPNG, Asks, Continuing, Ascii, ChunkFields, ChunkControl, Letters, Part.Framed, Part.Valid, Written, Sequence;
    PartOfIs(ChunkFields(i, n), x);
    Lettered(ChunkControl(i, n), ChunkFields(i, n), x);
  }

  lemma ChunksAreSent(xs: seq<Bytes>)
    requires |xs| >= 2 && |FlatFrom(xs, 0)| <= 32 * 1024 * 1024 && forall k :: 0 <= k < |xs| ==> xs[k] != []
    ensures IsSent(PartsOf(xs), FieldsOf(|xs|))
  {
    hide StartsPNG, Asks, Continuing, PartOf, ChunkFields, Part.Valid, Written, Pieces, FlatFrom, ChunkControl, Letters, Part.Framed, Typed, Join;
    var ps, fs := PartsOf(xs), FieldsOf(|xs|);
    forall i | 0 <= i < |ps|
      ensures ps[i].Valid() && Written(ps[i], fs[i]) && (Asks(fs[i]) <==> i < |ps| - 1)
      ensures if i == 0 then StartsPNG(fs[i]) else Continuing(fs[i])
    {
      ChunkIsSent(i, |xs|);
      ChunkLetters(xs[i], i, |xs|);
    }
    PartsStream(xs, 0);
    assert ps[0..] == ps;
  }

  /** A PNG cut into pieces and sent with f=100,m=1, then m=1, then m=0: the one image of all of it. */
  lemma ChunkedIsShown(xs: seq<Bytes>)
    requires |xs| >= 2 && |FlatFrom(xs, 0)| <= 32 * 1024 * 1024 && forall k :: 0 <= k < |xs| ==> xs[k] != []
    ensures Gives(ChunksFrom(xs, 0), BuildIIP(FlatFrom(xs, 0)))
  {
    hide IsSent, PartsOf, FieldsOf, ChunksFrom, FlatFrom, Stream, Gaps, Pieces, BecomesImage, Gives, BuildIIP;
    ChunksAreSent(xs);
    SentIsShown(PartsOf(xs), FieldsOf(|xs|), []);
    PartsStream(xs, 0);
    assert PartsOf(xs)[0..] == PartsOf(xs);
    ChunksLong(xs);
    var d := ChunksFrom(xs, 0);
    assert [] + d + [] == d + [];
    ImageGives(d, FlatFrom(xs, 0));
  }

  lemma ChunksLong(xs: seq<Bytes>)
    requires xs != []
    ensures ChunksFrom(xs, 0) != []
  {}
}
