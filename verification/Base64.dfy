/**
 Base64 as Go's `encoding/base64` reads and writes it (RFC 4648, section 4): the
 decoder skips carriage returns and line feeds anywhere and does not look at the
 unused bits of the last sextet.
 */
module Base64 {
  import opened Bytes

  const PAD: byte := 61

  function Letter(v: int): (b: byte)
    requires 0 <= v < 64
    ensures Sextet(b) == v && b != PAD
  {
    if v < 26 then (65 + v) as byte
    else if v < 52 then (71 + v) as byte
    else if v < 62 then (v - 4) as byte
    else if v == 62 then 43 else 47
  }

  /** The value of an alphabet byte, or -1. */
  function Sextet(b: byte): (v: int)
    ensures -1 <= v < 64
  {
    if 65 <= b <= 90 then b as int - 65
    else if 97 <= b <= 122 then b as int - 71
    else if 48 <= b <= 57 then b as int + 4
    else if b == 43 then 62
    else if b == 47 then 63 else -1
  }

  function EncodeTriple(a: byte, b: byte, c: byte): (e: Bytes)
    ensures |e| == 4
  {
    [Letter(a as int / 4), Letter(a as int % 4 * 16 + b as int / 16),
     Letter(b as int % 16 * 4 + c as int / 64), Letter(c as int % 64)]
  }

  /** `RawStdEncoding`: no padding. */
  function RawEncode(x: Bytes): (e: Bytes)
    ensures |e| % 4 == [0, 2, 3][|x| % 3] && (x != [] ==> e != [])
    ensures forall i :: 0 <= i < |e| ==> Sextet(e[i]) >= 0
  {
    if |x| == 0 then []
    else if |x| == 1 then EncodeTriple(x[0], 0, 0)[..2]
    else if |x| == 2 then EncodeTriple(x[0], x[1], 0)[..3]
    else EncodeTriple(x[0], x[1], x[2]) + RawEncode(x[3..])
  }

  /** `StdEncoding`: padded to a multiple of four. */
  function StdEncode(x: Bytes): (e: Bytes)
    ensures |e| % 4 == 0 && (x != [] ==> e != [])
    ensures forall i :: 0 <= i < |e| ==> Sextet(e[i]) >= 0 || e[i] == PAD
  {
    RawEncode(x) + (if |x| % 3 == 0 then [] else if |x| % 3 == 1 then [PAD, PAD] else [PAD])
  }

  predicate Alphabetic(s: Bytes) {
    forall i :: 0 <= i < |s| ==> Sextet(s[i]) >= 0
  }

  /** One, two or three bytes from a quantum of two, three or four letters. */
  function DecodeQuantum(s: Bytes): (r: Option<Bytes>)
    requires 2 <= |s| <= 4
    ensures r.Some? <==> Alphabetic(s)
    ensures r.Some? ==> |r.value| == |s| - 1
  {
    if !Alphabetic(s) then None
    else
      var v0, v1 := Sextet(s[0]), Sextet(s[1]);
      var a := (v0 * 4 + v1 / 16) as byte;
      if |s| == 2 then Some([a])
      else
        var v2 := Sextet(s[2]);
        var b := (v1 % 16 * 16 + v2 / 4) as byte;
        if |s| == 3 then Some([a, b])
        else Some([a, b, (v2 % 4 * 64 + Sextet(s[3])) as byte])
  }

  function Prepend(h: Option<Bytes>, t: Option<Bytes>): Option<Bytes> {
    if h.Some? && t.Some? then Some(h.value + t.value) else None
  }

  /** `RawStdEncoding.DecodeString`, line breaks already removed. */
  function RawDecode(s: Bytes): Option<Bytes> {
    if |s| == 0 then Some([])
    else if |s| == 1 then None
    else if |s| <= 4 then DecodeQuantum(s)
    else Prepend(DecodeQuantum(s[..4]), RawDecode(s[4..]))
  }

  /** `StdEncoding.DecodeString`, line breaks already removed. */
  function StdDecode(s: Bytes): (r: Option<Bytes>)
    ensures r.Some? ==> |s| % 4 == 0
  {
    if |s| == 0 then Some([])
    else if |s| < 4 then None
    else if |s| == 4 && s[3] == PAD then
      DecodeQuantum(if s[2] == PAD then s[..2] else s[..3])
    else Prepend(DecodeQuantum(s[..4]), StdDecode(s[4..]))
  }

  function StripLineBreaks(s: Bytes): Bytes {
    if s == [] then []
    else (if s[0] == 10 || s[0] == 13 then [] else [s[0]]) + StripLineBreaks(s[1..])
  }

  lemma SextetsOfThree(a: int, b: int, c: int)
    requires 0 <= a < 256 && 0 <= b < 256 && 0 <= c < 256
    ensures var v1, v2 := a % 4 * 16 + b / 16, b % 16 * 4 + c / 64;
            a / 4 * 4 + v1 / 16 == a && v1 % 16 * 16 + v2 / 4 == b && v2 % 4 * 64 + c % 64 == c
  {}

  lemma TripleSextets(a: byte, b: byte, c: byte)
    ensures var e := EncodeTriple(a, b, c);
            && Sextet(e[0]) == a as int / 4 && Sextet(e[1]) == a as int % 4 * 16 + b as int / 16
            && Sextet(e[2]) == b as int % 16 * 4 + c as int / 64 && Sextet(e[3]) == c as int % 64
  {
    hide Sextet, Letter;
  }

  /** Capitals, small letters, digits, plus and slash, in this order. */
  lemma Alphabet(v: int)
    requires 0 <= v < 64
    ensures Letter(v) as int == if v < 26 then 'A' as int + v else if v < 52 then 'a' as int + (v - 26)
                                else if v < 62 then '0' as int + (v - 52) else if v == 62 then '+' as int else '/' as int
  {}

  /** Three bytes and their four letters are the same 24-bit number, most significant part first. */
  lemma TripleIsNumber(a: byte, b: byte, c: byte)
    ensures var e := EncodeTriple(a, b, c);
            ((Sextet(e[0]) * 64 + Sextet(e[1])) * 64 + Sextet(e[2])) * 64 + Sextet(e[3]) == (a as int * 256 + b as int) * 256 + c as int
  {
    hide Sextet, Letter, EncodeTriple;
    TripleSextets(a, b, c);
    SextetsOfThree(a as int, b as int, c as int);
  }

  lemma DecodesFour(s: Bytes, a: byte, b: byte, c: byte)
    requires |s| == 4 && Alphabetic(s)
    requires Sextet(s[0]) * 4 + Sextet(s[1]) / 16 == a as int && Sextet(s[1]) % 16 * 16 + Sextet(s[2]) / 4 == b as int
    requires Sextet(s[2]) % 4 * 64 + Sextet(s[3]) == c as int
    ensures DecodeQuantum(s) == Some([a, b, c])
  {
    hide Sextet, Alphabetic;
  }

  lemma Quantum4(a: byte, b: byte, c: byte)
    ensures DecodeQuantum(EncodeTriple(a, b, c)) == Some([a, b, c])
  {
    hide Sextet, Letter, EncodeTriple, Alphabetic, DecodeQuantum;
    TripleSextets(a, b, c);
    SextetsOfThree(a as int, b as int, c as int);
    TripleIsAlphabetic(a, b, c);
    DecodesFour(EncodeTriple(a, b, c), a, b, c);
  }

  lemma DecodesThree(s: Bytes, a: byte, b: byte)
    requires |s| == 3 && Alphabetic(s)
    requires Sextet(s[0]) * 4 + Sextet(s[1]) / 16 == a as int && Sextet(s[1]) % 16 * 16 + Sextet(s[2]) / 4 == b as int
    ensures DecodeQuantum(s) == Some([a, b])
  {
    hide Sextet, Alphabetic;
  }

  lemma Quantum3(a: byte, b: byte)
    ensures DecodeQuantum(EncodeTriple(a, b, 0)[..3]) == Some([a, b])
  {
    hide Sextet, Letter, EncodeTriple, DecodeQuantum;
    TripleSextets(a, b, 0);
    SextetsOfThree(a as int, b as int, 0);
    TripleIsAlphabetic(a, b, 0);
    DecodesThree(EncodeTriple(a, b, 0)[..3], a, b);
  }

  lemma Quantum2(a: byte)
    ensures DecodeQuantum(EncodeTriple(a, 0, 0)[..2]) == Some([a])
  {
    hide Sextet, Letter;
  }

  lemma TripleIsAlphabetic(a: byte, b: byte, c: byte)
    ensures Alphabetic(EncodeTriple(a, b, c))
  {
    hide Sextet, Letter;
  }

  lemma {:induction false} RawRoundTrip(x: Bytes)
    ensures RawDecode(RawEncode(x)) == Some(x)
  {
    hide DecodeQuantum, EncodeTriple, Alphabetic, Sextet;
    if |x| == 1 {
      Quantum2(x[0]);
      assert x == [x[0]];
    } else if |x| == 2 {
      Quantum3(x[0], x[1]);
      assert x == [x[0], x[1]];
    } else if |x| > 2 {
      var e, rest := EncodeTriple(x[0], x[1], x[2]), RawEncode(x[3..]);
      assert RawEncode(x) == e + rest;
      RawRoundTrip(x[3..]);
      hide RawEncode, RawDecode;
      Quantum4(x[0], x[1], x[2]);
      TripleIsAlphabetic(x[0], x[1], x[2]);
      RawStep(e, rest);
      assert x == [x[0], x[1], x[2]] + x[3..];
    }
  }

  /** The last, padded quantum. */
  lemma StdShort(x: Bytes)
    requires 1 <= |x| <= 2
    ensures StdDecode(StdEncode(x)) == Some(x)
  {
    hide DecodeQuantum, Sextet, Letter;
    var e := StdEncode(x);
    if |x| == 1 {
      Quantum2(x[0]);
      assert x == [x[0]];
      assert e[..2] == EncodeTriple(x[0], 0, 0)[..2];
    } else {
      Quantum3(x[0], x[1]);
      assert x == [x[0], x[1]];
      assert e[..3] == EncodeTriple(x[0], x[1], 0)[..3];
    }
  }

  lemma StdEncodeStep(x: Bytes)
    requires |x| > 2
    ensures StdEncode(x) == EncodeTriple(x[0], x[1], x[2]) + StdEncode(x[3..])
  {
    hide EncodeTriple, Sextet;
  }

  lemma {:induction false} StdRoundTrip(x: Bytes)
    ensures StdDecode(StdEncode(x)) == Some(x)
  {
    if 1 <= |x| <= 2 {
      StdShort(x);
    } else if |x| > 2 {
      hide DecodeQuantum, Alphabetic, Sextet, EncodeTriple;
      var e, rest := EncodeTriple(x[0], x[1], x[2]), StdEncode(x[3..]);
      hide StdEncode, StdDecode, RawEncode;
      StdEncodeStep(x);
      StdRoundTrip(x[3..]);
      Quantum4(x[0], x[1], x[2]);
      TripleIsAlphabetic(x[0], x[1], x[2]);
      StdStep(e, rest);
      assert x == [x[0], x[1], x[2]] + x[3..];
    }
  }

  lemma RawStep(e: Bytes, rest: Bytes)
    requires |e| == 4 && Alphabetic(e)
    ensures RawDecode(e + rest) == Prepend(DecodeQuantum(e), RawDecode(rest))
  {
    assert (e + rest)[..4] == e && (e + rest)[4..] == rest;
    assert rest == [] ==> e + rest == e;
    assert DecodeQuantum(e).value + [] == DecodeQuantum(e).value;
  }

  lemma StdStep(e: Bytes, rest: Bytes)
    requires |e| == 4 && Alphabetic(e)
    ensures StdDecode(e + rest) == Prepend(DecodeQuantum(e), StdDecode(rest))
  {
    assert (e + rest)[..4] == e && (e + rest)[4..] == rest;
    assert Sextet(e[3]) >= 0;
  }

  lemma StdOfThree(x: Bytes)
    requires |x| <= 3
    ensures StdEncode(x) == if x == [] then [] else if |x| == 1 then EncodeTriple(x[0], 0, 0)[..2] + [PAD, PAD]
                            else if |x| == 2 then EncodeTriple(x[0], x[1], 0)[..3] + [PAD] else EncodeTriple(x[0], x[1], x[2])
  {
    hide EncodeTriple;
    if |x| == 3 {
      assert x[3..] == [] && RawEncode([]) == [];
      assert RawEncode(x) == EncodeTriple(x[0], x[1], x[2]) + RawEncode(x[3..]);
      assert EncodeTriple(x[0], x[1], x[2]) + [] + [] == EncodeTriple(x[0], x[1], x[2]);
    }
  }

  lemma StdOfSix(x: Bytes)
    requires |x| == 6
    ensures StdEncode(x) == EncodeTriple(x[0], x[1], x[2]) + EncodeTriple(x[3], x[4], x[5])
  {
    hide EncodeTriple;
    StdOfThree(x[3..]);
    assert RawEncode(x[3..]) + [] == RawEncode(x[3..]);
    assert RawEncode(x) + [] == RawEncode(x);
  }

  /** The examples of section 10 of RFC 4648. */
  lemma Examples()
    ensures StdEncode([]) == [] && StdEncode(Ascii("f")) == Ascii("Zg==") && StdEncode(Ascii("fo")) == Ascii("Zm8=")
    ensures StdEncode(Ascii("foo")) == Ascii("Zm9v") && StdEncode(Ascii("foobar")) == Ascii("Zm9vYmFy")
  {
    hide EncodeTriple, StdEncode;
    ExampleTriples();
    StdOfThree([]);
    StdOfThree(Ascii("f"));
    StdOfThree(Ascii("fo"));
    StdOfThree(Ascii("foo"));
    StdOfSix(Ascii("foobar"));
    assert Ascii("Zm9v") + Ascii("YmFy") == Ascii("Zm9vYmFy");
  }

  lemma ExampleTriples()
    ensures EncodeTriple(102, 0, 0)[..2] + [PAD, PAD] == Ascii("Zg==") && EncodeTriple(102, 111, 0)[..3] + [PAD] == Ascii("Zm8=")
    ensures EncodeTriple(102, 111, 111) == Ascii("Zm9v") && EncodeTriple(98, 97, 114) == Ascii("YmFy")
  {
    hide EncodeTriple, Ascii;
    ShortTriples();
    LongTriples();
  }

  lemma TripleOf(a: byte, b: byte, c: byte, v0: int, v1: int, v2: int, v3: int)
    requires a as int / 4 == v0 && a as int % 4 * 16 + b as int / 16 == v1
    requires b as int % 16 * 4 + c as int / 64 == v2 && c as int % 64 == v3
    ensures EncodeTriple(a, b, c) == [Letter(v0), Letter(v1), Letter(v2), Letter(v3)]
  {
    hide Letter;
  }

  lemma ShortTriples()
    ensures EncodeTriple(102, 0, 0)[..2] + [PAD, PAD] == Ascii("Zg==") && EncodeTriple(102, 111, 0)[..3] + [PAD] == Ascii("Zm8=")
  {
    hide EncodeTriple, Ascii;
    TripleOf(102, 0, 0, 25, 32, 0, 0);
    TripleOf(102, 111, 0, 25, 38, 60, 0);
    assert Letter(25) == 90 && Letter(32) == 103 && Letter(38) == 109 && Letter(60) == 56;
    hide Letter;
    assert Ascii("Zg==") == [90, 103, 61, 61] && Ascii("Zm8=") == [90, 109, 56, 61];
  }

  lemma LongTriples()
    ensures EncodeTriple(102, 111, 111) == Ascii("Zm9v") && EncodeTriple(98, 97, 114) == Ascii("YmFy")
  {
    hide EncodeTriple, Ascii;
    TripleOf(102, 111, 111, 25, 38, 61, 47);
    TripleOf(98, 97, 114, 24, 38, 5, 50);
    assert Letter(25) == 90 && Letter(38) == 109 && Letter(61) == 57 && Letter(47) == 118;
    assert Letter(24) == 89 && Letter(5) == 70 && Letter(50) == 121;
    hide Letter;
    assert Ascii("Zm9v") == [90, 109, 57, 118] && Ascii("YmFy") == [89, 109, 70, 121];
  }

  /** Unpadded text is accepted iff it is made of letters and its length can be that of an encoding. */
  lemma {:induction false} RawAccepts(s: Bytes)
    ensures RawDecode(s).Some? <==> |s| % 4 != 1 && Alphabetic(s)
    decreases |s|
  {
    hide Sextet, DecodeQuantum;
    if |s| > 4 {
      RawAccepts(s[4..]);
      AlphabeticParts(s, 4);
    }
  }

  lemma AlphabeticParts(s: Bytes, n: nat)
    requires n <= |s|
    ensures Alphabetic(s) <==> Alphabetic(s[..n]) && Alphabetic(s[n..])
  {
    hide Sextet;
    assert forall i :: n <= i < |s| ==> s[n..][i - n] == s[i];
    assert forall i :: 0 <= i < n ==> s[..n][i] == s[i];
  }

  /** Letters, and at most two pads behind them. */
  predicate Padded(s: Bytes) {
    && |s| % 4 == 0
    && (|| Alphabetic(s) || (s != [] && s[|s| - 1] == PAD && Alphabetic(s[..|s| - 1]))
        || (s != [] && s[|s| - 1] == PAD && s[|s| - 2] == PAD && Alphabetic(s[..|s| - 2])))
  }

  /** Padded text is accepted iff its length is a multiple of four and it is letters with at most two pads behind them. */
  lemma {:induction false} StdAccepts(s: Bytes)
    ensures StdDecode(s).Some? <==> Padded(s)
    decreases |s|
  {
    hide DecodeQuantum;
    if |s| == 4 {
      assert s[4..] == [] && s[..4] == s;
      assert !Alphabetic(s[..4]) || s[3] != PAD by { assert Sextet(PAD) == -1; }
      assert s[..3][..2] == s[..2];
    } else if |s| > 4 {
      StdAccepts(s[4..]);
      PaddedBehind(s);
    }
  }

  lemma PaddedBehind(s: Bytes)
    requires |s| > 4
    ensures Padded(s) <==> Alphabetic(s[..4]) && Padded(s[4..])
  {
    var n := |s|;
    if n % 4 == 0 {
      AlphabeticParts(s, 4);
      AlphabeticParts(s[..n - 1], 4);
      AlphabeticParts(s[..n - 2], 4);
      hide Alphabetic;
      var rest := s[4..];
      assert rest[|rest| - 1] == s[n - 1] && rest[|rest| - 2] == s[n - 2];
      assert s[..n - 1][..4] == s[..4] && s[..n - 2][..4] == s[..4];
      assert s[..n - 1][4..] == rest[..|rest| - 1] && s[..n - 2][4..] == rest[..|rest| - 2];
    }
  }
}
