/** Byte strings, and the two searches the source takes from Go's `bytes` package. */
module Bytes {
  newtype byte = b: int | 0 <= b < 256

  type Bytes = seq<byte>

  const ESC: byte := 0x1b

  /** The bytes of a text of one-byte characters. */
  function Ascii(s: string): (b: Bytes)
    ensures |b| == |s| && forall i :: 0 <= i < |s| ==> b[i] == (s[i] as int % 256) as byte
  {
    seq(|s|, i requires 0 <= i < |s| => (s[i] as int % 256) as byte)
  }

  datatype Option<+T> = None | Some(value: T)

  /** `p` occurs in `s` starting at index `i`. */
  predicate OccursAt(s: Bytes, p: Bytes, i: int) {
    0 <= i <= |s| - |p| && s[i..i + |p|] == p
  }

  /** The first index from `i` on at which `p` occurs, or -1. */
  function IndexFrom(s: Bytes, p: Bytes, i: nat): (r: int)
    ensures r == -1 || (i <= r && OccursAt(s, p, r))
    ensures forall j :: i <= j && OccursAt(s, p, j) ==> 0 <= r <= j
    decreases |s| - i
  {
    if i + |p| > |s| then -1
    else if OccursAt(s, p, i) then i
    else IndexFrom(s, p, i + 1)
  }

  /** `bytes.Index`: the first index at which `p` occurs, or -1. */
  function Index(s: Bytes, p: Bytes): (r: int)
    ensures r == -1 || (0 <= r && OccursAt(s, p, r))
    ensures forall j :: OccursAt(s, p, j) ==> 0 <= r <= j
  {
    IndexFrom(s, p, 0)
  }

  /** Index is the only number that meets its contract. */
  lemma IndexUnique(s: Bytes, p: Bytes, r: int)
    requires OccursAt(s, p, r)
    requires forall i :: 0 <= i < r ==> !OccursAt(s, p, i)
    ensures Index(s, p) == r
  {}

  /** Appending text does not move the first occurrence. */
  lemma IndexAppend(s: Bytes, q: Bytes, p: Bytes)
    requires Index(s, p) >= 0
    ensures Index(s + q, p) == Index(s, p)
  {
    hide Index;
    OccursInPrefix(s, q, p);
  }

  lemma OccursInPrefix(s: Bytes, q: Bytes, p: Bytes)
    ensures forall i :: i + |p| <= |s| ==> (OccursAt(s + q, p, i) <==> OccursAt(s, p, i))
  {
    forall i | 0 <= i && i + |p| <= |s|
      ensures OccursAt(s + q, p, i) <==> OccursAt(s, p, i)
    {
      assert (s + q)[i..i + |p|] == s[i..i + |p|];
    }
  }

  lemma OccursInSuffix(t: Bytes, s: Bytes, p: Bytes)
    ensures forall i :: i >= 0 ==> (OccursAt(t + s, p, |t| + i) <==> OccursAt(s, p, i))
  {
    forall i | 0 <= i <= |s| - |p|
      ensures OccursAt(t + s, p, |t| + i) <==> OccursAt(s, p, i)
    {
      assert (t + s)[|t| + i..|t| + i + |p|] == s[i..i + |p|];
    }
  }

  lemma OccursByte(s: Bytes, p: Bytes, i: int, k: int)
    ensures OccursAt(s, p, i) && 0 <= k < |p| ==> s[i + k] == p[k]
  {
    assert OccursAt(s, p, i) && 0 <= k < |p| ==> s[i..i + |p|][k] == p[k];
  }

  /** A single byte can be found with the same search. */
  function IndexByte(s: Bytes, b: byte): (r: int)
    ensures r == -1 || (0 <= r < |s| && s[r] == b)
    ensures forall i :: 0 <= i < |s| && s[i] == b ==> 0 <= r <= i
  {
    if s == [] then -1
    else if s[0] == b then 0
    else
      var r := IndexByte(s[1..], b);
      if r < 0 then -1 else r + 1
  }

  /** The newest `n` bytes of `s`. */
  function LastN(s: Bytes, n: nat): (r: Bytes)
    ensures |r| == if |s| < n then |s| else n
  {
    if |s| <= n then s else s[|s| - n..]
  }
}
