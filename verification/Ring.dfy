/**
 The two rings that keep the newest output. One copies in bulk, the other byte by byte; both
 hold the last bytes of everything ever written, as many as they have room for.
 */
module Ring {
  import opened Bytes

  const DEFAULT_RING_SIZE := 256 * 1024

  /** Where the byte of age `k` is, the newest being of age 0, when `pos` is written next. */
  function Slot(pos: nat, k: nat, n: nat): nat
    requires pos < n && k < n
  {
    if k < pos then pos - 1 - k else n + pos - 1 - k
  }

  /** The ring holds the newest bytes of `stream`. */
  ghost predicate Holds(buf: Bytes, pos: nat, full: bool, stream: Bytes) {
    && pos < |buf|
    && (full <==> |stream| >= |buf|)
    && (!full ==> pos == |stream|)
    && forall k :: 0 <= k < |buf| && k < |stream| ==> buf[Slot(pos, k, |buf|)] == stream[|stream| - 1 - k]
  }

  /** A block written from `pos` on, continued at the front. */
  predicate Spliced(was: Bytes, now: Bytes, pos: nat, p: Bytes) {
    && |now| == |was|
    && forall j :: 0 <= j < |was| ==>
        var d := if j >= pos then j - pos else j - pos + |was|;
        now[j] == if 0 <= d < |p| then p[d] else was[j]
  }

  lemma HoldsBlock(buf: Bytes, buf': Bytes, pos: nat, full: bool, stream: Bytes, p: Bytes)
    requires Holds(buf, pos, full, stream) && |p| < |buf| && Spliced(buf, buf', pos, p)
    ensures var n := |buf|;
            var pos' := if pos + |p| < n then pos + |p| else pos + |p| - n;
            Holds(buf', pos', full || pos + |p| >= n, stream + p)
  {
    var n, s' := |buf|, stream + p;
    var pos' := if pos + |p| < n then pos + |p| else pos + |p| - n;
    forall k | 0 <= k < n && k < |s'|
      ensures buf'[Slot(pos', k, n)] == s'[|s'| - 1 - k]
    {
      var j := Slot(pos', k, n);
      if k < |p| {
        assert buf'[j] == p[|p| - 1 - k];
      } else {
        assert j == Slot(pos, k - |p|, n) && buf'[j] == buf[j];
      }
    }
  }

  lemma WrapsOnce(pos: nat, k: nat, n: nat)
    requires pos < n && k < n
    ensures (pos + k) % n == if pos + k < n then pos + k else pos + k - n
  {}

  lemma HoldsInside(buf: Bytes, pos: nat, full: bool, stream: Bytes)
    requires Holds(buf, pos, full, stream)
    ensures pos < |buf|
  {}

  lemma HoldsWhole(buf: Bytes, stream: Bytes, p: Bytes)
    requires 0 < |buf| <= |p| && buf == p[|p| - |buf|..]
    requires |p| <= |stream| && stream[|stream| - |p|..] == p
    ensures Holds(buf, 0, true, stream)
  {
    forall k | 0 <= k < |buf|
      ensures buf[Slot(0, k, |buf|)] == stream[|stream| - 1 - k]
    {
      assert p[|p| - 1 - k] == stream[|stream| - 1 - k];
    }
  }

  /** One byte put at the write position. */
  lemma HoldsOneMore(buf: Bytes, buf': Bytes, pos: nat, full: bool, stream: Bytes, b: byte)
    requires Holds(buf, pos, full, stream) && pos < |buf| && buf' == buf[..pos] + [b] + buf[pos + 1..]
    ensures var last := pos + 1 == |buf|;
            Holds(buf', if last then 0 else pos + 1, full || last, stream + [b])
  {
    hide Holds;
    if |buf| > 1 {
      assert Spliced(buf, buf', pos, [b]);
      HoldsBlock(buf, buf', pos, full, stream, [b]);
    } else {
      assert buf' == [b] && (stream + [b])[|stream|..] == [b];
      HoldsWhole(buf', stream + [b], [b]);
    }
  }

  /** What a snapshot copies out: from the write position round to it again, or up to it. */
  function Unroll(buf: Bytes, pos: nat, full: bool): Bytes
    requires pos <= |buf|
  {
    if full then buf[pos..] + buf[..pos] else buf[..pos]
  }

  lemma UnrollIsLastN(buf: Bytes, pos: nat, full: bool, stream: Bytes)
    requires Holds(buf, pos, full, stream)
    ensures Unroll(buf, pos, full) == LastN(stream, |buf|)
  {
    var u, l := Unroll(buf, pos, full), LastN(stream, |buf|);
    forall i | 0 <= i < |u|
      ensures u[i] == l[i]
    {
      var k := |u| - 1 - i;
      assert buf[Slot(pos, k, |buf|)] == stream[|stream| - 1 - k];
    }
  }

  /** The bulk-copying ring of the PTY package. */
  class BulkRing {
    const buf: array<byte>
    var pos: nat
    var full: bool
    ghost var stream: Bytes

    ghost predicate Valid()
      reads this, buf
    {
      Holds(buf[..], pos, full, stream)
    }

    constructor (size: int)
      ensures Valid() && fresh(buf) && stream == []
      ensures buf.Length == if size <= 0 then DEFAULT_RING_SIZE else size
    {
      var n := if size <= 0 then DEFAULT_RING_SIZE else size;
      buf := new byte[n](i => 0);
      pos, full, stream := 0, false, [];
    }

    method Write(p: Bytes)
      requires Valid()
      modifies this, buf
      ensures Valid() && stream == old(stream) + p
    {
      if |p| == 0 {
        assert stream + p == stream;
        return;
      }
      if |p| >= buf.Length {
        stream := stream + p;
        CopyNewest(p);
        HoldsWhole(buf[..], stream, p);
        pos, full := 0, true;
        return;
      }
      WriteShort(p);
    }

    /** A block smaller than the ring. */
    method WriteShort(p: Bytes)
      requires Valid() && 0 < |p| < buf.Length
      modifies this, buf
      ensures Valid() && stream == old(stream) + p
    {
      HoldsInside(buf[..], pos, full, stream);
      hide Holds, Spliced;
      WrapsOnce(pos, |p|, buf.Length);
      stream := stream + p;
      ghost var was := buf[..];
      var n := CopyIn(p);
      HoldsBlock(was, buf[..], pos, full, old(stream), p);
      if n < |p| {
        full := true;
      }
      pos := (pos + |p|) % buf.Length;
      if pos == 0 {
        full := true;
      }
    }

    /** The one `copy` call of a block that fills the ring. */
    method CopyNewest(p: Bytes)
      requires |p| >= buf.Length
      modifies buf
      ensures buf[..] == p[|p| - buf.Length..]
    {
      forall i | 0 <= i < buf.Length {
        buf[i] := p[|p| - buf.Length + i];
      }
    }

    /** The two `copy` calls: as much as fits up to the end, the rest at the front. */
    method CopyIn(p: Bytes) returns (n: nat)
      requires pos < buf.Length && |p| < buf.Length
      modifies buf
      ensures n == if |p| < buf.Length - pos then |p| else buf.Length - pos
      ensures Spliced(old(buf[..]), buf[..], pos, p)
    {
      n := if |p| < buf.Length - pos then |p| else buf.Length - pos;
      forall i | 0 <= i < n {
        buf[pos + i] := p[i];
      }
      if n < |p| {
        forall i | 0 <= i < |p| - n {
          buf[i] := p[n + i];
        }
      }
    }

    method Snapshot() returns (s: Bytes)
      requires Valid()
      ensures s == LastN(stream, buf.Length)
    {
      UnrollIsLastN(buf[..], pos, full, stream);
      if !full {
        return buf[..pos];
      }
      return buf[pos..] + buf[..pos];
    }
  }

  /** The byte-at-a-time ring of the daemon package. */
  class TailRing {
    const buf: array<byte>
    var wpos: nat
    var full: bool
    ghost var stream: Bytes

    ghost predicate Valid()
      reads this, buf
    {
      Holds(buf[..], wpos, full, stream)
    }

    constructor (size: int)
      ensures Valid() && fresh(buf) && stream == []
      ensures buf.Length == if size <= 0 then 1 else size
    {
      var n := if size <= 0 then 1 else size;
      buf := new byte[n](i => 0);
      wpos, full, stream := 0, false, [];
    }

    method Write(p: Bytes) returns (n: nat)
      requires Valid()
      modifies this, buf
      ensures Valid() && stream == old(stream) + p && n == |p|
    {
      for i := 0 to |p|
        invariant Valid() && stream == old(stream) + p[..i]
      {
        Put(p[i]);
        assert p[..i + 1] == p[..i] + [p[i]];
      }
      assert p[..|p|] == p;
      n := |p|;
    }

    /** The body of the loop over the bytes written. */
    method Put(b: byte)
      requires Valid()
      modifies this, buf
      ensures Valid() && stream == old(stream) + [b]
    {
      hide Holds, Slot;
      HoldsInside(buf[..], wpos, full, stream);
      ghost var was := buf[..];
      buf[wpos] := b;
      assert buf[..] == was[..wpos] + [b] + was[wpos + 1..];
      stream := stream + [b];
      HoldsOneMore(was, buf[..], wpos, full, old(stream), b);
      wpos := wpos + 1;
      if wpos == buf.Length {
        wpos, full := 0, true;
      }
    }

    method Snapshot() returns (s: Bytes)
      requires Valid()
      ensures s == LastN(stream, buf.Length)
    {
      UnrollIsLastN(buf[..], wpos, full, stream);
      if !full {
        return buf[..wpos];
      }
      return buf[wpos..] + buf[..wpos];
    }

    method Len() returns (n: nat)
      requires Valid()
      ensures n == |LastN(stream, buf.Length)|
    {
      n := if full then buf.Length else wpos;
    }

    method Reset()
      requires Valid()
      modifies this
      ensures Valid() && stream == []
    {
      wpos, full, stream := 0, false, [];
    }
  }

  /** Whatever is written to two rings of one size, in whatever blocks, their snapshots agree. */
  method SameSnapshots(a: BulkRing, b: TailRing, blocks: seq<Bytes>) returns (x: Bytes, y: Bytes)
    requires a.Valid() && b.Valid() && a.buf.Length == b.buf.Length && a.stream == b.stream && a.buf != b.buf
    modifies a, a.buf, b, b.buf
    ensures x == y == LastN(a.stream, a.buf.Length) && a.stream == b.stream
  {
    for i := 0 to |blocks|
      invariant a.Valid() && b.Valid() && a.stream == b.stream
    {
      a.Write(blocks[i]);
      var _ := b.Write(blocks[i]);
    }
    x := a.Snapshot();
    y := b.Snapshot();
  }
}
