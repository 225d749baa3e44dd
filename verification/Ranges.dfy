/**
 Hiding what the log scan matched. The matches are arbitrary non-empty ranges of the line.
 */
module Ranges {

  datatype Range = Range(start: int, end: int)

  const REDACTION: string := "[REDACTED]"
  const SNIPPET: nat := 240

  predicate Before(a: Range, b: Range) {
    if a.start == b.start then a.end <= b.end else a.start < b.start
  }

  ghost predicate Sorted(ranges: seq<Range>) {
    forall i, j :: 0 <= i < j < |ranges| ==> Before(ranges[i], ranges[j])
  }

  /** Each range holds something. */
  ghost predicate Nonempty(ranges: seq<Range>) {
    forall i :: 0 <= i < |ranges| ==> ranges[i].start < ranges[i].end
  }

  ghost predicate Separated(ranges: seq<Range>) {
    forall i, j :: 0 <= i < j < |ranges| ==> ranges[i].end < ranges[j].start
  }

  predicate Covered(ranges: seq<Range>, x: int) {
    exists i :: 0 <= i < |ranges| && ranges[i].start <= x < ranges[i].end
  }

  ghost predicate SameCover(a: seq<Range>, b: seq<Range>) {
    forall x :: Covered(a, x) <==> Covered(b, x)
  }

  // ---- sorting (the library's) ----

  function Insert(ranges: seq<Range>, r: Range): (s: seq<Range>)
    ensures multiset(s) == multiset(ranges + [r])
  {
    if ranges == [] then [r]
    else if Before(r, ranges[0]) then
      assert multiset([r] + ranges) == multiset(ranges + [r]);
      [r] + ranges
    else
      assert ranges + [r] == [ranges[0]] + (ranges[1..] + [r]);
      [ranges[0]] + Insert(ranges[1..], r)
  }

  lemma {:induction false} InsertSorts(ranges: seq<Range>, r: Range)
    requires Sorted(ranges)
    ensures Sorted(Insert(ranges, r))
  {
    if ranges != [] && !Before(r, ranges[0]) {
      InsertSorts(ranges[1..], r);
      var s := Insert(ranges[1..], r);
      forall i | 0 <= i < |s| ensures Before(ranges[0], s[i]) {
        assert s[i] in multiset(s);
        assert s[i] in ranges[1..] + [r];
      }
    }
  }

  function Sort(ranges: seq<Range>): (s: seq<Range>)
    ensures multiset(s) == multiset(ranges)
  {
    if ranges == [] then []
    else
      var n := |ranges| - 1;
      assert ranges == ranges[..n] + [ranges[n]];
      Insert(Sort(ranges[..n]), ranges[n])
  }

  lemma {:induction false} SortSorts(ranges: seq<Range>)
    ensures Sorted(Sort(ranges))
  {
    if ranges != [] {
      SortSorts(ranges[..|ranges| - 1]);
      InsertSorts(Sort(ranges[..|ranges| - 1]), ranges[|ranges| - 1]);
    }
  }

  lemma SameElements(a: seq<Range>, b: seq<Range>)
    requires multiset(a) == multiset(b)
    ensures SameCover(a, b) && (Nonempty(a) ==> Nonempty(b))
  {
    assert forall r :: r in a <==> r in multiset(a);
    assert forall r :: r in b <==> r in multiset(b);
    forall x | Covered(a, x) ensures Covered(b, x) {
      var i :| 0 <= i < |a| && a[i].start <= x < a[i].end;
      assert a[i] in b;
    }
    forall x | Covered(b, x) ensures Covered(a, x) {
      var i :| 0 <= i < |b| && b[i].start <= x < b[i].end;
      assert b[i] in a;
    }
    if Nonempty(a) {
      forall i | 0 <= i < |b| ensures b[i].start < b[i].end { assert b[i] in a; }
    }
  }

  // ---- merging ----

  lemma CoveredLast(ranges: seq<Range>, r: Range, x: int)
    ensures Covered(ranges + [r], x) <==> Covered(ranges, x) || r.start <= x < r.end
  {
    var all := ranges + [r];
    if Covered(ranges, x) {
      var i :| 0 <= i < |ranges| && ranges[i].start <= x < ranges[i].end;
      assert all[i] == ranges[i];
    }
    if r.start <= x < r.end { assert all[|ranges|] == r; }
    if Covered(all, x) {
      var i :| 0 <= i < |all| && all[i].start <= x < all[i].end;
      assert i < |ranges| ==> ranges[i] == all[i];
    }
  }

  /** One more range: appended, or the last one extended. */
  lemma CoverStep(done: seq<Range>, out: seq<Range>, last: Range, r: Range)
    requires SameCover(done, out + [last])
    ensures SameCover(done + [r], out + [last] + [r])
    ensures last.start <= r.start <= last.end ==> SameCover(done + [r], out + [if r.end > last.end then last.(end := r.end) else last])
  {
    var longer := if r.end > last.end then last.(end := r.end) else last;
    forall x
      ensures Covered(done + [r], x) <==> Covered(out + [last] + [r], x)
      ensures last.start <= r.start <= last.end ==> (Covered(done + [r], x) <==> Covered(out + [longer], x))
    {
      assert Covered(done, x) <==> Covered(out + [last], x);
      hide Covered;
      CoveredLast(done, r, x);
      CoveredLast(out, last, x);
      CoveredLast(out, longer, x);
      CoveredLast(out + [last], r, x);
    }
  }

  method MergeSecurityRanges(ranges: seq<Range>) returns (out: seq<Range>)
    requires Sorted(ranges)
    ensures Separated(out) && SameCover(ranges, out)
    ensures Nonempty(ranges) ==> Nonempty(out)
  {
    out := [];
    if |ranges| == 0 {
      return;
    }
    out := [ranges[0]];
    assert ranges[..1] == [ranges[0]];
    for i := 1 to |ranges|
      invariant out != [] && Separated(out) && (Nonempty(ranges) ==> Nonempty(out))
      invariant out[|out| - 1].start <= ranges[i - 1].start
      invariant SameCover(ranges[..i], out)
    {
      var last, r := out[|out| - 1], ranges[i];
      assert Before(ranges[i - 1], r);
      ghost var front := out[..|out| - 1];
      assert front + [last] == out && ranges[..i + 1] == ranges[..i] + [r];
      CoverStep(ranges[..i], front, last, r);
      if r.start <= last.end {
        if r.end > last.end {
          out := out[|out| - 1 := last.(end := r.end)];
        }
        assert out == front + [if r.end > last.end then last.(end := r.end) else last];
        continue;
      }
      out := out + [r];
    }
    assert ranges[..|ranges|] == ranges;
  }

  // ---- the merged ranges are a normal form ----

  lemma CoversFromFirst(a: seq<Range>, x: int)
    requires a != [] && Separated(a) && Nonempty(a) && Covered(a, x)
    ensures a[0].start <= x
    ensures x < a[0].end || Covered(a[1..], x)
  {
    var i :| 0 <= i < |a| && a[i].start <= x < a[i].end;
    if i > 0 {
      assert a[0].end < a[i].start;
      assert a[1..][i - 1] == a[i];
    }
  }

  lemma CoversStart(a: seq<Range>)
    requires a != [] && Separated(a) && Nonempty(a)
    ensures Covered(a, a[0].start) && !Covered(a, a[0].end)
    ensures forall x :: a[0].start <= x < a[0].end ==> Covered(a, x)
  {
    forall x | a[0].start <= x < a[0].end ensures Covered(a, x) { assert a[0].start <= x < a[0].end; }
  }

  lemma RestCovers(a: seq<Range>, x: int)
    requires a != [] && Separated(a) && Nonempty(a)
    ensures Covered(a[1..], x) <==> Covered(a, x) && x > a[0].end
  {
    if Covered(a[1..], x) {
      var i :| 0 <= i < |a| - 1 && a[1..][i].start <= x < a[1..][i].end;
      assert a[1..][i] == a[i + 1] && a[0].end < a[i + 1].start;
    }
    if Covered(a, x) { CoversFromFirst(a, x); }
  }

  /** Separated ranges are determined by what they cover: the order in which matches were found is gone. */
  lemma {:induction false} NormalForm(a: seq<Range>, b: seq<Range>)
    requires Separated(a) && Nonempty(a) && Separated(b) && Nonempty(b) && SameCover(a, b)
    ensures a == b
    decreases |a|
  {
    if a != [] { CoversStart(a); }
    if b != [] { CoversStart(b); }
    if a != [] && b != [] {
      SameFirst(a, b);
      forall x ensures Covered(a[1..], x) <==> Covered(b[1..], x) {
        RestCovers(a, x);
        RestCovers(b, x);
      }
      NormalForm(a[1..], b[1..]);
      assert a == [a[0]] + a[1..] && b == [b[0]] + b[1..];
    }
  }

  lemma SameFirst(a: seq<Range>, b: seq<Range>)
    requires a != [] && b != []
    requires Separated(a) && Nonempty(a) && Separated(b) && Nonempty(b) && SameCover(a, b)
    ensures a[0] == b[0]
  {
    CoversStart(a);
    CoversStart(b);
    CoversFromFirst(a, b[0].start);
    CoversFromFirst(b, a[0].start);
    assert !Covered(b, a[0].end) && !Covered(a, b[0].end);
    hide Covered;
    assert a[0].start == b[0].start;
    assert a[0].start < a[0].end && b[0].start < b[0].end;
  }

  // ---- the redacted line ----

  /** The first `n` characters: each uncovered one kept, one placeholder for each covered run. */
  function Masked(line: string, ranges: seq<Range>, n: nat): string
    requires n <= |line|
  {
    if n == 0 then ""
    else
      Masked(line, ranges, n - 1) +
      if !Covered(ranges, n - 1) then [line[n - 1]]
      else if n == 1 || !Covered(ranges, n - 2) then REDACTION
      else ""
  }

  lemma {:induction false} MaskedGap(line: string, ranges: seq<Range>, lo: nat, hi: nat)
    requires lo <= hi <= |line| && forall x :: lo <= x < hi ==> !Covered(ranges, x)
    ensures Masked(line, ranges, hi) == Masked(line, ranges, lo) + line[lo..hi]
  {
    if lo < hi {
      MaskedGap(line, ranges, lo, hi - 1);
      assert line[lo..hi] == line[lo..hi - 1] + [line[hi - 1]];
    }
  }

  lemma {:induction false} MaskedRun(line: string, ranges: seq<Range>, lo: nat, hi: nat)
    requires lo < hi <= |line| && (lo == 0 || !Covered(ranges, lo - 1)) && forall x :: lo <= x < hi ==> Covered(ranges, x)
    ensures Masked(line, ranges, hi) == Masked(line, ranges, lo) + REDACTION
  {
    if lo < hi - 1 { MaskedRun(line, ranges, lo, hi - 1); }
  }

  lemma {:induction false} MaskedSame(line: string, a: seq<Range>, b: seq<Range>, n: nat)
    requires n <= |line| && SameCover(a, b)
    ensures Masked(line, a, n) == Masked(line, b, n)
  {
    if n > 0 { MaskedSame(line, a, b, n - 1); }
  }

  ghost predicate Within(ranges: seq<Range>, n: nat) {
    forall i :: 0 <= i < |ranges| ==> 0 <= ranges[i].start && ranges[i].end <= n
  }

  /** Where the `k`th range leaves off. */
  function EndBefore(ranges: seq<Range>, k: nat): int
    requires k <= |ranges|
  {
    if k == 0 then 0 else ranges[k - 1].end
  }

  lemma BetweenRanges(ranges: seq<Range>, k: nat, x: int)
    requires k <= |ranges| && Separated(ranges) && Nonempty(ranges)
    requires EndBefore(ranges, k) <= x && (k < |ranges| ==> x < ranges[k].start) && (k == 0 ==> 0 <= x)
    ensures !Covered(ranges, x)
  {
    forall i | 0 <= i < |ranges| ensures !(ranges[i].start <= x < ranges[i].end) {
      if i < k - 1 { assert ranges[i].end < ranges[k - 1].start; }
      if k < i { assert ranges[k].end < ranges[i].start; }
    }
  }

  /** The line after its `k`th range. */
  lemma MaskedRange(line: string, ranges: seq<Range>, k: nat)
    requires k < |ranges| && Separated(ranges) && Nonempty(ranges) && Within(ranges, |line|)
    ensures var from, r := EndBefore(ranges, k), ranges[k];
            && 0 <= from <= r.start < r.end <= |line|
            && Masked(line, ranges, r.end) == Masked(line, ranges, from) + line[from..r.start] + REDACTION
  {
    var from, r := EndBefore(ranges, k), ranges[k];
    if k > 0 { assert ranges[k - 1].end < r.start; }
    forall x | from <= x < r.start ensures !Covered(ranges, x) { BetweenRanges(ranges, k, x); }
    forall x | r.start <= x < r.end ensures Covered(ranges, x) { assert ranges[k].start <= x < ranges[k].end; }
    assert r.start > 0 ==> !Covered(ranges, r.start - 1) by {
      if r.start > 0 { BetweenRanges(ranges, k, r.start - 1); }
    }
    hide Covered, Masked;
    MaskedGap(line, ranges, from, r.start);
    MaskedRun(line, ranges, r.start, r.end);
  }

  lemma MaskedTail(line: string, ranges: seq<Range>)
    requires Separated(ranges) && Nonempty(ranges) && Within(ranges, |line|)
    ensures var from := EndBefore(ranges, |ranges|);
            0 <= from <= |line| && Masked(line, ranges, |line|) == Masked(line, ranges, from) + line[from..]
  {
    hide Covered, Masked, Separated;
    var from := EndBefore(ranges, |ranges|);
    if ranges != [] { assert ranges[|ranges| - 1].start < ranges[|ranges| - 1].end; }
    hide Nonempty, Within;
    forall x | from <= x < |line| ensures !Covered(ranges, x) { BetweenRanges(ranges, |ranges|, x); }
    MaskedGap(line, ranges, from, |line|);
  }

  /** All patterns' matches, sorted and merged. */
  method SecurityRanges(matches: seq<seq<Range>>, n: nat) returns (out: seq<Range>)
    requires forall i :: 0 <= i < |matches| ==> Nonempty(matches[i]) && Within(matches[i], n)
    ensures Separated(out) && Nonempty(out) && Within(out, n) && SameCover(Flat(matches), out)
  {
    var ranges := [];
    for i := 0 to |matches|
      invariant ranges == Flat(matches[..i]) && Nonempty(ranges) && Within(ranges, n)
    {
      assert matches[..i + 1][..i] == matches[..i];
      ranges := ranges + matches[i];
    }
    assert matches[..|matches|] == matches;
    var sorted := Sort(ranges);
    SortSorts(ranges);
    SameElements(ranges, sorted);
    out := MergeSecurityRanges(sorted);
    StaysWithin(ranges, out, n);
  }

  function Flat(matches: seq<seq<Range>>): seq<Range> {
    if matches == [] then [] else Flat(matches[..|matches| - 1]) + matches[|matches| - 1]
  }

  lemma StaysWithin(a: seq<Range>, b: seq<Range>, n: nat)
    requires Within(a, n) && SameCover(a, b) && Nonempty(b)
    ensures Within(b, n)
  {
    forall i | 0 <= i < |b| ensures 0 <= b[i].start && b[i].end <= n {
      assert Covered(b, b[i].start) && Covered(b, b[i].end - 1);
      CoveredWithin(a, n, b[i].start);
      CoveredWithin(a, n, b[i].end - 1);
    }
  }

  lemma CoveredWithin(a: seq<Range>, n: nat, x: int)
    requires Within(a, n) && Covered(a, x)
    ensures 0 <= x < n
  {}

  /** Every matched position is hidden and nothing else is, whatever the matches and their order. */
  method RedactSecurityLine(line: string, matches: seq<seq<Range>>) returns (b: string)
    requires forall i :: 0 <= i < |matches| ==> Nonempty(matches[i]) && Within(matches[i], |line|)
    ensures b == Masked(line, Flat(matches), |line|)
  {
    var ranges := SecurityRanges(matches, |line|);
    hide Masked, Separated, Nonempty, Within, SameCover, Covered;
    b := WithPlaceholders(line, ranges);
    MaskedSame(line, Flat(matches), ranges, |line|);
  }

  method WithPlaceholders(line: string, ranges: seq<Range>) returns (b: string)
    requires Separated(ranges) && Nonempty(ranges) && Within(ranges, |line|)
    ensures b == Masked(line, ranges, |line|)
  {
    hide Masked, Separated, Nonempty, Within;
    MaskedTail(line, ranges);
    if |ranges| == 0 {
      MaskedNothing(line, ranges);
      return line;
    }
    b := "";
    var last := 0;
    MaskedNothing(line, ranges);
    for k := 0 to |ranges|
      invariant last == EndBefore(ranges, k) && 0 <= last <= |line| && b == Masked(line, ranges, last)
    {
      var r := ranges[k];
      MaskedRange(line, ranges, k);
      if r.start > last {
        b := b + line[last..r.start];
      }
      b := b + REDACTION;
      last := r.end;
    }
    if last < |line| {
      b := b + line[last..];
    }
  }

  lemma MaskedNothing(line: string, ranges: seq<Range>)
    ensures Masked(line, ranges, 0) == ""
  {}

  // ---- snippets ----

  predicate Ellipsis(snippet: string, text: string, start: nat, end: nat) {
    && start <= end <= |text|
    && snippet == (if start > 0 then "..." else "") + text[start..end] + (if end < |text| then "..." else "")
  }

  /** The redacted line; a long one is cut to 240 characters, marked where something was left out. */
  method SecuritySnippet(line: string, matches: seq<seq<Range>>, around: int) returns (snippet: string, start: nat, end: nat)
    requires forall i :: 0 <= i < |matches| ==> Nonempty(matches[i]) && Within(matches[i], |line|)
    ensures var redacted := Masked(line, Flat(matches), |line|);
            if |redacted| <= SNIPPET then snippet == redacted
            else
              && Ellipsis(snippet, redacted, start, end) && end - start == SNIPPET
              && (0 <= around < |redacted| ==> start <= around < end)
              && (start == around - 100 || (around < 100 && start == 0) || (around - 100 > start && end == |redacted|))
  {
    hide Masked, Nonempty, Within;
    var redacted := RedactSecurityLine(line, matches);
    if |redacted| <= SNIPPET {
      return redacted, 0, |redacted|;
    }
    var from := around - 100;
    if from < 0 {
      from := 0;
    }
    if from > |redacted| {
      from := |redacted|;
    }
    var to := from + SNIPPET;
    if to > |redacted| {
      to := |redacted|;
      from := to - SNIPPET;
      if from < 0 {
        from := 0;
      }
    }
    start, end := from, to;
    snippet := redacted[start..end];
    if start > 0 {
      snippet := "..." + snippet;
    }
    if end < |redacted| {
      snippet := snippet + "...";
    }
  }
}
