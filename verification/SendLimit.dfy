/**
 The send slots of the Telegram client. Times are in nanoseconds; the clock may go back.
 */
module SendLimit {
  import opened Bytes

  const SECOND: int := 1_000_000_000
  const GLOBAL_INTERVAL: int := SECOND / 30
  const CHAT_INTERVAL: int := SECOND

  /** The zero `time.Time`. */
  const ZERO: int := -62135596800 * SECOND

  datatype Limits = Limits(nextGlobal: int, nextChat: map<int, int>)

  datatype Call = Call(chat: int, now: int)

  function Fresh(): Limits {
    Limits(ZERO, map[])
  }

  function NextFor(l: Limits, chat: int): int {
    if chat in l.nextChat then l.nextChat[chat] else ZERO
  }

  function Slot(l: Limits, c: Call): int {
    var waitUntil := if NextFor(l, c.chat) > l.nextGlobal then NextFor(l, c.chat) else l.nextGlobal;
    if waitUntil > c.now then waitUntil else c.now
  }

  function Taken(l: Limits, c: Call): Limits {
    Limits(Slot(l, c) + GLOBAL_INTERVAL, l.nextChat[c.chat := Slot(l, c) + CHAT_INTERVAL])
  }

  class Client {
    var nextGlobal: int
    var nextChat: map<int, int>

    constructor ()
      ensures Value() == Fresh()
    {
      nextGlobal, nextChat := ZERO, map[];
    }

    function Value(): Limits
      reads this
    {
      Limits(nextGlobal, nextChat)
    }

    /** How long the caller of `waitSendLimit` is to sleep: until its slot. */
    method WaitSendLimit(chat: int, now: int) returns (delay: int)
      modifies this
      ensures delay >= 0 && now + delay == Slot(old(Value()), Call(chat, now))
      ensures Value() == Taken(old(Value()), Call(chat, now))
    {
      var waitUntil := nextGlobal;
      var next := if chat in nextChat then nextChat[chat] else ZERO;
      if next > waitUntil {
        waitUntil := next;
      }
      delay := 0;
      var slot := now;
      if waitUntil > now {
        delay := waitUntil - now;
        slot := waitUntil;
      }
      nextGlobal := slot + GLOBAL_INTERVAL;
      nextChat := nextChat[chat := slot + CHAT_INTERVAL];
    }

    /** A whole run of calls, one after the other. */
    method Sends(calls: seq<Call>) returns (slots: seq<int>)
      requires Value() == Fresh()
      modifies this
      ensures slots == Slots(calls)
    {
      slots := [];
      for i := 0 to |calls|
        invariant Value() == After(calls[..i]) && slots == Slots(calls[..i])
      {
        var delay := WaitSendLimit(calls[i].chat, calls[i].now);
        slots := slots + [calls[i].now + delay];
        assert calls[..i + 1][..i] == calls[..i];
      }
      assert calls[..|calls|] == calls;
    }
  }

  // ---- runs ----

  function After(calls: seq<Call>): Limits {
    if calls == [] then Fresh() else Taken(After(calls[..|calls| - 1]), calls[|calls| - 1])
  }

  /** The slot of each call. */
  function Slots(calls: seq<Call>): (slots: seq<int>)
    ensures |slots| == |calls|
  {
    if calls == [] then []
    else
      var n := |calls| - 1;
      Slots(calls[..n]) + [Slot(After(calls[..n]), calls[n])]
  }

  function Max(x: int, y: int): int {
    if x > y then x else y
  }

  /** The last call for `chat`. */
  function LastFor(calls: seq<Call>, chat: int): (k: Option<nat>)
    ensures k.Some? ==> k.value < |calls| && calls[k.value].chat == chat
    ensures k.Some? ==> forall i :: k.value < i < |calls| ==> calls[i].chat != chat
    ensures k.None? ==> forall i :: 0 <= i < |calls| ==> calls[i].chat != chat
  {
    if calls == [] then None
    else if calls[|calls| - 1].chat == chat then Some(|calls| - 1)
    else LastFor(calls[..|calls| - 1], chat)
  }

  /** What a caller would compute from the earlier slots alone. */
  function Earliest(calls: seq<Call>, slots: seq<int>, c: Call): int
    requires |slots| == |calls|
  {
    var any := if slots == [] then ZERO else slots[|slots| - 1] + GLOBAL_INTERVAL;
    var last := LastFor(calls, c.chat);
    var mine := if last.Some? then slots[last.value] + CHAT_INTERVAL else ZERO;
    Max(c.now, Max(any, mine))
  }

  lemma {:induction false} LimitsFromSlots(calls: seq<Call>, chat: int)
    ensures var slots, last := Slots(calls), LastFor(calls, chat);
            && After(calls).nextGlobal == (if calls == [] then ZERO else slots[|slots| - 1] + GLOBAL_INTERVAL)
            && NextFor(After(calls), chat) == if last.Some? then slots[last.value] + CHAT_INTERVAL else ZERO
  {
    if calls != [] {
      var n := |calls| - 1;
      LimitsFromSlots(calls[..n], chat);
    }
  }

  lemma {:induction false} SlotsOfPrefix(calls: seq<Call>, n: nat)
    requires n <= |calls|
    ensures Slots(calls[..n]) == Slots(calls)[..n]
  {
    if n < |calls| {
      var m := |calls| - 1;
      SlotsOfPrefix(calls[..m], n);
      assert calls[..m][..n] == calls[..n];
    } else {
      assert calls[..n] == calls;
    }
  }

  lemma LastSlot(calls: seq<Call>)
    requires calls != []
    ensures var n := |calls| - 1; Slots(calls)[n] == Slot(After(calls[..n]), calls[n])
  {}

  /** Every slot is the latest of: now, the last slot plus 33,333,333 ns, the chat's last slot plus one second. */
  lemma EachSlot(calls: seq<Call>, i: nat)
    requires i < |calls|
    ensures Slots(calls)[i] == Earliest(calls[..i], Slots(calls)[..i], calls[i])
  {
    hide Slots, After, LastFor;
    SlotsOfPrefix(calls, i + 1);
    SlotsOfPrefix(calls, i);
    LastSlot(calls[..i + 1]);
    assert calls[..i + 1][..i] == calls[..i];
    LimitsFromSlots(calls[..i], calls[i].chat);
  }

  /** Slots keep their distance: of one chat a second each, over all chats 33,333,333 ns each. */
  lemma {:induction false} SlotsApart(calls: seq<Call>, i: nat, j: nat)
    requires i < j < |calls|
    ensures Slots(calls)[j] - Slots(calls)[i] >= (j - i) * 33_333_333
    ensures calls[i].chat == calls[j].chat ==> Slots(calls)[j] - Slots(calls)[i] >= SECOND
    decreases j
  {
    EachSlot(calls, j);
    if i < j - 1 { SlotsApart(calls, i, j - 1); }
    if calls[i].chat == calls[j].chat {
      var last := LastFor(calls[..j], calls[j].chat);
      assert calls[..j][i].chat == calls[j].chat;
      if i < last.value { SlotsApart(calls, i, last.value); }
    }
  }

  // ---- how many in a second ----

  /** The calls whose slots fall into the second that starts at `t`. */
  function InSecond(calls: seq<Call>, t: int): set<nat> {
    set i: nat | i < |calls| && t <= Slots(calls)[i] < t + SECOND
  }

  function Range(lo: nat, n: nat): (r: set<nat>)
    ensures |r| == n && forall i: nat :: i in r <==> lo <= i < lo + n
  {
    if n == 0 then {} else Range(lo, n - 1) + {lo + n - 1}
  }

  lemma SmallerThan(s: set<nat>, t: set<nat>)
    requires s <= t
    ensures |s| <= |t|
  {
    if s != {} {
      var x :| x in s;
      SmallerThan(s - {x}, t - {x});
    }
  }

  lemma FirstOf(s: set<nat>) returns (m: nat)
    requires s != {}
    ensures m in s && forall x :: x in s ==> m <= x
  {
    var x :| x in s;
    if s == {x} {
      m := x;
    } else {
      var n := FirstOf(s - {x});
      m := if n < x then n else x;
      assert forall y :: y in s ==> y == x || y in s - {x};
    }
  }

  /** Any second holds at most 31 slots, and at most one per chat. */
  lemma AtMostThirtyOne(calls: seq<Call>, t: int)
    ensures |InSecond(calls, t)| <= 31
    ensures forall i, j :: i in InSecond(calls, t) && j in InSecond(calls, t) && i < j ==> calls[i].chat != calls[j].chat
  {
    var s := InSecond(calls, t);
    if s != {} {
      var m := FirstOf(s);
      var r := Range(m, 31);
      forall i | i in s ensures i in r {
        if m < i { SlotsApart(calls, m, i); }
      }
      SmallerThan(s, r);
    }
    forall i, j | i in s && j in s && i < j ensures calls[i].chat != calls[j].chat {
      SlotsApart(calls, i, j);
    }
  }

  /**
   Call `i + 30` gets its slot within a second of call `i`'s: it comes early enough, the thirty before it were
   close together, and none of them went to its chat. All of it is known before the call.
   */
  predicate Crowds(calls: seq<Call>, i: nat) {
    && i + 30 < |calls|
    && calls[i + 30].now < Slots(calls)[i] + SECOND
    && Slots(calls)[i + 29] - Slots(calls)[i] < SECOND - GLOBAL_INTERVAL
    && forall k :: i <= k < i + 30 ==> calls[k].chat != calls[i + 30].chat
  }

  lemma {:induction false} SlotsAfterZero(calls: seq<Call>, i: nat)
    requires i < |calls|
    ensures Slots(calls)[i] >= ZERO
  {
    hide Slots, LastFor;
    EachSlot(calls, i);
    if i > 0 { SlotsAfterZero(calls, i - 1); }
  }

  /** If the chat's last call came before call `i`, its bound is over a second after call `i`. */
  lemma ChatIsFree(calls: seq<Call>, i: nat, j: nat)
    requires i < j < |calls| && forall k :: i <= k < j ==> calls[k].chat != calls[j].chat
    ensures var last := LastFor(calls[..j], calls[j].chat);
            (if last.Some? then Slots(calls)[last.value] + CHAT_INTERVAL else ZERO) < Slots(calls)[i] + SECOND
  {
    hide Slots;
    var last := LastFor(calls[..j], calls[j].chat);
    SlotsAfterZero(calls, i);
    if last.Some? {
      assert calls[..j][last.value] == calls[last.value];
      SlotsApart(calls, last.value, i);
    }
  }

  /** Two slots thirty calls apart are within a second exactly when the later call crowds in. */
  lemma WithinIffCrowds(calls: seq<Call>, i: nat)
    requires i + 30 < |calls|
    ensures Slots(calls)[i + 30] - Slots(calls)[i] < SECOND <==> Crowds(calls, i)
  {
    hide Slots, LastFor;
    var j := i + 30;
    EachSlot(calls, j);
    if Slots(calls)[j] - Slots(calls)[i] < SECOND {
      forall k | i <= k < j ensures calls[k].chat != calls[j].chat {
        SlotsApart(calls, k, j);
        if i < k { SlotsApart(calls, i, k); }
      }
    } else if forall k :: i <= k < j ==> calls[k].chat != calls[j].chat {
      ChatIsFree(calls, i, j);
    }
  }

  ghost predicate SomeFullSecond(calls: seq<Call>) {
    exists t :: |InSecond(calls, t)| == 31
  }

  ghost predicate SomeCrowds(calls: seq<Call>) {
    exists i :: Crowds(calls, i)
  }

  lemma SameSize(s: set<nat>, t: set<nat>)
    requires s <= t && |s| == |t|
    ensures s == t
  {
    if x :| x in t && x !in s {
      SmallerThan(s, t - {x});
    }
  }

  lemma FullSecondCrowds(calls: seq<Call>, t: int)
    requires |InSecond(calls, t)| == 31
    ensures SomeCrowds(calls)
  {
    hide Slots, Crowds;
    var s := InSecond(calls, t);
    var m := FirstOf(s);
    var r := Range(m, 31);
    forall i | i in s ensures i in r {
      if m < i { SlotsApart(calls, m, i); }
    }
    SameSize(s, r);
    assert m + 30 in r;
    WithinIffCrowds(calls, m);
  }

  lemma CrowdIsWithin(calls: seq<Call>, i: nat, k: nat)
    requires Crowds(calls, i) && i <= k <= i + 30
    ensures k in InSecond(calls, Slots(calls)[i])
  {
    WithinIffCrowds(calls, i);
    hide Slots, Crowds;
    if i < k { SlotsApart(calls, i, k); }
    if k < i + 30 { SlotsApart(calls, k, i + 30); }
  }

  lemma CrowdsFillSecond(calls: seq<Call>, i: nat)
    requires Crowds(calls, i)
    ensures |InSecond(calls, Slots(calls)[i])| == 31
  {
    var t := Slots(calls)[i];
    hide Slots, Crowds, InSecond;
    forall k | k in Range(i, 31) ensures k in InSecond(calls, t) { CrowdIsWithin(calls, i, k); }
    SmallerThan(Range(i, 31), InSecond(calls, t));
    AtMostThirtyOne(calls, t);
  }

  /** Some second holds more than thirty slots, and then 31, iff some call crowds in behind the thirty before it. */
  lemma ThirtyOneIff(calls: seq<Call>)
    ensures SomeFullSecond(calls) <==> SomeCrowds(calls)
    ensures forall t :: |InSecond(calls, t)| > 30 <==> |InSecond(calls, t)| == 31
  {
    hide InSecond, Crowds;
    if SomeFullSecond(calls) {
      var t :| |InSecond(calls, t)| == 31;
      FullSecondCrowds(calls, t);
    }
    if SomeCrowds(calls) {
      var i :| Crowds(calls, i);
      CrowdsFillSecond(calls, i);
    }
    forall t ensures |InSecond(calls, t)| <= 31 { AtMostThirtyOne(calls, t); }
  }

  /** `n` calls at once, each to another chat. */
  function Burst(n: nat, now: int): seq<Call> {
    seq(n, i => Call(i, now))
  }

  lemma {:induction false} BurstSlots(n: nat, now: int, i: nat)
    requires i < n && now >= ZERO
    ensures Slots(Burst(n, now))[i] == now + i * GLOBAL_INTERVAL
  {
    hide Slots, LastFor, Earliest;
    var calls := Burst(n, now);
    EachSlot(calls, i);
    BurstEarliest(n, now, i, Slots(calls)[..i]);
    if i > 0 { BurstSlots(n, now, i - 1); }
  }

  /** Each of the calls is its chat's first. */
  lemma BurstEarliest(n: nat, now: int, i: nat, slots: seq<int>)
    requires i < n && now >= ZERO && |slots| == i
    ensures var calls := Burst(n, now);
            Earliest(calls[..i], slots, calls[i]) == Max(now, if i == 0 then ZERO else slots[i - 1] + GLOBAL_INTERVAL)
  {
    var calls := Burst(n, now);
    assert forall j :: 0 <= j < i ==> calls[..i][j].chat != calls[i].chat;
    hide LastFor;
  }

  /** 31 calls at once, each to another chat, get 31 slots within one second. */
  lemma ThirtyOneHappen(now: int)
    requires now >= ZERO
    ensures |InSecond(Burst(31, now), now)| == 31
  {
    hide Slots;
    var calls := Burst(31, now);
    forall i | 0 <= i < 31 ensures now <= Slots(calls)[i] < now + SECOND {
      BurstSlots(31, now, i);
    }
    assert InSecond(calls, now) == Range(0, 31);
  }
}
