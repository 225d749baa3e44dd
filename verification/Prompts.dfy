/**
 The queue of prompts waiting for each session, a table whose rows carry positions. Proved to be
 one list per session: enqueueing appends, finishing removes, moving takes out and puts back.
 */
module Prompts {
  import opened Bytes

  datatype State = Queued | Sent | Cancelled | Failed

  datatype Prompt = Prompt(session: string, chat: int, text: string, state: State, position: int,
                           createdAt: int, updatedAt: int, sentAt: Option<int>)

  type Table = map<string, Prompt>

  predicate Waits(rows: Table, session: string, id: string) {
    id in rows && rows[id].session == session && rows[id].state == Queued
  }

  function Waiting(rows: Table, session: string): (ids: set<string>)
    ensures forall id :: id in ids <==> Waits(rows, session, id)
  {
    set id | id in rows && Waits(rows, session, id)
  }

  /** `MAX(position)`, 0 when there is none. */
  ghost function Top(rows: Table, ids: set<string>): (m: int)
    requires ids <= rows.Keys
    ensures forall id :: id in ids ==> rows[id].position <= m
    ensures if ids == {} then m == 0 else exists id :: id in ids && rows[id].position == m
  {
    if ids == {} then 0
    else
      var id :| id in ids;
      var rest := Top(rows, ids - {id});
      if ids == {id} || rows[id].position > rest then
        assert rows[id].position == rows[id].position && id in ids; rows[id].position
      else rest
  }

  datatype Action =
    | Enqueue(id: string, session: string, chat: int, text: string, now: int)
    | UpdateText(id: string, text: string, now: int)
    | Move(id: string, position: int, now: int)
    | SetState(id: string, state: State, now: int)
    | FinishAll(whose: Option<string>, state: State, now: int)   // none: every session's

  /** The nearest of 1, ..., `count`. */
  function Clamp(position: int, count: nat): (p: int)
    ensures 1 <= position <= count ==> p == position
    ensures count > 0 ==> 1 <= p <= count && (position < 1 ==> p == 1) && (position > count ==> p == count)
  {
    var p := if position < 1 then 1 else position;
    if p > count then count else p
  }

  /** Where another prompt at `x` goes when one goes from `from` to `p`. */
  function Shifted(x: int, from: int, p: int): int {
    if p <= x < from then x + 1 else if from < x <= p then x - 1 else x
  }

  /** The others of the session make room. */
  function Shift(rows: Table, session: string, p: int, from: int, now: int): Table {
    map i | i in rows ::
      if Waits(rows, session, i) && Shifted(rows[i].position, from, p) != rows[i].position then
        rows[i].(position := Shifted(rows[i].position, from, p), updatedAt := now)
      else rows[i]
  }

  function MoveRows(rows: Table, id: string, p: int, now: int): Table
    requires id in rows
  {
    var from := rows[id].position;
    if p == from then rows
    else Shift(rows, rows[id].session, p, from, now)[id := rows[id].(position := p, updatedAt := now)]
  }

  function Finish(row: Prompt, state: State, now: int): Prompt {
    row.(state := state, updatedAt := now, sentAt := if state == Sent then Some(now) else row.sentAt)
  }

  function FinishRows(rows: Table, whose: Option<string>, state: State, now: int): Table {
    map i | i in rows ::
      if rows[i].state == Queued && (whose == None || whose == Some(rows[i].session)) then
        rows[i].(state := state, updatedAt := now)
      else rows[i]
  }

  /** An action on a prompt that is not queued is refused. */
  ghost function Apply(rows: Table, a: Action): Table {
    match a
    case Enqueue(id, session, chat, text, now) =>
      if id in rows then rows
      else rows[id := Prompt(session, chat, text, Queued, Top(rows, Waiting(rows, session)) + 1, now, now, None)]
    case UpdateText(id, text, now) =>
      if id in rows && rows[id].state == Queued then rows[id := rows[id].(text := text, updatedAt := now)] else rows
    case Move(id, position, now) =>
      if id in rows && rows[id].state == Queued then
        MoveRows(rows, id, Clamp(position, |Waiting(rows, rows[id].session)|), now)
      else rows
    case SetState(id, state, now) =>
      if id in rows && rows[id].state == Queued then rows[id := Finish(rows[id], state, now)] else rows
    case FinishAll(whose, state, now) => FinishRows(rows, whose, state, now)
  }

  // ---- what an action does to a row ----

  /** The action sets the state of waiting row `id` of that session. */
  predicate SetsState(a: Action, id: string, row: Prompt) {
    row.state == Queued && ((a.SetState? && a.id == id) || (a.FinishAll? && (a.whose == None || a.whose == Some(row.session))))
  }

  /** Only a waiting row's text, state and place ever change; the time of sending is that of the change to sent. */
  lemma RowAfter(rows: Table, a: Action, id: string)
    requires id in rows
    ensures var row := rows[id];
            && id in Apply(rows, a)
            && var row' := Apply(rows, a)[id];
               && row'.session == row.session && row'.chat == row.chat && row'.createdAt == row.createdAt
               && row'.text == (if a.UpdateText? && a.id == id && row.state == Queued then a.text else row.text)
               && row'.state == (if SetsState(a, id, row) then a.state else row.state)
               && row'.sentAt == (if SetsState(a, id, row) && a.SetState? && a.state == Sent then Some(a.now) else row.sentAt)
               && (row'.position != row.position ==> a.Move? && row.state == Queued)
               && (row.state != Queued ==> row' == row)
  {}

  /** A new row waits with the text it was given, and has not been sent. */
  lemma RowEnqueued(rows: Table, a: Action, id: string)
    requires id !in rows && id in Apply(rows, a)
    ensures a.Enqueue? && a.id == id
    ensures var row := Apply(rows, a)[id];
            row == Prompt(a.session, a.chat, a.text, Queued, row.position, a.now, a.now, None)
  {
    hide Top;
  }

  // ---- the list a session's rows stand for ----

  /** `q` is the session's queue in order. */
  ghost predicate Order(rows: Table, session: string, q: seq<string>) {
    && (forall id :: id in q <==> Waits(rows, session, id))
    && Rising(rows, q)
  }

  ghost predicate Rising(rows: Table, q: seq<string>) {
    && (forall i :: 0 <= i < |q| ==> q[i] in rows && rows[q[i]].position >= 1)
    && (forall i, j :: 0 <= i < j < |q| ==> rows[q[i]].position < rows[q[j]].position)
  }

  /** Positions 1, 2, ... without gaps. */
  ghost predicate Dense(rows: Table, session: string, q: seq<string>) {
    Order(rows, session, q) && Numbered(rows, q)
  }

  ghost predicate Numbered(rows: Table, q: seq<string>) {
    forall i :: 0 <= i < |q| ==> q[i] in rows && rows[q[i]].position == i + 1
  }

  function Without(q: seq<string>, id: string): (r: seq<string>)
    ensures forall x :: x in r ==> x in q
  {
    if q == [] then [] else if q[0] == id then q[1..] else [q[0]] + Without(q[1..], id)
  }

  /** How many of `q` are in front of position `p`. */
  ghost function Ahead(rows: Table, q: seq<string>, p: int): (k: nat)
    requires forall id :: id in q ==> id in rows
    ensures k <= |q|
  {
    if q == [] || rows[q[0]].position >= p then 0 else 1 + Ahead(rows, q[1..], p)
  }

  function Inserted(q: seq<string>, k: nat, id: string): seq<string>
    requires k <= |q|
  {
    q[..k] + [id] + q[k..]
  }

  /** A prompt goes behind those in front of its new position, when it moves back also behind the one there. */
  ghost function Place(rows: Table, q: seq<string>, id: string, p: int): (k: nat)
    requires id in rows && forall i :: i in q ==> i in rows
    ensures k <= |q|
  {
    Ahead(rows, q, if p < rows[id].position then p else p + 1)
  }

  // ---- lists ----

  lemma {:induction false} WithoutIs(q: seq<string>, i: nat)
    requires i < |q| && forall j :: 0 <= j < i ==> q[j] != q[i]
    ensures Without(q, q[i]) == q[..i] + q[i + 1..]
  {
    if i > 0 {
      WithoutIs(q[1..], i - 1);
      assert q[..i] + q[i + 1..] == [q[0]] + (q[1..][..i - 1] + q[1..][i..]);
    }
  }

  lemma {:induction false} AheadIs(rows: Table, q: seq<string>, p: int)
    requires Rising(rows, q) && forall id :: id in q ==> id in rows
    ensures forall i :: 0 <= i < |q| ==> (rows[q[i]].position < p <==> i < Ahead(rows, q, p))
  {
    if q != [] {
      assert q[0] in q;
      assert forall id :: id in q[1..] ==> id in q;
      AheadIs(rows, q[1..], p);
      forall i | 0 <= i < |q| ensures rows[q[i]].position < p <==> i < Ahead(rows, q, p) {
        if i > 0 { assert q[i] == q[1..][i - 1]; }
      }
    }
  }

  lemma {:induction false} CountIs(q: seq<string>, ids: set<string>)
    requires forall id :: id in q <==> id in ids
    requires forall i, j :: 0 <= i < j < |q| ==> q[i] != q[j]
    ensures |ids| == |q|
  {
    if q != [] {
      var rest := ids - {q[0]};
      forall id ensures id in q[1..] <==> id in rest {
        if id in rest { assert id in q && id != q[0]; }
      }
      CountIs(q[1..], rest);
    } else {
      assert ids == {};
    }
  }

  // ---- moving ----

  lemma ShiftedIsMonotone(x: int, y: int, from: int, p: int)
    requires x < y && x != from && y != from && p != from
    ensures Shifted(x, from, p) < Shifted(y, from, p)
  {}

  lemma ShiftedMissesTarget(x: int, from: int, p: int)
    requires x != from && p != from && from >= 1
    ensures Shifted(x, from, p) < p <==> x < (if p < from then p else p + 1)
    ensures Shifted(x, from, p) != p
    ensures x >= 1 && p >= 1 ==> Shifted(x, from, p) >= 1
  {}

  lemma {:induction false} WithoutHas(q: seq<string>, id: string)
    requires forall i, j :: 0 <= i < j < |q| ==> q[i] != q[j]
    ensures forall x :: x in Without(q, id) <==> x in q && x != id
  {
    if q != [] {
      WithoutHas(q[1..], id);
      assert q[0] !in q[1..];
      assert forall x :: x in q <==> x == q[0] || x in q[1..];
    }
  }

  /** Taking out the prompt at index `i`. */
  lemma WithoutMembers(rows: Table, q: seq<string>, i: nat)
    requires Rising(rows, q) && i < |q|
    ensures Without(q, q[i]) == q[..i] + q[i + 1..]
    ensures forall id :: id in Without(q, q[i]) <==> id in q && id != q[i]
  {
    Distinct(rows, q);
    hide Rising;
    WithoutIs(q, i);
    WithoutHas(q, q[i]);
  }

  lemma Distinct(rows: Table, q: seq<string>)
    requires Rising(rows, q)
    ensures forall i, j :: 0 <= i < j < |q| ==> q[i] != q[j]
  {
    forall i, j | 0 <= i < j < |q| ensures q[i] != q[j] {
      assert rows[q[i]].position < rows[q[j]].position;
    }
  }

  lemma WithoutRising(rows: Table, q: seq<string>, i: nat)
    requires Rising(rows, q) && i < |q|
    ensures var r := q[..i] + q[i + 1..];
            Rising(rows, r) && forall j :: 0 <= j < |r| ==> rows[r[j]].position != rows[q[i]].position
  {
    var r := q[..i] + q[i + 1..];
    assert forall j :: 0 <= j < |r| ==> r[j] == if j < i then q[j] else q[j + 1];
  }

  lemma InsertRises(rows: Table, r: seq<string>, k: nat, id: string)
    requires Rising(rows, r) && k <= |r| && id in rows && rows[id].position >= 1
    requires forall j :: 0 <= j < |r| ==> if j < k then rows[r[j]].position < rows[id].position else rows[r[j]].position > rows[id].position
    ensures Rising(rows, Inserted(r, k, id))
  {
    var n := Inserted(r, k, id);
    assert forall i :: 0 <= i < |n| ==> n[i] == if i < k then r[i] else if i == k then id else r[i - 1];
  }

  /** The list after a move, with the positions it then has. */
  lemma MovedRising(rows: Table, rows': Table, r: seq<string>, id: string, from: int, p: int)
    requires Rising(rows, r) && id in rows && from == rows[id].position && from >= 1 && p >= 1 && p != from
    requires forall j :: 0 <= j < |r| ==> rows[r[j]].position != from && r[j] in rows' && rows'[r[j]].position == Shifted(rows[r[j]].position, from, p)
    requires id in rows' && rows'[id].position == p && forall i :: i in r ==> i in rows
    ensures Rising(rows', Inserted(r, Place(rows, r, id, p), id))
  {
    var k := Place(rows, r, id, p);
    AheadIs(rows, r, if p < from then p else p + 1);
    forall j | 0 <= j < |r|
      ensures rows'[r[j]].position >= 1 && rows'[r[j]].position != p && (rows'[r[j]].position < p <==> j < k)
    {
      ShiftedMissesTarget(rows[r[j]].position, from, p);
    }
    hide Place, Ahead;
    forall i, j | 0 <= i < j < |r| ensures rows'[r[i]].position < rows'[r[j]].position {
      ShiftedIsMonotone(rows[r[i]].position, rows[r[j]].position, from, p);
    }
    hide Shifted;
    InsertRises(rows', r, k, id);
  }

  lemma InsertedHas(r: seq<string>, k: nat, id: string)
    requires k <= |r|
    ensures forall x :: x in Inserted(r, k, id) <==> x in r || x == id
  {
    assert r == r[..k] + r[k..];
  }

  /** The queue after a move to the clamped position `p`. */
  ghost function MovedList(rows: Table, q: seq<string>, id: string, p: int): seq<string>
    requires id in rows && forall i :: i in q ==> i in rows
  {
    if p == rows[id].position || id !in q then q
    else
      var r := Without(q, id);
      Inserted(r, Place(rows, r, id, p), id)
  }

  lemma MoveRowsAt(rows: Table, id: string, p: int, now: int, i: string)
    requires id in rows && i in rows && p != rows[id].position
    ensures var row, row' := rows[i], MoveRows(rows, id, p, now)[i];
            && row' == row.(position := row'.position, updatedAt := row'.updatedAt)
            && row'.position == if i == id then p
                                else if Waits(rows, rows[id].session, i) then Shifted(row.position, rows[id].position, p)
                                else row.position
  {}

  /**
   Moving takes the prompt out of its session's list and puts it back at its place among the others,
   whose order stays. Positions stay distinct and positive; gaps are no obstacle.
   */
  lemma MoveMovesInList(rows: Table, q: seq<string>, id: string, p: int, now: int)
    requires id in rows && Waits(rows, rows[id].session, id) && Order(rows, rows[id].session, q) && p >= 1
    ensures Order(MoveRows(rows, id, p, now), rows[id].session, MovedList(rows, q, id, p))
  {
    var s, rows' := rows[id].session, MoveRows(rows, id, p, now);
    if p != rows[id].position {
      assert id in q;
      var i :| 0 <= i < |q| && q[i] == id;
      var n := Inserted(Without(q, id), Place(rows, Without(q, id), id, p), id);
      OrderParts(rows, s, q);
      MovedMembers(rows, q, i, p);
      Listed(rows, s, q);
      SameWaiters(rows, id, p, now);
      ShiftsTo(rows, s, q, id, p, now);
      hide Order, MoveRows, Shifted, Shift, Rising, Waits, Without, Place, Inserted;
      MovedRises(rows, rows', q, i, p);
      assert forall x :: x in n <==> Waits(rows', s, x);
      IsOrder(rows', s, n);
    }
  }

  lemma IsOrder(rows: Table, session: string, q: seq<string>)
    requires Rising(rows, q) && forall id :: id in q <==> Waits(rows, session, id)
    ensures Order(rows, session, q)
  {}

  lemma MovedMembers(rows: Table, q: seq<string>, i: nat, p: int)
    requires Rising(rows, q) && i < |q| && forall x :: x in q ==> x in rows
    ensures forall x :: x in Inserted(Without(q, q[i]), Place(rows, Without(q, q[i]), q[i], p), q[i]) <==> x in q
  {
    assert q[i] in q;
    hide Place, Inserted, Without, Rising;
    WithoutMembers(rows, q, i);
    InsertedHas(Without(q, q[i]), Place(rows, Without(q, q[i]), q[i], p), q[i]);
  }

  lemma MovedRises(rows: Table, rows': Table, q: seq<string>, i: nat, p: int)
    requires Rising(rows, q) && i < |q| && (forall x :: x in q ==> x in rows) && q[i] in rows && p >= 1 && p != rows[q[i]].position
    requires q[i] in rows' && rows'[q[i]].position == p
    requires forall x :: x in q && x != q[i] ==> x in rows' && rows'[x].position == Shifted(rows[x].position, rows[q[i]].position, p)
    ensures Rising(rows', Inserted(Without(q, q[i]), Place(rows, Without(q, q[i]), q[i], p), q[i]))
  {
    var r := Without(q, q[i]);
    FirstPosition(rows, q, i);
    hide Rising, Shifted, Place, Inserted, Without;
    WithoutMembers(rows, q, i);
    WithoutRising(rows, q, i);
    forall j | 0 <= j < |r| ensures r[j] in q && r[j] != q[i] { assert r[j] in r; }
    MovedRising(rows, rows', r, q[i], rows[q[i]].position, p);
  }

  lemma FirstPosition(rows: Table, q: seq<string>, i: nat)
    requires Rising(rows, q) && i < |q|
    ensures q[i] in rows && rows[q[i]].position >= 1
  {}

  lemma SameWaiters(rows: Table, id: string, p: int, now: int)
    requires id in rows && p != rows[id].position
    ensures forall x, s :: Waits(MoveRows(rows, id, p, now), s, x) <==> Waits(rows, s, x)
  {
    MoveRowsKeys(rows, id, p, now);
    hide MoveRows;
    forall x, s ensures Waits(MoveRows(rows, id, p, now), s, x) <==> Waits(rows, s, x) {
      if x in rows { MoveRowsAt(rows, id, p, now, x); }
    }
  }

  // ---- every action on the list ----

  /** What an action makes of the session's queue `q`. */
  ghost function ListAfter(rows: Table, session: string, q: seq<string>, a: Action): seq<string>
    requires forall id :: id in q ==> id in rows
  {
    match a
    case Enqueue(id, s, _, _, _) => if s == session && id !in rows then q + [id] else q
    case UpdateText(_, _, _) => q
    case Move(id, position, _) =>
      if Waits(rows, session, id) then MovedList(rows, q, id, Clamp(position, |q|)) else q
    case SetState(id, state, _) => if state == Queued then q else Without(q, id)
    case FinishAll(whose, state, _) => if state == Queued || (whose.Some? && whose.value != session) then q else []
  }

  /** Rows of the session that wait afterwards are the same ones, at the same positions. */
  ghost predicate SameQueue(rows: Table, rows': Table, session: string) {
    forall id :: (Waits(rows', session, id) <==> Waits(rows, session, id))
                 && (Waits(rows, session, id) ==> rows'[id].position == rows[id].position)
  }

  lemma OrderStays(rows: Table, rows': Table, session: string, q: seq<string>)
    requires Order(rows, session, q) && SameQueue(rows, rows', session)
    ensures Order(rows', session, q)
  {
    hide Waits;
    forall i | 0 <= i < |q| ensures q[i] in rows' && rows'[q[i]].position == rows[q[i]].position { assert q[i] in q; WaitsIn(rows', session, q[i]); }
  }

  lemma WaitsIn(rows: Table, session: string, id: string)
    requires Waits(rows, session, id)
    ensures id in rows
  {}

  lemma TopIsBehind(rows: Table, session: string, q: seq<string>)
    requires Order(rows, session, q)
    ensures Top(rows, Waiting(rows, session)) >= 0
    ensures forall i :: 0 <= i < |q| ==> q[i] in rows && rows[q[i]].position <= Top(rows, Waiting(rows, session))
  {
    forall i | 0 <= i < |q| ensures q[i] in rows && rows[q[i]].position <= Top(rows, Waiting(rows, session)) {
      assert q[i] in q && q[i] in Waiting(rows, session);
    }
    if Waiting(rows, session) != {} {
      var id :| id in Waiting(rows, session);
      assert id in q;
    }
  }

  lemma Appends(rows: Table, session: string, q: seq<string>, a: Action)
    requires Order(rows, session, q) && a.Enqueue? && a.session == session && a.id !in rows
    ensures Order(Apply(rows, a), session, q + [a.id])
  {
    var n := q + [a.id];
    OrderParts(rows, session, q);
    AppendRises(rows, session, q, a);
    AppendWaits(rows, session, a);
    hide Rising, Apply, Waits;
    assert forall id :: id in n <==> id in q || id == a.id;
  }

  lemma AppendRises(rows: Table, session: string, q: seq<string>, a: Action)
    requires Order(rows, session, q) && a.Enqueue? && a.session == session && a.id !in rows
    ensures Rising(Apply(rows, a), q + [a.id])
  {
    TopIsBehind(rows, session, q);
    hide Order, Waits, Top, Waiting;
    OrderParts(rows, session, q);
    var n := q + [a.id];
    assert forall i :: 0 <= i < |q| ==> n[i] == q[i] && q[i] in q;
  }

  lemma AppendWaits(rows: Table, session: string, a: Action)
    requires a.Enqueue? && a.session == session && a.id !in rows
    ensures forall id :: Waits(Apply(rows, a), session, id) <==> Waits(rows, session, id) || id == a.id
  {
    hide Top, Waiting;
  }

  lemma Removes(rows: Table, session: string, q: seq<string>, a: Action)
    requires Order(rows, session, q) && a.SetState? && a.state != Queued && Waits(rows, session, a.id)
    ensures Order(Apply(rows, a), session, Without(q, a.id))
  {
    var rows', r := Apply(rows, a), Without(q, a.id);
    Listed(rows, session, q);
    OrderParts(rows, session, q);
    hide Order;
    FinishedRows(rows, a);
    forall id ensures Waits(rows', session, id) <==> Waits(rows, session, id) && id != a.id { FinishedWaits(rows, session, a, id); }
    hide Apply, Waits, Rising, Without;
    var i :| 0 <= i < |q| && q[i] == a.id;
    WithoutMembers(rows, q, i);
    WithoutRising(rows, q, i);
    RisingStays(rows, rows', r);
    IsOrder(rows', session, r);
  }

  lemma FinishedWaits(rows: Table, session: string, a: Action, id: string)
    requires a.SetState? && a.state != Queued && Waits(rows, session, a.id)
    ensures Waits(Apply(rows, a), session, id) <==> Waits(rows, session, id) && id != a.id
  {}

  lemma RisingStays(rows: Table, rows': Table, q: seq<string>)
    requires Rising(rows, q) && forall x :: x in rows ==> x in rows' && rows'[x].position == rows[x].position
    ensures Rising(rows', q)
  {}

  lemma {:induction false} NotThere(q: seq<string>, id: string)
    requires id !in q
    ensures Without(q, id) == q
  {
    if q != [] { NotThere(q[1..], id); }
  }

  lemma MoveElsewhere(rows: Table, session: string, id: string, p: int, now: int)
    requires id in rows && rows[id].session != session
    ensures SameQueue(rows, MoveRows(rows, id, p, now), session)
  {
    if p != rows[id].position {
      forall x | x in rows
        ensures var row, row' := rows[x], MoveRows(rows, id, p, now)[x];
                row' == row.(position := row'.position, updatedAt := row'.updatedAt) && (row.session == session ==> row'.position == row.position)
      {
        MoveRowsAt(rows, id, p, now, x);
      }
    }
  }

  lemma Counts(rows: Table, session: string, q: seq<string>)
    requires Order(rows, session, q)
    ensures |Waiting(rows, session)| == |q|
  {
    Distinct(rows, q);
    hide Rising;
    CountIs(q, Waiting(rows, session));
  }

  lemma Listed(rows: Table, session: string, q: seq<string>)
    requires Order(rows, session, q)
    ensures forall id :: id in q <==> Waits(rows, session, id)
    ensures forall id :: id in q ==> id in rows
  {}

  /** Whatever is done to the table, the session's rows are the list the action makes of its queue. */
  lemma ApplyRefines(rows: Table, session: string, q: seq<string>, a: Action)
    requires Order(rows, session, q) && forall id :: id in q ==> id in rows
    ensures Order(Apply(rows, a), session, ListAfter(rows, session, q, a))
  {
    Listed(rows, session, q);
    hide Order, MoveRows, Without, MovedList, Top;
    match a {
      case Enqueue(id, s, _, _, _) =>
        if s == session && id !in rows { Appends(rows, session, q, a); } else { OrderStays(rows, Apply(rows, a), session, q); }
      case UpdateText(_, _, _) => OrderStays(rows, Apply(rows, a), session, q);
      case Move(id, position, now) => MoveRefines(rows, session, q, id, position, now);
      case SetState(id, state, _) =>
        if state != Queued && Waits(rows, session, id) {
          Removes(rows, session, q, a);
        } else {
          if state != Queued { NotThere(q, id); }
          OrderStays(rows, Apply(rows, a), session, q);
        }
      case FinishAll(whose, state, now) => FinishRefines(rows, session, q, whose, state, now);
    }
  }

  lemma MoveRefines(rows: Table, session: string, q: seq<string>, id: string, position: int, now: int)
    requires Order(rows, session, q) && forall i :: i in q ==> i in rows
    ensures Order(Apply(rows, Move(id, position, now)), session, ListAfter(rows, session, q, Move(id, position, now)))
  {
    if id in rows && rows[id].state == Queued {
      var p := Clamp(position, |Waiting(rows, rows[id].session)|);
      if rows[id].session == session {
        Counts(rows, session, q);
        assert id in q;
        hide Order;
        MoveMovesInList(rows, q, id, p, now);
      } else {
        MoveElsewhere(rows, session, id, p, now);
        hide Order, MoveRows;
        OrderStays(rows, MoveRows(rows, id, p, now), session, q);
      }
    }
  }

  lemma FinishRefines(rows: Table, session: string, q: seq<string>, whose: Option<string>, state: State, now: int)
    requires Order(rows, session, q) && forall i :: i in q ==> i in rows
    ensures Order(FinishRows(rows, whose, state, now), session, ListAfter(rows, session, q, FinishAll(whose, state, now)))
  {
    if state == Queued || (whose.Some? && whose.value != session) {
      hide Order;
      OrderStays(rows, FinishRows(rows, whose, state, now), session, q);
    }
  }

  // ---- runs ----

  ghost function Run(rows: Table, actions: seq<Action>): Table
    decreases |actions|
  {
    if actions == [] then rows else Run(Apply(rows, actions[0]), actions[1..])
  }

  /** Rows are finished for good: what was sent, cancelled or failed is never changed again. */
  lemma {:induction false} FinishedForGood(rows: Table, actions: seq<Action>, id: string)
    requires id in rows && rows[id].state != Queued
    ensures id in Run(rows, actions) && Run(rows, actions)[id] == rows[id]
    decreases |actions|
  {
    hide Apply;
    if actions != [] {
      RowAfter(rows, actions[0], id);
      FinishedForGood(Apply(rows, actions[0]), actions[1..], id);
    }
  }

  /** Only cancelling and failing are done to all prompts at once. */
  predicate Usual(a: Action) {
    a.FinishAll? ==> a.state == Cancelled || a.state == Failed
  }

  ghost predicate SentHaveTimes(rows: Table) {
    forall id :: id in rows ==> (rows[id].sentAt.Some? <==> rows[id].state == Sent)
  }

  /** In every run a prompt has a time of sending iff it was sent. */
  lemma {:induction false} RunTimesSent(rows: Table, actions: seq<Action>)
    requires SentHaveTimes(rows) && forall a :: a in actions ==> Usual(a)
    ensures SentHaveTimes(Run(rows, actions))
    decreases |actions|
  {
    hide Apply;
    if actions != [] {
      var a := actions[0];
      assert a in actions && forall b :: b in actions[1..] ==> b in actions;
      forall id | id in Apply(rows, a) ensures Apply(rows, a)[id].sentAt.Some? <==> Apply(rows, a)[id].state == Sent {
        if id in rows { RowAfter(rows, a, id); } else { RowEnqueued(rows, a, id); }
      }
      RunTimesSent(Apply(rows, a), actions[1..]);
    }
  }

  /** In every run from the empty table, each session's waiting rows form a list: positions are distinct and at least 1. */
  lemma PositionsDistinct(actions: seq<Action>, session: string)
    ensures exists q :: Order(Run(map[], actions), session, q)
  {
    assert Order(map[], session, []);
    RunHasOrder(map[], actions, session, []);
  }

  lemma {:induction false} RunHasOrder(rows: Table, actions: seq<Action>, session: string, q: seq<string>)
    requires Order(rows, session, q)
    ensures exists q' :: Order(Run(rows, actions), session, q')
    decreases |actions|
  {
    if actions != [] {
      Listed(rows, session, q);
      hide Order, Apply;
      ApplyRefines(rows, session, q, actions[0]);
      RunHasOrder(Apply(rows, actions[0]), actions[1..], session, ListAfter(rows, session, q, actions[0]));
      var q' :| Order(Run(Apply(rows, actions[0]), actions[1..]), session, q');
      assert Order(Run(rows, actions), session, q');
    } else {
      assert Order(Run(rows, actions), session, q);
    }
  }

  /** The prompts enqueued for the session, in that order. */
  ghost function Enqueued(rows: Table, session: string, actions: seq<Action>): seq<string>
    decreases |actions|
  {
    if actions == [] then []
    else
      var a := actions[0];
      (if a.Enqueue? && a.session == session && a.id !in rows then [a.id] else [])
      + Enqueued(Apply(rows, a), session, actions[1..])
  }

  predicate Finishes(rows: Table, session: string, a: Action) {
    a.SetState? && a.state != Queued && Waits(rows, session, a.id)
  }

  /** The session's prompts that were finished one at a time, in that order. */
  ghost function Finished(rows: Table, session: string, actions: seq<Action>): seq<string>
    decreases |actions|
  {
    if actions == [] then []
    else
      (if Finishes(rows, session, actions[0]) then [actions[0].id] else [])
      + Finished(Apply(rows, actions[0]), session, actions[1..])
  }

  /** `PromptNext`'s answer: nobody waits in front of `id`. */
  ghost predicate IsNext(rows: Table, session: string, id: string) {
    Waits(rows, session, id) && forall i :: Waits(rows, session, i) ==> rows[id].position <= rows[i].position
  }

  /** The session's prompts are taken off one by one, always the next one, and never moved. */
  ghost predicate InTurn(rows: Table, session: string, actions: seq<Action>)
    decreases |actions|
  {
    actions == [] ||
    (&& (actions[0].Move? ==> !Waits(rows, session, actions[0].id))
     && (Finishes(rows, session, actions[0]) ==> IsNext(rows, session, actions[0].id))
     && (actions[0].FinishAll? ==> actions[0].whose.Some? && actions[0].whose.value != session)
     && InTurn(Apply(rows, actions[0]), session, actions[1..]))
  }

  lemma NextIsHead(rows: Table, session: string, q: seq<string>, id: string)
    requires Order(rows, session, q)
    ensures IsNext(rows, session, id) <==> q != [] && q[0] == id
  {
    if q != [] {
      assert q[0] in q;
      forall i | Waits(rows, session, i) ensures i in q && rows[q[0]].position <= rows[i].position { assert i in q; }
    }
  }

  /** First in, first out: what has been finished, then what waits, is what was enqueued, in that order. */
  lemma FirstInFirstOut(actions: seq<Action>, session: string, q: seq<string>)
    requires InTurn(map[], session, actions) && Order(Run(map[], actions), session, q)
    ensures Finished(map[], session, actions) + q == Enqueued(map[], session, actions)
  {
    assert Order(map[], session, []);
    hide Order;
    InTurnKeepsOrder(map[], actions, session, [], q);
  }

  lemma {:induction false} InTurnKeepsOrder(rows: Table, actions: seq<Action>, session: string, q: seq<string>, q': seq<string>)
    requires Order(rows, session, q) && InTurn(rows, session, actions) && Order(Run(rows, actions), session, q')
    ensures Finished(rows, session, actions) + q' == q + Enqueued(rows, session, actions)
    decreases |actions|
  {
    if actions == [] {
      hide *;
      assert Run(rows, actions) == rows by { RunNothing(rows); }
      OneList(rows, session, q, q');
      assert Finished(rows, session, []) == [] && Enqueued(rows, session, []) == [] by { NothingHappens(rows, session); }
    } else {
      var a := actions[0];
      Listed(rows, session, q);
      hide Order, Apply, Waits;
      ApplyRefines(rows, session, q, a);
      var next := ListAfter(rows, session, q, a);
      InTurnKeepsOrder(Apply(rows, a), actions[1..], session, next, q');
      StepInTurn(rows, session, q, a);
      var rows' := Apply(rows, a);
      var gone := if Finishes(rows, session, a) then [a.id] else [];
      var added := if a.Enqueue? && a.session == session && a.id !in rows then [a.id] else [];
      hide Finishes, ListAfter, InTurn;
      var f, e := Finished(rows', session, actions[1..]), Enqueued(rows', session, actions[1..]);
      assert Finished(rows, session, actions) == gone + f && Enqueued(rows, session, actions) == added + e;
      hide Finished, Enqueued;
      Regroup(gone, f, q', q, added, e, next);
    }
  }

  lemma Regroup(gone: seq<string>, f: seq<string>, q': seq<string>, q: seq<string>, added: seq<string>, e: seq<string>, next: seq<string>)
    requires f + q' == next + e && gone + next == q + added
    ensures gone + f + q' == q + (added + e)
  {
    assert gone + f + q' == gone + (f + q') == gone + next + e;
  }

  lemma RunNothing(rows: Table)
    ensures Run(rows, []) == rows
  {}

  lemma NothingHappens(rows: Table, session: string)
    ensures Finished(rows, session, []) == [] && Enqueued(rows, session, []) == []
  {}

  /** One action in turn: it takes the head, or adds at the end, or neither. */
  lemma StepInTurn(rows: Table, session: string, q: seq<string>, a: Action)
    requires Order(rows, session, q) && forall id :: id in q ==> id in rows
    requires a.Move? ==> !Waits(rows, session, a.id)
    requires Finishes(rows, session, a) ==> IsNext(rows, session, a.id)
    requires a.FinishAll? ==> a.whose.Some? && a.whose.value != session
    ensures var gone := if Finishes(rows, session, a) then [a.id] else [];
            var added := if a.Enqueue? && a.session == session && a.id !in rows then [a.id] else [];
            gone + ListAfter(rows, session, q, a) == q + added
  {
    if a.SetState? {
      Listed(rows, session, q);
      NextIsHead(rows, session, q, a.id);
      hide Order, IsNext;
      if Finishes(rows, session, a) {
        assert q == [q[0]] + q[1..];
      } else if a.state != Queued {
        NotThere(q, a.id);
      }
    }
  }

  /** A table stands for one list only. */
  lemma {:induction false} OneList(rows: Table, session: string, q: seq<string>, q': seq<string>)
    requires Order(rows, session, q) && Order(rows, session, q')
    ensures q == q'
  {
    Counts(rows, session, q);
    Counts(rows, session, q');
    forall i | 0 <= i < |q| ensures q[i] == q'[i] {
      Listed(rows, session, q);
      Listed(rows, session, q');
      SameAt(rows, session, q, q', i);
    }
  }

  lemma {:induction false} SameAt(rows: Table, session: string, q: seq<string>, q': seq<string>, i: nat)
    requires Order(rows, session, q) && Order(rows, session, q') && i < |q| == |q'|
    ensures q[i] == q'[i]
  {
    forall j: nat | j < i ensures q[j] == q'[j] { SameAt(rows, session, q, q', j); }
    assert q[i] in q && q'[i] in q';
    var k :| 0 <= k < |q'| && q'[k] == q[i];
    var l :| 0 <= l < |q| && q[l] == q'[i];
    assert k >= i && l >= i;
  }

  // ---- dense queues ----

  /** The queue has a gap where index `i` was. */
  ghost predicate Gap(rows: Table, r: seq<string>, i: nat) {
    forall j :: 0 <= j < |r| ==> r[j] in rows && rows[r[j]].position == if j < i then j + 1 else j + 2
  }

  lemma GapLeft(rows: Table, q: seq<string>, i: nat)
    requires Rising(rows, q) && Numbered(rows, q) && i < |q|
    ensures Gap(rows, q[..i] + q[i + 1..], i)
  {
    hide Rising;
    var r := q[..i] + q[i + 1..];
    assert forall j :: 0 <= j < |r| ==> r[j] == if j < i then q[j] else q[j + 1];
  }

  lemma GapPlace(rows: Table, r: seq<string>, id: string, i: nat, p: int)
    requires Rising(rows, r) && Gap(rows, r, i) && i <= |r| && (forall x :: x in r ==> x in rows)
    requires id in rows && rows[id].position == i + 1 && 1 <= p <= |r| + 1 && p != i + 1
    ensures Place(rows, r, id, p) == p - 1
  {
    var limit := if p < i + 1 then p else p + 1;
    AheadIs(rows, r, limit);
    hide Rising, Ahead;
    assert p - 1 < |r| ==> rows[r[p - 1]].position >= limit;
    assert p >= 2 ==> rows[r[p - 2]].position < limit;
  }

  lemma GapCloses(rows: Table, rows': Table, r: seq<string>, id: string, i: nat, p: int)
    requires Gap(rows, r, i) && i <= |r| && 1 <= p <= |r| + 1 && p != i + 1
    requires forall j :: 0 <= j < |r| ==> r[j] in rows && r[j] in rows' && rows'[r[j]].position == Shifted(rows[r[j]].position, i + 1, p)
    requires id in rows' && rows'[id].position == p
    ensures Numbered(rows', Inserted(r, p - 1, id))
  {
    var n := Inserted(r, p - 1, id);
    assert forall j :: 0 <= j < |n| ==> n[j] == if j < p - 1 then r[j] else if j == p - 1 then id else r[j - 1];
  }

  lemma MoveToOnDense(rows: Table, session: string, q: seq<string>, i: nat, p: int, now: int)
    requires Dense(rows, session, q) && i < |q| && q[i] in rows && rows[q[i]].session == session && 1 <= p <= |q| && p != i + 1
    ensures var r := Without(q, q[i]);
            |r| == |q| - 1 && Dense(MoveRows(rows, q[i], p, now), session, Inserted(r, p - 1, q[i]))
  {
    hide Order, Dense, Rising, Numbered, Without, MoveRows, Gap, Waits, Place, Inserted;
    var id, r := q[i], Without(q, q[i]);
    DenseParts(rows, session, q, i);
    WithoutMembers(rows, q, i);
    DenseGap(rows, session, q, i);
    WithoutRising(rows, q, i);
    ShiftsTo(rows, session, q, id, p, now);
    GapIn(rows, r, i);
    GapPlace(rows, r, id, i, p);
    MoveMovesInList(rows, q, id, p, now);
    assert forall x :: x in r ==> x in q && x != id;
    assert forall j :: 0 <= j < |r| ==> r[j] in r;
    GapCloses(rows, MoveRows(rows, id, p, now), r, id, i, p);
    DenseFrom(MoveRows(rows, id, p, now), session, Inserted(r, p - 1, id));
  }

  lemma GapIn(rows: Table, r: seq<string>, i: nat)
    requires Gap(rows, r, i)
    ensures (forall j :: 0 <= j < |r| ==> r[j] in rows) && forall x :: x in r ==> x in rows
  {}

  lemma DenseGap(rows: Table, session: string, q: seq<string>, i: nat)
    requires Dense(rows, session, q) && i < |q|
    ensures Gap(rows, q[..i] + q[i + 1..], i)
  {
    OrderParts(rows, session, q);
    GapLeft(rows, q, i);
  }

  lemma DenseFrom(rows: Table, session: string, q: seq<string>)
    requires Order(rows, session, q) && Numbered(rows, q)
    ensures Dense(rows, session, q)
  {}

  /** On a dense queue a move is list removal and insertion at the clamped index, and the queue stays dense. */
  lemma MoveOnDense(rows: Table, q: seq<string>, i: nat, position: int, now: int)
    requires i < |q| && q[i] in rows && Dense(rows, rows[q[i]].session, q)
    ensures var p := Clamp(position, |q|);
            1 <= p <= |q| == |Without(q, q[i])| + 1
            && Dense(Apply(rows, Move(q[i], position, now)), rows[q[i]].session, Inserted(Without(q, q[i]), p - 1, q[i]))
  {
    var id, s, p := q[i], rows[q[i]].session, Clamp(position, |q|);
    hide Order, Rising, Dense, Numbered, Apply, Without, Waits, Waiting, MoveRows, Shift, Inserted;
    DenseParts(rows, s, q, i);
    Counts(rows, s, q);
    ApplyMove(rows, s, id, position, now);
    if p == i + 1 {
      WithoutMembers(rows, q, i);
      PutBack(q, i);
      MoveNowhere(rows, id, now);
    } else {
      MoveToOnDense(rows, s, q, i, p, now);
    }
  }

  lemma DenseParts(rows: Table, session: string, q: seq<string>, i: nat)
    requires Dense(rows, session, q) && i < |q|
    ensures Order(rows, session, q) && Rising(rows, q)
    ensures Waits(rows, session, q[i]) && q[i] in rows && rows[q[i]].position == i + 1
  {
    assert q[i] in q;
  }

  lemma MoveNowhere(rows: Table, id: string, now: int)
    requires id in rows
    ensures MoveRows(rows, id, rows[id].position, now) == rows
  {}

  lemma ApplyMove(rows: Table, session: string, id: string, position: int, now: int)
    requires Waits(rows, session, id)
    ensures Apply(rows, Move(id, position, now)) == MoveRows(rows, id, Clamp(position, |Waiting(rows, session)|), now)
  {}

  lemma PutBack(q: seq<string>, i: nat)
    requires i < |q|
    ensures Inserted(q[..i] + q[i + 1..], i, q[i]) == q
  {
    var r := q[..i] + q[i + 1..];
    assert r[..i] == q[..i] && r[i..] == q[i + 1..];
  }

  lemma OrderParts(rows: Table, session: string, q: seq<string>)
    requires Order(rows, session, q)
    ensures Rising(rows, q) && forall id :: id in q ==> id in rows && Waits(rows, session, id)
  {}

  lemma ShiftsTo(rows: Table, session: string, q: seq<string>, id: string, p: int, now: int)
    requires Order(rows, session, q) && id in rows && rows[id].session == session && p != rows[id].position
    ensures var rows' := MoveRows(rows, id, p, now);
            && id in rows' && rows'[id].position == p
            && forall x :: x in q && x != id ==>
                 x in rows && x in rows' && rows'[x].position == Shifted(rows[x].position, rows[id].position, p)
  {
    OrderParts(rows, session, q);
    hide Order, Rising, Shifted;
    MoveRowsAt(rows, id, p, now, id);
    MoveRowsKeys(rows, id, p, now);
    forall x | x in q && x != id
      ensures x in rows && x in MoveRows(rows, id, p, now)
              && MoveRows(rows, id, p, now)[x].position == Shifted(rows[x].position, rows[id].position, p)
    {
      MoveRowsAt(rows, id, p, now, x);
    }
  }

  lemma MoveRowsKeys(rows: Table, id: string, p: int, now: int)
    requires id in rows
    ensures MoveRows(rows, id, p, now).Keys == rows.Keys
  {}

  /** Enqueueing keeps a queue dense. */
  lemma EnqueueKeepsDense(rows: Table, session: string, q: seq<string>, a: Action)
    requires Dense(rows, session, q) && a.Enqueue? && a.session == session && a.id !in rows
    ensures Dense(Apply(rows, a), session, q + [a.id])
  {
    Appends(rows, session, q, a);
    DenseTop(rows, session, q);
    OrderParts(rows, session, q);
    hide Order, Rising, Top;
    var n := q + [a.id];
    assert forall j :: 0 <= j < |q| ==> n[j] == q[j] && q[j] in q;
  }

  lemma StillNumbered(rows: Table, rows': Table, q: seq<string>, i: nat)
    requires Numbered(rows, q) && i < |q| && (forall j, k :: 0 <= j < k < |q| ==> q[j] != q[k])
    requires forall x :: x in rows && x != q[i] ==> x in rows' && rows'[x].position == rows[x].position
    ensures Numbered(rows', q[..i] + q[i + 1..]) <==> i == |q| - 1
  {
    var r := q[..i] + q[i + 1..];
    assert forall j :: 0 <= j < |r| ==> r[j] == if j < i then q[j] else q[j + 1];
    if i < |q| - 1 {
      assert rows'[r[i]].position == i + 2;
    }
  }

  lemma FinishedRows(rows: Table, a: Action)
    requires a.SetState?
    ensures forall x :: x in rows ==> x in Apply(rows, a) && Apply(rows, a)[x].position == rows[x].position
  {}

  /** Finishing one prompt of a dense queue leaves it dense iff it was the last one. */
  lemma DenseWithoutLast(rows: Table, session: string, q: seq<string>, a: Action)
    requires Dense(rows, session, q) && Finishes(rows, session, a)
    ensures Dense(Apply(rows, a), session, Without(q, a.id)) <==> q != [] && q[|q| - 1] == a.id
  {
    Removes(rows, session, q, a);
    var i :| 0 <= i < |q| && q[i] == a.id;
    OrderParts(rows, session, q);
    Distinct(rows, q);
    WithoutMembers(rows, q, i);
    hide Order, Rising, Without, Waits;
    FinishedRows(rows, a);
    hide Apply;
    StillNumbered(rows, Apply(rows, a), q, i);
    hide Numbered;
    assert q[|q| - 1] == a.id <==> i == |q| - 1;
  }

  lemma DenseTop(rows: Table, session: string, q: seq<string>)
    requires Dense(rows, session, q)
    ensures Top(rows, Waiting(rows, session)) == |q|
  {
    var ids := Waiting(rows, session);
    if q == [] {
      assert ids == {};
    } else {
      assert q[|q| - 1] in ids;
      var id :| id in ids && rows[id].position == Top(rows, ids);
      var i :| 0 <= i < |q| && q[i] == id;
    }
  }

  // ---- when a move lands where it was asked to ----

  /** Moving prompt `i` to clamped position `p` is removal and insertion at index `p - 1`. */
  ghost predicate Lands(rows: Table, q: seq<string>, i: nat, p: int)
    requires i < |q| && (forall id :: id in q ==> id in rows) && 1 <= p <= |q|
  {
    var r := Without(q, q[i]);
    |r| == |q| - 1 && MovedList(rows, q, q[i], p) == Inserted(r, p - 1, q[i])
  }

  /** Towards the front, the positions before `p` must all be taken; otherwise those up to `p`. */
  predicate Filled(rows: Table, q: seq<string>, i: nat, p: int)
    requires i < |q| && (forall id :: id in q ==> id in rows) && 1 <= p <= |q|
  {
    if p < rows[q[i]].position then p == 1 || rows[q[p - 2]].position == p - 1 else rows[q[p - 1]].position == p
  }

  lemma {:induction false} AtLeast(rows: Table, q: seq<string>, j: nat)
    requires Rising(rows, q) && j < |q|
    ensures q[j] in rows && rows[q[j]].position >= j + 1
  {
    if j > 0 { AtLeast(rows, q, j - 1); }
  }

  /** Where the last of `j + 1` rising positions is `j + 1`, they are 1, 2, ... */
  lemma {:induction false} Packed(rows: Table, q: seq<string>, j: nat, k: nat)
    requires Rising(rows, q) && k <= j < |q| && q[j] in rows && rows[q[j]].position == j + 1
    ensures q[k] in rows && rows[q[k]].position == k + 1
    decreases j
  {
    if k < j {
      AtLeast(rows, q, j - 1);
      Packed(rows, q, j - 1, k);
    }
  }

  lemma InsertedWhere(r: seq<string>, k: nat, l: nat, id: string)
    requires k <= |r| && l <= |r| && id !in r
    ensures Inserted(r, k, id) == Inserted(r, l, id) <==> k == l
  {
    if k != l {
      var a, b := Inserted(r, k, id), Inserted(r, l, id);
      assert a[k] == id && b[k] == (if k < l then r[k] else r[k - 1]);
      assert b[k] in r;
    }
  }

  lemma PlaceIs(rows: Table, r: seq<string>, id: string, p: int, k: nat)
    requires Rising(rows, r) && id in rows && (forall x :: x in r ==> x in rows) && k <= |r|
    requires var limit := if p < rows[id].position then p else p + 1;
             (k < |r| ==> rows[r[k]].position >= limit)
    ensures Place(rows, r, id, p) <= k
    ensures Place(rows, r, id, p) == k <==>
              k == 0 || rows[r[k - 1]].position < if p < rows[id].position then p else p + 1
  {
    AheadIs(rows, r, if p < rows[id].position then p else p + 1);
    hide Ahead;
  }

  /** The others of `q`, by index. */
  lemma OtherAt(q: seq<string>, i: nat, r: seq<string>, j: nat)
    requires i < |q| && r == q[..i] + q[i + 1..] && j < |r|
    ensures r[j] == if j < i then q[j] else q[j + 1]
  {}

  lemma RisingAt(rows: Table, q: seq<string>, i: nat, j: nat)
    requires Rising(rows, q) && i <= j < |q|
    ensures q[i] in rows && q[j] in rows && rows[q[i]].position <= rows[q[j]].position
  {}

  lemma FilledIsPlace(rows: Table, q: seq<string>, i: nat, p: int)
    requires Rising(rows, q) && i < |q| && (forall id :: id in q ==> id in rows) && 1 <= p <= |q| && p != rows[q[i]].position
    ensures var r := Without(q, q[i]);
            && |r| == |q| - 1 && (forall x :: x in r ==> x in rows) && q[i] !in r
            && (Place(rows, r, q[i], p) == p - 1 <==> Filled(rows, q, i, p))
  {
    var r := Without(q, q[i]);
    hide Rising, Place, Without;
    WithoutMembers(rows, q, i);
    WithoutRising(rows, q, i);
    if p < rows[q[i]].position { FilledInFront(rows, q, i, p, r); } else { FilledBehind(rows, q, i, p, r); }
  }

  lemma FilledInFront(rows: Table, q: seq<string>, i: nat, p: int, r: seq<string>)
    requires Rising(rows, q) && Rising(rows, r) && i < |q| && r == q[..i] + q[i + 1..]
    requires (forall id :: id in q ==> id in rows) && (forall id :: id in r ==> id in rows)
    requires 1 <= p <= |q| && q[i] in rows && p < rows[q[i]].position
    ensures Place(rows, r, q[i], p) == p - 1 <==> Filled(rows, q, i, p)
  {
    hide Rising, Place;
    if p - 1 < |r| { AtLeast(rows, r, p - 1); }
    if p >= 2 {
      OtherAt(q, i, r, p - 2);
      AtLeast(rows, q, p - 2);
      if i <= p - 2 {
        RisingAt(rows, q, i, p - 2);
        RisingAt(rows, q, i, p - 1);
      }
    }
    PlaceIs(rows, r, q[i], p, p - 1);
  }

  lemma FilledBehind(rows: Table, q: seq<string>, i: nat, p: int, r: seq<string>)
    requires Rising(rows, q) && Rising(rows, r) && i < |q| && r == q[..i] + q[i + 1..]
    requires (forall id :: id in q ==> id in rows) && (forall id :: id in r ==> id in rows)
    requires 1 <= p <= |q| && q[i] in rows && p > rows[q[i]].position
    ensures Place(rows, r, q[i], p) == p - 1 <==> Filled(rows, q, i, p)
  {
    hide Rising, Place;
    AtLeast(rows, q, i);
    AtLeast(rows, q, p - 1);
    if p >= 2 { OtherAt(q, i, r, p - 2); }
    if p < |q| {
      OtherAt(q, i, r, p - 1);
      AtLeast(rows, q, p);
    }
    PlaceIs(rows, r, q[i], p, p - 1);
  }

  /** A move lands where it was asked to iff the positions in question are filled: a caller can tell beforehand. */
  lemma LandsIff(rows: Table, session: string, q: seq<string>, i: nat, p: int)
    requires Order(rows, session, q) && i < |q| && (forall id :: id in q ==> id in rows) && 1 <= p <= |q|
    ensures Lands(rows, q, i, p) <==> Filled(rows, q, i, p)
  {
    OrderParts(rows, session, q);
    hide Order, Rising, Filled, Place, Without, Inserted;
    if p != rows[q[i]].position {
      FilledIsPlace(rows, q, i, p);
      InsertedWhere(Without(q, q[i]), Place(rows, Without(q, q[i]), q[i], p), p - 1, q[i]);
    } else {
      StaysPut(rows, q, i);
    }
  }

  lemma StaysPut(rows: Table, q: seq<string>, i: nat)
    requires Rising(rows, q) && i < |q| && (forall id :: id in q ==> id in rows)
    requires 1 <= rows[q[i]].position <= |q|
    ensures Lands(rows, q, i, rows[q[i]].position) <==> Filled(rows, q, i, rows[q[i]].position)
  {
    hide Rising, Without, Place, Inserted;
    var p, r := rows[q[i]].position, Without(q, q[i]);
    WithoutMembers(rows, q, i);
    PutBack(q, i);
    InsertedWhere(r, i, p - 1, q[i]);
    AtLeast(rows, q, i);
    FilledWhere(rows, q, i);
  }

  lemma FilledWhere(rows: Table, q: seq<string>, i: nat)
    requires Rising(rows, q) && i < |q| && (forall id :: id in q ==> id in rows) && i + 1 <= rows[q[i]].position <= |q|
    ensures Filled(rows, q, i, rows[q[i]].position) <==> i == rows[q[i]].position - 1
  {
    var p := rows[q[i]].position;
    if i < p - 1 { assert rows[q[i]].position < rows[q[p - 1]].position; }
  }

  /** Every move of a queue of two or more lands where it was asked to iff the queue is dense. */
  lemma AllLandIffDense(rows: Table, session: string, q: seq<string>)
    requires Order(rows, session, q) && (forall id :: id in q ==> id in rows) && |q| >= 2
    ensures (forall i, p :: 0 <= i < |q| && 1 <= p <= |q| ==> Lands(rows, q, i, p)) <==> Dense(rows, session, q)
  {
    OrderParts(rows, session, q);
    if Numbered(rows, q) {
      forall i, p | 0 <= i < |q| && 1 <= p <= |q| ensures Lands(rows, q, i, p) { LandsIff(rows, session, q, i, p); }
    } else {
      SomeMoveMisses(rows, session, q);
    }
  }

  lemma LastTells(rows: Table, q: seq<string>)
    requires Rising(rows, q) && q != []
    ensures q[|q| - 1] in rows && (rows[q[|q| - 1]].position == |q| ==> Numbered(rows, q))
  {
    var n := |q|;
    if rows[q[n - 1]].position == n {
      forall k | 0 <= k < n ensures q[k] in rows && rows[q[k]].position == k + 1 { Packed(rows, q, n - 1, k); }
    }
  }

  lemma SomeMoveMisses(rows: Table, session: string, q: seq<string>)
    requires Order(rows, session, q) && (forall id :: id in q ==> id in rows) && |q| >= 2 && !Numbered(rows, q)
    ensures exists i, p :: 0 <= i < |q| && 1 <= p <= |q| && !Lands(rows, q, i, p)
  {
    var n := |q|;
    OrderParts(rows, session, q);
    hide Order, Lands;
    AtLeast(rows, q, n - 1);
    LastTells(rows, q);
    if rows[q[n - 2]].position == n - 1 { Packed(rows, q, n - 2, 0); }
    var i := if rows[q[n - 2]].position != n - 1 then n - 1 else 0;
    LandsIff(rows, session, q, i, n);
    assert !Lands(rows, q, i, n);
  }

  function Adding(ids: seq<string>, now: int): seq<Action> {
    if ids == [] then [] else [Enqueue(ids[0], "s", 0, "", now)] + Adding(ids[1..], now)
  }

  function Sending(ids: seq<string>, now: int): seq<Action> {
    if ids == [] then [] else [SetState(ids[0], Sent, now)] + Sending(ids[1..], now)
  }

  /** Five prompts are enqueued, and the first two are sent. */
  function TwoOfFiveSent(now: int): seq<Action> {
    Adding(["a", "b", "c", "d", "e"], now) + Sending(["a", "b"], now)
  }

  /** The session's queue, without gaps from position `n` on. */
  ghost predicate From(rows: Table, q: seq<string>, n: int) {
    Order(rows, "s", q) && forall i :: 0 <= i < |q| ==> q[i] in rows && rows[q[i]].position == n + i
  }

  lemma {:induction false} RunConcat(rows: Table, a: seq<Action>, b: seq<Action>)
    ensures Run(rows, a + b) == Run(Run(rows, a), b)
    decreases |a|
  {
    hide Apply;
    if a == [] {
      assert [] + b == b;
    } else {
      assert (a + b)[1..] == a[1..] + b;
      RunConcat(Apply(rows, a[0]), a[1..], b);
    }
  }

  lemma RunOne(rows: Table, a: Action, rest: seq<Action>)
    ensures Run(rows, [a] + rest) == Run(Apply(rows, a), rest)
  {
    assert ([a] + rest)[1..] == rest;
  }

  lemma AddsOne(rows: Table, q: seq<string>, a: Action)
    requires From(rows, q, 1) && a.Enqueue? && a.session == "s" && a.id !in rows
    ensures From(Apply(rows, a), q + [a.id], 1) && Apply(rows, a).Keys == rows.Keys + {a.id}
  {
    EnqueueKeepsDense(rows, "s", q, a);
    hide Order;
  }

  lemma {:induction false} AddsAll(rows: Table, q: seq<string>, ids: seq<string>, now: int)
    requires From(rows, q, 1) && (forall i :: 0 <= i < |ids| ==> ids[i] !in rows)
    requires forall i, j :: 0 <= i < j < |ids| ==> ids[i] != ids[j]
    ensures From(Run(rows, Adding(ids, now)), q + ids, 1)
    decreases |ids|
  {
    hide From, Apply, Run;
    if ids == [] {
      RunNothing(rows);
      assert q + ids == q;
    } else {
      var a := Enqueue(ids[0], "s", 0, "", now);
      AddsOne(rows, q, a);
      RunOne(rows, a, Adding(ids[1..], now));
      AddsAll(Apply(rows, a), q + [ids[0]], ids[1..], now);
      assert q + [ids[0]] + ids[1..] == q + ids;
    }
  }

  lemma SendsFirst(rows: Table, q: seq<string>, n: int, now: int)
    requires From(rows, q, n) && q != []
    ensures From(Apply(rows, SetState(q[0], Sent, now)), q[1..], n + 1)
  {
    var a := SetState(q[0], Sent, now);
    assert q[0] in q;
    Removes(rows, "s", q, a);
    WithoutIs(q, 0);
    FinishedRows(rows, a);
    hide Order, Apply;
    assert q[..0] + q[1..] == q[1..];
  }

  /** Positions 3, 4 and 5: the middle one, asked to go to the back, is put in front. */
  lemma MiddleGoesForward(rows: Table, now: int)
    requires From(rows, ["c", "d", "e"], 3)
    ensures Order(Apply(rows, Move("d", 5, now)), "s", ["d", "c", "e"])
  {
    var q := ["c", "d", "e"];
    assert q[1] in q;
    Counts(rows, "s", q);
    ApplyMove(rows, "s", "d", 5, now);
    MoveMovesInList(rows, q, "d", 3, now);
    hide Order, Apply, MoveRows;
    WithoutIs(q, 1);
    assert q[..1] + q[2..] == ["c", "e"];
    assert Inserted(["c", "e"], 0, "d") == ["d", "c", "e"];
  }

  lemma {:induction false} SendsAll(rows: Table, q: seq<string>, n: int, ids: seq<string>, now: int)
    requires From(rows, q, n) && ids <= q
    ensures From(Run(rows, Sending(ids, now)), q[|ids|..], n + |ids|)
    decreases |ids|
  {
    hide From, Apply, Run;
    if ids == [] {
      RunNothing(rows);
      assert q[0..] == q;
    } else {
      SendsFirst(rows, q, n, now);
      RunOne(rows, SetState(ids[0], Sent, now), Sending(ids[1..], now));
      SendsAll(Apply(rows, SetState(ids[0], Sent, now)), q[1..], n + 1, ids[1..], now);
      assert q[1..][|ids| - 1..] == q[|ids|..];
    }
  }

  lemma NothingQueued()
    ensures From(map[], [], 1)
  {}

  /**
   A run from the empty table in which a move towards the back ends further in front: of five prompts the first
   two are sent, and the fourth is asked to go to position 5.
   */
  lemma SparseMoveGoesForward(now: int)
    ensures From(Run(map[], TwoOfFiveSent(now)), ["c", "d", "e"], 3)
    ensures Order(Run(map[], TwoOfFiveSent(now) + [Move("d", 5, now)]), "s", ["d", "c", "e"])
  {
    hide Apply, Run, From, Order, Adding, Sending;
    var ids := ["a", "b", "c", "d", "e"];
    var added := Run(map[], Adding(ids, now));
    NothingQueued();
    AddsAll(map[], [], ids, now);
    assert [] + ids == ids;
    SendsAll(added, ids, 1, ["a", "b"], now);
    RunConcat(map[], Adding(ids, now), Sending(["a", "b"], now));
    assert ids[2..] == ["c", "d", "e"];
    var rows := Run(map[], TwoOfFiveSent(now));
    MiddleGoesForward(rows, now);
    RunConcat(map[], TwoOfFiveSent(now), [Move("d", 5, now)]);
    RunOne(rows, Move("d", 5, now), []);
    RunNothing(Apply(rows, Move("d", 5, now)));
    assert [Move("d", 5, now)] + [] == [Move("d", 5, now)];
  }

  /** Moving one prompt leaves the order of all the others alone. */
  lemma MoveKeepsOthers(rows: Table, q: seq<string>, id: string, p: int)
    requires Rising(rows, q) && id in q && id in rows && forall i :: i in q ==> i in rows
    ensures Without(MovedList(rows, q, id, p), id) == Without(q, id)
  {
    var i :| 0 <= i < |q| && q[i] == id;
    WithoutMembers(rows, q, i);
    var r := Without(q, id);
    hide Place, Rising;
    TakesBack(r, Place(rows, r, id, p), id);
  }

  lemma {:induction false} TakesBack(r: seq<string>, k: nat, id: string)
    requires k <= |r| && id !in r
    ensures Without(Inserted(r, k, id), id) == r
  {
    var n := Inserted(r, k, id);
    assert forall j :: 0 <= j < k ==> n[j] == r[j] && r[j] in r;
    WithoutIs(n, k);
    assert n[..k] == r[..k] && n[k + 1..] == r[k..];
  }

  // ---- the table ----

  /** The order in which waiting prompts are taken: by position, then by age. */
  predicate Earlier(a: Prompt, b: Prompt) {
    a.position < b.position || (a.position == b.position && a.createdAt < b.createdAt)
  }

  class PromptQueue {
    var rows: Table

    constructor ()
      ensures rows == map[]
    {
      rows := map[];
    }

    /** `SELECT COALESCE(MAX(position), 0)` of the session's waiting prompts. */
    method MaxPosition(session: string) returns (m: int)
      ensures m == Top(rows, Waiting(rows, session))
    {
      m := 0;
      var ids := Waiting(rows, session);
      var todo := ids;
      while todo != {}
        invariant todo <= ids
        invariant forall id :: id in ids - todo ==> rows[id].position <= m
        invariant if todo == ids then m == 0 else exists id :: id in ids - todo && rows[id].position == m
      {
        var id :| id in todo;
        if todo == ids || rows[id].position > m {
          m := rows[id].position;
        }
        todo := todo - {id};
        assert id in ids - todo && rows[id].position <= m;
      }
      assert ids - todo == ids;
    }

    method PromptEnqueue(id: string, session: string, chat: int, text: string, now: int) returns (p: Option<Prompt>)
      modifies this
      ensures rows == Apply(old(rows), Enqueue(id, session, chat, text, now))
      ensures p == if id in old(rows) then None else Some(rows[id])
    {
      hide Top, Waiting;
      var position := MaxPosition(session);
      if id in rows {
        return None;
      }
      var row := Prompt(session, chat, text, Queued, position + 1, now, now, None);
      rows := rows[id := row];
      p := Some(row);
    }

    /** The waiting prompt with the smallest position; of several, the oldest. */
    method PromptNext(session: string) returns (next: Option<string>)
      ensures next.None? <==> forall id :: !Waits(rows, session, id)
      ensures next.Some? ==> IsNext(rows, session, next.value)
      ensures next.Some? ==> forall id :: Waits(rows, session, id) ==> !Earlier(rows[id], rows[next.value])
    {
      next := None;
      var ids := Waiting(rows, session);
      var todo := ids;
      while todo != {}
        invariant todo <= ids
        invariant next.None? ==> todo == ids
        invariant next.Some? ==> next.value in ids && forall id :: id in ids - todo ==> !Earlier(rows[id], rows[next.value])
      {
        var id :| id in todo;
        if next.None? || Earlier(rows[id], rows[next.value]) {
          next := Some(id);
        }
        todo := todo - {id};
      }
      assert ids - todo == ids;
    }

    method PromptUpdateText(id: string, text: string, now: int) returns (ok: bool)
      modifies this
      ensures rows == Apply(old(rows), UpdateText(id, text, now))
      ensures ok <==> id in old(rows) && old(rows)[id].state == Queued
    {
      ok := id in rows && rows[id].state == Queued;
      if ok {
        rows := rows[id := rows[id].(text := text, updatedAt := now)];
      }
    }

    method PromptMove(id: string, position: int, now: int) returns (ok: bool)
      modifies this
      ensures rows == Apply(old(rows), Move(id, position, now))
      ensures ok <==> id in old(rows) && old(rows)[id].state == Queued
    {
      hide Waits, Waiting;
      ok := id in rows && rows[id].state == Queued;
      if !ok {
        return;
      }
      var row := rows[id];
      var count := |Waiting(rows, row.session)|;
      var p := position;
      if p < 1 {
        p := 1;
      }
      if p > count {
        p := count;
      }
      if p == row.position {
        return;
      }
      ghost var before := rows;
      if p < row.position {
        ShiftUp(row.session, p, row.position, now);
      } else {
        ShiftDown(row.session, p, row.position, now);
      }
      rows := rows[id := rows[id].(position := p, updatedAt := now)];
      assert rows == MoveRows(before, id, p, now);
    }

    /** One place back for those from `p` to in front of `from`. */
    method ShiftUp(session: string, p: int, from: int, now: int)
      requires p < from
      modifies this
      ensures rows == Shift(old(rows), session, p, from, now)
    {
      rows := map i | i in rows ::
        if Waits(rows, session, i) && rows[i].position >= p && rows[i].position < from then
          rows[i].(position := rows[i].position + 1, updatedAt := now)
        else rows[i];
    }

    /** One place to the front for those behind `from`, up to `p`. */
    method ShiftDown(session: string, p: int, from: int, now: int)
      requires p > from
      modifies this
      ensures rows == Shift(old(rows), session, p, from, now)
    {
      rows := map i | i in rows ::
        if Waits(rows, session, i) && rows[i].position <= p && rows[i].position > from then
          rows[i].(position := rows[i].position - 1, updatedAt := now)
        else rows[i];
    }

    method PromptSetState(id: string, state: State, now: int) returns (ok: bool)
      modifies this
      ensures rows == Apply(old(rows), SetState(id, state, now))
      ensures ok <==> id in old(rows) && old(rows)[id].state == Queued
    {
      ok := id in rows && rows[id].state == Queued;
      if ok {
        var row := rows[id];
        var sent := if state == Sent then Some(now) else None;
        rows := rows[id := row.(state := state, updatedAt := now, sentAt := if sent.Some? then sent else row.sentAt)];
      }
    }

    /** Returns how many were waiting. */
    method PromptCancelQueued(session: string, now: int) returns (n: nat)
      modifies this
      ensures rows == Apply(old(rows), FinishAll(if session == "" then None else Some(session), Cancelled, now))
      ensures n == |set id | id in old(rows) && rows[id] != old(rows)[id]|
      ensures session != "" ==> n == |Waiting(old(rows), session)|
    {
      var ids := set id | id in rows && rows[id].state == Queued && (session == "" || rows[id].session == session);
      n := |ids|;
      assert session != "" ==> ids == Waiting(rows, session);
      rows := map i | i in rows ::
        if rows[i].state == Queued && (session == "" || rows[i].session == session) then
          rows[i].(state := Cancelled, updatedAt := now)
        else rows[i];
      assert ids == set id | id in old(rows) && rows[id] != old(rows)[id];
    }
  }
}
