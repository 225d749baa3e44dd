/**
 The table of sessions and its recovery states. Text is modelled one character to a byte.
 */
module Sessions {
  import opened Bytes

  datatype State = Healthy | Reconnecting | Recovering | Orphaned | Failed | Terminated | Unrecognised

  datatype Details = Details(name: string, agent: string, cwd: string, command: string,
                             transport: string, target: string, startedAt: int)

  /** Times are Unix seconds. */
  datatype Row = Row(details: Details, lastActivity: int, state: State, reason: string, updatedAt: int, endedAt: Option<int>)

  type Table = map<string, Row>

  const MAX_REASON: nat := 512

  // ---- trimming ----

  predicate IsSpace(c: char) {
    c == ' ' || '\t' <= c <= '\r'
  }

  function TrimLeft(s: string): (r: string)
    ensures |r| <= |s| && (r != "" ==> !IsSpace(r[0]))
  {
    if s != "" && IsSpace(s[0]) then TrimLeft(s[1..]) else s
  }

  function TrimRight(s: string): (r: string)
    ensures r <= s && (r != "" ==> !IsSpace(r[|r| - 1]))
  {
    if s != "" && IsSpace(s[|s| - 1]) then TrimRight(s[..|s| - 1]) else s
  }

  function Trim(s: string): string {
    TrimRight(TrimLeft(s))
  }

  predicate AllSpace(s: string) {
    forall i :: 0 <= i < |s| ==> IsSpace(s[i])
  }

  /** Trimming takes the spaces off both ends and nothing else. */
  lemma TrimIs(s: string) returns (left: string, right: string)
    ensures s == left + Trim(s) + right && AllSpace(left) && AllSpace(right)
    ensures Trim(s) != "" ==> !IsSpace(Trim(s)[0]) && !IsSpace(Trim(s)[|Trim(s)| - 1])
  {
    var rest := TrimLeft(s);
    left := TrimLeftIs(s);
    right := TrimRightIs(rest);
    if Trim(s) != "" { assert Trim(s)[0] == rest[0]; }
  }

  lemma {:induction false} TrimLeftIs(s: string) returns (left: string)
    ensures s == left + TrimLeft(s) && AllSpace(left)
  {
    left := [];
    if s != "" && IsSpace(s[0]) {
      var more := TrimLeftIs(s[1..]);
      left := [s[0]] + more;
      assert s == [s[0]] + s[1..];
    }
  }

  lemma {:induction false} TrimRightIs(s: string) returns (right: string)
    ensures s == TrimRight(s) + right && AllSpace(right)
  {
    right := [];
    if s != "" && IsSpace(s[|s| - 1]) {
      var more := TrimRightIs(s[..|s| - 1]);
      right := more + [s[|s| - 1]];
      assert s == s[..|s| - 1] + [s[|s| - 1]];
    }
  }

  lemma TrimTwice(s: string)
    ensures Trim(Trim(s)) == Trim(s) && |Trim(s)| <= |s|
  {
    var r := Trim(s);
    if r != "" {
      assert r[0] == TrimLeft(s)[0];
      assert TrimLeft(r) == r && TrimRight(r) == r;
    }
  }

  lemma {:induction false} TrimRightKeepsStart(s: string)
    requires s != "" && !IsSpace(s[0])
    ensures TrimRight(s) != ""
  {
    if IsSpace(s[|s| - 1]) { TrimRightKeepsStart(s[..|s| - 1]); }
  }

  /** Text that begins with a visible character is not blank. */
  lemma VisibleStart(s: string)
    requires s != "" && !IsSpace(s[0])
    ensures Trim(s) != ""
  {
    TrimRightKeepsStart(s);
  }

  // ---- one change of state ----

  predicate Allowed(current: State, next: State) {
    match current
    case Healthy => next != Healthy && next != Unrecognised
    case Reconnecting => next != Reconnecting && next != Unrecognised
    case Recovering => next != Recovering && next != Unrecognised
    case Orphaned => next == Recovering || next == Terminated
    case Failed => next == Recovering || next == Terminated
    case _ => false
  }

  /** A record as `scanSessions` accepts it; an update time that is not positive reads as no time. */
  predicate ValidRecord(state: State, reason: string, updatedAt: int) {
    && state != Unrecognised && |reason| <= MAX_REASON
    && (if state == Healthy then Trim(reason) == "" else Trim(reason) != "" && updatedAt > 0)
  }

  /** Only the healthy state goes without a reason. */
  predicate Explains(next: State, reason: string) {
    |Trim(reason)| <= MAX_REASON && (next == Healthy <==> Trim(reason) == "")
  }

  datatype Answer = Changed | Unchanged | Refused

  function TransitionAnswer(rows: Table, id: string, next: State, reason: string, at: Option<int>): Answer {
    if Trim(id) == "" || next == Unrecognised || at.None? || !Explains(next, reason) then Refused
    else if id !in rows then Unchanged
    else if rows[id].state == Unrecognised then Refused
    else if rows[id].endedAt.Some? || rows[id].state == next then Unchanged
    else if !Allowed(rows[id].state, next) then Refused
    else Changed
  }

  /** Every change of state there is. */
  const CHANGES: set<(State, State)> := {
    (Healthy, Reconnecting), (Healthy, Recovering), (Healthy, Orphaned), (Healthy, Failed), (Healthy, Terminated),
    (Reconnecting, Healthy), (Reconnecting, Recovering), (Reconnecting, Orphaned), (Reconnecting, Failed), (Reconnecting, Terminated),
    (Recovering, Healthy), (Recovering, Reconnecting), (Recovering, Orphaned), (Recovering, Failed), (Recovering, Terminated),
    (Orphaned, Recovering), (Orphaned, Terminated), (Failed, Recovering), (Failed, Terminated)}

  /** A well-formed request on a row that is not ended changes it iff that is one of them; none to the same state, and else an error. */
  lemma ChangesAre(rows: Table, id: string, next: State, reason: string, at: int)
    requires id in rows && rows[id].endedAt.None? && rows[id].state != Unrecognised && next != Unrecognised && Trim(id) != ""
    requires |Trim(reason)| <= 512 && (next == Healthy <==> Trim(reason) == "")
    ensures TransitionAnswer(rows, id, next, reason, Some(at))
            == if (rows[id].state, next) in CHANGES then Changed else if rows[id].state == next then Unchanged else Refused
  {
    hide Trim;
  }

  // ---- the statements ----

  /** `at`: none for a zero `time.Time`. */
  datatype Statement =
    | UpsertStart(id: string, details: Details)
    | Touch(id: string, now: int)
    | Rename(id: string, name: string)
    | MarkEnded(id: string, now: int)
    | Transition(id: string, next: State, reason: string, at: Option<int>)

  function Started(d: Details): Details {
    if d.transport == "" then d.(transport := "pty") else d
  }

  function Ended(row: Row, now: int): Row {
    if row.endedAt.Some? then row
    else row.(endedAt := Some(now), state := Terminated, reason := "session terminated", updatedAt := now)
  }

  function Apply(rows: Table, s: Statement): Table {
    match s
    case UpsertStart(id, details) =>
      var d := Started(details);
      if id !in rows then rows[id := Row(d, d.startedAt, Healthy, "", d.startedAt, None)]
      else if rows[id].endedAt.Some? then rows
      else rows[id := rows[id].(details := d, lastActivity := d.startedAt)]
    case Touch(id, now) => if id in rows then rows[id := rows[id].(lastActivity := now)] else rows
    case Rename(id, name) =>
      if id in rows then rows[id := rows[id].(details := rows[id].details.(name := name))] else rows
    case MarkEnded(id, now) => if id in rows then rows[id := Ended(rows[id], now)] else rows
    case Transition(id, next, reason, at) =>
      if TransitionAnswer(rows, id, next, reason, at) != Changed then rows
      else rows[id := rows[id].(state := next, reason := Trim(reason), updatedAt := at.value)]
  }

  /** Each statement changes only the fields it is about: activity, name, the details of a row not ended, the record. */
  lemma RowAfter(rows: Table, s: Statement, id: string)
    requires id in rows
    ensures id in Apply(rows, s)
    ensures var row, row' := rows[id], Apply(rows, s)[id];
            && (s.id != id ==> row' == row)
            && (s == Touch(id, row'.lastActivity) ==> row' == row.(lastActivity := row'.lastActivity))
            && (s.Touch? && s.id == id ==> row'.lastActivity == s.now)
            && (s.Rename? && s.id == id ==> row' == row.(details := row.details.(name := s.name)))
            && (s.UpsertStart? && s.id == id && row.endedAt.None? ==>
                  && row'.lastActivity == s.details.startedAt && row' == row.(details := row'.details, lastActivity := row'.lastActivity)
                  && row'.details == s.details.(transport := if s.details.transport == "" then "pty" else s.details.transport))
            && (row.endedAt.Some? && !s.Touch? && !s.Rename? ==> row' == row)
            && (s.MarkEnded? && s.id == id && row.endedAt.None? ==>
                  row' == row.(endedAt := Some(s.now), state := Terminated, reason := "session terminated", updatedAt := s.now))
            && (s.Transition? && s.id == id && TransitionAnswer(rows, id, s.next, s.reason, s.at) == Changed ==>
                  s.at.Some? && row' == row.(state := s.next, reason := Trim(s.reason), updatedAt := s.at.value))
            && (s.Transition? && s.id == id && TransitionAnswer(rows, id, s.next, s.reason, s.at) != Changed ==> row' == row)
  {
    if s.Transition? {
      hide Trim;
    } else {
      hide TransitionAnswer;
    }
  }

  /** A session is stored healthy and running, over a pty unless it says otherwise. */
  lemma RowStarted(rows: Table, s: Statement, id: string)
    requires id !in rows && id in Apply(rows, s)
    ensures s.UpsertStart? && s.id == id
    ensures var row := Apply(rows, s)[id];
            && row.state == Healthy && row.reason == "" && row.endedAt.None?
            && row.lastActivity == row.updatedAt == s.details.startedAt
            && row.details == s.details.(transport := if s.details.transport == "" then "pty" else s.details.transport)
  {
    hide Trim;
  }

  function Run(rows: Table, statements: seq<Statement>): Table
    decreases |statements|
  {
    if statements == [] then rows else Run(Apply(rows, statements[0]), statements[1..])
  }

  // ---- records stay readable ----

  predicate RowValid(row: Row) {
    ValidRecord(row.state, row.reason, row.updatedAt) && (row.endedAt.Some? ==> row.state == Terminated)
  }

  ghost predicate Readable(rows: Table) {
    forall id :: id in rows ==> RowValid(rows[id])
  }

  /** The clock reads after 1970. */
  predicate Dated(s: Statement) {
    match s
    case MarkEnded(_, now) => now > 0
    case Transition(_, _, _, at) => at.Some? ==> at.value > 0
    case _ => true
  }

  lemma ChangedRow(rows: Table, id: string, next: State, reason: string, at: Option<int>)
    requires TransitionAnswer(rows, id, next, reason, at) == Changed
    ensures ValidRecord(next, Trim(reason), at.value) <==> next == Healthy || at.value > 0
  {
    TrimTwice(reason);
  }

  lemma EndedIsValid(row: Row, now: int)
    requires RowValid(row)
    ensures RowValid(Ended(row, now)) <==> row.endedAt.Some? || now > 0
  {
    VisibleStart("session terminated");
  }

  /** Apart from clocks before 1970, no statement makes a row unreadable. */
  lemma ApplyKeepsReadable(rows: Table, s: Statement)
    requires Readable(rows) && Dated(s)
    ensures Readable(Apply(rows, s))
  {
    hide ValidRecord, TransitionAnswer;
    match s {
      case UpsertStart(_, _) => HealthyIsValid();
      case MarkEnded(id, now) => if id in rows { EndedIsValid(rows[id], now); }
      case Transition(id, next, reason, at) =>
        if TransitionAnswer(rows, id, next, reason, at) == Changed {
          ChangedNotEnded(rows, id, next, reason, at);
          ChangedRow(rows, id, next, reason, at);
        }
      case _ =>
    }
  }

  lemma HealthyIsValid()
    ensures forall at :: ValidRecord(Healthy, "", at)
  {}

  lemma ChangedNotEnded(rows: Table, id: string, next: State, reason: string, at: Option<int>)
    requires TransitionAnswer(rows, id, next, reason, at) == Changed
    ensures id in rows && rows[id].endedAt.None? && at.Some? && Allowed(rows[id].state, next)
  {}

  lemma {:induction false} RunKeepsReadable(rows: Table, statements: seq<Statement>)
    requires Readable(rows) && forall s :: s in statements ==> Dated(s)
    ensures Readable(Run(rows, statements))
    decreases |statements|
  {
    hide Readable, Apply, Dated;
    if statements != [] {
      ApplyKeepsReadable(rows, statements[0]);
      RunKeepsReadable(Apply(rows, statements[0]), statements[1..]);
    }
  }

  // ---- what no run undoes ----

  /** An ended row keeps all but its name and its last activity. */
  predicate Frozen(row: Row, row': Row) {
    row' == row.(details := row.details.(name := row'.details.name), lastActivity := row'.lastActivity)
  }

  predicate Keeps(row: Row, row': Row) {
    && (row.endedAt.Some? ==> Frozen(row, row'))
    && (row.state == Terminated ==> row'.state == Terminated)
    && (row.state == Unrecognised ==> row'.state == Unrecognised || row'.endedAt.Some?)
  }

  lemma ApplyKeeps(rows: Table, s: Statement, id: string)
    requires id in rows
    ensures id in Apply(rows, s) && Keeps(rows[id], Apply(rows, s)[id])
    ensures rows[id].state == Apply(rows, s)[id].state || Allowed(rows[id].state, Apply(rows, s)[id].state) || s.MarkEnded?
  {
    hide Explains, Trim;
  }

  /** Whatever is run, an ended row keeps its recovery record and a terminated one stays terminated. */
  lemma {:induction false} EndedForGood(rows: Table, statements: seq<Statement>, id: string)
    requires id in rows
    ensures id in Run(rows, statements) && Keeps(rows[id], Run(rows, statements)[id])
    decreases |statements|
  {
    hide Apply;
    if statements != [] {
      ApplyKeeps(rows, statements[0], id);
      EndedForGood(Apply(rows, statements[0]), statements[1..], id);
    }
  }

  predicate Lost(state: State) {
    state == Orphaned || state == Failed
  }

  predicate RecoveringIn(rows: Table, id: string) {
    id in rows && rows[id].state == Recovering
  }

  /** A lost session that is up again was recovering in between. */
  lemma {:induction false} BackOnlyThroughRecovering(rows: Table, statements: seq<Statement>, id: string)
    requires id in rows && Lost(rows[id].state) && id in Run(rows, statements)
    requires Run(rows, statements)[id].state == Healthy || Run(rows, statements)[id].state == Reconnecting
    ensures exists k :: 0 <= k <= |statements| && RecoveringIn(Run(rows, statements[..k]), id)
    decreases |statements|
  {
    hide Apply;
    if statements != [] {
      var first := Apply(rows, statements[0]);
      ApplyKeeps(rows, statements[0], id);
      MarkEndedTerminates(rows, statements[0], id);
      var k := 1;
      if first[id].state == Recovering {
        assert statements[..1][1..] == [] && statements[..1][0] == statements[0];
        assert Run(first, []) == first;
      } else {
        EndedForGood(first, statements[1..], id);
        BackOnlyThroughRecovering(first, statements[1..], id);
        var j :| 0 <= j <= |statements[1..]| && RecoveringIn(Run(first, statements[1..][..j]), id);
        k := j + 1;
        assert statements[..k][1..] == statements[1..][..j] && statements[..k][0] == statements[0];
      }
      assert RecoveringIn(Run(rows, statements[..k]), id);
    }
  }

  lemma MarkEndedTerminates(rows: Table, s: Statement, id: string)
    requires id in rows
    ensures s.MarkEnded? && rows[id].endedAt.None? && s.id == id ==> Apply(rows, s)[id].state == Terminated
    ensures s.MarkEnded? && (rows[id].endedAt.Some? || s.id != id) ==> Apply(rows, s)[id].state == rows[id].state
  {}

  // ---- the table ----

  class Store {
    var rows: Table

    constructor ()
      ensures rows == map[]
    {
      rows := map[];
    }

    method SessionUpsertStart(id: string, details: Details)
      modifies this
      ensures rows == Apply(old(rows), UpsertStart(id, details))
    {
      var d := details;
      if d.transport == "" {
        d := d.(transport := "pty");
      }
      if id !in rows {
        rows := rows[id := Row(d, d.startedAt, Healthy, "", d.startedAt, None)];
      } else if rows[id].endedAt.None? {
        rows := rows[id := rows[id].(details := d, lastActivity := d.startedAt)];
      }
    }

    method SessionMarkEnded(id: string, now: int)
      modifies this
      ensures rows == Apply(old(rows), MarkEnded(id, now))
    {
      if id in rows {
        var row := rows[id];
        var first := row.endedAt.None?;
        rows := rows[id := Row(row.details, row.lastActivity,
                               if first then Terminated else row.state,
                               if first then "session terminated" else row.reason,
                               if first then now else row.updatedAt,
                               if first then Some(now) else row.endedAt)];
      }
    }

    method SessionTransitionRecovery(id: string, next: State, reason: string, at: Option<int>) returns (a: Answer)
      modifies this
      ensures a == TransitionAnswer(old(rows), id, next, reason, at)
      ensures rows == Apply(old(rows), Transition(id, next, reason, at))
    {
      if Trim(id) == "" || next == Unrecognised || at.None? {
        return Refused;
      }
      var text := Trim(reason);
      if |text| > MAX_REASON || (next != Healthy && text == "") || (next == Healthy && text != "") {
        return Refused;
      }
      if id !in rows {
        return Unchanged;
      }
      var row := rows[id];
      if row.state == Unrecognised {
        return Refused;
      }
      if row.endedAt.Some? || row.state == next {
        return Unchanged;
      }
      if !Allowed(row.state, next) {
        return Refused;
      }
      rows := rows[id := row.(state := next, reason := text, updatedAt := at.value)];
      a := Changed;
    }
  }
}
