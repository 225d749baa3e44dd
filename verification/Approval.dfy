/**
 The approval queue as a protocol. A row is one record of the table; each SQL statement and
 each section under the lock is one action, and any number of callers take theirs in any order.
 */
module Approval {
  import opened Bytes

  datatype State = Pending | Approved | Denied | Edited | Expired | Cancelled

  datatype Verdict = Approve | Deny | Edit | Expire | Cancel | Unknown

  predicate Terminal(s: State) {
    s != Pending
  }

  function StateForVerdict(v: Verdict): Option<State> {
    match v
    case Approve => Some(Approved)
    case Deny => Some(Denied)
    case Edit => Some(Edited)
    case Expire => Some(Expired)
    case Cancel => Some(Cancelled)
    case Unknown => None
  }

  predicate UserVerdict(v: Verdict) {
    v == Approve || v == Deny || v == Edit
  }

  /** Nanoseconds since 1970, the first second past. */
  type Time = t: int | t >= SECOND witness SECOND

  const SECOND: int := 1_000_000_000

  /** What a zero `time.Time` is in Unix seconds. */
  const NO_TIME: int := -62135596800

  function Unix(t: Time): (s: int)
    ensures s > 0 && s * SECOND <= t < (s + 1) * SECOND
  {
    t / SECOND
  }

  datatype Row = Row(state: State, edited: string, reason: string, decidedAt: int, decidedBy: int, expiresAt: int)

  datatype Decision = Decision(verdict: Verdict, updated: Option<string>, reason: string, decidedBy: int, decidedAt: int)

  /** `decisionFromApproval` of the row as `Get` reads it. */
  function DecisionFromRow(r: Row): Option<Decision> {
    var at := if r.decidedAt > 0 then r.decidedAt else NO_TIME;
    match r.state
    case Pending => None
    case Approved => Some(Decision(Approve, None, r.reason, r.decidedBy, at))
    case Denied => Some(Decision(Deny, None, r.reason, r.decidedBy, at))
    case Edited => Some(Decision(Edit, if r.edited == "" then None else Some(r.edited), r.reason, r.decidedBy, at))
    case Expired => Some(Decision(Expire, None, r.reason, r.decidedBy, at))
    case Cancelled => Some(Decision(Cancel, None, r.reason, r.decidedBy, at))
  }

  /** A decision call's arguments; `isObject`: the edited input parses as a JSON object. */
  datatype Call = Call(id: string, verdict: Verdict, edited: string, isObject: bool, reason: string, actor: int, idempotent: bool)

  datatype Result =
    | Decided(decision: Decision, delivered: bool)
    | Replayed(decision: Decision)
    | AlreadyDecided
    | TooLate(decision: Decision, delivered: bool)       // moved to expired instead
    | UnknownApproval
    | Invalid

  /** What a caller does next. */
  datatype Task =
    | Register(id: string)
    | Update(call: Call, verdict: Verdict, edited: string, reason: string, actor: int, now: Time)
    | Deliver(call: Call, decision: Decision)
    | Send(caller: Option<Call>, ch: nat, decision: Decision)      // no call: an invalidation
    | CloseCh(caller: Option<Call>, ch: nat, decision: Decision)
    | Reread(call: Call)
    | Finished(caller: Option<Call>, result: Result)

  /** A waiter's channel: what was sent on it and how often it was closed. */
  datatype Waiter = Waiter(id: string, sent: seq<Decision>, closes: nat, forced: bool)

  /** `winner`: the caller whose update moved the row out of pending. */
  datatype World = World(rows: map<string, Row>, waiters: map<string, nat>, chans: seq<Waiter>,
                         tasks: map<nat, Task>, winner: map<string, nat>)

  datatype Action =
    | Insert(t: nat, id: string, now: Time, ttl: nat)
    | Start(t: nat, call: Call, now: Time)
    | Go(t: nat)
    | DropWaiter(id: string)
    | Invalidate(t: nat, id: string, reason: string, now: Time)

  const EXPIRED_REASON: string := "approval expired (5 min TTL)"

  function Empty(): World {
    World(map[], map[], [], map[], map[])
  }

  function Put(w: World, t: nat, task: Task): World {
    w.(tasks := w.tasks[t := task])
  }

  /** `ErrAlreadyDecided`: an idempotent caller looks again. */
  function Already(call: Call): Task {
    if call.idempotent then Reread(call) else Finished(Some(call), AlreadyDecided)
  }

  /** The checks and the read of `DecideWithResult`. */
  function Begin(w: World, call: Call, now: Time): Task {
    if StateForVerdict(call.verdict).None? || (call.verdict == Edit && !call.isObject) then Finished(Some(call), Invalid)
    else if call.id !in w.rows then Finished(Some(call), UnknownApproval)
    else
      var row := w.rows[call.id];
      if row.state != Pending then Already(call)
      else if UserVerdict(call.verdict) && row.expiresAt * SECOND <= now then
        Update(call, Expire, "", EXPIRED_REASON, 0, now)
      else Update(call, call.verdict, call.edited, call.reason, call.actor, now)
  }

  function Final(call: Call, verdict: Verdict, d: Decision, delivered: bool): Result {
    if UserVerdict(call.verdict) && verdict == Expire then TooLate(d, delivered) else Decided(d, delivered)
  }

  function Advance(w: World, t: nat): World
    requires t in w.tasks
  {
    match w.tasks[t]
    case Register(id) =>
      Put(w, t, Finished(None, Invalid)).(waiters := w.waiters[id := |w.chans|],
                                          chans := w.chans + [Waiter(id, [], 0, false)])
    case Update(call, verdict, edited, reason, actor, now) =>
      if call.id !in w.rows || StateForVerdict(verdict).None? || w.rows[call.id].state != Pending then
        Put(w, t, Already(call))
      else
        var row := Row(StateForVerdict(verdict).value, edited, reason, Unix(now), actor, w.rows[call.id].expiresAt);
        var d := Decision(verdict, if verdict == Edit && edited != "" then Some(edited) else None, reason, actor, Unix(now));
        Put(w, t, Deliver(call, d)).(rows := w.rows[call.id := row], winner := w.winner[call.id := t])
    case Deliver(call, d) =>
      if call.id in w.waiters then
        Put(w, t, Send(Some(call), w.waiters[call.id], d)).(waiters := w.waiters - {call.id})
      else Put(w, t, Finished(Some(call), Final(call, d.verdict, d, false)))
    case Send(call, ch, d) =>
      if ch >= |w.chans| then w
      else Put(w, t, CloseCh(call, ch, d)).(
             chans := w.chans[ch := w.chans[ch].(sent := w.chans[ch].sent + [d], forced := w.chans[ch].forced || call.None?)])
    case CloseCh(call, ch, d) =>
      if ch >= |w.chans| then w
      else
        var result := if call.Some? then Final(call.value, d.verdict, d, true) else Invalid;
        Put(w, t, Finished(call, result)).(chans := w.chans[ch := w.chans[ch].(closes := w.chans[ch].closes + 1)])
    case Reread(call) =>
      if call.id !in w.rows then Put(w, t, Finished(Some(call), UnknownApproval))
      else
        var row := w.rows[call.id];
        var d := DecisionFromRow(row);
        if Some(row.state) != StateForVerdict(call.verdict) || (call.verdict == Edit && row.edited != call.edited) || d.None? then
          Put(w, t, Finished(Some(call), AlreadyDecided))
        else Put(w, t, Finished(Some(call), Replayed(d.value)))
    case Finished(_, _) => w
  }

  function Next(w: World, a: Action): World {
    match a
    case Insert(t, id, now, ttl) =>
      if t in w.tasks || id in w.rows then w
      else Put(w, t, Register(id)).(rows := w.rows[id := Row(Pending, "", "", 0, 0, (now + ttl) / SECOND)])
    case Start(t, call, now) =>
      if t in w.tasks then w else Put(w, t, Begin(w, call, now))
    case Go(t) =>
      if t in w.tasks then Advance(w, t) else w
    case DropWaiter(id) =>
      w.(waiters := w.waiters - {id})
    case Invalidate(t, id, reason, now) =>
      if t in w.tasks || id !in w.waiters then w
      else
        Put(w, t, Send(None, w.waiters[id], Decision(Cancel, None, reason, 0, Unix(now)))).(waiters := w.waiters - {id})
  }

  function Run(w: World, actions: seq<Action>): World
    decreases |actions|
  {
    if actions == [] then w else Run(Next(w, actions[0]), actions[1..])
  }

  // ---- the invariant ----

  /** An undecided row has no winner; a user's verdict came before the deadline. */
  predicate RowOk(w: World, id: string)
    requires id in w.rows
  {
    var row := w.rows[id];
    && (row.state == Pending <==> id !in w.winner)
    && (Terminal(row.state) ==> row.decidedAt > 0)
    && (row.state == Approved || row.state == Denied || row.state == Edited ==> row.decidedAt < row.expiresAt)
  }

  predicate Stored(w: World, id: string, d: Decision) {
    id in w.rows && DecisionFromRow(w.rows[id]) == Some(d)
  }

  /** One decision at most, closed at most once and only after it, and it is the stored one. */
  predicate ChanOk(w: World, c: Waiter) {
    && |c.sent| <= 1 && c.closes <= |c.sent|
    && (c.sent != [] && !c.forced ==> Stored(w, c.id, c.sent[0]))
  }

  /** A channel nobody has been given. */
  predicate Untouched(w: World, ch: nat) {
    ch < |w.chans| && w.chans[ch].sent == [] && w.chans[ch].closes == 0 && !w.chans[ch].forced
  }

  /** What a call may come to: its own verdict, or expiry because the deadline had passed. */
  predicate Answers(call: Call, d: Decision, row: Row) {
    if d.verdict == call.verdict then d.reason == call.reason && d.decidedBy == call.actor
    else UserVerdict(call.verdict) && d.verdict == Expire && row.expiresAt <= d.decidedAt
  }

  /** Caller `t` decided, and what it delivers is what is stored. */
  predicate Won(w: World, t: nat, call: Call, d: Decision) {
    && call.id in w.winner && w.winner[call.id] == t
    && Stored(w, call.id, d) && Answers(call, d, w.rows[call.id])
  }

  /** A replay of `call` may return this row. */
  predicate Matches(row: Row, call: Call) {
    Some(row.state) == StateForVerdict(call.verdict) && (call.verdict == Edit ==> row.edited == call.edited)
  }

  predicate UpdateOk(w: World, call: Call, verdict: Verdict, reason: string, actor: int, now: Time) {
    && call.id in w.rows && StateForVerdict(verdict).Some?
    && var deadline := w.rows[call.id].expiresAt * SECOND;
       && (UserVerdict(verdict) ==> now < deadline)
       && if verdict == call.verdict then reason == call.reason && actor == call.actor
          else UserVerdict(call.verdict) && verdict == Expire && deadline <= now
  }

  predicate ResultOk(w: World, t: nat, call: Call, result: Result) {
    match result
    case Decided(d, _) => Won(w, t, call, d) && d.verdict == call.verdict
    case TooLate(d, _) => Won(w, t, call, d) && d.verdict == Expire != call.verdict
    case Replayed(d) => Stored(w, call.id, d) && Matches(w.rows[call.id], call)
    case AlreadyDecided =>
      && call.id in w.rows && Terminal(w.rows[call.id].state)
      && (call.idempotent ==> !Matches(w.rows[call.id], call))
    case _ => true
  }

  predicate TaskOk(w: World, t: nat, task: Task) {
    match task
    case Register(id) => id in w.rows && id !in w.waiters
    case Update(call, verdict, _, reason, actor, now) => UpdateOk(w, call, verdict, reason, actor, now)
    case Deliver(call, d) => Won(w, t, call, d)
    case Send(call, ch, d) =>
      Untouched(w, ch) && (call.Some? ==> Won(w, t, call.value, d) && w.chans[ch].id == call.value.id)
    case CloseCh(call, ch, d) =>
      && ch < |w.chans| && w.chans[ch].sent == [d] && w.chans[ch].closes == 0
      && (call.Some? ==> Won(w, t, call.value, d))
    case Reread(call) => call.id in w.rows && Terminal(w.rows[call.id].state) && call.idempotent
    case Finished(call, result) => call.Some? ==> ResultOk(w, t, call.value, result)
  }

  /** The channel a task is busy with. */
  function Busy(task: Task): Option<nat> {
    match task
    case Send(_, ch, _) => Some(ch)
    case CloseCh(_, ch, _) => Some(ch)
    case _ => None
  }

  predicate WaiterOk(w: World, id: string)
    requires id in w.waiters
  {
    Untouched(w, w.waiters[id]) && w.chans[w.waiters[id]].id == id && id in w.rows
  }

  ghost predicate RowsOk(w: World) {
    && (forall id :: id in w.rows ==> RowOk(w, id))
    && (forall id :: id in w.winner ==> id in w.rows)
  }

  /** Two tasks never share a channel, nor does a task share one with a waiter; an id registers once. */
  ghost predicate Apart(w: World) {
    && (forall t, u :: t in w.tasks && u in w.tasks && t != u && Busy(w.tasks[t]).Some? ==> Busy(w.tasks[t]) != Busy(w.tasks[u]))
    && (forall t, id :: t in w.tasks && id in w.waiters ==> Busy(w.tasks[t]) != Some(w.waiters[id]))
    && (forall t, u :: t in w.tasks && u in w.tasks && w.tasks[t].Register? && w.tasks[u].Register? && t != u ==> w.tasks[t].id != w.tasks[u].id)
  }

  ghost predicate Inv(w: World) {
    && RowsOk(w)
    && (forall ch :: 0 <= ch < |w.chans| ==> ChanOk(w, w.chans[ch]))
    && (forall t :: t in w.tasks ==> TaskOk(w, t, w.tasks[t]))
    && (forall id :: id in w.waiters ==> WaiterOk(w, id))
    && Apart(w)
  }

  // ---- what no action undoes ----

  /** Decided rows are as they were, deadlines and winners too. */
  ghost predicate Extends(w: World, w': World) {
    && (forall id :: id in w.rows ==>
          && id in w'.rows && w'.rows[id].expiresAt == w.rows[id].expiresAt
          && (Terminal(w.rows[id].state) ==> w'.rows[id] == w.rows[id]))
    && (forall id :: id in w.winner ==> id in w'.winner && w'.winner[id] == w.winner[id])
  }

  lemma TaskStays(w: World, w': World, t: nat, task: Task)
    requires Extends(w, w') && TaskOk(w, t, task)
    requires Busy(task).Some? ==> Busy(task).value < |w.chans| && Busy(task).value < |w'.chans|
                                  && w'.chans[Busy(task).value] == w.chans[Busy(task).value]
    requires task.Register? ==> task.id !in w'.waiters
    ensures TaskOk(w', t, task)
  {}

  lemma ChanStays(w: World, w': World, c: Waiter)
    requires Extends(w, w') && ChanOk(w, c)
    ensures ChanOk(w', c)
  {}

  // ---- every action keeps the invariant ----

  /** Only task `t` moved, only the channel it was busy with changed, only its registration added a waiter. */
  ghost predicate MovesOnly(w: World, w': World, t: nat) {
    && Extends(w, w')
    && |w'.chans| >= |w.chans|
    && (forall ch :: 0 <= ch < |w.chans| ==>
          w'.chans[ch] == w.chans[ch] || (t in w.tasks && Busy(w.tasks[t]) == Some(ch)))
    && (forall u :: u in w'.tasks && u != t ==> u in w.tasks && w'.tasks[u] == w.tasks[u])
    && (forall id :: id in w'.waiters ==>
          || (id in w.waiters && w'.waiters[id] == w.waiters[id])
          || (t in w.tasks && w.tasks[t] == Register(id) && w'.waiters[id] == |w.chans|))
  }

  lemma BusyInRange(w: World, u: nat)
    requires Inv(w) && u in w.tasks
    ensures Busy(w.tasks[u]).Some? ==> Busy(w.tasks[u]).value < |w.chans|
    ensures w.tasks[u].Register? ==> w.tasks[u].id in w.rows && w.tasks[u].id !in w.waiters
  {
    assert TaskOk(w, u, w.tasks[u]);
  }

  lemma OtherTasksStay(w: World, w': World, t: nat)
    requires Inv(w) && MovesOnly(w, w', t)
    ensures forall u :: u in w'.tasks && u != t ==> TaskOk(w', u, w'.tasks[u])
  {
    hide RowOk, ChanOk, TaskOk, Untouched, Extends;
    forall u | u in w'.tasks && u != t ensures TaskOk(w', u, w'.tasks[u]) {
      BusyInRange(w, u);
      TaskStays(w, w', u, w.tasks[u]);
    }
  }

  lemma OtherChansStay(w: World, w': World, t: nat)
    requires Inv(w) && MovesOnly(w, w', t)
    ensures forall ch :: 0 <= ch < |w.chans| && w'.chans[ch] == w.chans[ch] ==> ChanOk(w', w'.chans[ch])
  {
    hide RowOk, ChanOk, TaskOk, Untouched, Extends;
    forall ch | 0 <= ch < |w.chans| && w'.chans[ch] == w.chans[ch] ensures ChanOk(w', w'.chans[ch]) {
      ChanStays(w, w', w.chans[ch]);
    }
  }

  lemma OtherWaitersStay(w: World, w': World, t: nat)
    requires Inv(w) && MovesOnly(w, w', t)
    ensures forall id :: id in w'.waiters && id in w.waiters && w'.waiters[id] == w.waiters[id] ==> WaiterOk(w', id)
  {
    hide RowOk, ChanOk, TaskOk;
    forall id | id in w'.waiters && id in w.waiters && w'.waiters[id] == w.waiters[id] ensures WaiterOk(w', id) {
      assert WaiterOk(w, id);
    }
  }

  /** With the rest in place, what is left to check is the moved task, its row and its channel. */
  lemma Assemble(w: World, w': World, t: nat)
    requires Inv(w) && MovesOnly(w, w', t)
    requires RowsOk(w')
    requires t in w'.tasks ==> TaskOk(w', t, w'.tasks[t])
    requires forall ch :: 0 <= ch < |w'.chans| && (ch >= |w.chans| || w'.chans[ch] != w.chans[ch]) ==> ChanOk(w', w'.chans[ch])
    requires forall id :: id in w'.waiters && (id !in w.waiters || w'.waiters[id] != w.waiters[id]) ==> WaiterOk(w', id)
    requires Apart(w')
    ensures Inv(w')
  {
    hide RowOk, ChanOk, TaskOk, WaiterOk, Extends, Apart, RowsOk;
    OtherTasksStay(w, w', t);
    OtherChansStay(w, w', t);
    OtherWaitersStay(w, w', t);
    hide MovesOnly;
  }

  /** Nothing but `t` moved: the table is the same. */
  lemma SameTable(w: World, w': World)
    requires RowsOk(w) && w'.rows == w.rows && w'.winner == w.winner
    ensures RowsOk(w') && Extends(w, w')
  {
    forall id | id in w.rows ensures RowOk(w', id) { assert RowOk(w, id); }
  }

  /** The moved task shares nothing with the others. */
  lemma StaysApart(w: World, w': World, t: nat)
    requires Apart(w) && t in w'.tasks
    requires forall u :: u in w'.tasks && u != t ==> u in w.tasks && w'.tasks[u] == w.tasks[u]
    requires forall u :: u in w.tasks && u != t && Busy(w'.tasks[t]).Some? ==> Busy(w.tasks[u]) != Busy(w'.tasks[t])
    requires forall u :: u in w.tasks && u != t && w'.tasks[t].Register? && w.tasks[u].Register? ==> w.tasks[u].id != w'.tasks[t].id
    requires forall id :: id in w'.waiters ==>
               && Some(w'.waiters[id]) != Busy(w'.tasks[t])
               && ((id in w.waiters && w'.waiters[id] == w.waiters[id])
                   || forall u :: u in w.tasks ==> Busy(w.tasks[u]) != Some(w'.waiters[id]))
    ensures Apart(w')
  {}

  /** An action of task `t` that touches neither table nor channels, but may take a waiter. */
  lemma OnlyTask(w: World, w': World, t: nat, task: Task)
    requires Inv(w) && w' == w.(tasks := w.tasks[t := task], waiters := w'.waiters)
    requires forall id :: id in w'.waiters ==> id in w.waiters && w'.waiters[id] == w.waiters[id]
    requires TaskOk(w', t, task) && !task.Register?
    requires Busy(task).Some? ==>
               && (forall u :: u in w.tasks && u != t ==> Busy(w.tasks[u]) != Busy(task))
               && (forall id :: id in w'.waiters ==> Some(w'.waiters[id]) != Busy(task))
    ensures Inv(w')
  {
    SameTable(w, w');
    StaysApart(w, w', t);
    hide RowsOk, ChanOk, TaskOk, WaiterOk, Extends, Apart;
    Assemble(w, w', t);
  }

  /** An action of task `t` that moves a row out of pending. */
  lemma DecidesRow(w: World, w': World, t: nat, task: Task, id: string, row: Row)
    requires Inv(w) && id in w.rows && w.rows[id].state == Pending
    requires w' == w.(tasks := w.tasks[t := task], rows := w.rows[id := row], winner := w.winner[id := t])
    requires row.expiresAt == w.rows[id].expiresAt && Terminal(row.state) && RowOk(w', id)
    requires TaskOk(w', t, task) && Busy(task).None? && !task.Register?
    ensures Inv(w')
  {
    NotWon(w, id);
    hide ChanOk, TaskOk, WaiterOk, Extends, RowOk, RowsOk;
    NewRow(w, w', id);
    StaysApart(w, w', t);
    hide Apart;
    Assemble(w, w', t);
  }

  lemma NotWon(w: World, id: string)
    requires RowsOk(w) && id in w.rows && w.rows[id].state == Pending
    ensures id !in w.winner
  {
    assert RowOk(w, id);
  }

  lemma NewRow(w: World, w': World, id: string)
    requires RowsOk(w) && RowOkIn(w', id)
    requires forall i :: i in w'.rows && i != id ==> i in w.rows && w'.rows[i] == w.rows[i]
    requires w.rows.Keys <= w'.rows.Keys
    requires forall i :: i in w.winner ==> i in w'.winner && w'.winner[i] == w.winner[i]
    requires forall i :: i in w'.winner ==> i in w.winner || i == id
    requires id in w.rows ==> w.rows[id].state == Pending && w'.rows[id].expiresAt == w.rows[id].expiresAt
    ensures RowsOk(w') && Extends(w, w')
  {
    assert id in w.rows ==> RowOk(w, id);
    forall i | i in w'.rows ensures RowOk(w', i) { assert i != id ==> RowOk(w, i); }
  }

  predicate RowOkIn(w: World, id: string) {
    id in w.rows && RowOk(w, id)
  }

  /** An action of task `t` on the channel it is busy with. */
  lemma ChangesChan(w: World, w': World, t: nat, task: Task, ch: nat, c: Waiter)
    requires Inv(w) && t in w.tasks && Busy(w.tasks[t]) == Some(ch) && ch < |w.chans|
    requires w' == w.(tasks := w.tasks[t := task], chans := w.chans[ch := c])
    requires TaskOk(w', t, task) && (Busy(task).None? || Busy(task) == Some(ch)) && !task.Register?
    requires ChanOk(w', c)
    ensures Inv(w')
  {
    SameTable(w, w');
    StaysApart(w, w', t);
    hide RowsOk, ChanOk, TaskOk, WaiterOk, Extends, Apart;
    Assemble(w, w', t);
  }

  /** A new row, and its caller about to register. */
  lemma InsertsRow(w: World, t: nat, id: string, row: Row)
    requires Inv(w) && t !in w.tasks && id !in w.rows && row.state == Pending
    ensures Inv(Put(w, t, Register(id)).(rows := w.rows[id := row]))
  {
    var w' := Put(w, t, Register(id)).(rows := w.rows[id := row]);
    OldIds(w);
    NewPending(w, w', id);
    hide RowsOk, ChanOk, WaiterOk, Extends, RowOk;
    StaysApart(w, w', t);
    hide Apart;
    Assemble(w, w', t);
  }

  lemma NewPending(w: World, w': World, id: string)
    requires RowsOk(w) && id !in w.rows && w'.winner == w.winner
    requires exists row: Row :: w'.rows == w.rows[id := row] && row.state == Pending
    ensures RowsOk(w') && Extends(w, w')
  {
    assert id !in w.winner;
    NewRow(w, w', id);
  }

  /** No waiter and no registration is for an id that is not in the table. */
  lemma OldIds(w: World)
    requires Inv(w)
    ensures forall id :: id in w.waiters ==> id in w.rows
    ensures forall u :: u in w.tasks && w.tasks[u].Register? ==> w.tasks[u].id in w.rows
  {
    forall u | u in w.tasks && w.tasks[u].Register? ensures w.tasks[u].id in w.rows { BusyInRange(w, u); }
    forall id | id in w.waiters ensures id in w.rows { assert WaiterOk(w, id); }
  }

  lemma NobodyBusyBeyond(w: World)
    requires Inv(w)
    ensures forall u :: u in w.tasks ==> Busy(w.tasks[u]) != Some(|w.chans|)
  {
    hide Inv, Busy;
    forall u | u in w.tasks ensures Busy(w.tasks[u]) != Some(|w.chans|) { BusyInRange(w, u); }
  }

  /** The waiter of a new row. */
  lemma RegistersWaiter(w: World, t: nat)
    requires Inv(w) && t in w.tasks && w.tasks[t].Register?
    ensures Inv(Advance(w, t))
  {
    var w' := Advance(w, t);
    BusyInRange(w, t);
    NobodyBusyBeyond(w);
    SameTable(w, w');
    hide RowsOk, Extends;
    assert Apart(w') by { StaysApart(w, w', t); }
    hide Apart;
    Assemble(w, w', t);
  }

  /** The start of a decision call. */
  lemma BeginOk(w: World, t: nat, call: Call, now: Time)
    requires RowsOk(w)
    ensures TaskOk(w, t, Begin(w, call, now))
  {
    if call.id in w.rows { assert RowOk(w, call.id); }
  }

  lemma AlreadyOk(w: World, t: nat, call: Call)
    requires call.id in w.rows && Terminal(w.rows[call.id].state)
    ensures TaskOk(w, t, Already(call)) && Busy(Already(call)).None? && !Already(call).Register?
  {}

  lemma UpdateKeepsInv(w: World, t: nat)
    requires Inv(w) && t in w.tasks && w.tasks[t].Update?
    ensures Inv(Advance(w, t))
  {
    var task, w' := w.tasks[t], Advance(w, t);
    var call := task.call;
    assert TaskOk(w, t, task);
    if w.rows[call.id].state != Pending {
      AlreadyOk(w, t, call);
      OnlyTaskKeeps(w, t, Already(call));
    } else {
      UpdateWins(w, w', t, task);
      DecidesRow(w, w', t, w'.tasks[t], call.id, w'.rows[call.id]);
    }
  }

  /** The update that finds the row pending stores exactly what it is about to deliver. */
  lemma UpdateWins(w: World, w': World, t: nat, task: Task)
    requires task.Update? && UpdateOk(w, task.call, task.verdict, task.reason, task.actor, task.now)
    requires w.rows[task.call.id].state == Pending && t in w.tasks && w.tasks[t] == task && w' == Advance(w, t)
    ensures TaskOk(w', t, w'.tasks[t]) && w'.tasks[t].Deliver? && RowOk(w', task.call.id)
  {}

  /** A move of one task with everything else as it was. */
  lemma OnlyTaskKeeps(w: World, t: nat, task: Task)
    requires Inv(w) && TaskOk(w, t, task) && Busy(task).None? && !task.Register?
    ensures Inv(Put(w, t, task))
  {
    var w' := Put(w, t, task);
    assert Extends(w, w');
    TaskStays(w, w', t, task);
    hide TaskOk, RowsOk, ChanOk, WaiterOk, Extends, Apart;
    OnlyTask(w, w', t, task);
  }

  lemma DeliverKeepsInv(w: World, t: nat)
    requires Inv(w) && t in w.tasks && w.tasks[t].Deliver?
    ensures Inv(Advance(w, t))
  {
    var task, w' := w.tasks[t], Advance(w, t);
    var id := task.call.id;
    assert TaskOk(w, t, task);
    if id in w.waiters {
      TakesWaiter(w, w', t, Some(task.call), task.decision, id);
    } else {
      OnlyTaskKeeps(w, t, w'.tasks[t]);
    }
  }

  lemma TakesWaiter(w: World, w': World, t: nat, caller: Option<Call>, d: Decision, id: string)
    requires Inv(w) && id in w.waiters && (caller.Some? ==> caller.value.id == id && Won(w, t, caller.value, d))
    requires w' == Put(w, t, Send(caller, w.waiters[id], d)).(waiters := w.waiters - {id})
    ensures Inv(w')
  {
    assert WaiterOk(w, id);
    var task := Send(caller, w.waiters[id], d);
    assert Extends(w, w') && TaskOk(w, t, task);
    TaskStays(w, w', t, task);
    WaitersDistinct(w);
    hide TaskOk, RowsOk, ChanOk, WaiterOk, Extends;
    assert forall u :: u in w.tasks ==> Busy(w.tasks[u]) != Some(w.waiters[id]);
    hide Apart;
    OnlyTask(w, w', t, task);
  }

  lemma WaitersDistinct(w: World)
    requires Inv(w)
    ensures forall i, j :: i in w.waiters && j in w.waiters && i != j ==> w.waiters[i] != w.waiters[j]
  {
    forall i, j | i in w.waiters && j in w.waiters && i != j ensures w.waiters[i] != w.waiters[j] {
      assert WaiterOk(w, i) && WaiterOk(w, j);
    }
  }

  lemma SendKeepsInv(w: World, t: nat)
    requires Inv(w) && t in w.tasks && (w.tasks[t].Send? || w.tasks[t].CloseCh?)
    ensures Inv(Advance(w, t))
  {
    var task, w' := w.tasks[t], Advance(w, t);
    BusyInRange(w, t);
    assert TaskOk(w, t, task);
    var c := w.chans[task.ch];
    assert ChanOk(w, c);
    assert task.Send? ==> [] + [task.decision] == [task.decision];
    assert Extends(w, w');
    ChanStays(w, w', c);
    SentOk(w, w', t);
    hide TaskOk, RowsOk, ChanOk, WaiterOk, Extends, Apart;
    ChangesChan(w, w', t, w'.tasks[t], task.ch, w'.chans[task.ch]);
  }

  lemma SentOk(w: World, w': World, t: nat)
    requires t in w.tasks && (w.tasks[t].Send? || w.tasks[t].CloseCh?) && w' == Advance(w, t)
    requires TaskOk(w, t, w.tasks[t]) && ChanOk(w, w.chans[w.tasks[t].ch])
    ensures var ch := w.tasks[t].ch;
            TaskOk(w', t, w'.tasks[t]) && ChanOk(w', w'.chans[ch])
  {
    assert w.tasks[t].Send? ==> [] + [w.tasks[t].decision] == [w.tasks[t].decision];
  }

  lemma RereadKeepsInv(w: World, t: nat)
    requires Inv(w) && t in w.tasks && w.tasks[t].Reread?
    ensures Inv(Advance(w, t))
  {
    var task, w' := w.tasks[t], Advance(w, t);
    assert TaskOk(w, t, task);
    OnlyTaskKeeps(w, t, w'.tasks[t]);
  }

  lemma NextKeepsInv(w: World, a: Action)
    requires Inv(w)
    ensures Inv(Next(w, a))
  {
    hide Inv, Advance, Begin;
    match a {
      case Insert(t, id, now, ttl) =>
        if t !in w.tasks && id !in w.rows { InsertsRow(w, t, id, Row(Pending, "", "", 0, 0, (now + ttl) / SECOND)); }
      case Start(t, call, now) =>
        if t !in w.tasks {
          assert RowsOk(w) by { InvRows(w); }
          BeginOk(w, t, call, now);
          BeginIdle(w, call, now);
          OnlyTaskKeeps(w, t, Begin(w, call, now));
        }
      case Go(t) =>
        if t in w.tasks {
          match w.tasks[t] {
            case Register(_) => RegistersWaiter(w, t);
            case Update(_, _, _, _, _, _) => UpdateKeepsInv(w, t);
            case Deliver(_, _) => DeliverKeepsInv(w, t);
            case Send(_, _, _) => SendKeepsInv(w, t);
            case CloseCh(_, _, _) => SendKeepsInv(w, t);
            case Reread(_) => RereadKeepsInv(w, t);
            case Finished(_, _) => FinishedStays(w, t);
          }
        }
      case DropWaiter(id) => DropKeepsInv(w, id);
      case Invalidate(t, id, reason, now) =>
        if t !in w.tasks && id in w.waiters {
          TakesWaiter(w, Next(w, a), t, None, Decision(Cancel, None, reason, 0, Unix(now)), id);
        }
    }
  }

  lemma InvRows(w: World)
    requires Inv(w)
    ensures RowsOk(w)
  {}

  lemma BeginIdle(w: World, call: Call, now: Time)
    ensures Busy(Begin(w, call, now)).None? && !Begin(w, call, now).Register?
  {}

  lemma FinishedStays(w: World, t: nat)
    requires t in w.tasks && w.tasks[t].Finished?
    ensures Advance(w, t) == w
  {}

  lemma DropKeepsInv(w: World, id: string)
    requires Inv(w)
    ensures Inv(w.(waiters := w.waiters - {id}))
  {
    var w' := w.(waiters := w.waiters - {id});
    SameTable(w, w');
    var t :| t !in w.tasks by { NewTask(w); }
    hide RowsOk, ChanOk, TaskOk, WaiterOk, Extends;
    assert Apart(w');
    hide Apart;
    Assemble(w, w', t);
  }

  lemma NewTask(w: World)
    ensures exists t: nat :: t !in w.tasks
  {
    var t := Bound(w.tasks.Keys);
    assert t !in w.tasks;
  }

  lemma Bound(s: set<nat>) returns (n: nat)
    ensures forall t :: t in s ==> t < n
  {
    if s == {} {
      n := 0;
    } else {
      var t :| t in s;
      var m := Bound(s - {t});
      n := if m > t then m else t + 1;
      assert forall u :: u in s ==> u == t || u in s - {t};
    }
  }

  lemma {:induction false} RunKeepsInv(w: World, actions: seq<Action>)
    requires Inv(w)
    ensures Inv(Run(w, actions))
    decreases |actions|
  {
    hide Inv, Next;
    if actions != [] {
      NextKeepsInv(w, actions[0]);
      RunKeepsInv(Next(w, actions[0]), actions[1..]);
    }
  }

  lemma {:induction false} RunAppend(w: World, actions: seq<Action>, a: Action)
    ensures Run(w, actions + [a]) == Next(Run(w, actions), a)
    decreases |actions|
  {
    hide Next;
    if actions == [] {
      assert [a][1..] == [] && Run(Next(w, a), []) == Next(w, a);
      assert [] + [a] == [a];
    } else {
      assert (actions + [a])[1..] == actions[1..] + [a];
      RunAppend(Next(w, actions[0]), actions[1..], a);
    }
  }

  lemma AdvanceExtends(w: World, t: nat)
    requires RowsOk(w) && t in w.tasks
    ensures Extends(w, Advance(w, t))
  {
    var task := w.tasks[t];
    if task.Update? {
      if task.call.id in w.rows { assert RowOk(w, task.call.id); }
    }
  }

  lemma NextExtends(w: World, a: Action)
    requires Inv(w)
    ensures Extends(w, Next(w, a))
  {
    InvRows(w);
    hide Inv, Advance, Begin, RowOk;
    match a {
      case Go(t) => if t in w.tasks { AdvanceExtends(w, t); }
      case _ =>
    }
  }

  lemma ExtendsTransitive(a: World, b: World, c: World)
    requires Extends(a, b) && Extends(b, c)
    ensures Extends(a, c)
  {}

  /** Whatever happens next, a decided row, its winner and every deadline stay what they are. */
  lemma {:induction false} RunExtends(w: World, actions: seq<Action>)
    requires Inv(w)
    ensures Extends(w, Run(w, actions))
    decreases |actions|
  {
    hide Inv, Next;
    if actions != [] {
      var w1 := Next(w, actions[0]);
      NextExtends(w, actions[0]);
      NextKeepsInv(w, actions[0]);
      RunExtends(w1, actions[1..]);
      ExtendsTransitive(w, w1, Run(w1, actions[1..]));
    }
  }

  // ---- what callers may rely on ----

  lemma EmptyInv()
    ensures Inv(Empty())
  {}

  /** The decision a finished call came back with, if any. */
  function Came(task: Task): Option<Decision> {
    if task.Finished? && task.caller.Some? then
      match task.result
      case Decided(d, _) => Some(d)
      case Replayed(d) => Some(d)
      case TooLate(d, _) => Some(d)
      case _ => None
    else None
  }

  predicate Decisive(task: Task, id: string) {
    task.Finished? && task.caller.Some? && task.caller.value.id == id && (task.result.Decided? || task.result.TooLate?)
  }

  /**
   In every run: a waiter is sent at most one decision, is closed at most once and only after it, and
   unless waiters were invalidated that decision is the stored row's.
   */
  lemma WaitersHearTheStoredDecision(actions: seq<Action>, ch: nat)
    requires ch < |Run(Empty(), actions).chans|
    ensures var w := Run(Empty(), actions);
            var c := w.chans[ch];
            && |c.sent| <= 1 && c.closes <= |c.sent|
            && (c.sent != [] && !c.forced ==> c.id in w.rows && DecisionFromRow(w.rows[c.id]) == Some(c.sent[0]))
  {
    hide Run;
    EmptyInv();
    RunKeepsInv(Empty(), actions);
    assert ChanOk(Run(Empty(), actions), Run(Empty(), actions).chans[ch]);
  }

  /** A send never blocks and never meets a closed channel: its channel is still empty and open. */
  lemma SendFindsRoom(actions: seq<Action>, t: nat)
    requires var w := Run(Empty(), actions); t in w.tasks && w.tasks[t].Send?
    ensures var w := Run(Empty(), actions);
            var ch := w.tasks[t].ch;
            ch < |w.chans| && w.chans[ch].sent == [] && w.chans[ch].closes == 0
  {
    hide Run;
    EmptyInv();
    RunKeepsInv(Empty(), actions);
    assert TaskOk(Run(Empty(), actions), t, Run(Empty(), actions).tasks[t]);
  }

  /** In every run at most one call decides an approval, and all that come back with a decision bring the stored one. */
  lemma OneDecision(actions: seq<Action>, t: nat, u: nat)
    requires var w := Run(Empty(), actions);
             t in w.tasks && u in w.tasks && Came(w.tasks[t]).Some? && Came(w.tasks[u]).Some?
             && w.tasks[t].caller.value.id == w.tasks[u].caller.value.id
    ensures var w := Run(Empty(), actions);
            var id := w.tasks[t].caller.value.id;
            && id in w.rows && Came(w.tasks[t]) == Came(w.tasks[u]) == DecisionFromRow(w.rows[id])
            && (Decisive(w.tasks[t], id) && Decisive(w.tasks[u], id) ==> t == u)
  {
    hide Run;
    EmptyInv();
    RunKeepsInv(Empty(), actions);
    var w := Run(Empty(), actions);
    assert TaskOk(w, t, w.tasks[t]) && TaskOk(w, u, w.tasks[u]);
  }

  /** An idempotent call is told "already decided" only when the stored decision is not the one it asked for. */
  lemma RefusalMeansOther(actions: seq<Action>, t: nat)
    requires var w := Run(Empty(), actions);
             t in w.tasks && w.tasks[t].Finished? && w.tasks[t].caller.Some? && w.tasks[t].result == AlreadyDecided
             && w.tasks[t].caller.value.idempotent
    ensures var w := Run(Empty(), actions);
            var call := w.tasks[t].caller.value;
            call.id in w.rows && Terminal(w.rows[call.id].state) && !Matches(w.rows[call.id], call)
  {
    hide Run;
    EmptyInv();
    RunKeepsInv(Empty(), actions);
    assert TaskOk(Run(Empty(), actions), t, Run(Empty(), actions).tasks[t]);
  }

  /** Deadlines: a stored user verdict was given before its deadline, and a call that came too late expired the row instead. */
  lemma DeadlinesHold(actions: seq<Action>, id: string)
    requires id in Run(Empty(), actions).rows
    ensures var w := Run(Empty(), actions);
            var row := w.rows[id];
            && (row.state == Approved || row.state == Denied || row.state == Edited ==> row.decidedAt < row.expiresAt)
            && (forall t :: t in w.tasks && Decisive(w.tasks[t], id) && w.tasks[t].result.TooLate? ==>
                  row.state == Expired && row.expiresAt <= row.decidedAt)
  {
    hide Run;
    EmptyInv();
    RunKeepsInv(Empty(), actions);
    var w := Run(Empty(), actions);
    assert RowOk(w, id);
    forall t | t in w.tasks && Decisive(w.tasks[t], id) && w.tasks[t].result.TooLate?
      ensures w.rows[id].state == Expired && w.rows[id].expiresAt <= w.rows[id].decidedAt
    {
      assert TaskOk(w, t, w.tasks[t]);
    }
  }

  /** A row leaves pending at most once: from then on, in every continuation, it is the same row with the same winner. */
  lemma DecidedForGood(before: seq<Action>, after: seq<Action>, id: string)
    requires var w := Run(Empty(), before); id in w.rows && Terminal(w.rows[id].state)
    ensures var w, w' := Run(Empty(), before), Run(Run(Empty(), before), after);
            && id in w'.rows && w'.rows[id] == w.rows[id]
            && id in w.winner && id in w'.winner && w'.winner[id] == w.winner[id]
  {
    hide Run;
    EmptyInv();
    RunKeepsInv(Empty(), before);
    var w := Run(Empty(), before);
    RunExtends(w, after);
    assert RowOk(w, id);
  }

  // ---- every decided row was decided by a call ----

  /** Task `task` moved row `id` and is delivering its decision or has reported it. */
  predicate Acting(task: Task, id: string) {
    match task
    case Deliver(call, _) => call.id == id
    case Send(caller, _, _) => caller.Some? && caller.value.id == id
    case CloseCh(caller, _, _) => caller.Some? && caller.value.id == id
    case _ => Decisive(task, id)
  }

  ghost predicate WinnersAct(w: World) {
    forall id :: id in w.winner ==> w.winner[id] in w.tasks && Acting(w.tasks[w.winner[id]], id)
  }

  ghost predicate Sound(w: World) {
    Inv(w) && WinnersAct(w)
  }

  lemma OnlyItMoves(w: World, t: nat)
    requires t in w.tasks
    ensures forall u :: u in Advance(w, t).tasks <==> u in w.tasks
    ensures forall u :: u in w.tasks && u != t ==> Advance(w, t).tasks[u] == w.tasks[u]
  {
    hide Advance;
    match w.tasks[t] {
      case Update(_, _, _, _, _, _) => UpdateMoves(w, t);
      case Deliver(_, _) => DeliverMoves(w, t);
      case Finished(_, _) => FinishedStays(w, t);
      case _ => ChannelMoves(w, t);
    }
  }

  /** Nobody moves but task `t`. */
  ghost predicate MovesOne(w: World, w': World, t: nat) {
    t in w'.tasks && w'.tasks == w.tasks[t := w'.tasks[t]]
  }

  lemma UpdateMoves(w: World, t: nat)
    requires t in w.tasks && w.tasks[t].Update?
    ensures MovesOne(w, Advance(w, t), t)
  {
    hide Already, StateForVerdict;
  }

  lemma DeliverMoves(w: World, t: nat)
    requires t in w.tasks && w.tasks[t].Deliver?
    ensures MovesOne(w, Advance(w, t), t)
  {
    hide Final;
  }

  lemma ChannelMoves(w: World, t: nat)
    requires t in w.tasks && (w.tasks[t].Register? || w.tasks[t].Send? || w.tasks[t].CloseCh? || w.tasks[t].Reread?)
    ensures MovesOne(w, Advance(w, t), t)
  {
    hide Final, DecisionFromRow, StateForVerdict;
  }

  /** A call that is acting goes on acting. */
  lemma GoesOnActing(w: World, t: nat, id: string)
    requires t in w.tasks && Acting(w.tasks[t], id)
    ensures t in Advance(w, t).tasks && Acting(Advance(w, t).tasks[t], id)
  {
    hide Already, DecisionFromRow, StateForVerdict;
    if w.tasks[t].Deliver? {
    } else if w.tasks[t].Send? {
    } else if w.tasks[t].CloseCh? {
    }
  }

  /** Only the call that moves starts winning, and it acts from then on. */
  lemma WinsByActing(w: World, t: nat, id: string)
    requires t in w.tasks && id in Advance(w, t).winner
    ensures var w' := Advance(w, t);
            || (id in w.winner && w'.winner[id] == w.winner[id])
            || (w'.winner[id] == t && t in w'.tasks && Acting(w'.tasks[t], id))
  {}

  lemma AdvanceKeepsActing(w: World, t: nat)
    requires WinnersAct(w) && t in w.tasks
    ensures WinnersAct(Advance(w, t))
  {
    hide Advance, Acting;
    var w' := Advance(w, t);
    OnlyItMoves(w, t);
    forall id | id in w'.winner ensures w'.winner[id] in w'.tasks && Acting(w'.tasks[w'.winner[id]], id) {
      WinsByActing(w, t, id);
      if w'.winner[id] == t && Acting(w.tasks[t], id) { GoesOnActing(w, t, id); }
    }
  }

  lemma NextKeepsActing(w: World, a: Action)
    requires WinnersAct(w)
    ensures WinnersAct(Next(w, a))
  {
    hide Advance, Begin, Acting;
    match a {
      case Go(t) => if t in w.tasks { AdvanceKeepsActing(w, t); }
      case _ =>
    }
  }

  lemma NextKeepsSound(w: World, a: Action)
    requires Sound(w)
    ensures Sound(Next(w, a))
  {
    hide Inv, Next, WinnersAct;
    NextKeepsInv(w, a);
    NextKeepsActing(w, a);
  }

  lemma {:induction false} RunKeepsSound(w: World, actions: seq<Action>)
    requires Sound(w)
    ensures Sound(Run(w, actions))
    decreases |actions|
  {
    hide Sound, Next;
    if actions != [] {
      NextKeepsSound(w, actions[0]);
      RunKeepsSound(Next(w, actions[0]), actions[1..]);
    }
  }

  /** Once every call is over, exactly one call came back having decided each decided row. */
  lemma ExactlyOneDecided(actions: seq<Action>, id: string)
    requires var w := Run(Empty(), actions);
             id in w.rows && Terminal(w.rows[id].state) && forall t :: t in w.tasks ==> w.tasks[t].Finished?
    ensures var w := Run(Empty(), actions);
            exists t :: && t in w.tasks && Decisive(w.tasks[t], id)
                        && Came(w.tasks[t]) == DecisionFromRow(w.rows[id])
                        && forall u :: u in w.tasks && Decisive(w.tasks[u], id) ==> u == t
  {
    hide Run;
    EmptyInv();
    RunKeepsSound(Empty(), actions);
    var w := Run(Empty(), actions);
    assert RowOk(w, id);
    var t := w.winner[id];
    assert TaskOk(w, t, w.tasks[t]);
    assert Decisive(w.tasks[t], id);
    forall u | u in w.tasks && Decisive(w.tasks[u], id) ensures u == t {
      assert TaskOk(w, u, w.tasks[u]);
    }
  }
}
