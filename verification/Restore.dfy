/**
 The pass over the stored sessions after a restart. What tmux and the database answer is arbitrary.
 */
module Restore {
  import opened Bytes
  import opened Sessions

  datatype Entry = Entry(name: string, agent: string, transport: string, target: string)

  /** One variable of a tmux session's environment. */
  datatype Reply = Failure(error: string) | Unset | Value(text: string)

  /** `fails`: the database call of that change of state fails. */
  datatype Answers = Answers(
    now: int, discovered: Option<set<string>>, discoveryError: string,
    environment: string -> Reply, captureError: string -> Option<string>, fails: (string, State) -> bool)

  /** A session that runs in tmux. */
  predicate InTmux(transport: string, target: string) {
    transport == "tmux" && Trim(target) != ""
  }

  predicate HasPrefix(s: string, prefix: string) {
    |prefix| <= |s| && s[..|prefix|] == prefix
  }

  /** Targets the daemon did not name itself are taken on trust. */
  predicate Trusted(row: Row) {
    !HasPrefix(row.details.target, "onibi-") || row.details.agent == "tmux"
  }

  /** `managedTmuxOwnership`: failed with an error, refused or verified. */
  function Ownership(id: string, row: Row, a: Answers): Reply {
    if Trusted(row) then Value(id) else a.environment(id)
  }

  function NewEntry(row: Row): Entry {
    var name, agent := Trim(row.details.name), Trim(row.details.agent);
    Entry(if name == "" then "tmux:" + row.details.target else name, if agent == "" then "tmux" else agent,
          "tmux", row.details.target)
  }

  // ---- what the pass comes to, row by row ----

  function Moved(id: string, row: Row, next: State, reason: string, a: Answers): Row {
    if a.fails(id, next) then row
    else if TransitionAnswer(map[id := row], id, next, reason, Some(a.now)) == Changed then
      row.(state := next, reason := Trim(reason), updatedAt := a.now)
    else row
  }

  /** The tmux session is there, it is this row's, and it can be read. */
  predicate Reachable(id: string, row: Row, a: Answers) {
    && a.discovered.Some? && row.details.target in a.discovered.value
    && Ownership(id, row, a) == Value(id) && a.captureError(id).None?
  }

  predicate Registers(id: string, row: Row, owned: bool, a: Answers) {
    InTmux(row.details.transport, row.details.target) && !owned && Reachable(id, row, a)
  }

  /** The state a row that is not registered is sent to, and why. */
  function Setback(id: string, row: Row, owned: bool, a: Answers): (State, string) {
    var target := row.details.target;
    if !InTmux(row.details.transport, target) then (Failed, "unsupported restart transport=" + row.details.transport)
    else if owned then (Failed, "duplicate tmux ownership target=" + target)
    else if a.discovered.None? then (Reconnecting, "tmux discovery unavailable: " + a.discoveryError)
    else if target !in a.discovered.value then (Orphaned, "tmux target absent after discovery")
    else if Ownership(id, row, a).Failure? then
      (Reconnecting, "tmux ownership lookup unavailable: " + Ownership(id, row, a).error)
    else if Ownership(id, row, a) != Value(id) then (Orphaned, "tmux ownership identity mismatch")
    else if a.captureError(id).Some? then (Reconnecting, "tmux capture unavailable: " + a.captureError(id).value)
    else (Healthy, "")
  }

  function After(id: string, row: Row, owned: bool, a: Answers): Row {
    var r := if InTmux(row.details.transport, row.details.target) && !owned then Moved(id, row, Recovering, "daemon restart", a) else row;
    var (next, reason) := Setback(id, row, owned, a);
    Moved(id, r, next, reason, a)
  }

  /** No database call about this row fails. */
  ghost predicate Reliable(id: string, a: Answers) {
    forall s: State :: !a.fails(id, s)
  }

  predicate Fits(reason: string) {
    |Trim(reason)| <= MAX_REASON
  }

  /** The reason for not even trying this row can be stored. */
  predicate SetbackFits(row: Row, owned: bool) {
    if !InTmux(row.details.transport, row.details.target) then Fits("unsupported restart transport=" + row.details.transport)
    else owned ==> Fits("duplicate tmux ownership target=" + row.details.target)
  }

  lemma Unhealthy(id: string, row: Row, next: State, reason: string, a: Answers)
    requires Trim(id) != "" && row.state.Healthy? && row.endedAt.None? && next != Healthy && next != Unrecognised
    requires !a.fails(id, next) && Trim(reason) != ""
    ensures Moved(id, row, next, reason, a).state == if Fits(reason) then next else Healthy
    ensures Moved(id, row, next, reason, a).endedAt.None?
  {}

  lemma StaysDown(id: string, row: Row, next: State, reason: string, a: Answers)
    requires row.state != Healthy && (next != Healthy || reason == "")
    ensures next != Healthy ==> Moved(id, row, next, reason, a).state != Healthy
    ensures Moved(id, row, next, reason, a).endedAt == row.endedAt
  {}

  lemma Recovers(id: string, row: Row, a: Answers)
    requires Trim(id) != "" && row.endedAt.None? && row.state != Unrecognised && row.state != Terminated
    requires !a.fails(id, Recovering)
    ensures var r := Moved(id, row, Recovering, "daemon restart", a); r.state == Recovering && r.endedAt.None?
  {
    VisibleStart("daemon restart");
  }

  lemma SetbackIsVisible(id: string, row: Row, owned: bool, a: Answers)
    ensures var (next, reason) := Setback(id, row, owned, a);
            && (next == Healthy <==> Registers(id, row, owned, a))
            && next != Unrecognised && (if next == Healthy then reason == "" else Trim(reason) != "")
  {
    var (next, reason) := Setback(id, row, owned, a);
    if next != Healthy { VisibleStart(reason); }
  }

  /** A row ends healthy iff it is registered, unless the reason it was healthy with could not be replaced. */
  lemma HealthyIffRegistered(id: string, row: Row, owned: bool, a: Answers)
    requires Trim(id) != "" && row.endedAt.None? && row.state != Unrecognised && row.state != Terminated && Reliable(id, a)
    ensures After(id, row, owned, a).state == Healthy <==>
              Registers(id, row, owned, a) || (row.state == Healthy && !SetbackFits(row, owned))
  {
    SetbackIsVisible(id, row, owned, a);
    var (next, reason) := Setback(id, row, owned, a);
    Recovers(id, row, a);
    hide Reachable, Trim, Fits, TransitionAnswer;
    if InTmux(row.details.transport, row.details.target) && !owned {
      var r := Moved(id, row, Recovering, "daemon restart", a);
      if next == Healthy { ToHealthy(id, r, a); } else { StaysDown(id, r, next, reason, a); }
    } else if row.state == Healthy {
      Unhealthy(id, row, next, reason, a);
    } else {
      StaysDown(id, row, next, reason, a);
    }
  }

  lemma ToHealthy(id: string, row: Row, a: Answers)
    requires Trim(id) != "" && row.state == Recovering && row.endedAt.None? && !a.fails(id, Healthy)
    ensures Moved(id, row, Healthy, "", a).state == Healthy
  {
  }

  /** A tmux target whose name leaves no room in the reason that quotes it. */
  function LongTarget(): string {
    seq(MAX_REASON, _ => 'x')
  }

  /** A healthy row whose long target somebody has already is refused its setback: it stays healthy and unregistered. */
  lemma LongTargetStaysHealthy(id: string, details: Details, at: int, a: Answers)
    requires details.transport == "tmux" && details.target == LongTarget()
    ensures var row := Row(details, at, Healthy, "", at, None);
            After(id, row, true, a) == row && !Registers(id, row, true, a) && !SetbackFits(row, true)
  {
    var reason := "duplicate tmux ownership target=" + LongTarget();
    LongTargetInTmux();
    assert reason[0] == 'd' && reason[|reason| - 1] == 'x';
    assert TrimLeft(reason) == reason && TrimRight(reason) == reason;
  }

  lemma LongTargetInTmux()
    ensures InTmux("tmux", LongTarget()) && !HasPrefix(LongTarget(), "onibi-")
  {
    assert LongTarget()[0] == 'x' && "onibi-"[0] == 'o';
    VisibleStart(LongTarget());
    assert |"onibi-"| <= |LongTarget()| ==> LongTarget()[..|"onibi-"|][0] == 'x';
  }

  /** The pass changes a row's recovery record only, and never a terminated row. */
  lemma OnlyTheRecord(id: string, row: Row, owned: bool, a: Answers)
    ensures var r := After(id, row, owned, a);
            && r == row.(state := r.state, reason := r.reason, updatedAt := r.updatedAt)
            && (row.state == Terminated || row.endedAt.Some? ==> r == row)
  {
    hide Setback, Explains, Trim;
  }

  /** tmux answered, and the target is gone or belongs to another session. */
  predicate KnownGone(id: string, row: Row, a: Answers) {
    && InTmux(row.details.transport, row.details.target) && a.discovered.Some?
    && (row.details.target !in a.discovered.value
        || (!Trusted(row) && !a.environment(id).Failure? && a.environment(id) != Value(id)))
  }

  lemma MovedTo(id: string, row: Row, next: State, reason: string, a: Answers)
    ensures var s := Moved(id, row, next, reason, a).state; s == next || s == row.state
  {}

  /** Nobody is given up without evidence: tmux not answering orphans and fails nobody. */
  lemma LostOnEvidence(id: string, row: Row, owned: bool, a: Answers)
    ensures var s := After(id, row, owned, a).state;
            && (s == Orphaned ==> row.state == Orphaned || (!owned && KnownGone(id, row, a)))
            && (s == Failed ==> row.state == Failed || owned || !InTmux(row.details.transport, row.details.target))
            && (s == Terminated ==> row.state == Terminated)
  {
    var (next, reason) := Setback(id, row, owned, a);
    SetbackStates(id, row, owned, a);
    hide Moved, Setback, KnownGone, InTmux;
    var r := Moved(id, row, Recovering, "daemon restart", a);
    MovedTo(id, row, Recovering, "daemon restart", a);
    MovedTo(id, r, next, reason, a);
    MovedTo(id, row, next, reason, a);
  }

  lemma SetbackStates(id: string, row: Row, owned: bool, a: Answers)
    ensures var next := Setback(id, row, owned, a).0;
            && (next == Orphaned ==> !owned && KnownGone(id, row, a))
            && (next == Failed ==> owned || !InTmux(row.details.transport, row.details.target))
            && next != Terminated
  {
    hide Trim, HasPrefix;
  }

  /** When tmux cannot be asked at all, a row whose target is free waits to be reconnected. */
  lemma UnansweredReconnects(id: string, row: Row, a: Answers)
    requires Trim(id) != "" && row.endedAt.None? && row.state != Unrecognised && row.state != Terminated && Reliable(id, a)
    requires InTmux(row.details.transport, row.details.target) && a.discovered.None?
    ensures After(id, row, false, a).state
            == if Fits("tmux discovery unavailable: " + a.discoveryError) then Reconnecting else Recovering
  {
    Recovers(id, row, a);
    VisibleStart("tmux discovery unavailable: " + a.discoveryError);
    hide Trim;
  }

  // ---- the state a row ends in, told from what tmux answers ----

  /** Every reason the answers can give for this row can be stored. */
  predicate ReasonsFit(id: string, row: Row, a: Answers) {
    && SetbackFits(row, true)
    && (a.discovered.None? ==> Fits("tmux discovery unavailable: " + a.discoveryError))
    && (a.environment(id).Failure? ==> Fits("tmux ownership lookup unavailable: " + a.environment(id).error))
    && (a.captureError(id).Some? ==> Fits("tmux capture unavailable: " + a.captureError(id).value))
  }

  /** tmux lists the row's session. */
  predicate ListedByTmux(row: Row, a: Answers) {
    a.discovered.Some? && row.details.target in a.discovered.value
  }

  /** The session has a name the daemon gives, is no plain tmux session, and does not answer with this row's id. */
  predicate NotProvenOurs(id: string, row: Row, a: Answers) {
    "onibi-" <= row.details.target && row.details.agent != "tmux" && a.environment(id) != Value(id)
  }

  /** The exact outcome for a row; `owned`: somebody has its target. */
  predicate EndsRight(id: string, row: Row, s: State, owned: bool, a: Answers) {
    if row.details.transport != "tmux" || Trim(row.details.target) == "" || owned then
      s == if row.state == Orphaned then Orphaned else Failed
    else
      && (s == Orphaned || s == Reconnecting || s == Healthy)
      && (s == Orphaned <==>
            a.discovered.Some? && (!ListedByTmux(row, a) || (NotProvenOurs(id, row, a) && !a.environment(id).Failure?)))
      && (s == Reconnecting <==>
            || a.discovered.None?
            || (ListedByTmux(row, a) && NotProvenOurs(id, row, a) && a.environment(id).Failure?)
            || (ListedByTmux(row, a) && !NotProvenOurs(id, row, a) && a.captureError(id).Some?))
      && (s == Healthy <==> ListedByTmux(row, a) && !NotProvenOurs(id, row, a) && a.captureError(id).None?)
  }

  /** A row that may be restored: neither ended nor terminated, and every database call about it succeeds. */
  ghost predicate Restorable(id: string, row: Row, a: Answers) {
    && Trim(id) != "" && row.endedAt.None? && row.state != Unrecognised && row.state != Terminated
    && Reliable(id, a) && ReasonsFit(id, row, a)
  }

  /** The text of the reason that goes with the outcome. */
  function WhyEnded(id: string, row: Row, owned: bool, a: Answers): string {
    if row.details.transport != "tmux" || Trim(row.details.target) == "" then "unsupported restart transport=" + row.details.transport
    else if owned then "duplicate tmux ownership target=" + row.details.target
    else if a.discovered.None? then "tmux discovery unavailable: " + a.discoveryError
    else if !ListedByTmux(row, a) then "tmux target absent after discovery"
    else if NotProvenOurs(id, row, a) then
      if a.environment(id).Failure? then "tmux ownership lookup unavailable: " + a.environment(id).error else "tmux ownership identity mismatch"
    else if a.captureError(id).Some? then "tmux capture unavailable: " + a.captureError(id).value
    else ""
  }

  /** A row that was tried, or newly failed, has the reason and the time of the pass; one that is refused a change has its own. */
  predicate Explained(id: string, row: Row, row': Row, owned: bool, a: Answers) {
    if (row.details.transport != "tmux" || Trim(row.details.target) == "" || owned) && (row.state == Orphaned || row.state == Failed) then row' == row
    else row'.reason == Trim(WhyEnded(id, row, owned, a)) && row'.updatedAt == a.now
  }

  /** From recovering a row gets where it is sent, with the reason and the time. */
  lemma Arrives(id: string, row: Row, next: State, reason: string, a: Answers)
    requires Trim(id) != "" && row.endedAt.None? && row.state == Recovering && !a.fails(id, next)
    requires next == Orphaned || next == Reconnecting || next == Failed || next == Healthy
    requires Fits(reason) && (next == Healthy <==> Trim(reason) == "")
    ensures Moved(id, row, next, reason, a) == row.(state := next, reason := Trim(reason), updatedAt := a.now)
  {
    hide Trim;
  }

  lemma FixedReasonsFit()
    ensures Fits("tmux target absent after discovery") && Fits("tmux ownership identity mismatch") && Fits("") && Fits("daemon restart")
    ensures Trim("") == ""
  {
    TrimTwice("tmux target absent after discovery");
    TrimTwice("tmux ownership identity mismatch");
    TrimTwice("daemon restart");
  }

  lemma SetbackHasRoom(id: string, row: Row, owned: bool, a: Answers)
    requires ReasonsFit(id, row, a)
    ensures var (next, reason) := Setback(id, row, owned, a); Fits(reason) && (next == Healthy <==> Trim(reason) == "")
  {
    FixedReasonsFit();
    SetbackIsVisible(id, row, owned, a);
    hide Trim, Fits, HasPrefix;
  }

  lemma SetbackSaysWhy(id: string, row: Row, owned: bool, a: Answers)
    ensures Setback(id, row, owned, a).1 == WhyEnded(id, row, owned, a)
  {
    var target := row.details.target;
    assert HasPrefix(target, "onibi-") <==> "onibi-" <= target;
    hide Trim;
  }

  lemma SetbackIsRight(id: string, row: Row, a: Answers)
    requires InTmux(row.details.transport, row.details.target)
    ensures EndsRight(id, row, Setback(id, row, false, a).0, false, a)
  {
    var target := row.details.target;
    assert HasPrefix(target, "onibi-") <==> "onibi-" <= target;
    hide Trim;
  }

  /** A row ends where the answers say, wherever it started. */
  lemma RowEndsRight(id: string, row: Row, owned: bool, a: Answers)
    requires Restorable(id, row, a)
    ensures EndsRight(id, row, After(id, row, owned, a).state, owned, a)
    ensures Explained(id, row, After(id, row, owned, a), owned, a)
  {
    SetbackHasRoom(id, row, owned, a);
    SetbackSaysWhy(id, row, owned, a);
    hide WhyEnded;
    if InTmux(row.details.transport, row.details.target) && !owned {
      hide Trim, ReasonsFit, EndsRight, Moved, Setback, After;
      TriedEndsRight(id, row, a);
    } else {
      hide ReasonsFit;
      RefusedEndsRight(id, row, owned, a);
    }
  }

  lemma TriedEndsRight(id: string, row: Row, a: Answers)
    requires Restorable(id, row, a) && InTmux(row.details.transport, row.details.target)
    ensures EndsRight(id, row, After(id, row, false, a).state, false, a)
    ensures After(id, row, false, a).reason == Trim(Setback(id, row, false, a).1) && After(id, row, false, a).updatedAt == a.now
  {
    SetbackHasRoom(id, row, false, a);
    SetbackIsRight(id, row, a);
    SetbackGoal(id, row, a);
    Recovers(id, row, a);
    hide Moved, Trim, EndsRight, ReasonsFit, Setback, InTmux;
    var (next, reason) := Setback(id, row, false, a);
    Arrives(id, Moved(id, row, Recovering, "daemon restart", a), next, reason, a);
  }

  lemma RefusedEndsRight(id: string, row: Row, owned: bool, a: Answers)
    requires Trim(id) != "" && row.endedAt.None? && row.state != Unrecognised && row.state != Terminated && Reliable(id, a)
    requires !InTmux(row.details.transport, row.details.target) || owned
    requires var (next, reason) := Setback(id, row, owned, a); Fits(reason) && Trim(reason) != ""
    ensures After(id, row, owned, a).state == if row.state == Orphaned then Orphaned else Failed
    ensures var row' := After(id, row, owned, a);
            if row.state == Orphaned || row.state == Failed then row' == row
            else row'.reason == Trim(Setback(id, row, owned, a).1) && row'.updatedAt == a.now
  {
    hide Trim;
  }

  lemma SetbackGoal(id: string, row: Row, a: Answers)
    requires InTmux(row.details.transport, row.details.target)
    ensures var next := Setback(id, row, false, a).0; next == Orphaned || next == Reconnecting || next == Healthy
  {
    hide Trim, HasPrefix;
  }

  /** What makes a session fit to be registered, from the answers alone. */
  lemma ReachableIff(id: string, row: Row, a: Answers)
    ensures Reachable(id, row, a) <==> ListedByTmux(row, a) && !NotProvenOurs(id, row, a) && a.captureError(id).None?
  {
    assert HasPrefix(row.details.target, "onibi-") <==> "onibi-" <= row.details.target;
  }

  /** The entry has the row's target, and its name and agent without the spaces around them, or stand-ins when they are blank. */
  lemma EntryNamed(row: Row)
    ensures var e := NewEntry(row);
            && e.transport == "tmux" && e.target == row.details.target
            && (Trim(row.details.name) != "" ==> e.name == Trim(row.details.name))
            && (Trim(row.details.name) == "" ==> e.name == "tmux:" + row.details.target)
            && e.agent != "" && (Trim(row.details.agent) != "" ==> e.agent == Trim(row.details.agent))
  {}

  // ---- the registry ----

  type Registry = map<string, Entry>

  predicate Owns(r: Registry, id: string, target: string) {
    id in r && r[id].target == target && InTmux(r[id].transport, target)
  }

  /** No two registered tmux sessions share a target. */
  ghost predicate Separate(r: Registry) {
    forall i, j, target :: Owns(r, i, target) && Owns(r, j, target) ==> i == j
  }

  ghost predicate Tracks(owned: set<string>, r: Registry) {
    && (forall id, target :: Owns(r, id, target) ==> target in owned)
    && (forall target :: target in owned ==> exists id :: Owns(r, id, target))
  }

  lemma RegisterOne(r: Registry, owned: set<string>, id: string, row: Row)
    requires Tracks(owned, r) && id !in r && InTmux(row.details.transport, row.details.target) && row.details.target !in owned
    ensures Tracks(owned + {row.details.target}, r[id := NewEntry(row)])
    ensures Separate(r) ==> Separate(r[id := NewEntry(row)])
  {
    hide Trim;
    var r', mine := r[id := NewEntry(row)], row.details.target;
    assert Owns(r', id, mine);
    assert forall i, target :: Owns(r', i, target) && i != id ==> Owns(r, i, target);
    forall target | target in owned + {mine} ensures exists i :: Owns(r', i, target) {
      if target != mine {
        var i :| Owns(r, i, target);
        assert Owns(r', i, target);
      }
    }
  }

  /** Each registration the pass added is of a live, verified, readable tmux session of a row. */
  ghost predicate Earned(rows: Table, before: Registry, after: Registry, a: Answers) {
    forall id :: id in after && id !in before ==>
      && id in rows && after[id] == NewEntry(rows[id]) && Reachable(id, rows[id], a)
      && InTmux(rows[id].details.transport, rows[id].details.target)
  }

  ghost predicate Kept(before: Registry, after: Registry) {
    forall id :: id in before ==> id in after && after[id] == before[id]
  }

  /** Another registered session has this row's target. */
  ghost predicate Taken(r: Registry, id: string, row: Row) {
    exists other :: other != id && Owns(r, other, row.details.target)
  }

  /** The row is up for restoring and its live, verified, readable tmux session has this target. */
  predicate Claims(id: string, rows: Table, before: Registry, a: Answers, target: string) {
    id !in before && id in rows && rows[id].details.target == target && InTmux(rows[id].details.transport, target) && Reachable(id, rows[id], a)
  }

  /** When row `k` of `ids` comes up its target is taken: it was before the pass, or an earlier row claimed it. */
  ghost predicate Claimed(ids: seq<string>, k: nat, rows: Table, before: Registry, a: Answers, target: string)
    requires k <= |ids|
  {
    (exists other :: Owns(before, other, target)) || (exists j :: 0 <= j < k && Claims(ids[j], rows, before, a, target))
  }

  ghost predicate Processed(id: string, row: Row, row': Row, owned: bool, after: Registry, a: Answers) {
    && row' == After(id, row, owned, a) && (id in after <==> Registers(id, row, owned, a))
    && (owned ==> Taken(after, id, row))
  }

  /** Row `k` was dealt with, its target counting as taken exactly when it was. */
  ghost predicate Done(ids: seq<string>, k: nat, rows: Table, rows': Table, before: Registry, after: Registry, a: Answers)
    requires k < |ids|
  {
    && ids[k] in rows && ids[k] in rows'
    && Processed(ids[k], rows[ids[k]], rows'[ids[k]], Claimed(ids, k, rows, before, a, rows[ids[k]].details.target), after, a)
  }

  lemma ProcessedStays(id: string, row: Row, row': Row, owned: bool, r: Registry, r': Registry, a: Answers)
    requires Processed(id, row, row', owned, r, a) && Kept(r, r') && (id in r' <==> id in r)
    ensures Processed(id, row, row', owned, r', a)
  {
    hide After, Registers;
    if owned {
      var other :| other != id && Owns(r, other, row.details.target);
      assert Owns(r', other, row.details.target);
    }
  }

  lemma ProcessedNow(id: string, row: Row, row': Row, owned: set<string>, r: Registry, r': Registry, a: Answers)
    requires Tracks(owned, r) && Kept(r, r') && id !in r
    requires var o := row.details.target in owned;
             row' == After(id, row, o, a) && (id in r' <==> Registers(id, row, o, a))
    ensures Processed(id, row, row', row.details.target in owned, r', a)
  {
    hide After, Registers, Trim;
    var target := row.details.target;
    if target in owned {
      var other :| Owns(r, other, target);
      assert Owns(r', other, target);
    }
  }

  /** The first `n` rows of `ids` were dealt with. */
  ghost predicate AllDone(ids: seq<string>, n: nat, rows: Table, rows': Table, before: Registry, after: Registry, a: Answers)
    requires n <= |ids|
  {
    forall k :: 0 <= k < n && ids[k] !in before ==> Done(ids, k, rows, rows', before, after, a)
  }

  /** `owned` has the targets taken when row `i` comes up. */
  ghost predicate Tally(ids: seq<string>, i: nat, rows: Table, before: Registry, owned: set<string>, a: Answers)
    requires i <= |ids|
  {
    forall target :: target in owned <==> Claimed(ids, i, rows, before, a, target)
  }

  lemma TallyGoesOn(ids: seq<string>, i: nat, rows: Table, before: Registry, owned: set<string>, a: Answers)
    requires i < |ids| && Tally(ids, i, rows, before, owned, a)
    ensures ids[i] in before ==> Tally(ids, i + 1, rows, before, owned, a)
    ensures ids[i] in rows && ids[i] !in before ==>
              var row := rows[ids[i]]; var target := row.details.target;
              Tally(ids, i + 1, rows, before, if Registers(ids[i], row, target in owned, a) then owned + {target} else owned, a)
  {
    hide Owns, Reachable, InTmux;
    forall target
      ensures Claimed(ids, i + 1, rows, before, a, target) <==> Claimed(ids, i, rows, before, a, target) || Claims(ids[i], rows, before, a, target)
    {}
    hide Claimed;
  }

  /** Rows outside `ids`, and those already registered, are as they were. */
  ghost predicate OthersStay(ids: seq<string>, rows: Table, rows': Table, before: Registry) {
    rows'.Keys == rows.Keys && forall id :: id in rows && (id !in ids || id in before) ==> rows'[id] == rows[id]
  }

  ghost predicate Added(ids: seq<string>, before: Registry, after: Registry) {
    forall id :: id in after ==> id in before || id in ids
  }

  /** The stored rows that are not ended, each once, in any order. */
  ghost predicate Lists(ids: seq<string>, rows: Table) {
    && (forall id :: id in ids <==> id in rows && rows[id].endedAt.None?)
    && (forall i, j :: 0 <= i < j < |ids| ==> ids[i] != ids[j])
  }

  /** The loop's state before row `i`. */
  ghost predicate Halfway(ids: seq<string>, i: nat, rows: Table, rows': Table, before: Registry, r: Registry, owned: set<string>, a: Answers)
    requires i <= |ids|
  {
    && Kept(before, r) && Added(ids[..i], before, r) && Earned(rows, before, r, a) && (Separate(before) ==> Separate(r))
    && Tracks(owned, r) && Tally(ids, i, rows, before, owned, a)
    && AllDone(ids, i, rows, rows', before, r, a) && OthersStay(ids[..i], rows, rows', before)
  }

  lemma AlreadyThere(ids: seq<string>, i: nat, rows: Table, rows': Table, before: Registry, r: Registry, owned: set<string>, a: Answers)
    requires Lists(ids, rows) && i < |ids| && Halfway(ids, i, rows, rows', before, r, owned, a) && ids[i] in r
    ensures Halfway(ids, i + 1, rows, rows', before, r, owned, a)
  {
    hide Done, Separate, Tracks, Earned, Kept, Lists, Added, AllDone, OthersStay, Tally;
    FirstTime(ids, i, rows);
    AlreadyAdded(ids, i, before, r);
    AlreadyDone(ids, i, rows, rows', before, r, a);
    TallyGoesOn(ids, i, rows, before, owned, a);
  }

  lemma AlreadyAdded(ids: seq<string>, i: nat, before: Registry, r: Registry)
    requires i < |ids| && Added(ids[..i], before, r) && ids[i] in r && ids[i] !in ids[..i]
    ensures Added(ids[..i + 1], before, r) && ids[i] in before
  {
    assert ids[..i + 1] == ids[..i] + [ids[i]];
  }

  lemma AlreadyDone(ids: seq<string>, i: nat, rows: Table, rows': Table, before: Registry, r: Registry, a: Answers)
    requires i < |ids| && ids[i] in before && AllDone(ids, i, rows, rows', before, r, a) && OthersStay(ids[..i], rows, rows', before)
    ensures AllDone(ids, i + 1, rows, rows', before, r, a) && OthersStay(ids[..i + 1], rows, rows', before)
  {
    hide Done;
    assert ids[..i + 1] == ids[..i] + [ids[i]];
  }

  lemma FirstTime(ids: seq<string>, i: nat, rows: Table)
    requires Lists(ids, rows) && i < |ids|
    ensures ids[i] !in ids[..i]
  {}

  lemma KeptTransitive(a: Registry, b: Registry, c: Registry)
    requires Kept(a, b) && Kept(b, c)
    ensures Kept(a, c)
  {}

  lemma AllDoneNow(ids: seq<string>, i: nat, rows: Table, rows1: Table, rows2: Table, before: Registry, r: Registry, r': Registry, a: Answers)
    requires Lists(ids, rows) && i < |ids| && AllDone(ids, i, rows, rows1, before, r, a) && Kept(r, r')
    requires forall id :: id != ids[i] ==> (id in r' <==> id in r) && (id in rows1 ==> id in rows2 && rows2[id] == rows1[id])
    requires Done(ids, i, rows, rows2, before, r', a)
    ensures AllDone(ids, i + 1, rows, rows2, before, r', a)
  {
    hide Processed, Kept, Claimed;
    forall k | 0 <= k < i + 1 && ids[k] !in before ensures Done(ids, k, rows, rows2, before, r', a) {
      if k < i {
        assert Done(ids, k, rows, rows1, before, r, a) && ids[k] != ids[i];
        var id := ids[k];
        ProcessedStays(id, rows[id], rows1[id], Claimed(ids, k, rows, before, a, rows[id].details.target), r, r', a);
      }
    }
  }

  lemma OneMoreStays(ids: seq<string>, i: nat, rows: Table, rows1: Table, rows2: Table, before: Registry)
    requires i < |ids| && OthersStay(ids[..i], rows, rows1, before) && ids[i] !in before
    requires rows2.Keys == rows1.Keys && forall id :: id in rows1 && id != ids[i] ==> rows2[id] == rows1[id]
    ensures OthersStay(ids[..i + 1], rows, rows2, before)
  {
    assert ids[..i + 1] == ids[..i] + [ids[i]];
  }

  lemma OneMoreAdded(ids: seq<string>, i: nat, before: Registry, r: Registry, r': Registry)
    requires i < |ids| && Added(ids[..i], before, r) && forall id :: id in r' ==> id in r || id == ids[i]
    ensures Added(ids[..i + 1], before, r')
  {
    assert ids[..i + 1] == ids[..i] + [ids[i]];
  }

  lemma KeptHas(before: Registry, r: Registry, id: string)
    requires Kept(before, r) && id !in r
    ensures id !in before
  {}

  lemma OthersHave(ids: seq<string>, rows: Table, rows': Table, before: Registry, id: string)
    requires OthersStay(ids, rows, rows', before) && id in rows
    ensures id in rows'
  {}

  /** Row `i` is dealt with. */
  lemma OneMore(ids: seq<string>, i: nat, rows: Table, rows1: Table, rows2: Table, before: Registry, r: Registry, r': Registry,
                owned: set<string>, a: Answers)
    requires Lists(ids, rows) && i < |ids| && Halfway(ids, i, rows, rows1, before, r, owned, a) && ids[i] !in r && ids[i] in rows
    requires var row, o := rows[ids[i]], rows[ids[i]].details.target in owned;
             && rows2 == rows1[ids[i] := After(ids[i], row, o, a)]
             && r' == if Registers(ids[i], row, o, a) then r[ids[i] := NewEntry(row)] else r
    ensures var row := rows[ids[i]];
            Halfway(ids, i + 1, rows, rows2, before, r', if ids[i] in r' then owned + {row.details.target} else owned, a)
  {
    hide Processed, Claimed, Separate, Tracks, After, NewEntry, Reachable, Trim, AllDone, Added, OthersStay, InTmux, Lists;
    var id, row := ids[i], rows[ids[i]];
    assert Kept(r, r');
    hide Kept;
    KeptHas(before, r, id);
    OthersHave(ids[..i], rows, rows1, before, id);
    OneMoreStays(ids, i, rows, rows1, rows2, before);
    OneMoreAdded(ids, i, before, r, r');
    KeptTransitive(before, r, r');
    ProcessedNow(id, row, rows2[id], owned, r, r', a);
    TallyGoesOn(ids, i, rows, before, owned, a);
    assert Done(ids, i, rows, rows2, before, r', a);
    hide Done, Tally;
    AllDoneNow(ids, i, rows, rows1, rows2, before, r, r', a);
    if id in r' { RegisterOne(r, owned, id, row); }
  }

  lemma Outset(ids: seq<string>, rows: Table, before: Registry, owned: set<string>, a: Answers)
    requires Tracks(owned, before)
    ensures Halfway(ids, 0, rows, rows, before, before, owned, a)
  {}

  predicate AllReadable(ids: seq<string>, rows: Table)
    requires forall id :: id in ids ==> id in rows
  {
    forall id :: id in ids ==> ValidRecord(rows[id].state, rows[id].reason, rows[id].updatedAt)
  }

  lemma NotYet(ids: seq<string>, i: nat, rows: Table, rows': Table, before: Registry, r: Registry, owned: set<string>, a: Answers)
    requires Lists(ids, rows) && i < |ids| && Halfway(ids, i, rows, rows', before, r, owned, a)
    ensures ids[i] in rows && ids[i] in rows' && rows'[ids[i]] == rows[ids[i]]
  {
    hide Kept, Added, Earned, Separate, Tracks, AllDone, Tally;
    assert ids[i] in ids && ids[i] !in ids[..i];
  }

  lemma Unfold(ids: seq<string>, i: nat, rows: Table, rows': Table, before: Registry, r: Registry, owned: set<string>, a: Answers)
    requires i <= |ids| && Halfway(ids, i, rows, rows', before, r, owned, a)
    ensures Kept(before, r) && Added(ids, before, r) && Earned(rows, before, r, a) && (Separate(before) ==> Separate(r))
    ensures i == |ids| ==> AllDone(ids, |ids|, rows, rows', before, r, a)
    ensures OthersStay(ids, rows, rows', before)
  {
    hide Kept, Earned, Separate, Tracks, Tally, Done;
    assert forall id :: id in ids[..i] ==> id in ids;
    assert i == |ids| ==> ids[..i] == ids;
  }

  /**
   After the pass a readable row that was up for restoring is healthy iff it was registered, provided the
   reasons for not trying it can be stored; the one other way is to have been healthy all along.
   */
  lemma RestoredIffHealthy(ids: seq<string>, rows: Table, rows': Table, before: Registry, after: Registry, a: Answers, id: string)
    requires Lists(ids, rows) && AllReadable(ids, rows) && AllDone(ids, |ids|, rows, rows', before, after, a)
    requires id in ids && id !in before && Trim(id) != "" && rows[id].state != Terminated && Reliable(id, a)
    ensures id in rows' && (id in after ==> rows'[id].state == Healthy)
    ensures SetbackFits(rows[id], true) ==> (rows'[id].state == Healthy <==> id in after)
    ensures !InTmux(rows[id].details.transport, rows[id].details.target) || Taken(before, id, rows[id]) ==>
              id !in after && (rows'[id].state == Healthy <==> rows[id].state == Healthy && !SetbackFits(rows[id], true))
  {
    var row := rows[id];
    var k :| 0 <= k < |ids| && ids[k] == id;
    assert Done(ids, k, rows, rows', before, after, a);
    var owned := Claimed(ids, k, rows, before, a, row.details.target);
    assert Taken(before, id, row) ==> owned;
    hide After, Reachable, Taken, Fits, Trim, Reliable, Claimed;
    HealthyIffRegistered(id, row, owned, a);
  }

  /** Of the rows with one target nobody had before the pass, the first in order whose tmux session is reachable is registered, no other. */
  lemma FirstReachableIsRegistered(ids: seq<string>, rows: Table, rows': Table, before: Registry, after: Registry, a: Answers, k: nat)
    requires AllDone(ids, |ids|, rows, rows', before, after, a) && k < |ids| && ids[k] !in before && ids[k] in rows
    ensures var target := rows[ids[k]].details.target;
            ids[k] in after <==>
              && Claims(ids[k], rows, before, a, target)
              && (forall other :: !Owns(before, other, target))
              && forall j :: 0 <= j < k ==> !Claims(ids[j], rows, before, a, target)
  {
    assert Done(ids, k, rows, rows', before, after, a);
    hide AllDone, Reachable, InTmux, After, Taken;
  }

  /** Two healthy rows with the same long target: the first is registered, the second stays healthy without being so. */
  lemma LongDuplicateStaysHealthy(details: Details, at: int, rows': Table, after: Registry, a: Answers)
    requires details.transport == "tmux" && details.target == LongTarget()
    requires a.discovered.Some? && LongTarget() in a.discovered.value && a.captureError("a").None?
    requires var row := Row(details, at, Healthy, "", at, None);
             AllDone(["a", "b"], 2, map["a" := row, "b" := row], rows', map[], after, a)
    ensures "a" in after && "b" !in after
    ensures "b" in rows' && rows'["b"] == Row(details, at, Healthy, "", at, None)
  {
    var row := Row(details, at, Healthy, "", at, None);
    var ids, rows := ["a", "b"], map["a" := row, "b" := row];
    LongTargetInTmux();
    assert Done(ids, 0, rows, rows', map[], after, a) && Done(ids, 1, rows, rows', map[], after, a);
    hide AllDone, LongTarget, HasPrefix, After, Trim;
    assert Claims(ids[0], rows, map[], a, LongTarget());
    LongTargetStaysHealthy("b", details, at, a);
  }

  /** After the whole pass every row that may be restored is where the answers say, its target taken or not as it came up. */
  lemma PassEndsRight(ids: seq<string>, rows: Table, rows': Table, before: Registry, after: Registry, a: Answers, k: nat)
    requires AllDone(ids, |ids|, rows, rows', before, after, a) && k < |ids| && ids[k] !in before && ids[k] in rows
    requires Restorable(ids[k], rows[ids[k]], a)
    ensures ids[k] in rows'
    ensures var row := rows[ids[k]];
            var owned := Claimed(ids, k, rows, before, a, row.details.target);
            EndsRight(ids[k], row, rows'[ids[k]].state, owned, a) && Explained(ids[k], row, rows'[ids[k]], owned, a)
  {
    assert Done(ids, k, rows, rows', before, after, a);
    hide AllDone, Claimed, EndsRight, Explained, Restorable, After;
    var row := rows[ids[k]];
    RowEndsRight(ids[k], row, Claimed(ids, k, rows, before, a, row.details.target), a);
  }

  /** tmux cannot say whether the session is there, or whose it is. */
  predicate NotAnswered(id: string, row: Row, a: Answers) {
    || a.discovered.None?
    || (ListedByTmux(row, a) && NotProvenOurs(id, row, a) && a.environment(id).Failure?)
  }

  class Daemon {
    const db: Store
    var registry: Registry

    constructor (db: Store, registry: Registry)
      ensures this.db == db && this.registry == registry
    {
      this.db, this.registry := db, registry;
    }

    method OwnedTargets() returns (owned: set<string>)
      ensures Tracks(owned, registry)
    {
      hide Trim;
      owned := {};
      var todo := registry.Keys;
      while todo != {}
        invariant todo <= registry.Keys
        invariant forall id, target :: Owns(registry, id, target) && id !in todo ==> target in owned
        invariant forall target :: target in owned ==> exists id :: Owns(registry, id, target)
      {
        var id :| id in todo;
        var e := registry[id];
        if InTmux(e.transport, e.target) {
          assert Owns(registry, id, e.target);
          owned := owned + {e.target};
        }
        todo := todo - {id};
      }
    }

    /**
     The whole pass over the rows `ids`. Nothing happens when one of them cannot be read.
     */
    method RestoreSessions(ids: seq<string>, a: Answers) returns (restored: nat, stale: nat)
      requires Lists(ids, db.rows)
      modifies this, db
      ensures Kept(old(registry), registry) && Added(ids, old(registry), registry)
      ensures Earned(old(db.rows), old(registry), registry, a)
      ensures Separate(old(registry)) ==> Separate(registry)
      ensures |registry| == |old(registry)| + restored
      ensures OthersStay(ids, old(db.rows), db.rows, old(registry))
      ensures if AllReadable(ids, old(db.rows)) then AllDone(ids, |ids|, old(db.rows), db.rows, old(registry), registry, a)
              else db.rows == old(db.rows) && registry == old(registry)
    {
      hide ValidRecord, Tracks, Registers, After, NewEntry, Separate, Kept, Earned, AllDone, OthersStay, Added, Tally;
      restored, stale := 0, 0;
      ghost var before, rows := registry, db.rows;
      var owned := OwnedTargets();
      Outset(ids, rows, before, owned, a);
      if !AllReadable(ids, db.rows) {
        Unfold(ids, 0, rows, db.rows, before, registry, owned, a);
        return;
      }
      var stored := db.rows;
      for i := 0 to |ids|
        invariant Halfway(ids, i, rows, db.rows, before, registry, owned, a)
        invariant |registry| == |before| + restored
      {
        var id := ids[i];
        if id in registry {
          AlreadyThere(ids, i, rows, db.rows, before, registry, owned, a);
          continue;
        }
        ghost var rows1, r1, owned1 := db.rows, registry, owned;
        NotYet(ids, i, rows, db.rows, before, registry, owned, a);
        var registered, lost := RestoreRow(id, stored[id], owned, a);
        if registered {
          owned := owned + {stored[id].details.target};
          restored := restored + 1;
        } else if lost {
          stale := stale + 1;
        }
        OneMore(ids, i, rows, rows1, db.rows, before, r1, registry, owned1, a);
      }
      Unfold(ids, |ids|, rows, db.rows, before, registry, owned, a);
    }

    method TransitionSessionRecovery(id: string, next: State, reason: string, a: Answers)
      requires id in db.rows
      modifies db
      ensures db.rows == old(db.rows)[id := Moved(id, old(db.rows)[id], next, reason, a)]
    {
      if !a.fails(id, next) {
        var _ := db.SessionTransitionRecovery(id, next, reason, Some(a.now));
      }
    }

    /** The error of the capture, if it fails; otherwise the session is registered. */
    method RestoreTmuxSession(id: string, row: Row, a: Answers) returns (error: Option<string>)
      requires id !in registry
      modifies this
      ensures error == a.captureError(id)
      ensures registry == if error.None? then old(registry)[id := NewEntry(row)] else old(registry)
    {
      error := a.captureError(id);
      if error.Some? {
        return;
      }
      var name := Trim(row.details.name);
      if name == "" {
        name := "tmux:" + row.details.target;
      }
      var agent := Trim(row.details.agent);
      if agent == "" {
        agent := "tmux";
      }
      registry := registry[id := Entry(name, agent, "tmux", row.details.target)];
    }

    method ManagedTmuxOwnership(id: string, row: Row, a: Answers) returns (reply: Reply)
      ensures reply == Ownership(id, row, a)
    {
      if !HasPrefix(row.details.target, "onibi-") || row.details.agent == "tmux" {
        return Value(id);
      }
      reply := a.environment(id);
    }

    /** One row that is not registered yet. */
    method RestoreRow(id: string, row: Row, owned: set<string>, a: Answers) returns (registered: bool, stale: bool)
      requires id in db.rows && db.rows[id] == row && id !in registry
      modifies this, db
      ensures var o := row.details.target in owned;
              && registered == Registers(id, row, o, a) && !(registered && stale)
              && db.rows == old(db.rows)[id := After(id, row, o, a)]
              && (Restorable(id, row, a) ==> EndsRight(id, row, db.rows[id].state, o, a) && Explained(id, row, db.rows[id], o, a))
              && (stale <==> !registered && (!InTmux(row.details.transport, row.details.target) || o || !(NotAnswered(id, row, a))))
      ensures registry == if registered then old(registry)[id := NewEntry(row)] else old(registry)
    {
      hide Moved, Trim, Restorable, EndsRight, Explained;
      if Restorable(id, row, a) { RowEndsRight(id, row, row.details.target in owned, a); }
      var target := row.details.target;
      if !InTmux(row.details.transport, target) {
        TransitionSessionRecovery(id, Failed, "unsupported restart transport=" + row.details.transport, a);
        return false, true;
      }
      if target in owned {
        TransitionSessionRecovery(id, Failed, "duplicate tmux ownership target=" + target, a);
        return false, true;
      }
      TransitionSessionRecovery(id, Recovering, "daemon restart", a);
      registered, stale := RestoreLive(id, row, a);
    }

    /** The rest of it, for a row whose target nobody has. */
    method RestoreLive(id: string, row: Row, a: Answers) returns (registered: bool, stale: bool)
      requires id in db.rows && id !in registry && InTmux(row.details.transport, row.details.target)
      modifies this, db
      ensures registered == Registers(id, row, false, a) && !(registered && stale)
      ensures stale <==> !registered && !NotAnswered(id, row, a)
      ensures var (next, reason) := Setback(id, row, false, a);
              db.rows == old(db.rows)[id := Moved(id, old(db.rows)[id], next, reason, a)]
      ensures registry == if registered then old(registry)[id := NewEntry(row)] else old(registry)
    {
      ReachableIff(id, row, a);
      hide Moved, Trim, NewEntry;
      if a.discovered.None? {
        TransitionSessionRecovery(id, Reconnecting, "tmux discovery unavailable: " + a.discoveryError, a);
        return false, false;
      }
      if row.details.target !in a.discovered.value {
        TransitionSessionRecovery(id, Orphaned, "tmux target absent after discovery", a);
        return false, true;
      }
      var reply := ManagedTmuxOwnership(id, row, a);
      if reply.Failure? {
        TransitionSessionRecovery(id, Reconnecting, "tmux ownership lookup unavailable: " + reply.error, a);
        return false, false;
      }
      if reply != Value(id) {
        TransitionSessionRecovery(id, Orphaned, "tmux ownership identity mismatch", a);
        return false, true;
      }
      var error := RestoreTmuxSession(id, row, a);
      if error.Some? {
        TransitionSessionRecovery(id, Reconnecting, "tmux capture unavailable: " + error.value, a);
        return false, true;
      }
      TransitionSessionRecovery(id, Healthy, "", a);
      return true, false;
    }
  }
}
