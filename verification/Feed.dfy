/**
 A subscriber of approval events: a bounded channel that gives up its oldest event, and a reader
 that may receive at any moment, also between the publisher's attempts.
 */
module Feed {

  /** `eventTypeForVerdict`: any verdict but expiry makes a decided event. */
  datatype Event = Requested(id: string) | Decided(id: string) | Expired(id: string)

  const CAPACITY: nat := 64

  /** `at`: where in the stream each received event stood; `fell`: how often an event was given up. */
  datatype Feed = Feed(queue: seq<Event>, published: seq<Event>, at: seq<int>, fell: nat)

  /** `early`, `late`: what the reader receives before and after the oldest event is given up. */
  datatype Action = Publish(event: Event, early: nat, late: nat) | Receive

  function Begun(): Feed {
    Feed([], [], [], 0)
  }

  function Received(f: Feed): Feed {
    if f.queue == [] then f else f.(queue := f.queue[1..], at := f.at + [|f.published| - |f.queue|])
  }

  function Receives(f: Feed, n: nat): Feed
    decreases n
  {
    if n == 0 then f else Receives(Received(f), n - 1)
  }

  function GivenUp(f: Feed): Feed {
    if f.queue == [] then f else f.(queue := f.queue[1..], fell := f.fell + 1)
  }

  /** `case ch <- ev` of a select with a default. */
  function Offered(f: Feed, e: Event): Feed {
    if |f.queue| < CAPACITY then f.(queue := f.queue + [e], published := f.published + [e]) else f
  }

  function Next(f: Feed, a: Action): Feed {
    match a
    case Receive => Received(f)
    case Publish(e, early, late) =>
      if |f.queue| < CAPACITY then Offered(f, e) else Offered(Receives(GivenUp(Receives(f, early)), late), e)
  }

  function Run(f: Feed, actions: seq<Action>): Feed
    decreases |actions|
  {
    if actions == [] then f else Run(Next(f, actions[0]), actions[1..])
  }

  function Stream(actions: seq<Action>): seq<Event> {
    if actions == [] then [] else (if actions[0].Publish? then [actions[0].event] else []) + Stream(actions[1..])
  }

  /** The queue holds the newest events; what was received came in order from before them; nothing else is missing. */
  ghost predicate Good(f: Feed) {
    && |f.queue| <= CAPACITY && |f.queue| <= |f.published|
    && f.queue == f.published[|f.published| - |f.queue|..]
    && |f.at| + f.fell + |f.queue| == |f.published|
    && Rising(f.at, |f.published| - |f.queue|)
  }

  ghost predicate Rising(at: seq<int>, n: int) {
    && (forall i :: 0 <= i < |at| ==> 0 <= at[i] < n)
    && (forall i, j :: 0 <= i < j < |at| ==> at[i] < at[j])
  }

  lemma ReceivedGood(f: Feed)
    requires Good(f)
    ensures Good(Received(f)) && Received(f).published == f.published && Received(f).fell == f.fell
    ensures |Received(f).queue| <= |f.queue|
  {
    if f.queue != [] {
      RisesFurther(f.at, |f.published| - |f.queue|);
      hide Rising;
      assert f.queue[1..] == f.published[|f.published| - |f.queue| + 1..];
    }
  }

  lemma RisesFurther(at: seq<int>, n: nat)
    requires Rising(at, n)
    ensures Rising(at + [n], n + 1)
  {}

  lemma {:induction false} ReceivesGood(f: Feed, n: nat)
    requires Good(f)
    ensures Good(Receives(f, n)) && Receives(f, n).published == f.published && Receives(f, n).fell == f.fell
    ensures |Receives(f, n).queue| <= |f.queue|
    decreases n
  {
    hide Good, Received;
    if n > 0 {
      ReceivedGood(f);
      ReceivesGood(Received(f), n - 1);
    }
  }

  lemma GivenUpGood(f: Feed)
    requires Good(f)
    ensures Good(GivenUp(f)) && GivenUp(f).published == f.published && |GivenUp(f).queue| < CAPACITY
  {
    if f.queue != [] { assert f.queue[1..] == f.published[|f.published| - |f.queue| + 1..]; }
  }

  lemma OfferedGood(f: Feed, e: Event)
    requires Good(f) && |f.queue| < CAPACITY
    ensures Good(Offered(f, e)) && Offered(f, e).published == f.published + [e] && Offered(f, e).fell == f.fell
    ensures Offered(f, e).queue == f.queue + [e]
  {}

  /** Every event reaches the channel, as its newest; only a full channel gives one up. */
  lemma PublishGood(f: Feed, a: Action)
    requires Good(f) && a.Publish?
    ensures var f' := Next(f, a);
            && Good(f') && f'.published == f.published + [a.event]
            && f'.queue != [] && f'.queue[|f'.queue| - 1] == a.event
            && (|f.queue| < CAPACITY ==> f'.fell == f.fell)
  {
    hide Good, Receives, GivenUp, Offered;
    if |f.queue| < CAPACITY {
      OfferedGood(f, a.event);
    } else {
      ReceivesGood(f, a.early);
      var f1 := GivenUp(Receives(f, a.early));
      GivenUpGood(Receives(f, a.early));
      ReceivesGood(f1, a.late);
      OfferedGood(Receives(f1, a.late), a.event);
    }
  }

  lemma {:induction false} RunGood(f: Feed, actions: seq<Action>)
    requires Good(f)
    ensures Good(Run(f, actions)) && Run(f, actions).published == f.published + Stream(actions)
    decreases |actions|
  {
    hide Good, Next;
    if actions != [] {
      var a := actions[0];
      if a.Publish? { PublishGood(f, a); } else { NextReceives(f, a); ReceivedGood(f); }
      RunGood(Next(f, a), actions[1..]);
      StreamStep(f.published, actions);
    }
  }

  lemma StreamStep(before: seq<Event>, actions: seq<Action>)
    requires actions != []
    ensures before + Stream(actions) ==
              (if actions[0].Publish? then before + [actions[0].event] else before) + Stream(actions[1..])
  {}

  lemma NextReceives(f: Feed, a: Action)
    requires a.Receive?
    ensures Next(f, a) == Received(f)
  {}

  lemma {:induction false} NothingMissing(at: seq<int>, n: int, i: nat)
    requires Rising(at, n) && |at| == n && i < n
    ensures at[i] == i
  {
    RisesByOne(at, n, i);
    RisesFromZero(at, n, i);
  }

  lemma {:induction false} RisesFromZero(at: seq<int>, n: int, i: nat)
    requires Rising(at, n) && i < |at|
    ensures at[i] >= i
  {
    if i > 0 { RisesFromZero(at, n, i - 1); }
  }

  lemma {:induction false} RisesByOne(at: seq<int>, n: int, i: nat)
    requires Rising(at, n) && i < |at|
    ensures at[i] <= n - (|at| - i)
    decreases |at| - i
  {
    if i < |at| - 1 { RisesByOne(at, n, i + 1); }
  }

  /**
   In every run: the channel holds the newest events of the stream in order, the received ones came from
   before those, in order, and each other one was given up. If none was, the reader saw the stream from its start.
   */
  lemma SeesTheStream(actions: seq<Action>)
    ensures var f, all := Run(Begun(), actions), Stream(actions);
            var n := |all| - |f.queue|;
            && 0 <= n && f.queue == all[n..] && |f.queue| <= CAPACITY
            && Rising(f.at, n) && |f.at| + f.fell == n
            && (f.fell == 0 ==> forall i :: 0 <= i < |f.at| ==> f.at[i] == i)
  {
    hide Run, Stream, Rising;
    BegunGood();
    RunGood(Begun(), actions);
    var f, all := Run(Begun(), actions), Stream(actions);
    assert [] + all == all;
    if f.fell == 0 {
      forall i | 0 <= i < |f.at| ensures f.at[i] == i { NothingMissing(f.at, |f.at|, i); }
    }
  }

  lemma BegunGood()
    ensures Good(Begun())
  {}
}
