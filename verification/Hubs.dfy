/**
 * The event hubs as one state machine. Subscribing, leaving, sending and receiving are steps; a send visits every
 * channel of its room in one step. Channels are named by values of type `C`.
 */
module Hubs {
  import opened Wrappers

  /** How the three hubs differ: buffer size, recovery from a panic on send, and whether leaving twice is harmless. */
  datatype Kind = Kind(capacity: nat, recovers: bool, leavesOnce: bool)

  const VIDEO := Kind(10, false, false)
  const CHAT := Kind(20, true, false)
  const NOTIFICATION := Kind(16, false, true)

  datatype Channel<M> = Channel(key: string, open: bool, buffer: seq<M>, received: seq<M>)

  datatype State<C, M> = State(channels: map<C, Channel<M>>, rooms: map<string, set<C>>)

  datatype Event<C, M> =
    | Subscribe(key: string, ch: C)
    | Unsubscribe(ch: C)
    | Send(key: string, msg: M)
    | Receive(ch: C)

  // ---------------------------------------------------------------- the hub

  ghost predicate Registered<C, M>(s: State<C, M>, key: string, c: C) {
    key in s.rooms && c in s.rooms[key]
  }

  /** A channel can be handed out only once, and used only after that. */
  ghost predicate Possible<C, M>(s: State<C, M>, e: Event<C, M>) {
    match e
    case Subscribe(_, c) => c !in s.channels
    case Unsubscribe(c) => c in s.channels
    case Receive(c) => c in s.channels
    case Send(_, _) => true
  }

  /** A non-blocking send: a full channel, or one whose panic is recovered, stays as it is. */
  function Push<M>(cap: nat, ch: Channel<M>, m: M): Channel<M> {
    if ch.open && |ch.buffer| < cap then ch.(buffer := ch.buffer + [m]) else ch
  }

  function Pop<M>(ch: Channel<M>): Channel<M> {
    if ch.buffer == [] then ch else ch.(buffer := ch.buffer[1..], received := ch.received + [ch.buffer[0]])
  }

  ghost function Join<C>(rooms: map<string, set<C>>, key: string, c: C): map<string, set<C>> {
    rooms[key := (if key in rooms then rooms[key] else {}) + {c}]
  }

  /** Takes a channel out of its room, and the room out of the map once it is empty. */
  ghost function Leave<C>(rooms: map<string, set<C>>, key: string, c: C): map<string, set<C>> {
    if key !in rooms then rooms
    else if rooms[key] - {c} == {} then rooms - {key}
    else rooms[key := rooms[key] - {c}]
  }

  ghost function Deliver<C, M>(cap: nat, s: State<C, M>, key: string, m: M): map<C, Channel<M>> {
    map c | c in s.channels :: if Registered(s, key, c) then Push(cap, s.channels[c], m) else s.channels[c]
  }

  /** One step; `None` is a panic: closing a closed channel, or an unrecovered send on one. */
  ghost function Step<C, M>(kind: Kind, s: State<C, M>, e: Event<C, M>): Option<State<C, M>>
    requires Possible(s, e)
  {
    match e
    case Subscribe(key, c) => Some(State(s.channels[c := Channel(key, true, [], [])], Join(s.rooms, key, c)))
    case Unsubscribe(c) =>
      var ch := s.channels[c];
      if kind.leavesOnce && !Registered(s, ch.key, c) then Some(s)
      else if !ch.open then None
      else Some(State(s.channels[c := ch.(open := false)], Leave(s.rooms, ch.key, c)))
    case Send(key, m) =>
      if !kind.recovers && exists c :: c in s.channels && Registered(s, key, c) && !s.channels[c].open then None
      else Some(s.(channels := Deliver(kind.capacity, s, key, m)))
    case Receive(c) => Some(s.(channels := s.channels[c := Pop(s.channels[c])]))
  }

  /** A whole run from the empty hub; impossible events are ignored, and nothing follows a panic. */
  ghost function Run<C, M>(kind: Kind, es: seq<Event<C, M>>): Option<State<C, M>> {
    if es == [] then Some(State(map[], map[]))
    else
      var n := |es| - 1;
      match Run(kind, es[..n])
      case None => None
      case Some(s) => if Possible(s, es[n]) then Step(kind, s, es[n]) else Some(s)
  }

  // ---------------------------------------------------------------- the reference: one bounded queue per subscriber

  datatype Seat = Never | In(key: string) | Left(key: string)

  datatype Queue<M> = Queue(seat: Seat, buffer: seq<M>, received: seq<M>)

  /** What one event means to one subscriber, who knows nothing of rooms, other channels or panics. */
  function Follow<C(==), M>(cap: nat, q: Queue<M>, e: Event<C, M>, c: C): Queue<M> {
    match e
    case Subscribe(key, d) => if d == c && q.seat == Never then q.(seat := In(key)) else q
    case Unsubscribe(d) => if d == c && q.seat.In? then q.(seat := Left(q.seat.key)) else q
    case Send(key, m) => if q.seat == In(key) && |q.buffer| < cap then q.(buffer := q.buffer + [m]) else q
    case Receive(d) => if d == c && q.buffer != [] then Queue(q.seat, q.buffer[1..], q.received + [q.buffer[0]]) else q
  }

  function Solo<C(==), M>(cap: nat, es: seq<Event<C, M>>, c: C): Queue<M> {
    if es == [] then Queue(Never, [], []) else Follow(cap, Solo(cap, es[..|es| - 1], c), es[|es| - 1], c)
  }

  /** The hub shows subscriber `c` exactly the queue `q`. */
  ghost predicate Shows<C, M>(s: State<C, M>, c: C, q: Queue<M>) {
    && (c in s.channels <==> q.seat != Never)
    && (q.seat == Never ==> q.buffer == [] && q.received == [])
    && (c in s.channels ==> s.channels[c] == Channel(q.seat.key, q.seat.In?, q.buffer, q.received))
    && (forall key :: Registered(s, key, c) <==> q.seat == In(key))
  }

  /** Registered channels are open and filed under their own key, and no empty room is left behind. */
  ghost predicate Tidy<C, M>(s: State<C, M>) {
    && (forall key :: key in s.rooms ==> s.rooms[key] != {})
    && (forall key, c :: key in s.rooms && c in s.rooms[key] ==>
          c in s.channels && s.channels[c].open && s.channels[c].key == key)
  }

  /** The event is a second unsubscribe of a channel, given what happened before it. */
  predicate LeavesAgain<C(==), M>(es: seq<Event<C, M>>, e: Event<C, M>) {
    e.Unsubscribe? && Solo(0, es, e.ch).seat.Left?
  }

  // ---------------------------------------------------------------- the hub is a family of independent queues

  /** Membership does not depend on the buffer size. */
  lemma {:induction false} SeatIgnoresCapacity<C, M>(cap: nat, es: seq<Event<C, M>>, c: C)
    ensures Solo(cap, es, c).seat == Solo(0, es, c).seat
  {
    if es != [] {
      SeatIgnoresCapacity(cap, es[..|es| - 1], c);
    }
  }

  /** One step of the hub is one event of every subscriber's queue. */
  lemma StepShows<C, M>(kind: Kind, s: State<C, M>, e: Event<C, M>, t: State<C, M>, c: C, q: Queue<M>)
    requires Possible(s, e) && Step(kind, s, e) == Some(t) && Shows(s, c, q)
    ensures Shows(t, c, Follow(kind.capacity, q, e, c))
  {
    match e
    case Unsubscribe(d) =>
      if t != s && Registered(s, s.channels[d].key, c) && c != d {
        assert c in s.rooms[s.channels[d].key] - {d};
      }
    case _ => assert forall k :: Registered(t, k, c) <==> Registered(s, k, c) || e == Subscribe(k, c);
  }

  lemma StepKeepsTidy<C, M>(kind: Kind, s: State<C, M>, e: Event<C, M>, t: State<C, M>)
    requires Possible(s, e) && Step(kind, s, e) == Some(t) && Tidy(s)
    ensures Tidy(t)
  {
    match e
    case Unsubscribe(c) =>
      if t != s {
        var key := s.channels[c].key;
        assert forall d :: Registered(t, key, d) ==> d != c && Registered(s, key, d);
      }
    case _ =>
  }

  /** A step panics exactly when it closes a closed channel in a hub that does not look first. */
  lemma StepPanicsIff<C, M>(kind: Kind, s: State<C, M>, e: Event<C, M>)
    requires Possible(s, e) && Tidy(s)
    ensures Step(kind, s, e) == None <==> !kind.leavesOnce && e.Unsubscribe? && !s.channels[e.ch].open
  {
  }

  /** A room holds open channels only, and taking a closed channel out of it changes nothing. */
  lemma TidyRoom<C, M>(s: State<C, M>, key: string)
    requires Tidy(s)
    ensures key in s.rooms ==>
      s.rooms[key] != {} && forall c :: c in s.rooms[key] ==> c in s.channels && s.channels[c].open
    ensures forall c :: c in s.channels && !s.channels[c].open ==> Leave(s.rooms, key, c) == s.rooms
  {
    forall c | c in s.channels && !s.channels[c].open ensures Leave(s.rooms, key, c) == s.rooms {
      assert key in s.rooms ==> s.rooms[key] - {c} == s.rooms[key];
    }
  }

  /** Every reachable state is tidy. */
  lemma {:induction false} TidyRun<C, M>(kind: Kind, es: seq<Event<C, M>>)
    requires Run(kind, es).Some?
    ensures Tidy(Run(kind, es).value)
  {
    hide Step, Tidy;
    if es == [] {
      EmptyTidy<C, M>();
    } else {
      var n := |es| - 1;
      TidyRun(kind, es[..n]);
      var s := Run(kind, es[..n]).value;
      if Possible(s, es[n]) {
        StepKeepsTidy(kind, s, es[n], Run(kind, es).value);
      }
    }
  }

  /** Every reachable state shows each subscriber precisely its own bounded queue. */
  lemma {:induction false} HubIsQueues<C, M>(kind: Kind, es: seq<Event<C, M>>, c: C)
    requires Run(kind, es).Some?
    ensures Shows(Run(kind, es).value, c, Solo(kind.capacity, es, c))
  {
    hide Step, Shows, Follow;
    if es == [] {
      EmptyShows<C, M>(c);
    } else {
      var n := |es| - 1;
      HubIsQueues(kind, es[..n], c);
      var s, t := Run(kind, es[..n]).value, Run(kind, es).value;
      if Possible(s, es[n]) {
        StepShows(kind, s, es[n], t, c, Solo(kind.capacity, es[..n], c));
      } else {
        ImpossibleIgnored(kind.capacity, s, es[n], c, Solo(kind.capacity, es[..n], c));
      }
    }
  }

  lemma EmptyShows<C, M>(c: C)
    ensures Shows(State<C, M>.State(map[], map[]), c, Queue(Never, [], []))
  {
  }

  lemma EmptyTidy<C, M>()
    ensures Tidy(State<C, M>.State(map[], map[]))
  {
  }

  lemma ImpossibleIgnored<C, M>(cap: nat, s: State<C, M>, e: Event<C, M>, c: C, q: Queue<M>)
    requires !Possible(s, e) && Shows(s, c, q)
    ensures Follow(cap, q, e, c) == q
  {
  }

  // ---------------------------------------------------------------- panics

  /** No event of the run is a second unsubscribe. */
  predicate LeaveOnceEach<C(==), M>(es: seq<Event<C, M>>) {
    forall i :: 0 <= i < |es| ==> !LeavesAgain(es[..i], es[i])
  }

  lemma LeaveOnceEachStep<C, M>(es: seq<Event<C, M>>)
    requires es != []
    ensures var n := |es| - 1; LeaveOnceEach(es) <==> LeaveOnceEach(es[..n]) && !LeavesAgain(es[..n], es[n])
  {
    var n := |es| - 1;
    assert forall i :: 0 <= i < n ==> es[..n][..i] == es[..i];
  }

  /** A run panics exactly when a channel is unsubscribed twice in a hub that does not look first. */
  lemma {:induction false} RunPanicsIff<C, M>(kind: Kind, es: seq<Event<C, M>>)
    ensures Run(kind, es) == None <==> !kind.leavesOnce && !LeaveOnceEach(es)
  {
    hide Step, Shows, Tidy;
    if es != [] {
      var n := |es| - 1;
      RunPanicsIff(kind, es[..n]);
      LeaveOnceEachStep(es);
      var before := Run(kind, es[..n]);
      if before.Some? {
        NextPanicsIff(kind, es, before.value);
      }
    }
  }

  lemma NextPanicsIff<C, M>(kind: Kind, es: seq<Event<C, M>>, s: State<C, M>)
    requires es != [] && Run(kind, es[..|es| - 1]) == Some(s)
    ensures var n := |es| - 1; Run(kind, es) == None <==> !kind.leavesOnce && LeavesAgain(es[..n], es[n])
  {
    hide Step, Tidy;
    var n := |es| - 1;
    TidyRun(kind, es[..n]);
    if es[n].Unsubscribe? {
      HubIsQueues(kind, es[..n], es[n].ch);
      SeatIgnoresCapacity(kind.capacity, es[..n], es[n].ch);
    }
    if Possible(s, es[n]) {
      StepPanicsIff(kind, s, es[n]);
    }
  }

  // ---------------------------------------------------------------- what a subscriber receives

  /** Event `i` is a message sent to the room the subscriber was in at that moment. */
  predicate Offered<C(==), M>(cap: nat, es: seq<Event<C, M>>, c: C, i: nat)
    requires i < |es|
  {
    es[i].Send? && Solo(cap, es[..i], c).seat == In(es[i].key)
  }

  /** `got` lists, in order, the events whose messages the subscriber has received or still holds. */
  ghost predicate Delivers<C, M>(es: seq<Event<C, M>>, got: seq<nat>, messages: seq<M>) {
    && |got| == |messages|
    && (forall j, k :: 0 <= j < k < |got| ==> got[j] < got[k])
    && (forall j :: 0 <= j < |got| ==> got[j] < |es| && es[got[j]].Send? && es[got[j]].msg == messages[j])
  }

  /** Exactly the offered messages that found room are in `got`. */
  ghost predicate Exact<C, M>(cap: nat, es: seq<Event<C, M>>, c: C, got: seq<nat>) {
    forall i {:trigger i in got} :: 0 <= i < |es| ==>
      (i in got <==> Offered(cap, es, c, i) && |Solo(cap, es[..i], c).buffer| < cap)
  }

  lemma ExactGrows<C, M>(cap: nat, es: seq<Event<C, M>>, c: C, got: seq<nat>, now: seq<nat>)
    requires es != [] && Exact(cap, es[..|es| - 1], c, got)
    requires forall j :: 0 <= j < |got| ==> got[j] < |es| - 1
    requires var n := |es| - 1;
      now == if Offered(cap, es, c, n) && |Solo(cap, es[..n], c).buffer| < cap then got + [n] else got
    ensures Exact(cap, es, c, now)
  {
    hide Solo;
    var n := |es| - 1;
    forall i | 0 <= i < |es|
      ensures i in now <==> Offered(cap, es, c, i) && |Solo(cap, es[..i], c).buffer| < cap
    {
      if i < n {
        assert es[..n][..i] == es[..i];
        assert i in now <==> i in got;
      }
    }
  }

  lemma {:induction false} QueueDelivers<C, M>(cap: nat, es: seq<Event<C, M>>, c: C) returns (got: seq<nat>)
    ensures var q := Solo(cap, es, c); Delivers(es, got, q.received + q.buffer) && |q.buffer| <= cap
    ensures Exact(cap, es, c, got)
  {
    got := [];
    if es != [] {
      var n := |es| - 1;
      var past := QueueDelivers(cap, es[..n], c);
      var q := Solo(cap, es[..n], c);
      got := if Offered(cap, es, c, n) && |q.buffer| < cap then past + [n] else past;
      ExactGrows(cap, es, c, past, got);
      FollowDelivers(cap, es, c, q, past, got);
    }
  }

  lemma FollowDelivers<C, M>(cap: nat, es: seq<Event<C, M>>, c: C, q: Queue<M>, past: seq<nat>, got: seq<nat>)
    requires es != [] && |q.buffer| <= cap && Delivers(es[..|es| - 1], past, q.received + q.buffer)
    requires var n := |es| - 1;
      got == if es[n].Send? && q.seat == In(es[n].key) && |q.buffer| < cap then past + [n] else past
    ensures var r := Follow(cap, q, es[|es| - 1], c); Delivers(es, got, r.received + r.buffer) && |r.buffer| <= cap
  {
    hide Follow, Delivers;
    var n := |es| - 1;
    var r := Follow(cap, q, es[n], c);
    FollowHolds(cap, q, es[n], c);
    if es[n].Send? && q.seat == In(es[n].key) && |q.buffer| < cap {
      DeliversOneMore(es, past, q.received + q.buffer);
    } else {
      DeliversSame(es, past, q.received + q.buffer);
    }
  }

  /** What a queue holds after an event: one more message, or the same ones, received or not. */
  lemma FollowHolds<C, M>(cap: nat, q: Queue<M>, e: Event<C, M>, c: C)
    requires |q.buffer| <= cap
    ensures var r := Follow(cap, q, e, c);
      && |r.buffer| <= cap
      && r.received + r.buffer ==
         q.received + q.buffer + (if e.Send? && q.seat == In(e.key) && |q.buffer| < cap then [e.msg] else [])
  {
  }

  lemma DeliversSame<C, M>(es: seq<Event<C, M>>, got: seq<nat>, messages: seq<M>)
    requires es != [] && Delivers(es[..|es| - 1], got, messages)
    ensures Delivers(es, got, messages + [])
  {
    assert messages + [] == messages;
  }

  lemma DeliversOneMore<C, M>(es: seq<Event<C, M>>, got: seq<nat>, messages: seq<M>)
    requires es != [] && es[|es| - 1].Send? && Delivers(es[..|es| - 1], got, messages)
    ensures Delivers(es, got + [|es| - 1], messages + [es[|es| - 1].msg])
  {
  }

  lemma RunPrefix<C, M>(kind: Kind, es: seq<Event<C, M>>, i: nat)
    requires i <= |es| && Run(kind, es).Some?
    ensures Run(kind, es[..i]).Some?
  {
    RunPanicsIff(kind, es);
    RunPanicsIff(kind, es[..i]);
    assert forall j :: 0 <= j < i ==> es[..i][..j] == es[..j] && es[..i][j] == es[j];
  }

  /** The message of event `i` went to a room where `c` was registered with space left. */
  ghost predicate Fits<C, M>(kind: Kind, es: seq<Event<C, M>>, c: C, i: nat)
    requires i < |es| && Run(kind, es[..i]).Some?
  {
    var s := Run(kind, es[..i]).value;
    es[i].Send? && Registered(s, es[i].key, c) && c in s.channels && |s.channels[c].buffer| < kind.capacity
  }

  /** Every registered channel is open and within capacity, in every reachable state. */
  lemma RegisteredChannelsOpen<C, M>(kind: Kind, es: seq<Event<C, M>>, key: string, c: C)
    requires Run(kind, es).Some? && Registered(Run(kind, es).value, key, c)
    ensures var s := Run(kind, es).value;
      c in s.channels && s.channels[c].open && s.channels[c].key == key && |s.channels[c].buffer| <= kind.capacity
  {
    HubIsQueues(kind, es, c);
    var _ := QueueDelivers(kind.capacity, es, c);
  }

  /**
   * Over every run: what a subscriber has received and still holds is, in order, exactly the messages sent to its room
   * while it was registered, less those sent while its buffer was full.
   */
  lemma SubscriberGetsItsMessages<C, M>(kind: Kind, es: seq<Event<C, M>>, c: C) returns (got: seq<nat>)
    requires Run(kind, es).Some? && c in Run(kind, es).value.channels
    ensures var ch := Run(kind, es).value.channels[c]; Delivers(es, got, ch.received + ch.buffer)
    ensures forall i {:trigger i in got} :: 0 <= i < |es| ==>
      Run(kind, es[..i]).Some? && (i in got <==> Fits(kind, es, c, i))
  {
    hide Solo, Run;
    HubIsQueues(kind, es, c);
    got := QueueDelivers(kind.capacity, es, c);
    forall i | 0 <= i < |es|
      ensures Run(kind, es[..i]).Some? && (i in got <==> Fits(kind, es, c, i))
    {
      RunPrefix(kind, es, i);
      HubIsQueues(kind, es[..i], c);
    }
  }

  /** In the video and chat hubs a second unsubscribe panics whatever else happened; the notification hub ignores it. */
  lemma SecondUnsubscribe<C, M>(kind: Kind, es: seq<Event<C, M>>, c: C)
    requires Run(kind, es).Some? && c in Run(kind, es).value.channels && !Run(kind, es).value.channels[c].open
    ensures Run(kind, es + [Unsubscribe(c)]) == if kind.leavesOnce then Run(kind, es) else None
  {
    HubIsQueues(kind, es, c);
    assert (es + [Unsubscribe(c)])[..|es|] == es;
  }
}
