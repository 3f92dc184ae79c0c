/** The three hubs as objects over Go-like channels; each method is one step of the hub machine. */
module HubServices {
  import opened Wrappers
  import opened Hubs

  /** A buffered Go channel; `received` is what its reader has taken, `key` the room it was made for. */
  class Pipe<M> {
    const capacity: nat
    ghost const key: string
    var buffer: seq<M>
    var open: bool
    ghost var received: seq<M>

    ghost function Value(): Channel<M>
      reads this
    {
      Channel(key, open, buffer, received)
    }

    constructor (capacity: nat, ghost key: string)
      ensures this.capacity == capacity && this.key == key && Value() == Channel(key, true, [], [])
    {
      this.capacity, this.key := capacity, key;
      buffer, open, received := [], true, [];
    }

    /** `select { case ch <- msg: default: }`, which would panic on a closed channel. */
    method TrySend(m: M)
      requires open
      modifies this`buffer
      ensures Value() == Push(capacity, old(Value()), m)
    {
      if |buffer| < capacity {
        buffer := buffer + [m];
      }
    }

    /** `close(ch)`, which panics on a closed channel. */
    method Close()
      requires open
      modifies this`open
      ensures Value() == old(Value()).(open := false)
    {
      open := false;
    }

    /** `<-ch`: the oldest buffered message; `None` where the reader would wait or see the channel closed. */
    method Receive() returns (m: Option<M>)
      modifies this
      ensures Value() == Pop(old(Value()))
      ensures old(buffer) == (match m case None => [] case Some(x) => [x] + buffer)
    {
      if buffer == [] {
        return None;
      }
      m := Some(buffer[0]);
      received := received + [buffer[0]];
      buffer := buffer[1..];
    }
  }

  ghost function Values<M>(pipes: set<Pipe<M>>): (r: map<Pipe<M>, Channel<M>>)
    reads pipes
  {
    map p | p in pipes :: p.Value()
  }

  ghost predicate Sized<M>(pipes: set<Pipe<M>>, kind: Kind) {
    forall p :: p in pipes ==> p.capacity == kind.capacity
  }

  /** The send loop over one room, in any order. */
  method SendAll<M>(room: set<Pipe<M>>, m: M, ghost all: set<Pipe<M>>, kind: Kind)
    requires room <= all && Sized(all, kind)
    requires forall p :: p in room ==> p.open
    modifies room
    ensures forall p :: p in all ==>
      p.Value() == if p in room then Push(kind.capacity, old(p.Value()), m) else old(p.Value())
  {
    var todo := room;
    while todo != {}
      invariant todo <= room
      invariant forall p :: p in room ==> p.open
      invariant forall p :: p in all ==>
        p.Value() == if p in room - todo then Push(kind.capacity, old(p.Value()), m) else old(p.Value())
      decreases |todo|
    {
      var p :| p in todo;
      p.TrySend(m);
      todo := todo - {p};
    }
  }

  class ChatHub<M> {
    var rooms: map<string, set<Pipe<M>>>
    ghost var handed: set<Pipe<M>>

    ghost function Model(): State<Pipe<M>, M>
      reads this, handed
    {
      State(Values(handed), rooms)
    }

    ghost predicate Valid()
      reads this, handed
    {
      Tidy(Model()) && Sized(handed, CHAT)
    }

    constructor ()
      ensures Valid() && Model() == State(map[], map[])
    {
      rooms, handed := map[], {};
    }

    method Subscribe(streamId: string) returns (ch: Pipe<M>)
      requires Valid()
      modifies this
      ensures Valid() && fresh(ch) && handed == old(handed) + {ch}
      ensures Step(CHAT, old(Model()), Event.Subscribe(streamId, ch)) == Some(Model())
    {
      hide Tidy;
      ghost var before := Model();
      ch := new Pipe(20, streamId);
      if streamId !in rooms {
        rooms := rooms[streamId := {}];
      }
      rooms := rooms[streamId := rooms[streamId] + {ch}];
      handed := handed + {ch};
      assert rooms == Join(before.rooms, streamId, ch);
      assert Values(handed) == before.channels[ch := ch.Value()];
      StepKeepsTidy(CHAT, before, Event.Subscribe(streamId, ch), Model());
    }

    /** The closure `Subscribe` returned; `ok` is false where closing the closed channel panics. */
    method Unsubscribe(streamId: string, ch: Pipe<M>) returns (ok: bool)
      requires Valid() && ch in handed && ch.key == streamId
      modifies this, ch
      ensures Valid() && handed == old(handed)
      ensures Step(CHAT, old(Model()), Event.Unsubscribe(ch)) == if ok then Some(Model()) else None
      ensures !ok ==> Model() == old(Model())
    {
      hide Tidy;
      ghost var before := Model();
      assert before.channels[ch] == ch.Value();
      if streamId in rooms {
        rooms := rooms[streamId := rooms[streamId] - {ch}];
        if rooms[streamId] == {} {
          rooms := rooms - {streamId};
        }
      }
      assert rooms == Leave(before.rooms, streamId, ch);
      if !ch.open {
        TidyRoom(before, streamId);
        return false;
      }
      ch.Close();
      assert Values(handed) == before.channels[ch := ch.Value()];
      StepKeepsTidy(CHAT, before, Event.Unsubscribe(ch), Model());
      return true;
    }

    method Broadcast(streamId: string, msg: M)
      requires Valid()
      modifies handed
      ensures Valid()
      ensures Step(CHAT, old(Model()), Send(streamId, msg)) == Some(Model())
    {
      hide Tidy;
      ghost var before := Model();
      TidyRoom(before, streamId);
      if streamId in rooms {
        assert forall p :: p in rooms[streamId] ==> p in before.channels && before.channels[p] == p.Value();
        SendAll(rooms[streamId], msg, handed, CHAT);
      }
      assert Values(handed) == Deliver(20, before, streamId, msg);
      StepKeepsTidy(CHAT, before, Send(streamId, msg), Model());
    }
  }

  /** The hub of video status events: every client is in one nameless room. */
  class Hub<M> {
    var clients: set<Pipe<M>>
    ghost var handed: set<Pipe<M>>

    ghost function Model(): State<Pipe<M>, M>
      reads this, handed
    {
      State(Values(handed), OneRoom(clients))
    }

    ghost predicate Valid()
      reads this, handed
    {
      Tidy(Model()) && Sized(handed, VIDEO) && forall p :: p in handed ==> p.key == ""
    }

    constructor ()
      ensures Valid() && Model() == State(map[], map[])
    {
      clients, handed := {}, {};
    }

    method Subscribe() returns (ch: Pipe<M>)
      requires Valid()
      modifies this
      ensures Valid() && fresh(ch) && handed == old(handed) + {ch}
      ensures Step(VIDEO, old(Model()), Event.Subscribe("", ch)) == Some(Model())
    {
      hide Tidy;
      ghost var before := Model();
      ch := new Pipe(10, "");
      clients := clients + {ch};
      handed := handed + {ch};
      assert OneRoom(clients) == Join(before.rooms, "", ch);
      assert Values(handed) == before.channels[ch := ch.Value()];
      StepKeepsTidy(VIDEO, before, Event.Subscribe("", ch), Model());
    }

    /** The closure `Subscribe` returned; `ok` is false where closing the closed channel panics. */
    method Unsubscribe(ch: Pipe<M>) returns (ok: bool)
      requires Valid() && ch in handed
      modifies this, ch
      ensures Valid() && handed == old(handed)
      ensures Step(VIDEO, old(Model()), Event.Unsubscribe(ch)) == if ok then Some(Model()) else None
      ensures !ok ==> Model() == old(Model())
    {
      hide Tidy;
      ghost var before := Model();
      assert before.channels[ch] == ch.Value();
      clients := clients - {ch};
      assert OneRoom(clients) == Leave(before.rooms, "", ch);
      if !ch.open {
        TidyRoom(before, "");
        return false;
      }
      ch.Close();
      assert Values(handed) == before.channels[ch := ch.Value()];
      StepKeepsTidy(VIDEO, before, Event.Unsubscribe(ch), Model());
      return true;
    }

    method Broadcast(event: M)
      requires Valid()
      modifies handed
      ensures Valid()
      ensures Step(VIDEO, old(Model()), Send("", event)) == Some(Model())
    {
      hide Tidy;
      ghost var before := Model();
      TidyRoom(before, "");
      assert forall p :: p in clients ==> p in before.channels && before.channels[p] == p.Value();
      SendAll(clients, event, handed, VIDEO);
      assert Values(handed) == Deliver(10, before, "", event);
      StepKeepsTidy(VIDEO, before, Send("", event), Model());
    }
  }

  ghost function OneRoom<C>(clients: set<C>): map<string, set<C>> {
    if clients == {} then map[] else map["" := clients]
  }

  // ---------------------------------------------------------------- notifications: rooms are slices

  ghost function Members<C>(s: seq<C>): set<C> {
    set c | c in s
  }

  ghost predicate Distinct<C>(s: seq<C>) {
    forall i, j :: 0 <= i < j < |s| ==> s[i] != s[j]
  }

  /** Splicing one element out of a duplicate-free slice removes exactly that element. */
  lemma SpliceRemoves<C>(s: seq<C>, i: nat)
    requires i < |s| && Distinct(s)
    ensures Members(s[..i] + s[i + 1..]) == Members(s) - {s[i]} && Distinct(s[..i] + s[i + 1..])
  {
    var r := s[..i] + s[i + 1..];
    forall c | c in s && c != s[i] ensures c in r {
      var j :| 0 <= j < |s| && s[j] == c;
      assert r[if j < i then j else j - 1] == c;
    }
  }

  ghost function Rooms<C>(m: map<string, seq<C>>): map<string, set<C>> {
    map user | user in m :: Members(m[user])
  }

  ghost predicate DistinctAll<C>(m: map<string, seq<C>>) {
    forall user :: user in m ==> Distinct(m[user])
  }

  function Slice<C>(m: map<string, seq<C>>, user: string): seq<C> {
    if user in m then m[user] else []
  }

  /** Appending to a user's slice joins the user's room. */
  lemma AppendJoins<C>(m: map<string, seq<C>>, user: string, c: C)
    requires DistinctAll(m) && c !in Slice(m, user)
    ensures var next := m[user := Slice(m, user) + [c]]; Rooms(next) == Join(Rooms(m), user, c) && DistinctAll(next)
  {
    var subs := Slice(m, user);
    assert Members(subs + [c]) == Members(subs) + {c};
    assert user !in m ==> Members(subs) == {};
    assert Rooms(m[user := subs + [c]]) == Rooms(m)[user := Members(subs) + {c}];
  }

  /** Splicing a channel out, and the slice with it once it is empty, leaves the user's room. */
  lemma SpliceLeaves<C>(m: map<string, seq<C>>, user: string, i: nat)
    requires user in m && i < |m[user]| && DistinctAll(m)
    ensures var left := m[user][..i] + m[user][i + 1..];
      var next := if left == [] then m - {user} else m[user := left];
      Rooms(next) == Leave(Rooms(m), user, m[user][i]) && DistinctAll(next)
  {
    SpliceRemoves(m[user], i);
    var left := m[user][..i] + m[user][i + 1..];
    if left != [] {
      assert left[0] in Members(left);
    }
  }

  /** The send loop over a slice of subscribers, in its order. */
  method SendEach<M>(subs: seq<Pipe<M>>, m: M, ghost all: set<Pipe<M>>, kind: Kind)
    requires Members(subs) <= all && Sized(all, kind) && Distinct(subs)
    requires forall p :: p in subs ==> p.open
    modifies Members(subs)
    ensures forall p :: p in all ==>
      p.Value() == if p in Members(subs) then Push(kind.capacity, old(p.Value()), m) else old(p.Value())
  {
    for i := 0 to |subs|
      invariant forall p :: p in subs ==> p.open
      invariant forall p :: p in all ==>
        p.Value() == if p in subs[..i] then Push(kind.capacity, old(p.Value()), m) else old(p.Value())
    {
      assert subs[i] !in subs[..i];
      assert subs[i] in Members(subs);
      subs[i].TrySend(m);
      assert subs[..i + 1] == subs[..i] + [subs[i]];
    }
    assert subs[..|subs|] == subs;
  }

  method Position<M>(subs: seq<Pipe<M>>, ch: Pipe<M>) returns (i: nat)
    ensures i <= |subs| && ch !in subs[..i]
    ensures i < |subs| <==> ch in subs
    ensures i < |subs| ==> subs[i] == ch
  {
    i := 0;
    while i < |subs| && subs[i] != ch
      invariant i <= |subs| && ch !in subs[..i]
    {
      i := i + 1;
    }
    assert i == |subs| ==> subs[..i] == subs;
  }

  /** The body of the closure: search the user's slice, splice the channel out, and drop an empty slice. */
  method Unlist<M>(m: map<string, seq<Pipe<M>>>, user: string, ch: Pipe<M>)
    returns (next: map<string, seq<Pipe<M>>>, found: bool)
    requires DistinctAll(m) && (user in m ==> m[user] != [])
    ensures found <==> ch in Slice(m, user)
    ensures Rooms(next) == if found then Leave(Rooms(m), user, ch) else Rooms(m)
    ensures DistinctAll(next)
  {
    hide Rooms, Leave, DistinctAll;
    var subs := Slice(m, user);
    var i := Position(subs, ch);
    found := i < |subs|;
    next := m;
    if found {
      SpliceLeaves(m, user, i);
      next := m[user := subs[..i] + subs[i + 1..]];
    }
    if user !in next || |next[user]| == 0 {
      assert next - {user} == m - {user} && (user !in m ==> m - {user} == m);
      next := next - {user};
    }
  }

  class NotificationHub<M> {
    var subscribers: map<string, seq<Pipe<M>>>
    ghost var handed: set<Pipe<M>>

    ghost function Model(): State<Pipe<M>, M>
      reads this, handed
    {
      State(Values(handed), Rooms(subscribers))
    }

    ghost predicate Valid()
      reads this, handed
    {
      Tidy(Model()) && Sized(handed, NOTIFICATION) && DistinctAll(subscribers)
    }

    constructor ()
      ensures Valid() && Model() == State(map[], map[])
    {
      subscribers, handed := map[], {};
    }

    method Subscribe(userId: string) returns (ch: Pipe<M>)
      requires Valid()
      modifies this
      ensures Valid() && fresh(ch) && handed == old(handed) + {ch}
      ensures Step(NOTIFICATION, old(Model()), Event.Subscribe(userId, ch)) == Some(Model())
    {
      hide Tidy, Rooms, DistinctAll, Join;
      ghost var before := Model();
      ListedWereHanded(userId);
      ch := new Pipe(16, userId);
      AppendJoins(subscribers, userId, ch);
      subscribers := subscribers[userId := Slice(subscribers, userId) + [ch]];
      handed := handed + {ch};
      assert Values(handed) == before.channels[ch := ch.Value()];
      StepKeepsTidy(NOTIFICATION, before, Event.Subscribe(userId, ch), Model());
    }

    lemma ListedWereHanded(userId: string)
      requires Valid()
      ensures forall p :: p in Slice(subscribers, userId) ==> p in handed && p.open
      ensures forall p :: p in Slice(subscribers, userId) <==> Registered(Model(), userId, p)
      ensures userId in subscribers ==> subscribers[userId] != []
    {
      assert userId in subscribers ==> Model().rooms[userId] == Members(subscribers[userId]);
      assert forall p :: p in handed ==> Model().channels[p] == p.Value();
      TidyRoom(Model(), userId);
      forall p | p in Slice(subscribers, userId) ensures p in handed && p.open {
        assert p in Model().rooms[userId];
      }
    }

    /** The closure `Subscribe` returned: it closes the channel only while it is still listed. */
    method Unsubscribe(userId: string, ch: Pipe<M>)
      requires Valid() && ch in handed && ch.key == userId
      modifies this, ch
      ensures Valid() && handed == old(handed)
      ensures Step(NOTIFICATION, old(Model()), Event.Unsubscribe(ch)) == Some(Model())
    {
      hide Tidy, Rooms, DistinctAll, Leave, Registered;
      ghost var before := Model();
      assert before.channels[ch] == ch.Value();
      ListedWereHanded(userId);
      var left, found := Unlist(subscribers, userId, ch);
      subscribers := left;
      if found {
        ch.Close();
      }
      assert Values(handed) == before.channels[ch := ch.Value()];
      StepKeepsTidy(NOTIFICATION, before, Event.Unsubscribe(ch), Model());
    }

    method SendDirect(userId: string, notif: M)
      requires Valid()
      modifies handed
      ensures Valid()
      ensures Step(NOTIFICATION, old(Model()), Send(userId, notif)) == Some(Model())
    {
      hide Tidy;
      ghost var before := Model();
      TidyRoom(before, userId);
      ListedWereHanded(userId);
      if userId in subscribers {
        var subs := subscribers[userId];
        SendEach(subs, notif, handed, NOTIFICATION);
      }
      assert Values(handed) == Deliver(16, before, userId, notif);
      StepKeepsTidy(NOTIFICATION, before, Send(userId, notif), Model());
    }
  }
}
