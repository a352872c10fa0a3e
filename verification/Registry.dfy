/** The registry protocol of server/schedule as a whole: backends create and lose rooms, the scheduler registers them,
    the orchestrator keeps refreshing them, and the proxy looks them up. Room identifiers are unique. */
module Registry {
  import opened Options
  import opened Storage
  import opened Orchestrator
  import opened Scheduler

  /** The home of every room ever created, the rooms that are alive, the responses that the scheduler has yet to see,
      the bindings that the orchestrator has read but not yet written, and all writes to the store. */
  datatype Registry = Registry(home: map<string, string>, alive: set<string>, inFlight: set<string>,
                               pending: seq<(string, string)>, ops: seq<Op>, clock: real)

  datatype Act =
    | Create(room: string, host: string)
    | Register(registered: string)
    | Lose(lost: string)
    | Die(dead: string)
    | Poll(polled: string, rooms: seq<string>)
    | Refresh

  datatype Event = Event(at: real, act: Act)

  function NewRegistry(now: real): Registry {
    Registry(map[], {}, {}, [], [], now)
  }

  /** A backend that answers a poll lists some of its living rooms, each once; the orchestrator writes everything it
      has read before it asks the next backend. */
  predicate Possible(g: Registry, e: Event) {
    && g.clock <= e.at
    && match e.act
       case Create(room, host) => room !in g.home && room != "" && host != ""
       case Register(room) => room in g.inFlight
       case Lose(room) => room in g.inFlight
       case Die(room) => room in g.alive
       case Poll(host, rooms) =>
         g.pending == [] && forall i :: 0 <= i < |rooms| ==>
           rooms[i] in g.alive && rooms[i] in g.home && g.home[rooms[i]] == host && rooms[i] !in rooms[..i]
       case Refresh => g.pending != []
  }

  function Step(g: Registry, e: Event): Registry
    requires Possible(g, e)
  {
    var g := g.(clock := e.at);
    match e.act
    case Create(room, host) =>
      g.(home := g.home[room := host], alive := g.alive + {room}, inFlight := g.inFlight + {room})
    case Register(room) =>
      if room in g.home
      then g.(inFlight := g.inFlight - {room}, ops := g.ops + [Put(room, g.home[room], e.at)])
      else g
    case Lose(room) => g.(inFlight := g.inFlight - {room})
    case Die(room) => g.(alive := g.alive - {room})
    case Poll(host, rooms) => g.(pending := seq(|rooms|, i requires 0 <= i < |rooms| => (rooms[i], host)))
    case Refresh =>
      g.(pending := g.pending[1..], ops := g.ops + [Put(g.pending[0].0, g.pending[0].1, e.at)])
  }

  /** The registry after a sequence of events; one that is not possible changes nothing. */
  function Exec(g: Registry, events: seq<Event>): Registry
    decreases events
  {
    if events == [] then g
    else Exec(if Possible(g, events[0]) then Step(g, events[0]) else g, events[1..])
  }

  /** A room is bound to its home, in the store, on the way there and in every write so far. */
  ghost predicate Sound(g: Registry) {
    && g.alive <= g.home.Keys && g.inFlight <= g.home.Keys
    && (forall room :: room in g.home ==> room != "" && g.home[room] != "")
    && (forall i :: 0 <= i < |g.pending| ==> g.pending[i].0 in g.home && g.pending[i].1 == g.home[g.pending[i].0])
    && (forall i :: 0 <= i < |g.ops| ==>
          g.ops[i].Put? && g.ops[i].at <= g.clock && g.ops[i].key in g.home && g.ops[i].value == g.home[g.ops[i].key])
    && (forall i, j :: 0 <= i < j < |g.ops| ==> g.ops[i].Put? && g.ops[j].Put? && g.ops[i].at <= g.ops[j].at)
  }

  lemma StepKeeps(g: Registry, e: Event)
    requires Sound(g) && Possible(g, e)
    ensures Sound(Step(g, e))
  {
    var q := Step(g, e);
    if e.act.Refresh? {
      assert g.pending[0].0 in g.home;
    }
    assert forall i :: 0 <= i < |g.ops| ==> q.ops[i] == g.ops[i];
  }

  lemma {:induction false} RunKeeps(g: Registry, events: seq<Event>)
    requires Sound(g)
    ensures Sound(Exec(g, events))
    decreases events
  {
    if events != [] {
      if Possible(g, events[0]) {
        StepKeeps(g, events[0]);
      }
      RunKeeps(if Possible(g, events[0]) then Step(g, events[0]) else g, events[1..]);
    }
  }

  ghost predicate Reachable(g: Registry) {
    exists created: real, events: seq<Event> :: g == Exec(NewRegistry(created), events)
  }

  lemma ReachableIsSound(g: Registry)
    requires Reachable(g)
    ensures Sound(g)
  {
    var created, events :| g == Exec(NewRegistry(created), events);
    RunKeeps(NewRegistry(created), events);
  }

  // ---------------------------------------------------------------------------
  // A pass over one backend, as the orchestrator makes it
  // ---------------------------------------------------------------------------

  function RoomsOf(listed: seq<Listed>): seq<string> {
    seq(|listed|, j requires 0 <= j < |listed| => listed[j].room)
  }

  function Pending(listed: seq<Listed>, host: string): seq<(string, string)> {
    seq(|listed|, j requires 0 <= j < |listed| => (listed[j].room, host))
  }

  function RefreshEvents(listed: seq<Listed>): seq<Event> {
    seq(|listed|, j requires 0 <= j < |listed| => Event(listed[j].at, Refresh))
  }

  predicate Ascending(from: real, listed: seq<Listed>) {
    && (forall j :: 0 <= j < |listed| ==> from <= listed[j].at)
    && (forall i, j :: 0 <= i < j < |listed| ==> listed[i].at <= listed[j].at)
  }

  /** When the last binding of a backend's answer has been refreshed. */
  function Finish(from: real, listed: seq<Listed>): real {
    if listed == [] then from else listed[|listed| - 1].at
  }

  lemma {:induction false} RefreshesDrain(g: Registry, listed: seq<Listed>, host: string)
    requires g.pending == Pending(listed, host) && Ascending(g.clock, listed)
    ensures var q := Exec(g, RefreshEvents(listed));
      q.pending == [] && q.ops == g.ops + Bindings(listed, host, |listed|) && q.clock == Finish(g.clock, listed)
      && q.home == g.home && q.alive == g.alive && q.inFlight == g.inFlight
    decreases listed
  {
    if listed != [] {
      var first, rest := Event(listed[0].at, Refresh), listed[1..];
      var q := Step(g, first);
      assert RefreshEvents(listed)[0] == first && RefreshEvents(listed)[1..] == RefreshEvents(rest);
      assert q.pending == Pending(rest, host);
      assert q.ops == g.ops + [Put(listed[0].room, host, listed[0].at)];
      RefreshesDrain(q, rest, host);
      assert Bindings(listed, host, |listed|)
          == [Put(listed[0].room, host, listed[0].at)] + Bindings(rest, host, |rest|);
    }
  }

  /** What the orchestrator writes after a backend's answer is what the protocol does between one poll and the next. */
  lemma {:induction false} PassFollowsProtocol(g: Registry, host: string, listed: seq<Listed>, at: real)
    requires Possible(g, Event(at, Poll(host, RoomsOf(listed)))) && Ascending(at, listed)
    ensures var q := Exec(g, [Event(at, Poll(host, RoomsOf(listed)))] + RefreshEvents(listed));
      q.pending == [] && q.ops == g.ops + Bindings(listed, host, |listed|) && q.clock == Finish(at, listed)
      && q.home == g.home && q.alive == g.alive && q.inFlight == g.inFlight
  {
    var poll := Event(at, Poll(host, RoomsOf(listed)));
    var events := [poll] + RefreshEvents(listed);
    assert events[0] == poll && events[1..] == RefreshEvents(listed);
    assert Step(g, poll).pending == Pending(listed, host);
    RefreshesDrain(Step(g, poll), listed, host);
  }

  /** Asking one backend, as events. */
  function AnswerEvents(reply: Reply, host: string, at: real): seq<Event> {
    if reply.Rooms? then [Event(at, Poll(host, RoomsOf(reply.listed)))] + RefreshEvents(reply.listed) else []
  }

  /** A pass over the first n backends, as events: those that answer are polled at the given times. */
  function PassEvents(replies: seq<Reply>, polls: seq<real>, n: nat): seq<Event>
    requires n <= |replies| == |polls|
  {
    if n == 0 then []
    else
      PassEvents(replies, polls, n - 1) + AnswerEvents(replies[n - 1], Host(n - 1), polls[n - 1])
  }

  /** When the orchestrator has done with the first n backends. */
  function PassEnd(from: real, replies: seq<Reply>, polls: seq<real>, n: nat): real
    requires n <= |replies| == |polls|
  {
    if n == 0 then from
    else if replies[n - 1].Rooms? then Finish(polls[n - 1], replies[n - 1].listed)
    else PassEnd(from, replies, polls, n - 1)
  }

  /** The orchestrator asks one backend after the other, and refreshes the bindings one after the other. */
  predicate OneByOne(from: real, replies: seq<Reply>, polls: seq<real>, n: nat)
    requires n <= |replies| == |polls|
  {
    n == 0
    || (&& OneByOne(from, replies, polls, n - 1)
        && (replies[n - 1].Rooms? ==>
              PassEnd(from, replies, polls, n - 1) <= polls[n - 1]
              && Ascending(polls[n - 1], replies[n - 1].listed)))
  }

  /** A backend lists living rooms of its own, each once. */
  predicate Truthful(home: map<string, string>, alive: set<string>, host: string, listed: seq<Listed>) {
    && (forall j :: 0 <= j < |listed| ==>
          listed[j].room in alive && listed[j].room in home && home[listed[j].room] == host)
    && (forall i, j :: 0 <= i < j < |listed| ==> listed[i].room != listed[j].room)
  }

  lemma {:induction false} TruthIsPossible(g: Registry, host: string, listed: seq<Listed>, at: real)
    requires Truthful(g.home, g.alive, host, listed) && g.pending == [] && g.clock <= at
    ensures Possible(g, Event(at, Poll(host, RoomsOf(listed))))
  {
    var rooms := RoomsOf(listed);
    forall i | 0 <= i < |rooms| ensures rooms[i] !in rooms[..i] {
      assert forall k :: 0 <= k < i ==> rooms[..i][k] == listed[k].room;
    }
  }

  lemma {:induction false} AnswerFollowsProtocol(g: Registry, reply: Reply, host: string, at: real)
    requires g.pending == []
    requires reply.Rooms? ==>
               Truthful(g.home, g.alive, host, reply.listed) && g.clock <= at && Ascending(at, reply.listed)
    ensures var q := Exec(g, AnswerEvents(reply, host, at));
      q.pending == [] && q.ops == g.ops + Answer(reply, host)
      && q.clock == (if reply.Rooms? then Finish(at, reply.listed) else g.clock)
      && q.home == g.home && q.alive == g.alive && q.inFlight == g.inFlight
  {
    if reply.Rooms? {
      hide Exec, Possible, Truthful, Ascending, Finish, Bindings;
      TruthIsPossible(g, host, reply.listed, at);
      PassFollowsProtocol(g, host, reply.listed, at);
    } else {
      assert g.ops + [] == g.ops;
    }
  }

  /** What the orchestrator writes in a whole pass, as the method that makes it promises, is what the protocol does in
      the corresponding run. */
  lemma {:induction false} WholePassFollowsProtocol(g: Registry, replies: seq<Reply>, polls: seq<real>, n: nat)
    requires n <= |replies| == |polls| && g.pending == [] && OneByOne(g.clock, replies, polls, n)
    requires forall i :: 0 <= i < n && replies[i].Rooms? ==> Truthful(g.home, g.alive, Host(i), replies[i].listed)
    ensures var q := Exec(g, PassEvents(replies, polls, n));
      q.pending == [] && q.ops == g.ops + Refreshes(replies, n) && q.clock == PassEnd(g.clock, replies, polls, n)
      && q.home == g.home && q.alive == g.alive && q.inFlight == g.inFlight
  {
    hide *;
    if n == 0 {
      PassStarts(g, replies, polls);
    } else {
      PassUnfolds(g, replies, polls, n);
      WholePassFollowsProtocol(g, replies, polls, n - 1);
      OneAnswerMore(g, PassEvents(replies, polls, n - 1), Refreshes(replies, n - 1), replies[n - 1], Host(n - 1),
                    polls[n - 1]);
    }
  }

  lemma {:induction false} PassStarts(g: Registry, replies: seq<Reply>, polls: seq<real>)
    requires |replies| == |polls|
    ensures Exec(g, PassEvents(replies, polls, 0)) == g && g.ops + Refreshes(replies, 0) == g.ops
    ensures PassEnd(g.clock, replies, polls, 0) == g.clock
  {
  }

  lemma {:induction false} OneAnswerMore(g: Registry, events: seq<Event>, ops: seq<Op>, reply: Reply, host: string,
                                         at: real)
    requires var q := Exec(g, events);
      && q.pending == [] && q.ops == g.ops + ops && q.home == g.home && q.alive == g.alive && q.inFlight == g.inFlight
      && (reply.Rooms? ==>
            Truthful(g.home, g.alive, host, reply.listed) && q.clock <= at && Ascending(at, reply.listed))
    ensures var p := Exec(g, events + AnswerEvents(reply, host, at));
      && p.pending == [] && p.ops == g.ops + (ops + Answer(reply, host))
      && p.home == g.home && p.alive == g.alive && p.inFlight == g.inFlight
      && p.clock == if reply.Rooms? then Finish(at, reply.listed) else Exec(g, events).clock
  {
    hide *;
    AnswerFollowsProtocol(Exec(g, events), reply, host, at);
    ExecConcat(g, events, AnswerEvents(reply, host, at));
    assert (g.ops + ops) + Answer(reply, host) == g.ops + (ops + Answer(reply, host));
  }

  lemma {:induction false} PassUnfolds(g: Registry, replies: seq<Reply>, polls: seq<real>, n: nat)
    requires 0 < n <= |replies| == |polls| && OneByOne(g.clock, replies, polls, n)
    ensures PassEvents(replies, polls, n) ==
              PassEvents(replies, polls, n - 1) + AnswerEvents(replies[n - 1], Host(n - 1), polls[n - 1])
    ensures Refreshes(replies, n) == Refreshes(replies, n - 1) + Answer(replies[n - 1], Host(n - 1))
    ensures PassEnd(g.clock, replies, polls, n) ==
              if replies[n - 1].Rooms? then Finish(polls[n - 1], replies[n - 1].listed)
              else PassEnd(g.clock, replies, polls, n - 1)
    ensures OneByOne(g.clock, replies, polls, n - 1)
    ensures replies[n - 1].Rooms? ==>
              PassEnd(g.clock, replies, polls, n - 1) <= polls[n - 1] && Ascending(polls[n - 1], replies[n - 1].listed)
  {
    hide Host, AnswerEvents, Answer, Finish, Ascending;
  }

  lemma {:induction false} ExecConcat(g: Registry, a: seq<Event>, b: seq<Event>)
    ensures Exec(g, a + b) == Exec(Exec(g, a), b)
    decreases a
  {
    if a == [] {
      assert a + b == b;
    } else {
      assert (a + b)[0] == a[0] && (a + b)[1..] == a[1..] + b;
      ExecConcat(if Possible(g, a[0]) then Step(g, a[0]) else g, a[1..], b);
    }
  }

  // ---------------------------------------------------------------------------
  // The lease
  // ---------------------------------------------------------------------------

  /** What the registry answers for a room. */
  function Resolve(g: Registry, room: string, now: real): string {
    Lookup(g.ops, room, now)
  }

  /** Some write of the room's binding is less than five minutes old. */
  ghost predicate Leased(g: Registry, room: string, now: real) {
    exists i :: 0 <= i < |g.ops| && Touches(g.ops[i], room) && g.ops[i].Put? && now < g.ops[i].at + 300.0
  }

  /** A room resolves to its own backend exactly while it is leased, and never to another one; a room that has never
      been created does not resolve. */
  lemma LeaseExactly(g: Registry, room: string, now: real)
    requires Reachable(g)
    ensures room in g.home ==> g.home[room] != "" && (Resolve(g, room, now) == g.home[room] <==> Leased(g, room, now))
    ensures !Leased(g, room, now) ==> Resolve(g, room, now) == ""
    ensures room !in g.home ==> !Leased(g, room, now)
  {
    ReachableIsSound(g);
    if LastPut(g.ops, room).Some? {
      var i := LastPutWasPut(g.ops, room);
      assert g.ops[i].key in g.home;
      if Leased(g, room, now) {
        var j :| 0 <= j < |g.ops| && Touches(g.ops[j], room) && now < g.ops[j].at + 300.0;
        assert j <= i;
      }
    } else if Leased(g, room, now) {
      var j :| 0 <= j < |g.ops| && Touches(g.ops[j], room) && now < g.ops[j].at + 300.0;
      PutIsKept(g.ops, room, j);
    }
  }

  lemma {:induction false} PutIsKept(ops: seq<Op>, room: string, j: nat)
    requires j < |ops| && Touches(ops[j], room) && forall i :: 0 <= i < |ops| ==> ops[i].Put?
    ensures LastPut(ops, room).Some?
  {
    var n := |ops| - 1;
    if !Touches(ops[n], room) {
      PutIsKept(ops[..n], room, j);
    }
  }

  /** A new room can always be created on a backend, registered and refreshed; either binds it at once. */
  lemma {:induction false} CreatedRoomCanBeBound(g: Registry, room: string, host: string, at: real, t: real)
    requires Reachable(g) && room !in g.home && room != "" && host != "" && g.clock <= at <= t && g.pending == []
    ensures Possible(g, Event(at, Create(room, host)))
    ensures var q := Step(g, Event(at, Create(room, host)));
      && room in q.alive && q.home[room] == host
      && Possible(q, Event(t, Register(room)))
      && Resolve(Step(q, Event(t, Register(room))), room, t) == host
      && Possible(q, Event(t, Poll(host, [room])))
      && var p := Step(q, Event(t, Poll(host, [room])));
         Possible(p, Event(t, Refresh)) && Resolve(Step(p, Event(t, Refresh)), room, t) == host
  {
    var q := Step(g, Event(at, Create(room, host)));
    LastPutSnoc(g.ops, Put(room, host, t), room);
    assert [room][..0] == [];
  }

  /** Following a link: whoever asks for a room is sent to its own backend while it is leased, and nowhere else ever. */
  lemma NeverMisrouted(g: Registry, url: URL, room: string, now: real)
    requires Reachable(g)
    ensures var backend := Routed(url, room, Resolve(g, room, now));
      && (backend.Some? <==> Leased(g, room, now))
      && (backend.Some? ==> room in g.home && backend.value.host == g.home[room])
  {
    LeaseExactly(g, room, now);
    ReachableIsSound(g);
  }

  // ---------------------------------------------------------------------------
  // Dead rooms
  // ---------------------------------------------------------------------------

  /** Nothing that is under way will bind the room again. */
  ghost predicate Gone(g: Registry, room: string) {
    && room in g.home && room !in g.alive && room !in g.inFlight
    && forall i :: 0 <= i < |g.pending| ==> g.pending[i].0 != room
  }

  lemma GoneStays(g: Registry, room: string, e: Event)
    requires Sound(g) && Gone(g, room) && Possible(g, e)
    ensures Gone(Step(g, e), room) && LastPut(Step(g, e).ops, room) == LastPut(g.ops, room)
  {
    if e.act.Register? || e.act.Refresh? {
      LastPutSnoc(g.ops, Step(g, e).ops[|g.ops|], room);
    }
  }

  lemma {:induction false} GoneForGood(g: Registry, room: string, events: seq<Event>)
    requires Sound(g) && Gone(g, room)
    ensures Gone(Exec(g, events), room) && LastPut(Exec(g, events).ops, room) == LastPut(g.ops, room)
    decreases events
  {
    if events != [] {
      var q := if Possible(g, events[0]) then Step(g, events[0]) else g;
      if Possible(g, events[0]) {
        StepKeeps(g, events[0]);
        GoneStays(g, room, events[0]);
      }
      GoneForGood(q, room, events[1..]);
    }
  }

  /** Once a room is dead, and neither its registration nor the answer of a backend that still listed it is under way,
      its binding is never written again: from five minutes after the last write on, whatever happens, it resolves
      to nothing. */
  lemma DeadRoomIsForgotten(g: Registry, room: string, events: seq<Event>, now: real)
    requires Reachable(g) && Gone(g, room)
    ensures Resolve(Exec(g, events), room, now) == Resolve(g, room, now)
    ensures now >= g.clock + 300.0 ==> Resolve(g, room, now) == ""
  {
    ReachableIsSound(g);
    GoneForGood(g, room, events);
    if LastPut(g.ops, room).Some? {
      var i := LastPutWasPut(g.ops, room);
      assert g.ops[i].at <= g.clock;
    }
  }

  /** How often the orchestrator is about to write the room's binding. */
  function Awaiting(pending: seq<(string, string)>, room: string): nat {
    if pending == [] then 0 else (if pending[0].0 == room then 1 else 0) + Awaiting(pending[1..], room)
  }

  /** How often a room has been bound. */
  function Written(ops: seq<Op>, room: string): nat {
    if ops == [] then 0
    else Written(ops[..|ops| - 1], room) + if Touches(ops[|ops| - 1], room) then 1 else 0
  }

  /** How many more writes of the room's binding are under way. */
  function UnderWay(g: Registry, room: string): nat {
    Awaiting(g.pending, room) + if room in g.inFlight then 1 else 0
  }

  lemma {:induction false} AwaitingNothing(pending: seq<(string, string)>, room: string)
    requires forall i :: 0 <= i < |pending| ==> pending[i].0 != room
    ensures Awaiting(pending, room) == 0
    decreases pending
  {
    if pending != [] {
      AwaitingNothing(pending[1..], room);
    }
  }

  lemma DeadStep(g: Registry, room: string, e: Event)
    requires Sound(g) && room in g.home && room !in g.alive && Possible(g, e)
    ensures var q := Step(g, e);
      room in q.home && room !in q.alive
      && Written(q.ops, room) + UnderWay(q, room) <= Written(g.ops, room) + UnderWay(g, room)
  {
    var q := Step(g, e);
    if |q.ops| == |g.ops| + 1 {
      assert q.ops[..|g.ops|] == g.ops;
    }
    if e.act.Poll? {
      AwaitingNothing(q.pending, room);
    }
  }

  /** After its death a room is bound at most as often as writes were under way when it died. */
  lemma {:induction false} DeadRoomIsBoundNoMore(g: Registry, room: string, events: seq<Event>)
    requires Sound(g) && room in g.home && room !in g.alive
    ensures Written(Exec(g, events).ops, room) <= Written(g.ops, room) + UnderWay(g, room)
    decreases events
  {
    if events != [] {
      var q := if Possible(g, events[0]) then Step(g, events[0]) else g;
      if Possible(g, events[0]) {
        StepKeeps(g, events[0]);
        DeadStep(g, room, events[0]);
      }
      DeadRoomIsBoundNoMore(q, room, events[1..]);
    }
  }

  /** The orchestrator never has more than one write of a room under way, so there are at most two in all. */
  ghost predicate Once(pending: seq<(string, string)>) {
    forall i, j :: 0 <= i < j < |pending| ==> pending[i].0 != pending[j].0
  }

  lemma {:induction false} AwaitingOnce(pending: seq<(string, string)>, room: string)
    requires Once(pending)
    ensures Awaiting(pending, room) <= 1
    decreases pending
  {
    if pending != [] {
      assert forall i :: 0 <= i < |pending[1..]| ==> pending[1..][i] == pending[i + 1];
      if pending[0].0 == room {
        AwaitingNothing(pending[1..], room);
      } else {
        AwaitingOnce(pending[1..], room);
      }
    }
  }

  lemma {:induction false} RunPollsOnce(g: Registry, events: seq<Event>)
    requires Once(g.pending)
    ensures Once(Exec(g, events).pending)
    decreases events
  {
    if events != [] {
      var q := if Possible(g, events[0]) then Step(g, events[0]) else g;
      if Possible(g, events[0]) && events[0].act.Poll? {
        var rooms := events[0].act.rooms;
        forall i, j | 0 <= i < j < |rooms| ensures rooms[i] != rooms[j] {
          assert rooms[i] in rooms[..j];
        }
      }
      RunPollsOnce(q, events[1..]);
    }
  }

  lemma DeadRoomIsBoundTwiceAtMost(g: Registry, room: string, events: seq<Event>)
    requires Reachable(g) && room in g.home && room !in g.alive
    ensures Written(Exec(g, events).ops, room) <= Written(g.ops, room) + 2
  {
    ReachableIsSound(g);
    var created, before :| g == Exec(NewRegistry(created), before);
    RunPollsOnce(NewRegistry(created), before);
    AwaitingOnce(g.pending, room);
    DeadRoomIsBoundNoMore(g, room, events);
  }

  // ---------------------------------------------------------------------------
  // The schedule of the orchestrator
  // ---------------------------------------------------------------------------

  /** The k-th pass starts at this time, counted from the first one. */
  function PassAt(k: nat): real {
    k as real * SCHEDULING_UPDATE_PERIOD
  }

  /** At time t the binding is fresh because of pass k: the pass has reached the room's backend, and has written the
      binding `delay(k)` after it started. */
  ghost predicate FreshBy(ok: nat -> bool, delay: nat -> real, t: real, k: nat) {
    ok(k) && PassAt(k) + delay(k) <= t < PassAt(k) + delay(k) + 300.0
  }

  /** Every pass gets to the room before the next one starts. */
  ghost predicate InTime(delay: nat -> real) {
    forall k: nat :: 0.0 <= delay(k) < SCHEDULING_UPDATE_PERIOD
  }

  ghost predicate FreshAt(ok: nat -> bool, delay: nat -> real, t: real) {
    exists k: nat :: FreshBy(ok, delay, t, k)
  }

  /** From the first write on the binding is always fresh. */
  ghost predicate AlwaysFresh(ok: nat -> bool, delay: nat -> real) {
    forall t: real :: t >= delay(0) ==> FreshAt(ok, delay, t)
  }

  ghost predicate OneOfNine(ok: nat -> bool, k: nat) {
    exists j: nat :: k <= j <= k + 8 && ok(j)
  }

  /** Among nine passes in a row at least one succeeds, so at most eight in a row fail. */
  ghost predicate AtMostEightFail(ok: nat -> bool) {
    forall k: nat :: OneOfNine(ok, k)
  }

  lemma PassesAdvance(j: nat, k: nat)
    ensures PassAt(k) - PassAt(j) == (k - j) as real * 30.0
  {
  }

  /** The last successful pass up to n. */
  lemma {:induction false} LastSuccess(ok: nat -> bool, n: nat) returns (j: nat)
    requires ok(0)
    ensures j <= n && ok(j) && forall i: nat :: j < i <= n ==> !ok(i)
  {
    if ok(n) {
      j := n;
    } else {
      j := LastSuccess(ok, n - 1);
    }
  }

  lemma EightAreTolerated(ok: nat -> bool, delay: nat -> real, t: real)
    requires ok(0) && AtMostEightFail(ok) && InTime(delay) && t >= delay(0)
    ensures FreshAt(ok, delay, t)
  {
    var n: nat := (t / 30.0).Floor;
    assert PassAt(n) <= t < PassAt(n) + 30.0;
    var j := LastSuccess(ok, n);
    if PassAt(j) + delay(j) <= t {
      SuccessIsRecent(ok, j, n);
      PassesAdvance(j, n);
      assert FreshBy(ok, delay, t, j);
    } else {
      assert j == n by { PassesAdvance(j, n); }
      var i := LastSuccess(ok, n - 1);
      SuccessIsRecent(ok, i, n - 1);
      PassesAdvance(i, n);
      assert FreshBy(ok, delay, t, i);
    }
  }

  lemma SuccessIsRecent(ok: nat -> bool, j: nat, n: nat)
    requires AtMostEightFail(ok) && j <= n && forall i: nat :: j < i <= n ==> !ok(i)
    ensures n - j <= 8
  {
    assert OneOfNine(ok, j + 1);
  }

  /** A delay within the period under which nine failures in a row leave a gap. */
  lemma NineAreNot(ok: nat -> bool, k: nat) returns (delay: nat -> real, t: real)
    requires ok(0) && !OneOfNine(ok, k)
    ensures InTime(delay) && t >= delay(0) && !FreshAt(ok, delay, t)
  {
    var last := LastSuccess(ok, k);
    delay := (i: nat) => if i <= last then 0.0 else 29.0;
    t := PassAt(last) + 300.0;
    forall j: nat ensures !FreshBy(ok, delay, t, j) {
      PassesAdvance(last, j);
      if j <= last {
        assert PassAt(j) <= PassAt(last);
      } else if j >= last + 10 {
        assert PassAt(j) - PassAt(last) >= 300.0;
      } else {
        assert !ok(j);
      }
    }
  }

  /** A polling period of thirty seconds keeps every binding alive, however the passes are delayed within their
      periods, if and only if never more than eight passes in a row fail. */
  lemma EightFailuresExactly(ok: nat -> bool)
    requires ok(0)
    ensures (forall delay: nat -> real :: InTime(delay) ==> AlwaysFresh(ok, delay)) <==> AtMostEightFail(ok)
  {
    if AtMostEightFail(ok) {
      forall delay: nat -> real | InTime(delay) ensures AlwaysFresh(ok, delay) {
        forall t: real | t >= delay(0) ensures FreshAt(ok, delay, t) {
          EightAreTolerated(ok, delay, t);
        }
      }
    } else {
      var k: nat :| !OneOfNine(ok, k);
      var delay, t := NineAreNot(ok, k);
      assert !AlwaysFresh(ok, delay);
    }
  }

  // ---------------------------------------------------------------------------
  // The lease from registration on, over a run
  // ---------------------------------------------------------------------------

  /** The room's binding was written at this time. */
  ghost predicate BoundAt(g: Registry, room: string, at: real) {
    exists i :: 0 <= i < |g.ops| && Touches(g.ops[i], room) && g.ops[i].Put? && g.ops[i].at == at
  }

  predicate Awaits(g: Registry, room: string) {
    exists i :: 0 <= i < |g.pending| && g.pending[i].0 == room
  }

  /** Writes are kept, homes are kept, and time goes on. */
  lemma {:induction false} RunGrows(g: Registry, events: seq<Event>)
    ensures var q := Exec(g, events);
      g.ops <= q.ops && g.clock <= q.clock
      && forall room :: room in g.home ==> room in q.home && q.home[room] == g.home[room]
    decreases events
  {
    if events != [] {
      RunGrows(if Possible(g, events[0]) then Step(g, events[0]) else g, events[1..]);
    }
  }

  lemma BoundForGood(g: Registry, events: seq<Event>, room: string, at: real)
    requires BoundAt(g, room, at)
    ensures BoundAt(Exec(g, events), room, at)
  {
    RunGrows(g, events);
    var i :| 0 <= i < |g.ops| && Touches(g.ops[i], room) && g.ops[i].Put? && g.ops[i].at == at;
    assert Exec(g, events).ops[i] == g.ops[i];
  }

  /** A binding that awaits its refreshment and later does not has been written in between. */
  lemma {:induction false} WrittenBetween(g: Registry, events: seq<Event>, room: string) returns (at: real)
    requires Awaits(g, room) && !Awaits(Exec(g, events), room)
    ensures BoundAt(Exec(g, events), room, at) && g.clock <= at <= Exec(g, events).clock
    decreases events
  {
    var e := events[0];
    var q := if Possible(g, e) then Step(g, e) else g;
    if Possible(g, e) && e.act.Refresh? && g.pending[0].0 == room {
      at := e.at;
      assert q.ops[|g.ops|] == Put(room, g.pending[0].1, at);
      assert BoundAt(q, room, at);
      BoundForGood(q, events[1..], room, at);
      RunGrows(q, events[1..]);
    } else {
      if Possible(g, e) {
        StillAwaits(g, e, room);
      }
      at := WrittenBetween(q, events[1..], room);
    }
  }

  lemma StillAwaits(g: Registry, e: Event, room: string)
    requires Awaits(g, room) && Possible(g, e) && !(e.act.Refresh? && g.pending[0].0 == room)
    ensures Awaits(Step(g, e), room)
  {
    var i :| 0 <= i < |g.pending| && g.pending[i].0 == room;
    if e.act.Refresh? {
      assert g.pending[1..][i - 1] == g.pending[i];
    }
  }

  /** Event i of the run is an answer that lists the room. */
  predicate Listing(g: Registry, events: seq<Event>, i: nat, room: string) {
    && i < |events| && events[i].act.Poll? && room in events[i].act.rooms
    && Possible(Exec(g, events[..i]), events[i])
  }

  /** Within a period the orchestrator polls the room's backend, which lists the room, and has written all that it has
      been told before the period is over. */
  ghost predicate PassSucceeds(g: Registry, events: seq<Event>, room: string, from: real, till: real) {
    exists i: nat, k: nat ::
      Listing(g, events, i, room) && i < k <= |events| && from <= events[i].at
      && Exec(g, events[..k]).clock < till && !Awaits(Exec(g, events[..k]), room)
  }

  lemma {:induction false} Advance(g: Registry, events: seq<Event>, i: nat, k: nat)
    requires i <= k <= |events|
    ensures Exec(g, events[..k]) == Exec(Exec(g, events[..i]), events[i..k])
    ensures Exec(g, events[..i]).clock <= Exec(g, events[..k]).clock
  {
    assert events[..i] + events[i..k] == events[..k];
    ExecConcat(g, events[..i], events[i..k]);
    RunGrows(Exec(g, events[..i]), events[i..k]);
  }

  lemma {:induction false} AdvanceOne(g: Registry, events: seq<Event>, i: nat)
    requires i < |events| && Possible(Exec(g, events[..i]), events[i])
    ensures Exec(g, events[..i + 1]) == Step(Exec(g, events[..i]), events[i])
  {
    Advance(g, events, i, i + 1);
    var q := Exec(g, events[..i]);
    assert events[i..i + 1] == [events[i]];
    assert Exec(q, [events[i]]) == Exec(Step(q, events[i]), []);
  }

  /** A successful pass writes the room's binding within its period. */
  lemma {:induction false} PassIsWritten(g: Registry, events: seq<Event>, room: string, from: real, till: real)
    returns (at: real)
    requires PassSucceeds(g, events, room, from, till)
    ensures BoundAt(Exec(g, events), room, at) && from <= at < till
  {
    var i: nat, k: nat :|
      Listing(g, events, i, room) && i < k <= |events| && from <= events[i].at
      && Exec(g, events[..k]).clock < till && !Awaits(Exec(g, events[..k]), room);
    AdvanceOne(g, events, i);
    var polled := Exec(g, events[..i + 1]);
    var j :| 0 <= j < |events[i].act.rooms| && events[i].act.rooms[j] == room;
    assert polled.pending[j].0 == room;
    Advance(g, events, i + 1, k);
    at := WrittenBetween(polled, events[i + 1..k], room);
    Advance(g, events, k, |events|);
    assert events[..|events|] == events;
    BoundForGood(Exec(g, events[..k]), events[k..|events|], room, at);
  }

  /** The scheduler registers the room in event r. */
  predicate RegisteredBy(g: Registry, events: seq<Event>, r: nat, room: string) {
    r < |events| && events[r].act == Register(room) && Possible(Exec(g, events[..r]), events[r])
  }

  lemma {:induction false} RegistrationIsWritten(g: Registry, events: seq<Event>, r: nat, room: string)
    requires Sound(g) && RegisteredBy(g, events, r, room)
    ensures BoundAt(Exec(g, events), room, events[r].at) && room in Exec(g, events).home
    ensures Exec(g, events[..r + 1]).clock == events[r].at
  {
    RunKeeps(g, events[..r]);
    AdvanceOne(g, events, r);
    var before, after := Exec(g, events[..r]), Exec(g, events[..r + 1]);
    assert after.ops[|before.ops|] == Put(room, before.home[room], events[r].at);
    assert BoundAt(after, room, events[r].at);
    Advance(g, events, r + 1, |events|);
    assert events[..|events|] == events;
    BoundForGood(after, events[r + 1..|events|], room, events[r].at);
    RunGrows(after, events[r + 1..|events|]);
  }

  /** The k-th pass of an orchestrator whose first pass starts at `first` reaches the room. */
  ghost predicate Reaches(g: Registry, events: seq<Event>, room: string, first: real, k: nat) {
    PassSucceeds(g, events, room, first + PassAt(k), first + PassAt(k + 1))
  }

  ghost predicate OneOfNineReaches(g: Registry, events: seq<Event>, room: string, first: real, k: nat) {
    exists j: nat :: k <= j <= k + 8 && Reaches(g, events, room, first, j)
  }

  /** Of the passes that are over by this time, at most eight in a row have not reached the room. */
  ghost predicate NeverNineMissed(g: Registry, events: seq<Event>, room: string, first: real, until: real) {
    forall k: nat :: first + PassAt(k + 9) <= until ==> OneOfNineReaches(g, events, room, first, k)
  }

  /** A room that has been registered, and that the orchestrator keeps polling every thirty seconds, beginning within
      thirty seconds, resolves to its own backend, if never more than eight passes in a row miss it. */
  lemma {:induction false} LeaseIsKept(created: real, events: seq<Event>, r: nat, room: string, first: real, now: real)
    requires var g := NewRegistry(created);
      && RegisteredBy(g, events, r, room) && events[r].at < first <= events[r].at + 30.0
      && Exec(g, events).clock <= now && NeverNineMissed(g, events, room, first, now)
    ensures var q := Exec(NewRegistry(created), events);
      room in q.home && Resolve(q, room, now) == q.home[room]
  {
    var g := NewRegistry(created);
    var q := Exec(g, events);
    RegistrationIsWritten(g, events, r, room);
    assert Reachable(q);
    var at := events[r].at;
    Advance(g, events, r + 1, |events|);
    assert events[..|events|] == events;
    if now >= at + 300.0 {
      var n: nat := ((now - first) / 30.0).Floor;
      assert PassAt(n) <= now - first < PassAt(n) + 30.0;
      PassesAdvance(0, n);
      assert n >= 9;
      assert OneOfNineReaches(g, events, room, first, n - 9);
      var j: nat :| n - 9 <= j <= n - 9 + 8 && Reaches(g, events, room, first, j);
      at := PassIsWritten(g, events, room, first + PassAt(j), first + PassAt(j + 1));
      PassesAdvance(j, n);
      PassesAdvance(j + 1, n);
    }
    BoundIsLeased(q, room, at, now);
    LeaseExactly(q, room, now);
  }

  lemma BoundIsLeased(g: Registry, room: string, at: real, now: real)
    requires BoundAt(g, room, at) && now < at + 300.0
    ensures Leased(g, room, now)
  {
  }

  /** After n events the run has come to this time: the next event, if there is one, lies later. */
  predicate StateAt(g: Registry, events: seq<Event>, n: nat, now: real) {
    && n <= |events| && Exec(g, events[..n]).clock <= now
    && (n < |events| ==> now < Exec(g, events[..n + 1]).clock)
  }

  /** What the run has done by this time is done in its first n events. */
  lemma {:induction false} DoneBy(g: Registry, events: seq<Event>, n: nat, now: real, k: nat)
    requires StateAt(g, events, n, now) && k <= |events| && Exec(g, events[..k]).clock <= now
    ensures k <= n
  {
    if k > n {
      Advance(g, events, n + 1, k);
    }
  }

  lemma {:induction false} ReachedBefore(g: Registry, events: seq<Event>, n: nat, now: real, room: string,
                                         from: real, till: real)
    requires StateAt(g, events, n, now) && PassSucceeds(g, events, room, from, till) && till <= now
    ensures PassSucceeds(g, events[..n], room, from, till)
  {
    var i: nat, k: nat :|
      Listing(g, events, i, room) && i < k <= |events| && from <= events[i].at
      && Exec(g, events[..k]).clock < till && !Awaits(Exec(g, events[..k]), room);
    DoneBy(g, events, n, now, k);
    assert events[..n][..i] == events[..i] && events[..n][..k] == events[..k];
    assert Listing(g, events[..n], i, room);
  }

  /** From its registration until the end of its life, or until any other time by which never more than eight passes
      in a row have missed it, the room resolves to its own backend at every moment. */
  lemma {:induction false} LeaseIsKeptThroughout(created: real, events: seq<Event>, r: nat, room: string, first: real,
                                                 until: real, n: nat, now: real)
    requires var g := NewRegistry(created);
      && RegisteredBy(g, events, r, room) && events[r].at < first <= events[r].at + 30.0
      && NeverNineMissed(g, events, room, first, until)
      && StateAt(g, events, n, now) && events[r].at <= now <= until
    ensures var q := Exec(NewRegistry(created), events[..n]);
      room in q.home && Resolve(q, room, now) == q.home[room]
  {
    var g, past := NewRegistry(created), events[..n];
    RegistrationIsWritten(g, events, r, room);
    DoneBy(g, events, n, now, r + 1);
    assert past[..r] == events[..r];
    forall k: nat | first + PassAt(k + 9) <= now ensures OneOfNineReaches(g, past, room, first, k) {
      assert OneOfNineReaches(g, events, room, first, k);
      var j: nat :| k <= j <= k + 8 && Reaches(g, events, room, first, j);
      PassesAdvance(j + 1, k + 9);
      ReachedBefore(g, events, n, now, room, first + PassAt(j), first + PassAt(j + 1));
      assert Reaches(g, past, room, first, j);
    }
    LeaseIsKept(created, past, r, room, first, now);
  }
}
