/** What holds of a room and its clients after any sequence of events. */
module SystemInvariants {
  import opened Options
  import opened Messages
  import opened Playback
  import opened Timers
  import opened RoomMachine
  import opened RoomInvariants
  import opened System

  /** The updates among some messages, stamped with the connection they came from. */
  function Proposals(ms: seq<Message>, id: string): seq<Message> {
    if ms == [] then []
    else
      var last := ms[|ms| - 1];
      Proposals(ms[..|ms| - 1], id) + if last.typ == STATE_UPDATE then [last.(sender := id)] else []
  }

  /** The messages among some that a given connection has sent. */
  function From(ms: seq<Message>, id: string): seq<Message> {
    if ms == [] then []
    else
      var last := ms[|ms| - 1];
      From(ms[..|ms| - 1], id) + if last.sender == id then [last] else []
  }

  /** A message that may wait for the manager: a typed update, from the past, sent by a master. */
  ghost predicate Genuine(s: Sys, m: Message) {
    IsUpdate(m) && m.receivedAt <= s.clock && m.sender in s.procs && s.procs[m.sender].kind == Master
  }

  ghost predicate Typed(ms: seq<Message>, now: real) {
    forall i :: 0 <= i < |ms| ==> Agrees(ms[i].typ, ms[i].payload) && ms[i].receivedAt <= now
  }

  /** Only holders of the master key are masters, and nobody without a key is admitted. */
  ghost predicate Admitted(s: Sys) {
    forall id :: id in s.procs ==>
      s.procs[id].kind == Authorise(s, s.procs[id].token) && s.procs[id].kind != Unauthorised
  }

  /** The manager knows exactly the connections that have been handed to it. */
  ghost predicate Known(s: Sys) {
    && (forall id :: id in s.room.chans <==> id in s.procs && s.procs[id].joined)
    && (forall id :: id in s.room.clients ==> id in s.procs && s.room.clients[id] == ConnOf(s, id))
  }

  ghost predicate Provenance(s: Sys) {
    && (forall i :: 0 <= i < |s.room.log.received| ==> Genuine(s, s.room.log.received[i]))
    && (forall i :: 0 <= i < |s.queue| ==> Genuine(s, s.queue[i]))
  }

  /** What the manager has received from a master or has queued, and what the master's handler has not looked at
      yet, are together what the master has sent, in order. */
  ghost predicate Accounted(ms: seq<Message>, p: Proc, id: string) {
    From(ms, id) + Proposals(p.inbox, id) == Proposals(p.read, id)
  }

  ghost predicate InOrder(s: Sys) {
    && (forall id :: id in s.procs && s.procs[id].kind == Master ==>
          Accounted(s.room.log.received + s.queue, s.procs[id], id))
    && (forall id :: id in s.procs ==> Typed(s.procs[id].inbox, s.clock))
  }

  ghost predicate SysInv(s: Sys) {
    Inv(s.room, s.clock) && Admitted(s) && Known(s) && Provenance(s) && InOrder(s)
  }

  lemma NewSystemInv(sem: Semantics, masterKey: string, guestKey: string, now: real)
    ensures SysInv(NewSystem(sem, masterKey, guestKey, now))
  {
    NewRoomInv(sem, now);
  }

  // Lists

  lemma FromSnoc(ms: seq<Message>, m: Message, id: string)
    ensures From(ms + [m], id) == From(ms, id) + if m.sender == id then [m] else []
  {
    assert (ms + [m])[..|ms|] == ms;
  }

  lemma ProposalsSnoc(ms: seq<Message>, m: Message, id: string)
    ensures Proposals(ms + [m], id) == Proposals(ms, id) + if m.typ == STATE_UPDATE then [m.(sender := id)] else []
  {
    assert (ms + [m])[..|ms|] == ms;
  }

  lemma {:induction false} ProposalsHead(ms: seq<Message>, id: string)
    requires ms != []
    ensures Proposals(ms, id) ==
      (if ms[0].typ == STATE_UPDATE then [ms[0].(sender := id)] else []) + Proposals(ms[1..], id)
  {
    if |ms| == 1 {
      assert ms == [] + [ms[0]];
      ProposalsSnoc([], ms[0], id);
    } else {
      var front, last := ms[..|ms| - 1], ms[|ms| - 1];
      ProposalsHead(front, id);
      assert front[1..] + [last] == ms[1..];
      ProposalsSnoc(front[1..], last, id);
    }
  }

  // One lemma for each kind of event

  /** How a step of the manager changes what the rest of the server sees of it. */
  ghost predicate Shaped(r: RoomState, q: RoomState, a: Action) {
    && q.chans.Keys == r.chans.Keys + (if a.Join? then {a.c.id} else {})
    && (forall id :: id in q.clients ==>
          (id in r.clients && q.clients[id] == r.clients[id]) || (a.Join? && id == a.c.id && q.clients[id] == a.c))
    && q.log.received == r.log.received + (if a.Recv? && a.m.typ == STATE_UPDATE then [a.m] else [])
  }

  lemma StepShape(r: RoomState, a: Action, now0: real, now: real)
    requires Inv(r, now0) && now0 <= now && Enabled(r, a, now)
    ensures Shaped(r, Step(r, a, now), a)
  {
    hide OnUpdate, OnJoin, OnLeave, BroadcastState, OnCooldown, OnShutdown;
    match a
    case Recv(m) => UpdateShape(r, m, now0, now);
    case Join(c) => JoinShape(r, c, now);
    case Leave(c) => LeaveShape(r, c, now);
    case Tick => TickShape(r, now);
    case CooldownFires =>
    case CooldownServed => CooldownShape(r, now0, now);
    case ShutdownFires =>
    case ShutdownServed => ShutdownShape(r, now);
  }

  lemma TickShape(r: RoomState, now: real)
    requires Channels(r)
    ensures Shaped(r, BroadcastState(r, now), Tick)
  {
    BroadcastIsSafe(r, now);
  }

  lemma CooldownShape(r: RoomState, now0: real, now: real)
    requires Inv(r, now0) && now0 <= now && Enabled(r, CooldownServed, now)
    ensures Shaped(r, OnCooldown(r, now), CooldownServed)
  {
    CooldownEffect(r, now0, now);
  }

  lemma ShutdownShape(r: RoomState, now: real)
    requires Membership(r) && Channels(r) && Enabled(r, ShutdownServed, now)
    ensures Shaped(r, OnShutdown(r), ShutdownServed)
  {
    ShutdownEffect(r, now);
  }

  lemma UpdateShape(r: RoomState, m: Message, now0: real, now: real)
    requires Inv(r, now0) && now0 <= now && Enabled(r, Recv(m), now)
    ensures Shaped(r, OnUpdate(r, m, now), Recv(m))
  {
    if m.typ == STATE_UPDATE && now - r.state.lastUpdated > UPDATE_COOLDOWN {
      ImmediateEffect(r, m, now0, now);
    }
  }

  lemma JoinShape(r: RoomState, c: Conn, now: real)
    requires Membership(r) && Channels(r) && ShutdownGuards(r) && Enabled(r, Join(c), now)
    ensures Shaped(r, OnJoin(r, c, now), Join(c))
  {
    JoinStops(r, c, now);
    JoinSends(r, c, now);
  }

  lemma LeaveShape(r: RoomState, c: Conn, now: real)
    requires Membership(r) && Channels(r)
    ensures Shaped(r, OnLeave(r, c, now), Leave(c))
  {
    hide KillClient, Shaped, Membership, Channels;
    KillShape(r, c);
    ShapedAlike(r, KillClient(r, c), OnLeave(r, c, now), Leave(c));
  }

  lemma KillShape(r: RoomState, c: Conn)
    requires Membership(r) && Channels(r)
    ensures Shaped(r, KillClient(r, c), Leave(c))
  {
    KilledMembership(r, c);
  }

  lemma ShapedAlike(r: RoomState, q: RoomState, p: RoomState, a: Action)
    requires Shaped(r, q, a) && p.clients == q.clients && p.chans == q.chans && p.log == q.log
    ensures Shaped(r, p, a)
  {
  }

  /** The rest of the server keeps its promises to the manager. */
  lemma ManagerIsServed(s: Sys, e: Event)
    requires SysInv(s) && Possible(s, e) && ManagerAction(s, e.act).Some?
    ensures Enabled(s.room, ManagerAction(s, e.act).value, e.at)
  {
  }

  /** A connection is handed to the manager. */
  lemma EnqIsServed(s: Sys, e: Event)
    requires SysInv(s) && Possible(s, e) && e.act.Enq?
    ensures var c := ConnOf(s, e.act.id);
      && Next(s, e) == s.(procs := s.procs[e.act.id := s.procs[e.act.id].(joined := true)], clock := e.at,
                          room := OnJoin(s.room, c, e.at))
      && Enabled(s.room, Join(c), e.at) && Inv(s.room, s.clock)
  {
    hide OnJoin, Inv;
    ManagerIsServed(s, e);
  }

  /** Time passing keeps everything. */
  lemma Later(r: RoomState, now0: real, now: real)
    requires Inv(r, now0) && now0 <= now
    ensures Inv(r, now)
  {
    LookKeeps(r, r, now0, now);
  }

  /** Connections come and work; who they are does not change. */
  ghost predicate Grown(s: Sys, q: Sys) {
    && q.masterKey == s.masterKey && q.guestKey == s.guestKey && s.clock <= q.clock
    && (forall id :: id in s.procs ==>
          id in q.procs && q.procs[id].kind == s.procs[id].kind && q.procs[id].token == s.procs[id].token)
  }

  lemma GrownKeepsAdmitted(s: Sys, q: Sys)
    requires Admitted(s) && Grown(s, q)
    requires forall id :: id in q.procs && id !in s.procs ==>
               q.procs[id].kind == Authorise(s, q.procs[id].token) && q.procs[id].kind != Unauthorised
    ensures Admitted(q)
  {
  }

  lemma GrownKeepsKnown(s: Sys, q: Sys)
    requires Known(s) && Grown(s, q) && q.room == s.room
    requires forall id :: id in q.procs ==> q.procs[id].joined == (id in s.procs && s.procs[id].joined)
    ensures Known(q)
  {
  }

  lemma GrownKeepsProvenance(s: Sys, q: Sys)
    requires Provenance(s) && Grown(s, q)
    requires forall i :: 0 <= i < |q.room.log.received| ==>
               Genuine(s, q.room.log.received[i]) || Genuine(q, q.room.log.received[i])
    requires forall i :: 0 <= i < |q.queue| ==> Genuine(s, q.queue[i]) || Genuine(q, q.queue[i])
    ensures Provenance(q)
  {
  }

  lemma {:induction false} NothingFrom(s: Sys, ms: seq<Message>, id: string)
    requires forall i :: 0 <= i < |ms| ==> Genuine(s, ms[i])
    requires id !in s.procs
    ensures From(ms, id) == []
  {
    if ms != [] {
      assert Genuine(s, ms[|ms| - 1]);
      NothingFrom(s, ms[..|ms| - 1], id);
    }
  }

  lemma AdmitKeepsOrder(s: Sys, q: Sys, id: string, p: Proc)
    requires Provenance(s) && InOrder(s) && s.clock <= q.clock
    requires id !in s.procs && q.procs == s.procs[id := p] && p.inbox == [] && p.read == []
    requires q.room == s.room && q.queue == s.queue
    ensures InOrder(q)
  {
    NothingFrom(s, s.room.log.received + s.queue, id);
    assert Accounted(s.room.log.received + s.queue, p, id);
  }

  lemma ReadAccounted(ms: seq<Message>, p: Proc, id: string, m: Message)
    requires Accounted(ms, p, id)
    ensures Accounted(ms, p.(inbox := p.inbox + [m], read := p.read + [m]), id)
  {
    ProposalsSnoc(p.inbox, m, id);
    ProposalsSnoc(p.read, m, id);
    Associate(From(ms, id), Proposals(p.inbox, id), if m.typ == STATE_UPDATE then [m.(sender := id)] else []);
  }

  lemma Associate(a: seq<Message>, b: seq<Message>, c: seq<Message>)
    ensures a + (b + c) == (a + b) + c
  {
  }

  lemma ReadKeepsOrder(s: Sys, q: Sys, id: string, m: Message)
    requires InOrder(s) && s.clock <= q.clock && id in s.procs
    requires Agrees(m.typ, m.payload) && m.receivedAt <= q.clock
    requires q.procs == s.procs[id := s.procs[id].(inbox := s.procs[id].inbox + [m], read := s.procs[id].read + [m])]
    requires q.room == s.room && q.queue == s.queue
    ensures InOrder(q)
  {
    if s.procs[id].kind == Master {
      ReadAccounted(s.room.log.received + s.queue, s.procs[id], id, m);
    }
  }

  /** A handler takes a message off its inbox that is no update. */
  lemma DropAccounted(ms: seq<Message>, p: Proc, id: string)
    requires Accounted(ms, p, id) && p.inbox != [] && p.inbox[0].typ != STATE_UPDATE
    ensures Accounted(ms, p.(inbox := p.inbox[1..]), id)
  {
    ProposalsHead(p.inbox, id);
  }

  lemma DropKeepsOrder(s: Sys, q: Sys, id: string)
    requires InOrder(s) && s.clock <= q.clock && id in s.procs && s.procs[id].inbox != []
    requires s.procs[id].kind != Master || s.procs[id].inbox[0].typ != STATE_UPDATE
    requires q.procs == s.procs[id := s.procs[id].(inbox := s.procs[id].inbox[1..])]
    requires q.room == s.room && q.queue == s.queue
    ensures InOrder(q)
  {
    if s.procs[id].kind == Master {
      DropAccounted(s.room.log.received + s.queue, s.procs[id], id);
    }
  }

  /** A master's handler passes an update on to the room. */
  lemma ForwardAccounted(ms: seq<Message>, p: Proc, id: string)
    requires Accounted(ms, p, id) && p.inbox != [] && p.inbox[0].typ == STATE_UPDATE
    ensures Accounted(ms + [p.inbox[0].(sender := id)], p.(inbox := p.inbox[1..]), id)
  {
    ProposalsHead(p.inbox, id);
    FromSnoc(ms, p.inbox[0].(sender := id), id);
    Associate(From(ms, id), [p.inbox[0].(sender := id)], Proposals(p.inbox[1..], id));
  }

  lemma ForwardKeepsOrder(s: Sys, q: Sys, id: string)
    requires InOrder(s) && s.clock <= q.clock && id in s.procs && s.procs[id].inbox != []
    requires s.procs[id].kind == Master && s.procs[id].inbox[0].typ == STATE_UPDATE
    requires q.procs == s.procs[id := s.procs[id].(inbox := s.procs[id].inbox[1..])]
    requires q.room == s.room && q.queue == s.queue + [s.procs[id].inbox[0].(sender := id)]
    ensures InOrder(q)
  {
    var m := s.procs[id].inbox[0].(sender := id);
    var ms := s.room.log.received + s.queue;
    assert q.room.log.received + q.queue == ms + [m];
    forall other | other in q.procs && q.procs[other].kind == Master
      ensures Accounted(ms + [m], q.procs[other], other)
    {
      if other == id {
        ForwardAccounted(ms, s.procs[id], id);
      } else {
        assert Accounted(ms, s.procs[other], other);
        FromSnoc(ms, m, other);
      }
    }
  }

  lemma OutsideKeepsOrder(s: Sys, e: Event)
    requires Provenance(s) && InOrder(s) && Possible(s, e) && ManagerAction(s, e.act).None?
    ensures InOrder(Outside(s, e).(clock := e.at))
  {
    var q := Outside(s, e).(clock := e.at);
    match e.act
    case Admit(id, token) =>
      if Authorise(s, token) != Unauthorised { AdmitKeepsOrder(s, q, id, q.procs[id]); }
    case Read(id, frame) =>
      var received := Received(frame, e.at);
      if received.Some? { ReadKeepsOrder(s, q, id, received.value); }
    case Handle(id) =>
      if s.procs[id].kind == Master && s.procs[id].inbox[0].typ == STATE_UPDATE {
        ForwardKeepsOrder(s, q, id);
      } else {
        assert Agrees(s.procs[id].inbox[0].typ, s.procs[id].inbox[0].payload);
        DropKeepsOrder(s, q, id);
      }
  }

  lemma OutsideKeeps(s: Sys, e: Event)
    requires SysInv(s) && Possible(s, e) && ManagerAction(s, e.act).None?
    ensures SysInv(Next(s, e))
  {
    Later(s.room, s.clock, e.at);
    OutsideLeavesRoom(s, e);
    OutsideKeepsAdmitted(s, e);
    OutsideKeepsKnown(s, e);
    OutsideKeepsProvenance(s, e);
    OutsideKeepsOrder(s, e);
  }

  lemma OutsideLeavesRoom(s: Sys, e: Event)
    requires InOrder(s) && Possible(s, e) && ManagerAction(s, e.act).None?
    ensures Next(s, e).room == s.room
  {
    if e.act.Handle? {
      var first := s.procs[e.act.id].inbox[0];
      assert Agrees(first.typ, first.payload);
    }
  }

  lemma OutsideGrows(s: Sys, e: Event)
    requires Possible(s, e) && ManagerAction(s, e.act).None?
    ensures Grown(s, Outside(s, e).(clock := e.at, room := s.room))
  {
  }

  lemma OutsideKeepsAdmitted(s: Sys, e: Event)
    requires Admitted(s) && Possible(s, e) && ManagerAction(s, e.act).None?
    ensures Admitted(Outside(s, e).(clock := e.at, room := s.room))
  {
    OutsideGrows(s, e);
    GrownKeepsAdmitted(s, Outside(s, e).(clock := e.at, room := s.room));
  }

  lemma OutsideKeepsKnown(s: Sys, e: Event)
    requires Known(s) && Possible(s, e) && ManagerAction(s, e.act).None?
    ensures Known(Outside(s, e).(clock := e.at, room := s.room))
  {
    OutsideGrows(s, e);
    GrownKeepsKnown(s, Outside(s, e).(clock := e.at, room := s.room));
  }

  lemma OutsideKeepsProvenance(s: Sys, e: Event)
    requires Provenance(s) && InOrder(s) && Possible(s, e) && ManagerAction(s, e.act).None?
    ensures Provenance(Outside(s, e).(clock := e.at, room := s.room))
  {
    if e.act.Handle? {
      var first := s.procs[e.act.id].inbox[0];
      assert Agrees(first.typ, first.payload) && first.receivedAt <= s.clock;
    }
    GrownKeepsProvenance(s, Outside(s, e).(clock := e.at, room := s.room));
  }

  /** A step of the manager, together with what it changes outside. */
  lemma ManagerKeeps(s: Sys, e: Event)
    requires SysInv(s) && Possible(s, e) && ManagerAction(s, e.act).Some?
    ensures SysInv(Next(s, e))
  {
    var a := ManagerAction(s, e.act).value;
    ManagerIsServed(s, e);
    StepKeeps(s.room, a, s.clock, e.at);
    StepShape(s.room, a, s.clock, e.at);
    ManagerKeepsPeople(s, e, Next(s, e));
    ManagerKeepsProvenance(s, e, Next(s, e));
    ManagerKeepsOrder(s, e, Next(s, e));
  }

  lemma ManagerKeepsPeople(s: Sys, e: Event, q: Sys)
    requires Admitted(s) && Known(s) && Possible(s, e) && ManagerAction(s, e.act).Some?
    requires Shaped(s.room, q.room, ManagerAction(s, e.act).value)
    requires q == Outside(s, e).(clock := e.at, room := q.room)
    ensures Admitted(q) && Known(q)
  {
    hide *;
    ManagerKeepsAdmitted(s, e, q);
    ManagerKeepsKnown(s, e, q);
  }

  lemma ManagerKeepsAdmitted(s: Sys, e: Event, q: Sys)
    requires Admitted(s) && Possible(s, e) && ManagerAction(s, e.act).Some?
    requires q == Outside(s, e).(clock := e.at, room := q.room)
    ensures Admitted(q)
  {
  }

  lemma ManagerKeepsKnown(s: Sys, e: Event, q: Sys)
    requires Known(s) && Possible(s, e) && ManagerAction(s, e.act).Some?
    requires Shaped(s.room, q.room, ManagerAction(s, e.act).value)
    requires q == Outside(s, e).(clock := e.at, room := q.room)
    ensures Known(q)
  {
  }

  lemma ManagerKeepsProvenance(s: Sys, e: Event, q: Sys)
    requires Provenance(s) && Possible(s, e) && ManagerAction(s, e.act).Some?
    requires Shaped(s.room, q.room, ManagerAction(s, e.act).value)
    requires q == Outside(s, e).(clock := e.at, room := q.room)
    ensures Provenance(q)
    ensures q.room.log.received + q.queue == s.room.log.received + s.queue
  {
    if e.act.Serve? {
      assert Genuine(s, s.queue[0]);
    }
    GrownKeepsProvenance(s, q);
  }

  lemma ManagerKeepsOrder(s: Sys, e: Event, q: Sys)
    requires InOrder(s) && Possible(s, e) && ManagerAction(s, e.act).Some?
    requires q == Outside(s, e).(clock := e.at, room := q.room)
    requires q.room.log.received + q.queue == s.room.log.received + s.queue
    ensures InOrder(q)
  {
    var ms := s.room.log.received + s.queue;
    forall id | id in q.procs && q.procs[id].kind == Master ensures Accounted(ms, q.procs[id], id) {
      assert Accounted(ms, s.procs[id], id);
    }
  }

  lemma NextKeeps(s: Sys, e: Event)
    requires SysInv(s)
    ensures SysInv(Next(s, e))
  {
    if Possible(s, e) {
      if ManagerAction(s, e.act).Some? {
        ManagerKeeps(s, e);
      } else {
        OutsideKeeps(s, e);
      }
    }
  }

  /** Every reachable state is sound, whatever happens and in whatever order. */
  lemma {:induction false} RunKeeps(s: Sys, events: seq<Event>)
    requires SysInv(s)
    ensures SysInv(Exec(s, events))
    decreases events
  {
    if events != [] {
      NextKeeps(s, events[0]);
      RunKeeps(Next(s, events[0]), events[1..]);
    }
  }
}
