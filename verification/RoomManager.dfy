/** The room as the server has it: an object whose fields the manager updates in place, one method for each case of
    the `select` statement in `RunManager`. Every method refines a step of the machine in RoomMachine. */
module RoomManager {
  import opened Options
  import opened Messages
  import opened Playback
  import opened Timers
  import opened RoomMachine
  import opened RoomInvariants

  /** A client connection, with the two channels that the manager closes. */
  class ClientConn {
    const id: string
    const kind: Kind
    var sendQueue: seq<StateMessage>
    var sendClosed: bool
    var closingClosed: bool

    constructor (id: string, kind: Kind)
      ensures this.id == id && this.kind == kind && Channel() == OPEN
    {
      this.id, this.kind := id, kind;
      sendQueue, sendClosed, closingClosed := [], false, false;
    }

    function Channel(): Chan
      reads this
    {
      Chan(sendQueue, sendClosed, closingClosed)
    }

    function Value(): Conn {
      Conn(id, kind)
    }

    /** Sending on a closed channel panics. */
    method Send(m: StateMessage)
      requires !sendClosed
      modifies this`sendQueue
      ensures sendQueue == old(sendQueue) + [m]
    {
      sendQueue := sendQueue + [m];
    }

    /** Closing a closed channel panics. */
    method Close()
      requires !sendClosed && !closingClosed
      modifies this`sendClosed, this`closingClosed
      ensures sendClosed && closingClosed
    {
      closingClosed := true;
      sendClosed := true;
    }
  }

  /** What the select statement has chosen, or what the runtime does to a timer in the meantime. */
  datatype Chosen =
    | Queued(m: Message)
    | Entering(client: ClientConn)
    | Leaving(client: ClientConn)
    | Ticking
    | CooldownFiring
    | CooldownExpired
    | ShutdownFiring
    | ShutdownExpired

  function ActionOf(chosen: Chosen): Action {
    match chosen
    case Queued(m) => Recv(m)
    case Entering(c) => Join(c.Value())
    case Leaving(c) => Leave(c.Value())
    case Ticking => Tick
    case CooldownFiring => CooldownFires
    case CooldownExpired => CooldownServed
    case ShutdownFiring => ShutdownFires
    case ShutdownExpired => ShutdownServed
  }

  class Room {
    const sem: Semantics
    const created: real
    var clients: map<string, ClientConn>
    var masters: map<string, ClientConn>
    var state: PlaybackState

    // The local variables of RunManager
    var bufferedUpdate: Option<Message>
    var updateCooldownTimer: Timer
    var shutdownTimer: Timer
    var outcome: Outcome

    // Every connection that has joined, and the history
    ghost var conns: map<string, ClientConn>
    ghost var log: Log
    ghost var presence: Presence

    /** The channels of every connection that has joined. */
    ghost function Chans(): map<string, Chan>
      reads this`conns, conns.Values
    {
      map id | id in conns :: conns[id].Channel()
    }

    /** The machine state that the object stands for. */
    ghost function Abs(): RoomState
      reads this, conns.Values
    {
      RoomState(sem, created, Values(clients), Values(masters), Chans(),
                state, bufferedUpdate, updateCooldownTimer, shutdownTimer, outcome, log, presence)
    }

    /** The maps hold connections that have joined, under their own names. */
    ghost predicate WellFormed()
      reads this`conns, this`clients, this`masters
    {
      && (forall id :: id in conns ==> conns[id].id == id)
      && (forall id :: id in clients ==> id in conns && clients[id] == conns[id])
      && (forall id :: id in masters ==> id in conns && masters[id] == conns[id])
    }

    /** What the room keeps, as of time `now`. */
    ghost predicate Valid(now: real)
      reads this, conns.Values
    {
      WellFormed() && Inv(Abs(), now)
    }

    constructor (sem: Semantics, now: real)
      ensures Valid(now) && Abs() == NewRoom(sem, now)
    {
      this.sem, created := sem, now;
      clients, masters, conns := map[], map[], map[];
      state := PlaybackState("", STOPPED, 0.0, 1.0, 0.0, now);
      bufferedUpdate := None;
      updateCooldownTimer := Stop(NewTimer(now, UPDATE_COOLDOWN), sem);
      shutdownTimer := NewTimer(now, MASTERLESS_TIMEOUT);
      outcome := Running;
      log, presence := Log([], [], [], 0, now, 0), Presence(now, false);
      new;
      NewRoomInv(sem, now);
      assert Abs() == NewRoom(sem, now);
    }

    // The playback clock

    method CheckPosition(now: real)
      modifies this`state
      ensures state == Playback.CheckPosition(old(state), now)
    {
      var newPos := state.position;
      if state.status == PLAYING {
        newPos := newPos + (now - state.lastUpdated) * state.speed;
      }
      if newPos > state.duration {
        state := state.(position := state.duration);
        state := state.(status := STOPPED);
        state := state.(lastUpdated := now);
      }
    }

    method UpdateState(u: Update, age: real, now: real)
      modifies this`state
      ensures state == ApplyUpdate(u, age, now)
    {
      state := state.(source := u.state.source);
      state := state.(status := u.state.status);
      state := state.(speed := u.state.speed);
      state := state.(duration := u.state.duration);
      var newPos := u.state.position;
      if state.status == PLAYING {
        newPos := newPos + (Max(u.rtt / 2.0, 0.0) + age) * u.state.speed;
      }
      state := state.(position := newPos);
      state := state.(lastUpdated := now);
    }

    method GetCurrentStateMessage(now: real) returns (m: StateMessage)
      modifies this`state
      ensures state == Observe(old(state), now).0 && m == Observe(old(state), now).1
    {
      CheckPosition(now);
      var newPos := state.position;
      if state.status == PLAYING {
        newPos := newPos + (now - state.lastUpdated) * state.speed;
      }
      m := StateMessage(state.source, state.status, newPos, state.speed, state.duration);
    }

    // Sending

    /** The loop of BroadcastState over the clients, in whatever order the map yields them. */
    method SendToAll(m: StateMessage)
      requires WellFormed() && forall id :: id in clients ==> !clients[id].sendClosed
      modifies conns.Values
      ensures forall id :: id in conns ==>
                conns[id].Channel() == if id in clients
                                       then old(conns[id].Channel()).(sent := old(conns[id].sendQueue) + [m])
                                       else old(conns[id].Channel())
    {
      var pending := clients.Keys;
      while pending != {}
        invariant pending <= clients.Keys
        invariant forall id :: id in conns ==>
                    conns[id].Channel() == if id in clients && id !in pending
                                           then old(conns[id].Channel()).(sent := old(conns[id].sendQueue) + [m])
                                           else old(conns[id].Channel())
      {
        var id :| id in pending;
        assert conns[id].Channel() == old(conns[id].Channel());
        clients[id].Send(m);
        pending := pending - {id};
      }
    }

    method BroadcastState(now: real)
      requires WellFormed() && Channels(Abs())
      modifies this`state, conns.Values
      ensures Abs() == RoomMachine.BroadcastState(old(Abs()), now)
    {
      ghost var before := Abs();
      var m := GetCurrentStateMessage(now);
      assert forall id :: id in clients ==> id in before.clients && IsOpen(before.chans[id]);
      SendToAll(m);
      BroadcastMatches(before, Abs(), now);
    }

    method SendState(cid: string, now: real)
      requires WellFormed() && Channels(Abs())
      modifies this`state, conns.Values
      ensures Abs() == RoomMachine.SendState(old(Abs()), cid, now)
    {
      ghost var before := Abs();
      var m := GetCurrentStateMessage(now);
      if cid in clients {
        assert cid in before.clients && IsOpen(before.chans[cid]);
        clients[cid].Send(m);
      }
      SendMatches(before, Abs(), cid, now);
    }

    // Membership

    /** Keeps account of the connections whose channels the manager owns. */
    ghost method Register(c: ClientConn)
      requires WellFormed() && c.id !in conns && c.Channel() == OPEN
      modifies this`conns
      ensures WellFormed() && conns == old(conns)[c.id := c]
      ensures Abs() == old(Abs()).(chans := old(Abs()).chans[c.id := OPEN])
    {
      ghost var before := Abs();
      conns := conns[c.id := c];
      assert Abs().chans == before.chans[c.id := OPEN];
    }

    method JoinClient(c: ClientConn)
      requires WellFormed() && c.id !in conns && c.Channel() == OPEN
      modifies this`clients, this`masters, this`conns
      ensures WellFormed() && conns == old(conns)[c.id := c]
      ensures Abs() == RoomMachine.JoinClient(old(Abs()), c.Value())
    {
      Register(c);
      Enter(c);
    }

    method Enter(c: ClientConn)
      requires WellFormed() && c.id in conns && conns[c.id] == c
      modifies this`clients, this`masters
      ensures WellFormed()
      ensures Abs() == old(Abs()).(clients := old(Abs()).clients[c.id := c.Value()],
                                   masters := if c.kind == Master then old(Abs()).masters[c.id := c.Value()]
                                              else old(Abs()).masters)
    {
      hide Values;
      ValuesInsert(clients, c);
      ValuesInsert(masters, c);
      clients := clients[c.id := c];
      if c.kind == Master {
        masters := masters[c.id := c];
      }
    }

    /** A connection leaves if it is the one that is registered under its name. */
    method KillClient(c: ClientConn)
      requires WellFormed() && Channels(Abs())
      requires c.id in conns ==> conns[c.id] == c
      modifies this`clients, this`masters, conns.Values
      ensures WellFormed() && Abs() == RoomMachine.KillClient(old(Abs()), c.Value())
      ensures clients == if c.id in old(clients) && old(clients)[c.id] == c then old(clients) - {c.id} else old(clients)
    {
      ghost var before := Abs();
      if c.id in clients && clients[c.id] == c {
        assert c.id in before.clients && IsOpen(before.chans[c.id]);
        clients := clients - {c.id};
        masters := masters - {c.id};
        c.Close();
        ValuesRemove(old(clients), c.id);
        ValuesRemove(old(masters), c.id);
        KillMatches(before, Abs(), c.Value());
      }
    }

    // The cases of the select statement

    /** An update reaches the playback state and is broadcast. */
    method Apply(m: Message, now: real, ghost entry: Applied)
      requires WellFormed() && Channels(Abs()) && m.payload.UpdatePayload? && entry.at == now
      modifies this`state, this`log, conns.Values
      ensures Abs() == RoomMachine.Apply(old(Abs()), m, entry)
    {
      ghost var before := Abs();
      UpdateState(m.payload.update, now - m.receivedAt, now);
      log := log.(applied := log.applied + [entry]);
      assert Abs() == RoomMachine.UpdateState(before, m, entry);
      BroadcastState(now);
    }

    /** A message from the queue: an update is applied at once or takes the place in the buffer. */
    method OnMessage(m: Message, now: real)
      requires WellFormed() && Channels(Abs()) && (m.typ == STATE_UPDATE ==> m.payload.UpdatePayload?)
      modifies this`state, this`bufferedUpdate, this`updateCooldownTimer, this`log, conns.Values
      ensures Abs() == OnUpdate(old(Abs()), m, now)
    {
      if m.typ == STATE_UPDATE {
        hide ApplyAtOnce, Hold;
        log := log.(received := log.received + [m]);
        assert Abs() == Record(old(Abs()), m);
        if now - state.lastUpdated > UPDATE_COOLDOWN {
          ApplyNow(m, now);
        } else {
          Buffer(m, now);
        }
      }
    }

    method ApplyNow(m: Message, now: real)
      requires WellFormed() && Channels(Abs()) && m.payload.UpdatePayload? && log.received != []
      modifies this`state, this`log, conns.Values
      ensures Abs() == ApplyAtOnce(old(Abs()), m, now)
    {
      Apply(m, now, Applied(|log.received| - 1, now, true, now, |log.applied|));
    }

    /** The update replaces the one that waits, or starts the timer. */
    method Buffer(m: Message, now: real)
      requires WellFormed() && log.received != []
      modifies this`bufferedUpdate, this`updateCooldownTimer, this`log
      ensures Abs() == Hold(old(Abs()), m, now)
    {
      if bufferedUpdate.None? {
        updateCooldownTimer := Reset(updateCooldownTimer, sem, now, BUFFER_DELAY);
        log := log.(armedAt := now);
      } else {
        log := log.(superseded := log.superseded + [log.pending]);
      }
      bufferedUpdate := Some(m);
      log := log.(pending := |log.received| - 1, appliedBefore := |log.applied|);
    }

    /** The cooldown is over: the buffered update, if any, is applied. */
    method OnUpdateCooldown(now: real)
      requires WellFormed() && Channels(Abs()) && updateCooldownTimer.unread
      requires bufferedUpdate.Some? ==> bufferedUpdate.value.payload.UpdatePayload?
      modifies this`state, this`bufferedUpdate, this`updateCooldownTimer, this`log, conns.Values
      ensures Abs() == OnCooldown(old(Abs()), now)
    {
      hide Release;
      updateCooldownTimer := Receive(updateCooldownTimer);
      assert Abs() == old(Abs()).(cooldown := updateCooldownTimer);
      if bufferedUpdate.Some? {
        ApplyBuffered(now);
      } else {
        bufferedUpdate := None;
      }
    }

    /** The buffered update is applied and broadcast, and leaves the buffer. */
    method ApplyBuffered(now: real)
      requires WellFormed() && Channels(Abs())
      requires bufferedUpdate.Some? && bufferedUpdate.value.payload.UpdatePayload?
      modifies this`state, this`bufferedUpdate, this`log, conns.Values
      ensures Abs() == Release(old(Abs()), now)
    {
      hide RoomMachine.Apply;
      var m := bufferedUpdate.value;
      Apply(m, now, Applied(log.pending, now, false, log.armedAt, log.appliedBefore));
      ghost var applied := Abs();
      bufferedUpdate := None;
      assert Abs() == applied.(buffered := None);
    }

    /** Stops the shutdown timer and drains its channel if it had expired; the drain does not block. */
    method StopShutdownTimer()
      requires shutdownTimer.active || shutdownTimer.unread
      modifies this`shutdownTimer
      ensures Abs() == StopShutdown(old(Abs()))
    {
      var stopped := Stops(shutdownTimer, sem);
      shutdownTimer := Stop(shutdownTimer, sem);
      if !stopped {
        shutdownTimer := Receive(shutdownTimer);
      }
    }

    /** A client is handed over: it becomes a member and is sent the current state. */
    method Welcome(c: ClientConn, now: real)
      requires WellFormed() && Membership(Abs()) && Channels(Abs())
      requires c.id !in conns && c.Channel() == OPEN
      modifies this`clients, this`masters, this`conns, this`state, conns.Values, c
      ensures WellFormed() && conns == old(conns)[c.id := c]
      ensures Abs() == RoomMachine.SendState(RoomMachine.JoinClient(old(Abs()), c.Value()), c.id, now)
    {
      ghost var before := Abs();
      JoinClient(c);
      assert Channels(Abs()) by { JoinedMembership(before, c.Value()); }
      SendState(c.id, now);
    }

    /** The first master stops the shutdown timer. */
    method OnEnqClient(c: ClientConn, now: real)
      requires WellFormed() && Membership(Abs()) && Channels(Abs()) && ShutdownGuards(Abs()) && outcome == Running
      requires c.id !in conns && c.Channel() == OPEN
      modifies this`clients, this`masters, this`conns, this`state, this`shutdownTimer, conns.Values, c
      ensures WellFormed() && conns == old(conns)[c.id := c]
      ensures Abs() == OnJoin(old(Abs()), c.Value(), now)
    {
      hide RoomMachine.SendState, RoomMachine.JoinClient, StopShutdown;
      ghost var before := Abs();
      Welcome(c, now);
      ghost var sent := Abs();
      StopIsDue(before, sent, c.Value(), now);
      MastersCount(masters);
      if c.kind == Master && |masters| == 1 {
        StopShutdownTimer();
      }
    }

    /** No master is left; whether one has been until now goes into the history. */
    method RestartShutdownTimer(ghost left: bool, now: real)
      modifies this`shutdownTimer, this`presence
      ensures Abs() == StartShutdown(old(Abs()), left, now)
    {
      presence := Presence(if left then now else presence.mastersLeftAt,
                           presence.staleReset || shutdownTimer.unread);
      shutdownTimer := Reset(shutdownTimer, sem, now, MASTERLESS_TIMEOUT);
    }

    /** A goroutine of a client reports its end; without a master left the shutdown timer starts anew. */
    method OnDeqClient(c: ClientConn, now: real)
      requires WellFormed() && Channels(Abs()) && (c.id in conns ==> conns[c.id] == c)
      modifies this`clients, this`masters, this`shutdownTimer, this`presence, conns.Values
      ensures WellFormed() && Abs() == OnLeave(old(Abs()), c.Value(), now)
    {
      hide RoomMachine.KillClient, StartShutdown;
      ghost var before := Abs();
      KillClient(c);
      MastersCount(masters);
      if c.kind == Master && |masters| == 0 {
        RestartShutdownTimer(before.masters != map[], now);
      }
    }

    /** The shutdown: the deferred function stops the timers and kills every client that is left. The map shrinks
        while it is iterated over; an entry that has been removed is not visited. */
    method OnShutdownTimer()
      requires WellFormed() && Membership(Abs()) && Channels(Abs()) && shutdownTimer.unread
      modifies this`clients, this`masters, this`shutdownTimer, this`updateCooldownTimer, this`outcome, conns.Values
      ensures WellFormed() && Abs() == OnShutdown(old(Abs()))
    {
      hide KillAll;
      Return();
      KillRemaining();
    }

    method Return()
      requires shutdownTimer.unread
      modifies this`shutdownTimer, this`updateCooldownTimer, this`outcome
      ensures Abs() == RoomMachine.StopTimers(old(Abs()))
    {
      shutdownTimer := Receive(shutdownTimer);
      outcome := Returned;
      shutdownTimer := Stop(shutdownTimer, sem);
      updateCooldownTimer := Stop(updateCooldownTimer, sem);
    }

    method KillRemaining()
      requires WellFormed() && Membership(Abs()) && Channels(Abs())
      modifies this`clients, this`masters, conns.Values
      ensures WellFormed() && Abs() == KillAll(old(Abs()))
    {
      ghost var before := Abs();
      while clients != map[]
        invariant WellFormed() && PartlyKilled(before, Abs())
        decreases clients.Keys
      {
        var id :| id in clients;
        ghost var r := Abs();
        KillClient(clients[id]);
        KillOneMore(before, r, id);
      }
      AllKilled(before, Abs());
    }

    /** The select statement. */
    method Select(chosen: Chosen, now: real)
      requires WellFormed() && Membership(Abs()) && Channels(Abs()) && ShutdownGuards(Abs())
      requires bufferedUpdate.Some? ==> IsUpdate(bufferedUpdate.value)
      requires Enabled(Abs(), ActionOf(chosen), now)
      requires chosen.Entering? ==> chosen.client.Channel() == OPEN
      requires chosen.Leaving? && chosen.client.id in conns ==> conns[chosen.client.id] == chosen.client
      modifies this, conns.Values, if chosen.Entering? then {chosen.client} else {}
      ensures WellFormed()
      ensures Abs() == Step(old(Abs()), ActionOf(chosen), now)
      ensures conns == if chosen.Entering? then old(conns)[chosen.client.id := chosen.client] else old(conns)
    {
      hide OnUpdate, OnJoin, OnLeave, OnCooldown, OnShutdown, RoomMachine.BroadcastState;
      match chosen {
        case Queued(m) => OnMessage(m, now);
        case Entering(c) => OnEnqClient(c, now);
        case Leaving(c) => OnDeqClient(c, now);
        case Ticking => BroadcastState(now);
        case CooldownFiring => updateCooldownTimer := Fire(updateCooldownTimer);
        case CooldownExpired => OnUpdateCooldown(now);
        case ShutdownFiring => shutdownTimer := Fire(shutdownTimer);
        case ShutdownExpired => OnShutdownTimer();
      }
    }

    /** One turn of the loop in RunManager is one step of the machine, and it keeps the room valid. A connection is
        handed over once, under a name of its own. */
    method Turn(chosen: Chosen, ghost before: real, now: real)
      requires Valid(before) && before <= now && Enabled(Abs(), ActionOf(chosen), now)
      requires chosen.Entering? ==> chosen.client.Channel() == OPEN
      requires chosen.Leaving? && chosen.client.id in conns ==> conns[chosen.client.id] == chosen.client
      modifies this, conns.Values, if chosen.Entering? then {chosen.client} else {}
      ensures Valid(now) && Abs() == Step(old(Abs()), ActionOf(chosen), now)
      ensures conns == if chosen.Entering? then old(conns)[chosen.client.id := chosen.client] else old(conns)
    {
      StepKeeps(Abs(), ActionOf(chosen), before, now);
      Select(chosen, now);
    }
  }

  ghost function Values(m: map<string, ClientConn>): map<string, Conn> {
    map id | id in m :: m[id].Value()
  }

  lemma ValuesInsert(m: map<string, ClientConn>, c: ClientConn)
    ensures Values(m[c.id := c]) == Values(m)[c.id := c.Value()]
  {
  }

  lemma ValuesRemove(m: map<string, ClientConn>, id: string)
    ensures Values(m - {id}) == Values(m) - {id}
  {
  }

  /** A broadcast, recognised by what it does. */
  lemma BroadcastMatches(r: RoomState, q: RoomState, now: real)
    requires Channels(r)
    requires q == r.(state := Observe(r.state, now).0, chans := q.chans) && q.chans.Keys == r.chans.Keys
    requires forall id :: id in r.chans ==>
               q.chans[id] == if id in r.clients then r.chans[id].(sent := r.chans[id].sent + [Observe(r.state, now).1])
                              else r.chans[id]
    ensures q == RoomMachine.BroadcastState(r, now)
  {
    var (st, m) := Observe(r.state, now);
    DeliverIsSafe(r.(state := st), r.clients.Keys, m);
    assert q.chans == RoomMachine.BroadcastState(r, now).chans;
  }

  lemma SendMatches(r: RoomState, q: RoomState, cid: string, now: real)
    requires Channels(r)
    requires q == r.(state := Observe(r.state, now).0, chans := q.chans) && q.chans.Keys == r.chans.Keys
    requires forall id :: id in r.chans ==>
               q.chans[id] == if id == cid && id in r.clients
                              then r.chans[id].(sent := r.chans[id].sent + [Observe(r.state, now).1])
                              else r.chans[id]
    ensures q == RoomMachine.SendState(r, cid, now)
  {
    var (st, m) := Observe(r.state, now);
    if cid in r.clients {
      DeliverIsSafe(r.(state := st), {cid}, m);
    }
    assert q.chans == RoomMachine.SendState(r, cid, now).chans;
  }

  lemma KillMatches(r: RoomState, q: RoomState, c: Conn)
    requires Channels(r) && c.id in r.clients && r.clients[c.id] == c
    requires q == r.(clients := q.clients, masters := q.masters, chans := q.chans)
    requires q.clients == r.clients - {c.id} && q.masters == r.masters - {c.id} && q.chans.Keys == r.chans.Keys
    requires forall id :: id in r.chans ==>
               q.chans[id] ==
                 if id == c.id then r.chans[id].(sendClosed := true, closingClosed := true) else r.chans[id]
    ensures q == RoomMachine.KillClient(r, c)
  {
    var r1 := r.(clients := r.clients - {c.id}, masters := r.masters - {c.id});
    CloseIsSafe(r1, {c.id});
    assert q.chans == RoomMachine.KillClient(r, c).chans;
  }

  lemma MastersCount(m: map<string, ClientConn>)
    ensures |Values(m)| == |m|
  {
    assert Values(m).Keys == m.Keys;
  }

  /** Some clients have been killed, the others are untouched. */
  ghost predicate PartlyKilled(r: RoomState, q: RoomState) {
    && q == r.(clients := q.clients, masters := q.masters, chans := q.chans)
    && Membership(q) && Channels(q)
    && q.chans.Keys == r.chans.Keys
    && (forall id :: id in q.clients ==> id in r.clients && q.clients[id] == r.clients[id])
    && (forall id :: id in r.chans ==>
          q.chans[id] == if id in r.clients && id !in q.clients
                         then r.chans[id].(sendClosed := true, closingClosed := true) else r.chans[id])
  }

  lemma KillOneMore(r: RoomState, q: RoomState, id: string)
    requires PartlyKilled(r, q) && id in q.clients && Channels(r)
    ensures PartlyKilled(r, RoomMachine.KillClient(q, q.clients[id]))
    ensures RoomMachine.KillClient(q, q.clients[id]).clients == q.clients - {id}
  {
    KilledMembership(q, q.clients[id]);
    CloseIsSafe(q.(clients := q.clients - {id}, masters := q.masters - {id}), {id});
  }

  lemma AllKilled(r: RoomState, q: RoomState)
    requires Membership(r) && Channels(r) && PartlyKilled(r, q) && q.clients == map[]
    ensures q == KillAll(r)
  {
    CloseIsSafe(r.(clients := map[], masters := r.masters - r.clients.Keys), r.clients.Keys);
    assert q.masters == map[] && r.masters - r.clients.Keys == map[];
    assert q.chans == KillAll(r).chans;
  }

  lemma StopIsDue(r: RoomState, sent: RoomState, c: Conn, now: real)
    requires Membership(r) && Channels(r) && ShutdownGuards(r) && r.outcome == Running && c.id !in r.chans
    requires sent == RoomMachine.SendState(RoomMachine.JoinClient(r, c), c.id, now)
    ensures c.kind == Master && |sent.masters| == 1 ==> sent.shutdown.active || sent.shutdown.unread
  {
    JoinSends(r, c, now);
    JoinedMasters(r, c);
  }
}
