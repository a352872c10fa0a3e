/** What is due happens: the two timers of a room run for exactly as long as they should, and when they are over the
    manager can do what they are for. All times are read off the run, not off the room. */
module Liveness {
  import opened Options
  import opened Messages
  import opened Playback
  import opened Timers
  import opened RoomMachine
  import opened RoomInvariants
  import opened System
  import opened SystemInvariants
  import opened RunTheorems

  // ---------------------------------------------------------------------------
  // One step
  // ---------------------------------------------------------------------------

  /** A timer that runs after a step has been started by it, to run for this long, or is the one that ran before. */
  predicate Started(t: Timer, q: Timer, starts: bool, now: real, delay: real) {
    q.active ==> if starts then q.deadline == now + delay else t.active && q.deadline == t.deadline
  }

  /** The shutdown timer is started by a master's leave that leaves no master, the cooldown timer when an update goes
      into the empty buffer. */
  predicate TimersStart(r: RoomState, q: RoomState, a: Action, now: real) {
    q.outcome == Running ==>
      && Started(r.shutdown, q.shutdown, a.Leave? && a.c.kind == Master && q.masters == map[], now, 300.0)
      && Started(r.cooldown, q.cooldown, r.buffered.None? && q.buffered.Some?, now, 0.9)
  }

  lemma UpdateTimers(r: RoomState, m: Message, now0: real, now: real)
    requires Inv(r, now0) && now0 <= now && Enabled(r, Recv(m), now)
    ensures TimersStart(r, OnUpdate(r, m, now), Recv(m), now)
  {
    if m.typ == STATE_UPDATE && now - r.state.lastUpdated > UPDATE_COOLDOWN {
      hide OnUpdate, Inv, Enabled;
      ImmediateEffect(r, m, now0, now);
    }
  }

  lemma JoinTimers(r: RoomState, c: Conn, now: real)
    requires Membership(r) && Channels(r) && ShutdownGuards(r) && Enabled(r, Join(c), now)
    ensures TimersStart(r, OnJoin(r, c, now), Join(c), now)
  {
    hide OnJoin, SendState;
    JoinStops(r, c, now);
    JoinSends(r, c, now);
  }

  lemma LeaveTimers(r: RoomState, c: Conn, now: real)
    requires Membership(r) && Channels(r)
    ensures TimersStart(r, OnLeave(r, c, now), Leave(c), now)
  {
    KilledMembership(r, c);
    hide KillClient, Membership, Channels;
  }

  lemma StepTimers(r: RoomState, a: Action, now0: real, now: real)
    requires Inv(r, now0) && now0 <= now && Enabled(r, a, now)
    ensures TimersStart(r, Step(r, a, now), a, now)
  {
    hide OnUpdate, OnJoin, OnLeave, BroadcastState, OnCooldown, OnShutdown;
    match a
    case Recv(m) => UpdateTimers(r, m, now0, now);
    case Join(c) => JoinTimers(r, c, now);
    case Leave(c) => LeaveTimers(r, c, now);
    case Tick => BroadcastIsSafe(r, now);
    case CooldownFires =>
    case CooldownServed => CooldownEffect(r, now0, now);
    case ShutdownFires =>
    case ShutdownServed => ShutdownEffect(r, now);
  }

  // ---------------------------------------------------------------------------
  // One event
  // ---------------------------------------------------------------------------

  /** A master reports its end, and no master is left. */
  predicate MasterlessLeave(s: Sys, e: Event) {
    e.act.Deq? && e.act.id in s.procs && s.procs[e.act.id].kind == Master && Next(s, e).room.masters == map[]
  }

  /** An update goes into the empty buffer. */
  predicate FirstHeld(s: Sys, e: Event) {
    s.room.buffered.None? && Next(s, e).room.buffered.Some?
  }

  lemma NextTimers(s: Sys, e: Event)
    requires SysInv(s) && Possible(s, e)
    ensures var q := Next(s, e).room;
      q.outcome == Running ==>
        && Started(s.room.shutdown, q.shutdown, MasterlessLeave(s, e), e.at, 300.0)
        && Started(s.room.cooldown, q.cooldown, FirstHeld(s, e), e.at, 0.9)
  {
    if ManagerAction(s, e.act).Some? {
      ManagerIsServed(s, e);
      StepTimers(s.room, ManagerAction(s, e.act).value, s.clock, e.at);
      hide Step, SysInv;
    } else {
      OutsideLeavesRoom(s, e);
      hide Next, SysInv;
    }
  }

  // ---------------------------------------------------------------------------
  // Whole runs
  // ---------------------------------------------------------------------------

  /** When a master last left the room without one, or else when the run began. */
  function LastMasterless(s: Sys, events: seq<Event>): real {
    if events == [] then s.clock
    else
      var front, last := events[..|events| - 1], events[|events| - 1];
      if MasterlessLeave(Exec(s, front), last) then last.at else LastMasterless(s, front)
  }

  /** When an update last went into the empty buffer, or else when the run began. */
  function LastHeld(s: Sys, events: seq<Event>): real {
    if events == [] then s.clock
    else
      var front, last := events[..|events| - 1], events[|events| - 1];
      if FirstHeld(Exec(s, front), last) then last.at else LastHeld(s, front)
  }

  lemma LastSnoc(s: Sys, events: seq<Event>, e: Event)
    ensures LastMasterless(s, events + [e]) ==
              if MasterlessLeave(Exec(s, events), e) then e.at else LastMasterless(s, events)
    ensures LastHeld(s, events + [e]) == if FirstHeld(Exec(s, events), e) then e.at else LastHeld(s, events)
  {
    hide MasterlessLeave, FirstHeld, Exec;
    assert (events + [e])[..|events|] == events;
  }

  /** A manager that runs has been running ever since. */
  lemma StillRunning(s: Sys, e: Event)
    requires Possible(s, e)
    ensures s.room.outcome == Running
  {
  }

  /** Both timers run for as long as they should, counted from these times. */
  predicate Timed(r: RoomState, masterless: real, held: real) {
    r.outcome == Running ==>
      && (r.shutdown.active ==> r.shutdown.deadline == masterless + 300.0)
      && (r.cooldown.active ==> r.cooldown.deadline == held + 0.9)
  }

  lemma {:induction false} TimersSoFar(s: Sys, events: seq<Event>)
    requires SysInv(s) && IsRun(s, events) && Timed(s.room, s.clock, s.clock)
    ensures Timed(Exec(s, events).room, LastMasterless(s, events), LastHeld(s, events))
    decreases |events|
  {
    if events != [] {
      var front, last := events[..|events| - 1], events[|events| - 1];
      assert events == front + [last];
      hide *;
      LastSnoc(s, front, last);
      ExecSnoc(s, front, last);
      TimersSoFar(s, front);
      RunKeeps(s, front);
      TimedOnce(Exec(s, front), last, LastMasterless(s, front), LastHeld(s, front));
    }
  }

  lemma TimedOnce(s: Sys, e: Event, masterless: real, held: real)
    requires SysInv(s) && Possible(s, e) && Timed(s.room, masterless, held)
    ensures Timed(Next(s, e).room, if MasterlessLeave(s, e) then e.at else masterless,
                  if FirstHeld(s, e) then e.at else held)
  {
    StillRunning(s, e);
    hide Next, Possible, SysInv, MasterlessLeave, FirstHeld;
    NextTimers(s, e);
  }

  lemma NewTimers(sem: Semantics, masterKey: string, guestKey: string, created: real)
    ensures var s := NewSystem(sem, masterKey, guestKey, created);
      && SysInv(s) && s.room.shutdown == Timer(true, s.clock + 300.0, false) && !s.room.cooldown.active
  {
    NewSystemInv(sem, masterKey, guestKey, created);
    hide SysInv;
  }

  /** The shutdown timer can fire exactly five minutes after the last master has left, or after the room was made. */
  lemma ShutdownIsDue(sem: Semantics, masterKey: string, guestKey: string, created: real, events: seq<Event>, t: real)
    requires var s := NewSystem(sem, masterKey, guestKey, created);
      IsRun(s, events) && Exec(s, events).room.outcome == Running && Exec(s, events).clock <= t
    ensures var s := NewSystem(sem, masterKey, guestKey, created); var q := Exec(s, events);
      Possible(q, Event(t, Manage(ShutdownFires)))
      <==> q.room.shutdown.active && t >= LastMasterless(s, events) + 300.0
  {
    var s := NewSystem(sem, masterKey, guestKey, created);
    NewTimers(sem, masterKey, guestKey, created);
    TimersSoFar(s, events);
    hide Next, SysInv, Exec, IsRun, NewSystem, LastMasterless;
    TimerEvents(Exec(s, events), t);
  }

  lemma TimerEvents(s: Sys, t: real)
    requires s.room.outcome == Running && s.clock <= t
    ensures Possible(s, Event(t, Manage(ShutdownFires))) <==> s.room.shutdown.active && s.room.shutdown.deadline <= t
    ensures Possible(s, Event(t, Manage(CooldownFires))) <==> s.room.cooldown.active && s.room.cooldown.deadline <= t
    ensures Possible(s, Event(t, Manage(ShutdownServed))) <==> s.room.shutdown.unread
    ensures Possible(s, Event(t, Manage(CooldownServed))) <==> s.room.cooldown.unread
  {
  }

  lemma ShutdownRuns(s: Sys, t: real)
    requires s.room.outcome == Running && s.clock <= t
    ensures Possible(s, Event(t, Manage(ShutdownFires))) ==>
              var q := Next(s, Event(t, Manage(ShutdownFires)));
              q.room.outcome == Running && q.room.shutdown.unread && q.clock == t
    ensures s.room.shutdown.unread ==>
              Next(s, Event(t, Manage(ShutdownServed))).room == OnShutdown(s.room)
  {
    hide OnShutdown;
  }

  /** The events that end a timer: its expiry is served, after it has fired if it has not yet. */
  function Due(unread: bool, fires: Event, served: Event): seq<Event> {
    if unread then [served] else [fires, served]
  }

  lemma DueRuns(s: Sys, unread: bool, fires: Event, served: Event)
    ensures var q := if unread then s else Next(s, fires);
      && (IsRun(s, Due(unread, fires, served)) <==> (unread || Possible(s, fires)) && Possible(q, served))
      && Exec(s, Due(unread, fires, served)) == Next(q, served)
  {
    hide Next, Possible;
    ExecSnoc(s, [], if unread then served else fires);
    ExecSnoc(s, [fires], served);
    assert [] + [served] == [served] && [] + [fires] == [fires] && [fires] + [served] == [fires, served];
  }

  /** A room without a master can be left by its manager from five minutes after the last master has left it, or after
      it was made. */
  lemma MasterlessRoomCloses(sem: Semantics, masterKey: string, guestKey: string, created: real, events: seq<Event>,
                             t: real)
    requires var s := NewSystem(sem, masterKey, guestKey, created); var q := Exec(s, events);
      && IsRun(s, events) && q.room.outcome == Running && q.room.masters == map[]
      && q.clock <= t && LastMasterless(s, events) + 300.0 <= t
    ensures var q := Exec(NewSystem(sem, masterKey, guestKey, created), events);
            var due := Due(q.room.shutdown.unread, Event(t, Manage(ShutdownFires)), Event(t, Manage(ShutdownServed)));
      IsRun(q, due) && Exec(q, due).room.outcome == Returned
  {
    var s := NewSystem(sem, masterKey, guestKey, created);
    var q := Exec(s, events);
    ShutdownIsDue(sem, masterKey, guestKey, created, events, t);
    assert SysInv(q) by {
      NewTimers(sem, masterKey, guestKey, created);
      RunKeeps(s, events);
    }
    assert q.room.shutdown.active || q.room.shutdown.unread;
    hide Next, Possible, SysInv, Exec, IsRun, NewSystem, LastMasterless, Due, OnShutdown;
    var fires, served := Event(t, Manage(ShutdownFires)), Event(t, Manage(ShutdownServed));
    DueRuns(q, q.room.shutdown.unread, fires, served);
    TimerEvents(q, t);
    ShutdownRuns(q, t);
    var p := if q.room.shutdown.unread then q else Next(q, fires);
    TimerEvents(p, t);
    ShutdownRuns(p, t);
    ShutdownReturns(q, fires, served);
  }

  lemma ShutdownReturns(s: Sys, fires: Event, served: Event)
    requires SysInv(s) && served.act == Manage(ShutdownServed)
    requires Possible(if s.room.shutdown.unread then s else Next(s, fires), served)
    ensures Next(if s.room.shutdown.unread then s else Next(s, fires), served).room.outcome == Returned
  {
    hide Next, Possible, SysInv;
    NextKeeps(s, fires);
    ServedReturns(if s.room.shutdown.unread then s else Next(s, fires), served);
  }

  lemma ServedReturns(s: Sys, served: Event)
    requires SysInv(s) && Possible(s, served) && served.act == Manage(ShutdownServed)
    ensures Next(s, served).room.outcome == Returned
  {
    ManagerIsServed(s, served);
    assert Next(s, served).room == OnShutdown(s.room);
    ShutdownEffect(s.room, served.at);
  }

  /** The cooldown timer can fire exactly nine tenths of a second after an update went into the empty buffer. */
  lemma BufferIsDue(sem: Semantics, masterKey: string, guestKey: string, created: real, events: seq<Event>, t: real)
    requires var s := NewSystem(sem, masterKey, guestKey, created);
      IsRun(s, events) && Exec(s, events).room.outcome == Running && Exec(s, events).clock <= t
    ensures var s := NewSystem(sem, masterKey, guestKey, created); var q := Exec(s, events);
      Possible(q, Event(t, Manage(CooldownFires)))
      <==> q.room.cooldown.active && t >= LastHeld(s, events) + 0.9
  {
    var s := NewSystem(sem, masterKey, guestKey, created);
    NewTimers(sem, masterKey, guestKey, created);
    TimersSoFar(s, events);
    hide Next, SysInv, Exec, IsRun, NewSystem, LastHeld;
    TimerEvents(Exec(s, events), t);
  }

  /** An update that waits is applied, and everybody is told, as soon as the timer is over. */
  lemma BufferedUpdateComesThrough(sem: Semantics, masterKey: string, guestKey: string, created: real,
                                   events: seq<Event>, m: Message, t: real)
    requires var s := NewSystem(sem, masterKey, guestKey, created); var q := Exec(s, events);
      && IsRun(s, events) && q.room.outcome == Running && q.room.buffered == Some(m)
      && q.clock <= t && LastHeld(s, events) + 0.9 <= t
    ensures var q := Exec(NewSystem(sem, masterKey, guestKey, created), events);
            var due := Due(q.room.cooldown.unread, Event(t, Manage(CooldownFires)), Event(t, Manage(CooldownServed)));
            var p := Exec(q, due).room;
      && IsRun(q, due) && p.buffered == None && p.outcome == Running
      && m.payload.UpdatePayload? && Recorded(p) && LineOf(p) == Start(m.payload.update, m.receivedAt)
      && forall id :: id in q.room.clients ==> |SentTo(p, id)| == |SentTo(q.room, id)| + 1
  {
    var s := NewSystem(sem, masterKey, guestKey, created);
    var q := Exec(s, events);
    BufferIsDue(sem, masterKey, guestKey, created, events, t);
    assert SysInv(q) by {
      NewTimers(sem, masterKey, guestKey, created);
      RunKeeps(s, events);
    }
    assert q.room.cooldown.active || q.room.cooldown.unread;
    hide Next, Possible, SysInv, Exec, IsRun, NewSystem, LastHeld, Due;
    var fires, served := Event(t, Manage(CooldownFires)), Event(t, Manage(CooldownServed));
    DueRuns(q, q.room.cooldown.unread, fires, served);
    TimerEvents(q, t);
    if q.room.cooldown.unread {
      BufferServed(q, m, served);
    } else {
      BufferFires(q, m, fires);
      TimerEvents(Next(q, fires), t);
      BufferServed(Next(q, fires), m, served);
    }
  }

  lemma BufferFires(s: Sys, m: Message, fires: Event)
    requires SysInv(s) && Possible(s, fires) && fires.act == Manage(CooldownFires) && s.room.buffered == Some(m)
    ensures var q := Next(s, fires);
      && SysInv(q) && q.room == s.room.(cooldown := Fire(s.room.cooldown)) && q.clock == fires.at
  {
    CooldownFired(s, fires);
    hide *;
    NextKeeps(s, fires);
  }

  lemma CooldownFired(s: Sys, fires: Event)
    requires Possible(s, fires) && fires.act == Manage(CooldownFires)
    ensures Next(s, fires).room == s.room.(cooldown := Fire(s.room.cooldown)) && Next(s, fires).clock == fires.at
  {
  }

  lemma BufferServed(s: Sys, m: Message, served: Event)
    requires SysInv(s) && Possible(s, served) && served.act == Manage(CooldownServed) && s.room.buffered == Some(m)
    ensures var p := Next(s, served).room;
      && p.buffered == None && p.outcome == Running
      && m.payload.UpdatePayload? && Recorded(p) && LineOf(p) == Start(m.payload.update, m.receivedAt)
      && forall id :: id in s.room.clients ==> |SentTo(p, id)| == |SentTo(s.room, id)| + 1
  {
    CooldownServing(s, served);
    hide Next, Possible, SysInv, OnCooldown, Inv;
    BufferReleased(s.room, m, s.clock, served.at);
  }

  lemma CooldownServing(s: Sys, served: Event)
    requires SysInv(s) && Possible(s, served) && served.act == Manage(CooldownServed)
    ensures Next(s, served).room == OnCooldown(s.room, served.at)
    ensures Inv(s.room, s.clock) && s.clock <= served.at && Enabled(s.room, CooldownServed, served.at)
  {
    hide OnCooldown, Inv;
  }

  lemma BufferReleased(r: RoomState, m: Message, now0: real, now: real)
    requires Inv(r, now0) && now0 <= now && Enabled(r, CooldownServed, now) && r.buffered == Some(m)
    ensures var p := OnCooldown(r, now);
      && p.buffered == None && p.outcome == Running
      && m.payload.UpdatePayload? && Recorded(p) && LineOf(p) == Start(m.payload.update, m.receivedAt)
      && forall id :: id in r.clients ==> |SentTo(p, id)| == |SentTo(r, id)| + 1
  {
    CooldownEffect(r, now0, now);
    hide OnCooldown;
    assert forall id :: id in r.clients ==> id in r.chans;
  }
}
