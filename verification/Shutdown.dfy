/** The "no master for five minutes" shutdown over whole runs. */
module Shutdown {
  import opened Options
  import opened Messages
  import opened Playback
  import opened Timers
  import opened RoomMachine
  import opened RoomInvariants
  import opened System
  import opened SystemInvariants
  import opened RunTheorems

  /** A master's leave message that finds no master left while an expiry of the shutdown timer is unread. */
  predicate LateLeave(s: Sys, e: Event) {
    && e.act.Deq? && e.act.id in s.procs && s.procs[e.act.id].kind == Master
    && KillClient(s.room, ConnOf(s, e.act.id)).masters == map[]
    && s.room.shutdown.unread
  }

  /** How a step changes who has been present when. */
  ghost predicate Clocked(r: RoomState, q: RoomState, now: real, late: bool) {
    && q.sem == r.sem
    && (r.outcome == Running && q.outcome == Running && r.masters != map[] && q.masters == map[] ==>
          q.presence.mastersLeftAt == now)
    && (r.presence.mastersLeftAt <= now ==> r.presence.mastersLeftAt <= q.presence.mastersLeftAt)
    && (q.presence.staleReset ==> r.presence.staleReset || late)
  }

  lemma StepClocked(r: RoomState, a: Action, now0: real, now: real)
    requires Inv(r, now0) && now0 <= now && Enabled(r, a, now)
    ensures Clocked(r, Step(r, a, now), now,
              a.Leave? && a.c.kind == Master && KillClient(r, a.c).masters == map[] && r.shutdown.unread)
  {
    hide OnUpdate, OnJoin, OnLeave, BroadcastState, OnCooldown, OnShutdown, KillClient;
    match a
    case Recv(m) => UpdateClocked(r, m, now0, now);
    case Join(c) => JoinClocked(r, c, now);
    case Leave(c) => LeaveClocked(r, c, now);
    case Tick => BroadcastIsSafe(r, now);
    case CooldownFires =>
    case CooldownServed => CooldownEffect(r, now0, now);
    case ShutdownFires =>
    case ShutdownServed => ShutdownEffect(r, now);
  }

  lemma UpdateClocked(r: RoomState, m: Message, now0: real, now: real)
    requires Inv(r, now0) && now0 <= now && Enabled(r, Recv(m), now)
    ensures Clocked(r, OnUpdate(r, m, now), now, false)
  {
    if m.typ == STATE_UPDATE && now - r.state.lastUpdated > UPDATE_COOLDOWN {
      ImmediateEffect(r, m, now0, now);
    }
  }

  lemma LeaveClocked(r: RoomState, c: Conn, now: real)
    requires Membership(r) && Channels(r)
    ensures Clocked(r, OnLeave(r, c, now), now,
              c.kind == Master && KillClient(r, c).masters == map[] && r.shutdown.unread)
  {
    KilledMembership(r, c);
  }

  lemma JoinClocked(r: RoomState, c: Conn, now: real)
    requires Membership(r) && Channels(r) && ShutdownGuards(r) && Enabled(r, Join(c), now)
    ensures Clocked(r, OnJoin(r, c, now), now, false)
  {
    JoinStops(r, c, now);
    JoinSends(r, c, now);
    JoinedMasters(r, c);
  }

  lemma NextClocked(s: Sys, e: Event)
    requires SysInv(s) && Possible(s, e)
    ensures Clocked(s.room, Next(s, e).room, e.at, LateLeave(s, e))
  {
    if ManagerAction(s, e.act).Some? {
      ManagerIsServed(s, e);
      StepClocked(s.room, ManagerAction(s, e.act).value, s.clock, e.at);
    } else {
      OutsideLeavesRoom(s, e);
    }
  }

  /** What the account of who has been present needs to know about two successive states. */
  ghost predicate Linked(s: Sys, e: Event, q: Sys) {
    && Clocked(s.room, q.room, e.at, LateLeave(s, e))
    && s.clock <= e.at && q.clock == e.at
    && s.room.outcome == Running
    && s.room.presence.mastersLeftAt <= s.clock
  }

  ghost predicate Chronicle(states: seq<Sys>, events: seq<Event>) {
    && |states| == |events| + 1
    && (forall i, j :: 0 <= i < j < |states| && j == i + 1 ==> Linked(states[i], events[i], states[j]))
  }

  /** The states between the events of a run. */
  function States(s: Sys, events: seq<Event>): (states: seq<Sys>)
    ensures |states| == |events| + 1 && forall i :: 0 <= i <= |events| ==> states[i] == Exec(s, events[..i])
  {
    seq(|events| + 1, i requires 0 <= i <= |events| => Exec(s, events[..i]))
  }

  lemma NextIsLinked(s: Sys, e: Event)
    requires SysInv(s) && Possible(s, e)
    ensures Linked(s, e, Next(s, e))
  {
    NextClocked(s, e);
  }

  lemma RunIsChronicle(s: Sys, events: seq<Event>)
    requires SysInv(s) && IsRun(s, events)
    ensures Chronicle(States(s, events), events)
  {
    hide Next, Linked, SysInv, Possible;
    var states := States(s, events);
    forall i, j | 0 <= i < j < |states| && j == i + 1 ensures Linked(states[i], events[i], states[j]) {
      RunKeeps(s, events[..i]);
      PrefixStep(s, events, i);
      NextIsLinked(Exec(s, events[..i]), events[i]);
    }
  }

  /** If a master was present before event i, then at any later point either one is present or the last one left
      no earlier than that event. */
  lemma {:induction false} PresenceRemembered(states: seq<Sys>, events: seq<Event>, i: nat, j: nat)
    requires Chronicle(states, events) && i < j <= |events|
    requires states[i].room.masters != map[] && states[j].room.outcome == Running
    ensures states[j].room.masters == map[] ==> events[i].at <= states[j].room.presence.mastersLeftAt
    ensures events[i].at <= events[j - 1].at
    decreases j
  {
    assert Linked(states[j - 1], events[j - 1], states[j]);
    if i < j - 1 {
      assert Linked(states[j - 2], events[j - 2], states[j - 1]);
      PresenceRemembered(states, events, i, j - 1);
    }
  }

  /** A stale expiry is only ever kept by a late leave; the kind of timers never changes. */
  lemma {:induction false} StaleByLateLeave(states: seq<Sys>, events: seq<Event>, j: nat)
    requires Chronicle(states, events) && j <= |events|
    requires !states[0].room.presence.staleReset
    ensures states[j].room.sem == states[0].room.sem
    ensures states[j].room.presence.mastersLeftAt >= states[0].room.presence.mastersLeftAt
    ensures (forall i :: 0 <= i < j ==> !LateLeave(states[i], events[i])) ==> !states[j].room.presence.staleReset
  {
    if j > 0 {
      StaleByLateLeave(states, events, j - 1);
      assert Linked(states[j - 1], events[j - 1], states[j]);
    }
  }

  /** The manager returns only if no master has been present for five minutes: whenever a master was present between
      two events, the later of them lies at least that long back. This holds for timers that discard a stale expiry,
      and for timers that keep it in runs without a late leave. */
  lemma ShutdownMeansNoMaster(sem: Semantics, masterKey: string, guestKey: string, created: real,
                              events: seq<Event>, e: Event)
    requires var s := NewSystem(sem, masterKey, guestKey, created);
      && IsRun(s, events + [e]) && e.act == Manage(ShutdownServed)
      && (sem.Discarding? || forall i :: 0 <= i < |events| ==> !LateLeave(Exec(s, events[..i]), events[i]))
    ensures var s := NewSystem(sem, masterKey, guestKey, created);
      && e.at >= created + 300.0
      && Exec(s, events).room.masters == map[]
      && forall i :: 0 <= i < |events| && Exec(s, events[..i]).room.masters != map[] ==>
           events[i].at <= e.at - 300.0
  {
    var s := NewSystem(sem, masterKey, guestKey, created);
    NewSystemInv(sem, masterKey, guestKey, created);
    ExecSnoc(s, events, e);
    RunKeeps(s, events);
    RunIsChronicle(s, events);
    hide Next, Linked, SysInv, LateLeave, Possible;
    var states, n := States(s, events), |events|;
    assert events[..n] == events && events[..0] == [];
    StaleByLateLeave(states, events, n);
    ExpiryIsMeaningful(states[n], e);
    forall i | 0 <= i < n && Exec(s, events[..i]).room.masters != map[]
      ensures events[i].at <= e.at - 300.0
    {
      assert states[i] == Exec(s, events[..i]);
      PresenceRemembered(states, events, i, n);
    }
  }

  lemma ExpiryIsMeaningful(s: Sys, e: Event)
    requires SysInv(s) && Possible(s, e) && e.act == Manage(ShutdownServed)
    requires s.room.sem.Discarding? || !s.room.presence.staleReset
    ensures s.room.masters == map[] && e.at >= s.room.presence.mastersLeftAt + MASTERLESS_TIMEOUT
  {
  }

  /** A leave message that finds no master left leaves the timer both running and with an unread expiry exactly when
      it is late and the timer keeps stale expiries. */
  lemma LateLeaveExactly(s: Sys, e: Event)
    requires Reachable(s) && Possible(s, e) && e.act.Deq? && s.procs[e.act.id].kind == Master
    requires KillClient(s.room, ConnOf(s, e.act.id)).masters == map[]
    ensures var t := Next(s, e).room.shutdown;
      (t.active && t.unread) <==> LateLeave(s, e) && s.room.sem.Keeping?
  {
    ReachableIsSound(s);
    ManagerIsServed(s, e);
    KilledMembership(s.room, ConnOf(s, e.act.id));
  }

  /** The first master's join leaves a shutdown pending exactly when the timer was both running and expired. */
  lemma PendingShutdownExactly(s: Sys, e: Event)
    requires Reachable(s) && Possible(s, e) && e.act.Enq? && s.procs[e.act.id].kind == Master
    requires s.room.masters == map[]
    ensures Next(s, e).room.masters != map[]
    ensures Next(s, e).room.shutdown.unread <==>
              s.room.sem.Keeping? && s.room.shutdown.active && s.room.shutdown.unread
  {
    ReachableIsSound(s);
    ManagerIsServed(s, e);
    var c := ConnOf(s, e.act.id);
    JoinStops(s.room, c, e.at);
    JoinSends(s.room, c, e.at);
    JoinedMasters(s.room, c);
  }

  // ---------------------------------------------------------------------------
  // Exactly when a room with a master can be shut down
  // ---------------------------------------------------------------------------

  /** The shutdown timer has an unread expiry although it runs or a master is present. */
  predicate Loaded(r: RoomState) {
    && r.sem.Keeping? && r.outcome == Running && r.shutdown.unread
    && (r.shutdown.active || r.masters != map[])
  }

  /** Some events without a late leave, after which the manager may return at time t with a master present. */
  ghost predicate Harms(s: Sys, events: seq<Event>, t: real) {
    && IsRun(s, events + [Event(t, Manage(ShutdownServed))])
    && (forall i :: 0 <= i < |events| ==> !LateLeave(Exec(s, events[..i]), events[i]))
    && Exec(s, events).room.masters != map[]
  }

  lemma JoinUnloads(r: RoomState, c: Conn, now: real)
    requires Membership(r) && Channels(r) && ShutdownGuards(r) && Enabled(r, Join(c), now) && !Loaded(r)
    ensures !Loaded(OnJoin(r, c, now))
  {
    JoinStops(r, c, now);
    JoinSends(r, c, now);
    JoinedMasters(r, c);
  }

  lemma LeaveUnloads(r: RoomState, c: Conn, now: real)
    requires Membership(r) && Channels(r) && !Loaded(r)
    requires !(c.kind == Master && KillClient(r, c).masters == map[] && r.shutdown.unread)
    ensures !Loaded(OnLeave(r, c, now))
  {
    KilledMembership(r, c);
  }

  lemma UpdateUnloads(r: RoomState, m: Message, now0: real, now: real)
    requires Inv(r, now0) && now0 <= now && Enabled(r, Recv(m), now) && !Loaded(r)
    ensures !Loaded(OnUpdate(r, m, now))
  {
    if m.typ == STATE_UPDATE && now - r.state.lastUpdated > UPDATE_COOLDOWN {
      ImmediateEffect(r, m, now0, now);
    }
  }

  lemma StepUnloads(r: RoomState, a: Action, now0: real, now: real)
    requires Inv(r, now0) && now0 <= now && Enabled(r, a, now) && !Loaded(r)
    requires !(a.Leave? && a.c.kind == Master && KillClient(r, a.c).masters == map[] && r.shutdown.unread)
    ensures !Loaded(Step(r, a, now))
  {
    hide OnUpdate, OnJoin, OnLeave, BroadcastState, OnCooldown, OnShutdown, KillClient;
    match a
    case Recv(m) => UpdateUnloads(r, m, now0, now);
    case Join(c) => JoinUnloads(r, c, now);
    case Leave(c) => LeaveUnloads(r, c, now);
    case Tick => BroadcastIsSafe(r, now);
    case CooldownFires =>
    case CooldownServed => CooldownEffect(r, now0, now);
    case ShutdownFires =>
    case ShutdownServed => ShutdownEffect(r, now);
  }

  lemma NextUnloads(s: Sys, e: Event)
    requires SysInv(s) && Possible(s, e) && !LateLeave(s, e) && !Loaded(s.room)
    ensures !Loaded(Next(s, e).room)
  {
    if ManagerAction(s, e.act).Some? {
      ManagerIsServed(s, e);
      StepUnloads(s.room, ManagerAction(s, e.act).value, s.clock, e.at);
    } else {
      OutsideLeavesRoom(s, e);
    }
  }

  lemma {:induction false} RunUnloads(s: Sys, events: seq<Event>, n: nat)
    requires SysInv(s) && IsRun(s, events) && n <= |events| && !Loaded(s.room)
    requires forall i :: 0 <= i < n ==> !LateLeave(Exec(s, events[..i]), events[i])
    ensures !Loaded(Exec(s, events[..n]).room)
    decreases n
  {
    if n > 0 {
      hide Loaded, Next, SysInv, Possible, LateLeave;
      RunUnloads(s, events, n - 1);
      RunKeeps(s, events[..n - 1]);
      PrefixStep(s, events, n - 1);
      NextUnloads(Exec(s, events[..n - 1]), events[n - 1]);
    }
  }

  /** A room in which an expiry is pending can be shut down at once, or as soon as a first master has joined. */
  lemma LoadedHarms(s: Sys, id: string) returns (events: seq<Event>)
    requires Reachable(s) && id !in s.procs && Loaded(s.room)
    ensures Harms(s, events, s.clock)
  {
    ReachableIsSound(s);
    if s.room.masters != map[] {
      events := [];
      HarmsNow(s);
    } else {
      events := [Event(s.clock, Admit(id, s.masterKey)), Event(s.clock, Enq(id))];
      HarmsSoon(s, id);
    }
  }

  lemma HarmsNow(s: Sys)
    requires Loaded(s.room) && s.room.masters != map[]
    ensures Harms(s, [], s.clock)
  {
    var served := Event(s.clock, Manage(ShutdownServed));
    assert Possible(s, served);
    hide Next, Possible, LateLeave;
    ExecSnoc(s, [], served);
  }

  lemma HarmsSoon(s: Sys, id: string)
    requires SysInv(s) && id !in s.procs && Loaded(s.room) && s.room.masters == map[] && s.room.outcome == Running
    ensures Harms(s, [Event(s.clock, Admit(id, s.masterKey)), Event(s.clock, Enq(id))], s.clock)
  {
    hide *;
    var admit, enq := Event(s.clock, Admit(id, s.masterKey)), Event(s.clock, Enq(id));
    MasterArrives(s, id, admit, enq);
    RunOfThree(s, admit, enq, Event(s.clock, Manage(ShutdownServed)));
  }

  lemma MasterArrives(s: Sys, id: string, admit: Event, enq: Event)
    requires SysInv(s) && id !in s.procs && Loaded(s.room) && s.room.masters == map[] && s.room.outcome == Running
    requires admit == Event(s.clock, Admit(id, s.masterKey)) && enq == Event(s.clock, Enq(id))
    ensures Possible(s, admit) && Possible(Next(s, admit), enq)
    ensures Possible(Next(Next(s, admit), enq), Event(s.clock, Manage(ShutdownServed)))
    ensures Next(Next(s, admit), enq).room.masters != map[]
  {
    hide *;
    MasterIsAdmitted(s, id, admit);
    NextKeeps(s, admit);
    MasterEnters(Next(s, admit), id, enq);
  }

  lemma MasterIsAdmitted(s: Sys, id: string, admit: Event)
    requires s.room.outcome == Running && id !in s.procs && admit == Event(s.clock, Admit(id, s.masterKey))
    ensures Possible(s, admit)
    ensures Next(s, admit) == s.(procs := s.procs[id := Proc(Master, s.masterKey, [], [], false, {})])
  {
  }

  lemma MasterEnters(s: Sys, id: string, enq: Event)
    requires SysInv(s) && Loaded(s.room) && s.room.masters == map[]
    requires id in s.procs && s.procs[id].kind == Master && !s.procs[id].joined && enq == Event(s.clock, Enq(id))
    ensures Possible(s, enq) && Possible(Next(s, enq), Event(s.clock, Manage(ShutdownServed)))
    ensures Next(s, enq).room.masters != map[]
  {
    hide Next, SysInv, OnJoin, Inv, Possible;
    assert s.room.outcome == Running;
    EnqIsPossible(s, id, enq);
    EnqIsServed(s, enq);
    MasterJoins(s.room, ConnOf(s, id), s.clock);
    ShutdownIsPossible(Next(s, enq), s.clock);
  }

  lemma ShutdownIsPossible(s: Sys, now: real)
    requires s.clock <= now && s.room.outcome == Running && s.room.shutdown.unread
    ensures Possible(s, Event(now, Manage(ShutdownServed)))
  {
  }

  lemma EnqIsPossible(s: Sys, id: string, enq: Event)
    requires s.room.outcome == Running && id in s.procs && !s.procs[id].joined && enq == Event(s.clock, Enq(id))
    ensures Possible(s, enq)
  {
  }

  lemma MasterJoins(r: RoomState, c: Conn, now: real)
    requires Inv(r, now) && Enabled(r, Join(c), now)
    requires c.kind == Master && Loaded(r) && r.masters == map[]
    ensures var q := OnJoin(r, c, now); q.masters != map[] && q.shutdown.unread && q.outcome == Running
  {
    JoinStops(r, c, now);
    JoinSends(r, c, now);
    JoinedMasters(r, c);
  }

  lemma RunOfThree(s: Sys, a: Event, b: Event, c: Event)
    requires Possible(s, a) && Possible(Next(s, a), b) && Possible(Next(Next(s, a), b), c)
    requires !a.act.Deq? && !b.act.Deq? && Next(Next(s, a), b).room.masters != map[]
    requires c.act == Manage(ShutdownServed)
    ensures Harms(s, [a, b], c.at)
  {
    hide Next, Possible;
    ExecSnoc(s, [], a);
    ExecSnoc(s, [a], b);
    ExecSnoc(s, [a, b], c);
    assert [] + [a] == [a] && [a] + [b] == [a, b];
  }

  /** The shutdown can hit a room with a master, without a further late leave, if and only if the shutdown timer has
      an unread expiry although it runs or a master is present. */
  lemma ShutdownHitsExactly(s: Sys, id: string)
    requires Reachable(s) && id !in s.procs
    ensures (exists events, t :: Harms(s, events, t)) <==> Loaded(s.room)
  {
    if Loaded(s.room) {
      var events := LoadedHarms(s, id);
    } else {
      forall events, t ensures !Harms(s, events, t) {
        if Harms(s, events, t) {
          UnloadedIsSafe(s, events, t);
        }
      }
    }
  }

  lemma UnloadedIsSafe(s: Sys, events: seq<Event>, t: real)
    requires Reachable(s) && Harms(s, events, t)
    ensures Loaded(s.room)
  {
    if !Loaded(s.room) {
      var e := Event(t, Manage(ShutdownServed));
      ReachableIsSound(s);
      ExecSnoc(s, events, e);
      assert events[..|events|] == events;
      RunUnloads(s, events, |events|);
      RunKeeps(s, events);
      EndIsSafe(Exec(s, events), e);
    }
  }

  lemma EndIsSafe(s: Sys, e: Event)
    requires SysInv(s) && Possible(s, e) && e.act == Manage(ShutdownServed) && !Loaded(s.room)
    ensures s.room.masters == map[]
  {
  }

  /** Such a state is reached when the receiving goroutine of a master reports its end before its join is served,
      while the first expiry is unread. */
  lemma LateLeaveWitness() returns (s: Sys, events: seq<Event>)
    ensures Reachable(s) && Loaded(s.room) && Harms(s, events, s.clock)
  {
    var s0 := NewSystem(Keeping, "m", "g", 0.0);
    var admit, fires, deq :=
      Event(0.0, Admit("x", "m")), Event(300.0, Manage(ShutdownFires)), Event(300.0, Deq("x", Receiver));
    var s1 := Next(s0, admit);
    assert s1 == s0.(procs := map["x" := Proc(Master, "m", [], [], false, {})]);
    var s2 := Next(s1, fires);
    assert s2 == s1.(room := s0.room.(shutdown := Timer(false, 300.0, true)), clock := 300.0);
    assert Exec(s0, [admit, fires]) == s2 by {
      ExecSnoc(s0, [], admit);
      ExecSnoc(s0, [admit], fires);
      assert [admit] + [fires] == [admit, fires] && [] + [admit] == [admit];
    }
    s := WitnessLeave(s0, [admit, fires], s2, deq);
    events := LoadedHarms(s, "y");
  }

  lemma WitnessLeave(s0: Sys, events: seq<Event>, s2: Sys, deq: Event) returns (s: Sys)
    requires s0 == NewSystem(Keeping, "m", "g", 0.0) && s2 == Exec(s0, events)
    requires s2.procs == map["x" := Proc(Master, "m", [], [], false, {})] && s2.clock == 300.0
    requires s2.room == s0.room.(shutdown := Timer(false, 300.0, true))
    requires deq == Event(300.0, Deq("x", Receiver))
    ensures Reachable(s) && Loaded(s.room) && "y" !in s.procs && s.clock == 300.0
  {
    s := Next(s2, deq);
    ExecSnoc(s0, events, deq);
    LateLeaveExactly(s2, deq);
    assert s.procs.Keys == {"x"} && "y" != "x";
  }
}
