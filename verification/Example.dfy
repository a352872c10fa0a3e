/** Runs of a room with one master, "x": one to which the theorems of Sync apply, and one in which an older update
    replaces a newer one. */
module Example {
  import opened Options
  import opened Messages
  import opened Playback
  import opened Timers
  import opened RoomMachine
  import opened RoomInvariants
  import opened System
  import opened SystemInvariants
  import opened RunTheorems
  import opened Latency
  import opened Sync

  // ---------------------------------------------------------------------------
  // The master proposes
  // ---------------------------------------------------------------------------

  /** The master has joined, and nothing of what it has sent is under way. */
  predicate Idle(s: Sys) {
    && "x" in s.procs && s.procs["x"].kind == Master && s.procs["x"].joined
    && s.procs["x"].inbox == [] && s.procs["x"].left == {}
    && s.queue == [] && s.room.outcome == Running
  }

  function Proposal(u: Update, at: real): Message {
    Message("x", at, STATE_UPDATE, UpdatePayload(u))
  }

  function ReadOf(u: Update, at: real): Event {
    var raw := Raw("", Parsed("", false), Parsed(0.0, false), Parsed((0.0, 0.0), false),
                   Parsed(u.state, false), Parsed(u, true));
    Event(at, Read("x", Envelope(STATE_UPDATE, raw)))
  }

  function HandleOf(at: real): Event {
    Event(at, Handle("x"))
  }

  function ServeOf(at: real): Event {
    Event(at, Serve)
  }

  lemma Reads(s: Sys, u: Update, at: real)
    requires Idle(s) && s.clock <= at
    ensures var p := s.procs["x"]; var got := Proposal(u, at).(sender := "");
      && Possible(s, ReadOf(u, at))
      && Next(s, ReadOf(u, at)) == s.(procs := s.procs["x" := p.(inbox := [got], read := p.read + [got])], clock := at)
  {
    var got := Proposal(u, at).(sender := "");
    assert Received(ReadOf(u, at).act.frame, at) == Some(got) && s.procs["x"].inbox + [got] == [got];
  }

  lemma Handles(s: Sys, u: Update, at: real)
    requires "x" in s.procs && s.procs["x"].kind == Master && s.procs["x"].left == {} && s.queue == []
    requires s.procs["x"].inbox == [Proposal(u, at).(sender := "")] && s.room.outcome == Running && s.clock <= at
    ensures Possible(s, HandleOf(at))
    ensures Next(s, HandleOf(at)) ==
              s.(procs := s.procs["x" := s.procs["x"].(inbox := [])], queue := [Proposal(u, at)], clock := at)
  {
    var q := HandleMessage(s, "x");
    assert s.procs["x"].inbox[1..] == [] && s.queue + [Proposal(u, at)] == [Proposal(u, at)];
    assert q == s.(procs := s.procs["x" := s.procs["x"].(inbox := [])], queue := [Proposal(u, at)]);
  }

  /** The state in which a proposal has been read and handled, and waits for the manager. */
  function Queued(s: Sys, u: Update, at: real): Sys {
    Next(Next(s, ReadOf(u, at)), HandleOf(at))
  }

  lemma ProposalIsQueued(s: Sys, u: Update, at: real)
    requires Idle(s) && s.clock <= at
    ensures Possible(s, ReadOf(u, at)) && Possible(Next(s, ReadOf(u, at)), HandleOf(at))
    ensures var p := s.procs["x"]; var got := Proposal(u, at).(sender := "");
      Queued(s, u, at) ==
        s.(procs := s.procs["x" := p.(read := p.read + [got])], queue := [Proposal(u, at)], clock := at)
  {
    Reads(s, u, at);
    Handles(Next(s, ReadOf(u, at)), u, at);
    hide Next, Possible;
    var p, got := s.procs["x"], Proposal(u, at).(sender := "");
    assert s.procs["x" := p.(inbox := [got], read := p.read + [got])]["x" := p.(read := p.read + [got])]
        == s.procs["x" := p.(read := p.read + [got])];
  }

  lemma ProposalIsServed(s: Sys, m: Message, at: real)
    requires s.queue == [m] && s.room.outcome == Running && s.clock <= at
    ensures Possible(s, ServeOf(at))
    ensures Next(s, ServeOf(at)) == s.(queue := [], room := OnUpdate(s.room, m, at), clock := at)
  {
    hide OnUpdate;
  }

  /** The master's proposal reaches the manager at once. */
  lemma Submits(s: Sys, u: Update, at: real) returns (q: Sys)
    requires Reachable(s) && Idle(s) && s.clock <= at
    ensures Reachable(q) && q.clock == at && q.room == OnUpdate(s.room, Proposal(u, at), at)
    ensures q.room.outcome == Running ==> Idle(q)
  {
    ProposalIsQueued(s, u, at);
    hide Next, Possible, Reachable, OnUpdate;
    ReachableNext(s, ReadOf(u, at));
    ReachableNext(Next(s, ReadOf(u, at)), HandleOf(at));
    ProposalIsServed(Queued(s, u, at), Proposal(u, at), at);
    ReachableNext(Queued(s, u, at), ServeOf(at));
    q := Next(Queued(s, u, at), ServeOf(at));
  }

  // ---------------------------------------------------------------------------
  // The room opens
  // ---------------------------------------------------------------------------

  const ADMITTED := Event(0.0, Admit("x", "m"))
  const JOINED := Event(0.0, Enq("x"))

  function Closed(): Sys {
    NewSystem(Keeping, "m", "g", 0.0)
  }

  function Opened(): Sys {
    Next(Next(Closed(), ADMITTED), JOINED)
  }

  /** A room with the master, in which nothing has been proposed. */
  ghost predicate Fresh(r: RoomState) {
    && r.clients.Keys == {"x"} && r.masters == r.clients && r.outcome == Running && r.state.lastUpdated == 0.0
    && r.buffered == None && r.log == Log([], [], [], 0, 0.0, 0) && r.sem == Keeping && "x" in r.chans
  }

  lemma FirstMaster()
    ensures Fresh(OnJoin(NewRoom(Keeping, 0.0), Conn("x", Master), 0.0))
  {
    var r := NewRoom(Keeping, 0.0);
    NewRoomInv(Keeping, 0.0);
    JoinStops(r, Conn("x", Master), 0.0);
    JoinSends(r, Conn("x", Master), 0.0);
    assert OnJoin(r, Conn("x", Master), 0.0).clients == map["x" := Conn("x", Master)];
  }

  lemma MasterIsAdmitted()
    ensures Possible(Closed(), ADMITTED)
    ensures Next(Closed(), ADMITTED) == Closed().(procs := map["x" := Proc(Master, "m", [], [], false, {})])
  {
  }

  lemma MasterJoins(s: Sys)
    requires s == Closed().(procs := map["x" := Proc(Master, "m", [], [], false, {})])
    ensures Possible(s, JOINED)
    ensures var q := Next(s, JOINED);
      && q == s.(procs := map["x" := Proc(Master, "m", [], [], true, {})], room := q.room, clock := 0.0)
      && q.room == OnJoin(NewRoom(Keeping, 0.0), Conn("x", Master), 0.0)
  {
    hide OnJoin;
  }

  lemma RoomOpens()
    ensures Possible(Closed(), ADMITTED) && Possible(Next(Closed(), ADMITTED), JOINED)
    ensures Reachable(Opened()) && Idle(Opened()) && Opened().clock == 0.0 && Fresh(Opened().room)
    ensures Opened().procs.Keys == {"x"} && Opened().guestKey == "g" && Opened().masterKey == "m"
  {
    MasterIsAdmitted();
    MasterJoins(Next(Closed(), ADMITTED));
    hide OnJoin, Next, Possible, Fresh;
    FirstMaster();
    assert Reachable(Closed()) by { assert Closed() == Exec(Closed(), []); }
    hide Reachable;
    ReachableNext(Closed(), ADMITTED);
    ReachableNext(Next(Closed(), ADMITTED), JOINED);
  }

  // ---------------------------------------------------------------------------
  // A run to which the theorems of Sync apply
  // ---------------------------------------------------------------------------

  /** The master proposes at time 2 to play a video of 100 seconds; the room says so. */
  lemma PlayingRoom() returns (s: Sys, e: Event, state: StateMessage, q: Sys, m: Message)
    ensures StillOn(s, e, "x", state, q, 2.0) && state.status == PLAYING && state.speed == 1.0
    ensures Leads(q, m, Estimate(Samples([]))) && m.receivedAt == 2.0 && e.at == 2.0
  {
    hide Next, Possible, OnUpdate, Reachable, Idle, Fresh, Inv, Announces, Leads, Quietly, WasSent;
    var u := Update(StateMessage("v", PLAYING, 0.0, 1.0, 100.0), 0.0);
    RoomOpens();
    s, m, e := QueuedProposal(u);
    q := Next(s, e);
    ProposalIsServed(s, m, 2.0);
    SoundLater(s, 2.0);
    FirstProposal(s.room, q.room, m, u);
    ReachableNext(s, e);
    RoomSaysTheFormula(q, 2.0);
    state := Formula(Start(u, 2.0), 2.0);
    AnnouncesThis(s, e, q, "x", state);
    LeadsThis(q, m);
    NothingHappens(q);
  }

  lemma QueuedProposal(u: Update) returns (s: Sys, m: Message, e: Event)
    ensures m == Proposal(u, 2.0) && e == ServeOf(2.0) && Reachable(s)
    ensures s.queue == [m] && s.room.outcome == Running && s.clock == 2.0 && Fresh(s.room)
  {
    RoomOpens();
    ProposalIsQueued(Opened(), u, 2.0);
    hide Next, Reachable, Possible, Fresh;
    ReachableNext(Opened(), ReadOf(u, 2.0));
    ReachableNext(Next(Opened(), ReadOf(u, 2.0)), HandleOf(2.0));
    s, m, e := Queued(Opened(), u, 2.0), Proposal(u, 2.0), ServeOf(2.0);
  }

  lemma AnnouncesThis(s: Sys, e: Event, q: Sys, id: string, state: StateMessage)
    requires q == Next(s, e) && WasSent(s.room, q.room, id, state)
    ensures Announces(s, e, id, state)
  {
  }

  lemma LeadsThis(q: Sys, m: Message)
    requires Recorded(q.room) && q.room.log.applied != [] && LastApplied(q.room) == m
    requires m.payload.UpdatePayload? && m.payload.update.rtt == 0.0
    ensures Leads(q, m, 0.0)
  {
  }

  lemma NothingHappens(q: Sys)
    ensures Quietly(q, q)
  {
    assert Exec(q, []) == q;
  }

  lemma FirstProposal(r: RoomState, q: RoomState, m: Message, u: Update)
    requires Inv(r, 2.0) && Fresh(r) && q == OnUpdate(r, m, 2.0) && m == Proposal(u, 2.0)
    ensures WasSent(r, q, "x", Observe(ApplyUpdate(u, 0.0, 2.0), 2.0).1)
    ensures q.log == Log([m], [Applied(0, 2.0, true, 2.0, 0)], [], 0, 0.0, 0) && q.state.lastUpdated == 2.0
    ensures q.buffered == None && q.outcome == Running && Recorded(q) && LineOf(q) == Start(u, 2.0)
    ensures LastApplied(q) == m && q.state == Observe(ApplyUpdate(u, 0.0, 2.0), 2.0).0
    ensures q.clients == r.clients && q.masters == r.masters && q.sem == r.sem
    ensures Steady(Start(u, 2.0)) ==> WasSent(r, q, "x", Formula(Start(u, 2.0), 2.0))
  {
    assert r.clients.Keys == {"x"} && "x" in r.chans && Channels(r);
    var e := Applied(0, 2.0, true, 2.0, 0);
    assert [] + [m] == [m] && [] + [e] == [e];
    hide Inv, OnUpdate, OnLine, Channels, Steady, Apply, Fresh, Observe, Formula;
    ImmediateEffect(r, m, 2.0, 2.0);
    ImmediateIsApplied(r, m, 2.0);
    ApplySends(Record(r, m), m, e);
  }

  // ---------------------------------------------------------------------------
  // A run in which an older update replaces a newer one
  // ---------------------------------------------------------------------------

  /** The second proposal comes half a second after the first, and is buffered. */
  lemma SecondProposal(r: RoomState, q: RoomState, m1: Message, m2: Message)
    requires r.log == Log([m1], [Applied(0, 2.0, true, 2.0, 0)], [], 0, 0.0, 0) && r.state.lastUpdated == 2.0
    requires r.buffered == None && m2.typ == STATE_UPDATE && m2.payload.UpdatePayload?
    requires q == OnUpdate(r, m2, 2.5)
    ensures q == r.(log := Log([m1, m2], [Applied(0, 2.0, true, 2.0, 0)], [], 1, 2.5, 1),
                    buffered := Some(m2), cooldown := Timer(true, 3.4, q.cooldown.unread))
  {
    assert [m1] + [m2] == [m1, m2];
  }

  /** The third one comes when the cooldown is over, and before the timer that guards the buffer. */
  lemma ThirdProposal(r: RoomState, q: RoomState, m1: Message, m2: Message, m3: Message)
    requires Inv(r, 3.05) && r.outcome == Running && r.state.lastUpdated == 2.0 && r.buffered == Some(m2)
    requires r.log == Log([m1, m2], [Applied(0, 2.0, true, 2.0, 0)], [], 1, 2.5, 1)
    requires m3.receivedAt == 3.05 && IsUpdate(m3) && q == OnUpdate(r, m3, 3.05)
    ensures q == r.(state := q.state, chans := q.chans, log := q.log)
    ensures q.log == Log([m1, m2, m3], [Applied(0, 2.0, true, 2.0, 0), Applied(2, 3.05, true, 3.05, 1)], [], 1, 2.5, 1)
  {
    ImmediateEffect(r, m3, 3.05, 3.05);
    assert [m1, m2] + [m3] == [m1, m2, m3];
  }

  lemma TimerFires(s: Sys, e: Event)
    requires e == Event(3.4, Manage(CooldownFires)) && s.room.outcome == Running && s.clock <= 3.4
    requires s.room.cooldown.active && s.room.cooldown.deadline == 3.4
    ensures Possible(s, e) && Next(s, e) == s.(room := s.room.(cooldown := Fire(s.room.cooldown)), clock := 3.4)
  {
  }

  lemma BufferIsServed(r: RoomState, u1: Update, u2: Update, u3: Update)
    requires Inv(r, 3.4) && r.outcome == Running && r.cooldown.unread
    requires var m1, m2, m3 := Proposal(u1, 2.0), Proposal(u2, 2.5), Proposal(u3, 3.05);
      && r.buffered == Some(m2)
      && r.log == Log([m1, m2, m3], [Applied(0, 2.0, true, 2.0, 0), Applied(2, 3.05, true, 3.05, 1)], [], 1, 2.5, 1)
    ensures var q := OnCooldown(r, 3.4);
      && Indices(q.log.applied) == [0, 2, 1] && Regressed(q.log.applied)
      && Recorded(q) && LineOf(q) == Start(u2, 2.5)
  {
    CooldownEffect(r, 3.4, 3.4);
    var q := OnCooldown(r, 3.4);
    assert q.log.applied[1].index == 2 && q.log.applied[2].index == 1;
    assert Indices(q.log.applied) == [0, 2, 1];
  }

  /** The master proposes at 2, at 2.5 and at 3.05; at 3.4 the second proposal replaces the third. */
  lemma OlderUpdateWins(u1: Update, u2: Update, u3: Update) returns (s: Sys, e: Event)
    ensures Reachable(s) && Possible(s, e) && e == Event(3.4, Manage(CooldownServed))
    ensures s.room.log.received == [Proposal(u1, 2.0), Proposal(u2, 2.5), Proposal(u3, 3.05)]
    ensures var q := Next(s, e).room;
      Indices(q.log.applied) == [0, 2, 1] && Regressed(q.log.applied) && Recorded(q) && LineOf(q) == Start(u2, 2.5)
  {
    hide Reachable, Next, Possible, OnUpdate, Inv;
    RoomOpens();
    var m1, m2, m3 := Proposal(u1, 2.0), Proposal(u2, 2.5), Proposal(u3, 3.05);
    var s1 := Submits(Opened(), u1, 2.0);
    SoundLater(Opened(), 2.0);
    FirstProposal(Opened().room, s1.room, m1, u1);
    var s2 := Submits(s1, u2, 2.5);
    SecondProposal(s1.room, s2.room, m1, m2);
    var s3 := Submits(s2, u3, 3.05);
    SoundLater(s2, 3.05);
    ThirdProposal(s2.room, s3.room, m1, m2, m3);
    var fires := Event(3.4, Manage(CooldownFires));
    TimerFires(s3, fires);
    s, e := Next(s3, fires), Event(3.4, Manage(CooldownServed));
    ReachableNext(s3, fires);
    SoundLater(s, 3.4);
    BufferIsServed(s.room, u1, u2, u3);
    CooldownIsServed(s, e);
  }

  lemma SoundLater(s: Sys, now: real)
    requires Reachable(s) && s.clock <= now
    ensures Inv(s.room, now)
  {
    ReachableIsSound(s);
    Later(s.room, s.clock, now);
  }

  lemma CooldownIsServed(s: Sys, e: Event)
    requires e == Event(3.4, Manage(CooldownServed)) && s.room.outcome == Running && s.clock <= 3.4
    requires s.room.cooldown.unread
    ensures Possible(s, e) && Next(s, e).room == OnCooldown(s.room, 3.4)
  {
    hide OnCooldown;
  }
}
