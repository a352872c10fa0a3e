/** A run in which a master hears of a guest: a video of one second is over when the guest joins, and half a second
    later the master proposes something else. With the guest the proposal is buffered; without it, it is applied. */
module GuestExample {
  import opened Options
  import opened Messages
  import opened Playback
  import opened Timers
  import opened RoomMachine
  import opened RoomInvariants
  import opened System
  import opened SystemInvariants
  import opened RunTheorems
  import opened NonInterference
  import opened GuestTiming
  import opened Example

  const GUEST_ADMITTED := Event(2.0, Admit("y", "g"))
  const GUEST_JOINED := Event(4.0, Enq("y"))

  /** A run from the closed room to s, and the same run without guest events, to t. */
  ghost predicate BothLead(events: seq<Event>, s: Sys, t: Sys) {
    && IsRun(Closed(), events) && s == Exec(Closed(), events)
    && IsRun(Closed(), Erase(Closed(), events)) && t == Exec(Closed(), Erase(Closed(), events))
  }

  lemma LeadsNowhere()
    ensures BothLead([], Closed(), Closed())
  {
  }

  lemma LeadsOn(events: seq<Event>, s: Sys, t: Sys, e: Event)
    requires BothLead(events, s, t) && Possible(s, e) && (GuestEvent(s, e) || Possible(t, e))
    ensures BothLead(events + [e], Next(s, e), if GuestEvent(s, e) then t else Next(t, e))
  {
    hide Next, Possible, GuestEvent, Closed;
    var more := events + [e];
    ExecSnoc(Closed(), events, e);
    assert more[..|more| - 1] == events && more[|more| - 1] == e;
    var erased := Erase(Closed(), events);
    ExecSnoc(Closed(), erased, e);
    assert erased + [] == erased;
    assert Erase(Closed(), more) == if GuestEvent(s, e) then erased else erased + [e];
  }

  /** The short video that the master proposes first. */
  function Short(): Update {
    Update(StateMessage("v", PLAYING, 0.0, 1.0, 1.0), 0.0)
  }

  /** The room in which the short video has been proposed. */
  ghost predicate PlaysShort(s: Sys) {
    && Idle(s) && s.clock == 2.0 && s.procs.Keys == {"x"} && s.guestKey == "g" && s.masterKey == "m"
    && s.room.state == PlaybackState("v", PLAYING, 0.0, 1.0, 1.0, 2.0)
    && s.room.clients.Keys == {"x"} && SysInv(s)
  }

  lemma MasterEvents(s: Sys, u: Update, at: real)
    requires "x" in s.procs && s.procs["x"].kind == Master
    ensures !GuestEvent(s, ReadOf(u, at)) && !GuestEvent(s, HandleOf(at)) && !GuestEvent(s, ServeOf(at))
    ensures !GuestEvent(s, JOINED)
  {
  }

  /** A proposal is read and handled in both runs. */
  lemma BothQueue(events: seq<Event>, s: Sys, t: Sys, u: Update, at: real)
    requires BothLead(events, s, t) && Idle(s) && Idle(t) && s.clock <= at && t.clock <= at
    ensures BothLead(events + [ReadOf(u, at)] + [HandleOf(at)], Queued(s, u, at), Queued(t, u, at))
  {
    ProposalIsQueued(s, u, at);
    ProposalIsQueued(t, u, at);
    Reads(s, u, at);
    MasterEvents(s, u, at);
    MasterEvents(Next(s, ReadOf(u, at)), u, at);
    hide Next, Possible, GuestEvent, BothLead, Idle;
    LeadsOn(events, s, t, ReadOf(u, at));
    LeadsOn(events + [ReadOf(u, at)], Next(s, ReadOf(u, at)), Next(t, ReadOf(u, at)), HandleOf(at));
  }

  lemma ShortIsProposed() returns (events: seq<Event>, s: Sys)
    ensures BothLead(events, s, s) && PlaysShort(s)
  {
    hide Next, Possible, GuestEvent, BothLead, Fresh, OnUpdate, Reachable, SysInv, Inv;
    events := OpeningLeads();
    RoomOpens();
    var u := Short();
    var o := Opened();
    BothQueue(events, o, o, u, 2.0);
    events := events + [ReadOf(u, 2.0)] + [HandleOf(2.0)];
    ProposalIsQueued(o, u, 2.0);
    var waiting := Queued(o, u, 2.0);
    ProposalIsServed(waiting, Proposal(u, 2.0), 2.0);
    MasterEvents(waiting, u, 2.0);
    LeadsOn(events, waiting, waiting, ServeOf(2.0));
    events, s := events + [ServeOf(2.0)], Next(waiting, ServeOf(2.0));
    SoundLater(o, 2.0);
    FirstProposal(o.room, s.room, Proposal(u, 2.0), u);
    LeadsSoundly(events, s, s);
    assert Observe(ApplyUpdate(u, 0.0, 2.0), 2.0).0 == PlaybackState("v", PLAYING, 0.0, 1.0, 1.0, 2.0);
    assert s.room.clients.Keys == {"x"} by { FreshClients(o.room); }
  }

  lemma FreshClients(r: RoomState)
    requires Fresh(r)
    ensures r.clients.Keys == {"x"}
  {
  }

  lemma LeadsSoundly(events: seq<Event>, s: Sys, t: Sys)
    requires BothLead(events, s, t)
    ensures SysInv(s) && SysInv(t)
  {
    hide Inv, SysInv;
    NewSystemInv(Keeping, "m", "g", 0.0);
    RunKeeps(Closed(), events);
    RunKeeps(Closed(), Erase(Closed(), events));
  }

  lemma OpeningLeads() returns (events: seq<Event>)
    ensures BothLead(events, Opened(), Opened())
  {
    RoomOpens();
    MasterIsAdmitted();
    assert !GuestEvent(Closed(), ADMITTED);
    MasterEvents(Next(Closed(), ADMITTED), Short(), 0.0);
    hide Next, Possible, GuestEvent, BothLead, Reachable, Fresh, Idle;
    LeadsNowhere();
    LeadsOn([], Closed(), Closed(), ADMITTED);
    LeadsOn([] + [ADMITTED], Next(Closed(), ADMITTED), Next(Closed(), ADMITTED), JOINED);
    events := [] + [ADMITTED] + [JOINED];
  }

  lemma GuestIsAdmitted(s: Sys)
    requires PlaysShort(s)
    ensures Possible(s, GUEST_ADMITTED) && GuestEvent(s, GUEST_ADMITTED)
    ensures Next(s, GUEST_ADMITTED) == s.(procs := s.procs["y" := Proc(Guest, "g", [], [], false, {})])
  {
    hide SysInv;
    assert "y" !in s.procs.Keys;
  }

  lemma GuestEnters(s: Sys, q: Sys)
    requires PlaysShort(s) && q == s.(procs := s.procs["y" := Proc(Guest, "g", [], [], false, {})]) && SysInv(q)
    ensures Possible(q, GUEST_JOINED) && GuestEvent(q, GUEST_JOINED)
    ensures var p := Next(q, GUEST_JOINED);
      && Idle(p) && p.clock == 4.0 && p.room.state.lastUpdated == 4.0
      && "x" in p.room.clients && SentTo(p.room, "x") == SentTo(s.room, "x")
  {
    GuestIsServed(s, q);
    hide OnJoin, SysInv, Next, Possible, Membership, Channels;
    JoinIsSilent(q.room, Conn("y", Guest));
  }

  lemma GuestIsServed(s: Sys, q: Sys)
    requires PlaysShort(s) && q == s.(procs := s.procs["y" := Proc(Guest, "g", [], [], false, {})]) && SysInv(q)
    ensures Possible(q, GUEST_JOINED) && GuestEvent(q, GUEST_JOINED)
    ensures Next(q, GUEST_JOINED) == q.(procs := q.procs["y" := Proc(Guest, "g", [], [], true, {})], clock := 4.0,
                                        room := OnJoin(q.room, Conn("y", Guest), 4.0))
    ensures Enabled(q.room, Join(Conn("y", Guest)), 4.0)
    ensures Membership(q.room) && Channels(q.room) && ShutdownGuards(q.room)
  {
    GuestMayEnter(q);
    EnqIsServed(q, GUEST_JOINED);
    hide OnJoin, SysInv, Next;
  }

  lemma GuestMayEnter(q: Sys)
    requires "y" in q.procs && q.procs["y"] == Proc(Guest, "g", [], [], false, {}) && q.clock <= 4.0
    requires q.room.outcome == Running
    ensures Possible(q, GUEST_JOINED) && GuestEvent(q, GUEST_JOINED)
  {
  }

  lemma JoinIsSilent(r: RoomState, c: Conn)
    requires Membership(r) && Channels(r) && ShutdownGuards(r) && Enabled(r, Join(c), 4.0) && c == Conn("y", Guest)
    requires r.state == PlaybackState("v", PLAYING, 0.0, 1.0, 1.0, 2.0) && "x" in r.clients
    ensures var q := OnJoin(r, c, 4.0);
      && q.state.lastUpdated == 4.0 && q.outcome == r.outcome
      && "x" in q.clients && SentTo(q, "x") == SentTo(r, "x")
  {
    JoinStops(r, c, 4.0);
    JoinSends(r, c, 4.0);
    assert "x" in r.chans;
  }

  /** Whatever the master proposes at 4.5: with the guest it is told nothing, without the guest it is told something. */
  lemma GuestIsHeard(u: Update) returns (events: seq<Event>, e: Event)
    ensures IsRun(Closed(), events + [e]) && IsRun(Closed(), Erase(Closed(), events + [e]))
    ensures Disagree(Exec(Closed(), events), Exec(Closed(), Erase(Closed(), events)), e)
    ensures var full, erased := Exec(Closed(), events + [e]), Exec(Closed(), Erase(Closed(), events + [e]));
      SentTo(full.room, "x") != SentTo(erased.room, "x")
  {
    hide Next, Possible, GuestEvent, SysInv, OnUpdate, BothLead, Erase, Exec, IsRun, SentTo;
    var before, s := ShortIsProposed();
    GuestIsAdmitted(s);
    LeadsOn(before, s, s, GUEST_ADMITTED);
    var joining := Next(s, GUEST_ADMITTED);
    LeadsSoundly(before + [GUEST_ADMITTED], joining, s);
    GuestEnters(s, joining);
    var joined := Next(joining, GUEST_JOINED);
    LeadsOn(before + [GUEST_ADMITTED], joining, s, GUEST_JOINED);
    events := before + [GUEST_ADMITTED] + [GUEST_JOINED];
    BothQueue(events, joined, s, u, 4.5);
    events, e := events + [ReadOf(u, 4.5)] + [HandleOf(4.5)], ServeOf(4.5);
    ProposalIsQueued(joined, u, 4.5);
    ProposalIsQueued(s, u, 4.5);
    LeadsSoundly(events, Queued(joined, u, 4.5), Queued(s, u, 4.5));
    ProposalIsHeard(events, Queued(joined, u, 4.5), Queued(s, u, 4.5), u);
  }

  lemma ProposalIsHeard(events: seq<Event>, s: Sys, t: Sys, u: Update)
    requires BothLead(events, s, t) && SysInv(s) && SysInv(t) && s.clock == 4.5 == t.clock
    requires s.queue == [Proposal(u, 4.5)] && t.queue == [Proposal(u, 4.5)]
    requires s.room.outcome == Running && t.room.outcome == Running
    requires s.room.state.lastUpdated == 4.0 && t.room.state.lastUpdated == 2.0
    requires "x" in s.room.clients && "x" in t.room.clients && SentTo(s.room, "x") == SentTo(t.room, "x")
    requires "x" in s.procs && s.procs["x"].kind == Master
    ensures var e := ServeOf(4.5);
            var full, erased := Exec(Closed(), events + [e]), Exec(Closed(), Erase(Closed(), events + [e]));
      && IsRun(Closed(), events + [e]) && IsRun(Closed(), Erase(Closed(), events + [e]))
      && Disagree(Exec(Closed(), events), Exec(Closed(), Erase(Closed(), events)), e)
      && SentTo(full.room, "x") != SentTo(erased.room, "x")
  {
    var e, m := ServeOf(4.5), Proposal(u, 4.5);
    ProposalIsServed(s, m, 4.5);
    ProposalIsServed(t, m, 4.5);
    ManagerIsServed(s, e);
    ManagerIsServed(t, e);
    hide Next, Possible, OnUpdate, Inv, Erase;
    UpdateIsHeard(s.room, m, 4.5, 4.5);
    UpdateIsHeard(t.room, m, 4.5, 4.5);
    MasterEvents(s, u, 4.5);
    LeadsOn(events, s, t, e);
  }
}
