/** What masters do notice of guests. A guest that joins past the end of the video moves the room's last-updated time,
    and that can change whether a later update is applied at once. Nothing else can. Two runs are compared again: one
    with all its events, and the same run with every guest event erased. */
module GuestTiming {
  import opened Options
  import opened Messages
  import opened Playback
  import opened Timers
  import opened RoomMachine
  import opened RoomInvariants
  import opened System
  import opened SystemInvariants
  import opened RunTheorems
  import opened Sync
  import opened NonInterference

  /** The system with another playback state. */
  function With(s: Sys, st: PlaybackState): Sys {
    s.(room := s.room.(state := st))
  }

  /** Apart from the playback state the masters cannot tell s from t: buffer, timers, queue, history and everything
      that has been sent to each master are the same. */
  predicate Alike(s: Sys, t: Sys) {
    Same(With(s, t.room.state), t)
  }

  /** Whether an update would be applied at once. */
  predicate Prompt(r: RoomState, now: real) {
    now - r.state.lastUpdated > 1.0
  }

  /** An update is served that one of the two rooms applies at once while the other one buffers it. */
  predicate Disagree(s: Sys, t: Sys, e: Event) {
    e.act.Serve? && s.queue != [] && Prompt(s.room, e.at) != Prompt(t.room, e.at)
  }

  /** No update that has been received rewinds from beyond the end of the video. */
  ghost predicate AllSteady(r: RoomState) {
    forall i :: 0 <= i < |r.log.received| && r.log.received[i].payload.UpdatePayload? ==>
      Steady(Start(r.log.received[i].payload.update, r.log.received[i].receivedAt))
  }

  lemma LineIsSteady(r: RoomState)
    requires Recorded(r) && AllSteady(r)
    ensures Steady(LineOf(r))
  {
  }

  // ---------------------------------------------------------------------------
  // Two rooms that differ in their playback state only
  // ---------------------------------------------------------------------------

  /** The state stands for the room's timeline. */
  ghost predicate Fits(r: RoomState, st: PlaybackState, now: real) {
    Inv(r, now) && Inv(r.(state := st), now)
  }

  lemma SaidAlike(r: RoomState, st: PlaybackState, now0: real, now: real)
    requires Fits(r, st, now0) && now0 <= now && Steady(LineOf(r))
    ensures Observe(r.state, now).1 == Observe(st, now).1
  {
    assert LineOf(r.(state := st)) == LineOf(r);
    ObservingFollows(r.state, LineOf(r), now0, now);
    ObservingFollows(st, LineOf(r), now0, now);
  }

  /** Two results of a step differ in the playback state only. */
  predicate Twins(q: RoomState, p: RoomState) {
    p == q.(state := p.state)
  }

  lemma DeliverAlike(r: RoomState, a: PlaybackState, b: PlaybackState, to: set<string>, m: StateMessage)
    ensures Twins(Deliver(r.(state := a), to, m), Deliver(r.(state := b), to, m))
  {
  }

  lemma BroadcastAlike(r: RoomState, st: PlaybackState, now0: real, now: real)
    requires Fits(r, st, now0) && now0 <= now && Steady(LineOf(r))
    ensures Twins(BroadcastState(r, now), BroadcastState(r.(state := st), now))
  {
    SaidAlike(r, st, now0, now);
    hide Fits, Steady, LineOf, Deliver;
    DeliverAlike(r, Observe(r.state, now).0, Observe(st, now).0, r.clients.Keys, Observe(st, now).1);
  }

  lemma ApplyAlike(r: RoomState, st: PlaybackState, m: Message, e: Applied)
    requires m.payload.UpdatePayload?
    ensures Apply(r.(state := st), m, e) == Apply(r, m, e)
  {
    assert UpdateState(r.(state := st), m, e) == UpdateState(r, m, e);
  }

  lemma UpdateAlike(r: RoomState, st: PlaybackState, m: Message, now: real)
    requires m.typ == STATE_UPDATE ==> m.payload.UpdatePayload? && (Prompt(r, now) <==> Prompt(r.(state := st), now))
    ensures Twins(OnUpdate(r, m, now), OnUpdate(r.(state := st), m, now))
  {
    if m.typ == STATE_UPDATE && Prompt(r, now) {
      hide Apply;
      ApplyAlike(Record(r, m), st, m, Applied(|r.log.received|, now, true, now, |r.log.applied|));
      assert Record(r.(state := st), m) == Record(r, m).(state := st);
    }
  }

  lemma CooldownAlike(r: RoomState, st: PlaybackState, now: real)
    requires r.cooldown.unread && (r.buffered.Some? ==> r.buffered.value.payload.UpdatePayload?)
    ensures Twins(OnCooldown(r, now), OnCooldown(r.(state := st), now))
  {
    if r.buffered.Some? {
      hide Apply;
      var entry := Applied(r.log.pending, now, false, r.log.armedAt, r.log.appliedBefore);
      ApplyAlike(r.(cooldown := Receive(r.cooldown)), st, r.buffered.value, entry);
    }
  }

  lemma EnterAlike(r: RoomState, st: PlaybackState, c: Conn)
    ensures JoinClient(r.(state := st), c) == JoinClient(r, c).(state := st)
  {
  }

  lemma SendAlike(r: RoomState, st: PlaybackState, id: string, now: real)
    requires Observe(r.state, now).1 == Observe(st, now).1
    ensures var q, p := SendState(r, id, now), SendState(r.(state := st), id, now);
      Twins(q, p) && p.masters == q.masters
  {
    hide Deliver, Observe;
    var m := Observe(st, now).1;
    DeliverAlike(r, Observe(r.state, now).0, Observe(st, now).0, {id}, m);
  }

  lemma StopAlike(q: RoomState, p: RoomState)
    requires Twins(q, p)
    ensures Twins(StopShutdown(q), StopShutdown(p))
  {
  }

  lemma JoinAlike(r: RoomState, st: PlaybackState, c: Conn, now0: real, now: real)
    requires Fits(r, st, now0) && now0 <= now && Steady(LineOf(r))
    ensures Twins(OnJoin(r, c, now), OnJoin(r.(state := st), c, now))
  {
    SaidAlike(r, st, now0, now);
    EnterAlike(r, st, c);
    assert JoinClient(r, c).state == r.state;
    hide Fits, Steady, LineOf, SendState, JoinClient, StopShutdown;
    SendAlike(JoinClient(r, c), st, c.id, now);
    StopAlike(SendState(JoinClient(r, c), c.id, now), SendState(JoinClient(r, c).(state := st), c.id, now));
  }

  lemma CloseAlike(r: RoomState, st: PlaybackState, ids: set<string>)
    ensures CloseChannels(r.(state := st), ids) == CloseChannels(r, ids).(state := st)
  {
  }

  lemma KillAlike(r: RoomState, st: PlaybackState, c: Conn)
    ensures KillClient(r.(state := st), c) == KillClient(r, c).(state := st)
  {
    hide CloseChannels;
    CloseAlike(r.(clients := r.clients - {c.id}, masters := r.masters - {c.id}), st, {c.id});
  }

  lemma LeaveAlike(r: RoomState, st: PlaybackState, c: Conn, now: real)
    ensures OnLeave(r.(state := st), c, now) == OnLeave(r, c, now).(state := st)
  {
    hide KillClient;
    KillAlike(r, st, c);
  }

  lemma ShutdownAlike(r: RoomState, st: PlaybackState)
    requires r.shutdown.unread
    ensures OnShutdown(r.(state := st)) == OnShutdown(r).(state := st)
  {
    hide CloseChannels;
    var q := StopTimers(r);
    CloseAlike(q.(clients := map[], masters := q.masters - q.clients.Keys), st, q.clients.Keys);
  }

  lemma StepAlike(r: RoomState, st: PlaybackState, a: Action, now0: real, now: real)
    requires Fits(r, st, now0) && now0 <= now && Enabled(r, a, now) && Steady(LineOf(r))
    requires a.Recv? ==> (Prompt(r, now) <==> Prompt(r.(state := st), now))
    ensures Enabled(r.(state := st), a, now)
    ensures Twins(Step(r, a, now), Step(r.(state := st), a, now))
  {
    hide OnUpdate, OnJoin, OnLeave, BroadcastState, OnCooldown, OnShutdown;
    match a
    case Recv(m) => UpdateAlike(r, st, m, now);
    case Join(c) => JoinAlike(r, st, c, now0, now);
    case Leave(c) => LeaveAlike(r, st, c, now);
    case Tick => BroadcastAlike(r, st, now0, now);
    case CooldownFires =>
    case CooldownServed => CooldownAlike(r, st, now);
    case ShutdownFires =>
    case ShutdownServed => ShutdownAlike(r, st);
  }

  // ---------------------------------------------------------------------------
  // One event of the run
  // ---------------------------------------------------------------------------

  lemma AlikeFits(r: RoomState, now: real, t: RoomState, nowT: real)
    requires Inv(r, now) && Inv(t, nowT) && nowT <= now && t.log == r.log && t.created == r.created
    requires t.buffered == r.buffered
    ensures Inv(r.(state := t.state), now)
  {
    var p := r.(state := t.state);
    assert LineOf(p) == LineOf(t) && LineOf(p) == LineOf(r);
    assert OnLine(p, now) && Paced(p, now);
    assert Membership(p) && Channels(p) && Conserved(p) && Overtaking(p) && Meaningful(p, now);
  }

  /** Another playback state, seen by the rest of the server. */
  lemma WithKeeps(s: Sys, t: Sys)
    requires SysInv(s) && SysInv(t) && Alike(s, t)
    ensures SysInv(With(s, t.room.state)) && Fits(s.room, t.room.state, s.clock)
    ensures t.room.log == s.room.log && t.room.buffered == s.room.buffered && t.queue == s.queue && t.clock <= s.clock
    ensures t.room.masters == s.room.masters == t.room.clients && t.room.outcome == s.room.outcome
  {
    AlikeFits(s.room, s.clock, t.room, t.clock);
    WithRest(s, t.room.state);
  }

  lemma WithRest(s: Sys, st: PlaybackState)
    requires SysInv(s) && Inv(s.room.(state := st), s.clock)
    ensures SysInv(With(s, st))
  {
    hide Inv;
    var q := With(s, st);
    assert Admitted(q) && Known(q) && Provenance(q);
    assert InOrder(q);
  }

  lemma OutsideWith(s: Sys, st: PlaybackState, e: Event)
    requires InOrder(s) && Possible(s, e)
    ensures Possible(With(s, st), e) && ManagerAction(With(s, st), e.act) == ManagerAction(s, e.act)
    ensures Outside(With(s, st), e) == With(Outside(s, e), st) && GuestEvent(With(s, st), e) == GuestEvent(s, e)
  {
    if e.act.Handle? {
      var first := s.procs[e.act.id].inbox[0];
      assert Agrees(first.typ, first.payload);
    }
  }

  /** Two systems that differ in the playback state only still do after any event on which they agree. */
  lemma NextAlike(s: Sys, st: PlaybackState, e: Event)
    requires SysInv(s) && SysInv(With(s, st)) && Possible(s, e) && AllSteady(s.room)
    requires e.act.Serve? ==> (Prompt(s.room, e.at) <==> Prompt(s.room.(state := st), e.at))
    ensures Possible(With(s, st), e) && GuestEvent(With(s, st), e) == GuestEvent(s, e)
    ensures Next(With(s, st), e) == With(Next(s, e), Next(With(s, st), e).room.state)
  {
    OutsideWith(s, st, e);
    if ManagerAction(s, e.act).Some? {
      ManagerIsServed(s, e);
      LineIsSteady(s.room);
      StepAlike(s.room, st, ManagerAction(s, e.act).value, s.clock, e.at);
      hide Step, Outside, Possible, SysInv;
    } else {
      OutsideLeavesRoom(s, e);
      OutsideLeavesRoom(With(s, st), e);
    }
  }

  lemma WithSame(s: Sys, t: Sys)
    requires Same(With(s, t.room.state), t)
    ensures Alike(s, t)
  {
  }

  lemma StateOfSame(s: Sys, t: Sys)
    requires Same(s, t)
    ensures t.room.state == s.room.state
  {
  }

  lemma OwnEventAlike(s: Sys, t: Sys, e: Event)
    requires SysInv(s) && SysInv(t) && Alike(s, t) && Possible(s, e) && AllSteady(s.room)
    requires !Disagree(s, t, e) && !GuestEvent(s, e)
    ensures Possible(t, e) && Alike(Next(s, e), Next(t, e))
  {
    var st := t.room.state;
    WithKeeps(s, t);
    assert e.act.Serve? ==> s.queue != [];
    NextAlike(s, st, e);
    hide Next, SysInv, Possible, Same;
    NextIsPaired(With(s, st), t, e);
    assert Inside(With(s, st), e);
    StateOfSame(Next(With(s, st), e), Next(t, e));
    WithSame(Next(s, e), Next(t, e));
  }

  lemma GuestEventAlike(s: Sys, t: Sys, e: Event)
    requires SysInv(s) && SysInv(t) && Alike(s, t) && Possible(s, e) && AllSteady(s.room)
    requires GuestEvent(s, e) && !e.act.Enq?
    ensures Alike(Next(s, e), t)
  {
    var st := t.room.state;
    WithKeeps(s, t);
    NextAlike(s, st, e);
    hide Next, SysInv, Possible, Same;
    NextIsPaired(With(s, st), t, e);
    assert Inside(With(s, st), e);
    StateOfSame(Next(With(s, st), e), t);
    WithSame(Next(s, e), t);
  }

  lemma GuestJoinView(r: RoomState, st: PlaybackState, c: Conn, now: real, ms: set<string>)
    requires Membership(r) && Channels(r) && MastersAre(r, ms) && c.id !in r.chans
    requires c.kind != Master && c.id !in ms
    ensures RoomView(OnJoin(r, c, now).(state := st), ms) == RoomView(r.(state := st), ms)
  {
    GuestJoins(r, c, now, ms);
    var q := OnJoin(r, c, now);
    hide OnJoin;
    ViewKeeps(q, st, q.log, ms);
    ViewKeeps(r, st, r.log, ms);
    assert RoomView(q, ms).log == q.log && RoomView(r, ms).log == r.log;
  }

  lemma GuestIsServed(s: Sys, st: PlaybackState, e: Event)
    requires SysInv(s) && SysInv(With(s, st)) && Possible(s, e) && GuestEvent(s, e) && e.act.Enq?
    ensures e.act.id in s.procs
    ensures var c := ConnOf(s, e.act.id);
      && Next(s, e) == Outside(s, e).(clock := e.at, room := OnJoin(s.room, c, e.at))
      && c.kind != Master && c.id !in MasterIds(s) && c.id !in s.room.chans
      && Membership(s.room) && Channels(s.room) && MastersAre(s.room, MasterIds(s))
    ensures MasterIds(With(s, st)) == MasterIds(s) && Sane(With(s, st))
    ensures Possible(With(s, st), e) && GuestEvent(With(s, st), e)
    ensures Outside(With(s, st), e) == With(Outside(s, e), st)
  {
    OutsideWith(s, st, e);
    SoundIsSane(s);
    SoundIsSane(With(s, st));
    EnqIsServed(s, e);
    hide OnJoin, SysInv;
  }

  lemma GuestJoinAlike(s: Sys, t: Sys, e: Event)
    requires SysInv(s) && SysInv(t) && Alike(s, t) && Possible(s, e) && GuestEvent(s, e) && e.act.Enq?
    ensures Alike(Next(s, e), t)
  {
    hide Next, SysInv, OnJoin, Same, Outside, Possible, Membership, Channels, RoomView, GuestEvent, MasterIds;
    var st := t.room.state;
    WithKeeps(s, t);
    GuestIsServed(s, st, e);
    var c := ConnOf(s, e.act.id);
    GuestJoinView(s.room, st, c, e.at, MasterIds(s));
    GuestOutside(With(s, st), t, e, OnJoin(s.room, c, e.at).(state := st));
    assert Outside(With(s, st), e).(clock := e.at, room := OnJoin(s.room, c, e.at).(state := st))
        == With(Next(s, e), st);
    WithSame(Next(s, e), t);
  }

  /** Whatever happens on which the two runs agree, they stay alike. */
  lemma EventAlike(s: Sys, t: Sys, e: Event)
    requires SysInv(s) && SysInv(t) && Alike(s, t) && Possible(s, e) && AllSteady(s.room) && !Disagree(s, t, e)
    ensures Alike(Next(s, e), if GuestEvent(s, e) then t else Next(t, e))
    ensures !GuestEvent(s, e) ==> Possible(t, e)
  {
    hide Next, SysInv, Possible, Alike, Disagree, AllSteady;
    if !GuestEvent(s, e) {
      OwnEventAlike(s, t, e);
    } else if e.act.Enq? {
      GuestJoinAlike(s, t, e);
    } else {
      GuestEventAlike(s, t, e);
    }
  }

  // ---------------------------------------------------------------------------
  // The first disagreement
  // ---------------------------------------------------------------------------

  /** A room that is prompt applies the update and tells every client; one that is not tells nobody. */
  lemma UpdateIsHeard(r: RoomState, m: Message, now0: real, now: real)
    requires Inv(r, now0) && now0 <= now && Enabled(r, Recv(m), now) && m.typ == STATE_UPDATE
    ensures var q := OnUpdate(r, m, now);
      && |q.log.applied| == |r.log.applied| + (if Prompt(r, now) then 1 else 0)
      && forall id :: id in r.clients ==>
           |SentTo(q, id)| == |SentTo(r, id)| + if Prompt(r, now) then 1 else 0
  {
    if Prompt(r, now) {
      ImmediateEffect(r, m, now0, now);
    }
  }

  /** If the two rooms disagree about an update, every master that is present hears the difference. */
  lemma DisagreementIsHeard(s: Sys, t: Sys, e: Event)
    requires SysInv(s) && SysInv(t) && Alike(s, t) && Possible(s, e) && Disagree(s, t, e)
    ensures !Alike(Next(s, e), Next(t, e)) && !GuestEvent(s, e)
    ensures forall id :: id in s.room.masters ==> SentTo(Next(s, e).room, id) != SentTo(Next(t, e).room, id)
  {
    WithKeeps(s, t);
    OutsideWith(s, t.room.state, e);
    PossibleAlike(s, t, e);
    ManagerIsServed(s, e);
    ManagerIsServed(t, e);
    var m := s.queue[0];
    assert Genuine(s, m);
    ServedRooms(s, t, e, m);
    hide Next, Possible, OnUpdate;
    UpdateIsHeard(s.room, m, s.clock, e.at);
    UpdateIsHeard(t.room, m, t.clock, e.at);
    MastersHeardTheSame(s, t);
    assert Next(s, e).room.log != Next(t, e).room.log;
    forall id | id in s.room.masters ensures SentTo(Next(s, e).room, id) != SentTo(Next(t, e).room, id) {
      assert id in s.room.clients && id in t.room.clients;
    }
  }

  lemma PossibleAlike(s: Sys, t: Sys, e: Event)
    requires Possible(s, e) && e.act.Serve?
    requires t.queue == s.queue && t.clock <= s.clock && t.room.outcome == s.room.outcome
    ensures Possible(t, e)
  {
  }

  lemma ServedRooms(s: Sys, t: Sys, e: Event, m: Message)
    requires Possible(s, e) && Possible(t, e) && e.act.Serve? && s.queue != [] && t.queue == s.queue && m == s.queue[0]
    ensures Next(s, e).room == OnUpdate(s.room, m, e.at) && Next(t, e).room == OnUpdate(t.room, m, e.at)
  {
    hide OnUpdate;
  }

  /** Runs that are alike have told every master the same. */
  lemma MastersHeardTheSame(s: Sys, t: Sys)
    requires SysInv(s) && Alike(s, t)
    ensures forall id :: id in MasterIds(s) ==> SentTo(s.room, id) == SentTo(t.room, id)
    ensures forall id :: id in s.room.masters ==> id in MasterIds(s)
  {
    var ms := MasterIds(s);
    assert MasterIds(With(s, t.room.state)) == ms;
    assert t.room == RoomView(s.room.(state := t.room.state), ms);
    forall id | id in ms ensures SentTo(s.room, id) == SentTo(t.room, id) {
      assert id in t.room.chans <==> id in s.room.chans;
    }
    SoundIsSane(s);
  }

  // ---------------------------------------------------------------------------
  // Whole runs
  // ---------------------------------------------------------------------------

  predicate AlikeAt(s: Sys, t: Sys, events: seq<Event>, n: nat)
    requires n <= |events|
  {
    Alike(Exec(s, events[..n]), Exec(t, Erase(s, events[..n])))
  }

  predicate DisagreeAt(s: Sys, t: Sys, events: seq<Event>, i: nat)
    requires i < |events|
  {
    Disagree(Exec(s, events[..i]), Exec(t, Erase(s, events[..i])), events[i])
  }

  /** Every master has been told the same after n events as without those of guests. */
  ghost predicate HeardAt(s: Sys, t: Sys, events: seq<Event>, n: nat)
    requires n <= |events|
  {
    var q, p := Exec(s, events[..n]), Exec(t, Erase(s, events[..n]));
    forall id :: id in MasterIds(q) ==> SentTo(q.room, id) == SentTo(p.room, id)
  }

  /** A master is present whenever an update is served. */
  predicate Attended(s: Sys, events: seq<Event>) {
    forall i :: 0 <= i < |events| && events[i].act.Serve? ==> Exec(s, events[..i]).room.masters != map[]
  }

  lemma SteadyBefore(s: Sys, events: seq<Event>, n: nat)
    requires SysInv(s) && n <= |events| && AllSteady(Exec(s, events).room)
    ensures AllSteady(Exec(s, events[..n]).room)
  {
    var q := Exec(s, events[..n]);
    assert events[..n] + events[n..] == events;
    ExecConcat(s, events[..n], events[n..]);
    RunKeeps(s, events[..n]);
    RunGrows(q, events[n..]);
    GrownIsSteady(q.room, Exec(s, events).room);
  }

  lemma GrownIsSteady(r: RoomState, q: RoomState)
    requires LogGrows(r, q) && AllSteady(q)
    ensures AllSteady(r)
  {
    forall i | 0 <= i < |r.log.received| && r.log.received[i].payload.UpdatePayload?
      ensures Steady(Start(r.log.received[i].payload.update, r.log.received[i].receivedAt))
    {
      assert q.log.received[i] == r.log.received[i];
    }
  }

  /** One event more, in both runs. */
  lemma BothAdvance(s: Sys, t: Sys, events: seq<Event>, i: nat)
    requires SysInv(s) && IsRun(s, events) && i < |events|
    ensures var q, p, e := Exec(s, events[..i]), Exec(t, Erase(s, events[..i])), events[i];
      && Possible(q, e) && Exec(s, events[..i + 1]) == Next(q, e)
      && Exec(t, Erase(s, events[..i + 1])) == (if GuestEvent(q, e) then p else Next(p, e))
      && (IsRun(t, Erase(s, events[..i + 1])) <==>
            IsRun(t, Erase(s, events[..i])) && (GuestEvent(q, e) || Possible(p, e)))
  {
    hide Next, Possible, GuestEvent, SysInv, Erase;
    PrefixStep(s, events, i);
    EraseStep(s, t, events, i);
    ExecSnoc(t, Erase(s, events[..i]), events[i]);
  }

  lemma {:induction false} AlikeSoFar(s: Sys, t: Sys, events: seq<Event>, n: nat)
    requires SysInv(s) && SysInv(t) && Alike(s, t) && IsRun(s, events) && n <= |events|
    requires AllSteady(Exec(s, events).room)
    requires forall i :: 0 <= i < n ==> !DisagreeAt(s, t, events, i)
    ensures AlikeAt(s, t, events, n) && IsRun(t, Erase(s, events[..n]))
    decreases n
  {
    hide Next, Possible, Alike, Disagree, AllSteady, SysInv, GuestEvent;
    if n > 0 {
      var i := n - 1;
      AlikeSoFar(s, t, events, i);
      RunKeeps(s, events[..i]);
      RunKeeps(t, Erase(s, events[..i]));
      SteadyBefore(s, events, i);
      BothAdvance(s, t, events, i);
      assert !DisagreeAt(s, t, events, i);
      EventAlike(Exec(s, events[..i]), Exec(t, Erase(s, events[..i])), events[i]);
    } else {
      assert events[..0] == [] && Erase(s, []) == [];
    }
  }

  lemma {:induction false} FirstDisagreement(s: Sys, t: Sys, events: seq<Event>, n: nat) returns (i: nat)
    requires n <= |events| && exists j :: 0 <= j < n && DisagreeAt(s, t, events, j)
    ensures i < n && DisagreeAt(s, t, events, i) && forall j :: 0 <= j < i ==> !DisagreeAt(s, t, events, j)
  {
    if exists j :: 0 <= j < n - 1 && DisagreeAt(s, t, events, j) {
      i := FirstDisagreement(s, t, events, n - 1);
    } else {
      i := n - 1;
    }
  }

  lemma HeardAfterDisagreement(s: Sys, t: Sys, events: seq<Event>, i: nat)
    requires SysInv(s) && SysInv(t) && IsRun(s, events) && i < |events|
    requires AlikeAt(s, t, events, i) && DisagreeAt(s, t, events, i)
    ensures !AlikeAt(s, t, events, i + 1)
    ensures Exec(s, events[..i]).room.masters != map[] ==> !HeardAt(s, t, events, i + 1)
  {
    hide Next, Possible, Alike, Disagree, SysInv, GuestEvent, Exec, Erase;
    RunKeeps(s, events[..i]);
    RunKeeps(t, Erase(s, events[..i]));
    BothAdvance(s, t, events, i);
    var q, p, e := Exec(s, events[..i]), Exec(t, Erase(s, events[..i])), events[i];
    DisagreementIsHeard(q, p, e);
    if q.room.masters != map[] {
      var id :| id in q.room.masters;
      MastersHeardTheSame(q, p);
      MastersStay(q, e, id);
    }
  }

  lemma MastersStay(s: Sys, e: Event, id: string)
    requires id in MasterIds(s)
    ensures id in MasterIds(Next(s, e))
  {
    if Possible(s, e) {
      hide Step, RoomView;
      assert id in Outside(s, e).procs && Outside(s, e).procs[id].kind == Master;
    }
  }

  lemma AlikeIsHeard(s: Sys, t: Sys, events: seq<Event>, n: nat)
    requires SysInv(s) && n <= |events| && AlikeAt(s, t, events, n)
    ensures HeardAt(s, t, events, n)
  {
    hide Alike, SysInv, Exec, Erase;
    RunKeeps(s, events[..n]);
    MastersHeardTheSame(Exec(s, events[..n]), Exec(t, Erase(s, events[..n])));
  }

  /** Erasing the guests changes what the masters can tell, if and only if some update is served that one of the two
      rooms applies at once while the other one buffers it. If a master is present whenever an update is served, then
      this is also exactly when some master is sent something different. */
  lemma GuestsAreHeardExactly(s: Sys, t: Sys, events: seq<Event>)
    requires SysInv(s) && SysInv(t) && Alike(s, t) && IsRun(s, events) && AllSteady(Exec(s, events).room)
    ensures (forall n :: 0 <= n <= |events| ==> AlikeAt(s, t, events, n))
            <==> forall i :: 0 <= i < |events| ==> !DisagreeAt(s, t, events, i)
    ensures (forall i :: 0 <= i < |events| ==> !DisagreeAt(s, t, events, i)) ==>
              forall n :: 0 <= n <= |events| ==> HeardAt(s, t, events, n)
    ensures Attended(s, events) ==>
              ((forall n :: 0 <= n <= |events| ==> HeardAt(s, t, events, n))
               <==> forall i :: 0 <= i < |events| ==> !DisagreeAt(s, t, events, i))
  {
    hide AlikeAt, DisagreeAt, HeardAt, SysInv, Alike, IsRun, AllSteady, Exec;
    if forall i :: 0 <= i < |events| ==> !DisagreeAt(s, t, events, i) {
      forall n | 0 <= n <= |events| ensures AlikeAt(s, t, events, n) && HeardAt(s, t, events, n) {
        AlikeSoFar(s, t, events, n);
        AlikeIsHeard(s, t, events, n);
      }
    } else {
      var i := FirstDisagreement(s, t, events, |events|);
      AlikeSoFar(s, t, events, i);
      HeardAfterDisagreement(s, t, events, i);
      OnlyServing(s, t, events, i);
    }
  }

  lemma OnlyServing(s: Sys, t: Sys, events: seq<Event>, i: nat)
    requires i < |events| && DisagreeAt(s, t, events, i)
    ensures events[i].act.Serve?
  {
  }
}
