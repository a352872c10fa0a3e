/** Guests watch; they do not interfere. Two runs are compared: one with all its events, and the same run with
    every guest event erased. */
module NonInterference {
  import opened Options
  import opened Messages
  import opened Playback
  import opened Timers
  import opened RoomMachine
  import opened RoomInvariants
  import opened System
  import opened SystemInvariants

  function MasterIds(s: Sys): set<string> {
    set id | id in s.procs && s.procs[id].kind == Master
  }

  /** The room as the masters know it: only masters are clients, only their channels exist. */
  function RoomView(r: RoomState, ms: set<string>): RoomState {
    r.(clients := r.masters, chans := map id | id in r.chans && id in ms :: r.chans[id])
  }

  function View(s: Sys): Sys {
    s.(room := RoomView(s.room, MasterIds(s)),
       procs := map id | id in s.procs && s.procs[id].kind == Master :: s.procs[id])
  }

  /** The masters cannot tell s from t: playback state, buffer, timers, queue, history and everything that has
      been sent to each master are the same. Only the clock of t may be behind. */
  predicate Same(s: Sys, t: Sys) {
    t.(clock := s.clock) == View(s) && t.clock <= s.clock
  }

  /** An admission with the guest key, or anything a guest or its goroutines do. */
  predicate GuestEvent(s: Sys, e: Event) {
    match e.act
    case Admit(_, token) => Authorise(s, token) == Guest
    case Read(id, _) => id in s.procs && s.procs[id].kind == Guest
    case Handle(id) => id in s.procs && s.procs[id].kind == Guest
    case Enq(id) => id in s.procs && s.procs[id].kind == Guest
    case Deq(id, _) => id in s.procs && s.procs[id].kind == Guest
    case Serve => false
    case Manage(_) => false
  }

  /** The run without its guest events. */
  function Erase(s: Sys, events: seq<Event>): seq<Event> {
    if events == [] then []
    else
      var front, last := events[..|events| - 1], events[|events| - 1];
      Erase(s, front) + if GuestEvent(Exec(s, front), last) then [] else [last]
  }

  /** If the event is a guest's join, the room, looked at, is not found past the end of the video. */
  predicate Inside(s: Sys, e: Event) {
    GuestEvent(s, e) && e.act.Enq? ==> Projected(s.room.state, e.at) <= s.room.state.duration
  }

  // The manager's steps, seen by the masters

  ghost predicate MastersAre(r: RoomState, ms: set<string>) {
    forall id :: id in r.clients ==> (r.clients[id].kind == Master <==> id in ms)
  }

  lemma ViewIsSound(r: RoomState, ms: set<string>)
    requires Membership(r) && Channels(r) && MastersAre(r, ms)
    ensures Membership(RoomView(r, ms)) && Channels(RoomView(r, ms)) && MastersAre(RoomView(r, ms), ms)
    ensures r.masters.Keys == r.clients.Keys * ms
  {
    var v := RoomView(r, ms);
    assert v.masters == MasterPart(v.clients);
  }

  lemma ViewDelivers(r: RoomState, to: set<string>, m: StateMessage, ms: set<string>)
    requires Channels(r) && to <= r.clients.Keys
    requires Channels(RoomView(r, ms)) && to * ms <= r.masters.Keys
    ensures RoomView(Deliver(r, to, m), ms) == Deliver(RoomView(r, ms), to * ms, m)
  {
    DeliverIsSafe(r, to, m);
    DeliverIsSafe(RoomView(r, ms), to * ms, m);
    assert RoomView(Deliver(r, to, m), ms).chans == Deliver(RoomView(r, ms), to * ms, m).chans;
  }

  /** Guests have no part in the playback state and the history. */
  lemma ViewKeeps(r: RoomState, st: PlaybackState, log: Log, ms: set<string>)
    ensures RoomView(r.(state := st, log := log), ms) == RoomView(r, ms).(state := st, log := log)
  {
  }

  lemma ViewBroadcasts(r: RoomState, now: real, ms: set<string>)
    requires Membership(r) && Channels(r) && MastersAre(r, ms)
    ensures RoomView(BroadcastState(r, now), ms) == BroadcastState(RoomView(r, ms), now)
  {
    ViewIsSound(r, ms);
    var (st, m) := Observe(r.state, now);
    var r1 := r.(state := st);
    ViewKeeps(r, st, r.log, ms);
    ViewDelivers(r1, r1.clients.Keys, m, ms);
  }

  lemma ViewApplies(r: RoomState, m: Message, e: Applied, ms: set<string>)
    requires Membership(r) && Channels(r) && MastersAre(r, ms) && m.payload.UpdatePayload?
    ensures RoomView(Apply(r, m, e), ms) == Apply(RoomView(r, ms), m, e)
  {
    var r1 := UpdateState(r, m, e);
    assert RoomView(r1, ms) == UpdateState(RoomView(r, ms), m, e) by { ViewKeeps(r, r1.state, r1.log, ms); }
    assert Membership(r1) && Channels(r1) && MastersAre(r1, ms);
    ViewBroadcasts(r1, e.at, ms);
  }

  lemma ViewAppliesAtOnce(r: RoomState, m: Message, now: real, ms: set<string>)
    requires Membership(r) && Channels(r) && MastersAre(r, ms) && m.payload.UpdatePayload? && r.log.received != []
    ensures RoomView(ApplyAtOnce(r, m, now), ms) == ApplyAtOnce(RoomView(r, ms), m, now)
  {
    hide Apply, Membership, Channels, MastersAre;
    ViewApplies(r, m, Applied(|r.log.received| - 1, now, true, now, |r.log.applied|), ms);
  }

  lemma ViewHolds(r: RoomState, m: Message, now: real, ms: set<string>)
    requires r.log.received != []
    ensures RoomView(Hold(r, m, now), ms) == Hold(RoomView(r, ms), m, now)
  {
  }

  lemma ViewUpdates(r: RoomState, m: Message, now: real, ms: set<string>)
    requires Membership(r) && Channels(r) && MastersAre(r, ms) && Agrees(m.typ, m.payload)
    ensures RoomView(OnUpdate(r, m, now), ms) == OnUpdate(RoomView(r, ms), m, now)
  {
    if m.typ == STATE_UPDATE {
      assert RoomView(Record(r, m), ms) == Record(RoomView(r, ms), m) by {
        ViewKeeps(r, r.state, Record(r, m).log, ms);
      }
      assert Membership(Record(r, m)) && Channels(Record(r, m)) && MastersAre(Record(r, m), ms);
      hide ApplyAtOnce, Hold, Membership, Channels, MastersAre;
      ViewAppliesAtOnce(Record(r, m), m, now, ms);
      ViewHolds(Record(r, m), m, now, ms);
    }
  }

  lemma ViewCools(r: RoomState, now: real, ms: set<string>)
    requires Membership(r) && Channels(r) && MastersAre(r, ms) && r.cooldown.unread
    requires r.buffered.Some? ==> IsUpdate(r.buffered.value)
    ensures RoomView(OnCooldown(r, now), ms) == OnCooldown(RoomView(r, ms), now)
  {
    if r.buffered.Some? {
      hide Apply;
      var r1 := r.(cooldown := Receive(r.cooldown));
      var e := Applied(r.log.pending, now, false, r.log.armedAt, r.log.appliedBefore);
      ViewApplies(r1, r.buffered.value, e, ms);
      assert RoomView(Apply(r1, r.buffered.value, e).(buffered := None), ms)
          == RoomView(Apply(r1, r.buffered.value, e), ms).(buffered := None);
    }
  }

  lemma ViewSends(r: RoomState, id: string, now: real, ms: set<string>)
    requires Membership(r) && Channels(r) && MastersAre(r, ms) && id in ms
    ensures RoomView(SendState(r, id, now), ms) == SendState(RoomView(r, ms), id, now)
  {
    ViewIsSound(r, ms);
    var (st, m) := Observe(r.state, now);
    ViewKeeps(r, st, r.log, ms);
    if id in r.clients {
      assert {id} * ms == {id};
      ViewDelivers(r.(state := st), {id}, m, ms);
    }
  }

  lemma ViewStops(r: RoomState, ms: set<string>)
    ensures RoomView(StopShutdown(r), ms) == StopShutdown(RoomView(r, ms))
  {
  }

  lemma ViewEnters(r: RoomState, c: Conn, ms: set<string>)
    requires Membership(r) && Channels(r) && MastersAre(r, ms) && c.id !in r.chans
    requires c.kind == Master && c.id in ms
    ensures RoomView(JoinClient(r, c), ms) == JoinClient(RoomView(r, ms), c)
  {
    assert RoomView(JoinClient(r, c), ms).chans == JoinClient(RoomView(r, ms), c).chans;
  }

  /** A master's join and leave look the same with and without guests. */
  lemma ViewJoins(r: RoomState, c: Conn, now: real, ms: set<string>)
    requires Membership(r) && Channels(r) && MastersAre(r, ms) && c.id !in r.chans
    requires c.kind == Master && c.id in ms
    ensures RoomView(OnJoin(r, c, now), ms) == OnJoin(RoomView(r, ms), c, now)
  {
    JoinedMembership(r, c);
    ViewEnters(r, c, ms);
    ViewSends(JoinClient(r, c), c.id, now, ms);
    ViewStops(SendState(JoinClient(r, c), c.id, now), ms);
  }

  lemma ViewKills(r: RoomState, c: Conn, ms: set<string>)
    requires Membership(r) && Channels(r) && MastersAre(r, ms)
    requires c.kind == Master && c.id in ms
    ensures RoomView(KillClient(r, c), ms) == KillClient(RoomView(r, ms), c)
  {
    ViewIsSound(r, ms);
    if c.id in r.clients && r.clients[c.id] == c {
      var r1 := r.(clients := r.clients - {c.id}, masters := r.masters - {c.id});
      var v := RoomView(r, ms);
      var v1 := v.(clients := v.clients - {c.id}, masters := v.masters - {c.id});
      CloseIsSafe(r1, {c.id});
      CloseIsSafe(v1, {c.id});
      assert RoomView(KillClient(r, c), ms).chans == KillClient(v, c).chans;
    }
  }

  lemma ViewLeaves(r: RoomState, c: Conn, now: real, ms: set<string>)
    requires Membership(r) && Channels(r) && MastersAre(r, ms)
    requires c.kind == Master && c.id in ms
    ensures RoomView(OnLeave(r, c, now), ms) == OnLeave(RoomView(r, ms), c, now)
  {
    ViewKills(r, c, ms);
  }

  lemma ViewShutsDown(r: RoomState, now: real, ms: set<string>)
    requires Membership(r) && Channels(r) && MastersAre(r, ms) && Enabled(r, ShutdownServed, now)
    ensures RoomView(OnShutdown(r), ms) == OnShutdown(RoomView(r, ms))
  {
    ViewIsSound(r, ms);
    ShutdownEffect(r, now);
    ShutdownEffect(RoomView(r, ms), now);
    assert RoomView(OnShutdown(r), ms).chans == OnShutdown(RoomView(r, ms)).chans;
  }

  /** What a guest's join does to the masters' room: somebody has looked at it. */
  lemma GuestJoins(r: RoomState, c: Conn, now: real, ms: set<string>)
    requires Membership(r) && Channels(r) && MastersAre(r, ms) && c.id !in r.chans
    requires c.kind != Master && c.id !in ms
    ensures RoomView(OnJoin(r, c, now), ms) == RoomView(r, ms).(state := Observe(r.state, now).0)
  {
    JoinSends(r, c, now);
    JoinedMembership(r, c);
    assert RoomView(OnJoin(r, c, now), ms).chans == RoomView(r, ms).chans;
  }

  lemma GuestLeaves(r: RoomState, c: Conn, now: real, ms: set<string>)
    requires Membership(r) && Channels(r) && MastersAre(r, ms)
    requires c.kind != Master && c.id !in ms
    ensures RoomView(OnLeave(r, c, now), ms) == RoomView(r, ms)
  {
    KilledMembership(r, c);
    assert RoomView(OnLeave(r, c, now), ms).chans == RoomView(r, ms).chans;
  }

  /** Somebody who looks changes the stored state exactly if the room is past the end of the video. */
  lemma LookingChangesState(st: PlaybackState, now: real)
    ensures Observe(st, now).0 == st <==> Projected(st, now) <= st.duration
  {
  }

  // One event of the run

  /** The manager takes the same step with and without guests. */
  lemma ViewSteps(r: RoomState, a: Action, now0: real, now: real, ms: set<string>)
    requires Inv(r, now0) && now0 <= now && Enabled(r, a, now) && MastersAre(r, ms)
    requires a.Join? || a.Leave? ==> a.c.kind == Master && a.c.id in ms
    ensures Enabled(RoomView(r, ms), a, now)
    ensures RoomView(Step(r, a, now), ms) == Step(RoomView(r, ms), a, now)
  {
    match a
    case Recv(m) => ViewUpdates(r, m, now, ms);
    case Join(c) => ViewJoins(r, c, now, ms);
    case Leave(c) => ViewLeaves(r, c, now, ms);
    case Tick => ViewBroadcasts(r, now, ms);
    case CooldownFires =>
    case CooldownServed => ViewCools(r, now, ms);
    case ShutdownFires =>
    case ShutdownServed => ViewShutsDown(r, now, ms);
  }

  /** What the masters' view needs to know of the system. */
  ghost predicate Sane(s: Sys) {
    && MastersAre(s.room, MasterIds(s))
    && (forall id :: id in s.room.chans ==> id in s.procs)
  }

  lemma SoundIsSane(s: Sys)
    requires SysInv(s)
    ensures Sane(s)
  {
  }

  lemma OutsideKeys(s: Sys, e: Event)
    requires Possible(s, e)
    ensures Outside(s, e).masterKey == s.masterKey && Outside(s, e).guestKey == s.guestKey
  {
  }

  lemma OutsideQueue(s: Sys, t: Sys, e: Event)
    requires Same(s, t) && Possible(s, e) && Possible(t, e) && !GuestEvent(s, e)
    ensures Outside(s, e).queue == Outside(t, e).queue
  {
  }

  lemma OutsideProcs(s: Sys, t: Sys, e: Event)
    requires Same(s, t) && Possible(s, e) && Possible(t, e) && !GuestEvent(s, e)
    ensures View(Outside(s, e)).procs == Outside(t, e).procs
  {
    hide RoomView, Received;
    assert View(s).procs == t.procs;
  }

  lemma OutsideMasters(s: Sys, e: Event, room: RoomState)
    requires Possible(s, e) && !GuestEvent(s, e) && forall id :: id in room.chans ==> id in s.procs
    ensures RoomView(room, MasterIds(Outside(s, e))) == RoomView(room, MasterIds(s))
  {
    assert RoomView(room, MasterIds(Outside(s, e))).chans == RoomView(room, MasterIds(s)).chans;
  }

  /** What happens outside the manager looks the same, if what the manager does looks the same. */
  lemma OutsideSame(s: Sys, t: Sys, e: Event, room: RoomState, roomT: RoomState)
    requires Same(s, t) && Possible(s, e) && Possible(t, e) && !GuestEvent(s, e)
    requires roomT == RoomView(room, MasterIds(s))
    requires forall id :: id in room.chans ==> id in s.procs
    ensures Same(Outside(s, e).(clock := e.at, room := room), Outside(t, e).(clock := e.at, room := roomT))
  {
    OutsideProcs(s, t, e);
    OutsideQueue(s, t, e);
    OutsideKeys(s, e);
    OutsideKeys(t, e);
    OutsideMasters(s, e, room);
    SameFromParts(Outside(s, e), Outside(t, e), e.at, room, roomT);
  }

  lemma SameFromParts(q: Sys, p: Sys, now: real, room: RoomState, roomT: RoomState)
    requires View(q).procs == p.procs && q.queue == p.queue
    requires q.masterKey == p.masterKey && q.guestKey == p.guestKey
    requires roomT == RoomView(room, MasterIds(q))
    ensures Same(q.(clock := now, room := room), p.(clock := now, room := roomT))
  {
    assert MasterIds(q.(clock := now, room := room)) == MasterIds(q);
  }

  /** An event that is not a guest's can happen without guests as well. */
  lemma PossibleToo(s: Sys, t: Sys, e: Event)
    requires Sane(s) && Same(s, t) && Possible(s, e) && !GuestEvent(s, e)
    requires forall id :: id in s.procs ==> s.procs[id].kind != Unauthorised
    ensures Possible(t, e) && ManagerAction(t, e.act) == ManagerAction(s, e.act)
    ensures ManagerAction(s, e.act).Some? ==> var a := ManagerAction(s, e.act).value;
              a.Join? || a.Leave? ==> a.c.kind == Master && a.c.id in MasterIds(s)
  {
  }

  lemma NextIsOutside(s: Sys, e: Event)
    requires Possible(s, e) && ManagerAction(s, e.act).Some?
    ensures Next(s, e) == Outside(s, e).(clock := e.at, room := Next(s, e).room)
  {
  }

  lemma ManagerRooms(s: Sys, t: Sys, e: Event)
    requires SysInv(s) && Same(s, t) && Possible(s, e) && !GuestEvent(s, e) && ManagerAction(s, e.act).Some?
    requires Possible(t, e) && ManagerAction(t, e.act) == ManagerAction(s, e.act)
    requires var a := ManagerAction(s, e.act).value;
      a.Join? || a.Leave? ==> a.c.kind == Master && a.c.id in MasterIds(s)
    ensures Next(t, e).room == RoomView(Next(s, e).room, MasterIds(s))
  {
    SoundIsSane(s);
    ManagerIsServed(s, e);
    ViewSteps(s.room, ManagerAction(s, e.act).value, s.clock, e.at, MasterIds(s));
  }

  lemma ManagerSame(s: Sys, t: Sys, e: Event)
    requires SysInv(s) && Same(s, t) && Possible(s, e) && !GuestEvent(s, e) && ManagerAction(s, e.act).Some?
    ensures Possible(t, e) && Same(Next(s, e), Next(t, e))
  {
    SoundIsSane(s);
    PossibleToo(s, t, e);
    ManagerRooms(s, t, e);
    ChansStayKnown(s, e);
    OutsideSame(s, t, e, Next(s, e).room, Next(t, e).room);
    NextIsOutside(s, e);
    NextIsOutside(t, e);
  }

  lemma ChansStayKnown(s: Sys, e: Event)
    requires SysInv(s) && Possible(s, e) && ManagerAction(s, e.act).Some?
    ensures forall id :: id in Next(s, e).room.chans ==> id in s.procs
  {
    ManagerIsServed(s, e);
    StepShape(s.room, ManagerAction(s, e.act).value, s.clock, e.at);
  }

  lemma OtherSame(s: Sys, t: Sys, e: Event)
    requires SysInv(s) && Same(s, t) && Possible(s, e) && !GuestEvent(s, e) && ManagerAction(s, e.act).None?
    ensures Possible(t, e) && Same(Next(s, e), Next(t, e))
  {
    SoundIsSane(s);
    PossibleToo(s, t, e);
    OutsideLeavesRoom(s, e);
    OutsideSame(s, t, e, s.room, t.room);
    TypedToo(s, t, e);
  }

  /** The erased run's handlers find messages of the right type, too. */
  lemma TypedToo(s: Sys, t: Sys, e: Event)
    requires InOrder(s) && Same(s, t) && Possible(s, e) && Possible(t, e) && !GuestEvent(s, e)
    requires ManagerAction(s, e.act).None? && ManagerAction(t, e.act).None?
    ensures Next(t, e).room == t.room
  {
    if e.act.Handle? {
      var first := s.procs[e.act.id].inbox[0];
      assert Agrees(first.typ, first.payload);
    }
  }

  /** A guest's event outside the manager is invisible; in the manager it is as visible as what it does there. */
  lemma GuestOutside(s: Sys, t: Sys, e: Event, room: RoomState)
    requires Sane(s) && Same(s, t) && Possible(s, e) && GuestEvent(s, e)
    ensures Same(Outside(s, e).(clock := e.at, room := room), t) <==>
              RoomView(room, MasterIds(s)) == RoomView(s.room, MasterIds(s))
  {
    var q := Outside(s, e).(clock := e.at, room := room);
    assert View(q).procs == View(s).procs;
    assert MasterIds(q) == MasterIds(s);
    assert q.queue == s.queue;
  }

  /** A guest's event leaves everything as the masters know it, unless it is a join past the end. */
  lemma GuestSame(s: Sys, t: Sys, e: Event)
    requires SysInv(s) && Same(s, t) && Possible(s, e) && GuestEvent(s, e)
    ensures Same(Next(s, e), t) <==> Inside(s, e)
  {
    SoundIsSane(s);
    GuestOutside(s, t, e, Next(s, e).room);
    if ManagerAction(s, e.act).Some? {
      ManagerIsServed(s, e);
      GuestInManager(s, e);
    } else {
      OutsideLeavesRoom(s, e);
    }
  }

  lemma GuestInManager(s: Sys, e: Event)
    requires Membership(s.room) && Channels(s.room) && Sane(s)
    requires Possible(s, e) && GuestEvent(s, e) && ManagerAction(s, e.act).Some?
    requires Enabled(s.room, ManagerAction(s, e.act).value, e.at)
    ensures RoomView(Next(s, e).room, MasterIds(s)) == RoomView(s.room, MasterIds(s)) <==> Inside(s, e)
  {
    if e.act.Enq? {
      GuestJoins(s.room, ConnOf(s, e.act.id), e.at, MasterIds(s));
      LookingChangesState(s.room.state, e.at);
    } else {
      GuestLeaves(s.room, ConnOf(s, e.act.id), e.at, MasterIds(s));
    }
  }

  // Whole runs

  /** One event on both sides: the full run takes it, the other one takes it unless it is a guest's. */
  ghost predicate Paired(s: Sys, t: Sys, e: Event, q: Sys, p: Sys) {
    Same(s, t) ==>
      && (Same(q, p) <==> Inside(s, e))
      && (!GuestEvent(s, e) ==> Possible(t, e))
  }

  lemma NextIsPaired(s: Sys, t: Sys, e: Event)
    requires SysInv(s) && Possible(s, e)
    ensures Paired(s, t, e, Next(s, e), if GuestEvent(s, e) then t else Next(t, e))
  {
    if Same(s, t) {
      if GuestEvent(s, e) {
        GuestSame(s, t, e);
      } else if ManagerAction(s, e.act).Some? {
        ManagerSame(s, t, e);
      } else {
        OtherSame(s, t, e);
      }
    }
  }

  lemma EraseStep(s: Sys, t: Sys, events: seq<Event>, i: nat)
    requires i < |events|
    ensures var a, e := Erase(s, events[..i]), events[i];
      Erase(s, events[..i + 1]) == if GuestEvent(Exec(s, events[..i]), e) then a else a + [e]
  {
    assert events[..i + 1][..i] == events[..i];
  }

  lemma RunIsPaired(s: Sys, t: Sys, events: seq<Event>, i: nat)
    requires SysInv(s) && IsRun(s, events) && i < |events|
    ensures Paired(Exec(s, events[..i]), Exec(t, Erase(s, events[..i])), events[i],
                   Exec(s, events[..i + 1]), Exec(t, Erase(s, events[..i + 1])))
    ensures IsRun(t, Erase(s, events[..i + 1])) <==>
              IsRun(t, Erase(s, events[..i]))
              && (GuestEvent(Exec(s, events[..i]), events[i]) || Possible(Exec(t, Erase(s, events[..i])), events[i]))
  {
    RunKeeps(s, events[..i]);
    PrefixStep(s, events, i);
    EraseStep(s, t, events, i);
    ExecSnoc(t, Erase(s, events[..i]), events[i]);
    NextIsPaired(Exec(s, events[..i]), Exec(t, Erase(s, events[..i])), events[i]);
  }

  /** After n events the masters see what they see after the same events without those of guests. */
  predicate Unnoticed(s: Sys, t: Sys, events: seq<Event>, n: nat)
    requires n <= |events|
  {
    Same(Exec(s, events[..n]), Exec(t, Erase(s, events[..n])))
  }

  /** No guest joins a room that is past the end of the video. */
  predicate JoinsInside(s: Sys, events: seq<Event>) {
    forall i :: 0 <= i < |events| ==> Inside(Exec(s, events[..i]), events[i])
  }

  lemma {:induction false} UnnoticedSoFar(s: Sys, t: Sys, events: seq<Event>, n: nat)
    requires SysInv(s) && Same(s, t) && IsRun(s, events) && n <= |events|
    requires forall i :: 0 <= i < n ==> Inside(Exec(s, events[..i]), events[i])
    ensures Unnoticed(s, t, events, n) && IsRun(t, Erase(s, events[..n]))
  {
    if n > 0 {
      UnnoticedSoFar(s, t, events, n - 1);
      RunIsPaired(s, t, events, n - 1);
    }
  }

  /** Non-interference: the masters never notice that guest events have been erased, if and only if no guest joins a
      room that is past the end of the video. */
  lemma GuestsDoNotInterfere(s: Sys, t: Sys, events: seq<Event>)
    requires SysInv(s) && Same(s, t) && IsRun(s, events)
    ensures JoinsInside(s, events) <==> forall n :: 0 <= n <= |events| ==> Unnoticed(s, t, events, n)
    ensures JoinsInside(s, events) ==> IsRun(t, Erase(s, events))
  {
    if JoinsInside(s, events) {
      forall n | 0 <= n <= |events| ensures Unnoticed(s, t, events, n) && IsRun(t, Erase(s, events[..n])) {
        UnnoticedSoFar(s, t, events, n);
      }
      assert events[..|events|] == events;
    }
    if forall n :: 0 <= n <= |events| ==> Unnoticed(s, t, events, n) {
      forall i | 0 <= i < |events| ensures Inside(Exec(s, events[..i]), events[i]) {
        assert Unnoticed(s, t, events, i) && Unnoticed(s, t, events, i + 1);
        RunIsPaired(s, t, events, i);
      }
    }
  }

  /** For a new room, spelt out: playback state, buffer, both timers and everything that has been sent to each master
      are what they would have been without the guests. */
  lemma GuestsLeaveNoTrace(sem: Semantics, masterKey: string, guestKey: string, created: real, events: seq<Event>)
    requires var s := NewSystem(sem, masterKey, guestKey, created); IsRun(s, events) && JoinsInside(s, events)
    ensures var s := NewSystem(sem, masterKey, guestKey, created);
            var full, erased := Exec(s, events), Exec(s, Erase(s, events));
      && IsRun(s, Erase(s, events))
      && full.room.state == erased.room.state && full.room.buffered == erased.room.buffered
      && full.room.cooldown == erased.room.cooldown && full.room.shutdown == erased.room.shutdown
      && full.room.masters == erased.room.masters && full.room.outcome == erased.room.outcome
      && forall id :: id in full.procs && full.procs[id].kind == Master ==>
           SentTo(full.room, id) == SentTo(erased.room, id)
  {
    var s := NewSystem(sem, masterKey, guestKey, created);
    NewSystemInv(sem, masterKey, guestKey, created);
    assert Same(s, s) by { assert View(s) == s; }
    hide Next, Erase, IsRun, Inside, SysInv;
    GuestsDoNotInterfere(s, s, events);
    assert events[..|events|] == events;
    assert Unnoticed(s, s, events, |events|);
  }
}
