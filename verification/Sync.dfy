/** How closely the players of a room keep together: client/src/playback.js and server/server/wsserver.go combined.
    Times are those of one global clock; a player moves on at the speed it was given. */
module Sync {
  import opened Options
  import opened Messages
  import opened Playback
  import opened Timers
  import opened RoomMachine
  import opened RoomInvariants
  import opened System
  import opened SystemInvariants
  import opened RunTheorems
  import opened Latency
  import opened Player

  // ---------------------------------------------------------------------------
  // The line of a room between updates
  // ---------------------------------------------------------------------------

  /** Logs only ever grow. */
  ghost predicate LogGrows(r: RoomState, q: RoomState) {
    r.log.received <= q.log.received && r.log.applied <= q.log.applied && q.created == r.created
  }

  lemma StepGrows(r: RoomState, a: Action, now0: real, now: real)
    requires Inv(r, now0) && now0 <= now && Enabled(r, a, now)
    ensures LogGrows(r, Step(r, a, now))
  {
    hide OnUpdate, OnJoin, OnLeave, BroadcastState, OnCooldown, OnShutdown;
    match a
    case Recv(m) => UpdateGrows(r, m, now0, now);
    case Join(c) => JoinGrows(r, c, now);
    case Leave(c) => LeaveGrows(r, c, now);
    case Tick => BroadcastIsSafe(r, now);
    case CooldownFires =>
    case CooldownServed => CooldownEffect(r, now0, now);
    case ShutdownFires =>
    case ShutdownServed => ShutdownEffect(r, now);
  }

  lemma UpdateGrows(r: RoomState, m: Message, now0: real, now: real)
    requires Inv(r, now0) && now0 <= now && Enabled(r, Recv(m), now)
    ensures LogGrows(r, OnUpdate(r, m, now))
  {
    if m.typ == STATE_UPDATE && now - r.state.lastUpdated > UPDATE_COOLDOWN {
      ImmediateEffect(r, m, now0, now);
    }
  }

  lemma LeaveGrows(r: RoomState, c: Conn, now: real)
    requires Membership(r) && Channels(r)
    ensures LogGrows(r, OnLeave(r, c, now))
  {
    KilledMembership(r, c);
  }

  lemma JoinGrows(r: RoomState, c: Conn, now: real)
    requires Membership(r) && Channels(r) && ShutdownGuards(r) && Enabled(r, Join(c), now)
    ensures LogGrows(r, OnJoin(r, c, now))
  {
    JoinStops(r, c, now);
    JoinSends(r, c, now);
  }

  lemma NextGrows(s: Sys, e: Event)
    requires SysInv(s)
    ensures LogGrows(s.room, Next(s, e).room)
  {
    if Possible(s, e) {
      if ManagerAction(s, e.act).Some? {
        ManagerIsServed(s, e);
        StepGrows(s.room, ManagerAction(s, e.act).value, s.clock, e.at);
      } else {
        OutsideLeavesRoom(s, e);
      }
    }
  }

  lemma {:induction false} RunGrows(s: Sys, events: seq<Event>)
    requires SysInv(s)
    ensures LogGrows(s.room, Exec(s, events).room)
    decreases events
  {
    if events != [] {
      NextGrows(s, events[0]);
      NextKeeps(s, events[0]);
      RunGrows(Next(s, events[0]), events[1..]);
    }
  }

  /** Some events lead from n to q, and none of them applies an update. */
  ghost predicate Quietly(n: Sys, q: Sys) {
    exists events: seq<Event> :: q == Exec(n, events) && |q.room.log.applied| == |n.room.log.applied|
  }

  /** As long as no further update is applied, the room stays on its line, whatever else happens. */
  lemma LineStays(n: Sys, q: Sys)
    requires SysInv(n) && Quietly(n, q)
    ensures SysInv(q) && Recorded(n.room) && Recorded(q.room)
    ensures LineOf(q.room) == LineOf(n.room)
  {
    var events :| q == Exec(n, events);
    RunGrows(n, events);
    RunKeeps(n, events);
    SameLine(n.room, q.room);
  }

  lemma SameLine(r: RoomState, q: RoomState)
    requires Recorded(r) && Recorded(q) && LogGrows(r, q) && |q.log.applied| == |r.log.applied|
    ensures LineOf(q) == LineOf(r)
  {
  }

  /** Event e makes the room send a state to a client. */
  ghost predicate Announces(s: Sys, e: Event, id: string, state: StateMessage) {
    WasSent(s.room, Next(s, e).room, id, state)
  }

  ghost predicate WasSent(r: RoomState, q: RoomState, id: string, state: StateMessage) {
    id in q.chans && q.chans[id].sent == SentTo(r, id) + [state]
  }

  lemma SentIsHeard(r: RoomState, q: RoomState, ids: set<string>, id: string, state: StateMessage, m: StateMessage)
    requires WasSent(r, q, id, state) && Addressed(r, q, ids)
    ensures Hears(r, q, ids, m) ==> state == m
  {
    assert id in ids;
    if Hears(r, q, ids, m) {
      assert SentTo(r, id) + [state] == SentTo(r, id) + [m];
      assert (SentTo(r, id) + [state])[|SentTo(r, id)|] == state;
    }
  }

  lemma AnnouncedIsFormula(s: Sys, e: Event, id: string, state: StateMessage)
    requires Reachable(s) && Announces(s, e, id, state)
    ensures Recorded(Next(s, e).room)
    ensures Steady(LineOf(Next(s, e).room)) ==> state == Formula(LineOf(Next(s, e).room), e.at)
  {
    if Possible(s, e) {
      EveryMessageIsTheFormula(s, e);
      var q := Next(s, e).room;
      var ids := if ManagerAction(s, e.act).Some? then Recipients(s.room, ManagerAction(s, e.act).value, e.at) else {};
      SentIsHeard(s.room, q, ids, id, state, Formula(LineOf(q), e.at));
    } else {
      assert false;
    }
  }

  // ---------------------------------------------------------------------------
  // Following
  // ---------------------------------------------------------------------------

  /** How fast a state says that playback moves. */
  function Pace(state: StateMessage): real {
    if state.status == PLAYING then state.speed else 0.0
  }

  /** Where a player is at time t if it followed a state at time `handled`, being at `start` then. */
  function Playhead(start: real, state: StateMessage, lat: real, handled: real, t: real): real {
    Followed(start, state, lat) + (t - handled) * Pace(state)
  }

  /** How far a player is ahead of the room if it followed a state `delay` after it was sent. */
  function Drift(start: real, state: StateMessage, lat: real, delay: real): real {
    Followed(start, state, lat) - Target(state, lat) + (lat - Pace(state) * delay)
  }

  /** What the room says at time t. */
  function RoomAt(q: Sys, t: real): StateMessage {
    Observe(q.room.state, t).1
  }

  /** Event e announced to a client that the room plays or is paused; in state q no further update has been applied,
      and at time t the room still says so. */
  ghost predicate StillOn(s: Sys, e: Event, id: string, state: StateMessage, q: Sys, t: real) {
    && Reachable(s) && Announces(s, e, id, state) && Quietly(Next(s, e), q)
    && q.clock <= t && Recorded(q.room) && Steady(LineOf(q.room))
    && state.status != STOPPED && RoomAt(q, t).status == state.status
  }

  /** The room is on one line from the announcement on. */
  lemma RoomOnLine(s: Sys, e: Event, id: string, state: StateMessage, q: Sys, t: real)
    requires StillOn(s, e, id, state, q, t)
    ensures Reachable(q) && q.clock <= t && Recorded(q.room) && Steady(LineOf(q.room))
    ensures state == Formula(LineOf(q.room), e.at) && RoomAt(q, t) == Formula(LineOf(q.room), t)
    ensures state.status != STOPPED && RoomAt(q, t).status == state.status
  {
    ReachableIsSound(s);
    NextKeeps(s, e);
    LineStays(Next(s, e), q);
    AnnouncedIsFormula(s, e, id, state);
    ReachableLater(s, e, q);
    RoomSaysTheFormula(q, t);
  }

  lemma ReachableLater(s: Sys, e: Event, q: Sys)
    requires Reachable(s) && Quietly(Next(s, e), q)
    ensures Reachable(q)
  {
    var events :| q == Exec(Next(s, e), events);
    var sem, masterKey, guestKey, created, before :|
      s == Exec(NewSystem(sem, masterKey, guestKey, created), before);
    var s0 := NewSystem(sem, masterKey, guestKey, created);
    ExecSnoc(s0, before, e);
    ExecConcat(s0, before + [e], events);
  }

  lemma {:induction false} ExecConcat(s: Sys, a: seq<Event>, b: seq<Event>)
    ensures Exec(s, a + b) == Exec(Exec(s, a), b)
    decreases a
  {
    if a == [] {
      assert a + b == b;
    } else {
      assert (a + b)[0] == a[0] && (a + b)[1..] == a[1..] + b;
      ExecConcat(Next(s, a[0]), a[1..], b);
    }
  }

  /** Along a line the room moves by its pace times the time that passes. */
  lemma LineMoves(line: Timeline, sent: real, t: real)
    requires Formula(line, sent).status != STOPPED && Formula(line, t).status == Formula(line, sent).status
    ensures Formula(line, t).position == Formula(line, sent).position + (t - sent) * Pace(Formula(line, sent))
    ensures Pace(Formula(line, t)) == Pace(Formula(line, sent))
  {
    PositionShift(line, sent, t);
  }

  lemma PlayheadDrifts(start: real, state: StateMessage, lat: real, sent: real, handled: real, t: real)
    ensures Playhead(start, state, lat, handled, t) - (state.position + (t - sent) * Pace(state))
            == Drift(start, state, lat, handled - sent)
  {
    var v := Pace(state);
    assert (t - handled) * v == (t - sent) * v - v * (handled - sent);
  }

  lemma DriftIsBounded(start: real, state: StateMessage, lat: real, delay: real)
    ensures Abs(Drift(start, state, lat, delay)) <= Max(lat, 0.5) + Abs(lat - Pace(state) * delay)
  {
    hide Followed, Target, Pace;
    Triangle(Followed(start, state, lat) - Target(state, lat), lat - Pace(state) * delay);
  }

  /** Following a line: the distance from it is constant. */
  lemma FollowsLine(line: Timeline, sent: real, start: real, lat: real, handled: real, t: real)
    requires Formula(line, sent).status != STOPPED && Formula(line, t).status == Formula(line, sent).status
    ensures var state := Formula(line, sent);
            var gap := Playhead(start, state, lat, handled, t) - Formula(line, t).position;
      gap == Drift(start, state, lat, handled - sent)
      && Abs(gap) <= Max(lat, 0.5) + Abs(lat - Pace(state) * (handled - sent))
  {
    hide *;
    var state := Formula(line, sent);
    LineMoves(line, sent, t);
    PlayheadDrifts(start, state, lat, sent, handled, t);
    DriftIsBounded(start, state, lat, handled - sent);
    var gap := Playhead(start, state, lat, handled, t) - Formula(line, t).position;
    assert gap == Drift(start, state, lat, handled - sent);
    assert Abs(gap) == Abs(Drift(start, state, lat, handled - sent));
  }

  /** A follower's distance from the room does not change until the next update or the end of the video. It is what
      the tolerance left over plus the error of the estimate, however many ticks, joins and leaves the room sees. */
  lemma FollowerDrift(s: Sys, e: Event, id: string, state: StateMessage, q: Sys, t: real,
                      start: real, lat: real, handled: real)
    requires StillOn(s, e, id, state, q, t)
    ensures Playhead(start, state, lat, handled, t) - RoomAt(q, t).position
            == Drift(start, state, lat, handled - e.at)
    ensures Abs(Playhead(start, state, lat, handled, t) - RoomAt(q, t).position)
            <= Max(lat, 0.5) + Abs(lat - Pace(state) * (handled - e.at))
  {
    hide *;
    RoomOnLine(s, e, id, state, q, t);
    FollowsLine(LineOf(q.room), e.at, start, lat, handled, t);
  }

  /** The bound is the best one: a smaller one is exceeded from some starting position. */
  lemma BoundIsTight(state: StateMessage, lat: real, delay: real, bound: real)
    ensures (forall start :: Abs(Drift(start, state, lat, delay)) <= bound)
            <==> bound >= Max(lat, 0.5) + Abs(lat - Pace(state) * delay)
  {
    var error := lat - Pace(state) * delay;
    if bound >= Max(lat, 0.5) + Abs(error) {
      forall start ensures Abs(Drift(start, state, lat, delay)) <= bound {
        DriftIsBounded(start, state, lat, delay);
      }
    } else {
      var start := if error >= 0.0 then Target(state, lat) + Tolerance(lat) else Target(state, lat) - Tolerance(lat);
      assert Followed(start, state, lat) == start;
      assert Abs(Drift(start, state, lat, delay)) == Max(lat, 0.5) + Abs(error);
    }
  }

  /** Any two followers of the same broadcast are within the sum of their bounds. */
  lemma FollowersKeepTogether(s: Sys, e: Event, q: Sys, t: real,
                              id1: string, state1: StateMessage, start1: real, lat1: real, handled1: real,
                              id2: string, state2: StateMessage, start2: real, lat2: real, handled2: real)
    requires StillOn(s, e, id1, state1, q, t) && StillOn(s, e, id2, state2, q, t)
    ensures state1 == state2
    ensures Abs(Playhead(start1, state1, lat1, handled1, t) - Playhead(start2, state2, lat2, handled2, t))
            <= Max(lat1, 0.5) + Abs(lat1 - Pace(state1) * (handled1 - e.at))
               + Max(lat2, 0.5) + Abs(lat2 - Pace(state2) * (handled2 - e.at))
  {
    RoomOnLine(s, e, id1, state1, q, t);
    RoomOnLine(s, e, id2, state2, q, t);
    FollowerDrift(s, e, id1, state1, q, t, start1, lat1, handled1);
    FollowerDrift(s, e, id2, state2, q, t, start2, lat2, handled2);
  }

  /** How far a player that has followed one state, sent `delay` before, is off its target when it follows a later
      state of the same line, sent `delay2` before. */
  function Miss(start: real, state: StateMessage, lat: real, delay: real, lat2: real, delay2: real): real {
    Drift(start, state, lat, delay) - (lat2 - Pace(state) * delay2)
  }

  /** A player that has followed one announcement seeks on a later one exactly if its drift differs from the error of
      its new estimate by more than the new tolerance. */
  lemma SeeksAgain(s: Sys, e: Event, id: string, state: StateMessage, q: Sys, e2: Event, state2: StateMessage,
                   start: real, lat: real, handled: real, lat2: real, handled2: real)
    requires StillOn(s, e, id, state, Next(q, e2), e2.at) && Reachable(q) && Announces(q, e2, id, state2)
    ensures var now := Playhead(start, state, lat, handled, handled2);
      Followed(now, state2, lat2) != now
      <==> Abs(Miss(start, state, lat, handled - e.at, lat2, handled2 - e2.at)) > Max(lat2, 0.5)
  {
    hide *;
    RoomOnLine(s, e, id, state, Next(q, e2), e2.at);
    AnnouncedIsFormula(q, e2, id, state2);
    LineMoves(LineOf(Next(q, e2).room), e.at, e2.at);
    DriftCarriesOver(start, state, state2.position, lat, e.at, handled, lat2, e2.at, handled2);
    SeeksIf(Playhead(start, state, lat, handled, handled2), state2, lat2,
            Miss(start, state, lat, handled - e.at, lat2, handled2 - e2.at));
  }

  lemma DriftCarriesOver(start: real, state: StateMessage, position2: real, lat: real, sent: real, handled: real,
                         lat2: real, sent2: real, handled2: real)
    requires position2 == state.position + (sent2 - sent) * Pace(state)
    ensures Playhead(start, state, lat, handled, handled2) - (position2 + lat2)
            == Miss(start, state, lat, handled - sent, lat2, handled2 - sent2)
  {
    PlayheadDrifts(start, state, lat, sent, handled, handled2);
    hide Playhead, Drift, Pace;
    var v := Pace(state);
    assert (handled2 - sent) * v == (sent2 - sent) * v + v * (handled2 - sent2);
  }

  lemma SeeksIf(current: real, state: StateMessage, lat: real, miss: real)
    requires current - (state.position + lat) == miss
    ensures Followed(current, state, lat) != current <==> Abs(miss) > Max(lat, 0.5)
  {
  }

  // ---------------------------------------------------------------------------
  // Leading
  // ---------------------------------------------------------------------------

  /** The update that was applied last. */
  function LastApplied(r: RoomState): Message
    requires Recorded(r) && r.log.applied != []
  {
    r.log.received[r.log.applied[|r.log.applied| - 1].index]
  }

  /** Where the master is that sent an update at time `sent` and has gone on since. */
  function MasterHead(u: Update, sent: real, t: real): real {
    u.state.position + (t - sent) * Pace(u.state)
  }

  /** Message m holds the update that was applied last, which its master sent with twice this latency. */
  ghost predicate Leads(q: Sys, m: Message, lat: real) {
    && Recorded(q.room) && q.room.log.applied != [] && LastApplied(q.room) == m
    && m.payload.UpdatePayload? && m.payload.update.rtt == lat * 2.0
  }

  lemma LeadsLine(q: Sys, m: Message, lat: real)
    requires Leads(q, m, lat)
    ensures Recorded(q.room) && m.payload.UpdatePayload? && m.payload.update.rtt == lat * 2.0
    ensures LineOf(q.room) == Start(m.payload.update, m.receivedAt)
  {
  }

  /** What the compensation for the way up gets wrong: the server adds the latency, if it is positive, and the update
      took `up` to arrive. */
  function UplinkError(lat: real, up: real, pace: real): real {
    (Max(lat, 0.0) - up) * pace
  }

  /** The room differs from the master by the error of the compensation for the uplink, and by nothing else: not by
      the time the update spent in queues and in the buffer. */
  lemma MasterDrift(q: Sys, t: real, m: Message, lat: real, sent: real)
    requires Reachable(q) && q.clock <= t && Leads(q, m, lat)
    requires Steady(LineOf(q.room)) && RoomAt(q, t).status == PLAYING
    ensures RoomAt(q, t).position - MasterHead(m.payload.update, sent, t)
            == UplinkError(lat, m.receivedAt - sent, Pace(m.payload.update.state))
  {
    hide *;
    RoomSaysTheFormula(q, t);
    LeadsLine(q, m, lat);
    assert RoomAt(q, t) == Formula(LineOf(q.room), t) by { RoomIsAt(q, t); }
    StartLeads(m.payload.update, m.receivedAt, lat, sent, t);
  }

  lemma RoomIsAt(q: Sys, t: real)
    ensures RoomAt(q, t) == Observe(q.room.state, t).1
  {
  }

  lemma StartLeads(u: Update, receivedAt: real, lat: real, sent: real, t: real)
    requires u.rtt == lat * 2.0 && Formula(Start(u, receivedAt), t).status == PLAYING
    ensures Formula(Start(u, receivedAt), t).position - MasterHead(u, sent, t)
            == UplinkError(lat, receivedAt - sent, Pace(u.state))
    ensures Pace(u.state) == u.state.speed == Pace(Formula(Start(u, receivedAt), t))
  {
    var v, c := u.state.speed, Max(lat, 0.0);
    assert u.state.status == PLAYING && u.rtt / 2.0 == lat;
    assert Position(Start(u, receivedAt), t) == u.state.position + c * v + (t - receivedAt) * v;
    Telescope(c, t, receivedAt, sent, v);
  }

  lemma Telescope(c: real, t: real, received: real, sent: real, v: real)
    ensures c * v + (t - received) * v - (t - sent) * v == (c - (received - sent)) * v
  {
  }

  // ---------------------------------------------------------------------------
  // End to end
  // ---------------------------------------------------------------------------

  /** A ping and its pong: when it was sent, and how long it took to go up, was served and took to come down. */
  datatype Exchange = Exchange(sent: real, up: real, service: real, down: real)

  /** The sample that the estimator takes from an exchange. */
  function Sample(x: Exchange): real {
    ((x.sent + x.up + x.service + x.down) - x.sent - x.service) / 2.0
  }

  function Samples(exchanges: seq<Exchange>): seq<real> {
    seq(|exchanges|, i requires 0 <= i < |exchanges| => Sample(exchanges[i]))
  }

  /** That is what a ping and the server's answer to it measure: half of the way up and the way down. */
  lemma PongMeasures(x: Exchange, frame: Frame)
    requires frame.Envelope? && frame.typ == 1 && frame.raw.ping == Parsed(x.sent, true)
    ensures var arrived, left := x.sent + x.up, x.sent + x.up + x.service;
      && Received(frame, arrived).Some? && Received(frame, arrived).value.payload.PingPayload?
      && var pong := PongFor(Received(frame, arrived).value, left);
         (left + x.down - pong.sentAt - pong.serviceTime) / 2.0 == (x.up + x.down) / 2.0 == Sample(x)
  {
    ReceivedExactly(frame, x.sent + x.up);
  }

  predicate Within(exchanges: seq<Exchange>, lo: real, hi: real) {
    forall i :: 0 <= i < |exchanges| ==> lo <= exchanges[i].up <= hi && lo <= exchanges[i].down <= hi
  }

  /** What a client has estimated after n exchanges with delays between lo and hi. */
  lemma {:induction false} EstimateOfDelays(exchanges: seq<Exchange>, lo: real, hi: real)
    requires Within(exchanges, lo, hi)
    ensures var p := Power(|exchanges|);
      0.0 < p <= 1.0 && (1.0 - p) * lo <= Estimate(Samples(exchanges)) <= (1.0 - p) * hi
  {
    var samples := Samples(exchanges);
    forall i | 0 <= i < |samples| ensures lo <= samples[i] <= hi {
      assert samples[i] == Sample(exchanges[i]);
    }
    EstimateIsBounded(samples, lo, hi);
    PowerIsPositive(|exchanges|);
  }

  /** Guest against master: the guest's own drift and the error in the master's update, and nothing else. */
  lemma GuestAgainstMaster(s: Sys, e: Event, id: string, state: StateMessage, q: Sys, t: real,
                           m: Message, masterLat: real, sent: real, start: real, lat: real, handled: real)
    requires StillOn(s, e, id, state, q, t) && state.status == PLAYING && Leads(q, m, masterLat)
    ensures m.payload.UpdatePayload?
    ensures Playhead(start, state, lat, handled, t) - MasterHead(m.payload.update, sent, t)
            == Drift(start, state, lat, handled - e.at) + UplinkError(masterLat, m.receivedAt - sent, Pace(state))
  {
    hide *;
    RoomOnLine(s, e, id, state, q, t);
    LeadsLine(q, m, masterLat);
    FollowsLine(LineOf(q.room), e.at, start, lat, handled, t);
    StartLeads(m.payload.update, m.receivedAt, masterLat, sent, t);
    LineMoves(LineOf(q.room), e.at, t);
  }

  /** If no message ever takes longer than `most`, a guest that follows a playing room at speed v is never further
      from the master than the tolerance, one error of its own estimate and one of the master's. */
  lemma {:induction false} EndToEnd(s: Sys, e: Event, id: string, state: StateMessage, q: Sys, t: real, m: Message,
                                    masterPings: seq<Exchange>, guestPings: seq<Exchange>,
                                    sent: real, start: real, handled: real, most: real)
    requires StillOn(s, e, id, state, q, t) && state.status == PLAYING && state.speed >= 0.0
    requires Leads(q, m, Estimate(Samples(masterPings)))
    requires Within(masterPings, 0.0, most) && Within(guestPings, 0.0, most)
    requires 0.0 <= handled - e.at <= most && 0.0 <= m.receivedAt - sent <= most
    ensures var v := Pace(state);
      Abs(Playhead(start, state, Estimate(Samples(guestPings)), handled, t) - MasterHead(m.payload.update, sent, t))
      <= Max(most, 0.5) + Max(most, v * most) + v * most
  {
    hide *;
    var lat, masterLat := Estimate(Samples(guestPings)), Estimate(Samples(masterPings));
    EstimateIsNoMore(guestPings, most);
    EstimateIsNoMore(masterPings, most);
    GuestAgainstMaster(s, e, id, state, q, t, m, masterLat, sent, start, lat, handled);
    DriftIsAtMost(start, state, lat, handled - e.at, most);
    UplinkErrorIsAtMost(masterLat, m.receivedAt - sent, state, most);
    Triangle(Drift(start, state, lat, handled - e.at), UplinkError(masterLat, m.receivedAt - sent, Pace(state)));
  }

  lemma {:induction false} EstimateIsNoMore(exchanges: seq<Exchange>, most: real)
    requires Within(exchanges, 0.0, most) && most >= 0.0
    ensures 0.0 <= Estimate(Samples(exchanges)) <= most
  {
    EstimateOfDelays(exchanges, 0.0, most);
    Shrinks(Power(|exchanges|), most);
  }

  lemma DriftIsAtMost(start: real, state: StateMessage, lat: real, delay: real, most: real)
    requires 0.0 <= lat <= most && 0.0 <= delay <= most && state.status == PLAYING && state.speed >= 0.0
    ensures Abs(Drift(start, state, lat, delay)) <= Max(most, 0.5) + Max(most, Pace(state) * most)
  {
    DriftIsBounded(start, state, lat, delay);
    ErrorIsBounded(lat, delay, Pace(state), most);
  }

  lemma UplinkErrorIsAtMost(lat: real, up: real, state: StateMessage, most: real)
    requires 0.0 <= lat <= most && 0.0 <= up <= most && state.status == PLAYING && state.speed >= 0.0
    ensures Abs(UplinkError(lat, up, Pace(state))) <= Pace(state) * most
  {
    Scaled(Max(lat, 0.0) - up, Pace(state), most);
  }

  lemma Triangle(x: real, y: real)
    ensures Abs(x + y) <= Abs(x) + Abs(y)
  {
  }

  lemma Shrinks(p: real, x: real)
    requires 0.0 < p <= 1.0 && x >= 0.0
    ensures 0.0 <= (1.0 - p) * x <= x
  {
  }

  lemma ErrorIsBounded(lat: real, delay: real, v: real, most: real)
    requires 0.0 <= lat <= most && 0.0 <= delay <= most && v >= 0.0
    ensures Abs(lat - v * delay) <= Max(most, v * most)
  {
    var x, y := v * delay, v * most;
    assert y - x == v * (most - delay);
    assert 0.0 <= x <= y;
    Between(lat, x, most, y);
  }

  lemma Between(lat: real, x: real, most: real, y: real)
    requires 0.0 <= lat <= most && 0.0 <= x <= y
    ensures Abs(lat - x) <= Max(most, y)
  {
  }

  lemma Scaled(d: real, v: real, most: real)
    requires -most <= d <= most && v >= 0.0
    ensures Abs(d * v) <= v * most
  {
    assert (most - d) * v >= 0.0 && (most + d) * v >= 0.0;
  }

  /** On a network with one constant delay the errors of both estimates fall to a tenth with every ping: at normal
      speed nothing but the tolerance remains. */
  lemma {:induction false} SteadyNetwork(s: Sys, e: Event, id: string, state: StateMessage, q: Sys, t: real, m: Message,
                                         masterPings: seq<Exchange>, guestPings: seq<Exchange>,
                                         sent: real, start: real, handled: real, delay: real)
    requires StillOn(s, e, id, state, q, t) && state.status == PLAYING && state.speed == 1.0
    requires Leads(q, m, Estimate(Samples(masterPings)))
    requires Within(masterPings, delay, delay) && Within(guestPings, delay, delay)
    requires delay >= 0.0 && m.receivedAt - sent == delay && handled - e.at == delay
    ensures Abs(Playhead(start, state, Estimate(Samples(guestPings)), handled, t)
                - MasterHead(m.payload.update, sent, t))
            <= Max(delay, 0.5) + Power(|guestPings|) * delay + Power(|masterPings|) * delay
  {
    hide *;
    var lat, masterLat := Estimate(Samples(guestPings)), Estimate(Samples(masterPings));
    EstimateOfDelays(guestPings, delay, delay);
    EstimateOfDelays(masterPings, delay, delay);
    GuestAgainstMaster(s, e, id, state, q, t, m, masterLat, sent, start, lat, handled);
    DriftFades(start, state, lat, handled - e.at, Power(|guestPings|));
    UplinkErrorFades(masterLat, m.receivedAt - sent, state, Power(|masterPings|));
    Triangle(Drift(start, state, lat, handled - e.at), UplinkError(masterLat, m.receivedAt - sent, Pace(state)));
  }

  lemma DriftFades(start: real, state: StateMessage, lat: real, delay: real, p: real)
    requires state.status == PLAYING && state.speed == 1.0 && delay >= 0.0 && 0.0 < p <= 1.0
    requires lat == (1.0 - p) * delay
    ensures Abs(Drift(start, state, lat, delay)) <= Max(delay, 0.5) + p * delay
  {
    DriftIsBounded(start, state, lat, delay);
    Shrinks(p, delay);
    assert lat == delay - p * delay && Pace(state) * delay == delay;
  }

  lemma UplinkErrorFades(lat: real, up: real, state: StateMessage, p: real)
    requires state.status == PLAYING && state.speed == 1.0 && up >= 0.0 && 0.0 < p <= 1.0
    requires lat == (1.0 - p) * up
    ensures Abs(UplinkError(lat, up, Pace(state))) <= p * up
  {
    Shrinks(p, up);
    assert lat - up == -(p * up) && Pace(state) == 1.0;
  }
}
