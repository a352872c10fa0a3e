/** What every step of the room manager keeps. */
module RoomInvariants {
  import opened Options
  import opened Messages
  import opened Playback
  import opened Timers
  import opened RoomMachine

  /** The master connections among some connections. */
  function MasterPart(conns: map<string, Conn>): map<string, Conn> {
    map id | id in conns && conns[id].kind == Master :: conns[id]
  }

  ghost predicate Membership(r: RoomState) {
    && r.masters == MasterPart(r.clients)
    && (forall id :: id in r.clients ==> r.clients[id].id == id)
  }

  /** The two channels of a connection are closed together, and they are open for members and for nobody else. */
  ghost predicate Channels(r: RoomState) {
    && r.clients.Keys <= r.chans.Keys
    && (forall id :: id in r.chans ==> r.chans[id].sendClosed == r.chans[id].closingClosed)
    && (forall id :: id in r.chans ==> (id in r.clients <==> IsOpen(r.chans[id])))
  }

  ghost predicate Alive(r: RoomState) {
    && (r.outcome == Running || r.outcome == Returned)
    && (r.outcome == Returned ==> r.clients == map[] && r.masters == map[])
  }

  /** An update waits in the buffer exactly while its timer runs or has an unread expiry, and never both. */
  ghost predicate CooldownGuards(r: RoomState) {
    r.outcome == Running ==>
      && (r.buffered.Some? <==> r.cooldown.active || r.cooldown.unread)
      && !(r.cooldown.active && r.cooldown.unread)
  }

  /** The shutdown timer agrees with the membership. */
  ghost predicate ShutdownGuards(r: RoomState) {
    r.outcome == Running ==>
      && (r.masters == map[] ==> r.shutdown.active || r.shutdown.unread)
      && (r.masters != map[] ==> !r.shutdown.active)
  }

  ghost predicate IsUpdate(m: Message) {
    m.typ == STATE_UPDATE && m.payload.UpdatePayload?
  }

  /** The history refers to received updates only. */
  ghost predicate Recorded(r: RoomState) {
    && (forall i :: 0 <= i < |r.log.received| ==> IsUpdate(r.log.received[i]))
    && (forall i :: 0 <= i < |r.log.applied| ==> r.log.applied[i].index < |r.log.received|)
    && (r.buffered.Some? ==>
          r.log.pending < |r.log.received| && r.log.received[r.log.pending] == r.buffered.value)
  }

  function Indices(applied: seq<Applied>): seq<nat> {
    seq(|applied|, i requires 0 <= i < |applied| => applied[i].index)
  }

  function UpTo(n: nat): seq<nat> {
    seq(n, i => i)
  }

  /** Every received update has exactly one fate: applied once, superseded once, or still buffered. */
  ghost predicate Conserved(r: RoomState) {
    multiset(Indices(r.log.applied)) + multiset(r.log.superseded)
      + (if r.buffered.Some? then multiset{r.log.pending} else multiset{})
    == multiset(UpTo(|r.log.received|))
  }

  /** The timeline of the update that was applied last. */
  function LineOf(r: RoomState): Timeline
    requires Recorded(r)
  {
    if r.log.applied == [] then Initial(r.created)
    else
      var m := r.log.received[r.log.applied[|r.log.applied| - 1].index];
      Start(m.payload.update, m.receivedAt)
  }

  /** The stored state agrees with the formula, whoever has looked at it meanwhile. */
  ghost predicate OnLine(r: RoomState, now: real) {
    && Recorded(r)
    && (forall i :: 0 <= i < |r.log.received| ==> r.log.received[i].receivedAt <= now)
    && r.state.lastUpdated <= now
    && (Steady(LineOf(r)) ==> Follows(r.state, LineOf(r), now))
  }

  /** The least distance between an applied update x and the next one, y. */
  predicate Apart(x: Applied, y: Applied) {
    && (y.immediate ==> y.at - x.at > UPDATE_COOLDOWN)
    && (!y.immediate && !x.immediate ==> y.at - x.at >= BUFFER_DELAY)
  }

  /** Applied updates keep their distance, and the playback state is no older than the last of them. */
  ghost predicate Spaced(a: seq<Applied>, lastUpdated: real) {
    && (forall i :: 0 <= i < |a| ==> a[i].at <= lastUpdated)
    && (forall i, j :: 0 <= i < j < |a| ==> a[i].at <= a[j].at)
    && (forall i, j :: 0 <= i < j < |a| && j == i + 1 ==> Apart(a[i], a[j]))
    && (forall j :: 0 <= j < |a| && !a[j].immediate ==> a[j].at - a[j].armedAt >= BUFFER_DELAY)
  }

  /** The cooldown timer was started after the last update left the buffer, and runs for as long as it should. */
  ghost predicate Armed(r: RoomState, now: real) {
    var a := r.log.applied;
    r.outcome == Running && r.buffered.Some? ==>
      && r.log.armedAt <= now
      && (r.cooldown.active ==> r.cooldown.deadline == r.log.armedAt + BUFFER_DELAY)
      && (r.cooldown.unread ==> r.log.armedAt + BUFFER_DELAY <= now)
      && (|a| > 0 && !a[|a| - 1].immediate ==> a[|a| - 1].at <= r.log.armedAt)
  }

  ghost predicate Paced(r: RoomState, now: real) {
    r.state.lastUpdated <= now && Spaced(r.log.applied, r.state.lastUpdated) && Armed(r, now)
  }

  /** Updates that were applied from position `from` on while one received earlier waited in the buffer: they are
      immediate, and their times are more than a cooldown apart. */
  ghost predicate Overtake(a: seq<Applied>, from: nat, to: nat, index: nat, armedAt: real)
    requires from <= to <= |a|
  {
    && (forall i :: 0 <= i < from ==> a[i].index < index)
    && (forall i :: from <= i < to ==> a[i].index > index && a[i].immediate)
    && (forall i :: from <= i < to ==> a[i].at >= armedAt)
    && (forall i :: from < i < to ==> a[i].at - armedAt > (i - from) as real)
  }

  ghost predicate Overtaking(r: RoomState) {
    var a := r.log.applied;
    && (forall j :: 0 <= j < |a| ==> a[j].before <= j)
    && (forall j :: 0 <= j < |a| && a[j].immediate ==> a[j].before == j)
    && (forall j :: 0 <= j < |a| ==> Overtake(a, a[j].before, j, a[j].index, a[j].armedAt))
    && (r.buffered.Some? ==>
          r.log.appliedBefore <= |a| && Overtake(a, r.log.appliedBefore, |a|, r.log.pending, r.log.armedAt))
  }

  /** An expiry of the shutdown timer means what it says, unless a stale one was kept by line 308. */
  ghost predicate Meaningful(r: RoomState, now: real) {
    && r.presence.mastersLeftAt <= now
    && (r.outcome == Running && (r.sem.Discarding? || !r.presence.staleReset) ==>
          && !(r.shutdown.active && r.shutdown.unread)
          && (r.shutdown.active ==> r.shutdown.deadline >= r.presence.mastersLeftAt + MASTERLESS_TIMEOUT)
          && (r.shutdown.unread ==> r.masters == map[] && now >= r.presence.mastersLeftAt + MASTERLESS_TIMEOUT))
  }

  ghost predicate History(r: RoomState, now: real) {
    Recorded(r) && Conserved(r) && OnLine(r, now) && Paced(r, now) && Overtaking(r)
  }

  ghost predicate Inv(r: RoomState, now: real) {
    && Membership(r) && Channels(r) && Alive(r)
    && CooldownGuards(r) && ShutdownGuards(r)
    && History(r, now) && Meaningful(r, now)
  }

  lemma NewRoomInv(sem: Semantics, now: real)
    ensures Inv(NewRoom(sem, now), now)
  {
    var r := NewRoom(sem, now);
    assert r.masters == MasterPart(r.clients);
  }

  function SentTo(r: RoomState, id: string): seq<StateMessage> {
    if id in r.chans then r.chans[id].sent else []
  }

  /** Between two states exactly the given clients have been sent one message, the same one. */
  ghost predicate Hears(r: RoomState, q: RoomState, to: set<string>, m: StateMessage) {
    forall id :: id in q.chans ==> q.chans[id].sent == SentTo(r, id) + if id in to then [m] else []
  }

  /** Between two states exactly the given clients have been sent one message each. */
  ghost predicate Addressed(r: RoomState, q: RoomState, to: set<string>) {
    forall id :: id in q.chans ==>
      && SentTo(r, id) <= q.chans[id].sent
      && |q.chans[id].sent| == |SentTo(r, id)| + if id in to then 1 else 0
  }

  // Sending and closing never fail

  lemma DeliverIsSafe(r: RoomState, to: set<string>, m: StateMessage)
    requires Channels(r) && to <= r.clients.Keys
    ensures Deliver(r, to, m) == r.(chans := Deliver(r, to, m).chans)
    ensures Channels(Deliver(r, to, m))
    ensures Deliver(r, to, m).chans.Keys == r.chans.Keys
    ensures forall id :: id in r.chans ==>
              Deliver(r, to, m).chans[id] ==
                if id in to then r.chans[id].(sent := r.chans[id].sent + [m]) else r.chans[id]
  {
    forall id | id in to ensures id in r.chans && IsOpen(r.chans[id]) {
      assert id in r.clients;
    }
  }

  lemma CloseIsSafe(r: RoomState, ids: set<string>)
    requires ids <= r.chans.Keys && forall id :: id in ids ==> IsOpen(r.chans[id])
    ensures CloseChannels(r, ids) == r.(chans := CloseChannels(r, ids).chans)
    ensures CloseChannels(r, ids).chans.Keys == r.chans.Keys
    ensures forall id :: id in r.chans ==>
              CloseChannels(r, ids).chans[id] ==
                if id in ids then r.chans[id].(sendClosed := true, closingClosed := true) else r.chans[id]
  {
  }

  /** A broadcast changes nothing but the playback state and what has been sent. */
  lemma BroadcastIsSafe(r: RoomState, now: real)
    requires Channels(r)
    ensures BroadcastState(r, now) == r.(state := Observe(r.state, now).0, chans := BroadcastState(r, now).chans)
    ensures Channels(BroadcastState(r, now))
    ensures Hears(r, BroadcastState(r, now), r.clients.Keys, Observe(r.state, now).1)
    ensures BroadcastState(r, now).chans.Keys == r.chans.Keys
  {
    var (st, m) := Observe(r.state, now);
    DeliverIsSafe(r.(state := st), r.clients.Keys, m);
  }

  // One lemma for each kind of step

  lemma RecordFate(before: seq<Applied>, e: Applied)
    ensures Indices(before + [e]) == Indices(before) + [e.index]
    ensures multiset(Indices(before + [e])) == multiset(Indices(before)) + multiset{e.index}
  {
  }

  lemma RecordReceipt(n: nat)
    ensures UpTo(n + 1) == UpTo(n) + [n]
    ensures multiset(UpTo(n + 1)) == multiset(UpTo(n)) + multiset{n}
  {
  }

  /** The state and the message when an update is applied and broadcast at once. */
  lemma AppliedLine(u: Update, receivedAt: real, now: real)
    requires receivedAt <= now
    ensures var (st, m) := Observe(ApplyUpdate(u, now - receivedAt, now), now); var line := Start(u, receivedAt);
      && st.lastUpdated == now
      && (Steady(line) ==> Follows(st, line, now) && m == Formula(line, now))
  {
    ApplyingFollows(u, receivedAt, now);
    var line := Start(u, receivedAt);
    if Steady(line) {
      ObservingFollows(ApplyUpdate(u, now - receivedAt, now), line, now, now);
    }
  }

  /** Applying an update that has just left the buffer or the queue. */
  lemma ApplyKeeps(r: RoomState, m: Message, e: Applied, now: real)
    requires Membership(r) && Channels(r) && r.outcome == Running
    requires IsUpdate(m) && m.receivedAt <= now && e.at == now
    requires Recorded(r) && e.index < |r.log.received| && r.log.received[e.index] == m
    requires forall i :: 0 <= i < |r.log.received| ==> r.log.received[i].receivedAt <= now
    ensures var q := Apply(r, m, e);
      && q == r.(state := q.state, chans := q.chans, log := r.log.(applied := r.log.applied + [e]))
      && Channels(q)
      && q.state.lastUpdated == now
      && OnLine(q, now) && OnLine(q.(buffered := None), now)
      && q.chans.Keys == r.chans.Keys
      && Addressed(r, q, r.clients.Keys)
      && (Steady(LineOf(q)) ==> Hears(r, q, r.clients.Keys, Formula(LineOf(q), now)))
  {
    ApplySends(r, m, e);
    AppliedLine(m.payload.update, m.receivedAt, now);
    var q := Apply(r, m, e);
    AppliedOnLine(r, q, m, e, now);
    AppliedOnLine(r, q.(buffered := None), m, e, now);
  }

  lemma ApplySends(r: RoomState, m: Message, e: Applied)
    requires Channels(r) && IsUpdate(m)
    ensures var q := Apply(r, m, e);
            var (st, said) := Observe(ApplyUpdate(m.payload.update, e.at - m.receivedAt, e.at), e.at);
      && q == r.(state := st, chans := q.chans, log := r.log.(applied := r.log.applied + [e]))
      && Channels(q) && q.chans.Keys == r.chans.Keys
      && Addressed(r, q, r.clients.Keys) && Hears(r, q, r.clients.Keys, said)
  {
    BroadcastIsSafe(UpdateState(r, m, e), e.at);
  }

  lemma AppliedOnLine(r: RoomState, q: RoomState, m: Message, e: Applied, now: real)
    requires Recorded(r) && IsUpdate(m) && e.index < |r.log.received| && r.log.received[e.index] == m
    requires forall i :: 0 <= i < |r.log.received| ==> r.log.received[i].receivedAt <= now
    requires q.log == r.log.(applied := r.log.applied + [e]) && (q.buffered == r.buffered || q.buffered == None)
    requires q.state.lastUpdated == now
    requires Steady(Start(m.payload.update, m.receivedAt)) ==>
               Follows(q.state, Start(m.payload.update, m.receivedAt), now)
    ensures OnLine(q, now) && LineOf(q) == Start(m.payload.update, m.receivedAt)
  {
  }

  /** Whoever looks at the room leaves it on its timeline. */
  lemma LookOnLine(r: RoomState, q: RoomState, now0: real, now: real)
    requires OnLine(r, now0) && now0 <= now
    requires q.state == r.state || q.state == Observe(r.state, now).0
    requires q.log == r.log && q.buffered == r.buffered && q.created == r.created
    ensures OnLine(q, now)
  {
    assert LineOf(q) == LineOf(r);
    if Steady(LineOf(r)) {
      ObservingFollows(r.state, LineOf(r), now0, now);
    }
  }

  /** Looking at the room moves lastUpdated forward if it moves it at all. */
  lemma LookKeepsPace(r: RoomState, q: RoomState, now0: real, now: real)
    requires Paced(r, now0) && now0 <= now
    requires q.state == r.state || q.state == Observe(r.state, now).0
    requires q.log == r.log && q.buffered == r.buffered
    requires q.cooldown == r.cooldown || (CanFire(r.cooldown, now) && q.cooldown == Fire(r.cooldown))
             || q.outcome != Running
    requires q.outcome == Running ==> r.outcome == Running
    ensures Paced(q, now)
  {
  }

  lemma LookKeeps(r: RoomState, q: RoomState, now0: real, now: real)
    requires History(r, now0) && now0 <= now
    requires q.state == r.state || q.state == Observe(r.state, now).0
    requires q.log == r.log && q.buffered == r.buffered && q.created == r.created
    requires q.cooldown == r.cooldown || (CanFire(r.cooldown, now) && q.cooldown == Fire(r.cooldown))
             || q.outcome != Running
    requires q.outcome == Running ==> r.outcome == Running
    ensures History(q, now)
  {
    LookOnLine(r, q, now0, now);
    LookKeepsPace(r, q, now0, now);
  }

  lemma TickKeeps(r: RoomState, now0: real, now: real)
    requires Inv(r, now0) && now0 <= now && r.outcome == Running
    ensures Inv(BroadcastState(r, now), now)
  {
    BroadcastIsSafe(r, now);
    LookKeeps(r, BroadcastState(r, now), now0, now);
  }

  lemma FiresKeeps(r: RoomState, a: Action, now0: real, now: real)
    requires Inv(r, now0) && now0 <= now
    requires (a.CooldownFires? || a.ShutdownFires?) && Enabled(r, a, now)
    ensures Inv(Step(r, a, now), now)
  {
    LookKeeps(r, Step(r, a, now), now0, now);
  }

  lemma JoinedMembership(r: RoomState, c: Conn)
    requires Membership(r) && Channels(r) && c.id !in r.chans
    ensures var q := JoinClient(r, c);
      && Membership(q) && Channels(q)
      && q == r.(clients := r.clients[c.id := c], masters := q.masters, chans := r.chans[c.id := OPEN])
  {
    var q := JoinClient(r, c);
    assert c.id !in r.clients && c.id !in r.masters;
    assert q.masters == MasterPart(q.clients);
  }

  lemma JoinedMasters(r: RoomState, c: Conn)
    requires r.masters == MasterPart(r.clients) && c.id !in r.clients
    ensures var q := JoinClient(r, c);
      && q.masters == (if c.kind == Master then r.masters[c.id := c] else r.masters)
      && (c.kind == Master ==> q.masters != map[] && (|q.masters| == 1 <==> r.masters == map[]))
  {
    if c.kind == Master {
      var q := JoinClient(r, c);
      assert c.id in q.masters;
      assert |q.masters| == |r.masters| + 1;
    }
  }

  /** Stopping the shutdown timer never blocks when it is active or has an unread expiry. */
  lemma StopIsSafe(r: RoomState)
    requires r.shutdown.active || r.shutdown.unread
    ensures StopShutdown(r) ==
      r.(shutdown := r.shutdown.(active := false,
                                 unread := r.sem.Keeping? && r.shutdown.active && r.shutdown.unread))
  {
  }

  /** The joining client, and it alone, is sent the current state. */
  lemma JoinSends(r: RoomState, c: Conn, now: real)
    requires Membership(r) && Channels(r) && c.id !in r.chans
    ensures var q, r1 := SendState(JoinClient(r, c), c.id, now), JoinClient(r, c);
      && Membership(q) && Channels(q)
      && q == r1.(chans := q.chans, state := Observe(r.state, now).0)
      && q.chans.Keys == r.chans.Keys + {c.id}
      && Hears(r, q, {c.id}, Observe(r.state, now).1)
  {
    JoinedMembership(r, c);
    var r1 := JoinClient(r, c);
    var (st, m) := Observe(r1.state, now);
    DeliverIsSafe(r1.(state := st), {c.id}, m);
  }

  /** The first master's join stops the shutdown timer, which never blocks. */
  lemma JoinStops(r: RoomState, c: Conn, now: real)
    requires Membership(r) && Channels(r) && Enabled(r, Join(c), now) && ShutdownGuards(r)
    ensures OnJoin(r, c, now) ==
      SendState(JoinClient(r, c), c.id, now).(shutdown :=
        if c.kind == Master && r.masters == map[]
        then Timer(false, r.shutdown.deadline, r.sem.Keeping? && r.shutdown.active && r.shutdown.unread)
        else r.shutdown)
  {
    JoinSends(r, c, now);
    JoinedMasters(r, c);
    if c.kind == Master && r.masters == map[] {
      StopIsSafe(SendState(JoinClient(r, c), c.id, now));
    }
  }

  lemma JoinKeeps(r: RoomState, c: Conn, now0: real, now: real)
    requires Inv(r, now0) && now0 <= now && Enabled(r, Join(c), now)
    ensures Inv(OnJoin(r, c, now), now)
  {
    var q := OnJoin(r, c, now);
    JoinStops(r, c, now);
    JoinSends(r, c, now);
    JoinedMasters(r, c);
    LookKeeps(r, q, now0, now);
  }

  lemma KilledMembership(r: RoomState, c: Conn)
    requires Membership(r) && Channels(r)
    ensures var q := KillClient(r, c);
      && Membership(q) && Channels(q)
      && q == r.(clients := q.clients, masters := q.masters, chans := q.chans)
      && q.clients == (if c.id in r.clients && r.clients[c.id] == c then r.clients - {c.id} else r.clients)
      && q.chans.Keys == r.chans.Keys
      && (forall id :: id in r.chans ==> q.chans[id].sent == r.chans[id].sent)
      && (forall id :: id in r.chans && id != c.id ==> q.chans[id] == r.chans[id])
      && (c.kind != Master ==> q.masters == r.masters)
      && (r.masters == map[] ==> q.masters == map[])
  {
    if c.id in r.clients && r.clients[c.id] == c {
      var r1 := r.(clients := r.clients - {c.id}, masters := r.masters - {c.id});
      CloseIsSafe(r1, {c.id});
      var q := KillClient(r, c);
      assert q.masters == MasterPart(q.clients);
    }
  }

  lemma LeaveKeeps(r: RoomState, c: Conn, now0: real, now: real)
    requires Inv(r, now0) && now0 <= now && r.outcome == Running
    ensures Inv(OnLeave(r, c, now), now)
  {
    KilledMembership(r, c);
    LookKeeps(r, OnLeave(r, c, now), now0, now);
  }

  /** The exit loop: both maps end up empty and every former member's channels are closed. */
  lemma ShutdownEffect(r: RoomState, now: real)
    requires Membership(r) && Channels(r) && Enabled(r, ShutdownServed, now)
    ensures var q := OnShutdown(r);
      && Membership(q) && Channels(q)
      && q.outcome == Returned && q.clients == map[] && q.masters == map[]
      && q.state == r.state && q.log == r.log && q.presence == r.presence && q.buffered == r.buffered
      && q.created == r.created && q.sem == r.sem
      && q.chans.Keys == r.chans.Keys
      && forall id :: id in r.chans ==> q.chans[id] == r.chans[id].(sendClosed := true, closingClosed := true)
  {
    var r1 := r.(shutdown := Stop(Receive(r.shutdown), r.sem), cooldown := Stop(r.cooldown, r.sem), outcome := Returned,
                 clients := map[], masters := r.masters - r.clients.Keys);
    CloseIsSafe(r1, r.clients.Keys);
    var q := OnShutdown(r);
    assert q.masters == map[];
    assert q.masters == MasterPart(q.clients);
  }

  lemma ShutdownKeeps(r: RoomState, now0: real, now: real)
    requires Inv(r, now0) && now0 <= now && Enabled(r, ShutdownServed, now)
    ensures Inv(OnShutdown(r), now)
  {
    ShutdownEffect(r, now);
    LookKeeps(r, OnShutdown(r), now0, now);
  }

  /** Applying one more update keeps the distances between applied updates. */
  lemma ApplyKeepsSpace(a: seq<Applied>, lastUpdated: real, e: Applied)
    requires Spaced(a, lastUpdated) && lastUpdated <= e.at
    requires e.immediate ==> e.at - lastUpdated > UPDATE_COOLDOWN
    requires !e.immediate ==> e.at - e.armedAt >= BUFFER_DELAY
    requires !e.immediate && |a| > 0 && !a[|a| - 1].immediate ==> a[|a| - 1].at <= e.armedAt
    ensures Spaced(a + [e], e.at)
  {
    var b, n := a + [e], |a|;
    assert forall i :: 0 <= i < n ==> b[i] == a[i];
    assert b[n] == e;
    assert n > 0 ==> b[n - 1] == a[n - 1] && a[n - 1].at <= lastUpdated;
  }

  lemma ApplyKeepsPace(r: RoomState, q: RoomState, e: Applied, now0: real, now: real)
    requires Paced(r, now0) && now0 <= now && e.at == now
    requires q.log.applied == r.log.applied + [e] && q.state.lastUpdated == now
    requires q.log.armedAt == r.log.armedAt
    requires q.outcome == Running ==> r.outcome == Running
    requires e.immediate ==> now - r.state.lastUpdated > UPDATE_COOLDOWN
    requires e.immediate ==> q.buffered.Some? == r.buffered.Some? && q.cooldown == r.cooldown
    requires !e.immediate ==> q.buffered.None? && r.outcome == Running && r.buffered.Some? && r.cooldown.unread
                              && e.armedAt == r.log.armedAt
    ensures Paced(q, now)
  {
    ApplyKeepsSpace(r.log.applied, r.state.lastUpdated, e);
  }

  /** One more update, immediate or from the buffer, keeps the account of who overtook whom. */
  lemma ApplyKeepsOvertaking(r: RoomState, q: RoomState, e: Applied, now0: real, now: real)
    requires Overtaking(r) && Paced(r, now0) && now0 <= now && e.at == now && r.outcome == Running
    requires forall i :: 0 <= i < |r.log.applied| ==> r.log.applied[i].index < |r.log.received|
    requires r.buffered.Some? ==> r.log.pending < |r.log.received|
    requires q.log.applied == r.log.applied + [e]
    requires q.log.pending == r.log.pending && q.log.armedAt == r.log.armedAt
    requires q.log.appliedBefore == r.log.appliedBefore
    requires e.immediate ==> now - r.state.lastUpdated > UPDATE_COOLDOWN && e.index == |r.log.received|
                             && e.before == |r.log.applied| && q.buffered == r.buffered
    requires !e.immediate ==> q.buffered.None? && r.buffered.Some? && e.index == r.log.pending
                              && e.before == r.log.appliedBefore && e.armedAt == r.log.armedAt
    ensures Overtaking(q)
  {
    var a, b, n := r.log.applied, q.log.applied, |r.log.applied|;
    forall j | 0 <= j < |b|
      ensures b[j].before <= j && Overtake(b, b[j].before, j, b[j].index, b[j].armedAt)
    {
      if j < n {
        assert Overtake(a, a[j].before, j, a[j].index, a[j].armedAt);
        OvertakeExtends(a, b, a[j].before, j, a[j].index, a[j].armedAt);
      } else if !e.immediate {
        OvertakeExtends(a, b, e.before, n, e.index, e.armedAt);
      }
    }
    if q.buffered.Some? {
      OvertakeGrows(a, r.log.appliedBefore, e, r.log.pending, r.log.armedAt);
    }
  }

  lemma OvertakeGrows(a: seq<Applied>, from: nat, e: Applied, index: nat, armedAt: real)
    requires from <= |a| && Overtake(a, from, |a|, index, armedAt)
    requires e.immediate && e.index > index && e.at >= armedAt
    requires |a| > from ==> e.at - a[|a| - 1].at > 1.0
    ensures Overtake(a + [e], from, |a| + 1, index, armedAt)
  {
    var b := a + [e];
    forall i | from < i < |b| ensures b[i].at - armedAt > (i - from) as real {
      if i == |a| && i - 1 > from {
        assert a[i - 1].at - armedAt > (i - 1 - from) as real;
      }
    }
  }

  lemma OvertakeExtends(a: seq<Applied>, b: seq<Applied>, from: nat, to: nat, index: nat, armedAt: real)
    requires a <= b && from <= to <= |a| && Overtake(a, from, to, index, armedAt)
    ensures Overtake(b, from, to, index, armedAt)
  {
    assert forall i :: 0 <= i < to ==> b[i] == a[i];
  }

  lemma CooldownKeeps(r: RoomState, now0: real, now: real)
    requires Inv(r, now0) && now0 <= now && Enabled(r, CooldownServed, now)
    ensures Inv(OnCooldown(r, now), now)
  {
    CooldownEffect(r, now0, now);
    CooldownKeepsHistory(r, now0, now);
  }

  /** Serving the cooldown expiry empties the buffer and changes nothing about the membership. */
  lemma CooldownEffect(r: RoomState, now0: real, now: real)
    requires Inv(r, now0) && now0 <= now && Enabled(r, CooldownServed, now)
    ensures var q := OnCooldown(r, now);
      && OnLine(q, now) && Channels(q) && q.chans.Keys == r.chans.Keys
      && Addressed(r, q, r.clients.Keys)
      && (Steady(LineOf(q)) ==> Hears(r, q, r.clients.Keys, Formula(LineOf(q), now)))
      && q == r.(cooldown := Receive(r.cooldown), state := q.state, chans := q.chans, buffered := None, log := q.log)
      && q.log == r.log.(applied := r.log.applied +
           [Applied(r.log.pending, now, false, r.log.armedAt, r.log.appliedBefore)])
      && q.state.lastUpdated == now
  {
    var e := Applied(r.log.pending, now, false, r.log.armedAt, r.log.appliedBefore);
    ApplyKeeps(r.(cooldown := Receive(r.cooldown)), r.buffered.value, e, now);
    var q := OnCooldown(r, now);
    assert LineOf(q) == Start(r.buffered.value.payload.update, r.buffered.value.receivedAt);
  }

  lemma CooldownKeepsHistory(r: RoomState, now0: real, now: real)
    requires Inv(r, now0) && now0 <= now && Enabled(r, CooldownServed, now)
    ensures History(OnCooldown(r, now), now)
  {
    CooldownEffect(r, now0, now);
    var e := Applied(r.log.pending, now, false, r.log.armedAt, r.log.appliedBefore);
    var q := OnCooldown(r, now);
    ApplyKeepsPace(r, q, e, now0, now);
    ApplyKeepsOvertaking(r, q, e, now0, now);
    assert Conserved(q) by { RecordFate(r.log.applied, e); }
  }

  /** An update that arrives after the cooldown is applied at once; the buffer and the timers stay as they are. */
  lemma ImmediateEffect(r: RoomState, m: Message, now0: real, now: real)
    requires Inv(r, now0) && now0 <= now && Enabled(r, Recv(m), now)
    requires m.typ == STATE_UPDATE && now - r.state.lastUpdated > UPDATE_COOLDOWN
    ensures var q := OnUpdate(r, m, now);
      && OnLine(q, now) && Channels(q) && q.chans.Keys == r.chans.Keys
      && Addressed(r, q, r.clients.Keys)
      && (Steady(LineOf(q)) ==> Hears(r, q, r.clients.Keys, Formula(LineOf(q), now)))
      && q == r.(state := q.state, chans := q.chans, log := q.log)
      && q.log == r.log.(received := r.log.received + [m], applied := r.log.applied +
           [Applied(|r.log.received|, now, true, now, |r.log.applied|)])
      && q.state.lastUpdated == now
  {
    hide Apply, OnUpdate, Membership, Channels, Inv, OnLine, Steady, Formula, Enabled, IsUpdate, Recorded;
    RecordKeeps(r, m, now0, now);
    ImmediateIsApplied(r, m, now);
    ApplyKeeps(Record(r, m), m, Applied(|r.log.received|, now, true, now, |r.log.applied|), now);
  }

  lemma RecordKeeps(r: RoomState, m: Message, now0: real, now: real)
    requires Inv(r, now0) && now0 <= now && Enabled(r, Recv(m), now) && m.typ == STATE_UPDATE
    ensures var p := Record(r, m);
      && Membership(p) && Channels(p) && Recorded(p) && IsUpdate(m) && p.outcome == Running && m.receivedAt <= now
      && forall i :: 0 <= i < |p.log.received| ==> p.log.received[i].receivedAt <= now
  {
  }

  lemma ImmediateIsApplied(r: RoomState, m: Message, now: real)
    requires IsUpdate(m) && now - r.state.lastUpdated > UPDATE_COOLDOWN
    ensures OnUpdate(r, m, now)
            == Apply(Record(r, m), m, Applied(|r.log.received|, now, true, now, |r.log.applied|))
  {
    hide Apply;
  }

  lemma ImmediateKeeps(r: RoomState, m: Message, now0: real, now: real)
    requires Inv(r, now0) && now0 <= now && Enabled(r, Recv(m), now)
    requires m.typ == STATE_UPDATE && now - r.state.lastUpdated > UPDATE_COOLDOWN
    ensures Inv(OnUpdate(r, m, now), now)
  {
    ImmediateEffect(r, m, now0, now);
    var e := Applied(|r.log.received|, now, true, now, |r.log.applied|);
    var q := OnUpdate(r, m, now);
    ImmediateConserves(r, q, m, e);
    ApplyKeepsPace(r, q, e, now0, now);
    ApplyKeepsOvertaking(r, q, e, now0, now);
  }

  lemma ImmediateConserves(r: RoomState, q: RoomState, m: Message, e: Applied)
    requires Conserved(r) && e.index == |r.log.received|
    requires q.log == r.log.(received := r.log.received + [m], applied := r.log.applied + [e])
    requires q.buffered == r.buffered
    ensures Conserved(q)
  {
    RecordFate(r.log.applied, e);
    RecordReceipt(|r.log.received|);
  }

  lemma BufferConserves(r: RoomState, q: RoomState, m: Message)
    requires Conserved(r) && q.buffered.Some? && q.log.pending == |r.log.received|
    requires q.log.received == r.log.received + [m] && q.log.applied == r.log.applied
    requires q.log.superseded == if r.buffered.Some? then r.log.superseded + [r.log.pending] else r.log.superseded
    ensures Conserved(q)
  {
    RecordReceipt(|r.log.received|);
  }

  lemma BufferOnLine(r: RoomState, q: RoomState, m: Message, now0: real, now: real)
    requires OnLine(r, now0) && now0 <= now && IsUpdate(m) && m.receivedAt <= now
    requires q.log.received == r.log.received + [m] && q.log.applied == r.log.applied && q.created == r.created
    requires q.state == r.state && q.buffered == Some(m) && q.log.pending == |r.log.received|
    ensures OnLine(q, now)
  {
    assert Recorded(q);
    assert LineOf(q) == LineOf(r);
  }

  lemma BufferKeepsPace(r: RoomState, q: RoomState, now0: real, now: real)
    requires Paced(r, now0) && now0 <= now && r.outcome == Running
    requires q.log.applied == r.log.applied && q.state == r.state
    requires r.buffered.Some? ==> q.cooldown == r.cooldown && q.log.armedAt == r.log.armedAt
    requires r.buffered.None? ==> q.cooldown == Timer(true, now + BUFFER_DELAY, false) && q.log.armedAt == now
    ensures Paced(q, now)
  {
  }

  lemma BufferKeepsOvertaking(r: RoomState, q: RoomState, now0: real)
    requires Overtaking(r) && Paced(r, now0)
    requires q.log.applied == r.log.applied && q.log.pending == |r.log.received|
    requires forall i :: 0 <= i < |r.log.applied| ==> r.log.applied[i].index < |r.log.received|
    requires q.log.appliedBefore == |r.log.applied|
    ensures Overtaking(q)
  {
  }

  /** An update that arrives within the cooldown takes the place of the one that waits, or starts the timer. */
  lemma BufferKeeps(r: RoomState, m: Message, now0: real, now: real)
    requires Inv(r, now0) && now0 <= now && Enabled(r, Recv(m), now)
    requires m.typ == STATE_UPDATE && now - r.state.lastUpdated <= UPDATE_COOLDOWN
    ensures Inv(OnUpdate(r, m, now), now)
  {
    var q := OnUpdate(r, m, now);
    BufferOnLine(r, q, m, now0, now);
    BufferConserves(r, q, m);
    BufferKeepsPace(r, q, now0, now);
    BufferKeepsOvertaking(r, q, now0);
  }

  /** Every step of the manager keeps the invariant: in particular it never panics and never blocks. */
  lemma StepKeeps(r: RoomState, a: Action, now0: real, now: real)
    requires Inv(r, now0) && now0 <= now && Enabled(r, a, now)
    ensures Inv(Step(r, a, now), now)
  {
    match a
    case Recv(m) =>
      if m.typ != STATE_UPDATE {
        LookKeeps(r, r, now0, now);
      } else if now - r.state.lastUpdated > UPDATE_COOLDOWN {
        ImmediateKeeps(r, m, now0, now);
      } else {
        BufferKeeps(r, m, now0, now);
      }
    case Join(c) => JoinKeeps(r, c, now0, now);
    case Leave(c) => LeaveKeeps(r, c, now0, now);
    case Tick => TickKeeps(r, now0, now);
    case CooldownFires => FiresKeeps(r, a, now0, now);
    case CooldownServed => CooldownKeeps(r, now0, now);
    case ShutdownFires => FiresKeeps(r, a, now0, now);
    case ShutdownServed => ShutdownKeeps(r, now0, now);
  }

  /** Whom the manager writes to in a step: everybody when it broadcasts, the newcomer when somebody joins. */
  function Recipients(r: RoomState, a: Action, now: real): set<string> {
    match a
    case Recv(m) => if m.typ == STATE_UPDATE && now - r.state.lastUpdated > UPDATE_COOLDOWN then r.clients.Keys else {}
    case Join(c) => {c.id}
    case Tick => r.clients.Keys
    case CooldownServed => r.clients.Keys
    case _ => {}
  }

  /** Between r and q every recipient got one message and nobody else got any; the message is the formula of the
      update that was applied last, whatever has happened to the room in between. */
  ghost predicate Delivered(r: RoomState, q: RoomState, a: Action, now: real) {
    && Recorded(q)
    && Addressed(r, q, Recipients(r, a, now))
    && (Steady(LineOf(q)) ==> Hears(r, q, Recipients(r, a, now), Formula(LineOf(q), now)))
  }

  lemma Delivery(r: RoomState, a: Action, now0: real, now: real)
    requires Inv(r, now0) && now0 <= now && Enabled(r, a, now)
    ensures Delivered(r, Step(r, a, now), a, now)
  {
    hide OnUpdate, OnJoin, OnLeave, BroadcastState, OnCooldown, OnShutdown, Formula, Steady;
    match a
    case Recv(m) => UpdateDelivery(r, m, now0, now);
    case Join(c) => JoinDelivery(r, c, now0, now);
    case Leave(c) => LeaveDelivery(r, c, now);
    case Tick => TickDelivery(r, now0, now);
    case CooldownFires => Silence(r, Step(r, a, now));
    case CooldownServed => CooldownEffect(r, now0, now);
    case ShutdownFires => Silence(r, Step(r, a, now));
    case ShutdownServed => ShutdownDelivery(r, now);
  }

  lemma ShutdownDelivery(r: RoomState, now: real)
    requires Membership(r) && Channels(r) && Recorded(r) && Enabled(r, ShutdownServed, now)
    ensures Delivered(r, OnShutdown(r), ShutdownServed, now)
  {
    ShutdownEffect(r, now);
    Silence(r, OnShutdown(r));
  }

  /** A step that sends nothing. */
  lemma Silence(r: RoomState, q: RoomState)
    requires forall id :: id in q.chans ==> id in r.chans && q.chans[id].sent == r.chans[id].sent
    ensures forall m: StateMessage :: Hears(r, q, {}, m)
    ensures Addressed(r, q, {})
  {
  }

  lemma UpdateDelivery(r: RoomState, m: Message, now0: real, now: real)
    requires Inv(r, now0) && now0 <= now && Enabled(r, Recv(m), now)
    ensures Delivered(r, OnUpdate(r, m, now), Recv(m), now)
  {
    if m.typ == STATE_UPDATE && now - r.state.lastUpdated > UPDATE_COOLDOWN {
      hide Formula, Steady, OnUpdate, Channels, Inv;
      ImmediateEffect(r, m, now0, now);
    } else {
      hide Formula, Steady, Channels, Membership;
      Silence(r, OnUpdate(r, m, now));
    }
  }

  lemma JoinDelivery(r: RoomState, c: Conn, now0: real, now: real)
    requires Membership(r) && Channels(r) && ShutdownGuards(r) && OnLine(r, now0)
    requires now0 <= now && Enabled(r, Join(c), now)
    ensures Delivered(r, OnJoin(r, c, now), Join(c), now)
  {
    hide Formula, Steady, Observe, OnJoin, SendState, Membership, Channels, ShutdownGuards;
    JoinIsHeard(r, c, now);
    FormulaIsSaid(r, OnJoin(r, c, now), now0, now);
  }

  lemma JoinIsHeard(r: RoomState, c: Conn, now: real)
    requires Membership(r) && Channels(r) && ShutdownGuards(r) && Enabled(r, Join(c), now)
    ensures var q := OnJoin(r, c, now);
      Hears(r, q, {c.id}, Observe(r.state, now).1)
      && q.log == r.log && q.created == r.created && q.buffered == r.buffered
  {
    hide Observe, OnJoin, SendState;
    JoinStops(r, c, now);
    JoinSends(r, c, now);
  }

  lemma LeaveDelivery(r: RoomState, c: Conn, now: real)
    requires Membership(r) && Channels(r) && Recorded(r)
    ensures Delivered(r, OnLeave(r, c, now), Leave(c), now)
  {
    hide OnLeave, Membership, Channels, Formula, Steady;
    LeaveIsSilent(r, c, now);
    Silence(r, OnLeave(r, c, now));
  }

  lemma LeaveIsSilent(r: RoomState, c: Conn, now: real)
    requires Membership(r) && Channels(r)
    ensures var q := OnLeave(r, c, now);
      && q.log == r.log && q.created == r.created && q.buffered == r.buffered
      && forall id :: id in q.chans ==> id in r.chans && q.chans[id].sent == r.chans[id].sent
  {
    KilledMembership(r, c);
    hide KillClient, Membership, Channels, MasterPart;
  }

  lemma TickDelivery(r: RoomState, now0: real, now: real)
    requires Channels(r) && OnLine(r, now0) && now0 <= now
    ensures Delivered(r, BroadcastState(r, now), Tick, now)
  {
    BroadcastIsSafe(r, now);
    FormulaIsSaid(r, BroadcastState(r, now), now0, now);
  }

  lemma FormulaIsSaid(r: RoomState, q: RoomState, now0: real, now: real)
    requires OnLine(r, now0) && now0 <= now && Recorded(q)
    requires q.log == r.log && q.created == r.created
    ensures Steady(LineOf(q)) ==> Observe(r.state, now).1 == Formula(LineOf(q), now)
  {
    assert LineOf(q) == LineOf(r);
    if Steady(LineOf(r)) {
      ObservingFollows(r.state, LineOf(r), now0, now);
    }
  }
}
