/** The guarantees of a room over whole runs. */
module RunTheorems {
  import opened Options
  import opened Messages
  import opened Playback
  import opened Timers
  import opened RoomMachine
  import opened RoomInvariants
  import opened System
  import opened SystemInvariants

  /** Some sequence of events leads from a new room to s. */
  ghost predicate Reachable(s: Sys) {
    exists sem: Semantics, masterKey: string, guestKey: string, created: real, events: seq<Event> ::
      s == Exec(NewSystem(sem, masterKey, guestKey, created), events)
  }

  lemma ReachableIsSound(s: Sys)
    requires Reachable(s)
    ensures SysInv(s)
  {
    var sem, masterKey, guestKey, created, events :|
      s == Exec(NewSystem(sem, masterKey, guestKey, created), events);
    NewSystemInv(sem, masterKey, guestKey, created);
    RunKeeps(NewSystem(sem, masterKey, guestKey, created), events);
  }

  lemma ReachableNext(s: Sys, e: Event)
    requires Reachable(s)
    ensures Reachable(Next(s, e))
  {
    var sem, masterKey, guestKey, created, events :|
      s == Exec(NewSystem(sem, masterKey, guestKey, created), events);
    ExecSnoc(NewSystem(sem, masterKey, guestKey, created), events, e);
  }

  // ---------------------------------------------------------------------------
  // The manager and its timers
  // ---------------------------------------------------------------------------

  /** The manager never panics (no channel is closed twice, nothing is sent on a closed channel, every type
      assertion holds) and never blocks on draining the shutdown timer. */
  lemma ManagerStaysAlive(s: Sys)
    requires Reachable(s)
    ensures s.room.outcome == Running || s.room.outcome == Returned
  {
    ReachableIsSound(s);
  }

  /** An update is buffered exactly while the cooldown timer is active or has an unread expiry, and never both;
      without a master the shutdown timer is active or has an unread expiry, with one it is not active. */
  lemma TimersAgreeWithData(s: Sys)
    requires Reachable(s) && s.room.outcome == Running
    ensures s.room.buffered.Some? <==> s.room.cooldown.active || s.room.cooldown.unread
    ensures !(s.room.cooldown.active && s.room.cooldown.unread)
    ensures s.room.masters == map[] ==> s.room.shutdown.active || s.room.shutdown.unread
    ensures s.room.masters != map[] ==> !s.room.shutdown.active
  {
    ReachableIsSound(s);
  }

  /** Clients have been admitted and have joined; the masters among them are those that showed the master key. */
  lemma MastersHoldTheKey(s: Sys)
    requires Reachable(s)
    ensures forall id :: id in s.room.clients ==> id in s.procs && s.procs[id].joined
    ensures forall id :: id in s.room.clients ==>
              (id in s.room.masters <==> s.procs[id].token == s.masterKey)
    ensures forall id :: id in s.room.masters ==> id in s.room.clients && s.room.masters[id] == s.room.clients[id]
    ensures forall id :: id in s.room.clients ==>
              s.procs[id].token == s.masterKey || s.procs[id].token == s.guestKey
  {
    ReachableIsSound(s);
  }

  /** A connection's two channels are open exactly while it is a member; both are closed when it has left, and all
      are closed when the manager has returned. */
  lemma ChannelsFollowMembership(s: Sys)
    requires Reachable(s)
    ensures forall id :: id in s.room.chans ==>
              s.room.chans[id].sendClosed == s.room.chans[id].closingClosed == (id !in s.room.clients)
    ensures s.room.outcome == Returned ==>
              s.room.clients == map[] && s.room.masters == map[]
              && forall id :: id in s.procs && s.procs[id].joined ==>
                   id in s.room.chans && s.room.chans[id].sendClosed && s.room.chans[id].closingClosed
  {
    ReachableIsSound(s);
  }

  /** Nothing happens to a connection once it is closed: it stays closed and is sent nothing more. */
  lemma ClosedForGood(s: Sys, e: Event, id: string)
    requires Reachable(s) && id in s.room.chans && s.room.chans[id].sendClosed
    ensures id in Next(s, e).room.chans && Next(s, e).room.chans[id] == s.room.chans[id]
  {
    ReachableIsSound(s);
    NextKeeps(s, e);
    if Possible(s, e) {
      if ManagerAction(s, e.act).Some? {
        ManagerIsServed(s, e);
        ClosedStays(s.room, ManagerAction(s, e.act).value, s.clock, e.at, id);
      } else {
        OutsideLeavesRoom(s, e);
      }
    }
  }

  lemma ClosedStays(r: RoomState, a: Action, now0: real, now: real, id: string)
    requires Inv(r, now0) && now0 <= now && Enabled(r, a, now)
    requires id in r.chans && r.chans[id].sendClosed
    ensures id in Step(r, a, now).chans && Step(r, a, now).chans[id] == r.chans[id]
  {
    StepKeeps(r, a, now0, now);
    StepShape(r, a, now0, now);
    Delivery(r, a, now0, now);
    ClosedIsSilent(r, a, now, Step(r, a, now), id);
  }

  lemma ClosedIsSilent(r: RoomState, a: Action, now: real, q: RoomState, id: string)
    requires Channels(r) && Channels(q) && Shaped(r, q, a) && Addressed(r, q, Recipients(r, a, now))
    requires Enabled(r, a, now) && id in r.chans && r.chans[id].sendClosed
    ensures id in q.chans && q.chans[id] == r.chans[id]
  {
    assert id !in r.clients && id !in q.clients;
  }

  // ---------------------------------------------------------------------------
  // Updates
  // ---------------------------------------------------------------------------

  /** Received updates have been applied or superseded, except for the one that may be waiting; each is applied at
      most once, and never after it was superseded. */
  lemma UpdatesAreConserved(s: Sys)
    requires Reachable(s)
    ensures |s.room.log.received| ==
              |s.room.log.applied| + |s.room.log.superseded| + if s.room.buffered.Some? then 1 else 0
    ensures forall i, j :: 0 <= i < j < |s.room.log.applied| ==>
              s.room.log.applied[i].index != s.room.log.applied[j].index
    ensures forall i :: 0 <= i < |s.room.log.applied| ==>
              s.room.log.applied[i].index < |s.room.log.received|
              && s.room.log.applied[i].index !in s.room.log.superseded
    ensures s.room.buffered.Some? ==> s.room.log.pending !in s.room.log.superseded
  {
    ReachableIsSound(s);
    FatesAreDistinct(s.room);
  }

  lemma FatesAreDistinct(r: RoomState)
    requires Conserved(r)
    ensures |r.log.received| == |r.log.applied| + |r.log.superseded| + if r.buffered.Some? then 1 else 0
    ensures forall i, j :: 0 <= i < j < |r.log.applied| ==> r.log.applied[i].index != r.log.applied[j].index
    ensures forall i :: 0 <= i < |r.log.applied| ==> r.log.applied[i].index !in r.log.superseded
    ensures r.buffered.Some? ==> r.log.pending !in r.log.superseded
  {
    var done: seq<nat> := Indices(r.log.applied);
    var gone: seq<nat> := r.log.superseded;
    var all := multiset(UpTo(|r.log.received|));
    var total := multiset(done) + multiset(gone) + if r.buffered.Some? then multiset{r.log.pending} else multiset{};
    assert total == all;
    assert |all| == |r.log.received|;
    assert |multiset(done)| == |r.log.applied|;
    forall k: nat ensures total[k] <= 1 { OnceUpTo(|r.log.received|, k); }
    forall i, j | 0 <= i < j < |r.log.applied| ensures r.log.applied[i].index != r.log.applied[j].index {
      assert done[i] == r.log.applied[i].index && done[j] == r.log.applied[j].index;
      Twice(done, i, j);
      assert total[done[i]] <= 1;
    }
    forall i | 0 <= i < |r.log.applied| ensures r.log.applied[i].index !in gone {
      assert done[i] == r.log.applied[i].index;
      var k := done[i];
      assert k in multiset(done) && total[k] <= 1;
      assert multiset(gone)[k] == 0;
    }
    if r.buffered.Some? {
      assert total[r.log.pending] <= 1;
      assert multiset(gone)[r.log.pending] == 0;
    }
  }

  lemma {:induction false} OnceUpTo(n: nat, k: nat)
    ensures multiset(UpTo(n))[k] == if k < n then 1 else 0
  {
    if n > 0 {
      OnceUpTo(n - 1, k);
      RecordReceipt(n - 1);
    }
  }

  lemma Twice(s: seq<nat>, i: nat, j: nat)
    requires i < j < |s|
    ensures s[i] == s[j] ==> multiset(s)[s[i]] >= 2
  {
    assert s == s[..i + 1] + s[i + 1..];
    assert s[i] in s[..i + 1] && s[j] in s[i + 1..];
  }

  /** Any three consecutive applied updates span at least 0.9 seconds. */
  lemma ThreeUpdatesSpan(s: Sys, i: nat)
    requires Reachable(s) && i + 2 < |s.room.log.applied|
    ensures s.room.log.applied[i + 2].at - s.room.log.applied[i].at >= 0.9
  {
    ReachableIsSound(s);
    ThreeSpan(s.room, s.clock, i);
  }

  lemma ThreeSpan(r: RoomState, now: real, i: nat)
    requires Paced(r, now) && i + 2 < |r.log.applied|
    ensures r.log.applied[i + 2].at - r.log.applied[i].at >= 0.9
  {
    var a := r.log.applied;
    var x, y, z := a[i], a[i + 1], a[i + 2];
    assert Apart(x, y) && Apart(y, z);
  }

  lemma {:induction false} ManyUpdatesSpan(s: Sys, i: nat, j: nat)
    requires Reachable(s) && i <= j < |s.room.log.applied|
    ensures s.room.log.applied[j].at - s.room.log.applied[i].at >= ((j - i) / 2) as real * 0.9
  {
    ReachableIsSound(s);
    ManySpan(s.room, s.clock, i, j);
  }

  lemma {:induction false} ManySpan(r: RoomState, now: real, i: nat, j: nat)
    requires Paced(r, now) && i <= j < |r.log.applied|
    ensures r.log.applied[j].at - r.log.applied[i].at >= ((j - i) / 2) as real * 0.9
    decreases j - i
  {
    if j - i >= 2 {
      ManySpan(r, now, i, j - 2);
      ThreeSpan(r, now, j - 2);
      assert (j - i) / 2 == (j - 2 - i) / 2 + 1;
    }
  }

  /** How many of some updates were applied in a period. */
  function AppliedWithin(applied: seq<Applied>, from: real, to: real): nat {
    if applied == [] then 0
    else
      var last := applied[|applied| - 1];
      AppliedWithin(applied[..|applied| - 1], from, to) + if from <= last.at <= to then 1 else 0
  }

  /** The first and the last update of the period, and no more of them than lie between these two. */
  lemma {:induction false} FirstAndLast(applied: seq<Applied>, from: real, to: real) returns (lo: nat, hi: nat)
    requires AppliedWithin(applied, from, to) > 0
    ensures lo <= hi < |applied| && from <= applied[lo].at && applied[hi].at <= to
    ensures AppliedWithin(applied, from, to) <= hi - lo + 1
  {
    var n := |applied| - 1;
    var front := applied[..n];
    if AppliedWithin(front, from, to) == 0 {
      return n, n;
    }
    lo, hi := FirstAndLast(front, from, to);
    if from <= applied[n].at <= to {
      hi := n;
    }
  }

  /** Rate limit: at most 2 * floor(length / 0.9) + 2 updates are applied in any interval of that length. */
  lemma UpdateRateIsBounded(s: Sys, from: real, length: real)
    requires Reachable(s) && length >= 0.0
    ensures AppliedWithin(s.room.log.applied, from, from + length) <= 2 * (length / 0.9).Floor + 2
  {
    var applied := s.room.log.applied;
    if AppliedWithin(applied, from, from + length) > 0 {
      var lo, hi := FirstAndLast(applied, from, from + length);
      ManyUpdatesSpan(s, lo, hi);
      var steps := (hi - lo) / 2;
      assert steps as real * 0.9 <= length;
      assert steps as real <= length / 0.9;
    }
  }

  /** How many of some updates were received later than the one with the given index. */
  function ReceivedLater(applied: seq<Applied>, index: nat): nat {
    if applied == [] then 0
    else
      ReceivedLater(applied[..|applied| - 1], index) + if applied[|applied| - 1].index > index then 1 else 0
  }

  /** How many updates were received later than the j-th applied one, but applied before it. */
  function Overtakers(applied: seq<Applied>, j: nat): nat
    requires j < |applied|
  {
    ReceivedLater(applied[..j], applied[j].index)
  }

  /** Only a buffered update can be overtaken, by updates applied while it waited; they are more than a second
      apart, so there are fewer of them than seconds from the start of the timer to its expiry being served, plus
      one. If the expiry is served within 0.1 seconds of being due, there is at most one. */
  lemma OvertakingIsBounded(s: Sys, j: nat)
    requires Reachable(s) && j < |s.room.log.applied|
    ensures var a := s.room.log.applied;
      && (a[j].immediate ==> Overtakers(a, j) == 0)
      && (Overtakers(a, j) > 0 ==> (Overtakers(a, j) - 1) as real < a[j].at - a[j].armedAt)
      && (a[j].at <= a[j].armedAt + 0.9 + 0.1 ==> Overtakers(a, j) <= 1)
  {
    ReachableIsSound(s);
    OvertakersOf(s.room, s.clock, j);
  }

  lemma OvertakersOf(r: RoomState, now: real, j: nat)
    requires Overtaking(r) && Paced(r, now) && j < |r.log.applied|
    ensures var a := r.log.applied;
      && (a[j].immediate ==> Overtakers(a, j) == 0)
      && (Overtakers(a, j) > 0 ==> (Overtakers(a, j) - 1) as real < a[j].at - a[j].armedAt)
      && (a[j].at <= a[j].armedAt + 0.9 + 0.1 ==> Overtakers(a, j) <= 1)
  {
    var a := r.log.applied;
    assert Overtake(a, a[j].before, j, a[j].index, a[j].armedAt);
    LaterOnes(a, a[j].before, j, a[j].index, a[j].armedAt);
    if j > a[j].before + 1 {
      assert a[j - 1].at - a[j].armedAt > (j - 1 - a[j].before) as real;
    }
  }

  lemma {:induction false} LaterOnes(a: seq<Applied>, from: nat, until: nat, index: nat, armedAt: real)
    requires from <= until <= |a| && Overtake(a, from, until, index, armedAt)
    ensures ReceivedLater(a[..until], index) == until - from
    decreases until
  {
    if until > 0 {
      assert a[..until][..until - 1] == a[..until - 1];
      LaterOnes(a, if from < until then from else from - 1, until - 1, index, armedAt);
    }
  }

  /** The update applied last was received before one that has been applied already: an older update has replaced a
      newer one. */
  predicate Regressed(applied: seq<Applied>) {
    applied != [] && exists i :: 0 <= i < |applied| - 1 && applied[i].index > applied[|applied| - 1].index
  }

  /** When a step applies an update, as many newer ones have been applied before as have been since it went into the
      buffer. So an older update replaces a newer one exactly if the cooldown expiry is served and some update has
      been applied since the buffered one arrived. */
  lemma OlderUpdateWinsExactly(s: Sys, e: Event)
    requires Reachable(s) && Possible(s, e)
    requires |Next(s, e).room.log.applied| == |s.room.log.applied| + 1
    ensures var a, n := Next(s, e).room.log.applied, |s.room.log.applied|;
      && (Regressed(a) <==> e.act == Manage(CooldownServed) && n > s.room.log.appliedBefore)
      && Overtakers(a, n) == if e.act == Manage(CooldownServed) then n - s.room.log.appliedBefore else 0
  {
    ReachableIsSound(s);
    ReachableNext(s, e);
    ReachableIsSound(Next(s, e));
    LastEntry(s, e);
    EntryRegresses(Next(s, e).room, |s.room.log.applied|);
  }

  /** What the entry of the update that a step applies says about it. */
  lemma LastEntry(s: Sys, e: Event)
    requires SysInv(s) && Possible(s, e)
    requires |Next(s, e).room.log.applied| == |s.room.log.applied| + 1
    ensures var a, n := Next(s, e).room.log.applied, |s.room.log.applied|;
      a[n].before == if e.act == Manage(CooldownServed) then s.room.log.appliedBefore else n
    ensures e.act == Manage(CooldownServed) ==> s.room.log.appliedBefore <= |s.room.log.applied|
  {
    if ManagerAction(s, e.act).Some? {
      ManagerIsServed(s, e);
      StepEntry(s.room, ManagerAction(s, e.act).value, s.clock, e.at);
    } else {
      OutsideLeavesRoom(s, e);
      assert false;
    }
  }

  lemma StepEntry(r: RoomState, a: Action, now0: real, now: real)
    requires Inv(r, now0) && now0 <= now && Enabled(r, a, now)
    ensures var q, n := Step(r, a, now).log.applied, |r.log.applied|;
      && |q| <= n + 1
      && (|q| == n + 1 ==> q[n].before == if a.CooldownServed? then r.log.appliedBefore else n)
    ensures a.CooldownServed? ==> r.log.appliedBefore <= |r.log.applied|
  {
    hide OnUpdate, OnJoin, OnLeave, BroadcastState, OnCooldown, OnShutdown;
    match a
    case Recv(m) => UpdateEntry(r, m, now0, now);
    case Join(c) => JoinLog(r, c, now);
    case Leave(c) => LeaveLog(r, c, now);
    case Tick => BroadcastIsSafe(r, now);
    case CooldownFires =>
    case CooldownServed => CooldownEffect(r, now0, now);
    case ShutdownFires =>
    case ShutdownServed => ShutdownEffect(r, now);
  }

  lemma UpdateEntry(r: RoomState, m: Message, now0: real, now: real)
    requires Inv(r, now0) && now0 <= now && Enabled(r, Recv(m), now)
    ensures var q, n := OnUpdate(r, m, now).log.applied, |r.log.applied|;
      |q| <= n + 1 && (|q| == n + 1 ==> q[n].before == n)
  {
    if m.typ == STATE_UPDATE && now - r.state.lastUpdated > UPDATE_COOLDOWN {
      ImmediateEffect(r, m, now0, now);
    }
  }

  lemma JoinLog(r: RoomState, c: Conn, now: real)
    requires Membership(r) && Channels(r) && ShutdownGuards(r) && Enabled(r, Join(c), now)
    ensures OnJoin(r, c, now).log == r.log && OnJoin(r, c, now).buffered == r.buffered
  {
    JoinStops(r, c, now);
    JoinSends(r, c, now);
  }

  lemma LeaveLog(r: RoomState, c: Conn, now: real)
    requires Membership(r) && Channels(r)
    ensures OnLeave(r, c, now).log == r.log && OnLeave(r, c, now).buffered == r.buffered
  {
    KilledMembership(r, c);
  }

  lemma EntryRegresses(r: RoomState, n: nat)
    requires Overtaking(r) && |r.log.applied| == n + 1
    ensures var a := r.log.applied;
      && a[n].before <= n && Overtakers(a, n) == n - a[n].before
      && (Regressed(a) <==> a[n].before < n)
  {
    var a := r.log.applied;
    assert Overtake(a, a[n].before, n, a[n].index, a[n].armedAt);
    LaterOnes(a, a[n].before, n, a[n].index, a[n].armedAt);
    if a[n].before < n {
      assert a[a[n].before].index > a[n].index;
    }
  }

  /** At the branch itself: an update that is applied at once leaves an older one waiting behind it, to replace it
      later, exactly if one was waiting before. */
  lemma ImmediateLeavesOlderExactly(s: Sys, e: Event)
    requires Reachable(s) && Possible(s, e) && e.act.Serve? && e.at - s.room.state.lastUpdated > 1.0
    ensures var q := Next(s, e).room; var a := q.log.applied;
      && |a| == |s.room.log.applied| + 1 && !Regressed(a)
      && q.buffered == s.room.buffered
      && (q.buffered.Some? && q.log.pending < a[|a| - 1].index && q.log.appliedBefore < |a| <==> s.room.buffered.Some?)
  {
    ReachableIsSound(s);
    ServedRoom(s, e);
    UpdatesAreGenuine(s, s.queue[0]);
    hide Next, Possible, SysInv, OnUpdate, Inv, Reachable, OnLine, Channels, Addressed, Hears;
    ImmediateEffect(s.room, s.queue[0], s.clock, e.at);
    ImmediateLeaves(s.room, Next(s, e).room, s.clock);
    OlderUpdateWinsExactly(s, e);
  }

  lemma ServedRoom(s: Sys, e: Event)
    requires SysInv(s) && Possible(s, e) && e.act.Serve?
    ensures s.queue != [] && Next(s, e).room == OnUpdate(s.room, s.queue[0], e.at) && e.act != Manage(CooldownServed)
    ensures Enabled(s.room, Recv(s.queue[0]), e.at) && Inv(s.room, s.clock) && s.clock <= e.at
    ensures s.room.outcome == Running
  {
    hide OnUpdate, Inv;
    ManagerIsServed(s, e);
  }

  lemma ImmediateLeaves(r: RoomState, q: RoomState, now: real)
    requires Inv(r, now) && r.outcome == Running && q.buffered == r.buffered
    requires q.log.applied != [] && |q.log.applied| == |r.log.applied| + 1
    requires q.log.pending == r.log.pending && q.log.appliedBefore == r.log.appliedBefore
    requires q.log.applied[|r.log.applied|].index == |r.log.received|
    ensures q.buffered.Some? ==> q.log.pending < |r.log.received| && q.log.appliedBefore < |q.log.applied|
  {
  }

  /** Within a second of the last update the newest update is the one that waits, whether one has been waiting or not;
      nothing else changes, and nobody is told. */
  lemma NewestIsHeld(s: Sys, e: Event)
    requires Reachable(s) && Possible(s, e) && e.act.Serve? && e.at - s.room.state.lastUpdated <= 1.0
    ensures var r, q := s.room, Next(s, e).room;
      && q.buffered == Some(s.queue[0])
      && q.log.received == r.log.received + [s.queue[0]] && q.log.pending == |r.log.received|
      && q.log.superseded == (if r.buffered.Some? then r.log.superseded + [r.log.pending] else r.log.superseded)
      && q.log.applied == r.log.applied && q.state == r.state && q.chans == r.chans
      && (r.buffered.Some? ==> q.cooldown == r.cooldown)
  {
    ReachableIsSound(s);
    ServedRoom(s, e);
    UpdatesAreGenuine(s, s.queue[0]);
    hide Next, Possible, SysInv, Inv, Reachable;
  }

  /** The update with this index has been applied as soon as it was received. */
  predicate AppliedAtOnce(applied: seq<Applied>, index: nat) {
    exists i :: 0 <= i < |applied| && applied[i].index == index && applied[i].immediate
  }

  /** Only older updates than the one that waits have been superseded, and all newer ones have been applied at once. */
  ghost predicate NewestWaits(r: RoomState) {
    && (forall k :: k in r.log.superseded ==> k < |r.log.received|)
    && (r.buffered.Some? ==>
          && r.log.pending < |r.log.received|
          && (forall k :: k in r.log.superseded ==> k < r.log.pending)
          && (forall k: nat :: r.log.pending < k < |r.log.received| ==> AppliedAtOnce(r.log.applied, k)))
  }

  lemma AppliedAtOnceStays(a: seq<Applied>, e: Applied, k: nat)
    requires AppliedAtOnce(a, k) || (e.index == k && e.immediate)
    ensures AppliedAtOnce(a + [e], k)
  {
    var b := a + [e];
    assert b[|a|] == e;
    if AppliedAtOnce(a, k) {
      var i :| 0 <= i < |a| && a[i].index == k && a[i].immediate;
      assert b[i] == a[i];
    }
  }

  lemma ImmediateKeepsNewest(r: RoomState, q: RoomState, m: Message, e: Applied)
    requires NewestWaits(r) && q.buffered == r.buffered && e.index == |r.log.received| && e.immediate
    requires q.log == r.log.(received := r.log.received + [m], applied := r.log.applied + [e])
    ensures NewestWaits(q)
  {
    if q.buffered.Some? {
      forall k: nat | r.log.pending < k < |q.log.received| ensures AppliedAtOnce(q.log.applied, k) {
        AppliedAtOnceStays(r.log.applied, e, k);
      }
    }
  }

  lemma UpdateKeepsNewest(r: RoomState, m: Message, now0: real, now: real)
    requires Inv(r, now0) && now0 <= now && Enabled(r, Recv(m), now) && NewestWaits(r)
    ensures NewestWaits(OnUpdate(r, m, now))
  {
    if m.typ == STATE_UPDATE && now - r.state.lastUpdated > UPDATE_COOLDOWN {
      hide Inv, OnUpdate, NewestWaits;
      ImmediateEffect(r, m, now0, now);
      ImmediateKeepsNewest(r, OnUpdate(r, m, now), m, Applied(|r.log.received|, now, true, now, |r.log.applied|));
    }
  }

  lemma StepKeepsNewest(r: RoomState, a: Action, now0: real, now: real)
    requires Inv(r, now0) && now0 <= now && Enabled(r, a, now) && NewestWaits(r)
    ensures NewestWaits(Step(r, a, now))
  {
    hide OnUpdate, OnJoin, OnLeave, BroadcastState, OnCooldown, OnShutdown;
    match a
    case Recv(m) => UpdateKeepsNewest(r, m, now0, now);
    case Join(c) => JoinLog(r, c, now);
    case Leave(c) => LeaveLog(r, c, now);
    case Tick => BroadcastIsSafe(r, now);
    case CooldownFires =>
    case CooldownServed => CooldownEffect(r, now0, now);
    case ShutdownFires =>
    case ShutdownServed => ShutdownEffect(r, now);
  }

  lemma {:induction false} RunKeepsNewest(s: Sys, events: seq<Event>)
    requires SysInv(s) && NewestWaits(s.room)
    ensures NewestWaits(Exec(s, events).room)
    decreases events
  {
    if events != [] {
      NextKeepsNewest(s, events[0]);
      NextKeeps(s, events[0]);
      hide Next, SysInv, NewestWaits;
      RunKeepsNewest(Next(s, events[0]), events[1..]);
    }
  }

  lemma NextKeepsNewest(s: Sys, e: Event)
    requires SysInv(s) && NewestWaits(s.room)
    ensures NewestWaits(Next(s, e).room)
  {
    if Possible(s, e) {
      if ManagerAction(s, e.act).Some? {
        ManagerIsServed(s, e);
        hide Step;
        StepKeepsNewest(s.room, ManagerAction(s, e.act).value, s.clock, e.at);
      } else {
        OutsideLeavesRoom(s, e);
      }
    }
  }

  /** In every run: whatever has been superseded is older than the update that waits, and whatever is newer has been
      applied at once. So of the updates that were not applied at once the newest one gets through. */
  lemma NewestGetsThrough(s: Sys)
    requires Reachable(s) && s.room.buffered.Some?
    ensures var log := s.room.log;
      && log.pending < |log.received| && log.received[log.pending] == s.room.buffered.value
      && (forall k :: k in log.superseded ==> k < log.pending)
      && (forall k: nat :: log.pending < k < |log.received| ==> AppliedAtOnce(log.applied, k))
  {
    ReachableIsSound(s);
    var sem, masterKey, guestKey, created, events :|
      s == Exec(NewSystem(sem, masterKey, guestKey, created), events);
    NewSystemInv(sem, masterKey, guestKey, created);
    hide Next, Exec;
    RunKeepsNewest(NewSystem(sem, masterKey, guestKey, created), events);
  }

  // ---------------------------------------------------------------------------
  // The playback clock
  // ---------------------------------------------------------------------------

  /** In any reachable state, whoever asks at time t is told the formula of the update that was applied last: ticks,
      joins, leaves, buffered and superseded updates have left no trace. */
  lemma RoomSaysTheFormula(s: Sys, t: real)
    requires Reachable(s) && s.clock <= t
    ensures Recorded(s.room)
    ensures Steady(LineOf(s.room)) ==> Observe(s.room.state, t).1 == Formula(LineOf(s.room), t)
  {
    ReachableIsSound(s);
    if Steady(LineOf(s.room)) {
      ObservingFollows(s.room.state, LineOf(s.room), s.clock, t);
    }
  }

  /** As long as no update has been applied, the room has stopped at the start of no video. */
  lemma UntouchedRoomSaysNothing(s: Sys, t: real)
    requires Reachable(s) && s.clock <= t && s.room.log.applied == []
    ensures Observe(s.room.state, t).1 == StateMessage("", 0, 0.0, 1.0, 0.0)
  {
    RoomSaysTheFormula(s, t);
    hide Reachable, Observe;
    assert LineOf(s.room) == Initial(s.room.created);
  }

  /** Whatever happens, exactly the recipients of the event are sent one message, and it is the formula. */
  lemma EveryMessageIsTheFormula(s: Sys, e: Event)
    requires Reachable(s) && Possible(s, e)
    ensures var q := Next(s, e).room;
            var a := ManagerAction(s, e.act);
            var to := if a.Some? then Recipients(s.room, a.value, e.at) else {};
      && Recorded(q)
      && Addressed(s.room, q, to)
      && (Steady(LineOf(q)) ==> Hears(s.room, q, to, Formula(LineOf(q), e.at)))
  {
    ReachableIsSound(s);
    if ManagerAction(s, e.act).Some? {
      ManagerIsServed(s, e);
      Delivery(s.room, ManagerAction(s, e.act).value, s.clock, e.at);
    } else {
      OutsideLeavesRoom(s, e);
      Silence(s.room, s.room);
    }
  }

  // ---------------------------------------------------------------------------
  // Provenance and order
  // ---------------------------------------------------------------------------

  /** A frame from a connection is kept if and only if it decodes, and waits for the connection's handler. */
  lemma FramesAreRead(s: Sys, id: string, frame: Frame, at: real)
    requires Possible(s, Event(at, Read(id, frame)))
    ensures var p, q := s.procs[id], Next(s, Event(at, Read(id, frame)));
      if frame.Envelope? && Decodes(frame.typ, frame.raw) then
        && id in q.procs && |q.procs[id].read| == |p.read| + 1 && q.procs[id].read[..|p.read|] == p.read
        && q.procs[id].inbox == p.inbox + [q.procs[id].read[|p.read|]]
        && var m := q.procs[id].read[|p.read|];
           m.typ == frame.typ && m.receivedAt == at && Carries(frame.typ, m.payload, frame.raw)
      else q == s.(clock := at)
  {
    ReceivedExactly(frame, at);
  }

  /** Every update that is queued, buffered or applied is a typed update from a connection with the master key. */
  lemma UpdatesAreGenuine(s: Sys, m: Message)
    requires Reachable(s)
    requires m in s.queue || m in s.room.log.received || s.room.buffered == Some(m)
    ensures IsUpdate(m) && m.sender in s.procs && s.procs[m.sender].token == s.masterKey
  {
    ReachableIsSound(s);
    assert Genuine(s, m);
  }

  /** The manager receives each master's updates in the order in which the master sent them, without gaps; none gets
      lost, for what it has not received yet is queued or has not been looked at. */
  lemma UpdatesStayInOrder(s: Sys, id: string)
    requires Reachable(s) && id in s.procs && s.procs[id].token == s.masterKey
    ensures From(s.room.log.received, id) <= From(s.room.log.received + s.queue, id) <= Proposals(s.procs[id].read, id)
    ensures From(s.room.log.received + s.queue, id) + Proposals(s.procs[id].inbox, id)
            == Proposals(s.procs[id].read, id)
  {
    ReachableIsSound(s);
    FromPrefix(s.room.log.received, s.queue, id);
    assert Accounted(s.room.log.received + s.queue, s.procs[id], id);
  }

  lemma {:induction false} FromPrefix(a: seq<Message>, b: seq<Message>, id: string)
    ensures From(a, id) <= From(a + b, id)
    decreases b
  {
    if b == [] {
      assert a + b == a;
    } else {
      var front, last := b[..|b| - 1], b[|b| - 1];
      assert a + b == a + front + [last];
      FromSnoc(a + front, last, id);
      FromPrefix(a, front, id);
    }
  }
}
