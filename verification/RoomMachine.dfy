/** The room manager of server/server/wsserver.go as a state machine on values: one function per case of the
    `select` statement in `RunManager`. Whatever would panic or block is a state of its own. */
module RoomMachine {
  import opened Options
  import opened Messages
  import opened Playback
  import opened Timers

  const UPDATE_COOLDOWN := 1.0
  const BUFFER_DELAY := 0.9
  const MASTERLESS_TIMEOUT := 300.0

  datatype Kind = Unauthorised | Guest | Master

  /** An admitted connection. Identifiers are unique, so comparing values compares pointers. */
  datatype Conn = Conn(id: string, kind: Kind)

  /** The two channels of a connection that the manager closes, and the room messages it has sent. */
  datatype Chan = Chan(sent: seq<StateMessage>, sendClosed: bool, closingClosed: bool)

  const OPEN := Chan([], false, false)

  datatype Outcome = Running | Returned | Panicked | Blocked

  /** An update that reached the playback state: the how-manieth received one it is, when it was applied, whether
      immediately, and (if not) when the cooldown timer that released it had been started and how many updates
      had been applied when it went into the buffer. */
  datatype Applied = Applied(index: nat, at: real, immediate: bool, armedAt: real, before: nat)

  /** History of updates: every update message received and its fate. */
  datatype Log = Log(received: seq<Message>, applied: seq<Applied>, superseded: seq<nat>,
                     pending: nat, armedAt: real, appliedBefore: nat)

  /** History of masters: the last moment one was present, and whether the shutdown timer has ever been reset
      over an unread expiry. */
  datatype Presence = Presence(mastersLeftAt: real, staleReset: bool)

  datatype RoomState = RoomState(sem: Semantics, created: real,
                                 clients: map<string, Conn>, masters: map<string, Conn>, chans: map<string, Chan>,
                                 state: PlaybackState, buffered: Option<Message>,
                                 cooldown: Timer, shutdown: Timer, outcome: Outcome,
                                 log: Log, presence: Presence)

  datatype Action =
    | Recv(m: Message)
    | Join(c: Conn)
    | Leave(c: Conn)
    | Tick
    | CooldownFires
    | CooldownServed
    | ShutdownFires
    | ShutdownServed

  /** A new room whose manager has just started. */
  function NewRoom(sem: Semantics, now: real): RoomState {
    RoomState(sem, now, map[], map[], map[],
              PlaybackState("", STOPPED, 0.0, 1.0, 0.0, now), None,
              Stop(NewTimer(now, UPDATE_COOLDOWN), sem), NewTimer(now, MASTERLESS_TIMEOUT), Running,
              Log([], [], [], 0, now, 0), Presence(now, false))
  }

  // Sending and closing

  predicate IsOpen(ch: Chan) {
    !ch.sendClosed && !ch.closingClosed
  }

  /** Sending the same message to some clients; sending on a closed channel panics. */
  function Deliver(r: RoomState, to: set<string>, m: StateMessage): RoomState {
    if exists id :: id in to && !(id in r.chans && !r.chans[id].sendClosed)
    then r.(outcome := Panicked)
    else r.(chans := map id | id in r.chans ::
                       if id in to then r.chans[id].(sent := r.chans[id].sent + [m]) else r.chans[id])
  }

  function BroadcastState(r: RoomState, now: real): RoomState {
    var (st, m) := Observe(r.state, now);
    Deliver(r.(state := st), r.clients.Keys, m)
  }

  function SendState(r: RoomState, cid: string, now: real): RoomState {
    var (st, m) := Observe(r.state, now);
    if cid in r.clients then Deliver(r.(state := st), {cid}, m) else r.(state := st)
  }

  function JoinClient(r: RoomState, c: Conn): RoomState {
    r.(clients := r.clients[c.id := c],
       masters := if c.kind == Master then r.masters[c.id := c] else r.masters,
       chans := if c.id in r.chans then r.chans else r.chans[c.id := OPEN])
  }

  /** Closing a closed channel panics. */
  function CloseChannels(r: RoomState, ids: set<string>): RoomState {
    if exists id :: id in ids && !(id in r.chans && IsOpen(r.chans[id]))
    then r.(outcome := Panicked)
    else r.(chans := map id | id in r.chans ::
                       if id in ids then r.chans[id].(sendClosed := true, closingClosed := true) else r.chans[id])
  }

  function KillClient(r: RoomState, c: Conn): RoomState {
    if c.id in r.clients && r.clients[c.id] == c
    then CloseChannels(r.(clients := r.clients - {c.id}, masters := r.masters - {c.id}), {c.id})
    else r
  }

  /** The deferred loop: every client that is left is killed, in whatever order. */
  function KillAll(r: RoomState): RoomState {
    CloseChannels(r.(clients := map[], masters := r.masters - r.clients.Keys), r.clients.Keys)
  }

  // The cases of the select statement

  /** An update reaches the playback state. */
  function UpdateState(r: RoomState, m: Message, entry: Applied): RoomState
    requires m.payload.UpdatePayload?
  {
    r.(state := ApplyUpdate(m.payload.update, entry.at - m.receivedAt, entry.at),
       log := r.log.(applied := r.log.applied + [entry]))
  }

  /** An update is applied and broadcast. */
  function Apply(r: RoomState, m: Message, entry: Applied): RoomState
    requires m.payload.UpdatePayload?
  {
    BroadcastState(UpdateState(r, m, entry), entry.at)
  }

  /** A received update goes on record. */
  function Record(r: RoomState, m: Message): RoomState {
    r.(log := r.log.(received := r.log.received + [m]))
  }

  /** The update that was received last is applied at once; the buffer stays as it is. */
  function ApplyAtOnce(r: RoomState, m: Message, now: real): RoomState
    requires m.payload.UpdatePayload? && r.log.received != []
  {
    Apply(r, m, Applied(|r.log.received| - 1, now, true, now, |r.log.applied|))
  }

  /** The update that was received last takes the place of the one that waits, or starts the cooldown timer. */
  function Hold(r: RoomState, m: Message, now: real): RoomState
    requires r.log.received != []
  {
    var log := r.log.(pending := |r.log.received| - 1, appliedBefore := |r.log.applied|);
    if r.buffered.None? then
      r.(cooldown := Reset(r.cooldown, r.sem, now, BUFFER_DELAY), buffered := Some(m), log := log.(armedAt := now))
    else
      r.(buffered := Some(m), log := log.(superseded := r.log.superseded + [r.log.pending]))
  }

  function OnUpdate(r: RoomState, m: Message, now: real): RoomState {
    if m.typ != STATE_UPDATE then r
    else if !m.payload.UpdatePayload? then r.(outcome := Panicked)
    else if now - r.state.lastUpdated > UPDATE_COOLDOWN then ApplyAtOnce(Record(r, m), m, now)
    else Hold(Record(r, m), m, now)
  }

  /** The update that waits is applied, and the buffer is empty. */
  function Release(r: RoomState, now: real): RoomState
    requires r.buffered.Some? && r.buffered.value.payload.UpdatePayload?
  {
    var entry := Applied(r.log.pending, now, false, r.log.armedAt, r.log.appliedBefore);
    Apply(r, r.buffered.value, entry).(buffered := None)
  }

  function OnCooldown(r: RoomState, now: real): RoomState
    requires r.cooldown.unread
  {
    var r := r.(cooldown := Receive(r.cooldown));
    if r.buffered.None? then r
    else if !r.buffered.value.payload.UpdatePayload? then r.(outcome := Panicked)
    else Release(r, now)
  }

  /** Stops the shutdown timer and drains its channel if it had expired; the drain blocks on an empty channel. */
  function StopShutdown(r: RoomState): RoomState {
    var stopped := Stop(r.shutdown, r.sem);
    if Stops(r.shutdown, r.sem) then r.(shutdown := stopped)
    else if stopped.unread then r.(shutdown := Receive(stopped))
    else r.(shutdown := stopped, outcome := Blocked)
  }

  function OnJoin(r: RoomState, c: Conn, now: real): RoomState {
    var r := SendState(JoinClient(r, c), c.id, now);
    if c.kind == Master && |r.masters| == 1 then StopShutdown(r) else r
  }

  /** No master is left, so the shutdown timer starts anew; whether one has been until now goes into the history. */
  function StartShutdown(r: RoomState, until: bool, now: real): RoomState {
    r.(shutdown := Reset(r.shutdown, r.sem, now, MASTERLESS_TIMEOUT),
       presence := Presence(if until then now else r.presence.mastersLeftAt,
                            r.presence.staleReset || r.shutdown.unread))
  }

  function OnLeave(r: RoomState, c: Conn, now: real): RoomState {
    var left := KillClient(r, c);
    if c.kind == Master && |left.masters| == 0 then StartShutdown(left, r.masters != map[], now) else left
  }

  /** The shutdown timer's expiry has been received: the manager is about to return. */
  function StopTimers(r: RoomState): RoomState
    requires r.shutdown.unread
  {
    r.(shutdown := Stop(Receive(r.shutdown), r.sem), cooldown := Stop(r.cooldown, r.sem), outcome := Returned)
  }

  function OnShutdown(r: RoomState): RoomState
    requires r.shutdown.unread
  {
    KillAll(StopTimers(r))
  }

  /** Whether a case of the select statement can be taken: timers fire when due, channels deliver what they hold. */
  predicate Ready(r: RoomState, a: Action, now: real) {
    && r.outcome == Running
    && match a
       case CooldownFires => CanFire(r.cooldown, now)
       case CooldownServed => r.cooldown.unread
       case ShutdownFires => CanFire(r.shutdown, now)
       case ShutdownServed => r.shutdown.unread
       case _ => true
  }

  /** What the rest of the server owes the manager: typed messages from the past, and one join per connection. */
  predicate Expected(r: RoomState, a: Action, now: real) {
    match a
    case Recv(m) => Agrees(m.typ, m.payload) && m.receivedAt <= now
    case Join(c) => c.id !in r.chans
    case _ => true
  }

  predicate Enabled(r: RoomState, a: Action, now: real) {
    Ready(r, a, now) && Expected(r, a, now)
  }

  function Step(r: RoomState, a: Action, now: real): RoomState
    requires Ready(r, a, now)
  {
    match a
    case Recv(m) => OnUpdate(r, m, now)
    case Join(c) => OnJoin(r, c, now)
    case Leave(c) => OnLeave(r, c, now)
    case Tick => BroadcastState(r, now)
    case CooldownFires => r.(cooldown := Fire(r.cooldown))
    case CooldownServed => OnCooldown(r, now)
    case ShutdownFires => r.(shutdown := Fire(r.shutdown))
    case ShutdownServed => OnShutdown(r)
  }
}
