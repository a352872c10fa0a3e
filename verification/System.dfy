/** A room with its clients: admission, the goroutines of each connection, the queues between them and the
    manager. A run is any sequence of timestamped events, in any interleaving. */
module System {
  import opened Options
  import opened Messages
  import opened Playback
  import opened Timers
  import opened RoomMachine

  /** The three goroutines of a connection; each reports its end to the manager once. */
  datatype Goroutine = Receiver | Sender | Handler

  /** A connection as the server sees it: its queue of decoded messages, everything it has ever read, whether it
      has been handed to the manager, and which goroutines have reported their end. */
  datatype Proc = Proc(kind: Kind, token: string, inbox: seq<Message>, read: seq<Message>,
                       joined: bool, left: set<Goroutine>)

  datatype Sys = Sys(room: RoomState, masterKey: string, guestKey: string,
                     procs: map<string, Proc>, queue: seq<Message>, clock: real)

  datatype Act =
    | Admit(id: string, token: string)
    | Read(id: string, frame: Frame)
    | Handle(id: string)
    | Enq(id: string)
    | Deq(id: string, g: Goroutine)
    | Serve
    | Manage(a: Action)

  datatype Event = Event(at: real, act: Act)

  function NewSystem(sem: Semantics, masterKey: string, guestKey: string, now: real): Sys {
    Sys(NewRoom(sem, now), masterKey, guestKey, map[], [], now)
  }

  /** The token check of `handleWSClient`. */
  function Authorise(s: Sys, token: string): Kind {
    if token == s.masterKey then Master else if token == s.guestKey then Guest else Unauthorised
  }

  function ConnOf(s: Sys, id: string): Conn
    requires id in s.procs
  {
    Conn(id, s.procs[id].kind)
  }

  /** What the manager does in an event, if the event is one of its own. */
  function ManagerAction(s: Sys, act: Act): Option<Action> {
    match act
    case Enq(id) => if id in s.procs then Some(Join(ConnOf(s, id))) else None
    case Deq(id, _) => if id in s.procs then Some(Leave(ConnOf(s, id))) else None
    case Serve => if s.queue != [] then Some(Recv(s.queue[0])) else None
    case Manage(a) => Some(a)
    case _ => None
  }

  predicate Possible(s: Sys, e: Event) {
    && s.clock <= e.at
    && s.room.outcome == Running
    && (match e.act
        case Admit(id, _) => id !in s.procs
        case Read(id, _) => id in s.procs && Receiver !in s.procs[id].left
        case Handle(id) => id in s.procs && Handler !in s.procs[id].left && s.procs[id].inbox != []
        case Enq(id) => id in s.procs && !s.procs[id].joined
        case Deq(id, g) => id in s.procs && g !in s.procs[id].left
        case Serve => s.queue != []
        case Manage(a) => !a.Recv? && !a.Join? && !a.Leave?)
    && (ManagerAction(s, e.act).Some? ==> Ready(s.room, ManagerAction(s, e.act).value, e.at))
  }

  /** `handleVChamberClient`: masters' updates go to the room, everything else is answered or dropped. A payload
      of the wrong type would crash the server. */
  function HandleMessage(s: Sys, id: string): Sys
    requires id in s.procs && s.procs[id].inbox != []
  {
    var p := s.procs[id];
    var m := p.inbox[0].(sender := id);
    var s := s.(procs := s.procs[id := p.(inbox := p.inbox[1..])]);
    if m.typ == PING && !m.payload.PingPayload? then s.(room := s.room.(outcome := Panicked))
    else if m.typ == STATE_UPDATE && p.kind == Master then s.(queue := s.queue + [m])
    else s
  }

  /** What the event changes outside the manager. */
  function Outside(s: Sys, e: Event): Sys
    requires Possible(s, e)
  {
    match e.act
    case Admit(id, token) =>
      if Authorise(s, token) == Unauthorised then s
      else s.(procs := s.procs[id := Proc(Authorise(s, token), token, [], [], false, {})])
    case Read(id, frame) =>
      (match Received(frame, e.at)
       case None => s
       case Some(m) =>
         var p := s.procs[id];
         s.(procs := s.procs[id := p.(inbox := p.inbox + [m], read := p.read + [m])]))
    case Handle(id) => HandleMessage(s, id)
    case Enq(id) => s.(procs := s.procs[id := s.procs[id].(joined := true)])
    case Deq(id, g) => s.(procs := s.procs[id := s.procs[id].(left := s.procs[id].left + {g})])
    case Serve => s.(queue := s.queue[1..])
    case Manage(_) => s
  }

  /** One event; an event that is not enabled changes nothing. */
  function Next(s: Sys, e: Event): Sys {
    if !Possible(s, e) then s
    else
      var out := Outside(s, e).(clock := e.at);
      match ManagerAction(s, e.act)
      case None => out
      case Some(a) => out.(room := Step(s.room, a, e.at))
  }

  /** The system after a sequence of events. */
  function Exec(s: Sys, events: seq<Event>): Sys
    decreases events
  {
    if events == [] then s else Exec(Next(s, events[0]), events[1..])
  }

  /** Every event of the sequence is enabled when its turn comes. */
  predicate IsRun(s: Sys, events: seq<Event>)
    decreases events
  {
    events == [] || (Possible(s, events[0]) && IsRun(Next(s, events[0]), events[1..]))
  }

  lemma {:induction false} ExecSnoc(s: Sys, events: seq<Event>, e: Event)
    ensures Exec(s, events + [e]) == Next(Exec(s, events), e)
    ensures IsRun(s, events + [e]) <==> IsRun(s, events) && Possible(Exec(s, events), e)
    decreases events
  {
    if events == [] {
      assert events + [e] == [e];
      assert Exec(Next(s, e), []) == Next(s, e);
    } else {
      assert (events + [e])[0] == events[0] && (events + [e])[1..] == events[1..] + [e];
      ExecSnoc(Next(s, events[0]), events[1..], e);
    }
  }

  /** A prefix of a run is a run, and one more event of the run is one more step. */
  lemma {:induction false} PrefixStep(s: Sys, events: seq<Event>, i: nat)
    requires IsRun(s, events) && i < |events|
    ensures Possible(Exec(s, events[..i]), events[i])
    ensures Exec(s, events[..i + 1]) == Next(Exec(s, events[..i]), events[i])
    decreases i
  {
    if i > 0 {
      PrefixStep(Next(s, events[0]), events[1..], i - 1);
      assert events[..i][1..] == events[1..][..i - 1];
      assert events[..i + 1][1..] == events[1..][..i];
    } else {
      assert events[..1][1..] == [];
    }
  }
}
