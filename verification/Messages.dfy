/** The wire messages of server/server/message.go and how they are decoded. */
module Messages {
  import opened Options

  const HELLO := 0
  const PING := 1
  const PONG := 2
  const STATE_BROADCAST := 3
  const STATE_UPDATE := 4
  const RESERVED := 99

  /** What a room announces: the playback position at the moment of sending. */
  datatype StateMessage =
    StateMessage(source: string, status: int, position: real, speed: real, duration: real)

  /** What a master proposes, with the round-trip time it has estimated. */
  datatype Update = Update(state: StateMessage, rtt: real)

  /** The payload pointer of a message; `Absent` is nil. */
  datatype Payload =
    | Absent
    | HelloPayload(authority: string)
    | PingPayload(sendTime: real)
    | PongPayload(sentAt: real, serviceTime: real)
    | StatePayload(state: StateMessage)
    | UpdatePayload(update: Update)
    | RawPayload(text: string)

  datatype Message = Message(sender: string, receivedAt: real, typ: int, payload: Payload)

  /** Decoding JSON into a fresh variable: what the variable holds afterwards, and whether there was no error. */
  datatype Parsed<T> = Parsed(value: T, ok: bool)

  /** The raw payload of an envelope, given by what decoding it as each of the payload types yields. */
  datatype Raw = Raw(text: string,
                     hello: Parsed<string>,
                     ping: Parsed<real>,
                     pong: Parsed<(real, real)>,
                     state: Parsed<StateMessage>,
                     update: Parsed<Update>)

  /** A frame as JSON decoding sees it. */
  datatype Frame = Garbage | Envelope(typ: int, raw: Raw)

  /** A payload agrees with a tag when the tag's handler may assert its type. */
  predicate Agrees(typ: int, payload: Payload) {
    && (typ == HELLO ==> payload.HelloPayload?)
    && (typ == PING ==> payload.PingPayload?)
    && (typ == PONG ==> payload.PongPayload?)
    && (typ == STATE_BROADCAST ==> payload.StatePayload?)
    && (typ == STATE_UPDATE ==> payload.UpdatePayload?)
    && (typ == RESERVED ==> payload.RawPayload?)
    && (typ !in {HELLO, PING, PONG, STATE_BROADCAST, STATE_UPDATE, RESERVED} ==> payload.Absent?)
  }

  /** The payload that a tag demands, decoded or not; other tags leave the payload alone. */
  function Decode(typ: int, raw: Raw): Option<Parsed<Payload>> {
    if typ == HELLO then Some(Parsed(HelloPayload(raw.hello.value), raw.hello.ok))
    else if typ == PING then Some(Parsed(PingPayload(raw.ping.value), raw.ping.ok))
    else if typ == PONG then Some(Parsed(PongPayload(raw.pong.value.0, raw.pong.value.1), raw.pong.ok))
    else if typ == STATE_BROADCAST then Some(Parsed(StatePayload(raw.state.value), raw.state.ok))
    else if typ == STATE_UPDATE then Some(Parsed(UpdatePayload(raw.update.value), raw.update.ok))
    else if typ == RESERVED then Some(Parsed(RawPayload(raw.text), true))
    else None
  }

  /** Whether a frame decodes as its tag demands. */
  predicate WellTyped(frame: Frame) {
    && frame.Envelope?
    && (Decode(frame.typ, frame.raw).Some? ==> Decode(frame.typ, frame.raw).value.ok)
  }

  /** What the receiving goroutine gets from a frame that arrives at time `now`. */
  function Received(frame: Frame, now: real): (r: Option<Message>)
    ensures r.Some? ==> frame.Envelope? && r.value.typ == frame.typ && r.value.receivedAt == now
    ensures r.Some? ==> Agrees(r.value.typ, r.value.payload)
    ensures r.Some? && r.value.typ == STATE_UPDATE ==>
              frame.raw.update == Parsed(r.value.payload.update, true)
    ensures r.Some? <==> WellTyped(frame)
  {
    if !WellTyped(frame) then None
    else
      match Decode(frame.typ, frame.raw)
      case None => Some(Message("", now, frame.typ, Absent))
      case Some(parsed) => Some(Message("", now, frame.typ, parsed.value))
  }

  /** A payload is the decoded value of the kind that its tag stands for on the wire, with each field in its place. */
  predicate Carries(typ: int, payload: Payload, raw: Raw) {
    && (typ == 0 ==> payload == HelloPayload(raw.hello.value))
    && (typ == 1 ==> payload == PingPayload(raw.ping.value))
    && (typ == 2 ==> payload == PongPayload(raw.pong.value.0, raw.pong.value.1))
    && (typ == 3 ==> payload == StatePayload(raw.state.value))
    && (typ == 4 ==> payload == UpdatePayload(raw.update.value))
    && (typ == 99 ==> payload == RawPayload(raw.text))
  }

  /** The value that a tag on the wire asks for has been decoded without error; other tags ask for none. */
  predicate Decodes(typ: int, raw: Raw) {
    && (typ == 0 ==> raw.hello.ok)
    && (typ == 1 ==> raw.ping.ok)
    && (typ == 2 ==> raw.pong.ok)
    && (typ == 3 ==> raw.state.ok)
    && (typ == 4 ==> raw.update.ok)
  }

  /** A frame is received exactly if what its tag asks for decodes, and the message then carries just that. */
  lemma ReceivedExactly(frame: Frame, now: real)
    ensures Received(frame, now).Some? <==> frame.Envelope? && Decodes(frame.typ, frame.raw)
    ensures Received(frame, now).Some? ==>
              var m := Received(frame, now).value;
              && m.typ == frame.typ && m.receivedAt == now && m.sender == ""
              && Carries(frame.typ, m.payload, frame.raw)
              && (frame.typ !in {0, 1, 2, 3, 4, 99} ==> m.payload == Absent)
  {
  }

  /** The answer to a ping: it repeats the ping's time, and says how long the ping was in the server. */
  function PongFor(ping: Message, sentAt: real): Payload
    requires ping.payload.PingPayload?
  {
    PongPayload(ping.payload.sendTime, sentAt - ping.receivedAt)
  }

  /** A message under construction, as `Deserialise` finds it: the caller's fresh variable. */
  class MessageCell {
    var sender: string
    var receivedAt: real
    var typ: int
    var payload: Payload

    constructor ()
      ensures Value() == Message("", 0.0, 0, Absent)
    {
      sender, receivedAt, typ, payload := "", 0.0, 0, Absent;
    }

    function Value(): Message
      reads this
    {
      Message(sender, receivedAt, typ, payload)
    }

    /** Fills the cell from a frame. A frame that is no envelope leaves the cell alone; a payload that does not
        decode has already set everything when the error is returned. An unknown tag leaves the old payload, so
        that only a cell without one agrees with it; a known tag makes every cell agree. */
    method Deserialise(frame: Frame, now: real) returns (ok: bool)
      modifies this
      ensures ok <==> frame.Envelope? && Decodes(frame.typ, frame.raw)
      ensures frame.Envelope? ==> Carries(frame.typ, payload, frame.raw)
      ensures frame.Envelope? && frame.typ !in {0, 1, 2, 3, 4, 99} ==> payload == old(payload)
      ensures ok && old(payload) == Absent ==> Value() == Received(frame, now).value.(sender := old(sender))
      ensures ok && Decode(frame.typ, frame.raw).Some? ==>
                Value() == Received(frame, now).value.(sender := old(sender))
      ensures frame.Garbage? ==> Value() == old(Value())
      ensures frame.Envelope? ==>
                typ == frame.typ && receivedAt == now && sender == old(sender)
                && payload == match Decode(frame.typ, frame.raw)
                              case None => old(payload)
                              case Some(parsed) => parsed.value
      ensures frame.Envelope? && (Decode(frame.typ, frame.raw).Some? || old(payload) == Absent) ==> Agrees(typ, payload)
    {
      if frame.Garbage? {
        return false;
      }
      receivedAt := now;
      typ := frame.typ;
      match Decode(typ, frame.raw)
      case None =>
        return true;
      case Some(parsed) =>
        payload := parsed.value;
        return parsed.ok;
    }
  }
}
