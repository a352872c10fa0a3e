/** The client's side of a room in client/src/playback.js: following what the room says, and proposing what the
    player does. The video player itself is known by its fields and by the calls made on it. */
module Player {
  import opened Messages
  import opened Playback
  import opened Latency

  const DURATION_TOLERANCE := 0.5

  datatype Call = CallStop | CallPlay | CallPause

  /** Where a client that has estimated the latency `lat` wants to be when it handles a state. */
  function Target(state: StateMessage, lat: real): real {
    state.position + lat
  }

  function Tolerance(lat: real): real {
    Max(lat, DURATION_TOLERANCE)
  }

  /** Where the player is after following a state: it stays if it is within the tolerance, and seeks otherwise. */
  function Followed(current: real, state: StateMessage, lat: real): (position: real)
    ensures Abs(position - Target(state, lat)) <= Tolerance(lat)
    ensures position == current || position == Target(state, lat)
    ensures position != current ==> Abs(current - Target(state, lat)) > Tolerance(lat)
  {
    if Abs(current - Target(state, lat)) > Tolerance(lat) then Target(state, lat) else current
  }

  class VideoPlayer {
    var currentTime: real
    var speed: real
    var duration: real
    var source: string
    var stopped: bool
    var playing: bool
    var paused: bool
    var ended: bool

    /** The calls made on the player so far. */
    var calls: seq<Call>

    /** Follows a state: the player ends up within the tolerance of the target, having moved only if it was not; it
        plays at the room's speed, and is told what to do exactly if it is not already doing it. */
    method UpdateLocalState(state: StateMessage, localLat: real)
      modifies this`currentTime, this`speed, this`calls
      ensures currentTime == Followed(old(currentTime), state, localLat)
      ensures speed == state.speed
      ensures state.status == 0 ==> calls == old(calls) + if stopped || ended then [] else [CallStop]
      ensures state.status == 1 ==> calls == old(calls) + if playing then [] else [CallPlay]
      ensures state.status == 2 ==> calls == old(calls) + if paused then [] else [CallPause]
      ensures state.status !in {0, 1, 2} ==> calls == old(calls)
    {
      var position := state.position + localLat;
      var tolerance := Max(localLat, DURATION_TOLERANCE);
      if currentTime - position > tolerance || currentTime - position < -tolerance {
        currentTime := position;
      }
      if state.status == STOPPED && !stopped && !ended {
        calls := calls + [CallStop];
      } else if state.status == PLAYING && !playing {
        calls := calls + [CallPlay];
      } else if state.status == PAUSED && !paused {
        calls := calls + [CallPause];
      }
      if speed != state.speed {
        speed := state.speed;
      }
    }

    /** The update that a master proposes. A player that is in none of the three conditions leaves the status
        undefined; the message then has none, and the server reads zero. */
    method StateToUpdate(localLat: real) returns (u: Update)
      ensures u.rtt == localLat * 2.0 && Max(u.rtt / 2.0, 0.0) == Max(localLat, 0.0)
      ensures u.state.position == currentTime && u.state.speed == speed
      ensures u.state.duration == duration && u.state.source == source
      ensures u.state.status == 1 <==> playing && !paused && !stopped && !ended
      ensures u.state.status == 2 <==> paused
      ensures u.state.status in {0, 1, 2}
    {
      var status := STOPPED;
      if paused {
        status := PAUSED;
      } else if stopped || ended {
        status := STOPPED;
      } else if playing {
        status := PLAYING;
      }
      u := Update(StateMessage(source, status, currentTime, speed, duration), localLat * 2.0);
    }
  }
}
