/** One-shot timers of the Go runtime, with their one-place channel. */
module Timers {

  /** Up to Go 1.22 `Stop` and `Reset` leave an unread expiry in the channel; from Go 1.23 on they discard it. */
  datatype Semantics = Keeping | Discarding

  datatype Timer = Timer(active: bool, deadline: real, unread: bool)

  function NewTimer(now: real, delay: real): Timer {
    Timer(true, now + delay, false)
  }

  /** What `Stop` returns: whether it prevented an expiry from being received. */
  predicate Stops(t: Timer, sem: Semantics) {
    t.active || (sem.Discarding? && t.unread)
  }

  function Stop(t: Timer, sem: Semantics): Timer {
    t.(active := false, unread := t.unread && sem.Keeping?)
  }

  function Reset(t: Timer, sem: Semantics, now: real, delay: real): Timer {
    Timer(true, now + delay, t.unread && sem.Keeping?)
  }

  /** The runtime never fires early. */
  predicate CanFire(t: Timer, now: real) {
    t.active && t.deadline <= now
  }

  /** The expiry goes into the channel, or is dropped if one is still unread there. */
  function Fire(t: Timer): Timer {
    t.(active := false, unread := true)
  }

  /** Receiving from the channel; the receiver blocks unless an expiry is unread. */
  function Receive(t: Timer): Timer
    requires t.unread
  {
    t.(unread := false)
  }
}
