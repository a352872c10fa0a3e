/** The playback clock of a room (server/server/wsserver.go) and the formula it refines. */
module Playback {
  import opened Messages

  const STOPPED := 0
  const PLAYING := 1
  const PAUSED := 2

  datatype PlaybackState =
    PlaybackState(source: string, status: int, position: real, speed: real, duration: real, lastUpdated: real)

  function Max(a: real, b: real): (r: real)
    ensures r >= a && r >= b && (r == a || r == b)
  {
    if a >= b then a else b
  }

  /** The position that the stored state stands for at time `now`. */
  function Projected(st: PlaybackState, now: real): real {
    if st.status == PLAYING then st.position + (now - st.lastUpdated) * st.speed else st.position
  }

  /** `checkPosition`: past the end of the video the room stops there. */
  function CheckPosition(st: PlaybackState, now: real): PlaybackState {
    if Projected(st, now) > st.duration
    then st.(position := st.duration, status := STOPPED, lastUpdated := now)
    else st
  }

  /** `UpdateState`: an update that the server has held for `age` replaces the whole state. */
  function ApplyUpdate(u: Update, age: real, now: real): PlaybackState {
    var position :=
      if u.state.status == PLAYING
      then u.state.position + (Max(u.rtt / 2.0, 0.0) + age) * u.state.speed
      else u.state.position;
    PlaybackState(u.state.source, u.state.status, position, u.state.speed, u.state.duration, now)
  }

  /** The message that `GetCurrentStateMessage` builds once it has checked the position. */
  function Report(st: PlaybackState, now: real): StateMessage {
    StateMessage(st.source, st.status, Projected(st, now), st.speed, st.duration)
  }

  /** `GetCurrentStateMessage` on a state: what it leaves behind and what it says. */
  function Observe(st: PlaybackState, now: real): (PlaybackState, StateMessage) {
    var checked := CheckPosition(st, now);
    (checked, Report(checked, now))
  }

  /** A straight line through time: where playback is if nobody touches it. */
  datatype Timeline =
    Timeline(source: string, status: int, base: real, speed: real, duration: real, anchor: real)

  /** The line that an update describes, from the moment the server received it. */
  function Start(u: Update, receivedAt: real): Timeline {
    var base :=
      if u.state.status == PLAYING
      then u.state.position + Max(u.rtt / 2.0, 0.0) * u.state.speed
      else u.state.position;
    Timeline(u.state.source, u.state.status, base, u.state.speed, u.state.duration, receivedAt)
  }

  /** The line of a room that has not been updated yet. */
  function Initial(created: real): Timeline {
    Timeline("", STOPPED, 0.0, 1.0, 0.0, created)
  }

  function Position(line: Timeline, t: real): real {
    if line.status == PLAYING then line.base + (t - line.anchor) * line.speed else line.base
  }

  /** What a room on this line says at time t: a pure function of time. */
  function Formula(line: Timeline, t: real): StateMessage {
    if Position(line, t) > line.duration
    then StateMessage(line.source, STOPPED, line.duration, line.speed, line.duration)
    else StateMessage(line.source, line.status, Position(line, t), line.speed, line.duration)
  }

  /** What a room says about an update, spelt out with the numbers that stand for the statuses on the wire: 1 plays,
      and 0 has stopped. */
  lemma FormulaSpeltOut(u: Update, receivedAt: real, t: real)
    ensures var half := if u.rtt > 0.0 then u.rtt / 2.0 else 0.0;
            var moved := if u.state.status == 1
                         then u.state.position + (half + (t - receivedAt)) * u.state.speed
                         else u.state.position;
      Formula(Start(u, receivedAt), t) ==
        if moved > u.state.duration
        then StateMessage(u.state.source, 0, u.state.duration, u.state.speed, u.state.duration)
        else StateMessage(u.state.source, u.state.status, moved, u.state.speed, u.state.duration)
  {
    PositionSpeltOut(u, receivedAt, t);
    hide Position, Max;
  }

  lemma PositionSpeltOut(u: Update, receivedAt: real, t: real)
    ensures var half := if u.rtt > 0.0 then u.rtt / 2.0 else 0.0;
      Position(Start(u, receivedAt), t) ==
        if u.state.status == 1 then u.state.position + (half + (t - receivedAt)) * u.state.speed else u.state.position
  {
    var half := if u.rtt > 0.0 then u.rtt / 2.0 else 0.0;
    assert Max(u.rtt / 2.0, 0.0) == half;
    hide Max;
    Distribute(half, t - receivedAt, u.state.speed);
  }

  /** The line never comes back from beyond the end of the video. */
  predicate Steady(line: Timeline) {
    line.status != PLAYING || line.speed >= 0.0 || line.base <= line.duration
  }

  /** The stored state lies on the line, or has been stopped at the end by somebody who looked. */
  predicate Follows(st: PlaybackState, line: Timeline, now: real) {
    && st.source == line.source && st.speed == line.speed && st.duration == line.duration
    && line.anchor <= st.lastUpdated <= now
    && if Position(line, st.lastUpdated) > line.duration && st.status == STOPPED && st.position == st.duration
       then true
       else st.status == line.status && st.position == Position(line, st.lastUpdated)
  }

  /** Moving along a line from one reading of it to another. */
  lemma PositionShift(line: Timeline, from: real, to: real)
    ensures line.status == PLAYING ==> Position(line, to) == Position(line, from) + (to - from) * line.speed
    ensures line.status != PLAYING ==> Position(line, to) == Position(line, from)
  {
    if line.status == PLAYING {
      assert (to - line.anchor) * line.speed == (from - line.anchor) * line.speed + (to - from) * line.speed;
    }
  }

  /** A steady line that is past the end stays past the end. */
  lemma PastTheEndForGood(line: Timeline, from: real, to: real)
    requires Steady(line) && line.anchor <= from <= to
    requires Position(line, from) > line.duration
    ensures Position(line, to) > line.duration
  {
    PositionShift(line, from, to);
    if line.status == PLAYING {
      assert line.speed < 0.0 ==> (from - line.anchor) * line.speed <= 0.0;
      assert line.speed >= 0.0 ==> (to - from) * line.speed >= 0.0;
    }
  }

  /** Whoever looks, at whatever time, is told the formula, and leaves a state that follows the same line. */
  lemma ObservingFollows(st: PlaybackState, line: Timeline, now: real, t: real)
    requires Steady(line) && Follows(st, line, now) && now <= t
    ensures Observe(st, t).1 == Formula(line, t)
    ensures Follows(Observe(st, t).0, line, t)
  {
    PositionShift(line, st.lastUpdated, t);
    if Position(line, st.lastUpdated) > line.duration {
      PastTheEndForGood(line, st.lastUpdated, t);
    }
  }

  /** Applying an update at any age puts the state on the line that started at its receipt. */
  lemma ApplyingFollows(u: Update, receivedAt: real, now: real)
    requires receivedAt <= now
    ensures Follows(ApplyUpdate(u, now - receivedAt, now), Start(u, receivedAt), now)
  {
    var compensation, age, v := Max(u.rtt / 2.0, 0.0), now - receivedAt, u.state.speed;
    var st, line := ApplyUpdate(u, age, now), Start(u, receivedAt);
    if u.state.status == PLAYING {
      assert st.position == u.state.position + (compensation + age) * v;
      assert line.base == u.state.position + compensation * v;
      assert Position(line, now) == line.base + age * v;
      Distribute(compensation, age, v);
    }
  }

  lemma Distribute(a: real, b: real, v: real)
    ensures (a + b) * v == a * v + b * v
  {
  }

  // ---------------------------------------------------------------------------
  // What a room says does not depend on when the update was applied or who looked
  // ---------------------------------------------------------------------------

  /** The state after a sequence of looks at it (ticks, joins, broadcasts). */
  function Watched(st: PlaybackState, looks: seq<real>): PlaybackState
    decreases looks
  {
    if looks == [] then st else Watched(Observe(st, looks[0]).0, looks[1..])
  }

  predicate Chronological(from: real, looks: seq<real>, to: real)
    decreases looks
  {
    if looks == [] then from <= to else from <= looks[0] && Chronological(looks[0], looks[1..], to)
  }

  /** What the room says at time t about an update applied at `applied`, broadcast there and watched since. */
  function Said(u: Update, receivedAt: real, applied: real, looks: seq<real>, t: real): StateMessage {
    Observe(Watched(ApplyUpdate(u, applied - receivedAt, applied), [applied] + looks), t).1
  }

  lemma {:induction false} WatchingFollows(st: PlaybackState, line: Timeline, now: real, looks: seq<real>, t: real)
    requires Steady(line) && Follows(st, line, now) && Chronological(now, looks, t)
    ensures Follows(Watched(st, looks), line, t)
    decreases looks
  {
    if looks != [] {
      ObservingFollows(st, line, now, looks[0]);
      WatchingFollows(Observe(st, looks[0]).0, line, looks[0], looks[1..], t);
    }
  }

  /** The stateful clock refines the formula. */
  lemma SaidIsFormula(u: Update, receivedAt: real, applied: real, looks: seq<real>, t: real)
    requires Steady(Start(u, receivedAt))
    requires receivedAt <= applied && Chronological(applied, looks, t)
    ensures Said(u, receivedAt, applied, looks, t) == Formula(Start(u, receivedAt), t)
  {
    var line := Start(u, receivedAt);
    ApplyingFollows(u, receivedAt, applied);
    assert ([applied] + looks)[1..] == looks;
    WatchingFollows(ApplyUpdate(u, applied - receivedAt, applied), line, applied, [applied] + looks, t);
    ObservingFollows(Watched(ApplyUpdate(u, applied - receivedAt, applied), [applied] + looks), line, t, t);
  }

  /** Two histories of one update: applied at different times, watched at different times. */
  predicate SameStory(u: Update, receivedAt: real, a: real, looksA: seq<real>, b: real, looksB: seq<real>, t: real) {
    receivedAt <= a && receivedAt <= b && Chronological(a, looksA, t) && Chronological(b, looksB, t)
    ==> Said(u, receivedAt, a, looksA, t) == Said(u, receivedAt, b, looksB, t)
  }

  /** Buffering does not bend the timeline and watching does not disturb it, for exactly the steady updates:
      a rewinding update that starts beyond the end is stopped there by whoever looks first. */
  lemma BufferingDoesNotBend(u: Update, receivedAt: real)
    ensures (forall a, looksA, b, looksB, t :: SameStory(u, receivedAt, a, looksA, b, looksB, t))
            <==> Steady(Start(u, receivedAt))
  {
    var line := Start(u, receivedAt);
    if Steady(line) {
      forall a, looksA, b, looksB, t ensures SameStory(u, receivedAt, a, looksA, b, looksB, t) {
        if receivedAt <= a && receivedAt <= b && Chronological(a, looksA, t) && Chronological(b, looksB, t) {
          SaidIsFormula(u, receivedAt, a, looksA, t);
          SaidIsFormula(u, receivedAt, b, looksB, t);
        }
      }
    } else {
      var t := RewindWitness(u, receivedAt);
      assert !SameStory(u, receivedAt, receivedAt, [], t, [], t);
    }
  }

  /** The moment at which a rewinding update re-enters the video. */
  lemma RewindWitness(u: Update, receivedAt: real) returns (t: real)
    requires !Steady(Start(u, receivedAt))
    ensures receivedAt <= t
    ensures Said(u, receivedAt, receivedAt, [], t).status == STOPPED
    ensures Said(u, receivedAt, t, [], t).status == PLAYING
  {
    var line := Start(u, receivedAt);
    var back := (line.base - line.duration) / -line.speed;
    t := receivedAt + back;
    assert back * line.speed == -(line.base - line.duration);
    assert back >= 0.0;
    ApplyingFollows(u, receivedAt, receivedAt);
    var early := ApplyUpdate(u, receivedAt - receivedAt, receivedAt);
    assert early.position == line.base;
    var stopped := Observe(early, receivedAt).0;
    assert Watched(early, [receivedAt] + []) == stopped;
    assert stopped.status == STOPPED && stopped.position == stopped.duration;
    ApplyingFollows(u, receivedAt, t);
    var late := ApplyUpdate(u, t - receivedAt, t);
    assert late.position == line.duration;
    assert Watched(late, [t] + []) == Observe(late, t).0 == late;
  }

  // ---------------------------------------------------------------------------
  // Several readings of the clock inside one step
  // ---------------------------------------------------------------------------

  /** `checkPosition` with its two readings of the clock: one for the check, one for the moment it stops the room. */
  function CheckedTwice(st: PlaybackState, check: real, stop: real): PlaybackState {
    if Projected(st, check) > st.duration
    then st.(position := st.duration, status := STOPPED, lastUpdated := stop)
    else st
  }

  /** The code reads the clock for the age (t1), for lastUpdated (t2), for the check (t3), if the check fails for
      lastUpdated again (stop), and for the report (t4). Inside the video the report lags the formula by exactly
      (t2 - t1) * speed; past the end, and for anything but playing, it is the formula, whatever the readings. */
  lemma SeparateReadings(u: Update, receivedAt: real, t1: real, t2: real, t3: real, stop: real, t4: real)
    requires receivedAt <= t1 <= t2 <= t3 <= t4
    ensures
      var line, v := Start(u, receivedAt), u.state.speed;
      var st := ApplyUpdate(u, t1 - receivedAt, t2);
      var said := Report(CheckedTwice(st, t3, stop), t4);
      && (u.state.status != PLAYING ==> said == Formula(line, t4))
      && (u.state.status == PLAYING && v >= 0.0 && Projected(st, t3) > st.duration ==>
            said == Formula(line, t4) && said.status == STOPPED && said.position == st.duration)
      && (u.state.status == PLAYING && Projected(st, t3) <= st.duration ==>
            said.status == PLAYING && said.position == Position(line, t4) - (t2 - t1) * v
            && (v >= 0.0 ==> said.position <= st.duration + (t4 - t3) * v))
  {
    if u.state.status == PLAYING {
      hide *;
      PastReadings(u, receivedAt, t1, t2, t3, stop, t4);
      InsideReadings(u, receivedAt, t1, t2, t3, stop, t4);
    }
  }

  lemma PastReadings(u: Update, receivedAt: real, t1: real, t2: real, t3: real, stop: real, t4: real)
    requires u.state.status == PLAYING && receivedAt <= t1 <= t2 <= t3 <= t4
    ensures var st := ApplyUpdate(u, t1 - receivedAt, t2); var said := Report(CheckedTwice(st, t3, stop), t4);
      u.state.speed >= 0.0 && Projected(st, t3) > st.duration ==>
        said == Formula(Start(u, receivedAt), t4) && said.status == STOPPED && said.position == st.duration
  {
    if u.state.speed >= 0.0 {
      Lagging(u, receivedAt, t1, t2, t3);
      NonNegative(t2 - t1, u.state.speed);
      NonNegative(t4 - t3, u.state.speed);
      PositionShift(Start(u, receivedAt), t3, t4);
      StoppedProjection(ApplyUpdate(u, t1 - receivedAt, t2), t3, stop, t4);
      hide Projected, Position, Max;
    }
  }

  lemma StoppedProjection(st: PlaybackState, check: real, stop: real, t: real)
    ensures Projected(st, check) > st.duration ==> Projected(CheckedTwice(st, check, stop), t) == st.duration
  {
  }

  lemma InsideReadings(u: Update, receivedAt: real, t1: real, t2: real, t3: real, stop: real, t4: real)
    requires u.state.status == PLAYING && receivedAt <= t1 <= t2 <= t3 <= t4
    ensures var st := ApplyUpdate(u, t1 - receivedAt, t2); var v := u.state.speed;
            var said := Report(CheckedTwice(st, t3, stop), t4);
      Projected(st, t3) <= st.duration ==>
        said.status == PLAYING && said.position == Position(Start(u, receivedAt), t4) - (t2 - t1) * v
        && (v >= 0.0 ==> said.position <= st.duration + (t4 - t3) * v)
  {
    Lagging(u, receivedAt, t1, t2, t4);
    PlayedSince(ApplyUpdate(u, t1 - receivedAt, t2), t3, t4);
    hide Projected, Position, Max;
  }

  lemma PlayedSince(st: PlaybackState, from: real, to: real)
    requires st.status == PLAYING
    ensures Projected(st, to) == Projected(st, from) + (to - from) * st.speed
  {
    ReadingsLag(to - from, to - st.lastUpdated, from - st.lastUpdated, 0.0, st.speed);
  }

  lemma NonNegative(time: real, v: real)
    requires time >= 0.0
    ensures v >= 0.0 ==> time * v >= 0.0
  {
  }

  /** The stored state lags the line by what was played between the first two readings. */
  lemma Lagging(u: Update, receivedAt: real, t1: real, t2: real, t: real)
    requires u.state.status == PLAYING
    ensures Projected(ApplyUpdate(u, t1 - receivedAt, t2), t)
            == Position(Start(u, receivedAt), t) - (t2 - t1) * u.state.speed
  {
    var c, v := Max(u.rtt / 2.0, 0.0), u.state.speed;
    assert (c + (t1 - receivedAt)) * v == c * v + (t1 - receivedAt) * v;
    ReadingsLag(t1 - receivedAt, t - receivedAt, t2 - t1, t - t2, v);
  }

  lemma ReadingsLag(age: real, total: real, lag: real, rest: real, v: real)
    requires total == age + lag + rest
    ensures age * v + rest * v == total * v - lag * v
  {
  }
}
