# vChamber, modelled and proved in Dafny

vChamber lets people watch a video together. A Go server keeps *rooms*; the clients of a room are masters, who may
change its playback state, and guests, who follow it. A scheduler, an orchestrator and a reverse proxy spread the rooms
over several backends. This project models the parts of it that are hard to get right, and proves what they are for:

* **The room manager** (`RoomMachine`, `RoomInvariants`, `RoomManager`): the event loop of one room, with its playback
  clock, its membership maps, the one-place update buffer with its cooldown timer, and the "no master for five minutes"
  timer. `RoomMachine` is the loop as a state machine on values, in which a panic and a blocked receive are states of
  their own; `RoomManager` is the loop as the server has it, a class whose methods update fields in place, each method
  proved against the machine.
* **The room with its clients** (`System`, `SystemInvariants`): admission, the three goroutines of a connection and the
  queues between them and the manager. A run is any sequence of timestamped events, in any interleaving.
* **What holds over whole runs** (`RunTheorems`, `Liveness`, `Shutdown`, `NonInterference`, `GuestTiming`): no panic and
  no deadlock on the drain, timers that agree with the data they guard and are over exactly when they should be, the
  newest update getting through, conservation and rate limit of updates, bounded overtaking, the clock as a pure function
  of time, exactly when an older update replaces a newer one, exactly when a shutdown may hit a room with a master, guests
  that leave no trace, and exactly when they do. `Example` and `GuestExample` hold concrete runs.
* **The clients' arithmetic** (`Latency`, `Player`, `Sync`): the ring buffers and the exponential filter of the latency
  estimate, following and proposing states, and the end-to-end bounds on how far apart the players of a room can be.
* **The room registry** (`Storage`, `Orchestrator`, `Scheduler`, `Registry`): the store with expiring entries, the
  polling pass, registration, routing, and the lease that they make together.
* **Foundations** (`Options`, `Messages`, `Playback`, `Timers`, `Server`).

Time and positions are real numbers. A Go timer is a triple (active, deadline, unread expiry). Up to Go 1.22 `Stop` and
`Reset` leave an unread expiry in the timer's channel, and the server is built with Go 1.11
(`server/Dockerfile-backend:1`); from Go 1.23 on they discard it. The model is parametrised by this (`Timers.Semantics`)
and everything holds for both kinds unless it says otherwise.

Where the code does not do what one would expect, the model follows the code:

* An update that is applied immediately does not clear the buffer (`server/server/wsserver.go:281-284`), so an older
  update may replace a newer one: `Example.OlderUpdateWins` is a run in which it does, for any three updates.
  `RunTheorems.OlderUpdateWinsExactly` and `RunTheorems.ImmediateLeavesOlderExactly` say exactly when, and
  `RunTheorems.OvertakingIsBounded` says how often.
* Looking at a room that is past the end of the video moves its last-updated time (`server/server/wsserver.go:175`) and
  so changes later cooldown decisions. `GuestExample.GuestIsHeard` is a run in which a master is told nothing because a
  guest has joined; `GuestTiming.GuestsAreHeardExactly` shows that a difference in such a decision is the only way in
  which masters can hear of guests, and `NonInterference.GuestsDoNotInterfere` that without a guest's join past the end
  not even the stored state differs.
* A rewinding update that starts beyond the end is stopped there by whoever looks first;
  `Playback.BufferingDoesNotBend` shows that these are the only updates whose timeline depends on when it is looked at.
* A master's leave message that is served late, over an unread expiry (`server/server/wsserver.go:308`), leaves an expiry
  behind that a timer of the old kind keeps; `Shutdown.ShutdownHitsExactly` and `Shutdown.LateLeaveWitness` show what it
  leads to.
* The outlier test of the latency filter asks for a sample above the upper *and* below the lower limit
  (`client/src/playback.js:616`); `Latency.LimitsAreOrdered` shows that no sample is, so the branch is dead.
* A backend that cannot be reached stays in the schedule, one whose answer makes no sense does not
  (`server/schedule/orchestrator.go:44-59`).

## Model

| member | source | states |
|---|---|---|
| Messages.Received | server/server/message.go:69-109 | A received message's tag and payload type agree, so the handlers' type assertions cannot fail |
| Messages.ReceivedExactly | server/server/message.go:81-104 | For each tag by its number on the wire, a frame is received exactly if the value of that kind decodes, and the message then carries just that value, field by field; an unknown tag carries nothing |
| Messages.MessageCell.Deserialise | server/server/message.go:69-109 | Filling any message in place succeeds exactly for well-typed frames and yields the received message, with the value that the tag's number stands for; a payload that does not decode has already been stored with time and tag when the error is returned; an unknown tag keeps the old payload, so the types agree for every message that is fresh or has a known tag |
| Playback.ObservingFollows | server/server/wsserver.go:166-177 | Whoever looks at a state that lies on a timeline that never comes back from beyond the end, whenever, is told the timeline's formula, and leaves a state on the same line, also when the end of the video is crossed |
| Playback.ApplyingFollows | server/server/wsserver.go:179-191 | Applying an update at any age puts the state on the line that starts at the update's receipt |
| Playback.SaidIsFormula | server/server/wsserver.go:193-210 | For such a timeline, after any sequence of looks the room says the formula: the stateful clock refines a pure function of time |
| Playback.BufferingDoesNotBend | server/server/wsserver.go:268-294 | What is broadcast does not depend on when the update was applied nor on who looked, if and only if the update is not a rewinding one from beyond the end |
| Playback.FormulaSpeltOut | server/server/wsserver.go:166-210 | What a room says about an update at any time, written out: status 1 moves on from the position by half a positive round trip and the time since receipt, and beyond the duration it is status 0 at the end |
| Playback.RewindWitness | server/server/wsserver.go:166-191 | For every other update, a time at which two histories of it say different things |
| Playback.SeparateReadings | server/server/wsserver.go:193-210 | What a message says if the clock is read anew each time the code does: it lags the formula by exactly what is played between the first two readings, and past the end, or when nothing plays, it is the formula |
| RoomInvariants.StepKeeps | server/server/wsserver.go:250-317 | Every case of the select statement, and every firing of a timer, keeps the whole invariant; in particular no step panics or blocks |
| RoomInvariants.Delivery | server/server/wsserver.go:213-225 | In every step exactly the clients that the manager addresses get one message each, and it is the formula of the last applied update, with the same exception |
| RoomInvariants.ShutdownEffect | server/server/wsserver.go:257-265 | The exit loop ends with both maps empty and the channels of every former member closed, once |
| RoomInvariants.KilledMembership | server/server/wsserver.go:237-247 | Killing a client keeps the masters the master part of the clients, closes the channels of a member and leaves everybody else's alone |
| RoomInvariants.JoinStops | server/server/wsserver.go:297-304 | A join changes the shutdown timer exactly if it brings the first master; then the timer stops and the drain does not block |
| SystemInvariants.NextKeeps | server/server/wsserver.go:378-487 | Every event of the system keeps its invariant: who was admitted with which key, where updates come from, and their order |
| SystemInvariants.RunKeeps | server/server/wsserver.go:250-317 | Every state of every run is sound |
| RunTheorems.ManagerStaysAlive | server/server/wsserver.go:237-317 | In every run the manager never closes a channel twice, never sends on a closed one, never fails a type assertion and never blocks on the drain, with up to three leave messages per client, also before its join |
| RunTheorems.TimersAgreeWithData | server/server/wsserver.go:252-309 | An update is buffered if and only if the cooldown timer is active or has an unread expiry, never both; without a master the shutdown timer is active or expired, with one it is not active |
| RunTheorems.MastersHoldTheKey | server/server/wsserver.go:511-538 | Clients of the room hold one of its keys, and the masters among them are exactly those with the master key |
| RunTheorems.ChannelsFollowMembership | server/server/wsserver.go:227-247 | Both channels of a connection are open exactly while it is a member; after the manager has returned all are closed |
| RunTheorems.ClosedForGood | server/server/wsserver.go:236-247 | Whatever event happens, a closed connection stays closed and is sent nothing more |
| RunTheorems.UpdatesAreConserved | server/server/wsserver.go:254-294 | received = applied + superseded + buffered; every update is applied at most once, and none that was superseded |
| RunTheorems.ThreeUpdatesSpan | server/server/wsserver.go:268-294 | Any three consecutive applied updates span at least 0.9 seconds |
| RunTheorems.UpdateRateIsBounded | server/server/wsserver.go:268-294 | In any interval of length L at most 2*floor(L/0.9)+2 updates are applied |
| RunTheorems.OvertakingIsBounded | server/server/wsserver.go:281-294 | An immediate update overtakes nobody's past; a buffered one is preceded by fewer later-received updates than seconds it waited plus one, and by at most one if its expiry is served within 0.1 s |
| RunTheorems.RoomSaysTheFormula | server/server/wsserver.go:166-225 | In every reachable state, whoever asks at any later time is told the formula of the update that was applied last, unless that one rewinds from beyond the end |
| RunTheorems.EveryMessageIsTheFormula | server/server/wsserver.go:213-225 | Exactly the recipients of an event get one message each, and it is the formula at that moment, unless the last applied update rewinds from beyond the end |
| RunTheorems.UpdatesAreGenuine | server/server/wsserver.go:472-478 | Every update that is queued, buffered or applied carries an update payload and comes from a connection admitted with the master key |
| RunTheorems.FramesAreRead | server/server/wsserver.go:400-406 | A frame is kept and queued for the handler exactly if it decodes, with the value its tag stands for |
| RunTheorems.UpdatesStayInOrder | server/server/wsserver.go:400-487 | The manager receives each master's updates in the order in which the master sent them, without gaps, and none is lost: what it has not received is queued or has not been looked at |
| RunTheorems.UntouchedRoomSaysNothing | server/server/wsserver.go:320-341 | As long as no update has been applied, a room says that it has stopped at position 0 of no video, at speed 1 |
| RunTheorems.NewestIsHeld | server/server/wsserver.go:285-294 | Within a second of the last update it is the newest update that waits, whether one has been waiting or not; the one that waited is superseded, the running timer is left alone, and nothing is applied or sent |
| RunTheorems.NewestGetsThrough | server/server/wsserver.go:281-294 | In every run whatever has been superseded is older than the update that waits, and whatever is newer has been applied at once |
| RunTheorems.OlderUpdateWinsExactly | server/server/wsserver.go:268-294 | When a step of any run applies an update, newer ones have been applied before if and only if the step serves the cooldown expiry and some update has been applied since the buffered one arrived; as many as have been |
| RunTheorems.ImmediateLeavesOlderExactly | server/server/wsserver.go:281-284 | An immediate update never replaces a newer one, and leaves an older one waiting to replace it if and only if one was waiting before |
| Example.OlderUpdateWins | server/server/wsserver.go:268-294 | A run, for any three updates, proposed at 2, 2.5 and 3.05, in which the second one replaces the third at 3.4 |
| Liveness.ShutdownIsDue | server/server/wsserver.go:252-308 | In every run the running shutdown timer can fire exactly from 300 s after the last leave of a master that left none, or after the room was made |
| Liveness.MasterlessRoomCloses | server/server/wsserver.go:305-313 | From that moment on the manager of a room without a master can return |
| Liveness.BufferIsDue | server/server/wsserver.go:288-291 | In every run the running cooldown timer can fire exactly from 0.9 s after an update went into the empty buffer |
| Liveness.BufferedUpdateComesThrough | server/server/wsserver.go:268-274 | From that moment on the update that waits can be applied; then the room is on its timeline, the buffer is empty and every client has been told once |
| Shutdown.ShutdownMeansNoMaster | server/server/wsserver.go:252-313 | The manager returns only if no master has been present for five minutes, for timers that discard stale expiries, and for those that keep them in runs without a late leave |
| Shutdown.LateLeaveExactly | server/server/wsserver.go:305-309 | A leave leaves the timer both running and expired exactly if it is late and the timer keeps stale expiries |
| Shutdown.PendingShutdownExactly | server/server/wsserver.go:297-304 | The first master's join leaves a shutdown pending exactly if the timer was both running and expired |
| Shutdown.ShutdownHitsExactly | server/server/wsserver.go:297-313 | From a reachable state a run without late leaves can shut down a room with a master, if and only if the timer has an unread expiry although it runs or a master is present |
| Shutdown.LoadedHarms | server/server/wsserver.go:297-313 | From every such state, the events that lead there |
| Shutdown.LateLeaveWitness | server/server/wsserver.go:297-313 | Such a state is reachable with the timers of the Go version that the server is built with |
| NonInterference.GuestsDoNotInterfere | server/server/wsserver.go:212-309 | Erasing every guest event from a run is never noticed by the masters, the playback state, the buffer or the timers, if and only if no guest joins a room that is past the end of the video |
| NonInterference.GuestsLeaveNoTrace | server/server/wsserver.go:472-478 | The same for a new room, spelt out: equal state, buffer, timers and membership of masters, and equal messages to each master |
| GuestTiming.EventAlike | server/server/wsserver.go:250-317 | Two rooms that differ only in when they were last updated tell the masters the same and stay so, whatever guest or other event happens, unless an update is served that one applies at once and the other buffers |
| GuestTiming.DisagreementIsHeard | server/server/wsserver.go:281-294 | If they do disagree about an update, every master that is present is told something different |
| GuestTiming.GuestsAreHeardExactly | server/server/wsserver.go:166-177 | Erasing the guests from a run, of updates that do not rewind from beyond the end, changes what the masters can tell if and only if the two rooms disagree about a cooldown; with a master present at every update, if and only if some master is sent something different |
| GuestExample.GuestIsHeard | server/server/wsserver.go:297-299 | A run in which a guest's join past the end makes the master hear nothing where it would have heard its update broadcast, whatever the update |
| RoomManager.Room.CheckPosition | server/server/wsserver.go:166-177 | Updates the playback state in place as the machine does, and nothing else |
| RoomManager.Room.UpdateState | server/server/wsserver.go:179-191 | An update replaces the playback state, with its position moved on by half the round trip and the update's age |
| RoomManager.Room.GetCurrentStateMessage | server/server/wsserver.go:193-210 | Returns the message and leaves the state that the machine's observation does |
| RoomManager.Room.BroadcastState | server/server/wsserver.go:213-218 | The loop over the clients sends each of them the same message once |
| RoomManager.Room.SendState | server/server/wsserver.go:220-225 | Sends the state to one client if it is a member |
| RoomManager.Room.JoinClient | server/server/wsserver.go:227-234 | Adds a client to the maps |
| RoomManager.Room.KillClient | server/server/wsserver.go:237-247 | Removes this very client, and closes its channels, if it is a member |
| RoomManager.Room.OnMessage | server/server/wsserver.go:275-295 | A message from the queue: applied, buffered, superseding or ignored |
| RoomManager.Room.OnUpdateCooldown | server/server/wsserver.go:268-274 | The cooldown expiry applies and broadcasts the buffered update and empties the buffer |
| RoomManager.Room.OnEnqClient | server/server/wsserver.go:297-304 | A join, with the drain of the shutdown timer |
| RoomManager.Room.OnDeqClient | server/server/wsserver.go:305-309 | A leave, with the restart of the shutdown timer |
| RoomManager.Room.OnShutdownTimer | server/server/wsserver.go:312-313 | The shutdown expiry stops the timers and kills everybody |
| RoomManager.Room.KillRemaining | server/server/wsserver.go:261-263 | The exit loop, deleting while it iterates, in any order |
| RoomManager.Room.Turn | server/server/wsserver.go:266-316 | One turn of the manager's loop, whatever is selected, is exactly one step of the machine and keeps the invariant |
| Server.Server.JoinRoom | server/server/wsserver.go:119-125 | A room is entered under its identifier and its manager is started |
| Server.Server.KillRoom | server/server/wsserver.go:127-138 | A room is removed and closed exactly if it is the one registered under its identifier, so never closed twice and never one that can be found |
| Latency.PutKeepsWindow | client/src/playback.js:589-604 | Writing at the current index keeps the ring the window of the last twenty numbers, through every wrap-around |
| Latency.WindowIsRotation | client/src/playback.js:580-609 | A ring holds exactly the last samples, turned round, so that its average is theirs |
| Latency.AverageIsMean | client/src/playback.js:580-587 | The average times the number of samples is what adding them up gives |
| Latency.LimitsAreCentred | client/src/playback.js:608-614 | The control limits lie on both sides of the mean of the last samples, six mean ranges over 1.128 apart |
| Latency.EstimateIsWeightedSum | client/src/playback.js:628 | The estimate after n samples is the sum of 0.9*0.1^(n-i) times the i-th |
| Latency.EstimateIsBounded | client/src/playback.js:628 | Samples in [a,b] give an estimate in [(1-0.1^n)a, (1-0.1^n)b] |
| Latency.EstimateForgets | client/src/playback.js:628 | The difference between two estimators falls to a tenth with every common sample |
| Latency.LimitsAreOrdered | client/src/playback.js:612-627 | No sample is above the upper and below the lower control limit, so the rollback branch is dead |
| Latency.Estimator.EstimateLatency | client/src/playback.js:589-632 | One pong: both ring buffers are the windows of all samples so far and their ranges, the indices point where they should, the limits are those of the windows and the estimate is the filter's |
| Latency.Estimator.RecordLatency | client/src/playback.js:592-599 | A sample and its distance from the previous one go into the rings |
| Latency.Estimator.AdvanceIndices | client/src/playback.js:600-604 | The indices move on and wrap around |
| Player.Followed | client/src/playback.js:230-241 | Following ends within the tolerance of the target, and moves only a player that was not |
| Player.VideoPlayer.UpdateLocalState | client/src/playback.js:226-281 | The player follows a state in place: position, speed, and one call exactly if it does not already do what the state's number asks for; a player that has ended is not stopped again |
| Player.VideoPlayer.StateToUpdate | client/src/playback.js:549-578 | A master's proposal says what the player does, and its rtt makes the server add the estimated latency if that is positive |
| Sync.FollowerDrift | client/src/playback.js:226-241 | Until the next applied update or the end of the video a follower's distance from the room is constant and at most max(lat,0.5) + abs(lat - speed*delay), whatever events the room sees |
| Sync.BoundIsTight | client/src/playback.js:230-241 | No smaller bound holds for all starting positions |
| Sync.FollowersKeepTogether | client/src/playback.js:226-281 | Any two followers of a broadcast are within the sum of their bounds |
| Sync.SeeksAgain | client/src/playback.js:234-235 | A follower seeks on a later announcement if and only if its drift misses the error of its new estimate by more than the tolerance |
| Sync.PongMeasures | server/server/wsserver.go:459-470 | A ping and the server's answer to it measure the mean of the way up and the way down, whatever the time in the server |
| Sync.MasterDrift | client/src/playback.js:560-571 | The room differs from the master by exactly (max(lat,0) - uplink delay)*speed, however long the update was queued and buffered |
| Sync.GuestAgainstMaster | server/server/wsserver.go:179-210 | A guest differs from the master by its own drift and the error in the master's update, and by nothing else |
| Sync.EndToEnd | client/src/playback.js:226-241 | If no message takes longer than D, a guest is within max(D,0.5) + max(D,vD) + vD of the master |
| Sync.SteadyNetwork | client/src/playback.js:589-632 | With one constant delay both errors fall to a tenth with every ping, and only the tolerance remains |
| Example.PlayingRoom | server/server/wsserver.go:275-284 | A run to which the theorems of Sync apply: a master is admitted, joins and proposes to play, and the room says so |
| Storage.RedisBackend.Get | server/schedule/storage.go:68-70 | Returns what was put last, while that is fresh, and the empty string with an error otherwise |
| Storage.RedisBackend.Set | server/schedule/storage.go:72-74 | Puts a value with a lifetime of five minutes |
| Storage.RedisBackend.Del | server/schedule/storage.go:76-78 | Drops a key |
| Storage.MemBackend.Get | server/schedule/storage.go:39-44 | Returns what was put last, or the empty string |
| Storage.MemBackend.Set | server/schedule/storage.go:46-51 | Puts a value for good |
| Storage.MemBackend.Del | server/schedule/storage.go:53-58 | Drops a key |
| Storage.RedisAgreesWithMap | server/schedule/storage.go:11-74 | After any puts and drops Redis answers like the plain map if and only if some write of the key is less than five minutes old, and otherwise with the empty string |
| Orchestrator.HostIsExactly | server/schedule/orchestrator.go:43 | The address of backend i is the only string that consists of the prefix, a decimal numeral of value i without leading zeros, and the suffix |
| Orchestrator.HostsDiffer | server/schedule/orchestrator.go:43 | Different backends have different addresses |
| Orchestrator.RefreshesBindAll | server/schedule/orchestrator.go:42-58 | A pass writes a binding for every listed room, to the address with the number of the backend that listed it, at its moment, and writes nothing else |
| Orchestrator.PassBinds | server/schedule/orchestrator.go:42-60 | After a pass a room that one backend lists is bound to that backend, and a room that nobody lists is bound as before |
| Orchestrator.Orchestrator.UpdateBackendInfo | server/schedule/orchestrator.go:33-70 | The pass writes exactly the listed bindings, in order, each to the address with its backend's number, and publishes exactly the addresses of the backends that answered sensibly or not at all |
| Orchestrator.Orchestrator.RefreshRooms | server/schedule/orchestrator.go:54-57 | The inner loop writes one binding per listed room |
| Scheduler.LoadBalancedReverseProxy.ProxyBackend | server/schedule/revproxy.go:24-43 | The proxy routes by what the store answers at that time |
| Scheduler.Scheduler.RebuildPool | server/schedule/scheduler.go:83-89 | The pool gets every backend of the schedule once, in whatever order |
| Scheduler.Scheduler.UpdateSchedule | server/schedule/scheduler.go:110-117 | A new schedule replaces the old one and the pool follows; an unreadable one empties both |
| Scheduler.Scheduler.ProxyDirector | server/schedule/scheduler.go:83-131 | With a current pool, a request to create a room only ever goes to a backend that the schedule names; path, query and fragment are unchanged |
| Scheduler.Scheduler.RoomRegister | server/schedule/scheduler.go:134-156 | Binds the created room to the backend that answered, exactly if the response has status 200, reads, closes and decodes; the body is passed on; every other response with status 200 is the matching error; and from then on the proxy routes the room there for 300 s |
| Scheduler.CreatedRoomIsFound | server/schedule/scheduler.go:134-156 | A created room is found at its backend for five minutes, unless it is bound again, and nowhere after that |
| Registry.StepKeeps | server/schedule/scheduler.go:134-156 | Whatever happens, every write under way and every write done binds a room to its own backend |
| Registry.CreatedRoomCanBeBound | server/schedule/scheduler.go:134-156 | From any state a new room can be created, registered and polled, and its registration and its refreshment each bind it at once |
| Registry.PassFollowsProtocol | server/schedule/orchestrator.go:44-58 | What the orchestrator writes after one backend's answer is what the protocol does between two polls |
| Registry.WholePassFollowsProtocol | server/schedule/orchestrator.go:42-60 | What a whole pass over all backends writes, as UpdateBackendInfo promises it, is what the protocol does in the corresponding run |
| Registry.LeaseExactly | server/schedule/storage.go:72-74 | In every run a room resolves to its own backend if and only if some write of its binding is less than five minutes old, and to nothing otherwise |
| Registry.NeverMisrouted | server/schedule/revproxy.go:24-43 | In every run a request is routed if and only if its room is leased, and only ever to the room's own backend |
| Registry.DeadRoomIsForgotten | server/schedule/orchestrator.go:54-57 | Once a dead room has no write under way its answer never changes again but by expiry, and five minutes later there is none |
| Registry.DeadRoomIsBoundTwiceAtMost | server/schedule/orchestrator.go:44-58 | After its death a room is bound at most twice more: by its registration and by one poll that still listed it |
| Registry.EightFailuresExactly | server/schedule/orchestrator.go:72-94 | Polling every 30 s keeps a binding alive under every delay within the periods, if and only if never more than eight passes in a row fail |
| Registry.NineAreNot | server/schedule/orchestrator.go:72-94 | After nine failures in a row, a delay and a time at which the binding has expired |
| Registry.PassIsWritten | server/schedule/orchestrator.go:44-58 | A pass whose poll lists the room, and that has written all it was told within its period, writes the room's binding within the period: derived from the events, not assumed |
| Registry.LeaseIsKept | server/schedule/orchestrator.go:72-94 | In any run, a room that was registered and that passes every 30 s, beginning within 30 s, keep reaching resolves to its own backend, if at most eight passes in a row have missed it |
| Registry.LeaseIsKeptThroughout | server/schedule/scheduler.go:134-156 | So it does at every moment from its registration until its death, or any other time up to which the passes kept reaching it |

## Left out

* Floating-point rounding and NaN: times, positions and speeds are reals. The average of an empty array, which is not a
  number in JavaScript, is an absent value.
* Updates without a `state` object, for which the server dereferences a nil pointer: an update always has a state.
* Reading the clock several times in a step: the manager's step has one reading of the clock, and `Playback.SeparateReadings`
  bounds the effect of two. A pass of the orchestrator has one reading per write.
* The period of the ticker and the order in which `select` chooses: a tick, and any ready case, may come at any time.
* When a goroutine of a connection ends: it may report its end at any time, once, which includes every way in which the
  code does.
* Bounded queues: a full queue would block the manager (`server/server/wsserver.go:215-217`); queues are unbounded.
* Sending the pong and hello messages: other goroutines than the manager send them, the pong on a queue that the manager
  may already have closed (`server/server/wsserver.go:470`); only the room's state messages are recorded.
* Closing the whole server (`destroyServer`, the deferred loop in `Run`) and events after a manager has returned: there
  channels are closed while others may still use them.
* RoomManager.Room: the playback state and the timers are values in fields of the room, not objects of their own, so that
  aliasing of the state pointer is not described.
* The video player: events, seek suppression, the `stable_pause` and `listen_update` switches, sources and providers,
  rejected autoplay. In `Sync` a player moves on at the speed it was given, until it follows another state.
* Storage: Redis itself, its connection and its errors other than a missing key; the mutex of the plain map.
* Orchestrator: listing the pods and publishing, which panic when they fail.
* Scheduler: how the host pool chooses among its hosts, and that it has one; decoding of JSON.
* Registry: the room "testroom", which every backend creates and which therefore has no home of its own.
* Key generation, cross-origin settings, the headless client, and the user interface.
