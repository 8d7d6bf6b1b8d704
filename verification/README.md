# F-Zero VS race protocol: a Dafny model

F-Zero VS races up to four emulated cars over UDP. An authoritative room server takes the players through the
phases LOBBY, LOADING, COUNTDOWN, RACING and RESULTS; each client drives its own emulator, patches the game ROM while
it is connected, and draws the other cars from buffered snapshots. Commands travel in a numbered stream that is
retransmitted until acknowledged; snapshots and movements are sent and forgotten.

This project models that protocol, with its byte format, and three neighbours: the session worker that hosts and joins
rooms, the debug bridge's reversible ROM patches, and the server's event log.

## How it is built

| layer | files | content |
|---|---|---|
| words and bytes | `Words`, `Options`, `Wire`, `Messages`, `Payloads`, `Datagrams` | 32-bit serial numbers, the datagram codec over byte buffers, payload layouts, and messages end to end |
| the room | `Rooms`, `RoomInvariants`, `RoomSteps`, `RoomTheorems`, `RoomEffects`, `Heartbeats`, `RoomMail` | the server as a state machine with unwrapped counters, its invariant, what each step does to the slots, and what holds over its runs |
| the client | `Clients` | the client as a state machine, with a history of what it did |
| the system | `Network`, `RoomSide`, `ClientSide`, `ClientMoves`, `ClientFrames`, `NetworkTheorems` | one room, any number of clients, a network that loses, duplicates and reorders; the inductive invariant `Network.Ok` and its preservation by every event |
| main theorems | `SystemTheorems`, `Progress`, `Onward`, `Snapshots`, `ClientEffects`, `Scenarios` | what holds in every run of the system, what each step of a client comes to, and three runs that show its less obvious behaviours |
| the program | `Congruence`, `Server`, `Client`, `NarrowSystem` | classes with arrays, queues and 32-bit counters updated in place, proved to follow the state machines through wrap-around, one by one and as a system |
| rendering and ROM | `Interpolation`, `RomPatching` | blending between snapshots, patching and restoring the ROM |
| neighbours | `Sessions`, `Bridge`, `EventRing` | the session worker, the bridge's patch table, the event ring |

The network is the set of every datagram ever sent, and each delivery takes any one of them, so loss, duplication and
reordering need no further modelling. The state machines carry each 32-bit counter unwrapped but compare counters only
through their 32-bit images; `Words.WindowedComparison` says when that comparison is the true one. The classes say that
one program step on 32-bit counters is the image of a step of the state machine; `NarrowSystem.RunImage` says that the
system made of such steps is the image of every run, and `NarrowSystem.RunLifts` that every run of it in which the
assumptions below hold is the image of one, so that the main theorems speak of the programs' state.

Assumptions:

- A delivery happens while the counters it carries, movement numbers included, are less than 2^31 away from the
  receiver's (`Network.RoomWindow`, `Network.ClientWindow`).
- Tokens are fresh when a player is seated, and a nonce is fresh for each attachment.
- The user interface requests only CONFIG and NEXT, and the client is not in baseline mode.
- Clock readings are arguments, and so are the timers that are due and the client's estimate of the server's clock. The
  safety theorems hold for arbitrary readings, monotone or not; only `Heartbeats.HeardPlayersStay` asks for a server
  clock that does not run backwards.
- Interpolation uses exact rationals, with rounding half away from zero, in place of doubles.

Properties that turned out to need care:

- A FINISH can be refused: a client may be released by its own clock while the room is still counting down, and its
  FINISH is then acknowledged but has no effect. `SystemTheorems.OwnCommandsAccepted` shows that this happens exactly
  when the room is in COUNTDOWN at that moment, `SystemTheorems.RefusedFinishIsFinal` that the race then cannot reach
  its results while that player is present, and `Scenarios.EarlyFinishIsRefused` gives a run in which it happens.
- A SELECT, LOADED or FINISH can be lost in the client: with eight commands waiting, `queue` drops it while the flag
  that it has been sent is set. `Onward.LostExactlyWhenFull` shows that this happens exactly then,
  `Onward.LostIsFinal` that the player and the room are then held back for the rest of that race, and
  `Scenarios.SelectIsLost` gives a run in which it happens.
- One packet can begin two lobbies. `RoomTheorems.GenerationChangesInLobby` proves that it never begins more, and that
  it begins two exactly when it is a valid NEXT after which everybody present is found silent and somebody other than
  an owner was present; `Scenarios.TwoLobbiesInOneStep` gives a run in which it happens.
- Most room invariants need an open room: when the owner leaves, the room closes without repairing host or phase
  (server/src/server.c:100).
- docs/protocol.md:120 says that there is no interpolation; the code interpolates, as docs/protocol.md:7 says, and the
  model follows the code.

## Model

| member | source | states |
|---|---|---|
| SystemTheorems.ReliableCommands | client/fzvs_client.cpp:68-113 | In every run each command is executed at most once, in issue order, and is one its client issued; acknowledged ones were executed, discarded ones were not; pending numbers are contiguous and the room's counter is the front number or one less |
| SystemTheorems.DiscardedNeverExecuted | client/fzvs_client.cpp:106-113 | A command cleared by a race change is never executed in any continuation of the run, although its number is reused; an acknowledged one stays executed |
| SystemTheorems.CommittedStartHolds | server/src/server.c:114-128 | Once a snapshot has shown every present player armed for a start, the room keeps that start, still armed by all, until the next lobby |
| SystemTheorems.StartAgreement | client/fzvs_client.cpp:299-309 | Any two clients that enter the race of one generation, early or on seeing RACING, do so for the same start, and the room in that generation is committed to it |
| ClientEffects.BarrierOpensExactly | client/fzvs_client.cpp:299-309 | At the line, a frame enters the race if and only if the three game bytes match and the client sees RACING, or sees COUNTDOWN with somebody present, everyone present armed, and the start reached by its clock |
| ClientEffects.EntriesInTime | client/fzvs_client.cpp:304-305 | In every run, each entry into a race was made in view of a published room of that race in which all were armed for that start, and which was racing or was counting down with the start reached |
| SystemTheorems.SetupAgreement | client/fzvs_client.cpp:219-225 | Any two clients that set up one generation write the same track and league and the same car for each network player they both show |
| SystemTheorems.CarComesFromItsClient | client/fzvs_client.cpp:290-298 | The car shown for a present opponent is the one that opponent's own client selected in that generation |
| SystemTheorems.SlotTable | client/fzvs_client.cpp:19-19 | Each row of the slot table is a permutation of the four players with the local one first |
| SystemTheorems.OwnCommandsAccepted | server/src/server.c:203-217 | In every run an executed SELECT or LOADED of a client is accepted; a FINISH is refused if and only if the room is still in COUNTDOWN |
| SystemTheorems.RefusedFinishIsFinal | client/fzvs_client.cpp:311-311 | After a refused FINISH, however the run continues, while the same race lasts and its sender is present that player does not become FINISHED and the room does not reach RESULTS |
| SystemTheorems.ExecutedOncePerRace | client/fzvs_client.cpp:291-311 | The room executes at most one SELECT, one LOADED and one FINISH of a client in one race, so each is either accepted or refused for good |
| Onward.LostExactlyWhenFull | client/fzvs_client.cpp:73-77 | In the frame in which a connected client sends SELECT, LOADED or FINISH, the command is recorded as sent but not issued if and only if eight commands are waiting |
| Onward.LostIsFinal | client/fzvs_client.cpp:290-311 | After such a loss, however the run continues, while the same race lasts and the player is present it stays below the status the command would have given it, and the room does not leave that phase |
| Scenarios.SelectIsLost | client/fzvs_client.cpp:73-77 | A run from a new room in which eight requests of the user make the client lose its SELECT |
| Onward.RunMovesOn | client/fzvs_client.cpp:78-123 | Over any run a client's race only advances; within one race its movement numbers only grow, its sent flags stay, and nothing of a flagged kind is issued |
| Snapshots.BufferIsNewest | client/fzvs_client.cpp:256-260 | In every run the snapshots a client has accepted have increasing numbers, end with the one it shows, and are recorded with the times at which the room published them; while it is connected its buffer is exactly the newest at most sixteen of those that belong to its race, each sample being that time and the players as the room showed them then; otherwise it is empty |
| Snapshots.TakenExactly | client/fzvs_client.cpp:105-119 | The records of accepted snapshots that describe the buffer grow by exactly the number and time of each snapshot that passes the filter, and at no other event |
| ClientEffects.NewerIsTaken | client/fzvs_client.cpp:102-105 | In every run a connected client takes a snapshot of its own exactly when its number is greater than the last one taken, and for the first one when its race is not older than that of the WELCOME |
| ClientEffects.SnapshotUpdates | client/fzvs_client.cpp:106-122 | In every run, what a taken snapshot makes of every field: the acknowledged front leaves the queue, a new race empties queue, game and counters, and a start not yet acted on is acknowledged under the next number |
| ClientEffects.StartsAreAnswered | client/fzvs_client.cpp:120-122 | In every run, a client that sees a countdown has acted on the start it sees |
| ClientEffects.GameTable | client/fzvs_client.cpp:273-321 | The state a frame leads to from each state of the game, and the car it picks, with the second and third places of the menu exchanged |
| ClientEffects.FrameIssues | client/fzvs_client.cpp:290-319 | A frame queues the car in the lobby, the position at the line during LOADING, the finish, each once per race, or the host's NEXT, under the next number if there is room, and nothing else |
| ClientEffects.WelcomeTaken | client/fzvs_client.cpp:84-88 | A WELCOME is taken exactly by a client that is not joined, with its nonce, a slot, a session and a token, and gives it slot, identity, race and command number |
| ClientEffects.EndsExactly | client/fzvs_client.cpp:80-90 | A refusal of its own HELLO ends exactly a client not yet joined, and the closing of its room exactly one that is |
| ClientEffects.PingReturned | client/fzvs_client.cpp:91-93 | A PING is returned exactly when it is addressed to this client in this session |
| ClientEffects.TickEffect | client/fzvs_client.cpp:138-147 | A tick moves the requests in order to the queue as far as there is room, under consecutive numbers, and sends the front of the queue, and no other command, when a retry is due |
| ClientEffects.HelloRepeats | client/fzvs_client.cpp:132-137 | A client that is not joined only repeats its HELLO when that is due |
| ClientEffects.DetachTells | client/fzvs_client.cpp:60-67 | LEAVE goes out under the next number exactly when connected with nothing in flight |
| ClientEffects.ColoursAgree | client/fzvs_client.cpp:219-225 | In every run, every client that sets up a race gives each network player, itself included, one and the same colour |
| ClientEffects.LocationIsRooms | client/fzvs_client.cpp:293-298 | In every run, the track and league a client writes for a race are those a published room of that race had |
| ClientEffects.HeldUntilReleased | client/fzvs_client.cpp:299-309 | At the line the six bytes at 0xab1 are NOPs, and the game's own code again in exactly the frame that enters the race, although they were saved before |
| SystemTheorems.ReachedOk | server/src/server.c:141-240 | The inductive invariant of room, network and clients holds after every sequence of events |
| SystemTheorems.RunRemembers | client/fzvs_client.cpp:106-113 | Over any run a client's acknowledged and discarded commands, and what was executed for it, only grow |
| NetworkTheorems.StepOk | client/fzvs_client.cpp:78-152 | Every enabled event of room, client or user interface preserves the system invariant |
| NetworkTheorems.ReceiveJoined | client/fzvs_client.cpp:89-122 | Delivering any datagram ever sent to a joined client preserves the system invariant |
| NetworkTheorems.FrameOk | client/fzvs_client.cpp:273-321 | Every emulator frame of every client preserves the system invariant |
| RoomSide.RoomReceivesOk | server/src/server.c:141-240 | Delivering any datagram ever sent to the room preserves the system invariant |
| RoomSide.ExecutedCommand | server/src/server.c:199-201 | Whatever the room executes is the next command of the client that owns the token, issued in this generation, and at the front of its queue while it is connected |
| Progress.StreamProgresses | client/fzvs_client.cpp:106-113 | In every run: once the front retransmission of a present player has been delivered, the command counts as executed, valid or not; and whatever else happens in between, any snapshot made since then that the client accepts takes the command off its queue |
| Progress.FrontExecuted | server/src/server.c:226-239 | One delivery of the front command leaves it executed, nothing after it, and the player's counter at its number, whether or not the command is valid |
| Progress.TakenBase | client/fzvs_client.cpp:109-113 | In every state of the invariant, after accepting a snapshot every number still in the queue is above the acknowledged one, with or without a race change |
| Progress.ReachedLinked | client/fzvs_client.cpp:143-145 | In every run, a connected client with commands in its queue, in the room's generation and with its player present, is known to the room by its own address, and the room's counter is the front number or one less |
| RoomTheorems.ReachableRooms | server/src/server.c:88-130 | In every run: the phase/status table, hidden cars at the origin, at most `expected` players, host present or 255 exactly when empty, owner in slot 0 and host, nobody-present only in LOBBY |
| RoomTheorems.RunSafety | server/src/server.c:88-130 | Over every run: phases only advance within a generation, setup is frozen and the player set shrinks from LOADING on, deadlines stay or grow by at least 1.5 s, a committed start never changes |
| RoomTheorems.AdvanceEdge | server/src/server.c:110-130 | One `advance` takes at most one forward phase edge, or empties the room and begins exactly one lobby |
| RoomTheorems.GenerationChangesInLobby | server/src/server.c:216-239 | A packet that changes the generation leaves the room in LOBBY, at most two generations later, and two exactly when it is a valid NEXT in sequence after which every present player is silent, and not only an owner was present |
| RoomTheorems.SilenceEmpties | server/src/server.c:97-112 | The timeout loop begins a lobby exactly when everybody still present is silent and somebody other than an owner is among them |
| Scenarios.TwoLobbiesInOneStep | server/src/server.c:236-239 | A run from a new room after which delivering one NEXT begins two lobbies |
| Scenarios.EarlyFinishIsRefused | client/fzvs_client.cpp:299-311 | A run from a new room, in which both players select, one is dropped as silent and the other loads, arms, learns the server's clock from a PONG, is released early and finishes, at whose end the room is in COUNTDOWN and the delivered in-sequence FINISH is refused |
| RoomTheorems.CountdownBounds | server/src/server.c:119-128 | When `advance` leaves an open room counting down, the start is more than 0.5 s ahead, or all are armed and it has not been reached |
| RoomTheorems.ObsoleteArm | server/src/server.c:210-212 | A replaced deadline never returns in its generation, so an ARM for it is refused for ever |
| RoomTheorems.LatestMovementWins | server/src/server.c:192-198 | In every run of the room, whatever ticks, pings, commands and other players' packets lie in between, and for any order and multiplicity: a player who races on in the same race has stored the delivered movement with the greatest unwrapped number, also across wrap-around, and keeps the one it had if none is greater |
| RoomTheorems.EventMovement | server/src/server.c:192-198 | Any one event stores a newer movement of a racing player delivered for this race, and otherwise leaves its number, position and orientation alone |
| Onward.MovementsNumbered | client/fzvs_client.cpp:310-314 | In every run, a movement a client sends has a greater number than every movement it has sent before in that race |
| Onward.NumbersFollow | server/src/server.c:94-94 | In every run, the movement number stored for a present player is at most the number of the last movement its client has sent while both are in the same race, and zero until the client has followed into a new one |
| Onward.NextMovementStored | server/src/server.c:192-198 | In every run, a movement a client sends while the room races in its race is stored when delivered next to its racing player: the first of a race, whatever number the last race ended with, and every later one |
| RoomTheorems.AdvanceKeepsRecords | server/src/server.c:110-130 | `advance` keeps the whole record of every player who stays, unless it moves the phase to COUNTDOWN or RACING |
| RoomTheorems.SilentAreDropped | server/src/server.c:111-111 | `advance` removes exactly the players that have been silent for five seconds |
| Heartbeats.SeenIsLastHeard | server/src/server.c:176-201 | In every run of the room, the time recorded for a present player is that of its last delivered PING, owed PONG, stored movement or executed command, or of its seating |
| Heartbeats.LookDropsExactly | server/src/server.c:110-111 | In every run, when the room looks for silent players, one that was present remains if and only if it does not leave and its last sign of life, the packet just handled included, is less than five seconds old |
| Heartbeats.HeardPlayersStay | server/src/server.c:111-111 | In every run of a new room with a clock that does not run backwards, a present player that has not asked to leave remains at a look if and only if it was heard from less than five seconds before |
| Heartbeats.PacketHeard | server/src/server.c:141-201 | A packet sets the recorded time of exactly the player of whom it is a sign of life; whoever is present afterwards was present before or has just been seated |
| RoomEffects.LobbyEdge | server/src/server.c:113-113 | LOBBY is left if and only if the number of present players not timed out is the expected one and each of them has selected |
| RoomEffects.LoadingEdge | server/src/server.c:114-118 | LOADING is left if and only if everyone who stays has loaded; the start is then two seconds ahead and armed by nobody, and no other record changes |
| RoomEffects.CountdownEdge | server/src/server.c:119-128 | COUNTDOWN is left if and only if everyone who stays has armed the start and it has come; the start is put off to two seconds ahead if and only if someone has not and it is at most half a second ahead |
| RoomEffects.RacingEdge | server/src/server.c:129-129 | RACING gives way to RESULTS if and only if everyone who stays has finished |
| RoomEffects.EmptyAdvance | server/src/server.c:97-112 | When nobody stays, the room ends in an empty lobby, of a new generation if and only if somebody had been present |
| RoomEffects.LobbyIsFresh | server/src/server.c:88-96 | A new lobby keeps of each present player exactly address, token, nonce, time heard, ping, command number, orientation and car; movement number, position and armed start restart from zero, and other slots are blank |
| RoomEffects.DepartureHost | server/src/server.c:97-104 | When a player goes and others remain, the host becomes the lowest present slot if it was the host that went, and otherwise stays; the slot is blanked in the lobby and marked disconnected at the origin later |
| RoomEffects.PingAnswered | server/src/server.c:187-190 | A PING changes exactly the time its sender was heard, and is answered with its stamp and that time |
| RoomEffects.PongHeard | server/src/server.c:181-186 | A PONG counts exactly when it answers the ping the room last sent, and then does so once |
| RoomEffects.MovementStored | server/src/server.c:192-198 | A movement is stored, whole, exactly when room and player are racing, it is for this race, and its number is newer |
| RoomEffects.StrangersIgnored | server/src/server.c:176-179 | A packet other than HELLO whose session, token and address are not one present player's changes nothing and is not answered |
| RoomEffects.OutOfSequenceIgnored | server/src/server.c:199-201 | A command that is not its player's next one, or is for another race, changes nothing and is not answered |
| RoomEffects.GrantedIsValid | server/src/server.c:203-224 | A command is accepted exactly under the phase, status, host and range conditions written out for its kind |
| RoomEffects.CommandEffect | server/src/server.c:199-240 | The next command of a player leaves in its sender's record the command's number, the time heard and exactly the fields of that command if granted; settings change exactly by a granted CONFIG, LEAVE removes its sender, a granted NEXT starts another race |
| RoomEffects.CommandAnswered | server/src/server.c:226-239 | A refusal is sent exactly when the command was not granted, and everyone present afterwards is sent a snapshot of the resulting room with its own acknowledgement |
| RoomEffects.HelloSeated | server/src/server.c:151-175 | A HELLO that nothing speaks against seats its sender in the lowest free slot with the fresh token, makes it host if there is none, and sends the WELCOME and a snapshot to all |
| RoomEffects.HelloRepeated | server/src/server.c:161-164 | A HELLO from a present player's address is answered with its WELCOME again if the nonce is the same, changes nothing, and is otherwise ignored |
| RoomEffects.HelloTurnedAway | server/src/server.c:154-166 | A HELLO is refused for a wrong key, before the owner, after the lobby or in a full room, in that order of reasons, and changes nothing |
| RoomEffects.SnapshotTells | server/src/server.c:74-87 | A snapshot shows each slot's own status, car, position, orientation, movement number and age in milliseconds, the bits of those armed for the start, and the room's settings |
| RoomEffects.PositionShown | server/src/server.c:81-82 | In every run of the room, the position a snapshot shows for a player who races on is that of the delivered movement with the greatest number, or the one shown before if none is newer |
| RoomEffects.TickSends | server/src/server.c:283-284 | A tick sends everyone then present the next snapshot of the advanced room, and nothing if that has closed |
| RoomEffects.HeartbeatSends | server/src/server.c:285-297 | A heartbeat marks and pings exactly the present players |
| RoomEffects.ClosingTells | server/src/server.c:317-322 | Closing changes nothing else and tells exactly the present players |
| RoomEffects.PacketNumber | server/src/server.c:151-240 | After any packet a present player's movement number is zero if it has just come or the race is new, that of the movement just stored, or what it was |
| RoomSteps.ReceiveStep | server/src/server.c:141-240 | Every packet in every state keeps the room invariant and is an allowed evolution |
| RoomSteps.DropStep | server/src/server.c:97-104 | A departure keeps the room invariant, is an allowed evolution, and keeps identity, counter, car and status of every player that stays |
| RoomSteps.DropEffect | server/src/server.c:97-104 | A departure begins a lobby exactly when the only player leaves and is not an owner in slot 0; an owner's departure, and no other, closes the room; otherwise generation, phase, start and every other record stay |
| RoomSteps.BeginLobbyStep | server/src/server.c:88-96 | A new lobby keeps the invariant and every present player's identity, counter and car |
| RoomSteps.AdvanceStep | server/src/server.c:110-130 | `advance` keeps the invariant and only resets or releases the players it keeps |
| RoomSteps.SeatedStep | server/src/server.c:151-175 | Seating keeps distinct endpoints and tokens, the player limit, and the owner's claim to slot 0 |
| RoomSteps.ExecuteStep | server/src/server.c:199-240 | Executing any command, valid or not, keeps the invariant |
| RoomSteps.TickStep | server/src/server.c:283-284 | A periodic tick keeps the invariant and is an allowed evolution |
| RoomSteps.CreatedInvariant | server/src/server.c:242-267 | A room created with an accepted configuration satisfies the invariant |
| Congruence.ReceiveCongruent | server/src/server.c:141-240 | The room cannot tell counters with equal 32-bit images apart: equal images in, equal images and datagrams out |
| Congruence.RunsAgree | server/src/server.c:191-201 | Over every run the 32-bit room is the image of the unwrapped one, through any number of wrap-arounds |
| NarrowSystem.RunImage | shared/fzvs_protocol.h:18-31 | Over every run the system of 32-bit room, 32-bit clients and 32-bit datagrams is the image of the unwrapped system, through any number of wrap-arounds |
| NarrowSystem.RunLifts | shared/fzvs_protocol.h:18-31 | Conversely, every run of the 32-bit system in which each delivered datagram is the image of one in its window, tokens are fresh and the user asks only for CONFIG and NEXT is the image of a run of the unwrapped system |
| NarrowSystem.StepImage | shared/fzvs_protocol.h:18-31 | Whatever can happen in the unwrapped system can happen in the 32-bit one, with the image of the outcome, including everything that is sent |
| NarrowSystem.ReadyIsPossible | shared/fzvs_protocol.h:18-31 | What can happen in the 32-bit system is the image of something possible in the unwrapped one, and is the image of a step exactly when the assumptions hold of one such event |
| NarrowSystem.TickMails | client/fzvs_client.cpp:132-147 | What the in-place tick sends is what the 32-bit system sends |
| NarrowSystem.FrameMails | client/fzvs_client.cpp:310-314 | What the in-place frame sends is what the 32-bit system sends |
| Servers.Server.ReceivePacket | server/src/server.c:141-240 | The in-place server handles every packet as the state machine does, including what it sends; what that is, slot by slot, is said by the `RoomEffects` and `Heartbeats` laws |
| Servers.Server.DoAdvance | server/src/server.c:110-130 | In-place `advance` is the state machine's, whose guard for each phase edge is `LobbyEdge`, `LoadingEdge`, `CountdownEdge` and `RacingEdge` and whose departures are `LookDropsExactly` |
| Servers.Server.DropTimedOut | server/src/server.c:111-111 | The timeout loop drops exactly the silent players, slot by slot |
| Servers.Server.DoDrop | server/src/server.c:97-104 | In-place `drop` with its early return for the owner |
| Servers.Server.DoBeginLobby | server/src/server.c:88-96 | The slot loop clears absent players and resets present ones as `LobbyIsFresh` says, field by field |
| Servers.Server.TestAllAtLeast | server/src/server.c:105-109 | True exactly when somebody is present and nobody present is below the status |
| Servers.Server.DoPublish | server/src/server.c:74-87 | Exactly the present players are sent the same view under the next number, each with its own acknowledgement; `SnapshotTells` says what the view shows |
| Servers.Server.ExecuteCommand | server/src/server.c:199-240 | In-place execution: acknowledgement and refusal, then NEXT or LEAVE, then `advance` and a snapshot |
| Servers.Server.HandleHello | server/src/server.c:151-175 | In-place admission with every refusal, the repeated WELCOME, and a failed token |
| Servers.Server.PollTick | server/src/server.c:283-284 | The periodic part of a poll, with no snapshot once closed |
| Servers.Server.DoPingAll | server/src/server.c:285-297 | Every present player, and no other, is pinged and marked |
| Servers.Server.DoClose | server/src/server.c:317-322 | Every present player, and no other, is told, and the room is closed |
| Servers.Server.constructor | server/src/server.c:249-254 | A new room is empty, open and in LOBBY |
| ClientObjects.Client.ReceivePacket | client/fzvs_client.cpp:78-123 | The in-place client handles every packet as the state machine does, including its replies |
| ClientObjects.Client.DoTakeSnapshot | client/fzvs_client.cpp:106-122 | Acknowledgement, race change, new view and re-arming happen in that order |
| ClientObjects.Client.Enqueue | client/fzvs_client.cpp:73-77 | A command is appended under the next 32-bit number unless offline or eight are waiting |
| ClientObjects.Client.PopAcknowledged | client/fzvs_client.cpp:109-109 | Exactly the leading acknowledged commands leave the queue |
| ClientObjects.Client.BufferSnapshot | client/fzvs_client.cpp:256-259 | The buffer is the newest sixteen samples |
| ClientObjects.Client.DoTick | client/fzvs_client.cpp:132-147 | User requests join the queue, and of the queue only the front is ever sent |
| ClientObjects.Client.DoFrame | client/fzvs_client.cpp:273-321 | The in-place frame follows the state machine, and the setup bytes it writes are the ones the agreement theorems speak of |
| ClientObjects.Client.Arrived | client/fzvs_client.cpp:304-305 | The mask loop computes the release barrier: RACING, or somebody present, all present armed, and the start reached; `BarrierOpensExactly` says so of the frame |
| ClientObjects.Client.WriteCars | client/fzvs_client.cpp:222-225 | The slot loop writes the machine of each opponent and four palettes |
| ClientObjects.Client.DoResetGame | client/fzvs_client.cpp:210-213 | A race change forgets selection, arming, start and buffer |
| ClientObjects.Client.DoFail | client/fzvs_client.cpp:34-38 | A failure closes the connection and empties the buffer |
| ClientObjects.Client.DoDetach | client/fzvs_client.cpp:60-67 | LEAVE goes out exactly when connected with nothing in flight; queue, buffer and requests are gone |
| Words.WindowedComparison | shared/fzvs_protocol.h:31-31 | Less than 2^31 apart, the 32-bit comparison is the comparison of the unwrapped counters, wrapped or not |
| Words.SerialTrichotomy | shared/fzvs_protocol.h:31-31 | Of two different numbers exactly one is newer, except at distance 2^31, where neither is |
| Wire.DecodeAfterEncode | shared/fzvs_protocol.h:32-47 | Decoding an encoded packet returns it with the unused payload zeroed |
| Wire.EncodeAfterDecode | shared/fzvs_protocol.h:32-47 | Encoding a decoded packet returns the identical bytes |
| Wire.AcceptedExactlyEncodings | shared/fzvs_protocol.h:40-47 | A datagram is accepted if and only if it encodes some packet |
| Wire.Le64RoundTrip | shared/fzvs_protocol.h:25-30 | Little-endian 64-bit fields round-trip in both directions |
| Wire.LittleEndian | shared/fzvs_protocol.h:25-30 | Every field is the sum of its bytes weighted from the lowest |
| Wire.Encode | shared/fzvs_protocol.h:32-39 | The buffer encoder succeeds exactly on valid packets that fit, writes the datagram and nothing beyond it, and writes nothing on refusal |
| Wire.Decode | shared/fzvs_protocol.h:40-47 | The buffer decoder succeeds exactly on encodings and returns the one canonical packet |
| Payloads.CommandRoundTrip | server/src/server.c:202-224 | The server reads back exactly the command written, and each command from one byte sequence only |
| Payloads.SnapshotRoundTrip | client/fzvs_client.cpp:102-119 | The client reads out of a snapshot exactly the view the server put in |
| Payloads.MovementRoundTrip | server/src/server.c:192-198 | Movement payloads read back what was written |
| Datagrams.EndToEnd | shared/fzvs_protocol.h:32-47 | What a receiver reads out of the datagram of a packet is that packet, body included, with its counters cut to 32 bits |
| Datagrams.BodyRoundTrip | server/src/server.c:132-154 | Every message body but the refusal of a command reads back as it was written |
| Datagrams.SnapshotsArrive | server/src/server.c:74-87 | In every run of a room on packets as they come off the wire, the snapshot it would send fits its payload and reaches the client's reader as the view of the room at that moment |
| Interpolation.Rendered | client/fzvs_client.cpp:233-255 | For every buffer, sorted or not: an end is held outside the buffered times; strictly inside, the scan stops at a bracketing pair, never divides by zero, and every car is drawn at the whole numbers nearest to the line through its two samples at the render time, and to the shorter arc |
| Interpolation.BlendSamples | client/fzvs_client.cpp:244-251 | The loop blends each of the four cars and nothing else; `DrawnOnLine` says what that draws |
| Interpolation.BlendBetween | client/fzvs_client.cpp:246-248 | A blended coordinate lies between its samples and reaches the later one at fraction 1 |
| Interpolation.BlendOnLine | client/fzvs_client.cpp:246-248 | A blended coordinate is the whole number nearest to a + (b - a) * f, ties away from zero, for every fraction |
| Interpolation.BlendSteady | client/fzvs_client.cpp:246-248 | It is monotone in the fraction, in the direction of the later sample |
| Interpolation.NearestFollows | client/fzvs_client.cpp:246-251 | The nearest whole number with ties away from zero is unique and monotone in the value |
| Interpolation.TurnIsShortest | client/fzvs_client.cpp:249-250 | The turn is the unique difference in -128..127 that leads to the later orientation |
| Interpolation.RotateOnArc | client/fzvs_client.cpp:249-251 | A blended orientation lies on that arc, at most 128 steps along, and ends at the later value modulo 256 |
| Interpolation.RotateOnLine | client/fzvs_client.cpp:249-251 | A blended orientation is, modulo 256, the whole number nearest to the point at that fraction of the shorter arc |
| Interpolation.TurnSteady | client/fzvs_client.cpp:249-251 | Before it is reduced it moves monotonically along that arc |
| Interpolation.DrawnOnLine | client/fzvs_client.cpp:240-253 | What is drawn between two samples lies, for every car, on its line and arc at the render time; everything but the position is as in the earlier sample |
| Interpolation.BlendedPeersFaithful | client/fzvs_client.cpp:243-252 | A drawn car keeps its status and machine, stays in the box of its two positions, and lands exactly on the later sample |
| Interpolation.DelayBounds | client/fzvs_client.cpp:230-232 | The delay is between 50 and 100 ms, and 50 ms plus twice the jitter in between; the ends are reached exactly outside 0 to 25 ms of jitter |
| RomPatching.RomRestoration | client/fzvs_client.cpp:208-213 | After any run of frames, race changes, failures, detaches and attaches: failure and detach leave exactly the attached ROM, a race change leaves it except for the title tiles, and every ROM replaced by an attach was left as it had been attached, whatever was patched |
| RomPatching.StepSound | client/fzvs_client.cpp:157-159 | Every step keeps: saved bytes are the attached ROM's, bytes not saved are untouched, title and game saves are disjoint |
| RomPatching.FramePatchesSafe | client/fzvs_client.cpp:219-229 | No patch of any frame touches a title tile or leaves the ROM |
| RomPatching.PatchListWritten | client/fzvs_client.cpp:157-159 | After a list of patches every covered address holds the value of the last patch that covers it, saved before or not, and every other address is untouched |
| RomPatching.FrameShows | client/fzvs_client.cpp:282-309 | The same of every frame of a live client |
| RomPatching.AttachShows | client/fzvs_client.cpp:160-207 | Attaching shows the title art in the title tiles and leaves the rest of the ROM as attached |
| RomPatching.TitleLayout | client/fzvs_client.cpp:203-206 | The title is laid out in five columns of an upper and a lower tile of 32 bytes |
| RomPatching.TitleAddressesDistinct | client/fzvs_client.cpp:191-206 | No title byte is written twice, so overwriting its saved value cannot lose the original |
| RomPatching.Patcher.Patch | client/fzvs_client.cpp:157-159 | The in-place loop saves each byte the first time only and writes it every time; `PatchListWritten` says what is then in the ROM |
| RomPatching.Patcher.PatchTitle | client/fzvs_client.cpp:160-207 | Title tiles are patched at most once per attachment |
| RomPatching.Patcher.Release | client/fzvs_client.cpp:34-38 | Failure and detach leave the emulator's ROM equal to the attached one |
| Bridge.SessionOverlaid | patches/ares/0008-local-debug-bridge.patch:1100-1133 | After any requests, accepted or refused, the ROM is the original overlaid with disjoint active patches |
| Bridge.AnyOrderRestores | patches/ares/0008-local-debug-bridge.patch:1151-1175 | Reverting the active patches in any order restores the original ROM and empties the table |
| Bridge.RevertOnlyOwnBytes | patches/ares/0008-local-debug-bridge.patch:1151-1175 | Whoever else writes the ROM, a revert succeeds exactly when it finds its own replacement, and otherwise changes nothing |
| Bridge.ApplyKeepsTable | patches/ares/0008-local-debug-bridge.patch:1100-1133 | Whoever else writes the ROM, active patches stay disjoint and inside it, and a refused patch changes nothing |
| Bridge.ApplyExactly | patches/ares/0008-local-debug-bridge.patch:1100-1133 | A patch is accepted if and only if it replaces 1 to 65536 bytes by as many, with the right hash, inside the ROM, clear of the active patches and finding what it expects; it is then in the ROM and, under a new number, in the table, and nothing else has changed |
| Bridge.ApplyRefused | patches/ares/0008-local-debug-bridge.patch:1105-1121 | A refusal changes nothing and gives the first reason in the order of the tests |
| Bridge.RegionsDoNotWrap | patches/ares/0008-local-debug-bridge.patch:624-626 | The 64-bit range check accepts exactly the regions inside the memory, without wrapping |
| Bridge.HexRoundTrip | patches/ares/0008-local-debug-bridge.patch:575-622 | Decoding encoded bytes returns them |
| Bridge.NibbleOfDigit | patches/ares/0008-local-debug-bridge.patch:577-582 | Digits are written in upper case and read in either |
| Bridge.OnlyDigits | patches/ares/0008-local-debug-bridge.patch:577-582 | No other character is read as a digit |
| Bridge.EncodeHex | patches/ares/0008-local-debug-bridge.patch:608-618 | The encoding loop writes two upper-case digits for each byte |
| Bridge.DecodeHex | patches/ares/0008-local-debug-bridge.patch:575-592 | The decoding loop accepts exactly the non-empty even strings of digits of either case |
| Bridge.Patches.RomPatch | patches/ares/0008-local-debug-bridge.patch:1100-1133 | The in-place request has the table's answer and effect, with the errors in the program's order |
| Bridge.Patches.RomPatchRevert | patches/ares/0008-local-debug-bridge.patch:1151-1175 | The same for a revert |
| Sessions.Freshness | client/fzvs_session.cpp:174-182 | In every interleaving a stored connection has the newest generation, which is a host or join, and carries what that request asked for; so did every delivered one when it was delivered; the queue never exceeds eight |
| Sessions.StopSilences | client/fzvs_session.cpp:198-234 | After a stop nothing is stored or delivered until a later host or join is accepted, even if an older resolution completes |
| Sessions.StopIsAccepted | client/fzvs_session.cpp:174-174 | A stop is accepted however full the queue, and discards what was queued |
| Sessions.AcceptedExactly | client/fzvs_session.cpp:174-174 | A request is accepted if and only if a worker can be had and, unless it is a stop, fewer than eight wait; it is then last in the queue under a new generation |
| Sessions.HostReachesUser | client/fzvs_session.cpp:208-228 | A host request that is the newest when its server exists is delivered with its address, key and nonce |
| Sessions.JoinReachesUser | client/fzvs_session.cpp:229-234 | A join request that is the newest when its name is resolved is delivered with that address and its key, and not at all if the name was not found |
| Sessions.PollShown | client/fzvs_session.cpp:235-243 | What is shown after each outcome of a poll of the newest request's server |
| Sessions.BeginningShown | client/fzvs_session.cpp:204-229 | What is shown when the newest request has begun: idle, an error or resolving |
| Sessions.ShownState | client/fzvs_session.cpp:273-277 | The worker's state is shown exactly for the newest request, except that connected stays |
| Sessions.RestartedWorkerIsQuiet | client/fzvs_session.cpp:273-280 | After a worker has exited, in every continuation the worker that replaces it stores, delivers and shows nothing until it begins a command |
| Sessions.ConnectedSticks | client/fzvs_session.cpp:273-277 | A connecting session reported connected is shown connected under its generation in every continuation, until a new request is accepted or the worker exits, although the worker itself only knows that it is connecting |
| Sessions.NothingWaits | client/fzvs_session.cpp:204-210 | Requests are processed in the order of acceptance: once the newest is in progress, none waits |
| Sessions.SessionObject.EnqueueCommand | client/fzvs_session.cpp:174-174 | A request is refused only without a worker or when eight wait; acceptance is a new generation and drops the stored connection |
| Sessions.SessionObject.Take | client/fzvs_session.cpp:182-182 | A stored connection is handed over at most once and only if it is current |
| Sessions.SessionObject.BeginCommand | client/fzvs_session.cpp:208-229 | A command replaces whatever the worker was doing |
| Sessions.SessionObject.FinishResolution | client/fzvs_session.cpp:230-234 | A resolved address is stored only if its operation is still current |
| Sessions.SessionObject.PublishState | client/fzvs_session.cpp:273-277 | Only the current operation's state is shown, and connecting does not replace connected |
| EventRings.NewestAreQueued | server/src/server.c:49-55 | After any run the queue is the newest at most 256 undrained events, and logged = drained + dropped + queued |
| EventRings.RingDropsFirst | server/src/server.c:313-316 | Advancing the head of the wrapped array removes exactly the oldest event |
| EventRings.RingAppends | server/src/server.c:49-55 | Writing behind the last entry of the wrapped array appends exactly that event |
| EventRings.EventRing.LogEvent | server/src/server.c:49-55 | The in-place ring logs as the queue does, dropping and counting the oldest when full |
| EventRings.EventRing.NextEvent | server/src/server.c:313-316 | Draining returns the oldest queued event, or nothing exactly when the queue is empty |

## Left out

- Sockets, polling, name resolution, discovery, random numbers, log text and readiness files: their results are
  arguments or events.
- A HELLO of another protocol version, which does not decode and is answered with a refusal (server/src/server.c:144-146):
  the room model starts from decoded packets.
- Statistics (received, sent, rejected and stale counts, round-trip time, jitter, rates, `phase_since`) and the status
  call: they influence nothing that is modelled.
- 64-bit overflow of the microsecond clock and of the start deadline: times are unbounded. The unsigned difference used
  for heartbeats and ages is modelled (`Words.Elapsed`).
- Timers: which of hello, retry and ping are due, the host's automatic NEXT, the loss of contact and the estimate of the
  server's time are nondeterministic inputs, and a client may fail at any moment.
- Writing opponents' positions to game memory each frame, the title-screen sprites, overlay, scripted buttons, the
  published view and baseline mode of the client.
- The drawing of the title glyphs: the 320 tile bytes are a parameter.
- The emulator's reset is taken not to write the ROM.
- Interpolation.Rendered: the fall-through after the scan is not modelled, because the scan is proved to stop inside the
  buffer. Rounding of doubles is not modelled.
- Session: the exit of the worker thread and its join are one step; what a poll of the hosted server comes to is an
  input; discovery and the ready file are not modelled, nor is the text of messages and events.
- Datagrams.BodyRoundTrip: the refusal of a command is not carried through the bytes; its reader only logs it.
- Bridge: JSON parsing and the SHA-256 text are not modelled, and the comparison of hashes is a boolean input; patch
  names are numbers; a ROM is at most 16 MB, so 24-bit addresses do not truncate; clearing the table when a game is
  unloaded is not modelled.
- Client patches and bridge patches applied to the same ROM at the same time.
- Liveness beyond `Progress.StreamProgresses`: that retransmissions are eventually delivered is not claimed.
- The `mcp` and `scripts` directories, client/fzvs_presentation.hpp, server/src/main.c and the emulator's own patches.
