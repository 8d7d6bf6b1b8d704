/** Runs of the system that show three of its less obvious behaviours. */
module Scenarios {
  import opened Words
  import opened Messages
  import opened Rooms
  import opened RoomInvariants
  import opened RoomSteps
  import T = RoomTheorems
  import opened Network
  import opened SystemTheorems
  import N = Onward
  import C = Clients

  /** A room for two, with no owner and no key. */
  const HALL: Room := Created(7, 0, [], 2, 0, 0)

  const EARLY := Times(0, 0, 0, 0)

  /** A frame in which the game shows nothing in particular, one that leaves the car selection, one at the starting
      line (with the start reached, by the client's estimate, or not), and one that crosses the finishing line. */
  const IDLE := C.Frame(0, 0, 0, 0, 0, 0, 0, false, false)
  const CHOSEN := IDLE.(ram55 := 5)
  const AT_LINE := IDLE.(ram54 := 2, ram56 := 2)
  const OFF := AT_LINE.(reached := true)
  const CROSSING := IDLE.(ram54 := 3)

  // Short runs.

  lemma RunTwo(s: System, a: Event, b: Event)
    ensures Run(s, [a, b]) == Do(Do(s, a), b)
  {
    hide Do;
    assert [a, b][..1] == [a] && [a][..0] == [];
    assert Run(s, [a]) == Do(Run(s, []), a);
  }

  lemma RunThree(s: System, a: Event, b: Event, c: Event)
    ensures Run(s, [a, b, c]) == Do(Do(Do(s, a), b), c)
  {
    hide Do;
    assert [a, b, c][..2] == [a, b];
    RunTwo(s, a, b);
  }

  lemma RunFour(s: System, a: Event, b: Event, c: Event, d: Event)
    ensures Run(s, [a, b, c, d]) == Do(Do(Do(Do(s, a), b), c), d)
  {
    hide Do;
    assert [a, b, c, d][..3] == [a, b, c];
    RunThree(s, a, b, c);
  }

  // Steps of a client.

  lemma Ticks(s: System, n: nat, hello: bool, retry: bool)
    requires n in s.clients
    ensures Do(s, ClientTicks(n, hello, retry, false, 0))
      == AfterClient(s, n, C.Tick(s.clients[n], hello, retry, false, 0))
  {
    hide C.Tick;
  }

  lemma Draws(s: System, n: nat, f: C.Frame)
    requires n in s.clients
    ensures Do(s, ClientFrames(n, f)) == AfterClient(s, n, C.StepFrame(s.clients[n], f))
  {
    hide C.StepFrame;
  }

  lemma Receives(s: System, n: nat, p: Packet)
    requires n in s.clients && ToClient(s.clients[n].address, p) in s.net && ClientWindow(s.clients[n], p)
    ensures Do(s, ClientReceives(n, p)) == AfterClient(s, n, C.Receive(s.clients[n], p))
  {
    hide C.Receive, ClientWindow;
  }

  // Joining.

  /** A client that has been welcomed and has seen no snapshot yet. */
  function Welcomed(n: nat, slot: nat, token: nat): C.State {
    C.Attached(n, n, []).(slot := slot, session := 7, token := token, race := 1)
  }

  function HelloFrom(n: nat): Packet {
    Packet(0, 0, 0, 0, 0, Hello(n, []))
  }

  function WelcomeTo(n: nat, slot: nat, token: nat): Packet {
    Packet(7, token, 1, 0, 0, Welcome(slot, n))
  }

  function JoinEvents(n: nat, slot: nat, token: nat): seq<Event> {
    [Attach(n, n, []), ClientTicks(n, true, false, false, 0), RoomReceives(n, HelloFrom(n), EARLY, token),
     ClientReceives(n, WelcomeTo(n, slot, token))]
  }

  /** The room can seat a player at this address. */
  predicate Vacant(r: Room, n: nat, slot: nat) {
    && !r.closed && r.session == 7 && r.race == 1 && r.key == [] && r.ownerNonce == 0 && r.phase == Lobby
    && Resident(r.players, n) == 4 && Count(r.players) < r.expected && FirstFree(r.players) == slot < 4
  }

  function WithPlayer(r: Room, n: nat, slot: nat, token: nat): Room
    requires slot < 4
  {
    Publish(Seated(r, slot, n, token, n, 0), 0).room
  }

  lemma Joins(s: System, n: nat, slot: nat, token: nat)
    requires n !in s.clients && token !in s.owners && token != 0 && slot < 4 && Vacant(s.room, n, slot)
    ensures var s' := Run(s, JoinEvents(n, slot, token));
      && s'.room == WithPlayer(s.room, n, slot, token)
      && s'.clients == s.clients[n := Welcomed(n, slot, token)]
      && s'.owners == s.owners[token := n]
      && token in s'.processed
  {
    hide Run, Do, Vacant, WithPlayer;
    var es := JoinEvents(n, slot, token);
    RunFour(s, es[0], es[1], es[2], es[3]);
    var s1 := s.(clients := s.clients[n := C.Attached(n, n, [])]);
    assert Do(s, es[0]) == s1 by { Attaches(s, n); }
    Ticks(s1, n, true, false);
    SaysHello(n);
    var s2 := AfterClient(s1, n, C.Reply(C.Attached(n, n, []), {ToServer(n, HelloFrom(n))}));
    HelloSeats(s, s2, n, slot, token);
    var s3 := Do(s2, RoomReceives(n, HelloFrom(n), EARLY, token));
    IsWelcomed(n, slot, token);
    Receives(s3, n, WelcomeTo(n, slot, token));
    assert s3.clients[n := Welcomed(n, slot, token)] == s.clients[n := Welcomed(n, slot, token)];
  }

  lemma Attaches(s: System, n: nat)
    requires n !in s.clients
    ensures Do(s, Attach(n, n, [])) == s.(clients := s.clients[n := C.Attached(n, n, [])])
  {
  }

  lemma SaysHello(n: nat)
    ensures C.Tick(C.Attached(n, n, []), true, false, false, 0)
      == C.Reply(C.Attached(n, n, []), {ToServer(n, HelloFrom(n))})
  {
  }

  lemma IsWelcomed(n: nat, slot: nat, token: nat)
    requires slot < 4 && token != 0
    ensures C.Receive(C.Attached(n, n, []), WelcomeTo(n, slot, token)) == C.Reply(Welcomed(n, slot, token), {})
    ensures ClientWindow(C.Attached(n, n, []), WelcomeTo(n, slot, token))
  {
  }

  lemma HelloSeats(s: System, s2: System, n: nat, slot: nat, token: nat)
    requires token != 0 && token !in s.owners && Vacant(s.room, n, slot) && s2.room == s.room && s2.owners == s.owners
    requires ToServer(n, HelloFrom(n)) in s2.net
    ensures var s3 := Do(s2, RoomReceives(n, HelloFrom(n), EARLY, token));
      && s3.room == WithPlayer(s.room, n, slot, token)
      && s3.clients == s2.clients && s3.owners == s2.owners[token := n] && s3.processed == s2.processed[token := []]
      && ToClient(n, WelcomeTo(n, slot, token)) in s3.net
  {
    hide Publish;
  }

  // Commands.

  function Order(token: nat, number: nat, command: Command): Packet {
    Packet(7, token, 1, number, 0, Reliable(command))
  }

  /** Slot `i` belongs to this token and address alone, and the command with this number comes next. */
  predicate Expects(r: Room, i: nat, n: nat, token: nat, number: nat) {
    && i < 4 && !r.closed && r.session == 7 && r.race == 1
    && Occupied(r.players[i]) && r.players[i].token == token && r.players[i].address == n
    && (forall j :: 0 <= j < 4 && j != i ==> r.players[j].token != token)
    && number == r.players[i].commandSeq + 1 && number < HALF
  }

  lemma ExpectedExecutes(r: Room, i: nat, n: nat, token: nat, number: nat, command: Command)
    requires Expects(r, i, n, token, number)
    ensures Sender(r, n, Order(token, number, command)) == i
    ensures Executes(r, n, Order(token, number, command)) && RoomWindow(r, n, Order(token, number, command))
  {
    var p := Order(token, number, command);
    assert IsSender(r, i, n, p);
    assert forall j :: 0 <= j < 4 && j != i ==> !IsSender(r, j, n, p);
    WindowedComparison(number, r.players[i].commandSeq);
  }

  lemma Obeys(s: System, i: nat, n: nat, token: nat, number: nat, command: Command, at: Times)
    requires Expects(s.room, i, n, token, number) && 0 !in s.owners
    requires ToServer(n, Order(token, number, command)) in s.net
    ensures var s' := Do(s, RoomReceives(n, Order(token, number, command), at, 0));
      var o := Execute(s.room, i, number, command, at);
      s'.room == o.room && s'.net == s.net + o.sent && s'.clients == s.clients && s'.owners == s.owners
  {
    hide Executes, Execute, Receive, RoomWindow, Expects, Sender;
    var p := Order(token, number, command);
    ExpectedExecutes(s.room, i, n, token, number, command);
    ReceiveExecutes(s.room, n, p, at, 0);
  }

  // Two lobbies in one step.

  const LATE := Times(HEARTBEAT, HEARTBEAT, HEARTBEAT, HEARTBEAT)
  const NEXT_LATE := Times(0, 0, HEARTBEAT, HEARTBEAT)

  /** One player joins, and its user asks for the next race. */
  function NextEvents(): seq<Event> {
    JoinEvents(1, 0, 11) + [ClientRequests(1, Next), ClientTicks(1, false, true, false, 0)]
  }

  lemma HallVacant()
    ensures Vacant(HALL, 1, 0)
    ensures var r := WithPlayer(HALL, 1, 0, 11);
      && r == HALL.(snapshotSeq := 1, host := 0, players := [NewPlayer(1, 11, 1, 0), BLANK, BLANK, BLANK])
      && Vacant(r, 2, 1)
  {
    assert HALL.players == [BLANK, BLANK, BLANK, BLANK];
    assert WithPlayer(HALL, 1, 0, 11).players == [NewPlayer(1, 11, 1, 0), BLANK, BLANK, BLANK];
  }

  /** A run after which delivering one NEXT begins two lobbies: it is executed, and its sender, who is alone, is found
      silent in the same step. */
  lemma TwoLobbiesInOneStep()
    ensures NewRoom(HALL)
    ensures var s := Reached(HALL, NextEvents());
      var e := RoomReceives(1, Order(11, 1, Next), NEXT_LATE, 0);
      Enabled(s, e) && Step(s, e).room.race == s.room.race + 2
  {
    hide Run, Do, Step, WithPlayer, Vacant, Ok;
    HallVacant();
    Joins(Start(HALL), 1, 0, 11);
    var join := JoinEvents(1, 0, 11);
    var s1 := Reached(HALL, join);
    var ask, tick := ClientRequests(1, Next), ClientTicks(1, false, true, false, 0);
    RunSplit(Start(HALL), join, [ask, tick]);
    RunTwo(s1, ask, tick);
    AsksForNext(s1);
    var s := Reached(HALL, NextEvents());
    NextTwice(s);
  }

  lemma AsksForNext(s: System)
    requires 1 in s.clients && s.clients[1] == Welcomed(1, 0, 11)
    ensures var s' := Do(Do(s, ClientRequests(1, Next)), ClientTicks(1, false, true, false, 0));
      s'.room == s.room && s'.owners == s.owners && ToServer(1, Order(11, 1, Next)) in s'.net
  {
    hide Do, C.Tick, C.Request;
    var s1 := Do(s, ClientRequests(1, Next));
    Requests(s);
    Ticks(s1, 1, false, true);
    SendsNext();
  }

  lemma Requests(s: System)
    requires 1 in s.clients && s.clients[1] == Welcomed(1, 0, 11)
    ensures var s' := Do(s, ClientRequests(1, Next));
      && s'.room == s.room && s'.owners == s.owners && 1 in s'.clients
      && s'.clients[1] == Welcomed(1, 0, 11).(requests := [Next])
  {
    assert C.Request(Welcomed(1, 0, 11), Next) == Welcomed(1, 0, 11).(requests := [Next]);
  }

  lemma SendsNext()
    ensures ToServer(1, Order(11, 1, Next)) in C.Tick(Welcomed(1, 0, 11).(requests := [Next]), false, true,
      false, 0).sent
  {
    var c := Welcomed(1, 0, 11);
    assert C.QueueAll(c, [Next]) == C.Queue(C.QueueAll(c, [Next][..0]), Next) == C.Queue(c, Next);
    assert C.Queue(c, Next).pending == [C.Pending(1, Next)];
  }

  lemma NextTwice(s: System)
    requires s.room == HALL.(snapshotSeq := 1, host := 0, players := [NewPlayer(1, 11, 1, 0), BLANK, BLANK, BLANK])
    requires 0 !in s.owners && ToServer(1, Order(11, 1, Next)) in s.net
    ensures var e := RoomReceives(1, Order(11, 1, Next), NEXT_LATE, 0);
      Enabled(s, e) && Step(s, e).room.race == s.room.race + 2
  {
    hide Receive, Executes, RoomWindow, Sender;
    var r, p := s.room, Order(11, 1, Next);
    assert r.players[0] == NewPlayer(1, 11, 1, 0) && forall j :: 1 <= j < 4 ==> r.players[j] == BLANK;
    assert Expects(r, 0, 1, 11, 1);
    ExpectedExecutes(r, 0, 1, 11, 1, Next);
    assert Invariant(r);
    T.GenerationChangesInLobby(r, 1, p, NEXT_LATE, 0);
    assert T.BeginsTwo(r, 1, p, NEXT_LATE);
  }

  // A refused FINISH: the rooms.

  /** The second player of the hall, who selects a car and then falls silent. */
  const GUEST := NewPlayer(2, 12, 2, 0)
  const HOST := NewPlayer(1, 11, 1, 0)

  const START: nat := HEARTBEAT + LEAD

  function Hall(number: nat, phase: Phase, start: nat, host: Player, guest: Player): Room {
    HALL.(snapshotSeq := number, host := 0, phase := phase, start := start, players := [host, guest, BLANK, BLANK])
  }

  const BOTH := Hall(2, Lobby, 0, HOST, GUEST)
  const ONE_READY := Hall(3, Lobby, 0, HOST.(status := Selected, commandSeq := 1), GUEST)
  const LOADING := Hall(4, Loading, 0, HOST.(status := Selected, commandSeq := 1),
                        GUEST.(status := Selected, commandSeq := 1))
  const COUNTING := Hall(5, Countdown, START,
                         HOST.(status := PlayerLoaded, commandSeq := 2, seen := HEARTBEAT, updated := HEARTBEAT),
                         GUEST.(status := Disconnected, commandSeq := 1))
  const ARMED := Hall(6, Countdown, START,
                      HOST.(status := PlayerLoaded, commandSeq := 3, seen := HEARTBEAT, updated := HEARTBEAT,
                        armed := START),
                      GUEST.(status := Disconnected, commandSeq := 1))

  lemma NobodySilent(r: Room, from: nat, now: nat)
    requires from <= 4 && forall j :: 0 <= j < 4 ==> !TimedOut(r.players[j], now)
    ensures DropSilent(r, from, now) == r
    decreases 4 - from
  {
  }

  lemma HallSlots(number: nat, phase: Phase, start: nat, host: Player, guest: Player)
    ensures var r := Hall(number, phase, start, host, guest);
      && r.players[0] == host && r.players[1] == guest && r.players[2] == r.players[3] == BLANK
      && Count(r.players) == One(host) + One(guest)
      && r.players[0 := host] == r.players
  {
  }

  lemma BothSeated()
    ensures WithPlayer(WithPlayer(HALL, 1, 0, 11), 2, 1, 12) == BOTH
  {
    HallVacant();
  }

  /** What a command does before the phases advance. */
  lemma FirstSelected()
    ensures Execute(BOTH, 0, 1, Select(0), EARLY).room == ONE_READY
  {
    var r1 := Commanded(BOTH, 0, 1, Select(0), EARLY);
    assert r1.players == [HOST.(status := Selected, commandSeq := 1), GUEST, BLANK, BLANK];
    NobodySilent(r1, 0, 0);
    assert !AllAtLeast(r1.players, Selected) by { assert Occupied(r1.players[1]); }
    assert AdvancePhase(r1, 0) == r1;
  }

  lemma SecondSelected()
    ensures Execute(ONE_READY, 1, 1, Select(0), EARLY).room == LOADING
  {
    var r1 := Commanded(ONE_READY, 1, 1, Select(0), EARLY);
    var selected := HOST.(status := Selected, commandSeq := 1);
    assert r1.players == [selected, GUEST.(status := Selected, commandSeq := 1), BLANK, BLANK];
    NobodySilent(r1, 0, 0);
    assert AllAtLeast(r1.players, Selected) && Count(r1.players) == 2;
    var r2 := StartLoading(r1);
    assert r2.phase == Loading;
    assert !AllAtLeast(r2.players, PlayerLoaded) by { assert Occupied(r2.players[0]); }
    assert AdvancePhase(r1, 0) == r2;
  }

  /** The guest is dropped as silent in the step in which the host reports that it has loaded. */
  lemma GuestDropped()
    ensures Execute(LOADING, 0, 2, Loaded(0, 0, 0), LATE).room == COUNTING
  {
    var r1 := Commanded(LOADING, 0, 2, Loaded(0, 0, 0), LATE);
    var loaded := HOST.(status := PlayerLoaded, commandSeq := 2, seen := HEARTBEAT, updated := HEARTBEAT);
    assert r1.players == [loaded, GUEST.(status := Selected, commandSeq := 1), BLANK, BLANK];
    var r2 := Drop(r1, 1);
    var gone := GUEST.(status := Disconnected, commandSeq := 1);
    assert r2 == r1.(players := [loaded, gone, BLANK, BLANK]) by {
      assert Vacate(r1, 1).players == [loaded, gone, BLANK, BLANK];
    }
    assert TimedOut(r1.players[1], HEARTBEAT) && !TimedOut(r1.players[0], HEARTBEAT);
    NobodySilent(r2, 2, HEARTBEAT);
    assert DropSilent(r1, 0, HEARTBEAT) == DropSilent(r1, 1, HEARTBEAT) == r2;
    CountdownBegins(r2, loaded, gone);
  }

  lemma CountdownBegins(r: Room, loaded: Player, gone: Player)
    requires r.phase == Loading && r.players == [loaded, gone, BLANK, BLANK]
    requires loaded.status == PlayerLoaded && loaded.armed == 0 && gone.status == Disconnected && gone.armed == 0
    ensures AdvancePhase(r, HEARTBEAT) == r.(phase := Countdown, start := START)
  {
    assert AllAtLeast(r.players, PlayerLoaded) by { assert Count(r.players) == 1; }
    var r2 := StartCountdown(r, HEARTBEAT);
    assert r2.players == r.players;
    assert !AllArmed(r2.players, START) by { assert Occupied(r2.players[0]); }
  }

  lemma HostArmed()
    ensures Execute(COUNTING, 0, 3, Arm(START), LATE).room == ARMED
  {
    var r1 := Commanded(COUNTING, 0, 3, Arm(START), LATE);
    assert r1.players == ARMED.players;
    NobodySilent(r1, 0, HEARTBEAT);
    assert AdvancePhase(r1, HEARTBEAT) == r1;
  }

  // A refused FINISH: the client.

  /** The client of the host at one moment of its race. */
  predicate Stands(c: C.State, number: nat, shown: nat, game: C.Game, pending: seq<C.Pending>) {
    && c.attached && c.open && c.address == 1 && c.slot == 0 && c.session == 7 && c.token == 11 && c.race == 1
    && c.commandSeq == number && c.snapshotSeq == shown && c.game == game && c.pending == pending && c.requests == []
  }

  /** What else matters to it. */
  predicate Recalls(c: C.State, loaded: bool, armed: nat) {
    c.loadedSent == loaded && !c.finishedSent && c.armedTime == armed
  }

  lemma SendsFront(c: C.State, number: nat, shown: nat, game: C.Game, q: C.Pending)
    requires Stands(c, number, shown, game, [q]) && game != C.Offline
    ensures C.Tick(c, false, true, false, 0) == C.Reply(c, {ToServer(1, Order(11, q.number, q.command))})
  {
    assert C.QueueAll(c.(requests := []), []) == c;
  }

  /** Taking the first snapshot that acknowledges the only command in the queue. */
  lemma Sees(c: C.State, r: Room, now: nat, number: nat, shown: nat, game: C.Game, q: C.Pending)
    requires Stands(c, number, shown, game, [q]) && game != C.Offline && q.number == number
    requires PlausibleView(ViewOf(r, now)) && r.session == 7 && r.race == 1
    requires r.players[0].token == 11 && r.players[0].commandSeq == number < HALF && shown < r.snapshotSeq < HALF
    ensures var p := SnapshotTo(r, 0, now).packet;
      var c' := C.Receive(c, p).client;
      && ClientWindow(c, p) && C.Receive(c, p).sent == {}
      && c'.view == ViewOf(r, now) && c'.loadedSent == c.loadedSent && c'.finishedSent == c.finishedSent
      && if r.phase == Countdown && r.start != c.armedTime
         then c'.armedTime == r.start
              && Stands(c', number + 1, r.snapshotSeq, game, [C.Pending(number + 1, Arm(r.start))])
         else c'.armedTime == c.armedTime && Stands(c', number, r.snapshotSeq, game, [])
  {
    hide PlausibleView, C.Newest, C.Entries;
    var p := SnapshotTo(r, 0, now).packet;
    WindowedComparison(p.number, c.snapshotSeq);
    assert C.AckedCount([q], number) == 1 by { assert [q][1..] == []; }
    assert [q][1..] == [];
    assert C.Receive(c, p) == C.Reply(C.TakeSnapshot(c, p), {});
    var c1 := C.Acknowledge(c.(snapshotSeq := p.number), p.ack);
    assert c1.pending == [];
  }

  /** The host's client from the lobby to the starting line. */
  lemma DrawsToLine(c: C.State)
    requires Stands(c, 1, 4, C.Waiting, []) && Recalls(c, false, 0) && c.view == ViewOf(LOADING, 0)
    ensures var c1 := C.StepFrame(c, IDLE).client;
      var c2 := C.StepFrame(c1, IDLE).client;
      && C.StepFrame(c, IDLE).sent == C.StepFrame(c1, IDLE).sent == {}
      && Stands(c2, 1, 4, C.Location, []) && Recalls(c2, false, 0) && c2.view == c.view
  {
    hide C.PrepareWrites, C.LocateWrites, ViewOf;
    assert c.view.phase == Loading && |c.view.peers| == 4
      by { assert LOADING.phase == Loading; ViewFields(LOADING, 0); }
    var c1 := C.StepFrame(c, IDLE).client;
    assert c1.game == C.Prepare && Stands(c1, 1, 4, C.Prepare, []);
  }

  lemma ViewFields(r: Room, now: nat)
    ensures var v := ViewOf(r, now); v.phase == r.phase && v.start == r.start && |v.peers| == 4 && |v.armed| == 4
  {
  }

  lemma DrawsLoaded(c: C.State)
    requires Stands(c, 1, 4, C.Location, []) && Recalls(c, false, 0) && c.view == ViewOf(LOADING, 0)
    ensures var reply := C.StepFrame(c, AT_LINE);
      && reply.sent == {} && Recalls(reply.client, true, 0)
      && Stands(reply.client, 2, 4, C.Location, [C.Pending(2, Loaded(0, 0, 0))])
  {
    hide ViewOf, C.Someone, C.EveryoneArmed;
    ViewFields(LOADING, 0);
  }

  /** Everyone present is armed, and by its own estimate the client has reached the start: it is released, although
      the room has not started the race. */
  lemma DrawsRelease(c: C.State)
    requires Stands(c, 3, 6, C.Location, []) && Recalls(c, true, START) && c.view == ViewOf(ARMED, HEARTBEAT)
    ensures var reply := C.StepFrame(c, OFF);
      reply.sent == {} && Stands(reply.client, 3, 6, C.Race, []) && Recalls(reply.client, true, START)
  {
    hide ViewOf, C.Released;
    assert C.Released(c.view, true) by { EveryoneReady(); }
  }

  lemma EveryoneReady()
    ensures C.Released(ViewOf(ARMED, HEARTBEAT), true)
  {
    var v := ViewOf(ARMED, HEARTBEAT);
    HallSlots(6, Countdown, START, ARMED.players[0], ARMED.players[1]);
    assert Occupies(v.peers[0].status);
    assert C.Someone(v) && C.EveryoneArmed(v);
  }

  lemma DrawsFinish(c: C.State)
    requires Stands(c, 3, 6, C.Race, []) && Recalls(c, true, START)
    ensures var reply := C.StepFrame(c, CROSSING);
      reply.sent == {} && Stands(reply.client, 4, 6, C.Crossed, [C.Pending(4, Finish)])
  {
  }

  // A refused FINISH: the run.

  function Chosen(n: nat, slot: nat, token: nat): C.State {
    Welcomed(n, slot, token).(game := C.Waiting, commandSeq := 1, pending := [C.Pending(1, Select(0))],
                              selectedSent := true,
                              history := C.NO_HISTORY.(issued := [C.Issued(1, 1, Select(0))]))
  }

  function SelectEvents(n: nat, token: nat): seq<Event> {
    [ClientFrames(n, IDLE), ClientFrames(n, CHOSEN), ClientFrames(n, IDLE)]
    + [ClientTicks(n, false, true, false, 0), RoomReceives(n, Order(token, 1, Select(0)), EARLY, 0)]
  }

  lemma Chooses(n: nat, slot: nat, token: nat)
    ensures var c := Welcomed(n, slot, token);
      && C.StepFrame(c, IDLE) == C.Reply(c.(game := C.CarSelect), {})
      && C.StepFrame(c.(game := C.CarSelect), CHOSEN) == C.Reply(c.(game := C.Waiting), {})
      && C.StepFrame(c.(game := C.Waiting), IDLE) == C.Reply(Chosen(n, slot, token), {})
  {
  }

  lemma SendsChoice(n: nat, slot: nat, token: nat)
    ensures C.Tick(Chosen(n, slot, token), false, true, false, 0)
            == C.Reply(Chosen(n, slot, token), {ToServer(n, Order(token, 1, Select(0)))})
  {
    var c := Chosen(n, slot, token);
    assert C.QueueAll(c.(requests := []), []) == c;
  }

  lemma Selects(s: System, n: nat, slot: nat, token: nat)
    requires n in s.clients && s.clients[n] == Welcomed(n, slot, token) && 0 !in s.owners
    requires Expects(s.room, slot, n, token, 1)
    ensures var s' := Run(s, SelectEvents(n, token));
      var o := Execute(s.room, slot, 1, Select(0), EARLY);
      && s'.room == o.room && o.sent <= s'.net && s'.owners == s.owners
      && s'.clients == s.clients[n := Chosen(n, slot, token)]
  {
    hide Run, Do, Execute, Expects, C.StepFrame, C.Tick, Welcomed, Chosen;
    var a, b, c := ClientFrames(n, IDLE), ClientFrames(n, CHOSEN), ClientFrames(n, IDLE);
    var d, e := ClientTicks(n, false, true, false, 0), RoomReceives(n, Order(token, 1, Select(0)), EARLY, 0);
    RunSplit(s, [a, b, c], [d, e]);
    RunThree(s, a, b, c);
    Chooses(n, slot, token);
    Draws(s, n, IDLE);
    var s1 := Do(s, a);
    Draws(s1, n, CHOSEN);
    var s2 := Do(s1, b);
    Draws(s2, n, IDLE);
    var s3 := Do(s2, c);
    assert s3.clients == s.clients[n := Chosen(n, slot, token)] && s3.room == s.room && s3.owners == s.owners;
    RunTwo(s3, d, e);
    SendsChoice(n, slot, token);
    Ticks(s3, n, false, true);
    var s4 := Do(s3, d);
    Obeys(s4, slot, n, token, 1, Select(0), EARLY);
  }

  lemma HallPlausible(number: nat, phase: Phase, start: nat, host: Player, guest: Player, now: nat)
    requires host.car < 4 && guest.car < 4
    ensures PlausibleView(ViewOf(Hall(number, phase, start, host, guest), now))
  {
  }

  lemma Announced(r: Room, i: nat, number: nat, c: Command, at: Times)
    requires i < 4
    ensures var o := Execute(r, i, number, c, at);
      Occupied(o.room.players[0]) ==> SnapshotTo(o.room, 0, at.published) in o.sent
  {
    hide Commanded, Advance, Settled, CommandValid;
  }

  /** The host's client sends the only command in its queue, and the room executes it. */
  lemma Carries(s: System, number: nat, shown: nat, game: C.Game, q: C.Pending, at: Times)
    requires 1 in s.clients && Stands(s.clients[1], number, shown, game, [q]) && game != C.Offline
    requires Expects(s.room, 0, 1, 11, q.number) && 0 !in s.owners
    ensures var s' := Run(s, [ClientTicks(1, false, true, false, 0),
                              RoomReceives(1, Order(11, q.number, q.command), at, 0)]);
      var o := Execute(s.room, 0, q.number, q.command, at);
      s'.room == o.room && o.sent <= s'.net && s'.owners == s.owners && 1 in s'.clients && s'.clients[1] == s.clients[1]
  {
    hide Run, Do, Execute, Expects, C.Tick;
    var d, e := ClientTicks(1, false, true, false, 0), RoomReceives(1, Order(11, q.number, q.command), at, 0);
    RunTwo(s, d, e);
    Ticks(s, 1, false, true);
    SendsFront(s.clients[1], number, shown, game, q);
    Obeys(Do(s, d), 0, 1, 11, q.number, q.command, at);
  }

  /** The host's client takes the snapshot of the present room, which acknowledges its only command. */
  lemma Follows(s: System, now: nat, number: nat, shown: nat, game: C.Game, q: C.Pending)
    requires 1 in s.clients && Stands(s.clients[1], number, shown, game, [q]) && game != C.Offline && q.number == number
    requires PlausibleView(ViewOf(s.room, now)) && s.room.session == 7 && s.room.race == 1
    requires s.room.players[0].address == 1 && s.room.players[0].token == 11
    requires s.room.players[0].commandSeq == number < HALF && shown < s.room.snapshotSeq < HALF
    requires SnapshotTo(s.room, 0, now) in s.net
    ensures var p := SnapshotTo(s.room, 0, now).packet;
      var s' := Do(s, ClientReceives(1, p));
      s' == AfterClient(s, 1, C.Reply(C.Receive(s.clients[1], p).client, {}))
  {
    hide Do, C.Receive, PlausibleView, ClientWindow;
    var p := SnapshotTo(s.room, 0, now).packet;
    assert ToClient(1, p) in s.net;
    Sees(s.clients[1], s.room, now, number, shown, game, q);
    Receives(s, 1, p);
  }

  /** Everything up to the moment when both players have selected their cars. */
  function SelectRun(): seq<Event> {
    JoinEvents(1, 0, 11) + JoinEvents(2, 1, 12) + SelectEvents(1, 11) + SelectEvents(2, 12)
  }

  lemma BothJoin()
    ensures var s := Reached(HALL, JoinEvents(1, 0, 11) + JoinEvents(2, 1, 12));
      && s.room == BOTH && s.owners == map[11 := 1, 12 := 2]
      && s.clients == map[1 := Welcomed(1, 0, 11), 2 := Welcomed(2, 1, 12)]
  {
    hide Run, WithPlayer, Vacant, Welcomed, JoinEvents;
    HallVacant();
    BothSeated();
    Joins(Start(HALL), 1, 0, 11);
    var s := Reached(HALL, JoinEvents(1, 0, 11));
    Joins(s, 2, 1, 12);
    RunSplit(Start(HALL), JoinEvents(1, 0, 11), JoinEvents(2, 1, 12));
  }

  lemma ExpectSelections()
    ensures Expects(BOTH, 0, 1, 11, 1) && Expects(ONE_READY, 1, 2, 12, 1)
  {
    HallSlots(2, Lobby, 0, BOTH.players[0], BOTH.players[1]);
    HallSlots(3, Lobby, 0, ONE_READY.players[0], ONE_READY.players[1]);
  }

  lemma ChosenStands(c: C.State)
    requires c == Chosen(1, 0, 11)
    ensures Stands(c, 1, 0, C.Waiting, [C.Pending(1, Select(0))]) && Recalls(c, false, 0)
  {
  }

  lemma BothSelect()
    ensures var s := Reached(HALL, SelectRun());
      && s.room == LOADING && s.owners == map[11 := 1, 12 := 2]
      && 1 in s.clients && SnapshotTo(LOADING, 0, 0) in s.net
      && Stands(s.clients[1], 1, 0, C.Waiting, [C.Pending(1, Select(0))]) && Recalls(s.clients[1], false, 0)
  {
    hide Run, Execute, Welcomed, Chosen, JoinEvents, SelectEvents, Expects, SnapshotTo, Stands, Recalls;
    var join := JoinEvents(1, 0, 11) + JoinEvents(2, 1, 12);
    BothJoin();
    ExpectSelections();
    FirstSelected();
    SecondSelected();
    Selects(Reached(HALL, join), 1, 0, 11);
    RunSplit(Start(HALL), join, SelectEvents(1, 11));
    Selects(Reached(HALL, join + SelectEvents(1, 11)), 2, 1, 12);
    RunSplit(Start(HALL), join + SelectEvents(1, 11), SelectEvents(2, 12));
    Announced(ONE_READY, 1, 1, Select(0), EARLY);
    assert Occupied(LOADING.players[0]) by { HallSlots(4, Loading, 0, LOADING.players[0], LOADING.players[1]); }
    ChosenStands(Reached(HALL, SelectRun()).clients[1]);
  }

  function LoadFrames(): seq<Event> {
    [ClientReceives(1, SnapshotTo(LOADING, 0, 0).packet), ClientFrames(1, IDLE), ClientFrames(1, IDLE),
     ClientFrames(1, AT_LINE)]
  }

  function Delivery(number: nat, command: Command): seq<Event> {
    [ClientTicks(1, false, true, false, 0), RoomReceives(1, Order(11, number, command), LATE, 0)]
  }

  lemma LoadingFacts()
    ensures PlausibleView(ViewOf(LOADING, 0)) && LOADING.session == 7 && LOADING.race == 1 && LOADING.snapshotSeq == 4
    ensures LOADING.phase == Loading
    ensures var p := LOADING.players[0]; p.address == 1 && p.token == 11 && p.commandSeq == 1
    ensures Expects(LOADING, 0, 1, 11, 2)
  {
    HallSlots(4, Loading, 0, LOADING.players[0], LOADING.players[1]);
    HallPlausible(4, Loading, 0, LOADING.players[0], LOADING.players[1], 0);
  }

  lemma HostSeesLoading(s: System)
    requires s.room == LOADING && 1 in s.clients && SnapshotTo(LOADING, 0, 0) in s.net
    requires Stands(s.clients[1], 1, 0, C.Waiting, [C.Pending(1, Select(0))]) && Recalls(s.clients[1], false, 0)
    ensures var s' := Do(s, ClientReceives(1, SnapshotTo(LOADING, 0, 0).packet));
      && s'.room == s.room && s'.owners == s.owners && 1 in s'.clients && s'.clients[1].view == ViewOf(LOADING, 0)
      && Stands(s'.clients[1], 1, 4, C.Waiting, []) && Recalls(s'.clients[1], false, 0)
  {
    hide Do, C.Receive, Stands, Recalls, PlausibleView, ViewOf, Expects, LOADING;
    var p := SnapshotTo(LOADING, 0, 0).packet;
    LoadingFacts();
    Follows(s, 0, 1, 0, C.Waiting, C.Pending(1, Select(0)));
    Sees(s.clients[1], LOADING, 0, 1, 0, C.Waiting, C.Pending(1, Select(0)));
    RecallsAfter(s.clients[1], C.Receive(s.clients[1], p).client, false, 0);
  }

  lemma HostDrawsLoading(s: System)
    requires 1 in s.clients && s.clients[1].view == ViewOf(LOADING, 0)
    requires Stands(s.clients[1], 1, 4, C.Waiting, []) && Recalls(s.clients[1], false, 0)
    ensures var s' := Do(Do(Do(s, ClientFrames(1, IDLE)), ClientFrames(1, IDLE)), ClientFrames(1, AT_LINE));
      && s'.room == s.room && s'.owners == s.owners && 1 in s'.clients && Recalls(s'.clients[1], true, 0)
      && Stands(s'.clients[1], 2, 4, C.Location, [C.Pending(2, Loaded(0, 0, 0))])
  {
    hide Do, C.StepFrame, Stands, Recalls, ViewOf, LOADING;
    DrawsToLine(s.clients[1]);
    Draws(s, 1, IDLE);
    var s1 := Do(s, ClientFrames(1, IDLE));
    Draws(s1, 1, IDLE);
    var s2 := Do(s1, ClientFrames(1, IDLE));
    DrawsLoaded(s2.clients[1]);
    Draws(s2, 1, AT_LINE);
  }

  lemma HostLoads(s: System)
    requires s.room == LOADING && 1 in s.clients && SnapshotTo(LOADING, 0, 0) in s.net
    requires Stands(s.clients[1], 1, 0, C.Waiting, [C.Pending(1, Select(0))]) && Recalls(s.clients[1], false, 0)
    ensures var s' := Run(s, LoadFrames());
      && s'.room == s.room && s'.owners == s.owners && 1 in s'.clients && Recalls(s'.clients[1], true, 0)
      && Stands(s'.clients[1], 2, 4, C.Location, [C.Pending(2, Loaded(0, 0, 0))])
  {
    hide Run, Do, Stands, Recalls, ViewOf, LOADING, SnapshotTo;
    var es := LoadFrames();
    RunFour(s, es[0], es[1], es[2], es[3]);
    HostSeesLoading(s);
    HostDrawsLoading(Do(s, es[0]));
  }

  lemma RecallsAfter(c: C.State, c': C.State, loaded: bool, armed: nat)
    requires Recalls(c, loaded, armed)
    requires c'.loadedSent == c.loadedSent && c'.finishedSent == c.finishedSent
    ensures Recalls(c', loaded, c'.armedTime) && c.armedTime == armed
  {
  }

  lemma CountingFacts()
    ensures PlausibleView(ViewOf(COUNTING, HEARTBEAT)) && COUNTING.session == 7 && COUNTING.race == 1
    ensures COUNTING.snapshotSeq == 5 && COUNTING.phase == Countdown && COUNTING.start == START
    ensures var p := COUNTING.players[0]; Occupied(p) && p.address == 1 && p.token == 11 && p.commandSeq == 2
    ensures Expects(COUNTING, 0, 1, 11, 3)
  {
    HallSlots(5, Countdown, START, COUNTING.players[0], COUNTING.players[1]);
    HallPlausible(5, Countdown, START, COUNTING.players[0], COUNTING.players[1], HEARTBEAT);
  }

  lemma ArmedFacts()
    ensures PlausibleView(ViewOf(ARMED, HEARTBEAT)) && ARMED.session == 7 && ARMED.race == 1
    ensures ARMED.snapshotSeq == 6 && ARMED.phase == Countdown && ARMED.start == START
    ensures var p := ARMED.players[0]; Occupied(p) && p.address == 1 && p.token == 11 && p.commandSeq == 3
    ensures Expects(ARMED, 0, 1, 11, 4)
  {
    HallSlots(6, Countdown, START, ARMED.players[0], ARMED.players[1]);
    HallPlausible(6, Countdown, START, ARMED.players[0], ARMED.players[1], HEARTBEAT);
  }

  /** The host's LOADED is delivered: the countdown begins. */
  lemma LoadedArrives(s: System)
    requires s.room == LOADING && 0 !in s.owners && 1 in s.clients && Recalls(s.clients[1], true, 0)
    requires Stands(s.clients[1], 2, 4, C.Location, [C.Pending(2, Loaded(0, 0, 0))])
    ensures var s' := Run(s, Delivery(2, Loaded(0, 0, 0)));
      && s'.room == COUNTING && s'.owners == s.owners && 1 in s'.clients && s'.clients[1] == s.clients[1]
      && SnapshotTo(COUNTING, 0, HEARTBEAT) in s'.net
  {
    hide Run, Execute, Expects, Stands, SnapshotTo;
    LoadingFacts();
    CountingFacts();
    Carries(s, 2, 4, C.Location, C.Pending(2, Loaded(0, 0, 0)), LATE);
    GuestDropped();
    Announced(LOADING, 0, 2, Loaded(0, 0, 0), LATE);
  }

  function ArmEvents(): seq<Event> {
    [ClientReceives(1, SnapshotTo(COUNTING, 0, HEARTBEAT).packet)] + Delivery(3, Arm(START))
  }

  /** The host's client sees the countdown and arms. */
  lemma HostArms(s: System)
    requires s.room == COUNTING && 0 !in s.owners && 1 in s.clients && Recalls(s.clients[1], true, 0)
    requires Stands(s.clients[1], 2, 4, C.Location, [C.Pending(2, Loaded(0, 0, 0))])
    requires SnapshotTo(COUNTING, 0, HEARTBEAT) in s.net
    ensures var s' := Run(s, ArmEvents());
      && s'.room == ARMED && s'.owners == s.owners && 1 in s'.clients && Recalls(s'.clients[1], true, START)
      && Stands(s'.clients[1], 3, 5, C.Location, [C.Pending(3, Arm(START))])
      && SnapshotTo(ARMED, 0, HEARTBEAT) in s'.net
  {
    hide Run, Do, Execute, C.Receive, Stands, Recalls, PlausibleView, ViewOf, Expects, COUNTING, ARMED, Delivery;
    var p := SnapshotTo(COUNTING, 0, HEARTBEAT).packet;
    var e := ClientReceives(1, p);
    CountingFacts();
    ArmedFacts();
    RunSplit(s, [e], Delivery(3, Arm(START)));
    RunSingle(s, e);
    Follows(s, HEARTBEAT, 2, 4, C.Location, C.Pending(2, Loaded(0, 0, 0)));
    Sees(s.clients[1], COUNTING, HEARTBEAT, 2, 4, C.Location, C.Pending(2, Loaded(0, 0, 0)));
    RecallsAfter(s.clients[1], C.Receive(s.clients[1], p).client, true, 0);
    var s1 := Do(s, e);
    ArmArrives(s1);
  }

  lemma RunSingle(s: System, e: Event)
    ensures Run(s, [e]) == Do(s, e)
  {
    hide Do;
    assert [e][..0] == [];
    assert Run(s, [e]) == Do(Run(s, []), e);
  }

  lemma ArmArrives(s: System)
    requires s.room == COUNTING && 0 !in s.owners && 1 in s.clients
    requires Stands(s.clients[1], 3, 5, C.Location, [C.Pending(3, Arm(START))])
    ensures var s' := Run(s, Delivery(3, Arm(START)));
      && s'.room == ARMED && s'.owners == s.owners && 1 in s'.clients && s'.clients[1] == s.clients[1]
      && SnapshotTo(ARMED, 0, HEARTBEAT) in s'.net
  {
    hide Run, Execute, Expects, Stands, SnapshotTo;
    CountingFacts();
    ArmedFacts();
    Carries(s, 3, 5, C.Location, C.Pending(3, Arm(START)), LATE);
    HostArmed();
    Announced(COUNTING, 0, 3, Arm(START), LATE);
  }

  // The client learns the server's clock before it can be released by its own.

  const ASK := Packet(7, 11, 1, 0, 0, Ping(HEARTBEAT))
  const ANSWER := Packet(7, 11, 1, 0, 3, TimedPong(HEARTBEAT, HEARTBEAT))

  function ClockEvents(): seq<Event> {
    [ClientReceives(1, SnapshotTo(ARMED, 0, HEARTBEAT).packet), ClientTicks(1, false, false, true, HEARTBEAT),
     RoomReceives(1, ASK, LATE, 0), ClientReceives(1, ANSWER)]
  }

  lemma AsksTime(c: C.State)
    requires Stands(c, 3, 6, C.Location, [])
    ensures C.Tick(c, false, false, true, HEARTBEAT) == C.Reply(c, {ToServer(1, ASK)})
    ensures C.Receive(c, ANSWER) == C.Reply(c, {}) && ClientWindow(c, ANSWER)
  {
    assert C.QueueAll(c.(requests := []), []) == c;
  }

  lemma TellsTime()
    ensures Receive(ARMED, 1, ASK, LATE, 0) == Outcome(ARMED, {ToClient(1, ANSWER)})
    ensures RoomWindow(ARMED, 1, ASK) && !Executes(ARMED, 1, ASK) && !Seats(ARMED, 1, ASK, 0)
  {
    HallSlots(6, Countdown, START, ARMED.players[0], ARMED.players[1]);
    assert IsSender(ARMED, 0, 1, ASK);
    var p := ARMED.players[0];
    assert p.(seen := HEARTBEAT) == p && ARMED.players[0 := p] == ARMED.players;
  }

  /** The room's answer to a packet that neither executes a command nor seats a player. */
  lemma Answers(s: System, from: nat, p: Packet, at: Times)
    requires ToServer(from, p) in s.net && 0 !in s.owners && RoomWindow(s.room, from, p)
    requires !Executes(s.room, from, p) && !Seats(s.room, from, p, 0)
    ensures var s' := Do(s, RoomReceives(from, p, at, 0));
      var o := Receive(s.room, from, p, at, 0);
      s'.room == o.room && s'.net == s.net + o.sent && s'.clients == s.clients && s'.owners == s.owners
  {
    hide Receive, Executes, Seats, RoomWindow;
  }

  lemma AsksClock(s: System)
    requires 1 in s.clients && Stands(s.clients[1], 3, 6, C.Location, [])
    ensures var s' := Do(s, ClientTicks(1, false, false, true, HEARTBEAT));
      && s'.room == s.room && s'.owners == s.owners && s'.clients == s.clients && ToServer(1, ASK) in s'.net
  {
    hide C.Tick, Stands;
    AsksTime(s.clients[1]);
  }

  /** The host's client sees everyone armed, asks for the time and is told. */
  lemma HostSyncs(s: System)
    requires s.room == ARMED && 0 !in s.owners && 1 in s.clients && Recalls(s.clients[1], true, START)
    requires Stands(s.clients[1], 3, 5, C.Location, [C.Pending(3, Arm(START))])
    requires SnapshotTo(ARMED, 0, HEARTBEAT) in s.net
    ensures var s' := Run(s, ClockEvents());
      && s'.room == ARMED && s'.owners == s.owners && 1 in s'.clients && Recalls(s'.clients[1], true, START)
      && Stands(s'.clients[1], 3, 6, C.Location, []) && s'.clients[1].view == ViewOf(ARMED, HEARTBEAT)
  {
    hide Run, Do, C.Receive, Stands, Recalls, PlausibleView, ViewOf, Expects, ARMED, Receive, ClientWindow, RoomWindow,
      Executes, Seats;
    var es := ClockEvents();
    RunFour(s, es[0], es[1], es[2], es[3]);
    ArmedFacts();
    var c := C.Receive(s.clients[1], SnapshotTo(ARMED, 0, HEARTBEAT).packet).client;
    Follows(s, HEARTBEAT, 3, 5, C.Location, C.Pending(3, Arm(START)));
    Sees(s.clients[1], ARMED, HEARTBEAT, 3, 5, C.Location, C.Pending(3, Arm(START)));
    RecallsAfter(s.clients[1], c, true, START);
    var s1 := Do(s, es[0]);
    AsksClock(s1);
    var s2 := Do(s1, es[1]);
    TellsTime();
    Answers(s2, 1, ASK, LATE);
    var s3 := Do(s2, es[2]);
    AsksTime(c);
    assert c.address == 1 by { StandsAddress(c, 3, 6, C.Location, []); }
    Receives(s3, 1, ANSWER);
  }

  lemma StandsAddress(c: C.State, number: nat, shown: nat, game: C.Game, pending: seq<C.Pending>)
    requires Stands(c, number, shown, game, pending)
    ensures c.address == 1
  {
  }

  function FinishEvents(): seq<Event> {
    [ClientFrames(1, OFF), ClientFrames(1, CROSSING), ClientTicks(1, false, true, false, 0)]
  }

  /** The host's client is released by its own clock, crosses the line and sends FINISH. */
  lemma HostFinishes(s: System)
    requires 1 in s.clients && Recalls(s.clients[1], true, START) && Stands(s.clients[1], 3, 6, C.Location, [])
    requires s.clients[1].view == ViewOf(ARMED, HEARTBEAT)
    ensures var s' := Run(s, FinishEvents());
      && s'.room == s.room && s'.owners == s.owners && 1 in s'.clients
      && s'.clients[1].game == C.Crossed && ToServer(1, Order(11, 4, Finish)) in s'.net
  {
    hide Run, Do, C.StepFrame, C.Tick, Stands, Recalls, ViewOf, ARMED;
    var es := FinishEvents();
    RunThree(s, es[0], es[1], es[2]);
    DrawsRelease(s.clients[1]);
    Draws(s, 1, OFF);
    var s1 := Do(s, es[0]);
    DrawsFinish(s1.clients[1]);
    Draws(s1, 1, CROSSING);
    var s2 := Do(s1, es[1]);
    SendsFront(s2.clients[1], 4, 6, C.Crossed, C.Pending(4, Finish));
    Ticks(s2, 1, false, true);
    assert s2.clients[1].game == C.Crossed by { StandsGame(s2.clients[1], 4, 6, C.Crossed, [C.Pending(4, Finish)]); }
  }

  lemma StandsGame(c: C.State, number: nat, shown: nat, game: C.Game, pending: seq<C.Pending>)
    requires Stands(c, number, shown, game, pending)
    ensures c.game == game
  {
  }

  /** Two players join and select; one falls silent and is dropped; the other loads and arms. */
  function ArmRun(): seq<Event> {
    SelectRun() + LoadFrames() + Delivery(2, Loaded(0, 0, 0)) + ArmEvents()
  }

  /** Then it learns the server's clock, is released before the room has started the race,
    crosses the line and sends its
      FINISH. */
  function FinishRun(): seq<Event> {
    ArmRun() + ClockEvents() + FinishEvents()
  }

  lemma HostIsArmed()
    ensures var s := Reached(HALL, ArmRun());
      && s.room == ARMED && 0 !in s.owners && 1 in s.clients && Recalls(s.clients[1], true, START)
      && Stands(s.clients[1], 3, 5, C.Location, [C.Pending(3, Arm(START))])
      && SnapshotTo(ARMED, 0, HEARTBEAT) in s.net
  {
    hide Run, SelectRun, LoadFrames, Delivery, ArmEvents, Stands, Recalls, SnapshotTo, LOADING, COUNTING, ARMED;
    var s0 := Reached(HALL, SelectRun());
    BothSelect();
    HostLoads(s0);
    RunSplit(Start(HALL), SelectRun(), LoadFrames());
    var s1 := Reached(HALL, SelectRun() + LoadFrames());
    LoadedArrives(s1);
    RunSplit(Start(HALL), SelectRun() + LoadFrames(), Delivery(2, Loaded(0, 0, 0)));
    var s2 := Reached(HALL, SelectRun() + LoadFrames() + Delivery(2, Loaded(0, 0, 0)));
    HostArms(s2);
    RunSplit(Start(HALL), SelectRun() + LoadFrames() + Delivery(2, Loaded(0, 0, 0)), ArmEvents());
  }

  /** A run at whose end the room is counting down and the FINISH of a client released early is executed and refused. */
  lemma EarlyFinishIsRefused()
    ensures NewRoom(HALL)
    ensures var s := Reached(HALL, FinishRun());
      var p := Order(11, 4, Finish);
      && s.room.phase == Countdown && 1 in s.clients && s.clients[1].game == C.Crossed
      && Enabled(s, RoomReceives(1, p, LATE, 0)) && Executes(s.room, 1, p)
      && !CommandValid(s.room, Sender(s.room, 1, p), Finish)
  {
    hide Run, ArmRun, ClockEvents, FinishEvents, Stands, Recalls, SnapshotTo, ViewOf, ARMED, Expects, Executes,
      RoomWindow, Sender;
    HostIsArmed();
    HostSyncs(Reached(HALL, ArmRun()));
    RunSplit(Start(HALL), ArmRun(), ClockEvents());
    HostFinishes(Reached(HALL, ArmRun() + ClockEvents()));
    RunSplit(Start(HALL), ArmRun() + ClockEvents(), FinishEvents());
    ArmedFacts();
    ExpectedExecutes(ARMED, 0, 1, 11, 4, Finish);
  }

  // A lost SELECT.

  const WISH := Config(2, 0, 0)

  function Wishes(k: nat): (es: seq<Event>)
    ensures |es| == k && forall j :: 0 <= j < k ==> es[j] == ClientRequests(1, WISH)
  {
    seq(k, _ => ClientRequests(1, WISH))
  }

  function Copies(k: nat): (cs: seq<Command>)
    ensures |cs| == k && forall j :: 0 <= j < k ==> cs[j] == WISH
  {
    seq(k, _ => WISH)
  }

  /** One player joins and chooses a car; before the frame that would send the choice, its user has made eight requests,
      and a tick has moved them to the queue. */
  function FullRun(): seq<Event> {
    JoinEvents(1, 0, 11) + [ClientFrames(1, IDLE), ClientFrames(1, CHOSEN)] + Wishes(8)
    + [ClientTicks(1, false, false, false, 0), ClientFrames(1, IDLE)]
  }

  lemma {:induction false} Wished(s: System, c: C.State, k: nat)
    requires k <= 8 && 1 in s.clients && s.clients[1] == c && c.requests == []
    ensures var s' := Run(s, Wishes(k));
      s'.room == s.room && 1 in s'.clients && s'.clients[1] == c.(requests := Copies(k))
  {
    hide Do;
    if k == 0 {
      assert Copies(0) == [];
    } else {
      Wished(s, c, k - 1);
      assert Wishes(k)[..k - 1] == Wishes(k - 1);
      WishedOnce(Run(s, Wishes(k - 1)), c, k - 1);
    }
  }

  lemma WishedOnce(s: System, c: C.State, k: nat)
    requires k < 8 && 1 in s.clients && s.clients[1] == c.(requests := Copies(k))
    ensures var s' := Do(s, ClientRequests(1, WISH));
      s'.room == s.room && 1 in s'.clients && s'.clients[1] == c.(requests := Copies(k + 1))
  {
    assert Copies(k) + [WISH] == Copies(k + 1);
    assert C.Request(s.clients[1], WISH) == c.(requests := Copies(k + 1));
  }

  lemma {:induction false} QueueFills(c: C.State, commands: seq<Command>)
    requires c.slot >= 0 && |c.pending| + |commands| <= 8
    ensures var c' := C.QueueAll(c, commands);
      && |c'.pending| == |c.pending| + |commands|
      && c'.slot == c.slot && c'.attached == c.attached && c'.game == c.game && c'.view == c.view && c'.race == c.race
      && c'.token == c.token && c'.selectedSent == c.selectedSent
  {
    hide C.Queue;
    if commands != [] {
      var k := |commands| - 1;
      QueueFills(c, commands[..k]);
      QueueFillsOne(C.QueueAll(c, commands[..k]), commands[k]);
    }
  }

  lemma QueueFillsOne(c: C.State, command: Command)
    requires c.slot >= 0 && |c.pending| < 8
    ensures var c' := C.Queue(c, command);
      && |c'.pending| == |c.pending| + 1
      && c'.slot == c.slot && c'.attached == c.attached && c'.game == c.game && c'.view == c.view && c'.race == c.race
      && c'.token == c.token && c'.selectedSent == c.selectedSent
  {
  }

  lemma Ready(s: System)
    requires 1 in s.clients && s.clients[1] == Welcomed(1, 0, 11)
    ensures var s' := Run(s, [ClientFrames(1, IDLE), ClientFrames(1, CHOSEN)]);
      s'.room == s.room && 1 in s'.clients && s'.clients[1] == Welcomed(1, 0, 11).(game := C.Waiting)
  {
    hide Run, Do, C.StepFrame, Welcomed;
    Chooses(1, 0, 11);
    RunTwo(s, ClientFrames(1, IDLE), ClientFrames(1, CHOSEN));
    Draws(s, 1, IDLE);
    Draws(Do(s, ClientFrames(1, IDLE)), 1, CHOSEN);
  }

  lemma Fills(s: System, c: C.State)
    requires 1 in s.clients && s.clients[1] == c.(requests := Copies(8)) && c.requests == [] && c.pending == []
    requires c.open && c.game == C.Waiting && c.slot >= 0
    ensures var s' := Do(s, ClientTicks(1, false, false, false, 0));
      && s'.room == s.room && 1 in s'.clients && |s'.clients[1].pending| == 8
      && s'.clients[1].slot == c.slot && s'.clients[1].attached == c.attached && s'.clients[1].game == c.game
      && s'.clients[1].view == c.view && s'.clients[1].race == c.race && s'.clients[1].token == c.token
      && s'.clients[1].selectedSent == c.selectedSent
  {
    hide Do, C.QueueAll;
    Ticks(s, 1, false, false);
    QueueFills(c, Copies(8));
    assert c.(requests := []) == c;
  }

  /** A run after which the SELECT of a present player is lost. */
  lemma SelectIsLost()
    ensures NewRoom(HALL)
    ensures var s := Reached(HALL, FullRun());
      && s.room.race == 1 && Occupied(s.room.players[0]) && s.room.players[0].token == 11
      && 1 in s.clients && s.clients[1].token == 11 && N.Lost(s.clients[1], 1, Select(0))
  {
    hide Run, Do, WithPlayer, Vacant, Ok, Welcomed, C.StepFrame, N.Lost, OnceOk, C.Queue;
    var join, pick := JoinEvents(1, 0, 11), [ClientFrames(1, IDLE), ClientFrames(1, CHOSEN)];
    var tick, frame := ClientTicks(1, false, false, false, 0), ClientFrames(1, IDLE);
    HallVacant();
    Joins(Start(HALL), 1, 0, 11);
    RunSplit(Start(HALL), join, pick);
    RunSplit(Start(HALL), join + pick, Wishes(8));
    RunSplit(Start(HALL), join + pick + Wishes(8), [tick, frame]);
    Ready(Reached(HALL, join));
    var s2 := Reached(HALL, join + pick);
    var c := s2.clients[1];
    WaitingFields(c);
    Wished(s2, c, 8);
    var s3 := Reached(HALL, join + pick + Wishes(8));
    Fills(s3, c);
    var s4 := Do(s3, tick);
    RunTwo(s3, tick, frame);
    RunSplit(Start(HALL), join + pick + Wishes(8), [tick]);
    RunSingle(s3, tick);
    ReachedOk(HALL, join + pick + Wishes(8) + [tick]);
    N.ClientFacts(s4, 1);
    N.LostExactlyWhenFull(s4.clients[1], IDLE, Select(0));
    Draws(s4, 1, IDLE);
    N.FrameMovesOn(s4.clients[1], IDLE);
    N.TokenKept(s4.clients[1], C.StepFrame(s4.clients[1], IDLE).client);
  }

  lemma WaitingFields(c: C.State)
    requires c == Welcomed(1, 0, 11).(game := C.Waiting)
    ensures c.requests == [] && c.pending == [] && c.open && c.attached && c.slot == 0 && c.game == C.Waiting
    ensures c.view.phase == Lobby && c.race == 1 && c.token == 11 && !c.selectedSent
  {
  }
}
