/** What a client does, said of its fields: how a frame moves the game on, and what each packet changes. */
module ClientEffects {
  import opened Words
  import opened Messages
  import opened Rooms
  import opened RoomInvariants
  import opened Network
  import opened ClientSide
  import opened ClientMoves
  import opened NetworkTheorems
  import opened SystemTheorems
  import opened Progress
  import P = RomPatching
  import C = Clients

  // Frames.

  predicate SomeonePresent(v: View) {
    exists i :: 0 <= i < |v.peers| && v.peers[i].status != Empty && v.peers[i].status != Disconnected
  }

  /** Everyone present has acknowledged the start. */
  predicate AllArmedIn(v: View)
    requires |v.armed| == |v.peers|
  {
    forall i :: 0 <= i < |v.peers| && v.peers[i].status != Empty && v.peers[i].status != Disconnected ==> v.armed[i]
  }

  /** The game is standing at the starting line. */
  predicate AtLine(f: C.Frame) {
    f.ram54 == 2 && f.ram55 == 0 && f.ram56 == 2
  }

  /** The barrier opens exactly when the client sees the race running, or sees the countdown with everyone present armed
      and has reached the start by its own clock. */
  lemma BarrierOpensExactly(c: C.State, f: C.Frame)
    requires c.attached && c.game == C.Location && |c.view.peers| == |c.view.armed|
    ensures C.StepFrame(c, f).client.game == C.Race <==>
      && AtLine(f)
      && (|| c.view.phase == Racing
          || (c.view.phase == Countdown && SomeonePresent(c.view) && AllArmedIn(c.view) && f.reached))
    ensures C.StepFrame(c, f).client.game == C.Race || C.StepFrame(c, f).client.game == C.Location
  {
    hide C.Queue;
    QueueSame(c, Loaded(f.x, f.y, f.orientation));
    assert C.Someone(c.view) <==> SomeonePresent(c.view) by { SomeoneAlike(c.view); }
    assert C.EveryoneArmed(c.view) <==> AllArmedIn(c.view);
  }

  lemma SomeoneAlike(v: View)
    ensures C.Someone(v) <==> SomeonePresent(v)
  {
    if C.Someone(v) {
      var i :| 0 <= i < |v.peers| && Occupies(v.peers[i].status);
      assert v.peers[i].status != Empty;
    }
    if SomeonePresent(v) {
      var i :| 0 <= i < |v.peers| && v.peers[i].status != Empty && v.peers[i].status != Disconnected;
      assert Occupies(v.peers[i].status);
    }
  }

  lemma QueueSame(c: C.State, command: Command)
    ensures var c' := C.Queue(c, command);
      && c'.game == c.game && c'.view == c.view && c'.slot == c.slot && c'.car == c.car && c'.armedTime == c.armedTime
      && c'.attached == c.attached && c'.open == c.open && c'.requests == c.requests && c'.race == c.race
      && c'.selectedSent == c.selectedSent && c'.loadedSent == c.loadedSent && c'.finishedSent == c.finishedSent
      && c'.stateSeq == c.stateSeq && c'.buffer == c.buffer && c'.snapshotSeq == c.snapshotSeq
  {
  }

  /** In every run, a client that entered the race of a generation had seen that race running, or had seen everyone
      armed for its start and had reached it. */
  lemma EntriesInTime(room: Room, es: seq<Event>, n: nat, r: nat)
    requires NewRoom(room) && n in Reached(room, es).clients && r in Reached(room, es).clients[n].history.entered
    ensures var s := Reached(room, es);
      var u := s.clients[n].history.entered[r];
      && 1 <= u.at <= |s.past|
      && var seen := s.past[u.at - 1];
         && seen.race == r && u.start == seen.start
         && (seen.phase == Racing || (seen.phase == Countdown && u.reached))
         && forall i :: 0 <= i < 4 && Occupied(seen.players[i]) ==> seen.players[i].armed == u.start
  {
    hide Ok, Reached, NewRoom;
    ReachedOk(room, es);
    EntryFacts(Reached(room, es), n, r);
  }

  lemma EntryFacts(s: System, n: nat, r: nat)
    requires Ok(s) && n in s.clients && r in s.clients[n].history.entered
    ensures var u := s.clients[n].history.entered[r];
      && SetupAt(u.at, r, s.past) && Committed(s.past[u.at - 1]) && u.start == s.past[u.at - 1].start
      && (s.past[u.at - 1].phase == Racing || (s.past[u.at - 1].phase == Countdown && u.reached))
  {
    hide PastOk, SeatedOk, AddressOk, PastSeatedOk, OwnersOk, NetOk, Invariant, StatusOk, StreamOk, ViewOk, OnceOk,
      TimelyOk, BufferOk, Committed, PreparedOk, LocatedOk, SetupAt;
    assert ClientOk(n, s);
  }

  /** The car chosen in the menu: the second and third places are exchanged. */
  function Chosen(cursor: nat): nat {
    if cursor % 4 == 1 then 2 else if cursor % 4 == 2 then 1 else cursor % 4
  }

  /** Where a frame takes the game from every other state, and the car it picks. */
  lemma GameTable(c: C.State, f: C.Frame)
    requires c.attached && c.game != C.Location
    ensures var c' := C.StepFrame(c, f).client;
      && c'.game == (match c.game
                     case Init => C.CarSelect
                     case CarSelect => if f.ram55 == 5 then C.Waiting else C.CarSelect
                     case Waiting => if c.slot >= 0 && c.view.phase == Loading then C.Prepare else C.Waiting
                     case Prepare => C.Location
                     case Race => if f.ram54 == 3 then C.Crossed else C.Race
                     case Crossed => if c.view.phase == Results then C.Standings else C.Crossed
                     case _ => c.game)
      && c'.car == (if c.game == C.CarSelect && f.ram55 == 3 then Chosen(f.cursor) else c.car)
  {
    hide C.Queue, C.PrepareWrites, C.LocateWrites;
    QueueSame(c, Select(c.car));
    QueueSame(c, Finish);
    QueueSame(c, Next);
    assert C.MENU == [0, 2, 1, 3];
  }

  /** The commands a frame issues, when the queue has room: the car in the lobby, the position at the line while the
      room is loading, the finish, and the host's automatic NEXT; each of the first three once. */
  function Issues(c: C.State, f: C.Frame): seq<Command> {
    if !c.attached || c.slot < 0 then []
    else if c.game == C.Waiting && c.view.phase == Lobby && !c.selectedSent then [Select(c.car)]
    else if c.game == C.Location && AtLine(f) && c.view.phase == Loading && !c.loadedSent
    then [Loaded(f.x, f.y, f.orientation)]
    else if c.game == C.Race && f.ram54 == 3 && !c.finishedSent then [Finish]
    else if c.game == C.Standings && f.autoNext && c.slot == c.view.host then [Next]
    else []
  }

  /** The queue after a command, or none, has been added to it if it has room. */
  predicate Adds(c: C.State, c': C.State, commands: seq<Command>) {
    if commands != [] && |c.pending| < 8
    then && c'.pending == c.pending + [C.Pending(c.commandSeq + 1, commands[0])] && c'.commandSeq == c.commandSeq + 1
         && c'.history.issued == c.history.issued + [C.Issued(c.race, c.commandSeq + 1, commands[0])]
    else c'.pending == c.pending && c'.commandSeq == c.commandSeq && c'.history.issued == c.history.issued
  }

  lemma QueueAdds(c: C.State, command: Command)
    requires c.slot >= 0
    ensures Adds(c, C.Queue(c, command), [command])
  {
  }

  lemma QueueOffline(c: C.State, command: Command)
    requires c.slot < 0
    ensures C.Queue(c, command) == c
  {
  }

  lemma FrameIssues(c: C.State, f: C.Frame)
    ensures Adds(c, C.StepFrame(c, f).client, Issues(c, f))
  {
    hide C.Queue, C.PrepareRace, C.Locate, C.EnterRace, C.Released;
    if !c.attached || c.game == C.Offline {
    } else if c.game == C.Waiting {
      IssueWaiting(c, f);
    } else if c.game == C.Location {
      IssueLocation(c, f);
    } else if c.game == C.Race {
      IssueRace(c, f);
    } else if c.game == C.Standings {
      if c.slot >= 0 { QueueAdds(c, Next); } else { QueueOffline(c, Next); }
    } else if c.game == C.Prepare {
      SetupAddsNothing(c, f.reached);
    }
  }

  lemma SetupAddsNothing(c: C.State, reached: bool)
    ensures Adds(c, C.PrepareRace(c), []) && Adds(c, C.Locate(c), []) && Adds(c, C.EnterRace(c, reached), [])
  {
    hide C.PrepareWrites, C.LocateWrites;
  }

  lemma IssueWaiting(c: C.State, f: C.Frame)
    requires c.attached && c.game == C.Waiting
    ensures Adds(c, C.StepFrame(c, f).client, Issues(c, f))
  {
    hide C.Queue, C.PrepareRace;
    if c.slot >= 0 {
      QueueAdds(c, Select(c.car));
      QueueSame(c, Select(c.car));
    }
    SetupAddsNothing(C.SendSelection(c), false);
  }

  lemma IssueLocation(c: C.State, f: C.Frame)
    requires c.attached && c.game == C.Location
    ensures Adds(c, C.StepFrame(c, f).client, Issues(c, f))
  {
    hide C.Queue, C.EnterRace, C.Released;
    var command := Loaded(f.x, f.y, f.orientation);
    if c.slot >= 0 {
      QueueAdds(c, command);
    } else {
      QueueOffline(c, command);
    }
    SetupAddsNothing(C.SendLoaded(c, f), f.reached);
  }

  lemma IssueRace(c: C.State, f: C.Frame)
    requires c.attached && c.game == C.Race
    ensures Adds(c, C.StepFrame(c, f).client, Issues(c, f))
  {
    hide C.Queue;
    if c.slot >= 0 {
      QueueAdds(c, Finish);
    } else {
      QueueOffline(c, Finish);
    }
  }

  // Packets.

  /** WELCOME is taken once: by a client that is not joined and whose nonce it carries. */
  lemma WelcomeTaken(c: C.State, p: Packet)
    requires c.open && c.game != C.Offline && p.body.Welcome?
    ensures C.Receive(c, p) == C.Reply(
      if c.slot < 0 && p.body.nonce == c.nonce && p.body.slot < 4 && p.session != 0 && p.token != 0
      then c.(slot := p.body.slot, session := p.session, token := p.token, race := p.race, commandSeq := p.ack)
      else c, {})
  {
  }

  /** A rejection of its own HELLO ends a client that is not joined; the closing of its room ends one that is. */
  lemma EndsExactly(c: C.State, p: Packet)
    requires c.open && c.game != C.Offline && (p.body.JoinReject? || p.body.RoomClosed?)
    ensures var ends := if p.body.JoinReject? then c.slot < 0 && p.body.nonce == c.nonce
                        else c.slot >= 0 && p.session == c.session && p.token == c.token;
      C.Receive(c, p) == C.Reply(if ends then c.(open := false, game := C.Offline, buffer := []) else c, {})
  {
  }

  /** A PING addressed to the client is returned. */
  lemma PingReturned(c: C.State, p: Packet)
    requires c.open && c.game != C.Offline && p.body.Ping?
    ensures C.Receive(c, p) == C.Reply(c,
      if c.slot >= 0 && p.session == c.session && p.token == c.token
      then {ToServer(c.address, Packet(c.session, c.token, c.race, 0, 0, Pong(p.body.stamp)))} else {})
  {
  }

  /** A client that is closed or offline does not react. */
  lemma ClosedIgnores(c: C.State, p: Packet)
    requires !c.open || c.game == C.Offline
    ensures C.Receive(c, p) == C.Reply(c, {})
  {
  }

  lemma PlausibleRoom(r: Room, now: nat)
    requires Invariant(r)
    ensures PlausibleView(ViewOf(r, now))
  {
  }

  /** In every run, a connected client takes a snapshot of its own exactly when its number is greater than that of the
      last one taken; for the first, its race must not be older than that of the WELCOME. */
  lemma NewerIsTaken(room: Room, es: seq<Event>, n: nat, p: Packet)
    requires NewRoom(room)
    requires var s := Reached(room, es);
      && Enabled(s, ClientReceives(n, p)) && n in s.clients && p.body.Snapshot?
      && p.token == s.clients[n].token && p.session == s.clients[n].session
      && s.clients[n].slot >= 0 && s.clients[n].open && s.clients[n].game != C.Offline
    ensures var c := Reached(room, es).clients[n];
      Takes(c, p) <==> p.number > c.snapshotSeq && (c.snapshotSeq == 0 ==> c.race <= p.race)
  {
    hide Ok, Reached, NewRoom, ViewOf, PlausibleView;
    ReachedOk(room, es);
    NewerTaken(Reached(room, es), n, p);
  }

  lemma NewerTaken(s: System, n: nat, p: Packet)
    requires Ok(s) && n in s.clients && Enabled(s, ClientReceives(n, p)) && p.body.Snapshot?
    requires var c := s.clients[n];
      && p.token == c.token && p.session == c.session && c.slot >= 0 && c.open && c.game != C.Offline
    ensures var c := s.clients[n];
      Takes(c, p) <==> p.number > c.snapshotSeq && (c.snapshotSeq == 0 ==> c.race <= p.race)
  {
    hide Ok, ViewOf, PlausibleView, Invariant, Evolves;
    var c := s.clients[n];
    ConnectedToken(s, n);
    SnapshotIsPast(s, n, p);
    PastEvolves(s, p.number - 1, p.number - 1);
    PlausibleRoom(s.past[p.number - 1], p.body.view.time);
    WindowedComparison(p.number, c.snapshotSeq);
    WindowedComparison(p.race, c.race);
    if p.number > c.snapshotSeq {
      RaceNotOlder(s, n, p.number);
    }
  }

  /** A later snapshot shows the same race or a later one. */
  lemma RaceNotOlder(s: System, n: nat, number: nat)
    requires Ok(s) && n in s.clients && s.clients[n].token != 0 && s.clients[n].snapshotSeq < number <= |s.past|
    ensures s.clients[n].snapshotSeq > 0 ==> s.clients[n].race <= s.past[number - 1].race
  {
    hide Ok, Invariant, StreamOk, GameOk, OnceOk, TimelyOk, BufferOk, PastOk, ViewOf;
    var c := s.clients[n];
    ClientIsSound(s, n);
    if c.snapshotSeq > 0 {
      PastEvolves(s, c.snapshotSeq - 1, number - 1);
    }
  }

  /** The queue after an acknowledgement: without its front if that is acknowledged. */
  function Unacknowledged(pending: seq<C.Pending>, ack: nat): seq<C.Pending> {
    if pending != [] && pending[0].number <= ack then pending[1..] else pending
  }

  /** What a snapshot makes of a client. In the same race the game goes on; in a new one everything of the old race is
      gone. A start not yet acknowledged is acknowledged, if the queue has room. */
  predicate Updated(c: C.State, p: Packet, c': C.State)
    requires p.body.Snapshot?
  {
    var v, same := p.body.view, p.race == c.race;
    var kept := if same then Unacknowledged(c.pending, p.ack) else [];
    var armed := if same then c.armedTime else 0;
    var arms := v.phase == Countdown && v.start != armed;
    var number := (if same then c.commandSeq else p.ack) + 1;
    && c'.view == v && c'.snapshotSeq == p.number && c'.race == p.race
    && c'.slot == c.slot && c'.token == c.token && c'.session == c.session && c'.open == c.open
    && c'.pending == kept + (if arms && |kept| < 8 then [C.Pending(number, Arm(v.start))] else [])
    && c'.commandSeq == (if arms && |kept| < 8 then number else number - 1)
    && c'.armedTime == (if v.phase == Countdown then v.start else armed)
    && if same
       then c'.game == c.game && c'.car == c.car && c'.stateSeq == c.stateSeq && c'.selectedSent == c.selectedSent
            && c'.loadedSent == c.loadedSent && c'.finishedSent == c.finishedSent
       else c'.game == C.Init && c'.car == 0 && c'.stateSeq == 0 && !c'.selectedSent && !c'.loadedSent
            && !c'.finishedSent
  }

  lemma AckedQueue(c: C.State, ack: nat)
    requires QueueOk(c) && ack <= Base(c) + 1
    requires forall k :: 0 <= k < |c.pending| ==> Near(ack, c.pending[k].number)
    ensures var c' := C.Acknowledge(c, ack);
      c' == c.(pending := Unacknowledged(c.pending, ack), history := c'.history)
  {
    hide C.AckedCount, C.Entries;
    AckedOne(c, ack);
    assert c.pending != [] ==> c.pending[0].number == Base(c) + 1;
    if C.AckedCount(c.pending, ack) == 0 {
      AckNothing(c, ack);
    }
  }

  /** The same before a new start is acknowledged. */
  predicate Observed(c: C.State, p: Packet, c': C.State)
    requires p.body.Snapshot?
  {
    var same := p.race == c.race;
    && c'.view == p.body.view && c'.snapshotSeq == p.number && c'.race == p.race
    && c'.slot == c.slot && c'.token == c.token && c'.session == c.session && c'.open == c.open
    && c'.pending == (if same then Unacknowledged(c.pending, p.ack) else [])
    && c'.commandSeq == (if same then c.commandSeq else p.ack)
    && c'.armedTime == (if same then c.armedTime else 0)
    && if same
       then c'.game == c.game && c'.car == c.car && c'.stateSeq == c.stateSeq && c'.selectedSent == c.selectedSent
            && c'.loadedSent == c.loadedSent && c'.finishedSent == c.finishedSent
       else c'.game == C.Init && c'.car == 0 && c'.stateSeq == 0 && !c'.selectedSent && !c'.loadedSent
            && !c'.finishedSent
  }

  lemma ObserveUpdates(c: C.State, c1: C.State, p: Packet)
    requires p.body.Snapshot? && Near(p.race, c.race)
    requires c1 == c.(snapshotSeq := p.number, pending := Unacknowledged(c.pending, p.ack), history := c1.history)
    ensures var c2 := if Same(p.race, c.race) then c1 else C.ChangeRace(c1, p.race, p.ack);
      Observed(c, p, C.Observe(c2, p.body.view))
  {
    hide C.Newest, C.Entries, Same, Unacknowledged;
    WindowedComparison(p.race, c.race);
  }

  lemma RearmUpdates(c: C.State, p: Packet, c3: C.State)
    requires p.body.Snapshot? && Observed(c, p, c3) && c.slot >= 0
    ensures Updated(c, p, C.Rearm(c3))
  {
    hide C.Queue, Unacknowledged;
    QueueSame(c3, Arm(c3.view.start));
    QueueTokens(c3, Arm(c3.view.start));
    QueueAdds(c3, Arm(c3.view.start));
  }

  lemma TakeSnapshotUpdates(c: C.State, p: Packet)
    requires p.body.Snapshot? && QueueOk(c) && p.ack <= Base(c) + 1 && c.slot >= 0
    requires forall k :: 0 <= k < |c.pending| ==> Near(p.ack, c.pending[k].number)
    requires Near(p.race, c.race)
    ensures Updated(c, p, C.TakeSnapshot(c, p))
  {
    hide QueueOk, C.Acknowledge, C.ChangeRace, C.Observe, C.Rearm, Same, Observed, Updated, Unacknowledged;
    var c0 := c.(snapshotSeq := p.number);
    assert QueueOk(c0) by { QueueFrame(c, c0); }
    AckedQueue(c0, p.ack);
    var c1 := C.Acknowledge(c0, p.ack);
    ObserveUpdates(c, c1, p);
    var c2 := if Same(p.race, c.race) then c1 else C.ChangeRace(c1, p.race, p.ack);
    RearmUpdates(c, p, C.Observe(c2, p.body.view));
  }

  lemma QueueTokens(c: C.State, command: Command)
    ensures C.Queue(c, command).token == c.token && C.Queue(c, command).session == c.session
  {
  }

  /** In every run, that is what a snapshot taken makes of a client. */
  lemma SnapshotUpdates(room: Room, es: seq<Event>, n: nat, p: Packet)
    requires NewRoom(room) && n in Reached(room, es).clients
    requires Enabled(Reached(room, es), ClientReceives(n, p)) && Takes(Reached(room, es).clients[n], p)
    ensures var c := Reached(room, es).clients[n]; p.body.Snapshot? && Updated(c, p, C.Receive(c, p).client)
  {
    hide Ok, Reached, NewRoom, C.TakeSnapshot, PlausibleView, Updated, QueueOk, FrontOk;
    var s := Reached(room, es);
    var c := s.clients[n];
    ReachedOk(room, es);
    ConnectedFront(s, n);
    SnapshotIsPast(s, n, p);
    assert p.ack <= Base(c) + 1 by { FrontBase(c, s.processed[c.token]); }
    TakeSnapshotUpdates(c, p);
    assert C.Receive(c, p).client == C.TakeSnapshot(c, p);
  }

  lemma FrontBase(c: C.State, done: seq<Processed>)
    requires FrontOk(c, done)
    ensures |done| <= Base(c) + 1
  {
  }

  // Acknowledging the start.

  /** Whoever sees a countdown has acted on its start. */
  predicate Armed(c: C.State) {
    c.view.phase == Countdown ==> c.armedTime == c.view.start
  }

  lemma TakeSnapshotArms(c: C.State, p: Packet)
    requires p.body.Snapshot?
    ensures Armed(C.TakeSnapshot(c, p))
  {
    hide C.Queue, C.AckedCount, C.Entries, C.Newest;
    var c1 := C.Acknowledge(c.(snapshotSeq := p.number), p.ack);
    var c2 := if Same(p.race, c.race) then c1 else C.ChangeRace(c1, p.race, p.ack);
    var c3 := C.Observe(c2, p.body.view);
    QueueSame(c3, Arm(c3.view.start));
  }

  /** Nothing but a snapshot changes the view or the start acted on. */
  predicate SameSight(c: C.State, c': C.State) {
    c'.view == c.view && c'.armedTime == c.armedTime
  }

  lemma FrameSight(c: C.State, f: C.Frame)
    ensures SameSight(c, C.StepFrame(c, f).client)
  {
    hide C.Queue, C.PrepareWrites, C.LocateWrites, C.Released;
    QueueSame(c, Select(c.car));
    QueueSame(c, Loaded(f.x, f.y, f.orientation));
    QueueSame(c, Finish);
    QueueSame(c, Next);
  }

  lemma {:induction false} QueueAllSight(c: C.State, commands: seq<Command>)
    ensures SameSight(c, C.QueueAll(c, commands))
  {
    hide C.Queue;
    if commands != [] {
      var k := |commands| - 1;
      QueueAllSight(c, commands[..k]);
      QueueSame(C.QueueAll(c, commands[..k]), commands[k]);
    }
  }

  lemma ReceiveArms(c: C.State, p: Packet)
    requires Armed(c)
    ensures Armed(C.Receive(c, p).client)
  {
    hide C.TakeSnapshot, PlausibleView;
    if p.body.Snapshot? {
      TakeSnapshotArms(c, p);
    }
  }

  lemma StepArms(s: System, e: Event)
    requires Enabled(s, e) && forall n :: n in s.clients ==> Armed(s.clients[n])
    ensures forall n :: n in Step(s, e).clients ==> Armed(Step(s, e).clients[n])
  {
    hide RoomWindow, ClientWindow, Receive, Rooms.Tick, PingAll, Close, C.Receive, C.StepFrame, C.QueueAll;
    match e {
      case ClientReceives(n, p) => ReceiveArms(s.clients[n], p);
      case ClientTicks(n, _, _, _, _) => QueueAllSight(s.clients[n].(requests := []), s.clients[n].requests);
      case ClientFrames(n, f) => FrameSight(s.clients[n], f);
      case _ =>
    }
  }

  /** In every run, a client that sees a countdown has acted on its start: the ARM for it has been put into the
      queue, if that had room, when the start was first seen. */
  lemma StartsAreAnswered(room: Room, es: seq<Event>, n: nat)
    requires n in Reached(room, es).clients
    ensures var c := Reached(room, es).clients[n]; c.view.phase == Countdown ==> c.armedTime == c.view.start
  {
    RunArms(Start(room), es);
    assert Armed(Reached(room, es).clients[n]);
  }

  lemma {:induction false} RunArms(s: System, es: seq<Event>)
    requires forall n :: n in s.clients ==> Armed(s.clients[n])
    ensures forall n :: n in Run(s, es).clients ==> Armed(Run(s, es).clients[n])
  {
    hide Step, Enabled, Armed;
    if es != [] {
      RunArms(s, es[..|es| - 1]);
      var s1, e := Run(s, es[..|es| - 1]), es[|es| - 1];
      if Enabled(s1, e) {
        StepArms(s1, e);
      }
    }
  }

  // Ticks.

  /** The requests as they enter the queue, under the numbers that follow. */
  function Numbered(commands: seq<Command>, number: nat): (q: seq<C.Pending>)
    ensures |q| == |commands|
    ensures forall j :: 0 <= j < |commands| ==> q[j] == C.Pending(number + j, commands[j])
  {
    seq(|commands|, j requires 0 <= j < |commands| => C.Pending(number + j, commands[j]))
  }

  /** How many of so many requests the queue still takes. */
  function Admitted(pending: nat, requests: nat): nat {
    if pending >= 8 then 0 else if requests <= 8 - pending then requests else 8 - pending
  }

  lemma {:induction false} QueueAllTakes(c: C.State, commands: seq<Command>)
    requires c.slot >= 0
    ensures var c', k := C.QueueAll(c, commands), Admitted(|c.pending|, |commands|);
      && k <= |commands|
      && c'.pending == c.pending + Numbered(commands[..k], c.commandSeq + 1)
      && c'.commandSeq == c.commandSeq + k
      && c'.slot == c.slot && c'.race == c.race && c'.token == c.token && c'.session == c.session
      && c'.address == c.address && c'.requests == c.requests
  {
    hide C.Queue;
    if commands == [] {
    } else {
      var n := |commands| - 1;
      var front := commands[..n];
      QueueAllTakes(c, front);
      var c1, k := C.QueueAll(c, front), Admitted(|c.pending|, n);
      assert front[..k] == commands[..k];
      QueueTakes(c1, commands[n]);
      if |c1.pending| < 8 {
        assert commands[..n + 1] == commands && k == n;
        assert Numbered(commands, c.commandSeq + 1) ==
          Numbered(front, c.commandSeq + 1) + [C.Pending(c.commandSeq + 1 + n, commands[n])];
      }
    }
  }

  lemma QueueTakes(c: C.State, command: Command)
    requires c.slot >= 0
    ensures var c' := C.Queue(c, command);
      && c'.slot == c.slot && c'.race == c.race && c'.token == c.token && c'.session == c.session
      && c'.address == c.address && c'.requests == c.requests
      && (if |c.pending| < 8
          then c'.pending == c.pending + [C.Pending(c.commandSeq + 1, command)] && c'.commandSeq == c.commandSeq + 1
          else c'.pending == c.pending && c'.commandSeq == c.commandSeq)
  {
  }

  /** Up to eight requests of the user wait for the next tick; more are not taken. */
  lemma RequestsWait(c: C.State, command: Command)
    ensures C.Request(c, command) ==
      c.(requests := c.requests + if |c.requests| < 8 then [command] else [])
  {
  }

  function FromClient(c: C.State, number: nat, body: Body): Mail {
    ToServer(c.address, Packet(c.session, c.token, c.race, number, 0, body))
  }

  /** A tick of a joined client moves the requests, in order and as far as there is room, to the queue; it sends the
      front of the queue, and only that, when a retry is due, and a PING when that is due. */
  lemma TickEffect(c: C.State, hello: bool, retry: bool, ping: bool, stamp: nat)
    requires c.open && c.game != C.Offline && c.slot >= 0
    ensures var reply := C.Tick(c, hello, retry, ping, stamp);
      var k := Admitted(|c.pending|, |c.requests|);
      var q := reply.client.pending;
      && k <= |c.requests|
      && q == c.pending + Numbered(c.requests[..k], c.commandSeq + 1)
      && reply.client.commandSeq == c.commandSeq + k && reply.client.requests == []
      && reply.sent == (if retry && q != [] then {FromClient(c, q[0].number, Reliable(q[0].command))} else {})
                       + (if ping then {FromClient(c, 0, Ping(stamp))} else {})
  {
    hide C.QueueAll;
    QueueAllTakes(c.(requests := []), c.requests);
  }

  /** A tick of a client that is not joined only repeats its HELLO when that is due. */
  lemma HelloRepeats(c: C.State, hello: bool, retry: bool, ping: bool, stamp: nat)
    requires c.open && c.game != C.Offline && c.slot < 0
    ensures C.Tick(c, hello, retry, ping, stamp) ==
      C.Reply(c, if hello then {FromClient(c, 0, Hello(c.nonce, c.key))} else {})
  {
  }

  /** A client that is detached tells the room only if nothing is in flight, under the next number, and keeps
      nothing. */
  lemma DetachTells(c: C.State)
    ensures var reply := C.Detach(c);
      && reply.sent == (if c.open && c.slot >= 0 && c.pending == []
                        then {FromClient(c, c.commandSeq + 1, Reliable(Leave))} else {})
      && !reply.client.open && !reply.client.attached && reply.client.slot < 0 && reply.client.pending == []
      && reply.client.buffer == [] && reply.client.requests == []
  {
  }

  // Colours.

  /** The palette of each network player. */
  const COLOURS: seq<nat> := [14, 8, 10, 12]

  lemma PaletteIsColour(slot: nat, k: nat)
    requires slot < 4 && k < 4
    ensures C.Palette(slot, k) == COLOURS[C.Local(slot, k)]
  {
    assert C.SLOTS[0] == [0, 3, 2, 1] && C.SLOTS[1] == [1, 3, 2, 0];
    assert C.SLOTS[2] == [2, 3, 1, 0] && C.SLOTS[3] == [3, 2, 1, 0];
    assert C.PALETTES[0] == [14, 12, 10, 8] && C.PALETTES[1] == [8, 12, 10, 14];
    assert C.PALETTES[2] == [10, 12, 8, 14] && C.PALETTES[3] == [12, 10, 8, 14];
  }

  lemma {:induction false} ColourWritten(slot: nat, peers: seq<Peer>, k: nat, a: nat)
    requires slot < 4 && |peers| == 4 && a < k <= 4
    ensures 0xc41 + 2 * a in C.CarWrites(slot, peers, k)
    ensures C.CarWrites(slot, peers, k)[0xc41 + 2 * a] == COLOURS[C.Local(slot, a)]
  {
    if a < k - 1 {
      ColourWritten(slot, peers, k - 1, a);
    } else {
      PaletteIsColour(slot, a);
    }
  }

  /** In every run, every client that sets up a race gives each network player, itself included, the same colour. */
  lemma ColoursAgree(room: Room, es: seq<Event>, n: nat, r: nat, a: nat)
    requires NewRoom(room) && a < 4 && n in Reached(room, es).clients
    requires r in Reached(room, es).clients[n].history.prepared
    ensures var u := Reached(room, es).clients[n].history.prepared[r];
      u.slot < 4 && 0xc41 + 2 * a in u.writes && u.writes[0xc41 + 2 * a] == COLOURS[C.Local(u.slot, a)]
  {
    hide Ok, Reached, NewRoom, ViewOf, C.CarWrites;
    var s := Reached(room, es);
    ReachedOk(room, es);
    PreparedAt(s, n, r);
    var u := s.clients[n].history.prepared[r];
    PeersCount(s.past[u.at - 1]);
    ColourWritten(u.slot, ViewOf(s.past[u.at - 1], 0).peers, 4, a);
  }

  lemma PeersCount(r: Room)
    ensures |ViewOf(r, 0).peers| == 4
  {
  }

  /** In every run, the track and league a client writes for a race are those the room had for it. */
  lemma LocationIsRooms(room: Room, es: seq<Event>, n: nat, r: nat)
    requires NewRoom(room) && n in Reached(room, es).clients && r in Reached(room, es).clients[n].history.located
    ensures var s := Reached(room, es);
      var u := s.clients[n].history.located[r];
      && 1 <= u.at <= |s.past|
      && var seen := s.past[u.at - 1];
         seen.race == r && u.writes == map[0x53 := seen.track, 0x5a := seen.league]
  {
    hide Ok, Reached, NewRoom;
    ReachedOk(room, es);
    LocatedAt(Reached(room, es), n, r);
  }

  // The ROM at the barrier.

  /** The patches a frame applies. */
  function PatchesOf(c: C.State, f: C.Frame): seq<P.GamePatch> {
    if !c.attached then []
    else match c.game
      case Init => P.MENU_PATCHES
      case CarSelect => if f.ram55 == 5 then P.WAIT_PATCHES else []
      case Waiting => if 0 <= c.slot < 4 && c.view.phase == Loading then P.PreparePatches(c.slot) else []
      case Prepare => P.CONFIRM_PATCHES
      case Location =>
        P.HOLD_PATCHES + if C.StepFrame(c, f).client.game == C.Race then P.RELEASE_PATCHES else []
      case _ => []
  }

  /** At the starting line the game's code is held, and released in the frame in which the client enters the race. */
  lemma HeldUntilReleased(c: C.State, f: C.Frame, s: P.Patched, k: nat)
    requires c.attached && c.game == C.Location && |s.rom| == P.ROM_SIZE && k < 6
    ensures forall j :: 0 <= j < |PatchesOf(c, f)| ==> P.Safe(PatchesOf(c, f)[j])
    ensures P.PatchList(s, PatchesOf(c, f)).rom[0xab1 + k] ==
      if C.StepFrame(c, f).client.game == C.Race then [0xe6, 0x55, 0xe6, 0x55, 0x64, 0x56][k] else 0xea
  {
    hide C.StepFrame, P.PatchList;
    var ps := PatchesOf(c, f);
    assert forall j :: 0 <= j < |ps| ==> P.Safe(ps[j]) && P.CoversByte(ps[j], 0xab1 + k);
    P.PatchListWritten(s, ps, 0xab1 + k);
    var last := |ps| - 1;
    assert P.CoversByte(ps[last], 0xab1 + k);
  }
}
