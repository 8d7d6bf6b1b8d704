/** How a client moves on in any run, and what becomes of a command that its full queue could not take. */
module Onward {
  import opened Words
  import opened Messages
  import opened Rooms
  import opened RoomInvariants
  import opened RoomSteps
  import opened RoomMail
  import E = RoomEffects
  import T = RoomTheorems
  import opened Network
  import opened ClientSide
  import opened NetworkTheorems
  import opened SystemTheorems
  import C = Clients

  /** The client has already recorded that it sent a command of this kind in its race. */
  predicate Flagged(c: C.State, command: Command) {
    || (command.Select? && c.selectedSent)
    || (command.Loaded? && c.loadedSent)
    || (command.Finish? && c.finishedSent)
  }

  /** Races only advance. Within one race, movement numbers only grow,
    what has been recorded as sent stays recorded, and
      nothing of a recorded kind is issued. */
  predicate MovesOn(c: C.State, c': C.State) {
    && (c.token != 0 ==> c'.token == c.token)
    && c.race <= c'.race
    && (c'.race == c.race ==>
          && c.stateSeq <= c'.stateSeq
          && (c.selectedSent ==> c'.selectedSent)
          && (c.loadedSent ==> c'.loadedSent)
          && (c.finishedSent ==> c'.finishedSent))
    && forall e :: e in c'.history.issued ==>
         e in c.history.issued || (c.race <= e.race && !(e.race == c.race && Flagged(c, e.command)))
  }

  lemma MovesOnTransitive(a: C.State, b: C.State, c: C.State)
    requires MovesOn(a, b) && MovesOn(b, c)
    ensures MovesOn(a, c)
  {
  }

  /** Nothing is issued, and counters and records stay. */
  predicate Rests(c: C.State, c': C.State) {
    && c'.token == c.token && c'.race == c.race && c.stateSeq <= c'.stateSeq
    && c'.selectedSent == c.selectedSent && c'.loadedSent == c.loadedSent && c'.finishedSent == c.finishedSent
    && c'.history.issued == c.history.issued
  }

  lemma RestsMovesOn(c: C.State, c': C.State)
    requires Rests(c, c')
    ensures MovesOn(c, c')
  {
  }

  lemma QueueMovesOn(c: C.State, command: Command)
    requires !Flagged(c, command)
    ensures MovesOn(c, C.Queue(c, command))
  {
    var c' := C.Queue(c, command);
    if c' != c {
      assert c'.history.issued == c.history.issued + [C.Issued(c.race, c.commandSeq + 1, command)];
    }
  }

  lemma {:induction false} QueueAllMovesOn(c: C.State, commands: seq<Command>)
    requires forall k :: 0 <= k < |commands| ==> commands[k].Config? || commands[k].Next?
    ensures MovesOn(c, C.QueueAll(c, commands))
  {
    hide C.Queue, MovesOn;
    if commands == [] {
      RestsMovesOn(c, c);
    } else {
      var k := |commands| - 1;
      QueueAllMovesOn(c, commands[..k]);
      QueueMovesOn(C.QueueAll(c, commands[..k]), commands[k]);
      MovesOnTransitive(c, C.QueueAll(c, commands[..k]), C.QueueAll(c, commands));
    }
  }

  /** A command of a kind that is sent once per race, with its record. */
  lemma MarkedMovesOn(c: C.State, command: Command)
    requires !Flagged(c, command)
    ensures MovesOn(c, Marked(c, command))
  {
    hide C.Queue;
    QueueMovesOn(c, command);
    QueueRests(c, command);
  }

  lemma QueueRests(c: C.State, command: Command)
    ensures var c' := C.Queue(c, command);
      c'.race == c.race && c'.stateSeq == c.stateSeq && c'.selectedSent == c.selectedSent
      && c'.loadedSent == c.loadedSent && c'.finishedSent == c.finishedSent && c'.token == c.token
  {
  }

  lemma SendsMoveOn(c: C.State, f: C.Frame)
    ensures MovesOn(c, C.SendSelection(c)) && MovesOn(c, C.SendLoaded(c, f)) && MovesOn(c, C.SendFinish(c))
  {
    hide C.Queue, MovesOn;
    RestsMovesOn(c, c);
    if c.slot >= 0 && !c.selectedSent && c.view.phase == Lobby {
      MarkedMovesOn(c, Select(c.car));
      assert Marked(c, Select(c.car)) == C.SendSelection(c) by { QueueRests(c, Select(c.car)); }
    }
    if !c.loadedSent && c.view.phase == Loading {
      MarkedMovesOn(c, Loaded(f.x, f.y, f.orientation));
      assert Marked(c, Loaded(f.x, f.y, f.orientation)) == C.SendLoaded(c, f) by {
        QueueRests(c, Loaded(f.x, f.y, f.orientation));
      }
    }
    if !c.finishedSent {
      MarkedMovesOn(c, Finish);
      assert Marked(c, Finish) == C.SendFinish(c) by { QueueRests(c, Finish); }
    }
  }

  lemma SetupRests(c: C.State, reached: bool)
    ensures Rests(c, C.PrepareRace(c)) && Rests(c, C.Locate(c)) && Rests(c, C.EnterRace(c, reached))
  {
    hide C.PrepareWrites, C.LocateWrites;
  }

  lemma SetupMovesOn(c: C.State, f: C.Frame)
    requires c.attached && (c.game == C.Waiting || c.game == C.Prepare || c.game == C.Location)
    ensures MovesOn(c, C.StepFrame(c, f).client)
  {
    hide C.SendSelection, C.SendLoaded, C.PrepareRace, C.Locate, C.EnterRace, C.Released, MovesOn;
    RestsMovesOn(c, c);
    SendsMoveOn(c, f);
    var c1 := if c.game == C.Waiting then C.SendSelection(c)
      else if c.game == C.Location then C.SendLoaded(c, f) else c;
    SetupRests(c1, f.reached);
    RestsMovesOn(c1, C.PrepareRace(c1));
    RestsMovesOn(c1, C.Locate(c1));
    RestsMovesOn(c1, C.EnterRace(c1, f.reached));
    MovesOnTransitive(c, c1, C.PrepareRace(c1));
    MovesOnTransitive(c, c1, C.Locate(c1));
    MovesOnTransitive(c, c1, C.EnterRace(c1, f.reached));
  }

  lemma FrameMovesOn(c: C.State, f: C.Frame)
    ensures MovesOn(c, C.StepFrame(c, f).client)
  {
    hide C.Queue, MovesOn;
    RestsMovesOn(c, c);
    if !c.attached || c.game == C.Offline {
    } else if c.game == C.Waiting || c.game == C.Prepare || c.game == C.Location {
      hide C.StepFrame;
      SetupMovesOn(c, f);
    } else if c.game == C.Race {
      hide C.StepFrame;
      RaceMovesOn(c, f);
    } else if c.game == C.Standings {
      QueueMovesOn(c, Next);
    } else {
      hide C.StepFrame;
      MenuRests(c, f);
      RestsMovesOn(c, C.StepFrame(c, f).client);
    }
  }

  lemma MenuRests(c: C.State, f: C.Frame)
    requires c.attached && (c.game == C.Init || c.game == C.CarSelect || c.game == C.Crossed)
    ensures Rests(c, C.StepFrame(c, f).client)
  {
  }

  lemma RaceMovesOn(c: C.State, f: C.Frame)
    requires c.attached && c.game == C.Race
    ensures MovesOn(c, C.StepFrame(c, f).client)
  {
    hide C.SendFinish, MovesOn;
    if f.ram54 == 3 {
      SendsMoveOn(c, f);
      var c1 := C.SendFinish(c);
      RestsMovesOn(c1, c1.(game := C.Crossed));
      MovesOnTransitive(c, c1, c1.(game := C.Crossed));
    } else {
      RestsMovesOn(c, c.(stateSeq := c.stateSeq + 1));
    }
  }

  lemma TakeSnapshotMovesOn(c: C.State, p: Packet)
    requires p.body.Snapshot? && Near(p.race, c.race) && (Same(p.race, c.race) || Newer(p.race, c.race))
    ensures MovesOn(c, C.TakeSnapshot(c, p))
  {
    hide C.Queue, C.AckedCount, C.Entries, C.Newest, MovesOn;
    WindowedComparison(p.race, c.race);
    var c1 := C.Acknowledge(c.(snapshotSeq := p.number), p.ack);
    var c2 := if Same(p.race, c.race) then c1 else C.ChangeRace(c1, p.race, p.ack);
    var c3 := C.Observe(c2, p.body.view);
    assert MovesOn(c, c3) by { NewRace(c, c3); }
    QueueMovesOn(c3, Arm(c3.view.start));
    MovesOnTransitive(c, c3, C.Queue(c3, Arm(c3.view.start)));
    var c4 := C.Queue(c3, Arm(c3.view.start));
    RestsMovesOn(c4, c4.(armedTime := c3.view.start));
    MovesOnTransitive(c, c4, c4.(armedTime := c3.view.start));
  }

  lemma NewRace(c: C.State, c': C.State)
    requires c'.token == c.token && c'.history.issued == c.history.issued && (c'.race > c.race || Rests(c, c'))
    ensures MovesOn(c, c')
  {
  }

  lemma ReceiveMovesOn(c: C.State, p: Packet)
    requires ClientWindow(c, p) && (c.token == 0 ==> c.race == 0)
    requires c.token != 0 && c.open ==> c.slot >= 0
    ensures MovesOn(c, C.Receive(c, p).client)
  {
    hide C.TakeSnapshot, PlausibleView, MovesOn;
    RestsMovesOn(c, c);
    RestsMovesOn(c, C.Fail(c));
    if C.AcceptsSnapshot(c, p) {
      TakeSnapshotMovesOn(c, p);
    }
    if C.Welcomes(c, p) && c.slot < 0 {
      var c' := c.(slot := p.body.slot, session := p.session, token := p.token, race := p.race, commandSeq := p.ack);
      if c.token == 0 {
        assert MovesOn(c, c') by { JoinMovesOn(c, c'); }
      }
    }
  }

  lemma JoinMovesOn(c: C.State, c': C.State)
    requires c.token == 0 && c.race == 0 && c'.stateSeq == c.stateSeq && c'.history.issued == c.history.issued
    requires c'.selectedSent == c.selectedSent && c'.loadedSent == c.loadedSent && c'.finishedSent == c.finishedSent
    ensures MovesOn(c, c')
  {
  }

  lemma TickMovesOn(c: C.State, hello: bool, retry: bool, ping: bool, stamp: nat)
    requires OnceOk(c)
    ensures MovesOn(c, C.Tick(c, hello, retry, ping, stamp).client)
  {
    hide C.QueueAll, MovesOn;
    RestsMovesOn(c, c);
    var c0 := c.(requests := []);
    RestsMovesOn(c, c0);
    QueueAllMovesOn(c0, c.requests);
    MovesOnTransitive(c, c0, C.QueueAll(c0, c.requests));
  }

  lemma DetachMovesOn(c: C.State)
    ensures MovesOn(c, C.Detach(c).client)
  {
    var c' := C.Detach(c).client;
    assert forall e :: e in c'.history.issued ==> e in c.history.issued || (e.race == c.race && e.command == Leave);
  }

  lemma ClientFacts(s: System, n: nat)
    requires Ok(s) && n in s.clients
    ensures var c := s.clients[n];
      && OnceOk(c) && (c.token == 0 ==> c.race == 0 && !GameSetUp(c.game) && c.slot < 0)
      && (c.token != 0 && c.open ==> c.slot >= 0)
      && (c.token != 0 ==> c.token in s.owners && s.owners[c.token] == n)
  {
    hide Invariant, PastOk, SeatedOk, AddressOk, PastSeatedOk, NetOk, OwnersOk, StatusOk, StreamOk, ViewOk, GameOk,
      OnceOk, TimelyOk, BufferOk;
    assert ClientOk(n, s);
  }

  lemma StepMovesOn(s: System, e: Event, n: nat)
    requires Ok(s) && Enabled(s, e) && n in s.clients
    ensures n in Step(s, e).clients && MovesOn(s.clients[n], Step(s, e).clients[n])
  {
    hide Ok, RoomWindow, ClientWindow, Receive, Tick, PingAll, Close, C.Receive, C.Tick, C.StepFrame, C.Detach,
      C.Request, C.Fail, Executes, Seats, MovesOn, OnceOk, GameSetUp;
    RestsMovesOn(s.clients[n], s.clients[n]);
    match e {
      case ClientReceives(m, p) => ClientFacts(s, m); ReceiveMovesOn(s.clients[m], p);
      case ClientTicks(m, hello, retry, ping, stamp) =>
        ClientFacts(s, m);
        TickMovesOn(s.clients[m], hello, retry, ping, stamp);
      case ClientFrames(m, f) => FrameMovesOn(s.clients[m], f);
      case ClientRequests(m, command) => RequestMovesOn(s.clients[m], command);
      case ClientFails(m) => RequestMovesOn(s.clients[m], Next);
      case ClientDetaches(m) => DetachMovesOn(s.clients[m]);
      case _ =>
    }
  }

  lemma RequestMovesOn(c: C.State, command: Command)
    ensures MovesOn(c, C.Request(c, command)) && MovesOn(c, C.Fail(c))
  {
    RestsMovesOn(c, C.Request(c, command));
    RestsMovesOn(c, C.Fail(c));
  }

  lemma {:induction false} RunMovesOn(s: System, es: seq<Event>, n: nat)
    requires Ok(s) && n in s.clients
    ensures n in Run(s, es).clients && MovesOn(s.clients[n], Run(s, es).clients[n])
  {
    hide Ok, Step, Enabled, MovesOn;
    if es == [] {
      RestsMovesOn(s.clients[n], s.clients[n]);
    } else {
      var s1, e := Run(s, es[..|es| - 1]), es[|es| - 1];
      RunMovesOn(s, es[..|es| - 1], n);
      RunOk(s, es[..|es| - 1]);
      if Enabled(s1, e) {
        StepMovesOn(s1, e, n);
        MovesOnTransitive(s.clients[n], s1.clients[n], Step(s1, e).clients[n]);
      }
    }
  }

  // Commands that the full queue could not take.

  /** The client has recorded a command of this kind as sent in this race, and has issued none. */
  ghost predicate Lost(c: C.State, race: nat, command: Command) {
    && race <= c.race
    && (c.race == race ==> Flagged(c, command))
    && forall e :: e in c.history.issued && e.race == race ==> !SameKind(e.command, command)
  }

  /** In the frame in which the client sends SELECT, LOADED or FINISH. */
  predicate SendsNow(c: C.State, f: C.Frame, command: Command) {
    && c.attached && c.slot >= 0 && !Flagged(c, command)
    && match command
       case Select(_) => c.game == C.Waiting && c.view.phase == Lobby
       case Loaded(_, _, _) =>
         c.game == C.Location && c.view.phase == Loading && f.ram54 == 2 && f.ram55 == 0 && f.ram56 == 2
       case Finish => c.game == C.Race && f.ram54 == 3
       case _ => false
  }

  /** What is queued by `Marked` is issued exactly when the queue has room, and recorded as sent in any case. */
  lemma MarkedLost(c: C.State, command: Command)
    requires OnceOk(c) && c.slot >= 0 && !Flagged(c, command) && SameKind(command, command)
    ensures Lost(Marked(c, command), c.race, command) <==> |c.pending| >= C.QUEUE_LIMIT
    ensures Marked(c, command).history.issued ==
      c.history.issued + if |c.pending| < C.QUEUE_LIMIT then [C.Issued(c.race, c.commandSeq + 1, command)] else []
  {
    var e := C.Issued(c.race, c.commandSeq + 1, command);
    if |c.pending| < C.QUEUE_LIMIT {
      assert e in Marked(c, command).history.issued;
    }
  }

  lemma SendsAre(c: C.State, f: C.Frame)
    ensures c.slot >= 0 && !c.selectedSent && c.view.phase == Lobby ==> C.SendSelection(c) == Marked(c, Select(c.car))
    ensures !c.loadedSent && c.view.phase == Loading ==>
      C.SendLoaded(c, f) == Marked(c, Loaded(f.x, f.y, f.orientation))
    ensures !c.finishedSent ==> C.SendFinish(c) == Marked(c, Finish)
  {
    hide C.Queue;
    QueueRests(c, Select(c.car));
    QueueRests(c, Loaded(f.x, f.y, f.orientation));
    QueueRests(c, Finish);
  }

  /** Looking alike to `Lost`. */
  lemma LostAlike(c: C.State, c': C.State, race: nat, command: Command, like: Command)
    requires c'.race == c.race && c'.history.issued == c.history.issued && SameKind(command, like)
    requires c'.selectedSent == c.selectedSent && c'.loadedSent == c.loadedSent && c'.finishedSent == c.finishedSent
    ensures Lost(c', race, like) <==> Lost(c, race, command)
  {
  }

  /** In the frame in which a connected client sends SELECT, LOADED or FINISH, the command is lost if and only if eight
      commands are waiting. */
  lemma LostExactlyWhenFull(c: C.State, f: C.Frame, command: Command)
    requires OnceOk(c) && SendsNow(c, f, command)
    ensures Lost(C.StepFrame(c, f).client, c.race, command) <==> |c.pending| >= C.QUEUE_LIMIT
  {
    hide C.Queue, C.PrepareRace, C.EnterRace, C.SendSelection, C.SendLoaded, C.SendFinish, C.Released, Marked, Lost,
      OnceOk;
    SendsAre(c, f);
    var c' := C.StepFrame(c, f).client;
    match command {
      case Select(_) =>
        MarkedLost(c, Select(c.car));
        var c1 := C.SendSelection(c);
        MarkedKeeps(c, Select(c.car));
        LostAlike(c1, c', c.race, Select(c.car), command);
      case Loaded(_, _, _) =>
        var sent := Loaded(f.x, f.y, f.orientation);
        MarkedLost(c, sent);
        var c1 := C.SendLoaded(c, f);
        MarkedKeeps(c, sent);
        SetupRests(c1, f.reached);
        LostAlike(c1, c', c.race, sent, command);
      case Finish =>
        MarkedLost(c, Finish);
        LostAlike(C.SendFinish(c), c', c.race, Finish, command);
    }
  }

  lemma MarkedKeeps(c: C.State, command: Command)
    ensures var c' := Marked(c, command); c'.view == c.view && c'.slot == c.slot
  {
  }

  /** What is lost stays lost. */
  lemma StaysLost(c: C.State, c': C.State, race: nat, command: Command)
    requires Lost(c, race, command) && MovesOn(c, c')
    ensures Lost(c', race, command)
  {
  }

  /** The status a player has not passed, and the phase the room has not left, without a command of this kind. */
  predicate HeldBack(status: Status, phase: Phase, command: Command) {
    match command
    case Select(_) => status == Joined && phase == Lobby
    case Loaded(_, _, _) => (status == Joined || status == Selected) && (phase == Lobby || phase == Loading)
    case Finish => status != Finished && phase != Results
    case _ => true
  }

  lemma LostHoldsBack(s: System, n: nat, i: nat, command: Command)
    requires Ok(s) && n in s.clients && i < 4 && Lost(s.clients[n], s.room.race, command) && s.clients[n].token != 0
    requires Occupied(s.room.players[i]) && s.room.players[i].token == s.clients[n].token
    ensures HeldBack(s.room.players[i].status, s.room.phase, command)
  {
    hide PastOk, AddressOk, PastSeatedOk, NetOk, OwnersOk, ClientOk, OnceOk, SettingsOk, StartOk, HiddenOk,
      IdentityOk, OpenOk;
    var p := s.room.players[i];
    var done := s.processed[p.token];
    ClientFacts(s, n);
    assert StatusFits(s.room.phase, p.status) && StatusBacked(p, done, s.room.race);
    forall q | q in done && q.race == s.room.race ensures !SameKind(q.command, command) {
      OwnerFacts(s, p.token);
      var k :| 0 <= k < |done| && done[k] == q;
      assert C.Issued(q.race, k + 1, q.command) in s.clients[n].history.issued;
    }
    NeverDone(p, done, s.room.race, command);
  }

  lemma NeverDone(p: Player, done: seq<Processed>, race: nat, command: Command)
    requires StatusBacked(p, done, race) && forall q :: q in done && q.race == race ==> !SameKind(q.command, command)
    ensures command.Select? ==> p.status == Joined
    ensures command.Loaded? ==> p.status != PlayerLoaded && p.status != PlayerRacing && p.status != Finished
    ensures command.Finish? ==> p.status != Finished
  {
  }

  /** A lost SELECT, LOADED or FINISH is lost for the whole race: in every continuation, while that race lasts and the
      player is present, it stays below the status the command would have given it, and the room stays in that phase. */
  lemma LostIsFinal(room: Room, es: seq<Event>, more: seq<Event>, n: nat, i: nat, command: Command)
    requires NewRoom(room) && i < 4 && n in Reached(room, es).clients
    requires var c := Reached(room, es).clients[n]; c.token != 0 && Lost(c, c.race, command)
    ensures var c, r := Reached(room, es).clients[n], Reached(room, es + more).room;
      r.race == c.race && Occupied(r.players[i]) && r.players[i].token == c.token ==>
        HeldBack(r.players[i].status, r.phase, command)
  {
    hide Ok, NewRoom, Run, Lost, MovesOn, HeldBack;
    var s := Reached(room, es);
    var c := s.clients[n];
    ReachedOk(room, es);
    RunSplit(Start(room), es, more);
    RunOk(s, more);
    RunMovesOn(s, more, n);
    var s' := Run(s, more);
    StaysLost(c, s'.clients[n], c.race, command);
    assert s'.clients[n].token == c.token by { TokenKept(c, s'.clients[n]); }
    var r := s'.room;
    if r.race == c.race && Occupied(r.players[i]) && r.players[i].token == c.token {
      LostHoldsBack(s', n, i, command);
    }
  }

  lemma TokenKept(c: C.State, c': C.State)
    requires MovesOn(c, c') && c.token != 0
    ensures c'.token == c.token
  {
  }

  // The numbers of movements.

  /** A movement datagram was sent by the client that owns its token; in the client's race, its number has been used. */
  ghost predicate MovementOk(p: Packet, owners: map<nat, nat>, clients: map<nat, C.State>) {
    && p.token in owners && owners[p.token] in clients
    && var c := clients[owners[p.token]];
       c.token == p.token != 0 && p.race <= c.race && (p.race == c.race ==> p.number <= c.stateSeq)
  }

  ghost predicate MovementsOk(s: System) {
    forall m :: m in s.net && m.ToServer? && m.packet.body.Movement? ==> MovementOk(m.packet, s.owners, s.clients)
  }

  /** Only a racing client's frame sends movements, one at a time, under its next number. */
  lemma FrameSendsMovement(c: C.State, f: C.Frame, m: Mail)
    requires m in C.StepFrame(c, f).sent
    ensures var c' := C.StepFrame(c, f).client;
      && c.game == C.Race && c'.race == c.race && c'.token == c.token && c'.stateSeq == c.stateSeq + 1
      && m == C.Stamped(c', c'.stateSeq, Movement(f.x, f.y, f.orientation))
  {
    hide C.Queue, C.PrepareRace, C.Locate, C.EnterRace, C.Released, C.SendSelection, C.SendLoaded, C.SendFinish;
  }

  lemma OthersSendNone(c: C.State, p: Packet, hello: bool, retry: bool, ping: bool, stamp: nat, m: Mail)
    requires m in C.Receive(c, p).sent || m in C.Tick(c, hello, retry, ping, stamp).sent || m in C.Detach(c).sent
    ensures m.ToServer? && !m.packet.body.Movement?
  {
    hide C.TakeSnapshot, C.QueueAll, PlausibleView;
  }

  lemma OldMovementOk(s: System, e: Event, p: Packet)
    requires Ok(s) && Enabled(s, e) && MovementOk(p, s.owners, s.clients)
    ensures var s' := Step(s, e); MovementOk(p, s'.owners, s'.clients)
  {
    hide Ok, Step, Enabled, MovesOn;
    var n := s.owners[p.token];
    StepMovesOn(s, e, n);
    OwnersGrow(s, e, p.token);
    MovedOn(s.clients[n], Step(s, e).clients[n]);
  }

  lemma MovedOn(c: C.State, c': C.State)
    requires MovesOn(c, c')
    ensures (c.token != 0 ==> c'.token == c.token) && c.race <= c'.race
    ensures c'.race == c.race ==> c.stateSeq <= c'.stateSeq
  {
  }

  lemma OwnersGrow(s: System, e: Event, token: nat)
    requires Enabled(s, e) && token in s.owners
    ensures token in Step(s, e).owners && Step(s, e).owners[token] == s.owners[token]
  {
    hide RoomWindow, ClientWindow, Receive, Tick, PingAll, Close, C.Receive, C.Tick, C.StepFrame, C.Detach, C.Request,
      C.Fail, Executes, Seats;
  }

  /** A new datagram to the room comes from a client's step. */
  lemma NewMovement(s: System, e: Event, m: Mail)
    requires Ok(s) && Enabled(s, e) && m in Step(s, e).net && m !in s.net && m.ToServer? && m.packet.body.Movement?
    ensures e.ClientFrames? && e.nonce in s.clients && m in C.StepFrame(s.clients[e.nonce], e.frame).sent
  {
    hide Ok, RoomWindow, ClientWindow, Receive, Tick, PingAll, Close, C.Receive, C.Tick, C.StepFrame, C.Detach,
      C.Request, C.Fail, Executes, Seats;
    match e {
      case RoomReceives(from, p, at, token) => RoomAnswers(s, e, m);
      case RoomTicks(_, _) => RoomAnswers(s, e, m);
      case RoomPings(_) => RoomAnswers(s, e, m);
      case RoomCloses => RoomAnswers(s, e, m);
      case ClientReceives(n, p) => OthersSendNone(s.clients[n], p, false, false, false, 0, m);
      case ClientTicks(n, hello, retry, ping, stamp) =>
        OthersSendNone(s.clients[n], Packet(0, 0, 0, 0, 0, Junk), hello, retry, ping, stamp, m);
      case ClientDetaches(n) => OthersSendNone(s.clients[n], Packet(0, 0, 0, 0, 0, Junk), false, false, false, 0, m);
      case _ =>
    }
  }

  lemma RoomAnswers(s: System, e: Event, m: Mail)
    requires Enabled(s, e) && (e.RoomReceives? || e.RoomTicks? || e.RoomPings? || e.RoomCloses?)
    requires m in Step(s, e).net && m !in s.net
    ensures m.ToClient?
  {
    hide RoomWindow, Receive, Tick, PingAll, Close, Executes, Seats;
    match e {
      case RoomReceives(from, p, at, token) => ReceiveDated(s.room, from, p, at, token);
      case RoomTicks(now, published) => TickDated(s.room, now, published);
      case RoomPings(now) => OthersDated(s.room, now);
      case RoomCloses => OthersDated(s.room, 0);
    }
  }

  lemma RacerConnected(s: System, n: nat)
    requires Ok(s) && n in s.clients && s.clients[n].game == C.Race
    ensures s.clients[n].token != 0
  {
    hide Ok;
    ClientFacts(s, n);
  }

  lemma StepMovements(s: System, e: Event)
    requires Ok(s) && Enabled(s, e) && MovementsOk(s)
    ensures MovementsOk(Step(s, e))
  {
    hide Ok, Step, Enabled, C.StepFrame, MovementOk, MovesOn;
    var s' := Step(s, e);
    forall m | m in s'.net && m.ToServer? && m.packet.body.Movement?
      ensures MovementOk(m.packet, s'.owners, s'.clients)
    {
      if m in s.net {
        OldMovementOk(s, e, m.packet);
      } else {
        NewMovement(s, e, m);
        FramedMovement(s, e.nonce, e.frame, m);
        FrameStep(s, e.nonce, e.frame);
      }
    }
  }

  lemma FramedMovement(s: System, n: nat, f: C.Frame, m: Mail)
    requires Ok(s) && n in s.clients && m in C.StepFrame(s.clients[n], f).sent
    ensures m.ToServer?
    ensures MovementOk(m.packet, s.owners, s.clients[n := C.StepFrame(s.clients[n], f).client])
  {
    hide Ok, C.StepFrame, GameSetUp;
    FrameSendsMovement(s.clients[n], f, m);
    RacerConnected(s, n);
    ClientFacts(s, n);
  }

  lemma FrameStep(s: System, n: nat, f: C.Frame)
    requires n in s.clients
    ensures Step(s, ClientFrames(n, f)) == AfterClient(s, n, C.StepFrame(s.clients[n], f))
  {
    hide C.StepFrame;
  }

  lemma {:induction false} RunMovements(s: System, es: seq<Event>)
    requires Ok(s) && MovementsOk(s)
    ensures MovementsOk(Run(s, es))
  {
    hide Ok, Step, Enabled, MovementsOk;
    if es != [] {
      var s1, e := Run(s, es[..|es| - 1]), es[|es| - 1];
      RunMovements(s, es[..|es| - 1]);
      RunOk(s, es[..|es| - 1]);
      if Enabled(s1, e) {
        StepMovements(s1, e);
      }
    }
  }

  /** In every run, a movement that a client sends has a greater number than every movement it has sent before in that
      race, so that the greatest number delivered is the latest movement sent. */
  lemma MovementsNumbered(room: Room, es: seq<Event>, n: nat, f: C.Frame, m: Mail, before: Mail)
    requires NewRoom(room) && n in Reached(room, es).clients
    requires m in C.StepFrame(Reached(room, es).clients[n], f).sent
    requires before in Reached(room, es).net && before.ToServer? && before.packet.body.Movement?
    requires before.packet.token == m.packet.token && before.packet.race == m.packet.race
    ensures m.ToServer? && m.packet.body.Movement? && before.packet.number < m.packet.number
  {
    hide Ok, NewRoom, Run, C.StepFrame, GameSetUp;
    var s := Reached(room, es);
    NewRoomOk(room);
    RunOk(Start(room), es);
    RunMovements(Start(room), es);
    FrameSendsMovement(s.clients[n], f, m);
    RacerConnected(s, n);
    ClientFacts(s, n);
    assert MovementOk(before.packet, s.owners, s.clients);
  }

  // The room's movement numbers follow the clients'.

  /** The room has stored no movement of this player that its client, in this race, has not sent. */
  ghost predicate NumberOk(p: Player, race: nat, owners: map<nat, nat>, clients: map<nat, C.State>) {
    && p.token in owners && owners[p.token] in clients
    && var c := clients[owners[p.token]];
       if c.token == p.token && c.race >= race then p.stateSeq <= c.stateSeq else p.stateSeq == 0
  }

  ghost predicate NumbersOk(s: System) {
    forall i :: 0 <= i < 4 && Occupied(s.room.players[i]) ==>
      NumberOk(s.room.players[i], s.room.race, s.owners, s.clients)
  }

  lemma RacesLag(s: System, n: nat)
    requires Ok(s) && n in s.clients
    ensures s.clients[n].token != 0 ==> s.clients[n].race <= s.room.race
  {
    hide Invariant, PastOk, SeatedOk, AddressOk, PastSeatedOk, NetOk, OwnersOk, StatusOk, ViewOk, GameOk, OnceOk,
      TimelyOk, BufferOk, IssuedOk, DoneOk, AckedOk, ClearedOk, FutureAckOk, QueueOk, FrontOk;
    assert ClientOk(n, s);
  }

  lemma SeatedOwners(s: System, i: nat)
    requires Ok(s) && i < 4 && Occupied(s.room.players[i])
    ensures s.room.players[i].token in s.owners && s.owners[s.room.players[i].token] in s.clients
    ensures s.owners[s.room.players[i].token] == s.room.players[i].nonce && s.room.players[i].token != 0
    ensures s.clients[s.room.players[i].nonce].address == s.room.players[i].address
  {
    hide Invariant, PastOk, PastSeatedOk, NetOk, StatusOk, ClientOk;
  }

  /** A step of a client leaves the room alone and moves the client on. */
  lemma ClientNumbers(s: System, e: Event)
    requires Ok(s) && Enabled(s, e) && NumbersOk(s)
    requires !e.RoomReceives? && !e.RoomTicks? && !e.RoomPings? && !e.RoomCloses?
    ensures NumbersOk(Step(s, e))
  {
    hide Ok, Step, Enabled, MovesOn;
    var s' := Step(s, e);
    assert s'.room == s.room && s'.owners == s.owners by { RoomUntouched(s, e); }
    forall i | 0 <= i < 4 && Occupied(s.room.players[i])
      ensures NumberOk(s.room.players[i], s.room.race, s'.owners, s'.clients)
    {
      SeatedOwners(s, i);
      var n := s.owners[s.room.players[i].token];
      StepMovesOn(s, e, n);
      MovedOn(s.clients[n], s'.clients[n]);
      RacesLag(s, n);
      StepOk(s, e);
      RacesLag(s', n);
    }
  }

  lemma RoomUntouched(s: System, e: Event)
    requires Enabled(s, e) && !e.RoomReceives? && !e.RoomTicks? && !e.RoomPings? && !e.RoomCloses?
    ensures Step(s, e).room == s.room && Step(s, e).owners == s.owners
  {
    hide RoomWindow, ClientWindow, C.Receive, C.Tick, C.StepFrame, C.Detach, C.Request, C.Fail;
  }

  /** A stored movement was sent by the client in this race. */
  lemma StoredWasSent(s: System, from: nat, p: Packet, i: nat, q: Player)
    requires Ok(s) && MovementsOk(s) && ToServer(from, p) in s.net && RoomWindow(s.room, from, p) && i < 4
    requires E.Stored(s.room, i, from, p, q)
    ensures NumberOk(s.room.players[i].(stateSeq := q.stateSeq), s.room.race, s.owners, s.clients)
  {
    hide Ok;
    RoomIsOk(s);
    E.FromSender(s.room, i, from, p);
    WindowedComparison(p.race, s.room.race);
    assert MovementOk(p, s.owners, s.clients);
    RacesLag(s, s.owners[p.token]);
  }

  lemma RoomIsOk(s: System)
    requires Ok(s)
    ensures Invariant(s.room)
  {
  }

  lemma ReceiveNumbers(s: System, from: nat, p: Packet, at: Times, token: nat)
    requires Ok(s) && Enabled(s, RoomReceives(from, p, at, token)) && NumbersOk(s) && MovementsOk(s)
    ensures NumbersOk(Step(s, RoomReceives(from, p, at, token)))
  {
    hide Ok, Receive, RoomWindow, MovementsOk, Invariant;
    var e := RoomReceives(from, p, at, token);
    var s' := Step(s, e);
    StepOk(s, e);
    RoomIsOk(s);
    forall i | 0 <= i < 4 && Occupied(s'.room.players[i])
      ensures NumberOk(s'.room.players[i], s'.room.race, s'.owners, s'.clients)
    {
      E.PacketNumber(s.room, from, p, at, token, i);
      ReceivedNumber(s, s', from, p, at, token, i);
    }
  }

  lemma ReceivedNumber(s: System, s': System, from: nat, p: Packet, at: Times, token: nat, i: nat)
    requires Ok(s) && Ok(s') && Enabled(s, RoomReceives(from, p, at, token)) && NumbersOk(s) && MovementsOk(s) && i < 4
    requires s' == Step(s, RoomReceives(from, p, at, token)) && Occupied(s'.room.players[i])
    requires var q, q' := s.room.players[i], s'.room.players[i];
      || (s'.room.race == s.room.race && q'.token == token && q'.stateSeq == 0)
      || (&& Occupied(q) && q'.token == q.token
          && if s'.room.race == s.room.race
             then q'.stateSeq == q.stateSeq || E.Stored(s.room, i, from, p, q')
             else q'.stateSeq == 0)
    ensures NumberOk(s'.room.players[i], s'.room.race, s'.owners, s'.clients)
  {
    hide Ok, Receive, RoomWindow, MovementsOk, Executes, Seats, E.Stored;
    var q, q' := s.room.players[i], s'.room.players[i];
    SeatedOwners(s', i);
    assert s'.clients == s.clients;
    if Occupied(q) && q'.token == q.token && s'.room.race == s.room.race {
      SeatedOwners(s, i);
      OwnersGrow(s, RoomReceives(from, p, at, token), q.token);
      if E.Stored(s.room, i, from, p, q') {
        StoredWasSent(s, from, p, i, q');
      }
    }
  }

  lemma QuietNumbers(s: System, e: Event)
    requires Ok(s) && Enabled(s, e) && NumbersOk(s) && (e.RoomTicks? || e.RoomPings? || e.RoomCloses?)
    ensures NumbersOk(Step(s, e))
  {
    hide Ok, Advance, Publish, Invariant;
    RoomIsOk(s);
    var s' := Step(s, e);
    forall i | 0 <= i < 4 && Occupied(s'.room.players[i])
      ensures NumberOk(s'.room.players[i], s'.room.race, s'.owners, s'.clients)
    {
      match e {
        case RoomTicks(now, published) =>
          E.AdvanceNumber(s.room, now, i);
          PublishKeeps(Advance(s.room, now), published);
        case _ =>
      }
      assert NumberOk(s.room.players[i], s.room.race, s.owners, s.clients);
    }
  }

  lemma PublishKeeps(r: Room, now: nat)
    ensures Publish(r, now).room == r.(snapshotSeq := r.snapshotSeq + 1)
  {
  }

  lemma {:induction false} RunNumbers(s: System, es: seq<Event>)
    requires Ok(s) && MovementsOk(s) && NumbersOk(s)
    ensures NumbersOk(Run(s, es))
  {
    hide Ok, Step, Enabled, MovementsOk, NumbersOk;
    if es != [] {
      var s1, e := Run(s, es[..|es| - 1]), es[|es| - 1];
      RunNumbers(s, es[..|es| - 1]);
      RunOk(s, es[..|es| - 1]);
      RunMovements(s, es[..|es| - 1]);
      if Enabled(s1, e) {
        if e.RoomReceives? {
          ReceiveNumbers(s1, e.from, e.packet, e.at, e.token);
        } else if e.RoomTicks? || e.RoomPings? || e.RoomCloses? {
          QuietNumbers(s1, e);
        } else {
          ClientNumbers(s1, e);
        }
      }
    }
  }

  lemma ReachedNumbers(room: Room, es: seq<Event>)
    requires NewRoom(room)
    ensures Ok(Reached(room, es)) && NumbersOk(Reached(room, es))
  {
    hide Ok;
    NewRoomOk(room);
    RunOk(Start(room), es);
    RunNumbers(Start(room), es);
  }

  /** In every run, the number of the movement the room has stored for a present player is at most that of the last
      movement its client has sent, while both are in the same race, and zero before the client has followed. */
  lemma NumbersFollow(room: Room, es: seq<Event>, i: nat)
    requires NewRoom(room) && i < 4 && Occupied(Reached(room, es).room.players[i])
    ensures var s := Reached(room, es);
      var p := s.room.players[i];
      && p.token in s.owners && s.owners[p.token] in s.clients
      && var c := s.clients[s.owners[p.token]];
         && (c.token == p.token && c.race == s.room.race ==> p.stateSeq <= c.stateSeq)
         && (c.token != p.token || c.race < s.room.race ==> p.stateSeq == 0)
  {
    hide Ok, Reached, NewRoom;
    ReachedNumbers(room, es);
    assert NumberOk(Reached(room, es).room.players[i], Reached(room, es).room.race, Reached(room, es).owners,
                    Reached(room, es).clients);
  }

  /** In every run, a movement that a client sends is stored when it is delivered next, if the player is racing in that
      race: the first of a race as well as every later one. */
  lemma NextMovementStored(room: Room, es: seq<Event>, n: nat, f: C.Frame, m: Mail, i: nat, at: Times)
    requires NewRoom(room) && i < 4 && n in Reached(room, es).clients
    requires m in C.StepFrame(Reached(room, es).clients[n], f).sent
    requires var s := Reached(room, es);
      var p := s.room.players[i];
      && !s.room.closed && s.room.race == s.clients[n].race && p.status == PlayerRacing && p.token == s.clients[n].token
      && Near(s.clients[n].stateSeq + 1, p.stateSeq)
    ensures m.ToServer? && m.packet.body.Movement?
    ensures var r' := Receive(Reached(room, es).room, m.from, m.packet, at, 0).room;
      T.StoresMovement(r'.players[i], m.packet)
  {
    hide Ok, Reached, NewRoom, C.StepFrame, Invariant, GameSetUp;
    var s := Reached(room, es);
    ReachedNumbers(room, es);
    FrameSendsMovement(s.clients[n], f, m);
    RacerConnected(s, n);
    ClientFacts(s, n);
    SeatedOwners(s, i);
    RoomIsOk(s);
    assert NumberOk(s.room.players[i], s.room.race, s.owners, s.clients);
    WindowedComparison(m.packet.number, s.room.players[i].stateSeq);
    assert s.clients[n].session == s.room.session && s.clients[n].address == s.room.players[i].address by {
      ClientSession(s, n);
    }
    FrameStamps(s.clients[n], f, m);
    assert E.From(s.room, i, m.from, m.packet);
    T.RacingPhase(s.room, i);
    E.MovementStored(s.room, i, m.from, m.packet, at, 0);
  }

  lemma ClientSession(s: System, n: nat)
    requires Ok(s) && n in s.clients && s.clients[n].token != 0
    ensures s.clients[n].session == s.room.session && s.clients[n].nonce == n
  {
    hide Ok;
    ClientIsSound(s, n);
  }

  lemma FrameStamps(c: C.State, f: C.Frame, m: Mail)
    requires m in C.StepFrame(c, f).sent
    ensures m.ToServer? && m.from == c.address && m.packet.session == c.session && m.packet.token == c.token
    ensures m.packet.race == c.race && m.packet.number == c.stateSeq + 1
    ensures m.packet.body == Movement(f.x, f.y, f.orientation)
  {
    hide C.Queue, C.PrepareRace, C.Locate, C.EnterRace, C.Released, C.SendSelection, C.SendLoaded, C.SendFinish;
  }
}
