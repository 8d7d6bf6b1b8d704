/** Ticks and game frames keep a client sound. */
module ClientFrames {
  import opened Words
  import opened Messages
  import opened Rooms
  import opened RoomInvariants
  import opened Network
  import opened ClientSide
  import opened ClientMoves
  import C = Clients

  // Ticks.

  lemma {:induction false} QueueAllSound(c: C.State, commands: seq<Command>, done: seq<Processed>, room: Room,
                                         past: seq<Room>)
    requires Sound(c, done, room, past) && c.slot >= 0
    requires forall k :: 0 <= k < |commands| ==> commands[k].Config? || commands[k].Next?
    ensures var c' := C.QueueAll(c, commands);
      Sound(c', done, room, past) && MailsKept(c, c') && c'.slot == c.slot
      && c'.token == c.token && c'.nonce == c.nonce && c'.session == c.session && c'.address == c.address
      && c'.open == c.open
  {
    hide IssuedOk, DoneOk, AckedOk, ClearedOk, FutureAckOk, QueueOk, FrontOk, OnceOk, ViewOk, GameOk, BufferOk,
      TimelyOk, CommandMailOk;
    if commands == [] {
    } else {
      var k := |commands| - 1;
      QueueAllSound(c, commands[..k], done, room, past);
      var c1 := C.QueueAll(c, commands[..k]);
      MarkedSound(c1, commands[k], done, room, past);
      assert Marked(c1, commands[k]) == C.Queue(c1, commands[k]);
      MailsKeptTransitive(c, c1, C.Queue(c1, commands[k]));
    }
  }

  /** The front command may always be sent again. */
  lemma FrontMailOk(c: C.State)
    requires QueueOk(c) && c.slot >= 0 && c.pending != []
    ensures CommandMailOk(C.Stamped(c, c.pending[0].number, Reliable(c.pending[0].command)).packet, c)
  {
  }

  lemma DropRequests(c: C.State, done: seq<Processed>, room: Room, past: seq<Room>)
    requires Sound(c, done, room, past)
    ensures Sound(c.(requests := []), done, room, past) && MailsKept(c, c.(requests := []))
  {
    hide IssuedOk, DoneOk, AckedOk, ClearedOk, FutureAckOk, QueueOk, FrontOk, ViewOk, GameOk, BufferOk, TimelyOk,
      CommandMailOk;
    var c' := c.(requests := []);
    SameStreamOk(c, c', done, room.race, past);
    RequestsFrame(c, c', room, past);
  }

  lemma RequestsFrame(c: C.State, c': C.State, room: Room, past: seq<Room>)
    requires ViewOk(c, past) && GameOk(c, past) && BufferOk(c, past) && TimelyOk(c, room)
      && c' == c.(requests := c'.requests)
    ensures ViewOk(c', past) && GameOk(c', past) && BufferOk(c', past) && TimelyOk(c', room)
  {
  }

  lemma RequestSound(c: C.State, command: Command, done: seq<Processed>, room: Room, past: seq<Room>)
    requires Sound(c, done, room, past) && (command.Config? || command.Next?)
    ensures Sound(C.Request(c, command), done, room, past) && MailsKept(c, C.Request(c, command))
  {
    hide IssuedOk, DoneOk, AckedOk, ClearedOk, FutureAckOk, QueueOk, FrontOk, ViewOk, GameOk, BufferOk, TimelyOk,
      CommandMailOk;
    var c' := C.Request(c, command);
    SameStreamOk(c, c', done, room.race, past);
    RequestsFrame(c, c', room, past);
  }

  // Frames that change only the game state.

  lemma GameChange(c: C.State, c': C.State, done: seq<Processed>, room: Room, past: seq<Room>)
    requires Sound(c, done, room, past) && SameStream(c, c')
    requires c'.snapshotSeq == c.snapshotSeq && c'.view == c.view && c'.car < 4 && c'.requests == c.requests
    requires c'.selectedSent == c.selectedSent && c'.loadedSent == c.loadedSent && c'.finishedSent == c.finishedSent
    requires BufferOk(c', past) && GameOk(c', past)
    ensures Sound(c', done, room, past) && MailsKept(c, c')
  {
    hide IssuedOk, DoneOk, AckedOk, ClearedOk, FutureAckOk, QueueOk, FrontOk, GameOk, BufferOk, CommandMailOk;
    SameStreamOk(c, c', done, room.race, past);
    SameTimely(c, c', room);
  }

  /** A view past the lobby comes from a snapshot of this race. */
  lemma ViewPastLobby(c: C.State, past: seq<Room>)
    requires ViewOk(c, past) && c.view.phase != Lobby
    ensures SetupAt(c.snapshotSeq, c.race, past) && past[c.snapshotSeq - 1].phase == c.view.phase
  {
  }

  lemma SameWrites(r: Room, now: nat, slot: nat)
    requires slot < 4
    ensures C.PrepareWrites(slot, ViewOf(r, now).peers) == C.PrepareWrites(slot, ViewOf(r, 0).peers)
  {
    assert forall i :: 0 <= i < 4 ==> ViewOf(r, now).peers[i].car == ViewOf(r, 0).peers[i].car;
    C.CarWritesSame(slot, ViewOf(r, now).peers, ViewOf(r, 0).peers, 4);
  }

  lemma PreparedExtended(prepared: map<nat, C.Setup>, past: seq<Room>, r: nat, u: C.Setup)
    requires PreparedOk(prepared, past) && SetupAt(u.at, r, past) && u.slot < 4
    requires u.writes == C.PrepareWrites(u.slot, ViewOf(past[u.at - 1], 0).peers)
    ensures PreparedOk(prepared[r := u], past)
  {
    hide C.PrepareWrites, ViewOf, SetupAt;
  }

  lemma LocatedExtended(located: map<nat, C.Setup>, past: seq<Room>, r: nat, u: C.Setup)
    requires LocatedOk(located, past) && SetupAt(u.at, r, past)
    requires u.writes == C.LocateWrites(past[u.at - 1].track, past[u.at - 1].league)
    ensures LocatedOk(located[r := u], past)
  {
  }

  lemma EnteredExtended(entered: map<nat, C.Entry>, past: seq<Room>, r: nat, u: C.Entry)
    requires EnteredOk(entered, past) && SetupAt(u.at, r, past)
    requires Committed(past[u.at - 1]) && u.start == past[u.at - 1].start
    requires past[u.at - 1].phase == Racing || (past[u.at - 1].phase == Countdown && u.reached)
    ensures EnteredOk(entered[r := u], past)
  {
  }

  lemma PrepareGame(c: C.State, past: seq<Room>)
    requires ViewOk(c, past) && GameOk(c, past) && 0 <= c.slot < 4 && c.view.phase == Loading && |c.view.peers| == 4
    ensures GameOk(C.PrepareRace(c), past)
  {
    hide C.PrepareWrites, PreparedOk, LocatedOk, EnteredOk, ViewOf;
    ViewPastLobby(c, past);
    var u := C.Setup(c.snapshotSeq, c.slot, C.PrepareWrites(c.slot, c.view.peers));
    SameWrites(past[c.snapshotSeq - 1], c.view.time, c.slot);
    PreparedExtended(c.history.prepared, past, c.race, u);
  }

  lemma LocateGame(c: C.State, past: seq<Room>)
    requires ViewOk(c, past) && GameOk(c, past) && c.game == C.Prepare
    ensures GameOk(C.Locate(c), past)
  {
    hide PreparedOk, LocatedOk, EnteredOk, C.LocateWrites;
    var u := C.Setup(c.snapshotSeq, 0, C.LocateWrites(c.view.track, c.view.league));
    LocatedExtended(c.history.located, past, c.race, u);
  }

  /** A client released by the barrier has seen a committed room. */
  lemma ReleasedCommitted(r: Room, v: View, reached: bool)
    requires Invariant(r) && v == ViewOf(r, v.time) && C.Released(v, reached)
    ensures Committed(r) && (r.phase == Racing || (r.phase == Countdown && reached))
  {
    if v.phase == Countdown {
      forall i | 0 <= i < 4 && Occupied(r.players[i]) ensures r.players[i].armed == r.start {
        assert Occupies(v.peers[i].status) && v.armed[i];
      }
    }
  }

  lemma EnterGame(c: C.State, room: Room, past: seq<Room>, reached: bool)
    requires ViewOk(c, past) && GameOk(c, past) && PastOk(room, past)
    requires c.game == C.Location && C.Released(c.view, reached)
    ensures GameOk(C.EnterRace(c, reached), past)
  {
    hide PreparedOk, LocatedOk, EnteredOk, Committed, C.Released, Invariant, Evolves;
    ReleasedCommitted(past[c.snapshotSeq - 1], c.view, reached);
    EnteredExtended(c.history.entered, past, c.race, C.Entry(c.snapshotSeq, c.view.start, reached));
  }

  // Frames that queue a command.

  lemma SelectionSound(c: C.State, done: seq<Processed>, room: Room, past: seq<Room>)
    requires Sound(c, done, room, past)
    ensures Sound(C.SendSelection(c), done, room, past) && MailsKept(c, C.SendSelection(c))
  {
    hide IssuedOk, DoneOk, AckedOk, ClearedOk, FutureAckOk, QueueOk, FrontOk, ViewOk, GameOk, BufferOk, TimelyOk,
      CommandMailOk;
    if c.slot >= 0 && !c.selectedSent && c.view.phase == Lobby {
      MarkedSound(c, Select(c.car), done, room, past);
      assert Marked(c, Select(c.car)) == C.SendSelection(c);
    }
  }

  lemma LoadedSound(c: C.State, f: C.Frame, done: seq<Processed>, room: Room, past: seq<Room>)
    requires Sound(c, done, room, past) && PastOk(room, past) && c.slot >= 0
    ensures Sound(C.SendLoaded(c, f), done, room, past) && MailsKept(c, C.SendLoaded(c, f))
  {
    hide IssuedOk, DoneOk, AckedOk, ClearedOk, FutureAckOk, QueueOk, FrontOk, ViewOk, GameOk, BufferOk, TimelyOk,
      OnceOk, CommandMailOk, Invariant;
    if !c.loadedSent && c.view.phase == Loading {
      var command := Loaded(f.x, f.y, f.orientation);
      ViewPastLobby(c, past);
      assert Evolves(past[c.snapshotSeq - 1], room);
      MarkedSound(c, command, done, room, past);
      assert Marked(c, command) == C.SendLoaded(c, f);
    }
  }

  /** A client in a race of the current generation implies that the room is committed to its start. */
  lemma RacingCommitted(c: C.State, room: Room, past: seq<Room>)
    requires GameOk(c, past) && PastOk(room, past) && c.race in c.history.entered && c.race == room.race
    ensures Committed(room) && room.start == c.history.entered[c.race].start
  {
  }

  lemma FinishSound(c: C.State, done: seq<Processed>, room: Room, past: seq<Room>)
    requires Sound(c, done, room, past) && PastOk(room, past) && c.slot >= 0 && c.game == C.Race
    ensures Sound(C.SendFinish(c), done, room, past) && MailsKept(c, C.SendFinish(c))
  {
    hide IssuedOk, DoneOk, AckedOk, ClearedOk, FutureAckOk, QueueOk, FrontOk, ViewOk, BufferOk, TimelyOk, OnceOk,
      CommandMailOk, PastOk, Committed, PreparedOk, LocatedOk, EnteredOk;
    if !c.finishedSent {
      if c.race == room.race {
        RacingCommitted(c, room, past);
      }
      MarkedSound(c, Finish, done, room, past);
      assert Marked(c, Finish) == C.SendFinish(c);
    }
  }

  lemma NextSound(c: C.State, done: seq<Processed>, room: Room, past: seq<Room>)
    requires Sound(c, done, room, past) && c.slot >= 0
    ensures Sound(C.Queue(c, Next), done, room, past) && MailsKept(c, C.Queue(c, Next))
  {
    hide IssuedOk, DoneOk, AckedOk, ClearedOk, FutureAckOk, QueueOk, FrontOk, ViewOk, GameOk, BufferOk, TimelyOk,
      OnceOk, CommandMailOk;
    MarkedSound(c, Next, done, room, past);
    assert Marked(c, Next) == C.Queue(c, Next);
  }

  // All frames.

  lemma WaitingFrame(c: C.State, f: C.Frame, done: seq<Processed>, room: Room, past: seq<Room>)
    requires Sound(c, done, room, past) && c.game == C.Waiting && c.attached
    ensures var c' := C.StepFrame(c, f).client; Sound(c', done, room, past) && MailsKept(c, c')
  {
    hide StreamOk, OnceOk, ViewOk, GameOk, BufferOk, TimelyOk, CommandMailOk, C.PrepareRace;
    SelectionSound(c, done, room, past);
    var c1 := C.SendSelection(c);
    if c1.slot >= 0 && c1.view.phase == Loading {
      var c2 := C.PrepareRace(c1);
      assert |c1.view.peers| == 4 by { ViewPeers(c1, past); }
      PrepareGame(c1, past);
      PrepareFrame(c1, past);
      GameChange(c1, c2, done, room, past);
      MailsKeptTransitive(c, c1, c2);
    }
  }

  lemma ViewPeers(c: C.State, past: seq<Room>)
    requires ViewOk(c, past)
    ensures |c.view.peers| == 4
  {
  }

  lemma PrepareFrame(c: C.State, past: seq<Room>)
    requires BufferOk(c, past) && OnceOk(c)
    ensures var c' := C.PrepareRace(c);
      && SameStream(c, c') && c'.snapshotSeq == c.snapshotSeq && c'.view == c.view && c'.car < 4
      && c'.requests == c.requests && BufferOk(c', past)
      && c'.selectedSent == c.selectedSent && c'.loadedSent == c.loadedSent && c'.finishedSent == c.finishedSent
  {
    hide C.PrepareRace, BufferOk;
    PrepareFields(c);
    BufferFrame(c, C.PrepareRace(c), past);
  }

  lemma PrepareFields(c: C.State)
    ensures var c' := C.PrepareRace(c);
      && SameStream(c, c') && c'.snapshotSeq == c.snapshotSeq && c'.view == c.view && c'.car == c.car
      && c'.requests == c.requests && c'.buffer == c.buffer && c'.open == c.open && c'.history.taken == c.history.taken
      && c'.selectedSent == c.selectedSent && c'.loadedSent == c.loadedSent && c'.finishedSent == c.finishedSent
  {
    hide C.PrepareWrites;
  }

  lemma LocationFrame(c: C.State, f: C.Frame, done: seq<Processed>, room: Room, past: seq<Room>)
    requires Sound(c, done, room, past) && PastOk(room, past) && c.game == C.Location && c.attached
    ensures var c' := C.StepFrame(c, f).client; Sound(c', done, room, past) && MailsKept(c, c')
  {
    hide StreamOk, ViewOk, GameOk, BufferOk, TimelyOk, CommandMailOk, C.Released, PastOk;
    if f.ram54 == 2 && f.ram55 == 0 && f.ram56 == 2 {
      assert c.slot >= 0 by { SetUpSlot(c, past); }
      LoadedSound(c, f, done, room, past);
      var c1 := C.SendLoaded(c, f);
      if C.Released(c1.view, f.reached) {
        var c2 := C.EnterRace(c1, f.reached);
        EnterGame(c1, room, past, f.reached);
        assert BufferOk(c2, past) by { BufferFrame(c1, c2, past); }
        GameChange(c1, c2, done, room, past);
        MailsKeptTransitive(c, c1, c2);
      }
    } else {
      assert MailsKept(c, c);
    }
  }

  lemma SetUpSlot(c: C.State, past: seq<Room>)
    requires GameOk(c, past) && GameSetUp(c.game)
    ensures 0 <= c.slot < 4
  {
  }

  lemma BufferFrame(c: C.State, c': C.State, past: seq<Room>)
    requires BufferOk(c, past) && c'.buffer == c.buffer && c'.open == c.open && c'.race == c.race
    requires c'.snapshotSeq == c.snapshotSeq && c'.view == c.view && c'.history.taken == c.history.taken
    ensures BufferOk(c', past)
  {
  }

  lemma RaceFrame(c: C.State, f: C.Frame, done: seq<Processed>, room: Room, past: seq<Room>)
    requires Sound(c, done, room, past) && PastOk(room, past) && c.game == C.Race && c.attached
    ensures var c' := C.StepFrame(c, f).client; Sound(c', done, room, past) && MailsKept(c, c')
  {
    hide StreamOk, ViewOk, GameOk, BufferOk, TimelyOk, CommandMailOk, PastOk;
    SetUpSlot(c, past);
    if f.ram54 == 3 {
      FinishSound(c, done, room, past);
      var c1 := C.SendFinish(c);
      var c2 := c1.(game := C.Crossed);
      assert GameOk(c2, past) by { GameOver(c1, c2, past); }
      assert BufferOk(c2, past) by { BufferFrame(c1, c2, past); }
      GameChange(c1, c2, done, room, past);
      MailsKeptTransitive(c, c1, c2);
    } else {
      var c1 := c.(stateSeq := c.stateSeq + 1);
      assert GameOk(c1, past) by { GameOver(c, c1, past); }
      assert BufferOk(c1, past) by { BufferFrame(c, c1, past); }
      GameChange(c, c1, done, room, past);
    }
  }

  /** Moving on within a set-up game, or to a state before the setup. */
  lemma GameOver(c: C.State, c': C.State, past: seq<Room>)
    requires GameOk(c, past)
    requires c'.slot == c.slot && c'.race == c.race && c'.snapshotSeq == c.snapshotSeq
    requires c'.history.prepared == c.history.prepared && c'.history.located == c.history.located
             && c'.history.entered == c.history.entered
    requires (GameSetUp(c'.game) ==> GameSetUp(c.game)) && (c'.game.Race? ==> c.game.Race?)
    ensures GameOk(c', past)
  {
  }

  lemma FrameSound(c: C.State, f: C.Frame, done: seq<Processed>, room: Room, past: seq<Room>)
    requires Sound(c, done, room, past) && PastOk(room, past)
    ensures var c' := C.StepFrame(c, f).client; Sound(c', done, room, past) && MailsKept(c, c')
  {
    hide StreamOk, ViewOk, GameOk, BufferOk, TimelyOk, CommandMailOk, PastOk, C.Queue, C.PrepareRace, C.EnterRace,
      C.SendFinish, C.SendLoaded, C.SendSelection, C.Released;
    assert MailsKept(c, c);
    if !c.attached || c.game == C.Offline {
    } else if c.game == C.Waiting {
      WaitingFrame(c, f, done, room, past);
    } else if c.game == C.Location {
      LocationFrame(c, f, done, room, past);
    } else if c.game == C.Race {
      RaceFrame(c, f, done, room, past);
    } else if c.game == C.Standings {
      SetUpSlot(c, past);
      NextSound(c, done, room, past);
    } else {
      EarlyFrame(c, f, done, room, past);
    }
  }

  lemma EarlyFrame(c: C.State, f: C.Frame, done: seq<Processed>, room: Room, past: seq<Room>)
    requires Sound(c, done, room, past) && c.attached
    requires c.game.Init? || c.game.CarSelect? || c.game.Prepare? || c.game.Crossed?
    ensures var c' := C.StepFrame(c, f).client; Sound(c', done, room, past) && MailsKept(c, c')
  {
    hide StreamOk, ViewOk, GameOk, BufferOk, TimelyOk, OnceOk, CommandMailOk, C.Locate, MailsKept, C.StepFrame;
    var c' := C.StepFrame(c, f).client;
    EarlyFields(c, f);
    if c.game == C.Prepare {
      LocateGame(c, past);
      LocateFrame(c, past);
    } else {
      GameOver(c, c', past);
      BufferFrame(c, c', past);
    }
    GameChange(c, c', done, room, past);
  }

  lemma EarlyFields(c: C.State, f: C.Frame)
    requires OnceOk(c) && c.attached
    requires c.game.Init? || c.game.CarSelect? || c.game.Prepare? || c.game.Crossed?
    ensures var c' := C.StepFrame(c, f).client;
      && (c.game.Prepare? ==> c' == C.Locate(c))
      && (!c.game.Prepare? ==> c' == c.(game := c'.game, car := c'.car))
      && (!c.game.Prepare? && GameSetUp(c'.game) ==> GameSetUp(c.game)) && !c'.game.Race?
      && c'.car < 4
  {
    hide C.LocateWrites;
    assert forall k :: 0 <= k < 4 ==> C.MENU[k] < 4;
  }

  lemma LocateFrame(c: C.State, past: seq<Room>)
    requires BufferOk(c, past)
    ensures var c' := C.Locate(c);
      && SameStream(c, c') && c'.snapshotSeq == c.snapshotSeq && c'.view == c.view && c'.car == c.car
      && c'.requests == c.requests && BufferOk(c', past)
      && c'.selectedSent == c.selectedSent && c'.loadedSent == c.loadedSent && c'.finishedSent == c.finishedSent
  {
  }

  // Failing and leaving.

  lemma FailSound(c: C.State, done: seq<Processed>, room: Room, past: seq<Room>)
    requires Sound(c, done, room, past)
    ensures Sound(C.Fail(c), done, room, past) && MailsKept(c, C.Fail(c))
  {
    hide StreamOk, ViewOk, GameOk, TimelyOk, BufferOk, CommandMailOk;
    var c' := C.Fail(c);
    BufferClosed(c, c', past);
    GameOver(c, c', past);
    GameChange(c, c', done, room, past);
  }

  lemma DetachSound(c: C.State, done: seq<Processed>, room: Room, past: seq<Room>)
    requires Sound(c, done, room, past)
    ensures var reply := C.Detach(c);
      && Sound(reply.client, done, room, past) && MailsKept(c, reply.client)
      && forall m :: m in reply.sent ==> m.ToServer? && m.packet.body.Reliable? && CommandMailOk(m.packet, reply.client)
  {
    hide ViewOk, DoneOk, AckedOk, ClearedOk, FutureAckOk, QueueOk, FrontOk;
    var c' := C.Detach(c).client;
    DetachStream(c, done, room.race, past);
    DetachKnows(c, room, past);
  }

  lemma DetachStream(c: C.State, done: seq<Processed>, race: nat, past: seq<Room>)
    requires StreamOk(c, done, race, past)
    ensures var reply := C.Detach(c);
      && StreamOk(reply.client, done, race, past) && MailsKept(c, reply.client)
      && forall m :: m in reply.sent ==> m.ToServer? && m.packet.body.Reliable? && CommandMailOk(m.packet, reply.client)
  {
    var c' := C.Detach(c).client;
    assert forall e :: e in c.history.issued ==> e in c'.history.issued;
    if C.Detach(c).sent != {} {
      assert c'.history.issued[|c.history.issued|] == C.Issued(c.race, c.commandSeq + 1, Leave);
    }
  }

  lemma BufferClosed(c: C.State, c': C.State, past: seq<Room>)
    requires BufferOk(c, past) && !c'.open && c'.buffer == []
    requires c'.snapshotSeq == c.snapshotSeq && c'.view == c.view && c'.history.taken == c.history.taken
    ensures BufferOk(c', past)
  {
  }

  /** Leaving adds at most a LEAVE to what was issued. */
  lemma LeaveIssued(c: C.State)
    ensures var was, now := c.history.issued, C.Detach(c).client.history.issued;
      now == was || (|now| == |was| + 1 && now[..|was|] == was && now[|was|].command == Leave)
  {
  }

  lemma LeaveOnce(c: C.State, c': C.State, room: Room)
    requires OnceOk(c) && TimelyOk(c, room) && c'.car == c.car && c'.race == c.race && c'.requests == []
    requires c'.selectedSent == c.selectedSent && c'.loadedSent == c.loadedSent && c'.finishedSent == c.finishedSent
    requires var was, now := c.history.issued, c'.history.issued;
      now == was || (|now| == |was| + 1 && now[..|was|] == was && now[|was|].command == Leave)
    ensures OnceOk(c') && TimelyOk(c', room)
  {
    var was, now := c.history.issued, c'.history.issued;
    assert forall k :: 0 <= k < |was| ==> now[k] == was[k];
    forall e | e in now ensures e in was || e.command == Leave {
      var k :| 0 <= k < |now| && now[k] == e;
    }
    forall j, k | 0 <= j < k < |now| && now[j].race == now[k].race
      ensures !SameKind(now[j].command, now[k].command)
    {
      if k < |was| {
        assert !SameKind(was[j].command, was[k].command);
      }
    }
  }

  lemma DetachKnows(c: C.State, room: Room, past: seq<Room>)
    requires Knows(c, room, past)
    ensures Knows(C.Detach(c).client, room, past)
  {
    hide ViewOf, PreparedOk, LocatedOk, EnteredOk, BufferOk, OnceOk, TimelyOk;
    var c' := C.Detach(c).client;
    BufferClosed(c, c', past);
    LeaveIssued(c);
    LeaveOnce(c, c', room);
  }
}
