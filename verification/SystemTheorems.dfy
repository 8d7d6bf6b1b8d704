/** The promises of the race protocol, for every run of room, clients and network. */
module SystemTheorems {
  import opened Words
  import opened Messages
  import opened Rooms
  import opened RoomInvariants
  import opened RoomSteps
  import opened Network
  import opened RoomSide
  import opened ClientSide
  import opened ClientMoves
  import opened ClientFrames
  import opened NetworkTheorems
  import C = Clients

  // Runs.

  function Do(s: System, e: Event): System {
    if Enabled(s, e) then Step(s, e) else s
  }

  /** The system after a sequence of events; an event that is not enabled does not happen. */
  function Run(s: System, es: seq<Event>): System {
    if es == [] then s else Do(Run(s, es[..|es| - 1]), es[|es| - 1])
  }

  predicate NewRoom(r: Room) {
    && 2 <= r.expected <= 4 && r.track < 5 && r.league < 3
    && r == Created(r.session, r.ownerNonce, r.key, r.expected, r.track, r.league)
  }

  function Reached(room: Room, es: seq<Event>): System {
    Run(Start(room), es)
  }

  lemma NewRoomOk(room: Room)
    requires NewRoom(room)
    ensures Ok(Start(room))
  {
    CreatedInvariant(room.session, room.ownerNonce, room.key, room.expected, room.track, room.league);
  }

  lemma {:induction false} RunOk(s: System, es: seq<Event>)
    requires Ok(s)
    ensures Ok(Run(s, es))
  {
    hide Ok;
    if es == [] {
    } else {
      var s1, e := Run(s, es[..|es| - 1]), es[|es| - 1];
      RunOk(s, es[..|es| - 1]);
      if Enabled(s1, e) {
        StepOk(s1, e);
      }
    }
  }

  /** The inductive invariant of the system holds in every reachable state. */
  lemma ReachedOk(room: Room, es: seq<Event>)
    requires NewRoom(room)
    ensures Ok(Reached(room, es))
  {
    hide Ok;
    NewRoomOk(room);
    RunOk(Start(room), es);
  }

  lemma {:induction false} RunSplit(s: System, es: seq<Event>, more: seq<Event>)
    ensures Run(s, es + more) == Run(Run(s, es), more)
  {
    if more == [] {
      assert es + more == es;
    } else {
      var k := |more| - 1;
      assert (es + more)[..|es| + k] == es + more[..k];
      RunSplit(s, es, more[..k]);
    }
  }

  // Reliable commands.

  /** The room has executed this issued command. */
  predicate WasExecuted(done: seq<Processed>, e: C.Issued) {
    1 <= e.number <= |done| && Records(done[e.number - 1], e.race, e.command)
  }

  /** If both were executed, the first was executed first. */
  predicate ExecutedInOrder(done: seq<Processed>, a: C.Issued, b: C.Issued) {
    WasExecuted(done, a) && WasExecuted(done, b) ==> a.number < b.number
  }

  ghost predicate ExactlyOnce(c: C.State, done: seq<Processed>) {
    // The k-th command executed is one the client issued, with number k + 1: none twice, none invented.
    && (forall k :: 0 <= k < |done| ==> C.Issued(done[k].race, k + 1, done[k].command) in c.history.issued)
    // They were executed in the order in which they were issued.
    && (forall a, b :: 0 <= a < b < |c.history.issued| ==>
          ExecutedInOrder(done, c.history.issued[a], c.history.issued[b]))
    // What an acknowledgement removed was executed; what a race change discarded was not.
    && (forall e :: e in c.history.acked ==> WasExecuted(done, e))
    && (forall e :: e in c.history.cleared ==> !WasExecuted(done, e))
  }

  /** While connected, the queue holds consecutive numbers and the room's counter is the front number or one less. */
  ghost predicate InStep(c: C.State, done: seq<Processed>) {
    && (forall j :: 0 <= j < |c.pending| ==> c.pending[j].number == c.pending[0].number + j)
    && (c.pending != [] ==>
          || |done| == c.pending[0].number - 1
          || (|done| == c.pending[0].number
              && WasExecuted(done, C.Issued(c.race, c.pending[0].number, c.pending[0].command))))
    && (c.pending == [] ==> |done| == c.commandSeq)
  }

  lemma StreamExactlyOnce(c: C.State, done: seq<Processed>, race: nat, past: seq<Room>)
    requires StreamOk(c, done, race, past)
    ensures ExactlyOnce(c, done)
  {
  }

  lemma StreamInStep(c: C.State, done: seq<Processed>, race: nat, past: seq<Room>)
    requires StreamOk(c, done, race, past) && c.slot >= 0
    ensures InStep(c, done)
  {
  }

  /** In every run, each client's commands are executed at most once, in order, and consistently with what the
      client was told; a present player's counter is the number of commands executed for it. */
  lemma ReliableCommands(room: Room, es: seq<Event>, n: nat)
    requires NewRoom(room)
    requires n in Reached(room, es).clients && Reached(room, es).clients[n].token != 0
    ensures var s := Reached(room, es);
      var c := s.clients[n];
      && c.token in s.processed
      && ExactlyOnce(c, s.processed[c.token])
      && (c.slot >= 0 ==> InStep(c, s.processed[c.token]))
      && (forall i :: 0 <= i < 4 && Occupied(s.room.players[i]) && s.room.players[i].token == c.token ==>
            s.room.players[i].commandSeq == |s.processed[c.token]|)
  {
    hide StreamOk, ViewOk, GameOk, OnceOk, TimelyOk, PastOk, Invariant, StatusOk, NetOk, OwnersOk, PastSeatedOk,
      ExactlyOnce, InStep, Reached, NewRoom;
    var s := Reached(room, es);
    var c := s.clients[n];
    ReachedOk(room, es);
    ClientIsSound(s, n);
    StreamExactlyOnce(c, s.processed[c.token], s.room.race, s.past);
    if c.slot >= 0 {
      StreamInStep(c, s.processed[c.token], s.room.race, s.past);
    }
    assert SeatedOk(s.room, s.owners, s.processed);
  }

  // What is known stays known.

  predicate Remembers(s: System, s': System, n: nat)
    requires n in s.clients
  {
    && n in s'.clients
    && (s.clients[n].token != 0 ==>
          && s'.clients[n].token == s.clients[n].token
          && s.clients[n].history.acked <= s'.clients[n].history.acked
          && s.clients[n].history.cleared <= s'.clients[n].history.cleared
          && DoneBy(s, s.clients[n].token) <= DoneBy(s', s.clients[n].token))
  }

  lemma {:induction false} QueueAllContinues(c: C.State, commands: seq<Command>)
    ensures Continues(c, C.QueueAll(c, commands))
  {
    hide C.Queue;
    if commands != [] {
      var k := |commands| - 1;
      QueueAllContinues(c, commands[..k]);
      QueueKeeps(C.QueueAll(c, commands[..k]), commands[k]);
    }
  }

  lemma ReceiveContinues(c: C.State, p: Packet)
    requires c.token != 0 && (c.open ==> c.slot >= 0)
    ensures var c' := C.Receive(c, p).client;
      c'.token == c.token && c.history.acked <= c'.history.acked && c.history.cleared <= c'.history.cleared
  {
    hide C.TakeSnapshot;
    if p.body.Snapshot? {
      TakeSnapshotKeeps(c, p);
    }
  }

  lemma ClientEventRemembers(s: System, e: Event, n: nat)
    requires Ok(s) && Enabled(s, e) && n in s.clients
    requires !e.RoomReceives?
    ensures Remembers(s, Step(s, e), n)
  {
    hide Ok, Receive, Tick, PingAll, Close, C.TakeSnapshot, C.StepFrame, C.QueueAll, RoomWindow, ClientWindow;
    if s.clients[n].token != 0 {
      ActingRemembers(s, e, n);
    }
  }

  lemma ActingRemembers(s: System, e: Event, n: nat)
    requires Ok(s) && Enabled(s, e) && n in s.clients && s.clients[n].token != 0
    requires !e.RoomReceives?
    ensures Remembers(s, Step(s, e), n)
  {
    hide Ok, Receive, Tick, PingAll, Close, C.Receive, C.Tick, C.StepFrame, C.Detach, C.Request, C.Fail, RoomWindow,
      ClientWindow;
    assert s.clients[n].open ==> s.clients[n].slot >= 0 by { ClientIsSound(s, n); }
    var c := s.clients[n];
    match e {
      case ClientReceives(_, p) => ReceiveContinues(c, p);
      case ClientTicks(_, hello, retry, ping, stamp) => TickContinues(c, hello, retry, ping, stamp);
      case ClientFrames(_, f) => FrameKeeps(c, f);
      case ClientRequests(_, command) => RequestContinues(c, command);
      case ClientFails(_) => RequestContinues(c, Next);
      case ClientDetaches(_) => DetachContinues(c);
      case _ =>
    }
  }

  lemma RequestContinues(c: C.State, command: Command)
    ensures Continues(c, C.Request(c, command))
    ensures var c' := C.Fail(c);
      c'.token == c.token && c.history.acked <= c'.history.acked && c.history.cleared <= c'.history.cleared
  {
  }

  lemma TickContinues(c: C.State, hello: bool, retry: bool, ping: bool, stamp: nat)
    ensures Continues(c, C.Tick(c, hello, retry, ping, stamp).client)
  {
    hide C.QueueAll;
    QueueAllContinues(c.(requests := []), c.requests);
  }

  lemma DetachContinues(c: C.State)
    ensures var c' := C.Detach(c).client;
      c'.token == c.token && c.history.acked <= c'.history.acked && c.history.cleared <= c'.history.cleared
  {
  }

  /** What a delivery to the room adds to what was executed for a token that was already drawn. */
  lemma ReceiveGrows(s: System, from: nat, p: Packet, at: Times, token: nat, t: nat)
    requires t in s.processed && token !in s.processed
    ensures DoneBy(s, t) <= DoneBy(AfterReceive(s, from, p, at, token), t)
  {
    hide Receive, Executes, Seats;
    if Executes(s.room, from, p) {
      ExecutesReliable(s.room, from, p);
    }
  }

  lemma RoomEventRemembers(s: System, e: Event, n: nat)
    requires Ok(s) && Enabled(s, e) && n in s.clients && e.RoomReceives?
    ensures Remembers(s, Step(s, e), n)
  {
    hide Ok, Receive, RoomWindow, DoneBy, StreamOk, ViewOk, GameOk, OnceOk, TimelyOk, BufferOk, PastOk;
    if s.clients[n].token != 0 {
      ClientIsSound(s, n);
      assert e.token !in s.processed by { SameTokens(s); }
      ReceiveGrows(s, e.from, e.packet, e.at, e.token, s.clients[n].token);
      TimedDone(s, AfterReceive(s, e.from, e.packet, e.at, e.token), e.at.published, s.clients[n].token);
    }
  }

  lemma SameTokens(s: System)
    requires Ok(s)
    ensures s.owners.Keys == s.processed.Keys
  {
    hide Invariant, PastOk, SeatedOk, AddressOk, PastSeatedOk, NetOk, ClientOk, StatusOk;
  }

  lemma TimedDone(s: System, s': System, time: nat, t: nat)
    ensures DoneBy(Timed(s, s', time), t) == DoneBy(s', t)
  {
  }

  lemma ExecutesReliable(r: Room, from: nat, p: Packet)
    requires Executes(r, from, p)
    ensures p.body.Reliable?
  {
  }

  lemma {:induction false} RunRemembers(s: System, es: seq<Event>, n: nat)
    requires Ok(s) && n in s.clients
    ensures Remembers(s, Run(s, es), n)
  {
    hide Ok;
    if es == [] {
    } else {
      var s1, e := Run(s, es[..|es| - 1]), es[|es| - 1];
      RunRemembers(s, es[..|es| - 1], n);
      RunOk(s, es[..|es| - 1]);
      if Enabled(s1, e) {
        if e.RoomReceives? {
          RoomEventRemembers(s1, e, n);
        } else {
          ClientEventRemembers(s1, e, n);
        }
      }
    }
  }

  /** A command discarded by a race change is never executed, however the run continues, although its number
      is used again in the next race; a command removed by an acknowledgement stays executed. */
  lemma DiscardedNeverExecuted(room: Room, es: seq<Event>, more: seq<Event>, n: nat, e: C.Issued)
    requires NewRoom(room)
    requires n in Reached(room, es).clients && Reached(room, es).clients[n].token != 0
    ensures var c := Reached(room, es).clients[n];
      var done := DoneBy(Reached(room, es + more), c.token);
      && (e in c.history.cleared ==> !WasExecuted(done, e))
      && (e in c.history.acked ==> WasExecuted(done, e))
  {
    hide Ok, Run, NewRoom, ExactlyOnce;
    ReachedOk(room, es);
    RunSplit(Start(room), es, more);
    RunRemembers(Reached(room, es), more, n);
    var s' := Reached(room, es + more);
    ReliableCommands(room, es + more, n);
    assert forall x :: x in s'.clients[n].history.cleared ==> !WasExecuted(s'.processed[s'.clients[n].token], x) by {
      OnceFacts(s'.clients[n], s'.processed[s'.clients[n].token]);
    }
    assert forall x :: x in s'.clients[n].history.acked ==> WasExecuted(s'.processed[s'.clients[n].token], x) by {
      OnceFacts(s'.clients[n], s'.processed[s'.clients[n].token]);
    }
  }

  lemma OnceFacts(c: C.State, done: seq<Processed>)
    requires ExactlyOnce(c, done)
    ensures forall x :: x in c.history.cleared ==> !WasExecuted(done, x)
    ensures forall x :: x in c.history.acked ==> WasExecuted(done, x)
  {
  }

  // The start.

  /** Once a snapshot shows everyone armed, the room keeps that start until the next lobby. */
  lemma CommittedStartHolds(room: Room, es: seq<Event>, k: nat)
    requires NewRoom(room) && k < |Reached(room, es).past|
    requires Committed(Reached(room, es).past[k]) && Reached(room, es).past[k].race == Reached(room, es).room.race
    ensures var s := Reached(room, es);
      Committed(s.room) && s.room.start == s.past[k].start
  {
    hide Ok, Reached, NewRoom;
    ReachedOk(room, es);
    var s := Reached(room, es);
    assert Evolves(s.past[k], s.room) by { PastEvolves(s, k, k); }
  }

  lemma PastEvolves(s: System, j: nat, k: nat)
    requires Ok(s) && j <= k < |s.past|
    ensures Evolves(s.past[j], s.past[k]) && Evolves(s.past[j], s.room) && Invariant(s.past[k])
  {
    hide Evolves, Invariant, SeatedOk, PastSeatedOk, OwnersOk, NetOk, ClientOk, StatusOk;
    if j == k {
      EvolvesReflexive(s.past[j]);
    }
  }

  lemma CommittedAgree(r: Room, r': Room)
    requires Evolves(r, r') && r.race == r'.race && Committed(r)
    ensures Committed(r') && r'.start == r.start
  {
  }

  lemma SameStart(s: System, u: C.Entry, v: C.Entry, r: nat)
    requires Ok(s) && SetupAt(u.at, r, s.past) && SetupAt(v.at, r, s.past)
    requires Committed(s.past[u.at - 1]) && u.start == s.past[u.at - 1].start
    requires Committed(s.past[v.at - 1]) && v.start == s.past[v.at - 1].start
    ensures u.start == v.start
    ensures s.room.race == r ==> Committed(s.room) && s.room.start == u.start
  {
    hide Ok, Committed, Evolves, Invariant;
    if u.at <= v.at {
      PastEvolves(s, u.at - 1, v.at - 1);
      CommittedAgree(s.past[u.at - 1], s.past[v.at - 1]);
    } else {
      PastEvolves(s, v.at - 1, u.at - 1);
      CommittedAgree(s.past[v.at - 1], s.past[u.at - 1]);
    }
    if s.room.race == r {
      PastEvolves(s, u.at - 1, u.at - 1);
      CommittedAgree(s.past[u.at - 1], s.room);
    }
  }

  lemma EnteredAt(s: System, n: nat, r: nat)
    requires Ok(s) && n in s.clients && r in s.clients[n].history.entered
    ensures var u := s.clients[n].history.entered[r];
      SetupAt(u.at, r, s.past) && Committed(s.past[u.at - 1]) && u.start == s.past[u.at - 1].start
  {
    hide PastOk, SeatedOk, PastSeatedOk, OwnersOk, NetOk, Invariant, StatusOk, StreamOk, ViewOk, OnceOk, TimelyOk,
      Committed, PreparedOk, LocatedOk, SetupAt;
    assert ClientOk(n, s);
  }

  /** All clients that enter the race of one generation, early or on seeing it run, start it for the same time;
      and while that generation lasts the room is committed to that time, so it can start no other race in it. */
  lemma StartAgreement(room: Room, es: seq<Event>, n: nat, m: nat, r: nat)
    requires NewRoom(room)
    requires var s := Reached(room, es);
      && n in s.clients && m in s.clients
      && r in s.clients[n].history.entered && r in s.clients[m].history.entered
    ensures var s := Reached(room, es);
      && s.clients[n].history.entered[r].start == s.clients[m].history.entered[r].start
      && (s.room.race == r ==> Committed(s.room) && s.room.start == s.clients[n].history.entered[r].start)
  {
    hide Ok, Reached, NewRoom, SetupAt, Committed;
    var s := Reached(room, es);
    ReachedOk(room, es);
    EnteredAt(s, n, r);
    EnteredAt(s, m, r);
    SameStart(s, s.clients[n].history.entered[r], s.clients[m].history.entered[r], r);
  }

  // The setup.

  /** Each row of the slot table lists the four network players, the local one first. */
  lemma SlotTable(slot: nat, q: nat)
    requires slot < 4 && q < 4
    ensures C.Local(slot, 0) == slot
    ensures exists a :: 0 <= a < 4 && C.Local(slot, a) == q
    ensures forall a, b :: 0 <= a < b < 4 ==> C.Local(slot, a) != C.Local(slot, b)
  {
    assert C.SLOTS[0] == [0, 3, 2, 1] && C.SLOTS[1] == [1, 3, 2, 0];
    assert C.SLOTS[2] == [2, 3, 1, 0] && C.SLOTS[3] == [3, 2, 1, 0];
    assert C.Local(slot, 0) == q || C.Local(slot, 1) == q || C.Local(slot, 2) == q || C.Local(slot, 3) == q;
  }

  /** The car a client's emulator uses in one of its opponent slots. */
  function CarShown(u: C.Setup, a: nat): nat
    requires 0x1131 + 2 * a in u.writes
  {
    u.writes[0x1131 + 2 * a]
  }

  lemma ShownIsRoomCar(u: C.Setup, r: Room, a: nat)
    requires u.slot < 4 && 1 <= a <= 3 && u.writes == C.PrepareWrites(u.slot, ViewOf(r, 0).peers)
    ensures 0x1131 + 2 * a in u.writes
    ensures CarShown(u, a) == r.players[C.Local(u.slot, a)].car
  {
    C.CarWritesAt(u.slot, ViewOf(r, 0).peers, 4, a);
  }

  lemma PreparedAt(s: System, n: nat, r: nat)
    requires Ok(s) && n in s.clients && r in s.clients[n].history.prepared
    ensures var u := s.clients[n].history.prepared[r];
      SetupAt(u.at, r, s.past) && u.slot < 4 && u.writes == C.PrepareWrites(u.slot, ViewOf(s.past[u.at - 1], 0).peers)
  {
    hide PastOk, SeatedOk, PastSeatedOk, OwnersOk, NetOk, Invariant, StatusOk, StreamOk, ViewOk, OnceOk, TimelyOk,
      EnteredOk, LocatedOk, SetupAt, C.PrepareWrites, ViewOf;
    assert ClientOk(n, s);
  }

  lemma LocatedAt(s: System, n: nat, r: nat)
    requires Ok(s) && n in s.clients && r in s.clients[n].history.located
    ensures var u := s.clients[n].history.located[r];
      SetupAt(u.at, r, s.past) && u.writes == C.LocateWrites(s.past[u.at - 1].track, s.past[u.at - 1].league)
  {
    hide PastOk, SeatedOk, PastSeatedOk, OwnersOk, NetOk, Invariant, StatusOk, StreamOk, ViewOk, OnceOk, TimelyOk,
      EnteredOk, PreparedOk, SetupAt, C.LocateWrites;
    assert ClientOk(n, s);
  }

  predicate SameSetup(r: Room, r': Room) {
    r.track == r'.track && r.league == r'.league
    && forall i :: 0 <= i < 4 ==> r.players[i].car == r'.players[i].car
  }

  /** From LOADING on, all snapshots of one race agree on track, league and cars. */
  lemma SetupsAgree(s: System, j: nat, k: nat, r: nat)
    requires Ok(s) && SetupAt(j, r, s.past) && SetupAt(k, r, s.past)
    ensures SameSetup(s.past[j - 1], s.past[k - 1])
  {
    hide Ok, Committed;
    if j <= k {
      PastEvolves(s, j - 1, k - 1);
    } else {
      PastEvolves(s, k - 1, j - 1);
    }
  }

  /** Clients that set up the same race write the same track and league, and use the same car for every
      network player that both of them show as an opponent. */
  lemma SetupAgreement(room: Room, es: seq<Event>, n: nat, m: nat, r: nat, a: nat, b: nat)
    requires NewRoom(room) && 1 <= a <= 3 && 1 <= b <= 3
    requires n in Reached(room, es).clients && m in Reached(room, es).clients
    ensures var s := Reached(room, es);
      var x, y := s.clients[n].history, s.clients[m].history;
      && (r in x.located && r in y.located ==> x.located[r].writes == y.located[r].writes)
      && (r in x.prepared && r in y.prepared ==>
            && x.prepared[r].slot < 4 && y.prepared[r].slot < 4
            && 0x1131 + 2 * a in x.prepared[r].writes && 0x1131 + 2 * b in y.prepared[r].writes
            && (C.Local(x.prepared[r].slot, a) == C.Local(y.prepared[r].slot, b) ==>
                  CarShown(x.prepared[r], a) == CarShown(y.prepared[r], b)))
  {
    hide Ok, Reached, NewRoom, C.PrepareWrites, C.LocateWrites, ViewOf, CarShown;
    var s := Reached(room, es);
    var x, y := s.clients[n].history, s.clients[m].history;
    ReachedOk(room, es);
    if r in x.located && r in y.located {
      LocatedAt(s, n, r);
      LocatedAt(s, m, r);
      SetupsAgree(s, x.located[r].at, y.located[r].at, r);
    }
    if r in x.prepared && r in y.prepared {
      PreparedAt(s, n, r);
      PreparedAt(s, m, r);
      var u, v := x.prepared[r], y.prepared[r];
      SetupsAgree(s, u.at, v.at, r);
      ShownIsRoomCar(u, s.past[u.at - 1], a);
      ShownIsRoomCar(v, s.past[v.at - 1], b);
    }
  }

  /** The car shown for a present opponent is the one its own client selected in that race. */
  lemma CarComesFromItsClient(room: Room, es: seq<Event>, n: nat, r: nat, a: nat)
    requires NewRoom(room) && 1 <= a <= 3
    requires n in Reached(room, es).clients && r in Reached(room, es).clients[n].history.prepared
    ensures var s := Reached(room, es);
      var u := s.clients[n].history.prepared[r];
      && SetupAt(u.at, r, s.past) && u.slot < 4 && 0x1131 + 2 * a in u.writes
      && var p := s.past[u.at - 1].players[C.Local(u.slot, a)];
         Occupied(p) ==>
           && p.token in s.owners && s.owners[p.token] in s.clients
           && exists e :: e in s.clients[s.owners[p.token]].history.issued
                          && e.race == r && e.command == Select(CarShown(u, a))
  {
    hide Ok, Reached, NewRoom, C.PrepareWrites, ViewOf, CarShown;
    var s := Reached(room, es);
    var u := s.clients[n].history.prepared[r];
    ReachedOk(room, es);
    PreparedAt(s, n, r);
    ShownIsRoomCar(u, s.past[u.at - 1], a);
    var i := C.Local(u.slot, a);
    if Occupied(s.past[u.at - 1].players[i]) {
      SelectIssued(s, u.at, i, r);
    }
  }

  /** The select that gave a player its car was executed for it. */
  lemma SelectDone(s: System, at: nat, i: nat, r: nat)
    requires Ok(s) && SetupAt(at, r, s.past) && i < 4 && Occupied(s.past[at - 1].players[i])
    ensures var p := s.past[at - 1].players[i];
      p.token in s.processed && Processed(r, Select(p.car), true) in s.processed[p.token]
  {
    hide SeatedOk, NetOk, StatusOk, ClientOk, OwnersOk, SettingsOk, StartOk, HiddenOk, IdentityOk, OpenOk, Evolves;
    var p := s.past[at - 1].players[i];
    assert Invariant(s.past[at - 1]) && StatusFits(s.past[at - 1].phase, p.status);
    assert CarBacked(p, s.processed[p.token], r);
  }

  /** What was executed for a token was issued by the client that owns it. */
  lemma DoneWasIssued(s: System, token: nat, q: Processed)
    requires Ok(s) && token in s.processed && q in s.processed[token]
    ensures token in s.owners && s.owners[token] in s.clients
    ensures exists e :: e in s.clients[s.owners[token]].history.issued && e.race == q.race && e.command == q.command
  {
    hide PastOk, PastSeatedOk, Invariant, SeatedOk, NetOk, StatusOk, ViewOk, OnceOk, TimelyOk, GameOk, IssuedOk,
      AckedOk, ClearedOk, FutureAckOk, QueueOk, FrontOk, BufferOk, UnjoinedOk;
    var done := s.processed[token];
    var k :| 0 <= k < |done| && done[k] == q;
    var n := s.owners[token];
    assert ClientOk(n, s);
    assert C.Issued(done[k].race, k + 1, done[k].command) in s.clients[n].history.issued;
  }

  lemma SelectIssued(s: System, at: nat, i: nat, r: nat)
    requires Ok(s) && SetupAt(at, r, s.past) && i < 4 && Occupied(s.past[at - 1].players[i])
    ensures var p := s.past[at - 1].players[i];
      && p.token in s.owners && s.owners[p.token] in s.clients
      && exists e :: e in s.clients[s.owners[p.token]].history.issued && e.race == r && e.command == Select(p.car)
  {
    hide Ok;
    var p := s.past[at - 1].players[i];
    SelectDone(s, at, i, r);
    DoneWasIssued(s, p.token, Processed(r, Select(p.car), true));
  }

  // A client's own commands.

  /** A command that is next in line has not been executed before, nor has another of its kind in this race. */
  lemma NotYetDone(c: C.State, done: seq<Processed>, race: nat, command: Command)
    requires OnceOk(c) && DoneOk(c, done) && C.Issued(race, |done| + 1, command) in c.history.issued
    ensures forall q :: q in done && q.race == race ==> !SameKind(q.command, command)
  {
  }

  lemma SenderFacts(s: System, from: nat, p: Packet)
    requires Ok(s) && ToServer(from, p) in s.net && Executes(s.room, from, p) && RoomWindow(s.room, from, p)
    ensures AtFront(s, from, p)
    ensures var i := Sender(s.room, from, p);
      var c := s.clients[s.owners[p.token]];
      var done := s.processed[p.token];
      && StatusFits(s.room.phase, s.room.players[i].status)
      && StatusBacked(s.room.players[i], done, s.room.race)
      && OnceOk(c) && DoneOk(c, done) && TimelyOk(c, s.room)
  {
    hide PastOk, SeatedOk, PastSeatedOk, NetOk, SettingsOk, StartOk, HiddenOk, IdentityOk, OpenOk, IssuedOk, AckedOk,
      ClearedOk, FutureAckOk, QueueOk, FrontOk, ViewOk, GameOk, OnceOk, DoneOk, TimelyOk, StatusFits, StatusBacked,
      Executes, RoomWindow, UnjoinedOk, BufferOk;
    ExecutedCommand(s, from, p);
    assert ClientOk(s.owners[p.token], s);
  }

  /** In every run, a SELECT or LOADED that the room executes is accepted: the room cannot have left the phase
      without it. A FINISH is refused exactly when the room is still counting down, because its sender was
      released before the room was. */
  lemma OwnCommandsAccepted(room: Room, es: seq<Event>, from: nat, p: Packet)
    requires NewRoom(room)
    requires var s := Reached(room, es);
      ToServer(from, p) in s.net && Executes(s.room, from, p) && RoomWindow(s.room, from, p)
    ensures var s := Reached(room, es);
      var i := Sender(s.room, from, p);
      && p.body.Reliable? && i < 4
      && (p.body.command.Select? || p.body.command.Loaded? ==> CommandValid(s.room, i, p.body.command))
      && (p.body.command.Finish? ==> (!CommandValid(s.room, i, p.body.command) <==> s.room.phase == Countdown))
  {
    hide Ok, Reached, NewRoom, OnceOk, DoneOk, TimelyOk;
    var s := Reached(room, es);
    ReachedOk(room, es);
    SenderFacts(s, from, p);
    var i := Sender(s.room, from, p);
    var c := s.clients[s.owners[p.token]];
    var done := s.processed[p.token];
    NotYetDone(c, done, s.room.race, p.body.command);
    CommandTimely(c, s.room, C.Issued(p.race, p.number, p.body.command));
    assert p.body.command.Select? ==> SameKind(Select(s.room.players[i].car), p.body.command);
  }

  lemma CommandTimely(c: C.State, room: Room, e: C.Issued)
    requires OnceOk(c) && TimelyOk(c, room) && e in c.history.issued && e.race == room.race
    ensures e.command.Loaded? ==> room.phase != Lobby
    ensures e.command.Finish? ==> Committed(room)
    ensures e.command.Select? ==> e.command.car < 4
  {
  }

  /** A command of a kind issued once per race is executed once per race, so it was either accepted or refused. */
  lemma ExecutedOncePerRace(c: C.State, done: seq<Processed>, j: nat, k: nat)
    requires OnceOk(c) && DoneOk(c, done) && j < |done| && k < |done|
    requires done[j].race == done[k].race && SameKind(done[j].command, done[k].command)
    ensures j == k
  {
    var issued := c.history.issued;
    var x :| 0 <= x < |issued| && issued[x] == C.Issued(done[j].race, j + 1, done[j].command);
    var y :| 0 <= y < |issued| && issued[y] == C.Issued(done[k].race, k + 1, done[k].command);
    assert !(x < y) && !(y < x);
  }

  /** Whoever owns a token for which something was executed is a client that holds it. */
  lemma OwnerFacts(s: System, token: nat)
    requires Ok(s) && token in s.processed && s.processed[token] != []
    ensures token in s.owners && s.owners[token] in s.clients && token != 0
    ensures var c := s.clients[s.owners[token]]; c.token == token && OnceOk(c) && DoneOk(c, s.processed[token])
  {
    hide PastOk, SeatedOk, AddressOk, PastSeatedOk, NetOk, Invariant, StatusOk, IssuedOk, AckedOk, ClearedOk,
      FutureAckOk, QueueOk, FrontOk, ViewOk, GameOk, OnceOk, DoneOk, TimelyOk, UnjoinedOk, BufferOk;
    assert ClientOk(s.owners[token], s);
  }

  /** With a refused FINISH on record, its sender is not finished and the room not in its results. */
  lemma RefusedNotFinished(s: System, token: nat, k: nat, i: nat)
    requires Ok(s) && token in s.processed && k < |s.processed[token]| && i < 4
    requires s.processed[token][k] == Processed(s.room.race, Finish, false)
    requires Occupied(s.room.players[i]) && s.room.players[i].token == token
    ensures s.room.players[i].status != Finished && s.room.phase != Results
  {
    hide PastOk, SeatedOk, AddressOk, PastSeatedOk, NetOk, OwnersOk, ClientOk, OnceOk, DoneOk, SettingsOk, StartOk,
      HiddenOk, IdentityOk, OpenOk, CarBacked;
    var done := s.processed[token];
    OwnerFacts(s, token);
    assert StatusBacked(s.room.players[i], done, s.room.race);
    if s.room.players[i].status == Finished {
      var j :| 0 <= j < |done| && done[j].race == s.room.race && SameKind(done[j].command, Finish) && done[j].accepted;
      ExecutedOncePerRace(s.clients[s.owners[token]], done, j, k);
      assert false;
    }
  }

  /** A refused FINISH is final: however the run continues, as long as the same race lasts and the sender is present,
      that player does not become FINISHED and the room does not reach its results. */
  lemma RefusedFinishIsFinal(room: Room, es: seq<Event>, e: Event, more: seq<Event>, i: nat)
    requires NewRoom(room) && i < 4 && e.RoomReceives? && Enabled(Reached(room, es), e)
    requires var r := Reached(room, es).room;
      && Executes(r, e.from, e.packet) && e.packet.body == Reliable(Finish)
      && !CommandValid(r, Sender(r, e.from, e.packet), Finish)
    ensures var r, r' := Reached(room, es).room, Reached(room, es + [e] + more).room;
      r'.race == r.race && Occupied(r'.players[i]) && r'.players[i].token == e.packet.token ==>
        r'.players[i].status != Finished && r'.phase != Results
  {
    hide Ok, NewRoom, Run, Receive, RoomWindow, Remembers;
    var s := Reached(room, es);
    var t := e.packet.token;
    ReachedOk(room, es);
    SenderFacts(s, e.from, e.packet);
    RunSplit(Start(room), es, [e]);
    RunOnce(s, e);
    var s1 := Step(s, e);
    StepOk(s, e);
    var k := |s.processed[t]|;
    assert s1.processed[t] == s.processed[t] + [Processed(s.room.race, Finish, false)];
    OwnerFacts(s1, t);
    RunSplit(Start(room), es + [e], more);
    var s2 := Run(s1, more);
    RunOk(s1, more);
    RunRemembers(s1, more, s1.owners[t]);
    RememberedDone(s1, s2, s1.owners[t], k);
    if s2.room.race == s.room.race && Occupied(s2.room.players[i]) && s2.room.players[i].token == t {
      RefusedNotFinished(s2, t, k, i);
    }
  }

  lemma RunOnce(s: System, e: Event)
    requires Enabled(s, e)
    ensures Run(s, [e]) == Step(s, e)
  {
    assert [e][..0] == [];
  }

  lemma RememberedDone(s: System, s': System, n: nat, k: nat)
    requires n in s.clients && s.clients[n].token != 0 && Remembers(s, s', n) && k < |DoneBy(s, s.clients[n].token)|
    ensures var t := s.clients[n].token;
      t in s'.processed && k < |s'.processed[t]| && s'.processed[t][k] == DoneBy(s, t)[k]
  {
  }
}
