/** Steps of the room preserve the system invariant. */
module RoomSide {
  import opened Words
  import opened Messages
  import opened Rooms
  import opened RoomInvariants
  import opened RoomSteps
  import opened RoomMail
  import opened Network
  import C = Clients

  function PastAfter(s: System, o: Outcome): seq<Room> {
    if o.room.snapshotSeq > s.room.snapshotSeq then s.past + [o.room] else s.past
  }

  lemma PastExtends(s: System, o: Outcome)
    requires PastOk(s.room, s.past) && Invariant(o.room) && Evolves(s.room, o.room)
    requires s.room.snapshotSeq <= o.room.snapshotSeq <= s.room.snapshotSeq + 1
    ensures PastOk(o.room, PastAfter(s, o))
  {
    var past := PastAfter(s, o);
    forall k | 0 <= k < |s.past| ensures Evolves(s.past[k], o.room) {
      EvolvesTransitive(s.past[k], s.room, o.room);
    }
    EvolvesReflexive(o.room);
  }

  // A quiet step.

  lemma QuietSeated(s: System, r': Room)
    requires SeatedOk(s.room, s.owners, s.processed) && Keeps(s.room, r')
    ensures SeatedOk(r', s.owners, s.processed)
  {
  }

  lemma QuietAddress(r: Room, r': Room, clients: map<nat, C.State>)
    requires AddressOk(r, clients) && Keeps(r, r')
    ensures AddressOk(r', clients)
  {
  }

  lemma QuietStatus(s: System, r': Room)
    requires SeatedOk(s.room, s.owners, s.processed) && StatusOk(s.room, s.processed) && Keeps(s.room, r')
    ensures StatusOk(r', s.processed)
  {
  }

  lemma NewPastSeated(s: System, o: Outcome)
    requires PastSeatedOk(s.past, s.processed) && SeatedOk(o.room, s.owners, s.processed)
    requires StatusOk(o.room, s.processed)
    ensures PastSeatedOk(PastAfter(s, o), s.processed)
  {
  }

  /** Old datagrams stay accounted for as the history grows. */
  lemma OldMailKept(s: System, m: Mail, room: Room, past: seq<Room>)
    requires MailOk(m, s) && s.past <= past && s.room.session == room.session && s.room.race <= room.race
    ensures MailOk(m, s.(room := room, past := past))
  {
  }

  lemma NewMailOk(s: System, o: Outcome, m: Mail)
    requires PastOk(s.room, s.past) && SeatedOk(o.room, s.owners, s.processed)
    requires o.room.session == s.room.session && Outgoing(s.room, o) && m in o.sent
    ensures MailOk(m, AfterRoom(s, o))
  {
  }

  lemma QuietNet(s: System, o: Outcome)
    requires Ok(s) && Quiet(s.room, o.room) && Outgoing(s.room, o)
    ensures NetOk(AfterRoom(s, o))
  {
    var s' := AfterRoom(s, o);
    QuietSeated(s, o.room);
    forall m | m in s'.net ensures MailOk(m, s') {
      if m in s.net {
        OldMailKept(s, m, o.room, s'.past);
        assert MailOk(m, s.(room := o.room, past := s'.past));
        match m {
          case ToClient(_, _) =>
          case ToServer(_, _) =>
        }
      } else {
        NewMailOk(s, o, m);
      }
    }
  }

  lemma StreamKept(c: C.State, done: seq<Processed>, race: nat, past: seq<Room>, race': nat, past': seq<Room>)
    requires StreamOk(c, done, race, past) && race <= race' && past <= past'
    requires forall k, i :: |past| <= k < |past'| && 0 <= i < 4 && Occupied(past'[k].players[i])
                            && past'[k].players[i].token == c.token ==>
               past'[k].players[i].commandSeq == |done|
    ensures StreamOk(c, done, race', past')
  {
  }

  lemma {:induction false} OfRaceKept(taken: seq<C.Taken>, race: nat, past: seq<Room>, past': seq<Room>)
    requires WithinPast(taken, past) && past <= past'
    ensures WithinPast(taken, past') && OfRace(taken, race, past') == OfRace(taken, race, past)
  {
    if taken != [] {
      OfRaceKept(taken[..|taken| - 1], race, past, past');
    }
  }

  lemma BufferKept(c: C.State, past: seq<Room>, past': seq<Room>)
    requires BufferOk(c, past) && past <= past'
    ensures BufferOk(c, past')
  {
    hide Shows, OfRace;
    OfRaceKept(c.history.taken, c.race, past, past');
  }

  lemma KnowledgeKept(c: C.State, past: seq<Room>, past': seq<Room>)
    requires ViewOk(c, past) && GameOk(c, past) && past <= past'
    ensures ViewOk(c, past') && GameOk(c, past')
  {
  }

  lemma TimelyKept(c: C.State, room: Room, room': Room)
    requires TimelyOk(c, room) && IssuedOk(c) && c.race <= room.race && Evolves(room, room')
    ensures TimelyOk(c, room')
  {
  }

  lemma QuietClient(s: System, o: Outcome, n: nat)
    requires Ok(s) && Quiet(s.room, o.room) && n in s.clients
    ensures ClientOk(n, AfterRoom(s, o))
  {
    hide PastOk, PastSeatedOk, StatusOk, Invariant, NetOk, OwnersOk, Keeps, GameOk, ViewOk, OnceOk, TimelyOk,
      UnjoinedOk, BufferOk;
    var c := s.clients[n];
    assert ClientOk(n, s);
    BufferKept(c, s.past, PastAfter(s, o));
    if c.token != 0 {
      QuietSeated(s, o.room);
      StreamKept(c, s.processed[c.token], s.room.race, s.past, o.room.race, PastAfter(s, o));
      KnowledgeKept(c, s.past, PastAfter(s, o));
      TimelyKept(c, s.room, o.room);
    }
  }

  lemma QuietOk(s: System, o: Outcome)
    requires Ok(s) && Quiet(s.room, o.room) && Outgoing(s.room, o)
    ensures Ok(AfterRoom(s, o))
  {
    var s' := AfterRoom(s, o);
    assert s'.past == PastAfter(s, o);
    PastExtends(s, o);
    QuietSeated(s, o.room);
    QuietAddress(s.room, o.room, s.clients);
    QuietStatus(s, o.room);
    NewPastSeated(s, o);
    QuietNet(s, o);
    forall n | n in s'.clients ensures ClientOk(n, s') {
      QuietClient(s, o, n);
    }
  }

  // Executing a command.

  lemma ExecutedInWindow(r: Room, from: nat, p: Packet)
    requires Executes(r, from, p) && RoomWindow(r, from, p)
    ensures var i := Sender(r, from, p);
      && p.body.Reliable? && !r.closed
      && i < 4 && Occupied(r.players[i]) && r.players[i].token == p.token
      && p.race == r.race && p.number == r.players[i].commandSeq + 1
  {
  }

  /** The packet carries the next command of the player it comes from, and if the client that issued it is
      still connected, the command at the front of its queue. */
  predicate AtFront(s: System, from: nat, p: Packet) {
    var i := Sender(s.room, from, p);
    && p.body.Reliable? && !s.room.closed
    && i < 4 && Occupied(s.room.players[i]) && s.room.players[i].token == p.token
    && p.race == s.room.race
    && p.token in s.owners && p.token in s.processed
    && p.number == |s.processed[p.token]| + 1
    && s.owners[p.token] in s.clients
    && var c := s.clients[s.owners[p.token]];
       && c.token == p.token
       && p.race == c.race
       && C.Issued(p.race, p.number, p.body.command) in c.history.issued
       && (c.slot >= 0 ==> p.number == Base(c) + 1 && c.pending != [] && c.pending[0].command == p.body.command)
  }

  lemma ExecutedCommand(s: System, from: nat, p: Packet)
    requires Ok(s) && ToServer(from, p) in s.net && Executes(s.room, from, p) && RoomWindow(s.room, from, p)
    ensures AtFront(s, from, p)
  {
    hide PastOk, PastSeatedOk, StatusOk, Invariant, GameOk, ViewOk, OnceOk, TimelyOk, DoneOk, AckedOk, ClearedOk,
      FutureAckOk, IssuedOk, QueueOk, BufferOk, Executes, RoomWindow;
    ExecutedInWindow(s.room, from, p);
    assert MailOk(ToServer(from, p), s);
    assert ClientOk(s.owners[p.token], s);
  }

  function Executed(s: System, from: nat, p: Packet, at: Times): System
    requires Sender(s.room, from, p) < 4 && p.body.Reliable?
  {
    s.(room := Commanded(s.room, Sender(s.room, from, p), p.number, p.body.command, at),
       processed := s.processed[p.token := DoneBy(s, p.token) + [Execution(s.room, from, p)]])
  }

  lemma ExecutedStream(c: C.State, done: seq<Processed>, race: nat, past: seq<Room>, p: Processed)
    requires StreamOk(c, done, race, past) && p.race == c.race == race
    requires forall k :: 0 <= k < |past| ==> past[k].race <= race
    requires C.Issued(p.race, |done| + 1, p.command) in c.history.issued
    requires c.slot >= 0 ==> |done| == Base(c) && c.pending != [] && c.pending[0].command == p.command
    ensures StreamOk(c, done + [p], race, past)
  {
  }

  /** One more command recorded for a token. */
  function Recorded(processed: map<nat, seq<Processed>>, token: nat, p: Processed): map<nat, seq<Processed>>
    requires token in processed
  {
    processed[token := processed[token] + [p]]
  }

  lemma CommandedSeated(r: Room, i: nat, r': Room, owners: map<nat, nat>, processed: map<nat, seq<Processed>>,
                        p: Processed)
    requires i < 4 && SeatedOk(r, owners, processed) && IdentityOk(r) && ChangesOnly(r, i, r')
    requires r.players[i].token in processed && r'.players[i].commandSeq == |processed[r.players[i].token]| + 1
    ensures SeatedOk(r', owners, Recorded(processed, r.players[i].token, p))
  {
  }

  lemma CommandedAddress(r: Room, i: nat, r': Room, clients: map<nat, C.State>)
    requires i < 4 && AddressOk(r, clients) && ChangesOnly(r, i, r')
    ensures AddressOk(r', clients)
  {
  }

  lemma RecordedPast(past: seq<Room>, processed: map<nat, seq<Processed>>, token: nat, p: Processed)
    requires token in processed && PastSeatedOk(past, processed)
    ensures PastSeatedOk(past, Recorded(processed, token, p))
  {
  }

  lemma RecordedOwners(owners: map<nat, nat>, processed: map<nat, seq<Processed>>, clients: map<nat, C.State>,
                       token: nat, p: Processed)
    requires token in processed && OwnersOk(owners, processed, clients)
    requires token in owners && clients[owners[token]].token == token
    ensures OwnersOk(owners, Recorded(processed, token, p), clients)
  {
  }

  lemma ExecutedSeated(s: System, from: nat, p: Packet, at: Times)
    requires Ok(s) && ToServer(from, p) in s.net && Executes(s.room, from, p) && RoomWindow(s.room, from, p)
    ensures var s' := Executed(s, from, p, at);
      && SeatedOk(s'.room, s'.owners, s'.processed)
      && PastSeatedOk(s'.past, s'.processed)
      && OwnersOk(s'.owners, s'.processed, s'.clients)
  {
    hide PastOk, PastSeatedOk, StatusOk, NetOk, ClientOk, SeatedOk, OwnersOk, Commanded, Executes,
      RoomWindow, TableOk, StartOk, HiddenOk, SettingsOk, IdentityOk, Sender;
    ExecutedCommand(s, from, p);
    var i := Sender(s.room, from, p);
    CommandedShape(s.room, i, p.number, p.body.command, at);
    var done := Execution(s.room, from, p);
    var s' := Executed(s, from, p, at);
    assert s'.processed == Recorded(s.processed, p.token, done);
    CommandedSeated(s.room, i, s'.room, s.owners, s.processed, done);
    RecordedPast(s.past, s.processed, p.token, done);
    RecordedOwners(s.owners, s.processed, s.clients, p.token, done);
  }

  lemma HasDoneGrows(done: seq<Processed>, p: Processed, race: nat, like: Command)
    requires HasDone(done, race, like)
    ensures HasDone(done + [p], race, like)
  {
    var k :| 0 <= k < |done| && done[k].race == race && SameKind(done[k].command, like) && done[k].accepted;
    assert (done + [p])[k] == done[k];
  }

  lemma HasDoneNow(done: seq<Processed>, p: Processed, like: Command)
    requires SameKind(p.command, like) && p.accepted
    ensures HasDone(done + [p], p.race, like)
  {
    assert (done + [p])[|done|] == p;
  }

  lemma ExecutedBacking(r: Room, i: nat, done: seq<Processed>, c: Command, p': Player)
    requires i < 4 && Occupied(r.players[i]) && Invariant(r) && StatusBacked(r.players[i], done, r.race)
    requires p'.status == CommandedStatus(r, i, c)
    requires p'.car == if CommandValid(r, i, c) && c.Select? then c.car else r.players[i].car
    ensures StatusBacked(p', done + [Processed(r.race, c, CommandValid(r, i, c))], r.race)
  {
    var p := Processed(r.race, c, CommandValid(r, i, c));
    assert StatusFits(r.phase, r.players[i].status);
    assert forall q :: q in done ==> q in done + [p];
    assert (done + [p])[|done|] == p;
    if HasDone(done, r.race, Loaded(0, 0, 0)) { HasDoneGrows(done, p, r.race, Loaded(0, 0, 0)); }
    if HasDone(done, r.race, Finish) { HasDoneGrows(done, p, r.race, Finish); }
    if c.Loaded? && p.accepted { HasDoneNow(done, p, Loaded(0, 0, 0)); }
    if c.Finish? && p.accepted { HasDoneNow(done, p, Finish); }
  }

  lemma ExecutedStatus(s: System, from: nat, p: Packet, at: Times)
    requires Ok(s) && ToServer(from, p) in s.net && Executes(s.room, from, p) && RoomWindow(s.room, from, p)
    ensures var s' := Executed(s, from, p, at); StatusOk(s'.room, s'.processed)
  {
    hide PastOk, PastSeatedOk, NetOk, ClientOk, OwnersOk, Commanded, Executes, RoomWindow, SettingsOk, HiddenOk,
      StartOk, OpenOk, Sender, StatusBacked, CommandedStatus;
    ExecutedCommand(s, from, p);
    var i := Sender(s.room, from, p);
    CommandedShape(s.room, i, p.number, p.body.command, at);
    var s' := Executed(s, from, p, at);
    assert StatusBacked(s.room.players[i], s.processed[p.token], s.room.race);
    ExecutedBacking(s.room, i, s.processed[p.token], p.body.command, s'.room.players[i]);
    forall j | 0 <= j < 4 && Occupied(s'.room.players[j]) && s'.room.players[j].token in s'.processed
      ensures StatusBacked(s'.room.players[j], s'.processed[s'.room.players[j].token], s'.room.race)
    {
      if j != i {
        assert s'.room.players[j] == s.room.players[j] && s.room.players[j].token != p.token;
      }
    }
  }

  lemma ExecutedNet(s: System, from: nat, p: Packet, at: Times)
    requires Ok(s) && ToServer(from, p) in s.net && Executes(s.room, from, p) && RoomWindow(s.room, from, p)
    ensures NetOk(Executed(s, from, p, at))
  {
    hide PastOk, PastSeatedOk, StatusOk, SeatedOk, Invariant, ClientOk, CommandMailOk, SnapshotMailOk, Commanded;
    var s' := Executed(s, from, p, at);
    ExecutedCommand(s, from, p);
    CommandedShape(s.room, Sender(s.room, from, p), p.number, p.body.command, at);
    assert s'.room.session == s.room.session && s'.room.race == s.room.race;
    forall m | m in s'.net ensures MailOk(m, s') {
      assert MailOk(m, s);
      match m {
        case ToClient(to, q) =>
          assert RoomMailOk(to, q, s.room, s.past, s.owners, s.processed);
        case ToServer(origin, q) =>
          assert ClientMailOk(origin, q, s.owners, s.clients);
      }
    }
  }

  lemma ExecutedClient(s: System, from: nat, p: Packet, at: Times, n: nat)
    requires Ok(s) && ToServer(from, p) in s.net && Executes(s.room, from, p) && RoomWindow(s.room, from, p)
    requires n in s.clients
    ensures ClientOk(n, Executed(s, from, p, at))
  {
    hide PastSeatedOk, NetOk, OwnersOk, Commanded, Executes, RoomWindow, Invariant, Sender, StatusOk, SeatedOk,
      GameOk, ViewOk, OnceOk, TimelyOk, UnjoinedOk, BufferOk, DoneOk, AckedOk, ClearedOk, FutureAckOk, QueueOk;
    var c := s.clients[n];
    var i := Sender(s.room, from, p);
    ExecutedCommand(s, from, p);
    var s' := Executed(s, from, p, at);
    CommandedShape(s.room, i, p.number, p.body.command, at);
    CommandedEvolves(s.room, i, p.number, p.body.command, at);
    assert ClientOk(n, s);
    if c.token != 0 {
      TimelyKept(c, s.room, s'.room);
      if c.token == p.token {
        assert forall k :: 0 <= k < |s.past| ==> Evolves(s.past[k], s.room);
        ExecutedStream(c, s.processed[c.token], s.room.race, s.past, Execution(s.room, from, p));
      }
    }
  }

  lemma ExecutedOk(s: System, from: nat, p: Packet, at: Times)
    requires Ok(s) && ToServer(from, p) in s.net && Executes(s.room, from, p) && RoomWindow(s.room, from, p)
    ensures Ok(Executed(s, from, p, at))
  {
    hide PastOk, PastSeatedOk, StatusOk, NetOk, SeatedOk, OwnersOk, AddressOk, Commanded, TableOk, StartOk, HiddenOk,
      SettingsOk, IdentityOk, OpenOk, ClientOk;
    var s' := Executed(s, from, p, at);
    var i := Sender(s.room, from, p);
    CommandedShape(s.room, i, p.number, p.body.command, at);
    CommandedInvariant(s.room, i, p.number, p.body.command, at);
    CommandedEvolves(s.room, i, p.number, p.body.command, at);
    PastExtends(s, Outcome(s'.room, {}));
    ExecutedSeated(s, from, p, at);
    CommandedAddress(s.room, i, s'.room, s.clients);
    ExecutedNet(s, from, p, at);
    ExecutedStatus(s, from, p, at);
    forall n | n in s'.clients ensures ClientOk(n, s') {
      ExecutedClient(s, from, p, at, n);
    }
  }

  // Seating a player.

  function SeatedSystem(s: System, from: nat, p: Packet, at: Times, token: nat): System
    requires p.body.Hello? && Seat(s.room, from, p.body.nonce, p.body.key) < 4
  {
    s.(room := Seated(s.room, Seat(s.room, from, p.body.nonce, p.body.key), from, token, p.body.nonce, at.seen),
       owners := s.owners[token := p.body.nonce], processed := s.processed[token := []])
  }

  lemma NewcomerSeated(r: Room, i: nat, r': Room, nonce: nat, token: nat,
                       owners: map<nat, nat>, processed: map<nat, seq<Processed>>)
    requires i < 4 && SeatedOk(r, owners, processed) && token !in owners && owners.Keys == processed.Keys
    requires StatusOk(r, processed) && r'.race == r.race
    requires forall j :: 0 <= j < 4 && j != i ==> r'.players[j] == r.players[j]
    requires r'.players[i].token == token && r'.players[i].nonce == nonce
             && r'.players[i].commandSeq == 0 && r'.players[i].status == Joined
    ensures SeatedOk(r', owners[token := nonce], processed[token := []])
    ensures StatusOk(r', processed[token := []])
  {
  }

  lemma NewcomerPast(past: seq<Room>, processed: map<nat, seq<Processed>>, token: nat)
    requires PastSeatedOk(past, processed) && token !in processed
    ensures PastSeatedOk(past, processed[token := []])
  {
  }

  lemma NewcomerOwner(owners: map<nat, nat>, processed: map<nat, seq<Processed>>, clients: map<nat, C.State>,
                      token: nat, nonce: nat)
    requires OwnersOk(owners, processed, clients) && token !in owners && token != 0 && nonce in clients
    ensures OwnersOk(owners[token := nonce], processed[token := []], clients)
  {
  }

  lemma TokenUnused(s: System, token: nat)
    requires SeatedOk(s.room, s.owners, s.processed) && token != 0 && token !in s.owners
    ensures UnusedToken(s.room, token)
  {
  }

  lemma SeatedParts(s: System, from: nat, p: Packet, at: Times, token: nat)
    requires Ok(s) && ToServer(from, p) in s.net && Seats(s.room, from, p, token) && token !in s.owners
    ensures UnusedToken(s.room, token)
    ensures var s' := SeatedSystem(s, from, p, at, token);
      && SeatedOk(s'.room, s'.owners, s'.processed)
      && PastSeatedOk(s'.past, s'.processed)
      && OwnersOk(s'.owners, s'.processed, s'.clients)
      && StatusOk(s'.room, s'.processed)
      && AddressOk(s'.room, s'.clients)
  {
    hide PastOk, PastSeatedOk, StatusOk, ClientOk, SeatedOk, Invariant, UnusedToken, Seat;
    var s' := SeatedSystem(s, from, p, at, token);
    assert MailOk(ToServer(from, p), s);
    var i := Seat(s.room, from, p.body.nonce, p.body.key);
    TokenUnused(s, token);
    NewcomerSeated(s.room, i, s'.room, p.body.nonce, token, s.owners, s.processed);
    NewcomerPast(s.past, s.processed, token);
    NewcomerOwner(s.owners, s.processed, s.clients, token, p.body.nonce);
  }

  lemma SeatedNet(s: System, from: nat, p: Packet, at: Times, token: nat)
    requires Ok(s) && Seats(s.room, from, p, token) && token !in s.owners
    ensures NetOk(SeatedSystem(s, from, p, at, token))
  {
    hide PastOk, PastSeatedOk, StatusOk, SeatedOk, Invariant, ClientOk, CommandMailOk, SnapshotMailOk, Seat;
    var s' := SeatedSystem(s, from, p, at, token);
    assert s'.room.session == s.room.session && s'.room.race == s.room.race;
    forall m | m in s'.net ensures MailOk(m, s') {
      assert MailOk(m, s);
      match m {
        case ToClient(to, q) =>
          assert RoomMailOk(to, q, s.room, s.past, s.owners, s.processed);
        case ToServer(origin, q) =>
          assert ClientMailOk(origin, q, s.owners, s.clients);
      }
    }
  }

  lemma SeatedClient(s: System, from: nat, p: Packet, at: Times, token: nat, n: nat)
    requires Ok(s) && Seats(s.room, from, p, token) && token !in s.owners && UnusedToken(s.room, token)
    requires n in s.clients
    ensures ClientOk(n, SeatedSystem(s, from, p, at, token))
  {
    hide PastOk, PastSeatedOk, StatusOk, NetOk, SeatedOk, Invariant, GameOk, ViewOk, OnceOk, TimelyOk, UnjoinedOk,
      BufferOk, DoneOk, AckedOk, ClearedOk, FutureAckOk, QueueOk, FrontOk, Evolves, UnusedToken;
    var s' := SeatedSystem(s, from, p, at, token);
    var c := s.clients[n];
    assert ClientOk(n, s);
    if c.token != 0 {
      SeatedStep(s.room, from, p.body.nonce, p.body.key, token, at.seen);
      TimelyKept(c, s.room, s'.room);
      assert c.token != token;
    }
  }

  lemma SeatedSystemOk(s: System, from: nat, p: Packet, at: Times, token: nat)
    requires Ok(s) && ToServer(from, p) in s.net && Seats(s.room, from, p, token) && token !in s.owners
    ensures Ok(SeatedSystem(s, from, p, at, token))
  {
    hide PastOk, PastSeatedOk, StatusOk, NetOk, SeatedOk, OwnersOk, AddressOk, Invariant, ClientOk, Evolves;
    var s' := SeatedSystem(s, from, p, at, token);
    SeatedParts(s, from, p, at, token);
    SeatedStep(s.room, from, p.body.nonce, p.body.key, token, at.seen);
    PastExtends(s, Outcome(s'.room, {}));
    SeatedNet(s, from, p, at, token);
    forall n | n in s'.clients ensures ClientOk(n, s') {
      SeatedClient(s, from, p, at, token, n);
    }
  }

  // Every step of the room.

  lemma ExecuteReceivedOk(s: System, from: nat, p: Packet, at: Times, token: nat)
    requires Ok(s) && ToServer(from, p) in s.net && Executes(s.room, from, p) && RoomWindow(s.room, from, p)
    ensures Ok(AfterReceive(s, from, p, at, token))
  {
    hide Ok, Quiet, Outgoing, Execute, Invariant, Commanded, RoomWindow, Receive, Evolves;
    var o := Receive(s.room, from, p, at, token);
    assert Invariant(s.room) by { RoomIsSound(s); }
    var i := Sender(s.room, from, p);
    var s1 := Executed(s, from, p, at);
    ExecutedOk(s, from, p, at);
    ReceiveExecutes(s.room, from, p, at, token);
    ExecuteStep(s.room, i, p.number, p.body.command, at);
    ExecuteOutgoing(s.room, i, p.number, p.body.command, at);
    CommandedShape(s.room, i, p.number, p.body.command, at);
    QuietOk(s1, o);
    assert AfterRoom(s1, o) == AfterReceive(s, from, p, at, token);
  }

  lemma RoomIsSound(s: System)
    requires Ok(s)
    ensures Invariant(s.room)
  {
  }

  lemma SeatReceivedOk(s: System, from: nat, p: Packet, at: Times, token: nat)
    requires Ok(s) && ToServer(from, p) in s.net && Seats(s.room, from, p, token) && token !in s.owners
    ensures Ok(AfterReceive(s, from, p, at, token))
  {
    hide Ok, Quiet, Outgoing, Publish, Invariant, Seat, Receive, Seated;
    var o := Receive(s.room, from, p, at, token);
    var i := Seat(s.room, from, p.body.nonce, p.body.key);
    var s1 := SeatedSystem(s, from, p, at, token);
    SeatedSystemOk(s, from, p, at, token);
    RoomIsSound(s1);
    ReceiveSeats(s.room, from, p, at, token);
    PublishStep(s1.room, at.published);
    SeatOutgoing(s.room, i, from, token, p.body.nonce, at);
    QuietOk(s1, o);
    assert s1.room.snapshotSeq == s.room.snapshotSeq
      by { SeatedNumbers(s.room, i, from, token, p.body.nonce, at.seen); }
    assert AfterRoom(s1, o) == AfterReceive(s, from, p, at, token);
  }

  lemma SeatedNumbers(r: Room, i: nat, from: nat, token: nat, nonce: nat, now: nat)
    requires i < 4
    ensures Seated(r, i, from, token, nonce, now).snapshotSeq == r.snapshotSeq
  {
  }

  lemma RoomReceivesOk(s: System, from: nat, p: Packet, at: Times, token: nat)
    requires Ok(s) && ToServer(from, p) in s.net && token !in s.owners && RoomWindow(s.room, from, p)
    ensures Ok(AfterReceive(s, from, p, at, token))
  {
    hide Ok, Quiet, Outgoing, Executes, Seats, Invariant, Receive;
    RoomIsSound(s);
    if Executes(s.room, from, p) {
      ExecuteReceivedOk(s, from, p, at, token);
    } else if Seats(s.room, from, p, token) {
      SeatReceivedOk(s, from, p, at, token);
    } else {
      ReceiveQuiet(s.room, from, p, at, token);
      ReceiveQuietOutgoing(s.room, from, p, at, token);
      QuietOk(s, Receive(s.room, from, p, at, token));
    }
  }
}
