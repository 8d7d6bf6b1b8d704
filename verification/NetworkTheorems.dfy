/**
  What holds in every run of the whole system: any interleaving of client steps, room steps and deliveries,
  with any loss, duplication and reordering.
  */
module NetworkTheorems {
  import opened Words
  import opened Messages
  import opened Rooms
  import opened RoomInvariants
  import opened RoomSteps
  import opened RoomMail
  import opened Network
  import opened RoomSide
  import opened ClientSide
  import opened ClientMoves
  import opened ClientFrames
  import C = Clients

  // Every step preserves the invariant.

  lemma ClientIsSound(s: System, n: nat)
    requires Ok(s) && n in s.clients && s.clients[n].token != 0
    ensures var c := s.clients[n];
      && c.token in s.owners && s.owners[c.token] == n && c.token in s.processed
      && Sound(c, s.processed[c.token], s.room, s.past)
      && (c.open ==> c.slot >= 0) && c.nonce == n && c.session == s.room.session
      && PastOk(s.room, s.past)
  {
    hide StreamOk, ViewOk, GameOk, OnceOk, TimelyOk, PastOk, Invariant;
    assert ClientOk(n, s);
  }

  /** New datagrams of a client that has joined. */
  ghost predicate SendsOnlyFront(c: C.State, sent: set<Mail>) {
    forall m :: m in sent ==>
      && m.ToServer?
      && (m.packet.body.Hello? ==> m.packet.body.nonce == c.nonce && m.from == c.address)
      && (m.packet.body.Reliable? ==> m.packet.token == c.token && CommandMailOk(m.packet, c))
  }

  lemma JoinedStep(s: System, n: nat, reply: C.Reply)
    requires Ok(s) && n in s.clients && s.clients[n].token != 0
    requires var c, c' := s.clients[n], reply.client;
      && c'.nonce == c.nonce && c'.address == c.address && c'.token == c.token && c'.session == c.session
      && (c'.open ==> c'.slot >= 0)
      && c.token in s.processed && Sound(c', s.processed[c.token], s.room, s.past) && MailsKept(c, c')
      && SendsOnlyFront(c', reply.sent)
    ensures Ok(AfterClient(s, n, reply))
  {
    hide Ok, StreamOk, ViewOk, GameOk, OnceOk, TimelyOk, BufferOk, MailsKept, CommandMailOk;
    ClientIsSound(s, n);
    AfterClientOk(s, n, reply);
  }

  lemma UnjoinedStep(s: System, n: nat, reply: C.Reply)
    requires Ok(s) && n in s.clients && s.clients[n].token == 0
    requires var c' := reply.client;
      && c'.nonce == n && c'.address == s.clients[n].address && c'.token == 0 && UnjoinedOk(c')
        && BufferOk(c', s.past) && OnceOk(c') && -1 <= c'.slot < 4
      && forall m :: m in reply.sent ==>
           && m.ToServer? && !m.packet.body.Reliable?
           && (m.packet.body.Hello? ==> m.packet.body.nonce == n && m.from == c'.address)
    ensures Ok(AfterClient(s, n, reply))
  {
    hide Ok, StreamOk, ViewOk, GameOk, OnceOk, TimelyOk, BufferOk, MailsKept, CommandMailOk, UnjoinedOk;
    AfterClientOk(s, n, reply);
  }

  lemma AttachOk(s: System, nonce: nat, address: nat, key: seq<nat>)
    requires Ok(s) && nonce !in s.clients
    ensures Ok(s.(clients := s.clients[nonce := C.Attached(address, nonce, key)]))
  {
    hide PastOk, SeatedOk, PastSeatedOk, Invariant, StatusOk, ClientOk, MailOk;
    var s' := s.(clients := s.clients[nonce := C.Attached(address, nonce, key)]);
    forall n | n in s'.clients ensures ClientOk(n, s') {
      if n != nonce {
        StrangerKept(s, nonce, C.Attached(address, nonce, key), n);
      } else {
        NewcomerOk(s', nonce, address, key);
      }
    }
    forall m | m in s'.net ensures MailOk(m, s') {
      MailSurvivesAttach(s, nonce, C.Attached(address, nonce, key), m);
    }
  }

  lemma StrangerKept(s: System, nonce: nat, c: C.State, n: nat)
    requires n in s.clients && n != nonce && ClientOk(n, s)
    ensures ClientOk(n, s.(clients := s.clients[nonce := c]))
  {
  }

  lemma NewcomerOk(s: System, nonce: nat, address: nat, key: seq<nat>)
    requires nonce in s.clients && s.clients[nonce] == C.Attached(address, nonce, key)
    ensures ClientOk(nonce, s)
  {
  }

  lemma MailSurvivesAttach(s: System, nonce: nat, c: C.State, m: Mail)
    requires nonce !in s.clients && MailOk(m, s)
    ensures MailOk(m, s.(clients := s.clients[nonce := c]))
  {
  }

  lemma ReceiveJoined(s: System, n: nat, p: Packet)
    requires Ok(s) && n in s.clients && s.clients[n].token != 0
    requires ToClient(s.clients[n].address, p) in s.net && ClientWindow(s.clients[n], p)
    ensures Ok(AfterClient(s, n, C.Receive(s.clients[n], p)))
  {
    hide Ok, StreamOk, ViewOk, GameOk, OnceOk, TimelyOk, BufferOk, CommandMailOk, PastOk, ViewOf, PlausibleView,
      C.TakeSnapshot;
    var c := s.clients[n];
    ClientIsSound(s, n);
    var reply := C.Receive(c, p);
    assert MailsKept(c, c);
    if c.open && C.AcceptsSnapshot(c, p) && reply.client == C.TakeSnapshot(c, p) {
      SnapshotIsPast(s, n, p);
      WindowedComparison(p.number, c.snapshotSeq);
      WindowedComparison(p.race, c.race);
      SnapshotSound(c, p, s.processed[c.token], s.room, s.past);
      TakeSnapshotKeeps(c, p);
    } else {
      FailSound(c, s.processed[c.token], s.room, s.past);
    }
    JoinedStep(s, n, reply);
  }

  /** The same connection, and nothing acknowledged or discarded is forgotten. */
  predicate Continues(c: C.State, c': C.State) {
    && c'.nonce == c.nonce && c'.address == c.address && c'.token == c.token && c'.session == c.session
    && c'.slot == c.slot && c'.open == c.open
    && c.history.acked <= c'.history.acked && c.history.cleared <= c'.history.cleared
  }

  lemma QueueKeeps(c: C.State, command: Command)
    ensures Continues(c, C.Queue(c, command))
  {
  }

  lemma TakeSnapshotKeeps(c: C.State, p: Packet)
    requires p.body.Snapshot?
    ensures Continues(c, C.TakeSnapshot(c, p))
  {
    hide C.Queue, C.AckedCount, C.Entries, C.Newest;
    var c1 := C.Acknowledge(c.(snapshotSeq := p.number), p.ack);
    assert Continues(c, c1);
    var c2 := if Same(p.race, c.race) then c1 else C.ChangeRace(c1, p.race, p.ack);
    assert Continues(c, c2);
    var c3 := C.Observe(c2, p.body.view);
    assert Continues(c, c3);
    QueueKeeps(c3, Arm(c3.view.start));
  }

  lemma ReceiveUnjoined(s: System, n: nat, p: Packet)
    requires Ok(s) && n in s.clients && s.clients[n].token == 0
    requires ToClient(s.clients[n].address, p) in s.net
    ensures Ok(AfterClient(s, n, C.Receive(s.clients[n], p)))
  {
    hide Ok, StreamOk, ViewOk, GameOk, TimelyOk, BufferOk, CommandMailOk, PastOk, OnceOk, C.TakeSnapshot;
    var c := s.clients[n];
    var reply := C.Receive(c, p);
    UnjoinedFacts(s, n);
    if reply.client.token != 0 {
      WelcomeSound(s, n, p);
      WelcomedOk(s, n, p);
    } else {
      UnjoinedFail(c, s.past);
      UnjoinedStep(s, n, reply);
    }
  }

  lemma UnjoinedFacts(s: System, n: nat)
    requires Ok(s) && n in s.clients && s.clients[n].token == 0
    ensures var c := s.clients[n];
      UnjoinedOk(c) && BufferOk(c, s.past) && OnceOk(c) && c.nonce == n && c.slot < 0 && -1 <= c.slot
  {
    hide StreamOk, ViewOk, GameOk, TimelyOk, PastOk, OnceOk, BufferOk;
    assert ClientOk(n, s);
  }

  lemma UnjoinedFail(c: C.State, past: seq<Room>)
    requires UnjoinedOk(c) && OnceOk(c) && BufferOk(c, past)
    ensures UnjoinedOk(C.Fail(c)) && OnceOk(C.Fail(c)) && BufferOk(C.Fail(c), past)
  {
  }

  lemma WelcomedOk(s: System, n: nat, p: Packet)
    requires Ok(s) && n in s.clients && s.clients[n].token == 0 && s.clients[n].nonce == n
    requires C.Welcomes(s.clients[n], p)
    requires var c := s.clients[n];
      var c' := c.(slot := p.body.slot, session := p.session, token := p.token, race := p.race, commandSeq := p.ack);
      && p.token in s.owners && s.owners[p.token] == n && p.token in s.processed && p.session == s.room.session
      && Sound(c', s.processed[p.token], s.room, s.past)
      && C.Receive(c, p) == C.Reply(c', {})
    ensures Ok(AfterClient(s, n, C.Receive(s.clients[n], p)))
  {
    hide Ok, StreamOk, ViewOk, GameOk, TimelyOk, BufferOk, CommandMailOk, PastOk, OnceOk;
    AfterClientOk(s, n, C.Receive(s.clients[n], p));
  }

  lemma TickOk(s: System, n: nat, hello: bool, retry: bool, ping: bool, stamp: nat)
    requires Ok(s) && n in s.clients
    ensures Ok(AfterClient(s, n, C.Tick(s.clients[n], hello, retry, ping, stamp)))
  {
    hide Ok, StreamOk, ViewOk, GameOk, TimelyOk, BufferOk, CommandMailOk, PastOk, OnceOk, UnjoinedOk;
    var c := s.clients[n];
    var reply := C.Tick(c, hello, retry, ping, stamp);
    if c.token == 0 {
      UnjoinedFacts(s, n);
      UnjoinedStep(s, n, reply);
    } else {
      ClientIsSound(s, n);
      TickJoined(c, hello, retry, ping, stamp, s.processed[c.token], s.room, s.past);
      JoinedStep(s, n, reply);
    }
  }

  lemma TickJoined(c: C.State, hello: bool, retry: bool, ping: bool, stamp: nat,
                   done: seq<Processed>, room: Room, past: seq<Room>)
    requires Sound(c, done, room, past) && (c.open ==> c.slot >= 0)
    ensures var reply := C.Tick(c, hello, retry, ping, stamp);
      var c' := reply.client;
      && c'.nonce == c.nonce && c'.address == c.address && c'.token == c.token && c'.session == c.session
      && (c'.open ==> c'.slot >= 0)
      && Sound(c', done, room, past) && MailsKept(c, c') && SendsOnlyFront(c', reply.sent)
  {
    hide IssuedOk, DoneOk, AckedOk, ClearedOk, FutureAckOk, QueueOk, FrontOk, ViewOk, GameOk, TimelyOk, BufferOk,
      CommandMailOk;
    assert MailsKept(c, c);
    if c.open && c.game != C.Offline {
      var c0 := c.(requests := []);
      DropRequests(c, done, room, past);
      QueueAllSound(c0, c.requests, done, room, past);
      var c1 := C.QueueAll(c0, c.requests);
      MailsKeptTransitive(c, c0, c1);
      if c1.pending != [] {
        FrontMailOk(c1);
      }
    }
  }

  lemma FrameOk(s: System, n: nat, f: C.Frame)
    requires Ok(s) && n in s.clients
    ensures Ok(AfterClient(s, n, C.StepFrame(s.clients[n], f)))
  {
    hide Ok, StreamOk, ViewOk, GameOk, TimelyOk, BufferOk, CommandMailOk, PastOk, OnceOk, UnjoinedOk, C.StepFrame;
    var c := s.clients[n];
    var reply := C.StepFrame(c, f);
    if c.token == 0 {
      UnjoinedFacts(s, n);
      UnjoinedFrame(c, f, s.past);
      UnjoinedStep(s, n, reply);
    } else {
      ClientIsSound(s, n);
      FrameSound(c, f, s.processed[c.token], s.room, s.past);
      FrameKeeps(c, f);
      JoinedStep(s, n, reply);
    }
  }

  lemma FrameKeeps(c: C.State, f: C.Frame)
    ensures var reply := C.StepFrame(c, f);
      Continues(c, reply.client) && SendsOnlyFront(reply.client, reply.sent)
  {
    hide C.PrepareRace, C.Locate, C.EnterRace, C.Released, C.SendSelection, C.SendLoaded, C.SendFinish, C.Queue,
      CommandMailOk;
    if !c.attached || c.game == C.Offline {
    } else {
      match c.game
      case Waiting =>
        SendsKeep(c, f);
        PrepareKeeps(C.SendSelection(c));
      case Prepare => PrepareKeeps(c);
      case Location =>
        SendsKeep(c, f);
        EnterKeeps(C.SendLoaded(c, f), f.reached);
      case Race => SendsKeep(c, f);
      case Standings => QueueKeeps(c, Next);
      case _ =>
    }
  }

  lemma SendsKeep(c: C.State, f: C.Frame)
    ensures Continues(c, C.SendSelection(c)) && Continues(c, C.SendLoaded(c, f)) && Continues(c, C.SendFinish(c))
  {
    hide C.Queue;
    QueueKeeps(c, Select(c.car));
    QueueKeeps(c, Loaded(f.x, f.y, f.orientation));
    QueueKeeps(c, Finish);
  }

  lemma PrepareKeeps(c: C.State)
    ensures Continues(c, C.PrepareRace(c)) && Continues(c, C.Locate(c))
  {
    hide C.PrepareWrites, C.LocateWrites;
  }

  lemma EnterKeeps(c: C.State, reached: bool)
    ensures Continues(c, C.EnterRace(c, reached))
  {
  }

  lemma UnjoinedFrame(c: C.State, f: C.Frame, past: seq<Room>)
    requires UnjoinedOk(c) && BufferOk(c, past) && OnceOk(c)
    ensures var reply := C.StepFrame(c, f);
      && UnjoinedOk(reply.client) && BufferOk(reply.client, past) && OnceOk(reply.client) && reply.sent == {}
      && reply.client.nonce == c.nonce && reply.client.address == c.address && reply.client.token == c.token
      && reply.client.slot == c.slot
  {
    hide C.PrepareWrites, C.LocateWrites, C.Released;
    assert forall k :: 0 <= k < 4 ==> C.MENU[k] < 4;
  }

  lemma RequestOk(s: System, n: nat, command: Command)
    requires Ok(s) && n in s.clients && (command.Config? || command.Next?)
    ensures Ok(AfterClient(s, n, C.Reply(C.Request(s.clients[n], command), {})))
  {
    hide Ok, StreamOk, ViewOk, GameOk, TimelyOk, BufferOk, CommandMailOk, PastOk;
    var c := s.clients[n];
    var reply := C.Reply(C.Request(c, command), {});
    if c.token == 0 {
      UnjoinedFacts(s, n);
      BufferFrame(c, reply.client, s.past);
      UnjoinedStep(s, n, reply);
    } else {
      ClientIsSound(s, n);
      RequestSound(c, command, s.processed[c.token], s.room, s.past);
      JoinedStep(s, n, reply);
    }
  }

  lemma FailOk(s: System, n: nat)
    requires Ok(s) && n in s.clients
    ensures Ok(AfterClient(s, n, C.Reply(C.Fail(s.clients[n]), {})))
  {
    hide Ok, StreamOk, ViewOk, GameOk, TimelyOk, BufferOk, CommandMailOk, PastOk, OnceOk, UnjoinedOk;
    var c := s.clients[n];
    var reply := C.Reply(C.Fail(c), {});
    if c.token == 0 {
      UnjoinedFacts(s, n);
      UnjoinedFail(c, s.past);
      UnjoinedStep(s, n, reply);
    } else {
      ClientIsSound(s, n);
      FailSound(c, s.processed[c.token], s.room, s.past);
      JoinedStep(s, n, reply);
    }
  }

  lemma DetachOk(s: System, n: nat)
    requires Ok(s) && n in s.clients
    ensures Ok(AfterClient(s, n, C.Detach(s.clients[n])))
  {
    hide Ok, StreamOk, ViewOk, GameOk, TimelyOk, CommandMailOk, PastOk;
    var c := s.clients[n];
    var reply := C.Detach(c);
    if c.token == 0 {
      UnjoinedFacts(s, n);
      UnjoinedStep(s, n, reply);
    } else {
      ClientIsSound(s, n);
      DetachSound(c, s.processed[c.token], s.room, s.past);
      JoinedStep(s, n, reply);
    }
  }

  lemma TimedOk(s: System, s': System, time: nat)
    requires Ok(s')
    ensures Ok(Timed(s, s', time))
  {
    hide PastOk, SeatedOk, AddressOk, PastSeatedOk, OwnersOk, Invariant, StatusOk, StreamOk, ViewOk, GameOk, OnceOk,
      TimelyOk, BufferOk, RoomMailOk, ClientMailOk;
    var t := Timed(s, s', time);
    forall n | n in t.clients ensures ClientOk(n, t) {
      assert ClientOk(n, s');
    }
    forall m | m in t.net ensures MailOk(m, t) {
      assert MailOk(m, s');
    }
  }

  lemma QuietEventsOk(s: System, e: Event)
    requires Ok(s) && Enabled(s, e) && (e.RoomTicks? || e.RoomPings? || e.RoomCloses?)
    ensures Ok(Step(s, e))
  {
    hide Ok, Quiet, Outgoing, Invariant, Tick, PingAll, Close;
    RoomIsSound(s);
    match e {
      case RoomTicks(now, published) =>
        TickStep(s.room, now, published);
        TickOutgoing(s.room, now, published);
        QuietOk(s, Tick(s.room, now, published));
        TimedOk(s, AfterRoom(s, Tick(s.room, now, published)), published);
      case RoomPings(now) =>
        PingAllStep(s.room, now);
        PingAllOutgoing(s.room, now);
        QuietOk(s, PingAll(s.room, now));
      case RoomCloses =>
        CloseStep(s.room);
        CloseOutgoing(s.room);
        QuietOk(s, Close(s.room));
    }
  }

  lemma StepOk(s: System, e: Event)
    requires Ok(s) && Enabled(s, e)
    ensures Ok(Step(s, e))
  {
    hide Ok, RoomWindow, ClientWindow;
    match e {
      case Attach(nonce, address, key) => AttachOk(s, nonce, address, key);
      case RoomReceives(from, p, at, token) =>
        RoomReceivesOk(s, from, p, at, token);
        TimedOk(s, AfterReceive(s, from, p, at, token), at.published);
      case RoomTicks(_, _) => QuietEventsOk(s, e);
      case RoomPings(_) => QuietEventsOk(s, e);
      case RoomCloses => QuietEventsOk(s, e);
      case ClientReceives(n, p) =>
        if s.clients[n].token == 0 { ReceiveUnjoined(s, n, p); } else { ReceiveJoined(s, n, p); }
      case ClientTicks(n, hello, retry, ping, stamp) => TickOk(s, n, hello, retry, ping, stamp);
      case ClientFrames(n, f) => FrameOk(s, n, f);
      case ClientRequests(n, c) => RequestOk(s, n, c);
      case ClientFails(n) => FailOk(s, n);
      case ClientDetaches(n) => DetachOk(s, n);
    }
  }
}
