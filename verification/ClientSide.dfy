/** Steps of a client preserve the system invariant. */
module ClientSide {
  import opened Words
  import opened Messages
  import opened Rooms
  import opened RoomInvariants
  import opened Network
  import opened RoomSide
  import C = Clients

  /** The stream fields are the same. */
  predicate SameStream(c: C.State, c': C.State) {
    && c'.slot == c.slot && c'.token == c.token && c'.race == c.race && c'.commandSeq == c.commandSeq
    && c'.pending == c.pending && c'.history.issued == c.history.issued
    && c'.history.acked == c.history.acked && c'.history.cleared == c.history.cleared
  }

  /** Command datagrams accounted for by the old state are accounted for by the new one. */
  ghost predicate MailsKept(c: C.State, c': C.State) {
    forall p: Packet :: p.body.Reliable? && CommandMailOk(p, c) ==> CommandMailOk(p, c')
  }

  lemma SameStreamOk(c: C.State, c': C.State, done: seq<Processed>, race: nat, past: seq<Room>)
    requires StreamOk(c, done, race, past) && SameStream(c, c')
    ensures StreamOk(c', done, race, past) && MailsKept(c, c')
  {
  }

  // Queueing.

  lemma QueueIssued(c: C.State, command: Command)
    requires IssuedOk(c) && c.slot >= 0
    ensures IssuedOk(C.Queue(c, command))
    ensures forall e :: e in c.history.issued ==> e in C.Queue(c, command).history.issued
  {
    var was, c' := c.history.issued, C.Queue(c, command);
    if c' != c {
      var last := C.Issued(c.race, c.commandSeq + 1, command);
      assert c'.history.issued == was + [last];
      assert forall k :: 0 <= k < |was| ==> was[k] in was && Before(was[k], last);
    }
  }

  lemma QueueQueue(c: C.State, command: Command)
    requires QueueOk(c) && c.slot >= 0
    ensures QueueOk(C.Queue(c, command)) && Base(C.Queue(c, command)) == Base(c)
    ensures c.pending != [] ==> C.Queue(c, command).pending[0] == c.pending[0]
  {
    var c' := C.Queue(c, command);
    if c' != c {
      assert forall j :: 0 <= j < |c.pending| ==> c'.pending[j] == c.pending[j];
      assert c'.history.issued[|c.history.issued|] == C.Issued(c.race, c.commandSeq + 1, command);
      assert forall e :: e in c.history.issued ==> e in c'.history.issued;
    }
  }

  lemma QueueStream(c: C.State, command: Command, done: seq<Processed>, race: nat, past: seq<Room>)
    requires StreamOk(c, done, race, past) && c.slot >= 0
    ensures StreamOk(C.Queue(c, command), done, race, past) && MailsKept(c, C.Queue(c, command))
  {
    hide IssuedOk, QueueOk;
    QueueIssued(c, command);
    QueueQueue(c, command);
    QueueMails(c, command);
  }

  lemma QueueMails(c: C.State, command: Command)
    requires QueueOk(c) && c.slot >= 0 && IssuedOk(c)
    ensures MailsKept(c, C.Queue(c, command))
  {
  }

  /** The client may issue this command now without issuing its kind twice in one race. */
  predicate FirstOfKind(c: C.State, command: Command) {
    && (command.Select? ==> !c.selectedSent && command.car < 4)
    && (command.Loaded? ==> !c.loadedSent)
    && (command.Finish? ==> !c.finishedSent)
  }

  function Marked(c: C.State, command: Command): C.State {
    C.Queue(c, command).(selectedSent := c.selectedSent || command.Select?,
                         loadedSent := c.loadedSent || command.Loaded?,
                         finishedSent := c.finishedSent || command.Finish?)
  }

  lemma QueueOnce(c: C.State, command: Command)
    requires OnceOk(c) && IssuedOk(c) && FirstOfKind(c, command)
    ensures OnceOk(Marked(c, command))
  {
    hide IssuedOk;
    var c' := Marked(c, command);
    var was, now := c.history.issued, c'.history.issued;
    if now != was {
      assert forall k :: 0 <= k < |was| ==> now[k] == was[k];
      assert forall e :: e in now ==> e in was || e == C.Issued(c.race, c.commandSeq + 1, command);
      forall j, k | 0 <= j < k < |now| && now[j].race == now[k].race
        ensures !SameKind(now[j].command, now[k].command)
      {
        assert was[j] in was;
      }
    }
  }

  ghost predicate TimelyNow(c: C.State, command: Command, room: Room) {
    c.race == room.race ==>
      (command.Loaded? ==> room.phase != Lobby) && (command.Finish? ==> Committed(room))
  }

  lemma QueueTimely(c: C.State, command: Command, room: Room)
    requires TimelyOk(c, room) && TimelyNow(c, command, room)
    ensures TimelyOk(C.Queue(c, command), room)
  {
  }

  // What a client knows, as one predicate.

  ghost predicate Knows(c: C.State, room: Room, past: seq<Room>) {
    BufferOk(c, past) && OnceOk(c) && -1 <= c.slot < 4 && ViewOk(c, past) && GameOk(c, past) && TimelyOk(c, room)
  }

  ghost predicate Sound(c: C.State, done: seq<Processed>, room: Room, past: seq<Room>) {
    StreamOk(c, done, room.race, past) && Knows(c, room, past)
  }

  /** Apart from the stream, only these fields may differ. */
  predicate SameKnowledge(c: C.State, c': C.State) {
    && c'.slot == c.slot && c'.race == c.race && c'.game == c.game && c'.snapshotSeq == c.snapshotSeq
    && c'.open == c.open && c'.view == c.view && c'.buffer == c.buffer && c'.car == c.car && c'.requests == c.requests
    && c'.history.prepared == c.history.prepared && c'.history.located == c.history.located
    && c'.history.entered == c.history.entered && c'.history.taken == c.history.taken
  }

  lemma SameKnowledgeOk(c: C.State, c': C.State, past: seq<Room>)
    requires ViewOk(c, past) && GameOk(c, past) && BufferOk(c, past) && SameKnowledge(c, c')
    ensures ViewOk(c', past) && GameOk(c', past) && BufferOk(c', past)
  {
  }

  lemma QueueKnowledge(c: C.State, command: Command)
    ensures SameKnowledge(c, C.Queue(c, command))
  {
  }

  lemma MarkedShape(c: C.State, command: Command)
    ensures SameStream(C.Queue(c, command), Marked(c, command)) && SameKnowledge(c, Marked(c, command))
    ensures Marked(c, command).history.issued == C.Queue(c, command).history.issued
  {
    hide C.Queue;
    QueueKnowledge(c, command);
  }

  lemma MailsKeptTransitive(a: C.State, b: C.State, c: C.State)
    requires MailsKept(a, b) && MailsKept(b, c)
    ensures MailsKept(a, c)
  {
  }

  lemma MarkedSound(c: C.State, command: Command, done: seq<Processed>, room: Room, past: seq<Room>)
    requires Sound(c, done, room, past) && c.slot >= 0
    requires FirstOfKind(c, command) && TimelyNow(c, command, room)
    ensures Sound(Marked(c, command), done, room, past) && MailsKept(c, Marked(c, command))
  {
    hide StreamOk, OnceOk, ViewOk, GameOk, BufferOk, TimelyOk, FirstOfKind, TimelyNow, MailsKept, SameStream, Marked,
      C.Queue;
    var q, c' := C.Queue(c, command), Marked(c, command);
    MarkedShape(c, command);
    QueueStream(c, command, done, room.race, past);
    SameStreamOk(q, c', done, room.race, past);
    MailsKeptTransitive(c, q, c');
    SameKnowledgeOk(c, c', past);
    assert IssuedOk(c) by { StreamIssued(c, done, room.race, past); }
    QueueOnce(c, command);
    QueueTimely(c, command, room);
    SameTimely(q, c', room);
  }

  lemma StreamIssued(c: C.State, done: seq<Processed>, race: nat, past: seq<Room>)
    requires StreamOk(c, done, race, past)
    ensures IssuedOk(c)
  {
  }

  lemma SameTimely(c: C.State, c': C.State, room: Room)
    requires TimelyOk(c, room) && c'.history.issued == c.history.issued
    ensures TimelyOk(c', room)
  {
  }

  // One client's step in the system.

  lemma AfterClientOk(s: System, n: nat, reply: C.Reply)
    requires Ok(s) && n in s.clients && reply.client.address == s.clients[n].address
    requires var c, c' := s.clients[n], reply.client;
      && ClientOk(n, AfterClient(s, n, reply))
      && (c.token != 0 ==> c'.token == c.token && MailsKept(c, c'))
      && (forall m :: m in reply.sent ==> m.ToServer? && MailOk(m, AfterClient(s, n, reply)))
    ensures Ok(AfterClient(s, n, reply))
  {
    hide PastOk, SeatedOk, PastSeatedOk, Invariant, StatusOk, OwnersOk, ClientOk, MailOk, MailsKept;
    var s' := AfterClient(s, n, reply);
    OtherMail(s, n, reply);
    forall k | k in s'.clients ensures ClientOk(k, s') {
      if k != n {
        OtherClient(s, n, reply, k);
      }
    }
    OwnersKept(s, n, reply);
  }

  lemma OtherClient(s: System, n: nat, reply: C.Reply, k: nat)
    requires n in s.clients && k in s.clients && k != n && ClientOk(k, s)
    ensures ClientOk(k, AfterClient(s, n, reply))
  {
  }

  lemma OwnersKept(s: System, n: nat, reply: C.Reply)
    requires OwnersOk(s.owners, s.processed, s.clients) && n in s.clients
    requires s.clients[n].token != 0 ==> reply.client.token == s.clients[n].token
    ensures OwnersOk(s.owners, s.processed, AfterClient(s, n, reply).clients)
  {
  }

  lemma OtherMail(s: System, n: nat, reply: C.Reply)
    requires Ok(s) && n in s.clients && reply.client.address == s.clients[n].address
    requires var c, c' := s.clients[n], reply.client;
      c.token != 0 ==> c'.token == c.token && MailsKept(c, c')
    ensures forall m :: m in s.net ==> MailOk(m, AfterClient(s, n, reply))
  {
    hide PastOk, SeatedOk, PastSeatedOk, Invariant, StatusOk, CommandMailOk, StreamOk, ViewOk, GameOk, OnceOk, TimelyOk;
    var s' := AfterClient(s, n, reply);
    forall m | m in s.net ensures MailOk(m, s') {
      assert MailOk(m, s);
      match m {
        case ToClient(to, p) =>
        case ToServer(_, p) =>
          if p.body.Reliable? && s.owners[p.token] == n {
            assert CommandMailOk(p, s.clients[n]);
            assert s.clients[n].token == p.token by { MailToken(p, s.clients[n]); }
          }
      }
    }
  }

  lemma MailToken(p: Packet, c: C.State)
    requires p.body.Reliable? && CommandMailOk(p, c)
    ensures c.token == p.token
  {
  }
}
