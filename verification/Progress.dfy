/** The command stream cannot be wedged. */
module Progress {
  import opened Words
  import opened Messages
  import opened Rooms
  import opened RoomInvariants
  import opened RoomSteps
  import opened Network
  import opened ClientMoves
  import opened NetworkTheorems
  import opened SystemTheorems
  import C = Clients

  /** Slot `i` holds the player of this connected client, both are in the same race, and the room's counter is
      the number at the front of the client's queue or one less. */
  ghost predicate Linked(r: Room, i: nat, c: C.State) {
    && i < 4 && c.slot >= 0 && c.race == r.race && c.pending != [] && QueueOk(c)
    && Occupied(r.players[i]) && c.token == r.players[i].token && c.address == r.players[i].address
    && c.session == r.session
    && Base(c) <= r.players[i].commandSeq <= Base(c) + 1
  }

  function Front(c: C.State): Packet
    requires c.pending != []
  {
    C.Stamped(c, c.pending[0].number, Reliable(c.pending[0].command)).packet
  }

  lemma FrontSender(r: Room, i: nat, c: C.State)
    requires Invariant(r) && Linked(r, i, c)
    ensures Sender(r, c.address, Front(c)) == i
  {
  }

  /** In every run, a connected client with commands in its queue is linked to its player, if that player is still
      present and both are in the same race. */
  lemma ReachedLinked(room: Room, es: seq<Event>, n: nat, i: nat)
    requires NewRoom(room) && i < 4
    requires var s := Reached(room, es);
      && n in s.clients
      && var c, p := s.clients[n], s.room.players[i];
         c.slot >= 0 && c.pending != [] && c.race == s.room.race && Occupied(p) && p.token == c.token
    ensures var s := Reached(room, es);
      Invariant(s.room) && Linked(s.room, i, s.clients[n])
  {
    hide Ok, Reached, NewRoom, Invariant;
    ReachedOk(room, es);
    OkLinked(Reached(room, es), n, i);
  }

  lemma OkLinked(s: System, n: nat, i: nat)
    requires Ok(s) && n in s.clients && i < 4
    requires var c, p := s.clients[n], s.room.players[i];
      c.slot >= 0 && c.pending != [] && c.race == s.room.race && Occupied(p) && p.token == c.token
    ensures Invariant(s.room) && Linked(s.room, i, s.clients[n])
    ensures s.clients[n].token != 0 && s.clients[n].token in s.processed
    ensures FrontOk(s.clients[n], s.processed[s.clients[n].token])
  {
    hide Invariant, PastOk, PastSeatedOk, NetOk, StatusOk, ViewOk, GameOk, OnceOk, TimelyOk, IssuedOk, DoneOk, AckedOk,
      ClearedOk, FutureAckOk, BufferOk;
    assert ClientOk(n, s);
  }

  // Delivering the front command.

  /** The command at the front of the queue has been executed. */
  predicate FrontDone(c: C.State, done: seq<Processed>)
    requires c.pending != []
  {
    WasExecuted(done, C.Issued(c.race, c.pending[0].number, c.pending[0].command))
  }

  lemma SeatedCount(s: System, i: nat)
    requires Ok(s) && i < 4 && Occupied(s.room.players[i])
    ensures s.room.players[i].token in s.processed
    ensures s.room.players[i].commandSeq == |s.processed[s.room.players[i].token]|
  {
    hide Invariant, PastOk, PastSeatedOk, NetOk, StatusOk, ClientOk, OwnersOk, AddressOk;
  }

  lemma FrontEnabled(r: Room, i: nat, c: C.State)
    requires Invariant(r) && !r.closed && Linked(r, i, c)
    ensures RoomWindow(r, c.address, Front(c))
    ensures Executes(r, c.address, Front(c)) <==> r.players[i].commandSeq == Base(c)
  {
    hide Invariant;
    var p := Front(c);
    FrontSender(r, i, c);
    WindowedComparison(p.number, r.players[i].commandSeq);
    WindowedComparison(p.number, r.players[i].commandSeq + 1);
  }

  /** Whatever the front command says, and whether or not it is valid, after one delivery it has been executed, nothing
      after it has, and the player's counter, if it is still there, is at its number. */
  lemma FrontExecuted(s: System, n: nat, i: nat, at: Times, token: nat)
    requires Ok(s) && !s.room.closed && n in s.clients && token !in s.owners
    requires Linked(s.room, i, s.clients[n])
    requires ToServer(s.clients[n].address, Front(s.clients[n])) in s.net
    ensures var c, e := s.clients[n], RoomReceives(s.clients[n].address, Front(s.clients[n]), at, token);
      && Enabled(s, e)
      && var s' := Step(s, e);
         && FrontDone(c, DoneBy(s', c.token)) && |DoneBy(s', c.token)| == c.pending[0].number
         && forall j :: 0 <= j < 4 && Occupied(s'.room.players[j]) && s'.room.players[j].token == c.token ==>
              s'.room.players[j].commandSeq == c.pending[0].number
  {
    hide Ok, Receive, Executes, RoomWindow, Invariant, Sender, AfterReceive, QueueOk;
    var c := s.clients[n];
    OkLinked(s, n, i);
    FrontEnabled(s.room, i, c);
    FrontSender(s.room, i, c);
    SeatedCount(s, i);
    FrontReceived(s, Front(c), at, token);
    assert c.pending[0].number == Base(c) + 1 by { FrontNumber(c); }
    var e := RoomReceives(c.address, Front(c), at, token);
    StepOk(s, e);
    SeatedCounts(Step(s, e));
  }

  lemma SeatedCounts(s: System)
    requires Ok(s)
    ensures forall j :: 0 <= j < 4 && Occupied(s.room.players[j]) ==>
      s.room.players[j].commandSeq == |DoneBy(s, s.room.players[j].token)|
  {
    hide Ok;
    forall j | 0 <= j < 4 && Occupied(s.room.players[j])
      ensures s.room.players[j].commandSeq == |DoneBy(s, s.room.players[j].token)|
    {
      SeatedCount(s, j);
    }
  }

  lemma FrontNumber(c: C.State)
    requires QueueOk(c) && c.pending != []
    ensures c.pending[0].number == Base(c) + 1
  {
  }

  lemma FrontReceived(s: System, p: Packet, at: Times, token: nat)
    requires p.body.Reliable? && p.token in s.processed
    ensures forall from :: Executes(s.room, from, p) ==>
      && Sender(s.room, from, p) < 4
      && DoneBy(AfterReceive(s, from, p, at, token), p.token) == s.processed[p.token] + [Execution(s.room, from, p)]
    ensures forall from :: !Executes(s.room, from, p) ==>
      DoneBy(AfterReceive(s, from, p, at, token), p.token) == s.processed[p.token]
  {
    hide Receive;
  }

  // Snapshots taken afterwards.

  /** From a certain snapshot on, every one that shows the player counts at least so many of its commands. */
  predicate SnapshotsCount(past: seq<Room>, since: nat, token: nat, count: nat) {
    forall k, i :: since <= k < |past| && 0 <= i < 4 && Occupied(past[k].players[i])
                   && past[k].players[i].token == token ==>
      count <= past[k].players[i].commandSeq
  }

  lemma StepPast(s: System, e: Event)
    requires Enabled(s, e)
    ensures Step(s, e).past == s.past || Step(s, e).past == s.past + [Step(s, e).room]
  {
    hide RoomWindow, ClientWindow, Receive, Tick, PingAll, Close, C.Receive, C.Tick, C.StepFrame, C.Detach, C.Request,
      C.Fail, Executes, Seats;
  }

  lemma CountedStep(s: System, e: Event, since: nat, token: nat, count: nat)
    requires Ok(s) && Enabled(s, e) && since <= |s.past| && count <= |DoneBy(Step(s, e), token)|
    requires SnapshotsCount(s.past, since, token, count)
    ensures SnapshotsCount(Step(s, e).past, since, token, count) && since <= |Step(s, e).past|
  {
    hide Ok, Step, Enabled;
    var s' := Step(s, e);
    StepPast(s, e);
    StepOk(s, e);
    forall k, i | since <= k < |s'.past| && 0 <= i < 4 && Occupied(s'.past[k].players[i])
                  && s'.past[k].players[i].token == token
      ensures count <= s'.past[k].players[i].commandSeq
    {
      if k == |s.past| {
        SeatedCount(s', i);
      }
    }
  }

  lemma MoreDone(s: System, s': System, n: nat, count: nat)
    requires n in s.clients && s.clients[n].token != 0 && Remembers(s, s', n)
    requires count <= |DoneBy(s, s.clients[n].token)|
    ensures n in s'.clients && s'.clients[n].token == s.clients[n].token
    ensures count <= |DoneBy(s', s.clients[n].token)|
  {
  }

  lemma {:induction false} CountedRun(s: System, es: seq<Event>, n: nat, since: nat, count: nat)
    requires Ok(s) && n in s.clients && s.clients[n].token != 0 && since <= |s.past|
    requires count <= |DoneBy(s, s.clients[n].token)| && SnapshotsCount(s.past, since, s.clients[n].token, count)
    ensures var s' := Run(s, es);
      since <= |s'.past| && SnapshotsCount(s'.past, since, s.clients[n].token, count)
  {
    hide Ok, Step, Enabled, SnapshotsCount, Remembers, DoneBy;
    if es != [] {
      var s1, e := Run(s, es[..|es| - 1]), es[|es| - 1];
      CountedRun(s, es[..|es| - 1], n, since, count);
      if Enabled(s1, e) {
        RunOk(s, es[..|es| - 1]);
        RunRemembers(s, es, n);
        MoreDone(s, Run(s, es), n, count);
        CountedStep(s1, e, since, s.clients[n].token, count);
      }
    }
  }

  // Accepting one of them.

  lemma QueueBase(c: C.State, command: Command)
    ensures Base(C.Queue(c, command)) == Base(c)
  {
  }

  lemma SnapshotBase(c: C.State, p: Packet, done: seq<Processed>)
    requires QueueOk(c) && FrontOk(c, done) && p.body.Snapshot? && p.ack <= |done|
    requires forall k :: 0 <= k < |c.pending| ==> Near(p.ack, c.pending[k].number)
    ensures Base(C.TakeSnapshot(c, p)) >= p.ack
  {
    hide QueueOk, C.Acknowledge, C.Queue, C.Newest, C.Entries;
    var c0 := c.(snapshotSeq := p.number);
    assert QueueOk(c0) by { QueueFrame(c, c0); }
    AckQueue(c0, p.ack);
    var c1 := C.Acknowledge(c0, p.ack);
    var c2 := if Same(p.race, c.race) then c1 else C.ChangeRace(c1, p.race, p.ack);
    var c3 := C.Observe(c2, p.body.view);
    assert Base(c3) >= p.ack;
    QueueBase(c3, Arm(c3.view.start));
  }

  lemma QueueFrame(c: C.State, c': C.State)
    requires QueueOk(c) && c'.pending == c.pending && c'.commandSeq == c.commandSeq && c'.race == c.race
    requires c'.history.issued == c.history.issued
    ensures QueueOk(c')
  {
  }

  lemma MailIsOk(s: System, m: Mail)
    requires Ok(s) && m in s.net
    ensures MailOk(m, s)
  {
    hide Invariant, PastOk, SeatedOk, AddressOk, PastSeatedOk, OwnersOk, StatusOk, ClientOk, MailOk;
  }

  /** The acknowledgement of a snapshot is its room's count of the player's commands. */
  lemma SnapshotAck(s: System, n: nat, p: Packet, since: nat, count: nat)
    requires Ok(s) && n in s.clients && ToClient(s.clients[n].address, p) in s.net
    requires p.body.Snapshot? && p.token == s.clients[n].token && since < p.number
    requires SnapshotsCount(s.past, since, p.token, count)
    ensures p.ack >= count
  {
    hide Ok, ViewOf;
    var m := ToClient(s.clients[n].address, p);
    MailIsOk(s, m);
    var r := s.past[p.number - 1];
    var i :| 0 <= i < 4 && Occupied(r.players[i]) && m == SnapshotTo(r, i, p.body.view.time);
  }

  /** The client takes the snapshot when it receives it. */
  predicate Takes(c: C.State, p: Packet) {
    c.open && c.game != C.Offline && C.AcceptsSnapshot(c, p)
  }

  lemma TakenBase(s: System, n: nat, p: Packet)
    requires Ok(s) && n in s.clients && Enabled(s, ClientReceives(n, p)) && Takes(s.clients[n], p)
    ensures var c := C.Receive(s.clients[n], p).client;
      Base(c) >= p.ack && forall q :: q in c.pending ==> q.number > p.ack
  {
    hide Ok, QueueOk, FrontOk, C.TakeSnapshot, PlausibleView;
    var c := s.clients[n];
    var s' := Step(s, ClientReceives(n, p));
    assert s'.clients[n] == C.TakeSnapshot(c, p);
    ConnectedFront(s, n);
    SnapshotIsPast(s, n, p);
    SnapshotBase(c, p, s.processed[c.token]);
    StepOk(s, ClientReceives(n, p));
    TakeSnapshotKeeps(c, p);
    ConnectedFront(s', n);
  }

  lemma ConnectedFront(s: System, n: nat)
    requires Ok(s) && n in s.clients && s.clients[n].slot >= 0
    ensures var c := s.clients[n];
      && c.token != 0 && c.token in s.processed && QueueOk(c) && FrontOk(c, s.processed[c.token])
      && forall q :: q in c.pending ==> q.number > Base(c)
  {
    hide Ok, StreamOk, ViewOk, GameOk, OnceOk, TimelyOk, BufferOk, PastOk;
    ConnectedToken(s, n);
    ClientIsSound(s, n);
    StreamFront(s.clients[n], s.processed[s.clients[n].token], s.room.race, s.past);
  }

  lemma ConnectedToken(s: System, n: nat)
    requires Ok(s) && n in s.clients && s.clients[n].slot >= 0
    ensures s.clients[n].token != 0
  {
    hide Invariant, PastOk, SeatedOk, AddressOk, PastSeatedOk, NetOk, OwnersOk, StatusOk, StreamOk, ViewOk, GameOk,
      OnceOk, TimelyOk, BufferOk;
    assert ClientOk(n, s);
  }

  lemma StreamFront(c: C.State, done: seq<Processed>, race: nat, past: seq<Room>)
    requires StreamOk(c, done, race, past) && c.slot >= 0
    ensures QueueOk(c) && FrontOk(c, done)
  {
  }

  /** In every run: once the front retransmission of a present player's client has been delivered, that command counts
      as executed, whatever it says and whether or not it is valid; and whatever else happens in between, the next
      snapshot that the client takes from those made since then takes the command off its queue. No content of the
      command, such as an expired ARM, can wedge the stream. */
  lemma StreamProgresses(room: Room, es: seq<Event>, n: nat, i: nat, at: Times, token: nat, more: seq<Event>, p: Packet)
    requires NewRoom(room) && i < 4
    requires var s := Reached(room, es);
      && n in s.clients && !s.room.closed && token !in s.owners
      && var c, q := s.clients[n], s.room.players[i];
         && c.slot >= 0 && c.pending != [] && c.race == s.room.race && Occupied(q) && q.token == c.token
         && ToServer(c.address, Front(c)) in s.net
         && var s' := Reached(room, es + [RoomReceives(c.address, Front(c), at, token)] + more);
            && n in s'.clients && Enabled(s', ClientReceives(n, p)) && Takes(s'.clients[n], p)
              && p.number > s.room.snapshotSeq
    ensures var s := Reached(room, es);
      var c := s.clients[n];
      var s' := Reached(room, es + [RoomReceives(c.address, Front(c), at, token)] + more);
      var c' := C.Receive(s'.clients[n], p).client;
      && FrontDone(c, DoneBy(s', c.token))
      && c.pending[0].number <= Base(c') && forall q :: q in c'.pending ==> q.number > c.pending[0].number
  {
    hide Ok, NewRoom, Run, Step, Enabled, Takes, Front, Remembers, SnapshotsCount, DoneBy;
    var s := Reached(room, es);
    var c := s.clients[n];
    var e := RoomReceives(c.address, Front(c), at, token);
    ReachedOk(room, es);
    OkLinked(s, n, i);
    FrontExecuted(s, n, i, at, token);
    var s1 := Step(s, e);
    StepOk(s, e);
    RunSplit(Start(room), es, [e]);
    RunSplit(Start(room), es + [e], more);
    RunOnce(s, e);
    RunRemembers(s, [e], n);
    var f := c.pending[0].number;
    MoreDone(s, s1, n, 0);
    assert f <= |DoneBy(s1, c.token)|;
    NothingSince(s, c.token, f);
    CountedStep(s, e, s.room.snapshotSeq, c.token, f);
    CountedRun(s1, more, n, s.room.snapshotSeq, f);
    var s2 := Run(s1, more);
    RunOk(s1, more);
    RunRemembers(s1, more, n);
    FrontStaysDone(s1, s2, n, c);
    TakesFacts(s2, n, p);
    SnapshotAck(s2, n, p, s.room.snapshotSeq, f);
    TakenBase(s2, n, p);
  }

  lemma NothingSince(s: System, token: nat, count: nat)
    requires Ok(s)
    ensures s.room.snapshotSeq == |s.past| && SnapshotsCount(s.past, s.room.snapshotSeq, token, count)
  {
    hide Invariant, SeatedOk, AddressOk, PastSeatedOk, NetOk, OwnersOk, StatusOk, ClientOk;
  }

  lemma FrontStaysDone(s: System, s': System, n: nat, c: C.State)
    requires n in s.clients && s.clients[n].token == c.token != 0 && Remembers(s, s', n)
    requires c.pending != [] && FrontDone(c, DoneBy(s, c.token))
    ensures n in s'.clients && s'.clients[n].token == c.token && FrontDone(c, DoneBy(s', c.token))
  {
  }

  lemma TakesFacts(s: System, n: nat, p: Packet)
    requires n in s.clients && Enabled(s, ClientReceives(n, p)) && Takes(s.clients[n], p)
    ensures ToClient(s.clients[n].address, p) in s.net
    ensures p.body.Snapshot? && p.token == s.clients[n].token
  {
  }
}
