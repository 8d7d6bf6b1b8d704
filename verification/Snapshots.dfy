/** What clients take, and what their interpolation buffers hold, in every run. */
module Snapshots {
  import opened Words
  import opened Messages
  import opened Rooms
  import opened RoomInvariants
  import opened RoomSteps
  import opened RoomMail
  import opened Network
  import opened NetworkTheorems
  import opened SystemTheorems
  import opened Progress
  import C = Clients

  // What a client has taken.

  lemma {:induction false} QueueAllTaken(c: C.State, commands: seq<Command>)
    ensures C.QueueAll(c, commands).history.taken == c.history.taken
  {
    hide C.Queue;
    if commands != [] {
      var k := |commands| - 1;
      QueueAllTaken(c, commands[..k]);
      QueueTaken(C.QueueAll(c, commands[..k]), commands[k]);
    }
  }

  lemma QueueTaken(c: C.State, command: Command)
    ensures C.Queue(c, command).history.taken == c.history.taken
    ensures C.Queue(c, command).snapshotSeq == c.snapshotSeq
  {
  }

  /** The record of a snapshot. */
  function Record(p: Packet): C.Taken
    requires p.body.Snapshot?
  {
    C.Taken(p.number, p.body.view.time)
  }

  lemma TakeSnapshotTaken(c: C.State, p: Packet)
    requires p.body.Snapshot?
    ensures C.TakeSnapshot(c, p).history.taken == c.history.taken + [Record(p)]
  {
    hide C.Queue, C.AckedCount, C.Entries, C.Newest;
    var c1 := C.Acknowledge(c.(snapshotSeq := p.number), p.ack);
    var c2 := if Same(p.race, c.race) then c1 else C.ChangeRace(c1, p.race, p.ack);
    assert c2.history.taken == c.history.taken && c2.snapshotSeq == p.number;
    var c3 := C.Observe(c2, p.body.view);
    QueueTaken(c3, Arm(c3.view.start));
  }

  lemma SendsTaken(c: C.State, f: C.Frame)
    ensures C.SendSelection(c).history.taken == C.SendLoaded(c, f).history.taken == c.history.taken
    ensures C.SendFinish(c).history.taken == c.history.taken
  {
    hide C.Queue;
    QueueTaken(c, Select(c.car));
    QueueTaken(c, Loaded(f.x, f.y, f.orientation));
    QueueTaken(c, Finish);
  }

  lemma SetupTaken(c: C.State, reached: bool)
    ensures C.PrepareRace(c).history.taken == C.Locate(c).history.taken == c.history.taken
    ensures C.EnterRace(c, reached).history.taken == c.history.taken
  {
    hide C.PrepareWrites, C.LocateWrites;
  }

  lemma FrameTaken(c: C.State, f: C.Frame)
    ensures C.StepFrame(c, f).client.history.taken == c.history.taken
  {
    hide C.Queue, C.SendSelection, C.SendLoaded, C.SendFinish, C.PrepareRace, C.Locate, C.EnterRace, C.Released;
    if !c.attached || c.game == C.Offline {
    } else {
      match c.game
      case Waiting =>
        SendsTaken(c, f);
        SetupTaken(C.SendSelection(c), false);
      case Prepare => SetupTaken(c, false);
      case Location =>
        SendsTaken(c, f);
        SetupTaken(C.SendLoaded(c, f), f.reached);
      case Race => SendsTaken(c, f);
      case Standings => QueueTaken(c, Next);
      case _ =>
    }
  }

  lemma ReceiveTaken(c: C.State, p: Packet)
    ensures C.Receive(c, p).client.history.taken == c.history.taken + if Takes(c, p) then [Record(p)] else []
  {
    hide C.TakeSnapshot, PlausibleView;
    if p.body.Snapshot? {
      TakeSnapshotTaken(c, p);
    }
  }

  /** The history of taken snapshots, which the buffer is described by, grows by exactly the record of each snapshot
      that the client accepts, and at no other event. */
  lemma TakenExactly(s: System, e: Event, n: nat)
    requires Enabled(s, e) && n in s.clients
    ensures n in Step(s, e).clients
    ensures Step(s, e).clients[n].history.taken ==
      s.clients[n].history.taken
      + if e.ClientReceives? && e.nonce == n && Takes(s.clients[n], e.packet) then [Record(e.packet)] else []
  {
    hide RoomWindow, ClientWindow, Receive, Tick, PingAll, Close, C.Receive, C.StepFrame, C.QueueAll, Executes, Seats,
      Takes;
    match e {
      case ClientReceives(m, p) => ReceiveTaken(s.clients[m], p);
      case ClientTicks(m, _, _, _, _) => QueueAllTaken(s.clients[m].(requests := []), s.clients[m].requests);
      case ClientFrames(m, f) => FrameTaken(s.clients[m], f);
      case _ =>
    }
  }

  // Times.

  /** The record carries the time at which that snapshot was published. */
  predicate OnTime(t: C.Taken, times: seq<nat>) {
    1 <= t.number <= |times| && t.time == times[t.number - 1]
  }

  predicate AllOnTime(taken: seq<C.Taken>, times: seq<nat>) {
    forall k :: 0 <= k < |taken| ==> OnTime(taken[k], times)
  }

  ghost predicate MailOnTime(m: Mail, times: seq<nat>) {
    m.ToClient? && m.packet.body.Snapshot? ==> OnTime(Record(m.packet), times)
  }

  ghost predicate TimesOk(s: System) {
    && |s.times| == |s.past|
    && (forall m :: m in s.net ==> MailOnTime(m, s.times))
    && forall n :: n in s.clients ==> AllOnTime(s.clients[n].history.taken, s.times)
  }

  lemma PastLength(s: System)
    requires Ok(s)
    ensures |s.past| == s.room.snapshotSeq
  {
    hide Invariant, SeatedOk, AddressOk, PastSeatedOk, NetOk, OwnersOk, StatusOk, ClientOk;
  }

  /** A step of the room that has published at most one snapshot, at this time. */
  lemma RoomTimes(s: System, s': System, o: Outcome, time: nat)
    requires Ok(s) && TimesOk(s) && Dated(s.room, o, time) && o.room.snapshotSeq <= s.room.snapshotSeq + 1
    requires s'.net == s.net + o.sent && s'.clients == s.clients
    requires s'.past == if o.room.snapshotSeq > s.room.snapshotSeq then s.past + [o.room] else s.past
    requires s'.times == if |s'.past| > |s.past| then s.times + [time] else s.times
    ensures TimesOk(s')
  {
    hide Ok, Dated;
    PastLength(s);
    forall m | m in s'.net ensures MailOnTime(m, s'.times) {
      if m in s.net {
        assert MailOnTime(m, s.times);
      } else {
        DatedOnTime(s, o, time, m);
      }
    }
    forall n | n in s'.clients ensures AllOnTime(s'.clients[n].history.taken, s'.times) {
      assert AllOnTime(s.clients[n].history.taken, s.times);
    }
  }

  lemma DatedOnTime(s: System, o: Outcome, time: nat, m: Mail)
    requires Dated(s.room, o, time) && m in o.sent && |s.times| == s.room.snapshotSeq
    ensures m.ToClient? && (m.packet.body.Snapshot? ==> o.room.snapshotSeq > s.room.snapshotSeq)
    ensures MailOnTime(m, s.times + [time])
  {
  }

  lemma RoomStepTimes(s: System, e: Event)
    requires Ok(s) && Enabled(s, e) && TimesOk(s)
    requires e.RoomReceives? || e.RoomTicks? || e.RoomPings? || e.RoomCloses?
    ensures TimesOk(Step(s, e))
  {
    hide Ok, RoomWindow, Receive, Tick, PingAll, Close, Executes, Seats, TimesOk, Dated;
    match e {
      case RoomReceives(from, p, at, token) =>
        var o := Receive(s.room, from, p, at, token);
        ReceiveDated(s.room, from, p, at, token);
        OneSnapshot(s, from, p, at, token);
        RoomTimes(s, Step(s, e), o, at.published);
      case RoomTicks(now, published) =>
        TickDated(s.room, now, published);
        TickOutgoing(s.room, now, published);
        RoomTimes(s, Step(s, e), Tick(s.room, now, published), published);
      case RoomPings(now) =>
        OthersDated(s.room, now);
        RoomTimes(s, Step(s, e), PingAll(s.room, now), 0);
      case RoomCloses =>
        OthersDated(s.room, 0);
        RoomTimes(s, Step(s, e), Close(s.room), 0);
    }
  }

  lemma OneSnapshot(s: System, from: nat, p: Packet, at: Times, token: nat)
    requires Ok(s) && Enabled(s, RoomReceives(from, p, at, token))
    ensures Receive(s.room, from, p, at, token).room.snapshotSeq <= s.room.snapshotSeq + 1
  {
    hide Ok, RoomWindow;
    StepOk(s, RoomReceives(from, p, at, token));
    PastLength(s);
    PastLength(Step(s, RoomReceives(from, p, at, token)));
  }

  lemma StepTimes(s: System, e: Event)
    requires Ok(s) && Enabled(s, e) && TimesOk(s)
    ensures TimesOk(Step(s, e))
  {
    hide Ok, Step, Takes;
    var s' := Step(s, e);
    if e.RoomReceives? || e.RoomTicks? || e.RoomPings? || e.RoomCloses? {
      RoomStepTimes(s, e);
    } else {
      ClientStepKeeps(s, e);
      forall m | m in s'.net ensures MailOnTime(m, s'.times) {
        if m in s.net {
          assert MailOnTime(m, s.times);
        }
      }
      forall n | n in s'.clients ensures AllOnTime(s'.clients[n].history.taken, s'.times) {
        if n in s.clients {
          TakenExactly(s, e, n);
          assert AllOnTime(s.clients[n].history.taken, s.times);
          if e.ClientReceives? && e.nonce == n && Takes(s.clients[n], e.packet) {
            TakesFacts(s, n, e.packet);
            assert MailOnTime(ToClient(s.clients[n].address, e.packet), s.times);
          }
        }
      }
    }
  }

  lemma ClientStepKeeps(s: System, e: Event)
    requires Enabled(s, e) && !e.RoomReceives? && !e.RoomTicks? && !e.RoomPings? && !e.RoomCloses?
    ensures var s' := Step(s, e);
      && s'.times == s.times && s'.past == s.past
      && (forall m :: m in s'.net && m !in s.net ==> m.ToServer?)
      && (forall n :: n in s'.clients && n !in s.clients ==> s'.clients[n].history.taken == [])
  {
    hide RoomWindow, ClientWindow, C.TakeSnapshot, C.QueueAll, PlausibleView, C.Queue, C.PrepareRace, C.Locate,
      C.EnterRace, C.Released, C.SendSelection, C.SendLoaded, C.SendFinish;
  }

  lemma {:induction false} RunTimes(s: System, es: seq<Event>)
    requires Ok(s) && TimesOk(s)
    ensures TimesOk(Run(s, es))
  {
    hide Ok, Step, Enabled, TimesOk;
    if es != [] {
      var s1, e := Run(s, es[..|es| - 1]), es[|es| - 1];
      RunTimes(s, es[..|es| - 1]);
      RunOk(s, es[..|es| - 1]);
      if Enabled(s1, e) {
        StepTimes(s1, e);
      }
    }
  }

  // The buffer.

  /** In every run, the snapshots a client has accepted have increasing numbers, the last being the one it shows, each
      recorded with the time at which the room published it; and while it is connected its interpolation buffer holds
      exactly the newest of those that belong to the race it is in, sixteen at most: each sample is that time and the
      players as the room showed them then. */
  lemma BufferIsNewest(room: Room, es: seq<Event>, n: nat)
    requires NewRoom(room) && n in Reached(room, es).clients
    ensures var s := Reached(room, es);
      var c := s.clients[n];
      && TakenOk(c, s.past) && AllOnTime(c.history.taken, s.times)
      && (c.snapshotSeq > 0 ==> s.past[c.snapshotSeq - 1].race == c.race
                                && c.view == ViewOf(s.past[c.snapshotSeq - 1], s.times[c.snapshotSeq - 1]))
      && (c.open ==> Buffers(c.buffer, OfRace(c.history.taken, c.race, s.past), s.past))
      && (!c.open ==> c.buffer == [])
  {
    hide Ok, Reached, NewRoom, Buffers, OfRace, ViewOf;
    var s := Reached(room, es);
    ReachedOk(room, es);
    ReachedTimes(room, es);
    BufferFacts(s, n);
  }

  lemma ReachedTimes(room: Room, es: seq<Event>)
    requires NewRoom(room)
    ensures TimesOk(Reached(room, es))
  {
    hide Ok, NewRoom;
    NewRoomOk(room);
    RunTimes(Start(room), es);
  }

  lemma BufferFacts(s: System, n: nat)
    requires Ok(s) && TimesOk(s) && n in s.clients
    ensures var c := s.clients[n];
      && TakenOk(c, s.past) && AllOnTime(c.history.taken, s.times)
      && (c.snapshotSeq > 0 ==> 0 < c.snapshotSeq <= |s.times| == |s.past| && s.past[c.snapshotSeq - 1].race == c.race
                                && c.view == ViewOf(s.past[c.snapshotSeq - 1], s.times[c.snapshotSeq - 1]))
      && (c.open ==> Buffers(c.buffer, OfRace(c.history.taken, c.race, s.past), s.past))
      && (!c.open ==> c.buffer == [])
  {
    hide PastOk, SeatedOk, AddressOk, PastSeatedOk, OwnersOk, NetOk, Invariant, StatusOk, StreamOk, OnceOk, TimelyOk,
      GameOk, Buffers, OfRace, ViewOf;
    var c := s.clients[n];
    assert ClientOk(n, s);
    if c.snapshotSeq > 0 {
      assert OnTime(c.history.taken[|c.history.taken| - 1], s.times);
    }
  }
}
