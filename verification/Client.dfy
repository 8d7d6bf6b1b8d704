/**
  The client as the program keeps it: 32-bit counters and a queue updated in place, without the history that
  `Clients` records for the theorems. Every method is proved to do what `Clients` specifies.
  */
module ClientObjects {
  import opened Words
  import opened Messages
  import opened Clients

  // The 32-bit image of a client, without its history.

  function WrapPending(q: Pending): Pending {
    q.(number := Wrap(q.number))
  }

  function WrapQueue(s: seq<Pending>): (w: seq<Pending>)
    ensures |w| == |s|
    ensures forall k :: 0 <= k < |s| ==> w[k] == WrapPending(s[k])
  {
    seq(|s|, k requires 0 <= k < |s| => WrapPending(s[k]))
  }

  function Core(c: State): State {
    c.(race := Wrap(c.race), commandSeq := Wrap(c.commandSeq), stateSeq := Wrap(c.stateSeq),
       snapshotSeq := Wrap(c.snapshotSeq), pending := WrapQueue(c.pending), history := NO_HISTORY)
  }

  /** Two clients that the program cannot tell apart. */
  predicate Alike(c: State, d: State) {
    && c == d.(race := c.race, commandSeq := c.commandSeq, stateSeq := c.stateSeq, snapshotSeq := c.snapshotSeq,
               pending := c.pending, history := c.history)
    && Same(c.race, d.race) && Same(c.commandSeq, d.commandSeq)
    && Same(c.stateSeq, d.stateSeq) && Same(c.snapshotSeq, d.snapshotSeq)
    && |c.pending| == |d.pending|
    && forall k :: 0 <= k < |c.pending| ==>
         c.pending[k].command == d.pending[k].command && Same(c.pending[k].number, d.pending[k].number)
  }

  lemma CoreAlike(c: State)
    ensures Alike(Core(c), c)
  {
  }

  lemma AlikeCore(c: State, d: State)
    requires Alike(c, d)
    ensures Core(c) == Core(d)
  {
  }

  lemma AlikeTransitive(a: State, b: State, c: State)
    requires Alike(a, b) && Alike(b, c)
    ensures Alike(a, c)
  {
  }

  // Every step respects the image.

  lemma SameNext(m: nat, n: nat)
    requires Same(m, n)
    ensures Same(m + 1, n + 1)
  {
    WrapStep(m);
    WrapStep(n);
  }

  lemma QueueAlike(c: State, d: State, command: Command)
    requires Alike(c, d)
    ensures Alike(Queue(c, command), Queue(d, command))
  {
    hide Same;
    SameNext(c.commandSeq, d.commandSeq);
  }

  lemma {:induction false} QueueAllAlike(c: State, d: State, commands: seq<Command>)
    requires Alike(c, d)
    ensures Alike(QueueAll(c, commands), QueueAll(d, commands))
  {
    hide Alike, Queue;
    if commands != [] {
      var k := |commands| - 1;
      QueueAllAlike(c, d, commands[..k]);
      QueueAlike(QueueAll(c, commands[..k]), QueueAll(d, commands[..k]), commands[k]);
    }
  }

  lemma AckedCountAlike(p: seq<Pending>, q: seq<Pending>, ack: nat, ack': nat)
    requires |p| == |q| && Same(ack, ack')
    requires forall k :: 0 <= k < |p| ==> Same(p[k].number, q[k].number)
    ensures AckedCount(p, ack) == AckedCount(q, ack')
  {
  }

  lemma AcknowledgeAlike(c: State, d: State, ack: nat, ack': nat)
    requires Alike(c, d) && Same(ack, ack')
    ensures Alike(Acknowledge(c, ack), Acknowledge(d, ack'))
  {
    hide AckedCount, Entries, Same;
    AckedCountAlike(c.pending, d.pending, ack, ack');
  }

  lemma ChangeRaceAlike(c: State, d: State, race: nat, race': nat, ack: nat, ack': nat)
    requires Alike(c, d) && Same(race, race') && Same(ack, ack')
    ensures Alike(ChangeRace(c, race, ack), ChangeRace(d, race', ack'))
  {
  }

  lemma ObserveAlike(c: State, d: State, v: View)
    requires Alike(c, d)
    ensures Alike(Observe(c, v), Observe(d, v))
  {
  }

  lemma RearmAlike(c: State, d: State)
    requires Alike(c, d)
    ensures Alike(Rearm(c), Rearm(d))
  {
    hide Queue, Same;
    QueueAlike(c, d, Arm(c.view.start));
  }

  lemma TakeSnapshotAlike(c: State, d: State, p: Packet, q: Packet)
    requires Alike(c, d) && p.body == q.body && p.body.Snapshot?
    requires Same(p.race, q.race) && Same(p.number, q.number) && Same(p.ack, q.ack)
    ensures Alike(TakeSnapshot(c, p), TakeSnapshot(d, q))
  {
    hide Alike, Acknowledge, ChangeRace, Observe, Rearm;
    var c0, d0 := c.(snapshotSeq := p.number), d.(snapshotSeq := q.number);
    assert Alike(c0, d0) && (Same(p.race, c.race) <==> Same(q.race, d.race))
      by { NumberAlike(c, d, p.number, q.number); }
    AcknowledgeAlike(c0, d0, p.ack, q.ack);
    var c1, d1 := Acknowledge(c0, p.ack), Acknowledge(d0, q.ack);
    ChangeRaceAlike(c1, d1, p.race, q.race, p.ack, q.ack);
    var c2 := if Same(p.race, c.race) then c1 else ChangeRace(c1, p.race, p.ack);
    var d2 := if Same(q.race, d.race) then d1 else ChangeRace(d1, q.race, q.ack);
    ObserveAlike(c2, d2, p.body.view);
    RearmAlike(Observe(c2, p.body.view), Observe(d2, q.body.view));
  }

  lemma NumberAlike(c: State, d: State, m: nat, n: nat)
    requires Alike(c, d) && Same(m, n)
    ensures Alike(c.(snapshotSeq := m), d.(snapshotSeq := n)) && Same(c.race, d.race)
  {
  }

  /** Receiving the 32-bit image of a packet in the 32-bit image of a client gives the image of the result,
      across any number of wrap-arounds. */
  lemma ReceiveAlike(c: State, d: State, p: Packet, q: Packet)
    requires Alike(c, d) && p == q.(race := p.race, number := p.number, ack := p.ack)
    requires Same(p.race, q.race) && Same(p.number, q.number) && Same(p.ack, q.ack)
    ensures Alike(Receive(c, p).client, Receive(d, q).client)
  {
    hide ReceiveAddressed, Alike;
    AlikeFields(c, d);
    ReceiveAddressedAlike(c, d, p, q);
    if Welcomes(c, p) && c.slot < 0 {
      WelcomedAlike(c, d, p, q);
    }
    FailAlike(c, d);
  }

  lemma FailAlike(c: State, d: State)
    requires Alike(c, d)
    ensures Alike(Fail(c), Fail(d))
  {
  }

  lemma WelcomedAlike(c: State, d: State, p: Packet, q: Packet)
    requires Alike(c, d) && p.body.Welcome? && p == q.(race := p.race, number := p.number, ack := p.ack)
    requires Same(p.race, q.race) && Same(p.ack, q.ack)
    ensures Alike(c.(slot := p.body.slot, session := p.session, token := p.token, race := p.race, commandSeq := p.ack),
                  d.(slot := q.body.slot, session := q.session, token := q.token, race := q.race, commandSeq := q.ack))
  {
  }

  lemma ReceiveAddressedAlike(c: State, d: State, p: Packet, q: Packet)
    requires Alike(c, d) && p == q.(race := p.race, number := p.number, ack := p.ack)
    requires Same(p.race, q.race) && Same(p.number, q.number) && Same(p.ack, q.ack)
    ensures Alike(ReceiveAddressed(c, p).client, ReceiveAddressed(d, q).client)
  {
    hide TakeSnapshot, PlausibleView;
    if p.body.Snapshot? {
      TakeSnapshotAlike(c, d, p, q);
    }
  }

  lemma TickAlike(c: State, d: State, hello: bool, retry: bool, ping: bool, stamp: nat)
    requires Alike(c, d)
    ensures Alike(Tick(c, hello, retry, ping, stamp).client, Tick(d, hello, retry, ping, stamp).client)
  {
    hide QueueAll;
    QueueAllAlike(c.(requests := []), d.(requests := []), c.requests);
  }

  lemma SendsAlike(c: State, d: State, f: Frame)
    requires Alike(c, d)
    ensures Alike(SendSelection(c), SendSelection(d))
    ensures Alike(SendLoaded(c, f), SendLoaded(d, f))
    ensures Alike(SendFinish(c), SendFinish(d))
  {
    hide Queue, Same;
    QueueAlike(c, d, Select(c.car));
    QueueAlike(c, d, Loaded(f.x, f.y, f.orientation));
    QueueAlike(c, d, Finish);
  }

  /** Recording the setup changes only the game state. */
  lemma PrepareAlike(c: State, d: State)
    requires Alike(c, d)
    ensures Alike(PrepareRace(c), PrepareRace(d))
  {
    hide PrepareWrites, Alike;
    OnlyGame(c, d, PrepareRace(c), PrepareRace(d), Prepare);
  }

  lemma LocateAlike(c: State, d: State)
    requires Alike(c, d)
    ensures Alike(Locate(c), Locate(d))
  {
    hide LocateWrites, Alike;
    OnlyGame(c, d, Locate(c), Locate(d), Location);
  }

  lemma EnterAlike(c: State, d: State, reached: bool)
    requires Alike(c, d)
    ensures Alike(EnterRace(c, reached), EnterRace(d, reached))
  {
    hide Alike;
    OnlyGame(c, d, EnterRace(c, reached), EnterRace(d, reached), Race);
  }

  lemma OnlyGame(c: State, d: State, c': State, d': State, game: Game)
    requires Alike(c, d)
    requires c' == c.(game := game, history := c'.history) && d' == d.(game := game, history := d'.history)
    ensures Alike(c', d')
  {
  }

  lemma AlikeFields(c: State, d: State)
    requires Alike(c, d)
    ensures c.attached == d.attached && c.game == d.game && c.slot == d.slot && c.view == d.view && c.car == d.car
    ensures c.open == d.open && c.nonce == d.nonce && c.session == d.session && c.token == d.token
  {
  }

  lemma PlainAlike(c: State, d: State, game: Game, car: nat)
    requires Alike(c, d)
    ensures Alike(c.(game := game, car := car), d.(game := game, car := car))
  {
  }

  lemma MoveAlike(c: State, d: State)
    requires Alike(c, d)
    ensures Alike(c.(stateSeq := c.stateSeq + 1), d.(stateSeq := d.stateSeq + 1))
  {
  }

  lemma SetupFrameAlike(c: State, d: State, f: Frame)
    requires Alike(c, d) && c.attached && (c.game == Waiting || c.game == Prepare || c.game == Location)
    ensures Alike(StepFrame(c, f).client, StepFrame(d, f).client)
  {
    hide Alike, SendSelection, SendLoaded, PrepareRace, Locate, EnterRace, Released;
    AlikeFields(c, d);
    SendsAlike(c, d, f);
    if c.game == Waiting {
      var c1, d1 := SendSelection(c), SendSelection(d);
      AlikeFields(c1, d1);
      PrepareAlike(c1, d1);
    } else if c.game == Prepare {
      LocateAlike(c, d);
    } else {
      var c1, d1 := SendLoaded(c, f), SendLoaded(d, f);
      AlikeFields(c1, d1);
      EnterAlike(c1, d1, f.reached);
    }
  }

  lemma FrameAlike(c: State, d: State, f: Frame)
    requires Alike(c, d)
    ensures Alike(StepFrame(c, f).client, StepFrame(d, f).client)
  {
    hide Alike, SendFinish, Queue;
    AlikeFields(c, d);
    if !c.attached || c.game == Offline {
    } else if c.game == Waiting || c.game == Prepare || c.game == Location {
      hide StepFrame;
      SetupFrameAlike(c, d, f);
    } else if c.game == Race {
      SendsAlike(c, d, f);
      PlainAlike(SendFinish(c), SendFinish(d), Crossed, SendFinish(c).car);
      AlikeFields(SendFinish(c), SendFinish(d));
      MoveAlike(c, d);
    } else if c.game == Standings {
      QueueAlike(c, d, Next);
    } else {
      var c' := StepFrame(c, f).client;
      PlainAlike(c, d, c'.game, c'.car);
    }
  }

  /** The client object. */
  class Client {
    const address: nat
    const nonce: nat
    const key: seq<nat>
    var attached: bool
    var open: bool
    var slot: int
    var session: nat
    var token: nat
    var race: nat
    var commandSeq: nat
    var stateSeq: nat
    var snapshotSeq: nat
    var view: View
    var armedTime: nat
    var pending: seq<Pending>
    var game: Game
    var car: nat
    var selectedSent: bool
    var loadedSent: bool
    var finishedSent: bool
    var requests: seq<Command>
    var buffer: seq<Sample>

    ghost function Now(): State
      reads this
    {
      State(address, nonce, key, attached, open, slot, session, token, race, commandSeq, stateSeq, snapshotSeq,
            view, armedTime, pending, game, car, selectedSent, loadedSent, finishedSent, requests, buffer, NO_HISTORY)
    }

    ghost predicate Valid()
      reads this
    {
      race < SPACE && commandSeq < SPACE && stateSeq < SPACE && snapshotSeq < SPACE
      && forall k :: 0 <= k < |pending| ==> pending[k].number < SPACE
    }

    constructor (address: nat, nonce: nat, key: seq<nat>)
      ensures Valid() && Now() == Attached(address, nonce, key)
    {
      this.address, this.nonce, this.key, attached, open, slot := address, nonce, key, true, true, -1;
      session, token, race, commandSeq, stateSeq, snapshotSeq := 0, 0, 0, 0, 0, 0;
      view, armedTime, pending, game, car := NO_VIEW, 0, [], Init, 0;
      selectedSent, loadedSent, finishedSent, requests, buffer := false, false, false, [], [];
    }

    /** Puts a command at the end of the queue under the next number, unless the queue is full. */
    method Enqueue(command: Command)
      requires Valid()
      modifies this`commandSeq, this`pending
      ensures Valid()
      ensures Now() == Core(Queue(old(Now()), command))
    {
      ghost var c := Now();
      if slot < 0 || |pending| >= QUEUE_LIMIT {
        NarrowCore(c);
        return;
      }
      commandSeq := (commandSeq + 1) % SPACE;
      pending := pending + [Pending(commandSeq, command)];
      assert pending == WrapQueue(Queue(c, command).pending);
    }

    /** Removes acknowledged commands from the front of the queue. */
    method PopAcknowledged(ack: nat)
      requires Valid() && ack < SPACE
      modifies this`pending
      ensures Valid()
      ensures pending == old(pending)[AckedCount(old(pending), ack)..]
    {
      hide AckedCount, Newer32;
      ghost var n := 0;
      while pending != [] && (ack == pending[0].number || Newer32(ack, pending[0].number))
        invariant n <= |old(pending)| && pending == old(pending)[n..] && Valid()
        invariant AckedCount(old(pending), ack) == n + AckedCount(pending, ack)
        decreases |pending|
      {
        AckedFirst(pending, ack);
        pending := pending[1..];
        n := n + 1;
      }
      AckedFirst(pending, ack);
    }

    /** Appends the sample and forgets the oldest ones beyond the capacity. */
    method BufferSnapshot(sample: Sample)
      modifies this`buffer
      ensures buffer == Newest(old(buffer) + [sample])
    {
      buffer := buffer + [sample];
      ghost var all := buffer;
      ghost var n := 0;
      while |buffer| > BUFFER_LIMIT
        invariant n <= |all| && buffer == all[n..] && (n > 0 ==> |buffer| >= BUFFER_LIMIT)
        decreases |buffer|
      {
        buffer := buffer[1..];
        n := n + 1;
      }
    }

    method ClearSent()
      modifies this`selectedSent, this`loadedSent, this`finishedSent
      ensures Now() == old(Now()).(selectedSent := false, loadedSent := false, finishedSent := false)
    {
      selectedSent, loadedSent, finishedSent := false, false, false;
    }

    method ClearStart()
      modifies this`armedTime, this`view
      ensures Now() == old(Now()).(armedTime := 0, view := old(view).(start := 0))
    {
      armedTime := 0;
      view := view.(start := 0);
    }

    method DoResetGame()
      modifies this`game, this`selectedSent, this`loadedSent, this`finishedSent, this`armedTime, this`view, this`car,
        this`buffer
      ensures Now() == ResetGame(old(Now()))
    {
      hide ResetGame, NO_HISTORY;
      buffer, game, car := [], Init, 0;
      ClearSent();
      ClearStart();
      ResetFields(old(Now()), Now());
    }

    method DoFail()
      modifies this`open, this`game, this`buffer
      ensures Now() == Fail(old(Now()))
    {
      EmptyHistory();
      buffer, open, game := [], false, Offline;
    }

    method TakeAck(number: nat, ack: nat)
      requires Valid() && number < SPACE && ack < SPACE
      modifies this`snapshotSeq, this`pending
      ensures Valid()
      ensures Now() == Plain(Acknowledge(old(Now()).(snapshotSeq := number), ack))
    {
      snapshotSeq := number;
      PopAcknowledged(ack);
    }

    method MoveToRace(to: nat, ack: nat)
      requires Valid() && to < SPACE && ack < SPACE
      modifies this
      ensures Valid()
      ensures Now() == Plain(ChangeRace(old(Now()), to, ack))
    {
      hide ResetGame, Entries;
      ghost var c := Now();
      DoResetGame();
      race, commandSeq, stateSeq, pending := to, ack, 0, [];
    }

    method See(v: View)
      requires Valid()
      modifies this`view, this`buffer
      ensures Valid()
      ensures Now() == Plain(Observe(old(Now()), v))
    {
      view := v;
      BufferSnapshot(Sample(v.time, v.peers));
    }

    /** Accepting a snapshot: acknowledgements, then a possible race change, then the new view, then ARM. */
    method DoTakeSnapshot(p: Packet)
      requires Valid() && p.body.Snapshot? && p.race < SPACE && p.number < SPACE && p.ack < SPACE
      modifies this
      ensures Valid()
      ensures Now() == Core(TakeSnapshot(old(Now()), p))
    {
      hide Plain, Acknowledge, ChangeRace, Observe, Rearm, Core, Alike;
      ghost var c := Now();
      TakeAck(p.number, p.ack);
      ghost var c1 := Acknowledge(c.(snapshotSeq := p.number), p.ack);
      PlainIsAlike(c1);
      assert race == c.race by { AckKeepsRace(c.(snapshotSeq := p.number), p.ack); }
      ghost var c2 := c1;
      if p.race != race {
        ghost var at := Now();
        MoveToRace(p.race, p.ack);
        c2 := ChangeRace(c1, p.race, p.ack);
        ChangeRaceAlike(at, c1, p.race, p.race, p.ack, p.ack);
        PlainIsAlike(ChangeRace(at, p.race, p.ack));
        AlikeTransitive(Now(), ChangeRace(at, p.race, p.ack), c2);
      }
      ghost var at := Now();
      See(p.body.view);
      ghost var c3 := Observe(c2, p.body.view);
      ObserveAlike(at, c2, p.body.view);
      PlainIsAlike(Observe(at, p.body.view));
      AlikeTransitive(Now(), Observe(at, p.body.view), c3);
      RearmAlike(Now(), c3);
      AlikeCore(Rearm(Now()), Rearm(c3));
      DoRearm();
    }

    method DoRearm()
      requires Valid()
      modifies this`commandSeq, this`pending, this`armedTime
      ensures Valid()
      ensures Now() == Core(Rearm(old(Now())))
    {
      ghost var c := Now();
      if view.phase == Countdown && view.start != armedTime {
        Enqueue(Arm(view.start));
        armedTime := view.start;
      } else {
        NarrowCore(c);
      }
    }

    method Join(p: Packet)
      requires Valid() && p.body.Welcome? && p.race < SPACE && p.ack < SPACE
      modifies this`slot, this`session, this`token, this`race, this`commandSeq
      ensures Valid()
      ensures Now() == old(Now()).(slot := p.body.slot, session := p.session, token := p.token, race := p.race,
                                   commandSeq := p.ack)
    {
      slot, session, token, race, commandSeq := p.body.slot, p.session, p.token, p.race, p.ack;
    }

    method HandleAddressed(p: Packet) returns (sent: set<Mail>)
      requires Valid() && p.race < SPACE && p.number < SPACE && p.ack < SPACE && Addresses(Now(), p)
      modifies this
      ensures Valid()
      ensures Now() == Core(ReceiveAddressed(old(Now()), p).client)
      ensures sent == ReceiveAddressed(old(Now()), p).sent
    {
      hide TakeSnapshot, PlausibleView, NO_HISTORY, Core, Fail, AcceptsSnapshot, Newer32;
      NarrowCore(Now());
      NarrowAccepts(Now(), p);
      sent := {};
      if p.body.RoomClosed? {
        DoFail();
        NarrowCore(Now());
      } else if p.body.Ping? {
        sent := {ToServer(address, Packet(session, token, race, 0, 0, Pong(p.body.stamp)))};
      } else if p.body.Snapshot? && PlausibleView(p.body.view) && Newer32(p.number, snapshotSeq)
                && (p.race == race || Newer32(p.race, race)) {
        DoTakeSnapshot(p);
      }
    }

    /** One decoded packet. */
    method ReceivePacket(p: Packet) returns (sent: set<Mail>)
      requires Valid() && p.race < SPACE && p.number < SPACE && p.ack < SPACE
      modifies this
      ensures Valid()
      ensures Now() == Core(Receive(old(Now()), p).client)
      ensures sent == Receive(old(Now()), p).sent
    {
      hide ReceiveAddressed, NO_HISTORY, Core, Fail;
      NarrowCore(Now());
      sent := {};
      if !open || game == Offline {
      } else if slot < 0 && p.body.JoinReject? && p.body.nonce == nonce {
        DoFail();
        NarrowCore(Now());
      } else if p.body.Welcome? && p.body.nonce == nonce && p.body.slot < 4 && p.session != 0 && p.token != 0 {
        if slot < 0 {
          Join(p);
          NarrowCore(Now());
        }
      } else if slot >= 0 && p.session == session && p.token == token {
        sent := HandleAddressed(p);
      }
    }

    /** The sending half of a tick: user requests join the queue, and only the front of the queue is sent. */
    method DoTick(hello: bool, retry: bool, ping: bool, stamp: nat) returns (sent: set<Mail>)
      requires Valid()
      modifies this`requests, this`commandSeq, this`pending
      ensures Valid()
      ensures Now() == Core(Tick(old(Now()), hello, retry, ping, stamp).client)
      ensures sent == FrontMails(Now(), old(Now()), hello, retry, ping, stamp)
    {
      hide NO_HISTORY, Core, QueueAll;
      NarrowCore(Now());
      sent := {};
      if !open || game == Offline {
      } else if slot < 0 {
        if hello {
          sent := {ToServer(address, Packet(session, token, race, 0, 0, Hello(nonce, key)))};
        }
      } else {
        var actions := requests;
        requests := [];
        EnqueueAll(actions);
        sent := SendFront(retry, ping, stamp);
      }
    }

    method SendFront(retry: bool, ping: bool, stamp: nat) returns (sent: set<Mail>)
      ensures sent == (if retry && pending != []
                       then {Stamped(Now(), pending[0].number, Reliable(pending[0].command))} else {})
                      + (if ping then {Stamped(Now(), 0, Ping(stamp))} else {})
    {
      sent := {};
      if pending != [] && retry {
        sent := {ToServer(address, Packet(session, token, race, pending[0].number, 0, Reliable(pending[0].command)))};
      }
      if ping {
        sent := sent + {ToServer(address, Packet(session, token, race, 0, 0, Ping(stamp)))};
      }
    }

    method EnqueueAll(commands: seq<Command>)
      requires Valid()
      modifies this`commandSeq, this`pending
      ensures Valid()
      ensures Now() == Core(QueueAll(old(Now()), commands))
    {
      ghost var c := Now();
      NarrowCore(c);
      for k := 0 to |commands|
        invariant Valid()
        invariant Now() == Core(QueueAll(c, commands[..k]))
      {
        ghost var before := QueueAll(c, commands[..k]);
        CoreAlike(before);
        QueueAlike(Core(before), before, commands[k]);
        AlikeCore(Queue(Core(before), commands[k]), Queue(before, commands[k]));
        Enqueue(commands[k]);
        assert commands[..k + 1][..k] == commands[..k];
      }
      assert commands[..|commands|] == commands;
    }

    // Frames.

    /** The machine types and palettes written for a race, slot by slot. */
    method WriteCars() returns (writes: map<nat, nat>)
      requires 0 <= slot < 4 && |view.peers| == 4
      ensures writes == PrepareWrites(slot, view.peers)
    {
      writes := map[];
      for k := 0 to 4
        invariant writes == CarWrites(slot, view.peers, k)
      {
        if k > 0 {
          writes := writes[0x1131 + 2 * k := view.peers[Local(slot, k)].car];
        }
        writes := writes[0xc41 + 2 * k := Palette(slot, k)];
      }
    }

    method Arrived(f: Frame) returns (released: bool)
      requires |view.peers| == 4 && |view.armed| == 4
      ensures released == Released(view, f.reached)
    {
      var someone, armed := false, true;
      for i := 0 to 4
        invariant someone <==> exists j :: 0 <= j < i && Occupies(view.peers[j].status)
        invariant armed <==> forall j :: 0 <= j < i && Occupies(view.peers[j].status) ==> view.armed[j]
      {
        if Occupies(view.peers[i].status) {
          someone := true;
          if !view.armed[i] {
            armed := false;
          }
        }
      }
      released := view.phase == Racing || (view.phase == Countdown && someone && armed && f.reached);
    }

    method DoSelection()
      requires Valid()
      modifies this`commandSeq, this`pending, this`selectedSent
      ensures Valid()
      ensures Now() == Core(SendSelection(old(Now())))
    {
      hide NO_HISTORY;
      NarrowCore(Now());
      if slot >= 0 && !selectedSent && view.phase == Lobby {
        Enqueue(Select(car));
        selectedSent := true;
      }
    }

    method DoLoaded(f: Frame)
      requires Valid()
      modifies this`commandSeq, this`pending, this`loadedSent
      ensures Valid()
      ensures Now() == Core(SendLoaded(old(Now()), f))
    {
      hide NO_HISTORY;
      NarrowCore(Now());
      if !loadedSent && view.phase == Loading {
        Enqueue(Loaded(f.x, f.y, f.orientation));
        loadedSent := true;
      }
    }

    method DoFinish()
      requires Valid()
      modifies this`commandSeq, this`pending, this`finishedSent
      ensures Valid()
      ensures Now() == Core(SendFinish(old(Now())))
    {
      hide NO_HISTORY;
      NarrowCore(Now());
      if !finishedSent {
        Enqueue(Finish);
        finishedSent := true;
      }
    }

    /** Waiting in the lobby: SELECT once, then prepare the race when the room is loading. */
    method FrameWaiting() returns (writes: map<nat, nat>)
      requires Valid() && slot < 4 && |view.peers| == 4
      modifies this`commandSeq, this`pending, this`selectedSent, this`game
      ensures Valid()
      ensures var c1 := SendSelection(old(Now()));
        Now() == Core(if c1.slot >= 0 && c1.view.phase == Loading then PrepareRace(c1) else c1)
      ensures writes == if slot >= 0 && view.phase == Loading then PrepareWrites(slot, view.peers) else map[]
    {
      hide NO_HISTORY, SendSelection, Queue, PrepareWrites, Alike, WrapQueue;
      ghost var c1 := SendSelection(Now());
      SelectionKeeps(Now());
      DoSelection();
      writes := map[];
      if slot >= 0 && view.phase == Loading {
        writes := WriteCars();
        game := Prepare;
        PrepareCore(c1);
      }
    }

    /** At the starting line: LOADED once, then the release barrier. */
    method FrameLocation(f: Frame)
      requires Valid() && |view.peers| == 4 && |view.armed| == 4
      modifies this`commandSeq, this`pending, this`loadedSent, this`game
      ensures Valid()
      ensures var c1 := SendLoaded(old(Now()), f);
        Now() == Core(if Released(c1.view, f.reached) then EnterRace(c1, f.reached) else c1)
    {
      hide NO_HISTORY, SendLoaded, Queue, Released, Alike, WrapQueue;
      ghost var c1 := SendLoaded(Now(), f);
      LoadedKeeps(Now(), f);
      DoLoaded(f);
      var released := Arrived(f);
      if released {
        game := Race;
        EnterCore(c1, f.reached);
      }
    }

    /** Racing: FINISH once on crossing the line, otherwise one movement. */
    method FrameRace(f: Frame) returns (sent: set<Mail>)
      requires Valid()
      modifies this`commandSeq, this`pending, this`finishedSent, this`game, this`stateSeq
      ensures Valid()
      ensures Now() == Core(if f.ram54 == 3 then SendFinish(old(Now())).(game := Crossed)
                            else old(Now()).(stateSeq := old(stateSeq) + 1))
      ensures sent == if f.ram54 == 3 then {}
                      else {Stamped(Now(), Now().stateSeq, Movement(f.x, f.y, f.orientation))}
    {
      hide NO_HISTORY, SendFinish, Queue, WrapQueue;
      ghost var c := Now();
      sent := {};
      if f.ram54 == 3 {
        DoFinish();
        game := Crossed;
      } else {
        NarrowCore(c);
        stateSeq := (stateSeq + 1) % SPACE;
        sent := {ToServer(address, Packet(session, token, race, stateSeq, 0, Movement(f.x, f.y, f.orientation)))};
      }
    }

    method EnterState(next: Game)
      requires Valid()
      modifies this`game
      ensures Valid() && Now() == old(Now()).(game := next) && Now() == Core(Now())
    {
      game := next;
      NarrowCore(Now());
    }

    method PickCar(choice: nat)
      requires Valid()
      modifies this`car
      ensures Valid() && Now() == old(Now()).(car := choice) && Now() == Core(Now())
    {
      car := choice;
      NarrowCore(Now());
    }

    /** The frames before the lobby and after the race. */
    method FrameMenu(f: Frame)
      requires Valid() && attached && (game == Init || game == CarSelect || game == Crossed || game == Standings)
      modifies this`commandSeq, this`pending, this`game, this`car
      ensures Valid()
      ensures Now() == Core(StepFrame(old(Now()), f).client)
    {
      hide NO_HISTORY, Queue, Core;
      NarrowCore(Now());
      if game == Init {
        EnterState(CarSelect);
      } else if game == CarSelect {
        if f.ram55 == 3 {
          PickCar(MENU[f.cursor % 4]);
        } else if f.ram55 == 5 {
          EnterState(Waiting);
        }
      } else if game == Crossed {
        if view.phase == Results {
          EnterState(Standings);
        }
      } else if f.autoNext && slot == view.host {
        Enqueue(Next);
      }
    }

    /** The frames that set up the race; `writes` are the bytes written to game memory. */
    method FrameSetup(f: Frame) returns (writes: map<nat, nat>)
      requires Valid() && attached && slot < 4 && |view.peers| == 4 && |view.armed| == 4
      requires game == Waiting || game == Prepare || game == Location
      modifies this`commandSeq, this`pending, this`selectedSent, this`loadedSent, this`game
      ensures Valid()
      ensures Now() == Core(StepFrame(old(Now()), f).client)
      ensures writes == FrameWrites(old(Now()))
    {
      hide NO_HISTORY, SendSelection, SendLoaded, PrepareRace, EnterRace, Locate, Released, PrepareWrites, Core;
      ghost var c := Now();
      NarrowCore(c);
      writes := map[];
      if game == Waiting {
        writes := FrameWaiting();
      } else if game == Prepare {
        writes := map[0x53 := view.track, 0x5a := view.league];
        EnterState(Location);
        LocateCore(c);
      } else if f.ram54 == 2 && f.ram55 == 0 && f.ram56 == 2 {
        FrameLocation(f);
      }
    }

    /** One emulator frame; `writes` are the bytes of race setup written to game memory. */
    method DoFrame(f: Frame) returns (sent: set<Mail>, writes: map<nat, nat>)
      requires Valid() && slot < 4 && |view.peers| == 4 && |view.armed| == 4
      modifies this`commandSeq, this`pending, this`selectedSent, this`loadedSent, this`finishedSent, this`game,
        this`car,
        this`stateSeq
      ensures Valid()
      ensures Now() == Core(StepFrame(old(Now()), f).client)
      ensures sent == FrameMails(Now(), old(Now()), f)
      ensures writes == FrameWrites(old(Now()))
    {
      hide NO_HISTORY, SendFinish, PrepareWrites, Core, Stamped;
      ghost var c := Now();
      NarrowCore(c);
      sent, writes := {}, map[];
      if !attached || game == Offline {
        hide StepFrame;
        OfflineFrame(c, f);
      } else if game == Waiting || game == Prepare || game == Location {
        hide StepFrame;
        writes := FrameSetup(f);
      } else if game == Race {
        sent := FrameRace(f);
      } else {
        hide StepFrame;
        FrameMenu(f);
      }
    }

    method HangUp()
      modifies this`attached, this`open, this`slot, this`game
      ensures Now() == old(Now()).(attached := false, open := false, slot := -1, game := Init)
    {
      attached, open, slot, game := false, false, -1, Init;
    }

    method ForgetTraffic()
      modifies this`pending, this`buffer, this`requests
      ensures Now() == old(Now()).(pending := [], buffer := [], requests := [])
    {
      pending, buffer, requests := [], [], [];
    }

    method CloseConnection()
      modifies this
      ensures Now() == Closed(old(Now()))
    {
      hide NO_HISTORY, Closed;
      ForgetTraffic();
      HangUp();
      ClosedFields(old(Now()), Now());
    }

    method SendLeave() returns (sent: set<Mail>)
      requires Valid()
      modifies this`commandSeq
      ensures Valid()
      ensures Now() == old(Now()).(commandSeq := LeaveNumber(old(Now())))
      ensures sent == if Leaves(old(Now())) then {Stamped(old(Now()), commandSeq, Reliable(Leave))} else {}
    {
      hide NO_HISTORY;
      sent := {};
      if open && slot >= 0 && pending == [] {
        commandSeq := (commandSeq + 1) % SPACE;
        sent := {ToServer(address, Packet(session, token, race, commandSeq, 0, Reliable(Leave)))};
      }
    }

    /** Closing the connection; with nothing in flight, a LEAVE is sent once. */
    method DoDetach() returns (sent: set<Mail>)
      requires Valid()
      modifies this
      ensures Valid()
      ensures Now() == Core(Detach(old(Now())).client)
      ensures sent == if Leaves(old(Now())) then {Stamped(old(Now()), commandSeq, Reliable(Leave))} else {}
    {
      hide NO_HISTORY, Detach, Core, Stamped, Leaves;
      DetachedCore(Now());
      sent := SendLeave();
      CloseConnection();
    }
  }

  predicate Leaves(c: State) {
    c.open && c.slot >= 0 && c.pending == []
  }

  function LeaveNumber(c: State): nat {
    if Leaves(c) then (c.commandSeq + 1) % SPACE else c.commandSeq
  }

  /** A client whose connection is gone. */
  function Closed(c: State): State {
    c.(attached := false, open := false, slot := -1, pending := [], buffer := [], game := Init, requests := [])
  }

  lemma ClosedFields(c: State, c': State)
    requires c' == c.(pending := [], buffer := [], requests := [], attached := false, open := false, slot := -1,
      game := Init)
    ensures c' == Closed(c)
  {
  }

  lemma OfflineFrame(c: State, f: Frame)
    requires !c.attached || c.game == Offline
    ensures StepFrame(c, f).client == c
  {
  }

  lemma DetachedCore(c: State)
    requires c.race < SPACE && c.commandSeq < SPACE && c.stateSeq < SPACE && c.snapshotSeq < SPACE
    requires c.history == NO_HISTORY
    ensures Core(Detach(c).client) == Closed(c.(commandSeq := LeaveNumber(c)))
  {
  }

  /** What a frame may send, in the state it leaves behind. */
  function FrameMails(c: State, was: State, f: Frame): set<Mail> {
    if was.attached && was.game == Race && f.ram54 != 3
    then {Stamped(c, c.stateSeq, Movement(f.x, f.y, f.orientation))} else {}
  }

  /** The bytes of race setup that a frame writes: cars when the race is prepared, then track and league. */
  function FrameWrites(was: State): map<nat, nat>
    requires was.slot < 4 && |was.view.peers| == 4
  {
    if !was.attached then map[]
    else if was.game == Waiting && was.slot >= 0 && was.view.phase == Loading
    then PrepareWrites(was.slot, was.view.peers)
    else if was.game == Prepare then LocateWrites(was.view.track, was.view.league)
    else map[]
  }

  lemma SelectionKeeps(c: State)
    ensures SendSelection(c).slot == c.slot && SendSelection(c).view == c.view && SendSelection(c).game == c.game
  {
  }

  lemma LoadedKeeps(c: State, f: Frame)
    ensures SendLoaded(c, f).slot == c.slot && SendLoaded(c, f).view == c.view && SendLoaded(c, f).game == c.game
  {
  }

  /** Only the game state of a recorded setup is visible to the program. */
  lemma PrepareCore(c: State)
    ensures Core(PrepareRace(c)) == Core(c).(game := Prepare)
  {
    hide PrepareWrites, WrapQueue;
  }

  lemma LocateCore(c: State)
    ensures Core(Locate(c)) == Core(c).(game := Location)
  {
  }

  lemma EnterCore(c: State, reached: bool)
    ensures Core(EnterRace(c, reached)) == Core(c).(game := Race)
  {
  }

  /** What a tick may send, in the state it leaves behind. */
  function FrontMails(c: State, was: State, hello: bool, retry: bool, ping: bool, stamp: nat): set<Mail> {
    if !was.open || was.game == Offline then {}
    else if was.slot < 0 then (if hello then {Stamped(c, 0, Hello(c.nonce, c.key))} else {})
    else (if retry && c.pending != []
          then {Stamped(c, c.pending[0].number, Reliable(c.pending[0].command))} else {})
         + (if ping then {Stamped(c, 0, Ping(stamp))} else {})
  }

  lemma NarrowCore(c: State)
    requires c.race < SPACE && c.commandSeq < SPACE && c.stateSeq < SPACE && c.snapshotSeq < SPACE
    requires forall k :: 0 <= k < |c.pending| ==> c.pending[k].number < SPACE
    requires c.history == NO_HISTORY
    ensures Core(c) == c
  {
  }

  function Plain(c: State): State {
    c.(history := NO_HISTORY)
  }

  lemma PlainIsAlike(c: State)
    ensures Alike(Plain(c), c)
  {
  }

  lemma ResetFields(c: State, c': State)
    requires c.history == NO_HISTORY
    requires c' == c.(buffer := [], game := Init, selectedSent := false, loadedSent := false, finishedSent := false,
                      armedTime := 0, car := 0, view := c.view.(start := 0))
    ensures c' == ResetGame(c)
  {
  }

  /** On 32-bit values the snapshot filter is the one the program applies. */
  lemma NarrowAccepts(c: State, p: Packet)
    requires c.race < SPACE && c.snapshotSeq < SPACE && p.race < SPACE && p.number < SPACE && Addresses(c, p)
    ensures AcceptsSnapshot(c, p) <==>
      p.body.Snapshot? && PlausibleView(p.body.view) && Newer32(p.number, c.snapshotSeq)
      && (p.race == c.race || Newer32(p.race, c.race))
  {
    hide PlausibleView, Newer32;
  }

  lemma {:induction false} AckedFirst(q: seq<Pending>, ack: nat)
    requires ack < SPACE && (q != [] ==> q[0].number < SPACE)
    ensures AckedCount(q, ack) == if q != [] && (ack == q[0].number || Newer32(ack, q[0].number))
                                  then 1 + AckedCount(q[1..], ack) else 0
  {
    hide Newer32;
    if q != [] {
      assert Wrap(ack) == ack && Wrap(q[0].number) == q[0].number;
    }
  }

  lemma EmptyHistory()
    ensures NO_HISTORY.(taken := []) == NO_HISTORY
  {
  }

  lemma AckKeepsRace(c: State, ack: nat)
    ensures Plain(Acknowledge(c, ack)).race == c.race
  {
  }
}
