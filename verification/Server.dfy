/**
  The room server as the program keeps it: 32-bit counters and an array of four player records, updated in place.
  Every method is proved to do what `Rooms` specifies, up to the wrapping of counters.
  */
module Servers {
  import opened Words
  import opened Messages
  import opened Rooms
  import opened Congruence

  // Wrapping after each step is wrapping at the end.

  lemma AdvanceWraps(r: Room, now: nat)
    ensures WrapRoom(Advance(WrapRoom(r), now)) == WrapRoom(Advance(r, now))
  {
    hide WrapRoom, Advance;
    WrapCongruent(r);
    AdvanceCongruent(WrapRoom(r), r, now);
    CongruentWraps(Advance(WrapRoom(r), now), Advance(r, now));
  }

  lemma AdvancePhaseWraps(r: Room, now: nat)
    ensures WrapRoom(AdvancePhase(WrapRoom(r), now)) == WrapRoom(AdvancePhase(r, now))
  {
    hide WrapRoom, AdvancePhase;
    WrapCongruent(r);
    AdvancePhaseCongruent(WrapRoom(r), r, now);
    CongruentWraps(AdvancePhase(WrapRoom(r), now), AdvancePhase(r, now));
  }

  lemma DropSilentWraps(r: Room, from: nat, now: nat)
    requires from <= 4
    ensures WrapRoom(DropSilent(WrapRoom(r), from, now)) == WrapRoom(DropSilent(r, from, now))
  {
    hide WrapRoom, DropSilent;
    WrapCongruent(r);
    DropSilentCongruent(WrapRoom(r), r, from, now);
    CongruentWraps(DropSilent(WrapRoom(r), from, now), DropSilent(r, from, now));
  }

  lemma PublishWraps(r: Room, now: nat)
    ensures WrapRoom(Publish(WrapRoom(r), now).room) == WrapRoom(Publish(r, now).room)
    ensures WrapMails(Publish(WrapRoom(r), now).sent) == WrapMails(Publish(r, now).sent)
  {
    hide WrapRoom, Publish, WrapMails;
    WrapCongruent(r);
    PublishCongruent(WrapRoom(r), r, now);
    CongruentWraps(Publish(WrapRoom(r), now).room, Publish(r, now).room);
  }

  /** The counters of a room fit in 32 bits. */
  predicate Narrow(r: Room) {
    r.race < SPACE && r.snapshotSeq < SPACE
    && forall i :: 0 <= i < 4 ==> r.players[i].commandSeq < SPACE && r.players[i].stateSeq < SPACE
  }

  lemma NarrowWraps(r: Room)
    requires Narrow(r)
    ensures WrapRoom(r) == r
  {
  }

  lemma WrapIsNarrow(r: Room)
    ensures Narrow(WrapRoom(r))
  {
  }

  lemma NarrowMail(r: Room, i: nat, number: nat, body: Body)
    requires Narrow(r) && i < 4 && number < SPACE
    ensures WrapMail(Addressed(r, i, number, body)) == Addressed(r, i, number, body)
  {
  }

  class Server {
    const session: nat
    const ownerNonce: nat
    const key: seq<nat>
    var closed: bool
    var race: nat
    var snapshotSeq: nat
    var start: nat
    var phase: Phase
    var expected: nat
    var host: nat
    var track: nat
    var league: nat
    const players: array<Player>

    ghost function State(): Room
      requires players.Length == 4
      reads this, players
    {
      Room(session, ownerNonce, key, closed, race, snapshotSeq, start, phase, expected, host, track, league,
        players[..])
    }

    ghost predicate Valid()
      reads this, players
    {
      players.Length == 4 && Narrow(State())
    }

    constructor (session: nat, ownerNonce: nat, key: seq<nat>, expected: nat, track: nat, league: nat)
      ensures Valid() && fresh(players)
      ensures State() == Created(session, ownerNonce, key, expected, track, league)
    {
      this.session, this.ownerNonce, this.key := session, ownerNonce, key;
      closed, race, snapshotSeq, start, phase := false, 1, 0, 0, Lobby;
      this.expected, this.track, this.league, host := expected, track, league, NO_HOST;
      players := new Player[4](i => BLANK);
      new;
      assert players[..] == [BLANK, BLANK, BLANK, BLANK];
    }

    // Counting and testing.

    method CountPlayers() returns (n: nat)
      requires Valid()
      ensures n == Count(State().players)
    {
      n := 0;
      for i := 0 to 4
        invariant n == (if i > 0 then One(players[0]) else 0) + (if i > 1 then One(players[1]) else 0)
                       + (if i > 2 then One(players[2]) else 0) + (if i > 3 then One(players[3]) else 0)
      {
        n := n + (if Occupied(players[i]) then 1 else 0);
      }
    }

    method TestAllAtLeast(status: Status) returns (all: bool)
      requires Valid()
      ensures all == AllAtLeast(State().players, status)
    {
      var n := CountPlayers();
      if n == 0 {
        return false;
      }
      for i := 0 to 4
        invariant forall j :: 0 <= j < i && Occupied(players[j]) ==> StatusRank(players[j].status) >= StatusRank(status)
      {
        if Occupied(players[i]) && StatusRank(players[i].status) < StatusRank(status) {
          assert !AllAtLeast(State().players, status);
          return false;
        }
      }
      return true;
    }

    method TestAllArmed() returns (all: bool)
      requires Valid()
      ensures all == AllArmed(State().players, start)
    {
      all := true;
      for i := 0 to 4
        invariant all == forall j :: 0 <= j < i && Occupied(players[j]) ==> players[j].armed == start
      {
        if Occupied(players[i]) && players[i].armed != start {
          all := false;
        }
      }
    }

    // Transitions.

    method DoBeginLobby()
      requires Valid()
      modifies this, players
      ensures Valid()
      ensures State() == WrapRoom(BeginLobby(old(State())))
    {
      race := (race + 1) % SPACE;
      start := 0;
      phase := Lobby;
      for i := 0 to 4
        modifies players
        invariant forall j :: 0 <= j < i ==> players[j] == LobbyPlayer(old(players[j]))
        invariant forall j :: i <= j < 4 ==> players[j] == old(players[j])
      {
        if !Occupied(players[i]) {
          players[i] := BLANK;
        } else {
          players[i] := players[i].(status := Joined, x := 0, y := 0, armed := 0, updated := 0, stateSeq := 0);
        }
      }
      ghost var target := BeginLobby(old(State()));
      assert forall j :: 0 <= j < 4 ==> old(State()).players[j] == old(players[j]);
      assert forall j :: 0 <= j < 4 ==> WrapPlayer(target.players[j]) == players[j];
      assert State().players == WrapRoom(target).players;
      WrapIsNarrow(target);
    }

    method FindHost()
      requires Valid()
      modifies this`host
      ensures Valid()
      ensures host == FirstOccupied(State().players)
    {
      host := NO_HOST;
      var j := 0;
      while j < 4
        invariant 0 <= j <= 4 && host == NO_HOST
        invariant forall k :: 0 <= k < j ==> !Occupied(players[k])
      {
        if Occupied(players[j]) {
          host := j;
          break;
        }
        j := j + 1;
      }
    }

    /** What a departure does before the empty-room rule. */
    method Depart(i: nat)
      requires Valid() && i < 4
      modifies this, players
      ensures Valid()
      ensures if ownerNonce != 0 && i == 0
        then State() == Vacate(old(State()), i).(closed := true)
        else State() == Forget(PassHost(Vacate(old(State()), i), i), i)
    {
      ghost var r := State();
      players[i] := players[i].(status := Disconnected, x := 0, y := 0);
      assert State() == Vacate(r, i);
      if ownerNonce != 0 && i == 0 {
        closed := true;
        return;
      }
      if host == i {
        FindHost();
      }
      assert State() == PassHost(Vacate(r, i), i);
      if phase == Lobby {
        players[i] := BLANK;
      }
    }

    method DoDrop(i: nat)
      requires Valid() && i < 4
      modifies this, players
      ensures Valid()
      ensures State() == WrapRoom(Drop(old(State()), i))
    {
      Depart(i);
      NarrowWraps(State());
      if ownerNonce != 0 && i == 0 {
        return;
      }
      var n := CountPlayers();
      if n == 0 {
        DoBeginLobby();
        host := NO_HOST;
      }
    }

    method DropTimedOut(now: nat)
      requires Valid()
      modifies this, players
      ensures Valid()
      ensures State() == WrapRoom(DropSilent(old(State()), 0, now))
    {
      ghost var r := State();
      NarrowWraps(r);
      for i := 0 to 4
        invariant Valid()
        invariant WrapRoom(DropSilent(State(), i, now)) == WrapRoom(DropSilent(r, 0, now))
      {
        ghost var before := State();
        if Occupied(players[i]) && Elapsed(now, players[i].seen) >= HEARTBEAT {
          DoDrop(i);
          DropSilentWraps(Drop(before, i), i + 1, now);
        }
      }
      NarrowWraps(State());
    }

    method StepPhase(now: nat)
      requires Valid()
      modifies this, players
      ensures Valid()
      ensures State() == AdvancePhase(old(State()), now)
    {
      ghost var r := State();
      var n := CountPlayers();
      var ready := TestAllAtLeast(Selected);
      if phase == Lobby && n == expected && ready {
        phase := Loading;
      }
      assert State() == StartLoading(r);
      StepCountdownStart(now);
      StepCountDown(now);
      var finished := TestAllAtLeast(Status.Finished);
      if phase == Racing && finished {
        phase := Results;
      }
    }

    method StepCountdownStart(now: nat)
      requires Valid()
      modifies this, players
      ensures Valid()
      ensures State() == StartCountdown(old(State()), now)
    {
      var loaded := TestAllAtLeast(PlayerLoaded);
      if phase == Loading && loaded {
        start := now + LEAD;
        phase := Countdown;
        for i := 0 to 4
          modifies players
          invariant forall j :: 0 <= j < i ==> players[j] == old(players[j]).(armed := 0)
          invariant forall j :: i <= j < 4 ==> players[j] == old(players[j])
        {
          players[i] := players[i].(armed := 0);
        }
        assert forall j :: 0 <= j < 4 ==> old(State()).players[j] == old(players[j]);
        assert State().players == StartCountdown(old(State()), now).players;
      }
    }

    method StepCountDown(now: nat)
      requires Valid()
      modifies this, players
      ensures Valid()
      ensures State() == CountDown(old(State()), now)
    {
      if phase == Countdown {
        var all := TestAllArmed();
        if !all && now + GUARD >= start {
          start := now + LEAD;
        } else if all && now >= start {
          phase := Racing;
          for i := 0 to 4
            modifies players
            invariant forall j :: 0 <= j < i ==> players[j] == Release(old(players[j]))
            invariant forall j :: i <= j < 4 ==> players[j] == old(players[j])
          {
            if Occupied(players[i]) {
              players[i] := players[i].(status := PlayerRacing);
            }
          }
          assert forall j :: 0 <= j < 4 ==> old(State()).players[j] == old(players[j]);
          assert State().players == CountDown(old(State()), now).players;
        }
      }
    }

    method DoAdvance(now: nat)
      requires Valid()
      modifies this, players
      ensures Valid()
      ensures State() == WrapRoom(Advance(old(State()), now))
    {
      ghost var r := State();
      DropTimedOut(now);
      if closed {
        return;
      }
      StepPhase(now);
      AdvancePhaseWraps(DropSilent(r, 0, now), now);
      NarrowWraps(State());
    }

    // Snapshots.

    /** Fills in the payload of a snapshot. */
    method Describe(now: nat) returns (view: View)
      requires Valid()
      ensures view == ViewOf(State(), now)
    {
      var armed: seq<bool> := [];
      var peers: seq<Peer> := [];
      for i := 0 to 4
        invariant |armed| == |peers| == i
        invariant forall j :: 0 <= j < i ==>
          armed[j] == (Occupied(players[j]) && players[j].armed == start && start != 0)
        invariant forall j :: 0 <= j < i ==> peers[j] == PeerOf(players[j], now)
      {
        armed := armed + [Occupied(players[i]) && players[i].armed == start && start != 0];
        peers := peers + [Peer(players[i].status, players[i].car, players[i].x, players[i].y, players[i].orientation,
                               players[i].stateSeq, Age(now, players[i].updated))];
      }
      view := View(phase, expected, host, track, league, armed, now, start, peers);
      assert view.armed == ViewOf(State(), now).armed;
      assert view.peers == ViewOf(State(), now).peers;
    }

    method SendToAll(view: View, ghost now: nat) returns (sent: set<Mail>)
      requires Valid() && view == ViewOf(State(), now)
      ensures sent == set i | 0 <= i < 4 && Occupied(State().players[i]) :: SnapshotTo(State(), i, now)
    {
      sent := {};
      for i := 0 to 4
        invariant sent == set j | 0 <= j < i && Occupied(players[j]) :: SnapshotTo(State(), j, now)
      {
        if Occupied(players[i]) {
          var m := ToClient(players[i].address,
                            Packet(session, players[i].token, race, snapshotSeq, players[i].commandSeq,
                              Snapshot(view)));
          assert m == SnapshotTo(State(), i, now);
          sent := sent + {m};
        }
      }
    }

    method DoPublish(now: nat) returns (sent: set<Mail>)
      requires Valid()
      modifies this`snapshotSeq
      ensures Valid()
      ensures State() == WrapRoom(Publish(old(State()), now).room)
      ensures sent == WrapMails(Publish(old(State()), now).sent)
    {
      ghost var r := State();
      snapshotSeq := (snapshotSeq + 1) % SPACE;
      NumberedOnly(r, State(), now);
      var view := Describe(now);
      sent := SendToAll(view, now);
      SentIsImage(r, State(), now, sent);
    }

    // Commands.

    method IsValid(i: nat, c: Command) returns (valid: bool)
      requires Valid() && i < 4
      ensures valid == CommandValid(State(), i, c)
    {
      var n := CountPlayers();
      valid := match c
        case Select(car) => car < 4 && phase == Lobby
        case Loaded(_, _, _) => phase == Loading
        case Arm(t) => phase == Countdown && t == start
        case Finish => phase == Racing && players[i].status == PlayerRacing
        case Next => i == host && (phase == Results || phase == Lobby)
        case Config(count, t, l) => i == host && phase == Lobby && 2 <= count <= 4 && count >= n && t < 5 && l < 3
        case Leave => true
        case Unknown(_) => false;
    }

    method ApplyCommand(i: nat, number: nat, c: Command, at: Times) returns (valid: bool)
      requires Valid() && i < 4 && number < SPACE
      modifies this, players
      ensures Valid()
      ensures valid == CommandValid(old(State()), i, c)
      ensures State() == Commanded(old(State()), i, number, c, at)
    {
      ghost var r := State();
      valid := IsValid(i, c);
      if valid {
        match c {
          case Select(car) => players[i] := players[i].(car := car, status := Selected);
          case Loaded(x, y, o) =>
            players[i] := players[i].(x := x, y := y, orientation := o, status := PlayerLoaded, updated := at.updated);
          case Arm(_) => players[i] := players[i].(armed := start);
          case Finish => players[i] := players[i].(status := Status.Finished, x := 0, y := 0);
          case Config(count, t, l) => expected, track, league := count, t, l;
          case _ =>
        }
      }
      players[i] := players[i].(commandSeq := number, seen := at.seen);
      assert State().players == Commanded(r, i, number, c, at).players;
    }

    method Address(i: nat, number: nat, body: Body) returns (m: Mail)
      requires Valid() && i < 4
      ensures m == Addressed(State(), i, number, body)
    {
      m := ToClient(players[i].address, Packet(session, players[i].token, race, number, players[i].commandSeq, body));
    }

    method ExecuteCommand(i: nat, number: nat, c: Command, at: Times) returns (sent: set<Mail>)
      requires Valid() && i < 4 && number < SPACE
      modifies this, players
      ensures Valid()
      ensures State() == WrapRoom(Execute(old(State()), i, number, c, at).room)
      ensures sent == WrapMails(Execute(old(State()), i, number, c, at).sent)
    {
      ghost var r := State();
      var valid := ApplyCommand(i, number, c, at);
      ghost var r1 := State();
      NarrowWraps(r1);
      var refusal: set<Mail> := {};
      if !valid {
        var m := Address(i, 0, Refusal(c));
        NarrowMail(r1, i, 0, Refusal(c));
        WrapMailsSingle(m);
        refusal := {m};
      } else if c == Next {
        DoBeginLobby();
      } else if c == Leave {
        DoDrop(i);
      }
      ghost var r2 := Settled(r1, i, valid, c);
      assert State() == WrapRoom(r2);
      DoAdvance(at.advanced);
      AdvanceWraps(r2, at.advanced);
      ghost var r3 := Advance(r2, at.advanced);
      assert State() == WrapRoom(r3);
      var snapshots := DoPublish(at.published);
      PublishWraps(r3, at.published);
      sent := refusal + snapshots;
      ExecuteMails(r, i, number, c, at, r1, r3);
    }

    // Packets.

    method FindResident(from: nat) returns (i: nat)
      requires Valid()
      ensures i == Resident(State().players, from)
    {
      i := 0;
      while i < 4
        invariant 0 <= i <= 4
        invariant forall j :: 0 <= j < i ==> !AtAddress(players[j], from)
      {
        if Occupied(players[i]) && players[i].address == from {
          return;
        }
        i := i + 1;
      }
    }

    method FindFree() returns (i: nat)
      requires Valid()
      ensures i == FirstFree(State().players)
    {
      i := 0;
      while i < 4
        invariant 0 <= i <= 4
        invariant forall j :: 0 <= j < i ==> Occupied(players[j])
      {
        if !Occupied(players[i]) {
          return;
        }
        i := i + 1;
      }
    }

    method FindSender(from: nat, p: Packet) returns (i: nat)
      requires Valid()
      ensures i == Sender(State(), from, p)
    {
      i := 0;
      while i < 4
        invariant 0 <= i <= 4
        invariant forall j :: 0 <= j < i ==> !IsSender(State(), j, from, p)
      {
        if Occupied(players[i]) && p.session == session && p.token == players[i].token && from == players[i].address {
          return;
        }
        i := i + 1;
      }
    }

    method Admit(j: nat, from: nat, token: nat, nonce: nat, at: Times) returns (sent: set<Mail>)
      requires Valid() && j < 4
      modifies this, players
      ensures Valid()
      ensures var r1 := Seated(old(State()), j, from, token, nonce, at.seen);
        && State() == WrapRoom(Publish(r1, at.published).room)
        && sent == WrapMails({Addressed(r1, j, 0, Welcome(j, nonce))} + Publish(r1, at.published).sent)
    {
      ghost var r := State();
      players[j] := NewPlayer(from, token, nonce, at.seen);
      if host == NO_HOST {
        host := j;
      }
      ghost var r1 := State();
      assert r1 == Seated(r, j, from, token, nonce, at.seen);
      var m := Address(j, 0, Welcome(j, nonce));
      NarrowMail(r1, j, 0, Welcome(j, nonce));
      WrapMailsSingle(m);
      var snapshots := DoPublish(at.published);
      sent := {m} + snapshots;
      WrapMailsUnion({m}, Publish(r1, at.published).sent);
    }

    method HandleHello(from: nat, nonce: nat, offered: seq<nat>, at: Times, token: nat) returns (sent: set<Mail>)
      requires Valid()
      modifies this, players
      ensures Valid()
      ensures State() == WrapRoom(ReceiveHello(old(State()), from, nonce, offered, at, token).room)
      ensures sent == WrapMails(ReceiveHello(old(State()), from, nonce, offered, at, token).sent)
    {
      NarrowWraps(State());
      if offered != key {
        sent := RefuseJoin(from, nonce, Password);
        return;
      }
      if ownerNonce != 0 && !Occupied(players[0]) && nonce != ownerNonce {
        sent := RefuseJoin(from, nonce, Starting);
        return;
      }
      var i := FindResident(from);
      if i < 4 {
        sent := {};
        if nonce == players[i].nonce {
          var m := Address(i, 0, Welcome(i, nonce));
          NarrowMail(State(), i, 0, Welcome(i, nonce));
          WrapMailsSingle(m);
          sent := {m};
        }
        return;
      }
      if phase != Lobby {
        sent := RefuseJoin(from, nonce, Underway);
        return;
      }
      var n := CountPlayers();
      if n >= expected {
        sent := RefuseJoin(from, nonce, Full);
        return;
      }
      var j := FindFree();
      if j == 4 {
        sent := {};
      } else if token == 0 {
        players[j] := BLANK.(address := from);
        NarrowWraps(State());
        sent := {};
      } else {
        sent := Admit(j, from, token, nonce, at);
      }
    }

    method RefuseJoin(from: nat, nonce: nat, why: Reason) returns (sent: set<Mail>)
      requires Valid()
      ensures sent == WrapMails(RejectJoin(State(), from, nonce, why).sent)
    {
      var m := ToClient(from, Packet(0, 0, 0, 0, 0, JoinReject(nonce, why)));
      WrapMailsSingle(m);
      assert WrapMail(m) == m;
      sent := {m};
    }

    /** Replaces one player's record. */
    method Store(i: nat, p: Player)
      requires Valid() && i < 4 && p.commandSeq < SPACE && p.stateSeq < SPACE
      modifies players
      ensures Valid()
      ensures State() == old(State()).(players := old(State()).players[i := p])
      ensures State() == WrapRoom(State())
    {
      players[i] := p;
      NarrowWraps(State());
    }

    method HandleFrom(i: nat, p: Packet, at: Times) returns (sent: set<Mail>)
      requires Valid() && i < 4 && p.race < SPACE && p.number < SPACE
      modifies this, players
      ensures Valid()
      ensures State() == WrapRoom(ReceiveFrom(old(State()), i, p, at).room)
      ensures sent == WrapMails(ReceiveFrom(old(State()), i, p, at).sent)
    {
      hide Execute, WrapRoom, InSequence, MovesPlayer, Narrow, Newer32;
      NarrowWraps(State());
      NarrowTests(State(), i, p);
      sent := {};
      if p.body.Pong? && players[i].ping != 0 && p.body.stamp == players[i].ping {
        Store(i, players[i].(ping := 0, seen := at.seen));
      } else if p.body.Ping? {
        Store(i, players[i].(seen := at.seen));
        var m := Address(i, 0, TimedPong(p.body.stamp, at.seen));
        NarrowMail(State(), i, 0, TimedPong(p.body.stamp, at.seen));
        WrapMailsSingle(m);
        sent := {m};
      } else if p.race != race {
      } else if p.body.Movement? {
        if phase == Racing && players[i].status == PlayerRacing && Newer32(p.number, players[i].stateSeq) {
          Store(i, players[i].(stateSeq := p.number, x := p.body.x, y := p.body.y,
                               orientation := p.body.orientation, updated := at.seen, seen := at.seen));
        }
      } else if p.body.Reliable? && Newer32(p.number, players[i].commandSeq)
                && p.number == (players[i].commandSeq + 1) % SPACE {
        sent := ExecuteCommand(i, p.number, p.body.command, at);
      }
    }

    /** One decoded packet. */
    method ReceivePacket(from: nat, p: Packet, at: Times, token: nat) returns (sent: set<Mail>)
      requires Valid() && p.race < SPACE && p.number < SPACE
      modifies this, players
      ensures Valid()
      ensures State() == WrapRoom(Receive(old(State()), from, p, at, token).room)
      ensures sent == WrapMails(Receive(old(State()), from, p, at, token).sent)
    {
      NarrowWraps(State());
      sent := {};
      if closed {
      } else if p.body.Hello? {
        sent := HandleHello(from, p.body.nonce, p.body.key, at, token);
      } else {
        var i := FindSender(from, p);
        if i < 4 {
          sent := HandleFrom(i, p, at);
        }
      }
    }

    /** The periodic part of a poll. */
    method PollTick(now: nat, published: nat) returns (sent: set<Mail>)
      requires Valid()
      modifies this, players
      ensures Valid()
      ensures State() == WrapRoom(Tick(old(State()), now, published).room)
      ensures sent == WrapMails(Tick(old(State()), now, published).sent)
    {
      ghost var r := State();
      DoAdvance(now);
      sent := {};
      if !closed {
        sent := DoPublish(published);
        PublishWraps(Advance(r, now), published);
      }
    }

    /** The heartbeat: every present player is pinged. */
    method DoPingAll(now: nat) returns (sent: set<Mail>)
      requires Valid()
      modifies players
      ensures Valid()
      ensures State() == PingAll(old(State()), now).room
      ensures sent == PingAll(old(State()), now).sent
    {
      ghost var r := State();
      sent := {};
      for i := 0 to 4
        invariant forall j :: 0 <= j < 4 ==> players[j] == if j < i then Pinged(r.players[j], now) else r.players[j]
        invariant sent == set j | 0 <= j < i && Occupied(r.players[j]) :: Addressed(r, j, 0, Ping(now))
      {
        if Occupied(players[i]) {
          players[i] := players[i].(ping := now);
          sent := sent + {ToClient(players[i].address,
                                   Packet(session, players[i].token, race, 0, players[i].commandSeq, Ping(now)))};
        }
      }
      PingsAgree(r, now);
      assert State().players == PingAll(r, now).room.players;
    }

    /** Shutting down: every present player is told. */
    method DoClose() returns (sent: set<Mail>)
      requires Valid()
      modifies this`closed
      ensures Valid()
      ensures State() == Close(old(State())).room
      ensures sent == Close(old(State())).sent
    {
      ghost var r := State();
      sent := {};
      for i := 0 to 4
        invariant sent == set j | 0 <= j < i && Occupied(r.players[j]) :: Addressed(r, j, 0, RoomClosed)
      {
        if Occupied(players[i]) {
          sent := sent + {ToClient(players[i].address,
                                   Packet(session, players[i].token, race, 0, players[i].commandSeq, RoomClosed))};
        }
      }
      closed := true;
    }
  }

  lemma PingsAgree(r: Room, now: nat)
    ensures PingAll(r, now).sent == set i | 0 <= i < 4 && Occupied(r.players[i]) :: Addressed(r, i, 0, Ping(now))
  {
    var r1 := PingAll(r, now).room;
    assert forall i :: 0 <= i < 4 ==>
      (Occupied(r1.players[i]) <==> Occupied(r.players[i]))
        && Addressed(r1, i, 0, Ping(now)) == Addressed(r, i, 0, Ping(now));
  }

  /** On 32-bit values the tests are the ones the program makes. */
  lemma NarrowTests(r: Room, i: nat, p: Packet)
    requires Narrow(r) && i < 4 && p.race < SPACE && p.number < SPACE
    ensures r.players[i].commandSeq < SPACE && r.players[i].stateSeq < SPACE
    ensures InSequence(r, i, p) <==>
      p.body.Reliable? && p.race == r.race && Newer32(p.number, r.players[i].commandSeq)
      && p.number == (r.players[i].commandSeq + 1) % SPACE
    ensures MovesPlayer(r, i, p) <==>
      p.body.Movement? && p.race == r.race && r.phase == Racing && r.players[i].status == PlayerRacing
      && Newer32(p.number, r.players[i].stateSeq)
  {
    hide Newer32;
    assert Wrap(p.race) == p.race && Wrap(r.race) == r.race && Wrap(p.number) == p.number;
    assert Wrap(r.players[i].commandSeq) == r.players[i].commandSeq
      && Wrap(r.players[i].stateSeq) == r.players[i].stateSeq;
  }

  /** Collecting what a command sends. */
  lemma ExecuteMails(r: Room, i: nat, number: nat, c: Command, at: Times, r1: Room, r3: Room)
    requires i < 4 && r1 == Commanded(r, i, number, c, at)
    requires r3 == Advance(Settled(r1, i, CommandValid(r, i, c), c), at.advanced)
    ensures WrapMails(Execute(r, i, number, c, at).sent) ==
      WrapMails(if CommandValid(r, i, c) then {} else {Addressed(r1, i, 0, Refusal(c))})
      + WrapMails(Publish(r3, at.published).sent)
    ensures Execute(r, i, number, c, at).room == Publish(r3, at.published).room
  {
  }

  lemma NumberedOnly(r: Room, r': Room, now: nat)
    requires Narrow(r) && r' == r.(snapshotSeq := (r.snapshotSeq + 1) % SPACE)
    ensures r' == WrapRoom(Publish(r, now).room) && Narrow(r')
  {
  }

  lemma SentIsImage(r: Room, r': Room, now: nat, sent: set<Mail>)
    requires Narrow(r) && r' == WrapRoom(Publish(r, now).room)
    requires sent == set i | 0 <= i < 4 && Occupied(r'.players[i]) :: SnapshotTo(r', i, now)
    ensures sent == WrapMails(Publish(r, now).sent)
  {
    hide WrapMail, SnapshotTo, ViewOf;
    var x := Publish(r, now).room;
    WrapIsNarrow(x);
    WrapCongruent(x);
    SameView(r', x, now);
    forall i | 0 <= i < 4
      ensures Occupied(r'.players[i]) == Occupied(x.players[i])
      ensures SnapshotTo(r', i, now) == WrapMail(SnapshotTo(x, i, now))
    {
      SnapshotImageAt(r', x, i, now);
    }
    SnapshotImage(x, now, Publish(r, now).sent);
  }

  lemma SnapshotImageAt(r': Room, x: Room, i: nat, now: nat)
    requires Narrow(r') && Congruent(r', x) && i < 4
    requires ViewOf(r', now) == ViewOf(x, now)
    ensures Occupied(r'.players[i]) == Occupied(x.players[i])
    ensures SnapshotTo(r', i, now) == WrapMail(SnapshotTo(x, i, now))
  {
  }
}
