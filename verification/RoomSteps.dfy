/** Every transition of the room preserves the invariant and is an evolution. */
module RoomSteps {
  import opened Words
  import opened Messages
  import opened Rooms
  import opened RoomInvariants

  /** The result of a transition in which nobody joins and no command is executed. */
  predicate Quiet(r: Room, r': Room) {
    Invariant(r') && Evolves(r, r') && Keeps(r, r')
  }

  lemma QuietTransitive(a: Room, b: Room, c: Room)
    requires Quiet(a, b) && Quiet(b, c)
    ensures Quiet(a, c)
  {
    EvolvesTransitive(a, b, c);
    KeepsTransitive(a, b, c);
  }

  lemma BeginLobbyStep(r: Room)
    requires Invariant(r)
    ensures Quiet(r, BeginLobby(r))
    ensures BeginLobby(r).closed == r.closed && Count(BeginLobby(r).players) == Count(r.players)
  {
    var r' := BeginLobby(r);
    assert forall i :: 0 <= i < 4 ==> r'.players[i] == LobbyPlayer(r.players[i]);
    assert forall i :: 0 <= i < 4 ==> Occupied(r'.players[i]) == Occupied(r.players[i]);
    LobbyInvariant(r, r');
    assert Keeps(r, r');
  }

  lemma LobbyInvariant(r: Room, r': Room)
    requires Invariant(r) && r' == r.(race := r.race + 1, start := 0, phase := Lobby, players := r'.players)
    requires forall i :: 0 <= i < 4 ==> r'.players[i] == LobbyPlayer(r.players[i])
    requires forall i :: 0 <= i < 4 ==> Occupied(r'.players[i]) == Occupied(r.players[i])
    ensures Invariant(r') && Count(r'.players) == Count(r.players)
  {
    assert SettingsOk(r') && TableOk(r') && StartOk(r') && HiddenOk(r') && IdentityOk(r');
  }

  // Drop.

  lemma CountPositive(ps: Slots, i: nat)
    requires i < 4 && Occupied(ps[i])
    ensures Count(ps) > 0
  {
  }

  lemma FirstOccupiedFound(ps: Slots)
    ensures Count(ps) > 0 ==> FirstOccupied(ps) < 4 && Occupied(ps[FirstOccupied(ps)])
    ensures Count(ps) == 0 ==> FirstOccupied(ps) == NO_HOST
  {
  }

  /** What a departure does to the slots, before the empty-room rule. */
  predicate Departed(r: Room, i: nat, left: Room)
    requires i < 4
  {
    && left == r.(players := left.players, host := left.host)
    && (left.host == r.host || left.host < 4 || left.host == NO_HOST)
    && (forall j :: 0 <= j < 4 && j != i ==> left.players[j] == r.players[j])
    && !Occupied(left.players[i])
    && left.players[i].x == 0 && left.players[i].y == 0 && left.players[i].car < 4
    && (r.phase != Lobby ==> left.players[i].car == r.players[i].car && left.players[i].status == Disconnected)
  }

  lemma LeftDeparted(r: Room, i: nat)
    requires i < 4 && Invariant(r)
    ensures Departed(r, i, Forget(PassHost(Vacate(r, i), i), i))
    ensures Departed(r, i, Vacate(r, i))
  {
  }

  lemma DepartedCounts(r: Room, i: nat, left: Room)
    requires i < 4 && Occupied(r.players[i]) && Departed(r, i, left)
    ensures Count(left.players) == Count(r.players) - 1
  {
  }

  lemma DepartedOk(r: Room, i: nat, left: Room)
    requires i < 4 && Occupied(r.players[i]) && Invariant(r) && Departed(r, i, left)
    ensures SettingsOk(left) && TableOk(left) && StartOk(left) && HiddenOk(left) && IdentityOk(left)
  {
    DepartedCounts(r, i, left);
  }

  lemma DepartedEvolves(r: Room, i: nat, left: Room)
    requires i < 4 && Occupied(r.players[i]) && Invariant(r) && Departed(r, i, left)
    ensures Evolves(r, left) && Keeps(r, left)
  {
  }

  lemma LeftSlots(r: Room, i: nat)
    requires i < 4 && Occupied(r.players[i]) && Invariant(r)
    ensures var left := Forget(PassHost(Vacate(r, i), i), i);
      && Departed(r, i, left)
      && Count(left.players) == Count(r.players) - 1
      && SettingsOk(left) && TableOk(left) && StartOk(left) && HiddenOk(left) && IdentityOk(left)
      && Evolves(r, left) && Keeps(r, left)
  {
    var left := Forget(PassHost(Vacate(r, i), i), i);
    LeftDeparted(r, i);
    DepartedCounts(r, i, left);
    DepartedOk(r, i, left);
    DepartedEvolves(r, i, left);
  }

  lemma LeftOpen(r: Room, i: nat)
    requires i < 4 && Occupied(r.players[i]) && Invariant(r) && !r.closed
    requires r.ownerNonce == 0 || i != 0
    ensures var left := Forget(PassHost(Vacate(r, i), i), i);
      Count(left.players) > 0 ==> OpenOk(left)
  {
    var left := Forget(PassHost(Vacate(r, i), i), i);
    LeftSlots(r, i);
    CountPositive(r.players, i);
    if Count(left.players) > 0 {
      if r.host == i {
        FirstOccupiedFound(Vacate(r, i).players);
        assert forall j :: 0 <= j < 4 ==> (Occupied(left.players[j]) <==> Occupied(Vacate(r, i).players[j]));
      } else {
        assert left.players[r.host] == r.players[r.host];
      }
      assert HostOk(left);
    }
  }

  lemma DropStep(r: Room, i: nat)
    requires i < 4 && Occupied(r.players[i]) && Invariant(r)
    ensures Quiet(r, Drop(r, i))
    ensures !Occupied(Drop(r, i).players[i])
  {
    var left := Forget(PassHost(Vacate(r, i), i), i);
    LeftSlots(r, i);
    if r.ownerNonce != 0 && i == 0 {
      LeftDeparted(r, i);
      DepartedOk(r, i, Vacate(r, i));
      DepartedEvolves(r, i, Vacate(r, i));
    } else if Count(left.players) == 0 {
      DropLast(r, i);
    } else if !r.closed {
      LeftOpen(r, i);
    }
  }

  /** Player `i` is the only one present. */
  predicate Alone(ps: Slots, i: nat)
    requires i < 4
  {
    Occupied(ps[i]) && forall j :: 0 <= j < 4 && j != i ==> !Occupied(ps[j])
  }

  /** A departure begins a lobby exactly when the last player leaves and is not an owner; the owner's departure closes
      the room instead. Otherwise the room goes on, and no other record changes. */
  lemma DropEffect(r: Room, i: nat)
    requires i < 4 && Occupied(r.players[i])
    ensures var r' := Drop(r, i);
      && r'.ownerNonce == r.ownerNonce
      && (r'.closed <==> r.closed || (r.ownerNonce != 0 && i == 0))
      && if Alone(r.players, i) && (r.ownerNonce == 0 || i != 0)
         then r'.race == r.race + 1 && r'.phase == Lobby && r'.start == 0 && Count(r'.players) == 0
           && r'.host == NO_HOST
         else && r'.race == r.race && r'.phase == r.phase && r'.start == r.start
              && !Occupied(r'.players[i])
              && forall j :: 0 <= j < 4 && j != i ==> r'.players[j] == r.players[j]
  {
    var left := Forget(PassHost(Vacate(r, i), i), i);
    assert forall j :: 0 <= j < 4 && j != i ==> left.players[j] == r.players[j];
    assert !Occupied(left.players[i]);
    AloneCounts(r.players, left.players, i);
    if Count(left.players) == 0 {
      assert forall j :: 0 <= j < 4 ==> BeginLobby(left).players[j] == BLANK;
    }
  }

  lemma AloneCounts(ps: Slots, left: Slots, i: nat)
    requires i < 4 && Occupied(ps[i]) && !Occupied(left[i])
    requires forall j :: 0 <= j < 4 && j != i ==> left[j] == ps[j]
    ensures Count(left) == 0 <==> Alone(ps, i)
  {
  }

  lemma DropLast(r: Room, i: nat)
    requires i < 4 && Occupied(r.players[i]) && Invariant(r)
    requires r.ownerNonce == 0 || i != 0
    requires Count(Forget(PassHost(Vacate(r, i), i), i).players) == 0
    ensures Quiet(r, Drop(r, i))
    ensures !Occupied(Drop(r, i).players[i])
  {
    var left := Forget(PassHost(Vacate(r, i), i), i);
    LeftSlots(r, i);
    EmptyLobby(left, BeginLobby(left).(host := NO_HOST));
    EvolvesTransitive(r, left, Drop(r, i));
    KeepsTransitive(r, left, Drop(r, i));
  }

  lemma EmptyLobby(left: Room, next: Room)
    requires Count(left.players) == 0 && SettingsOk(left)
    requires next == BeginLobby(left).(host := NO_HOST)
    ensures Quiet(left, next) && Count(next.players) == 0
  {
    assert forall j :: 0 <= j < 4 ==> next.players[j] == BLANK;
  }

  lemma QuietReflexive(r: Room)
    requires Invariant(r)
    ensures Quiet(r, r)
  {
  }

  lemma DropSilentStep(r: Room, from: nat, now: nat)
    requires from <= 4 && Invariant(r)
    ensures Quiet(r, DropSilent(r, from, now))
    decreases 4 - from
  {
    hide Drop, Invariant, Evolves, Keeps;
    if from == 4 {
      QuietReflexive(r);
    } else if TimedOut(r.players[from], now) {
      var r1 := Drop(r, from);
      DropStep(r, from);
      DropSilentStep(r1, from + 1, now);
      QuietTransitive(r, r1, DropSilent(r1, from + 1, now));
    } else {
      DropSilentStep(r, from + 1, now);
    }
  }

  // The phase machine.

  lemma StartLoadingStep(r: Room)
    requires Invariant(r)
    ensures Quiet(r, StartLoading(r))
    ensures StartLoading(r).closed == r.closed
  {
  }

  lemma StartCountdownStep(r: Room, now: nat)
    requires Invariant(r) && !r.closed
    ensures Quiet(r, StartCountdown(r, now))
    ensures !StartCountdown(r, now).closed
  {
  }

  lemma CountDownStep(r: Room, now: nat)
    requires Invariant(r) && !r.closed
    ensures Quiet(r, CountDown(r, now))
    ensures !CountDown(r, now).closed
  {
    if r.phase == Countdown && AllArmed(r.players, r.start) && now >= r.start {
      ReleaseInvariant(r, now);
      ReleaseEvolves(r, now);
    }
  }

  lemma ReleaseInvariant(r: Room, now: nat)
    requires Invariant(r) && !r.closed
    requires r.phase == Countdown && AllArmed(r.players, r.start) && now >= r.start
    ensures Invariant(CountDown(r, now))
  {
    var r' := CountDown(r, now);
    assert forall i :: 0 <= i < 4 ==> r'.players[i] == Release(r.players[i]);
    assert forall i :: 0 <= i < 4 ==> (Occupied(r'.players[i]) <==> Occupied(r.players[i]));
  }

  lemma ReleaseEvolves(r: Room, now: nat)
    requires Invariant(r) && !r.closed
    requires r.phase == Countdown && AllArmed(r.players, r.start) && now >= r.start
    ensures Evolves(r, CountDown(r, now)) && Keeps(r, CountDown(r, now))
  {
    var r' := CountDown(r, now);
    assert forall i :: 0 <= i < 4 ==> r'.players[i] == Release(r.players[i]);
  }

  lemma FinishRaceStep(r: Room)
    requires Invariant(r) && !r.closed
    ensures Quiet(r, FinishRace(r))
  {
  }

  lemma AdvancePhaseStep(r: Room, now: nat)
    requires Invariant(r) && !r.closed
    ensures Quiet(r, AdvancePhase(r, now))
  {
    var r1 := StartLoading(r);
    var r2 := StartCountdown(r1, now);
    var r3 := CountDown(r2, now);
    StartLoadingStep(r);
    StartCountdownStep(r1, now);
    CountDownStep(r2, now);
    FinishRaceStep(r3);
    QuietTransitive(r, r1, r2);
    QuietTransitive(r, r2, r3);
    QuietTransitive(r, r3, FinishRace(r3));
  }

  lemma AdvanceStep(r: Room, now: nat)
    requires Invariant(r)
    ensures Quiet(r, Advance(r, now))
  {
    var r1 := DropSilent(r, 0, now);
    DropSilentStep(r, 0, now);
    if !r1.closed {
      AdvancePhaseStep(r1, now);
      QuietTransitive(r, r1, AdvancePhase(r1, now));
    }
  }

  // Commands.

  /** The new status of the sender of a command. */
  function CommandedStatus(r: Room, i: nat, c: Command): Status
    requires i < 4
  {
    if !CommandValid(r, i, c) then r.players[i].status
    else match c
      case Select(_) => Selected
      case Loaded(_, _, _) => PlayerLoaded
      case Finish => Finished
      case _ => r.players[i].status
  }

  /** A command changes only its sender's slot, and there neither the identity nor the presence. */
  predicate ChangesOnly(r: Room, i: nat, r': Room)
    requires i < 4
  {
    && r'.race == r.race
    && (forall j :: 0 <= j < 4 && j != i ==> r'.players[j] == r.players[j])
    && Occupied(r.players[i]) && Occupied(r'.players[i])
    && r'.players[i].address == r.players[i].address
    && r'.players[i].token == r.players[i].token
    && r'.players[i].nonce == r.players[i].nonce
  }

  lemma ChangesOnlyCounts(r: Room, i: nat, r': Room)
    requires i < 4 && ChangesOnly(r, i, r')
    ensures Count(r'.players) == Count(r.players)
    ensures forall j :: 0 <= j < 4 ==> (Occupied(r'.players[j]) <==> Occupied(r.players[j]))
  {
  }

  lemma CommandedShape(r: Room, i: nat, number: nat, c: Command, at: Times)
    requires i < 4 && Occupied(r.players[i])
    ensures var r' := Commanded(r, i, number, c, at);
      && ChangesOnly(r, i, r')
      && r'.players[i].commandSeq == number
      && r'.players[i].seen == at.seen
      && r'.players[i].status == CommandedStatus(r, i, c)
      && r'.players[i].car == (if CommandValid(r, i, c) && c.Select? then c.car else r.players[i].car)
      && r'.closed == r.closed && r'.snapshotSeq == r.snapshotSeq && r'.session == r.session
  {
  }

  /** A slot that satisfies everything the invariant asks of one slot in this room. */
  predicate SlotOk(r: Room, p: Player) {
    && StatusFits(r.phase, p.status)
    && p.armed <= r.start
    && (r.phase == Racing || r.phase == Results ==> p.armed == r.start)
    && (p.status != PlayerLoaded && p.status != PlayerRacing ==> p.x == 0 && p.y == 0)
    && p.car < 4
  }

  lemma CommandedSlotOk(r: Room, i: nat, number: nat, c: Command, at: Times)
    requires i < 4 && Occupied(r.players[i]) && Invariant(r)
    ensures SlotOk(r, Commanded(r, i, number, c, at).players[i])
  {
  }

  lemma CommandedSettings(r: Room, i: nat, number: nat, c: Command, at: Times)
    requires i < 4 && Occupied(r.players[i]) && Invariant(r)
    ensures var r' := Commanded(r, i, number, c, at);
      && r' == r.(players := r'.players, expected := r'.expected, track := r'.track, league := r'.league)
      && 2 <= r'.expected <= 4 && r'.track < 5 && r'.league < 3 && Count(r.players) <= r'.expected
  {
  }

  lemma CommandedInvariant(r: Room, i: nat, number: nat, c: Command, at: Times)
    requires i < 4 && Occupied(r.players[i]) && Invariant(r) && !r.closed
    ensures Invariant(Commanded(r, i, number, c, at))
  {
    var r' := Commanded(r, i, number, c, at);
    CommandedShape(r, i, number, c, at);
    CommandedSlotOk(r, i, number, c, at);
    CommandedSettings(r, i, number, c, at);
    SlotReplaced(r, i, r');
  }

  lemma SlotReplaced(r: Room, i: nat, r': Room)
    requires i < 4 && Invariant(r) && !r.closed && ChangesOnly(r, i, r') && SlotOk(r, r'.players[i])
    requires r' == r.(players := r'.players, expected := r'.expected, track := r'.track, league := r'.league)
    requires 2 <= r'.expected <= 4 && r'.track < 5 && r'.league < 3 && Count(r.players) <= r'.expected
    ensures Invariant(r')
  {
    ChangesOnlyCounts(r, i, r');
    assert SettingsOk(r');
    assert TableOk(r');
    assert StartOk(r');
    assert HiddenOk(r');
    assert IdentityOk(r');
  }

  lemma CommandedEvolves(r: Room, i: nat, number: nat, c: Command, at: Times)
    requires i < 4 && Occupied(r.players[i]) && Invariant(r) && !r.closed
    ensures Evolves(r, Commanded(r, i, number, c, at))
  {
    var r' := Commanded(r, i, number, c, at);
    CommandedShape(r, i, number, c, at);
    ChangesOnlyCounts(r, i, r');
    assert StatusFits(r.phase, r.players[i].status);
    if r.phase != Lobby {
      assert r'.players[i].car == r.players[i].car;
      assert Frozen(r, r');
    }
  }

  lemma PublishStep(r: Room, now: nat)
    requires Invariant(r)
    ensures Quiet(r, Publish(r, now).room)
  {
  }

  lemma ExecuteStep(r: Room, i: nat, number: nat, c: Command, at: Times)
    requires i < 4 && Occupied(r.players[i]) && Invariant(r) && !r.closed
    ensures var r1 := Commanded(r, i, number, c, at);
      && Invariant(r1) && Evolves(r, r1)
      && Quiet(r1, Execute(r, i, number, c, at).room)
      && Evolves(r, Execute(r, i, number, c, at).room)
  {
    var valid := CommandValid(r, i, c);
    var r1 := Commanded(r, i, number, c, at);
    CommandedShape(r, i, number, c, at);
    CommandedInvariant(r, i, number, c, at);
    CommandedEvolves(r, i, number, c, at);
    var r2 := Settled(r1, i, valid, c);
    SettledStep(r1, i, valid, c);
    var r3 := Advance(r2, at.advanced);
    AdvanceStep(r2, at.advanced);
    QuietTransitive(r1, r2, r3);
    PublishStep(r3, at.published);
    QuietTransitive(r1, r3, Publish(r3, at.published).room);
    EvolvesTransitive(r, r1, Publish(r3, at.published).room);
  }

  lemma SettledStep(r: Room, i: nat, valid: bool, c: Command)
    requires i < 4 && Occupied(r.players[i]) && Invariant(r)
    ensures Quiet(r, Settled(r, i, valid, c))
  {
    if valid && c == Next {
      BeginLobbyStep(r);
    } else if valid && c == Leave {
      DropStep(r, i);
    }
  }

  // Joining.

  /** A token no present player uses. */
  predicate UnusedToken(r: Room, token: nat) {
    token != 0 && forall i :: 0 <= i < 4 && Occupied(r.players[i]) ==> r.players[i].token != token
  }

  lemma SeatedCounts(ps: Slots, i: nat, p: Player)
    requires i < 4 && !Occupied(ps[i]) && Occupied(p)
    ensures Count(ps[i := p]) == Count(ps) + 1
  {
  }

  lemma SeatedStep(r: Room, from: nat, nonce: nat, key: seq<nat>, token: nat, now: nat)
    requires Invariant(r) && !r.closed && UnusedToken(r, token)
    requires Seat(r, from, nonce, key) < 4
    ensures Invariant(Seated(r, Seat(r, from, nonce, key), from, token, nonce, now))
    ensures Evolves(r, Seated(r, Seat(r, from, nonce, key), from, token, nonce, now))
  {
    var i := Seat(r, from, nonce, key);
    var r' := Seated(r, i, from, token, nonce, now);
    SeatedCounts(r.players, i, NewPlayer(from, token, nonce, now));
    assert forall j :: 0 <= j < 4 ==> !AtAddress(r.players[j], from);
    assert IdentityOk(r');
    assert HostOk(r');
    if r.ownerNonce != 0 && Count(r.players) == 0 {
      assert i == 0;
    }
    assert OwnerOk(r');
  }

  lemma UnseatedStep(r: Room, j: nat, p: Player)
    requires Invariant(r) && j < 4 && !Occupied(r.players[j]) && r.phase == Lobby
    requires !Occupied(p) && p.x == 0 && p.y == 0 && p.car == 0
    ensures Quiet(r, r.(players := r.players[j := p]))
  {
    var r' := r.(players := r.players[j := p]);
    assert Count(r'.players) == Count(r.players) by {
      if j == 0 {} else if j == 1 {} else if j == 2 {} else {}
    }
    SamePresence(r, r');
  }

  /** Changing only unoccupied slots in the lobby. */
  lemma SamePresence(r: Room, r': Room)
    requires Invariant(r) && r.phase == Lobby && r' == r.(players := r'.players)
    requires Count(r'.players) == Count(r.players)
    requires forall i :: 0 <= i < 4 ==>
      || r'.players[i] == r.players[i]
      || (!Occupied(r.players[i]) && !Occupied(r'.players[i])
          && r'.players[i].x == 0 && r'.players[i].y == 0 && r'.players[i].car == 0)
    ensures Quiet(r, r')
  {
  }

  // Everything else a packet can do.

  /** The new record differs from the old only in what heartbeats and movement may touch. */
  predicate Touched(p: Player, p': Player) {
    && p' == p.(seen := p'.seen, ping := p'.ping, updated := p'.updated, stateSeq := p'.stateSeq,
                x := p'.x, y := p'.y, orientation := p'.orientation)
    && (p.status == PlayerRacing || (p'.x == p.x && p'.y == p.y))
  }

  lemma TouchedStep(r: Room, r': Room)
    requires Invariant(r)
    requires r' == r.(players := r'.players)
    requires forall i :: 0 <= i < 4 ==> Touched(r.players[i], r'.players[i])
    ensures Quiet(r, r')
  {
    assert forall i :: 0 <= i < 4 ==> r'.players[i].status == r.players[i].status;
    assert Count(r'.players) == Count(r.players);
    assert HiddenOk(r');
    assert IdentityOk(r');
    assert AllArmed(r.players, r.start) <==> AllArmed(r'.players, r'.start);
  }

  /** The packet is a command that the room executes, from the given slot. */
  predicate Executes(r: Room, from: nat, p: Packet) {
    !r.closed && Sender(r, from, p) < 4 && InSequence(r, Sender(r, from, p), p)
  }

  /** The packet seats a new player. */
  predicate Seats(r: Room, from: nat, p: Packet, token: nat) {
    !r.closed && p.body.Hello? && token != 0 && Seat(r, from, p.body.nonce, p.body.key) < 4
  }

  lemma ReceiveExecutes(r: Room, from: nat, p: Packet, at: Times, token: nat)
    requires Executes(r, from, p)
    ensures Receive(r, from, p, at, token) == Execute(r, Sender(r, from, p), p.number, p.body.command, at)
  {
    var i := Sender(r, from, p);
    assert Receive(r, from, p, at, token) == ReceiveFrom(r, i, p, at);
    assert !p.body.Movement? && !p.body.Ping? && !p.body.Pong?;
  }

  lemma ReceiveSeats(r: Room, from: nat, p: Packet, at: Times, token: nat)
    requires Seats(r, from, p, token)
    ensures var i := Seat(r, from, p.body.nonce, p.body.key);
      && i < 4
      && Receive(r, from, p, at, token).room ==
           Publish(Seated(r, i, from, token, p.body.nonce, at.seen), at.published).room
      && Receive(r, from, p, at, token).sent ==
           {Addressed(Seated(r, i, from, token, p.body.nonce, at.seen), i, 0, Welcome(i, p.body.nonce))}
           + Publish(Seated(r, i, from, token, p.body.nonce, at.seen), at.published).sent
  {
  }

  lemma ReceiveQuiet(r: Room, from: nat, p: Packet, at: Times, token: nat)
    requires Invariant(r) && !Executes(r, from, p) && !Seats(r, from, p, token)
    ensures Quiet(r, Receive(r, from, p, at, token).room)
    ensures Receive(r, from, p, at, token).room.snapshotSeq == r.snapshotSeq
    ensures Receive(r, from, p, at, token).room.race == r.race
  {
    if r.closed {
    } else if p.body.Hello? {
      HelloQuiet(r, from, p.body.nonce, p.body.key, at, token);
    } else if Sender(r, from, p) < 4 {
      FromQuiet(r, Sender(r, from, p), p, at);
    }
  }

  lemma HelloQuiet(r: Room, from: nat, nonce: nat, key: seq<nat>, at: Times, token: nat)
    requires Invariant(r) && !r.closed && (token == 0 || Seat(r, from, nonce, key) == 4)
    ensures var r' := ReceiveHello(r, from, nonce, key, at, token).room;
      Quiet(r, r') && r'.snapshotSeq == r.snapshotSeq && r'.race == r.race
  {
    var r' := ReceiveHello(r, from, nonce, key, at, token).room;
    if r' != r {
      UnseatedStep(r, FirstFree(r.players), BLANK.(address := from));
    }
  }

  lemma FromQuiet(r: Room, i: nat, p: Packet, at: Times)
    requires Invariant(r) && i < 4 && !InSequence(r, i, p)
    ensures var r' := ReceiveFrom(r, i, p, at).room;
      Quiet(r, r') && r'.snapshotSeq == r.snapshotSeq && r'.race == r.race
  {
    FromTouches(r, i, p, at);
    TouchedStep(r, ReceiveFrom(r, i, p, at).room);
  }

  lemma FromTouches(r: Room, i: nat, p: Packet, at: Times)
    requires i < 4 && !InSequence(r, i, p)
    ensures var r' := ReceiveFrom(r, i, p, at).room;
      && r' == r.(players := r'.players)
      && forall j :: 0 <= j < 4 ==> Touched(r.players[j], r'.players[j])
  {
  }

  /** Every packet, in every state: the invariant survives and the room evolves. */
  lemma ReceiveStep(r: Room, from: nat, p: Packet, at: Times, token: nat)
    requires Invariant(r) && (Seats(r, from, p, token) ==> UnusedToken(r, token))
    ensures Invariant(Receive(r, from, p, at, token).room)
    ensures Evolves(r, Receive(r, from, p, at, token).room)
  {
    if Executes(r, from, p) {
      ReceiveExecutes(r, from, p, at, token);
      ExecuteStep(r, Sender(r, from, p), p.number, p.body.command, at);
    } else if Seats(r, from, p, token) {
      ReceiveSeats(r, from, p, at, token);
      var i := Seat(r, from, p.body.nonce, p.body.key);
      SeatedStep(r, from, p.body.nonce, p.body.key, token, at.seen);
      var r1 := Seated(r, i, from, token, p.body.nonce, at.seen);
      PublishStep(r1, at.published);
      EvolvesTransitive(r, r1, Publish(r1, at.published).room);
    } else {
      ReceiveQuiet(r, from, p, at, token);
    }
  }

  lemma TickStep(r: Room, now: nat, published: nat)
    requires Invariant(r)
    ensures Quiet(r, Tick(r, now, published).room)
  {
    var r1 := Advance(r, now);
    AdvanceStep(r, now);
    if !r1.closed {
      PublishStep(r1, published);
      QuietTransitive(r, r1, Publish(r1, published).room);
    }
  }

  lemma PingAllStep(r: Room, now: nat)
    requires Invariant(r)
    ensures Quiet(r, PingAll(r, now).room)
  {
    TouchedStep(r, PingAll(r, now).room);
  }

  lemma CloseStep(r: Room)
    requires Invariant(r)
    ensures Quiet(r, Close(r).room)
  {
  }

  lemma CreatedInvariant(session: nat, owner: nat, key: seq<nat>, players: nat, track: nat, league: nat)
    requires 2 <= players <= 4 && track < 5 && league < 3
    ensures Invariant(Created(session, owner, key, players, track, league))
  {
  }
}
