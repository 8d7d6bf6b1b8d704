/** What the room guarantees, over single steps and over whole runs. */
module RoomTheorems {
  import opened Words
  import opened Messages
  import opened Rooms
  import opened RoomInvariants
  import opened RoomSteps

  // Phases.

  lemma DropSilentGeneration(r: Room, from: nat, now: nat)
    requires from <= 4 && Invariant(r)
    ensures var r' := DropSilent(r, from, now);
      if r'.race == r.race then r'.phase == r.phase && r'.start == r.start
      else r'.race == r.race + 1 && r'.phase == Lobby && Count(r'.players) == 0
    decreases 4 - from
  {
    if from < 4 && TimedOut(r.players[from], now) {
      var r1 := Drop(r, from);
      DropStep(r, from);
      DropEffect(r, from);
      if r1.race != r.race {
        EmptyStaysPut(r1, from + 1, now);
      }
      DropSilentGeneration(r1, from + 1, now);
    } else if from < 4 {
      DropSilentGeneration(r, from + 1, now);
    }
  }

  lemma EmptyStaysPut(r: Room, from: nat, now: nat)
    requires from <= 4 && Count(r.players) == 0
    ensures DropSilent(r, from, now) == r
    decreases 4 - from
  {
  }

  /** The chain of tests takes at most one phase edge: a player that has just been counted as selected,
      loaded or racing never satisfies the next test as well. */
  lemma AdvancePhaseEdge(r: Room, now: nat)
    requires Invariant(r) && !r.closed
    ensures var r' := AdvancePhase(r, now);
      && r'.race == r.race
      && PhaseRank(r.phase) <= PhaseRank(r'.phase) <= PhaseRank(r.phase) + 1
      && (Count(r.players) == 0 ==> r' == r)
      && ((forall i :: 0 <= i < 4 && Occupied(r.players[i]) ==> r.players[i].status == Joined) ==> r' == r)
  {
    if r.phase == Lobby {
      assert StartLoading(r) == r || StartLoading(r).phase == Loading;
      AdvanceFromLobby(r, now);
    } else if r.phase == Loading {
      AdvanceFromLoading(r, now);
    } else if r.phase == Countdown {
      AdvanceFromCountdown(r, now);
    }
  }

  lemma AdvanceFromLobby(r: Room, now: nat)
    requires Invariant(r) && !r.closed && r.phase == Lobby
    ensures AdvancePhase(r, now) == StartLoading(r)
    ensures (forall i :: 0 <= i < 4 && Occupied(r.players[i]) ==> r.players[i].status == Joined) ==>
              StartLoading(r) == r
  {
  }

  lemma AdvanceFromLoading(r: Room, now: nat)
    requires Invariant(r) && !r.closed && r.phase == Loading
    ensures AdvancePhase(r, now) == StartCountdown(r, now)
    ensures (forall i :: 0 <= i < 4 && Occupied(r.players[i]) ==> r.players[i].status == Joined) ==>
      Count(r.players) == 0
  {
  }

  lemma AdvanceFromCountdown(r: Room, now: nat)
    requires Invariant(r) && !r.closed && r.phase == Countdown
    ensures AdvancePhase(r, now) == CountDown(r, now)
  {
  }

  /** One `advance` either stays in its race generation and takes at most one forward phase edge,
      or empties the room and begins exactly one new lobby. */
  lemma AdvanceEdge(r: Room, now: nat)
    requires Invariant(r)
    ensures var r' := Advance(r, now);
      if r'.race == r.race then PhaseRank(r.phase) <= PhaseRank(r'.phase) <= PhaseRank(r.phase) + 1
      else r'.race == r.race + 1 && r'.phase == Lobby && Count(r'.players) == 0
  {
    var r1 := DropSilent(r, 0, now);
    DropSilentStep(r, 0, now);
    DropSilentGeneration(r, 0, now);
    if !r1.closed {
      AdvancePhaseEdge(r1, now);
    }
  }

  lemma AdvanceAfterLobby(r: Room, now: nat)
    requires Invariant(r) && r.phase == Lobby
    requires forall i :: 0 <= i < 4 && Occupied(r.players[i]) ==> r.players[i].status == Joined
    ensures Advance(r, now).phase == Lobby && r.race <= Advance(r, now).race <= r.race + 1
  {
    var r1 := DropSilent(r, 0, now);
    DropSilentStep(r, 0, now);
    DropSilentGeneration(r, 0, now);
    if !r1.closed {
      assert forall i :: 0 <= i < 4 && Occupied(r1.players[i]) ==> r1.players[i].status == Joined;
      AdvancePhaseEdge(r1, now);
    }
  }

  // Beginning two lobbies at once.

  /** From slot `from` on, the timeouts empty the room: nobody is left before, everybody from there on is silent, and
      somebody other than an owner is among them. */
  predicate Empties(r: Room, from: nat, now: nat)
    requires from <= 4
  {
    && (forall j :: 0 <= j < from ==> !Occupied(r.players[j]))
    && (forall j :: from <= j < 4 && Occupied(r.players[j]) ==> TimedOut(r.players[j], now))
    && exists j :: from <= j < 4 && Occupied(r.players[j]) && (r.ownerNonce == 0 || j > 0)
  }

  /** The timeouts begin a lobby exactly when they empty the room. */
  lemma {:induction false} SilenceEmpties(r: Room, from: nat, now: nat)
    requires from <= 4 && Invariant(r)
    ensures DropSilent(r, from, now).race == (if Empties(r, from, now) then r.race + 1 else r.race)
    decreases 4 - from
  {
    hide Invariant, Drop, Quiet;
    if from == 4 {
    } else if TimedOut(r.players[from], now) {
      var r1 := Drop(r, from);
      DropEffect(r, from);
      if Alone(r.players, from) && (r.ownerNonce == 0 || from != 0) {
        EmptyStaysPut(r1, from + 1, now);
        assert Occupied(r.players[from]);
      } else {
        assert Invariant(r1) by { DropStep(r, from); QuietInvariant(r, r1); }
        SilenceEmpties(r1, from + 1, now);
        EmptiesNext(r, r1, from, now);
      }
    } else {
      SilenceEmpties(r, from + 1, now);
      EmptiesLater(r, from, now);
    }
  }

  lemma QuietInvariant(r: Room, r': Room)
    requires Quiet(r, r')
    ensures Invariant(r')
  {
  }

  lemma EmptiesNext(r: Room, r1: Room, from: nat, now: nat)
    requires from < 4 && TimedOut(r.players[from], now) && r1.ownerNonce == r.ownerNonce
    requires !(Alone(r.players, from) && (r.ownerNonce == 0 || from != 0))
    requires !Occupied(r1.players[from]) && forall j :: 0 <= j < 4 && j != from ==> r1.players[j] == r.players[j]
    ensures Empties(r, from, now) <==> Empties(r1, from + 1, now)
  {
    if Empties(r, from, now) {
      var j :| from <= j < 4 && Occupied(r.players[j]) && (r.ownerNonce == 0 || j > 0);
      if j == from {
        var k :| 0 <= k < 4 && k != from && Occupied(r.players[k]);
        assert Occupied(r1.players[k]);
      } else {
        assert Occupied(r1.players[j]);
      }
    }
    if Empties(r1, from + 1, now) {
      var j :| from + 1 <= j < 4 && Occupied(r1.players[j]) && (r.ownerNonce == 0 || j > 0);
      assert Occupied(r.players[j]);
    }
  }

  lemma EmptiesLater(r: Room, from: nat, now: nat)
    requires from < 4 && !TimedOut(r.players[from], now)
    ensures Empties(r, from, now) <==> Empties(r, from + 1, now)
  {
  }

  /** Player `j` counts as silent once a packet from player `i` has been handled. */
  predicate Silent(r: Room, i: nat, j: nat, at: Times)
    requires j < 4
  {
    Elapsed(at.advanced, if j == i then at.seen else r.players[j].seen) >= HEARTBEAT
  }

  /** A NEXT of the host that finds everybody silent, in a room with somebody who is not the owner. */
  predicate BeginsTwo(r: Room, from: nat, p: Packet, at: Times) {
    && Executes(r, from, p)
    && p.body.command == Next
    && CommandValid(r, Sender(r, from, p), Next)
    && (forall j :: 0 <= j < 4 && Occupied(r.players[j]) ==> Silent(r, Sender(r, from, p), j, at))
    && (r.ownerNonce == 0 || exists j :: 1 <= j < 4 && Occupied(r.players[j]))
  }

  /** The race generation changes only by entering the lobby. One packet begins at most two lobbies, and it begins two
      exactly when it is a valid NEXT after which everybody is found silent, and not only an owner was present. */
  lemma GenerationChangesInLobby(r: Room, from: nat, p: Packet, at: Times, token: nat)
    requires Invariant(r) && (Seats(r, from, p, token) ==> UnusedToken(r, token))
    ensures var r' := Receive(r, from, p, at, token).room;
      && (r'.race != r.race ==> r'.phase == Lobby && r'.race <= r.race + 2)
      && (r'.race == r.race + 2 <==> BeginsTwo(r, from, p, at))
  {
    hide Invariant, Receive, Execute, BeginsTwo;
    if Executes(r, from, p) {
      ReceiveExecutes(r, from, p, at, token);
      ExecuteGeneration(r, Sender(r, from, p), p.number, p.body.command, at);
      TwoLobbies(r, from, p, at);
    } else {
      assert !BeginsTwo(r, from, p, at) by { NotExecuted(r, from, p, at); }
      if Seats(r, from, p, token) {
        ReceiveSeats(r, from, p, at, token);
      } else {
        QuietGeneration(r, from, p, at, token);
      }
    }
  }

  lemma NotExecuted(r: Room, from: nat, p: Packet, at: Times)
    requires !Executes(r, from, p)
    ensures !BeginsTwo(r, from, p, at)
  {
  }

  lemma QuietGeneration(r: Room, from: nat, p: Packet, at: Times, token: nat)
    requires Invariant(r) && !Executes(r, from, p) && !Seats(r, from, p, token)
    ensures Receive(r, from, p, at, token).room.race == r.race
  {
  }

  /** After a valid NEXT, everybody has been reset to the lobby, seen when they were seen before, and the sender now. */
  lemma AfterNext(r: Room, i: nat, number: nat, at: Times)
    requires i < 4 && Occupied(r.players[i]) && CommandValid(r, i, Next)
    ensures var r2 := BeginLobby(Commanded(r, i, number, Next, at));
      && r2.race == r.race + 1 && r2.ownerNonce == r.ownerNonce
      && forall j :: 0 <= j < 4 ==>
           && (Occupied(r2.players[j]) <==> Occupied(r.players[j]))
           && (Occupied(r.players[j]) ==> r2.players[j].seen == if j == i then at.seen else r.players[j].seen)
  {
  }

  /** The generation after a command: one more for a valid NEXT, one more for emptying the room. */
  lemma ExecutedRace(r: Room, i: nat, number: nat, c: Command, at: Times)
    requires i < 4 && Occupied(r.players[i]) && Invariant(r) && !r.closed
    ensures var valid := CommandValid(r, i, c);
      var r2 := Settled(Commanded(r, i, number, c, at), i, valid, c);
      && Execute(r, i, number, c, at).room.race == (if Empties(r2, 0, at.advanced) then r2.race + 1 else r2.race)
      && (valid && c == Next ==> r2 == BeginLobby(Commanded(r, i, number, c, at)))
      && (r2.race == r.race + 1 && !(valid && c == Next) ==> !Empties(r2, 0, at.advanced))
      && r.race <= r2.race <= r.race + 1
  {
    hide Invariant, Commanded, Drop, Quiet, DropSilent, AdvancePhase;
    var valid := CommandValid(r, i, c);
    var r1 := Commanded(r, i, number, c, at);
    CommandedShape(r, i, number, c, at);
    CommandedInvariant(r, i, number, c, at);
    var r2 := Settled(r1, i, valid, c);
    SettledStep(r1, i, valid, c);
    QuietInvariant(r1, r2);
    DropEffect(r1, i);
    AdvanceRace(r2, at.advanced);
  }

  lemma AdvanceRace(r: Room, now: nat)
    requires Invariant(r)
    ensures Advance(r, now).race == if Empties(r, 0, now) then r.race + 1 else r.race
  {
    hide Invariant, AdvancePhase, Empties, Quiet;
    var r1 := DropSilent(r, 0, now);
    SilenceEmpties(r, 0, now);
    DropSilentStep(r, 0, now);
    QuietInvariant(r, r1);
    if !r1.closed {
      AdvancePhaseEdge(r1, now);
    }
  }

  lemma TwoLobbies(r: Room, from: nat, p: Packet, at: Times)
    requires Invariant(r) && Executes(r, from, p)
    ensures var r' := Execute(r, Sender(r, from, p), p.number, p.body.command, at).room;
      r'.race == r.race + 2 <==> BeginsTwo(r, from, p, at)
  {
    hide Invariant, Execute, Commanded, Drop, BeginLobby, CommandValid;
    var i, c := Sender(r, from, p), p.body.command;
    ExecutedRace(r, i, p.number, c, at);
    if CommandValid(r, i, c) && c == Next {
      AfterNext(r, i, p.number, at);
      var r2 := BeginLobby(Commanded(r, i, p.number, Next, at));
      NextEmpties(r, r2, from, p, at);
    }
  }

  lemma NextEmpties(r: Room, r2: Room, from: nat, p: Packet, at: Times)
    requires Executes(r, from, p) && p.body.command == Next && CommandValid(r, Sender(r, from, p), Next)
    requires r2.ownerNonce == r.ownerNonce
    requires forall j :: 0 <= j < 4 ==>
      && (Occupied(r2.players[j]) <==> Occupied(r.players[j]))
      && (Occupied(r.players[j]) ==>
            r2.players[j].seen == if j == Sender(r, from, p) then at.seen else r.players[j].seen)
    ensures Empties(r2, 0, at.advanced) <==> BeginsTwo(r, from, p, at)
  {
    hide CommandValid;
    var i := Sender(r, from, p);
    assert Occupied(r.players[i]) && Occupied(r2.players[i]);
    forall j | 0 <= j < 4 && Occupied(r.players[j])
      ensures TimedOut(r2.players[j], at.advanced) <==> Silent(r, i, j, at)
    {
    }
    if exists j :: 1 <= j < 4 && Occupied(r.players[j]) {
      var j :| 1 <= j < 4 && Occupied(r.players[j]);
      assert Occupied(r2.players[j]);
    }
  }

  lemma ExecuteGeneration(r: Room, i: nat, number: nat, c: Command, at: Times)
    requires i < 4 && Occupied(r.players[i]) && Invariant(r) && !r.closed
    ensures var r' := Execute(r, i, number, c, at).room;
      r'.race != r.race ==> r'.phase == Lobby && r'.race <= r.race + 2
  {
    var valid := CommandValid(r, i, c);
    var r1 := Commanded(r, i, number, c, at);
    CommandedShape(r, i, number, c, at);
    CommandedInvariant(r, i, number, c, at);
    var r2 := Settled(r1, i, valid, c);
    SettledStep(r1, i, valid, c);
    SettledGeneration(r1, i, valid, c);
    if r2.race != r1.race {
      AdvanceAfterLobby(r2, at.advanced);
    } else {
      AdvanceEdge(r2, at.advanced);
    }
  }

  lemma SettledGeneration(r: Room, i: nat, valid: bool, c: Command)
    requires i < 4 && Occupied(r.players[i]) && Invariant(r)
    ensures var r' := Settled(r, i, valid, c);
      r'.race != r.race ==>
        && r'.race == r.race + 1 && r'.phase == Lobby
        && forall j :: 0 <= j < 4 && Occupied(r'.players[j]) ==> r'.players[j].status == Joined
  {
    hide Invariant, Drop;
    if valid && c == Leave {
      DropEffect(r, i);
    }
  }

  // The start deadline.

  /** Whenever `advance` leaves an open room counting down, an unacknowledged deadline lies more than the
      guard time ahead, and an acknowledged one has not been reached. */
  lemma CountdownBounds(r: Room, now: nat)
    requires Invariant(r)
    ensures var r' := Advance(r, now);
      !r'.closed && r'.phase == Countdown ==>
        r'.start > now + GUARD || (AllArmed(r'.players, r'.start) && r'.start > now)
  {
    var r1 := DropSilent(r, 0, now);
    DropSilentStep(r, 0, now);
    if !r1.closed {
      AdvancePhaseBounds(r1, now);
    }
  }

  lemma AdvancePhaseBounds(r: Room, now: nat)
    requires Invariant(r) && !r.closed
    ensures var r' := AdvancePhase(r, now);
      r'.phase == Countdown ==>
        r'.start > now + GUARD || (AllArmed(r'.players, r'.start) && r'.start > now)
  {
  }

  /** A deadline once replaced never returns in its generation, so an obsolete ARM is always refused. */
  lemma ObsoleteArm(armed: Room, replaced: Room, later: Room, i: nat)
    requires i < 4
    requires Evolves(armed, replaced) && Evolves(replaced, later) && later.race == armed.race
    requires armed.start != 0 && replaced.start != armed.start
    ensures later.start >= armed.start + (LEAD - GUARD)
    ensures !CommandValid(later, i, Arm(armed.start))
  {
  }

  // Whole runs of the room.

  datatype RoomEvent =
    | Received(from: nat, packet: Packet, at: Times, token: nat)
    | Ticked(now: nat, published: nat)
    | PingsSent(now: nat)
    | Closed

  predicate Allowed(r: Room, e: RoomEvent) {
    e.Received? && Seats(r, e.from, e.packet, e.token) ==> UnusedToken(r, e.token)
  }

  function Apply(r: Room, e: RoomEvent): Outcome {
    match e
    case Received(from, packet, at, token) => Receive(r, from, packet, at, token)
    case Ticked(now, published) => if r.closed then Outcome(r, {}) else Tick(r, now, published)
    case PingsSent(now) => PingAll(r, now)
    case Closed => Close(r)
  }

  function Run(r: Room, es: seq<RoomEvent>): Room {
    if es == [] then r else Apply(Run(r, es[..|es| - 1]), es[|es| - 1]).room
  }

  predicate AllowedRun(r: Room, es: seq<RoomEvent>) {
    forall k :: 0 <= k < |es| ==> Allowed(Run(r, es[..k]), es[k])
  }

  lemma ApplyStep(r: Room, e: RoomEvent)
    requires Invariant(r) && Allowed(r, e)
    ensures Invariant(Apply(r, e).room) && Evolves(r, Apply(r, e).room)
  {
    match e
    case Received(from, packet, at, token) => ReceiveStep(r, from, packet, at, token);
    case Ticked(now, published) => TickStep(r, now, published);
    case PingsSent(now) => PingAllStep(r, now);
    case Closed => CloseStep(r);
  }

  /** Over every run: the invariant holds at the end, and the end is an evolution of the beginning. */
  lemma {:induction false} RunSafety(r: Room, es: seq<RoomEvent>)
    requires Invariant(r) && AllowedRun(r, es)
    ensures Invariant(Run(r, es)) && Evolves(r, Run(r, es))
  {
    hide Invariant, Evolves, Allowed, AllowedRun, Apply;
    if es == [] {
      EvolvesReflexive(r);
    } else {
      var k := |es| - 1;
      var front := es[..k];
      ShorterRun(r, es);
      RunSafety(r, front);
      ApplyStep(Run(r, front), es[k]);
      EvolvesTransitive(r, Run(r, front), Run(r, es));
    }
  }

  /** The same for a freshly created room, with what a maintainer reads off the invariant. */
  lemma ReachableRooms(session: nat, owner: nat, key: seq<nat>, players: nat, track: nat, league: nat,
                       es: seq<RoomEvent>)
    requires 2 <= players <= 4 && track < 5 && league < 3
    requires AllowedRun(Created(session, owner, key, players, track, league), es)
    ensures var r := Run(Created(session, owner, key, players, track, league), es);
      && Invariant(r)
      && (forall i :: 0 <= i < 4 && Occupied(r.players[i]) ==> StatusFits(r.phase, r.players[i].status))
      && (forall i :: 0 <= i < 4 && r.players[i].status !in {PlayerLoaded, PlayerRacing} ==>
            r.players[i].x == 0 && r.players[i].y == 0)
      && Count(r.players) <= r.expected <= 4
      && (!r.closed ==> (r.host == NO_HOST <==> Count(r.players) == 0))
      && (!r.closed && r.host != NO_HOST ==> r.host < 4 && Occupied(r.players[r.host]))
      && (!r.closed && r.phase != Lobby ==> Count(r.players) > 0)
      && (!r.closed && owner != 0 && Count(r.players) > 0 ==>
            r.host == 0 && Occupied(r.players[0]) && r.players[0].nonce == owner)
  {
    CreatedInvariant(session, owner, key, players, track, league);
    RunSafety(Created(session, owner, key, players, track, league), es);
  }

  // Movement.

  /** Who a player is and where it was last seen to be. */
  predicate SameMovement(p: Player, q: Player) {
    p.address == q.address && p.token == q.token
    && p.stateSeq == q.stateSeq && p.x == q.x && p.y == q.y && p.orientation == q.orientation
  }

  /** The player's stored movement is the one this packet carries. */
  predicate StoresMovement(q: Player, p: Packet) {
    p.body.Movement? && q.stateSeq == p.number
    && q.x == p.body.x && q.y == p.body.y && q.orientation == p.body.orientation
  }

  /** The event delivers a movement of player `p` for the race of this room. */
  predicate DeliversMovement(r: Room, p: Player, e: RoomEvent) {
    && e.Received? && e.packet.body.Movement?
    && e.from == p.address && e.packet.session == r.session && e.packet.token == p.token
    && Same(e.packet.race, r.race)
  }

  /** Timeouts leave the record of a player who stays in the same race alone. */
  lemma {:induction false} SilenceKeeps(r: Room, from: nat, now: nat, i: nat)
    requires from <= 4 && Invariant(r) && i < 4
    ensures var r' := DropSilent(r, from, now);
      r'.race == r.race && Occupied(r'.players[i]) ==> r'.players[i] == r.players[i]
    decreases 4 - from
  {
    hide Invariant, Drop, Evolves, Keeps;
    if from == 4 {
    } else if TimedOut(r.players[from], now) {
      var r1 := Drop(r, from);
      DropEffect(r, from);
      DropStep(r, from);
      SilenceKeeps(r1, from + 1, now, i);
      DropSilentStep(r1, from + 1, now);
      KeptPresence(r1, DropSilent(r1, from + 1, now), i);
    } else {
      SilenceKeeps(r, from + 1, now, i);
    }
  }

  lemma KeptPresence(r: Room, r': Room, i: nat)
    requires Keeps(r, r') && i < 4
    ensures r.race <= r'.race && (Occupied(r'.players[i]) ==> Occupied(r.players[i]))
  {
  }

  lemma RacingPhase(r: Room, i: nat)
    requires Invariant(r) && i < 4 && r.players[i].status == PlayerRacing
    ensures r.phase == Racing
  {
  }

  /** So does `advance`, unless it moves the phase to COUNTDOWN or RACING: the record is kept whole. */
  lemma AdvanceKeepsRecords(r: Room, now: nat, i: nat)
    requires Invariant(r) && i < 4
    ensures var r' := Advance(r, now);
      r'.race == r.race && (r'.phase == r.phase || r.phase == Racing) && Occupied(r'.players[i]) ==>
        r'.players[i] == r.players[i]
  {
    hide Invariant, DropSilent;
    var r1 := DropSilent(r, 0, now);
    SilenceKeeps(r, 0, now, i);
    DropSilentGeneration(r, 0, now);
    AdvanceRace(r, now);
    SilenceEmpties(r, 0, now);
  }

  /** `advance` removes exactly the players that have been silent for the heartbeat time. */
  lemma SilentAreDropped(r: Room, now: nat, i: nat)
    requires Invariant(r) && i < 4
    ensures Occupied(Advance(r, now).players[i]) <==> Occupied(r.players[i]) && !TimedOut(r.players[i], now)
  {
    hide Invariant, DropSilent;
    SilentDropped(r, 0, now, i);
  }

  lemma {:induction false} SilentDropped(r: Room, from: nat, now: nat, i: nat)
    requires from <= 4 && i < 4 && Invariant(r)
    ensures Occupied(DropSilent(r, from, now).players[i]) <==>
      Occupied(r.players[i]) && (i < from || !TimedOut(r.players[i], now))
    decreases 4 - from
  {
    hide Invariant, Drop, Quiet;
    if from == 4 {
    } else if TimedOut(r.players[from], now) {
      var r1 := Drop(r, from);
      DropEffect(r, from);
      assert Invariant(r1) by { DropStep(r, from); QuietInvariant(r, r1); }
      SilentDropped(r1, from + 1, now, i);
    } else {
      SilentDropped(r, from + 1, now, i);
    }
  }

  /** In a race, a command changes no movement, of its sender or of anyone else who stays in the race. */
  lemma CommandKeepsMovement(r: Room, j: nat, number: nat, c: Command, at: Times, i: nat)
    requires Invariant(r) && !r.closed && i < 4 && r.players[i].status == PlayerRacing
    requires j < 4 && Occupied(r.players[j])
    ensures var r' := Execute(r, j, number, c, at).room;
      r'.race == r.race && r'.players[i].status == PlayerRacing ==> SameMovement(r'.players[i], r.players[i])
  {
    hide Invariant, Advance, Drop, Quiet;
    RacingPhase(r, i);
    var valid := CommandValid(r, j, c);
    var r1 := Commanded(r, j, number, c, at);
    CommandedInvariant(r, j, number, c, at);
    CommandedShape(r, j, number, c, at);
    assert r1.race == r.race && (r1.players[i].status == PlayerRacing ==> SameMovement(r1.players[i], r.players[i]));
    var r2 := Settled(r1, j, valid, c);
    SettledStep(r1, j, valid, c);
    QuietInvariant(r1, r2);
    DropEffect(r1, j);
    AdvanceRace(r2, at.advanced);
    var r3 := Advance(r2, at.advanced);
    if r3.race == r.race && r3.players[i].status == PlayerRacing {
      assert r2.race == r1.race && !(valid && c == Next);
      assert Quiet(r2, r3) by { AdvanceStep(r2, at.advanced); }
      StaysRacing(r1, r2, r3, i);
      AdvanceKeepsRecords(r2, at.advanced, i);
    }
  }

  /** Who races afterwards raced before, if already in a race. */
  lemma StaysRacing(r1: Room, r2: Room, r3: Room, i: nat)
    requires Invariant(r1) && r1.phase == Racing && Quiet(r1, r2) && Quiet(r2, r3) && i < 4
    requires r3.race == r2.race == r1.race && r3.players[i].status == PlayerRacing
    ensures r1.players[i].status == r2.players[i].status == PlayerRacing
  {
  }

  /** One packet: a newer movement of the player is stored, and anything else leaves its movement alone. */
  lemma PacketMovement(r: Room, from: nat, p: Packet, at: Times, token: nat, i: nat)
    requires Invariant(r) && !r.closed && i < 4 && r.players[i].status == PlayerRacing
    ensures var r' := Receive(r, from, p, at, token).room;
      r'.race == r.race && r'.players[i].status == PlayerRacing ==>
        if DeliversMovement(r, r.players[i], Received(from, p, at, token)) && Newer(p.number, r.players[i].stateSeq)
        then && StoresMovement(r'.players[i], p)
             && r'.players[i].address == r.players[i].address && r'.players[i].token == r.players[i].token
        else SameMovement(r'.players[i], r.players[i])
  {
    hide Invariant, Execute, Same, Newer;
    RacingPhase(r, i);
    if DeliversMovement(r, r.players[i], Received(from, p, at, token)) {
      OnlySender(r, from, p, i);
    } else if Executes(r, from, p) {
      ReceiveExecutes(r, from, p, at, token);
      CommandKeepsMovement(r, Sender(r, from, p), p.number, p.body.command, at, i);
    } else if p.body.Hello? {
      assert Receive(r, from, p, at, token).room == r;
    }
  }

  lemma OnlySender(r: Room, from: nat, p: Packet, i: nat)
    requires Invariant(r) && i < 4 && IsSender(r, i, from, p)
    ensures Sender(r, from, p) == i
  {
  }

  /** One event of the room, of whatever kind. */
  lemma EventMovement(r: Room, e: RoomEvent, i: nat)
    requires Invariant(r) && i < 4 && r.players[i].status == PlayerRacing
    ensures var r' := Apply(r, e).room;
      r'.race == r.race && !r'.closed && r'.players[i].status == PlayerRacing ==>
        if DeliversMovement(r, r.players[i], e) && Newer(e.packet.number, r.players[i].stateSeq)
        then && StoresMovement(r'.players[i], e.packet)
             && r'.players[i].address == r.players[i].address && r'.players[i].token == r.players[i].token
        else SameMovement(r'.players[i], r.players[i])
  {
    hide Invariant, Receive, Advance, DeliversMovement;
    match e {
      case Received(from, p, at, token) =>
        if !r.closed {
          PacketMovement(r, from, p, at, token, i);
        } else {
          ClosedReceives(r, from, p, at, token);
        }
      case Ticked(now, published) =>
        RacingPhase(r, i);
        AdvanceKeepsRecords(r, now, i);
        assert !DeliversMovement(r, r.players[i], e) by { NoDelivery(r, r.players[i], e); }
      case PingsSent(now) =>
        assert !DeliversMovement(r, r.players[i], e) by { NoDelivery(r, r.players[i], e); }
      case Closed =>
    }
  }

  lemma ClosedReceives(r: Room, from: nat, p: Packet, at: Times, token: nat)
    requires r.closed
    ensures Receive(r, from, p, at, token).room == r
  {
  }

  lemma NoDelivery(r: Room, p: Player, e: RoomEvent)
    requires !e.Received?
    ensures !DeliversMovement(r, p, e)
  {
  }

  /** What holds of the player at both ends of a stretch of one race holds in between. */
  lemma RacesBetween(r: Room, mid: Room, r': Room, i: nat)
    requires Invariant(r) && Invariant(mid) && Evolves(r, mid) && Evolves(mid, r') && r'.race == r.race && !r'.closed
    requires i < 4 && r.players[i].status == r'.players[i].status == PlayerRacing
    ensures mid.race == r.race && mid.session == r.session && !mid.closed
    ensures mid.players[i].status == PlayerRacing
    ensures mid.players[i].token == r.players[i].token == r'.players[i].token
  {
    RacingPhase(r, i);
    assert r.phase != Lobby && mid.phase != Lobby;
    assert Frozen(r, mid) && Frozen(mid, r');
    assert Occupied(r'.players[i]) && Occupied(mid.players[i]);
  }

  /** The numbers of this player's movements in the run lie in one half-space window with the stored one. */
  predicate InWindow(r: Room, i: nat, es: seq<RoomEvent>, base: nat)
    requires i < 4
  {
    && base <= r.players[i].stateSeq < base + HALF
    && forall k :: 0 <= k < |es| && DeliversMovement(r, r.players[i], es[k]) ==>
         base <= es[k].packet.number < base + HALF
  }

  /** The player's movement is that of the greatest number among the stored one and those delivered. */
  ghost predicate HoldsNewest(r: Room, r': Room, i: nat, es: seq<RoomEvent>)
    requires i < 4
  {
    var p, q := r.players[i], r'.players[i];
    && q.address == p.address && q.token == p.token
    && p.stateSeq <= q.stateSeq
    && (forall k :: 0 <= k < |es| && DeliversMovement(r, p, es[k]) ==> es[k].packet.number <= q.stateSeq)
    && if q.stateSeq == p.stateSeq then SameMovement(q, p)
       else exists k :: 0 <= k < |es| && DeliversMovement(r, p, es[k]) && StoresMovement(q, es[k].packet)
  }

  /** In every run of the room, whatever ticks, pings, commands and other players' packets lie between them, and for any
      order and multiplicity: a player who races on in the same race has stored the movement with the greatest unwrapped
      number delivered, also when the 32-bit numbers wrap on the way, and keeps the one it had if none is greater. */
  lemma {:induction false} LatestMovementWins(r: Room, i: nat, es: seq<RoomEvent>, base: nat)
    requires Invariant(r) && AllowedRun(r, es) && i < 4 && InWindow(r, i, es, base)
    requires r.players[i].status == PlayerRacing && Run(r, es).players[i].status == PlayerRacing
    requires Run(r, es).race == r.race && !Run(r, es).closed
    ensures HoldsNewest(r, Run(r, es), i, es)
  {
    hide Invariant, Evolves, Apply, AllowedRun, DeliversMovement, StoresMovement, SameMovement;
    if es == [] {
      assert SameMovement(r.players[i], r.players[i]) by { SameItself(r.players[i]); }
    } else {
      var n := |es| - 1;
      var front, e := es[..n], es[n];
      var mid, r' := Run(r, front), Run(r, es);
      ShorterRun(r, es);
      RunSafety(r, front);
      ApplyStep(mid, e);
      RacesBetween(r, mid, r', i);
      assert forall k :: 0 <= k < n ==> front[k] == es[k];
      LatestMovementWins(r, i, front, base);
      EventMovement(mid, e, i);
      SameDelivery(r, mid, i, e);
      NewestInWindow(r, mid, i, front, base);
      LastMovement(r, mid, r', i, es, base);
    }
  }

  lemma SameItself(p: Player)
    ensures SameMovement(p, p)
  {
  }

  lemma ShorterRun(r: Room, es: seq<RoomEvent>)
    requires AllowedRun(r, es) && es != []
    ensures AllowedRun(r, es[..|es| - 1]) && Allowed(Run(r, es[..|es| - 1]), es[|es| - 1])
  {
    var front := es[..|es| - 1];
    forall j | 0 <= j < |front| ensures Allowed(Run(r, front[..j]), front[j]) {
      assert front[..j] == es[..j];
    }
  }

  lemma SameDelivery(r: Room, mid: Room, i: nat, e: RoomEvent)
    requires i < 4 && mid.session == r.session && mid.race == r.race
    requires mid.players[i].address == r.players[i].address && mid.players[i].token == r.players[i].token
    ensures DeliversMovement(mid, mid.players[i], e) <==> DeliversMovement(r, r.players[i], e)
  {
  }

  lemma NewestInWindow(r: Room, r': Room, i: nat, es: seq<RoomEvent>, base: nat)
    requires i < 4 && InWindow(r, i, es, base) && HoldsNewest(r, r', i, es)
    ensures base <= r'.players[i].stateSeq < base + HALF
  {
  }

  lemma LastMovement(r: Room, mid: Room, r': Room, i: nat, es: seq<RoomEvent>, base: nat)
    requires i < 4 && es != [] && InWindow(r, i, es, base) && HoldsNewest(r, mid, i, es[..|es| - 1])
    requires mid.players[i].stateSeq < base + HALF
    requires var e := es[|es| - 1];
      if DeliversMovement(r, r.players[i], e) && Newer(e.packet.number, mid.players[i].stateSeq)
      then && StoresMovement(r'.players[i], e.packet)
           && r'.players[i].address == mid.players[i].address && r'.players[i].token == mid.players[i].token
      else SameMovement(r'.players[i], mid.players[i])
    ensures HoldsNewest(r, r', i, es)
  {
    hide Newer;
    var n := |es| - 1;
    var e := es[n];
    assert forall k :: 0 <= k < n ==> es[..n][k] == es[k];
    if DeliversMovement(r, r.players[i], e) {
      WindowedComparison(e.packet.number, mid.players[i].stateSeq);
    }
  }
}
