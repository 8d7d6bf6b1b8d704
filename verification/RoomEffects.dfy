/** What the room does, said of its slots: when each phase is left, and what each packet changes. */
module RoomEffects {
  import opened Words
  import opened Messages
  import opened Rooms
  import opened RoomInvariants
  import opened RoomSteps
  import opened RoomTheorems

  // Who stays.

  /** Present, and heard from less than five seconds before. */
  predicate Stays(r: Room, now: nat, j: nat)
    requires j < 4
  {
    Occupies(r.players[j].status) && Elapsed(now, r.players[j].seen) < 5_000_000
  }

  function Tell(b: bool): nat {
    if b then 1 else 0
  }

  function Staying(r: Room, now: nat): nat {
    Tell(Stays(r, now, 0)) + Tell(Stays(r, now, 1)) + Tell(Stays(r, now, 2)) + Tell(Stays(r, now, 3))
  }

  /** The owner of the room is present and has been silent too long. */
  predicate OwnerLost(r: Room, now: nat) {
    r.ownerNonce != 0 && Occupies(r.players[0].status) && Elapsed(now, r.players[0].seen) >= 5_000_000
  }

  lemma {:induction false} SilenceSettings(r: Room, from: nat, now: nat)
    requires from <= 4
    ensures var r' := DropSilent(r, from, now);
      && r'.expected == r.expected && r'.track == r.track && r'.league == r.league && r'.ownerNonce == r.ownerNonce
      && r'.snapshotSeq == r.snapshotSeq
      && (r'.closed <==> r.closed || (from == 0 && OwnerLost(r, now)))
    decreases 4 - from
  {
    hide Drop;
    if from == 4 {
    } else if TimedOut(r.players[from], now) {
      DropSettings(r, from);
      DropEffect(r, from);
      SilenceSettings(Drop(r, from), from + 1, now);
    } else {
      SilenceSettings(r, from + 1, now);
    }
  }

  lemma DropSettings(r: Room, i: nat)
    requires i < 4
    ensures var r' := Drop(r, i);
      r'.expected == r.expected && r'.track == r.track && r'.league == r.league && r'.snapshotSeq == r.snapshotSeq
  {
  }

  /** After the timeouts, exactly those who stay are present, with their records, in the same phase of the same race
      unless nobody stays. */
  lemma AfterSilence(r: Room, now: nat)
    requires Invariant(r) && !r.closed && !OwnerLost(r, now) && Staying(r, now) > 0
    ensures var r1 := DropSilent(r, 0, now);
      && r1.race == r.race && r1.phase == r.phase && r1.start == r.start && r1.expected == r.expected && !r1.closed
      && Count(r1.players) == Staying(r, now)
      && forall j :: 0 <= j < 4 ==>
           && (Occupied(r1.players[j]) <==> Stays(r, now, j))
           && (Stays(r, now, j) ==> r1.players[j] == r.players[j])
  {
    hide Invariant, DropSilent;
    SilenceSettings(r, 0, now);
    SilenceEmpties(r, 0, now);
    DropSilentGeneration(r, 0, now);
    forall j | 0 <= j < 4
      ensures var r1 := DropSilent(r, 0, now);
        && (Occupied(r1.players[j]) <==> Stays(r, now, j))
        && (r1.race == r.race && Stays(r, now, j) ==> r1.players[j] == r.players[j])
    {
      SilentDropped(r, 0, now, j);
      SilenceKeeps(r, 0, now, j);
    }
  }

  // The edges of the phase machine.

  /** Everyone who stays has this status. */
  predicate AllStand(r: Room, now: nat, status: Status) {
    forall j :: 0 <= j < 4 && Stays(r, now, j) ==> r.players[j].status == status
  }

  predicate AllReady(r: Room, now: nat) {
    forall j :: 0 <= j < 4 && Stays(r, now, j) ==> r.players[j].armed == r.start
  }

  /** LOBBY is left exactly when as many players as expected stay, and all have selected. */
  lemma LobbyEdge(r: Room, now: nat)
    requires Invariant(r) && !r.closed && !OwnerLost(r, now) && r.phase == Lobby
    ensures var r' := Advance(r, now);
      && (r'.phase == Loading <==> Staying(r, now) == r.expected && AllStand(r, now, Selected))
      && (r'.phase == Loading || r'.phase == Lobby) && !r'.closed
  {
    hide Invariant, DropSilent, AdvancePhase;
    if Staying(r, now) > 0 {
      var r1 := DropSilent(r, 0, now);
      AfterSilence(r, now);
      assert Invariant(r1) by { DropSilentStep(r, 0, now); QuietInvariant(r, r1); }
      AdvanceFromLobby(r1, now);
      LobbyStatus(r1);
      LobbyStatus(r);
    } else {
      EmptyAdvance(r, now);
      assert r.expected >= 2 by { ExpectedRange(r); }
    }
  }

  lemma ExpectedRange(r: Room)
    requires Invariant(r)
    ensures 2 <= r.expected <= 4
  {
  }

  lemma LobbyStatus(r: Room)
    requires Invariant(r)
    ensures forall j :: 0 <= j < 4 && Occupied(r.players[j]) ==> StatusFits(r.phase, r.players[j].status)
  {
  }

  /** When nobody stays, the room begins a new lobby, or was empty. */
  lemma EmptyAdvance(r: Room, now: nat)
    requires Invariant(r) && !r.closed && !OwnerLost(r, now) && Staying(r, now) == 0
    ensures var r' := Advance(r, now);
      r'.phase == Lobby && r'.start == 0 && !r'.closed && Count(r'.players) == 0
      && r'.race == (if Count(r.players) == 0 then r.race else r.race + 1)
  {
    hide Invariant, DropSilent, AdvancePhase;
    var r1 := DropSilent(r, 0, now);
    SilenceSettings(r, 0, now);
    SilenceEmpties(r, 0, now);
    DropSilentGeneration(r, 0, now);
    forall j | 0 <= j < 4 ensures !Occupied(r1.players[j]) {
      SilentDropped(r, 0, now, j);
    }
    assert Count(r1.players) == 0;
    assert Invariant(r1) by { DropSilentStep(r, 0, now); QuietInvariant(r, r1); }
    AdvancePhaseEdge(r1, now);
    EmptyRooms(r1);
    EmptyRooms(r);
  }

  lemma EmptyRooms(r: Room)
    requires Invariant(r) && !r.closed
    ensures Count(r.players) == 0 ==> r.phase == Lobby && r.start == 0
    ensures r.ownerNonce != 0 && Count(r.players) != 0 ==> Occupied(r.players[0])
  {
  }

  lemma Survivors(r: Room, now: nat)
    requires Invariant(r) && !r.closed && !OwnerLost(r, now) && Staying(r, now) > 0
    ensures var r1 := DropSilent(r, 0, now);
      && Invariant(r1) && !r1.closed && Advance(r, now) == AdvancePhase(r1, now) && Count(r1.players) > 0
      && forall j :: 0 <= j < 4 && Occupied(r1.players[j]) ==> StatusFits(r1.phase, r1.players[j].status)
  {
    hide Invariant, DropSilent, AdvancePhase;
    AfterSilence(r, now);
    DropSilentStep(r, 0, now);
    QuietInvariant(r, DropSilent(r, 0, now));
    LobbyStatus(DropSilent(r, 0, now));
  }

  /** LOADING is left exactly when all who stay have loaded; the start is then two seconds ahead and acknowledged by
      nobody. */
  lemma LoadingEdge(r: Room, now: nat)
    requires Invariant(r) && !r.closed && !OwnerLost(r, now) && r.phase == Loading && Staying(r, now) > 0
    ensures var r' := Advance(r, now);
      if AllStand(r, now, PlayerLoaded)
      then && r'.phase == Countdown && r'.start == now + 2_000_000
           && forall j :: 0 <= j < 4 && Stays(r, now, j) ==> r'.players[j] == r.players[j].(armed := 0)
      else && r'.phase == Loading && r'.start == 0
           && forall j :: 0 <= j < 4 && Stays(r, now, j) ==> r'.players[j] == r.players[j]
  {
    hide Invariant, DropSilent, AdvancePhase;
    var r1 := DropSilent(r, 0, now);
    AfterSilence(r, now);
    Survivors(r, now);
    AdvanceFromLoading(r1, now);
    NoStart(r);
  }

  lemma NoStart(r: Room)
    requires Invariant(r)
    ensures r.phase == Lobby || r.phase == Loading <==> r.start == 0
    ensures forall j :: 0 <= j < 4 && Occupied(r.players[j]) ==> r.players[j].armed <= r.start
  {
  }

  /** COUNTDOWN is left exactly when all who stay have acknowledged the start and it has come; then all race. While
      someone has not, a start less than half a second ahead is put off to two seconds from now. */
  lemma CountdownEdge(r: Room, now: nat)
    requires Invariant(r) && !r.closed && !OwnerLost(r, now) && r.phase == Countdown && Staying(r, now) > 0
    ensures var r' := Advance(r, now);
      && (r'.phase == Racing <==> AllReady(r, now) && now >= r.start)
      && (r'.phase == Racing || r'.phase == Countdown)
      && r'.start == (if !AllReady(r, now) && now + 500_000 >= r.start then now + 2_000_000 else r.start)
      && forall j :: 0 <= j < 4 && Stays(r, now, j) ==>
           r'.players[j] == if r'.phase == Racing then r.players[j].(status := PlayerRacing) else r.players[j]
  {
    hide Invariant, DropSilent, AdvancePhase;
    var r1 := DropSilent(r, 0, now);
    AfterSilence(r, now);
    Survivors(r, now);
    AdvanceFromCountdown(r1, now);
    assert AllArmed(r1.players, r1.start) <==> AllReady(r, now);
  }

  /** RACING is left exactly when all who stay have finished, and RESULTS not at all while somebody stays. */
  lemma RacingEdge(r: Room, now: nat)
    requires Invariant(r) && !r.closed && !OwnerLost(r, now) && (r.phase == Racing || r.phase == Results)
    requires Staying(r, now) > 0
    ensures var r' := Advance(r, now);
      && (r'.phase == Results <==> AllStand(r, now, Finished))
      && (r'.phase == Racing || r'.phase == Results) && r'.start == r.start
      && forall j :: 0 <= j < 4 && Stays(r, now, j) ==> r'.players[j] == r.players[j]
  {
    hide Invariant, DropSilent;
    var r1 := DropSilent(r, 0, now);
    AfterSilence(r, now);
    Survivors(r, now);
  }

  // A new lobby.

  /** In a new lobby, those present keep who they are, their car, their orientation, the number of their last
      command and when they were heard from, and everything of the race is gone; other slots are empty. */
  lemma LobbyIsFresh(r: Room, j: nat)
    requires j < 4
    ensures var r', p := BeginLobby(r), r.players[j];
      && r'.race == r.race + 1 && r'.phase == Lobby && r'.start == 0
      && r'.expected == r.expected && r'.track == r.track && r'.league == r.league && r'.host == r.host
      && if Occupies(p.status)
         then r'.players[j] == Player(p.address, p.token, p.nonce, p.seen, 0, 0, p.ping, p.commandSeq, 0, 0, 0,
                                      p.orientation, Joined, p.car)
         else r'.players[j] == Player(0, 0, 0, 0, 0, 0, 0, 0, 0, 0, 0, 0, Empty, 0)
  {
  }

  // Departures.

  /** The lowest present slot, or none. */
  predicate Lowest(ps: Slots, h: nat) {
    if h < 4 then Occupies(ps[h].status) && forall j :: 0 <= j < h ==> !Occupies(ps[j].status)
    else h == 255 && forall j :: 0 <= j < 4 ==> !Occupies(ps[j].status)
  }

  /** When a player goes and others remain, the host's place passes to the lowest present slot, or stays; the slot is
      emptied in the lobby, and afterwards marked as disconnected with its car, and hidden. */
  lemma DepartureHost(r: Room, i: nat)
    requires i < 4 && Occupies(r.players[i].status) && !(r.ownerNonce != 0 && i == 0) && !Alone(r.players, i)
    ensures var r' := Drop(r, i);
      && (if r.host == i then Lowest(r'.players, r'.host) else r'.host == r.host)
      && r'.players[i] == (if r.phase == Lobby then BLANK
                           else r.players[i].(status := Disconnected, x := 0, y := 0))
  {
    DropEffect(r, i);
    var left := Forget(PassHost(Vacate(r, i), i), i);
    assert forall j :: 0 <= j < 4 ==> (Occupied(left.players[j]) <==> Occupied(Vacate(r, i).players[j]));
    AloneCounts(r.players, left.players, i);
  }

  // What `advance` does to a record.

  lemma AdvancePhaseTouches(r: Room, now: nat, i: nat)
    requires Invariant(r) && !r.closed && i < 4 && Occupied(r.players[i])
    ensures var r' := AdvancePhase(r, now);
      && r'.race == r.race && r'.expected == r.expected && r'.track == r.track && r'.league == r.league
      && r'.host == r.host && r'.closed == r.closed
      && (r'.players[i] == r.players[i]
          || (r.players[i].status == PlayerLoaded && r'.players[i] == r.players[i].(status := PlayerRacing)))
  {
    NoStart(r);
    if r.phase == Lobby {
      AdvanceFromLobby(r, now);
    } else if r.phase == Loading {
      AdvanceFromLoading(r, now);
    } else if r.phase == Countdown {
      AdvanceFromCountdown(r, now);
    }
  }

  /** Of a player who stays in the race, `advance` changes at most the status, from LOADED to RACING. */
  lemma AdvanceTouches(r: Room, now: nat, i: nat)
    requires Invariant(r) && i < 4
    ensures var r' := Advance(r, now);
      && r'.expected == r.expected && r'.track == r.track && r'.league == r.league
      && (r'.race == r.race && Occupied(r'.players[i]) ==>
            || r'.players[i] == r.players[i]
            || (r.players[i].status == PlayerLoaded && r'.players[i] == r.players[i].(status := PlayerRacing)))
  {
    hide Invariant, DropSilent, AdvancePhase;
    var r1 := DropSilent(r, 0, now);
    SilenceSettings(r, 0, now);
    SilenceKeeps(r, 0, now, i);
    assert Invariant(r1) by { DropSilentStep(r, 0, now); QuietInvariant(r, r1); }
    AdvanceRace(r, now);
    SilenceEmpties(r, 0, now);
    if !r1.closed {
      AdvancePhaseSettings(r1, now, i);
      if Occupied(r1.players[i]) {
        AdvancePhaseTouches(r1, now, i);
      }
    }
  }

  lemma AdvancePhaseSettings(r: Room, now: nat, i: nat)
    requires i < 4
    ensures var r' := AdvancePhase(r, now);
      && r'.expected == r.expected && r'.track == r.track && r'.league == r.league
      && (Occupied(r'.players[i]) <==> Occupied(r.players[i]))
  {
    hide Count, AllAtLeast, AllArmed;
    var r1 := StartLoading(r);
    var r2 := StartCountdown(r1, now);
    assert Occupied(r2.players[i]) <==> Occupied(r.players[i]);
    var r3 := CountDown(r2, now);
    assert Occupied(r3.players[i]) <==> Occupied(r2.players[i]);
  }

  // Packets.

  /** The packet comes from the player in slot `i`: session, token and address are its own. */
  predicate From(r: Room, i: nat, from: nat, p: Packet)
    requires i < 4
  {
    Occupies(r.players[i].status) && p.session == r.session && p.token == r.players[i].token
    && from == r.players[i].address
  }

  lemma FromSender(r: Room, i: nat, from: nat, p: Packet)
    requires Invariant(r) && i < 4 && From(r, i, from, p)
    ensures Sender(r, from, p) == i
  {
    OnlySender(r, from, p, i);
  }

  /** A packet from nobody, unless it is a HELLO, changes nothing and is not answered. */
  lemma StrangersIgnored(r: Room, from: nat, p: Packet, at: Times, token: nat)
    requires !p.body.Hello? && forall i :: 0 <= i < 4 ==> !From(r, i, from, p)
    ensures Receive(r, from, p, at, token) == Outcome(r, {})
  {
    forall i | 0 <= i < 4 ensures !IsSender(r, i, from, p) {
      assert !From(r, i, from, p);
    }
  }

  lemma ClosedIgnores(r: Room, from: nat, p: Packet, at: Times, token: nat)
    requires r.closed
    ensures Receive(r, from, p, at, token) == Outcome(r, {})
  {
  }

  function ToPlayer(r: Room, i: nat, number: nat, body: Body): Mail
    requires i < 4
  {
    ToClient(r.players[i].address, Packet(r.session, r.players[i].token, r.race, number, r.players[i].commandSeq, body))
  }

  /** A PING refreshes the player and is answered with the room's time. */
  lemma PingAnswered(r: Room, i: nat, from: nat, p: Packet, at: Times, token: nat)
    requires Invariant(r) && !r.closed && i < 4 && From(r, i, from, p) && p.body.Ping?
    ensures var o := Receive(r, from, p, at, token);
      && o.room == r.(players := r.players[i := r.players[i].(seen := at.seen)])
      && o.sent == {ToPlayer(r, i, 0, TimedPong(p.body.stamp, at.seen))}
  {
    FromSender(r, i, from, p);
  }

  /** So does a PONG that answers the room's last ping. */
  lemma PongHeard(r: Room, i: nat, from: nat, p: Packet, at: Times, token: nat)
    requires Invariant(r) && !r.closed && i < 4 && From(r, i, from, p) && p.body.Pong?
    ensures Receive(r, from, p, at, token) ==
      if r.players[i].ping != 0 && p.body.stamp == r.players[i].ping
      then Outcome(r.(players := r.players[i := r.players[i].(ping := 0, seen := at.seen)]), {})
      else Outcome(r, {})
  {
    FromSender(r, i, from, p);
  }

  /** A movement is stored exactly when the room and the player are racing, it is for this race, and its number is
      newer; then the whole of it is stored, and the player refreshed. */
  lemma MovementStored(r: Room, i: nat, from: nat, p: Packet, at: Times, token: nat)
    requires Invariant(r) && !r.closed && i < 4 && From(r, i, from, p) && p.body.Movement?
    ensures Receive(r, from, p, at, token) ==
      if r.phase == Racing && r.players[i].status == PlayerRacing && Same(p.race, r.race)
         && Newer(p.number, r.players[i].stateSeq)
      then Outcome(r.(players := r.players[i := r.players[i].(x := p.body.x, y := p.body.y,
                        orientation := p.body.orientation, stateSeq := p.number, updated := at.seen,
                        seen := at.seen)]), {})
      else Outcome(r, {})
  {
    FromSender(r, i, from, p);
  }

  // Commands.

  /** The room's answer to a command is yes. */
  predicate Granted(r: Room, i: nat, c: Command)
    requires i < 4
  {
    match c
    case Select(car) => r.phase == Lobby && car <= 3
    case Loaded(_, _, _) => r.phase == Loading
    case Arm(t) => r.phase == Countdown && t == r.start
    case Finish => r.phase == Racing && r.players[i].status == PlayerRacing
    case Next => r.host == i && (r.phase == Lobby || r.phase == Results)
    case Config(n, track, league) =>
      r.host == i && r.phase == Lobby && (n == 2 || n == 3 || n == 4) && Present(r) <= n && track <= 4 && league <= 2
    case Leave => true
    case Unknown(_) => false
  }

  function Present(r: Room): nat {
    Tell(Occupies(r.players[0].status)) + Tell(Occupies(r.players[1].status))
    + Tell(Occupies(r.players[2].status)) + Tell(Occupies(r.players[3].status))
  }

  lemma GrantedIsValid(r: Room, i: nat, c: Command)
    requires i < 4
    ensures Granted(r, i, c) <==> CommandValid(r, i, c)
  {
  }

  /** The command comes next in its player's stream, in this race. */
  predicate Next32(r: Room, i: nat, p: Packet)
    requires i < 4
  {
    p.body.Reliable? && Same(p.race, r.race) && Same(p.number, r.players[i].commandSeq + 1)
  }

  lemma NextIsSequence(r: Room, i: nat, p: Packet)
    requires i < 4
    ensures InSequence(r, i, p) <==> Next32(r, i, p)
  {
    if p.body.Reliable? && Same(p.number, r.players[i].commandSeq + 1) {
      WindowedComparison(r.players[i].commandSeq + 1, r.players[i].commandSeq);
    }
  }

  /** A command that does not come next, or belongs to another race, changes nothing and is not answered. */
  lemma OutOfSequenceIgnored(r: Room, i: nat, from: nat, p: Packet, at: Times, token: nat)
    requires Invariant(r) && !r.closed && i < 4 && From(r, i, from, p) && p.body.Reliable? && !Next32(r, i, p)
    ensures Receive(r, from, p, at, token) == Outcome(r, {})
  {
    FromSender(r, i, from, p);
    NextIsSequence(r, i, p);
  }

  /** The record of its sender after a command that did not end the sender's part in this race. */
  predicate Obeyed(r: Room, i: nat, number: nat, c: Command, at: Times, q: Player)
    requires i < 4
  {
    var p, yes := r.players[i], Granted(r, i, c);
    && q.address == p.address && q.token == p.token && q.nonce == p.nonce && q.ping == p.ping
    && q.stateSeq == p.stateSeq
    && q.commandSeq == number && q.seen == at.seen
    && q.car == (if yes && c.Select? then c.car else p.car)
    && q.armed == (if yes && c.Arm? then c.deadline else p.armed)
    && q.updated == (if yes && c.Loaded? then at.updated else p.updated)
    && (q.x, q.y) == (if yes && c.Loaded? then (c.x, c.y) else if yes && c.Finish? then (0, 0) else (p.x, p.y))
    && q.orientation == (if yes && c.Loaded? then c.orientation else p.orientation)
    && var status := if yes && c.Select? then Selected else if yes && c.Loaded? then PlayerLoaded
                     else if yes && c.Finish? then Finished else p.status;
       q.status == status || (status == PlayerLoaded && q.status == PlayerRacing)
  }

  lemma CommandedObeyed(r: Room, i: nat, number: nat, c: Command, at: Times)
    requires i < 4 && Occupied(r.players[i])
    ensures Obeyed(r, i, number, c, at, Commanded(r, i, number, c, at).players[i])
    ensures var r1 := Commanded(r, i, number, c, at);
      && (if Granted(r, i, c) && c.Config?
          then r1.expected == c.players && r1.track == c.track && r1.league == c.league
          else r1.expected == r.expected && r1.track == r.track && r1.league == r.league)
  {
    GrantedIsValid(r, i, c);
  }

  /** A command that comes next is executed: its sender's record is as the command says, the settings change exactly by
      a granted CONFIG, a LEAVE removes its sender, a granted NEXT begins another race, and a snapshot is numbered. */
  lemma CommandEffect(r: Room, i: nat, from: nat, p: Packet, at: Times, token: nat)
    requires Invariant(r) && !r.closed && i < 4 && From(r, i, from, p) && Next32(r, i, p)
    ensures var o := Receive(r, from, p, at, token);
      var r', c := o.room, p.body.command;
      && (r'.race == r.race && Occupied(r'.players[i]) ==> Obeyed(r, i, p.number, c, at, r'.players[i]))
      && (c == Leave ==> !Occupied(r'.players[i]))
      && (c == Next && Granted(r, i, c) ==> r'.race > r.race)
      && (if Granted(r, i, c) && c.Config?
          then r'.expected == c.players && r'.track == c.track && r'.league == c.league
          else r'.expected == r.expected && r'.track == r.track && r'.league == r.league)
      && r'.snapshotSeq == r.snapshotSeq + 1
  {
    hide Invariant, Execute, Obeyed, Next32, From, Granted;
    FromSender(r, i, from, p);
    NextIsSequence(r, i, p);
    assert Executes(r, from, p);
    ReceiveExecutes(r, from, p, at, token);
    ExecuteEffect(r, i, p.number, p.body.command, at);
  }

  lemma ExecuteEffect(r: Room, i: nat, number: nat, c: Command, at: Times)
    requires Invariant(r) && !r.closed && i < 4 && Occupied(r.players[i])
    ensures var r' := Execute(r, i, number, c, at).room;
      && (r'.race == r.race && Occupied(r'.players[i]) ==> Obeyed(r, i, number, c, at, r'.players[i]))
      && (c == Leave ==> !Occupied(r'.players[i]))
      && (c == Next && Granted(r, i, c) ==> r'.race > r.race)
      && (if Granted(r, i, c) && c.Config?
          then r'.expected == c.players && r'.track == c.track && r'.league == c.league
          else r'.expected == r.expected && r'.track == r.track && r'.league == r.league)
      && r'.snapshotSeq == r.snapshotSeq + 1
  {
    hide Invariant, Commanded, Drop, Advance, Obeyed, Quiet, Granted, Evolves, Keeps;
    GrantedIsValid(r, i, c);
    var valid := CommandValid(r, i, c);
    var r1 := Commanded(r, i, number, c, at);
    CommandedObeyed(r, i, number, c, at);
    CommandedInvariant(r, i, number, c, at);
    CommandedShape(r, i, number, c, at);
    var r2 := Settled(r1, i, valid, c);
    SettledStep(r1, i, valid, c);
    QuietInvariant(r1, r2);
    DropEffect(r1, i);
    DropSettings(r1, i);
    AdvanceTouches(r2, at.advanced, i);
    AdvanceRace(r2, at.advanced);
    AdvanceCounts(r2, at.advanced);
    SilentAreDropped(r2, at.advanced, i);
    var r3 := Advance(r2, at.advanced);
    if r3.race == r.race && Occupied(r3.players[i]) {
      assert r2.players[i] == r1.players[i];
      Released(r, i, number, c, at, r1.players[i], r3.players[i]);
    }
  }

  /** What is sent when a command is executed: a refusal exactly when it was not granted, and a snapshot of the
      resulting room to each player then present, with the number of that player's last command. */
  lemma CommandAnswered(r: Room, i: nat, from: nat, p: Packet, at: Times, token: nat)
    requires Invariant(r) && !r.closed && i < 4 && From(r, i, from, p) && Next32(r, i, p)
    ensures var o := Receive(r, from, p, at, token);
      o.sent ==
        (if Granted(r, i, p.body.command) then {}
         else {ToClient(from, Packet(r.session, p.token, r.race, 0, p.number, Refusal(p.body.command)))})
        + Snapshots(o.room, at.published)
  {
    hide Invariant, CommandedPlayer, Advance, Settled, ViewOf;
    FromSender(r, i, from, p);
    NextIsSequence(r, i, p);
    assert Executes(r, from, p);
    ReceiveExecutes(r, from, p, at, token);
    GrantedIsValid(r, i, p.body.command);
    CommandedShape(r, i, p.number, p.body.command, at);
  }

  /** A snapshot of this room to each of its present players. */
  function Snapshots(r: Room, now: nat): set<Mail> {
    set j | 0 <= j < 4 && Occupies(r.players[j].status) :: ToPlayer(r, j, r.snapshotSeq, Snapshot(ViewOf(r, now)))
  }

  lemma Released(r: Room, i: nat, number: nat, c: Command, at: Times, q: Player, q': Player)
    requires i < 4 && Obeyed(r, i, number, c, at, q)
    requires q' == q || (q.status == PlayerLoaded && q' == q.(status := PlayerRacing))
    ensures Obeyed(r, i, number, c, at, q')
  {
  }

  lemma AdvanceCounts(r: Room, now: nat)
    ensures Advance(r, now).snapshotSeq == r.snapshotSeq
  {
    SilenceSettings(r, 0, now);
    PhaseCounts(DropSilent(r, 0, now), now);
  }

  lemma PhaseCounts(r: Room, now: nat)
    ensures AdvancePhase(r, now).snapshotSeq == r.snapshotSeq
  {
  }

  // Joining.

  predicate Vacant(r: Room, j: nat)
    requires j < 4
  {
    !Occupies(r.players[j].status) && forall k :: 0 <= k < j ==> Occupies(r.players[k].status)
  }

  /** The reason for which a newcomer is turned away, in the order of the tests. */
  function TurnedAway(r: Room, nonce: nat, key: seq<nat>): (why: seq<Reason>)
    ensures |why| <= 1
  {
    if key != r.key then [Password]
    else if r.ownerNonce != 0 && !Occupies(r.players[0].status) && nonce != r.ownerNonce then [Starting]
    else if r.phase != Lobby then [Underway]
    else if Present(r) >= r.expected then [Full]
    else []
  }

  /** A HELLO that is not turned away, from an address nobody uses, is given the lowest free slot with the fresh token;
      the first to come is host; the newcomer is welcomed, and everyone is sent a snapshot. */
  lemma HelloSeated(r: Room, from: nat, p: Packet, at: Times, token: nat, j: nat)
    requires Invariant(r) && !r.closed && p.body.Hello? && token != 0
    requires TurnedAway(r, p.body.nonce, p.body.key) == [] && j < 4 && Vacant(r, j)
    requires forall k :: 0 <= k < 4 && Occupies(r.players[k].status) ==> r.players[k].address != from
    ensures var o := Receive(r, from, p, at, token);
      && o.room == r.(snapshotSeq := r.snapshotSeq + 1, host := if r.host == 255 then j else r.host,
                      players := r.players[j := Player(from, token, p.body.nonce, at.seen, 0, 0, 0, 0, 0, 0, 0, 0,
                                                       Joined, 0)])
      && o.sent == {ToClient(from, Packet(r.session, token, r.race, 0, 0, Welcome(j, p.body.nonce)))}
                   + Snapshots(o.room, at.published)
  {
    assert FirstFree(r.players) == j;
    assert Resident(r.players, from) == 4;
    assert Present(r) == Count(r.players);
  }

  /** A slot is free whenever fewer players are present than expected. */
  lemma SomeSlotIsFree(r: Room)
    requires Invariant(r) && Present(r) < r.expected
    ensures exists j: nat :: j < 4 && Vacant(r, j)
  {
    if !Occupies(r.players[0].status) {
      assert Vacant(r, 0);
    } else if !Occupies(r.players[1].status) {
      assert Vacant(r, 1);
    } else if !Occupies(r.players[2].status) {
      assert Vacant(r, 2);
    } else {
      assert Vacant(r, 3);
    }
  }

  /** A HELLO from the address of a present player is answered with the same WELCOME if the nonce is that player's, and
      otherwise not at all. */
  lemma HelloRepeated(r: Room, from: nat, p: Packet, at: Times, token: nat, j: nat)
    requires Invariant(r) && !r.closed && p.body.Hello? && j < 4
    requires Occupies(r.players[j].status) && r.players[j].address == from
    requires p.body.key == r.key && (r.ownerNonce == 0 || Occupies(r.players[0].status) || p.body.nonce == r.ownerNonce)
    ensures Receive(r, from, p, at, token) ==
      Outcome(r, if p.body.nonce == r.players[j].nonce then {ToPlayer(r, j, 0, Welcome(j, p.body.nonce))} else {})
  {
    assert AtAddress(r.players[j], from);
    assert forall k :: 0 <= k < 4 && k != j ==> !AtAddress(r.players[k], from);
    assert Resident(r.players, from) == j;
  }

  /** A HELLO that is turned away changes nothing and is told why; for a wrong key, and before the owner has come, that
      holds even at the address of a present player. */
  lemma HelloTurnedAway(r: Room, from: nat, p: Packet, at: Times, token: nat)
    requires Invariant(r) && !r.closed && p.body.Hello?
    requires TurnedAway(r, p.body.nonce, p.body.key) != []
    requires TurnedAway(r, p.body.nonce, p.body.key)[0] in {Password, Starting}
      || forall k :: 0 <= k < 4 && Occupies(r.players[k].status) ==> r.players[k].address != from
    ensures Receive(r, from, p, at, token) ==
      Outcome(r, {ToClient(from, Packet(0, 0, 0, 0, 0,
                                        JoinReject(p.body.nonce, TurnedAway(r, p.body.nonce, p.body.key)[0])))})
  {
    assert TurnedAway(r, p.body.nonce, p.body.key)[0] !in {Password, Starting} ==> Resident(r.players, from) == 4;
    assert Present(r) == Count(r.players);
  }

  // Snapshots.

  /** A snapshot tells the room's settings and start, whose acknowledgement of the start has come, and of each slot the
      status, car, position, the number of its movement, and how many milliseconds old that is. */
  lemma SnapshotTells(r: Room, now: nat, j: nat)
    requires j < 4
    ensures var v, p := ViewOf(r, now), r.players[j];
      && v.phase == r.phase && v.expected == r.expected && v.host == r.host && v.track == r.track
      && v.league == r.league && v.start == r.start && v.time == now && |v.armed| == |v.peers| == 4
      && (v.armed[j] <==> Occupies(p.status) && r.start > 0 && p.armed == r.start)
      && v.peers[j].status == p.status && v.peers[j].car == p.car
      && v.peers[j].x == p.x && v.peers[j].y == p.y && v.peers[j].orientation == p.orientation
      && v.peers[j].movement == p.stateSeq % 0x1_0000_0000
      && (p.updated == 0 ==> v.peers[j].age == 0)
      && (0 < p.updated <= now && now - p.updated < 1000 * 0x1_0000_0000 ==>
            1000 * v.peers[j].age <= now - p.updated < 1000 * (v.peers[j].age + 1))
  {
  }

  /** In every run of the room, the position shown for a player who races on in the same race is the newest movement
      delivered for it, or the one shown before if none is newer. */
  lemma PositionShown(r: Room, i: nat, es: seq<RoomEvent>, base: nat, now: nat)
    requires Invariant(r) && AllowedRun(r, es) && i < 4 && InWindow(r, i, es, base)
    requires r.players[i].status == PlayerRacing && Run(r, es).players[i].status == PlayerRacing
    requires Run(r, es).race == r.race && !Run(r, es).closed
    ensures var r' := Run(r, es);
      var v := ViewOf(r', now).peers[i];
      if r'.players[i].stateSeq == r.players[i].stateSeq
      then v.x == r.players[i].x && v.y == r.players[i].y && v.orientation == r.players[i].orientation
      else exists k :: 0 <= k < |es| && DeliversMovement(r, r.players[i], es[k])
                       && es[k].packet.number == r'.players[i].stateSeq
                       && v.x == es[k].packet.body.x && v.y == es[k].packet.body.y
                       && v.orientation == es[k].packet.body.orientation
    ensures forall k :: 0 <= k < |es| && DeliversMovement(r, r.players[i], es[k]) ==>
      es[k].packet.number <= Run(r, es).players[i].stateSeq
  {
    hide Invariant, AllowedRun, Run, InWindow;
    LatestMovementWins(r, i, es, base);
    SnapshotTells(Run(r, es), now, i);
  }

  // The numbers of stored movements.

  /** The packet is a movement from slot `i` for this race, and it is stored under its number. */
  predicate Stored(r: Room, i: nat, from: nat, p: Packet, q: Player)
    requires i < 4
  {
    p.body.Movement? && From(r, i, from, p) && Same(p.race, r.race) && q.stateSeq == p.number
  }

  lemma AdvanceNumber(r: Room, now: nat, i: nat)
    requires Invariant(r) && i < 4
    ensures var r' := Advance(r, now);
      Occupied(r'.players[i]) ==>
        r'.race == r.race && Occupied(r.players[i]) && r'.players[i].stateSeq == r.players[i].stateSeq
        && r'.players[i].token == r.players[i].token
  {
    hide Invariant, Advance;
    AdvanceTouches(r, now, i);
    AdvanceEdge(r, now);
    SilentAreDropped(r, now, i);
  }

  lemma SettledNumber(r: Room, j: nat, valid: bool, c: Command, i: nat)
    requires i < 4 && j < 4 && Occupied(r.players[j])
    ensures var r' := Settled(r, j, valid, c);
      Occupied(r'.players[i]) ==>
        && Occupied(r.players[i]) && r'.players[i].token == r.players[i].token
        && r'.players[i].stateSeq == (if r'.race == r.race then r.players[i].stateSeq else 0)
  {
    hide Drop, BeginLobby;
    if valid && c == Leave {
      DropEffect(r, j);
      NobodyThere(Drop(r, j), i);
    }
    LobbyIsFresh(r, i);
  }

  lemma NobodyThere(r: Room, i: nat)
    requires i < 4
    ensures Count(r.players) == 0 ==> !Occupied(r.players[i])
  {
  }

  lemma ExecuteNumber(r: Room, j: nat, number: nat, c: Command, at: Times, i: nat)
    requires Invariant(r) && !r.closed && i < 4 && j < 4 && Occupied(r.players[j])
    ensures var r' := Execute(r, j, number, c, at).room;
      Occupied(r'.players[i]) ==>
        && Occupied(r.players[i]) && r'.players[i].token == r.players[i].token
        && r'.players[i].stateSeq == (if r'.race == r.race then r.players[i].stateSeq else 0)
  {
    hide Invariant, Commanded, Settled, Advance, Quiet, CommandValid;
    var valid := CommandValid(r, j, c);
    var r1 := Commanded(r, j, number, c, at);
    CommandedInvariant(r, j, number, c, at);
    CommandedShape(r, j, number, c, at);
    CommandedNumber(r, j, number, c, at, i);
    var r2 := Settled(r1, j, valid, c);
    SettledStep(r1, j, valid, c);
    QuietInvariant(r1, r2);
    SettledNumber(r1, j, valid, c, i);
    AdvanceNumber(r2, at.advanced, i);
  }

  lemma CommandedNumber(r: Room, j: nat, number: nat, c: Command, at: Times, i: nat)
    requires i < 4 && j < 4 && Occupied(r.players[j])
    ensures var q := Commanded(r, j, number, c, at).players[i];
      && (Occupied(q) <==> Occupied(r.players[i])) && q.stateSeq == r.players[i].stateSeq
      && q.token == r.players[i].token
  {
  }

  /** The movement number of a present player: zero on arrival and in a new race, that of a movement just stored, or the
      one it was. */
  lemma PacketNumber(r: Room, from: nat, p: Packet, at: Times, token: nat, i: nat)
    requires Invariant(r) && i < 4
    ensures var r' := Receive(r, from, p, at, token).room;
      Occupied(r'.players[i]) ==>
        || (r'.race == r.race && r'.players[i].token == token && r'.players[i].stateSeq == 0)
        || (&& Occupied(r.players[i]) && r'.players[i].token == r.players[i].token
            && if r'.race == r.race
               then r'.players[i].stateSeq == r.players[i].stateSeq || Stored(r, i, from, p, r'.players[i])
               else r'.players[i].stateSeq == 0)
  {
    hide Invariant, Execute, Newer, Same;
    if r.closed {
    } else if p.body.Hello? {
    } else if exists j :: 0 <= j < 4 && From(r, j, from, p) {
      var j :| 0 <= j < 4 && From(r, j, from, p);
      FromSender(r, j, from, p);
      if p.body.Reliable? && Next32(r, j, p) {
        NextIsSequence(r, j, p);
        assert Executes(r, from, p);
        ReceiveExecutes(r, from, p, at, token);
        ExecuteNumber(r, j, p.number, p.body.command, at, i);
      } else if p.body.Reliable? {
        OutOfSequenceIgnored(r, j, from, p, at, token);
      } else if p.body.Movement? {
        MovementStored(r, j, from, p, at, token);
      }
    } else {
      StrangersIgnored(r, from, p, at, token);
    }
  }

  // The periodic work.

  /** A tick sends everyone then present the next snapshot of the advanced room, unless that has closed. */
  lemma TickSends(r: Room, now: nat, published: nat)
    ensures var a, o := Advance(r, now), Tick(r, now, published);
      if a.closed then o == Outcome(a, {})
      else o.room == a.(snapshotSeq := r.snapshotSeq + 1) && o.sent == Snapshots(o.room, published)
  {
    hide Advance, ViewOf;
    AdvanceCounts(r, now);
  }

  /** The heartbeat asks every present player, and remembers what it asked. */
  lemma HeartbeatSends(r: Room, now: nat, j: nat)
    requires j < 4
    ensures var o := PingAll(r, now);
      && o.room.players[j] == (if Occupies(r.players[j].status) then r.players[j].(ping := now) else r.players[j])
      && o.room == r.(players := o.room.players)
      && o.sent == set k | 0 <= k < 4 && Occupies(r.players[k].status) :: ToPlayer(r, k, 0, Ping(now))
  {
    var r1 := PingAll(r, now).room;
    assert forall k :: 0 <= k < 4 ==>
      (Occupied(r1.players[k]) <==> Occupied(r.players[k]))
      && Addressed(r1, k, 0, Ping(now)) == ToPlayer(r, k, 0, Ping(now));
  }

  /** Closing tells every present player. */
  lemma ClosingTells(r: Room)
    ensures var o := Close(r);
      && o.room == r.(closed := true)
      && o.sent == set k | 0 <= k < 4 && Occupies(r.players[k].status) :: ToPlayer(r, k, 0, RoomClosed)
  {
    assert forall k :: 0 <= k < 4 ==> Addressed(r, k, 0, RoomClosed) == ToPlayer(r, k, 0, RoomClosed);
  }
}
