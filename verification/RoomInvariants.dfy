/**
  What every reachable room satisfies, and how a room may evolve.
  `Invariant` is inductive over every transition of the room; `Evolves` relates a room to any later one.
  */
module RoomInvariants {
  import opened Words
  import opened Messages
  import opened Rooms

  // The invariant.

  predicate SettingsOk(r: Room) {
    && 2 <= r.expected <= 4
    && r.track < 5
    && r.league < 3
    && (r.host < 4 || r.host == NO_HOST)
    && Count(r.players) <= r.expected
    && forall i :: 0 <= i < 4 ==> r.players[i].car < 4
  }

  /** In an open room the host is a present player, and there is none exactly when the room is empty. */
  predicate HostOk(r: Room) {
    && (Count(r.players) == 0 <==> r.host == NO_HOST)
    && (r.host != NO_HOST ==> r.host < 4 && Occupied(r.players[r.host]))
  }

  /** The phase/status table. */
  predicate StatusFits(phase: Phase, status: Status) {
    match phase
    case Lobby => status == Joined || status == Selected
    case Loading => status == Selected || status == PlayerLoaded
    case Countdown => status == PlayerLoaded
    case Racing => status == PlayerRacing || status == Finished
    case Results => status == Finished
  }

  predicate TableOk(r: Room) {
    forall i :: 0 <= i < 4 && Occupied(r.players[i]) ==> StatusFits(r.phase, r.players[i].status)
  }

  predicate StartOk(r: Room) {
    && (r.phase == Lobby || r.phase == Loading <==> r.start == 0)
    && (forall i :: 0 <= i < 4 && Occupied(r.players[i]) ==> r.players[i].armed <= r.start)
    && (r.phase == Racing || r.phase == Results ==> AllArmed(r.players, r.start))
  }

  /** Only loaded and racing cars have a position. */
  predicate HiddenOk(r: Room) {
    forall i :: 0 <= i < 4 && r.players[i].status != PlayerLoaded && r.players[i].status != PlayerRacing
      ==> r.players[i].x == 0 && r.players[i].y == 0
  }

  predicate IdentityOk(r: Room) {
    && (forall i :: 0 <= i < 4 && Occupied(r.players[i]) ==> r.players[i].token != 0)
    && forall i, j :: 0 <= i < j < 4 && Occupied(r.players[i]) && Occupied(r.players[j])
         ==> r.players[i].token != r.players[j].token && r.players[i].address != r.players[j].address
  }

  predicate OwnerOk(r: Room) {
    r.ownerNonce != 0 && Count(r.players) != 0 ==>
      Occupied(r.players[0]) && r.players[0].nonce == r.ownerNonce && r.host == 0
  }

  predicate OpenOk(r: Room) {
    HostOk(r) && OwnerOk(r) && (r.phase != Lobby ==> Count(r.players) > 0)
  }

  predicate Invariant(r: Room) {
    && SettingsOk(r)
    && TableOk(r)
    && StartOk(r)
    && HiddenOk(r)
    && IdentityOk(r)
    && (!r.closed ==> OpenOk(r))
  }

  // Evolution.

  /** Every present player has acknowledged the current deadline. */
  predicate Committed(r: Room) {
    PhaseRank(r.phase) >= 2 && AllArmed(r.players, r.start)
  }

  /** What holds from LOADING on until the next lobby. */
  predicate Frozen(r: Room, r': Room) {
    && r'.track == r.track
    && r'.league == r.league
    && r'.expected == r.expected
    && forall i :: 0 <= i < 4 ==>
         && r'.players[i].car == r.players[i].car
         && StatusRank(r.players[i].status) <= StatusRank(r'.players[i].status)
         && (Occupied(r'.players[i]) ==> Occupied(r.players[i]) && r'.players[i].token == r.players[i].token)
  }

  /** How a room may change within one race generation. */
  predicate SameRace(r: Room, r': Room) {
    && PhaseRank(r.phase) <= PhaseRank(r'.phase)
    && (r'.start == r.start || r'.start >= r.start + (LEAD - GUARD))
    && (Committed(r) ==> Committed(r') && r'.start == r.start)
    && (r.phase != Lobby ==> Frozen(r, r'))
  }

  predicate Evolves(r: Room, r': Room) {
    && r'.session == r.session
    && r'.ownerNonce == r.ownerNonce
    && r'.key == r.key
    && (r.closed ==> r'.closed)
    && r.race <= r'.race
    && r.snapshotSeq <= r'.snapshotSeq
    && (r.race == r'.race ==> SameRace(r, r'))
  }

  lemma EvolvesReflexive(r: Room)
    ensures Evolves(r, r)
  {
  }

  lemma EvolvesTransitive(a: Room, b: Room, c: Room)
    requires Evolves(a, b) && Evolves(b, c)
    ensures Evolves(a, c)
  {
  }

  /** How players may change when nobody joins and no command is executed: a player present afterwards was
      present before, is the same player with the same car and acknowledged command number, and keeps its status
      except for the reset of a new lobby and the release at the start. */
  predicate Kept(p: Player, p': Player) {
    Occupied(p') ==>
      && Occupied(p)
      && p'.address == p.address
      && p'.token == p.token
      && p'.nonce == p.nonce
      && p'.commandSeq == p.commandSeq
      && p'.car == p.car
  }

  predicate StatusKept(r: Room, p: Player, r': Room, p': Player) {
    Occupied(p') ==>
      || p'.status == p.status
      || (r'.race > r.race && p'.status == Joined)
      || (p.status == PlayerLoaded && p'.status == PlayerRacing)
  }

  predicate Keeps(r: Room, r': Room) {
    && r.race <= r'.race
    && forall i :: 0 <= i < 4 ==>
         && Kept(r.players[i], r'.players[i])
         && StatusKept(r, r.players[i], r', r'.players[i])
         && (r'.race == r.race || !Occupied(r'.players[i]) || r'.players[i].status == Joined)
  }

  lemma KeepsTransitive(a: Room, b: Room, c: Room)
    requires Keeps(a, b) && Keeps(b, c)
    ensures Keeps(a, c)
  {
  }
}
