/**
  The authoritative room, as a pure state machine: what `receive_packet`, `advance`, `drop`, `begin_lobby`
  and `snapshot` do to the room. Class `Server` performs the same steps in place and is proved to agree.

  Counters are unwrapped; comparisons use their 32-bit images. Clock readings and fresh tokens are arguments.
  */
module Rooms {
  import opened Words
  import opened Messages

  const HEARTBEAT: nat := 5_000_000
  const LEAD: nat := 2_000_000
  const GUARD: nat := 500_000

  datatype Player = Player(address: nat, token: nat, nonce: nat, seen: nat, updated: nat, armed: nat, ping: nat,
                           commandSeq: nat, stateSeq: nat, x: nat, y: nat, orientation: nat,
                           status: Status, car: nat)

  const BLANK := Player(0, 0, 0, 0, 0, 0, 0, 0, 0, 0, 0, 0, Empty, 0)

  type Slots = s: seq<Player> | |s| == 4 witness [BLANK, BLANK, BLANK, BLANK]

  datatype Room = Room(session: nat, ownerNonce: nat, key: seq<nat>, closed: bool, race: nat, snapshotSeq: nat,
                       start: nat, phase: Phase, expected: nat, host: nat, track: nat, league: nat,
                       players: Slots)

  /** The clock readings taken while one packet is handled, in the order in which they are taken. */
  datatype Times = Times(updated: nat, seen: nat, advanced: nat, published: nat)

  datatype Outcome = Outcome(room: Room, sent: set<Mail>)

  // Slots.

  predicate Occupied(p: Player) {
    Occupies(p.status)
  }

  function One(p: Player): nat {
    if Occupied(p) then 1 else 0
  }

  function Count(ps: Slots): nat {
    One(ps[0]) + One(ps[1]) + One(ps[2]) + One(ps[3])
  }

  function FirstOccupied(ps: Slots): nat {
    if Occupied(ps[0]) then 0
    else if Occupied(ps[1]) then 1
    else if Occupied(ps[2]) then 2
    else if Occupied(ps[3]) then 3
    else NO_HOST
  }

  predicate AllAtLeast(ps: Slots, s: Status) {
    Count(ps) != 0 && forall i :: 0 <= i < 4 && Occupied(ps[i]) ==> StatusRank(ps[i].status) >= StatusRank(s)
  }

  predicate AllArmed(ps: Slots, start: nat) {
    forall i :: 0 <= i < 4 && Occupied(ps[i]) ==> ps[i].armed == start
  }

  // Room transitions.

  function LobbyPlayer(p: Player): Player {
    if Occupied(p) then p.(status := Joined, x := 0, y := 0, armed := 0, updated := 0, stateSeq := 0) else BLANK
  }

  function BeginLobby(r: Room): Room {
    r.(race := r.race + 1, start := 0, phase := Lobby,
       players := seq(4, i requires 0 <= i < 4 => LobbyPlayer(r.players[i])))
  }

  function Vacate(r: Room, i: nat): Room
    requires i < 4
  {
    r.(players := r.players[i := r.players[i].(status := Disconnected, x := 0, y := 0)])
  }

  function PassHost(r: Room, i: nat): Room {
    if r.host == i then r.(host := FirstOccupied(r.players)) else r
  }

  function Forget(r: Room, i: nat): Room
    requires i < 4
  {
    if r.phase == Lobby then r.(players := r.players[i := BLANK]) else r
  }

  function Drop(r: Room, i: nat): Room
    requires i < 4
  {
    var vacated := Vacate(r, i);
    if r.ownerNonce != 0 && i == 0 then vacated.(closed := true)
    else
      var left := Forget(PassHost(vacated, i), i);
      if Count(left.players) == 0 then BeginLobby(left).(host := NO_HOST) else left
  }

  predicate TimedOut(p: Player, now: nat) {
    Occupied(p) && Elapsed(now, p.seen) >= HEARTBEAT
  }

  function DropSilent(r: Room, from: nat, now: nat): Room
    requires from <= 4
    decreases 4 - from
  {
    if from == 4 then r
    else DropSilent(if TimedOut(r.players[from], now) then Drop(r, from) else r, from + 1, now)
  }

  function StartLoading(r: Room): Room {
    if r.phase == Lobby && Count(r.players) == r.expected && AllAtLeast(r.players, Selected)
    then r.(phase := Loading) else r
  }

  function StartCountdown(r: Room, now: nat): Room {
    if r.phase == Loading && AllAtLeast(r.players, PlayerLoaded)
    then r.(start := now + LEAD, phase := Countdown,
            players := seq(4, i requires 0 <= i < 4 => r.players[i].(armed := 0)))
    else r
  }

  function Release(p: Player): Player {
    if Occupied(p) then p.(status := PlayerRacing) else p
  }

  function CountDown(r: Room, now: nat): Room {
    if r.phase != Countdown then r
    else if !AllArmed(r.players, r.start) then
      if now + GUARD >= r.start then r.(start := now + LEAD) else r
    else if now >= r.start then
      r.(phase := Racing, players := seq(4, i requires 0 <= i < 4 => Release(r.players[i])))
    else r
  }

  function FinishRace(r: Room): Room {
    if r.phase == Racing && AllAtLeast(r.players, Finished) then r.(phase := Results) else r
  }

  function AdvancePhase(r: Room, now: nat): Room {
    FinishRace(CountDown(StartCountdown(StartLoading(r), now), now))
  }

  function Advance(r: Room, now: nat): Room {
    var r1 := DropSilent(r, 0, now);
    if r1.closed then r1 else AdvancePhase(r1, now)
  }

  // Messages to players.

  function Addressed(r: Room, i: nat, number: nat, body: Body): Mail
    requires i < 4
  {
    ToClient(r.players[i].address,
             Packet(r.session, r.players[i].token, r.race, number, r.players[i].commandSeq, body))
  }

  function Age(now: nat, updated: nat): nat {
    if updated == 0 then 0
    else
      var age := Elapsed(now, updated) / 1000;
      if age > SPACE - 1 then SPACE - 1 else if age < 0 then 0 else age
  }

  function PeerOf(p: Player, now: nat): Peer {
    Peer(p.status, p.car, p.x, p.y, p.orientation, Wrap(p.stateSeq), Age(now, p.updated))
  }

  function ViewOf(r: Room, now: nat): View {
    View(r.phase, r.expected, r.host, r.track, r.league,
         seq(4, i requires 0 <= i < 4 => Occupied(r.players[i]) && r.players[i].armed == r.start && r.start != 0),
         now, r.start,
         seq(4, i requires 0 <= i < 4 => PeerOf(r.players[i], now)))
  }

  function SnapshotTo(r: Room, i: nat, now: nat): Mail
    requires i < 4
  {
    Addressed(r, i, r.snapshotSeq, Snapshot(ViewOf(r, now)))
  }

  /** Numbers the next snapshot and sends it to every present player. */
  function Publish(r: Room, now: nat): Outcome {
    var r1 := r.(snapshotSeq := r.snapshotSeq + 1);
    Outcome(r1, set i | 0 <= i < 4 && Occupied(r1.players[i]) :: SnapshotTo(r1, i, now))
  }

  // Commands.

  predicate CommandValid(r: Room, i: nat, c: Command)
    requires i < 4
  {
    match c
    case Select(car) => car < 4 && r.phase == Lobby
    case Loaded(_, _, _) => r.phase == Loading
    case Arm(t) => r.phase == Countdown && t == r.start
    case Finish => r.phase == Racing && r.players[i].status == PlayerRacing
    case Next => i == r.host && (r.phase == Results || r.phase == Lobby)
    case Config(n, track, league) =>
      i == r.host && r.phase == Lobby && 2 <= n <= 4 && n >= Count(r.players) && track < 5 && league < 3
    case Leave => true
    case Unknown(_) => false
  }

  function CommandedPlayer(r: Room, p: Player, c: Command, now: nat): Player {
    match c
    case Select(car) => p.(car := car, status := Selected)
    case Loaded(x, y, o) => p.(x := x, y := y, orientation := o, status := PlayerLoaded, updated := now)
    case Arm(t) => p.(armed := r.start)
    case Finish => p.(status := Finished, x := 0, y := 0)
    case _ => p
  }

  /** The effect of a command on its sender's slot and on the room settings, before NEXT and LEAVE act. */
  function Commanded(r: Room, i: nat, number: nat, c: Command, at: Times): Room
    requires i < 4
  {
    var valid := CommandValid(r, i, c);
    var p := if valid then CommandedPlayer(r, r.players[i], c, at.updated) else r.players[i];
    var r1 := r.(players := r.players[i := p.(commandSeq := number, seen := at.seen)]);
    if valid && c.Config? then r1.(expected := c.players, track := c.track, league := c.league) else r1
  }

  function Settled(r: Room, i: nat, valid: bool, c: Command): Room
    requires i < 4
  {
    if valid && c == Next then BeginLobby(r)
    else if valid && c == Leave then Drop(r, i)
    else r
  }

  /** A command that carries exactly the next sequence number: acknowledged whether or not it is valid. */
  function Execute(r: Room, i: nat, number: nat, c: Command, at: Times): Outcome
    requires i < 4
  {
    var valid := CommandValid(r, i, c);
    var r1 := Commanded(r, i, number, c, at);
    var refusal := if valid then {} else {Addressed(r1, i, 0, Refusal(c))};
    var o := Publish(Advance(Settled(r1, i, valid, c), at.advanced), at.published);
    Outcome(o.room, refusal + o.sent)
  }

  // Receiving.

  predicate IsSender(r: Room, i: nat, from: nat, p: Packet)
    requires i < 4
  {
    Occupied(r.players[i]) && p.session == r.session && p.token == r.players[i].token
    && from == r.players[i].address
  }

  /** The slot a packet comes from, or 4. */
  function Sender(r: Room, from: nat, p: Packet): (i: nat)
    ensures i <= 4
    ensures i < 4 ==> IsSender(r, i, from, p)
  {
    if IsSender(r, 0, from, p) then 0
    else if IsSender(r, 1, from, p) then 1
    else if IsSender(r, 2, from, p) then 2
    else if IsSender(r, 3, from, p) then 3
    else 4
  }

  predicate AtAddress(p: Player, from: nat) {
    Occupied(p) && p.address == from
  }

  /** The present player that uses an address, or 4. */
  function Resident(ps: Slots, from: nat): (i: nat)
    ensures i <= 4
    ensures i < 4 ==> AtAddress(ps[i], from)
    ensures i == 4 ==> forall j :: 0 <= j < 4 ==> !AtAddress(ps[j], from)
  {
    if AtAddress(ps[0], from) then 0
    else if AtAddress(ps[1], from) then 1
    else if AtAddress(ps[2], from) then 2
    else if AtAddress(ps[3], from) then 3
    else 4
  }

  function FirstFree(ps: Slots): (i: nat)
    ensures i <= 4
    ensures i < 4 ==> !Occupied(ps[i])
    ensures i == 4 ==> Count(ps) == 4
    ensures i == 0 <==> !Occupied(ps[0])
  {
    if !Occupied(ps[0]) then 0
    else if !Occupied(ps[1]) then 1
    else if !Occupied(ps[2]) then 2
    else if !Occupied(ps[3]) then 3
    else 4
  }

  function NewPlayer(from: nat, token: nat, nonce: nat, now: nat): Player {
    BLANK.(address := from, token := token, nonce := nonce, seen := now, status := Joined)
  }

  function Seated(r: Room, i: nat, from: nat, token: nat, nonce: nat, now: nat): Room
    requires i < 4
  {
    r.(players := r.players[i := NewPlayer(from, token, nonce, now)], host := if r.host == NO_HOST then i else r.host)
  }

  function RejectJoin(r: Room, from: nat, nonce: nat, why: Reason): Outcome {
    Outcome(r, {ToClient(from, Packet(0, 0, 0, 0, 0, JoinReject(nonce, why)))})
  }

  /** Whether a HELLO seats a new player, and if so where. */
  function Seat(r: Room, from: nat, nonce: nat, key: seq<nat>): (i: nat)
    ensures i <= 4
    ensures i < 4 ==> i == FirstFree(r.players)
  {
    if key != r.key || (r.ownerNonce != 0 && !Occupied(r.players[0]) && nonce != r.ownerNonce)
       || Resident(r.players, from) < 4 || r.phase != Lobby || Count(r.players) >= r.expected
    then 4 else FirstFree(r.players)
  }

  function ReceiveHello(r: Room, from: nat, nonce: nat, key: seq<nat>, at: Times, newToken: nat): Outcome {
    if key != r.key then RejectJoin(r, from, nonce, Password)
    else if r.ownerNonce != 0 && !Occupied(r.players[0]) && nonce != r.ownerNonce then
      RejectJoin(r, from, nonce, Starting)
    else
      var i := Resident(r.players, from);
      if i < 4 then
        Outcome(r, if nonce == r.players[i].nonce then {Addressed(r, i, 0, Welcome(i, nonce))} else {})
      else if r.phase != Lobby then RejectJoin(r, from, nonce, Underway)
      else if Count(r.players) >= r.expected then RejectJoin(r, from, nonce, Full)
      else
        var j := FirstFree(r.players);
        if j == 4 then Outcome(r, {})
        else if newToken == 0 then Outcome(r.(players := r.players[j := BLANK.(address := from)]), {})
        else
          var r1 := Seated(r, j, from, newToken, nonce, at.seen);
          var o := Publish(r1, at.published);
          Outcome(o.room, {Addressed(r1, j, 0, Welcome(j, nonce))} + o.sent)
  }

  /** A command is executed when it belongs to this race and has exactly the next number. */
  predicate InSequence(r: Room, i: nat, p: Packet)
    requires i < 4
  {
    && p.body.Reliable?
    && Same(p.race, r.race)
    && Newer(p.number, r.players[i].commandSeq)
    && Same(p.number, r.players[i].commandSeq + 1)
  }

  predicate MovesPlayer(r: Room, i: nat, p: Packet)
    requires i < 4
  {
    && p.body.Movement?
    && Same(p.race, r.race)
    && r.phase == Racing
    && r.players[i].status == PlayerRacing
    && Newer(p.number, r.players[i].stateSeq)
  }

  function Moved(q: Player, p: Packet, now: nat): Player
    requires p.body.Movement?
  {
    q.(stateSeq := p.number, x := p.body.x, y := p.body.y, orientation := p.body.orientation,
       updated := now, seen := now)
  }

  function ReceiveFrom(r: Room, i: nat, p: Packet, at: Times): Outcome
    requires i < 4
  {
    var q := r.players[i];
    if p.body.Pong? && q.ping != 0 && p.body.stamp == q.ping then
      Outcome(r.(players := r.players[i := q.(ping := 0, seen := at.seen)]), {})
    else if p.body.Ping? then
      var r1 := r.(players := r.players[i := q.(seen := at.seen)]);
      Outcome(r1, {Addressed(r1, i, 0, TimedPong(p.body.stamp, at.seen))})
    else if MovesPlayer(r, i, p) then
      Outcome(r.(players := r.players[i := Moved(q, p, at.seen)]), {})
    else if InSequence(r, i, p) then
      Execute(r, i, p.number, p.body.command, at)
    else Outcome(r, {})
  }

  function Receive(r: Room, from: nat, p: Packet, at: Times, newToken: nat): Outcome {
    if r.closed then Outcome(r, {})
    else if p.body.Hello? then ReceiveHello(r, from, p.body.nonce, p.body.key, at, newToken)
    else
      var i := Sender(r, from, p);
      if i == 4 then Outcome(r, {}) else ReceiveFrom(r, i, p, at)
  }

  // The periodic work of `fz_server_poll`.

  function Tick(r: Room, now: nat, published: nat): Outcome {
    var r1 := Advance(r, now);
    if r1.closed then Outcome(r1, {}) else Publish(r1, published)
  }

  function Pinged(p: Player, now: nat): Player {
    if Occupied(p) then p.(ping := now) else p
  }

  function PingAll(r: Room, now: nat): Outcome {
    var r1 := r.(players := seq(4, i requires 0 <= i < 4 => Pinged(r.players[i], now)));
    Outcome(r1, set i | 0 <= i < 4 && Occupied(r1.players[i]) :: Addressed(r1, i, 0, Ping(now)))
  }

  function Close(r: Room): Outcome {
    Outcome(r.(closed := true), set i | 0 <= i < 4 && Occupied(r.players[i]) :: Addressed(r, i, 0, RoomClosed))
  }

  /** A freshly created room. */
  function Created(session: nat, owner: nat, key: seq<nat>, players: nat, track: nat, league: nat): Room {
    Room(session, owner, key, false, 1, 0, 0, Lobby, players, NO_HOST, track, league, [BLANK, BLANK, BLANK, BLANK])
  }
}
