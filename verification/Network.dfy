/**
  One room, any number of clients, and a network that may lose, duplicate and reorder datagrams:
  `net` holds every datagram ever sent, and each delivery picks any one of them.

  Clients are known by their nonce, which is fresh for every attachment. `past`, `times`, `owners` and `processed` are
  history: the room at each snapshot and the time it was published, the nonce for which each token was drawn, and the
  commands the room has executed for each token.
  */
module Network {
  import opened Words
  import opened Messages
  import opened Rooms
  import opened RoomInvariants
  import opened RoomSteps
  import C = Clients

  /** An executed command, and whether the room accepted it. */
  datatype Processed = Processed(race: nat, command: Command, accepted: bool)

  datatype System = System(room: Room, net: set<Mail>, clients: map<nat, C.State>,
                           past: seq<Room>, times: seq<nat>, owners: map<nat, nat>,
                           processed: map<nat, seq<Processed>>)

  datatype Event =
    | Attach(nonce: nat, address: nat, key: seq<nat>)
    | RoomReceives(from: nat, packet: Packet, at: Times, token: nat)
    | RoomTicks(now: nat, published: nat)
    | RoomPings(now: nat)
    | RoomCloses
    | ClientReceives(nonce: nat, packet: Packet)
    | ClientTicks(nonce: nat, hello: bool, retry: bool, ping: bool, stamp: nat)
    | ClientFrames(nonce: nat, frame: C.Frame)
    | ClientRequests(nonce: nat, command: Command)
    | ClientFails(nonce: nat)
    | ClientDetaches(nonce: nat)

  // What can happen.

  /** Deliveries happen while the counters they carry are less than 2^31 away from the receiver's. */
  predicate RoomWindow(r: Room, from: nat, p: Packet) {
    var i := Sender(r, from, p);
    i < 4 && (p.body.Reliable? || p.body.Movement?) ==>
      && Near(p.race, r.race)
      && (p.race == r.race && p.body.Reliable? ==>
            Near(p.number, r.players[i].commandSeq) && Near(p.number, r.players[i].commandSeq + 1))
      && (p.race == r.race && p.body.Movement? ==> Near(p.number, r.players[i].stateSeq))
  }

  predicate ClientWindow(c: C.State, p: Packet) {
    C.Addresses(c, p) && p.body.Snapshot? ==>
      && Near(p.number, c.snapshotSeq)
      && Near(p.race, c.race)
      && forall k :: 0 <= k < |c.pending| ==> Near(p.ack, c.pending[k].number)
  }

  predicate Enabled(s: System, e: Event) {
    match e
    case Attach(nonce, _, _) => nonce !in s.clients
    case RoomReceives(from, p, _, token) =>
      && ToServer(from, p) in s.net
      && token !in s.owners
      && RoomWindow(s.room, from, p)
    case RoomTicks(_, _) => !s.room.closed
    case RoomPings(_) => true
    case RoomCloses => true
    case ClientReceives(n, p) =>
      n in s.clients && ToClient(s.clients[n].address, p) in s.net && ClientWindow(s.clients[n], p)
    case ClientTicks(n, _, _, _, _) => n in s.clients
    case ClientFrames(n, _) => n in s.clients
    case ClientRequests(n, c) => n in s.clients && (c.Config? || c.Next?)
    case ClientFails(n) => n in s.clients
    case ClientDetaches(n) => n in s.clients
  }

  function AfterRoom(s: System, o: Outcome): System {
    s.(room := o.room, net := s.net + o.sent,
       past := if o.room.snapshotSeq > s.room.snapshotSeq then s.past + [o.room] else s.past)
  }

  /** If the step has published a snapshot, this is when. */
  function Timed(s: System, s': System, time: nat): System {
    s'.(times := if |s'.past| > |s.past| then s.times + [time] else s.times)
  }

  function AfterClient(s: System, n: nat, reply: C.Reply): System {
    s.(clients := s.clients[n := reply.client], net := s.net + reply.sent)
  }

  function DoneBy(s: System, token: nat): seq<Processed> {
    if token in s.processed then s.processed[token] else []
  }

  /** What the room's execution of a command adds to the history. */
  function Execution(r: Room, from: nat, p: Packet): Processed
    requires Sender(r, from, p) < 4 && p.body.Reliable?
  {
    Processed(p.race, p.body.command, CommandValid(r, Sender(r, from, p), p.body.command))
  }

  function AfterReceive(s: System, from: nat, p: Packet, at: Times, token: nat): System {
    var s1 := AfterRoom(s, Receive(s.room, from, p, at, token));
    if Executes(s.room, from, p) then
      s1.(processed := s.processed[p.token := DoneBy(s, p.token) + [Execution(s.room, from, p)]])
    else if Seats(s.room, from, p, token) then
      s1.(owners := s.owners[token := p.body.nonce], processed := s.processed[token := []])
    else s1
  }

  function Step(s: System, e: Event): System
    requires Enabled(s, e)
  {
    match e
    case Attach(nonce, address, key) => s.(clients := s.clients[nonce := C.Attached(address, nonce, key)])
    case RoomReceives(from, p, at, token) => Timed(s, AfterReceive(s, from, p, at, token), at.published)
    case RoomTicks(now, published) => Timed(s, AfterRoom(s, Tick(s.room, now, published)), published)
    case RoomPings(now) => AfterRoom(s, PingAll(s.room, now))
    case RoomCloses => AfterRoom(s, Close(s.room))
    case ClientReceives(n, p) => AfterClient(s, n, C.Receive(s.clients[n], p))
    case ClientTicks(n, hello, retry, ping, stamp) => AfterClient(s, n, C.Tick(s.clients[n], hello, retry, ping, stamp))
    case ClientFrames(n, f) => AfterClient(s, n, C.StepFrame(s.clients[n], f))
    case ClientRequests(n, c) => AfterClient(s, n, C.Reply(C.Request(s.clients[n], c), {}))
    case ClientFails(n) => AfterClient(s, n, C.Reply(C.Fail(s.clients[n]), {}))
    case ClientDetaches(n) => AfterClient(s, n, C.Detach(s.clients[n]))
  }

  function Start(room: Room): System {
    System(room, {}, map[], [], [], map[], map[])
  }

  // The inductive invariant.

  ghost predicate PastOk(room: Room, past: seq<Room>) {
    && |past| == room.snapshotSeq
    && (forall k :: 0 <= k < |past| ==>
          Invariant(past[k]) && past[k].snapshotSeq == k + 1 && Evolves(past[k], room))
    && forall k, l :: 0 <= k < l < |past| ==> Evolves(past[k], past[l])
  }

  /** Present players have drawn tokens, and their counters count the executed commands. */
  ghost predicate SeatedOk(room: Room, owners: map<nat, nat>, processed: map<nat, seq<Processed>>) {
    forall i :: 0 <= i < 4 && Occupied(room.players[i]) ==>
      && room.players[i].token in owners
      && room.players[i].token in processed
      && owners[room.players[i].token] == room.players[i].nonce
      && room.players[i].commandSeq == |processed[room.players[i].token]|
  }

  /** Present players are known by the address of the client they were seated for. */
  ghost predicate AddressOk(room: Room, clients: map<nat, C.State>) {
    forall i :: 0 <= i < 4 && Occupied(room.players[i]) ==>
      room.players[i].nonce in clients && clients[room.players[i].nonce].address == room.players[i].address
  }

  ghost predicate PastSeatedOk(past: seq<Room>, processed: map<nat, seq<Processed>>) {
    forall k, i :: 0 <= k < |past| && 0 <= i < 4 && Occupied(past[k].players[i]) ==>
      && past[k].players[i].token in processed
      && past[k].players[i].commandSeq <= |processed[past[k].players[i].token]|
      && CarBacked(past[k].players[i], processed[past[k].players[i].token], past[k].race)
  }

  ghost predicate OwnersOk(owners: map<nat, nat>, processed: map<nat, seq<Processed>>, clients: map<nat, C.State>) {
    && owners.Keys == processed.Keys
    && 0 !in owners
    && forall t :: t in owners ==>
         && owners[t] in clients
         && (clients[owners[t]].token != t ==> processed[t] == [])
  }

  /** The packet is the snapshot that this room sent to one of its present players. */
  ghost predicate SnapshotFrom(r: Room, to: nat, p: Packet)
    requires p.body.Snapshot?
  {
    exists i :: 0 <= i < 4 && Occupied(r.players[i]) && ToClient(to, p) == SnapshotTo(r, i, p.body.view.time)
  }

  ghost predicate SnapshotMailOk(p: Packet, to: nat, past: seq<Room>)
    requires p.body.Snapshot?
  {
    1 <= p.number <= |past| && SnapshotFrom(past[p.number - 1], to, p)
  }

  ghost predicate RoomMailOk(to: nat, p: Packet, room: Room, past: seq<Room>,
                             owners: map<nat, nat>, processed: map<nat, seq<Processed>>) {
    && (p.body.Snapshot? ==> SnapshotMailOk(p, to, past))
    && (p.body.Welcome? ==>
          && p.token in owners && p.token in processed
          && owners[p.token] == p.body.nonce
          && p.session == room.session
          && p.race <= room.race
          && p.ack <= |processed[p.token]|)
  }

  /** The number of the last command known to be acknowledged. */
  function Base(c: C.State): int {
    c.commandSeq - |c.pending|
  }

  /** A command datagram was issued by the client that owns its token; one for the client's present race
      carries an acknowledged number or is the command at the front of the queue. */
  ghost predicate CommandMailOk(p: Packet, c: C.State)
    requires p.body.Reliable?
  {
    && c.token == p.token
    && C.Issued(p.race, p.number, p.body.command) in c.history.issued
    && p.race <= c.race
    && (c.slot >= 0 && p.race == c.race ==>
          || p.number <= Base(c)
          || (p.number == Base(c) + 1 && c.pending != [] && c.pending[0].command == p.body.command))
  }

  ghost predicate ClientMailOk(from: nat, p: Packet, owners: map<nat, nat>, clients: map<nat, C.State>) {
    && (p.body.Hello? ==> p.body.nonce in clients && clients[p.body.nonce].address == from)
    && (p.body.Reliable? ==>
          p.token in owners && owners[p.token] in clients && CommandMailOk(p, clients[owners[p.token]]))
  }

  ghost predicate MailOk(m: Mail, s: System) {
    match m
    case ToClient(to, p) => RoomMailOk(to, p, s.room, s.past, s.owners, s.processed)
    case ToServer(from, p) => ClientMailOk(from, p, s.owners, s.clients)
  }

  ghost predicate NetOk(s: System) {
    forall m :: m in s.net ==> MailOk(m, s)
  }

  // One client's stream of commands.

  predicate Before(a: C.Issued, b: C.Issued) {
    a.race < b.race || (a.race == b.race && a.number < b.number)
  }

  /** Commands were issued in the order of race and number. */
  ghost predicate IssuedOk(c: C.State) {
    && (forall j, k :: 0 <= j < k < |c.history.issued| ==> Before(c.history.issued[j], c.history.issued[k]))
    && forall e :: e in c.history.issued ==>
         1 <= e.number && (e.race < c.race || (e.race == c.race && e.number <= c.commandSeq))
  }

  /** The queue holds consecutive numbers. */
  ghost predicate QueueOk(c: C.State) {
    && |c.pending| <= C.QUEUE_LIMIT
    && Base(c) >= 0
    && forall j :: 0 <= j < |c.pending| ==>
         && c.pending[j].number == Base(c) + 1 + j
         && C.Issued(c.race, c.pending[j].number, c.pending[j].command) in c.history.issued
  }

  /** The entry is an execution of this command, accepted or refused. */
  predicate Records(q: Processed, race: nat, command: Command) {
    q.race == race && q.command == command
  }

  /** What the room has executed is what the client issued, in order. */
  ghost predicate DoneOk(c: C.State, done: seq<Processed>) {
    && (forall k :: 0 <= k < |done| ==>
          done[k].race <= c.race && C.Issued(done[k].race, k + 1, done[k].command) in c.history.issued)
    && forall k, l :: 0 <= k < l < |done| ==> done[k].race <= done[l].race
  }

  /** The room's counter is the front number or one less, and then the front command is the one executed. */
  ghost predicate FrontOk(c: C.State, done: seq<Processed>) {
    && 0 <= Base(c) <= |done| <= Base(c) + 1
    && (|done| == Base(c) + 1 ==> c.pending != [] && Records(done[Base(c)], c.race, c.pending[0].command))
  }

  ghost predicate AckedOk(c: C.State, done: seq<Processed>) {
    forall e :: e in c.history.acked ==>
      1 <= e.number <= |done| && Records(done[e.number - 1], e.race, e.command)
  }

  ghost predicate ClearedOk(c: C.State, done: seq<Processed>, race: nat) {
    forall e :: e in c.history.cleared ==>
      1 <= e.number && e.race < race && (e.number <= |done| ==> done[e.number - 1].race > e.race)
  }

  /** A snapshot of a race the client has not entered yet acknowledges exactly what has been executed. */
  ghost predicate FutureAckOk(c: C.State, done: seq<Processed>, past: seq<Room>) {
    forall k, i :: 0 <= k < |past| && 0 <= i < 4 && Occupied(past[k].players[i])
                   && past[k].players[i].token == c.token && past[k].race > c.race ==>
      past[k].players[i].commandSeq == |done|
  }

  ghost predicate StreamOk(c: C.State, done: seq<Processed>, race: nat, past: seq<Room>) {
    && c.race <= race
    && IssuedOk(c)
    && DoneOk(c, done)
    && AckedOk(c, done)
    && ClearedOk(c, done, race)
    && FutureAckOk(c, done, past)
    && (c.slot >= 0 ==> QueueOk(c) && FrontOk(c, done))
  }

  // What one client knows.

  ghost predicate ViewOk(c: C.State, past: seq<Room>) {
    && c.snapshotSeq <= |past|
    && (c.snapshotSeq == 0 ==> c.view == C.NO_VIEW)
    && (c.snapshotSeq > 0 ==>
          past[c.snapshotSeq - 1].race == c.race && c.view == ViewOf(past[c.snapshotSeq - 1], c.view.time))
  }

  predicate GameSetUp(g: C.Game) {
    g.Prepare? || g.Location? || g.Race? || g.Crossed? || g.Standings?
  }

  /** The setup was written while the room was at or past LOADING in that race. */
  ghost predicate SetupAt(at: nat, race: nat, past: seq<Room>) {
    1 <= at <= |past| && past[at - 1].race == race && past[at - 1].phase != Lobby
  }

  /** Once the game is set up, the snapshot in view is past the lobby; while racing, the start was released. */
  ghost predicate GameNowOk(c: C.State, past: seq<Room>) {
    && (GameSetUp(c.game) ==> 0 <= c.slot < 4 && SetupAt(c.snapshotSeq, c.race, past))
    && (c.game.Race? ==> c.race in c.history.entered)
  }

  ghost predicate PreparedOk(prepared: map<nat, C.Setup>, past: seq<Room>) {
    forall r :: r in prepared ==>
      var u := prepared[r];
      && SetupAt(u.at, r, past) && u.slot < 4
      && u.writes == C.PrepareWrites(u.slot, ViewOf(past[u.at - 1], 0).peers)
  }

  ghost predicate LocatedOk(located: map<nat, C.Setup>, past: seq<Room>) {
    forall r :: r in located ==>
      var u := located[r];
      SetupAt(u.at, r, past) && u.writes == C.LocateWrites(past[u.at - 1].track, past[u.at - 1].league)
  }

  ghost predicate EnteredOk(entered: map<nat, C.Entry>, past: seq<Room>) {
    forall r :: r in entered ==>
      var u := entered[r];
      && SetupAt(u.at, r, past) && Committed(past[u.at - 1]) && u.start == past[u.at - 1].start
      && (past[u.at - 1].phase == Racing || (past[u.at - 1].phase == Countdown && u.reached))
  }

  ghost predicate GameOk(c: C.State, past: seq<Room>) {
    && GameNowOk(c, past)
    && PreparedOk(c.history.prepared, past)
    && LocatedOk(c.history.located, past)
    && EnteredOk(c.history.entered, past)
  }

  // What one client draws.

  predicate WithinPast(taken: seq<C.Taken>, past: seq<Room>) {
    forall k :: 0 <= k < |taken| ==> 1 <= taken[k].number <= |past|
  }

  /** Those of the given snapshots that show the given race. */
  function OfRace(taken: seq<C.Taken>, race: nat, past: seq<Room>): (mine: seq<C.Taken>)
    requires WithinPast(taken, past)
    ensures WithinPast(mine, past)
    ensures forall k :: 0 <= k < |mine| ==> mine[k] in taken && past[mine[k].number - 1].race == race
    ensures forall k :: 0 <= k < |taken| && past[taken[k].number - 1].race == race ==> taken[k] in mine
  {
    if taken == [] then []
    else
      var k := taken[|taken| - 1];
      OfRace(taken[..|taken| - 1], race, past) + if past[k.number - 1].race == race then [k] else []
  }

  /** The numbers a client has accepted increase, and the last record is that of the snapshot it shows. */
  predicate TakenOk(c: C.State, past: seq<Room>) {
    && WithinPast(c.history.taken, past)
    && (forall j, k :: 0 <= j < k < |c.history.taken| ==> c.history.taken[j].number < c.history.taken[k].number)
    && (if c.history.taken == [] then c.snapshotSeq == 0
        else c.history.taken[|c.history.taken| - 1] == C.Taken(c.snapshotSeq, c.view.time))
  }

  /** The sample is what this room showed at the time of the snapshot taken. */
  predicate Shows(sample: C.Sample, t: C.Taken, r: Room) {
    sample == C.Sample(t.time, ViewOf(r, t.time).peers)
  }

  /** The samples are those of the newest snapshots, as many as the buffer holds. */
  predicate Buffers(buffer: seq<C.Sample>, mine: seq<C.Taken>, past: seq<Room>)
    requires WithinPast(mine, past)
  {
    && |buffer| == (if |mine| > 16 then 16 else |mine|)
    && forall j :: 0 <= j < |buffer| ==> ShowsOne(buffer[j], mine[|mine| - |buffer| + j], past)
  }

  predicate ShowsOne(sample: C.Sample, t: C.Taken, past: seq<Room>) {
    1 <= t.number <= |past| && Shows(sample, t, past[t.number - 1])
  }

  ghost predicate BufferOk(c: C.State, past: seq<Room>) {
    && TakenOk(c, past)
    && (c.open ==> Buffers(c.buffer, OfRace(c.history.taken, c.race, past), past))
    && (!c.open ==> c.buffer == [])
  }

  // Commands a client issues once per race.

  predicate SameKind(a: Command, b: Command) {
    (a.Select? && b.Select?) || (a.Loaded? && b.Loaded?) || (a.Finish? && b.Finish?)
  }

  ghost predicate OnceOk(c: C.State) {
    && (forall j, k :: 0 <= j < k < |c.history.issued| && c.history.issued[j].race == c.history.issued[k].race ==>
          !SameKind(c.history.issued[j].command, c.history.issued[k].command))
    && (forall e :: e in c.history.issued && e.race == c.race ==>
          && (e.command.Select? ==> c.selectedSent)
          && (e.command.Loaded? ==> c.loadedSent)
          && (e.command.Finish? ==> c.finishedSent))
    && (forall e :: e in c.history.issued && e.command.Select? ==> e.command.car < 4)
    && c.car < 4
    && (forall k :: 0 <= k < |c.requests| ==> c.requests[k].Config? || c.requests[k].Next?)
  }

  /** LOADED was issued in view of LOADING, FINISH after a committed start. */
  ghost predicate TimelyOk(c: C.State, room: Room) {
    forall e :: e in c.history.issued && e.race == room.race ==>
      && (e.command.Loaded? ==> room.phase != Lobby)
      && (e.command.Finish? ==> Committed(room))
  }

  ghost predicate UnjoinedOk(c: C.State) {
    && c.slot < 0 && c.pending == [] && c.history == C.NO_HISTORY
    && c.snapshotSeq == 0 && c.view == C.NO_VIEW && c.commandSeq == 0 && c.race == 0 && !GameSetUp(c.game)
    && !c.selectedSent && !c.loadedSent && !c.finishedSent
  }

  ghost predicate ClientOk(n: nat, s: System)
    requires n in s.clients
  {
    var c := s.clients[n];
    && c.nonce == n
    && BufferOk(c, s.past)
    && OnceOk(c)
    && -1 <= c.slot < 4
    && if c.token == 0 then UnjoinedOk(c)
       else
         && c.token in s.owners && s.owners[c.token] == n && c.token in s.processed
         && c.session == s.room.session
         && (c.open ==> c.slot >= 0)
         && StreamOk(c, s.processed[c.token], s.room.race, s.past)
         && ViewOk(c, s.past)
         && GameOk(c, s.past)
         && TimelyOk(c, s.room)
  }

  // What has been accepted shows in a player's status.

  ghost predicate HasDone(done: seq<Processed>, race: nat, like: Command) {
    exists k :: 0 <= k < |done| && done[k].race == race && SameKind(done[k].command, like) && done[k].accepted
  }

  /** A player past JOINED has the car of a SELECT accepted from it in this race. */
  ghost predicate CarBacked(p: Player, done: seq<Processed>, race: nat) {
    p.status != Joined ==> Processed(race, Select(p.car), true) in done
  }

  ghost predicate StatusBacked(p: Player, done: seq<Processed>, race: nat) {
    && CarBacked(p, done, race)
    && (p.status == PlayerLoaded || p.status == PlayerRacing || p.status == Finished ==>
          HasDone(done, race, Loaded(0, 0, 0)))
    && (p.status == Finished ==> HasDone(done, race, Finish))
  }

  ghost predicate StatusOk(room: Room, processed: map<nat, seq<Processed>>) {
    forall i :: 0 <= i < 4 && Occupied(room.players[i]) && room.players[i].token in processed ==>
      StatusBacked(room.players[i], processed[room.players[i].token], room.race)
  }

  ghost predicate Ok(s: System) {
    && Invariant(s.room)
    && PastOk(s.room, s.past)
    && SeatedOk(s.room, s.owners, s.processed)
    && AddressOk(s.room, s.clients)
    && PastSeatedOk(s.past, s.processed)
    && OwnersOk(s.owners, s.processed, s.clients)
    && NetOk(s)
    && (forall n :: n in s.clients ==> ClientOk(n, s))
    && StatusOk(s.room, s.processed)
  }
}
