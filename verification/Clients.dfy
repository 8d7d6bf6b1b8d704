/**
  The client's half of the protocol, as a pure state machine: `receive`, `queue`, the sending part of `tick`,
  and the per-frame game states. Class `Client` performs the same steps in place and is proved to agree.

  Emulator memory, timers and the estimate of the server's clock are arguments. `History` holds no state of
  the program: it records what the client has done, so that properties of whole runs can be stated.
  */
module Clients {
  import opened Words
  import opened Messages

  const QUEUE_LIMIT: nat := 8
  const BUFFER_LIMIT: nat := 16
  const SLOTS: seq<seq<nat>> := [[0, 3, 2, 1], [1, 3, 2, 0], [2, 3, 1, 0], [3, 2, 1, 0]]
  const PALETTES: seq<seq<nat>> := [[14, 12, 10, 8], [8, 12, 10, 14], [10, 12, 8, 14], [12, 10, 8, 14]]
  const MENU: seq<nat> := [0, 2, 1, 3]

  datatype Game = Init | CarSelect | Waiting | Prepare | Location | Race | Crossed | Standings | Offline

  datatype Pending = Pending(number: nat, command: Command)
  datatype Sample = Sample(time: nat, peers: seq<Peer>)
  datatype Taken = Taken(number: nat, time: nat)
  datatype Issued = Issued(race: nat, number: nat, command: Command)
  datatype Entry = Entry(at: nat, start: nat, reached: bool)
  datatype Setup = Setup(at: nat, slot: nat, writes: map<nat, nat>)

  /** Everything ever queued, in order; what an acknowledgement removed and what a race change discarded;
      the numbers and times of all snapshots accepted; and, by race, the memory set up and the start released. */
  datatype History = History(issued: seq<Issued>, acked: set<Issued>, cleared: set<Issued>, taken: seq<Taken>,
                             prepared: map<nat, Setup>, located: map<nat, Setup>, entered: map<nat, Entry>)

  datatype State = State(address: nat, nonce: nat, key: seq<nat>, attached: bool, open: bool, slot: int,
                         session: nat, token: nat, race: nat, commandSeq: nat, stateSeq: nat, snapshotSeq: nat,
                         view: View, armedTime: nat, pending: seq<Pending>, game: Game, car: nat,
                         selectedSent: bool, loadedSent: bool, finishedSent: bool,
                         requests: seq<Command>, buffer: seq<Sample>, history: History)

  datatype Reply = Reply(client: State, sent: set<Mail>)

  /** What a frame reads: game memory, whether the estimated server time has reached the start,
      and whether the host's automatic NEXT is due. */
  datatype Frame = Frame(ram54: nat, ram55: nat, ram56: nat, cursor: nat, x: nat, y: nat, orientation: nat,
                         reached: bool, autoNext: bool)

  const NO_HISTORY := History([], {}, {}, [], map[], map[], map[])
  const NO_VIEW := View(Lobby, 2, NO_HOST, 0, 0, [false, false, false, false], 0, 0,
                        [NO_PEER, NO_PEER, NO_PEER, NO_PEER])

  /** A client just after `attach`. */
  function Attached(address: nat, nonce: nat, key: seq<nat>): State {
    State(address, nonce, key, true, true, -1, 0, 0, 0, 0, 0, 0, NO_VIEW, 0, [], Init, 0,
          false, false, false, [], [], NO_HISTORY)
  }

  // The reliable queue.

  function Queue(c: State, command: Command): State {
    if c.slot < 0 || |c.pending| >= QUEUE_LIMIT then c
    else
      var number := c.commandSeq + 1;
      c.(commandSeq := number,
         pending := c.pending + [Pending(number, command)],
         history := c.history.(issued := c.history.issued + [Issued(c.race, number, command)]))
  }

  function QueueAll(c: State, commands: seq<Command>): State {
    if commands == [] then c else Queue(QueueAll(c, commands[..|commands| - 1]), commands[|commands| - 1])
  }

  predicate Acknowledges(ack: nat, number: nat) {
    Same(ack, number) || Newer(ack, number)
  }

  /** How many commands at the front of the queue an acknowledgement removes. */
  function AckedCount(pending: seq<Pending>, ack: nat): (n: nat)
    ensures n <= |pending|
  {
    if pending != [] && Acknowledges(ack, pending[0].number) then 1 + AckedCount(pending[1..], ack) else 0
  }

  function Entries(race: nat, pending: seq<Pending>): set<Issued> {
    set q | q in pending :: Issued(race, q.number, q.command)
  }

  // Receiving.

  function ResetGame(c: State): State {
    c.(game := Init, selectedSent := false, loadedSent := false, finishedSent := false,
       armedTime := 0, view := c.view.(start := 0), car := 0, buffer := [])
  }

  function Fail(c: State): State {
    c.(open := false, game := Offline, buffer := [])
  }

  predicate Welcomes(c: State, p: Packet) {
    p.body.Welcome? && p.body.nonce == c.nonce && p.body.slot < 4 && p.session != 0 && p.token != 0
  }

  predicate Addresses(c: State, p: Packet) {
    c.slot >= 0 && p.session == c.session && p.token == c.token
  }

  /** The snapshot filter. */
  predicate AcceptsSnapshot(c: State, p: Packet) {
    && Addresses(c, p)
    && p.body.Snapshot?
    && PlausibleView(p.body.view)
    && Newer(p.number, c.snapshotSeq)
    && (Same(p.race, c.race) || Newer(p.race, c.race))
  }

  function Acknowledge(c: State, ack: nat): State {
    var n := AckedCount(c.pending, ack);
    c.(pending := c.pending[n..],
       history := c.history.(acked := c.history.acked + Entries(c.race, c.pending[..n])))
  }

  function ChangeRace(c: State, race: nat, ack: nat): State {
    ResetGame(c).(race := race, commandSeq := ack, stateSeq := 0, pending := [],
                  history := c.history.(cleared := c.history.cleared + Entries(c.race, c.pending)))
  }

  function Newest(s: seq<Sample>): seq<Sample> {
    if |s| > BUFFER_LIMIT then s[|s| - BUFFER_LIMIT..] else s
  }

  function Observe(c: State, v: View): State {
    c.(view := v, buffer := Newest(c.buffer + [Sample(v.time, v.peers)]),
       history := c.history.(taken := c.history.taken + [Taken(c.snapshotSeq, v.time)]))
  }

  function Rearm(c: State): State {
    if c.view.phase == Countdown && c.view.start != c.armedTime
    then Queue(c, Arm(c.view.start)).(armedTime := c.view.start) else c
  }

  function TakeSnapshot(c: State, p: Packet): State
    requires p.body.Snapshot?
  {
    var c1 := Acknowledge(c.(snapshotSeq := p.number), p.ack);
    var c2 := if Same(p.race, c.race) then c1 else ChangeRace(c1, p.race, p.ack);
    Rearm(Observe(c2, p.body.view))
  }

  function Stamped(c: State, number: nat, body: Body): Mail {
    ToServer(c.address, Packet(c.session, c.token, c.race, number, 0, body))
  }

  function Receive(c: State, p: Packet): Reply {
    if !c.open || c.game == Offline then Reply(c, {})
    else if c.slot < 0 && p.body.JoinReject? && p.body.nonce == c.nonce then Reply(Fail(c), {})
    else if Welcomes(c, p) then
      Reply(if c.slot >= 0 then c
            else c.(slot := p.body.slot, session := p.session, token := p.token, race := p.race,
              commandSeq := p.ack), {})
    else if !Addresses(c, p) then Reply(c, {})
    else ReceiveAddressed(c, p)
  }

  function ReceiveAddressed(c: State, p: Packet): Reply {
    if p.body.RoomClosed? then Reply(Fail(c), {})
    else if p.body.Ping? then Reply(c, {Stamped(c, 0, Pong(p.body.stamp))})
    else if AcceptsSnapshot(c, p) then Reply(TakeSnapshot(c, p), {})
    else Reply(c, {})
  }

  // Sending.

  function Request(c: State, command: Command): State {
    if |c.requests| < QUEUE_LIMIT then c.(requests := c.requests + [command]) else c
  }

  /** The sending half of `tick`; the flags say which timers are due. */
  function Tick(c: State, hello: bool, retry: bool, ping: bool, stamp: nat): Reply {
    if !c.open || c.game == Offline then Reply(c, {})
    else if c.slot < 0 then Reply(c, if hello then {Stamped(c, 0, Hello(c.nonce, c.key))} else {})
    else
      var c1 := QueueAll(c.(requests := []), c.requests);
      Reply(c1, (if retry && c1.pending != []
                 then {Stamped(c1, c1.pending[0].number, Reliable(c1.pending[0].command))} else {})
                + (if ping then {Stamped(c1, 0, Ping(stamp))} else {}))
  }

  // Frames.

  /** The network player shown in a local car slot. Slot 0 is the local player. */
  function Local(slot: nat, k: nat): (q: nat)
    requires slot < 4 && k < 4
    ensures q < 4
  {
    assert SLOTS[0] == [0, 3, 2, 1] && SLOTS[1] == [1, 3, 2, 0] && SLOTS[2] == [2, 3, 1, 0] && SLOTS[3] == [3, 2, 1, 0];
    SLOTS[slot][k]
  }

  function Palette(slot: nat, k: nat): nat
    requires slot < 4 && k < 4
  {
    assert forall i :: 0 <= i < 4 ==> |PALETTES[i]| == 4;
    PALETTES[slot][k]
  }

  /** Machine types and palettes for the first `k` local car slots. */
  function CarWrites(slot: nat, peers: seq<Peer>, k: nat): map<nat, nat>
    requires slot < 4 && |peers| == 4 && k <= 4
  {
    if k == 0 then map[]
    else
      var w := CarWrites(slot, peers, k - 1);
      var w1 := if k > 1 then w[0x1131 + 2 * (k - 1) := peers[Local(slot, k - 1)].car] else w;
      w1[0xc41 + 2 * (k - 1) := Palette(slot, k - 1)]
  }

  function PrepareWrites(slot: nat, peers: seq<Peer>): map<nat, nat>
    requires slot < 4 && |peers| == 4
  {
    CarWrites(slot, peers, 4)
  }

  lemma {:induction false} CarWritesAt(slot: nat, peers: seq<Peer>, k: nat, a: nat)
    requires slot < 4 && |peers| == 4 && 1 <= a < k <= 4
    ensures 0x1131 + 2 * a in CarWrites(slot, peers, k)
    ensures CarWrites(slot, peers, k)[0x1131 + 2 * a] == peers[Local(slot, a)].car
  {
    if a < k - 1 {
      CarWritesAt(slot, peers, k - 1, a);
    }
  }

  lemma {:induction false} CarWritesSame(slot: nat, peers: seq<Peer>, others: seq<Peer>, k: nat)
    requires slot < 4 && |peers| == |others| == 4 && k <= 4
    requires forall i :: 0 <= i < 4 ==> peers[i].car == others[i].car
    ensures CarWrites(slot, peers, k) == CarWrites(slot, others, k)
  {
    if k > 0 {
      CarWritesSame(slot, peers, others, k - 1);
    }
  }

  function LocateWrites(track: nat, league: nat): map<nat, nat> {
    map[0x53 := track, 0x5a := league]
  }

  function PrepareRace(c: State): State {
    if 0 <= c.slot < 4 && |c.view.peers| == 4 then
      c.(game := Prepare,
         history := c.history.(prepared := c.history.prepared[c.race :=
           Setup(c.snapshotSeq, c.slot, PrepareWrites(c.slot, c.view.peers))]))
    else c.(game := Prepare)
  }

  function Locate(c: State): State {
    c.(game := Location,
       history := c.history.(located := c.history.located[c.race :=
         Setup(c.snapshotSeq, 0, LocateWrites(c.view.track, c.view.league))]))
  }

  predicate Someone(v: View) {
    exists i :: 0 <= i < |v.peers| && Occupies(v.peers[i].status)
  }

  predicate EveryoneArmed(v: View) {
    |v.armed| == |v.peers| && forall i :: 0 <= i < |v.peers| && Occupies(v.peers[i].status) ==> v.armed[i]
  }

  /** The release barrier: the server is racing, or everyone present is armed and the deadline has come. */
  predicate Released(v: View, reached: bool) {
    v.phase == Racing || (v.phase == Countdown && Someone(v) && EveryoneArmed(v) && reached)
  }

  function EnterRace(c: State, reached: bool): State {
    c.(game := Race,
       history := c.history.(entered := c.history.entered[c.race := Entry(c.snapshotSeq, c.view.start, reached)]))
  }

  function SendSelection(c: State): State {
    if c.slot >= 0 && !c.selectedSent && c.view.phase == Lobby
    then Queue(c, Select(c.car)).(selectedSent := true) else c
  }

  function SendLoaded(c: State, f: Frame): State {
    if !c.loadedSent && c.view.phase == Loading
    then Queue(c, Loaded(f.x, f.y, f.orientation)).(loadedSent := true) else c
  }

  function SendFinish(c: State): State {
    if !c.finishedSent then Queue(c, Finish).(finishedSent := true) else c
  }

  function StepFrame(c: State, f: Frame): Reply {
    if !c.attached || c.game == Offline then Reply(c, {})
    else match c.game
      case Init => Reply(c.(game := CarSelect), {})
      case CarSelect =>
        if f.ram55 == 3 then Reply(c.(car := MENU[f.cursor % 4]), {})
        else if f.ram55 == 5 then Reply(c.(game := Waiting), {})
        else Reply(c, {})
      case Waiting =>
        var c1 := SendSelection(c);
        Reply(if c1.slot >= 0 && c1.view.phase == Loading then PrepareRace(c1) else c1, {})
      case Prepare => Reply(Locate(c), {})
      case Location =>
        if f.ram54 == 2 && f.ram55 == 0 && f.ram56 == 2 then
          var c1 := SendLoaded(c, f);
          Reply(if Released(c1.view, f.reached) then EnterRace(c1, f.reached) else c1, {})
        else Reply(c, {})
      case Race =>
        if f.ram54 == 3 then Reply(SendFinish(c).(game := Crossed), {})
        else
          var c1 := c.(stateSeq := c.stateSeq + 1);
          Reply(c1, {Stamped(c1, c1.stateSeq, Movement(f.x, f.y, f.orientation))})
      case Crossed => Reply(if c.view.phase == Results then c.(game := Standings) else c, {})
      case Standings => Reply(if f.autoNext && c.slot == c.view.host then Queue(c, Next) else c, {})
      case Offline => Reply(c, {})
  }

  /** Closing the connection; with nothing in flight, a LEAVE is sent once. */
  function Detach(c: State): Reply {
    var leaving := c.open && c.slot >= 0 && c.pending == [];
    var number := c.commandSeq + 1;
    var c1 := if leaving
      then c.(commandSeq := number,
              history := c.history.(issued := c.history.issued + [Issued(c.race, number, Leave)]))
      else c;
    Reply(c1.(attached := false, open := false, slot := -1, pending := [], buffer := [], game := Init, requests := []),
          if leaving then {Stamped(c, number, Reliable(Leave))} else {})
  }
}
