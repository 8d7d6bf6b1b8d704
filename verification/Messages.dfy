/**
  The messages of the race protocol, with their payloads already taken apart.
  Modules `Payloads` and `Datagrams` tie these values to payload bytes and to datagrams.
  */
module Messages {
  datatype Phase = Lobby | Loading | Countdown | Racing | Results

  function PhaseRank(p: Phase): nat {
    match p
    case Lobby => 0
    case Loading => 1
    case Countdown => 2
    case Racing => 3
    case Results => 4
  }

  datatype Status = Empty | Joined | Selected | PlayerLoaded | PlayerRacing | Finished | Disconnected

  function StatusRank(s: Status): nat {
    match s
    case Empty => 0
    case Joined => 1
    case Selected => 2
    case PlayerLoaded => 3
    case PlayerRacing => 4
    case Finished => 5
    case Disconnected => 6
  }

  predicate Occupies(s: Status) {
    s != Empty && s != Disconnected
  }

  /** A reliable command. `Unknown` stands for every payload that is not one of the seven commands. */
  datatype Command =
    | Select(car: nat)
    | Loaded(x: nat, y: nat, orientation: nat)
    | Arm(deadline: nat)
    | Finish
    | Next
    | Config(players: nat, track: nat, league: nat)
    | Leave
    | Unknown(code: nat)

  /** One player's record in a snapshot. */
  datatype Peer = Peer(status: Status, car: nat, x: nat, y: nat, orientation: nat, movement: nat, age: nat)

  const NO_PEER := Peer(Empty, 0, 0, 0, 0, 0, 0)

  const NO_HOST: nat := 255

  /** The contents of a snapshot. `armed[i]` is bit `i` of the armed mask. */
  datatype View = View(phase: Phase, expected: nat, host: nat, track: nat, league: nat,
                       armed: seq<bool>, time: nat, start: nat, peers: seq<Peer>)

  /** The range checks a client applies before it believes a snapshot. */
  predicate PlausibleView(v: View) {
    && 2 <= v.expected <= 4
    && (v.host <= 3 || v.host == NO_HOST)
    && v.track <= 4
    && v.league <= 2
    && |v.armed| == 4
    && |v.peers| == 4
    && forall i :: 0 <= i < 4 ==> v.peers[i].car <= 3
  }

  datatype Reason = Password | Full | Underway | Starting | Version

  datatype Body =
    | Hello(nonce: nat, key: seq<nat>)
    | Welcome(slot: nat, nonce: nat)
    | Reliable(command: Command)
    | Movement(x: nat, y: nat, orientation: nat)
    | Snapshot(view: View)
    | Ping(stamp: nat)
    | Pong(stamp: nat)
    | TimedPong(stamp: nat, time: nat)
    | Refusal(command: Command)
    | JoinReject(nonce: nat, reason: Reason)
    | RoomClosed
    | Junk

  datatype Packet = Packet(session: nat, token: nat, race: nat, number: nat, ack: nat, body: Body)

  /** A datagram in flight. Clients use connected sockets, so what they receive is the server's. */
  datatype Mail = ToServer(from: nat, packet: Packet) | ToClient(to: nat, packet: Packet)
}
