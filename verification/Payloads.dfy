/**
  Payload bytes. `Messages` values are what senders put into payloads and what receivers read out of them; each
  reader accepts exactly the lengths and ranges that the program checks.
  */
module Payloads {
  import opened Words
  import opened Messages
  import opened Options
  import opened Wire

  // Commands.

  predicate SizedCommand(c: Command) {
    match c
    case Select(car) => car < 0x100
    case Loaded(x, y, o) => x < 0x1_0000 && y < 0x1_0000 && o < 0x100
    case Arm(t) => t < 0x1_0000_0000_0000_0000
    case Config(n, t, l) => n < 0x100 && t < 0x100 && l < 0x100
    case Unknown(_) => false
    case _ => true
  }

  function CommandBytes(c: Command): seq<byte>
    requires SizedCommand(c)
  {
    match c
    case Select(car) => [1, car]
    case Loaded(x, y, o) => [2] + Le16(x) + Le16(y) + [o]
    case Arm(t) => [3] + Le64(t)
    case Finish => [4]
    case Next => [5]
    case Config(n, t, l) => [6, n, t, l]
    case Leave => [7]
  }

  /** How the server reads a command payload. A payload that is not a command is still acknowledged, as unknown. */
  function ReadCommand(p: seq<byte>): Command
    requires p != []
  {
    if p[0] == 1 && |p| == 2 then Select(p[1])
    else if p[0] == 2 && |p| == 6 then Loaded(U16(p[1..3]), U16(p[3..5]), p[5])
    else if p[0] == 3 && |p| == 9 then Arm(U64(p[1..9]))
    else if p[0] == 4 && |p| == 1 then Finish
    else if p[0] == 5 && |p| == 1 then Next
    else if p[0] == 6 && |p| == 4 then Config(p[1], p[2], p[3])
    else if p[0] == 7 && |p| == 1 then Leave
    else Unknown(p[0])
  }

  /** The server reads back exactly the command a client wrote, and reads a command only from its own bytes. */
  lemma CommandRoundTrip(c: Command, p: seq<byte>)
    requires SizedCommand(c) && p != []
    ensures CommandBytes(c) != [] && ReadCommand(CommandBytes(c)) == c
    ensures !ReadCommand(p).Unknown? ==> SizedCommand(ReadCommand(p)) && CommandBytes(ReadCommand(p)) == p
  {
    ReadBack(c);
    WriteBack(p);
  }

  lemma ReadBack(c: Command)
    requires SizedCommand(c)
    ensures CommandBytes(c) != [] && ReadCommand(CommandBytes(c)) == c
  {
    match c {
      case Loaded(x, y, o) =>
        var s := CommandBytes(c);
        assert s[1..3] == Le16(x) && s[3..5] == Le16(y) && s[5] == o;
        Le16RoundTrip(x, [0, 0]);
        Le16RoundTrip(y, [0, 0]);
      case Arm(t) =>
        assert CommandBytes(c)[1..9] == Le64(t);
        Le64RoundTrip(t, Le64(0));
      case _ =>
    }
  }

  lemma WriteBack(p: seq<byte>)
    requires p != []
    ensures !ReadCommand(p).Unknown? ==> SizedCommand(ReadCommand(p)) && CommandBytes(ReadCommand(p)) == p
  {
    match ReadCommand(p) {
      case Loaded(x, y, o) =>
        Le16RoundTrip(0, p[1..3]);
        Le16RoundTrip(0, p[3..5]);
        assert p == [p[0]] + p[1..3] + p[3..5] + [p[5]];
      case Arm(t) =>
        Le64RoundTrip(0, p[1..9]);
        assert p == [p[0]] + p[1..9];
      case _ =>
    }
  }

  // Movement.

  function MovementBytes(x: u16, y: u16, o: byte): seq<byte> {
    Le16(x) + Le16(y) + [o]
  }

  lemma MovementRoundTrip(x: u16, y: u16, o: byte)
    ensures var s := MovementBytes(x, y, o);
      |s| == 5 && U16(s[0..2]) == x && U16(s[2..4]) == y && s[4] == o
  {
  }

  // Snapshots.

  function PhaseOf(n: nat): Phase
    requires n <= 4
  {
    [Lobby, Loading, Countdown, Racing, Results][n]
  }

  function StatusOf(n: nat): Status
    requires n <= 6
  {
    [Empty, Joined, Selected, PlayerLoaded, PlayerRacing, Finished, Disconnected][n]
  }

  predicate SizedPeer(p: Peer) {
    p.car < 0x100 && p.x < 0x1_0000 && p.y < 0x1_0000 && p.orientation < 0x100
    && p.movement < 0x1_0000_0000 && p.age < 0x1_0000_0000
  }

  predicate SizedView(v: View) {
    && PlausibleView(v)
    && v.time < 0x1_0000_0000_0000_0000 && v.start < 0x1_0000_0000_0000_0000
    && forall i :: 0 <= i < 4 ==> SizedPeer(v.peers[i])
  }

  function PeerBytes(p: Peer): (s: seq<byte>)
    requires SizedPeer(p)
    ensures |s| == 16
  {
    [StatusRank(p.status), p.car] + Le16(p.x) + Le16(p.y) + [p.orientation, 0] + Le32(p.movement) + Le32(p.age)
  }

  function ReadPeer(s: seq<byte>): Peer
    requires |s| == 16 && s[0] <= 6
  {
    Peer(StatusOf(s[0]), s[1], U16(s[2..4]), U16(s[4..6]), s[6], U32(s[8..12]), U32(s[12..16]))
  }

  function Bit(b: bool, weight: nat): nat {
    if b then weight else 0
  }

  function MaskByte(armed: seq<bool>): byte
    requires |armed| == 4
  {
    Bit(armed[0], 1) + Bit(armed[1], 2) + Bit(armed[2], 4) + Bit(armed[3], 8)
  }

  function ReadMask(m: byte): seq<bool> {
    [m % 2 == 1, m / 2 % 2 == 1, m / 4 % 2 == 1, m / 8 % 2 == 1]
  }

  function SnapshotHead(v: View): (s: seq<byte>)
    requires SizedView(v)
    ensures |s| == 24
  {
    [PhaseRank(v.phase), v.expected, v.host, v.track, v.league, MaskByte(v.armed), 0, 0] + Le64(v.time) + Le64(v.start)
  }

  function SnapshotBytes(v: View): (s: seq<byte>)
    requires SizedView(v)
    ensures |s| == 88
  {
    SnapshotHead(v) + PeerBytes(v.peers[0]) + PeerBytes(v.peers[1]) + PeerBytes(v.peers[2]) + PeerBytes(v.peers[3])
  }

  function Record(s: seq<byte>, i: nat): (r: seq<byte>)
    requires |s| == 88 && i < 4
    ensures |r| == 16
  {
    s[24 + 16 * i..40 + 16 * i]
  }

  /** The checks a client applies to the payload of a snapshot before using any of it. */
  predicate SnapshotAcceptable(s: seq<byte>) {
    && |s| == 88 && s[0] <= 4 && 2 <= s[1] <= 4 && (s[2] <= 3 || s[2] == 255) && s[3] <= 4 && s[4] <= 2
    && forall i :: 0 <= i < 4 ==> Record(s, i)[0] <= 6 && Record(s, i)[1] <= 3
  }

  function ReadSnapshot(s: seq<byte>): Option<View> {
    if !SnapshotAcceptable(s) then None
    else Some(View(PhaseOf(s[0]), s[1], s[2], s[3], s[4], ReadMask(s[5]), U64(s[8..16]), U64(s[16..24]),
                   [ReadPeer(Record(s, 0)), ReadPeer(Record(s, 1)), ReadPeer(Record(s, 2)), ReadPeer(Record(s, 3))]))
  }

  lemma PeerRoundTrip(p: Peer)
    requires SizedPeer(p)
    ensures PeerBytes(p)[0] <= 6 && PeerBytes(p)[1] == p.car && ReadPeer(PeerBytes(p)) == p
  {
    var s := PeerBytes(p);
    assert s[2..4] == Le16(p.x) && s[4..6] == Le16(p.y) && s[8..12] == Le32(p.movement) && s[12..16] == Le32(p.age);
    Le16RoundTrip(p.x, [0, 0]);
    Le16RoundTrip(p.y, [0, 0]);
    Le32RoundTrip(p.movement, Le32(0));
    Le32RoundTrip(p.age, Le32(0));
  }

  lemma MaskRoundTrip(armed: seq<bool>)
    requires |armed| == 4
    ensures ReadMask(MaskByte(armed)) == armed
  {
  }

  lemma HeadRoundTrip(v: View)
    requires SizedView(v)
    ensures var h := SnapshotHead(v);
      && h[0] == PhaseRank(v.phase) && PhaseOf(h[0]) == v.phase
      && h[1] == v.expected && h[2] == v.host && h[3] == v.track && h[4] == v.league && h[5] == MaskByte(v.armed)
      && U64(h[8..16]) == v.time && U64(h[16..24]) == v.start
  {
    hide MaskByte;
    var h := SnapshotHead(v);
    assert h[8..16] == Le64(v.time) && h[16..24] == Le64(v.start);
    Le64RoundTrip(v.time, Le64(0));
    Le64RoundTrip(v.start, Le64(0));
  }

  lemma RecordsOf(v: View, i: nat)
    requires SizedView(v) && i < 4
    ensures Record(SnapshotBytes(v), i) == PeerBytes(v.peers[i])
    ensures SnapshotBytes(v)[..24] == SnapshotHead(v)
  {
    hide PeerBytes, SnapshotHead;
    if i == 0 {} else if i == 1 {} else if i == 2 {} else {}
  }

  /** A client reads out of a snapshot payload exactly the view the server put in. */
  lemma SnapshotRoundTrip(v: View)
    requires SizedView(v)
    ensures ReadSnapshot(SnapshotBytes(v)) == Some(v)
  {
    hide PeerBytes, SnapshotHead, MaskByte, ReadMask, ReadPeer, PhaseOf, Record, SnapshotBytes, SizedPeer;
    var s, h := SnapshotBytes(v), SnapshotHead(v);
    HeadRoundTrip(v);
    MaskRoundTrip(v.armed);
    forall i | 0 <= i < 4
      ensures Record(s, i) == PeerBytes(v.peers[i]) && Record(s, i)[0] <= 6 && Record(s, i)[1] <= 3
      ensures ReadPeer(Record(s, i)) == v.peers[i]
    {
      RecordsOf(v, i);
      PeerRoundTrip(v.peers[i]);
    }
    RecordsOf(v, 0);
    assert forall k :: 0 <= k < 24 ==> s[k] == h[k];
    assert s[8..16] == h[8..16] && s[16..24] == h[16..24];
    var r := ReadSnapshot(s);
    assert r.Some?;
    assert r.value.peers == v.peers;
  }
}
