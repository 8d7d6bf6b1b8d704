/**
  Messages end to end: from a packet with its body, through payload and datagram bytes, to the packet the receiver
  works on. The content of a refused command (FZ_ERROR), which the client only logs, is not carried.
  */
module Datagrams {
  import opened Words
  import opened Messages
  import opened Options
  import opened Wire
  import opened Payloads
  import opened Rooms
  import opened RoomInvariants
  import opened RoomSteps
  import T = RoomTheorems
  import K = Congruence

  const KEY_LIMIT: nat := 64

  // Bodies.

  function ReasonCode(r: Reason): byte {
    match r
    case Password => 1
    case Full => 2
    case Underway => 3
    case Starting => 4
    case Version => 5
  }

  /** Any other code is shown to the player as a rejection without a particular reason. */
  function ReasonOf(n: byte): Reason {
    if n == 1 then Password else if n == 2 then Full else if n == 3 then Underway else if n == 4 then Starting
      else Version
  }

  /** The body fits its payload. */
  predicate SizedBody(b: Body) {
    match b
    case Hello(nonce, key) =>
      nonce < 0x1_0000_0000_0000_0000 && |key| <= KEY_LIMIT && forall k :: 0 <= k < |key| ==> key[k] < 0x100
    case Welcome(slot, nonce) => slot < 0x100 && nonce < 0x1_0000_0000_0000_0000
    case Reliable(c) => SizedCommand(c)
    case Movement(x, y, o) => x < 0x1_0000 && y < 0x1_0000 && o < 0x100
    case Snapshot(v) => SizedView(v)
    case Ping(stamp) => stamp < 0x1_0000_0000_0000_0000
    case Pong(stamp) => stamp < 0x1_0000_0000_0000_0000
    case TimedPong(stamp, time) => stamp < 0x1_0000_0000_0000_0000 && time < 0x1_0000_0000_0000_0000
    case JoinReject(nonce, _) => nonce < 0x1_0000_0000_0000_0000
    case RoomClosed => true
    case Refusal(_) => false
    case Junk => false
  }

  function Kind(b: Body): byte
    requires SizedBody(b)
  {
    match b
    case Hello(_, _) => 1
    case Welcome(_, _) => 2
    case Reliable(_) => 3
    case Movement(_, _, _) => 4
    case Snapshot(_) => 5
    case Ping(_) => 6
    case Pong(_) => 7
    case TimedPong(_, _) => 7
    case JoinReject(_, _) => 9
    case RoomClosed => 10
  }

  function KeyBytes(key: seq<nat>): (s: seq<byte>)
    requires forall k :: 0 <= k < |key| ==> key[k] < 0x100
    ensures |s| == |key| && forall k :: 0 <= k < |key| ==> s[k] == key[k]
  {
    seq(|key|, k requires 0 <= k < |key| => key[k])
  }

  function BodyBytes(b: Body): (s: seq<byte>)
    requires SizedBody(b)
    ensures |s| <= MAX_PAYLOAD
  {
    match b
    case Hello(nonce, key) => Le64(nonce) + [|key|] + KeyBytes(key)
    case Welcome(slot, nonce) => [slot] + Le64(nonce)
    case Reliable(c) => CommandBytes(c)
    case Movement(x, y, o) => MovementBytes(x, y, o)
    case Snapshot(v) => SnapshotBytes(v)
    case Ping(stamp) => Le64(stamp)
    case Pong(stamp) => Le64(stamp)
    case TimedPong(stamp, time) => Le64(stamp) + Le64(time)
    case JoinReject(nonce, reason) => Le64(nonce) + [ReasonCode(reason)]
    case RoomClosed => [1]
  }

  /** How receivers take a payload apart; what fits no message is junk. */
  function ReadBody(kind: byte, s: seq<byte>): Body {
    if kind == 1 && |s| >= 9 && s[8] <= KEY_LIMIT && |s| == 9 + s[8] then Hello(U64(s[0..8]), s[9..])
    else if kind == 2 && |s| == 9 then Welcome(s[0], U64(s[1..9]))
    else if kind == 3 && |s| >= 1 then Reliable(ReadCommand(s))
    else if kind == 4 && |s| == 5 then Movement(U16(s[0..2]), U16(s[2..4]), s[4])
    else if kind == 5 && ReadSnapshot(s).Some? then Snapshot(ReadSnapshot(s).value)
    else if kind == 6 && |s| == 8 then Ping(U64(s[0..8]))
    else if kind == 7 && |s| == 8 then Pong(U64(s[0..8]))
    else if kind == 7 && |s| == 16 then TimedPong(U64(s[0..8]), U64(s[8..16]))
    else if kind == 9 && |s| == 9 then JoinReject(U64(s[0..8]), ReasonOf(s[8]))
    else if kind == 10 && |s| == 1 then RoomClosed
    else Junk
  }

  lemma Prefix64(v: u64, rest: seq<byte>)
    ensures var s := Le64(v) + rest; s[0..8] == Le64(v) && U64(s[0..8]) == v && s[8..] == rest
  {
    Le64RoundTrip(v, Le64(0));
  }

  lemma HelloRoundTrip(nonce: u64, key: seq<nat>)
    requires SizedBody(Hello(nonce, key))
    ensures var s := BodyBytes(Hello(nonce, key));
      |s| == 9 + |key| && s[8] == |key| && U64(s[0..8]) == nonce && s[9..] == key
  {
    hide Le64, U64;
    var s := BodyBytes(Hello(nonce, key));
    Prefix64(nonce, [|key|] + KeyBytes(key));
    assert s == Le64(nonce) + ([|key|] + KeyBytes(key));
    assert s[9..] == KeyBytes(key) == key;
  }

  lemma StampsRoundTrip(stamp: u64, time: u64, slot: byte)
    ensures U64(Le64(stamp)[0..8]) == stamp
    ensures var s := Le64(stamp) + Le64(time); U64(s[0..8]) == stamp && U64(s[8..16]) == time
    ensures var s := Le64(stamp) + [slot]; U64(s[0..8]) == stamp && s[8] == slot
    ensures var s := [slot] + Le64(stamp); U64(s[1..9]) == stamp && s[0] == slot
  {
    hide Le64, U64;
    Le64RoundTrip(stamp, Le64(0));
    Le64RoundTrip(time, Le64(0));
    Prefix64(stamp, Le64(time));
    Prefix64(stamp, [slot]);
    assert Le64(stamp)[0..8] == Le64(stamp) && (Le64(stamp) + Le64(time))[8..16] == Le64(time);
    assert ([slot] + Le64(stamp))[1..9] == Le64(stamp);
  }

  lemma BodyRoundTrip(b: Body)
    requires SizedBody(b)
    ensures ReadBody(Kind(b), BodyBytes(b)) == b
  {
    hide SizedView, SnapshotBytes, ReadSnapshot, CommandBytes, ReadCommand, SizedCommand, Le64, U64, Le16, U16,
      KeyBytes;
    match b {
      case Hello(nonce, key) => HelloRoundTrip(nonce, key);
      case Welcome(slot, nonce) => StampsRoundTrip(nonce, 0, slot);
      case Reliable(c) => ReadBack(c);
      case Movement(x, y, o) => MovementRoundTrip(x, y, o);
      case Snapshot(v) => SnapshotRoundTrip(v);
      case Ping(stamp) => StampsRoundTrip(stamp, 0, 0);
      case Pong(stamp) => StampsRoundTrip(stamp, 0, 0);
      case TimedPong(stamp, time) => StampsRoundTrip(stamp, time, 0);
      case JoinReject(nonce, reason) => StampsRoundTrip(nonce, 0, ReasonCode(reason));
      case RoomClosed =>
    }
  }

  // Packets.

  predicate SizedPacket(p: Packet) {
    p.session < 0x1_0000_0000_0000_0000 && p.token < 0x1_0000_0000_0000_0000 && SizedBody(p.body)
  }

  function ToRaw(p: Packet): (r: RawPacket)
    requires SizedPacket(p)
    ensures Encodable(r)
  {
    RawPacket(Kind(p.body), |BodyBytes(p.body)|, p.session, p.token, Wrap(p.race), Wrap(p.number), Wrap(p.ack),
              Padded(BodyBytes(p.body)))
  }

  function FromRaw(r: RawPacket): Packet
    requires r.length <= MAX_PAYLOAD
  {
    Packet(r.session, r.token, r.race, r.number, r.ack, ReadBody(r.kind, r.payload[..r.length]))
  }

  /** What a receiver gets out of the datagram of a packet is that packet, with its counters cut to 32 bits. */
  lemma EndToEnd(p: Packet)
    requires SizedPacket(p)
    ensures var r := Parse(Datagram(ToRaw(p)));
      r.Some? && r.value.length <= MAX_PAYLOAD && FromRaw(r.value) == K.WrapPacket(p)
  {
    hide BodyBytes, ReadBody, Kind, Datagram, Parse, SizedBody;
    var raw := ToRaw(p);
    DecodeAfterEncode(raw);
    assert raw.payload[..raw.length] == BodyBytes(p.body);
    assert Canonical(raw).payload[..raw.length] == BodyBytes(p.body);
    BodyRoundTrip(p.body);
  }

  // What the room sends fits.

  predicate SizedRecord(p: Player) {
    p.x < 0x1_0000 && p.y < 0x1_0000 && p.orientation < 0x100
  }

  predicate SizedRoom(r: Room) {
    && (r.host < 4 || r.host == NO_HOST)
    && r.start < 0x1_0000_0000_0000_0000
    && forall i :: 0 <= i < 4 ==> SizedRecord(r.players[i])
  }

  /** Every snapshot of such a room fits its payload. */
  lemma SnapshotsFit(r: Room, now: nat)
    requires Invariant(r) && SizedRoom(r) && now < 0x1_0000_0000_0000_0000
    ensures SizedView(ViewOf(r, now))
  {
  }

  /** Clock readings that leave room for the lead. */
  predicate SizedTime(t: nat) {
    t + LEAD < 0x1_0000_0000_0000_0000
  }

  predicate SizedEvent(e: T.RoomEvent) {
    match e
    case Received(_, p, at, _) =>
      SizedTime(at.advanced) && (SizedBody(p.body) || p.body.Junk? || (p.body.Reliable? && p.body.command.Unknown?))
    case Ticked(now, _) => SizedTime(now)
    case _ => true
  }

  lemma DropFits(r: Room, i: nat)
    requires i < 4 && SizedRoom(r)
    ensures SizedRoom(Drop(r, i))
  {
    hide BeginLobby, Count;
    var left := Forget(PassHost(Vacate(r, i), i), i);
    assert SizedRoom(Vacate(r, i)) && SizedRoom(left);
    LobbyFits(left);
  }

  lemma LobbyFits(r: Room)
    requires SizedRoom(r)
    ensures SizedRoom(BeginLobby(r)) && SizedRoom(BeginLobby(r).(host := NO_HOST))
  {
  }

  lemma DropSilentFits(r: Room, from: nat, now: nat)
    requires from <= 4 && SizedRoom(r)
    ensures SizedRoom(DropSilent(r, from, now))
    decreases 4 - from
  {
    hide Drop, SizedRoom;
    if from < 4 {
      DropFits(r, from);
      DropSilentFits(if TimedOut(r.players[from], now) then Drop(r, from) else r, from + 1, now);
    }
  }

  lemma AdvanceFits(r: Room, now: nat)
    requires SizedRoom(r) && SizedTime(now)
    ensures SizedRoom(Advance(r, now))
  {
    hide DropSilent;
    DropSilentFits(r, 0, now);
  }

  lemma ExecuteFits(r: Room, i: nat, number: nat, c: Command, at: Times)
    requires i < 4 && SizedRoom(r) && (SizedCommand(c) || c.Unknown?) && SizedTime(at.advanced)
    ensures SizedRoom(Execute(r, i, number, c, at).room)
  {
    hide Advance, Drop;
    var r1 := Commanded(r, i, number, c, at);
    assert SizedRoom(r1);
    var r2 := Settled(r1, i, CommandValid(r, i, c), c);
    DropFits(r1, i);
    assert SizedRoom(r2);
    AdvanceFits(r2, at.advanced);
  }

  lemma ReceiveFits(r: Room, from: nat, p: Packet, at: Times, token: nat)
    requires SizedRoom(r) && SizedEvent(T.Received(from, p, at, token))
    ensures SizedRoom(Receive(r, from, p, at, token).room)
  {
    hide Execute, SizedView;
    if Executes(r, from, p) {
      ExecuteFits(r, Sender(r, from, p), p.number, p.body.command, at);
    }
  }

  lemma ApplyFits(r: Room, e: T.RoomEvent)
    requires SizedRoom(r) && SizedEvent(e)
    ensures SizedRoom(T.Apply(r, e).room)
  {
    hide Advance, Receive;
    match e {
      case Received(from, p, at, token) => ReceiveFits(r, from, p, at, token);
      case Ticked(now, _) => AdvanceFits(r, now);
      case _ =>
    }
  }

  lemma {:induction false} RunFits(r: Room, es: seq<T.RoomEvent>)
    requires SizedRoom(r) && forall k :: 0 <= k < |es| ==> SizedEvent(es[k])
    ensures SizedRoom(T.Run(r, es))
  {
    hide SizedRoom, SizedEvent, T.Apply;
    if es != [] {
      RunFits(r, es[..|es| - 1]);
      ApplyFits(T.Run(r, es[..|es| - 1]), es[|es| - 1]);
    }
  }

  /** In every run of a room on packets as they come off the wire, whatever snapshot it sends reaches the client's
      reader as the view of the room at that moment. */
  lemma SnapshotsArrive(session: u64, owner: nat, key: seq<nat>, players: nat, track: nat, league: nat,
                        es: seq<T.RoomEvent>, token: u64, ack: nat, now: u64)
    requires 2 <= players <= 4 && track < 5 && league < 3
    requires T.AllowedRun(Created(session, owner, key, players, track, league), es)
    requires forall k :: 0 <= k < |es| ==> SizedEvent(es[k])
    ensures var r := T.Run(Created(session, owner, key, players, track, league), es);
      var p := Packet(session, token, r.race, r.snapshotSeq, ack, Snapshot(ViewOf(r, now)));
      && SizedPacket(p)
      && var got := Parse(Datagram(ToRaw(p)));
         got.Some? && got.value.length <= MAX_PAYLOAD && FromRaw(got.value) == K.WrapPacket(p)
  {
    hide Invariant, SizedRoom, SizedEvent, SizedView, ViewOf, T.AllowedRun, T.Run, ToRaw, FromRaw, Parse, Datagram;
    var r0 := Created(session, owner, key, players, track, league);
    assert SizedRoom(r0) by { CreatedFits(session, owner, key, players, track, league); }
    CreatedInvariant(session, owner, key, players, track, league);
    T.RunSafety(r0, es);
    RunFits(r0, es);
    var r := T.Run(r0, es);
    SnapshotsFit(r, now);
    EndToEnd(Packet(session, token, r.race, r.snapshotSeq, ack, Snapshot(ViewOf(r, now))));
  }

  lemma CreatedFits(session: nat, owner: nat, key: seq<nat>, players: nat, track: nat, league: nat)
    ensures SizedRoom(Created(session, owner, key, players, track, league))
  {
  }
}
