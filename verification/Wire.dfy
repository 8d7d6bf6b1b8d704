/**
  The datagram codec: little-endian integers and the 36-byte packet header.

  `Datagram` and `Parse` say what the bytes mean; the methods write and read byte arrays the way the
  protocol header does and are proved against them.
  */
module Wire {
  import opened Words
  import opened Options

  const HEADER: nat := 36
  const MAX_PACKET: nat := 256
  const MAX_PAYLOAD: nat := 220
  const VERSION: byte := 1
  const HELLO: byte := 1
  const ROOM_CLOSED: byte := 10
  const MAGIC: seq<byte> := [70, 90, 86, 83]

  type Payload = s: seq<byte> | |s| == MAX_PAYLOAD witness seq(MAX_PAYLOAD, i => 0)

  /** A decoded packet. As in the C structure, the payload buffer always has its full size
      and `length` says how much of it is in use. */
  datatype RawPacket = RawPacket(kind: byte, length: u16, session: u64, token: u64,
                                 race: u32, number: u32, ack: u32, payload: Payload)

  // Little-endian integers.

  function Le16(v: u16): (s: seq<byte>)
    ensures |s| == 2
  {
    [v % 0x100, v / 0x100]
  }

  function Le32(v: u32): (s: seq<byte>)
    ensures |s| == 4
  {
    Le16(v % 0x1_0000) + Le16(v / 0x1_0000)
  }

  function Le64(v: u64): (s: seq<byte>)
    ensures |s| == 8
  {
    Le32(v % 0x1_0000_0000) + Le32(v / 0x1_0000_0000)
  }

  function U16(p: seq<byte>): u16
    requires |p| == 2
  {
    p[0] as int + p[1] as int * 0x100
  }

  function U32(p: seq<byte>): u32
    requires |p| == 4
  {
    U16(p[..2]) + U16(p[2..]) * 0x1_0000
  }

  function U64(p: seq<byte>): u64
    requires |p| == 8
  {
    U32(p[..4]) + U32(p[4..]) * 0x1_0000_0000
  }

  lemma Le16RoundTrip(v: u16, p: seq<byte>)
    requires |p| == 2
    ensures U16(Le16(v)) == v
    ensures Le16(U16(p)) == p
  {
  }

  lemma Le32RoundTrip(v: u32, p: seq<byte>)
    requires |p| == 4
    ensures U32(Le32(v)) == v
    ensures Le32(U32(p)) == p
  {
    var low, high := v % 0x1_0000, v / 0x1_0000;
    Le16RoundTrip(low, p[..2]);
    Le16RoundTrip(high, p[2..]);
    assert Le32(v)[..2] == Le16(low) && Le32(v)[2..] == Le16(high);
    assert U32(p) % 0x1_0000 == U16(p[..2]) && U32(p) / 0x1_0000 == U16(p[2..]);
    assert p[..2] + p[2..] == p;
  }

  lemma Le64RoundTrip(v: u64, p: seq<byte>)
    requires |p| == 8
    ensures U64(Le64(v)) == v
    ensures Le64(U64(p)) == p
  {
    var low, high := v % 0x1_0000_0000, v / 0x1_0000_0000;
    Le32RoundTrip(low, p[..4]);
    Le32RoundTrip(high, p[4..]);
    assert Le64(v)[..4] == Le32(low) && Le64(v)[4..] == Le32(high);
    assert U64(p) % 0x1_0000_0000 == U32(p[..4]) && U64(p) / 0x1_0000_0000 == U32(p[4..]);
    assert p[..4] + p[4..] == p;
  }

  /** All fields are little-endian. */
  lemma LittleEndian(p: seq<byte>)
    ensures |p| == 2 ==> U16(p) == p[0] as int + 0x100 * p[1] as int
    ensures |p| == 4 ==>
      U32(p) == p[0] as int + 0x100 * p[1] as int + 0x1_0000 * p[2] as int + 0x100_0000 * p[3] as int
    ensures |p| == 8 ==> U64(p) == U32(p[..4]) as int + 0x1_0000_0000 * U32(p[4..]) as int
  {
  }

  // Packets.

  /** What the encoder accepts: a known packet type and a length that fits the payload buffer. */
  predicate Encodable(p: RawPacket) {
    p.length <= MAX_PAYLOAD && HELLO <= p.kind <= ROOM_CLOSED
  }

  function Header(p: RawPacket): (s: seq<byte>)
    ensures |s| == HEADER
  {
    MAGIC + [VERSION, p.kind] + Le16(p.length) + Le64(p.session)
    + Le32(p.race) + Le32(p.number) + Le32(p.ack) + Le64(p.token)
  }

  /** The bytes of a packet on the wire. */
  function Datagram(p: RawPacket): (s: seq<byte>)
    requires Encodable(p)
    ensures |s| == HEADER + p.length
  {
    Header(p) + p.payload[..p.length]
  }

  /** The checks a received datagram must pass. */
  predicate Acceptable(s: seq<byte>) {
    && HEADER <= |s| <= MAX_PACKET
    && s[..4] == MAGIC
    && s[4] == VERSION
    && HELLO <= s[5] <= ROOM_CLOSED
    && U16(s[6..8]) == |s| - HEADER
  }

  function Padded(s: seq<byte>): Payload
    requires |s| <= MAX_PAYLOAD
  {
    s + seq(MAX_PAYLOAD - |s|, i => 0)
  }

  function Fields(s: seq<byte>): RawPacket
    requires Acceptable(s)
  {
    RawPacket(s[5], U16(s[6..8]), U64(s[8..16]), U64(s[28..36]),
              U32(s[16..20]), U32(s[20..24]), U32(s[24..28]), Padded(s[36..]))
  }

  function Parse(s: seq<byte>): Option<RawPacket> {
    if Acceptable(s) then Some(Fields(s)) else None
  }

  /** The packet with its payload buffer zeroed beyond the used length. */
  function Canonical(p: RawPacket): RawPacket
    requires Encodable(p)
  {
    p.(payload := Padded(p.payload[..p.length]))
  }

  lemma HeaderSlices(p: RawPacket)
    ensures Header(p)[..4] == MAGIC && Header(p)[4] == VERSION && Header(p)[5] == p.kind
    ensures Header(p)[6..8] == Le16(p.length)
    ensures Header(p)[8..16] == Le64(p.session)
    ensures Header(p)[16..20] == Le32(p.race)
    ensures Header(p)[20..24] == Le32(p.number)
    ensures Header(p)[24..28] == Le32(p.ack)
    ensures Header(p)[28..36] == Le64(p.token)
  {
  }

  lemma DatagramSlices(p: RawPacket)
    requires Encodable(p)
    ensures Datagram(p)[..36] == Header(p)
    ensures Datagram(p)[36..] == p.payload[..p.length]
  {
  }

  /** Decoding an encoded packet returns it, with the unused payload zeroed. */
  lemma DecodeAfterEncode(p: RawPacket)
    requires Encodable(p)
    ensures Parse(Datagram(p)) == Some(Canonical(p))
  {
    var s := Datagram(p);
    HeaderSlices(p);
    DatagramSlices(p);
    assert s[..4] == s[..36][..4] && s[6..8] == s[..36][6..8] && s[8..16] == s[..36][8..16];
    assert s[16..20] == s[..36][16..20] && s[20..24] == s[..36][20..24];
    assert s[24..28] == s[..36][24..28] && s[28..36] == s[..36][28..36];
    Le16RoundTrip(p.length, [0, 0]);
    Le64RoundTrip(p.session, Le64(0));
    Le64RoundTrip(p.token, Le64(0));
    Le32RoundTrip(p.race, Le32(0));
    Le32RoundTrip(p.number, Le32(0));
    Le32RoundTrip(p.ack, Le32(0));
  }

  /** Encoding a decoded packet returns the identical bytes. */
  lemma EncodeAfterDecode(s: seq<byte>)
    requires Acceptable(s)
    ensures Encodable(Fields(s)) && Datagram(Fields(s)) == s
    ensures Canonical(Fields(s)) == Fields(s)
  {
    var p := Fields(s);
    Le16RoundTrip(0, s[6..8]);
    Le64RoundTrip(0, s[8..16]);
    Le64RoundTrip(0, s[28..36]);
    Le32RoundTrip(0, s[16..20]);
    Le32RoundTrip(0, s[20..24]);
    Le32RoundTrip(0, s[24..28]);
    assert p.payload[..p.length] == s[36..];
    assert s == s[..4] + [s[4], s[5]] + s[6..8] + s[8..16]
                + s[16..20] + s[20..24] + s[24..28] + s[28..36] + s[36..];
  }

  /** A datagram is accepted exactly when it is the encoding of some packet. */
  lemma AcceptedExactlyEncodings(s: seq<byte>)
    ensures Parse(s).Some? <==> exists p: RawPacket :: Encodable(p) && Datagram(p) == s
  {
    if Acceptable(s) {
      EncodeAfterDecode(s);
    }
    forall p: RawPacket | Encodable(p) && Datagram(p) == s
      ensures Acceptable(s)
    {
      DecodeAfterEncode(p);
    }
  }

  // The buffers.

  method Put16(out: array<byte>, at: nat, v: u16)
    requires at + 2 <= out.Length
    modifies out
    ensures out[..] == old(out[..at]) + Le16(v) + old(out[at + 2..])
    ensures forall k :: at + 2 <= k < out.Length ==> out[k] == old(out[k])
  {
    out[at], out[at + 1] := v % 0x100, v / 0x100;
  }

  method Put32(out: array<byte>, at: nat, v: u32)
    requires at + 4 <= out.Length
    modifies out
    ensures out[..] == old(out[..at]) + Le32(v) + old(out[at + 4..])
    ensures forall k :: at + 4 <= k < out.Length ==> out[k] == old(out[k])
  {
    Put16(out, at, v % 0x1_0000);
    Put16(out, at + 2, v / 0x1_0000);
  }

  method Put64(out: array<byte>, at: nat, v: u64)
    requires at + 8 <= out.Length
    modifies out
    ensures out[..] == old(out[..at]) + Le64(v) + old(out[at + 8..])
    ensures forall k :: at + 8 <= k < out.Length ==> out[k] == old(out[k])
  {
    Put32(out, at, v % 0x1_0000_0000);
    Put32(out, at + 4, v / 0x1_0000_0000);
  }

  /** `memcpy(out + at, s, |s|)`. */
  method Copy(out: array<byte>, at: nat, s: seq<byte>)
    requires at + |s| <= out.Length
    modifies out
    ensures out[..] == old(out[..at]) + s + old(out[at + |s|..])
    ensures forall k :: at + |s| <= k < out.Length ==> out[k] == old(out[k])
  {
    for k := 0 to |s|
      invariant out[..at] == old(out[..at])
      invariant out[at..at + k] == s[..k]
      invariant out[at + k..] == old(out[at + k..])
    {
      out[at + k] := s[k];
    }
  }

  /** Writes the packet into the first `capacity` bytes of `out` and returns its size, or refuses,
      returning zero and leaving the buffer alone. */
  method Encode(out: array<byte>, capacity: nat, p: RawPacket) returns (size: nat)
    requires capacity <= out.Length
    modifies out
    ensures size > 0 <==> Encodable(p) && HEADER + p.length <= capacity
    ensures size == 0 ==> out[..] == old(out[..])
    ensures size > 0 ==> size <= capacity && out[..size] == Datagram(p)
    ensures size > 0 ==> out[size..] == old(out[size..])
  {
    size := HEADER + p.length;
    if p.length > MAX_PAYLOAD || capacity < size || p.kind < HELLO || p.kind > ROOM_CLOSED {
      return 0;
    }
    WriteHeader(out, p);
    Copy(out, HEADER, p.payload[..p.length]);
    assert out[..HEADER] == Header(p);
  }

  method WriteHeader(out: array<byte>, p: RawPacket)
    requires HEADER <= out.Length
    modifies out
    ensures out[..HEADER] == Header(p)
    ensures forall k :: HEADER <= k < out.Length ==> out[k] == old(out[k])
  {
    Copy(out, 0, MAGIC);
    out[4], out[5] := VERSION, p.kind;
    assert out[..6] == MAGIC + [VERSION, p.kind];
    Put16(out, 6, p.length);
    assert out[..8] == MAGIC + [VERSION, p.kind] + Le16(p.length);
    Put64(out, 8, p.session);
    assert out[..16] == out[..8] + Le64(p.session);
    Put32(out, 16, p.race);
    assert out[..20] == out[..16] + Le32(p.race);
    Put32(out, 20, p.number);
    assert out[..24] == out[..20] + Le32(p.number);
    Put32(out, 24, p.ack);
    assert out[..28] == out[..24] + Le32(p.ack);
    Put64(out, 28, p.token);
    assert out[..36] == out[..28] + Le64(p.token);
  }

  /** Reads `size` bytes of `input`. Success means exactly that the bytes encode some packet,
      and the packet returned is the only canonical one they encode. */
  method Decode(input: array<byte>, size: nat) returns (r: Option<RawPacket>)
    requires size <= input.Length
    ensures r.Some? <==> exists p: RawPacket :: Encodable(p) && Datagram(p) == input[..size]
    ensures r.Some? ==> Encodable(r.value) && Datagram(r.value) == input[..size] && Canonical(r.value) == r.value
  {
    hide Datagram, Canonical, Encodable;
    var s := input[..size];
    AcceptedExactlyEncodings(s);
    if size < HEADER || size > MAX_PACKET || s[..4] != MAGIC || s[4] != VERSION
       || s[5] < HELLO || s[5] > ROOM_CLOSED || U16(s[6..8]) != size - HEADER {
      return None;
    }
    EncodeAfterDecode(s);
    var payload := PadPayload(s[36..]);
    r := Some(RawPacket(s[5], U16(s[6..8]), U64(s[8..16]), U64(s[28..36]),
                        U32(s[16..20]), U32(s[20..24]), U32(s[24..28]), payload));
  }

  /** Copies a payload into a cleared buffer. */
  method PadPayload(s: seq<byte>) returns (payload: Payload)
    requires |s| <= MAX_PAYLOAD
    ensures payload == Padded(s)
  {
    var cleared := seq(MAX_PAYLOAD, i => 0);
    payload := s + cleared[|s|..];
  }
}
