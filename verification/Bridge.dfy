/** The debug bridge's reversible ROM patches, and the hexadecimal text they travel in. */
module Bridge {
  import opened Words

  const MAX_TRANSFER: nat := 0x1_0000

  // Hexadecimal text.

  function Digit(n: nat): char
    requires n < 16
  {
    if n < 10 then '0' + n as char else 'A' + (n - 10) as char
  }

  /** The value of a digit of either case, or -1. */
  function Nibble(c: char): (n: int)
    ensures -1 <= n < 16
  {
    if '0' <= c <= '9' then c as int - '0' as int
    else if 'a' <= c <= 'f' then c as int - 'a' as int + 10
    else if 'A' <= c <= 'F' then c as int - 'A' as int + 10
    else -1
  }

  function Hex(data: seq<byte>): (s: string)
    ensures |s| == 2 * |data|
    ensures forall k :: 0 <= k < |data| ==> s[2 * k] == Digit(data[k] / 16) && s[2 * k + 1] == Digit(data[k] % 16)
  {
    if data == [] then ""
    else
      var front := Hex(data[..|data| - 1]);
      front + [Digit(data[|data| - 1] / 16), Digit(data[|data| - 1] % 16)]
  }

  predicate IsHex(s: string) {
    s != "" && |s| % 2 == 0 && forall k :: 0 <= k < |s| ==> Nibble(s[k]) >= 0
  }

  function Bytes(s: string): (data: seq<byte>)
    requires IsHex(s)
    ensures |data| == |s| / 2
    ensures forall k :: 0 <= k < |data| ==> data[k] == Nibble(s[2 * k]) * 16 + Nibble(s[2 * k + 1])
  {
    seq(|s| / 2, k requires 0 <= k < |s| / 2 => Nibble(s[2 * k]) * 16 + Nibble(s[2 * k + 1]))
  }

  const UPPER := "0123456789ABCDEF"
  const LOWER := "0123456789abcdef"

  /** Digits are written in upper case and read in either; no other character is a digit. */
  lemma NibbleOfDigit(n: nat)
    requires n < 16
    ensures Digit(n) == UPPER[n] && Nibble(Digit(n)) == n && Nibble(LOWER[n]) == n
  {
  }

  lemma OnlyDigits(c: char)
    ensures Nibble(c) >= 0 ==> UPPER[Nibble(c)] == c || LOWER[Nibble(c)] == c
  {
  }

  /** Reading back encoded bytes returns them. */
  lemma HexRoundTrip(data: seq<byte>)
    requires data != []
    ensures IsHex(Hex(data)) && Bytes(Hex(data)) == data
  {
    var s := Hex(data);
    forall k | 0 <= k < |s| ensures Nibble(s[k]) >= 0 {
      var j := k / 2;
      assert k == 2 * j || k == 2 * j + 1;
      NibbleOfDigit(data[j] / 16);
      NibbleOfDigit(data[j] % 16);
    }
    forall k | 0 <= k < |data| ensures Bytes(s)[k] == data[k] {
      NibbleOfDigit(data[k] / 16);
      NibbleOfDigit(data[k] % 16);
    }
  }

  method EncodeHex(data: seq<byte>) returns (s: string)
    ensures s == Hex(data)
  {
    s := "";
    for k := 0 to |data|
      invariant s == Hex(data[..k])
    {
      assert data[..k + 1][..k] == data[..k];
      s := s + [Digit(data[k] / 16), Digit(data[k] % 16)];
    }
    assert data[..|data|] == data;
  }

  method DecodeHex(s: string) returns (ok: bool, data: seq<byte>)
    ensures ok == IsHex(s)
    ensures ok ==> data == Bytes(s)
  {
    data := [];
    if s == "" || |s| % 2 != 0 {
      return false, data;
    }
    for k := 0 to |s| / 2
      invariant |data| == k
      invariant forall j :: 0 <= j < 2 * k ==> Nibble(s[j]) >= 0
      invariant forall j :: 0 <= j < k ==> data[j] == Nibble(s[2 * j]) * 16 + Nibble(s[2 * j + 1])
    {
      var high, low := Nibble(s[2 * k]), Nibble(s[2 * k + 1]);
      if high < 0 || low < 0 {
        return false, data;
      }
      data := data + [high * 16 + low];
    }
    ok := true;
    assert IsHex(s);
    assert data == Bytes(s);
  }

  // Regions.

  predicate RegionValid(address: u64, size: u64, limit: u64) {
    size > 0 && size <= MAX_TRANSFER && address <= limit && size <= limit - address
  }

  /** The range check never wraps: it accepts exactly the regions that lie inside the memory. */
  lemma RegionsDoNotWrap(address: u64, size: u64, limit: u64)
    ensures RegionValid(address, size, limit) <==> 0 < size <= MAX_TRANSFER && address + size <= limit
  {
  }

  // The patch table.

  datatype Patch = Patch(offset: nat, original: seq<byte>, replacement: seq<byte>)

  datatype Table = Table(rom: seq<byte>, patches: map<nat, Patch>, nextId: nat)

  datatype Error = InvalidArgument | HashMismatch | InvalidAddress | Overlap | ExpectedMismatch | NotFound | Conflict

  datatype Answer = Done(id: nat) | Failed(error: Error)

  datatype Effect = Effect(table: Table, answer: Answer)

  function End(p: Patch): nat {
    p.offset + |p.replacement|
  }

  predicate Overlaps(offset: nat, size: nat, p: Patch) {
    offset < End(p) && p.offset < offset + size
  }

  predicate OverlapsAny(patches: map<nat, Patch>, offset: nat, size: nat) {
    exists id :: id in patches && Overlaps(offset, size, patches[id])
  }

  /** `rom` with `data` written at `offset`. */
  function Programmed(rom: seq<byte>, offset: nat, data: seq<byte>): (r: seq<byte>)
    requires offset + |data| <= |rom|
    ensures |r| == |rom|
    ensures forall a :: 0 <= a < |rom| ==> r[a] == if offset <= a < offset + |data| then data[a - offset] else rom[a]
  {
    rom[..offset] + data + rom[offset + |data|..]
  }

  function Apply(t: Table, offset: nat, expected: seq<byte>, replacement: seq<byte>, sameHash: bool): Effect {
    if |expected| != |replacement| || expected == [] || |expected| > MAX_TRANSFER || offset > |t.rom| then
      Effect(t, Failed(InvalidArgument))
    else if !sameHash then Effect(t, Failed(HashMismatch))
    else if |expected| > |t.rom| - offset then Effect(t, Failed(InvalidAddress))
    else if OverlapsAny(t.patches, offset, |expected|) then Effect(t, Failed(Overlap))
    else if t.rom[offset..offset + |expected|] != expected then Effect(t, Failed(ExpectedMismatch))
    else
      Effect(Table(Programmed(t.rom, offset, replacement),
                   t.patches[t.nextId := Patch(offset, expected, replacement)], t.nextId + 1), Done(t.nextId))
  }

  function Revert(t: Table, id: nat, sameHash: bool): Effect
    requires InRom(t)
  {
    if !sameHash then Effect(t, Failed(HashMismatch))
    else if id !in t.patches then Effect(t, Failed(NotFound))
    else
      var p := t.patches[id];
      if t.rom[p.offset..End(p)] != p.replacement then Effect(t, Failed(Conflict))
      else Effect(Table(Programmed(t.rom, p.offset, p.original), t.patches - {id}, t.nextId), Done(id))
  }

  /** Every active patch lies in the ROM and has saved as many bytes as it replaced. */
  predicate InRom(t: Table) {
    forall id :: id in t.patches ==>
      && End(t.patches[id]) <= |t.rom|
      && |t.patches[id].original| == |t.patches[id].replacement| > 0
  }

  predicate Disjoint(t: Table) {
    && (forall id :: id in t.patches ==> id < t.nextId)
    && forall i, j :: i in t.patches && j in t.patches && i != j ==>
         End(t.patches[i]) <= t.patches[j].offset || End(t.patches[j]) <= t.patches[i].offset
  }

  // With other writers.

  /** Whoever else writes to the ROM, active patches stay disjoint, and a refused request changes nothing. */
  lemma ApplyKeepsTable(t: Table, offset: nat, expected: seq<byte>, replacement: seq<byte>, sameHash: bool)
    requires InRom(t) && Disjoint(t)
    ensures var a := Apply(t, offset, expected, replacement, sameHash);
      InRom(a.table) && Disjoint(a.table) && (a.answer.Failed? ==> a.table == t)
  {
    hide Programmed, InRom, Disjoint;
    var a := Apply(t, offset, expected, replacement, sameHash);
    if a.answer.Done? {
      assert |a.table.rom| == |t.rom| by { ProgrammedAt(t.rom, offset, replacement, offset); }
      AddedPatch(t, Patch(offset, expected, replacement), a.table);
    }
  }

  /** A patch is accepted exactly when it replaces between 1 and 65536 bytes by as many, for the loaded ROM, inside it,
      clear of every active patch, and finds the bytes it expects; it is then in the ROM and, under a new number, in the
      table, and nothing else has changed. */
  lemma ApplyExactly(t: Table, offset: nat, expected: seq<byte>, replacement: seq<byte>, sameHash: bool)
    requires InRom(t) && Disjoint(t)
    ensures var a, n := Apply(t, offset, expected, replacement, sameHash), |expected|;
      && (a.answer.Done? <==>
            && n == |replacement| && 1 <= n <= 0x1_0000 && sameHash && offset + n <= |t.rom|
            && (forall id :: id in t.patches ==> End(t.patches[id]) <= offset || offset + n <= t.patches[id].offset)
            && t.rom[offset..offset + n] == expected)
      && (a.answer.Done? ==>
            && a.answer.id !in t.patches && |a.table.rom| == |t.rom|
            && a.table.patches == t.patches[a.answer.id := Patch(offset, expected, replacement)]
            && forall x :: 0 <= x < |t.rom| ==>
                 a.table.rom[x] == if offset <= x < offset + n then replacement[x - offset] else t.rom[x])
  {
    var n := |expected|;
    assert OverlapsAny(t.patches, offset, n) <==>
      exists id :: id in t.patches && !(End(t.patches[id]) <= offset || offset + n <= t.patches[id].offset) by {
      forall id | id in t.patches
        ensures Overlaps(offset, n, t.patches[id]) <==>
          !(End(t.patches[id]) <= offset || offset + n <= t.patches[id].offset)
      {
      }
    }
    assert t.nextId !in t.patches by { FreshId(t); }
  }

  /** The reason of a refusal, in the order of the tests. */
  lemma ApplyRefused(t: Table, offset: nat, expected: seq<byte>, replacement: seq<byte>, sameHash: bool)
    ensures var a, n := Apply(t, offset, expected, replacement, sameHash), |expected|;
      a.answer.Failed? ==>
        && a.table == t
        && a.answer.error ==
             if n != |replacement| || n == 0 || n > 0x1_0000 || offset > |t.rom| then InvalidArgument
             else if !sameHash then HashMismatch
             else if offset + n > |t.rom| then InvalidAddress
             else if exists id :: id in t.patches && Overlaps(offset, n, t.patches[id]) then Overlap
             else ExpectedMismatch
  {
    assert OverlapsAny(t.patches, offset, |expected|) <==>
      exists id :: id in t.patches && Overlaps(offset, |expected|, t.patches[id]);
  }

  lemma AddedPatch(t: Table, p: Patch, t': Table)
    requires InRom(t) && Disjoint(t) && |t'.rom| == |t.rom|
    requires t'.patches == t.patches[t.nextId := p] && t'.nextId == t.nextId + 1
    requires End(p) <= |t.rom| && |p.original| == |p.replacement| > 0
    requires !OverlapsAny(t.patches, p.offset, |p.replacement|)
    ensures InRom(t') && Disjoint(t')
  {
    forall i | i in t.patches ensures End(t.patches[i]) <= p.offset || End(p) <= t.patches[i].offset {
      assert !Overlaps(p.offset, |p.replacement|, t.patches[i]);
    }
  }

  /** Whoever else writes to the ROM, a revert writes nothing unless it finds exactly its own replacement, and then
      it restores exactly the saved bytes and touches nothing else. */
  lemma RevertOnlyOwnBytes(t: Table, id: nat, sameHash: bool)
    requires InRom(t) && Disjoint(t)
    ensures var r := Revert(t, id, sameHash);
      && InRom(r.table) && Disjoint(r.table) && (r.answer.Failed? ==> r.table == t)
      && (r.answer.Done? <==> sameHash && id in t.patches
                              && t.rom[t.patches[id].offset..End(t.patches[id])] == t.patches[id].replacement)
      && (r.answer.Done? ==>
            && r.table.patches == t.patches - {id}
            && r.table.rom == Programmed(t.rom, t.patches[id].offset, t.patches[id].original))
  {
  }

  // As the only writer.

  predicate Covers(p: Patch, a: nat) {
    p.offset <= a < End(p)
  }

  predicate Uncovered(patches: map<nat, Patch>, a: nat) {
    forall id :: id in patches ==> !Covers(patches[id], a)
  }

  /** The live ROM shows this patch's replacement, and the patch has saved the original bytes. */
  predicate Holds(p: Patch, live: seq<byte>, rom: seq<byte>) {
    End(p) <= |live| == |rom| && |p.original| == |p.replacement|
    && live[p.offset..End(p)] == p.replacement && rom[p.offset..End(p)] == p.original
  }

  /** The ROM is the original overlaid with the active replacements, and each patch has saved the original. */
  ghost predicate Overlaid(t: Table, rom: seq<byte>) {
    && InRom(t) && Disjoint(t) && |t.rom| == |rom|
    && (forall id :: id in t.patches ==> Holds(t.patches[id], t.rom, rom))
    && (forall a: nat :: a < |rom| && Uncovered(t.patches, a) ==> t.rom[a] == rom[a])
  }

  /** A patch that does not meet the programmed region still holds. */
  lemma HoldsElsewhere(p: Patch, live: seq<byte>, rom: seq<byte>, offset: nat, data: seq<byte>)
    requires Holds(p, live, rom) && offset + |data| <= |live|
    requires End(p) <= offset || offset + |data| <= p.offset
    ensures Holds(p, Programmed(live, offset, data), rom)
  {
  }

  lemma ApplyOverlaid(t: Table, rom: seq<byte>, offset: nat, expected: seq<byte>, replacement: seq<byte>,
    sameHash: bool)
    requires Overlaid(t, rom)
    ensures Overlaid(Apply(t, offset, expected, replacement, sameHash).table, rom)
  {
    hide Holds, Programmed, Disjoint, InRom;
    var e := Apply(t, offset, expected, replacement, sameHash);
    if e.answer.Done? {
      ApplyKeepsTable(t, offset, expected, replacement, sameHash);
      assert t.nextId !in t.patches by { FreshId(t); }
      FreeRegion(t, rom, offset, expected);
      forall i | i in t.patches ensures Holds(t.patches[i], e.table.rom, rom) {
        assert !Overlaps(offset, |expected|, t.patches[i]);
        HoldsElsewhere(t.patches[i], t.rom, rom, offset, replacement);
      }
      NewPatchHolds(t, rom, offset, expected, replacement);
      forall a: nat | a < |rom| && Uncovered(e.table.patches, a) ensures e.table.rom[a] == rom[a] {
        UncoveredBefore(t, t.nextId, Patch(offset, expected, replacement), a);
        ProgrammedAt(t.rom, offset, replacement, a);
      }
    }
  }

  lemma FreshId(t: Table)
    requires Disjoint(t)
    ensures t.nextId !in t.patches
  {
  }

  /** A region that meets no active patch still has its original bytes. */
  lemma FreeRegion(t: Table, rom: seq<byte>, offset: nat, expected: seq<byte>)
    requires Overlaid(t, rom) && offset + |expected| <= |rom| && !OverlapsAny(t.patches, offset, |expected|)
    requires t.rom[offset..offset + |expected|] == expected
    ensures rom[offset..offset + |expected|] == expected
  {
  }

  lemma NewPatchHolds(t: Table, rom: seq<byte>, offset: nat, expected: seq<byte>, replacement: seq<byte>)
    requires |t.rom| == |rom| && offset + |expected| <= |rom| && |expected| == |replacement|
    requires rom[offset..offset + |expected|] == expected
    ensures Holds(Patch(offset, expected, replacement), Programmed(t.rom, offset, replacement), rom)
  {
  }

  lemma UncoveredBefore(t: Table, id: nat, p: Patch, a: nat)
    requires id !in t.patches && Uncovered(t.patches[id := p], a)
    ensures Uncovered(t.patches, a) && !Covers(p, a)
  {
    var after := t.patches[id := p];
    assert id in after && after[id] == p;
    assert forall i :: i in t.patches ==> i in after && after[i] == t.patches[i];
  }

  lemma ProgrammedAt(rom: seq<byte>, offset: nat, data: seq<byte>, a: nat)
    requires offset + |data| <= |rom| && a < |rom|
    ensures |Programmed(rom, offset, data)| == |rom|
    ensures Programmed(rom, offset, data)[a] == if offset <= a < offset + |data| then data[a - offset] else rom[a]
  {
  }

  /** As the only writer, the bridge can always revert an active patch. */
  lemma RevertSucceeds(t: Table, rom: seq<byte>, id: nat)
    requires Overlaid(t, rom) && id in t.patches
    ensures Revert(t, id, true).answer == Done(id)
  {
  }

  lemma RevertOverlaid(t: Table, rom: seq<byte>, id: nat, sameHash: bool)
    requires Overlaid(t, rom)
    ensures Overlaid(Revert(t, id, sameHash).table, rom)
  {
    hide Holds, Programmed, Disjoint, InRom;
    var r := Revert(t, id, sameHash);
    RevertOnlyOwnBytes(t, id, sameHash);
    if r.answer.Done? {
      var p, t' := t.patches[id], r.table;
      assert Holds(p, t.rom, rom);
      assert |p.original| == |p.replacement| && End(p) <= |rom| && rom[p.offset..End(p)] == p.original
        by { HoldsFacts(p, t.rom, rom); }
      forall i | i in t'.patches ensures Holds(t'.patches[i], t'.rom, rom) {
        DisjointPair(t, i, id);
        HoldsElsewhere(t.patches[i], t.rom, rom, p.offset, p.original);
      }
      forall a: nat | a < |rom| && Uncovered(t'.patches, a) ensures t'.rom[a] == rom[a] {
        ProgrammedAt(t.rom, p.offset, p.original, a);
        if Covers(p, a) {
          assert rom[p.offset..End(p)][a - p.offset] == rom[a];
        } else {
          assert forall i :: i in t.patches && i != id ==> i in t'.patches && t'.patches[i] == t.patches[i];
          assert Uncovered(t.patches, a);
        }
      }
    }
  }

  lemma HoldsFacts(p: Patch, live: seq<byte>, rom: seq<byte>)
    requires Holds(p, live, rom)
    ensures |p.original| == |p.replacement| && End(p) <= |live| == |rom| && rom[p.offset..End(p)] == p.original
  {
  }

  lemma DisjointPair(t: Table, i: nat, j: nat)
    requires Disjoint(t) && i in t.patches && j in t.patches && i != j
    ensures End(t.patches[i]) <= t.patches[j].offset || End(t.patches[j]) <= t.patches[i].offset
  {
  }

  datatype Request =
    | ApplyRequest(offset: nat, expected: seq<byte>, replacement: seq<byte>, sameHash: bool)
    | RevertRequest(id: nat, sameHash: bool)

  function Handle(t: Table, q: Request): Table {
    match q
    case ApplyRequest(offset, expected, replacement, sameHash) =>
      Apply(t, offset, expected, replacement, sameHash).table
    case RevertRequest(id, sameHash) => if InRom(t) then Revert(t, id, sameHash).table else t
  }

  function Session(t: Table, qs: seq<Request>): Table {
    if qs == [] then t else Handle(Session(t, qs[..|qs| - 1]), qs[|qs| - 1])
  }

  /** After any requests, accepted or refused, the ROM is the original overlaid with disjoint active patches. */
  lemma {:induction false} SessionOverlaid(rom: seq<byte>, qs: seq<Request>)
    ensures Overlaid(Session(Table(rom, map[], 1), qs), rom)
  {
    if qs == [] {
    } else {
      SessionOverlaid(rom, qs[..|qs| - 1]);
      var t := Session(Table(rom, map[], 1), qs[..|qs| - 1]);
      match qs[|qs| - 1] {
        case ApplyRequest(offset, expected, replacement, sameHash) =>
          ApplyOverlaid(t, rom, offset, expected, replacement, sameHash);
        case RevertRequest(id, sameHash) => RevertOverlaid(t, rom, id, sameHash);
      }
    }
  }

  function RevertAll(t: Table, order: seq<nat>): Table
    decreases |order|
  {
    if order == [] then t else RevertAll(Handle(t, RevertRequest(order[0], true)), order[1..])
  }

  /** Reverting the active patches in any order whatever restores the original ROM exactly. */
  lemma {:induction false} AnyOrderRestores(t: Table, rom: seq<byte>, order: seq<nat>)
    requires Overlaid(t, rom)
    requires forall id :: id in t.patches <==> id in order
    requires forall i, j :: 0 <= i < j < |order| ==> order[i] != order[j]
    ensures RevertAll(t, order).rom == rom && RevertAll(t, order).patches == map[]
    decreases |order|
  {
    hide Holds, Disjoint, InRom, Programmed;
    if order == [] {
      assert t.patches == map[];
      assert forall a: nat :: a < |rom| ==> Uncovered(t.patches, a);
      assert t.rom == rom;
    } else {
      assert order[0] in order;
      RevertSucceeds(t, rom, order[0]);
      RevertOverlaid(t, rom, order[0], true);
      var t' := Handle(t, RevertRequest(order[0], true));
      assert t'.patches == t.patches - {order[0]};
      forall id ensures id in t'.patches <==> id in order[1..] {
        if id in order[1..] {
          assert id in order && id != order[0];
        }
        if id in t'.patches {
          var k :| 0 <= k < |order| && order[k] == id;
          assert k > 0 && order[1..][k - 1] == id;
        }
      }
      AnyOrderRestores(t', rom, order[1..]);
    }
  }

  // The bridge object.

  class Patches {
    const rom: array<byte>
    var patches: map<nat, Patch>
    var nextId: nat

    ghost function State(): Table
      reads this, rom
    {
      Table(rom[..], patches, nextId)
    }

    constructor (rom: array<byte>)
      ensures this.rom == rom && State() == Table(rom[..], map[], 1)
    {
      this.rom, patches, nextId := rom, map[], 1;
    }

    method Program(offset: nat, data: seq<byte>)
      requires offset + |data| <= rom.Length
      modifies rom
      ensures rom[..] == Programmed(old(rom[..]), offset, data)
    {
      for k := 0 to |data|
        invariant forall a :: 0 <= a < rom.Length ==>
          rom[a] == if offset <= a < offset + k then data[a - offset] else old(rom[a])
      {
        rom[offset + k] := data[k];
      }
    }

    method FindOverlap(offset: nat, size: nat) returns (found: bool)
      ensures found == OverlapsAny(patches, offset, size)
    {
      var left := patches.Keys;
      while left != {}
        invariant left <= patches.Keys
        invariant forall id :: id in patches && id !in left ==> !Overlaps(offset, size, patches[id])
        decreases |left|
      {
        var id :| id in left;
        var end, patchEnd := offset + size, patches[id].offset + |patches[id].replacement|;
        if offset < patchEnd && patches[id].offset < end {
          return true;
        }
        left := left - {id};
      }
      found := false;
    }

    method Matches(offset: nat, data: seq<byte>) returns (same: bool)
      requires offset + |data| <= rom.Length
      ensures same == (rom[offset..offset + |data|] == data)
    {
      for k := 0 to |data|
        invariant forall j :: 0 <= j < k ==> rom[offset + j] == data[j]
      {
        if rom[offset + k] != data[k] {
          assert rom[offset..offset + |data|][k] != data[k];
          return false;
        }
      }
      same := true;
    }

    method RomPatch(offset: nat, expected: seq<byte>, replacement: seq<byte>, sameHash: bool) returns (answer: Answer)
      modifies this, rom
      ensures State() == Apply(old(State()), offset, expected, replacement, sameHash).table
      ensures answer == Apply(old(State()), offset, expected, replacement, sameHash).answer
    {
      if |expected| != |replacement| || expected == [] || |expected| > MAX_TRANSFER || offset > rom.Length {
        return Failed(InvalidArgument);
      }
      if !sameHash {
        return Failed(HashMismatch);
      }
      if |expected| > rom.Length - offset {
        return Failed(InvalidAddress);
      }
      var overlap := FindOverlap(offset, |expected|);
      if overlap {
        return Failed(Overlap);
      }
      var same := Matches(offset, expected);
      if !same {
        return Failed(ExpectedMismatch);
      }
      answer := Done(nextId);
      Program(offset, replacement);
      patches := patches[nextId := Patch(offset, expected, replacement)];
      nextId := nextId + 1;
    }

    method RomPatchRevert(id: nat, sameHash: bool) returns (answer: Answer)
      requires InRom(State())
      modifies this`patches, rom
      ensures State() == Revert(old(State()), id, sameHash).table
      ensures answer == Revert(old(State()), id, sameHash).answer
    {
      if !sameHash {
        return Failed(HashMismatch);
      }
      if id !in patches {
        return Failed(NotFound);
      }
      var patch := patches[id];
      var same := Matches(patch.offset, patch.replacement);
      if !same {
        return Failed(Conflict);
      }
      Program(patch.offset, patch.original);
      patches := patches - {id};
      answer := Done(id);
    }
  }
}
