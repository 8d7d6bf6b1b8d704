/**
  The client's ROM patches. Every byte it overwrites is saved the first time and restored on a race change,
  a failure or a detach; the title tiles are kept apart and survive race changes.
  */
module RomPatching {
  import opened Words

  const ROM_SIZE: nat := 0x80000

  /** Title tiles $120-$124 and $130-$134. */
  predicate InTitle(a: nat) {
    0x67800 <= a < 0x678a0 || 0x67a00 <= a < 0x67aa0
  }

  /** The address of the k-th title byte: upper and lower tiles alternate, five of each. */
  function TitleAddress(k: nat): (a: nat)
    requires k < 320
    ensures InTitle(a) && a < ROM_SIZE
  {
    (if (k / 32) % 2 == 0 then 0x67800 else 0x67a00) + (k / 64) * 32 + k % 32
  }

  /** The title is drawn in five columns of two tiles of 32 bytes, upper and lower. */
  lemma TitleLayout(column: nat, lower: bool, b: nat)
    requires column < 5 && b < 32
    ensures TitleAddress(64 * column + (if lower then 32 else 0) + b) ==
      (if lower then 0x67a00 else 0x67800) + 32 * column + b
  {
  }

  lemma TitleAddressesDistinct(j: nat, k: nat)
    requires j < k < 320
    ensures TitleAddress(j) != TitleAddress(k)
  {
  }

  // The patches a game frame may apply.

  datatype GamePatch = GamePatch(address: nat, values: seq<byte>)

  predicate Safe(p: GamePatch) {
    p.address + |p.values| <= 0x67800
  }

  function Nops(addresses: seq<nat>): (ps: seq<GamePatch>)
    ensures |ps| == |addresses|
    ensures forall k :: 0 <= k < |ps| ==> ps[k] == GamePatch(addresses[k], [0xea, 0xea, 0xea])
  {
    seq(|addresses|, k requires 0 <= k < |addresses| => GamePatch(addresses[k], [0xea, 0xea, 0xea]))
  }

  const SELECTOR: seq<byte> := [3, 0, 1, 2]
  const SILENCED: seq<nat> := [0x5dfc, 0x5dda, 0xdb6, 0x3db2, 0x3dd5, 0x3def, 0x3dfe, 0x3dae, 0x3dcb, 0x3de5]

  const MENU_PATCHES: seq<GamePatch> := [GamePatch(0x18176, [0xea]), GamePatch(0x18143, [0x80])]
  const WAIT_PATCHES: seq<GamePatch> := [GamePatch(0x1851f, [0x5c, 0x1f, 0x85, 0x03])]
  const CONFIRM_PATCHES: seq<GamePatch> := [GamePatch(0x18795, [0x80]), GamePatch(0x187fe, [0x80])]
  const HOLD_PATCHES: seq<GamePatch> := [GamePatch(0xab1, [0xea, 0xea, 0xea, 0xea, 0xea, 0xea])]
  const RELEASE_PATCHES: seq<GamePatch> := [GamePatch(0xab1, [0xe6, 0x55, 0xe6, 0x55, 0x64, 0x56])]

  function PreparePatches(id: nat): seq<GamePatch>
    requires id < 4
  {
    [GamePatch(0x5486, [0x4c, 0xa7, 0xd4]), GamePatch(0x532b, [0xea, 0xea, 0xea]),
     GamePatch(0x52ef, [0xa9, SELECTOR[id]]), GamePatch(0x572b, [0xa9, SELECTOR[id]])]
    + Nops(SILENCED)
    + [GamePatch(0xd3f, [0]), GamePatch(0x48ff, [0x80]), GamePatch(0x4d84, [0x80]),
       GamePatch(0x1851f, [0xa5, 0x55, 0xf0, 0x74])]
  }

  /** Every patch list a frame applies. */
  predicate IsFramePatch(ps: seq<GamePatch>) {
    || ps == MENU_PATCHES || ps == WAIT_PATCHES || ps == CONFIRM_PATCHES
    || ps == HOLD_PATCHES || ps == RELEASE_PATCHES
    || (exists id: nat :: id < 4 && ps == PreparePatches(id))
  }

  /** No game patch touches a title tile or leaves the ROM. */
  lemma FramePatchesSafe(ps: seq<GamePatch>, k: nat)
    requires IsFramePatch(ps) && k < |ps|
    ensures Safe(ps[k])
  {
  }

  // The ROM and what has been saved of it.

  datatype Patched = Patched(rom: seq<byte>, originals: map<nat, byte>, title: map<nat, byte>, live: bool)

  /** First save wins. */
  function PatchByte(s: Patched, a: nat, v: byte): Patched
    requires a < |s.rom|
  {
    s.(rom := s.rom[a := v], originals := if a in s.originals then s.originals else s.originals[a := s.rom[a]])
  }

  function PatchBytes(s: Patched, a: nat, values: seq<byte>): (r: Patched)
    requires a + |values| <= |s.rom|
    ensures |r.rom| == |s.rom|
    decreases |values|
  {
    if values == [] then s else PatchBytes(PatchByte(s, a, values[0]), a + 1, values[1..])
  }

  function PatchList(s: Patched, ps: seq<GamePatch>): (r: Patched)
    requires |s.rom| == ROM_SIZE && forall k :: 0 <= k < |ps| ==> Safe(ps[k])
    ensures |r.rom| == |s.rom|
    decreases |ps|
  {
    if ps == [] then s
    else
      assert Safe(ps[0]);
      PatchList(PatchBytes(s, ps[0].address, ps[0].values), ps[1..])
  }

  /** The ROM with saved bytes written back. */
  function WrittenBack(rom: seq<byte>, saved: map<nat, byte>): (r: seq<byte>)
    ensures |r| == |rom|
    ensures forall a :: 0 <= a < |rom| ==> r[a] == if a in saved then saved[a] else rom[a]
  {
    seq(|rom|, a requires 0 <= a < |rom| => if a in saved then saved[a] else rom[a])
  }

  function Restored(s: Patched): Patched {
    s.(rom := WrittenBack(s.rom, s.originals), originals := map[])
  }

  function TitleRestored(s: Patched): Patched {
    s.(rom := WrittenBack(s.rom, s.title), title := map[])
  }

  function TitleBytes(s: Patched, art: seq<byte>, k: nat): (r: Patched)
    requires |s.rom| == ROM_SIZE && |art| == 320 && k <= 320
    ensures |r.rom| == |s.rom|
  {
    if k == 0 then s
    else
      var t := TitleBytes(s, art, k - 1);
      var a := TitleAddress(k - 1);
      t.(rom := t.rom[a := art[k - 1]], title := t.title[a := t.rom[a]])
  }

  function TitlePatched(s: Patched, art: seq<byte>): (r: Patched)
    requires |s.rom| == ROM_SIZE && |art| == 320
    ensures |r.rom| == |s.rom|
  {
    if s.title != map[] then s else TitleBytes(s, art, 320)
  }

  // Soundness of the saved bytes.

  /** The saved bytes are the attached ROM's, and everything not saved is untouched. */
  ghost predicate Sound(s: Patched, rom: seq<byte>) {
    && |s.rom| == |rom| == ROM_SIZE
    && (forall a :: a in s.originals ==> a < ROM_SIZE && !InTitle(a) && s.originals[a] == rom[a])
    && (forall a :: a in s.title ==> a < ROM_SIZE && InTitle(a) && s.title[a] == rom[a])
    && (forall a :: 0 <= a < ROM_SIZE && a !in s.originals && a !in s.title ==> s.rom[a] == rom[a])
    && (!s.live ==> s.originals == map[] && s.title == map[])
  }

  lemma PatchBytesSound(s: Patched, rom: seq<byte>, a: nat, values: seq<byte>)
    requires Sound(s, rom) && s.live && a + |values| <= 0x67800
    ensures Sound(PatchBytes(s, a, values), rom) && PatchBytes(s, a, values).live
    decreases |values|
  {
    if values != [] {
      assert !InTitle(a);
      PatchBytesSound(PatchByte(s, a, values[0]), rom, a + 1, values[1..]);
    }
  }

  lemma PatchListSound(s: Patched, rom: seq<byte>, ps: seq<GamePatch>)
    requires Sound(s, rom) && s.live && forall k :: 0 <= k < |ps| ==> Safe(ps[k])
    ensures Sound(PatchList(s, ps), rom) && PatchList(s, ps).live
    decreases |ps|
  {
    if ps != [] {
      PatchBytesSound(s, rom, ps[0].address, ps[0].values);
      PatchListSound(PatchBytes(s, ps[0].address, ps[0].values), rom, ps[1..]);
    }
  }

  lemma RestoredSound(s: Patched, rom: seq<byte>)
    requires Sound(s, rom)
    ensures Sound(Restored(s), rom)
    ensures forall a :: 0 <= a < ROM_SIZE && !InTitle(a) ==> Restored(s).rom[a] == rom[a]
  {
  }

  lemma AllRestored(s: Patched, rom: seq<byte>)
    requires Sound(s, rom)
    ensures TitleRestored(Restored(s)).rom == rom
    ensures TitleRestored(Restored(s)).originals == map[] && TitleRestored(Restored(s)).title == map[]
  {
  }

  lemma {:induction false} TitleBytesSound(s: Patched, rom: seq<byte>, art: seq<byte>, k: nat)
    requires Sound(s, rom) && s.live && s.title == map[] && |art| == 320 && k <= 320
    ensures var t := TitleBytes(s, art, k);
      && Sound(t, rom) && t.live
      && forall a :: a in t.title <==> exists j :: 0 <= j < k && a == TitleAddress(j)
  {
    if k > 0 {
      TitleBytesSound(s, rom, art, k - 1);
      var t := TitleBytes(s, art, k - 1);
      var a := TitleAddress(k - 1);
      forall j | 0 <= j < k - 1 ensures TitleAddress(j) != a {
        TitleAddressesDistinct(j, k - 1);
      }
      assert a !in t.title;
    }
  }

  // What is written.

  predicate CoversByte(p: GamePatch, a: nat) {
    p.address <= a < p.address + |p.values|
  }

  lemma {:induction false} PatchBytesWritten(s: Patched, at: nat, values: seq<byte>, a: nat)
    requires at + |values| <= |s.rom| && a < |s.rom|
    ensures PatchBytes(s, at, values).rom[a] == if at <= a < at + |values| then values[a - at] else s.rom[a]
    decreases |values|
  {
    if values != [] {
      PatchBytesWritten(PatchByte(s, at, values[0]), at + 1, values[1..], a);
    }
  }

  /** After a list of patches, an address that none covers is as before, and every other holds the value of the last
      patch that covers it, whether or not it had been patched and saved before. */
  lemma {:induction false} PatchListWritten(s: Patched, ps: seq<GamePatch>, a: nat)
    requires |s.rom| == ROM_SIZE && a < ROM_SIZE && forall k :: 0 <= k < |ps| ==> Safe(ps[k])
    ensures var r := PatchList(s, ps).rom;
      && ((forall k :: 0 <= k < |ps| ==> !CoversByte(ps[k], a)) ==> r[a] == s.rom[a])
      && forall k :: 0 <= k < |ps| && CoversByte(ps[k], a) && (forall j :: k < j < |ps| ==> !CoversByte(ps[j], a)) ==>
           r[a] == ps[k].values[a - ps[k].address]
    decreases |ps|
  {
    if ps != [] {
      assert Safe(ps[0]);
      var s1, rest := PatchBytes(s, ps[0].address, ps[0].values), ps[1..];
      PatchBytesWritten(s, ps[0].address, ps[0].values, a);
      PatchListWritten(s1, rest, a);
      forall k | 0 <= k < |ps| && CoversByte(ps[k], a) && forall j :: k < j < |ps| ==> !CoversByte(ps[j], a)
        ensures PatchList(s, ps).rom[a] == ps[k].values[a - ps[k].address]
      {
        if k == 0 {
          assert forall j :: 0 <= j < |rest| ==> rest[j] == ps[j + 1];
        } else {
          assert rest[k - 1] == ps[k] && forall j :: k - 1 < j < |rest| ==> rest[j] == ps[j + 1];
        }
      }
      if forall k :: 0 <= k < |ps| ==> !CoversByte(ps[k], a) {
        assert !CoversByte(ps[0], a) && forall j :: 0 <= j < |rest| ==> rest[j] == ps[j + 1];
      }
    }
  }

  lemma {:induction false} TitleBytesWritten(s: Patched, art: seq<byte>, k: nat, a: nat)
    requires |s.rom| == ROM_SIZE && |art| == 320 && k <= 320 && a < ROM_SIZE
    ensures var r := TitleBytes(s, art, k).rom;
      && (forall j :: 0 <= j < k && TitleAddress(j) == a ==> r[a] == art[j])
      && ((forall j :: 0 <= j < k ==> TitleAddress(j) != a) ==> r[a] == s.rom[a])
  {
    if k > 0 {
      TitleBytesWritten(s, art, k - 1, a);
      forall j | 0 <= j < k - 1 ensures TitleAddress(j) != TitleAddress(k - 1) {
        TitleAddressesDistinct(j, k - 1);
      }
      assert TitleAddress(k - 1) == a ==> TitleBytes(s, art, k).rom[a] == art[k - 1];
    }
  }

  // Runs.

  /** What can happen to the patches: a frame, a race change, a failure, a detach, or an attach of another ROM. */
  datatype Event =
    | FramePatches(patches: seq<GamePatch>)
    | RaceReset
    | Failure
    | Detach
    | Attach(rom: seq<byte>, art: seq<byte>)

  predicate Possible(e: Event) {
    match e
    case FramePatches(ps) => IsFramePatch(ps)
    case Attach(rom, art) => |rom| == ROM_SIZE && |art| == 320
    case _ => true
  }

  /** A ROM as it was attached, and as it was left behind when another one was attached. */
  datatype Left = Left(attached: seq<byte>, rom: seq<byte>)

  /** The patched state, the ROM that was attached, and the ROMs left behind. */
  datatype Machine = Machine(state: Patched, attached: seq<byte>, behind: seq<Left>)

  /** What a detach does to the ROM. */
  function Released(s: Patched): Patched {
    TitleRestored(Restored(s)).(live := false)
  }

  function Step(m: Machine, e: Event): (r: Machine)
    requires Possible(e) && |m.state.rom| == ROM_SIZE
    ensures |r.state.rom| == ROM_SIZE
  {
    match e
    case FramePatches(ps) =>
      if m.state.live then
        assert forall k :: 0 <= k < |ps| ==> Safe(ps[k]) by {
          forall k | 0 <= k < |ps| ensures Safe(ps[k]) { FramePatchesSafe(ps, k); }
        }
        m.(state := PatchList(m.state, ps))
      else m
    case RaceReset => m.(state := Restored(m.state))
    case Failure => m.(state := Released(m.state))
    case Detach => m.(state := Released(m.state))
    case Attach(rom, art) =>
      Machine(Restored(TitlePatched(Patched(rom, map[], map[], true), art)), rom,
              m.behind + [Left(m.attached, Released(m.state).rom)])
  }

  function Run(m: Machine, es: seq<Event>): (r: Machine)
    requires |m.state.rom| == ROM_SIZE && forall k :: 0 <= k < |es| ==> Possible(es[k])
    ensures |r.state.rom| == ROM_SIZE
  {
    if es == [] then m else Step(Run(m, es[..|es| - 1]), es[|es| - 1])
  }

  lemma StepSound(m: Machine, e: Event)
    requires Possible(e) && Sound(m.state, m.attached)
    ensures Sound(Step(m, e).state, Step(m, e).attached)
    ensures e.Failure? || e.Detach? ==> Step(m, e).state.rom == m.attached == Step(m, e).attached
    ensures e.Attach? ==> Step(m, e).behind == m.behind + [Left(m.attached, m.attached)]
    ensures !e.Attach? ==> Step(m, e).behind == m.behind
    ensures e.RaceReset? ==> forall a :: 0 <= a < ROM_SIZE && !InTitle(a) ==> Step(m, e).state.rom[a] == m.attached[a]
  {
    match e {
      case FramePatches(ps) =>
        forall k | 0 <= k < |ps| ensures Safe(ps[k]) {
          FramePatchesSafe(ps, k);
        }
        if m.state.live {
          PatchListSound(m.state, m.attached, ps);
        }
      case RaceReset => RestoredSound(m.state, m.attached);
      case Failure =>
        RestoredSound(m.state, m.attached);
        AllRestored(m.state, m.attached);
      case Detach =>
        RestoredSound(m.state, m.attached);
        AllRestored(m.state, m.attached);
      case Attach(rom, art) =>
        var s := Patched(rom, map[], map[], true);
        TitleBytesSound(s, rom, art, 320);
        RestoredSound(TitlePatched(s, art), rom);
        AllRestored(m.state, m.attached);
    }
  }

  /** After any run of frames, repeated and overlapping patches, race changes, failures, detaches and re-attaches:
      a failure or detach leaves exactly the attached ROM, a race change leaves it except for the title tiles, and
      every ROM that was replaced by another was left as it had been attached, whatever was patched at the time. */
  lemma {:induction false} RomRestoration(m: Machine, es: seq<Event>)
    requires Sound(m.state, m.attached) && m.behind == [] && forall k :: 0 <= k < |es| ==> Possible(es[k])
    ensures var r := Run(m, es);
      && Sound(r.state, r.attached)
      && (es != [] && (es[|es| - 1].Failure? || es[|es| - 1].Detach?) ==> r.state.rom == r.attached)
      && (es != [] && es[|es| - 1].RaceReset? ==>
            forall a :: 0 <= a < ROM_SIZE && !InTitle(a) ==> r.state.rom[a] == r.attached[a])
      && (forall k :: 0 <= k < |r.behind| ==> r.behind[k].rom == r.behind[k].attached)
  {
    if es != [] {
      RomRestoration(m, es[..|es| - 1]);
      StepSound(Run(m, es[..|es| - 1]), es[|es| - 1]);
    }
  }

  /** A frame of a live client patches the ROM: what its patches cover shows them, and nothing else changes. */
  lemma FrameShows(m: Machine, ps: seq<GamePatch>, a: nat)
    requires |m.state.rom| == ROM_SIZE && a < ROM_SIZE && m.state.live && IsFramePatch(ps)
    ensures var r := Step(m, FramePatches(ps)).state.rom;
      && ((forall k :: 0 <= k < |ps| ==> !CoversByte(ps[k], a)) ==> r[a] == m.state.rom[a])
      && forall k :: 0 <= k < |ps| && CoversByte(ps[k], a) && (forall j :: k < j < |ps| ==> !CoversByte(ps[j], a)) ==>
           r[a] == ps[k].values[a - ps[k].address]
  {
    hide PatchList, IsFramePatch;
    forall k | 0 <= k < |ps| ensures Safe(ps[k]) {
      FramePatchesSafe(ps, k);
    }
    PatchListWritten(m.state, ps, a);
  }

  /** Attaching shows the title art in the title tiles and leaves the rest of the ROM alone. */
  lemma AttachShows(m: Machine, rom: seq<byte>, art: seq<byte>, a: nat)
    requires |m.state.rom| == ROM_SIZE && |rom| == ROM_SIZE && |art| == 320 && a < ROM_SIZE
    ensures var r := Step(m, Attach(rom, art)).state.rom;
      && (forall j :: 0 <= j < 320 && TitleAddress(j) == a ==> r[a] == art[j])
      && (!InTitle(a) ==> r[a] == rom[a])
  {
    var s := Patched(rom, map[], map[], true);
    TitleBytesWritten(s, art, 320, a);
    TitleKeepsOriginals(s, art, 320);
  }

  lemma {:induction false} TitleKeepsOriginals(s: Patched, art: seq<byte>, k: nat)
    requires |s.rom| == ROM_SIZE && |art| == 320 && k <= 320
    ensures TitleBytes(s, art, k).originals == s.originals
  {
    if k > 0 {
      TitleKeepsOriginals(s, art, k - 1);
    }
  }

  /** The patching half of the client, working on the emulator's ROM in place. */
  class Patcher {
    const rom: array<byte>
    var originals: map<nat, byte>
    var title: map<nat, byte>
    var live: bool

    ghost function State(): Patched
      reads this, rom
    {
      Patched(rom[..], originals, title, live)
    }

    constructor (rom: array<byte>)
      ensures this.rom == rom && State() == Patched(rom[..], map[], map[], true)
    {
      this.rom, originals, title, live := rom, map[], map[], true;
    }

    method Patch(address: nat, values: seq<byte>)
      requires address + |values| <= rom.Length
      modifies this`originals, rom
      ensures State() == PatchBytes(old(State()), address, values)
    {
      ghost var s := State();
      for k := 0 to |values|
        invariant PatchBytes(State(), address + k, values[k..]) == PatchBytes(s, address, values)
      {
        ghost var before := State();
        if address + k !in originals {
          originals := originals[address + k := rom[address + k]];
        }
        rom[address + k] := values[k];
        assert State() == PatchByte(before, address + k, values[k]);
        assert values[k..][1..] == values[k + 1..];
      }
    }

    method PatchTitle(art: seq<byte>)
      requires rom.Length == ROM_SIZE && |art| == 320
      modifies this`title, rom
      ensures State() == TitlePatched(old(State()), art)
    {
      if title != map[] {
        return;
      }
      ghost var s := State();
      for k := 0 to 320
        invariant State() == TitleBytes(s, art, k)
      {
        var a := TitleAddress(k);
        ghost var t := State();
        title := title[a := rom[a]];
        rom[a] := art[k];
        assert State() == t.(rom := t.rom[a := art[k]], title := t.title[a := t.rom[a]]);
      }
    }

    /** Writes saved bytes back, in any order. */
    method WriteBack(saved: map<nat, byte>)
      requires forall a :: a in saved ==> a < rom.Length
      modifies rom
      ensures rom[..] == WrittenBack(old(rom[..]), saved)
    {
      var left := saved.Keys;
      while left != {}
        invariant left <= saved.Keys
        invariant forall a :: 0 <= a < rom.Length ==>
          rom[a] == if a in saved && a !in left then saved[a] else old(rom[a])
        decreases |left|
      {
        var a :| a in left;
        rom[a] := saved[a];
        left := left - {a};
      }
    }

    method Restore()
      requires forall a :: a in originals ==> a < rom.Length
      modifies this`originals, rom
      ensures State() == Restored(old(State()))
    {
      WriteBack(originals);
      originals := map[];
    }

    method RestoreTitle()
      requires forall a :: a in title ==> a < rom.Length
      modifies this`title, rom
      ensures State() == TitleRestored(old(State()))
    {
      WriteBack(title);
      title := map[];
    }

    /** What `failure` and `detach` do to the ROM. */
    method Release(ghost attached: seq<byte>)
      requires Sound(State(), attached)
      modifies this, rom
      ensures rom[..] == attached && Sound(State(), attached) && !live
    {
      ghost var s := State();
      Restore();
      RestoredSound(s, attached);
      AllRestored(s, attached);
      RestoreTitle();
      live := false;
    }
  }
}
