/**
  Machine words and 32-bit serial numbers.

  The protocol numbers commands, movements, snapshots and races with 32-bit counters that wrap around.
  The models in this project carry each counter unwrapped, as a `nat`, and compare counters only through
  `Same` and `Newer`, which look at nothing but the 32-bit images.
  */
module Words {
  type byte = b: nat | b < 0x100
  type u16 = n: nat | n < 0x1_0000
  type u32 = n: nat | n < 0x1_0000_0000
  type u64 = n: nat | n < 0x1_0000_0000_0000_0000

  const SPACE: nat := 0x1_0000_0000
  const HALF: nat := 0x8000_0000

  /** The 32-bit image of an unwrapped counter. */
  function Wrap(n: nat): u32 {
    n % SPACE
  }

  /** Unsigned 32-bit subtraction. */
  function Sub32(a: u32, b: u32): u32 {
    if a >= b then a - b else a - b + SPACE
  }

  /** `fz_newer` on two 32-bit values. */
  predicate Newer32(a: u32, b: u32) {
    a != b && Sub32(a, b) < HALF
  }

  predicate Newer(a: nat, b: nat) {
    Newer32(Wrap(a), Wrap(b))
  }

  predicate Same(a: nat, b: nat) {
    Wrap(a) == Wrap(b)
  }

  /** Two unwrapped counters lie less than half the number space apart. */
  predicate Near(a: nat, b: nat) {
    a < b + HALF && b < a + HALF
  }

  /** Unsigned 64-bit time difference. */
  function Elapsed(now: nat, since: nat): int {
    if now >= since then now - since else now - since + 0x1_0000_0000_0000_0000
  }

  lemma WrapStep(n: nat)
    ensures Wrap(n) == Wrap(Wrap(n))
    ensures Wrap(n + 1) == Wrap(Wrap(n) + 1)
    ensures Wrap(n + 1) == if Wrap(n) == SPACE - 1 then 0 else Wrap(n) + 1
  {
  }

  /** Inside a half-space window the wire comparison is the comparison of the unwrapped counters,
      whether or not the 32-bit counter wrapped between them. */
  lemma WindowedComparison(a: nat, b: nat)
    requires Near(a, b)
    ensures Newer(a, b) <==> a > b
    ensures Same(a, b) <==> a == b
  {
  }

  /** Outside any window: of two different serial numbers exactly one is the newer,
      except at distance exactly 2^31, where neither is. */
  lemma SerialTrichotomy(a: u32, b: u32)
    requires a != b
    ensures Sub32(a, b) == HALF <==> Sub32(b, a) == HALF
    ensures Sub32(a, b) == HALF ==> !Newer32(a, b) && !Newer32(b, a)
    ensures Sub32(a, b) != HALF ==> (Newer32(a, b) <==> !Newer32(b, a))
  {
  }
}
