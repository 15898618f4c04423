/** Machine integer widths used by the kernel code, and the little modular
    arithmetic that the proofs about wrapping counters rest on. */
module Widths {

  const U32 := 0x1_0000_0000
  const U63 := 0x8000_0000_0000_0000
  const U64 := 0x1_0000_0000_0000_0000

  newtype byte = x: int | 0 <= x < 256

  type Bytes = seq<byte>

  type u32 = x: nat | x < U32

  type u64 = x: nat | x < U64

  type i32 = x: int | -0x8000_0000 <= x < 0x8000_0000

  type i64 = x: int | -U63 <= x < U63

  datatype Option<+T> = None | Some(value: T)

  /** The u64 an unbounded counter is stored as. */
  function Wrap(n: int): (r: nat)
    ensures r < U64
  {
    n % U64
  }

  /** `(s64)(a - b)` on two u64 operands. */
  function SignedDiff(a: int, b: int): (d: int)
    ensures -U63 <= d < U63
  {
    var d := (a - b) % U64;
    if d < U63 then d else d - U64
  }

  /** Counters fewer than 2^64 apart have equal images only when they are equal. */
  lemma WrapInjective(x: int, y: int)
    requires x <= y < x + U64
    ensures Wrap(x) == Wrap(y) <==> x == y
  {}

  /** Signed subtraction of wrapped counters is the true difference while the
      counters are fewer than 2^63 apart. */
  lemma SignedDiffIsExact(x: int, y: int)
    requires -U63 < x - y < U63
    ensures SignedDiff(Wrap(x), Wrap(y)) == x - y
  {}

  /** The successor of a u32 policy generation: zero is skipped on wrap. */
  function NextGeneration(g: nat): nat {
    if g + 1 == U32 then 1 else g + 1
  }

  /** The generation a new superblock shows after `bumps` policy changes. */
  function GenerationAfter(bumps: nat): (g: nat)
    ensures g < U32
  {
    if bumps == 0 then 0 else 1 + (bumps - 1) % (U32 - 1)
  }

  lemma GenerationAfterStep(bumps: nat)
    ensures GenerationAfter(bumps + 1) == NextGeneration(GenerationAfter(bumps))
  {}

  /** Fewer than 2^32 - 1 policy changes never bring a generation back. */
  lemma GenerationInjective(b: nat, c: nat)
    requires b <= c < b + (U32 - 1)
    ensures GenerationAfter(b) == GenerationAfter(c) <==> b == c
  {}
}
