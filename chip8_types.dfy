/** Machine-level types, the constants at the top of src/lib.rs, and the
    bit-level helpers (shift, mask, and/or/xor) that the interpreter uses. */
module Chip8Types {

  /** Rust `u8` and `u16`: unbounded integers restricted to their range. */
  type uint8 = x: int | 0 <= x < 0x100
  type uint16 = x: int | 0 <= x < 0x1_0000

  const MEM_SIZE: nat := 4096
  const PROG_OFFSET: nat := 512
  const DISP_OFFSET: nat := MEM_SIZE - 256
  const INT_OFFSET: nat := DISP_OFFSET - 96
  const GFX_SIZE: nat := 64 * 32
  /** Index of VF, the carry/borrow register. */
  const FLAG_REG: nat := 15

  /** The built-in hexadecimal glyphs, five rows per digit. */
  const FONTSET: seq<uint8> := [
    0xF0, 0x90, 0x90, 0x90, 0xF0, // 0
    0x20, 0x60, 0x20, 0x20, 0x70, // 1
    0xF0, 0x10, 0xF0, 0x80, 0xF0, // 2
    0xF0, 0x10, 0xF0, 0x10, 0xF0, // 3
    0x90, 0x90, 0xF0, 0x10, 0x10, // 4
    0xF0, 0x80, 0xF0, 0x10, 0xF0, // 5
    0xF0, 0x80, 0xF0, 0x90, 0xF0, // 6
    0xF0, 0x10, 0x20, 0x40, 0x40, // 7
    0xF0, 0x90, 0xF0, 0x90, 0xF0, // 8
    0xF0, 0x90, 0xF0, 0x10, 0xF0, // 9
    0xF0, 0x90, 0xF0, 0x90, 0x90, // A
    0xE0, 0x90, 0xE0, 0x90, 0xE0, // B
    0xF0, 0x80, 0x80, 0x80, 0xF0, // C
    0xE0, 0x90, 0x90, 0x90, 0xE0, // D
    0xF0, 0x80, 0xF0, 0x80, 0xF0, // E
    0xF0, 0x80, 0xF0, 0x80, 0x80  // F
  ]

  function Pow2(k: nat): (r: nat)
    ensures r >= 1
  {
    if k == 0 then 1 else 2 * Pow2(k - 1)
  }

  /** Bit `k` of `x`, i.e. `(x >> k) & 1`: each step of the shift halves
      `x`, and masking with 1 keeps the remainder modulo 2. */
  function Bit(x: nat, k: nat): (r: nat)
    ensures r < 2
  {
    if k == 0 then x % 2 else Bit(x / 2, k - 1)
  }

  datatype BitOp = And | Or | Xor

  /** The one-bit truth tables of `&`, `|` and `^`. */
  function Combine(op: BitOp, a: nat, b: nat): (r: nat)
    requires a < 2 && b < 2
    ensures r < 2
    ensures r == 1 <==> match op
                        case And => a == 1 && b == 1
                        case Or => a == 1 || b == 1
                        case Xor => a != b
  {
    match op
    case And => a * b
    case Or => if a + b > 0 then 1 else 0
    case Xor => (a + b) % 2
  }

  /** The bitwise operator `op` on the low `n` bits of `a` and `b`, computed
      one bit at a time from the least significant end. */
  function Bitwise(op: BitOp, a: nat, b: nat, n: nat): (r: nat)
    ensures r < Pow2(n)
  {
    if n == 0 then 0
    else Combine(op, a % 2, b % 2) + 2 * Bitwise(op, a / 2, b / 2, n - 1)
  }

  /** Byte-wide `&`, `|` and `^` as Rust evaluates them on `u8`. */
  function ByteOp(op: BitOp, a: uint8, b: uint8): (r: uint8)
  {
    assert Pow2(8) == 256;
    Bitwise(op, a, b, 8)
  }

  /** Bitwise operators act bit by bit: bit `k` of the result is the truth
      table of `op` applied to bit `k` of each operand. */
  lemma {:induction false} BitwiseBit(op: BitOp, a: nat, b: nat, n: nat, k: nat)
    requires k < n
    ensures Bit(Bitwise(op, a, b, n), k) == Combine(op, Bit(a, k), Bit(b, k))
  {
    var c := Combine(op, a % 2, b % 2);
    var rest := Bitwise(op, a / 2, b / 2, n - 1);
    var r := Bitwise(op, a, b, n);
    assert r == c + 2 * rest;
    assert r % 2 == c && r / 2 == rest by { HalfOf(r, c, rest); }
    if k > 0 {
      BitwiseBit(op, a / 2, b / 2, n - 1, k - 1);
    }
  }

  lemma HalfOf(r: nat, c: nat, rest: nat)
    requires c < 2 && r == c + 2 * rest
    ensures r % 2 == c && r / 2 == rest
  {
  }

  /** The byte-wide operators act bit by bit on the eight bits of a byte. */
  lemma ByteOpBit(op: BitOp, a: uint8, b: uint8, k: nat)
    requires k < 8
    ensures Bit(ByteOp(op, a, b), k) == Combine(op, Bit(a, k), Bit(b, k))
  {
    BitwiseBit(op, a, b, 8, k);
  }
}
