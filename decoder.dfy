/** The instruction set and the pure decoder `Chip8::decode` of src/lib.rs,
    with an encoder as its partner. */
module Decoder {
  import opened Chip8Types

  /** Register indices and addresses are `usize` in the source. */
  type RegId = nat
  type Addr = nat

  /** One variant per instruction; the comment gives its encoding. */
  datatype OpCode =
    | Call(addr: Addr)                    // 0NNN
    | DispClear                           // 00E0
    | Ret                                 // 00EE
    | Jmp(addr: Addr)                     // 1NNN
    | CallAt(addr: Addr)                  // 2NNN
    | ImEq(x: RegId, imm: uint8)          // 3XNN
    | ImNeq(x: RegId, imm: uint8)         // 4XNN
    | RREq(x: RegId, y: RegId)            // 5XY0
    | IRMov(x: RegId, imm: uint8)         // 6XNN
    | IRAdd(x: RegId, imm: uint8)         // 7XNN
    | RRMov(x: RegId, y: RegId)           // 8XY0
    | RROr(x: RegId, y: RegId)            // 8XY1
    | RRAnd(x: RegId, y: RegId)           // 8XY2
    | RRXor(x: RegId, y: RegId)           // 8XY3
    | RRAdd(x: RegId, y: RegId)           // 8XY4
    | RRSub(x: RegId, y: RegId)           // 8XY5
    | RRShr(x: RegId, y: RegId)           // 8XY6
    | RRSub2(x: RegId, y: RegId)          // 8XY7
    | RRShl(x: RegId, y: RegId)           // 8XYE
    | RRNeq(x: RegId, y: RegId)           // 9XY0
    | Index(addr: Addr)                   // ANNN
    | JmpAdd(addr: Addr)                  // BNNN
    | Rand(x: RegId, imm: uint8)          // CXNN
    | Draw(x: RegId, y: RegId, n: uint8)  // DXYN
    | KeyEq(x: RegId)                     // EX9E
    | KeyNeq(x: RegId)                    // EXA1
    | DelayGet(x: RegId)                  // FX07
    | KeyWait(x: RegId)                   // FX0A
    | DelaySet(x: RegId)                  // FX15
    | SoundSet(x: RegId)                  // FX18
    | IncIndex(x: RegId)                  // FX1E
    | SpriteAddr(x: RegId)                // FX29
    | BCD(x: RegId)                       // FX33
    | RegDump(x: RegId)                   // FX55
    | RegLoad(x: RegId)                   // FX65
    | Invalid

  /** Every register index names one of the 16 registers, every address
      fits in 12 bits and a sprite height in 4 bits. */
  predicate WellFormed(op: OpCode)
  {
    match op
    case DispClear | Ret | Invalid => true
    case Call(a) => a < 0x1000
    case Jmp(a) => a < 0x1000
    case CallAt(a) => a < 0x1000
    case Index(a) => a < 0x1000
    case JmpAdd(a) => a < 0x1000
    case ImEq(x, _) => x < 16
    case ImNeq(x, _) => x < 16
    case IRMov(x, _) => x < 16
    case IRAdd(x, _) => x < 16
    case Rand(x, _) => x < 16
    case RREq(x, y) => x < 16 && y < 16
    case RRNeq(x, y) => x < 16 && y < 16
    case RRMov(x, y) => x < 16 && y < 16
    case RROr(x, y) => x < 16 && y < 16
    case RRAnd(x, y) => x < 16 && y < 16
    case RRXor(x, y) => x < 16 && y < 16
    case RRAdd(x, y) => x < 16 && y < 16
    case RRSub(x, y) => x < 16 && y < 16
    case RRShr(x, y) => x < 16 && y < 16
    case RRSub2(x, y) => x < 16 && y < 16
    case RRShl(x, y) => x < 16 && y < 16
    case Draw(x, y, n) => x < 16 && y < 16 && n < 16
    case KeyEq(x) => x < 16
    case KeyNeq(x) => x < 16
    case DelayGet(x) => x < 16
    case KeyWait(x) => x < 16
    case DelaySet(x) => x < 16
    case SoundSet(x) => x < 16
    case IncIndex(x) => x < 16
    case SpriteAddr(x) => x < 16
    case BCD(x) => x < 16
    case RegDump(x) => x < 16
    case RegLoad(x) => x < 16
  }

  // The fields of an instruction word.  A right shift by k bits is a
  // division by 2^k and a mask of k low bits is the remainder modulo 2^k.
  function ICode(w: uint16): (c: nat) ensures c < 0x10 { w / 0x1000 }         // opcode >> 12
  function IFun(w: uint16): (n: nat) ensures n < 0x10 { w % 0x10 }            // opcode & 0x0f
  function AddrField(w: uint16): (a: nat) ensures a < 0x1000 { w % 0x1000 }   // opcode & 0x0fff
  function VX(w: uint16): (x: nat) ensures x < 0x10 { (w / 0x100) % 0x10 }    // (opcode >> 8) & 0x0f
  function VY(w: uint16): (y: nat) ensures y < 0x10 { (w / 0x10) % 0x10 }     // (opcode >> 4) & 0x0f
  function VI(w: uint16): (b: uint8) { w % 0x100 }                            // opcode & 0xff

  /** `Chip8::decode`: total, and every field it produces is in range. */
  function Decode(w: uint16): (op: OpCode)
    ensures WellFormed(op)
  {
    var icode, ifun, addr := ICode(w), IFun(w), AddrField(w);
    var vx, vy, vi := VX(w), VY(w), VI(w);
    match icode
    case 0x0 =>
      (match vi
       case 0xEE => Ret
       case 0xE0 => DispClear
       case _ => Call(addr))
    case 0x1 => Jmp(addr)
    case 0x2 => CallAt(addr)
    case 0x3 => ImEq(vx, vi)
    case 0x4 => ImNeq(vx, vi)
    case 0x5 => RREq(vx, vy)   // the low nibble is not inspected
    case 0x6 => IRMov(vx, vi)
    case 0x7 => IRAdd(vx, vi)
    case 0x8 =>
      (match ifun
       case 0x0 => RRMov(vx, vy)
       case 0x1 => RROr(vx, vy)
       case 0x2 => RRAnd(vx, vy)
       case 0x3 => RRXor(vx, vy)
       case 0x4 => RRAdd(vx, vy)
       case 0x5 => RRSub(vx, vy)
       case 0x6 => RRShr(vx, vy)
       case 0x7 => RRSub2(vx, vy)
       case 0xE => RRShl(vx, vy)
       case _ => Invalid)
    case 0x9 => RRNeq(vx, vy)  // the low nibble is not inspected
    case 0xA => Index(addr)
    case 0xB => JmpAdd(addr)
    case 0xC => Rand(vx, vi)
    case 0xD => Draw(vx, vy, ifun)
    case 0xE =>
      (match vi
       case 0x9E => KeyEq(vx)
       case 0xA1 => KeyNeq(vx)
       case _ => Invalid)
    case 0xF =>
      (match vi
       case 0x07 => DelayGet(vx)
       case 0x0A => KeyWait(vx)
       case 0x15 => DelaySet(vx)
       case 0x18 => SoundSet(vx)
       case 0x1E => IncIndex(vx)
       case 0x29 => SpriteAddr(vx)
       case 0x33 => BCD(vx)
       case 0x55 => RegDump(vx)
       case 0x65 => RegLoad(vx)
       case _ => Invalid)
    case _ => Invalid
  }

  /** The word with nibbles `c`, `x`, `y`, `n` from the most significant down. */
  function Word(c: nat, x: nat, y: nat, n: nat): (w: uint16)
    requires c < 16 && x < 16 && y < 16 && n < 16
  {
    c * 0x1000 + x * 0x100 + y * 0x10 + n
  }

  /** Class `c`, register nibble `x` and a low byte `b`. */
  function WordXB(c: nat, x: nat, b: uint8): (w: uint16)
    requires c < 16 && x < 16
  {
    c * 0x1000 + x * 0x100 + b
  }

  /** Class `c` and a 12-bit address `a`. */
  function WordA(c: nat, a: nat): (w: uint16)
    requires c < 16 && a < 0x1000
  {
    c * 0x1000 + a
  }

  /** The canonical encoding of an instruction, the partner of `Decode`. */
  function Encode(op: OpCode): (w: uint16)
    requires WellFormed(op) && !op.Invalid?
  {
    match op
    case Call(a) => WordA(0x0, a)
    case DispClear => 0x00E0
    case Ret => 0x00EE
    case Jmp(a) => WordA(0x1, a)
    case CallAt(a) => WordA(0x2, a)
    case ImEq(x, v) => WordXB(0x3, x, v)
    case ImNeq(x, v) => WordXB(0x4, x, v)
    case RREq(x, y) => Word(0x5, x, y, 0)
    case IRMov(x, v) => WordXB(0x6, x, v)
    case IRAdd(x, v) => WordXB(0x7, x, v)
    case RRMov(x, y) => Word(0x8, x, y, 0x0)
    case RROr(x, y) => Word(0x8, x, y, 0x1)
    case RRAnd(x, y) => Word(0x8, x, y, 0x2)
    case RRXor(x, y) => Word(0x8, x, y, 0x3)
    case RRAdd(x, y) => Word(0x8, x, y, 0x4)
    case RRSub(x, y) => Word(0x8, x, y, 0x5)
    case RRShr(x, y) => Word(0x8, x, y, 0x6)
    case RRSub2(x, y) => Word(0x8, x, y, 0x7)
    case RRShl(x, y) => Word(0x8, x, y, 0xE)
    case RRNeq(x, y) => Word(0x9, x, y, 0)
    case Index(a) => WordA(0xA, a)
    case JmpAdd(a) => WordA(0xB, a)
    case Rand(x, v) => WordXB(0xC, x, v)
    case Draw(x, y, n) => Word(0xD, x, y, n)
    case KeyEq(x) => WordXB(0xE, x, 0x9E)
    case KeyNeq(x) => WordXB(0xE, x, 0xA1)
    case DelayGet(x) => WordXB(0xF, x, 0x07)
    case KeyWait(x) => WordXB(0xF, x, 0x0A)
    case DelaySet(x) => WordXB(0xF, x, 0x15)
    case SoundSet(x) => WordXB(0xF, x, 0x18)
    case IncIndex(x) => WordXB(0xF, x, 0x1E)
    case SpriteAddr(x) => WordXB(0xF, x, 0x29)
    case BCD(x) => WordXB(0xF, x, 0x33)
    case RegDump(x) => WordXB(0xF, x, 0x55)
    case RegLoad(x) => WordXB(0xF, x, 0x65)
  }

  /** `w` with the bits `Decode` does not look at cleared: the high nibble of
      the address of `00E0`/`00EE`, and the low nibble of classes 5 and 9. */
  function Canonical(w: uint16): (c: uint16)
  {
    if ICode(w) == 0x0 && (VI(w) == 0xE0 || VI(w) == 0xEE) then VI(w)
    else if ICode(w) == 0x5 || ICode(w) == 0x9 then w - IFun(w)
    else w
  }

  /** Every word is the sum of its four nibbles. */
  lemma WordOfFields(w: uint16)
    ensures ICode(w) < 16 && VX(w) < 16 && VY(w) < 16 && IFun(w) < 16
    ensures w == Word(ICode(w), VX(w), VY(w), IFun(w))
    ensures AddrField(w) == VX(w) * 0x100 + VI(w) && VI(w) == VY(w) * 0x10 + IFun(w)
  {
    var c, a := w / 0x1000, w % 0x1000;
    var x, b := a / 0x100, a % 0x100;
    var y, n := b / 0x10, b % 0x10;
    assert w == (c * 0x10 + x) * 0x100 + b;
    DivMod(c * 0x10 + x, b, 0x100);
    DivMod(c, x, 0x10);
    assert w == ((c * 0x10 + x) * 0x10 + y) * 0x10 + n;
    DivMod((c * 0x10 + x) * 0x10 + y, n, 0x10);
    DivMod(c * 0x10 + x, y, 0x10);
  }

  /** Division by a power of two splits off the low bits (small constant
      divisors only, which keeps the arithmetic linear). */
  lemma DivMod(q: nat, r: nat, d: nat)
    requires d == 0x10 || d == 0x100 || d == 0x1000
    requires r < d
    ensures (q * d + r) / d == q && (q * d + r) % d == r
  {
  }

  /** The fields of an assembled word are the nibbles it was assembled from. */
  lemma FieldsOfWord(c: nat, x: nat, y: nat, n: nat)
    requires c < 16 && x < 16 && y < 16 && n < 16
    ensures var w := Word(c, x, y, n);
      ICode(w) == c && VX(w) == x && VY(w) == y && IFun(w) == n &&
      VI(w) == y * 0x10 + n && AddrField(w) == x * 0x100 + y * 0x10 + n
  {
    var b := y * 0x10 + n;
    assert Word(c, x, y, n) == (c * 0x10 + x) * 0x100 + b == c * 0x1000 + (x * 0x100 + b);
    DivMod(c, x * 0x100 + b, 0x1000);
    DivMod(c * 0x10 + x, b, 0x100);
    DivMod(c, x, 0x10);
    DivMod(c * 0x100 + x * 0x10 + y, n, 0x10);
    DivMod(c * 0x10 + x, y, 0x10);
  }

  lemma FieldsOfWordXB(c: nat, x: nat, b: uint8)
    requires c < 16 && x < 16
    ensures var w := WordXB(c, x, b);
      ICode(w) == c && VX(w) == x && VI(w) == b && VY(w) == b / 0x10 && IFun(w) == b % 0x10
  {
    assert WordXB(c, x, b) == Word(c, x, b / 0x10, b % 0x10);
    FieldsOfWord(c, x, b / 0x10, b % 0x10);
  }

  lemma FieldsOfWordA(c: nat, a: nat)
    requires c < 16 && a < 0x1000
    ensures var w := WordA(c, a); ICode(w) == c && AddrField(w) == a && VI(w) == a % 0x100
  {
    var x, b := a / 0x100, a % 0x100;
    assert WordA(c, a) == Word(c, x, b / 0x10, b % 0x10);
    FieldsOfWord(c, x, b / 0x10, b % 0x10);
  }

  /** Decoding an encoded instruction gives it back.  The one exception is
      `Call(a)` whose low byte is E0 or EE: that word decodes as
      `DispClear` or `Ret`, since class 0 looks only at its low byte. */
  lemma DecodeEncode(op: OpCode)
    requires WellFormed(op) && !op.Invalid?
    requires op.Call? ==> op.addr % 0x100 != 0xE0 && op.addr % 0x100 != 0xEE
    ensures Decode(Encode(op)) == op
  {
    if op.Call? || op.DispClear? || op.Ret? || op.Jmp? || op.CallAt? || op.Index? || op.JmpAdd? {
      DecodeEncodeAddr(op);
    } else if op.ImEq? || op.ImNeq? || op.IRMov? || op.IRAdd? || op.Rand? {
      DecodeEncodeImm(op);
    } else if op.RREq? || op.RRNeq? || op.Draw? {
      DecodeEncodeRegs(op);
    } else if op.RRMov? || op.RROr? || op.RRAnd? || op.RRXor? || op.RRAdd? {
      DecodeEncodeAlu(op);
    } else if op.RRSub? || op.RRShr? || op.RRSub2? || op.RRShl? {
      DecodeEncodeAluSub(op);
    } else if op.KeyEq? || op.KeyNeq? || op.DelayGet? || op.KeyWait? {
      DecodeEncodeKeys(op);
    } else if op.DelaySet? || op.SoundSet? || op.IncIndex? || op.SpriteAddr? {
      DecodeEncodeTimers(op);
    } else {
      DecodeEncodeMemory(op);
    }
  }

  lemma DecodeEncodeAddr(op: OpCode)
    requires WellFormed(op)
    requires op.Call? || op.DispClear? || op.Ret? || op.Jmp? || op.CallAt? || op.Index? || op.JmpAdd?
    requires op.Call? ==> op.addr % 0x100 != 0xE0 && op.addr % 0x100 != 0xEE
    ensures Decode(Encode(op)) == op
  {
    match op
    case Call(a) => FieldsOfWordA(0x0, a);
    case DispClear =>
    case Ret =>
    case Jmp(a) => FieldsOfWordA(0x1, a);
    case CallAt(a) => FieldsOfWordA(0x2, a);
    case Index(a) => FieldsOfWordA(0xA, a);
    case JmpAdd(a) => FieldsOfWordA(0xB, a);
  }

  lemma DecodeEncodeImm(op: OpCode)
    requires WellFormed(op)
    requires op.ImEq? || op.ImNeq? || op.IRMov? || op.IRAdd? || op.Rand?
    ensures Decode(Encode(op)) == op
  {
    match op
    case ImEq(x, v) => FieldsOfWordXB(0x3, x, v);
    case ImNeq(x, v) => FieldsOfWordXB(0x4, x, v);
    case IRMov(x, v) => FieldsOfWordXB(0x6, x, v);
    case IRAdd(x, v) => FieldsOfWordXB(0x7, x, v);
    case Rand(x, v) => FieldsOfWordXB(0xC, x, v);
  }

  lemma DecodeEncodeRegs(op: OpCode)
    requires WellFormed(op)
    requires op.RREq? || op.RRNeq? || op.Draw?
    ensures Decode(Encode(op)) == op
  {
    match op
    case RREq(x, y) => FieldsOfWord(0x5, x, y, 0);
    case RRNeq(x, y) => FieldsOfWord(0x9, x, y, 0);
    case Draw(x, y, n) => FieldsOfWord(0xD, x, y, n);
  }

  lemma DecodeEncodeAlu(op: OpCode)
    requires WellFormed(op)
    requires op.RRMov? || op.RROr? || op.RRAnd? || op.RRXor? || op.RRAdd?
    ensures Decode(Encode(op)) == op
  {
    match op
    case RRMov(x, y) => FieldsOfWord(0x8, x, y, 0x0);
    case RROr(x, y) => FieldsOfWord(0x8, x, y, 0x1);
    case RRAnd(x, y) => FieldsOfWord(0x8, x, y, 0x2);
    case RRXor(x, y) => FieldsOfWord(0x8, x, y, 0x3);
    case RRAdd(x, y) => FieldsOfWord(0x8, x, y, 0x4);
  }

  lemma DecodeEncodeAluSub(op: OpCode)
    requires WellFormed(op)
    requires op.RRSub? || op.RRShr? || op.RRSub2? || op.RRShl?
    ensures Decode(Encode(op)) == op
  {
    match op
    case RRSub(x, y) => FieldsOfWord(0x8, x, y, 0x5);
    case RRShr(x, y) => FieldsOfWord(0x8, x, y, 0x6);
    case RRSub2(x, y) => FieldsOfWord(0x8, x, y, 0x7);
    case RRShl(x, y) => FieldsOfWord(0x8, x, y, 0xE);
  }

  lemma DecodeEncodeKeys(op: OpCode)
    requires WellFormed(op)
    requires op.KeyEq? || op.KeyNeq? || op.DelayGet? || op.KeyWait?
    ensures Decode(Encode(op)) == op
  {
    match op
    case KeyEq(x) => FieldsOfWordXB(0xE, x, 0x9E);
    case KeyNeq(x) => FieldsOfWordXB(0xE, x, 0xA1);
    case DelayGet(x) => FieldsOfWordXB(0xF, x, 0x07);
    case KeyWait(x) => FieldsOfWordXB(0xF, x, 0x0A);
  }

  lemma DecodeEncodeTimers(op: OpCode)
    requires WellFormed(op)
    requires op.DelaySet? || op.SoundSet? || op.IncIndex? || op.SpriteAddr?
    ensures Decode(Encode(op)) == op
  {
    match op
    case DelaySet(x) => FieldsOfWordXB(0xF, x, 0x15);
    case SoundSet(x) => FieldsOfWordXB(0xF, x, 0x18);
    case IncIndex(x) => FieldsOfWordXB(0xF, x, 0x1E);
    case SpriteAddr(x) => FieldsOfWordXB(0xF, x, 0x29);
  }

  lemma DecodeEncodeMemory(op: OpCode)
    requires WellFormed(op)
    requires op.BCD? || op.RegDump? || op.RegLoad?
    ensures Decode(Encode(op)) == op
  {
    match op
    case BCD(x) => FieldsOfWordXB(0xF, x, 0x33);
    case RegDump(x) => FieldsOfWordXB(0xF, x, 0x55);
    case RegLoad(x) => FieldsOfWordXB(0xF, x, 0x65);
  }

  /** Re-encoding a decoded word gives the word back with exactly the bits
      the decoder ignores cleared. */
  lemma EncodeDecode(w: uint16)
    requires !Decode(w).Invalid?
    ensures Encode(Decode(w)) == Canonical(w)
  {
    WordOfFields(w);
    var c := ICode(w);
    if c in {0x0, 0x1, 0x2, 0xA, 0xB} {
      EncodeDecodeAddr(w);
    } else if c in {0x3, 0x4, 0x6, 0x7, 0xC} {
      EncodeDecodeImm(w);
    } else if c in {0x5, 0x8, 0x9, 0xD} {
      EncodeDecodeRegs(w);
    } else {
      EncodeDecodeSub(w);
    }
  }

  lemma EncodeDecodeAddr(w: uint16)
    requires ICode(w) in {0x0, 0x1, 0x2, 0xA, 0xB}
    ensures Encode(Decode(w)) == Canonical(w)
  {
    WordOfFields(w);
    var c, a := ICode(w), AddrField(w);
    assert w == WordA(c, a);
  }

  lemma EncodeDecodeImm(w: uint16)
    requires ICode(w) in {0x3, 0x4, 0x6, 0x7, 0xC}
    ensures Encode(Decode(w)) == Canonical(w)
  {
    WordOfFields(w);
    assert w == WordXB(ICode(w), VX(w), VI(w));
  }

  lemma EncodeDecodeRegs(w: uint16)
    requires ICode(w) in {0x5, 0x8, 0x9, 0xD} && !Decode(w).Invalid?
    ensures Encode(Decode(w)) == Canonical(w)
  {
    WordOfFields(w);
    var c, x, y := ICode(w), VX(w), VY(w);
    if c == 0x5 || c == 0x9 {
      assert Encode(Decode(w)) == Word(c, x, y, 0);
    }
  }

  lemma EncodeDecodeSub(w: uint16)
    requires ICode(w) in {0xE, 0xF} && !Decode(w).Invalid?
    ensures Encode(Decode(w)) == Canonical(w)
  {
    WordOfFields(w);
    assert w == WordXB(ICode(w), VX(w), VI(w));
  }

  /** The bits `Canonical` clears are really ignored: clearing them does not
      change the decoded instruction. */
  lemma DecodeCanonical(w: uint16)
    ensures Decode(Canonical(w)) == Decode(w)
  {
    WordOfFields(w);
    if ICode(w) == 0x5 || ICode(w) == 0x9 {
      assert Canonical(w) == Word(ICode(w), VX(w), VY(w), 0);
      FieldsOfWord(ICode(w), VX(w), VY(w), 0);
    }
  }

  /** Two words decode to the same valid instruction exactly when they agree
      on every bit the decoder inspects. */
  lemma DecodeSameIff(w1: uint16, w2: uint16)
    requires !Decode(w1).Invalid?
    ensures Decode(w1) == Decode(w2) <==> Canonical(w1) == Canonical(w2)
  {
    if Decode(w1) == Decode(w2) {
      EncodeDecode(w1);
      EncodeDecode(w2);
    }
    if Canonical(w1) == Canonical(w2) {
      DecodeCanonical(w1);
      DecodeCanonical(w2);
    }
  }

  /** An unmatched sub-selector is the only way to get `Invalid`. */
  lemma DecodeInvalidIff(w: uint16)
    ensures Decode(w).Invalid? <==>
      (ICode(w) == 0x8 && IFun(w) !in {0x0, 0x1, 0x2, 0x3, 0x4, 0x5, 0x6, 0x7, 0xE}) ||
      (ICode(w) == 0xE && VI(w) !in {0x9E, 0xA1}) ||
      (ICode(w) == 0xF && VI(w) !in {0x07, 0x0A, 0x15, 0x18, 0x1E, 0x29, 0x33, 0x55, 0x65})
  {
    WordOfFields(w);
  }

  /** Class 0 looks only at the low byte: `NEE` is `Ret` and `NE0` is
      `DispClear` for every `N`; everything else is `Call` of the whole
      word. */
  lemma DecodeClassZero(w: uint16)
    requires ICode(w) == 0x0
    ensures Decode(w) == if VI(w) == 0xEE then Ret
                         else if VI(w) == 0xE0 then DispClear
                         else Call(w)
  {
    WordOfFields(w);
  }
}
