/** The machine state of src/lib.rs as a value, and `Chip8::step` as a
    function on it.  The class `Interpreter.Chip8` is proved to follow these
    functions; the lemmas in `Properties` say what they mean. */
module Semantics {
  import opened Chip8Types
  import opened Decoder

  type Regs = s: seq<uint8> | |s| == 16 witness seq(16, _ => 0)
  type Memory = s: seq<uint8> | |s| == MEM_SIZE witness seq(MEM_SIZE, _ => 0)

  /** Everything `step` reads or writes: the `Cpu` registers, the memory,
      the key mask and the two timers. */
  datatype Machine = Machine(
    regs: Regs, i: nat, pc: nat, sp: nat,
    mem: Memory, keys: uint16, delayTimer: uint8, soundTimer: uint8)

  /** The conditions under which the Rust code panics (debug build). */
  datatype PanicReason =
    | AddOverflow       // `+=` on `u8` past 255
    | SubOverflow       // `sp -= 2` below zero
    | ShiftOverflow     // `u16 >> n` with n >= 16
    | IndexOutOfBounds  // `mem[..]` outside the 4096 bytes
    | NotImplemented    // an arm that is `todo!()`

  /** `Ok(())`, `Err(code)` as `step` returns them, or a panic. */
  datatype Status = Ok | Err(code: nat) | Panic(reason: PanicReason)

  datatype Outcome = Outcome(status: Status, after: Machine)

  function Done(m: Machine): (r: Outcome) { Outcome(Ok, m) }
  function Fail(m: Machine, reason: PanicReason): (r: Outcome) { Outcome(Panic(reason), m) }

  /** `n` zero bytes, i.e. `vec![0; n]`. */
  function Zeros(n: nat): (z: seq<uint8>)
    ensures |z| == n && forall k :: 0 <= k < n ==> z[k] == 0
  {
    seq(n, _ => 0)
  }

  /** The state `Cpu::new` gives: registers zero, `pc` at the program and
      `sp` at the reserved stack area. */
  function InitialCpu(mem: Memory): (m: Machine)
  {
    Machine(Zeros(16), 0, PROG_OFFSET, INT_OFFSET, mem, 0, 0, 0)
  }

  /** The glyph table in front of zeroed memory, as `Chip8::new` evidently
      intends. */
  function InitialMemory(): (mem: Memory)
    ensures mem[..|FONTSET|] == FONTSET
    ensures forall j :: |FONTSET| <= j < MEM_SIZE ==> mem[j] == 0
  {
    seq(MEM_SIZE, j requires 0 <= j < MEM_SIZE => if j < |FONTSET| then FONTSET[j] else 0)
  }

  /** Rust's `copy_from_slice`, which panics unless both slices have the same
      length; `None` stands for the panic. */
  function CopyFromSlice(dst: seq<uint8>, src: seq<uint8>): (r: Option<seq<uint8>>)
    ensures r.Some? <==> |dst| == |src|
    ensures r.Some? ==> r.value == src
  {
    if |dst| == |src| then Some(src) else None
  }

  datatype Option<T> = None | Some(value: T)

  /** `Chip8::new` as written copies the 80-byte glyph table over the whole
      4096-byte memory, so it panics on every call. */
  lemma NewAsWrittenPanics()
    ensures CopyFromSlice(Zeros(MEM_SIZE), FONTSET).None?
  {
  }

  /** The big-endian word at `pc`, i.e. `(mem[pc] as u16) << 8 | mem[pc + 1]`. */
  function Fetch(mem: Memory, pc: nat): (w: uint16)
    requires pc + 1 < MEM_SIZE
  {
    mem[pc] as int * 0x100 + mem[pc + 1] as int
  }

  function Advance(m: Machine): (m': Machine) { m.(pc := m.pc + 2) }

  function SetReg(m: Machine, x: RegId, v: uint8): (m': Machine)
    requires x < 16
  {
    m.(regs := m.regs[x := v], pc := m.pc + 2)
  }

  /** VF is assigned first and the destination second, so for x = 15 the
      result overwrites the flag. */
  function SetFlagThenReg(m: Machine, x: RegId, flag: uint8, v: uint8): (m': Machine)
    requires x < 16
  {
    m.(regs := m.regs[FLAG_REG := flag][x := v], pc := m.pc + 2)
  }

  /** `pc + 2`, plus 2 more when the skip condition holds. */
  function SkipIf(m: Machine, skip: bool): (m': Machine)
  {
    m.(pc := if skip then m.pc + 4 else m.pc + 2)
  }

  /** What `Call` and `CallAt` push: only the low nibble of the return
      address and the nibble of its bits 8..11, then `sp += 2`. */
  function PushReturn(m: Machine, ret: nat): (m': Machine)
    requires m.sp + 1 < MEM_SIZE
  {
    m.(mem := m.mem[m.sp := ret % 0x10][m.sp + 1 := (ret / 0x100) % 0x10], sp := m.sp + 2)
  }

  /** `mem` with the `count` cells from `start` set to `v`. */
  function Fill(mem: Memory, start: nat, count: nat, v: uint8): (mem': Memory)
  {
    seq(MEM_SIZE, j requires 0 <= j < MEM_SIZE => if start <= j < start + count then v else mem[j])
  }

  /** The `match opcode` of `Chip8::step`: the effect of one decoded
      instruction, including the new `pc`. */
  function Execute(m: Machine, op: OpCode, rnd: uint8): (r: Outcome)
    requires WellFormed(op)
    ensures !r.status.Ok? ==> r.after == m && r.status.Panic?
    ensures r.after.keys == m.keys
  {
    var next := m.pc + 2;
    match op
    case Call(addr) =>
      if m.sp + 1 >= MEM_SIZE then Fail(m, IndexOutOfBounds)
      else Done(PushReturn(m, next).(pc := addr))
    case DispClear => Fail(m, NotImplemented)
    case Ret =>
      if m.sp >= MEM_SIZE then Fail(m, IndexOutOfBounds)
      else if m.sp < 2 then Fail(m, SubOverflow)
      else Done(m.(pc := m.mem[m.sp], sp := m.sp - 2))
    case Jmp(addr) => Done(m.(pc := addr))
    case CallAt(addr) =>
      if m.sp + 1 >= MEM_SIZE || addr + 1 >= MEM_SIZE then Fail(m, IndexOutOfBounds)
      else
        var p := PushReturn(m, next);
        Done(p.(pc := p.mem[addr] as int + p.mem[addr + 1] as int * 0x100))
    case ImEq(x, v) => Done(SkipIf(m, m.regs[x] == v))
    case ImNeq(x, v) => Done(SkipIf(m, m.regs[x] != v))
    case RREq(x, y) => Done(SkipIf(m, m.regs[x] == m.regs[y]))
    case RRNeq(x, y) => Done(SkipIf(m, m.regs[x] != m.regs[y]))
    case IRMov(x, v) => Done(SetReg(m, x, v))
    case IRAdd(x, v) =>
      if m.regs[x] as int + v > 0xFF then Fail(m, AddOverflow)
      else Done(SetReg(m, x, m.regs[x] + v))
    case RRMov(x, y) => Done(SetReg(m, x, m.regs[y]))
    case RROr(x, y) => Done(SetReg(m, x, ByteOp(Or, m.regs[x], m.regs[y])))
    case RRAnd(x, y) => Done(SetReg(m, x, ByteOp(And, m.regs[x], m.regs[y])))
    case RRXor(x, y) => Done(SetReg(m, x, ByteOp(Xor, m.regs[x], m.regs[y])))
    case RRAdd(x, y) =>
      var sum := m.regs[x] as int + m.regs[y] as int;
      Done(SetFlagThenReg(m, x, if sum > 0xFF then 1 else 0, sum % 0x100))
    case RRSub(x, y) =>
      var a, b := m.regs[x] as int, m.regs[y] as int;
      Done(SetFlagThenReg(m, x, if a < b then 0 else 1, (a - b) % 0x100))
    case RRSub2(x, y) =>
      var a, b := m.regs[x] as int, m.regs[y] as int;
      Done(SetFlagThenReg(m, x, if b < a then 0 else 1, (b - a) % 0x100))
    case RRShr(x, _) =>
      var a := m.regs[x] as int;
      Done(SetFlagThenReg(m, x, a % 2, a / 2))
    case RRShl(x, _) =>
      var a := m.regs[x] as int;
      Done(SetFlagThenReg(m, x, a / 0x80, (a * 2) % 0x100))
    case Index(addr) => Done(Advance(m.(i := addr)))
    case JmpAdd(addr) => Done(m.(pc := m.regs[0] + addr))
    case Rand(x, v) => Done(SetReg(m, x, ByteOp(And, rnd, v)))
    case Draw(_, _, _) => Fail(m, NotImplemented)
    case KeyEq(x) =>
      if m.regs[x] >= 16 then Fail(m, ShiftOverflow)
      else Done(SkipIf(m, Bit(m.keys, m.regs[x]) == 1))
    case KeyNeq(x) =>
      if m.regs[x] >= 16 then Fail(m, ShiftOverflow)
      else Done(SkipIf(m, Bit(m.keys, m.regs[x]) == 0))
    case DelayGet(x) => Done(SetReg(m, x, m.delayTimer))
    case DelaySet(x) => Done(Advance(m.(delayTimer := m.regs[x])))
    case SoundSet(x) => Done(Advance(m.(soundTimer := m.regs[x])))
    case KeyWait(_) => Fail(m, NotImplemented)
    case IncIndex(x) => Done(Advance(m.(i := m.i + m.regs[x])))
    case SpriteAddr(_) => Fail(m, NotImplemented)
    case BCD(_) => Fail(m, NotImplemented)
    case RegDump(x) =>
      if m.i + x >= MEM_SIZE then Fail(m, IndexOutOfBounds)
      else Done(Advance(m.(mem := Fill(m.mem, m.i, x + 1, m.regs[x]))))
    case RegLoad(x) =>
      if m.i + x >= MEM_SIZE then Fail(m, IndexOutOfBounds)
      else Done(SetReg(m, x, m.mem[m.i + x]))
    case Invalid => Fail(m, NotImplemented)
  }

  /** The random byte matters to `Rand` only. */
  lemma ExecuteIgnoresRandom(m: Machine, op: OpCode, r1: uint8, r2: uint8)
    requires WellFormed(op) && !op.Rand?
    ensures Execute(m, op, r1) == Execute(m, op, r2)
  {
  }

  /** `Chip8::step`: fetch, decode, execute.  A fetch outside memory is
      `Err(1)`; a failed step leaves the machine as it was. */
  function Step(m: Machine, rnd: uint8): (r: Outcome)
    ensures !r.status.Ok? ==> r.after == m
    ensures r.status.Err? <==> m.pc + 1 >= MEM_SIZE
    ensures r.after.keys == m.keys
  {
    if m.pc + 1 >= MEM_SIZE then Outcome(Err(1), m)
    else Execute(m, Decode(Fetch(m.mem, m.pc)), rnd)
  }
}
