/** The stateful interpreter of src/lib.rs: `Cpu` and `Chip8` as classes
    whose arrays are updated in place, and `Chip8::step` as a method proved
    to follow `Semantics.Step`. */
module Interpreter {
  import opened Chip8Types
  import opened Decoder
  import opened Semantics

  /** The register file: sixteen 8-bit registers, the index register, the
      program counter and the stack pointer. */
  class Cpu {
    const regs: array<uint8>
    var i: nat
    var pc: nat
    var sp: nat

    /** `Cpu::new`. */
    constructor ()
      ensures fresh(regs) && regs.Length == 16 && regs[..] == Zeros(16)
      ensures i == 0 && pc == PROG_OFFSET && sp == INT_OFFSET
    {
      regs := new uint8[16](_ => 0);
      i, pc, sp := 0, PROG_OFFSET, INT_OFFSET;
      new;
      assert regs[..] == Zeros(16);
    }
  }

  /** The whole machine.  `gfx` and `draw` are never written by `Step`. */
  class Chip8 {
    const cpu: Cpu
    const mem: array<uint8>
    const gfx: array<uint8>
    var keys: uint16
    var delayTimer: uint8
    var soundTimer: uint8
    var draw: bool

    ghost predicate Valid()
      reads this, cpu
    {
      cpu.regs.Length == 16 && mem.Length == MEM_SIZE && gfx.Length == GFX_SIZE
    }

    /** The machine state as a value. */
    ghost function State(): Machine
      reads this, cpu, cpu.regs, mem
      requires Valid()
    {
      Machine(cpu.regs[..], cpu.i, cpu.pc, cpu.sp, mem[..], keys, delayTimer, soundTimer)
    }

    /** `Chip8::new`, with the glyph table copied into the first 80 bytes of
        memory (the evident intent of the source; see `NewAsWrittenPanics`). */
    constructor ()
      ensures Valid() && fresh(cpu) && fresh(cpu.regs) && fresh(mem) && fresh(gfx)
      ensures State() == InitialCpu(InitialMemory())
      ensures gfx[..] == Zeros(GFX_SIZE) && !draw
    {
      cpu := new Cpu();
      var m := new uint8[MEM_SIZE](_ => 0);
      for j := 0 to |FONTSET|
        modifies m
        invariant forall k :: 0 <= k < MEM_SIZE ==> m[k] == if k < j then FONTSET[k] else 0
      {
        m[j] := FONTSET[j];
      }
      assert m[..] == InitialMemory();
      mem := m;
      gfx := new uint8[GFX_SIZE](_ => 0);
      keys, delayTimer, soundTimer, draw := 0, 0, 0, false;
      new;
      assert gfx[..] == Zeros(GFX_SIZE);
      assert cpu.regs[..] == Zeros(16);
      assert mem[..] == InitialMemory();
      assert cpu.i == 0 && cpu.pc == PROG_OFFSET && cpu.sp == INT_OFFSET;
    }

    /** `Chip8::step`, with the byte `rand` would produce passed in: fetch
        the big-endian word at `pc`, decode it and dispatch.  The arms of the
        source's `match` are grouped into the methods below by the state
        they touch; each arm ends, as the source does, by storing `next_pc`
        (plus 2 when a skip test held). */
    method Step(rnd: uint8) returns (st: Status)
      requires Valid()
      modifies this, cpu, cpu.regs, mem
      ensures Valid()
      ensures Outcome(st, State()) == Semantics.Step(old(State()), rnd)
      ensures draw == old(draw)
    {
      var pc := cpu.pc;
      if pc >= mem.Length || pc + 1 >= mem.Length {
        return Err(1);
      }
      var word := mem[pc] as int * 0x100 + mem[pc + 1] as int;
      var op := Decode(word);
      assert Semantics.Step(old(State()), rnd) == Semantics.Execute(old(State()), op, rnd);
      if !op.Rand? {
        ExecuteIgnoresRandom(old(State()), op, rnd, 0);
      }
      if op.Call? || op.Ret? || op.CallAt? {
        st := ExecStack(op);
      } else if op.Jmp? || op.JmpAdd? {
        st := ExecJump(op);
      } else if op.ImEq? || op.ImNeq? || op.RREq? || op.RRNeq? || op.KeyEq? || op.KeyNeq? {
        st := ExecSkip(op);
      } else if op.IRMov? || op.IRAdd? || op.RRMov? || op.Rand? || op.DelayGet? {
        st := ExecSetReg(op, rnd);
      } else if op.RROr? || op.RRAnd? || op.RRXor? {
        st := ExecBitwise(op);
      } else if op.RRAdd? || op.RRSub? || op.RRSub2? || op.RRShr? || op.RRShl? {
        st := ExecFlagged(op);
      } else if op.Index? || op.IncIndex? || op.DelaySet? || op.SoundSet? {
        st := ExecIndexTimers(op);
      } else if op.RegDump? {
        st := ExecRegDump(op.x);
      } else if op.RegLoad? {
        st := ExecRegLoad(op.x);
      } else {
        // DispClear, Draw, KeyWait, SpriteAddr, BCD and Invalid are todo!()
        st := Panic(NotImplemented);
      }
    }

    /** `Call`, `Ret` and `CallAt`: the memory-resident stack. */
    method ExecStack(op: OpCode) returns (st: Status)
      requires Valid() && WellFormed(op) && (op.Call? || op.Ret? || op.CallAt?)
      modifies cpu, mem
      ensures Valid()
      ensures Outcome(st, State()) == Semantics.Execute(old(State()), op, 0)
    {
      var nextPc := cpu.pc + 2;
      match op {
        case Call(addr) =>
          if cpu.sp + 1 >= mem.Length { return Panic(IndexOutOfBounds); }
          mem[cpu.sp] := nextPc % 0x10;
          mem[cpu.sp + 1] := (nextPc / 0x100) % 0x10;
          cpu.sp := cpu.sp + 2;
          nextPc := addr;
        case Ret =>
          if cpu.sp >= mem.Length { return Panic(IndexOutOfBounds); }
          nextPc := mem[cpu.sp];
          if cpu.sp < 2 { return Panic(SubOverflow); }
          cpu.sp := cpu.sp - 2;
        case CallAt(addr) =>
          if cpu.sp + 1 >= mem.Length || addr + 1 >= mem.Length { return Panic(IndexOutOfBounds); }
          mem[cpu.sp] := nextPc % 0x10;
          mem[cpu.sp + 1] := (nextPc / 0x100) % 0x10;
          cpu.sp := cpu.sp + 2;
          nextPc := mem[addr] as int + mem[addr + 1] as int * 0x100;
      }
      cpu.pc := nextPc;
      st := Ok;
    }

    /** `Jmp` and `JmpAdd`. */
    method ExecJump(op: OpCode) returns (st: Status)
      requires Valid() && WellFormed(op) && (op.Jmp? || op.JmpAdd?)
      modifies cpu
      ensures Valid()
      ensures Outcome(st, State()) == Semantics.Execute(old(State()), op, 0)
    {
      var nextPc;
      match op {
        case Jmp(addr) => nextPc := addr;
        case JmpAdd(addr) => nextPc := cpu.regs[0] as int + addr;
      }
      cpu.pc := nextPc;
      st := Ok;
    }

    /** The conditional skips: `pc + 2`, or `pc + 4` when the test holds. */
    method ExecSkip(op: OpCode) returns (st: Status)
      requires Valid() && WellFormed(op)
      requires op.ImEq? || op.ImNeq? || op.RREq? || op.RRNeq? || op.KeyEq? || op.KeyNeq?
      modifies cpu
      ensures Valid()
      ensures Outcome(st, State()) == Semantics.Execute(old(State()), op, 0)
    {
      var skip := false;
      var nextPc := cpu.pc + 2;
      match op {
        case ImEq(x, v) => skip := cpu.regs[x] == v;
        case ImNeq(x, v) => skip := cpu.regs[x] != v;
        case RREq(x, y) => skip := cpu.regs[x] == cpu.regs[y];
        case RRNeq(x, y) => skip := cpu.regs[x] != cpu.regs[y];
        case KeyEq(x) =>
          if cpu.regs[x] >= 16 { return Panic(ShiftOverflow); }
          skip := Bit(keys, cpu.regs[x]) == 1;
        case KeyNeq(x) =>
          if cpu.regs[x] >= 16 { return Panic(ShiftOverflow); }
          skip := Bit(keys, cpu.regs[x]) == 0;
      }
      if skip {
        nextPc := nextPc + 2;
      }
      cpu.pc := nextPc;
      st := Ok;
    }

    /** The instructions that assign one register and leave VF alone. */
    method ExecSetReg(op: OpCode, rnd: uint8) returns (st: Status)
      requires Valid() && WellFormed(op)
      requires op.IRMov? || op.IRAdd? || op.RRMov? || op.Rand? || op.DelayGet?
      modifies cpu, cpu.regs
      ensures Valid()
      ensures Outcome(st, State()) == Semantics.Execute(old(State()), op, rnd)
    {
      ghost var m := State();
      var nextPc := cpu.pc + 2;
      match op {
        case IRMov(x, v) => cpu.regs[x] := v;
        case IRAdd(x, v) =>
          if cpu.regs[x] as int + v as int > 0xFF { return Panic(AddOverflow); }
          cpu.regs[x] := cpu.regs[x] + v;
        case RRMov(x, y) => cpu.regs[x] := cpu.regs[y];
        case Rand(x, v) => cpu.regs[x] := ByteOp(And, rnd, v);
        case DelayGet(x) => cpu.regs[x] := delayTimer;
      }
      cpu.pc := nextPc;
      st := Ok;
      assert State() == SetReg(m, op.x, cpu.regs[op.x]);
    }

    /** `RROr`, `RRAnd` and `RRXor`: `Vx op= Vy`, VF untouched. */
    method ExecBitwise(op: OpCode) returns (st: Status)
      requires Valid() && WellFormed(op) && (op.RROr? || op.RRAnd? || op.RRXor?)
      modifies cpu, cpu.regs
      ensures Valid()
      ensures Outcome(st, State()) == Semantics.Execute(old(State()), op, 0)
    {
      ghost var m := State();
      var nextPc := cpu.pc + 2;
      var bop := if op.RROr? then Or else if op.RRAnd? then And else Xor;
      cpu.regs[op.x] := ByteOp(bop, cpu.regs[op.x], cpu.regs[op.y]);
      cpu.pc := nextPc;
      st := Ok;
      assert State() == SetReg(m, op.x, cpu.regs[op.x]);
    }

    /** The ALU instructions that write VF before their destination. */
    method ExecFlagged(op: OpCode) returns (st: Status)
      requires Valid() && WellFormed(op)
      requires op.RRAdd? || op.RRSub? || op.RRSub2? || op.RRShr? || op.RRShl?
      modifies cpu, cpu.regs
      ensures Valid()
      ensures Outcome(st, State()) == Semantics.Execute(old(State()), op, 0)
    {
      var nextPc := cpu.pc + 2;
      match op {
        case RRAdd(x, y) =>
          var sum := cpu.regs[x] as int + cpu.regs[y] as int;
          cpu.regs[FLAG_REG] := if sum > 0xFF then 1 else 0;
          cpu.regs[x] := sum % 0x100;
        case RRSub(x, y) =>
          var a, b := cpu.regs[x] as int, cpu.regs[y] as int;
          cpu.regs[FLAG_REG] := if a < b then 0 else 1;
          cpu.regs[x] := (a - b) % 0x100;
        case RRSub2(x, y) =>
          var a, b := cpu.regs[x] as int, cpu.regs[y] as int;
          cpu.regs[FLAG_REG] := if b < a then 0 else 1;
          cpu.regs[x] := (b - a) % 0x100;
        case RRShr(x, _) =>
          var a := cpu.regs[x] as int;
          cpu.regs[FLAG_REG] := a % 2;
          cpu.regs[x] := a / 2;
        case RRShl(x, _) =>
          var a := cpu.regs[x] as int;
          cpu.regs[FLAG_REG] := a / 0x80;
          cpu.regs[x] := (a * 2) % 0x100;
      }
      cpu.pc := nextPc;
      st := Ok;
    }

    /** `Index`, `IncIndex`, `DelaySet` and `SoundSet`. */
    method ExecIndexTimers(op: OpCode) returns (st: Status)
      requires Valid() && WellFormed(op)
      requires op.Index? || op.IncIndex? || op.DelaySet? || op.SoundSet?
      modifies this, cpu
      ensures Valid()
      ensures Outcome(st, State()) == Semantics.Execute(old(State()), op, 0)
      ensures draw == old(draw)
    {
      var nextPc := cpu.pc + 2;
      match op {
        case Index(addr) => cpu.i := addr;
        case IncIndex(x) => cpu.i := cpu.i + cpu.regs[x] as int;
        case DelaySet(x) => delayTimer := cpu.regs[x];
        case SoundSet(x) => soundTimer := cpu.regs[x];
      }
      cpu.pc := nextPc;
      st := Ok;
    }

    /** `RegDump(x)`: `for k in 0..=x { mem[i + k] = regs[x] }`. */
    method ExecRegDump(x: RegId) returns (st: Status)
      requires Valid() && x < 16
      modifies cpu, mem
      ensures Valid()
      ensures Outcome(st, State()) == Semantics.Execute(old(State()), RegDump(x), 0)
    {
      var nextPc := cpu.pc + 2;
      if cpu.i + x >= mem.Length { return Panic(IndexOutOfBounds); }
      for k := 0 to x + 1
        modifies mem
        invariant forall j :: 0 <= j < MEM_SIZE ==>
          mem[j] == if cpu.i <= j < cpu.i + k then cpu.regs[x] else old(mem[j])
      {
        mem[cpu.i + k] := cpu.regs[x];
      }
      assert mem[..] == Fill(old(mem[..]), cpu.i, x + 1, cpu.regs[x]);
      cpu.pc := nextPc;
      st := Ok;
    }

    /** `RegLoad(x)`: `for k in 0..=x { regs[x] = mem[i + k] }`, so only the
        last load survives. */
    method ExecRegLoad(x: RegId) returns (st: Status)
      requires Valid() && x < 16
      modifies cpu, cpu.regs
      ensures Valid()
      ensures Outcome(st, State()) == Semantics.Execute(old(State()), RegLoad(x), 0)
    {
      var nextPc := cpu.pc + 2;
      if cpu.i + x >= mem.Length { return Panic(IndexOutOfBounds); }
      for k := 0 to x + 1
        modifies cpu.regs
        invariant cpu.regs[..] ==
          if k == 0 then old(cpu.regs[..]) else old(cpu.regs[..])[x := mem[cpu.i + k - 1]]
      {
        cpu.regs[x] := mem[cpu.i + k];
      }
      cpu.pc := nextPc;
      st := Ok;
    }
  }
}
