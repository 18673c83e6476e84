/** What one step of the interpreter guarantees: the fetch rule, the
    program-counter rule, the flag laws of the ALU, the stack discipline
    and the frames of the register/memory transfers. */
module Properties {
  import opened Chip8Types
  import opened Decoder
  import opened Semantics

  /** The conditional skip instructions. */
  predicate IsSkip(op: OpCode)
  {
    op.ImEq? || op.ImNeq? || op.RREq? || op.RRNeq? || op.KeyEq? || op.KeyNeq?
  }

  /** The instructions that choose the next `pc` themselves. */
  predicate IsControl(op: OpCode)
  {
    op.Call? || op.Ret? || op.Jmp? || op.CallAt? || op.JmpAdd? || IsSkip(op)
  }

  /** The `todo!()` arms of the dispatch. */
  predicate IsUnimplemented(op: OpCode)
  {
    op.DispClear? || op.Draw? || op.KeyWait? || op.SpriteAddr? || op.BCD? || op.Invalid?
  }

  /** Key `k` is held when bit `k` of the key mask is set. */
  predicate KeyHeld(keys: uint16, k: nat)
  {
    Bit(keys, k) == 1
  }

  /** The condition a skip instruction tests. */
  predicate SkipCondition(m: Machine, op: OpCode)
    requires IsSkip(op) && WellFormed(op)
  {
    match op
    case ImEq(x, v) => m.regs[x] == v
    case ImNeq(x, v) => m.regs[x] != v
    case RREq(x, y) => m.regs[x] == m.regs[y]
    case RRNeq(x, y) => m.regs[x] != m.regs[y]
    case KeyEq(x) => KeyHeld(m.keys, m.regs[x])
    case KeyNeq(x) => !KeyHeld(m.keys, m.regs[x])
  }

  // ---------------------------------------------------------------- fetch

  /** If the word at `pc` is not inside memory the step fails with `Err(1)`
      and changes nothing; otherwise it executes the big-endian word there. */
  lemma FetchRule(m: Machine, rnd: uint8)
    ensures m.pc + 1 >= MEM_SIZE ==> Step(m, rnd) == Outcome(Err(1), m)
    ensures m.pc + 1 < MEM_SIZE ==>
      Step(m, rnd) == Execute(m, Decode(m.mem[m.pc] as int * 256 + m.mem[m.pc + 1] as int), rnd)
  {
  }

  // ------------------------------------------------------ program counter

  /** Every instruction that is not a jump, call, return or skip and that
      completes moves `pc` to the next word. */
  lemma PcAdvances(m: Machine, op: OpCode, rnd: uint8)
    requires WellFormed(op) && !IsControl(op)
    requires Execute(m, op, rnd).status.Ok?
    ensures Execute(m, op, rnd).after.pc == m.pc + 2
  {
  }

  /** A skip test moves `pc` by 4 exactly when its condition holds and by 2
      otherwise, and changes nothing else; the key tests panic on a key
      number of 16 or more, the others always complete. */
  lemma SkipRule(m: Machine, op: OpCode, rnd: uint8)
    requires WellFormed(op) && IsSkip(op)
    ensures var r := Execute(m, op, rnd);
      (r.status.Ok? <==> !((op.KeyEq? || op.KeyNeq?) && m.regs[op.x] >= 16)) &&
      (!r.status.Ok? ==> r.status == Panic(ShiftOverflow)) &&
      (r.status.Ok? ==>
        r.after.pc == (if SkipCondition(m, op) then m.pc + 4 else m.pc + 2) &&
        r.after.regs == m.regs && r.after.mem == m.mem && r.after.sp == m.sp &&
        r.after == m.(pc := r.after.pc))
  {
  }

  /** The unimplemented arms are exactly the ones that panic with
      `NotImplemented`, and they always do. */
  lemma UnimplementedRule(m: Machine, op: OpCode, rnd: uint8)
    requires WellFormed(op)
    ensures Execute(m, op, rnd).status == Panic(NotImplemented) <==> IsUnimplemented(op)
  {
  }

  // ------------------------------------------------------------------ ALU

  /** `8XY4`: VF is the carry out of the 8-bit sum; together the two
      registers hold the full sum.  When X is F the sum overwrites the flag. */
  lemma AddFlagLaw(m: Machine, x: RegId, y: RegId, rnd: uint8)
    requires x < 16 && y < 16
    ensures var r := Execute(m, RRAdd(x, y), rnd);
      var a, b, res, flag := m.regs[x] as int, m.regs[y] as int, r.after.regs[x] as int, r.after.regs[FLAG_REG] as int;
      r.status.Ok? && r.after == m.(regs := r.after.regs, pc := m.pc + 2) &&
      (forall k :: 0 <= k < 16 && k != x && k != FLAG_REG ==> r.after.regs[k] == m.regs[k]) &&
      res == (a + b) % 256 &&
      (x != FLAG_REG ==> (flag == 1 <==> a + b > 255) && flag < 2 && res + 256 * flag == a + b)
  {
  }

  /** `8XY5`: VF is 1 exactly when there is no borrow (Vx >= Vy), and the
      result is the 8-bit difference. */
  lemma SubFlagLaw(m: Machine, x: RegId, y: RegId, rnd: uint8)
    requires x < 16 && y < 16
    ensures var r := Execute(m, RRSub(x, y), rnd);
      var a, b, res, flag := m.regs[x] as int, m.regs[y] as int, r.after.regs[x] as int, r.after.regs[FLAG_REG] as int;
      r.status.Ok? && r.after == m.(regs := r.after.regs, pc := m.pc + 2) &&
      (forall k :: 0 <= k < 16 && k != x && k != FLAG_REG ==> r.after.regs[k] == m.regs[k]) &&
      res == (a - b) % 256 &&
      (x != FLAG_REG ==> (flag == 1 <==> a >= b) && flag < 2 && res == a - b + 256 * (1 - flag))
  {
  }

  /** `8XY7`: the reversed subtraction Vy - Vx, with VF = 1 exactly when
      Vy >= Vx. */
  lemma Sub2FlagLaw(m: Machine, x: RegId, y: RegId, rnd: uint8)
    requires x < 16 && y < 16
    ensures var r := Execute(m, RRSub2(x, y), rnd);
      var a, b, res, flag := m.regs[x] as int, m.regs[y] as int, r.after.regs[x] as int, r.after.regs[FLAG_REG] as int;
      r.status.Ok? && r.after == m.(regs := r.after.regs, pc := m.pc + 2) &&
      (forall k :: 0 <= k < 16 && k != x && k != FLAG_REG ==> r.after.regs[k] == m.regs[k]) &&
      res == (b - a) % 256 &&
      (x != FLAG_REG ==> (flag == 1 <==> b >= a) && flag < 2 && res == b - a + 256 * (1 - flag))
  {
  }

  /** `8XY6`: VF gets the bit shifted out (old bit 0); Y is ignored. */
  lemma ShrFlagLaw(m: Machine, x: RegId, y: RegId, rnd: uint8)
    requires x < 16 && y < 16
    ensures var r := Execute(m, RRShr(x, y), rnd);
      var a, res, flag := m.regs[x] as int, r.after.regs[x] as int, r.after.regs[FLAG_REG] as int;
      r.status.Ok? && r.after == m.(regs := r.after.regs, pc := m.pc + 2) &&
      (forall k :: 0 <= k < 16 && k != x && k != FLAG_REG ==> r.after.regs[k] == m.regs[k]) &&
      (x != FLAG_REG ==> flag == Bit(a, 0) && a == 2 * res + flag) &&
      (x == FLAG_REG ==> res == a / 2)
  {
  }

  /** `8XYE`: VF gets the bit shifted out (old bit 7); the result drops it. */
  lemma ShlFlagLaw(m: Machine, x: RegId, y: RegId, rnd: uint8)
    requires x < 16 && y < 16
    ensures var r := Execute(m, RRShl(x, y), rnd);
      var a, res, flag := m.regs[x] as int, r.after.regs[x] as int, r.after.regs[FLAG_REG] as int;
      r.status.Ok? && r.after == m.(regs := r.after.regs, pc := m.pc + 2) &&
      (forall k :: 0 <= k < 16 && k != x && k != FLAG_REG ==> r.after.regs[k] == m.regs[k]) &&
      (x != FLAG_REG ==> flag == Bit(a, 7) && 2 * a == res + 256 * flag) &&
      (x == FLAG_REG ==> res == (2 * a) % 256)
  {
    Bit7(m.regs[x]);
  }

  /** Bit 7 of a byte is its quotient by 128. */
  lemma Bit7(a: uint8)
    ensures Bit(a, 7) == a / 128
  {
    var a1 := a / 2; var a2 := a1 / 2; var a3 := a2 / 2; var a4 := a3 / 2;
    var a5 := a4 / 2; var a6 := a5 / 2; var a7 := a6 / 2;
    assert Bit(a, 7) == Bit(a1, 6) == Bit(a2, 5) == Bit(a3, 4) == Bit(a4, 3)
      == Bit(a5, 2) == Bit(a6, 1) == Bit(a7, 0);
    assert 128 * a7 <= a < 128 * a7 + 128;
  }

  /** `7XNN` adds without touching VF and panics instead of wrapping. */
  lemma ImmediateAddRule(m: Machine, x: RegId, v: uint8, rnd: uint8)
    requires x < 16
    ensures var r := Execute(m, IRAdd(x, v), rnd);
      (r.status.Ok? <==> m.regs[x] as int + v <= 255) &&
      (!r.status.Ok? ==> r.status == Panic(AddOverflow)) &&
      (r.status.Ok? ==> r.after.regs == m.regs[x := m.regs[x] as int + v] &&
                        r.after == m.(regs := r.after.regs, pc := m.pc + 2))
  {
  }

  /** `8XY1`..`8XY3`: each bit of the new Vx is the truth table applied to
      the corresponding bits of Vx and Vy. */
  lemma BitwiseRule(m: Machine, op: OpCode, rnd: uint8, k: nat)
    requires WellFormed(op) && (op.RROr? || op.RRAnd? || op.RRXor?) && k < 8
    ensures var r := Execute(m, op, rnd);
      var bop := if op.RROr? then Or else if op.RRAnd? then And else Xor;
      r.status.Ok? && r.after == m.(regs := m.regs[op.x := r.after.regs[op.x]], pc := m.pc + 2) &&
      Bit(r.after.regs[op.x], k) == Combine(bop, Bit(m.regs[op.x], k), Bit(m.regs[op.y], k))
  {
    var bop := if op.RROr? then Or else if op.RRAnd? then And else Xor;
    assert Execute(m, op, rnd) == Done(SetReg(m, op.x, ByteOp(bop, m.regs[op.x], m.regs[op.y])));
    ByteOpBit(bop, m.regs[op.x], m.regs[op.y], k);
  }

  /** `CXNN`: the random byte masked by NN; no bit outside the mask is set. */
  lemma RandMask(m: Machine, x: RegId, v: uint8, rnd: uint8)
    requires x < 16
    ensures var r := Execute(m, Rand(x, v), rnd);
      r.status.Ok? && r.after == m.(regs := m.regs[x := r.after.regs[x]], pc := m.pc + 2) &&
      forall k :: 0 <= k < 8 ==>
        Bit(r.after.regs[x], k) == (if Bit(v, k) == 1 then Bit(rnd, k) else 0)
  {
    var r := Execute(m, Rand(x, v), rnd);
    forall k | 0 <= k < 8
      ensures Bit(r.after.regs[x], k) == (if Bit(v, k) == 1 then Bit(rnd, k) else 0)
    {
      ByteOpBit(And, rnd, v, k);
    }
  }

  // ---------------------------------------------------------------- jumps

  /** `1NNN` and `BNNN` set `pc` and nothing else. */
  lemma JumpRule(m: Machine, a: Addr, rnd: uint8)
    requires a < 0x1000
    ensures Execute(m, Jmp(a), rnd) == Outcome(Ok, m.(pc := a))
    ensures Execute(m, JmpAdd(a), rnd) == Outcome(Ok, m.(pc := m.regs[0] as int + a))
  {
  }

  /** The register assignments `6XNN` and `8XY0` always complete, change
      only Vx and advance `pc` by 2; in particular `8XY0` leaves VF alone. */
  lemma AssignRule(m: Machine, x: RegId, y: RegId, v: uint8, rnd: uint8)
    requires x < 16 && y < 16
    ensures Execute(m, IRMov(x, v), rnd) == Outcome(Ok, m.(regs := m.regs[x := v], pc := m.pc + 2))
    ensures Execute(m, RRMov(x, y), rnd) == Outcome(Ok, m.(regs := m.regs[x := m.regs[y]], pc := m.pc + 2))
  {
  }

  /** `ANNN` sets `I` and nothing else but `pc`. */
  lemma IndexRule(m: Machine, a: Addr, rnd: uint8)
    requires a < 0x1000
    ensures Execute(m, Index(a), rnd) == Outcome(Ok, m.(i := a, pc := m.pc + 2))
  {
  }

  /** `FX1E` adds Vx to `I`, leaving VF and everything else but `pc` alone. */
  lemma IncIndexRule(m: Machine, x: RegId, rnd: uint8)
    requires x < 16
    ensures Execute(m, IncIndex(x), rnd) == Outcome(Ok, m.(i := m.i + m.regs[x] as int, pc := m.pc + 2))
  {
  }

  // ---------------------------------------------------------------- stack

  /** `0NNN` writes exactly `mem[sp]` and `mem[sp + 1]` (with two nibbles of
      the return address), moves `sp` up by 2 and jumps to NNN. */
  lemma CallRule(m: Machine, a: Addr, rnd: uint8)
    requires a < 0x1000
    ensures var r := Execute(m, Call(a), rnd);
      (r.status.Ok? <==> m.sp + 1 < MEM_SIZE) &&
      (!r.status.Ok? ==> r.status == Panic(IndexOutOfBounds)) &&
      (r.status.Ok? ==>
        r.after.pc == a && r.after.sp == m.sp + 2 &&
        r.after.regs == m.regs && r.after.i == m.i &&
        r.after.mem[m.sp] == (m.pc + 2) % 16 && r.after.mem[m.sp + 1] == ((m.pc + 2) / 256) % 16 &&
        (forall j :: 0 <= j < MEM_SIZE && j != m.sp && j != m.sp + 1 ==> r.after.mem[j] == m.mem[j]))
  {
  }

  /** `00EE` takes `pc` from the single byte at `mem[sp]` and only then
      moves `sp` down by 2; it panics on an index outside memory first and
      on a stack pointer below 2 second. */
  lemma RetRule(m: Machine, rnd: uint8)
    ensures var r := Execute(m, Ret, rnd);
      (r.status.Ok? <==> 2 <= m.sp < MEM_SIZE) &&
      (m.sp >= MEM_SIZE ==> r.status == Panic(IndexOutOfBounds)) &&
      (m.sp < 2 ==> r.status == Panic(SubOverflow)) &&
      (r.status.Ok? ==> r.after == m.(pc := m.mem[m.sp] as int, sp := m.sp - 2))
  {
  }

  /** A call immediately followed by a return leaves `sp` where it was, but
      `pc` comes from the byte above the two that were pushed. */
  lemma CallThenRet(m: Machine, a: Addr, rnd1: uint8, rnd2: uint8)
    requires a < 0x1000 && m.sp + 1 < MEM_SIZE
    ensures var m1 := Execute(m, Call(a), rnd1).after;
      var r := Execute(m1, Ret, rnd2);
      (r.status.Ok? <==> m.sp + 2 < MEM_SIZE) &&
      (r.status.Ok? ==> r.after.sp == m.sp && r.after.pc == m.mem[m.sp + 2])
  {
    CallRule(m, a, rnd1);
    var m1 := Execute(m, Call(a), rnd1).after;
    RetRule(m1, rnd2);
  }

  /** From the initial state, `0300` followed by `00EE` lands at address 0
      rather than after the call. */
  lemma CallThenRetMissesReturnAddress()
    ensures var m := InitialCpu(InitialMemory());
      var m1 := Execute(m, Call(0x300), 0).after;
      var r := Execute(m1, Ret, 0);
      r.status.Ok? && r.after.sp == m.sp && r.after.pc == 0 != m.pc + 2
  {
    var m := InitialCpu(InitialMemory());
    CallThenRet(m, 0x300, 0, 0);
    assert m.mem[m.sp + 2] == 0;
  }

  /** `2NNN` pushes like `0NNN`, then jumps to the little-endian word read
      from `mem[NNN]` after the push; away from the two pushed bytes that
      is the word the memory held before. */
  lemma CallAtRule(m: Machine, a: Addr, rnd: uint8)
    requires a < 0x1000
    ensures var r := Execute(m, CallAt(a), rnd);
      (r.status.Ok? <==> m.sp + 1 < MEM_SIZE && a + 1 < MEM_SIZE) &&
      (!r.status.Ok? ==> r.status == Panic(IndexOutOfBounds)) &&
      (r.status.Ok? ==>
        r.after == m.(mem := Execute(m, Call(a), rnd).after.mem, sp := m.sp + 2, pc := r.after.pc) &&
        r.after.pc == r.after.mem[a] as int + 256 * r.after.mem[a + 1] as int &&
        (a + 1 < m.sp || m.sp + 1 < a ==> r.after.pc == m.mem[a] as int + 256 * m.mem[a + 1] as int))
  {
  }

  // ---------------------------------------------- register/memory transfer

  /** `FX55` writes Vx (not V0..Vx) into `mem[I..=I+x]` and changes nothing
      else; `I` does not move. */
  lemma RegDumpRule(m: Machine, x: RegId, rnd: uint8)
    requires x < 16
    ensures var r := Execute(m, RegDump(x), rnd);
      (r.status.Ok? <==> m.i + x < MEM_SIZE) &&
      (!r.status.Ok? ==> r.status == Panic(IndexOutOfBounds)) &&
      (r.status.Ok? ==>
        r.after == m.(mem := r.after.mem, pc := m.pc + 2) &&
        (forall j :: m.i <= j <= m.i + x ==> r.after.mem[j] == m.regs[x]) &&
        (forall j :: 0 <= j < MEM_SIZE && !(m.i <= j <= m.i + x) ==> r.after.mem[j] == m.mem[j]))
  {
  }

  /** `FX65` changes only Vx, to `mem[I + x]`; `I` does not move. */
  lemma RegLoadRule(m: Machine, x: RegId, rnd: uint8)
    requires x < 16
    ensures var r := Execute(m, RegLoad(x), rnd);
      (r.status.Ok? <==> m.i + x < MEM_SIZE) &&
      (!r.status.Ok? ==> r.status == Panic(IndexOutOfBounds)) &&
      (r.status.Ok? ==>
        r.after == m.(regs := r.after.regs, pc := m.pc + 2) &&
        r.after.regs[x] == m.mem[m.i + x] &&
        (forall k :: 0 <= k < 16 && k != x ==> r.after.regs[k] == m.regs[k]))
  {
  }

  // ---------------------------------------------------------------- timers

  /** The timers change only through `FX15` and `FX18`, which copy Vx into
      them; `FX07` copies the delay timer into Vx. */
  lemma TimerRule(m: Machine, op: OpCode, rnd: uint8)
    requires WellFormed(op)
    ensures var r := Execute(m, op, rnd);
      (r.after.delayTimer != m.delayTimer ==> op.DelaySet? && r.after.delayTimer == m.regs[op.x]) &&
      (r.after.soundTimer != m.soundTimer ==> op.SoundSet? && r.after.soundTimer == m.regs[op.x]) &&
      (op.DelayGet? ==> r.status.Ok? && r.after == m.(regs := m.regs[op.x := m.delayTimer], pc := m.pc + 2)) &&
      (op.DelaySet? ==> r.status.Ok? && r.after == m.(delayTimer := m.regs[op.x], pc := m.pc + 2)) &&
      (op.SoundSet? ==> r.status.Ok? && r.after == m.(soundTimer := m.regs[op.x], pc := m.pc + 2))
  {
  }

  // ------------------------------------------------------------ a program

  /** `mem` with `prog` copied in at `offset`. */
  function LoadAt(mem: Memory, offset: nat, prog: seq<uint8>): (r: Memory)
    requires offset + |prog| <= MEM_SIZE
    ensures r[offset..offset + |prog|] == prog
    ensures forall j :: 0 <= j < MEM_SIZE && !(offset <= j < offset + |prog|) ==> r[j] == mem[j]
  {
    mem[..offset] + prog + mem[offset + |prog|..]
  }

  /** `V0 := 5; V1 := 3; V0 := V0 + V1` from the program offset leaves 8 in
      V0, no carry in VF, and `pc` three words further on. */
  lemma AddProgram()
    ensures var m0 := InitialCpu(LoadAt(InitialMemory(), PROG_OFFSET, [0x60, 0x05, 0x61, 0x03, 0x80, 0x14]));
      var r1 := Step(m0, 0);
      var r2 := Step(r1.after, 0);
      var r3 := Step(r2.after, 0);
      r1.status.Ok? && r2.status.Ok? && r3.status.Ok? &&
      r3.after.regs[0] == 8 && r3.after.regs[1] == 3 && r3.after.regs[FLAG_REG] == 0 &&
      r3.after.pc == PROG_OFFSET + 6
  {
    var m0 := InitialCpu(LoadAt(InitialMemory(), PROG_OFFSET, [0x60, 0x05, 0x61, 0x03, 0x80, 0x14]));
    assert m0.mem[512..518] == [0x60, 0x05, 0x61, 0x03, 0x80, 0x14];
    assert Fetch(m0.mem, 512) == 0x6005;
    FieldsOfWordXB(0x6, 0, 0x05);
    var m1 := Step(m0, 0).after;
    assert m1.regs[0] == 5 && m1.pc == 514 && m1.mem == m0.mem;
    assert Fetch(m1.mem, 514) == 0x6103;
    FieldsOfWordXB(0x6, 1, 0x03);
    var m2 := Step(m1, 0).after;
    assert m2.regs[0] == 5 && m2.regs[1] == 3 && m2.pc == 516 && m2.mem == m0.mem;
    assert Fetch(m2.mem, 516) == 0x8014 == Word(0x8, 0, 1, 4);
    FieldsOfWord(0x8, 0, 1, 4);
  }
}
