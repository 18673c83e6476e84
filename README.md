# CHIP-8 interpreter core, modelled in Dafny

This project models the interpreter core of a small CHIP-8 virtual machine
written in Rust (`src/lib.rs`): the register file (`Cpu`), the 4096-byte
memory, the key mask and the two timers; the pure instruction decoder
`Chip8::decode`, which turns a 16-bit word into one of 36 `OpCode` variants;
and the state transition `Chip8::step`, which fetches the big-endian word at
`pc`, decodes it, executes it and stores the next `pc`.

The model follows this revision of the code as written, quirks included:

- Class 0 looks only at the low byte, so every `NEE` is `Ret`, every `NE0` is
  `DispClear`, and every other class-0 word is `Call` of the whole word.
- `Call` (class 0) and `CallAt` (class 2) push only two nibbles of the return
  address: bits 0..3 into `mem[sp]` and bits 8..11 into `mem[sp+1]`.
- `Ret` reads the one byte at `mem[sp]` *before* moving `sp` down by 2. So a
  call followed by a return restores `sp` but not `pc`
  (`Properties.CallThenRet`, `Properties.CallThenRetMissesReturnAddress`).
- `CallAt` jumps to the little-endian word stored at `mem[NNN]`. That word is
  read after the push.
- Classes 5 and 9 ignore the low nibble.
- `FX55` writes Vx into every cell `I..=I+x`. `FX65` loads only Vx, from
  `I+x`. Neither moves `I`.

Modules:

- `Chip8Types` (`chip8_types.dfy`): `u8`/`u16` as bounded integers, the
  constants, and bit-level helpers. `Bit(x, k)` is `(x >> k) & 1`, and
  `ByteOp` gives byte-wide `&`, `|` and `^`, proved to act bit by bit.
- `Decoder` (`decoder.dfy`): `OpCode`, `Decode`, an `Encode` partner, and the
  round trips between them.
- `Semantics` (`semantics.dfy`): the machine state as a value (`Machine`),
  with `Execute` (one decoded instruction) and `Step` (fetch, decode,
  execute) as functions.
- `Interpreter` (`interpreter.dfy`): `Cpu` and `Chip8` as classes over
  arrays. `Chip8.Step` updates them in place, as the Rust does. Its contract
  ties the new state to `Semantics.Step` of the old state.
- `Properties` (`properties.dfy`): what one step guarantees. This covers the
  fetch rule, the program-counter rule, the ALU flag laws, the stack
  discipline, the transfer frames and a three-instruction program.

Rust panics are modelled as `Status.Panic(reason)`, using debug-build
semantics. The cases are: `+=` on a `u8` past 255, `sp -= 2` below zero, a
`u16` shift by 16 or more, an index outside memory, and the `todo!()` arms.
A failed step always leaves the machine unchanged. A fetch outside memory
is `Err(1)`, exactly as `step` returns it. The byte that `rand` would draw
for `CXNN` is a parameter of `Step`.

Where this revision of the code departs from conventional CHIP-8 behaviour,
the model follows the code. The departures are:

- Calls push nibbles, not a full big-endian address.
- `FX55`/`FX65` neither transfer V0..Vx nor advance `I`.
- Class 0 `0NNN` pushes and jumps rather than doing nothing.
- Class 2 jumps through memory.
- Undecodable words and the unimplemented instructions panic. They are not
  reported as an illegal-instruction error.
- There is no `FXFF` halt: that word decodes to `Invalid`.
- There is no cycle counter.

## Model

| member | source | states |
|---|---|---|
| Decoder.Decode | src/lib.rs:276-333 | total on every 16-bit word; every register index it produces is below 16, every address below 0x1000 and a sprite height below 16 |
| Decoder.WordOfFields | src/lib.rs:278-283 | the shifted and masked fields (class, X, Y, low nibble, low byte, 12-bit address) are nibbles of the word and reassemble it exactly |
| Decoder.DecodeEncode | src/lib.rs:284-332 | decoding the canonical encoding of any well-formed instruction gives it back, except `Call` with low byte E0/EE, which class 0 reads as DispClear/Ret |
| Decoder.EncodeDecode | src/lib.rs:284-332 | re-encoding any word that decodes to a valid instruction gives the word back with exactly the ignored bits cleared |
| Decoder.DecodeCanonical | src/lib.rs:284-309 | the bits the decoder ignores (class-0 X nibble for E0/EE, low nibble of classes 5 and 9) do not change the decoded instruction |
| Decoder.DecodeSameIff | src/lib.rs:284-332 | two words decode to the same valid instruction if and only if they agree on every inspected bit, so each decodes to exactly one variant |
| Decoder.DecodeInvalidIff | src/lib.rs:297-330 | `Invalid` if and only if class 8 has a low nibble outside 0..7 and E, class E a low byte other than 9E/A1, or class F a low byte outside 07, 0A, 15, 18, 1E, 29, 33, 55, 65 |
| Decoder.DecodeClassZero | src/lib.rs:285-289 | in class 0, low byte EE gives Ret and E0 gives DispClear whatever the X nibble; any other word is Call of its 12-bit address |
| Chip8Types.Bitwise | src/lib.rs:183-185 | the n-bit bitwise operator always yields a value below 2^n, so byte operations stay bytes |
| Chip8Types.BitwiseBit | src/lib.rs:183-185 | bit k of `a op b` is the one-bit truth table of `op` on bit k of `a` and bit k of `b` |
| Chip8Types.ByteOpBit | src/lib.rs:183-185 | the byte-wide `&`, `|`, `^` act independently on each of the eight bits |
| Semantics.Execute | src/lib.rs:133-271 | a failed instruction is a panic and leaves the machine unchanged; no instruction changes the key mask |
| Semantics.Step | src/lib.rs:125-274 | `Err` exactly when `pc` or `pc+1` is outside memory; any failure leaves the machine unchanged; the key mask never changes |
| Semantics.ExecuteIgnoresRandom | src/lib.rs:217-220 | the random byte affects only `CXNN` |
| Semantics.InitialMemory | src/lib.rs:13-30 | the glyph table occupies the first 80 bytes and the rest of memory is zero |
| Semantics.CopyFromSlice | src/lib.rs:120 | a slice copy succeeds exactly when both slices have the same length, and then yields the source |
| Semantics.NewAsWrittenPanics | src/lib.rs:105-123 | `Chip8::new` as written panics on every call, because it copies 80 bytes onto 4096 |
| Interpreter.Cpu.constructor | src/lib.rs:44-51 | `Cpu::new`: sixteen zero registers, `i = 0`, `pc` at 512 and `sp` at 3744 |
| Interpreter.Chip8.constructor | src/lib.rs:105-123 | the machine starts in the `Cpu::new` state with the glyph table loaded, zero keys, timers and framebuffer, and `draw` false |
| Interpreter.Chip8.Step | src/lib.rs:125-274 | the in-place step returns the status and leaves the state that `Semantics.Step` gives for the old state; `draw` is untouched |
| Interpreter.Chip8.ExecStack | src/lib.rs:137-159 | the `Call`, `Ret` and `CallAt` arms update memory, `sp` and `pc` as `Semantics.Execute` says |
| Interpreter.Chip8.ExecJump | src/lib.rs:150-216 | the `Jmp` and `JmpAdd` arms set `pc` as `Semantics.Execute` says |
| Interpreter.Chip8.ExecSkip | src/lib.rs:160-229 | the six skip arms set `skip` and then `pc` as `Semantics.Execute` says |
| Interpreter.Chip8.ExecSetReg | src/lib.rs:172-232 | the arms that assign one register without touching VF (`6XNN`, `7XNN`, `8XY0`, `CXNN`, `FX07`) follow `Semantics.Execute` |
| Interpreter.Chip8.ExecBitwise | src/lib.rs:183-185 | the `|=`, `&=`, `^=` arms follow `Semantics.Execute` |
| Interpreter.Chip8.ExecFlagged | src/lib.rs:186-210 | the add, subtract and shift arms write VF and then Vx as `Semantics.Execute` says |
| Interpreter.Chip8.ExecIndexTimers | src/lib.rs:211-244 | the `ANNN`, `FX1E`, `FX15` and `FX18` arms follow `Semantics.Execute` |
| Interpreter.Chip8.ExecRegDump | src/lib.rs:251-255 | the `for x in 0..=vx` store loop leaves the memory `Semantics.Execute` gives |
| Interpreter.Chip8.ExecRegLoad | src/lib.rs:256-260 | the `for x in 0..=vx` load loop leaves only the last load, as `Semantics.Execute` gives |
| Properties.FetchRule | src/lib.rs:126-132 | out-of-memory fetch gives `Err(1)` and no change; otherwise the executed word is `mem[pc]*256 + mem[pc+1]` |
| Properties.PcAdvances | src/lib.rs:266-270 | every completed instruction other than a jump, call, return or skip sets `pc := pc + 2` |
| Properties.SkipRule | src/lib.rs:160-229 | a skip completes unless a key test's Vx is 16 or more (shift panic); `pc` becomes `pc+4` exactly when its condition holds, else `pc+2`, and nothing else changes |
| Properties.UnimplementedRule | src/lib.rs:143-263 | `NotImplemented` panics happen exactly for DispClear, Draw, KeyWait, SpriteAddr, BCD and Invalid |
| Properties.AddFlagLaw | src/lib.rs:186-190 | `8XY4`: Vx is the sum mod 256; for X other than F, VF is 1 iff the sum exceeds 255 and Vx + 256·VF is the full sum; when X is F the sum wins |
| Properties.SubFlagLaw | src/lib.rs:191-195 | `8XY5`: Vx is Vx−Vy mod 256; VF is 1 iff Vx ≥ Vy (no borrow), and the result is the difference plus 256 exactly on borrow |
| Properties.Sub2FlagLaw | src/lib.rs:196-200 | `8XY7`: Vx is Vy−Vx mod 256; VF is 1 iff Vy ≥ Vx |
| Properties.ShrFlagLaw | src/lib.rs:201-205 | `8XY6`: VF is old bit 0 and old Vx = 2·new Vx + VF; Y is ignored |
| Properties.ShlFlagLaw | src/lib.rs:206-210 | `8XYE`: VF is old bit 7 and 2·old Vx = new Vx + 256·VF |
| Properties.ImmediateAddRule | src/lib.rs:176-179 | `7XNN` completes iff Vx + NN ≤ 255, then adds without touching VF; otherwise it panics with add overflow |
| Properties.BitwiseRule | src/lib.rs:183-185 | `8XY1`..`8XY3`: every bit of the new Vx is or/and/xor of the matching bits of Vx and Vy; only Vx and `pc` change |
| Properties.RandMask | src/lib.rs:217-220 | `CXNN`: each bit of Vx is the random bit where NN has a one and zero elsewhere, so no bit outside the mask is set |
| Properties.AssignRule | src/lib.rs:172-181 | `6XNN` sets Vx to NN and `8XY0` sets Vx to Vy (VF untouched); both always complete and change only Vx and `pc` |
| Properties.IndexRule | src/lib.rs:211-212 | `ANNN` sets `I` to NNN, changing only `I` and `pc` |
| Properties.IncIndexRule | src/lib.rs:242-243 | `FX1E` adds Vx to `I` without touching VF, changing only `I` and `pc` |
| Properties.JumpRule | src/lib.rs:150-216 | `1NNN` sets `pc := NNN` and `BNNN` sets `pc := V0 + NNN`; nothing else changes |
| Properties.CallRule | src/lib.rs:137-142 | `0NNN` completes iff `sp+1` is in memory; it writes exactly `mem[sp]` and `mem[sp+1]` with two nibbles of `pc+2`, sets `sp := sp+2` and `pc := NNN` |
| Properties.RetRule | src/lib.rs:144-149 | `00EE` completes iff 2 ≤ `sp` < 4096; then `pc := mem[sp]` and `sp := sp−2`; index panic first, then subtraction panic |
| Properties.CallThenRet | src/lib.rs:137-149 | a completed call followed by a return restores `sp`, and `pc` is the byte at `mem[sp+2]`, not the return address |
| Properties.CallThenRetMissesReturnAddress | src/lib.rs:137-149 | from the initial state, `0300` then `00EE` lands at address 0 while `sp` is restored |
| Properties.CallAtRule | src/lib.rs:153-159 | `2NNN` completes exactly when `sp + 1` and NNN + 1 are in memory; it pushes like `0NNN`, moves `sp` up by 2 and jumps to the little-endian word at `mem[NNN]` read after the push (away from the pushed bytes, the old word); registers, `I`, timers and keys are unchanged |
| Properties.RegDumpRule | src/lib.rs:251-255 | `FX55` completes iff I+x < 4096; it sets `mem[I..=I+x]` to Vx and changes no other cell, register, `I` or `sp` |
| Properties.RegLoadRule | src/lib.rs:256-260 | `FX65` completes iff I+x < 4096; it sets Vx to `mem[I+x]` and changes no other register, memory or `I` |
| Properties.TimerRule | src/lib.rs:230-238 | `FX15` sets the delay timer and `FX18` the sound timer to Vx; each always completes and changes nothing else but `pc`; no other instruction changes a timer; `FX07` copies the delay timer into Vx, always completes and changes nothing else but `pc` |
| Properties.AddProgram | src/lib.rs:172-190 | stepping `6005 6103 8014` from the program offset gives V0 = 8, V1 = 3, VF = 0 and `pc` = 518 |

## Left out

- The `todo!()` arms (`DispClear`, `Draw`, `KeyWait`, `SpriteAddr`, `BCD`, `Invalid`) have no semantics in the source. They are modelled only as the `NotImplemented` panic.
- The random number generator (`ThreadRng`) is a foreign call. Its byte is a parameter of `Step`.
- `src/main.rs` (the host loop that panics on any error) and `src/bin/dasm.rs` (file reading and printing) are host glue and are not part of this model.
- Rust's panics are modelled with debug-build checks. The release-build wrap-around of `+=`, `-=` and shifts is not modelled.
- The model reports a panic before any write of that instruction. The Rust has sometimes already written by then:
  - `Call`/`CallAt` with `sp` at 4095 has written `mem[4095]`.
  - `CallAt` with NNN = 0xFFF has also pushed and moved `sp`.
  - `FX55` running off the end of memory has written the cells before the end.
  - `FX65` running off the end of memory has already loaded Vx from each cell before the end, so Vx holds `mem[4095]`.

  A panic unwinds out of `step` and ends the program, so these partial states are never observed.
- `i`, `pc` and `sp` are unbounded naturals. `usize` overflow (for instance from 2^64/255 consecutive `FX1E`) is not modelled.
- No code in the source writes the framebuffer `gfx` or `draw`, decrements the timers or sets the key mask. The model keeps them as state (`Step` leaves `gfx` and `draw` alone) and adds no such operations.
- `Chip8::new` as written panics (see Findings). The constructor models the evident intent instead.

## Findings

| source | as written | input that shows it | evidently intended | confidence | as-written member | corrected member |
|---|---|---|---|---|---|---|
| src/lib.rs:120 | the 80-byte glyph table is slice-copied onto the whole 4096-byte memory, and a slice copy panics unless the lengths agree | any call of `Chip8::new` | the glyph table copied into the first 80 bytes, the rest left zero | high (not executed) | Semantics.NewAsWrittenPanics | Semantics.InitialMemory |
