# CHIP-8 interpreter core, modelled in Dafny

This project models the small CHIP-8 interpreter of `src/main.rs` and
`src/chip8.rs`. The machine has:

- sixteen byte registers, with register 15 as the overflow flag;
- 4096 bytes of memory;
- a sixteen-slot stack of 16-bit return addresses and a stack pointer;
- a 16-bit program counter;
- a Running/Halted flag.

A `step` fetches a big-endian opcode at the program counter and advances the
counter by two. It then dispatches on four patterns: HALT `0000`, RET `00EE`,
CALL `2nnn` and ADD `8xy4`.

The state is an immutable record (`Processor.Cpu`) whose sequences have the
source's fixed array lengths. Every operation is a pure function. Each Rust
panic (`assert!`, `expect`, an index or slice out of range, `unimplemented!`)
becomes an `Err` of `Processor.Error`, one constructor per kind of panic.
The run loop, which is unbounded in the source, takes a `fuel` bound
(`Run.Execute`).

Modules, in dependency order:

- `Wrappers`: the `Result` type with `:-` propagation.
- `Chip8`: the integer widths and the layout constants of `src/chip8.rs`.
- `Opcode`: fetching and decoding.
  - Opcodes are integers. `Decode` is stated on opcode ranges.
  - `DecodeNibbles` is the source's nibble match; `DecodeMatchesNibbles` proves the two agree on every opcode.
  - `ShiftOrIsJoin` and `ShiftOrIsJoinInt` show that the source's shift-and-or fetch computes the integer `Join`.
  - `MasksAreDivMod` shows that the source's masks and shifts equal 16-bit division and remainder by powers of 16, the operations `Split` and `Address` apply to integers.
- `Processor`: the state, the three instructions, the counter helpers, loading and `Step`.
- `Properties`: what each instruction does when stepped, the state invariant every successful step keeps, and the CALL/RET round trip.
- `Run`: `continue_execution`, `run_program`, a `while`-loop version of the loop, and fuel lemmas, including the fact that self-nesting calls overflow.
- `Scenarios`: the unit tests of `src/main.rs` restated as lemmas. This includes the sample program that ends with 45 in register 0.

Where the code and its documentation differ, the model follows the code:

- The stack pointer check fires when the incremented pointer reaches 16. Only 15 calls can nest, and the 16th fails (`Run.SelfCallOverflows`, `Scenarios.StackOverflowFails`), although the stack has 16 slots.
- The doc comment of `add` names the opcode `0x8xyF`. Dispatch matches a last nibble of 4, and `8xyF` is unimplemented (`Opcode.DocumentedAddOpcodeIsUnimplemented`).
- The program counter need not be even. `set_program_counter` checks only that its argument fits in a `u16`, not that it lies inside memory (`Properties.OddAddressesAreAccepted`).
- The doc comment of `ret` says it returns to the address of the previous CALL. Because the counter advances before dispatch, it returns to that CALL's address + 2 (`Properties.CallStepThenReturnStep`).
- The `stack_overflow` test's comment names `call(0x101)`. Its bytes `22 00` are `CALL 0x200`, the instruction's own address, which is what `Scenarios.StackOverflowFails` models.

## Model

| member | source | states |
|---|---|---|
| Chip8.LayoutIsConsistent | src/chip8.rs:1-12 | the overflow flag is the last of the 16 registers; the reserved region ends right before program memory starts, inside memory; every address fits in a `u16` |
| Opcode.Join | src/main.rs:115-120 | the fetched word's high byte is `memory[pc]` and its low byte is `memory[pc + 1]` |
| Opcode.ShiftOrIsJoin | src/main.rs:119 | shifting `b1` left by 8 and or-ing `b2` on 16-bit words gives the big-endian value `b1 * 256 + b2` |
| Opcode.ShiftOrIsJoinInt | src/main.rs:115-120 | the 16-bit shift-and-or of the two fetched bytes, read as an integer, is the model's `Join` of them |
| Opcode.CombineSplit | src/main.rs:59-62 | recombining the four nibbles gives back the opcode |
| Opcode.SplitCombine | src/main.rs:59-62 | splitting an opcode built from four nibbles gives back those nibbles |
| Opcode.Split | src/main.rs:59-62 | the four nibbles `c`, `x`, `y`, `d`, most significant first, each below 16 by its type; `CombineSplit` and `SplitCombine` show they determine the opcode and are determined by it |
| Opcode.MasksAreDivMod | src/main.rs:59-64 | on 16-bit words, each of the source's masks and shifts for `c`, `x`, `y`, `d` and `nnn` equals a 16-bit division and remainder by the powers of 16 that `Split` and `Address` use |
| Opcode.Address | src/main.rs:64 | `nnn` is a 12-bit value that, with the top nibble, rebuilds the opcode |
| Opcode.AddressIsLowNibbles | src/main.rs:59-64 | `nnn == x * 256 + y * 16 + d` |
| Opcode.DecodeNibbles | src/main.rs:66-71 | the source's ordered match: `0000` HALT, `00EE` RET, `2nnn` CALL with `nnn`, `8xy4` ADD with `x` and `y`, anything else unimplemented with its opcode |
| Opcode.Decode | src/main.rs:66-71 | the same table written on opcode ranges; `DecodeMatchesNibbles` proves it equals `DecodeNibbles` on every opcode |
| Opcode.DecodeMatchesNibbles | src/main.rs:66-71 | the range-based decoder agrees with the source's ordered nibble match on every opcode |
| Opcode.EncodeDecode | src/main.rs:66-71 | every opcode decodes to a canonical instruction that encodes back to the same opcode; decoding loses nothing |
| Opcode.DecodeEncode | src/main.rs:66-71 | every canonical instruction survives encoding then decoding |
| Opcode.DocumentedAddOpcodeIsUnimplemented | src/chip8.rs:14-18 | the documented ADD opcode `8xyF` is not dispatched; it is left unimplemented |
| Processor.New | src/main.rs:28-40 | a new processor has all registers, stack slots and memory bytes zero, with sp 0, pc 0 and state Halted |
| Processor.ReadOpcode | src/main.rs:115-120 | the fetch succeeds iff `pc + 1` is inside memory, returning the big-endian word of the two bytes; otherwise it fails at the first index outside memory |
| Processor.IncrementProgramCounter | src/main.rs:97-100 | succeeds iff `pc + 2 < 4096`, moving pc by exactly 2 and changing nothing else; otherwise it fails with the out-of-range counter |
| Processor.IncrementStackCounter | src/main.rs:102-108 | for every sp, succeeds iff the incremented pointer stays below 16, changing only sp; otherwise it is a stack overflow |
| Processor.DecrementStackCounter | src/main.rs:110-113 | fails with stack underflow iff sp is 0; otherwise it lowers sp by one and changes nothing else |
| Processor.OverflowingAdd | src/main.rs:129 | the wrapped byte plus 256 when the carry is set equals the true sum |
| Processor.Add | src/main.rs:124-137 | register x receives `(Vx + Vy) mod 256` unless x is 15; register 15 receives 1 iff `Vx + Vy > 255`, else 0, and wins when x is 15; together they hold the full sum; no other register and no other field changes |
| Processor.Call | src/main.rs:139-143 | fails with stack overflow iff `sp + 1 >= 16` (a stack-index error if sp is already out of range); otherwise it saves pc in `stack[sp]`, increments sp and jumps to nnn, changing nothing else |
| Processor.Ret | src/main.rs:145-148 | fails with stack underflow when sp is 0, without reading the stack; succeeds whenever `0 < sp <= 16`, lowering sp and resuming at the address in the popped slot |
| Processor.Dispatch | src/main.rs:67-71 | the match arms: HALT sets Halted, RET is `ret`, CALL is `call(nnn)`, ADD is `add(x, y)`, anything else fails with its opcode |
| Processor.Step | src/main.rs:55-73 | a step never writes memory; it succeeds only if `pc + 2 < 4096`; otherwise it fails with a fetch or counter bound error |
| Processor.LoadProgramAt | src/main.rs:79-87 | succeeds iff the location is above 0x1FF and the whole program fits in memory, with the specific error for each failure; then `memory[location + i] == program[i]`, every other byte and every other field unchanged |
| Processor.LoadProgram | src/main.rs:75-77 | succeeds iff the program fits in the 0xE00 bytes from 0x200, otherwise fails with the end address; on success byte i is at `0x200 + i`, every other byte and every other field unchanged |
| Processor.SetProgramCounter | src/main.rs:89-95 | succeeds iff the location fits in a `u16`, setting pc to exactly that value and nothing else; otherwise it fails with that location |
| Properties.Inv | src/main.rs:97-113 | the state invariant: pc inside memory, sp at most 15, and every saved return address inside memory |
| Properties.NewSatisfiesInv | src/main.rs:28-40 | a new processor satisfies the state invariant |
| Properties.StepDispatches | src/main.rs:55-73 | inside memory, a step runs the instruction at pc on the state whose pc is already advanced by 2 |
| Properties.FetchedMatchesSource | src/main.rs:56-71 | the instruction fetched at pc is the one the source's nibble match selects for the big-endian word there |
| Properties.StepHalt | src/main.rs:67 | HALT sets the state to Halted and leaves pc at the old value + 2 |
| Properties.StepUnimplemented | src/main.rs:71 | an opcode matching no pattern fails the step with that opcode |
| Properties.StepAdd | src/main.rs:70 | `8xy4` always succeeds and is `add(x, y)` on the advanced state |
| Properties.StepCall | src/main.rs:139-143 | a stepped CALL fails with stack overflow iff `sp + 1 >= 16`; otherwise the saved address is the CALL's own address + 2, sp grows by one and pc becomes nnn, with nothing else changed |
| Properties.StepRet | src/main.rs:145-148 | a stepped RET fails with stack underflow iff sp is 0; otherwise it lowers sp and resumes at `stack[sp - 1]` with nothing else changed |
| Properties.StepPreservesInv | src/main.rs:55-73 | every successful step keeps `pc < 4096`, `sp <= 15` and every saved return address inside memory |
| Properties.InvExcludesStackIndexErrors | src/main.rs:139-148 | under the invariant, no step fails by indexing the stack out of range (a fetch may still index memory out of range) |
| Properties.LoadPreservesInv | src/main.rs:79-87 | a successful load keeps the invariant |
| Properties.ProgramStartIsLowestLoadAddress | src/main.rs:84 | no load below 0x200 succeeds, and a load at 0x200 does |
| Properties.OddAddressesAreAccepted | src/main.rs:89-95 | odd addresses are accepted both as a program counter and as a CALL target |
| Properties.CallThenRet | src/main.rs:139-148 | a RET right after a successful CALL restores sp and pc; only the used stack slot differs |
| Properties.CallStepThenReturnStep | src/chip8.rs:25-29 | stepping a CALL whose target is a RET returns to the CALL's address + 2 with the original sp |
| Run.Execute | src/main.rs:47-53 | a run that stops has state Halted; one that runs out of fuel is still running; a run that does not fail leaves memory unchanged |
| Run.ContinueExecution | src/main.rs:47-53 | with no fuel, the result is the input marked Running; a stopped run is Halted; memory is unchanged unless a step fails |
| Run.RunProgram | src/main.rs:42-45 | running a program is continuing execution from pc = 0x200 |
| Run.ContinueExecutionLoop | src/main.rs:47-53 | the source's `while` loop over `step`, bounded by fuel, computes exactly the outcome of `ContinueExecution` |
| Run.ExecuteStep | src/main.rs:50-52 | each successful step of a running machine uses one unit of fuel |
| Run.ExecuteFault | src/main.rs:50-52 | a failing step ends the run with that step's error |
| Run.ExecuteHalt | src/main.rs:67 | a running HALT ends the run, stopped at pc + 2 |
| Run.ExecuteCall | src/main.rs:139-143 | a running CALL with room on the stack continues the run from the called address, with the return address pushed |
| Run.ExecuteRet | src/main.rs:145-148 | a running RET with a non-empty stack continues the run from the popped address |
| Run.ExecuteAdd | src/main.rs:124-137 | a running ADD continues the run from the state `add` produces, with pc advanced |
| Run.ExecuteSplit | src/main.rs:50-52 | running `a + b` steps is running `a` steps and then, if still running, `b` more |
| Run.ExecuteSettles | src/main.rs:50-52 | once a run has halted or failed, more fuel changes nothing |
| Run.ExecutePreservesInv | src/main.rs:47-53 | every state a run reaches satisfies the invariant |
| Run.SelfCallNests | src/main.rs:139-143 | a CALL to its own address nests one call per step, filling the next stack slots with its address + 2 and leaving lower slots alone |
| Run.SelfCallOverflows | src/main.rs:102-108 | a self-call fails with stack overflow on the call that would take sp to 16, whatever the fuel; from an empty stack only 15 calls nest |
| Scenarios.AddSecondRegisterToFirst | src/main.rs:171-183 | `8014` with V0 = 5 and V1 = 10 gives V0 = 15, V1 = 10 and flag 0 |
| Scenarios.AddFirstRegisterToSecond | src/main.rs:185-197 | `8104` gives V0 = 5 and V1 = 15 |
| Scenarios.OverflowsSetOverflowFlag | src/main.rs:199-212 | 255 + 1 wraps to 0 with the overflow flag set |
| Scenarios.HaltsOn0000 | src/main.rs:218-223 | on all-zero memory, continuing execution halts with pc = 2 |
| Scenarios.AddTwice | src/main.rs:229-249 | `load_program` places the six bytes at 0x200 and the following bytes stay zero |
| Scenarios.RunProgramStarts | src/main.rs:42-45 | running a freshly loaded program starts it running at 0x200 |
| Scenarios.CallZeroThenHalt | src/main.rs:255-265 | from 0x200 with an empty stack, `CALL 0x000` onto zero bytes takes two steps and stops at pc 2 with 0x202 in slot 0 and sp 1 |
| Scenarios.CallSetsProgramCounter | src/main.rs:255-265 | `CALL 0x000` reaches the zero HALT and stops at pc 2, with 0x202 saved on the stack |
| Scenarios.RetOnEmptyStackFaults | src/main.rs:267-277 | a RET fetched at 0x200 with an empty stack ends the run with stack underflow |
| Scenarios.StackUnderflowFails | src/main.rs:267-277 | a lone RET fails with stack underflow |
| Scenarios.StackOverflowFails | src/main.rs:279-290 | a CALL to itself at 0x200 fails with stack overflow for any fuel of at least 16 |
| Scenarios.AddTwiceReturns | src/main.rs:309-316 | the subroutine at 0x300 adds V1 into V0 twice, clears the flag and returns to the saved address in three steps |
| Scenarios.CallAddTwice | src/main.rs:303-316 | a call to the subroutine takes four steps and comes back after the call with V0 + 2 * V1 in V0 and sp restored |
| Scenarios.SampleProgramLayout | src/main.rs:298-316 | the sample's loads place the main program at 0x200 and the subroutine at 0x300, with V0 = 5 and V1 = 10 |
| Scenarios.SampleProgramComputes45 | src/main.rs:296-321 | the sample program halts after nine steps with 45 in register 0 |

## Left out

- The unbounded `while` loop of `continue_execution` and `run_program` runs under a fuel bound. An outcome `Exhausted` stands for "still running"; termination is not claimed.
- The state after a panic is not modelled. For example, a failing CALL has already written `stack[15]` when the stack-pointer assert fires. Every panic is a clean `Err` with no state.
- Debug-mode `u16` overflow on `pc += 2` and `sp += 1` is not modelled separately. It cannot happen before the memory or stack bound check fails: the fetch already needs `pc < 4096`, and `call` indexes `stack[sp]` before incrementing.
- `usize` overflow of `location + program.len()` in `load_program_at` is not modelled, because integers are unbounded here. Such a slice would be out of bounds anyway.
- Panic and `expect` message strings, and the empty `main`, are not part of the behaviour.
- The `CHIP8` trait is not modelled as a trait: its associated constants are plain constants and its three methods are functions.
- A display, keypad, timers and ROM loading from files do not exist in this code, so they are not modelled.
