/** Properties of `step` that relate several operations: what each
    instruction does when stepped, the invariant every successful step keeps,
    and the CALL/RET round trip. */
module Properties {
  import opened Wrappers
  import opened Chip8
  import opened Opcode
  import opened Processor

  /** The instruction stored at the program counter. */
  function Fetched(c: Cpu): Instruction
    requires c.pc + 1 < MEMORY_SIZE
  {
    Decode(Join(c.memory[c.pc], c.memory[c.pc + 1]))
  }

  /** The state invariant kept by `step`: the counter addresses memory, the
      stack pointer leaves the last slot free, and every saved return
      address addresses memory. */
  predicate Inv(c: Cpu)
  {
    && c.pc < MEMORY_SIZE
    && c.sp < STACK_SIZE
    && forall i :: 0 <= i < c.sp ==> c.stack[i] < MEMORY_SIZE
  }

  lemma NewSatisfiesInv()
    ensures Inv(New())
  {
  }

  /** Inside memory, a step carries out the fetched instruction on the state
      whose counter has already moved past it. */
  lemma StepDispatches(c: Cpu)
    requires c.pc + 2 < MEMORY_SIZE
    ensures Step(c) == Dispatch(Fetched(c), c.(pc := c.pc + 2))
  {
  }

  /** The fetched instruction is the one the source's nibble match selects. */
  lemma FetchedMatchesSource(c: Cpu)
    requires c.pc + 1 < MEMORY_SIZE
    ensures Fetched(c) == DecodeNibbles(Join(c.memory[c.pc], c.memory[c.pc + 1]))
  {
    DecodeMatchesNibbles(Join(c.memory[c.pc], c.memory[c.pc + 1]));
  }

  /** HALT advances the counter past itself and stops the machine. */
  lemma StepHalt(c: Cpu)
    requires c.pc + 2 < MEMORY_SIZE && c.memory[c.pc] == 0 && c.memory[c.pc + 1] == 0
    ensures Step(c) == Ok(c.(pc := c.pc + 2, state := Halted))
  {
    assert Fetched(c) == HaltOp;
    StepDispatches(c);
  }

  /** Any opcode outside the dispatch table stops the step with that opcode. */
  lemma StepUnimplemented(c: Cpu)
    requires c.pc + 2 < MEMORY_SIZE && Fetched(c).UnknownOp?
    ensures Step(c) == Err(UnimplementedOpcode(Join(c.memory[c.pc], c.memory[c.pc + 1])))
  {
    StepDispatches(c);
  }

  /** ADD changes nothing but the registers, and the counter by one instruction. */
  lemma StepAdd(c: Cpu)
    requires c.pc + 2 < MEMORY_SIZE && Fetched(c).AddOp?
    ensures Step(c).Ok?
    ensures Step(c).value == Add(c, Fetched(c).x, Fetched(c).y).(pc := c.pc + 2)
  {
    StepDispatches(c);
  }

  /** CALL saves the address of the instruction after the call, and fails
      exactly when the stack pointer would reach STACK_SIZE. */
  lemma StepCall(c: Cpu)
    requires c.pc + 2 < MEMORY_SIZE && Fetched(c).CallOp? && c.sp < STACK_SIZE
    ensures Step(c).Err? <==> c.sp + 1 >= STACK_SIZE
    ensures Step(c).Err? ==> Step(c).error == StackOverflow
    ensures Step(c).Ok? ==> && Step(c).value.stack[c.sp] == c.pc + 2
                            && Step(c).value.sp == c.sp + 1
                            && Step(c).value.pc == Fetched(c).nnn
                            && Step(c).value == c.(stack := c.stack[c.sp := c.pc + 2], sp := c.sp + 1, pc := Fetched(c).nnn)
  {
    StepDispatches(c);
  }

  /** RET fails on an empty stack and otherwise resumes at the top slot. */
  lemma StepRet(c: Cpu)
    requires c.pc + 2 < MEMORY_SIZE && Fetched(c) == RetOp && c.sp <= STACK_SIZE
    ensures Step(c).Err? <==> c.sp == 0
    ensures Step(c).Err? ==> Step(c).error == StackUnderflow
    ensures Step(c).Ok? ==> && Step(c).value.sp == c.sp - 1
                            && Step(c).value.pc == c.stack[c.sp - 1]
                            && Step(c).value == c.(sp := c.sp - 1, pc := c.stack[c.sp - 1])
  {
    StepDispatches(c);
  }

  /** A successful step keeps the invariant. */
  lemma {:induction false} StepPreservesInv(c: Cpu)
    requires Inv(c)
    ensures Step(c).Ok? ==> Inv(Step(c).value)
  {
    if Step(c).Err? {
      return;
    }
    var next := Step(c).value;
    match Fetched(c)
    case CallOp(nnn) =>
      assert next.stack == c.stack[c.sp := c.pc + 2];
      assert nnn < 0x1000;
    case RetOp =>
      assert next.pc == c.stack[c.sp - 1];
    case HaltOp =>
    case AddOp(_, _) =>
    case UnknownOp(_) =>
  }

  /** Under the invariant the stack is never indexed out of range. */
  lemma InvExcludesStackIndexErrors(c: Cpu)
    requires Inv(c)
    ensures Step(c).Err? ==> !Step(c).error.StackIndexOutOfBounds?
  {
  }

  /** Loading a program touches memory only, so the invariant survives it. */
  lemma LoadPreservesInv(c: Cpu, location: nat, program: seq<Byte>)
    requires Inv(c) && LoadProgramAt(c, location, program).Ok?
    ensures Inv(LoadProgramAt(c, location, program).value)
  {
  }

  /** PROGRAM_MEMORY_START is the lowest address a load accepts: nothing
      below it loads, and an empty program loads there. */
  lemma ProgramStartIsLowestLoadAddress(c: Cpu, location: nat, program: seq<Byte>)
    ensures LoadProgramAt(c, PROGRAM_MEMORY_START, []).Ok?
    ensures location < PROGRAM_MEMORY_START ==> LoadProgramAt(c, location, program).Err?
  {
  }

  /** Neither jumps nor `set_program_counter` ask for an even address. */
  lemma OddAddressesAreAccepted(c: Cpu, location: nat)
    requires location % 2 == 1 && location < MEMORY_SIZE && c.sp + 1 < STACK_SIZE
    ensures SetProgramCounter(c, location) == Ok(c.(pc := location))
    ensures Call(c, location).Ok? && Call(c, location).value.pc == location
  {
  }

  /** A RET right after a successful CALL restores the stack pointer and the
      counter; only the slot the call used keeps the saved address. */
  lemma CallThenRet(c: Cpu, nnn: Word)
    requires Call(c, nnn).Ok?
    ensures Ret(Call(c, nnn).value) == Ok(c.(stack := c.stack[c.sp := c.pc]))
  {
  }

  /** Stepping a CALL whose target is a RET comes back to the instruction
      after the call, with the stack pointer it started from. */
  lemma {:induction false} CallStepThenReturnStep(c: Cpu)
    requires c.pc + 2 < MEMORY_SIZE && Fetched(c).CallOp? && Step(c).Ok?
    requires Fetched(c).nnn + 2 < MEMORY_SIZE
    requires c.memory[Fetched(c).nnn] == 0x00 && c.memory[Fetched(c).nnn + 1] == 0xEE
    ensures Step(Step(c).value) == Ok(c.(stack := c.stack[c.sp := c.pc + 2], pc := c.pc + 2))
  {
    var nnn := Fetched(c).nnn;
    StepCall(c);
    var called := Step(c).value;
    assert called == c.(stack := c.stack[c.sp := c.pc + 2], sp := c.sp + 1, pc := nnn);
    assert Join(0x00, 0xEE) == Encode(RetOp);
    DecodeEncode(RetOp);
    assert Fetched(called) == RetOp;
    StepRet(called);
  }
}
