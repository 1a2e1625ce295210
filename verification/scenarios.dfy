/** The unit tests of src/main.rs, restated as lemmas about the model. Where
    a test runs the machine, the lemma holds for every fuel bound large
    enough to reach the end of the run. */
module Scenarios {
  import opened Chip8
  import opened Opcode
  import opened Processor
  import opened Properties
  import opened Run

  /** A fresh processor with one instruction at address 0 and the first two
      registers preset, as the adder tests build it. */
  function AdderSetup(hi: Byte, lo: Byte, r0: Byte, r1: Byte): Cpu
  {
    var c := New();
    c.(memory := c.memory[0 := hi][1 := lo], registers := c.registers[0 := r0][1 := r1])
  }

  /** `0x8014` adds register 1 into register 0 and leaves register 1 alone. */
  lemma AddSecondRegisterToFirst()
    ensures Step(AdderSetup(0x80, 0x14, 5, 10)).Ok?
    ensures Step(AdderSetup(0x80, 0x14, 5, 10)).value.registers[0] == 15
    ensures Step(AdderSetup(0x80, 0x14, 5, 10)).value.registers[1] == 10
    ensures Step(AdderSetup(0x80, 0x14, 5, 10)).value.registers[OVERFLOW] == 0
  {
    var c := AdderSetup(0x80, 0x14, 5, 10);
    assert Fetched(c) == AddOp(0, 1);
    StepAdd(c);
  }

  /** `0x8104` adds register 0 into register 1 and leaves register 0 alone. */
  lemma AddFirstRegisterToSecond()
    ensures Step(AdderSetup(0x81, 0x04, 5, 10)).Ok?
    ensures Step(AdderSetup(0x81, 0x04, 5, 10)).value.registers[0] == 5
    ensures Step(AdderSetup(0x81, 0x04, 5, 10)).value.registers[1] == 15
  {
    var c := AdderSetup(0x81, 0x04, 5, 10);
    assert Fetched(c) == AddOp(1, 0);
    StepAdd(c);
  }

  /** 255 + 1 wraps to 0 and raises the overflow flag. */
  lemma OverflowsSetOverflowFlag()
    ensures Step(AdderSetup(0x80, 0x14, 0xFF, 1)).Ok?
    ensures Step(AdderSetup(0x80, 0x14, 0xFF, 1)).value.registers[0] == 0
    ensures Step(AdderSetup(0x80, 0x14, 0xFF, 1)).value.registers[1] == 1
    ensures Step(AdderSetup(0x80, 0x14, 0xFF, 1)).value.registers[OVERFLOW] == 1
  {
    var c := AdderSetup(0x80, 0x14, 0xFF, 1);
    assert Fetched(c) == AddOp(0, 1);
    StepAdd(c);
  }

  /** On all-zero memory the machine halts after one step, at address 2. */
  lemma {:induction false} HaltsOn0000(rest: nat)
    ensures ContinueExecution(New(), rest + 1).Stopped?
    ensures ContinueExecution(New(), rest + 1).cpu.pc == 2
  {
    var c: Cpu := New().(state := Running);
    assert ContinueExecution(New(), rest + 1) == Execute(c, rest + 1);
    assert c.memory[0] == 0 && c.memory[1] == 0;
    ExecuteHalt(c, rest);
  }

  /** `load_program` places the bytes at 0x200 and leaves the byte after them zero. */
  lemma AddTwice()
    ensures LoadProgram(New(), [0x80, 0x14, 0x80, 0x14, 0x00, 0xEE]).Ok?
    ensures LoadProgram(New(), [0x80, 0x14, 0x80, 0x14, 0x00, 0xEE]).value.memory[0x200..0x208]
            == [0x80, 0x14, 0x80, 0x14, 0x00, 0xEE, 0x00, 0x00]
  {
    var m := LoadProgram(New(), [0x80, 0x14, 0x80, 0x14, 0x00, 0xEE]).value.memory;
    assert m[0x206] == 0 && m[0x207] == 0;
  }

  /** A program loaded at 0x200 and started there, with the machine fresh. */
  function Started(program: seq<Byte>): Cpu
    requires |program| <= MEMORY_SIZE - PROGRAM_MEMORY_START
  {
    LoadProgram(New(), program).value.(pc := PROGRAM_MEMORY_START, state := Running)
  }

  /** `RunProgram` on a freshly loaded program is the run from `Started`. */
  lemma RunProgramStarts(program: seq<Byte>, fuel: nat)
    requires |program| <= MEMORY_SIZE - PROGRAM_MEMORY_START
    ensures RunProgram(LoadProgram(New(), program).value, fuel) == Execute(Started(program), fuel)
  {
  }

  /** From 0x200 with an empty stack, `CALL 0x000` onto a zero HALT takes
      two steps and stops at address 2 with 0x202 saved. */
  lemma {:induction false} CallZeroThenHalt(c: Cpu, rest: nat)
    requires c.state == Running && c.pc == PROGRAM_MEMORY_START && c.sp == 0
    requires c.memory[0x200] == 0x20 && c.memory[0x201] == 0x00
    requires c.memory[0] == 0 && c.memory[1] == 0
    ensures Execute(c, rest + 2) == Stopped(c.(stack := c.stack[0 := 0x202], sp := 1, pc := 2, state := Halted))
  {
    assert Fetched(c) == CallOp(0);
    ExecuteCall(c, rest + 1);
    var called: Cpu := c.(stack := c.stack[0 := 0x202], sp := 1, pc := 0);
    ExecuteHalt(called, rest);
  }

  /** `CALL 0x000` jumps into the zeroed system memory, whose HALT stops the
      machine at address 2 with the return address still on the stack. */
  lemma {:induction false} CallSetsProgramCounter(rest: nat)
    ensures RunProgram(LoadProgram(New(), [0x20, 0x00]).value, rest + 2).Stopped?
    ensures RunProgram(LoadProgram(New(), [0x20, 0x00]).value, rest + 2).cpu.pc == 0x002
    ensures RunProgram(LoadProgram(New(), [0x20, 0x00]).value, rest + 2).cpu.sp == 1
    ensures RunProgram(LoadProgram(New(), [0x20, 0x00]).value, rest + 2).cpu.stack[0] == 0x202
  {
    var c := Started([0x20, 0x00]);
    RunProgramStarts([0x20, 0x00], rest + 2);
    CallZeroThenHalt(c, rest);
  }

  /** A RET fetched with an empty stack ends the run at once. */
  lemma {:induction false} RetOnEmptyStackFaults(c: Cpu, rest: nat)
    requires c.state == Running && c.pc == PROGRAM_MEMORY_START && c.sp == 0
    requires c.memory[0x200] == 0x00 && c.memory[0x201] == 0xEE
    ensures Execute(c, rest + 1) == Faulted(StackUnderflow)
  {
    assert Fetched(c) == RetOp;
    StepRet(c);
    ExecuteFault(c, rest);
  }

  /** A RET with nothing on the stack fails. */
  lemma {:induction false} StackUnderflowFails(rest: nat)
    ensures RunProgram(LoadProgram(New(), [0x00, 0xEE]).value, rest + 1) == Faulted(StackUnderflow)
  {
    var c := Started([0x00, 0xEE]);
    RunProgramStarts([0x00, 0xEE], rest + 1);
    assert c.state == Running && c.pc == PROGRAM_MEMORY_START && c.sp == 0;
    assert c.memory[PROGRAM_MEMORY_START + 1] == 0xEE;
    RetOnEmptyStackFaults(c, rest);
  }

  /** `CALL 0x200` at 0x200 calls itself until the 16th call overflows. */
  lemma StackOverflowFails(fuel: nat)
    requires fuel >= STACK_SIZE
    ensures RunProgram(LoadProgram(New(), [0x22, 0x00]).value, fuel) == Faulted(StackOverflow)
  {
    var c := Started([0x22, 0x00]);
    RunProgramStarts([0x22, 0x00], fuel);
    assert Fetched(c) == CallOp(0x200);
    SelfCallOverflows(c, fuel);
  }

  /** The bytes of the subroutine `ADD V0, V1; ADD V0, V1; RET` at 0x300. */
  predicate AddTwiceAt300(m: seq<Byte>)
    requires |m| == MEMORY_SIZE
  {
    && m[0x300] == 0x80 && m[0x301] == 0x14
    && m[0x302] == 0x80 && m[0x303] == 0x14
    && m[0x304] == 0x00 && m[0x305] == 0xEE
  }

  /** Entered at 0x300, the add-twice subroutine takes three steps: register
      1 is added twice into register 0, the flag is cleared, and the return
      pops the saved address. */
  lemma {:induction false} AddTwiceReturns(s: Cpu, rest: nat) returns (t: Cpu)
    requires s.state == Running && s.pc == 0x300 && AddTwiceAt300(s.memory)
    requires 0 < s.sp <= STACK_SIZE
    requires s.registers[0] as int + s.registers[1] as int * 2 < 0x100
    ensures Execute(s, rest + 3) == Execute(t, rest)
    ensures t.registers[0] == s.registers[0] as int + s.registers[1] as int * 2
    ensures t.registers[1] == s.registers[1] && t.registers[OVERFLOW] == 0
    ensures t.sp == s.sp - 1 && t.pc == s.stack[s.sp - 1]
    ensures t.stack == s.stack && t.memory == s.memory && t.state == Running
  {
    assert Join(0x80, 0x14) == 0x8014;
    assert Fetched(s) == AddOp(0, 1);
    ExecuteAdd(s, rest + 2);
    var s1 := Add(s, 0, 1).(pc := s.pc + 2);

    assert Fetched(s1) == AddOp(0, 1);
    ExecuteAdd(s1, rest + 1);
    var s2 := Add(s1, 0, 1).(pc := s1.pc + 2);

    assert Join(0x00, 0xEE) == Encode(RetOp);
    DecodeEncode(RetOp);
    assert Fetched(s2) == RetOp;
    ExecuteRet(s2, rest);
    t := s2.(sp := s2.sp - 1, pc := s2.stack[s2.sp - 1]);
  }

  /** `CALL 0x300` into the add-twice subroutine takes four steps and comes
      back to the instruction after the call with register 1 added twice
      into register 0, the flag cleared and the stack pointer restored. */
  lemma {:induction false} CallAddTwice(c: Cpu, rest: nat) returns (t: Cpu)
    requires c.state == Running && c.pc + 2 < MEMORY_SIZE && Fetched(c) == CallOp(0x300)
    requires c.sp + 1 < STACK_SIZE && AddTwiceAt300(c.memory)
    requires c.registers[0] as int + c.registers[1] as int * 2 < 0x100
    ensures Execute(c, rest + 4) == Execute(t, rest)
    ensures t.registers[0] == c.registers[0] as int + c.registers[1] as int * 2
    ensures t.registers[1] == c.registers[1]
    ensures t.sp == c.sp && t.pc == c.pc + 2
    ensures t.memory == c.memory && t.state == Running
  {
    ExecuteCall(c, rest + 3);
    var called := c.(stack := c.stack[c.sp := c.pc + 2], sp := c.sp + 1, pc := 0x300);
    t := AddTwiceReturns(called, rest);
  }

  /** The machine of the sample-program test before it is run: registers 0
      and 1 hold 5 and 10, `CALL 0x300; CALL 0x300; HALT` is loaded at 0x200
      and the add-twice subroutine at 0x300. */
  function SampleProgram(): Cpu
  {
    var c := New();
    var preset := c.(registers := c.registers[0 := 5][1 := 10]);
    var main := LoadProgram(preset, [0x23, 0x00, 0x23, 0x00, 0x00, 0x00]).value;
    LoadProgramAt(main, 0x300, [0x80, 0x14, 0x80, 0x14, 0x00, 0xEE]).value
  }

  /** Where the sample program's loads put its bytes. */
  lemma SampleProgramLayout()
    ensures SampleProgram().registers[0] == 5 && SampleProgram().registers[1] == 10
    ensures SampleProgram().sp == 0
    ensures SampleProgram().memory[0x200] == 0x23 && SampleProgram().memory[0x201] == 0x00
    ensures SampleProgram().memory[0x202] == 0x23 && SampleProgram().memory[0x203] == 0x00
    ensures SampleProgram().memory[0x204] == 0x00 && SampleProgram().memory[0x205] == 0x00
    ensures AddTwiceAt300(SampleProgram().memory)
  {
  }

  /** Running the sample program halts after nine steps with 5 + 4 * 10 = 45
      in register 0. */
  lemma {:induction false} SampleProgramComputes45(rest: nat)
    ensures RunProgram(SampleProgram(), rest + 9).Stopped?
    ensures RunProgram(SampleProgram(), rest + 9).cpu.registers[0] == 45
  {
    var loaded := SampleProgram();
    SampleProgramLayout();
    var c: Cpu := loaded.(pc := PROGRAM_MEMORY_START, state := Running);
    assert RunProgram(loaded, rest + 9) == Execute(c, rest + 9);
    assert Join(0x23, 0x00) == 0x2300;
    assert Fetched(c) == CallOp(0x300);
    var once := CallAddTwice(c, rest + 5);
    assert Fetched(once) == CallOp(0x300);
    var twice := CallAddTwice(once, rest + 1);
    assert twice.pc == 0x204 && twice.memory == c.memory;
    assert twice.memory[0x204] == 0x00 && twice.memory[0x205] == 0x00;
    ExecuteHalt(twice, rest);
    assert Execute(c, rest + 9) == Execute(c, (rest + 5) + 4);
    assert Execute(once, rest + 5) == Execute(once, (rest + 1) + 4);
    assert twice.registers[0] == 45;
    assert RunProgram(loaded, rest + 9) == Stopped(twice.(pc := twice.pc + 2, state := Halted));
  }
}
