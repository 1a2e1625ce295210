/** The CHIP-8 processor of src/main.rs: its state, the `CHIP8`
    instructions `add`/`call`/`ret`, the private counter helpers, program
    loading and the single `step`. Every Rust panic (`assert!`, `expect`,
    an out-of-range index or slice, `unimplemented!`) becomes an `Err`;
    no state after a panic is modelled. */
module Processor {
  import opened Wrappers
  import opened Chip8
  import opened Opcode

  /** Whether the run loop keeps stepping. */
  datatype ExecutionState = Running | Halted

  /** One constructor per way the source can panic. */
  datatype Error =
    | FetchOutOfBounds(index: nat)           // `memory[pc]` or `memory[pc + 1]` out of range
    | ProgramCounterOutOfBounds(pc: nat)     // the advanced pc is not below MEMORY_SIZE
    | StackOverflow                          // the incremented sp is not below STACK_SIZE
    | StackUnderflow                         // `ret` with sp == 0
    | StackIndexOutOfBounds(index: nat)      // `stack[sp]` with sp not below STACK_SIZE
    | UnimplementedOpcode(opcode: Word)      // no dispatch pattern matched
    | LoadIntoSystemMemory(location: nat)    // load address not above SYSTEM_MEMORY_END
    | LoadOutOfBounds(end: nat)              // the program would end past MEMORY_SIZE
    | ProgramCounterTooLarge(location: nat)  // `u16::try_from` failed

  /** The fields of `CPU`: `pc` is the program counter and `sp` the stack
      pointer (the index of the next free stack slot). */
  datatype CpuState = CpuState(
    registers: seq<Byte>,
    sp: Word,
    stack: seq<Word>,
    pc: Word,
    memory: seq<Byte>,
    state: ExecutionState)

  /** The Rust fixed-size arrays: 16 registers, 16 stack slots, 4096 bytes. */
  type Cpu = s: CpuState | |s.registers| == REGISTER_COUNT && |s.stack| == STACK_SIZE && |s.memory| == MEMORY_SIZE
    witness CpuState(seq(0x10, _ => 0), 0, seq(0x10, _ => 0), 0, seq(0x1000, _ => 0), Halted)

  /** `CPU::new`: everything zero, not running. */
  function New(): (c: Cpu)
    ensures forall i :: 0 <= i < REGISTER_COUNT ==> c.registers[i] == 0
    ensures forall i :: 0 <= i < STACK_SIZE ==> c.stack[i] == 0
    ensures forall a :: 0 <= a < MEMORY_SIZE ==> c.memory[a] == 0
    ensures c.sp == 0 && c.pc == 0 && c.state == Halted
  {
    CpuState(seq(REGISTER_COUNT, _ => 0), 0, seq(STACK_SIZE, _ => 0), 0, seq(MEMORY_SIZE, _ => 0), Halted)
  }

  /** `read_opcode`: the big-endian word at `pc`, or the first index that
      falls outside memory. */
  function ReadOpcode(c: Cpu): (r: Result<Word, Error>)
    ensures r.Ok? <==> c.pc + 1 < MEMORY_SIZE
    ensures r.Ok? ==> r.value / 0x100 == c.memory[c.pc] && r.value % 0x100 == c.memory[c.pc + 1]
    ensures r.Err? ==> r.error == FetchOutOfBounds(if c.pc < MEMORY_SIZE then c.pc + 1 else c.pc)
  {
    if c.pc >= MEMORY_SIZE then Err(FetchOutOfBounds(c.pc))
    else if c.pc + 1 >= MEMORY_SIZE then Err(FetchOutOfBounds(c.pc + 1))
    else Ok(Join(c.memory[c.pc], c.memory[c.pc + 1]))
  }

  /** `increment_program_counter`: advance by one instruction and insist the
      new counter still addresses memory. */
  function IncrementProgramCounter(c: Cpu): (r: Result<Cpu, Error>)
    ensures r.Ok? <==> c.pc + 2 < MEMORY_SIZE
    ensures r.Ok? ==> r.value.pc == c.pc + 2 && r.value == c.(pc := r.value.pc)
    ensures r.Err? ==> r.error == ProgramCounterOutOfBounds(c.pc + 2)
  {
    if c.pc + 2 < MEMORY_SIZE then Ok(c.(pc := c.pc + 2))
    else Err(ProgramCounterOutOfBounds(c.pc + 2))
  }

  /** `increment_stack_counter`: the incremented pointer must stay below
      STACK_SIZE, so the last slot can be written but never pushed past. */
  function IncrementStackCounter(c: Cpu): (r: Result<Cpu, Error>)
    ensures r.Ok? <==> c.sp + 1 < STACK_SIZE
    ensures r.Ok? ==> r.value.sp == c.sp + 1 && r.value == c.(sp := r.value.sp)
    ensures r.Err? ==> r.error == StackOverflow
  {
    if c.sp + 1 < STACK_SIZE then Ok(c.(sp := c.sp + 1)) else Err(StackOverflow)
  }

  /** `decrement_stack_counter`: fails on an empty stack. */
  function DecrementStackCounter(c: Cpu): (r: Result<Cpu, Error>)
    ensures r.Ok? <==> c.sp != 0
    ensures r.Ok? ==> r.value.sp + 1 == c.sp && r.value == c.(sp := r.value.sp)
    ensures r.Err? ==> r.error == StackUnderflow
  {
    if c.sp == 0 then Err(StackUnderflow) else Ok(c.(sp := c.sp - 1))
  }

  /** `u8::overflowing_add`: the wrapped sum and whether it wrapped. */
  function OverflowingAdd(a: Byte, b: Byte): (r: (Byte, bool))
    ensures r.0 + (if r.1 then 0x100 else 0) == a + b
  {
    if a + b < 0x100 then (a + b, false) else (a + b - 0x100, true)
  }

  /** `add` (ADD Vx, Vy): store the wrapped sum in register `x`, then write
      the carry into the overflow register, so the flag wins when `x` is 15. */
  function Add(c: Cpu, x: Nibble, y: Nibble): (r: Cpu)
    ensures x != OVERFLOW ==> r.registers[x] == (c.registers[x] as int + c.registers[y]) % 0x100
    ensures r.registers[OVERFLOW] == if c.registers[x] as int + c.registers[y] > 0xFF then 1 else 0
    ensures x != OVERFLOW ==> r.registers[x] as int + r.registers[OVERFLOW] as int * 0x100 == c.registers[x] as int + c.registers[y]
    ensures forall i :: 0 <= i < REGISTER_COUNT && i != x && i != OVERFLOW ==> r.registers[i] == c.registers[i]
    ensures r == c.(registers := r.registers)
  {
    var (result, overflow) := OverflowingAdd(c.registers[x], c.registers[y]);
    var registers := c.registers[x := result];
    c.(registers := registers[OVERFLOW := if overflow then 1 else 0])
  }

  /** `call` (CALL nnn): save the current counter in the free slot, bump the
      stack pointer, jump to `nnn`. */
  function Call(c: Cpu, nnn: Word): (r: Result<Cpu, Error>)
    ensures c.sp >= STACK_SIZE ==> r == Err(StackIndexOutOfBounds(c.sp))
    ensures c.sp < STACK_SIZE ==> (r.Err? <==> c.sp + 1 >= STACK_SIZE)
    ensures r.Err? && c.sp < STACK_SIZE ==> r.error == StackOverflow
    ensures r.Ok? ==> && r.value.stack == c.stack[c.sp := c.pc]
                      && r.value.sp == c.sp + 1
                      && r.value.pc == nnn
                      && r.value == c.(stack := r.value.stack, sp := r.value.sp, pc := r.value.pc)
  {
    if c.sp >= STACK_SIZE then Err(StackIndexOutOfBounds(c.sp))
    else
      var pushed := c.(stack := c.stack[c.sp := c.pc]);
      var bumped :- IncrementStackCounter(pushed);
      Ok(bumped.(pc := nnn))
  }

  /** `ret` (RET): pop the stack and continue at the address found there.
      An empty stack fails before any slot is read. */
  function Ret(c: Cpu): (r: Result<Cpu, Error>)
    ensures c.sp == 0 ==> r == Err(StackUnderflow)
    ensures 0 < c.sp <= STACK_SIZE ==> r.Ok?
    ensures c.sp > STACK_SIZE ==> r == Err(StackIndexOutOfBounds(c.sp - 1))
    ensures r.Ok? ==> && r.value.sp + 1 == c.sp
                      && r.value.pc == c.stack[r.value.sp]
                      && r.value == c.(sp := r.value.sp, pc := r.value.pc)
  {
    var popped :- DecrementStackCounter(c);
    if popped.sp >= STACK_SIZE then Err(StackIndexOutOfBounds(popped.sp))
    else Ok(popped.(pc := popped.stack[popped.sp]))
  }

  /** Carries out a decoded instruction on a state whose counter has already
      been advanced. */
  function Dispatch(i: Instruction, c: Cpu): Result<Cpu, Error>
  {
    match i
    case HaltOp => Ok(c.(state := Halted))
    case RetOp => Ret(c)
    case CallOp(nnn) => Call(c, nnn)
    case AddOp(x, y) => Ok(Add(c, x, y))
    case UnknownOp(op) => Err(UnimplementedOpcode(op))
  }

  /** `step`: fetch, advance the counter, decode, dispatch. A step never
      writes memory, and it only succeeds when the instruction after the
      fetched one still lies inside memory. */
  function Step(c: Cpu): (r: Result<Cpu, Error>)
    ensures r.Ok? ==> c.pc + 2 < MEMORY_SIZE
    ensures r.Ok? ==> r.value.memory == c.memory
    ensures c.pc + 2 >= MEMORY_SIZE ==> r.Err? && (r.error.FetchOutOfBounds? || r.error.ProgramCounterOutOfBounds?)
  {
    var op :- ReadOpcode(c);
    var advanced :- IncrementProgramCounter(c);
    Dispatch(Decode(op), advanced)
  }

  /** `load_program_at`: copy `program` into memory at `location`, which must
      lie above the reserved system region, with the whole copy in memory. */
  function LoadProgramAt(c: Cpu, location: nat, program: seq<Byte>): (r: Result<Cpu, Error>)
    ensures r.Ok? <==> SYSTEM_MEMORY_END < location && location + |program| <= MEMORY_SIZE
    ensures location <= SYSTEM_MEMORY_END ==> r == Err(LoadIntoSystemMemory(location))
    ensures SYSTEM_MEMORY_END < location && MEMORY_SIZE < location + |program| ==> r == Err(LoadOutOfBounds(location + |program|))
    ensures r.Ok? ==> forall a :: location <= a < location + |program| ==> r.value.memory[a] == program[a - location]
    ensures r.Ok? ==> forall a :: 0 <= a < MEMORY_SIZE && !(location <= a < location + |program|) ==> r.value.memory[a] == c.memory[a]
    ensures r.Ok? ==> r.value == c.(memory := r.value.memory)
  {
    if location <= SYSTEM_MEMORY_END then Err(LoadIntoSystemMemory(location))
    else if location + |program| > MEMORY_SIZE then Err(LoadOutOfBounds(location + |program|))
    else Ok(c.(memory := c.memory[..location] + program + c.memory[location + |program|..]))
  }

  /** `load_program`: load at the start of program memory. */
  function LoadProgram(c: Cpu, program: seq<Byte>): (r: Result<Cpu, Error>)
    ensures r.Ok? <==> |program| <= MEMORY_SIZE - PROGRAM_MEMORY_START
    ensures r.Err? ==> r.error == LoadOutOfBounds(PROGRAM_MEMORY_START + |program|)
    ensures r.Ok? ==> forall i :: 0 <= i < |program| ==> r.value.memory[PROGRAM_MEMORY_START + i] == program[i]
    ensures r.Ok? ==> forall a :: 0 <= a < MEMORY_SIZE && !(PROGRAM_MEMORY_START <= a < PROGRAM_MEMORY_START + |program|) ==> r.value.memory[a] == c.memory[a]
    ensures r.Ok? ==> r.value == c.(memory := r.value.memory)
  {
    LoadProgramAt(c, PROGRAM_MEMORY_START, program)
  }

  /** `set_program_counter`: any value that fits in a `u16` is accepted as
      is; it is not checked against the memory size or for alignment. */
  function SetProgramCounter(c: Cpu, location: nat): (r: Result<Cpu, Error>)
    ensures r.Ok? <==> location <= WORD_MAX
    ensures r.Err? ==> r.error == ProgramCounterTooLarge(location)
    ensures r.Ok? ==> r.value.pc == location && r.value == c.(pc := r.value.pc)
  {
    if location <= WORD_MAX then Ok(c.(pc := location)) else Err(ProgramCounterTooLarge(location))
  }
}
