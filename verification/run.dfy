/** The run loop of src/main.rs: `continue_execution` marks the machine
    running and steps until it halts, and `run_program` first points the
    counter at program memory. The source loop is unbounded; here it takes
    a `fuel` bound on the number of steps. */
module Run {
  import opened Wrappers
  import opened Chip8
  import opened Opcode
  import opened Processor
  import opened Properties

  /** How a bounded run ended: the machine halted, a step failed, or the
      fuel ran out with the machine still running. */
  datatype Outcome =
    | Stopped(cpu: Cpu)
    | Faulted(error: Error)
    | Exhausted(cpu: Cpu)

  /** The body of the `while` loop: step until halted, at most `fuel` times.
      Running never writes memory. */
  function Execute(c: Cpu, fuel: nat): (r: Outcome)
    ensures r.Stopped? ==> r.cpu.state == Halted
    ensures r.Exhausted? ==> r.cpu.state != Halted
    ensures !r.Faulted? ==> r.cpu.memory == c.memory
    decreases fuel
  {
    if c.state == Halted then Stopped(c)
    else if fuel == 0 then Exhausted(c)
    else
      match Step(c)
      case Err(e) => Faulted(e)
      case Ok(next) => Execute(next, fuel - 1)
  }

  /** `continue_execution`: set the state to running, then loop. */
  function ContinueExecution(c: Cpu, fuel: nat): (r: Outcome)
    ensures fuel == 0 ==> r == Exhausted(c.(state := Running))
    ensures r.Stopped? ==> r.cpu.state == Halted
    ensures !r.Faulted? ==> r.cpu.memory == c.memory
  {
    Execute(c.(state := Running), fuel)
  }

  /** `run_program`: start at PROGRAM_MEMORY_START and continue. */
  function RunProgram(c: Cpu, fuel: nat): (r: Outcome)
    ensures r == ContinueExecution(c.(pc := PROGRAM_MEMORY_START), fuel)
  {
    match SetProgramCounter(c, PROGRAM_MEMORY_START)
    case Ok(started) => ContinueExecution(started, fuel)
    case Err(e) => Faulted(e)
  }

  /** `continue_execution` as the source writes it, a `while` loop over
      `step`, bounded by `fuel`; it agrees with `ContinueExecution`. */
  method ContinueExecutionLoop(c: Cpu, fuel: nat) returns (r: Outcome)
    ensures r == ContinueExecution(c, fuel)
  {
    var cpu: Cpu := c.(state := Running);
    var left := fuel;
    while cpu.state != Halted
      invariant Execute(cpu, left) == ContinueExecution(c, fuel)
      decreases left
    {
      if left == 0 {
        return Exhausted(cpu);
      }
      var stepped := Step(cpu);
      if stepped.Err? {
        return Faulted(stepped.error);
      }
      cpu := stepped.value;
      left := left - 1;
    }
    return Stopped(cpu);
  }

  /** One successful step of a running machine uses one unit of fuel. */
  lemma ExecuteStep(c: Cpu, fuel: nat)
    requires c.state != Halted && fuel > 0 && Step(c).Ok?
    ensures Execute(c, fuel) == Execute(Step(c).value, fuel - 1)
  {
  }

  /** A running step that fails ends the run with its error. */
  lemma ExecuteFault(c: Cpu, rest: nat)
    requires c.state == Running && Step(c).Err?
    ensures Execute(c, rest + 1) == Faulted(Step(c).error)
  {
  }

  /** A running HALT stops the run with the counter past it. */
  lemma ExecuteHalt(c: Cpu, rest: nat)
    requires c.state == Running && c.pc + 2 < MEMORY_SIZE && c.memory[c.pc] == 0 && c.memory[c.pc + 1] == 0
    ensures Execute(c, rest + 1) == Stopped(c.(pc := c.pc + 2, state := Halted))
  {
    StepHalt(c);
    ExecuteStep(c, rest + 1);
  }

  /** A running CALL with room on the stack uses one unit of fuel. */
  lemma ExecuteCall(c: Cpu, rest: nat)
    requires c.state == Running && c.pc + 2 < MEMORY_SIZE && Fetched(c).CallOp?
    requires c.sp + 1 < STACK_SIZE
    ensures Execute(c, rest + 1) == Execute(c.(stack := c.stack[c.sp := c.pc + 2], sp := c.sp + 1, pc := Fetched(c).nnn), rest)
  {
    StepCall(c);
    ExecuteStep(c, rest + 1);
  }

  /** A running RET on a non-empty stack uses one unit of fuel. */
  lemma ExecuteRet(c: Cpu, rest: nat)
    requires c.state == Running && c.pc + 2 < MEMORY_SIZE && Fetched(c) == RetOp
    requires 0 < c.sp <= STACK_SIZE
    ensures Execute(c, rest + 1) == Execute(c.(sp := c.sp - 1, pc := c.stack[c.sp - 1]), rest)
  {
    StepRet(c);
    ExecuteStep(c, rest + 1);
  }

  /** A running ADD uses one unit of fuel. */
  lemma ExecuteAdd(c: Cpu, rest: nat)
    requires c.state == Running && c.pc + 2 < MEMORY_SIZE && Fetched(c).AddOp?
    ensures Execute(c, rest + 1) == Execute(Add(c, Fetched(c).x, Fetched(c).y).(pc := c.pc + 2), rest)
  {
    StepAdd(c);
    ExecuteStep(c, rest + 1);
  }

  /** Running `a + b` steps is running `a` steps and then, if the machine is
      still going, `b` more. */
  lemma {:induction false} ExecuteSplit(c: Cpu, a: nat, b: nat)
    ensures Execute(c, a + b) == if Execute(c, a).Exhausted? then Execute(Execute(c, a).cpu, b) else Execute(c, a)
    decreases a
  {
    if c.state != Halted && a > 0 {
      match Step(c)
      case Err(_) =>
      case Ok(next) =>
        ExecuteSplit(next, a - 1, b);
    }
  }

  /** Once a run has halted or failed, more fuel does not change its outcome. */
  lemma {:induction false} ExecuteSettles(c: Cpu, fuel: nat, more: nat)
    requires !Execute(c, fuel).Exhausted?
    ensures Execute(c, fuel + more) == Execute(c, fuel)
  {
    ExecuteSplit(c, fuel, more);
  }

  /** Every state a run reaches keeps the invariant. */
  lemma {:induction false} ExecutePreservesInv(c: Cpu, fuel: nat)
    requires Inv(c)
    ensures !Execute(c, fuel).Faulted? ==> Inv(Execute(c, fuel).cpu)
    decreases fuel
  {
    if c.state != Halted && fuel > 0 {
      match Step(c)
      case Err(_) =>
      case Ok(next) =>
        StepPreservesInv(c);
        ExecutePreservesInv(next, fuel - 1);
    }
  }

  /** An instruction that calls its own address nests one call per step:
      after `k` steps each new slot holds the address after the call. */
  lemma {:induction false} SelfCallNests(c: Cpu, k: nat)
    requires c.state == Running && c.pc + 2 < MEMORY_SIZE && Fetched(c) == CallOp(c.pc)
    requires c.sp + k < STACK_SIZE
    ensures Execute(c, k).Exhausted?
    ensures Execute(c, k).cpu.sp == c.sp + k
    ensures Execute(c, k).cpu.pc == c.pc && Execute(c, k).cpu.memory == c.memory
    ensures Execute(c, k).cpu.state == Running
    ensures forall i :: c.sp <= i < c.sp + k ==> Execute(c, k).cpu.stack[i] == c.pc + 2
    ensures forall i :: 0 <= i < c.sp ==> Execute(c, k).cpu.stack[i] == c.stack[i]
    decreases k
  {
    if k > 0 {
      StepCall(c);
      var next := Step(c).value;
      assert Fetched(next) == Fetched(c);
      SelfCallNests(next, k - 1);
      assert next.stack[c.sp] == c.pc + 2;
    }
  }

  /** A self-calling instruction keeps nesting until the call that would
      take the stack pointer to STACK_SIZE, which fails with a stack overflow
      however much fuel is given: from an empty stack, 15 calls succeed and
      the 16th fails. */
  lemma SelfCallOverflows(c: Cpu, fuel: nat)
    requires c.state == Running && c.pc + 2 < MEMORY_SIZE && Fetched(c) == CallOp(c.pc)
    requires c.sp < STACK_SIZE && c.sp + fuel >= STACK_SIZE
    ensures Execute(c, fuel) == Faulted(StackOverflow)
  {
    var nested := STACK_SIZE - 1 - c.sp;
    SelfCallNests(c, nested);
    var full := Execute(c, nested).cpu;
    assert full.sp == STACK_SIZE - 1 && full.state == Running;
    assert Fetched(full) == Fetched(c);
    StepCall(full);
    var rest := fuel - nested;
    assert Execute(full, rest) == Faulted(StackOverflow);
    ExecuteSplit(c, nested, rest);
  }
}
