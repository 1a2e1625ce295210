/** Machine widths and the fixed memory/stack layout of the CHIP-8
    (src/chip8.rs). The Rust trait's associated constants become plain
    named constants here. */
module Chip8 {

  /** An unsigned 8-bit value (`u8`). */
  type Byte = b: int | 0 <= b < 0x100

  /** An unsigned 16-bit value (`u16`). */
  type Word = w: int | 0 <= w < 0x1_0000

  /** A 4-bit field of an opcode. */
  type Nibble = n: int | 0 <= n < 0x10

  /** Largest value a `u16` can hold. */
  const WORD_MAX: nat := 0xFFFF

  /** Number of general-purpose registers. */
  const REGISTER_COUNT: nat := 0x10

  /** Index of the register that arithmetic uses as its overflow flag. */
  const OVERFLOW: nat := 15

  const STACK_SIZE: nat := 0x10
  const MEMORY_SIZE: nat := 0x1000
  const SYSTEM_MEMORY_START: nat := 0x0
  const SYSTEM_MEMORY_END: nat := 0x1FF
  const PROGRAM_MEMORY_START: nat := 0x200

  /** The overflow flag is the last register, and the program region starts
      right after the reserved system region, inside memory. */
  lemma LayoutIsConsistent()
    ensures OVERFLOW == REGISTER_COUNT - 1
    ensures SYSTEM_MEMORY_START < SYSTEM_MEMORY_END < PROGRAM_MEMORY_START < MEMORY_SIZE
    ensures PROGRAM_MEMORY_START == SYSTEM_MEMORY_END + 1
    ensures MEMORY_SIZE - 1 <= WORD_MAX
  {
  }
}
