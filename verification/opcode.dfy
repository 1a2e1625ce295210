/** Fetching and decoding 16-bit CHIP-8 opcodes (src/main.rs `read_opcode`
    and the nibble split at the head of `step`). Opcodes are modelled as
    integers; the bit-level lemmas at the end show that the source's masks,
    shifts and `|` compute the same numbers on 16-bit words. */
module Opcode {
  import opened Chip8

  /** The four nibbles of an opcode, most significant first: `c`, `x`, `y`, `d`. */
  datatype Nibbles = Nibbles(c: Nibble, x: Nibble, y: Nibble, d: Nibble)

  /** Big-endian join of the two bytes of an instruction, high byte first. */
  function Join(hi: Byte, lo: Byte): (op: Word)
    ensures op / 0x100 == hi
    ensures op % 0x100 == lo
  {
    hi * 0x100 + lo
  }

  /** Reassembles an opcode from its nibbles. */
  function Combine(n: Nibbles): Word
  {
    n.c * 0x1000 + n.x * 0x100 + n.y * 0x10 + n.d
  }

  /** Splits an opcode into its nibbles. */
  function Split(op: Word): Nibbles
  {
    Nibbles(op / 0x1000, (op / 0x100) % 0x10, (op / 0x10) % 0x10, op % 0x10)
  }

  /** `Combine` undoes `Split`. */
  lemma CombineSplit(op: Word)
    ensures Combine(Split(op)) == op
  {
    var q1 := op / 0x10;
    var q2 := q1 / 0x10;
    var q3 := q2 / 0x10;
    assert op == q1 * 0x10 + op % 0x10;
    assert q1 == q2 * 0x10 + q1 % 0x10;
    assert q2 == q3 * 0x10 + q2 % 0x10;
    assert q2 == op / 0x100 && q3 == op / 0x1000;
  }

  /** The other half of the round trip: splitting a combined opcode gives
      back the nibbles it was built from. */
  lemma SplitCombine(n: Nibbles)
    ensures Split(Combine(n)) == n
  {
    var op := Combine(n);
    assert op / 0x1000 == n.c;
    assert op / 0x100 == n.c * 0x10 + n.x;
    assert op / 0x10 == n.c * 0x100 + n.x * 0x10 + n.y;
  }

  /** The 12-bit immediate `nnn`: the low three nibbles of the opcode. */
  function Address(op: Word): (nnn: Word)
    ensures nnn < 0x1000
    ensures op == Split(op).c * 0x1000 + nnn
  {
    op % 0x1000
  }

  /** The immediate is made of the opcode's nibbles `x`, `y` and `d`. */
  lemma AddressIsLowNibbles(op: Word)
    ensures Address(op) == Split(op).x * 0x100 + Split(op).y * 0x10 + Split(op).d
  {
    CombineSplit(op);
  }

  /** The instructions `step` dispatches on; everything else is kept, with
      its opcode, as `UnknownOp`. */
  datatype Instruction =
    | HaltOp
    | RetOp
    | CallOp(nnn: Word)
    | AddOp(x: Nibble, y: Nibble)
    | UnknownOp(opcode: Word)

  /** The dispatch table of `step` as the source writes it: a match on the
      nibbles `(c, x, y, d)`, tried in order `0000` HALT, `00EE` RET, `2nnn`
      CALL, `8xy4` ADD; anything else is kept, with its opcode. */
  function DecodeNibbles(op: Word): Instruction
  {
    var n := Split(op);
    if n.c == 0 && n.x == 0 && n.y == 0 && n.d == 0 then HaltOp
    else if n.c == 0 && n.x == 0 && n.y == 0xE && n.d == 0xE then RetOp
    else if n.c == 2 then CallOp(Address(op))
    else if n.c == 8 && n.d == 4 then AddOp(n.x, n.y)
    else UnknownOp(op)
  }

  /** The same table stated on opcode ranges, the form the interpreter uses;
      `DecodeMatchesNibbles` shows that the two agree on every opcode. */
  function Decode(op: Word): Instruction
  {
    if op == 0x0000 then HaltOp
    else if op == 0x00EE then RetOp
    else if 0x2000 <= op < 0x3000 then CallOp(op - 0x2000)
    else if 0x8000 <= op < 0x9000 && op % 0x10 == 4 then AddOp(Split(op).x, Split(op).y)
    else UnknownOp(op)
  }

  /** Range decoding is the nibble match of `step`, for every opcode. */
  lemma DecodeMatchesNibbles(op: Word)
    ensures Decode(op) == DecodeNibbles(op)
  {
    if op == 0x00EE {
      assert Split(op) == Nibbles(0, 0, 0xE, 0xE);
    } else if 0 < op < 0x1000 {
      CombineSplit(op);
    }
  }

  /** The opcode an instruction is written as. */
  function Encode(i: Instruction): Word
    requires i.CallOp? ==> i.nnn < 0x1000
  {
    match i
    case HaltOp => 0x0000
    case RetOp => 0x00EE
    case CallOp(nnn) => 0x2000 + nnn
    case AddOp(x, y) => Combine(Nibbles(8, x, y, 4))
    case UnknownOp(op) => op
  }

  /** Instructions that `Decode` can produce: a call target of at most 12
      bits, and an `UnknownOp` opcode that really matches no pattern. */
  predicate Canonical(i: Instruction)
  {
    match i
    case CallOp(nnn) => nnn < 0x1000
    case UnknownOp(op) => Decode(op).UnknownOp?
    case _ => true
  }

  /** Every opcode decodes to a canonical instruction that encodes back to it. */
  lemma EncodeDecode(op: Word)
    ensures Canonical(Decode(op))
    ensures Encode(Decode(op)) == op
  {
    CombineSplit(op);
  }

  /** Every canonical instruction survives encoding and decoding. */
  lemma DecodeEncode(i: Instruction)
    requires Canonical(i)
    ensures Decode(Encode(i)) == i
  {
    match i
    case CallOp(nnn) =>
      var op := 0x2000 + nnn;
      assert op / 0x1000 == 2 && op % 0x1000 == nnn;
      assert Split(op).c == 2;
    case AddOp(x, y) =>
      SplitCombine(Nibbles(8, x, y, 4));
    case HaltOp =>
      SplitCombine(Nibbles(0, 0, 0, 0));
    case RetOp =>
      assert 0x00EE / 0x10 == 0xE && (0x00EE / 0x10) % 0x10 == 0xE;
      assert Split(0x00EE) == Nibbles(0, 0, 0xE, 0xE);
    case UnknownOp(_) =>
  }

  /** The documented ADD opcode `0x8xyF` is not the dispatched one: with a
      last nibble of `F` the opcode is left unimplemented. */
  lemma DocumentedAddOpcodeIsUnimplemented(x: Nibble, y: Nibble)
    ensures Decode(Combine(Nibbles(8, x, y, 0xF))) == UnknownOp(Combine(Nibbles(8, x, y, 0xF)))
  {
    SplitCombine(Nibbles(8, x, y, 0xF));
  }

  /** `read_opcode` on 16-bit words: shifting the high byte left by 8 and
      or-ing the low byte is the big-endian sum. */
  lemma ShiftOrIsJoin(hi: bv16, lo: bv16)
    requires hi < 0x100 && lo < 0x100
    ensures (hi << 8) | lo == hi * 0x100 + lo
  {
  }

  /** The same fact carried over to the integer `Join` of the model. */
  lemma ShiftOrIsJoinInt(hi: bv16, lo: bv16)
    requires hi < 0x100 && lo < 0x100
    ensures ((hi << 8) | lo) as int == Join(hi as int, lo as int)
  {
    ShiftOrIsJoin(hi, lo);
  }

  /** The masks and shifts of `step` on 16-bit words are 16-bit divisions
      and remainders by the same powers of 16 that `Split` and `Address` use. */
  lemma MasksAreDivMod(op: bv16)
    ensures (op & 0xF000) >> 12 == op / 0x1000
    ensures (op & 0x0F00) >> 8 == (op / 0x100) % 0x10
    ensures (op & 0x00F0) >> 4 == (op / 0x10) % 0x10
    ensures (op & 0x000F) >> 0 == op % 0x10
    ensures op & 0x0FFF == op % 0x1000
  {
  }
}
