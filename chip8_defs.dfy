/** Machine-level definitions of the CHIP-8 core: the integer widths of the
    machine's fields, its fixed sizes, the decoded instruction word, the
    extension (quirks) mode, the error taxonomy and the host keymap. */
module Chip8Defs {

  /** `uint8_t`, `uint16_t`, a 4-bit nibble and a 12-bit address literal. */
  type byte = x: int | 0 <= x < 0x100
  type word = x: int | 0 <= x < 0x1_0000
  type nibble = x: int | 0 <= x < 0x10
  type addr = x: int | 0 <= x < 0x1000

  const RAM_SIZE: nat := 4096
  const WIDTH: nat := 64
  const HEIGHT: nat := 32
  const STACK_SIZE: nat := 12
  const NUM_REGISTERS: nat := 16
  const NUM_KEYS: nat := 16
  /** Programs are loaded, and start executing, here. */
  const ENTRY_POINT: nat := 0x200
  /** Index of the flag register VF. */
  const VF: nibble := 0xF

  /** The emulated dialect; it only changes the quirk-dependent opcodes. */
  datatype Extension = CHIP8 | SUPERCHIP | X0CHIP

  /** Construction-time and execution-time failures. The C code performs no
      bounds checks at all; each of these names an access it would make out of
      bounds (or a ROM it refuses). */
  datatype Error =
    | RomTooLarge
    | RomUnreadable
    | StackOverflow
    | StackUnderflow
    | MemoryOutOfRange
    | KeyOutOfRange

  datatype Option<T> = None | Some(value: T)

  datatype Result<T> = Ok(value: T) | Err(error: Error)

  /** The decoded form of one 16-bit opcode. */
  datatype Instruction = Instruction(opcode: word, NNN: addr, NN: byte, N: nibble, X: nibble, Y: nibble)

  /** The instruction family: bits 12..15 of the opcode. */
  function HighNibble(inst: Instruction): (h: nibble)
    ensures h * 0x1000 <= inst.opcode < (h + 1) * 0x1000
  {
    inst.opcode / 0x1000
  }

  /** Slices the fixed bit fields out of an opcode (masks written as `%` and
      shifts as `/`, which agree on non-negative values). The fields are the
      four nibbles of the opcode and NN, NNN are its low byte and low twelve
      bits. */
  function Decode(op: word): (inst: Instruction)
    ensures inst.opcode == op
    ensures op == HighNibble(inst) * 0x1000 + inst.X * 0x100 + inst.Y * 0x10 + inst.N
    ensures inst.NN == inst.Y * 0x10 + inst.N
    ensures inst.NNN == inst.X * 0x100 + inst.NN
  {
    DecodeArithmetic(op);
    Instruction(op, op % 0x1000, op % 0x100, op % 0x10, (op / 0x100) % 0x10, (op / 0x10) % 0x10)
  }

  /** The positional facts Decode's contract rests on. */
  lemma DecodeArithmetic(op: word)
    ensures op == op / 0x1000 * 0x1000 + (op / 0x100) % 0x10 * 0x100 + (op / 0x10) % 0x10 * 0x10 + op % 0x10
    ensures op % 0x100 == (op / 0x10) % 0x10 * 0x10 + op % 0x10
    ensures op % 0x1000 == (op / 0x100) % 0x10 * 0x100 + op % 0x100
  {
    var n, a := op % 0x10, op / 0x10;
    var y, b := a % 0x10, a / 0x10;
    var x, hi := b % 0x10, b / 0x10;
    assert op == 0x100 * b + (0x10 * y + n);
    assert op / 0x100 == b;
    assert op == 0x1000 * hi + (0x100 * x + 0x10 * y + n);
    assert op / 0x1000 == hi;
  }

  /** The opcode that the two big-endian bytes `hi`, `lo` at PC form. */
  function OpcodeOf(hi: byte, lo: byte): (op: word)
    ensures op / 0x100 == hi && op % 0x100 == lo
  {
    hi * 0x100 + lo
  }

  /** Decoding the opcode fetched from two bytes: the family and X come from
      the first byte, Y and N from the second, and NN is the second byte. */
  lemma DecodeBytes(hi: byte, lo: byte)
    ensures var inst := Decode(OpcodeOf(hi, lo));
      && HighNibble(inst) == hi / 0x10
      && inst.X == hi % 0x10
      && inst.Y == lo / 0x10
      && inst.N == lo % 0x10
      && inst.NN == lo
      && inst.NNN == (hi % 0x10) * 0x100 + lo
  {
    var inst := Decode(OpcodeOf(hi, lo));
    assert hi == (hi / 0x10) * 0x10 + hi % 0x10;
    assert lo == (lo / 0x10) * 0x10 + lo % 0x10;
    NibblesUnique(HighNibble(inst), inst.X, inst.Y, inst.N, hi / 0x10, hi % 0x10, lo / 0x10, lo % 0x10);
  }

  /** Base-16 digits are unique. */
  lemma NibblesUnique(a: nibble, b: nibble, c: nibble, d: nibble, a': nibble, b': nibble, c': nibble, d': nibble)
    requires a * 0x1000 + b * 0x100 + c * 0x10 + d == a' * 0x1000 + b' * 0x100 + c' * 0x10 + d'
    ensures a == a' && b == b' && c == c' && d == d'
  {
  }

  /** Encoding four nibbles and decoding them gives them back. */
  lemma {:induction false} DecodeNibbles(hi: nibble, x: nibble, y: nibble, n: nibble)
    ensures var inst := Decode(hi * 0x1000 + x * 0x100 + y * 0x10 + n);
      HighNibble(inst) == hi && inst.X == x && inst.Y == y && inst.N == n
  {
    var inst := Decode(hi * 0x1000 + x * 0x100 + y * 0x10 + n);
    NibblesUnique(HighNibble(inst), inst.X, inst.Y, inst.N, hi, x, y, n);
  }

  /** The host keyboard layout: (host key, CHIP-8 key) pairs in table order. */
  const KEYMAP: seq<(char, nibble)> := [
    ('1', 0x1), ('2', 0x2), ('3', 0x3), ('4', 0xC),
    ('q', 0x4), ('w', 0x5), ('e', 0x6), ('r', 0xD),
    ('a', 0x7), ('s', 0x8), ('d', 0x9), ('f', 0xE),
    ('z', 0xA), ('x', 0x0), ('c', 0xB), ('v', 0xF)
  ]

  /** The unique KEYMAP row that produces CHIP-8 key `k`: the second column of
      KEYMAP is a permutation of the sixteen keypad indices. */
  function KeymapRow(k: nibble): (i: nat)
    ensures i < |KEYMAP| && KEYMAP[i].1 == k
    ensures forall j :: 0 <= j < |KEYMAP| && KEYMAP[j].1 == k ==> j == i
  {
    [13, 0, 1, 2, 4, 5, 6, 8, 9, 10, 12, 14, 3, 7, 11, 15][k]
  }

  /** No host key appears twice in KEYMAP, so a host key event touches at
      most one keypad latch. */
  lemma KeymapHostKeysDistinct()
    ensures forall i, j :: 0 <= i < j < |KEYMAP| ==> KEYMAP[i].0 != KEYMAP[j].0
  {
  }
}
