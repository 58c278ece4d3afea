# CHIP-8 instruction engine in Dafny

This project models the core of a CHIP-8 interpreter written in C.
The core is split into four parts:

- `struct chip8` and the instruction fields: 4 KiB of RAM, a 64 x 32 monochrome
  framebuffer, a twelve-slot return stack, sixteen 8-bit registers V0..VF, the
  16-bit index register I and program counter PC, two 8-bit timers, the sixteen-key
  keypad and the "draw" flag.
- The two-level dispatch tables. The first level is indexed by the high nibble.
  The second-level tables cover families 0, 8, E and F. Their NULL slots make an
  opcode a no-op.
- The fetch-decode-execute step `emulate_instruction`, every `instr_*` handler and
  the timer tick `update_timers`.
- The machine reset `init_chip8`, given the ROM's bytes.

The project has these files:

- `chip8_defs.dfy` (module `Chip8Defs`): the machine's integer widths and sizes,
  the decoded `Instruction`, the extension (quirk) mode, the error taxonomy and
  the host KEYMAP.
- `instruction_tables.dfy` (module `InstructionTables`): the tables as pure
  functions from an index to a `Handler` tag. An independent opcode-pattern
  description is proved to agree with them in both directions.
- `byte_logic.dfy` (module `ByteLogic`): the C operators `|`, `&` and `^` on
  bytes, computed bit by bit on integers. They are proved equal to Dafny's
  operators on `bv8`, and each result bit is proved to be the operator applied
  to the operands' bits.
- `sprite.dfy` (module `Sprite`): the clipped XOR drawing of a sprite and its
  collision flag, as functions on the framebuffer.
- `semantics.dfy` (module `Semantics`): the reference semantics on a `State`
  value. It has one function per handler, the dispatch (`Exec`), one step
  (`Step`), the timer tick and `Reset`.
- `chip8.dfy` (module `Chip8Engine`): the machine as a class `Chip8`. Its
  buffers are arrays updated in place. There is one method per C handler, plus
  the table dispatch, `EmulateInstruction`, `UpdateTimers` and `Init`. Each
  method is proved against the reference semantics through `Model()`.
- `properties.dfy` (module `Properties`): what each kind of instruction does,
  stated on `Step` and on the handler functions, and how instructions combine.

The C code performs no bounds checks. Each out-of-bounds access it could make
becomes an explicit fault in the model:

- a step that fetches past the end of RAM;
- a call with a full stack;
- a return with an empty stack;
- a key index of 16 or more in EX9E/EXA1;
- FX33/FX55/FX65 or a sprite read that leaves RAM.

In every such case the model checks before it changes anything, so a faulting
handler leaves the machine unchanged (PC is already advanced by the fetch).

As in the code, 8XY7 stores VY - VX in VY, not in VX. The code is followed
here; most CHIP-8 references put the difference in VX.

## Model

| member | source | states |
|---|---|---|
| Chip8Defs.Decode | chip8.c:405-411 | The fields are the opcode's nibbles: `op` is rebuilt from the high nibble, X, Y and N; NN is Y:N and NNN is X:NN. |
| Chip8Defs.HighNibble | chip8.c:419 | The high nibble h places the opcode in the range h * 0x1000 up to (h + 1) * 0x1000. |
| Chip8Defs.OpcodeOf | chip8.c:402 | The opcode splits back into its two bytes: the high byte is the first one and the low byte the second. |
| Chip8Defs.DecodeBytes | chip8.c:402-411 | For the opcode fetched from bytes hi, lo: the family and X come from hi, Y and N from lo, NN equals lo and NNN is the low nibble of hi followed by lo. |
| Chip8Defs.DecodeNibbles | chip8.c:405-411 | Encoding four nibbles into an opcode and decoding it gives the same four nibbles back. |
| Chip8Defs.NibblesUnique | chip8.c:405-411 | Base-16 digits are unique, so decoding is injective. |
| Chip8Defs.DecodeArithmetic | chip8.c:405-411 | The positional identities relating the masked and shifted fields to the opcode. |
| Chip8Defs.KeymapRow | chip8.h:15-32 | Each of the sixteen keypad keys comes from exactly one KEYMAP row: the CHIP-8 column is a permutation of 0..F. |
| Chip8Defs.KeymapHostKeysDistinct | chip8.h:15-32 | No host key appears in two KEYMAP rows. |
| InstructionTables.OpcodeTable | instruction_tables.c:7-24 | Exactly the slots for families 0, 8, E and F hold a second-level dispatcher; the other twelve hold leaf handlers. |
| InstructionTables.Table0NNN | instruction_tables.c:27-30 | A slot is filled exactly for NN = E0 and EE, and never with a family handler. |
| InstructionTables.Table8XYN | instruction_tables.c:33-50 | A slot is filled exactly for N in 0..7 and E; slots 8..D and F are empty. |
| InstructionTables.TableEXNN | instruction_tables.c:53-56 | A slot is filled exactly for NN = 9E and A1. |
| InstructionTables.TableFXNN | instruction_tables.c:59-69 | A slot is filled exactly for the nine NN values 07, 0A, 15, 18, 1E, 29, 33, 55, 65. |
| InstructionTables.Resolve | instruction_tables.c:7-24 | Following both table levels always ends in a leaf handler (never a family handler) or in an empty slot. |
| InstructionTables.ResolveSound | instruction_tables.c:7-69 | Every opcode that reaches a handler fits that handler's nibble pattern (for example `8??E`, `F?55`). |
| InstructionTables.ResolveComplete | instruction_tables.c:7-69 | Every opcode that fits a leaf handler's pattern is dispatched to that handler. With ResolveSound, dispatch is exactly pattern matching. |
| InstructionTables.DirectSound | instruction_tables.c:7-24 | A first-level leaf is reached only by its own high nibble. |
| InstructionTables.SecondLevelSound | instruction_tables.c:27-69 | A handler chosen by a second-level table keeps its family's high nibble and fits the low nibbles of the table index. |
| InstructionTables.Sound0 | instruction_tables.c:27-30 | Handlers of `table_0NNN` fit the index's low nibbles. |
| InstructionTables.Sound8 | instruction_tables.c:33-50 | Handlers of `table_8XYN` fit N. |
| InstructionTables.SoundE | instruction_tables.c:53-56 | Handlers of `table_EXNN` fit NN. |
| InstructionTables.SoundF | instruction_tables.c:59-69 | Handlers of `table_FXNN` fit NN. |
| InstructionTables.Complete0 | instruction_tables.c:27-30 | Opcodes fitting 00E0 or 00EE reach them. |
| InstructionTables.Complete8 | instruction_tables.c:33-50 | Opcodes fitting an 8XY* pattern reach that handler. |
| InstructionTables.CompleteE | instruction_tables.c:53-56 | Opcodes fitting EX9E or EXA1 reach them. |
| InstructionTables.CompleteF | instruction_tables.c:59-69 | Opcodes fitting an FX** pattern reach that handler. |
| InstructionTables.CompleteDirect | instruction_tables.c:7-24 | Opcodes fitting a first-level leaf's pattern reach it. |
| InstructionTables.OpcodeTableInjective | instruction_tables.c:7-24 | Distinct high nibbles select distinct first-level handlers. |
| Sprite.XorSprite | chip8.c:666-693 | The framebuffer after drawing keeps all 2048 pixels. |
| Sprite.XorSpriteAt | chip8.c:666-693 | A pixel inside the clipped sprite rectangle is XOR-ed with its sprite bit; every other pixel is unchanged. |
| Sprite.CollidesMeaning | chip8.c:674-681 | The flag is set exactly when some drawn on-bit lands on an on-pixel. |
| Sprite.HitUpToMeaning | chip8.c:674-681 | The flag after a prefix of the drawing is set exactly when that prefix has a collision. |
| Sprite.XorSpriteTwice | chip8.c:683-684 | Drawing the same sprite twice at the same place restores the framebuffer. |
| Sprite.DrawnPixelStep | chip8.c:675-684 | Plotting one pixel extends the drawn prefix by that pixel. |
| Sprite.DrawnRowStep | chip8.c:686-692 | Finishing a row at the right edge or after 8 bits starts the next row. |
| Sprite.InDrawnStep | chip8.c:672-688 | The drawn region grows by exactly the pixel just plotted. |
| Sprite.PixelIndexCoords | chip8.c:675 | Row-major indexing of an on-screen pixel stays in the framebuffer and recovers its coordinates. |
| Sprite.PixelIndexOf | chip8.c:675 | Every framebuffer index is the row-major index of one on-screen pixel. |
| Sprite.Pow2 | chip8.c:676 | Helper for the bit masks `1 << j`: it is positive, which the bit extraction needs. |
| ByteLogic.Bitwise | chip8.c:532-557 | The bitwise combination of two values fits in the requested number of bits. Its value is fixed by BitwiseBit and BitsCombineUnique. |
| ByteLogic.BitwiseBit | chip8.c:532-557 | Bit i of the k-bit `a op b` (i < k) is `op` applied to bit i of a and bit i of b. |
| ByteLogic.BitsDetermine | chip8.c:532-557 | Two numbers below 2^k that agree on their k low bits are equal. |
| ByteLogic.BitsCombineUnique | chip8.c:532-557 | A byte whose eight bits are `op` of the operands' bits is the 8-bit `a op b`. |
| ByteLogic.BitwiseBits8 | chip8.c:532-557 | The eight bits of the 8-bit `a op b` are `op` of the operands' bits. |
| ByteLogic.BitwiseByBits | chip8.c:532-557 | Both directions: a byte equals the 8-bit `a op b` exactly when each of its bits is `op` of the operands' bits. |
| ByteLogic.BvBitAgrees | chip8.c:532-557 | Reading bit i of a `bv8` by shifting gives bit i of its integer value. |
| ByteLogic.BvBitOr | chip8.c:536 | Bit i of `x \| y` on `bv8` is the OR of the bits i of x and y. |
| ByteLogic.BvBitAnd | chip8.c:545 | Bit i of `x & y` on `bv8` is the AND of the bits i of x and y. |
| ByteLogic.BvBitXor | chip8.c:554 | Bit i of `x ^ y` on `bv8` is the XOR of the bits i of x and y. |
| ByteLogic.OrBits | chip8.c:536 | The integer value of `x \| y` on `bv8` is below 256 and has the OR of the operands' bits. |
| ByteLogic.AndBits | chip8.c:545 | The integer value of `x & y` on `bv8` is below 256 and has the AND of the operands' bits. |
| ByteLogic.XorBits | chip8.c:554 | The integer value of `x ^ y` on `bv8` is below 256 and has the XOR of the operands' bits. |
| ByteLogic.Or8IsBv | chip8.c:536 | `Or8`, used for 8XY1, equals the `bv8` operator `\|` on every pair of bytes. |
| ByteLogic.And8IsBv | chip8.c:545 | `And8`, used for 8XY2 and CXNN, equals the `bv8` operator `&` on every pair of bytes. |
| ByteLogic.Xor8IsBv | chip8.c:554 | `Xor8`, used for 8XY3, equals the `bv8` operator `^` on every pair of bytes. |
| Semantics.SetV | chip8.c:504-509 | A register write keeps the machine's fixed sizes. |
| Semantics.SetVWithFlag | chip8.c:559-622 | A result-then-flag write keeps the machine's fixed sizes (the flag wins when X is F). |
| Semantics.ResetFlagQuirk | chip8.c:537-538 | The CHIP8-only clearing of VF keeps the machine's fixed sizes. |
| Semantics.Exec00E0 | chip8.c:444-450 | Keeps the fixed sizes; otherwise a definition only: the single assignment of 00E0 (clear every pixel, set draw) is the behaviour, and the class method is proved equal to it. |
| Semantics.Exec00EE | chip8.c:452-459 | Keeps the fixed sizes when it succeeds; what 00EE does is stated by Properties.ReturnPops and ReturnUnderflows. |
| Semantics.Exec1NNN | chip8.c:461-466 | 1NNN sets PC to NNN and changes nothing else. |
| Semantics.Exec2NNN | chip8.c:468-476 | Keeps the fixed sizes when it succeeds; what 2NNN does is stated by Properties.CallPushes and CallOverflows. |
| Semantics.Exec3XNN | chip8.c:478-484 | Keeps the fixed sizes; what 3XNN does is stated by Properties.SkipIfEqualImmediate. |
| Semantics.Exec4XNN | chip8.c:486-492 | Keeps the fixed sizes; what 4XNN does is stated by Properties.SkipIfNotEqualImmediate. |
| Semantics.Exec5XY0 | chip8.c:494-502 | Keeps the fixed sizes; what 5XY0 does is stated by Properties.SkipIfRegistersEqual. |
| Semantics.Exec9XY0 | chip8.c:624-632 | Keeps the fixed sizes; what 9XY0 does is stated by Properties.SkipIfRegistersDiffer. |
| Semantics.ExecANNN | chip8.c:634-639 | ANNN sets I to NNN and changes nothing else. |
| Semantics.ExecBNNN | chip8.c:641-646 | Keeps the fixed sizes; what BNNN does is stated by Properties.JumpOffsetNoWrap. |
| Semantics.Exec6XNN | chip8.c:504-509 | Keeps the fixed sizes; what 6XNN does is stated by Properties.LoadAndAddImmediate. |
| Semantics.Exec7XNN | chip8.c:511-516 | Keeps the fixed sizes; what 7XNN does is stated by Properties.LoadAndAddImmediate. |
| Semantics.Exec8XY0 | chip8.c:525-530 | Keeps the fixed sizes; otherwise a definition only: the single assignment of 8XY0 (VX := VY) is the behaviour, and the class method is proved equal to it. |
| Semantics.Exec8XY1 | chip8.c:532-539 | Keeps the fixed sizes; what 8XY1 does is stated by Properties.LogicFlagQuirk. |
| Semantics.Exec8XY2 | chip8.c:541-548 | Keeps the fixed sizes; what 8XY2 does is stated by Properties.LogicFlagQuirk. |
| Semantics.Exec8XY3 | chip8.c:550-557 | Keeps the fixed sizes; what 8XY3 does is stated by Properties.LogicFlagQuirk. |
| Semantics.Exec8XY4 | chip8.c:559-567 | Keeps the fixed sizes; what 8XY4 does is stated by Properties.AddWithCarry. |
| Semantics.Exec8XY5 | chip8.c:569-577 | Keeps the fixed sizes; what 8XY5 does is stated by Properties.SubtractWithBorrow. |
| Semantics.Exec8XY6 | chip8.c:579-595 | Keeps the fixed sizes; what 8XY6 does is stated by Properties.ShiftRightSplits and ShiftRightQuirkDivergence. |
| Semantics.Exec8XY7 | chip8.c:597-605 | Keeps the fixed sizes; what 8XY7 does is stated by Properties.ReverseSubtractWritesVY. |
| Semantics.Exec8XYE | chip8.c:607-622 | Keeps the fixed sizes; what 8XYE does is stated by Properties.ShiftLeftSplits and ShiftLeftQuirkDivergence. |
| Semantics.ExecCXNN | chip8.c:648-653 | Keeps the fixed sizes; what CXNN does is stated by Properties.RandomIsMasked and RandomReachesEverySubmask. |
| Semantics.SpriteRows | chip8.c:666-669 | The sprite read for DXYN is exactly the requested number of bytes of RAM from I. |
| Semantics.ExecDXYN | chip8.c:655-695 | Keeps the fixed sizes when it succeeds; what DXYN does is stated by Properties.DrawFaults, DrawPixel, DrawFlagMeansCollision and DrawTwiceRestores. |
| Semantics.ExecEX9E | chip8.c:704-710 | Keeps the fixed sizes when it succeeds; what EX9E does is stated by Properties.SkipIfKeyDown. |
| Semantics.ExecEXA1 | chip8.c:712-718 | Keeps the fixed sizes when it succeeds; what EXA1 does is stated by Properties.SkipIfKeyUp. |
| Semantics.FirstPressed | chip8.c:733-749 | The result is the lowest-numbered pressed key, or none exactly when no key is down. |
| Semantics.ExecFX0A | chip8.c:733-749 | Keeps the fixed sizes; what FX0A does is stated by Properties.WaitTakesLowestKey and WaitWithoutKeyRepeats. |
| Semantics.ExecFX07 | chip8.c:726-731 | Keeps the fixed sizes; otherwise a definition only: the single assignment of FX07 (VX := delay timer) is the behaviour, and the class method is proved equal to it. |
| Semantics.ExecFX15 | chip8.c:751-756 | Keeps the fixed sizes; otherwise a definition only: the single assignment of FX15 (delay timer := VX) is the behaviour, and the class method is proved equal to it. |
| Semantics.ExecFX18 | chip8.c:758-762 | Keeps the fixed sizes; otherwise a definition only: the single assignment of FX18 (sound timer := VX) is the behaviour, and the class method is proved equal to it. |
| Semantics.ExecFX1E | chip8.c:764-769 | Keeps the fixed sizes; otherwise a definition only: the single assignment of FX1E (I := I + VX, wrapping at 16 bits) is the behaviour, and the class method is proved equal to it. |
| Semantics.ExecFX29 | chip8.c:771-776 | Keeps the fixed sizes; what FX29 does is stated by Properties.FontGlyphAddress. |
| Semantics.Bcd | chip8.c:778-789 | The three digits are decimal digits whose value is the byte. |
| Semantics.ExecFX33 | chip8.c:778-789 | Keeps the fixed sizes when it succeeds; what FX33 does is stated by Properties.StoreBcd. |
| Semantics.ExecFX55 | chip8.c:791-805 | Keeps the fixed sizes when it succeeds; what FX55 does is stated by Properties.DumpLoadFaults, DumpLoadIndex and DumpThenLoad. |
| Semantics.ExecFX65 | chip8.c:807-821 | Keeps the fixed sizes when it succeeds; what FX65 does is stated by Properties.DumpLoadFaults, DumpLoadIndex and DumpThenLoad. |
| Semantics.ExecLeaf | chip8.c:444-821 | Running a leaf handler keeps the machine's fixed sizes. |
| Semantics.ExecSlot | chip8.c:434-442 | Running a second-level slot keeps the fixed sizes; an empty slot is a no-op. |
| Semantics.Exec | chip8.c:417-420 | Dispatch through `opcode_table` keeps the fixed sizes. |
| Semantics.AdvancePCMoves | chip8.c:403 | The fetch advance adds 2 to PC, wrapping at 16 bits, and changes nothing else. |
| Semantics.FetchOpcodeBytes | chip8.c:402 | The fetched opcode is big-endian: its high byte is RAM[PC] and its low byte is RAM[PC + 1]. |
| Semantics.Step | chip8.c:399-421 | One step keeps the fixed sizes: 4096 RAM cells, 2048 pixels, at most 12 return addresses, 16 registers and 16 keys. |
| Semantics.DecayTimers | chip8.c:423-432 | Each timer above zero drops by one, a zero timer stays at zero, and nothing else changes. |
| Semantics.Blank | chip8.c:28-32 | The cleared machine with the font loaded is well formed. |
| Semantics.Reset | chip8.c:6-70 | The ROM is accepted exactly when it is non-empty and fits above 0x200. A ROM that is too large gives RomTooLarge; an empty one gives RomUnreadable, because reading one item of size zero reports failure. On success the font is at 0..79, the ROM at 0x200, the rest of RAM is zero, PC is 0x200 and every other field is zero. |
| Chip8Engine.Chip8.Model | chip8.h:45-61 | The object's state, viewed as a value, has the struct's fixed sizes. |
| Chip8Engine.Chip8.constructor | chip8.h:45-61 | A fresh machine whose RAM, framebuffer, registers, timers, keypad and draw flag are all zero, with an empty stack. |
| Chip8Engine.Chip8.Init | chip8.c:6-70 | Succeeds exactly when Reset accepts the ROM, so an empty or oversized ROM fails. On success the machine equals Reset's result; a rejected ROM leaves the cleared machine with the font. |
| Chip8Engine.Chip8.Clear | chip8.c:28-32 | The memset and the font copy produce the blank machine. |
| Chip8Engine.Chip8.LoadFont | chip8.c:29-32 | RAM holds the font followed by zeros. |
| Chip8Engine.Chip8.LoadRom | chip8.c:54-66 | Copying a non-empty ROM to 0x200 and setting PC turns the blank machine into Reset's result. |
| Chip8Engine.Chip8.UpdateTimers | chip8.c:423-432 | The new state is DecayTimers of the old one: each non-zero timer drops by one. |
| Chip8Engine.Chip8.EmulateInstruction | chip8.c:399-421 | The new state is Step's result. On a fault the error is Step's, and the machine is unchanged apart from the PC advance (or entirely unchanged when PC + 1 is outside RAM). |
| Chip8Engine.Chip8.Dispatch | chip8.c:417-420 | The new state is Exec's result for the decoded instruction. |
| Chip8Engine.Chip8.Instr0NNN | chip8.c:434-442 | Runs `table_0NNN[NN]` when filled, else changes nothing. |
| Chip8Engine.Chip8.Instr8XYN | chip8.c:518-523 | Runs `table_8XYN[N]` when filled, else changes nothing. |
| Chip8Engine.Chip8.InstrEXNN | chip8.c:697-702 | Runs `table_EXNN[NN]` when filled, else changes nothing. |
| Chip8Engine.Chip8.InstrFXNN | chip8.c:720-724 | Runs `table_FXNN[NN]` when filled, else changes nothing. |
| Chip8Engine.Chip8.Call | instruction_tables.c:7-69 | Calling the handler found in a table has the effect ExecLeaf gives it. |
| Chip8Engine.Chip8.Instr00E0 | chip8.c:444-450 | Equals Exec00E0. |
| Chip8Engine.Chip8.Instr00EE | chip8.c:452-459 | Equals Exec00EE, including the underflow fault. |
| Chip8Engine.Chip8.Instr1NNN | chip8.c:461-466 | Equals Exec1NNN. |
| Chip8Engine.Chip8.Instr2NNN | chip8.c:468-476 | Equals Exec2NNN, including the overflow fault. |
| Chip8Engine.Chip8.Instr3XNN | chip8.c:478-484 | Equals Exec3XNN. |
| Chip8Engine.Chip8.Instr4XNN | chip8.c:486-492 | Equals Exec4XNN. |
| Chip8Engine.Chip8.Instr5XY0 | chip8.c:494-502 | Equals Exec5XY0. |
| Chip8Engine.Chip8.Instr6XNN | chip8.c:504-509 | Equals Exec6XNN. |
| Chip8Engine.Chip8.Instr7XNN | chip8.c:511-516 | Equals Exec7XNN. |
| Chip8Engine.Chip8.Instr8XY0 | chip8.c:525-530 | Equals Exec8XY0. |
| Chip8Engine.Chip8.Instr8XY1 | chip8.c:532-539 | Equals Exec8XY1. |
| Chip8Engine.Chip8.Instr8XY2 | chip8.c:541-548 | Equals Exec8XY2. |
| Chip8Engine.Chip8.Instr8XY3 | chip8.c:550-557 | Equals Exec8XY3. |
| Chip8Engine.Chip8.Instr8XY4 | chip8.c:559-567 | Equals Exec8XY4. |
| Chip8Engine.Chip8.Instr8XY5 | chip8.c:569-577 | Equals Exec8XY5. |
| Chip8Engine.Chip8.Instr8XY6 | chip8.c:579-595 | Equals Exec8XY6. |
| Chip8Engine.Chip8.Instr8XY7 | chip8.c:597-605 | Equals Exec8XY7. |
| Chip8Engine.Chip8.Instr8XYE | chip8.c:607-622 | Equals Exec8XYE. |
| Chip8Engine.Chip8.Instr9XY0 | chip8.c:624-632 | Equals Exec9XY0. |
| Chip8Engine.Chip8.InstrANNN | chip8.c:634-639 | Equals ExecANNN. |
| Chip8Engine.Chip8.InstrBNNN | chip8.c:641-646 | Equals ExecBNNN. |
| Chip8Engine.Chip8.InstrCXNN | chip8.c:648-653 | Equals ExecCXNN for the given random byte. |
| Chip8Engine.Chip8.InstrDXYN | chip8.c:655-695 | Equals ExecDXYN, including the out-of-RAM sprite fault. |
| Chip8Engine.Chip8.DrawSprite | chip8.c:666-693 | The row loop leaves the framebuffer as XorSprite of the old one and VF as the collision flag, with the other registers unchanged. |
| Chip8Engine.Chip8.DrawRow | chip8.c:672-689 | The bit loop of one row extends the drawn prefix by the row's visible columns. |
| Chip8Engine.Chip8.PlotPixel | chip8.c:674-684 | One pixel: flag set on collision, pixel XOR-ed with the bit. |
| Chip8Engine.Chip8.InstrEX9E | chip8.c:704-710 | Equals ExecEX9E, including the key-range fault. |
| Chip8Engine.Chip8.InstrEXA1 | chip8.c:712-718 | Equals ExecEXA1, including the key-range fault. |
| Chip8Engine.Chip8.InstrFX07 | chip8.c:726-731 | Equals ExecFX07. |
| Chip8Engine.Chip8.InstrFX0A | chip8.c:733-749 | The keypad scan equals ExecFX0A: the lowest pressed key goes to VX, and with none pressed PC steps back. |
| Chip8Engine.Chip8.InstrFX15 | chip8.c:751-756 | Equals ExecFX15. |
| Chip8Engine.Chip8.InstrFX18 | chip8.c:758-762 | Equals ExecFX18. |
| Chip8Engine.Chip8.InstrFX1E | chip8.c:764-769 | Equals ExecFX1E. |
| Chip8Engine.Chip8.InstrFX29 | chip8.c:771-776 | Equals ExecFX29. |
| Chip8Engine.Chip8.InstrFX33 | chip8.c:778-789 | The ones-tens-hundreds writes equal ExecFX33. |
| Chip8Engine.Chip8.InstrFX55 | chip8.c:791-805 | Equals ExecFX55. |
| Chip8Engine.Chip8.StoreRegisters | chip8.c:797-804 | After the copy loop, RAM[I0 + k] = Vk for k <= X and nothing else in RAM changed. I ends at I0 + X + 1 under CHIP8 and at I0 otherwise. |
| Chip8Engine.Chip8.InstrFX65 | chip8.c:807-821 | Equals ExecFX65. |
| Chip8Engine.Chip8.LoadRegisters | chip8.c:812-820 | After the copy loop, Vk = RAM[I0 + k] for k <= X and the other registers are unchanged. I ends as for FX55. |
| Properties.ExecRunsResolvedHandler | chip8.c:417-420 | Executing an instruction runs exactly the handler Resolve picks; an empty slot leaves the machine unchanged. |
| Properties.Fetched | chip8.c:402-411 | The fetched instruction's fields are read off the two bytes at PC, and the fetch advance does not wrap. |
| Properties.UnrecognisedOpcodeIsNoOp | chip8.c:434-442 | An opcode that hits an empty slot only advances PC. |
| Properties.StepRunsHandler | chip8.c:399-421 | A step runs the resolved handler on the machine with PC advanced. |
| Properties.UnrecognisedOpcodes | instruction_tables.c:27-69 | The no-op opcodes are exactly: 0 except 00E0/00EE, 8XY8..8XYD and 8XYF, E except 9E/A1, and F except the nine FX handlers. |
| Properties.CallPushes | chip8.c:468-476 | 2NNN pushes the address after the call and jumps to NNN. |
| Properties.ReturnPops | chip8.c:452-459 | 00EE pops the top return address into PC. |
| Properties.CallThenReturn | chip8.c:452-476 | A call to a routine that immediately returns resumes after the call with the stack restored. |
| Properties.CallOverflows | chip8.c:468-476 | A call with twelve return addresses stacked faults. |
| Properties.ReturnUnderflows | chip8.c:452-459 | A return with an empty stack faults. |
| Properties.JumpToSelfIsFixpoint | chip8.c:461-466 | A jump to its own address leaves the machine unchanged. |
| Properties.SkipIfEqualImmediate | chip8.c:478-484 | 3XNN skips exactly when VX = NN, and only PC changes. |
| Properties.SkipIfNotEqualImmediate | chip8.c:486-492 | 4XNN skips exactly when VX != NN, and only PC changes. |
| Properties.SkipIfRegistersEqual | chip8.c:494-502 | 5XY0 skips exactly when the low nibble is 0 and VX = VY. |
| Properties.SkipIfRegistersDiffer | chip8.c:624-632 | 9XY0 skips exactly when the low nibble is 0 and VX != VY. |
| Properties.SkipIfKeyDown | chip8.c:704-710 | EX9E skips exactly when key VX is down, and faults when VX is not a key. |
| Properties.SkipIfKeyUp | chip8.c:712-718 | EXA1 skips exactly when key VX is up, and faults when VX is not a key. |
| Properties.JumpOffsetNoWrap | chip8.c:641-646 | BNNN jumps to NNN + V0, at most 0x10FE, so the 16-bit PC does not wrap. |
| Properties.LoadAndAddImmediate | chip8.c:504-516 | 6XNN loads NN. 7XNN adds NN modulo 256 and leaves every other register, VF included, unchanged. |
| Properties.AddWithCarry | chip8.c:559-567 | 8XY4: VF = 1 exactly on overflow, for every X. For X other than F, result + 256 * VF is the exact sum. No register other than VX and VF changes. |
| Properties.SubtractWithBorrow | chip8.c:569-577 | 8XY5: VF = 1 exactly when VY <= VX, for every X. For X other than F, result - 256 * (1 - VF) is the exact difference. No register other than VX and VF changes. |
| Properties.ReverseSubtractWritesVY | chip8.c:597-605 | 8XY7: VF = 1 exactly when VX <= VY. For Y other than F, VY receives VY - VX with the same borrow law. VX is unchanged when X is neither Y nor F. No register other than VY and VF changes. |
| Properties.LogicFlagQuirk | chip8.c:532-557 | When X is not F, each bit of the new VX is the OR (8XY1), AND (8XY2) or XOR (8XY3) of the bits of VX and VY. The values are Or8, And8 and Xor8, which Or8IsBv, And8IsBv and Xor8IsBv equate with the `bv8` operators. VF is cleared under CHIP8 and untouched otherwise. |
| Properties.ShiftRightSplits | chip8.c:579-595 | For X other than F, 8XY6 splits its source into the shifted value in VX and the bit shifted out in VF. |
| Properties.ShiftLeftSplits | chip8.c:607-622 | For X other than F, 8XYE splits twice its source into the low byte in VX and the bit shifted out in VF. |
| Properties.ShiftRightQuirkDivergence | chip8.c:579-595 | For X other than F, CHIP8 and the other modes give different VX for 8XY6 exactly when VX / 2 != VY / 2. |
| Properties.ShiftLeftQuirkDivergence | chip8.c:607-622 | For X other than F, CHIP8 and the other modes give different VX for 8XYE exactly when VX and VY differ below bit 7. |
| Properties.DoubleLowByte | chip8.c:614-618 | Doubling a byte modulo 256 keeps its low seven bits, shifted. |
| Properties.RandomIsMasked | chip8.c:648-653 | Each bit of CXNN's result is the AND of the random byte's bit and NN's bit, so the result has no bit outside NN and never exceeds NN. Only VX changes. |
| Properties.RandomReachesEverySubmask | chip8.c:648-653 | Every submask of NN is produced by some random byte. |
| Properties.AndBelow | chip8.c:652 | `a & b` never exceeds b. |
| Properties.AndIdempotent | chip8.c:652 | Masking twice with the same mask is masking once. |
| Properties.DrawTwiceRestores | chip8.c:655-695 | When neither X nor Y is F, running DXYN twice with the same operands restores the framebuffer. (With X or Y = F the first draw can overwrite a coordinate register.) |
| Properties.DrawFlagMeansCollision | chip8.c:664-681 | After DXYN the draw flag is set and VF is 1 exactly when a drawn on-bit landed on an on-pixel. |
| Properties.DrawPixel | chip8.c:666-693 | After DXYN, each pixel inside the clipped rectangle is XOR-ed with its sprite bit from RAM, and every other pixel is unchanged. |
| Properties.DrawFaults | chip8.c:666-690 | DXYN faults exactly when some row it reads (row k < N still above the bottom edge) has its address I + k outside RAM, with MemoryOutOfRange; rows clipped by the edge are never read. |
| Properties.WaitWithoutKeyRepeats | chip8.c:733-749 | FX0A with no key down leaves the machine exactly as it was, so it runs again. |
| Properties.WaitTakesLowestKey | chip8.c:733-749 | FX0A stores the lowest pressed key in VX and moves on. |
| Properties.FirstPressedIsLowest | chip8.c:737-746 | The first pressed key found is the lowest-numbered one. |
| Properties.BcdUnique | chip8.c:778-789 | Any three decimal digits with the value of VX are the ones FX33 writes. |
| Properties.StoreBcd | chip8.c:778-789 | FX33 faults exactly when I + 2 is outside RAM. Otherwise it writes the three digits of VX at I..I+2 and changes nothing else. |
| Properties.DumpThenLoad | chip8.c:791-821 | FX55 followed by FX65 from the same I reloads V0..VX, whatever happened to the registers in between. |
| Properties.DumpLoadFaults | chip8.c:791-821 | FX55 and FX65 each fault, with MemoryOutOfRange, exactly when I + X, the last address they touch, is outside RAM. |
| Properties.DumpLoadIndex | chip8.c:791-821 | Under CHIP8, FX55 and FX65 leave I just past the block; otherwise I is unchanged. |
| Properties.FontGlyphAddress | chip8.c:771-776 | With the font loaded, FX29 points I at the five-byte glyph of the digit in VX. |
| Properties.TimersCountDown | chip8.c:423-432 | After n ticks each timer is down by n, stopping at zero, and nothing else changes. |

## Left out

- SDL: window, rendering, audio and event handling (`handle_input`, `handle_audio`, the audio pause and resume in `update_timers`) are host I/O. (The code pauses the audio stream while the sound timer is non-zero and resumes it at zero, which looks inverted; audio is outside this model.)
- The main loop, the 60 Hz timing, argument parsing and configuration are not part of this model. `app.c`, `main.c`, `sdl.c` and `screen.c` are not modelled.
- ROM file I/O in `init_chip8` (open, size query, read and their failures) is replaced by the ROM's bytes as a parameter. Only the size check and the failed read of an empty ROM are modelled.
- `rand()` becomes the per-step parameter `rnd`, standing for `rand() % 256`.
- The decoded instruction is passed to the handlers as a parameter instead of being stored in the struct. The `state`, `rom_name` and `pixel_color` fields are not modelled.
- Chip8Engine.Chip8.EmulateInstruction: the C code has undefined behaviour on an out-of-bounds access. The model instead faults before the access, so it says nothing about what the C program would then do.
- Stack cells at or above the stack pointer are not part of `Model()`. The C code leaves stale return addresses there, but nothing reads them.
- The window is fixed at 64 x 32 pixels; the C code takes width and height from the configuration, whose defaults these are.
- The two sprite loops of DXYN and the copy loops of FX55/FX65 are separate methods (DrawSprite, DrawRow, PlotPixel, StoreRegisters, LoadRegisters). The C `break` at the right and bottom edges is written as a second conjunct of the loop guard.
- The `DEBUG` build's `print_debug_info` is diagnostic output.
