/** The reference semantics of the instruction engine on machine-state
    values: one function per opcode handler, the two-level dispatch, the
    fetch-decode-execute step, timer decay and machine reset. The class in
    chip8.dfy is proved to refine these functions. */
module Semantics {
  import opened Chip8Defs
  import opened InstructionTables
  import opened Sprite
  import opened ByteLogic

  /** The architectural state of `struct chip8`; `stack` holds the occupied
      slots stack[0 .. stack_ptr), oldest first. */
  datatype State = State(
    ram: seq<byte>,
    display: seq<bool>,
    stack: seq<word>,
    V: seq<byte>,
    I: word,
    PC: word,
    delayTimer: byte,
    soundTimer: byte,
    keypad: seq<bool>,
    draw: bool)

  /** The fixed sizes of `struct chip8`. */
  predicate WellFormed(m: State) {
    && |m.ram| == RAM_SIZE
    && |m.display| == PIXELS
    && |m.stack| <= STACK_SIZE
    && |m.V| == NUM_REGISTERS
    && |m.keypad| == NUM_KEYS
  }

  /** Assignment to a `uint16_t` / `uint8_t` field. */
  function Wrap16(v: int): word {
    v % 0x1_0000
  }

  function Wrap8(v: int): byte {
    v % 0x100
  }

  /** `PC += 2`: the fetch advance and every skip. */
  function AdvancePC(m: State): State {
    m.(PC := Wrap16(m.PC + 2))
  }

  /** The fetch advance moves PC two bytes on, wrapping at 16 bits, and
      changes nothing else. */
  lemma AdvancePCMoves(m: State)
    ensures AdvancePC(m).(PC := m.PC) == m
    ensures m.PC + 2 < 0x1_0000 ==> AdvancePC(m).PC == m.PC + 2
    ensures m.PC + 2 >= 0x1_0000 ==> AdvancePC(m).PC == m.PC + 2 - 0x1_0000
  {
  }

  function SetV(m: State, x: nibble, v: byte): (r: State)
    requires WellFormed(m)
    ensures WellFormed(r)
  {
    m.(V := m.V[x := v])
  }

  /** Writes result `v` into register x, then the flag into VF (so when x is
      F the flag wins). */
  function SetVWithFlag(m: State, x: nibble, v: byte, flag: bool): (r: State)
    requires WellFormed(m)
    ensures WellFormed(r)
  {
    m.(V := m.V[x := v][VF := if flag then 1 else 0])
  }

  // ---- family 0 -------------------------------------------------------------

  function Exec00E0(m: State): (r: State)
    requires WellFormed(m)
    ensures WellFormed(r)
  {
    m.(display := seq(PIXELS, _ => false), draw := true)
  }

  function Exec00EE(m: State): (r: Result<State>)
    requires WellFormed(m)
    ensures r.Ok? ==> WellFormed(r.value)
  {
    if |m.stack| == 0 then Err(StackUnderflow)
    else Ok(m.(PC := m.stack[|m.stack| - 1], stack := m.stack[..|m.stack| - 1]))
  }

  // ---- jumps, calls and skips -----------------------------------------------

  function Exec1NNN(m: State, nnn: addr): (r: State)
    ensures r.PC == nnn && r.(PC := m.PC) == m
  {
    m.(PC := nnn)
  }

  function Exec2NNN(m: State, nnn: addr): (r: Result<State>)
    requires WellFormed(m)
    ensures r.Ok? ==> WellFormed(r.value)
  {
    if |m.stack| == STACK_SIZE then Err(StackOverflow)
    else Ok(m.(stack := m.stack + [m.PC], PC := nnn))
  }

  function Exec3XNN(m: State, x: nibble, nn: byte): (r: State)
    requires WellFormed(m)
    ensures WellFormed(r)
  {
    if m.V[x] == nn then AdvancePC(m) else m
  }

  function Exec4XNN(m: State, x: nibble, nn: byte): (r: State)
    requires WellFormed(m)
    ensures WellFormed(r)
  {
    if m.V[x] != nn then AdvancePC(m) else m
  }

  function Exec5XY0(m: State, x: nibble, y: nibble, n: nibble): (r: State)
    requires WellFormed(m)
    ensures WellFormed(r)
  {
    if n != 0 then m
    else if m.V[x] == m.V[y] then AdvancePC(m) else m
  }

  function Exec9XY0(m: State, x: nibble, y: nibble, n: nibble): (r: State)
    requires WellFormed(m)
    ensures WellFormed(r)
  {
    if n != 0 then m
    else if m.V[x] != m.V[y] then AdvancePC(m) else m
  }

  function ExecBNNN(m: State, nnn: addr): (r: State)
    requires WellFormed(m)
    ensures WellFormed(r)
  {
    m.(PC := Wrap16(nnn + m.V[0]))
  }

  // ---- register arithmetic ----------------------------------------------------

  function Exec6XNN(m: State, x: nibble, nn: byte): (r: State)
    requires WellFormed(m)
    ensures WellFormed(r)
  {
    SetV(m, x, nn)
  }

  function Exec7XNN(m: State, x: nibble, nn: byte): (r: State)
    requires WellFormed(m)
    ensures WellFormed(r)
  {
    SetV(m, x, Wrap8(m.V[x] + nn))
  }

  function Exec8XY0(m: State, x: nibble, y: nibble): (r: State)
    requires WellFormed(m)
    ensures WellFormed(r)
  {
    SetV(m, x, m.V[y])
  }

  /** The CHIP8-only quirk of 8XY1/2/3: VF is cleared after the result. */
  function ResetFlagQuirk(m: State, ext: Extension): (r: State)
    requires WellFormed(m)
    ensures WellFormed(r)
  {
    if ext == CHIP8 then SetV(m, VF, 0) else m
  }

  function Exec8XY1(m: State, x: nibble, y: nibble, ext: Extension): (r: State)
    requires WellFormed(m)
    ensures WellFormed(r)
  {
    ResetFlagQuirk(SetV(m, x, Or8(m.V[x], m.V[y])), ext)
  }

  function Exec8XY2(m: State, x: nibble, y: nibble, ext: Extension): (r: State)
    requires WellFormed(m)
    ensures WellFormed(r)
  {
    ResetFlagQuirk(SetV(m, x, And8(m.V[x], m.V[y])), ext)
  }

  function Exec8XY3(m: State, x: nibble, y: nibble, ext: Extension): (r: State)
    requires WellFormed(m)
    ensures WellFormed(r)
  {
    ResetFlagQuirk(SetV(m, x, Xor8(m.V[x], m.V[y])), ext)
  }

  function Exec8XY4(m: State, x: nibble, y: nibble): (r: State)
    requires WellFormed(m)
    ensures WellFormed(r)
  {
    var sum := m.V[x] as int + m.V[y];
    SetVWithFlag(m, x, Wrap8(sum), sum > 255)
  }

  function Exec8XY5(m: State, x: nibble, y: nibble): (r: State)
    requires WellFormed(m)
    ensures WellFormed(r)
  {
    SetVWithFlag(m, x, Wrap8(m.V[x] as int - m.V[y]), m.V[y] <= m.V[x])
  }

  /** The register a shift reads: VY under CHIP8, VX otherwise. */
  function ShiftSource(m: State, x: nibble, y: nibble, ext: Extension): byte
    requires WellFormed(m)
  {
    if ext == CHIP8 then m.V[y] else m.V[x]
  }

  function Exec8XY6(m: State, x: nibble, y: nibble, ext: Extension): (r: State)
    requires WellFormed(m)
    ensures WellFormed(r)
  {
    var src := ShiftSource(m, x, y, ext);
    SetVWithFlag(m, x, src / 2, src % 2 == 1)
  }

  /** As in the source, the difference VY - VX is stored in VY. */
  function Exec8XY7(m: State, x: nibble, y: nibble): (r: State)
    requires WellFormed(m)
    ensures WellFormed(r)
  {
    SetVWithFlag(m, y, Wrap8(m.V[y] as int - m.V[x]), m.V[x] <= m.V[y])
  }

  function Exec8XYE(m: State, x: nibble, y: nibble, ext: Extension): (r: State)
    requires WellFormed(m)
    ensures WellFormed(r)
  {
    var src := ShiftSource(m, x, y, ext);
    SetVWithFlag(m, x, Wrap8(src * 2), src / 128 == 1)
  }

  // ---- index register, random, sprites ------------------------------------------

  function ExecANNN(m: State, nnn: addr): (r: State)
    ensures r.I == nnn && r.(I := m.I) == m
  {
    m.(I := nnn)
  }

  /** `rand() % 256` is the parameter `rnd`. */
  function ExecCXNN(m: State, x: nibble, nn: byte, rnd: byte): (r: State)
    requires WellFormed(m)
    ensures WellFormed(r)
  {
    SetV(m, x, And8(rnd, nn))
  }

  /** The `rows` sprite bytes starting at I. */
  function SpriteRows(m: State, rows: nat): (sprite: seq<byte>)
    requires WellFormed(m) && (rows == 0 || m.I + rows <= RAM_SIZE)
    ensures |sprite| == rows && forall k :: 0 <= k < rows ==> sprite[k] == m.ram[m.I + k]
  {
    if rows == 0 then [] else m.ram[m.I .. m.I + rows]
  }

  /** Sprite of n rows from RAM at I, drawn at (VX mod 64, VY mod 32) and
      clipped; only the rows above the bottom edge are read, and they must lie
      inside RAM (a sprite of no rows reads nothing). */
  function ExecDXYN(m: State, x: nibble, y: nibble, n: nibble): (r: Result<State>)
    requires WellFormed(m)
    ensures r.Ok? ==> WellFormed(r.value)
  {
    var x0, y0 := m.V[x] % WIDTH, m.V[y] % HEIGHT;
    var rows := Rows(n, y0);
    if rows > 0 && m.I + rows > RAM_SIZE then Err(MemoryOutOfRange)
    else
      var sprite := SpriteRows(m, rows);
      var hit := Collides(m.display, sprite, x0, y0);
      Ok(SetV(m, VF, if hit then 1 else 0).(display := XorSprite(m.display, sprite, x0, y0), draw := true))
  }

  // ---- keypad ----------------------------------------------------------------------

  function ExecEX9E(m: State, x: nibble): (r: Result<State>)
    requires WellFormed(m)
    ensures r.Ok? ==> WellFormed(r.value)
  {
    if m.V[x] >= NUM_KEYS then Err(KeyOutOfRange)
    else if m.keypad[m.V[x]] then Ok(AdvancePC(m)) else Ok(m)
  }

  function ExecEXA1(m: State, x: nibble): (r: Result<State>)
    requires WellFormed(m)
    ensures r.Ok? ==> WellFormed(r.value)
  {
    if m.V[x] >= NUM_KEYS then Err(KeyOutOfRange)
    else if !m.keypad[m.V[x]] then Ok(AdvancePC(m)) else Ok(m)
  }

  /** The lowest-numbered pressed key. */
  function FirstPressed(keys: seq<bool>): (k: Option<nat>)
    ensures k.Some? ==> k.value < |keys| && keys[k.value] && forall j :: 0 <= j < k.value ==> !keys[j]
    ensures k.None? ==> forall j :: 0 <= j < |keys| ==> !keys[j]
  {
    if |keys| == 0 then None
    else if keys[0] then Some(0)
    else match FirstPressed(keys[1..])
      case None => None
      case Some(k) => Some(k + 1)
  }

  function ExecFX0A(m: State, x: nibble): (r: State)
    requires WellFormed(m)
    ensures WellFormed(r)
  {
    match FirstPressed(m.keypad)
    case Some(k) => SetV(m, x, k)
    case None => m.(PC := Wrap16(m.PC - 2))
  }

  // ---- timers, index arithmetic, memory --------------------------------------------

  function ExecFX07(m: State, x: nibble): (r: State)
    requires WellFormed(m)
    ensures WellFormed(r)
  {
    SetV(m, x, m.delayTimer)
  }

  function ExecFX15(m: State, x: nibble): (r: State)
    requires WellFormed(m)
    ensures WellFormed(r)
  {
    m.(delayTimer := m.V[x])
  }

  function ExecFX18(m: State, x: nibble): (r: State)
    requires WellFormed(m)
    ensures WellFormed(r)
  {
    m.(soundTimer := m.V[x])
  }

  function ExecFX1E(m: State, x: nibble): (r: State)
    requires WellFormed(m)
    ensures WellFormed(r)
  {
    m.(I := Wrap16(m.I + m.V[x]))
  }

  /** Each font glyph is five bytes long. */
  function ExecFX29(m: State, x: nibble): (r: State)
    requires WellFormed(m)
    ensures WellFormed(r)
  {
    m.(I := m.V[x] as int * 5)
  }

  /** Hundreds, tens and ones of a byte, computed as the source does. */
  function Bcd(v: byte): (digits: (byte, byte, byte))
    ensures digits.0 <= 9 && digits.1 <= 9 && digits.2 <= 9
    ensures 100 * digits.0 + 10 * digits.1 + digits.2 == v
  {
    (v / 10 / 10, (v / 10) % 10, v % 10)
  }

  function ExecFX33(m: State, x: nibble): (r: Result<State>)
    requires WellFormed(m)
    ensures r.Ok? ==> WellFormed(r.value)
  {
    if m.I + 2 >= RAM_SIZE then Err(MemoryOutOfRange)
    else
      var digits := Bcd(m.V[x]);
      Ok(m.(ram := m.ram[m.I := digits.0][m.I + 1 := digits.1][m.I + 2 := digits.2]))
  }

  /** RAM[I .. I + x] := V0 .. VX; under CHIP8, I ends at I + x + 1. */
  function ExecFX55(m: State, x: nibble, ext: Extension): (r: Result<State>)
    requires WellFormed(m)
    ensures r.Ok? ==> WellFormed(r.value)
  {
    if m.I + x >= RAM_SIZE then Err(MemoryOutOfRange)
    else
      Ok(m.(ram := m.ram[..m.I] + m.V[..x + 1] + m.ram[m.I + x + 1..],
            I := if ext == CHIP8 then m.I + x + 1 else m.I))
  }

  /** V0 .. VX := RAM[I .. I + x]; under CHIP8, I ends at I + x + 1. */
  function ExecFX65(m: State, x: nibble, ext: Extension): (r: Result<State>)
    requires WellFormed(m)
    ensures r.Ok? ==> WellFormed(r.value)
  {
    if m.I + x >= RAM_SIZE then Err(MemoryOutOfRange)
    else
      Ok(m.(V := m.ram[m.I .. m.I + x + 1] + m.V[x + 1..],
            I := if ext == CHIP8 then m.I + x + 1 else m.I))
  }

  // ---- dispatch ----------------------------------------------------------------------

  /** Runs one handler that does not consult a further table. */
  function ExecLeaf(h: Handler, m: State, inst: Instruction, ext: Extension, rnd: byte): (r: Result<State>)
    requires WellFormed(m) && !IsFamily(h)
    ensures r.Ok? ==> WellFormed(r.value)
  {
    match h
    case H00E0 => Ok(Exec00E0(m))
    case H00EE => Exec00EE(m)
    case H1NNN => Ok(Exec1NNN(m, inst.NNN))
    case H2NNN => Exec2NNN(m, inst.NNN)
    case H3XNN => Ok(Exec3XNN(m, inst.X, inst.NN))
    case H4XNN => Ok(Exec4XNN(m, inst.X, inst.NN))
    case H5XY0 => Ok(Exec5XY0(m, inst.X, inst.Y, inst.N))
    case H6XNN => Ok(Exec6XNN(m, inst.X, inst.NN))
    case H7XNN => Ok(Exec7XNN(m, inst.X, inst.NN))
    case H8XY0 => Ok(Exec8XY0(m, inst.X, inst.Y))
    case H8XY1 => Ok(Exec8XY1(m, inst.X, inst.Y, ext))
    case H8XY2 => Ok(Exec8XY2(m, inst.X, inst.Y, ext))
    case H8XY3 => Ok(Exec8XY3(m, inst.X, inst.Y, ext))
    case H8XY4 => Ok(Exec8XY4(m, inst.X, inst.Y))
    case H8XY5 => Ok(Exec8XY5(m, inst.X, inst.Y))
    case H8XY6 => Ok(Exec8XY6(m, inst.X, inst.Y, ext))
    case H8XY7 => Ok(Exec8XY7(m, inst.X, inst.Y))
    case H8XYE => Ok(Exec8XYE(m, inst.X, inst.Y, ext))
    case H9XY0 => Ok(Exec9XY0(m, inst.X, inst.Y, inst.N))
    case HANNN => Ok(ExecANNN(m, inst.NNN))
    case HBNNN => Ok(ExecBNNN(m, inst.NNN))
    case HCXNN => Ok(ExecCXNN(m, inst.X, inst.NN, rnd))
    case HDXYN => ExecDXYN(m, inst.X, inst.Y, inst.N)
    case HEX9E => ExecEX9E(m, inst.X)
    case HEXA1 => ExecEXA1(m, inst.X)
    case HFX07 => Ok(ExecFX07(m, inst.X))
    case HFX0A => Ok(ExecFX0A(m, inst.X))
    case HFX15 => Ok(ExecFX15(m, inst.X))
    case HFX18 => Ok(ExecFX18(m, inst.X))
    case HFX1E => Ok(ExecFX1E(m, inst.X))
    case HFX29 => Ok(ExecFX29(m, inst.X))
    case HFX33 => ExecFX33(m, inst.X)
    case HFX55 => ExecFX55(m, inst.X, ext)
    case HFX65 => ExecFX65(m, inst.X, ext)
  }

  /** A second-level table slot: NULL does nothing. */
  function ExecSlot(slot: Option<Handler>, m: State, inst: Instruction, ext: Extension, rnd: byte): (r: Result<State>)
    requires WellFormed(m) && (slot.Some? ==> !IsFamily(slot.value))
    ensures r.Ok? ==> WellFormed(r.value)
  {
    match slot
    case None => Ok(m)
    case Some(h) => ExecLeaf(h, m, inst, ext, rnd)
  }

  /** `opcode_table[high_nibble]`, with the family handlers consulting their
      tables. */
  function Exec(m: State, inst: Instruction, ext: Extension, rnd: byte): (r: Result<State>)
    requires WellFormed(m)
    ensures r.Ok? ==> WellFormed(r.value)
  {
    var h := OpcodeTable(HighNibble(inst));
    if h == H0NNN then ExecSlot(Table0NNN(inst.NN), m, inst, ext, rnd)
    else if h == H8XYN then ExecSlot(Table8XYN(inst.N), m, inst, ext, rnd)
    else if h == HEXNN then ExecSlot(TableEXNN(inst.NN), m, inst, ext, rnd)
    else if h == HFXNN then ExecSlot(TableFXNN(inst.NN), m, inst, ext, rnd)
    else ExecLeaf(h, m, inst, ext, rnd)
  }

  /** The opcode at PC, big-endian. */
  function FetchOpcode(m: State): (op: word)
    requires WellFormed(m) && m.PC + 1 < RAM_SIZE
  {
    OpcodeOf(m.ram[m.PC], m.ram[m.PC + 1])
  }

  /** The fetched opcode is big-endian: its high byte is RAM[PC] and its low
      byte RAM[PC + 1]. */
  lemma FetchOpcodeBytes(m: State)
    requires WellFormed(m) && m.PC + 1 < RAM_SIZE
    ensures FetchOpcode(m) / 0x100 == m.ram[m.PC] && FetchOpcode(m) % 0x100 == m.ram[m.PC + 1]
  {
  }

  /** One `emulate_instruction`: fetch at PC (both bytes must be in RAM),
      advance PC by 2, decode, dispatch. A successful step keeps every size
      invariant of the machine: 4096 RAM cells, 64 x 32 pixels, at most 12
      return addresses, 16 registers and 16 keys. */
  function Step(m: State, ext: Extension, rnd: byte): (r: Result<State>)
    requires WellFormed(m)
    ensures r.Ok? ==> WellFormed(r.value)
  {
    if m.PC + 1 >= RAM_SIZE then Err(MemoryOutOfRange)
    else Exec(AdvancePC(m), Decode(FetchOpcode(m)), ext, rnd)
  }

  // ---- timers and reset ------------------------------------------------------------

  /** `update_timers`: each timer above zero loses one. */
  function DecayTimers(m: State): (r: State)
    ensures r.(delayTimer := m.delayTimer, soundTimer := m.soundTimer) == m
    ensures m.delayTimer > 0 ==> r.delayTimer + 1 == m.delayTimer
    ensures m.delayTimer == 0 ==> r.delayTimer == 0
    ensures m.soundTimer > 0 ==> r.soundTimer + 1 == m.soundTimer
    ensures m.soundTimer == 0 ==> r.soundTimer == 0
  {
    m.(delayTimer := if m.delayTimer > 0 then m.delayTimer - 1 else m.delayTimer,
       soundTimer := if m.soundTimer > 0 then m.soundTimer - 1 else m.soundTimer)
  }

  /** The built-in hexadecimal font, five bytes per glyph 0..F. */
  const FONT: seq<byte> := [
    0xF0, 0x90, 0x90, 0x90, 0xF0, // 0
    0x20, 0x60, 0x20, 0x20, 0x70, // 1
    0xF0, 0x10, 0xF0, 0x80, 0xF0, // 2
    0xF0, 0x10, 0xF0, 0x10, 0xF0, // 3
    0x90, 0x90, 0xF0, 0x10, 0x10, // 4
    0xF0, 0x80, 0xF0, 0x10, 0xF0, // 5
    0xF0, 0x80, 0xF0, 0x90, 0xF0, // 6
    0xF0, 0x10, 0x20, 0x40, 0x40, // 7
    0xF0, 0x90, 0xF0, 0x90, 0xF0, // 8
    0xF0, 0x90, 0xF0, 0x10, 0xF0, // 9
    0xF0, 0x90, 0xF0, 0x90, 0x90, // A
    0xE0, 0x90, 0xE0, 0x90, 0xE0, // B
    0xF0, 0x80, 0x80, 0x80, 0xF0, // C
    0xE0, 0x90, 0x90, 0x90, 0xE0, // D
    0xF0, 0x80, 0xF0, 0x80, 0xF0, // E
    0xF0, 0x80, 0xF0, 0x80, 0x80  // F
  ]

  /** The machine right after the reset's memset and font copy. */
  function Blank(): (m: State)
    ensures WellFormed(m)
  {
    State(FONT + seq(RAM_SIZE - |FONT|, _ => 0), seq(PIXELS, _ => false), [], seq(NUM_REGISTERS, _ => 0),
          0, 0, 0, 0, seq(NUM_KEYS, _ => false), false)
  }

  /** `init_chip8` given the ROM's bytes: refuses a ROM that does not fit
      above the entry point, and an empty one (reading one item of size zero
      reports failure); otherwise the font sits at RAM 0..79, the ROM at
      the entry point, PC is the entry point, the stack is empty and every
      other byte, register, pixel, key and timer is zero. */
  function Reset(rom: seq<byte>): (r: Result<State>)
    ensures r.Ok? <==> 0 < |rom| <= RAM_SIZE - ENTRY_POINT
    ensures r.Err? ==> r.error == (if |rom| > RAM_SIZE - ENTRY_POINT then RomTooLarge else RomUnreadable)
    ensures r.Ok? ==>
      && WellFormed(r.value)
      && r.value.ram[..|FONT|] == FONT
      && r.value.ram[ENTRY_POINT .. ENTRY_POINT + |rom|] == rom
      && (forall k :: |FONT| <= k < ENTRY_POINT || ENTRY_POINT + |rom| <= k < RAM_SIZE ==> r.value.ram[k] == 0)
      && r.value == Blank().(ram := r.value.ram, PC := ENTRY_POINT)
  {
    if |rom| > RAM_SIZE - ENTRY_POINT then Err(RomTooLarge)
    else if |rom| == 0 then Err(RomUnreadable)
    else
      var blank := Blank();
      Ok(blank.(ram := blank.ram[..ENTRY_POINT] + rom + blank.ram[ENTRY_POINT + |rom|..], PC := ENTRY_POINT))
  }
}
