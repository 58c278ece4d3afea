/** The machine object and its instruction engine: `struct chip8` as a class
    whose fixed-size buffers are arrays updated in place, one method per C
    handler, the table-driven dispatch, `emulate_instruction`, `update_timers`
    and `init_chip8`. Every method is proved against the value semantics in
    semantics.dfy through `Model()`. */
module Chip8Engine {
  import opened Chip8Defs
  import opened InstructionTables
  import opened Sprite
  import opened ByteLogic
  import opened Semantics

  /** A handler's outcome as seen in the machine: on success the new state is
      the reference result; on a fault nothing has changed. */
  ghost predicate Reflects(r: Result<State>, fault: Option<Error>, now: State, before: State) {
    match r
    case Ok(s) => fault == None && now == s
    case Err(e) => fault == Some(e) && now == before
  }

  class Chip8 {
    const ram: array<byte>
    const display: array<bool>
    /** Return addresses; slots [0, stackPtr) are occupied. */
    const stack: array<word>
    var stackPtr: nat
    const V: array<byte>
    var I: word
    var PC: word
    var delayTimer: byte
    var soundTimer: byte
    const keypad: array<bool>
    var draw: bool

    ghost predicate Valid()
      reads this
    {
      && ram.Length == RAM_SIZE
      && display.Length == PIXELS
      && stack.Length == STACK_SIZE
      && V.Length == NUM_REGISTERS
      && keypad.Length == NUM_KEYS
      && stackPtr <= STACK_SIZE
      && ram != V
      && display != keypad
    }

    /** The architectural state the object holds. */
    ghost function Model(): (m: State)
      reads this, ram, display, stack, V, keypad
      requires Valid()
      ensures WellFormed(m)
    {
      State(ram[..], display[..], stack[..stackPtr], V[..], I, PC, delayTimer, soundTimer, keypad[..], draw)
    }

    /** A zero-filled machine, as the static storage the C program starts from. */
    constructor ()
      ensures Valid() && stackPtr == 0
      ensures Model() == State(seq(RAM_SIZE, _ => 0), seq(PIXELS, _ => false), [], seq(NUM_REGISTERS, _ => 0),
                               0, 0, 0, 0, seq(NUM_KEYS, _ => false), false)
      ensures fresh(ram) && fresh(display) && fresh(stack) && fresh(V) && fresh(keypad)
    {
      ram := new byte[RAM_SIZE](_ => 0);
      display := new bool[PIXELS](_ => false);
      stack := new word[STACK_SIZE](_ => 0);
      V := new byte[NUM_REGISTERS](_ => 0);
      keypad := new bool[NUM_KEYS](_ => false);
      stackPtr, I, PC, delayTimer, soundTimer, draw := 0, 0, 0, 0, 0, false;
    }

    /** `init_chip8` given the ROM's bytes: clears the machine, loads the
        font, refuses an oversized ROM (leaving the cleared machine with the
        font), and an empty one, whose read of zero bytes reports failure;
        otherwise copies the ROM to the entry point and starts there. */
    method Init(rom: seq<byte>) returns (ok: bool)
      requires Valid()
      modifies this, ram, display, stack, V, keypad
      ensures Valid()
      ensures ok <==> Reset(rom).Ok?
      ensures ok ==> Model() == Reset(rom).value
      ensures !ok ==> Model() == Blank()
    {
      Clear();
      if |rom| > RAM_SIZE - ENTRY_POINT {
        return false;
      }
      if |rom| == 0 {
        return false;
      }
      LoadRom(rom);
      return true;
    }

    /** The memset of the whole machine followed by the font copy. */
    method Clear()
      requires Valid()
      modifies this, ram, display, stack, V, keypad
      ensures Valid()
      ensures Model() == Blank()
    {
      LoadFont();
      forall k | 0 <= k < PIXELS {
        display[k] := false;
      }
      forall k | 0 <= k < STACK_SIZE {
        stack[k] := 0;
      }
      forall k | 0 <= k < NUM_REGISTERS {
        V[k] := 0;
      }
      forall k | 0 <= k < NUM_KEYS {
        keypad[k] := false;
      }
      stackPtr, I, PC, delayTimer, soundTimer, draw := 0, 0, 0, 0, 0, false;
    }

    /** RAM cleared, then the font copied to its start. */
    method LoadFont()
      requires Valid()
      modifies ram
      ensures Valid()
      ensures ram[..] == Blank().ram
    {
      forall k | 0 <= k < RAM_SIZE {
        ram[k] := 0;
      }
      forall k | 0 <= k < |FONT| {
        ram[k] := FONT[k];
      }
    }

    /** The ROM copy to the entry point and the jump there. */
    method LoadRom(rom: seq<byte>)
      requires Valid() && Model() == Blank() && 0 < |rom| <= RAM_SIZE - ENTRY_POINT
      modifies this, ram
      ensures Valid()
      ensures Model() == Reset(rom).value
    {
      forall k | 0 <= k < |rom| {
        ram[ENTRY_POINT + k] := rom[k];
      }
      PC := ENTRY_POINT;
      assert ram[..] == Reset(rom).value.ram;
    }

    /** `update_timers` (the audio device calls are not modelled). */
    method UpdateTimers()
      requires Valid()
      modifies this
      ensures Valid()
      ensures Model() == DecayTimers(old(Model()))
    {
      if delayTimer > 0 {
        delayTimer := delayTimer - 1;
      }
      if soundTimer > 0 {
        soundTimer := soundTimer - 1;
      }
    }

    /** `emulate_instruction`: fetch the big-endian opcode at PC, advance PC,
        decode, dispatch. A fault leaves the machine as it was before the
        handler ran. */
    method EmulateInstruction(ext: Extension, rnd: byte) returns (fault: Option<Error>)
      requires Valid()
      modifies this, ram, display, stack, V
      ensures Valid()
      ensures var r := Step(old(Model()), ext, rnd);
        && (r.Ok? ==> fault == None && Model() == r.value)
        && (r.Err? ==> fault == Some(r.error))
        && (r.Err? ==> Model() == if old(PC) + 1 >= RAM_SIZE then old(Model()) else AdvancePC(old(Model())))
    {
      if PC + 1 >= RAM_SIZE {
        return Some(MemoryOutOfRange);
      }
      var opcode := OpcodeOf(ram[PC], ram[PC + 1]);
      ghost var m0 := Model();
      assert opcode == FetchOpcode(m0);
      PC := Wrap16(PC as int + 2);
      assert Model() == AdvancePC(m0);
      fault := Dispatch(Decode(opcode), ext, rnd);
    }

    /** `opcode_table[high_nibble]`. */
    method Dispatch(inst: Instruction, ext: Extension, rnd: byte) returns (fault: Option<Error>)
      requires Valid()
      modifies this, ram, display, stack, V
      ensures Valid()
      ensures Reflects(Exec(old(Model()), inst, ext, rnd), fault, Model(), old(Model()))
    {
      var h := OpcodeTable(HighNibble(inst));
      if h == H0NNN {
        fault := Instr0NNN(inst, ext, rnd);
      } else if h == H8XYN {
        fault := Instr8XYN(inst, ext, rnd);
      } else if h == HEXNN {
        fault := InstrEXNN(inst, ext, rnd);
      } else if h == HFXNN {
        fault := InstrFXNN(inst, ext, rnd);
      } else {
        fault := Call(h, inst, ext, rnd);
      }
    }

    /** `instr_0NNN`: runs `table_0NNN[NN]` if that slot is filled. */
    method Instr0NNN(inst: Instruction, ext: Extension, rnd: byte) returns (fault: Option<Error>)
      requires Valid()
      modifies this, ram, display, stack, V
      ensures Valid()
      ensures Reflects(ExecSlot(Table0NNN(inst.NN), old(Model()), inst, ext, rnd), fault, Model(), old(Model()))
    {
      var slot := Table0NNN(inst.NN);
      fault := None;
      if slot.Some? {
        fault := Call(slot.value, inst, ext, rnd);
      }
    }

    /** `instr_8XYN`: runs `table_8XYN[N]` if that slot is filled. */
    method Instr8XYN(inst: Instruction, ext: Extension, rnd: byte) returns (fault: Option<Error>)
      requires Valid()
      modifies this, ram, display, stack, V
      ensures Valid()
      ensures Reflects(ExecSlot(Table8XYN(inst.N), old(Model()), inst, ext, rnd), fault, Model(), old(Model()))
    {
      var slot := Table8XYN(inst.N);
      fault := None;
      if slot.Some? {
        fault := Call(slot.value, inst, ext, rnd);
      }
    }

    /** `instr_EXNN`: runs `table_EXNN[NN]` if that slot is filled. */
    method InstrEXNN(inst: Instruction, ext: Extension, rnd: byte) returns (fault: Option<Error>)
      requires Valid()
      modifies this, ram, display, stack, V
      ensures Valid()
      ensures Reflects(ExecSlot(TableEXNN(inst.NN), old(Model()), inst, ext, rnd), fault, Model(), old(Model()))
    {
      var slot := TableEXNN(inst.NN);
      fault := None;
      if slot.Some? {
        fault := Call(slot.value, inst, ext, rnd);
      }
    }

    /** `instr_FXNN`: runs `table_FXNN[NN]` if that slot is filled. */
    method InstrFXNN(inst: Instruction, ext: Extension, rnd: byte) returns (fault: Option<Error>)
      requires Valid()
      modifies this, ram, display, stack, V
      ensures Valid()
      ensures Reflects(ExecSlot(TableFXNN(inst.NN), old(Model()), inst, ext, rnd), fault, Model(), old(Model()))
    {
      var slot := TableFXNN(inst.NN);
      fault := None;
      if slot.Some? {
        fault := Call(slot.value, inst, ext, rnd);
      }
    }

    /** The call through a handler pointer found in one of the tables. */
    method Call(h: Handler, inst: Instruction, ext: Extension, rnd: byte) returns (fault: Option<Error>)
      requires Valid() && !IsFamily(h)
      modifies this, ram, display, stack, V
      ensures Valid()
      ensures Reflects(ExecLeaf(h, old(Model()), inst, ext, rnd), fault, Model(), old(Model()))
    {
      fault := None;
      ghost var m0 := Model();
      match h
      case H00E0 => { Instr00E0(); }
      case H00EE => { fault := Instr00EE(); }
      case H1NNN => { Instr1NNN(inst); }
      case H2NNN => { fault := Instr2NNN(inst); }
      case H3XNN => { Instr3XNN(inst); }
      case H4XNN => { Instr4XNN(inst); }
      case H5XY0 => { Instr5XY0(inst); }
      case H6XNN => { Instr6XNN(inst); }
      case H7XNN => { Instr7XNN(inst); }
      case H8XY0 => { Instr8XY0(inst); }
      case H8XY1 => { Instr8XY1(inst, ext); }
      case H8XY2 => { Instr8XY2(inst, ext); }
      case H8XY3 => { Instr8XY3(inst, ext); }
      case H8XY4 => { Instr8XY4(inst); }
      case H8XY5 => { Instr8XY5(inst); }
      case H8XY6 => { Instr8XY6(inst, ext); }
      case H8XY7 => { Instr8XY7(inst); }
      case H8XYE => { Instr8XYE(inst, ext); }
      case H9XY0 => { Instr9XY0(inst); }
      case HANNN => { InstrANNN(inst); }
      case HBNNN => { InstrBNNN(inst); }
      case HCXNN => { InstrCXNN(inst, rnd); }
      case HDXYN => { fault := InstrDXYN(inst); }
      case HEX9E => { fault := InstrEX9E(inst); }
      case HEXA1 => { fault := InstrEXA1(inst); }
      case HFX07 => { InstrFX07(inst); }
      case HFX0A => { InstrFX0A(inst); }
      case HFX15 => { InstrFX15(inst); }
      case HFX18 => { InstrFX18(inst); }
      case HFX1E => { InstrFX1E(inst); }
      case HFX29 => { InstrFX29(inst); }
      case HFX33 => { fault := InstrFX33(inst); }
      case HFX55 => { fault := InstrFX55(inst, ext); }
      case HFX65 => { fault := InstrFX65(inst, ext); }
    }

    // ---- handlers ------------------------------------------------------------------

    method Instr00E0()
      requires Valid()
      modifies this, display
      ensures Valid()
      ensures Model() == Exec00E0(old(Model()))
    {
      forall k | 0 <= k < PIXELS {
        display[k] := false;
      }
      draw := true;
    }

    method Instr00EE() returns (fault: Option<Error>)
      requires Valid()
      modifies this
      ensures Valid()
      ensures Reflects(Exec00EE(old(Model())), fault, Model(), old(Model()))
    {
      if stackPtr == 0 {
        return Some(StackUnderflow);
      }
      stackPtr := stackPtr - 1;
      PC := stack[stackPtr];
      return None;
    }

    method Instr1NNN(inst: Instruction)
      requires Valid()
      modifies this
      ensures Valid()
      ensures Model() == Exec1NNN(old(Model()), inst.NNN)
    {
      PC := inst.NNN;
    }

    method Instr2NNN(inst: Instruction) returns (fault: Option<Error>)
      requires Valid()
      modifies this, stack
      ensures Valid()
      ensures Reflects(Exec2NNN(old(Model()), inst.NNN), fault, Model(), old(Model()))
    {
      if stackPtr == STACK_SIZE {
        return Some(StackOverflow);
      }
      stack[stackPtr] := PC;
      stackPtr := stackPtr + 1;
      PC := inst.NNN;
      return None;
    }

    method Instr3XNN(inst: Instruction)
      requires Valid()
      modifies this
      ensures Valid()
      ensures Model() == Exec3XNN(old(Model()), inst.X, inst.NN)
    {
      if V[inst.X] == inst.NN {
        PC := Wrap16(PC as int + 2);
      }
    }

    method Instr4XNN(inst: Instruction)
      requires Valid()
      modifies this
      ensures Valid()
      ensures Model() == Exec4XNN(old(Model()), inst.X, inst.NN)
    {
      if V[inst.X] != inst.NN {
        PC := Wrap16(PC as int + 2);
      }
    }

    method Instr5XY0(inst: Instruction)
      requires Valid()
      modifies this
      ensures Valid()
      ensures Model() == Exec5XY0(old(Model()), inst.X, inst.Y, inst.N)
    {
      if inst.N != 0 {
        return;
      }
      if V[inst.X] == V[inst.Y] {
        PC := Wrap16(PC as int + 2);
      }
    }

    method Instr6XNN(inst: Instruction)
      requires Valid()
      modifies V
      ensures Valid()
      ensures Model() == Exec6XNN(old(Model()), inst.X, inst.NN)
    {
      V[inst.X] := inst.NN;
    }

    method Instr7XNN(inst: Instruction)
      requires Valid()
      modifies V
      ensures Valid()
      ensures Model() == Exec7XNN(old(Model()), inst.X, inst.NN)
    {
      V[inst.X] := Wrap8(V[inst.X] as int + inst.NN);
    }

    method Instr8XY0(inst: Instruction)
      requires Valid()
      modifies V
      ensures Valid()
      ensures Model() == Exec8XY0(old(Model()), inst.X, inst.Y)
    {
      V[inst.X] := V[inst.Y];
    }

    method Instr8XY1(inst: Instruction, ext: Extension)
      requires Valid()
      modifies V
      ensures Valid()
      ensures Model() == Exec8XY1(old(Model()), inst.X, inst.Y, ext)
    {
      V[inst.X] := Or8(V[inst.X], V[inst.Y]);
      if ext == CHIP8 {
        V[VF] := 0;
      }
    }

    method Instr8XY2(inst: Instruction, ext: Extension)
      requires Valid()
      modifies V
      ensures Valid()
      ensures Model() == Exec8XY2(old(Model()), inst.X, inst.Y, ext)
    {
      V[inst.X] := And8(V[inst.X], V[inst.Y]);
      if ext == CHIP8 {
        V[VF] := 0;
      }
    }

    method Instr8XY3(inst: Instruction, ext: Extension)
      requires Valid()
      modifies V
      ensures Valid()
      ensures Model() == Exec8XY3(old(Model()), inst.X, inst.Y, ext)
    {
      V[inst.X] := Xor8(V[inst.X], V[inst.Y]);
      if ext == CHIP8 {
        V[VF] := 0;
      }
    }

    method Instr8XY4(inst: Instruction)
      requires Valid()
      modifies V
      ensures Valid()
      ensures Model() == Exec8XY4(old(Model()), inst.X, inst.Y)
    {
      var carry := V[inst.X] as int + V[inst.Y] > 255;
      V[inst.X] := Wrap8(V[inst.X] as int + V[inst.Y]);
      V[VF] := if carry then 1 else 0;
    }

    method Instr8XY5(inst: Instruction)
      requires Valid()
      modifies V
      ensures Valid()
      ensures Model() == Exec8XY5(old(Model()), inst.X, inst.Y)
    {
      var carry := V[inst.Y] <= V[inst.X];
      V[inst.X] := Wrap8(V[inst.X] as int - V[inst.Y]);
      V[VF] := if carry then 1 else 0;
    }

    method Instr8XY6(inst: Instruction, ext: Extension)
      requires Valid()
      modifies V
      ensures Valid()
      ensures Model() == Exec8XY6(old(Model()), inst.X, inst.Y, ext)
    {
      var carry;
      if ext == CHIP8 {
        carry := V[inst.Y] % 2;
        V[inst.X] := V[inst.Y] / 2;
      } else {
        carry := V[inst.X] % 2;
        V[inst.X] := V[inst.X] / 2;
      }
      V[VF] := carry;
    }

    method Instr8XY7(inst: Instruction)
      requires Valid()
      modifies V
      ensures Valid()
      ensures Model() == Exec8XY7(old(Model()), inst.X, inst.Y)
    {
      var carry := V[inst.X] <= V[inst.Y];
      V[inst.Y] := Wrap8(V[inst.Y] as int - V[inst.X]);
      V[VF] := if carry then 1 else 0;
    }

    method Instr8XYE(inst: Instruction, ext: Extension)
      requires Valid()
      modifies V
      ensures Valid()
      ensures Model() == Exec8XYE(old(Model()), inst.X, inst.Y, ext)
    {
      var carry;
      if ext == CHIP8 {
        carry := V[inst.Y] / 128;
        V[inst.X] := Wrap8(V[inst.Y] as int * 2);
      } else {
        carry := V[inst.X] / 128;
        V[inst.X] := Wrap8(V[inst.X] as int * 2);
      }
      V[VF] := carry;
    }

    method Instr9XY0(inst: Instruction)
      requires Valid()
      modifies this
      ensures Valid()
      ensures Model() == Exec9XY0(old(Model()), inst.X, inst.Y, inst.N)
    {
      if inst.N != 0 {
        return;
      }
      if V[inst.X] != V[inst.Y] {
        PC := Wrap16(PC as int + 2);
      }
    }

    method InstrANNN(inst: Instruction)
      requires Valid()
      modifies this
      ensures Valid()
      ensures Model() == ExecANNN(old(Model()), inst.NNN)
    {
      I := inst.NNN;
    }

    method InstrBNNN(inst: Instruction)
      requires Valid()
      modifies this
      ensures Valid()
      ensures Model() == ExecBNNN(old(Model()), inst.NNN)
    {
      PC := Wrap16(inst.NNN as int + V[0]);
    }

    /** `rand() % 256` arrives as `rnd`. */
    method InstrCXNN(inst: Instruction, rnd: byte)
      requires Valid()
      modifies V
      ensures Valid()
      ensures Model() == ExecCXNN(old(Model()), inst.X, inst.NN, rnd)
    {
      V[inst.X] := And8(rnd, inst.NN);
    }

    method InstrDXYN(inst: Instruction) returns (fault: Option<Error>)
      requires Valid()
      modifies this, display, V
      ensures Valid()
      ensures Reflects(ExecDXYN(old(Model()), inst.X, inst.Y, inst.N), fault, Model(), old(Model()))
    {
      var xCoord: nat := V[inst.X] % WIDTH;
      var yCoord: nat := V[inst.Y] % HEIGHT;
      var rows := Rows(inst.N, yCoord);
      if rows > 0 && I + rows > RAM_SIZE {
        return Some(MemoryOutOfRange);
      }
      ghost var m0 := Model();
      ghost var sprite := SpriteRows(m0, rows);
      V[VF] := 0;
      DrawSprite(xCoord, yCoord, inst.N, sprite);
      draw := true;
      assert Model() == ExecDXYN(m0, inst.X, inst.Y, inst.N).value;
      return None;
    }

    /** The sprite loop: row by row from RAM at I, bit 7 first, XOR onto the
        framebuffer, flag any on-pixel turned off, stop a row at the right
        edge and the sprite at the bottom edge (the C loop's `break` at the
        bottom edge is the second conjunct of the loop guard here). */
    method DrawSprite(xStart: nat, yStart: nat, n: nibble, ghost sprite: seq<byte>)
      requires Valid() && xStart < WIDTH && yStart < HEIGHT && |sprite| == Rows(n, yStart)
      requires |sprite| > 0 ==> I + |sprite| <= RAM_SIZE
      requires forall k :: 0 <= k < |sprite| ==> sprite[k] == ram[I + k]
      requires V[VF] == 0
      modifies display, V
      ensures Valid() && Progress(old(display[..]), sprite, xStart, yStart, |sprite|, 0)
      ensures display[..] == XorSprite(old(display[..]), sprite, xStart, yStart)
      ensures V[..] == old(V[..])[VF := if Collides(old(display[..]), sprite, xStart, yStart) then 1 else 0]
    {
      ghost var before := display[..];
      ghost var v0 := V[..];
      var yCoord := yStart;
      var i := 0;
      while i < n && yCoord < HEIGHT
        invariant 0 <= i <= |sprite| && yCoord == yStart + i && yCoord <= HEIGHT
        invariant Progress(before, sprite, xStart, yStart, i, 0)
        invariant Drawn(display[..], before, sprite, xStart, yStart, i, 0)
        invariant V[..] == v0[VF := if HitUpTo(before, sprite, xStart, yStart, i, 0) then 1 else 0]
      {
        var spriteData := ram[I + i];
        DrawRow(spriteData, xStart, yCoord, before, sprite, yStart, i, v0);
        DrawnRowStep(display[..], before, sprite, xStart, yStart, i);
        yCoord := yCoord + 1;
        i := i + 1;
      }
      assert display[..] == XorSprite(before, sprite, xStart, yStart);
    }

    /** One sprite row of the DXYN loop: bit 7 first, XOR each bit onto the
        framebuffer from column xStart on, flag an on-pixel turned off, stop
        at the right edge (the C loop's `break` once the column reaches the
        edge is the second conjunct of the loop guard here). */
    method DrawRow(spriteData: byte, xStart: nat, yCoord: nat, ghost before: seq<bool>, ghost sprite: seq<byte>,
                   ghost y0: nat, ghost i: nat, ghost v0: seq<byte>)
      requires Valid() && xStart < WIDTH && Progress(before, sprite, xStart, y0, i, 0) && i < |sprite|
      requires yCoord == y0 + i && spriteData == sprite[i] && |v0| == NUM_REGISTERS
      requires Drawn(display[..], before, sprite, xStart, y0, i, 0)
      requires V[..] == v0[VF := if HitUpTo(before, sprite, xStart, y0, i, 0) then 1 else 0]
      modifies display, V
      ensures Valid() && Progress(before, sprite, xStart, y0, i, Cols(xStart))
      ensures Drawn(display[..], before, sprite, xStart, y0, i, Cols(xStart))
      ensures V[..] == v0[VF := if HitUpTo(before, sprite, xStart, y0, i, Cols(xStart)) then 1 else 0]
    {
      var xCoord := xStart;
      var j := 7;
      while j >= 0 && xCoord < WIDTH
        invariant -1 <= j <= 7 && xCoord == xStart + (7 - j) && xCoord <= WIDTH && 7 - j <= Cols(xStart)
        invariant Progress(before, sprite, xStart, y0, i, 7 - j)
        invariant Drawn(display[..], before, sprite, xStart, y0, i, 7 - j)
        invariant V[..] == v0[VF := if HitUpTo(before, sprite, xStart, y0, i, 7 - j) then 1 else 0]
      {
        var spriteBit := (spriteData / Pow2(j)) % 2 == 1;
        PlotPixel(yCoord * WIDTH + xCoord, spriteBit, before, sprite, xStart, y0, i, 7 - j, v0);
        xCoord := xCoord + 1;
        j := j - 1;
      }
      assert 7 - j == Cols(xStart);
    }

    /** One pixel of a sprite row: an on-bit landing on an on-pixel sets VF,
        and the bit is XOR-ed onto the pixel. */
    method PlotPixel(p: nat, spriteBit: bool, ghost before: seq<bool>, ghost sprite: seq<byte>,
                     ghost xStart: nat, ghost y0: nat, ghost i: nat, ghost c: nat, ghost v0: seq<byte>)
      requires Valid() && Progress(before, sprite, xStart, y0, i, c) && i < |sprite| && c < Cols(xStart)
      requires p == PixelIndex(xStart + c, y0 + i) && spriteBit == SpriteBit(sprite[i], c) && |v0| == NUM_REGISTERS
      requires Drawn(display[..], before, sprite, xStart, y0, i, c)
      requires V[..] == v0[VF := if HitUpTo(before, sprite, xStart, y0, i, c) then 1 else 0]
      modifies display, V
      ensures Valid() && Progress(before, sprite, xStart, y0, i, c + 1)
      ensures Drawn(display[..], before, sprite, xStart, y0, i, c + 1)
      ensures V[..] == v0[VF := if HitUpTo(before, sprite, xStart, y0, i, c + 1) then 1 else 0]
    {
      DrawnPixelStep(display[..], before, sprite, xStart, y0, i, c);
      if spriteBit && display[p] {
        V[VF] := 1;
      }
      display[p] := display[p] != spriteBit;
    }

    method InstrEX9E(inst: Instruction) returns (fault: Option<Error>)
      requires Valid()
      modifies this
      ensures Valid()
      ensures Reflects(ExecEX9E(old(Model()), inst.X), fault, Model(), old(Model()))
    {
      if V[inst.X] >= NUM_KEYS {
        return Some(KeyOutOfRange);
      }
      if keypad[V[inst.X]] {
        PC := Wrap16(PC as int + 2);
      }
      return None;
    }

    method InstrEXA1(inst: Instruction) returns (fault: Option<Error>)
      requires Valid()
      modifies this
      ensures Valid()
      ensures Reflects(ExecEXA1(old(Model()), inst.X), fault, Model(), old(Model()))
    {
      if V[inst.X] >= NUM_KEYS {
        return Some(KeyOutOfRange);
      }
      if !keypad[V[inst.X]] {
        PC := Wrap16(PC as int + 2);
      }
      return None;
    }

    method InstrFX07(inst: Instruction)
      requires Valid()
      modifies V
      ensures Valid()
      ensures Model() == ExecFX07(old(Model()), inst.X)
    {
      V[inst.X] := delayTimer;
    }

    /** Scans the keypad from key 0; the first pressed key goes to VX,
        otherwise PC steps back onto this instruction. */
    method InstrFX0A(inst: Instruction)
      requires Valid()
      modifies this, V
      ensures Valid()
      ensures Model() == ExecFX0A(old(Model()), inst.X)
    {
      var anyKeyPressed := false;
      var i := 0;
      while i < NUM_KEYS
        invariant 0 <= i <= NUM_KEYS
        invariant forall k :: 0 <= k < i ==> !keypad[k]
        invariant V[..] == old(V[..])
      {
        if keypad[i] {
          V[inst.X] := i;
          anyKeyPressed := true;
          break;
        }
        i := i + 1;
      }
      if !anyKeyPressed {
        PC := Wrap16(PC as int - 2);
      }
    }

    method InstrFX15(inst: Instruction)
      requires Valid()
      modifies this
      ensures Valid()
      ensures Model() == ExecFX15(old(Model()), inst.X)
    {
      delayTimer := V[inst.X];
    }

    method InstrFX18(inst: Instruction)
      requires Valid()
      modifies this
      ensures Valid()
      ensures Model() == ExecFX18(old(Model()), inst.X)
    {
      soundTimer := V[inst.X];
    }

    method InstrFX1E(inst: Instruction)
      requires Valid()
      modifies this
      ensures Valid()
      ensures Model() == ExecFX1E(old(Model()), inst.X)
    {
      I := Wrap16(I as int + V[inst.X]);
    }

    method InstrFX29(inst: Instruction)
      requires Valid()
      modifies this
      ensures Valid()
      ensures Model() == ExecFX29(old(Model()), inst.X)
    {
      I := V[inst.X] as int * 5;
    }

    /** Ones at I + 2, then tens at I + 1, then hundreds at I. */
    method InstrFX33(inst: Instruction) returns (fault: Option<Error>)
      requires Valid()
      modifies ram
      ensures Valid()
      ensures Reflects(ExecFX33(old(Model()), inst.X), fault, Model(), old(Model()))
    {
      if I + 2 >= RAM_SIZE {
        return Some(MemoryOutOfRange);
      }
      var bcd := V[inst.X];
      ram[I + 2] := bcd % 10;
      bcd := bcd / 10;
      ram[I + 1] := bcd % 10;
      bcd := bcd / 10;
      ram[I] := bcd;
      return None;
    }

    /** Stores V0..VX from I on; under CHIP8 through a post-incremented I. */
    method InstrFX55(inst: Instruction, ext: Extension) returns (fault: Option<Error>)
      requires Valid()
      modifies this, ram
      ensures Valid()
      ensures Reflects(ExecFX55(old(Model()), inst.X, ext), fault, Model(), old(Model()))
    {
      if I + inst.X >= RAM_SIZE {
        return Some(MemoryOutOfRange);
      }
      ghost var m0 := Model();
      StoreRegisters(inst.X, ext);
      assert ram[..] == ExecFX55(m0, inst.X, ext).value.ram;
      return None;
    }

    /** The copy loop of FX55. */
    method StoreRegisters(x: nibble, ext: Extension)
      requires Valid() && I + x < RAM_SIZE
      modifies this, ram
      ensures Valid()
      ensures I == if ext == CHIP8 then old(I) + x + 1 else old(I)
      ensures forall k :: 0 <= k < RAM_SIZE ==>
        ram[k] == if old(I) <= k <= old(I) + x then V[k - old(I)] else old(ram[k])
      ensures Model() == old(Model()).(ram := ram[..], I := I)
    {
      ghost var m0 := Model();
      var i := 0;
      while i <= x
        invariant Valid() && 0 <= i <= x + 1
        invariant I == if ext == CHIP8 then m0.I + i else m0.I
        invariant forall k :: 0 <= k < RAM_SIZE ==>
          ram[k] == if m0.I <= k < m0.I + i then V[k - m0.I] else m0.ram[k]
        invariant Model() == m0.(ram := ram[..], I := I)
      {
        if ext == CHIP8 {
          ram[I] := V[i];
          I := I + 1;
        } else {
          ram[I + i] := V[i];
        }
        i := i + 1;
      }
    }

    /** Loads V0..VX from I on; under CHIP8 through a post-incremented I. */
    method InstrFX65(inst: Instruction, ext: Extension) returns (fault: Option<Error>)
      requires Valid()
      modifies this, V
      ensures Valid()
      ensures Reflects(ExecFX65(old(Model()), inst.X, ext), fault, Model(), old(Model()))
    {
      if I + inst.X >= RAM_SIZE {
        return Some(MemoryOutOfRange);
      }
      ghost var m0 := Model();
      LoadRegisters(inst.X, ext);
      assert V[..] == ExecFX65(m0, inst.X, ext).value.V;
      return None;
    }

    /** The copy loop of FX65. */
    method LoadRegisters(x: nibble, ext: Extension)
      requires Valid() && I + x < RAM_SIZE
      modifies this, V
      ensures Valid()
      ensures I == if ext == CHIP8 then old(I) + x + 1 else old(I)
      ensures forall k :: 0 <= k < NUM_REGISTERS ==>
        V[k] == if k <= x then ram[old(I) + k] else old(V[k])
      ensures Model() == old(Model()).(V := V[..], I := I)
    {
      ghost var m0 := Model();
      var i := 0;
      while i <= x
        invariant Valid() && 0 <= i <= x + 1
        invariant I == if ext == CHIP8 then m0.I + i else m0.I
        invariant forall k :: 0 <= k < NUM_REGISTERS ==>
          V[k] == if k < i then m0.ram[m0.I + k] else m0.V[k]
        invariant Model() == m0.(V := V[..], I := I)
      {
        if ext == CHIP8 {
          V[i] := ram[I];
          I := I + 1;
        } else {
          V[i] := ram[I + i];
        }
        i := i + 1;
      }
    }
  }
}
