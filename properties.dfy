/** Properties of the instruction engine, stated on the reference semantics:
    what each class of instruction does to the machine, and how instructions
    combine. */
module Properties {
  import opened Chip8Defs
  import opened InstructionTables
  import opened Sprite
  import opened ByteLogic
  import opened Semantics

  // ---- dispatch ------------------------------------------------------------------------

  /** Running an instruction runs exactly the handler the two table levels
      resolve it to; an empty slot leaves the machine unchanged. */
  lemma ExecRunsResolvedHandler(m: State, inst: Instruction, ext: Extension, rnd: byte)
    requires WellFormed(m)
    ensures Exec(m, inst, ext, rnd) == match Resolve(inst)
      case None => Ok(m)
      case Some(h) => ExecLeaf(h, m, inst, ext, rnd)
  {
  }

  /** The machine state a step sees once PC has been advanced past the opcode
      bytes `hi`, `lo`. */
  predicate FetchesBytes(m: State, hi: byte, lo: byte) {
    WellFormed(m) && m.PC + 1 < RAM_SIZE && m.ram[m.PC] == hi && m.ram[m.PC + 1] == lo
  }

  /** The fields of the fetched instruction, read off the two opcode bytes,
      and the fetch advance, which cannot wrap. */
  lemma Fetched(m: State)
    requires WellFormed(m) && m.PC + 1 < RAM_SIZE
    ensures var inst, hi, lo := Decode(FetchOpcode(m)), m.ram[m.PC], m.ram[m.PC + 1];
      && HighNibble(inst) == hi / 0x10 && inst.X == hi % 0x10 && inst.Y == lo / 0x10 && inst.N == lo % 0x10
      && inst.NN == lo && inst.NNN == (hi % 0x10) as int * 0x100 + lo
    ensures AdvancePC(m) == m.(PC := m.PC + 2)
  {
    DecodeBytes(m.ram[m.PC], m.ram[m.PC + 1]);
  }

  /** An opcode that no table fills is a no-op apart from the fetch advance. */
  lemma {:induction false} UnrecognisedOpcodeIsNoOp(m: State, ext: Extension, rnd: byte)
    requires WellFormed(m) && m.PC + 1 < RAM_SIZE
    requires Resolve(Decode(FetchOpcode(m))) == None
    ensures Step(m, ext, rnd) == Ok(AdvancePC(m))
  {
    ExecRunsResolvedHandler(AdvancePC(m), Decode(FetchOpcode(m)), ext, rnd);
  }

  /** A step whose fetched opcode resolves to handler h runs h on the
      advanced machine. */
  lemma StepRunsHandler(m: State, ext: Extension, rnd: byte, h: Handler)
    requires WellFormed(m) && m.PC + 1 < RAM_SIZE && Resolve(Decode(FetchOpcode(m))) == Some(h)
    ensures Step(m, ext, rnd) == ExecLeaf(h, AdvancePC(m), Decode(FetchOpcode(m)), ext, rnd)
  {
    ExecRunsResolvedHandler(AdvancePC(m), Decode(FetchOpcode(m)), ext, rnd);
  }

  /** The opcodes no handler takes: family 0 except 00E0/00EE, 8XY8..8XYD and
      8XYF, family E except 9E/A1, family F except the nine FX handlers. */
  lemma {:induction false} UnrecognisedOpcodes(hi: byte, lo: byte)
    ensures var inst := Decode(OpcodeOf(hi, lo));
      Resolve(inst) == None <==>
        || (hi / 0x10 == 0x0 && lo != 0xE0 && lo != 0xEE)
        || (hi / 0x10 == 0x8 && 8 <= lo % 0x10 && lo % 0x10 != 0xE)
        || (hi / 0x10 == 0xE && lo != 0x9E && lo != 0xA1)
        || (hi / 0x10 == 0xF && lo !in {0x07, 0x0A, 0x15, 0x18, 0x1E, 0x29, 0x33, 0x55, 0x65})
  {
    DecodeBytes(hi, lo);
  }

  // ---- calls, jumps and skips ------------------------------------------------------------

  /** 2NNN pushes the address of the next instruction and jumps to NNN. */
  lemma {:induction false} CallPushes(m: State, ext: Extension, rnd: byte)
    requires WellFormed(m) && m.PC + 1 < RAM_SIZE && m.ram[m.PC] / 0x10 == 0x2
    requires |m.stack| < STACK_SIZE
    ensures Step(m, ext, rnd) ==
      Ok(m.(stack := m.stack + [Wrap16(m.PC + 2)], PC := (m.ram[m.PC] % 0x10) as int * 0x100 + m.ram[m.PC + 1]))
  {
    var inst := Decode(FetchOpcode(m));
    Fetched(m);
    assert Resolve(inst) == Some(H2NNN);
    StepRunsHandler(m, ext, rnd, H2NNN);
  }

  /** 00EE pops the most recent return address into PC. */
  lemma {:induction false} ReturnPops(m: State, ext: Extension, rnd: byte)
    requires FetchesBytes(m, 0x00, 0xEE) && |m.stack| > 0
    ensures Step(m, ext, rnd) == Ok(m.(stack := m.stack[..|m.stack| - 1], PC := m.stack[|m.stack| - 1]))
  {
    var inst := Decode(FetchOpcode(m));
    Fetched(m);
    assert Resolve(inst) == Some(H00EE);
    StepRunsHandler(m, ext, rnd, H00EE);
    assert ExecLeaf(H00EE, AdvancePC(m), inst, ext, rnd) == Exec00EE(AdvancePC(m));
  }

  /** A call (2NNN) to a subroutine that immediately returns (00EE) resumes
      after the call with the stack as it was. */
  lemma {:induction false} CallThenReturn(m: State, ext: Extension, rnd1: byte, rnd2: byte)
    requires WellFormed(m) && m.PC + 1 < RAM_SIZE && m.ram[m.PC] / 0x10 == 0x2
    requires |m.stack| < STACK_SIZE
    requires var target := (m.ram[m.PC] % 0x10) as int * 0x100 + m.ram[m.PC + 1];
      target + 1 < RAM_SIZE && m.ram[target] == 0x00 && m.ram[target + 1] == 0xEE
    ensures Step(m, ext, rnd1).Ok?
    ensures Step(Step(m, ext, rnd1).value, ext, rnd2) == Ok(AdvancePC(m))
  {
    CallPushes(m, ext, rnd1);
    var target := (m.ram[m.PC] % 0x10) as int * 0x100 + m.ram[m.PC + 1];
    var called := Step(m, ext, rnd1).value;
    assert called == m.(stack := m.stack + [Wrap16(m.PC + 2)], PC := target);
    assert FetchesBytes(called, 0x00, 0xEE);
    ReturnPops(called, ext, rnd2);
    assert called.stack[..|called.stack| - 1] == m.stack;
    assert called.(stack := m.stack, PC := Wrap16(m.PC + 2)) == AdvancePC(m);
  }

  /** A call with all twelve stack slots in use faults. */
  lemma {:induction false} CallOverflows(m: State, ext: Extension, rnd: byte)
    requires WellFormed(m) && m.PC + 1 < RAM_SIZE && m.ram[m.PC] / 0x10 == 0x2
    requires |m.stack| == STACK_SIZE
    ensures Step(m, ext, rnd) == Err(StackOverflow)
  {
    Fetched(m);
  }

  /** A return with an empty stack faults. */
  lemma {:induction false} ReturnUnderflows(m: State, ext: Extension, rnd: byte)
    requires FetchesBytes(m, 0x00, 0xEE) && |m.stack| == 0
    ensures Step(m, ext, rnd) == Err(StackUnderflow)
  {
    Fetched(m);
  }

  /** A jump to its own address (1NNN with NNN = PC) is a fixed point of the
      step: the idle loop programs end in. */
  lemma {:induction false} JumpToSelfIsFixpoint(m: State, ext: Extension, rnd: byte)
    requires WellFormed(m) && m.PC + 1 < RAM_SIZE
    requires m.ram[m.PC] == 0x10 + m.PC / 0x100 && m.ram[m.PC + 1] == m.PC % 0x100
    ensures Step(m, ext, rnd) == Ok(m)
  {
    var inst := Decode(FetchOpcode(m));
    Fetched(m);
    assert Resolve(inst) == Some(H1NNN);
    StepRunsHandler(m, ext, rnd, H1NNN);
    assert ExecLeaf(H1NNN, AdvancePC(m), inst, ext, rnd) == Ok(Exec1NNN(AdvancePC(m), inst.NNN));
  }

  /** PC after a step that skips when `cond` holds. */
  function SkipTarget(m: State, cond: bool): word {
    Wrap16(m.PC + if cond then 4 else 2)
  }

  /** 3XNN: skip the next instruction exactly when VX equals NN; nothing but
      PC changes. */
  lemma SkipIfEqualImmediate(m: State, ext: Extension, rnd: byte)
    requires WellFormed(m) && m.PC + 1 < RAM_SIZE && m.ram[m.PC] / 0x10 == 0x3
    ensures Step(m, ext, rnd) == Ok(m.(PC := SkipTarget(m, m.V[m.ram[m.PC] % 0x10] == m.ram[m.PC + 1])))
  {
    var inst := Decode(FetchOpcode(m));
    Fetched(m);
    assert Resolve(inst) == Some(H3XNN);
    StepRunsHandler(m, ext, rnd, H3XNN);
    assert ExecLeaf(H3XNN, AdvancePC(m), inst, ext, rnd) == Ok(Exec3XNN(AdvancePC(m), inst.X, inst.NN));
  }

  /** 4XNN: skip the next instruction exactly when VX differs from NN. */
  lemma SkipIfNotEqualImmediate(m: State, ext: Extension, rnd: byte)
    requires WellFormed(m) && m.PC + 1 < RAM_SIZE && m.ram[m.PC] / 0x10 == 0x4
    ensures Step(m, ext, rnd) == Ok(m.(PC := SkipTarget(m, m.V[m.ram[m.PC] % 0x10] != m.ram[m.PC + 1])))
  {
    var inst := Decode(FetchOpcode(m));
    Fetched(m);
    assert Resolve(inst) == Some(H4XNN);
    StepRunsHandler(m, ext, rnd, H4XNN);
    assert ExecLeaf(H4XNN, AdvancePC(m), inst, ext, rnd) == Ok(Exec4XNN(AdvancePC(m), inst.X, inst.NN));
  }

  /** 5XY0: skip exactly when VX equals VY; with a non-zero low nibble the
      instruction does nothing. */
  lemma SkipIfRegistersEqual(m: State, ext: Extension, rnd: byte)
    requires WellFormed(m) && m.PC + 1 < RAM_SIZE && m.ram[m.PC] / 0x10 == 0x5
    ensures var vx, vy := m.V[m.ram[m.PC] % 0x10], m.V[m.ram[m.PC + 1] / 0x10];
      Step(m, ext, rnd) == Ok(m.(PC := SkipTarget(m, m.ram[m.PC + 1] % 0x10 == 0 && vx == vy)))
  {
    var inst := Decode(FetchOpcode(m));
    Fetched(m);
    assert Resolve(inst) == Some(H5XY0);
    StepRunsHandler(m, ext, rnd, H5XY0);
    assert ExecLeaf(H5XY0, AdvancePC(m), inst, ext, rnd) == Ok(Exec5XY0(AdvancePC(m), inst.X, inst.Y, inst.N));
  }

  /** 9XY0: skip exactly when VX differs from VY; with a non-zero low nibble
      the instruction does nothing. */
  lemma SkipIfRegistersDiffer(m: State, ext: Extension, rnd: byte)
    requires WellFormed(m) && m.PC + 1 < RAM_SIZE && m.ram[m.PC] / 0x10 == 0x9
    ensures var vx, vy := m.V[m.ram[m.PC] % 0x10], m.V[m.ram[m.PC + 1] / 0x10];
      Step(m, ext, rnd) == Ok(m.(PC := SkipTarget(m, m.ram[m.PC + 1] % 0x10 == 0 && vx != vy)))
  {
    var inst := Decode(FetchOpcode(m));
    Fetched(m);
    assert Resolve(inst) == Some(H9XY0);
    StepRunsHandler(m, ext, rnd, H9XY0);
    assert ExecLeaf(H9XY0, AdvancePC(m), inst, ext, rnd) == Ok(Exec9XY0(AdvancePC(m), inst.X, inst.Y, inst.N));
  }

  /** EX9E: skip exactly when the key named by VX is down; a register
      holding no key index faults. */
  lemma {:induction false} SkipIfKeyDown(m: State, ext: Extension, rnd: byte)
    requires WellFormed(m) && m.PC + 1 < RAM_SIZE && m.ram[m.PC] / 0x10 == 0xE && m.ram[m.PC + 1] == 0x9E
    ensures var vx := m.V[m.ram[m.PC] % 0x10];
      Step(m, ext, rnd) == if vx >= NUM_KEYS then Err(KeyOutOfRange) else Ok(m.(PC := SkipTarget(m, m.keypad[vx])))
  {
    var inst := Decode(FetchOpcode(m));
    Fetched(m);
    assert Resolve(inst) == Some(HEX9E);
    StepRunsHandler(m, ext, rnd, HEX9E);
    assert ExecLeaf(HEX9E, AdvancePC(m), inst, ext, rnd) == ExecEX9E(AdvancePC(m), inst.X);
  }

  /** EXA1: skip exactly when the key named by VX is up; a register holding
      no key index faults. */
  lemma {:induction false} SkipIfKeyUp(m: State, ext: Extension, rnd: byte)
    requires WellFormed(m) && m.PC + 1 < RAM_SIZE && m.ram[m.PC] / 0x10 == 0xE && m.ram[m.PC + 1] == 0xA1
    ensures var vx := m.V[m.ram[m.PC] % 0x10];
      Step(m, ext, rnd) == if vx >= NUM_KEYS then Err(KeyOutOfRange) else Ok(m.(PC := SkipTarget(m, !m.keypad[vx])))
  {
    var inst := Decode(FetchOpcode(m));
    Fetched(m);
    assert Resolve(inst) == Some(HEXA1);
    StepRunsHandler(m, ext, rnd, HEXA1);
    assert ExecLeaf(HEXA1, AdvancePC(m), inst, ext, rnd) == ExecEXA1(AdvancePC(m), inst.X);
  }

  /** BNNN: the target NNN + V0 is at most 0x10FE, so the 16-bit PC never
      wraps. */
  lemma JumpOffsetNoWrap(m: State, nnn: addr)
    requires WellFormed(m)
    ensures ExecBNNN(m, nnn).PC == nnn + m.V[0] <= 0xFFF + 0xFF
  {
  }

  // ---- register arithmetic ---------------------------------------------------------------

  /** Registers other than `a` and `b` are as they were. */
  predicate OthersKept(r: State, m: State, a: nibble, b: nibble)
    requires WellFormed(r) && WellFormed(m)
  {
    r == m.(V := r.V) && forall k :: 0 <= k < NUM_REGISTERS && k != a && k != b ==> r.V[k] == m.V[k]
  }

  /** 6XNN loads NN; 7XNN adds NN modulo 256 and never touches VF (unless X
      is F). */
  lemma LoadAndAddImmediate(m: State, x: nibble, nn: byte)
    requires WellFormed(m)
    ensures Exec6XNN(m, x, nn).V[x] == nn && OthersKept(Exec6XNN(m, x, nn), m, x, x)
    ensures var r := Exec7XNN(m, x, nn);
      && r.V[x] as int + (if m.V[x] as int + nn > 255 then 256 else 0) == m.V[x] as int + nn
      && OthersKept(r, m, x, x)
  {
  }

  /** 8XY4: the 9-bit sum VX + VY is split into the result (low 8 bits) and
      the carry in VF; when X is F only the carry survives. */
  lemma AddWithCarry(m: State, x: nibble, y: nibble)
    requires WellFormed(m)
    ensures var r := Exec8XY4(m, x, y);
      && (r.V[VF] == 1 <==> m.V[x] as int + m.V[y] > 255)
      && r.V[VF] <= 1
      && (x != VF ==> r.V[x] as int + 256 * r.V[VF] as int == m.V[x] as int + m.V[y])
      && OthersKept(r, m, x, VF)
  {
  }

  /** 8XY5: VX - VY with the "no borrow" flag: VF = 1 exactly when VY <= VX,
      and result - 256 * (1 - VF) is the exact difference. */
  lemma SubtractWithBorrow(m: State, x: nibble, y: nibble)
    requires WellFormed(m)
    ensures var r := Exec8XY5(m, x, y);
      && (r.V[VF] == 1 <==> m.V[y] <= m.V[x])
      && r.V[VF] <= 1
      && (x != VF ==> r.V[x] as int - 256 * (1 - r.V[VF] as int) == m.V[x] as int - m.V[y])
      && OthersKept(r, m, x, VF)
  {
  }

  /** 8XY7: the difference VY - VX is written to VY (VX is left alone), with
      VF = 1 exactly when VX <= VY. */
  lemma ReverseSubtractWritesVY(m: State, x: nibble, y: nibble)
    requires WellFormed(m)
    ensures var r := Exec8XY7(m, x, y);
      && (r.V[VF] == 1 <==> m.V[x] <= m.V[y])
      && r.V[VF] <= 1
      && (y != VF ==> r.V[y] as int - 256 * (1 - r.V[VF] as int) == m.V[y] as int - m.V[x])
      && (x != y && x != VF ==> r.V[x] == m.V[x])
      && OthersKept(r, m, y, VF)
  {
  }

  /** 8XY1/2/3 set each bit of VX to the OR, AND and XOR of the bits of VX
      and VY. Under CHIP8 they always leave VF = 0; in the other modes VF is
      touched only as the destination. */
  lemma LogicFlagQuirk(m: State, x: nibble, y: nibble, ext: Extension)
    requires WellFormed(m)
    ensures var r1, r2, r3 := Exec8XY1(m, x, y, ext), Exec8XY2(m, x, y, ext), Exec8XY3(m, x, y, ext);
      && (ext == CHIP8 ==> r1.V[VF] == 0 && r2.V[VF] == 0 && r3.V[VF] == 0)
      && (x != VF ==>
            && r1.V[x] == Or8(m.V[x], m.V[y])
            && r2.V[x] == And8(m.V[x], m.V[y])
            && r3.V[x] == Xor8(m.V[x], m.V[y])
            && BitsCombine(OrOp, m.V[x], m.V[y], r1.V[x])
            && BitsCombine(AndOp, m.V[x], m.V[y], r2.V[x])
            && BitsCombine(XorOp, m.V[x], m.V[y], r3.V[x]))
      && (ext != CHIP8 && x != VF ==> r1.V[VF] == m.V[VF] && r2.V[VF] == m.V[VF] && r3.V[VF] == m.V[VF])
      && OthersKept(r1, m, x, VF) && OthersKept(r2, m, x, VF) && OthersKept(r3, m, x, VF)
  {
    BitwiseBits8(OrOp, m.V[x], m.V[y]);
    BitwiseBits8(AndOp, m.V[x], m.V[y]);
    BitwiseBits8(XorOp, m.V[x], m.V[y]);
  }

  /** 8XY6: the source (VY under CHIP8, VX otherwise) is split into the
      shifted value and the bit shifted out into VF. */
  lemma ShiftRightSplits(m: State, x: nibble, y: nibble, ext: Extension)
    requires WellFormed(m) && x != VF
    ensures var r, src := Exec8XY6(m, x, y, ext), ShiftSource(m, x, y, ext);
      src == 2 * r.V[x] + r.V[VF] && r.V[VF] <= 1 && OthersKept(r, m, x, VF)
  {
  }

  /** 8XYE: twice the source is split into the low byte and the bit shifted
      out into VF. */
  lemma ShiftLeftSplits(m: State, x: nibble, y: nibble, ext: Extension)
    requires WellFormed(m) && x != VF
    ensures var r, src := Exec8XYE(m, x, y, ext), ShiftSource(m, x, y, ext);
      2 * src as int == r.V[x] as int + 256 * r.V[VF] as int && r.V[VF] <= 1 && OthersKept(r, m, x, VF)
  {
  }

  /** The right-shift quirk shows in VX exactly when VX and VY differ above
      bit 0: VX = 2, VY = 3 differ yet shift alike. */
  lemma ShiftRightQuirkDivergence(m: State, x: nibble, y: nibble)
    requires WellFormed(m) && x != VF
    ensures Exec8XY6(m, x, y, CHIP8).V[x] != Exec8XY6(m, x, y, SUPERCHIP).V[x] <==> m.V[y] / 2 != m.V[x] / 2
  {
    assert Exec8XY6(m, x, y, CHIP8).V[x] == m.V[y] / 2;
    assert Exec8XY6(m, x, y, SUPERCHIP).V[x] == m.V[x] / 2;
  }

  /** The left-shift quirk shows in VX exactly when VX and VY differ below
      bit 7. */
  lemma ShiftLeftQuirkDivergence(m: State, x: nibble, y: nibble)
    requires WellFormed(m) && x != VF
    ensures Exec8XYE(m, x, y, CHIP8).V[x] != Exec8XYE(m, x, y, SUPERCHIP).V[x] <==> m.V[y] % 128 != m.V[x] % 128
  {
    DoubleLowByte(m.V[x]);
    DoubleLowByte(m.V[y]);
    assert Exec8XYE(m, x, y, CHIP8).V[x] == Wrap8(m.V[y] as int * 2);
    assert Exec8XYE(m, x, y, SUPERCHIP).V[x] == Wrap8(m.V[x] as int * 2);
  }

  lemma DoubleLowByte(a: byte)
    ensures Wrap8(a as int * 2) == 2 * (a % 128)
  {
    if a >= 128 {
      assert a as int * 2 == 256 + 2 * (a - 128);
    }
  }

  /** CXNN: the result is `rnd & NN`, so it has no bit outside the mask NN
      (and so never exceeds NN), and every value without bits outside NN is
      produced by some random byte: the results are exactly the submasks of
      NN. */
  lemma RandomIsMasked(m: State, x: nibble, nn: byte, rnd: byte)
    requires WellFormed(m)
    ensures var v := ExecCXNN(m, x, nn, rnd).V[x];
      v <= nn && And8(v, nn) == v && BitsCombine(AndOp, rnd, nn, v)
    ensures OthersKept(ExecCXNN(m, x, nn, rnd), m, x, x)
  {
    BitwiseBits8(AndOp, rnd, nn);
    AndBelow(rnd, nn, 8);
    AndIdempotent(rnd, nn, 8);
  }

  lemma RandomReachesEverySubmask(m: State, x: nibble, nn: byte, v: byte)
    requires WellFormed(m) && And8(v, nn) == v
    ensures ExecCXNN(m, x, nn, v).V[x] == v
  {
  }

  /** The low k bits of `a & b` never exceed b. */
  lemma {:induction false} AndBelow(a: nat, b: nat, k: nat)
    ensures Bitwise(AndOp, a, b, k) <= b
  {
    if k > 0 {
      AndBelow(a / 2, b / 2, k - 1);
    }
  }

  /** Masking twice with b is masking once. */
  lemma {:induction false} AndIdempotent(a: nat, b: nat, k: nat)
    ensures Bitwise(AndOp, Bitwise(AndOp, a, b, k), b, k) == Bitwise(AndOp, a, b, k)
  {
    if k > 0 {
      var r := Bitwise(AndOp, a, b, k);
      var rest := Bitwise(AndOp, a / 2, b / 2, k - 1);
      assert r / 2 == rest && r % 2 == (if a % 2 == 1 && b % 2 == 1 then 1 else 0);
      AndIdempotent(a / 2, b / 2, k - 1);
    }
  }

  // ---- sprites -----------------------------------------------------------------------------

  /** Row k of an N-row sprite drawn at row y0 is read by DXYN (it lies
      above the bottom edge) and its address I + k is outside RAM. */
  predicate ReadsPastRam(m: State, y0: nat, n: nibble, k: nat) {
    k < n && y0 + k < HEIGHT && m.I + k >= RAM_SIZE
  }

  /** DXYN faults exactly when one of the rows it reads lies past the end of
      RAM; rows clipped by the bottom edge are never read, so a sprite whose
      clipped part fits in RAM draws even when I + N exceeds it. */
  lemma {:induction false} DrawFaults(m: State, x: nibble, y: nibble, n: nibble)
    requires WellFormed(m)
    ensures ExecDXYN(m, x, y, n).Err? <==> exists k :: ReadsPastRam(m, m.V[y] % HEIGHT, n, k)
    ensures ExecDXYN(m, x, y, n).Err? ==> ExecDXYN(m, x, y, n).error == MemoryOutOfRange
  {
    var y0 := m.V[y] % HEIGHT;
    var rows := Rows(n, y0);
    if ExecDXYN(m, x, y, n).Err? {
      assert ReadsPastRam(m, y0, n, rows - 1);
    }
    if exists k :: ReadsPastRam(m, y0, n, k) {
      var k :| ReadsPastRam(m, y0, n, k);
      assert k < rows;
    }
  }

  /** DXYN applied twice with the same operands restores the framebuffer
      (when neither coordinate register is VF, which the first draw may
      overwrite). */
  lemma {:induction false} DrawTwiceRestores(m: State, x: nibble, y: nibble, n: nibble)
    requires WellFormed(m) && x != VF && y != VF && ExecDXYN(m, x, y, n).Ok?
    ensures ExecDXYN(ExecDXYN(m, x, y, n).value, x, y, n).Ok?
    ensures ExecDXYN(ExecDXYN(m, x, y, n).value, x, y, n).value.display == m.display
  {
    var x0, y0 := m.V[x] % WIDTH, m.V[y] % HEIGHT;
    var rows := Rows(n, y0);
    var sprite := if rows == 0 then [] else m.ram[m.I .. m.I + rows];
    XorSpriteTwice(m.display, sprite, x0, y0);
  }

  /** DXYN's flag is 1 exactly when some on-bit of the drawn part of the
      sprite (its first Rows(N, y0) bytes from I, each clipped to Cols(x0)
      columns) lands on an on-pixel. */
  lemma {:induction false} DrawFlagMeansCollision(m: State, x: nibble, y: nibble, n: nibble)
    requires WellFormed(m) && ExecDXYN(m, x, y, n).Ok?
    ensures var r, x0, y0 := ExecDXYN(m, x, y, n).value, m.V[x] % WIDTH, m.V[y] % HEIGHT;
      var sprite := SpriteRows(m, Rows(n, y0));
      && r.draw
      && r.V[VF] <= 1
      && (r.V[VF] == 1 <==>
            exists row, col :: 0 <= row < |sprite| && 0 <= col < Cols(x0) && HitAt(m.display, sprite, x0, y0, row, col))
  {
    var x0, y0 := m.V[x] % WIDTH, m.V[y] % HEIGHT;
    CollidesMeaning(m.display, SpriteRows(m, Rows(n, y0)), x0, y0);
  }

  /** After DXYN, pixel (px, py) inside the clipped rectangle is XOR-ed with
      its sprite bit, read from RAM at I + (py - y0); every other pixel is
      unchanged. */
  lemma {:induction false} DrawPixel(m: State, x: nibble, y: nibble, n: nibble, px: nat, py: nat)
    requires WellFormed(m) && ExecDXYN(m, x, y, n).Ok?
    requires px < WIDTH && py < HEIGHT
    ensures PixelIndex(px, py) < PIXELS
    ensures var r, x0, y0 := ExecDXYN(m, x, y, n).value, m.V[x] % WIDTH, m.V[y] % HEIGHT;
      var rows := Rows(n, y0);
      r.display[PixelIndex(px, py)] ==
        if x0 <= px < x0 + Cols(x0) && y0 <= py < y0 + rows
        then m.display[PixelIndex(px, py)] != SpriteBit(m.ram[m.I + (py - y0)], px - x0)
        else m.display[PixelIndex(px, py)]
  {
    var x0, y0 := m.V[x] % WIDTH, m.V[y] % HEIGHT;
    XorSpriteAt(m.display, SpriteRows(m, Rows(n, y0)), x0, y0, px, py);
  }

  // ---- keypad --------------------------------------------------------------------------------

  /** FX0A with no key down re-executes itself: the step is the identity. */
  lemma {:induction false} WaitWithoutKeyRepeats(m: State, ext: Extension, rnd: byte)
    requires WellFormed(m) && m.PC + 1 < RAM_SIZE && m.ram[m.PC] / 0x10 == 0xF && m.ram[m.PC + 1] == 0x0A
    requires forall k :: 0 <= k < NUM_KEYS ==> !m.keypad[k]
    ensures Step(m, ext, rnd) == Ok(m)
  {
    var inst := Decode(FetchOpcode(m));
    Fetched(m);
    assert Resolve(inst) == Some(HFX0A);
    StepRunsHandler(m, ext, rnd, HFX0A);
    assert ExecLeaf(HFX0A, AdvancePC(m), inst, ext, rnd) == Ok(ExecFX0A(AdvancePC(m), inst.X));
    assert FirstPressed(m.keypad) == None;
    assert ExecFX0A(AdvancePC(m), inst.X) == m;
  }

  /** FX0A with keys down stores the lowest-numbered one and moves on. */
  lemma {:induction false} WaitTakesLowestKey(m: State, ext: Extension, rnd: byte, k: nat)
    requires WellFormed(m) && m.PC + 1 < RAM_SIZE && m.ram[m.PC] / 0x10 == 0xF && m.ram[m.PC + 1] == 0x0A
    requires k < NUM_KEYS && m.keypad[k] && forall j :: 0 <= j < k ==> !m.keypad[j]
    ensures Step(m, ext, rnd) == Ok(AdvancePC(m).(V := m.V[m.ram[m.PC] % 0x10 := k]))
  {
    var inst := Decode(FetchOpcode(m));
    Fetched(m);
    assert Resolve(inst) == Some(HFX0A);
    StepRunsHandler(m, ext, rnd, HFX0A);
    assert ExecLeaf(HFX0A, AdvancePC(m), inst, ext, rnd) == Ok(ExecFX0A(AdvancePC(m), inst.X));
    FirstPressedIsLowest(m.keypad, k);
  }

  lemma FirstPressedIsLowest(keys: seq<bool>, k: nat)
    requires k < |keys| && keys[k] && forall j :: 0 <= j < k ==> !keys[j]
    ensures FirstPressed(keys) == Some(k)
  {
  }

  // ---- memory --------------------------------------------------------------------------------

  /** BCD digits are unique: any three decimal digits with value v are the
      ones Bcd computes. */
  lemma BcdUnique(v: byte, h: nat, t: nat, o: nat)
    requires h <= 9 && t <= 9 && o <= 9 && 100 * h + 10 * t + o == v
    ensures Bcd(v) == (h, t, o)
  {
  }

  /** FX33 writes the hundreds, tens and ones digits of VX to I, I+1, I+2 and
      nothing else; an I within two bytes of the end of RAM faults. */
  lemma StoreBcd(m: State, x: nibble)
    requires WellFormed(m)
    ensures ExecFX33(m, x).Err? <==> m.I + 2 >= RAM_SIZE
    ensures ExecFX33(m, x).Ok? ==>
      var r := ExecFX33(m, x).value;
      && r.ram[m.I] <= 9 && r.ram[m.I + 1] <= 9 && r.ram[m.I + 2] <= 9
      && 100 * r.ram[m.I] + 10 * r.ram[m.I + 1] + r.ram[m.I + 2] == m.V[x]
      && (forall k :: 0 <= k < RAM_SIZE && !(m.I <= k <= m.I + 2) ==> r.ram[k] == m.ram[k])
      && r == m.(ram := r.ram)
  {
  }

  /** FX55 followed by FX65 from the same I (whatever happened to the
      registers in between) reloads V0..VX; I ends as the dump left it. */
  lemma {:induction false} DumpThenLoad(m: State, x: nibble, ext: Extension, w: seq<byte>)
    requires WellFormed(m) && m.I + x < RAM_SIZE && |w| == NUM_REGISTERS
    ensures ExecFX55(m, x, ext).Ok?
    ensures var dumped := ExecFX55(m, x, ext).value;
      ExecFX65(dumped.(I := m.I, V := w), x, ext) == Ok(dumped.(V := m.V[..x + 1] + w[x + 1..]))
  {
    var dumped := ExecFX55(m, x, ext).value;
    var loaded := ExecFX65(dumped.(I := m.I, V := w), x, ext).value;
    assert loaded.V == m.V[..x + 1] + w[x + 1..];
  }

  /** FX55 and FX65 touch RAM[I] .. RAM[I + X]; each faults exactly when the
      last of those addresses lies outside RAM. */
  lemma DumpLoadFaults(m: State, x: nibble, ext: Extension)
    requires WellFormed(m)
    ensures ExecFX55(m, x, ext).Err? <==> m.I + x >= RAM_SIZE
    ensures ExecFX65(m, x, ext).Err? <==> m.I + x >= RAM_SIZE
    ensures ExecFX55(m, x, ext).Err? ==> ExecFX55(m, x, ext).error == MemoryOutOfRange
    ensures ExecFX65(m, x, ext).Err? ==> ExecFX65(m, x, ext).error == MemoryOutOfRange
  {
  }

  /** Under CHIP8, FX55 and FX65 leave I just past the block; in the other
      modes I is unchanged. */
  lemma DumpLoadIndex(m: State, x: nibble, ext: Extension)
    requires WellFormed(m) && m.I + x < RAM_SIZE
    ensures ExecFX55(m, x, ext).Ok? && ExecFX65(m, x, ext).Ok?
    ensures ExecFX55(m, x, ext).value.I == ExecFX65(m, x, ext).value.I
      == if ext == CHIP8 then m.I + x + 1 else m.I
  {
  }

  /** FX29 points I at the five-byte glyph of the digit in VX. */
  lemma FontGlyphAddress(m: State, x: nibble)
    requires WellFormed(m) && m.V[x] < 16 && m.ram[..|FONT|] == FONT
    ensures var r := ExecFX29(m, x);
      r.I + 5 <= |FONT| && r.ram[r.I .. r.I + 5] == FONT[5 * m.V[x] .. 5 * m.V[x] + 5]
  {
    var r := ExecFX29(m, x);
    assert r.ram[r.I .. r.I + 5] == m.ram[..|FONT|][r.I .. r.I + 5];
  }

  // ---- timers ----------------------------------------------------------------------------------

  /** The machine after n timer ticks. */
  function DecayTimersN(m: State, n: nat): State {
    if n == 0 then m else DecayTimers(DecayTimersN(m, n - 1))
  }

  /** After n ticks each timer is down by n, stopping at zero; nothing else
      changes. */
  lemma {:induction false} TimersCountDown(m: State, n: nat)
    ensures var r := DecayTimersN(m, n);
      && r.delayTimer == (if m.delayTimer >= n then m.delayTimer - n else 0)
      && r.soundTimer == (if m.soundTimer >= n then m.soundTimer - n else 0)
      && r == m.(delayTimer := r.delayTimer, soundTimer := r.soundTimer)
  {
    if n > 0 {
      TimersCountDown(m, n - 1);
    }
  }
}
