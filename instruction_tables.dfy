/** The opcode -> handler mapping: a first-level table indexed by the high
    nibble and second-level tables for families 0, 8, E and F, whose empty
    (NULL) slots make the opcode a no-op. Handlers are tags, one per C handler
    function. */
module InstructionTables {
  import opened Chip8Defs

  datatype Handler =
    | H0NNN | H00E0 | H00EE
    | H1NNN | H2NNN | H3XNN | H4XNN | H5XY0 | H6XNN | H7XNN
    | H8XYN | H8XY0 | H8XY1 | H8XY2 | H8XY3 | H8XY4 | H8XY5 | H8XY6 | H8XY7 | H8XYE
    | H9XY0 | HANNN | HBNNN | HCXNN | HDXYN
    | HEXNN | HEX9E | HEXA1
    | HFXNN | HFX07 | HFX0A | HFX15 | HFX18 | HFX1E | HFX29 | HFX33 | HFX55 | HFX65

  /** The four handlers that only consult a second-level table. */
  predicate IsFamily(h: Handler) {
    h == H0NNN || h == H8XYN || h == HEXNN || h == HFXNN
  }

  /** `opcode_table`: one handler per high nibble. Families 0, 8, E and F
      go on to a second-level table; every other slot is a leaf handler. */
  function OpcodeTable(hi: nibble): (h: Handler)
    ensures IsFamily(h) <==> hi == 0x0 || hi == 0x8 || hi == 0xE || hi == 0xF
  {
    match hi
    case 0x0 => H0NNN case 0x1 => H1NNN case 0x2 => H2NNN case 0x3 => H3XNN
    case 0x4 => H4XNN case 0x5 => H5XY0 case 0x6 => H6XNN case 0x7 => H7XNN
    case 0x8 => H8XYN case 0x9 => H9XY0 case 0xA => HANNN case 0xB => HBNNN
    case 0xC => HCXNN case 0xD => HDXYN case 0xE => HEXNN case _ => HFXNN
  }

  /** `table_0NNN`, indexed by the low byte: only E0 and EE are filled. */
  function Table0NNN(nn: byte): (h: Option<Handler>)
    ensures h.Some? <==> nn == 0xE0 || nn == 0xEE
    ensures h.Some? ==> !IsFamily(h.value)
  {
    if nn == 0xE0 then Some(H00E0)
    else if nn == 0xEE then Some(H00EE)
    else None
  }

  /** `table_8XYN`, indexed by the low nibble: slots 8..D and F are NULL. */
  function Table8XYN(n: nibble): (h: Option<Handler>)
    ensures h.Some? <==> n <= 7 || n == 0xE
    ensures h.Some? ==> !IsFamily(h.value)
  {
    match n
    case 0x0 => Some(H8XY0) case 0x1 => Some(H8XY1) case 0x2 => Some(H8XY2) case 0x3 => Some(H8XY3)
    case 0x4 => Some(H8XY4) case 0x5 => Some(H8XY5) case 0x6 => Some(H8XY6) case 0x7 => Some(H8XY7)
    case 0xE => Some(H8XYE)
    case _ => None
  }

  /** `table_EXNN`, indexed by the low byte: only 9E and A1 are filled. */
  function TableEXNN(nn: byte): (h: Option<Handler>)
    ensures h.Some? <==> nn == 0x9E || nn == 0xA1
    ensures h.Some? ==> !IsFamily(h.value)
  {
    if nn == 0x9E then Some(HEX9E)
    else if nn == 0xA1 then Some(HEXA1)
    else None
  }

  /** `table_FXNN`, indexed by the low byte. */
  function TableFXNN(nn: byte): (h: Option<Handler>)
    ensures h.Some? <==> nn in {0x07, 0x0A, 0x15, 0x18, 0x1E, 0x29, 0x33, 0x55, 0x65}
    ensures h.Some? ==> !IsFamily(h.value)
  {
    match nn
    case 0x07 => Some(HFX07)
    case 0x0A => Some(HFX0A)
    case 0x15 => Some(HFX15)
    case 0x18 => Some(HFX18)
    case 0x1E => Some(HFX1E)
    case 0x29 => Some(HFX29)
    case 0x33 => Some(HFX33)
    case 0x55 => Some(HFX55)
    case 0x65 => Some(HFX65)
    case _ => None
  }

  /** The handler that finally runs for an instruction, following both table
      levels; None when a second-level slot is NULL. */
  function Resolve(inst: Instruction): (h: Option<Handler>)
    ensures h.Some? ==> !IsFamily(h.value)
  {
    var h := OpcodeTable(HighNibble(inst));
    if h == H0NNN then Table0NNN(inst.NN)
    else if h == H8XYN then Table8XYN(inst.N)
    else if h == HEXNN then TableEXNN(inst.NN)
    else if h == HFXNN then TableFXNN(inst.NN)
    else Some(h)
  }

  /** An independent description of the same mapping: each handler's opcode
      pattern, most significant nibble first, `?` standing for a nibble that
      the dispatch ignores. */
  function Pattern(h: Handler): string {
    match h
    case H0NNN => "0???" case H00E0 => "0?E0" case H00EE => "0?EE"
    case H1NNN => "1???" case H2NNN => "2???" case H3XNN => "3???" case H4XNN => "4???"
    case H5XY0 => "5???" case H6XNN => "6???" case H7XNN => "7???"
    case H8XYN => "8???" case H8XY0 => "8??0" case H8XY1 => "8??1" case H8XY2 => "8??2"
    case H8XY3 => "8??3" case H8XY4 => "8??4" case H8XY5 => "8??5" case H8XY6 => "8??6"
    case H8XY7 => "8??7" case H8XYE => "8??E"
    case H9XY0 => "9???" case HANNN => "A???" case HBNNN => "B???" case HCXNN => "C???"
    case HDXYN => "D???"
    case HEXNN => "E???" case HEX9E => "E?9E" case HEXA1 => "E?A1"
    case HFXNN => "F???" case HFX07 => "F?07" case HFX0A => "F?0A" case HFX15 => "F?15"
    case HFX18 => "F?18" case HFX1E => "F?1E" case HFX29 => "F?29" case HFX33 => "F?33"
    case HFX55 => "F?55" case HFX65 => "F?65"
  }

  function HexValue(c: char): int {
    if '0' <= c <= '9' then c as int - '0' as int
    else if 'A' <= c <= 'F' then c as int - 'A' as int + 10
    else -1
  }

  predicate NibbleMatches(c: char, v: nibble) {
    c == '?' || HexValue(c) == v
  }

  /** Whether the four nibbles of `op` fit pattern `p`. */
  predicate Matches(inst: Instruction, p: string)
    requires |p| == 4
  {
    && NibbleMatches(p[0], HighNibble(inst))
    && NibbleMatches(p[1], inst.X)
    && NibbleMatches(p[2], inst.Y)
    && NibbleMatches(p[3], inst.N)
  }

  /** Every opcode that reaches a handler fits that handler's pattern. */
  lemma {:induction false} ResolveSound(inst: Instruction, h: Handler)
    requires inst == Decode(inst.opcode)
    requires Resolve(inst) == Some(h)
    ensures |Pattern(h)| == 4 && Matches(inst, Pattern(h))
  {
    var hi := HighNibble(inst);
    var fam := OpcodeTable(hi);
    OpcodeTableInjective(hi, hi);
    if !IsFamily(fam) {
      DirectSound(inst, h);
    } else {
      SecondLevelSound(inst, fam, h);
    }
  }

  lemma DirectSound(inst: Instruction, h: Handler)
    requires !IsFamily(OpcodeTable(HighNibble(inst)))
    requires Resolve(inst) == Some(h)
    ensures |Pattern(h)| == 4 && Matches(inst, Pattern(h))
  {
    var hi := HighNibble(inst);
    assert h == OpcodeTable(hi);
    assert Pattern(h)[1..] == "???";
    OpcodeTableInjective(hi, hi);
  }

  /** The leaf a second-level table selects keeps its family's first nibble
      and fits the low nibbles of the table key. */
  lemma SecondLevelSound(inst: Instruction, fam: Handler, h: Handler)
    requires IsFamily(fam) && inst.NN == inst.Y * 0x10 + inst.N
    requires fam == H0NNN ==> Table0NNN(inst.NN) == Some(h)
    requires fam == H8XYN ==> Table8XYN(inst.N) == Some(h)
    requires fam == HEXNN ==> TableEXNN(inst.NN) == Some(h)
    requires fam == HFXNN ==> TableFXNN(inst.NN) == Some(h)
    ensures |Pattern(h)| == 4 && NibbleMatches(Pattern(h)[2], inst.Y) && NibbleMatches(Pattern(h)[3], inst.N)
    ensures Pattern(h)[0] == Pattern(fam)[0] && Pattern(h)[1] == '?'
  {
    if fam == H0NNN {
      Sound0(inst, h);
    } else if fam == H8XYN {
      Sound8(inst, h);
    } else if fam == HEXNN {
      SoundE(inst, h);
    } else {
      SoundF(inst, h);
    }
  }

  lemma Sound0(inst: Instruction, h: Handler)
    requires inst.NN == inst.Y * 0x10 + inst.N && Table0NNN(inst.NN) == Some(h)
    ensures |Pattern(h)| == 4 && NibbleMatches(Pattern(h)[2], inst.Y) && NibbleMatches(Pattern(h)[3], inst.N)
    ensures Pattern(h)[0] == '0' && Pattern(h)[1] == '?'
  {
    assert inst.Y == inst.NN / 0x10 && inst.N == inst.NN % 0x10;
  }

  lemma Sound8(inst: Instruction, h: Handler)
    requires inst.NN == inst.Y * 0x10 + inst.N && Table8XYN(inst.N) == Some(h)
    ensures |Pattern(h)| == 4 && NibbleMatches(Pattern(h)[2], inst.Y) && NibbleMatches(Pattern(h)[3], inst.N)
    ensures Pattern(h)[0] == '8' && Pattern(h)[1] == '?'
  {
    assert inst.Y == inst.NN / 0x10 && inst.N == inst.NN % 0x10;
  }

  lemma SoundE(inst: Instruction, h: Handler)
    requires inst.NN == inst.Y * 0x10 + inst.N && TableEXNN(inst.NN) == Some(h)
    ensures |Pattern(h)| == 4 && NibbleMatches(Pattern(h)[2], inst.Y) && NibbleMatches(Pattern(h)[3], inst.N)
    ensures Pattern(h)[0] == 'E' && Pattern(h)[1] == '?'
  {
    assert inst.Y == inst.NN / 0x10 && inst.N == inst.NN % 0x10;
  }

  lemma SoundF(inst: Instruction, h: Handler)
    requires inst.NN == inst.Y * 0x10 + inst.N && TableFXNN(inst.NN) == Some(h)
    ensures |Pattern(h)| == 4 && NibbleMatches(Pattern(h)[2], inst.Y) && NibbleMatches(Pattern(h)[3], inst.N)
    ensures Pattern(h)[0] == 'F' && Pattern(h)[1] == '?'
  {
    assert inst.Y == inst.NN / 0x10 && inst.N == inst.NN % 0x10;
  }

  /** Every opcode that fits a (non-family) handler's pattern reaches that
      handler; together with ResolveSound, the tables dispatch exactly by the
      patterns, and an opcode fitting no pattern is a no-op. */
  lemma {:induction false} ResolveComplete(inst: Instruction, h: Handler)
    requires inst == Decode(inst.opcode)
    requires !IsFamily(h) && |Pattern(h)| == 4 && Matches(inst, Pattern(h))
    ensures Resolve(inst) == Some(h)
  {
    if h in {H00E0, H00EE} {
      Complete0(inst, h);
    } else if h in {H8XY0, H8XY1, H8XY2, H8XY3, H8XY4, H8XY5, H8XY6, H8XY7, H8XYE} {
      Complete8(inst, h);
    } else if h in {HEX9E, HEXA1} {
      CompleteE(inst, h);
    } else if h in {HFX07, HFX0A, HFX15, HFX18, HFX1E, HFX29, HFX33, HFX55, HFX65} {
      CompleteF(inst, h);
    } else {
      CompleteDirect(inst, h);
    }
  }

  /** ResolveComplete for the handlers of `H0NNN`'s table. */
  lemma Complete0(inst: Instruction, h: Handler)
    requires inst == Decode(inst.opcode)
    requires h in {H00E0, H00EE}
    requires |Pattern(h)| == 4 && Matches(inst, Pattern(h))
    ensures Resolve(inst) == Some(h)
  {
    assert inst.NN == inst.Y * 0x10 + inst.N;
  }

  /** ResolveComplete for the handlers of `H8XYN`'s table. */
  lemma Complete8(inst: Instruction, h: Handler)
    requires inst == Decode(inst.opcode)
    requires h in {H8XY0, H8XY1, H8XY2, H8XY3, H8XY4, H8XY5, H8XY6, H8XY7, H8XYE}
    requires |Pattern(h)| == 4 && Matches(inst, Pattern(h))
    ensures Resolve(inst) == Some(h)
  {
    assert inst.NN == inst.Y * 0x10 + inst.N;
  }

  /** ResolveComplete for the handlers of `HEXNN`'s table. */
  lemma CompleteE(inst: Instruction, h: Handler)
    requires inst == Decode(inst.opcode)
    requires h in {HEX9E, HEXA1}
    requires |Pattern(h)| == 4 && Matches(inst, Pattern(h))
    ensures Resolve(inst) == Some(h)
  {
    assert inst.NN == inst.Y * 0x10 + inst.N;
  }

  /** ResolveComplete for the handlers of `HFXNN`'s table. */
  lemma CompleteF(inst: Instruction, h: Handler)
    requires inst == Decode(inst.opcode)
    requires h in {HFX07, HFX0A, HFX15, HFX18, HFX1E, HFX29, HFX33, HFX55, HFX65}
    requires |Pattern(h)| == 4 && Matches(inst, Pattern(h))
    ensures Resolve(inst) == Some(h)
  {
    assert inst.NN == inst.Y * 0x10 + inst.N;
  }

  /** ResolveComplete for a handler of the first-level table. */
  lemma CompleteDirect(inst: Instruction, h: Handler)
    requires inst == Decode(inst.opcode)
    requires h in {H1NNN, H2NNN, H3XNN, H4XNN, H5XY0, H6XNN, H7XNN, H9XY0, HANNN, HBNNN, HCXNN, HDXYN}
    requires |Pattern(h)| == 4 && Matches(inst, Pattern(h))
    ensures Resolve(inst) == Some(h)
  {
  }

  /** Each high nibble selects a different first-level handler, and that
      handler's pattern starts with the nibble. */
  lemma OpcodeTableInjective(a: nibble, b: nibble)
    ensures a != b ==> OpcodeTable(a) != OpcodeTable(b)
    ensures HexValue(Pattern(OpcodeTable(a))[0]) == a
  {
  }
}
