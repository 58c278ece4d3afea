/** The C bitwise operators `|`, `&` and `^` on bytes, written arithmetically
    (bit by bit from the least significant) and proved equal to Dafny's own
    operators on `bv8`. */
module ByteLogic {
  import opened Chip8Defs
  import opened Sprite

  /** The bitwise operators the handlers apply to bytes (`|`, `&`, `^`). */
  datatype BitOp = OrOp | AndOp | XorOp

  predicate CombineBits(op: BitOp, a: bool, b: bool) {
    match op
    case OrOp => a || b
    case AndOp => a && b
    case XorOp => a != b
  }

  /** The low k bits of `a op b`, combined one bit position at a time from the
      least significant. */
  function Bitwise(op: BitOp, a: nat, b: nat, k: nat): (r: nat)
    ensures r < Pow2(k)
  {
    if k == 0 then 0
    else (if CombineBits(op, a % 2 == 1, b % 2 == 1) then 1 else 0) + 2 * Bitwise(op, a / 2, b / 2, k - 1)
  }

  function Or8(a: byte, b: byte): byte {
    Bitwise(OrOp, a, b, 8)
  }

  function And8(a: byte, b: byte): byte {
    Bitwise(AndOp, a, b, 8)
  }

  function Xor8(a: byte, b: byte): byte {
    Bitwise(XorOp, a, b, 8)
  }

  /** Bit i of a (bit 0 is the least significant). */
  predicate Bit(a: nat, i: nat) {
    if i == 0 then a % 2 == 1 else Bit(a / 2, i - 1)
  }

  /** Each of the eight low bits of r is `op` of the corresponding bits of a and b. */
  predicate BitsCombine(op: BitOp, a: nat, b: nat, r: nat) {
    forall i :: 0 <= i < 8 ==> Bit(r, i) == CombineBits(op, Bit(a, i), Bit(b, i))
  }

  /** Each bit of the result is `op` of the corresponding bits of the operands. */
  lemma {:induction false} BitwiseBit(op: BitOp, a: nat, b: nat, k: nat, i: nat)
    requires i < k
    ensures Bit(Bitwise(op, a, b, k), i) == CombineBits(op, Bit(a, i), Bit(b, i))
  {
    assert Bitwise(op, a, b, k) / 2 == Bitwise(op, a / 2, b / 2, k - 1);
    if i > 0 {
      BitwiseBit(op, a / 2, b / 2, k - 1, i - 1);
    }
  }

  /** Two numbers below 2^k with the same k low bits are equal. */
  lemma {:induction false} BitsDetermine(a: nat, b: nat, k: nat)
    requires a < Pow2(k) && b < Pow2(k)
    requires forall i :: 0 <= i < k ==> Bit(a, i) == Bit(b, i)
    ensures a == b
  {
    if k > 0 {
      assert Bit(a, 0) == Bit(b, 0);
      forall i | 0 <= i < k - 1
        ensures Bit(a / 2, i) == Bit(b / 2, i)
      {
        assert Bit(a, i + 1) == Bit(b, i + 1);
      }
      BitsDetermine(a / 2, b / 2, k - 1);
    }
  }

  /** The byte whose bits are `op` of the bits of a and b is the 8-bit
      combination of a and b: the bitwise operators are determined by the
      bit-by-bit rule. */
  lemma BitsCombineUnique(op: BitOp, a: nat, b: nat, r: nat)
    requires r < 0x100 && BitsCombine(op, a, b, r)
    ensures Bitwise(op, a, b, 8) == r
  {
    var w := Bitwise(op, a, b, 8);
    forall i | 0 <= i < 8
      ensures Bit(w, i) == Bit(r, i)
    {
      BitwiseBit(op, a, b, 8, i);
    }
    assert Pow2(8) == 0x100;
    BitsDetermine(w, r, 8);
  }

  /** The eight bits of `a op b` are `op` of the operands' bits. */
  lemma BitwiseBits8(op: BitOp, a: nat, b: nat)
    ensures BitsCombine(op, a, b, Bitwise(op, a, b, 8))
  {
    forall i | 0 <= i < 8
      ensures Bit(Bitwise(op, a, b, 8), i) == CombineBits(op, Bit(a, i), Bit(b, i))
    {
      BitwiseBit(op, a, b, 8, i);
    }
  }

  /** A byte is the 8-bit `a op b` exactly when each of its bits is `op` of
      the corresponding bits of a and b. */
  lemma BitwiseByBits(op: BitOp, a: nat, b: nat, r: nat)
    requires r < 0x100
    ensures Bitwise(op, a, b, 8) == r <==> BitsCombine(op, a, b, r)
  {
    BitwiseBits8(op, a, b);
    if BitsCombine(op, a, b, r) {
      BitsCombineUnique(op, a, b, r);
    }
  }

  /** Bit i of a bv8, read by shifting. */
  predicate BvBit(x: bv8, i: nat) {
    if i == 0 then x & 1 == 1 else BvBit(x >> 1, i - 1)
  }

  lemma Halve(x: bv8)
    ensures (x >> 1) as int == x as int / 2 && (x & 1) as int == x as int % 2
  {
  }

  /** Reading a bit by shifting agrees with reading it arithmetically. */
  lemma {:induction false} BvBitAgrees(x: bv8, i: nat)
    ensures BvBit(x, i) == Bit(x as int, i)
  {
    Halve(x);
    if i > 0 {
      BvBitAgrees(x >> 1, i - 1);
    }
  }

  lemma OrLow(x: bv8, y: bv8)
    ensures ((x | y) & 1 == 1) == (x & 1 == 1 || y & 1 == 1)
  {
  }

  lemma OrShift(x: bv8, y: bv8)
    ensures (x | y) >> 1 == (x >> 1) | (y >> 1)
  {
  }

  lemma {:induction false} BvBitOr(x: bv8, y: bv8, i: nat)
    ensures BvBit(x | y, i) == (BvBit(x, i) || BvBit(y, i))
  {
    if i == 0 {
      OrLow(x, y);
    } else {
      OrShift(x, y);
      BvBitOr(x >> 1, y >> 1, i - 1);
    }
  }

  lemma OrBit(x: bv8, y: bv8, i: nat)
    ensures Bit((x | y) as int, i) == CombineBits(OrOp, Bit(x as int, i), Bit(y as int, i))
  {
    BvBitAgrees(x, i);
    BvBitAgrees(y, i);
    BvBitAgrees(x | y, i);
    BvBitOr(x, y, i);
  }

  lemma OrBits(x: bv8, y: bv8, a: nat, b: nat, r: nat)
    requires a == x as int && b == y as int && r == (x | y) as int
    ensures r < 0x100 && BitsCombine(OrOp, a, b, r)
  {
    forall i | 0 <= i < 8
      ensures Bit(r, i) == CombineBits(OrOp, Bit(a, i), Bit(b, i))
    {
      OrBit(x, y, i);
    }
  }

  /** `Or8` is C's `|` on two bytes. */
  lemma Or8IsBv(x: bv8, y: bv8)
    ensures Or8(x as int, y as int) == (x | y) as int
  {
    OrBits(x, y, x as int, y as int, (x | y) as int);
    BitsCombineUnique(OrOp, x as int, y as int, (x | y) as int);
  }

  lemma AndLow(x: bv8, y: bv8)
    ensures ((x & y) & 1 == 1) == (x & 1 == 1 && y & 1 == 1)
  {
  }

  lemma AndShift(x: bv8, y: bv8)
    ensures (x & y) >> 1 == (x >> 1) & (y >> 1)
  {
  }

  lemma {:induction false} BvBitAnd(x: bv8, y: bv8, i: nat)
    ensures BvBit(x & y, i) == (BvBit(x, i) && BvBit(y, i))
  {
    if i == 0 {
      AndLow(x, y);
    } else {
      AndShift(x, y);
      BvBitAnd(x >> 1, y >> 1, i - 1);
    }
  }

  lemma AndBit(x: bv8, y: bv8, i: nat)
    ensures Bit((x & y) as int, i) == CombineBits(AndOp, Bit(x as int, i), Bit(y as int, i))
  {
    BvBitAgrees(x, i);
    BvBitAgrees(y, i);
    BvBitAgrees(x & y, i);
    BvBitAnd(x, y, i);
  }

  lemma AndBits(x: bv8, y: bv8, a: nat, b: nat, r: nat)
    requires a == x as int && b == y as int && r == (x & y) as int
    ensures r < 0x100 && BitsCombine(AndOp, a, b, r)
  {
    forall i | 0 <= i < 8
      ensures Bit(r, i) == CombineBits(AndOp, Bit(a, i), Bit(b, i))
    {
      AndBit(x, y, i);
    }
  }

  /** `And8` is C's `&` on two bytes. */
  lemma And8IsBv(x: bv8, y: bv8)
    ensures And8(x as int, y as int) == (x & y) as int
  {
    AndBits(x, y, x as int, y as int, (x & y) as int);
    BitsCombineUnique(AndOp, x as int, y as int, (x & y) as int);
  }

  lemma XorLow(x: bv8, y: bv8)
    ensures ((x ^ y) & 1 == 1) == ((x & 1 == 1) != (y & 1 == 1))
  {
  }

  lemma XorShift(x: bv8, y: bv8)
    ensures (x ^ y) >> 1 == (x >> 1) ^ (y >> 1)
  {
  }

  lemma {:induction false} BvBitXor(x: bv8, y: bv8, i: nat)
    ensures BvBit(x ^ y, i) == (BvBit(x, i) != BvBit(y, i))
  {
    if i == 0 {
      XorLow(x, y);
    } else {
      XorShift(x, y);
      BvBitXor(x >> 1, y >> 1, i - 1);
    }
  }

  lemma XorBit(x: bv8, y: bv8, i: nat)
    ensures Bit((x ^ y) as int, i) == CombineBits(XorOp, Bit(x as int, i), Bit(y as int, i))
  {
    BvBitAgrees(x, i);
    BvBitAgrees(y, i);
    BvBitAgrees(x ^ y, i);
    BvBitXor(x, y, i);
  }

  lemma XorBits(x: bv8, y: bv8, a: nat, b: nat, r: nat)
    requires a == x as int && b == y as int && r == (x ^ y) as int
    ensures r < 0x100 && BitsCombine(XorOp, a, b, r)
  {
    forall i | 0 <= i < 8
      ensures Bit(r, i) == CombineBits(XorOp, Bit(a, i), Bit(b, i))
    {
      XorBit(x, y, i);
    }
  }

  /** `Xor8` is C's `^` on two bytes. */
  lemma Xor8IsBv(x: bv8, y: bv8)
    ensures Xor8(x as int, y as int) == (x ^ y) as int
  {
    XorBits(x, y, x as int, y as int, (x ^ y) as int);
    BitsCombineUnique(XorOp, x as int, y as int, (x ^ y) as int);
  }
}
