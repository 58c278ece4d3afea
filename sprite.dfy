/** The framebuffer geometry and the reference meaning of a DXYN sprite blit:
    which pixels a sprite at (x0, y0) covers once clipped at the right and
    bottom edges, what each covered pixel becomes, and when a collision is
    reported. */
module Sprite {
  import opened Chip8Defs

  /** Number of framebuffer cells. */
  const PIXELS: nat := WIDTH * HEIGHT

  /** Pixel (x, y) is stored at index y * WIDTH + x. */
  function PixelIndex(x: nat, y: nat): nat {
    y * WIDTH + x
  }

  /** The row-major layout is a bijection between the 64 x 32 grid and the
      framebuffer indices. */
  lemma PixelIndexCoords(x: nat, y: nat)
    requires x < WIDTH && y < HEIGHT
    ensures PixelIndex(x, y) < PIXELS
    ensures PixelIndex(x, y) % WIDTH == x && PixelIndex(x, y) / WIDTH == y
  {
  }

  lemma PixelIndexOf(p: nat)
    requires p < PIXELS
    ensures p % WIDTH < WIDTH && p / WIDTH < HEIGHT && PixelIndex(p % WIDTH, p / WIDTH) == p
  {
  }

  function Pow2(k: nat): (r: nat)
    ensures r >= 1
  {
    if k == 0 then 1 else 2 * Pow2(k - 1)
  }

  /** Column c (0 = leftmost) of a sprite row is bit 7 - c of the byte. */
  predicate SpriteBit(row: byte, c: nat)
    requires c < 8
  {
    (row / Pow2(7 - c)) % 2 == 1
  }

  /** How many of a row's eight columns are drawn before the right edge. */
  function Cols(x0: nat): nat
    requires x0 < WIDTH
  {
    if WIDTH - x0 < 8 then WIDTH - x0 else 8
  }

  /** How many of n rows are drawn before the bottom edge. */
  function Rows(n: nat, y0: nat): nat
    requires y0 < HEIGHT
  {
    if HEIGHT - y0 < n then HEIGHT - y0 else n
  }

  /** The arguments of a blit that is `rows` full rows and `c` columns into
      drawing `sprite` at (x0, y0). */
  predicate Progress(d: seq<bool>, sprite: seq<byte>, x0: nat, y0: nat, rows: nat, c: nat) {
    && |d| == PIXELS
    && x0 < WIDTH
    && y0 + |sprite| <= HEIGHT
    && rows <= |sprite|
    && c <= Cols(x0)
    && (c > 0 ==> rows < |sprite|)
  }

  /** Pixel p is among the first `rows` clipped rows, or among the first c
      columns of the row after them. */
  predicate InDrawn(p: nat, x0: nat, y0: nat, rows: nat, c: nat)
    requires x0 < WIDTH
  {
    var px, py := p % WIDTH, p / WIDTH;
    && x0 <= px
    && y0 <= py
    && ((py < y0 + rows && px < x0 + Cols(x0)) || (py == y0 + rows && px < x0 + c))
  }

  /** Pixel p after that much of the blit: toggled by its sprite bit if drawn,
      otherwise as in d. */
  function PixelAfter(d: seq<bool>, sprite: seq<byte>, x0: nat, y0: nat, rows: nat, c: nat, p: nat): bool
    requires Progress(d, sprite, x0, y0, rows, c) && p < PIXELS
  {
    if InDrawn(p, x0, y0, rows, c) then d[p] != SpriteBit(sprite[p / WIDTH - y0], p % WIDTH - x0)
    else d[p]
  }

  /** The framebuffer after XOR-ing every row of `sprite` in at (x0, y0). */
  function XorSprite(d: seq<bool>, sprite: seq<byte>, x0: nat, y0: nat): (r: seq<bool>)
    requires Progress(d, sprite, x0, y0, |sprite|, 0)
    ensures |r| == PIXELS
  {
    seq(PIXELS, p requires 0 <= p < PIXELS => PixelAfter(d, sprite, x0, y0, |sprite|, 0, p))
  }

  /** Some on-bit among the first `rows` rows and c further columns lands on
      an on-pixel of d. */
  predicate HitUpTo(d: seq<bool>, sprite: seq<byte>, x0: nat, y0: nat, rows: nat, c: nat)
    requires Progress(d, sprite, x0, y0, rows, c)
    decreases rows, c
  {
    if c > 0 then
      PixelIndexCoords(x0 + c - 1, y0 + rows);
      || HitUpTo(d, sprite, x0, y0, rows, c - 1)
      || (SpriteBit(sprite[rows], c - 1) && d[PixelIndex(x0 + c - 1, y0 + rows)])
    else if rows > 0 then
      HitUpTo(d, sprite, x0, y0, rows - 1, Cols(x0))
    else
      false
  }

  /** The collision flag of a whole blit. */
  predicate Collides(d: seq<bool>, sprite: seq<byte>, x0: nat, y0: nat)
    requires Progress(d, sprite, x0, y0, |sprite|, 0)
  {
    HitUpTo(d, sprite, x0, y0, |sprite|, 0)
  }

  /** A drawn on-bit meeting an on-pixel. */
  predicate HitAt(d: seq<bool>, sprite: seq<byte>, x0: nat, y0: nat, r: nat, c: nat)
    requires |d| == PIXELS && x0 < WIDTH && y0 + |sprite| <= HEIGHT
    requires r < |sprite| && c < Cols(x0)
  {
    PixelIndexCoords(x0 + c, y0 + r);
    SpriteBit(sprite[r], c) && d[PixelIndex(x0 + c, y0 + r)]
  }

  lemma {:induction false} HitUpToMeaning(d: seq<bool>, sprite: seq<byte>, x0: nat, y0: nat, rows: nat, c: nat)
    requires Progress(d, sprite, x0, y0, rows, c)
    ensures HitUpTo(d, sprite, x0, y0, rows, c) <==>
      exists r, cc :: 0 <= r < |sprite| && 0 <= cc < Cols(x0) && (r < rows || (r == rows && cc < c))
        && HitAt(d, sprite, x0, y0, r, cc)
    decreases rows, c
  {
    if c > 0 {
      HitUpToMeaning(d, sprite, x0, y0, rows, c - 1);
      if HitAt(d, sprite, x0, y0, rows, c - 1) {
        assert HitUpTo(d, sprite, x0, y0, rows, c);
      }
    } else if rows > 0 {
      HitUpToMeaning(d, sprite, x0, y0, rows - 1, Cols(x0));
    }
  }

  /** DXYN's flag: set exactly when some drawn on-bit of the sprite met an
      on-pixel of the framebuffer. */
  lemma CollidesMeaning(d: seq<bool>, sprite: seq<byte>, x0: nat, y0: nat)
    requires Progress(d, sprite, x0, y0, |sprite|, 0)
    ensures Collides(d, sprite, x0, y0) <==>
      exists r, c :: 0 <= r < |sprite| && 0 <= c < Cols(x0) && HitAt(d, sprite, x0, y0, r, c)
  {
    HitUpToMeaning(d, sprite, x0, y0, |sprite|, 0);
  }

  /** Pixel (x, y) after a blit: inside the clipped rectangle
      [x0, x0 + Cols(x0)) x [y0, y0 + |sprite|) it is XOR-ed with its sprite
      bit, everywhere else it is unchanged. */
  lemma XorSpriteAt(d: seq<bool>, sprite: seq<byte>, x0: nat, y0: nat, x: nat, y: nat)
    requires Progress(d, sprite, x0, y0, |sprite|, 0)
    requires x < WIDTH && y < HEIGHT
    ensures PixelIndex(x, y) < PIXELS
    ensures var inside := x0 <= x < x0 + Cols(x0) && y0 <= y < y0 + |sprite|;
      XorSprite(d, sprite, x0, y0)[PixelIndex(x, y)] ==
        if inside then d[PixelIndex(x, y)] != SpriteBit(sprite[y - y0], x - x0) else d[PixelIndex(x, y)]
  {
    PixelIndexCoords(x, y);
  }

  /** Drawing one more column of the current row adds exactly pixel
      (x0 + c, y0 + rows). */
  lemma InDrawnStep(p: nat, x0: nat, y0: nat, rows: nat, c: nat)
    requires x0 < WIDTH && y0 + rows < HEIGHT && c < Cols(x0) && p < PIXELS
    ensures PixelIndex(x0 + c, y0 + rows) < PIXELS
    ensures InDrawn(p, x0, y0, rows, c + 1) <==> InDrawn(p, x0, y0, rows, c) || p == PixelIndex(x0 + c, y0 + rows)
  {
    PixelIndexOf(p);
    PixelIndexCoords(x0 + c, y0 + rows);
  }

  /** Framebuffer d is `before` with the blit done up to `rows` rows and c
      columns. */
  predicate Drawn(d: seq<bool>, before: seq<bool>, sprite: seq<byte>, x0: nat, y0: nat, rows: nat, c: nat)
    requires Progress(before, sprite, x0, y0, rows, c)
  {
    |d| == PIXELS && forall p :: 0 <= p < PIXELS ==> d[p] == PixelAfter(before, sprite, x0, y0, rows, c, p)
  }

  /** One pixel of the blit loop: the target pixel is still untouched, XOR-ing
      its sprite bit in extends the drawn region by one column, and the
      collision flag picks up exactly this pixel's hit. */
  lemma DrawnPixelStep(d: seq<bool>, before: seq<bool>, sprite: seq<byte>, x0: nat, y0: nat, rows: nat, c: nat)
    requires Progress(before, sprite, x0, y0, rows, c) && rows < |sprite| && c < Cols(x0)
    requires Drawn(d, before, sprite, x0, y0, rows, c)
    ensures PixelIndex(x0 + c, y0 + rows) < PIXELS
    ensures var p := PixelIndex(x0 + c, y0 + rows);
      && d[p] == before[p]
      && Drawn(d[p := d[p] != SpriteBit(sprite[rows], c)], before, sprite, x0, y0, rows, c + 1)
      && (HitUpTo(before, sprite, x0, y0, rows, c + 1) <==>
            HitUpTo(before, sprite, x0, y0, rows, c) || (SpriteBit(sprite[rows], c) && d[p]))
  {
    var p := PixelIndex(x0 + c, y0 + rows);
    PixelIndexCoords(x0 + c, y0 + rows);
    var d' := d[p := d[p] != SpriteBit(sprite[rows], c)];
    forall q | 0 <= q < PIXELS
      ensures d'[q] == PixelAfter(before, sprite, x0, y0, rows, c + 1, q)
    {
      InDrawnStep(q, x0, y0, rows, c);
    }
  }

  /** A finished row is the start of the next one. */
  lemma DrawnRowStep(d: seq<bool>, before: seq<bool>, sprite: seq<byte>, x0: nat, y0: nat, rows: nat)
    requires x0 < WIDTH && Progress(before, sprite, x0, y0, rows, Cols(x0)) && rows < |sprite|
    requires Drawn(d, before, sprite, x0, y0, rows, Cols(x0))
    ensures Progress(before, sprite, x0, y0, rows + 1, 0)
    ensures Drawn(d, before, sprite, x0, y0, rows + 1, 0)
    ensures HitUpTo(before, sprite, x0, y0, rows + 1, 0) == HitUpTo(before, sprite, x0, y0, rows, Cols(x0))
  {
    forall q | 0 <= q < PIXELS
      ensures d[q] == PixelAfter(before, sprite, x0, y0, rows + 1, 0, q)
    {
      assert InDrawn(q, x0, y0, rows + 1, 0) == InDrawn(q, x0, y0, rows, Cols(x0));
    }
  }

  /** XOR is self-inverse: blitting the same sprite twice at the same place
      restores the framebuffer. */
  lemma XorSpriteTwice(d: seq<bool>, sprite: seq<byte>, x0: nat, y0: nat)
    requires Progress(d, sprite, x0, y0, |sprite|, 0)
    ensures XorSprite(XorSprite(d, sprite, x0, y0), sprite, x0, y0) == d
  {
    var once := XorSprite(d, sprite, x0, y0);
    var twice := XorSprite(once, sprite, x0, y0);
    forall p | 0 <= p < PIXELS
      ensures twice[p] == d[p]
    {
    }
  }
}
