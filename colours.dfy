/** ARGB colour packing and the shade utilities of include/lcd_ui_colours.h.
    A packed colour is a 32-bit value, alpha in the most significant byte. */
module Colours {
  import opened Uint

  /** argb_colour_t: the four channels held in separate bytes. */
  datatype Argb = Argb(alpha: bv8, red: bv8, green: bv8, blue: bv8)

  /** make_argb_colour: bits 31..24 alpha, 23..16 red, 15..8 green, 7..0 blue. */
  function MakeArgb(alpha: bv8, red: bv8, green: bv8, blue: bv8): (v: bv32)
    ensures v >> 24 == alpha as bv32
    ensures (v >> 16) & 0xFF == red as bv32
    ensures (v >> 8) & 0xFF == green as bv32
    ensures v & 0xFF == blue as bv32
  {
    (alpha as bv32 << 24) | (red as bv32 << 16) | (green as bv32 << 8) | blue as bv32
  }

  /** decompose_argb_colour: the inverse of MakeArgb on every 32-bit value. */
  function DecomposeArgb(v: bv32): (c: Argb)
    ensures MakeArgb(c.alpha, c.red, c.green, c.blue) == v
  {
    Argb(((v >> 24) & 0xFF) as bv8, ((v >> 16) & 0xFF) as bv8,
         ((v >> 8) & 0xFF) as bv8, (v & 0xFF) as bv8)
  }

  /** Packing four channels and taking the packed value apart gives them back. */
  lemma DecomposeMake(alpha: bv8, red: bv8, green: bv8, blue: bv8)
    ensures DecomposeArgb(MakeArgb(alpha, red, green, blue)) == Argb(alpha, red, green, blue)
  {
  }

  /** The clamp each scaled channel goes through before it is packed again. */
  function ClampChannel(n: int): (c: bv8)
    ensures 0 <= n <= 255 ==> c == n as bv8
    ensures n < 0 ==> c == 0
    ensures n > 255 ==> c == 255
  {
    if n < 0 then 0 else if n > 255 then 255 else n as bv8
  }

  /** scale_colour_by_factor. The source multiplies each channel by a float factor
      and truncates to int; `scaled` stands for that per-channel product, which
      this model leaves uninterpreted. The alpha byte is carried over as it is. */
  function ScaleColourByFactor(v: bv32, scaled: bv8 -> int): (r: bv32)
    ensures DecomposeArgb(r).alpha == DecomposeArgb(v).alpha
    ensures DecomposeArgb(r).red == ClampChannel(scaled(DecomposeArgb(v).red))
    ensures DecomposeArgb(r).green == ClampChannel(scaled(DecomposeArgb(v).green))
    ensures DecomposeArgb(r).blue == ClampChannel(scaled(DecomposeArgb(v).blue))
  {
    var c := DecomposeArgb(v);
    var red := ClampChannel(scaled(c.red));
    var green := ClampChannel(scaled(c.green));
    var blue := ClampChannel(scaled(c.blue));
    DecomposeMake(c.alpha, red, green, blue);
    MakeArgb(c.alpha, red, green, blue)
  }

  /** A scale that leaves every channel value alone leaves the colour alone. */
  lemma ScaleByIdentity(v: bv32, scaled: bv8 -> int)
    requires forall ch: bv8 :: scaled(ch) == ch as int
    ensures ScaleColourByFactor(v, scaled) == v
  {
    var c := DecomposeArgb(v);
    assert ClampChannel(scaled(c.red)) == c.red;
    assert ClampChannel(scaled(c.green)) == c.green;
    assert ClampChannel(scaled(c.blue)) == c.blue;
  }

  /** The float product `(int)((float)channel * ((float)percentage / 100.0f))`,
      left uninterpreted: a function of the percentage and the channel value. */
  type PercentProduct = (U8, bv8) -> int

  /** scale_colour_by_percentage: the factor is percentage / 100. */
  function ScaleColourByPercentage(v: bv32, percentage: U8, product: PercentProduct): (r: bv32)
    ensures DecomposeArgb(r).alpha == DecomposeArgb(v).alpha
    ensures DecomposeArgb(r).red == ClampChannel(product(percentage, DecomposeArgb(v).red))
    ensures DecomposeArgb(r).green == ClampChannel(product(percentage, DecomposeArgb(v).green))
    ensures DecomposeArgb(r).blue == ClampChannel(product(percentage, DecomposeArgb(v).blue))
  {
    ScaleColourByFactor(v, ch => product(percentage, ch))
  }

  /** At 100 percent the float factor is exactly 1.0 and every channel product is
      exact; under that property of the product the colour is returned unchanged. */
  lemma ScaleAtHundredIsIdentity(v: bv32, product: PercentProduct)
    requires forall ch: bv8 :: product(100, ch) == ch as int
    ensures ScaleColourByPercentage(v, 100, product) == v
  {
    ScaleByIdentity(v, ch => product(100, ch));
  }

  /** The percentage darken_colour scales by: 100 minus the amount, the amount
      first clamped to at most 100. */
  function DarkenPercentage(amount: U8): (p: U8)
    ensures p <= 100
    ensures amount <= 100 ==> p + amount == 100
    ensures amount >= 100 ==> p == 0
  {
    var clamped := if amount > 100 then 100 else amount;
    100 - clamped
  }

  /** The percentage lighten_colour scales by: 100 plus the amount, at most 200. */
  function LightenPercentage(amount: U8): (p: U8)
    ensures 100 <= p <= 200
    ensures amount <= 100 ==> p == 100 + amount
    ensures amount >= 100 ==> p == 200
  {
    var total: nat := 100 + amount;
    if total > 200 then 200 else total
  }

  /** darken_colour: alpha kept, each channel scaled by DarkenPercentage(amount)
      and clamped. */
  function DarkenColour(v: bv32, amount: U8, product: PercentProduct): (r: bv32)
    ensures DecomposeArgb(r).alpha == DecomposeArgb(v).alpha
    ensures DecomposeArgb(r).red == ClampChannel(product(DarkenPercentage(amount), DecomposeArgb(v).red))
    ensures DecomposeArgb(r).green == ClampChannel(product(DarkenPercentage(amount), DecomposeArgb(v).green))
    ensures DecomposeArgb(r).blue == ClampChannel(product(DarkenPercentage(amount), DecomposeArgb(v).blue))
  {
    ScaleColourByPercentage(v, DarkenPercentage(amount), product)
  }

  /** lighten_colour: alpha kept, each channel scaled by LightenPercentage(amount)
      and clamped. */
  function LightenColour(v: bv32, amount: U8, product: PercentProduct): (r: bv32)
    ensures DecomposeArgb(r).alpha == DecomposeArgb(v).alpha
    ensures DecomposeArgb(r).red == ClampChannel(product(LightenPercentage(amount), DecomposeArgb(v).red))
    ensures DecomposeArgb(r).green == ClampChannel(product(LightenPercentage(amount), DecomposeArgb(v).green))
    ensures DecomposeArgb(r).blue == ClampChannel(product(LightenPercentage(amount), DecomposeArgb(v).blue))
  {
    ScaleColourByPercentage(v, LightenPercentage(amount), product)
  }

  /** Darkening or lightening by 0 percent scales at exactly 100 percent, so it
      returns the colour unchanged. */
  lemma ZeroShadeIsIdentity(v: bv32, product: PercentProduct)
    requires forall ch: bv8 :: product(100, ch) == ch as int
    ensures DarkenColour(v, 0, product) == v
    ensures LightenColour(v, 0, product) == v
  {
    ScaleAtHundredIsIdentity(v, product);
  }
}
