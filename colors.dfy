// The second revision of the palette lookups: smooth colouring that blends
// two neighbouring palette colours, and names matched by prefix.
module Colors {
  import opened Base
  import opened Palettes

  /** The saturating `f32 as u8` cast: truncation toward zero, then clamping to [0, 255]. */
  function ToU8(x: real): (b: Byte)
    ensures 0.0 <= x < 256.0 ==> b as real <= x < b as real + 1.0
  {
    if x <= 0.0 then 0 else if x >= 255.0 then 255 else x.Floor
  }

  /** `a + (b - a) * p`: the blend of `a` and `b` with weight `p`. */
  function Lerp(a: real, b: real, p: real): (r: real)
    ensures p == 0.0 ==> r == a
    ensures p == 1.0 ==> r == b
    ensures a == b ==> r == a
  {
    var d := b - a;
    assert p == 0.0 ==> d * p == 0.0;
    assert p == 1.0 ==> d * p == d;
    a + d * p
  }

  /** A blend with a weight in [0, 1] lies between its two ends. */
  lemma LerpBetween(a: real, b: real, p: real)
    requires 0.0 <= p <= 1.0
    ensures a <= b ==> a <= Lerp(a, b, p) <= b
    ensures b <= a ==> b <= Lerp(a, b, p) <= a
  {
    var d := b - a;
    if d >= 0.0 {
      RealProductNonNegative(d, p);
      RealProductNonNegative(d, 1.0 - p);
    } else {
      RealProductNonNegative(-d, p);
      RealProductNonNegative(-d, 1.0 - p);
    }
  }

  /** `interpolate_byte(b1, b2, p)`: `(b1 + (b2 - b1) * p) as u8`. */
  function InterpolateByte(b1: Byte, b2: Byte, p: real): (b: Byte)
    ensures p == 0.0 ==> b == b1
    ensures p == 1.0 ==> b == b2
    ensures b1 == b2 ==> b == b1
  {
    ToU8(Lerp(b1 as real, b2 as real, p))
  }

  /** For `p` in [0, 1] the blend lies between the two bytes. */
  lemma InterpolateByteBetween(b1: Byte, b2: Byte, p: real)
    requires 0.0 <= p <= 1.0
    ensures Min(b1, b2) <= InterpolateByte(b1, b2, p) <= Max(b1, b2)
  {
    var r1, r2 := b1 as real, b2 as real;
    var x := Lerp(r1, r2, p);
    LerpBetween(r1, r2, p);
    if r1 <= r2 {
      ToU8Between(x, b1, b2);
    } else {
      ToU8Between(x, b2, b1);
    }
  }

  /** A value between two bytes is cast to a byte between them. */
  lemma ToU8Between(x: real, lo: Byte, hi: Byte)
    requires lo as real <= x <= hi as real
    ensures lo <= ToU8(x) <= hi
  {
  }

  lemma RealProductNonNegative(a: real, b: real)
    requires a >= 0.0 && b >= 0.0
    ensures a * b >= 0.0
  {
  }

  /** The byte blends the program's tests expect. */
  lemma InterpolateByteExamples()
    ensures InterpolateByte(10, 20, 0.5) == 15
    ensures InterpolateByte(20, 10, 0.5) == 15
    ensures InterpolateByte(10, 20, 0.1) == 11
    ensures InterpolateByte(20, 10, 0.1) == 19
  {
  }

  /** `interpolate(c1, c2, p)`: the channel-wise blend of two RGB colours (other colours panic). */
  function Interpolate(c1: Color, c2: Color, p: real): (c: Color)
    requires c1.Rgb? && c2.Rgb?
    ensures c.Rgb?
    ensures p == 0.0 ==> c == c1
    ensures p == 1.0 ==> c == c2
    ensures c1 == c2 ==> c == c1
  {
    Rgb(InterpolateByte(c1.r, c2.r, p), InterpolateByte(c1.g, c2.g, p), InterpolateByte(c1.b, c2.b, p))
  }

  /** The colour blends the program's tests expect. */
  lemma InterpolateExamples()
    ensures Interpolate(Rgb(10, 20, 100), Rgb(20, 10, 0), 0.5) == Rgb(15, 15, 50)
    ensures Interpolate(Rgb(10, 20, 100), Rgb(20, 10, 0), 0.1) == Rgb(11, 19, 90)
  {
    InterpolateByteExamples();
  }

  /** `f32::ceil`. */
  function Ceil(d: real): (n: int)
    ensures d <= n as real < d + 1.0
  {
    -((-d).Floor)
  }

  /** `d % 1.0` on floats: the fractional part, carrying the sign of `d`. */
  function FractionOf(d: real): (f: real)
    ensures d >= 0.0 ==> f == d - d.Floor as real && 0.0 <= f < 1.0
    ensures d < 0.0 ==> f == d - Ceil(d) as real && -1.0 < f <= 0.0
  {
    if d >= 0.0 then d - d.Floor as real else d - Ceil(d) as real
  }

  predicate AllRgb(pal: Palette)
  {
    forall i :: 0 <= i < |pal.colors| ==> pal.colors[i].Rgb?
  }

  /** The palette position `(offset + i) as f32 / smoothing as f32`, exactly. */
  function Position(n: int, smoothing: int): real
    requires smoothing != 0
  {
    n as real / smoothing as real
  }

  /** `palette_color_at(d.floor() as i32, pal)`; the cast saturates. */
  function FloorColor(n: int, pal: Palette, smoothing: int): Color
    requires InI32(n) && smoothing != 0 && |pal.colors| > 0
  {
    Palettes.PaletteColor(SaturateI32(Position(n, smoothing).Floor), pal)
  }

  /** `palette_color_at(d.ceil() as i32, pal)`; the cast saturates. */
  function CeilColor(n: int, pal: Palette, smoothing: int): Color
    requires InI32(n) && smoothing != 0 && |pal.colors| > 0
  {
    Palettes.PaletteColor(SaturateI32(Ceil(Position(n, smoothing))), pal)
  }

  /**
   * `palette_color(i, offset, pal, smoothing)`: the palette position
   * `(offset + i) / smoothing` blends the colours at its floor and its ceiling
   * by its fractional part. The `i32` sum wraps as in an optimised build.
   * With a smoothing of 0 the `f32` division gives an infinity or NaN, whose
   * `% 1.0` is NaN; every channel blended by NaN is `NaN as u8`, which is 0,
   * so the colour is black whatever the palette.
   */
  function PaletteColor(i: int, offset: int, pal: Palette, smoothing: int): (c: Color)
    requires InI32(i) && InI32(offset) && |pal.colors| > 0 && AllRgb(pal)
    ensures c.Rgb?
    ensures smoothing == 0 ==> c == Rgb(0, 0, 0)
  {
    if smoothing == 0 then Rgb(0, 0, 0)
    else
      var n := WrapI32(offset + i);
      Interpolate(FloorColor(n, pal, smoothing), CeilColor(n, pal, smoothing), FractionOf(Position(n, smoothing)))
  }

  /** A position that is a whole number gives exactly the palette colour there. */
  lemma PaletteColorWhole(i: int, offset: int, pal: Palette, smoothing: int)
    requires InI32(i) && InI32(offset) && smoothing > 0 && |pal.colors| > 0 && AllRgb(pal)
    requires WrapI32(offset + i) % smoothing == 0
    ensures InI32(WrapI32(offset + i) / smoothing)
    ensures PaletteColor(i, offset, pal, smoothing) == Palettes.PaletteColor(WrapI32(offset + i) / smoothing, pal)
  {
    var n := WrapI32(offset + i);
    var q := n / smoothing;
    assert n == q * smoothing;
    if q > 0 {
      MultiplyAtLeast(smoothing, q);
      assert q * smoothing == smoothing * q;
    } else if q < 0 {
      MultiplyAtLeast(smoothing, -q);
      assert (-q) * smoothing == smoothing * (-q);
    }
    var d := Position(n, smoothing);
    assert d == q as real;
    assert d.Floor == q && Ceil(d) == q && FractionOf(d) == 0.0;
  }

  /** For a non-negative position each channel lies between those of the two neighbouring colours. */
  lemma PaletteColorBetween(i: int, offset: int, pal: Palette, smoothing: int)
    requires InI32(i) && InI32(offset) && WrapI32(offset + i) >= 0 && smoothing > 0 && |pal.colors| > 0 && AllRgb(pal)
    ensures var n := WrapI32(offset + i);
      var lo, hi, c := FloorColor(n, pal, smoothing), CeilColor(n, pal, smoothing), PaletteColor(i, offset, pal, smoothing);
      Min(lo.r, hi.r) <= c.r <= Max(lo.r, hi.r)
      && Min(lo.g, hi.g) <= c.g <= Max(lo.g, hi.g)
      && Min(lo.b, hi.b) <= c.b <= Max(lo.b, hi.b)
  {
    var n := WrapI32(offset + i);
    var lo, hi := FloorColor(n, pal, smoothing), CeilColor(n, pal, smoothing);
    var f := FractionOf(Position(n, smoothing));
    assert Position(n, smoothing) >= 0.0;
    InterpolateByteBetween(lo.r, hi.r, f);
    InterpolateByteBetween(lo.g, hi.g, f);
    InterpolateByteBetween(lo.b, hi.b, f);
  }

  /**
   * The offset plus the value wraps: at the largest `i32` offset the value 1
   * is coloured as the value 0 at the smallest offset.
   */
  lemma PaletteColorSumWraps(pal: Palette, smoothing: int)
    requires |pal.colors| > 0 && AllRgb(pal)
    ensures PaletteColor(1, I32_MAX, pal, smoothing) == PaletteColor(0, I32_MIN, pal, smoothing)
  {
    assert WrapI32(I32_MAX + 1) == I32_MIN;
  }

  /** `get_palette_index_by_name`: the first palette whose lower-cased name starts with the lower-cased query. */
  function GetPaletteIndexByName(name: string): (r: Option<nat>)
    ensures r.Some? ==> r.value < |COLORS| && StartsWith(Lower(COLORS[r.value].name), Lower(name))
    ensures r.Some? ==> forall j :: 0 <= j < r.value ==> !StartsWith(Lower(COLORS[j].name), Lower(name))
    ensures r.None? <==> forall j :: 0 <= j < |COLORS| ==> !StartsWith(Lower(COLORS[j].name), Lower(name))
  {
    FindFirst(COLORS, (p: Palette) => StartsWith(Lower(p.name), Lower(name)))
  }

  /** Every palette is found under its own name: no name starts with another palette's name. */
  lemma GetPaletteIndexByOwnName(k: nat)
    requires k < |COLORS|
    ensures GetPaletteIndexByName(COLORS[k].name) == Some(k)
  {
    ColorsTable();
    var q := Lower(COLORS[k].name);
    forall j | 0 <= j < k ensures !StartsWith(Lower(COLORS[j].name), q) {
      assert Lower(COLORS[j].name)[0] != q[0];
    }
  }

  /**
   * "MouNtAIn" names "Mountain", whose first colour is (15, 20, 25), by the
   * prefix lookup of this revision as by the exact lookup of the earlier one.
   */
  lemma MountainByName()
    ensures GetPaletteIndexByName("MouNtAIn") == Some(11)
    ensures Palettes.GetPaletteIndexByName("MouNtAIn") == Some(11)
    ensures COLORS[11].name == "Mountain" && COLORS[11].colors[0] == Rgb(15, 20, 25)
  {
    assert Lower("MouNtAIn") == Lower("Mountain");
    GetPaletteIndexByOwnName(11);
    Palettes.GetPaletteIndexByOwnName(11);
  }
}
