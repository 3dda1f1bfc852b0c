// The colour palettes and the first revision of the palette lookups
// (`palette_color` by plain modular indexing, names matched exactly).
module Palettes {
  import opened Base

  type Byte = b: int | 0 <= b < 256

  /** The terminal colours the program produces: the terminal default, or a 24-bit colour. */
  datatype Color = Reset | Rgb(r: Byte, g: Byte, b: Byte)

  /** A palette: its colours in fixed order, and its name. */
  datatype Palette = Palette(colors: seq<Color>, name: string)

  /** `COLORS`, the twelve built-in palettes. */
  const COLORS: seq<Palette> := [
    GALAXY, SUNSET, FOREST, VOLCANO, NEON, DUNES,
    ICEBERG, AUTUMN, TWILIGHT, UNDERGROUND, LAVA, MOUNTAIN
  ]

  const GALAXY: Palette := Palette([
      Rgb(12, 4, 50), Rgb(7, 7, 76), Rgb(3, 10, 103), Rgb(15, 47, 141),
      Rgb(27, 85, 180), Rgb(60, 128, 212), Rgb(137, 184, 232), Rgb(214, 239, 251),
      Rgb(244, 236, 194), Rgb(251, 204, 97), Rgb(255, 173, 3), Rgb(207, 131, 3),
      Rgb(156, 90, 3), Rgb(109, 55, 6), Rgb(69, 33, 19), Rgb(28, 10, 29)],
    "Galaxy")

  const SUNSET: Palette := Palette([
      Rgb(25, 7, 26), Rgb(53, 14, 37), Rgb(88, 27, 48), Rgb(135, 54, 72),
      Rgb(186, 85, 108), Rgb(229, 118, 142), Rgb(252, 165, 177), Rgb(255, 204, 187),
      Rgb(255, 211, 138), Rgb(255, 187, 90), Rgb(252, 146, 48), Rgb(241, 103, 31),
      Rgb(208, 66, 29), Rgb(162, 40, 33), Rgb(111, 17, 29), Rgb(54, 7, 20)],
    "Sunset")

  const FOREST: Palette := Palette([
      Rgb(10, 17, 5), Rgb(14, 30, 9), Rgb(22, 47, 12), Rgb(33, 68, 18),
      Rgb(50, 91, 25), Rgb(72, 116, 38), Rgb(106, 145, 55), Rgb(139, 174, 81),
      Rgb(171, 202, 114), Rgb(194, 219, 154), Rgb(182, 190, 129), Rgb(158, 157, 104),
      Rgb(118, 117, 77), Rgb(85, 80, 56), Rgb(55, 52, 36), Rgb(25, 27, 17)],
    "Forest")

  const VOLCANO: Palette := Palette([
      Rgb(30, 10, 5), Rgb(61, 17, 9), Rgb(94, 23, 10), Rgb(138, 33, 8),
      Rgb(180, 50, 12), Rgb(213, 84, 19), Rgb(238, 122, 27), Rgb(252, 157, 36),
      Rgb(255, 192, 54), Rgb(255, 218, 87), Rgb(255, 234, 131), Rgb(249, 213, 107),
      Rgb(210, 142, 73), Rgb(152, 71, 38), Rgb(89, 35, 18), Rgb(53, 18, 10)],
    "Volcano")

  const NEON: Palette := Palette([
      Rgb(5, 5, 25), Rgb(12, 18, 55), Rgb(20, 32, 85), Rgb(45, 52, 112),
      Rgb(74, 78, 141), Rgb(111, 107, 173), Rgb(152, 145, 204), Rgb(198, 184, 234),
      Rgb(245, 226, 255), Rgb(238, 197, 255), Rgb(220, 153, 245), Rgb(186, 109, 212),
      Rgb(138, 63, 173), Rgb(95, 35, 129), Rgb(62, 18, 86), Rgb(34, 10, 55)],
    "Neon")

  const DUNES: Palette := Palette([
      Rgb(50, 38, 18), Rgb(73, 57, 27), Rgb(94, 74, 36), Rgb(118, 96, 50),
      Rgb(153, 126, 68), Rgb(186, 153, 88), Rgb(216, 180, 109), Rgb(236, 203, 135),
      Rgb(244, 221, 164), Rgb(251, 236, 197), Rgb(247, 239, 206), Rgb(216, 215, 189),
      Rgb(174, 172, 148), Rgb(127, 120, 106), Rgb(89, 82, 71), Rgb(59, 55, 49)],
    "Dunes")

  const ICEBERG: Palette := Palette([
      Rgb(70, 130, 140), Rgb(110, 160, 175), Rgb(170, 210, 215), Rgb(200, 230, 235),
      Rgb(230, 250, 255), Rgb(200, 245, 255), Rgb(150, 230, 245), Rgb(90, 210, 230),
      Rgb(50, 185, 210), Rgb(10, 160, 190), Rgb(0, 135, 170), Rgb(0, 110, 150),
      Rgb(0, 80, 120), Rgb(0, 55, 90), Rgb(0, 30, 60), Rgb(0, 10, 20)],
    "Iceberg")

  const AUTUMN: Palette := Palette([
      Rgb(45, 20, 5), Rgb(70, 30, 10), Rgb(95, 45, 15), Rgb(130, 65, 20),
      Rgb(160, 90, 30), Rgb(190, 120, 40), Rgb(220, 150, 60), Rgb(245, 180, 80),
      Rgb(255, 200, 100), Rgb(255, 220, 140), Rgb(255, 235, 170), Rgb(255, 245, 200),
      Rgb(230, 200, 160), Rgb(190, 150, 110), Rgb(140, 100, 70), Rgb(90, 60, 40)],
    "Autumn")

  const TWILIGHT: Palette := Palette([
      Rgb(15, 10, 25), Rgb(30, 20, 45), Rgb(55, 30, 70), Rgb(90, 40, 100),
      Rgb(130, 60, 130), Rgb(175, 90, 160), Rgb(200, 115, 180), Rgb(225, 145, 195),
      Rgb(240, 180, 205), Rgb(255, 210, 210), Rgb(255, 190, 150), Rgb(255, 160, 100),
      Rgb(250, 130, 70), Rgb(200, 100, 50), Rgb(150, 70, 40), Rgb(90, 50, 30)],
    "Twilight")

  const UNDERGROUND: Palette := Palette([
      Rgb(10, 15, 10), Rgb(25, 30, 25), Rgb(40, 50, 35), Rgb(60, 70, 45),
      Rgb(90, 95, 55), Rgb(110, 120, 75), Rgb(140, 150, 100), Rgb(170, 180, 130),
      Rgb(190, 200, 160), Rgb(210, 220, 185), Rgb(230, 235, 205), Rgb(215, 220, 180),
      Rgb(185, 190, 150), Rgb(140, 150, 110), Rgb(90, 100, 75), Rgb(55, 65, 50)],
    "Underground")

  const LAVA: Palette := Palette([
      Rgb(30, 10, 5), Rgb(60, 15, 10), Rgb(90, 20, 15), Rgb(120, 30, 20),
      Rgb(150, 45, 25), Rgb(180, 65, 30), Rgb(210, 90, 40), Rgb(240, 120, 50),
      Rgb(255, 160, 60), Rgb(255, 190, 80), Rgb(255, 210, 100), Rgb(255, 230, 130),
      Rgb(240, 200, 110), Rgb(210, 150, 90), Rgb(170, 100, 70), Rgb(120, 60, 50)],
    "Lava")

  const MOUNTAIN: Palette := Palette([
      Rgb(15, 20, 25), Rgb(30, 35, 40), Rgb(50, 55, 60), Rgb(75, 80, 85),
      Rgb(100, 110, 120), Rgb(130, 140, 150), Rgb(160, 170, 180), Rgb(190, 200, 210),
      Rgb(210, 220, 230), Rgb(225, 230, 235), Rgb(240, 240, 245), Rgb(230, 235, 230),
      Rgb(200, 210, 200), Rgb(170, 185, 170), Rgb(130, 140, 140), Rgb(100, 105, 110)],
    "Mountain")

  /** `i as usize` on a 64-bit target: a negative `i32` wraps around. */
  function AsUsize(i: int): (u: nat)
    requires InI32(i)
    ensures i >= 0 ==> u == i
    ensures i < 0 ==> u == i + USIZE_MODULUS
  {
    if i >= 0 then i else i + USIZE_MODULUS
  }

  /** Old `palette_color(i, pal)`, and `palette_color_at` of the later revision: `pal.colors[i as usize % len]`. */
  function PaletteColor(i: int, pal: Palette): (c: Color)
    requires InI32(i) && |pal.colors| > 0
    ensures c in pal.colors
    ensures i >= 0 ==> c == pal.colors[i % |pal.colors|]
  {
    pal.colors[AsUsize(i) % |pal.colors|]
  }

  /** Adding the palette length to a non-negative index gives the same colour. */
  lemma PaletteColorPeriodic(i: int, pal: Palette)
    requires 0 <= i && InI32(i + |pal.colors|) && |pal.colors| > 0
    ensures PaletteColor(i + |pal.colors|, pal) == PaletteColor(i, pal)
  {
    var n := |pal.colors|;
    DivModUnique(i + n, n, i / n + 1, i % n);
  }

  /** When the length divides 2^64, as 16 does, negative indices wrap like Euclidean remainders. */
  lemma PaletteColorNegative(i: int, pal: Palette)
    requires InI32(i) && i < 0 && |pal.colors| > 0 && USIZE_MODULUS % |pal.colors| == 0
    ensures PaletteColor(i, pal) == pal.colors[i % |pal.colors|]
  {
    var n := |pal.colors|;
    var m := USIZE_MODULUS / n;
    assert USIZE_MODULUS == m * n;
    assert i == (i / n) * n + i % n;
    assert i + USIZE_MODULUS == (i / n + m) * n + i % n;
    DivModUnique(i + USIZE_MODULUS, n, i / n + m, i % n);
  }

  /** Every built-in palette has 16 colours, all of them `Rgb`. */
  predicate WellFormed(pal: Palette)
  {
    |pal.colors| == 16 && |pal.name| > 0 && forall i :: 0 <= i < |pal.colors| ==> pal.colors[i].Rgb?
  }

  /** The initials of the palette names, lower-cased. */
  const INITIALS: string := "gsfvndiatulm"

  /** The table: 12 palettes, each with 16 RGB colours, names starting with distinct letters. */
  lemma ColorsTable()
    ensures |COLORS| == 12
    ensures forall k :: 0 <= k < |COLORS| ==> WellFormed(COLORS[k])
    ensures forall j, k :: 0 <= j < |COLORS| && 0 <= k < |COLORS| && j != k ==>
      LowerChar(COLORS[j].name[0]) != LowerChar(COLORS[k].name[0])
  {
    forall k | 0 <= k < |COLORS|
      ensures WellFormed(COLORS[k]) && LowerChar(COLORS[k].name[0]) == INITIALS[k]
    {
      PaletteWellFormed(k);
    }
  }

  /** The `k`-th built-in palette is well formed and its name starts with the `k`-th initial. */
  lemma PaletteWellFormed(k: nat)
    requires k < |COLORS|
    ensures WellFormed(COLORS[k]) && LowerChar(COLORS[k].name[0]) == INITIALS[k]
  {
    if k < 6 { FirstPalettesWellFormed(k); } else { LastPalettesWellFormed(k); }
  }

  lemma FirstPalettesWellFormed(k: nat)
    requires k < 6
    ensures WellFormed(COLORS[k]) && LowerChar(COLORS[k].name[0]) == INITIALS[k]
  {
    var p := COLORS[k];
    if k == 0 { assert p == GALAXY; }
    else if k == 1 { assert p == SUNSET; }
    else if k == 2 { assert p == FOREST; }
    else if k == 3 { assert p == VOLCANO; }
    else if k == 4 { assert p == NEON; }
    else { assert p == DUNES; }
  }

  lemma LastPalettesWellFormed(k: nat)
    requires 6 <= k < |COLORS|
    ensures WellFormed(COLORS[k]) && LowerChar(COLORS[k].name[0]) == INITIALS[k]
  {
    var p := COLORS[k];
    if k == 6 { assert p == ICEBERG; }
    else if k == 7 { assert p == AUTUMN; }
    else if k == 8 { assert p == TWILIGHT; }
    else if k == 9 { assert p == UNDERGROUND; }
    else if k == 10 { assert p == LAVA; }
    else { assert p == MOUNTAIN; }
  }

  /** For the built-in palettes the colour of any `i32` index is `colors[i mod 16]`. */
  lemma BuiltinPaletteColor(i: int, k: nat)
    requires InI32(i) && k < |COLORS|
    ensures PaletteColor(i, COLORS[k]) == COLORS[k].colors[i % 16]
  {
    ColorsTable();
    if i < 0 {
      PaletteColorNegative(i, COLORS[k]);
    }
  }

  /** Old `get_palette_index_by_name`: the first palette whose name equals the query, ignoring case. */
  function GetPaletteIndexByName(name: string): (r: Option<nat>)
    ensures r.Some? ==> r.value < |COLORS| && Lower(COLORS[r.value].name) == Lower(name)
    ensures r.Some? ==> forall j :: 0 <= j < r.value ==> Lower(COLORS[j].name) != Lower(name)
    ensures r.None? <==> forall j :: 0 <= j < |COLORS| ==> Lower(COLORS[j].name) != Lower(name)
  {
    FindFirst(COLORS, (p: Palette) => Lower(p.name) == Lower(name))
  }

  /** Every palette is found under its own name. */
  lemma GetPaletteIndexByOwnName(k: nat)
    requires k < |COLORS|
    ensures GetPaletteIndexByName(COLORS[k].name) == Some(k)
  {
    ColorsTable();
    var q := COLORS[k].name;
    forall j | 0 <= j < k ensures Lower(COLORS[j].name) != Lower(q) {
      assert Lower(COLORS[j].name)[0] != Lower(q)[0];
    }
  }}
