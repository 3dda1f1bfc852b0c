// The settings the renderer works from (src/frac_logic): the defaults, the
// bounded setters, the colour of a divergence value and the mapping between
// canvas coordinates and the complex plane. `rug` numbers are exact reals.
module FracLogic {
  import opened Base
  import opened Vec2s
  import opened Palettes
  import Colors
  import opened VoidFills
  import opened HslSettings
  import Fractals
  import Bounds
  import IncrementWrap

  const INITIAL_CANVAS_WIDTH: int := 5

  const DF_PREC_GPU: int := 64
  const DF_MAX_ITER_GPU: int := 128
  const DF_PREC_CPU: int := 32
  const DF_MAX_ITER_CPU: int := 64

  /** The `f32` pair (-9.9418604e-1, 2.61627e-1), read as the decimals it is written with. */
  const DEFAULT_JULIA_CONSTANT: Complex := Complex(-0.99418604, 0.261627)
  const DEFAULT_MANDEL_CONSTANT: Complex := ORIGIN
  const DEFAULT_SMOOTHNESS: int := 7
  const DEFAULT_BAILOUT: real := 2.0

  const BLACK: Color := Rgb(0, 0, 0)
  const WHITE: Color := Rgb(255, 255, 255)

  /** The values of a `RenderSettings`, without the GPU handles and the image format. */
  datatype Settings = Settings(
    cellSize: real,
    pos: Complex,
    canvasSize: Vec2<int>,
    prec: int,
    maxIter: int,
    fracIndex: nat,
    hsl: HslSettings,
    paletteIndex: nat,
    colorSchemeOffset: int,
    voidFillIndex: nat,
    useGpu: bool,
    juliaConstant: Complex,
    mandelConstant: Complex,
    bailout: real,
    smoothness: int,
    chunkSizeLimit: Option<int>)

  /** `RenderSettings::default()`: GPU-mode precision and iteration limit, the first fractal at its default position. */
  const DEFAULT_SETTINGS: Settings := Settings(
    0.0, Fractals.FRACTALS[0].defaultPos, Vec2(0, 0), DF_PREC_GPU, DF_MAX_ITER_GPU, 0, DEFAULT_HSL,
    4, 0, 0, false, DEFAULT_JULIA_CONSTANT, DEFAULT_MANDEL_CONSTANT, DEFAULT_BAILOUT,
    DEFAULT_SMOOTHNESS, None)

  lemma DefaultSettings()
    ensures DEFAULT_SETTINGS.prec == 64 && DEFAULT_SETTINGS.maxIter == 128
    ensures DEFAULT_SETTINGS.paletteIndex == 4 && DEFAULT_SETTINGS.bailout == 2.0
    ensures DEFAULT_SETTINGS.smoothness == 7 && DEFAULT_SETTINGS.chunkSizeLimit.None?
    ensures !DEFAULT_SETTINGS.useGpu && DEFAULT_SETTINGS.fracIndex == 0
    ensures DEFAULT_SETTINGS.pos == Complex(-0.5, 0.0) && DEFAULT_SETTINGS.colorSchemeOffset == 0
    ensures DEFAULT_SETTINGS.voidFillIndex == 0 && AllVoidFills()[DEFAULT_SETTINGS.voidFillIndex] == Transparent
    ensures DEFAULT_SETTINGS.hsl == DEFAULT_HSL && !DEFAULT_SETTINGS.hsl.enabled
  {
  }

  // ------------------------------------------------------------- setters

  /** `set_decimal_prec`: the precision is brought into [MIN_DECIMAL_PREC, MAX_DECIMAL_PREC]. */
  function WithDecimalPrec(s: Settings, prec: int): (r: Settings)
    ensures r == s.(prec := r.prec)
    ensures Bounds.MIN_DECIMAL_PREC <= r.prec <= Bounds.MAX_DECIMAL_PREC
    ensures Bounds.MIN_DECIMAL_PREC <= prec <= Bounds.MAX_DECIMAL_PREC ==> r.prec == prec
    ensures prec < Bounds.MIN_DECIMAL_PREC ==> r.prec == Bounds.MIN_DECIMAL_PREC
    ensures prec > Bounds.MAX_DECIMAL_PREC ==> r.prec == Bounds.MAX_DECIMAL_PREC
  {
    s.(prec := Min(Bounds.MAX_DECIMAL_PREC, Max(Bounds.MIN_DECIMAL_PREC, prec)))
  }

  /** `increment_max_iter`: a saturating `i32` add, then the bounds [MIN_MAX_ITER, MAX_MAX_ITER]. */
  function WithMaxIterIncremented(s: Settings, increment: int): (r: Settings)
    ensures r == s.(maxIter := r.maxIter)
    ensures Bounds.MIN_MAX_ITER <= r.maxIter <= Bounds.MAX_MAX_ITER
  {
    s.(maxIter := Max(Bounds.MIN_MAX_ITER, Min(Bounds.MAX_MAX_ITER, SaturateI32(s.maxIter + increment))))
  }

  /** The saturation of the `i32` add never shows: the result is the exact sum, clamped. */
  lemma MaxIterIncrementIsClampedSum(s: Settings, increment: int)
    ensures WithMaxIterIncremented(s, increment).maxIter
      == Clamp(s.maxIter + increment, Bounds.MIN_MAX_ITER, Bounds.MAX_MAX_ITER)
  {
  }

  /** The width the colour offset wraps at: `len(palette) * smoothness`. */
  function ColorOffsetWidth(s: Settings): int
    requires s.paletteIndex < |COLORS|
  {
    |COLORS[s.paletteIndex].colors| * s.smoothness
  }

  /** `increment_color_offset`. */
  function WithColorOffsetIncremented(s: Settings): (r: Settings)
    requires s.paletteIndex < |COLORS| && ColorOffsetWidth(s) != 0
    ensures r == s.(colorSchemeOffset := r.colorSchemeOffset)
    ensures 0 <= s.colorSchemeOffset < ColorOffsetWidth(s) ==> 0 <= r.colorSchemeOffset < ColorOffsetWidth(s)
  {
    s.(colorSchemeOffset := IncrementWrap.IncrementWrapped(s.colorSchemeOffset, ColorOffsetWidth(s)))
  }

  /** `decrement_color_offset`. */
  function WithColorOffsetDecremented(s: Settings): (r: Settings)
    requires s.paletteIndex < |COLORS| && ColorOffsetWidth(s) != 0
    ensures r == s.(colorSchemeOffset := r.colorSchemeOffset)
    ensures 0 <= s.colorSchemeOffset < ColorOffsetWidth(s) ==> 0 <= r.colorSchemeOffset < ColorOffsetWidth(s)
  {
    s.(colorSchemeOffset := IncrementWrap.DecrementWrapped(s.colorSchemeOffset, ColorOffsetWidth(s)))
  }

  /** Every built-in palette has 16 colours, so the offset wraps at `16 * smoothness`. */
  lemma ColorOffsetWidthIsSixteenTimesSmoothness(s: Settings)
    requires s.paletteIndex < |COLORS|
    ensures ColorOffsetWidth(s) == 16 * s.smoothness
  {
    PaletteWellFormed(s.paletteIndex);
  }

  /** With a positive smoothness, incrementing and decrementing an in-range offset undo each other. */
  lemma ColorOffsetSteps(s: Settings)
    requires s.paletteIndex < |COLORS| && s.smoothness >= 1
    requires 0 <= s.colorSchemeOffset < ColorOffsetWidth(s)
    ensures WithColorOffsetDecremented(WithColorOffsetIncremented(s)) == s
    ensures WithColorOffsetIncremented(WithColorOffsetDecremented(s)) == s
    ensures WithColorOffsetIncremented(s).colorSchemeOffset
      == (s.colorSchemeOffset + 1) % (16 * s.smoothness)
  {
    ColorOffsetWidthIsSixteenTimesSmoothness(s);
    var w := ColorOffsetWidth(s);
    IncrementWrap.WrapInverses(s.colorSchemeOffset, w);
    ModSuccessor(s.colorSchemeOffset, w);
    DivModUnique(s.colorSchemeOffset, w, 0, s.colorSchemeOffset);
  }

  /** `cpu_defaults`: the CPU-mode precision and iteration limit, through the setters. */
  function WithCpuDefaults(s: Settings): (r: Settings)
    ensures r == s.(prec := DF_PREC_CPU, maxIter := DF_MAX_ITER_CPU)
  {
    WithDecimalPrec(s, DF_PREC_CPU).(maxIter := DF_MAX_ITER_CPU)
  }

  /** The message `select_fractal` returns when the shader of the new fractal cannot be loaded. */
  function ShaderFailure(err: string): string
  {
    "Disabling GPU mode because fractal shader could not be loaded: " + err
  }

  /**
   * `select_fractal(frac_i)`. Whether the GPU shader of the fractal loads is
   * decided outside this model: `shaderError` is `Some(err)` when it fails.
   */
  function WithFractalSelected(s: Settings, fracI: nat, shaderError: Option<string>): (r: (Settings, Result<(), string>))
    ensures r.0 == s.(fracIndex := fracI, useGpu := r.0.useGpu)
    ensures r.1.Err? <==> s.useGpu && shaderError.Some?
    ensures r.0.useGpu <==> s.useGpu && shaderError.None?
    ensures r.1.Err? ==> r.1.error == ShaderFailure(shaderError.value)
  {
    var t := s.(fracIndex := fracI);
    if t.useGpu && shaderError.Some? then (t.(useGpu := false), Err(ShaderFailure(shaderError.value)))
    else (t, Ok(()))
  }

  /** Selecting a fractal never fails with GPU mode off, and then changes only the index. */
  lemma SelectFractalWithoutGpu(s: Settings, fracI: nat, shaderError: Option<string>)
    requires !s.useGpu
    ensures WithFractalSelected(s, fracI, shaderError) == (s.(fracIndex := fracI), Ok(()))
  {
  }

  // ------------------------------------------------------------- colours

  /** `get_palette`. */
  function GetPalette(s: Settings): (p: Palette)
    requires s.paletteIndex < |COLORS|
    ensures p in COLORS && WellFormed(p)
  {
    PaletteWellFormed(s.paletteIndex);
    COLORS[s.paletteIndex]
  }

  /** The three values drawn from `gen_range(0..255)` by the noise fills. */
  predicate NoiseInRange(noise: (Byte, Byte, Byte))
  {
    noise.0 < 255 && noise.1 < 255 && noise.2 < 255
  }

  /** What `color_from_div` needs: a valid palette and void fill, and an `i32` offset and value. */
  predicate ColorableBy(s: Settings, diverg: int)
  {
    s.paletteIndex < |COLORS| && s.voidFillIndex < |AllVoidFills()|
    && InI32(s.colorSchemeOffset) && InI32(diverg)
  }

  /**
   * `color_from_div(diverg)`. The random draws of the noise fills are the
   * parameter `noise`; the colour HSL mode computes is the parameter `hslColor`.
   */
  function ColorFromDiv(s: Settings, diverg: int, noise: (Byte, Byte, Byte), hslColor: Color): (c: Color)
    requires ColorableBy(s, diverg) && NoiseInRange(noise)
    decreases if diverg == -1 then 1 else 0
  {
    if diverg == -1 then
      match AllVoidFills()[s.voidFillIndex]
      case Transparent => Reset
      case Black => BLACK
      case White => WHITE
      case ColorScheme => ColorFromDiv(s, 0, noise, hslColor)
      case RgbNoise => Rgb(noise.0, noise.1, noise.2)
      case RedNoise => Rgb(noise.0, 0, 0)
      case GreenNoise => Rgb(0, noise.1, 0)
      case BlueNoise => Rgb(0, 0, noise.2)
    else if !s.hsl.enabled then
      Colors.PaletteColor(diverg, s.colorSchemeOffset, GetPalette(s), s.smoothness)
    else
      hslColor
  }

  /** The void fills: Transparent, black, white, and the colour of the value 0. */
  lemma VoidColors(s: Settings, noise: (Byte, Byte, Byte), hslColor: Color)
    requires ColorableBy(s, -1) && NoiseInRange(noise)
    ensures var fill := AllVoidFills()[s.voidFillIndex]; var c := ColorFromDiv(s, -1, noise, hslColor);
      (fill == Transparent ==> c == Reset) && (fill == Black ==> c == Rgb(0, 0, 0))
      && (fill == White ==> c == Rgb(255, 255, 255))
      && (fill == ColorScheme ==> c == ColorFromDiv(s, 0, noise, hslColor))
      && (fill.RedNoise? ==> c.Rgb? && c.r < 255 && c.g == 0 && c.b == 0)
  {
  }

  /** With HSL off, a value that is not void takes the smoothly blended palette colour. */
  lemma PaletteColoring(s: Settings, diverg: int, noise: (Byte, Byte, Byte), hslColor: Color)
    requires ColorableBy(s, diverg) && NoiseInRange(noise) && diverg != -1 && !s.hsl.enabled
    ensures (PaletteWellFormed(s.paletteIndex);
      ColorFromDiv(s, diverg, noise, hslColor)
      == Colors.PaletteColor(diverg, s.colorSchemeOffset, COLORS[s.paletteIndex], s.smoothness))
  {
  }

  /**
   * The terminal's default colour appears exactly for void points with the
   * Transparent fill (HSL produces RGB colours).
   */
  lemma ResetOnlyWhenTransparent(s: Settings, diverg: int, noise: (Byte, Byte, Byte), hslColor: Color)
    requires ColorableBy(s, diverg) && NoiseInRange(noise) && hslColor.Rgb?
    ensures ColorFromDiv(s, diverg, noise, hslColor) == Reset
      <==> diverg == -1 && AllVoidFills()[s.voidFillIndex] == Transparent
  {
    if diverg == -1 && AllVoidFills()[s.voidFillIndex] == ColorScheme {
      assert ColorableBy(s, 0);
      assert ColorFromDiv(s, -1, noise, hslColor) == ColorFromDiv(s, 0, noise, hslColor);
    }
  }

  /**
   * With the default offset 0 and HSL off, the ColorScheme fill paints void
   * points with the palette's first colour.
   */
  lemma ColorSchemeVoidIsFirstColour(s: Settings, noise: (Byte, Byte, Byte), hslColor: Color)
    requires ColorableBy(s, -1) && NoiseInRange(noise) && !s.hsl.enabled && s.smoothness > 0
    requires s.colorSchemeOffset == 0 && AllVoidFills()[s.voidFillIndex] == ColorScheme
    ensures ColorFromDiv(s, -1, noise, hslColor) == COLORS[s.paletteIndex].colors[0]
  {
    assert ColorFromDiv(s, -1, noise, hslColor) == ColorFromDiv(s, 0, noise, hslColor);
    PaletteColoring(s, 0, noise, hslColor);
    PaletteWellFormed(s.paletteIndex);
    FirstPaletteColour(COLORS[s.paletteIndex], s.smoothness);
  }

  lemma FirstPaletteColour(pal: Palette, smoothing: int)
    requires |pal.colors| > 0 && Colors.AllRgb(pal) && smoothing > 0
    ensures Colors.PaletteColor(0, 0, pal, smoothing) == pal.colors[0]
  {
    Colors.PaletteColorWhole(0, 0, pal, smoothing);
    assert 0 / smoothing == 0;
  }

  // --------------------------------------------------------- coordinates

  /** `coord_to_c_with_cell_size`: the canvas point scaled by `cell`, moved to `pos`. */
  function CoordToCWithCellSize(s: Settings, coords: Vec2<int>, cell: real): Complex
  {
    Complex(coords.x as real * cell, coords.y as real * cell).Plus(s.pos)
  }

  /** `coord_to_c`: the same with the configured cell size. */
  function CoordToC(s: Settings, coords: Vec2<int>): (c: Complex)
    ensures c == CoordToCWithCellSize(s, coords, s.cellSize)
  {
    CoordToCWithCellSize(s, coords, s.cellSize)
  }

  /** The canvas origin is the position; moving on the canvas moves by whole cells. */
  lemma CoordToCIsAffine(s: Settings, a: Vec2<int>, b: Vec2<int>, cell: real)
    ensures CoordToCWithCellSize(s, Vec2(0, 0), cell) == s.pos
    ensures CoordToCWithCellSize(s, a, cell).Minus(CoordToCWithCellSize(s, b, cell))
      == Complex((a.x - b.x) as real * cell, (a.y - b.y) as real * cell)
  {
  }

  /** With a positive cell size, distinct canvas points are distinct complex numbers. */
  lemma CoordToCInjective(s: Settings, a: Vec2<int>, b: Vec2<int>, cell: real)
    requires cell > 0.0 && a != b
    ensures CoordToCWithCellSize(s, a, cell) != CoordToCWithCellSize(s, b, cell)
  {
    CoordToCIsAffine(s, a, b, cell);
    if a.x != b.x {
      assert (a.x - b.x) as real * cell != 0.0;
    } else {
      assert (a.y - b.y) as real * cell != 0.0;
    }
  }

  /** `reset_pos`: the default position of the selected fractal. */
  function WithPosReset(s: Settings): (r: Settings)
    requires s.fracIndex < |Fractals.FRACTALS|
    ensures r == s.(pos := Fractals.FRACTALS[s.fracIndex].defaultPos)
  {
    s.(pos := Fractals.FRACTALS[s.fracIndex].defaultPos)
  }

  /** `ratatui_to_canvas_coords`: terminal cell (x, y) to canvas coordinates, with `i32` division. */
  function RatatuiToCanvasCoords(s: Settings, x: int, y: int): Vec2<int>
  {
    Vec2(x - 1 - RustDiv(s.canvasSize.x, 2), y * -2 + 1 + RustDiv(s.canvasSize.y, 2))
  }

  /** One column right is one canvas step right; one row down is two canvas steps down. */
  lemma RatatuiSteps(s: Settings, x: int, y: int)
    ensures RatatuiToCanvasCoords(s, x + 1, y).x == RatatuiToCanvasCoords(s, x, y).x + 1
    ensures RatatuiToCanvasCoords(s, x, y + 1).y == RatatuiToCanvasCoords(s, x, y).y - 2
    ensures RatatuiToCanvasCoords(s, x, y + 1).x == RatatuiToCanvasCoords(s, x, y).x
  {
  }

  /** For terminal cells (`u16`) and an `i32` canvas size, the arithmetic stays within `i32`. */
  lemma RatatuiFitsI32(s: Settings, x: int, y: int)
    requires 0 <= x < 0x1_0000 && 0 <= y < 0x1_0000
    requires InI32(s.canvasSize.x) && InI32(s.canvasSize.y)
    ensures InI32(RatatuiToCanvasCoords(s, x, y).x) && InI32(RatatuiToCanvasCoords(s, x, y).y)
  {
  }

  /** `get_default_cell_size`: the cell size that makes the canvas `INITIAL_CANVAS_WIDTH` wide. */
  function DefaultCellSize(s: Settings): real
    requires s.canvasSize.x != 0
  {
    INITIAL_CANVAS_WIDTH as real / s.canvasSize.x as real
  }

  /** `reset_cell_size`. */
  function WithCellSizeReset(s: Settings): (r: Settings)
    requires s.canvasSize.x != 0
    ensures r == s.(cellSize := DefaultCellSize(s))
  {
    s.(cellSize := DefaultCellSize(s))
  }

  /** `get_plane_wid`: the width of the canvas on the complex plane. */
  function PlaneWid(s: Settings): real
  {
    s.canvasSize.x as real * s.cellSize
  }

  /** After `reset_cell_size` the canvas is 5 wide on the real axis (the doc comment says 4). */
  lemma ResetPlaneWidthIsFive(s: Settings)
    requires s.canvasSize.x != 0
    ensures PlaneWid(WithCellSizeReset(s)) == 5.0
  {
    var w := s.canvasSize.x as real;
    assert PlaneWid(WithCellSizeReset(s)) == w * (5.0 / w);
  }

  // ------------------------------------------------------------ the object

  /** `RenderSettings`, updated in place by its setters. */
  class RenderSettings {
    var cellSize: real
    var pos: Complex
    var canvasSize: Vec2<int>
    var prec: int
    var maxIter: int
    var fracIndex: nat
    var hsl: HslSettings
    var paletteIndex: nat
    var colorSchemeOffset: int
    var voidFillIndex: nat
    var useGpu: bool
    var juliaConstant: Complex
    var mandelConstant: Complex
    var bailout: real
    var smoothness: int
    var chunkSizeLimit: Option<int>

    /** The current values of the fields. */
    function Model(): Settings
      reads this
    {
      Settings(cellSize, pos, canvasSize, prec, maxIter, fracIndex, hsl, paletteIndex, colorSchemeOffset,
               voidFillIndex, useGpu, juliaConstant, mandelConstant, bailout, smoothness, chunkSizeLimit)
    }

    /** `RenderSettings::default()`. */
    constructor ()
      ensures Model() == DEFAULT_SETTINGS
    {
      cellSize := 0.0;
      pos := Fractals.FRACTALS[0].defaultPos;
      canvasSize := Vec2(0, 0);
      prec := DF_PREC_GPU;
      maxIter := DF_MAX_ITER_GPU;
      fracIndex := 0;
      hsl := DEFAULT_HSL;
      paletteIndex := 4;
      colorSchemeOffset := 0;
      voidFillIndex := 0;
      useGpu := false;
      juliaConstant := DEFAULT_JULIA_CONSTANT;
      mandelConstant := DEFAULT_MANDEL_CONSTANT;
      bailout := DEFAULT_BAILOUT;
      smoothness := DEFAULT_SMOOTHNESS;
      chunkSizeLimit := None;
    }

    /** `increment_color_offset`; the `i32` product and sum must not overflow. */
    method IncrementColorOffset()
      requires paletteIndex < |COLORS| && smoothness != 0
      requires InI32(16 * smoothness) && InI32(colorSchemeOffset + 1)
      modifies this
      ensures Model() == WithColorOffsetIncremented(old(Model()))
    {
      PaletteWellFormed(paletteIndex);
      var max := |COLORS[paletteIndex].colors| * smoothness;
      colorSchemeOffset := IncrementWrap.IncrementWrap(colorSchemeOffset, max);
    }

    /** `decrement_color_offset`; the `i32` product and sum must not overflow. */
    method DecrementColorOffset()
      requires paletteIndex < |COLORS| && smoothness != 0
      requires InI32(16 * smoothness) && InI32(colorSchemeOffset + 16 * smoothness - 1)
      modifies this
      ensures Model() == WithColorOffsetDecremented(old(Model()))
    {
      PaletteWellFormed(paletteIndex);
      var max := |COLORS[paletteIndex].colors| * smoothness;
      colorSchemeOffset := IncrementWrap.DecrementWrap(colorSchemeOffset, max);
    }

    /** `cpu_defaults`. */
    method CpuDefaults()
      modifies this
      ensures Model() == WithCpuDefaults(old(Model()))
    {
      SetDecimalPrec(DF_PREC_CPU);
      SetMaxIter(DF_MAX_ITER_CPU);
    }

    /** Every field set from `s`: the settings a command closure leaves behind. */
    method Assign(s: Settings)
      modifies this
      ensures Model() == s
    {
      AssignView(s);
      AssignEvaluation(s);
      AssignColouring(s);
    }

    /** The viewport fields of `Assign`. */
    method AssignView(s: Settings)
      modifies this`cellSize, this`pos, this`canvasSize, this`fracIndex
      ensures cellSize == s.cellSize && pos == s.pos && canvasSize == s.canvasSize && fracIndex == s.fracIndex
    {
      cellSize, pos, canvasSize, fracIndex := s.cellSize, s.pos, s.canvasSize, s.fracIndex;
    }

    /** The evaluation fields of `Assign`. */
    method AssignEvaluation(s: Settings)
      modifies this`prec, this`maxIter, this`juliaConstant, this`mandelConstant, this`bailout, this`useGpu
      ensures prec == s.prec && maxIter == s.maxIter && juliaConstant == s.juliaConstant
      ensures mandelConstant == s.mandelConstant && bailout == s.bailout && useGpu == s.useGpu
    {
      prec, maxIter, juliaConstant, mandelConstant := s.prec, s.maxIter, s.juliaConstant, s.mandelConstant;
      bailout, useGpu := s.bailout, s.useGpu;
    }

    /** The colouring fields of `Assign`. */
    method AssignColouring(s: Settings)
      modifies this`hsl, this`paletteIndex, this`colorSchemeOffset, this`voidFillIndex, this`smoothness,
        this`chunkSizeLimit
      ensures hsl == s.hsl && paletteIndex == s.paletteIndex && colorSchemeOffset == s.colorSchemeOffset
      ensures voidFillIndex == s.voidFillIndex && smoothness == s.smoothness && chunkSizeLimit == s.chunkSizeLimit
    {
      hsl, paletteIndex, colorSchemeOffset := s.hsl, s.paletteIndex, s.colorSchemeOffset;
      voidFillIndex, smoothness, chunkSizeLimit := s.voidFillIndex, s.smoothness, s.chunkSizeLimit;
    }

    /** `set_decimal_prec`; re-rounding `pos` and `cell_size` to the new precision is not modelled. */
    method SetDecimalPrec(p: int)
      modifies this
      ensures Model() == WithDecimalPrec(old(Model()), p)
    {
      prec := Min(Bounds.MAX_DECIMAL_PREC, Max(Bounds.MIN_DECIMAL_PREC, p));
    }

    /** `increment_max_iter`. */
    method IncrementMaxIter(increment: int)
      modifies this
      ensures Model() == WithMaxIterIncremented(old(Model()), increment)
    {
      var newMaxIter := SaturateI32(maxIter + increment);
      SetMaxIter(Max(Bounds.MIN_MAX_ITER, Min(Bounds.MAX_MAX_ITER, newMaxIter)));
    }

    /** `set_max_iter`. */
    method SetMaxIter(m: int)
      modifies this
      ensures Model() == old(Model()).(maxIter := m)
    {
      maxIter := m;
    }

    /** `select_fractal`; `shaderError` is the outcome of loading the fractal's GPU shader. */
    method SelectFractal(fracI: nat, shaderError: Option<string>) returns (res: Result<(), string>)
      modifies this
      ensures (Model(), res) == WithFractalSelected(old(Model()), fracI, shaderError)
    {
      fracIndex := fracI;
      if useGpu {
        if shaderError.Some? {
          useGpu := false;
          return Err(ShaderFailure(shaderError.value));
        }
      }
      return Ok(());
    }

    /** `reset_pos`. */
    method ResetPos()
      requires fracIndex < |Fractals.FRACTALS|
      modifies this
      ensures Model() == WithPosReset(old(Model()))
    {
      pos := Fractals.FRACTALS[fracIndex].defaultPos;
    }

    /** `reset_cell_size`. */
    method ResetCellSize()
      requires canvasSize.x != 0
      modifies this
      ensures Model() == WithCellSizeReset(old(Model()))
    {
      cellSize := INITIAL_CANVAS_WIDTH as real / canvasSize.x as real;
    }
  }
}
