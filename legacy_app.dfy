// The older `App` of the program (src/app/fractal_logic.rs,
// src/app/render_canvas.rs and src/app/logging.rs): the view is zoomed by a
// fixed factor, the canvas is rendered into colour buckets with statistics,
// and the log grows without bound.
module LegacyApp {
  import opened Base
  import opened Vec2s
  import opened Palettes
  import opened VoidFills
  import opened Zooming
  import opened DivergMatrices
  import AppStats
  import FracLogic
  import Fractals
  import EscapeTime
  import Logging
  import LegacyRender

  /** The fixed zoom factor of this revision. */
  const ZOOM_FACTOR: real := 1.2

  /**
   * `ratatui_to_canvas_coords(app, x, y)`: terminal cell to canvas point,
   * relative to the inner origin of the canvas block, with `i32` division.
   */
  function TerminalToCanvas(inner: Vec2<int>, size: Vec2<int>, x: int, y: int): Vec2<int>
  {
    Vec2(x - inner.x - RustDiv(size.x, 2), y * -2 + inner.y + RustDiv(size.y, 2))
  }

  /** With the canvas block at the top left its inner origin is (1, 1): the render-settings formula. */
  lemma TerminalToCanvasAtInnerOne(s: LegacyRender.LegacySettings, x: int, y: int)
    ensures TerminalToCanvas(Vec2(1, 1), s.canvasSize, x, y) == LegacyRender.RatatuiToCanvasCoords(s, x, y)
  {
  }

  /** Moving the canvas block moves every canvas point the opposite way, rows counting twice. */
  lemma TerminalToCanvasShift(inner: Vec2<int>, size: Vec2<int>, x: int, y: int, dx: int, dy: int)
    ensures TerminalToCanvas(Vec2(inner.x + dx, inner.y + dy), size, x + dx, y).x == TerminalToCanvas(inner, size, x, y).x
    ensures TerminalToCanvas(inner, size, x, y + dy).y == TerminalToCanvas(inner, size, x, y).y - 2 * dy
  {
  }

  /**
   * The older `color_from_div`: void points take the void fill, and the
   * colour-scheme fill and every other value take `palette_color(diverg +
   * offset)`. The random draws of the noise fills are `noise`; the `i32`
   * sum wraps as in an optimised build.
   */
  function LegacyColorFromDiv(pal: Palette, offset: int, fill: VoidFill, diverg: int, noise: (Byte, Byte, Byte)): Color
    requires |pal.colors| > 0 && FracLogic.NoiseInRange(noise)
  {
    if diverg == -1 then
      match fill
      case Transparent => Reset
      case Black => Rgb(0, 0, 0)
      case White => Rgb(255, 255, 255)
      case ColorScheme => PaletteColor(WrapI32(diverg + offset), pal)
      case RgbNoise => Rgb(noise.0, noise.1, noise.2)
      case RedNoise => Rgb(noise.0, 0, 0)
      case GreenNoise => Rgb(0, noise.1, 0)
      case BlueNoise => Rgb(0, 0, noise.2)
    else
      PaletteColor(WrapI32(diverg + offset), pal)
  }

  /** A value other than -1 takes the palette colour of `diverg + offset`, whatever the fill. */
  lemma LegacyValueColour(pal: Palette, offset: int, fill: VoidFill, diverg: int, noise: (Byte, Byte, Byte))
    requires |pal.colors| > 0 && diverg != -1 && InI32(diverg + offset) && FracLogic.NoiseInRange(noise)
    ensures LegacyColorFromDiv(pal, offset, fill, diverg, noise) == PaletteColor(diverg + offset, pal)
    ensures LegacyColorFromDiv(pal, offset, fill, diverg, noise) in pal.colors
    ensures diverg + offset >= 0 ==>
      LegacyColorFromDiv(pal, offset, fill, diverg, noise) == pal.colors[(diverg + offset) % |pal.colors|]
  {
  }

  /**
   * The void fills: Transparent is the only one giving `Reset`; black and
   * white; and the colour scheme gives the colour of the value before 0,
   * `palette_color(offset - 1)`, where the newer revision uses the colour of 0.
   */
  lemma LegacyVoidColours(pal: Palette, offset: int, fill: VoidFill, noise: (Byte, Byte, Byte))
    requires WellFormed(pal) && InI32(offset - 1) && FracLogic.NoiseInRange(noise)
    ensures var c := LegacyColorFromDiv(pal, offset, fill, -1, noise);
      && (c == Reset <==> fill == Transparent)
      && (fill == Black ==> c == Rgb(0, 0, 0))
      && (fill == White ==> c == Rgb(255, 255, 255))
      && (fill == ColorScheme ==> c == PaletteColor(offset - 1, pal))
  {
    if fill == ColorScheme {
      var c := PaletteColor(offset - 1, pal);
      assert c in pal.colors;
      var i :| 0 <= i < |pal.colors| && pal.colors[i] == c;
      assert c.Rgb?;
    }
  }

  /** Every draw of the noise fills lies in `0..255`, whatever the position. */
  ghost predicate NoiseFieldInRange(noise: (int, int) -> (Byte, Byte, Byte))
  {
    forall x, y :: FracLogic.NoiseInRange(noise(x, y))
  }

  /** The colour of a visited cell; the noise of each cell is drawn at its position. */
  function CellColour(pal: Palette, offset: int, fill: VoidFill, noise: (int, int) -> (Byte, Byte, Byte)): Cell -> Color
    requires |pal.colors| > 0 && NoiseFieldInRange(noise)
  {
    (c: Cell) => LegacyColorFromDiv(pal, offset, fill, c.diverg, noise(c.x, c.y))
  }

  /** The colour of each cell for the palette, offset and void fill selected by index. */
  function ColourKey(paletteIndex: nat, offset: int, voidFillIndex: nat, noise: (int, int) -> (Byte, Byte, Byte)): Cell -> Color
    requires paletteIndex < |COLORS| && voidFillIndex < |AllVoidFills()| && NoiseFieldInRange(noise)
  {
    PaletteWellFormed(paletteIndex);
    CellColour(COLORS[paletteIndex], offset, AllVoidFills()[voidFillIndex], noise)
  }

  /** The statistics of a render over the cells `cs` that took `elapsed` nanoseconds. */
  function RenderStats(cs: seq<Cell>, elapsed: nat): AppStats.Stats
  {
    AppStats.Stats(Average(SumNonVoid(cs) as real, CountNonVoid(cs)), Highest(cs), elapsed)
  }

  /** `avg_diverg /= non_void_points`; with no non-void point the model keeps the sum, 0. */
  function Average(sum: real, n: nat): real
  {
    if n > 0 then sum / n as real else sum
  }

  /**
   * After a render, `highest_diverg` is the largest of 0 and every value,
   * and `avg_diverg` times the number of non-void cells is their sum.
   */
  lemma RenderStatsMeaning(cs: seq<Cell>, elapsed: nat)
    ensures var st := RenderStats(cs, elapsed);
      && st.highestDiverg >= 0
      && (forall i :: 0 <= i < |cs| ==> cs[i].diverg <= st.highestDiverg)
      && (st.highestDiverg == 0 || exists i :: 0 <= i < |cs| && cs[i].diverg == st.highestDiverg)
      && (CountNonVoid(cs) > 0 ==> st.avgDiverg * CountNonVoid(cs) as real == SumNonVoid(cs) as real)
      && st.renderTime == elapsed
  {
    HighestIsMaximum(cs);
  }

  /** Each entry of a fractal's matrix is -1 or an iteration count below the limit. */
  lemma FractalEntriesInRange(size: Vec2<int>, pos: Complex, cell: real, kind: Fractals.FractalKind,
                              juliaConstant: Complex, maxIter: int, r: int, c: int)
    requires maxIter >= 0
    requires var m := DivergMatrix(size, (p: Vec2<int>) => Fractals.Evaluate(kind, CanvasPoint(pos, cell, p), juliaConstant, maxIter));
      0 <= r < |m| && 0 <= c < |m[r]|
    ensures var m := DivergMatrix(size, (p: Vec2<int>) => Fractals.Evaluate(kind, CanvasPoint(pos, cell, p), juliaConstant, maxIter));
      m[r][c] == -1 || 0 <= m[r][c] < maxIter
  {
    var p := Vec2(c - RustDiv(size.x, 2), r - RustDiv(size.y, 2));
    Fractals.EvaluateMeaning(kind, CanvasPoint(pos, cell, p), juliaConstant, maxIter);
  }

  /** The fields of the older `App` that the modelled methods touch. */
  datatype AppModel = AppModel(
    settings: LegacyRender.LegacySettings,
    canvasInner: Vec2<int>,
    paletteIndex: nat,
    colorSchemeOffset: int,
    voidFillIndex: nat,
    redrawCanvas: bool,
    stats: AppStats.Stats,
    points: map<Color, seq<(int, int)>>,
    logMessages: seq<string>)

  class App {
    const renderSettings: LegacyRender.LegacyRenderSettings
    var canvasInner: Vec2<int>
    var paletteIndex: nat
    var colorSchemeOffset: int
    var voidFillIndex: nat
    var redrawCanvas: bool
    var stats: AppStats.Stats
    var points: map<Color, seq<(int, int)>>
    var logMessages: seq<string>

    function Model(): AppModel
      reads this, renderSettings
    {
      AppModel(renderSettings.Model(), canvasInner, paletteIndex, colorSchemeOffset, voidFillIndex,
               redrawCanvas, stats, points, logMessages)
    }

    /** An application around the given render settings, with nothing rendered or logged yet. */
    constructor (rs: LegacyRender.LegacyRenderSettings)
      ensures renderSettings == rs
      ensures Model() == AppModel(rs.Model(), Vec2(0, 0), 0, 0, 0, true, AppStats.DEFAULT_STATS, map[], [])
    {
      renderSettings := rs;
      canvasInner := Vec2(0, 0);
      paletteIndex := 0;
      colorSchemeOffset := 0;
      voidFillIndex := 0;
      redrawCanvas := true;
      stats := AppStats.DEFAULT_STATS;
      points := map[];
      logMessages := [];
    }

    /** `coord_to_c`: `pos + (x·cell, y·cell)`. */
    function CoordToC(coords: Vec2<int>): Complex
      reads renderSettings
    {
      CanvasPoint(renderSettings.pos, renderSettings.cellSize, coords)
    }

    /** `zoom`: the cell size divided (In) or multiplied (Out) by 1.2. */
    method Zoom(d: ZoomDirection)
      modifies renderSettings
      ensures renderSettings.Model() == old(renderSettings.Model()).(cellSize := ZoomedCellSize(old(renderSettings.cellSize), d, ZOOM_FACTOR))
    {
      match d
      case In => renderSettings.cellSize := renderSettings.cellSize / ZOOM_FACTOR;
      case Out => renderSettings.cellSize := renderSettings.cellSize * ZOOM_FACTOR;
    }

    /** `zoom_at`: zooms, then moves the position so that `coords` shows the same complex point. */
    method ZoomAt(coords: Vec2<int>, d: ZoomDirection)
      modifies renderSettings
      ensures renderSettings.cellSize == ZoomedCellSize(old(renderSettings.cellSize), d, ZOOM_FACTOR)
      ensures renderSettings.Model() == old(renderSettings.Model()).(
        cellSize := renderSettings.cellSize,
        pos := PivotedPos(old(renderSettings.pos), old(renderSettings.cellSize), renderSettings.cellSize, coords))
      ensures CoordToC(coords) == old(CoordToC(coords))
    {
      var initial := CoordToC(coords);
      Zoom(d);
      var moved := CoordToC(coords);
      renderSettings.pos := renderSettings.pos.Plus(initial.Minus(moved));
    }

    /** `get_palette`. */
    function GetPalette(): (p: Palette)
      reads this
      requires paletteIndex < |COLORS|
      ensures p == COLORS[paletteIndex] && WellFormed(p)
    {
      PaletteWellFormed(paletteIndex);
      COLORS[paletteIndex]
    }

    /**
     * `get_diverg_matrix(size)`: `eval` is the selected fractal's closure
     * applied to the settings, evaluated at each canvas point with the cell
     * size that spreads the plane width over `size.x` points.
     */
    function GetDivergMatrix(size: Vec2<int>, eval: Complex -> int): Matrix
      reads renderSettings
    {
      var pos := renderSettings.pos;
      // with no column there is no entry, and the cell size is never used
      var cell := if size.x != 0 then LegacyRender.PlaneWid(renderSettings.Model()) / size.x as real else 0.0;
      DivergMatrix(size, (p: Vec2<int>) => eval(CanvasPoint(pos, cell, p)))
    }

    /**
     * `render_canvas`: every entry of the matrix is pushed into the bucket
     * of its colour, and the statistics are gathered in the same pass; the
     * render takes `elapsed` nanoseconds.
     */
    method RenderCanvas(eval: Complex -> int, noise: (int, int) -> (Byte, Byte, Byte), elapsed: nat)
      requires paletteIndex < |COLORS| && voidFillIndex < |AllVoidFills()| && NoiseFieldInRange(noise)
      modifies this
      ensures var m := old(GetDivergMatrix(renderSettings.canvasSize, eval));
        var key := ColourKey(old(paletteIndex), old(colorSchemeOffset), old(voidFillIndex), noise);
        Model() == old(Model()).(redrawCanvas := false, stats := RenderStats(Cells(m), elapsed), points := Buckets(Cells(m), key))
    {
      redrawCanvas := false;
      stats := AppStats.DEFAULT_STATS;
      points := map[];
      var m := GetDivergMatrix(renderSettings.canvasSize, eval);
      PaletteWellFormed(paletteIndex);
      var pal := GetPalette();
      var fill := AllVoidFills()[voidFillIndex];
      var nonVoid := VisitRows(m, pal, fill, noise);
      stats := stats.(avgDiverg := Average(stats.avgDiverg, nonVoid));
      stats := stats.(renderTime := elapsed);
    }

    /** `render_canvas`'s loop over the rows of the matrix, from fresh statistics and no points. */
    method VisitRows(m: Matrix, pal: Palette, fill: VoidFill, noise: (int, int) -> (Byte, Byte, Byte))
      returns (nonVoid: nat)
      requires |pal.colors| > 0 && NoiseFieldInRange(noise)
      requires points == map[] && stats == AppStats.DEFAULT_STATS
      modifies this
      ensures points == Buckets(Cells(m), CellColour(pal, colorSchemeOffset, fill, noise))
      ensures nonVoid == CountNonVoid(Cells(m))
      ensures stats == AppStats.Stats(SumNonVoid(Cells(m)) as real, Highest(Cells(m)), 0)
      ensures Model() == old(Model()).(stats := stats, points := points)
    {
      nonVoid := 0;
      var y := 0;
      var key := CellColour(pal, colorSchemeOffset, fill, noise);
      while y < |m|
        invariant 0 <= y <= |m|
        invariant points == Buckets(Cells(m[..y]), key)
        invariant nonVoid == CountNonVoid(Cells(m[..y]))
        invariant stats == AppStats.Stats(SumNonVoid(Cells(m[..y])) as real, Highest(Cells(m[..y])), 0)
        invariant Model() == old(Model()).(stats := stats, points := points)
      {
        CellsOfPrefix(m, y);
        nonVoid := VisitRow(m[y], y, pal, fill, noise, Cells(m[..y]), nonVoid);
        y := y + 1;
      }
      assert m[..|m|] == m;
    }

    /** One pass of `render_canvas`'s inner loop, over row `y` of the matrix. */
    method VisitRow(row: seq<int>, y: int, pal: Palette, fill: VoidFill,
                    noise: (int, int) -> (Byte, Byte, Byte), ghost done: seq<Cell>, nonVoid: nat)
      returns (nonVoidAfter: nat)
      requires |pal.colors| > 0 && NoiseFieldInRange(noise)
      requires points == Buckets(done, CellColour(pal, colorSchemeOffset, fill, noise)) && nonVoid == CountNonVoid(done)
      requires stats == AppStats.Stats(SumNonVoid(done) as real, Highest(done), 0)
      modifies this
      ensures points == Buckets(done + RowCells(row, y), CellColour(pal, colorSchemeOffset, fill, noise))
      ensures nonVoidAfter == CountNonVoid(done + RowCells(row, y))
      ensures stats == AppStats.Stats(SumNonVoid(done + RowCells(row, y)) as real, Highest(done + RowCells(row, y)), 0)
      ensures Model() == old(Model()).(stats := stats, points := points)
    {
      nonVoidAfter := nonVoid;
      var x := 0;
      var key := CellColour(pal, colorSchemeOffset, fill, noise);
      ghost var visited := done;
      assert RowCells(row, y)[..0] == [];
      while x < |row|
        invariant 0 <= x <= |row|
        invariant visited == done + RowCells(row, y)[..x]
        invariant points == Buckets(visited, key)
        invariant nonVoidAfter == CountNonVoid(visited)
        invariant stats == AppStats.Stats(SumNonVoid(visited) as real, Highest(visited), 0)
        invariant Model() == old(Model()).(stats := stats, points := points)
      {
        RowCellsGrow(row, y, x);
        nonVoidAfter := VisitCell(x, y, row[x], pal, fill, noise, visited, nonVoidAfter);
        visited := visited + [Cell(x, y, row[x])];
        x := x + 1;
      }
      assert RowCells(row, y)[..|row|] == RowCells(row, y);
    }

    /** The body of `render_canvas`'s inner loop: one entry pushed into its colour's bucket and counted. */
    method VisitCell(x: int, y: int, d: int, pal: Palette, fill: VoidFill,
                     noise: (int, int) -> (Byte, Byte, Byte), ghost visited: seq<Cell>, nonVoid: nat)
      returns (nonVoidAfter: nat)
      requires |pal.colors| > 0 && NoiseFieldInRange(noise)
      requires points == Buckets(visited, CellColour(pal, colorSchemeOffset, fill, noise)) && nonVoid == CountNonVoid(visited)
      requires stats == AppStats.Stats(SumNonVoid(visited) as real, Highest(visited), 0)
      modifies this
      ensures var all := visited + [Cell(x, y, d)];
        && points == Buckets(all, CellColour(pal, colorSchemeOffset, fill, noise))
        && nonVoidAfter == CountNonVoid(all)
        && stats == AppStats.Stats(SumNonVoid(all) as real, Highest(all), 0)
      ensures Model() == old(Model()).(stats := stats, points := points)
    {
      ScanStep(visited, Cell(x, y, d), CellColour(pal, colorSchemeOffset, fill, noise));
      nonVoidAfter := nonVoid;
      var color := LegacyColorFromDiv(pal, colorSchemeOffset, fill, d, noise(x, y));
      points := points[color := BucketOf(points, color) + [(x, y)]];
      if d != -1 {
        nonVoidAfter := nonVoidAfter + 1;
        stats := stats.(avgDiverg := stats.avgDiverg + d as real);
      }
      if d > stats.highestDiverg {
        stats := stats.(highestDiverg := d);
      }
    }

    /** `log_raw`: appends the message; this revision keeps every message. */
    method LogRaw(message: string)
      modifies this
      ensures Model() == old(Model()).(logMessages := Logging.LoggedUnbounded(old(logMessages), message))
    {
      logMessages := logMessages + [message];
    }

    method LogSuccessTitle(title: string, message: string)
      modifies this
      ensures Model() == old(Model()).(logMessages := old(logMessages) + [Logging.SuccessTitled(title, message)])
    {
      LogRaw(Logging.SuccessTitled(title, message));
    }

    method LogSuccess(message: string)
      modifies this
      ensures Model() == old(Model()).(logMessages := old(logMessages) + [Logging.Success(message)])
    {
      LogSuccessTitle("Success", message);
    }

    method LogInfoTitle(title: string, message: string)
      modifies this
      ensures Model() == old(Model()).(logMessages := old(logMessages) + [Logging.InfoTitled(title, message)])
    {
      LogRaw(Logging.InfoTitled(title, message));
    }

    method LogInfo(message: string)
      modifies this
      ensures Model() == old(Model()).(logMessages := old(logMessages) + [Logging.Info(message)])
    {
      LogInfoTitle("Info", message);
    }

    /** `log_error_title`: this revision wraps the message in `<red ...>`. */
    method LogErrorTitle(title: string, message: string)
      modifies this
      ensures Model() == old(Model()).(logMessages := old(logMessages) + [Logging.LegacyErrorTitled(title, message)])
    {
      LogRaw(Logging.LegacyErrorTitled(title, message));
    }

    method LogError(message: string)
      modifies this
      ensures Model() == old(Model()).(logMessages := old(logMessages) + [Logging.LegacyError(message)])
    {
      LogErrorTitle("Error", message);
    }

    /** `initial_message`: the three opening messages; `version` is the crate version. */
    method InitialMessage(version: string)
      modifies this
      ensures Model() == old(Model()).(logMessages := old(logMessages) + Logging.InitialMessages(version))
    {
      var ms := Logging.InitialMessages(version);
      LogRaw(ms[0]);
      LogRaw(ms[1]);
      LogRaw(ms[2]);
    }
  }
}
