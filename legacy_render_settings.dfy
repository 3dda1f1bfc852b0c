// The older render settings of the application (src/app/render_settings.rs):
// position, cell size and canvas size, precision, iteration limit and the
// selected fractal, with the exact-name fractal lookup and a canvas that is 4
// wide after a cell-size reset.
module LegacyRender {
  import opened Base
  import opened Vec2s
  import Fractals
  import FracLogic

  const DEFAULT_PREC: int := 32
  const DEFAULT_MAX_ITER: int := 32

  /** The fields of the older `RenderSettings`. */
  datatype LegacySettings = LegacySettings(
    cellSize: real,
    pos: Complex,
    canvasSize: Vec2<int>,
    prec: int,
    maxIter: int,
    fracIndex: nat)

  /** `RenderSettings::default()`: an empty canvas, a zero cell and the first fractal's position. */
  const DEFAULT_LEGACY_SETTINGS: LegacySettings :=
    LegacySettings(0.0, Fractals.FRACTALS[0].defaultPos, Vec2(0, 0), DEFAULT_PREC, DEFAULT_MAX_ITER, 0)

  lemma DefaultLegacySettings()
    ensures DEFAULT_LEGACY_SETTINGS.prec == 32 && DEFAULT_LEGACY_SETTINGS.maxIter == 32
    ensures DEFAULT_LEGACY_SETTINGS.fracIndex == 0
    ensures DEFAULT_LEGACY_SETTINGS.pos == Complex(-0.5, 0.0)
    ensures Fractals.FRACTALS[DEFAULT_LEGACY_SETTINGS.fracIndex].name == "Mandelbrot"
  {
  }

  /** `point_count`: `canvas_size.x * canvas_size.y`. */
  function PointCount(s: LegacySettings): (n: int)
    ensures s.canvasSize.x == 0 || s.canvasSize.y == 0 ==> n == 0
    ensures s.canvasSize.x > 0 && s.canvasSize.y > 0 ==> n >= s.canvasSize.x && n >= s.canvasSize.y
  {
    var n := s.canvasSize.x * s.canvasSize.y;
    if s.canvasSize.x > 0 && s.canvasSize.y > 0 then
      MultiplyAtLeast(s.canvasSize.x, s.canvasSize.y);
      MultiplyAtLeast(s.canvasSize.y, s.canvasSize.x);
      n
    else
      n
  }

  /** `get_default_pos`: the selected fractal's default position. */
  function DefaultPos(s: LegacySettings): Complex
    requires s.fracIndex < |Fractals.FRACTALS|
  {
    Fractals.FRACTALS[s.fracIndex].defaultPos
  }

  /** `get_default_cell_size`: the cell size that makes the canvas 4 wide. */
  function DefaultCellSize(s: LegacySettings): real
    requires s.canvasSize.x != 0
  {
    4.0 / s.canvasSize.x as real
  }

  /** `get_plane_wid`. */
  function PlaneWid(s: LegacySettings): real
  {
    s.canvasSize.x as real * s.cellSize
  }

  /** `get_zoom`. */
  function GetZoom(s: LegacySettings): real
    requires s.canvasSize.x != 0 && s.cellSize != 0.0
  {
    DefaultCellSize(s) / s.cellSize
  }

  /** After `reset_cell_size` the zoom is 1 and the canvas is 4 wide. */
  lemma ResetCellSizeGivesWidthFour(s: LegacySettings)
    requires s.canvasSize.x != 0
    ensures var r := s.(cellSize := DefaultCellSize(s));
      r.cellSize != 0.0 && GetZoom(r) == 1.0 && PlaneWid(r) == 4.0
  {
    var w := s.canvasSize.x as real;
    assert w * (4.0 / w) == 4.0;
  }

  /** `get_frac_index_by_name`: the first fractal whose name equals the query, ignoring case. */
  function GetFracIndexByName(name: string): (r: Option<nat>)
    ensures r.Some? ==> r.value < |Fractals.FRACTALS| && Lower(Fractals.FRACTALS[r.value].name) == Lower(name)
    ensures r.Some? ==> forall j :: 0 <= j < r.value ==> Lower(Fractals.FRACTALS[j].name) != Lower(name)
    ensures r.None? <==> forall j :: 0 <= j < |Fractals.FRACTALS| ==> Lower(Fractals.FRACTALS[j].name) != Lower(name)
  {
    FindFirst(Fractals.FRACTALS, (f: Fractals.Fractal) => Lower(f.name) == Lower(name))
  }

  /** Each fractal is found by its own name, whatever its case; a bare prefix is not enough. */
  lemma ExactLookups()
    ensures GetFracIndexByName("mandelbrot") == Some(0)
    ensures GetFracIndexByName("BurningShip") == Some(1)
    ensures GetFracIndexByName("JULIA") == Some(2)
    ensures GetFracIndexByName("jul") == None
  {
    Fractals.FractalsTable();
    assert Lower("mandelbrot") == Lower(Fractals.FRACTALS[0].name);
    assert Lower("BurningShip") != Lower(Fractals.FRACTALS[0].name) by {
      assert Lower("BurningShip")[0] == 'b' && Lower(Fractals.FRACTALS[0].name)[0] == 'm';
    }
    assert Lower("BurningShip") == Lower(Fractals.FRACTALS[1].name);
    assert Lower("JULIA") != Lower(Fractals.FRACTALS[0].name) by {
      assert Lower("JULIA")[0] == 'j' && Lower(Fractals.FRACTALS[0].name)[0] == 'm';
    }
    assert Lower("JULIA") != Lower(Fractals.FRACTALS[1].name) by {
      assert Lower("JULIA")[0] == 'j' && Lower(Fractals.FRACTALS[1].name)[0] == 'b';
    }
    assert Lower("JULIA") == Lower(Fractals.FRACTALS[2].name);
    assert |Lower("jul")| == 3;
    assert |Lower(Fractals.FRACTALS[0].name)| != 3;
    assert |Lower(Fractals.FRACTALS[1].name)| != 3;
    assert |Lower(Fractals.FRACTALS[2].name)| != 3;
  }

  /** `ratatui_to_canvas_coords`, the same `i32` formula as the newer revision. */
  function RatatuiToCanvasCoords(s: LegacySettings, x: int, y: int): Vec2<int>
  {
    Vec2(x - 1 - RustDiv(s.canvasSize.x, 2), y * -2 + 1 + RustDiv(s.canvasSize.y, 2))
  }

  /** Both revisions convert terminal cells identically for the same canvas size. */
  lemma RatatuiAgreesWithNewer(s: LegacySettings, t: FracLogic.Settings, x: int, y: int)
    requires s.canvasSize == t.canvasSize
    ensures RatatuiToCanvasCoords(s, x, y) == FracLogic.RatatuiToCanvasCoords(t, x, y)
  {
  }

  /** The older `RenderSettings`, whose reset methods assign its fields. */
  class LegacyRenderSettings {
    var cellSize: real
    var pos: Complex
    var canvasSize: Vec2<int>
    var prec: int
    var maxIter: int
    var fracIndex: nat

    function Model(): LegacySettings
      reads this
    {
      LegacySettings(cellSize, pos, canvasSize, prec, maxIter, fracIndex)
    }

    /** `RenderSettings::default()`. */
    constructor ()
      ensures Model() == DEFAULT_LEGACY_SETTINGS
    {
      cellSize := 0.0;
      pos := Fractals.FRACTALS[0].defaultPos;
      canvasSize := Vec2(0, 0);
      prec := DEFAULT_PREC;
      maxIter := DEFAULT_MAX_ITER;
      fracIndex := 0;
    }

    /** `reset_pos`. */
    method ResetPos()
      requires fracIndex < |Fractals.FRACTALS|
      modifies this
      ensures Model() == old(Model()).(pos := DefaultPos(old(Model())))
    {
      pos := Fractals.FRACTALS[fracIndex].defaultPos;
    }

    /** `reset_cell_size`. */
    method ResetCellSize()
      requires canvasSize.x != 0
      modifies this
      ensures Model() == old(Model()).(cellSize := DefaultCellSize(old(Model())))
    {
      cellSize := 4.0 / canvasSize.x as real;
    }
  }
}
