// Statistics about the last render (src/app_state/stats.rs): the `Stats`
// record and the two figures derived from the render settings.
module AppStats {
  import opened Base
  import opened Vec2s
  import opened FracLogic

  /** `Stats`; the render time is a duration in nanoseconds. */
  datatype Stats = Stats(avgDiverg: real, highestDiverg: int, renderTime: nat)

  /** `Stats::default()`: every figure is zero. */
  const DEFAULT_STATS: Stats := Stats(0.0, 0, 0)

  /** `point_count`: the number of canvas points, `canvas_size.x * canvas_size.y`. */
  function PointCount(s: Settings): (n: int)
    ensures s.canvasSize.x >= 0 && s.canvasSize.y >= 0 ==> n >= 0
    ensures s.canvasSize.x == 0 || s.canvasSize.y == 0 ==> n == 0
  {
    MultiplyNonNegativeWhen(s.canvasSize.x, s.canvasSize.y);
    s.canvasSize.x * s.canvasSize.y
  }

  lemma MultiplyNonNegativeWhen(a: int, b: int)
    ensures a >= 0 && b >= 0 ==> a * b >= 0
  {
    if a >= 0 && b >= 0 {
      MultiplyNonNegative(a, b);
    }
  }

  /** `get_zoom`: how many times smaller the cells are than right after a reset. */
  function GetZoom(s: Settings): real
    requires s.canvasSize.x != 0 && s.cellSize != 0.0
  {
    DefaultCellSize(s) / s.cellSize
  }

  /** Right after `reset_cell_size` the zoom is 1. */
  lemma ZoomAfterResetIsOne(s: Settings)
    requires s.canvasSize.x != 0
    ensures WithCellSizeReset(s).cellSize != 0.0
    ensures GetZoom(WithCellSizeReset(s)) == 1.0
  {
    var d := DefaultCellSize(s);
    assert d != 0.0;
  }

  /** Dividing the cell size by `f` multiplies the zoom by `f`. */
  lemma ZoomScalesInversely(s: Settings, f: real)
    requires s.canvasSize.x != 0 && s.cellSize != 0.0 && f != 0.0
    ensures GetZoom(s.(cellSize := s.cellSize / f)) == f * GetZoom(s)
  {
    var d := DefaultCellSize(s);
    assert d / (s.cellSize / f) == f * (d / s.cellSize);
  }
}
