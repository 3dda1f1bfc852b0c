// Zooming the view (src/helpers/zoom_direction.rs and the `zoom` / `zoom_at`
// methods of every revision): the cell size is divided or multiplied by a
// factor, and `zoom_at` moves the position so that the point under the
// cursor keeps its complex coordinate.
module Zooming {
  import opened Base
  import opened Vec2s

  datatype ZoomDirection = In | Out

  /** `cell_size /= factor` for `In`, `cell_size *= factor` for `Out`. */
  function ZoomedCellSize(cell: real, d: ZoomDirection, factor: real): real
    requires factor > 0.0
  {
    match d
    case In => cell / factor
    case Out => cell * factor
  }

  /** Zooming in then out (or out then in) by the same factor restores the cell size. */
  lemma ZoomInverses(cell: real, factor: real)
    requires factor > 0.0
    ensures ZoomedCellSize(ZoomedCellSize(cell, In, factor), Out, factor) == cell
    ensures ZoomedCellSize(ZoomedCellSize(cell, Out, factor), In, factor) == cell
  {
  }

  /** Zooming in makes positive cells smaller, zooming out larger, when the factor exceeds 1. */
  lemma ZoomMonotone(cell: real, factor: real)
    requires factor > 1.0 && cell > 0.0
    ensures 0.0 < ZoomedCellSize(cell, In, factor) < cell < ZoomedCellSize(cell, Out, factor)
  {
    var small := cell / factor;
    assert small * factor == cell;
    assert small > 0.0;
    assert small * factor - small == small * (factor - 1.0) > 0.0;
    assert cell * factor - cell == cell * (factor - 1.0) > 0.0;
  }

  /** The complex point of canvas point `coords`: `pos + (x·cell, y·cell)`. */
  function CanvasPoint(pos: Complex, cell: real, coords: Vec2<int>): Complex
  {
    Complex(coords.x as real * cell, coords.y as real * cell).Plus(pos)
  }

  /** The position `zoom_at` computes: `pos + (initial - new)` for the pivot `coords`. */
  function PivotedPos(pos: Complex, cell: real, newCell: real, coords: Vec2<int>): Complex
  {
    pos.Plus(CanvasPoint(pos, cell, coords).Minus(CanvasPoint(pos, newCell, coords)))
  }

  /** The pivot keeps its complex coordinate across the zoom. */
  lemma PivotStaysFixed(pos: Complex, cell: real, newCell: real, coords: Vec2<int>)
    ensures CanvasPoint(PivotedPos(pos, cell, newCell, coords), newCell, coords) == CanvasPoint(pos, cell, coords)
  {
  }

  /** Zooming at the canvas origin leaves the position where it is. */
  lemma PivotAtOriginKeepsPos(pos: Complex, cell: real, newCell: real)
    ensures PivotedPos(pos, cell, newCell, Vec2(0, 0)) == pos
  {
  }
}
