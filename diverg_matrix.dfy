// The divergence matrix of a render (src/app/render_canvas.rs): its shape,
// the cells in scan order, and the figures `render_canvas` gathers from them
// (highest value, non-void count and sum, and the colour buckets of points).
module DivergMatrices {
  import opened Base
  import opened Vec2s

  /** One row of divergence values per canvas line, top line first. */
  type Matrix = seq<seq<int>>

  /** The integer range `lo..hi` (empty when `hi <= lo`). */
  function Range(lo: int, hi: int): (r: seq<int>)
    ensures |r| == if hi > lo then hi - lo else 0
    ensures forall i :: 0 <= i < |r| ==> r[i] == lo + i
  {
    if hi <= lo then [] else seq(hi - lo, i requires 0 <= i < hi - lo => lo + i)
  }

  /** The canvas coordinates along one axis of length `n`: `-half..half + mod`. */
  function Axis(n: int): seq<int>
  {
    Range(-RustDiv(n, 2), RustDiv(n, 2) + RustRem(n, 2))
  }

  /** An axis has `n` coordinates (none for a non-positive `n`) and starts at `-(n / 2)`. */
  lemma AxisShape(n: int)
    ensures |Axis(n)| == if n > 0 then n else 0
    ensures forall i :: 0 <= i < |Axis(n)| ==> Axis(n)[i] == i - RustDiv(n, 2)
  {
    var half, rem := RustDiv(n, 2), RustRem(n, 2);
    assert half * 2 + rem == n;
    if n < 0 {
      assert -2 < rem <= 0;
    }
  }

  /**
   * `get_diverg_matrix(size)`: one row per coordinate of the vertical axis,
   * one entry per coordinate of the horizontal one, each entry the value of
   * `at` at that canvas point (rows and entries are computed in parallel in
   * the program; order is kept by `collect`).
   */
  function DivergMatrix(size: Vec2<int>, at: Vec2<int> -> int): (m: Matrix)
    ensures |m| == if size.y > 0 then size.y else 0
    ensures forall r :: 0 <= r < |m| ==> |m[r]| == if size.x > 0 then size.x else 0
    ensures forall r, c :: 0 <= r < |m| && 0 <= c < |m[r]| ==>
      m[r][c] == at(Vec2(c - RustDiv(size.x, 2), r - RustDiv(size.y, 2)))
  {
    AxisShape(size.x);
    AxisShape(size.y);
    var ys, xs := Axis(size.y), Axis(size.x);
    seq(|ys|, r requires 0 <= r < |ys| => seq(|xs|, c requires 0 <= c < |xs| => at(Vec2(xs[c], ys[r]))))
  }

  /** A visited matrix entry: its column, its row and its value. */
  datatype Cell = Cell(x: int, y: int, diverg: int)

  /** The entries of row `y`, left to right. */
  function RowCells(row: seq<int>, y: int): (cs: seq<Cell>)
    ensures |cs| == |row|
    ensures forall i :: 0 <= i < |row| ==> cs[i] == Cell(i, y, row[i])
  {
    seq(|row|, i requires 0 <= i < |row| => Cell(i, y, row[i]))
  }

  /** Every entry of `m` in the order the render loop visits them. */
  function Cells(m: Matrix): seq<Cell>
  {
    if |m| == 0 then [] else Cells(m[..|m| - 1]) + RowCells(m[|m| - 1], |m| - 1)
  }

  /** The cells of a matrix are exactly its entries, each at its own position. */
  lemma {:induction false} CellsAreEntries(m: Matrix, c: Cell)
    ensures c in Cells(m) <==> 0 <= c.y < |m| && 0 <= c.x < |m[c.y]| && m[c.y][c.x] == c.diverg
  {
    if |m| > 0 {
      var init := m[..|m| - 1];
      CellsAreEntries(init, c);
      assert c in Cells(m) <==> c in Cells(init) || c in RowCells(m[|m| - 1], |m| - 1);
    }
  }

  /** `non_void_points`: the number of cells whose value is not -1. */
  function CountNonVoid(cs: seq<Cell>): nat
  {
    if |cs| == 0 then 0
    else CountNonVoid(cs[..|cs| - 1]) + (if cs[|cs| - 1].diverg != -1 then 1 else 0)
  }

  /** The sum that `avg_diverg` accumulates before its division. */
  function SumNonVoid(cs: seq<Cell>): int
  {
    if |cs| == 0 then 0
    else SumNonVoid(cs[..|cs| - 1]) + (if cs[|cs| - 1].diverg != -1 then cs[|cs| - 1].diverg else 0)
  }

  /** `highest_diverg`: starts at 0 and is raised to every larger value. */
  function Highest(cs: seq<Cell>): int
  {
    if |cs| == 0 then 0
    else if cs[|cs| - 1].diverg > Highest(cs[..|cs| - 1]) then cs[|cs| - 1].diverg
    else Highest(cs[..|cs| - 1])
  }

  /** The non-void count is the number of cells other than -1, at most all cells. */
  lemma {:induction false} CountNonVoidBounds(cs: seq<Cell>)
    ensures CountNonVoid(cs) <= |cs|
    ensures CountNonVoid(cs) == 0 <==> forall i :: 0 <= i < |cs| ==> cs[i].diverg == -1
    ensures CountNonVoid(cs) == |cs| <==> forall i :: 0 <= i < |cs| ==> cs[i].diverg != -1
  {
    if |cs| > 0 {
      var init := cs[..|cs| - 1];
      CountNonVoidBounds(init);
      assert forall i :: 0 <= i < |init| ==> init[i] == cs[i];
    }
  }

  /** `highest_diverg` is the largest of 0 and every value, and is one of them when positive. */
  lemma {:induction false} HighestIsMaximum(cs: seq<Cell>)
    ensures Highest(cs) >= 0
    ensures forall i :: 0 <= i < |cs| ==> cs[i].diverg <= Highest(cs)
    ensures Highest(cs) == 0 || exists i :: 0 <= i < |cs| && cs[i].diverg == Highest(cs)
  {
    if |cs| > 0 {
      var init := cs[..|cs| - 1];
      HighestIsMaximum(init);
      assert forall i :: 0 <= i < |init| ==> init[i] == cs[i];
      if Highest(cs) != 0 && Highest(cs) != cs[|cs| - 1].diverg {
        var i :| 0 <= i < |init| && init[i].diverg == Highest(init);
        assert cs[i].diverg == Highest(cs);
      }
    }
  }

  /** `points`: for each colour, the positions of the cells of that colour, in visiting order. */
  function Buckets<K>(cs: seq<Cell>, key: Cell -> K): map<K, seq<(int, int)>>
  {
    if |cs| == 0 then map[]
    else
      var b := Buckets(cs[..|cs| - 1], key);
      var c := cs[|cs| - 1];
      var k := key(c);
      b[k := (if k in b then b[k] else []) + [(c.x, c.y)]]
  }

  /** The positions `points` holds for colour `k`. */
  function BucketOf<K>(b: map<K, seq<(int, int)>>, k: K): seq<(int, int)>
  {
    if k in b then b[k] else []
  }

  /** Visiting one more cell: its position joins its colour's bucket and the figures take it in. */
  lemma ScanStep<K>(done: seq<Cell>, c: Cell, key: Cell -> K)
    ensures var all := done + [c];
      && Buckets(all, key) == Buckets(done, key)[key(c) := BucketOf(Buckets(done, key), key(c)) + [(c.x, c.y)]]
      && CountNonVoid(all) == CountNonVoid(done) + (if c.diverg != -1 then 1 else 0)
      && SumNonVoid(all) == SumNonVoid(done) + (if c.diverg != -1 then c.diverg else 0)
      && Highest(all) == (if c.diverg > Highest(done) then c.diverg else Highest(done))
  {
    assert (done + [c])[..|done|] == done;
  }

  /** The entries of a row visited so far grow one cell at a time. */
  lemma RowCellsGrow(row: seq<int>, y: int, x: int)
    requires 0 <= x < |row|
    ensures RowCells(row, y)[..x + 1] == RowCells(row, y)[..x] + [Cell(x, y, row[x])]
  {
  }

  /** The rows visited so far grow by whole rows. */
  lemma CellsOfPrefix(m: Matrix, y: int)
    requires 0 <= y < |m|
    ensures Cells(m[..y + 1]) == Cells(m[..y]) + RowCells(m[y], y)
  {
    assert m[..y + 1][..y] == m[..y];
  }

  /** A position is in bucket `k` exactly when some cell at that position has colour `k`. */
  lemma {:induction false} BucketsHoldTheirCells<K>(cs: seq<Cell>, key: Cell -> K, k: K, p: (int, int))
    ensures p in BucketOf(Buckets(cs, key), k)
      <==> exists i :: 0 <= i < |cs| && (cs[i].x, cs[i].y) == p && key(cs[i]) == k
  {
    if |cs| > 0 {
      var init := cs[..|cs| - 1];
      var last := cs[|cs| - 1];
      BucketsHoldTheirCells(init, key, k, p);
      if exists i :: 0 <= i < |cs| && (cs[i].x, cs[i].y) == p && key(cs[i]) == k {
        var i :| 0 <= i < |cs| && (cs[i].x, cs[i].y) == p && key(cs[i]) == k;
        if i < |init| {
          assert init[i] == cs[i];
        }
      }
      if exists i :: 0 <= i < |init| && (init[i].x, init[i].y) == p && key(init[i]) == k {
        var i :| 0 <= i < |init| && (init[i].x, init[i].y) == p && key(init[i]) == k;
        assert cs[i] == init[i];
      }
    }
  }

  /** Every entry of the matrix is in the bucket of its own colour and in no other. */
  lemma EachCellInOneBucket<K>(m: Matrix, key: Cell -> K, r: int, c: int, k: K)
    requires 0 <= r < |m| && 0 <= c < |m[r]|
    ensures var cell := Cell(c, r, m[r][c]);
      (c, r) in BucketOf(Buckets(Cells(m), key), k) <==> k == key(cell)
  {
    var cell := Cell(c, r, m[r][c]);
    var cs := Cells(m);
    CellsAreEntries(m, cell);
    BucketsHoldTheirCells(cs, key, k, (c, r));
    if exists i :: 0 <= i < |cs| && (cs[i].x, cs[i].y) == (c, r) && key(cs[i]) == k {
      var i :| 0 <= i < |cs| && (cs[i].x, cs[i].y) == (c, r) && key(cs[i]) == k;
      assert cs[i] in cs;
      CellsAreEntries(m, cs[i]);
    } else {
      var i :| 0 <= i < |cs| && cs[i] == cell;
      assert (cs[i].x, cs[i].y) == (c, r);
    }
  }
}
