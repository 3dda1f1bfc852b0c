// The `capture_fit` command (src/commands/capture_fit.rs): it turns a width
// or a height into a screenshot size with the canvas's aspect ratio, and
// passes the size, and the optional file name, on to `capture`.
module CaptureFit {
  import opened Base
  import opened Vec2s

  const DEFAULT_WIDTH: int := 1920

  const DIMENSION_ERROR: string := "The first argument must be <acc width> or <acc height>."
  const SIZE_ERROR: string :=
    "Could not parse the specified size (second argument), make sure it is a valid integer."

  /** The integer part of `x`, rounded toward zero as a cast from a float does. */
  function Truncate(x: real): (r: int)
    ensures x >= 0.0 ==> r as real <= x < r as real + 1.0
    ensures x < 0.0 ==> r as real - 1.0 < x <= r as real
  {
    if x >= 0.0 then x.Floor else -((-x).Floor)
  }

  /**
   * `(num as f32 / den as f32 * v as f32) as i32`, with exact arithmetic: the
   * cast saturates, a zero denominator gives an infinity (or NaN, which casts
   * to 0) whose sign follows the operands.
   */
  function ScaledCast(num: int, den: int, v: int): (r: int)
    ensures InI32(r)
  {
    if den == 0 then
      if num == 0 || v == 0 then 0
      else if (num > 0) == (v > 0) then I32_MAX
      else I32_MIN
    else SaturateI32(Truncate(num as real / den as real * v as real))
  }

  /** `width_from_height`: the width that keeps the canvas's aspect ratio. */
  function WidthFromHeight(canvas: Vec2<int>, height: int): int
  {
    ScaledCast(canvas.x, canvas.y, height)
  }

  /** `height_from_width`: the height that keeps the canvas's aspect ratio. */
  function HeightFromWidth(canvas: Vec2<int>, width: int): int
  {
    ScaledCast(canvas.y, canvas.x, width)
  }

  /** The two sides a size can be given for. */
  datatype Side = Height | Width

  /** The first of "height" and "width" that `query`, lowercased, is a prefix of. */
  function Dimension(query: string): Option<Side>
  {
    var q := Lower(query);
    if StartsWith("height", q) then Some(Height)
    else if StartsWith("width", q) then Some(Width)
    else None
  }

  /**
   * The arguments `capture_fit args` passes to `capture` (width, height and
   * the file name if there is one), or the error it returns before.
   */
  function CaptureFitArgs(canvas: Vec2<int>, args: seq<string>): Result<seq<string>, string>
  {
    var name := if |args| == 1 || |args| == 3 then [args[|args| - 1]] else [];
    if |args| == 2 || |args| == 3 then
      match Dimension(args[0])
      case None => Err(DIMENSION_ERROR)
      case Some(d) =>
        match ParseInt(args[1], I32)
        case None => Err(SIZE_ERROR)
        case Some(size) =>
          if d == Height then Ok([IntToString(WidthFromHeight(canvas, size)), IntToString(size)] + name)
          else Ok([IntToString(size), IntToString(HeightFromWidth(canvas, size))] + name)
    else Ok([IntToString(DEFAULT_WIDTH), IntToString(HeightFromWidth(canvas, DEFAULT_WIDTH))] + name)
  }

  /**
   * Without a size the capture is 1920 wide; one or three arguments end in
   * the file name; a first argument that prefixes neither dimension, or a
   * size that is not an `i32`, is refused, and otherwise the given dimension
   * is the parsed size and the other one is derived from it.
   */
  lemma CaptureFitOutcome(canvas: Vec2<int>, args: seq<string>)
    ensures var r := CaptureFitArgs(canvas, args);
      && (|args| < 2 || |args| > 3 ==>
            r.Ok? && r.value[..2] == [IntToString(DEFAULT_WIDTH), IntToString(HeightFromWidth(canvas, DEFAULT_WIDTH))])
      && (r.Ok? ==> |r.value| == 2 + (if |args| == 1 || |args| == 3 then 1 else 0))
      && (r.Ok? && (|args| == 1 || |args| == 3) ==> r.value[2] == args[|args| - 1])
      && (2 <= |args| <= 3 ==>
            && (Dimension(args[0]).None? ==> r == Err(DIMENSION_ERROR))
            && (Dimension(args[0]).Some? && ParseInt(args[1], I32).None? ==> r == Err(SIZE_ERROR))
            && (Dimension(args[0]) == Some(Height) && ParseInt(args[1], I32).Some? ==>
                  var size := ParseInt(args[1], I32).value;
                  r.Ok? && r.value[..2] == [IntToString(WidthFromHeight(canvas, size)), IntToString(size)])
            && (Dimension(args[0]) == Some(Width) && ParseInt(args[1], I32).Some? ==>
                  var size := ParseInt(args[1], I32).value;
                  r.Ok? && r.value[..2] == [IntToString(size), IntToString(HeightFromWidth(canvas, size))]))
  {
  }

  /**
   * A first argument picks "height" exactly when, lowercased, it prefixes
   * "height" (so the empty string and "h" do), and "width" when it prefixes
   * "width" only.
   */
  lemma DimensionChoice(query: string)
    ensures Dimension(query) == Some(Height) <==> StartsWith("height", Lower(query))
    ensures Dimension(query) == Some(Width) <==> !StartsWith("height", Lower(query)) && StartsWith("width", Lower(query))
    ensures Dimension("") == Some(Height) && Dimension("W") == Some(Width) && Dimension("HEI") == Some(Height)
    ensures Dimension("wide").None?
  {
    assert Lower("W") == "w";
    assert Lower("HEI") == "hei";
    assert Lower("wide") == "wide";
    assert !StartsWith("height", "wide") by { assert "height"[..4][0] != "wide"[0]; }
    assert !StartsWith("width", "wide") by { assert "width"[..4][3] != "wide"[3]; }
  }

  /**
   * On a canvas with positive sides the derived side keeps the aspect ratio
   * up to the truncation: it lies within one pixel below the exact value.
   */
  lemma DerivedSideKeepsRatio(canvas: Vec2<int>, side: int)
    requires canvas.x > 0 && canvas.y > 0 && side >= 0
    requires canvas.y as real / canvas.x as real * side as real <= I32_MAX as real
    requires canvas.x as real / canvas.y as real * side as real <= I32_MAX as real
    ensures var h := HeightFromWidth(canvas, side) as real;
      h <= canvas.y as real / canvas.x as real * side as real < h + 1.0
    ensures var w := WidthFromHeight(canvas, side) as real;
      w <= canvas.x as real / canvas.y as real * side as real < w + 1.0
  {
    var exactH := canvas.y as real / canvas.x as real * side as real;
    var exactW := canvas.x as real / canvas.y as real * side as real;
    assert exactH >= 0.0 && exactW >= 0.0;
    assert Truncate(exactH) >= 0 && Truncate(exactW) >= 0;
  }

  /** On a square canvas both sides are equal, and the default capture is 1920 by 1920. */
  lemma SquareCanvas(canvas: Vec2<int>, side: int)
    requires canvas.x == canvas.y != 0 && InI32(side)
    ensures HeightFromWidth(canvas, side) == side && WidthFromHeight(canvas, side) == side
    ensures CaptureFitArgs(canvas, []) == Ok([IntToString(DEFAULT_WIDTH), IntToString(DEFAULT_WIDTH)])
  {
    var a := canvas.x as real;
    assert a / a == 1.0;
    assert HeightFromWidth(canvas, side) == SaturateI32(Truncate(side as real));
    assert Truncate(side as real) == side;
    assert HeightFromWidth(canvas, DEFAULT_WIDTH) == SaturateI32(Truncate(DEFAULT_WIDTH as real));
    assert Truncate(DEFAULT_WIDTH as real) == DEFAULT_WIDTH;
    assert CaptureFitArgs(canvas, []).value == [IntToString(DEFAULT_WIDTH), IntToString(DEFAULT_WIDTH)];
  }

  /** "width", in that case, names the width, and "Height" the height. */
  lemma DimensionNames()
    ensures Dimension("width") == Some(Width) && Dimension("Height") == Some(Height)
  {
    assert Lower("width") == "width";
    assert !StartsWith("height", "width") by { assert "height"[..5][0] != "width"[0]; }
    assert Lower("Height") == "height";
  }

  /** Asking for a width by name and its decimal form captures exactly that width. */
  lemma WidthRoundTrip(canvas: Vec2<int>, width: int)
    requires InI32(width)
    ensures CaptureFitArgs(canvas, ["width", IntToString(width)]) ==
      Ok([IntToString(width), IntToString(HeightFromWidth(canvas, width))])
  {
    ParseIntToString(width, I32);
    DimensionNames();
    var args := ["width", IntToString(width)];
    assert Dimension(args[0]) == Some(Width);
    assert ParseInt(args[1], I32) == Some(width);
    assert CaptureFitArgs(canvas, args).value == [IntToString(width), IntToString(HeightFromWidth(canvas, width))];
  }

  /** Asking for a height by name and its decimal form, with a file name, captures exactly that height under that name. */
  lemma HeightRoundTrip(canvas: Vec2<int>, height: int, name: string)
    requires InI32(height)
    ensures CaptureFitArgs(canvas, ["Height", IntToString(height), name]) ==
      Ok([IntToString(WidthFromHeight(canvas, height)), IntToString(height), name])
  {
    ParseIntToString(height, I32);
    DimensionNames();
    var args := ["Height", IntToString(height), name];
    assert Dimension(args[0]) == Some(Height);
    assert ParseInt(args[1], I32) == Some(height);
    assert CaptureFitArgs(canvas, args).value == [IntToString(WidthFromHeight(canvas, height)), IntToString(height), name];
  }

  /** The argument handling of `execute_capture_fit`, step by step. */
  method ExecuteCaptureFit(canvas: Vec2<int>, args: seq<string>) returns (r: Result<seq<string>, string>)
    ensures r == CaptureFitArgs(canvas, args)
  {
    var width := DEFAULT_WIDTH;
    var height := HeightFromWidth(canvas, width);
    var name: Option<string> := None;
    if |args| == 1 || |args| == 3 {
      name := Some(args[|args| - 1]);
    }
    if |args| == 2 || |args| == 3 {
      var dimension := Dimension(args[0]);
      if dimension.None? {
        return Err(DIMENSION_ERROR);
      }
      var parsed := ParseInt(args[1], I32);
      if parsed.None? {
        return Err(SIZE_ERROR);
      }
      if dimension.value == Height {
        height := parsed.value;
        width := WidthFromHeight(canvas, parsed.value);
      } else {
        width := parsed.value;
        height := HeightFromWidth(canvas, parsed.value);
      }
    }
    var captureArgs := [IntToString(width), IntToString(height)];
    if name.Some? {
      captureArgs := captureArgs + [name.value];
    }
    ghost var suffix: seq<string> := if |args| == 1 || |args| == 3 then [args[|args| - 1]] else [];
    assert captureArgs == [IntToString(width), IntToString(height)] + suffix;
    assert CaptureFitArgs(canvas, args).value == [IntToString(width), IntToString(height)] + suffix;
    return Ok(captureArgs);
  }
}
