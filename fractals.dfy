// The table of fractals and the evaluation entry point (src/fractals/mod.rs).
module Fractals {
  import opened Base
  import opened EscapeTime
  import Mandelbrot
  import Julia
  import BurningShip

  /** Which escape-time evaluator a fractal uses. */
  datatype FractalKind = MandelbrotSet | BurningShipSet | JuliaSet

  /** A fractal descriptor: its evaluator, display name, details text and default position. */
  datatype Fractal = Fractal(kind: FractalKind, name: string, details: string, defaultPos: Complex)

  /**
   * The Mandelbrot descriptor's own file is not part of this model: its name
   * is taken to be "Mandelbrot", with an empty details text and the default
   * position (-0.5, 0).
   */
  const MANDELBROT: Fractal := Fractal(MandelbrotSet, "Mandelbrot", "", Complex(-0.5, 0.0))
  const BURNING_SHIP: Fractal :=
    Fractal(BurningShipSet, BurningShip.BURNING_SHIP_NAME, BurningShip.BURNING_SHIP_DETAILS,
            BurningShip.BURNING_SHIP_DEFAULT_POS)
  const JULIA: Fractal := Fractal(JuliaSet, Julia.JULIA_NAME, Julia.JULIA_DETAILS, Julia.JULIA_DEFAULT_POS)

  const FRACTALS: seq<Fractal> := [MANDELBROT, BURNING_SHIP, JULIA]

  /** `get_frac_index_by_name`: the first fractal whose lower-cased name starts with the lower-cased query. */
  function GetFracIndexByName(name: string): (r: Option<nat>)
    ensures r.Some? ==> r.value < |FRACTALS| && StartsWith(Lower(FRACTALS[r.value].name), Lower(name))
    ensures r.Some? ==> forall j :: 0 <= j < r.value ==> !StartsWith(Lower(FRACTALS[j].name), Lower(name))
    ensures r.None? <==> forall j :: 0 <= j < |FRACTALS| ==> !StartsWith(Lower(FRACTALS[j].name), Lower(name))
  {
    FindFirst(FRACTALS, (f: Fractal) => StartsWith(Lower(f.name), Lower(name)))
  }

  /** The table holds Mandelbrot, Burning Ship and Julia, in that order, with their positions. */
  lemma FractalsTable()
    ensures |FRACTALS| == 3
    ensures FRACTALS[0].kind == MandelbrotSet && FRACTALS[1].kind == BurningShipSet && FRACTALS[2].kind == JuliaSet
    ensures FRACTALS[1].name == "BurningShip" && FRACTALS[1].defaultPos == Complex(0.5, 0.5)
    ensures FRACTALS[2].name == "Julia" && FRACTALS[2].defaultPos == Complex(0.0, 0.0)
  {
  }

  /** Every fractal is found under its own name, in any letter case. */
  lemma GetFracIndexByOwnName(k: nat, query: string)
    requires k < |FRACTALS| && Lower(query) == Lower(FRACTALS[k].name)
    ensures GetFracIndexByName(query) == Some(k)
  {
    var q := Lower(FRACTALS[k].name);
    assert q[0] == ['m', 'b', 'j'][k];
    forall j | 0 <= j < k ensures !StartsWith(Lower(FRACTALS[j].name), q) {
      assert Lower(FRACTALS[j].name)[0] != q[0];
    }
    assert StartsWith(Lower(FRACTALS[k].name), q);
  }

  /** A prefix is enough: "ju" names Julia, and the empty query names the first fractal. */
  lemma PrefixLookups()
    ensures GetFracIndexByName("ju") == Some(2)
    ensures GetFracIndexByName("") == Some(0)
    ensures GetFracIndexByName("x") == None
  {
    assert Lower("ju") == "ju";
    assert Lower(FRACTALS[2].name)[..2] == "ju";
    assert Lower(FRACTALS[0].name)[0] == 'm';
    assert Lower(FRACTALS[1].name)[0] == 'b';
    assert !StartsWith(Lower(FRACTALS[0].name), "ju");
    assert !StartsWith(Lower(FRACTALS[1].name), "ju");
    assert Lower("x") == "x";
    forall j | 0 <= j < 3 ensures !StartsWith(Lower(FRACTALS[j].name), "x") {
      assert Lower(FRACTALS[j].name)[0] != 'x';
    }
  }

  /** The recurrence a fractal iterates for the point `p`. */
  function RecurrenceOf(kind: FractalKind, p: Complex, juliaConstant: Complex): Recurrence
  {
    match kind
    case MandelbrotSet => Mandelbrot.MandelbrotRecurrence(p)
    case BurningShipSet => BurningShip.ShipRecurrence(p)
    case JuliaSet => Julia.JuliaRecurrence(p, juliaConstant)
  }

  /** The value `(fractal.get)(p, settings)` returns. */
  function Evaluate(kind: FractalKind, p: Complex, juliaConstant: Complex, maxIter: int): int
  {
    EscapeValue(RecurrenceOf(kind, p, juliaConstant), maxIter)
  }

  /**
   * Whatever the fractal, the value is -1 (limit reached) or an iteration
   * count below the limit at which the orbit has left the escape radius.
   */
  lemma EvaluateMeaning(kind: FractalKind, p: Complex, juliaConstant: Complex, maxIter: int)
    requires maxIter >= 0
    ensures var n := Evaluate(kind, p, juliaConstant, maxIter);
      var r := RecurrenceOf(kind, p, juliaConstant);
      n == -1 || (0 <= n < maxIter && Term(r, n).Norm2() >= r.bound2)
  {
    EscapeValueMeaning(RecurrenceOf(kind, p, juliaConstant), maxIter);
  }

  /** Calls the fractal's evaluator. */
  method Get(kind: FractalKind, p: Complex, juliaConstant: Complex, maxIter: int) returns (n: int)
    ensures n == Evaluate(kind, p, juliaConstant, maxIter)
  {
    match kind
    case MandelbrotSet => n := Mandelbrot.Get(p, maxIter);
    case BurningShipSet => n := BurningShip.GetBurningShip(p, maxIter);
    case JuliaSet => n := Julia.GetJulia(p, juliaConstant, maxIter);
  }
}
