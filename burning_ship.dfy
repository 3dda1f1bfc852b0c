// The Burning Ship escape-time evaluator and descriptor (src/fractals/burning_ship.rs).
module BurningShip {
  import opened Base
  import opened EscapeTime

  function Negate(p: Complex): Complex { Complex(-p.re, -p.im) }

  /** `z₀ = 0`, `zₙ₊₁ = (|Re zₙ| + i|Im zₙ|)² - p`, escape radius 4. */
  function ShipRecurrence(p: Complex): Recurrence
  {
    Recurrence(ORIGIN, Negate(p), true, 16.0)
  }

  /** `get_burning_ship`: `p` is negated first, then the folded orbit is iterated. */
  method GetBurningShip(p: Complex, maxIter: int) returns (n: int)
    ensures n == EscapeValue(ShipRecurrence(p), maxIter)
  {
    ghost var r := ShipRecurrence(p);
    var q := Complex(p.re * -1.0, p.im * -1.0);
    n := 0;
    var z := ORIGIN;
    while z.Norm2() < 16.0 && n < maxIter
      invariant 0 <= n && (maxIter >= 0 ==> n <= maxIter)
      invariant q == Negate(p)
      invariant z == Term(r, n)
      invariant ExitIndex(r, maxIter, 0) == ExitIndex(r, maxIter, n)
      decreases maxIter - n
    {
      z := Complex(if z.re < 0.0 then -z.re else z.re, if z.im < 0.0 then -z.im else z.im);
      z := z.Square();
      z := z.Plus(q);
      n := n + 1;
    }
    if n == maxIter {
      return -1;
    }
  }

  /** The first step lands on `-p`: the axes are inverted. */
  lemma FirstStepIsNegated(p: Complex)
    ensures Term(ShipRecurrence(p), 1) == Negate(p)
    ensures Term(ShipRecurrence(p), 1).Norm2() == p.Norm2()
  {
  }

  /** Every step squares the folded term and adds `-p`. */
  lemma StepFoldsSquaresAdds(p: Complex, k: nat)
    ensures var z := Term(ShipRecurrence(p), k);
      Term(ShipRecurrence(p), k + 1)
        == Complex(Abs(z.re), Abs(z.im)).Square().Plus(Negate(p))
  {
  }

  function Abs(x: real): (a: real)
    ensures a >= 0.0 && (a == x || a == -x)
  {
    if x < 0.0 then -x else x
  }

  /** With a positive limit the value is -1, or the first escaping index, at least 1. */
  lemma ShipValue(p: Complex, maxIter: int)
    requires maxIter >= 1
    ensures var n := EscapeValue(ShipRecurrence(p), maxIter);
      n == -1 || (1 <= n < maxIter && Term(ShipRecurrence(p), n).Norm2() >= 16.0
        && forall j :: 0 <= j < n ==> Term(ShipRecurrence(p), j).Norm2() < 16.0)
  {
    EscapeValueMeaning(ShipRecurrence(p), maxIter);
  }

  /** Raising the limit never changes an escaped result. */
  lemma RaisingLimitKeepsEscape(p: Complex, maxIter: int, larger: int)
    requires 0 <= maxIter <= larger
    requires EscapeValue(ShipRecurrence(p), maxIter) != -1
    ensures EscapeValue(ShipRecurrence(p), larger) == EscapeValue(ShipRecurrence(p), maxIter)
  {
    EscapedStaysEscaped(ShipRecurrence(p), maxIter, larger);
  }

  const BURNING_SHIP_NAME: string := "BurningShip"
  const BURNING_SHIP_DEFAULT_POS: Complex := Complex(0.5, 0.5)
  const BURNING_SHIP_DETAILS: string :=
    "Formula: \n<acc Uₙ₊₁ = (|ℜ(Uₙ)| + i |ℑ(Uₙ)|)² + P>\n"
    + "Where <acc U₀=0>, "
    + "and <acc P> is the complex number at the position of the pixel. "
    + "The vertical and horizontal axis are inverted (negatives on the top/right) in order for the render to look like a ship."
}
