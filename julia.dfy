// The Julia escape-time evaluator and descriptor (src/fractals/julia.rs).
module Julia {
  import opened Base
  import opened EscapeTime

  /** `z₀ = p`, `zₙ₊₁ = zₙ² + c`, escape radius 4 whatever the bailout setting. */
  function JuliaRecurrence(p: Complex, c: Complex): Recurrence
  {
    Recurrence(p, c, false, 16.0)
  }

  /** `get_julia`: `p` itself is iterated in place. */
  method GetJulia(p: Complex, juliaConstant: Complex, maxIter: int) returns (n: int)
    ensures n == EscapeValue(JuliaRecurrence(p, juliaConstant), maxIter)
  {
    ghost var r := JuliaRecurrence(p, juliaConstant);
    ghost var p0 := p;
    var z := p;
    n := 0;
    while z.Norm2() < 16.0 && n < maxIter
      invariant 0 <= n && (maxIter >= 0 ==> n <= maxIter)
      invariant z == Term(r, n)
      invariant ExitIndex(r, maxIter, 0) == ExitIndex(r, maxIter, n)
      decreases maxIter - n
    {
      z := z.Square();
      z := z.Plus(juliaConstant);
      n := n + 1;
    }
    if n == maxIter {
      return -1;
    }
  }

  /** -1 exactly when the counter reached the limit, otherwise the first escaping index below it. */
  lemma JuliaValue(p: Complex, c: Complex, maxIter: int)
    requires maxIter >= 0
    ensures var n := EscapeValue(JuliaRecurrence(p, c), maxIter);
      (n == -1 <==> ExitIndex(JuliaRecurrence(p, c), maxIter, 0) == maxIter)
      && (n != -1 ==> 0 <= n < maxIter && Term(JuliaRecurrence(p, c), n).Norm2() >= 16.0)
  {
    EscapeValueMeaning(JuliaRecurrence(p, c), maxIter);
  }

  /** With a positive limit, the value is 0 exactly when `|p| >= 4`. */
  lemma ZeroIffOutsideRadius(p: Complex, c: Complex, maxIter: int)
    requires maxIter >= 1
    ensures EscapeValue(JuliaRecurrence(p, c), maxIter) == 0 <==> p.Norm2() >= 16.0
  {
    var r := JuliaRecurrence(p, c);
    if p.Norm2() < 16.0 {
      assert ExitIndex(r, maxIter, 0) == ExitIndex(r, maxIter, 1);
    }
  }

  /** Raising the limit never changes an escaped result. */
  lemma RaisingLimitKeepsEscape(p: Complex, c: Complex, maxIter: int, larger: int)
    requires 0 <= maxIter <= larger
    requires EscapeValue(JuliaRecurrence(p, c), maxIter) != -1
    ensures EscapeValue(JuliaRecurrence(p, c), larger) == EscapeValue(JuliaRecurrence(p, c), maxIter)
  {
    EscapedStaysEscaped(JuliaRecurrence(p, c), maxIter, larger);
  }

  const JULIA_NAME: string := "Julia"
  const JULIA_DEFAULT_POS: Complex := Complex(0.0, 0.0)
  const JULIA_DETAILS: string :=
    "Formula: \n<acc Uₙ₊₁ = Uₙ² + C >\n"
    + "Where <acc U₀> is the complex number at the position of the pixel, "
    + "and <acc C> is a constant that can be modified.\n"
}
