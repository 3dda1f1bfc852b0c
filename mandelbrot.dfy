// The Mandelbrot escape-time evaluator (src/fractals/mandelbrot.rs).
module Mandelbrot {
  import opened Base
  import opened EscapeTime

  /** `z₀ = 0`, `zₙ₊₁ = zₙ² + p`, escape radius 2. */
  function MandelbrotRecurrence(p: Complex): Recurrence
  {
    Recurrence(ORIGIN, p, false, 4.0)
  }

  /**
   * `Mandelbrot::get`: iterate while `|z| < 2` and the counter is below
   * `maxDiverg`; -1 when the counter reached the limit.
   */
  method Get(p: Complex, maxDiverg: int) returns (n: int)
    ensures n == EscapeValue(MandelbrotRecurrence(p), maxDiverg)
  {
    ghost var r := MandelbrotRecurrence(p);
    n := 0;
    var z := ORIGIN;
    while z.Norm2() < 4.0 && n < maxDiverg
      invariant 0 <= n && (maxDiverg >= 0 ==> n <= maxDiverg)
      invariant z == Term(r, n)
      invariant ExitIndex(r, maxDiverg, 0) == ExitIndex(r, maxDiverg, n)
      decreases maxDiverg - n
    {
      z := z.Square().Plus(p);
      n := n + 1;
    }
    if n == maxDiverg {
      return -1;
    }
  }

  /**
   * With a positive limit the value is -1, or the first index whose term has
   * modulus at least 2, which is at least 1 because the orbit starts at 0.
   */
  lemma MandelbrotValue(p: Complex, maxDiverg: int)
    requires maxDiverg >= 1
    ensures var n := EscapeValue(MandelbrotRecurrence(p), maxDiverg);
      n == -1 || (1 <= n < maxDiverg && Term(MandelbrotRecurrence(p), n).Norm2() >= 4.0
        && forall j :: 0 <= j < n ==> Term(MandelbrotRecurrence(p), j).Norm2() < 4.0)
  {
    EscapeValueMeaning(MandelbrotRecurrence(p), maxDiverg);
  }

  /** A point at distance at least 2 from the origin escapes after one step. */
  lemma FarPointEscapesAtOnce(p: Complex, maxDiverg: int)
    requires p.Norm2() >= 4.0 && maxDiverg > 1
    ensures EscapeValue(MandelbrotRecurrence(p), maxDiverg) == 1
  {
    var r := MandelbrotRecurrence(p);
    FirstTerm(p);
    assert !Continues(r, maxDiverg, 1);
    assert ExitIndex(r, maxDiverg, 1) == 1;
    assert Continues(r, maxDiverg, 0);
    assert ExitIndex(r, maxDiverg, 0) == 1;
  }

  /** The first step lands on `p` itself. */
  lemma FirstTerm(p: Complex)
    ensures Term(MandelbrotRecurrence(p), 1) == p
  {
    var r := MandelbrotRecurrence(p);
    assert Term(r, 0) == ORIGIN;
    assert ORIGIN.Square() == ORIGIN;
    assert Next(r, ORIGIN) == p;
  }

  /** The origin is in the set: its orbit stays at 0, so the limit is always reached. */
  lemma OriginIsBounded(maxDiverg: nat)
    ensures EscapeValue(MandelbrotRecurrence(ORIGIN), maxDiverg) == -1
  {
    var r := MandelbrotRecurrence(ORIGIN);
    forall j: nat | j < maxDiverg ensures Continues(r, maxDiverg, j) {
      OriginOrbit(j);
    }
    ExitIndexSkips(r, maxDiverg, 0, maxDiverg);
  }

  lemma {:induction false} OriginOrbit(k: nat)
    ensures Term(MandelbrotRecurrence(ORIGIN), k) == ORIGIN
  {
    if k > 0 {
      OriginOrbit(k - 1);
    }
  }

  /** Raising the limit never changes a result that had already escaped. */
  lemma RaisingLimitKeepsEscape(p: Complex, maxDiverg: int, larger: int)
    requires 0 <= maxDiverg <= larger
    requires EscapeValue(MandelbrotRecurrence(p), maxDiverg) != -1
    ensures EscapeValue(MandelbrotRecurrence(p), larger) == EscapeValue(MandelbrotRecurrence(p), maxDiverg)
  {
    EscapedStaysEscaped(MandelbrotRecurrence(p), maxDiverg, larger);
  }
}
