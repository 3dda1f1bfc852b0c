// The escape-time recurrences behind the three fractals, as specification
// functions: the orbit of a point, the index at which the evaluation loop
// stops, and the value the evaluators return.
module EscapeTime {
  import opened Base

  /**
   * One escape-time recurrence: the first term, the constant added at each
   * step, whether each step first takes the absolute value of both parts,
   * and the square of the escape radius.
   */
  datatype Recurrence = Recurrence(start: Complex, add: Complex, folds: bool, bound2: real)

  function Fold(z: Complex): Complex
  {
    Complex(if z.re < 0.0 then -z.re else z.re, if z.im < 0.0 then -z.im else z.im)
  }

  /** One step: `z ← z² + add`, on `(|Re z|, |Im z|)` when the recurrence folds. */
  function Next(r: Recurrence, z: Complex): Complex
  {
    (if r.folds then Fold(z) else z).Square().Plus(r.add)
  }

  /** The k-th term of the orbit. */
  function Term(r: Recurrence, k: nat): Complex
  {
    if k == 0 then r.start else Next(r, Term(r, k - 1))
  }

  /** The loop keeps going while `|z| < radius` and the counter is below the limit. */
  predicate Continues(r: Recurrence, limit: int, k: nat)
  {
    Term(r, k).Norm2() < r.bound2 && k < limit
  }

  /** The counter value with which the evaluation loop, started at `k`, stops. */
  function ExitIndex(r: Recurrence, limit: int, k: nat): (n: nat)
    ensures k <= n
    ensures k <= limit ==> n <= limit
    ensures n < limit ==> Term(r, n).Norm2() >= r.bound2
    decreases if k < limit then limit - k else 0
  {
    if Continues(r, limit, k) then ExitIndex(r, limit, k + 1) else k
  }

  /** What an evaluator returns: the iteration count, or -1 when the limit was reached. */
  function EscapeValue(r: Recurrence, limit: int): int
  {
    var n := ExitIndex(r, limit, 0);
    if n == limit then -1 else n
  }

  /** Every index passed over by the loop still satisfies the loop condition. */
  lemma {:induction false} BeforeExitContinues(r: Recurrence, limit: int, k: nat, j: nat)
    requires k <= j < ExitIndex(r, limit, k)
    ensures Continues(r, limit, j)
    decreases j - k
  {
    if Continues(r, limit, k) && k < j {
      BeforeExitContinues(r, limit, k + 1, j);
    }
  }

  /** A loop that continued at every index from `k` up to `m` stops where a loop started at `m` stops. */
  lemma {:induction false} ExitIndexSkips(r: Recurrence, limit: int, k: nat, m: nat)
    requires k <= m && forall j :: k <= j < m ==> Continues(r, limit, j)
    ensures ExitIndex(r, limit, k) == ExitIndex(r, limit, m)
    decreases m - k
  {
    if k < m {
      ExitIndexSkips(r, limit, k + 1, m);
    }
  }

  /**
   * The value is -1 exactly when the loop ran to the limit; otherwise it is
   * the first index whose term lies outside the radius, below the limit.
   */
  lemma EscapeValueMeaning(r: Recurrence, limit: int)
    requires limit >= 0
    ensures EscapeValue(r, limit) == -1 <==> ExitIndex(r, limit, 0) == limit
    ensures var n := EscapeValue(r, limit);
      n != -1 ==>
        (0 <= n < limit && Term(r, n).Norm2() >= r.bound2
         && forall j :: 0 <= j < n ==> Term(r, j).Norm2() < r.bound2)
  {
    var n := EscapeValue(r, limit);
    if n != -1 {
      forall j | 0 <= j < n ensures Term(r, j).Norm2() < r.bound2 {
        BeforeExitContinues(r, limit, 0, j);
      }
    }
  }

  /** Raising the limit never changes a value that had already escaped. */
  lemma EscapedStaysEscaped(r: Recurrence, limit: int, larger: int)
    requires 0 <= limit <= larger && EscapeValue(r, limit) != -1
    ensures EscapeValue(r, larger) == EscapeValue(r, limit)
  {
    var n := ExitIndex(r, limit, 0);
    forall j | 0 <= j < n ensures Continues(r, larger, j) {
      BeforeExitContinues(r, limit, 0, j);
    }
    ExitIndexSkips(r, larger, 0, n);
  }

  /** Raising the limit never lowers the count of a point that stayed bounded: it stays bounded or escapes later. */
  lemma BoundedNeverDecreases(r: Recurrence, limit: int, larger: int)
    requires 0 <= limit <= larger && EscapeValue(r, limit) == -1
    ensures EscapeValue(r, larger) == -1 || EscapeValue(r, larger) >= limit
  {
    forall j | 0 <= j < limit ensures Continues(r, larger, j) {
      BeforeExitContinues(r, limit, 0, j);
    }
    ExitIndexSkips(r, larger, 0, limit);
  }
}
