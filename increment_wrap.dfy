// The wrap-around counters used for the colour offset, the HSL settings and
// the void fill: `increment_wrap` and `decrement_wrap` on an `&mut i32`.
module IncrementWrap {
  import opened Base

  /** The value `decrement_wrap` stores: `(num + w - 1) % w` with Rust's `%`. */
  function DecrementWrapped(num: int, w: int): (r: int)
    requires w != 0
    ensures 0 <= num < w ==> 0 <= r < w
    ensures 0 <= num < w ==> r == if num == 0 then w - 1 else num - 1
  {
    RustRemBelowTwice(num + w - 1, w);
    RustRem(num + w - 1, w)
  }

  /** The value `increment_wrap` stores: `(num + 1) % w` with Rust's `%`. */
  function IncrementWrapped(num: int, w: int): (r: int)
    requires w != 0
    ensures 0 <= num < w ==> 0 <= r < w
    ensures 0 <= num < w ==> r == if num == w - 1 then 0 else num + 1
  {
    RustRemBelowTwice(num + 1, w);
    RustRem(num + 1, w)
  }

  /** `decrement_wrap(&mut num, w)`: the updated counter is returned. */
  method DecrementWrap(num: int, w: int) returns (r: int)
    requires w != 0 && InI32(num + w - 1)
    ensures r == DecrementWrapped(num, w)
    ensures 0 <= num < w ==> 0 <= r < w && r == if num == 0 then w - 1 else num - 1
  {
    r := RustRem(num + w - 1, w);
  }

  /** `increment_wrap(&mut num, w)`: the updated counter is returned. */
  method IncrementWrap(num: int, w: int) returns (r: int)
    requires w != 0 && InI32(num + 1)
    ensures r == IncrementWrapped(num, w)
    ensures 0 <= num < w ==> 0 <= r < w && r == if num == w - 1 then 0 else num + 1
  {
    r := RustRem(num + 1, w);
  }

  /** Decrementing after incrementing (and the other way round) restores an in-range counter. */
  lemma WrapInverses(num: int, w: int)
    requires 0 <= num < w
    ensures DecrementWrapped(IncrementWrapped(num, w), w) == num
    ensures IncrementWrapped(DecrementWrapped(num, w), w) == num
  {
  }

  /** The counter after `k` increments. */
  function IncrementedTimes(num: int, w: int, k: nat): int
    requires w != 0
  {
    if k == 0 then num else IncrementWrapped(IncrementedTimes(num, w, k - 1), w)
  }

  /** `k` increments of an in-range counter advance it by `k` modulo `w`. */
  lemma {:induction false} IncrementedTimesIsModular(num: int, w: int, k: nat)
    requires 0 <= num < w
    ensures IncrementedTimes(num, w, k) == (num + k) % w
  {
    if k > 0 {
      IncrementedTimesIsModular(num, w, k - 1);
      ModSuccessor(num + k - 1, w);
    }
  }

  /** `w` increments bring an in-range counter back to where it started. */
  lemma FullCycleRestores(num: int, w: int)
    requires 0 <= num < w
    ensures IncrementedTimes(num, w, w) == num
  {
    IncrementedTimesIsModular(num, w, w);
    DivModUnique(num + w, w, 1, num);
  }
}
