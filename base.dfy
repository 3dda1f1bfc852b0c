// Shared vocabulary of the model: optional and fallible results, the integer
// widths the program works with, Rust's integer operators, text helpers (case folding on ASCII),
// decimal formatting and parsing, and exact complex numbers.
module Base {

  datatype Option<T> = None | Some(value: T)

  datatype Result<T, E> = Ok(value: T) | Err(error: E)

  // ---------------------------------------------------------------- integers

  const I32_MIN: int := -0x8000_0000
  const I32_MAX: int := 0x7fff_ffff
  const U32_MAX: int := 0xffff_ffff
  const USIZE_MODULUS: int := 0x1_0000_0000_0000_0000

  predicate InI32(x: int) { I32_MIN <= x <= I32_MAX }
  predicate InU32(x: int) { 0 <= x <= U32_MAX }

  /** The value of `x` brought into [lo, hi]: `x.max(lo).min(hi)`. */
  function Clamp(x: int, lo: int, hi: int): (r: int)
    requires lo <= hi
    ensures lo <= r <= hi
    ensures lo <= x <= hi ==> r == x
    ensures x < lo ==> r == lo
    ensures x > hi ==> r == hi
  {
    if x < lo then lo else if x > hi then hi else x
  }

  /** `i32::saturating_add` / `saturating_sub`: the exact result, clamped. */
  function SaturateI32(x: int): (r: int)
    ensures InI32(r)
    ensures InI32(x) ==> r == x
  {
    Clamp(x, I32_MIN, I32_MAX)
  }

  /** `u32::saturating_add_signed`. */
  function SaturatingAddSignedU32(u: int, i: int): (r: int)
    ensures InU32(r)
    ensures InU32(u + i) ==> r == u + i
  {
    Clamp(u + i, 0, U32_MAX)
  }

  /** `i32` addition as an optimised build performs it: the exact sum wrapped into range. */
  function WrapI32(x: int): (r: int)
    ensures InI32(r)
    ensures InI32(x) ==> r == x
  {
    if InI32(x) then x else (x - I32_MIN) % 0x1_0000_0000 + I32_MIN
  }

  /** Rust's `/` on integers: the quotient rounded toward zero. */
  function RustDiv(a: int, b: int): (q: int)
    requires b != 0
    ensures a >= 0 && b > 0 ==> q == a / b
    ensures a < 0 && b > 0 ==> q == -((-a) / b)
  {
    var q := (if a < 0 then -a else a) / (if b < 0 then -b else b);
    if (a < 0) != (b < 0) then -q else q
  }

  /** Rust's `%` on integers: the remainder takes the sign of the dividend. */
  function RustRem(a: int, b: int): (r: int)
    requires b != 0
    ensures a >= 0 && b > 0 ==> r == a % b
    ensures a < 0 && b > 0 ==> r == -((-a) % b) && -b < r <= 0
  {
    a - RustDiv(a, b) * b
  }

  /** `iter().position(p)`: the index of the first element satisfying `p`. */
  function FindFirst<T>(xs: seq<T>, p: T -> bool): (r: Option<nat>)
    ensures r.Some? ==> r.value < |xs| && p(xs[r.value])
    ensures r.Some? ==> forall j :: 0 <= j < r.value ==> !p(xs[j])
    ensures r.None? <==> forall j :: 0 <= j < |xs| ==> !p(xs[j])
  {
    if |xs| == 0 then None
    else if p(xs[0]) then Some(0)
    else
      match FindFirst(xs[1..], p)
      case None => None
      case Some(k) => Some(k + 1)
  }

  /** Euclidean division is determined by quotient and remainder. */
  lemma DivModUnique(x: int, w: int, q: int, r: int)
    requires w > 0 && x == q * w + r && 0 <= r < w
    ensures x % w == r && x / w == q
  {
    var q', r' := x / w, x % w;
    assert x == q' * w + r';
    var d := q - q';
    assert d * w == q * w - q' * w;
    assert d * w == r' - r;
    if d > 0 {
      MultiplyAtLeast(d, w);
    } else if d < 0 {
      MultiplyAtLeast(-d, w);
    }
  }

  lemma MultiplyAtLeast(n: int, w: int)
    requires n >= 1 && w > 0
    ensures n * w >= w
  {
    assert n * w == (n - 1) * w + w;
    MultiplyNonNegative(n - 1, w);
  }

  lemma MultiplyNonNegative(a: int, b: int)
    requires a >= 0 && b >= 0
    ensures a * b >= 0
  {
  }

  /** Rust's remainder of a value below twice the divisor subtracts the divisor at most once. */
  lemma RustRemBelowTwice(a: int, b: int)
    requires b != 0
    ensures 0 <= a < 2 * b ==> RustRem(a, b) == if a < b then a else a - b
  {
    if 0 <= a < 2 * b {
      if a < b { DivModUnique(a, b, 0, a); } else { DivModUnique(a, b, 1, a - b); }
    }
  }

  /** The remainder of a successor. */
  lemma ModSuccessor(a: int, w: int)
    requires w > 0
    ensures (a + 1) % w == if a % w == w - 1 then 0 else a % w + 1
  {
    var q, r := a / w, a % w;
    assert a == q * w + r;
    if r == w - 1 {
      DivModUnique(a + 1, w, q + 1, 0);
    } else {
      DivModUnique(a + 1, w, q, r + 1);
    }
  }

  function Max(a: int, b: int): int { if a < b then b else a }
  function Min(a: int, b: int): int { if a < b then a else b }

  // -------------------------------------------------------------------- text

  function LowerChar(c: char): (d: char)
    ensures 'A' <= c <= 'Z' ==> 'a' <= d <= 'z'
    ensures !('A' <= c <= 'Z') ==> d == c
  {
    if 'A' <= c <= 'Z' then (c as int + 32) as char else c
  }

  /** `str::to_lowercase` on the ASCII range. */
  function Lower(s: string): (t: string)
    ensures |t| == |s|
    ensures forall i :: 0 <= i < |s| ==> t[i] == LowerChar(s[i])
  {
    seq(|s|, i requires 0 <= i < |s| => LowerChar(s[i]))
  }

  /** `s.starts_with(p)`. */
  predicate StartsWith(s: string, p: string)
  {
    |p| <= |s| && s[..|p|] == p
  }

  predicate EndsWith(s: string, p: string)
  {
    |p| <= |s| && s[|s| - |p|..] == p
  }

  /** Joins `parts` with `sep` in between, as `[..].join(sep)`. */
  function Join(parts: seq<string>, sep: string): (r: string)
    ensures |parts| == 1 ==> r == parts[0]
    ensures parts == [] ==> r == ""
  {
    if |parts| == 0 then ""
    else if |parts| == 1 then parts[0]
    else Join(parts[..|parts| - 1], sep) + sep + parts[|parts| - 1]
  }

  /** `char::is_whitespace`: the characters with the Unicode White_Space property. */
  predicate IsWhitespace(c: char)
  {
    || '\U{0009}' <= c <= '\U{000D}' || c == ' ' || c == '\U{0085}' || c == '\U{00A0}' || c == '\U{1680}'
    || '\U{2000}' <= c <= '\U{200A}' || c == '\U{2028}' || c == '\U{2029}' || c == '\U{202F}'
    || c == '\U{205F}' || c == '\U{3000}'
  }

  /** The words of `s`, as `str::split_whitespace` gives them. */
  function SplitWhitespace(s: string): (words: seq<string>)
    ensures forall w :: w in words ==> |w| > 0 && forall c :: c in w ==> !IsWhitespace(c)
    ensures (forall c :: c in s ==> IsWhitespace(c)) <==> words == []
    decreases |s|
  {
    if |s| == 0 then []
    else if IsWhitespace(s[0]) then SplitWhitespace(s[1..])
    else
      var n := WordLength(s);
      [s[..n]] + SplitWhitespace(s[n..])
  }

  /** `s` without its trailing whitespace. */
  function TrimEnd(s: string): (t: string)
    ensures |t| <= |s| && t == s[..|t|]
    ensures t == [] || !IsWhitespace(t[|t| - 1])
    ensures forall i :: |t| <= i < |s| ==> IsWhitespace(s[i])
  {
    if s != [] && IsWhitespace(s[|s| - 1]) then TrimEnd(s[..|s| - 1]) else s
  }

  /** `s` without its leading whitespace. */
  function TrimStart(s: string): (t: string)
    ensures |t| <= |s| && t == s[|s| - |t|..]
    ensures t == [] || !IsWhitespace(t[0])
    ensures forall i :: 0 <= i < |s| - |t| ==> IsWhitespace(s[i])
  {
    if s != [] && IsWhitespace(s[0]) then TrimStart(s[1..]) else s
  }

  /** `str::trim`. */
  function Trim(s: string): string
  {
    TrimStart(TrimEnd(s))
  }

  /** Length of the non-whitespace run at the start of `s`. */
  function WordLength(s: string): (n: nat)
    requires |s| > 0 && !IsWhitespace(s[0])
    ensures 0 < n <= |s|
    ensures forall i :: 0 <= i < n ==> !IsWhitespace(s[i])
    ensures n < |s| ==> IsWhitespace(s[n])
    decreases |s|
  {
    if |s| == 1 || IsWhitespace(s[1]) then 1 else 1 + WordLength(s[1..])
  }

  // ------------------------------------------------------- decimal numbers

  predicate IsDigit(c: char) { '0' <= c <= '9' }

  function DigitValue(c: char): nat
    requires IsDigit(c)
  {
    c as int - '0' as int
  }

  function DigitChar(d: nat): (c: char)
    requires d < 10
    ensures IsDigit(c) && DigitValue(c) == d
  {
    ('0' as int + d) as char
  }

  predicate AllDigits(s: string)
  {
    forall i :: 0 <= i < |s| ==> IsDigit(s[i])
  }

  function DigitsValue(s: string): nat
    requires AllDigits(s)
  {
    if |s| == 0 then 0 else DigitsValue(s[..|s| - 1]) * 10 + DigitValue(s[|s| - 1])
  }

  /** Decimal form of a natural number, as `Display` prints it. */
  function NatToString(n: nat): (s: string)
    ensures |s| > 0 && AllDigits(s)
  {
    if n < 10 then [DigitChar(n)] else NatToString(n / 10) + [DigitChar(n % 10)]
  }

  /** Decimal form of an integer, as `Display` prints it. */
  function IntToString(n: int): (s: string)
    ensures |s| > 0
    ensures n >= 0 <==> IsDigit(s[0])
  {
    if n >= 0 then NatToString(n) else "-" + NatToString(-n)
  }

  lemma {:induction false} NatToStringValue(n: nat)
    ensures DigitsValue(NatToString(n)) == n
  {
    if n >= 10 {
      NatToStringValue(n / 10);
      var s := NatToString(n);
      assert s[..|s| - 1] == NatToString(n / 10);
    }
  }

  /** The integer kinds behind the program's generic values. */
  datatype IntKind = I32 | U32 | USize

  function KindMin(k: IntKind): int { if k == I32 then I32_MIN else 0 }
  function KindMax(k: IntKind): int
  {
    match k
    case I32 => I32_MAX
    case U32 => U32_MAX
    case USize => USIZE_MODULUS - 1
  }

  predicate InKind(k: IntKind, x: int) { KindMin(k) <= x <= KindMax(k) }

  /**
   * `<i32 as FromStr>::from_str`, and the same for `u32` and `usize` (on a
   * 64-bit target): an optional
   * `+` (or `-` for the signed kind) and at least one decimal digit, nothing
   * else, and a value that fits the kind.
   */
  function ParseInt(s: string, k: IntKind): (r: Option<int>)
    ensures r.Some? ==> InKind(k, r.value)
    ensures AllDigits(s) && |s| > 0 && InKind(k, DigitsValue(s)) ==> r == Some(DigitsValue(s))
    ensures r.Some? ==> |s| > 0
  {
    if |s| == 0 then None
    else if (s[0] == '+' || s[0] == '-') && |s| == 1 then None
    else
      var negative := s[0] == '-' && k == I32;
      var digits := if s[0] == '+' || negative then s[1..] else s;
      if !AllDigits(digits) then None
      else
        var v: int := if negative then 0 - (DigitsValue(digits) as int) else DigitsValue(digits);
        if InKind(k, v) then Some(v) else None
  }

  /** Parsing the printed form of any value of the kind gives the value back. */
  lemma ParseIntToString(n: int, k: IntKind)
    requires InKind(k, n)
    ensures ParseInt(IntToString(n), k) == Some(n)
  {
    if n >= 0 {
      NatToStringValue(n);
    } else {
      NatToStringValue(-n);
      var s := IntToString(n);
      assert s[1..] == NatToString(-n);
    }
  }

  // --------------------------------------------------------- complex plane

  /** An exact complex number: `rug::Complex` with its rounding left out. */
  datatype Complex = Complex(re: real, im: real)
  {
    function Plus(o: Complex): Complex { Complex(re + o.re, im + o.im) }
    function Minus(o: Complex): Complex { Complex(re - o.re, im - o.im) }
    function Times(o: Complex): Complex { Complex(re * o.re - im * o.im, re * o.im + im * o.re) }
    function Square(): Complex { Times(this) }
    /** `|z|²`; the program compares `|z|` against a bound, the model compares squares. */
    function Norm2(): real { re * re + im * im }
  }

  const ORIGIN: Complex := Complex(0.0, 0.0)
}
