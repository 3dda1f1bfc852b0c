// What the canvas shows at points that never diverged.
module VoidFills {

  datatype VoidFill =
    | Transparent
    | Black
    | White
    | GreenNoise
    | BlueNoise
    | RedNoise
    | RgbNoise
    | ColorScheme

  /** `void_fills()`: every variant, in declaration order. */
  function AllVoidFills(): (r: seq<VoidFill>)
    ensures |r| == 8
    ensures forall i, j :: 0 <= i < j < |r| ==> r[i] != r[j]
  {
    [Transparent, Black, White, GreenNoise, BlueNoise, RedNoise, RgbNoise, ColorScheme]
  }

  /** The position of `v` in `void_fills()`, as `iter().position(|x| x == v)` finds it. */
  function IndexOf(v: VoidFill): (i: nat)
    ensures i < |AllVoidFills()| && AllVoidFills()[i] == v
  {
    match v
    case Transparent => 0
    case Black => 1
    case White => 2
    case GreenNoise => 3
    case BlueNoise => 4
    case RedNoise => 5
    case RgbNoise => 6
    case ColorScheme => 7
  }

  /** `void_fills()` lists every variant exactly once. */
  lemma EveryVariantOnce(v: VoidFill)
    ensures multiset(AllVoidFills())[v] == 1
  {
    var r := AllVoidFills();
    var i := IndexOf(v);
    assert r == r[..i] + [v] + r[i + 1..];
    assert v !in r[..i] && v !in r[i + 1..];
  }

  /** Index 0, the default `void_fill_index`, is Transparent; index 7 is ColorScheme. */
  lemma EndsOfTheList()
    ensures AllVoidFills()[0] == Transparent && AllVoidFills()[7] == ColorScheme
  {
  }

  /** Every index names one variant, whose position is that index. */
  lemma IndexOfIsInverse(i: nat)
    requires i < |AllVoidFills()|
    ensures IndexOf(AllVoidFills()[i]) == i
  {
  }
}
