// The canvas settings that `+` and `-` can act on.
module SelectableVariables {
  import opened Base

  datatype SelectedVariable = PaletteOffset | HslSmoothness | HueOffset | HslSat | HslLum

  /** `selectable_variables()`: every variant, in declaration order. */
  function AllSelectable(): (r: seq<SelectedVariable>)
    ensures |r| == 5
    ensures forall i, j :: 0 <= i < j < |r| ==> r[i] != r[j]
  {
    [PaletteOffset, HslSmoothness, HueOffset, HslSat, HslLum]
  }

  /** The declaration position of a variant. */
  function Ordinal(v: SelectedVariable): (i: nat)
    ensures i < 5 && AllSelectable()[i] == v
  {
    match v
    case PaletteOffset => 0
    case HslSmoothness => 1
    case HueOffset => 2
    case HslSat => 3
    case HslLum => 4
  }

  /** `var == i` for a `usize` `i`: the position of `var` in `selectable_variables()` is `i`. */
  predicate EqIndex(v: SelectedVariable, i: int)
  {
    var pos := FindFirst(AllSelectable(), (x: SelectedVariable) => x == v);
    pos.Some? && pos.value == i
  }

  /** `var == i` holds exactly when `i` is the position holding `var`, so for exactly one `i`. */
  lemma EqIndexIsPosition(v: SelectedVariable, i: int)
    ensures EqIndex(v, i) <==> 0 <= i < 5 && AllSelectable()[i] == v
  {
    var pos := FindFirst(AllSelectable(), (x: SelectedVariable) => x == v);
    assert AllSelectable()[Ordinal(v)] == v;
    assert pos.Some?;
  }
}
