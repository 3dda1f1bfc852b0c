// What a mouse button does on the canvas, and the per-button configuration.
module ClickModes {
  import opened Base

  datatype ClickMode = ZoomIn | ZoomOut | JuliaConstant | MandelConstant | Move | BailOut | Info

  /** The `Display` name of a click mode. */
  function Name(m: ClickMode): string
  {
    match m
    case ZoomIn => "ZoomIn"
    case ZoomOut => "ZoomOut"
    case JuliaConstant => "JuliaConstant"
    case MandelConstant => "MandelConstant"
    case Move => "Move"
    case BailOut => "BailOut"
    case Info => "Info"
  }

  /** `ClickMode::all()`, in its own order (not the declaration order). */
  function AllModes(): (r: seq<ClickMode>)
    ensures |r| == 7
    ensures forall i, j :: 0 <= i < j < |r| ==> r[i] != r[j]
  {
    [ZoomIn, ZoomOut, Move, JuliaConstant, BailOut, MandelConstant, Info]
  }

  function PositionInAll(m: ClickMode): (i: nat)
    ensures i < |AllModes()| && AllModes()[i] == m
  {
    match m
    case ZoomIn => 0
    case ZoomOut => 1
    case Move => 2
    case JuliaConstant => 3
    case BailOut => 4
    case MandelConstant => 5
    case Info => 6
  }

  /** `ClickMode::all()` lists each of the seven modes exactly once. */
  lemma AllModesListsEachOnce(m: ClickMode)
    ensures multiset(AllModes())[m] == 1
  {
    assert AllModes()[PositionInAll(m)] == m;
    DistinctOccursOnce(AllModes(), m);
  }

  lemma {:induction false} DistinctOccursOnce(r: seq<ClickMode>, x: ClickMode)
    requires forall i, j :: 0 <= i < j < |r| ==> r[i] != r[j]
    requires x in r
    ensures multiset(r)[x] == 1
  {
    assert r == [r[0]] + r[1..];
    assert multiset(r) == multiset{r[0]} + multiset(r[1..]);
    if x == r[0] {
      assert x !in r[1..] by {
        forall k | 0 <= k < |r[1..]|
          ensures r[1..][k] != x
        {
          assert r[1..][k] == r[k + 1];
        }
      }
    } else {
      DistinctOccursOnce(r[1..], x);
    }
  }

  /** The lookup table of `ClickMode::from`. */
  const FROM_TABLE: seq<(string, ClickMode)> := [
    ("zoomin", ZoomIn),
    ("zoomout", ZoomOut),
    ("move", Move),
    ("juliaconstant", JuliaConstant),
    ("mandelconstant", MandelConstant),
    ("bailout", BailOut),
    ("info", Info)
  ]

  function RemoveUnderscores(s: string): (t: string)
    ensures '_' !in t
    ensures |t| <= |s|
  {
    if |s| == 0 then ""
    else if s[0] == '_' then RemoveUnderscores(s[1..])
    else [s[0]] + RemoveUnderscores(s[1..])
  }

  /** The input as `from` compares it: lower-cased, underscores removed. */
  function Normalise(s: string): string
  {
    RemoveUnderscores(Lower(s))
  }

  /** `ClickMode::from`: the first table key that starts with the normalised input. */
  function From(s: string): (r: Option<ClickMode>)
    ensures r.Some? <==> exists k :: 0 <= k < |FROM_TABLE| && StartsWith(FROM_TABLE[k].0, Normalise(s))
    ensures r.Some? ==> exists k :: (0 <= k < |FROM_TABLE| && StartsWith(FROM_TABLE[k].0, Normalise(s))
      && r.value == FROM_TABLE[k].1
      && forall j :: 0 <= j < k ==> !StartsWith(FROM_TABLE[j].0, Normalise(s)))
  {
    var q := Normalise(s);
    match FindFirst(FROM_TABLE, (e: (string, ClickMode)) => StartsWith(e.0, q))
    case None => None
    case Some(k) => Some(FROM_TABLE[k].1)
  }

  /** A normalised query resolves to the mode of the first key it prefixes. */
  lemma FromNormalised(s: string, k: nat)
    requires k < |FROM_TABLE| && StartsWith(FROM_TABLE[k].0, Normalise(s))
    requires forall j :: 0 <= j < k ==> !StartsWith(FROM_TABLE[j].0, Normalise(s))
    ensures From(s) == Some(FROM_TABLE[k].1)
  {
  }

  lemma NormaliseIdentity(s: string)
    requires forall i :: 0 <= i < |s| ==> 'a' <= s[i] <= 'z'
    ensures Normalise(s) == s
  {
    assert Lower(s) == s;
    RemoveUnderscoresIdentity(s);
  }

  lemma {:induction false} RemoveUnderscoresIdentity(s: string)
    requires '_' !in s
    ensures RemoveUnderscores(s) == s
  {
    if |s| > 0 {
      RemoveUnderscoresIdentity(s[1..]);
    }
  }

  lemma {:induction false} RemoveUnderscoresAppend(a: string, b: string)
    ensures RemoveUnderscores(a + b) == RemoveUnderscores(a) + RemoveUnderscores(b)
  {
    if |a| > 0 {
      assert (a + b)[1..] == a[1..] + b;
      RemoveUnderscoresAppend(a[1..], b);
    } else {
      assert a + b == b;
    }
  }

  /** Each table key resolves to its own mode. */
  lemma FromKeys(k: nat)
    requires k < |FROM_TABLE|
    ensures From(FROM_TABLE[k].0) == Some(FROM_TABLE[k].1)
  {
    KeyIsLowerCase(k);
    NormaliseIdentity(FROM_TABLE[k].0);
    EarlierKeysDiffer(k);
    FromNormalised(FROM_TABLE[k].0, k);
  }

  lemma KeyIsLowerCase(k: nat)
    requires k < |FROM_TABLE|
    ensures forall i :: 0 <= i < |FROM_TABLE[k].0| ==> 'a' <= FROM_TABLE[k].0[i] <= 'z'
  {
    var key := FROM_TABLE[k].0;
    if k == 0 { assert key == "zoomin"; }
    else if k == 1 { assert key == "zoomout"; }
    else if k == 2 { assert key == "move"; }
    else if k == 3 { assert key == "juliaconstant"; }
    else if k == 4 { assert key == "mandelconstant"; }
    else if k == 5 { assert key == "bailout"; }
    else { assert key == "info"; }
  }

  lemma EarlierKeysDiffer(k: nat)
    requires k < |FROM_TABLE|
    ensures forall j :: 0 <= j < k ==> !StartsWith(FROM_TABLE[j].0, FROM_TABLE[k].0)
  {
    if k == 0 {
    } else if k == 1 {
      assert !StartsWith("zoomin", "zoomout");
    } else {
      forall j | 0 <= j < k
        ensures !StartsWith(FROM_TABLE[j].0, FROM_TABLE[k].0)
      {
        var a, b := FROM_TABLE[j].0, FROM_TABLE[k].0;
        assert |a| >= 2 && |b| >= 2 && (a[0] != b[0] || a[1] != b[1]);
      }
    }
  }

  /** "zoom_out" is ZoomOut once the underscore is gone. */
  lemma FromUnderscored()
    ensures From("zoom_out") == Some(ZoomOut)
  {
    NormaliseZoomOut();
    assert !StartsWith(FROM_TABLE[0].0, "zoomout");
    assert StartsWith(FROM_TABLE[1].0, "zoomout");
    FromNormalised("zoom_out", 1);
  }

  lemma NormaliseZoomOut()
    ensures Normalise("zoom_out") == "zoomout"
  {
    var s := "zoom_out";
    assert Lower(s) == s;
    assert s == "zoom" + "_" + "out";
    RemoveOneUnderscore("zoom", "out");
    assert "zoom" + "out" == "zoomout";
  }

  lemma RemoveOneUnderscore(a: string, b: string)
    requires '_' !in a && '_' !in b
    ensures RemoveUnderscores(a + "_" + b) == a + b
  {
    assert a + "_" + b == a + ("_" + b);
    RemoveUnderscoresAppend(a, "_" + b);
    RemoveUnderscoresIdentity(a);
    assert ("_" + b)[1..] == b;
    RemoveUnderscoresIdentity(b);
  }

  /** The prefix "ZOOM" picks the first key that starts with it, ZoomIn. */
  lemma FromPrefix()
    ensures From("ZOOM") == Some(ZoomIn)
  {
    assert Lower("ZOOM") == "zoom";
    NormaliseIdentity("zoom");
    FromNormalised("ZOOM", 0);
  }

  datatype ClickConfig = ClickConfig(left: ClickMode, middle: ClickMode, right: ClickMode)

  /** `ClickConfig::default()`. */
  const DEFAULT_CLICK_CONFIG: ClickConfig := ClickConfig(ZoomIn, Move, ZoomOut)
}
