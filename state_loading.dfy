// Loading a state file (`AppState::apply`): the saved fields are applied one
// after another, in a fixed order, and the first invalid one stops the
// loading with the fields before it applied and the ones after it untouched.
// Two revisions are modelled: src/app_state/mod.rs (twelve fields, error
// details quoted as they come) and src/app_state/state_loading.rs (a version
// check first, five HSL fields more, error details and file name escaped).
module StateLoading {
  import opened Base
  import opened VoidFills
  import opened FracLogic
  import opened AppStates
  import Fractals
  import Colors
  import Palettes
  import Markup
  import Logging
  import Bounds

  /**
   * `SavedState` as `apply` reads it. The struct in src/helpers/saved_state.rs
   * has only the first ten fields; `apply` also reads the version, the
   * smoothness, the bailout and the HSL fields, which a file may leave out.
   */
  datatype SavedState = SavedState(
    fracName: Option<string>,
    colorPaletteName: Option<string>,
    paletteOffset: Option<int>,
    pos: Option<string>,
    complexWidth: Option<string>,
    precision: Option<int>,
    maxIter: Option<int>,
    voidFill: Option<VoidFill>,
    juliaConstant: Option<string>,
    mandelConstant: Option<string>,
    version: Option<string>,
    smoothness: Option<int>,
    bailout: Option<real>,
    hslMode: Option<bool>,
    hslSmoothness: Option<int>,
    hslSaturation: Option<int>,
    hslLum: Option<int>,
    hslHueOffset: Option<int>)

  /** One `if let Some(..)` block of `apply`. */
  datatype Field =
    | FracField | PaletteField | OffsetField | PrecisionField | SmoothnessField | PosField
    | MandelField | JuliaField | BailoutField | WidthField | MaxIterField | VoidFillField
    | HslModeField | HslSmoothnessField | HslSaturationField | HslLumField | HslHueOffsetField

  /** The order of the blocks in src/app_state/mod.rs. */
  const UNVERSIONED_FIELDS: seq<Field> := [
    FracField, PaletteField, OffsetField, PrecisionField, SmoothnessField, PosField,
    MandelField, JuliaField, BailoutField, WidthField, MaxIterField, VoidFillField]

  /** The HSL blocks that src/app_state/state_loading.rs adds at the end. */
  const HSL_FIELDS: seq<Field> := [HslModeField, HslSmoothnessField, HslSaturationField, HslLumField, HslHueOffsetField]

  const VERSIONED_FIELDS: seq<Field> := UNVERSIONED_FIELDS + HSL_FIELDS

  /**
   * What `apply` relies on outside this model: the `rug` parsers of complex
   * numbers and floats (with their error text), the cell size `set_width`
   * gives a plane width (`set_width` is not part of this model; nothing in
   * `apply` changes the canvas size it depends on), the outcome of loading
   * the selected fractal's GPU shader, and whether error details are escaped.
   */
  datatype LoadEnv = LoadEnv(
    parseComplex: string -> Result<Complex, string>,
    parseFloat: string -> Result<real, string>,
    cellForWidth: real -> real,
    shaderError: Option<string>,
    escapeErrors: bool)

  const INVALID_FRACTAL: string := "Invalid fractal name in state file."
  const INVALID_PALETTE: string := "Invalid color palette name in state file."
  const INVALID_VOID_FILL: string := "Invalid void fill name in state file."

  /** An error detail from a parser, escaped in the newer revision. */
  function Detail(env: LoadEnv, err: string): string
  {
    if env.escapeErrors then Markup.Esc(err) else err
  }

  /** Whether the file holds the field. */
  predicate Present(saved: SavedState, f: Field)
  {
    match f
    case FracField => saved.fracName.Some?
    case PaletteField => saved.colorPaletteName.Some?
    case OffsetField => saved.paletteOffset.Some?
    case PrecisionField => saved.precision.Some?
    case SmoothnessField => saved.smoothness.Some?
    case PosField => saved.pos.Some?
    case MandelField => saved.mandelConstant.Some?
    case JuliaField => saved.juliaConstant.Some?
    case BailoutField => saved.bailout.Some?
    case WidthField => saved.complexWidth.Some?
    case MaxIterField => saved.maxIter.Some?
    case VoidFillField => saved.voidFill.Some?
    case HslModeField => saved.hslMode.Some?
    case HslSmoothnessField => saved.hslSmoothness.Some?
    case HslSaturationField => saved.hslSaturation.Some?
    case HslLumField => saved.hslLum.Some?
    case HslHueOffsetField => saved.hslHueOffset.Some?
  }

  /** The state after selecting fractal `i` as `apply` does: `select_fractal`, then `handle_res`. */
  function FractalSelected(m: AppModel, i: nat, env: LoadEnv): AppModel
  {
    var (s, res) := WithFractalSelected(m.settings, i, env.shaderError);
    var m1 := m.(settings := s);
    if res.Err? then m1.(logMessages := Logging.Logged(m1.logMessages, Logging.Error(res.error))) else m1
  }

  /** A parsed complex value, or the error `apply` stops with. */
  function ParsedComplex(env: LoadEnv, text: string, what: string): Result<Complex, string>
  {
    match env.parseComplex(text)
    case Ok(c) => Ok(c)
    case Err(e) => Err(what + Detail(env, e))
  }

  /** The position of a saved void fill in `void_fills()`: every variant has one, so loading it never fails. */
  function VoidFillPosition(v: VoidFill): (r: Option<nat>)
    ensures r == Some(IndexOf(v))
  {
    var r := FindFirst(AllVoidFills(), (vf: VoidFill) => vf == v);
    assert r.Some? by {
      assert AllVoidFills()[IndexOf(v)] == v;
    }
    r
  }

  /** The cell size for the plane width parsed from the file. */
  function WidthParsed(m: AppModel, text: string, env: LoadEnv): Result<AppModel, string>
  {
    match env.parseFloat(text)
    case Err(e) => Err("Invalid canvas width: " + Detail(env, e))
    case Ok(w) => Ok(m.(settings := m.settings.(cellSize := env.cellForWidth(w))))
  }

  /** The palette named in the file, looked up as the palette commands do. */
  function PaletteNamed(m: AppModel, name: string): Result<AppModel, string>
  {
    match Colors.GetPaletteIndexByName(name)
    case None => Err(INVALID_PALETTE)
    case Some(i) => Ok(m.(settings := m.settings.(paletteIndex := i)))
  }

  /** The fractal named in the file, selected and its outcome handled. */
  function FractalNamed(m: AppModel, name: string, env: LoadEnv): Result<AppModel, string>
  {
    match Fractals.GetFracIndexByName(name)
    case None => Err(INVALID_FRACTAL)
    case Some(i) => Ok(FractalSelected(m, i, env))
  }

  /** The state with other settings. */
  function WithSettings(m: AppModel, s: Settings): AppModel
  {
    m.(settings := s)
  }

  /** The offset, smoothness, bailout and iteration limit blocks: a present value is copied into the settings. */
  function NumberCopied(s: Settings, saved: SavedState, f: Field): Settings
  {
    match f
    case OffsetField => if saved.paletteOffset.None? then s else s.(colorSchemeOffset := saved.paletteOffset.value)
    case SmoothnessField => if saved.smoothness.None? then s else s.(smoothness := saved.smoothness.value)
    case BailoutField => if saved.bailout.None? then s else s.(bailout := saved.bailout.value)
    case MaxIterField => if saved.maxIter.None? then s else s.(maxIter := saved.maxIter.value)
    case _ => s
  }

  /** The HSL mode and number blocks: a present value is copied into the HSL settings. */
  function HslCopied(s: Settings, saved: SavedState, f: Field): Settings
  {
    match f
    case HslModeField =>
      if saved.hslMode.None? then s else s.(hsl := s.hsl.(enabled := saved.hslMode.value))
    case HslSmoothnessField =>
      if saved.hslSmoothness.None? then s else s.(hsl := s.hsl.(smoothness := saved.hslSmoothness.value))
    case HslSaturationField =>
      if saved.hslSaturation.None? then s else s.(hsl := s.hsl.(saturation := saved.hslSaturation.value))
    case HslLumField =>
      if saved.hslLum.None? then s else s.(hsl := s.hsl.(lum := saved.hslLum.value))
    case HslHueOffsetField =>
      if saved.hslHueOffset.None? then s else s.(hsl := s.hsl.(hueOffset := saved.hslHueOffset.value))
    case _ => s
  }

  /** The fractal block. */
  function FracApplied(m: AppModel, saved: SavedState, env: LoadEnv): Result<AppModel, string>
  {
    if saved.fracName.None? then Ok(m) else FractalNamed(m, saved.fracName.value, env)
  }

  /** The palette block. */
  function PaletteApplied(m: AppModel, saved: SavedState): Result<AppModel, string>
  {
    if saved.colorPaletteName.None? then Ok(m) else PaletteNamed(m, saved.colorPaletteName.value)
  }

  /** The precision block: `set_decimal_prec`, which also asks for a redraw. */
  function PrecisionApplied(m: AppModel, saved: SavedState): AppModel
  {
    if saved.precision.None? then m
    else m.(settings := WithDecimalPrec(m.settings, saved.precision.value), redrawCanvas := true, repaintCanvas := true)
  }

  /** The position and constant blocks. */
  function ComplexApplied(m: AppModel, saved: SavedState, f: Field, env: LoadEnv): Result<AppModel, string>
  {
    match f
    case PosField =>
      if saved.pos.None? then Ok(m)
      else
        (match ParsedComplex(env, saved.pos.value, "Invalid canvas position: ")
         case Err(e) => Err(e)
         case Ok(c) => Ok(WithSettings(m, m.settings.(pos := c))))
    case MandelField =>
      if saved.mandelConstant.None? then Ok(m)
      else
        (match ParsedComplex(env, saved.mandelConstant.value, "Invalid mandelbrot constant: ")
         case Err(e) => Err(e)
         case Ok(c) => Ok(WithSettings(m, m.settings.(mandelConstant := c))))
    case JuliaField =>
      if saved.juliaConstant.None? then Ok(m)
      else
        (match ParsedComplex(env, saved.juliaConstant.value, "Invalid julia constant: ")
         case Err(e) => Err(e)
         case Ok(c) => Ok(WithSettings(m, m.settings.(juliaConstant := c))))
    case _ => Ok(m)
  }

  /** The width block. */
  function WidthApplied(m: AppModel, saved: SavedState, env: LoadEnv): Result<AppModel, string>
  {
    if saved.complexWidth.None? then Ok(m) else WidthParsed(m, saved.complexWidth.value, env)
  }

  /** The void fill block. */
  function VoidFillApplied(m: AppModel, saved: SavedState): Result<AppModel, string>
  {
    if saved.voidFill.None? then Ok(m)
    else
      match VoidFillPosition(saved.voidFill.value)
      case None => Err(INVALID_VOID_FILL)
      case Some(i) => Ok(WithSettings(m, m.settings.(voidFillIndex := i)))
  }

  /** One block of `apply`: an absent field changes nothing; an invalid one is an error and changes nothing. */
  function ApplyField(m: AppModel, saved: SavedState, f: Field, env: LoadEnv): Result<AppModel, string>
  {
    match f
    case FracField => FracApplied(m, saved, env)
    case PaletteField => PaletteApplied(m, saved)
    case OffsetField => Ok(WithSettings(m, NumberCopied(m.settings, saved, f)))
    case PrecisionField => Ok(PrecisionApplied(m, saved))
    case SmoothnessField => Ok(WithSettings(m, NumberCopied(m.settings, saved, f)))
    case PosField => ComplexApplied(m, saved, f, env)
    case MandelField => ComplexApplied(m, saved, f, env)
    case JuliaField => ComplexApplied(m, saved, f, env)
    case BailoutField => Ok(WithSettings(m, NumberCopied(m.settings, saved, f)))
    case WidthField => WidthApplied(m, saved, env)
    case MaxIterField => Ok(WithSettings(m, NumberCopied(m.settings, saved, f)))
    case VoidFillField => VoidFillApplied(m, saved)
    case HslModeField => Ok(WithSettings(m, HslCopied(m.settings, saved, f)))
    case HslSmoothnessField => Ok(WithSettings(m, HslCopied(m.settings, saved, f)))
    case HslSaturationField => Ok(WithSettings(m, HslCopied(m.settings, saved, f)))
    case HslLumField => Ok(WithSettings(m, HslCopied(m.settings, saved, f)))
    case HslHueOffsetField => Ok(WithSettings(m, HslCopied(m.settings, saved, f)))
  }

  /** The closure of `apply`: the blocks in order, stopping at the first error. */
  function ApplyAll(m: AppModel, saved: SavedState, fields: seq<Field>, env: LoadEnv): (r: (AppModel, Result<(), string>))
    decreases |fields|
  {
    if fields == [] then (m, Ok(()))
    else
      match ApplyField(m, saved, fields[0], env)
      case Err(e) => (m, Err(e))
      case Ok(m1) => ApplyAll(m1, saved, fields[1..], env)
  }

  function LoadFailure(filename: string, err: string): string
  {
    "Could not finish loading the state file (<command " + filename + ">) due to an error: <red " + err + ">"
  }

  function LoadSuccess(filename: string): string
  {
    "Successfully loaded state from: <command " + filename + ">."
  }

  /** After the closure: a redraw request, then one success or error entry. */
  function Finished(m: AppModel, res: Result<(), string>, filename: string, env: LoadEnv): (r: AppModel)
    ensures r.redrawCanvas && r.repaintCanvas
    ensures |r.logMessages| > 0
    ensures res.Ok? ==> r.logMessages[|r.logMessages| - 1] == Logging.Success(LoadSuccess(Detail(env, filename)))
    ensures res.Err? ==> r.logMessages[|r.logMessages| - 1] == Logging.Error(LoadFailure(filename, res.error))
    ensures r == m.(redrawCanvas := true, repaintCanvas := true, logMessages := r.logMessages)
  {
    var m1 := m.(redrawCanvas := true, repaintCanvas := true);
    match res
    case Err(err) => m1.(logMessages := Logging.Logged(m1.logMessages, Logging.Error(LoadFailure(filename, err))))
    case Ok(_) => m1.(logMessages := Logging.Logged(m1.logMessages, Logging.Success(LoadSuccess(Detail(env, filename)))))
  }

  /** `apply` of src/app_state/mod.rs. */
  function Loaded(m: AppModel, saved: SavedState, filename: string, env: LoadEnv): AppModel
  {
    var (m1, res) := ApplyAll(m, saved, UNVERSIONED_FIELDS, env);
    Finished(m1, res, filename, env)
  }

  /** The warning about the version a file was written with. */
  function VersionWarning(saved: SavedState): string
  {
    "The loaded state file was generated with Rsfrac version [<red "
    + (if saved.version.Some? then saved.version.value else "Unspecified")
    + ">]. This should be OK but it is important to know, if you have any issues."
  }

  /** Whether `apply` warns about the version of the file. */
  predicate WarnsAboutVersion(saved: SavedState, version: string)
  {
    saved.version.None? || saved.version.value != version
  }

  /**
   * `apply` of src/app_state/state_loading.rs. `log_warn` is not part of this
   * model: `warn` is the entry it makes of a message.
   */
  function LoadedVersioned(m: AppModel, saved: SavedState, filename: string, version: string,
                           warn: string -> string, env: LoadEnv): AppModel
  {
    var m0 := if WarnsAboutVersion(saved, version)
      then m.(logMessages := Logging.Logged(m.logMessages, warn(VersionWarning(saved)))) else m;
    var (m1, res) := ApplyAll(m0, saved, VERSIONED_FIELDS, env);
    Finished(m1, res, filename, env)
  }

  // ------------------------------------------------------------- lemmas

  /** A file without any of the fields leaves the state as it was. */
  lemma {:induction false} AbsentFieldsChangeNothing(m: AppModel, saved: SavedState, fields: seq<Field>, env: LoadEnv)
    requires forall i :: 0 <= i < |fields| ==> !Present(saved, fields[i])
    ensures ApplyAll(m, saved, fields, env) == (m, Ok(()))
    decreases |fields|
  {
    if fields != [] {
      AbsentFieldsChangeNothing(m, saved, fields[1..], env);
    }
  }

  /** Applying two lists of blocks is applying the first, then the second unless the first failed. */
  lemma {:induction false} ApplyAllSplit(m: AppModel, saved: SavedState, a: seq<Field>, b: seq<Field>, env: LoadEnv)
    ensures ApplyAll(m, saved, a + b, env) ==
      var (m1, r1) := ApplyAll(m, saved, a, env);
      if r1.Err? then (m1, r1) else ApplyAll(m1, saved, b, env)
    decreases |a|
  {
    if a == [] {
      assert a + b == b;
    } else {
      assert (a + b)[0] == a[0];
      assert (a + b)[1..] == a[1..] + b;
      match ApplyField(m, saved, a[0], env)
      case Err(e) =>
      case Ok(m1) => ApplyAllSplit(m1, saved, a[1..], b, env);
    }
  }

  /**
   * `apply` stops at the first invalid block: with the blocks before `k`
   * applied and block `k` failing, the result is the state before `k` and
   * block `k`'s error; the blocks after `k` are never applied.
   */
  lemma StopsAtFirstError(m: AppModel, saved: SavedState, fields: seq<Field>, k: nat, env: LoadEnv)
    requires k < |fields|
    requires ApplyAll(m, saved, fields[..k], env).1.Ok?
    requires ApplyField(ApplyAll(m, saved, fields[..k], env).0, saved, fields[k], env).Err?
    ensures ApplyAll(m, saved, fields, env) ==
      (ApplyAll(m, saved, fields[..k], env).0,
       Err(ApplyField(ApplyAll(m, saved, fields[..k], env).0, saved, fields[k], env).error))
  {
    assert fields == fields[..k] + fields[k..];
    ApplyAllSplit(m, saved, fields[..k], fields[k..], env);
  }

  /** Every error leaves the state as the blocks before the failing one made it. */
  lemma {:induction false} ErrorsHaveAFailingBlock(m: AppModel, saved: SavedState, fields: seq<Field>, env: LoadEnv)
    requires ApplyAll(m, saved, fields, env).1.Err?
    ensures exists k :: (0 <= k < |fields| && ApplyAll(m, saved, fields[..k], env).1.Ok?
      && ApplyAll(m, saved, fields[..k], env).0 == ApplyAll(m, saved, fields, env).0
      && ApplyField(ApplyAll(m, saved, fields, env).0, saved, fields[k], env) == Err(ApplyAll(m, saved, fields, env).1.error))
    decreases |fields|
  {
    match ApplyField(m, saved, fields[0], env)
    case Err(e) =>
      assert fields[..0] == [];
    case Ok(m1) =>
      ErrorsHaveAFailingBlock(m1, saved, fields[1..], env);
      var k :| 0 <= k < |fields[1..]| && ApplyAll(m1, saved, fields[1..][..k], env).1.Ok?
        && ApplyAll(m1, saved, fields[1..][..k], env).0 == ApplyAll(m1, saved, fields[1..], env).0
        && ApplyField(ApplyAll(m1, saved, fields[1..], env).0, saved, fields[1..][k], env)
           == Err(ApplyAll(m1, saved, fields[1..], env).1.error);
      var pre := fields[..k + 1];
      assert pre[0] == fields[0] && pre[1..] == fields[1..][..k];
  }

  /** A present number or flag is copied as it is, and nothing else changes. */
  lemma PresentValuesOverwrite(m: AppModel, saved: SavedState, env: LoadEnv)
    ensures saved.paletteOffset.Some? ==>
      ApplyField(m, saved, OffsetField, env) == Ok(m.(settings := m.settings.(colorSchemeOffset := saved.paletteOffset.value)))
    ensures saved.smoothness.Some? ==>
      ApplyField(m, saved, SmoothnessField, env) == Ok(m.(settings := m.settings.(smoothness := saved.smoothness.value)))
    ensures saved.bailout.Some? ==>
      ApplyField(m, saved, BailoutField, env) == Ok(m.(settings := m.settings.(bailout := saved.bailout.value)))
    ensures saved.maxIter.Some? ==>
      ApplyField(m, saved, MaxIterField, env) == Ok(m.(settings := m.settings.(maxIter := saved.maxIter.value)))
  {
    if saved.paletteOffset.Some? {
      assert ApplyField(m, saved, OffsetField, env) == Ok(m.(settings := m.settings.(colorSchemeOffset := saved.paletteOffset.value)));
    }
    if saved.smoothness.Some? {
      assert ApplyField(m, saved, SmoothnessField, env) == Ok(m.(settings := m.settings.(smoothness := saved.smoothness.value)));
    }
    if saved.bailout.Some? {
      assert ApplyField(m, saved, BailoutField, env) == Ok(m.(settings := m.settings.(bailout := saved.bailout.value)));
    }
  }

  /** A present HSL mode or smoothness is copied into the HSL settings, and nothing else changes. */
  lemma PresentHslModeOverwrites(m: AppModel, saved: SavedState, env: LoadEnv)
    ensures saved.hslMode.Some? ==> (ApplyField(m, saved, HslModeField, env)
      == Ok(m.(settings := m.settings.(hsl := m.settings.hsl.(enabled := saved.hslMode.value)))))
    ensures saved.hslSmoothness.Some? ==> (ApplyField(m, saved, HslSmoothnessField, env)
      == Ok(m.(settings := m.settings.(hsl := m.settings.hsl.(smoothness := saved.hslSmoothness.value)))))
  {
    if saved.hslMode.Some? {
      assert ApplyField(m, saved, HslModeField, env)
        == Ok(m.(settings := m.settings.(hsl := m.settings.hsl.(enabled := saved.hslMode.value))));
    }
    if saved.hslSmoothness.Some? {
      assert ApplyField(m, saved, HslSmoothnessField, env)
        == Ok(m.(settings := m.settings.(hsl := m.settings.hsl.(smoothness := saved.hslSmoothness.value))));
    }
  }

  /** A present HSL colour value is copied into the HSL settings, and nothing else changes. */
  lemma PresentHslColourOverwrites(m: AppModel, saved: SavedState, env: LoadEnv)
    ensures saved.hslSaturation.Some? ==> (ApplyField(m, saved, HslSaturationField, env)
      == Ok(m.(settings := m.settings.(hsl := m.settings.hsl.(saturation := saved.hslSaturation.value)))))
    ensures saved.hslLum.Some? ==> (ApplyField(m, saved, HslLumField, env)
      == Ok(m.(settings := m.settings.(hsl := m.settings.hsl.(lum := saved.hslLum.value)))))
    ensures saved.hslHueOffset.Some? ==> (ApplyField(m, saved, HslHueOffsetField, env)
      == Ok(m.(settings := m.settings.(hsl := m.settings.hsl.(hueOffset := saved.hslHueOffset.value)))))
  {
    if saved.hslSaturation.Some? {
      assert ApplyField(m, saved, HslSaturationField, env)
        == Ok(m.(settings := m.settings.(hsl := m.settings.hsl.(saturation := saved.hslSaturation.value))));
    }
    if saved.hslLum.Some? {
      assert ApplyField(m, saved, HslLumField, env)
        == Ok(m.(settings := m.settings.(hsl := m.settings.hsl.(lum := saved.hslLum.value))));
    }
    if saved.hslHueOffset.Some? {
      assert ApplyField(m, saved, HslHueOffsetField, env)
        == Ok(m.(settings := m.settings.(hsl := m.settings.hsl.(hueOffset := saved.hslHueOffset.value))));
    }
  }

  /** An unknown fractal name fails the loading before anything else is applied. */
  lemma UnknownFractalFailsFirst(m: AppModel, saved: SavedState, filename: string, env: LoadEnv)
    requires saved.fracName.Some? && Fractals.GetFracIndexByName(saved.fracName.value).None?
    ensures Loaded(m, saved, filename, env) == m.(redrawCanvas := true, repaintCanvas := true,
      logMessages := Logging.Logged(m.logMessages, Logging.Error(LoadFailure(filename, INVALID_FRACTAL))))
  {
    assert ApplyField(m, saved, FracField, env) == Err(INVALID_FRACTAL);
    FirstBlockFails(m, saved, UNVERSIONED_FIELDS, env);
  }

  /** The same holds for the newer `apply`, after its version warning. */
  lemma UnknownFractalFailsFirstVersioned(m: AppModel, saved: SavedState, filename: string, version: string,
                                          warn: string -> string, env: LoadEnv)
    requires saved.fracName.Some? && Fractals.GetFracIndexByName(saved.fracName.value).None?
    ensures var r := LoadedVersioned(m, saved, filename, version, warn, env);
      r.settings == m.settings && r.logMessages[|r.logMessages| - 1] == Logging.Error(LoadFailure(filename, INVALID_FRACTAL))
  {
    var m0 := if WarnsAboutVersion(saved, version)
      then m.(logMessages := Logging.Logged(m.logMessages, warn(VersionWarning(saved)))) else m;
    assert ApplyField(m0, saved, FracField, env) == Err(INVALID_FRACTAL);
    FirstBlockFails(m0, saved, VERSIONED_FIELDS, env);
  }

  /** A failing first block is the result of the whole closure. */
  lemma FirstBlockFails(m: AppModel, saved: SavedState, fields: seq<Field>, env: LoadEnv)
    requires fields != [] && ApplyField(m, saved, fields[0], env).Err?
    ensures ApplyAll(m, saved, fields, env) == (m, Err(ApplyField(m, saved, fields[0], env).error))
  {
  }

  /** The newer `apply` warns first exactly when the file's version is missing or differs from the program's. */
  lemma VersionWarningIffMismatch(m: AppModel, saved: SavedState, filename: string, version: string,
                                  warn: string -> string, env: LoadEnv)
    requires |m.logMessages| + 2 <= Logging.LOG_MESSAGE_LIMIT
    requires env.shaderError.None?
    ensures var r := LoadedVersioned(m, saved, filename, version, warn, env);
      (WarnsAboutVersion(saved, version) <==> |r.logMessages| == |m.logMessages| + 2)
      && (WarnsAboutVersion(saved, version) ==> r.logMessages[|m.logMessages|] == warn(VersionWarning(saved)))
  {
    var warned := m.(logMessages := Logging.Logged(m.logMessages, warn(VersionWarning(saved))));
    var m0 := if WarnsAboutVersion(saved, version) then warned else m;
    FinishedAppendsOne(m0, saved, VERSIONED_FIELDS, filename, env);
  }

  /** Applying blocks without a shader error and finishing appends exactly one entry to a log with room. */
  lemma FinishedAppendsOne(m0: AppModel, saved: SavedState, fields: seq<Field>, filename: string, env: LoadEnv)
    requires |m0.logMessages| < Logging.LOG_MESSAGE_LIMIT
    requires env.shaderError.None?
    ensures var r := Finished(ApplyAll(m0, saved, fields, env).0, ApplyAll(m0, saved, fields, env).1, filename, env);
      r.logMessages == m0.logMessages + [r.logMessages[|r.logMessages| - 1]]
  {
    ApplyAllKeepsLog(m0, saved, fields, env);
  }

  /** Without a shader error no block writes to the log. */
  lemma {:induction false} ApplyAllKeepsLog(m: AppModel, saved: SavedState, fields: seq<Field>, env: LoadEnv)
    requires env.shaderError.None?
    ensures ApplyAll(m, saved, fields, env).0.logMessages == m.logMessages
    decreases |fields|
  {
    if fields != [] {
      match ApplyField(m, saved, fields[0], env)
      case Err(e) =>
      case Ok(m1) =>
        FieldKeepsLog(m, saved, fields[0], env);
        ApplyAllKeepsLog(m1, saved, fields[1..], env);
    }
  }

  /** One block without a shader error leaves the log alone. */
  lemma FieldKeepsLog(m: AppModel, saved: SavedState, f: Field, env: LoadEnv)
    requires env.shaderError.None?
    ensures ApplyField(m, saved, f, env).Ok? ==> ApplyField(m, saved, f, env).value.logMessages == m.logMessages
  {
    if f.FracField? && saved.fracName.Some? {
      match Fractals.GetFracIndexByName(saved.fracName.value)
      case None =>
      case Some(i) =>
        assert WithFractalSelected(m.settings, i, env.shaderError).1.Ok?;
    }
  }

  // ------------------------------------------------------------ snapshots

  /**
   * `SavedState::from`: the settings worth saving, with numbers and complex
   * values printed by `show` and `showReal` (`to_string` of `rug` values).
   * The version, smoothness, bailout and HSL fields are not written.
   */
  function Snapshot(s: Settings, show: Complex -> string, showReal: real -> string): (saved: SavedState)
    requires s.fracIndex < |Fractals.FRACTALS| && s.paletteIndex < |Palettes.COLORS| && s.voidFillIndex < |AllVoidFills()|
    ensures saved.version.None? && saved.smoothness.None? && saved.bailout.None? && saved.hslMode.None?
  {
    SavedState(
      Some(Fractals.FRACTALS[s.fracIndex].name), Some(Palettes.COLORS[s.paletteIndex].name), Some(s.colorSchemeOffset),
      Some(show(s.pos)), Some(showReal(PlaneWid(s))), Some(s.prec), Some(s.maxIter),
      Some(AllVoidFills()[s.voidFillIndex]), Some(show(s.juliaConstant)), Some(show(s.mandelConstant)),
      None, None, None, None, None, None, None, None)
  }

  /** Parsing gives back what printing wrote, and the cell size for the saved width is the saved cell size. */
  predicate ReadsBack(env: LoadEnv, s: Settings, show: Complex -> string, showReal: real -> string)
  {
    env.shaderError.None?
    && env.parseComplex(show(s.pos)) == Ok(s.pos)
    && env.parseComplex(show(s.mandelConstant)) == Ok(s.mandelConstant)
    && env.parseComplex(show(s.juliaConstant)) == Ok(s.juliaConstant)
    && env.parseFloat(showReal(PlaneWid(s))) == Ok(PlaneWid(s))
    && env.cellForWidth(PlaneWid(s)) == s.cellSize
  }

  /** A block that succeeds is followed by the rest. */
  lemma ApplyAllCons(m: AppModel, saved: SavedState, fields: seq<Field>, env: LoadEnv)
    requires fields != [] && ApplyField(m, saved, fields[0], env).Ok?
    ensures ApplyAll(m, saved, fields, env) == ApplyAll(ApplyField(m, saved, fields[0], env).value, saved, fields[1..], env)
  {
  }

  /** A block at position `i` that succeeds hands its state on to the blocks after it. */
  lemma ApplyAllStep(m: AppModel, m': AppModel, saved: SavedState, fields: seq<Field>, i: nat, env: LoadEnv)
    requires i < |fields| && ApplyField(m, saved, fields[i], env) == Ok(m')
    ensures ApplyAll(m, saved, fields[i..], env) == ApplyAll(m', saved, fields[i + 1..], env)
  {
    assert fields[i..][0] == fields[i] && fields[i..][1..] == fields[i + 1..];
    ApplyAllCons(m, saved, fields[i..], env);
  }

  /** The state after the first four blocks of a snapshot. */
  function HeadRestored(m: AppModel, s: Settings): AppModel
  {
    var t := m.settings.(fracIndex := s.fracIndex, paletteIndex := s.paletteIndex, colorSchemeOffset := s.colorSchemeOffset);
    m.(settings := WithDecimalPrec(t, s.prec), redrawCanvas := true, repaintCanvas := true)
  }


  /** The fractal and palette blocks on a snapshot: both names are found again. */
  lemma SnapshotNames(m: AppModel, s: Settings, saved: SavedState, env: LoadEnv)
    requires s.fracIndex < |Fractals.FRACTALS| && s.paletteIndex < |Palettes.COLORS| && env.shaderError.None?
    requires saved.fracName == Some(Fractals.FRACTALS[s.fracIndex].name)
    requires saved.colorPaletteName == Some(Palettes.COLORS[s.paletteIndex].name)
    ensures ApplyAll(m, saved, UNVERSIONED_FIELDS, env)
         == ApplyAll(m.(settings := m.settings.(fracIndex := s.fracIndex, paletteIndex := s.paletteIndex)),
                     saved, UNVERSIONED_FIELDS[2..], env)
  {
    var fs := UNVERSIONED_FIELDS;
    Fractals.GetFracIndexByOwnName(s.fracIndex, Fractals.FRACTALS[s.fracIndex].name);
    Colors.GetPaletteIndexByOwnName(s.paletteIndex);
    var m1 := m.(settings := m.settings.(fracIndex := s.fracIndex));
    var m2 := m1.(settings := m1.settings.(paletteIndex := s.paletteIndex));
    assert ApplyField(m, saved, FracField, env) == Ok(m1) by {
      assert WithFractalSelected(m.settings, s.fracIndex, env.shaderError).1.Ok?;
    }
    ApplyAllStep(m, m1, saved, fs, 0, env);
    assert ApplyField(m1, saved, PaletteField, env) == Ok(m2);
    ApplyAllStep(m1, m2, saved, fs, 1, env);
    assert fs[0..] == fs;
  }

  /** The offset and precision blocks on a snapshot. */
  lemma SnapshotPrecision(m: AppModel, s: Settings, saved: SavedState, env: LoadEnv)
    requires saved.paletteOffset == Some(s.colorSchemeOffset) && saved.precision == Some(s.prec)
    ensures ApplyAll(m.(settings := m.settings.(fracIndex := s.fracIndex, paletteIndex := s.paletteIndex)),
                     saved, UNVERSIONED_FIELDS[2..], env)
         == ApplyAll(HeadRestored(m, s), saved, UNVERSIONED_FIELDS[4..], env)
  {
    var fs := UNVERSIONED_FIELDS;
    var m2 := m.(settings := m.settings.(fracIndex := s.fracIndex, paletteIndex := s.paletteIndex));
    var m3 := m2.(settings := m2.settings.(colorSchemeOffset := s.colorSchemeOffset));
    assert ApplyField(m2, saved, OffsetField, env) == Ok(m3);
    ApplyAllStep(m2, m3, saved, fs, 2, env);
    assert ApplyField(m3, saved, PrecisionField, env) == Ok(HeadRestored(m, s));
    ApplyAllStep(m3, HeadRestored(m, s), saved, fs, 3, env);
  }

  /** The smoothness and position blocks on a snapshot. */
  lemma SnapshotPosition(k: AppModel, s: Settings, saved: SavedState, show: Complex -> string, env: LoadEnv)
    requires saved.smoothness.None?
    requires saved.pos == Some(show(s.pos)) && env.parseComplex(show(s.pos)) == Ok(s.pos)
    ensures ApplyAll(k, saved, UNVERSIONED_FIELDS[4..], env)
         == ApplyAll(k.(settings := k.settings.(pos := s.pos)), saved, UNVERSIONED_FIELDS[6..], env)
  {
    var fs := UNVERSIONED_FIELDS;
    var k1 := k.(settings := k.settings.(pos := s.pos));
    assert ApplyField(k, saved, SmoothnessField, env) == Ok(k);
    ApplyAllStep(k, k, saved, fs, 4, env);
    assert ApplyField(k, saved, PosField, env) == Ok(k1);
    ApplyAllStep(k, k1, saved, fs, 5, env);
  }

  /** The two constant blocks and the bailout block on a snapshot. */
  lemma SnapshotConstants(k: AppModel, s: Settings, saved: SavedState, show: Complex -> string, env: LoadEnv)
    requires saved.bailout.None?
    requires saved.mandelConstant == Some(show(s.mandelConstant)) && env.parseComplex(show(s.mandelConstant)) == Ok(s.mandelConstant)
    requires saved.juliaConstant == Some(show(s.juliaConstant)) && env.parseComplex(show(s.juliaConstant)) == Ok(s.juliaConstant)
    ensures ApplyAll(k, saved, UNVERSIONED_FIELDS[6..], env)
         == ApplyAll(k.(settings := k.settings.(mandelConstant := s.mandelConstant, juliaConstant := s.juliaConstant)),
                     saved, UNVERSIONED_FIELDS[9..], env)
  {
    var fs := UNVERSIONED_FIELDS;
    var k2 := k.(settings := k.settings.(mandelConstant := s.mandelConstant));
    var k3 := k2.(settings := k2.settings.(juliaConstant := s.juliaConstant));
    MandelBlockRestores(k, s, saved, show, env);
    ApplyAllStep(k, k2, saved, fs, 6, env);
    JuliaBlockRestores(k2, s, saved, show, env);
    ApplyAllStep(k2, k3, saved, fs, 7, env);
    assert ApplyField(k3, saved, BailoutField, env) == Ok(k3);
    ApplyAllStep(k3, k3, saved, fs, 8, env);
  }

  lemma MandelBlockRestores(k: AppModel, s: Settings, saved: SavedState, show: Complex -> string, env: LoadEnv)
    requires saved.mandelConstant == Some(show(s.mandelConstant)) && env.parseComplex(show(s.mandelConstant)) == Ok(s.mandelConstant)
    ensures ApplyField(k, saved, MandelField, env) == Ok(k.(settings := k.settings.(mandelConstant := s.mandelConstant)))
  {
  }

  lemma JuliaBlockRestores(k: AppModel, s: Settings, saved: SavedState, show: Complex -> string, env: LoadEnv)
    requires saved.juliaConstant == Some(show(s.juliaConstant)) && env.parseComplex(show(s.juliaConstant)) == Ok(s.juliaConstant)
    ensures ApplyField(k, saved, JuliaField, env) == Ok(k.(settings := k.settings.(juliaConstant := s.juliaConstant)))
  {
  }

  /** The width, iteration limit and void fill blocks on a snapshot. */
  lemma SnapshotLast(k: AppModel, s: Settings, saved: SavedState, showReal: real -> string, env: LoadEnv)
    requires s.voidFillIndex < |AllVoidFills()|
    requires saved.complexWidth == Some(showReal(PlaneWid(s))) && env.parseFloat(showReal(PlaneWid(s))) == Ok(PlaneWid(s))
    requires env.cellForWidth(PlaneWid(s)) == s.cellSize
    requires saved.maxIter == Some(s.maxIter) && saved.voidFill == Some(AllVoidFills()[s.voidFillIndex])
    ensures ApplyAll(k, saved, UNVERSIONED_FIELDS[9..], env)
         == (k.(settings := k.settings.(cellSize := s.cellSize, maxIter := s.maxIter, voidFillIndex := s.voidFillIndex)), Ok(()))
  {
    var k1 := k.(settings := k.settings.(cellSize := s.cellSize));
    SnapshotWidth(k, s, saved, showReal, env);
    SnapshotIterAndFill(k1, s, saved, env);
  }

  /** The width block on a snapshot: the cell size comes back through the plane width. */
  lemma SnapshotWidth(k: AppModel, s: Settings, saved: SavedState, showReal: real -> string, env: LoadEnv)
    requires saved.complexWidth == Some(showReal(PlaneWid(s))) && env.parseFloat(showReal(PlaneWid(s))) == Ok(PlaneWid(s))
    requires env.cellForWidth(PlaneWid(s)) == s.cellSize
    ensures ApplyAll(k, saved, UNVERSIONED_FIELDS[9..], env)
         == ApplyAll(k.(settings := k.settings.(cellSize := s.cellSize)), saved, UNVERSIONED_FIELDS[10..], env)
  {
    var fs := UNVERSIONED_FIELDS;
    var k1 := k.(settings := k.settings.(cellSize := s.cellSize));
    assert ApplyField(k, saved, WidthField, env) == Ok(k1);
    ApplyAllStep(k, k1, saved, fs, 9, env);
  }

  /** The iteration limit and void fill blocks on a snapshot, the last two. */
  lemma SnapshotIterAndFill(k: AppModel, s: Settings, saved: SavedState, env: LoadEnv)
    requires s.voidFillIndex < |AllVoidFills()|
    requires saved.maxIter == Some(s.maxIter) && saved.voidFill == Some(AllVoidFills()[s.voidFillIndex])
    ensures ApplyAll(k, saved, UNVERSIONED_FIELDS[10..], env)
         == (k.(settings := k.settings.(maxIter := s.maxIter, voidFillIndex := s.voidFillIndex)), Ok(()))
  {
    var fs := UNVERSIONED_FIELDS;
    var k2 := k.(settings := k.settings.(maxIter := s.maxIter));
    var k3 := k2.(settings := k2.settings.(voidFillIndex := s.voidFillIndex));
    assert ApplyField(k, saved, MaxIterField, env) == Ok(k2);
    ApplyAllStep(k, k2, saved, fs, 10, env);
    VoidFillBlockRestores(k2, s, saved, env);
    ApplyAllStep(k2, k3, saved, fs, 11, env);
    assert fs[12..] == [];
  }

  lemma VoidFillBlockRestores(k: AppModel, s: Settings, saved: SavedState, env: LoadEnv)
    requires s.voidFillIndex < |AllVoidFills()| && saved.voidFill == Some(AllVoidFills()[s.voidFillIndex])
    ensures ApplyField(k, saved, VoidFillField, env) == Ok(k.(settings := k.settings.(voidFillIndex := s.voidFillIndex)))
  {
    IndexOfIsInverse(s.voidFillIndex);
  }

  /**
   * Saving then loading: a file written from settings `s` loads without an
   * error and restores the fractal, the palette and its offset, the
   * position, both constants, the cell size, the iteration limit and the
   * void fill; the precision comes back too when it lies in the bounds
   * `set_decimal_prec` enforces. The smoothness, bailout and HSL settings are
   * not saved and stay as they were, and the log is untouched.
   */
  lemma SaveThenLoadRestores(m: AppModel, s: Settings, show: Complex -> string, showReal: real -> string, env: LoadEnv)
    requires s.fracIndex < |Fractals.FRACTALS| && s.paletteIndex < |Palettes.COLORS| && s.voidFillIndex < |AllVoidFills()|
    requires ReadsBack(env, s, show, showReal)
    ensures var (r, res) := ApplyAll(m, Snapshot(s, show, showReal), UNVERSIONED_FIELDS, env);
      res.Ok?
      && r.settings.fracIndex == s.fracIndex && r.settings.paletteIndex == s.paletteIndex
      && r.settings.colorSchemeOffset == s.colorSchemeOffset && r.settings.pos == s.pos
      && r.settings.mandelConstant == s.mandelConstant && r.settings.juliaConstant == s.juliaConstant
      && r.settings.cellSize == s.cellSize && r.settings.maxIter == s.maxIter
      && r.settings.voidFillIndex == s.voidFillIndex
      && (Bounds.MIN_DECIMAL_PREC <= s.prec <= Bounds.MAX_DECIMAL_PREC ==> r.settings.prec == s.prec)
      && r.settings.smoothness == m.settings.smoothness && r.settings.bailout == m.settings.bailout
      && r.settings.hsl == m.settings.hsl && r.logMessages == m.logMessages
  {
    var saved := Snapshot(s, show, showReal);
    SnapshotNames(m, s, saved, env);
    SnapshotPrecision(m, s, saved, env);
    var h := HeadRestored(m, s);
    SnapshotPosition(h, s, saved, show, env);
    var p := h.(settings := h.settings.(pos := s.pos));
    SnapshotConstants(p, s, saved, show, env);
    var k := h.(settings := h.settings.(pos := s.pos, mandelConstant := s.mandelConstant, juliaConstant := s.juliaConstant));
    assert k == p.(settings := p.settings.(mandelConstant := s.mandelConstant, juliaConstant := s.juliaConstant));
    SnapshotLast(k, s, saved, showReal, env);
  }

  // ------------------------------------------------------------- the state

  /** `m1` and `res` are what block `f` makes of `m0`. */
  predicate Performs(m0: AppModel, m1: AppModel, res: Result<(), string>, saved: SavedState, f: Field, env: LoadEnv)
  {
    Performed(m0, m1, res, ApplyField(m0, saved, f, env))
  }

  /** `m1` and `res` are the outcome `r` of a block run on `m0`. */
  predicate Performed(m0: AppModel, m1: AppModel, res: Result<(), string>, r: Result<AppModel, string>)
  {
    match r
    case Ok(m) => res.Ok? && m1 == m
    case Err(e) => res == Err(e) && m1 == m0
  }

  /** One block of `apply` on the application state. */
  method ApplyFieldTo(st: AppState, saved: SavedState, f: Field, env: LoadEnv) returns (res: Result<(), string>)
    modifies st, st.renderSettings
    ensures Performs(old(st.Model()), st.Model(), res, saved, f, env)
  {
    match f
    case FracField => res := ApplyFracTo(st, saved, env);
    case PaletteField => res := ApplyPaletteTo(st, saved);
    case VoidFillField => res := ApplyVoidFillTo(st, saved);
    case PrecisionField =>
      ApplyPrecisionTo(st, saved);
      res := Ok(());
    case PosField => res := ApplyComplexTo(st, saved, f, env);
    case MandelField => res := ApplyComplexTo(st, saved, f, env);
    case JuliaField => res := ApplyComplexTo(st, saved, f, env);
    case WidthField => res := ApplyWidthTo(st, saved, env);
    case _ => res := ApplyCopiedTo(st, saved, f, env);
  }

  /** The blocks that copy a present number or HSL value into the render settings. */
  method ApplyCopiedTo(st: AppState, saved: SavedState, f: Field, env: LoadEnv) returns (res: Result<(), string>)
    requires f.OffsetField? || f.SmoothnessField? || f.BailoutField? || f.MaxIterField? || f.HslModeField?
          || f.HslSmoothnessField? || f.HslSaturationField? || f.HslLumField? || f.HslHueOffsetField?
    modifies st.renderSettings
    ensures Performs(old(st.Model()), st.Model(), res, saved, f, env)
  {
    if f.OffsetField? || f.SmoothnessField? || f.BailoutField? || f.MaxIterField? {
      ApplyNumberTo(st.renderSettings, saved, f);
    } else {
      ApplyHslTo(st.renderSettings, saved, f);
    }
    res := Ok(());
  }

  /** The precision block: a present precision is set, clamped, and a redraw requested. */
  method ApplyPrecisionTo(st: AppState, saved: SavedState)
    modifies st, st.renderSettings
    ensures st.Model() == PrecisionApplied(old(st.Model()), saved)
  {
    if saved.precision.Some? {
      st.SetDecimalPrec(saved.precision.value);
    }
  }

  /** The fractal block: the name is looked up, the fractal selected and the outcome handled. */
  method ApplyFracTo(st: AppState, saved: SavedState, env: LoadEnv) returns (res: Result<(), string>)
    modifies st, st.renderSettings
    ensures Performed(old(st.Model()), st.Model(), res, FracApplied(old(st.Model()), saved, env))
  {
    res := Ok(());
    if saved.fracName.Some? {
      var i := Fractals.GetFracIndexByName(saved.fracName.value);
      if i.None? {
        return Err(INVALID_FRACTAL);
      }
      SelectFractalTo(st, i.value, env);
    }
  }

  /** `select_fractal` on the render settings, its outcome handed to `handle_res`. */
  method SelectFractalTo(st: AppState, i: nat, env: LoadEnv)
    modifies st, st.renderSettings
    ensures st.Model() == FractalSelected(old(st.Model()), i, env)
  {
    var r := st.renderSettings.SelectFractal(i, env.shaderError);
    st.HandleRes(r);
  }

  /** The palette block: the name looked up in the palette list. */
  method ApplyPaletteTo(st: AppState, saved: SavedState) returns (res: Result<(), string>)
    modifies st.renderSettings
    ensures Performed(old(st.Model()), st.Model(), res, PaletteApplied(old(st.Model()), saved))
  {
    res := Ok(());
    if saved.colorPaletteName.Some? {
      var i := Colors.GetPaletteIndexByName(saved.colorPaletteName.value);
      if i.None? {
        return Err(INVALID_PALETTE);
      }
      st.renderSettings.paletteIndex := i.value;
    }
  }

  /** The void fill block: the variant's position in `void_fills()`. */
  method ApplyVoidFillTo(st: AppState, saved: SavedState) returns (res: Result<(), string>)
    modifies st.renderSettings
    ensures Performed(old(st.Model()), st.Model(), res, VoidFillApplied(old(st.Model()), saved))
  {
    res := Ok(());
    if saved.voidFill.Some? {
      var i := FindFirst(AllVoidFills(), (vf: VoidFill) => vf == saved.voidFill.value);
      if i.None? {
        return Err(INVALID_VOID_FILL);
      }
      st.renderSettings.voidFillIndex := i.value;
    }
  }

  /** The width block: the plane width parsed, the cell size set from it. */
  method ApplyWidthTo(st: AppState, saved: SavedState, env: LoadEnv) returns (res: Result<(), string>)
    modifies st.renderSettings
    ensures Performed(old(st.Model()), st.Model(), res, WidthApplied(old(st.Model()), saved, env))
  {
    res := Ok(());
    if saved.complexWidth.Some? {
      var w := env.parseFloat(saved.complexWidth.value);
      if w.Err? {
        return Err("Invalid canvas width: " + Detail(env, w.error));
      }
      st.renderSettings.cellSize := env.cellForWidth(w.value);
    }
  }

  /** The position and constant blocks: a complex value parsed from text, or the parser's error. */
  method ApplyComplexTo(st: AppState, saved: SavedState, f: Field, env: LoadEnv) returns (res: Result<(), string>)
    requires f.PosField? || f.MandelField? || f.JuliaField?
    modifies st.renderSettings
    ensures Performed(old(st.Model()), st.Model(), res, ComplexApplied(old(st.Model()), saved, f, env))
  {
    ghost var m0 := st.Model();
    var rs := st.renderSettings;
    res := Ok(());
    match f {
      case PosField =>
        if saved.pos.Some? {
          var c := ParsedComplex(env, saved.pos.value, "Invalid canvas position: ");
          if c.Err? {
            return Err(c.error);
          }
          rs.pos := c.value;
          assert st.Model() == m0.(settings := m0.settings.(pos := c.value));
        }
      case MandelField =>
        if saved.mandelConstant.Some? {
          var c := ParsedComplex(env, saved.mandelConstant.value, "Invalid mandelbrot constant: ");
          if c.Err? {
            return Err(c.error);
          }
          rs.mandelConstant := c.value;
          assert st.Model() == m0.(settings := m0.settings.(mandelConstant := c.value));
        }
      case JuliaField =>
        if saved.juliaConstant.Some? {
          var c := ParsedComplex(env, saved.juliaConstant.value, "Invalid julia constant: ");
          if c.Err? {
            return Err(c.error);
          }
          rs.juliaConstant := c.value;
          assert st.Model() == m0.(settings := m0.settings.(juliaConstant := c.value));
        }
    }
  }

  /** The offset, smoothness, bailout and iteration limit blocks: the value copied. */
  method ApplyNumberTo(rs: RenderSettings, saved: SavedState, f: Field)
    modifies rs
    ensures rs.Model() == NumberCopied(old(rs.Model()), saved, f)
  {
    match f {
      case OffsetField =>
        if saved.paletteOffset.Some? {
          rs.colorSchemeOffset := saved.paletteOffset.value;
        }
      case SmoothnessField =>
        if saved.smoothness.Some? {
          rs.smoothness := saved.smoothness.value;
        }
      case BailoutField =>
        if saved.bailout.Some? {
          rs.bailout := saved.bailout.value;
        }
      case MaxIterField =>
        if saved.maxIter.Some? {
          rs.maxIter := saved.maxIter.value;
        }
      case _ =>
    }
  }

  /** The HSL mode and number blocks: the value copied into the HSL settings. */
  method ApplyHslTo(rs: RenderSettings, saved: SavedState, f: Field)
    modifies rs
    ensures rs.Model() == HslCopied(old(rs.Model()), saved, f)
  {
    match f {
      case HslModeField =>
        if saved.hslMode.Some? {
          rs.hsl := rs.hsl.(enabled := saved.hslMode.value);
        }
      case HslSmoothnessField =>
        if saved.hslSmoothness.Some? {
          rs.hsl := rs.hsl.(smoothness := saved.hslSmoothness.value);
        }
      case HslSaturationField =>
        if saved.hslSaturation.Some? {
          rs.hsl := rs.hsl.(saturation := saved.hslSaturation.value);
        }
      case HslLumField =>
        if saved.hslLum.Some? {
          rs.hsl := rs.hsl.(lum := saved.hslLum.value);
        }
      case HslHueOffsetField =>
        if saved.hslHueOffset.Some? {
          rs.hsl := rs.hsl.(hueOffset := saved.hslHueOffset.value);
        }
      case _ =>
    }
  }

  /** The closure of `apply`: the blocks in order, returning at the first error. */
  method ApplyFieldsTo(st: AppState, saved: SavedState, fields: seq<Field>, env: LoadEnv) returns (res: Result<(), string>)
    modifies st, st.renderSettings
    ensures (st.Model(), res) == ApplyAll(old(st.Model()), saved, fields, env)
  {
    var i := 0;
    while i < |fields|
      invariant 0 <= i <= |fields|
      invariant ApplyAll(old(st.Model()), saved, fields, env) == ApplyAll(st.Model(), saved, fields[i..], env)
    {
      ghost var before := st.Model();
      var r := ApplyFieldTo(st, saved, fields[i], env);
      assert Performs(before, st.Model(), r, saved, fields[i], env);
      assert fields[i..][0] == fields[i] && fields[i..][1..] == fields[i + 1..];
      if r.Err? {
        assert ApplyAll(before, saved, fields[i..], env) == (before, r);
        return r;
      }
      i := i + 1;
    }
    return Ok(());
  }

  /** The end of `apply`: a redraw, then the outcome in the log. */
  method FinishLoading(st: AppState, res: Result<(), string>, filename: string, env: LoadEnv)
    modifies st
    ensures st.Model() == Finished(old(st.Model()), res, filename, env)
  {
    st.RequestRedraw();
    match res
    case Err(err) => st.LogError(LoadFailure(filename, err));
    case Ok(_) => st.LogSuccess(LoadSuccess(Detail(env, filename)));
  }

  /** `apply` of src/app_state/mod.rs; its error details are not escaped. */
  method Apply(st: AppState, saved: SavedState, filename: string, env: LoadEnv)
    requires !env.escapeErrors
    modifies st, st.renderSettings
    ensures st.Model() == Loaded(old(st.Model()), saved, filename, env)
  {
    var res := ApplyFieldsTo(st, saved, UNVERSIONED_FIELDS, env);
    FinishLoading(st, res, filename, env);
  }

  /** `apply` of src/app_state/state_loading.rs: the version check first, error details escaped. */
  method ApplyVersioned(st: AppState, saved: SavedState, filename: string, version: string,
                        warn: string -> string, env: LoadEnv)
    requires env.escapeErrors
    modifies st, st.renderSettings
    ensures st.Model() == LoadedVersioned(old(st.Model()), saved, filename, version, warn, env)
  {
    ghost var m := st.Model();
    if saved.version.None? || saved.version.value != version {
      st.LogRaw(warn(VersionWarning(saved)));
    }
    ghost var m0 := st.Model();
    assert m0 == if WarnsAboutVersion(saved, version)
      then m.(logMessages := Logging.Logged(m.logMessages, warn(VersionWarning(saved)))) else m;
    var res := ApplyFieldsTo(st, saved, VERSIONED_FIELDS, env);
    ghost var m1 := st.Model();
    FinishLoading(st, res, filename, env);
    assert st.Model() == Finished(m1, res, filename, env);
  }
}
