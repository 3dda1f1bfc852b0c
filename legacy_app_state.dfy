// The older logic state of the application (src/app/app_state.rs): the
// record the older components update, with its bounded precision and
// iteration updates, the zoom driven by the scaling factor, the capped log
// with its formatters, and the palette lookup.
module LegacyAppStates {
  import opened Base
  import opened Vec2s
  import opened Focuses
  import opened AppStats
  import opened Zooming
  import opened LegacyRender
  import Palettes
  import Logging
  import Bounds
  import FracLogic

  /**
   * The values of the older `AppState` that its methods read or write. The
   * scroll state, the command input, the marker and the queued captures are
   * not modelled.
   */
  datatype LegacyAppModel = LegacyAppModel(
    redrawCanvas: bool,
    stats: Stats,
    focused: Focus,
    quit: bool,
    logMessages: seq<string>,
    moveDist: int,
    scalingFactor: int,
    paletteIndex: nat,
    colorSchemeOffset: int,
    voidFillIndex: nat,
    settings: LegacySettings)

  /** `AppState::default()`: scaling factor 20, move distance 8, the first palette, a redraw pending. */
  const DEFAULT_LEGACY_APP_MODEL: LegacyAppModel :=
    LegacyAppModel(true, DEFAULT_STATS, DEFAULT_FOCUS, false, [], 8, 20, 0, 0, 0, DEFAULT_LEGACY_SETTINGS)

  // ------------------------------------------------------ bounded updates

  /** `increment_max_iter`: a saturating `i32` add, then `MIN_MAX_ITER.max(MAX_MAX_ITER.min(v))`. */
  function MaxIterIncremented(s: LegacySettings, increment: int): (r: LegacySettings)
  {
    s.(maxIter := Max(Bounds.MIN_MAX_ITER, Min(Bounds.MAX_MAX_ITER, SaturateI32(s.maxIter + increment))))
  }

  /** `increment_decimal_prec`: a saturating signed add on the `u32`, then `MAX.min(MIN.max(v))`. */
  function DecimalPrecIncremented(s: LegacySettings, increment: int): (r: LegacySettings)
  {
    s.(prec := Min(Bounds.MAX_DECIMAL_PREC, Max(Bounds.MIN_DECIMAL_PREC, SaturatingAddSignedU32(s.prec, increment))))
  }

  /**
   * The iteration limit lands in [MIN_MAX_ITER, MAX_MAX_ITER]: an in-bounds
   * sum is kept exactly, a sum below or above the bounds becomes the nearer
   * bound, and nothing but the limit changes.
   */
  lemma MaxIterIncrementedBounds(s: LegacySettings, increment: int)
    ensures var r := MaxIterIncremented(s, increment);
      && r == s.(maxIter := r.maxIter)
      && Bounds.MIN_MAX_ITER <= r.maxIter <= Bounds.MAX_MAX_ITER
      && (Bounds.MIN_MAX_ITER <= s.maxIter + increment <= Bounds.MAX_MAX_ITER ==> r.maxIter == s.maxIter + increment)
      && (s.maxIter + increment < Bounds.MIN_MAX_ITER ==> r.maxIter == Bounds.MIN_MAX_ITER)
      && (s.maxIter + increment > Bounds.MAX_MAX_ITER ==> r.maxIter == Bounds.MAX_MAX_ITER)
  {
    var x := s.maxIter + increment;
    if x < Bounds.MIN_MAX_ITER {
      assert SaturateI32(x) < Bounds.MIN_MAX_ITER;
    } else if x > Bounds.MAX_MAX_ITER {
      assert SaturateI32(x) > Bounds.MAX_MAX_ITER;
    } else {
      assert SaturateI32(x) == x;
    }
  }

  /**
   * The precision lands in [MIN_DECIMAL_PREC, MAX_DECIMAL_PREC]: an in-bounds
   * sum is kept exactly, any other sum becomes the nearer bound, and nothing
   * but the precision changes.
   */
  lemma DecimalPrecIncrementedBounds(s: LegacySettings, increment: int)
    ensures var r := DecimalPrecIncremented(s, increment);
      && r == s.(prec := r.prec)
      && Bounds.MIN_DECIMAL_PREC <= r.prec <= Bounds.MAX_DECIMAL_PREC
      && (Bounds.MIN_DECIMAL_PREC <= s.prec + increment <= Bounds.MAX_DECIMAL_PREC ==> r.prec == s.prec + increment)
      && (s.prec + increment < Bounds.MIN_DECIMAL_PREC ==> r.prec == Bounds.MIN_DECIMAL_PREC)
      && (s.prec + increment > Bounds.MAX_DECIMAL_PREC ==> r.prec == Bounds.MAX_DECIMAL_PREC)
  {
    var x := s.prec + increment;
    if x < Bounds.MIN_DECIMAL_PREC {
      assert SaturatingAddSignedU32(s.prec, increment) < Bounds.MIN_DECIMAL_PREC;
    } else if x > Bounds.MAX_DECIMAL_PREC {
      assert SaturatingAddSignedU32(s.prec, increment) > Bounds.MAX_DECIMAL_PREC;
    } else {
      assert SaturatingAddSignedU32(s.prec, increment) == x;
    }
  }

  /** Both revisions bound the iteration limit and the precision the same way. */
  lemma IncrementsAgreeWithNewer(s: LegacySettings, t: FracLogic.Settings, increment: int)
    requires s.maxIter == t.maxIter && s.prec == t.prec
    ensures MaxIterIncremented(s, increment).maxIter == FracLogic.WithMaxIterIncremented(t, increment).maxIter
    ensures DecimalPrecIncremented(s, increment).prec
      == FracLogic.WithDecimalPrec(t, SaturatingAddSignedU32(t.prec, increment)).prec
  {
  }

  // ------------------------------------------------------------- zooming

  /**
   * `render_settings.coord_to_c(coords)`, which the older `RenderSettings`
   * of this revision does not define itself: the affine map
   * `pos + (x·cell_size, y·cell_size)` every other revision uses.
   */
  function LegacyCoordToC(s: LegacySettings, coords: Vec2<int>): Complex
  {
    CanvasPoint(s.pos, s.cellSize, coords)
  }

  /** `1 + scaling_factor / 100`. */
  function ScalingFactor(scalingFactor: int): real
  {
    1.0 + scalingFactor as real / 100.0
  }

  /** The state after `zoom(d)`. */
  function LegacyZoomed(m: LegacyAppModel, d: ZoomDirection): LegacyAppModel
    requires m.scalingFactor > -100
  {
    m.(settings := m.settings.(cellSize := ZoomedCellSize(m.settings.cellSize, d, ScalingFactor(m.scalingFactor))))
  }

  /** The state after `zoom_at(coords, d)`. */
  function LegacyZoomedAt(m: LegacyAppModel, coords: Vec2<int>, d: ZoomDirection): LegacyAppModel
    requires m.scalingFactor > -100
  {
    var cell := ZoomedCellSize(m.settings.cellSize, d, ScalingFactor(m.scalingFactor));
    m.(settings := m.settings.(cellSize := cell, pos := PivotedPos(m.settings.pos, m.settings.cellSize, cell, coords)))
  }

  /** Zooming in then out (or out then in) with the same scaling factor restores the state. */
  lemma LegacyZoomInverses(m: LegacyAppModel)
    requires m.scalingFactor > -100
    ensures LegacyZoomed(LegacyZoomed(m, In), Out) == m
    ensures LegacyZoomed(LegacyZoomed(m, Out), In) == m
  {
    ZoomInverses(m.settings.cellSize, ScalingFactor(m.scalingFactor));
  }

  /** `zoom_at` keeps the pivot's complex coordinate, zooms like `zoom`, and at the origin is `zoom`. */
  lemma LegacyZoomAtKeepsPivot(m: LegacyAppModel, coords: Vec2<int>, d: ZoomDirection)
    requires m.scalingFactor > -100
    ensures LegacyCoordToC(LegacyZoomedAt(m, coords, d).settings, coords) == LegacyCoordToC(m.settings, coords)
    ensures LegacyZoomedAt(m, coords, d).settings.cellSize == LegacyZoomed(m, d).settings.cellSize
    ensures LegacyZoomedAt(m, Vec2(0, 0), d) == LegacyZoomed(m, d)
  {
    var cell := ZoomedCellSize(m.settings.cellSize, d, ScalingFactor(m.scalingFactor));
    PivotStaysFixed(m.settings.pos, m.settings.cellSize, cell, coords);
    PivotAtOriginKeepsPos(m.settings.pos, m.settings.cellSize, cell);
  }

  // ---------------------------------------------------- welcome message

  /**
   * The greeting's tail as src/app/app_state.rs spells it: the author's name
   * carries the two characters U+00C3 U+00A9 where the other revisions have
   * the single character U+00E9.
   */
  const AS_WRITTEN_WELCOME_SUFFIX: string :=
    Logging.AUTHOR_LEAD + "L\U{00C3}\U{00A9}opold" + Logging.AUTHOR_TAIL

  /** `initial_message` of src/app/app_state.rs as written. */
  function AsWrittenInitialMessages(version: string): (ms: seq<string>)
    ensures |ms| == 3
  {
    [Logging.WELCOME_PREFIX + version + AS_WRITTEN_WELCOME_SUFFIX, Logging.SLOW_RENDERING_HINT, Logging.NAVIGATION_HINT]
  }

  /** Where the author's name starts in the greeting, after the version. */
  function NameStart(version: string): nat
  {
    |Logging.WELCOME_PREFIX| + |version| + 15
  }

  /** The two-byte UTF-8 encoding of a code point in [0x80, 0x800). */
  function Utf8TwoBytes(c: nat): (bytes: seq<nat>)
    requires 0x80 <= c < 0x800
    ensures |bytes| == 2 && 0xC0 <= bytes[0] < 0xE0 && 0x80 <= bytes[1] < 0xC0
  {
    [0xC0 + c / 64, 0x80 + c % 64]
  }

  /** A slice of a greeting past its first two parts is a slice of its tail. */
  lemma GreetingSlice(prefix: string, version: string, suffix: string, i: nat, j: nat)
    requires i <= j <= |suffix|
    ensures (prefix + version + suffix)[|prefix| + |version| + i..|prefix| + |version| + j] == suffix[i..j]
  {
    var g := prefix + version + suffix;
    var p := |prefix| + |version|;
    assert forall k :: 0 <= k < j - i ==> g[p + i..p + j][k] == suffix[i..j][k];
  }

  /**
   * The as-written greeting differs from the other revisions' only in the
   * name, where it shows the UTF-8 bytes of 'é' read one character per byte
   * instead of 'é' itself; the following two messages agree.
   */
  lemma AsWrittenGreetingIsMojibake(version: string)
    ensures var w := AsWrittenInitialMessages(version)[0];
      var c := Logging.InitialMessages(version)[0];
      && w != c
      && w[NameStart(version)..NameStart(version) + 3] == "L\U{00C3}\U{00A9}"
      && c[NameStart(version)..NameStart(version) + 2] == "L\U{00E9}"
      && Utf8TwoBytes('\U{00E9}' as nat) == [w[NameStart(version) + 1] as nat, w[NameStart(version) + 2] as nat]
    ensures AsWrittenInitialMessages(version)[1..] == Logging.InitialMessages(version)[1..]
  {
    var w := AsWrittenInitialMessages(version)[0];
    var c := Logging.InitialMessages(version)[0];
    var k := NameStart(version);
    assert |Logging.AUTHOR_LEAD| == 15;
    assert AS_WRITTEN_WELCOME_SUFFIX[15..18] == (Logging.AUTHOR_LEAD + "L\U{00C3}\U{00A9}opold")[15..18];
    assert Logging.WELCOME_SUFFIX[15..17] == (Logging.AUTHOR_LEAD + Logging.AUTHOR_FIRST_NAME)[15..17];
    GreetingSlice(Logging.WELCOME_PREFIX, version, AS_WRITTEN_WELCOME_SUFFIX, 15, 18);
    GreetingSlice(Logging.WELCOME_PREFIX, version, Logging.WELCOME_SUFFIX, 15, 17);
    assert w[k..k + 3][1] == w[k + 1] && w[k..k + 3][2] == w[k + 2];
    assert c[k..k + 2][1] == c[k + 1];
    assert w[k + 1] != c[k + 1];
  }

  /** The corrected greeting names the author 'Léopold', as the other two revisions do. */
  lemma CorrectedGreetingNamesAuthor(version: string)
    ensures var c := Logging.InitialMessages(version)[0];
      c[NameStart(version)..NameStart(version) + 7] == "L\U{00E9}opold"
  {
    assert |Logging.AUTHOR_LEAD| == 15;
    assert Logging.WELCOME_SUFFIX[15..22] == (Logging.AUTHOR_LEAD + Logging.AUTHOR_FIRST_NAME)[15..22];
    GreetingSlice(Logging.WELCOME_PREFIX, version, Logging.WELCOME_SUFFIX, 15, 22);
  }

  // ------------------------------------------------------------ the object

  /** The older `AppState`, updated in place by the older components. */
  class LegacyAppState {
    var redrawCanvas: bool
    var stats: Stats
    var focused: Focus
    var quit: bool
    var logMessages: seq<string>
    var moveDist: int
    var scalingFactor: int
    var paletteIndex: nat
    var colorSchemeOffset: int
    var voidFillIndex: nat
    const renderSettings: LegacyRenderSettings

    /** The current values of the fields, the render settings included. */
    function Model(): LegacyAppModel
      reads this, renderSettings
    {
      LegacyAppModel(redrawCanvas, stats, focused, quit, logMessages, moveDist, scalingFactor,
                     paletteIndex, colorSchemeOffset, voidFillIndex, renderSettings.Model())
    }

    /** `AppState::default()`. */
    constructor ()
      ensures Model() == DEFAULT_LEGACY_APP_MODEL
      ensures fresh(renderSettings)
    {
      redrawCanvas := true;
      stats := DEFAULT_STATS;
      focused := DEFAULT_FOCUS;
      quit := false;
      logMessages := [];
      moveDist := 8;
      scalingFactor := 20;
      paletteIndex := 0;
      colorSchemeOffset := 0;
      voidFillIndex := 0;
      renderSettings := new LegacyRenderSettings();
    }

    /** `footer_text`: the hints of the focused component, with the older canvas list. */
    function FooterText(): (r: seq<string>)
      reads this
      ensures focused == Canvas ==> r == LEGACY_CANVAS_FOOTER
      ensures focused == LogPanel ==> r == LOG_PANEL_FOOTER
      ensures focused == Input ==> r == INPUT_FOOTER
    {
      match focused
      case LogPanel => LOG_PANEL_FOOTER
      case Canvas => LEGACY_CANVAS_FOOTER
      case Input => INPUT_FOOTER
    }

    /** `increment_max_iter`: the bounded iteration limit, then a redraw. */
    method IncrementMaxIter(increment: int)
      modifies this, renderSettings
      ensures Model() == old(Model()).(settings := MaxIterIncremented(old(Model()).settings, increment), redrawCanvas := true)
    {
      var newMaxIter := SaturateI32(renderSettings.maxIter + increment);
      renderSettings.maxIter := Max(Bounds.MIN_MAX_ITER, Min(Bounds.MAX_MAX_ITER, newMaxIter));
      redrawCanvas := true;
    }

    /**
     * `increment_decimal_prec`: the bounded precision, then a redraw; the
     * re-precisioning of `pos` and `cell_size` changes no exact value.
     */
    method IncrementDecimalPrec(increment: int)
      modifies this, renderSettings
      ensures Model() == old(Model()).(settings := DecimalPrecIncremented(old(Model()).settings, increment), redrawCanvas := true)
    {
      var newPrec := SaturatingAddSignedU32(renderSettings.prec, increment);
      renderSettings.prec := Min(Bounds.MAX_DECIMAL_PREC, Max(Bounds.MIN_DECIMAL_PREC, newPrec));
      redrawCanvas := true;
    }

    /** `zoom_at`: zoom, then move the position back under the pivot. */
    method ZoomAt(coords: Vec2<int>, d: ZoomDirection)
      requires scalingFactor > -100
      modifies renderSettings
      ensures Model() == LegacyZoomedAt(old(Model()), coords, d)
      ensures LegacyCoordToC(Model().settings, coords) == LegacyCoordToC(old(Model()).settings, coords)
    {
      var initial := LegacyCoordToC(renderSettings.Model(), coords);
      Zoom(d);
      var moved := LegacyCoordToC(renderSettings.Model(), coords);
      renderSettings.pos := renderSettings.pos.Plus(initial.Minus(moved));
      LegacyZoomAtKeepsPivot(old(Model()), coords, d);
    }

    /** `zoom`: divide (In) or multiply (Out) the cell size by `1 + scaling_factor / 100`. */
    method Zoom(d: ZoomDirection)
      requires scalingFactor > -100
      modifies renderSettings
      ensures Model() == LegacyZoomed(old(Model()), d)
    {
      var factor := 1.0 + scalingFactor as real / 100.0;
      match d
      case In => renderSettings.cellSize := renderSettings.cellSize / factor;
      case Out => renderSettings.cellSize := renderSettings.cellSize * factor;
    }

    /** `log_raw`: append, dropping the oldest entry past 500 messages. */
    method LogRaw(message: string)
      modifies this
      ensures Model() == old(Model()).(logMessages := Logging.Logged(old(logMessages), message))
    {
      logMessages := logMessages + [message];
      if |logMessages| > Logging.LOG_MESSAGE_LIMIT {
        logMessages := logMessages[1..];
      }
    }

    /** `log_success_title`. */
    method LogSuccessTitle(title: string, message: string)
      modifies this
      ensures Model() == old(Model()).(logMessages := Logging.Logged(old(logMessages), Logging.SuccessTitled(title, message)))
    {
      LogRaw(Logging.SuccessTitled(title, message));
    }

    /** `log_success`. */
    method LogSuccess(message: string)
      modifies this
      ensures Model() == old(Model()).(logMessages := Logging.Logged(old(logMessages), Logging.Success(message)))
    {
      LogSuccessTitle("Success", message);
    }

    /** `log_info_title`. */
    method LogInfoTitle(title: string, message: string)
      modifies this
      ensures Model() == old(Model()).(logMessages := Logging.Logged(old(logMessages), Logging.InfoTitled(title, message)))
    {
      LogRaw(Logging.InfoTitled(title, message));
    }

    /** `log_info`. */
    method LogInfo(message: string)
      modifies this
      ensures Model() == old(Model()).(logMessages := Logging.Logged(old(logMessages), Logging.Info(message)))
    {
      LogInfoTitle("Info", message);
    }

    /** `log_error_title`: the message is wrapped in `<red ...>`. */
    method LogErrorTitle(title: string, message: string)
      modifies this
      ensures Model() == old(Model()).(logMessages := Logging.Logged(old(logMessages), Logging.LegacyErrorTitled(title, message)))
    {
      LogRaw(Logging.LegacyErrorTitled(title, message));
    }

    /** `log_error`. */
    method LogError(message: string)
      modifies this
      ensures Model() == old(Model()).(logMessages := Logging.Logged(old(logMessages), Logging.LegacyError(message)))
    {
      LogErrorTitle("Error", message);
    }

    /** `initial_message`, with the author's name spelled as in the other revisions. */
    method InitialMessage(version: string)
      modifies this
      ensures Model() == old(Model()).(logMessages := Logging.LoggedAll(old(logMessages), Logging.InitialMessages(version)))
    {
      var ms := Logging.InitialMessages(version);
      ghost var log0 := logMessages;
      LogRaw(ms[0]);
      LogRaw(ms[1]);
      LogRaw(ms[2]);
      calc {
        Logging.LoggedAll(log0, ms);
        Logging.LoggedAll(Logging.Logged(log0, ms[0]), ms[1..]);
        { assert ms[1..][0] == ms[1] && ms[1..][1..] == [ms[2]]; }
        Logging.LoggedAll(Logging.Logged(Logging.Logged(log0, ms[0]), ms[1]), [ms[2]]);
        Logging.Logged(Logging.Logged(Logging.Logged(log0, ms[0]), ms[1]), ms[2]);
      }
    }

    /** `get_palette`: the selected palette of the colour table. */
    function GetPalette(): (p: Palettes.Palette)
      requires paletteIndex < |Palettes.COLORS|
      reads this
      ensures p in Palettes.COLORS
      ensures Palettes.WellFormed(p)
    {
      Palettes.PaletteWellFormed(paletteIndex);
      Palettes.COLORS[paletteIndex]
    }
  }
}
