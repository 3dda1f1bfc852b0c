// The logic state of the application (src/app_state): the record every
// component reads and updates, with the methods of src/app_state/mod.rs,
// src/app_state/helpers.rs, src/app_state/default_app_state.rs and the
// logging methods of src/logging.rs.
module AppStates {
  import opened Base
  import opened Vec2s
  import opened Focuses
  import opened TextInput
  import opened SelectableVariables
  import opened ClickModes
  import opened AppStats
  import opened Zooming
  import opened FracLogic
  import Logging

  const DF_MOVE_DISTANCE_CPU: int := 8
  const DF_SCALING_FACTOR_CPU: int := 20
  const DF_MOVE_DISTANCE_GPU: int := 4
  const DF_SCALING_FACTOR_GPU: int := 8

  /**
   * The values of an `AppState`. The repository holds two revisions of the
   * struct; this record has the fields of both (`last_command` of the older,
   * `last_commands`, `selected_canvas_variable`, `pause_jobs` and the
   * state-file list of the newer). The scroll state, the prioritised
   * messages and the queued capture jobs are not modelled.
   */
  datatype AppModel = AppModel(
    redrawCanvas: bool,
    repaintCanvas: bool,
    stats: Stats,
    focused: Focus,
    quit: bool,
    logMessages: seq<string>,
    lastCommand: string,
    lastCommands: seq<string>,
    commandInput: InputField,
    moveDist: int,
    scalingFactor: int,
    settings: Settings,
    clickConfig: ClickConfig,
    removeJobs: bool,
    pauseJobs: bool,
    selectedCanvasVariable: nat,
    detectedStateFiles: seq<string>,
    currentStateFileIndex: nat)

  /** `AppState::default()`: GPU-mode movement, both redraw flags set, PaletteOffset selected. */
  const DEFAULT_APP_MODEL: AppModel := AppModel(
    true, true, DEFAULT_STATS, DEFAULT_FOCUS, false, [], "", [], EMPTY_INPUT,
    DF_MOVE_DISTANCE_GPU, DF_SCALING_FACTOR_GPU, DEFAULT_SETTINGS, DEFAULT_CLICK_CONFIG,
    false, false, Ordinal(PaletteOffset), [], 0)

  /** The default state uses the GPU figures, and its selected variable is visible with the default HSL settings. */
  lemma DefaultAppState()
    ensures DEFAULT_APP_MODEL.moveDist == 4 && DEFAULT_APP_MODEL.scalingFactor == 8
    ensures DEFAULT_APP_MODEL.redrawCanvas && DEFAULT_APP_MODEL.repaintCanvas
    ensures !DEFAULT_APP_MODEL.quit && !DEFAULT_APP_MODEL.removeJobs && !DEFAULT_APP_MODEL.pauseJobs
    ensures DEFAULT_APP_MODEL.lastCommands == [] && DEFAULT_APP_MODEL.focused == Canvas
    ensures DEFAULT_APP_MODEL.selectedCanvasVariable == 0
    ensures EqIndex(PaletteOffset, DEFAULT_APP_MODEL.selectedCanvasVariable)
    ensures !Hidden(DEFAULT_APP_MODEL.selectedCanvasVariable, DEFAULT_APP_MODEL.settings.hsl.enabled)
  {
    EqIndexIsPosition(PaletteOffset, 0);
    HiddenMeaning(0, false);
  }

  // ------------------------------------------------- selectable variables

  /** `is_selected_var_hidden` for the selected index `sel`. */
  predicate Hidden(sel: int, hslEnabled: bool)
  {
    if !hslEnabled then
      EqIndex(HslSat, sel) || EqIndex(HslLum, sel) || EqIndex(HueOffset, sel) || EqIndex(HslSmoothness, sel)
    else if hslEnabled then
      EqIndex(PaletteOffset, sel)
    else
      false
  }

  /** With HSL off the four HSL variables are hidden; with HSL on only the palette offset is. */
  lemma HiddenMeaning(sel: int, hslEnabled: bool)
    ensures Hidden(sel, hslEnabled) <==> if hslEnabled then sel == 0 else 1 <= sel <= 4
  {
    EqIndexIsPosition(HslSat, sel);
    EqIndexIsPosition(HslLum, sel);
    EqIndexIsPosition(HueOffset, sel);
    EqIndexIsPosition(HslSmoothness, sel);
    EqIndexIsPosition(PaletteOffset, sel);
  }

  /** `next_canv_var_`: the next index, modulo the number of variables. */
  function NextIndex(sel: nat): (r: nat)
    ensures r < 5
    ensures sel < 4 ==> r == sel + 1
    ensures sel == 4 ==> r == 0
  {
    (sel + 1) % |AllSelectable()|
  }

  /** How many times `prevent_canvas_var_hidden` advances the selection. */
  function StepsToVisible(sel: nat, hslEnabled: bool): nat
  {
    if !Hidden(sel, hslEnabled) then 0 else if hslEnabled then 1 else 5 - sel
  }

  /** The selection `prevent_canvas_var_hidden` ends on. */
  function VisibleFrom(sel: nat, hslEnabled: bool): nat
  {
    if !Hidden(sel, hslEnabled) then sel else if hslEnabled then 1 else 0
  }

  /** The fix-up loop stops within four steps, on a visible variable, and stays put on a visible one. */
  lemma VisibleFromMeaning(sel: nat, hslEnabled: bool)
    ensures !Hidden(VisibleFrom(sel, hslEnabled), hslEnabled)
    ensures StepsToVisible(sel, hslEnabled) <= 4
    ensures !Hidden(sel, hslEnabled) ==> VisibleFrom(sel, hslEnabled) == sel
    ensures Hidden(sel, hslEnabled) ==> VisibleFrom(sel, hslEnabled) == (sel + StepsToVisible(sel, hslEnabled)) % 5
  {
    HiddenMeaning(sel, hslEnabled);
    HiddenMeaning(VisibleFrom(sel, hslEnabled), hslEnabled);
  }

  /** Every index the fix-up loop passes before it stops is hidden. */
  lemma StepsPassHidden(sel: nat, hslEnabled: bool, k: nat)
    requires k < StepsToVisible(sel, hslEnabled)
    ensures Hidden((sel + k) % 5, hslEnabled)
  {
    HiddenMeaning(sel, hslEnabled);
    var i := sel + k;
    assert i < 5;
    DivModUnique(i, 5, 0, i);
    HiddenMeaning(i, hslEnabled);
  }

  /** One step of the loop keeps its destination and brings it one step closer. */
  lemma NextIndexTowardsVisible(sel: nat, hslEnabled: bool)
    requires Hidden(sel, hslEnabled)
    ensures VisibleFrom(NextIndex(sel), hslEnabled) == VisibleFrom(sel, hslEnabled)
    ensures StepsToVisible(NextIndex(sel), hslEnabled) < StepsToVisible(sel, hslEnabled)
  {
    HiddenMeaning(sel, hslEnabled);
    HiddenMeaning(NextIndex(sel), hslEnabled);
  }

  /** With HSL off, `next_canv_var` always lands on the palette offset. */
  lemma NextCanvVarWithoutHsl(sel: nat)
    ensures VisibleFrom(NextIndex(sel), false) == 0 && EqIndex(PaletteOffset, 0)
  {
    HiddenMeaning(NextIndex(sel), false);
    EqIndexIsPosition(PaletteOffset, 0);
  }

  // ------------------------------------------------------------- zooming

  /** `1 + scaling_factor / 100`, the factor `zoom` divides or multiplies the cell size by. */
  function ZoomFactor(scalingFactor: int): real
  {
    1.0 + scalingFactor as real / 100.0
  }

  /** A scaling factor above -100 gives a positive zoom factor, above 0 one greater than 1. */
  lemma ZoomFactorBounds(scalingFactor: int)
    ensures scalingFactor > -100 ==> ZoomFactor(scalingFactor) > 0.0
    ensures scalingFactor > 0 ==> ZoomFactor(scalingFactor) > 1.0
  {
  }

  /** The state after `zoom(d)`. */
  function Zoomed(m: AppModel, d: ZoomDirection): (r: AppModel)
    requires m.scalingFactor > -100
  {
    m.(settings := m.settings.(cellSize := ZoomedCellSize(m.settings.cellSize, d, ZoomFactor(m.scalingFactor))))
  }

  /** The state after `zoom_at(coords, d)`. */
  function ZoomedAt(m: AppModel, coords: Vec2<int>, d: ZoomDirection): (r: AppModel)
    requires m.scalingFactor > -100
  {
    var cell := ZoomedCellSize(m.settings.cellSize, d, ZoomFactor(m.scalingFactor));
    m.(settings := m.settings.(cellSize := cell, pos := PivotedPos(m.settings.pos, m.settings.cellSize, cell, coords)))
  }

  /** Zooming in then out with the same scaling factor restores the cell size, and the reverse. */
  lemma ZoomInThenOutRestores(m: AppModel)
    requires m.scalingFactor > -100
    ensures Zoomed(Zoomed(m, In), Out) == m
    ensures Zoomed(Zoomed(m, Out), In) == m
  {
    ZoomInverses(m.settings.cellSize, ZoomFactor(m.scalingFactor));
  }

  /**
   * `zoom_at` keeps the complex coordinate of the pivot, changes only the cell
   * size and the position, and at the canvas origin only the cell size.
   */
  lemma ZoomAtKeepsPivot(m: AppModel, coords: Vec2<int>, d: ZoomDirection)
    requires m.scalingFactor > -100
    ensures CoordToC(ZoomedAt(m, coords, d).settings, coords) == CoordToC(m.settings, coords)
    ensures ZoomedAt(m, coords, d).settings.cellSize == Zoomed(m, d).settings.cellSize
    ensures ZoomedAt(m, coords, d) == m.(settings := m.settings.(
      cellSize := ZoomedAt(m, coords, d).settings.cellSize, pos := ZoomedAt(m, coords, d).settings.pos))
    ensures ZoomedAt(m, Vec2(0, 0), d) == Zoomed(m, d)
  {
    var cell := ZoomedCellSize(m.settings.cellSize, d, ZoomFactor(m.scalingFactor));
    PivotStaysFixed(m.settings.pos, m.settings.cellSize, cell, coords);
    PivotAtOriginKeepsPos(m.settings.pos, m.settings.cellSize, cell);
  }

  // ----------------------------------------------------- command history

  /** `get_command(index)`: the entry at `index`, or the empty string outside the list. */
  function CommandAt(lastCommands: seq<string>, index: int): (r: string)
    ensures index < 0 || index >= |lastCommands| ==> r == ""
    ensures 0 <= index < |lastCommands| ==> r == lastCommands[index]
  {
    if index < 0 then "" else if index < |lastCommands| then lastCommands[index] else ""
  }

  // ------------------------------------------------------------ the object

  /** `AppState`, updated in place by the components and the commands. */
  class AppState {
    var redrawCanvas: bool
    var repaintCanvas: bool
    var stats: Stats
    var focused: Focus
    var quit: bool
    var logMessages: seq<string>
    var lastCommand: string
    var lastCommands: seq<string>
    var commandInput: InputField
    var moveDist: int
    var scalingFactor: int
    const renderSettings: RenderSettings
    var clickConfig: ClickConfig
    var removeJobs: bool
    var pauseJobs: bool
    var selectedCanvasVariable: nat
    var detectedStateFiles: seq<string>
    var currentStateFileIndex: nat

    /** The current values of the fields, the render settings included. */
    function Model(): AppModel
      reads this, renderSettings
    {
      AppModel(redrawCanvas, repaintCanvas, stats, focused, quit, logMessages, lastCommand, lastCommands,
               commandInput, moveDist, scalingFactor, renderSettings.Model(), clickConfig, removeJobs,
               pauseJobs, selectedCanvasVariable, detectedStateFiles, currentStateFileIndex)
    }

    /** `AppState::default()`; the selected variable is looked up as the position of PaletteOffset. */
    constructor ()
      ensures Model() == DEFAULT_APP_MODEL
      ensures fresh(renderSettings)
    {
      var selected := FindFirst(AllSelectable(), (x: SelectedVariable) => x == PaletteOffset);
      assert AllSelectable()[0] == PaletteOffset;
      redrawCanvas := true;
      repaintCanvas := true;
      stats := DEFAULT_STATS;
      focused := DEFAULT_FOCUS;
      quit := false;
      logMessages := [];
      lastCommand := "";
      lastCommands := [];
      commandInput := EMPTY_INPUT;
      moveDist := DF_MOVE_DISTANCE_GPU;
      scalingFactor := DF_SCALING_FACTOR_GPU;
      renderSettings := new RenderSettings();
      clickConfig := DEFAULT_CLICK_CONFIG;
      removeJobs := false;
      pauseJobs := false;
      selectedCanvasVariable := selected.value;
      detectedStateFiles := [];
      currentStateFileIndex := 0;
    }

    /** Every field set from `m`: the state a command closure leaves behind. */
    method Assign(m: AppModel)
      modifies this, renderSettings
      ensures Model() == m
    {
      AssignFlags(m);
      AssignCommands(m);
      AssignControls(m);
      AssignJobs(m);
      renderSettings.Assign(m.settings);
    }

    /** The flags, statistics and focus fields of `Assign`. */
    method AssignFlags(m: AppModel)
      modifies this`redrawCanvas, this`repaintCanvas, this`stats, this`focused, this`quit
      ensures redrawCanvas == m.redrawCanvas && repaintCanvas == m.repaintCanvas && stats == m.stats
      ensures focused == m.focused && quit == m.quit
    {
      redrawCanvas, repaintCanvas, stats, focused, quit := m.redrawCanvas, m.repaintCanvas, m.stats, m.focused, m.quit;
    }

    /** The log and command fields of `Assign`. */
    method AssignCommands(m: AppModel)
      modifies this`logMessages, this`lastCommand, this`lastCommands, this`commandInput
      ensures logMessages == m.logMessages && lastCommand == m.lastCommand
      ensures lastCommands == m.lastCommands && commandInput == m.commandInput
    {
      logMessages, lastCommand, lastCommands, commandInput := m.logMessages, m.lastCommand, m.lastCommands, m.commandInput;
    }

    /** The movement and click fields of `Assign`. */
    method AssignControls(m: AppModel)
      modifies this`moveDist, this`scalingFactor, this`clickConfig, this`selectedCanvasVariable
      ensures moveDist == m.moveDist && scalingFactor == m.scalingFactor && clickConfig == m.clickConfig
      ensures selectedCanvasVariable == m.selectedCanvasVariable
    {
      moveDist, scalingFactor, clickConfig := m.moveDist, m.scalingFactor, m.clickConfig;
      selectedCanvasVariable := m.selectedCanvasVariable;
    }

    /** The job and state-file fields of `Assign`. */
    method AssignJobs(m: AppModel)
      modifies this`removeJobs, this`pauseJobs, this`detectedStateFiles, this`currentStateFileIndex
      ensures removeJobs == m.removeJobs && pauseJobs == m.pauseJobs
      ensures detectedStateFiles == m.detectedStateFiles && currentStateFileIndex == m.currentStateFileIndex
    {
      removeJobs, pauseJobs := m.removeJobs, m.pauseJobs;
      detectedStateFiles, currentStateFileIndex := m.detectedStateFiles, m.currentStateFileIndex;
    }

    /** `cpu_defaults`: CPU-mode movement and the CPU render defaults. */
    method CpuDefaults()
      modifies this, renderSettings
      ensures Model() == old(Model()).(moveDist := DF_MOVE_DISTANCE_CPU, scalingFactor := DF_SCALING_FACTOR_CPU,
                                       settings := WithCpuDefaults(old(Model()).settings))
    {
      moveDist := DF_MOVE_DISTANCE_CPU;
      scalingFactor := DF_SCALING_FACTOR_CPU;
      renderSettings.CpuDefaults();
    }

    /** `request_repaint`: repaint without recomputing the divergence matrix. */
    method RequestRepaint()
      modifies this
      ensures Model() == old(Model()).(repaintCanvas := true)
    {
      repaintCanvas := true;
    }

    /** `request_redraw`: recompute the divergence matrix and repaint. */
    method RequestRedraw()
      modifies this
      ensures Model() == old(Model()).(redrawCanvas := true, repaintCanvas := true)
    {
      redrawCanvas := true;
      RequestRepaint();
    }

    /** `footer_text` with the canvas hints of the revision at hand. */
    function FooterText(canvasFooter: seq<string>): (r: seq<string>)
      reads this
      ensures r == Focuses.FooterText(focused, canvasFooter)
    {
      match focused
      case LogPanel => LOG_PANEL_FOOTER
      case Canvas => canvasFooter
      case Input => INPUT_FOOTER
    }

    /** `increment_max_iter`: the bounded update of the render settings, then a redraw. */
    method IncrementMaxIter(increment: int)
      modifies this, renderSettings
      ensures Model() == old(Model()).(settings := WithMaxIterIncremented(old(Model()).settings, increment),
                                       redrawCanvas := true, repaintCanvas := true)
    {
      renderSettings.IncrementMaxIter(increment);
      RequestRedraw();
    }

    /** `increment_decimal_prec`: a saturating signed add on the `u32` precision, then `set_decimal_prec`. */
    method IncrementDecimalPrec(increment: int)
      modifies this, renderSettings
      ensures Model() == old(Model()).(
        settings := WithDecimalPrec(old(Model()).settings, SaturatingAddSignedU32(old(renderSettings.prec), increment)),
        redrawCanvas := true, repaintCanvas := true)
    {
      var newPrec := SaturatingAddSignedU32(renderSettings.prec, increment);
      SetDecimalPrec(newPrec);
    }

    /** `set_decimal_prec`: the clamped precision, then a redraw. */
    method SetDecimalPrec(prec: int)
      modifies this, renderSettings
      ensures Model() == old(Model()).(settings := WithDecimalPrec(old(Model()).settings, prec),
                                       redrawCanvas := true, repaintCanvas := true)
    {
      renderSettings.SetDecimalPrec(prec);
      RequestRedraw();
    }

    /** `zoom_at`: zoom, then move the position back under the pivot. */
    method ZoomAt(coords: Vec2<int>, d: ZoomDirection)
      requires scalingFactor > -100
      modifies renderSettings
      ensures Model() == ZoomedAt(old(Model()), coords, d)
      ensures CoordToC(Model().settings, coords) == CoordToC(old(Model()).settings, coords)
    {
      var initial := CoordToC(renderSettings.Model(), coords);
      Zoom(d);
      var moved := CoordToC(renderSettings.Model(), coords);
      renderSettings.pos := renderSettings.pos.Plus(initial.Minus(moved));
      ZoomAtKeepsPivot(old(Model()), coords, d);
    }

    /** `zoom`: divide (In) or multiply (Out) the cell size by `1 + scaling_factor / 100`. */
    method Zoom(d: ZoomDirection)
      requires scalingFactor > -100
      modifies renderSettings
      ensures Model() == Zoomed(old(Model()), d)
    {
      var factor := 1.0 + scalingFactor as real / 100.0;
      match d
      case In => renderSettings.cellSize := renderSettings.cellSize / factor;
      case Out => renderSettings.cellSize := renderSettings.cellSize * factor;
    }

    /** `next_canv_var_`: select the next variable, visible or not. */
    method NextCanvVarUnchecked()
      modifies this
      ensures Model() == old(Model()).(selectedCanvasVariable := NextIndex(old(selectedCanvasVariable)))
    {
      selectedCanvasVariable := (selectedCanvasVariable + 1) % |AllSelectable()|;
    }

    /** `is_selected_var_hidden`. */
    predicate IsSelectedVarHidden()
      reads this, renderSettings
    {
      Hidden(selectedCanvasVariable, renderSettings.hsl.enabled)
    }

    /** `prevent_canvas_var_hidden`: advance the selection until a visible variable is selected. */
    method PreventCanvasVarHidden()
      modifies this
      ensures Model() == old(Model()).(
        selectedCanvasVariable := VisibleFrom(old(selectedCanvasVariable), renderSettings.hsl.enabled))
      ensures !IsSelectedVarHidden()
    {
      var enabled := renderSettings.hsl.enabled;
      while IsSelectedVarHidden()
        invariant Model() == old(Model()).(selectedCanvasVariable := selectedCanvasVariable)
        invariant VisibleFrom(selectedCanvasVariable, enabled) == VisibleFrom(old(selectedCanvasVariable), enabled)
        decreases StepsToVisible(selectedCanvasVariable, enabled)
      {
        NextIndexTowardsVisible(selectedCanvasVariable, enabled);
        NextCanvVarUnchecked();
      }
      VisibleFromMeaning(selectedCanvasVariable, enabled);
    }

    /** `next_canv_var`: the next visible variable. */
    method NextCanvVar()
      modifies this
      ensures Model() == old(Model()).(
        selectedCanvasVariable := VisibleFrom(NextIndex(old(selectedCanvasVariable)), renderSettings.hsl.enabled))
      ensures !IsSelectedVarHidden()
    {
      NextCanvVarUnchecked();
      PreventCanvasVarHidden();
    }

    /** `is_var_selected(var)`: `var == selected_canvas_variable`. */
    predicate IsVarSelected(v: SelectedVariable)
      reads this
    {
      EqIndex(v, selectedCanvasVariable)
    }

    /** `get_command(index)`. */
    function GetCommand(index: int): (r: string)
      reads this
      ensures r == CommandAt(lastCommands, index)
    {
      if index < 0 then "" else if index < |lastCommands| then lastCommands[index] else ""
    }

    // --------------------------------------------------------- logging

    /** `log_raw`: append, dropping the oldest entry past `LOG_MESSAGE_LIMIT`. */
    method LogRaw(message: string)
      modifies this
      ensures Model() == old(Model()).(logMessages := Logging.Logged(old(logMessages), message))
    {
      logMessages := logMessages + [message];
      if |logMessages| > Logging.LOG_MESSAGE_LIMIT {
        logMessages := logMessages[1..];
      }
    }

    /** `log_success`. */
    method LogSuccess(message: string)
      modifies this
      ensures Model() == old(Model()).(logMessages := Logging.Logged(old(logMessages), Logging.Success(message)))
    {
      LogSuccessTitle("Success", message);
    }

    /** `log_info`. */
    method LogInfo(message: string)
      modifies this
      ensures Model() == old(Model()).(logMessages := Logging.Logged(old(logMessages), Logging.Info(message)))
    {
      LogInfoTitle("Info", message);
    }

    /** `log_error`. */
    method LogError(message: string)
      modifies this
      ensures Model() == old(Model()).(logMessages := Logging.Logged(old(logMessages), Logging.Error(message)))
    {
      LogErrorTitle("Error", message);
    }

    /** `log_success_title`. */
    method LogSuccessTitle(title: string, message: string)
      modifies this
      ensures Model() == old(Model()).(logMessages := Logging.Logged(old(logMessages), Logging.SuccessTitled(title, message)))
    {
      LogRaw(Logging.SuccessTitled(title, message));
    }

    /** `log_info_title`. */
    method LogInfoTitle(title: string, message: string)
      modifies this
      ensures Model() == old(Model()).(logMessages := Logging.Logged(old(logMessages), Logging.InfoTitled(title, message)))
    {
      LogRaw(Logging.InfoTitled(title, message));
    }

    /** `log_error_title`. */
    method LogErrorTitle(title: string, message: string)
      modifies this
      ensures Model() == old(Model()).(logMessages := Logging.Logged(old(logMessages), Logging.ErrorTitled(title, message)))
    {
      LogRaw(Logging.ErrorTitled(title, message));
    }

    /** `initial_message`; `version` is the crate version the program is built with. */
    method InitialMessage(version: string)
      modifies this
      ensures Model() == old(Model()).(logMessages := Logging.LoggedAll(old(logMessages), Logging.InitialMessages(version)))
    {
      var ms := Logging.InitialMessages(version);
      ghost var log0 := logMessages;
      LogRaw(ms[0]);
      LogRaw(ms[1]);
      LogRaw(ms[2]);
      calc {
        Logging.LoggedAll(log0, ms);
        Logging.LoggedAll(Logging.Logged(log0, ms[0]), ms[1..]);
        { assert ms[1..][0] == ms[1] && ms[1..][1..] == [ms[2]]; }
        Logging.LoggedAll(Logging.Logged(Logging.Logged(log0, ms[0]), ms[1]), [ms[2]]);
        Logging.Logged(Logging.Logged(Logging.Logged(log0, ms[0]), ms[1]), ms[2]);
      }
    }

    /**
     * `handle_res`, which is not part of this model: its callers hand it the
     * outcome of `select_fractal`, and the model reports a failure with `log_error`.
     */
    method HandleRes(res: Result<(), string>)
      modifies this
      ensures res.Ok? ==> Model() == old(Model())
      ensures res.Err? ==> Model() == old(Model()).(logMessages := Logging.Logged(old(logMessages), Logging.Error(res.error)))
    {
      if res.Err? {
        LogError(res.error);
      }
    }
  }
}
