// What the canvas keys and clicks do to the logic state, shared by the two
// revisions of the canvas handlers (src/components/canvas.rs and
// src/components/canvas/keyboard_handling.rs, mouse_handling.rs): moving the
// view, zooming, the bounded precision and iteration limit, resetting the
// view, cycling the fractal, the palette and the void fill, stepping the
// selected colour variable, and the click actions.
module CanvasControls {
  import opened Base
  import opened Vec2s
  import opened SelectableVariables
  import opened HslSettings
  import opened Zooming
  import opened ClickModes
  import opened FracLogic
  import opened AppStates
  import Fractals
  import Palettes
  import VoidFills
  import IncrementWrap
  import Logging
  import Bounds

  /** The state after `request_redraw`. */
  function Redrawn(m: AppModel): AppModel
  {
    m.(redrawCanvas := true, repaintCanvas := true)
  }

  /** The state after `request_repaint`. */
  function Repainted(m: AppModel): AppModel
  {
    m.(repaintCanvas := true)
  }

  // ------------------------------------------------------------ moving

  /** The distance a movement key moves the view: `cell_size * move_dist`. */
  function MoveStep(m: AppModel): real
  {
    m.settings.cellSize * m.moveDist as real
  }

  /** The four movement keys: h/Left, l/Right, j/Down, k/Up. */
  datatype Heading = West | East | South | North

  function Opposite(h: Heading): Heading
  {
    match h
    case West => East
    case East => West
    case South => North
    case North => South
  }

  /** The state after a movement key: the position moves by one step, then a redraw. */
  function Moved(m: AppModel, h: Heading): AppModel
  {
    var p := m.settings.pos;
    var d := MoveStep(m);
    var q := match h
      case West => Complex(p.re - d, p.im)
      case East => Complex(p.re + d, p.im)
      case South => Complex(p.re, p.im - d)
      case North => Complex(p.re, p.im + d);
    Redrawn(m.(settings := m.settings.(pos := q)))
  }

  /**
   * A movement key shifts the position by `cell_size * move_dist` along its
   * axis and changes nothing else but the redraw flags, and the opposite key
   * brings the position back.
   */
  lemma {:induction false} MovedMeaning(m: AppModel, h: Heading)
    ensures var r := Moved(m, h);
      && r == Redrawn(m).(settings := m.settings.(pos := r.settings.pos))
      && r.settings.pos.Minus(m.settings.pos) == (match h
        case West => Complex(-MoveStep(m), 0.0)
        case East => Complex(MoveStep(m), 0.0)
        case South => Complex(0.0, -MoveStep(m))
        case North => Complex(0.0, MoveStep(m)))
    ensures Moved(Moved(m, h), Opposite(h)) == Redrawn(m)
  {
    var r := Moved(m, h);
    assert MoveStep(r) == MoveStep(m);
  }

  // ------------------------------------------------------------ zooming

  /** The state after `s` (zoom out) or `d` (zoom in): `zoom`, then a redraw. */
  function ZoomKeyed(m: AppModel, d: ZoomDirection): AppModel
    requires m.scalingFactor > -100
  {
    Redrawn(Zoomed(m, d))
  }

  /** Zooming in and then out with the keys restores everything but the redraw flags. */
  lemma ZoomKeysUndo(m: AppModel)
    requires m.scalingFactor > -100
    ensures ZoomKeyed(ZoomKeyed(m, In), Out) == Redrawn(m)
    ensures ZoomKeyed(ZoomKeyed(m, Out), In) == Redrawn(m)
  {
    ZoomInThenOutRestores(m);
    ZoomInThenOutRestores(Redrawn(m));
  }

  // ----------------------------------------- precision and iteration limit

  /** The state after `u` (-10) or `i` (+10): `increment_decimal_prec`, then a redraw. */
  function PrecKeyed(m: AppModel, increment: int): AppModel
  {
    Redrawn(m.(settings := WithDecimalPrec(m.settings, SaturatingAddSignedU32(m.settings.prec, increment))))
  }

  /** The state after `o` (+10) or `y` (-10): `increment_max_iter`, which requests the redraw. */
  function MaxIterKeyed(m: AppModel, increment: int): AppModel
  {
    Redrawn(m.(settings := WithMaxIterIncremented(m.settings, increment)))
  }

  /**
   * `i` then `u` restores a precision that stays in bounds on the way up, and
   * `o` then `y` an iteration limit that does; both always stay within their bounds.
   */
  lemma BoundedKeysUndo(m: AppModel)
    requires Bounds.MIN_DECIMAL_PREC <= m.settings.prec <= Bounds.MAX_DECIMAL_PREC - 10
    requires Bounds.MIN_MAX_ITER <= m.settings.maxIter <= Bounds.MAX_MAX_ITER - 10
    ensures PrecKeyed(PrecKeyed(m, 10), -10) == Redrawn(m)
    ensures MaxIterKeyed(MaxIterKeyed(m, 10), -10) == Redrawn(m)
  {
    var up := PrecKeyed(m, 10);
    assert up.settings.prec == m.settings.prec + 10;
    assert PrecKeyed(up, -10).settings.prec == m.settings.prec;
    var more := MaxIterKeyed(m, 10);
    MaxIterIncrementIsClampedSum(m.settings, 10);
    MaxIterIncrementIsClampedSum(more.settings, -10);
    assert more.settings.maxIter == m.settings.maxIter + 10;
  }

  // ------------------------------------------------------------ resetting

  /** The state after `r`: `reset_cell_size`, `reset_pos`, then a redraw. */
  function ResetKeyed(m: AppModel): AppModel
    requires m.settings.canvasSize.x != 0 && m.settings.fracIndex < |Fractals.FRACTALS|
  {
    Redrawn(m.(settings := WithPosReset(WithCellSizeReset(m.settings))))
  }

  /** After `r` the view is 5 wide at the fractal's default position, and resetting again changes nothing. */
  lemma ResetKeyedMeaning(m: AppModel)
    requires m.settings.canvasSize.x != 0 && m.settings.fracIndex < |Fractals.FRACTALS|
    ensures PlaneWid(ResetKeyed(m).settings) == 5.0
    ensures ResetKeyed(m).settings.pos == Fractals.FRACTALS[m.settings.fracIndex].defaultPos
    ensures ResetKeyed(m) == Redrawn(m).(settings := m.settings.(
      cellSize := ResetKeyed(m).settings.cellSize, pos := ResetKeyed(m).settings.pos))
    ensures ResetKeyed(ResetKeyed(m)) == ResetKeyed(m)
  {
    ResetPlaneWidthIsFive(m.settings);
  }

  // ------------------------------------------------------------ cycling

  /** The state after `f`: the next fractal through `select_fractal`, its failure logged, then a redraw. */
  function FracKeyed(m: AppModel, shaderError: Option<string>): AppModel
  {
    var sel := WithFractalSelected(m.settings, (m.settings.fracIndex + 1) % |Fractals.FRACTALS|, shaderError);
    var log := if sel.1.Err? then Logging.Logged(m.logMessages, Logging.Error(sel.1.error)) else m.logMessages;
    Redrawn(m.(settings := sel.0, logMessages := log))
  }

  /**
   * `f` moves to the next of the three fractals, wrapping after the last, and
   * three presses bring the first one back; with GPU mode off nothing is logged.
   */
  lemma FracKeyedCycles(m: AppModel)
    requires !m.settings.useGpu && m.settings.fracIndex < |Fractals.FRACTALS|
    ensures FracKeyed(m, None).settings.fracIndex == if m.settings.fracIndex == 2 then 0 else m.settings.fracIndex + 1
    ensures FracKeyed(m, None) == Redrawn(m).(settings := m.settings.(fracIndex := FracKeyed(m, None).settings.fracIndex))
    ensures FracKeyed(FracKeyed(FracKeyed(m, None), None), None) == Redrawn(m)
  {
    Fractals.FractalsTable();
    var a := FracKeyed(m, None);
    var b := FracKeyed(a, None);
    var c := FracKeyed(b, None);
    var i := m.settings.fracIndex;
    DivModUnique(i + 1, 3, if i == 2 then 1 else 0, if i == 2 then 0 else i + 1);
    var j := a.settings.fracIndex;
    DivModUnique(j + 1, 3, if j == 2 then 1 else 0, if j == 2 then 0 else j + 1);
    var k := b.settings.fracIndex;
    DivModUnique(k + 1, 3, if k == 2 then 1 else 0, if k == 2 then 0 else k + 1);
  }

  /** The state after `c`: the next palette modulo the number of palettes, then a repaint. */
  function PaletteKeyed(m: AppModel): AppModel
  {
    Repainted(m.(settings := m.settings.(paletteIndex := (m.settings.paletteIndex + 1) % |Palettes.COLORS|)))
  }

  /** `c` keeps the palette index within the table and steps it by one, wrapping after the last. */
  lemma PaletteKeyedCycles(m: AppModel)
    requires m.settings.paletteIndex < |Palettes.COLORS|
    ensures PaletteKeyed(m).settings.paletteIndex < |Palettes.COLORS|
    ensures PaletteKeyed(m).settings.paletteIndex
      == if m.settings.paletteIndex == |Palettes.COLORS| - 1 then 0 else m.settings.paletteIndex + 1
  {
    Palettes.ColorsTable();
    ModSuccessor(m.settings.paletteIndex, |Palettes.COLORS|);
    DivModUnique(m.settings.paletteIndex, |Palettes.COLORS|, 0, m.settings.paletteIndex);
  }

  /** The void fill after `v`: the next of the eight fills, through `increment_wrap` or `% 8`. */
  function NextVoidFill(i: nat): (r: nat)
    ensures i < |VoidFills.AllVoidFills()| ==> r < |VoidFills.AllVoidFills()|
    ensures r == IncrementWrap.IncrementWrapped(i, |VoidFills.AllVoidFills()|)
    ensures r == (i + 1) % |VoidFills.AllVoidFills()|
  {
    var w := |VoidFills.AllVoidFills()|;
    RustRemBelowTwice(i + 1, w);
    (i + 1) % w
  }

  /** The state after `v`: the next void fill, then a repaint. */
  function VoidFillKeyed(m: AppModel): AppModel
  {
    Repainted(m.(settings := m.settings.(voidFillIndex := NextVoidFill(m.settings.voidFillIndex))))
  }

  /** Eight presses of `v` bring an in-range void fill back. */
  lemma VoidFillKeyedCycles(m: AppModel)
    requires m.settings.voidFillIndex < |VoidFills.AllVoidFills()|
    ensures VoidFillKeyed(m).settings.voidFillIndex < |VoidFills.AllVoidFills()|
    ensures IncrementWrap.IncrementedTimes(m.settings.voidFillIndex, |VoidFills.AllVoidFills()|, 8)
      == m.settings.voidFillIndex
  {
    IncrementWrap.FullCycleRestores(m.settings.voidFillIndex, |VoidFills.AllVoidFills()|);
  }

  // ---------------------------------------------------- the colour offset

  /** What `increment_color_offset` (`up`) or `decrement_color_offset` needs: a palette, a width, no `i32` overflow. */
  predicate OffsetStepReady(s: Settings, up: bool)
  {
    && s.paletteIndex < |Palettes.COLORS| && s.smoothness != 0 && InI32(16 * s.smoothness)
    && (if up then InI32(s.colorSchemeOffset + 1) else InI32(s.colorSchemeOffset + 16 * s.smoothness - 1))
  }

  /** The settings after `increment_color_offset` (`up`) or `decrement_color_offset`. */
  function OffsetStepped(s: Settings, up: bool): Settings
    requires OffsetStepReady(s, up)
  {
    ColorOffsetWidthIsSixteenTimesSmoothness(s);
    if up then WithColorOffsetIncremented(s) else WithColorOffsetDecremented(s)
  }

  // ------------------------------------------------- the selected variable

  /** `increment_wrap` (`up`) or `decrement_wrap` of an HSL number with `MAX_HSL_VALUE`. */
  function HslWrapped(x: int, up: bool): int
  {
    if up then IncrementWrap.IncrementWrapped(x, MAX_HSL_VALUE) else IncrementWrap.DecrementWrapped(x, MAX_HSL_VALUE)
  }

  /** The `i32` sum the wrap of an HSL number computes must not overflow. */
  predicate HslStepReady(x: int, up: bool)
  {
    if up then InI32(x + 1) else InI32(x + MAX_HSL_VALUE - 1)
  }

  /** What a step of the variable `v` needs: no overflow in the sum its wrap computes. */
  predicate VarStepReady(s: Settings, v: SelectedVariable, up: bool)
  {
    match v
    case PaletteOffset => OffsetStepReady(s, up)
    case HslLum => HslStepReady(s.hsl.lum, up)
    case HslSat => HslStepReady(s.hsl.saturation, up)
    case HueOffset => HslStepReady(s.hsl.hueOffset, up)
    case HslSmoothness => HslStepReady(s.hsl.smoothness, up)
  }

  /** The settings after `+` (`up`) or `-` stepped the variable `v`. */
  function VarStepped(s: Settings, v: SelectedVariable, up: bool): Settings
    requires VarStepReady(s, v, up)
  {
    var h := s.hsl;
    match v
    case PaletteOffset => OffsetStepped(s, up)
    case HslLum => s.(hsl := h.(lum := HslWrapped(h.lum, up)))
    case HslSat => s.(hsl := h.(saturation := HslWrapped(h.saturation, up)))
    case HueOffset => s.(hsl := h.(hueOffset := HslWrapped(h.hueOffset, up)))
    case HslSmoothness => s.(hsl := h.(smoothness := HslWrapped(h.smoothness, up)))
  }

  /** What `+` (`up`) or `-` needs: a selected variable in the list and a step of it that does not overflow. */
  predicate SelectedStepReady(m: AppModel, up: bool)
  {
    m.selectedCanvasVariable < |AllSelectable()| && VarStepReady(m.settings, AllSelectable()[m.selectedCanvasVariable], up)
  }

  /** The state after `+` (`up`) or `-`: the selected variable stepped, then a repaint. */
  function SelectedKeyed(m: AppModel, up: bool): AppModel
    requires SelectedStepReady(m, up)
  {
    Repainted(m.(settings := VarStepped(m.settings, AllSelectable()[m.selectedCanvasVariable], up)))
  }

  /** Every value `+` and `-` can reach lies in its wrap range, and the wrap sums fit in `i32`. */
  predicate SettingsInRange(s: Settings)
  {
    && s.paletteIndex < |Palettes.COLORS| && s.smoothness >= 1 && InI32(32 * s.smoothness)
    && 0 <= s.colorSchemeOffset < 16 * s.smoothness
    && NumbersInRange(s.hsl)
  }

  /** `+` then `-` on an in-range colour offset: no overflow, the offset stays in range and comes back. */
  lemma OffsetStepsUndo(s: Settings)
    requires SettingsInRange(s)
    ensures OffsetStepReady(s, true)
    ensures SettingsInRange(OffsetStepped(s, true))
    ensures OffsetStepReady(OffsetStepped(s, true), false)
    ensures OffsetStepped(OffsetStepped(s, true), false) == s
  {
    ColorOffsetWidthIsSixteenTimesSmoothness(s);
    ColorOffsetSteps(s);
    ColorOffsetWidthIsSixteenTimesSmoothness(OffsetStepped(s, true));
  }

  /** `+` then `-` on an in-range HSL number: no overflow, the number stays in range and comes back. */
  lemma HslStepsUndo(x: int)
    requires 0 <= x < MAX_HSL_VALUE
    ensures HslStepReady(x, true)
    ensures 0 <= HslWrapped(x, true) < MAX_HSL_VALUE
    ensures HslStepReady(HslWrapped(x, true), false)
    ensures HslWrapped(HslWrapped(x, true), false) == x
  {
    IncrementWrap.WrapInverses(x, MAX_HSL_VALUE);
  }

  /** `+` then `-` on any variable of in-range settings: no overflow, the settings stay in range and come back. */
  lemma {:induction false} VarStepsUndo(s: Settings, v: SelectedVariable)
    requires SettingsInRange(s)
    ensures VarStepReady(s, v, true)
    ensures SettingsInRange(VarStepped(s, v, true))
    ensures VarStepReady(VarStepped(s, v, true), v, false)
    ensures VarStepped(VarStepped(s, v, true), v, false) == s
  {
    if v == PaletteOffset {
      OffsetStepsUndo(s);
    } else {
      HslVarStepsUndo(s, v);
      var s1 := VarStepped(s, v, true);
      assert s1.smoothness == s.smoothness && s1.colorSchemeOffset == s.colorSchemeOffset;
    }
  }

  /** `+` then `-` on an HSL number: only the HSL settings change, they stay in range and come back. */
  lemma HslVarStepsUndo(s: Settings, v: SelectedVariable)
    requires NumbersInRange(s.hsl) && v != PaletteOffset
    ensures VarStepReady(s, v, true)
    ensures var s1 := VarStepped(s, v, true);
      && s1 == s.(hsl := s1.hsl) && NumbersInRange(s1.hsl)
      && VarStepReady(s1, v, false) && VarStepped(s1, v, false) == s
  {
    match v
    case HslLum => HslStepsUndo(s.hsl.lum);
    case HslSat => HslStepsUndo(s.hsl.saturation);
    case HueOffset => HslStepsUndo(s.hsl.hueOffset);
    case HslSmoothness => HslStepsUndo(s.hsl.smoothness);
  }

  /**
   * `+` changes only the selected variable, `-` undoes it, and both keep the
   * variable in its range: the colour offset below `16 * smoothness`, an HSL
   * number below `MAX_HSL_VALUE`.
   */
  lemma SelectedKeysUndo(m: AppModel)
    requires SettingsInRange(m.settings) && m.selectedCanvasVariable < |AllSelectable()|
    ensures SelectedStepReady(m, true)
    ensures SettingsInRange(SelectedKeyed(m, true).settings)
    ensures SelectedStepReady(SelectedKeyed(m, true), false)
    ensures SelectedKeyed(SelectedKeyed(m, true), false) == Repainted(m)
  {
    VarStepsUndo(m.settings, AllSelectable()[m.selectedCanvasVariable]);
  }

  /** `+` with the palette offset selected leaves the HSL settings alone, and with an HSL number selected the offset. */
  lemma SelectedKeyedTouchesOnlySelected(m: AppModel, up: bool)
    requires SelectedStepReady(m, up)
    ensures var s := SelectedKeyed(m, up).settings;
      && s == m.settings.(colorSchemeOffset := s.colorSchemeOffset, hsl := s.hsl)
      && s.hsl.enabled == m.settings.hsl.enabled
      && (AllSelectable()[m.selectedCanvasVariable] == PaletteOffset ==> s.hsl == m.settings.hsl)
      && (AllSelectable()[m.selectedCanvasVariable] != PaletteOffset ==> s.colorSchemeOffset == m.settings.colorSchemeOffset)
  {
  }

  // ---------------------------------------------------- HSL mode and `t`

  /** The state after `n`: HSL mode flipped, a visible variable selected, then a repaint. */
  function HslModeKeyed(m: AppModel): AppModel
  {
    var enabled := !m.settings.hsl.enabled;
    Repainted(m.(settings := m.settings.(hsl := m.settings.hsl.(enabled := enabled)),
                 selectedCanvasVariable := VisibleFrom(m.selectedCanvasVariable, enabled)))
  }

  /** After `n` HSL mode is flipped, the selected variable is visible, and pressing `n` twice from the default selection restores it. */
  lemma HslModeKeyedVisible(m: AppModel)
    ensures HslModeKeyed(m).settings.hsl.enabled == !m.settings.hsl.enabled
    ensures !Hidden(HslModeKeyed(m).selectedCanvasVariable, HslModeKeyed(m).settings.hsl.enabled)
    ensures m.selectedCanvasVariable == 0 && !m.settings.hsl.enabled ==>
      HslModeKeyed(HslModeKeyed(m)) == Repainted(m)
  {
    VisibleFromMeaning(m.selectedCanvasVariable, !m.settings.hsl.enabled);
    if m.selectedCanvasVariable == 0 && !m.settings.hsl.enabled {
      HiddenMeaning(0, true);
      HiddenMeaning(1, false);
      assert HslModeKeyed(m).selectedCanvasVariable == 1;
    }
  }

  /** The state after `t`: `next_canv_var`. */
  function NextVarKeyed(m: AppModel): AppModel
  {
    m.(selectedCanvasVariable := VisibleFrom(NextIndex(m.selectedCanvasVariable), m.settings.hsl.enabled))
  }

  /** `t` selects a visible variable; with HSL on it walks through the four HSL variables in turn. */
  lemma NextVarKeyedMeaning(m: AppModel)
    ensures !Hidden(NextVarKeyed(m).selectedCanvasVariable, m.settings.hsl.enabled)
    ensures m.settings.hsl.enabled && 1 <= m.selectedCanvasVariable <= 3 ==>
      NextVarKeyed(m).selectedCanvasVariable == m.selectedCanvasVariable + 1
    ensures m.settings.hsl.enabled && m.selectedCanvasVariable == 4 ==> NextVarKeyed(m).selectedCanvasVariable == 1
    ensures !m.settings.hsl.enabled ==> NextVarKeyed(m).selectedCanvasVariable == 0
  {
    VisibleFromMeaning(NextIndex(m.selectedCanvasVariable), m.settings.hsl.enabled);
    HiddenMeaning(NextIndex(m.selectedCanvasVariable), m.settings.hsl.enabled);
    NextCanvVarWithoutHsl(m.selectedCanvasVariable);
  }

  // ------------------------------------------- the key arms as methods

  /** A movement key on the logic state. */
  method MoveKey(state: AppState, h: Heading)
    modifies state, state.renderSettings
    ensures state.Model() == Moved(old(state.Model()), h)
  {
    var rs := state.renderSettings;
    var step := rs.cellSize * state.moveDist as real;
    match h {
      case West => rs.pos := Complex(rs.pos.re - step, rs.pos.im);
      case East => rs.pos := Complex(rs.pos.re + step, rs.pos.im);
      case South => rs.pos := Complex(rs.pos.re, rs.pos.im - step);
      case North => rs.pos := Complex(rs.pos.re, rs.pos.im + step);
    }
    state.RequestRedraw();
  }

  /** `s` or `d`. */
  method ZoomKey(state: AppState, d: ZoomDirection)
    requires state.scalingFactor > -100
    modifies state, state.renderSettings
    ensures state.Model() == ZoomKeyed(old(state.Model()), d)
  {
    state.Zoom(d);
    state.RequestRedraw();
  }

  /** `u` or `i`. */
  method PrecKey(state: AppState, increment: int)
    modifies state, state.renderSettings
    ensures state.Model() == PrecKeyed(old(state.Model()), increment)
  {
    state.IncrementDecimalPrec(increment);
    state.RequestRedraw();
  }

  /** `r`. */
  method ResetKey(state: AppState)
    requires state.renderSettings.canvasSize.x != 0 && state.renderSettings.fracIndex < |Fractals.FRACTALS|
    modifies state, state.renderSettings
    ensures state.Model() == ResetKeyed(old(state.Model()))
  {
    state.renderSettings.ResetCellSize();
    state.renderSettings.ResetPos();
    state.RequestRedraw();
  }

  /** `f`. */
  method FracKey(state: AppState, shaderError: Option<string>)
    modifies state, state.renderSettings
    ensures state.Model() == FracKeyed(old(state.Model()), shaderError)
  {
    var fracI := (state.renderSettings.fracIndex + 1) % |Fractals.FRACTALS|;
    var res := state.renderSettings.SelectFractal(fracI, shaderError);
    state.HandleRes(res);
    state.RequestRedraw();
  }

  /** `c`. */
  method PaletteKey(state: AppState)
    modifies state, state.renderSettings
    ensures state.Model() == PaletteKeyed(old(state.Model()))
  {
    state.renderSettings.paletteIndex := (state.renderSettings.paletteIndex + 1) % |Palettes.COLORS|;
    state.RequestRepaint();
  }

  /** `v`: the field is a `usize`, so the sum cannot overflow. */
  method VoidFillKey(state: AppState)
    modifies state, state.renderSettings
    ensures state.Model() == VoidFillKeyed(old(state.Model()))
  {
    state.renderSettings.voidFillIndex := (state.renderSettings.voidFillIndex + 1) % |VoidFills.AllVoidFills()|;
    state.RequestRepaint();
  }

  /** `n`. */
  method HslModeKey(state: AppState)
    modifies state, state.renderSettings
    ensures state.Model() == HslModeKeyed(old(state.Model()))
  {
    var rs := state.renderSettings;
    rs.hsl := rs.hsl.(enabled := !rs.hsl.enabled);
    state.PreventCanvasVarHidden();
    state.RequestRepaint();
  }

  /** `+` or `-`. */
  method SelectedKey(state: AppState, up: bool)
    requires SelectedStepReady(state.Model(), up)
    modifies state, state.renderSettings
    ensures state.Model() == SelectedKeyed(old(state.Model()), up)
  {
    StepVar(state.renderSettings, AllSelectable()[state.selectedCanvasVariable], up);
    state.RequestRepaint();
  }

  /** The `match` on the selected variable shared by `+` and `-`. */
  method StepVar(rs: RenderSettings, v: SelectedVariable, up: bool)
    requires VarStepReady(rs.Model(), v, up)
    modifies rs
    ensures rs.Model() == VarStepped(old(rs.Model()), v, up)
  {
    match v
    case PaletteOffset =>
      ColorOffsetWidthIsSixteenTimesSmoothness(rs.Model());
      if up {
        rs.IncrementColorOffset();
      } else {
        rs.DecrementColorOffset();
      }
    case HslLum =>
      var x := StepHsl(rs.hsl.lum, up);
      rs.hsl := rs.hsl.(lum := x);
    case HslSat =>
      var x := StepHsl(rs.hsl.saturation, up);
      rs.hsl := rs.hsl.(saturation := x);
    case HueOffset =>
      var x := StepHsl(rs.hsl.hueOffset, up);
      rs.hsl := rs.hsl.(hueOffset := x);
    case HslSmoothness =>
      var x := StepHsl(rs.hsl.smoothness, up);
      rs.hsl := rs.hsl.(smoothness := x);
  }

  /** `increment_wrap` or `decrement_wrap` of an HSL number with `MAX_HSL_VALUE`. */
  method StepHsl(x: int, up: bool) returns (r: int)
    requires HslStepReady(x, up)
    ensures r == HslWrapped(x, up)
    ensures 0 <= x < MAX_HSL_VALUE ==> 0 <= r < MAX_HSL_VALUE
  {
    if up {
      r := IncrementWrap.IncrementWrap(x, MAX_HSL_VALUE);
    } else {
      r := IncrementWrap.DecrementWrap(x, MAX_HSL_VALUE);
    }
  }

  // ----------------------------------------------------------- clicking

  /** The canvas point under a terminal cell. */
  function ClickedPoint(m: AppModel, column: nat, row: nat): Complex
  {
    CoordToC(m.settings, RatatuiToCanvasCoords(m.settings, column, row))
  }

  /** What a click action needs: a scaling factor that keeps the zoom factor positive. */
  predicate ClickReady(m: AppModel, mode: ClickMode)
  {
    mode == ZoomIn || mode == ZoomOut ==> m.scalingFactor > -100
  }

  /**
   * The state after the click action `mode` at a terminal cell, before any
   * redraw request, for every action but Info; `modulus` is `|z|` as the
   * program computes it for the bailout.
   */
  function Clicked(m: AppModel, mode: ClickMode, column: nat, row: nat, modulus: Complex -> real): AppModel
    requires ClickReady(m, mode) && mode != Info
  {
    var coords := RatatuiToCanvasCoords(m.settings, column, row);
    var point := CoordToC(m.settings, coords);
    match mode
    case Move => m.(settings := m.settings.(pos := point))
    case ZoomOut => ZoomedAt(m, coords, Out)
    case ZoomIn => ZoomedAt(m, coords, In)
    case JuliaConstant => m.(settings := m.settings.(juliaConstant := point))
    case MandelConstant => m.(settings := m.settings.(mandelConstant := point))
    case BailOut => m.(settings := m.settings.(bailout := modulus(point)))
  }

  /**
   * Move centres the view on the clicked point, the constants take its value,
   * the zooms keep it under the cursor, and the bailout becomes its modulus;
   * each changes only its own setting.
   */
  lemma ClickedMeaning(m: AppModel, mode: ClickMode, column: nat, row: nat, modulus: Complex -> real)
    requires ClickReady(m, mode) && mode != Info
    ensures var r := Clicked(m, mode, column, row, modulus);
      var p := ClickedPoint(m, column, row);
      && (mode == Move ==> r.settings.pos == p && CoordToC(r.settings, Vec2(0, 0)) == p)
      && (mode == JuliaConstant ==> r == m.(settings := m.settings.(juliaConstant := p)))
      && (mode == MandelConstant ==> r == m.(settings := m.settings.(mandelConstant := p)))
      && (mode == BailOut ==> r == m.(settings := m.settings.(bailout := modulus(p))))
      && ((mode == ZoomIn || mode == ZoomOut) ==>
            CoordToC(r.settings, RatatuiToCanvasCoords(m.settings, column, row)) == p)
      && r.settings.canvasSize == m.settings.canvasSize
  {
    var coords := RatatuiToCanvasCoords(m.settings, column, row);
    if mode == ZoomIn {
      ZoomAtKeepsPivot(m, coords, In);
    } else if mode == ZoomOut {
      ZoomAtKeepsPivot(m, coords, Out);
    }
  }

  /** With a true modulus, a bailout click stores a non-negative bound whose square is the point's squared norm. */
  lemma BailOutIsModulus(m: AppModel, column: nat, row: nat, modulus: Complex -> real)
    requires forall z: Complex :: modulus(z) >= 0.0 && modulus(z) * modulus(z) == z.Norm2()
    ensures var b := Clicked(m, BailOut, column, row, modulus).settings.bailout;
      b >= 0.0 && b * b == ClickedPoint(m, column, row).Norm2()
  {
    var p := ClickedPoint(m, column, row);
    assert modulus(p) >= 0.0 && modulus(p) * modulus(p) == p.Norm2();
  }

  /** A click action other than Info on the logic state, before any redraw request. */
  method ApplyClick(state: AppState, mode: ClickMode, column: nat, row: nat, modulus: Complex -> real)
    requires ClickReady(state.Model(), mode) && mode != Info
    modifies state.renderSettings
    ensures state.Model() == Clicked(old(state.Model()), mode, column, row, modulus)
  {
    var rs := state.renderSettings;
    var coords := RatatuiToCanvasCoords(rs.Model(), column, row);
    var point := CoordToC(rs.Model(), coords);
    match mode
    case Move => rs.pos := point;
    case ZoomOut => state.ZoomAt(coords, Out);
    case ZoomIn => state.ZoomAt(coords, In);
    case JuliaConstant => rs.juliaConstant := point;
    case MandelConstant => rs.mandelConstant := point;
    case BailOut => rs.bailout := modulus(point);
  }

  /** The text Info logs for a clicked point: its parts and its divergence, as the caller formats them. */
  function ClickInfo(re: string, im: string, diverg: string): string
  {
    "Real: <acc " + re + ">\nImag: <acc " + im + ">\nDiverg: <acc " + diverg + ">"
  }
}
