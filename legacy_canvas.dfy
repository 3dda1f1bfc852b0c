// The canvas controls of the earlier revision, src/components/canvas.rs,
// which act on `AppState` alone: the same movement, zoom, precision, reset,
// fractal, palette, void fill and iteration keys, `+` and `-` always on the
// palette offset, no side panel, HSL or variable keys, and clicks that ask
// for a redraw after every action, Info included.
module LegacyCanvas {
  import opened Base
  import opened ClickModes
  import opened SelectableVariables
  import opened Focuses
  import opened TerminalEvents
  import opened AppStates
  import opened Apps
  import opened CanvasControls
  import opened CanvasKeys
  import opened CanvasMouse
  import Logging

  // ------------------------------------------------------------ keys

  /** The keys of the earlier key map other than `+` and `-`; `b`, `n` and `t` do nothing there. */
  function LegacyActionOf(code: KeyCode): (a: CanvasAction)
    ensures !a.SidepanelAction? && !a.HslModeAction? && !a.NextVarAction? && !a.StepAction?
  {
    match code
    case Char(c) =>
      if c == 'b' || c == 'n' || c == 't' || c == '+' || c == '-' then NoAction else ActionOf(code)
    case _ => ActionOf(code)
  }

  /** What a key of the earlier map needs: the shared conditions, and an offset step without overflow for `+` and `-`. */
  predicate LegacyKeyReady(m: AppModel, code: KeyCode)
  {
    if code == Char('+') || code == Char('-') then OffsetStepReady(m.settings, code == Char('+'))
    else ActionReady(m, LegacyActionOf(code))
  }

  /** The state after the earlier `handle_key_code(code)`. */
  function LegacyKeyHandled(m: AppModel, code: KeyCode, shaderError: Option<string>): AppModel
    requires LegacyKeyReady(m, code)
  {
    if code == Char('+') || code == Char('-') then Repainted(m.(settings := OffsetStepped(m.settings, code == Char('+'))))
    else ActionApplied(m, LegacyActionOf(code), shaderError)
  }

  /** The two revisions agree on every key the earlier one knows except `+`, `-`, `b`, `n` and `t`. */
  lemma LegacyKeysAgree(v: AppValues, code: KeyCode, shaderError: Option<string>)
    requires LegacyKeyReady(v.state, code)
    requires code !in [Char('b'), Char('n'), Char('t'), Char('+'), Char('-')]
    ensures ActionReady(v.state, ActionOf(code)) && LegacyKeyHandled(v.state, code, shaderError) == KeyHandled(v, code, shaderError).state
  {
  }

  /** They agree on `+` and `-` too when the palette offset is the selected variable. */
  lemma LegacyOffsetKeysAgree(v: AppValues, code: KeyCode, shaderError: Option<string>)
    requires LegacyKeyReady(v.state, code)
    requires code in [Char('+'), Char('-')] && v.state.selectedCanvasVariable == 0
    ensures ActionReady(v.state, ActionOf(code)) && LegacyKeyHandled(v.state, code, shaderError) == KeyHandled(v, code, shaderError).state
  {
    var m := v.state;
    var up := code == Char('+');
    assert ActionOf(code) == StepAction(up);
    assert AllSelectable()[0] == PaletteOffset;
    assert SelectedStepReady(m, up);
    assert ActionApplied(m, StepAction(up), shaderError) == SelectedKeyed(m, up);
    assert SelectedKeyed(m, up) == Repainted(m.(settings := OffsetStepped(m.settings, up)));
  }

  /** `b`, `n` and `t` do nothing in the earlier revision. */
  lemma LegacyUnboundKeys(m: AppModel, code: KeyCode, shaderError: Option<string>)
    requires code in [Char('b'), Char('n'), Char('t')]
    ensures LegacyKeyReady(m, code) && LegacyKeyHandled(m, code, shaderError) == m
  {
  }

  /** With the offset in range, `+` then `-` restores it. */
  lemma LegacyOffsetKeysUndo(m: AppModel)
    requires SettingsInRange(m.settings)
    ensures LegacyKeyReady(m, Char('+'))
    ensures LegacyKeyReady(LegacyKeyHandled(m, Char('+'), None), Char('-'))
    ensures LegacyKeyHandled(LegacyKeyHandled(m, Char('+'), None), Char('-'), None) == Repainted(m)
  {
    OffsetStepsUndo(m.settings);
  }

  /** The earlier `handle_key_code` on the state. */
  method LegacyHandleKeyCode(state: AppState, code: KeyCode, shaderError: Option<string>)
    requires LegacyKeyReady(state.Model(), code)
    modifies state, state.renderSettings
    ensures state.Model() == LegacyKeyHandled(old(state.Model()), code, shaderError)
  {
    if code == Char('+') || code == Char('-') {
      StepVar(state.renderSettings, PaletteOffset, code == Char('+'));
      state.RequestRepaint();
    } else {
      ApplyAction(state, LegacyActionOf(code), shaderError);
    }
  }

  // ------------------------------------------------------------ clicks

  /** What a click needs in the earlier revision: the same as in the later one. */
  predicate LegacyMouseReady(m: AppModel, e: MouseEvent)
  {
    var a := ActionOfEvent(m.clickConfig, e.kind);
    a.Some? ==> ClickReady(m, a.value)
  }

  /**
   * The state after the earlier `handle_mouse_event(e)`: `divergOf` is the
   * divergence the fractal's closure computes for a point.
   */
  function LegacyMouseHandled(m: AppModel, e: MouseEvent, modulus: Complex -> real, showF32: real -> string,
                              divergOf: Complex -> int): AppModel
    requires LegacyMouseReady(m, e)
  {
    var f := m.(focused := Canvas);
    var a := ActionOfEvent(m.clickConfig, e.kind);
    if a.None? then f
    else if a.value != Info then Redrawn(Clicked(f, a.value, e.column, e.row, modulus))
    else
      var p := ClickedPoint(f, e.column, e.row);
      var text := ClickInfo(showF32(p.re), showF32(p.im), IntToString(divergOf(p)));
      Redrawn(f.(logMessages := Logging.Logged(f.logMessages, Logging.InfoTitled("Click Info", text))))
  }

  /**
   * The two revisions agree on every click but Info; on Info the earlier one
   * always logs, computing the divergence afresh, and asks for a redraw,
   * while the later one never redraws.
   */
  lemma LegacyClicksAgree(v: AppValues, e: MouseEvent, modulus: Complex -> real, showF32: real -> string,
                          divergOf: Complex -> int)
    requires LegacyMouseReady(v.state, e)
    ensures MouseReady(v, e)
    ensures ActionOfEvent(v.state.clickConfig, e.kind) != Some(Info) ==>
      LegacyMouseHandled(v.state, e, modulus, showF32, divergOf) == MouseHandled(v, e, modulus, showF32).state
    ensures ActionOfEvent(v.state.clickConfig, e.kind) == Some(Info) ==>
      var r := LegacyMouseHandled(v.state, e, modulus, showF32, divergOf);
      && r.redrawCanvas && r.settings == v.state.settings
      && r.logMessages[|r.logMessages| - 1] == Logging.InfoTitled("Click Info", ClickInfo(
           showF32(ClickedPoint(v.state, e.column, e.row).re), showF32(ClickedPoint(v.state, e.column, e.row).im),
           IntToString(divergOf(ClickedPoint(v.state, e.column, e.row)))))
  {
  }

  /** The earlier `handle_mouse_event` on the state. */
  method LegacyHandleMouseEvent(state: AppState, e: MouseEvent, modulus: Complex -> real, showF32: real -> string,
                                divergOf: Complex -> int)
    requires LegacyMouseReady(state.Model(), e)
    modifies state, state.renderSettings
    ensures state.Model() == LegacyMouseHandled(old(state.Model()), e, modulus, showF32, divergOf)
  {
    state.focused := Canvas;
    if e.kind.OtherMouseEvent? {
      return;
    }
    var action := ActionOfEvent(state.clickConfig, e.kind).value;
    if action != Info {
      ApplyClick(state, action, e.column, e.row, modulus);
    } else {
      var point := ClickedPoint(state.Model(), e.column, e.row);
      state.LogInfoTitle("Click Info", ClickInfo(showF32(point.re), showF32(point.im), IntToString(divergOf(point))));
    }
    state.RequestRedraw();
  }
}
