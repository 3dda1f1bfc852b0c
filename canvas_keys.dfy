// The canvas keyboard controls of src/components/canvas/keyboard_handling.rs:
// which key does what, the values of the application after the key, and
// `handle_key_code` on the application object.
module CanvasKeys {
  import opened Base
  import opened Zooming
  import opened SelectableVariables
  import opened TerminalEvents
  import opened AppStates
  import opened Apps
  import opened CanvasControls
  import Fractals

  /** What a canvas key asks for. */
  datatype CanvasAction =
    | MoveAction(heading: Heading)
    | ZoomAction(direction: ZoomDirection)
    | SidepanelAction
    | PrecAction(increment: int)
    | ResetAction
    | FracAction
    | PaletteAction
    | StepAction(up: bool)
    | HslModeAction
    | NextVarAction
    | VoidFillAction
    | MaxIterAction(increment: int)
    | NoAction

  /** The key map of the canvas. */
  function ActionOf(code: KeyCode): CanvasAction
  {
    match code
    case Left => MoveAction(West)
    case Right => MoveAction(East)
    case Down => MoveAction(South)
    case Up => MoveAction(North)
    case Char(c) => CharAction(c)
    case _ => NoAction
  }

  /** The letter keys of the canvas. */
  function CharAction(c: char): CanvasAction
  {
    match c
    case 'h' => MoveAction(West)
    case 'l' => MoveAction(East)
    case 'j' => MoveAction(South)
    case 'k' => MoveAction(North)
    case 's' => ZoomAction(Out)
    case 'b' => SidepanelAction
    case 'd' => ZoomAction(In)
    case 'u' => PrecAction(-10)
    case 'i' => PrecAction(10)
    case 'r' => ResetAction
    case 'f' => FracAction
    case 'c' => PaletteAction
    case '-' => StepAction(false)
    case '+' => StepAction(true)
    case 'n' => HslModeAction
    case 't' => NextVarAction
    case 'v' => VoidFillAction
    case 'o' => MaxIterAction(10)
    case 'y' => MaxIterAction(-10)
    case _ => NoAction
  }

  /**
   * The conditions under which the action cannot fail: a zoom factor that
   * stays positive, a canvas width to divide by and a fractal to reset to,
   * and a selected variable whose step does not overflow.
   */
  predicate ActionReady(m: AppModel, a: CanvasAction)
  {
    match a
    case ZoomAction(_) => m.scalingFactor > -100
    case ResetAction => m.settings.canvasSize.x != 0 && m.settings.fracIndex < |Fractals.FRACTALS|
    case StepAction(up) => SelectedStepReady(m, up)
    case _ => true
  }

  /** The logic state after a canvas action other than the side panel toggle. */
  function ActionApplied(m: AppModel, a: CanvasAction, shaderError: Option<string>): AppModel
    requires ActionReady(m, a) && a != SidepanelAction
  {
    match a
    case MoveAction(h) => Moved(m, h)
    case ZoomAction(d) => ZoomKeyed(m, d)
    case PrecAction(inc) => PrecKeyed(m, inc)
    case ResetAction => ResetKeyed(m)
    case FracAction => FracKeyed(m, shaderError)
    case PaletteAction => PaletteKeyed(m)
    case StepAction(up) => SelectedKeyed(m, up)
    case HslModeAction => HslModeKeyed(m)
    case NextVarAction => NextVarKeyed(m)
    case VoidFillAction => VoidFillKeyed(m)
    case MaxIterAction(inc) => MaxIterKeyed(m, inc)
    case NoAction => m
  }

  /** The application values after `handle_key_code(code)`; `shaderError` is what building a shader reports. */
  function KeyHandled(v: AppValues, code: KeyCode, shaderError: Option<string>): AppValues
    requires ActionReady(v.state, ActionOf(code))
  {
    var a := ActionOf(code);
    if a == SidepanelAction then SidepanelToggled(v) else v.(state := ActionApplied(v.state, a, shaderError))
  }

  /** Every key but `b` leaves the side panel, the divergence matrix and the component areas alone; an unmapped key changes nothing at all. */
  lemma KeyHandledFrame(v: AppValues, code: KeyCode, shaderError: Option<string>)
    requires ActionReady(v.state, ActionOf(code))
    ensures ActionOf(code) != SidepanelAction ==>
      KeyHandled(v, code, shaderError) == v.(state := KeyHandled(v, code, shaderError).state)
    ensures ActionOf(code) == NoAction ==> KeyHandled(v, code, shaderError) == v
    ensures code == Enter || code == Tab || code == OtherKey || code == Char('q') ==> KeyHandled(v, code, shaderError) == v
  {
  }

  /** The arrows and h, j, k, l are the same keys, and each movement key is undone by its opposite. */
  lemma {:induction false} MovementKeysUndo(v: AppValues)
    ensures ActionOf(Char('h')) == ActionOf(Left) && ActionOf(Char('l')) == ActionOf(Right)
    ensures ActionOf(Char('j')) == ActionOf(Down) && ActionOf(Char('k')) == ActionOf(Up)
    ensures KeyHandled(KeyHandled(v, Char('l'), None), Char('h'), None) == v.(state := Redrawn(v.state))
    ensures KeyHandled(KeyHandled(v, Char('k'), None), Char('j'), None) == v.(state := Redrawn(v.state))
  {
    MovedMeaning(v.state, East);
    MovedMeaning(v.state, North);
  }

  /** `d` then `s` zooms back out to the same view, and `b` twice restores the side panel. */
  lemma {:induction false} ZoomAndPanelKeysUndo(v: AppValues)
    requires v.state.scalingFactor > -100
    ensures KeyHandled(KeyHandled(v, Char('d'), None), Char('s'), None) == v.(state := Redrawn(v.state))
    ensures KeyHandled(KeyHandled(v, Char('b'), None), Char('b'), None).hideSidepanel == v.hideSidepanel
  {
    ZoomKeysUndo(v.state);
  }

  /** `+` then `-` restores the selected variable when every steppable value is in range. */
  lemma {:induction false} PlusMinusUndo(v: AppValues)
    requires SettingsInRange(v.state.settings) && v.state.selectedCanvasVariable < |AllSelectable()|
    ensures ActionReady(v.state, ActionOf(Char('+')))
    ensures ActionReady(KeyHandled(v, Char('+'), None).state, ActionOf(Char('-')))
    ensures KeyHandled(KeyHandled(v, Char('+'), None), Char('-'), None) == v.(state := Repainted(v.state))
  {
    SelectedKeysUndo(v.state);
  }

  /**
   * `handle_key_code`: the canvas key `code` applied to the application. The
   * shader is not built here: a failing build is the `shaderError` parameter.
   */
  method HandleKeyCode(app: App, code: KeyCode, shaderError: Option<string>)
    requires ActionReady(app.Model().state, ActionOf(code))
    modifies app, app.appState, app.appState.renderSettings
    ensures app.Model() == KeyHandled(old(app.Model()), code, shaderError)
  {
    var a := ActionOf(code);
    if a == SidepanelAction {
      app.ToggleSidepanel();
    } else {
      ApplyAction(app.appState, a, shaderError);
    }
  }

  /** The arms of `handle_key_code` that act on the logic state alone. */
  method ApplyAction(state: AppState, a: CanvasAction, shaderError: Option<string>)
    requires ActionReady(state.Model(), a) && a != SidepanelAction
    modifies state, state.renderSettings
    ensures state.Model() == ActionApplied(old(state.Model()), a, shaderError)
  {
    match a
    case MoveAction(h) => MoveKey(state, h);
    case ZoomAction(d) => ZoomKey(state, d);
    case PrecAction(inc) => PrecKey(state, inc);
    case ResetAction => ResetKey(state);
    case FracAction => FracKey(state, shaderError);
    case PaletteAction => PaletteKey(state);
    case StepAction(up) => SelectedKey(state, up);
    case HslModeAction => HslModeKey(state);
    case NextVarAction => state.NextCanvVar();
    case VoidFillAction => VoidFillKey(state);
    case MaxIterAction(inc) => state.IncrementMaxIter(inc);
    case NoAction =>
  }
}
