// The routing of terminal events to the components (src/app/events.rs):
// a key goes to the focused component, a mouse button press to the component
// under the mouse cursor. The log panel's own handlers only move its scroll
// state, which is not modelled, and focus it on a click.
module AppEvents {
  import opened Base
  import opened Focuses
  import opened TerminalEvents
  import opened TextInput
  import opened AppStates
  import opened Apps
  import CanvasKeys
  import CanvasMouse
  import CommandLine = Input
  import Commands

  // ------------------------------------------------------------ keys

  /** What dispatching a key needs: a canvas key that can be applied, a command table the input can use. */
  predicate KeyReady(v: AppValues, key: KeyEvent, commands: map<string, Commands.Command>)
  {
    && (v.state.focused == Canvas ==> CanvasKeys.ActionReady(v.state, CanvasKeys.ActionOf(key.code)))
    && (v.state.focused == Input ==> CommandLine.WellFormedTable(commands))
  }

  /**
   * The application values after `dispatch_event(key)`: the canvas handles
   * the key code, the command line the whole key, and the log panel only
   * scrolls.
   */
  function KeyDispatched(v: AppValues, key: KeyEvent, shaderError: Option<string>,
                         commands: map<string, Commands.Command>,
                         execute: (Commands.Command, seq<string>, AppModel) -> (AppModel, Result<(), string>),
                         edit: (InputField, KeyEvent) -> InputField): AppValues
    requires KeyReady(v, key, commands)
  {
    match v.state.focused
    case Canvas => CanvasKeys.KeyHandled(v, key.code, shaderError)
    case Input => v.(state := CommandLine.KeyHandled(v.state, key, commands, execute, edit))
    case LogPanel => v
  }

  /**
   * A key reaches only the focused component: with the log panel focused it
   * changes nothing, and in the command line it leaves the side panel, the
   * divergence matrix and the component areas alone.
   */
  lemma KeyDispatchedMeaning(v: AppValues, key: KeyEvent, shaderError: Option<string>,
                             commands: map<string, Commands.Command>,
                             execute: (Commands.Command, seq<string>, AppModel) -> (AppModel, Result<(), string>),
                             edit: (InputField, KeyEvent) -> InputField)
    requires KeyReady(v, key, commands)
    ensures var r := KeyDispatched(v, key, shaderError, commands, execute, edit);
      && (v.state.focused == LogPanel ==> r == v)
      && (v.state.focused == Input ==> r == v.(state := r.state))
  {
  }

  /** A key sent to the canvas keeps the focus there and leaves the command line and its history alone. */
  lemma CanvasKeyKeepsCommandLine(v: AppValues, key: KeyEvent, shaderError: Option<string>,
                                  commands: map<string, Commands.Command>,
                                  execute: (Commands.Command, seq<string>, AppModel) -> (AppModel, Result<(), string>),
                                  edit: (InputField, KeyEvent) -> InputField)
    requires KeyReady(v, key, commands) && v.state.focused == Canvas
    ensures var r := KeyDispatched(v, key, shaderError, commands, execute, edit);
      r.state.focused == Canvas && r.state.commandInput == v.state.commandInput
      && r.state.lastCommand == v.state.lastCommand
  {
    var a := CanvasKeys.ActionOf(key.code);
    if a == CanvasKeys.SidepanelAction {
      SidepanelToggledMeaning(v);
    } else {
      ActionKeepsCommandLine(v.state, a, shaderError);
    }
  }

  /** No canvas action touches the focus, the command line or the last command. */
  lemma ActionKeepsCommandLine(m: AppModel, a: CanvasKeys.CanvasAction, shaderError: Option<string>)
    requires CanvasKeys.ActionReady(m, a) && a != CanvasKeys.SidepanelAction
    ensures var r := CanvasKeys.ActionApplied(m, a, shaderError);
      r.focused == m.focused && r.commandInput == m.commandInput && r.lastCommand == m.lastCommand
  {
    match a
    case MoveAction(h) =>
    case ZoomAction(d) =>
    case PrecAction(inc) =>
    case ResetAction =>
    case FracAction =>
    case PaletteAction =>
    case StepAction(up) =>
    case HslModeAction =>
    case NextVarAction =>
    case VoidFillAction =>
    case MaxIterAction(inc) =>
    case NoAction =>
  }

  /** `dispatch_event`. */
  method DispatchEvent(app: App, key: KeyEvent, shaderError: Option<string>,
                       commands: map<string, Commands.Command>,
                       execute: (Commands.Command, seq<string>, AppModel) -> (AppModel, Result<(), string>),
                       edit: (InputField, KeyEvent) -> InputField)
    requires KeyReady(app.Model(), key, commands)
    modifies app, app.appState, app.appState.renderSettings
    ensures app.Model() == KeyDispatched(old(app.Model()), key, shaderError, commands, execute, edit)
  {
    match app.appState.focused
    case Canvas => CanvasKeys.HandleKeyCode(app, key.code, shaderError);
    case Input => DispatchToInput(app, key, commands, execute, edit);
    case LogPanel =>
  }

  /** A key sent to the command line changes the logic state alone. */
  method DispatchToInput(app: App, key: KeyEvent, commands: map<string, Commands.Command>,
                         execute: (Commands.Command, seq<string>, AppModel) -> (AppModel, Result<(), string>),
                         edit: (InputField, KeyEvent) -> InputField)
    requires CommandLine.WellFormedTable(commands)
    modifies app.appState, app.appState.renderSettings
    ensures app.Model() == old(app.Model()).(state := CommandLine.KeyHandled(old(app.Model()).state, key, commands, execute, edit))
  {
    CommandLine.HandleKey(app.appState, key, commands, execute, edit);
  }

  // ------------------------------------------------------------ clicks

  /**
   * The application values after `handle_mouse_event(e)`: only a button
   * press is handled, by the component under the mouse cursor if there is one.
   */
  function MouseRouted(v: AppValues, e: MouseEvent, modulus: Complex -> real, showF32: real -> string): AppValues
    requires CanvasMouse.MouseReady(v, e)
  {
    if e.kind.OtherMouseEvent? then v
    else
      match ComponentAt(v.chunks, e.column, e.row)
      case None => v
      case Some(Canvas) => CanvasMouse.MouseHandled(v, e, modulus, showF32)
      case Some(Input) => v.(state := v.state.(focused := Input))
      case Some(LogPanel) => v.(state := v.state.(focused := LogPanel))
  }

  /**
   * A mouse event that is not a button press, or that lands on no
   * component, changes nothing; a press on a component focuses that
   * component; only the logic state ever changes, and a press outside the
   * canvas changes nothing but the focus.
   */
  lemma MouseRoutedMeaning(v: AppValues, e: MouseEvent, modulus: Complex -> real, showF32: real -> string)
    requires CanvasMouse.MouseReady(v, e)
    ensures var r := MouseRouted(v, e, modulus, showF32);
      var target := ComponentAt(v.chunks, e.column, e.row);
      && (e.kind.OtherMouseEvent? || target.None? ==> r == v)
      && (e.kind.ButtonDown? && target.Some? ==> r.state.focused == target.value)
      && (target != Some(Canvas) ==> r.state == v.state.(focused := r.state.focused))
      && r == v.(state := r.state)
  {
    if e.kind.ButtonDown? && ComponentAt(v.chunks, e.column, e.row) == Some(Canvas) {
      CanvasMouse.MouseHandledFocuses(v, e, modulus, showF32);
    }
  }

  /** `App::handle_mouse_event`. */
  method HandleMouseEvent(app: App, e: MouseEvent, modulus: Complex -> real, showF32: real -> string)
    requires CanvasMouse.MouseReady(app.Model(), e)
    modifies app.appState, app.appState.renderSettings
    ensures app.Model() == MouseRouted(old(app.Model()), e, modulus, showF32)
  {
    if e.kind.ButtonDown? {
      var component := app.GetComponentAtPos(e.column, e.row);
      if component.None? {
        return;
      }
      match component.value
      case Canvas => CanvasMouse.HandleMouseEvent(app, e, modulus, showF32);
      case Input => CommandLine.HandleMouse(app.appState, e);
      case LogPanel => app.appState.focused := LogPanel;
    }
  }
}
