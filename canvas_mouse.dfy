// The canvas mouse controls of src/components/canvas/mouse_handling.rs: the
// click action a button selects, the divergence lookup behind the Info
// action, and `handle_mouse_event` on the application object.
module CanvasMouse {
  import opened Base
  import opened ClickModes
  import opened Focuses
  import opened TerminalEvents
  import opened AppStates
  import opened Apps
  import opened CanvasControls
  import Logging

  /** The click action of a mouse event: the left button's, or the right one's for the right and middle buttons. */
  function ActionOfEvent(config: ClickConfig, kind: MouseEventKind): (r: Option<ClickMode>)
    ensures kind.OtherMouseEvent? <==> r.None?
    ensures kind == ButtonDown(MiddleButton) ==> r == Some(config.right)
  {
    match kind
    case ButtonDown(LeftButton) => Some(config.left)
    case ButtonDown(RightButton) => Some(config.right)
    case ButtonDown(MiddleButton) => Some(config.right)
    case OtherMouseEvent => None
  }

  /**
   * The divergence shown under a terminal cell: the matrix holds two rows
   * per terminal row, so row `r` and column `c` (both from 1) read
   * `matrix[2r - 2][c - 1]`; a cell in the first row or column, or outside
   * the matrix, has none.
   */
  function DivergAt(matrix: seq<seq<int>>, column: nat, row: nat): (r: Option<int>)
    ensures r.Some? <==> (column >= 1 && row >= 1 && row * 2 - 2 < |matrix| && column - 1 < |matrix[row * 2 - 2]|)
    ensures r.Some? ==> r.value == matrix[row * 2 - 2][column - 1]
  {
    if column == 0 || row == 0 then None
    else if row * 2 - 2 < |matrix| && column - 1 < |matrix[row * 2 - 2]| then Some(matrix[row * 2 - 2][column - 1])
    else None
  }

  /** What a click needs: a zoom click must keep the zoom factor positive. */
  predicate MouseReady(v: AppValues, e: MouseEvent)
  {
    var a := ActionOfEvent(v.state.clickConfig, e.kind);
    a.Some? ==> ClickReady(v.state, a.value)
  }

  /**
   * The application values after `handle_mouse_event(e)`. `modulus` is `|z|`
   * rounded to `f32` as the program computes it, `showF32` the display of a
   * real rounded to `f32`.
   */
  function MouseHandled(v: AppValues, e: MouseEvent, modulus: Complex -> real, showF32: real -> string): AppValues
    requires MouseReady(v, e)
  {
    var m := v.state.(focused := Canvas);
    var a := ActionOfEvent(v.state.clickConfig, e.kind);
    if a.None? then v.(state := m)
    else if a.value != Info then v.(state := Redrawn(Clicked(m, a.value, e.column, e.row, modulus)))
    else
      var d := DivergAt(v.divergMatrix, e.column, e.row);
      if d.None? then v.(state := m)
      else
        var p := ClickedPoint(m, e.column, e.row);
        var text := ClickInfo(showF32(p.re), showF32(p.im), IntToString(d.value));
        v.(state := m.(logMessages := Logging.Logged(m.logMessages, Logging.InfoTitled("Click Info", text))))
  }

  /**
   * Any mouse event on the canvas focuses it; an event that is not a button
   * press does nothing else; nothing but the logic state changes.
   */
  lemma MouseHandledFocuses(v: AppValues, e: MouseEvent, modulus: Complex -> real, showF32: real -> string)
    requires MouseReady(v, e)
    ensures MouseHandled(v, e, modulus, showF32).state.focused == Canvas
    ensures MouseHandled(v, e, modulus, showF32) == v.(state := MouseHandled(v, e, modulus, showF32).state)
    ensures e.kind.OtherMouseEvent? ==> MouseHandled(v, e, modulus, showF32) == v.(state := v.state.(focused := Canvas))
  {
  }

  /**
   * An Info click never asks for a redraw nor changes the settings; it logs
   * one message headed "Click Info" when the matrix has a value under the
   * cell and nothing otherwise.
   */
  lemma InfoClickOnlyLogs(v: AppValues, e: MouseEvent, modulus: Complex -> real, showF32: real -> string)
    requires MouseReady(v, e) && ActionOfEvent(v.state.clickConfig, e.kind) == Some(Info)
    ensures var r := MouseHandled(v, e, modulus, showF32).state;
      var log := v.state.logMessages;
      && r.redrawCanvas == v.state.redrawCanvas && r.settings == v.state.settings
      && (DivergAt(v.divergMatrix, e.column, e.row).None? ==> r.logMessages == log)
      && (DivergAt(v.divergMatrix, e.column, e.row).Some? && |log| < Logging.LOG_MESSAGE_LIMIT ==>
            |r.logMessages| == |log| + 1 && r.logMessages[..|log|] == log
            && StartsWith(r.logMessages[|log|], Logging.Header("bgacc", "Click Info")))
  {
    var d := DivergAt(v.divergMatrix, e.column, e.row);
    if d.Some? && |v.state.logMessages| < Logging.LOG_MESSAGE_LIMIT {
      InfoClickAppends(v, e, modulus, showF32);
    }
  }

  /** The entry an Info click on a value appends to a log with room. */
  lemma InfoClickAppends(v: AppValues, e: MouseEvent, modulus: Complex -> real, showF32: real -> string)
    requires MouseReady(v, e) && ActionOfEvent(v.state.clickConfig, e.kind) == Some(Info)
    requires DivergAt(v.divergMatrix, e.column, e.row).Some? && |v.state.logMessages| < Logging.LOG_MESSAGE_LIMIT
    ensures var r := MouseHandled(v, e, modulus, showF32).state;
      var log := v.state.logMessages;
      |r.logMessages| == |log| + 1 && r.logMessages[..|log|] == log
      && StartsWith(r.logMessages[|log|], Logging.Header("bgacc", "Click Info"))
  {
    var r := MouseHandled(v, e, modulus, showF32).state;
    var log := v.state.logMessages;
    var d := DivergAt(v.divergMatrix, e.column, e.row);
    var m := v.state.(focused := Canvas);
    var p := ClickedPoint(m, e.column, e.row);
    var text := ClickInfo(showF32(p.re), showF32(p.im), IntToString(d.value));
    assert r.logMessages == log + [Logging.InfoTitled("Click Info", text)];
    InfoStartsWithHeader("Click Info", text);
  }

  /** An info entry starts with its header. */
  lemma InfoStartsWithHeader(title: string, body: string)
    ensures StartsWith(Logging.InfoTitled(title, body), Logging.Header("bgacc", title))
  {
    var h := Logging.Header("bgacc", title);
    assert Logging.InfoTitled(title, body)[..|h|] == h;
  }

  /** Every click action but Info asks for a redraw and logs nothing. */
  lemma OtherClickRedraws(v: AppValues, e: MouseEvent, modulus: Complex -> real, showF32: real -> string)
    requires MouseReady(v, e) && ActionOfEvent(v.state.clickConfig, e.kind).Some?
    requires ActionOfEvent(v.state.clickConfig, e.kind).value != Info
    ensures MouseHandled(v, e, modulus, showF32).state.redrawCanvas
    ensures MouseHandled(v, e, modulus, showF32).state.logMessages == v.state.logMessages
  {
  }

  /** `handle_mouse_event` on the application. */
  method HandleMouseEvent(app: App, e: MouseEvent, modulus: Complex -> real, showF32: real -> string)
    requires MouseReady(app.Model(), e)
    modifies app.appState, app.appState.renderSettings
    ensures app.Model() == MouseHandled(old(app.Model()), e, modulus, showF32)
  {
    var state := app.appState;
    state.focused := Canvas;
    var action := match e.kind
      case ButtonDown(LeftButton) => state.clickConfig.left
      case ButtonDown(RightButton) => state.clickConfig.right
      case ButtonDown(MiddleButton) => state.clickConfig.right
      case OtherMouseEvent => Info;
    if e.kind.OtherMouseEvent? {
      return;
    }
    if action != Info {
      ApplyClick(state, action, e.column, e.row, modulus);
      state.RequestRedraw();
      return;
    }
    var point := ClickedPoint(state.Model(), e.column, e.row);
    if e.column == 0 || e.row == 0 {
      return;
    }
    if e.row * 2 - 2 >= |app.divergMatrix| || e.column - 1 >= |app.divergMatrix[e.row * 2 - 2]| {
      return;
    }
    var diverg := app.divergMatrix[e.row * 2 - 2][e.column - 1];
    state.LogInfoTitle("Click Info", ClickInfo(showF32(point.re), showF32(point.im), IntToString(diverg)));
  }
}
