// The application object (src/app/mod.rs and src/app/events.rs): the logic
// state, the divergence matrix on display, the component areas and whether
// the side panel is hidden, with the global key handling, the routing of a
// mouse position to a component, and pasting into the command line.
module Apps {
  import opened Base
  import opened Focuses
  import opened TextInput
  import opened TerminalEvents
  import opened AppStates

  /** The values of an `App` that the modelled methods read or write; the canvas points and the capture jobs are left out. */
  datatype AppValues = AppValues(
    state: AppModel,
    hideSidepanel: bool,
    divergMatrix: seq<seq<int>>,
    chunks: Chunks)

  const EMPTY_RECT: Rect := Rect(0, 0, 0, 0)

  // --------------------------------------------------------- side panel

  /** The values after `toggle_sidepanel`. */
  function SidepanelToggled(v: AppValues): (r: AppValues)
  {
    var hidden := !v.hideSidepanel;
    v.(hideSidepanel := hidden,
       state := v.state.(redrawCanvas := true, repaintCanvas := true,
                         focused := if hidden then Canvas else v.state.focused))
  }

  /**
   * Toggling flips the flag and requests a redraw; hiding the panel moves the
   * focus to the canvas, showing it keeps the focus, and nothing else changes.
   */
  lemma SidepanelToggledMeaning(v: AppValues)
    ensures SidepanelToggled(v).hideSidepanel == !v.hideSidepanel
    ensures SidepanelToggled(v).state.redrawCanvas && SidepanelToggled(v).state.repaintCanvas
    ensures !v.hideSidepanel ==> SidepanelToggled(v).state.focused == Canvas
    ensures v.hideSidepanel ==> SidepanelToggled(v).state.focused == v.state.focused
    ensures SidepanelToggled(v).state.(redrawCanvas := v.state.redrawCanvas, repaintCanvas := v.state.repaintCanvas,
                                       focused := v.state.focused) == v.state
    ensures SidepanelToggled(v).(hideSidepanel := v.hideSidepanel, state := v.state) == v
  {
  }

  /** Toggling twice restores the flag and keeps the focus on the canvas if it was there. */
  lemma SidepanelToggledTwice(v: AppValues)
    ensures SidepanelToggled(SidepanelToggled(v)).hideSidepanel == v.hideSidepanel
    ensures v.state.focused == Canvas ==> SidepanelToggled(SidepanelToggled(v)).state.focused == Canvas
  {
  }

  // ------------------------------------------------------ global keys

  /** The focus after Tab: Input, then Canvas, then the log panel, then Input again. */
  function NextFocus(f: Focus): Focus
  {
    match f
    case Input => Canvas
    case Canvas => LogPanel
    case LogPanel => Input
  }

  /** The values after `handle_event(key)`, and whether the key was caught. */
  function GlobalKeyHandled(v: AppValues, key: KeyEvent): (AppValues, bool)
  {
    if key.code == Char('c') && key.modifiers == Control then
      (v.(state := v.state.(quit := true)), true)
    else if key.code == Tab then
      (v.(state := v.state.(focused := NextFocus(v.state.focused))), true)
    else
      (v, false)
  }

  /**
   * Ctrl+C quits, Tab moves the focus on and three Tabs bring it back, each
   * focus is reached by Tab from exactly one other; any other key is not
   * caught and changes nothing.
   */
  lemma GlobalKeys(v: AppValues, key: KeyEvent)
    ensures key.code == Char('c') && key.modifiers == Control ==>
      GlobalKeyHandled(v, key) == (v.(state := v.state.(quit := true)), true)
    ensures key.code == Tab ==> GlobalKeyHandled(v, key).1 && GlobalKeyHandled(v, key).0.state.focused != v.state.focused
    ensures !(key.code == Char('c') && key.modifiers == Control) && key.code != Tab ==> GlobalKeyHandled(v, key) == (v, false)
    ensures key.code == Tab ==>
      var tab := KeyEvent(Tab, key.modifiers);
      GlobalKeyHandled(GlobalKeyHandled(GlobalKeyHandled(v, tab).0, tab).0, tab).0 == v
  {
  }

  // ---------------------------------------------------- mouse routing

  /** `get_component_at_pos`: the canvas first, then the log panel, then the input. */
  function ComponentAt(chunks: Chunks, x: nat, y: nat): (r: Option<Focus>)
    ensures r == Some(Canvas) <==> Contains(chunks.canvas, x, y)
    ensures r == Some(LogPanel) <==> !Contains(chunks.canvas, x, y) && Contains(chunks.logPanel, x, y)
    ensures r == Some(Input) <==>
      !Contains(chunks.canvas, x, y) && !Contains(chunks.logPanel, x, y) && Contains(chunks.input, x, y)
    ensures r == None <==>
      !Contains(chunks.canvas, x, y) && !Contains(chunks.logPanel, x, y) && !Contains(chunks.input, x, y)
  {
    if Contains(chunks.canvas, x, y) then Some(Canvas)
    else if Contains(chunks.logPanel, x, y) then Some(LogPanel)
    else if Contains(chunks.input, x, y) then Some(Input)
    else None
  }

  // ------------------------------------------------------------ pasting

  /** The characters `handle_paste` inserts: the pasted text with each line feed turned into a space. */
  function Pasted(text: string): (r: string)
    ensures |r| == |text|
    ensures forall i :: 0 <= i < |text| ==> r[i] == (if text[i] == '\n' then ' ' else text[i])
    ensures forall i :: 0 <= i < |r| ==> r[i] != '\n'
  {
    seq(|text|, i requires 0 <= i < |text| => if text[i] == '\n' then ' ' else text[i])
  }

  // ------------------------------------------------------------ the object

  /** `App`, updated in place by the event loop and the components. */
  class App {
    const appState: AppState
    var hideSidepanel: bool
    var divergMatrix: seq<seq<int>>
    var chunks: Chunks

    /** The current values, the logic state included. */
    function Model(): AppValues
      reads this, appState, appState.renderSettings
    {
      AppValues(appState.Model(), hideSidepanel, divergMatrix, chunks)
    }

    /** `App::default()`. */
    constructor ()
      ensures Model() == AppValues(DEFAULT_APP_MODEL, false, [], Chunks(EMPTY_RECT, EMPTY_RECT, EMPTY_RECT))
      ensures fresh(appState) && fresh(appState.renderSettings)
    {
      appState := new AppState();
      hideSidepanel := false;
      divergMatrix := [];
      chunks := Chunks(EMPTY_RECT, EMPTY_RECT, EMPTY_RECT);
    }

    /** `toggle_sidepanel`. */
    method ToggleSidepanel()
      modifies this, appState
      ensures Model() == SidepanelToggled(old(Model()))
    {
      hideSidepanel := !hideSidepanel;
      appState.RequestRedraw();
      if hideSidepanel {
        appState.focused := Canvas;
      }
    }

    /** `handle_event`: the keys every component shares; returns whether the key was caught. */
    method HandleEvent(key: KeyEvent) returns (caught: bool)
      modifies appState
      ensures (Model(), caught) == GlobalKeyHandled(old(Model()), key)
    {
      if key.code == Char('c') && key.modifiers == Control {
        appState.quit := true;
      } else if key.code == Tab {
        appState.focused := match appState.focused
          case Input => Canvas
          case Canvas => LogPanel
          case LogPanel => Input;
      } else {
        return false;
      }
      return true;
    }

    /** `get_component_at_pos`. */
    function GetComponentAtPos(x: nat, y: nat): (r: Option<Focus>)
      reads this
      ensures r == ComponentAt(chunks, x, y)
    {
      if Contains(chunks.canvas, x, y) then Some(Canvas)
      else if Contains(chunks.logPanel, x, y) then Some(LogPanel)
      else if Contains(chunks.input, x, y) then Some(Input)
      else None
    }

    /**
     * `handle_paste`: each character of the text, a line feed as a space, is
     * typed into the command line; the text lands at the cursor as a whole.
     */
    method HandlePaste(text: string)
      requires Valid(appState.commandInput)
      modifies appState
      ensures Model() == old(Model()).(state := old(Model()).state.(
        commandInput := InsertAll(old(appState.commandInput), Pasted(text))))
      ensures appState.commandInput.value == old(appState.commandInput.value[..appState.commandInput.cursor])
        + Pasted(text) + old(appState.commandInput.value[appState.commandInput.cursor..])
    {
      ghost var f := appState.commandInput;
      ghost var p := Pasted(text);
      var i := 0;
      while i < |text|
        invariant 0 <= i <= |text|
        invariant appState.commandInput == InputField(f.value[..f.cursor] + p[..i] + f.value[f.cursor..], f.cursor + i)
        invariant Model() == old(Model()).(state := old(Model()).state.(commandInput := appState.commandInput))
      {
        var c := if text[i] == '\n' then ' ' else text[i];
        ghost var g := appState.commandInput;
        assert g.value[..g.cursor] == f.value[..f.cursor] + p[..i];
        assert g.value[g.cursor..] == f.value[f.cursor..];
        appState.commandInput := InsertChar(appState.commandInput, c);
        assert p[..i + 1] == p[..i] + [c];
        i := i + 1;
      }
      assert p[..|text|] == p;
      InsertAllIsSplice(f, p);
    }
  }
}
