// Which component receives the keyboard (src/helpers/focus.rs) and the
// footer hints each component shows while it has the focus.
module Focuses {

  datatype Focus = Canvas | LogPanel | Input

  /** `Focus::default()`. */
  const DEFAULT_FOCUS: Focus := Canvas

  /** `Canvas::FOOTER_TEXT` of the canvas component in src/components/canvas/. */
  const CANVAS_FOOTER: seq<string> := [
    "Move[arrow/Vim keys]", "Zoom-[s]", "Zoom+[d]", "NextVar[t]", "SelectedVar+[+]",
    "Selectedvar-[-]", "MxDiv-[y]", "Prec-[u]", "Prec+[i]", "MxDiv+[o]", "Color[c]",
    "Frac[f]", "VoidFill[v]", "Rst[r]", "HSLMode[n]", "ToggleSidepanel[b]"]

  /** `Canvas::FOOTER_TEXT` of the older canvas widget in src/components/canvas.rs. */
  const LEGACY_CANVAS_FOOTER: seq<string> := [
    "Move[arrow/Vim keys]", "Zoom-[s]", "Zoom+[d]", "PalOffset+[+]", "PalOffset-[-]",
    "MxDiv-[y]", "Prec-[u]", "Prec+[i]", "MxDiv+[o]", "Color[c]", "Frac[f]",
    "VoidFill[v]", "Rst[r]"]

  /** `LogPanel::FOOTER_TEXT`. */
  const LOG_PANEL_FOOTER: seq<string> := ["ScrollUp[k/up]", "ScrollDown[j/down]"]

  /** `Input::FOOTER_TEXT`. */
  const INPUT_FOOTER: seq<string> := ["Execute the command [Enter]", "Repeat the last command [Ctrl+R]"]

  /**
   * `footer_text`: the hints of the focused component; `canvasFooter` is the
   * canvas list of the revision at hand.
   */
  function FooterText(focused: Focus, canvasFooter: seq<string>): (r: seq<string>)
    ensures focused == LogPanel ==> r == LOG_PANEL_FOOTER
    ensures focused == Canvas ==> r == canvasFooter
    ensures focused == Input ==> r == INPUT_FOOTER
  {
    match focused
    case LogPanel => LOG_PANEL_FOOTER
    case Canvas => canvasFooter
    case Input => INPUT_FOOTER
  }

  /** With either canvas list, the footer tells which component has the focus. */
  lemma FooterIdentifiesFocus(f1: Focus, f2: Focus, canvasFooter: seq<string>)
    requires canvasFooter == CANVAS_FOOTER || canvasFooter == LEGACY_CANVAS_FOOTER
    requires FooterText(f1, canvasFooter) == FooterText(f2, canvasFooter)
    ensures f1 == f2
  {
    assert LOG_PANEL_FOOTER[0] != INPUT_FOOTER[0];
    assert |canvasFooter| > 2;
  }
}
