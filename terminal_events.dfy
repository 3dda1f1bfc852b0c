// The terminal input the components react to, as crossterm and ratatui
// describe it: key codes with their modifiers, mouse events, and the screen
// rectangles the components occupy.
module TerminalEvents {

  /** The key codes the handlers tell apart; every other key is `OtherKey`. */
  datatype KeyCode = Char(c: char) | Left | Right | Up | Down | Enter | Tab | OtherKey

  /** The modifiers held with a key: none, exactly Control, or any other combination. */
  datatype KeyModifiers = NoModifiers | Control | OtherModifiers

  datatype KeyEvent = KeyEvent(code: KeyCode, modifiers: KeyModifiers)

  datatype MouseButton = LeftButton | RightButton | MiddleButton

  /** A button press, or any other mouse event (release, drag, move, scroll). */
  datatype MouseEventKind = ButtonDown(button: MouseButton) | OtherMouseEvent

  /** A mouse event at a terminal cell; `column` and `row` are `u16`. */
  datatype MouseEvent = MouseEvent(kind: MouseEventKind, column: nat, row: nat)

  const U16_MAX: nat := 0xffff

  /** A ratatui `Rect`: the top-left cell and the size, all `u16`. */
  datatype Rect = Rect(x: nat, y: nat, width: nat, height: nat)

  /** `Rect::right()`: `x.saturating_add(width)`. */
  function Right(r: Rect): nat
  {
    if r.x + r.width > U16_MAX then U16_MAX else r.x + r.width
  }

  /** `Rect::bottom()`: `y.saturating_add(height)`. */
  function Bottom(r: Rect): nat
  {
    if r.y + r.height > U16_MAX then U16_MAX else r.y + r.height
  }

  /** `Rect::contains(Position { x, y })`. */
  predicate Contains(r: Rect, x: nat, y: nat)
  {
    r.x <= x < Right(r) && r.y <= y < Bottom(r)
  }

  /** A rectangle holds exactly the cells of its area that a `u16` can address. */
  lemma ContainsMeaning(r: Rect, x: nat, y: nat)
    requires r.x + r.width <= U16_MAX && r.y + r.height <= U16_MAX
    ensures Contains(r, x, y) <==> r.x <= x < r.x + r.width && r.y <= y < r.y + r.height
  {
  }

  /** The areas the components are drawn into (`Chunks`), as far as the event routing reads them. */
  datatype Chunks = Chunks(canvas: Rect, logPanel: Rect, input: Rect)
}
