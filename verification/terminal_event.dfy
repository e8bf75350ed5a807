/**
  The terminal events the pager receives from crossterm, as plain values.
  The kind and the modifiers of key and mouse events are kept in full,
  because the pager inspects them. The key event's state flags and the
  payloads of the media and modifier key codes are dropped, because the
  pager never reads them.
 */
module TerminalEvent {

  /** An unsigned 16-bit integer, as used for terminal sizes and the scroll offset. */
  type u16 = x: int | 0 <= x < 0x1_0000

  const U16_MAX: u16 := 0xFFFF

  /** An unsigned 8-bit integer, the function-key number. */
  type u8 = x: int | 0 <= x < 0x100

  /** One flag of crossterm's `KeyModifiers` bit set. */
  datatype Modifier = Shift | Control | Alt | Super | Hyper | Meta

  /**
    `KeyModifiers` is a bit set; two values are equal exactly when the same
    flags are set, which is set equality here.
   */
  type KeyModifiers = set<Modifier>

  const NONE: KeyModifiers := {}
  const CONTROL: KeyModifiers := {Control}

  datatype KeyCode =
    | Backspace | Enter | Left | Right | Up | Down | Home | End
    | PageUp | PageDown | Tab | BackTab | Delete | Insert
    | F(number: u8)
    | Char(c: char)
    | Null | Esc | CapsLock | ScrollLock | NumLock | PrintScreen | Pause | Menu
    | KeypadBegin | Media | ModifierKey

  /** Whether the key went down, auto-repeated or was released. */
  datatype KeyEventKind = Press | Repeat | Release

  datatype KeyEvent = KeyEvent(code: KeyCode, modifiers: KeyModifiers, kind: KeyEventKind)

  datatype MouseButton = LeftButton | RightButton | MiddleButton

  datatype MouseEventKind =
    | Down(button: MouseButton)
    | Up(button: MouseButton)
    | Drag(button: MouseButton)
    | Moved
    | ScrollDown
    | ScrollUp
    | ScrollLeft
    | ScrollRight

  datatype MouseEvent = MouseEvent(kind: MouseEventKind, column: u16, row: u16, modifiers: KeyModifiers)

  datatype Event =
    | FocusGained
    | FocusLost
    | Key(key: KeyEvent)
    | Mouse(mouse: MouseEvent)
    | Paste(pasted: string)
    | Resize(columns: u16, rows: u16)
}
