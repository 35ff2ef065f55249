/** Window events as the orchestration core consumes them.

    The event type itself lives in the engine's event module, which is not part
    of this model; only the kinds of event that the window core distinguishes
    are given here. Float payloads (cursor position, scroll offsets) are carried
    as `real` values and are never computed with, except for a sign flip. */
module Events {

  /** Press or release, for keys and mouse buttons. */
  datatype Action = Press | Release

  /** The mouse buttons the engine reports. */
  datatype MouseButton =
    Button1 | Button2 | Button3 | Button4 | Button5 | Button6 | Button7 | Button8

  /** Keyboard modifier flags, kept opaque. */
  datatype Modifiers = Modifiers(bits: nat)

  /** A decimal digit, as on the digit row and the numeric keypad. */
  type Digit = d: nat | d < 10

  /** A letter key's letter. */
  type Letter = c: char | 'A' <= c <= 'Z' witness 'A'

  /** The number of a function key the UI translation names. */
  type FunctionNumber = n: nat | 1 <= n <= 24 witness 1

  /** The keys with a name of their own that the UI translation names, in
      groups. */
  datatype EditingKey = Escape | Pause | Insert | Home | Delete | End | PageDown | PageUp
  datatype CursorKey = Left | Up | Right | Down | Return | Space | Tab
  datatype PunctuationKey = LBracket | RBracket | Period | Comma | Colon | Semicolon | Slash | Backslash
  datatype OperatorKey = Add | At | Caret | Equals | Minus
  datatype ModifierKey = LControl | LShift | RAlt | RControl | RShift
  datatype NumpadNamedKey = NumpadComma | NumpadEnter | NumpadEquals
  datatype SystemKey = Calculator | Mail | MediaSelect | Mute | Power | Sleep | Stop | VolumeDown | VolumeUp
  datatype ClipboardKey = Copy | Paste | Cut

  datatype NamedKey =
    | Editing(editing: EditingKey)
    | Cursor(cursor: CursorKey)
    | Punctuation(punctuation: PunctuationKey)
    | Operator(operator: OperatorKey)
    | Modifier(modifier: ModifierKey)
    | NumpadNamed(numpadNamed: NumpadNamedKey)
    | System(system: SystemKey)
    | Clipboard(clipboard: ClipboardKey)

  /** The keys the engine reports: the digit row (`Key0` to `Key9`), the
      letters, the function keys `F1` to `F24`, the keypad digits (`Numpad0`
      to `Numpad9`) and the named keys, which are the keys the UI translation
      names; all other keys of the platform's key set are `Unlisted`, told
      apart by a code. */
  datatype Key =
    | DigitKey(digit: Digit)
    | LetterKey(letter: Letter)
    | FunctionKey(number: FunctionNumber)
    | NumpadKey(numpad: Digit)
    | Named(name: NamedKey)
    | Unlisted(code: nat)

  /** A window event: key, mouse button, cursor motion, scroll, framebuffer
      resize, focus change, or a request to close the window. */
  datatype WindowEvent =
    | KeyInput(key: Key, action: Action, keyMods: Modifiers)
    | MouseButtonInput(button: MouseButton, buttonAction: Action, buttonMods: Modifiers)
    | CursorPos(cx: real, cy: real, cursorMods: Modifiers)
    | Scroll(sx: real, sy: real, scrollMods: Modifiers)
    | FramebufferSize(w: nat, h: nat)
    | Focus(focused: bool)
    | Close

  /** Events that the UI may claim through keyboard capture. */
  predicate IsKeyboardEvent(ev: WindowEvent) {
    ev.KeyInput?
  }

  /** Events that the UI may claim through mouse capture. */
  predicate IsMouseEvent(ev: WindowEvent) {
    ev.MouseButtonInput? || ev.CursorPos? || ev.Scroll?
  }

  /** The events the window intercepts to set its close flag: an Escape key
      release, or an explicit close request. */
  predicate Closes(ev: WindowEvent) {
    ev == Close || (ev.KeyInput? && ev.key == Named(Editing(Escape)) && ev.action == Release)
  }
}
