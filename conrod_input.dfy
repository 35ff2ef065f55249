/** The optional embedded UI (the `conrod` build feature): translation of
    window events into the UI's input form, and the UI's capture state that
    decides whether an event is withheld from the scene camera. */
module ConrodInput {
  import opened Wrappers
  import E = Events

  /** The UI's named keys that the translation can produce, grouped as the
      window's named keys are. */
  datatype CEditingKey = Escape | Pause | Insert | Home | Delete | End | PageDown | PageUp
  datatype CCursorKey = Left | Up | Right | Down | Return | Space | Tab
  datatype CPunctuationKey = LeftBracket | RightBracket | Period | Comma | Colon | Semicolon | Slash | Backslash
  datatype COperatorKey = Plus | At | Caret | Equals | Minus
  datatype CModifierKey = LCtrl | LShift | RAlt | RCtrl | RShift
  datatype CNumpadNamedKey = NumPadComma | NumPadEnter | NumPadEquals
  datatype CSystemKey = Calculator | Mail | MediaSelect | Mute | Power | Sleep | Stop | VolumeDown | VolumeUp
  datatype CClipboardKey = Copy | Paste | Cut

  datatype CNamedKey =
    | CEditing(cEditing: CEditingKey)
    | CCursor(cCursor: CCursorKey)
    | CPunctuation(cPunctuation: CPunctuationKey)
    | COperator(cOperator: COperatorKey)
    | CModifier(cModifier: CModifierKey)
    | CNumpadNamed(cNumpadNamed: CNumpadNamedKey)
    | CSystem(cSystem: CSystemKey)
    | CClipboard(cClipboard: CClipboardKey)

  /** The UI's key codes that the translation can produce: the digits `D0` to
      `D9`, the letters, `F1` to `F24`, `NumPad0` to `NumPad9`, the named keys,
      and `Unknown`. */
  datatype CKey =
    | D(digit: E.Digit)
    | Letter(letter: E.Letter)
    | F(number: E.FunctionNumber)
    | NumPad(numpad: E.Digit)
    | CNamed(cname: CNamedKey)
    | Unknown

  /** The UI's mouse buttons. */
  datatype CMouseButton = Left | Right | Middle | X1 | X2 | Button6 | Button7 | Button8

  datatype Button = Keyboard(key: CKey) | Mouse(button: CMouseButton)

  /** Cursor motion carries coordinates that the window rescales by the display
      density in floating point; that arithmetic is not modelled, so a cursor
      motion is recorded without its coordinates. */
  datatype Motion = MouseCursor | Scroll(x: real, y: real)

  /** The UI's input form. `Resize` likewise omits its density-scaled size. */
  datatype Input = Resize | Focus(focused: bool) | Moved(motion: Motion) | Press(pressed: Button) | Release(released: Button)

  /** The key table: every key of the digit row, the letters, the function
      keys and the keypad keeps its digit, letter or number; each named key
      has its own UI key; every other key is `Unknown`. */
  function ToConrodKey(k: E.Key): (r: CKey)
    ensures r == Unknown <==> k.Unlisted?
    ensures k.DigitKey? ==> r == D(k.digit)
    ensures k.LetterKey? ==> r == Letter(k.letter)
    ensures k.FunctionKey? ==> r == F(k.number)
    ensures k.NumpadKey? ==> r == NumPad(k.numpad)
    ensures k.Named? ==> r == CNamed(ToConrodNamedKey(k.name))
  {
    match k
    case DigitKey(d) => D(d)
    case LetterKey(c) => Letter(c)
    case FunctionKey(n) => F(n)
    case NumpadKey(d) => NumPad(d)
    case Named(n) => CNamed(ToConrodNamedKey(n))
    case Unlisted(_) => Unknown
  }

  /** The named-key table, group by group. */
  function ToConrodNamedKey(n: E.NamedKey): CNamedKey {
    match n
    case Editing(k) => CEditing(ToEditingKey(k))
    case Cursor(k) => CCursor(ToCursorKey(k))
    case Punctuation(k) => CPunctuation(ToPunctuationKey(k))
    case Operator(k) => COperator(ToOperatorKey(k))
    case Modifier(k) => CModifier(ToModifierKey(k))
    case NumpadNamed(k) => CNumpadNamed(ToNumpadNamedKey(k))
    case System(k) => CSystem(ToSystemKey(k))
    case Clipboard(k) => CClipboard(ToClipboardKey(k))
  }

  /** The named-key table read backwards. */
  function FromConrodNamedKey(c: CNamedKey): E.NamedKey {
    match c
    case CEditing(k) => E.Editing(FromEditingKey(k))
    case CCursor(k) => E.Cursor(FromCursorKey(k))
    case CPunctuation(k) => E.Punctuation(FromPunctuationKey(k))
    case COperator(k) => E.Operator(FromOperatorKey(k))
    case CModifier(k) => E.Modifier(FromModifierKey(k))
    case CNumpadNamed(k) => E.NumpadNamed(FromNumpadNamedKey(k))
    case CSystem(k) => E.System(FromSystemKey(k))
    case CClipboard(k) => E.Clipboard(FromClipboardKey(k))
  }

  function ToEditingKey(k: E.EditingKey): CEditingKey {
    match k
    case Escape => CEditingKey.Escape case Pause => CEditingKey.Pause case Insert => CEditingKey.Insert
    case Home => CEditingKey.Home case Delete => CEditingKey.Delete case End => CEditingKey.End
    case PageDown => CEditingKey.PageDown case PageUp => CEditingKey.PageUp
  }

  function FromEditingKey(k: CEditingKey): E.EditingKey {
    match k
    case Escape => E.Escape case Pause => E.Pause case Insert => E.Insert
    case Home => E.Home case Delete => E.Delete case End => E.End
    case PageDown => E.PageDown case PageUp => E.PageUp
  }

  function ToCursorKey(k: E.CursorKey): CCursorKey {
    match k
    case Left => CCursorKey.Left case Up => CCursorKey.Up case Right => CCursorKey.Right
    case Down => CCursorKey.Down case Return => CCursorKey.Return case Space => CCursorKey.Space
    case Tab => CCursorKey.Tab
  }

  function FromCursorKey(k: CCursorKey): E.CursorKey {
    match k
    case Left => E.Left case Up => E.Up case Right => E.Right
    case Down => E.Down case Return => E.Return case Space => E.Space
    case Tab => E.Tab
  }

  function ToPunctuationKey(k: E.PunctuationKey): CPunctuationKey {
    match k
    case LBracket => CPunctuationKey.LeftBracket case RBracket => CPunctuationKey.RightBracket case Period => CPunctuationKey.Period
    case Comma => CPunctuationKey.Comma case Colon => CPunctuationKey.Colon case Semicolon => CPunctuationKey.Semicolon
    case Slash => CPunctuationKey.Slash case Backslash => CPunctuationKey.Backslash
  }

  function FromPunctuationKey(k: CPunctuationKey): E.PunctuationKey {
    match k
    case LeftBracket => E.LBracket case RightBracket => E.RBracket case Period => E.Period
    case Comma => E.Comma case Colon => E.Colon case Semicolon => E.Semicolon
    case Slash => E.Slash case Backslash => E.Backslash
  }

  function ToOperatorKey(k: E.OperatorKey): COperatorKey {
    match k
    case Add => COperatorKey.Plus case At => COperatorKey.At case Caret => COperatorKey.Caret
    case Equals => COperatorKey.Equals case Minus => COperatorKey.Minus
  }

  function FromOperatorKey(k: COperatorKey): E.OperatorKey {
    match k
    case Plus => E.Add case At => E.At case Caret => E.Caret
    case Equals => E.Equals case Minus => E.Minus
  }

  function ToModifierKey(k: E.ModifierKey): CModifierKey {
    match k
    case LControl => CModifierKey.LCtrl case LShift => CModifierKey.LShift case RAlt => CModifierKey.RAlt
    case RControl => CModifierKey.RCtrl case RShift => CModifierKey.RShift
  }

  function FromModifierKey(k: CModifierKey): E.ModifierKey {
    match k
    case LCtrl => E.LControl case LShift => E.LShift case RAlt => E.RAlt
    case RCtrl => E.RControl case RShift => E.RShift
  }

  function ToNumpadNamedKey(k: E.NumpadNamedKey): CNumpadNamedKey {
    match k
    case NumpadComma => CNumpadNamedKey.NumPadComma case NumpadEnter => CNumpadNamedKey.NumPadEnter case NumpadEquals => CNumpadNamedKey.NumPadEquals
  }

  function FromNumpadNamedKey(k: CNumpadNamedKey): E.NumpadNamedKey {
    match k
    case NumPadComma => E.NumpadComma case NumPadEnter => E.NumpadEnter case NumPadEquals => E.NumpadEquals
  }

  function ToSystemKey(k: E.SystemKey): CSystemKey {
    match k
    case Calculator => CSystemKey.Calculator case Mail => CSystemKey.Mail case MediaSelect => CSystemKey.MediaSelect
    case Mute => CSystemKey.Mute case Power => CSystemKey.Power case Sleep => CSystemKey.Sleep
    case Stop => CSystemKey.Stop case VolumeDown => CSystemKey.VolumeDown case VolumeUp => CSystemKey.VolumeUp
  }

  function FromSystemKey(k: CSystemKey): E.SystemKey {
    match k
    case Calculator => E.Calculator case Mail => E.Mail case MediaSelect => E.MediaSelect
    case Mute => E.Mute case Power => E.Power case Sleep => E.Sleep
    case Stop => E.Stop case VolumeDown => E.VolumeDown case VolumeUp => E.VolumeUp
  }

  function ToClipboardKey(k: E.ClipboardKey): CClipboardKey {
    match k
    case Copy => CClipboardKey.Copy case Paste => CClipboardKey.Paste case Cut => CClipboardKey.Cut
  }

  function FromClipboardKey(k: CClipboardKey): E.ClipboardKey {
    match k
    case Copy => E.Copy case Paste => E.Paste case Cut => E.Cut
  }

  /** The named-key table is a bijection: reading it backwards undoes it,
      both ways. */
  lemma NamedKeyTableBijective(n: E.NamedKey, c: CNamedKey)
    ensures FromConrodNamedKey(ToConrodNamedKey(n)) == n
    ensures ToConrodNamedKey(FromConrodNamedKey(c)) == c
  {
  }

  /** Two listed keys translate to the same UI key only if they are the same
      key. */
  lemma KeyTableInjective(k1: E.Key, k2: E.Key)
    requires !k1.Unlisted? && !k2.Unlisted?
    ensures ToConrodKey(k1) == ToConrodKey(k2) ==> k1 == k2
  {
  }

  function ToConrodMouseButton(b: E.MouseButton): CMouseButton {
    match b
    case Button1 => CMouseButton.Left
    case Button2 => CMouseButton.Right
    case Button3 => Middle
    case Button4 => X1
    case Button5 => X2
    case Button6 => Button6
    case Button7 => Button7
    case Button8 => Button8
  }

  function FromConrodMouseButton(c: CMouseButton): E.MouseButton {
    match c
    case Left => E.Button1
    case Right => E.Button2
    case Middle => E.Button3
    case X1 => E.Button4
    case X2 => E.Button5
    case Button6 => E.Button6
    case Button7 => E.Button7
    case Button8 => E.Button8
  }

  /** The mouse-button table is a bijection. */
  lemma MouseButtonTableBijective(b: E.MouseButton, c: CMouseButton)
    ensures FromConrodMouseButton(ToConrodMouseButton(b)) == b
    ensures ToConrodMouseButton(FromConrodMouseButton(c)) == c
  {
  }

  function ToConrodButtonInput(button: Button, action: E.Action): Input {
    match action
    case Press => Press(button)
    case Release => Release(button)
  }

  /** The translation of a window event into the UI's input form: key and
      mouse-button events become a press or release of the translated button,
      with the same action; resize, focus, cursor and scroll events become the
      matching input (the scroll's vertical offset negated); a close request
      has no UI input. */
  function ToConrodInput(ev: E.WindowEvent): (r: Option<Input>)
    ensures r.None? <==> ev.Close?
    ensures ev.KeyInput? ==> r == Some(ToConrodButtonInput(Keyboard(ToConrodKey(ev.key)), ev.action))
    ensures ev.MouseButtonInput? ==>
              r == Some(ToConrodButtonInput(Mouse(ToConrodMouseButton(ev.button)), ev.buttonAction))
    ensures ev.Scroll? ==> r == Some(Moved(Scroll(ev.sx, -ev.sy)))
    ensures ev.Focus? ==> r == Some(Focus(ev.focused))
    ensures ev.FramebufferSize? ==> r == Some(Resize)
    ensures ev.CursorPos? ==> r == Some(Moved(MouseCursor))
  {
    match ev
    case FramebufferSize(_, _) => Some(Resize)
    case Focus(focus) => Some(Focus(focus))
    case CursorPos(_, _, _) => Some(Moved(MouseCursor))
    case Scroll(x, y, _) => Some(Moved(Scroll(x, -y)))
    case MouseButtonInput(button, action, _) =>
      Some(ToConrodButtonInput(Mouse(ToConrodMouseButton(button)), action))
    case KeyInput(key, action, _) =>
      Some(ToConrodButtonInput(Keyboard(ToConrodKey(key)), action))
    case Close => None
  }

  /** Identifiers of UI widgets. */
  type WidgetId = nat

  /** The UI state the window consults: the id of the root (window) widget and
      the widgets currently capturing keyboard and mouse. `rest` stands for the
      remainder of the UI's state, which the window never reads; it lets the UI
      respond differently to inputs that look alike here, such as two cursor
      motions whose coordinates are not modelled. */
  datatype Ui = Ui(window: WidgetId, capturingKeyboard: Option<WidgetId>, capturingMouse: Option<WidgetId>,
                   rest: nat)

  /** How the UI's state responds to one input. The UI's own code is not part
      of this model, so its response is a parameter. */
  type Reaction = (Ui, Input) -> Ui

  /** Some widget other than the root window holds the keyboard. */
  predicate CapturingKeyboard(u: Ui) {
    u.capturingKeyboard.Some? && u.capturingKeyboard != Some(u.window)
  }

  /** Some widget other than the root window holds the mouse. */
  predicate CapturingMouse(u: Ui) {
    u.capturingMouse.Some? && u.capturingMouse != Some(u.window)
  }

  /** The UI withholds a keyboard event from the scene while it captures the
      keyboard, and a mouse event while it captures the mouse. */
  predicate Swallows(u: Ui, ev: E.WindowEvent) {
    (E.IsKeyboardEvent(ev) && CapturingKeyboard(u)) || (E.IsMouseEvent(ev) && CapturingMouse(u))
  }

  /** The UI withholds every keyboard event exactly while some widget other
      than the root window holds the keyboard. */
  lemma KeyboardCaptureWithholdsAll(u: Ui)
    ensures CapturingKeyboard(u) <==> forall ev :: E.IsKeyboardEvent(ev) ==> Swallows(u, ev)
  {
    var ev := E.KeyInput(E.Unlisted(0), E.Press, E.Modifiers(0));
    assert E.IsKeyboardEvent(ev) && !E.IsMouseEvent(ev);
  }

  /** The UI withholds every mouse event exactly while some widget other than
      the root window holds the mouse. */
  lemma MouseCaptureWithholdsAll(u: Ui)
    ensures CapturingMouse(u) <==> forall ev :: E.IsMouseEvent(ev) ==> Swallows(u, ev)
  {
    var ev := E.CursorPos(0.0, 0.0, E.Modifiers(0));
    assert E.IsMouseEvent(ev) && !E.IsKeyboardEvent(ev);
  }

  /** Resize, focus and close events are never withheld, whatever the UI
      captures; nor is any event while nothing but the root window captures. */
  lemma SwallowsOnlyInputEvents(u: Ui, ev: E.WindowEvent)
    ensures (ev.FramebufferSize? || ev.Focus? || ev.Close?) ==> !Swallows(u, ev)
    ensures ((u.capturingKeyboard == None || u.capturingKeyboard == Some(u.window)) &&
             (u.capturingMouse == None || u.capturingMouse == Some(u.window))) ==> !Swallows(u, ev)
  {
  }
}
