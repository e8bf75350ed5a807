/**
  The viewer's state and its two event functions: the filter that drops
  noisy events before they cause a redraw, and the handler that moves the
  scroll offset or asks to quit.
 */
module Viewer {
  import opened TerminalEvent

  datatype Option<T> = None | Some(value: T)

  /**
    The styled text shown by the viewer, as produced by the ANSI parser. The
    model never looks inside it; it only tracks that it is never changed.
   */
  datatype Text = Text(lines: seq<string>)

  /** A process exit status; the handler only ever returns success. */
  type ExitCode = x: int | 0 <= x < 0x100

  const SUCCESS: ExitCode := 0

  datatype State = State(text: Text, scroll: u16)

  /** Pointer movement and horizontal wheel scrolling. */
  predicate IsNoisy(kind: MouseEventKind)
  {
    kind == Moved || kind == ScrollLeft || kind == ScrollRight
  }

  /** True for the events the loop drops without redrawing. */
  function ShouldSkipEvent(e: Event): (skip: bool)
    ensures skip <==> e.Mouse? && IsNoisy(e.mouse.kind)
    ensures e.Key? || e.Resize? || e.Paste? || e.FocusGained? || e.FocusLost? ==> !skip
  {
    match e
    case Mouse(m) => m.kind.Moved? || m.kind.ScrollLeft? || m.kind.ScrollRight?
    case _ => false
  }

  /** Ctrl+C or a bare `q`; the modifiers must match exactly. */
  predicate IsQuitKey(e: Event)
  {
    && e.Key?
    && ((e.key.modifiers == CONTROL && e.key.code == Char('c'))
        || (e.key.modifiers == NONE && e.key.code == Char('q')))
  }

  /** A vertical wheel step of the given direction with no modifier held. */
  predicate IsPlainWheel(e: Event, kind: MouseEventKind)
  {
    e.Mouse? && e.mouse.modifiers == NONE && e.mouse.kind == kind
  }

  /**
    The scroll offset is a `u16` incremented with `+=`: a wheel-down step at
    the largest offset overflows, which the caller must rule out.
   */
  predicate CanHandle(s: State, e: Event)
  {
    IsPlainWheel(e, ScrollDown) ==> s.scroll < U16_MAX
  }

  /**
    Handles one event that was not skipped. Returns the new state and, for a
    quit key, the exit code. Wheel up saturates at offset 0; wheel down is not
    bounded by the length of the text.
   */
  function HandleEvent(s: State, e: Event): (r: (State, Option<ExitCode>))
    requires CanHandle(s, e)
    ensures r.0.text == s.text
    ensures r.1.Some? <==> IsQuitKey(e)
    ensures r.1.Some? ==> r.1.value == SUCCESS && r.0 == s
    ensures s.scroll - 1 <= r.0.scroll <= s.scroll + 1
    ensures r.0.scroll > s.scroll <==> IsPlainWheel(e, ScrollDown)
    ensures r.0.scroll < s.scroll <==> IsPlainWheel(e, ScrollUp) && s.scroll > 0
  {
    match e
    case Key(k) =>
      if (k.modifiers == CONTROL && k.code == Char('c')) || (k.modifiers == NONE && k.code == Char('q'))
      then (s, Some(SUCCESS))
      else (s, None)
    case Mouse(m) =>
      if m.modifiers == NONE && m.kind == ScrollUp then
        (s.(scroll := if s.scroll == 0 then 0 else s.scroll - 1), None)
      else if m.modifiers == NONE && m.kind == ScrollDown then
        (s.(scroll := s.scroll + 1), None)
      else
        (s, None)
    case _ => (s, None)
  }

  /** A skipped event would have done nothing had it been handled, so dropping it loses nothing. */
  lemma SkippedEventsAreInert(s: State, e: Event)
    requires ShouldSkipEvent(e)
    ensures CanHandle(s, e)
    ensures HandleEvent(s, e) == (s, None)
  {
  }

  /** Wheel up at offset 0 stays at 0. */
  lemma WheelUpSaturatesAtTop(s: State, e: Event)
    requires s.scroll == 0 && IsPlainWheel(e, ScrollUp)
    ensures HandleEvent(s, e) == (s, None)
  {
  }

  /** A wheel-down step is undone by a wheel-up step. */
  lemma WheelDownThenUpRestores(s: State, down: Event, up: Event)
    requires s.scroll < U16_MAX
    requires IsPlainWheel(down, ScrollDown) && IsPlainWheel(up, ScrollUp)
    ensures HandleEvent(HandleEvent(s, down).0, up) == (s, None)
  {
  }

  /** Away from offset 0, a wheel-up step is undone by a wheel-down step. */
  lemma WheelUpThenDownRestores(s: State, up: Event, down: Event)
    requires s.scroll > 0
    requires IsPlainWheel(down, ScrollDown) && IsPlainWheel(up, ScrollUp)
    ensures CanHandle(HandleEvent(s, up).0, down)
    ensures HandleEvent(HandleEvent(s, up).0, down) == (s, None)
  {
  }
}
