# least — a Dafny model of the pager's core

`least` shows text from a file or standard input. If the input fits on the
terminal, it prints the input verbatim. Otherwise it opens an interactive viewer
that the user scrolls with the mouse wheel and leaves with `q` or Ctrl+C. This
project models the decision logic and the viewer's event state machine from
`src/main.rs`. All terminal I/O is abstracted away.

- `terminal_event.dfy` (module `TerminalEvent`): crossterm's `Event`,
  `KeyEvent`, `KeyCode`, `KeyModifiers`, `MouseEvent` and `MouseEventKind`.
  They are immutable datatypes. `KeyModifiers` is a set of flags, so comparing
  two modifier values with `==` is exact, as it is for the bit set in the source.
- `fits.dfy` (module `Fits`): the count of newline bytes in the input, and the
  start-up choice between printing verbatim and entering the viewer.
- `viewer.dfy` (module `Viewer`): `State` (the text and the `u16` scroll offset),
  `should_skip_event` and `handle_event`.
- `event_loop.dfy` (module `EventLoop`): the `'frame`/`'event` loop. It is written
  as a fold (`Pump`) over a finite sequence of events, plus a method
  (`EventLoop`) that walks the same sequence with a `while` loop and is proved
  equal to the fold. `Main` combines the decision with the viewer.

The fold reports four things: the final state, the number of events read, the
number of frames drawn, and why it stopped. There are three ways it can stop:
- `Waiting`: the events ran out, so the real program would be blocked reading.
- `Exited(code)`: a quit key was handled.
- `Overflowed`: a wheel-down step arrived at offset 65535.

## Model

| member | source | states |
|---|---|---|
| Fits.CountNewlines | src/main.rs:39 | The line count is at most the input length, and it is zero exactly when no byte is `'\n'` |
| Fits.CountIsNewlinePositions | src/main.rs:39 | The line count equals the number of positions that hold a `'\n'` byte |
| Fits.CountConcat | src/main.rs:39 | The line count of a concatenation is the sum of the parts' counts |
| Fits.CountLines | src/main.rs:39 | A single left-to-right scan computes the same count |
| Fits.Decide | src/main.rs:39-46 | The input is printed verbatim exactly when its number of newline positions is at most the terminal's row count (equality counts as fitting). The printed bytes are the input unchanged |
| Fits.ShortInputPrintsVerbatim | src/main.rs:39-46 | An input with no more bytes than the terminal has rows is always printed verbatim |
| Fits.PrefixOfFittingInputFits | src/main.rs:39-46 | If an input fits, every prefix of it fits too |
| Fits.UnterminatedTailKeepsDecision | src/main.rs:39-41 | Appending bytes that contain no newline never changes the choice |
| Viewer.ShouldSkipEvent | src/main.rs:89-97 | An event is skipped iff it is a mouse event of kind Moved, ScrollLeft or ScrollRight. Key, resize, paste and focus events are never skipped |
| Viewer.HandleEvent | src/main.rs:99-121 | An exit code is returned iff the event is Ctrl+C or a bare `q` (modifiers must match exactly), and that code is success with the state unchanged. The offset moves by at most one. It rises iff the event is an unmodified wheel-down. It falls iff the event is an unmodified wheel-up and the offset is positive. The text never changes. The offset must be below 65535 for a wheel-down |
| Viewer.SkippedEventsAreInert | src/main.rs:72-75 | Handling a skipped event would change nothing and would not quit, so dropping it without a redraw loses nothing |
| Viewer.WheelUpSaturatesAtTop | src/main.rs:111-113 | Wheel-up at offset 0 leaves the offset at 0 |
| Viewer.WheelDownThenUpRestores | src/main.rs:111-114 | A wheel-down step followed by a wheel-up step restores the state |
| Viewer.WheelUpThenDownRestores | src/main.rs:111-114 | At a positive offset, a wheel-up step followed by a wheel-down step restores the state |
| EventLoop.Pump | src/main.rs:57-81 | A run never reads more events than it is given. It never draws more frames than it reads events. It stops early only on an exit or an overflow. It never changes the text. The offset moves by at most the number of events read. Every exit code is success |
| EventLoop.View | src/main.rs:52-81 | The viewer starts at offset 0 and draws a first frame before reading anything. It draws at most one more frame per event read, and the offset never exceeds the number of events read |
| EventLoop.EventLoop | src/main.rs:57-81 | The imperative loop (one event per iteration, a redraw after a resize or after a handled event that does not quit) gives exactly the fold's result |
| EventLoop.SignificantConcat | src/main.rs:64-76 | The events that reach the handler are kept in their original order: filtering a concatenation gives the concatenation of the filtered parts |
| EventLoop.OnlySignificantEventsMatter | src/main.rs:64-76 | Removing every resize and skipped event from the input leaves the final state and the way the run ends unchanged |
| EventLoop.ResizeOnlyRedraws | src/main.rs:67-70 | A resize event costs one redraw and one read and changes nothing else |
| EventLoop.RedrawCount | src/main.rs:57-81 | The number of frames drawn after the first equals the resizes read plus the events that reached the handler, minus the event that ended the run |
| EventLoop.StopsAtFirstQuitKey | src/main.rs:78-80 | The run stops at the first quit key. No earlier event read is a quit key. An exit is caused by a quit key, and an overflow by a wheel-down. A run that is still waiting has seen no quit key |
| EventLoop.NoOverflowWithinBudget | src/main.rs:114 | If the starting offset plus the number of unmodified wheel-down events is at most 65535, the run never overflows |
| EventLoop.PumpPrefix | src/main.rs:78-80 | Once a run has exited or overflowed, appending more events changes nothing, because the loop never reads past the event that ended it |
| EventLoop.QuitKeyEndsRun | src/main.rs:78-80 | Any quit key ends the run with success, no later than that key, provided the starting offset plus the unmodified wheel-down events up to and including the key is at most 65535. Events after the key do not count toward that budget |
| EventLoop.NoWheelNoScroll | src/main.rs:99-121 | If there are no unmodified vertical wheel events, the state never changes, whatever else is read |
| EventLoop.ScrollThenQuitScenario | src/main.rs:52-121 | This event sequence: wheel-down twice, a resize, a pointer move, wheel-up, then `q`. It ends at offset 1 with success after six reads and five frames |
| EventLoop.Main | src/main.rs:39-81 | The input is printed verbatim with success exactly when it fits. Otherwise a parse failure is reported when the ANSI parser fails. If parsing succeeds, the result is exactly the viewer run over the events, starting at offset 0. That run keeps the parsed text, draws at least one frame, reads at most the given events, and any exit code it returns is success |

## Left out

- Terminal setup and restore (`terminal::init`, the `terminal` module) are foreign I/O. So are `crossterm::terminal::size` and `crossterm::event::read`. The row count is a parameter, and the events are a finite input sequence.
- CLI parsing with clap and reading the file or stdin are I/O plumbing. So are the errors they can raise. The input bytes are a parameter.
- Writing and flushing stdout on the direct-print path is not modelled. `Decide` and `Main` only return the bytes that would be written.
- ANSI parsing (`into_text`) comes from a library that is not part of this model. Its result is the `parsed` parameter of `Main`, and `Text` is never inspected.
- Rendering (`render`, ratatui's `Paragraph::scroll`) is library code. No frame contents are modelled. Only the number of redraws is counted.
- The half-page, full-page, `j`/`k`, `g`/`G` and scroll-to-bottom keys are not modelled. The code does not implement them; line 104 is a TODO. Only the wheel and the two quit keys act.
- `KeyEvent.state` (keypad/caps-lock flags) is omitted, as are the payloads of `KeyCode::Media` and `KeyCode::Modifier`. The source never reads them. `KeyEvent.kind` is kept. The source ignores it, so releasing `q` also quits on platforms that report releases.
- Viewer.HandleEvent: a wheel-down step at offset 65535 is excluded by its precondition. In the source, `u16 +=` panics in a debug build and wraps to 0 in a release build. `Pump` stops with status `Overflowed` at that point rather than choosing either behaviour.
- Exit codes other than success come from clap's own exit (status 2) on a bad command line at src/main.rs:26, from errors propagated by `?`, or from the debug-build overflow panic of `state.vertical_scroll += 1` at src/main.rs:114 (see the Viewer.HandleEvent line above, modelled as status `Overflowed`). The `?` errors are I/O errors and are not modelled, apart from the parse failure.
