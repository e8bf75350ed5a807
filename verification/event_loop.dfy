/**
  The frame/event loop of `main`, with the terminal replaced by a finite
  sequence of the events it would deliver. Each frame is drawn, then events
  are read one at a time: a resize restarts the frame (a redraw, no state
  change), a skipped event is consumed silently, and any other event goes to
  the handler, which either quits or leads to the next frame.
 */
module EventLoop {
  import opened TerminalEvent
  import opened Fits
  import opened Viewer

  datatype Status =
    | Waiting             // the events ran out; the loop is blocked reading the next one
    | Exited(code: ExitCode)
    | Overflowed          // a wheel-down step at offset 65535: `u16 +=` overflows

  /**
    Where a run of the loop stands: the state, how many events were read, how
    many frames were drawn, and why it stopped.
   */
  datatype Run = Run(state: State, read: nat, redraws: nat, status: Status)

  /**
    The loop after a frame has been drawn, fed `events`. The redraw count
    excludes the frame already drawn.
   */
  function Pump(s: State, events: seq<Event>): (r: Run)
    ensures r.read <= |events|
    ensures r.redraws <= r.read
    ensures r.status.Waiting? ==> r.read == |events|
    ensures !r.status.Waiting? ==> 1 <= r.read && r.redraws < r.read
    ensures r.state.text == s.text
    ensures s.scroll - r.read <= r.state.scroll <= s.scroll + r.read
    ensures r.status.Exited? ==> r.status.code == SUCCESS
    decreases |events|
  {
    if events == [] then Run(s, 0, 0, Waiting)
    else
      var e := events[0];
      if e.Resize? then
        var rest := Pump(s, events[1..]);
        rest.(read := rest.read + 1, redraws := rest.redraws + 1)
      else if ShouldSkipEvent(e) then
        var rest := Pump(s, events[1..]);
        rest.(read := rest.read + 1)
      else if !CanHandle(s, e) then
        Run(s, 1, 0, Overflowed)
      else
        var (next, exit) := HandleEvent(s, e);
        if exit.Some? then Run(next, 1, 0, Exited(exit.value))
        else
          var rest := Pump(next, events[1..]);
          rest.(read := rest.read + 1, redraws := rest.redraws + 1)
  }

  /** The interactive viewer started on `text`: offset 0, first frame drawn, then the loop. */
  function View(text: Text, events: seq<Event>): (r: Run)
    ensures r.state.text == text
    ensures r.read <= |events|
    ensures 1 <= r.redraws <= r.read + 1
    ensures r.state.scroll <= r.read
  {
    var r := Pump(State(text, 0), events);
    r.(redraws := r.redraws + 1)
  }

  /**
    The loop written as a loop: one event read per iteration, a frame drawn
    at start-up, after each resize and after each handled event that does not
    quit.
   */
  method EventLoop(text: Text, events: seq<Event>) returns (r: Run)
    ensures r == View(text, events)
  {
    var state := State(text, 0);
    var redraws := 1;
    var status := Waiting;
    var i := 0;
    while i < |events| && status.Waiting?
      invariant 0 <= i <= |events|
      invariant status.Waiting? ==>
                  var rest := Pump(state, events[i..]);
                  rest.(read := rest.read + i, redraws := rest.redraws + redraws) == View(text, events)
      invariant !status.Waiting? ==> Run(state, i, redraws, status) == View(text, events)
    {
      var e := events[i];
      assert events[i..][1..] == events[i + 1..];
      i := i + 1;
      if e.Resize? {
        redraws := redraws + 1;
      } else if ShouldSkipEvent(e) {
      } else if !CanHandle(state, e) {
        status := Overflowed;
      } else {
        var (next, exit) := HandleEvent(state, e);
        state := next;
        if exit.Some? {
          status := Exited(exit.value);
        } else {
          redraws := redraws + 1;
        }
      }
    }
    r := Run(state, i, redraws, status);
  }

  /** The events that reach the handler: neither resizes nor skipped. */
  function Significant(events: seq<Event>): (sig: seq<Event>)
    ensures |sig| <= |events|
    ensures forall e :: e in sig <==> e in events && !e.Resize? && !ShouldSkipEvent(e)
  {
    if events == [] then []
    else if events[0].Resize? || ShouldSkipEvent(events[0]) then Significant(events[1..])
    else [events[0]] + Significant(events[1..])
  }

  /** Filtering distributes over concatenation, so the kept events stay in their original order. */
  lemma {:induction false} SignificantConcat(a: seq<Event>, b: seq<Event>)
    ensures Significant(a + b) == Significant(a) + Significant(b)
    decreases |a|
  {
    if a == [] {
      assert a + b == b;
    } else {
      assert (a + b)[0] == a[0];
      assert (a + b)[1..] == a[1..] + b;
      SignificantConcat(a[1..], b);
    }
  }

  /** The number of resize events. */
  function Resizes(events: seq<Event>): nat
  {
    if events == [] then 0
    else (if events[0].Resize? then 1 else 0) + Resizes(events[1..])
  }

  /** The number of unmodified wheel-down events. */
  function WheelDowns(events: seq<Event>): nat
  {
    if events == [] then 0
    else (if IsPlainWheel(events[0], ScrollDown) then 1 else 0) + WheelDowns(events[1..])
  }

  /**
    Resizes and skipped events never change the state or the way the run
    ends: removing them all leads to the same final state and status.
   */
  lemma {:induction false} OnlySignificantEventsMatter(s: State, events: seq<Event>)
    ensures Pump(s, events).state == Pump(s, Significant(events)).state
    ensures Pump(s, events).status == Pump(s, Significant(events)).status
    decreases |events|
  {
    if events != [] {
      var e := events[0];
      OnlySignificantEventsMatter(s, events[1..]);
      if !e.Resize? && !ShouldSkipEvent(e) {
        var sig := [e] + Significant(events[1..]);
        assert Significant(events) == sig;
        assert sig[0] == e && sig[1..] == Significant(events[1..]);
        if CanHandle(s, e) {
          var next := HandleEvent(s, e).0;
          OnlySignificantEventsMatter(next, events[1..]);
        }
      }
    }
  }

  /** A resize at the head of the input costs one redraw and nothing else. */
  lemma ResizeOnlyRedraws(s: State, columns: u16, rows: u16, events: seq<Event>)
    ensures Pump(s, [Resize(columns, rows)] + events)
         == Pump(s, events).(read := Pump(s, events).read + 1, redraws := Pump(s, events).redraws + 1)
  {
    assert ([Resize(columns, rows)] + events)[1..] == events;
  }

  /**
    The redraws after the first frame are exactly one per resize and one per
    event that reached the handler, except the event that ended the run.
   */
  lemma {:induction false} RedrawCount(s: State, events: seq<Event>)
    ensures var r := Pump(s, events);
            r.redraws + (if r.status.Waiting? then 0 else 1)
            == Resizes(events[..r.read]) + |Significant(events[..r.read])|
    decreases |events|
  {
    var r := Pump(s, events);
    if events == [] {
      assert events[..r.read] == [];
    } else {
      var e := events[0];
      var consumed := events[..r.read];
      assert consumed[0] == e;
      var next := if !e.Resize? && !ShouldSkipEvent(e) && CanHandle(s, e) then HandleEvent(s, e).0 else s;
      if e.Resize? || ShouldSkipEvent(e) || (CanHandle(s, e) && HandleEvent(s, e).1.None?) {
        RedrawCount(next, events[1..]);
        var rest := Pump(next, events[1..]);
        assert r.read == rest.read + 1;
        assert consumed[1..] == events[1..][..rest.read];
      } else {
        assert consumed == [e];
        assert consumed[1..] == [];
      }
    }
  }

  /**
    The run stops exactly at the first quit key: no earlier event is one, an
    exit is caused by one, and a run that is still waiting has seen none.
   */
  lemma {:induction false} StopsAtFirstQuitKey(s: State, events: seq<Event>)
    ensures var r := Pump(s, events);
            && (forall j :: 0 <= j < r.read - 1 ==> !IsQuitKey(events[j]))
            && (r.status.Exited? ==> IsQuitKey(events[r.read - 1]))
            && (r.status.Waiting? ==> forall j :: 0 <= j < |events| ==> !IsQuitKey(events[j]))
            && (r.status.Overflowed? ==> IsPlainWheel(events[r.read - 1], ScrollDown))
    decreases |events|
  {
    if events != [] {
      var e := events[0];
      var r := Pump(s, events);
      if e.Resize? || ShouldSkipEvent(e) || (CanHandle(s, e) && HandleEvent(s, e).1.None?) {
        var next := if e.Resize? || ShouldSkipEvent(e) then s else HandleEvent(s, e).0;
        StopsAtFirstQuitKey(next, events[1..]);
        var rest := Pump(next, events[1..]);
        assert r.read == rest.read + 1;
        forall j | 0 <= j < r.read - 1
          ensures !IsQuitKey(events[j])
        {
          if j > 0 {
            assert events[j] == events[1..][j - 1];
          }
        }
        if r.status.Waiting? {
          forall j | 0 <= j < |events|
            ensures !IsQuitKey(events[j])
          {
            if j > 0 {
              assert events[j] == events[1..][j - 1];
            }
          }
        }
      }
    }
  }

  /**
    A run whose offset plus its wheel-down events stays within 65535 never
    overflows.
   */
  lemma {:induction false} NoOverflowWithinBudget(s: State, events: seq<Event>)
    requires s.scroll + WheelDowns(events) <= U16_MAX
    ensures !Pump(s, events).status.Overflowed?
    decreases |events|
  {
    if events != [] {
      var e := events[0];
      if e.Resize? || ShouldSkipEvent(e) {
        NoOverflowWithinBudget(s, events[1..]);
      } else if HandleEvent(s, e).1.None? {
        NoOverflowWithinBudget(HandleEvent(s, e).0, events[1..]);
      }
    }
  }

  /** Events after the one that ended a run are never read, so they cannot change it. */
  lemma {:induction false} PumpPrefix(s: State, a: seq<Event>, b: seq<Event>)
    requires !Pump(s, a).status.Waiting?
    ensures Pump(s, a + b) == Pump(s, a)
    decreases |a|
  {
    var e := a[0];
    assert (a + b)[0] == e;
    assert (a + b)[1..] == a[1..] + b;
    if e.Resize? || ShouldSkipEvent(e) {
      PumpPrefix(s, a[1..], b);
    } else if CanHandle(s, e) && HandleEvent(s, e).1.None? {
      PumpPrefix(HandleEvent(s, e).0, a[1..], b);
    }
  }

  /**
    Any quit key ends the run with success, no later than that key, provided
    the wheel-down events up to it stay within the 65535 budget; the events
    after it are never read and do not count.
   */
  lemma QuitKeyEndsRun(s: State, events: seq<Event>, j: nat)
    requires j < |events| && IsQuitKey(events[j])
    requires s.scroll + WheelDowns(events[..j + 1]) <= U16_MAX
    ensures Pump(s, events).status == Exited(SUCCESS)
    ensures Pump(s, events).read <= j + 1
  {
    var upToQuit := events[..j + 1];
    assert IsQuitKey(upToQuit[j]);
    NoOverflowWithinBudget(s, upToQuit);
    StopsAtFirstQuitKey(s, upToQuit);
    assert upToQuit + events[j + 1..] == events;
    PumpPrefix(s, upToQuit, events[j + 1..]);
  }

  /** Without vertical wheel events the state never changes. */
  lemma {:induction false} NoWheelNoScroll(s: State, events: seq<Event>)
    requires forall j :: 0 <= j < |events| ==>
               !IsPlainWheel(events[j], ScrollUp) && !IsPlainWheel(events[j], ScrollDown)
    ensures Pump(s, events).state == s
    decreases |events|
  {
    if events != [] {
      assert forall j :: 0 <= j < |events| - 1 ==> events[1..][j] == events[j + 1];
      NoWheelNoScroll(s, events[1..]);
    }
  }

  /**
    Two wheel-down steps, a resize, a pointer move, a wheel-up step and `q`:
    the offset ends at 1 and five frames are drawn in all.
   */
  lemma ScrollThenQuitScenario(text: Text)
    ensures var down := Mouse(MouseEvent(ScrollDown, 0, 0, NONE));
            var up := Mouse(MouseEvent(ScrollUp, 0, 0, NONE));
            var moved := Mouse(MouseEvent(Moved, 3, 4, NONE));
            var quit := Key(KeyEvent(Char('q'), NONE, Press));
            View(text, [down, down, Resize(80, 24), moved, up, quit])
            == Run(State(text, 1), 6, 5, Exited(SUCCESS))
  {
    var down := Mouse(MouseEvent(ScrollDown, 0, 0, NONE));
    var up := Mouse(MouseEvent(ScrollUp, 0, 0, NONE));
    var moved := Mouse(MouseEvent(Moved, 3, 4, NONE));
    var quit := Key(KeyEvent(Char('q'), NONE, Press));
    var events := [down, down, Resize(80, 24), moved, up, quit];
    assert events[1..] == [down, Resize(80, 24), moved, up, quit];
    assert events[2..] == [Resize(80, 24), moved, up, quit];
    assert events[3..] == [moved, up, quit];
    assert events[4..] == [up, quit];
    assert Pump(State(text, 2), events[4..]) == Run(State(text, 1), 2, 1, Exited(SUCCESS));
    assert Pump(State(text, 2), events[2..]) == Run(State(text, 1), 4, 2, Exited(SUCCESS));
    assert Pump(State(text, 1), events[1..]) == Run(State(text, 1), 5, 3, Exited(SUCCESS));
    assert Pump(State(text, 0), events) == Run(State(text, 1), 6, 4, Exited(SUCCESS));
  }

  /** The outcome of `main` once the terminal, the input and the events are known. */
  datatype Outcome =
    | Printed(output: seq<byte>, code: ExitCode)
    | ParseFailed
    | Viewed(run: Run)

  /**
    `parsed` stands for the result of the ANSI parser on the input (None when
    it fails); it is only consulted on the interactive path.
   */
  function Main(input: seq<byte>, terminalLines: u16, parsed: Option<Text>, events: seq<Event>): (o: Outcome)
    ensures o.Printed? <==> |NewlinePositions(input)| <= terminalLines
    ensures o.Printed? ==> o.output == input && o.code == SUCCESS
    ensures o.ParseFailed? <==> !o.Printed? && parsed.None?
    ensures o.Viewed? ==> o.run == View(parsed.value, events)
    ensures o.Viewed? ==> o.run.state.text == parsed.value && 1 <= o.run.redraws
    ensures o.Viewed? ==> o.run.read <= |events| && o.run.state.scroll <= o.run.read
    ensures o.Viewed? && o.run.status.Exited? ==> o.run.status.code == SUCCESS
  {
    match Decide(input, terminalLines)
    case PrintVerbatim(output) => Printed(output, SUCCESS)
    case EnterViewer =>
      match parsed
      case None => ParseFailed
      case Some(text) => Viewed(View(text, events))
  }
}
