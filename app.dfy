/**
  The desktop app (class `stressball`): a toggle that starts and stops reading,
  and the read loop that opens the serial port, turns each received line into a
  sample, and hands every display change to the UI event loop as a callback.

  The event loop's queue is modelled as an ordered log of notifications; the
  serial port as a finite sequence of events the loop observes one per iteration.
 */
module App {
  import opened Wrappers
  import opened Text
  import opened Levels

  /** One callback scheduled with `loop_call`. */
  datatype Notification =
    | StatusText(text: string)   // sets the status label to a fixed text ("Connected", "Disconnected")
    | ValueText(value: int)      // sets the value label to "Value: <value>"
    | ShowLevel(index: nat)      // shows band `index`'s image and "Connected - <caption>"
    | ButtonText(text: string)   // sets the read button's text
    /**
      The error-status callback scheduled in the `except` branch. It is meant to
      set the status label to "Error: <reason>", but it reads the exception
      variable, which Python unbinds when the `except` clause ends. By the time
      the UI loop runs it the worker has most likely left the clause, so running
      it raises `NameError` and the status label keeps its text.
     */
    | ErrorStatus(reason: string)

  /** What one iteration of the read loop observes. */
  datatype Event =
    | Line(text: string)         // bytes were waiting and `readline()` returned this text
    | NoData                     // nothing was waiting; the loop sleeps and polls again
    | StopRequested              // the user pressed the button, which ran `toggle_reading`
    | IoFailure(reason: string)  // polling, reading or decoding raised

  /** Whether opening the serial port succeeded. */
  datatype OpenResult = Opened | OpenFailed(reason: string)

  /**
    How the loop ended: it saw `is_reading` false, an exception ended it, or the
    finite input ran out while it was still reading.
   */
  datatype Exit = StillReading | Stopped | Failed(reason: string)

  /** The app's fields, the two widget texts `toggle_reading` sets, and the event-loop queue. */
  datatype AppState = AppState(
    isReading: bool,
    currentValue: int,
    buttonText: string,
    statusText: string,
    queue: seq<Notification>)

  /** The state when the loop leaves its `while`, how it left, and how many events it took. */
  datatype Run = Run(state: AppState, exit: Exit, consumed: nat)

  /** A whole `read_loop` call; `closes` counts calls of `ser.close()`. */
  datatype Session = Session(state: AppState, exit: Exit, consumed: nat, closes: nat)

  const StartText := "Start Reading"
  const StopText := "Stop Reading"

  /** The callback `update_image_for_value` schedules for `v`: at most one, for the first band holding it. */
  function LevelNotes(levels: seq<Level>, v: int): seq<Notification> {
    match Classify(levels, v)
    case Some(i) => [ShowLevel(i)]
    case None => []
  }

  /** What a parsed sample schedules: `update_value`, then `update_image_for_value`. */
  function SampleNotes(levels: seq<Level>, v: int): seq<Notification> {
    [ValueText(v)] + LevelNotes(levels, v)
  }

  /** `toggle_reading`: flips `is_reading` and shows the text pair for the new mode. */
  function Toggled(st: AppState): (r: AppState)
    ensures r.isReading == !st.isReading
    ensures r.buttonText == (if r.isReading then StopText else StartText)
    ensures r.statusText == (if r.isReading then "Connecting..." else "Disconnected")
    ensures r.currentValue == st.currentValue && r.queue == st.queue
  {
    if st.isReading then st.(isReading := false, buttonText := StartText, statusText := "Disconnected")
    else st.(isReading := true, buttonText := StopText, statusText := "Connecting...")
  }

  /** One received line: strip, parse, and on success record and report the sample. */
  function HandleLine(levels: seq<Level>, st: AppState, line: string): AppState {
    match ParseSample(Strip(line))
    case Some(v) => st.(currentValue := v, queue := st.queue + SampleNotes(levels, v))
    case None => st
  }

  /** The `except` branch: report the error, clear `is_reading`, reset the button. */
  function HandleError(st: AppState, reason: string): AppState {
    st.(isReading := false,
        queue := st.queue + [ErrorStatus(reason), ButtonText(StartText)])
  }

  /**
    The `while self.is_reading` loop over the events it observes: `is_reading` is
    checked before each event; an exception leaves the loop at once.
   */
  function RunEvents(levels: seq<Level>, st: AppState, events: seq<Event>): (r: Run)
    ensures r.consumed <= |events|
    ensures r.exit == StillReading ==> r.consumed == |events|
    decreases |events|
  {
    if !st.isReading then Run(st, Stopped, 0)
    else if events == [] then Run(st, StillReading, 0)
    else if events[0].IoFailure? then Run(st, Failed(events[0].reason), 1)
    else
      var rest := RunEvents(levels, Step(levels, st, events[0]), events[1..]);
      rest.(consumed := rest.consumed + 1)
  }

  /** The effect of an event that does not raise. */
  function Step(levels: seq<Level>, st: AppState, e: Event): AppState {
    match e
    case Line(s) => HandleLine(levels, st, s)
    case StopRequested => Toggled(st)
    case _ => st
  }

  /** A run seen from `k` events further back. */
  function Shifted(r: Run, k: nat): Run {
    r.(consumed := r.consumed + k)
  }

  /** One turn of the loop, as the loop's code takes it. */
  lemma RunEventsUnfold(levels: seq<Level>, st: AppState, events: seq<Event>)
    requires st.isReading && events != [] && !events[0].IoFailure?
    ensures RunEvents(levels, st, events) == Shifted(RunEvents(levels, Step(levels, st, events[0]), events[1..]), 1)
  {
  }

  /** `read_loop` from opening the port to its normal or exceptional end. */
  function ReadLoopSpec(levels: seq<Level>, st: AppState, open: OpenResult, events: seq<Event>): Session {
    match open
    case OpenFailed(m) => Session(HandleError(st, m), Failed(m), 0, 0)
    case Opened =>
      var r := RunEvents(levels, st.(queue := st.queue + [StatusText("Connected")]), events);
      match r.exit
      case Stopped => Session(r.state.(queue := r.state.queue + [StatusText("Disconnected")]), Stopped, r.consumed, 1)
      case Failed(m) => Session(HandleError(r.state, m), r.exit, r.consumed, 0)
      case StillReading => Session(r.state, StillReading, r.consumed, 0)
  }

  // ---- reference definitions the loop is proved against ----

  /** The sample a line carries, if it parses. */
  function SampleOf(e: Event): Option<int> {
    match e
    case Line(s) => ParseSample(Strip(s))
    case _ => None
  }

  /** Everything the events' parsable lines schedule, in the order the lines arrive. */
  function LineUpdates(levels: seq<Level>, events: seq<Event>): seq<Notification> {
    if events == [] then []
    else
      (match SampleOf(events[0]) case Some(v) => SampleNotes(levels, v) case None => [])
      + LineUpdates(levels, events[1..])
  }

  /** The value of the last parsable line among the events, or `current` if there is none. */
  function LastSample(current: int, events: seq<Event>): int
    decreases |events|
  {
    if events == [] then current
    else LastSample(match SampleOf(events[0]) case Some(v) => v case None => current, events[1..])
  }

  /** An event after which the loop keeps going (if `is_reading` still holds). */
  predicate Continues(e: Event) {
    e.Line? || e.NoData?
  }

  // ---- what the loop promises ----

  /**
    A sample schedules its value label first, then at most one level update: for
    the first band holding it, and none when no band holds it.
   */
  lemma SampleNotesOrder(levels: seq<Level>, v: int)
    ensures var ns := SampleNotes(levels, v);
      1 <= |ns| <= 2 && ns[0] == ValueText(v)
      && (|ns| == 2 <==> exists i :: 0 <= i < |levels| && Holds(levels[i], v))
      && (|ns| == 2 ==> ns[1].ShowLevel? && ns[1].index < |levels| && Holds(levels[ns[1].index], v)
                        && forall j :: 0 <= j < ns[1].index ==> !Holds(levels[j], v))
  {
    match Classify(levels, v)
    case Some(i) =>
    case None =>
  }

  /**
    A line that does not parse changes nothing, not even the queue, and the loop
    goes on with the next event.
   */
  lemma InvalidLineSkipped(levels: seq<Level>, st: AppState, line: string, rest: seq<Event>)
    requires st.isReading
    requires ParseSample(Strip(line)).None?
    ensures HandleLine(levels, st, line) == st
    ensures RunEvents(levels, st, [Line(line)] + rest) == Shifted(RunEvents(levels, st, rest), 1)
  {
    assert ([Line(line)] + rest)[1..] == rest;
  }

  /** A line that parses records its value and appends exactly its notifications. */
  lemma ValidLineRecorded(levels: seq<Level>, st: AppState, line: string, v: int)
    requires ParseSample(Strip(line)) == Some(v)
    ensures var r := HandleLine(levels, st, line);
      r.currentValue == v && r.isReading == st.isReading
      && r.buttonText == st.buttonText && r.statusText == st.statusText
      && r.queue == st.queue + SampleNotes(levels, v)
  {
  }

  lemma LineUpdatesAppend(levels: seq<Level>, e: Event, rest: seq<Event>)
    ensures LineUpdates(levels, [e] + rest) == LineUpdates(levels, [e]) + LineUpdates(levels, rest)
  {
    assert ([e] + rest)[1..] == rest;
    assert [e][1..] == [];
  }

  /** The first `n` events are the first event followed by the next `n - 1`. */
  lemma TakeCons(events: seq<Event>, n: nat)
    requires 0 < n <= |events|
    ensures events[..n] == [events[0]] + events[1..][..n - 1]
  {
  }

  /** What one non-raising event does to the queue and to `current_value`. */
  lemma StepLog(levels: seq<Level>, st: AppState, e: Event)
    requires !e.IoFailure?
    ensures Step(levels, st, e).queue == st.queue + LineUpdates(levels, [e])
    ensures Step(levels, st, e).currentValue == LastSample(st.currentValue, [e])
  {
    assert [e][1..] == [];
  }

  lemma LastSampleCons(current: int, e: Event, rest: seq<Event>)
    ensures LastSample(current, [e] + rest) == LastSample(LastSample(current, [e]), rest)
  {
    assert ([e] + rest)[1..] == rest;
    assert [e][1..] == [];
  }

  /** Appending two pieces one after the other appends their concatenation. */
  lemma AppendTwice(q0: seq<Notification>, a: seq<Notification>, b: seq<Notification>)
    ensures (q0 + a) + b == q0 + (a + b)
  {
  }

  /** The queue grows by the notifications of the lines the loop consumed and by nothing else. */
  lemma {:induction false} RunEventsQueue(levels: seq<Level>, st: AppState, events: seq<Event>)
    ensures var r := RunEvents(levels, st, events);
      r.state.queue == st.queue + LineUpdates(levels, events[..r.consumed])
    decreases |events|
  {
    var r := RunEvents(levels, st, events);
    if !st.isReading || events == [] {
      assert events[..r.consumed] == [];
    } else if events[0].IoFailure? {
      assert events[..r.consumed] == [events[0]] && [events[0]][1..] == [];
    } else {
      var e, rest := events[0], events[1..];
      var st' := Step(levels, st, e);
      var r' := RunEvents(levels, st', rest);
      RunEventsUnfold(levels, st, events);
      RunEventsQueue(levels, st', rest);
      StepLog(levels, st, e);
      TakeCons(events, r.consumed);
      LineUpdatesAppend(levels, e, rest[..r'.consumed]);
      AppendTwice(st.queue, LineUpdates(levels, [e]), LineUpdates(levels, rest[..r'.consumed]));
    }
  }

  /** `current_value` ends as the value of the last consumed line that parsed. */
  lemma {:induction false} RunEventsValue(levels: seq<Level>, st: AppState, events: seq<Event>)
    ensures var r := RunEvents(levels, st, events);
      r.state.currentValue == LastSample(st.currentValue, events[..r.consumed])
    decreases |events|
  {
    var r := RunEvents(levels, st, events);
    if !st.isReading || events == [] {
      assert events[..r.consumed] == [];
    } else if events[0].IoFailure? {
      assert events[..r.consumed] == [events[0]] && [events[0]][1..] == [];
    } else {
      var e := events[0];
      var st' := Step(levels, st, e);
      var r' := RunEvents(levels, st', events[1..]);
      RunEventsUnfold(levels, st, events);
      RunEventsValue(levels, st', events[1..]);
      StepLog(levels, st, e);
      TakeCons(events, r.consumed);
      LastSampleCons(st.currentValue, e, events[1..][..r'.consumed]);
    }
  }

  /**
    The loop takes events in order and leaves at the first stop request or
    failure: every event before the last consumed one let it continue, and the
    last one says why it left.
   */
  lemma {:induction false} RunEventsExit(levels: seq<Level>, st: AppState, events: seq<Event>)
    ensures var r := RunEvents(levels, st, events);
      forall k :: 0 <= k < r.consumed - 1 ==> Continues(events[k])
    ensures var r := RunEvents(levels, st, events);
      r.exit == StillReading ==> r.state.isReading && (|events| > 0 ==> Continues(events[|events| - 1]))
    ensures var r := RunEvents(levels, st, events);
      r.exit == Stopped ==> (!r.state.isReading && (r.consumed == 0 <==> !st.isReading))
    ensures var r := RunEvents(levels, st, events);
      r.exit == Stopped && r.consumed > 0 ==>
        (events[r.consumed - 1] == StopRequested
         && r.state.buttonText == StartText && r.state.statusText == "Disconnected")
    ensures var r := RunEvents(levels, st, events);
      r.exit.Failed? ==> r.consumed > 0 && events[r.consumed - 1] == IoFailure(r.exit.reason)
    decreases |events|
  {
    if st.isReading && events != [] && !events[0].IoFailure? {
      var st' := Step(levels, st, events[0]);
      var rest := events[1..];
      var r' := RunEvents(levels, st', rest);
      RunEventsUnfold(levels, st, events);
      RunEventsExit(levels, st', rest);
      StepExit(levels, st, events[0]);
      forall k | 0 <= k < r'.consumed
        ensures Continues(events[k])
      {
        if k > 0 { assert events[k] == rest[k - 1]; }
      }
      if |rest| > 0 {
        assert events[|events| - 1] == rest[|rest| - 1];
      }
    }
  }

  /** How a non-raising event affects the loop's exit. */
  lemma StepExit(levels: seq<Level>, st: AppState, e: Event)
    requires st.isReading && !e.IoFailure?
    ensures Step(levels, st, e).isReading <==> Continues(e)
    ensures !Step(levels, st, e).isReading ==>
      Step(levels, st, e).buttonText == StartText && Step(levels, st, e).statusText == "Disconnected"
  {
  }

  /**
    A session on an opened port: "Connected" comes first, then the consumed
    lines' notifications in order, then "Disconnected" on a stop or the error
    status and button reset on a failure. The port is closed once on the normal
    exit and never otherwise, and lines after a failure are never processed.
   */
  lemma OpenedSession(levels: seq<Level>, st: AppState, events: seq<Event>)
    ensures var s := ReadLoopSpec(levels, st, Opened, events);
      var lines := LineUpdates(levels, events[..s.consumed]);
      s.consumed <= |events|
      && s.closes == (if s.exit == Stopped then 1 else 0)
      && s.state.currentValue == LastSample(st.currentValue, events[..s.consumed])
      && (forall k :: 0 <= k < s.consumed - 1 ==> Continues(events[k]))
      && (s.exit == Stopped ==>
            !s.state.isReading
            && s.state.queue == st.queue + [StatusText("Connected")] + lines + [StatusText("Disconnected")])
      && (s.exit.Failed? ==>
            !s.state.isReading && s.consumed > 0 && events[s.consumed - 1] == IoFailure(s.exit.reason)
            && s.state.queue == st.queue + [StatusText("Connected")] + lines
                                + [ErrorStatus(s.exit.reason), ButtonText(StartText)])
      && (s.exit == StillReading ==>
            s.state.isReading && s.consumed == |events|
            && s.state.queue == st.queue + [StatusText("Connected")] + LineUpdates(levels, events))
  {
    var st1 := st.(queue := st.queue + [StatusText("Connected")]);
    RunEventsQueue(levels, st1, events);
    RunEventsValue(levels, st1, events);
    RunEventsExit(levels, st1, events);
    var r := RunEvents(levels, st1, events);
    if r.exit == StillReading {
      assert events[..r.consumed] == events;
    }
  }

  /**
    A port that fails to open: the error status and the button reset are queued,
    reading stops, no event is consumed and no port is closed.
   */
  lemma FailedOpenSession(levels: seq<Level>, st: AppState, reason: string, events: seq<Event>)
    ensures var s := ReadLoopSpec(levels, st, OpenFailed(reason), events);
      s.exit == Failed(reason) && s.consumed == 0 && s.closes == 0
      && !s.state.isReading && s.state.currentValue == st.currentValue
      && s.state.queue == st.queue + [ErrorStatus(reason), ButtonText(StartText)]
  {
  }

  /** Toggling twice restores `is_reading`; the button always offers the opposite action. */
  lemma ToggleTwice(st: AppState)
    ensures Toggled(Toggled(st)).isReading == st.isReading
    ensures Toggled(Toggled(st)).queue == st.queue
    ensures Toggled(Toggled(st)).buttonText == (if st.isReading then StopText else StartText)
  {
  }

  // ---- the app object ----

  class StressBall {
    const stressLevels: seq<Level>
    var isReading: bool
    var currentValue: int
    var buttonText: string
    var statusText: string
    var queue: seq<Notification>

    function State(): AppState
      reads this
    {
      AppState(isReading, currentValue, buttonText, statusText, queue)
    }

    /** `startup`, without the widgets: not reading, value 0, the shipped bands, an empty queue. */
    constructor ()
      ensures stressLevels == ShippedLevels
      ensures State() == AppState(false, 0, StartText, "Not Connected", [])
    {
      stressLevels := ShippedLevels;
      isReading := false;
      currentValue := 0;
      buttonText := StartText;
      statusText := "Not Connected";
      queue := [];
    }

    /**
      `toggle_reading`. `startLoop` says whether it starts the read-loop thread,
      which it does exactly when reading was off.
     */
    method ToggleReading() returns (startLoop: bool)
      modifies this
      ensures State() == Toggled(old(State()))
      ensures startLoop == !old(isReading)
    {
      if isReading {
        isReading := false;
        buttonText := StartText;
        statusText := "Disconnected";
        startLoop := false;
      } else {
        isReading := true;
        buttonText := StopText;
        statusText := "Connecting...";
        startLoop := true;
      }
    }

    /** `loop_call`: the callback joins the back of the event loop's queue. */
    method LoopCall(n: Notification)
      modifies this
      ensures State() == old(State()).(queue := old(queue) + [n])
    {
      queue := queue + [n];
    }

    /** `update_value`. */
    method UpdateValue(v: int)
      modifies this
      ensures State() == old(State()).(queue := old(queue) + [ValueText(v)])
    {
      LoopCall(ValueText(v));
    }

    /** `update_image_for_value`: scans the bands and schedules one update for the first match. */
    method UpdateImageForValue(v: int)
      modifies this
      ensures State() == old(State()).(queue := old(queue) + LevelNotes(stressLevels, v))
    {
      var i := 0;
      while i < |stressLevels|
        invariant 0 <= i <= |stressLevels|
        invariant forall j :: 0 <= j < i ==> !Holds(stressLevels[j], v)
        invariant State() == old(State())
      {
        if Holds(stressLevels[i], v) {
          ClassifyFirst(stressLevels, v, i);
          LoopCall(ShowLevel(i));
          break;
        }
        i := i + 1;
      }
    }

    /** The body of `if ser.in_waiting > 0` for a line that was read. */
    method ReceiveLine(raw: string)
      modifies this
      ensures State() == HandleLine(stressLevels, old(State()), raw)
    {
      var line := Strip(raw);
      var parsed := ParseSample(line);
      match parsed
      case Some(v) =>
        currentValue := v;
        UpdateValue(v);
        UpdateImageForValue(v);
      case None =>
        // "Invalid data": the line is dropped and reading goes on.
    }

    /** One iteration of the `while` for an event that does not raise. */
    method Observe(e: Event)
      requires !e.IoFailure?
      modifies this
      ensures State() == Step(stressLevels, old(State()), e)
    {
      match e
      case Line(s) =>
        ReceiveLine(s);
      case NoData =>
        // time.sleep(0.01)
      case StopRequested =>
        var started := ToggleReading();
    }

    /** The `except` branch of `read_loop`. */
    method ReportError(reason: string)
      modifies this
      ensures State() == HandleError(old(State()), reason)
    {
      LoopCall(ErrorStatus(reason));
      isReading := false;
      LoopCall(ButtonText(StartText));
    }

    /**
      `read_loop`, run sequentially against the result of opening the port and the
      events its iterations observe.
     */
    method ReadLoop(open: OpenResult, events: seq<Event>) returns (exit: Exit, consumed: nat, closes: nat)
      modifies this
      ensures Session(State(), exit, consumed, closes) == ReadLoopSpec(stressLevels, old(State()), open, events)
    {
      closes := 0;
      consumed := 0;
      if open.OpenFailed? {
        exit := Failed(open.reason);
        ReportError(open.reason);
        return;
      }
      LoopCall(StatusText("Connected"));
      ghost var start := State();
      var failure: Option<string> := None;
      ghost var target := RunEvents(stressLevels, start, events);
      while isReading && failure.None? && consumed < |events|
        invariant consumed <= |events|
        invariant failure.None? ==> Shifted(RunEvents(stressLevels, State(), events[consumed..]), consumed) == target
        invariant failure.Some? ==> target == Run(State(), Failed(failure.value), consumed)
        decreases |events| - consumed
      {
        var e := events[consumed];
        assert events[consumed..][0] == e && events[consumed..][1..] == events[consumed + 1..];
        if e.IoFailure? {
          failure := Some(e.reason);
        } else {
          RunEventsUnfold(stressLevels, State(), events[consumed..]);
          Observe(e);
        }
        consumed := consumed + 1;
      }
      if failure.Some? {
        exit := Failed(failure.value);
        ReportError(failure.value);
      } else if !isReading {
        closes := closes + 1;
        LoopCall(StatusText("Disconnected"));
        exit := Stopped;
      } else {
        assert events[consumed..] == [];
        exit := StillReading;
      }
    }
  }
}
