/**
  The firmware and the app together: what the app makes of the lines the
  firmware prints.
 */
module Pipeline {
  import opened Wrappers
  import opened Text
  import opened Firmware
  import opened Levels
  import opened App

  /** Stripping and parsing a line the firmware printed recovers the scaled reading. */
  lemma SampleLineRoundTrip(raw: U16)
    ensures ParseSample(Strip(SampleLine(raw))) == Some(Scale(raw))
  {
    var d := Decimal(Scale(raw));
    DecimalTrimmed(Scale(raw));
    assert AllSpace(LineEnd);
    assert [] + d + LineEnd == SampleLine(raw);
    StripPadded([], d, LineEnd);
    ParseDecimal(Scale(raw));
  }

  /** The same holds whatever whitespace surrounds the digits. */
  lemma PaddedLineRoundTrip(n: nat, pre: string, post: string)
    requires AllSpace(pre) && AllSpace(post)
    ensures ParseSample(Strip(pre + Decimal(n) + post)) == Some(n)
  {
    DecimalTrimmed(n);
    StripPadded(pre, Decimal(n), post);
    ParseDecimal(n);
  }

  /** Readings of 64064 and above scale to 1001..1023, which no shipped band holds. */
  lemma HighReadingsUnclassified(raw: U16)
    requires raw >= 64064
    ensures 1001 <= Scale(raw) <= 1023
    ensures Classify(ShippedLevels, Scale(raw)) == None
    ensures SampleNotes(ShippedLevels, Scale(raw)) == [ValueText(Scale(raw))]
  {
    ShippedClassify(Scale(raw));
  }

  /** Every reading below 64064 lands in exactly the shipped band for its scaled value. */
  lemma LowReadingsClassified(raw: U16)
    requires raw < 64064
    ensures Scale(raw) <= 1000
    ensures Classify(ShippedLevels, Scale(raw)).Some?
    ensures |SampleNotes(ShippedLevels, Scale(raw))| == 2
  {
    ShippedClassify(Scale(raw));
  }

  /** The printed lines, as the read loop receives them. */
  function AsEvents(lines: seq<string>): (es: seq<Event>)
    ensures |es| == |lines|
    ensures forall i :: 0 <= i < |lines| ==> es[i] == Line(lines[i])
  {
    seq(|lines|, i requires 0 <= i < |lines| => Line(lines[i]))
  }

  /** The notifications the app schedules for a run of readings, reading by reading. */
  function ReadingNotes(levels: seq<Level>, readings: seq<U16>): seq<Notification> {
    if readings == [] then [] else SampleNotes(levels, Scale(readings[0])) + ReadingNotes(levels, readings[1..])
  }

  /**
    Every line the firmware prints parses in the app, so the loop schedules, for
    each reading in turn, its scaled value's label and band.
   */
  lemma {:induction false} FirmwareLinesUpdates(levels: seq<Level>, readings: seq<U16>, lines: seq<string>)
    requires |lines| == |readings|
    requires forall i :: 0 <= i < |readings| ==> lines[i] == SampleLine(readings[i])
    ensures LineUpdates(levels, AsEvents(lines)) == ReadingNotes(levels, readings)
    decreases |readings|
  {
    if readings != [] {
      SampleLineRoundTrip(readings[0]);
      assert AsEvents(lines)[1..] == AsEvents(lines[1..]);
      FirmwareLinesUpdates(levels, readings[1..], lines[1..]);
    }
  }

  /** With only firmware lines to read, the last one decides `current_value`. */
  lemma {:induction false} FirmwareLastSample(current: int, readings: seq<U16>, lines: seq<string>)
    requires |lines| == |readings|
    requires forall i :: 0 <= i < |readings| ==> lines[i] == SampleLine(readings[i])
    ensures LastSample(current, AsEvents(lines)) == if readings == [] then current else Scale(readings[|readings| - 1])
    decreases |readings|
  {
    if readings != [] {
      SampleLineRoundTrip(readings[0]);
      assert AsEvents(lines)[1..] == AsEvents(lines[1..]);
      FirmwareLastSample(Scale(readings[0]), readings[1..], lines[1..]);
    }
  }

  /**
    An app that is reading, whose port opens, and that then reads the firmware's
    lines for a run of readings: after "Connected" the queue holds each reading's
    label and band, in order, and the loop is still reading.
   */
  lemma ReadingFirmwareLines(st: AppState, readings: seq<U16>, lines: seq<string>)
    requires st.isReading
    requires |lines| == |readings|
    requires forall i :: 0 <= i < |readings| ==> lines[i] == SampleLine(readings[i])
    ensures var s := ReadLoopSpec(ShippedLevels, st, Opened, AsEvents(lines));
      s.exit == StillReading && s.closes == 0 && s.consumed == |readings|
      && s.state.queue == st.queue + [StatusText("Connected")] + ReadingNotes(ShippedLevels, readings)
      && s.state.statusText == st.statusText && s.state.buttonText == st.buttonText
      && s.state.currentValue == (if readings == [] then st.currentValue else Scale(readings[|readings| - 1]))
  {
    var st1 := st.(queue := st.queue + [StatusText("Connected")]);
    FirmwareRun(st1, readings, lines);
  }

  /** The `while` loop of `ReadingFirmwareLines`. */
  lemma FirmwareRun(st: AppState, readings: seq<U16>, lines: seq<string>)
    requires st.isReading
    requires |lines| == |readings|
    requires forall i :: 0 <= i < |readings| ==> lines[i] == SampleLine(readings[i])
    ensures var r := RunEvents(ShippedLevels, st, AsEvents(lines));
      r.exit == StillReading && r.consumed == |readings|
      && r.state.queue == st.queue + ReadingNotes(ShippedLevels, readings)
      && r.state.statusText == st.statusText && r.state.buttonText == st.buttonText
      && r.state.currentValue == (if readings == [] then st.currentValue else Scale(readings[|readings| - 1]))
  {
    var es := AsEvents(lines);
    AllLinesKeepReading(ShippedLevels, st, es);
    var r := RunEvents(ShippedLevels, st, es);
    assert es[..r.consumed] == es;
    RunEventsQueue(ShippedLevels, st, es);
    FirmwareLinesUpdates(ShippedLevels, readings, lines);
    RunEventsValue(ShippedLevels, st, es);
    FirmwareLastSample(st.currentValue, readings, lines);
  }

  /** Handling a line leaves `is_reading` and the widget texts alone. */
  lemma LineKeepsMode(levels: seq<Level>, st: AppState, line: string)
    ensures var r := Step(levels, st, Line(line));
      r.isReading == st.isReading && r.statusText == st.statusText && r.buttonText == st.buttonText
  {
  }

  /** A loop fed only lines never leaves its `while`. */
  lemma {:induction false} AllLinesKeepReading(levels: seq<Level>, st: AppState, events: seq<Event>)
    requires st.isReading
    requires forall i :: 0 <= i < |events| ==> events[i].Line?
    ensures RunEvents(levels, st, events).exit == StillReading
    ensures RunEvents(levels, st, events).state.statusText == st.statusText
    ensures RunEvents(levels, st, events).state.buttonText == st.buttonText
    decreases |events|
  {
    if events != [] {
      RunEventsUnfold(levels, st, events);
      LineKeepsMode(levels, st, events[0].text);
      AllLinesKeepReading(levels, Step(levels, st, events[0]), events[1..]);
    }
  }
}
