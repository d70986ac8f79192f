/**
 * The parts of draw and labelStuff in sketch.js that are exact: which analyzer
 * each pass of the band loop reads, with which colour and at which vertical
 * offset, and which text lines the label shows.  Sample-to-pixel mapping and
 * the drawing calls themselves are not modelled.
 */
module Renderer {
  import opened FilterBank
  import opened SourceRouter

  const CanvasHeight: int := 500
  const LineWidth: int := 10

  /** One pass of the band loop: the analyzer read, the colour index and the offset added to every vertex's y. */
  datatype Trace = Trace(analyzer: nat, colour: nat, yOffset: int)

  /** What the band loop does for one value of index. */
  function BandTrace(index: nat): Trace
    requires index < NumLines
  {
    Trace(NumLines - 1 - index, index, 3 * index * LineWidth + CanvasHeight / 2)
  }

  /**
   * The band loop of draw: index runs from colorArr.length - 1 = 5 down to 0.
   * The k-th pass reads analyzer k, so the lowest band is drawn first, with the
   * last colour, lowest on the canvas.
   */
  method DrawBands() returns (traces: seq<Trace>)
    ensures |traces| == NumLines
    ensures forall k :: 0 <= k < NumLines ==> traces[k] == BandTrace(NumLines - 1 - k)
    ensures forall k :: 0 <= k < NumLines ==> traces[k].analyzer == k
  {
    traces := [];
    var index := NumLines - 1;
    while index >= 0
      invariant -1 <= index < NumLines
      invariant |traces| == NumLines - 1 - index
      invariant forall k :: 0 <= k < |traces| ==> traces[k] == BandTrace(NumLines - 1 - k)
    {
      traces := traces + [Trace(NumLines - 1 - index, index, 3 * index * LineWidth + CanvasHeight / 2)];
      index := index - 1;
    }
  }

  /**
   * Layout of the traces: analyzer and colour are paired in reverse (their sum
   * is 5, so every analyzer and every colour is used once), consecutive bands
   * are 3 * lineWidth apart, and every offset lies in the lower half of the
   * canvas.
   */
  lemma BandTraceLayout(index: nat)
    requires index < NumLines
    ensures BandTrace(index).analyzer + BandTrace(index).colour == NumLines - 1
    ensures CanvasHeight / 2 <= BandTrace(index).yOffset < CanvasHeight
    ensures index + 1 < NumLines ==>
      BandTrace(index + 1).yOffset == BandTrace(index).yOffset + 3 * LineWidth
  {
  }

  /** The condition of labelStuff: is currentSource one of the oscillator names? */
  function ShowsReadout(currentSource: string): bool
  {
    currentSource == "sine" || currentSource == "triangle" ||
    currentSource == "square" || currentSource == "sawtooth"
  }

  /** The frequency and amplitude lines appear exactly for the four oscillator labels. */
  lemma ReadoutOnlyForOscillators(l: Label)
    ensures ShowsReadout(Name(l)) <==> l.OscLabel?
  {
  }

  /** After the first toggle, along the sketch's own paths, the readout shows exactly in modes 2 to 5. */
  lemma ReadoutFollowsMode(s: State)
    requires Sane(s)
    ensures ShowsReadout(Name(s.currentSource)) <==> 2 <= s.inputMode <= 5 && !BeforeFirstToggle(s)
  {
  }

  /** A text line of labelStuff; the numbers in the frequency and amplitude lines are not modelled. */
  datatype TextLine = ToggleHint | SourceLine(name: string) | FrequencyLine | AmplitudeLine
  datatype Placed = Placed(line: TextLine, x: int, y: int)

  /**
   * labelStuff: the toggle hint and the source name always, then frequency and
   * amplitude for an oscillator source, one line every 20 pixels at x = 20.
   */
  function LabelStuff(currentSource: string): (lines: seq<Placed>)
    ensures |lines| == (if ShowsReadout(currentSource) then 4 else 2)
    ensures lines[0].line == ToggleHint && lines[1].line == SourceLine(currentSource)
    ensures |lines| == 4 ==> lines[2].line == FrequencyLine && lines[3].line == AmplitudeLine
    ensures forall k :: 0 <= k < |lines| ==> lines[k].x == 20 && lines[k].y == 20 * (k + 1)
  {
    [Placed(ToggleHint, 20, 20), Placed(SourceLine(currentSource), 20, 40)] +
    if ShowsReadout(currentSource)
    then [Placed(FrequencyLine, 20, 60), Placed(AmplitudeLine, 20, 80)]
    else []
  }
}
