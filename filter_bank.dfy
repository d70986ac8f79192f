/**
 * The six band-pass filters and the six waveform analyzers of sketch.js
 * (createFilters, createAnalyzers).  The p5.sound objects are abstracted to
 * the parameters the sketch sets on them: a filter's centre frequency,
 * resonance and input node, an analyzer's smoothing, bin count and input tap.
 */
module FilterBank {
  import opened Wrappers

  /** Number of bands; also the number of filters, analyzers and colours. */
  const NumLines: nat := 6
  /** Length of every analyzer's waveform buffer (numSamples). */
  const NumSamples: nat := 1024
  /** Resonance given to every filter. */
  const Resonance: int := 10

  /** A frequency range [lo, hi] in Hz. */
  datatype Band = Band(lo: int, hi: int)

  /** The fixed band table freqArr. */
  const FreqArr: seq<Band> :=
    [Band(0, 500), Band(600, 2000), Band(2100, 5000),
     Band(5100, 8000), Band(8100, 12000), Band(12100, 22000)]

  /** What feeds a filter: nothing yet, one loaded sound file (by load generation), the mic, or the oscillator. */
  datatype SourceNode = NoInput | FileAsset(gen: nat) | MicInput | OscInput

  /** A p5.BandPass as the sketch configures it. */
  datatype BandPass = BandPass(freq: real, res: int, input: SourceNode)

  /** Which filter an analyzer listens to. */
  datatype Tap = Unbound | FilterAt(index: nat)

  /** A p5.FFT as the sketch configures it: smoothing, bins, input. */
  datatype Fft = Fft(smoothing: real, bins: nat, input: Tap)

  /** The analyzer every slot holds once bound to filter i. */
  function BoundAnalyzer(i: nat): Fft
  {
    Fft(0.0, NumSamples, FilterAt(i))
  }

  function Max(a: int, b: int): int
  {
    if a < b then b else a
  }

  /** p5's map(): the linear re-mapping of value from [start1, stop1] onto [start2, stop2]. */
  function MapRange(value: real, start1: real, stop1: real, start2: real, stop2: real): real
    requires start1 != stop1
  {
    (value - start1) / (stop1 - start1) * (stop2 - start2) + start2
  }

  /** map() sends the ends of its first range to the ends of its second. */
  lemma MapRangeEnds(start1: real, stop1: real, start2: real, stop2: real)
    requires start1 != stop1
    ensures MapRange(start1, start1, stop1, start2, stop2) == start2
    ensures MapRange(stop1, start1, stop1, start2, stop2) == stop2
  {
  }

  /**
   * The centre frequency createFilters gives a band: map(1, 0, 1, lo, hi).
   * The value mapped is the top of the unit range, so the centre is the band's
   * upper edge.
   */
  function Centre(b: Band): (f: real)
    ensures f == b.hi as real
  {
    MapRange(1.0, 0.0, 1.0, b.lo as real, b.hi as real)
  }

  /**
   * The centres of the fixed table: each sits on its band's upper edge, inside
   * the 10 Hz - 22050 Hz range of the analyzers, and they strictly increase
   * from band to band.
   */
  lemma CentresOfFreqArr(i: nat, j: nat)
    requires i < j < NumLines
    ensures |FreqArr| == NumLines
    ensures FreqArr[i].lo as real <= Centre(FreqArr[i]) == FreqArr[i].hi as real
    ensures 10.0 <= Centre(FreqArr[i]) < Centre(FreqArr[j]) <= 22050.0
  {
  }

  /**
   * createFilters: a sparse array of length max(6, |freqArr|) (new Array(6)
   * grows when written past its end); slot i holds the filter for band i with
   * centre map(1, 0, 1, lo, hi) and resonance 10, not yet fed by any source;
   * slots past the table stay empty.
   */
  method CreateFilters(freqArr: seq<Band>) returns (filterArr: array<Option<BandPass>>)
    ensures fresh(filterArr)
    ensures filterArr.Length == Max(NumLines, |freqArr|)
    ensures forall i :: 0 <= i < |freqArr| ==>
      filterArr[i] == Some(BandPass(freqArr[i].hi as real, Resonance, NoInput))
    ensures forall i :: |freqArr| <= i < filterArr.Length ==> filterArr[i] == None
  {
    filterArr := new Option<BandPass>[Max(NumLines, |freqArr|)](_ => None);
    var i := 0;
    while i < |freqArr|
      invariant 0 <= i <= |freqArr|
      invariant forall j :: 0 <= j < i ==>
        filterArr[j] == Some(BandPass(freqArr[j].hi as real, Resonance, NoInput))
      invariant forall j :: i <= j < filterArr.Length ==> filterArr[j] == None
    {
      var freqRange := freqArr[i];
      var filterFreq := Centre(freqRange);
      filterArr[i] := Some(BandPass(filterFreq, Resonance, NoInput));
      i := i + 1;
    }
  }

  /**
   * createAnalyzers(n): a sparse array of length max(6, n) whose first n slots
   * hold a fresh analyzer (smoothing 0, 1024 bins, not yet bound to a filter).
   */
  method CreateAnalyzers(n: nat) returns (analyzerArr: array<Option<Fft>>)
    ensures fresh(analyzerArr)
    ensures analyzerArr.Length == Max(NumLines, n)
    ensures forall i :: 0 <= i < n ==> analyzerArr[i] == Some(Fft(0.0, NumSamples, Unbound))
    ensures forall i :: n <= i < analyzerArr.Length ==> analyzerArr[i] == None
  {
    analyzerArr := new Option<Fft>[Max(NumLines, n)](_ => None);
    var i := 0;
    while i < n
      invariant 0 <= i <= n
      invariant forall j :: 0 <= j < i ==> analyzerArr[j] == Some(Fft(0.0, NumSamples, Unbound))
      invariant forall j :: i <= j < analyzerArr.Length ==> analyzerArr[j] == None
    {
      analyzerArr[i] := Some(Fft(0.0, NumSamples, Unbound));
      i := i + 1;
    }
  }
}
