/**
 * The global state of sketch.js as one object: the filter and analyzer arrays
 * built in setup, and the router's globals (inputMode, currentSource) together
 * with the abstracted state of soundFile, mic and osc.  Each method is proved
 * to move View() exactly as the matching function of SourceRouter says.
 */
module Visualizer {
  import opened Wrappers
  import opened FilterBank
  import opened SourceRouter

  class Sketch {
    var filterArr: array<Option<BandPass>>
    var analyzerArr: array<Option<Fft>>
    var inputMode: int
    var currentSource: Label
    var fileGen: nat
    var filePlaying: bool
    var filePaused: bool
    var micRunning: bool
    var oscRunning: bool
    var oscType: Waveform

    /** Six filters, one per band of freqArr, configured as createFilters leaves them, all fed by one node. */
    ghost predicate FiltersBuilt()
      reads this, filterArr
    {
      filterArr.Length == NumLines && filterArr[0].Some? &&
      (forall i :: 0 <= i < NumLines ==>
        filterArr[i].Some? && filterArr[i].value.freq == Centre(FreqArr[i]) &&
        filterArr[i].value.res == Resonance &&
        filterArr[i].value.input == filterArr[0].value.input)
    }

    /** Six analyzers, analyzer i listening to filter i. */
    ghost predicate AnalyzersBound()
      reads this, analyzerArr
    {
      analyzerArr.Length == NumLines &&
      forall i :: 0 <= i < NumLines ==> analyzerArr[i] == Some(BoundAnalyzer(i))
    }

    ghost predicate Valid()
      reads this, filterArr, analyzerArr
    {
      FiltersBuilt() && AnalyzersBound()
    }

    /** The node all six filters process. */
    function Wired(): SourceNode
      reads this, filterArr
      requires FiltersBuilt()
    {
      filterArr[0].value.input
    }

    /** The router state this object holds. */
    function View(): State
      reads this, filterArr, analyzerArr
      requires Valid()
    {
      State(inputMode, currentSource, Wired(), fileGen, filePlaying, filePaused,
            micRunning, oscRunning, oscType)
    }

    /**
     * setup together with the globals' initial values: the filters and analyzers
     * are built, all six filters process the first sound file, analyzer i is
     * bound to filter i, the mode is 5 and the label 'soundFile'.
     */
    constructor ()
      ensures Valid() && fresh(filterArr) && fresh(analyzerArr)
      ensures View() == Initial()
    {
      var filters := CreateFilters(FreqArr);
      var analyzers := CreateAnalyzers(NumLines);
      filterArr, analyzerArr := filters, analyzers;
      inputMode := 5;
      currentSource := FileLabel;
      fileGen := 0;
      filePlaying, filePaused := false, false;
      micRunning, oscRunning := false, false;
      oscType := Sine;
      new;
      SetUpProcessing(FileAsset(0));
      SetUpInput();
    }

    /** setUpProcessing(source): every filter now processes source; nothing else about them changes. */
    method SetUpProcessing(source: SourceNode)
      requires FiltersBuilt()
      modifies filterArr
      ensures FiltersBuilt() && Wired() == source
      ensures forall i :: 0 <= i < NumLines ==>
        filterArr[i] == Some(old(filterArr[i].value).(input := source))
    {
      var i := 0;
      while i < filterArr.Length
        invariant 0 <= i <= filterArr.Length
        invariant forall j :: 0 <= j < i ==>
          filterArr[j] == Some(old(filterArr[j].value).(input := source))
        invariant forall j :: i <= j < filterArr.Length ==> filterArr[j] == old(filterArr[j])
      {
        filterArr[i] := Some(filterArr[i].value.(input := source));
        i := i + 1;
      }
    }

    /** setUpInput: analyzer i is bound to filter i for every filter; its other settings stay. */
    method SetUpInput()
      requires analyzerArr.Length == NumLines && filterArr.Length == NumLines
      requires forall i :: 0 <= i < NumLines ==>
        analyzerArr[i].Some? && analyzerArr[i].value.smoothing == 0.0 &&
        analyzerArr[i].value.bins == NumSamples
      modifies analyzerArr
      ensures AnalyzersBound()
    {
      var i := 0;
      while i < filterArr.Length
        invariant 0 <= i <= filterArr.Length
        invariant forall j :: 0 <= j < i ==> analyzerArr[j] == Some(BoundAnalyzer(j))
        invariant forall j :: i <= j < NumLines ==> analyzerArr[j] == old(analyzerArr[j])
      {
        analyzerArr[i] := Some(analyzerArr[i].value.(input := FilterAt(i)));
        i := i + 1;
      }
    }

    /** The pair setUpProcessing(source); setUpInput() that entering modes 0 to 2 performs. */
    method Rewire(source: SourceNode)
      requires Valid()
      modifies filterArr, analyzerArr
      ensures Valid() && Wired() == source
    {
      SetUpProcessing(source);
      SetUpInput();
    }

    /** soundFile.pause() */
    method PauseFile()
      modifies this`filePlaying, this`filePaused
      ensures (filePlaying, filePaused) ==
        if old(filePlaying) then (false, true) else (old(filePlaying), old(filePaused))
    {
      if filePlaying {
        filePlaying, filePaused := false, true;
      }
    }

    /**
     * toggleInput(mode): None stands for a call without a number.  The new
     * state is exactly SourceRouter.Toggle of the old one; the arrays stay the
     * same objects, and analyzer i stays bound to filter i.
     */
    method ToggleInput(mode: Option<int>)
      requires Valid()
      modifies this, filterArr, analyzerArr
      ensures filterArr == old(filterArr) && analyzerArr == old(analyzerArr)
      ensures Valid() && View() == Toggle(old(View()), mode)
    {
      if mode.Some? {
        inputMode := mode.value;
      } else {
        inputMode := inputMode + 1;
        inputMode := JsRem6(inputMode);
      }
      EnterMode();
    }

    /** The switch of toggleInput: the entry actions of the mode just stored. */
    method EnterMode()
      requires Valid()
      modifies this, filterArr, analyzerArr
      ensures filterArr == old(filterArr) && analyzerArr == old(analyzerArr)
      ensures Valid() && View() == Enter(old(View()))
    {
      if inputMode == 0 {
        filePlaying, filePaused := true, false;
        oscRunning := false;
        micRunning := false;
        Rewire(FileAsset(fileGen));
        currentSource := FileLabel;
      } else if inputMode == 1 {
        micRunning := true;
        PauseFile();
        Rewire(MicInput);
        currentSource := MicLabel;
      } else if inputMode == 2 {
        oscType := Sine;
        oscRunning := true;
        PauseFile();
        micRunning := false;
        Rewire(OscInput);
        currentSource := OscLabel(Sine);
      } else if inputMode == 3 {
        oscType := Triangle;
        currentSource := OscLabel(Triangle);
      } else if inputMode == 4 {
        oscType := Square;
        currentSource := OscLabel(Square);
      } else if inputMode == 5 {
        oscType := Sawtooth;
        currentSource := OscLabel(Sawtooth);
      }
    }

    /** keyPressed: toggles only for the key 'T'. */
    method KeyPressed(key: string)
      requires Valid()
      modifies this, filterArr, analyzerArr
      ensures filterArr == old(filterArr) && analyzerArr == old(analyzerArr)
      ensures Valid() && View() == KeyPress(old(View()), key)
    {
      if key == "T" {
        ToggleInput(None);
      }
    }

    /** gotFile, up to the start of the load: the old file is disposed and soundFile names a new, idle asset. */
    method GotFile()
      requires Valid()
      modifies this
      ensures filterArr == old(filterArr) && analyzerArr == old(analyzerArr)
      ensures Valid() && View() == Drop(old(View()))
    {
      filePlaying, filePaused := false, false;
      fileGen := fileGen + 1;
    }

    /** The success callback of the load started by gotFile: toggleInput(0). */
    method OnFileLoaded()
      requires Valid()
      modifies this, filterArr, analyzerArr
      ensures filterArr == old(filterArr) && analyzerArr == old(analyzerArr)
      ensures Valid() && View() == Loaded(old(View()))
    {
      ToggleInput(Some(0));
    }
  }
}
