/**
 * The six-way input-source router of sketch.js (toggleInput, keyPressed and
 * the load callback of gotFile), as a pure state machine.  The p5.sound
 * objects are abstracted to flags: whether the current sound file plays or is
 * paused, whether the mic and the oscillator run, the oscillator's type, and
 * which node feeds the six filters.  Visualizer.Sketch holds the same state in
 * fields and arrays and is proved to follow these functions.
 */
module SourceRouter {
  import opened Wrappers
  import opened FilterBank

  /** The oscillator types the sketch selects. */
  datatype Waveform = Sine | Triangle | Square | Sawtooth

  /** The value of currentSource. */
  datatype Label = FileLabel | MicLabel | OscLabel(wave: Waveform)

  function WaveName(w: Waveform): string
  {
    match w
    case Sine => "sine"
    case Triangle => "triangle"
    case Square => "square"
    case Sawtooth => "sawtooth"
  }

  /** The string the sketch stores in currentSource for each label. */
  function Name(l: Label): string
  {
    match l
    case FileLabel => "soundFile"
    case MicLabel => "mic"
    case OscLabel(w) => WaveName(w)
  }

  /** Everything toggleInput reads or writes. */
  datatype State = State(
    inputMode: int,
    currentSource: Label,
    wired: SourceNode,     // what all six filters process
    fileGen: nat,          // which loaded asset soundFile refers to
    filePlaying: bool,
    filePaused: bool,
    micRunning: bool,
    oscRunning: bool,
    oscType: Waveform)

  const ModeCount: int := 6

  /**
   * JavaScript's `x % 6`: the remainder truncated toward zero, so it takes the
   * sign of x (Dafny's own `%` is Euclidean and never negative).
   */
  function JsRem6(x: int): (r: int)
    ensures (x - r) % ModeCount == 0
    ensures x >= 0 ==> 0 <= r < ModeCount
    ensures x < 0 ==> -ModeCount < r <= 0
  {
    if x >= 0 then x % ModeCount else -((-x) % ModeCount)
  }

  /** The state before any toggle: mode 5, label 'soundFile', filters fed by the first sound file, nothing running. */
  function Initial(): State
  {
    State(5, FileLabel, FileAsset(0), 0, false, false, false, false, Sine)
  }

  /** soundFile.pause(): a playing file becomes paused; otherwise nothing changes. */
  function PauseFile(s: State): State
  {
    if s.filePlaying then s.(filePlaying := false, filePaused := true) else s
  }

  /** The oscillator type of modes 2 to 5. */
  function WaveOfMode(m: int): Waveform
    requires 2 <= m <= 5
  {
    if m == 2 then Sine else if m == 3 then Triangle else if m == 4 then Square else Sawtooth
  }

  /** The entry actions of the switch in toggleInput, for the mode already stored in s. */
  function Enter(s: State): State
  {
    match s.inputMode
    case 0 =>
      s.(filePlaying := true, filePaused := false, oscRunning := false, micRunning := false,
         wired := FileAsset(s.fileGen), currentSource := FileLabel)
    case 1 =>
      PauseFile(s.(micRunning := true)).(wired := MicInput, currentSource := MicLabel)
    case 2 =>
      PauseFile(s.(oscType := Sine, oscRunning := true)).(micRunning := false, wired := OscInput,
                                                          currentSource := OscLabel(Sine))
    case 3 => s.(oscType := Triangle, currentSource := OscLabel(Triangle))
    case 4 => s.(oscType := Square, currentSource := OscLabel(Square))
    case 5 => s.(oscType := Sawtooth, currentSource := OscLabel(Sawtooth))
    case _ => s
  }

  /** The mode toggleInput selects: the number given, or the next one modulo 6. */
  function NextMode(current: int, mode: Option<int>): int
  {
    if mode.Some? then mode.value else JsRem6(current + 1)
  }

  /** toggleInput(mode); None stands for a call without a numeric argument. */
  function Toggle(s: State, mode: Option<int>): State
  {
    Enter(s.(inputMode := NextMode(s.inputMode, mode)))
  }

  /** keyPressed: only the key 'T' toggles. */
  function KeyPress(s: State, key: string): State
  {
    if key == "T" then Toggle(s, None) else s
  }

  /** gotFile: the current sound file is disposed and soundFile now names a new, not yet playing asset. */
  function Drop(s: State): State
  {
    s.(fileGen := s.fileGen + 1, filePlaying := false, filePaused := false)
  }

  /** The success callback of the load started by gotFile: toggleInput(0). */
  function Loaded(s: State): State
  {
    Toggle(s, Some(0))
  }

  /** n presses of 'T'. */
  function Presses(s: State, n: nat): State
    decreases n
  {
    if n == 0 then s else Presses(KeyPress(s, "T"), n - 1)
  }

  // ---------------------------------------------------------------------------
  // Mode arithmetic

  /** The entry actions never change the mode. */
  lemma EnterKeepsMode(s: State)
    ensures Enter(s).inputMode == s.inputMode
  {
  }

  /** Without an argument the mode advances modulo 6 and stays in 0..5; with one it becomes exactly that number. */
  lemma ToggleMode(s: State, mode: Option<int>)
    ensures mode.Some? ==> Toggle(s, mode).inputMode == mode.value
    ensures mode.None? && 0 <= s.inputMode < ModeCount ==>
      Toggle(s, mode).inputMode == (s.inputMode + 1) % ModeCount
    ensures mode.None? && -1 <= s.inputMode ==> 0 <= Toggle(s, mode).inputMode < ModeCount
  {
  }

  /** n presses of 'T' from a mode in 0..5 land on (mode + n) mod 6. */
  lemma {:induction false} PressesAdvanceMode(s: State, n: nat)
    requires 0 <= s.inputMode < ModeCount
    ensures Presses(s, n).inputMode == (s.inputMode + n) % ModeCount
    decreases n
  {
    if n > 0 {
      var t := KeyPress(s, "T");
      ToggleMode(s, None);
      PressesAdvanceMode(t, n - 1);
      assert (t.inputMode + (n - 1)) % ModeCount == (s.inputMode + n) % ModeCount;
    }
  }

  /** Any multiple of six presses of 'T' (six in particular) brings the mode back to where it was. */
  lemma SixPressesReturn(s: State, n: nat)
    requires 0 <= s.inputMode < ModeCount
    requires n % ModeCount == 0
    ensures Presses(s, n).inputMode == s.inputMode
  {
    PressesAdvanceMode(s, n);
  }

  /** A number outside 0..5 matches no case: it is stored and nothing else changes. */
  lemma ToggleToUnknownMode(s: State, n: int)
    requires n < 0 || n >= ModeCount
    ensures Toggle(s, Some(n)) == s.(inputMode := n)
  {
  }

  // ---------------------------------------------------------------------------
  // Entry effects, however the mode was reached

  /** Entering mode 0: the file plays, oscillator and mic stop, the filters process the current file, label 'soundFile'. */
  lemma EnterFileMode(s: State, mode: Option<int>)
    requires Toggle(s, mode).inputMode == 0
    ensures var r := Toggle(s, mode);
      r.filePlaying && !r.filePaused && !r.oscRunning && !r.micRunning &&
      r.wired == FileAsset(s.fileGen) && r.currentSource == FileLabel &&
      r.fileGen == s.fileGen && r.oscType == s.oscType
  {
  }

  /** Entering mode 1: the mic starts, the file is paused, the filters process the mic; the oscillator is left as it was. */
  lemma EnterMicMode(s: State, mode: Option<int>)
    requires Toggle(s, mode).inputMode == 1
    ensures var r := Toggle(s, mode);
      r.micRunning && !r.filePlaying && r.filePaused == (s.filePlaying || s.filePaused) &&
      r.wired == MicInput && r.currentSource == MicLabel &&
      r.oscRunning == s.oscRunning && r.oscType == s.oscType && r.fileGen == s.fileGen
  {
  }

  /** Entering mode 2: a sine oscillator starts, the file is paused, the mic stops, the filters process the oscillator. */
  lemma EnterSineMode(s: State, mode: Option<int>)
    requires Toggle(s, mode).inputMode == 2
    ensures var r := Toggle(s, mode);
      r.oscType == Sine && r.oscRunning && !r.filePlaying &&
      r.filePaused == (s.filePlaying || s.filePaused) && !r.micRunning &&
      r.wired == OscInput && r.currentSource == OscLabel(Sine) && r.fileGen == s.fileGen
  {
  }

  /** Entering mode 3, 4 or 5 sets only the oscillator type and the label; wiring and running flags are untouched. */
  lemma EnterWaveOnlyMode(s: State, mode: Option<int>)
    requires 3 <= Toggle(s, mode).inputMode <= 5
    ensures var r := Toggle(s, mode);
      var w := WaveOfMode(r.inputMode);
      r == s.(inputMode := r.inputMode, oscType := w, currentSource := OscLabel(w)) &&
      w == [Triangle, Square, Sawtooth][r.inputMode - 3]
  {
  }

  /**
   * Jumping straight to mode 3 from mic mode, which toggleInput allows but no
   * caller in the sketch does, labels the source 'triangle' while the filters
   * still process the mic and the oscillator is not running.
   */
  lemma JumpSkipsRewiring()
    ensures var mic := Presses(Initial(), 2);
      var r := Toggle(mic, Some(3));
      mic.inputMode == 1 && r.currentSource == OscLabel(Triangle) &&
      r.wired == MicInput && !r.oscRunning
  {
  }

  // ---------------------------------------------------------------------------
  // Key presses and file drops

  /** keyPressed changes nothing unless the key is 'T' (a lower-case 't' included); 'T' advances the mode. */
  lemma KeyPressOnlyOnT(s: State, key: string)
    ensures key != "T" ==> KeyPress(s, key) == s
    ensures KeyPress(s, "t") == s
    ensures 0 <= s.inputMode < ModeCount ==>
      KeyPress(s, "T").inputMode == (s.inputMode + 1) % ModeCount
  {
  }

  /** Before any toggle the label is 'soundFile' and the filters process the file; the first 'T' enters file mode and plays it. */
  lemma FirstPressEntersFileMode()
    ensures Initial().inputMode == 5 && Initial().currentSource == FileLabel
    ensures Initial().wired == FileAsset(0)
    ensures var r := KeyPress(Initial(), "T");
      r.inputMode == 0 && r.filePlaying && r.wired == FileAsset(0) && r.currentSource == FileLabel
  {
  }

  /** A dropped file that loads ends in file mode, playing the new asset through all six filters. */
  lemma DropThenLoadPlaysNewFile(s: State)
    ensures var r := Loaded(Drop(s));
      r.inputMode == 0 && r.currentSource == FileLabel && r.fileGen == s.fileGen + 1 &&
      r.wired == FileAsset(s.fileGen + 1) && r.filePlaying && !r.micRunning && !r.oscRunning
  {
  }

  // ---------------------------------------------------------------------------
  // The invariant of the states the sketch can reach

  /** The configuration before the first toggle (mode 5 but still labelled and wired as the file). */
  predicate BeforeFirstToggle(s: State)
  {
    s.inputMode == 5 && s.currentSource == FileLabel && s.wired.FileAsset? &&
    !s.filePlaying && !s.micRunning && !s.oscRunning
  }

  /** Label, wiring and running flags agree with the mode. */
  predicate Coherent(s: State)
  {
    match s.inputMode
    case 0 => s.currentSource == FileLabel && s.wired.FileAsset? && !s.oscRunning && !s.micRunning
    case 1 => s.currentSource == MicLabel && s.wired == MicInput && s.micRunning &&
              !s.oscRunning && !s.filePlaying
    case _ =>
      2 <= s.inputMode <= 5 &&
      s.currentSource == OscLabel(WaveOfMode(s.inputMode)) && s.oscType == WaveOfMode(s.inputMode) &&
      s.wired == OscInput && s.oscRunning && !s.micRunning && !s.filePlaying
  }

  predicate Sane(s: State)
  {
    BeforeFirstToggle(s) || Coherent(s)
  }

  /**
   * Along the paths the sketch offers (key presses, drops, successful loads)
   * the mode stays in 0..5 and, once the first toggle has happened, the label,
   * wiring and flags agree with it: the wave-only modes 3 to 5 are only ever
   * entered from a running, wired oscillator, and mode 1 is only entered with
   * the oscillator already stopped.
   */
  lemma SaneInvariant(s: State, key: string)
    ensures Sane(Initial())
    requires Sane(s)
    ensures 0 <= s.inputMode < ModeCount
    ensures Sane(KeyPress(s, key)) && Sane(Drop(s)) && Sane(Loaded(s))
  {
  }

  /** In a coherent state the label is an oscillator's exactly in modes 2 to 5, and then names the oscillator's type. */
  lemma CoherentLabel(s: State)
    requires Coherent(s)
    ensures s.currentSource.OscLabel? <==> 2 <= s.inputMode <= 5
    ensures s.currentSource.OscLabel? ==> Name(s.currentSource) == WaveName(s.oscType)
  {
  }
}
