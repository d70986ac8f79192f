# p5-music-viz: the source router, the filter bank and the band layout

p5-music-viz is a browser sketch. It splits an audio signal into six
frequency bands and draws each band's waveform as a stacked coloured trace.
The signal comes from a sound file, the microphone or an oscillator. The
logic that can be stated exactly lives in `sketch.js`. This project models
three parts of it:

- **The input-source router.** `toggleInput`, driven by `keyPressed` and by
  the load callback of `gotFile`, is a six-state machine over `inputMode`
  (0 file, 1 mic, 2 sine, 3 triangle, 4 square, 5 sawtooth). Entering a mode
  starts, stops or pauses the sources, rewires all six filters and sets the
  `currentSource` label. Modes 3 to 5 only change the oscillator type and the
  label.
  - `SourceRouter` states it as pure functions over a `State` value:
    `Toggle`, `KeyPress`, `Drop` and `Loaded`. The lemmas about them are there
    too.
  - `Visualizer.Sketch` holds the same state as the sketch's globals. Its
    fields are the mode, the label and the flags that stand for the p5.sound
    objects. It also holds the filter and analyzer arrays. Each method is
    proved to move the object's `View()` exactly as the matching function
    says.
- **The filter/analyzer bank.** `createFilters`, `createAnalyzers`,
  `setUpProcessing` and `setUpInput` (module `FilterBank` and the class).
  - There are six band-pass filters from the fixed band table, each with
    resonance 10.
  - A filter's centre frequency is `map(1, 0, 1, lo, hi)`.
  - Analyzer *i* is bound to filter *i*.
- **The label condition and the draw loop's index arithmetic** (module
  `Renderer`).
  - The frequency and amplitude lines show only for oscillator labels.
  - The band loop reads analyzer `5 - index` with colour `index` at vertical
    offset `3 * index * lineWidth + height / 2`.

The p5.sound objects are abstracted as follows:
- soundFile becomes a load generation number plus playing and paused flags.
- mic and osc become running flags, and osc also has its type.
- A filter becomes its centre frequency, its resonance and its input node.
- An analyzer becomes its smoothing, its bin count and the filter it listens to.

`soundFile.pause()` is taken to pause a playing file and to do nothing
otherwise. The oscillator's type before any toggle is taken as sine, which is
the library's default.

## Behaviour worth knowing

- The centre frequency is `map(1, 0, 1, lo, hi)`. Mapping 1 from [0, 1] gives
  the band's upper edge `hi`, not a point inside the band.
- `keyPressed` toggles only when p5 reports `key` as `'T'`. How p5 fills
  `key` for a given key press is not modelled.
- `gotFile` disposes the current file before the new one is decoded, so a
  failed drop leaves no playable file.
- Before the first toggle the mode is 5, but the label is still `'soundFile'`
  and the filters process the file.

## Model

| member | source | states |
|---|---|---|
| `FilterBank.MapRangeEnds` | sketch.js:161 | map() sends the ends of its first range to the ends of the second, so mapping 1 from [0, 1] yields the upper bound |
| `FilterBank.Centre` | sketch.js:161 | a filter's centre frequency equals its band's upper edge `hi` |
| `FilterBank.CentresOfFreqArr` | sketch.js:27 | the fixed table has six bands; each centre lies on its band's upper edge, inside 10 Hz to 22050 Hz, and centres strictly increase band to band |
| `FilterBank.CreateFilters` | sketch.js:156-168 | returns a fresh array of length max(6, number of bands); slot i holds band i's filter (centre `hi`, resonance 10, no input); the remaining slots are empty |
| `FilterBank.CreateAnalyzers` | sketch.js:134-140 | returns a fresh array of length max(6, n); the first n slots hold unbound analyzers with smoothing 0 and 1024 bins; the rest are empty |
| `SourceRouter.JsRem6` | sketch.js:199-200 | JavaScript `% 6`: the result differs from x by a multiple of 6, lies in [0, 5] for x >= 0 and in (-6, 0] for x < 0 |
| `SourceRouter.EnterKeepsMode` | sketch.js:202-239 | the entry actions of the switch never change `inputMode` |
| `SourceRouter.ToggleMode` | sketch.js:195-201 | a numeric argument becomes the mode exactly; without one, a mode in 0..5 becomes (mode + 1) mod 6, and any mode >= -1 lands in 0..5 |
| `SourceRouter.PressesAdvanceMode` | sketch.js:184-201 | n presses of 'T' from a mode in 0..5 land on (mode + n) mod 6 |
| `SourceRouter.SixPressesReturn` | sketch.js:198-201 | any multiple of six presses returns to the starting mode |
| `SourceRouter.ToggleToUnknownMode` | sketch.js:196-240 | a number outside 0..5 matches no case: the state changes only in `inputMode` |
| `SourceRouter.EnterFileMode` | sketch.js:203-210 | entering mode 0 by any route: the file plays unpaused, osc and mic stop, the filters process the current file, the label is 'soundFile', the oscillator type is kept |
| `SourceRouter.EnterMicMode` | sketch.js:211-217 | entering mode 1: the mic runs, a playing file is paused, the filters process the mic, the label is 'mic'; the oscillator's running flag is kept |
| `SourceRouter.EnterSineMode` | sketch.js:218-226 | entering mode 2: a sine oscillator runs, a playing file is paused, the mic stops, the filters process the oscillator, the label is 'sine' |
| `SourceRouter.EnterWaveOnlyMode` | sketch.js:227-238 | entering mode 3, 4 or 5 changes only `oscType` and the label (triangle, square, sawtooth); wiring and running/playing flags are unchanged |
| `SourceRouter.JumpSkipsRewiring` | sketch.js:211-230 | toggleInput(3) called from mic mode labels the source 'triangle' while the filters still process the mic and the oscillator is stopped |
| `SourceRouter.KeyPressOnlyOnT` | sketch.js:184-188 | any key other than 'T', including 't', changes nothing; 'T' advances the mode modulo 6 |
| `SourceRouter.FirstPressEntersFileMode` | sketch.js:192-209 | before any toggle the mode is 5, the label is 'soundFile' and the filters process the file; the first 'T' enters mode 0 and plays the file |
| `SourceRouter.DropThenLoadPlaysNewFile` | sketch.js:123-128 | a drop whose load succeeds ends in mode 0, playing the new asset through all six filters, with mic and oscillator stopped |
| `SourceRouter.SaneInvariant` | sketch.js:184-240 | the initial state is sane, and key presses, drops and successful loads keep the state sane. Sane means: the mode is in 0..5, and label, wiring and flags agree with the mode, except in the configuration before the first toggle |
| `SourceRouter.CoherentLabel` | sketch.js:218-238 | in a coherent state the label is an oscillator's exactly in modes 2 to 5, and it then names the oscillator's current type |
| `SourceRouter.Initial` | sketch.js:192 | the globals before any toggle (mode 5, label 'soundFile' from line 19, filters on the file from line 51); its meaning is stated by `FirstPressEntersFileMode` and `SaneInvariant` |
| `SourceRouter.NextMode` | sketch.js:196-201 | the mode toggleInput selects; its meaning is stated by `ToggleMode` and `JsRem6` |
| `SourceRouter.Enter` | sketch.js:202-239 | the switch's entry actions; its meaning is stated by `EnterKeepsMode`, `EnterFileMode`, `EnterMicMode`, `EnterSineMode`, `EnterWaveOnlyMode` and `ToggleToUnknownMode` |
| `SourceRouter.PauseFile` | sketch.js:213 | `soundFile.pause()` as used in modes 1 and 2 (also line 221); its meaning is stated by `EnterMicMode` and `EnterSineMode` (a playing file ends paused) |
| `SourceRouter.Toggle` | sketch.js:195-240 | toggleInput(mode); its meaning is stated by `ToggleMode`, `PressesAdvanceMode`, the `Enter*Mode` lemmas, `JumpSkipsRewiring` and `SaneInvariant` |
| `SourceRouter.KeyPress` | sketch.js:184-188 | keyPressed; its meaning is stated by `KeyPressOnlyOnT` and `SaneInvariant` |
| `SourceRouter.Drop` | sketch.js:123-125 | gotFile up to the start of the load; its meaning is stated by `DropThenLoadPlaysNewFile` and `SaneInvariant` |
| `SourceRouter.Loaded` | sketch.js:125-127 | the load callback toggleInput(0); its meaning is stated by `DropThenLoadPlaysNewFile`, `EnterFileMode` and `SaneInvariant` |
| `SourceRouter.Presses` | sketch.js:184-188 | n successive 'T' presses; its meaning is stated by `PressesAdvanceMode` and `SixPressesReturn` |
| `FilterBank.MapRange` | sketch.js:161 | p5's `map`; its meaning is stated by `MapRangeEnds` and `Centre` |
| `Renderer.BandTrace` | sketch.js:75-86 | one pass of the band loop; its meaning is stated by `DrawBands` and `BandTraceLayout` |
| `Renderer.ShowsReadout` | sketch.js:108 | the labelStuff condition; its meaning is stated by `ReadoutOnlyForOscillators`, `ReadoutFollowsMode` and `LabelStuff` |
| `Visualizer.Sketch.Rewire` | sketch.js:207-208 | setUpProcessing(source) followed by setUpInput(), as in modes 0, 1 and 2 (also lines 214-215 and 223-224): the bank stays valid and all six filters process the source |
| `Visualizer.Sketch.PauseFile` | sketch.js:213 | `soundFile.pause()` (also line 221): a playing file becomes paused and stops playing; otherwise both flags keep their values |
| `Renderer.DrawBands` | sketch.js:75-89 | the band loop makes six passes; pass k reads analyzer k with colour 5 - k at offset 3 * (5 - k) * lineWidth + height / 2 |
| `Renderer.BandTraceLayout` | sketch.js:75-86 | analyzer and colour indices sum to 5, consecutive bands lie 3 * lineWidth apart, and every offset is in the canvas's lower half |
| `Renderer.ReadoutOnlyForOscillators` | sketch.js:108 | the frequency/amplitude condition holds of a label's string exactly when the label is sine, triangle, square or sawtooth |
| `Renderer.ReadoutFollowsMode` | sketch.js:107-111 | in a sane state the readout shows exactly in modes 2 to 5 after the first toggle, and never before it |
| `Renderer.LabelStuff` | sketch.js:102-112 | the hint and the source name always show; frequency and amplitude are added exactly for oscillator sources; lines are placed 20 px apart at x = 20 |
| `Visualizer.Sketch.constructor` | sketch.js:29-56 | after setup: six filters built from the table, all processing the first sound file; analyzer i bound to filter i; the state equals the initial router state |
| `Visualizer.Sketch.SetUpProcessing` | sketch.js:174-178 | every filter processes the given source afterwards; its frequency and resonance are kept |
| `Visualizer.Sketch.SetUpInput` | sketch.js:146-150 | analyzer i is bound to filter i for every i |
| `Visualizer.Sketch.ToggleInput` | sketch.js:195-240 | the new state is exactly `Toggle` of the old one; the bank stays six filters fed by one source, analyzer i on filter i |
| `Visualizer.Sketch.EnterMode` | sketch.js:202-239 | the switch performs exactly the entry actions of the stored mode |
| `Visualizer.Sketch.KeyPressed` | sketch.js:184-188 | the new state is `KeyPress` of the old: a toggle only for 'T' |
| `Visualizer.Sketch.GotFile` | sketch.js:123-125 | the current file is disposed; soundFile names a new, idle asset; nothing else changes |
| `Visualizer.Sketch.OnFileLoaded` | sketch.js:125-127 | the load callback leaves the state equal to `toggleInput(0)` of the old state |

## Left out

- Filtering, analysis and oscillator internals of p5.sound are foreign library code. This covers `p5.BandPass` filtering, the sample contents of `p5.FFT.waveform()`, oscillator frequency and amplitude ramps, and microphone device acquisition, including its failure. Each object is reduced to the flags and settings the sketch changes.
- The floating-point mappings are left out as numerics outside this model. These are sample index and amplitude to canvas x/y, and mouse position to oscillator frequency and amplitude. The per-frame `osc.freq`/`osc.amp` calls in `draw` are left out with them.
- Canvas drawing, text rendering and the colour literals are user interface. The model keeps only which analyzer, colour index and offset each pass uses, and which text lines appear where.
- Drag-and-drop wiring (`makeDragAndDrop`) and `console.log` are browser I/O. The asynchronous decode is reduced to two steps, `GotFile` and `OnFileLoaded`. Any other toggles may happen between them. A failed decode never calls the callback.
- Playing a sound file that has not finished loading is outside the model. The library reports an error in that case, and the model treats `play()` as always succeeding.
- How p5 fills its global `key` for a key press (for example, whether an unshifted t is reported as `'t'` or `'T'`) is library behaviour and is not modelled. `keyPressed` is modelled on the string p5 reports.
- `filter.process(source)` is modelled as replacing a filter's single input. In p5.sound it adds a connection without removing earlier ones. On the sketch's own paths every earlier source is already paused or stopped when the filters are rewired.
- `ToggleInput`: a numeric argument is modelled as an integer. Non-integer numbers and NaN are not modelled.
- `Renderer.DrawBands` uses the canvas height constant 500 for `height`, so `height / 2` is the exact integer 250.
