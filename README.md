# web-audio-oscillator: the editor reducer and the oscillator slot

A browser toy synthesizer plays one oscillator voice through the Web Audio
API. It lets the user set volume, frequency and waveform, and author a custom
periodic waveform from Fourier coefficients. Almost all of it is React markup
and calls into the browser's audio engine. This Dafny project models the two
pieces of hand-written logic in it and proves what they promise.

- `wave_editor.dfy`, module `WaveEditor`, models the custom-waveform editor.
  Its state is a component count and two coefficient arrays, 12 slots each
  at the start. The source calls them `real` and `imag`. `real` is a Dafny
  keyword, so the fields are `realCoeffs` and, for symmetry, `imagCoeffs`.
  The module covers the initial state, the copy-and-replace helper, the
  reducer and its three actions, and the `slice(0, componentCount)`
  projection handed to the audio controller.
  It also covers how a coefficient input's `data-type` tag picks the action.
  Everything here is pure: states are datatype values and each action yields
  a new one. Coefficients are only copied, so they are Dafny `real`s. The one
  place where a JavaScript array's identity matters, namely that the helper
  never writes to its argument, is modelled again with a Dafny `array`.
- `oscillator_slot.dfy`, module `OscillatorSlot`, models the app component.
  The waveform-name validator is a pure function over an `OscillatorType`
  datatype. The module-level `oscillator` slot and the handlers are methods of
  a class `App`. The audio controller they drive is a class
  `AudioController`. Oscillators are opaque tokens, numbered by the controller
  as it creates them. Each engine call (create, `start()`, `stop()`) is
  appended to a log of `AudioEvent`s instead of being performed.
  `LiveVoices(log)` is the set of oscillators started and not stopped since.
  `App.Valid()` says this set is exactly what the slot holds. So at most one
  voice sounds at any time: `StartOscillator` and `StopOscillator` each state
  `|LiveVoices(log)| <= 1`. The constructor establishes `Valid()` and every
  method preserves it, so it holds after any sequence of calls.
- `wrappers.dfy`, module `Wrappers`, holds `Option` (a nullable variable) and
  `Result` (a value, or the error a function throws).

## Model

| member | source | states |
|---|---|---|
| `WaveEditor.InitialState` | src/app/CustomWaveFormEditor.tsx:4-8 | the count is 2; both arrays have 12 slots; `real[1]` is 1; every other coefficient is 0 |
| `WaveEditor.UpdateArrayValue` | src/app/CustomWaveFormEditor.tsx:35-40 | for an index inside the array, the result has the input's length; for the index just past the end it is one longer. It holds `value` at `index` and equals the input at every other position |
| `WaveEditor.UpdateArrayCopy` | src/app/CustomWaveFormEditor.tsx:35-40 | on a mutable array, the result is a freshly allocated array holding the updated contents; the argument may not be modified and keeps its contents |
| `WaveEditor.Reducer` | src/app/CustomWaveFormEditor.tsx:42-62 | `setComponentCount` stores the payload unclamped and leaves both arrays alone. `setRealComponent` changes only `real[index]`, leaving `imag`, the count and the other real slots unchanged; writing just past the end grows `real` by one. `setImagComponent` is symmetric |
| `WaveEditor.ReducerKeepsShape` | src/app/CustomWaveFormEditor.tsx:42-62 | an action whose index lies in 0..11 fits a 12-slot state, and the new state still has two 12-slot arrays |
| `WaveEditor.DispatchAll` | src/app/CustomWaveFormEditor.tsx:70 | the reducer applied to any sequence whose every index fits the state reached before it, the index-12 path included; the arrays never shrink; from a 12-slot state with every index below 12 both arrays stay at 12 slots |
| `WaveEditor.InSlotRangeFits` | src/app/CustomWaveFormEditor.tsx:42-62 | from a 12-slot state, a sequence whose indices are all below 12 fits at every step |
| `WaveEditor.DispatchAllLeavesUntargetedFields` | src/app/CustomWaveFormEditor.tsx:42-62 | over any sequence of dispatches whose every index fits the state reached before it (the index-12 path included), an array that no action targets is unchanged, and so is the count if no count action occurs |
| `WaveEditor.SliceEnd` | src/app/CustomWaveFormEditor.tsx:74-75 | where `slice(0, end)` stops: at `min(end, length)` for `end >= 0`; for negative `end`, the last `-end` elements (or all of them) are dropped |
| `WaveEditor.Slice` | src/app/CustomWaveFormEditor.tsx:74-75 | `slice(0, end)` is a prefix of the array, of the length `SliceEnd` gives |
| `WaveEditor.EmittedWave` | src/app/CustomWaveFormEditor.tsx:72-77 | the emitted arrays are prefixes of `real` and `imag`; for a count of 0 or more each has length `min(count, that array's length)`, which is `min(count, 12)` for a 12-slot state; for a 12-slot state both have the same length, at most 12 |
| `WaveEditor.InitialWaveIsFundamentalCosine` | src/app/CustomWaveFormEditor.tsx:72-77 | a fresh editor first emits `[0, 1]` and `[0, 0]`, the custom wave the audio controller starts with (src/app/audioController.ts:19) |
| `WaveEditor.CountAboveSlotsUnbalancesWave` | src/app/CustomWaveFormEditor.tsx:110-119 | a typed count of 13 makes the editor offer index 12. Editing it as a real coefficient grows `real` to 13 slots and leaves the 12-slot shape. The next emission then has 13 real and 12 imaginary coefficients |
| `WaveEditor.ComponentChangeAction` | src/app/CustomWaveFormEditor.tsx:85-93 | the tag `"real"` yields `setRealComponent` and every other tag `setImagComponent`, in both directions; value and index are passed on unchanged |
| `OscillatorSlot.FindByName` | src/app/App.tsx:17 | the `includes` lookup: a result is a member of the list carrying that name; no result means no member carries it |
| `OscillatorSlot.AssertOscillatorTypeValue` | src/app/App.tsx:14-20 | succeeds exactly when the value is `custom`, `sawtooth`, `sine`, `square` or `triangle`, yielding the type of that name; otherwise fails with the source's error message |
| `OscillatorSlot.NameRoundTrip` | src/app/App.tsx:14-20 | every waveform type's own name passes the check and yields that same type |
| `OscillatorSlot.LiveVoicesCharacterised` | src/app/App.tsx:27-41 | an oscillator is live exactly when some call in the log starts it and no later call stops it |
| `OscillatorSlot.AudioController.constructor` | src/app/audioController.ts:1-8 | the controller starts at 440 Hz and `sawtooth`, with the gain the engine supplies, with no oscillator created yet |
| `OscillatorSlot.AudioController.CreateOscillator` | src/app/audioController.ts:22-35 | hands out a new id and logs a creation carrying the controller's current waveform and frequency |
| `OscillatorSlot.AudioController.Start` | src/app/App.tsx:32 | logs `start()` for that oscillator |
| `OscillatorSlot.AudioController.Stop` | src/app/App.tsx:39 | logs `stop()` for that oscillator |
| `OscillatorSlot.App.constructor` | src/app/App.tsx:22-25 | the slot starts empty; the shown volume, frequency and waveform are read from the controller; `Valid()` holds |
| `OscillatorSlot.App.StartOscillator` | src/app/App.tsx:27-33 | a live voice is stopped first, then a new oscillator is created and started. The log grows by exactly these calls, in this order. The slot holds the new id, which appears nowhere in the earlier log. It is the only live voice, so at most one is live, and `Valid()` is kept |
| `OscillatorSlot.App.StopOscillator` | src/app/App.tsx:35-41 | afterwards the slot is empty and no voice is live, so at most one is. With an empty slot nothing is logged, so a second call changes nothing. Otherwise exactly one `stop()` of the held oscillator is logged |
| `OscillatorSlot.App.HandleVolumeChange` | src/app/App.tsx:43-47 | the shown volume and the controller's gain both become the value; nothing else changes |
| `OscillatorSlot.App.HandleFrequencyChange` | src/app/App.tsx:49-55 | the shown frequency and the controller's frequency both become the value; nothing else changes |
| `OscillatorSlot.App.HandleWaveFormChange` | src/app/App.tsx:57-63 | the validator runs first. On failure it returns the validator's error, and neither the shown waveform nor the controller's waveform changes. On success both become the validated type. Nothing else changes |

## Left out

- The React hooks (`useReducer`, `useState`, `useEffect` scheduling), JSX rendering and the MUI components are not modelled. The reducer is applied to dispatch sequences through `DispatchAll`.
- `Number(...)` parsing of input strings is not modelled. The count is an integer and coefficients are reals, so NaN and fractional counts are left out. So is the `Float32Array` rounding of the emitted coefficients.
- UpdateArrayValue: only indices from 0 up to the array's length are modelled. Writing at the length appends one slot, as in JavaScript. An index beyond the length is excluded by a precondition; JavaScript would grow the array and leave holes. The editor produces one only after a count of 14 or more is typed and a slot past the next free one is edited. A negative index is excluded too; in JavaScript it adds a property that is not an array element and leaves the array unchanged. The editor never produces one.
- DispatchAll: it accepts any sequence whose indices fit as it goes, but the 12-slot shape, and the equal emitted lengths `EmittedWave` promises for a 12-slot state, are promised only while every edited index is below 12. Once a count above 12 is typed, the editor offers index 12, and editing it makes the arrays unequal (`CountAboveSlotsUnbalancesWave`).
- The Web Audio engine itself is foreign. Oscillator nodes are opaque ids, and `createOscillator`, `start()` and `stop()` are recorded as log events. This leaves out the node graph, the periodic wave chosen for the `custom` type (`createPeriodicWave`, `setCustomWave`), and actual sound, timing and concurrency.
- AudioController.constructor: the gain node's initial value comes from the audio engine, so it is a parameter. The analyser setup is left out.
- src/app/AudioAnalyserDisplay.tsx (canvas drawing, the animation-frame loop, float scaling of samples) and vite.config.ts are not part of this model.
- The count input's `min: 2` / `max: 12` attributes only constrain the spinner; typed values are not limited. The reducer stores any count, as in the source. A negative count makes `slice` count from the back, and `SliceEnd` models that.
