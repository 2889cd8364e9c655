# websubsynth parameter control, modelled in Dafny

This project models the parameter-control core of a browser subharmonic synthesizer. The model is written as immutable records and pure step functions. It has five parts:

- **OscillatorModule** (`oscillator.dfy`): a free-running oscillator with a base frequency, a semitone offset and a waveform. Every change of base or offset pushes the effective frequency `base * 2^(offset/12)` to the oscillator's frequency parameter.
- **SubharmonicVoice** (`voice.dfy`): an oscillator and a level control that follow a parent oscillator (`mainOscillator`) at a division. `updateFrequency` rejects a parent base that is not a positive finite number. It also rejects a derived frequency that is not one. In both cases the voice keeps its last frequency. `setEnabled` mutes the voice and restores its stored `initialLevel`.
- **SubharmonicEngine** (`engine.dfy`, `engine_properties.dfy`): two VCOs (primary oscillators), four sub-voices and the routing array `subVoiceParents` (0 = VCO1, 1 = VCO2). Changing a VCO's frequency retunes exactly the voices routed to it. Every per-voice setter and the reroute ignore an index that names no voice, and the reroute also ignores a VCO index other than 0 or 1.
- **SubharmonicMixer** (`mixer.dfy`): the fixed-topology variant. Four voices follow one main oscillator, which the caller owns.
- **VCAModule** (`vca.dfy`): a two-state gate, open or closed, that suppresses retriggers. On each transition it cancels the gain schedule from the current time on. It then writes an attack/decay schedule (opening) or a release schedule (closing). Its parameter setters clamp their inputs.

Supporting modules:

- `Js` (`js.dfy`) models a JavaScript number as `Finite(r) | NaN | Infinity(negative)`, with JavaScript multiplication and `Math.pow(2, n/12)`. The semitone ratio `2^(n/12)` is an abstract positive function with ratio(0) = 1. The subharmonic calculator is an abstract function from two numbers to a number, because its implementation (`util/SubharmonicCalculator.js:8`) is not part of this model. Both travel in an `Env` record.
- `Automation` (`automation.dfy`) models a Web Audio parameter's schedule as a sequence of `SetAt(v, t)` / `RampTo(v, t)` events. `cancelScheduledValues(t)` drops every event at or after `t`.

The audio clock (`audioCtx.currentTime`) is an input `now` to each call. It is taken as constant within one call. The VCA's current gain value at `gateOff` is an input as well.

Four consequences of the code are worth stating up front:

- The subharmonic calculator's body is elided, so the model has no fallback frequency for a bad fundamental or division and no cache. Whatever the calculator returns, a voice only accepts a positive finite number.
- `setLevel` on a disabled voice sets its gain directly, so the voice is audible while it is still disabled (`SubharmonicVoice.SetLevelUnmutesDisabledVoice`).
- Oscillator frequency writes only call `setValueAtTime` and never cancel the schedule; only the VCA cancels before it writes.
- The VCA keeps a single open/closed flag; attack, decay, sustain and release exist only as the events one gate change schedules.

## Model

| member | source | states |
|---|---|---|
| Js.Pow2Semitones | synth/modules/OscillatorModule.js:39 | `Math.pow(2, n/12)` is positive for a finite n and exactly 1 at n = 0, and is NaN for NaN |
| Automation.Cancel | synth/modules/VCAModule.js:34 | cancelling at t keeps exactly the events of the schedule that take effect before t |
| Automation.CancelSplitsSchedule | synth/modules/VCAModule.js:34 | the kept events and the pending ones together are the schedule, as a multiset: nothing is duplicated or lost |
| Automation.CancelKeepsOrder | synth/modules/VCAModule.js:34 | on a schedule in time order, the kept events followed by the pending ones are the schedule itself, so cancelling keeps the insertion order |
| Automation.RescheduleLeavesOnlyNewEvents | synth/modules/VCAModule.js:33-41 | after cancelling at `now` and appending events at or after `now`, the pending events are exactly the appended ones; every kept event lies before `now` and came from the old schedule |
| OscillatorModule.UpdateFrequency | synth/modules/OscillatorModule.js:38-41 | pushes one `setValueAtTime` event (a jump, not a ramp) at `now` holding the effective frequency; earlier events and base, offset and waveform are untouched |
| OscillatorModule.New | synth/modules/OscillatorModule.js:2-13 | a new oscillator has base 440, offset 0 and waveform "sine", and its frequency parameter holds one push of 440 |
| OscillatorModule.SetBaseFrequency | synth/modules/OscillatorModule.js:24-27 | stores the base and keeps the offset and waveform. Pushes `f * 2^(offset/12)`, which is f itself when the offset is 0, and a positive base with a finite offset gives a positive effective frequency |
| OscillatorModule.SetNoteOffset | synth/modules/OscillatorModule.js:29-32 | stores the offset, keeps the base, and pushes `base * 2^(n/12)`, which is the base itself for n = 0 |
| OscillatorModule.SetWaveform | synth/modules/OscillatorModule.js:34-36 | changes the waveform only: nothing is pushed and base and offset stay |
| OscillatorModule.MutatorsKeepInSync | synth/modules/OscillatorModule.js:24-41 | the last pushed frequency equals base times the semitone ratio after construction and after every mutator |
| OscillatorModule.ZeroOffsetIsIdentity | synth/modules/OscillatorModule.js:39 | with offset 0 the effective frequency is the base frequency |
| SubharmonicVoice.UpdateFrequency | synth/modules/SubharmonicVoice.js:30-51 | nothing changes unless the parent's base and the calculator's result on (base times semitone ratio, division) are positive finite numbers. Otherwise only the voice's oscillator is retuned, to that result. A positive frequency stays positive |
| SubharmonicVoice.New | synth/modules/SubharmonicVoice.js:6-28 | a new voice is enabled at gain `initialLevel` and stores its division and parent. It sounds at the derived frequency when that is valid and at 440 otherwise |
| SubharmonicVoice.SetDivision | synth/modules/SubharmonicVoice.js:63-66 | `getDivision` then returns the new division, and level, enable state and parent stay. The voice retunes from the parent with it when the parent's base and the derived frequency are positive: the oscillator takes `setBaseFrequency` of the derived value, keeping its waveform and offset and pushing one event. Otherwise it keeps its oscillator |
| SubharmonicVoice.SetLevel | synth/modules/SubharmonicVoice.js:68-70 | sets the gain only; `getLevel` (which reports `initialLevel`) is unchanged |
| SubharmonicVoice.SetWaveform | synth/modules/SubharmonicVoice.js:72-74 | the voice's oscillator takes `setWaveform`: its waveform changes, its base, offset and frequency schedule stay, and nothing else in the voice changes |
| SubharmonicVoice.SetEnabled | synth/modules/SubharmonicVoice.js:76-80 | disabling sets the gain to 0 and enabling restores `initialLevel`; `initialLevel`, division, parent and oscillator stay |
| SubharmonicVoice.MuteCycleRestoresInitialLevel | synth/modules/SubharmonicVoice.js:68-84 | disable then enable restores `initialLevel` even after a `setLevel`, and `getLevel` is unchanged by the cycle |
| SubharmonicVoice.MuteHonouredPreserved | synth/modules/SubharmonicVoice.js:17-80 | construction, retuning, `setDivision`, `setWaveform` and `setEnabled` keep a disabled voice silent |
| SubharmonicVoice.SetLevelUnmutesDisabledVoice | synth/modules/SubharmonicVoice.js:68-80 | a nonzero `setLevel` on a disabled voice leaves it disabled but audible |
| SubharmonicVoice.DependsOnlyOnEffectiveFrequency | synth/modules/SubharmonicVoice.js:33-45 | two parents that agree on whether the base is valid and on the effective frequency retune the voice identically |
| SubharmonicVoice.RetuneIsStable | synth/modules/SubharmonicVoice.js:30-51 | retuning again from an unchanged parent does not move the frequency |
| SubharmonicEngine.RefreshWhere | synth/modules/SubharmonicEngine.js:101-105 | the loop over the voices refreshes exactly the selected voices, each from the VCO its own reference names, and leaves the rest as they were |
| SubharmonicEngine.UpdateSubharmonicsForVco | synth/modules/SubharmonicEngine.js:100-106 | voices whose routing entry is the VCO index retune from that VCO; all other voices and all other state are unchanged |
| SubharmonicEngine.UpdateAllSubharmonics | synth/modules/SubharmonicEngine.js:109-113 | every voice retunes from the VCO its routing entry names |
| SubharmonicEngine.New | synth/modules/SubharmonicEngine.js:6-46 | routing is [0,0,1,1] and both VCOs have base 440. VCO levels are 0.5 and the mixer 1.0. The voices have divisions 2, 3, 2, 4 and levels 0.3, 0.25, 0.3, 0.2, and are enabled and tuned positive |
| SubharmonicEngine.SetVco1Frequency | synth/modules/SubharmonicEngine.js:73-76 | VCO1 takes `setBaseFrequency(f)`: base f, its offset kept, one frequency event pushed. VCO2, the levels, the mixer and the routing stay. Voices routed to VCO2 are untouched; voices routed to VCO1 retune from the new VCO1 |
| SubharmonicEngine.SetVco2Frequency | synth/modules/SubharmonicEngine.js:78-81 | the mirror image for VCO2: VCO2 takes `setBaseFrequency(f)`, everything but VCO2 and the voices routed to it stays |
| SubharmonicEngine.SetVco1Waveform | synth/modules/SubharmonicEngine.js:83-85 | only VCO1's waveform changes: its base, offset and frequency schedule stay, and no voice is retuned |
| SubharmonicEngine.SetVco2Waveform | synth/modules/SubharmonicEngine.js:87-89 | only VCO2's waveform changes: its base, offset and frequency schedule stay, and no voice is retuned |
| SubharmonicEngine.SetVco1Level | synth/modules/SubharmonicEngine.js:91-93 | only VCO1's level changes |
| SubharmonicEngine.SetVco2Level | synth/modules/SubharmonicEngine.js:95-97 | only VCO2's level changes |
| SubharmonicEngine.SetSubVoiceLevel | synth/modules/SubharmonicEngine.js:116-120 | an index with no voice is a no-op; otherwise only that voice changes, by `setLevel`: its gain is set, and its `getLevel`, enable state, division and oscillator stay |
| SubharmonicEngine.SetSubVoiceDivision | synth/modules/SubharmonicEngine.js:122-126 | an index with no voice is a no-op; otherwise only that voice changes, by `setDivision` against the VCO it is routed to |
| SubharmonicEngine.SetSubVoiceEnabled | synth/modules/SubharmonicEngine.js:128-132 | an index with no voice is a no-op; otherwise only that voice changes, by `setEnabled`: the enable state and gain (0 or `initialLevel`) change, and `initialLevel`, division, parent and oscillator stay |
| SubharmonicEngine.SetSubVoiceWaveform | synth/modules/SubharmonicEngine.js:134-138 | an index with no voice is a no-op; otherwise only that voice changes, by `setWaveform`: its oscillator's waveform changes, and its level, division, enable state and frequency schedule stay |
| SubharmonicEngine.SetSubVoiceParent | synth/modules/SubharmonicEngine.js:143-155 | a sub index outside [0,4) or a VCO index other than 0 or 1 changes nothing. Otherwise entry s becomes v and the other entries stay. Only voice s changes: it follows VCO v and is retuned from it |
| SubharmonicEngine.GetSubVoiceParent | synth/modules/SubharmonicEngine.js:194-196 | defined exactly on [0,4). The entry is 0 or 1 and is the VCO the voice's own reference follows |
| SubharmonicEngineProperties.StepKeepsTuned | synth/modules/SubharmonicVoice.js:36-50 | no engine call leaves a voice at a frequency that is not a positive finite number |
| SubharmonicEngineProperties.RunKeepsTuned | synth/modules/SubharmonicVoice.js:36-50 | over any sequence of engine calls, every voice keeps a positive finite frequency |
| SubharmonicEngineProperties.StepRoute | synth/modules/SubharmonicEngine.js:143-146 | one call changes routing entry i only if it is an accepted reroute of voice i, and then to its VCO |
| SubharmonicEngineProperties.RoutingIsLastReroute | synth/modules/SubharmonicEngine.js:143-196 | after any calls, routing entry i and `getSubVoiceParent(i)` are the VCO of the last accepted reroute of voice i, or the initial entry |
| SubharmonicEngineProperties.RerouteThenRetune | synth/modules/SubharmonicEngine.js:73-155 | after rerouting voice i to VCO2, a VCO2 retune retunes voice i from VCO2, and a later VCO1 retune leaves voice i alone |
| SubharmonicMixer.New | synth/modules/SubharmonicMixer.js:5-33 | four enabled voices all follow the main oscillator, each sounding at a positive frequency, with divisions [2,3,4,6]. Each gain and each `getLevel` is [0.3,0.25,0.2,0.15] in order. The mixer is at 1.0 and the main level at 0.5 |
| SubharmonicMixer.RefreshAll | synth/modules/SubharmonicMixer.js:45-49 | the loop retunes every voice, in index order, from the main oscillator |
| SubharmonicMixer.UpdateAllFrequencies | synth/modules/SubharmonicMixer.js:45-49 | every voice is retuned from the main oscillator and the gains stay |
| SubharmonicMixer.GetVoice | synth/modules/SubharmonicMixer.js:52-54 | returns voice `index` when there is one and undefined otherwise |
| SubharmonicMixer.SetVoiceLevel | synth/modules/SubharmonicMixer.js:56-60 | an index with no voice is a no-op; otherwise only that voice changes, by `setLevel` (its gain only) |
| SubharmonicMixer.SetVoiceDivision | synth/modules/SubharmonicMixer.js:62-66 | an index with no voice is a no-op. Otherwise only that voice changes, by `setDivision`: it takes the new division, keeps its level and retunes from the main oscillator |
| SubharmonicMixer.SetVoiceEnabled | synth/modules/SubharmonicMixer.js:68-72 | an index with no voice is a no-op. Otherwise only that voice changes, by `setEnabled`: its enable state, and its gain to 0 or `initialLevel` |
| SubharmonicMixer.SetVoiceWaveform | synth/modules/SubharmonicMixer.js:74-78 | an index with no voice is a no-op; otherwise only that voice changes, by `setWaveform` (its waveform only, no frequency pushed) |
| SubharmonicMixer.SetMainLevel | synth/modules/SubharmonicMixer.js:81-83 | only the main level changes |
| SubharmonicMixer.SetMixerGain | synth/modules/SubharmonicMixer.js:90-92 | only the mixer gain changes |
| SubharmonicMixer.GetMainLevelAsWritten | synth/modules/SubharmonicMixer.js:85-87 | as written the getter always returns 0.5 |
| SubharmonicMixer.MainLevelAsWrittenIgnoresSetter | synth/modules/SubharmonicMixer.js:81-87 | after `setMainLevel(0.8)` the getter as written still reports 0.5 |
| SubharmonicMixer.StepKeepsSteady | synth/modules/SubharmonicMixer.js:45-92 | no mixer call changes the number of voices, lets a voice's frequency become non-positive, or changes what `getLevel` reports |
| SubharmonicMixer.RunFromNewKeepsVoices | synth/modules/SubharmonicMixer.js:5-92 | after construction and any calls there are four voices at positive frequencies, each `getLevel` is still the constructed level, and `setVoiceEnabled(i, true)` restores that level |
| SubharmonicMixer.MainLevelRoundTrip | synth/modules/SubharmonicMixer.js:81-87 | the corrected getter reports 0.5 after construction, and after `setMainLevel(l)` it reports l |
| VcaModule.New | synth/modules/VCAModule.js:2-16 | the gate starts closed with the gain set to 0. A = 0.01, D = 0.5, S = 0.3, R = 0.1, within the clamped ranges |
| VcaModule.GateOn | synth/modules/VCAModule.js:27-47 | opening an open gate changes nothing. Opening a closed gate opens it, keeps the parameters, and reschedules attack/decay at `now`. The clamped ranges are preserved |
| VcaModule.GateOnSchedulesEnvelope | synth/modules/VCAModule.js:30-41 | after opening, exactly [set 0 at now, ramp to 1 at now+A, ramp to S at now+A+D] is pending. The times strictly increase, S is in [0,1], and the kept events lie before now |
| VcaModule.AttackDecayShape | synth/modules/VCAModule.js:36-41 | the attack/decay events start at `now` and take effect at strictly increasing times, given the clamped positive A and D |
| VcaModule.GateOff | synth/modules/VCAModule.js:50-65 | closing a closed gate changes nothing. Closing an open gate closes it, keeps the parameters, and reschedules a release at `now` |
| VcaModule.GateOffSchedulesRelease | synth/modules/VCAModule.js:53-59 | after closing, exactly [set current gain at now, ramp to 0 at now+R] is pending, at increasing times |
| VcaModule.SetAttack | synth/modules/VCAModule.js:68-70 | the attack becomes max(0.001, t); gate, schedule and other parameters stay |
| VcaModule.SetDecay | synth/modules/VCAModule.js:72-74 | the decay becomes max(0.001, t); gate, schedule and other parameters stay |
| VcaModule.SetSustain | synth/modules/VCAModule.js:76-78 | the sustain becomes l clamped into [0,1]; gate, schedule and other parameters stay |
| VcaModule.SetRelease | synth/modules/VCAModule.js:80-82 | the release becomes max(0.001, t); gate, schedule and other parameters stay |
| VcaModule.SetThenGet | synth/modules/VCAModule.js:68-91 | an in-range value set reads back unchanged; none of the four setters changes the gate status or the gain schedule; setting attack or sustain leaves the other three envelope parameters as they were, and setting release, decay and attack leaves sustain as it was |
| VcaModule.RetriggerSuppressed | synth/modules/VCAModule.js:27-65 | a second `gateOn` (or `gateOff`) leaves the state and schedule of the first |
| VcaModule.RunKeepsValid | synth/modules/VCAModule.js:68-82 | over any sequence of gate events and setter calls, A, D, R stay at least 0.001 and S stays in [0,1] |
| VcaModule.GateStatusIsLastGateEvent | synth/modules/VCAModule.js:27-91 | `getGateStatus` after any inputs is whether the last gate event was `gateOn`, or the initial state if there was none |

## Left out

- Audio plumbing is not modelled: `connect`, `disconnect`, `input`/`output` and the `get*Output` methods, node creation and `start()`. The browser audio graph is outside the model.
- `GainModule`, `MasterGainModule` and `FilterModule` are thin wrappers over Web Audio nodes. A level is a plain real field holding the gain last set.
- The subharmonic calculator (`util/SubharmonicCalculator.js`) is abstract. Its body is elided in the source, and its ratio table and cache are never used, so there is no fallback value or memoization to model.
- `Math.pow(2, n/12)` is an abstract positive ratio with ratio(0) = 1. Floating-point rounding, finite overflow to an infinity and negative zero are not represented in `Num`.
- Web Audio rejects a non-finite `setValueAtTime` value with a TypeError. The model records the event instead: that check belongs to the browser, not to this code.
- Parameter schedules are kept in call order, while Web Audio keeps its event list sorted by time. The two agree when calls arrive at non-decreasing `now`, as they do from one audio clock. The model assumes this and does not model calls made with an earlier time.
- Waveforms are arbitrary strings, stored as given. The browser's `oscillator.type` setter ignores an unknown type and throws for `"custom"`. The model's `SetWaveform` members record the string in every case.
- Only JavaScript numbers are modelled. Other values are not: the `typeof` test, string arguments, and fractional or string indices. For example, `setSubVoiceParent(1.5, 0)` passes the range guard and then fails in the browser.
- VcaModule.SetAttack: inputs are reals, so `Math.max(0.001, NaN)` (which gives NaN) is not modelled. The same holds for VcaModule.SetDecay, VcaModule.SetSustain and VcaModule.SetRelease.
- The current gain read by `gateOff` (`gain.value`) and the ramp interpolation belong to the rendering backend. The gain value is an input, and the model does not interpolate.
- Side effects are left out: the `updateVCAGateStatus` UI callback in `gateOn`/`gateOff` and the log line in `setSubVoiceParent`.
- `getRoutingMatrix` (`synth/modules/SubharmonicEngine.js:190-192`) returns a shallow copy whose `subVoiceParents` is the engine's live array. A caller writing through it would change the routing without moving the voice's `mainOscillator`, and could store a value other than 0 or 1. The model has no such aliasing: the well-formedness invariant (four entries, each 0 or 1, each naming the VCO its voice follows) holds for callers that only use the engine's methods. `GetSubVoiceParent` covers reading the routing.
- The voice constructor's default arguments (division 2, level 0.5) are not modelled: every call site passes both, so the model takes them explicitly.
- The voice and VCA getters (`getLevel`, `getDivision`, `getEnabled`, `getAttack`, …) are plain field reads. Their behaviour is stated through the setter lemmas above.
- The mixer does not own its main oscillator. Calls that retune take that oscillator's current state as an argument.
- The UI (`ui/controlPanel.js`), `main.js` and `synth/core/AudioContextManager.js` are not part of this model. The note-offset calls that `main.js` makes on the engine name methods the engine does not define.

## Findings

| source | as written | input that shows it | evidently intended | confidence | as-written member | corrected member |
|---|---|---|---|---|---|---|
| synth/modules/SubharmonicMixer.js:85-87 | `getMainLevel` returns `this.mainLevel.gain \|\| 0.5`, but a GainModule keeps its gain in `gainNode`, so the lookup is undefined and the result is always 0.5 | `setMainLevel(0.8)` then `getMainLevel()` gives 0.5 | report the gain last set on the main level control | high, not executed | SubharmonicMixer.MainLevelAsWrittenIgnoresSetter | SubharmonicMixer.MainLevelRoundTrip |
