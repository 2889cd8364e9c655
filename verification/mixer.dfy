/**
 * SubharmonicMixer: the fixed-topology variant of the engine. One main
 * oscillator, owned elsewhere, with a level control, and four voices that
 * all follow it, summed by a mixer. Operations that retune voices take the
 * main oscillator's current state.
 */
module SubharmonicMixer {
  import opened Js
  import OscillatorModule
  import SubharmonicVoice
  import Trace

  type Osc = OscillatorModule.Osc
  type Voice = SubharmonicVoice.Voice

  datatype Mixer = Mixer(
    mixer: real,       // the mixer's gain
    mainLevel: real,   // the gain set on the main oscillator's level control
    voices: seq<Voice>)

  /** The voices' levels as constructed, which `getLevel` reports from then on. */
  const Levels: seq<real> := [0.3, 0.25, 0.2, 0.15]

  /** The constructor: divisions 2, 3, 4, 6 at levels 0.3, 0.25, 0.2, 0.15,
      all following `main`; mixer at unity, main level 0.5. */
  function New(main: Osc, env: Env, now: real): (r: Mixer)
    ensures |r.voices| == 4
    ensures forall i :: 0 <= i < 4 ==> r.voices[i].parent == 0 && r.voices[i].isEnabled && SubharmonicVoice.Tuned(r.voices[i])
    ensures [r.voices[0].division, r.voices[1].division, r.voices[2].division, r.voices[3].division]
         == [Finite(2.0), Finite(3.0), Finite(4.0), Finite(6.0)]
    ensures forall i :: 0 <= i < 4 ==> r.voices[i].level == Levels[i] && SubharmonicVoice.GetLevel(r.voices[i]) == Levels[i]
    ensures r.mixer == 1.0 && r.mainLevel == 0.5
  {
    var s1 := SubharmonicVoice.New(0, main, Finite(2.0), 0.3, env, now);
    var s2 := SubharmonicVoice.New(0, main, Finite(3.0), 0.25, env, now);
    var s3 := SubharmonicVoice.New(0, main, Finite(4.0), 0.2, env, now);
    var s4 := SubharmonicVoice.New(0, main, Finite(6.0), 0.15, env, now);
    assert SubharmonicVoice.Tuned(s1) && SubharmonicVoice.Tuned(s2) && SubharmonicVoice.Tuned(s3) && SubharmonicVoice.Tuned(s4);
    Mixer(1.0, 0.5, [s1, s2, s3, s4])
  }

  /** The `forEach` over the voices, first to last, each retuned from `main`. */
  function RefreshAll(vs: seq<Voice>, main: Osc, env: Env, now: real): (r: seq<Voice>)
    ensures |r| == |vs|
    ensures forall i :: 0 <= i < |vs| ==> r[i] == SubharmonicVoice.UpdateFrequency(vs[i], main, env, now)
    decreases |vs|
  {
    if |vs| == 0 then []
    else [SubharmonicVoice.UpdateFrequency(vs[0], main, env, now)] + RefreshAll(vs[1..], main, env, now)
  }

  /** `updateAllFrequencies()`: every voice retunes from the main oscillator. */
  function UpdateAllFrequencies(m: Mixer, main: Osc, env: Env, now: real): (r: Mixer)
    ensures r.mixer == m.mixer && r.mainLevel == m.mainLevel && |r.voices| == |m.voices|
    ensures forall i :: 0 <= i < |m.voices| ==> r.voices[i] == SubharmonicVoice.UpdateFrequency(m.voices[i], main, env, now)
  {
    m.(voices := RefreshAll(m.voices, main, env, now))
  }

  predicate HasVoice(m: Mixer, index: int) {
    0 <= index < |m.voices|
  }

  /** `getVoice(index)`: the voice, or undefined when there is none. */
  function GetVoice(m: Mixer, index: int): (r: Option<Voice>)
    ensures r.Some? <==> HasVoice(m, index)
    ensures r.Some? ==> r.value == m.voices[index]
  {
    if HasVoice(m, index) then Some(m.voices[index]) else None
  }

  /** Only voice `index` may differ. */
  predicate OnlyVoiceChanged(m: Mixer, r: Mixer, index: int) {
    && r.(voices := m.voices) == m
    && SubharmonicVoice.OthersUnchanged(m.voices, r.voices, index)
  }

  /** `setVoiceLevel(index, l)`: the voice's gain; an index with no voice is ignored. */
  function SetVoiceLevel(m: Mixer, index: int, level: real): (r: Mixer)
    ensures !HasVoice(m, index) ==> r == m
    ensures HasVoice(m, index) ==> OnlyVoiceChanged(m, r, index) && r.voices[index].level == level
    ensures HasVoice(m, index) ==> r.voices[index] == SubharmonicVoice.SetLevel(m.voices[index], level)
  {
    if HasVoice(m, index) then m.(voices := m.voices[index := SubharmonicVoice.SetLevel(m.voices[index], level)])
    else m
  }

  /** `setVoiceDivision(index, d)`: voice `index` stores d and retunes from `main`. */
  function SetVoiceDivision(m: Mixer, index: int, division: Num, main: Osc, env: Env, now: real): (r: Mixer)
    ensures !HasVoice(m, index) ==> r == m
    ensures HasVoice(m, index) ==> OnlyVoiceChanged(m, r, index)
    ensures HasVoice(m, index) ==> SubharmonicVoice.GetDivision(r.voices[index]) == division
    ensures HasVoice(m, index) ==> r.voices[index].level == m.voices[index].level
    ensures HasVoice(m, index) ==> r.voices[index] == SubharmonicVoice.SetDivision(m.voices[index], division, main, env, now)
  {
    if HasVoice(m, index) then
      m.(voices := m.voices[index := SubharmonicVoice.SetDivision(m.voices[index], division, main, env, now)])
    else m
  }

  /** `setVoiceEnabled(index, b)`: mute, or restore the voice's initial level. */
  function SetVoiceEnabled(m: Mixer, index: int, enabled: bool): (r: Mixer)
    ensures !HasVoice(m, index) ==> r == m
    ensures HasVoice(m, index) ==> OnlyVoiceChanged(m, r, index) && r.voices[index].isEnabled == enabled
    ensures HasVoice(m, index) ==> r.voices[index].level == (if enabled then m.voices[index].initialLevel else 0.0)
    ensures HasVoice(m, index) ==> r.voices[index] == SubharmonicVoice.SetEnabled(m.voices[index], enabled)
  {
    if HasVoice(m, index) then m.(voices := m.voices[index := SubharmonicVoice.SetEnabled(m.voices[index], enabled)])
    else m
  }

  function SetVoiceWaveform(m: Mixer, index: int, waveform: string): (r: Mixer)
    ensures !HasVoice(m, index) ==> r == m
    ensures HasVoice(m, index) ==> OnlyVoiceChanged(m, r, index) && r.voices[index].oscillator.waveform == waveform
    ensures HasVoice(m, index) ==> r.voices[index] == SubharmonicVoice.SetWaveform(m.voices[index], waveform)
  {
    if HasVoice(m, index) then m.(voices := m.voices[index := SubharmonicVoice.SetWaveform(m.voices[index], waveform)])
    else m
  }

  function SetMainLevel(m: Mixer, level: real): (r: Mixer)
    ensures r.mainLevel == level && r.(mainLevel := m.mainLevel) == m
  {
    m.(mainLevel := level)
  }

  function SetMixerGain(m: Mixer, gain: real): (r: Mixer)
    ensures r.mixer == gain && r.(mixer := m.mixer) == m
  {
    m.(mixer := gain)
  }

  /** `this.mainLevel.gain`: a GainModule keeps its gain in `gainNode`, so
      this property lookup finds nothing. */
  function MainLevelGainProperty(m: Mixer): Option<real> {
    None
  }

  /** JavaScript `x || fallback` on a number lookup: undefined and 0 are falsy. */
  function OrElse(x: Option<real>, fallback: real): real {
    if x.Some? && x.value != 0.0 then x.value else fallback
  }

  /** `getMainLevel()` as written: `this.mainLevel.gain || 0.5`. */
  function GetMainLevelAsWritten(m: Mixer): (r: real)
    ensures r == 0.5
  {
    OrElse(MainLevelGainProperty(m), 0.5)
  }

  /** As written, the getter ignores the level just set. */
  lemma MainLevelAsWrittenIgnoresSetter(m: Mixer)
    ensures GetMainLevelAsWritten(SetMainLevel(m, 0.8)) == 0.5
    ensures GetMainLevelAsWritten(SetMainLevel(m, 0.8)) != SetMainLevel(m, 0.8).mainLevel
  {
  }

  /** `getMainLevel()` as evidently intended: the gain last set on the main level control. */
  function GetMainLevel(m: Mixer): real {
    m.mainLevel
  }

  /** The intended getter reports the constructor's 0.5 and then whatever was set. */
  lemma MainLevelRoundTrip(m: Mixer, level: real, main: Osc, env: Env, now: real)
    ensures GetMainLevel(New(main, env, now)) == 0.5
    ensures GetMainLevel(SetMainLevel(m, level)) == level
  {
  }

  /** The mixer's public mutators, as calls. The caller owns the main
      oscillator, so calls that retune carry its state at the time. */
  datatype Command =
    | UpdateAll(main: Osc)
    | VoiceLevel(index: int, level: real)
    | VoiceDivision(index: int, division: Num, main: Osc)
    | VoiceEnabled(index: int, enabled: bool)
    | VoiceWaveform(index: int, waveform: string)
    | MainLevel(level: real)
    | MixerGain(gain: real)

  /** A call and the audio clock's time when it is made. */
  datatype Call = Call(command: Command, now: real)

  function Step(m: Mixer, c: Call, env: Env): Mixer {
    match c.command
    case UpdateAll(main) => UpdateAllFrequencies(m, main, env, c.now)
    case VoiceLevel(i, l) => SetVoiceLevel(m, i, l)
    case VoiceDivision(i, d, main) => SetVoiceDivision(m, i, d, main, env, c.now)
    case VoiceEnabled(i, b) => SetVoiceEnabled(m, i, b)
    case VoiceWaveform(i, w) => SetVoiceWaveform(m, i, w)
    case MainLevel(l) => SetMainLevel(m, l)
    case MixerGain(g) => SetMixerGain(m, g)
  }

  /** One call, with the calculator fixed. */
  function StepWith(env: Env): (Mixer, Call) -> Mixer {
    (m: Mixer, c: Call) => Step(m, c, env)
  }

  /** The calls made one after the other, first to last. */
  function Run(m: Mixer, calls: seq<Call>, env: Env): Mixer {
    Trace.Run(m, calls, StepWith(env))
  }

  /** The voices are the constructor's four, each sounding at a positive
      frequency and reporting its constructed level from `getLevel`. */
  predicate Steady(m: Mixer) {
    && |m.voices| == 4
    && forall i :: 0 <= i < 4 ==> SubharmonicVoice.Tuned(m.voices[i]) && SubharmonicVoice.GetLevel(m.voices[i]) == Levels[i]
  }

  lemma StepKeepsSteady(m: Mixer, c: Call, env: Env)
    requires Steady(m)
    ensures Steady(Step(m, c, env))
  {
    match c.command
    case UpdateAll(main) =>
    case VoiceDivision(i, d, main) =>
    case _ =>
  }

  /** Whatever calls follow construction, the mixer keeps four voices at
      positive frequencies, `getLevel` still reports each voice's constructed
      level, and re-enabling a voice restores that level. */
  lemma RunFromNewKeepsVoices(main: Osc, env: Env, now: real, calls: seq<Call>, i: int)
    requires 0 <= i < 4
    ensures |Run(New(main, env, now), calls, env).voices| == 4
    ensures SubharmonicVoice.Tuned(Run(New(main, env, now), calls, env).voices[i])
    ensures SubharmonicVoice.GetLevel(Run(New(main, env, now), calls, env).voices[i]) == Levels[i]
    ensures SetVoiceEnabled(Run(New(main, env, now), calls, env), i, true).voices[i].level == Levels[i]
  {
    forall x: Mixer, c: Call | Steady(x)
      ensures Steady(StepWith(env)(x, c))
    {
      StepKeepsSteady(x, c, env);
    }
    Trace.RunPreserves(New(main, env, now), calls, StepWith(env), Steady);
  }
}
