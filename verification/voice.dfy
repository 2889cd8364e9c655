/**
 * SubharmonicVoice: an oscillator of its own plus a level control, locked
 * to a division of the frequency of the oscillator it follows (its
 * `mainOscillator`). The voice never watches its parent: its owner calls
 * `UpdateFrequency` with the parent's current state.
 */
module SubharmonicVoice {
  import opened Js
  import OscillatorModule

  type Osc = OscillatorModule.Osc

  datatype Voice = Voice(
    parent: nat,          // which of its owner's oscillators `mainOscillator` refers to
    division: Num,
    initialLevel: real,   // the level restored on re-enable, and what getLevel reports
    level: real,          // the gain currently set on the level control
    isEnabled: bool,
    oscillator: Osc)

  /** What the calculator derives from the parent's effective frequency and the division. */
  function Derived(v: Voice, main: Osc, env: Env): Num {
    env.subharmonic(OscillatorModule.Effective(main, env.ratio), v.division)
  }

  /** The frequency update succeeds: the parent's base is a positive number
      and so is the derived frequency. */
  predicate Retunes(v: Voice, main: Osc, env: Env) {
    IsPositive(main.baseFrequency) && IsPositive(Derived(v, main, env))
  }

  /** `updateFrequency()`: derive from the parent's effective frequency and
      retune, unless the parent's base or the result is not a positive number. */
  function UpdateFrequency(v: Voice, main: Osc, env: Env, now: real): (r: Voice)
    ensures r.(oscillator := v.oscillator) == v
    ensures !IsPositive(main.baseFrequency) ==> r == v
    ensures !IsPositive(Derived(v, main, env)) ==> r == v
    ensures Retunes(v, main, env) ==>
      r.oscillator == OscillatorModule.SetBaseFrequency(v.oscillator, Derived(v, main, env), env.ratio, now)
    ensures IsPositive(v.oscillator.baseFrequency) ==> IsPositive(r.oscillator.baseFrequency)
  {
    var baseFreq := main.baseFrequency;
    if !IsPositive(baseFreq) then v
    else
      var currentMainFreq := Mul(baseFreq, Pow2Semitones(env.ratio, main.noteOffsetSemitones));
      var subFreq := env.subharmonic(currentMainFreq, v.division);
      if IsPositive(subFreq) then
        v.(oscillator := OscillatorModule.SetBaseFrequency(v.oscillator, subFreq, env.ratio, now))
      else v
  }

  /** The constructor: a fresh oscillator and a level control at `initialLevel`,
      tuned once from the parent, and enabled. */
  function New(parent: nat, main: Osc, division: Num, initialLevel: real, env: Env, now: real): (r: Voice)
    ensures r.parent == parent && r.division == division
    ensures r.isEnabled && r.level == initialLevel && r.initialLevel == initialLevel
    ensures r.oscillator.waveform == "sine" && r.oscillator.noteOffsetSemitones == Finite(0.0)
    ensures IsPositive(r.oscillator.baseFrequency)
    ensures Retunes(r, main, env) ==> r.oscillator.baseFrequency == Derived(r, main, env)
    ensures !Retunes(r, main, env) ==> r.oscillator.baseFrequency == Finite(440.0)
  {
    var oscillator := OscillatorModule.New(env.ratio, now);
    UpdateFrequency(Voice(parent, division, initialLevel, initialLevel, true, oscillator), main, env, now)
  }

  /** `setDivision(d)` stores d, then retunes from the parent. */
  function SetDivision(v: Voice, division: Num, main: Osc, env: Env, now: real): (r: Voice)
    ensures GetDivision(r) == division
    ensures r.parent == v.parent && r.level == v.level && r.isEnabled == v.isEnabled
    ensures r.initialLevel == v.initialLevel
    ensures IsPositive(main.baseFrequency)
      && IsPositive(env.subharmonic(OscillatorModule.Effective(main, env.ratio), division))
      ==> r.oscillator.baseFrequency == env.subharmonic(OscillatorModule.Effective(main, env.ratio), division)
    ensures !IsPositive(main.baseFrequency) ==> r.oscillator == v.oscillator
    ensures !IsPositive(env.subharmonic(OscillatorModule.Effective(main, env.ratio), division)) ==> r.oscillator == v.oscillator
    ensures r.(oscillator := v.oscillator) == v.(division := division)
    ensures Retunes(v.(division := division), main, env) ==>
      r.oscillator == OscillatorModule.SetBaseFrequency(v.oscillator, Derived(v.(division := division), main, env), env.ratio, now)
  {
    UpdateFrequency(v.(division := division), main, env, now)
  }

  /** `setLevel(l)` sets the gain only; the level restored on re-enable stays. */
  function SetLevel(v: Voice, level: real): (r: Voice)
    ensures r.level == level
    ensures GetLevel(r) == GetLevel(v)
    ensures r.(level := v.level) == v
  {
    v.(level := level)
  }

  function SetWaveform(v: Voice, waveform: string): (r: Voice)
    ensures r.oscillator.waveform == waveform
    ensures r.oscillator.frequency == v.oscillator.frequency
    ensures r.oscillator == OscillatorModule.SetWaveform(v.oscillator, waveform)
    ensures r.(oscillator := v.oscillator) == v
  {
    v.(oscillator := OscillatorModule.SetWaveform(v.oscillator, waveform))
  }

  /** `setEnabled(b)`: mute to 0, or restore `initialLevel`. */
  function SetEnabled(v: Voice, enabled: bool): (r: Voice)
    ensures GetEnabled(r) == enabled
    ensures !enabled ==> r.level == 0.0
    ensures enabled ==> r.level == v.initialLevel
    ensures r.initialLevel == v.initialLevel && r.oscillator == v.oscillator
    ensures r.division == v.division && r.parent == v.parent
  {
    v.(isEnabled := enabled, level := if enabled then v.initialLevel else 0.0)
  }

  /** `getLevel()` reports the stored initial level, not the current gain. */
  function GetLevel(v: Voice): real {
    v.initialLevel
  }

  function GetDivision(v: Voice): Num {
    v.division
  }

  function GetEnabled(v: Voice): bool {
    v.isEnabled
  }

  /** Two voice lists of the same length that agree everywhere except perhaps at `index`. */
  predicate OthersUnchanged(vs: seq<Voice>, ws: seq<Voice>, index: int) {
    && |ws| == |vs|
    && forall j :: 0 <= j < |vs| && j != index ==> ws[j] == vs[j]
  }

  /** The voice sounds at a positive frequency. */
  predicate Tuned(v: Voice) {
    IsPositive(v.oscillator.baseFrequency)
  }

  /** A disabled voice is silent. */
  predicate MuteHonoured(v: Voice) {
    !v.isEnabled ==> v.level == 0.0
  }

  /** Disabling then re-enabling restores `initialLevel` whatever gain was set
      before, so a `setLevel` does not survive a mute cycle. */
  lemma MuteCycleRestoresInitialLevel(v: Voice, level: real)
    ensures SetEnabled(SetEnabled(SetLevel(v, level), false), true).level == v.initialLevel
    ensures GetLevel(SetEnabled(SetEnabled(v, false), true)) == GetLevel(v)
  {
  }

  /** Construction and every voice operation except `setLevel` keep a disabled voice silent. */
  lemma MuteHonouredPreserved(v: Voice, main: Osc, env: Env, now: real, d: Num, w: string, b: bool, parent: nat, initialLevel: real)
    requires MuteHonoured(v)
    ensures MuteHonoured(New(parent, main, d, initialLevel, env, now))
    ensures MuteHonoured(UpdateFrequency(v, main, env, now))
    ensures MuteHonoured(SetDivision(v, d, main, env, now))
    ensures MuteHonoured(SetWaveform(v, w))
    ensures MuteHonoured(SetEnabled(v, b))
  {
  }

  /** `setLevel` on a disabled voice makes it audible while it stays disabled. */
  lemma SetLevelUnmutesDisabledVoice(v: Voice, level: real)
    requires level != 0.0
    ensures !GetEnabled(SetLevel(SetEnabled(v, false), level))
    ensures !MuteHonoured(SetLevel(SetEnabled(v, false), level))
  {
  }

  /** The voice sees its parent only through the parent's base check and
      effective frequency: two parents that agree on those retune it alike. */
  lemma DependsOnlyOnEffectiveFrequency(v: Voice, m1: Osc, m2: Osc, env: Env, now: real)
    requires IsPositive(m1.baseFrequency) == IsPositive(m2.baseFrequency)
    requires OscillatorModule.Effective(m1, env.ratio) == OscillatorModule.Effective(m2, env.ratio)
    ensures UpdateFrequency(v, m1, env, now) == UpdateFrequency(v, m2, env, now)
  {
    assert Derived(v, m1, env) == Derived(v, m2, env);
  }

  /** Retuning twice from an unchanged parent leaves the frequency where the first retune put it. */
  lemma RetuneIsStable(v: Voice, main: Osc, env: Env, now: real, later: real)
    ensures UpdateFrequency(UpdateFrequency(v, main, env, now), main, env, later).oscillator.baseFrequency
         == UpdateFrequency(v, main, env, now).oscillator.baseFrequency
  {
    var v1 := UpdateFrequency(v, main, env, now);
    assert Derived(v1, main, env) == Derived(v, main, env);
  }
}
