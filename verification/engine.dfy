/**
 * SubharmonicEngine: two primary oscillators (VCO1, VCO2), each with a level
 * control, four subharmonic voices, a main mixer, and the routing matrix
 * `subVoiceParents` recording which VCO each voice follows (0 for VCO1,
 * 1 for VCO2). The engine is the only place that retunes voices: a change
 * of a VCO's frequency refreshes exactly the voices routed to it.
 */
module SubharmonicEngine {
  import opened Js
  import OscillatorModule
  import SubharmonicVoice

  type Osc = OscillatorModule.Osc
  type Voice = SubharmonicVoice.Voice

  const VoiceCount := 4

  datatype EngineState = EngineState(
    vco1: Osc,
    vco2: Osc,
    vco1Level: real,
    vco2Level: real,
    subVoices: seq<Voice>,
    subVoiceParents: seq<int>,  // routingMatrix.subVoiceParents
    mainMixer: real)

  /** Four voices and four routing entries; every entry names a VCO, and each
      voice's own `mainOscillator` reference is the VCO its entry names. */
  predicate WellFormed(e: EngineState) {
    && |e.subVoices| == VoiceCount
    && |e.subVoiceParents| == VoiceCount
    && (forall i :: 0 <= i < VoiceCount ==> e.subVoiceParents[i] == 0 || e.subVoiceParents[i] == 1)
    && (forall i :: 0 <= i < VoiceCount ==> e.subVoices[i].parent == e.subVoiceParents[i])
  }

  /** The engine's states: the constructor and every operation keep them well formed. */
  type Engine = e: EngineState | WellFormed(e) witness Placeholder()

  function Placeholder(): EngineState {
    var o := OscillatorModule.Osc(Finite(440.0), Finite(0.0), "sine", []);
    var v := SubharmonicVoice.Voice(0, Finite(2.0), 0.5, 0.5, true, o);
    EngineState(o, o, 0.5, 0.5, [v, v, v.(parent := 1), v.(parent := 1)], [0, 0, 1, 1], 1.0)
  }

  /** The VCO a routing value names: `vcoIndex === 0 ? vco1 : vco2`. */
  function Vco(e: EngineState, vcoIndex: int): Osc {
    if vcoIndex == 0 then e.vco1 else e.vco2
  }

  /** The voices, one per index. */
  predicate ValidIndex(index: int) {
    0 <= index < VoiceCount
  }

  /** `voice.updateFrequency()` inside the engine: the voice follows its own reference. */
  function Refresh(e: EngineState, v: Voice, env: Env, now: real): Voice {
    SubharmonicVoice.UpdateFrequency(v, Vco(e, v.parent), env, now)
  }

  /** The engine's `forEach` over its voices: voice i is refreshed when pick[i] holds. */
  function RefreshWhere(e: EngineState, vs: seq<Voice>, pick: seq<bool>, env: Env, now: real): (r: seq<Voice>)
    requires |pick| == |vs|
    ensures |r| == |vs|
    ensures forall i :: 0 <= i < |vs| ==> r[i] == if pick[i] then Refresh(e, vs[i], env, now) else vs[i]
    decreases |vs|
  {
    if |vs| == 0 then []
    else [if pick[0] then Refresh(e, vs[0], env, now) else vs[0]] + RefreshWhere(e, vs[1..], pick[1..], env, now)
  }

  /** Everything but the voices is as it was. */
  predicate OnlyVoicesChanged(e: EngineState, r: EngineState) {
    r.(subVoices := e.subVoices) == e
  }

  /** Only voice `index` may differ. */
  predicate OnlyVoiceChanged(e: Engine, r: Engine, index: int) {
    && OnlyVoicesChanged(e, r)
    && SubharmonicVoice.OthersUnchanged(e.subVoices, r.subVoices, index)
  }

  /** `updateSubharmonicsForVCO(vcoIndex)`: refresh exactly the voices routed to that VCO. */
  function UpdateSubharmonicsForVco(e: Engine, vcoIndex: int, env: Env, now: real): (r: Engine)
    ensures OnlyVoicesChanged(e, r)
    ensures forall i :: 0 <= i < VoiceCount ==>
      r.subVoices[i] == if e.subVoiceParents[i] == vcoIndex
                        then SubharmonicVoice.UpdateFrequency(e.subVoices[i], Vco(e, vcoIndex), env, now)
                        else e.subVoices[i]
  {
    var pick := seq(VoiceCount, i requires 0 <= i < VoiceCount => e.subVoiceParents[i] == vcoIndex);
    e.(subVoices := RefreshWhere(e, e.subVoices, pick, env, now))
  }

  /** `updateAllSubharmonics()`: every voice follows its VCO again. */
  function UpdateAllSubharmonics(e: Engine, env: Env, now: real): (r: Engine)
    ensures OnlyVoicesChanged(e, r)
    ensures forall i :: 0 <= i < VoiceCount ==>
      r.subVoices[i] == SubharmonicVoice.UpdateFrequency(e.subVoices[i], Vco(e, e.subVoiceParents[i]), env, now)
  {
    e.(subVoices := RefreshWhere(e, e.subVoices, seq(VoiceCount, i => true), env, now))
  }

  /** The constructor's four voices: /2 and /3 on VCO1, /2 and /4 on VCO2. */
  function InitialVoices(vco1: Osc, vco2: Osc, env: Env, now: real): (r: seq<Voice>)
    requires IsPositive(vco1.baseFrequency) && IsPositive(vco2.baseFrequency)
    ensures |r| == VoiceCount
    ensures forall i :: 0 <= i < VoiceCount ==> Fresh(r[i])
    ensures r[0].parent == 0 && r[1].parent == 0 && r[2].parent == 1 && r[3].parent == 1
    ensures r[0].division == Finite(2.0) && r[0].initialLevel == 0.3
    ensures r[1].division == Finite(3.0) && r[1].initialLevel == 0.25
    ensures r[2].division == Finite(2.0) && r[2].initialLevel == 0.3
    ensures r[3].division == Finite(4.0) && r[3].initialLevel == 0.2
  {
    var s1 := SubharmonicVoice.New(0, vco1, Finite(2.0), 0.3, env, now);
    var s2 := SubharmonicVoice.New(0, vco1, Finite(3.0), 0.25, env, now);
    var s3 := SubharmonicVoice.New(1, vco2, Finite(2.0), 0.3, env, now);
    var s4 := SubharmonicVoice.New(1, vco2, Finite(4.0), 0.2, env, now);
    assert Fresh(s1) && Fresh(s2) && Fresh(s3) && Fresh(s4);
    [s1, s2, s3, s4]
  }

  /** The constructor: both VCOs at A4, levels 0.5, voices /2 and /3 on VCO1
      and /2 and /4 on VCO2, mixer at unity. */
  function New(env: Env, now: real): (r: Engine)
    ensures r.subVoiceParents == [0, 0, 1, 1]
    ensures r.vco1.baseFrequency == Finite(440.0) && r.vco2.baseFrequency == Finite(440.0)
    ensures r.vco1Level == 0.5 && r.vco2Level == 0.5 && r.mainMixer == 1.0
    ensures forall i :: 0 <= i < VoiceCount ==> Fresh(r.subVoices[i])
    ensures r.subVoices[0].division == Finite(2.0) && r.subVoices[0].initialLevel == 0.3
    ensures r.subVoices[1].division == Finite(3.0) && r.subVoices[1].initialLevel == 0.25
    ensures r.subVoices[2].division == Finite(2.0) && r.subVoices[2].initialLevel == 0.3
    ensures r.subVoices[3].division == Finite(4.0) && r.subVoices[3].initialLevel == 0.2
  {
    var vco1 := OscillatorModule.SetBaseFrequency(OscillatorModule.New(env.ratio, now), Finite(440.0), env.ratio, now);
    var vco2 := OscillatorModule.SetBaseFrequency(OscillatorModule.New(env.ratio, now), Finite(440.0), env.ratio, now);
    var vs := InitialVoices(vco1, vco2, env, now);
    EngineState(vco1, vco2, 0.5, 0.5, vs, [0, 0, 1, 1], 1.0)
  }

  /** A voice as its constructor leaves it: enabled, at its initial level, tuned to a positive frequency. */
  predicate Fresh(v: Voice) {
    v.isEnabled && v.level == v.initialLevel && SubharmonicVoice.Tuned(v)
  }

  /** `setVCO1Frequency(freq)`: retune VCO1, then exactly the voices routed to it. */
  function SetVco1Frequency(e: Engine, freq: Num, env: Env, now: real): (r: Engine)
    ensures r.vco1.baseFrequency == freq && r.vco1.noteOffsetSemitones == e.vco1.noteOffsetSemitones
    ensures r.vco1 == OscillatorModule.SetBaseFrequency(e.vco1, freq, env.ratio, now)
    ensures r.(subVoices := e.subVoices, vco1 := e.vco1) == e
    ensures r.vco2 == e.vco2 && r.subVoiceParents == e.subVoiceParents
    ensures forall i :: 0 <= i < VoiceCount && e.subVoiceParents[i] == 1 ==> r.subVoices[i] == e.subVoices[i]
    ensures forall i :: 0 <= i < VoiceCount && e.subVoiceParents[i] == 0 ==>
      r.subVoices[i] == SubharmonicVoice.UpdateFrequency(e.subVoices[i], r.vco1, env, now)
  {
    var e1: Engine := e.(vco1 := OscillatorModule.SetBaseFrequency(e.vco1, freq, env.ratio, now));
    var r := UpdateSubharmonicsForVco(e1, 0, env, now);
    assert r.(subVoices := e1.subVoices) == e1;
    r
  }

  /** `setVCO2Frequency(freq)`: retune VCO2, then exactly the voices routed to it. */
  function SetVco2Frequency(e: Engine, freq: Num, env: Env, now: real): (r: Engine)
    ensures r.vco2.baseFrequency == freq && r.vco2.noteOffsetSemitones == e.vco2.noteOffsetSemitones
    ensures r.vco2 == OscillatorModule.SetBaseFrequency(e.vco2, freq, env.ratio, now)
    ensures r.(subVoices := e.subVoices, vco2 := e.vco2) == e
    ensures r.vco1 == e.vco1 && r.subVoiceParents == e.subVoiceParents
    ensures forall i :: 0 <= i < VoiceCount && e.subVoiceParents[i] == 0 ==> r.subVoices[i] == e.subVoices[i]
    ensures forall i :: 0 <= i < VoiceCount && e.subVoiceParents[i] == 1 ==>
      r.subVoices[i] == SubharmonicVoice.UpdateFrequency(e.subVoices[i], r.vco2, env, now)
  {
    var e1: Engine := e.(vco2 := OscillatorModule.SetBaseFrequency(e.vco2, freq, env.ratio, now));
    var r := UpdateSubharmonicsForVco(e1, 1, env, now);
    assert r.(subVoices := e1.subVoices) == e1;
    r
  }

  /** `setVCO1Waveform`: no voice is retuned. */
  function SetVco1Waveform(e: Engine, waveform: string): (r: Engine)
    ensures r.vco1.waveform == waveform && r.vco1.frequency == e.vco1.frequency
    ensures r.vco1 == OscillatorModule.SetWaveform(e.vco1, waveform)
    ensures r.vco1.baseFrequency == e.vco1.baseFrequency && r.vco1.noteOffsetSemitones == e.vco1.noteOffsetSemitones
    ensures r.(vco1 := e.vco1) == e
  {
    e.(vco1 := OscillatorModule.SetWaveform(e.vco1, waveform))
  }

  function SetVco2Waveform(e: Engine, waveform: string): (r: Engine)
    ensures r.vco2.waveform == waveform && r.vco2.frequency == e.vco2.frequency
    ensures r.vco2 == OscillatorModule.SetWaveform(e.vco2, waveform)
    ensures r.vco2.baseFrequency == e.vco2.baseFrequency && r.vco2.noteOffsetSemitones == e.vco2.noteOffsetSemitones
    ensures r.(vco2 := e.vco2) == e
  {
    e.(vco2 := OscillatorModule.SetWaveform(e.vco2, waveform))
  }

  function SetVco1Level(e: Engine, level: real): (r: Engine)
    ensures r.vco1Level == level && r.(vco1Level := e.vco1Level) == e
  {
    e.(vco1Level := level)
  }

  function SetVco2Level(e: Engine, level: real): (r: Engine)
    ensures r.vco2Level == level && r.(vco2Level := e.vco2Level) == e
  {
    e.(vco2Level := level)
  }

  /** `setSubVoiceLevel(index, level)`; an index with no voice is ignored. */
  function SetSubVoiceLevel(e: Engine, index: int, level: real): (r: Engine)
    ensures !ValidIndex(index) ==> r == e
    ensures ValidIndex(index) ==> OnlyVoiceChanged(e, r, index) && r.subVoices[index].level == level
    ensures ValidIndex(index) ==> SubharmonicVoice.GetLevel(r.subVoices[index]) == SubharmonicVoice.GetLevel(e.subVoices[index])
    ensures ValidIndex(index) ==> r.subVoices[index] == SubharmonicVoice.SetLevel(e.subVoices[index], level)
  {
    if ValidIndex(index) then e.(subVoices := e.subVoices[index := SubharmonicVoice.SetLevel(e.subVoices[index], level)])
    else e
  }

  /** `setSubVoiceDivision(index, division)`: the voice stores the division and
      retunes from the VCO it follows; an index with no voice is ignored. */
  function SetSubVoiceDivision(e: Engine, index: int, division: Num, env: Env, now: real): (r: Engine)
    ensures !ValidIndex(index) ==> r == e
    ensures ValidIndex(index) ==> OnlyVoiceChanged(e, r, index)
    ensures ValidIndex(index) ==>
      r.subVoices[index] == SubharmonicVoice.SetDivision(e.subVoices[index], division, Vco(e, e.subVoiceParents[index]), env, now)
  {
    if ValidIndex(index) then
      var v := e.subVoices[index];
      e.(subVoices := e.subVoices[index := SubharmonicVoice.SetDivision(v, division, Vco(e, v.parent), env, now)])
    else e
  }

  /** `setSubVoiceEnabled(index, enabled)`; an index with no voice is ignored. */
  function SetSubVoiceEnabled(e: Engine, index: int, enabled: bool): (r: Engine)
    ensures !ValidIndex(index) ==> r == e
    ensures ValidIndex(index) ==> OnlyVoiceChanged(e, r, index) && r.subVoices[index].isEnabled == enabled
    ensures ValidIndex(index) ==> r.subVoices[index].level == (if enabled then e.subVoices[index].initialLevel else 0.0)
    ensures ValidIndex(index) ==> r.subVoices[index] == SubharmonicVoice.SetEnabled(e.subVoices[index], enabled)
  {
    if ValidIndex(index) then e.(subVoices := e.subVoices[index := SubharmonicVoice.SetEnabled(e.subVoices[index], enabled)])
    else e
  }

  /** `setSubVoiceWaveform(index, waveform)`; an index with no voice is ignored. */
  function SetSubVoiceWaveform(e: Engine, index: int, waveform: string): (r: Engine)
    ensures !ValidIndex(index) ==> r == e
    ensures ValidIndex(index) ==> OnlyVoiceChanged(e, r, index)
    ensures ValidIndex(index) ==> r.subVoices[index].oscillator.waveform == waveform
    ensures ValidIndex(index) ==> r.subVoices[index].oscillator.baseFrequency == e.subVoices[index].oscillator.baseFrequency
    ensures ValidIndex(index) ==> r.subVoices[index] == SubharmonicVoice.SetWaveform(e.subVoices[index], waveform)
  {
    if ValidIndex(index) then e.(subVoices := e.subVoices[index := SubharmonicVoice.SetWaveform(e.subVoices[index], waveform)])
    else e
  }

  /** `setSubVoiceParent(subIndex, vcoIndex)`: reroute one voice and retune it
      from its new VCO; a call naming no voice or no VCO is ignored. */
  function SetSubVoiceParent(e: Engine, subIndex: int, vcoIndex: int, env: Env, now: real): (r: Engine)
    ensures !(ValidIndex(subIndex) && (vcoIndex == 0 || vcoIndex == 1)) ==> r == e
    ensures ValidIndex(subIndex) && (vcoIndex == 0 || vcoIndex == 1) ==>
      && r.subVoiceParents == e.subVoiceParents[subIndex := vcoIndex]
      && r.vco1 == e.vco1 && r.vco2 == e.vco2
      && r.vco1Level == e.vco1Level && r.vco2Level == e.vco2Level && r.mainMixer == e.mainMixer
      && (forall j :: 0 <= j < VoiceCount && j != subIndex ==> r.subVoices[j] == e.subVoices[j])
      && r.subVoices[subIndex] ==
           SubharmonicVoice.UpdateFrequency(e.subVoices[subIndex].(parent := vcoIndex), Vco(e, vcoIndex), env, now)
  {
    if ValidIndex(subIndex) && (vcoIndex == 0 || vcoIndex == 1) then
      var newParent := Vco(e, vcoIndex);
      var voice := e.subVoices[subIndex].(parent := vcoIndex);
      e.(subVoiceParents := e.subVoiceParents[subIndex := vcoIndex],
         subVoices := e.subVoices[subIndex := SubharmonicVoice.UpdateFrequency(voice, newParent, env, now)])
    else e
  }

  /** `getSubVoiceParent(subIndex)`: the routing entry, undefined off the end.
      The entry is the VCO the voice really follows. */
  function GetSubVoiceParent(e: Engine, subIndex: int): (r: Option<int>)
    ensures r.Some? <==> ValidIndex(subIndex)
    ensures r.Some? ==> (r.value == 0 || r.value == 1) && e.subVoices[subIndex].parent == r.value
  {
    if ValidIndex(subIndex) then Some(e.subVoiceParents[subIndex]) else None
  }
}
