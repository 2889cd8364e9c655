/**
 * Properties of SubharmonicEngine over whole sequences of calls: the
 * routing matrix always holds the last accepted reroute of each voice, and
 * no call ever leaves a voice tuned to a frequency that is not a positive
 * number.
 */
module SubharmonicEngineProperties {
  import opened Js
  import SubharmonicVoice
  import E = SubharmonicEngine
  import Trace

  /** The engine's public mutators, as calls. */
  datatype Command =
    | Vco1Frequency(freq: Num)
    | Vco2Frequency(freq: Num)
    | Vco1Waveform(waveform: string)
    | Vco2Waveform(waveform: string)
    | Vco1Level(level: real)
    | Vco2Level(level: real)
    | UpdateForVco(vcoIndex: int)
    | UpdateAll
    | SubLevel(index: int, level: real)
    | SubDivision(index: int, division: Num)
    | SubEnabled(index: int, enabled: bool)
    | SubWaveform(index: int, waveform: string)
    | SubParent(subIndex: int, vcoIndex: int)

  /** A call and the audio clock's time when it is made. */
  datatype Call = Call(command: Command, now: real)

  function Step(e: E.Engine, c: Call, env: Env): E.Engine {
    match c.command
    case Vco1Frequency(f) => E.SetVco1Frequency(e, f, env, c.now)
    case Vco2Frequency(f) => E.SetVco2Frequency(e, f, env, c.now)
    case Vco1Waveform(w) => E.SetVco1Waveform(e, w)
    case Vco2Waveform(w) => E.SetVco2Waveform(e, w)
    case Vco1Level(l) => E.SetVco1Level(e, l)
    case Vco2Level(l) => E.SetVco2Level(e, l)
    case UpdateForVco(k) => E.UpdateSubharmonicsForVco(e, k, env, c.now)
    case UpdateAll => E.UpdateAllSubharmonics(e, env, c.now)
    case SubLevel(i, l) => E.SetSubVoiceLevel(e, i, l)
    case SubDivision(i, d) => E.SetSubVoiceDivision(e, i, d, env, c.now)
    case SubEnabled(i, b) => E.SetSubVoiceEnabled(e, i, b)
    case SubWaveform(i, w) => E.SetSubVoiceWaveform(e, i, w)
    case SubParent(s, v) => E.SetSubVoiceParent(e, s, v, env, c.now)
  }

  /** One call, with the calculator fixed. */
  function StepWith(env: Env): (E.Engine, Call) -> E.Engine {
    (e: E.Engine, c: Call) => Step(e, c, env)
  }

  /** The calls made one after the other, first to last. */
  function Run(e: E.Engine, calls: seq<Call>, env: Env): E.Engine {
    Trace.Run(e, calls, StepWith(env))
  }

  /** Every voice sounds at a positive frequency. */
  predicate AllTuned(e: E.Engine) {
    forall i :: 0 <= i < E.VoiceCount ==> SubharmonicVoice.Tuned(e.subVoices[i])
  }

  /** The routing entry of voice i as the calls alone determine it: the VCO of
      the last accepted reroute of voice i, or `initial` if there was none. */
  function LastRoute(calls: seq<Call>, i: int, initial: int): int
    decreases |calls|
  {
    if |calls| == 0 then initial
    else
      var c := calls[|calls| - 1].command;
      if c.SubParent? && c.subIndex == i && (c.vcoIndex == 0 || c.vcoIndex == 1) then c.vcoIndex
      else LastRoute(calls[..|calls| - 1], i, initial)
  }

  lemma StepKeepsTuned(e: E.Engine, c: Call, env: Env)
    requires AllTuned(e)
    ensures AllTuned(Step(e, c, env))
  {
    // one case per call that retunes voices, the rest together
    match c.command
    case Vco1Frequency(f) =>
    case Vco2Frequency(f) =>
    case UpdateForVco(k) =>
    case UpdateAll =>
    case SubDivision(i, d) =>
    case SubParent(s, v) =>
    case _ =>
  }

  /** No sequence of calls detunes a tuned engine (and the constructor's is tuned):
      a voice keeps its last good frequency when a VCO is given NaN, an
      infinity or a non-positive value. */
  lemma RunKeepsTuned(e: E.Engine, calls: seq<Call>, env: Env)
    requires AllTuned(e)
    ensures AllTuned(Run(e, calls, env))
  {
    forall x: E.Engine, c: Call | AllTuned(x)
      ensures AllTuned(StepWith(env)(x, c))
    {
      StepKeepsTuned(x, c, env);
    }
    Trace.RunPreserves(e, calls, StepWith(env), AllTuned);
  }

  lemma StepRoute(e: E.Engine, c: Call, env: Env, i: int)
    requires E.ValidIndex(i)
    ensures Step(e, c, env).subVoiceParents[i] ==
      if c.command.SubParent? && c.command.subIndex == i && (c.command.vcoIndex == 0 || c.command.vcoIndex == 1)
      then c.command.vcoIndex else e.subVoiceParents[i]
  {
  }

  /** The routing matrix is a faithful record of the reroutes: after any
      calls, entry i is the VCO of the last accepted reroute of voice i, and
      `getSubVoiceParent(i)` reports it. */
  lemma {:induction false} RoutingIsLastReroute(e: E.Engine, calls: seq<Call>, env: Env, i: int)
    requires E.ValidIndex(i)
    ensures Run(e, calls, env).subVoiceParents[i] == LastRoute(calls, i, e.subVoiceParents[i])
    ensures E.GetSubVoiceParent(Run(e, calls, env), i) == Some(LastRoute(calls, i, e.subVoiceParents[i]))
    decreases |calls|
  {
    if |calls| > 0 {
      var front := calls[..|calls| - 1];
      var c := calls[|calls| - 1];
      assert front + [c] == calls;
      RoutingIsLastReroute(e, front, env, i);
      Trace.RunSnoc(e, front, c, StepWith(env));
      StepRoute(Run(e, front, env), c, env, i);
    }
  }

  /** Rerouting voice i to VCO2 makes it follow VCO2's next retune, and
      VCO1's retunes no longer reach it. */
  lemma RerouteThenRetune(e: E.Engine, i: int, f: Num, g: Num, env: Env, t0: real, t1: real, t2: real)
    requires E.ValidIndex(i)
    ensures
      var e1 := E.SetSubVoiceParent(e, i, 1, env, t0);
      var e2 := E.SetVco2Frequency(e1, f, env, t1);
      && E.GetSubVoiceParent(e2, i) == Some(1)
      && e2.subVoices[i] == SubharmonicVoice.UpdateFrequency(e1.subVoices[i], e2.vco2, env, t1)
      && (SubharmonicVoice.Retunes(e1.subVoices[i], e2.vco2, env) ==>
            e2.subVoices[i].oscillator.baseFrequency == SubharmonicVoice.Derived(e1.subVoices[i], e2.vco2, env))
      && E.SetVco1Frequency(e2, g, env, t2).subVoices[i] == e2.subVoices[i]
  {
  }
}
