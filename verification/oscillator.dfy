/**
 * OscillatorModule: a free-running oscillator with a base frequency, a
 * semitone offset and a waveform. Every change of base or offset pushes the
 * effective frequency base * 2^(offset/12) to the oscillator's frequency
 * parameter at the current time.
 */
module OscillatorModule {
  import opened Js
  import opened Automation

  datatype Osc = Osc(
    baseFrequency: Num,
    noteOffsetSemitones: Num,
    waveform: string,
    frequency: seq<Event<Num>>)  // the frequency parameter's schedule

  /** base * 2^(offset/12), the frequency the oscillator should sound at. */
  function Effective(o: Osc, ratio: SemitoneRatio): Num {
    Mul(o.baseFrequency, Pow2Semitones(ratio, o.noteOffsetSemitones))
  }

  /** The frequency parameter reflects the current base and offset. */
  predicate InSync(o: Osc, ratio: SemitoneRatio) {
    |o.frequency| > 0 && o.frequency[|o.frequency| - 1].value == Effective(o, ratio)
  }

  /** `updateFrequency()`: schedules the effective frequency at `now`. */
  function UpdateFrequency(o: Osc, ratio: SemitoneRatio, now: real): (r: Osc)
    ensures InSync(r, ratio)
    ensures |r.frequency| == |o.frequency| + 1
    ensures r.frequency[..|o.frequency|] == o.frequency
    ensures r.frequency[|r.frequency| - 1].time == now
    ensures r.frequency[|r.frequency| - 1].SetAt?
    ensures r.(frequency := o.frequency) == o
  {
    o.(frequency := o.frequency + [SetAt(Effective(o, ratio), now)])
  }

  /** The constructor: A4 (440), no offset, a sine wave, and one push of 440. */
  function New(ratio: SemitoneRatio, now: real): (r: Osc)
    ensures r.baseFrequency == Finite(440.0)
    ensures r.noteOffsetSemitones == Finite(0.0)
    ensures r.waveform == "sine"
    ensures r.frequency == [SetAt(Finite(440.0), now)]
  {
    UpdateFrequency(Osc(Finite(440.0), Finite(0.0), "sine", []), ratio, now)
  }

  function SetBaseFrequency(o: Osc, freq: Num, ratio: SemitoneRatio, now: real): (r: Osc)
    ensures r.baseFrequency == freq
    ensures r.noteOffsetSemitones == o.noteOffsetSemitones && r.waveform == o.waveform
    ensures r.frequency == o.frequency + [SetAt(Mul(freq, Pow2Semitones(ratio, o.noteOffsetSemitones)), now)]
    ensures o.noteOffsetSemitones == Finite(0.0) ==> r.frequency[|r.frequency| - 1].value == freq
    ensures IsPositive(freq) && o.noteOffsetSemitones.Finite? ==> IsPositive(Effective(r, ratio))
  {
    UpdateFrequency(o.(baseFrequency := freq), ratio, now)
  }

  function SetNoteOffset(o: Osc, semitones: Num, ratio: SemitoneRatio, now: real): (r: Osc)
    ensures r.noteOffsetSemitones == semitones
    ensures r.baseFrequency == o.baseFrequency && r.waveform == o.waveform
    ensures r.frequency == o.frequency + [SetAt(Mul(o.baseFrequency, Pow2Semitones(ratio, semitones)), now)]
    ensures semitones == Finite(0.0) ==> r.frequency[|r.frequency| - 1].value == o.baseFrequency
  {
    UpdateFrequency(o.(noteOffsetSemitones := semitones), ratio, now)
  }

  /** `setWaveform(type)` only changes the oscillator type: nothing is pushed. */
  function SetWaveform(o: Osc, waveform: string): (r: Osc)
    ensures r.waveform == waveform
    ensures r.(waveform := o.waveform) == o
  {
    o.(waveform := waveform)
  }

  /** The frequency parameter stays in step with base and offset through every mutator. */
  lemma MutatorsKeepInSync(o: Osc, ratio: SemitoneRatio, f: Num, n: Num, w: string, now: real)
    requires InSync(o, ratio)
    ensures InSync(New(ratio, now), ratio)
    ensures InSync(SetBaseFrequency(o, f, ratio, now), ratio)
    ensures InSync(SetNoteOffset(o, n, ratio, now), ratio)
    ensures InSync(SetWaveform(o, w), ratio)
  {
  }

  /** A4 with no offset sounds at 440; an offset of zero leaves any base as is, NaN and infinities included. */
  lemma ZeroOffsetIsIdentity(o: Osc, ratio: SemitoneRatio)
    requires o.noteOffsetSemitones == Finite(0.0)
    ensures Effective(o, ratio) == o.baseFrequency
  {
  }
}
