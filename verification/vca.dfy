/**
 * VCAModule: the amplitude gate. Two states, open and closed. Opening
 * cancels the gain schedule and writes attack (0 to 1 over the attack
 * time) then decay (1 to sustain over the decay time); closing cancels it
 * and ramps from the current gain to 0 over the release time. A gate event
 * that does not change the state is ignored. The envelope times and the
 * sustain level are clamped when set and used at the next gate event.
 */
module VcaModule {
  import opened Automation
  import Trace

  datatype Vca = Vca(
    isGateOpen: bool,
    attackTime: real,    // seconds
    decayTime: real,     // seconds
    sustainLevel: real,
    releaseTime: real,   // seconds
    gain: seq<Event<real>>)  // the gain parameter's schedule

  /** The shortest envelope time a setter accepts: 1 ms. */
  const MinTime: real := 0.001

  /** The ranges the setters clamp to. */
  predicate Valid(v: Vca) {
    && v.attackTime >= MinTime && v.decayTime >= MinTime && v.releaseTime >= MinTime
    && 0.0 <= v.sustainLevel <= 1.0
  }

  /** The two states have the same envelope parameters. */
  predicate SameSettings(v: Vca, w: Vca) {
    && v.attackTime == w.attackTime && v.decayTime == w.decayTime
    && v.sustainLevel == w.sustainLevel && v.releaseTime == w.releaseTime
  }

  /** The constructor: closed, gain set to 0, A 10 ms, D 500 ms, S 0.3, R 100 ms. */
  function New(now: real): (r: Vca)
    ensures !r.isGateOpen && r.gain == [SetAt(0.0, now)]
    ensures r.attackTime == 0.01 && r.decayTime == 0.5 && r.sustainLevel == 0.3 && r.releaseTime == 0.1
    ensures Valid(r)
  {
    Vca(false, 0.01, 0.5, 0.3, 0.1, [SetAt(0.0, now)])
  }

  /** Attack then decay, starting at `now`. */
  function AttackDecay(v: Vca, now: real): seq<Event<real>> {
    [SetAt(0.0, now), RampTo(1.0, now + v.attackTime), RampTo(v.sustainLevel, now + v.attackTime + v.decayTime)]
  }

  /** Release from `current`, starting at `now`. */
  function ReleaseFrom(v: Vca, now: real, current: real): seq<Event<real>> {
    [SetAt(current, now), RampTo(0.0, now + v.releaseTime)]
  }

  /** `gateOn()` at audio time `now`. */
  function GateOn(v: Vca, now: real): (r: Vca)
    ensures v.isGateOpen ==> r == v
    ensures !v.isGateOpen ==> r.isGateOpen && SameSettings(r, v)
    ensures !v.isGateOpen ==> r.gain == Reschedule(v.gain, now, AttackDecay(v, now))
    ensures Valid(v) ==> Valid(r)
  {
    if v.isGateOpen then v
    else v.(isGateOpen := true, gain := Reschedule(v.gain, now, AttackDecay(v, now)))
  }

  /** Opening a closed gate leaves exactly attack and decay pending, at strictly
      increasing times, heading for a sustain level within [0, 1]; what is kept
      of the old schedule lies before `now`. */
  lemma GateOnSchedulesEnvelope(v: Vca, now: real)
    requires !v.isGateOpen && Valid(v)
    ensures Pending(GateOn(v, now).gain, now) == AttackDecay(v, now)
    ensures Increasing(AttackDecay(v, now))
    ensures AttackDecay(v, now)[2].value == v.sustainLevel && 0.0 <= v.sustainLevel <= 1.0
    ensures forall e :: e in GateOn(v, now).gain && e.time < now ==> e in v.gain
  {
    var evs := AttackDecay(v, now);
    AttackDecayShape(v, now);
    RescheduleLeavesOnlyNewEvents(v.gain, now, evs);
  }

  /** Attack and decay start at `now` and take effect at strictly increasing times. */
  lemma AttackDecayShape(v: Vca, now: real)
    requires Valid(v)
    ensures forall i :: 0 <= i < |AttackDecay(v, now)| ==> AttackDecay(v, now)[i].time >= now
    ensures Increasing(AttackDecay(v, now))
  {
    var evs := AttackDecay(v, now);
    assert evs[0].time == now < evs[1].time < evs[2].time;
  }

  /** `gateOff()` at audio time `now`; `current` is the gain's value at that
      moment, which the rendering backend reports. */
  function GateOff(v: Vca, now: real, current: real): (r: Vca)
    ensures !v.isGateOpen ==> r == v
    ensures v.isGateOpen ==> !r.isGateOpen && SameSettings(r, v)
    ensures v.isGateOpen ==> r.gain == Reschedule(v.gain, now, ReleaseFrom(v, now, current))
    ensures Valid(v) ==> Valid(r)
  {
    if !v.isGateOpen then v
    else v.(isGateOpen := false, gain := Reschedule(v.gain, now, ReleaseFrom(v, now, current)))
  }

  /** Closing an open gate leaves exactly the release pending: from the
      current gain at `now` down to 0 after the release time. */
  lemma GateOffSchedulesRelease(v: Vca, now: real, current: real)
    requires v.isGateOpen && Valid(v)
    ensures Pending(GateOff(v, now, current).gain, now) == ReleaseFrom(v, now, current)
    ensures Increasing(ReleaseFrom(v, now, current))
    ensures forall e :: e in GateOff(v, now, current).gain && e.time < now ==> e in v.gain
  {
    var evs := ReleaseFrom(v, now, current);
    assert GateOff(v, now, current).gain == Reschedule(v.gain, now, evs);
    assert evs[0].time == now < evs[1].time;
    assert forall i :: 0 <= i < |evs| ==> evs[i].time >= now;
    RescheduleLeavesOnlyNewEvents(v.gain, now, evs);
  }

  /** `Math.max(lo, x)` */
  function Max(lo: real, x: real): real {
    if x > lo then x else lo
  }

  /** `Math.min(hi, x)` */
  function Min(hi: real, x: real): real {
    if x < hi then x else hi
  }

  /** `setAttack(t)`: at least 1 ms, otherwise t; nothing else changes. */
  function SetAttack(v: Vca, t: real): (r: Vca)
    ensures r.attackTime >= MinTime
    ensures t >= MinTime ==> r.attackTime == t
    ensures t < MinTime ==> r.attackTime == MinTime
    ensures r.(attackTime := v.attackTime) == v
  {
    v.(attackTime := Max(MinTime, t))
  }

  function SetDecay(v: Vca, t: real): (r: Vca)
    ensures r.decayTime >= MinTime
    ensures t >= MinTime ==> r.decayTime == t
    ensures t < MinTime ==> r.decayTime == MinTime
    ensures r.(decayTime := v.decayTime) == v
  {
    v.(decayTime := Max(MinTime, t))
  }

  /** `setSustain(l)`: l clamped into [0, 1]; nothing else changes. */
  function SetSustain(v: Vca, level: real): (r: Vca)
    ensures 0.0 <= r.sustainLevel <= 1.0
    ensures 0.0 <= level <= 1.0 ==> r.sustainLevel == level
    ensures level < 0.0 ==> r.sustainLevel == 0.0
    ensures level > 1.0 ==> r.sustainLevel == 1.0
    ensures r.(sustainLevel := v.sustainLevel) == v
  {
    v.(sustainLevel := Max(0.0, Min(1.0, level)))
  }

  function SetRelease(v: Vca, t: real): (r: Vca)
    ensures r.releaseTime >= MinTime
    ensures t >= MinTime ==> r.releaseTime == t
    ensures t < MinTime ==> r.releaseTime == MinTime
    ensures r.(releaseTime := v.releaseTime) == v
  {
    v.(releaseTime := Max(MinTime, t))
  }

  function GetAttack(v: Vca): real { v.attackTime }
  function GetDecay(v: Vca): real { v.decayTime }
  function GetSustain(v: Vca): real { v.sustainLevel }
  function GetRelease(v: Vca): real { v.releaseTime }
  function GetGateStatus(v: Vca): bool { v.isGateOpen }

  /** A value set within range reads back unchanged; a setter leaves the other
      parameters and the gate status as they were. */
  lemma SetThenGet(v: Vca, t: real, level: real)
    requires t >= MinTime && 0.0 <= level <= 1.0
    ensures GetAttack(SetAttack(v, t)) == t && GetDecay(SetDecay(v, t)) == t
    ensures GetRelease(SetRelease(v, t)) == t && GetSustain(SetSustain(v, level)) == level
    ensures GetGateStatus(SetAttack(v, t)) == GetGateStatus(v) && GetGateStatus(SetDecay(v, t)) == GetGateStatus(v)
    ensures GetGateStatus(SetSustain(v, level)) == GetGateStatus(v) && GetGateStatus(SetRelease(v, t)) == GetGateStatus(v)
    ensures SetAttack(v, t).gain == v.gain && SetDecay(v, t).gain == v.gain
    ensures SetSustain(v, level).gain == v.gain && SetRelease(v, t).gain == v.gain
    ensures GetDecay(SetAttack(v, t)) == GetDecay(v) && GetSustain(SetAttack(v, t)) == GetSustain(v)
    ensures GetRelease(SetAttack(v, t)) == GetRelease(v)
    ensures GetAttack(SetSustain(v, level)) == GetAttack(v) && GetDecay(SetSustain(v, level)) == GetDecay(v)
    ensures GetRelease(SetSustain(v, level)) == GetRelease(v)
    ensures GetSustain(SetAttack(SetDecay(SetRelease(v, t), t), t)) == GetSustain(v)
  {
  }

  /** A second `gateOn` (or `gateOff`) adds no ramp: the first is kept as it is. */
  lemma RetriggerSuppressed(v: Vca, t1: real, t2: real, c1: real, c2: real)
    ensures GateOn(GateOn(v, t1), t2) == GateOn(v, t1)
    ensures GateOff(GateOff(v, t1, c1), t2, c2) == GateOff(v, t1, c1)
  {
  }

  /** The gate's inputs, as calls. */
  datatype Input =
    | GateOnAt(now: real)
    | GateOffAt(now: real, current: real)
    | Attack(time: real)
    | Decay(time: real)
    | Sustain(level: real)
    | Release(time: real)

  function Step(v: Vca, i: Input): Vca {
    match i
    case GateOnAt(now) => GateOn(v, now)
    case GateOffAt(now, current) => GateOff(v, now, current)
    case Attack(t) => SetAttack(v, t)
    case Decay(t) => SetDecay(v, t)
    case Sustain(l) => SetSustain(v, l)
    case Release(t) => SetRelease(v, t)
  }

  /** The inputs applied one after the other, first to last. */
  function Run(v: Vca, ins: seq<Input>): Vca {
    Trace.Run(v, ins, Step)
  }

  /** Whether the gate is open, as the inputs alone determine it: the kind of
      the last gate event, or `initial` if there was none. */
  function LastGate(ins: seq<Input>, initial: bool): bool
    decreases |ins|
  {
    if |ins| == 0 then initial
    else
      match ins[|ins| - 1]
      case GateOnAt(_) => true
      case GateOffAt(_, _) => false
      case _ => LastGate(ins[..|ins| - 1], initial)
  }

  /** Whatever the inputs, the envelope stays within the clamped ranges. */
  lemma RunKeepsValid(v: Vca, ins: seq<Input>)
    requires Valid(v)
    ensures Valid(Run(v, ins))
  {
    Trace.RunPreserves(v, ins, Step, Valid);
  }

  /** `getGateStatus()` reports whether the last gate event was a `gateOn`:
      redundant events and parameter changes do not disturb it. */
  lemma {:induction false} GateStatusIsLastGateEvent(v: Vca, ins: seq<Input>)
    ensures GetGateStatus(Run(v, ins)) == LastGate(ins, v.isGateOpen)
    decreases |ins|
  {
    if |ins| > 0 {
      var front := ins[..|ins| - 1];
      var i := ins[|ins| - 1];
      assert front + [i] == ins;
      GateStatusIsLastGateEvent(v, front);
      Trace.RunSnoc(v, front, i, Step);
    }
  }
}
