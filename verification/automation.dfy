/**
 * The automation schedule of a Web Audio parameter: the list of
 * `setValueAtTime` and `linearRampToValueAtTime` calls made on it, in the
 * order they were made, each stamped with the time it takes effect.
 * How the rendering backend interpolates between events is not modelled.
 */
module Automation {

  datatype Event<V> = SetAt(value: V, time: real) | RampTo(value: V, time: real)

  /** `cancelScheduledValues(t)`: every event taking effect at or after t is dropped. */
  function Cancel<V(!new)>(s: seq<Event<V>>, t: real): (r: seq<Event<V>>)
    ensures forall e :: e in r <==> e in s && e.time < t
    ensures |r| <= |s|
  {
    if |s| == 0 then []
    else (if s[0].time < t then [s[0]] else []) + Cancel(s[1..], t)
  }

  /** The events of s that have not yet taken effect at time t, in order. */
  function Pending<V(!new)>(s: seq<Event<V>>, t: real): (r: seq<Event<V>>)
    ensures forall e :: e in r <==> e in s && e.time >= t
  {
    if |s| == 0 then []
    else (if s[0].time >= t then [s[0]] else []) + Pending(s[1..], t)
  }

  /** The events take effect at strictly increasing times. */
  predicate Increasing<V(!new)>(s: seq<Event<V>>) {
    forall i, j :: 0 <= i < j < |s| ==> s[i].time < s[j].time
  }

  /** The events were scheduled in time order, as an audio clock that never
      runs backwards produces them. */
  predicate NonDecreasing<V(!new)>(s: seq<Event<V>>) {
    forall i, j :: 0 <= i < j < |s| ==> s[i].time <= s[j].time
  }

  /** Cancelling splits the schedule: what is kept and what is pending
      together are the schedule, event for event, duplicates included. */
  lemma {:induction false} CancelSplitsSchedule<V(!new)>(s: seq<Event<V>>, t: real)
    ensures multiset(Cancel(s, t)) + multiset(Pending(s, t)) == multiset(s)
    decreases |s|
  {
    if |s| > 0 {
      CancelSplitsSchedule(s[1..], t);
      SplitStep(s, t);
    }
  }

  /** The first event goes either to the kept part or to the pending part. */
  lemma SplitStep<V(!new)>(s: seq<Event<V>>, t: real)
    requires |s| > 0
    ensures multiset(Cancel(s, t)) + multiset(Pending(s, t))
         == multiset{s[0]} + multiset(Cancel(s[1..], t)) + multiset(Pending(s[1..], t))
    ensures multiset(s) == multiset{s[0]} + multiset(s[1..])
  {
    assert s == [s[0]] + s[1..];
  }

  /** On a schedule in time order, cancelling at t keeps exactly the events
      before the first one at or after t, in their order: the kept part
      followed by the pending part is the schedule itself. */
  lemma {:induction false} CancelKeepsOrder<V(!new)>(s: seq<Event<V>>, t: real)
    requires NonDecreasing(s)
    ensures Cancel(s, t) + Pending(s, t) == s
    decreases |s|
  {
    if |s| > 0 {
      if s[0].time < t {
        NonDecreasingTail(s);
        CancelKeepsOrder(s[1..], t);
        KeptFirst(s, t);
        ConsSplit(s, Cancel(s[1..], t), Pending(s[1..], t));
      } else {
        NonDecreasingFromFirst(s, t);
        PendingOfLater(s, t);
        CancelOfLater(s, t);
      }
    }
  }

  /** Putting the head back on the first half of a split of the tail gives a split of the whole. */
  lemma ConsSplit<T>(s: seq<T>, kept: seq<T>, pending: seq<T>)
    requires |s| > 0 && kept + pending == s[1..]
    ensures ([s[0]] + kept) + pending == s
  {
    assert ([s[0]] + kept) + pending == [s[0]] + (kept + pending);
  }

  /** An event before t heads the kept part and is not pending. */
  lemma KeptFirst<V(!new)>(s: seq<Event<V>>, t: real)
    requires |s| > 0 && s[0].time < t
    ensures Cancel(s, t) == [s[0]] + Cancel(s[1..], t)
    ensures Pending(s, t) == Pending(s[1..], t)
  {
  }

  lemma NonDecreasingTail<V(!new)>(s: seq<Event<V>>)
    requires |s| > 0 && NonDecreasing(s)
    ensures NonDecreasing(s[1..])
  {
    forall i, j | 0 <= i < j < |s| - 1 ensures s[1..][i].time <= s[1..][j].time {
      assert s[1..][i] == s[i + 1] && s[1..][j] == s[j + 1];
    }
  }

  /** In time order, when the first event is at or after t, all of them are. */
  lemma NonDecreasingFromFirst<V(!new)>(s: seq<Event<V>>, t: real)
    requires |s| > 0 && NonDecreasing(s) && s[0].time >= t
    ensures forall i :: 0 <= i < |s| ==> s[i].time >= t
  {
    forall i | 0 < i < |s| ensures s[i].time >= t {
      assert s[0].time <= s[i].time;
    }
  }

  /** Nothing survives a cancel that precedes every event. */
  lemma CancelOfLater<V(!new)>(s: seq<Event<V>>, t: real)
    requires forall i :: 0 <= i < |s| ==> s[i].time >= t
    ensures Cancel(s, t) == []
  {
    if |Cancel(s, t)| > 0 {
      assert Cancel(s, t)[0] in Cancel(s, t);
    }
  }

  /** Cancels everything from `now` on, then schedules `evs`. */
  function Reschedule<V(!new)>(s: seq<Event<V>>, now: real, evs: seq<Event<V>>): seq<Event<V>> {
    Cancel(s, now) + evs
  }

  lemma {:induction false} PendingAppend<V(!new)>(a: seq<Event<V>>, b: seq<Event<V>>, t: real)
    ensures Pending(a + b, t) == Pending(a, t) + Pending(b, t)
    decreases |a|
  {
    if |a| == 0 {
      assert a + b == b;
    } else {
      var first := if a[0].time >= t then [a[0]] else [];
      assert (a + b)[0] == a[0] && (a + b)[1..] == a[1..] + b;
      assert Pending(a + b, t) == first + Pending(a[1..] + b, t);
      PendingAppend(a[1..], b, t);
      assert Pending(a, t) == first + Pending(a[1..], t);
    }
  }

  lemma {:induction false} PendingOfLater<V(!new)>(s: seq<Event<V>>, t: real)
    requires forall i :: 0 <= i < |s| ==> s[i].time >= t
    ensures Pending(s, t) == s
    decreases |s|
  {
    if |s| > 0 {
      PendingOfLater(s[1..], t);
      assert [s[0]] + s[1..] == s;
    }
  }

  lemma {:induction false} NothingPendingAfterCancel<V(!new)>(s: seq<Event<V>>, t: real)
    ensures Pending(Cancel(s, t), t) == []
    decreases |s|
  {
    if |s| > 0 {
      NothingPendingAfterCancel(s[1..], t);
      PendingAppend(if s[0].time < t then [s[0]] else [], Cancel(s[1..], t), t);
    }
  }

  /** After a reschedule at `now` the pending events are exactly the new ones,
      and everything kept from the old schedule lies strictly before `now`. */
  lemma RescheduleLeavesOnlyNewEvents<V(!new)>(s: seq<Event<V>>, now: real, evs: seq<Event<V>>)
    requires forall i :: 0 <= i < |evs| ==> evs[i].time >= now
    ensures Pending(Reschedule(s, now, evs), now) == evs
    ensures forall e :: e in Reschedule(s, now, evs) && e.time < now ==> e in s
  {
    PendingAppend(Cancel(s, now), evs, now);
    NothingPendingAfterCancel(s, now);
    PendingOfLater(evs, now);
  }
}
