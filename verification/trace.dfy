/**
 * Sequences of calls on a component: the state after applying each call in
 * turn, and the two facts the components' trace lemmas are built from.
 */
module Trace {

  /** The calls applied one after the other, first to last. */
  function Run<S, C>(s: S, calls: seq<C>, step: (S, C) -> S): S
    decreases |calls|
  {
    if |calls| == 0 then s else Run(step(s, calls[0]), calls[1..], step)
  }

  /** Running one more call is one more step from where the run ended. */
  lemma {:induction false} RunSnoc<S, C>(s: S, calls: seq<C>, c: C, step: (S, C) -> S)
    ensures Run(s, calls + [c], step) == step(Run(s, calls, step), c)
    decreases |calls|
  {
    if |calls| == 0 {
      assert calls + [c] == [c];
      assert [c][1..] == [];
    } else {
      assert (calls + [c])[1..] == calls[1..] + [c];
      RunSnoc(step(s, calls[0]), calls[1..], c, step);
    }
  }

  /** A property that every single step keeps holds after any run. */
  lemma {:induction false} RunPreserves<S, C>(s: S, calls: seq<C>, step: (S, C) -> S, inv: S -> bool)
    requires inv(s)
    requires forall x, c :: inv(x) ==> inv(step(x, c))
    ensures inv(Run(s, calls, step))
    decreases |calls|
  {
    if |calls| > 0 {
      RunPreserves(step(s, calls[0]), calls[1..], step, inv);
    }
  }
}
