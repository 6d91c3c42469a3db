/** The browser runs callbacks one at a time: a state machine driven by a
    sequence of events. */
module EventLoop {

  /** The state after the events `es`, each handled by `step` in turn. */
  function Run<S, E>(s: S, es: seq<E>, step: (S, E) -> S): (r: S)
    ensures es == [] ==> r == s
    decreases |es|
  {
    if es == [] then s else Run(step(s, es[0]), es[1..], step)
  }

  /** Two events in a row. */
  lemma RunTwo<S, E>(s: S, a: E, b: E, step: (S, E) -> S)
    ensures Run(s, [a, b], step) == step(step(s, a), b)
  {
    assert [a, b][1..] == [b];
    assert [b][1..] == [];
  }

  /** A property that every allowed event keeps holds after any sequence of
      allowed events. */
  lemma {:induction false} RunKeeps<S, E>(s: S, es: seq<E>, step: (S, E) -> S, inv: S -> bool, allowed: E -> bool)
    requires inv(s)
    requires forall k :: 0 <= k < |es| ==> allowed(es[k])
    requires forall x, e :: inv(x) && allowed(e) ==> inv(step(x, e))
    ensures inv(Run(s, es, step))
    decreases |es|
  {
    if es != [] {
      RunKeeps(step(s, es[0]), es[1..], step, inv, allowed);
    }
  }
}
