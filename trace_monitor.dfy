/**
 * A monitor over a sequence of emitted events: a step function that either
 * accepts an event, giving the monitor's next state, or rejects it. Both
 * draggable models state their whole-trace properties as "the monitor
 * accepts every output trace".
 */
module TraceMonitor {
  import opened DragTypes

  /** Feed the events to the monitor in order; None once one is rejected. */
  function Observe<W, O>(step: (W, O) -> Option<W>, w: W, outs: seq<O>): Option<W>
    decreases |outs|
  {
    if outs == [] then Some(w)
    else
      match step(w, outs[0])
      case None => None
      case Some(w1) => Observe(step, w1, outs[1..])
  }

  /** Watching a concatenation is watching the first part, then the second
      from where the first left the monitor. */
  lemma {:induction false} ObserveAppend<W, O>(step: (W, O) -> Option<W>, w: W, a: seq<O>, b: seq<O>)
    ensures Observe(step, w, a + b) ==
      (match Observe(step, w, a) case None => None case Some(w1) => Observe(step, w1, b))
    decreases |a|
  {
    if a == [] {
      assert a + b == b;
    } else {
      assert (a + b)[0] == a[0];
      assert (a + b)[1..] == a[1..] + b;
      match step(w, a[0])
      case None =>
      case Some(w1) => ObserveAppend(step, w1, a[1..], b);
    }
  }
}
