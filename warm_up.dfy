/** The warm-up gate of MultiScanRegistration::handleCloudMessage as a pure
    transition: while the delay counter is positive a frame only decrements
    it; once it is zero every frame is handed to processing with its own
    header time stamp. */
module WarmUp {

  /** A message header time stamp. */
  datatype Time = Time(sec: nat, nsec: nat)

  /** What one call did with its frame. */
  datatype Outcome = Skipped | Dispatched(stamp: Time)

  /** The counter after one call and what the call did with its frame. */
  datatype Step = Step(next: nat, outcome: Outcome)

  /** One call: the counter before the call and the frame's stamp give the
      counter after the call and the outcome. */
  function Handle(delay: nat, stamp: Time): (r: Step)
    ensures r.outcome == Skipped <==> delay > 0
    ensures r.outcome.Skipped? ==> r.next + 1 == delay
    ensures r.outcome.Dispatched? ==> r.next == delay == 0 && r.outcome.stamp == stamp
  {
    if delay > 0 then Step(delay - 1, Skipped) else Step(0, Dispatched(stamp))
  }

  /** The gate's state: its counter and the stamps passed to processing, in order. */
  datatype GateState = GateState(delay: nat, processed: seq<Time>)

  /** The state after handling the frames with the given stamps, in order,
      starting from counter `delay` and nothing processed. */
  function Replay(delay: nat, stamps: seq<Time>): GateState
    decreases |stamps|
  {
    if stamps == [] then GateState(delay, [])
    else
      var prev := Replay(delay, stamps[..|stamps| - 1]);
      var step := Handle(prev.delay, stamps[|stamps| - 1]);
      GateState(step.next, if step.outcome.Dispatched? then prev.processed + [step.outcome.stamp] else prev.processed)
  }

  function Min(a: nat, b: nat): nat {
    if a <= b then a else b
  }

  /** Closed form of the gate: after n frames from counter k the counter is
      k - min(k, n), never below zero, and exactly the frames after the first
      k have been processed, in arrival order and with their own stamps. */
  lemma {:induction false} ReplayClosedForm(k: nat, stamps: seq<Time>)
    ensures Replay(k, stamps) == GateState(k - Min(k, |stamps|), stamps[Min(k, |stamps|)..])
    decreases |stamps|
  {
    if stamps != [] {
      var init := stamps[..|stamps| - 1];
      var last := stamps[|stamps| - 1];
      ReplayClosedForm(k, init);
      if k <= |init| {
        assert stamps[k..] == init[k..] + [last];
      }
    }
  }

  /** The i-th call (counting from zero) after starting from counter k skips
      its frame exactly when i < k, and dispatches it with its own stamp
      otherwise. */
  lemma WarmUpOutcome(k: nat, stamps: seq<Time>, i: nat)
    requires i < |stamps|
    ensures Handle(Replay(k, stamps[..i]).delay, stamps[i]).outcome ==
      if i < k then Skipped else Dispatched(stamps[i])
  {
    ReplayClosedForm(k, stamps[..i]);
  }

  /** After k calls from counter k the gate is open for good: every later
      frame is processed. */
  lemma ActiveAfterWarmUp(k: nat, warm: seq<Time>, later: seq<Time>)
    requires |warm| == k
    ensures Replay(k, warm).delay == 0
    ensures Replay(k, warm + later).processed == later
  {
    ReplayClosedForm(k, warm);
    ReplayClosedForm(k, warm + later);
    assert (warm + later)[k..] == later;
  }
}
