/** The time steps of successive updates.

    Each frame of the program advances every entity by the clock's time step
    for that frame, so a run of updates is described by its sequence of
    steps, and the run lemmas speak of the time those steps add up to. */
module Steps {
  /** The time elapsed over the steps `dts`. */
  function Sum(dts: seq<real>): real
    decreases |dts|
  {
    if dts == [] then 0.0 else Sum(dts[..|dts| - 1]) + dts[|dts| - 1]
  }

  /** No step runs backwards. */
  predicate NonNegative(dts: seq<real>) {
    forall i :: 0 <= i < |dts| ==> dts[i] >= 0.0
  }

  /** Every step moves time forward. */
  predicate Positive(dts: seq<real>) {
    forall i :: 0 <= i < |dts| ==> dts[i] > 0.0
  }

  /** Dropping the last step takes it off the sum and keeps every step
      non-negative. */
  lemma {:induction false} SumPrefix(dts: seq<real>)
    requires dts != []
    ensures Sum(dts) == Sum(dts[..|dts| - 1]) + dts[|dts| - 1]
    ensures NonNegative(dts) ==> NonNegative(dts[..|dts| - 1]) && dts[|dts| - 1] >= 0.0
  {
    if NonNegative(dts) {
      var prefix := dts[..|dts| - 1];
      forall i | 0 <= i < |prefix| ensures prefix[i] >= 0.0 {
        assert prefix[i] == dts[i];
      }
    }
  }

  /** `n` steps all equal to `dt` add up to `n * dt`. */
  lemma {:induction false} SumOfEqualSteps(dts: seq<real>, dt: real)
    requires forall i :: 0 <= i < |dts| ==> dts[i] == dt
    ensures Sum(dts) == (|dts| as real) * dt
    decreases |dts|
  {
    if dts != [] {
      SumOfEqualSteps(dts[..|dts| - 1], dt);
      assert (|dts| as real) * dt == ((|dts| - 1) as real) * dt + dt;
    }
  }
}
