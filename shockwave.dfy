/** The shockwave ring: a radius that grows while the ring is active and
    switches the ring off once it passes six times the ring's scale. */
module Shockwaves {
  import Draws
  import Steps

  /** The ring's fields: radius, whether it is active, and its scale. */
  datatype RingState = RingState(radius: real, active: bool, scale: real)

  /** Radius gained per second per unit of scale. */
  const GrowthRate: real := 1.5
  /** The ring switches off once its radius exceeds this many times its scale. */
  const ReachFactor: real := 6.0

  /** The ring as constructed, and as left by `reset`. */
  function Dormant(): RingState {
    RingState(0.0, false, 1.0)
  }

  /** The ring after `start(scale)`. */
  function Started(scale: real): RingState {
    RingState(0.0, true, scale)
  }

  /** The ring after `update(dt)`. */
  function Updated(s: RingState, dt: real): RingState {
    if !s.active then s
    else
      var radius := s.radius + dt * GrowthRate * s.scale;
      RingState(radius, !(radius > ReachFactor * s.scale), s.scale)
  }

  /** The ring after one `update` per time step in `dts`, in order. */
  function Run(s: RingState, dts: seq<real>): RingState
    decreases |dts|
  {
    if dts == [] then s else Run(Updated(s, dts[0]), dts[1..])
  }

  /** The radius has not passed the ring's reach while the ring is active. */
  predicate WithinReach(s: RingState) {
    s.active ==> s.radius <= ReachFactor * s.scale
  }

  /** `start` arms the ring at radius zero with the given scale, and a ring
      started with a non-negative scale is within its reach. */
  lemma StartArms(scale: real)
    ensures Started(scale).active && Started(scale).radius == 0.0 && Started(scale).scale == scale
    ensures scale >= 0.0 ==> WithinReach(Started(scale))
  {
  }

  /** An update of an inactive ring changes nothing. */
  lemma UpdateInactiveIsNoOp(s: RingState, dt: real)
    requires !s.active
    ensures Updated(s, dt) == s
  {
  }

  /** An update of an active ring adds `dt * 1.5 * scale` to the radius, keeps the
      scale, never shrinks the radius for non-negative `dt` and scale, and leaves
      the ring inactive exactly when the new radius exceeds `6 * scale`. */
  lemma UpdateGrows(s: RingState, dt: real)
    requires s.active
    ensures Updated(s, dt).radius == s.radius + dt * 1.5 * s.scale
    ensures Updated(s, dt).scale == s.scale
    ensures dt >= 0.0 && s.scale >= 0.0 ==> Updated(s, dt).radius >= s.radius
    ensures !Updated(s, dt).active <==> Updated(s, dt).radius > 6.0 * s.scale
  {
    if dt >= 0.0 && s.scale >= 0.0 {
      Draws.ProductNonnegative(dt * GrowthRate, s.scale);
    }
  }

  /** Updates keep an active ring within its reach. */
  lemma UpdateKeepsWithinReach(s: RingState, dt: real)
    ensures WithinReach(Updated(s, dt))
  {
  }

  /** Once the ring is inactive, no sequence of updates turns it back on. */
  lemma {:induction false} RunInactiveIsNoOp(s: RingState, dts: seq<real>)
    requires !s.active
    ensures Run(s, dts) == s
    decreases |dts|
  {
    if dts != [] {
      RunInactiveIsNoOp(Updated(s, dts[0]), dts[1..]);
    }
  }

  /** Over any run of non-negative time steps the radius never shrinks, the
      scale never changes, and the ring is active at the end only if it was
      active at the start. */
  lemma {:induction false} RunMonotone(s: RingState, dts: seq<real>)
    requires s.scale >= 0.0 && Steps.NonNegative(dts)
    ensures Run(s, dts).radius >= s.radius
    ensures Run(s, dts).scale == s.scale
    ensures Run(s, dts).active ==> s.active
    decreases |dts|
  {
    if dts != [] {
      if s.active {
        UpdateGrows(s, dts[0]);
      }
      assert Steps.NonNegative(dts[1..]) by {
        forall i | 0 <= i < |dts[1..]| ensures dts[1..][i] >= 0.0 {
          assert dts[1..][i] == dts[i + 1];
        }
      }
      RunMonotone(Updated(s, dts[0]), dts[1..]);
    }
  }

  /** The ring object: `radius`, `active` and `scale` change in place. */
  class Shockwave {
    var radius: real
    var active: bool
    var scale: real

    function State(): RingState
      reads this
    {
      RingState(radius, active, scale)
    }

    constructor ()
      ensures State() == Dormant()
    {
      radius := 0.0;
      active := false;
      scale := 1.0;
    }

    method Start(scale: real)
      modifies this
      ensures State() == Started(scale)
    {
      this.active := true;
      this.radius := 0.0;
      this.scale := scale;
    }

    method Update(dt: real)
      modifies this
      ensures State() == Updated(old(State()), dt)
    {
      if active {
        radius := radius + dt * 1.5 * scale;
        if radius > 6.0 * scale {
          active := false;
        }
      }
    }

    method Reset()
      modifies this
      ensures State() == Dormant()
    {
      active := false;
      radius := 0.0;
      scale := 1.0;
    }
  }
}
