/** The falling bomb: it descends at constant speed, is clamped to the ground
    and latches `exploded` when it gets there. */
module Bombs {
  import Config
  import Draws
  import Steps

  /** The bomb's position, descent speed and exploded flag. */
  datatype BombState = BombState(x: real, y: real, z: real, speed: real, exploded: bool)

  /** The height the bomb is dropped from. */
  const DropHeight: real := 1.2

  /** The bomb as constructed. */
  function Initial(): BombState {
    BombState(0.0, DropHeight, 0.0, 1.0, false)
  }

  /** The bomb after `update(dt)`. */
  function Updated(b: BombState, dt: real): BombState {
    if b.exploded then b
    else
      var y := b.y - b.speed * dt;
      if y <= Config.GroundLevel then b.(y := Config.GroundLevel, exploded := true)
      else b.(y := y)
  }

  /** The bomb after `reset()`: the drop pose again, with its speed as it was. */
  function Restored(b: BombState): BombState {
    b.(x := 0.0, y := DropHeight, z := 0.0, exploded := false)
  }

  /** The bomb after one `update` per time step in `dts`, in order. */
  function Fall(b: BombState, dts: seq<real>): BombState
    decreases |dts|
  {
    if dts == [] then b else Updated(Fall(b, dts[..|dts| - 1]), dts[|dts| - 1])
  }

  /** An exploded bomb rests exactly on the ground. */
  predicate Landed(b: BombState) {
    b.exploded ==> b.y == Config.GroundLevel
  }

  /** An unexploded bomb either moves down by `speed * dt` and stays above
      ground, unexploded, or reaches or passes the ground in the step and is
      clamped to it and explodes; nothing else changes. */
  lemma UpdateFallsOrLands(b: BombState, dt: real)
    requires !b.exploded
    ensures b.y - b.speed * dt > Config.GroundLevel ==> Updated(b, dt) == b.(y := b.y - b.speed * dt)
    ensures b.y - b.speed * dt <= Config.GroundLevel ==>
      Updated(b, dt) == b.(y := Config.GroundLevel, exploded := true)
  {
  }

  /** An exploded bomb is left exactly as it is, so `exploded` never goes back to
      false through `update`. */
  lemma UpdateExplodedIsNoOp(b: BombState, dt: real)
    requires b.exploded
    ensures Updated(b, dt) == b
  {
  }

  /** Updates never take the bomb below the ground, keep an exploded bomb on the
      ground, never lower `exploded`, and never change x, z or the speed. */
  lemma UpdateInvariants(b: BombState, dt: real)
    ensures b.y >= Config.GroundLevel ==> Updated(b, dt).y >= Config.GroundLevel
    ensures Landed(b) ==> Landed(Updated(b, dt))
    ensures b.exploded ==> Updated(b, dt).exploded
    ensures Updated(b, dt).x == b.x && Updated(b, dt).z == b.z && Updated(b, dt).speed == b.speed
  {
  }

  /** Once exploded, any run of updates leaves the bomb unchanged. */
  lemma {:induction false} FallExplodedIsNoOp(b: BombState, dts: seq<real>)
    requires b.exploded
    ensures Fall(b, dts) == b
    decreases |dts|
  {
    if dts != [] {
      FallExplodedIsNoOp(b, dts[..|dts| - 1]);
    }
  }

  /** Falling for `t + dt` is falling for `t` and then for `dt`. */
  lemma DescentAdds(y: real, speed: real, t: real, dt: real)
    ensures y - speed * (t + dt) == (y - speed * t) - speed * dt
  {
    assert speed * (t + dt) == speed * t + speed * dt;
  }

  /** With a non-negative speed, an update of `t` followed by one of a
      non-negative `dt` leaves the bomb where one update of `t + dt` would. */
  lemma UpdateSplits(b: BombState, t: real, dt: real)
    requires b.speed >= 0.0 && dt >= 0.0
    ensures Updated(Updated(b, t), dt) == Updated(b, t + dt)
  {
    if !b.exploded {
      DescentAdds(b.y, b.speed, t, dt);
      Draws.ProductNonnegative(b.speed, dt);
      var y := b.y - b.speed * t;
      if y > Config.GroundLevel {
        UpdateFallsOrLands(b, t);
        UpdateFallsOrLands(b.(y := y), dt);
      } else {
        UpdateFallsOrLands(b, t);
      }
    }
  }

  /** The step sizes do not matter: with a non-negative speed, a run of at
      least one update with non-negative steps leaves the bomb exactly where a
      single update over the whole elapsed time `t` would. With
      `UpdateFallsOrLands` this is the whole descent in closed form: an
      unexploded bomb is at `y - speed * t` if that is above ground, and
      otherwise on the ground, exploded. */
  lemma {:induction false} FallIsOneUpdate(b: BombState, dts: seq<real>)
    requires dts != [] && b.speed >= 0.0 && Steps.NonNegative(dts)
    ensures Fall(b, dts) == Updated(b, Steps.Sum(dts))
    decreases |dts|
  {
    var prefix := dts[..|dts| - 1];
    var dt := dts[|dts| - 1];
    Steps.SumPrefix(dts);
    if prefix == [] {
      assert Steps.Sum(dts) == dt;
    } else {
      FallIsOneUpdate(b, prefix);
      UpdateSplits(b, Steps.Sum(prefix), dt);
    }
  }

  /** `reset` puts the bomb back at the drop pose, unexploded, keeping its speed;
      from the constructed state that is the constructed state again. */
  lemma ResetRestores(b: BombState)
    ensures Restored(b) == Initial().(speed := b.speed)
    ensures Restored(Initial()) == Initial()
    ensures Restored(Restored(b)) == Restored(b)
  {
  }

  /** The bomb object; `update` and `reset` change its fields in place. */
  class Bomb {
    var x: real
    var y: real
    var z: real
    var speed: real
    var exploded: bool

    function State(): BombState
      reads this
    {
      BombState(x, y, z, speed, exploded)
    }

    constructor ()
      ensures State() == Initial()
    {
      x := 0.0;
      y := 1.2;
      z := 0.0;
      speed := 1.0;
      exploded := false;
    }

    method Update(dt: real)
      modifies this
      ensures State() == Updated(old(State()), dt)
    {
      if !exploded {
        y := y - speed * dt;
        if y <= Config.GroundLevel {
          y := Config.GroundLevel;
          exploded := true;
        }
      }
    }

    method Reset()
      modifies this
      ensures State() == Restored(old(State()))
    {
      x := 0.0;
      y := 1.2;
      z := 0.0;
      exploded := false;
    }
  }
}
