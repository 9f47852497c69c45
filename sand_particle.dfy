/** The sand particle: ballistic debris thrown up from the ground at the
    explosion. It flies under its own cached gravity and, when its life runs
    out or it falls below the ground, is given a fresh trajectory by `reset`
    but stays inactive until it is activated again. */
module SandParticles {
  import Config
  import Draws
  import Settings
  import Steps

  /** A colour as red, green and blue components. */
  datatype Color = Color(r: real, g: real, b: real)

  /** All fields of a sand particle. */
  datatype SandState = SandState(
    active: bool, scale: real, params: Settings.Params,
    x: real, y: real, z: real, vx: real, vy: real, vz: real,
    size: real, life: real, age: real, color: Color, gravity: real)

  /** The cosine and sine of the drawn elevation angle, measured from the vertical. */
  datatype Elevation = Elevation(cos: real, sin: real)

  /** An elevation angle from pi/6 to pi/3 has both its cosine and its sine
      between 1/2 and sqrt(3)/2; the model keeps the looser bound 1. */
  predicate ValidElevation(e: Elevation) {
    0.5 <= e.cos <= 1.0 && 0.5 <= e.sin <= 1.0
  }

  /** The draws that give a trajectory, made by both `reset` and `activate`:
      the launch height above the ground before scaling, the horizontal
      heading, the elevation, the speed before scaling and the life. */
  datatype SprayDraw = SprayDraw(
    lift: real, heading: Draws.Heading, elevation: Elevation, speed: real, life: real)

  /** Draws a trajectory can come from under parameters `params`. */
  predicate ValidSpray(params: Settings.Params, d: SprayDraw) {
    && Draws.Drawn(0.05, 0.15, d.lift) && Draws.ValidHeading(d.heading)
    && ValidElevation(d.elevation)
    && Draws.Drawn(SpeedMin(params), SpeedMax(params), d.speed)
    && Draws.Drawn(LifeMin(params), LifeMax(params), d.life)
  }

  /** The draws only `reset` makes: the point size and the colour. */
  datatype LookDraw = LookDraw(size: real, color: Color)

  predicate ValidLook(look: LookDraw) {
    && Draws.Drawn(2.0, 5.0, look.size)
    && Draws.Drawn(0.6, 0.8, look.color.r)
    && Draws.Drawn(0.5, 0.7, look.color.g)
    && Draws.Drawn(0.3, 0.5, look.color.b)
  }

  /** What `update` draws if the particle expires: everything `reset` draws. */
  datatype Reseed = Reseed(spray: SprayDraw, look: LookDraw)

  function SpeedMin(params: Settings.Params): real {
    Settings.Lookup(params, Settings.SandSpeedMin, Config.DefaultSandSpeedMin)
  }

  function SpeedMax(params: Settings.Params): real {
    Settings.Lookup(params, Settings.SandSpeedMax, Config.DefaultSandSpeedMax)
  }

  function LifeMin(params: Settings.Params): real {
    Settings.Lookup(params, Settings.SandLifeMin, Config.DefaultSandLifeMin)
  }

  function LifeMax(params: Settings.Params): real {
    Settings.Lookup(params, Settings.SandLifeMax, Config.DefaultSandLifeMax)
  }

  function GravityMultiplier(params: Settings.Params): real {
    Settings.Lookup(params, Settings.SandGravityMultiplier, Config.DefaultSandGravityMultiplier)
  }

  /** The velocity of a drawn trajectory: the scaled speed split along the
      heading and the elevation. */
  function Thrown(s: SandState, d: SprayDraw): SandState {
    var speed := d.speed * s.scale;
    s.(vx := speed * d.heading.cos * d.elevation.sin,
       vz := speed * d.heading.sin * d.elevation.sin,
       vy := speed * d.elevation.cos)
  }

  /** The trajectory fields `reset` and `activate` both set: at the origin a
      little above the ground, the thrown velocity, the drawn life, zero age
      and the gravity `9.8 * multiplier * scale`. */
  function Sprayed(s: SandState, d: SprayDraw): SandState {
    Thrown(s, d).(
      x := 0.0, y := Config.GroundLevel + d.lift * s.scale, z := 0.0,
      life := d.life, age := 0.0,
      gravity := 9.8 * GravityMultiplier(s.params) * s.scale)
  }

  /** The sand particle after `reset()`, for its explosion scale and
      parameters: a fresh trajectory, size and colour, inactive. Nothing else
      of the old state survives. */
  function Rested(scale: real, params: Settings.Params, d: SprayDraw, look: LookDraw): SandState {
    var speed := d.speed * scale;
    SandState(
      false, scale, params,
      0.0, Config.GroundLevel + d.lift * scale, 0.0,
      speed * d.heading.cos * d.elevation.sin,
      speed * d.elevation.cos,
      speed * d.heading.sin * d.elevation.sin,
      look.size, d.life, 0.0, look.color,
      9.8 * GravityMultiplier(params) * scale)
  }

  /** The sand particle after `activate()`: a fresh trajectory, live, with the
      old size and colour. */
  function Launched(s: SandState, d: SprayDraw): SandState {
    Sprayed(s, d).(active := true)
  }

  /** The particle carried along by its velocity for `dt` seconds. */
  function Drifted(s: SandState, dt: real): SandState {
    s.(x := s.x + s.vx * dt, y := s.y + s.vy * dt, z := s.z + s.vz * dt)
  }

  /** One ballistic step of `dt` seconds: gravity first, then the move with the
      new upward speed; the particle ages and its life shortens by `dt`. */
  function Flown(s: SandState, dt: real): SandState {
    var pulled := s.(age := s.age + dt, vy := s.vy - s.gravity * dt);
    Drifted(pulled, dt).(life := s.life - dt)
  }

  /** The particle has run out of life or fallen more than 0.1 below the ground. */
  predicate Expired(s: SandState) {
    s.life <= 0.0 || s.y < Config.GroundLevel - 0.1
  }

  /** The sand particle after `update(dt)`; `rs` is used only if it expires. */
  function Updated(s: SandState, dt: real, rs: Reseed): SandState {
    if !s.active then s
    else
      var flown := Flown(s, dt);
      if Expired(flown) then Rested(s.scale, s.params, rs.spray, rs.look) else flown
  }

  /** The clock step of one update, and the draws of the reset should the
      particle expire in that update. */
  datatype Tick = Tick(dt: real, reseed: Reseed)

  /** The time steps of the updates `ts`. */
  function Durations(ts: seq<Tick>): seq<real> {
    seq(|ts|, i requires 0 <= i < |ts| => ts[i].dt)
  }

  /** The sand particle after one update per tick of `ts`, in order. */
  function Run(s: SandState, ts: seq<Tick>): SandState
    decreases |ts|
  {
    if ts == [] then s else Updated(Run(s, ts[..|ts| - 1]), ts[|ts| - 1].dt, ts[|ts| - 1].reseed)
  }

  /** `reset` leaves an inactive particle at the origin, 0.05 to 0.15 times the
      scale above the ground, with zero age, the drawn life between the
      configured bounds, gravity `9.8 * multiplier * scale`, a size from 2 to 5,
      a sandy colour, and the scaled drawn speed split along heading and
      elevation; scale and parameters are kept. */
  lemma RestedPose(scale: real, params: Settings.Params, d: SprayDraw, look: LookDraw)
    requires ValidSpray(params, d) && ValidLook(look)
    ensures var r := Rested(scale, params, d, look);
      && !r.active && r.scale == scale && r.params == params
      && r.x == 0.0 && r.z == 0.0 && r.y == Config.GroundLevel + d.lift * scale
      && r.age == 0.0 && Draws.Drawn(LifeMin(params), LifeMax(params), r.life)
      && r.gravity == 9.8 * GravityMultiplier(params) * scale
      && 2.0 <= r.size <= 5.0
      && 0.6 <= r.color.r <= 0.8 && 0.5 <= r.color.g <= 0.7 && 0.3 <= r.color.b <= 0.5
    ensures var r := Rested(scale, params, d, look); var speed := d.speed * scale;
      && r.vx == speed * d.heading.cos * d.elevation.sin
      && r.vz == speed * d.heading.sin * d.elevation.sin
      && r.vy == speed * d.elevation.cos
  {
  }

  /** The launch height `reset` and `activate` give lies between `0.05 * scale`
      and `0.15 * scale` above the ground for a non-negative scale. */
  lemma SprayedHeight(s: SandState, d: SprayDraw)
    requires ValidSpray(s.params, d) && s.scale >= 0.0
    ensures Config.GroundLevel + 0.05 * s.scale <= Sprayed(s, d).y <= Config.GroundLevel + 0.15 * s.scale
  {
    assert Sprayed(s, d).y == Config.GroundLevel + d.lift * s.scale;
    Draws.ScaledBounds(0.05, d.lift, 0.15, s.scale);
    assert 0.05 * s.scale <= d.lift * s.scale <= 0.15 * s.scale;
  }

  /** With a non-negative scale and speed bounds that are not negative, the
      particle is thrown upwards: its upward speed is not negative. */
  lemma SprayedUpwards(s: SandState, d: SprayDraw)
    requires ValidSpray(s.params, d) && s.scale >= 0.0
    requires SpeedMin(s.params) >= 0.0 && SpeedMax(s.params) >= 0.0
    ensures Sprayed(s, d).vy >= 0.0
  {
    assert Sprayed(s, d).vy == d.speed * s.scale * d.elevation.cos;
    Draws.ProductNonnegative(d.speed, s.scale);
    Draws.ProductNonnegative(d.speed * s.scale, d.elevation.cos);
  }

  /** `reset` is the shared trajectory with a fresh size and colour, made
      inactive: whatever the old state, only its scale and parameters matter. */
  lemma RestIsSprayed(s: SandState, d: SprayDraw, look: LookDraw)
    ensures Rested(s.scale, s.params, d, look) == Sprayed(s, d).(size := look.size, color := look.color, active := false)
  {
    var l := Sprayed(s, d);
    var r := Rested(s.scale, s.params, d, look);
    assert l.vx == r.vx && l.vy == r.vy && l.vz == r.vz;
    assert l.y == r.y && l.gravity == r.gravity;
  }

  /** `activate` gives exactly the trajectory `reset` would give for the same
      draws, makes the particle live, and keeps its size and colour. */
  lemma LaunchMatchesRest(s: SandState, d: SprayDraw, look: LookDraw)
    ensures var l := Launched(s, d);
      && l.active && l.size == s.size && l.color == s.color
      && l.(active := false, size := look.size, color := look.color) == Rested(s.scale, s.params, d, look)
  {
    RestIsSprayed(s, d, look);
  }

  /** An update of an inactive particle changes nothing, and no update ever
      makes a particle active. */
  lemma UpdateNeverActivates(s: SandState, dt: real, rs: Reseed)
    ensures !s.active ==> Updated(s, dt, rs) == s
    ensures Updated(s, dt, rs).active ==> s.active
  {
  }

  /** An active update that does not expire applies gravity before moving: the
      upward speed drops by `gravity * dt` and the height changes by the new
      upward speed times `dt`, while the horizontal position moves by the
      unchanged horizontal speed; age grows and life shrinks by `dt`, and the
      gravity, size and colour stay. */
  lemma UpdateFlight(s: SandState, dt: real, rs: Reseed)
    requires s.active && !Expired(Flown(s, dt))
    ensures var r := Updated(s, dt, rs); var vy := s.vy - s.gravity * dt;
      && r.active && r.vy == vy && r.y == s.y + vy * dt
      && r.x == s.x + s.vx * dt && r.z == s.z + s.vz * dt
      && r.vx == s.vx && r.vz == s.vz
      && r.age == s.age + dt && r.life == s.life - dt
      && r.gravity == s.gravity && r.size == s.size && r.color == s.color
      && r.scale == s.scale && r.params == s.params
  {
  }

  /** An active update ends with an inactive particle exactly when the step
      leaves its life at most zero or its height more than 0.1 below the
      ground, and the particle then holds the trajectory, size and colour of
      the reseed draws. */
  lemma UpdateExpiry(s: SandState, dt: real, rs: Reseed)
    requires s.active
    ensures var r := Updated(s, dt, rs); var life := s.life - dt;
      var y := s.y + (s.vy - s.gravity * dt) * dt;
      && (!r.active <==> life <= 0.0 || y < Config.GroundLevel - 0.1)
      && (!r.active ==> r == Rested(s.scale, s.params, rs.spray, rs.look))
  {
  }

  /** The time of a run is the time of all but its last update plus the last step. */
  lemma {:induction false} DurationsPrefix(ts: seq<Tick>)
    requires ts != []
    ensures Steps.Sum(Durations(ts)) == Steps.Sum(Durations(ts[..|ts| - 1])) + ts[|ts| - 1].dt
  {
    assert Durations(ts[..|ts| - 1]) == Durations(ts)[..|ts| - 1];
  }

  /** A run keeps the scale and the parameters, never activates an inactive
      particle, and leaves an inactive particle exactly as it is: once expired,
      a sand particle waits for the next `activate`. */
  lemma {:induction false} RunInvariants(s: SandState, ts: seq<Tick>)
    ensures Run(s, ts).scale == s.scale && Run(s, ts).params == s.params
    ensures !s.active ==> Run(s, ts) == s
    ensures Run(s, ts).active ==> s.active
    decreases |ts|
  {
    if ts != [] {
      RunInvariants(s, ts[..|ts| - 1]);
    }
  }

  /** While a particle stays active its life has dropped by the time of the
      updates so far. */
  lemma {:induction false} FlightLife(s: SandState, ts: seq<Tick>)
    ensures Run(s, ts).active ==> Run(s, ts).life == s.life - Steps.Sum(Durations(ts))
    decreases |ts|
  {
    if ts != [] {
      var prefix := ts[..|ts| - 1];
      FlightLife(s, prefix);
      UpdateNeverActivates(Run(s, prefix), ts[|ts| - 1].dt, ts[|ts| - 1].reseed);
      DurationsPrefix(ts);
    }
  }

  /** Every spray dies out: after at least one update, and updates whose time
      steps add up to at least the particle's life, it is inactive. */
  lemma {:induction false} SprayDiesOut(s: SandState, ts: seq<Tick>)
    requires ts != [] && Steps.Sum(Durations(ts)) >= s.life
    ensures !Run(s, ts).active
  {
    FlightLife(s, ts);
    var p := Run(s, ts[..|ts| - 1]);
    UpdateNeverActivates(p, ts[|ts| - 1].dt, ts[|ts| - 1].reseed);
  }

  /** The sand particle object; `reset`, `activate` and `update` overwrite its
      fields in place. */
  class SandParticle {
    var active: bool
    var explosionScale: real
    var params: Settings.Params
    var x: real
    var y: real
    var z: real
    var vx: real
    var vy: real
    var vz: real
    var size: real
    var life: real
    var age: real
    var color: Color
    var gravity: real

    function State(): SandState
      reads this
    {
      SandState(active, explosionScale, params, x, y, z, vx, vy, vz, size, life, age, color, gravity)
    }

    constructor (initialScale: real, params: Settings.Params, d: SprayDraw, look: LookDraw)
      ensures State() == Rested(initialScale, params, d, look)
    {
      active := false;
      explosionScale := initialScale;
      this.params := params;
      new;
      Reset(d, look);
    }

    method Reset(d: SprayDraw, look: LookDraw)
      modifies this
      ensures State() == Rested(old(explosionScale), old(params), d, look)
    {
      RestIsSprayed(State(), d, look);
      Spray(d);
      size := look.size;
      active := false;
      color := look.color;
    }

    method Activate(d: SprayDraw)
      modifies this
      ensures State() == Launched(old(State()), d)
    {
      Spray(d);
      active := true;
    }

    /** The trajectory statements `reset` and `activate` share. */
    method Spray(d: SprayDraw)
      modifies this
      ensures State() == Sprayed(old(State()), d)
    {
      x := 0.0;
      y := Config.GroundLevel + d.lift * explosionScale;
      z := 0.0;
      Throw(d);
      Refresh(d);
    }

    /** The life, age and gravity part of `Spray`. */
    method Refresh(d: SprayDraw)
      modifies this
      ensures State() == old(State()).(life := d.life, age := 0.0,
        gravity := 9.8 * GravityMultiplier(old(params)) * old(explosionScale))
    {
      life := d.life;
      age := 0.0;
      var multiplier := Settings.Lookup(params, Settings.SandGravityMultiplier, Config.DefaultSandGravityMultiplier);
      gravity := 9.8 * multiplier * explosionScale;
    }

    /** The velocity part of `Spray`. */
    method Throw(d: SprayDraw)
      modifies this
      ensures State() == Thrown(old(State()), d)
    {
      var speed := d.speed * explosionScale;
      vx := speed * d.heading.cos * d.elevation.sin;
      vz := speed * d.heading.sin * d.elevation.sin;
      vy := speed * d.elevation.cos;
    }

    method Update(dt: real, rs: Reseed)
      modifies this
      ensures State() == Updated(old(State()), dt, rs)
    {
      if !active {
        return;
      }
      Fly(dt);
      if life <= 0.0 || y < Config.GroundLevel - 0.1 {
        active := false;
        Reset(rs.spray, rs.look);
      }
    }

    /** The ballistic part of `update`. */
    method Fly(dt: real)
      modifies this
      ensures State() == Flown(old(State()), dt)
    {
      age := age + dt;
      vy := vy - gravity * dt;
      Drift(dt);
      life := life - dt;
    }

    /** The position part of `Fly`. */
    method Drift(dt: real)
      modifies this
      ensures State() == Drifted(old(State()), dt)
    {
      x := x + vx * dt;
      y := y + vy * dt;
      z := z + vz * dt;
    }
  }
}
