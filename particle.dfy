/** The cloud particle: launched as part of a rising stem, it switches once to
    a settling cloud phase and retires for good when its life runs out or it
    sinks below the ground. */
module Particles {
  import Config
  import Draws
  import Settings
  import Steps

  datatype Phase = Stem | Cloud

  /** All fields of a particle. */
  datatype ParticleState = ParticleState(
    active: bool, scale: real, params: Settings.Params, phase: Phase,
    x: real, y: real, z: real, vx: real, vy: real, vz: real,
    size: real, life: real, age: real)

  /** The draws `reset` and `activate` make: the heading of the small horizontal
      jitter, its speed before scaling, the upward speed before scaling and the
      point size. */
  datatype LaunchDraw = LaunchDraw(heading: Draws.Heading, radius: real, rise: real, size: real)

  /** Draws `reset` can make. */
  predicate ValidRest(d: LaunchDraw) {
    Draws.ValidHeading(d.heading) && Draws.Drawn(0.0, 0.2, d.radius)
    && Draws.Drawn(1.0, 1.3, d.rise) && Draws.Drawn(12.0, 20.0, d.size)
  }

  /** Draws `activate` can make. */
  predicate ValidLaunch(d: LaunchDraw) {
    Draws.ValidHeading(d.heading) && Draws.Drawn(0.005, 0.02, d.radius)
    && Draws.Drawn(1.5, 2.0, d.rise) && Draws.Drawn(12.0, 20.0, d.size)
  }

  /** The draws of the switch to the cloud phase: the heading of the horizontal
      spread, its speed and the lift, both before scaling. */
  datatype BloomDraw = BloomDraw(heading: Draws.Heading, spread: real, lift: real)

  /** Draws the switch to the cloud phase can make under parameters `params`. */
  predicate ValidBloom(params: Settings.Params, b: BloomDraw) {
    Draws.ValidHeading(b.heading) && Draws.Drawn(SpreadMin(params), SpreadMax(params), b.spread)
    && Draws.Drawn(LiftMin(params), LiftMax(params), b.lift)
  }

  function LifeMultiplier(params: Settings.Params): real {
    Settings.Lookup(params, Settings.ParticleLifeMultiplier, Config.DefaultParticleLifeMultiplier)
  }

  function SpreadMin(params: Settings.Params): real {
    Settings.Lookup(params, Settings.CloudSpreadSpeedMin, Config.DefaultCloudSpreadSpeedMin)
  }

  function SpreadMax(params: Settings.Params): real {
    Settings.Lookup(params, Settings.CloudSpreadSpeedMax, Config.DefaultCloudSpreadSpeedMax)
  }

  function LiftMin(params: Settings.Params): real {
    Settings.Lookup(params, Settings.CloudInitialLiftMin, Config.DefaultCloudInitialLiftMin)
  }

  function LiftMax(params: Settings.Params): real {
    Settings.Lookup(params, Settings.CloudInitialLiftMax, Config.DefaultCloudInitialLiftMax)
  }

  function CloudGravity(params: Settings.Params): real {
    Settings.Lookup(params, Settings.CloudGravity, Config.DefaultCloudGravity)
  }

  function AirResistance(params: Settings.Params): real {
    Settings.Lookup(params, Settings.CloudAirResistance, Config.DefaultCloudAirResistance)
  }

  /** The pose `reset` and `activate` both give: the stem phase at the origin on
      the ground, a horizontal jitter of the drawn radius times the scale along
      the drawn heading, the drawn rise times the scale as upward speed, and the
      drawn size. */
  function Placed(s: ParticleState, d: LaunchDraw): ParticleState {
    Aimed(s.(phase := Stem, x := 0.0, y := Config.GroundLevel, z := 0.0), d)
  }

  /** The launch velocity and size of `Placed`. */
  function Aimed(s: ParticleState, d: LaunchDraw): ParticleState {
    var radius := d.radius * s.scale;
    s.(vx := radius * d.heading.cos, vz := radius * d.heading.sin,
       vy := d.rise * s.scale, size := d.size)
  }

  /** The particle after `reset()`, for its explosion scale and parameters: a
      dormant stem-like pose on the ground. Nothing else of the old state survives. */
  function Rested(scale: real, params: Settings.Params, d: LaunchDraw): ParticleState {
    var radius := d.radius * scale;
    ParticleState(
      false, scale, params, Stem,
      0.0, Config.GroundLevel, 0.0,
      radius * d.heading.cos, d.rise * scale, radius * d.heading.sin,
      d.size,
      1.5 + (scale - 1.0) * (LifeMultiplier(params) / 2.0),
      0.0)
  }

  /** The particle after `activate()`: a live stem launch from the ground. */
  function Launched(scale: real, params: Settings.Params, d: LaunchDraw): ParticleState {
    var radius := d.radius * scale;
    ParticleState(
      true, scale, params, Stem,
      0.0, Config.GroundLevel, 0.0,
      radius * d.heading.cos, d.rise * scale, radius * d.heading.sin,
      d.size,
      4.0 + (scale - 1.0) * LifeMultiplier(params),
      0.0)
  }

  /** The switch to the cloud phase: a fresh horizontal spread and lift. */
  function Bloomed(s: ParticleState, b: BloomDraw): ParticleState {
    var speed := b.spread * s.scale;
    s.(phase := Cloud,
       vx := speed * b.heading.cos,
       vz := speed * b.heading.sin,
       vy := b.lift * s.scale)
  }

  /** How much the upward speed of a stem particle drops in one update of
      `dt` seconds at explosion scale `scale`. */
  function Braking(dt: real, scale: real): real {
    0.8 * dt * scale
  }

  /** The particle carried along by its velocity for `dt` seconds. */
  function Drifted(s: ParticleState, dt: real): ParticleState {
    s.(x := s.x + s.vx * dt, y := s.y + s.vy * dt, z := s.z + s.vz * dt)
  }

  /** One stem-phase integration step, including the switch to cloud. */
  function StemMoved(s: ParticleState, dt: real, b: BloomDraw): ParticleState {
    var moved := Drifted(s, dt).(vy := s.vy - Braking(dt, s.scale));
    if moved.vy <= 0.01 * s.scale then Bloomed(moved, b) else moved
  }

  /** One cloud-phase integration step: gravity on the vertical speed and air
      resistance on both horizontal speeds. */
  function CloudMoved(s: ParticleState, dt: real): ParticleState {
    var drag := 1.0 - AirResistance(s.params) * dt;
    Drifted(s, dt).(vy := s.vy - CloudGravity(s.params) * dt * s.scale,
                    vx := s.vx * drag, vz := s.vz * drag)
  }

  /** The particle after `update(dt)`; `b` is used only if the stem turns into cloud. */
  function Updated(s: ParticleState, dt: real, b: BloomDraw): ParticleState {
    if !s.active then s
    else
      var aged := s.(age := s.age + dt);
      var moved := if s.phase == Stem then StemMoved(aged, dt, b) else CloudMoved(aged, dt);
      var life := moved.life - dt;
      moved.(life := life, active := !(life <= 0.0 || moved.y < Config.GroundLevel - 0.2))
  }

  /** The clock step of one update, and the draws of the switch to cloud
      should it happen in that update. */
  datatype Tick = Tick(dt: real, bloom: BloomDraw)

  /** The time steps of the updates `ts`. */
  function Durations(ts: seq<Tick>): seq<real> {
    seq(|ts|, i requires 0 <= i < |ts| => ts[i].dt)
  }

  /** The particle after one update per tick of `ts`, in order. */
  function Run(s: ParticleState, ts: seq<Tick>): ParticleState
    decreases |ts|
  {
    if ts == [] then s else Updated(Run(s, ts[..|ts| - 1]), ts[|ts| - 1].dt, ts[|ts| - 1].bloom)
  }

  /** While in the stem phase the particle still climbs faster than the bloom threshold. */
  predicate Rising(s: ParticleState) {
    s.phase == Stem ==> s.vy > 0.01 * s.scale
  }

  /** `reset` leaves a dormant particle in the stem phase on the ground at the
      origin, with zero age and life `1.5 + (scale - 1) * (multiplier / 2)`, keeping
      its scale and parameters, with a point size from 12 to 20 and an upward
      speed of the drawn rise times the scale. */
  lemma RestedPose(scale: real, params: Settings.Params, d: LaunchDraw)
    requires ValidRest(d)
    ensures var r := Rested(scale, params, d);
      && !r.active && r.phase == Stem && r.scale == scale && r.params == params
      && r.x == 0.0 && r.y == Config.GroundLevel && r.z == 0.0 && r.age == 0.0
      && r.life == 1.5 + (scale - 1.0) * (LifeMultiplier(params) / 2.0)
      && 12.0 <= r.size <= 20.0
    ensures Rested(scale, params, d).vy == d.rise * scale
  {
  }

  /** The upward speed `reset` gives lies between `1.0 * scale` and `1.3 * scale`
      for a non-negative scale. */
  lemma RestedRises(scale: real, params: Settings.Params, d: LaunchDraw)
    requires ValidRest(d) && scale >= 0.0
    ensures 1.0 * scale <= Rested(scale, params, d).vy <= 1.3 * scale
  {
    assert Rested(scale, params, d).vy == d.rise * scale;
    Draws.ScaledBounds(1.0, d.rise, 1.3, scale);
    assert 1.0 * scale <= d.rise * scale <= 1.3 * scale;
  }

  /** `activate` leaves a live particle in the stem phase on the ground at the
      origin, with zero age and life `4.0 + (scale - 1) * multiplier`, keeping its
      scale and parameters, with a point size from 12 to 20 and an upward speed
      of the drawn rise times the scale. */
  lemma LaunchedPose(scale: real, params: Settings.Params, d: LaunchDraw)
    requires ValidLaunch(d)
    ensures var r := Launched(scale, params, d);
      && r.active && r.phase == Stem && r.scale == scale && r.params == params
      && r.x == 0.0 && r.y == Config.GroundLevel && r.z == 0.0 && r.age == 0.0
      && r.life == 4.0 + (scale - 1.0) * LifeMultiplier(params)
      && 12.0 <= r.size <= 20.0
    ensures Launched(scale, params, d).vy == d.rise * scale
  {
  }

  /** The upward speed `activate` gives lies between `1.5 * scale` and `2.0 * scale`
      for a non-negative scale. */
  lemma LaunchedRises(scale: real, params: Settings.Params, d: LaunchDraw)
    requires ValidLaunch(d) && scale >= 0.0
    ensures 1.5 * scale <= Launched(scale, params, d).vy <= 2.0 * scale
  {
    assert Launched(scale, params, d).vy == d.rise * scale;
    Draws.ScaledBounds(1.5, d.rise, 2.0, scale);
    assert 1.5 * scale <= d.rise * scale <= 2.0 * scale;
  }

  /** Activation is the reset pose made live, with a narrower jitter and a
      faster climb: position, phase, age, scale and parameters agree. */
  lemma LaunchMatchesRest(scale: real, params: Settings.Params, d: LaunchDraw)
    ensures var r := Rested(scale, params, d); var l := Launched(scale, params, d);
      && l.active && !r.active
      && l.phase == r.phase && l.x == r.x && l.y == r.y && l.z == r.z && l.age == r.age
      && l.scale == r.scale && l.params == r.params && l.size == r.size
  {
  }

  /** `reset` and `activate` are the shared pose of `Placed` followed by their
      own life, a zero age and the flag: whatever the old state, only its scale
      and parameters matter. */
  lemma RestAndLaunchArePlaced(s: ParticleState, d: LaunchDraw)
    ensures Rested(s.scale, s.params, d) ==
      Placed(s, d).(life := 1.5 + (s.scale - 1.0) * (LifeMultiplier(s.params) / 2.0), age := 0.0, active := false)
    ensures Launched(s.scale, s.params, d) ==
      Placed(s, d).(life := 4.0 + (s.scale - 1.0) * LifeMultiplier(s.params), age := 0.0, active := true)
  {
  }

  /** An update of an inactive particle changes nothing, and no update ever
      makes a particle active. */
  lemma UpdateNeverActivates(s: ParticleState, dt: real, b: BloomDraw)
    ensures !s.active ==> Updated(s, dt, b) == s
    ensures Updated(s, dt, b).active ==> s.active
  {
  }

  /** An active update ages the particle by `dt`, takes `dt` off its life, keeps
      its scale, parameters and size, and retires it exactly when the new life is
      at most zero or the new height is more than 0.2 below the ground. */
  lemma UpdateLifetime(s: ParticleState, dt: real, b: BloomDraw)
    requires s.active
    ensures var r := Updated(s, dt, b);
      && r.age == s.age + dt && r.life == s.life - dt
      && r.scale == s.scale && r.params == s.params && r.size == s.size
      && (!r.active <==> r.life <= 0.0 || r.y < Config.GroundLevel - 0.2)
  {
  }

  /** In the stem phase the particle moves by its velocity, its upward speed
      drops by `0.8 * dt * scale`, and it turns into cloud exactly when that new
      speed is at most `0.01 * scale`; it then gets the drawn lift (times scale)
      as upward speed and the drawn spread speed (times scale) along the drawn
      heading as horizontal speed. */
  lemma UpdateStem(s: ParticleState, dt: real, b: BloomDraw)
    requires s.active && s.phase == Stem
    ensures var r := Updated(s, dt, b); var vy := s.vy - Braking(dt, s.scale);
      && r.x == s.x + s.vx * dt && r.y == s.y + s.vy * dt && r.z == s.z + s.vz * dt
      && (r.phase == Cloud <==> vy <= 0.01 * s.scale)
      && (r.phase == Stem ==> r.vy == vy && r.vx == s.vx && r.vz == s.vz)
      && (r.phase == Cloud ==>
            && r.vy == b.lift * s.scale
            && r.vx == b.spread * s.scale * b.heading.cos
            && r.vz == b.spread * s.scale * b.heading.sin)
  {
  }

  /** The upward speed at the switch to cloud lies between the configured lift
      bounds times the scale, when the bounds are in order and the scale is
      not negative. */
  lemma BloomLift(s: ParticleState, dt: real, b: BloomDraw)
    requires s.active && s.phase == Stem && ValidBloom(s.params, b)
    requires LiftMin(s.params) <= LiftMax(s.params) && s.scale >= 0.0
    ensures var r := Updated(s, dt, b);
      r.phase == Cloud ==> LiftMin(s.params) * s.scale <= r.vy <= LiftMax(s.params) * s.scale
  {
    Draws.ScaledBounds(LiftMin(s.params), b.lift, LiftMax(s.params), s.scale);
  }

  /** In the cloud phase the particle moves by its velocity, gravity takes
      `g * dt * scale` off the upward speed and air resistance scales both
      horizontal speeds by `1 - r * dt`. */
  lemma UpdateCloud(s: ParticleState, dt: real, b: BloomDraw)
    requires s.active && s.phase == Cloud
    ensures var r := Updated(s, dt, b);
      && r.phase == Cloud
      && r.x == s.x + s.vx * dt && r.y == s.y + s.vy * dt && r.z == s.z + s.vz * dt
      && r.vy == s.vy - CloudGravity(s.params) * dt * s.scale
      && r.vx == s.vx * (1.0 - AirResistance(s.params) * dt)
      && r.vz == s.vz * (1.0 - AirResistance(s.params) * dt)
  {
  }

  /** The phase only ever moves from stem to cloud. */
  lemma UpdatePhaseOneWay(s: ParticleState, dt: real, b: BloomDraw)
    ensures s.phase == Cloud ==> Updated(s, dt, b).phase == Cloud
    ensures Updated(s, dt, b).phase == Stem ==> s.phase == Stem
  {
  }

  /** Updates keep a particle rising, and a rising stem particle climbs strictly
      at every update with a positive time step and a positive scale. */
  lemma UpdateRises(s: ParticleState, dt: real, b: BloomDraw)
    ensures Rising(s) ==> Rising(Updated(s, dt, b))
    ensures s.active && s.phase == Stem && Rising(s) && dt > 0.0 && s.scale > 0.0 ==>
      Updated(s, dt, b).y > s.y
  {
    if s.active && s.phase == Stem && Rising(s) && dt > 0.0 && s.scale > 0.0 {
      assert s.vy * dt > 0.0 by {
        Draws.ProductNonnegative(s.vy - 0.01 * s.scale, dt);
        Draws.ProductNonnegative(0.01 * s.scale, dt);
        assert 0.01 * s.scale * dt > 0.0;
      }
    }
  }

  /** The time of a run is the time of all but its last update plus the last step. */
  lemma {:induction false} DurationsPrefix(ts: seq<Tick>)
    requires ts != []
    ensures Durations(ts[..|ts| - 1]) == Durations(ts)[..|ts| - 1]
    ensures Steps.Sum(Durations(ts)) == Steps.Sum(Durations(ts[..|ts| - 1])) + ts[|ts| - 1].dt
  {
    assert Durations(ts[..|ts| - 1]) == Durations(ts)[..|ts| - 1];
  }

  /** A run keeps the explosion scale and the parameters, keeps a particle
      rising, never brings a particle back from the cloud phase, and never
      activates an inactive one: an inactive particle stays exactly as it is. */
  lemma {:induction false} RunInvariants(s: ParticleState, ts: seq<Tick>)
    ensures Run(s, ts).scale == s.scale && Run(s, ts).params == s.params
    ensures Rising(s) ==> Rising(Run(s, ts))
    ensures s.phase == Cloud ==> Run(s, ts).phase == Cloud
    ensures !s.active ==> Run(s, ts) == s
    ensures Run(s, ts).active ==> s.active
    decreases |ts|
  {
    if ts != [] {
      var prefix := ts[..|ts| - 1];
      RunInvariants(s, prefix);
      UpdateRises(Run(s, prefix), ts[|ts| - 1].dt, ts[|ts| - 1].bloom);
    }
  }

  /** The last update of a run that ends with an active stem was applied to an
      active stem, and took exactly `0.8 * dt * scale` off its upward speed and
      `dt` off its life, for that update's step `dt`. */
  lemma {:induction false} RunStemStep(s: ParticleState, ts: seq<Tick>)
    requires ts != []
    ensures var p := Run(s, ts[..|ts| - 1]); var r := Run(s, ts); var dt := ts[|ts| - 1].dt;
      r.active && r.phase == Stem ==>
        && p.active && p.phase == Stem && r.scale == p.scale
        && r.vy == p.vy - Braking(dt, p.scale) && r.life == p.life - dt
  {
  }

  /** The braking over two spans of time is the sum of the braking over each. */
  lemma BrakingAdds(t: real, dt: real, scale: real)
    ensures Braking(t + dt, scale) == Braking(t, scale) + Braking(dt, scale)
  {
    assert 0.8 * (t + dt) == 0.8 * t + 0.8 * dt;
    assert (0.8 * t + 0.8 * dt) * scale == 0.8 * t * scale + 0.8 * dt * scale;
  }

  /** While a particle is still an active stem, its history is known exactly:
      after updates taking time `t` in all, its upward speed has dropped by
      `0.8 * t * scale` and its life by `t`. */
  lemma {:induction false} StemHistory(s: ParticleState, ts: seq<Tick>)
    requires s.active && s.phase == Stem
    ensures var r := Run(s, ts); var t := Steps.Sum(Durations(ts));
      r.active && r.phase == Stem ==>
        && r.vy == s.vy - Braking(t, s.scale)
        && r.life == s.life - t
    decreases |ts|
  {
    if ts != [] {
      var prefix := ts[..|ts| - 1];
      var dt := ts[|ts| - 1].dt;
      var r := Run(s, ts);
      if r.active && r.phase == Stem {
        var p := Run(s, prefix);
        RunStemStep(s, ts);
        StemHistory(s, prefix);
        RunInvariants(s, prefix);
        DurationsPrefix(ts);
        var t := Steps.Sum(Durations(prefix));
        assert p.vy == s.vy - Braking(t, s.scale) && p.life == s.life - t;
        assert r.vy == p.vy - Braking(dt, s.scale) && r.life == p.life - dt;
        BrakingAdds(t, dt, s.scale);
        assert Steps.Sum(Durations(ts)) == t + dt;
      }
    }
  }

  /** A rising particle that is still a stem, with positive time steps and
      scale, has not come down below where it started. */
  lemma {:induction false} StemClimbs(s: ParticleState, ts: seq<Tick>)
    requires s.phase == Stem && Rising(s) && Steps.Positive(Durations(ts)) && s.scale > 0.0
    ensures Run(s, ts).phase == Stem ==> Run(s, ts).y >= s.y
    decreases |ts|
  {
    if ts != [] {
      var prefix := ts[..|ts| - 1];
      var last := ts[|ts| - 1];
      DurationsPrefix(ts);
      assert last.dt == Durations(ts)[|ts| - 1];
      StemClimbs(s, prefix);
      RunInvariants(s, prefix);
      var p := Run(s, prefix);
      UpdatePhaseOneWay(p, last.dt, last.bloom);
      UpdateRises(p, last.dt, last.bloom);
      UpdateNeverActivates(p, last.dt, last.bloom);
    }
  }

  /** A rising stem particle whose life outlasts the time of a run with
      positive steps, and which starts no more than 0.2 below the ground, is
      at the end of the run still alive or already a cloud: with a positive
      scale it can neither run out of life nor sink while it is a stem. */
  lemma {:induction false} StemSurvives(s: ParticleState, ts: seq<Tick>)
    requires s.active && s.phase == Stem && Rising(s) && Steps.Positive(Durations(ts)) && s.scale > 0.0
    requires s.y >= Config.GroundLevel - 0.2
    requires s.life > Steps.Sum(Durations(ts))
    ensures Run(s, ts).active || Run(s, ts).phase == Cloud
    decreases |ts|
  {
    if ts != [] {
      var prefix := ts[..|ts| - 1];
      var last := ts[|ts| - 1];
      DurationsPrefix(ts);
      assert last.dt == Durations(ts)[|ts| - 1];
      StemSurvives(s, prefix);
      var p := Run(s, prefix);
      UpdatePhaseOneWay(p, last.dt, last.bloom);
      if p.active && p.phase == Stem {
        StemHistory(s, prefix);
        StemClimbs(s, prefix);
        RunInvariants(s, prefix);
        UpdateRises(p, last.dt, last.bloom);
        UpdateLifetime(p, last.dt, last.bloom);
      }
    }
  }

  /** A rising stem particle given enough time (`0.8 * t * scale` at least
      its upward speed above the threshold) has by then turned into cloud,
      unless it retired first. */
  lemma {:induction false} StemBlooms(s: ParticleState, ts: seq<Tick>)
    requires s.active && s.phase == Stem && Rising(s)
    requires Braking(Steps.Sum(Durations(ts)), s.scale) >= s.vy - 0.01 * s.scale
    ensures Run(s, ts).phase == Cloud || !Run(s, ts).active
  {
    StemHistory(s, ts);
    RunInvariants(s, ts);
  }

  /** With positive time steps and scale, a rising stem particle is strictly
      higher than where it started at the update where it turns into cloud. */
  lemma {:induction false} BloomAboveStart(s: ParticleState, ts: seq<Tick>)
    requires s.active && s.phase == Stem && Rising(s) && Steps.Positive(Durations(ts)) && s.scale > 0.0
    requires |ts| > 0 && Run(s, ts[..|ts| - 1]).phase == Stem
    ensures Run(s, ts).phase == Cloud ==> Run(s, ts).y > s.y
  {
    var prefix := ts[..|ts| - 1];
    var last := ts[|ts| - 1];
    var p := Run(s, prefix);
    DurationsPrefix(ts);
    assert last.dt == Durations(ts)[|ts| - 1];
    StemClimbs(s, prefix);
    RunInvariants(s, prefix);
    UpdateRises(p, last.dt, last.bloom);
  }

  /** The launch scenario at explosion scale 1 and a steady 60 updates per
      second: within 150 updates a freshly activated particle has turned into
      cloud (its life of 4 seconds outlasts the 2.5 seconds this takes, and it
      keeps climbing), whatever the configured parameters and cloud draws. */
  lemma {:induction false} ScenarioBloomsWithin150Frames(params: Settings.Params, d: LaunchDraw, ts: seq<Tick>)
    requires ValidLaunch(d) && |ts| == 150
    requires forall i :: 0 <= i < |ts| ==> ts[i].dt == 1.0 / 60.0
    ensures Run(Launched(1.0, params, d), ts).phase == Cloud
  {
    var s := Launched(1.0, params, d);
    LaunchedPose(1.0, params, d);
    LaunchedRises(1.0, params, d);
    assert Rising(s);
    Steps.SumOfEqualSteps(Durations(ts), 1.0 / 60.0);
    assert Steps.Sum(Durations(ts)) == 2.5;
    StemBlooms(s, ts);
    StemSurvives(s, ts);
  }

  /** The particle object; `reset`, `activate` and `update` overwrite its fields in place. */
  class Particle {
    var active: bool
    var explosionScale: real
    var params: Settings.Params
    var phase: Phase
    var x: real
    var y: real
    var z: real
    var vx: real
    var vy: real
    var vz: real
    var size: real
    var life: real
    var age: real

    function State(): ParticleState
      reads this
    {
      ParticleState(active, explosionScale, params, phase, x, y, z, vx, vy, vz, size, life, age)
    }

    constructor (initialScale: real, params: Settings.Params, d: LaunchDraw)
      ensures State() == Rested(initialScale, params, d)
    {
      active := false;
      explosionScale := initialScale;
      this.params := params;
      new;
      Reset(d);
    }

    method Reset(d: LaunchDraw)
      modifies this
      ensures State() == Rested(old(explosionScale), old(params), d)
    {
      Place(d);
      var multiplier := Settings.Lookup(params, Settings.ParticleLifeMultiplier, Config.DefaultParticleLifeMultiplier);
      life := 1.5 + (explosionScale - 1.0) * (multiplier / 2.0);
      age := 0.0;
      active := false;
    }

    method Activate(d: LaunchDraw)
      modifies this
      ensures State() == Launched(old(explosionScale), old(params), d)
    {
      Place(d);
      var multiplier := Settings.Lookup(params, Settings.ParticleLifeMultiplier, Config.DefaultParticleLifeMultiplier);
      life := 4.0 + (explosionScale - 1.0) * multiplier;
      age := 0.0;
      active := true;
    }

    /** The statements `reset` and `activate` share: back to the stem phase at
        the origin on the ground, with the drawn jitter, rise and size. */
    method Place(d: LaunchDraw)
      modifies this
      ensures State() == Placed(old(State()), d)
    {
      phase := Stem;
      x := 0.0;
      y := Config.GroundLevel;
      z := 0.0;
      Aim(d);
    }

    /** The launch velocity and size part of `Place`. */
    method Aim(d: LaunchDraw)
      modifies this
      ensures State() == Aimed(old(State()), d)
    {
      var radius := d.radius * explosionScale;
      vx := radius * d.heading.cos;
      vz := radius * d.heading.sin;
      vy := d.rise * explosionScale;
      size := d.size;
    }

    method Update(dt: real, b: BloomDraw)
      modifies this
      ensures State() == Updated(old(State()), dt, b)
    {
      if !active {
        return;
      }
      age := age + dt;
      if phase == Stem {
        MoveStem(dt, b);
      } else {
        MoveCloud(dt);
      }
      life := life - dt;
      if life <= 0.0 || y < Config.GroundLevel - 0.2 {
        active := false;
      }
    }

    /** The stem branch of `update`: rise, slow down, and possibly turn into cloud. */
    method MoveStem(dt: real, b: BloomDraw)
      modifies this
      ensures State() == StemMoved(old(State()), dt, b)
    {
      Drift(dt);
      vy := vy - 0.8 * dt * explosionScale;
      if vy <= 0.01 * explosionScale {
        Bloom(b);
      }
    }

    /** The switch to the cloud phase inside the stem branch of `update`. */
    method Bloom(b: BloomDraw)
      modifies this
      ensures State() == Bloomed(old(State()), b)
    {
      phase := Cloud;
      var speed := b.spread * explosionScale;
      vx := speed * b.heading.cos;
      vz := speed * b.heading.sin;
      vy := b.lift * explosionScale;
    }

    /** The cloud branch of `update`: drift, gravity and air resistance. */
    method MoveCloud(dt: real)
      modifies this
      ensures State() == CloudMoved(old(State()), dt)
    {
      Drift(dt);
      var gravity := Settings.Lookup(params, Settings.CloudGravity, Config.DefaultCloudGravity);
      vy := vy - gravity * dt * explosionScale;
      var resistance := Settings.Lookup(params, Settings.CloudAirResistance, Config.DefaultCloudAirResistance);
      vx := vx * (1.0 - resistance * dt);
      vz := vz * (1.0 - resistance * dt);
    }

    /** The position update both branches of `update` begin with. */
    method Drift(dt: real)
      modifies this
      ensures State() == Drifted(old(State()), dt)
    {
      x := x + vx * dt;
      y := y + vy * dt;
      z := z + vz * dt;
    }
  }
}
