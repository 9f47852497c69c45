/** The controller: the settings, the explosion scale, the bomb, the ring, the
    two particle pools and the two latches that make each pool's activation
    happen once per explosion; one simulation step per frame, and the reset
    the reset button triggers. */
module MushroomExplosion {
  import Config
  import Settings
  import Bombs
  import Shockwaves
  import Particles
  import SandParticles

  /** The draws one frame hands to one cloud particle: those of `activate`, if
      it is activated, and those of the switch to cloud, if it happens. */
  datatype ParticleDraw = ParticleDraw(launch: Particles.LaunchDraw, bloom: Particles.BloomDraw)

  /** The draws one frame hands to one sand particle: those of `activate`, if
      it is activated, and those of `reset`, if it expires. */
  datatype SandDraw = SandDraw(spray: SandParticles.SprayDraw, reseed: SandParticles.Reseed)

  /** What one frame brings from outside: the clock's time step and the draws
      of every pool member, in pool order. */
  datatype Frame = Frame(dt: real, particles: seq<ParticleDraw>, sands: seq<SandDraw>)

  /** Everything the simulation step reads and writes. */
  datatype World = World(
    bomb: Bombs.BombState, ring: Shockwaves.RingState,
    particles: seq<Particles.ParticleState>, sands: seq<SandParticles.SandState>,
    scale: real, settings: Settings.Params,
    particlesActivated: bool, sandShot: bool)

  /** The frame has draws for exactly the members of the pools. */
  predicate Fits(w: World, f: Frame) {
    |f.particles| == |w.particles| && |f.sands| == |w.sands|
  }

  /** The explosion scale the settings give, 1.0 when they have none. */
  function ScaleOf(settings: Settings.Params): real {
    Settings.Lookup(settings, Settings.ExplosionScale, Settings.DefaultExplosionScale)
  }

  /** Whether the step activates the cloud pool: the bomb is exploded after its
      update, and the latch, cleared at the top of the step unless the bomb was
      already exploded, is down. */
  predicate LaunchesParticles(w: World, dt: real) {
    Bombs.Updated(w.bomb, dt).exploded && !(w.bomb.exploded && w.particlesActivated)
  }

  /** Whether the step activates the sand pool, by the same rule with its own latch. */
  predicate ShootsSand(w: World, dt: real) {
    Bombs.Updated(w.bomb, dt).exploded && !(w.bomb.exploded && w.sandShot)
  }

  /** The cloud pool after the activation loop: every particle given the
      global scale and the settings, and activated. */
  function LaunchedParticles(scale: real, settings: Settings.Params, pds: seq<ParticleDraw>): seq<Particles.ParticleState> {
    seq(|pds|, i requires 0 <= i < |pds| => Particles.Launched(scale, settings, pds[i].launch))
  }

  /** The sand pool after the activation loop: every particle given the global
      scale and the settings, and activated. */
  function ShotSands(ss: seq<SandParticles.SandState>, scale: real, settings: Settings.Params,
                     sds: seq<SandDraw>): seq<SandParticles.SandState>
    requires |sds| == |ss|
  {
    seq(|ss|, i requires 0 <= i < |ss| =>
      SandParticles.Launched(ss[i].(scale := scale, params := settings), sds[i].spray))
  }

  /** The cloud pool after the update loop: every particle updated once. */
  function UpdatedParticles(ps: seq<Particles.ParticleState>, dt: real, pds: seq<ParticleDraw>): seq<Particles.ParticleState>
    requires |pds| == |ps|
  {
    seq(|ps|, i requires 0 <= i < |ps| => Particles.Updated(ps[i], dt, pds[i].bloom))
  }

  /** The sand pool after the update loop: every particle updated once. */
  function UpdatedSands(ss: seq<SandParticles.SandState>, dt: real, sds: seq<SandDraw>): seq<SandParticles.SandState>
    requires |sds| == |ss|
  {
    seq(|ss|, i requires 0 <= i < |ss| => SandParticles.Updated(ss[i], dt, sds[i].reseed))
  }

  /** A cloud pool of freshly reset (or constructed) particles. */
  function RestedParticles(scale: real, settings: Settings.Params, rests: seq<Particles.LaunchDraw>): seq<Particles.ParticleState> {
    seq(|rests|, i requires 0 <= i < |rests| => Particles.Rested(scale, settings, rests[i]))
  }

  /** A sand pool of freshly reset (or constructed) particles. */
  function RestedSands(scale: real, settings: Settings.Params, reseeds: seq<SandParticles.Reseed>): seq<SandParticles.SandState> {
    seq(|reseeds|, i requires 0 <= i < |reseeds| =>
      SandParticles.Rested(scale, settings, reseeds[i].spray, reseeds[i].look))
  }

  /** The ring in a step: while the bomb is exploded an inactive ring is
      started with the global scale, and the ring is then updated; before the
      explosion it is left alone. */
  function RingFrame(w: World, dt: real): Shockwaves.RingState {
    if !Bombs.Updated(w.bomb, dt).exploded then w.ring
    else Shockwaves.Updated(if w.ring.active then w.ring else Shockwaves.Started(w.scale), dt)
  }

  /** The world after the part of a step that comes before the pool updates:
      latches cleared while the bomb is up, the bomb updated, and once it is
      exploded the ring restarted if inactive, each pool whose latch is down
      activated and its latch raised, and the ring updated. */
  function Detonated(w: World, f: Frame): World
    requires Fits(w, f)
  {
    var bomb := Bombs.Updated(w.bomb, f.dt);
    w.(bomb := bomb, ring := RingFrame(w, f.dt),
       particles := if LaunchesParticles(w, f.dt) then LaunchedParticles(w.scale, w.settings, f.particles) else w.particles,
       sands := if ShootsSand(w, f.dt) then ShotSands(w.sands, w.scale, w.settings, f.sands) else w.sands,
       particlesActivated := bomb.exploded || (w.bomb.exploded && w.particlesActivated),
       sandShot := bomb.exploded || (w.bomb.exploded && w.sandShot))
  }

  /** The latches as the step finds them once it has looked at the bomb:
      lowered while the bomb is still up, untouched after the explosion. */
  function Disarmed(w: World): World {
    if w.bomb.exploded then w else w.(particlesActivated := false, sandShot := false)
  }

  /** The exploded branch of a step: an inactive ring restarted with the
      global scale, each pool whose latch is down activated, both latches
      raised, and the ring updated. */
  function Blasted(w: World, f: Frame): World
    requires Fits(w, f)
  {
    w.(ring := Shockwaves.Updated(if w.ring.active then w.ring else Shockwaves.Started(w.scale), f.dt),
       particles := if w.particlesActivated then w.particles else LaunchedParticles(w.scale, w.settings, f.particles),
       sands := if w.sandShot then w.sands else ShotSands(w.sands, w.scale, w.settings, f.sands),
       particlesActivated := true, sandShot := true)
  }

  /** The part of a step before the pool updates, taken in the order the
      controller takes it: the latches, the bomb, then the exploded branch. */
  lemma DetonatedInStages(w: World, f: Frame)
    requires Fits(w, f)
    ensures var d := Disarmed(w).(bomb := Bombs.Updated(w.bomb, f.dt));
      Detonated(w, f) == if d.bomb.exploded then Blasted(d, f) else d
  {
  }

  /** The world after one simulation step: the part before the pool updates,
      then every pool member updated once. */
  function Stepped(w: World, f: Frame): World
    requires Fits(w, f)
  {
    var d := Detonated(w, f);
    d.(particles := UpdatedParticles(d.particles, f.dt, f.particles),
       sands := UpdatedSands(d.sands, f.dt, f.sands))
  }

  /** Every frame of `fs` fits pools of these sizes. */
  predicate FitsAll(w: World, fs: seq<Frame>) {
    forall k :: 0 <= k < |fs| ==> Fits(w, fs[k])
  }

  /** The world after one step per frame of `fs`, in order. */
  function Run(w: World, fs: seq<Frame>): World
    requires FitsAll(w, fs)
    decreases |fs|
  {
    if fs == [] then w
    else
      StepKeepsPools(w, fs[0]);
      Run(Stepped(w, fs[0]), fs[1..])
  }

  /** How many steps of the run activate the cloud pool. */
  function ParticleLaunches(w: World, fs: seq<Frame>): nat
    requires FitsAll(w, fs)
    decreases |fs|
  {
    if fs == [] then 0
    else
      StepKeepsPools(w, fs[0]);
      (if LaunchesParticles(w, fs[0].dt) then 1 else 0) + ParticleLaunches(Stepped(w, fs[0]), fs[1..])
  }

  /** How many steps of the run activate the sand pool. */
  function SandShots(w: World, fs: seq<Frame>): nat
    requires FitsAll(w, fs)
    decreases |fs|
  {
    if fs == [] then 0
    else
      StepKeepsPools(w, fs[0]);
      (if ShootsSand(w, fs[0].dt) then 1 else 0) + SandShots(Stepped(w, fs[0]), fs[1..])
  }

  /** The world after `reset_simulation`: the bomb back at its drop pose, the
      global scale read again from the settings, every pool member given that
      scale and the settings and reset, the ring reset, and both latches down. */
  function Restarted(w: World, rests: seq<Particles.LaunchDraw>, reseeds: seq<SandParticles.Reseed>): World
    requires |rests| == |w.particles| && |reseeds| == |w.sands|
  {
    var scale := ScaleOf(w.settings);
    World(
      Bombs.Restored(w.bomb), Shockwaves.Dormant(),
      RestedParticles(scale, w.settings, rests), RestedSands(scale, w.settings, reseeds),
      scale, w.settings, false, false)
  }

  /** The world `main` sets up: the loaded settings, the global scale read from
      them, one freshly constructed particle per draw in each pool, a new bomb
      and a new ring, and both latches down. */
  function Opened(file: Settings.SettingsFile, rests: seq<Particles.LaunchDraw>,
                  reseeds: seq<SandParticles.Reseed>): World
  {
    var settings := Settings.LoadSettings(file);
    var scale := ScaleOf(settings);
    World(
      Bombs.Initial(), Shockwaves.Dormant(),
      RestedParticles(scale, settings, rests), RestedSands(scale, settings, reseeds),
      scale, settings, false, false)
  }

  /** Both latches agree with the bomb: up exactly when it has exploded. */
  predicate Tracking(w: World) {
    w.particlesActivated == w.bomb.exploded && w.sandShot == w.bomb.exploded
  }

  /** Nothing has happened yet: the bomb has not exploded, both latches are
      down, the ring is off and no pool member is active. */
  predicate Quiet(w: World) {
    && !w.bomb.exploded && !w.particlesActivated && !w.sandShot && !w.ring.active
    && (forall i :: 0 <= i < |w.particles| ==> !w.particles[i].active)
    && (forall i :: 0 <= i < |w.sands| ==> !w.sands[i].active)
  }

  /** A step keeps the pool sizes, the global scale and the settings. */
  lemma StepKeepsPools(w: World, f: Frame)
    requires Fits(w, f)
    ensures |Stepped(w, f).particles| == |w.particles| && |Stepped(w, f).sands| == |w.sands|
    ensures Stepped(w, f).scale == w.scale && Stepped(w, f).settings == w.settings
    ensures forall g :: Fits(w, g) <==> Fits(Stepped(w, f), g)
  {
  }

  /** After every step both latches agree with the bomb: if the bomb is not
      exploded they were cleared, and if it is they are up, whether the
      activation happened in this step or before. */
  lemma StepLatchesFollowBomb(w: World, f: Frame)
    requires Fits(w, f)
    ensures Tracking(Stepped(w, f))
    ensures Stepped(w, f).bomb == Bombs.Updated(w.bomb, f.dt)
  {
  }

  /** In a world whose latches agree with the bomb, a step activates the cloud
      pool, and the sand pool, exactly when the bomb explodes in that step. */
  lemma LaunchOnExplosion(w: World, dt: real)
    requires Tracking(w)
    ensures LaunchesParticles(w, dt) <==> !w.bomb.exploded && Bombs.Updated(w.bomb, dt).exploded
    ensures ShootsSand(w, dt) <==> !w.bomb.exploded && Bombs.Updated(w.bomb, dt).exploded
  {
  }

  /** An exploded bomb stays exploded through a whole run, and a run keeps the
      pool sizes, the global scale and the settings. */
  lemma {:induction false} RunKeepsExploded(w: World, fs: seq<Frame>)
    requires FitsAll(w, fs)
    ensures w.bomb.exploded ==> Run(w, fs).bomb.exploded
    ensures |Run(w, fs).particles| == |w.particles| && |Run(w, fs).sands| == |w.sands|
    ensures Run(w, fs).scale == w.scale && Run(w, fs).settings == w.settings
    decreases |fs|
  {
    if fs != [] {
      StepKeepsPools(w, fs[0]);
      Bombs.UpdateInvariants(w.bomb, fs[0].dt);
      RunKeepsExploded(Stepped(w, fs[0]), fs[1..]);
    }
  }

  /** Activation happens once per explosion: over any run from a world whose
      latches agree with the bomb, each pool is activated exactly once if the
      bomb explodes during the run, and never otherwise. */
  lemma {:induction false} ActivateOnce(w: World, fs: seq<Frame>)
    requires Tracking(w) && FitsAll(w, fs)
    ensures ParticleLaunches(w, fs) == if !w.bomb.exploded && Run(w, fs).bomb.exploded then 1 else 0
    ensures SandShots(w, fs) == if !w.bomb.exploded && Run(w, fs).bomb.exploded then 1 else 0
    decreases |fs|
  {
    if fs != [] {
      var next := Stepped(w, fs[0]);
      StepKeepsPools(w, fs[0]);
      StepLatchesFollowBomb(w, fs[0]);
      LaunchOnExplosion(w, fs[0].dt);
      Bombs.UpdateInvariants(w.bomb, fs[0].dt);
      ActivateOnce(next, fs[1..]);
      RunKeepsExploded(next, fs[1..]);
    }
  }

  /** Before the explosion a step from a quiet world only moves the bomb:
      the ring and every pool member are left exactly as they were, and the
      world stays quiet. */
  lemma QuietUntilExplosion(w: World, f: Frame)
    requires Quiet(w) && Fits(w, f) && !Bombs.Updated(w.bomb, f.dt).exploded
    ensures Stepped(w, f) == w.(bomb := Bombs.Updated(w.bomb, f.dt))
    ensures Quiet(Stepped(w, f))
  {
    var r := Stepped(w, f);
    assert r.particles == w.particles by {
      forall i | 0 <= i < |w.particles| ensures r.particles[i] == w.particles[i] {
        Particles.UpdateNeverActivates(w.particles[i], f.dt, f.particles[i].bloom);
      }
    }
    assert r.sands == w.sands by {
      forall i | 0 <= i < |w.sands| ensures r.sands[i] == w.sands[i] {
        SandParticles.UpdateNeverActivates(w.sands[i], f.dt, f.sands[i].reseed);
      }
    }
  }

  /** In the step where the bomb explodes, every cloud particle is activated
      with the global scale and the settings and then updated once, and so is
      every sand particle, which keeps its size and colour through activation. */
  lemma ExplosionStep(w: World, f: Frame)
    requires Tracking(w) && Fits(w, f) && !w.bomb.exploded && Bombs.Updated(w.bomb, f.dt).exploded
    ensures forall i :: 0 <= i < |w.particles| ==>
      Stepped(w, f).particles[i] ==
        Particles.Updated(Particles.Launched(w.scale, w.settings, f.particles[i].launch), f.dt, f.particles[i].bloom)
    ensures forall i :: 0 <= i < |w.sands| ==>
      Stepped(w, f).sands[i] ==
        SandParticles.Updated(
          SandParticles.Launched(w.sands[i].(scale := w.scale, params := w.settings), f.sands[i].spray),
          f.dt, f.sands[i].reseed)
  {
    LaunchOnExplosion(w, f.dt);
  }

  /** In every other step each pool member is just updated once. */
  lemma OrdinaryStep(w: World, f: Frame)
    requires Tracking(w) && Fits(w, f) && !(!w.bomb.exploded && Bombs.Updated(w.bomb, f.dt).exploded)
    ensures forall i :: 0 <= i < |w.particles| ==>
      Stepped(w, f).particles[i] == Particles.Updated(w.particles[i], f.dt, f.particles[i].bloom)
    ensures forall i :: 0 <= i < |w.sands| ==>
      Stepped(w, f).sands[i] == SandParticles.Updated(w.sands[i], f.dt, f.sands[i].reseed)
  {
    LaunchOnExplosion(w, f.dt);
  }

  /** The ring is left alone before the explosion. Once the bomb is exploded an
      inactive ring is restarted at every step with the global scale, so the
      ring keeps firing: with a positive scale and a step that grows it by no
      more than its reach, the ring is active after the step. */
  lemma RingLoops(w: World, f: Frame)
    requires Fits(w, f)
    ensures !Bombs.Updated(w.bomb, f.dt).exploded ==> Stepped(w, f).ring == w.ring
    ensures Bombs.Updated(w.bomb, f.dt).exploded && !w.ring.active ==>
      && Stepped(w, f).ring.scale == w.scale
      && Stepped(w, f).ring.radius == f.dt * 1.5 * w.scale
    ensures (Bombs.Updated(w.bomb, f.dt).exploded && !w.ring.active && w.scale > 0.0 && 0.0 <= f.dt <= 4.0) ==>
      Stepped(w, f).ring.active
  {
    if Bombs.Updated(w.bomb, f.dt).exploded && !w.ring.active {
      Shockwaves.UpdateGrows(Shockwaves.Started(w.scale), f.dt);
      if w.scale > 0.0 && 0.0 <= f.dt <= 4.0 {
        assert f.dt * 1.5 * w.scale <= 6.0 * w.scale by {
          assert (6.0 - f.dt * 1.5) * w.scale >= 0.0;
        }
      }
    }
  }

  /** `reset_simulation` leaves a quiet world: the bomb at its drop pose with
      its speed kept, the ring dormant, the global scale read from the settings
      (1.0 when they have none), every pool member reset with that scale, the
      settings and its own draws, and the settings unchanged. */
  lemma RestartIsQuiet(w: World, rests: seq<Particles.LaunchDraw>, reseeds: seq<SandParticles.Reseed>)
    requires |rests| == |w.particles| && |reseeds| == |w.sands|
    ensures var r := Restarted(w, rests, reseeds);
      && Quiet(r) && Tracking(r)
      && r.bomb == Bombs.Initial().(speed := w.bomb.speed) && r.ring == Shockwaves.Dormant()
      && r.scale == ScaleOf(w.settings) && r.settings == w.settings
      && |r.particles| == |w.particles| && |r.sands| == |w.sands|
      && (forall i :: 0 <= i < |r.particles| ==>
            && r.particles[i] == Particles.Rested(r.scale, w.settings, rests[i])
            && r.particles[i].scale == r.scale && r.particles[i].params == w.settings)
      && (forall i :: 0 <= i < |r.sands| ==>
            && r.sands[i] == SandParticles.Rested(r.scale, w.settings, reseeds[i].spray, reseeds[i].look)
            && r.sands[i].scale == r.scale && r.sands[i].params == w.settings)
  {
    Bombs.ResetRestores(w.bomb);
  }

  /** Resetting twice with the same draws is resetting once: the reset world
      depends on the old one only through its settings, its pool sizes and its
      bomb's speed, all of which a reset keeps. */
  lemma RestartIdempotent(w: World, rests: seq<Particles.LaunchDraw>, reseeds: seq<SandParticles.Reseed>)
    requires |rests| == |w.particles| && |reseeds| == |w.sands|
    ensures Restarted(Restarted(w, rests, reseeds), rests, reseeds) == Restarted(w, rests, reseeds)
  {
    Bombs.ResetRestores(w.bomb);
  }

  /** The world `main` sets up is quiet, and the reset button brings a world
      with the same settings and the original bomb speed back to it. */
  lemma OpenedIsRestart(file: Settings.SettingsFile, w: World,
                        rests: seq<Particles.LaunchDraw>, reseeds: seq<SandParticles.Reseed>)
    requires |rests| == |w.particles| && |reseeds| == |w.sands|
    requires w.settings == Settings.LoadSettings(file) && w.bomb.speed == 1.0
    ensures Quiet(Opened(file, rests, reseeds)) && Tracking(Opened(file, rests, reseeds))
    ensures Restarted(w, rests, reseeds) == Opened(file, rests, reseeds)
  {
    Bombs.ResetRestores(w.bomb);
  }

  /** After a reset the next explosion activates each pool exactly once. */
  lemma RestartLaunchesOnce(w: World, rests: seq<Particles.LaunchDraw>,
                            reseeds: seq<SandParticles.Reseed>, fs: seq<Frame>)
    requires |rests| == |w.particles| && |reseeds| == |w.sands|
    requires FitsAll(Restarted(w, rests, reseeds), fs)
    ensures var r := Restarted(w, rests, reseeds);
      && ParticleLaunches(r, fs) == (if Run(r, fs).bomb.exploded then 1 else 0)
      && SandShots(r, fs) == (if Run(r, fs).bomb.exploded then 1 else 0)
  {
    RestartIsQuiet(w, rests, reseeds);
    ActivateOnce(Restarted(w, rests, reseeds), fs);
  }

  /** The states of the cloud particles held in `ps`, in order. */
  function ParticleStates(ps: seq<Particles.Particle>): seq<Particles.ParticleState>
    reads ps
  {
    seq(|ps|, i requires 0 <= i < |ps| reads ps => ps[i].State())
  }

  /** The states of the sand particles held in `ss`, in order. */
  function SandStates(ss: seq<SandParticles.SandParticle>): seq<SandParticles.SandState>
    reads ss
  {
    seq(|ss|, i requires 0 <= i < |ss| reads ss => ss[i].State())
  }

  /** The running program: the controller's globals and the objects `main`
      creates, each entity changing its fields in place. */
  class Simulation {
    var bomb: Bombs.Bomb
    var shockwave: Shockwaves.Shockwave
    var particles: seq<Particles.Particle>
    var sands: seq<SandParticles.SandParticle>
    var globalScale: real
    var settings: Settings.Params
    var particlesActivated: bool
    var sandShot: bool

    /** No object appears twice in a pool. */
    predicate Valid()
      reads this
    {
      && (forall i, j :: 0 <= i < j < |particles| ==> particles[i] != particles[j])
      && (forall i, j :: 0 <= i < j < |sands| ==> sands[i] != sands[j])
    }

    /** The fields of every object the simulation holds. */
    function State(): World
      reads this, bomb, shockwave, particles, sands
    {
      World(bomb.State(), shockwave.State(), ParticleStates(particles), SandStates(sands),
            globalScale, settings, particlesActivated, sandShot)
    }

    /** The set-up part of `main`: load the settings, read the global scale,
        lower both latches, and create the pools, the bomb and the ring. */
    constructor (file: Settings.SettingsFile, rests: seq<Particles.LaunchDraw>, reseeds: seq<SandParticles.Reseed>)
      requires |rests| == Config.NumParticles && |reseeds| == Config.NumSandParticles
      ensures Valid() && State() == Opened(file, rests, reseeds)
    {
      var loaded := Settings.LoadSettings(file);
      var scale := Settings.Lookup(loaded, Settings.ExplosionScale, Settings.DefaultExplosionScale);
      var ps := NewParticles(scale, loaded, rests);
      var ss := NewSands(scale, loaded, reseeds);
      var b := new Bombs.Bomb();
      var r := new Shockwaves.Shockwave();
      settings, globalScale := loaded, scale;
      particles, sands, bomb, shockwave := ps, ss, b, r;
      sandShot, particlesActivated := false, false;
    }

    /** One new cloud particle per draw, each constructed with the given scale and settings. */
    static method NewParticles(scale: real, settings: Settings.Params, rests: seq<Particles.LaunchDraw>)
      returns (ps: seq<Particles.Particle>)
      ensures forall i, j :: 0 <= i < j < |ps| ==> ps[i] != ps[j]
      ensures forall i :: 0 <= i < |ps| ==> fresh(ps[i])
      ensures ParticleStates(ps) == RestedParticles(scale, settings, rests)
    {
      ps := [];
      for n := 0 to |rests|
        invariant |ps| == n
        invariant forall i, j :: 0 <= i < j < n ==> ps[i] != ps[j]
        invariant forall i :: 0 <= i < n ==> fresh(ps[i]) && ps[i].State() == Particles.Rested(scale, settings, rests[i])
      {
        var p := new Particles.Particle(scale, settings, rests[n]);
        ps := ps + [p];
      }
    }

    /** One new sand particle per draw, each constructed with the given scale and settings. */
    static method NewSands(scale: real, settings: Settings.Params, reseeds: seq<SandParticles.Reseed>)
      returns (ss: seq<SandParticles.SandParticle>)
      ensures forall i, j :: 0 <= i < j < |ss| ==> ss[i] != ss[j]
      ensures forall i :: 0 <= i < |ss| ==> fresh(ss[i])
      ensures SandStates(ss) == RestedSands(scale, settings, reseeds)
    {
      ss := [];
      for n := 0 to |reseeds|
        invariant |ss| == n
        invariant forall i, j :: 0 <= i < j < n ==> ss[i] != ss[j]
        invariant forall i :: 0 <= i < n ==>
          fresh(ss[i]) && ss[i].State() == SandParticles.Rested(scale, settings, reseeds[i].spray, reseeds[i].look)
      {
        var s := new SandParticles.SandParticle(scale, settings, reseeds[n].spray, reseeds[n].look);
        ss := ss + [s];
      }
    }

    /** The simulation-step part of the frame loop. Both branches of the
        source end with the same two pool updates, written once here. */
    method Step(dt: real, pds: seq<ParticleDraw>, sds: seq<SandDraw>)
      requires Valid() && |pds| == |particles| && |sds| == |sands|
      modifies this, bomb, shockwave, particles, sands
      ensures bomb == old(bomb) && shockwave == old(shockwave)
      ensures particles == old(particles) && sands == old(sands)
      ensures Valid() && State() == Stepped(old(State()), Frame(dt, pds, sds))
    {
      Detonate(dt, pds, sds);
      UpdateParticles(dt, pds);
      UpdateSands(dt, sds);
    }

    /** The part of the step before the pool updates: clear the latches while
        the bomb is up, update the bomb, and once it is exploded restart an
        inactive ring, activate each pool whose latch is down, and update the
        ring. */
    method Detonate(dt: real, pds: seq<ParticleDraw>, sds: seq<SandDraw>)
      requires Valid() && |pds| == |particles| && |sds| == |sands|
      modifies this, bomb, shockwave, particles, sands
      ensures bomb == old(bomb) && shockwave == old(shockwave)
      ensures particles == old(particles) && sands == old(sands)
      ensures Valid() && State() == Detonated(old(State()), Frame(dt, pds, sds))
    {
      ghost var w := State();
      Disarm();
      DropBomb(dt);
      if bomb.exploded {
        Blast(dt, pds, sds);
      }
      DetonatedInStages(w, Frame(dt, pds, sds));
    }

    /** Lower both latches while the bomb is still up. */
    method Disarm()
      modifies this
      ensures bomb == old(bomb) && shockwave == old(shockwave)
      ensures particles == old(particles) && sands == old(sands)
      ensures State() == Disarmed(old(State()))
    {
      if !bomb.exploded {
        Lower();
      }
    }

    /** Lower both latches. */
    method Lower()
      modifies this
      ensures bomb == old(bomb) && shockwave == old(shockwave)
      ensures particles == old(particles) && sands == old(sands)
      ensures State() == old(State()).(particlesActivated := false, sandShot := false)
    {
      sandShot := false;
      particlesActivated := false;
    }

    /** Update the bomb. */
    method DropBomb(dt: real)
      modifies bomb
      ensures State() == old(State()).(bomb := Bombs.Updated(old(bomb.State()), dt))
    {
      bomb.Update(dt);
    }

    /** The exploded branch: start the ring and the pools, then update the ring. */
    method Blast(dt: real, pds: seq<ParticleDraw>, sds: seq<SandDraw>)
      requires Valid() && |pds| == |particles| && |sds| == |sands|
      modifies this, shockwave, particles, sands
      ensures bomb == old(bomb) && shockwave == old(shockwave)
      ensures particles == old(particles) && sands == old(sands)
      ensures Valid() && State() == Blasted(old(State()), Frame(dt, pds, sds))
    {
      Ignite(pds, sds);
      shockwave.Update(dt);
    }

    /** The start of the exploded branch: restart an inactive ring with the
        global scale, and activate each pool whose latch is down, raising it. */
    method Ignite(pds: seq<ParticleDraw>, sds: seq<SandDraw>)
      requires Valid() && |pds| == |particles| && |sds| == |sands|
      modifies this, shockwave, particles, sands
      ensures bomb == old(bomb) && shockwave == old(shockwave)
      ensures particles == old(particles) && sands == old(sands)
      ensures Valid() && globalScale == old(globalScale) && settings == old(settings)
      ensures particlesActivated && sandShot
      ensures shockwave.State() == if old(shockwave.active) then old(shockwave.State()) else Shockwaves.Started(globalScale)
      ensures ParticleStates(particles) ==
        if old(particlesActivated) then old(ParticleStates(particles))
        else LaunchedParticles(globalScale, settings, pds)
      ensures SandStates(sands) ==
        if old(sandShot) then old(SandStates(sands))
        else ShotSands(old(SandStates(sands)), globalScale, settings, sds)
    {
      if !shockwave.active {
        shockwave.Start(globalScale);
      }
      ArmCloud(pds);
      ArmSand(sds);
    }

    /** Activate the cloud pool unless its latch is up, and raise the latch. */
    method ArmCloud(pds: seq<ParticleDraw>)
      requires Valid() && |pds| == |particles|
      modifies this, particles
      ensures Valid() && shockwave.State() == old(shockwave.State()) && SandStates(sands) == old(SandStates(sands))
      ensures particles == old(particles) && sands == old(sands) && bomb == old(bomb) && shockwave == old(shockwave)
      ensures globalScale == old(globalScale) && settings == old(settings) && sandShot == old(sandShot)
      ensures particlesActivated
      ensures ParticleStates(particles) ==
        if old(particlesActivated) then old(ParticleStates(particles))
        else LaunchedParticles(globalScale, settings, pds)
    {
      if !particlesActivated {
        LaunchParticles(pds);
        particlesActivated := true;
      }
    }

    /** Activate the sand pool unless its latch is up, and raise the latch. */
    method ArmSand(sds: seq<SandDraw>)
      requires Valid() && |sds| == |sands|
      modifies this, sands
      ensures Valid() && shockwave.State() == old(shockwave.State()) && ParticleStates(particles) == old(ParticleStates(particles))
      ensures particles == old(particles) && sands == old(sands) && bomb == old(bomb) && shockwave == old(shockwave)
      ensures globalScale == old(globalScale) && settings == old(settings) && particlesActivated == old(particlesActivated)
      ensures sandShot
      ensures SandStates(sands) ==
        if old(sandShot) then old(SandStates(sands))
        else ShotSands(old(SandStates(sands)), globalScale, settings, sds)
    {
      if !sandShot {
        ShootSand(sds);
        sandShot := true;
      }
    }

    /** Give every cloud particle the global scale and the settings, and activate it. */
    method LaunchParticles(pds: seq<ParticleDraw>)
      requires Valid() && |pds| == |particles|
      modifies particles
      ensures ParticleStates(particles) == LaunchedParticles(globalScale, settings, pds)
    {
      for n := 0 to |particles|
        invariant forall i :: 0 <= i < n ==>
          particles[i].State() == Particles.Launched(globalScale, settings, pds[i].launch)
      {
        var p := particles[n];
        p.explosionScale := globalScale;
        p.params := settings;
        p.Activate(pds[n].launch);
      }
    }

    /** Give every sand particle the global scale and the settings, and activate it. */
    method ShootSand(sds: seq<SandDraw>)
      requires Valid() && |sds| == |sands|
      modifies sands
      ensures SandStates(sands) == ShotSands(old(SandStates(sands)), globalScale, settings, sds)
    {
      for n := 0 to |sands|
        invariant forall i :: 0 <= i < n ==>
          sands[i].State() ==
            SandParticles.Launched(old(sands[i].State()).(scale := globalScale, params := settings), sds[i].spray)
        invariant forall i :: n <= i < |sands| ==> sands[i].State() == old(sands[i].State())
      {
        var s := sands[n];
        s.explosionScale := globalScale;
        s.params := settings;
        s.Activate(sds[n].spray);
      }
    }

    /** Update every cloud particle once. */
    method UpdateParticles(dt: real, pds: seq<ParticleDraw>)
      requires Valid() && |pds| == |particles|
      modifies particles
      ensures ParticleStates(particles) == UpdatedParticles(old(ParticleStates(particles)), dt, pds)
    {
      for n := 0 to |particles|
        invariant forall i :: 0 <= i < n ==>
          particles[i].State() == Particles.Updated(old(particles[i].State()), dt, pds[i].bloom)
        invariant forall i :: n <= i < |particles| ==> particles[i].State() == old(particles[i].State())
      {
        particles[n].Update(dt, pds[n].bloom);
      }
    }

    /** Update every sand particle once. */
    method UpdateSands(dt: real, sds: seq<SandDraw>)
      requires Valid() && |sds| == |sands|
      modifies sands
      ensures SandStates(sands) == UpdatedSands(old(SandStates(sands)), dt, sds)
    {
      for n := 0 to |sands|
        invariant forall i :: 0 <= i < n ==>
          sands[i].State() == SandParticles.Updated(old(sands[i].State()), dt, sds[i].reseed)
        invariant forall i :: n <= i < |sands| ==> sands[i].State() == old(sands[i].State())
      {
        sands[n].Update(dt, sds[n].reseed);
      }
    }

    /** `reset_simulation`: reset the bomb, read the global scale from the
        settings again, give every pool member that scale and the settings and
        reset it, reset the ring, and lower both latches. */
    method ResetSimulation(rests: seq<Particles.LaunchDraw>, reseeds: seq<SandParticles.Reseed>)
      requires Valid() && |rests| == |particles| && |reseeds| == |sands|
      modifies this, bomb, shockwave, particles, sands
      ensures bomb == old(bomb) && shockwave == old(shockwave)
      ensures particles == old(particles) && sands == old(sands)
      ensures Valid() && State() == Restarted(old(State()), rests, reseeds)
    {
      RestoreBomb();
      Rescale();
      RestPools(rests, reseeds);
      ParkRing();
      Lower();
    }

    /** Read the global scale from the settings again. */
    method Rescale()
      modifies this
      ensures bomb == old(bomb) && shockwave == old(shockwave)
      ensures particles == old(particles) && sands == old(sands)
      ensures State() == old(State()).(scale := ScaleOf(settings))
    {
      globalScale := Settings.Lookup(settings, Settings.ExplosionScale, Settings.DefaultExplosionScale);
    }

    /** Put the bomb back at its drop pose. */
    method RestoreBomb()
      modifies bomb
      ensures State() == old(State()).(bomb := Bombs.Restored(old(bomb.State())))
    {
      bomb.Reset();
    }

    /** Reset the ring. */
    method ParkRing()
      modifies shockwave
      ensures State() == old(State()).(ring := Shockwaves.Dormant())
    {
      shockwave.Reset();
    }

    /** Reset both pools with the global scale and the settings. */
    method RestPools(rests: seq<Particles.LaunchDraw>, reseeds: seq<SandParticles.Reseed>)
      requires Valid() && |rests| == |particles| && |reseeds| == |sands|
      modifies particles, sands
      ensures State() == old(State()).(particles := RestedParticles(globalScale, settings, rests),
                                      sands := RestedSands(globalScale, settings, reseeds))
    {
      RestParticles(rests);
      RestSands(reseeds);
    }

    /** Give every cloud particle the global scale and the settings, and reset it. */
    method RestParticles(rests: seq<Particles.LaunchDraw>)
      requires Valid() && |rests| == |particles|
      modifies particles
      ensures bomb.State() == old(bomb.State()) && shockwave.State() == old(shockwave.State())
      ensures SandStates(sands) == old(SandStates(sands))
      ensures ParticleStates(particles) == RestedParticles(globalScale, settings, rests)
    {
      for n := 0 to |particles|
        invariant forall i :: 0 <= i < n ==>
          particles[i].State() == Particles.Rested(globalScale, settings, rests[i])
      {
        var p := particles[n];
        p.explosionScale := globalScale;
        p.params := settings;
        p.Reset(rests[n]);
      }
    }

    /** Give every sand particle the global scale and the settings, and reset it. */
    method RestSands(reseeds: seq<SandParticles.Reseed>)
      requires Valid() && |reseeds| == |sands|
      modifies sands
      ensures bomb.State() == old(bomb.State()) && shockwave.State() == old(shockwave.State())
      ensures ParticleStates(particles) == old(ParticleStates(particles))
      ensures SandStates(sands) == RestedSands(globalScale, settings, reseeds)
    {
      for n := 0 to |sands|
        invariant forall i :: 0 <= i < n ==>
          sands[i].State() == SandParticles.Rested(globalScale, settings, reseeds[i].spray, reseeds[i].look)
      {
        var s := sands[n];
        s.explosionScale := globalScale;
        s.params := settings;
        s.Reset(reseeds[n].spray, reseeds[n].look);
      }
    }
  }
}
