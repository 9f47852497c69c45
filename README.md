# Mushroom cloud simulation: the simulation core

This project models the simulation core of the "Mushroom Cloud 3D" program (`Wyklad/`):

- **the bomb**, which falls at constant speed, is clamped to the ground and latches `exploded`;
- **the shockwave ring**, which grows while active and switches itself off past six times its scale;
- **the cloud particles**, which rise as a stem, switch once to a settling cloud phase and retire when their life runs out or they sink below the ground;
- **the sand particles**, ballistic debris with cached gravity;
- **the controller's frame step**, with the two latches that make each pool's activation happen once per explosion;
- **`reset_simulation`**, **the set-up part of `main`**, and **the merge of the settings file over the defaults**.

Each entity whose fields the program changes in place is a Dafny `class` with the same fields:

- `Bombs.Bomb`, `Shockwaves.Shockwave`, `Particles.Particle` and `SandParticles.SandParticle`;
- `MushroomExplosion.Simulation`, which holds the controller's globals, the bomb, the ring and the two pools.

Every method is proved against a pure function on a datatype of the same fields. For example, `Particle.Update` ensures `State() == Updated(old(State()), dt, b)`, and a whole simulation step ensures `State() == Stepped(old(State()), Frame(dt, pds, sds))`.

The program's behaviour is then proved as lemmas about those functions:

- one update at a time: what changes, what stays, and when a particle retires;
- over whole runs: the ring and the bomb never come back, the stem climbs and blooms, and sand dies out;
- for the controller: the latches follow the bomb, each pool is activated exactly once per explosion, and a reset leaves a quiet world.

Modules:

| file | module | models |
|---|---|---|
| config.dfy | Config | the constants of the `config` module, left unspecified |
| draws.dfy | Draws | values returned by `random.uniform`, and headings given as cosine and sine |
| steps.dfy | Steps | the time elapsed over a run of time steps, for the run lemmas |
| settings.dfy | Settings | the settings map, `params.get`, the defaults and `load_settings` |
| shockwave.dfy | Shockwaves | `Wyklad/entities/shockwave.py` |
| bomb.dfy | Bombs | `Wyklad/entities/bomb.py` |
| particle.dfy | Particles | `Wyklad/entities/particle.py` |
| sand_particle.dfy | SandParticles | `Wyklad/entities/sand_particle.py` |
| mushroom_explosion.dfy | MushroomExplosion | `reset_simulation`, the set-up and the simulation step of `main` |

Randomness, the clock and trigonometry enter as values:

- Each `random.uniform(a, b)` the source makes is a field of a draw datatype passed to the method, such as `LaunchDraw`, `BloomDraw`, `SprayDraw`, `LookDraw` or `Reseed`. A validity predicate says the value lies between `a` and `b`.
- Each drawn angle is given by its cosine and sine.
- The frame's `dt` from the pygame clock is a parameter of `Step`. The lemmas about runs of updates take one time step per update, as a sequence or as the `dt` of a `Tick`. Each run lemma holds for any sequence of frame lengths, as long as the steps are positive or non-negative where its precondition says so. The exception is `Particles.ScenarioBloomsWithin150Frames`, which is the fixed scenario of 150 frames of 1/60 s each.
- The contents of the settings file are a `SettingsFile` value.

Where the code and its description disagree, the model follows the code:

- An expired sand particle is reset, and `reset` itself sets `active = False` (`Wyklad/entities/sand_particle.py:39`). So expired sand stays inactive until the next activation rather than recycling (`SandParticles.RunInvariants`, `SandParticles.SprayDiesOut`).
- While the bomb is exploded the ring is restarted at every step in which it is inactive (`Wyklad/mushroom_explosion.py:287-288`). So the ring keeps firing rather than firing once (`MushroomExplosion.RingLoops`).

## Model

| member | source | states |
|---|---|---|
| Settings.LoadedLookup | Wyklad/entities/particle.py:31 | on the loaded settings, `params.get(key, default)` of a known key never falls back to the call's default: it yields the file's value if the file has the key and the built-in default otherwise |
| Settings.Defaults | Wyklad/mushroom_explosion.py:35-50 | the default settings hold exactly the fourteen known keys |
| Settings.LoadSettingsMerge | Wyklad/mushroom_explosion.py:51-61 | after loading, every known key is present; the keys are the defaults' plus the file's; a key in the file overrides its default; any other default is kept; a missing or malformed file, or one that could not be read before anything was merged, leaves exactly the defaults |
| Settings.LoadedExplosionScale | Wyklad/mushroom_explosion.py:98-99 | the global scale read at start-up is the file's `explosion_scale` when it has one, and 1.0 otherwise |
| Shockwaves.StartArms | Wyklad/entities/shockwave.py:11-14 | `start(scale)` makes the ring active at radius 0 with that scale, within its reach for a non-negative scale |
| Shockwaves.UpdateInactiveIsNoOp | Wyklad/entities/shockwave.py:16-17 | updating an inactive ring changes nothing |
| Shockwaves.UpdateGrows | Wyklad/entities/shockwave.py:16-20 | an active update adds `dt * 1.5 * scale` to the radius and keeps the scale; the radius never shrinks for non-negative `dt` and scale; the ring is inactive afterwards exactly when the new radius exceeds `6 * scale` |
| Shockwaves.UpdateKeepsWithinReach | Wyklad/entities/shockwave.py:16-20 | after any update an active ring's radius is at most `6 * scale` |
| Shockwaves.RunInactiveIsNoOp | Wyklad/entities/shockwave.py:16-20 | once inactive, no sequence of updates changes the ring (only `start` re-arms it) |
| Shockwaves.RunMonotone | Wyklad/entities/shockwave.py:16-20 | over non-negative steps the radius never shrinks, the scale is kept, and the ring is active at the end only if it was at the start |
| Shockwaves.Shockwave.constructor | Wyklad/entities/shockwave.py:6-9 | a new ring is dormant: radius 0, inactive, scale 1.0 |
| Shockwaves.Shockwave.Start | Wyklad/entities/shockwave.py:11-14 | the fields become those of the started ring |
| Shockwaves.Shockwave.Update | Wyklad/entities/shockwave.py:16-20 | the fields become the updated ring |
| Shockwaves.Shockwave.Reset | Wyklad/entities/shockwave.py:34-37 | the fields become the dormant ring whatever they were, so a second reset changes nothing |
| Bombs.UpdateFallsOrLands | Wyklad/entities/bomb.py:43-48 | an unexploded bomb either moves down by `speed * dt` and stays above ground unexploded, or reaches the ground in the step and is clamped to it and explodes, nothing else changing |
| Bombs.UpdateExplodedIsNoOp | Wyklad/entities/bomb.py:43-44 | an exploded bomb is left exactly as it is |
| Bombs.UpdateInvariants | Wyklad/entities/bomb.py:43-48 | an update never takes the bomb below the ground, keeps an exploded bomb on the ground, never lowers `exploded`, and never changes x, z or the speed |
| Bombs.FallExplodedIsNoOp | Wyklad/entities/bomb.py:43-44 | any number of updates leave an exploded bomb unchanged |
| Bombs.UpdateSplits | Wyklad/entities/bomb.py:43-48 | with a non-negative speed, an update of `t` and then one of a non-negative `dt` leave the bomb where one update of `t + dt` would |
| Bombs.FallIsOneUpdate | Wyklad/entities/bomb.py:43-48 | the step sizes do not matter: a run of one or more updates with non-negative steps ends where one update over the whole elapsed time `t` would; with `UpdateFallsOrLands` this is the descent in closed form, at `y - speed * t` while above ground, else on the ground and exploded |
| Bombs.ResetRestores | Wyklad/entities/bomb.py:79-83 | `reset` gives the constructed pose with the old speed kept; from the constructed state it is the constructed state; it is idempotent |
| Bombs.Bomb.constructor | Wyklad/entities/bomb.py:30-35 | a new bomb is at (0, 1.2, 0), speed 1.0, not exploded |
| Bombs.Bomb.Update | Wyklad/entities/bomb.py:43-48 | the fields become the updated bomb |
| Bombs.Bomb.Reset | Wyklad/entities/bomb.py:79-83 | the fields become the restored bomb |
| Particles.RestedPose | Wyklad/entities/particle.py:20-34 | `reset` leaves an inactive stem particle at (0, GROUND_LEVEL, 0) with age 0, life `1.5 + (scale - 1) * (multiplier / 2)`, size from 12 to 20 and upward speed `rise * scale`, keeping scale and parameters |
| Particles.RestedRises | Wyklad/entities/particle.py:29 | the upward speed `reset` gives is between `1.0 * scale` and `1.3 * scale` |
| Particles.LaunchedPose | Wyklad/entities/particle.py:36-52 | `activate` leaves a live stem particle at (0, GROUND_LEVEL, 0) with age 0, life `4.0 + (scale - 1) * multiplier`, size from 12 to 20 and upward speed `rise * scale` |
| Particles.LaunchedRises | Wyklad/entities/particle.py:46 | the upward speed `activate` gives is between `1.5 * scale` and `2.0 * scale` |
| Particles.LaunchMatchesRest | Wyklad/entities/particle.py:20-52 | `activate` and `reset` agree on phase, position, age, scale, parameters and size, and differ in `active` |
| Particles.RestAndLaunchArePlaced | Wyklad/entities/particle.py:20-52 | `reset` and `activate` are both the shared placement (stem phase at the origin on the ground, drawn jitter, rise and size) followed by their own life, a zero age and the flag, from any old state with the same scale and parameters |
| Particles.UpdateNeverActivates | Wyklad/entities/particle.py:54-56 | updating an inactive particle changes nothing, and no update makes a particle active |
| Particles.UpdateLifetime | Wyklad/entities/particle.py:57-91 | an active update adds `dt` to the age and takes `dt` off the life, and retires the particle exactly when the new life is at most 0 or the new height is more than 0.2 below the ground |
| Particles.UpdateStem | Wyklad/entities/particle.py:59-75 | in the stem phase the particle moves by its velocity and `vy` drops by `0.8 * dt * scale`; it turns into cloud exactly when the new `vy` is at most `0.01 * scale`, and then takes the drawn lift and spread |
| Particles.BloomLift | Wyklad/entities/particle.py:73-75 | the upward speed at the switch to cloud lies between the configured lift bounds times the scale |
| Particles.UpdateCloud | Wyklad/entities/particle.py:77-87 | in the cloud phase `vy` loses `g * dt * scale` and `vx`, `vz` are scaled by `1 - r * dt` |
| Particles.UpdatePhaseOneWay | Wyklad/entities/particle.py:59-87 | the phase only moves from stem to cloud |
| Particles.UpdateRises | Wyklad/entities/particle.py:59-66 | a stem particle climbing faster than `0.01 * scale` keeps doing so, and with positive `dt` and scale each stem update strictly raises it |
| Particles.RunInvariants | Wyklad/entities/particle.py:54-91 | over a run the scale and parameters are kept, the climb invariant holds, cloud never goes back to stem, and an inactive particle stays exactly as it is |
| Particles.RunStemStep | Wyklad/entities/particle.py:59-64 | a run that ends with an active stem took exactly `0.8 * dt * scale` off `vy` and `dt` off the life in its last update, for that update's own `dt` |
| Particles.StemHistory | Wyklad/entities/particle.py:57-91 | after updates taking time `t` in all that leave it an active stem, `vy` has dropped by `0.8 * t * scale` and the life by `t` |
| Particles.StemClimbs | Wyklad/entities/particle.py:59-66 | with positive time steps and scale, a rising particle that is still a stem has not come down below where it started |
| Particles.StemSurvives | Wyklad/entities/particle.py:59-91 | a rising stem whose life outlasts the elapsed time of a run with positive steps is, at the end, still alive or already a cloud |
| Particles.StemBlooms | Wyklad/entities/particle.py:59-66 | once the braking over the elapsed time, `0.8 * t * scale`, reaches its upward speed above the threshold, a rising stem has turned into cloud or retired |
| Particles.BloomAboveStart | Wyklad/entities/particle.py:59-66 | with positive time steps and scale, a rising stem is strictly higher than where it started at the update where it turns into cloud |
| Particles.ScenarioBloomsWithin150Frames | Wyklad/entities/particle.py:36-91 | at scale 1 and a steady 60 updates per second, a freshly activated particle is a cloud after 150 updates, whatever the parameters and cloud draws |
| Particles.Particle.constructor | Wyklad/entities/particle.py:14-18 | a new particle is the reset particle for the given scale and parameters |
| Particles.Particle.Reset | Wyklad/entities/particle.py:20-34 | the fields become the reset particle for the current scale and parameters |
| Particles.Particle.Activate | Wyklad/entities/particle.py:36-52 | the fields become the activated particle for the current scale and parameters |
| Particles.Particle.Place | Wyklad/entities/particle.py:21-30 | the pose and launch velocity shared by `reset` and `activate` |
| Particles.Particle.Aim | Wyklad/entities/particle.py:25-30 | the scaled jitter along the heading, the scaled rise and the size |
| Particles.Particle.Update | Wyklad/entities/particle.py:54-91 | the fields become the updated particle |
| Particles.Particle.MoveStem | Wyklad/entities/particle.py:59-75 | the stem branch: move, brake, and switch to cloud at the threshold |
| Particles.Particle.Bloom | Wyklad/entities/particle.py:66-75 | the switch to cloud with the drawn spread and lift |
| Particles.Particle.MoveCloud | Wyklad/entities/particle.py:77-87 | the cloud branch: move, gravity and air resistance |
| Particles.Particle.Drift | Wyklad/entities/particle.py:60-62 | the position moves by the velocity times `dt` |
| SandParticles.RestedPose | Wyklad/entities/sand_particle.py:19-45 | `reset` leaves an inactive particle at x = z = 0, `0.05` to `0.15` times the scale above the ground, with age 0, life within the configured bounds, gravity `9.8 * multiplier * scale`, size from 2 to 5, a sandy colour, and the scaled speed split along heading and elevation |
| SandParticles.SprayedHeight | Wyklad/entities/sand_particle.py:21 | the launch height is between `0.05 * scale` and `0.15 * scale` above the ground |
| SandParticles.SprayedUpwards | Wyklad/entities/sand_particle.py:25-32 | with non-negative speed bounds and scale the particle is thrown upwards |
| SandParticles.RestIsSprayed | Wyklad/entities/sand_particle.py:19-45 | `reset` is the shared trajectory plus a fresh size and colour, inactive, and depends on the old state only through its scale and parameters |
| SandParticles.LaunchMatchesRest | Wyklad/entities/sand_particle.py:47-65 | `activate` sets the same trajectory as `reset` with the same draws, makes the particle live, and keeps its size and colour |
| SandParticles.UpdateNeverActivates | Wyklad/entities/sand_particle.py:67-69 | updating an inactive particle changes nothing, and no update makes a particle active |
| SandParticles.UpdateFlight | Wyklad/entities/sand_particle.py:70-75 | an active update that does not expire applies gravity before moving: `vy' = vy - gravity * dt`, `y' = y + vy' * dt`; x and z use the old horizontal speed; age grows and life shrinks by `dt`; gravity, size and colour stay |
| SandParticles.UpdateExpiry | Wyklad/entities/sand_particle.py:75-78 | an active update ends inactive exactly when the new life is at most 0 or the new height is more than 0.1 below the ground, and the particle then holds the reset trajectory of the reseed draws |
| SandParticles.RunInvariants | Wyklad/entities/sand_particle.py:67-78 | over a run the scale and parameters are kept, and an inactive particle stays exactly as it is until the next `activate` |
| SandParticles.FlightLife | Wyklad/entities/sand_particle.py:75 | while a particle stays active its life has dropped by the elapsed time of the updates |
| SandParticles.SprayDiesOut | Wyklad/entities/sand_particle.py:75-78 | after updates whose steps add up to at least its life, a particle is inactive |
| SandParticles.SandParticle.constructor | Wyklad/entities/sand_particle.py:13-17 | a new sand particle is the reset particle for the given scale and parameters |
| SandParticles.SandParticle.Reset | Wyklad/entities/sand_particle.py:19-45 | the fields become the reset particle for the current scale and parameters |
| SandParticles.SandParticle.Activate | Wyklad/entities/sand_particle.py:47-65 | the fields become the activated particle |
| SandParticles.SandParticle.Spray | Wyklad/entities/sand_particle.py:48-65 | the trajectory fields shared by `reset` and `activate` |
| SandParticles.SandParticle.Refresh | Wyklad/entities/sand_particle.py:59-65 | the drawn life, age 0 and the cached gravity `9.8 * multiplier * scale` |
| SandParticles.SandParticle.Throw | Wyklad/entities/sand_particle.py:53-58 | the scaled speed split along heading and elevation |
| SandParticles.SandParticle.Update | Wyklad/entities/sand_particle.py:67-78 | the fields become the updated particle |
| SandParticles.SandParticle.Fly | Wyklad/entities/sand_particle.py:70-75 | the ballistic step: age, gravity, move, life |
| SandParticles.SandParticle.Drift | Wyklad/entities/sand_particle.py:72-74 | the position moves by the velocity times `dt` |
| MushroomExplosion.DetonatedInStages | Wyklad/mushroom_explosion.py:282-301 | the part of a step before the pool updates is the latch clearing, then the bomb update, then the exploded branch |
| MushroomExplosion.StepKeepsPools | Wyklad/mushroom_explosion.py:282-306 | a step keeps the pool sizes, the global scale and the settings |
| MushroomExplosion.StepLatchesFollowBomb | Wyklad/mushroom_explosion.py:282-300 | after every step the bomb has had one update and both latches are up exactly when it is exploded |
| MushroomExplosion.LaunchOnExplosion | Wyklad/mushroom_explosion.py:282-300 | with latches that follow the bomb, a step activates each pool exactly when the bomb explodes in that step |
| MushroomExplosion.RunKeepsExploded | Wyklad/mushroom_explosion.py:285 | over a run an exploded bomb stays exploded, and the pools, scale and settings are kept |
| MushroomExplosion.ActivateOnce | Wyklad/mushroom_explosion.py:282-300 | over any run each pool is activated exactly once if the bomb explodes during it, and never otherwise |
| MushroomExplosion.QuietUntilExplosion | Wyklad/mushroom_explosion.py:282-306 | before the explosion a step from a quiet world only moves the bomb |
| MushroomExplosion.ExplosionStep | Wyklad/mushroom_explosion.py:286-303 | in the step where the bomb explodes, every pool member gets the global scale and settings, is activated, and then updated once |
| MushroomExplosion.OrdinaryStep | Wyklad/mushroom_explosion.py:302-306 | in every other step each pool member is just updated once |
| MushroomExplosion.RingLoops | Wyklad/mushroom_explosion.py:286-301 | the ring is left alone before the explosion; afterwards an inactive ring is restarted with the global scale and updated, so it is active again for a positive scale and a step of at most 4 s |
| MushroomExplosion.RestartIsQuiet | Wyklad/mushroom_explosion.py:76-94 | `reset_simulation` leaves a quiet world: the bomb restored with its speed, the ring dormant, the scale read from the settings (1.0 by default), every pool member equal to the reset state for that scale, the settings and its own draws, both latches down |
| MushroomExplosion.RestartIdempotent | Wyklad/mushroom_explosion.py:76-94 | resetting twice with the same draws gives the same world as resetting once, from any world |
| MushroomExplosion.OpenedIsRestart | Wyklad/mushroom_explosion.py:96-101 | the world `main` sets up is quiet, and a reset with the same settings and bomb speed brings it back |
| MushroomExplosion.RestartLaunchesOnce | Wyklad/mushroom_explosion.py:76-94 | after a reset the next explosion activates each pool exactly once |
| MushroomExplosion.Simulation.constructor | Wyklad/mushroom_explosion.py:98-101 | the set-up (the globals here, the pools, bomb and ring at `Wyklad/mushroom_explosion.py:219-222`) gives the loaded settings, the scale read from them, one reset particle per slot in each pool, a new bomb and ring, and both latches down |
| MushroomExplosion.Simulation.NewParticles | Wyklad/mushroom_explosion.py:219 | one new, distinct particle per slot, each constructed with the global scale and settings |
| MushroomExplosion.Simulation.NewSands | Wyklad/mushroom_explosion.py:220 | one new, distinct sand particle per slot, each constructed with the global scale and settings |
| MushroomExplosion.Simulation.Step | Wyklad/mushroom_explosion.py:282-306 | the state becomes the stepped world |
| MushroomExplosion.Simulation.Detonate | Wyklad/mushroom_explosion.py:282-301 | the state becomes the world before the pool updates |
| MushroomExplosion.Simulation.Disarm | Wyklad/mushroom_explosion.py:282-284 | both latches are lowered while the bomb is up |
| MushroomExplosion.Simulation.Lower | Wyklad/mushroom_explosion.py:93-94 | both latches are lowered, nothing else changes |
| MushroomExplosion.Simulation.DropBomb | Wyklad/mushroom_explosion.py:285 | only the bomb changes, by one update |
| MushroomExplosion.Simulation.Blast | Wyklad/mushroom_explosion.py:286-301 | the state becomes the exploded branch's world |
| MushroomExplosion.Simulation.Ignite | Wyklad/mushroom_explosion.py:287-300 | an inactive ring is started with the global scale, each pool whose latch is down is activated, and both latches are up |
| MushroomExplosion.Simulation.ArmCloud | Wyklad/mushroom_explosion.py:289-294 | the cloud pool is activated unless its latch is up, and the latch is raised |
| MushroomExplosion.Simulation.ArmSand | Wyklad/mushroom_explosion.py:295-300 | the sand pool is activated unless its latch is up, and the latch is raised |
| MushroomExplosion.Simulation.LaunchParticles | Wyklad/mushroom_explosion.py:290-293 | every cloud particle gets the global scale and settings and is activated |
| MushroomExplosion.Simulation.ShootSand | Wyklad/mushroom_explosion.py:296-299 | every sand particle gets the global scale and settings and is activated |
| MushroomExplosion.Simulation.UpdateParticles | Wyklad/mushroom_explosion.py:302 | every cloud particle is updated once |
| MushroomExplosion.Simulation.UpdateSands | Wyklad/mushroom_explosion.py:303 | every sand particle is updated once |
| MushroomExplosion.Simulation.ResetSimulation | Wyklad/mushroom_explosion.py:76-94 | the state becomes the restarted world |
| MushroomExplosion.Simulation.Rescale | Wyklad/mushroom_explosion.py:79 | the global scale is read again from the settings |
| MushroomExplosion.Simulation.RestoreBomb | Wyklad/mushroom_explosion.py:78 | only the bomb changes, to its restored pose |
| MushroomExplosion.Simulation.ParkRing | Wyklad/mushroom_explosion.py:92 | only the ring changes, to dormant |
| MushroomExplosion.Simulation.RestPools | Wyklad/mushroom_explosion.py:84-91 | both pools are reset with the global scale and settings |
| MushroomExplosion.Simulation.RestParticles | Wyklad/mushroom_explosion.py:84-87 | every cloud particle gets the global scale and settings and is reset |
| MushroomExplosion.Simulation.RestSands | Wyklad/mushroom_explosion.py:88-91 | every sand particle gets the global scale and settings and is reset |

## Left out

- Drawing: every `draw` method and `Wyklad/graphics/drawing.py`. They emit OpenGL calls and hold no simulation logic.
- `load_obj` and `model_loaded` in `Wyklad/entities/bomb.py`. This is file parsing for the bomb's mesh, used only for drawing.
- The GUI, camera and window parts of `main`, and `save_settings`. The slider handlers (`Wyklad/mushroom_explosion.py:237-266`) change `current_settings` and the particles' scales between steps; they are not modelled.
- Parameter aliasing. Each particle holds the one shared `current_settings` dictionary, so a slider's change reaches every particle at once. In the model the settings are a map value copied into each particle, which is equivalent as long as no slider moves.
- The file and JSON part of `load_settings`. Reading and parsing the file become the `SettingsFile` value, and the console messages are dropped. Every value of a parsed file is taken to be a number. When `update` fails part-way, as for a JSON list whose later entry is not a key/value pair, the pairs applied before the failure stay; the model expresses this as `Parsed` of those pairs, not as `Unreadable`. Keys outside the known fourteen are kept as `Key.Other`, and `Key.Other` carries only such names: a file entry for a known name is read as that name's own constructor.
- Random draws, `math.cos` and `math.sin`: the values they return are parameters. Headings are only bounded to [-1, 1] and are not tied to the unit circle.
- SandParticles.ValidElevation bounds the cosine and sine of the elevation angle (drawn from pi/6 to pi/3) by 1/2 and 1, which is looser than the exact bound sqrt(3)/2.
- Floating-point rounding: all quantities are real numbers.
- The pygame clock: `dt` is a parameter of each step.
- The values of `GROUND_LEVEL`, `NUM_PARTICLES`, `NUM_SAND_PARTICLES` and the `DEFAULT_*` settings. The `config` module is not part of this model, so they are unspecified constants and every property holds for any value.
- MushroomExplosion.Simulation.Step: both branches of the source end with the same two pool-update loops (`Wyklad/mushroom_explosion.py:302-306`), so the model writes them once after the branch.
- The evaluation order inside `reset` and `activate` of a sand particle. The model sets the trajectory fields first, then the size, the flag and the colour; no statement reads a field another one writes, so the end state is the same.
