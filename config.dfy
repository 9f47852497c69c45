/** The constants the entities import from the project's `config` module.
    That module is not part of this model, so its values stay unspecified:
    every property proved below holds whatever they are. */
module Config {
  /** Height of the ground plane (GROUND_LEVEL). */
  const GroundLevel: real

  /** Sizes of the cloud and sand pools (NUM_PARTICLES, NUM_SAND_PARTICLES). */
  const NumParticles: nat
  const NumSandParticles: nat

  const DefaultCloudSpreadSpeedMin: real
  const DefaultCloudSpreadSpeedMax: real
  const DefaultCloudInitialLiftMin: real
  const DefaultCloudInitialLiftMax: real
  const DefaultCloudAirResistance: real
  const DefaultCloudGravity: real
  const DefaultParticleLifeMultiplier: real
  const DefaultSandSpeedMin: real
  const DefaultSandSpeedMax: real
  const DefaultSandGravityMultiplier: real
  const DefaultSandLifeMin: real
  const DefaultSandLifeMax: real
}
