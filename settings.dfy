/** The tunable parameters: a flat map from setting names to numbers,
    read with a fallback default, and built at start-up by overlaying the
    settings file (when it could be read) on the defaults. */
module Settings {
  import Config

  /** A setting name. The fourteen names the program knows get their own
      constructor (`ExplosionScale` is "explosion_scale", `CloudSpreadSpeedMin`
      is "cloud_spread_speed_min", and so on); any other name a settings file
      may carry is kept as `Other`. `Other` carries only names outside the
      fourteen: a file entry for a known name is always read as that name's
      own constructor, so no setting has two keys. */
  datatype Key =
    | ExplosionScale
    | CloudSpreadSpeedMin | CloudSpreadSpeedMax
    | CloudInitialLiftMin | CloudInitialLiftMax
    | CloudAirResistance | CloudGravity
    | ParticleLifeMultiplier
    | SandSpeedMin | SandSpeedMax
    | SandGravityMultiplier
    | SandLifeMin | SandLifeMax
    | BombVisualScale
    | Other(name: string)

  type Params = map<Key, real>

  /** Default explosion scale and bomb drawing scale, set in the controller itself. */
  const DefaultExplosionScale: real := 1.0
  const DefaultBombVisualScale: real := 0.5

  /** `params.get(key, default)`. */
  function Lookup(params: Params, key: Key, default: real): real {
    if key in params then params[key] else default
  }

  /** The fourteen default settings. */
  function Defaults(): (d: Params)
    ensures forall k: Key :: k in d <==> !k.Other?
  {
    map[
      ExplosionScale := DefaultExplosionScale,
      CloudSpreadSpeedMin := Config.DefaultCloudSpreadSpeedMin,
      CloudSpreadSpeedMax := Config.DefaultCloudSpreadSpeedMax,
      CloudInitialLiftMin := Config.DefaultCloudInitialLiftMin,
      CloudInitialLiftMax := Config.DefaultCloudInitialLiftMax,
      CloudAirResistance := Config.DefaultCloudAirResistance,
      CloudGravity := Config.DefaultCloudGravity,
      ParticleLifeMultiplier := Config.DefaultParticleLifeMultiplier,
      SandSpeedMin := Config.DefaultSandSpeedMin,
      SandSpeedMax := Config.DefaultSandSpeedMax,
      SandGravityMultiplier := Config.DefaultSandGravityMultiplier,
      SandLifeMin := Config.DefaultSandLifeMin,
      SandLifeMax := Config.DefaultSandLifeMax,
      BombVisualScale := DefaultBombVisualScale
    ]
  }

  /** What reading the settings file produced: the file is missing, it is not
      valid JSON, reading failed in some other way before anything was merged,
      or it yielded the key/value pairs that were merged. A failure part-way
      through the merge keeps the pairs merged so far, which is `Parsed` of
      those pairs. */
  datatype SettingsFile = Missing | Malformed | Unreadable | Parsed(values: Params)

  /** The settings after start-up: a copy of the defaults, updated with the parsed file. */
  function LoadSettings(file: SettingsFile): Params {
    match file
    case Parsed(values) => Defaults() + values
    case _ => Defaults()
  }

  /** Every known setting is present after loading; a loaded key overrides its
      default; a default key the file does not mention keeps its default value;
      and no key comes from anywhere but the defaults or the file. */
  lemma LoadSettingsMerge(file: SettingsFile)
    ensures forall k: Key :: !k.Other? ==> k in LoadSettings(file)
    ensures file.Parsed? ==> LoadSettings(file).Keys == Defaults().Keys + file.values.Keys
    ensures !file.Parsed? ==> LoadSettings(file) == Defaults()
    ensures forall k :: file.Parsed? && k in file.values ==> LoadSettings(file)[k] == file.values[k]
    ensures forall k :: k in Defaults() && !(file.Parsed? && k in file.values) ==>
      LoadSettings(file)[k] == Defaults()[k]
  {
  }

  /** Once the settings are loaded, reading a known setting never falls back
      to the default given at the call: it yields the file's value when the
      file has one and the built-in default otherwise. */
  lemma LoadedLookup(file: SettingsFile, k: Key, d: real)
    requires !k.Other?
    ensures Lookup(LoadSettings(file), k, d) ==
      if file.Parsed? && k in file.values then file.values[k] else Defaults()[k]
  {
    LoadSettingsMerge(file);
  }

  /** The explosion scale the controller starts from: the file's value when it has
      one, otherwise 1.0. */
  lemma LoadedExplosionScale(file: SettingsFile)
    ensures file.Parsed? && ExplosionScale in file.values ==>
      Lookup(LoadSettings(file), ExplosionScale, DefaultExplosionScale) == file.values[ExplosionScale]
    ensures !(file.Parsed? && ExplosionScale in file.values) ==>
      Lookup(LoadSettings(file), ExplosionScale, DefaultExplosionScale) == 1.0
  {
  }
}
