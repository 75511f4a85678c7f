// Data model of the older TypoMoss engine: its three animation modes and their
// durations, vector elements, render instances and the render config.
module LegacyTypes {
  import opened Wrappers

  /** The older engine's `AnimationMode` union. */
  datatype LegacyMode = LegacyLayered | LegacyPulse | LegacyFlicker

  /** `ANIMATION_MODE_DEFAULTS[mode].duration`: every mode lives 1800 frames. */
  function Duration(m: LegacyMode): (d: int)
    ensures d == 1800
  {
    match m
    case LegacyLayered => 1800
    case LegacyPulse => 1800
    case LegacyFlicker => 1800
  }

  const PulseScaleMin: real := 0.6
  const PulseScaleMax: real := 1.2
  const FlickerFrequency: real := 0.4

  /** A vector element of the older engine; `customData.svgPath` is `svgPath`. */
  datatype LegacyElement = LegacyElement(
    id: string,
    name: string,
    animationMode: LegacyMode,
    color: Option<string>,
    weight: Option<real>,
    svgPath: Option<string>)

  /** A render instance of the older engine; `serial` is the N of its `inst-N` id. */
  datatype LegacyInstance = LegacyInstance(
    serial: nat,
    elementId: string,
    elementName: string,
    x: real,
    y: real,
    size: real,
    rotation: real,
    opacity: real,
    animationMode: LegacyMode,
    age: int,
    lifespan: int,
    seed: real)

  /** `RenderConfig` of the older engine. */
  datatype LegacyConfig = LegacyConfig(
    canvasWidth: real,
    canvasHeight: real,
    backgroundColor: string,
    density: real,
    spawnRate: real,
    maxInstances: real,
    minSize: real,
    maxSize: real)

  /** `Partial<RenderConfig>`: `None` is an absent key. */
  datatype LegacyConfigPatch = LegacyConfigPatch(
    canvasWidth: Option<real>,
    canvasHeight: Option<real>,
    backgroundColor: Option<string>,
    density: Option<real>,
    spawnRate: Option<real>,
    maxInstances: Option<real>,
    minSize: Option<real>,
    maxSize: Option<real>)

  /** `DEFAULT_RENDER_CONFIG`. */
  const LegacyDefaultConfig := LegacyConfig(1920.0, 1080.0, "#ffffff", 0.6, 0.15, 250.0, 20.0, 120.0)

  function Pick<T>(o: Option<T>, d: T): (r: T)
    ensures o.Some? ==> r == o.value
    ensures o.None? ==> r == d
  {
    if o.Some? then o.value else d
  }

  /** `{ ...config, ...patch }`: every key the patch supplies wins, every other key is kept. */
  function MergeLegacyConfig(c: LegacyConfig, p: LegacyConfigPatch): (r: LegacyConfig)
    ensures r.canvasWidth == (if p.canvasWidth.Some? then p.canvasWidth.value else c.canvasWidth)
    ensures r.canvasHeight == (if p.canvasHeight.Some? then p.canvasHeight.value else c.canvasHeight)
    ensures r.backgroundColor == (if p.backgroundColor.Some? then p.backgroundColor.value else c.backgroundColor)
    ensures r.density == (if p.density.Some? then p.density.value else c.density)
    ensures r.spawnRate == (if p.spawnRate.Some? then p.spawnRate.value else c.spawnRate)
    ensures r.maxInstances == (if p.maxInstances.Some? then p.maxInstances.value else c.maxInstances)
    ensures r.minSize == (if p.minSize.Some? then p.minSize.value else c.minSize)
    ensures r.maxSize == (if p.maxSize.Some? then p.maxSize.value else c.maxSize)
    ensures p == LegacyConfigPatch(None, None, None, None, None, None, None, None) ==> r == c
  {
    LegacyConfig(
      Pick(p.canvasWidth, c.canvasWidth),
      Pick(p.canvasHeight, c.canvasHeight),
      Pick(p.backgroundColor, c.backgroundColor),
      Pick(p.density, c.density),
      Pick(p.spawnRate, c.spawnRate),
      Pick(p.maxInstances, c.maxInstances),
      Pick(p.minSize, c.minSize),
      Pick(p.maxSize, c.maxSize))
  }
}
