// Data model of the TypoMoss engine (current revision): animation modes, vector
// element descriptors, per-element configs, render instances and the render config,
// with the constant tables the renderer reads.
module MossTypes {
  import opened Wrappers

  /** The animation modes; `Instant` is produced by the loader although the mode union omits it. */
  datatype Mode = Layered | Rotate | Pulse | Flicker | Grow | Random | Title | Instant

  /** A JavaScript number used with `x || d`: zero counts as missing. */
  function OrNum(x: real, d: real): (r: real)
    ensures x != 0.0 ==> r == x
    ensures x == 0.0 ==> r == d
  {
    if x != 0.0 then x else d
  }

  /** An optional number used with `x || d`: absent and zero both give the default. */
  function OptOr(x: Option<real>, d: real): (r: real)
    ensures (x.Some? && x.value != 0.0) ==> r == x.value
    ensures (x.None? || x.value == 0.0) ==> r == d
  {
    if x.Some? then OrNum(x.value, d) else d
  }

  /** A raw value found in a random-mode probability map. */
  datatype RawProb =
    | Missing              // a key present with value null or undefined
    | Num(x: real)          // a finite number
    | NonFinite             // NaN or an infinite number
    | Text(s: string)       // a string, parsed by the renderer
    | Other                 // any other JSON value (boolean, object, array)

  /** A vector element descriptor (`VectorElement`); `customData` holds `svgPath` and `defaultColor`. */
  datatype VectorElement = VectorElement(
    id: string,
    name: string,
    animationMode: Mode,
    color: Option<string>,
    weight: Option<real>,
    svgPath: Option<string>,
    defaultColor: Option<string>)

  /** A per-element config (`ElementConfig`); optional fields are the ones the tables may omit. */
  datatype ElementConfig = ElementConfig(
    elementId: string,
    frequency: real,
    size: Option<real>,
    maxSize: Option<real>,
    animationMode: Mode,
    animationSpeed: real,
    randomModeConfig: Option<map<string, RawProb>>,
    color: Option<string>)

  /** A partial config as passed to `updateElementConfig`; `None` is an absent key. */
  datatype ConfigPatch = ConfigPatch(
    frequency: Option<real>,
    size: Option<real>,
    maxSize: Option<real>,
    animationMode: Option<Mode>,
    animationSpeed: Option<real>,
    randomModeConfig: Option<map<string, RawProb>>,
    color: Option<string>)

  /** `{ ...existing, ...patch }`: every key the patch supplies wins, every other key is kept, and the id never changes. */
  function MergeConfig(c: ElementConfig, p: ConfigPatch): (r: ElementConfig)
    ensures r.elementId == c.elementId
    ensures r.frequency == (if p.frequency.Some? then p.frequency.value else c.frequency)
    ensures r.size == (if p.size.Some? then p.size else c.size)
    ensures r.maxSize == (if p.maxSize.Some? then p.maxSize else c.maxSize)
    ensures r.animationMode == (if p.animationMode.Some? then p.animationMode.value else c.animationMode)
    ensures r.animationSpeed == (if p.animationSpeed.Some? then p.animationSpeed.value else c.animationSpeed)
    ensures r.randomModeConfig == (if p.randomModeConfig.Some? then p.randomModeConfig else c.randomModeConfig)
    ensures r.color == (if p.color.Some? then p.color else c.color)
  {
    ElementConfig(
      c.elementId,
      if p.frequency.Some? then p.frequency.value else c.frequency,
      if p.size.Some? then p.size else c.size,
      if p.maxSize.Some? then p.maxSize else c.maxSize,
      if p.animationMode.Some? then p.animationMode.value else c.animationMode,
      if p.animationSpeed.Some? then p.animationSpeed.value else c.animationSpeed,
      if p.randomModeConfig.Some? then p.randomModeConfig else c.randomModeConfig,
      if p.color.Some? then p.color else c.color)
  }

  /** Placement record of a layered instance. */
  datatype LayerProps = LayerProps(
    baseX: real, baseY: real, stackDirection: real, stackRotation: real, fixedSize: real,
    layerIndex: nat, clusterId: int, maxLayersInCluster: int, baseRotation: real, stackSpacing: real)

  /** Placement record of a grow instance. */
  datatype GrowProps = GrowProps(
    baseX: real, baseY: real, growDirection: real, growSpacing: real, growRotation: real,
    layerIndex: nat, stackId: int)

  /** `customProps` of an instance. */
  datatype CustomProps = CustomProps(
    animationSpeed: Option<real>,
    actualMode: Mode,
    rotationDirection: Option<int>,
    flickerCount: Option<int>,
    layer: Option<LayerProps>,
    grow: Option<GrowProps>)

  /** A render instance; `id` is the counter value N of the key `inst-N`. */
  datatype RenderInstance = RenderInstance(
    id: nat,
    elementId: string,
    elementName: string,
    x: real,
    y: real,
    size: real,
    rotation: real,
    opacity: real,
    animationMode: Mode,
    age: int,
    lifespan: int,
    seed: real,
    props: CustomProps)

  /** The render config, including the optional keys the renderer reads. */
  datatype RenderConfig = RenderConfig(
    canvasWidth: real,
    canvasHeight: real,
    backgroundColor: string,
    density: Option<real>,
    spawnRate: real,
    maxInstances: real,
    minSize: Option<real>,
    maxSize: Option<real>,
    spawnSpeed: Option<real>,
    seed: Option<int>,
    resetIntervalSeconds: Option<real>)

  /** A partial render config (`Partial<RenderConfig>`). */
  datatype RenderConfigPatch = RenderConfigPatch(
    canvasWidth: Option<real>,
    canvasHeight: Option<real>,
    backgroundColor: Option<string>,
    density: Option<real>,
    spawnRate: Option<real>,
    maxInstances: Option<real>,
    spawnSpeed: Option<real>,
    seed: Option<int>,
    resetIntervalSeconds: Option<real>)

  /** `{ ...config, ...patch }`: every key the patch supplies wins; the size bounds, which no patch carries, are kept. */
  function MergeRenderConfig(c: RenderConfig, p: RenderConfigPatch): (r: RenderConfig)
    ensures r.canvasWidth == (if p.canvasWidth.Some? then p.canvasWidth.value else c.canvasWidth)
    ensures r.canvasHeight == (if p.canvasHeight.Some? then p.canvasHeight.value else c.canvasHeight)
    ensures r.backgroundColor == (if p.backgroundColor.Some? then p.backgroundColor.value else c.backgroundColor)
    ensures r.density == (if p.density.Some? then p.density else c.density)
    ensures r.spawnRate == (if p.spawnRate.Some? then p.spawnRate.value else c.spawnRate)
    ensures r.maxInstances == (if p.maxInstances.Some? then p.maxInstances.value else c.maxInstances)
    ensures r.spawnSpeed == (if p.spawnSpeed.Some? then p.spawnSpeed else c.spawnSpeed)
    ensures r.seed == (if p.seed.Some? then p.seed else c.seed)
    ensures r.resetIntervalSeconds == (if p.resetIntervalSeconds.Some? then p.resetIntervalSeconds else c.resetIntervalSeconds)
    ensures r.minSize == c.minSize && r.maxSize == c.maxSize
  {
    RenderConfig(
      if p.canvasWidth.Some? then p.canvasWidth.value else c.canvasWidth,
      if p.canvasHeight.Some? then p.canvasHeight.value else c.canvasHeight,
      if p.backgroundColor.Some? then p.backgroundColor.value else c.backgroundColor,
      if p.density.Some? then p.density else c.density,
      if p.spawnRate.Some? then p.spawnRate.value else c.spawnRate,
      if p.maxInstances.Some? then p.maxInstances.value else c.maxInstances,
      c.minSize,
      c.maxSize,
      if p.spawnSpeed.Some? then p.spawnSpeed else c.spawnSpeed,
      if p.seed.Some? then p.seed else c.seed,
      if p.resetIntervalSeconds.Some? then p.resetIntervalSeconds else c.resetIntervalSeconds)
  }

  const DefaultRenderConfig := RenderConfig(1920.0, 1080.0, "#ffffff", Some(0.6), 0.15, 250.0,
    Some(20.0), Some(120.0), None, None, None)

  /** The colour every element is drawn in unless recoloured. */
  const PrimaryGreen := "#1AB551"

  /** `ANIMATION_MODE_DEFAULTS[mode].duration`; `None` where the table has no entry. */
  function ModeDuration(m: Mode): (r: Option<int>)
    ensures r.Some? <==> m in {Layered, Rotate, Pulse, Instant}
    ensures r.Some? ==> r.value > 0
  {
    match m
    case Layered => Some(1800)
    case Rotate => Some(1200)
    case Pulse => Some(900)
    case Instant => Some(1800)
    case _ => None
  }

  /** `ANIMATION_MODE_DEFAULTS.rotate.rotationSpeed` (turns per lifetime). */
  const RotateRotationSpeed: real := 2.0

  /** `ANIMATION_MODE_DEFAULTS.pulse.bounceAmount`. */
  const PulseBounceAmount: real := 0.15

  /** Assumed weights for `DEFAULT_RANDOM_MODE_CONFIG`, which renderer.ts imports but config.ts does not define. */
  function DefaultRandomWeight(m: Mode): real {
    match m
    case Layered => 0.2
    case Rotate => 0.3
    case Pulse => 0.3
    case Flicker => 0.1
    case Grow => 0.1
    case _ => 0.0
  }

  function TableConfig(id: string, frequency: real, maxSize: real, mode: Mode): ElementConfig {
    ElementConfig(id, frequency, None, Some(maxSize), mode, 1.0, None, None)
  }

  /** `ELEMENT_CONFIGS`: the hand-tuned configs of the shipped SVG elements, one row per element id. */
  const ElementConfigRows: seq<ElementConfig> := [
    TableConfig("svg-vector_sticker_1", 0.8, 120.0, Layered),
    TableConfig("svg-vector_sticker_2", 0.8, 120.0, Layered),
    TableConfig("svg-vector_sticker_3", 0.8, 120.0, Layered),
    TableConfig("svg-vector_circle_1", 0.12, 100.0, Pulse),
    TableConfig("svg-vector_circle_2", 0.12, 100.0, Pulse),
    TableConfig("svg-vector_4", 0.1, 110.0, Rotate),
    TableConfig("svg-vector_5", 0.1, 110.0, Rotate),
    TableConfig("svg-vector_6", 0.1, 110.0, Instant),
    TableConfig("svg-vector_7", 0.1, 110.0, Instant),
    TableConfig("svg-vector_8", 0.1, 110.0, Instant),
    TableConfig("svg-vector_9", 0.1, 110.0, Instant),
    TableConfig("svg-vector_10", 0.1, 110.0, Instant)
  ]

  /** The row keyed by `id`, if any. */
  function TableLookup(rows: seq<ElementConfig>, id: string): (r: Option<ElementConfig>)
    ensures r.Some? ==> r.value in rows && r.value.elementId == id
    ensures r.None? ==> forall c :: c in rows ==> c.elementId != id
  {
    if rows == [] then None
    else if rows[0].elementId == id then Some(rows[0])
    else TableLookup(rows[1..], id)
  }

  /** `ELEMENT_CONFIGS[id]`. */
  function TableEntry(id: string): (r: Option<ElementConfig>)
    ensures r.Some? ==> r.value.elementId == id
  {
    TableLookup(ElementConfigRows, id)
  }

  /** The values of Math used by the engine, supplied from outside with the bounds the proofs use. */
  datatype MathLib = MathLib(pi: real, sin: real -> real, cos: real -> real, sqrt: real -> real)
  {
    /** The square root of a positive number is positive. */
    ghost predicate SqrtPositiveAt(x: real) {
      0.0 < x ==> 0.0 < sqrt(x)
    }

    /** The sine is in [0, 1] on the first half-turn. */
    ghost predicate SinBoundedAt(x: real) {
      0.0 <= x <= pi ==> 0.0 <= sin(x) <= 1.0
    }

    /** Both laws hold everywhere; a proof that needs one at `x` mentions it at `x`. */
    ghost predicate Lawful() {
      3.14 < pi < 3.15 &&
      (forall x {:trigger SqrtPositiveAt(x)} :: SqrtPositiveAt(x)) &&
      (forall x {:trigger SinBoundedAt(x)} :: SinBoundedAt(x))
    }
  }
}
