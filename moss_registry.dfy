// The value-level rules behind the TypoMoss renderer's stores: the config registered
// for each element, the ordered list of title elements, the per-frame aging of an
// instance and the hot-swap applied to live instances when an element's config changes.
module MossRegistry {
  import opened Wrappers
  import opened JsStrings
  import opened MossTypes
  import opened MossRandomMode
  import opened MossSpawn
  import opened MossPlacement
  import opened MossDraw

  function Lookup<K, V>(m: map<K, V>, k: K): (r: Option<V>)
    ensures r.Some? <==> k in m
    ensures r.Some? ==> r.value == m[k]
  {
    if k in m then Some(m[k]) else None
  }

  // ---- element registration ------------------------------------------------------

  /** Frequency inferred from the file name when an element has no table entry. */
  function DefaultFrequency(name: string): real {
    if Includes(name, "sticker") then 0.8 else if Includes(name, "circle") then 0.12 else 0.1
  }

  /** The config `setElements` registers for one element: its table entry, else one inferred from its name and mode. */
  function ConfigFor(el: VectorElement): (c: ElementConfig)
    ensures c.elementId == el.id
    ensures TableEntry(el.id).Some? ==> c == TableEntry(el.id).value
    ensures TableEntry(el.id).None? ==>
      c.animationMode == el.animationMode && c.size == Some(100.0) && c.animationSpeed == 1.0 &&
      c.randomModeConfig.None? && c.color.None? &&
      (Includes(el.name, "sticker") ==> c.frequency == 0.8) &&
      (!Includes(el.name, "sticker") && Includes(el.name, "circle") ==> c.frequency == 0.12) &&
      (!Includes(el.name, "sticker") && !Includes(el.name, "circle") ==> c.frequency == 0.1)
  {
    if TableEntry(el.id).Some? then TableEntry(el.id).value
    else ElementConfig(el.id, DefaultFrequency(el.name), Some(100.0), None, el.animationMode, 1.0, None, None)
  }

  /** The registry after registering `els` in order: every id present, each mapped to the config of its last element. */
  function ConfigsFor(els: seq<VectorElement>): (m: map<string, ElementConfig>)
    ensures forall e :: e in els ==> e.id in m
    ensures forall id :: id in m ==> exists e :: e in els && e.id == id && m[id] == ConfigFor(e)
    ensures forall id :: id in m && TableEntry(id).Some? ==> m[id] == TableEntry(id).value
    ensures els != [] ==> m[els[|els| - 1].id] == ConfigFor(els[|els| - 1])
  {
    if els == [] then map[]
    else
      var init := els[..|els| - 1];
      var last := els[|els| - 1];
      assert forall e :: e in els <==> e in init || e == last;
      ConfigsFor(init)[last.id := ConfigFor(last)]
  }

  /** Registering one more element updates only its own entry. */
  lemma ConfigsForPrefix(els: seq<VectorElement>, i: nat)
    requires i < |els|
    ensures ConfigsFor(els[..i + 1]) == ConfigsFor(els[..i])[els[i].id := ConfigFor(els[i])]
  {
    assert els[..i + 1][..i] == els[..i];
  }

  /** `customData.defaultColor ||= color || '#1AB551'`: the colour an element is recoloured away from. */
  function WithDefaultColor(el: VectorElement): (r: VectorElement)
    ensures r == el.(defaultColor := r.defaultColor)
    ensures r.defaultColor.Some? && r.defaultColor.value != []
    ensures StrOr(el.defaultColor, "") != [] ==> r == el
    ensures StrOr(el.defaultColor, "") == [] ==> r.defaultColor == Some(StrOr(el.color, PrimaryGreen))
  {
    if StrOr(el.defaultColor, "") != [] then el
    else el.(defaultColor := Some(StrOr(el.color, PrimaryGreen)))
  }

  /** Every element with its default colour filled in, in order (the `map` of `setElements`). */
  function DefaultColored(els: seq<VectorElement>): (r: seq<VectorElement>)
    ensures |r| == |els|
    ensures forall i :: 0 <= i < |els| ==> r[i] == WithDefaultColor(els[i])
  {
    if els == [] then [] else DefaultColored(els[..|els| - 1]) + [WithDefaultColor(els[|els| - 1])]
  }

  /** Colouring one more element appends it. */
  lemma DefaultColoredPrefix(els: seq<VectorElement>, i: nat)
    requires i < |els|
    ensures DefaultColored(els[..i + 1]) == DefaultColored(els[..i]) + [WithDefaultColor(els[i])]
  {
    assert els[..i + 1][..i] == els[..i];
  }

  predicate IsTitleElement(el: VectorElement, configs: map<string, ElementConfig>) {
    el.id in configs && configs[el.id].animationMode == Title
  }

  /** The ids of the elements whose registered mode is `title`, in element order. */
  function TitleIds(els: seq<VectorElement>, configs: map<string, ElementConfig>): (r: seq<string>)
    ensures |r| <= |els|
    ensures forall id :: id in r <==> exists e :: e in els && e.id == id && IsTitleElement(e, configs)
  {
    if els == [] then []
    else
      assert forall e :: e in els <==> e == els[0] || e in els[1..];
      (if IsTitleElement(els[0], configs) then [els[0].id] else []) + TitleIds(els[1..], configs)
  }

  /** The order titles are introduced in: the title ids, sorted. */
  function TitleOrder(els: seq<VectorElement>, configs: map<string, ElementConfig>): (r: seq<string>)
    ensures SortedStrings(r)
    ensures multiset(r) == multiset(TitleIds(els, configs))
  {
    SortStrings(TitleIds(els, configs))
  }

  /** An id is in the title order exactly when some element with that id is registered as a title. */
  lemma TitleOrderMembers(els: seq<VectorElement>, configs: map<string, ElementConfig>, id: string)
    ensures id in TitleOrder(els, configs) <==> exists e :: e in els && e.id == id && IsTitleElement(e, configs)
  {
    var r := TitleOrder(els, configs);
    assert id in r <==> id in multiset(r);
    assert id in TitleIds(els, configs) <==> id in multiset(TitleIds(els, configs));
  }

  /** The first element with the given id (`findIndex`), or -1. */
  function FindElement(els: seq<VectorElement>, id: string): (r: int)
    ensures -1 <= r < |els|
    ensures r >= 0 ==> els[r].id == id && forall j :: 0 <= j < r ==> els[j].id != id
    ensures r == -1 ==> forall j :: 0 <= j < |els| ==> els[j].id != id
  {
    var keys := seq(|els|, i requires 0 <= i < |els| => els[i].id);
    assert forall j :: 0 <= j < |els| ==> keys[j] == els[j].id;
    FirstIndexOf(keys, id)
  }

  /** `findIndex` over a list of keys: the first position holding `key`, or -1. */
  function FirstIndexOf(keys: seq<string>, key: string): (r: int)
    ensures -1 <= r < |keys|
    ensures r >= 0 ==> keys[r] == key && forall j :: 0 <= j < r ==> keys[j] != key
    ensures r == -1 ==> forall j :: 0 <= j < |keys| ==> keys[j] != key
  {
    if keys == [] then -1
    else if keys[0] == key then 0
    else
      var k := FirstIndexOf(keys[1..], key);
      if k < 0 then -1 else k + 1
  }

  // ---- instance creation inputs --------------------------------------------------

  /** `elementConfig?.animationMode || element.animationMode`. */
  function ConfiguredMode(cfg: Option<ElementConfig>, el: VectorElement): Mode {
    if cfg.Some? then cfg.value.animationMode else el.animationMode
  }

  /** `elementConfig?.randomModeConfig ?? {}`. */
  function RandomConfigOf(cfg: Option<ElementConfig>): map<string, RawProb> {
    if cfg.Some? && cfg.value.randomModeConfig.Some? then cfg.value.randomModeConfig.value else map[]
  }

  /** `elementConfig?.size || 100`. */
  function BaseSize(cfg: Option<ElementConfig>): (b: real)
    ensures b != 0.0
    ensures cfg.None? ==> b == 100.0
    ensures cfg.Some? ==> b == OptOr(cfg.value.size, 100.0)
  {
    if cfg.Some? then OptOr(cfg.value.size, 100.0) else 100.0
  }

  /** `elementConfig?.animationSpeed || 1`. */
  function SpeedOf(cfg: Option<ElementConfig>): (s: real)
    ensures s != 0.0
    ensures cfg.Some? && cfg.value.animationSpeed != 0.0 ==> s == cfg.value.animationSpeed
  {
    if cfg.Some? then OrNum(cfg.value.animationSpeed, 1.0) else 1.0
  }

  /** `rng() * extent`: a uniform coordinate along one canvas side. */
  function AtFraction(u: real, extent: real): (r: real)
    ensures 0.0 <= u < 1.0 && 0.0 < extent ==> 0.0 <= r < extent
  {
    if 0.0 <= u < 1.0 && 0.0 < extent then
      assert u * extent < 1.0 * extent;
      u * extent
    else u * extent
  }

  /** What a new layered instance's record must satisfy for the cluster decision taken. */
  predicate ClusterFacts(plan: ClusterPlan, layer: LayerProps, math: MathLib) {
    match plan
    case FirstCluster => layer.clusterId == 0 && layer.layerIndex == 0 && 5 <= layer.maxLayersInCluster <= 7
    case NewCluster(k) => layer.clusterId == k && layer.layerIndex == 0 && 5 <= layer.maxLayersInCluster <= 7
    case JoinCluster(k, idx, head, cap) => layer == JoinLayer(head, k, idx, cap, math).3
  }

  /** What a new grow instance's record must satisfy for the stack decision taken. */
  predicate StackFacts(plan: StackPlan, grow: GrowProps, math: MathLib) {
    match plan
    case NewStack(k) => grow.stackId == k && grow.layerIndex == 0 && grow.growRotation == grow.growDirection
    case JoinStack(k, idx, head) => grow == JoinGrow(head, k, idx, math).3
  }

  /** The spawn chance of `update` for a drawn element. */
  function ChanceFor(el: VectorElement, configs: map<string, ElementConfig>, config: RenderConfig,
                     elapsed: real, titlesPending: bool): (c: real)
    ensures var f := EffectiveFrequency(Lookup(configs, el.id));
      var v := OptOr(config.spawnSpeed, 1.0);
      0.0 <= elapsed && 0.0 <= f && 0.0 < v ==> 0.0 <= c <= f * 2.0 * v
  {
    var f := EffectiveFrequency(Lookup(configs, el.id));
    var total := RampTotal(config.resetIntervalSeconds);
    var v := OptOr(config.spawnSpeed, 1.0);
    assert 0.0 <= elapsed && 0.0 <= f && 0.0 < v ==>
      0.0 <= SpawnChance(f, el.animationMode, config.spawnSpeed, SpawnMultiplier(elapsed, total, titlesPending)) <= f * 2.0 * v by {
      if 0.0 <= elapsed && 0.0 <= f && 0.0 < v {
        SpawnChanceBounded(f, el.animationMode, config.spawnSpeed, elapsed, total, titlesPending);
      }
    }
    SpawnChance(f, el.animationMode, config.spawnSpeed, SpawnMultiplier(elapsed, total, titlesPending))
  }

  // ---- aging ---------------------------------------------------------------------

  /** The mode an instance is aged in: the resolved mode for `random`, else its own. */
  function EffectiveMode(inst: RenderInstance): (m: Mode)
    ensures m == inst.animationMode || (inst.animationMode == Random && m == inst.props.actualMode)
  {
    if inst.animationMode == Random then inst.props.actualMode else inst.animationMode
  }

  /** `x || d` on an optional integer. */
  function IntOr(x: Option<int>, d: int): (r: int)
    ensures x.Some? && x.value != 0 ==> r == x.value
    ensures (x.None? || x.value == 0) ==> r == d
  {
    if x.Some? && x.value != 0 then x.value else d
  }

  /** The rotation added per frame to a rotate instance: dt · 2π · rotationSpeed · direction · speed. */
  function RotationStep(inst: RenderInstance, dt: real, pi: real): (a: real)
    ensures dt == 0.0 ==> a == 0.0
    ensures 0.0 < dt && 0.0 < pi && 0.0 < OptOr(inst.props.animationSpeed, 1.0) ==>
      (IntOr(inst.props.rotationDirection, 1) > 0 ==> a > 0.0) && (IntOr(inst.props.rotationDirection, 1) < 0 ==> a < 0.0)
  {
    var k := dt * pi * 2.0 * RotateRotationSpeed;
    var d := IntOr(inst.props.rotationDirection, 1) as real;
    var v := OptOr(inst.props.animationSpeed, 1.0);
    assert 0.0 < dt && 0.0 < pi ==> k > 0.0;
    assert k > 0.0 && v > 0.0 ==> (d > 0.0 ==> k * d * v > 0.0) && (d < 0.0 ==> k * d * v < 0.0);
    k * d * v
  }

  /** One frame of aging: age plus one, and rotate instances turned by one step; nothing else changes. */
  function Aged(inst: RenderInstance, dt: real, pi: real): (r: RenderInstance)
    ensures r == inst.(age := inst.age + 1, rotation := r.rotation)
    ensures EffectiveMode(inst) != Rotate ==> r.rotation == inst.rotation
    ensures EffectiveMode(inst) == Rotate ==> r.rotation == inst.rotation + RotationStep(inst, dt, pi)
  {
    var older := inst.(age := inst.age + 1);
    if EffectiveMode(inst) == Rotate then older.(rotation := inst.rotation + RotationStep(inst, dt, pi))
    else older
  }

  /** A rotate instance turns the way its direction says, by a positive amount each frame. */
  lemma AgedTurnsByDirection(inst: RenderInstance, dt: real, pi: real)
    requires EffectiveMode(inst) == Rotate && dt > 0.0 && pi > 0.0
    requires inst.props.animationSpeed.None? || inst.props.animationSpeed.value >= 0.0
    ensures IntOr(inst.props.rotationDirection, 1) > 0 ==> Aged(inst, dt, pi).rotation > inst.rotation
    ensures IntOr(inst.props.rotationDirection, 1) < 0 ==> Aged(inst, dt, pi).rotation < inst.rotation
  {
    var speed := OptOr(inst.props.animationSpeed, 1.0);
    var dir := IntOr(inst.props.rotationDirection, 1) as real;
    var k := dt * pi * 2.0 * RotateRotationSpeed;
    assert speed > 0.0;
    assert k > 0.0;
    assert k * speed > 0.0;
    assert RotationStep(inst, dt, pi) == dir * (k * speed);
    if dir > 0.0 {
      assert dir * (k * speed) > 0.0;
    } else if dir < 0.0 {
      assert dir * (k * speed) < 0.0;
    }
  }

  // ---- hot-swap of live instances ----------------------------------------------

  /** The mode change of `updateElementConfig` fails (reads `.duration` of a missing table entry). */
  predicate SwapFails(patch: ConfigPatch) {
    patch.animationMode.Some? && ModeDuration(patch.animationMode.value).None?
  }

  /** `Math.round(duration / speed)`: the lifespan retimed for a mode and a speed. */
  function Retimed(duration: int, speed: real): (n: int)
    requires speed != 0.0
    ensures speed == 1.0 ==> n == duration
    ensures 0 <= duration && 0.0 < speed ==> n >= 0
  {
    JsRound(duration as real / speed)
  }

  /** The mode change applied to one matching instance; without a table entry only the mode is set. */
  function ModeStep(inst: RenderInstance, newMode: Mode, patchSpeed: Option<real>): (r: RenderInstance)
    ensures r == inst.(animationMode := newMode, lifespan := r.lifespan)
    ensures ModeDuration(newMode).None? ==> r.lifespan == inst.lifespan
    ensures ModeDuration(newMode).Some? ==>
      r.lifespan == Retimed(ModeDuration(newMode).value, OptOr(patchSpeed, OptOr(inst.props.animationSpeed, 1.0)))
  {
    var d := ModeDuration(newMode);
    if d.None? then inst.(animationMode := newMode)
    else inst.(animationMode := newMode,
               lifespan := Retimed(d.value, OptOr(patchSpeed, OptOr(inst.props.animationSpeed, 1.0))))
  }

  /** The speed change applied to one matching instance; the lifespan is retimed only for modes with a duration. */
  function SpeedStep(inst: RenderInstance, v: real): (r: RenderInstance)
    ensures r == inst.(props := inst.props.(animationSpeed := Some(v)), lifespan := r.lifespan)
    ensures ModeDuration(inst.animationMode).None? ==> r.lifespan == inst.lifespan
    ensures ModeDuration(inst.animationMode).Some? ==>
      r.lifespan == Retimed(ModeDuration(inst.animationMode).value, OrNum(v, 1.0))
  {
    var sped := inst.(props := inst.props.(animationSpeed := Some(v)));
    var d := ModeDuration(inst.animationMode);
    if d.Some? then sped.(lifespan := Retimed(d.value, OrNum(v, 1.0))) else sped
  }

  /** Both changes of a successful `updateElementConfig`, applied to one instance. */
  function Retune(inst: RenderInstance, elementId: string, patch: ConfigPatch): (r: RenderInstance)
    ensures inst.elementId != elementId ==> r == inst
    ensures r == inst.(animationMode := r.animationMode, lifespan := r.lifespan, props := r.props)
    ensures r.props == inst.props.(animationSpeed := r.props.animationSpeed)
    ensures inst.elementId == elementId && patch.animationMode.Some? ==> r.animationMode == patch.animationMode.value
    ensures inst.elementId == elementId && patch.animationMode.None? ==> r.animationMode == inst.animationMode
    ensures inst.elementId == elementId && patch.animationSpeed.Some? ==> r.props.animationSpeed == patch.animationSpeed
    ensures patch.animationSpeed.None? ==> r.props == inst.props
  {
    if inst.elementId != elementId then inst
    else
      var moded := if patch.animationMode.Some? then ModeStep(inst, patch.animationMode.value, patch.animationSpeed) else inst;
      if patch.animationSpeed.Some? then SpeedStep(moded, patch.animationSpeed.value) else moded
  }

  /** Applying the same successful config change twice leaves the instance as applying it once. */
  lemma RetuneIdempotent(inst: RenderInstance, elementId: string, patch: ConfigPatch)
    requires !SwapFails(patch)
    ensures Retune(Retune(inst, elementId, patch), elementId, patch) == Retune(inst, elementId, patch)
  {
    var once := Retune(inst, elementId, patch);
    if inst.elementId == elementId && patch.animationSpeed.None? && patch.animationMode.Some? {
      assert once.props == inst.props;
    }
  }

  /** A successful retune is the mode step followed by the speed step, each applied only where its patch field is given. */
  lemma RetuneSteps(inst: RenderInstance, moded: RenderInstance, r: RenderInstance, elementId: string, patch: ConfigPatch)
    requires moded == if patch.animationMode.Some? && inst.elementId == elementId
                      then ModeStep(inst, patch.animationMode.value, patch.animationSpeed) else inst
    requires r == if patch.animationSpeed.Some? && moded.elementId == elementId
                  then SpeedStep(moded, patch.animationSpeed.value) else moded
    ensures r == Retune(inst, elementId, patch)
    ensures r.id == inst.id
  {
  }

  /** The first instance of an element in store order, or -1. */
  function FirstInstanceOf(insts: seq<RenderInstance>, elementId: string): (r: int)
    ensures -1 <= r < |insts|
    ensures r >= 0 ==> insts[r].elementId == elementId && forall j :: 0 <= j < r ==> insts[j].elementId != elementId
    ensures r == -1 ==> forall j :: 0 <= j < |insts| ==> insts[j].elementId != elementId
  {
    var keys := seq(|insts|, i requires 0 <= i < |insts| => insts[i].elementId);
    assert forall j :: 0 <= j < |insts| ==> keys[j] == insts[j].elementId;
    FirstIndexOf(keys, elementId)
  }
}
