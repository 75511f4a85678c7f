// The TypoMoss renderer object (current revision): its stores and counters, the
// seeded generator it draws from, and the operations that change them. Clock
// readings (`Date.now()`, `performance.now()`) and animation-frame ids are parameters;
// the instance Map is a sequence in insertion order, keyed by the distinct ids.
module MossRenderer {
  import opened Wrappers
  import opened JsStrings
  import opened MossTypes
  import Mulberry32
  import opened MossRandomMode
  import opened MossPlacement
  import opened MossSpawn
  import opened MossAnimation
  import opened MossDraw
  import opened MossRegistry

  /** The loop of `setElements`: each element stored with its default colour and its config registered, in order. */
  method Register(els: seq<VectorElement>) returns (stored: seq<VectorElement>, registered: map<string, ElementConfig>)
    ensures stored == DefaultColored(els)
    ensures registered == ConfigsFor(els)
  {
    stored := [];
    registered := map[];
    var i := 0;
    while i < |els|
      invariant 0 <= i <= |els|
      invariant stored == DefaultColored(els[..i])
      invariant registered == ConfigsFor(els[..i])
    {
      ConfigsForPrefix(els, i);
      DefaultColoredPrefix(els, i);
      stored := stored + [WithDefaultColor(els[i])];
      registered := registered[els[i].id := ConfigFor(els[i])];
      i := i + 1;
    }
    assert els[..i] == els;
  }

  /** Every live instance carries an id the counter has issued, and no id is shared. */
  ghost predicate IdsIssued(insts: seq<RenderInstance>, counter: int) {
    (forall i :: 0 <= i < |insts| ==> insts[i].id < counter) &&
    (forall i, j :: 0 <= i < j < |insts| ==> insts[i].id != insts[j].id)
  }

  /** Rewriting instances in place without touching their ids keeps the ids issued and distinct. */
  lemma IdsKept(before: seq<RenderInstance>, after: seq<RenderInstance>, counter: int)
    requires IdsIssued(before, counter)
    requires |after| == |before| && forall i :: 0 <= i < |after| ==> after[i].id == before[i].id
    ensures IdsIssued(after, counter)
  {
  }

  /** The instances `after` adds at the end of `before` carry the ids from `counter0` on, in order, and are all of age `age`. */
  ghost predicate NewIds(before: seq<RenderInstance>, after: seq<RenderInstance>, counter0: int, age: int) {
    |before| <= |after| &&
    forall i :: |before| <= i < |after| ==> after[i].id == counter0 + (i - |before|) && after[i].age == age
  }

  /** `getStats()`. */
  datatype Stats = Stats(frameCount: nat, instanceCount: nat, maxInstances: real)

  class Renderer {
    var config: RenderConfig
    var instances: seq<RenderInstance>
    var elements: seq<VectorElement>
    var elementConfigs: map<string, ElementConfig>
    var frameCount: nat
    var lastTimestamp: real
    var deltaTime: real
    var isRunning: bool
    var animationFrameId: Option<nat>
    var instanceIdCounter: nat
    var startTime: real
    var titleInitialized: set<string>
    var titleInitOrder: seq<string>
    var allowSpawning: bool
    var rngState: Mulberry32.Word
    var elementMapCache: Option<map<string, VectorElement>>
    var coloredCanvasKeys: set<string>
    var recoloredImageKeys: set<string>
    const math: MathLib
    const step: Mulberry32.Step

    /** The instance ids are distinct and below the counter (so `Map.set` of a new id appends). */
    ghost predicate Valid()
      reads this`instances, this`instanceIdCounter
    {
      IdsIssued(instances, instanceIdCounter)
    }

    /** Title introduction is still under way. */
    predicate TitlesPending()
      reads this`titleInitialized, this`titleInitOrder
    {
      |titleInitialized| < |titleInitOrder|
    }

    /** The guard of the spawn step: spawning on, room below `maxInstances || 80`, some element. */
    predicate SpawnOpen()
      reads this`allowSpawning, this`instances, this`config, this`elements
    {
      allowSpawning && (|instances| as real) < OrNum(config.maxInstances, 80.0) && elements != []
    }

    constructor (patch: RenderConfigPatch, nowMs: int, math: MathLib)
      requires math.Lawful()
      ensures Valid() && this.math == math && step == Mulberry32.Next
      ensures config == MergeRenderConfig(DefaultRenderConfig, patch)
      ensures rngState == Mulberry32.SeedState(if config.seed.Some? && config.seed.value != 0 then config.seed.value else nowMs)
      ensures instances == [] && elements == [] && elementConfigs == map[] && frameCount == 0 && instanceIdCounter == 0
      ensures !isRunning && animationFrameId.None? && !allowSpawning && titleInitialized == {} && titleInitOrder == []
      ensures deltaTime == 1.0 / 60.0 && lastTimestamp == 0.0 && startTime == nowMs as real
      ensures elementMapCache.None? && coloredCanvasKeys == {} && recoloredImageKeys == {}
    {
      var merged := MergeRenderConfig(DefaultRenderConfig, patch);
      this.math := math;
      step := Mulberry32.MulberryStep();
      config := merged;
      instances := [];
      elements := [];
      elementConfigs := map[];
      frameCount := 0;
      lastTimestamp := 0.0;
      deltaTime := 1.0 / 60.0;
      isRunning := false;
      animationFrameId := None;
      instanceIdCounter := 0;
      startTime := nowMs as real;
      titleInitialized := {};
      titleInitOrder := [];
      allowSpawning := false;
      rngState := Mulberry32.SeedState(if merged.seed.Some? && merged.seed.value != 0 then merged.seed.value else nowMs);
      elementMapCache := None;
      coloredCanvasKeys := {};
      recoloredImageKeys := {};
    }

    /** `this.rng()`: one call of the generator closure. */
    method Rng() returns (u: real)
      modifies this`rngState
      ensures (u, rngState) == step(old(rngState))
      ensures 0.0 <= u < 1.0
    {
      var drawn := step(rngState);
      u := drawn.0;
      rngState := drawn.1;
    }

    /** `setElements`: stores the elements with their default colour, registers a config per element, orders the titles. */
    method SetElements(els: seq<VectorElement>)
      modifies this`elements, this`elementConfigs, this`titleInitOrder
      ensures elements == DefaultColored(els)
      ensures elementConfigs == ConfigsFor(els)
      ensures titleInitOrder == TitleOrder(elements, elementConfigs)
    {
      elements, elementConfigs := Register(els);
      titleInitOrder := TitleOrder(elements, elementConfigs);
    }

    /** `enableSpawning`: spawning on, the ramp clock and the frame clock restarted. */
    method EnableSpawning(nowMs: real, perfNow: real)
      modifies this`allowSpawning, this`startTime, this`lastTimestamp
      ensures allowSpawning && startTime == nowMs && lastTimestamp == perfNow
    {
      allowSpawning := true;
      startTime := nowMs;
      lastTimestamp := perfNow;
    }

    /** `recalculateTitleOrder`. */
    method RecalculateTitleOrder()
      modifies this`titleInitOrder
      ensures titleInitOrder == TitleOrder(elements, elementConfigs)
    {
      titleInitOrder := TitleOrder(elements, elementConfigs);
    }

    /**
     * `updateElementConfig`: merges the patch into a registered config, recolours the element and
     * clears its cache keys, then hot-swaps mode and speed on the element's live instances.
     * `ok` is false when the mode change reads a missing duration (the source throws there).
     */
    method UpdateElementConfig(elementId: string, patch: ConfigPatch) returns (ok: bool)
      requires Valid()
      modifies this`elementConfigs, this`elements, this`elementMapCache, this`coloredCanvasKeys,
               this`recoloredImageKeys, this`instances
      ensures Valid()
      ensures elementId !in old(elementConfigs) ==>
        ok && elementConfigs == old(elementConfigs) && elements == old(elements) && instances == old(instances) &&
        elementMapCache == old(elementMapCache) && coloredCanvasKeys == old(coloredCanvasKeys) &&
        recoloredImageKeys == old(recoloredImageKeys)
      ensures elementId in old(elementConfigs) ==>
        elementConfigs == old(elementConfigs)[elementId := MergeConfig(old(elementConfigs)[elementId], patch)]
      ensures var idx := FindElement(old(elements), elementId);
        if elementId in old(elementConfigs) && patch.color.Some? && idx >= 0 then
          elements == old(elements)[idx := old(elements)[idx].(color := patch.color)] &&
          elementMapCache.None? &&
          coloredCanvasKeys == RemovePrefixed(old(coloredCanvasKeys), elementId + "::") &&
          recoloredImageKeys == (if StrOr(old(elements)[idx].svgPath, "") != []
                                 then RemovePrefixed(old(recoloredImageKeys), old(elements)[idx].svgPath.value + "::")
                                 else old(recoloredImageKeys))
        else
          elements == old(elements) && elementMapCache == old(elementMapCache) &&
          coloredCanvasKeys == old(coloredCanvasKeys) && recoloredImageKeys == old(recoloredImageKeys)
      ensures ok <==> !(elementId in old(elementConfigs) && SwapFails(patch) && FirstInstanceOf(old(instances), elementId) >= 0)
      ensures ok && elementId in old(elementConfigs) ==>
        |instances| == |old(instances)| &&
        forall i :: 0 <= i < |instances| ==> instances[i] == Retune(old(instances)[i], elementId, patch)
      ensures !ok ==>
        var k := FirstInstanceOf(old(instances), elementId);
        0 <= k < |old(instances)| &&
        instances == old(instances)[k := old(instances)[k].(animationMode := patch.animationMode.value)]
    {
      ok := true;
      if elementId !in elementConfigs {
        return;
      }
      elementConfigs := elementConfigs[elementId := MergeConfig(elementConfigs[elementId], patch)];
      if patch.color.Some? {
        Recolor(elementId, patch.color.value);
      }
      ok := RetuneInstances(elementId, patch);
    }

    /** The two instance loops of `updateElementConfig`: the mode swap, then the speed change. */
    method RetuneInstances(elementId: string, patch: ConfigPatch) returns (ok: bool)
      requires Valid()
      modifies this`instances
      ensures Valid()
      ensures ok <==> !(SwapFails(patch) && FirstInstanceOf(old(instances), elementId) >= 0)
      ensures ok ==>
        |instances| == |old(instances)| &&
        forall i :: 0 <= i < |instances| ==> instances[i] == Retune(old(instances)[i], elementId, patch)
      ensures !ok ==>
        var k := FirstInstanceOf(old(instances), elementId);
        0 <= k < |old(instances)| &&
        instances == old(instances)[k := old(instances)[k].(animationMode := patch.animationMode.value)]
    {
      ok := true;
      ghost var before := instances;
      if patch.animationMode.Some? {
        ok := SwapModes(elementId, patch.animationMode.value, patch.animationSpeed);
        if !ok {
          IdsKept(before, instances, instanceIdCounter);
          return;
        }
      }
      ghost var moded := instances;
      if patch.animationSpeed.Some? {
        SetSpeeds(elementId, patch.animationSpeed.value);
      }
      forall i | 0 <= i < |instances|
        ensures instances[i] == Retune(before[i], elementId, patch) && instances[i].id == before[i].id
      {
        RetuneSteps(before[i], moded[i], instances[i], elementId, patch);
      }
      IdsKept(before, instances, instanceIdCounter);
    }

    /** The colour branch of `updateElementConfig`: recolour the stored element and drop its cached renders. */
    method Recolor(elementId: string, color: string)
      modifies this`elements, this`elementMapCache, this`coloredCanvasKeys, this`recoloredImageKeys
      ensures var idx := FindElement(old(elements), elementId);
        if idx >= 0 then
          elements == old(elements)[idx := old(elements)[idx].(color := Some(color))] &&
          elementMapCache.None? &&
          coloredCanvasKeys == RemovePrefixed(old(coloredCanvasKeys), elementId + "::") &&
          recoloredImageKeys == (if StrOr(old(elements)[idx].svgPath, "") != []
                                 then RemovePrefixed(old(recoloredImageKeys), old(elements)[idx].svgPath.value + "::")
                                 else old(recoloredImageKeys))
        else
          elements == old(elements) && elementMapCache == old(elementMapCache) &&
          coloredCanvasKeys == old(coloredCanvasKeys) && recoloredImageKeys == old(recoloredImageKeys)
    {
      var idx := FindElement(elements, elementId);
      if idx >= 0 {
        elements := elements[idx := elements[idx].(color := Some(color))];
        elementMapCache := None;
        coloredCanvasKeys := RemovePrefixed(coloredCanvasKeys, elementId + "::");
        var svgPath := StrOr(elements[idx].svgPath, "");
        if svgPath != [] {
          recoloredImageKeys := RemovePrefixed(recoloredImageKeys, svgPath + "::");
        }
      }
    }

    /**
     * The mode loop of `updateElementConfig`: every instance of the element takes the new mode and a
     * lifespan retimed by its duration; a mode without a duration stops at the first instance, which
     * keeps the new mode (the source throws there). `ok` is false exactly then.
     */
    method SwapModes(elementId: string, newMode: Mode, patchSpeed: Option<real>) returns (ok: bool)
      modifies this`instances
      ensures ok <==> !(ModeDuration(newMode).None? && FirstInstanceOf(old(instances), elementId) >= 0)
      ensures ok ==>
        |instances| == |old(instances)| &&
        forall j :: 0 <= j < |instances| ==>
          instances[j] == (if old(instances)[j].elementId == elementId
                           then ModeStep(old(instances)[j], newMode, patchSpeed) else old(instances)[j])
      ensures !ok ==>
        var k := FirstInstanceOf(old(instances), elementId);
        0 <= k < |old(instances)| && instances == old(instances)[k := old(instances)[k].(animationMode := newMode)]
    {
      ok := true;
      var i := 0;
      while i < |instances|
        invariant 0 <= i <= |instances| == |old(instances)|
        invariant forall j :: 0 <= j < i ==>
          instances[j] == (if old(instances)[j].elementId == elementId
                           then ModeStep(old(instances)[j], newMode, patchSpeed) else old(instances)[j])
        invariant forall j :: i <= j < |instances| ==> instances[j] == old(instances)[j]
        invariant ModeDuration(newMode).None? ==> forall j :: 0 <= j < i ==> old(instances)[j].elementId != elementId
      {
        if instances[i].elementId == elementId {
          instances := instances[i := instances[i].(animationMode := newMode)];
          var duration := ModeDuration(newMode);
          if duration.None? {
            ok := false;
            assert instances == old(instances)[i := old(instances)[i].(animationMode := newMode)];
            return;
          }
          var speed := OptOr(patchSpeed, OptOr(instances[i].props.animationSpeed, 1.0));
          instances := instances[i := instances[i].(lifespan := Retimed(duration.value, speed))];
        }
        i := i + 1;
      }
    }

    /** The speed loop of `updateElementConfig`: every instance of the element takes speed `v`, retimed when its mode has a duration. */
    method SetSpeeds(elementId: string, v: real)
      modifies this`instances
      ensures |instances| == |old(instances)|
      ensures forall j :: 0 <= j < |instances| ==>
        instances[j] == (if old(instances)[j].elementId == elementId then SpeedStep(old(instances)[j], v) else old(instances)[j])
    {
      var i := 0;
      while i < |instances|
        invariant 0 <= i <= |instances| == |old(instances)|
        invariant forall j :: 0 <= j < i ==>
          instances[j] == (if old(instances)[j].elementId == elementId then SpeedStep(old(instances)[j], v) else old(instances)[j])
        invariant forall j :: i <= j < |instances| ==> instances[j] == old(instances)[j]
      {
        if instances[i].elementId == elementId {
          var inst := instances[i].(props := instances[i].props.(animationSpeed := Some(v)));
          var duration := ModeDuration(inst.animationMode);
          if duration.Some? {
            inst := inst.(lifespan := Retimed(duration.value, OrNum(v, 1.0)));
          }
          instances := instances[i := inst];
        }
        i := i + 1;
      }
    }

    /** `updateConfig`: merges the patch; a given seed (zero included) restarts the generator. */
    method UpdateConfig(patch: RenderConfigPatch)
      modifies this`config, this`rngState
      ensures config == MergeRenderConfig(old(config), patch)
      ensures patch.seed.Some? ==> rngState == Mulberry32.SeedState(patch.seed.value)
      ensures patch.seed.None? ==> rngState == old(rngState)
    {
      config := MergeRenderConfig(config, patch);
      if patch.seed.Some? {
        rngState := Mulberry32.SeedState(patch.seed.value);
      }
    }

    /** `selectRandomMode`: pulse without a draw when no weight is positive, else one weighted draw. */
    method SelectRandomMode(rc: map<string, RawProb>) returns (m: Mode)
      modifies this`rngState
      ensures Positives(RandomModes, rc) == [] ==> m == Pulse && rngState == old(rngState)
      ensures Positives(RandomModes, rc) != [] ==>
        m == ResolveRandomMode(rc, step(old(rngState)).0) && rngState == step(old(rngState)).1
      ensures m in Positives(RandomModes, rc) || (m == Pulse && Positives(RandomModes, rc) == [])
    {
      var positives := Positives(RandomModes, rc);
      if positives == [] {
        return Pulse;
      }
      var ws := WeightsOf(positives, rc);
      PositiveWeights(rc);
      var u := Rng();
      var k := PickWeighted(ws, ScaledDraw(ws, u));
      m := positives[k];
      ResolveByScan(rc, u, k);
    }

    /** The anchor draws of a new cluster: position on the canvas and stacking direction. */
    method ClusterAnchor() returns (x: real, y: real, direction: real)
      modifies this`rngState
      ensures 0.0 < config.canvasWidth ==> 0.0 <= x < config.canvasWidth
      ensures 0.0 < config.canvasHeight ==> 0.0 <= y < config.canvasHeight
    {
      var ux := Rng();
      x := AtFraction(ux, config.canvasWidth);
      var uy := Rng();
      y := AtFraction(uy, config.canvasHeight);
      var ud := Rng();
      direction := ud * math.pi * 2.0;
    }

    /** The style draws of a new cluster: small or large turn per layer (in radians), and the spacing that goes with it. */
    method ClusterStyle() returns (stackRotation: real, spacing: real)
      modifies this`rngState
      ensures 5.0 <= spacing < 20.0
      ensures spacing >= 15.0 ==> stackRotation == 0.0
    {
      var us := Rng();
      var ua := Rng();
      var ub := Rng();
      var style := StackStyle(us < 0.4, ua, ub);
      stackRotation := style.0 * math.pi / 180.0;
      spacing := style.1;
    }

    /** The shape draws of a new cluster: fixed size, layer cap and base rotation. */
    method ClusterShape(baseSize: real) returns (fixedSize: real, cap: int, baseRotation: real)
      modifies this`rngState
      ensures 5 <= cap <= 7
      ensures 0.0 < baseSize ==> baseSize * 0.7 <= fixedSize < baseSize * 1.3
    {
      var uf := Rng();
      fixedSize := SizeFromDraw(baseSize, uf);
      var uc := Rng();
      cap := MaxLayersFromDraw(uc);
      var ur := Rng();
      baseRotation := ur * math.pi * 2.0;
    }

    /** The draws that open a cluster: anchor, direction, spacing style, fixed size, cap and base rotation. */
    method OpenCluster(clusterId: int, baseSize: real) returns (x: real, y: real, rotation: real, layer: LayerProps)
      modifies this`rngState
      ensures layer.clusterId == clusterId && layer.layerIndex == 0 && 5 <= layer.maxLayersInCluster <= 7
      ensures layer.baseX == x && layer.baseY == y && layer.baseRotation == rotation
      ensures 0.0 < config.canvasWidth ==> 0.0 <= x < config.canvasWidth
      ensures 0.0 < config.canvasHeight ==> 0.0 <= y < config.canvasHeight
      ensures 5.0 <= layer.stackSpacing < 20.0 && (layer.stackSpacing >= 15.0 ==> layer.stackRotation == 0.0)
      ensures 0.0 < baseSize ==> baseSize * 0.7 <= layer.fixedSize < baseSize * 1.3
    {
      var direction, stackRotation, spacing, fixedSize, cap;
      x, y, direction := ClusterAnchor();
      stackRotation, spacing := ClusterStyle();
      fixedSize, cap, rotation := ClusterShape(baseSize);
      layer := LayerProps(x, y, direction, stackRotation, fixedSize, 0, clusterId, cap, rotation, spacing);
    }

    /** Layered placement: first cluster, a new cluster after a full one, or the next layer of the newest. */
    method PlaceLayered(elementId: string, baseSize: real) returns (x: real, y: real, rotation: real, layer: LayerProps)
      modifies this`rngState
      ensures ClusterFacts(PlanCluster(LayeredPeers(instances, elementId)), layer, math)
      ensures PlanCluster(LayeredPeers(instances, elementId)).JoinCluster? ==>
        var plan := PlanCluster(LayeredPeers(instances, elementId));
        (x, y, rotation, layer) == JoinLayer(plan.head, plan.clusterId, plan.layerIndex, plan.cap, math) &&
        rngState == old(rngState)
      ensures !PlanCluster(LayeredPeers(instances, elementId)).JoinCluster? ==>
        0.0 < baseSize ==> baseSize * 0.7 <= layer.fixedSize < baseSize * 1.3
    {
      var plan := PlanCluster(LayeredPeers(instances, elementId));
      match plan {
        case FirstCluster =>
          x, y, rotation, layer := OpenCluster(0, baseSize);
        case NewCluster(k) =>
          x, y, rotation, layer := OpenCluster(k, baseSize);
        case JoinCluster(k, idx, head, cap) =>
          var placed := JoinLayer(head, k, idx, cap, math);
          x, y, rotation, layer := placed.0, placed.1, placed.2, placed.3;
      }
    }

    /** The draws that open a grow stack: the entry edge, a position along it and a jittered direction. */
    method OpenStack(stackId: int, size: real) returns (x: real, y: real, rotation: real, grow: GrowProps)
      modifies this`rngState
      ensures grow == GrowProps(x, y, rotation, size, rotation, 0, stackId)
      ensures 0.0 <= size && 0.0 < config.canvasWidth && 0.0 < config.canvasHeight ==>
        !OutOfBounds(x, y, size * 2.0, config.canvasWidth, config.canvasHeight) &&
        (x < 0.0 || x > config.canvasWidth || y < 0.0 || y > config.canvasHeight || size == 0.0)
    {
      var ue := Rng();
      var edge := GrowEdge(ue);
      var u1 := Rng();
      var u2 := Rng();
      var entry := GrowEntry(edge, u1, u2, size, config.canvasWidth, config.canvasHeight, math.pi);
      if 0.0 <= size && 0.0 < config.canvasWidth && 0.0 < config.canvasHeight {
        GrowEntryInsideMargin(edge, u1, u2, size, config.canvasWidth, config.canvasHeight, math.pi);
      }
      x, y, rotation := entry.0, entry.1, entry.2;
      grow := GrowProps(x, y, rotation, size, rotation, 0, stackId);
    }

    /** Grow placement: the next layer of the first open stack, else a new stack numbered after the existing ones. */
    method PlaceGrow(elementId: string, size: real) returns (x: real, y: real, rotation: real, grow: GrowProps)
      modifies this`rngState
      ensures StackFacts(PlanStack(GrowPeers(instances, elementId), size, config.canvasWidth, config.canvasHeight), grow, math)
      ensures var plan := PlanStack(GrowPeers(instances, elementId), size, config.canvasWidth, config.canvasHeight);
        plan.JoinStack? ==>
          (x, y, rotation, grow) == JoinGrow(plan.head, plan.stackId, plan.layerIndex, math) && rngState == old(rngState)
    {
      var plan := PlanStack(GrowPeers(instances, elementId), size, config.canvasWidth, config.canvasHeight);
      match plan {
        case NewStack(k) =>
          x, y, rotation, grow := OpenStack(k, size);
        case JoinStack(k, idx, head) =>
          var placed := JoinGrow(head, k, idx, math);
          x, y, rotation, grow := placed.0, placed.1, placed.2, placed.3;
      }
    }

    /** The first draws of `createInstance`: an unused size draw, then the initial rotation unless the mode is title. */
    method LeadDraws(actualMode: Mode) returns (rotation: real)
      modifies this`rngState
      ensures actualMode == Title ==> rotation == 0.0
      ensures 0.0 < math.pi && actualMode != Title ==> 0.0 <= rotation < math.pi * 2.0
    {
      var unusedSize := Rng();
      rotation := 0.0;
      if actualMode != Title {
        var ur := Rng();
        rotation := AtFraction(ur, math.pi * 2.0);
      }
    }

    /** A uniform position on the canvas. */
    method ScatterDraws() returns (x: real, y: real)
      modifies this`rngState
      ensures 0.0 < config.canvasWidth ==> 0.0 <= x < config.canvasWidth
      ensures 0.0 < config.canvasHeight ==> 0.0 <= y < config.canvasHeight
    {
      var ux := Rng();
      x := AtFraction(ux, config.canvasWidth);
      var uy := Rng();
      y := AtFraction(uy, config.canvasHeight);
    }

    /** A size within 30% of the base size. */
    method SizeDraw(baseSize: real) returns (size: real)
      modifies this`rngState
      ensures 0.0 < baseSize ==> baseSize * 0.7 <= size < baseSize * 1.3
    {
      var us := Rng();
      size := SizeFromDraw(baseSize, us);
    }

    /** The last draws of `createInstance`: spin direction (rotate only) and blink count (flicker and title only). */
    method TailDraws(actualMode: Mode) returns (direction: int, flicker: Option<int>)
      modifies this`rngState
      ensures direction == 1 || direction == -1
      ensures actualMode != Rotate ==> direction == 1
      ensures flicker.Some? <==> actualMode in {Flicker, Title}
      ensures flicker.Some? ==> 3 <= flicker.value <= 7
    {
      direction := 1;
      if actualMode == Rotate {
        var ud := Rng();
        direction := RotationDirection(ud);
      }
      flicker := None;
      if actualMode == Flicker || actualMode == Title {
        var uf := Rng();
        flicker := Some(FlickerCount(uf));
      }
    }

    /**
     * The geometry part of `createInstance` once the mode is resolved: the lead draws, the
     * cluster or scattered position, the size, the grow stack, and the cluster's fixed size.
     */
    method Placement(elementId: string, mode: Mode, actualMode: Mode, baseSize: real)
      returns (x: real, y: real, size: real, rotation: real, layer: Option<LayerProps>, grow: Option<GrowProps>)
      modifies this`rngState
      ensures layer.Some? <==> actualMode == Layered
      ensures actualMode == Layered ==> ClusterFacts(PlanCluster(LayeredPeers(instances, elementId)), layer.value, math)
      ensures grow.Some? <==> actualMode == Grow
      ensures actualMode == Grow ==>
        StackFacts(PlanStack(GrowPeers(instances, elementId), size, config.canvasWidth, config.canvasHeight), grow.value, math)
      ensures layer.Some? && mode == Layered && layer.value.fixedSize != 0.0 ==> size == layer.value.fixedSize
      ensures !(layer.Some? && mode == Layered && layer.value.fixedSize != 0.0) && 0.0 < baseSize ==>
        baseSize * 0.7 <= size < baseSize * 1.3
      ensures actualMode == Title ==> rotation == 0.0
    {
      rotation := LeadDraws(actualMode);
      layer := None;
      if actualMode == Layered {
        var lx, ly, lr, lp := PlaceLayered(elementId, baseSize);
        x, y, rotation, layer := lx, ly, lr, Some(lp);
      } else {
        x, y := ScatterDraws();
      }
      size := SizeDraw(baseSize);
      grow := None;
      if actualMode == Grow {
        var gx, gy, gr, gp := PlaceGrow(elementId, size);
        x, y, rotation, grow := gx, gy, gr, Some(gp);
      }
      if mode == Layered && layer.Some? && layer.value.fixedSize != 0.0 {
        size := layer.value.fixedSize;
      }
    }

    /**
     * What `createInstance` promises of a new instance of `element`, read against the instances,
     * element configs and render config it was created under: its element, configured mode (a random mode resolved to one of positive weight,
     * or pulse), age, lifespan, placement, size, spin direction and flicker count.
     */
    ghost function Spawned(inst: RenderInstance, element: VectorElement,
                           insts: seq<RenderInstance>, configs: map<string, ElementConfig>, cfg: RenderConfig): (ok: bool)
      ensures ok ==> EffectiveMode(inst) == inst.props.actualMode && EffectiveMode(inst) != Random
    {
      PositivesMembers(RandomModes, RandomConfigOf(Lookup(configs, element.id)));
      && (var ec := Lookup(configs, element.id);
         inst.elementId == element.id && inst.elementName == element.name &&
         inst.animationMode == ConfiguredMode(ec, element) &&
         inst.age == 0 && inst.lifespan == 999999 && inst.opacity == 1.0 && 0.0 <= inst.seed < 1.0 &&
         inst.props.animationSpeed == Some(SpeedOf(ec)))
      && (var ec := Lookup(configs, element.id);
         var rc := RandomConfigOf(ec);
         (ConfiguredMode(ec, element) != Random ==> inst.props.actualMode == ConfiguredMode(ec, element)) &&
         (ConfiguredMode(ec, element) == Random ==>
           inst.props.actualMode in Positives(RandomModes, rc) ||
           (inst.props.actualMode == Pulse && Positives(RandomModes, rc) == [])))
      && (inst.props.layer.Some? <==> inst.props.actualMode == Layered)
      && (inst.props.actualMode == Layered ==>
         ClusterFacts(PlanCluster(LayeredPeers(insts, element.id)), inst.props.layer.value, math))
      && (inst.props.grow.Some? <==> inst.props.actualMode == Grow)
      && (inst.props.actualMode == Grow ==>
         StackFacts(PlanStack(GrowPeers(insts, element.id), inst.size, cfg.canvasWidth, cfg.canvasHeight),
                    inst.props.grow.value, math))
      && (var b := BaseSize(Lookup(configs, element.id));
         (inst.props.layer.Some? && inst.animationMode == Layered && inst.props.layer.value.fixedSize != 0.0 ==>
           inst.size == inst.props.layer.value.fixedSize) &&
         ((!(inst.props.layer.Some? && inst.animationMode == Layered && inst.props.layer.value.fixedSize != 0.0) &&
           0.0 < b) ==> b * 0.7 <= inst.size < b * 1.3))
      && (inst.props.actualMode == Title ==> inst.rotation == 0.0)
      && (inst.props.rotationDirection.Some? &&
         (inst.props.rotationDirection.value == 1 || inst.props.rotationDirection.value == -1) &&
         (inst.props.actualMode != Rotate ==> inst.props.rotationDirection.value == 1))
      && (inst.props.flickerCount.Some? <==> inst.props.actualMode in {Flicker, Title})
      && (inst.props.flickerCount.Some? ==> 3 <= inst.props.flickerCount.value <= 7)
    }

    /** `createInstance`: a new instance of `element`, drawing from the generator in the source's order. */
    method CreateInstance(element: VectorElement) returns (inst: RenderInstance)
      modifies this`rngState, this`instanceIdCounter
      ensures instanceIdCounter == old(instanceIdCounter) + 1 && inst.id == old(instanceIdCounter)
      ensures Spawned(inst, element, instances, elementConfigs, config)
    {
      var cfg := Lookup(elementConfigs, element.id);
      var mode := ConfiguredMode(cfg, element);
      var actualMode := mode;
      if mode == Random {
        actualMode := SelectRandomMode(RandomConfigOf(cfg));
      }
      var x, y, size, rotation, layer, grow := Placement(element.id, mode, actualMode, BaseSize(cfg));
      var direction, flicker := TailDraws(actualMode);
      var id := instanceIdCounter;
      instanceIdCounter := instanceIdCounter + 1;
      var seed := Rng();
      inst := RenderInstance(id, element.id, element.name, x, y, size, rotation, 1.0, mode, 0, 999999, seed,
                             CustomProps(Some(SpeedOf(cfg)), actualMode, Some(direction), flicker, layer, grow));
    }

    /** `createTitleInstance`: the title at slot `orderIndex`, never rotated, kept indefinitely. */
    method CreateTitleInstance(element: VectorElement, orderIndex: nat) returns (inst: RenderInstance)
      modifies this`rngState, this`instanceIdCounter
      ensures instanceIdCounter == old(instanceIdCounter) + 1 && inst.id == old(instanceIdCounter)
      ensures inst.elementId == element.id && inst.elementName == element.name
      ensures inst.animationMode == Title && inst.props == CustomProps(None, Title, None, inst.props.flickerCount, None, None)
      ensures inst.x == TitleSlotX(config.canvasWidth, |titleInitOrder|, orderIndex)
      ensures 0.0 < config.canvasHeight ==> config.canvasHeight * 0.3 <= inst.y < config.canvasHeight * 0.7
      ensures inst.rotation == 0.0 && inst.opacity == 1.0 && inst.age == 0 && inst.lifespan == 999999
      ensures inst.props.flickerCount.Some? && 3 <= inst.props.flickerCount.value <= 7
      ensures var b := BaseSize(Lookup(elementConfigs, element.id)); 0.0 < b ==> b * 0.7 <= inst.size < b * 1.3
    {
      var size := SizeDraw(BaseSize(Lookup(elementConfigs, element.id)));
      var x := TitleSlotX(config.canvasWidth, |titleInitOrder|, orderIndex);
      var uy := Rng();
      var y := TitleY(config.canvasHeight, uy);
      var direction, flicker := TailDraws(Title);
      var id := instanceIdCounter;
      instanceIdCounter := instanceIdCounter + 1;
      var seed := Rng();
      inst := RenderInstance(id, element.id, element.name, x, y, size, 0.0, 1.0, Title, 0, 999999, seed,
                             CustomProps(None, Title, None, flicker, None, None));
    }

    /** Whether this frame is on the title schedule for the configured spawn speed. */
    function TitleDueNow(): bool
      requires math.Lawful()
      reads this
    {
      assert math.SqrtPositiveAt(TitleSpeed(config.spawnSpeed));
      var speedFactor := math.sqrt(TitleSpeed(config.spawnSpeed));
      TitleDue(frameCount, TitleStartFrame(speedFactor), TitleInterval(speedFactor))
    }

    /** Step 1 of `update`: introduce the next title when its frame comes; a missing title element is skipped. */
    method TitleStep()
      requires Valid() && math.Lawful()
      modifies this`instances, this`titleInitialized, this`rngState, this`instanceIdCounter
      ensures Valid()
      ensures |old(instances)| <= |instances| <= |old(instances)| + 1 && instances[..|old(instances)|] == old(instances)
      ensures !(allowSpawning && old(TitlesPending())) ==>
        instances == old(instances) && titleInitialized == old(titleInitialized) && rngState == old(rngState)
      ensures allowSpawning && old(TitlesPending()) ==>
        var next := titleInitOrder[|old(titleInitialized)|];
        var idx := FindElement(elements, next);
        (idx < 0 || TitleDueNow() ==> titleInitialized == old(titleInitialized) + {next}) &&
        (idx >= 0 && !TitleDueNow() ==> titleInitialized == old(titleInitialized) && instances == old(instances)) &&
        (|instances| == |old(instances)| + 1 <==> idx >= 0 && TitleDueNow()) &&
        (|instances| == |old(instances)| + 1 ==>
          var t := instances[|old(instances)|];
          t.elementId == next && t.animationMode == Title && t.id == old(instanceIdCounter) &&
          t.x == TitleSlotX(config.canvasWidth, |titleInitOrder|, |old(titleInitialized)|))
      ensures instanceIdCounter == old(instanceIdCounter) + (|instances| - |old(instances)|)
      ensures NewIds(old(instances), instances, old(instanceIdCounter), 0)
    {
      if allowSpawning && TitlesPending() {
        var next := titleInitOrder[|titleInitialized|];
        var idx := FindElement(elements, next);
        if idx >= 0 {
          if TitleDueNow() {
            var t := CreateTitleInstance(elements[idx], |titleInitialized|);
            instances := instances + [t];
            titleInitialized := titleInitialized + {next};
          }
        } else {
          titleInitialized := titleInitialized + {next};
        }
      }
    }

    /**
     * Step 2 of `update`: draw an element and, with the spawn chance, insert a new instance of it.
     * `early` reports the early return taken when the drawn element's descriptor is a title.
     */
    method SpawnStep(nowMs: real) returns (early: bool)
      requires Valid()
      modifies this`instances, this`rngState, this`instanceIdCounter
      ensures Valid()
      ensures |old(instances)| <= |instances| <= |old(instances)| + 1 && instances[..|old(instances)|] == old(instances)
      ensures !old(SpawnOpen()) ==> !early && instances == old(instances) && rngState == old(rngState)
      ensures early ==> (old(SpawnOpen()) && instances == old(instances) &&
        elements[ElementIndex(step(old(rngState)).0, |elements|)].animationMode == Title)
      ensures |instances| == |old(instances)| + 1 ==>
        old(SpawnOpen()) &&
        var first := step(old(rngState));
        var el := elements[ElementIndex(first.0, |elements|)];
        var added := instances[|old(instances)|];
        el.animationMode != Title && Spawned(added, el, old(instances), elementConfigs, config) &&
        added.id == old(instanceIdCounter) &&
        step(first.1).0 <
          ChanceFor(el, elementConfigs, config, (nowMs - startTime) / 1000.0, old(TitlesPending()))
      ensures old(SpawnOpen()) ==>
        var first := step(old(rngState));
        var el := elements[ElementIndex(first.0, |elements|)];
        (early <==> el.animationMode == Title) &&
        (el.animationMode != Title &&
         step(first.1).0 < ChanceFor(el, elementConfigs, config, (nowMs - startTime) / 1000.0, old(TitlesPending()))
         ==> |instances| == |old(instances)| + 1)
      ensures instanceIdCounter == old(instanceIdCounter) + (|instances| - |old(instances)|)
      ensures NewIds(old(instances), instances, old(instanceIdCounter), 0)
    {
      early := false;
      if !SpawnOpen() {
        return;
      }
      var u := Rng();
      var index := ElementIndex(u, |elements|);
      var element := elements[index];
      var elapsed := (nowMs - startTime) / 1000.0;
      var chance := ChanceFor(element, elementConfigs, config, elapsed, TitlesPending());
      if element.animationMode == Title {
        return true;
      }
      SpawnDrawn(element, chance);
    }

    /** The second draw of the spawn step: below `chance`, a new instance of `element` joins the end of the instances. */
    method SpawnDrawn(element: VectorElement, chance: real)
      requires Valid()
      modifies this`instances, this`rngState, this`instanceIdCounter
      ensures Valid()
      ensures step(old(rngState)).0 < chance ==>
        |instances| == |old(instances)| + 1 && instances[..|old(instances)|] == old(instances) &&
        Spawned(instances[|old(instances)|], element, old(instances), elementConfigs, config) &&
        instances[|old(instances)|].id == old(instanceIdCounter)
      ensures step(old(rngState)).0 >= chance ==> instances == old(instances)
      ensures instanceIdCounter == old(instanceIdCounter) + (|instances| - |old(instances)|)
      ensures NewIds(old(instances), instances, old(instanceIdCounter), 0)
    {
      var v := Rng();
      if v < chance {
        var created := AddInstance(element);
      }
    }

    /** The spawn's `createInstance` followed by `instances.set`: a new instance of `element`, carrying the next id, joins the end of the instances. */
    method AddInstance(element: VectorElement) returns (created: RenderInstance)
      requires Valid()
      modifies this`instances, this`rngState, this`instanceIdCounter
      ensures Valid()
      ensures instances == old(instances) + [created]
      ensures instanceIdCounter == old(instanceIdCounter) + 1 && created.id == old(instanceIdCounter)
      ensures Spawned(created, element, old(instances), elementConfigs, config)
    {
      created := CreateInstance(element);
      instances := instances + [created];
    }

    /** Step 3 of `update`: every instance ages by one frame. */
    method AgeAll()
      requires Valid()
      modifies this`instances
      ensures Valid()
      ensures |instances| == |old(instances)|
      ensures forall i :: 0 <= i < |instances| ==> instances[i] == Aged(old(instances)[i], deltaTime, math.pi)
    {
      var i := 0;
      while i < |instances|
        invariant 0 <= i <= |instances| == |old(instances)|
        invariant forall j :: 0 <= j < i ==> instances[j] == Aged(old(instances)[j], deltaTime, math.pi)
        invariant forall j :: i <= j < |instances| ==> instances[j] == old(instances)[j]
      {
        instances := instances[i := Aged(instances[i], deltaTime, math.pi)];
        i := i + 1;
      }
    }

    /** Steps 2 and 3 of `update`: the spawn step, then, unless it returned early, aging and the frame count. */
    method SpawnAndAge(nowMs: real) returns (early: bool)
      requires Valid()
      modifies this`instances, this`rngState, this`instanceIdCounter, this`frameCount
      ensures Valid()
      ensures frameCount == if early then old(frameCount) else old(frameCount) + 1
      ensures |instances| <= |old(instances)| + 1
      ensures instanceIdCounter == old(instanceIdCounter) + (|instances| - |old(instances)|)
      ensures early ==> instances == old(instances)
      ensures !early ==> NewIds(old(instances), instances, old(instanceIdCounter), 1)
      ensures !early ==> forall i :: 0 <= i < |old(instances)| ==> instances[i] == Aged(old(instances)[i], deltaTime, math.pi)
      ensures !old(SpawnOpen()) ==> !early && |instances| == |old(instances)| && rngState == old(rngState)
    {
      early := SpawnStep(nowMs);
      if early {
        return;
      }
      ghost var spawned := instances;
      AgeAll();
      assert forall i :: 0 <= i < |old(instances)| ==> spawned[i] == old(instances)[i] by {
        forall i | 0 <= i < |old(instances)| ensures spawned[i] == old(instances)[i] {
          assert spawned[..|old(instances)|][i] == spawned[i];
        }
      }
      frameCount := frameCount + 1;
    }

    /**
     * `update`: titles, then spawning (which may return early), then aging and the frame count.
     * New instances carry the next ids in order; with spawning off only the aging happens.
     */
    method Update(nowMs: real) returns (early: bool)
      requires Valid() && math.Lawful()
      modifies this`instances, this`titleInitialized, this`rngState, this`instanceIdCounter, this`frameCount
      ensures Valid()
      ensures frameCount == if early then old(frameCount) else old(frameCount) + 1
      ensures |old(instances)| <= |instances| <= |old(instances)| + 2
      ensures instanceIdCounter == old(instanceIdCounter) + (|instances| - |old(instances)|)
      ensures NewIds(old(instances), instances, old(instanceIdCounter), if early then 0 else 1)
      ensures early ==> instances[..|old(instances)|] == old(instances)
      ensures !early ==> forall i :: 0 <= i < |old(instances)| ==> instances[i] == Aged(old(instances)[i], deltaTime, math.pi)
      ensures titleInitialized == old(titleInitialized) ||
        (old(allowSpawning) && old(TitlesPending()) &&
         titleInitialized == old(titleInitialized) + {titleInitOrder[|old(titleInitialized)|]})
      ensures !old(allowSpawning) ==>
        !early && |instances| == |old(instances)| && rngState == old(rngState) && titleInitialized == old(titleInitialized)
    {
      TitleStep();
      ghost var titled := instances;
      ghost var counter1 := instanceIdCounter;
      early := SpawnAndAge(nowMs);
      if !early {
        assert titled[..|old(instances)|] == old(instances);
        forall i | 0 <= i < |old(instances)|
          ensures instances[i] == Aged(old(instances)[i], deltaTime, math.pi)
        {
          assert titled[i] == titled[..|old(instances)|][i];
        }
        forall i | |old(instances)| <= i < |titled|
          ensures instances[i].id == old(instanceIdCounter) + (i - |old(instances)|) && instances[i].age == 1
        {
          assert instances[i] == Aged(titled[i], deltaTime, math.pi);
        }
      }
    }

    /** `render`: builds the element map once, then returns the frame's draw calls. */
    method Render() returns (calls: seq<DrawCall>)
      requires Valid() && math.Lawful()
      modifies this`elementMapCache
      ensures elementMapCache == Some(if old(elementMapCache).Some? then old(elementMapCache).value else ElementMap(elements))
      ensures calls == RenderList(instances, elementMapCache.value, config.canvasWidth, config.canvasHeight, math)
    {
      if elementMapCache.None? {
        elementMapCache := Some(ElementMap(elements));
      }
      calls := RenderList(instances, elementMapCache.value, config.canvasWidth, config.canvasHeight, math);
    }

    /** `mainLoop`: clamp the frame time, update, render, and schedule the next frame while running. */
    method MainLoop(timestamp: real, perfNow: real, nowMs: real, frameId: nat) returns (calls: seq<DrawCall>)
      requires Valid() && math.Lawful()
      modifies this`lastTimestamp, this`deltaTime, this`instances, this`titleInitialized, this`rngState,
               this`instanceIdCounter, this`frameCount, this`elementMapCache, this`animationFrameId
      ensures Valid()
      ensures 1.0 / 240.0 <= deltaTime <= 1.0 / 30.0
      ensures lastTimestamp == if timestamp != 0.0 then timestamp else perfNow
      ensures animationFrameId == if isRunning then Some(frameId) else old(animationFrameId)
      ensures frameCount == old(frameCount) || frameCount == old(frameCount) + 1
    {
      var ts := if timestamp != 0.0 then timestamp else perfNow;
      if lastTimestamp == 0.0 {
        lastTimestamp := ts;
      }
      deltaTime := DeltaClamp((ts - lastTimestamp) / 1000.0);
      lastTimestamp := ts;
      var early := Update(nowMs);
      calls := Render();
      if isRunning {
        animationFrameId := Some(frameId);
      }
    }

    /** `start`: a no-op while running; otherwise running from now with a frame requested. */
    method Start(perfNow: real, frameId: nat)
      modifies this`isRunning, this`lastTimestamp, this`animationFrameId
      ensures old(isRunning) ==> lastTimestamp == old(lastTimestamp) && animationFrameId == old(animationFrameId)
      ensures !old(isRunning) ==> lastTimestamp == perfNow && animationFrameId == Some(frameId)
      ensures isRunning
    {
      if isRunning {
        return;
      }
      isRunning := true;
      lastTimestamp := perfNow;
      animationFrameId := Some(frameId);
    }

    /** `stop`: not running and no frame pending. */
    method Stop()
      modifies this`isRunning, this`animationFrameId
      ensures !isRunning && animationFrameId.None?
    {
      isRunning := false;
      animationFrameId := None;
    }

    /** `reset`: empties the store and counters, clears the title progress, and resumes if it was running. */
    method Reset(nowMs: real, perfNow: real, frameId: nat)
      requires Valid()
      modifies this`isRunning, this`animationFrameId, this`instances, this`frameCount, this`instanceIdCounter,
               this`startTime, this`elementMapCache, this`titleInitialized, this`lastTimestamp
      ensures Valid()
      ensures instances == [] && frameCount == 0 && instanceIdCounter == 0 && titleInitialized == {}
      ensures isRunning == old(isRunning)
      ensures animationFrameId == if old(isRunning) then Some(frameId) else None
      ensures lastTimestamp == if old(isRunning) then perfNow else old(lastTimestamp)
      ensures startTime == nowMs && elementMapCache.None?
    {
      var wasRunning := isRunning;
      Stop();
      instances := [];
      frameCount := 0;
      instanceIdCounter := 0;
      startTime := nowMs;
      elementMapCache := None;
      titleInitialized := {};
      if wasRunning {
        Start(perfNow, frameId);
      }
    }

    /** `getStats`: frames so far, live instances, and the effective cap. */
    method GetStats() returns (stats: Stats)
      ensures stats.frameCount == frameCount && stats.instanceCount == |instances|
      ensures stats.maxInstances != 0.0
      ensures config.maxInstances != 0.0 ==> stats.maxInstances == config.maxInstances
    {
      stats := Stats(frameCount, |instances|, OrNum(config.maxInstances, 80.0));
    }
  }
}
