// Placement rules of `createInstance` in the current TypoMoss renderer: which
// layered cluster a new instance joins or opens, which grow stack it extends or
// starts, and the arithmetic of the placement draws.
module MossPlacement {
  import opened Wrappers
  import opened MossTypes

  // ---- layered clusters -------------------------------------------------------

  /** An instance counted as a layered sibling of element `elementId`. */
  predicate IsLayeredPeer(inst: RenderInstance, elementId: string) {
    inst.elementId == elementId && (inst.props.actualMode == Layered || inst.animationMode == Layered)
  }

  /** The layered siblings of an element, in store order. */
  function LayeredPeers(insts: seq<RenderInstance>, elementId: string): (r: seq<RenderInstance>)
    ensures |r| <= |insts|
    ensures forall p :: p in r <==> p in insts && IsLayeredPeer(p, elementId)
  {
    if insts == [] then []
    else (if IsLayeredPeer(insts[0], elementId) then [insts[0]] else []) + LayeredPeers(insts[1..], elementId)
  }

  /** `customProps.clusterId || 0`. */
  function ClusterKey(inst: RenderInstance): int {
    if inst.props.layer.Some? then inst.props.layer.value.clusterId else 0
  }

  /** The largest cluster id among the siblings. */
  function MaxKey(peers: seq<RenderInstance>): (k: int)
    requires peers != []
    ensures exists p :: p in peers && ClusterKey(p) == k
    ensures forall p :: p in peers ==> ClusterKey(p) <= k
  {
    if |peers| == 1 then ClusterKey(peers[0])
    else
      var rest := MaxKey(peers[1..]);
      assert peers[1] in peers[1..];
      if ClusterKey(peers[0]) >= rest then ClusterKey(peers[0]) else rest
  }

  /** The members of one cluster, in store order. */
  function ClusterMembers(peers: seq<RenderInstance>, k: int): (r: seq<RenderInstance>)
    ensures |r| <= |peers|
    ensures forall p :: p in r <==> p in peers && ClusterKey(p) == k
  {
    if peers == [] then []
    else (if ClusterKey(peers[0]) == k then [peers[0]] else []) + ClusterMembers(peers[1..], k)
  }

  /** `first.customProps.maxLayersInCluster || 6`. */
  function ClusterCap(head: RenderInstance): (c: int)
    ensures head.props.layer.Some? && head.props.layer.value.maxLayersInCluster != 0 ==>
      c == head.props.layer.value.maxLayersInCluster
    ensures head.props.layer.None? ==> c == 6
  {
    if head.props.layer.Some? && head.props.layer.value.maxLayersInCluster != 0
    then head.props.layer.value.maxLayersInCluster
    else 6
  }

  /** The decision taken for a new layered instance. */
  datatype ClusterPlan =
    | FirstCluster                                                 // no sibling yet: cluster 0
    | NewCluster(clusterId: int)                                   // the newest cluster is full
    | JoinCluster(clusterId: int, layerIndex: nat, head: RenderInstance, cap: int)

  /** Open the first cluster, open cluster max+1 when the newest is full, or join the newest. */
  function PlanCluster(peers: seq<RenderInstance>): (r: ClusterPlan)
    ensures r.FirstCluster? <==> peers == []
    ensures r.NewCluster? ==> forall p :: p in peers ==> ClusterKey(p) < r.clusterId
    ensures r.JoinCluster? ==>
      r.head in peers && ClusterKey(r.head) == r.clusterId &&
      (forall p :: p in peers ==> ClusterKey(p) <= r.clusterId) &&
      r.layerIndex == |ClusterMembers(peers, r.clusterId)| && r.layerIndex < r.cap == ClusterCap(r.head)
  {
    if peers == [] then FirstCluster
    else
      var k := MaxKey(peers);
      var members := ClusterMembers(peers, k);
      assert exists p :: p in peers && ClusterKey(p) == k;
      assert members != [];
      var cap := ClusterCap(members[0]);
      if |members| >= cap then NewCluster(k + 1)
      else JoinCluster(k, |members|, members[0], cap)
  }

  /** The newest cluster is full exactly when a new one is opened, and the head is the newest cluster's oldest member. */
  lemma {:induction false} NewClusterIffFull(peers: seq<RenderInstance>)
    requires peers != []
    ensures var k := MaxKey(peers);
            var members := ClusterMembers(peers, k);
            members != [] &&
            (PlanCluster(peers).NewCluster? <==> |members| >= ClusterCap(members[0])) &&
            (PlanCluster(peers).NewCluster? ==> PlanCluster(peers).clusterId == k + 1) &&
            (PlanCluster(peers).JoinCluster? ==> PlanCluster(peers).head == members[0])
  {
    var k := MaxKey(peers);
    assert exists p :: p in peers && ClusterKey(p) == k;
    var p :| p in peers && ClusterKey(p) == k;
    assert p in ClusterMembers(peers, k);
  }

  /** `Math.floor(rng() * 3) + 5`: the size cap of a new cluster. */
  function MaxLayersFromDraw(u: real): (c: int)
    ensures 0.0 <= u < 1.0 ==> 5 <= c <= 7
  {
    (u * 3.0).Floor + 5
  }

  /** The per-layer rotation, in degrees, of the small-rotation branch: `raw < 3 ? 0 : raw` with `raw = rng() * 3`. */
  function SmallRotationDegrees(u: real): (d: real)
    ensures 0.0 <= u < 1.0 ==> d == 0.0
  {
    var raw := u * 3.0;
    if raw < 3.0 then 0.0 else raw
  }

  /** Per-layer rotation (degrees) and spacing of a new cluster, from the branch draw and two more draws. */
  function StackStyle(useSmall: bool, ua: real, ub: real): (r: (real, real))
    ensures 0.0 <= ua < 1.0 && 0.0 <= ub < 1.0 && useSmall ==> r.0 == 0.0 && 15.0 <= r.1 < 20.0
    ensures 0.0 <= ua < 1.0 && 0.0 <= ub < 1.0 && !useSmall ==> 6.0 <= r.0 < 20.0 && 5.0 <= r.1 < 10.0
  {
    if useSmall then (SmallRotationDegrees(ua), 15.0 + ub * 5.0)
    else (6.0 + ua * 14.0, 5.0 + ub * 5.0)
  }

  /** The geometry an instance joining a cluster reads from the cluster head (zeros where the head carries none). */
  function HeadLayer(head: RenderInstance): LayerProps {
    if head.props.layer.Some? then head.props.layer.value
    else LayerProps(0.0, 0.0, 0.0, 0.0, 0.0, 0, 0, 0, 0.0, 0.0)
  }

  /** `stackSpacing || 10`. */
  function HeadSpacing(head: RenderInstance): (s: real)
    ensures s != 0.0
  {
    OrNum(HeadLayer(head).stackSpacing, 10.0)
  }

  /** Position, rotation and record of the instance placed at `layerIndex` of a cluster. */
  function JoinLayer(head: RenderInstance, clusterId: int, layerIndex: nat, cap: int, math: MathLib)
    : (r: (real, real, real, LayerProps))
    ensures var h := HeadLayer(head);
      r.3 == LayerProps(h.baseX, h.baseY, h.stackDirection, h.stackRotation, h.fixedSize,
                        layerIndex, clusterId, cap, h.baseRotation, HeadSpacing(head)) &&
      r.2 == h.baseRotation + h.stackRotation * layerIndex as real
    ensures layerIndex == 0 ==> r.0 == HeadLayer(head).baseX && r.1 == HeadLayer(head).baseY
  {
    var h := HeadLayer(head);
    var spacing := HeadSpacing(head);
    var x := h.baseX + math.cos(h.stackDirection) * spacing * layerIndex as real;
    var y := h.baseY + math.sin(h.stackDirection) * spacing * layerIndex as real;
    (x, y, h.baseRotation + h.stackRotation * layerIndex as real,
     LayerProps(h.baseX, h.baseY, h.stackDirection, h.stackRotation, h.fixedSize,
                layerIndex, clusterId, cap, h.baseRotation, spacing))
  }

  /** Successive layers of a cluster sit one `stackSpacing` apart along `stackDirection`. */
  lemma LayerStride(head: RenderInstance, clusterId: int, i: nat, cap: int, math: MathLib)
    ensures var h := HeadLayer(head);
      var a := JoinLayer(head, clusterId, i, cap, math);
      var b := JoinLayer(head, clusterId, i + 1, cap, math);
      b.0 - a.0 == math.cos(h.stackDirection) * HeadSpacing(head) &&
      b.1 - a.1 == math.sin(h.stackDirection) * HeadSpacing(head) &&
      b.2 - a.2 == h.stackRotation
  {
  }

  // ---- grow stacks ------------------------------------------------------------

  /** An instance counted as a grow sibling of element `elementId`. */
  predicate IsGrowPeer(inst: RenderInstance, elementId: string) {
    inst.elementId == elementId && (inst.props.actualMode == Grow || inst.animationMode == Grow)
  }

  function GrowPeers(insts: seq<RenderInstance>, elementId: string): (r: seq<RenderInstance>)
    ensures |r| <= |insts|
    ensures forall p :: p in r <==> p in insts && IsGrowPeer(p, elementId)
  {
    if insts == [] then []
    else (if IsGrowPeer(insts[0], elementId) then [insts[0]] else []) + GrowPeers(insts[1..], elementId)
  }

  /** `customProps.stackId || 0`. */
  function StackKey(inst: RenderInstance): int {
    if inst.props.grow.Some? then inst.props.grow.value.stackId else 0
  }

  /** The stack ids in order of first appearance (the iteration order of the source's Map). */
  function StackOrder(peers: seq<RenderInstance>): (r: seq<int>)
    ensures forall i, j :: 0 <= i < j < |r| ==> r[i] != r[j]
    ensures forall k :: k in r <==> exists p :: p in peers && StackKey(p) == k
    ensures |r| <= |peers|
  {
    if peers == [] then []
    else
      var init := peers[..|peers| - 1];
      var last := peers[|peers| - 1];
      var rest := StackOrder(init);
      assert forall p :: p in peers <==> p in init || p == last;
      if StackKey(last) in rest then rest else rest + [StackKey(last)]
  }

  /** The members of one stack, in store order. */
  function StackMembers(peers: seq<RenderInstance>, k: int): (r: seq<RenderInstance>)
    ensures |r| <= |peers|
    ensures forall p :: p in r <==> p in peers && StackKey(p) == k
  {
    if peers == [] then []
    else (if StackKey(peers[0]) == k then [peers[0]] else []) + StackMembers(peers[1..], k)
  }

  /** The canvas widened by `margin` on every side does not contain the point. */
  predicate OutOfBounds(x: real, y: real, margin: real, width: real, height: real) {
    x < -margin || x > width + margin || y < -margin || y > height + margin
  }

  /** The stack's newest member has left the widened canvas. */
  predicate StackClosed(peers: seq<RenderInstance>, k: int, margin: real, width: real, height: real) {
    var ms := StackMembers(peers, k);
    ms != [] && OutOfBounds(ms[|ms| - 1].x, ms[|ms| - 1].y, margin, width, height)
  }

  /** The first stack, in `order`, that is still open. */
  function FirstOpen(order: seq<int>, peers: seq<RenderInstance>, margin: real, width: real, height: real)
    : (r: Option<nat>)
    ensures r.Some? ==>
      r.value < |order| && !StackClosed(peers, order[r.value], margin, width, height) &&
      (forall i :: 0 <= i < r.value ==> StackClosed(peers, order[i], margin, width, height))
    ensures r.None? ==> forall i :: 0 <= i < |order| ==> StackClosed(peers, order[i], margin, width, height)
  {
    if order == [] then None
    else if !StackClosed(peers, order[0], margin, width, height) then Some(0)
    else match FirstOpen(order[1..], peers, margin, width, height)
      case None => None
      case Some(i) => Some(i + 1)
  }

  /** The decision taken for a new grow instance. */
  datatype StackPlan =
    | NewStack(stackId: int)
    | JoinStack(stackId: int, layerIndex: nat, head: RenderInstance)

  /** Join the first stack whose newest member is inside the canvas widened by `2 * size`, else start a new one. */
  function PlanStack(peers: seq<RenderInstance>, size: real, width: real, height: real): (r: StackPlan)
    ensures r.NewStack? ==> r.stackId == |StackOrder(peers)|
    ensures r.JoinStack? ==>
      var ms := StackMembers(peers, r.stackId);
      ms != [] && r.head == ms[0] && r.layerIndex == |ms| &&
      !OutOfBounds(ms[|ms| - 1].x, ms[|ms| - 1].y, size * 2.0, width, height)
  {
    var order := StackOrder(peers);
    match FirstOpen(order, peers, size * 2.0, width, height)
    case None => NewStack(|order|)
    case Some(i) =>
      var ms := StackMembers(peers, order[i]);
      OrderedStackNonEmpty(peers, order[i]);
      JoinStack(order[i], |ms|, ms[0])
  }

  /** Every stack id in the order has at least one member. */
  lemma OrderedStackNonEmpty(peers: seq<RenderInstance>, k: int)
    requires k in StackOrder(peers)
    ensures StackMembers(peers, k) != []
  {
    var p :| p in peers && StackKey(p) == k;
    assert p in StackMembers(peers, k);
  }

  /** A new stack is started exactly when every existing stack is closed; otherwise the earliest open stack is joined. */
  lemma PlanStackChoice(peers: seq<RenderInstance>, size: real, width: real, height: real)
    ensures var order := StackOrder(peers);
      var r := PlanStack(peers, size, width, height);
      (r.NewStack? <==> forall i :: 0 <= i < |order| ==> StackClosed(peers, order[i], size * 2.0, width, height)) &&
      (r.JoinStack? ==>
        exists i :: 0 <= i < |order| && order[i] == r.stackId &&
          (forall j :: 0 <= j < i ==> StackClosed(peers, order[j], size * 2.0, width, height)))
  {
    var order := StackOrder(peers);
    var found := FirstOpen(order, peers, size * 2.0, width, height);
    if found.Some? {
      var i := found.value;
      assert order[i] == PlanStack(peers, size, width, height).stackId;
    }
  }

  /** `Math.floor(rng() * 4)`: the canvas edge a new stack enters from. */
  function GrowEdge(u: real): (e: int)
    ensures 0.0 <= u < 1.0 ==> 0 <= e <= 3
  {
    (u * 4.0).Floor
  }

  /** Entry point and direction of a new stack: 0 top, 1 right, 2 bottom, anything else left. */
  function GrowEntry(edge: int, u1: real, u2: real, size: real, width: real, height: real, pi: real)
    : (r: (real, real, real))
    ensures var jitter := u2 * 0.8 - 0.4;
      (edge == 0 ==> r.0 == u1 * width && r.1 == -size && r.2 == pi / 2.0 + jitter) &&
      (edge == 1 ==> r.0 == width + size && r.1 == u1 * height && r.2 == pi + jitter) &&
      (edge == 2 ==> r.0 == u1 * width && r.1 == height + size && r.2 == -pi / 2.0 + jitter) &&
      (edge !in {0, 1, 2} ==> r.0 == -size && r.1 == u1 * height && r.2 == jitter)
  {
    var jitter := u2 * 0.8 - 0.4;
    if edge == 0 then (u1 * width, -size, pi / 2.0 + jitter)
    else if edge == 1 then (width + size, u1 * height, pi + jitter)
    else if edge == 2 then (u1 * width, height + size, -pi / 2.0 + jitter)
    else (-size, u1 * height, jitter)
  }

  /** A new stack's first member sits just outside one edge, so it is inside the widened canvas. */
  lemma GrowEntryInsideMargin(edge: int, u1: real, u2: real, size: real, width: real, height: real, pi: real)
    requires 0.0 <= u1 < 1.0 && 0.0 <= size && 0.0 < width && 0.0 < height
    ensures var r := GrowEntry(edge, u1, u2, size, width, height, pi);
      !OutOfBounds(r.0, r.1, size * 2.0, width, height) &&
      (r.0 < 0.0 || r.0 > width || r.1 < 0.0 || r.1 > height || size == 0.0)
  {
    var r := GrowEntry(edge, u1, u2, size, width, height, pi);
    assert 0.0 <= u1 * width <= width;
    assert 0.0 <= u1 * height <= height;
  }

  /** The geometry a grow instance reads from its stack head (zeros where the head carries none). */
  function HeadGrow(head: RenderInstance): GrowProps {
    if head.props.grow.Some? then head.props.grow.value
    else GrowProps(0.0, 0.0, 0.0, 0.0, 0.0, 0, 0)
  }

  /** Position, rotation and record of the instance placed at `layerIndex` of a stack. */
  function JoinGrow(head: RenderInstance, stackId: int, layerIndex: nat, math: MathLib)
    : (r: (real, real, real, GrowProps))
    ensures var h := HeadGrow(head);
      r.3 == GrowProps(h.baseX, h.baseY, h.growDirection, h.growSpacing, h.growRotation, layerIndex, stackId) &&
      r.2 == h.growRotation
    ensures layerIndex == 0 ==> r.0 == HeadGrow(head).baseX && r.1 == HeadGrow(head).baseY
  {
    var h := HeadGrow(head);
    (h.baseX + math.cos(h.growDirection) * h.growSpacing * layerIndex as real,
     h.baseY + math.sin(h.growDirection) * h.growSpacing * layerIndex as real,
     h.growRotation,
     GrowProps(h.baseX, h.baseY, h.growDirection, h.growSpacing, h.growRotation, layerIndex, stackId))
  }

  /** Successive layers of a grow stack sit one `growSpacing` apart along `growDirection`. */
  lemma GrowStride(head: RenderInstance, stackId: int, i: nat, math: MathLib)
    ensures var h := HeadGrow(head);
      var a := JoinGrow(head, stackId, i, math);
      var b := JoinGrow(head, stackId, i + 1, math);
      b.0 - a.0 == math.cos(h.growDirection) * h.growSpacing &&
      b.1 - a.1 == math.sin(h.growDirection) * h.growSpacing &&
      b.2 == a.2
  {
  }
}
