// The older TypoMoss renderer object: a capped instance store that spawns at most one
// instance per frame, ages every instance by one frame and retires the expired ones
// (and, rarely, a random one). `Math.random` draws and animation-frame ids are
// parameters; the instance Map is a sequence in insertion order, keyed by serial.
module LegacyRenderer {
  import opened Wrappers
  import opened MossTypes
  import opened LegacyTypes

  /** The five `Math.random()` draws `createInstance` makes: x, y, size, rotation and seed. */
  datatype Draws = Draws(x: real, y: real, size: real, rotation: real, seed: real)

  predicate UnitDraws(d: Draws) {
    0.0 <= d.x < 1.0 && 0.0 <= d.y < 1.0 && 0.0 <= d.size < 1.0 && 0.0 <= d.rotation < 1.0 && 0.0 <= d.seed < 1.0
  }

  /** `getStats()`. */
  datatype LegacyStats = LegacyStats(frameCount: nat, instanceCount: nat, maxInstances: real)

  /** Every instance after the `age++` of the update loop. */
  function Aged(s: seq<LegacyInstance>): (r: seq<LegacyInstance>)
    ensures |r| == |s|
    ensures forall i :: 0 <= i < |s| ==> r[i] == s[i].(age := s[i].age + 1)
  {
    seq(|s|, i requires 0 <= i < |s| => s[i].(age := s[i].age + 1))
  }

  /** The removal test of the update loop: expired, or the one-in-a-thousand draw. */
  function Retires(inst: LegacyInstance, u: real): (b: bool)
    ensures !b ==> inst.age < inst.lifespan
    ensures inst.age >= inst.lifespan ==> b
  {
    inst.age >= inst.lifespan || u < 0.001
  }

  /** `idsToDelete` after the loop has visited the first `n` instances; `removal(k)` is the draw for the k-th. */
  function DoomedIds(s: seq<LegacyInstance>, removal: nat -> real, n: nat): (ids: seq<nat>)
    requires n <= |s|
    ensures |ids| <= n
    ensures forall k :: 0 <= k < n && Retires(s[k], removal(k)) ==> s[k].serial in ids
  {
    if n == 0 then []
    else DoomedIds(s, removal, n - 1) + (if Retires(s[n - 1], removal(n - 1)) then [s[n - 1].serial] else [])
  }

  /** A serial in the list was put there for some retiring instance carrying it. */
  lemma {:induction false} DoomedHaveReason(s: seq<LegacyInstance>, removal: nat -> real, n: nat, id: nat)
    requires n <= |s| && id in DoomedIds(s, removal, n)
    ensures exists k :: 0 <= k < n && Retires(s[k], removal(k)) && s[k].serial == id
  {
    if id in DoomedIds(s, removal, n - 1) {
      DoomedHaveReason(s, removal, n - 1, id);
    }
  }

  /** The ids listed, as a set. */
  function IdSet(ids: seq<nat>): (r: set<nat>)
    ensures forall id :: id in r <==> id in ids
  {
    set id | id in ids
  }

  /** The instances whose serial is not in `ids`, in order (`instances.delete` of each id). */
  function Without(s: seq<LegacyInstance>, ids: set<nat>): (r: seq<LegacyInstance>)
    ensures |r| <= |s|
  {
    if s == [] then []
    else (if s[0].serial in ids then [] else [s[0]]) + Without(s[1..], ids)
  }

  /** Filtering keeps exactly the instances whose serial is not listed. */
  lemma {:induction false} WithoutMembers(s: seq<LegacyInstance>, ids: set<nat>)
    ensures forall x :: x in Without(s, ids) <==> x in s && x.serial !in ids
  {
    if s != [] {
      WithoutMembers(s[1..], ids);
      assert s == [s[0]] + s[1..];
    }
  }

  /** Filtering by no ids keeps the whole store. */
  lemma {:induction false} WithoutNothing(s: seq<LegacyInstance>)
    ensures Without(s, {}) == s
  {
    if s != [] {
      WithoutNothing(s[1..]);
      assert s == [s[0]] + s[1..];
    }
  }

  /** `r * w` for a draw `r` in [0, 1): in [0, w) when w is positive. */
  function Scaled(r: real, w: real): (v: real)
    requires 0.0 <= r < 1.0
    ensures w > 0.0 ==> 0.0 <= v < w
  {
    r * w
  }

  /** Deleting one more id from a filtered store filters by the larger set. */
  lemma {:induction false} WithoutOneMore(s: seq<LegacyInstance>, ids: set<nat>, id: nat)
    ensures Without(Without(s, ids), {id}) == Without(s, ids + {id})
  {
    if s != [] {
      WithoutOneMore(s[1..], ids, id);
      if s[0].serial !in ids {
        var t := Without(s, ids);
        assert t == [s[0]] + Without(s[1..], ids);
        assert t[0] == s[0] && t[1..] == Without(s[1..], ids);
        assert Without(t, {id}) == (if s[0].serial == id then [] else [s[0]]) + Without(t[1..], {id});
        assert Without(s, ids + {id}) == (if s[0].serial == id then [] else [s[0]]) + Without(s[1..], ids + {id});
      } else {
        assert Without(s, ids) == Without(s[1..], ids);
        assert Without(s, ids + {id}) == Without(s[1..], ids + {id});
      }
    }
  }

  /** The store after one update: spawned, aged, and purged of the retiring instances. */
  function AfterUpdate(s: seq<LegacyInstance>, removal: nat -> real): (r: seq<LegacyInstance>)
  {
    var aged := Aged(s);
    Without(aged, IdSet(DoomedIds(aged, removal, |aged|)))
  }

  /** No instance left by an update has reached its lifespan, and each is an old instance one frame older. */
  lemma UpdateLeavesLive(s: seq<LegacyInstance>, removal: nat -> real)
    ensures forall x :: x in AfterUpdate(s, removal) ==> x.age < x.lifespan
    ensures forall x :: x in AfterUpdate(s, removal) ==> exists i :: 0 <= i < |s| && x == s[i].(age := s[i].age + 1)
    ensures |AfterUpdate(s, removal)| <= |s|
  {
    var aged := Aged(s);
    var ids := DoomedIds(aged, removal, |aged|);
    WithoutMembers(aged, IdSet(ids));
    forall x | x in AfterUpdate(s, removal)
      ensures x.age < x.lifespan
      ensures exists i :: 0 <= i < |s| && x == s[i].(age := s[i].age + 1)
    {
      assert x in aged && x.serial !in ids;
      var i :| 0 <= i < |aged| && aged[i] == x;
      assert !Retires(aged[i], removal(i));
    }
  }

  /** Ids stay below the counter and distinct: a new `inst-N` never collides with a live one. */
  ghost predicate SerialsIssued(s: seq<LegacyInstance>, counter: nat) {
    (forall i :: 0 <= i < |s| ==> s[i].serial < counter) &&
    (forall i, j :: 0 <= i < j < |s| ==> s[i].serial != s[j].serial)
  }

  /** Filtering keeps serials issued and distinct. */
  lemma {:induction false} WithoutKeepsSerials(s: seq<LegacyInstance>, ids: set<nat>, counter: nat)
    requires SerialsIssued(s, counter)
    ensures SerialsIssued(Without(s, ids), counter)
  {
    if s != [] {
      var t := s[1..];
      assert SerialsIssued(t, counter) by {
        assert forall i :: 0 <= i < |t| ==> t[i] == s[i + 1];
      }
      WithoutKeepsSerials(t, ids, counter);
      var rest := Without(t, ids);
      if s[0].serial !in ids {
        WithoutMembers(t, ids);
        forall x | x in rest
          ensures x.serial != s[0].serial
        {
          var k :| 0 <= k < |t| && t[k] == x;
          assert t[k] == s[k + 1];
        }
        ConsSerials(s[0], rest, counter);
        assert Without(s, ids) == [s[0]] + rest;
      } else {
        assert Without(s, ids) == rest;
      }
    }
  }

  /** An instance with an issued serial that no instance of `rest` carries can go in front of `rest`. */
  lemma ConsSerials(x: LegacyInstance, rest: seq<LegacyInstance>, counter: nat)
    requires SerialsIssued(rest, counter) && x.serial < counter
    requires forall y :: y in rest ==> y.serial != x.serial
    ensures SerialsIssued([x] + rest, counter)
  {
    var r := [x] + rest;
    forall i, j | 0 <= i < j < |r|
      ensures r[i].serial != r[j].serial
    {
      assert r[j] == rest[j - 1];
      if i > 0 {
        assert r[i] == rest[i - 1];
      }
    }
  }

  /** `Math.floor(Math.random() * n)`: an index into a non-empty list. */
  function PickIndex(u: real, n: nat): (k: nat)
    requires 0.0 <= u < 1.0 && n > 0
    ensures k < n
  {
    Scaled(u, n as real).Floor
  }

  /** The instance `createInstance` builds: a spot on the canvas, a size in [minSize, maxSize), the mode's lifespan. */
  function NewInstance(el: LegacyElement, d: Draws, pi: real, c: LegacyConfig, serial: nat): (inst: LegacyInstance)
    requires UnitDraws(d)
    ensures inst.serial == serial
    ensures inst.elementId == el.id && inst.elementName == el.name && inst.animationMode == el.animationMode
    ensures inst.age == 0 && inst.lifespan == Duration(el.animationMode) && inst.opacity == 1.0
    ensures c.minSize < c.maxSize ==> c.minSize <= inst.size < c.maxSize
    ensures c.canvasWidth > 0.0 ==> 0.0 <= inst.x < c.canvasWidth
    ensures c.canvasHeight > 0.0 ==> 0.0 <= inst.y < c.canvasHeight
    ensures 0.0 <= inst.seed < 1.0
  {
    LegacyInstance(serial, el.id, el.name,
      Scaled(d.x, c.canvasWidth),
      Scaled(d.y, c.canvasHeight),
      c.minSize + Scaled(d.size, c.maxSize - c.minSize),
      d.rotation * pi * 2.0,
      1.0, el.animationMode, 0, Duration(el.animationMode), d.seed)
  }

  class LegacyRenderer {
    var config: LegacyConfig
    var instances: seq<LegacyInstance>
    var elements: seq<LegacyElement>
    var frameCount: nat
    var isRunning: bool
    var animationFrameId: Option<nat>
    var instanceIdCounter: nat

    ghost predicate Valid()
      reads this`instances, this`instanceIdCounter
    {
      SerialsIssued(instances, instanceIdCounter)
    }

    constructor (patch: LegacyConfigPatch)
      ensures Valid()
      ensures config == MergeLegacyConfig(LegacyDefaultConfig, patch)
      ensures instances == [] && elements == [] && frameCount == 0 && instanceIdCounter == 0
      ensures !isRunning && animationFrameId.None?
    {
      config := MergeLegacyConfig(LegacyDefaultConfig, patch);
      instances := [];
      elements := [];
      frameCount := 0;
      isRunning := false;
      animationFrameId := None;
      instanceIdCounter := 0;
    }

    /** `setElements`. */
    method SetElements(els: seq<LegacyElement>)
      modifies this`elements
      ensures elements == els
    {
      elements := els;
    }

    /** `updateConfig`: the patch's keys replace the current ones. */
    method UpdateConfig(patch: LegacyConfigPatch)
      modifies this`config
      ensures config == MergeLegacyConfig(old(config), patch)
    {
      config := MergeLegacyConfig(config, patch);
    }

    /** `createInstance`: the next serial, then the counter moves on. */
    method CreateInstance(el: LegacyElement, d: Draws, pi: real) returns (inst: LegacyInstance)
      requires UnitDraws(d)
      modifies this`instanceIdCounter
      ensures instanceIdCounter == old(instanceIdCounter) + 1
      ensures inst == NewInstance(el, d, pi, config, old(instanceIdCounter))
    {
      inst := NewInstance(el, d, pi, config, instanceIdCounter);
      instanceIdCounter := instanceIdCounter + 1;
    }

    /** The spawn test of `update`: room below `maxInstances` and the draw under `spawnRate * (density || 1)`. */
    function SpawnAllowed(u: real): (b: bool)
      reads this`instances, this`config
      ensures b ==> (|instances| as real) < config.maxInstances
      ensures config.spawnRate * OrNum(config.density, 1.0) <= 0.0 && 0.0 <= u ==> !b
    {
      (|instances| as real) < config.maxInstances && u < config.spawnRate * OrNum(config.density, 1.0)
    }

    /** The `forEach` that ages every instance in place and lists the retiring ones. */
    method AgeAll(removal: nat -> real) returns (ids: seq<nat>)
      modifies this`instances
      ensures instances == Aged(old(instances))
      ensures ids == DoomedIds(instances, removal, |instances|)
    {
      ghost var start := instances;
      ghost var target := Aged(start);
      ids := [];
      var i := 0;
      while i < |instances|
        invariant 0 <= i <= |instances| == |start|
        invariant forall k :: 0 <= k < i ==> instances[k] == target[k]
        invariant forall k :: i <= k < |start| ==> instances[k] == start[k]
        invariant ids == DoomedIds(target, removal, i)
      {
        var aged := instances[i].(age := instances[i].age + 1);
        assert aged == target[i];
        instances := instances[i := aged];
        if Retires(aged, removal(i)) {
          ids := ids + [aged.serial];
        }
        i := i + 1;
      }
      assert instances == target;
    }

    /** `idsToDelete.forEach(id => instances.delete(id))`. */
    method DeleteAll(ids: seq<nat>)
      modifies this`instances
      ensures instances == Without(old(instances), IdSet(ids))
    {
      ghost var start := instances;
      WithoutNothing(start);
      assert IdSet(ids[..0]) == {};
      var j := 0;
      while j < |ids|
        invariant 0 <= j <= |ids|
        invariant instances == Without(start, IdSet(ids[..j]))
      {
        WithoutOneMore(start, IdSet(ids[..j]), ids[j]);
        assert (IdSet(ids[..j + 1])) == (IdSet(ids[..j])) + {ids[j]} by {
          assert ids[..j + 1] == ids[..j] + [ids[j]];
        }
        instances := Without(instances, {ids[j]});
        j := j + 1;
      }
      assert ids[..j] == ids;
    }

    /** The instances the spawn half of `update` appends: none, or the one created from the drawn element. */
    function Born(u: real, pick: real, d: Draws, pi: real): (born: seq<LegacyInstance>)
      requires 0.0 <= pick < 1.0 && UnitDraws(d)
      reads this`instances, this`config, this`elements, this`instanceIdCounter
      ensures |born| <= 1
      ensures born != [] <==> SpawnAllowed(u) && elements != []
      ensures born != [] ==>
        born[0].serial == instanceIdCounter && born[0].age == 0 &&
        born[0].elementId == elements[PickIndex(pick, |elements|)].id
    {
      if SpawnAllowed(u) && elements != [] then
        [NewInstance(elements[PickIndex(pick, |elements|)], d, pi, config, instanceIdCounter)]
      else []
    }

    /** The spawn half of `update`: when the test passes and there are elements, append one new instance. */
    method SpawnStep(u: real, pick: real, d: Draws, pi: real)
      requires Valid() && 0.0 <= pick < 1.0 && UnitDraws(d)
      modifies this`instances, this`instanceIdCounter
      ensures Valid()
      ensures instances == old(instances) + old(Born(u, pick, d, pi))
      ensures instanceIdCounter == old(instanceIdCounter) + |old(Born(u, pick, d, pi))|
    {
      if SpawnAllowed(u) && elements != [] {
        var inst := CreateInstance(elements[PickIndex(pick, |elements|)], d, pi);
        instances := instances + [inst];
      }
    }

    /** `update`: spawn at most one instance, age all, retire the expired and the unlucky, count the frame. */
    method Update(u: real, pick: real, d: Draws, removal: nat -> real, pi: real)
      requires Valid() && 0.0 <= pick < 1.0 && UnitDraws(d)
      modifies this`instances, this`instanceIdCounter, this`frameCount
      ensures Valid()
      ensures frameCount == old(frameCount) + 1
      ensures instances == AfterUpdate(old(instances) + old(Born(u, pick, d, pi)), removal)
      ensures instanceIdCounter == old(instanceIdCounter) + |old(Born(u, pick, d, pi))|
      ensures forall x :: x in instances ==> x.age < x.lifespan
      ensures |instances| <= |old(instances)| + 1
      ensures |instances| > |old(instances)| ==> (|old(instances)| as real) < config.maxInstances
    {
      SpawnStep(u, pick, d, pi);
      AgeAndRetire(removal);
      frameCount := frameCount + 1;
    }

    /** The aging half of `update`: age every instance, then delete the retiring ones. */
    method AgeAndRetire(removal: nat -> real)
      requires Valid()
      modifies this`instances
      ensures Valid()
      ensures instances == AfterUpdate(old(instances), removal)
      ensures forall x :: x in instances ==> x.age < x.lifespan
      ensures |instances| <= |old(instances)|
    {
      ghost var s1 := instances;
      var ids := AgeAll(removal);
      DeleteAll(ids);
      WithoutKeepsSerials(Aged(s1), IdSet(ids), instanceIdCounter);
      UpdateLeavesLive(s1, removal);
    }

    /** One `mainLoop` frame: update, then ask for the next frame while running (drawing is not modelled). */
    method MainLoop(u: real, pick: real, d: Draws, removal: nat -> real, pi: real, nextFrame: nat)
      requires Valid() && 0.0 <= pick < 1.0 && UnitDraws(d)
      modifies this`instances, this`instanceIdCounter, this`frameCount, this`animationFrameId
      ensures Valid()
      ensures frameCount == old(frameCount) + 1
      ensures animationFrameId == if isRunning then Some(nextFrame) else old(animationFrameId)
    {
      Update(u, pick, d, removal, pi);
      if isRunning {
        animationFrameId := Some(nextFrame);
      }
    }

    /** `start`: a no-op when running; otherwise set running and run the first frame. */
    method Start(u: real, pick: real, d: Draws, removal: nat -> real, pi: real, nextFrame: nat)
      requires Valid() && 0.0 <= pick < 1.0 && UnitDraws(d)
      modifies this`instances, this`instanceIdCounter, this`frameCount, this`animationFrameId, this`isRunning
      ensures Valid() && isRunning
      ensures old(isRunning) ==> instances == old(instances) && frameCount == old(frameCount) && animationFrameId == old(animationFrameId)
      ensures !old(isRunning) ==> frameCount == old(frameCount) + 1 && animationFrameId == Some(nextFrame)
    {
      if isRunning {
        return;
      }
      isRunning := true;
      MainLoop(u, pick, d, removal, pi, nextFrame);
    }

    /** `stop`: not running, no pending frame. */
    method Stop()
      modifies this`isRunning, this`animationFrameId
      ensures !isRunning && animationFrameId.None?
    {
      isRunning := false;
      animationFrameId := None;
    }

    /** `reset`: stopped, with an empty store and both counters at zero; it does not restart. */
    method Reset()
      modifies this`isRunning, this`animationFrameId, this`instances, this`frameCount, this`instanceIdCounter
      ensures Valid()
      ensures !isRunning && animationFrameId.None?
      ensures instances == [] && frameCount == 0 && instanceIdCounter == 0
    {
      Stop();
      instances := [];
      frameCount := 0;
      instanceIdCounter := 0;
    }

    /** `getStats()`: the frame count, the store size and the configured cap. */
    method GetStats() returns (st: LegacyStats)
      ensures st.frameCount == frameCount && st.instanceCount == |instances| && st.maxInstances == config.maxInstances
    {
      st := LegacyStats(frameCount, |instances|, config.maxInstances);
    }
  }
}
