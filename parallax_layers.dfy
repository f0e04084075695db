/** The parallax scenery of src/world/parallax-layers.ts: six lanes of boxes in three depth
    layers (near, mid, far) that scroll at their layer's speed multiplier and wrap back by
    their lane's depth once they pass the camera. Materials, colours and the scene graph
    are not part of this model; each mesh is the record of its position, rotation, scale
    and box geometry. */
module Parallax {
  import opened MathUtils
  import opened Primitives

  datatype LayerId = Near | Mid | Far

  /** The fields of a layer's configuration that position and move objects. */
  datatype LayerConfig = LayerConfig(multiplier: real, spacing: real, scale: real)

  datatype LayerConfigMap = LayerConfigMap(near: LayerConfig, mid: LayerConfig, far: LayerConfig) {
    function Get(id: LayerId): LayerConfig {
      match id
      case Near => near
      case Mid => mid
      case Far => far
    }
  }

  /** `parallaxLayerConfig`. */
  const ParallaxLayerConfig := LayerConfigMap(
    LayerConfig(2.1, 15.0, 1.6),
    LayerConfig(1.2, 22.0, 1.0),
    LayerConfig(0.65, 30.0, 0.75))

  /** The inclusive multiplier range each layer must respect. */
  function MinMultiplier(id: LayerId): real {
    match id
    case Near => 1.8
    case Mid => 1.0
    case Far => 0.45
  }

  function MaxMultiplier(id: LayerId): real {
    match id
    case Near => 2.4
    case Mid => 1.4
    case Far => 0.8
  }

  predicate MultiplierInRange(id: LayerId, multiplier: real) {
    !(multiplier < MinMultiplier(id) || multiplier > MaxMultiplier(id))
  }

  /** The order in which the layers are checked: the key order of `ranges`. */
  function CheckRank(id: LayerId): nat {
    match id
    case Near => 0
    case Mid => 1
    case Far => 2
  }

  /** The error `assertLayerMultiplierRange` throws. */
  datatype RangeError = InvalidMultiplier(layerId: LayerId, multiplier: real, min: real, max: real)

  datatype CheckOutcome = Pass | Fail(error: RangeError)

  function LayerError(config: LayerConfigMap, id: LayerId): RangeError {
    InvalidMultiplier(id, config.Get(id).multiplier, MinMultiplier(id), MaxMultiplier(id))
  }

  /** `assertLayerMultiplierRange(config)`: passes exactly when every layer's multiplier is in
      its range, and otherwise throws for the first layer, in check order, that is not. */
  function AssertLayerMultiplierRange(config: LayerConfigMap): (r: CheckOutcome)
    ensures r.Pass? <==> forall id: LayerId :: MultiplierInRange(id, config.Get(id).multiplier)
    ensures r.Fail? ==> r.error == LayerError(config, r.error.layerId)
    ensures r.Fail? ==> !MultiplierInRange(r.error.layerId, r.error.multiplier)
    ensures r.Fail? ==> forall id: LayerId :: CheckRank(id) < CheckRank(r.error.layerId) ==>
                          MultiplierInRange(id, config.Get(id).multiplier)
  {
    if !MultiplierInRange(Near, config.near.multiplier) then Fail(LayerError(config, Near))
    else if !MultiplierInRange(Mid, config.mid.multiplier) then Fail(LayerError(config, Mid))
    else if !MultiplierInRange(Far, config.far.multiplier) then Fail(LayerError(config, Far))
    else Pass
  }

  /** The module-level check at load time succeeds on the shipped table. */
  lemma ShippedConfigPasses()
    ensures AssertLayerMultiplierRange(ParallaxLayerConfig) == Pass
  {
  }

  /** One entry of `laneDefinitions`. */
  datatype Lane = Lane(layerId: LayerId, x: real, baseScale: real)

  const LaneDefinitions: seq<Lane> := [
    Lane(Near, -8.2, 1.2), Lane(Near, 8.2, 1.2),
    Lane(Mid, -11.5, 1.0), Lane(Mid, 11.5, 1.0),
    Lane(Far, -15.0, 0.92), Lane(Far, 15.0, 0.92)]

  const BaseDepth: real := 280.0
  const SpawnStart: real := 25.0
  /** An object whose z passes this line is recycled. */
  const RecycleLine: real := 26.0

  /** `Math.ceil(x)`. */
  function Ceil(x: real): (r: int)
    ensures (r as real) - 1.0 < x <= r as real
  {
    -((-x).Floor)
  }

  /** `count = Math.ceil(baseDepth / layer.spacing)`: how many objects a lane spawns. */
  function LaneCount(lane: Lane): (count: nat)
    ensures (count as real) >= BaseDepth / ParallaxLayerConfig.Get(lane.layerId).spacing
    ensures (count as real) - 1.0 < BaseDepth / ParallaxLayerConfig.Get(lane.layerId).spacing
  {
    Ceil(BaseDepth / ParallaxLayerConfig.Get(lane.layerId).spacing)
  }

  /** With the shipped spacings a near lane holds 19 objects, a mid lane 13 and a far lane 10. */
  lemma LaneCountsOfShippedLayers(lane: Lane)
    ensures lane.layerId == Near ==> LaneCount(lane) == 19
    ensures lane.layerId == Mid ==> LaneCount(lane) == 13
    ensures lane.layerId == Far ==> LaneCount(lane) == 10
  {
  }

  /** The per-object recycle depth, `count * layer.spacing`. */
  function RecycleDepth(lane: Lane): real {
    (LaneCount(lane) as real) * ParallaxLayerConfig.Get(lane.layerId).spacing
  }

  datatype MeshState = MeshState(x: real, y: real, z: real, rotationY: real, scale: real)

  /** The `BoxGeometry(width, height, width)` of a mesh. */
  datatype BoxSize = BoxSize(width: real, height: real)

  /** `SpawnedParallaxObject`. */
  datatype ParallaxObject = ParallaxObject(
    mesh: MeshState, geometry: BoxSize,
    layerId: LayerId, laneX: real, recycleDepth: real, baseSpeed: real)

  /** The parts of an object that `update` must never change. */
  datatype Metadata = Metadata(geometry: BoxSize, y: real, layerId: LayerId, laneX: real,
                               recycleDepth: real, baseSpeed: real)

  function MetadataOf(o: ParallaxObject): Metadata {
    Metadata(o.geometry, o.mesh.y, o.layerId, o.laneX, o.recycleDepth, o.baseSpeed)
  }

  /** The three `Math.random()` values behind the width, the height and the x jitter of a
      spawned object. */
  datatype SpawnDraw = SpawnDraw(width: real, height: real, offset: real)

  predicate SpawnDrawOk(d: SpawnDraw) {
    IsUnit(d.width) && IsUnit(d.height) && IsUnit(d.offset)
  }

  /** Object `index` of a lane: at z = 25 - index * spacing, within 0.55 of the lane's x,
      standing on the ground, not rotated and at scale 1. */
  function SpawnObject(lane: Lane, index: nat, d: SpawnDraw): (o: ParallaxObject)
    ensures o.layerId == lane.layerId && o.laneX == lane.x && o.baseSpeed == 1.0
    ensures o.recycleDepth == RecycleDepth(lane)
    ensures o.mesh.z == SpawnStart - (index as real) * ParallaxLayerConfig.Get(lane.layerId).spacing
    ensures o.mesh.y == o.geometry.height / 2.0
    ensures o.mesh.rotationY == 0.0 && o.mesh.scale == 1.0
    ensures SpawnDrawOk(d) ==> lane.x - 0.55 <= o.mesh.x <= lane.x + 0.55
    ensures SpawnDrawOk(d) && lane.baseScale >= 0.0 ==>
              0.45 * lane.baseScale <= o.geometry.width <= 0.9 * lane.baseScale
    ensures SpawnDrawOk(d) ==>
              2.2 * ParallaxLayerConfig.Get(lane.layerId).scale <= o.geometry.height
              <= 5.6 * ParallaxLayerConfig.Get(lane.layerId).scale
  {
    var layer := ParallaxLayerConfig.Get(lane.layerId);
    var widthFactor := RandFloat(0.45, 0.9, d.width);
    var width := widthFactor * lane.baseScale;
    var height := RandFloat(2.2, 5.6, d.height) * layer.scale;
    if SpawnDrawOk(d) && lane.baseScale >= 0.0 then
      assert width - 0.45 * lane.baseScale == (widthFactor - 0.45) * lane.baseScale;
      assert 0.9 * lane.baseScale - width == (0.9 - widthFactor) * lane.baseScale;
      ProductBounds(lane.baseScale, 0.0);
      NonNegativeProduct(widthFactor - 0.45, lane.baseScale);
      NonNegativeProduct(0.9 - widthFactor, lane.baseScale);
      ParallaxObject(
        MeshState(lane.x + RandFloatSpread(1.1, d.offset), height / 2.0,
                  SpawnStart - (index as real) * layer.spacing, 0.0, 1.0),
        BoxSize(width, height), lane.layerId, lane.x, RecycleDepth(lane), 1.0)
    else
      ParallaxObject(
        MeshState(lane.x + RandFloatSpread(1.1, d.offset), height / 2.0,
                  SpawnStart - (index as real) * layer.spacing, 0.0, 1.0),
        BoxSize(width, height), lane.layerId, lane.x, RecycleDepth(lane), 1.0)
  }

  /** Every lane has exactly one list of draws, one per object it spawns. */
  predicate DrawsFit(lanes: seq<Lane>, draws: seq<seq<SpawnDraw>>) {
    |draws| == |lanes| && forall l :: 0 <= l < |lanes| ==> |draws[l]| == LaneCount(lanes[l])
  }

  /** The objects of one lane, in spawn order. */
  function SpawnLane(lane: Lane, draws: seq<SpawnDraw>): (r: seq<ParallaxObject>)
    requires |draws| == LaneCount(lane)
    ensures |r| == LaneCount(lane)
  {
    seq(LaneCount(lane), index requires 0 <= index < LaneCount(lane) => SpawnObject(lane, index, draws[index]))
  }

  /** The objects of several lanes, lane after lane. */
  function SpawnLanes(lanes: seq<Lane>, draws: seq<seq<SpawnDraw>>): (r: seq<ParallaxObject>)
    requires DrawsFit(lanes, draws)
    decreases |lanes|
  {
    if lanes == [] then []
    else
      var n := |lanes| - 1;
      SpawnLanes(lanes[..n], draws[..n]) + SpawnLane(lanes[n], draws[n])
  }

  /** The number of objects of several lanes. */
  function TotalCount(lanes: seq<Lane>): nat
    decreases |lanes|
  {
    if lanes == [] then 0 else TotalCount(lanes[..|lanes| - 1]) + LaneCount(lanes[|lanes| - 1])
  }

  lemma {:induction false} SpawnLanesLength(lanes: seq<Lane>, draws: seq<seq<SpawnDraw>>)
    requires DrawsFit(lanes, draws)
    ensures |SpawnLanes(lanes, draws)| == TotalCount(lanes)
    decreases |lanes|
  {
    if lanes != [] {
      var n := |lanes| - 1;
      SpawnLanesLength(lanes[..n], draws[..n]);
    }
  }

  /** The six shipped lanes spawn 84 objects in all. */
  lemma ShippedLayoutHas84Objects(draws: seq<seq<SpawnDraw>>)
    requires DrawsFit(LaneDefinitions, draws)
    ensures |SpawnLanes(LaneDefinitions, draws)| == 84
  {
    SpawnLanesLength(LaneDefinitions, draws);
    var L := LaneDefinitions;
    assert L[..0] == [];
    assert L[..1][..0] == L[..0];
    assert L[..2][..1] == L[..1];
    assert L[..3][..2] == L[..2];
    assert L[..4][..3] == L[..3];
    assert L[..5][..4] == L[..4];
    assert L[..6][..5] == L[..5];
    assert L[..6] == L;
    assert TotalCount(L[..1]) == 19;
    assert TotalCount(L[..2]) == 38;
    assert TotalCount(L[..3]) == 51;
    assert TotalCount(L[..4]) == 64;
    assert TotalCount(L[..5]) == 74;
    assert TotalCount(L[..6]) == 84;
  }

  /** The nested spawn loops of `createParallaxLayers`: lane by lane, object by object. */
  method Spawn(draws: seq<seq<SpawnDraw>>) returns (objects: seq<ParallaxObject>)
    requires DrawsFit(LaneDefinitions, draws)
    ensures objects == SpawnLanes(LaneDefinitions, draws)
  {
    objects := [];
    var l := 0;
    while l < |LaneDefinitions|
      invariant 0 <= l <= |LaneDefinitions|
      invariant objects == SpawnLanes(LaneDefinitions[..l], draws[..l])
    {
      var lane := LaneDefinitions[l];
      var count := LaneCount(lane);
      var index := 0;
      while index < count
        invariant 0 <= index <= count
        invariant objects == SpawnLanes(LaneDefinitions[..l], draws[..l]) + SpawnLane(lane, draws[l])[..index]
      {
        objects := objects + [SpawnObject(lane, index, draws[l][index])];
        index := index + 1;
      }
      assert LaneDefinitions[..l + 1][..l] == LaneDefinitions[..l];
      assert draws[..l + 1][..l] == draws[..l];
      l := l + 1;
    }
    assert LaneDefinitions[..l] == LaneDefinitions;
    assert draws[..l] == draws;
  }

  /** `fogBlend`: far objects are shrunk most, near ones not at all. */
  function FogBlend(id: LayerId): (r: real)
    ensures 0.0 < r <= 1.0
    ensures r == 1.0 <==> id.Near?
    ensures id == Far ==> r < 0.9
  {
    if id == Far then 0.78 else if id == Mid then 0.9 else 1.0
  }

  /** The three `Math.random()` values behind the x jitter, the rotation and the scale of a
      recycled object. */
  datatype RecycleDraw = RecycleDraw(offset: real, rotation: real, scale: real)

  predicate RecycleDrawOk(d: RecycleDraw) {
    IsUnit(d.offset) && IsUnit(d.rotation) && IsUnit(d.scale)
  }

  /** The z an object reaches in one frame: `baseSpeed * worldSpeed * multiplier * delta` ahead. */
  function Advanced(o: ParallaxObject, delta: real, worldSpeed: real): real {
    o.mesh.z + o.baseSpeed * worldSpeed * ParallaxLayerConfig.Get(o.layerId).multiplier * delta
  }

  /** One object through one `update`: it moves forward, and once past z = 26 wraps back by its
      recycle depth with a new x within 0.7 layer scales of its lane, a new rotation and a new
      scale. Its metadata never changes. */
  function StepObject(o: ParallaxObject, delta: real, worldSpeed: real, d: RecycleDraw): (r: ParallaxObject)
    ensures MetadataOf(r) == MetadataOf(o)
    ensures Advanced(o, delta, worldSpeed) <= RecycleLine ==>
              r.mesh == o.mesh.(z := Advanced(o, delta, worldSpeed))
    ensures Advanced(o, delta, worldSpeed) > RecycleLine ==>
              r.mesh.z == Advanced(o, delta, worldSpeed) - o.recycleDepth
    ensures Advanced(o, delta, worldSpeed) > RecycleLine && RecycleDrawOk(d) ==>
              var s := ParallaxLayerConfig.Get(o.layerId).scale;
              && o.laneX - 0.7 * s <= r.mesh.x <= o.laneX + 0.7 * s
              && -0.325 <= r.mesh.rotationY <= 0.325
              && 0.85 * s * FogBlend(o.layerId) <= r.mesh.scale <= 1.2 * s * FogBlend(o.layerId)
  {
    var layer := ParallaxLayerConfig.Get(o.layerId);
    var z := Advanced(o, delta, worldSpeed);
    if z > RecycleLine then
      var factor := RandFloat(0.85, 1.2, d.scale);
      var scale := factor * layer.scale * FogBlend(o.layerId);
      o.(mesh := MeshState(o.laneX + RandFloatSpread(1.4 * layer.scale, d.offset), o.mesh.y,
                           z - o.recycleDepth, RandFloatSpread(0.65, d.rotation), scale))
    else
      o.(mesh := o.mesh.(z := z))
  }

  /** All objects through one `update`; object i uses draw i if it recycles. */
  function StepObjects(objects: seq<ParallaxObject>, delta: real, worldSpeed: real,
                       draws: seq<RecycleDraw>): (r: seq<ParallaxObject>)
    requires |draws| >= |objects|
    ensures |r| == |objects|
    ensures forall i :: 0 <= i < |r| ==> MetadataOf(r[i]) == MetadataOf(objects[i])
  {
    seq(|objects|, i requires 0 <= i < |objects| => StepObject(objects[i], delta, worldSpeed, draws[i]))
  }

  /** The object `createParallaxLayers()` returns: a fixed array of spawned objects. */
  class ParallaxLayers {
    const objects: array<ParallaxObject>
    /** What each object looked like at spawn time, outside its mesh transform. */
    ghost const spawned: seq<Metadata>

    ghost predicate Valid()
      reads this, objects
    {
      objects.Length == |spawned| &&
      forall i :: 0 <= i < objects.Length ==> MetadataOf(objects[i]) == spawned[i]
    }

    constructor (draws: seq<seq<SpawnDraw>>)
      requires DrawsFit(LaneDefinitions, draws)
      ensures Valid() && fresh(objects)
      ensures objects[..] == SpawnLanes(LaneDefinitions, draws)
    {
      var spawnedObjects := Spawn(draws);
      objects := new ParallaxObject[|spawnedObjects|](i requires 0 <= i < |spawnedObjects| => spawnedObjects[i]);
      spawned := seq(|spawnedObjects|, i requires 0 <= i < |spawnedObjects| => MetadataOf(spawnedObjects[i]));
      new;
      assert objects[..] == spawnedObjects;
    }

    /** `update(delta, worldSpeed)`: every object in place, in array order. */
    method Update(delta: real, worldSpeed: real, draws: seq<RecycleDraw>)
      requires Valid() && |draws| >= objects.Length
      modifies objects
      ensures Valid()
      ensures objects[..] == StepObjects(old(objects[..]), delta, worldSpeed, draws)
    {
      ghost var before := objects[..];
      for i := 0 to objects.Length
        invariant forall j :: 0 <= j < i ==> objects[j] == StepObject(before[j], delta, worldSpeed, draws[j])
        invariant forall j :: i <= j < objects.Length ==> objects[j] == before[j]
      {
        var obj := objects[i];
        var layer := ParallaxLayerConfig.Get(obj.layerId);
        var effectiveSpeed := obj.baseSpeed * worldSpeed * layer.multiplier;
        var z := obj.mesh.z + effectiveSpeed * delta;
        if z > RecycleLine {
          var x := obj.laneX + RandFloatSpread(1.4 * layer.scale, draws[i].offset);
          var rotationY := RandFloatSpread(0.65, draws[i].rotation);
          var scale := RandFloat(0.85, 1.2, draws[i].scale) * layer.scale;
          var fogBlend := FogBlend(obj.layerId);
          objects[i] := obj.(mesh := MeshState(x, obj.mesh.y, z - obj.recycleDepth, rotationY, scale * fogBlend));
        } else {
          objects[i] := obj.(mesh := obj.mesh.(z := z));
        }
        assert objects[i] == StepObject(before[i], delta, worldSpeed, draws[i]);
      }
      assert objects[..] == StepObjects(before, delta, worldSpeed, draws);
    }
  }
}
