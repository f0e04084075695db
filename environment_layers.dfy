/** The pooled scenery layers of src/world/environmentManager.ts: each layer is a fixed
    array of boxes, spread over `count` depth slots, that scroll at the layer's speed and
    wrap back by the layer's depth once past `recycleZ`. Materials, geometry and the scene
    graph are not part of this model; a mesh is the record of its position and scale. */
module Environment {
  import opened MathUtils
  import opened Primitives

  /** One entry of `appConfig.environment.layers`, without its colour. */
  datatype LayerConfig = LayerConfig(
    name: string, count: nat, width: real, depthSpacing: real, xSpread: real,
    minScale: real, maxScale: real, speedMultiplier: real)

  /** `appConfig.environment` (src/config.ts). */
  const RecycleZ: real := 16.0

  const AppLayers: seq<LayerConfig> := [
    LayerConfig("near", 24, 1.2, 12.0, 16.0, 0.8, 1.5, 1.8),
    LayerConfig("mid", 20, 2.1, 20.0, 34.0, 0.9, 1.6, 1.1),
    LayerConfig("far", 14, 3.4, 34.0, 56.0, 0.95, 1.7, 0.65)]

  /** Every shipped layer meets what the placement and window lemmas ask of a layer. */
  lemma AppLayersWellFormed()
    ensures forall l :: 0 <= l < |AppLayers| ==>
      AppLayers[l].depthSpacing > 0.0 && AppLayers[l].xSpread > 0.0 && AppLayers[l].minScale <= AppLayers[l].maxScale
  {
  }

  datatype Mesh = Mesh(x: real, y: real, z: real, scale: real)

  /** The three `Math.random()` values behind a placed mesh's z, x and scale, in call order. */
  datatype PlacementDraw = PlacementDraw(z: real, x: real, scale: real)

  predicate PlacementDrawOk(d: PlacementDraw) {
    IsUnit(d.z) && IsUnit(d.x) && IsUnit(d.scale)
  }

  /** Mesh i of a layer in `createLayer`. */
  function PlaceMesh(config: LayerConfig, i: nat, d: PlacementDraw): (m: Mesh)
    ensures m.y == config.width
  {
    var z := -(i as real) * config.depthSpacing - d.z * config.depthSpacing;
    var x := (d.x - 0.5) * config.xSpread;
    var scale := Lerp(config.minScale, config.maxScale, d.scale);
    Mesh(x, config.width, z, scale)
  }

  /** A placed mesh lies in its own depth slot (-(i+1) * depthSpacing, -i * depthSpacing]. */
  lemma PlaceMeshInSlot(config: LayerConfig, i: nat, d: PlacementDraw)
    requires PlacementDrawOk(d) && config.depthSpacing > 0.0
    ensures -((i + 1) as real) * config.depthSpacing < PlaceMesh(config, i, d).z
    ensures PlaceMesh(config, i, d).z <= -(i as real) * config.depthSpacing
  {
    SlotBounds(i, config.depthSpacing, d.z);
  }

  /** A placed mesh lies within half the spread of x = 0. */
  lemma PlaceMeshInSpread(config: LayerConfig, i: nat, d: PlacementDraw)
    requires PlacementDrawOk(d) && config.xSpread > 0.0
    ensures -config.xSpread / 2.0 <= PlaceMesh(config, i, d).x < config.xSpread / 2.0
  {
    SpreadBounds(config.xSpread, d.x);
    assert PlaceMesh(config, i, d).x == (d.x - 0.5) * config.xSpread;
  }

  /** A placed mesh's scale lies between the layer's bounds. */
  lemma PlaceMeshScale(config: LayerConfig, i: nat, d: PlacementDraw)
    requires PlacementDrawOk(d) && config.minScale <= config.maxScale
    ensures config.minScale <= PlaceMesh(config, i, d).scale <= config.maxScale
  {
    LerpBetween(config.minScale, config.maxScale, d.scale);
  }

  lemma SlotBounds(i: nat, spacing: real, u: real)
    requires IsUnit(u) && spacing > 0.0
    ensures -((i + 1) as real) * spacing < -(i as real) * spacing - u * spacing <= -(i as real) * spacing
  {
    var a := (i as real) * spacing;
    assert ((i + 1) as real) * spacing == a + spacing;
    ProductBounds(spacing, u);
    assert spacing - u * spacing == (1.0 - u) * spacing;
    PositiveProduct(1.0 - u, spacing);
  }

  lemma SpreadBounds(spread: real, u: real)
    requires IsUnit(u)
    ensures spread > 0.0 ==> -spread / 2.0 <= (u - 0.5) * spread < spread / 2.0
  {
    if spread > 0.0 {
      ProductBounds(spread, u);
      assert (u - 0.5) * spread == u * spread - spread / 2.0;
      assert spread - u * spread == (1.0 - u) * spread;
      PositiveProduct(1.0 - u, spread);
    }
  }

  /** All meshes of a layer at creation. */
  function PlaceMeshes(config: LayerConfig, draws: seq<PlacementDraw>): (r: seq<Mesh>)
    requires |draws| >= config.count
    ensures |r| == config.count
    ensures forall i :: 0 <= i < |r| ==> r[i] == PlaceMesh(config, i, draws[i])
  {
    seq(config.count, i requires 0 <= i < config.count => PlaceMesh(config, i, draws[i]))
  }

  /** The layer's `recycleDepth`: all of its slots, `count * depthSpacing`. */
  function LayerDepth(config: LayerConfig): real {
    (config.count as real) * config.depthSpacing
  }

  /** One mesh through one frame: forward by `travel`, and once past
      `RecycleZ` back by the layer depth with a new x. Its y and scale never change. */
  function StepMesh(m: Mesh, travel: real, depth: real, xSpread: real, u: real): (r: Mesh)
    ensures r.y == m.y && r.scale == m.scale
    ensures m.z + travel <= RecycleZ ==> r == m.(z := m.z + travel)
    ensures m.z + travel > RecycleZ ==> r.z == m.z + travel - depth
  {
    var z := m.z + travel;
    if z > RecycleZ then m.(z := z - depth, x := (u - 0.5) * xSpread) else m.(z := z)
  }

  /** A recycled mesh gets an x within half the spread of x = 0. */
  lemma StepMeshSpread(m: Mesh, travel: real, depth: real, xSpread: real, u: real)
    requires IsUnit(u) && xSpread > 0.0 && m.z + travel > RecycleZ
    ensures -xSpread / 2.0 <= StepMesh(m, travel, depth, xSpread, u).x < xSpread / 2.0
  {
    SpreadBounds(xSpread, u);
  }

  /** The window a layer's meshes stay in: `(-depth, RecycleZ]`. */
  predicate InWindow(m: Mesh, depth: real) {
    -depth < m.z <= RecycleZ
  }

  /** Every mesh `createLayer` places starts inside its layer's window. */
  lemma PlaceMeshInWindow(config: LayerConfig, i: nat, d: PlacementDraw)
    requires PlacementDrawOk(d) && config.depthSpacing > 0.0 && i < config.count
    ensures InWindow(PlaceMesh(config, i, d), LayerDepth(config))
  {
    PlaceMeshInSlot(config, i, d);
    var spacing := config.depthSpacing;
    assert (i as real) * spacing >= 0.0 by {
      if i > 0 { PositiveProduct(i as real, spacing); }
    }
    assert ((i + 1) as real) * spacing <= LayerDepth(config) by {
      if i + 1 < config.count {
        PositiveProduct(config.count as real - (i + 1) as real, spacing);
        assert (config.count as real - (i + 1) as real) * spacing
            == LayerDepth(config) - ((i + 1) as real) * spacing;
      }
    }
    var z := PlaceMesh(config, i, d).z;
    assert z <= 0.0;
    assert z > -LayerDepth(config);
  }

  /** A frame that moves forward by no more than the layer depth keeps a mesh in the window. */
  lemma StepMeshKeepsWindow(m: Mesh, travel: real, depth: real, xSpread: real, u: real)
    requires InWindow(m, depth) && 0.0 <= travel <= depth
    ensures InWindow(StepMesh(m, travel, depth, xSpread, u), depth)
  {
    var r := StepMesh(m, travel, depth, xSpread, u);
    if m.z + travel > RecycleZ {
      assert r.z == m.z + travel - depth;
    } else {
      assert r.z == m.z + travel;
    }
  }

  function StepMeshes(meshes: seq<Mesh>, travel: real, depth: real, xSpread: real, draws: seq<real>): (r: seq<Mesh>)
    requires |draws| >= |meshes|
    ensures |r| == |meshes|
    ensures forall i :: 0 <= i < |r| ==> r[i] == StepMesh(meshes[i], travel, depth, xSpread, draws[i])
  {
    seq(|meshes|, i requires 0 <= i < |meshes| => StepMesh(meshes[i], travel, depth, xSpread, draws[i]))
  }

  /** The window is an invariant of the whole layer, frame after frame. */
  lemma StepMeshesKeepWindow(meshes: seq<Mesh>, travel: real, depth: real, xSpread: real, draws: seq<real>)
    requires |draws| >= |meshes| && 0.0 <= travel <= depth
    requires forall i :: 0 <= i < |meshes| ==> InWindow(meshes[i], depth)
    ensures forall i :: 0 <= i < |meshes| ==> InWindow(StepMeshes(meshes, travel, depth, xSpread, draws)[i], depth)
  {
    forall i | 0 <= i < |meshes|
      ensures InWindow(StepMeshes(meshes, travel, depth, xSpread, draws)[i], depth)
    {
      StepMeshKeepsWindow(meshes[i], travel, depth, xSpread, draws[i]);
    }
  }

  /** How far a layer's meshes move in one frame: `layerSpeed * delta`. */
  function LayerTravel(config: LayerConfig, speed: real, delta: real): real
  {
    speed * config.speedMultiplier * delta
  }

  /** `PooledLayer`: the value `createLayer(config)` returns. */
  class PooledLayer {
    const config: LayerConfig
    const meshes: array<Mesh>
    const recycleDepth: real

    ghost predicate Valid()
      reads this
    {
      meshes.Length == config.count && recycleDepth == LayerDepth(config)
    }

    /** `createLayer(config)`: exactly `count` meshes, mesh i placed from draw i. */
    constructor (config: LayerConfig, draws: seq<PlacementDraw>)
      requires |draws| >= config.count
      ensures Valid() && fresh(meshes) && this.config == config
      ensures meshes[..] == PlaceMeshes(config, draws)
    {
      this.config := config;
      recycleDepth := LayerDepth(config);
      var placed := new Mesh[config.count];
      for i := 0 to config.count
        invariant forall j :: 0 <= j < i ==> placed[j] == PlaceMesh(config, j, draws[j])
      {
        var z := -(i as real) * config.depthSpacing - draws[i].z * config.depthSpacing;
        var x := (draws[i].x - 0.5) * config.xSpread;
        var scale := Lerp(config.minScale, config.maxScale, draws[i].scale);
        placed[i] := Mesh(x, config.width, z, scale);
      }
      meshes := placed;
      new;
      assert meshes[..] == PlaceMeshes(config, draws);
    }

    /**
     * The inner loop of `update`: every mesh of this layer moves forward by
     * `travel` (the layer speed times the frame delta), in place.
     */
    method Advance(travel: real, draws: seq<real>)
      requires Valid() && |draws| >= meshes.Length
      modifies meshes
      ensures meshes[..] == StepMeshes(old(meshes[..]), travel, recycleDepth, config.xSpread, draws)
    {
      ghost var before := meshes[..];
      for i := 0 to meshes.Length
        invariant forall j :: 0 <= j < i ==>
                    meshes[j] == StepMesh(before[j], travel, recycleDepth, config.xSpread, draws[j])
        invariant forall j :: i <= j < meshes.Length ==> meshes[j] == before[j]
      {
        var z := meshes[i].z + travel;
        if z > RecycleZ {
          meshes[i] := meshes[i].(z := z - recycleDepth, x := (draws[i] - 0.5) * config.xSpread);
        } else {
          meshes[i] := meshes[i].(z := z);
        }
      }
      assert meshes[..] == StepMeshes(before, travel, recycleDepth, config.xSpread, draws);
    }
  }

  /** The value `createEnvironmentManager()` returns. */
  class EnvironmentManager {
    const layers: seq<PooledLayer>

    ghost predicate Valid()
      reads this, layers
    {
      (forall l :: 0 <= l < |layers| ==> layers[l].Valid()) &&
      forall l, k :: 0 <= l < |layers| && 0 <= k < |layers| && l != k ==> layers[l].meshes != layers[k].meshes
    }

    ghost function Repr(): set<object>
      reads this
    {
      set l | 0 <= l < |layers| :: layers[l].meshes
    }

    /** `createEnvironmentManager()`: one pooled layer per configured layer, in order,
        layer l placed from `draws[l]`. */
    constructor (configs: seq<LayerConfig>, draws: seq<seq<PlacementDraw>>)
      requires |draws| == |configs|
      requires forall l :: 0 <= l < |configs| ==> |draws[l]| >= configs[l].count
      ensures Valid() && |layers| == |configs| && fresh(Repr())
      ensures forall l :: 0 <= l < |layers| ==>
                layers[l].config == configs[l] && layers[l].meshes[..] == PlaceMeshes(configs[l], draws[l])
    {
      var built: seq<PooledLayer> := [];
      for l := 0 to |configs|
        invariant |built| == l
        invariant forall j :: 0 <= j < l ==> built[j].Valid() && fresh(built[j].meshes)
        invariant forall j :: 0 <= j < l ==>
                    built[j].config == configs[j] && built[j].meshes[..] == PlaceMeshes(configs[j], draws[j])
        invariant forall j, k :: 0 <= j < l && 0 <= k < l && j != k ==> built[j].meshes != built[k].meshes
      {
        var layer := new PooledLayer(configs[l], draws[l]);
        built := built + [layer];
      }
      layers := built;
    }

    /** `update(delta, speed)`: layer by layer, every mesh moves by
        `speed * speedMultiplier * delta` and wraps back by its layer's depth past `RecycleZ`. */
    method Update(delta: real, speed: real, draws: seq<seq<real>>)
      requires Valid()
      requires |draws| == |layers|
      requires forall l :: 0 <= l < |layers| ==> |draws[l]| >= layers[l].meshes.Length
      modifies Repr()
      ensures Valid()
      ensures forall l :: 0 <= l < |layers| ==>
                layers[l].meshes[..] == StepMeshes(old(layers[l].meshes[..]),
                  LayerTravel(layers[l].config, speed, delta),
                  layers[l].recycleDepth, layers[l].config.xSpread, draws[l])
    {
      for l := 0 to |layers|
        invariant Valid()
        invariant forall j :: 0 <= j < l ==>
                    layers[j].meshes[..] == StepMeshes(old(layers[j].meshes[..]),
                      LayerTravel(layers[j].config, speed, delta),
                      layers[j].recycleDepth, layers[j].config.xSpread, draws[j])
        invariant forall j :: l <= j < |layers| ==> layers[j].meshes[..] == old(layers[j].meshes[..])
      {
        var layer := layers[l];
        label BeforeLayer:
        layer.Advance(LayerTravel(layer.config, speed, delta), draws[l]);
        forall j | 0 <= j < |layers| && j != l
          ensures layers[j].meshes[..] == old@BeforeLayer(layers[j].meshes[..])
        {
          assert layers[j].meshes != layer.meshes;
        }
      }
    }
  }
}
