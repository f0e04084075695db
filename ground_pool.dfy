/** The ground tile ring of src/world/groundPool.ts: a fixed array of tiles that scroll
    toward the camera and jump back by the whole ring depth once past `recycleZ`. Only the
    z coordinate of a tile changes; its x, y and rotation are fixed at creation. */
module Ground {

  /** The fields of `appConfig.ground` the pool uses. */
  datatype GroundConfig = GroundConfig(tileCount: nat, tileLength: real, recycleZ: real)

  /** `appConfig.ground` (src/config.ts). */
  const AppGround := GroundConfig(12, 20.0, 12.0)

  /** In the shipped ring every tile starts at or behind `recycleZ`, and one ring depth is
      240 units, so `RunStaysBehindRecycle` covers every run of frames moving at most 240
      units each. */
  lemma ShippedRingStartsBehindRecycle()
    ensures LoopDepth(AppGround) == 240.0
    ensures var zs := seq(AppGround.tileCount, i => -(i as real) * AppGround.tileLength);
      forall i :: 0 <= i < |zs| ==> zs[i] <= AppGround.recycleZ
  {
  }

  /** `halfLoopDepth`: the depth of the whole ring, `tileCount * tileLength`. */
  function LoopDepth(config: GroundConfig): real {
    (config.tileCount as real) * config.tileLength
  }

  /** Where `update` moves one tile at z: forward by `travel`, and back by `depth` when that
      takes it past `recycleZ`. */
  function StepTile(z: real, travel: real, recycleZ: real, depth: real): (r: real)
    ensures z + travel > recycleZ ==> r == z + travel - depth
    ensures z + travel <= recycleZ ==> r == z + travel
  {
    var moved := z + travel;
    if moved > recycleZ then moved - depth else moved
  }

  /** The tile positions after one `update`, by a travel of `speed * delta`. */
  function StepTiles(zs: seq<real>, travel: real, recycleZ: real, depth: real): (r: seq<real>)
    ensures |r| == |zs|
    ensures forall i :: 0 <= i < |zs| ==> r[i] == StepTile(zs[i], travel, recycleZ, depth)
    ensures 0.0 <= travel <= depth && (forall i :: 0 <= i < |zs| ==> zs[i] <= recycleZ) ==>
              forall i :: 0 <= i < |r| ==> r[i] <= recycleZ
  {
    seq(|zs|, i requires 0 <= i < |zs| => StepTile(zs[i], travel, recycleZ, depth))
  }

  /** The tile positions after a sequence of frames, each with its own travel. */
  function Run(zs: seq<real>, travels: seq<real>, recycleZ: real, depth: real): (r: seq<real>)
    ensures |r| == |zs|
    ensures |travels| == 1 ==> r == StepTiles(zs, travels[0], recycleZ, depth)
    decreases |travels|
  {
    if travels == [] then zs
    else Run(StepTiles(zs, travels[0], recycleZ, depth), travels[1..], recycleZ, depth)
  }

  /** Running two stretches of frames one after the other is running them as one. */
  lemma {:induction false} RunConcat(zs: seq<real>, first: seq<real>, second: seq<real>, recycleZ: real, depth: real)
    ensures Run(zs, first + second, recycleZ, depth) == Run(Run(zs, first, recycleZ, depth), second, recycleZ, depth)
    decreases |first|
  {
    if first != [] {
      assert (first + second)[1..] == first[1..] + second;
      RunConcat(StepTiles(zs, first[0], recycleZ, depth), first[1..], second, recycleZ, depth);
    } else {
      assert first + second == second;
    }
  }

  /** No tile ever passes `recycleZ` between frames as long as each frame travels at most one
      ring depth forward. */
  lemma {:induction false} RunStaysBehindRecycle(zs: seq<real>, travels: seq<real>, recycleZ: real, depth: real)
    requires forall i :: 0 <= i < |zs| ==> zs[i] <= recycleZ
    requires forall k :: 0 <= k < |travels| ==> 0.0 <= travels[k] <= depth
    ensures forall i :: 0 <= i < |zs| ==> Run(zs, travels, recycleZ, depth)[i] <= recycleZ
    decreases |travels|
  {
    if travels != [] {
      var next := StepTiles(zs, travels[0], recycleZ, depth);
      RunStaysBehindRecycle(next, travels[1..], recycleZ, depth);
    }
  }

  /** Tile i sits at `-i * tileLength + travelled - laps[i] * depth`: every tile keeps its
      place in the ring, up to whole ring depths. */
  ghost predicate OnLattice(zs: seq<real>, laps: seq<int>, tileLength: real, travelled: real, depth: real) {
    |laps| == |zs| &&
    forall i :: 0 <= i < |zs| ==> zs[i] == -(i as real) * tileLength + travelled - (laps[i] as real) * depth
  }

  /** The laps after a step: one more for each tile that was moved back. */
  function NextLaps(zs: seq<real>, laps: seq<int>, travel: real, recycleZ: real): (r: seq<int>)
    requires |laps| == |zs|
    ensures |r| == |laps|
    ensures forall i :: 0 <= i < |zs| ==> laps[i] <= r[i] <= laps[i] + 1
    ensures forall i :: 0 <= i < |zs| ==> (r[i] == laps[i] + 1 <==> zs[i] + travel > recycleZ)
  {
    seq(|zs|, i requires 0 <= i < |zs| => if zs[i] + travel > recycleZ then laps[i] + 1 else laps[i])
  }

  /** A step keeps the ring on its lattice, with the travel added and one lap counted per
      recycled tile. */
  lemma StepKeepsLattice(zs: seq<real>, laps: seq<int>, tileLength: real, travelled: real,
                         travel: real, recycleZ: real, depth: real)
    requires OnLattice(zs, laps, tileLength, travelled, depth)
    ensures OnLattice(StepTiles(zs, travel, recycleZ, depth), NextLaps(zs, laps, travel, recycleZ),
                      tileLength, travelled + travel, depth)
  {
    var next := StepTiles(zs, travel, recycleZ, depth);
    var nextLaps := NextLaps(zs, laps, travel, recycleZ);
    forall i | 0 <= i < |zs|
      ensures next[i] == -(i as real) * tileLength + (travelled + travel) - (nextLaps[i] as real) * depth
    {
      if zs[i] + travel > recycleZ {
        assert (nextLaps[i] as real) * depth == (laps[i] as real) * depth + depth;
      }
    }
  }

  /** The pool `createGroundPool()` returns. */
  class GroundPool {
    const config: GroundConfig
    const halfLoopDepth: real
    /** The z coordinate of each tile. */
    const tiles: array<real>
    /** The distance every tile has been moved forward since creation. */
    ghost var travelled: real
    /** How many times each tile has been moved back. */
    ghost var laps: seq<int>

    ghost predicate Valid()
      reads this, tiles
    {
      tiles.Length == config.tileCount &&
      halfLoopDepth == LoopDepth(config) &&
      OnLattice(tiles[..], laps, config.tileLength, travelled, halfLoopDepth)
    }

    /** `createGroundPool()`, with `appConfig.ground` as the parameter: tile i starts at
        z = -i * tileLength. */
    constructor (config: GroundConfig)
      ensures Valid() && fresh(tiles) && this.config == config
      ensures forall i :: 0 <= i < tiles.Length ==> tiles[i] == -(i as real) * config.tileLength
      ensures travelled == 0.0 && forall i :: 0 <= i < |laps| ==> laps[i] == 0
    {
      this.config := config;
      halfLoopDepth := LoopDepth(config);
      tiles := new real[config.tileCount](i => -(i as real) * config.tileLength);
      travelled := 0.0;
      laps := seq(config.tileCount, i => 0);
    }

    /** `update(delta, speed)`: every tile moves by `speed * delta` and is moved back by the
        ring depth, at most once, when it passes `recycleZ`. The tile count never changes. */
    method Update(delta: real, speed: real)
      requires Valid()
      modifies this, tiles
      ensures Valid()
      ensures tiles[..] == StepTiles(old(tiles[..]), speed * delta, config.recycleZ, halfLoopDepth)
      ensures travelled == old(travelled) + speed * delta
    {
      var travel := speed * delta;
      ghost var before := tiles[..];
      for i := 0 to tiles.Length
        invariant forall j :: 0 <= j < i ==> tiles[j] == StepTile(before[j], travel, config.recycleZ, halfLoopDepth)
        invariant forall j :: i <= j < tiles.Length ==> tiles[j] == before[j]
        invariant laps == old(laps) && travelled == old(travelled)
      {
        tiles[i] := tiles[i] + travel;
        if tiles[i] > config.recycleZ {
          tiles[i] := tiles[i] - halfLoopDepth;
        }
      }
      StepKeepsLattice(before, laps, config.tileLength, travelled, travel, config.recycleZ, halfLoopDepth);
      laps := NextLaps(before, laps, travel, config.recycleZ);
      travelled := travelled + travel;
      assert tiles[..] == StepTiles(before, travel, config.recycleZ, halfLoopDepth);
    }
  }
}
