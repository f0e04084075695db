/** The world-speed holder of src/core/speedController.ts: a single stored speed that
    `setWorldSpeed` replaces by its non-negative part. */
module WorldSpeedSource {
  import opened Wrappers
  import opened MathUtils

  /** What `setWorldSpeed(nextSpeed)` stores: `Math.max(0, nextSpeed)`. */
  function StoredSpeed(nextSpeed: real): (r: real)
    ensures r >= 0.0
    ensures nextSpeed >= 0.0 ==> r == nextSpeed
    ensures nextSpeed < 0.0 ==> r == 0.0
  {
    Max(0.0, nextSpeed)
  }

  /** Storing an already stored speed stores it unchanged, so a repeated call is
      the same as one call. */
  lemma StoredSpeedIdempotent(nextSpeed: real)
    ensures StoredSpeed(StoredSpeed(nextSpeed)) == StoredSpeed(nextSpeed)
  {
  }

  /** The object `createSpeedController(initialSpeed)` returns; its closure variable
      `worldSpeed` becomes a field. */
  class WorldSpeedController {
    var worldSpeed: real
    /** Whether `setWorldSpeed` has been called since creation. */
    ghost var hasBeenSet: bool

    /** Only the initial speed can be negative: every stored speed is non-negative. */
    ghost predicate Valid()
      reads this
    {
      hasBeenSet ==> worldSpeed >= 0.0
    }

    /** `createSpeedController(initialSpeed = 1)`: the initial speed is stored as given,
        without clamping. */
    constructor (initialSpeed: Option<real>)
      ensures Valid() && !hasBeenSet
      ensures worldSpeed == initialSpeed.GetOr(1.0)
    {
      worldSpeed := initialSpeed.GetOr(1.0);
      hasBeenSet := false;
    }

    /** `getWorldSpeed()`: the stored speed, never negative once a speed has been set. */
    function GetWorldSpeed(): (r: real)
      reads this
      requires Valid()
      ensures r == worldSpeed
      ensures hasBeenSet ==> r >= 0.0
    {
      worldSpeed
    }

    method SetWorldSpeed(nextSpeed: real)
      requires Valid()
      modifies this
      ensures Valid() && hasBeenSet
      ensures worldSpeed == StoredSpeed(nextSpeed)
    {
      worldSpeed := Max(0.0, nextSpeed);
      hasBeenSet := true;
    }
  }
}
