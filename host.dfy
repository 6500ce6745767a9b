/**
 * The external objects the core writes to: the renderer's texture handle (of
 * which only the sub-frame offset is touched), the rigid-body proxy a
 * Collider wraps (its writable linear-velocity channel, and whether the scene
 * object it is attached to is mounted, i.e. whether the collider's `ref.current`
 * is set), and the position store of src/lib/Position.tsx.
 */
module Host {
  import opened Base

  class Texture {
    var offsetX: real
    var offsetY: real

    constructor ()
      ensures offsetX == 0.0 && offsetY == 0.0
    {
      offsetX, offsetY := 0.0, 0.0;
    }
  }

  class Body {
    var velocity: Vec3
    var mounted: bool

    constructor ()
      ensures velocity == Origin && mounted
    {
      velocity, mounted := Origin, true;
    }
  }

  /** `usePosition`: a stored position with a setter. */
  class PositionStore {
    var position: Vec3

    constructor (initialPosition: Vec3)
      ensures position == initialPosition
    {
      position := initialPosition;
    }
  }
}
