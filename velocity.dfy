/**
 * The velocity store of the earlier movement stack (src/lib/Velocity.tsx):
 * a stored velocity copied into the physics body on every tick, and the
 * body's reported positions forwarded to an optional position store.
 */
module Velocity {
  import opened Base
  import opened Host
  import opened Motion

  /**
   * `moveTowards(source, target, speed)`: the direction towards the target
   * (taken here as given, since normalising it needs a square root) scaled by
   * the speed in the plane.
   */
  function MoveTowards(direction: Vec3, speed: real): (v: Vec3)
    ensures v.z == 0.0
    ensures v.x * v.x + v.y * v.y == speed * speed * (direction.x * direction.x + direction.y * direction.y)
    ensures v.x * direction.y == v.y * direction.x
    // the velocity points along the direction for a positive speed, against it for a negative one
    ensures v.x * direction.x == speed * (direction.x * direction.x)
    ensures v.y * direction.y == speed * (direction.y * direction.y)
  {
    PlanarMagnitude(direction, speed);
    Planar(direction, speed)
  }

  class Velocity {
    /** The physics body (`meshApi`). */
    const body: Body
    /** `positionApi`, which the caller may leave out. */
    const positionStore: Option<PositionStore>
    var velocity: Vec3

    constructor (body: Body, positionStore: Option<PositionStore>)
      ensures this.body == body && this.positionStore == positionStore && velocity == Origin
    {
      this.body, this.positionStore := body, positionStore;
      velocity := Origin;
    }

    function GetVelocity(): (v: Vec3)
      reads this
      ensures v == velocity
    {
      velocity
    }

    method SetVelocity(v: Vec3)
      modifies this
      ensures GetVelocity() == v
    {
      velocity := v;
    }

    /** Each frame the stored velocity is copied into the body. */
    method Tick()
      modifies body
      ensures body.velocity == velocity && body.mounted == old(body.mounted)
    {
      body.velocity := velocity;
    }

    /** The body's position subscription: forwarded when a position store is present, ignored otherwise. */
    method OnBodyPosition(p: Vec3)
      modifies if positionStore.Some? then {positionStore.value} else {}
      ensures positionStore.Some? ==> positionStore.value.position == p
    {
      if positionStore.Some? {
        positionStore.value.position := p;
      }
    }
  }
}
