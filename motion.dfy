/**
 * What the two movement controllers (src/lib/components/Movable.tsx and
 * src/lib/Movable.tsx) share: their four modes, their refs, the periodic
 * speed update (multiply, clamp to [0, maxSpeed], round up while
 * accelerating and down otherwise) and the planar velocity they write.
 */
module Motion {
  import opened Base

  datatype Mode = Accelerate | Decelerate | Move | Idle

  datatype Params = Params(acceleration: real, friction: real, maxSpeed: real)

  /** A movement hook's refs: state, currentSpeed, speedOverride, currentDirection, currentAccelerationTime. */
  datatype MoverState = MoverState(mode: Mode, speed: real, override: bool, direction: Vec3, accTime: real)

  /** The multiplier of a periodic update: the acceleration while accelerating, the friction otherwise. */
  function Factor(p: Params, mode: Mode): real
  {
    if mode == Accelerate then p.acceleration else p.friction
  }

  /**
   * The new speed of one periodic update: the speed times the factor, clamped
   * to [0, maxSpeed], rounded up while accelerating and down otherwise.
   */
  function UpdatedSpeed(mode: Mode, speed: real, factor: real, maxSpeed: real): (r: real)
    ensures IsWhole(r)
    ensures 0.0 <= maxSpeed ==> 0.0 <= r
  {
    var c := Clamp(0.0, speed * factor, maxSpeed);
    if mode == Accelerate then Ceil(c) as real else Floor(c) as real
  }

  /** With a whole maxSpeed, rounding up after the clamp stays within it. */
  lemma UpdatedSpeedAtMostMax(mode: Mode, speed: real, factor: real, maxSpeed: real)
    requires 0.0 <= maxSpeed && IsWhole(maxSpeed)
    ensures UpdatedSpeed(mode, speed, factor, maxSpeed) <= maxSpeed
  {
    if mode == Accelerate {
      CeilAtMostWhole(Clamp(0.0, speed * factor, maxSpeed), maxSpeed);
    }
  }

  /** A non-positive friction stops any non-negative speed at the first update. */
  lemma FrictionStops(mode: Mode, speed: real, friction: real, maxSpeed: real)
    requires mode != Accelerate && 0.0 <= speed && friction <= 0.0 <= maxSpeed
    ensures UpdatedSpeed(mode, speed, friction, maxSpeed) == 0.0
  {
    assert speed * friction <= 0.0 by {
      assert speed * friction == -(speed * -friction);
      assert 0.0 <= speed * -friction;
    }
  }

  lemma ScaledUp(x: real, k: real)
    requires 0.0 < x && 1.0 < k
    ensures x < x * k
  {
    assert x * k - x == x * (k - 1.0);
  }

  lemma ScaledDown(x: real, k: real)
    requires 0.0 < x && 0.0 <= k < 1.0
    ensures 0.0 <= x * k < x
  {
    assert x - x * k == x * (1.0 - k);
  }

  /** Accelerating from a whole speed gains at least one unit per update until maxSpeed. */
  lemma AccelerationGains(speed: real, acceleration: real, maxSpeed: real)
    requires 1.0 < acceleration && IsWhole(speed) && IsWhole(maxSpeed) && 0.0 < speed < maxSpeed
    ensures speed + 1.0 <= UpdatedSpeed(Accelerate, speed, acceleration, maxSpeed)
  {
    var v := speed * acceleration;
    ScaledUp(speed, acceleration);
    var c := Clamp(0.0, v, maxSpeed);
    assert speed < c by {
      if v <= maxSpeed {
        assert c == v;
      } else {
        assert c == maxSpeed;
      }
    }
    CeilAboveWhole(speed, c);
  }

  /** A friction in [0, 1) loses at least one unit per update from a whole positive speed. */
  lemma FrictionLoses(mode: Mode, speed: real, friction: real, maxSpeed: real)
    requires mode != Accelerate && IsWhole(speed) && 1.0 <= speed && 0.0 <= friction < 1.0 && 0.0 <= maxSpeed
    ensures UpdatedSpeed(mode, speed, friction, maxSpeed) <= speed - 1.0
  {
    var v := speed * friction;
    ScaledDown(speed, friction);
    var c := Clamp(0.0, v, maxSpeed);
    assert c < speed by {
      if v <= maxSpeed {
        assert c == v;
      } else {
        assert c == maxSpeed;
      }
    }
    FloorBelowWhole(c, speed);
  }

  /** At maxSpeed, acceleration holds the speed there. */
  lemma AccelerationHolds(acceleration: real, maxSpeed: real)
    requires 1.0 <= acceleration && IsWhole(maxSpeed) && 0.0 < maxSpeed
    ensures UpdatedSpeed(Accelerate, maxSpeed, acceleration, maxSpeed) == maxSpeed
  {
    assert maxSpeed <= maxSpeed * acceleration by {
      assert maxSpeed * acceleration - maxSpeed == maxSpeed * (acceleration - 1.0);
      assert 0.0 <= maxSpeed * (acceleration - 1.0);
    }
    assert Clamp(0.0, maxSpeed * acceleration, maxSpeed) == maxSpeed;
    var n := maxSpeed.Floor;
    assert (-maxSpeed).Floor == -n;
  }

  /** The speed lies in [0, maxSpeed]. */
  predicate Bounded(p: Params, s: MoverState)
  {
    0.0 <= s.speed <= p.maxSpeed
  }

  /** The velocity a mover writes: the direction's x and y scaled by the speed, z zero. */
  function Planar(direction: Vec3, speed: real): (v: Vec3)
    ensures v.z == 0.0
    ensures speed == 0.0 ==> v == Origin
  {
    Vec3(direction.x * speed, direction.y * speed, 0.0)
  }

  /** The planar velocity's squared length is the speed squared times the direction's planar squared length. */
  lemma PlanarMagnitude(direction: Vec3, speed: real)
    ensures var v := Planar(direction, speed);
            v.x * v.x + v.y * v.y == speed * speed * (direction.x * direction.x + direction.y * direction.y)
  {
    var v := Planar(direction, speed);
    assert v.x * v.x == speed * speed * (direction.x * direction.x);
    assert v.y * v.y == speed * speed * (direction.y * direction.y);
  }
}
