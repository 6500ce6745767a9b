/**
 * The bat enemy (src/demo/Enemies/Bat.tsx): its fly animation, its movement
 * parameters, and the enemy script's chase latch, which accelerates towards
 * the player and, once it has started chasing, slows down whenever the player
 * is out of range.
 */
module Bat {
  import opened Base
  import opened GameObjects
  import opened GameEntities
  import MC = MovableComponent
  import MO = Motion

  const DefaultDetectionRange := 1.5
  /** The entity the script chases. */
  const PlayerName := "player"

  /** `enemyAnimations.fly`: five columns of row 0, looping. */
  const Fly := Animation([Frame(0, 0), Frame(1, 0), Frame(2, 0), Frame(3, 0), Frame(4, 0)], true)

  const EnemyAnimations: AnimationSet := map["fly" := Clip(Fly)]

  /** `<Movable maxSpeed={60} acceleration={1.25} friction={0.8} />`. */
  const BatParams := MO.Params(1.25, 0.8, 60.0)

  /** The fly animation resolves from the default path, loops, and never fires an end callback. */
  lemma FlyAnimationShape()
    ensures "fly" in EnemyAnimations && EnemyAnimations["fly"] == Clip(Fly)
    ensures Fly.loop && |Fly.frames| == 5
    ensures forall i :: 0 <= i < |Fly.frames| ==> Fly.frames[i] == Frame(i, 0)
  {
  }

  /**
   * With the bat's parameters every accelerating update from a whole speed
   * below the top gains at least one unit without passing 60, and every
   * decelerating update from a whole positive speed loses at least one.
   */
  lemma BatSpeedUpdates(speed: real)
    requires IsWhole(speed) && 0.0 < speed
    ensures speed < BatParams.maxSpeed ==>
              speed + 1.0 <= MO.UpdatedSpeed(MO.Accelerate, speed, BatParams.acceleration, BatParams.maxSpeed) <= BatParams.maxSpeed
    ensures 1.0 <= speed ==> MO.UpdatedSpeed(MO.Decelerate, speed, BatParams.friction, BatParams.maxSpeed) <= speed - 1.0
  {
    assert IsWhole(BatParams.maxSpeed) by {
      assert 60.0.Floor == 60;
    }
    if speed < BatParams.maxSpeed {
      MO.AccelerationGains(speed, BatParams.acceleration, BatParams.maxSpeed);
      MO.UpdatedSpeedAtMostMax(MO.Accelerate, speed, BatParams.acceleration, BatParams.maxSpeed);
    }
    if 1.0 <= speed {
      MO.FrictionLoses(MO.Decelerate, speed, BatParams.friction, BatParams.maxSpeed);
    }
  }

  function SquaredDistance(a: Vec3, b: Vec3): (r: real)
    ensures 0.0 <= r
  {
    (b.x - a.x) * (b.x - a.x) + (b.y - a.y) * (b.y - a.y) + (b.z - a.z) * (b.z - a.z)
  }

  /**
   * `distance > detectionRange || distance < 1`, decided on the squared
   * distance so that no square root is needed.
   */
  predicate OutOfRange(a: Vec3, b: Vec3, detectionRange: real)
    // closer than one unit, or any range below one unit, is out of range
    ensures SquaredDistance(a, b) < 1.0 ==> OutOfRange(a, b, detectionRange)
    ensures detectionRange < 1.0 ==> OutOfRange(a, b, detectionRange)
  {
    var d2 := SquaredDistance(a, b);
    (detectionRange < 0.0 || d2 > detectionRange * detectionRange) || d2 < 1.0
  }

  /** The squared test agrees with the test on the distance itself. */
  lemma OutOfRangeByDistance(a: Vec3, b: Vec3, detectionRange: real, distance: real)
    requires 0.0 <= distance && distance * distance == SquaredDistance(a, b)
    ensures OutOfRange(a, b, detectionRange) <==> distance > detectionRange || distance < 1.0
  {
    if 0.0 <= detectionRange {
      SquareMonotone(detectionRange, distance);
    }
    SquareMonotone(distance, 1.0);
  }

  lemma SquareMonotone(x: real, y: real)
    requires 0.0 <= x && 0.0 <= y
    ensures x < y <==> x * x < y * y
  {
    if x < y {
      assert x * y - x * x == x * (y - x) >= 0.0;
      assert y * y - x * y == y * (y - x) > 0.0;
    } else {
      assert y * x - y * y == y * (x - y) >= 0.0;
      assert x * x - y * x == x * (x - y) >= 0.0;
    }
  }

  /** The script's command to the movement controller. */
  datatype Order = Approach(direction: Vec3) | SlowDown(direction: Vec3)

  datatype Decision = Decision(chasing: bool, order: Order)

  /**
   * One tick with a player present: slow down when out of range and
   * already chasing, otherwise latch the chase and accelerate.
   */
  function Decide(chasing: bool, outOfRange: bool, direction: Vec3): (r: Decision)
    ensures r.order.direction == direction
    ensures r.order.SlowDown? <==> outOfRange && chasing
    ensures r.chasing == (chasing || r.order.Approach?)
    ensures r.chasing
  {
    if outOfRange && chasing then Decision(chasing, SlowDown(direction))
    else Decision(true, Approach(direction))
  }

  /** The first tick that finds the player accelerates towards it, whatever the distance. */
  lemma FirstTickApproaches(outOfRange: bool, direction: Vec3)
    ensures Decide(false, outOfRange, direction) == Decision(true, Approach(direction))
  {
  }

  /** The orders of successive ticks, given each tick's range test and direction. */
  function Orders(chasing: bool, ranges: seq<bool>, directions: seq<Vec3>): (r: seq<Order>)
    requires |ranges| == |directions|
    ensures |r| == |ranges|
    // every order heads where that tick's player lies
    ensures forall i :: 0 <= i < |r| ==> r[i].direction == directions[i]
    decreases |ranges|
  {
    if ranges == [] then []
    else
      var d := Decide(chasing, ranges[0], directions[0]);
      [d.order] + Orders(d.chasing, ranges[1..], directions[1..])
  }

  /**
   * Over any run the latch holds after the first tick: every tick after the
   * first slows down exactly when the player is out of range, and the first
   * does so only when the script was already chasing.
   */
  lemma {:induction false} OrdersFollowRange(chasing: bool, ranges: seq<bool>, directions: seq<Vec3>)
    requires |ranges| == |directions|
    ensures var r := Orders(chasing, ranges, directions);
            forall i :: 0 <= i < |r| ==>
              r[i].direction == directions[i] &&
              (r[i].SlowDown? <==> ranges[i] && (chasing || 0 < i))
    decreases |ranges|
  {
    if ranges != [] {
      var d := Decide(chasing, ranges[0], directions[0]);
      OrdersFollowRange(d.chasing, ranges[1..], directions[1..]);
      var r := Orders(chasing, ranges, directions);
      forall i | 0 < i < |r|
        ensures r[i].direction == directions[i] && (r[i].SlowDown? <==> ranges[i] && (chasing || 0 < i))
      {
        assert r[i] == Orders(d.chasing, ranges[1..], directions[1..])[i - 1];
      }
    }
  }

  class BasicEnemyScript {
    const owner: GameObject
    const entities: Registry
    /** The "movable" component found on the bat's game object. */
    const movable: MC.Movable
    const detectionRange: real
    var chasing: bool

    /** `useBasicEnemyScript({detectionRange})`: not yet chasing. */
    constructor (owner: GameObject, entities: Registry, movable: MC.Movable,
                 detectionRange: real := DefaultDetectionRange)
      ensures this.owner == owner && this.entities == entities && this.movable == movable
      ensures this.detectionRange == detectionRange && !chasing
    {
      this.owner, this.entities, this.movable, this.detectionRange := owner, entities, movable, detectionRange;
      chasing := false;
    }

    /**
     * The per-frame hook. `direction` is the normalised direction from the
     * bat to the player. Without a player nothing happens; a position that
     * cannot be read throws.
     */
    method Tick(direction: Vec3) returns (r: Outcome<Option<Order>>)
      requires movable.Valid() && movable.owner == owner
      modifies this, movable, owner
      ensures movable.Valid()
      ensures var player := entities.GetEntity(PlayerName);
              if player.None? then r == Ok(None) && chasing == old(chasing) && movable.State() == old(movable.State())
              else if owner.GetPosition().Throws? || player.value.GetPosition().Throws? then
                r.Throws? && chasing == old(chasing) && movable.State() == old(movable.State())
              else
                var d := Decide(old(chasing), OutOfRange(owner.GetPosition().value, player.value.GetPosition().value,
                                                         detectionRange), direction);
                r == Ok(Some(d.order)) && chasing == d.chasing &&
                movable.State() == (if d.order.Approach? then MC.AcceleratedTo(old(movable.State()), direction)
                                    else MC.DeceleratedTo(old(movable.State()), direction))
      ensures owner.position == old(owner.position) && owner.disabled == old(owner.disabled)
      ensures owner.components == old(owner.components)
      // a command turns the bat to face the player
      ensures owner.direction == if r.Ok? && r.value.Some? && owner.provided then direction else old(owner.direction)
    {
      var player := entities.GetEntity(PlayerName);
      if player.None? {
        return Ok(None);
      }
      var position := owner.GetPosition();
      if position.Throws? {
        return Throws(position.message);
      }
      var playerPosition := player.value.GetPosition();
      if playerPosition.Throws? {
        return Throws(playerPosition.message);
      }
      var outOfRange := OutOfRange(position.value, playerPosition.value, detectionRange);
      if outOfRange && chasing {
        movable.DecelerateTo(direction);
        r := Ok(Some(SlowDown(direction)));
      } else {
        chasing := true;
        movable.AccelerateTo(direction);
        r := Ok(Some(Approach(direction)));
      }
    }
  }
}
