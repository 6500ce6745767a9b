/**
 * The movement controller component (src/lib/components/Movable.tsx): a
 * four-mode machine (accelerate, decelerate, move, idle) that, each tick,
 * writes the collider's velocity from the stored direction and speed and,
 * every 200 ms of accumulated time, multiplies the speed by the acceleration
 * (accelerating) or the friction (otherwise), clamps it to [0, maxSpeed] and
 * rounds it (up when accelerating, down otherwise).
 */
module MovableComponent {
  import opened Base
  import opened Host
  import opened GameObjects
  import opened Motion

  const DefaultName := "movable"
  const DefaultColliderName := "collider"

  /** `1000 / 5`: the speed is updated five times a second. */
  const AccelerationFrequency: real := 200.0

  const DefaultParams := Params(1.01, -0.9, 3.0)

  const InitialState := MoverState(Idle, 1.0, false, Origin, 0.0)

  /** The accumulated time passes the update period and no override holds the speed. */
  predicate Updates(s: MoverState, delta: real)
  {
    s.accTime + delta * 1000.0 > AccelerationFrequency && !s.override
  }

  datatype MoverTick = MoverTick(state: MoverState, velocity: Vec3)

  /** One frame: the new refs and the velocity written into the collider. */
  function Ticked(p: Params, s: MoverState, delta: real): (r: MoverTick)
    ensures s.mode == Idle ==> r.state == s.(accTime := 0.0) && r.velocity == Origin
    ensures s.mode != Idle ==> r.velocity == Planar(s.direction, s.speed)
    ensures r.state.direction == s.direction && r.state.override == s.override
    // the period's clock: each frame adds its milliseconds, a periodic update takes one period off
    ensures s.mode != Idle ==>
              r.state.accTime == s.accTime + delta * 1000.0 - (if Updates(s, delta) then AccelerationFrequency else 0.0)
    ensures s.mode != Idle ==>
              r.state.speed == (if Updates(s, delta) then UpdatedSpeed(s.mode, s.speed, Factor(p, s.mode), p.maxSpeed) else s.speed)
    ensures r.state.mode == s.mode || (s.mode == Decelerate && r.state.mode == Idle && r.state.speed <= 0.0)
    // decelerating never ends a tick at a non-positive speed
    ensures r.state.mode == Decelerate ==> r.state.speed > 0.0
  {
    if s.mode == Idle then MoverTick(s.(accTime := 0.0), Origin)
    else
      var t := s.accTime + delta * 1000.0;
      var v := Planar(s.direction, s.speed);
      var s1 := if t > AccelerationFrequency && !s.override
                then s.(accTime := t - AccelerationFrequency, speed := UpdatedSpeed(s.mode, s.speed, Factor(p, s.mode), p.maxSpeed))
                else s.(accTime := t);
      var s2 := if s1.mode == Decelerate && s1.speed <= 0.0 then s1.(mode := Idle) else s1;
      MoverTick(s2, v)
  }

  /** A tick keeps the speed within [0, maxSpeed] when maxSpeed is whole. */
  lemma TickKeepsBounded(p: Params, s: MoverState, delta: real)
    requires Bounded(p, s) && IsWhole(p.maxSpeed)
    ensures Bounded(p, Ticked(p, s, delta).state)
  {
    UpdatedSpeedAtMostMax(s.mode, s.speed, Factor(p, s.mode), p.maxSpeed);
  }

  /** `changeState`: a change of mode restarts the update period. */
  function ChangedState(s: MoverState, m: Mode): (r: MoverState)
    ensures r.mode == m
    ensures r.accTime == (if s.mode == m then s.accTime else 0.0)
    ensures r.speed == s.speed && r.direction == s.direction && r.override == s.override
  {
    if s.mode != m then s.(accTime := 0.0, mode := m) else s
  }

  /** `accelerateTo`: from rest or deceleration the speed restarts at 1; an ongoing acceleration or move keeps its speed. */
  function AcceleratedTo(s: MoverState, d: Vec3): (r: MoverState)
    ensures r.mode == Accelerate && r.direction == d
    ensures r.speed == (if s.mode == Accelerate || s.mode == Move then s.speed else 1.0)
    ensures r.accTime == (if s.mode == Accelerate then s.accTime else 0.0)
    ensures r.override == s.override
  {
    var s1 := s.(direction := d);
    var s2 := if s.mode != Accelerate && s.mode != Move then s1.(speed := 1.0) else s1;
    ChangedState(s2, Accelerate)
  }

  /** `decelerateTo`: an idle mover only turns; any other starts decelerating. */
  function DeceleratedTo(s: MoverState, d: Vec3): (r: MoverState)
    ensures r.direction == d && r.speed == s.speed && r.override == s.override
    ensures r.mode == (if s.mode == Idle then Idle else Decelerate)
    ensures r.accTime == (if s.mode == Idle || s.mode == Decelerate then s.accTime else 0.0)
  {
    var s1 := s.(direction := d);
    if s.mode != Idle then ChangedState(s1, Decelerate) else s1
  }

  /** `moveTo`: a move at the given speed, which the component never clamps on entry. */
  function MovedTo(s: MoverState, d: Vec3, speed: real): (r: MoverState)
    ensures r.mode == Move && r.direction == d && r.speed == speed && r.override == s.override
    ensures r.accTime == (if s.mode == Move then s.accTime else 0.0)
  {
    ChangedState(s.(direction := d), Move).(speed := speed)
  }

  /** `stop`: idle at once; the next tick clears the accumulated time. */
  function Stopped(s: MoverState): (r: MoverState)
    ensures r.mode == Idle && r.speed == s.speed && r.direction == s.direction && r.accTime == s.accTime
  {
    s.(mode := Idle)
  }

  /** Turning commands keep the speed within its bounds (a move may leave them). */
  lemma CommandsKeepBounded(p: Params, s: MoverState, d: Vec3)
    requires Bounded(p, s) && 1.0 <= p.maxSpeed
    ensures Bounded(p, AcceleratedTo(s, d)) && Bounded(p, DeceleratedTo(s, d)) && Bounded(p, Stopped(s))
  {
  }

  /** Ticks with no command in between. */
  function Run(p: Params, s: MoverState, deltas: seq<real>): MoverState
    decreases |deltas|
  {
    if deltas == [] then s else Run(p, Ticked(p, s, deltas[0]).state, deltas[1..])
  }

  /**
   * Accelerating from a whole speed with an acceleration above 1, each tick
   * longer than the update period, reaches maxSpeed after at most
   * `maxSpeed - speed` ticks and stays there.
   */
  lemma {:induction false} AccelerationReachesMaxSpeed(p: Params, s: MoverState, deltas: seq<real>)
    requires s.mode == Accelerate && !s.override && 0.0 <= s.accTime
    requires 1.0 < p.acceleration && IsWhole(p.maxSpeed) && IsWhole(s.speed) && 0.0 < s.speed <= p.maxSpeed
    requires forall i :: 0 <= i < |deltas| ==> deltas[i] * 1000.0 > AccelerationFrequency
    requires |deltas| as real >= p.maxSpeed - s.speed
    ensures Run(p, s, deltas).mode == Accelerate && Run(p, s, deltas).speed == p.maxSpeed
    decreases |deltas|
  {
    if deltas != [] {
      var s' := Ticked(p, s, deltas[0]).state;
      assert Updates(s, deltas[0]);
      assert s'.speed == UpdatedSpeed(Accelerate, s.speed, p.acceleration, p.maxSpeed);
      UpdatedSpeedAtMostMax(Accelerate, s.speed, p.acceleration, p.maxSpeed);
      if s.speed < p.maxSpeed {
        AccelerationGains(s.speed, p.acceleration, p.maxSpeed);
      } else {
        AccelerationHolds(p.acceleration, p.maxSpeed);
      }
      AccelerationReachesMaxSpeed(p, s', deltas[1..]);
    }
  }

  /** With a non-positive friction the first periodic update of a deceleration stops the mover. */
  lemma DecelerationStopsAtFirstUpdate(p: Params, s: MoverState, delta: real)
    requires s.mode == Decelerate && 0.0 <= s.speed && p.friction <= 0.0 <= p.maxSpeed && Updates(s, delta)
    ensures Ticked(p, s, delta).state.mode == Idle && Ticked(p, s, delta).state.speed == 0.0
  {
    FrictionStops(Decelerate, s.speed, p.friction, p.maxSpeed);
  }

  /**
   * This component never raises the override, so a move decays like a
   * deceleration: with a non-positive friction its first periodic update
   * drops the speed to 0 while the mode stays "move", and the velocity
   * written from then on is zero.
   */
  lemma MoveDecaysWithoutOverride(p: Params, s: MoverState, delta: real, delta': real)
    requires s.mode == Move && !s.override && 0.0 <= s.speed && p.friction <= 0.0 <= p.maxSpeed && Updates(s, delta)
    ensures Ticked(p, s, delta).state.mode == Move && Ticked(p, s, delta).state.speed == 0.0
    ensures Ticked(p, Ticked(p, s, delta).state, delta').velocity == Vec3(0.0, 0.0, 0.0)
  {
    FrictionStops(Move, s.speed, p.friction, p.maxSpeed);
  }

  class Movable {
    const params: Params
    const owner: GameObject
    /** The body of the collider registered under `colliderName`. */
    const collider: Body
    var mode: Mode
    var speed: real
    var speedOverride: bool
    var direction: Vec3
    var accTime: real

    function State(): MoverState
      reads this
    {
      MoverState(mode, speed, speedOverride, direction, accTime)
    }

    /** Nothing in this component ever sets the override. */
    predicate Valid()
      reads this
    {
      !speedOverride
    }

    constructor (owner: GameObject, collider: Body, params: Params := DefaultParams)
      ensures this.owner == owner && this.collider == collider && this.params == params
      ensures State() == InitialState && Valid()
    {
      this.owner, this.collider, this.params := owner, collider, params;
      mode, speed, speedOverride, direction, accTime := Idle, 1.0, false, Origin, 0.0;
    }

    method Tick(delta: real)
      requires Valid()
      modifies this, collider
      ensures State() == Ticked(params, old(State()), delta).state && Valid()
      ensures collider.velocity == Ticked(params, old(State()), delta).velocity
      ensures collider.mounted == old(collider.mounted)
    {
      if mode == Idle {
        accTime := 0.0;
        collider.velocity := Vec3(0.0, 0.0, 0.0);
        return;
      }
      accTime := accTime + delta * 1000.0;
      collider.velocity := Planar(direction, speed);
      if accTime > AccelerationFrequency && !speedOverride {
        accTime := accTime - AccelerationFrequency;
        speed := UpdatedSpeed(mode, speed, Factor(params, mode), params.maxSpeed);
      }
      if mode == Decelerate && speed <= 0.0 {
        mode := Idle;
      }
    }

    method ChangeState(m: Mode)
      modifies this
      ensures State() == ChangedState(old(State()), m)
    {
      if mode != m {
        accTime := 0.0;
        mode := m;
      }
    }

    method AccelerateTo(d: Vec3)
      requires Valid()
      modifies this, owner
      ensures State() == AcceleratedTo(old(State()), d) && Valid()
      ensures owner.direction == (if owner.provided then d else old(owner.direction))
      ensures owner.position == old(owner.position) && owner.components == old(owner.components)
      ensures owner.disabled == old(owner.disabled)
    {
      direction := d;
      owner.SetDirection(d);
      if mode != Accelerate && mode != Move {
        speed := 1.0;
      }
      ChangeState(Accelerate);
    }

    method DecelerateTo(d: Vec3)
      requires Valid()
      modifies this, owner
      ensures State() == DeceleratedTo(old(State()), d) && Valid()
      ensures owner.direction == (if owner.provided then d else old(owner.direction))
      ensures owner.position == old(owner.position) && owner.components == old(owner.components)
      ensures owner.disabled == old(owner.disabled)
    {
      direction := d;
      owner.SetDirection(d);
      if mode != Idle {
        ChangeState(Decelerate);
      }
    }

    method MoveTo(d: Vec3, s: real)
      requires Valid()
      modifies this, owner
      ensures State() == MovedTo(old(State()), d, s) && Valid()
      ensures owner.direction == (if owner.provided then d else old(owner.direction))
      ensures owner.position == old(owner.position) && owner.components == old(owner.components)
      ensures owner.disabled == old(owner.disabled)
    {
      direction := d;
      owner.SetDirection(d);
      ChangeState(Move);
      speed := s;
    }

    method Stop()
      requires Valid()
      modifies this
      ensures State() == Stopped(old(State())) && Valid()
    {
      mode := Idle;
    }
  }

  /** `useMovable`: builds the controller and registers it under `name`. */
  method UseMovable(owner: GameObject, collider: Body, params: Params := DefaultParams, name: string := DefaultName)
    returns (m: Movable)
    modifies owner
    ensures fresh(m) && m.owner == owner && m.collider == collider && m.params == params
    ensures m.State() == InitialState && m.Valid()
    ensures owner.components == if owner.provided then old(owner.components)[name := m] else old(owner.components)
    ensures owner.position == old(owner.position) && owner.direction == old(owner.direction) && owner.disabled == old(owner.disabled)
  {
    m := new Movable(owner, collider, params);
    owner.AddComponent(name, m);
  }
}
