/**
 * The earlier movement controller (src/lib/Movable.tsx): the same four modes
 * and periodic speed update as the component version, with its own constants
 * (acceleration 1.25, friction 0.8, maxSpeed 100, starting speed 50, an update
 * every 1000/15 ms). It writes a velocity store instead of a collider, does
 * not touch the game object's direction, lets a move hold its speed (entering
 * "move" raises the override, leaving it drops it), and stops a deceleration
 * only inside a periodic update.
 */
module LegacyMovable {
  import opened Base
  import opened GameObjects
  import opened Motion
  import V = Velocity

  const DefaultName := "movable"
  const DefaultVelocityName := "velocity"

  /** `1000 / 15`. */
  const AccelerationFrequency: real := 1000.0 / 15.0

  const DefaultParams := Params(1.25, 0.8, 100.0)

  const InitialState := MoverState(Idle, 50.0, false, Origin, 0.0)

  /** The speed a fresh acceleration starts from. */
  const RestartSpeed: real := 25.0

  /** The override is up exactly while moving, and may linger after a stop. */
  predicate OverrideConsistent(s: MoverState)
  {
    (s.mode == Move ==> s.override) && (s.override ==> s.mode == Move || s.mode == Idle)
  }

  predicate Updates(s: MoverState, delta: real)
  {
    s.accTime + delta * 1000.0 > AccelerationFrequency && !s.override
  }

  /** One frame: the new refs and the velocity handed to the store, if any (none while idle). */
  function Ticked(p: Params, s: MoverState, delta: real): (r: (MoverState, Option<Vec3>))
    ensures s.mode == Idle ==> r.0 == s.(accTime := 0.0) && r.1.None?
    ensures s.mode != Idle ==> r.1 == Some(Planar(s.direction, s.speed))
    ensures r.0.direction == s.direction && r.0.override == s.override
    // the period's clock: each frame adds its milliseconds, a periodic update takes one period off
    ensures s.mode != Idle ==>
              r.0.accTime == s.accTime + delta * 1000.0 - (if Updates(s, delta) then AccelerationFrequency else 0.0)
    ensures s.mode != Idle ==>
              r.0.speed == (if Updates(s, delta) then UpdatedSpeed(s.mode, s.speed, Factor(p, s.mode), p.maxSpeed) else s.speed)
    // only a periodic update of a deceleration that reached zero ends it
    ensures r.0.mode == s.mode || (s.mode == Decelerate && Updates(s, delta) && r.0.mode == Idle && r.0.speed <= 0.0)
    ensures s.mode == Decelerate && Updates(s, delta) && r.0.speed <= 0.0 ==> r.0.mode == Idle
    ensures OverrideConsistent(s) ==> OverrideConsistent(r.0)
  {
    if s.mode == Idle then (s.(accTime := 0.0), None)
    else
      var t := s.accTime + delta * 1000.0;
      var v := Planar(s.direction, s.speed);
      if t > AccelerationFrequency && !s.override then
        var s1 := s.(accTime := t - AccelerationFrequency, speed := UpdatedSpeed(s.mode, s.speed, Factor(p, s.mode), p.maxSpeed));
        (if s1.mode == Decelerate && s1.speed <= 0.0 then s1.(mode := Idle) else s1, Some(v))
      else
        (s.(accTime := t), Some(v))
  }

  /** `changeState`: a change of mode restarts the period and sets the override to "the new mode is move". */
  function ChangedState(s: MoverState, m: Mode): (r: MoverState)
    ensures r.mode == m && r.speed == s.speed && r.direction == s.direction
    ensures r.accTime == (if s.mode == m then s.accTime else 0.0)
    ensures r.override == (if s.mode == m then s.override else m == Move)
    ensures OverrideConsistent(s) ==> OverrideConsistent(r)
  {
    if s.mode != m then s.(accTime := 0.0, mode := m, override := m == Move) else s
  }

  /** `accelerateTo`: any mode but an ongoing acceleration restarts at speed 25. */
  function AcceleratedTo(s: MoverState, d: Vec3): (r: MoverState)
    ensures r.mode == Accelerate && r.direction == d
    ensures OverrideConsistent(s) ==> !r.override
    ensures r.speed == (if s.mode == Accelerate then s.speed else RestartSpeed)
    ensures r.accTime == (if s.mode == Accelerate then s.accTime else 0.0)
    ensures r.override == (if s.mode == Accelerate then s.override else false)
  {
    var s1 := s.(direction := d);
    var s2 := if s.mode != Accelerate then s1.(speed := RestartSpeed) else s1;
    ChangedState(s2, Accelerate)
  }

  function DeceleratedTo(s: MoverState, d: Vec3): (r: MoverState)
    ensures r.direction == d && r.speed == s.speed
    ensures r.mode == (if s.mode == Idle then Idle else Decelerate)
    ensures OverrideConsistent(s) && s.mode != Idle ==> !r.override
    // only a real change of mode restarts the period and drops the override
    ensures r.accTime == (if s.mode == Idle || s.mode == Decelerate then s.accTime else 0.0)
    ensures r.override == (if s.mode == Idle || s.mode == Decelerate then s.override else false)
  {
    var s1 := s.(direction := d);
    if s.mode != Idle then ChangedState(s1, Decelerate) else s1
  }

  /** `moveTo`: the speed is set after the mode change, and the override then holds it. */
  function MovedTo(s: MoverState, d: Vec3, speed: real): (r: MoverState)
    ensures r.mode == Move && r.direction == d && r.speed == speed
    ensures OverrideConsistent(s) ==> r.override
    ensures r.accTime == (if s.mode == Move then s.accTime else 0.0)
    ensures r.override == (if s.mode == Move then s.override else true)
  {
    ChangedState(s.(direction := d), Move).(speed := speed)
  }

  function Stopped(s: MoverState): (r: MoverState)
    ensures r.mode == Idle && r.speed == s.speed && r.override == s.override && r.direction == s.direction
    ensures r.accTime == s.accTime
  {
    s.(mode := Idle)
  }

  /** Every command keeps the override consistent with the mode. */
  lemma CommandsKeepOverrideConsistent(s: MoverState, d: Vec3, speed: real)
    requires OverrideConsistent(s)
    ensures OverrideConsistent(AcceleratedTo(s, d)) && OverrideConsistent(DeceleratedTo(s, d))
    ensures OverrideConsistent(MovedTo(s, d, speed)) && OverrideConsistent(Stopped(s))
  {
  }

  function Run(p: Params, s: MoverState, deltas: seq<real>): MoverState
    decreases |deltas|
  {
    if deltas == [] then s else Run(p, Ticked(p, s, deltas[0]).0, deltas[1..])
  }

  /** A move holds its speed and direction however many ticks pass. */
  lemma {:induction false} MoveHoldsSpeed(p: Params, s: MoverState, deltas: seq<real>)
    requires s.mode == Move && OverrideConsistent(s)
    ensures Run(p, s, deltas).mode == Move && Run(p, s, deltas).speed == s.speed
    ensures Run(p, s, deltas).direction == s.direction
    decreases |deltas|
  {
    if deltas != [] {
      MoveHoldsSpeed(p, Ticked(p, s, deltas[0]).0, deltas[1..]);
    }
  }

  /**
   * With a friction in [0, 1), a deceleration from a whole speed whose ticks
   * each exceed the update period is idle after `speed + 1` ticks.
   */
  lemma {:induction false} DecelerationReachesIdle(p: Params, s: MoverState, deltas: seq<real>)
    requires s.mode == Decelerate && !s.override && 0.0 <= s.accTime
    requires 0.0 <= p.friction < 1.0 && 0.0 <= p.maxSpeed && IsWhole(s.speed) && 0.0 <= s.speed
    requires forall i :: 0 <= i < |deltas| ==> deltas[i] * 1000.0 > AccelerationFrequency
    requires |deltas| as real >= s.speed + 1.0
    ensures Run(p, s, deltas).mode == Idle
    decreases |deltas|
  {
    var s' := Ticked(p, s, deltas[0]).0;
    assert Updates(s, deltas[0]);
    assert s'.speed == UpdatedSpeed(Decelerate, s.speed, p.friction, p.maxSpeed);
    if s.speed < 1.0 {
      assert s.speed == 0.0;
      FrictionStops(Decelerate, s.speed, 0.0, p.maxSpeed);
      assert s'.mode == Idle;
      IdleStaysIdle(p, s', deltas[1..]);
    } else {
      FrictionLoses(Decelerate, s.speed, p.friction, p.maxSpeed);
      if s'.mode == Idle {
        IdleStaysIdle(p, s', deltas[1..]);
      } else {
        DecelerationReachesIdle(p, s', deltas[1..]);
      }
    }
  }

  /** Ticks alone never wake an idle mover. */
  lemma {:induction false} IdleStaysIdle(p: Params, s: MoverState, deltas: seq<real>)
    requires s.mode == Idle
    ensures Run(p, s, deltas).mode == Idle
    decreases |deltas|
  {
    if deltas != [] {
      IdleStaysIdle(p, Ticked(p, s, deltas[0]).0, deltas[1..]);
    }
  }

  class Movable {
    const params: Params
    /** The velocity store found under `velocityName`. */
    const velocity: V.Velocity
    var mode: Mode
    var speed: real
    var speedOverride: bool
    var direction: Vec3
    var accTime: real

    function State(): MoverState
      reads this
    {
      MoverState(mode, speed, speedOverride, direction, accTime)
    }

    predicate Valid()
      reads this
    {
      OverrideConsistent(State())
    }

    /** `useMovable`. */
    constructor (velocity: V.Velocity, params: Params := DefaultParams)
      ensures this.velocity == velocity && this.params == params
      ensures State() == InitialState && Valid()
    {
      this.velocity, this.params := velocity, params;
      mode, speed, speedOverride, direction, accTime := Idle, 50.0, false, Origin, 0.0;
    }

    method Tick(delta: real)
      requires Valid()
      modifies this, velocity
      ensures State() == Ticked(params, old(State()), delta).0 && Valid()
      ensures velocity.velocity == (match Ticked(params, old(State()), delta).1
                                    case Some(v) => v
                                    case None => old(velocity.velocity))
    {
      if mode == Idle {
        accTime := 0.0;
        return;
      }
      accTime := accTime + delta * 1000.0;
      velocity.SetVelocity(Planar(direction, speed));
      if accTime > AccelerationFrequency && !speedOverride {
        accTime := accTime - AccelerationFrequency;
        speed := UpdatedSpeed(mode, speed, Factor(params, mode), params.maxSpeed);
        if mode == Decelerate && speed <= 0.0 {
          mode := Idle;
        }
      }
    }

    method ChangeState(m: Mode)
      modifies this
      ensures State() == ChangedState(old(State()), m)
    {
      if mode != m {
        accTime := 0.0;
        mode := m;
        speedOverride := m == Move;
      }
    }

    method AccelerateTo(d: Vec3)
      requires Valid()
      modifies this
      ensures State() == AcceleratedTo(old(State()), d) && Valid()
    {
      direction := d;
      if mode != Accelerate {
        speed := RestartSpeed;
      }
      ChangeState(Accelerate);
    }

    method DecelerateTo(d: Vec3)
      requires Valid()
      modifies this
      ensures State() == DeceleratedTo(old(State()), d) && Valid()
    {
      direction := d;
      if mode != Idle {
        ChangeState(Decelerate);
      }
    }

    method MoveTo(d: Vec3, s: real)
      requires Valid()
      modifies this
      ensures State() == MovedTo(old(State()), d, s) && Valid()
    {
      direction := d;
      ChangeState(Move);
      speed := s;
    }

    method Stop()
      requires Valid()
      modifies this
      ensures State() == Stopped(old(State())) && Valid()
    {
      mode := Idle;
    }
  }

  /** The `<Movable>` component: the hook over the named velocity store, registered under `name`. */
  method MountMovable(owner: GameObject, velocity: V.Velocity, params: Params := DefaultParams, name: string := DefaultName)
    returns (m: Movable)
    modifies owner
    ensures fresh(m) && m.velocity == velocity && m.params == params
    ensures m.State() == InitialState && m.Valid()
    ensures owner.components == if owner.provided then old(owner.components)[name := m] else old(owner.components)
    ensures owner.position == old(owner.position) && owner.direction == old(owner.direction) && owner.disabled == old(owner.disabled)
  {
    m := new Movable(velocity, params);
    owner.AddComponent(name, m);
  }
}
