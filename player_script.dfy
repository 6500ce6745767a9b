/**
 * The player (src/demo/Player/Player.tsx): the `<Player>` composition and the
 * player script's per-frame hook and collision handler, over the components
 * it finds on its game object.
 */
module PlayerScript {
  import opened Base
  import opened Host
  import opened GameObjects
  import opened Scenes
  import opened PlayerLogic
  import AL = AnimationLogic
  import MC = MovableComponent
  import MO = Motion
  import AP = AnimationPlayer
  import IN = Inputs
  import DE = DeathEffect
  import SD = SpriteData
  import IL = InputLookup
  import Sprite

  const EnemyKind := "enemy"
  const PlayerKind := "player"
  const SheetColumns := 60
  /** `<Movable maxSpeed={90} />`: the other parameters keep their defaults. */
  const PlayerParams := MC.DefaultParams.(maxSpeed := 90.0)

  class PlayerScript {
    const owner: GameObject
    const scene: Scene
    const inputs: IN.Inputs
    const movable: MC.Movable
    const player: AP.AnimationPlayer
    /** The body of the player's collider, whose mounted ref the kill callback checks. */
    const collider: Body
    const rollSpeed: real
    var mode: Mode
    var lastDirection: Vec3
    var lastInput: Vec3

    function Script(): ScriptState
      reads this
    {
      ScriptState(mode, lastDirection, lastInput)
    }

    predicate Valid()
      reads this, inputs, movable
    {
      Heading(lastDirection) && inputs.Valid() && movable.Valid() && movable.owner == owner
    }

    /** `usePlayerScript({rollSpeed})` over the components found on the game object. */
    constructor (owner: GameObject, scene: Scene, inputs: IN.Inputs, movable: MC.Movable, player: AP.AnimationPlayer,
                 collider: Body, rollSpeed: real := RollSpeed)
      requires inputs.Valid() && movable.Valid() && movable.owner == owner
      ensures this.owner == owner && this.scene == scene && this.inputs == inputs && this.movable == movable
      ensures this.player == player && this.collider == collider && this.rollSpeed == rollSpeed
      ensures Script() == InitialScript && Valid()
    {
      this.owner, this.scene, this.inputs, this.movable, this.player := owner, scene, inputs, movable, player;
      this.collider, this.rollSpeed := collider, rollSpeed;
      mode, lastDirection, lastInput := Moving, Vec3(1.0, 0.0, 0.0), Origin;
    }

    /** The input vector read from the action strengths. */
    function Input(): (v: Vec3)
      reads inputs
      ensures inputs.Valid() ==> Axes(v)
    {
      InputVector(inputs.GetActionStrength("right"), inputs.GetActionStrength("left"),
                  inputs.GetActionStrength("up"), inputs.GetActionStrength("down"))
    }

    /** One `setAnimation` call, recorded after the calls made before it in this tick. */
    method Show(path: string, cb: Option<EndCallback>, ghost start: AL.PlayerState, ghost done: seq<Request>)
      returns (ghost done': seq<Request>)
      requires player.State() == Requested(start, done)
      modifies player
      ensures done' == done + [Request(path, cb)] && player.State() == Requested(start, done')
    {
      player.SetAnimation(path, cb);
      done' := done + [Request(path, cb)];
      RequestedSnoc(start, done, Request(path, cb));
    }

    /** The four independent facing tests of the idle and attack cases. */
    method ShowFacing(up: string, down: string, right: string, left: string, cb: Option<EndCallback>,
                      ghost start: AL.PlayerState)
      requires player.State() == start
      modifies player
      ensures player.State() == Requested(start, FacingRequests(lastDirection, up, down, right, left, cb))
    {
      ghost var done: seq<Request> := [];
      if lastDirection.y > 0.0 {
        done := Show(up, cb, start, done);
      }
      assert done == When([], lastDirection.y > 0.0, up, cb);
      ghost var expected := done;
      if lastDirection.y < 0.0 {
        done := Show(down, cb, start, done);
      }
      assert done == When(expected, lastDirection.y < 0.0, down, cb);
      expected := done;
      if lastDirection.x > 0.0 {
        done := Show(right, cb, start, done);
      }
      assert done == When(expected, lastDirection.x > 0.0, right, cb);
      expected := done;
      if lastDirection.x < 0.0 {
        done := Show(left, cb, start, done);
      }
      assert done == When(expected, lastDirection.x < 0.0, left, cb);
    }

    /**
     * The per-frame hook: in "move" read the axes, update the heading, the
     * animation and the controller, then the action buttons; in "attack" and
     * "roll" start the action's animation unless it is playing.
     */
    method Tick()
      requires Valid()
      modifies this, movable, owner, player
      ensures Valid()
      ensures var st := ScriptStep(old(Script()), old(player.GetAnimation()), old(Input()),
                                   old(inputs.IsActionPressed("attack")), old(inputs.IsActionPressed("roll")), rollSpeed);
              Script() == st.script && Applied(old(player.State()), old(movable.State()), old(owner.direction), st)
      ensures owner.position == old(owner.position) && owner.components == old(owner.components)
      ensures owner.disabled == old(owner.disabled)
    {
      match mode
      case Moving => MoveTick();
      case Attacking => AttackTick();
      case Rolling => RollTick();
    }

    /** The player and the controller after a step's calls, from their state before it. */
    ghost predicate Applied(ap: AL.PlayerState, ms: MO.MoverState, direction: Vec3, st: Step)
      reads this, player, movable, owner
    {
      player.State() == Requested(ap, st.requests) &&
      movable.State() == Commanded(ms, st.command) &&
      owner.direction == Steered(direction, owner.provided, st.command)
    }

    /** The "move" case. */
    method MoveTick()
      requires Valid() && mode == Moving
      modifies this, movable, owner, player
      ensures Valid()
      ensures var st := MoveStep(old(Script()), old(Input()),
                                 old(inputs.IsActionPressed("attack")), old(inputs.IsActionPressed("roll")));
              Script() == st.script && Applied(old(player.State()), old(movable.State()), old(owner.direction), st)
      ensures owner.position == old(owner.position) && owner.components == old(owner.components)
      ensures owner.disabled == old(owner.disabled)
    {
      var right := inputs.GetActionStrength("right");
      var left := inputs.GetActionStrength("left");
      var up := inputs.GetActionStrength("up");
      var down := inputs.GetActionStrength("down");
      lastInput := Vec3((right - left) as real, (up - down) as real, 0.0);
      assert lastInput == Input();
      MoveStepIgnoresButtons(old(Script()), Script(), lastInput,
                             inputs.IsActionPressed("attack"), inputs.IsActionPressed("roll"));
      Travel();
      if inputs.IsActionPressed("attack") {
        mode := Attacking;
      }
      if inputs.IsActionPressed("roll") {
        mode := Rolling;
      }
    }

    /** The heading, the run or idle animation and the controller command for the input just read. */
    method Travel()
      requires Valid() && Axes(lastInput)
      modifies this, movable, owner, player
      ensures Valid() && mode == old(mode) && lastInput == old(lastInput)
      ensures var st := MoveStep(old(Script()), lastInput, false, false);
              lastDirection == st.script.lastDirection &&
              Applied(old(player.State()), old(movable.State()), old(owner.direction), st)
      ensures owner.position == old(owner.position) && owner.components == old(owner.components)
      ensures owner.disabled == old(owner.disabled)
    {
      ghost var st := MoveStep(Script(), lastInput, false, false);
      if lastInput.x != 0.0 || lastInput.y != 0.0 {
        Steer();
        assert lastDirection == st.script.lastDirection;
        movable.AccelerateTo(lastDirection);
      } else {
        assert st.requests == FacingRequests(lastDirection, "idle.up", "idle.down", "idle.right", "idle.left", None);
        movable.DecelerateTo(lastDirection);
        ShowFacing("idle.up", "idle.down", "idle.right", "idle.left", None, player.State());
      }
    }

    /** The heading and run animation for a non-zero input vector. */
    method Steer()
      requires lastInput.x != 0.0 || lastInput.y != 0.0
      modifies this, player
      ensures lastDirection == NextDirection(old(lastDirection), lastInput)
      ensures player.State() == Requested(old(player.State()), MoveRequests(lastInput))
      ensures mode == old(mode) && lastInput == old(lastInput)
    {
      ghost var start := player.State();
      ghost var done: seq<Request> := [];
      if lastInput.y > 0.0 && lastInput.x == 0.0 {
        lastDirection := Vec3(0.0, 1.0, 0.0);
        done := Show("move.up", None, start, done);
      }
      if lastInput.y < 0.0 && lastInput.x == 0.0 {
        lastDirection := Vec3(0.0, -1.0, 0.0);
        done := Show("move.down", None, start, done);
      }
      if lastInput.x > 0.0 {
        lastDirection := Vec3(1.0, lastInput.y, 0.0);
        done := Show("move.right", None, start, done);
      }
      if lastInput.x < 0.0 {
        lastDirection := Vec3(-1.0, lastInput.y, 0.0);
        done := Show("move.left", None, start, done);
      }
      assert done == MoveRequests(lastInput);
    }

    /** The "attack" case. */
    method AttackTick()
      requires Valid() && mode == Attacking
      modifies movable, owner, player
      ensures Valid()
      ensures Applied(old(player.State()), old(movable.State()), old(owner.direction), AttackStep(Script(), old(player.GetAnimation())))
      ensures owner.position == old(owner.position) && owner.components == old(owner.components)
      ensures owner.disabled == old(owner.disabled)
    {
      if Includes(player.GetAnimation(), "attack") {
        return;
      }
      movable.DecelerateTo(lastDirection);
      ShowFacing("attack.up", "attack.down", "attack.right", "attack.left", Some(BackToMove), player.State());
    }

    /** The "roll" case: the first facing test that holds sets the animation and returns. */
    method RollTick()
      requires Valid() && mode == Rolling
      modifies movable, owner, player
      ensures Valid()
      ensures Applied(old(player.State()), old(movable.State()), old(owner.direction), RollStep(Script(), old(player.GetAnimation()), rollSpeed))
      ensures owner.position == old(owner.position) && owner.components == old(owner.components)
      ensures owner.disabled == old(owner.disabled)
    {
      if Includes(player.GetAnimation(), "roll") {
        return;
      }
      movable.MoveTo(lastDirection, rollSpeed);
      ghost var start := player.State();
      ghost var done: seq<Request> := [];
      if lastDirection.y > 0.0 {
        done := Show("roll.up", Some(BackToMove), start, done);
      } else if lastDirection.y < 0.0 {
        done := Show("roll.down", Some(BackToMove), start, done);
      } else if lastDirection.x > 0.0 {
        done := Show("roll.right", Some(BackToMove), start, done);
      } else if lastDirection.x < 0.0 {
        done := Show("roll.left", Some(BackToMove), start, done);
      }
      assert done == RollRequests(lastDirection);
    }

    /** `handleAttackEnded` / `handleRollEnded`, run when the player's animation fires one of them. */
    method AnimationEnded(cb: EndCallback)
      modifies this
      ensures Script() == Ended(old(Script()), cb)
    {
      if cb == BackToMove {
        mode := Moving;
      }
    }

    /** The animation player's frame on the player: tick it, then run the callback it fired. */
    method AnimationFrame(delta: real) returns (write: AL.FrameWrite)
      modifies this, player, player.sprite
      ensures var t := AL.Tick(old(player.State()), player.animations, delta);
              player.State() == t.state && write == t.write &&
              Script() == if t.fired.Some? then Ended(old(Script()), t.fired.value) else old(Script())
      // the sprite shows the frame written, and keeps its frame otherwise
      ensures player.sprite.frame == if write.Shown? then write.frame else old(player.sprite.frame)
    {
      var fired;
      fired, write := player.Tick(delta);
      if fired.Some? {
        AnimationEnded(fired.value);
      }
    }

    /**
     * The collider's "collide" handler. `effect` is the enemy's
     * "enemyDeathEffect" component, if it has one. An attacking player
     * facing an enemy enables the enemy's death effect with a callback that
     * disables the enemy while the player's collider is mounted.
     */
    method OnCollide(bodyName: string, effect: Option<DE.EnemyDeathEffect>) returns (r: Outcome<bool>)
      modifies if effect.Some? then {effect.value} else {}
      ensures var found := scene.GetGameObject(bodyName);
              if found.Throws? then r.Throws?
              else if found.value.None? || found.value.value.kind != EnemyKind then r == Ok(false)
              else
                var g := found.value.value;
                if owner.GetPosition().Throws? || g.GetPosition().Throws? then r.Throws?
                else if !(AreDirectionsFacing(lastDirection, Towards(owner.GetPosition().value, g.GetPosition().value))
                          && mode == Attacking) then r == Ok(false)
                else if effect.None? then r.Throws?
                else r == Ok(true) && effect.value.IsEnabled() && effect.value.callback == Some(DE.DisableEnemy(g, collider))
      ensures r != Ok(true) && effect.Some? ==> effect.value.enabled == old(effect.value.enabled) &&
                                                effect.value.callback == old(effect.value.callback)
    {
      var found := scene.GetGameObject(bodyName);
      if found.Throws? {
        return Throws(found.message);
      }
      if found.value.None? || found.value.value.kind != EnemyKind {
        return Ok(false);
      }
      var g := found.value.value;
      var own := owner.GetPosition();
      if own.Throws? {
        return Throws(own.message);
      }
      var target := g.GetPosition();
      if target.Throws? {
        return Throws(target.message);
      }
      var enemyDirection := Towards(own.value, target.value);
      if !(AreDirectionsFacing(lastDirection, enemyDirection) && mode == Attacking) {
        return Ok(false);
      }
      if effect.None? {
        return Throws(NotAFunction);
      }
      effect.value.Enable(Some(DE.DisableEnemy(g, collider)));
      return Ok(true);
    }
  }

  /** Calling `enable` on an absent component throws a `TypeError`. */
  const NotAFunction := "Cannot read properties of undefined (reading 'enable')"

  /**
   * The `<Player>` children on its game object: a 60-column sprite, the
   * animation player over the player's table, the inputs, a movable with a
   * top speed of 90 over the collider's body, and the script.
   */
  method MountPlayer(owner: GameObject, scene: Scene, texture: Texture, collider: Body) returns (script: PlayerScript)
    requires owner.kind == PlayerKind
    modifies owner
    ensures fresh(script) && fresh(script.movable) && fresh(script.player) && fresh(script.inputs)
    ensures script.owner == owner && script.scene == scene && script.collider == collider && script.rollSpeed == RollSpeed
    ensures script.Valid() && script.Script() == InitialScript
    ensures script.player.animations == SD.PlayerAnimations && script.player.State() == AL.Initial(None)
    ensures script.player.sprite.hFrames == SheetColumns && script.player.sprite.vFrames == 1
    ensures script.movable.params == PlayerParams && script.movable.State() == MC.InitialState
    ensures script.movable.collider == collider
    ensures script.inputs.inputMap == IL.DefaultInputMap
    ensures owner.provided ==> owner.components == old(owner.components)[Sprite.DefaultName := script.player.sprite]
              [AP.DefaultName := script.player][IN.DefaultName := script.inputs][MC.DefaultName := script.movable]
    ensures !owner.provided ==> owner.components == old(owner.components)
    ensures owner.position == old(owner.position) && owner.direction == old(owner.direction) && owner.disabled == old(owner.disabled)
  {
    var sprite := Sprite.UseSprite(owner, texture, hFrames := SheetColumns);
    var player := AP.UseAnimationPlayer(owner, sprite, SD.PlayerAnimations, None);
    var inputs := IN.UseInputs(owner);
    var movable := MC.UseMovable(owner, collider, PlayerParams);
    script := new PlayerScript(owner, scene, inputs, movable, player, collider);
  }
}
