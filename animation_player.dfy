/**
 * The animation player component (src/lib/components/AnimationPlayer.tsx):
 * four refs driven by `setAnimation` and by the per-tick sequencer, which
 * writes the current frame into the sibling sprite. The hook registers its
 * API on the game object under `name` (default "animationPlayer").
 */
module AnimationPlayer {
  import opened Base
  import opened GameObjects
  import AL = AnimationLogic
  import Sprite

  const DefaultName := "animationPlayer"

  /** `Array(n)` with a negative length throws a `RangeError`. */
  const InvalidArrayLength := "Invalid array length"

  /**
   * `buildAnimationFromHframes(from, to)`: the columns `from` up to (not
   * including) `to`, each on row 1, not looping.
   */
  function BuildAnimationFromHframes(from: int, to: int): (r: Outcome<Animation>)
    ensures r.Throws? <==> to < from
    ensures r.Ok? ==> |r.value.frames| == to - from && !r.value.loop
    ensures r.Ok? ==> forall i :: 0 <= i < |r.value.frames| ==> r.value.frames[i] == Frame(from + i, 1)
  {
    if to < from then Throws(InvalidArrayLength)
    else Ok(Animation(seq(to - from, i => Frame(from + i, 1)), false))
  }

  /** Consecutive frames of a built animation are adjacent columns of one row. */
  lemma BuiltFramesAdvanceByOneColumn(from: int, to: int, i: int)
    requires from <= to && 0 <= i && i + 1 < to - from
    ensures var fs := BuildAnimationFromHframes(from, to).value.frames;
            fs[i + 1].h == fs[i].h + 1 && fs[i + 1].v == fs[i].v
  {
  }

  class AnimationPlayer {
    const animations: AnimationSet
    /** The sprite found under `spriteName` when the hook ran. */
    const sprite: Sprite.Sprite
    var path: Option<string>
    var step: nat
    var elapsed: real
    var callback: Option<EndCallback>

    function State(): AL.PlayerState
      reads this
    {
      AL.PlayerState(path, step, elapsed, callback)
    }

    constructor (animations: AnimationSet, sprite: Sprite.Sprite, defaultAnimation: Option<string>)
      ensures this.animations == animations && this.sprite == sprite
      ensures State() == AL.Initial(defaultAnimation)
    {
      this.animations, this.sprite := animations, sprite;
      path, step, elapsed, callback := defaultAnimation, 0, 0.0, None;
    }

    method SetAnimation(p: string, cb: Option<EndCallback>)
      modifies this
      ensures State() == AL.SetAnimation(old(State()), p, cb)
    {
      if path != Some(p) {
        path := Some(p);
        step := 0;
      }
      if cb.Some? {
        callback := cb;
      }
    }

    function GetAnimation(): (r: Option<string>)
      reads this
      ensures r == State().path
    {
      path
    }

    /**
     * One frame of the render loop. Returns the end callback the tick invoked
     * (for its owner to run) and what it did to the sprite.
     */
    method Tick(delta: real) returns (fired: Option<EndCallback>, write: AL.FrameWrite)
      modifies this, sprite
      ensures State() == AL.Tick(old(State()), animations, delta).state
      ensures fired == AL.Tick(old(State()), animations, delta).fired
      ensures write == AL.Tick(old(State()), animations, delta).write
      ensures write.Shown? ==> sprite.frame == write.frame
      ensures !write.Shown? ==> sprite.frame == old(sprite.frame)
    {
      fired := None;
      if path.None? || path.value == "" {
        write := AL.Skipped;
        return;
      }
      if path.value !in animations {
        write := AL.Faulted;
        return;
      }
      match animations[path.value]
      case Group =>
        write := AL.Skipped;
      case Clip(a) =>
        elapsed := elapsed + delta * 1000.0;
        if elapsed > AL.FrameDuration {
          elapsed := elapsed - AL.FrameDuration;
          if step == |a.frames| - 1 {
            if a.loop {
              step := 0;
              write := AL.Wrapped;
              return;
            }
            if callback.Some? {
              fired := callback;
              callback := None;
            }
          } else {
            step := step + 1;
          }
        }
        var f := AL.FrameAt(a.frames, step);
        sprite.SetFrame(f);
        write := AL.Shown(f);
    }
  }

  /** `useAnimationPlayer`: builds the player over the given sprite and registers it under `name`. */
  method UseAnimationPlayer(owner: GameObject, sprite: Sprite.Sprite, animations: AnimationSet,
                            defaultAnimation: Option<string>, name: string := DefaultName)
    returns (p: AnimationPlayer)
    modifies owner
    ensures fresh(p) && p.animations == animations && p.sprite == sprite
    ensures p.State() == AL.Initial(defaultAnimation)
    ensures owner.components == if owner.provided then old(owner.components)[name := p] else old(owner.components)
    ensures owner.position == old(owner.position) && owner.direction == old(owner.direction) && owner.disabled == old(owner.disabled)
  {
    p := new AnimationPlayer(animations, sprite, defaultAnimation);
    owner.AddComponent(name, p);
  }
}
