/**
 * The earlier animation player (src/lib/AnimationPlayer.tsx): the same refs
 * and the same sequencer as the component version, over a sprite passed in
 * as an option; it registers nothing on its game object.
 */
module LegacyAnimationPlayer {
  import opened Base
  import AL = AnimationLogic
  import LegacySprite

  class AnimationPlayer {
    const animations: AnimationSet
    /** The `spriteApi` option. */
    const sprite: LegacySprite.Sprite
    var path: Option<string>
    var step: nat
    var elapsed: real
    var callback: Option<EndCallback>

    function State(): AL.PlayerState
      reads this
    {
      AL.PlayerState(path, step, elapsed, callback)
    }

    /** `useAnimationPlayer({animations, defaultAnimation, spriteApi})`, which registers nothing. */
    constructor (animations: AnimationSet, sprite: LegacySprite.Sprite, defaultAnimation: Option<string>)
      ensures this.animations == animations && this.sprite == sprite
      ensures State() == AL.Initial(defaultAnimation)
    {
      this.animations, this.sprite := animations, sprite;
      path, step, elapsed, callback := defaultAnimation, 0, 0.0, None;
    }

    method SetAnimation(p: string, cb: Option<EndCallback>)
      modifies this
      ensures State() == AL.SetAnimation(old(State()), p, cb)
    {
      if path != Some(p) {
        path := Some(p);
        step := 0;
      }
      if cb.Some? {
        callback := cb;
      }
    }

    function GetAnimation(): (r: Option<string>)
      reads this
      ensures r == State().path
    {
      path
    }

    /**
     * One frame of the render loop. Returns the end callback the tick invoked
     * (for its owner to run) and what it did to the sprite.
     */
    method Tick(delta: real) returns (fired: Option<EndCallback>, write: AL.FrameWrite)
      modifies this, sprite
      ensures State() == AL.Tick(old(State()), animations, delta).state
      ensures fired == AL.Tick(old(State()), animations, delta).fired
      ensures write == AL.Tick(old(State()), animations, delta).write
      ensures write.Shown? ==> sprite.frame == write.frame
      ensures !write.Shown? ==> sprite.frame == old(sprite.frame)
    {
      fired := None;
      if path.None? || path.value == "" {
        write := AL.Skipped;
        return;
      }
      if path.value !in animations {
        write := AL.Faulted;
        return;
      }
      match animations[path.value]
      case Group =>
        write := AL.Skipped;
      case Clip(a) =>
        elapsed := elapsed + delta * 1000.0;
        if elapsed > AL.FrameDuration {
          elapsed := elapsed - AL.FrameDuration;
          if step == |a.frames| - 1 {
            if a.loop {
              step := 0;
              write := AL.Wrapped;
              return;
            }
            if callback.Some? {
              fired := callback;
              callback := None;
            }
          } else {
            step := step + 1;
          }
        }
        var f := AL.FrameAt(a.frames, step);
        sprite.SetFrame(f);
        write := AL.Shown(f);
    }
  }
}
