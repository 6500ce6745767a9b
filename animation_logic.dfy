/**
 * The frame sequencer shared, line for line, by both AnimationPlayer
 * iterations: `setAnimation`, `getAnimation` and the per-tick body, as
 * functions of the player's four refs (current path, step, accumulated
 * display time in ms, stored end callback).
 */
module AnimationLogic {
  import opened Base

  /** `1000 / 10`: ten frames a second, whatever the render rate. */
  const FrameDuration: real := 100.0

  datatype PlayerState = PlayerState(path: Option<string>, step: nat, elapsed: real, callback: Option<EndCallback>)

  function Initial(defaultAnimation: Option<string>): PlayerState
  {
    PlayerState(defaultAnimation, 0, 0.0, None)
  }

  /**
   * `setAnimation(path, callback)`: only a change of path restarts at step 0,
   * and only a supplied callback replaces the stored one.
   */
  function SetAnimation(s: PlayerState, path: string, callback: Option<EndCallback>): (r: PlayerState)
    ensures r.path == Some(path)
    ensures r.step == (if s.path == Some(path) then s.step else 0)
    ensures r.callback == (if callback.Some? then callback else s.callback)
    ensures r.elapsed == s.elapsed
  {
    var moved := if s.path != Some(path) then s.(path := Some(path), step := 0) else s;
    if callback.Some? then moved.(callback := callback) else moved
  }

  /** Calling `setAnimation(p)` again without a callback changes nothing. */
  lemma SetAnimationIdempotent(s: PlayerState, path: string, callback: Option<EndCallback>)
    ensures SetAnimation(SetAnimation(s, path, callback), path, None) == SetAnimation(s, path, callback)
  {
  }

  /** What the tick finds at the current path. */
  datatype Resolved =
    | NoPath                        // no path, or the empty string (falsy)
    | Missing                       // lodash `get` yields undefined: reading `.frames` throws
    | NoFrames                      // a nested set: `frames` is undefined
    | Frames(animation: Animation)

  function Resolve(s: PlayerState, animations: AnimationSet): (r: Resolved)
    ensures r.NoPath? <==> s.path.None? || s.path.value == ""
    ensures r.Missing? <==> s.path.Some? && s.path.value != "" && s.path.value !in animations
    ensures r.NoFrames? <==> s.path.Some? && s.path.value != "" && s.path.value in animations &&
                             animations[s.path.value].Group?
    ensures r.Frames? ==> s.path.Some? && s.path.value in animations && animations[s.path.value] == Clip(r.animation)
  {
    if s.path.None? || s.path.value == "" then NoPath
    else if s.path.value !in animations then Missing
    else match animations[s.path.value]
      case Group => NoFrames
      case Clip(a) => Frames(a)
  }

  /** `frames[i]`: reading past the end of a JavaScript array yields undefined. */
  function FrameAt(frames: seq<Frame>, i: nat): (r: Option<Frame>)
    ensures r.Some? <==> i < |frames|
  {
    if i < |frames| then Some(frames[i]) else None
  }

  /** What a tick does to the sprite. */
  datatype FrameWrite =
    | Skipped                       // no path, or no frames: nothing happens
    | Faulted                       // the path resolves to nothing: the tick throws
    | Wrapped                       // a looping animation wrapped to step 0 and returned early
    | Shown(frame: Option<Frame>)   // `spriteApi.setFrame(frames[step])`

  datatype TickResult = TickResult(state: PlayerState, fired: Option<EndCallback>, write: FrameWrite)

  /** While the current animation has frames, the step indexes one of them. */
  predicate InRange(s: PlayerState, animations: AnimationSet)
  {
    var res := Resolve(s, animations);
    res.Frames? && |res.animation.frames| > 0 ==> s.step < |res.animation.frames|
  }

  /** The accumulated time passes the frame duration on this tick. */
  predicate Advances(s: PlayerState, delta: real)
  {
    s.elapsed + delta * 1000.0 > FrameDuration
  }

  function Tick(s: PlayerState, animations: AnimationSet, delta: real): (r: TickResult)
    ensures !Resolve(s, animations).Frames? ==>
              r.state == s && r.fired.None? &&
              r.write == (if Resolve(s, animations).Missing? then Faulted else Skipped)
    ensures Resolve(s, animations).Frames? ==>
              r.state.elapsed == s.elapsed + delta * 1000.0 - (if Advances(s, delta) then FrameDuration else 0.0)
    ensures r.state.path == s.path
    // at most one advance per tick
    ensures r.state.step == s.step || (Advances(s, delta) && (r.state.step == s.step + 1 || r.state.step == 0))
    // a stored callback fires at most once: firing clears it, nothing else touches it
    ensures r.state.callback == (if r.fired.Some? then None else s.callback)
    ensures r.fired.Some? ==> r.fired == s.callback && Advances(s, delta)
    ensures r.write.Wrapped? ==> r.state.step == 0 && Resolve(s, animations).animation.loop
    // an advancing tick: wrap a looping animation at its last frame, hold a non-looping one there, else step on
    ensures Resolve(s, animations).Frames? && Advances(s, delta) ==>
              var a := Resolve(s, animations).animation;
              if s.step == |a.frames| - 1 then
                if a.loop then r.state.step == 0 && r.write == Wrapped && r.fired.None?
                else r.state.step == s.step && r.fired == s.callback && r.write.Shown?
              else r.state.step == s.step + 1 && r.fired.None? && r.write.Shown?
    // a tick that does not advance shows the current frame again
    ensures Resolve(s, animations).Frames? && !Advances(s, delta) ==>
              r.state.step == s.step && r.fired.None? && r.write.Shown?
    ensures InRange(s, animations) ==> InRange(r.state, animations)
    ensures InRange(s, animations) && r.write.Shown? && |Resolve(s, animations).animation.frames| > 0 ==>
              r.write.frame == Some(Resolve(s, animations).animation.frames[r.state.step])
  {
    match Resolve(s, animations)
    case NoPath => TickResult(s, None, Skipped)
    case NoFrames => TickResult(s, None, Skipped)
    case Missing => TickResult(s, None, Faulted)
    case Frames(a) =>
      var t := s.elapsed + delta * 1000.0;
      if t > FrameDuration then
        var t' := t - FrameDuration;
        if s.step == |a.frames| - 1 then
          if a.loop then
            TickResult(s.(step := 0, elapsed := t'), None, Wrapped)
          else
            TickResult(s.(elapsed := t', callback := None), s.callback, Shown(FrameAt(a.frames, s.step)))
        else
          var next := s.step + 1;
          TickResult(s.(step := next, elapsed := t'), None, Shown(FrameAt(a.frames, next)))
      else
        TickResult(s.(elapsed := t), None, Shown(FrameAt(a.frames, s.step)))
  }

  /** The milliseconds several frames span together. */
  function Span(deltas: seq<real>): real
    decreases |deltas|
  {
    if deltas == [] then 0.0 else deltas[0] * 1000.0 + Span(deltas[1..])
  }

  /** Several ticks with no `setAnimation` in between: the final state and how many callbacks fired. */
  function Run(s: PlayerState, animations: AnimationSet, deltas: seq<real>): (PlayerState, nat)
    decreases |deltas|
  {
    if deltas == [] then (s, 0)
    else
      var r := Tick(s, animations, deltas[0]);
      var rest := Run(r.state, animations, deltas[1..]);
      (rest.0, rest.1 + if r.fired.Some? then 1 else 0)
  }

  /** However many ticks run, the stored callback fires at most once, and none fires if none is stored. */
  lemma {:induction false} CallbackFiresAtMostOnce(s: PlayerState, animations: AnimationSet, deltas: seq<real>)
    ensures Run(s, animations, deltas).1 <= (if s.callback.Some? then 1 else 0)
    decreases |deltas|
  {
    if deltas != [] {
      var r := Tick(s, animations, deltas[0]);
      CallbackFiresAtMostOnce(r.state, animations, deltas[1..]);
    }
  }

  /** A looping animation never ends: however many ticks run, no callback fires. */
  lemma {:induction false} LoopingNeverFires(s: PlayerState, animations: AnimationSet, deltas: seq<real>)
    requires Resolve(s, animations).Frames? && Resolve(s, animations).animation.loop
    ensures Run(s, animations, deltas).1 == 0
    decreases |deltas|
  {
    if deltas != [] {
      var r := Tick(s, animations, deltas[0]);
      assert r.fired.None?;
      assert Resolve(r.state, animations) == Resolve(s, animations);
      LoopingNeverFires(r.state, animations, deltas[1..]);
    }
  }

  /** A one-frame, non-looping animation fires its callback on the first tick that advances. */
  lemma SingleFrameFiresOnFirstAdvance(s: PlayerState, animations: AnimationSet, delta: real)
    requires Resolve(s, animations).Frames?
    requires |Resolve(s, animations).animation.frames| == 1 && !Resolve(s, animations).animation.loop
    requires InRange(s, animations) && s.callback.Some? && Advances(s, delta)
    ensures Tick(s, animations, delta).fired == s.callback
    ensures Tick(s, animations, delta).state.step == 0
  {
  }

  /**
   * A non-looping animation whose ticks each exceed the frame duration reaches
   * its last frame and fires the stored callback exactly once.
   */
  lemma {:induction false} NonLoopingEndFiresOnce(s: PlayerState, animations: AnimationSet, deltas: seq<real>)
    requires Resolve(s, animations).Frames? && !Resolve(s, animations).animation.loop
    requires |Resolve(s, animations).animation.frames| > 0 && InRange(s, animations)
    requires s.callback.Some? && s.elapsed >= 0.0
    requires |deltas| >= |Resolve(s, animations).animation.frames| - s.step
    requires forall i :: 0 <= i < |deltas| ==> deltas[i] * 1000.0 > FrameDuration
    ensures Run(s, animations, deltas).1 == 1
    decreases |deltas|
  {
    var r := Tick(s, animations, deltas[0]);
    assert Advances(s, deltas[0]);
    var frames := Resolve(s, animations).animation.frames;
    if s.step == |frames| - 1 {
      assert r.fired == s.callback;
      CallbackFiresAtMostOnce(r.state, animations, deltas[1..]);
    } else {
      assert r.state.step == s.step + 1 && r.fired.None?;
      assert Resolve(r.state, animations) == Resolve(s, animations);
      NonLoopingEndFiresOnce(r.state, animations, deltas[1..]);
    }
  }
}
