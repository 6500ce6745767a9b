/**
 * The enemy death effect (src/demo/Effects/EnemyDeathEffect.tsx): once
 * enabled, it asks its own animation player every tick to play the nine-frame
 * "animate" strip with an end callback; when that strip ends, the effect turns
 * itself off and runs the callback it was enabled with. Its component
 * registers its own sprite and animation player under the default names
 * "sprite" and "animationPlayer" on the enemy's game object, then itself.
 */
module DeathEffect {
  import opened Base
  import opened Host
  import opened GameObjects
  import AL = AnimationLogic
  import AP = AnimationPlayer
  import Sprite

  const DefaultName := "enemyDeathEffect"
  const DefaultAnimation := "animate"

  /** Columns of the effect's sheet (`hFrames: 10`). */
  const EffectColumns := 10

  /** `{animate: buildAnimationFromHframes(0, 9)}`: nine frames on row 1, played once. */
  function EffectAnimations(): (r: AnimationSet)
    ensures DefaultAnimation in r && r[DefaultAnimation].Clip?
    ensures |r[DefaultAnimation].animation.frames| == 9 && !r[DefaultAnimation].animation.loop
    ensures forall i :: 0 <= i < 9 ==> r[DefaultAnimation].animation.frames[i] == Frame(i, 1)
  {
    map[DefaultAnimation := Clip(AP.BuildAnimationFromHframes(0, 9).value)]
  }

  /**
   * The callback the player hands over when an attack lands: disable the
   * enemy's game object, unless the player's collider is no longer mounted.
   */
  datatype EffectCallback = DisableEnemy(enemy: GameObject, playerCollider: Body)

  /** One effect tick followed by one animation tick, with the effect enabled. */
  function EffectFrame(s: AL.PlayerState, animation: string, animations: AnimationSet, delta: real): AL.TickResult
  {
    AL.Tick(AL.SetAnimation(s, animation, Some(EffectEnded)), animations, delta)
  }

  /** Whether the end callback fires during these frames, the effect staying enabled. */
  predicate FiresWithin(s: AL.PlayerState, deltas: seq<real>)
    decreases |deltas|
  {
    |deltas| > 0 &&
    var r := EffectFrame(s, DefaultAnimation, EffectAnimations(), deltas[0]);
    r.fired.Some? || FiresWithin(r.state, deltas[1..])
  }

  /** The frames of the strip still to show: all nine unless the strip is already under way. */
  function Remaining(s: AL.PlayerState): (n: nat)
    ensures s.path != Some(DefaultAnimation) ==> n == 9
    ensures s.path == Some(DefaultAnimation) && s.step < 9 ==> n == 9 - s.step
  {
    if s.path == Some(DefaultAnimation) && s.step < 9 then 9 - s.step else if s.path == Some(DefaultAnimation) then 0 else 9
  }

  /**
   * An enabled effect fires its end callback within the strip's remaining
   * frames when each frame lasts more than the frame duration, whether it
   * starts fresh or with the strip under way: the first request starts the
   * strip, and re-setting the same path each tick never restarts it.
   */
  lemma {:induction false} EffectEndsWithinStrip(s: AL.PlayerState, deltas: seq<real>)
    requires (s.path == Some(DefaultAnimation) ==> s.step < 9) && 0.0 <= s.elapsed
    requires forall i :: 0 <= i < |deltas| ==> deltas[i] * 1000.0 > AL.FrameDuration
    requires |deltas| >= Remaining(s)
    ensures FiresWithin(s, deltas)
    decreases Remaining(s)
  {
    var anims := EffectAnimations();
    var requested := AL.SetAnimation(s, DefaultAnimation, Some(EffectEnded));
    assert requested.step == 9 - Remaining(s) && requested.callback == Some(EffectEnded);
    assert AL.Resolve(requested, anims) == AL.Frames(anims[DefaultAnimation].animation);
    assert AL.Advances(requested, deltas[0]);
    var r := AL.Tick(requested, anims, deltas[0]);
    if requested.step < 8 {
      assert r.state.step == requested.step + 1 && r.state.path == Some(DefaultAnimation);
      EffectEndsWithinStrip(r.state, deltas[1..]);
    }
  }

  /** A freshly mounted effect, once enabled, ends within nine long frames. */
  lemma FreshEffectEnds(deltas: seq<real>)
    requires forall i :: 0 <= i < |deltas| ==> deltas[i] * 1000.0 > AL.FrameDuration
    requires |deltas| >= 9
    ensures FiresWithin(AL.Initial(None), deltas)
  {
    EffectEndsWithinStrip(AL.Initial(None), deltas);
  }

  /**
   * The same at any frame rate of at least ten frames a second (60 fps
   * included): once the frames together span more than the strip's remaining
   * frame durations, the end callback has fired. Each short frame either
   * adds to the display time or advances by one step, never more.
   */
  lemma {:induction false} EffectEndsWithinStripShortFrames(s: AL.PlayerState, deltas: seq<real>)
    requires (s.path == Some(DefaultAnimation) ==> s.step < 9) && 0.0 <= s.elapsed <= AL.FrameDuration
    requires forall i :: 0 <= i < |deltas| ==> 0.0 <= deltas[i] * 1000.0 <= AL.FrameDuration
    requires s.elapsed + AL.Span(deltas) > AL.FrameDuration * Remaining(s) as real
    ensures FiresWithin(s, deltas)
    decreases |deltas|
  {
    var anims := EffectAnimations();
    assert deltas != [] by {
      assert AL.FrameDuration <= AL.FrameDuration * Remaining(s) as real;
    }
    var requested := AL.SetAnimation(s, DefaultAnimation, Some(EffectEnded));
    assert requested.step == 9 - Remaining(s) && requested.callback == Some(EffectEnded);
    assert AL.Resolve(requested, anims) == AL.Frames(anims[DefaultAnimation].animation);
    var r := AL.Tick(requested, anims, deltas[0]);
    assert AL.Span(deltas) == deltas[0] * 1000.0 + AL.Span(deltas[1..]);
    if r.fired.None? {
      if AL.Advances(requested, deltas[0]) {
        assert r.state.step == requested.step + 1;
        assert r.state.elapsed == s.elapsed + deltas[0] * 1000.0 - AL.FrameDuration;
      } else {
        assert r.state.step == requested.step && r.state.elapsed == s.elapsed + deltas[0] * 1000.0;
      }
      assert r.state.path == Some(DefaultAnimation) && Remaining(r.state) == 9 - r.state.step;
      EffectEndsWithinStripShortFrames(r.state, deltas[1..]);
    }
  }

  /** An effect enabled on a fresh player starts the strip from its first frame on the next tick. */
  lemma EffectStartsAtFirstFrame(s: AL.PlayerState)
    requires s.path != Some(DefaultAnimation)
    ensures AL.SetAnimation(s, DefaultAnimation, Some(EffectEnded)).step == 0
  {
  }

  class EnemyDeathEffect {
    /** The enemy's game object. */
    const owner: GameObject
    const animation: string
    /** The effect's own animation player. */
    const player: AP.AnimationPlayer
    var enabled: bool
    var callback: Option<EffectCallback>

    /** `useEnemyDeathEffect({animation, animationPlayer})`. */
    constructor (owner: GameObject, animation: string, player: AP.AnimationPlayer)
      ensures this.owner == owner && this.animation == animation && this.player == player
      ensures !enabled && callback.None?
    {
      this.owner, this.animation, this.player := owner, animation, player;
      enabled, callback := false, None;
    }

    /** `enable(callback?)`: turns on and replaces the callback, also when none is given. */
    method Enable(cb: Option<EffectCallback>)
      modifies this
      ensures IsEnabled() && callback == cb
    {
      enabled := true;
      callback := cb;
    }

    method Disable()
      modifies this
      ensures !IsEnabled() && callback == old(callback)
    {
      enabled := false;
    }

    function IsEnabled(): bool
      reads this
    {
      enabled
    }

    /** While enabled, every tick (re)requests the strip with the end callback. */
    method Tick()
      modifies player
      ensures player.State() == if enabled then AL.SetAnimation(old(player.State()), animation, Some(EffectEnded))
                                else old(player.State())
    {
      if enabled {
        player.SetAnimation(animation, Some(EffectEnded));
      }
    }

    /**
     * The end callback handed to the animation player: with a callback
     * stored, turn off and run it; without one, nothing happens and the
     * effect stays on.
     */
    method AnimationEnded()
      modifies this, if callback.Some? then {callback.value.enemy} else {}
      ensures old(callback).None? ==> enabled == old(enabled)
      ensures old(callback).Some? ==> !enabled
      ensures callback == old(callback)
      ensures old(callback).Some? ==>
                var e := old(callback).value.enemy;
                e.disabled == (if old(callback).value.playerCollider.mounted && e.provided then true else old(e.disabled))
    ensures old(callback).Some? ==>
              var e := old(callback).value.enemy;
              e.position == old(e.position) && e.direction == old(e.direction) && e.components == old(e.components)
    {
      if callback.Some? {
        enabled := false;
        var cb := callback.value;
        if cb.playerCollider.mounted {
          cb.enemy.SetDisabled(true);
        }
      }
    }

    /** The per-frame view sync: visible exactly while enabled, placed at the enemy's position. */
    method SyncView() returns (visible: bool, position: Outcome<Vec3>)
      ensures visible == IsEnabled()
      ensures position == owner.GetPosition()
      ensures position.Throws? <==> !owner.provided
    {
      visible := enabled;
      position := owner.GetPosition();
    }
  }

  /**
   * The `<EnemyDeathEffect>` component: its sprite (10 columns) and its
   * animation player are registered under the default names, replacing the
   * enemy's own entries, and the effect itself under `name`.
   */
  method MountEnemyDeathEffect(owner: GameObject, texture: Texture, name: string := DefaultName,
                               animation: string := DefaultAnimation)
    returns (e: EnemyDeathEffect)
    modifies owner
    ensures fresh(e) && fresh(e.player) && fresh(e.player.sprite)
    ensures e.owner == owner && e.animation == animation && !e.IsEnabled()
    ensures e.player.animations == EffectAnimations() && e.player.State() == AL.Initial(None)
    ensures e.player.sprite.texture == texture && e.player.sprite.hFrames == EffectColumns
    ensures owner.components ==
              if owner.provided
              then old(owner.components)[Sprite.DefaultName := e.player.sprite][AP.DefaultName := e.player][name := e]
              else old(owner.components)
    ensures owner.position == old(owner.position) && owner.direction == old(owner.direction) && owner.disabled == old(owner.disabled)
  {
    var sprite := Sprite.UseSprite(owner, texture, hFrames := EffectColumns);
    var player := AP.UseAnimationPlayer(owner, sprite, EffectAnimations(), None);
    e := new EnemyDeathEffect(owner, animation, player);
    owner.AddComponent(name, e);
  }
}
