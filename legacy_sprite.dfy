/**
 * The earlier sprite (src/lib/Sprite.tsx): the same frame store and per-tick
 * offset write as the component version; the hook itself does not register,
 * the `<Sprite>` component does, under `name` (default "sprite").
 */
module LegacySprite {
  import opened Base
  import opened Host
  import opened SpriteSheet
  import opened GameObjects

  const DefaultName := "sprite"

  class Sprite {
    const texture: Texture
    const hFrames: int
    const vFrames: int
    var frame: Option<Frame>

    /** `useSprite`, which registers nothing. */
    constructor (texture: Texture, frame: Frame := DefaultFrame, hFrames: int := 1, vFrames: int := 1)
      requires hFrames > 0 && vFrames > 0
      ensures this.texture == texture && this.hFrames == hFrames && this.vFrames == vFrames
      ensures this.frame == Some(frame)
    {
      this.texture, this.hFrames, this.vFrames := texture, hFrames, vFrames;
      this.frame := Some(frame);
    }

    method SetFrame(f: Option<Frame>)
      modifies this
      ensures frame == f
    {
      frame := f;
    }

    method Tick()
      requires hFrames > 0 && vFrames > 0
      modifies texture
      ensures frame.Some? ==> TextureOffset(texture.offsetX, texture.offsetY) == Offset(frame.value, hFrames, vFrames)
      ensures frame.None? ==> texture.offsetX == old(texture.offsetX) && texture.offsetY == old(texture.offsetY)
    {
      if frame.Some? {
        var o := Offset(frame.value, hFrames, vFrames);
        texture.offsetX := o.x;
        texture.offsetY := o.y;
      }
    }
  }

  /** The `<Sprite name>` component: the hook's sprite, registered under `name`. */
  method MountSprite(owner: GameObject, texture: Texture, name: string := DefaultName,
                     frame: Frame := DefaultFrame, hFrames: int := 1, vFrames: int := 1)
    returns (s: Sprite)
    requires hFrames > 0 && vFrames > 0
    modifies owner
    ensures fresh(s) && s.texture == texture && s.frame == Some(frame)
    ensures s.hFrames == hFrames && s.vFrames == vFrames
    ensures owner.components == if owner.provided then old(owner.components)[name := s] else old(owner.components)
    ensures owner.position == old(owner.position) && owner.direction == old(owner.direction) && owner.disabled == old(owner.disabled)
  {
    s := new Sprite(texture, frame, hFrames, vFrames);
    owner.AddComponent(name, s);
  }
}
