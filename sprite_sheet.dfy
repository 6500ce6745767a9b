/**
 * The frame-to-texture-offset rule both Sprite iterations apply each tick:
 * frame `(h, v)` of a sheet cut into `hFrames` x `vFrames` cells is shown by
 * shifting the texture by `(h / hFrames, v / vFrames)`.
 */
module SpriteSheet {
  import opened Base

  datatype TextureOffset = TextureOffset(x: real, y: real)

  const DefaultFrame := Frame(0, 0)

  function Offset(f: Frame, hFrames: int, vFrames: int): (r: TextureOffset)
    requires hFrames > 0 && vFrames > 0
    ensures r.x * hFrames as real == f.h as real && r.y * vFrames as real == f.v as real
    ensures 0 <= f.h < hFrames ==> 0.0 <= r.x < 1.0
    ensures 0 <= f.v < vFrames ==> 0.0 <= r.y < 1.0
  {
    TextureOffset(f.h as real / hFrames as real, f.v as real / vFrames as real)
  }

  /** Distinct frames are shown at distinct offsets. */
  lemma OffsetInjective(f: Frame, g: Frame, hFrames: int, vFrames: int)
    requires hFrames > 0 && vFrames > 0
    requires Offset(f, hFrames, vFrames) == Offset(g, hFrames, vFrames)
    ensures f == g
  {
    var o := Offset(f, hFrames, vFrames);
    assert f.h as real == o.x * hFrames as real == g.h as real;
    assert f.v as real == o.y * vFrames as real == g.v as real;
  }
}
