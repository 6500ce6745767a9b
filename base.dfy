/**
 * Values shared by every component of the game framework: optional values, the
 * outcome of a call that may throw, 3-vectors, sprite-sheet frames, animations,
 * the end-of-animation callbacks of the program as tags, and the JavaScript
 * `Math.min`/`Math.max`/`Math.ceil`/`Math.floor` arithmetic the motion
 * controllers use.
 */
module Base {

  datatype Option<T> = None | Some(value: T)

  /** A JavaScript call that either returns a value or throws an `Error`. */
  datatype Outcome<T> = Ok(value: T) | Throws(message: string)

  /** `Coordinates` and three.js `Vector3`: the world is 2D, `z` is carried along. */
  datatype Vec3 = Vec3(x: real, y: real, z: real)

  const Origin := Vec3(0.0, 0.0, 0.0)

  /** An `[h, v]` cell of a sprite sheet. */
  datatype Frame = Frame(h: int, v: int)

  /** An `Animation`: its frames and the optional `loop` flag (absent reads as false). */
  datatype Animation = Animation(frames: seq<Frame>, loop: bool)

  /**
   * What lodash `get(animations, path)` yields for a dot-separated path of a
   * nested animation set: an animation, or a nested set (which has no `frames`).
   * A path absent from the table yields `undefined`.
   */
  datatype Entry = Clip(animation: Animation) | Group

  /** A nested animation set, flattened to its dot-separated paths. */
  type AnimationSet = map<string, Entry>

  /**
   * The end-of-animation callbacks this program hands to an animation player:
   * the player script's `handleAttackEnded`/`handleRollEnded` (both set the
   * script back to "move") and the death effect's wrapper closure.
   */
  datatype EndCallback = BackToMove | EffectEnded

  /** `Math.min(Math.max(min, value), max)`. */
  function Clamp(min: real, value: real, max: real): (r: real)
    ensures r <= max
    ensures min <= max ==> min <= r
    ensures min <= value <= max ==> r == value
    ensures value < min ==> r == (if min <= max then min else max)
    ensures max < value ==> r == max
  {
    var low := if min < value then value else min;
    if low < max then low else max
  }

  /** `Math.floor`. */
  function Floor(x: real): (r: int)
    ensures r as real <= x < r as real + 1.0
  {
    x.Floor
  }

  /** `Math.ceil`, as the negated floor of the negation. */
  function Ceil(x: real): (r: int)
    ensures x <= r as real < x + 1.0
  {
    -((-x).Floor)
  }

  /** A real that holds a whole number, as `Math.ceil` and `Math.floor` produce. */
  predicate IsWhole(x: real)
  {
    x.Floor as real == x
  }

  /** Rounding up never passes a whole number at or above the value. */
  lemma CeilAtMostWhole(x: real, m: real)
    requires x <= m && IsWhole(m)
    ensures Ceil(x) as real <= m
  {
    var n := m.Floor;
    assert (-n) as real <= -x;
    assert -n <= (-x).Floor;
  }

  /** Rounding up a value above a whole number reaches at least the next whole number. */
  lemma CeilAboveWhole(m: real, x: real)
    requires IsWhole(m) && m < x
    ensures m + 1.0 <= Ceil(x) as real
  {
    var n := m.Floor;
    assert (-x).Floor < -n;
  }

  /** Rounding down a value below a whole number stays at or below the previous whole number. */
  lemma FloorBelowWhole(x: real, m: real)
    requires IsWhole(m) && x < m
    ensures Floor(x) as real <= m - 1.0
  {
    var n := m.Floor;
    assert x.Floor < n;
  }
}
