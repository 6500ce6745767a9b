/**
 * A game object (src/lib/GameObject.tsx): a named, typed container holding a
 * bag of components registered by name, a position, a direction and a disabled
 * flag. The context value a component receives outside any `<GameObject>` is
 * the default one: it ignores registrations and setters and throws on reads.
 */
module GameObjects {
  import opened Base

  const InvalidContext := "Invalid context"

  class GameObject {
    const name: string
    /** The object's `type` tag ("player", "enemy", ...). */
    const kind: string
    /** False for the default context value. */
    const provided: bool
    /**
     * The component bag. Dafny cannot narrow an `object` to a class without
     * traits, so siblings reach each other through typed references and the bag
     * records which object is registered under which name.
     */
    var components: map<string, object>
    var position: Vec3
    var direction: Vec3
    var disabled: bool

    /** A `<GameObject name type position>`: position defaults to the origin. */
    constructor (name: string, kind: string, position: Vec3 := Origin)
      ensures this.name == name && this.kind == kind && provided
      ensures components == map[] && this.position == position
      ensures direction == Origin && !disabled
    {
      this.name, this.kind, provided := name, kind, true;
      components := map[];
      this.position, direction, disabled := position, Origin, false;
    }

    /** The context value seen outside any `<GameObject>`. */
    constructor Default()
      ensures name == "" && kind == "" && !provided
      ensures components == map[] && position == Origin && direction == Origin && !disabled
    {
      name, kind, provided := "", "", false;
      components := map[];
      position, direction, disabled := Origin, Origin, false;
    }

    method AddComponent(n: string, c: object)
      modifies this
      ensures provided ==> GetComponent(n) == Ok(Some(c))
      ensures forall m :: m != n ==> GetComponent(m) == old(GetComponent(m))
      ensures components == if provided then old(components)[n := c] else old(components)
      ensures position == old(position) && direction == old(direction) && disabled == old(disabled)
    {
      if provided {
        components := components[n := c];
      }
    }

    /** `getComponent`: `undefined` (None) for a name nothing was registered under. */
    function GetComponent(n: string): (r: Outcome<Option<object>>)
      reads this
      ensures r.Throws? <==> !provided
      ensures r.Ok? ==> (r.value.Some? <==> n in components)
      ensures r.Ok? && n in components ==> r.value.value == components[n]
    {
      if !provided then Throws(InvalidContext)
      else if n in components then Ok(Some(components[n]))
      else Ok(None)
    }

    function GetPosition(): (r: Outcome<Vec3>)
      reads this
      ensures r.Throws? <==> !provided
    {
      if provided then Ok(position) else Throws(InvalidContext)
    }

    method SetPosition(p: Vec3)
      modifies this
      ensures provided ==> GetPosition() == Ok(p)
      ensures position == (if provided then p else old(position))
      ensures components == old(components) && direction == old(direction) && disabled == old(disabled)
    {
      if provided {
        position := p;
      }
    }

    function GetDirection(): (r: Outcome<Vec3>)
      reads this
      ensures r.Throws? <==> !provided
    {
      if provided then Ok(direction) else Throws(InvalidContext)
    }

    method SetDirection(d: Vec3)
      modifies this
      ensures provided ==> GetDirection() == Ok(d)
      ensures direction == (if provided then d else old(direction))
      ensures components == old(components) && position == old(position) && disabled == old(disabled)
    {
      if provided {
        direction := d;
      }
    }

    function GetDisabled(): (r: Outcome<bool>)
      reads this
      ensures r.Throws? <==> !provided
    {
      if provided then Ok(disabled) else Throws(InvalidContext)
    }

    method SetDisabled(b: bool)
      modifies this
      ensures provided ==> GetDisabled() == Ok(b)
      ensures disabled == (if provided then b else old(disabled))
      ensures components == old(components) && position == old(position) && direction == old(direction)
    {
      if provided {
        disabled := b;
      }
    }

    /** The children (the components) are rendered only while the object is not disabled. */
    predicate ChildrenMounted()
      reads this
    {
      !disabled
    }
  }
}
