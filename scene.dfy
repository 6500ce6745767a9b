/**
 * The scene directory (src/lib/Scene.tsx): game objects by name. The default
 * context value ignores additions and removals and throws on lookup.
 */
module Scenes {
  import opened Base
  import opened GameObjects

  class Scene {
    const provided: bool
    var objects: map<string, GameObject>

    constructor ()
      ensures provided && objects == map[]
    {
      provided, objects := true, map[];
    }

    constructor Default()
      ensures !provided && objects == map[]
    {
      provided, objects := false, map[];
    }

    /** Stores `g` under its name, replacing any object stored under that name. */
    method AddGameObject(g: GameObject)
      modifies this
      ensures provided ==> GetGameObject(g.name) == Ok(Some(g))
      ensures forall n :: n != g.name ==> GetGameObject(n) == old(GetGameObject(n))
      ensures !provided ==> objects == old(objects)
    {
      if provided {
        objects := objects[g.name := g];
      }
    }

    /** Deletes the entry for `n`; deleting an absent name changes nothing. */
    method RemoveGameObject(n: string)
      modifies this
      ensures provided ==> GetGameObject(n) == Ok(None)
      ensures forall m :: m != n ==> GetGameObject(m) == old(GetGameObject(m))
      ensures n !in old(objects) ==> objects == old(objects)
      ensures !provided ==> objects == old(objects)
    {
      if provided {
        objects := objects - {n};
      }
    }

    function GetGameObject(n: string): (r: Outcome<Option<GameObject>>)
      reads this
      ensures r.Throws? <==> !provided
      ensures r.Ok? ==> (r.value.Some? <==> n in objects)
      ensures r.Ok? && n in objects ==> r.value.value == objects[n]
    {
      if !provided then Throws(InvalidContext)
      else if n in objects then Ok(Some(objects[n]))
      else Ok(None)
    }
  }
}
