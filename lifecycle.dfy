/**
 * How a game object enters and leaves the shared directories: on mount it is
 * added to the scene under its name (src/lib/GameObject.tsx) and registered as
 * an entity; on unmount both are undone by name. The entity registration
 * effect has no dependency list, so every render runs its cleanup (remove by
 * name) and then registers again.
 */
module Lifecycle {
  import opened Base
  import opened GameObjects
  import opened Scenes
  import opened GameEntities

  method Mount(g: GameObject, scene: Scene, entities: Registry)
    modifies scene, entities
    ensures scene.provided ==> scene.GetGameObject(g.name) == Ok(Some(g))
    ensures forall n :: n != g.name ==> scene.GetGameObject(n) == old(scene.GetGameObject(n))
    ensures entities.provided ==> entities.list == old(entities.list) + [g] && entities.GetEntity(g.name) == Some(g)
    ensures !entities.provided ==> entities.list == old(entities.list)
    ensures forall n :: n != g.name ==> entities.GetEntity(n) == old(entities.GetEntity(n))
  {
    scene.AddGameObject(g);
    entities.AddEntity(g);
  }

  method Unmount(g: GameObject, scene: Scene, entities: Registry)
    modifies scene, entities
    ensures scene.provided ==> scene.GetGameObject(g.name) == Ok(None)
    ensures forall n :: n != g.name ==> scene.GetGameObject(n) == old(scene.GetGameObject(n))
    ensures entities.provided ==> entities.list == Filter(old(entities.list), NotNamed(g.name))
    ensures !entities.provided ==> entities.list == old(entities.list)
    ensures entities.byName == old(entities.byName)
  {
    scene.RemoveGameObject(g.name);
    entities.RemoveEntity(g.name);
  }

  /**
   * One re-render of `useRegisterGameEntity`: the previous effect's cleanup
   * removes every entry named like `g`, then the effect appends `g` again, so
   * the object moves to the end of the list and appears there exactly once.
   */
  method RerenderEntity(g: GameObject, entities: Registry)
    modifies entities
    ensures entities.provided ==> entities.list == Filter(old(entities.list), NotNamed(g.name)) + [g]
    ensures entities.provided ==> forall i :: 0 <= i < |entities.list| - 1 ==> entities.list[i].name != g.name
    ensures entities.provided ==> entities.GetEntity(g.name) == Some(g)
    ensures forall n :: n != g.name ==> entities.GetEntity(n) == old(entities.GetEntity(n))
    ensures !entities.provided ==> entities.list == old(entities.list) && entities.byName == old(entities.byName)
  {
    entities.RemoveEntity(g.name);
    entities.AddEntity(g);
    if entities.provided {
      forall i | 0 <= i < |entities.list| - 1
        ensures entities.list[i].name != g.name
      {
        assert entities.list[i] in Filter(old(entities.list), NotNamed(g.name));
      }
    }
  }
}
