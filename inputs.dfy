/**
 * The inputs component (src/lib/components/Inputs.ts): a key table written by
 * the window's key and mouse handlers and read through the input map. The
 * hook registers its API on the game object under `name` (default "inputs").
 */
module Inputs {
  import opened GameObjects
  import opened InputLookup

  const DefaultName := "inputs"

  class Inputs {
    const inputMap: InputMap
    /** `inputs.current`. */
    var inputs: KeyState

    predicate Valid()
      reads this
    {
      Latched(inputs)
    }

    constructor (inputMap: InputMap := DefaultInputMap)
      ensures this.inputMap == inputMap && inputs == map[] && Valid()
    {
      this.inputMap := inputMap;
      inputs := map[];
    }

    method KeyDown(key: string)
      requires Valid()
      modifies this
      ensures inputs == Press(old(inputs), key) && Valid()
    {
      inputs := inputs[key := 1];
    }

    method KeyUp(key: string)
      requires Valid()
      modifies this
      ensures inputs == Release(old(inputs), key) && Valid()
    {
      inputs := inputs[key := 0];
    }

    method MouseDown(button: nat)
      requires Valid()
      modifies this
      ensures inputs == Press(old(inputs), MouseKey(button)) && Valid()
    {
      inputs := inputs[MouseKey(button) := 1];
    }

    method MouseUp(button: nat)
      requires Valid()
      modifies this
      ensures inputs == Release(old(inputs), MouseKey(button)) && Valid()
    {
      inputs := inputs[MouseKey(button) := 0];
    }

    function IsActionPressed(action: string): (r: bool)
      reads this
      ensures r <==> GetActionStrength(action) > 0
    {
      ActionPressed(inputMap, inputs, action)
    }

    function GetActionStrength(action: string): (r: int)
      reads this
      ensures Valid() ==> r == 0 || r == 1
      ensures r == ActionStrength(inputMap, inputs, action)
    {
      ActionStrength(inputMap, inputs, action)
    }
  }

  /** `useInputs`: builds the key table and registers the API under `name`. */
  method UseInputs(owner: GameObject, inputMap: InputMap := DefaultInputMap, name: string := DefaultName)
    returns (i: Inputs)
    modifies owner
    ensures fresh(i) && i.inputMap == inputMap && i.inputs == map[] && i.Valid()
    ensures owner.components == if owner.provided then old(owner.components)[name := i] else old(owner.components)
    ensures owner.position == old(owner.position) && owner.direction == old(owner.direction) && owner.disabled == old(owner.disabled)
  {
    i := new Inputs(inputMap);
    owner.AddComponent(name, i);
  }
}
