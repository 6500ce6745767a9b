/**
 * The earlier inputs hook (src/lib/Inputs.ts): the same key table, handlers
 * and queries as the component version; it registers nothing.
 */
module LegacyInputs {
  import opened InputLookup

  class Inputs {
    const inputMap: InputMap
    /** `inputs.current`. */
    var inputs: KeyState

    predicate Valid()
      reads this
    {
      Latched(inputs)
    }

    /** `useInputs({inputMap})`, which registers nothing. */
    constructor (inputMap: InputMap := DefaultInputMap)
      ensures this.inputMap == inputMap && inputs == map[] && Valid()
    {
      this.inputMap := inputMap;
      inputs := map[];
    }

    method KeyDown(key: string)
      requires Valid()
      modifies this
      ensures inputs == Press(old(inputs), key) && Valid()
    {
      inputs := inputs[key := 1];
    }

    method KeyUp(key: string)
      requires Valid()
      modifies this
      ensures inputs == Release(old(inputs), key) && Valid()
    {
      inputs := inputs[key := 0];
    }

    method MouseDown(button: nat)
      requires Valid()
      modifies this
      ensures inputs == Press(old(inputs), MouseKey(button)) && Valid()
    {
      inputs := inputs[MouseKey(button) := 1];
    }

    method MouseUp(button: nat)
      requires Valid()
      modifies this
      ensures inputs == Release(old(inputs), MouseKey(button)) && Valid()
    {
      inputs := inputs[MouseKey(button) := 0];
    }

    function IsActionPressed(action: string): (r: bool)
      reads this
      ensures r <==> GetActionStrength(action) > 0
    {
      ActionPressed(inputMap, inputs, action)
    }

    function GetActionStrength(action: string): (r: int)
      reads this
      ensures Valid() ==> r == 0 || r == 1
      ensures r == ActionStrength(inputMap, inputs, action)
    {
      ActionStrength(inputMap, inputs, action)
    }
  }
}
