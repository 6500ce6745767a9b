/**
 * The key table and the two queries shared by both Inputs iterations. Key and
 * mouse handlers write 1 (down) or 0 (up) under the event's key, or under
 * "mouseButton" followed by the button number; an action is looked up through
 * the input map.
 */
module InputLookup {

  /** Action name to key name (`Record<string, string>`). */
  type InputMap = map<string, string>

  /** Key name to its last written value (`Record<string, number>`). */
  type KeyState = map<string, int>

  const DefaultInputMap: InputMap := map["left" := "q", "right" := "d", "up" := "z", "down" := "s", "attack" := " ", "roll" := "f"]

  const MouseButtonPrefix := "mouseButton"

  function DigitChar(d: nat): (c: char)
    requires d < 10
    ensures '0' <= c <= '9'
  {
    "0123456789"[d]
  }

  /** The decimal spelling of a button number inside a template string. */
  function NatToString(n: nat): (r: string)
    ensures |r| >= 1
    ensures forall i :: 0 <= i < |r| ==> '0' <= r[i] <= '9'
    decreases n
  {
    if n < 10 then [DigitChar(n)] else NatToString(n / 10) + [DigitChar(n % 10)]
  }

  /** `mouseButton${button}`. */
  function MouseKey(button: nat): (r: string)
    ensures |r| > |MouseButtonPrefix| && r[..|MouseButtonPrefix|] == MouseButtonPrefix
  {
    MouseButtonPrefix + NatToString(button)
  }

  /** No mouse button writes under a key of the default map. */
  lemma MouseKeysMissDefaultMap(button: nat, action: string)
    requires action in DefaultInputMap
    ensures MouseKey(button) != DefaultInputMap[action]
  {
  }

  /** Every value the handlers write is 0 or 1. */
  predicate Latched(state: KeyState)
  {
    forall k :: k in state ==> state[k] == 0 || state[k] == 1
  }

  /** A down event on `key`. */
  function Press(state: KeyState, key: string): (r: KeyState)
    ensures key in r && r[key] == 1
    ensures forall k :: k in state && k != key ==> k in r && r[k] == state[k]
    ensures Latched(state) ==> Latched(r)
  {
    state[key := 1]
  }

  /** An up event on `key`. */
  function Release(state: KeyState, key: string): (r: KeyState)
    ensures key in r && r[key] == 0
    ensures forall k :: k in state && k != key ==> k in r && r[k] == state[k]
    ensures Latched(state) ==> Latched(r)
  {
    state[key := 0]
  }

  /**
   * `getActionStrength`: 0 for an unmapped action (or one mapped to the
   * empty string), 0 for a key never written, otherwise the written value.
   */
  function ActionStrength(m: InputMap, state: KeyState, action: string): (r: int)
    ensures (action !in m || m[action] == "" || m[action] !in state) ==> r == 0
    ensures action in m && m[action] != "" && m[action] in state ==> r == state[m[action]]
    ensures Latched(state) ==> r == 0 || r == 1
  {
    if action !in m || m[action] == "" then 0
    else if m[action] in state then state[m[action]]
    else 0
  }

  /**
   * `isActionPressed`: the mapped key holds a positive value. An unwritten
   * key reads `undefined`, and `undefined > 0` is false.
   */
  function ActionPressed(m: InputMap, state: KeyState, action: string): (r: bool)
    ensures r <==> ActionStrength(m, state, action) > 0
  {
    if action in m && m[action] != "" then
      m[action] in state && state[m[action]] > 0
    else false
  }

  /** Pressing an action's key makes it pressed at full strength; releasing it clears it. */
  lemma PressAndReleaseAction(m: InputMap, state: KeyState, action: string)
    requires action in m && m[action] != ""
    ensures ActionPressed(m, Press(state, m[action]), action)
    ensures ActionStrength(m, Press(state, m[action]), action) == 1
    ensures !ActionPressed(m, Release(state, m[action]), action)
    ensures ActionStrength(m, Release(state, m[action]), action) == 0
  {
  }

  /** An event on one key leaves every action mapped to another key as it was. */
  lemma OtherActionsUnaffected(m: InputMap, state: KeyState, key: string, action: string)
    requires action !in m || m[action] != key
    ensures ActionStrength(m, Press(state, key), action) == ActionStrength(m, state, action)
    ensures ActionStrength(m, Release(state, key), action) == ActionStrength(m, state, action)
  {
  }

  /**
   * Under the default map the two directions of an axis have distinct keys,
   * so `right - left` ranges over -1, 0 and 1 and is 0 when both are held.
   */
  lemma DefaultAxisStrength(state: KeyState)
    requires Latched(state)
    ensures var axis := ActionStrength(DefaultInputMap, state, "right") - ActionStrength(DefaultInputMap, state, "left");
            -1 <= axis <= 1
    ensures ActionPressed(DefaultInputMap, Press(Press(state, "q"), "d"), "right")
    ensures ActionStrength(DefaultInputMap, Press(Press(state, "q"), "d"), "right")
            - ActionStrength(DefaultInputMap, Press(Press(state, "q"), "d"), "left") == 0
  {
  }
}
