# A Dafny model of the react-three-fiber 2D game framework

The framework builds a top-down 2D game from game objects. Each game object
holds a bag of named components: sprite, animation player, inputs, collider,
velocity, movable, and per-object scripts. Every component is a React hook
whose `useRef` cells are updated in place by its API calls and by its
per-frame `useFrame` body.

This project models those hooks as Dafny classes:

- The hooks' refs are class fields.
- Each API entry is a method.
- Each `useFrame` body is a `Tick` method.

Every method is proved against a pure specification function over a datatype
snapshot of the fields (`State()`, `Script()`). The properties the code
promises are then proved as lemmas about those functions.

Modules:

- **Shared values:** `Base`, `Host` (textures, physics bodies, position stores).
- **Registries:** `GameObjects`, `Scenes`, `GameEntities`, and `Lifecycle` (mount and unmount).
- **Sprites:** `SpriteSheet` (frame to texture offset), `Sprite`, `LegacySprite`.
- **Frame sequencer:** `AnimationLogic`, which both `AnimationPlayer` and `LegacyAnimationPlayer` run.
- **Input lookup:** `InputLookup`, shared by `Inputs` and `LegacyInputs`.
- **Motion:** `Motion` (speed update arithmetic), `MovableComponent` (the controller that `src/lib/index.ts` exports), `LegacyMovable`, `Velocity`.
- **The demo game:**
  - `SpriteData`: the player's animation table.
  - `PlayerLogic` and `PlayerScript`: the player's move/attack/roll machine and collision handler.
  - `DeathEffect`: the enemy death effect.
  - `Bat`: the bat and its chase latch.

Conventions:

- **End callbacks are tags.** `BackToMove` is the player's `handleAttackEnded`/`handleRollEnded`. `EffectEnded` is the death effect's wrapper. `DisableEnemy(enemy, playerCollider)` is the player's kill callback. The animation player's `Tick` returns the tag it fired, and the owner runs it.
- **Default context values are modelled.** A React context used outside its provider is a `provided == false` object. It throws "Invalid context" or finds nothing, as the code does.
- **Arithmetic is exact.** Times, speeds and offsets are exact reals. `Math.ceil` and `Math.floor` are modelled exactly.
- **Square roots are avoided.** The bat's range test is decided on the squared distance. Normalised directions are method parameters.

Where the code departs from the framework's stated intent, the model follows the code:

- **Button precedence:** in "move", the roll test comes after the attack test, so pressing both starts a roll.
- **The movable in use:** `src/lib/components/Movable.tsx` never raises its speed override. A move therefore decays under friction like a deceleration. With the default friction -0.9, the first periodic update drops the speed to 0.
- **The older controller:** only `src/lib/Movable.tsx` holds a move's speed. It also writes no velocity while idle, and it ends a deceleration only inside a periodic update.

## Model

| member | source | states |
|---|---|---|
| Base.Clamp | src/lib/components/Movable.tsx:115-117 | The result never exceeds max, is at least min when min ≤ max, and is the value itself when it lies between them. |
| Base.Floor | src/lib/components/Movable.tsx:65-68 | `Math.floor`: the greatest integer not above x. |
| Base.Ceil | src/lib/components/Movable.tsx:65-68 | `Math.ceil`: the least integer not below x. |
| AnimationLogic.Resolve | src/lib/components/AnimationPlayer.tsx:78-85 | No current path, or the empty one, does nothing. A path absent from the set faults. A nested group has no frames. Otherwise the path resolves to the stored clip. |
| AnimationLogic.SetAnimation | src/lib/components/AnimationPlayer.tsx:60-69 | The path becomes current. The step is kept only if that path was already current, otherwise it is 0. A callback replaces the stored one only when supplied. The display time is untouched. |
| AnimationLogic.SetAnimationIdempotent | src/lib/components/AnimationPlayer.tsx:60-69 | Repeating `setAnimation(p)` without a callback changes nothing. |
| AnimationLogic.FrameAt | src/lib/components/AnimationPlayer.tsx:106 | `frames[step]` is defined exactly for indices inside the array; past the end it reads undefined. |
| AnimationLogic.Tick | src/lib/components/AnimationPlayer.tsx:77-107 | No path or no frames: nothing changes and no frame is written. A missing path faults. Otherwise the display time grows by delta·1000 and loses 100 ms when it passes 100. A tick that passes 100 ms does one of three things. At the last frame of a looping animation it wraps to step 0, writes no frame and fires nothing. At the last frame of a non-looping animation it holds the step and fires the stored callback. Anywhere else it moves to the next step. A tick that does not pass 100 ms keeps the step and shows the same frame. A fired callback is cleared. The step stays within the frames, and the shown frame is `frames[step]`. |
| AnimationLogic.CallbackFiresAtMostOnce | src/lib/components/AnimationPlayer.tsx:97-100 | Over any number of ticks, a stored callback fires at most once, and none fires when none is stored. |
| AnimationLogic.LoopingNeverFires | src/lib/components/AnimationPlayer.tsx:91-95 | A looping animation never fires its end callback, however many ticks run. |
| AnimationLogic.SingleFrameFiresOnFirstAdvance | src/lib/components/AnimationPlayer.tsx:88-100 | A one-frame, non-looping animation fires its callback on the first tick that advances, holding step 0. |
| AnimationLogic.NonLoopingEndFiresOnce | src/lib/components/AnimationPlayer.tsx:87-106 | A non-looping animation whose ticks each exceed 100 ms fires its callback exactly once within its remaining frames. |
| AnimationPlayer.BuildAnimationFromHframes | src/lib/components/AnimationPlayer.tsx:31-38 | Throws iff to < from (a negative array length). Otherwise there are to−from frames, frame i is (from+i, 1), and the animation does not loop. |
| AnimationPlayer.BuiltFramesAdvanceByOneColumn | src/lib/components/AnimationPlayer.tsx:31-38 | Consecutive built frames are adjacent columns of the same row. |
| AnimationPlayer.AnimationPlayer.constructor | src/lib/components/AnimationPlayer.tsx:52-56 | Starts at the default animation, step 0, no display time, no callback. |
| AnimationPlayer.AnimationPlayer.SetAnimation | src/lib/components/AnimationPlayer.tsx:60-69 | The new refs are exactly `AnimationLogic.SetAnimation` of the old ones. |
| AnimationPlayer.AnimationPlayer.GetAnimation | src/lib/components/AnimationPlayer.tsx:70-72 | Reports the current path. |
| AnimationPlayer.AnimationPlayer.Tick | src/lib/components/AnimationPlayer.tsx:77-107 | The new refs, the fired callback and the frame write equal `AnimationLogic.Tick`. The sprite receives the shown frame and is untouched otherwise. |
| AnimationPlayer.UseAnimationPlayer | src/lib/components/AnimationPlayer.tsx:40-111 | Builds a fresh player over the given sprite and registers it under `name` (default "animationPlayer"), replacing any earlier entry. The owner's position, direction and disabled flag stay as they were. |
| LegacyAnimationPlayer.AnimationPlayer.constructor | src/lib/AnimationPlayer.tsx:29-38 | Same initial refs as the component version; the sprite comes from the options. |
| LegacyAnimationPlayer.AnimationPlayer.SetAnimation | src/lib/AnimationPlayer.tsx:42-51 | Same-path calls keep the step, a new path resets it. The callback is replaced only when one is given. |
| LegacyAnimationPlayer.AnimationPlayer.GetAnimation | src/lib/AnimationPlayer.tsx:52-54 | Reports the current path. |
| LegacyAnimationPlayer.AnimationPlayer.Tick | src/lib/AnimationPlayer.tsx:59-89 | Same sequencer: no-op without path or frames, at most one advance, a loop wraps without a write, a non-looping end fires once. |
| SpriteSheet.Offset | src/lib/components/Sprite.tsx:42-43 | The offset times the sheet size is the frame's cell. It lies in [0,1) for a frame on the sheet. |
| SpriteSheet.OffsetInjective | src/lib/components/Sprite.tsx:42-43 | Distinct frames are shown at distinct offsets. |
| Sprite.Sprite.constructor | src/lib/components/Sprite.tsx:20-27 | Frame defaults to (0,0), hFrames and vFrames to 1. |
| Sprite.Sprite.SetFrame | src/lib/components/Sprite.tsx:30-32 | Replaces the stored frame. |
| Sprite.Sprite.Tick | src/lib/components/Sprite.tsx:37-44 | Writes the stored frame's offset, or nothing when no frame is stored. The write depends only on the stored frame, so repeated ticks write the same offset. |
| Sprite.UseSprite | src/lib/components/Sprite.tsx:20-48 | Builds the sprite and registers it under `name` (default "sprite"). The owner's position, direction and disabled flag stay as they were. |
| LegacySprite.Sprite.constructor | src/lib/Sprite.tsx:19-25 | Same defaults as the component version. |
| LegacySprite.Sprite.SetFrame | src/lib/Sprite.tsx:28-30 | Replaces the stored frame. |
| LegacySprite.Sprite.Tick | src/lib/Sprite.tsx:35-42 | Writes the offset (h/hFrames, v/vFrames), or nothing without a frame. |
| LegacySprite.MountSprite | src/lib/Sprite.tsx:49-54 | The `<Sprite>` component registers the hook's sprite under `name` (default "sprite"). The owner's position, direction and disabled flag stay as they were. |
| GameObjects.GameObject.constructor | src/lib/GameObject.tsx:58-74 | Position defaults to the origin, the direction is the origin, the object is not disabled, and the bag is empty. |
| GameObjects.GameObject.Default | src/lib/GameObject.tsx:29-56 | The default context: empty name and type, and a `provided` flag that is false. |
| GameObjects.GameObject.AddComponent | src/lib/GameObject.tsx:81-83 | Then `getComponent(n)` yields the value. Re-adding overwrites. Other names are untouched. The default context ignores it. |
| GameObjects.GameObject.GetComponent | src/lib/GameObject.tsx:84-86 | Throws exactly in the default context. Otherwise it returns undefined for a name never registered, and the registered value for one that was. |
| GameObjects.GameObject.GetPosition | src/lib/GameObject.tsx:91 | Throws exactly in the default context. |
| GameObjects.GameObject.SetPosition | src/lib/GameObject.tsx:92-94 | Round-trips with `GetPosition`. Nothing else changes. |
| GameObjects.GameObject.GetDirection | src/lib/GameObject.tsx:87 | Throws exactly in the default context. |
| GameObjects.GameObject.SetDirection | src/lib/GameObject.tsx:88-90 | Round-trips with `GetDirection`. Nothing else changes. |
| GameObjects.GameObject.GetDisabled | src/lib/GameObject.tsx:95 | Throws exactly in the default context. |
| GameObjects.GameObject.SetDisabled | src/lib/GameObject.tsx:96 | Round-trips with `GetDisabled`. Nothing else changes. |
| GameObjects.GameObject.ChildrenMounted | src/lib/GameObject.tsx:119 | The children (the components) are rendered exactly while the object is not disabled. |
| Scenes.Scene.constructor | src/lib/Scene.tsx:28-29 | Starts empty. |
| Scenes.Scene.Default | src/lib/Scene.tsx:16-24 | The default context value. |
| Scenes.Scene.AddGameObject | src/lib/Scene.tsx:33-35 | Stores the object under its name, replacing any earlier one. Every other name is unchanged. The default context ignores it. |
| Scenes.Scene.RemoveGameObject | src/lib/Scene.tsx:36-38 | Deletes only that name. Removing an absent name changes nothing. |
| Scenes.Scene.GetGameObject | src/lib/Scene.tsx:39-41 | Throws exactly in the default context. Otherwise it returns the object stored under the name, or undefined. |
| GameEntities.Filter | src/lib/GameEntities.tsx:50-54 | `Array.prototype.filter`: every kept entry is an input entry passing the test, and every passing entry is kept. |
| GameEntities.FilterAppend | src/lib/GameEntities.tsx:50-54 | Filtering preserves the relative order of kept entries (it distributes over concatenation). |
| GameEntities.FilterIdempotent | src/lib/GameEntities.tsx:50-54 | Filtering twice with one test is filtering once, so removing a name twice removes it once. |
| GameEntities.Registry.constructor | src/lib/GameEntities.tsx:35-37 | Starts with an empty list and map. |
| GameEntities.Registry.Default | src/lib/GameEntities.tsx:26-33 | The default context value. |
| GameEntities.Registry.AddEntity | src/lib/GameEntities.tsx:43-46 | Appends to the list (duplicates kept) and indexes by name. Other names are unchanged. Each type's listing grows by the entity exactly when it has that type. |
| GameEntities.Registry.GetEntity | src/lib/GameEntities.tsx:27-49 | The last entity added under the name. When none was added the provider answers undefined, and the default context always answers null; both are `None` here. |
| GameEntities.Registry.RemoveEntity | src/lib/GameEntities.tsx:50-54 | Afterwards no list entry has the name, and the others stay in order. The map is untouched, so `getEntity` still finds the removed entity. |
| GameEntities.Registry.GetEntities | src/lib/GameEntities.tsx:55-57 | Exactly the list entries of the type, in insertion order; empty in the default context. |
| Lifecycle.Mount | src/lib/GameObject.tsx:101-114 | The object is in the scene under its name and appended to the entity registry. Other names are unchanged in the scene and in the entity map. The default registry keeps its list. |
| Lifecycle.Unmount | src/lib/GameObject.tsx:101-105 | The object is removed from the scene and from the entity list by name. Other scene names are unchanged. The entity map keeps it, and the default registry keeps its list. |
| Lifecycle.RerenderEntity | src/lib/GameEntities.tsx:73-82 | A re-render's cleanup and effect move the entity to the end of the list, where it appears exactly once. Other names' entities are unchanged. The default registry keeps its list and map. |
| InputLookup.MouseKey | src/lib/components/Inputs.ts:40-46 | The key is "mouseButton" followed by the button's digits. |
| InputLookup.MouseKeysMissDefaultMap | src/lib/components/Inputs.ts:16-23 | No mouse button writes under a key of the default action map. |
| InputLookup.Press | src/lib/components/Inputs.ts:32-34 | The key reads 1 afterwards. Every other key is unchanged. Values stay in {0,1}. |
| InputLookup.Release | src/lib/components/Inputs.ts:36-38 | The key reads 0 afterwards. Every other key is unchanged. Values stay in {0,1}. |
| InputLookup.ActionStrength | src/lib/components/Inputs.ts:74-85 | 0 for an unmapped action or an unseen key, otherwise the stored value; in {0,1} when every stored value is. |
| InputLookup.ActionPressed | src/lib/components/Inputs.ts:63-73 | Pressed iff the strength is positive. |
| InputLookup.PressAndReleaseAction | src/lib/components/Inputs.ts:32-85 | Pressing an action's key makes it pressed at strength 1; releasing it clears it. |
| InputLookup.OtherActionsUnaffected | src/lib/components/Inputs.ts:32-46 | An event on one key leaves every action mapped elsewhere unchanged. |
| InputLookup.DefaultAxisStrength | src/lib/components/Inputs.ts:16-23 | Under the default map, right−left ranges over −1..1 and is 0 with both held. |
| Inputs.Inputs.constructor | src/lib/components/Inputs.ts:25-29 | An empty key table with the given map (default q/d/z/s/space/f). |
| Inputs.Inputs.KeyDown | src/lib/components/Inputs.ts:32-34 | The table becomes `Press(table, key)`; values stay in {0,1}. |
| Inputs.Inputs.KeyUp | src/lib/components/Inputs.ts:36-38 | The table becomes `Release(table, key)`. |
| Inputs.Inputs.MouseDown | src/lib/components/Inputs.ts:40-42 | Presses the button's key. |
| Inputs.Inputs.MouseUp | src/lib/components/Inputs.ts:44-46 | Releases the button's key. |
| Inputs.Inputs.IsActionPressed | src/lib/components/Inputs.ts:63-73 | Pressed iff the action's strength is positive. |
| Inputs.Inputs.GetActionStrength | src/lib/components/Inputs.ts:74-85 | The lookup's strength, which is 0 or 1. |
| Inputs.UseInputs | src/lib/components/Inputs.ts:25-92 | Registers the inputs under `name` (default "inputs"). The owner's position, direction and disabled flag stay as they were. |
| LegacyInputs.Inputs.constructor | src/lib/Inputs.ts:23-26 | An empty key table with the given map. |
| LegacyInputs.Inputs.KeyDown | src/lib/Inputs.ts:29-31 | Presses the key. |
| LegacyInputs.Inputs.KeyUp | src/lib/Inputs.ts:33-35 | Releases the key. |
| LegacyInputs.Inputs.MouseDown | src/lib/Inputs.ts:37-39 | Presses the button's key. |
| LegacyInputs.Inputs.MouseUp | src/lib/Inputs.ts:41-43 | Releases the button's key. |
| LegacyInputs.Inputs.IsActionPressed | src/lib/Inputs.ts:60-70 | Pressed iff the strength is positive. |
| LegacyInputs.Inputs.GetActionStrength | src/lib/Inputs.ts:71-82 | 0 for unmapped or unseen keys, else the stored value, which is 0 or 1. |
| Motion.UpdatedSpeed | src/lib/components/Movable.tsx:59-68 | A periodic update yields a whole speed, non-negative when maxSpeed is. |
| Motion.UpdatedSpeedAtMostMax | src/lib/components/Movable.tsx:59-68 | With a whole maxSpeed, rounding up after the clamp never exceeds it. |
| Motion.FrictionStops | src/lib/components/Movable.tsx:59-68 | A non-positive friction (the default −0.9) drives any speed to 0 in one update. |
| Motion.AccelerationGains | src/lib/components/Movable.tsx:59-68 | Acceleration above 1 gains at least one unit per update below maxSpeed. |
| Motion.FrictionLoses | src/lib/Movable.tsx:55-64 | Friction in [0,1) loses at least one unit per update from a whole speed ≥ 1. |
| Motion.AccelerationHolds | src/lib/components/Movable.tsx:59-68 | At maxSpeed, acceleration keeps the speed there. |
| Motion.Planar | src/lib/components/Movable.tsx:48-52 | The written velocity has z = 0 and is zero at speed 0. |
| Motion.PlanarMagnitude | src/lib/components/Movable.tsx:48-52 | Its planar length is the speed times the direction's planar length. |
| MovableComponent.Ticked | src/lib/components/Movable.tsx:39-74 | Idle: the accumulator resets and the velocity is zero. Otherwise the velocity uses the speed from before the update. The accumulator gains delta·1000 ms, and an update (past 200 ms without override) takes 200 ms off it and applies the rounded speed update. Decelerate turns Idle whenever the speed is ≤ 0, so it never ends a tick at a non-positive speed. Nothing else changes mode. |
| MovableComponent.TickKeepsBounded | src/lib/components/Movable.tsx:59-68 | Ticks keep the speed within [0, maxSpeed] for a whole maxSpeed. |
| MovableComponent.ChangedState | src/lib/components/Movable.tsx:77-82 | Only a real change resets the accumulator. |
| MovableComponent.AcceleratedTo | src/lib/components/Movable.tsx:84-91 | Sets the direction and Accelerate. The speed restarts at 1 unless the mode was Accelerate or Move. |
| MovableComponent.DeceleratedTo | src/lib/components/Movable.tsx:92-98 | Sets the direction. Idle stays Idle, any other mode decelerates. |
| MovableComponent.MovedTo | src/lib/components/Movable.tsx:99-104 | Move at the given speed, unclamped. |
| MovableComponent.Stopped | src/lib/components/Movable.tsx:105-107 | Idle at once, with the accumulator untouched. |
| MovableComponent.CommandsKeepBounded | src/lib/components/Movable.tsx:84-107 | Accelerate, decelerate and stop keep the speed in bounds. |
| MovableComponent.AccelerationReachesMaxSpeed | src/lib/components/Movable.tsx:54-69 | Accelerating from a whole speed reaches maxSpeed within maxSpeed−speed long ticks and stays there. |
| MovableComponent.DecelerationStopsAtFirstUpdate | src/lib/components/Movable.tsx:54-73 | With non-positive friction, the first update of a deceleration stops it and turns it Idle. |
| MovableComponent.MoveDecaysWithoutOverride | src/lib/components/Movable.tsx:54-69 | With no override, a move's first update drops the speed to 0 while the mode stays Move, so the next velocity is zero. |
| MovableComponent.Movable.constructor | src/lib/components/Movable.tsx:24-36 | Idle, speed 1, direction 0, accumulator 0, no override. |
| MovableComponent.Movable.Tick | src/lib/components/Movable.tsx:39-74 | The new refs and the collider velocity equal `Ticked`. |
| MovableComponent.Movable.ChangeState | src/lib/components/Movable.tsx:77-82 | The new refs equal `ChangedState`. |
| MovableComponent.Movable.AccelerateTo | src/lib/components/Movable.tsx:84-91 | The refs equal `AcceleratedTo`, and the game object's direction is set. |
| MovableComponent.Movable.DecelerateTo | src/lib/components/Movable.tsx:92-98 | The refs equal `DeceleratedTo`, and the game object's direction is set. |
| MovableComponent.Movable.MoveTo | src/lib/components/Movable.tsx:99-104 | The refs equal `MovedTo`, and the game object's direction is set. |
| MovableComponent.Movable.Stop | src/lib/components/Movable.tsx:105-107 | The refs equal `Stopped`. |
| MovableComponent.UseMovable | src/lib/components/Movable.tsx:24-113 | Builds the controller and registers it under `name` (default "movable"). The owner's position, direction and disabled flag stay as they were. |
| LegacyMovable.Ticked | src/lib/Movable.tsx:36-70 | Idle resets the accumulator and writes nothing. Otherwise the velocity is written before the update. The accumulator gains delta·1000 ms, and an update (past 1000/15 ms without override) takes one period off it and applies the rounded speed update. A deceleration whose update leaves the speed ≤ 0 turns Idle, and only such an update ends a deceleration. The override stays consistent with the mode. |
| LegacyMovable.ChangedState | src/lib/Movable.tsx:73-79 | A real change resets the accumulator and sets the override iff the new mode is Move. |
| LegacyMovable.AcceleratedTo | src/lib/Movable.tsx:81-87 | Speed 25 unless already accelerating. A real change of mode restarts the period and drops the override; an ongoing acceleration keeps both. |
| LegacyMovable.DeceleratedTo | src/lib/Movable.tsx:88-93 | Idle stays Idle, and so does a deceleration, with the period and the override kept. Any other mode decelerates, restarting the period with the override dropped. The speed is kept. |
| LegacyMovable.MovedTo | src/lib/Movable.tsx:94-98 | Move at the given speed. A real change of mode restarts the period and raises the override; an ongoing move keeps both. |
| LegacyMovable.Stopped | src/lib/Movable.tsx:99-101 | Idle, with the speed, the direction, the accumulator and the override left as they were. |
| LegacyMovable.CommandsKeepOverrideConsistent | src/lib/Movable.tsx:72-102 | Every command keeps "Move implies override, override implies Move or Idle". |
| LegacyMovable.MoveHoldsSpeed | src/lib/Movable.tsx:50-53 | A move keeps its speed and direction over any number of ticks. |
| LegacyMovable.DecelerationReachesIdle | src/lib/Movable.tsx:50-69 | With friction in [0,1), a deceleration from a whole speed is Idle after speed+1 long ticks. |
| LegacyMovable.IdleStaysIdle | src/lib/Movable.tsx:36-40 | Ticks never wake an idle mover. |
| LegacyMovable.Movable.constructor | src/lib/Movable.tsx:23-34 | Idle at speed 50 with no override. |
| LegacyMovable.Movable.Tick | src/lib/Movable.tsx:36-70 | The refs equal `Ticked`. The velocity store receives its velocity, or is untouched while idle. |
| LegacyMovable.Movable.ChangeState | src/lib/Movable.tsx:73-79 | The refs equal `ChangedState`. |
| LegacyMovable.Movable.AccelerateTo | src/lib/Movable.tsx:81-87 | The refs equal `AcceleratedTo`. |
| LegacyMovable.Movable.DecelerateTo | src/lib/Movable.tsx:88-93 | The refs equal `DeceleratedTo`. |
| LegacyMovable.Movable.MoveTo | src/lib/Movable.tsx:94-98 | The refs equal `MovedTo`. |
| LegacyMovable.Movable.Stop | src/lib/Movable.tsx:99-101 | The refs equal `Stopped`. |
| LegacyMovable.MountMovable | src/lib/Movable.tsx:117-127 | Registers the hook over the velocity store under `name`. The owner's position, direction and disabled flag stay as they were. |
| Velocity.MoveTowards | src/lib/Velocity.tsx:18-28 | z is 0. The velocity is parallel to the direction and points along it for a positive speed (each component times the direction's is the speed times that component squared). Its length is the speed times the direction's planar length. |
| Velocity.Velocity.constructor | src/lib/Velocity.tsx:30-34 | The stored velocity starts at the origin. |
| Velocity.Velocity.SetVelocity | src/lib/Velocity.tsx:36-41 | `getVelocity` then returns the value set. |
| Velocity.Velocity.GetVelocity | src/lib/Velocity.tsx:37 | Returns the stored velocity. |
| Velocity.Velocity.Tick | src/lib/Velocity.tsx:45-51 | The body's velocity becomes the stored x, y, z. |
| Velocity.Velocity.OnBodyPosition | src/lib/Velocity.tsx:53-63 | A reported position reaches the position store only when one is present. |
| SpriteData.Row | src/demo/Player/spriteData.ts:3-138 | A run of `count` consecutive columns on row 0. |
| SpriteData.PlayerAnimationsShape | src/demo/Player/spriteData.ts:140-165 | Every move/idle/attack/roll path in each direction resolves. Runs loop over 6 frames, attacks play 4 frames and rolls 5 once, idles have 1 frame and do not loop. Every frame is on the 60-column sheet. |
| SpriteData.IdleStartsRun | src/demo/Player/spriteData.ts:127-138 | Each idle frame is the first frame of the run in that direction. |
| DeathEffect.EffectAnimations | src/demo/Effects/EnemyDeathEffect.tsx:16-18 | "animate" is 9 non-looping frames (i, 1). |
| DeathEffect.EffectEndsWithinStrip | src/demo/Effects/EnemyDeathEffect.tsx:56-65 | When every frame lasts more than 100 ms, an enabled effect fires its end callback within the strip's remaining frames: all nine when it starts fresh or from another path, fewer once the strip is under way. Re-requesting the same path never restarts it. |
| DeathEffect.FreshEffectEnds | src/demo/Effects/EnemyDeathEffect.tsx:56-65 | A freshly mounted effect, once enabled, fires its end callback within nine frames of more than 100 ms. |
| DeathEffect.EffectEndsWithinStripShortFrames | src/demo/Effects/EnemyDeathEffect.tsx:56-65 | At any frame rate of ten frames a second or more (60 fps included), an enabled effect has fired its end callback once its frames together span more than 100 ms per remaining frame of the strip. This holds from a fresh player too. |
| DeathEffect.EffectStartsAtFirstFrame | src/demo/Effects/EnemyDeathEffect.tsx:58 | The first request of the strip starts at step 0. |
| DeathEffect.EnemyDeathEffect.constructor | src/demo/Effects/EnemyDeathEffect.tsx:35-40 | Disabled, with no callback. |
| DeathEffect.EnemyDeathEffect.Enable | src/demo/Effects/EnemyDeathEffect.tsx:44-47 | Enabled, and the callback is overwritten even when absent. |
| DeathEffect.EnemyDeathEffect.Disable | src/demo/Effects/EnemyDeathEffect.tsx:48-50 | Clears only `enabled`. |
| DeathEffect.EnemyDeathEffect.IsEnabled | src/demo/Effects/EnemyDeathEffect.tsx:51 | Reads the enabled flag. |
| DeathEffect.EnemyDeathEffect.Tick | src/demo/Effects/EnemyDeathEffect.tsx:56-65 | While enabled, requests the strip with the wrapper; while disabled, does nothing. |
| DeathEffect.EnemyDeathEffect.AnimationEnded | src/demo/Effects/EnemyDeathEffect.tsx:58-63 | With a callback stored, the effect turns off and disables the enemy if the player's collider is mounted. Without one, it stays enabled. The enemy's position, direction and components stay. |
| DeathEffect.EnemyDeathEffect.SyncView | src/demo/Effects/EnemyDeathEffect.tsx:92-99 | Visible exactly while enabled, at the enemy's position. |
| DeathEffect.MountEnemyDeathEffect | src/demo/Effects/EnemyDeathEffect.tsx:70-90 | Registers a 10-column sprite and a player under the default names, replacing the enemy's own, then the effect under `name`. The owner's position, direction and disabled flag stay as they were. |
| PlayerLogic.InputVector | src/demo/Player/Player.tsx:113-119 | (right−left, up−down, 0), made of axes when strengths are 0 or 1, and zero on an axis exactly when both directions agree. |
| PlayerLogic.NextDirection | src/demo/Player/Player.tsx:121-150 | A horizontal input wins, keeping the vertical part. A pure vertical input points straight up or down. A zero input keeps the heading. Headings stay non-zero unit axes. |
| PlayerLogic.MoveRequests | src/demo/Player/Player.tsx:127-150 | A positive or negative x runs right or left. Only a purely vertical input runs up or down, and no input shows no run. |
| PlayerLogic.FacingRequests | src/demo/Player/Player.tsx:156-167 | One or two calls for a heading. The last is right/left whenever x ≠ 0, and up/down otherwise. |
| PlayerLogic.RollRequests | src/demo/Player/Player.tsx:214-229 | Exactly one roll animation for any heading. A heading with y > 0 rolls up and one with y < 0 rolls down. A horizontal heading rolls right or left by the sign of x. Each roll returns to "move" when it ends. |
| PlayerLogic.Contains | src/demo/Player/Player.tsx:179 | `String.prototype.includes`: the word occurs at some position of the path. |
| PlayerLogic.Includes | src/demo/Player/Player.tsx:179 | `getAnimation()?.includes(word)`: false when no animation is set. |
| PlayerLogic.ScriptStep | src/demo/Player/Player.tsx:110-234 | Only a "move" tick reads the input and changes the script. An attack or roll tick leaves the script as it is, so only its end callback leaves that mode. It commands the controller exactly until its own animation plays. |
| PlayerLogic.MoveStep | src/demo/Player/Player.tsx:112-177 | Records the input. A non-zero input turns the heading to `NextDirection` and accelerates along it with the run animation. A zero input keeps the heading, decelerates along it and shows its idle animation. Roll beats attack, which beats staying. |
| PlayerLogic.AttackStep | src/demo/Player/Player.tsx:178-202 | Nothing while an "attack" path plays. Otherwise it decelerates along the heading and shows the heading's attack animation, which returns to "move" when it ends. |
| PlayerLogic.RollStep | src/demo/Player/Player.tsx:203-232 | Nothing while a "roll" path plays. Otherwise it moves along the heading at the roll speed and shows the heading's roll animation. |
| PlayerLogic.Ended | src/demo/Player/Player.tsx:185-187 | The attack and roll end callbacks return the script to "move". |
| PlayerLogic.RunOrIdlePathGuards | src/demo/Player/Player.tsx:179-204 | Run and idle paths contain neither "attack" nor "roll". |
| PlayerLogic.AttackPathGuards | src/demo/Player/Player.tsx:179 | Attack paths contain "attack" and not "roll". |
| PlayerLogic.RollPathGuards | src/demo/Player/Player.tsx:204 | Roll paths contain "roll" and not "attack". |
| PlayerLogic.RequestedEnd | src/demo/Player/Player.tsx:189-200 | After a sequence of `setAnimation` calls the last path wins and the display time is kept. The step restarts unless the path was already current. |
| PlayerLogic.StepKeepsHeading | src/demo/Player/Player.tsx:121-150 | `lastDirection` stays a non-zero unit-axis heading. |
| PlayerLogic.RollWinsOverAttack | src/demo/Player/Player.tsx:170-175 | Both buttons pressed in "move" lead to "roll". |
| PlayerLogic.MoveStepIgnoresButtons | src/demo/Player/Player.tsx:112-177 | The attack and roll buttons only choose the next mode. The heading, the command and the animation calls of a move tick do not depend on them. |
| PlayerLogic.MoveStepShowsRunOrIdle | src/demo/Player/Player.tsx:121-167 | A move tick always sets a run or idle animation, so the next attack or roll tick starts its animation. |
| PlayerLogic.AttackStepSettles | src/demo/Player/Player.tsx:178-202 | The first attack tick starts an attack path at step 0 with the end callback; further attack ticks then do nothing. |
| PlayerLogic.RollStepSettles | src/demo/Player/Player.tsx:203-229 | The first roll tick starts a roll path at step 0 with the end callback; further roll ticks then do nothing. |
| PlayerLogic.DiagonalPreferences | src/demo/Player/Player.tsx:189-229 | On a diagonal, the attack shows the horizontal animation and the roll the vertical one. |
| PlayerLogic.AttackEndsOnce | src/demo/Player/Player.tsx:185-200 | After the first attack tick, long enough animation ticks fire the end callback exactly once within 4 frames, returning to "move". |
| PlayerLogic.RollEndsOnce | src/demo/Player/Player.tsx:210-229 | After the first roll tick, long enough animation ticks fire the end callback exactly once within 5 frames. |
| PlayerLogic.AreDirectionsFacing | src/demo/Player/Player.tsx:242-261 | Two directions face each other exactly when their x components, or their y components, have the same strict sign (a positive product). |
| PlayerLogic.FacingProperties | src/demo/Player/Player.tsx:242-261 | Facing is symmetric, false for a zero planar direction, and unchanged by positive scaling or z. A direction faces itself iff it is planar non-zero. |
| PlayerLogic.Towards | src/lib/utils.ts:15-25 | The direction to the target has the signs of the position difference, positive and negative, on both axes. |
| PlayerScript.PlayerScript.constructor | src/demo/Player/Player.tsx:59-71 | Starts in "move", heading (1,0,0), zero input, roll speed 150 by default. |
| PlayerScript.PlayerScript.Input | src/demo/Player/Player.tsx:113-119 | The input read from action strengths is made of axes. |
| PlayerScript.PlayerScript.Tick | src/demo/Player/Player.tsx:110-234 | The refs become `ScriptStep`'s. The animation player gets its calls in order, and the controller and the object's direction get its command. The invariant (heading, latched inputs, no override) is kept. |
| PlayerScript.PlayerScript.MoveTick | src/demo/Player/Player.tsx:112-177 | Effects equal `MoveStep`. |
| PlayerScript.PlayerScript.Travel | src/demo/Player/Player.tsx:121-167 | The heading, the run or idle animation and the controller command equal those of `MoveStep`. The mode and the recorded input stay unchanged, and so do the owner's position, components and disabled flag. |
| PlayerScript.PlayerScript.Steer | src/demo/Player/Player.tsx:121-152 | The heading becomes `NextDirection`, and the run animation is requested. |
| PlayerScript.PlayerScript.AttackTick | src/demo/Player/Player.tsx:178-202 | Effects equal `AttackStep`. |
| PlayerScript.PlayerScript.RollTick | src/demo/Player/Player.tsx:203-232 | Effects equal `RollStep`, with the first matching facing test returning. |
| PlayerScript.PlayerScript.AnimationEnded | src/demo/Player/Player.tsx:185-187 | Runs the end callback. |
| PlayerScript.PlayerScript.ShowFacing | src/demo/Player/Player.tsx:155-167 | The `setAnimation` calls for the heading, in the order up, down, right, left, leave the player as `FacingRequests` of the heading describes. |
| PlayerScript.PlayerScript.AnimationFrame | src/lib/components/AnimationPlayer.tsx:86-106 | The player's animation tick followed by the callback it fired. The sprite shows the frame written and keeps its frame otherwise. |
| PlayerScript.PlayerScript.OnCollide | src/demo/Player/Player.tsx:75-99 | The enemy's death effect is enabled with a kill callback exactly when the other object is an "enemy", the directions face, and the script is attacking. Failed lookups throw, and non-enemies are ignored. |
| PlayerScript.MountPlayer | src/demo/Player/Player.tsx:29-53 | A 60-column sprite, the player table, default inputs, and a movable with maxSpeed 90 are registered in order, plus the script. The owner's position, direction and disabled flag stay as they were. |
| Bat.FlyAnimationShape | src/demo/Enemies/Bat.tsx:27-38 | "fly" is 5 looping frames (i, 0). |
| Bat.BatSpeedUpdates | src/demo/Enemies/Bat.tsx:63 | With acceleration 1.25, friction 0.8 and maxSpeed 60, accelerating gains at least 1 up to 60 and decelerating loses at least 1. |
| Bat.OutOfRangeByDistance | src/demo/Enemies/Bat.tsx:91-92 | The squared test agrees with `distance > detectionRange \|\| distance < 1`. |
| Bat.OutOfRange | src/demo/Enemies/Bat.tsx:92 | Closer than one unit is out of range. A detection range below one unit puts every distance out of range. |
| Bat.Decide | src/demo/Enemies/Bat.tsx:95-100 | Slow down iff out of range and already chasing; otherwise approach. The latch is always set afterwards. |
| Bat.FirstTickApproaches | src/demo/Enemies/Bat.tsx:79-100 | The first tick that finds the player approaches, whatever the distance. |
| Bat.Orders | src/demo/Enemies/Bat.tsx:79-100 | One order per tick, each heading where that tick's player lies. |
| Bat.OrdersFollowRange | src/demo/Enemies/Bat.tsx:79-100 | Over any run, every tick after the first slows down exactly when out of range. |
| Bat.BasicEnemyScript.constructor | src/demo/Enemies/Bat.tsx:74-81 | Not chasing, detection range 1.5 by default. |
| Bat.BasicEnemyScript.Tick | src/demo/Enemies/Bat.tsx:83-101 | No player: no command. An unreadable position throws. Otherwise exactly one command, following `Decide`, and the latch follows too. A command turns the bat towards the player; otherwise its direction stays. |

## Left out

- React itself is not modelled:
  - hook order and cross-component `useFrame` order (ticks are called explicitly);
  - `useMemo` staleness, such as `getDisabled` closing over a stale `disabled` value;
  - window listener registration and its dependency list;
  - rendering of children.
- The physics world is not modelled: use-cannon bodies, collision dispatch, and position mirroring (`src/lib/Collider.tsx`, `src/lib/components/Collider.tsx`). A body is a plain velocity field with a `mounted` flag, and a collision is a method call.
- Camera following (`src/lib/Camera.tsx`), background, texture loading, `src/lib/Position.tsx`, and the demo's scene wiring (`src/demo/Game.tsx`, `src/demo/World/Bush.tsx`, random bat placement) are not modelled. They are three.js calls, square roots, or randomness.
- Normalising a direction needs a square root, so normalised directions are parameters. `PlayerScript.PlayerScript.OnCollide` uses the unnormalised difference, which has the same signs.
- Floating point is not modelled: reals are exact, with no IEEE rounding of `delta·1000` or speed products.
- A nested animation set is flattened to its dot paths. lodash `get` on deeper paths (into an animation's own fields) is not modelled.
- Vector aliasing is not modelled: Movable keeps the caller's `Vector3`, and the player mutates `lastDirection` in place. Directions are values. This is equivalent here, because the player issues a fresh command whenever it changes `lastDirection`.
- The component bag holds untyped objects, and Dafny cannot narrow them. Siblings are therefore passed as typed references, and the bag records only what is registered under which name.
- PlayerScript.PlayerScript.OnCollide: the enemy's "enemyDeathEffect" component is passed in as a typed reference, because it cannot be narrowed from the bag.
- AnimationLogic.Tick: a fired callback is cleared in the same tick and run by its owner afterwards, whereas the source runs it and then clears the ref. A callback that set a new callback from inside itself would keep it here but lose it in the source. No callback in this program calls `setAnimation`, so the orders agree for every callback modelled.
- AnimationPlayer.UseAnimationPlayer: its "Invalid sprite" throw is not modelled. `getComponent` yields undefined, never null, so that throw cannot happen. The sprite is passed in.
- The `<Bat>` composition is not modelled. Its `<Velocity />` is imported from `src/lib/index.ts`, which does not export it. Only the bat's animation table, movement parameters and script are modelled.
- Bat.BasicEnemyScript.Tick: the normalised direction from the bat to the player is a parameter, because normalising needs a square root. The distance test is decided exactly, on the squared distance.
- PlayerScript.MountPlayer: the collider and camera-follow children are not modelled.
- PlayerScript.PlayerScript.Tick: its guarantees need the class invariant (a heading, latched inputs, and a movable without override on the same game object), which the constructor establishes and every method keeps.
