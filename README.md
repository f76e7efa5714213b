# Lift monkeys: a Dafny model of the game's monkey, controller list, spell input and helpers

This project models the deterministic core of a small Unity game. A lift carries "monkey"
characters between six floors. The player picks a floor by typing a two-key direction
combination, the "spell". Five source files are modelled:

- **`MonkeyObject`** (module `Monkey`). One monkey, which is the player, the manager or a rider.
  It has an optional horizontal target (it is *moving* exactly when a target is set), an
  anger flag, a desired floor, a walking speed and a manager dialogue stage. Each operation
  is a function on the value `MonkeyState`: `Initialized`, `RiderInitialized`, `LeftAngrily`,
  `ArrivedAtFloor`, `Moved`, `ManagerStepped`, `Updated` and `MovingTo`. The class
  `MonkeyObject` has the same fields, and each of its methods updates them step by step. Each
  method's postcondition ties the new `State()` to the matching function of the old state.
  The lemmas about these functions state what the game relies on.
  The monkey calls into the controller: `AwardScore`, `OnMonkeyFinishedMoving`,
  `DestroyMonkey`, `GoToGameOverScreenPhase`, `GoToMonkeyMovementPhase` and the spell's
  `StartFading`. These calls are recorded in the event log `calls`. `MakeNoise` records only
  the clip family it picks from (angry, talking or happy) in `noises`.
- **`GameControl`** (module `Game`). The controller's list of monkeys. It has the lift
  occupancy count (strictly between the two lift bounds), the "any monkey moving" query,
  and `Start`/`SpawnMonkey`, which append one freshly initialised rider.
- **`Spell`** (module `Spells`). Each frame, the pressed direction buttons append their keys
  in the fixed order Up, Down, Left, Right. The buttons also recolour their arrows.
- **`Util`** (module `Util`). This covers `WithX`/`WithY`, the `Key` enum, and the key-sequence
  hash: a left fold with seed 487 and multiplier 31, in C#'s wrapping 32-bit `int`
  arithmetic. It also covers the input test `IsAnyKeyPressed`.
- **`KeyCombination`** (module `Combination`). The immutable floor + two-key value.

Module `Domain` holds the types these files use but do not declare. These are the floor
names, monkey types and game phases, plus the scene `Constants`, which are passed as parameters.

The engine's inputs become parameters:
- `Time.deltaTime` becomes `deltaTime`.
- The random draws become `speedJitter`, `targetDraw` and `floorDraw`.
- The controller's `currentFloor` and `currentPhase` become arguments.
- The frame's button edges become a `Buttons` value, and the manager's key test becomes `anyKeyPressed`.

Floats are read as exact reals. The one `(int)` cast compare in `UpdateMovement` is modelled
as truncation toward zero.

The occupancy test follows the code, which is two-sided: `left < x < right`. No modelled file
has a one-sided variant of it.

## Model

| member | source | states |
|---|---|---|
| `Domain.AllFloorsEnumeratesFloorName` | Assets/Scripts/GameControl.cs:39-40 | the floor list drawn from has six distinct entries and contains every floor, so any index in `[0, 6)` names a valid floor and every floor can be drawn |
| `Util.WithXLaws` | Assets/Scripts/Util.cs:11-12 | `WithX` replaces x only; a second `WithX` overwrites the first; `WithX(v, v.x) == v` |
| `Util.WithYLaws` | Assets/Scripts/Util.cs:8-9 | `WithY` replaces y only; a second `WithY` overwrites the first; `WithY(v, v.y) == v` |
| `Util.Ord` | Assets/Scripts/Util.cs:14-20 | a key's ordinal (its hash code) lies in `[0, 4)` |
| `Util.Wrap32` | Assets/Scripts/Util.cs:24-25 | the unchecked result is a 32-bit int, congruent to the exact value modulo 2^32, and equal to it when the exact value fits |
| `Util.KeySequenceHash` | Assets/Scripts/Util.cs:22-26 | the hash is always a 32-bit int |
| `Util.HashOfEmpty` | Assets/Scripts/Util.cs:24 | the empty key list hashes to the seed 487 |
| `Util.HashSnoc` | Assets/Scripts/Util.cs:24-25 | appending a key folds one step: `hash(l + [k]) == wrap(hash(l) * 31 + ord(k))` |
| `Util.ExactHashBounds` | Assets/Scripts/Util.cs:24-25 | the unbounded fold of `n` keys lies between `487 * 31^n` and the cap for its length |
| `Util.HashFloorFromFive` | Assets/Scripts/Util.cs:24-25 | from five keys on, the smallest exact fold is at least 13,942,396,537, above the largest `int` |
| `Util.HashDoesNotWrap` | Assets/Scripts/Util.cs:24-25 | for at most four keys the 32-bit hash equals the exact fold and stays within `[487, 449847079]` |
| `Util.ExactHashInjective` | Assets/Scripts/Util.cs:24-25 | because ordinals are below 31, equal exact hashes mean equal key lists, of any length |
| `Util.HashInjective` | Assets/Scripts/Util.cs:22-26 | two lists of at most four keys have equal hashes if and only if they are equal |
| `Util.TwoKeyHash` | Assets/Scripts/Util.cs:24-25 | `hash([k1, k2]) == 468007 + 31 * ord(k1) + ord(k2)` |
| `Util.TwoKeyOrderMatters` | Assets/Scripts/Util.cs:24-25 | `[a, b]` and `[b, a]` hash differently when `a != b` |
| `Util.FiveKeysWrap` | Assets/Scripts/Util.cs:24-25 | for every sequence of five or more keys the 32-bit fold differs from the exact one |
| `Util.AnyKeyUsesLeftRelease` | Assets/Scripts/Util.cs:36-38 | pressing Left alone is not "any key pressed", while releasing Left is |
| `Combination.KeyCombination.Keys` | Assets/Scripts/KeyCombination.cs:5-9 | a combination has exactly two keys |
| `Combination.ConstructorStoresArguments` | Assets/Scripts/KeyCombination.cs:11-14 | the constructor keeps floor, first key and second key verbatim and in argument order |
| `Combination.KeysRoundTrip` | Assets/Scripts/KeyCombination.cs:5-14 | a combination is rebuilt from its floor and its key sequence |
| `Combination.CombinationHash` | Assets/Scripts/KeyCombination.cs:6-7 | a combination's key-sequence hash in closed form |
| `Combination.SameHashSameKeys` | Assets/Scripts/KeyCombination.cs:6-7 | combinations with equal key hashes have the same keys in the same order |
| `Monkey.Abs` | Assets/Scripts/MonkeyObject.cs:263 | `Math.Abs`: non-negative, and equal to `x` or `-x` |
| `Monkey.Trunc` | Assets/Scripts/MonkeyObject.cs:270 | the `(int)` cast rounds toward zero: its magnitude is within one below `|x|` and it keeps the sign |
| `Monkey.ItemSpriteByFloor` | Assets/Scripts/MonkeyObject.cs:107-116 | library floors give books and alchemy floors give flasks, in the floor's colour, for all six floors |
| `Monkey.HatSpriteByColour` | Assets/Scripts/MonkeyObject.cs:118-127 | the hat is the floor's colour, so floors of one colour share a hat |
| `Monkey.ItemSpriteInjective` | Assets/Scripts/MonkeyObject.cs:107-116 | the item sprite determines the desired floor |
| `Monkey.StartMovingToMakesMoving` | Assets/Scripts/MonkeyObject.cs:174 | `StartMovingTo(p)` sets the target to `p`, changes nothing else, and so makes `IsMoving` true |
| `Monkey.InitPlayer` | Assets/Scripts/MonkeyObject.cs:80-86 | a player gets speed 8 and targets the player spot; nothing else changes, including the sorting order |
| `Monkey.InitManager` | Assets/Scripts/MonkeyObject.cs:87-91 | a manager targets the manager spot; speed and sorting order stay |
| `Monkey.InitRider` | Assets/Scripts/MonkeyObject.cs:92-130 | a rider takes the given floor (the first floor when none is given), speed `6 + jitter`, the drawn target, the floor's item and hat, and sorting order `(int)(abs(y) * 1000)`, with every other field unchanged; with draws in range it targets the lift span and walks at 5 to 7 |
| `Monkey.InitSortingOrderOnlyForRiders` | Assets/Scripts/MonkeyObject.cs:75-100 | only a rider's initialisation sets the sorting order |
| `Monkey.LeaveAngrilyEffect` | Assets/Scripts/MonkeyObject.cs:134-141 | non-riders are unchanged; a rider becomes angry, makes an angry noise and targets the off-screen position |
| `Monkey.LeaveAngrilyIdempotent` | Assets/Scripts/MonkeyObject.cs:134-141 | leaving angrily twice gives the same state as once, apart from the second noise |
| `Monkey.ArrivalIgnoredByNonRiders` | Assets/Scripts/MonkeyObject.cs:143-145 | a lift arrival does not affect the player or the manager |
| `Monkey.ArrivalAtDesiredFloor` | Assets/Scripts/MonkeyObject.cs:147-158 | on its floor a rider is scored exactly once, with its anger from before the call; it then calms down, targets off-screen and makes a happy noise |
| `Monkey.ArrivalAtOtherFloor` | Assets/Scripts/MonkeyObject.cs:153-158 | on another floor a rider becomes angry and keeps its target; there is no score |
| `Monkey.MoveNear` | Assets/Scripts/MonkeyObject.cs:257-280 | within one step the monkey lands exactly on the target and clears it; the controller is told once; the monkey is destroyed exactly when the truncated target equals the truncated off-screen position, and otherwise a manager makes a noise |
| `Monkey.MoveFar` | Assets/Scripts/MonkeyObject.cs:257-283 | beyond one step the monkey moves exactly one step toward the target: the distance shrinks by the step, it stays on the same side, and nothing else changes |
| `Monkey.DestroyComparesTruncation` | Assets/Scripts/MonkeyObject.cs:270-273 | the compare truncates: with off-screen 0.5, reaching -0.5 destroys the monkey although the floors of the two differ |
| `Monkey.WalkReachesTarget` | Assets/Scripts/MonkeyObject.cs:180-183 | with a positive step, a monkey at most `n + 1` steps away stands exactly on its target with no target left after `n + 1` walking frames |
| `Monkey.ManagerIdleOutsideDialoguePhases` | Assets/Scripts/MonkeyObject.cs:214-215 | outside INTRO and PLAYER_FAILED the manager's dialogue changes nothing |
| `Monkey.ManagerDialogueStep` | Assets/Scripts/MonkeyObject.cs:217-254 | during the dialogue anger equals "player failed"; a key press raises the stage by exactly one, with a noise while the stage stays at most 2; the bubble shows that stage's line; no other field changes, so there is no phase request |
| `Monkey.ManagerDialogueEnd` | Assets/Scripts/MonkeyObject.cs:219-235 | past stage 2 the bubble hides; GAME_OVER_SCREEN is requested once after a failure, otherwise MONKEY_MOVEMENT plus the spell's fading; the manager then walks off, and no other field changes |
| `Monkey.UpdateWhileMovingOnlyWalks` | Assets/Scripts/MonkeyObject.cs:176-199 | while a target is set, `Update` only walks, so the dialogue is not re-run; the only new calls are movement's |
| `Monkey.IntroDialogue` | Assets/Scripts/MonkeyObject.cs:212-254 | from stage 0, a frame without a press shows "TAKE MONKEY TO FLOOR"; because the stage is raised before the text is chosen, three presses then show "LIFT WEIGHT MATTER!", "LIGHT IS THE WAY!!!" and an empty bubble at stage 3 with two talking noises; the next frame requests MONKEY_MOVEMENT and the fade exactly once |
| `Monkey.MonkeyObject.constructor` | Assets/Scripts/MonkeyObject.cs:59-73 | a new monkey has the field initialisers' values at its spawn position |
| `Monkey.MonkeyObject.IsMoving` | Assets/Scripts/MonkeyObject.cs:132 | a monkey is moving exactly when its target field is set |
| `Monkey.MonkeyObject.StartMovingTo` | Assets/Scripts/MonkeyObject.cs:174 | the new state is `MovingTo` of the old one |
| `Monkey.MonkeyObject.MakeNoise` | Assets/Scripts/MonkeyObject.cs:356-374 | one noise is recorded: angry if angry, talking for a calm manager, happy otherwise |
| `Monkey.MonkeyObject.Init` | Assets/Scripts/MonkeyObject.cs:75-100 | the new state is `Initialized` of the old one |
| `Monkey.MonkeyObject.InitRiderMonkey` | Assets/Scripts/MonkeyObject.cs:102-130 | the new state is `RiderInitialized` of the old one |
| `Monkey.MonkeyObject.LeaveAngrily` | Assets/Scripts/MonkeyObject.cs:134-141 | the new state is `LeftAngrily` of the old one |
| `Monkey.MonkeyObject.OnLiftArrivedAtFloor` | Assets/Scripts/MonkeyObject.cs:143-159 | the new state is `ArrivedAtFloor` of the old one |
| `Monkey.MonkeyObject.Update` | Assets/Scripts/MonkeyObject.cs:176-200 | the new state is `Updated` of the old one |
| `Monkey.MonkeyObject.UpdateManager` | Assets/Scripts/MonkeyObject.cs:211-255 | the new state is `ManagerStepped` of the old one |
| `Monkey.MonkeyObject.UpdateMovement` | Assets/Scripts/MonkeyObject.cs:257-283 | the new state is `Moved` of the old one |
| `Game.CountOnLift` | Assets/Scripts/GameControl.cs:13-17 | the count is exactly the number of listed monkeys with `left < x < right`, and lies in `[0, number of monkeys]` |
| `Game.AnyMoving` | Assets/Scripts/GameControl.cs:19 | true if and only if some listed monkey has a target set |
| `Game.CountOnLiftAppend` | Assets/Scripts/GameControl.cs:13-17 | appending a monkey raises the count by one exactly when that monkey is on the lift |
| `Game.BoundsAreExcluded` | Assets/Scripts/GameControl.cs:16 | a monkey exactly on either bound is not on the lift; the midpoint of a non-empty span is |
| `Game.GameControl.constructor` | Assets/Scripts/GameControl.cs:11 | the list starts empty |
| `Game.GameControl.CountMonkeysOnLift` | Assets/Scripts/GameControl.cs:13-17 | the controller's occupancy is the strict two-sided count over its list, between 0 and the list length |
| `Game.GameControl.AreMonkeysMoving` | Assets/Scripts/GameControl.cs:19 | true if and only if a listed monkey is moving |
| `Game.GameControl.Start` | Assets/Scripts/GameControl.cs:28-31 | exactly one fresh monkey is appended and earlier entries and their state are unchanged; the new monkey stands at (off-screen, floor height, 0) and is a rider for floor `AllFloors[floorDraw]` |
| `Game.GameControl.SpawnMonkey` | Assets/Scripts/GameControl.cs:33-42 | exactly one fresh monkey is appended at the end; earlier entries and their state are unchanged; the new monkey stands at (off-screen, floor height, 0) and is a rider for floor `AllFloors[floorDraw]` |
| `Game.StartFromEmpty` | Assets/Scripts/GameControl.cs:28-31 | a controller that starts empty has exactly one monkey after `Start`, a rider for the drawn floor |
| `Spells.PressedKeysExactly` | Assets/Scripts/Spell.cs:22-49 | a frame appends one key per pressed button and no other, in strictly increasing order Up, Down, Left, Right |
| `Spells.StepAppends` | Assets/Scripts/Spell.cs:20-50 | a frame keeps the old keys and appends its pressed keys at the end |
| `Spells.ReleasesKeepKeys` | Assets/Scripts/Spell.cs:26-48 | a frame with releases only leaves the key list unchanged |
| `Spells.ArrowColours` | Assets/Scripts/Spell.cs:22-28 | an arrow is green after a press alone and white after any release, including a press and release in the same frame; otherwise it keeps its colour |
| `Spells.ArrowsAreIndependent` | Assets/Scripts/Spell.cs:22-49 | each arrow's colour depends only on its own button |
| `Spells.RunOnlyGrows` | Assets/Scripts/Spell.cs:17-50 | over any run of frames the list keeps its old keys as a prefix and grows by exactly the number of presses |
| `Spells.NotCappedAtFour` | Assets/Scripts/Spell.cs:17-23 | five frames pressing Up leave five keys, so the list is not capped at four |
| `Spells.Spell.constructor` | Assets/Scripts/Spell.cs:17 | the key list starts empty; the arrows keep the scene's colours (white, green or another scene colour) |
| `Spells.Spell.Update` | Assets/Scripts/Spell.cs:20-50 | the new state is `Step` of the old one: the pressed keys are appended and each arrow is recoloured by its own button |

## Left out

- Rendering is not modelled: the eye, arm, leg and breathing sprites, `UpdateSpritesIdle`/`UpdateSpritesWalking`/`UpdatePlayer`, the `SetActive` calls on the item, hat and eyes objects in `Init`, the anger mark's `SetActive` calls in the sprite updaters, and the monkey's `Start`, which records default sprite offsets and its spawn time for animation. The speech bubble's visibility and text are kept.
- `MakeNoise` does not model the clip choice between two clips, made with `Util.RandomBool`, or pitch, volume or delay, which are random audio. Only the clip family is recorded.
- Random draws are not modelled. `Random.Range` for the rider's speed jitter, the rider's target and the floor index are parameters.
- Game.GameControl.SpawnMonkey: it requires `0 <= floorDraw < 6`, which is the contract of Unity's integer `Random.Range(0, n)`.
- Monkey.InitRider: it states the lift-span and speed bounds only for draws within Unity's float ranges, because the draws are parameters.
- Clock: `Time.deltaTime` is a parameter. `Time.time` and `Util.IsFrameAlternative` feed animation only and are not modelled.
- Monkey.WalkReachesTarget: it is stated for the frames in which `Update` takes its moving branch (`Walk`). It says nothing about a manager's dialogue after arrival.
- Input polling: `Input.GetButtonDown`/`GetButtonUp` are the `Buttons` edges. The manager receives `IsAnyKeyPressed` as a boolean. The source's use of Left's release there is kept as written.
- Unity lifecycle is not modelled: `Awake`, the `Instance` singletons, `GetComponent` and `GameObject.Find`. `Instantiate` is the monkey's constructor, and `Destroy` is the `DestroyMonkey` event.
- The controller members that the monkey calls are not in this revision of `GameControl.cs`. `currentFloor` and `currentPhase` are arguments. `AwardScore`, `OnMonkeyFinishedMoving`, `DestroyMonkey` and the two `GoTo...Phase` calls are log entries, and so is `Spell.StartFading`, which `Spell.cs` does not define. There is no score total, phase machine, lift interpolation, key-table construction or input lockout in the modelled files, so none is modelled.
- The `default:` throws of `Init` and `InitRiderMonkey` are unreachable: monkey types and floors are closed datatypes.
- Revision mismatches are kept, not reconciled. `GameControl.cs:19` calls `isMoving()`, while the monkey defines `IsMoving()`. `GameControl.cs:39-41` draws from an enum `Floor` and calls `Init(desiredFloor)`, while the monkey's `Init` takes a type and an optional `FloorName`. The model reads `Floor` as the six floor names and reads the call as initialising a rider for that floor. The controller and the monkey read differently named configuration fields. `Constants.cs` declares `LiftMaxLeftPosition`, `LiftMaxRightPosition`, `OffScreenPosition` and `FloorHeight`. The monkey reads `liftMaxLeftPosition`, `liftMaxRightPosition`, `offScreenHorizontalPosition`, `standingSpotPlayer` and `standingSpotManager`. The model treats the two lift bounds of each spelling as one value each. It also treats `OffScreenPosition` and `offScreenHorizontalPosition` as one value. The two standing spots come from a `Constants` revision that is not part of this model.
- Enum defaults are assumptions, because the declaring files are not part of this model. The first floor (`LIBRARY_RED`) is taken as `default(FloorName)` and `PLAYER` as the field's default monkey type. The speech bubble starts hidden, and the prefab's sprites and sorting order are `None`.
- `Spell.cs` declares its own `Keys` enum, identical to `Util.Key`. The model uses `Util.Key` for both.
- IEEE float rounding is not modelled; positions and speeds are exact reals.
- Monkey.InitRider: the sorting order `(int)(abs(y) * 1000)` is read without the `int` range limit. In C# the cast of an out-of-range float is unspecified. The model's value is exact only while it fits in an `int`, and it affects only rendering order.
- `CanvasControl.cs`, `OccupancyObject.cs` and `ScorePopupObject.cs` are UI and physics, and are not modelled. `Constants.cs` is configuration only; its values are the `Constants` parameter.
