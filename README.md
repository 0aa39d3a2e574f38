# Tanks demo: round, roster and screen logic

A Dafny model of the sequential logic inside the tanks battle demo built on
Unity's runtime UI toolkit. Two classes are modelled, with the engine treated
as an oracle.

- `GameManager` (module `Managers`, file `game_manager.dfy`) owns the roster of
  tank slots (`m_Tanks`). It numbers the slots when it spawns them. It answers
  whether at most one tank is left and who won. Every frame it derives the
  kills, shots and accuracy shown on the game screen. It enables or disables
  control on every tank. It switches between the main-menu, game and end
  panels. Its Firestorm drops a fixed number of shells at random points. Each
  slot is a value `Tank(active, playerNumber, controlEnabled)`. `active` stands
  for `m_Instance.activeSelf`. The roster is an `array<Tank>` that the methods
  update in place.
- `UIScreenManager` (module `UI`, file `ui_screen_manager.dfy`) is a visual
  element with three visibility flags. Each flag is paired with a screen
  element that is looked up lazily and cached once found. The class invariant
  `Valid()` says that every resolved element displays `Flex` when its flag is
  set and `None` otherwise. Every setter and getter keeps it. The lookup
  `this.Q(name)` is an oracle: each getter receives what the lookup returns,
  which may be `null`.
- `Display` (file `display.dfy`) holds the two display styles and the mapping
  `flag ? Flex : None` used by both classes.

Engine effects whose code is not shown are modelled as follows.
- A freshly instantiated tank is active. The control state it gets from
  `Setup` is an arbitrary value.
- `TankManager.Reset` turns the tank back on. That is what the comment at
  `GameManager.cs:297` says. The model assumes it keeps the player number and
  the control state.
- `EnableControl` and `DisableControl` set `controlEnabled` and nothing else.
- `Random.Range(min, max)` returns some value between its two arguments.
- The shooting counters of player 1 (`m_FireCount`, `m_HitCount`) are
  parameters of `Update`.

The model follows the code, which differs from a plain reading of the game as follows:
- Accuracy is truncated by the `(int)` cast, not rounded.
- Only a fire count of exactly 0 is replaced by 1. This is not `max(1, fireCount)`.
- There is no Firestorm use counter, no cancellation of a Firestorm in flight
  and no guard against starting a round twice.
- "Back to menu" reloads the scene. There is no in-place teardown.

## Model

| member | source | states |
|---|---|---|
| `Managers.ActiveCount` | Assets/Tanks/Scripts/Managers/GameManager.cs:266-274 | the number of tanks left never exceeds the roster size |
| `Managers.NoActiveIffCountZero` | Assets/Tanks/Scripts/Managers/GameManager.cs:285-294 | no tank is left exactly when no slot is active (the draw case) |
| `Managers.AtMostOneActive` | Assets/Tanks/Scripts/Managers/GameManager.cs:262-278 | at most one tank is left exactly when no two distinct slots are both active |
| `Managers.AllActiveCount` | Assets/Tanks/Scripts/Managers/GameManager.cs:297-304 | when every slot is active, all of them are counted as left |
| `Managers.ActiveCountOfSameFlags` | Assets/Tanks/Scripts/Managers/GameManager.cs:272 | the count of tanks left depends only on the slots' active flags |
| `Managers.ControlKeepsTanksLeft` | Assets/Tanks/Scripts/Managers/GameManager.cs:307-322 | enabling or disabling control never changes how many tanks are left |
| `Managers.ResetAllIdempotent` | Assets/Tanks/Scripts/Managers/GameManager.cs:297-304 | resetting the roster twice leaves it as resetting once does |
| `Managers.ResetLeavesAllTanks` | Assets/Tanks/Scripts/Managers/GameManager.cs:297-304 | after a reset every tank is counted as left |
| `Managers.WithControlOverrides` | Assets/Tanks/Scripts/Managers/GameManager.cs:307-322 | after two control sweeps only the last one's setting remains |
| `Managers.TruncatingDiv` | Assets/Tanks/Scripts/Managers/GameManager.cs:70 | the quotient truncates toward zero: its magnitude brackets the dividend's, and its sign is that of dividend times divisor |
| `Managers.Accuracy` | Assets/Tanks/Scripts/Managers/GameManager.cs:64-71 | zero hits give 0; zero shots divide by 1; otherwise the largest percent with percent * shots <= 100 * hits; it lies in 0..100 when hits <= shots |
| `Managers.AccuracyExamples` | Assets/Tanks/Scripts/Managers/GameManager.cs:64-71 | 0 hits of 0 shots gives 0, and 3 hits of 4 shots gives 75 |
| `Managers.RandomRange` | Assets/Tanks/Scripts/Managers/GameManager.cs:167-168 | the random draw lies between its two bounds |
| `Managers.GameManager.constructor` | Assets/Tanks/Scripts/Managers/GameManager.cs:15-19 | the roster as configured; shell range 20 and wave count 10; player 1 and the speed label not yet bound |
| `Managers.GameManager.Start` | Assets/Tanks/Scripts/Managers/GameManager.cs:46-49 | the game opens with only the main menu displayed |
| `Managers.GameManager.BindGameScreen` | Assets/Tanks/Scripts/Managers/GameManager.cs:93 | the speed label is bound exactly when its lookup succeeds |
| `Managers.GameManager.Update` | Assets/Tanks/Scripts/Managers/GameManager.cs:51-72 | does nothing unless the speed label and player 1 are bound and the roster is non-empty; then kills = roster size minus tanks left (so 0..roster size), shots = the raw fire count, accuracy = Accuracy(hits, shots) |
| `Managers.GameManager.Firestorm` | Assets/Tanks/Scripts/Managers/GameManager.cs:161-184 | exactly `m_ShellWaveCount` shells, or none when it is not positive; each at height 20 with x and z within the random range |
| `Managers.GameManager.SpawnAllTanks` | Assets/Tanks/Scripts/Managers/GameManager.cs:196-211 | every slot i becomes an active tank numbered i + 1; player 1 is bound from slot 0, which fails exactly on an empty roster |
| `Managers.GameManager.ResetAllTanks` | Assets/Tanks/Scripts/Managers/GameManager.cs:297-304 | the new roster is ResetAll of the old one: every slot is active again, with its number and control unchanged |
| `Managers.GameManager.EnableTankControl` | Assets/Tanks/Scripts/Managers/GameManager.cs:307-313 | every slot's control is enabled and nothing else in the roster changes |
| `Managers.GameManager.DisableTankControl` | Assets/Tanks/Scripts/Managers/GameManager.cs:316-322 | every slot's control is disabled and nothing else in the roster changes |
| `Managers.GameManager.GoToMainMenu` | Assets/Tanks/Scripts/Managers/GameManager.cs:225-230 | the main menu is the one panel displayed |
| `Managers.GameManager.StartRound` | Assets/Tanks/Scripts/Managers/GameManager.cs:232-249 | on a non-empty roster every slot i ends active, numbered i + 1, with control enabled, and the game panel is the one displayed; on an empty roster it aborts with the panels unchanged |
| `Managers.GameManager.EndRound` | Assets/Tanks/Scripts/Managers/GameManager.cs:251-259 | every tank's control is disabled, the tanks left are unchanged, and the end panel is the one displayed |
| `Managers.GameManager.OneTankLeft` | Assets/Tanks/Scripts/Managers/GameManager.cs:262-278 | true exactly when at most one slot is active, i.e. no two slots are both active |
| `Managers.GameManager.GetRoundWinner` | Assets/Tanks/Scripts/Managers/GameManager.cs:281-295 | the first active slot, or a draw exactly when none is active; with at most one tank left it is the only active slot |
| `UI.UIScreenManager.constructor` | Assets/Tanks/Scripts/UI/UIScreenManager.cs:28-34 | all flags start false and no screen is resolved; the invariant holds |
| `UI.UIScreenManager.InitFromUxml` | Assets/Tanks/Scripts/UI/UIScreenManager.cs:12-25 | each flag takes its attribute's value; with no attributes the menu is shown and game and end are hidden; the invariant is kept |
| `UI.UIScreenManager.SetShowMenuScreen` | Assets/Tanks/Scripts/UI/UIScreenManager.cs:36-49 | the flag becomes the value; an equal value touches nothing; a resolved menu element displays per the new flag; the other screens' displays are untouched; the invariant is kept |
| `UI.UIScreenManager.SetShowGameScreen` | Assets/Tanks/Scripts/UI/UIScreenManager.cs:50-64 | as the menu setter, for the game screen |
| `UI.UIScreenManager.SetShowEndScreen` | Assets/Tanks/Scripts/UI/UIScreenManager.cs:65-79 | as the menu setter, for the end screen |
| `UI.UIScreenManager.GetMenuScreen` | Assets/Tanks/Scripts/UI/UIScreenManager.cs:90-102 | a cached element is returned whatever the lookup would give; otherwise the lookup's answer is cached and returned, synced to the flag when found; a failed lookup leaves the cache empty; the invariant is kept |
| `UI.UIScreenManager.GetGameScreen` | Assets/Tanks/Scripts/UI/UIScreenManager.cs:103-115 | as the menu getter, for the game screen |
| `UI.UIScreenManager.GetEndScreen` | Assets/Tanks/Scripts/UI/UIScreenManager.cs:116-128 | as the menu getter, for the end screen |
| `UI.UIScreenManager.FirstInit` | Assets/Tanks/Scripts/UI/UIScreenManager.cs:130-135 | each screen ends with its cached element or, failing that, its lookup's answer; the invariant is kept |

## Left out

- Engine object creation and destruction (`Instantiate`, `GetComponent`, the tank and shell prefabs): a spawn sets the slot's fields. The exception an unspawned slot's null instance would raise in `OneTankLeft` or `GetRoundWinner` is not modelled.
- Camera control (`SetCameraTargets`, `SetStartPositionAndSize`): camera state is not part of the model.
- `SceneManager.LoadScene(0)` and `Application.Quit()`: host navigation.
- Button handlers, the player `ListView` (`MakeItem`, `BindItem`), player colours and the other label lookups of `BindGameScreen`. The model assumes the kills, shots and accuracy labels are bound whenever the speed label is.
- The speed label: it shows a float movement speed.
- The health bar (`UpdateHealthBar`): float width and ratio, polled every 500 ms.
- Shell rotation and velocity in `Firestorm`: floating-point engine maths. The 0.1 s pacing between shells is also left out; `Firestorm` is a plain loop.
- Managers.Accuracy: an integer idealisation of `(int)((float)hit / (float)fire * 100)`. It computes the exact quotient truncated toward zero. Single-precision rounding is not modelled.
- Managers.RandomRange: states only that the draw lies between the bounds, inclusive. It does not model that Unity's integer `Random.Range` excludes its upper bound.
- Managers.GameManager.ResetAllTanks: the body of `TankManager.Reset` is not part of this model. It is taken to turn the tank on and keep its number and control state. Positions and combat state are not modelled, so `ResetAllIdempotent` covers only the tracked fields.
- Managers.GameManager.SpawnAllTanks: `TankManager.Setup` is not part of this model. The control state of a freshly spawned tank is left arbitrary.
- Label text is the number shown; `ToString` formatting is not modelled.
- UI.UIScreenManager.GetMenuScreen (and the other getters and `FirstInit`): require that the three lookups name different elements. The code relies on this without checking it, and the invariant cannot hold without it.
- UI.UIScreenManager.InitFromUxml: the attribute bag is a map of already-parsed booleans. Parsing UXML attribute strings is framework code.
- The three panels `m_MainMenuScreen`, `m_GameScreen` and `m_EndScreen` are modelled as three separate display fields. This assumes they are three distinct panel renderers. An unset `m_SpawnPoint` throws part-way through `SpawnAllTanks` and leaves a partly spawned roster; the model does not cover that failure.
- The UXML factory and traits plumbing and the `GeometryChangedEvent` registration: framework code. `FirstInit` is modelled as a method the layout event calls.
