# ThreeJS Runner character controller in Dafny

This project models the character controller of a small three.js scene
(`public/script.js`). A skinned character plays an idle or a run animation,
is steered with the W/S/A/D keys, and is kept inside a 100 × 100 square of
ground. The model covers four parts:

- **Key-state table** (`input.dfy`, module `Input`). The `keys` object has the
  entries `w`, `s`, `a` and `d`. The `keydown` and `keyup` handlers lowercase
  `event.key` and write `true` or `false` into an entry the table already has.
- **Animation state** (`animation.dfy`, module `Animation`). The actions are
  `Idle | Run`. An action that has not loaded is `None`. `currentAction` is an
  `Option<Action>`. The module has the guard of `crossFadeTo`, the per-frame
  run/idle policy, and the run playback-rate rule.
- **Locomotion** (`locomotion.dfy`, module `Locomotion`). Each tick moves the
  model by ±`moveSpeed` (0.1) along its forward vector and turns it by
  ±`rotationSpeed` (0.05). Then x and z are clamped into [-50, 50].
- **Run-clip filter** (`tracks.dfy`, module `Tracks`). When the run clip
  loads, tracks whose name ends in `.position` are dropped.

`controller.dfy` (module `Controller`) gathers the program's module-level
variables into a `State` value. It defines one `animate()` tick as the
function `Step`, and proves what a tick, and a run of ticks, does.
`game.dfy` (module `Game`) holds the class `Runner`. It is the same state,
updated in place by the two key handlers, the two loader callbacks and
`Frame`. Each method is proved against the functions above. For example,
`Frame` ends in exactly `Step(old(Snapshot()), forward).next`.

Positions, angles and time scales are exact `real`s. The program uses IEEE
double-precision numbers, so some facts proved here hold there only up to
rounding: the exact cancellation of a `w` and an `s` step in the same tick,
and "ten ticks forward reach z = 1.0".

The forward vector is an input to each tick. It is the vector (0, 0, 1)
rotated by the model's quaternion, computed before the turn. The quaternion
itself is not modelled.

Lowercasing is modelled for the letters A–Z only. In JavaScript's full
Unicode lowercasing, no other character maps to `w`, `s`, `a` or `d`.
So the set of key names that reach the table is the same eight:
`TrackedKeyIff`.

A tick that writes `runAction.timeScale` while `runAction` is unset throws a
`TypeError`. That tick stops before the translation. `requestAnimationFrame`
has already scheduled the next tick, so the loop carries on. The model gives
this as the outcome `TypeError` with the state unchanged (see Findings).

## Model

| member | source | states |
|---|---|---|
| Input.InitialKeys | public/script.js:45 | The table starts with exactly the entries w, s, a, d, all released. |
| Input.LowerChar | public/script.js:92 | An upper-case letter maps to the lower-case letter at the same alphabet position; every other character is unchanged. |
| Input.Lower | public/script.js:92 | `toLowerCase` keeps the length and lowercases each character in place. |
| Input.TrackedKeyIff | public/script.js:92-93 | A key name lowercases to a table entry exactly when it is one of w, W, s, S, a, A, d, D. |
| Input.KeyUpdate | public/script.js:91-103 | A key event keeps the set of entries. It sets the lowercased key's entry (true for keydown, false for keyup) when that entry exists. It changes no other entry. |
| Input.KeyUpdateIgnoresOthers | public/script.js:93-95 | Any key outside the eight leaves the table unchanged. |
| Input.KeyUpdateIdempotent | public/script.js:91-103 | Repeating an event changes nothing more. |
| Input.ApplyEvents | public/script.js:91-103 | A stream of events never adds or removes entries. |
| Input.LastEventWins | public/script.js:91-103 | After any stream of events, each entry holds the kind of the last event that named it. If no event named it, it keeps its old value. |
| Animation.CrossFaded | public/script.js:106-113 | `crossFadeTo(t)` leaves `currentAction` as it was when t or `currentAction` is absent. Otherwise `currentAction` becomes t. |
| Animation.CrossFadeToCurrentIsNoOp | public/script.js:107 | Fading to the current action changes nothing. |
| Animation.CrossFadeIdempotent | public/script.js:106-113 | A second fade to the same target changes nothing more. |
| Animation.SelectAction | public/script.js:139-155 | Moving with run loaded and a current action gives Run. Standing with idle loaded and a current action gives Idle. Otherwise the current action stays. A current action is never cleared or created. |
| Animation.RunTimeScale | public/script.js:145-149 | The run rate is 0.5 exactly when s is held and w is not, and 1.0 in every other moving state. |
| Locomotion.Clamp | public/script.js:174-175 | `Math.max(-50, Math.min(50, v))`, built on the helpers `Locomotion.Min` and `Locomotion.Max`. The clamped value lies in [-50, 50]. It equals the input when the input is inside, 50 above that and -50 below. |
| Locomotion.ClampToWorld | public/script.js:173-175 | After the boundary step, x is `Clamp` of the old x and z is `Clamp` of the old z, both in [-50, 50], and y is unchanged. A position already inside is unchanged. |
| Locomotion.ClampIdempotent | public/script.js:173-175 | Clamping twice is the same as clamping once. |
| Locomotion.Translate | public/script.js:158-165 | w alone adds forward·0.1, s alone adds forward·(-0.1), and both or neither leave the position where it was. |
| Locomotion.Turn | public/script.js:166-171 | a alone adds 0.05 to `rotation.y`, d alone subtracts 0.05, and both or neither leave it. |
| Locomotion.FirstStepInWorld | public/script.js:160-162 | If n forward steps end inside the world, so does the first one. The other n-1 steps then reach the same end point. |
| Tracks.FilterTracks | public/script.js:73-75 | The filter, with `Tracks.EndsWith` standing for `String.prototype.endsWith`. The filtered list is no longer than the clip. It contains exactly the clip's tracks whose name does not end in ".position". |
| Tracks.FilterAppend | public/script.js:73-75 | Filtering distributes over concatenation, so kept tracks stay in their original order. |
| Tracks.FilterSingle | public/script.js:74 | One track is kept exactly when its name does not end in ".position". |
| Tracks.FilterIdempotent | public/script.js:73-75 | Filtering an already filtered list changes nothing. |
| Tracks.FilterLength | public/script.js:73-75 | The filter drops exactly as many tracks as there are position tracks. |
| Controller.InitialConsistent | public/script.js:36-45 | The start state (nothing loaded, keys released) satisfies the controller invariant. |
| Controller.Advance | public/script.js:137-175 | The tick after the throw point keeps the invariant, the key table and the load flags. |
| Controller.Step | public/script.js:130-178 | A tick keeps the invariant. It is skipped exactly when the model is unset. It throws exactly when w or s is held and the run action is unset. A skipped or thrown tick changes nothing. Keys and load flags never change. |
| Controller.StepGuarded | public/script.js:141-149 | The corrected tick keeps the invariant and agrees with `Step` wherever `Step` does not throw. |
| Controller.StepInWorld | public/script.js:173-175 | After every tick with a loaded model, -50 <= x <= 50 and -50 <= z <= 50. |
| Controller.StepSelectsRun | public/script.js:139-144 | With w or s held and both actions loaded, the tick completes and run is current. |
| Controller.StepSelectsIdle | public/script.js:151-155 | With neither w nor s held and idle loaded, the tick completes and idle is current. |
| Controller.StepRunTimeScale | public/script.js:141-149 | While moving, the run rate is 0.5 when only s is held and 1.0 otherwise. Standing still leaves the rate. |
| Controller.StepForwardBackwardCancel | public/script.js:158-165 | With w and s both held the position does not change. |
| Controller.StepForwardOnly | public/script.js:160-162 | With only w held the position becomes the clamp of position + forward·0.1. |
| Controller.StepTurn | public/script.js:166-171 | `rotation.y` changes by +0.05, -0.05 or 0. `position.y` is never clamped. |
| Controller.StepTurnDoesNotMove | public/script.js:158-171 | The forward vector is taken before the turn, so a and d do not change the position in the same tick. |
| Controller.StepBeforeLoadUnchanged | public/script.js:135 | Before the model has loaded a tick changes no state. |
| Controller.StepClampsAtBoundary | public/script.js:174 | From x = 49.95, one tick of w along +x ends at x = 50 exactly. |
| Controller.Frames | public/script.js:130-135 | Any number of ticks keeps the invariant, the keys and all three load flags (model, idle, run). |
| Controller.HoldForward | public/script.js:158-175 | n ticks holding only w move the model by n·0.1·forward when that point is inside the world. `rotation.y` stays. |
| Controller.ForwardFromOrigin | public/script.js:158-162 | Holding w from the origin facing +z puts the model at z = n/10 after n ticks, so at 1.0 after ten. |
| Controller.NeverMovesWithoutRun | public/script.js:141-149 | As written, with the model loaded and the run action unset, any number of ticks with w or s held leave the state unchanged. |
| Controller.StepGuardedMovesWithoutRun | public/script.js:141-149 | The corrected tick moves the model while the run action is unset. It keeps the current action and the run rate. |
| Game.Runner.constructor | public/script.js:36-45 | The initial globals: nothing loaded, no current action, all keys released. |
| Game.Runner.KeyDown | public/script.js:91-96 | The keydown handler updates the table as `KeyUpdate` with true. |
| Game.Runner.KeyUp | public/script.js:98-103 | The keyup handler updates the table as `KeyUpdate` with false. |
| Game.Runner.CrossFadeTo | public/script.js:106-113 | `currentAction` afterwards is `CrossFaded` of its old value and the target. Nothing else changes. A target is passed only when its action exists, so the invariant is kept. |
| Game.Runner.LoadIdle | public/script.js:52-65 | The Idle.fbx callback puts the model at the origin. Idle becomes current exactly when the file has an animation. |
| Game.Runner.LoadRun | public/script.js:68-81 | The Running.fbx callback creates the run action exactly when the file has an animation. The action gets the filtered clip and rate 1.0. |
| Game.Runner.SelectAndRate | public/script.js:137-155 | The policy part of a tick throws exactly when moving without a run action. Otherwise it applies `SelectAction` and `RunTimeScale`. It keeps the invariant. |
| Game.Runner.Locomote | public/script.js:157-175 | The movement part of a tick gives the clamp of `Translate` and the `Turn`. It keeps the invariant. |
| Game.Runner.Frame | public/script.js:130-178 | A tick leaves the object in exactly the state `Step` gives and returns its outcome. It keeps the invariant, so the model stays inside the world. |

## Left out

- Scene, lights, ground, grid, renderer and camera setup, and rendering (`public/script.js:4-33`, `:180`): library setup with no controller state.
- FBX loading: the loader is a foreign asynchronous call. `LoadIdle` and `LoadRun` stand for its success callbacks. Their parameters say whether the file had an animation, the run clip's track names and the model's initial heading. Failure callbacks only log, so they leave the state as it was.
- `Game.Runner.CrossFadeTo`: the `reset`, `crossFadeFrom` and `play` calls and the fade duration are mixer internals. Only the `currentAction` assignment is modelled. The mixer update (`mixer.update(delta)`) and the clock are left out too.
- The camera follow (`updateCamera`, `public/script.js:116-126`): its lerp and `lookAt` are floating-point library maths that write no controller state.
- The quaternion: the forward vector is a parameter of each tick. The link between `rotation.y` and the quaternion is three.js's.
- `requestAnimationFrame` and the resize handler: these belong to the host event loop and UI.
- Floating point: arithmetic is on exact reals. NaN and rounding do not arise.
- Animation tracks are reduced to their names. Clip name and duration are carried over unchanged by the source and are not modelled.
- Input.Lower: models lowercasing of A–Z only. This is enough for which keys reach the table, but it is not the full Unicode mapping for other names.
- Input.LowerChar: lowercases A–Z only; other characters with a lower-case form (such as É) are kept, as for `Input.Lower`.
- `keys[key] !== undefined` is modelled as own-entry membership. An inherited name such as `constructor` would also pass in JavaScript, but no `event.key` value lowercases to one.

## Findings

| source | as written | input that shows it | evidently intended | confidence | as-written member | corrected member |
|---|---|---|---|---|---|---|
| public/script.js:145-149 | `runAction.timeScale` is written whenever w or s is held. The guard at line 142 covers only the fade. | Idle.fbx has loaded; Running.fbx has not loaded yet, failed, or had no animation; w is held. Every tick throws a TypeError before the translation, so the character cannot move. | Write the rate only when `runAction` exists. Movement then goes on without a run animation. | high (not executed) | Controller.NeverMovesWithoutRun (and the client method `Game.SessionWithoutRun`, where a held `W` gives `TypeError` and no movement) | Controller.StepGuardedMovesWithoutRun |

`Game.Runner.Frame` keeps the behaviour as written because it models the
program. `Controller.StepGuarded` is the intended tick. It agrees with
`Controller.Step` wherever `Step` does not throw. So every property proved
about completed ticks holds for it too, and unlike `Step` it also moves the
model before the run clip arrives.
