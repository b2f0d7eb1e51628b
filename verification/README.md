# Starfield generator: a verified model of the frame and recording logic

The starfield generator is an Angular page that flies a camera into a galaxy image while stars
stream past. It also records the canvas to a video file. It has two renderers over the same idea:

- **The simulator component** (`Simulator`). It reads its five parameters from the shared
  `SimulationService` store. It animates 1000 flickering ambient stars and a pool of 10 shooting
  stars, each with a trail of at most 8 points. Recording starts and stops through the store's
  recording state, which the control panel toggles.
- **The application shell** (`App`). It reads five globals on `window`. It animates 500 streaking
  and 1000 non-streaking stars, loads two images with a counter, and drives its own record button.

The model has one Dafny module per source unit:

| module | models |
|---|---|
| `SimulationModel` | the value types: recording state, control key, control metadata, and the draw calls a frame makes |
| `SimulationConstants` | the CONTROLS metadata table |
| `SimulationServiceModule` | the store, as a class whose fields are the signal cells |
| `ControlPanelComponent` | the control panel: the recording toggle, the button text and classes, forwarding to the store |
| `ShootingStarModel`, `AmbientStarModel` | the simulator's two particle kinds |
| `SimulatorComponent` | the simulator: camera sawtooth, spawn scheduler, batched build, recording controller |
| `WindowGlobalsModule` | the five `window` globals and their slider handlers |
| `AppStarModel` | the shell's `Star` class |
| `AppComponent` | the shell: camera, batched build, asset counter, record button, recorder callbacks, star loop |
| `Strings` | `includes` and the decimal text of a whole number |

Every object the source updates in place is a Dafny `class`, with `modifies` clauses on its
methods. These are the store, the components, each star and the `window` globals. Each star class
also has a pure snapshot of its fields (`State()`), and its methods' postconditions tie the new
snapshot to a pure step function applied to the old one (`Step`, `Advance`, `StarStep`). The
component methods state their new fields directly, through the pure functions `ScaleStep` and
`Schedule` where the source computes a new camera scale or spawns a star. The lemmas then prove
what the page relies on about those functions:

- stars stay inside the field over any number of frames
- trails stay bounded and ordered by depth
- the zoom sawtooth stays within its bounds and has a known period
- the scheduler spawns at most one star per frame, and only the first inactive one
- the progress text reaches 100 % exactly at the end
- the download extension follows the MIME type that was chosen
- a frame draws exactly the non-streaking stars, in index order

The source's inputs from outside are parameters of the model:

- `Math.random()` answers are `Unit` values in [0, 1).
- `Math.sin(...)` values are `Wave` values in [-1, 1].
- `Date.now()` is an integer.
- Browser feature answers (`isTypeSupported`, `captureStream`, whether an element or a 2D context
  exists, whether set-up throws) are booleans.

Some details of the code that the model keeps as written:

- The simulator scales a shooting star's head sprite by 6 and its trail sprites by 4.
- A star's depth can be reset to exactly 0 (when `Math.random()` returns 0).
- The parameter key is `ambientStarSpeed`, as the CONTROLS table and the store have it, although
  the `ControlKey` type still lists `nonStreakingStarSpeed`.

## Model

| member | source | states |
|---|---|---|
| `SimulationConstants.Metadata` | src/app/constants/simulation.constant.ts:3-44 | every key has a table entry; every entry's initial value lies within its bounds, with min < max and a positive step; the precision is 4 exactly for the two rate keys and 1 for the others |
| `SimulationConstants.ControlTableShape` | src/app/constants/simulation.constant.ts:3-44 | the table holds exactly the five keys |
| `SimulationConstants.ControlNamesListEachKeyOnce` | src/app/components/control-panel/control-panel.ts:15-16 | the control panel's key list has five entries, names every key and repeats none |
| `SimulationServiceModule.SimulationService.constructor` | src/app/services/simulation.service.ts:10-20 | every cell starts at its table's initial value; recording is idle; the progress text is "Initializing..." |
| `SimulationServiceModule.SimulationService.GetControlValue` | src/app/services/simulation.service.ts:22-24 | returns the current value of the key's cell and changes nothing |
| `SimulationServiceModule.SimulationService.UpdateControl` | src/app/services/simulation.service.ts:30-32 | the key's cell takes the value unclamped; every other cell, the recording state and the progress text are kept |
| `SimulationServiceModule.ReadTwice` | src/app/services/simulation.service.ts:22-24 | two reads with no update in between agree with each other and with the cell |
| `ControlPanelComponent.ToggledState` | src/app/components/control-panel/control-panel.ts:29-36 | the toggle yields processing exactly when it started from processing |
| `ControlPanelComponent.ToggleTwiceReturns` | src/app/components/control-panel/control-panel.ts:29-36 | from idle or recording, one toggle changes the state and a second toggle restores it |
| `ControlPanelComponent.ToggleFixedPoint` | src/app/components/control-panel/control-panel.ts:29-36 | processing is the only state the toggle leaves unchanged |
| `ControlPanelComponent.ButtonTextDistinct` | src/app/components/control-panel/control-panel.ts:38-43 | the three states show three different labels |
| `ControlPanelComponent.ButtonClassNotAllowedOnlyWhenProcessing` | src/app/components/control-panel/control-panel.ts:45-50 | the button is styled not-allowed exactly in the processing state |
| `ControlPanelComponent.ControlPanel.constructor` | src/app/components/control-panel/control-panel.ts:18 | the panel is bound to the store it is given |
| `ControlPanelComponent.ControlPanel.UpdateControl` | src/app/components/control-panel/control-panel.ts:20-23 | the parsed value reaches the store's cell for the key; other cells, the recording state and the progress text are kept |
| `ControlPanelComponent.ControlPanel.GetControl` | src/app/components/control-panel/control-panel.ts:25-27 | returns the store's current value for the key |
| `ControlPanelComponent.ControlPanel.ToggleRecording` | src/app/components/control-panel/control-panel.ts:29-36 | the recording state becomes its toggled value; no parameter and no progress text changes |
| `ShootingStarModel.Spawned` | src/app/components/simulator/simulator.ts:329-337 | a spawned star is active, has an empty trail, and starts at a depth in [0.8 w, w) within ±15 % of the centre; it is coherent and depth-ordered |
| `ShootingStarModel.FarDepth` | src/app/components/simulator/simulator.ts:333 | the spawn depth lies in the far fifth of the range |
| `ShootingStarModel.PushTrail` | src/app/components/simulator/simulator.ts:343-346 | the new point comes first, the older points shift back by one, and the length grows by one up to TRAIL_LENGTH |
| `ShootingStarModel.Advance` | src/app/components/simulator/simulator.ts:339-358 | an inactive star is left as it is; an active one records its position, moves nearer by 7 times the speed, and is switched off with its trail cleared exactly when its depth is at most 10; coherence is preserved |
| `ShootingStarModel.CoherentForever` | src/app/components/simulator/simulator.ts:339-358 | over any sequence of frames at any speeds a star stays coherent, so its trail never exceeds 8 points |
| `ShootingStarModel.AdvanceKeepsDepthOrder` | src/app/components/simulator/simulator.ts:339-358 | at a positive speed, one update keeps the head nearer than its trail and the trail ordered by depth |
| `ShootingStarModel.DepthOrderedForever` | src/app/components/simulator/simulator.ts:339-358 | the depth order holds over any sequence of frames at positive speeds |
| `ShootingStarModel.TrailOpacity` | src/app/components/simulator/simulator.ts:378 | every trail segment's alpha is in (0, 0.6] |
| `ShootingStarModel.TrailOpacityDecreasing` | src/app/components/simulator/simulator.ts:378 | older trail segments are strictly dimmer |
| `ShootingStarModel.Light` | src/app/components/simulator/simulator.ts:381-392 | one light yields at most one draw call, carrying the given alpha |
| `ShootingStarModel.TrailOps` | src/app/components/simulator/simulator.ts:370-393 | the trail yields at most one draw per segment, each with alpha in (0, 0.6] |
| `ShootingStarModel.ShootingDraw` | src/app/components/simulator/simulator.ts:360-418 | an inactive star draws nothing; an active one makes at most 9 draw calls, each with alpha in (0, 1] |
| `ShootingStarModel.ShootingStar.constructor` | src/app/components/simulator/simulator.ts:320-327 | a new shooting star is inactive with an empty trail |
| `ShootingStarModel.ShootingStar.Spawn` | src/app/components/simulator/simulator.ts:329-337 | the new state is the spawned state for the three random answers, and the star stays valid |
| `ShootingStarModel.ShootingStar.Update` | src/app/components/simulator/simulator.ts:339-358 | the new state is `Advance` of the old one at the store's current shooting-star speed, and the star stays valid |
| `AmbientStarModel.Resampled` | src/app/components/simulator/simulator.ts:269-274 | a reset puts the star inside the field, with its starting depth equal to its depth, and keeps its flicker |
| `AmbientStarModel.FlickerOffset` | src/app/components/simulator/simulator.ts:280 | the flicker brightness lies in [0, 1] |
| `AmbientStarModel.Step` | src/app/components/simulator/simulator.ts:276-281 | the star moves nearer by the speed; it is reset exactly when that leaves its depth at or below 0; either way it takes the new flicker and keeps its flicker rate |
| `AmbientStarModel.StepKeepsInField` | src/app/components/simulator/simulator.ts:276-281 | one update keeps a star in the field; at a non-negative speed it stays no farther than its starting depth |
| `AmbientStarModel.InFieldForever` | src/app/components/simulator/simulator.ts:276-281 | the same holds over any sequence of frames |
| `AmbientStarModel.Created` | src/app/components/simulator/simulator.ts:259-267 | a new star is the reset of its samples, inside the field with its starting depth equal to its depth, with flicker brightness in [0.5, 1) and flicker rate in [0.01, 0.06) |
| `AmbientStarModel.AmbientAlpha` | src/app/components/simulator/simulator.ts:291 | the draw alpha never exceeds 1; it is the parallax-times-flicker value whenever that value is below 1, and 1 otherwise |
| `AmbientStarModel.AmbientDraw` | src/app/components/simulator/simulator.ts:283-308 | a star makes one draw call when its radius exceeds 0.1 and none otherwise, with alpha at most 1 |
| `AmbientStarModel.AmbientStar.constructor` | src/app/components/simulator/simulator.ts:259-267 | the new star's state is `Created` from its samples, so it is in the field |
| `AmbientStarModel.AmbientStar.Reset` | src/app/components/simulator/simulator.ts:269-274 | the new state is the resampled state, inside the field |
| `AmbientStarModel.AmbientStar.Update` | src/app/components/simulator/simulator.ts:276-281 | the new state is `Step` of the old one at the store's current ambient speed, and the star stays in the field |
| `SimulatorComponent.ScaleStep` | src/app/components/simulator/simulator.ts:163-167 | below the target the scale grows by the zoom rate; at or above it the scale is reset to 1.0; the range [1, 2.5 + rate) is kept |
| `SimulatorComponent.ScaleRamp` | src/app/components/simulator/simulator.ts:163-167 | from 1.0 the scale climbs linearly while the previous frame was below the target |
| `SimulatorComponent.SawtoothPeriod` | src/app/components/simulator/simulator.ts:163-167 | at rate 0.0004 the scale is exactly 2.5 after 3750 frames and 1.0 after 3751 |
| `SimulatorComponent.ScaleBounded` | src/app/components/simulator/simulator.ts:163-167 | at a non-negative rate the scale stays in [1.0, 2.5 + rate) forever |
| `SimulatorComponent.FirstInactive` | src/app/components/simulator/simulator.ts:174-179 | the index found is inactive and every earlier star is active; it is the pool size when every star is active |
| `SimulatorComponent.ScheduleSpawnsAtMostOne` | src/app/components/simulator/simulator.ts:170-181 | at most one star changes; that star was the first inactive one and is now freshly spawned; the timestamp moves exactly when a star spawns; a full pool or an early frame changes nothing; coherence is kept |
| `SimulatorComponent.ScheduleSpawnsAt` | src/app/components/simulator/simulator.ts:170-181 | when a spawn is due, the scheduler spawns the first inactive star and stamps the time |
| `SimulatorComponent.ScheduleWithFullPool` | src/app/components/simulator/simulator.ts:174-180 | with every star active the scheduler changes nothing |
| `SimulatorComponent.ProgressCompleteOnlyAtEnd` | src/app/components/simulator/simulator.ts:102-103 | the percentage is at most 100, is 100 exactly when every ambient star exists, and each batch of 50 adds exactly 5 |
| `SimulatorComponent.ProgressTextAtEnd` | src/app/components/simulator/simulator.ts:102-103 | the last text reads "Generating Stars: 100%" |
| `SimulatorComponent.DownloadNameFollowsSupport` | src/app/components/simulator/simulator.ts:216-227 | the chosen MIME type mentions mp4 exactly when one of the two mp4 types is supported, and the file name's extension follows it |
| `SimulatorComponent.SpawnedPool` | src/app/components/simulator/simulator.ts:174-179 | spawning one star of a pool of distinct stars changes only that star's state |
| `SimulatorComponent.Simulator.constructor` | src/app/components/simulator/simulator.ts:30-48 | the component starts with empty pools, scale 1.0, rotation 0, no recorder and no context |
| `SimulatorComponent.Simulator.Init` | src/app/components/simulator/simulator.ts:67-79 | keeps whether a 2D context exists and shows "Initializing..." |
| `SimulatorComponent.Simulator.StartImageLoading` | src/app/components/simulator/simulator.ts:118-128 | the progress text becomes "Loading Assets..." |
| `SimulatorComponent.Simulator.FinalizeSetup` | src/app/components/simulator/simulator.ts:130-135 | the text becomes "Ready" and the spawn clock starts now |
| `SimulatorComponent.Simulator.StepCamera` | src/app/components/simulator/simulator.ts:162-167 | the rotation grows by the rotation rate and the scale takes `ScaleStep` |
| `SimulatorComponent.Simulator.SpawnAt` | src/app/components/simulator/simulator.ts:174-179 | the pool's states change only at the index, which becomes freshly spawned |
| `SimulatorComponent.Simulator.SpawnShootingStars` | src/app/components/simulator/simulator.ts:170-181 | the pool and the timestamp are what `Schedule` says; the ambient stars are untouched |
| `SimulatorComponent.Simulator.UpdateAmbientStars` | src/app/components/simulator/simulator.ts:197-200 | every ambient star takes `Step` with its own inputs; shooting stars are untouched |
| `SimulatorComponent.Simulator.UpdateShootingStars` | src/app/components/simulator/simulator.ts:203-206 | every shooting star takes `Advance`; ambient stars are untouched |
| `SimulatorComponent.Simulator.Animate` | src/app/components/simulator/simulator.ts:158-209 | without a context nothing changes; otherwise camera step, schedule, then every ambient star steps and every shooting star advances from its scheduled state |
| `SimulatorComponent.Simulator.GenerateBatch` | src/app/components/simulator/simulator.ts:95-114 | adds up to 50 new ambient stars, capped at 1000, after the existing ones, the one at position k created from seed k; the progress text shows the percentage; the last batch also appends 10 dormant shooting stars |
| `SimulatorComponent.Simulator.AddAmbientStar` | src/app/components/simulator/simulator.ts:98 | appends one new ambient star whose state is `Created` from its seed, keeping the existing ones |
| `SimulatorComponent.Simulator.AddShootingPool` | src/app/components/simulator/simulator.ts:109-111 | appends 10 new dormant shooting stars, keeping the existing ones |
| `SimulatorComponent.Simulator.LoadStarsAsync` | src/app/components/simulator/simulator.ts:91-116 | 20 batches add exactly 1000 ambient stars after the existing ones, the one at new position k fresh and `Created` from seed k, and then 10 dormant shooting stars; the last text this method sets is "Generating Stars: 100%" |
| `SimulatorComponent.Simulator.StartRecording` | src/app/components/simulator/simulator.ts:211-240 | chunks are cleared; on success the recorder runs with the preferred MIME type; when set-up throws, the store's state returns to idle |
| `SimulatorComponent.Simulator.OnRecordingStateChange` | src/app/components/simulator/simulator.ts:51-58 | a request to record with no recorder starts one; idle with a running recorder stops it; any other combination changes nothing |
| `SimulatorComponent.Simulator.OnDataAvailable` | src/app/components/simulator/simulator.ts:221 | non-empty chunks are appended in order; empty ones are dropped |
| `SimulatorComponent.Simulator.StopRecording` | src/app/components/simulator/simulator.ts:242-247 | only a running recorder is asked to stop |
| `SimulatorComponent.Simulator.OnStop` | src/app/components/simulator/simulator.ts:222-232 | one file is saved under the name the MIME type picks; the state returns to idle and the recorder is released |
| `WindowGlobalsModule.PrecisionFollowsName` | src/app/app.ts:236-240 | a slider shows 4 decimals exactly for the two rate globals and 1 otherwise, matching the store table's precision for the counterpart key |
| `WindowGlobalsModule.RateNameHasRate` | src/app/app.ts:236 | the names of the two rate globals include "RATE" |
| `WindowGlobalsModule.OtherNameLacksRate` | src/app/app.ts:236 | no other global's name includes "RATE" |
| `WindowGlobalsModule.NoRateWithoutRA` | src/app/app.ts:236 | a name in which no R is followed by A does not include "RATE" |
| `WindowGlobalsModule.WindowGlobals.constructor` | src/app/app.ts:27-32 | the globals start at 0.0009, 0.0003, 1, 1 and 35 |
| `WindowGlobalsModule.WindowGlobals.Set` | src/app/app.ts:233-235 | a slider's handler replaces one global with the parsed value and keeps the others |
| `AppStarModel.Redrawn` | src/app/app.ts:454-460 | a reset puts the star inside the canvas, at a depth in [0, w) that becomes its starting depth, with a colour alpha in [0.5, 1); the flicker is kept |
| `AppStarModel.Created` | src/app/app.ts:448-452 | a new star is in the field, with flicker brightness in [0.5, 1) and flicker rate in [0.01, 0.06) |
| `AppStarModel.StarStep` | src/app/app.ts:462-476 | the star moves nearer by its kind's speed, keeping its position and colour; exactly when its depth reaches 0 or below it is instead `Redrawn` from the sample; only a non-streaking star takes the new flicker; the flicker rate is kept |
| `AppStarModel.StarStepKeepsInField` | src/app/app.ts:462-476 | one update keeps a star in the field, whatever the speed globals hold |
| `AppStarModel.StarStaysInFieldForever` | src/app/app.ts:462-476 | over any sequence of frames a star stays in the field and keeps its flicker rate; a streaking star never changes its flicker |
| `AppStarModel.StarRadius` | src/app/app.ts:491-495 | the drawn radius is never below 1.5 |
| `AppStarModel.StarAlphaBounded` | src/app/app.ts:496 | the drawn alpha lies between 0.3 times the flicker and the flicker, hence in [0, 1] |
| `AppStarModel.StarDraw` | src/app/app.ts:478-511 | a streaking star draws nothing; a non-streaking one draws exactly one glowing circle of radius at least 1.5, with the star's alpha and a zoom-compensated blur |
| `AppStarModel.Star.constructor` | src/app/app.ts:448-452 | a new star is created from its samples and is in the field |
| `AppStarModel.Star.Reset` | src/app/app.ts:454-460 | the new state is the redrawn state |
| `AppStarModel.Star.Update` | src/app/app.ts:462-476 | the new state is `StarStep` of the old one at the current speed globals, and the star stays in the field |
| `AppComponent.ScaleStep` | src/app/app.ts:392-398 | the scale is always below 8 after a frame; it grows by the zoom rate while that stays below 8, and otherwise shows 1.0 in the same frame |
| `AppComponent.ScaleRamp` | src/app/app.ts:392-398 | from 1.0 the scale climbs linearly while the climb stays below 8 |
| `AppComponent.ScaleBounded` | src/app/app.ts:392-398 | at a non-negative rate the scale stays in [1.0, 8) forever |
| `AppComponent.SawtoothPeriod` | src/app/app.ts:392-398 | at the default rate 0.0009 the scale is 7.9993 after 7777 frames and 1.0 after 7778 |
| `AppComponent.ProgressCompleteOnlyAtEnd` | src/app/app.ts:139-140 | the percentage is at most 100 and is 100 exactly when all 1500 stars exist |
| `AppComponent.ProgressTextAtEnd` | src/app/app.ts:139-140 | the last text reads "Generating Stars: 100%" |
| `AppComponent.AssetTextCounts` | src/app/app.ts:162-166 | the asset text reports "1/2" or "2/2", the number of assets settled so far |
| `AppComponent.ButtonLooksDistinct` | src/app/app.ts:269-307 | the four button looks have four different labels, and the button is enabled exactly in the idle and recording looks |
| `AppComponent.DownloadNameFollowsSupport` | src/app/app.ts:314-351 | the chosen MIME type mentions mp4 exactly when mp4 is supported; the file name's extension follows it, and every fallback gives ".webm" |
| `AppComponent.DrawnIndicesStep` | src/app/app.ts:426-433 | one more star adds its index to the drawn list exactly when it is not streaking |
| `AppComponent.DrawnExactlyNonStreaking` | src/app/app.ts:426-433 | a frame draws exactly the non-streaking stars below the bound, each once, in increasing index order |
| `AppComponent.App.constructor` | src/app/app.ts:53-74 | the shell starts with no elements, an empty pool, scale 1.0, rotation 0, no recording, and the button markup untouched |
| `AppComponent.App.Init` | src/app/app.ts:82-109 | records which elements exist; without the canvas or the wrapper it changes nothing else; otherwise it keeps the context answer, sizes the canvas and shows "Initializing..." when the overlay is there |
| `AppComponent.App.SetupCanvasDimensions` | src/app/app.ts:111-122 | with wrapper and canvas, the size is the wrapper's and the centre is half of it; otherwise nothing changes |
| `AppComponent.App.GenerateBatch` | src/app/app.ts:128-148 | adds up to 50 stars, capped at 1500, after the existing ones; the star at index k is streaking exactly when k < 500 and is created from seed k; the text shows the percentage |
| `AppComponent.App.AddStar` | src/app/app.ts:132-133 | appends one new star of the given kind, made from its seed, keeping the existing ones |
| `AppComponent.App.LoadStarsAsync` | src/app/app.ts:124-151 | the pool is filled to 1500 stars after the existing ones, in 30 batches from empty; each new star at index k is fresh and created from seed k, streaking exactly when k < 500; the last text this method sets is "Generating Stars: 100%" |
| `AppComponent.App.StartImageLoading` | src/app/app.ts:153-160 | the counter starts at 0, the sprite is requested, and the text becomes "Loading Assets..." |
| `AppComponent.App.OnAsset` | src/app/app.ts:162-188 | the counter goes up by one; a failed sprite is dropped; the text names the asset and the count; finalize runs exactly when the second asset settles |
| `AppComponent.App.LoadAssets` | src/app/app.ts:153-190 | with one event per image, in either order, finalize runs exactly once, the sprite survives only if it loaded, and the text ends at "2/2" |
| `AppComponent.App.FinalizeSetup` | src/app/app.ts:192-209 | the camera is reset, the button shows idle, and the loop starts once |
| `AppComponent.App.SetupControls` | src/app/app.ts:251-252 | the rotation starts at the rotation rate and the scale at 1.0 |
| `AppComponent.App.UpdateRecordButton` | src/app/app.ts:269-294 | a look is applied exactly when the button exists |
| `AppComponent.App.StartRecording` | src/app/app.ts:296-375 | without a canvas nothing happens; an unsupported browser shows "not supported"; otherwise chunks are cleared and either the recorder runs with the preferred type or the flag drops back; the button shows recording exactly while recording |
| `AppComponent.App.StopRecording` | src/app/app.ts:377-382 | only a running recorder is asked to stop |
| `AppComponent.App.OnRecordClick` | src/app/app.ts:258-265 | a click stops while recording and starts otherwise, keeping the button in step with the flag |
| `AppComponent.App.OnRecordingTimeout` | src/app/app.ts:364-369 | the timeout stops a running recorder only while recording |
| `AppComponent.App.OnDataAvailable` | src/app/app.ts:328-332 | non-empty chunks are appended in order; empty ones are dropped |
| `AppComponent.App.OnError` | src/app/app.ts:334-338 | the flag drops and the button returns to idle |
| `AppComponent.App.OnStop` | src/app/app.ts:340-359 | the flag drops, one file is saved under the name the MIME type picks, the button ends idle, and the stopped recorder is kept |
| `AppComponent.App.StepCamera` | src/app/app.ts:390-398 | the rotation grows by the rotation global and the scale takes the same-frame `ScaleStep` |
| `AppComponent.App.UpdateAndDrawStars` | src/app/app.ts:426-433 | each of the first n stars takes its update, the others are untouched, and the drawn list is exactly the non-streaking indices below n |
| `AppComponent.App.UpdateStar` | src/app/app.ts:428 | one star takes its update; no other star changes |
| `AppComponent.App.Animate` | src/app/app.ts:384-436 | without context or canvas nothing changes; otherwise camera step, then every star below 1500 updates, and the non-streaking ones are drawn in order |
| `Strings.DecimalRoundTrip` | src/app/app.ts:140 | the decimal text of a whole number reads back as that number |

## Left out

- Canvas drawing beyond the per-star draw calls is left out: transforms, clearing, the galaxy
  image and the gradient star texture. These are pixel work with no state.
- `SimulatorComponent.Simulator.Animate` models the updates but not the draw calls. The per-star
  draw functions (`AmbientDraw`, `ShootingDraw`) model those calls on their own.
- Floating point is modelled as exact reals: no rounding, no `Infinity` or `NaN`. The draw
  functions therefore require a non-zero depth, starting depth and scale. A reset can leave a
  depth of exactly 0, where the source divides by zero.
- The progress percentage takes `Math.floor` of a float. The model uses exact integer division.
  The two agree for the counts reached from an empty pool (multiples of 50). For some other counts,
  reachable when the shell's pool starts non-empty, float rounding can give one less (435 stars:
  28 % in the source, 29 % in the model).
- Timers, `requestAnimationFrame` chains and image events are modelled as explicit calls made in
  order. The batch chains run to completion. Which callback fires when is not modelled.
- The 10 ms start delay and the resize listener (`app.ts` line 196) are left out. They only
  schedule calls that are modelled.
- `getControlSignal` is left out. It returns the signal object itself, which the model does not
  represent.
- The `ControlPanel.getControl` source calls a method the store does not have. The model forwards
  it to `getControlValue`.
- DOM work is left out: class lists, overlay fade, `disabled` markup, `toFixed` display text and
  the object URL and anchor of a download. A download is recorded as its file name, and a chunk as
  its size.
- The simulator's canvas is fixed at 1080×1920. The shell's stars require a positive width and
  height; a zero-sized wrapper is not modelled.
- `AppComponent.App.StartRecording`: a failure inside `start()` after the recorder was created
  leaves that recorder in place in the source. The model keeps the previous recorder on any
  set-up failure.
- `SimulatorComponent.Simulator.StartRecording`: the same holds for a failure inside `start()`
  (`simulator.ts` line 234). The model keeps the previous recorder.
- `AppComponent.App.Animate`: the source skips missing indices up to TOTAL_STAR_COUNT. This is
  modelled as stopping at the end of the pool, which visits the same stars.
- A star's colour string is kept as its alpha (`colorAlpha`), because `draw` never reads it.
