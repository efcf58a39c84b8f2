# Panorama viewer: control and scene-lifecycle model

A Dafny model of the control and bookkeeping layer of a three.js panorama
viewer. Rendering is not modelled. Textures, the orbit control and the
device's orientation maths are opaque handles or uninterpreted functions.
The model covers four parts:

- `Pano` (`pano.dfy`): the scene lifecycle of the viewer. It covers the
  `frozen` flag, which control is active (the gyroscope, else the orbit
  control), the CREATE → INIT → LOAD order of `run()`, the `enterNext`
  branches for `preTrans` and `sceneTrans` with their "still the current
  scene" guard, how `replaceTexture`, `replaceSlient` and `replaceAnim`
  bracket a texture swap with events, and the history guards. Every
  asynchronous step is an entry of `jobs`: a texture load, a transition
  effect, the 100 ms attach timer, or the scene-group request of a back
  navigation. A method named after each step's completion takes the outcome
  as input (`None` is a rejected load). The invariant `Valid()` ties the
  CREATE/INIT/LOAD events published so far to the stage `run()` has
  reached.
- `GyroControl` (`gyro.dfy`): enabling, connecting, disconnecting and
  resetting the gyroscope. When it is disabled or has no reading, each frame
  is handed back to the orbit control. Otherwise it forwards the delta
  against the last recorded sample. `quat2Angle` guards both poles. Its
  state is a `GyroState` value, and `UpdateStep`/`CalcStep` specify the
  methods. `DeltasTelescope` proves that the deltas forwarded over any run
  of readings add up to the total change since the recorded sample.
- `Indicator` (`indicator.dfy`): the rotation indicator. It covers the
  `calcTheta` mapping, the `lock`/`theta` state machine, and the topic its
  constructor subscribes to.
- `Panoram` (`panoram.dfy`): the legacy cube-map viewer. It covers scene
  lookup, the texture swap that disposes the old texture, the choice of
  control, the `setLook` guard, and the size fallback chain with a model of
  `parseInt`.

Shared parts: `Topics` (`topics.dfy`) holds the event topics and their
exact names, with a parser that inverts `Name`. `Orbit` (`orbit.dfy`) is the
orbit control as a handle that records the requests made to it. `Wrappers`
(`wrappers.dfy`) holds `Option` and `Array.prototype.find`.

Some behaviours of the code worth knowing when reading the model:

- The viewer does not discard a stale load result on every path.
  - The first load of `enterNext` has no currency guard: whichever load
    resolves last wins.
  - Only the silent high-resolution upgrade after a preview is guarded. In
    `replaceAnim` that guard is evaluated when the load settles, not when
    the texture is applied.
  - `run()`'s high-resolution load has no guard.
- `setLook` and `getLook` are not inverses, so no round trip is stated.
- `alphaOffset` is stored but never read by `update`.

## Model

| member | source | states |
|---|---|---|
| Wrappers.FindFirst | src/panoram.ts:102 | the index found is the first element satisfying the predicate; None exactly when no element does |
| Wrappers.Find | src/pano/pano.ts:408 | `find` returns the first element of the sequence that satisfies the predicate, and returns one whenever any element does |
| Topics.ParseName | src/core/topic.ts:5-50 | every topic's name parses back to that topic |
| Topics.NameParse | src/core/topic.ts:5-50 | a string that parses to a topic is that topic's name |
| Topics.NameInjective | src/core/topic.ts:5-50 | distinct topics have distinct names |
| Orbit.OrbitControl.constructor | src/pano/pano.ts:69 | a new orbit control has received no request |
| Orbit.OrbitControl.Update | src/pano/pano.ts:148 | the request is recorded and `enabled` is unchanged |
| Orbit.OrbitControl.RotateLeft | src/pano/pano.ts:205 | the request is recorded with its angle and `enabled` is unchanged |
| Orbit.OrbitControl.RotateUp | src/pano/pano.ts:206 | the request is recorded with its angle and `enabled` is unchanged |
| Orbit.OrbitControl.Reset | src/pano/pano.ts:204 | the request is recorded and `enabled` is unchanged |
| Orbit.OrbitControl.Dispose | src/pano/pano.ts:188 | the request is recorded and `enabled` is unchanged |
| Gyro.Quat2Angle | src/pano/controls/gyro.control.ts:108-145 | above factor 0.499 the pitch is π/2, the roll 0 and the yaw 2·atan2(x, w); below -0.499 the pitch is -π/2, the roll 0 and the yaw -2·atan2(x, w); otherwise the pitch is asin(2·factor); the pitch always lies in [-π/2, π/2] |
| Gyro.Radians | src/pano/controls/gyro.control.ts:88-92 | a missing or falsy angle reads as 0 and any other angle converts to radians, so the result is non-zero exactly when the input is truthy |
| Gyro.CalcStep | src/pano/controls/gyro.control.ts:38-62 | the current roll and yaw always become the last sample; when a truthy last beta exists the orbit is turned left by lastGamma - yaw and up by lastBeta - roll, then updated; otherwise no request is made |
| Gyro.ScreenAngle | src/pano/controls/gyro.control.ts:32 | a missing window orientation reads as 0; a present one is taken as it is |
| Gyro.ScreenRadians | src/pano/controls/gyro.control.ts:94 | a zero screen angle gives 0; any other angle converts to radians, so the result is non-zero exactly when the angle is |
| Gyro.UpdateStep | src/pano/controls/gyro.control.ts:81-102 | only the last sample can change; a disabled control, or one whose angles are all 0, only updates the orbit; otherwise the reading goes through `calcQuaternion` |
| Gyro.DisabledUpdateDelegates | src/pano/controls/gyro.control.ts:81-85 | a disabled control keeps its state and only updates the orbit |
| Gyro.ResetForwardsNoDelta | src/pano/controls/gyro.control.ts:159-165 | after `reset` the control is enabled and the next reading forwards no delta |
| Gyro.TotalsAppend | src/pano/controls/gyro.control.ts:53-61 | the rotation totals of concatenated requests add up |
| Gyro.ForwardedTotals | src/pano/controls/gyro.control.ts:54-57 | one forwarded delta turns the orbit by exactly its left and up angles |
| Gyro.DeltasTelescope | src/pano/controls/gyro.control.ts:38-62 | over any run of readings with non-zero roll after a recorded sample, the total left turn is recordedGamma - finalYaw and the total up turn is recordedBeta - finalRoll, and the final reading is the new last sample |
| Gyro.GyroControl.constructor | src/pano/controls/gyro.control.ts:13-33 | a new control is disabled, with no sample, screen angle 0 and no last sample |
| Gyro.GyroControl.OnDeviceOrientation | src/pano/controls/gyro.control.ts:31 | the listener stores the latest sample and nothing else |
| Gyro.GyroControl.OnScreenOrientation | src/pano/controls/gyro.control.ts:32 | the listener stores the window orientation, or 0 when it is missing |
| Gyro.GyroControl.Connect | src/pano/controls/gyro.control.ts:64-70 | reads the screen angle and enables the control; nothing else changes |
| Gyro.GyroControl.Disconnect | src/pano/controls/gyro.control.ts:72-79 | disables the control, empties the device sample and sets the screen angle to 0 |
| Gyro.GyroControl.CalcQuaternion | src/pano/controls/gyro.control.ts:38-62 | the new state and the orbit requests are those of `CalcStep` |
| Gyro.GyroControl.Update | src/pano/controls/gyro.control.ts:81-102 | the new state and the orbit requests are those of `UpdateStep` |
| Gyro.GyroControl.UpdateAlphaOffset | src/pano/controls/gyro.control.ts:151-154 | stores the offset, then performs exactly one `update` |
| Gyro.GyroControl.Reset | src/pano/controls/gyro.control.ts:159-165 | resets the orbit, forgets the last sample and enables the control |
| Pano.LifecycleAppend | src/pano/pano.ts:115-141 | the lifecycle events of concatenated publications are the concatenation of each part's lifecycle events |
| Pano.WithEnvChanges | src/pano/pano.ts:97-110 | `resetEnv` always makes the data current and touches nothing but the data and the fov; an unchanged fov is left alone; a changed fov is set directly, or becomes the tween target with `fovTrans` |
| Pano.TweenSettled | src/pano/pano.ts:232-233 | when a tween is pending the camera ends at its target and none is pending; nothing else changes |
| Pano.ResetEnvAfterTween | src/pano/pano.ts:97-110 | with `fovTrans`, after the tween to a scene's fov has ended, the next `resetEnv` starts a tween exactly when the next scene's fov differs from the one reached |
| Pano.TargetFov | src/pano/pano.ts:98 | a present non-zero scene fov is used; otherwise the option's fov is used |
| Pano.SetLookCalls | src/pano/pano.ts:197-208 | the orbit is moved exactly when both angles are defined |
| Pano.PopDecision | src/pano/pano.ts:392-416 | with history off nothing happens; the viewer navigates exactly when a present, non-empty scene id differs from the current one, and takes that id and key; otherwise the state is exhausted |
| Pano.LifecycleOrdered | src/pano/pano.ts:115-141 | the lifecycle events published are a prefix of CREATE, INIT, LOAD; INIT implies the preview loaded; LOAD was published exactly when the high-resolution texture loaded |
| Pano.Pano.constructor | src/pano/pano.ts:39-91 | the viewer starts frozen with the camera at the target fov; it turns to the scene's look and updates the orbit only when both angles are truthy; it has a gyroscope exactly when the option asks; it seeds history only with history on |
| Pano.Pano.SetLook | src/pano/pano.ts:197-208 | with both angles defined it resets the orbit, then turns left by (180 - lng)° and up by (90 - lat)°; otherwise nothing |
| Pano.Pano.SetFov | src/pano/pano.ts:229-239 | sets the camera's fov directly, or records a tween target with `fovTrans` |
| Pano.Pano.FovTweenEnded | src/pano/pano.ts:232-233 | the pending fov tween ends with the camera at its target, as `TweenSettled` says |
| Pano.Pano.ResetEnv | src/pano/pano.ts:97-110 | always makes the data current; turns to its look only with no gyroscope and a defined longitude; changes the fov only when it differs |
| Pano.Pano.Publish | src/pano/pano.ts:276-278 | appends one non-lifecycle event, such as ATTACHSTART or ATTACH, with its topic, sync flag and scene; nothing else changes and the lifecycle invariant is kept |
| Pano.Pano.Run | src/pano/pano.ts:115-121 | publishes CREATE synchronously before any load starts |
| Pano.Pano.RunPreviewLoaded | src/pano/pano.ts:123-127 | on success the mesh takes the preview and INIT is published; on failure only an error is logged and neither INIT nor the render loop follows |
| Pano.Pano.RunSourceLoaded | src/pano/pano.ts:130-135 | on success the texture is swapped in and LOAD is published; on failure an error is logged; either way the render loop starts |
| Pano.Pano.UpdateControl | src/pano/pano.ts:146-149 | nothing happens while frozen; otherwise the gyroscope updates if present, else the orbit |
| Pano.Pano.Animate | src/pano/pano.ts:326-332 | one frame updates the control and publishes PROCESS synchronously |
| Pano.Pano.MakeControl | src/pano/pano.ts:155-158 | sets `enabled` on the gyroscope if present, else on the orbit |
| Pano.Pano.ResetControl | src/pano/pano.ts:163-166 | resets the gyroscope if present, else the orbit; the orbit is reset either way |
| Pano.Pano.StartControl | src/pano/pano.ts:171-177 | connects the gyroscope only if it exists and is disabled; always enables the orbit |
| Pano.Pano.StopControl | src/pano/pano.ts:182-190 | disconnects and drops the gyroscope, disposes and drops the orbit |
| Pano.Pano.NoTimeline | src/pano/pano.ts:596-602 | unfreezes, starts the controls, then publishes READY synchronously |
| Pano.Pano.ReplaceTexture | src/pano/pano.ts:272-279 | publishes ATTACHSTART, swaps the map, and schedules ATTACH for the scene current at the call |
| Pano.Pano.ReplaceSlient | src/pano/pano.ts:285-287 | swaps the map and publishes nothing |
| Pano.Pano.AttachFired | src/pano/pano.ts:278 | the timer publishes ATTACH with the scene captured when it was set |
| Pano.Pano.ReplaceAnim | src/pano/pano.ts:295-309 | publishes ATTACHSTART and starts the transition; given data, it also starts that scene's high-resolution load |
| Pano.Pano.TransitionEnded | src/pano/pano.ts:311-320 | the map takes the new texture and ATTACH is published; a high-resolution texture the final load already kept is then swapped in silently |
| Pano.Pano.FinalLoaded | src/pano/pano.ts:305-308 | a loaded texture is kept only if its scene is still current when the load settles; it is applied silently once the transition has ended |
| Pano.Pano.EnterNext | src/pano/pano.ts:551-578 | replaces the history state and starts the preview load with `preTrans`, else the high-resolution load; nothing else changes yet |
| Pano.Pano.NextPreviewLoaded | src/pano/pano.ts:558-569 | a failure is only logged, so the scene data and the map are unchanged; on success `resetEnv` runs first, then the trans effect runs with `sceneTrans`, else the texture is replaced and the high-resolution load starts |
| Pano.Pano.ShowPreview | src/pano/pano.ts:559-569 | `resetEnv` runs before the swap; with `sceneTrans` the trans effect starts and carries the high-resolution load; otherwise the texture is replaced and the high-resolution load starts |
| Pano.Pano.SharpenLoaded | src/pano/pano.ts:566-568 | the high-resolution texture is applied silently only if its scene is still current |
| Pano.Pano.NextSourceLoaded | src/pano/pano.ts:570-577 | a failure is only logged; on success `resetEnv` runs first, then the texture fades in with `sceneTrans`, else it is replaced |
| Pano.Pano.ShowSource | src/pano/pano.ts:572-575 | `resetEnv` runs before the swap; the texture then fades in with `sceneTrans`, and is otherwise replaced |
| Pano.Pano.EnterThru | src/pano/pano.ts:585-591 | pushes history, resets the environment, then replaces the texture |
| Pano.Pano.PushState | src/pano/pano.ts:370-376 | with history off, does nothing; otherwise appends one pushed entry |
| Pano.Pano.ReplaceState | src/pano/pano.ts:381-387 | with history off, does nothing; otherwise appends one replaced entry |
| Pano.Pano.OnPopState | src/pano/pano.ts:392-416 | acts as `PopDecision` says: nothing, exhaust the state, or request the scene group |
| Pano.Pano.GroupFetched | src/pano/pano.ts:405-413 | enters the first scene of the group with the popped id; if the group has none, only the request completes |
| Indicator.CalcTheta | src/pano/plugins/indicator.plugin.ts:36-38 | maps (0, 180] onto [0, 180) and [-180, 0] onto [-180, 0] |
| Indicator.CalcThetaInvolution | src/pano/plugins/indicator.plugin.ts:36-38 | on (-180, 180) the mapping is its own inverse |
| Indicator.CalcThetaAntimeridian | src/pano/plugins/indicator.plugin.ts:36-38 | 180 and -180 both map to 0 |
| Indicator.CreateDomTopic | src/pano/plugins/indicator.plugin.ts:20 | READY exactly when the viewer is frozen, LOAD exactly when it is not |
| Indicator.TargetAzimuth | src/pano/plugins/indicator.plugin.ts:76 | the target is ±π and positive exactly when the current azimuth is |
| Indicator.Indicator.constructor | src/pano/plugins/indicator.plugin.ts:14-21 | starts unlocked and subscribes `createDom` to the topic `CreateDomTopic` chooses |
| Indicator.Indicator.SetTheta | src/pano/plugins/indicator.plugin.ts:43-48 | records theta and styles the rotation `calcTheta(theta)`; nothing else changes |
| Indicator.Indicator.CreateDom | src/pano/plugins/indicator.plugin.ts:23-34 | shows the current longitude |
| Indicator.Indicator.Update | src/pano/plugins/indicator.plugin.ts:53-60 | theta follows the longitude only when unlocked and the longitude differs; otherwise nothing changes |
| Indicator.Indicator.ResetAsWritten | src/pano/plugins/indicator.plugin.ts:65-89 | locks and publishes INDICATORSTART; with a gyroscope the missing `makeEnable` throws and no animation starts |
| Indicator.Indicator.Reset | src/pano/plugins/indicator.plugin.ts:65-89 | locks, publishes INDICATORSTART, disables a gyroscope and animates toward `TargetAzimuth` |
| Indicator.Indicator.AnimationFrame | src/pano/plugins/indicator.plugin.ts:84-87 | each frame of the azimuth tween shows the animated azimuth in degrees |
| Indicator.Indicator.End | src/pano/plugins/indicator.plugin.ts:94-99 | resets the viewer's control (which re-enables a gyroscope), unlocks, shows 180 and publishes INDICATOREND |
| Indicator.GyroViewer | src/pano/pano.ts:76-78 | a viewer built with the gyroscope option has a gyroscope control |
| Indicator.ClickWithGyroLocksForever | src/pano/plugins/indicator.plugin.ts:78 | as written, after one click on a viewer with a gyroscope the indicator stays locked and no longer follows the camera |
| Indicator.ClickWithGyroThenEndUnlocks | src/pano/plugins/indicator.plugin.ts:94-99 | with the intended call, click then end leaves the indicator unlocked and following the camera, and the gyroscope enabled |
| Panoram.DefaultScene | src/panoram.ts:100-105 | the first scene whose id is the default id; if none matches, the first scene of the group, or none for an empty group |
| Panoram.ResolveScene | src/panoram.ts:272-275 | an id resolves to the first scene with that id, and resolves exactly when the group has one; scene data is taken as given |
| Panoram.DigitPrefix | src/panoram.ts:110-111 | the longest prefix of decimal digits |
| Panoram.Decimal | src/panoram.ts:110-111 | the decimal string of a number is non-empty and all digits |
| Panoram.SkipSpaces | src/panoram.ts:110-111 | the result does not start with white space |
| Panoram.SkipSpacesSuffix | src/panoram.ts:110-111 | the result is a suffix of the input, and everything removed is white space |
| Panoram.SkipSpacesOf | src/panoram.ts:110-111 | white space followed by text that does not start with white space skips to exactly that text |
| Panoram.ParseInt | src/panoram.ts:110-111 | `parseInt` gives a number exactly when, after the leading white space, a digit or a sign followed by a digit comes first; a negative result needs a leading minus sign |
| Panoram.ParseIntSkipsSpaces | src/panoram.ts:110-111 | leading white space does not change what `parseInt` reads |
| Panoram.ParseIntNegative | src/panoram.ts:110-111 | a minus sign negates the number after it, as in "-42px" |
| Panoram.ValueDecimal | src/panoram.ts:110-111 | the digits of a number's decimal string denote that number |
| Panoram.DigitPrefixOf | src/panoram.ts:110-111 | the digit prefix of digits followed by a non-digit is those digits |
| Panoram.ParseIntDecimal | src/panoram.ts:110-111 | `parseInt` reads back the number at the head of a string such as "300px" or "50%" |
| Panoram.Truncate | src/panoram.ts:110-111 | `parseInt` of a numeric option truncates toward zero: the result lies within 1 of the number, on the side of zero |
| Panoram.Parsed | src/panoram.ts:110-111 | a missing option parses to NaN (None), a number to its truncation, a string by `parseInt` |
| Panoram.Percent | src/panoram.ts:113-114 | only a non-empty string option can end with a percent sign |
| Panoram.Dimension | src/panoram.ts:110-114 | without a percent sign, a non-zero parsed option is the size; NaN or 0 falls back to the element's size if non-zero, else the window's; `PercentScales` states the percent case |
| Panoram.PercentScales | src/panoram.ts:110-114 | any option ending in `%` is sized like its parsed number (or like a missing option when none parses), then taken as that percentage of the window |
| Panoram.CalcSize | src/panoram.ts:107-117 | the width and height each follow the fallback chain `Dimension` describes; the aspect exists exactly when the height is non-zero |
| Panoram.SizeOf | src/panoram.ts:116 | the aspect, when present, times the height equals the width |
| Panoram.Ratio | src/panoram.ts:116 | the ratio times the height is the width |
| Panoram.AbsentFallsBack | src/panoram.ts:110-111 | without an option the element's size is used, or the window's when the element has none |
| Panoram.PixelOption | src/panoram.ts:110-111 | a non-zero pixel option such as "300px" gives that many pixels |
| Panoram.PercentOption | src/panoram.ts:113-114 | a non-zero percent option "n%" gives n/100 of the window |
| Panoram.ZeroPercentScalesFallback | src/panoram.ts:110-114 | "0%" (the decimal string of 0 followed by `%`) takes the element (or window) size as the percentage of the window |
| Panoram.PanoramLookCalls | src/panoram.ts:133-144 | the orbit is moved exactly when both angles are defined |
| Panoram.Panoram.constructor | src/panoram.ts:34-76 | turns to the configured look, has a device control on mobile, and dispatches `render-init` |
| Panoram.Panoram.SetLook | src/panoram.ts:133-144 | with both angles defined, turns up by -lat and left by -lng (radians); otherwise nothing |
| Panoram.Panoram.InitSource | src/panoram.ts:100-105 | stores the group; the returned scene and the current scene are `DefaultScene` |
| Panoram.Panoram.InitMesh | src/panoram.ts:82-94 | installs the first environment map and dispatches `scene-init` |
| Panoram.Panoram.UpdateControl | src/panoram.ts:119-125 | updates the device control when it exists and is enabled, otherwise the orbit control; exactly one is updated |
| Panoram.Panoram.ReplaceTexture | src/panoram.ts:188-197 | installs the new map and disposes exactly the previous one; dispatches `scene-attach` with the current scene exactly when not silent; before the sky box exists it throws and changes nothing |
| Panoram.Panoram.EnterNext | src/panoram.ts:272-279 | with no scene resolved, logs an error and starts no load; otherwise requests the scene's textures; the current scene is unchanged |
| Panoram.Panoram.SceneTexLoaded | src/panoram.ts:281-291 | textures start the cube load; a rejection or an empty result is logged and the current scene is unchanged |
| Panoram.Panoram.CubeLoaded | src/panoram.ts:284-287 | the scene becomes current immediately before a non-silent texture swap; before the sky box exists the scene still becomes current while the swap throws, installing, disposing and dispatching nothing |

## Left out

- Rendering: WebGL, three.js scene-graph work, meshes, materials, geometry, `render()`, raycasting and the fog. Textures are opaque handles.
- The mesh wrapper's `setMap` is not part of this model. Whether it disposes the old map is unknown, so `Pano` records only the current map. The transition's temporary second mesh, its opacity and its disposal are left out too.
- Quaternion and Euler maths: the device quaternion, `Math.atan2` and `Math.asin` are uninterpreted functions of a `DeviceMath` value. The only property assumed is that `asin` lies in [-π/2, π/2] on [-1, 1]. `camera.copy`/`clone` and the camera's own rotation are left out.
- Gyro.GyroControl.Connect: the window listeners it installs are left out. Device events reach the model through `OnDeviceOrientation` and `OnScreenOrientation`, so `Disconnect` does not stop them.
- Gyro.GyroControl.UpdateAlphaOffset: the offset is stored but, as in the code, `update` never uses it.
- Scheduling: promises, `setTimeout`, `requestAnimationFrame` and the tween engine. Each pending step is a job that completes when its completion method is called. Jobs may complete in any order. Deferred publication is recorded as a flag, and delivery to subscribers is left out.
- Pano.Pano.Run: the model allows one run per viewer (it requires the `Idle` stage). The `cretPath` loader it may start is left out.
- Pano.Pano.SetFov: the fov tween is recorded only as its target, and `FovTweenEnded` moves the camera there in one step. The easing, the duration and the fovs in between are left out. A second tween started while one runs replaces the recorded target; in the code both tweens drive the camera.
- Pano.Pano.ResetEnv and Pano.WithEnvChanges: a `resetEnv` while a tween is still running compares the new fov against the fov the camera had before that tween. In the code the camera is somewhere between the two.
- Pano.SetLookCalls and Pano.Pano.SetLook: an explicit `null` angle is not distinguished from a missing one. The code tests only for `undefined` (src/pano/pano.ts:103, :200), so a `null` longitude still turns the camera, treating `null` as 0.
- Pano.Pano.StopControl: a terminal operation. The viewer no longer satisfies `Valid()` afterwards, because it has no orbit control.
- Pano.Pano.ReplaceTexture, Pano.Pano.ReplaceSlient, Pano.Pano.TransitionEnded, Pano.Pano.SharpenLoaded, Pano.Pano.ShowPreview, Pano.Pano.ShowSource and Pano.Pano.EnterThru require an environment map, because the model has no throw path for a texture swap. In the code, `setMap` before the run's preview has loaded throws. A navigation's failed load still completes without a map (`NextPreviewLoaded`, `NextSourceLoaded`). By the time it throws, the code has already run `pushState` (in `enterThru`) and `resetEnv` (the scene data, the look and the fov change or tween), and `replaceTexture` has published the deferred ATTACHSTART. In `enterNext` the `.catch` logs the error (src/pano/pano.ts:570, :576). In `enterThru` it propagates to the caller.
- Pano.Pano.OnPopState: the scene-group request reads the first plugin's `surl` (src/pano/pano.ts:404). Plugins are not modelled, so the throw of a viewer with no plugin is left out.
- Pano.Pano.GroupFetched: when the group has no scene with the popped id, the code calls `enterNext(undefined)`. The converter it then calls is not part of this model, so the model only completes the request. The `THRU.BACK` publication after it is left out: `topic.ts` defines no such topic. The network request itself is left out.
- The scene converter (`Converter.DataTransform`) is not part of this model. Scene data is taken as already converted, and scenes are compared by id.
- The render-size helper of `Pano`, `getLook`, `onResize`, `customSize`, plugins, overlays, the HD monitor, `dispose` and VR are left out. The router behind `pushState`/`replaceState` is not part of this model, so the history is a log of operations.
- Indicator: DOM creation, the subscriptions of `createDom`, hide and show in VR, and the polar tween are left out. The azimuth tween's orbit rotations are left out as well; only its `setTheta` calls are modelled, through `AnimationFrame`.
- Panoram: `animate`, `resize`, `reset`, `dispose`, plugins, the `setFov` tween (which always tweens to 55), the camera position reset in `setLook`, and the `DeviceControl` internals are left out. `DeviceControl` is not part of this model and is represented by its `enabled` flag and an update count.
- Panoram.Panoram.SetLook: an explicit `null` angle is not distinguished from a missing one. The code would rotate by 0 for `null`.
- Panoram.ParseInt: it models base-10 `parseInt` with a leading `+`/`-`, skipping only space, tab, line feed, vertical tab, form feed and carriage return. The other white space JavaScript skips (no-break space, the byte-order mark, line and paragraph separators and the other Unicode space separators), hexadecimal prefixes and the exponent notation of very large or very small numbers are left out. A numeric option is truncated toward zero.
- Panoram.CalcSize: a zero height gives no aspect. The code would produce `Infinity` or `NaN`.
- Panoram.Panoram.EnterNext: a cube load that fails never calls back in the code. So the model has no completion method for it, and its job stays pending.

## Findings

| source | as written | input that shows it | evidently intended | confidence | as-written member | corrected member |
|---|---|---|---|---|---|---|
| src/pano/plugins/indicator.plugin.ts:78 | `reset` calls `pano.gyro.makeEnable(false)`, but `GyroControl` (src/pano/controls/gyro.control.ts:7-166) defines no `makeEnable`. The call throws after `lock` is set and INDICATORSTART is published, so no tween starts and `end` never runs. | A viewer built with the `gyro` option; click the indicator once. | Disable the gyroscope, as `makeControl(false)` does (src/pano/pano.ts:155-158). `end` → `resetControl` → `GyroControl.reset` re-enables it. | medium, not executed | Indicator.Indicator.ResetAsWritten, Indicator.ClickWithGyroLocksForever | Indicator.Indicator.Reset, Indicator.ClickWithGyroThenEndUnlocks |
