# Animations viewer: a Dafny model of its timing and join logic

The viewer (`script.js`) loads a 3D model of a Walkman and overlays a live
HLS video stream on the model's `Glass2` screen. Every display frame it
wobbles the model or gives it a quick spin, and it updates a now-playing
progress bar. Most of the script calls three.js, hls.js and the DOM. This
project models the parts that are plain logic:

- `animation.dfy` (module `Animation`) models the idle-wobble/spin state machine of `animate`.
  - The pure `Step` function describes one frame.
  - The `Animator` class holds the timer fields (`isSpinning`, `lastSwitch`, `spinStart`, and a `started` flag standing for "still undefined") and the model's z rotation.
  - Its `Frame` method updates them in place and is proved equal to `Step`.
  - Angles are symbolic. A rotation is the angle it was last set to (`AsLoaded`, or `WobbleAt(now)` for an idle frame) plus a count of fixed spin steps (`fastSpeed`).
  - `animate` reads `Date.now()` twice on the frame that creates the timer (lines 52 and 55). `Frame` takes both readings as parameters.
- `overlay.dfy` (module `Overlay`) models the readiness join that decides when `createVideoPlaneOverlay` adds the video plane.
  - The state is two readiness booleans, an anchor-present flag and a count of planes attached.
  - The `Viewer` class has one method per completion callback.
  - The native-playback branch of `createVideoTexture` builds the texture but does not call the overlay routine. The model keeps that difference.
- `loading.dfy` (module `Loading`) models the loading manager's percentage readout and the delay before the viewport is revealed.
- `playback.dfy` (module `Playback`) models the guard and the percentage of `updateNowPlayingProgress`.

Two facts about `script.js` that the model keeps as written:

- `createVideoPlaneOverlay` keeps no record of an attachment. A repeated manifest-parsed callback would add a second plane (`Overlay.RepeatedManifestAttachesAgain`). With each callback firing once, at most one plane is added (`Overlay.AttachedAtMostOnce`).
- Both timing comparisons are strict (script.js:58, 65). A frame exactly 3000 ms after the last switch still idles, and a spin is still on exactly 450 ms after it started.

## Model

| member | source | states |
|---|---|---|
| `Loading.Round` | script.js:25 | Math.round gives the integer within one half of x, with ties going up |
| `Loading.ProgressPercent` | script.js:24-27 | the readout is NaN for 0/0 and Infinity for n/0. Otherwise it is the integer p with 2·t·p ≤ 200·l + t < 2·t·(p+1), i.e. 100·l/t rounded half up |
| `Loading.PercentInRange` | script.js:25 | with 0 ≤ itemsLoaded ≤ itemsTotal and itemsTotal > 0, the readout is a whole number from 0 to 100 |
| `Loading.PercentEnds` | script.js:25 | no items loaded reads 0%; all items loaded reads 100% |
| `Loading.PercentMonotone` | script.js:24-26 | loading more of the same items never lowers the readout |
| `Loading.RevealDelay` | script.js:28-30 | the setTimeout delay is never negative. The viewport is revealed no earlier than MIN_DISPLAY_TIME after loading started. The delay is 0 or exactly the time still missing |
| `Loading.NoDelayWhenClockAdvances` | script.js:20-30 | with MIN_DISPLAY_TIME = 0 and a clock that has not gone back, the delay is 0 |
| `Animation.Step` | script.js:44-75 | one frame does the following. Without a model, nothing changes. The first frame with a model creates the timer, idle, with lastSwitch at its clock reading. A spin starts exactly when idle and now − lastSwitch > 3000 (for a frame that creates the timer, measured from its first reading), and then spinStart = now. Every spinning frame (including the one that starts the spin and the one that ends it) adds exactly one step. A spin ends exactly when now − spinStart > 450, and lastSwitch becomes that frame's now. An idle frame sets the rotation to WobbleAt(now) and leaves the timer alone |
| `Animation.FirstFrameIdles` | script.js:50-61 | the frame that creates the timer does not spin when its two clock readings are at most 3000 ms apart. It sets lastSwitch to the first reading and the rotation to the wobble |
| `Animation.IdleRotationForgetsHistory` | script.js:69-73 | an idle frame's rotation depends only on the frame's time. Two states give the same rotation exactly when both take the idle branch |
| `Animation.EventsWellSpaced` | script.js:56-68 | over any frame sequence (even with a clock that goes back), spin starts and ends alternate. Each spin lasts more than 450 ms. Each spin starts more than 3000 ms after the previous spin ended. The first change agrees with the timer in the starting state |
| `Animation.SpinStartsApart` | script.js:58-68 | two consecutive spins start more than 3450 ms apart |
| `Animation.Animator.constructor` | script.js:50 | before the first frame the timer is undefined and the rotation is the asset's own |
| `Animation.Animator.Frame` | script.js:41-75 | the in-place update of the timer fields and `model.rotation.z` yields exactly `Step` of the old state |
| `Overlay.Attach` | script.js:204-208 | createVideoPlaneOverlay adds one plane exactly when the texture, the model and Glass2 are all present. Otherwise it changes nothing |
| `Overlay.Deliver` | script.js:128-189 | the model callback records the model and whether it has Glass2; both video paths record the texture. A callback adds at most one plane. It adds one exactly when it is the model callback with Glass2 found and the texture already there, or the manifest callback with the model and its anchor already there. The native path never adds one |
| `Overlay.AtMostOneAttachment` | script.js:140-188 | if the model and the texture each arrive at most once, the remaining callbacks add at most one plane |
| `Overlay.AttachedAtMostOnce` | script.js:140-208 | from start-up, with each callback firing at most once, at most one plane is attached |
| `Overlay.NoAnchorNoOverlay` | script.js:207-208 | as long as no model with Glass2 arrives, no plane is ever attached, whatever else fires |
| `Overlay.NothingBeforeBoth` | script.js:205 | without the model, or without the video texture, no plane is attached |
| `Overlay.StreamingEitherOrder` | script.js:181-188 | on the streaming path, in either completion order, nothing is attached after the first callback. Exactly one plane (if Glass2 exists) is attached after the second |
| `Overlay.NativeOrder` | script.js:177-180 | on the native path the texture precedes the model, and the model callback attaches the plane. In the other order nothing would be attached |
| `Overlay.EachManifestAfterJoinAttaches` | script.js:185-188 | once texture, model and Glass2 are all there, every further manifest-parsed callback adds exactly one more plane |
| `Overlay.RepeatedManifestAttachesAgain` | script.js:204-240 | a second manifest-parsed callback adds a second plane, because the routine does not remember the first one |
| `Overlay.Viewer.constructor` | script.js:5 | at start-up there is no texture, no model and no plane |
| `Overlay.Viewer.CreateVideoPlaneOverlay` | script.js:204-240 | the in-place routine is exactly `Attach` |
| `Overlay.Viewer.OnModelLoaded` | script.js:128-140 | the model callback records the model and its anchor, then tries the overlay only if the texture exists |
| `Overlay.Viewer.OnManifestParsed` | script.js:185-188 | the manifest callback builds the texture, then always tries the overlay |
| `Overlay.Viewer.SetNativeSource` | script.js:177-180 | the native branch builds the texture and does not try the overlay |
| `Playback.ProgressWidth` | script.js:243-246 | the bar is left alone when there is no video or it is paused or ended. It is also left alone when the duration is NaN or 0. Otherwise the width w satisfies w · duration = 100 · currentTime |
| `Playback.ProgressEnds` | script.js:245 | a playing video reads 0% at time 0 and 100% when currentTime equals duration |
| `Playback.ProgressInRange` | script.js:245 | with 0 ≤ currentTime ≤ duration and duration > 0, the width lies between 0% and 100% |
| `Playback.NowPlaying.UpdateNowPlayingProgress` | script.js:243-247 | the bar's width becomes the computed percentage when the guard passes, and keeps its old value otherwise |

## Left out

- Scene, camera, lights, renderer, environment map and the GLTF/RGBE loaders (script.js:81-145): these are calls into three.js. The model only records that the model loaded and whether it has a `Glass2` node. The `envMapIntensity` pass over the meshes is left out too.
- The plane's geometry, world-to-local transform, offset, quaternion, scale and rotation constants (script.js:210-238): this is floating-point math inside three.js. A plane is counted, not placed.
- `Animation.Step`: the angles are symbolic. The model does not compute `Math.sin`, the 2π base angle or the value of `fastSpeed`. It does not model the floating-point rounding of accumulating `rotation.z += fastSpeed`.
- `Loading.ProgressPercent`: it divides and rounds exact rationals. An IEEE double quotient that lands just below an exact .5 can round differently.
- `Playback.ProgressWidth`: the percentage is exact rational division, not IEEE double arithmetic. An infinite `duration` (a live stream) is not modelled.
- HLS and native video set-up beyond which callback fires, quality-level selection, the `canplaythrough` and click autoplay handlers, `setTimeout`, `requestAnimationFrame` and `renderer.render` (script.js:31-34, 42, 78, 148-156, 165-202, 227-231): these are I/O and browser scheduling. Clock readings are parameters.
- The "HLS not supported" branch (script.js:190-192) only logs. In the model it is the absence of any video signal, which `Overlay.NothingBeforeBoth` covers.
- `onWindowResize` (script.js:159-163): a thin wrapper over camera and renderer calls.
- DOM element creation and styling (script.js:6-18, 26, 246): the readout and the bar width are modelled as values, not as text or CSS.
- `animate` calls `updateNowPlayingProgress` every frame. The two are modelled as separate classes (`Animator`, `NowPlaying`), not one frame method.
