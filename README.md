# AR character viewer: clip switching, hit-test tracking and placement

This project models the event-driven controller of `js/main.js`. That page shows an animated
FBX character, either in a desktop viewport or in a WebXR AR session. The model covers three pieces
of the controller:

- **Clip switching.** The `actions` dictionary maps clip names to animation actions, and
  `activeAction` is the action playing now. The files that load register actions. `fadeToAction`
  switches the active action immediately and asks three.js to fade the old action out and the
  new one in, each over 0.5 s. `changeAnim`, the number keys `1`–`5` and the HUD buttons all feed
  requests into `fadeToAction`.
- **Hit-test tracking.** On each XR frame, `render` requests a viewer reference space, and then a
  hit-test source, at most once until the session's `end` listener re-arms it. Once a source
  exists, the reticle shows exactly when the frame has a hit, at the first hit's pose. The ground
  is shown only outside an immersive session.
- **Placement.** `onSelect` moves `arRoot` to the reticle's position and orientation, but only
  while the reticle is visible.

Layout:

- `wrappers.dfy` holds `Option`.
- `geometry.dfy` holds the opaque vectors, quaternions and transforms. A transform matrix is
  represented by its decomposition.
- `animation.dfy` holds the animation state as a value, its transitions, and the invariant they
  keep.
- `tracking.dfy` holds the AR state as a value and its transitions.
- `events.dfy` joins both into one state machine over events, with the lemmas about whole runs.
- `controller.dfy` holds the class `SceneController`. Its fields hold the page's module-level
  state: `actions`, `activeAction` and `params.animation`; `hitTestSourceRequested` and
  `hitTestSource`; the ground's visibility; the reticle's visibility and matrix; and the position
  and quaternion of `arRoot`. Three further fields record what the page only keeps implicitly.
  `mixerReady` says whether `mixer` exists, `mixerCalls` logs the calls made on actions, and
  `endListeners` names the sessions that carry the `end` listener. There is one method per
  handler. Each method is proved to change the state exactly as the matching transition of
  `Animation` or `Tracking` does.

The asynchronous steps become explicit events: the file loads, the two WebXR promises, and the
session's end. A session is named by a number. Some sets record which promises were started and
have not settled, and which sessions have ended. They exist only to say which events the platform
can still deliver.

`Events.Enabled` also says when each input has a listener. The `keydown` listener
(js/main.js:136), the controller's `select` listener (js/main.js:93) and the render loop exist
from the start. The HUD buttons and the settings panel are wired up only inside the character
file's load callback (js/main.js:125-132), so a click before that load does nothing. The four
clip loads start in that same callback (js/main.js:120-123). The `end` listener is registered
when the viewer space arrives (js/main.js:300-311).

Behaviour of `main.js` worth knowing:

- The active action changes at once. The page keeps no transition state: the blend over 0.5 s is
  left to three.js's mixer.
- A request for a name that is not registered is silently ignored.
- Loading a clip under a name that is already registered replaces the earlier action.
- A hit-test source that arrives after its session ended is still stored. See
  `Events.StaleSourceAfterEnd`.
- The `end` listener is registered only after the viewer space arrives. A session that ends
  earlier therefore never re-arms the request. See `Events.EndBeforeViewerSpace`.

## Model

| member | source | states |
|---|---|---|
| Animation.Init | js/main.js:14-16 | nothing is registered or active at start, and the settings name is `mutant` |
| Animation.ModelLoaded | js/main.js:111-123 | the mixer exists afterwards; with at least one clip, `mutant` is registered, active and played; with none, actions and the active action are unchanged; the four other clip loads become pending |
| Animation.AnimationLoaded | js/main.js:223-230 | the name is registered to the file's first clip only when the file has a clip, replacing any earlier entry; other names, the active action and the calls are unchanged |
| Animation.SwitchCalls | js/main.js:268-271 | a switch fades the previous action (if any) out over 0.5, then resets the new one, fades it in over 0.5 and plays it, in that order |
| Animation.FadeTo | js/main.js:265-274 | the active action changes iff the name is registered to a different action, and then becomes that action with exactly the switch's fade calls appended; otherwise nothing changes |
| Animation.ChangeAnim | js/main.js:202-205 | the settings name becomes the requested name even when no switch happens; the rest is exactly `fadeToAction` |
| Animation.KeyClip | js/main.js:137-153 | keys `1`..`5` select `mutant`, `goalkeeper`, `jump`, `pray`, `clap` in that order (both directions); every other key selects none |
| Animation.KeyDown | js/main.js:136-154 | a mapped key acts as `changeAnim` of its clip, and any other key changes nothing |
| Animation.LaterLoadReplaces | js/main.js:227 | a later registration under the same name overwrites the earlier one |
| Animation.FadeToIdempotent | js/main.js:267 | asking again for the clip just switched to changes nothing |
| Animation.LastRequestWins | js/main.js:265-274 | after two requests, the second registered target is active |
| Animation.InitValid | js/main.js:14-16 | the start state satisfies the animation invariant |
| Animation.ModelLoadedValid | js/main.js:113-123 | the character load keeps the invariant: the active action is registered, pending loads are unregistered, fades last 0.5, and the last call played the active action |
| Animation.AnimationLoadedValid | js/main.js:223-230 | a clip load keeps the invariant, because it registers a new name |
| Animation.FadeToValid | js/main.js:265-274 | a switch keeps the invariant |
| Tracking.Init | js/main.js:18-21 | no source is requested or held, the reticle is hidden, the ground is shown, and `arRoot` is at the origin |
| Tracking.Render | js/main.js:287-331 | the ground is visible iff not presenting; a frame with a session requests the viewer space only when none was requested, and the flag is set afterwards; with a source, the reticle is visible iff there is a hit, at the first hit's pose; without a source, the reticle is untouched |
| Tracking.ViewerSpaceGranted | js/main.js:300-311 | the hit-test source is requested and the `end` listener is registered on that session; nothing else changes |
| Tracking.HitTestSourceGranted | js/main.js:301-303 | the source is stored whether or not its session is still live; nothing else changes |
| Tracking.SessionEnded | js/main.js:305-310 | with a listener, the flag is cleared, the source dropped, the reticle hidden and the ground shown; without one, nothing of the page changes |
| Tracking.Select | js/main.js:208-220 | with the reticle visible, `arRoot` takes its position and orientation (not its scale); otherwise nothing changes |
| Tracking.SelectIdempotent | js/main.js:208-220 | a second select places `arRoot` where the first did |
| Events.Step | js/main.js:299-314 | an event sets the request flag iff it issues the request, clears it iff it runs an `end` listener, and otherwise leaves it alone |
| Events.ButtonBeforeLoadIgnored | js/main.js:125-132 | before the character file has loaded, a HUD click changes nothing, because its listener is attached only in the load callback |
| Events.ButtonAfterLoadChanges | js/main.js:192-205 | after the load, a HUD click acts exactly as `changeAnim` of the button's name |
| Events.KeyBeforeLoadRecordsName | js/main.js:136-154 | the key listener exists from the start: before any clip is registered, key `3` only records `jump` as the settings name |
| Events.RequestsBounded | js/main.js:299-314 | over any run, requests are at most the re-arms plus one if the run starts unarmed |
| Events.RequestsFromStart | js/main.js:299-314 | from a fresh page, requests are at most one more than the session-end re-arms |
| Events.FramesNeverReRequest | js/main.js:299-314 | once the flag is set, a run with no session end issues no request and keeps the flag |
| Events.StuckForever | js/main.js:300-313 | with the flag set and no listener or pending request on a live session, no later run ever requests or re-arms |
| Events.EndBeforeViewerSpace | js/main.js:300-310 | a session that ends before its viewer space arrives leaves the page stuck, with no request in any later run |
| Events.StaleSourceAfterEnd | js/main.js:301-309 | a source arriving after its session ended is stored while the flag is re-armed |
| Events.NextSessionRequestsOnce | js/main.js:305-313 | after a session end with a listener, the next session's first frame issues exactly one request |
| Events.ReticleNeedsSourceKept | js/main.js:316-327 | along every run, the reticle is hidden whenever no hit-test source is held |
| Events.SelectWithoutSourceKeepsRoot | js/main.js:208-220 | from a fresh page, a select while no source is held changes nothing |
| Events.RepeatedSelects | js/main.js:208-220 | any number of consecutive selects equals one select |
| Events.AnimationValidKept | js/main.js:113-118 | every run keeps the animation invariant |
| Events.ActiveIsRegistered | js/main.js:265-274 | from a fresh page, the active action is always registered and every requested fade lasts 0.5 |
| Controller.SceneController.constructor | js/main.js:14-21 | the fields start as `Animation.Init` and `Tracking.Init` say |
| Controller.SceneController.OnModelLoaded | js/main.js:111-123 | updates the fields exactly as `Animation.ModelLoaded` and keeps the invariant |
| Controller.SceneController.OnAnimationLoaded | js/main.js:223-230 | updates the fields exactly as `Animation.AnimationLoaded` and keeps the invariant |
| Controller.SceneController.FadeToAction | js/main.js:265-274 | updates the fields exactly as `Animation.FadeTo`; afterwards a registered name's action is active |
| Controller.SceneController.ChangeAnim | js/main.js:202-205 | updates the fields exactly as `Animation.ChangeAnim`; the settings name is the request |
| Controller.SceneController.KeyDown | js/main.js:136-154 | updates the fields exactly as `Animation.KeyDown`; unmapped keys change nothing |
| Controller.SceneController.RenderFrame | js/main.js:287-331 | updates the fields exactly as `Tracking.Render`; the ground is visible iff not presenting |
| Controller.SceneController.OnViewerSpace | js/main.js:300-311 | updates the fields exactly as `Tracking.ViewerSpaceGranted` |
| Controller.SceneController.OnHitTestSource | js/main.js:301-303 | updates the fields exactly as `Tracking.HitTestSourceGranted` |
| Controller.SceneController.OnSessionEnd | js/main.js:305-310 | updates the fields exactly as `Tracking.SessionEnded` |
| Controller.SceneController.OnSelect | js/main.js:208-220 | updates the fields exactly as `Tracking.Select`; with the reticle visible, `arRoot` is at the reticle |

## Left out

- Building the scene, lights, camera and renderer, `createARScene`, OrbitControls and
  `onWindowResize` (js/main.js:26-95, 160-189, 276-280). These only set up rendering and state
  nothing about the controller.
- The lil-gui panel (js/main.js:125-129). Its `onChange` calls `fadeToAction`, and the panel
  itself writes `params.animation`. Together these act as `changeAnim`. A change in the panel is
  therefore modelled by the same `Button` event, which exists only after the character load.
- The HUD button lookup in the page markup (js/main.js:192-200). A click is modelled as
  `changeAnim` with the button's clip name, once the load callback has wired the buttons.
- `normalizeModel` (js/main.js:233-262). It is floating-point bounding-box and camera arithmetic.
- Matrix arithmetic. A pose is opaque, and `reticle.matrix.fromArray` and `decompose` are
  represented by a transform already split into position, orientation and scale.
- The three.js animation engine. This covers `AnimationMixer`, the blending behind `fadeIn` and
  `fadeOut`, and `mixer.update(delta)`. Only the calls made on actions are recorded.
- File loading over the network, and the WebXR calls `requestReferenceSpace`,
  `requestHitTestSource` and `getHitTestResults`. Their results arrive as event parameters. A
  rejected promise has no handler in the page. Its state effect is the same as a promise that
  never settles, so the model has no rejection event.
- `hit.getPose(referenceSpace)` can return null in WebXR, and the page would then throw. The model
  takes every hit's pose as available.
- `actions` is a plain JavaScript object, so inherited property names such as `toString` look
  registered. The model's dictionary holds only registered names. No key binding can reach such a
  name.
- Session numbering is supplied by the caller. The model does not require that only one session
  is live at a time.
- The clock, the timestamp and `renderer.render`.
