# AR placement demo: session state machine

A model of the augmented-reality logic of the WebXR demo in `script.js`. The
page shows a test cube in an orbit view. When an immersive AR session starts,
the script hides the background, the ground plane and the cube. It then
requests a hit-test source once. Each frame it moves a ring-shaped reticle to
the first surface hit, and on every `select` (a tap) it places a coloured copy
of the cube where the reticle is. When the session ends, the orbit view comes
back and the copies stay in the scene.

The project has four modules:

- `Wrappers` (`wrappers.dfy`): the `Option` type.
- `ArState` (`ar_state.dfy`): the state as a value, the invariant `Inv` and
  one transition function per event. These functions are the specification:
  `SessionStarted`, `SessionEnded`, `RequestIfNeeded`, `SourceSettled`,
  `Polled`, `FrameTick` and `Selected`. It also models the `scene.children`
  filter behind the placed-copies count shown in the overlay.
- `ArTrace` (`ar_trace.dfy`): runs made of any sequence of events, and the
  lemmas that hold over a whole page lifetime.
- `ArSession` (`ar_session.dfy`): the class `XrApp`. It holds the script's
  module-level variables as fields, and its methods update them in place, as
  the listeners do. Each method is proved to move `Snapshot()` exactly as the
  matching `ArState` function does, and to keep `Inv`. Two client methods run
  concrete sessions against the class.

Three.js and WebXR objects are abstract values. A pose is the 16-number
matrix the script copies. The reference model is a record holding its scale,
position, visibility, rotation and material identity. A placed copy is a
record holding its pose, scale, visibility, material identity and hue.

The model follows the code where a session-scoped design would behave
differently:

- `sessionstart` does not reset `hitTestSourceRequested`. A later session
  never requests a new source and keeps polling the first session's source.
- `sessionend` does not hide the reticle and does not drop the source.
- A settlement of the acquisition promises is applied whatever the current
  session is.
- The cube starts at scale 1, raised by 0.15. `sessionend` restores scale 0.5
  at the origin, so the orbit view after a session differs from the one at
  load (`ArTrace.SessionEndDiffersFromLoad`).
- A pose-less first hit result leaves the reticle as it was.
- A thrown query leaves the reticle as it was.
- Only an empty result list hides the reticle.

## Model

| member | source | states |
|---|---|---|
| `ArState.Initial` | script.js:104-110 | The state after the top level runs satisfies `Inv`. Orbit mode, nothing requested, no source, reticle hidden, no copies, model present and visible. |
| `ArSession.XrApp.constructor` | script.js:6-7 | The object starts in exactly the `Initial()` state and satisfies the invariant. |
| `ArState.SessionStarted` | script.js:191-207 | Enters AR mode and removes background and plane. A present model gets scale 0.15 and is hidden, with position, rotation and material kept. Status becomes "AR active". Hit-test state, reticle and copies are untouched. |
| `ArSession.XrApp.SessionStart` | script.js:191-207 | The listener updates the fields exactly as `SessionStarted` prescribes and keeps the invariant. |
| `ArState.SessionEnded` | script.js:249-265 | Leaves AR mode and restores background and plane. A present model gets scale 0.5, position (0,0,0) and visible, with rotation and material kept. Status becomes "exited". Hit-test state, reticle and copies are untouched. |
| `ArSession.XrApp.SessionEnd` | script.js:249-265 | The listener updates the fields exactly as `SessionEnded` prescribes and keeps the invariant. |
| `ArState.RequestIfNeeded` | script.js:279-292 | After the guard, `requested` is set. If it was already set, nothing changes. Otherwise the request is now outstanding and nothing else changed. The source is never made ready here. |
| `ArState.SourceSettled` | script.js:281-290 | Settling ends the outstanding request. Success makes the source ready, and a failure leaves it as it was, because it is never cleared. Nothing else changes. |
| `ArSession.XrApp.SourceResolved` | script.js:281-290 | The promise callbacks update the fields exactly as `SourceSettled` prescribes and keep the invariant. |
| `ArState.Polled` | script.js:294-319 | Only reticle visibility, reticle matrix and status can change. A throw or a pose-less first result changes nothing. An empty result list hides the reticle. A first pose shows the reticle with that exact matrix. Status changes only when visibility flips: "found" on hidden to visible, "lost" on visible to hidden. |
| `ArState.FrameEffects` | script.js:268-335 | Each step runs exactly when its condition holds. Controls are updated iff in orbit mode. The model is animated iff in orbit mode with the model present and visible. The request is issued iff a frame arrives in AR and none was made before. The results are polled iff a frame arrives in AR with the source ready. In a reachable state, a request and a poll never happen in the same frame. |
| `ArState.FrameTick` | script.js:268-335 | A frame never changes the mode, the copies, the plane or the background. In orbit mode or without a frame, only the model changes. A visible model spins by 0.02 about y and takes the sway about x. In AR, or with the model hidden or absent, the model is untouched. `requested` becomes set iff a frame arrives in AR. The frame that sets it leaves the request outstanding. A frame never makes the source ready, since only the promise callback can. Before the source exists, reticle and status are untouched. In a reachable state, a frame in AR with a ready source is exactly `Polled`. |
| `ArSession.XrApp.Frame` | script.js:268-335 | The callback updates the fields exactly as `FrameTick` prescribes and reports the calls `FrameEffects` describes. It keeps the invariant. |
| `ArState.CountMeshes` | script.js:229 | The filtered count never exceeds the number of scene children. |
| `ArState.DisplayedCountIsPlaced` | script.js:229 | Scene children are the seven lights, plane, model, reticle, then the copies. Counting the meshes other than model, reticle and plane yields exactly the number of placed copies. |
| `ArState.Selected` | script.js:210-236 | If the reticle is hidden or the model is missing, only the status changes, to the guidance message. Otherwise exactly one copy is appended and the earlier copies stay as they were. The copy takes the reticle's matrix, scale 0.15, visibility and the given hue, and its material differs from every other copy's and from the model's. The status reports the count plus one, and nothing else changes. `Inv` is preserved. |
| `ArSession.XrApp.Select` | script.js:210-236 | The listener updates the fields exactly as `Selected` prescribes and keeps the invariant. |
| `ArTrace.StepPreservesInv` | script.js:191-335 | Every event handler and the frame callback keep `Inv`. An outstanding request is not ready, a ready source was requested, and a visible reticle implies a ready source. Materials stay distinct, and copies keep scale 0.15 and stay visible. |
| `ArTrace.RunPreservesInv` | script.js:191-335 | `Inv` holds after any sequence of events from a state satisfying it. |
| `ArTrace.RequestedNeverCleared` | script.js:249-265 | Once set, `hitTestSourceRequested` stays set through any events, session ends included. |
| `ArTrace.AtMostOneRequest` | script.js:279-292 | Over any run, at most one frame issues the acquisition request, and none does once it was requested. |
| `ArTrace.PlacementsAppendOnly` | script.js:226 | Over any run, the earlier placed copies are a prefix of the later list, so copies are never removed or changed. |
| `ArTrace.ModelPersists` | script.js:104-109 | The reference model, once present, is never removed by any event. |
| `ArTrace.SessionEndRestoresModel` | script.js:249-265 | After any run followed by a session end, the model is at scale 0.5, at the origin and visible, whatever was placed. Copies, reticle visibility and hit-test state are as they were before the end. |
| `ArTrace.SessionEndDiffersFromLoad` | script.js:257-262 | After any sequence of events ending with a session end, the model's scale and position differ from those the cube had at load. |
| `ArSession.Walkthrough` | script.js:191-265 | A scripted session runs on the class: surface found at P1, tap, surface lost, tap, end. It leaves exactly one copy, at P1, and the overlay reports one copy after the first tap. The second tap only shows the guidance message. At the end the reticle is hidden, and the model is shown at scale 0.5 at the origin. |
| `ArSession.SecondSession` | script.js:249-292 | A second session after one that found a surface issues no new request, and it starts with the reticle still visible. |

## Left out

- Renderer, camera, lights, plane, reticle and centre-dot construction (script.js:10-87, 165-188) are configuration. They appear only as the list of scene children the count filters.
- The GLTF loader is commented out (script.js:94, 113-162) and is not part of this model. The window-resize handler (script.js:338-342) is left out too.
- The `requestReferenceSpace` / `requestHitTestSource` promise chain is not modelled as promises. Its outcome is the external `SourceResolved(succeeded)` event, allowed only while a request is outstanding. A rejection at either step leaves the source unset.
- Floating point is not modelled. Scales, positions and rotations are exact reals, so `rotation.y += 0.02` has no rounding.
- `Math.sin(timestamp * 0.001) * 0.1` is the frame's `sway` parameter. `Math.random()` is the `hue` parameter of `Select`. The range of each is not constrained.
- The `timestamp % 1000` log throttle, all console output and the debug `selectstart`/`selectend` listeners (script.js:239-245) are left out.
- Three.js internals are abstract. `model.clone`, `setFromMatrixPosition`, `setFromRotationMatrix`, `Matrix4.fromArray` and `renderer.render` are not modelled: a copy stores the reticle matrix its position and rotation come from, and material cloning is a fresh material identity.
- Shadow flags and the saturation and lightness of the copy's colour are left out.
- `controls` is always set (script.js:29), so the `controls` test at script.js:270 is always true and is not a state field.
- Each `sessionstart` registers a `select` listener on that session. The model has one `Select` event for the running session. Like the handler, `Select` does not check the mode.
