# face-mocap: verified model of the face tracker core

This project models the real logic of the face-mocap web app, which drives a
3D avatar's eyes from webcam face landmarks. The model has three parts.

- **Signal extraction** (module `Gaze`, `gaze.dfy`). The frame callback of
  `src/components/canvas/FaceTracker.tsx` looks up blendshape scores by
  category name and defaults a missing one to 0. It averages the two eyes'
  sideways differences into `gazeX` and their up-minus-down differences into
  `gazeY`, and scales both by `ROTATION_MULTIPLIER = 0.5`. Head angles are 0
  unless a facial transformation matrix is present.
- **Shared store** (module `FaceStore`, `face_store.dfy`). `src/utils/faceStore.ts`
  has a module-level `faceData` record that holds two separate eye objects.
  `updateFaceData` overwrites their four numbers in place. The model is a
  class over two distinct `EyeRotation` objects, plus a value view
  (`Snapshot`, `Apply`, `Replay`).
- **Capture lifecycle and frame guard** (module `Tracker`, `face_tracker.dfy`).
  The component has a landmarker ref, a camera-instance ref, the camera-state
  subscriber, the effect cleanup and the `onFrame` guard. The class
  `FaceTracker` updates the refs in place. `LandmarkerCreated`,
  `OnCameraState` and `Cleanup` are each proved equal to one `Step` of the
  value `Lifecycle`, and `StartCamera` to its helper `Started`. The lemmas
  are proved about `Step` and `Run`. `OnFrame` is proved against
  `FrameWrite` and the store's `Apply`.

The store modelled here is the one in `faceStore.ts`: two eyes, four numbers.
The frame callback calls `updateFaceData` with seven arguments. The model
passes the first four to the store: the scaled gazeX, gazeY, gazeX, gazeY.
The three head angles reach no field of that store. The camera-state
subscription mechanism is not defined in that file. It is modelled as an
abstract source that delivers `isActive` booleans to the subscriber while it
is subscribed.

Four behaviours of the code are worth stating:

- The right eye counts In minus Out, while the left eye counts Out minus In
  (FaceTracker.tsx:168-171). With out-left 0.8, in-left 0.2, in-right 0.1 and
  out-right 0.9, the eyes move by 0.6 and −0.8. So gazeX is −0.1 and the
  stored value is −0.05 (`Gaze.WorkedExample`). The two signs make the
  horizontal gaze symmetric: exchanging the eyes negates it (`Gaze.GazeMirror`).
- An activation that arrives before the landmarker exists is dropped, not
  deferred (FaceTracker.tsx:239-242). The code's comment at lines 43-44 says
  it waits for the subscription to trigger the start
  (`Tracker.ActivationBeforeReadyIsDropped`).
- Suppose the landmarker's creation resolves after the cleanup. That promise
  (FaceTracker.tsx:29) is not cancelled, so the landmarker is stored but
  never closed (`Tracker.LateLandmarkerNeverClosed`).
- The callback draws landmark points 468-477, 0, 17, 61, 291 and 1 before it
  updates the store (FaceTracker.tsx:100-158). On a face with fewer than 478
  points, reading a missing point throws, and the store is not written
  (`Tracker.FrameWrite`, `Tracker.FaceTracker.OnFrame`).

## Model

| member | source | states |
|---|---|---|
| `Gaze.Find` | src/components/canvas/FaceTracker.tsx:164 | `find` returns nothing exactly when no category has the name. Otherwise it returns the first category with that name, which is an element of the list. |
| `Gaze.GetScore` | src/components/canvas/FaceTracker.tsx:163-166 | Returns the score of the first category with the given name, or 0 when none matches. It is total, so a missing category never fails. |
| `Gaze.GetScoreInUnit` | src/components/canvas/FaceTracker.tsx:163-166 | If all detector scores lie in [0,1], a looked-up score does too, including the default 0. |
| `Gaze.GazeX` | src/components/canvas/FaceTracker.tsx:168-172 | If all scores lie in [0,1], gazeX lies in [−1,1]. With no blendshapes it is 0. |
| `Gaze.GazeY` | src/components/canvas/FaceTracker.tsx:174-178 | If all scores lie in [0,1], gazeY lies in [−1,1]. With no blendshapes it is 0. |
| `Gaze.BlendshapesOf` | src/components/canvas/FaceTracker.tsx:92-95 | The lookup uses the first face's categories. When the detector gave no blendshapes, the list is empty and every score reads as 0. |
| `Gaze.GetScoreMirror` | src/components/canvas/FaceTracker.tsx:163-166 | Rename every eye category to the other eye's name. Looking up the renamed name in the renamed list then finds the original score. |
| `Gaze.GazeMirror` | src/components/canvas/FaceTracker.tsx:168-178 | Exchanging the left and right eyes' scores negates gazeX and leaves gazeY unchanged. So the asymmetric per-eye signs make a symmetric horizontal gaze. |
| `Gaze.WorkedExample` | src/components/canvas/FaceTracker.tsx:168-172 | For out-left 0.8, in-left 0.2, in-right 0.1 and out-right 0.9, gazeX is −0.1 and the value handed to the store is −0.05. |
| `Gaze.HeadAngles` | src/components/canvas/FaceTracker.tsx:187-201 | The head angles are (0,0,0) when there is no transformation matrix. Otherwise they are the decomposition of the first matrix. |
| `Gaze.FaceUpdateOf` | src/components/canvas/FaceTracker.tsx:206-215 | Both eyes receive exactly gazeX·0.5 and gazeY·0.5, so the left and right values are equal. If all scores lie in [0,1], each eye value lies in [−0.5,0.5]. The three head arguments are `HeadAngles` of the result, so nonzero head angles imply that a matrix was present. |
| `Tracker.DrawableIffFullMesh` | src/components/canvas/FaceTracker.tsx:100-158 | The drawing reads every drawn point without throwing if and only if the face has at least 478 landmark points. |
| `Tracker.FrameWrite` | src/components/canvas/FaceTracker.tsx:63-215 | A frame writes to the store if and only if the landmarker exists, `videoWidth > 0`, at least one face was detected and that face has at least 478 points. The write holds the scaled gaze, equal for both eyes and within [−0.5,0.5] when the scores are in [0,1]. |
| `Tracker.FaceTracker.OnFrame` | src/components/canvas/FaceTracker.tsx:63-225 | It throws exactly when the guard holds and a face was detected with a point missing from the drawing. When `FrameWrite` gives a write, the store holds exactly its four values afterwards. Otherwise the store keeps its previous values. |
| `Tracker.FaceTracker.constructor` | src/components/canvas/FaceTracker.tsx:235-251 | After the effect body, the subscriber is registered, there is no landmarker yet and no camera instance. The lifecycle invariant holds. |
| `Tracker.FaceTracker.LandmarkerCreated` | src/components/canvas/FaceTracker.tsx:29 | Resolving the landmarker's creation sets its ref and changes nothing else. |
| `Tracker.FaceTracker.StartCamera` | src/components/canvas/FaceTracker.tsx:47-53 | With a stored instance, that same instance is restarted. Otherwise a fresh instance is constructed, started and stored, and the construction count rises by one. |
| `Tracker.FaceTracker.OnCameraState` | src/components/canvas/FaceTracker.tsx:238-251 | The new state is `Step` of the old state with the event. It starts the camera only if the landmarker is ready. It stops the camera only if an instance exists, and a stop failure is swallowed. A camera it stores is either the one already held or a newly constructed one. |
| `Tracker.FaceTracker.Cleanup` | src/components/canvas/FaceTracker.tsx:253-264 | Unsubscribes and detaches the video. Closes the landmarker only if it exists. Stops the camera only if an instance exists, swallowing a failure. |
| `Tracker.Camera.constructor` | src/components/canvas/FaceTracker.tsx:53-230 | A newly constructed camera is not running. |
| `Tracker.Camera.Start` | src/components/canvas/FaceTracker.tsx:231 | After `start()` the camera is running. |
| `Tracker.Camera.Stop` | src/components/canvas/FaceTracker.tsx:246-248 | A successful `stop()` leaves the camera stopped. A failing one throws and leaves it as it was. |
| `Tracker.StepKeepsInv` | src/components/canvas/FaceTracker.tsx:29-264 | Every event keeps the invariant: a camera was constructed exactly when the ref holds one, a camera exists only once the landmarker does, and a closed landmarker means the subscriber is gone. |
| `Tracker.RunKeepsInv` | src/components/canvas/FaceTracker.tsx:29-264 | Every run of events keeps that invariant. |
| `Tracker.AtMostOneCamera` | src/components/canvas/FaceTracker.tsx:47-53 | After mounting, at most one camera instance is ever constructed, whatever events follow. Any instance exists only after the landmarker does. |
| `Tracker.RestartReuses` | src/components/canvas/FaceTracker.tsx:47-51 | A second start constructs nothing and sets the stored instance running. |
| `Tracker.ActivationBeforeReadyIsDropped` | src/components/canvas/FaceTracker.tsx:238-242 | An activation before the landmarker is ready changes nothing. If the landmarker then arrives, the state is the same as if the activation had never happened: the request is not retained. |
| `Tracker.ActivationWhenReadyStarts` | src/components/canvas/FaceTracker.tsx:239-241 | With the landmarker ready, an activation leaves the camera running. |
| `Tracker.StopWithoutRunningCameraIsNoOp` | src/components/canvas/FaceTracker.tsx:243-249 | A deactivation changes nothing when there is no instance, when the instance is already stopped, or when the stop fails. Otherwise it leaves the instance stopped. |
| `Tracker.UnmountReleases` | src/components/canvas/FaceTracker.tsx:253-264 | After cleanup the component is unsubscribed and the video is detached. A ready landmarker is closed. An instance is stopped when the stop succeeds. No camera appears and none is constructed. |
| `Tracker.AfterUnmountCameraFrozen` | src/components/canvas/FaceTracker.tsx:253-254 | After unsubscribing, no later event changes the camera slot, the construction count or whether the landmarker is closed. The subscriber stays gone, and a ready landmarker stays ready. |
| `Tracker.LateLandmarkerNeverClosed` | src/components/canvas/FaceTracker.tsx:29 | If the landmarker arrives after the cleanup, it stays stored and unclosed whatever happens next. |
| `FaceStore.EyeRotation.constructor` | src/utils/faceStore.ts:7-8 | Each eye record starts at x = 0, y = 0. |
| `FaceStore.Store.constructor` | src/utils/faceStore.ts:4-9 | All four store fields start at 0, and the two eye records are distinct objects. |
| `FaceStore.Store.UpdateFaceData` | src/utils/faceStore.ts:12-18 | Afterwards `eyeLeft = (a,b)` and `eyeRight = (c,d)` exactly. Only the two eye records are modified. The right eye's write does not clobber the left eye's, because the records are distinct. |
| `FaceStore.ApplyReadsBack` | src/utils/faceStore.ts:12-18 | Read after write gives back exactly the four written values. |
| `FaceStore.ApplyForgetsPrior` | src/utils/faceStore.ts:12-18 | The state after a write does not depend on the state before it: no smoothing or clamping happens at the store layer. |
| `FaceStore.LastWriteWins` | src/utils/faceStore.ts:12-18 | After any non-empty sequence of writes, the store reflects only the last one. |
| `FaceStore.WriteIdempotent` | src/utils/faceStore.ts:12-18 | Repeating a write leaves the same state as writing once. |
| `FaceStore.EyesIndependent` | src/utils/faceStore.ts:13-17 | The left eye's value after a write depends only on the left-eye arguments. |

## Left out

- Canvas drawing is not modelled as pixels: video mirroring and the iris, mouth and nose dots (FaceTracker.tsx:69-89, 100-158). The model keeps only what the drawing does to control flow. It reads points 468-477, 0, 17, 61, 291 and 1, and it throws before the store update when one is missing (`Drawable`). Which canvas operations ran before the throw is not modelled.
- Scores and gaze values are reals, not IEEE doubles. The bounds (`GazeX`, `GazeY`, `FaceUpdateOf`) and the mirror negation (`GazeMirror`) also hold under double rounding, because rounding is monotone and symmetric. Exact values do not: in doubles, 0.8 − 0.2 is 0.6000000000000001 and the worked example stores −0.04999999999999999. `WorkedExample` holds only in the real model.
- Tracker.Camera.Start: `running` means that a start was requested. `camera.start()` returns a promise that is neither awaited nor caught (FaceTracker.tsx:49, 231). A rejected start, for example a denied camera permission, is not modelled.
- Tracker.FaceTracker.Cleanup: the landmarker's `close()` (FaceTracker.tsx:256-258) is outside any try/catch. If it throws, the camera stop after it is skipped. The model assumes that `close()` succeeds.
- MediaPipe's fileset resolution, landmarker creation and `detectForVideo` are asynchronous foreign calls. Readiness is a boolean set by `LandmarkerCreated`, and the detection result is an input of `OnFrame`. A failure to create the landmarker is not modelled; the source does not handle it either.
- The matrix-to-Euler decomposition is foreign trigonometric code from three.js. It is the function parameter `decompose`.
- The FPS counter depends on the wall clock and its result is never used (FaceTracker.tsx:56-61).
- The eyelid-openness expression is computed and then discarded (FaceTracker.tsx:218-222).
- The effect's early returns when the video or canvas element or the 2D context is missing (FaceTracker.tsx:17-22) are DOM checks. The model starts from a mounted component.
- The camera-state subscription mechanism (`subscribeToCameraState`, `setCameraActive`) is not part of this model, because `faceStore.ts` does not define it. Its events are delivered only while the subscriber is subscribed.
- The frame guard tests only that the landmarker ref is set, as the source does. A frame arriving after `close()` would call a closed landmarker; what the detector does then is not modelled.
- Tracker.Camera.Stop: the model assumes that a failing `stop()` throws before changing the camera. The source only swallows the exception, and what a real failing stop leaves behind is not visible in the code.
- `Avatar.tsx`, `App.tsx`, `MainScreen.tsx` and `ToggleActivateCamera.tsx` are rendering and UI glue. `Avatar.tsx` reads a `head` field that the store does not define.
