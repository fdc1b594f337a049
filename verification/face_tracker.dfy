/**
 * The capture lifecycle and the per-frame callback of the face tracker
 * (src/components/canvas/FaceTracker.tsx).
 *
 * The component keeps two refs: the face landmarker, set once its
 * asynchronous creation resolves, and the camera instance, set the first
 * time the camera is started. A camera-state subscriber starts or stops the
 * camera, and the effect's cleanup unsubscribes, detaches the video source,
 * closes the landmarker and stops the camera. `Lifecycle` is the value of
 * that state and `Step` its transitions; the `FaceTracker` class updates the
 * refs in place and is proved against them.
 */
module Tracker {
  import opened Wrappers
  import Gaze
  import FaceStore

  // ---------------------------------------------------------------------
  // The frame callback's computation
  // ---------------------------------------------------------------------

  /** A frame is processed only when the landmarker exists and the video has a width. */
  predicate FrameGuard(landmarkerReady: bool, videoWidth: int)
  {
    landmarkerReady && videoWidth > 0
  }

  /**
   * The landmark indices the callback draws before it computes the gaze:
   * the ten iris points, four mouth points and the nose tip.
   */
  const DrawnIndices: seq<nat> :=
    [468, 469, 470, 471, 472, 473, 474, 475, 476, 477] + [0, 17, 61, 291] + [1]

  /**
   * Every drawn index names a point of the face. When one does not, reading
   * `point.x` of the missing point throws and the callback stops there.
   */
  predicate Drawable(landmarks: seq<Gaze.Landmark>)
  {
    forall k :: 0 <= k < |DrawnIndices| ==> DrawnIndices[k] < |landmarks|
  }

  /** The drawing succeeds exactly on a face of at least 478 points (the full mesh with irises). */
  lemma DrawableIffFullMesh(landmarks: seq<Gaze.Landmark>)
    ensures Drawable(landmarks) <==> |landmarks| >= 478
  {
    if Drawable(landmarks) {
      assert DrawnIndices[9] == 477;
    }
  }

  /** A frame's drawing throws before the store update. */
  predicate FrameThrows(landmarkerReady: bool, videoWidth: int, result: Gaze.DetectionResult)
  {
    FrameGuard(landmarkerReady, videoWidth) && |result.faceLandmarks| > 0 &&
    !Drawable(result.faceLandmarks[0])
  }

  /**
   * The store write one frame makes, if any: none when the guard fails, when
   * no face was detected or when the drawing throws; otherwise the first four
   * arguments of the update call, the head angles reaching no field of the
   * store.
   */
  function FrameWrite(landmarkerReady: bool, videoWidth: int,
                      result: Gaze.DetectionResult, decompose: Gaze.Matrix -> Gaze.Euler)
    : (w: Option<FaceStore.Write>)
    ensures w.Some? <==>
              FrameGuard(landmarkerReady, videoWidth) && |result.faceLandmarks| > 0 &&
              |result.faceLandmarks[0]| >= 478
    ensures w.Some? ==>
              w.value.leftEyeX == w.value.rightEyeX ==
                Gaze.GazeX(Gaze.BlendshapesOf(result)) * Gaze.RotationMultiplier &&
              w.value.leftEyeY == w.value.rightEyeY ==
                Gaze.GazeY(Gaze.BlendshapesOf(result)) * Gaze.RotationMultiplier
    ensures w.Some? && Gaze.ScoresInUnit(Gaze.BlendshapesOf(result)) ==>
              -0.5 <= w.value.leftEyeX <= 0.5 && -0.5 <= w.value.leftEyeY <= 0.5
  {
    if FrameGuard(landmarkerReady, videoWidth) && |result.faceLandmarks| > 0 then
      DrawableIffFullMesh(result.faceLandmarks[0]);
      if Drawable(result.faceLandmarks[0]) then
        var u := Gaze.FaceUpdateOf(result, decompose);
        Some(FaceStore.Write(u.leftEyeX, u.leftEyeY, u.rightEyeX, u.rightEyeY))
      else
        None
    else
      None
  }

  // ---------------------------------------------------------------------
  // The lifecycle as a value
  // ---------------------------------------------------------------------

  /** The camera ref: empty, or holding an instance that is running or stopped. */
  datatype Slot = Empty | Held(running: bool)

  /**
   * The lifecycle state. `created` counts the camera instances ever
   * constructed.
   */
  datatype Lifecycle = Lifecycle(
    landmarkerReady: bool,
    landmarkerClosed: bool,
    camera: Slot,
    subscribed: bool,
    videoAttached: bool,
    created: nat)

  /** Right after the effect has run: subscribed, landmarker still loading, no camera. */
  const Mounted: Lifecycle := Lifecycle(false, false, Empty, true, true, 0)

  /** The landmarker's asynchronous creation has resolved. */
  function Loaded(s: Lifecycle): Lifecycle
  {
    s.(landmarkerReady := true)
  }

  /** `startCamera`: restart the stored instance, or construct, start and store one. */
  function Started(s: Lifecycle): Lifecycle
  {
    if s.camera.Held? then s.(camera := Held(true))
    else s.(camera := Held(true), created := s.created + 1)
  }

  /** `stop()` on the stored instance; a failing stop leaves it as it was. */
  function Stopped(s: Lifecycle, stopFails: bool): Lifecycle
  {
    if s.camera.Held? && !stopFails then s.(camera := Held(false)) else s
  }

  /** The camera-state subscriber. */
  function Activated(s: Lifecycle, isActive: bool, stopFails: bool): Lifecycle
  {
    if isActive then
      if s.landmarkerReady then Started(s) else s
    else
      if s.camera.Held? then Stopped(s, stopFails) else s
  }

  /** The effect's cleanup. */
  function TornDown(s: Lifecycle, stopFails: bool): Lifecycle
  {
    var t := s.(subscribed := false, videoAttached := false,
                landmarkerClosed := if s.landmarkerReady then true else s.landmarkerClosed);
    if t.camera.Held? then Stopped(t, stopFails) else t
  }

  /** What can happen to the component after it has mounted. */
  datatype Event =
    | LandmarkerCreated
    | CameraState(isActive: bool, stopFails: bool)
    | Unmount(stopFails: bool)

  /**
   * One event. Camera-state events reach the subscriber only while it is
   * subscribed, and the cleanup runs once.
   */
  function Step(s: Lifecycle, e: Event): Lifecycle
  {
    match e
    case LandmarkerCreated => Loaded(s)
    case CameraState(isActive, stopFails) =>
      if s.subscribed then Activated(s, isActive, stopFails) else s
    case Unmount(stopFails) =>
      if s.subscribed then TornDown(s, stopFails) else s
  }

  /** A run of events, oldest first. */
  function Run(s: Lifecycle, events: seq<Event>): Lifecycle
    decreases events
  {
    if |events| == 0 then s else Run(Step(s, events[0]), events[1..])
  }

  /**
   * The lifecycle invariant: a camera has been constructed exactly when the
   * ref holds one, a camera exists only once the landmarker does, and a
   * closed landmarker means the subscriber is gone.
   */
  ghost predicate Inv(s: Lifecycle)
  {
    s.created == (if s.camera.Held? then 1 else 0) &&
    (s.camera.Held? ==> s.landmarkerReady) &&
    (s.landmarkerClosed ==> !s.subscribed)
  }

  // ---------------------------------------------------------------------
  // Properties of the lifecycle
  // ---------------------------------------------------------------------

  /** Every transition keeps the invariant. */
  lemma StepKeepsInv(s: Lifecycle, e: Event)
    requires Inv(s)
    ensures Inv(Step(s, e))
  {
  }

  /** Every run of events keeps the invariant. */
  lemma {:induction false} RunKeepsInv(s: Lifecycle, events: seq<Event>)
    requires Inv(s)
    ensures Inv(Run(s, events))
    decreases events
  {
    if |events| > 0 {
      StepKeepsInv(s, events[0]);
      RunKeepsInv(Step(s, events[0]), events[1..]);
    }
  }

  /** At most one camera instance is ever constructed, whatever happens after mounting. */
  lemma AtMostOneCamera(events: seq<Event>)
    ensures Run(Mounted, events).created <= 1
    ensures Run(Mounted, events).camera.Held? ==> Run(Mounted, events).landmarkerReady
  {
    RunKeepsInv(Mounted, events);
  }

  /** A second start reuses the stored instance and sets it running. */
  lemma RestartReuses(s: Lifecycle)
    requires s.camera.Held?
    ensures Started(s).created == s.created && Started(s).camera == Held(true)
  {
  }

  /**
   * An activation that arrives before the landmarker is ready changes nothing
   * and is not retained: once the landmarker arrives, the state is as if the
   * activation had never happened.
   */
  lemma ActivationBeforeReadyIsDropped(s: Lifecycle, stopFails: bool)
    requires !s.landmarkerReady
    ensures Step(s, CameraState(true, stopFails)) == s
    ensures Run(s, [CameraState(true, stopFails), LandmarkerCreated]) == Run(s, [LandmarkerCreated])
    ensures Run(s, [CameraState(true, stopFails), LandmarkerCreated]).camera == s.camera
  {
    assert Run(s, [CameraState(true, stopFails), LandmarkerCreated])
        == Run(Step(s, CameraState(true, stopFails)), [LandmarkerCreated]);
  }

  /** Once ready and subscribed, an activation leaves the camera running. */
  lemma ActivationWhenReadyStarts(s: Lifecycle, stopFails: bool)
    requires s.landmarkerReady && s.subscribed
    ensures Step(s, CameraState(true, stopFails)).camera == Held(true)
  {
  }

  /**
   * Stopping is safe without a running camera: with no instance, or with a
   * stopped one, a deactivation changes nothing, and a failing stop never
   * changes anything either.
   */
  lemma StopWithoutRunningCameraIsNoOp(s: Lifecycle, stopFails: bool)
    ensures !s.camera.Held? || !s.camera.running || stopFails ==>
              Step(s, CameraState(false, stopFails)) == s
    ensures s.subscribed && s.camera.Held? && !stopFails ==>
              Step(s, CameraState(false, stopFails)).camera == Held(false)
  {
  }

  /**
   * After the cleanup: unsubscribed, video detached, the landmarker closed if
   * it existed, and the camera stopped if it existed and the stop succeeded.
   */
  lemma UnmountReleases(s: Lifecycle, stopFails: bool)
    requires s.subscribed
    ensures var t := Step(s, Unmount(stopFails));
            !t.subscribed && !t.videoAttached &&
            (s.landmarkerReady ==> t.landmarkerClosed) &&
            (s.camera.Held? && !stopFails ==> t.camera == Held(false)) &&
            (s.camera.Empty? ==> t.camera.Empty?) &&
            t.created == s.created
  {
  }

  /**
   * After the cleanup no later event touches the camera: the subscriber is
   * gone, so activations and deactivations no longer arrive.
   */
  lemma {:induction false} AfterUnmountCameraFrozen(s: Lifecycle, events: seq<Event>)
    requires !s.subscribed
    ensures Run(s, events).camera == s.camera
    ensures !Run(s, events).subscribed
    ensures Run(s, events).created == s.created
    ensures Run(s, events).landmarkerClosed == s.landmarkerClosed
    ensures s.landmarkerReady ==> Run(s, events).landmarkerReady
    decreases events
  {
    if |events| > 0 {
      AfterUnmountCameraFrozen(Step(s, events[0]), events[1..]);
    }
  }

  /**
   * A landmarker whose creation resolves after the cleanup is never closed:
   * the cleanup found no landmarker to close, and nothing runs it again.
   */
  lemma LateLandmarkerNeverClosed(stopFails: bool, events: seq<Event>)
    ensures var t := Run(Mounted, [Unmount(stopFails), LandmarkerCreated] + events);
            t.landmarkerReady && !t.landmarkerClosed && !t.subscribed
  {
    var es := [Unmount(stopFails), LandmarkerCreated] + events;
    assert es[0] == Unmount(stopFails) && es[1..][0] == LandmarkerCreated;
    assert es[1..][1..] == events;
    var t := Step(Step(Mounted, Unmount(stopFails)), LandmarkerCreated);
    assert Run(Mounted, es) == Run(t, events);
    AfterUnmountCameraFrozen(t, events);
  }

  // ---------------------------------------------------------------------
  // The component's refs, updated in place
  // ---------------------------------------------------------------------

  /** A camera-utils instance: it is started and stopped in place. */
  class Camera {
    var running: bool

    /** `new Camera(videoElement, { onFrame, width, height })` */
    constructor ()
      ensures !running
    {
      running := false;
    }

    method Start()
      modifies this
      ensures running
    {
      running := true;
    }

    /** `stop()`; `threw` reports the exception a failing stop raises. */
    method Stop(fails: bool) returns (threw: bool)
      modifies this
      ensures threw == fails
      ensures running == (old(running) && fails)
    {
      threw := fails;
      if !fails {
        running := false;
      }
    }
  }

  class FaceTracker {
    /** The shared store the frame callback writes to. */
    const store: FaceStore.Store
    /** `faceLandmarkerRef.current` is set. */
    var landmarkerReady: bool
    /** `close()` has been called on the landmarker. */
    var landmarkerClosed: bool
    /** `cameraInstanceRef.current` */
    var camera: Camera?
    /** The camera-state subscription is live. */
    var subscribed: bool
    /** The cleanup has not yet detached the video (`srcObject = null`). */
    var videoAttached: bool
    ghost var camerasCreated: nat

    ghost function State(): Lifecycle
      reads this, camera
    {
      Lifecycle(landmarkerReady, landmarkerClosed,
                if camera == null then Empty else Held(camera.running),
                subscribed, videoAttached, camerasCreated)
    }

    ghost predicate Valid()
      reads this, camera, store
    {
      store.Valid() && Inv(State())
    }

    /** The effect body: landmarker creation started, subscriber registered. */
    constructor (store: FaceStore.Store)
      requires store.Valid()
      ensures Valid() && this.store == store
      ensures State() == Mounted
    {
      this.store := store;
      landmarkerReady := false;
      landmarkerClosed := false;
      camera := null;
      subscribed := true;
      videoAttached := true;
      camerasCreated := 0;
    }

    /** `setupFaceLandmarker` has resolved and stored the landmarker. */
    method LandmarkerCreated()
      requires Valid()
      modifies this
      ensures Valid() && camera == old(camera)
      ensures State() == Step(old(State()), Event.LandmarkerCreated)
    {
      landmarkerReady := true;
    }

    /** `startCamera`; its one caller calls it only once the landmarker exists. */
    method StartCamera()
      requires Valid() && landmarkerReady
      modifies this, camera
      ensures Valid()
      ensures State() == Started(old(State()))
      ensures old(camera) != null ==> camera == old(camera)
      ensures old(camera) == null ==> fresh(camera)
    {
      if camera != null {
        camera.Start();
        return;
      }
      var c := new Camera();
      c.Start();
      camera := c;
      camerasCreated := camerasCreated + 1;
    }

    /** The callback given to the camera-state subscription. */
    method OnCameraState(isActive: bool, stopFails: bool)
      requires Valid() && subscribed
      modifies this, camera
      ensures Valid()
      ensures State() == Step(old(State()), CameraState(isActive, stopFails))
      ensures old(camera) != null ==> camera == old(camera)
      ensures old(camera) == null ==> camera == null || fresh(camera)
    {
      if isActive {
        if landmarkerReady {
          StartCamera();
        }
      } else {
        if camera != null {
          var _ := camera.Stop(stopFails);
        }
      }
    }

    /** The effect's cleanup function; React runs it once. */
    method Cleanup(stopFails: bool)
      requires Valid() && subscribed
      modifies this, camera
      ensures Valid() && camera == old(camera)
      ensures State() == Step(old(State()), Unmount(stopFails))
    {
      subscribed := false;
      videoAttached := false;
      if landmarkerReady {
        landmarkerClosed := true;
      }
      if camera != null {
        var _ := camera.Stop(stopFails);
      }
    }

    /**
     * The camera's `onFrame` callback, given the video width and the
     * detector's result for the frame. With no face, when the guard fails or
     * when the drawing throws (`threw`), the store keeps its previous values.
     */
    method OnFrame(videoWidth: int, result: Gaze.DetectionResult,
                   decompose: Gaze.Matrix -> Gaze.Euler) returns (threw: bool)
      requires Valid()
      modifies store.eyeLeft, store.eyeRight
      ensures Valid()
      ensures threw == FrameThrows(landmarkerReady, videoWidth, result)
      ensures match FrameWrite(landmarkerReady, videoWidth, result, decompose)
              case Some(w) => store.Snapshot() == FaceStore.Apply(old(store.Snapshot()), w)
              case None => store.Snapshot() == old(store.Snapshot())
    {
      threw := false;
      if landmarkerReady && videoWidth > 0 {
        if |result.faceLandmarks| > 0 {
          var landmarks := result.faceLandmarks[0];
          if !Drawable(landmarks) {
            threw := true;
            return;
          }
          DrawableIffFullMesh(landmarks);
          var u := Gaze.FaceUpdateOf(result, decompose);
          store.UpdateFaceData(u.leftEyeX, u.leftEyeY, u.rightEyeX, u.rightEyeY);
        }
      }
    }
  }
}
