/**
 * The shared store of src/utils/faceStore.ts: a module-level record holding
 * one rotation pair per eye, overwritten in place by `updateFaceData`.
 * The two eye records are separate objects, so each is a class instance here.
 */
module FaceStore {

  /** One eye's rotation pair: x is vertical (pitch), y is horizontal (yaw). */
  class EyeRotation {
    var x: real
    var y: real

    constructor ()
      ensures x == 0.0 && y == 0.0
    {
      x, y := 0.0, 0.0;
    }
  }

  /** The value of one eye record. */
  datatype Eye = Eye(x: real, y: real)

  /** The value of the whole store. */
  datatype FaceData = FaceData(eyeLeft: Eye, eyeRight: Eye)

  /** The four arguments of one `updateFaceData` call. */
  datatype Write = Write(leftEyeX: real, leftEyeY: real, rightEyeX: real, rightEyeY: real)

  /** The store's value when the module is loaded. */
  const Initial: FaceData := FaceData(Eye(0.0, 0.0), Eye(0.0, 0.0))

  /** The store's value after write `w`, whatever it held before. */
  function Apply(before: FaceData, w: Write): (after: FaceData)
  {
    FaceData(Eye(w.leftEyeX, w.leftEyeY), Eye(w.rightEyeX, w.rightEyeY))
  }

  /** The store's value after a sequence of writes, oldest first. */
  function Replay(start: FaceData, writes: seq<Write>): FaceData
    decreases writes
  {
    if |writes| == 0 then start
    else Replay(Apply(start, writes[0]), writes[1..])
  }

  class Store {
    const eyeLeft: EyeRotation
    const eyeRight: EyeRotation

    /** The two eye records are distinct objects. */
    ghost predicate Valid()
      reads this
    {
      eyeLeft != eyeRight
    }

    /** What a reader of `faceData` sees. */
    function Snapshot(): FaceData
      reads this, eyeLeft, eyeRight
    {
      FaceData(Eye(eyeLeft.x, eyeLeft.y), Eye(eyeRight.x, eyeRight.y))
    }

    /** The module-level `faceData` object: all four fields start at 0. */
    constructor ()
      ensures Valid() && fresh(eyeLeft) && fresh(eyeRight)
      ensures Snapshot() == Initial
    {
      eyeLeft := new EyeRotation();
      eyeRight := new EyeRotation();
    }

    /**
     * `updateFaceData`: the four fields take exactly the given values; no
     * smoothing or clamping happens at this layer.
     */
    method UpdateFaceData(leftEyeX: real, leftEyeY: real, rightEyeX: real, rightEyeY: real)
      requires Valid()
      modifies eyeLeft, eyeRight
      ensures Snapshot() == Apply(old(Snapshot()), Write(leftEyeX, leftEyeY, rightEyeX, rightEyeY))
      ensures eyeLeft.x == leftEyeX && eyeLeft.y == leftEyeY
      ensures eyeRight.x == rightEyeX && eyeRight.y == rightEyeY
    {
      eyeLeft.x := leftEyeX;
      eyeLeft.y := leftEyeY;
      eyeRight.x := rightEyeX;
      eyeRight.y := rightEyeY;
    }
  }

  // ---------------------------------------------------------------------
  // Properties of the write specification
  // ---------------------------------------------------------------------

  /** Read after write: the fields hold exactly the written arguments. */
  lemma ApplyReadsBack(before: FaceData, w: Write)
    ensures Apply(before, w).eyeLeft.x == w.leftEyeX && Apply(before, w).eyeLeft.y == w.leftEyeY
    ensures Apply(before, w).eyeRight.x == w.rightEyeX && Apply(before, w).eyeRight.y == w.rightEyeY
  {
  }

  /** A write does not depend on what the store held before (no smoothing). */
  lemma ApplyForgetsPrior(s: FaceData, t: FaceData, w: Write)
    ensures Apply(s, w) == Apply(t, w)
  {
  }

  /** The last write wins: after any non-empty run of writes only the last one shows. */
  lemma {:induction false} LastWriteWins(start: FaceData, writes: seq<Write>)
    requires |writes| > 0
    ensures Replay(start, writes) == Apply(start, writes[|writes| - 1])
    decreases writes
  {
    if |writes| > 1 {
      LastWriteWins(Apply(start, writes[0]), writes[1..]);
      assert writes[1..][|writes[1..]| - 1] == writes[|writes| - 1];
    }
  }

  /** `updateFaceData` is idempotent: repeating the last write changes nothing. */
  lemma WriteIdempotent(start: FaceData, writes: seq<Write>, w: Write)
    ensures Replay(start, writes + [w, w]) == Replay(start, writes + [w])
  {
    LastWriteWins(start, writes + [w, w]);
    LastWriteWins(start, writes + [w]);
  }

  /**
   * Writing one eye leaves the other eye's record alone: the eye records are
   * separate objects.
   */
  lemma EyesIndependent(before: FaceData, w: Write, w': Write)
    requires w.leftEyeX == w'.leftEyeX && w.leftEyeY == w'.leftEyeY
    ensures Apply(before, w).eyeLeft == Apply(before, w').eyeLeft
  {
  }
}
