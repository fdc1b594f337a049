/**
 * Signal extraction of the face tracker's frame callback
 * (src/components/canvas/FaceTracker.tsx): blendshape lookup with a zero
 * default, horizontal and vertical gaze, the fixed 0.5 multiplier and the
 * head angles taken from the first facial transformation matrix.
 * Scores are modelled as reals; the code only subtracts, averages and
 * multiplies by constants.
 */
module Gaze {
  import opened Wrappers

  /** One blendshape category reported by the detector. */
  datatype Category = Category(categoryName: string, score: real)

  /** One face landmark point (only how many points a face has is used here). */
  datatype Landmark = Landmark(x: real, y: real, z: real)

  /** The raw data of a 4x4 facial transformation matrix. */
  datatype Matrix = Matrix(data: seq<real>)

  /** Euler angles in radians. */
  datatype Euler = Euler(x: real, y: real, z: real)

  /**
   * What the detector returns for one video frame. An absent list is
   * modelled as the empty list.
   */
  datatype DetectionResult = DetectionResult(
    faceLandmarks: seq<seq<Landmark>>,
    faceBlendshapes: seq<seq<Category>>,
    facialTransformationMatrixes: seq<Matrix>)

  /** The seven arguments of the store update call made for a detected face. */
  datatype FaceUpdate = FaceUpdate(
    leftEyeX: real, leftEyeY: real,
    rightEyeX: real, rightEyeY: real,
    headX: real, headY: real, headZ: real)

  const EyeLookInLeft: string := "eyeLookInLeft"
  const EyeLookOutLeft: string := "eyeLookOutLeft"
  const EyeLookInRight: string := "eyeLookInRight"
  const EyeLookOutRight: string := "eyeLookOutRight"
  const EyeLookUpLeft: string := "eyeLookUpLeft"
  const EyeLookDownLeft: string := "eyeLookDownLeft"
  const EyeLookUpRight: string := "eyeLookUpRight"
  const EyeLookDownRight: string := "eyeLookDownRight"

  const RotationMultiplier: real := 0.5

  /** Index `i` holds the first category named `name`. */
  ghost predicate FirstMatch(shapes: seq<Category>, name: string, i: int)
  {
    0 <= i < |shapes| && shapes[i].categoryName == name &&
    forall j :: 0 <= j < i ==> shapes[j].categoryName != name
  }

  /** No category is named `name`. */
  ghost predicate NoMatch(shapes: seq<Category>, name: string)
  {
    forall i :: 0 <= i < |shapes| ==> shapes[i].categoryName != name
  }

  /** `Array.prototype.find` with the predicate "the category is named `name`". */
  function Find(shapes: seq<Category>, name: string): (r: Option<Category>)
    ensures r.None? <==> NoMatch(shapes, name)
    ensures r.Some? ==> r.value in shapes && r.value.categoryName == name
    ensures forall i :: FirstMatch(shapes, name, i) ==> r == Some(shapes[i])
  {
    if |shapes| == 0 then None
    else if shapes[0].categoryName == name then Some(shapes[0])
    else
      var r := Find(shapes[1..], name);
      assert forall i :: FirstMatch(shapes, name, i) ==> FirstMatch(shapes[1..], name, i - 1);
      r
  }

  /**
   * The score of the first category named `name`, or 0 when there is none;
   * a missing category never fails.
   */
  function GetScore(shapes: seq<Category>, name: string): (r: real)
    ensures NoMatch(shapes, name) ==> r == 0.0
    ensures forall i :: FirstMatch(shapes, name, i) ==> r == shapes[i].score
  {
    match Find(shapes, name)
    case Some(shape) => shape.score
    case None => 0.0
  }

  /**
   * Horizontal gaze: the average of the two eyes' sideways differences. The
   * left eye counts outward minus inward and the right eye inward minus
   * outward, so both are positive when the subject looks to their left.
   */
  function GazeX(shapes: seq<Category>): (r: real)
    ensures ScoresInUnit(shapes) ==> -1.0 <= r <= 1.0
    ensures shapes == [] ==> r == 0.0
  {
    var leftEyeMove := GetScore(shapes, EyeLookOutLeft) - GetScore(shapes, EyeLookInLeft);
    var rightEyeMove := GetScore(shapes, EyeLookInRight) - GetScore(shapes, EyeLookOutRight);
    (leftEyeMove + rightEyeMove) / 2.0
  }

  /** Vertical gaze: the average of the two eyes' up-minus-down differences. */
  function GazeY(shapes: seq<Category>): (r: real)
    ensures ScoresInUnit(shapes) ==> -1.0 <= r <= 1.0
    ensures shapes == [] ==> r == 0.0
  {
    var leftEyeY := GetScore(shapes, EyeLookUpLeft) - GetScore(shapes, EyeLookDownLeft);
    var rightEyeY := GetScore(shapes, EyeLookUpRight) - GetScore(shapes, EyeLookDownRight);
    (leftEyeY + rightEyeY) / 2.0
  }

  /**
   * The categories of the first face's blendshapes, or none when the
   * detector gave no blendshapes, in which case every score reads as 0.
   */
  function BlendshapesOf(result: DetectionResult): (r: seq<Category>)
    ensures |result.faceBlendshapes| > 0 ==> r == result.faceBlendshapes[0]
    ensures |result.faceBlendshapes| == 0 ==> forall name :: GetScore(r, name) == 0.0
  {
    if |result.faceBlendshapes| > 0 then result.faceBlendshapes[0] else []
  }

  /**
   * Head angles: zero unless at least one transformation matrix is present,
   * otherwise the decomposition (three.js, not modelled) of the first one.
   */
  function HeadAngles(result: DetectionResult, decompose: Matrix -> Euler): (r: Euler)
    ensures |result.facialTransformationMatrixes| == 0 ==> r == Euler(0.0, 0.0, 0.0)
    ensures |result.facialTransformationMatrixes| > 0 ==>
              r == decompose(result.facialTransformationMatrixes[0])
  {
    if |result.facialTransformationMatrixes| > 0
    then decompose(result.facialTransformationMatrixes[0])
    else Euler(0.0, 0.0, 0.0)
  }

  /** Every blendshape score lies in [0, 1], as the detector reports them. */
  ghost predicate ScoresInUnit(shapes: seq<Category>)
  {
    forall c :: c in shapes ==> 0.0 <= c.score <= 1.0
  }

  /**
   * The store update issued for a frame in which a face was detected: both
   * eyes receive the same scaled gaze, and the head angles follow.
   */
  function FaceUpdateOf(result: DetectionResult, decompose: Matrix -> Euler): (u: FaceUpdate)
    ensures u.leftEyeX == u.rightEyeX == GazeX(BlendshapesOf(result)) * RotationMultiplier
    ensures u.leftEyeY == u.rightEyeY == GazeY(BlendshapesOf(result)) * RotationMultiplier
    ensures ScoresInUnit(BlendshapesOf(result)) ==>
              -0.5 <= u.leftEyeX <= 0.5 && -0.5 <= u.leftEyeY <= 0.5
    ensures Euler(u.headX, u.headY, u.headZ) == HeadAngles(result, decompose)
    ensures (u.headX, u.headY, u.headZ) != (0.0, 0.0, 0.0) ==>
              |result.facialTransformationMatrixes| > 0
  {
    var shapes := BlendshapesOf(result);
    var gazeX := GazeX(shapes);
    var gazeY := GazeY(shapes);
    var head := HeadAngles(result, decompose);
    FaceUpdate(
      gazeX * RotationMultiplier, gazeY * RotationMultiplier,
      gazeX * RotationMultiplier, gazeY * RotationMultiplier,
      head.x, head.y, head.z)
  }

  // ---------------------------------------------------------------------
  // Properties of the lookup and of the gaze signal
  // ---------------------------------------------------------------------

  /** A looked-up score is a detector score, so it lies in [0, 1] too. */
  lemma GetScoreInUnit(shapes: seq<Category>, name: string)
    requires ScoresInUnit(shapes)
    ensures 0.0 <= GetScore(shapes, name) <= 1.0
  {
  }

  /** The category name of the same eye movement on the other eye. */
  function MirrorName(name: string): string
  {
    if name == EyeLookInLeft then EyeLookInRight
    else if name == EyeLookInRight then EyeLookInLeft
    else if name == EyeLookOutLeft then EyeLookOutRight
    else if name == EyeLookOutRight then EyeLookOutLeft
    else if name == EyeLookUpLeft then EyeLookUpRight
    else if name == EyeLookUpRight then EyeLookUpLeft
    else if name == EyeLookDownLeft then EyeLookDownRight
    else if name == EyeLookDownRight then EyeLookDownLeft
    else name
  }

  /** The same blendshapes with the two eyes' scores exchanged. */
  function Mirror(shapes: seq<Category>): (m: seq<Category>)
    ensures |m| == |shapes|
  {
    if |shapes| == 0 then []
    else [Category(MirrorName(shapes[0].categoryName), shapes[0].score)] + Mirror(shapes[1..])
  }

  /** Mirroring a name twice gives it back, so mirroring is one-to-one. */
  lemma MirrorNameInvolution(name: string)
    ensures MirrorName(MirrorName(name)) == name
  {
  }

  /** Looking up the mirrored name in the mirrored list finds the original score. */
  lemma {:induction false} GetScoreMirror(shapes: seq<Category>, name: string)
    ensures GetScore(Mirror(shapes), MirrorName(name)) == GetScore(shapes, name)
  {
    if |shapes| > 0 {
      var head := shapes[0].categoryName;
      MirrorNameInvolution(head);
      MirrorNameInvolution(name);
      assert MirrorName(head) == MirrorName(name) <==> head == name;
      GetScoreMirror(shapes[1..], name);
      assert Mirror(shapes)[1..] == Mirror(shapes[1..]);
    }
  }

  /**
   * The two eyes' sign conventions are symmetric: exchanging the left and
   * right eyes' scores negates the horizontal gaze and keeps the vertical one.
   */
  lemma GazeMirror(shapes: seq<Category>)
    ensures GazeX(Mirror(shapes)) == -GazeX(shapes)
    ensures GazeY(Mirror(shapes)) == GazeY(shapes)
  {
    GetScoreMirror(shapes, EyeLookInLeft);
    GetScoreMirror(shapes, EyeLookOutLeft);
    GetScoreMirror(shapes, EyeLookInRight);
    GetScoreMirror(shapes, EyeLookOutRight);
    GetScoreMirror(shapes, EyeLookUpLeft);
    GetScoreMirror(shapes, EyeLookDownLeft);
    GetScoreMirror(shapes, EyeLookUpRight);
    GetScoreMirror(shapes, EyeLookDownRight);
  }

  /**
   * A worked frame: out-left 0.8, in-left 0.2, in-right 0.1, out-right 0.9.
   * The left eye moves by 0.6 and the right eye by -0.8, so gazeX is -0.1
   * and the value handed to the store is -0.05.
   */
  lemma WorkedExample()
    ensures var shapes := [Category(EyeLookOutLeft, 0.8), Category(EyeLookInLeft, 0.2),
                           Category(EyeLookInRight, 0.1), Category(EyeLookOutRight, 0.9)];
            GazeX(shapes) == -0.1 && GazeX(shapes) * RotationMultiplier == -0.05 &&
            GazeY(shapes) == 0.0
  {
    var shapes := [Category(EyeLookOutLeft, 0.8), Category(EyeLookInLeft, 0.2),
                   Category(EyeLookInRight, 0.1), Category(EyeLookOutRight, 0.9)];
    assert FirstMatch(shapes, EyeLookOutLeft, 0);
    assert FirstMatch(shapes, EyeLookInLeft, 1);
    assert FirstMatch(shapes, EyeLookInRight, 2);
    assert FirstMatch(shapes, EyeLookOutRight, 3);
    assert NoMatch(shapes, EyeLookUpLeft) && NoMatch(shapes, EyeLookDownLeft);
    assert NoMatch(shapes, EyeLookUpRight) && NoMatch(shapes, EyeLookDownRight);
  }
}
