/** What one WebXR frame offers the kernel: the input sources with their
    gamepads and grip poses, the tracked hands and the camera heading. Grip
    poses are already resolved against the reference space; a source whose
    pose the frame cannot give carries `None`. */
module Input {
  import opened Geometry
  import opened SimState

  /** A gamepad: `buttons[i].pressed` and `axes`. */
  datatype Gamepad = Gamepad(buttons: seq<bool>, axes: seq<real>)

  /** An `XRInputSource`. `handedness` is `None` for `'none'`. */
  datatype InputSource = InputSource(
    handedness: Option<Hand>,
    gamepad: Option<Gamepad>,
    hasGripSpace: bool,
    gripPose: Option<Vec3>)

  /** The two fingertips the pinch test reads from a tracked hand. */
  datatype HandJoints = HandJoints(indexTip: Vec3, thumbTip: Vec3)

  /** One frame. `hasFrame` says whether the renderer delivered a frame and
      `hasReferenceSpace` whether it has a reference space; `hands`
      holds the tracked-hand slots (`hand1`, `hand2`), `None` when the hand
      or one of its two fingertip joints is missing; `cameraHeading` is the
      camera's forward direction flattened to the floor and normalized. */
  datatype Frame = Frame(
    hasFrame: bool,
    hasReferenceSpace: bool,
    sources: seq<InputSource>,
    hands: seq<Option<HandJoints>>,
    cameraHeading: Vec3)

  /** `frame && referenceSpace`: poses can be read in this frame. */
  predicate Available(f: Frame) {
    f.hasFrame && f.hasReferenceSpace
  }

  /** Gamepad button indices the kernel reads. */
  const GripButton: nat := 1
  const AButton: nat := 4
  const BButton: nat := 5
  const XButton: nat := 5

  /** `buttons[i] && buttons[i].pressed`: a missing button reads as released. */
  function Pressed(g: Gamepad, i: nat): (b: bool)
    ensures b ==> i < |g.buttons|
  {
    i < |g.buttons| && g.buttons[i]
  }

  /** The grip pose of a source in this frame, if the frame, the grip space
      and the pose all exist. */
  function GripPose(f: Frame, src: InputSource): (p: Option<Vec3>)
    ensures p.Some? ==> Available(f) && src.hasGripSpace && src.gripPose == p
    ensures Available(f) && src.hasGripSpace ==> p == src.gripPose
  {
    if Available(f) && src.hasGripSpace then src.gripPose else None
  }

  /** A right-handed source with a grip pose this frame. */
  predicate RightWithPose(f: Frame, src: InputSource) {
    src.handedness == Some(Right) && GripPose(f, src).Some?
  }

  /** The scan `for (src of inputSources) if right && gripSpace && pose: break`:
      the grip position of the first right-handed source with a pose. */
  function FirstRightGrip(f: Frame, sources: seq<InputSource>): (p: Option<Vec3>)
    ensures p.Some? <==> exists i :: 0 <= i < |sources| && RightWithPose(f, sources[i])
    ensures p.Some? ==> exists i :: 0 <= i < |sources| && RightWithPose(f, sources[i])
                                    && GripPose(f, sources[i]) == p
                                    && forall k :: 0 <= k < i ==> !RightWithPose(f, sources[k])
    decreases |sources|
  {
    if |sources| == 0 then None
    else if RightWithPose(f, sources[0]) then GripPose(f, sources[0])
    else
      var rest := FirstRightGrip(f, sources[1..]);
      assert forall i :: 1 <= i < |sources| ==> sources[i] == sources[1..][i - 1];
      if rest.Some? then
        var j :| 0 <= j < |sources[1..]| && RightWithPose(f, sources[1..][j])
                 && GripPose(f, sources[1..][j]) == rest
                 && forall k :: 0 <= k < j ==> !RightWithPose(f, sources[1..][k]);
        assert RightWithPose(f, sources[j + 1]);
        rest
      else rest
  }
}
