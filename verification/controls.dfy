/** Controller and hand interaction (src/controls.js): the right-controller
    buttons, two-grip resizing, grabbing by controller or pinch, and the
    release that either returns the drone to hover or throws it. */
module Controls {
  import opened Geometry
  import opened SimState
  import opened Input
  import opened Formations
  import opened Drone

  /** `a.distanceTo(b)`. */
  function Distance(m: MathLib, a: Vec3, b: Vec3): real {
    Length(m, Sub(a, b))
  }

  // ---------------------------------------------------------------------
  // Right-controller buttons (src/controls.js:93-178)
  // ---------------------------------------------------------------------

  /** The buttons act once start-up is complete and nobody holds or resizes the drone. */
  predicate ButtonsLive(s: Sim) {
    && s.xrSession && s.droneLoaded && s.dronePositioned && s.life.isStartupComplete
    && NoHolder(s.grab)
  }

  /** The A formation switch: the X formation is reset, the A index advances
      modulo 5 and its animation restarts, and every follower is stopped with
      a new reaction delay. */
  function FormationASwitch(s: Sim, delays: seq<real>): (r: Sim)
    requires |delays| >= |s.followers|
    ensures r.form.indexX == 0 && !r.form.animatingX
    ensures r.form.index == (s.form.index + 1) % 5 && 0 <= r.form.index < 5
    ensures r.form.animating && r.form.startTime.None?
    ensures r.form.originalPositions == s.form.originalPositions && r.form.kPositions == s.form.kPositions
    ensures r.followers == ResetFollowers(s.followers, delays)
    ensures r.life == s.life && r.grab == s.grab && r.drone == s.drone && r.auto == s.auto
    ensures r.buttons == s.buttons && r.tuning == s.tuning && r.isFpvMode == s.isFpvMode
  {
    s.(form := s.form.(indexX := 0, animatingX := false, index := (s.form.index + 1) % 5,
                       animating := true, startTime := None),
       followers := ResetFollowers(s.followers, delays))
  }

  /** A B press: ignored in first-person view; otherwise it starts the
      auto-return towards the controller's grip at 1.5 times the maximum
      speed (only if the grip has a pose), or cancels a running one. */
  function BPress(s: Sim, f: Frame, src: InputSource): (r: Sim)
    ensures s.isFpvMode ==> r == s
    ensures !s.isFpvMode && !s.auto.isAutoReturning && GripPose(f, src).Some? ==>
              r.auto == AutoReturn(true, GripPose(f, src).value, s.tuning.maxSpeed * 1.5, Horizontal)
    ensures !s.isFpvMode && !s.auto.isAutoReturning && GripPose(f, src).None? ==> r == s
    ensures !s.isFpvMode && s.auto.isAutoReturning ==>
              r.auto == s.auto.(isAutoReturning := false, phase := Horizontal)
    ensures r.life == s.life && r.grab == s.grab && r.drone == s.drone && r.form == s.form
    ensures r.followers == s.followers && r.buttons == s.buttons && r.tuning == s.tuning
    ensures r.isFpvMode == s.isFpvMode
  {
    if s.isFpvMode then s
    else if !s.auto.isAutoReturning then
      match GripPose(f, src)
      case None => s
      case Some(c) => s.(auto := AutoReturn(true, c, s.tuning.maxSpeed * 1.5, Horizontal))
    else s.(auto := s.auto.(isAutoReturning := false, phase := Horizontal))
  }

  /** A rising edge of the A button. */
  predicate AEdge(s: Sim, src: InputSource) {
    src.gamepad.Some? && Pressed(src.gamepad.value, AButton) && !s.buttons.rightA
  }

  /** A rising edge of the B button. */
  predicate BEdge(s: Sim, src: InputSource) {
    src.gamepad.Some? && Pressed(src.gamepad.value, BButton) && !s.buttons.rightB
  }

  /** The A button's turn: switch on a rising edge, then remember the button. */
  function AButtonTurn(s: Sim, src: InputSource, delays: seq<real>): (r: Sim)
    requires src.gamepad.Some? && |delays| >= |s.followers|
    ensures AEdge(s, src) ==> r.form.index == (s.form.index + 1) % 5 && r.form.animating
                              && r.followers == ResetFollowers(s.followers, delays)
    ensures !AEdge(s, src) ==> r.form == s.form && r.followers == s.followers
    ensures r.buttons == s.buttons.(rightA := Pressed(src.gamepad.value, AButton))
    ensures r.life == s.life && r.grab == s.grab && r.drone == s.drone && r.auto == s.auto
    ensures r.tuning == s.tuning && r.isFpvMode == s.isFpvMode && |r.followers| == |s.followers|
  {
    var a := Pressed(src.gamepad.value, AButton);
    var switched := if AEdge(s, src) then FormationASwitch(s, delays) else s;
    switched.(buttons := switched.buttons.(rightA := a))
  }

  /** The B button's turn: act on a rising edge, then remember the button. */
  function BButtonTurn(s: Sim, f: Frame, src: InputSource): (r: Sim)
    requires src.gamepad.Some?
    ensures BEdge(s, src) ==> r.auto == BPress(s, f, src).auto
    ensures !BEdge(s, src) ==> r.auto == s.auto
    ensures r.buttons == s.buttons.(rightB := Pressed(src.gamepad.value, BButton))
    ensures r.life == s.life && r.grab == s.grab && r.drone == s.drone && r.form == s.form
    ensures r.followers == s.followers && r.tuning == s.tuning && r.isFpvMode == s.isFpvMode
  {
    var b := Pressed(src.gamepad.value, BButton);
    var pressed := if BEdge(s, src) then BPress(s, f, src) else s;
    pressed.(buttons := pressed.buttons.(rightB := b))
  }

  /** One input source's turn: only a right-handed source with a gamepad acts. */
  function RightSource(s: Sim, f: Frame, src: InputSource, delays: seq<real>): (r: Sim)
    requires |delays| >= |s.followers|
    ensures src.handedness != Some(Right) || src.gamepad.None? ==> r == s
    ensures src.handedness == Some(Right) && src.gamepad.Some? ==>
              && r.buttons.rightA == Pressed(src.gamepad.value, AButton)
              && r.buttons.rightB == Pressed(src.gamepad.value, BButton)
              && (AEdge(s, src) ==> r.form.index == (s.form.index + 1) % 5 && r.form.animating)
              && (!AEdge(s, src) ==> r.form == s.form && r.followers == s.followers)
    ensures r.life == s.life && r.grab == s.grab && r.drone == s.drone && |r.followers| == |s.followers|
    ensures r.tuning == s.tuning
  {
    if src.handedness != Some(Right) || src.gamepad.None? then s
    else BButtonTurn(AButtonTurn(s, src, delays), f, src)
  }

  /** The sources of one frame in order. */
  function RightSources(s: Sim, f: Frame, srcs: seq<InputSource>, delays: seq<real>): (r: Sim)
    requires |delays| >= |s.followers|
    ensures r.life == s.life && r.grab == s.grab && r.drone == s.drone && |r.followers| == |s.followers|
    ensures (forall i :: 0 <= i < |srcs| ==> srcs[i].handedness != Some(Right) || srcs[i].gamepad.None?) ==> r == s
    decreases |srcs|
  {
    if |srcs| == 0 then s
    else
      assert forall i :: 1 <= i < |srcs| ==> srcs[i] == srcs[1..][i - 1];
      RightSources(RightSource(s, f, srcs[0], delays), f, srcs[1..], delays)
  }

  /** `handleRightControllerButtons`. `delays` are the reaction-delay draws
      of an A switch. */
  function RightControllerButtons(s: Sim, f: Frame, delays: seq<real>): (r: Sim)
    requires |delays| >= |s.followers|
    ensures !ButtonsLive(s) ==> r == s
    ensures r.life == s.life && r.grab == s.grab && r.drone == s.drone && |r.followers| == |s.followers|
  {
    if !ButtonsLive(s) then s else RightSources(s, f, f.sources, delays)
  }

  /** Holding A does nothing more: with the memory already set, the formation
      and the followers are left alone. */
  lemma HeldAIsInert(s: Sim, f: Frame, src: InputSource, delays: seq<real>)
    requires |delays| >= |s.followers| && s.buttons.rightA
    ensures RightSource(s, f, src, delays).form == s.form
    ensures RightSource(s, f, src, delays).followers == s.followers
  {
  }

  /** Two B presses with a grip pose in between start and then cancel the
      auto-return, leaving its phase at horizontal. */
  lemma BTogglesAutoReturn(s: Sim, f: Frame, src: InputSource)
    requires !s.isFpvMode && !s.auto.isAutoReturning && GripPose(f, src).Some?
    ensures BPress(s, f, src).auto.isAutoReturning
    ensures !BPress(BPress(s, f, src), f, src).auto.isAutoReturning
    ensures BPress(BPress(s, f, src), f, src).auto.phase == Horizontal
  {
  }

  // ---------------------------------------------------------------------
  // Two-grip resize (src/controls.js:288-343)
  // ---------------------------------------------------------------------

  /** What the grips read this frame: per hand, pressed and position. */
  datatype GripReading = GripReading(rightPressed: bool, leftPressed: bool,
                                     rightPos: Option<Vec3>, leftPos: Option<Vec3>)

  const NoGrips: GripReading := GripReading(false, false, None, None)

  /** The scan over the sources: every source with a gamepad, a grip space
      and a pose reports its grip button and position for its hand; a later
      source overrides an earlier one of the same hand. */
  function ReadGrips(f: Frame, srcs: seq<InputSource>, g: GripReading): (r: GripReading)
    ensures (g.rightPressed ==> g.rightPos.Some?) ==> (r.rightPressed ==> r.rightPos.Some?)
    ensures (g.leftPressed ==> g.leftPos.Some?) ==> (r.leftPressed ==> r.leftPos.Some?)
    ensures !Available(f) ==> r == g
    decreases |srcs|
  {
    if |srcs| == 0 then g
    else
      var src := srcs[0];
      var g1 :=
        if src.gamepad.Some? && src.hasGripSpace && GripPose(f, src).Some? then
          var p := Pressed(src.gamepad.value, GripButton);
          if src.handedness == Some(Right) then g.(rightPressed := p, rightPos := GripPose(f, src))
          else if src.handedness == Some(Left) then g.(leftPressed := p, leftPos := GripPose(f, src))
          else g
        else g;
      ReadGrips(f, srcs[1..], g1)
  }

  /** Resizing is possible while nobody holds the drone and it is neither
      starting up nor shutting down. */
  predicate ResizeLive(s: Sim) {
    && s.xrSession && s.droneLoaded && s.dronePositioned
    && !s.grab.isGrabbedByController && !s.grab.isGrabbedByHand
    && !s.life.isStartingUp && !s.life.isShuttingDown
  }

  /** Both grips are held and both controllers have a position. */
  predicate BothHeld(g: GripReading) {
    g.rightPressed && g.leftPressed && g.rightPos.Some? && g.leftPos.Some?
  }

  /** The scale for the current controller distance `d`: the scale at the start
      of the gesture times the ratio of the distances. */
  function ResizeScale(initialScale: real, initialDistance: real, d: real): (k: real)
    requires initialDistance != 0.0
    ensures k * initialDistance == initialScale * d
  {
    initialScale * (d / initialDistance)
  }

  /** `handleSizeChange`. `measuredBox` is the size measured after rescaling.
      The first frame with both grips held records the controller distance
      and the scale; later frames rescale by the distance ratio (a recorded
      distance of 0 leaves the drone as it is); releasing a grip ends the
      gesture. */
  function SizeChange(m: MathLib, s: Sim, f: Frame, measuredBox: Vec3): (r: Sim)
    ensures !ResizeLive(s) ==> r == s
    ensures ResizeLive(s) ==>
              var g := ReadGrips(f, f.sources, NoGrips);
              && r.grab.bothGripsPressed == BothHeld(g)
              && SingleHolder(r.grab)
              && (BothHeld(g) && !s.grab.bothGripsPressed ==>
                    && r.grab.initialControllerDistance == Distance(m, g.rightPos.value, g.leftPos.value)
                    && r.grab.initialDroneScale == s.tuning.currentDroneScale
                    && r.tuning == s.tuning)
              && (BothHeld(g) && s.grab.bothGripsPressed && s.grab.initialControllerDistance != 0.0 ==>
                    var k := ResizeScale(s.grab.initialDroneScale, s.grab.initialControllerDistance,
                                         Distance(m, g.rightPos.value, g.leftPos.value));
                    && r.tuning.currentDroneScale >= MinScale
                    && (k >= MinScale ==> r.tuning.currentDroneScale == k)
                    && r.grab == s.grab)
              && (!BothHeld(g) ==> r.tuning == s.tuning)
    ensures r.life == s.life && r.drone == s.drone
  {
    if !ResizeLive(s) then s
    else
      var g := ReadGrips(f, f.sources, NoGrips);
      if BothHeld(g) then
        var d := Distance(m, g.rightPos.value, g.leftPos.value);
        if !s.grab.bothGripsPressed then
          s.(grab := s.grab.(bothGripsPressed := true, initialControllerDistance := d,
                             initialDroneScale := s.tuning.currentDroneScale))
        else if s.grab.initialControllerDistance == 0.0 then s
        else UpdateDroneScale(m, s, ResizeScale(s.grab.initialDroneScale, s.grab.initialControllerDistance, d),
                              measuredBox)
      else s.(grab := s.grab.(bothGripsPressed := false))
  }

  /** Bringing the controllers back to the distance the gesture started at
      restores the scale the gesture started from. */
  lemma ResizeReturnsToStart(initialScale: real, initialDistance: real)
    requires initialDistance != 0.0
    ensures ResizeScale(initialScale, initialDistance, initialDistance) == initialScale
  {
  }

  // ---------------------------------------------------------------------
  // Release (src/controls.js:474-499, 601-626)
  // ---------------------------------------------------------------------

  /** The frame step the release velocity is measured over. */
  const ReleaseDt: real := 0.016

  /** The throw speed: the last frame's displacement over the frame step. */
  function ReleaseVelocity(s: Sim): (v: Vec3)
    ensures Add(s.previousPosition, Scale(v, ReleaseDt)) == s.drone.position
  {
    var d := Sub(s.drone.position, s.previousPosition);
    var v := Scale(d, 1.0 / ReleaseDt);
    assert Scale(v, ReleaseDt) == d;
    v
  }

  /** The spin given to a thrown drone: each of three draws in [0, 1) maps to
      (draw − 0.5)·3. */
  function ThrowSpin(spin: Vec3): (w: Vec3)
    ensures 0.0 <= spin.x <= 1.0 ==> -1.5 <= w.x <= 1.5
    ensures 0.0 <= spin.y <= 1.0 ==> -1.5 <= w.y <= 1.5
    ensures 0.0 <= spin.z <= 1.0 ==> -1.5 <= w.z <= 1.5
  {
    Vec3((spin.x - 0.5) * 3.0, (spin.y - 0.5) * 3.0, (spin.z - 0.5) * 3.0)
  }

  /** What happens to a released drone: once started up it eases back to
      hover from where it was let go; before start-up it is thrown with the
      velocity of its last frame and a random spin. `spin` holds the three
      `Math.random()` draws. */
  function Release(s: Sim, spin: Vec3): (r: Sim)
    ensures s.life.isStartupComplete ==>
              r.ret == ReturnState(true, 0.0, s.drone.position) && r.motion == s.motion
    ensures !s.life.isStartupComplete ==>
              && r.motion.physicsVelocity == ReleaseVelocity(s)
              && r.motion.physicsAngularVelocity == ThrowSpin(spin)
              && r.motion.velocity == s.motion.velocity && r.ret == s.ret
    ensures r.grab == s.grab && r.life == s.life && r.drone == s.drone && r.tuning == s.tuning
  {
    if s.life.isStartupComplete then
      s.(ret := ReturnState(true, 0.0, s.drone.position))
    else
      s.(motion := s.motion.(physicsVelocity := ReleaseVelocity(s), physicsAngularVelocity := ThrowSpin(spin)))
  }

  /** `handleControllerRelease`. */
  function ControllerRelease(s: Sim, spin: Vec3): (r: Sim)
    ensures r.grab == s.grab.(isGrabbedByController := false, grabbingSource := None)
    ensures r == Release(s.(grab := r.grab), spin)
  {
    Release(s.(grab := s.grab.(isGrabbedByController := false, grabbingSource := None)), spin)
  }

  /** `handleHandRelease`. */
  function HandRelease(s: Sim, spin: Vec3): (r: Sim)
    ensures r.grab == s.grab.(isGrabbedByHand := false, grabbingHand := None)
    ensures r == Release(s.(grab := r.grab), spin)
  {
    Release(s.(grab := s.grab.(isGrabbedByHand := false, grabbingHand := None)), spin)
  }

  // ---------------------------------------------------------------------
  // Controller grab (src/controls.js:346-471)
  // ---------------------------------------------------------------------

  /** How close a grip or a pinch must be to the drone to grab it. */
  const GrabReach: real := 0.08

  /** A controller grab is possible unless a hand holds the drone, a resize
      runs, or the drone is starting up or shutting down. */
  predicate ControllerGrabLive(s: Sim) {
    && s.xrSession && s.droneLoaded && s.dronePositioned
    && !s.grab.isGrabbedByHand && !s.grab.bothGripsPressed
    && !s.life.isStartingUp && !s.life.isShuttingDown
  }

  /** The grip-button memory of one hand. */
  function GripMemory(g: GrabState, h: Hand): bool {
    if h == Right then g.rightGripPressed else g.leftGripPressed
  }

  function SetGripMemory(g: GrabState, h: Hand, v: bool): (r: GrabState)
    ensures GripMemory(r, h) == v
    ensures r == g.(rightGripPressed := r.rightGripPressed, leftGripPressed := r.leftGripPressed)
    ensures h == Right ==> r.leftGripPressed == g.leftGripPressed
    ensures h == Left ==> r.rightGripPressed == g.rightGripPressed
  {
    if h == Right then g.(rightGripPressed := v) else g.(leftGripPressed := v)
  }

  /** A grip within reach takes the drone: it is held by this controller,
      no longer landed, and the offset keeps it where it is. */
  function TakeByController(s: Sim, h: Hand, c: Vec3): (r: Sim)
    ensures r.grab == s.grab.(isGrabbedByController := true, grabbingSource := Some(h),
                              smoothedControllerPosition := c, grabOffset := Sub(s.drone.position, c))
    ensures r.life == s.life.(hasLanded := false)
    ensures r.drone == s.drone && r.motion == s.motion
  {
    s.(grab := s.grab.(isGrabbedByController := true, grabbingSource := Some(h),
                       smoothedControllerPosition := c, grabOffset := Sub(s.drone.position, c)),
       life := s.life.(hasLanded := false))
  }

  /** A grip rising edge on a source with a pose within reach of the drone. */
  predicate GrabsThisFrame(m: MathLib, s: Sim, f: Frame, src: InputSource) {
    && src.gamepad.Some? && src.hasGripSpace && src.handedness.Some?
    && Pressed(src.gamepad.value, GripButton) && !GripMemory(s.grab, src.handedness.value)
    && GripPose(f, src).Some? && Distance(m, s.drone.position, GripPose(f, src).value) < GrabReach
  }

  /** A grip falling edge on the controller that holds the drone. */
  predicate ReleasesThisFrame(s: Sim, src: InputSource) {
    && src.gamepad.Some? && src.hasGripSpace && src.handedness.Some?
    && !Pressed(src.gamepad.value, GripButton) && GripMemory(s.grab, src.handedness.value)
    && s.grab.isGrabbedByController && s.grab.grabbingSource == src.handedness
  }

  /** One source's turn: grab on a rising edge within reach, release on a
      falling edge of the holding controller, and remember the grip. A held
      grip never grabs. */
  function GrabSource(m: MathLib, s: Sim, f: Frame, src: InputSource, spin: Vec3): (r: Sim)
    ensures src.gamepad.None? || !src.hasGripSpace || src.handedness.None? ==> r == s
    ensures GrabsThisFrame(m, s, f, src) ==>
              && r.grab.isGrabbedByController && r.grab.grabbingSource == src.handedness
              && r.grab.grabOffset == Sub(s.drone.position, GripPose(f, src).value)
              && r.grab.smoothedControllerPosition == GripPose(f, src).value
              && !r.life.hasLanded
    ensures ReleasesThisFrame(s, src) ==> !r.grab.isGrabbedByController && r.grab.grabbingSource.None?
    ensures !GrabsThisFrame(m, s, f, src) && !ReleasesThisFrame(s, src) ==>
              r.grab.isGrabbedByController == s.grab.isGrabbedByController
              && r.grab.grabbingSource == s.grab.grabbingSource
    ensures src.gamepad.Some? && src.hasGripSpace && src.handedness.Some? ==>
              GripMemory(r.grab, src.handedness.value) == Pressed(src.gamepad.value, GripButton)
    ensures forall h: Hand :: src.handedness != Some(h) ==> GripMemory(r.grab, h) == GripMemory(s.grab, h)
    ensures !GrabsThisFrame(m, s, f, src) && !ReleasesThisFrame(s, src) ==> OnlyMemory(s, r)
    ensures r.grab.isGrabbedByHand == s.grab.isGrabbedByHand && r.grab.bothGripsPressed == s.grab.bothGripsPressed
    ensures r.drone == s.drone && r.life.isStartupComplete == s.life.isStartupComplete
  {
    if src.gamepad.None? || !src.hasGripSpace || src.handedness.None? then s
    else
      var h := src.handedness.value;
      var p := Pressed(src.gamepad.value, GripButton);
      var s1 := if GrabsThisFrame(m, s, f, src) then TakeByController(s, h, GripPose(f, src).value)
                else if ReleasesThisFrame(s, src) then ControllerRelease(s, spin)
                else s;
      s1.(grab := SetGripMemory(s1.grab, h, p))
  }

  /** The sources of one frame in order. */
  function GrabSources(m: MathLib, s: Sim, f: Frame, srcs: seq<InputSource>, spin: Vec3): (r: Sim)
    ensures r.grab.isGrabbedByHand == s.grab.isGrabbedByHand && r.grab.bothGripsPressed == s.grab.bothGripsPressed
    ensures r.drone == s.drone
    decreases |srcs|
  {
    if |srcs| == 0 then s else GrabSources(m, GrabSource(m, s, f, srcs[0], spin), f, srcs[1..], spin)
  }

  /** The grip position of the first source of the given hand with a grip
      space, standing for the stored grabbing source. */
  function SourceGrip(f: Frame, srcs: seq<InputSource>, h: Hand): (p: Option<Vec3>)
    ensures p.Some? ==> Available(f)
    decreases |srcs|
  {
    if |srcs| == 0 then None
    else if srcs[0].handedness == Some(h) && srcs[0].hasGripSpace then GripPose(f, srcs[0])
    else SourceGrip(f, srcs[1..], h)
  }

  /** The drone placed at the smoothed holder position plus the grab offset,
      with the anchor following and all manual motion stopped. */
  function HeldAt(s: Sim, p: Vec3): (r: Sim)
    ensures r.drone.position == p
    ensures r.drone.basePosition == (if s.drone.basePosition.Some? then Some(p) else None)
    ensures r.motion.velocity == Zero && r.motion.angularVelocity == 0.0
    ensures r.grab == s.grab && r.life == s.life
  {
    s.(drone := s.drone.(position := p,
                         basePosition := if s.drone.basePosition.Some? then Some(p) else None),
       motion := s.motion.(velocity := Zero, angularVelocity := 0.0))
  }

  /** Following the holding controller: the smoothed position moves 30 % of
      the way to the grip, and the drone sits at that plus the grab offset. */
  function ControllerFollow(s: Sim, f: Frame): (r: Sim)
    ensures !s.grab.isGrabbedByController || s.grab.grabbingSource.None? ==> r == s
    ensures s.grab.isGrabbedByController && s.grab.grabbingSource.Some? ==>
              match SourceGrip(f, f.sources, s.grab.grabbingSource.value)
              case None => r == s
              case Some(c) =>
                && r.grab.smoothedControllerPosition
                     == Lerp(s.grab.smoothedControllerPosition, c, ControllerSmoothingFactor)
                && r.drone.position == Add(r.grab.smoothedControllerPosition, s.grab.grabOffset)
                && r.motion.velocity == Zero && r.motion.angularVelocity == 0.0
    ensures r.grab.isGrabbedByController == s.grab.isGrabbedByController
    ensures r.grab.isGrabbedByHand == s.grab.isGrabbedByHand && r.grab.bothGripsPressed == s.grab.bothGripsPressed
  {
    if !s.grab.isGrabbedByController || s.grab.grabbingSource.None? then s
    else
      match SourceGrip(f, f.sources, s.grab.grabbingSource.value)
      case None => s
      case Some(c) => FollowGrip(s, c)
  }

  /** One frame of following the grip at `c`. */
  function FollowGrip(s: Sim, c: Vec3): (r: Sim)
    ensures r.grab == s.grab.(smoothedControllerPosition := Lerp(s.grab.smoothedControllerPosition, c, ControllerSmoothingFactor))
    ensures r.drone.position == Add(r.grab.smoothedControllerPosition, s.grab.grabOffset)
    ensures r.motion.velocity == Zero && r.motion.angularVelocity == 0.0
  {
    var sm := Lerp(s.grab.smoothedControllerPosition, c, ControllerSmoothingFactor);
    HeldAt(s.(grab := s.grab.(smoothedControllerPosition := sm)), Add(sm, s.grab.grabOffset))
  }

  /** `handleControllerGrab`. `spin` holds the draws of a release's throw. */
  function ControllerGrab(m: MathLib, s: Sim, f: Frame, spin: Vec3): (r: Sim)
    ensures !ControllerGrabLive(s) ==> r == s
    ensures ControllerGrabLive(s) ==> SingleHolder(r.grab)
  {
    if !ControllerGrabLive(s) then s else ControllerFollow(GrabSources(m, s, f, f.sources, spin), f)
  }

  /** `r` differs from `s` at most in the two grip memories. */
  predicate OnlyMemory(s: Sim, r: Sim) {
    r == s.(grab := s.grab.(rightGripPressed := r.grab.rightGripPressed, leftGripPressed := r.grab.leftGripPressed))
  }

  lemma OnlyMemoryTransitive(a: Sim, b: Sim, c: Sim)
    requires OnlyMemory(a, b) && OnlyMemory(b, c)
    ensures OnlyMemory(a, c)
  {
  }

  /** At most one input source per hand: WebXR reports one controller, or
      one tracked hand, for each side. */
  predicate OnePerHand(srcs: seq<InputSource>) {
    forall a, b :: 0 <= a < b < |srcs| && srcs[a].handedness.Some? ==> srcs[a].handedness != srcs[b].handedness
  }

  lemma {:induction false} GrabSourcesAppend(m: MathLib, s: Sim, f: Frame, a: seq<InputSource>, b: seq<InputSource>, spin: Vec3)
    ensures GrabSources(m, s, f, a + b, spin) == GrabSources(m, GrabSources(m, s, f, a, spin), f, b, spin)
    decreases |a|
  {
    if |a| == 0 {
      assert a + b == b;
    } else {
      assert (a + b)[0] == a[0] && (a + b)[1..] == a[1..] + b;
      GrabSourcesAppend(m, GrabSource(m, s, f, a[0], spin), f, a[1..], b, spin);
    }
  }

  /** Sources of other hands leave a hand's grip memory alone. */
  lemma {:induction false} GrabSourcesKeepMemory(m: MathLib, s: Sim, f: Frame, srcs: seq<InputSource>, spin: Vec3, h: Hand)
    requires forall k :: 0 <= k < |srcs| ==> srcs[k].handedness != Some(h)
    ensures GripMemory(GrabSources(m, s, f, srcs, spin).grab, h) == GripMemory(s.grab, h)
    decreases |srcs|
  {
    if |srcs| > 0 {
      assert forall k :: 0 <= k < |srcs[1..]| ==> srcs[1..][k] == srcs[k + 1];
      GrabSourcesKeepMemory(m, GrabSource(m, s, f, srcs[0], spin), f, srcs[1..], spin, h);
    }
  }

  /** Whether a source would grab depends only on the drone's position and
      the grip memory of the source's own hand. */
  lemma GrabsAlike(m: MathLib, s: Sim, t: Sim, f: Frame, src: InputSource)
    requires t.drone == s.drone
    requires src.handedness.Some? ==> GripMemory(t.grab, src.handedness.value) == GripMemory(s.grab, src.handedness.value)
    ensures GrabsThisFrame(m, t, f, src) == GrabsThisFrame(m, s, f, src)
  {
  }

  /** While controller `h` holds the drone, sources of the other hands that
      do not grab on this frame (judged against the frame's initial state
      `s0`) neither grab, release nor move anything: only grip memories
      change. */
  lemma {:induction false} OtherSourcesIdle(m: MathLib, s0: Sim, s: Sim, f: Frame, srcs: seq<InputSource>, spin: Vec3, h: Hand)
    requires s.grab.isGrabbedByController && s.grab.grabbingSource == Some(h) && s.drone == s0.drone
    requires OnePerHand(srcs)
    requires forall k :: 0 <= k < |srcs| ==> srcs[k].handedness != Some(h) && !GrabsThisFrame(m, s0, f, srcs[k])
    requires forall k :: 0 <= k < |srcs| && srcs[k].handedness.Some? ==>
               GripMemory(s.grab, srcs[k].handedness.value) == GripMemory(s0.grab, srcs[k].handedness.value)
    ensures OnlyMemory(s, GrabSources(m, s, f, srcs, spin))
    decreases |srcs|
  {
    if |srcs| > 0 {
      var src := srcs[0];
      var tail := srcs[1..];
      assert forall k :: 0 <= k < |tail| ==> tail[k] == srcs[k + 1];
      GrabsAlike(m, s0, s, f, src);
      var s1 := GrabSource(m, s, f, src, spin);
      assert OnlyMemory(s, s1);
      forall k | 0 <= k < |tail| && tail[k].handedness.Some?
        ensures GripMemory(s1.grab, tail[k].handedness.value) == GripMemory(s0.grab, tail[k].handedness.value)
      {
        assert srcs[0].handedness.Some? ==> srcs[0].handedness != srcs[k + 1].handedness;
      }
      OtherSourcesIdle(m, s0, s1, f, tail, spin, h);
      OnlyMemoryTransitive(s, s1, GrabSources(m, s1, f, tail, spin));
    }
  }

  /** With one source per hand, the grip followed for hand `h` is that of
      the source of hand `h`. */
  lemma {:induction false} SourceGripOfHand(f: Frame, srcs: seq<InputSource>, i: nat, h: Hand)
    requires OnePerHand(srcs) && i < |srcs| && srcs[i].handedness == Some(h) && srcs[i].hasGripSpace
    ensures SourceGrip(f, srcs, h) == GripPose(f, srcs[i])
    decreases |srcs|
  {
    if i > 0 {
      var tail := srcs[1..];
      assert forall a, b :: 0 <= a < b < |tail| && tail[a].handedness.Some? ==> tail[a].handedness != tail[b].handedness by {
        forall a, b | 0 <= a < b < |tail| && tail[a].handedness.Some?
          ensures tail[a].handedness != tail[b].handedness
        {
          assert tail[a] == srcs[a + 1] && tail[b] == srcs[b + 1];
        }
      }
      assert srcs[0].handedness.Some? ==> srcs[0].handedness != srcs[i].handedness;
      SourceGripOfHand(f, tail, i - 1, h);
    }
  }

  /** The frame's sources as those before source `i`, source `i`, and
      those after it. */
  lemma SplitSources(m: MathLib, s: Sim, f: Frame, i: nat, spin: Vec3)
    requires i < |f.sources|
    ensures GrabSources(m, s, f, f.sources, spin)
            == GrabSources(m, GrabSource(m, GrabSources(m, s, f, f.sources[..i], spin), f, f.sources[i], spin),
                           f, f.sources[i + 1..], spin)
  {
    var pre := f.sources[..i];
    var post := f.sources[i + 1..];
    assert f.sources == pre + [f.sources[i]] + post;
    GrabSourcesAppend(m, s, f, pre + [f.sources[i]], post, spin);
    GrabSourcesAppend(m, s, f, pre, [f.sources[i]], spin);
  }

  /** With one source per hand, the sources before `i` leave the grip
      memories of source `i` and of every later source as they were. */
  lemma PrefixKeepsMemory(m: MathLib, s: Sim, f: Frame, i: nat, spin: Vec3)
    requires OnePerHand(f.sources) && i < |f.sources|
    ensures var s1 := GrabSources(m, s, f, f.sources[..i], spin);
            && s1.drone == s.drone
            && forall k :: i <= k < |f.sources| && f.sources[k].handedness.Some? ==>
                 GripMemory(s1.grab, f.sources[k].handedness.value) == GripMemory(s.grab, f.sources[k].handedness.value)
  {
    var pre := f.sources[..i];
    forall k | i <= k < |f.sources| && f.sources[k].handedness.Some?
      ensures GripMemory(GrabSources(m, s, f, pre, spin).grab, f.sources[k].handedness.value)
              == GripMemory(s.grab, f.sources[k].handedness.value)
    {
      forall n | 0 <= n < |pre| ensures pre[n].handedness != f.sources[k].handedness {
        assert pre[n] == f.sources[n];
        assert f.sources[n].handedness.Some? ==> f.sources[n].handedness != f.sources[k].handedness;
      }
      GrabSourcesKeepMemory(m, s, f, pre, spin, f.sources[k].handedness.value);
    }
  }

  /** The sources after `i` of a frame with one source per hand, none of
      which grabs: they leave a drone held by source `i`'s hand alone. */
  lemma SuffixIdle(m: MathLib, s0: Sim, s: Sim, f: Frame, i: nat, spin: Vec3)
    requires OnePerHand(f.sources) && i < |f.sources| && f.sources[i].handedness.Some?
    requires s.grab.isGrabbedByController && s.grab.grabbingSource == f.sources[i].handedness && s.drone == s0.drone
    requires forall k :: i < k < |f.sources| ==> !GrabsThisFrame(m, s0, f, f.sources[k])
    requires forall k :: i < k < |f.sources| && f.sources[k].handedness.Some? ==>
               GripMemory(s.grab, f.sources[k].handedness.value) == GripMemory(s0.grab, f.sources[k].handedness.value)
    ensures OnlyMemory(s, GrabSources(m, s, f, f.sources[i + 1..], spin))
  {
    var post := f.sources[i + 1..];
    assert forall k :: 0 <= k < |post| ==> post[k] == f.sources[i + 1 + k];
    forall k | 0 <= k < |post| ensures post[k].handedness != f.sources[i].handedness {
      assert f.sources[i].handedness != f.sources[i + 1 + k].handedness;
    }
    assert OnePerHand(post) by {
      forall a, b | 0 <= a < b < |post| && post[a].handedness.Some?
        ensures post[a].handedness != post[b].handedness
      {
        assert post[a] == f.sources[i + 1 + a] && post[b] == f.sources[i + 1 + b];
      }
    }
    OtherSourcesIdle(m, s0, s, f, post, spin, f.sources[i].handedness.value);
  }

  /** After the sources of a frame in which source `i` grabs and no later
      source does: held by source `i`'s hand, at offset drone − grip from a
      smoothed point at the grip, no longer landed, drone not yet moved. */
  lemma GrabbedAfterSources(m: MathLib, s: Sim, f: Frame, i: nat, spin: Vec3)
    requires OnePerHand(f.sources) && i < |f.sources|
    requires GrabsThisFrame(m, s, f, f.sources[i])
    requires forall k :: i < k < |f.sources| ==> !GrabsThisFrame(m, s, f, f.sources[k])
    ensures var g := GrabSources(m, s, f, f.sources, spin);
            var c := GripPose(f, f.sources[i]).value;
            && g.grab.isGrabbedByController && g.grab.grabbingSource == f.sources[i].handedness
            && g.grab.smoothedControllerPosition == c
            && g.grab.grabOffset == Sub(s.drone.position, c)
            && g.drone == s.drone && !g.life.hasLanded
  {
    var src := f.sources[i];
    SplitSources(m, s, f, i, spin);
    PrefixKeepsMemory(m, s, f, i, spin);
    var s1 := GrabSources(m, s, f, f.sources[..i], spin);
    GrabsAlike(m, s, s1, f, src);
    var s2 := GrabSource(m, s1, f, src, spin);
    SuffixIdle(m, s, s2, f, i, spin);
  }

  /** Following from the grab point: the drone stays at smoothed point plus
      offset, with both velocities zeroed. */
  lemma FollowFromGrab(s: Sim, f: Frame, c: Vec3, p: Vec3)
    requires s.grab.isGrabbedByController && s.grab.grabbingSource.Some?
    requires SourceGrip(f, f.sources, s.grab.grabbingSource.value) == Some(c)
    requires s.grab.smoothedControllerPosition == c && s.grab.grabOffset == Sub(p, c)
    ensures var r := ControllerFollow(s, f);
            && r.drone.position == p && r.grab.isGrabbedByController && r.grab.grabbingSource == s.grab.grabbingSource
            && r.motion.velocity == Zero && r.motion.angularVelocity == 0.0 && r.life == s.life
  {
    assert ControllerFollow(s, f) == FollowGrip(s, c);
    StayAtGrab(c, p, ControllerSmoothingFactor);
  }

  /** Smoothing toward the point already reached stays there, and adding
      back the offset from that point gives the original position. */
  lemma StayAtGrab(c: Vec3, p: Vec3, t: real)
    ensures Lerp(c, c, t) == c
    ensures Add(Lerp(c, c, t), Sub(p, c)) == p
  {
  }

  /** Grabbing does not move the drone: on the frame of the grab the smoothed
      position is the grip itself and the offset is taken from it, so the
      drone stays where it was, now held by that controller and with all
      manual motion stopped. Sources before it may do anything; sources
      after it, of the other hand, do not grab. */
  lemma ControllerGrabKeepsPosition(m: MathLib, s: Sim, f: Frame, i: nat, spin: Vec3)
    requires ControllerGrabLive(s) && OnePerHand(f.sources) && i < |f.sources|
    requires GrabsThisFrame(m, s, f, f.sources[i])
    requires forall k :: i < k < |f.sources| ==> !GrabsThisFrame(m, s, f, f.sources[k])
    ensures var r := ControllerGrab(m, s, f, spin);
            && r.grab.isGrabbedByController && r.grab.grabbingSource == f.sources[i].handedness
            && r.drone.position == s.drone.position
            && r.motion.velocity == Zero && r.motion.angularVelocity == 0.0
            && !r.life.hasLanded
  {
    GrabbedAfterSources(m, s, f, i, spin);
    SourceGripOfHand(f, f.sources, i, f.sources[i].handedness.value);
    FollowFromGrab(GrabSources(m, s, f, f.sources, spin), f, GripPose(f, f.sources[i]).value, s.drone.position);
  }

  /** Holding on: while controller `h` keeps its grip pressed and no source
      of the other hand grabs (judged against the frame's initial state
      `s0`), every source leaves the drone held by `h`. */
  lemma {:induction false} HoldFold(m: MathLib, s0: Sim, s: Sim, f: Frame, srcs: seq<InputSource>, spin: Vec3, h: Hand)
    requires s.grab.isGrabbedByController && s.grab.grabbingSource == Some(h) && s.drone == s0.drone
    requires OnePerHand(srcs)
    requires forall k :: 0 <= k < |srcs| && srcs[k].handedness == Some(h) && srcs[k].gamepad.Some? ==>
               Pressed(srcs[k].gamepad.value, GripButton)
    requires forall k :: 0 <= k < |srcs| && srcs[k].handedness != Some(h) ==> !GrabsThisFrame(m, s0, f, srcs[k])
    requires forall k :: 0 <= k < |srcs| && srcs[k].handedness.Some? && srcs[k].handedness != Some(h) ==>
               GripMemory(s.grab, srcs[k].handedness.value) == GripMemory(s0.grab, srcs[k].handedness.value)
    ensures var r := GrabSources(m, s, f, srcs, spin);
            r.grab.isGrabbedByController && r.grab.grabbingSource == Some(h) && r.drone == s.drone
    decreases |srcs|
  {
    if |srcs| > 0 {
      var src := srcs[0];
      var tail := srcs[1..];
      assert forall k :: 0 <= k < |tail| ==> tail[k] == srcs[k + 1];
      if src.handedness != Some(h) {
        GrabsAlike(m, s0, s, f, src);
      }
      var s1 := GrabSource(m, s, f, src, spin);
      assert s1.grab.isGrabbedByController && s1.grab.grabbingSource == Some(h);
      forall k | 0 <= k < |tail| && tail[k].handedness.Some? && tail[k].handedness != Some(h)
        ensures GripMemory(s1.grab, tail[k].handedness.value) == GripMemory(s0.grab, tail[k].handedness.value)
      {
        assert srcs[0].handedness.Some? ==> srcs[0].handedness != srcs[k + 1].handedness;
      }
      HoldFold(m, s0, s1, f, tail, spin, h);
    }
  }

  /** A drone held by controller `h` is zeroed on every frame in which that
      controller keeps its grip pressed, reports a grip pose, and no other
      controller grabs: it stays held by `h`, sits at the smoothed point plus
      the grab offset, and has no velocity or angular velocity. */
  lemma ControllerHoldZeroes(m: MathLib, s: Sim, f: Frame, h: Hand, spin: Vec3)
    requires ControllerGrabLive(s) && s.grab.isGrabbedByController && s.grab.grabbingSource == Some(h)
    requires OnePerHand(f.sources) && SourceGrip(f, f.sources, h).Some?
    requires forall k :: 0 <= k < |f.sources| && f.sources[k].handedness == Some(h) && f.sources[k].gamepad.Some? ==>
               Pressed(f.sources[k].gamepad.value, GripButton)
    requires forall k :: 0 <= k < |f.sources| && f.sources[k].handedness != Some(h) ==> !GrabsThisFrame(m, s, f, f.sources[k])
    ensures var r := ControllerGrab(m, s, f, spin);
            && r.grab.isGrabbedByController && r.grab.grabbingSource == Some(h)
            && r.drone.position == Add(r.grab.smoothedControllerPosition, r.grab.grabOffset)
            && r.motion.velocity == Zero && r.motion.angularVelocity == 0.0
  {
    HoldFold(m, s, s, f, f.sources, spin, h);
    var g := GrabSources(m, s, f, f.sources, spin);
    assert ControllerFollow(g, f) == FollowGrip(g, SourceGrip(f, f.sources, h).value);
  }

  // ---------------------------------------------------------------------
  // Hand grab (src/controls.js:502-598)
  // ---------------------------------------------------------------------

  /** Fingertips closer than this pinch. */
  const PinchDistance: real := 0.025

  /** A hand grab is possible unless a controller holds the drone, a resize
      runs, or the drone is starting up or shutting down, and only with a frame. */
  predicate HandGrabLive(s: Sim, f: Frame) {
    && s.xrSession && s.droneLoaded && s.dronePositioned
    && !s.grab.isGrabbedByController && !s.grab.bothGripsPressed
    && !s.life.isStartingUp && !s.life.isShuttingDown && f.hasFrame
  }

  /** The point between the two fingertips. */
  function PinchCenter(j: HandJoints): Vec3 {
    Scale(Add(j.indexTip, j.thumbTip), 0.5)
  }

  predicate Pinching(m: MathLib, j: HandJoints) {
    Distance(m, j.indexTip, j.thumbTip) < PinchDistance
  }

  /** A pinch within reach while no hand holds the drone: the grab is
      level-triggered, so a pinch held while moving into reach also grabs. */
  predicate HandTakes(m: MathLib, s: Sim, j: HandJoints) {
    Pinching(m, j) && !s.grab.isGrabbedByHand && Distance(m, PinchCenter(j), s.drone.position) < GrabReach
  }

  /** The hand in slot `i` lets go. */
  predicate HandLetsGo(m: MathLib, s: Sim, i: nat, j: HandJoints) {
    !Pinching(m, j) && s.grab.isGrabbedByHand && s.grab.grabbingHand == Some(i)
  }

  function TakeByHand(s: Sim, i: nat, c: Vec3): (r: Sim)
    ensures r.grab == s.grab.(isGrabbedByHand := true, grabbingHand := Some(i),
                              grabOffset := Sub(s.drone.position, c), smoothedHandPosition := c)
    ensures r.life == s.life.(hasLanded := false) && r.drone == s.drone
  {
    s.(grab := s.grab.(isGrabbedByHand := true, grabbingHand := Some(i),
                       grabOffset := Sub(s.drone.position, c), smoothedHandPosition := c),
       life := s.life.(hasLanded := false))
  }

  /** Following the holding hand. */
  function HandFollow(s: Sim, c: Vec3): (r: Sim)
    ensures r.grab == s.grab.(smoothedHandPosition := Lerp(s.grab.smoothedHandPosition, c, HandSmoothingFactor))
    ensures r.drone.position == Add(r.grab.smoothedHandPosition, s.grab.grabOffset)
    ensures r.motion.velocity == Zero && r.motion.angularVelocity == 0.0
  {
    var sm := Lerp(s.grab.smoothedHandPosition, c, HandSmoothingFactor);
    HeldAt(s.(grab := s.grab.(smoothedHandPosition := sm)), Add(sm, s.grab.grabOffset))
  }

  /** One tracked hand's turn: grab, release, then follow while it holds. */
  function HandSlot(m: MathLib, s: Sim, i: nat, j: HandJoints, spin: Vec3): (r: Sim)
    ensures HandTakes(m, s, j) ==>
              && r.grab.isGrabbedByHand && r.grab.grabbingHand == Some(i)
              && r.drone.position == s.drone.position && !r.life.hasLanded
    ensures HandLetsGo(m, s, i, j) ==> !r.grab.isGrabbedByHand && r.grab.grabbingHand.None?
    ensures !HandTakes(m, s, j) && !HandLetsGo(m, s, i, j) ==>
              r.grab.isGrabbedByHand == s.grab.isGrabbedByHand && r.grab.grabbingHand == s.grab.grabbingHand
    ensures r.grab.isGrabbedByHand && r.grab.grabbingHand == Some(i) ==>
              r.motion.velocity == Zero && r.motion.angularVelocity == 0.0
    ensures (!HandTakes(m, s, j) && !HandLetsGo(m, s, i, j)
             && !(s.grab.isGrabbedByHand && s.grab.grabbingHand == Some(i))) ==> r == s
    ensures r.grab.isGrabbedByController == s.grab.isGrabbedByController
    ensures r.grab.bothGripsPressed == s.grab.bothGripsPressed
  {
    var c := PinchCenter(j);
    var s1 := if HandTakes(m, s, j) then TakeByHand(s, i, c)
              else if HandLetsGo(m, s, i, j) then HandRelease(s, spin)
              else s;
    assert HandTakes(m, s, j) ==> Lerp(c, c, HandSmoothingFactor) == c
                                  && Add(c, Sub(s.drone.position, c)) == s.drone.position;
    if s1.grab.isGrabbedByHand && s1.grab.grabbingHand == Some(i) then HandFollow(s1, c) else s1
  }

  /** The tracked-hand slots from `i` on. */
  function HandSlots(m: MathLib, s: Sim, hands: seq<Option<HandJoints>>, i: nat, spin: Vec3): (r: Sim)
    ensures r.grab.isGrabbedByController == s.grab.isGrabbedByController
    ensures r.grab.bothGripsPressed == s.grab.bothGripsPressed
    decreases |hands| - i
  {
    if i >= |hands| then s
    else
      var s1 := if hands[i].Some? then HandSlot(m, s, i, hands[i].value, spin) else s;
      HandSlots(m, s1, hands, i + 1, spin)
  }

  /** `handleHandGrab`. */
  function HandGrab(m: MathLib, s: Sim, f: Frame, spin: Vec3): (r: Sim)
    ensures !HandGrabLive(s, f) ==> r == s
    ensures HandGrabLive(s, f) ==> SingleHolder(r.grab)
  {
    if !HandGrabLive(s, f) then s else HandSlots(m, s, f.hands, 0, spin)
  }

  /** Slots without a tracked hand do nothing. */
  lemma {:induction false} EmptySlotsSkipped(m: MathLib, s: Sim, hands: seq<Option<HandJoints>>, i: nat, k: nat, spin: Vec3)
    requires k <= i <= |hands|
    requires forall n :: k <= n < i ==> hands[n].None?
    ensures HandSlots(m, s, hands, k, spin) == HandSlots(m, s, hands, i, spin)
    decreases i - k
  {
    if k < i {
      EmptySlotsSkipped(m, s, hands, i, k + 1, spin);
    }
  }

  /** Once the hand in slot `h` holds the drone, the later slots leave the
      state alone: none of them can grab, release or follow. */
  lemma {:induction false} LaterHandsIdle(m: MathLib, s: Sim, hands: seq<Option<HandJoints>>, h: nat, k: nat, spin: Vec3)
    requires s.grab.isGrabbedByHand && s.grab.grabbingHand == Some(h) && h < k
    ensures HandSlots(m, s, hands, k, spin) == s
    decreases |hands| - k
  {
    if k < |hands| {
      if hands[k].Some? {
        assert !HandTakes(m, s, hands[k].value);
        assert !HandLetsGo(m, s, k, hands[k].value);
      }
      LaterHandsIdle(m, s, hands, h, k + 1, spin);
    }
  }

  /** A live frame where the first tracked hand pinches within reach of a
      drone no hand holds: that hand takes the drone, which stays where it
      was with all manual motion stopped and is no longer landed. */
  lemma HandGrabTakes(m: MathLib, s: Sim, f: Frame, i: nat, j: HandJoints, spin: Vec3)
    requires HandGrabLive(s, f) && i < |f.hands| && f.hands[i] == Some(j)
    requires forall n :: 0 <= n < i ==> f.hands[n].None?
    requires HandTakes(m, s, j)
    ensures var r := HandGrab(m, s, f, spin);
            && r.grab.isGrabbedByHand && r.grab.grabbingHand == Some(i)
            && r.drone.position == s.drone.position
            && r.motion.velocity == Zero && r.motion.angularVelocity == 0.0
            && !r.life.hasLanded
  {
    EmptySlotsSkipped(m, s, f.hands, i, 0, spin);
    var s1 := HandSlot(m, s, i, j, spin);
    LaterHandsIdle(m, s1, f.hands, i, i + 1, spin);
  }

  /** Whoever let go, a released drone that had started up returns to hover
      from the release point with progress 0. */
  lemma ReleaseStartsReturn(s: Sim, spin: Vec3)
    requires s.life.isStartupComplete
    ensures ControllerRelease(s, spin).ret == ReturnState(true, 0.0, s.drone.position)
    ensures HandRelease(s, spin).ret == ReturnState(true, 0.0, s.drone.position)
    ensures !ControllerRelease(s, spin).grab.isGrabbedByController
    ensures !HandRelease(s, spin).grab.isGrabbedByHand
  {
  }
}
