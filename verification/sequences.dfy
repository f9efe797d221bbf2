/** The start-up and shut-down lifecycle: the X-button start trigger and the
    X-button formation switch (src/controls.js:186-285), the propeller ramp,
    the lift start (src/main.js:242-278) and the deceleration that ends a
    landing (src/main.js:281-331). The lift and descent control loops live in
    the flight module, which runs them inside the manual-flight step. */
module Sequences {
  import opened Geometry
  import opened SimState
  import opened Input
  import opened Formations

  // ---------------------------------------------------------------------
  // Propeller ramp
  // ---------------------------------------------------------------------

  /** Duration of the propeller spin-up and of the deceleration, in ms. */
  const RampDuration: int := 2000

  /** `Math.min(elapsed / 2000, 1)`: the ramp progress after `elapsed` ms. */
  function RampProgress(elapsed: int): (p: real)
    ensures p <= 1.0
    ensures elapsed >= 0 ==> 0.0 <= p
    ensures p == 1.0 <==> elapsed >= RampDuration
    ensures elapsed < RampDuration ==> p * 2000.0 == elapsed as real
  {
    Min(elapsed as real / 2000.0, 1.0)
  }

  /** The ramp never goes back: later means at least as far along. */
  lemma RampMonotone(e1: int, e2: int)
    requires e1 <= e2
    ensures RampProgress(e1) <= RampProgress(e2)
  {
  }

  /** The spin-up timer's multiplier `elapsed / 2000` capped at 1: within
      [0, 1] once started, and full after two seconds. */
  function SpinUpMultiplier(elapsed: int): (k: real)
    ensures elapsed >= 0 ==> 0.0 <= k <= 1.0
    ensures k == 1.0 <==> elapsed >= RampDuration
  {
    RampProgress(elapsed)
  }

  // ---------------------------------------------------------------------
  // Left-controller X button (src/controls.js:186-285)
  // ---------------------------------------------------------------------

  /** The start trigger: an X rising edge while the drone is placed and
      neither running, starting nor shutting down. */
  predicate StartTriggered(s: Sim, x: bool) {
    && x && !s.buttons.leftX
    && !s.life.isStartupComplete && !s.life.isStartingUp && !s.life.isShuttingDown
    && s.dronePositioned
  }

  /** The X formation switch: an X rising edge (against its own memory) once
      running and not shutting down. */
  predicate XSwitchTriggered(s: Sim, x: bool) {
    x && !s.buttons.leftXForFormation && s.life.isStartupComplete && !s.life.isShuttingDown
  }

  /** The X formation switch: the A formation is reset to its first entry,
      the X index advances modulo 5 and its animation restarts, and every
      follower is stopped with a new reaction delay. */
  function XFormationSwitch(s: Sim, delays: seq<real>): (r: Sim)
    requires |delays| >= |s.followers|
    ensures r.form.index == 0 && !r.form.animating
    ensures r.form.indexX == (s.form.indexX + 1) % 5 && 0 <= r.form.indexX < 5
    ensures r.form.animatingX && r.form.startTimeX.None? && r.form.animationTimeX == 0.0
    ensures r.followers == ResetFollowers(s.followers, delays)
    ensures r.life == s.life && r.drone == s.drone && r.buttons == s.buttons && r.dronePositioned == s.dronePositioned
    ensures r.xrSession == s.xrSession && r.droneSoundReady == s.droneSoundReady
  {
    s.(form := s.form.(index := 0, animating := false,
                       indexX := (s.form.indexX + 1) % 5, animatingX := true,
                       startTimeX := None, animationTimeX := 0.0),
       followers := ResetFollowers(s.followers, delays))
  }

  /** One input source's turn in `handleStartupSequence`. Only a left-handed
      source with a gamepad acts: it may start the drone, may switch the X
      formation, and records the X button in both memories. */
  function StartupSource(s: Sim, src: InputSource, delays: seq<real>): (r: Sim)
    requires |delays| >= |s.followers|
    ensures |r.followers| == |s.followers|
    ensures src.handedness != Some(Left) || src.gamepad.None? ==> r == s
    ensures src.handedness == Some(Left) && src.gamepad.Some? ==>
              var x := Pressed(src.gamepad.value, XButton);
              && r.buttons.leftX == x && r.buttons.leftXForFormation == x
              && (StartTriggered(s, x) ==> r.life == s.life.(isStartingUp := true, hasLanded := false))
              && (!StartTriggered(s, x) ==> r.life == s.life)
              && (XSwitchTriggered(s, x) ==>
                    r.form.indexX == (s.form.indexX + 1) % 5 && r.form.animatingX && r.form.index == 0
                    && r.followers == ResetFollowers(s.followers, delays))
              && (!XSwitchTriggered(s, x) ==> r.form == s.form && r.followers == s.followers)
    ensures r.drone == s.drone && r.dronePositioned == s.dronePositioned && r.xrSession == s.xrSession
    ensures r.droneSoundReady == s.droneSoundReady
  {
    if src.handedness != Some(Left) || src.gamepad.None? then s
    else
      var x := Pressed(src.gamepad.value, XButton);
      var started := StartOnEdge(s, x);
      var switched := XSwitchOnEdge(started, x, delays);
      switched.(buttons := switched.buttons.(leftXForFormation := x, leftX := x))
  }

  /** The start trigger's effect: starting up, no longer landed. */
  function StartOnEdge(s: Sim, x: bool): (r: Sim)
    ensures StartTriggered(s, x) ==> r.life == s.life.(isStartingUp := true, hasLanded := false)
    ensures !StartTriggered(s, x) ==> r.life == s.life
    ensures r.form == s.form && r.followers == s.followers && r.buttons == s.buttons && r.drone == s.drone
    ensures r.dronePositioned == s.dronePositioned && r.xrSession == s.xrSession && r.droneSoundReady == s.droneSoundReady
    ensures XSwitchTriggered(r, x) == XSwitchTriggered(s, x)
  {
    if StartTriggered(s, x) then s.(life := s.life.(isStartingUp := true, hasLanded := false)) else s
  }

  /** The X formation switch's effect, when triggered. */
  function XSwitchOnEdge(s: Sim, x: bool, delays: seq<real>): (r: Sim)
    requires |delays| >= |s.followers|
    ensures XSwitchTriggered(s, x) ==>
              r.form.indexX == (s.form.indexX + 1) % 5 && r.form.animatingX && r.form.index == 0
              && r.followers == ResetFollowers(s.followers, delays)
    ensures !XSwitchTriggered(s, x) ==> r.form == s.form && r.followers == s.followers
    ensures r.life == s.life && r.drone == s.drone && r.buttons == s.buttons && |r.followers| == |s.followers|
    ensures r.dronePositioned == s.dronePositioned && r.xrSession == s.xrSession && r.droneSoundReady == s.droneSoundReady
  {
    if XSwitchTriggered(s, x) then XFormationSwitch(s, delays) else s
  }

  /** A left controller with its X button down. */
  predicate LeftXPressed(src: InputSource) {
    src.handedness == Some(Left) && src.gamepad.Some? && Pressed(src.gamepad.value, XButton)
  }

  /** Some source is a left controller with X held. */
  predicate AnyLeftX(srcs: seq<InputSource>)
    decreases |srcs|
  {
    |srcs| > 0 && (LeftXPressed(srcs[0]) || AnyLeftX(srcs[1..]))
  }

  /** `AnyLeftX` names a witness among the sources, and any witness makes it hold. */
  lemma {:induction false} AnyLeftXWitness(srcs: seq<InputSource>)
    ensures AnyLeftX(srcs) <==> exists i :: 0 <= i < |srcs| && LeftXPressed(srcs[i])
    decreases |srcs|
  {
    if |srcs| > 0 {
      AnyLeftXWitness(srcs[1..]);
      if exists i :: 0 <= i < |srcs| && LeftXPressed(srcs[i]) {
        var i :| 0 <= i < |srcs| && LeftXPressed(srcs[i]);
        if i > 0 {
          assert srcs[1..][i - 1] == srcs[i];
        }
      }
      if AnyLeftX(srcs[1..]) {
        var j :| 0 <= j < |srcs[1..]| && LeftXPressed(srcs[1..][j]);
        assert srcs[j + 1] == srcs[1..][j];
      }
    }
  }

  /** One source changes at most the start-up flags of the life cycle. */
  lemma StartSourceFlags(s: Sim, src: InputSource, delays: seq<real>)
    requires |delays| >= |s.followers|
    ensures var l := StartupSource(s, src, delays).life;
            l == s.life.(isStartingUp := l.isStartingUp, hasLanded := l.hasLanded)
  {
    var x := if src.gamepad.Some? then Pressed(src.gamepad.value, XButton) else false;
    if src.handedness == Some(Left) && src.gamepad.Some? && StartTriggered(s, x) {
      assert StartupSource(s, src, delays).life == s.life.(isStartingUp := true, hasLanded := false);
    }
  }

  /** Two updates that touch only the start-up flags touch only those flags. */
  lemma StartFlagsCompose(a: Lifecycle, b: Lifecycle, c: Lifecycle)
    requires b == a.(isStartingUp := b.isStartingUp, hasLanded := b.hasLanded)
    requires c == b.(isStartingUp := c.isStartingUp, hasLanded := c.hasLanded)
    ensures c == a.(isStartingUp := c.isStartingUp, hasLanded := c.hasLanded)
  {
  }

  function StartupSources(s: Sim, srcs: seq<InputSource>, delays: seq<real>): (r: Sim)
    requires |delays| >= |s.followers|
    ensures |r.followers| == |s.followers|
    ensures r.drone == s.drone && r.dronePositioned == s.dronePositioned && r.xrSession == s.xrSession
    ensures r.droneSoundReady == s.droneSoundReady
    ensures r.life == s.life.(isStartingUp := r.life.isStartingUp, hasLanded := r.life.hasLanded)
    ensures r.life.isStartingUp && !s.life.isStartingUp ==>
              && s.dronePositioned && !s.life.isStartupComplete && !s.life.isShuttingDown
              && AnyLeftX(srcs)
    ensures (forall i :: 0 <= i < |srcs| ==> srcs[i].handedness != Some(Left) || srcs[i].gamepad.None?) ==> r == s
    decreases |srcs|
  {
    if |srcs| == 0 then s
    else
      var s1 := StartupSource(s, srcs[0], delays);
      var r := StartupSources(s1, srcs[1..], delays);
      assert forall i :: 1 <= i < |srcs| ==> srcs[i] == srcs[1..][i - 1];
      StartSourceFlags(s, srcs[0], delays);
      StartFlagsCompose(s.life, s1.life, r.life);
      r
  }

  /** `handleStartupSequence`: nothing without a session and a loaded drone
      sound. `delays` are the reaction-delay draws of a formation switch. */
  function StartupSequence(s: Sim, f: Frame, delays: seq<real>): (r: Sim)
    requires |delays| >= |s.followers|
    ensures !s.xrSession || !s.droneSoundReady ==> r == s
    ensures r.life == s.life.(isStartingUp := r.life.isStartingUp, hasLanded := r.life.hasLanded)
    ensures r.life.isStartingUp && !s.life.isStartingUp ==>
              && s.xrSession && s.droneSoundReady
              && s.dronePositioned && !s.life.isStartupComplete && !s.life.isShuttingDown
              && exists i :: 0 <= i < |f.sources| && LeftXPressed(f.sources[i])
    ensures r.drone == s.drone && |r.followers| == |s.followers|
  {
    if !s.xrSession || !s.droneSoundReady then s
    else
      AnyLeftXWitness(f.sources);
      StartupSources(s, f.sources, delays)
  }

  /** Holding X does nothing more: with both memories already set, a pressed
      X changes neither the lifecycle nor the formation. */
  lemma HeldXIsInert(s: Sim, src: InputSource, delays: seq<real>)
    requires |delays| >= |s.followers|
    requires s.buttons.leftX && s.buttons.leftXForFormation
    ensures StartupSource(s, src, delays).life == s.life
    ensures StartupSource(s, src, delays).form == s.form
    ensures StartupSource(s, src, delays).followers == s.followers
  {
  }

  // ---------------------------------------------------------------------
  // Lift start (src/main.js:242-278)
  // ---------------------------------------------------------------------

  /** Whether the lift is scheduled and still needs its start point. */
  predicate LiftAwaitingStart(s: Sim, f: Frame) {
    && s.life.liftStartTime.Some? && s.droneLoaded && s.dronePositioned
    && s.life.liftStartPos.None? && s.xrSession && Available(f)
  }

  /** `updateLiftSequence`: on the first frame of a lift, the start point is
      the drone's position and the target is the right controller's height,
      or 10 cm above the drone if it is already at or above the controller;
      with no right controller pose the lift is called off. */
  function LiftSequence(s: Sim, f: Frame): (r: Sim)
    ensures !LiftAwaitingStart(s, f) ==> r == s
    ensures LiftAwaitingStart(s, f) && FirstRightGrip(f, f.sources).None? ==>
              r == s.(life := s.life.(liftStartTime := None))
    ensures LiftAwaitingStart(s, f) && FirstRightGrip(f, f.sources).Some? ==>
              var c := FirstRightGrip(f, f.sources).value;
              && r.life.liftStartPos == Some(s.drone.position)
              && r.life.liftTargetHeight.Some?
              && r.life.liftTargetHeight.value > s.drone.position.y
              && r.life.liftTargetHeight.value >= c.y
              && (s.drone.position.y < c.y ==> r.life.liftTargetHeight.value == c.y)
              && (s.drone.position.y >= c.y ==> r.life.liftTargetHeight.value == s.drone.position.y + 0.1)
              && r.life.liftStartTime == s.life.liftStartTime
    ensures r == s.(life := r.life)
  {
    if !LiftAwaitingStart(s, f) then s
    else
      match FirstRightGrip(f, f.sources)
      case None => s.(life := s.life.(liftStartTime := None))
      case Some(c) =>
        var y := s.drone.position.y;
        s.(life := s.life.(liftStartPos := Some(s.drone.position),
                           liftTargetHeight := Some(if y >= c.y then y + 0.1 else c.y)))
  }

  /** The start point is taken once: after a frame that was waiting for it,
      the lift either has its start point or was called off, and no later
      frame changes anything here. */
  lemma LiftStartsOnce(s: Sim, f: Frame, g: Frame)
    requires LiftAwaitingStart(s, f)
    ensures var r := LiftSequence(s, f);
            && !LiftAwaitingStart(r, g)
            && LiftSequence(r, g) == r
  {
  }

  // ---------------------------------------------------------------------
  // Deceleration (src/main.js:281-331)
  // ---------------------------------------------------------------------

  /** One frame of levelling: pitch and roll lose 15 %. */
  function Level(e: Euler, rate: real): (r: Euler)
    requires 0.0 <= rate <= 1.0
    ensures r.y == e.y
    ensures Abs(r.x) <= Abs(e.x) && Abs(r.z) <= Abs(e.z)
    ensures (e.x >= 0.0 ==> r.x >= 0.0) && (e.x <= 0.0 ==> r.x <= 0.0)
  {
    Euler(Toward0(e.x, rate), e.y, Toward0(e.z, rate))
  }

  /** `a += (0 - a) * rate`: moves `a` towards zero without crossing it. */
  function Toward0(a: real, rate: real): (r: real)
    requires 0.0 <= rate <= 1.0
    ensures Abs(r) <= Abs(a)
    ensures (a >= 0.0 ==> r >= 0.0) && (a <= 0.0 ==> r <= 0.0)
  {
    LevelShrinks(a, rate);
    a + (0.0 - a) * rate
  }

  lemma LevelShrinks(a: real, rate: real)
    requires 0.0 <= rate <= 1.0
    ensures Abs(a + (0.0 - a) * rate) <= Abs(a)
    ensures (a >= 0.0 ==> a + (0.0 - a) * rate >= 0.0) && (a <= 0.0 ==> a + (0.0 - a) * rate <= 0.0)
  {
    var k := 1.0 - rate;
    assert a + (0.0 - a) * rate == a * k;
    if a >= 0.0 {
      assert a * rate >= 0.0;
      assert a * k >= 0.0;
    } else {
      assert (-a) * rate >= 0.0;
      assert (-a) * k >= 0.0;
    }
  }

  /** The followers levelled at the same rate. */
  function LevelFollowers(fs: seq<Follower>, rate: real): (r: seq<Follower>)
    requires 0.0 <= rate <= 1.0
    ensures |r| == |fs|
    ensures forall i :: 0 <= i < |fs| ==> r[i] == fs[i].(rotation := Level(fs[i].rotation, rate))
  {
    seq(|fs|, i requires 0 <= i < |fs| => fs[i].(rotation := Level(fs[i].rotation, rate)))
  }

  /** Whether the deceleration runs this frame. */
  predicate Decelerating(s: Sim) {
    s.life.decelerationStartTime.Some? && s.droneLoaded && s.dronePositioned
  }

  /** The propeller multiplier `now` ms into a deceleration started at `start`. */
  function DecelerationMultiplier(start: int, now: int): (k: real)
    ensures now >= start ==> 0.0 <= k <= 1.0
    ensures k + SpinUpMultiplier(now - start) == 1.0
    ensures k == 0.0 <==> now - start >= RampDuration
  {
    1.0 - RampProgress(now - start)
  }

  /** `updateDecelerationSequence`: the drone and the followers level off, the
      propellers slow linearly over two seconds, and at the end the
      deceleration, the landing height and the shutdown flag are cleared, the
      propellers stop and the drone counts as landed. */
  function DecelerationStep(s: Sim, now: int): (r: Sim)
    ensures !Decelerating(s) ==> r == s
    ensures Decelerating(s) ==>
              var start := s.life.decelerationStartTime.value;
              && r.drone.rotation == Level(s.drone.rotation, 0.15)
              && r.followers == LevelFollowers(s.followers, 0.15)
              && (now - start >= RampDuration ==>
                    && r.life.decelerationStartTime.None? && r.life.landingHeight.None?
                    && !r.life.isShuttingDown && r.life.propellerSpeedMultiplier == 0.0 && r.life.hasLanded)
              && (now - start < RampDuration ==>
                    && r.life == s.life.(propellerSpeedMultiplier := DecelerationMultiplier(start, now))
                    && r.life.propellerSpeedMultiplier > 0.0)
    ensures r.drone.position == s.drone.position && r.motion == s.motion && r.grab == s.grab
    ensures |r.followers| == |s.followers|
  {
    if !Decelerating(s) then s
    else
      var start := s.life.decelerationStartTime.value;
      var k := DecelerationMultiplier(start, now);
      var levelled := s.(drone := s.drone.(rotation := Level(s.drone.rotation, 0.15)),
                         followers := LevelFollowers(s.followers, 0.15),
                         life := s.life.(propellerSpeedMultiplier := k));
      if RampProgress(now - start) >= 1.0 then
        levelled.(life := levelled.life.(decelerationStartTime := None, landingHeight := None,
                                         isShuttingDown := false, propellerSpeedMultiplier := 0.0,
                                         hasLanded := true))
      else levelled
  }

  /** The propellers only slow down: a later frame of the same deceleration
      never has a higher multiplier. */
  lemma {:induction false} DecelerationSlowsDown(start: int, now1: int, now2: int)
    requires now1 <= now2
    ensures DecelerationMultiplier(start, now2) <= DecelerationMultiplier(start, now1)
  {
    RampMonotone(now1 - start, now2 - start);
  }
}
