/** The A-button formation animator (src/main.js:334-496) and the follower
    reset the A and X buttons share (src/controls.js:121-129, 266-274). Each
    follower steers towards its slot independently, so one tick is a map over
    the followers followed by the completion test. */
module Formations {
  import opened Geometry
  import opened SimState

  // ---------------------------------------------------------------------
  // Target tables and the button reset
  // ---------------------------------------------------------------------

  /** `getTargetPositionsA`: index 1 selects the K table; every other index,
      including 2 to 4, falls back to the original grid. */
  function TargetPositionsA(s: Sim): (r: seq<Vec3>)
    ensures s.form.index == 1 ==> r == s.form.kPositions
    ensures s.form.index != 1 ==> r == s.form.originalPositions
  {
    if s.form.index == 1 then s.form.kPositions else s.form.originalPositions
  }

  /** A follower after a formation switch: stopped, given a new reaction
      delay and marked as not yet arrived. */
  function ResetFollower(f: Follower, delay: real): (r: Follower)
    ensures r.velocity == Zero && r.reactionDelay == delay
    ensures r.params.Some? <==> f.params.Some?
    ensures r.params.Some? ==> r.params.value == f.params.value.(hasArrived := false)
    ensures r.position == f.position && r.rotation == f.rotation && r.inertia == f.inertia
  {
    f.(velocity := Zero,
       reactionDelay := delay,
       params := match f.params
                 case Some(p) => Some(p.(hasArrived := false))
                 case None => None)
  }

  /** The reset applied to every follower; `draws` are the `Math.random()`
      values of the new reaction delays (one second at most). */
  function ResetFollowers(fs: seq<Follower>, draws: seq<real>): (r: seq<Follower>)
    requires |draws| >= |fs|
    ensures |r| == |fs|
    ensures forall i :: 0 <= i < |fs| ==>
              && r[i].velocity == Zero && r[i].reactionDelay == draws[i] * 1.0
              && r[i].position == fs[i].position
              && (r[i].params.Some? <==> fs[i].params.Some?)
              && (r[i].params.Some? ==> !r[i].params.value.hasArrived)
  {
    seq(|fs|, i requires 0 <= i < |fs| => ResetFollower(fs[i], draws[i] * 1.0))
  }

  // ---------------------------------------------------------------------
  // Per-follower flight parameters
  // ---------------------------------------------------------------------

  /** The seven `Math.random()` draws that initialise a follower's flight
      parameters on its first tick, in source order. */
  function DrawParams(d: seq<real>): (p: FlightParams)
    requires |d| == 7
    ensures !p.hasArrived
    ensures (forall i :: 0 <= i < 7 ==> 0.0 <= d[i] < 1.0) ==>
              && 0.8 <= p.speedMultiplier < 1.2 && 0.8 <= p.accelMultiplier < 1.2
              && 2.0 <= p.wobbleFreq < 4.0
              && 0.0008 <= p.wobbleAmp < 0.0018
              && 0.0 <= p.wobblePhase < Pi * 2.0
              && -0.00005 <= p.driftX < 0.00005 && -0.00005 <= p.driftZ < 0.00005
  {
    FlightParams(0.8 + d[0] * 0.4, 0.8 + d[1] * 0.4, 2.0 + d[2] * 2.0,
                 0.0008 + d[3] * 0.001, d[4] * Pi * 2.0,
                 (d[5] - 0.5) * 0.0001, (d[6] - 0.5) * 0.0001, false)
  }

  // ---------------------------------------------------------------------
  // One follower, one tick
  // ---------------------------------------------------------------------

  const ArrivalThreshold: real := 0.012
  const CloseThreshold: real := 0.04
  const MinDistance: real := 0.001
  const FormationAcceleration: real := 0.0012
  const FormationMaxSpeed: real := 0.010
  const FormationBaseFriction: real := 0.94
  const FormationTimeout: int := 8000

  /** Which branch a follower took this tick; `Skipped` for a follower
      without a slot in the target table. */
  datatype Progress = Delayed | TimedOut | Wobbling | Arrived | Steering | Skipped

  /** Still on its way: in reaction delay or steering. */
  predicate Busy(p: Progress) { p == Delayed || p == Steering }

  datatype FollowerResult = FollowerResult(follower: Follower, progress: Progress)

  /** `inertia || 1.0`. */
  function EffectiveInertia(f: Follower): (k: real)
    ensures k != 0.0
  {
    if f.inertia == 0.0 then 1.0 else f.inertia
  }

  /** The friction of a steering follower: 0.94 shifted by the inertia, 0.04
      less (but not below 0.88) within 4 cm of the slot, clamped to
      [0.88, 0.96]. */
  function FormationFriction(inertia: real, distSq: real): (f: real)
    ensures 0.88 <= f <= 0.96
    ensures inertia == 1.0 && distSq >= CloseThreshold * CloseThreshold ==> f == FormationBaseFriction
    ensures distSq < CloseThreshold * CloseThreshold ==> f <= Max(0.88, FormationBaseFriction + (inertia - 1.0) * 0.02 - 0.04)
  {
    var base := FormationBaseFriction + (inertia - 1.0) * 0.02;
    var near := if distSq < CloseThreshold * CloseThreshold then Max(0.88, base - 0.04) else base;
    Max(0.88, Min(0.96, near))
  }

  /** The squared speed cap of a follower. */
  function SpeedCapSq(p: FlightParams, inertia: real): (c: real)
    ensures c >= 0.0
  {
    var k := 0.9 + inertia * 0.2;
    var sm := p.speedMultiplier;
    assert sm * sm >= 0.0 && k * k >= 0.0;
    assert (sm * sm) * (k * k) >= 0.0;
    FormationMaxSpeed * FormationMaxSpeed * ((sm * sm) * (k * k))
  }

  /** Rescales a velocity whose squared length exceeds `capSq` down to the cap. */
  function CapVelocity(m: MathLib, v: Vec3, capSq: real): (r: Vec3)
    requires capSq >= 0.0
    ensures Norm2(v) <= capSq ==> r == v
    ensures Lawful(m) ==> Norm2(r) <= capSq
  {
    var speedSq := Norm2(v);
    if speedSq > capSq then
      var k := m.sqrt(capSq / speedSq);
      Norm2Scale(v, k);
      assert Lawful(m) ==> k * k == capSq / speedSq;
      assert (capSq / speedSq) * speedSq == capSq;
      Scale(v, k)
    else v
  }

  /** The steering update of a follower that is neither delayed, timed out,
      arrived nor within the arrival radius. */
  function Steer(m: MathLib, f: Follower, p: FlightParams, target: Vec3, now: int): (r: Follower)
    requires Lawful(m)
    ensures Norm2(r.velocity) <= SpeedCapSq(p, EffectiveInertia(f)) * 0.96 * 0.96
    ensures r.position == Add(f.position, r.velocity)
    ensures r.params == Some(p) && r.inertia == f.inertia && r.reactionDelay == f.reactionDelay
  {
    var inertia := EffectiveInertia(f);
    var d := Sub(target, f.position);
    var distSq := Norm2(d);
    var accel := FormationAcceleration * p.accelMultiplier / inertia;
    var v0 := f.velocity;
    var v1 := if distSq > MinDistance * MinDistance then
                var inv := 1.0 / m.sqrt(distSq);
                Add(v0, Vec3(d.x * inv * accel, d.y * inv * accel, d.z * inv * accel))
              else v0;
    var wobbleTimeBase := now as real * 0.001;
    var v2 := Vec3(v1.x + p.driftX,
                   v1.y + m.sin(wobbleTimeBase * p.wobbleFreq + p.wobblePhase) * p.wobbleAmp * 0.2,
                   v1.z + p.driftZ);
    var capSq := SpeedCapSq(p, inertia);
    var v3 := CapVelocity(m, v2, capSq);
    var fr := FormationFriction(inertia, distSq);
    var v4 := Scale(v3, fr);
    FrictionShrinks(v3, fr, capSq);
    f.(velocity := v4, position := Add(f.position, v4), params := Some(p))
  }

  lemma FrictionShrinks(v: Vec3, fr: real, capSq: real)
    requires 0.88 <= fr <= 0.96 && Norm2(v) <= capSq
    ensures Norm2(Scale(v, fr)) <= capSq * 0.96 * 0.96
  {
    Norm2Scale(v, fr);
    Norm2NonNegative(v);
    assert fr * fr <= 0.96 * 0.96 by { SquareMonotone(fr, 0.96); }
    assert fr * fr * Norm2(v) <= 0.96 * 0.96 * Norm2(v);
    assert 0.96 * 0.96 * Norm2(v) <= 0.96 * 0.96 * capSq;
  }

  /** The follower put exactly on its slot, stopped and marked as arrived. */
  function Snap(f: Follower, p: FlightParams, target: Vec3): (r: Follower)
    ensures r.position == target && r.velocity == Zero
    ensures r.params == Some(p.(hasArrived := true))
  {
    f.(position := target, velocity := Zero, params := Some(p.(hasArrived := true)))
  }

  /** Which branch a follower with parameters `p` takes: still in reaction
      delay, forced onto the slot by the timeout, hovering after arrival,
      arriving within 1.2 cm, or steering. */
  function Classify(f: Follower, p: FlightParams, target: Vec3, elapsed: int): (c: Progress)
    ensures c == Delayed <==> (elapsed as real) < f.reactionDelay * 1000.0
    ensures c == TimedOut <==>
              !((elapsed as real) < f.reactionDelay * 1000.0) && elapsed > FormationTimeout && !p.hasArrived
    ensures c == Wobbling <==> !((elapsed as real) < f.reactionDelay * 1000.0) && p.hasArrived
    ensures c == Arrived <==>
              && !((elapsed as real) < f.reactionDelay * 1000.0) && !(elapsed > FormationTimeout) && !p.hasArrived
              && Norm2(Sub(target, f.position)) < ArrivalThreshold * ArrivalThreshold
    ensures c == Steering <==>
              && !((elapsed as real) < f.reactionDelay * 1000.0) && !(elapsed > FormationTimeout) && !p.hasArrived
              && Norm2(Sub(target, f.position)) >= ArrivalThreshold * ArrivalThreshold
  {
    if (elapsed as real) < f.reactionDelay * 1000.0 then Delayed
    else if elapsed > FormationTimeout && !p.hasArrived then TimedOut
    else if p.hasArrived then Wobbling
    else if Norm2(Sub(target, f.position)) < ArrivalThreshold * ArrivalThreshold then Arrived
    else Steering
  }

  /** A delayed follower only bobs vertically, by at most 30 % of its
      wobble amplitude. */
  function DelayedBob(m: MathLib, f: Follower, p: FlightParams, now: int): (r: Follower)
    requires Lawful(m)
    ensures r.position.x == f.position.x && r.position.z == f.position.z
    ensures p.wobbleAmp >= 0.0 ==> Abs(r.position.y - f.position.y) <= p.wobbleAmp * 0.3
    ensures r.velocity == f.velocity && r.params == Some(p)
    ensures r.inertia == f.inertia && r.reactionDelay == f.reactionDelay && r.rotation == f.rotation
  {
    var slow := now as real * 0.003;
    var w := m.sin(slow * p.wobbleFreq + p.wobblePhase);
    var dy := w * p.wobbleAmp * 0.3;
    BobBound(w, p.wobbleAmp);
    f.(position := f.position.(y := f.position.y + dy), params := Some(p))
  }

  /** An arrived follower hovers around its slot, within its wobble amplitude
      on x and z and half of it on y. */
  function Hover(m: MathLib, f: Follower, p: FlightParams, target: Vec3, now: int): (r: Follower)
    requires Lawful(m)
    ensures p.wobbleAmp >= 0.0 ==>
              && Abs(r.position.x - target.x) <= p.wobbleAmp
              && Abs(r.position.y - target.y) <= p.wobbleAmp * 0.5
              && Abs(r.position.z - target.z) <= p.wobbleAmp
    ensures r.velocity == f.velocity && r.params == Some(p)
    ensures r.inertia == f.inertia && r.reactionDelay == f.reactionDelay && r.rotation == f.rotation
  {
    var phase := now as real * 0.001 * p.wobbleFreq + p.wobblePhase;
    var off := Vec3(m.sin(phase) * p.wobbleAmp, m.sin(phase * 1.3 + 1.0) * p.wobbleAmp * 0.5,
                    m.cos(phase * 0.8) * p.wobbleAmp);
    WobbleBound(m, phase, p.wobbleAmp);
    f.(position := Add(target, off), params := Some(p))
  }

  /** One follower's tick. `drawn` are the parameters it draws if it has none
      yet; `elapsed` is the time since the formation started, in ms. */
  function FollowerStep(m: MathLib, f: Follower, target: Vec3, elapsed: int, now: int, drawn: FlightParams): (r: FollowerResult)
    requires Lawful(m)
    ensures r.progress == Classify(f, f.params.GetOr(drawn), target, elapsed)
    ensures r.progress == TimedOut || r.progress == Arrived ==>
              r.follower == Snap(f, f.params.GetOr(drawn), target)
    ensures r.progress == Delayed ==> r.follower == DelayedBob(m, f, f.params.GetOr(drawn), now)
    ensures r.progress == Wobbling ==> r.follower == Hover(m, f, f.params.GetOr(drawn), target, now)
    ensures r.progress == Steering ==> r.follower == Steer(m, f, f.params.GetOr(drawn), target, now)
  {
    var p := f.params.GetOr(drawn);
    var c := Classify(f, p, target, elapsed);
    match c
    case Delayed => FollowerResult(DelayedBob(m, f, p, now), c)
    case TimedOut => FollowerResult(Snap(f, p, target), c)
    case Wobbling => FollowerResult(Hover(m, f, p, target, now), c)
    case Arrived => FollowerResult(Snap(f, p, target), c)
    case Steering => FollowerResult(Steer(m, f, p, target, now), c)
  }

  /** A follower that ends its tick off the busy side has arrived: it is
      marked so and keeps its parameters. */
  lemma SettledMeansArrived(m: MathLib, f: Follower, target: Vec3, elapsed: int, now: int, drawn: FlightParams)
    requires Lawful(m)
    ensures var r := FollowerStep(m, f, target, elapsed, now, drawn);
            !Busy(r.progress) ==> r.follower.params.Some? && r.follower.params.value.hasArrived
  {
  }

  /** `|sin(a) * amp| <= amp` and the like, under lawful sine and cosine. */
  lemma WobbleBound(m: MathLib, phase: real, amp: real)
    requires Lawful(m)
    ensures amp >= 0.0 ==>
              && Abs(m.sin(phase) * amp) <= amp
              && Abs(m.sin(phase * 1.3 + 1.0) * amp * 0.5) <= amp * 0.5
              && Abs(m.cos(phase * 0.8) * amp) <= amp
  {
    if amp >= 0.0 {
      var a := m.sin(phase);
      var b := m.sin(phase * 1.3 + 1.0);
      var c := m.cos(phase * 0.8);
      UnitTimes(a, amp);
      UnitTimes(b, amp * 0.5);
      assert b * amp * 0.5 == b * (amp * 0.5);
      UnitTimes(c, amp);
    }
  }

  lemma BobBound(w: real, amp: real)
    requires -1.0 <= w <= 1.0
    ensures amp >= 0.0 ==> Abs(w * amp * 0.3) <= amp * 0.3
  {
    if amp >= 0.0 {
      UnitTimes(w, amp * 0.3);
      assert w * amp * 0.3 == w * (amp * 0.3);
    }
  }

  lemma UnitTimes(w: real, a: real)
    requires -1.0 <= w <= 1.0 && a >= 0.0
    ensures Abs(w * a) <= a
  {
    assert -1.0 * a <= w * a <= 1.0 * a;
  }

  // ---------------------------------------------------------------------
  // The tick
  // ---------------------------------------------------------------------

  /** The formation start time after this tick's `if (!formationStartTime)`:
      a missing or zero start time becomes `now`. */
  function TickStart(s: Sim, now: int): (t: int)
    ensures s.form.startTime.Some? && s.form.startTime.value != 0 ==> t == s.form.startTime.value
    ensures s.form.startTime.None? || s.form.startTime == Some(0) ==> t == now
  {
    match s.form.startTime
    case Some(t0) => if t0 == 0 then now else t0
    case None => now
  }

  /** The per-follower results of a tick. A follower without a slot in the
      target table is skipped and counts as reached. */
  function TickResults(m: MathLib, s: Sim, now: int, drawn: seq<FlightParams>): (r: seq<FollowerResult>)
    requires Lawful(m) && |drawn| >= |s.followers|
    ensures |r| == |s.followers|
    ensures forall i :: 0 <= i < |r| && i >= |TargetPositionsA(s)| ==>
              r[i] == FollowerResult(s.followers[i], Skipped)
    ensures forall i :: 0 <= i < |r| && i < |TargetPositionsA(s)| ==>
              r[i] == FollowerStep(m, s.followers[i], TargetPositionsA(s)[i], now - TickStart(s, now), now, drawn[i])
  {
    var targets := TargetPositionsA(s);
    var elapsed := now - TickStart(s, now);
    seq(|s.followers|, i requires 0 <= i < |s.followers| =>
      if i < |targets| then FollowerStep(m, s.followers[i], targets[i], elapsed, now, drawn[i])
      else FollowerResult(s.followers[i], Skipped))
  }

  /** No follower was delayed or steering this tick. */
  predicate AllReached(res: seq<FollowerResult>) {
    forall i :: 0 <= i < |res| ==> !Busy(res[i].progress)
  }

  function Movers(res: seq<FollowerResult>): (fs: seq<Follower>)
    ensures |fs| == |res| && forall i :: 0 <= i < |res| ==> fs[i] == res[i].follower
  {
    seq(|res|, i requires 0 <= i < |res| => res[i].follower)
  }

  /** `updateFormationAnimation`. `drawn[i]` are the parameters follower `i`
      draws if it has none. The animation stops, and the start time is
      cleared, exactly on a tick where no follower was delayed or steering;
      otherwise the start time is recorded. Nothing but the followers and
      those two fields changes. */
  function FormationTick(m: MathLib, s: Sim, now: int, drawn: seq<FlightParams>): (r: Sim)
    requires Lawful(m) && |drawn| >= |s.followers|
    ensures !s.form.animating || |s.followers| == 0 ==> r == s
    ensures s.form.animating && |s.followers| > 0 ==>
              && r.followers == Movers(TickResults(m, s, now, drawn))
              && (r.form.animating <==> !AllReached(TickResults(m, s, now, drawn)))
              && r.form.startTime == (if r.form.animating then Some(TickStart(s, now)) else None)
    ensures && r.drone == s.drone && r.life == s.life && r.motion == s.motion && r.grab == s.grab
            && r.form.index == s.form.index && r.form.indexX == s.form.indexX
            && r.form.originalPositions == s.form.originalPositions && r.form.kPositions == s.form.kPositions
  {
    if !s.form.animating || |s.followers| == 0 then s
    else FinishTick(s, TickResults(m, s, now, drawn), TickStart(s, now))
  }

  /** The end of a tick: the followers take their new states and the
      animation stops exactly when every follower has reached its slot. */
  function FinishTick(s: Sim, res: seq<FollowerResult>, start: int): (r: Sim)
    ensures r.followers == Movers(res)
    ensures r.form.animating <==> !AllReached(res)
    ensures r.form.startTime == (if r.form.animating then Some(start) else None)
    ensures r.drone == s.drone && r.life == s.life && r.motion == s.motion && r.grab == s.grab
    ensures r.form == s.form.(animating := r.form.animating, startTime := r.form.startTime)
  {
    var done := AllReached(res);
    s.(followers := Movers(res), form := s.form.(animating := !done, startTime := if done then None else Some(start)))
  }

  /** Eight seconds after the start every follower with a slot that is past
      its reaction delay ends the tick on the arrived side: snapped onto its
      slot or hovering around it. */
  lemma TimeoutSettlesEveryone(m: MathLib, s: Sim, now: int, drawn: seq<FlightParams>)
    requires Lawful(m) && |drawn| >= |s.followers|
    requires now - TickStart(s, now) > FormationTimeout
    ensures var res := TickResults(m, s, now, drawn);
            forall i :: 0 <= i < |res| && i < |TargetPositionsA(s)|
                        && !((now - TickStart(s, now)) as real < s.followers[i].reactionDelay * 1000.0) ==>
              && !Busy(res[i].progress)
              && res[i].follower.params.Some? && res[i].follower.params.value.hasArrived
  {
    var res := TickResults(m, s, now, drawn);
    var targets := TargetPositionsA(s);
    var elapsed := now - TickStart(s, now);
    forall i | 0 <= i < |res| && i < |targets| && !((elapsed as real) < s.followers[i].reactionDelay * 1000.0)
      ensures !Busy(res[i].progress)
      ensures res[i].follower.params.Some? && res[i].follower.params.value.hasArrived
    {
      SettledMeansArrived(m, s.followers[i], targets[i], elapsed, now, drawn[i]);
    }
  }

  /** A tick past the timeout, where every reaction delay has elapsed, ends
      the animation. */
  lemma TimeoutEndsAnimation(m: MathLib, s: Sim, now: int, drawn: seq<FlightParams>)
    requires Lawful(m) && |drawn| >= |s.followers|
    requires s.form.animating && |s.followers| > 0 && now - TickStart(s, now) > FormationTimeout
    requires forall i :: 0 <= i < |s.followers| ==>
               s.followers[i].reactionDelay * 1000.0 <= (now - TickStart(s, now)) as real
    ensures !FormationTick(m, s, now, drawn).form.animating
    ensures FormationTick(m, s, now, drawn).form.startTime.None?
  {
    var res := TickResults(m, s, now, drawn);
    forall i | 0 <= i < |res|
      ensures !Busy(res[i].progress)
    {
      TimeoutSettlesEveryone(m, s, now, drawn);
    }
  }
}
