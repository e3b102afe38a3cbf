// Two places where the controller's code does something other than what it evidently means to
// do. The rest of the model follows the code as written; for each place, this module shows an
// input on which the code as written breaks the evident intent, and defines the corrected
// behaviour with that intent proved about it.

module Findings {
  import opened Vectors
  import opened Settings
  import opened Locomotion
  import opened LocomotionProofs

  // ---------------------------------------------------------------------------
  // 1. AdjustVelocity moves the world x and z components, not the contact-axis ones

  /** `newX`, `newZ` as evidently intended: the components along the contact axes, `currentX`
      and `currentZ`, moved towards the desired velocity. */
  function AxisTargetsIntended(c: Config, s: LocomotionState, deltaTime: real): (real, real) {
    var limit := MaxSpeedChange(c, s, deltaTime);
    (MoveTowards(Dot(s.velocity, ContactAxes(c, s).0), s.desiredVelocity.x, limit),
     MoveTowards(Dot(s.velocity, ContactAxes(c, s).1), s.desiredVelocity.z, limit))
  }

  function AdjustVelocityIntended(c: Config, s: LocomotionState, deltaTime: real): LocomotionState {
    s.(velocity := Steer(s.velocity, ContactAxes(c, s), AxisTargetsIntended(c, s, deltaTime)))
  }

  /** Corrected, the speed along each contact axis changes by at most the limit and moves towards
      the desired speed without passing it, when the axes are orthonormal: on ground whose normal
      has no x or no z component (`ProjectedAxesOrthogonal`). On other slopes the update along one
      axis also shifts the speed along the other, so neither version need keep the limit. */
  lemma AdjustVelocityIntendedRespectsLimit(c: Config, s: LocomotionState, deltaTime: real)
    requires OrthonormalAxes(ContactAxes(c, s))
    requires 0.0 <= deltaTime
    requires 0.0 <= c.settings.maxAcceleration && 0.0 <= c.settings.maxAirAcceleration
    ensures var before := Dot(s.velocity, ContactAxes(c, s).0);
            var after := Dot(AdjustVelocityIntended(c, s, deltaTime).velocity, ContactAxes(c, s).0);
            Abs(after - before) <= MaxSpeedChange(c, s, deltaTime) && Between(after, before, s.desiredVelocity.x)
    ensures var before := Dot(s.velocity, ContactAxes(c, s).1);
            var after := Dot(AdjustVelocityIntended(c, s, deltaTime).velocity, ContactAxes(c, s).1);
            Abs(after - before) <= MaxSpeedChange(c, s, deltaTime) && Between(after, before, s.desiredVelocity.z)
  {
    AdjustVelocityLimits(c, s, deltaTime);
    SteerReachesTargets(s.velocity, ContactAxes(c, s), AxisTargetsIntended(c, s, deltaTime));
  }

  /** On flat ground the contact axes are the world axes and the two versions agree. */
  lemma AsWrittenAgreesOnFlatGround(c: Config, s: LocomotionState, deltaTime: real)
    requires s.contactNormal == Up
    requires c.math.Normalize(Right) == Right && c.math.Normalize(Forward) == Forward
    ensures AdjustVelocityIntended(c, s, deltaTime) == AdjustVelocity(c, s, deltaTime)
  {
    FlatContactAxes(c, s);
    WorldAxesComponents(s.velocity);
  }

  lemma WorldAxesComponents(v: Vec3)
    ensures Dot(v, Right) == v.x && Dot(v, Forward) == v.z
  {
  }

  /** The slope of the example: its normal leans 0.6 towards x. */
  const SlopeNormal := Vec3(0.6, 0.8, 0.0)

  /** The world x axis projected onto that slope, before and after normalising. */
  const SlopeRight := Vec3(0.64, -0.48, 0.0)
  const SlopeAxis := Vec3(0.8, -0.6, 0.0)

  /** A sphere rolling down the slope at 5 along its x axis, wanting 4 along world x, with an
      acceleration of 10 and a step of 0.02 s: the allowed change of speed is 0.2. */
  predicate SlopeExample(c: Config, s: LocomotionState) {
    && c.settings.maxAcceleration == 10.0
    && c.math.Normalize(SlopeRight) == SlopeAxis
    && c.math.Normalize(Forward) == Forward
    && s.groundContactCount == 1
    && s.contactNormal == SlopeNormal
    && s.velocity == Vec3(4.0, -3.0, 0.0)
    && s.desiredVelocity == Vec3(4.0, 0.0, 0.0)
  }

  lemma SlopeProjectsRight(s: LocomotionState)
    requires s.contactNormal == SlopeNormal
    ensures ProjectOnContactPlane(s, Right) == SlopeRight
  {
    assert Dot(Right, SlopeNormal) == 0.6 by {}
    assert Scale(SlopeNormal, 0.6) == Vec3(0.36, 0.48, 0.0) by {}
    assert Sub(Right, Vec3(0.36, 0.48, 0.0)) == SlopeRight by {}
  }

  lemma SlopeProjectsForward(s: LocomotionState)
    requires s.contactNormal == SlopeNormal
    ensures ProjectOnContactPlane(s, Forward) == Forward
  {
    var d := Dot(Forward, SlopeNormal);
    assert d == 0.0 by {}
    assert Scale(SlopeNormal, d) == Zero;
  }

  lemma SlopeAxesOrthonormal()
    ensures OrthonormalAxes((SlopeAxis, Forward))
  {
  }

  lemma SpeedAlongSlope()
    ensures Dot(Vec3(4.0, -3.0, 0.0), SlopeAxis) == 5.0
  {
  }

  lemma SlopeContactAxes(c: Config, s: LocomotionState)
    requires SlopeExample(c, s)
    ensures ContactAxes(c, s) == (SlopeAxis, Forward)
  {
    SlopeProjectsRight(s);
    SlopeProjectsForward(s);
  }

  lemma SlopeSpeedLimit(c: Config, s: LocomotionState)
    requires SlopeExample(c, s)
    ensures MaxSpeedChange(c, s, 0.02) == 0.2
  {
  }

  /** As written, the speed along the slope drops from 5 to 4 in one step, five times the limit. */
  lemma SlopeSpeedChangeAsWritten(c: Config, s: LocomotionState)
    requires SlopeExample(c, s)
    ensures Dot(AdjustVelocity(c, s, 0.02).velocity, SlopeAxis) == 4.0
    ensures Abs(Dot(AdjustVelocity(c, s, 0.02).velocity, SlopeAxis) - Dot(s.velocity, SlopeAxis))
            > MaxSpeedChange(c, s, 0.02)
  {
    SlopeSpeedLimit(c, s);
    SpeedAlongSlope();
    SlopeTargetAsWritten(c, s);
    SlopeAxisSpeedAsWritten(c, s);
  }

  lemma SlopeTargetAsWritten(c: Config, s: LocomotionState)
    requires SlopeExample(c, s)
    ensures AxisTargets(c, s, 0.02).0 == 4.0
  {
    SlopeSpeedLimit(c, s);
  }

  lemma SlopeAxisSpeedAsWritten(c: Config, s: LocomotionState)
    requires SlopeExample(c, s)
    ensures Dot(AdjustVelocity(c, s, 0.02).velocity, SlopeAxis) == AxisTargets(c, s, 0.02).0
  {
    SlopeContactAxes(c, s);
    SteerOnSlope(s.velocity, AxisTargets(c, s, 0.02));
  }

  /** Corrected, it drops by the limit, to 4.8. */
  lemma SlopeSpeedChangeCorrected(c: Config, s: LocomotionState)
    requires SlopeExample(c, s)
    ensures Dot(AdjustVelocityIntended(c, s, 0.02).velocity, SlopeAxis) == 4.8
  {
    SlopeTarget(c, s);
    SlopeAxisSpeed(c, s);
  }

  lemma SlopeTarget(c: Config, s: LocomotionState)
    requires SlopeExample(c, s)
    ensures AxisTargetsIntended(c, s, 0.02).0 == 4.8
  {
    SlopeContactAxes(c, s);
    SlopeSpeedLimit(c, s);
    SpeedAlongSlope();
  }

  lemma SlopeAxisSpeed(c: Config, s: LocomotionState)
    requires SlopeExample(c, s)
    ensures Dot(AdjustVelocityIntended(c, s, 0.02).velocity, SlopeAxis) == AxisTargetsIntended(c, s, 0.02).0
  {
    SlopeContactAxes(c, s);
    SteerOnSlope(s.velocity, AxisTargetsIntended(c, s, 0.02));
  }

  lemma SteerOnSlope(v: Vec3, targets: (real, real))
    ensures Dot(Steer(v, (SlopeAxis, Forward), targets), SlopeAxis) == targets.0
  {
    SlopeAxesOrthonormal();
    SteerReachesTargets(v, (SlopeAxis, Forward), targets);
  }

  // ---------------------------------------------------------------------------
  // 2. Jump never counts the jumps it makes

  /** `Jump` as evidently intended: every jump that fires counts itself in `jumpPhase`, so that
      the phase is the number of jumps since the sphere last touched ground. */
  function JumpIntended(c: Config, s: LocomotionState, gravityY: real): LocomotionState {
    var branch := JumpEligibility(c, s);
    if branch == NoJump then s
    else Jump(c, s, gravityY).(jumpPhase := PhaseAfterJump(branch, s.jumpPhase) + 1.0)
  }

  /** How many of `n` successive jump requests fire, corrected. As with
      `LocomotionProofs.AirborneJumps`, the physics steps in between are left out
      (`LocomotionProofs.AirborneUpdateKeepsEligibility`). */
  function AirborneJumpsIntended(c: Config, s: LocomotionState, gravityY: real, n: nat): nat
    decreases n
  {
    if n == 0 then 0
    else (if JumpEligibility(c, s) == NoJump then 0 else 1)
         + AirborneJumpsIntended(c, JumpIntended(c, s, gravityY), gravityY, n - 1)
  }

  function Min(a: int, b: int): int {
    if a <= b then a else b
  }

  /** The air jumps still allowed at phase `p`: the first air jump takes the phase from 0 to 2,
      since it also counts the ground jump that was never made. */
  function AirJumpsLeft(maxAirJumps: int, p: nat): nat {
    if p == 0 then (if maxAirJumps > 0 then maxAirJumps else 0)
    else if maxAirJumps - p + 1 > 0 then maxAirJumps - p + 1 else 0
  }

  /** Corrected, `n` requests in the air get at most `maxAirJumps` jumps. */
  lemma {:induction false} AirJumpsAreLimited(c: Config, s: LocomotionState, gravityY: real, n: nat, phase: nat)
    requires !OnGround(s) && !OnSteep(s) && s.jumpPhase == phase as real
    ensures AirborneJumpsIntended(c, s, gravityY, n) == Min(n, AirJumpsLeft(c.settings.maxAirJumps, phase))
    ensures AirborneJumpsIntended(c, s, gravityY, n) <= (if c.settings.maxAirJumps > 0 then c.settings.maxAirJumps else 0)
    decreases n
  {
    if n > 0 {
      JumpFrame(c, s, gravityY);
      var r := JumpIntended(c, s, gravityY);
      if JumpEligibility(c, s) != NoJump {
        var next := if phase == 0 then 2 else phase + 1;
        assert r.jumpPhase == next as real;
        AirJumpsAreLimited(c, r, gravityY, n - 1, next);
      } else {
        assert r == s;
        AirJumpsAreLimited(c, r, gravityY, n - 1, phase);
      }
    }
  }

  /** Corrected, with `maxAirJumps = 2`: a jump from the ground at phase 0 leaves the phase at 1,
      and once airborne with that phase (`UpdateState` keeps it while the sphere touches nothing),
      `n` requests fire `min(n, 2)` air jumps: one ground jump and two air jumps in all. */
  lemma OneGroundJumpThenTwoAirJumps(c: Config, s: LocomotionState, t: LocomotionState, gravityY: real, n: nat)
    requires OnGround(s) && s.jumpPhase == 0.0
    requires c.settings.maxAirJumps == 2
    requires !OnGround(t) && !OnSteep(t) && t.jumpPhase == JumpIntended(c, s, gravityY).jumpPhase
    ensures JumpEligibility(c, s) == FromGround
    ensures JumpIntended(c, s, gravityY).jumpPhase == 1.0
    ensures AirborneJumpsIntended(c, t, gravityY, n) == Min(n, 2)
  {
    JumpFrame(c, s, gravityY);
    AirJumpsAreLimited(c, t, gravityY, n, 1);
  }

  /** With one air jump allowed, three presses in the air: three jumps as written, one corrected. */
  lemma ThreePressesWithOneAirJump(c: Config, s: LocomotionState, gravityY: real)
    requires !OnGround(s) && !OnSteep(s) && s.jumpPhase == 0.0
    requires c.settings.maxAirJumps == 1
    ensures AirborneJumps(c, s, gravityY, 3) == 3
    ensures AirborneJumpsIntended(c, s, gravityY, 3) == 1
  {
    AirJumpsNeverExhausted(c, s, gravityY, 3);
    AirJumpsAreLimited(c, s, gravityY, 3, 0);
  }
}
