// Properties of the locomotion state machine: contact classification and
// accumulation, grounded resolution, velocity adjustment, the jump, and the
// clearing that ends every physics step.

module LocomotionProofs {
  import opened Vectors
  import opened Settings
  import opened Locomotion

  // ---------------------------------------------------------------------------
  // Contact accumulation

  /** Each contact is ground, steep or ignored, decided by its normal's vertical component alone. */
  lemma ClassificationThresholds(normal: Vec3, minDot: real)
    ensures Classify(normal, minDot) == GroundContact <==> normal.y >= minDot
    ensures Classify(normal, minDot) == SteepContact <==> SteepLimit < normal.y < minDot
    ensures Classify(normal, minDot) == Ignored <==> normal.y <= SteepLimit && normal.y < minDot
  {
  }

  lemma AddZero(v: Vec3)
    ensures Add(v, Zero) == v
  {
  }

  lemma PlusAssociates(a: Tally, b: Tally, c: Tally)
    ensures Plus(Plus(a, b), c) == Plus(a, Plus(b, c))
  {
  }

  lemma PlusNoContacts(a: Tally)
    ensures Plus(a, NoContacts) == a && Plus(NoContacts, a) == a
  {
  }

  /** Accumulating two runs of contacts one after the other is accumulating them together. */
  lemma {:induction false} AccumulateAppend(a: seq<Vec3>, b: seq<Vec3>, minDot: real)
    ensures Accumulate(a + b, minDot) == Plus(Accumulate(a, minDot), Accumulate(b, minDot))
  {
    if a == [] {
      assert a + b == b;
      PlusNoContacts(Accumulate(b, minDot));
    } else {
      assert (a + b)[1..] == a[1..] + b;
      AccumulateAppend(a[1..], b, minDot);
      PlusAssociates(TallyOf(a[0], minDot), Accumulate(a[1..], minDot), Accumulate(b, minDot));
    }
  }

  lemma AccumulateSingle(normal: Vec3, minDot: real)
    ensures Accumulate([normal], minDot) == TallyOf(normal, minDot)
  {
    assert [normal][1..] == [];
    assert Accumulate([normal], minDot) == Plus(TallyOf(normal, minDot), Accumulate([], minDot));
    assert Accumulate([], minDot) == NoContacts;
    PlusNoContacts(TallyOf(normal, minDot));
  }

  /** The contacts after one more: the step of the contact loop. */
  lemma AccumulateSnoc(normals: seq<Vec3>, normal: Vec3, minDot: real)
    ensures Accumulate(normals + [normal], minDot) == Plus(Accumulate(normals, minDot), TallyOf(normal, minDot))
  {
    AccumulateAppend(normals, [normal], minDot);
    AccumulateSingle(normal, minDot);
  }

  /** Adding two tallies one after the other is adding their sum. */
  lemma AddTallyPlus(s: LocomotionState, a: Tally, b: Tally)
    ensures AddTally(AddTally(s, a), b) == AddTally(s, Plus(a, b))
  {
  }

  /** The body of the contact loop: one contact bumps the count and sum of its kind. */
  lemma TallyStep(s: LocomotionState, normal: Vec3, minDot: real)
    ensures AddTally(s, TallyOf(normal, minDot))
         == if normal.y >= minDot then
              s.(groundContactCount := s.groundContactCount + 1, contactNormal := Add(s.contactNormal, normal))
            else if normal.y > SteepLimit then
              s.(steepContactCount := s.steepContactCount + 1, steepNormal := Add(s.steepNormal, normal))
            else s
  {
    AddZero(s.contactNormal);
    AddZero(s.steepNormal);
  }

  /** At most one count goes up per contact. */
  lemma {:induction false} AccumulateBound(normals: seq<Vec3>, minDot: real)
    ensures Accumulate(normals, minDot).groundCount + Accumulate(normals, minDot).steepCount <= |normals|
  {
    if normals != [] {
      AccumulateBound(normals[1..], minDot);
    }
  }

  lemma OneContactTally(c: Config, s: LocomotionState, layer: int, normal: Vec3)
    ensures var t := TallyOf(normal, GetMinDot(c, layer));
            EvaluateCollision(c, s, Collision(layer, [normal]))
              == s.(groundContactCount := s.groundContactCount + t.groundCount,
                    contactNormal := Add(s.contactNormal, t.groundSum),
                    steepContactCount := s.steepContactCount + t.steepCount,
                    steepNormal := Add(s.steepNormal, t.steepSum))
  {
    AccumulateSingle(normal, GetMinDot(c, layer));
  }

  /** One contact: a ground contact bumps the ground count and adds its normal, a steep one the
      steep count and normal, anything else changes nothing. */
  lemma EvaluateCollisionOneContact(c: Config, s: LocomotionState, layer: int, normal: Vec3)
    ensures var minDot := GetMinDot(c, layer);
            var r := EvaluateCollision(c, s, Collision(layer, [normal]));
            && (normal.y >= minDot ==>
                  r == s.(groundContactCount := s.groundContactCount + 1,
                          contactNormal := Add(s.contactNormal, normal)))
            && (SteepLimit < normal.y < minDot ==>
                  r == s.(steepContactCount := s.steepContactCount + 1,
                          steepNormal := Add(s.steepNormal, normal)))
            && (normal.y <= SteepLimit && normal.y < minDot ==> r == s)
  {
    var minDot := GetMinDot(c, layer);
    OneContactTally(c, s, layer, normal);
    if normal.y >= minDot {
      assert TallyOf(normal, minDot) == Tally(1, normal, 0, Zero);
      AddZero(s.steepNormal);
    } else if normal.y > SteepLimit {
      assert TallyOf(normal, minDot) == Tally(0, Zero, 1, normal);
      AddZero(s.contactNormal);
    } else {
      assert TallyOf(normal, minDot) == NoContacts;
      AddZero(s.contactNormal);
      AddZero(s.steepNormal);
    }
  }

  /** Counts never decrease, they rise by at most the number of contacts, and only the four
      accumulators change. */
  lemma EvaluateCollisionGrows(c: Config, s: LocomotionState, collision: Collision)
    ensures var r := EvaluateCollision(c, s, collision);
            && s.groundContactCount <= r.groundContactCount
            && s.steepContactCount <= r.steepContactCount
            && r.groundContactCount + r.steepContactCount
                 <= s.groundContactCount + s.steepContactCount + |collision.normals|
            && r == s.(groundContactCount := r.groundContactCount, contactNormal := r.contactNormal,
                       steepContactCount := r.steepContactCount, steepNormal := r.steepNormal)
  {
    AccumulateBound(collision.normals, GetMinDot(c, collision.layer));
  }

  /** The accumulator is not cleared between collision callbacks: reporting the contacts of an
      object in two callbacks has the effect of reporting them in one. */
  lemma EvaluateCollisionInPieces(c: Config, s: LocomotionState, layer: int, a: seq<Vec3>, b: seq<Vec3>)
    ensures EvaluateCollision(c, s, Collision(layer, a + b))
         == EvaluateCollision(c, EvaluateCollision(c, s, Collision(layer, a)), Collision(layer, b))
  {
    AccumulateAppend(a, b, GetMinDot(c, layer));
  }

  /** With the default masks every layer counts as stairs. */
  lemma DefaultSettingsUseStairsThreshold(c: Config, layer: int)
    requires c.settings == Defaults()
    ensures GetMinDot(c, layer) == c.minStairsDotProduct
  {
    EveryLayerHasAllLayers(layer);
  }

  // ---------------------------------------------------------------------------
  // Grounded resolution

  /** Each guard of the snap rejects on its own and then nothing changes, and passing all four
      snaps; a snap sets one ground contact with the hit normal and re-projects the velocity only
      when it leaves the surface, as the normalised projection scaled by the old speed. */
  lemma SnapToGroundOutcome(c: Config, s: LocomotionState, probe: Option<Hit>)
    ensures var (snapped, r) := SnapToGround(c, s, probe);
            && ((s.stepsSinceLastGrounded > 1 || s.stepsSinceLastJump <= 2) ==> !snapped)
            && (c.math.Magnitude(s.velocity) > c.settings.maxSnapSpeed ==> !snapped)
            && (probe.None? ==> !snapped)
            && (probe.Some? && probe.value.normal.y < GetMinDot(c, probe.value.layer) ==> !snapped)
            && ((&& s.stepsSinceLastGrounded <= 1 && s.stepsSinceLastJump > 2
                 && c.math.Magnitude(s.velocity) <= c.settings.maxSnapSpeed
                 && probe.Some? && probe.value.normal.y >= GetMinDot(c, probe.value.layer)) ==> snapped)
            && (!snapped ==> r == s)
            && (snapped ==>
                  && r.groundContactCount == 1
                  && r.contactNormal == probe.value.normal
                  && r == s.(groundContactCount := 1, contactNormal := probe.value.normal, velocity := r.velocity))
            && (snapped && Dot(s.velocity, probe.value.normal) <= 0.0 ==> r.velocity == s.velocity)
            && (snapped && Dot(s.velocity, probe.value.normal) > 0.0 ==>
                  r.velocity == Scale(c.math.Normalize(Sub(s.velocity, Scale(probe.value.normal, Dot(s.velocity, probe.value.normal)))),
                                      c.math.Magnitude(s.velocity)))
  {
  }

  /** Two or more steep contacts whose averaged normal is walkable count as one ground contact. */
  predicate SteepPromotes(c: Config, s: LocomotionState) {
    s.steepContactCount > 1 && c.math.Normalize(s.steepNormal).y >= c.minGroundDotProduct
  }

  lemma CheckSteepContactsOutcome(c: Config, s: LocomotionState)
    ensures var (promoted, r) := CheckSteepContacts(c, s);
            && (promoted <==> SteepPromotes(c, s))
            && (promoted ==> r.groundContactCount == 1 && r.contactNormal == c.math.Normalize(s.steepNormal))
            && (!promoted ==> r.groundContactCount == s.groundContactCount && r.contactNormal == s.contactNormal)
            && r.steepContactCount == s.steepContactCount
            && r.steepNormal == (if s.steepContactCount > 1 then c.math.Normalize(s.steepNormal) else s.steepNormal)
            && r == s.(groundContactCount := r.groundContactCount, contactNormal := r.contactNormal,
                       steepNormal := r.steepNormal)
  {
  }

  /** The sphere is grounded for this step: a ground contact, else a snap, else a steep promotion. */
  predicate Grounded(c: Config, s: LocomotionState, bodyVelocity: Vec3, probe: Option<Hit>) {
    OnGround(s) || CanSnap(c, Counted(s, bodyVelocity), probe) || SteepPromotes(c, s)
  }

  lemma UpdateStateOutcome(c: Config, s: LocomotionState, bodyVelocity: Vec3, probe: Option<Hit>)
    ensures var r := UpdateState(c, s, bodyVelocity, probe);
            var grounded := Grounded(c, s, bodyVelocity, probe);
            && r.stepsSinceLastJump == Increment(s.stepsSinceLastJump)
            && (s.stepsSinceLastJump < Int32Max ==> r.stepsSinceLastJump as int == s.stepsSinceLastJump as int + 1)
            && (grounded <==> OnGround(r))
            && (grounded ==> r.stepsSinceLastGrounded == 0 && r.jumpPhase == 0.0)
            && (!grounded ==>
                  && r.contactNormal == Up
                  && r.stepsSinceLastGrounded == Increment(s.stepsSinceLastGrounded)
                  && (s.stepsSinceLastGrounded < Int32Max ==>
                        r.stepsSinceLastGrounded as int == s.stepsSinceLastGrounded as int + 1)
                  && r.jumpPhase == s.jumpPhase
                  && r.velocity == bodyVelocity)
            // with a ground contact neither the snap nor the steep check runs
            && (OnGround(s) ==>
                  && r.velocity == bodyVelocity
                  && r.groundContactCount == s.groundContactCount
                  && r.steepNormal == s.steepNormal
                  && r.contactNormal == (if s.groundContactCount > 1 then c.math.Normalize(s.contactNormal)
                                         else s.contactNormal))
            // after a snap the steep check does not run
            && (!OnGround(s) && CanSnap(c, Counted(s, bodyVelocity), probe) ==>
                  r.steepNormal == s.steepNormal && r.contactNormal == probe.value.normal)
            && (!OnGround(s) && !CanSnap(c, Counted(s, bodyVelocity), probe) && SteepPromotes(c, s) ==>
                  r.contactNormal == c.math.Normalize(s.steepNormal) && r.velocity == bodyVelocity)
            && r.steepContactCount == s.steepContactCount
            && r.desiredVelocity == s.desiredVelocity
            && r.desiredJump == s.desiredJump
  {
  }

  // ---------------------------------------------------------------------------
  // Velocity adjustment

  /** The acceleration is chosen by ground contact; each of the world x and z velocity components
      is moved towards the desired one by at most the speed change limit, without passing it, and
      reaches it when it is within the limit. */
  lemma AdjustVelocityLimits(c: Config, s: LocomotionState, deltaTime: real)
    requires 0.0 <= deltaTime
    requires 0.0 <= c.settings.maxAcceleration && 0.0 <= c.settings.maxAirAcceleration
    ensures MaxSpeedChange(c, s, deltaTime)
         == (if OnGround(s) then c.settings.maxAcceleration else c.settings.maxAirAcceleration) * deltaTime
    ensures var newX := AxisTargets(c, s, deltaTime).0;
            && Abs(newX - s.velocity.x) <= MaxSpeedChange(c, s, deltaTime)
            && Between(newX, s.velocity.x, s.desiredVelocity.x)
            && (Abs(s.desiredVelocity.x - s.velocity.x) <= MaxSpeedChange(c, s, deltaTime) ==> newX == s.desiredVelocity.x)
    ensures var newZ := AxisTargets(c, s, deltaTime).1;
            && Abs(newZ - s.velocity.z) <= MaxSpeedChange(c, s, deltaTime)
            && Between(newZ, s.velocity.z, s.desiredVelocity.z)
            && (Abs(s.desiredVelocity.z - s.velocity.z) <= MaxSpeedChange(c, s, deltaTime) ==> newZ == s.desiredVelocity.z)
  {
    var acceleration := Acceleration(c, s);
    assert 0.0 <= acceleration * deltaTime;
  }

  /** The contact axes are orthonormal. The projections of the world x and z axes onto the plane
      of a unit normal are orthogonal exactly when the normal has no x or no z component
      (`ProjectedAxesOrthogonal`), so on a slope that faces along neither world axis they are
      not; the unit length is left to the caller since `Normalize` is not interpreted. */
  predicate OrthonormalAxes(axes: (Vec3, Vec3)) {
    Dot(axes.0, axes.0) == 1.0 && Dot(axes.1, axes.1) == 1.0 && Dot(axes.0, axes.1) == 0.0
  }

  /** For a unit contact normal `n`, the projected world x and z axes have dot product `-n.x * n.z`. */
  lemma ProjectedAxesSkew(s: LocomotionState)
    requires Dot(s.contactNormal, s.contactNormal) == 1.0
    ensures Dot(ProjectOnContactPlane(s, Right), ProjectOnContactPlane(s, Forward))
         == -(s.contactNormal.x * s.contactNormal.z)
  {
    var n := s.contactNormal;
    ProjectedRight(s);
    ProjectedForward(s);
    SkewProduct(n.x, n.y, n.z);
  }

  lemma ProjectedRight(s: LocomotionState)
    ensures var n := s.contactNormal;
            ProjectOnContactPlane(s, Right) == Vec3(1.0 - n.x * n.x, -(n.y * n.x), -(n.z * n.x))
  {
  }

  lemma ProjectedForward(s: LocomotionState)
    ensures var n := s.contactNormal;
            ProjectOnContactPlane(s, Forward) == Vec3(-(n.x * n.z), -(n.y * n.z), 1.0 - n.z * n.z)
  {
  }

  lemma SkewProduct(x: real, y: real, z: real)
    requires x * x + y * y + z * z == 1.0
    ensures Dot(Vec3(1.0 - x * x, -(y * x), -(z * x)), Vec3(-(x * z), -(y * z), 1.0 - z * z)) == -(x * z)
  {
    calc {
      Dot(Vec3(1.0 - x * x, -(y * x), -(z * x)), Vec3(-(x * z), -(y * z), 1.0 - z * z));
      (x * z) * (x * x + y * y + z * z - 2.0);
      -(x * z);
    }
  }

  /** The projected world axes of a unit contact normal are orthogonal exactly when the normal
      has no x or no z component. */
  lemma ProjectedAxesOrthogonal(s: LocomotionState)
    requires Dot(s.contactNormal, s.contactNormal) == 1.0
    ensures Dot(ProjectOnContactPlane(s, Right), ProjectOnContactPlane(s, Forward)) == 0.0
        <==> s.contactNormal.x == 0.0 || s.contactNormal.z == 0.0
  {
    ProjectedAxesSkew(s);
  }

  /** With orthonormal contact axes, the new velocity's component along each contact axis is the
      target computed from the world x or z component. */
  lemma AdjustVelocitySetsAxisComponents(c: Config, s: LocomotionState, deltaTime: real)
    requires OrthonormalAxes(ContactAxes(c, s))
    ensures Dot(AdjustVelocity(c, s, deltaTime).velocity, ContactAxes(c, s).0) == AxisTargets(c, s, deltaTime).0
    ensures Dot(AdjustVelocity(c, s, deltaTime).velocity, ContactAxes(c, s).1) == AxisTargets(c, s, deltaTime).1
  {
    SteerReachesTargets(s.velocity, ContactAxes(c, s), AxisTargets(c, s, deltaTime));
  }

  /** A horizontal vector is its own projection onto a flat contact plane. */
  lemma FlatProjection(s: LocomotionState, v: Vec3)
    requires s.contactNormal == Up && v.y == 0.0
    ensures ProjectOnContactPlane(s, v) == v
  {
    assert Dot(v, Up) == 0.0;
    assert Scale(Up, 0.0) == Zero;
  }

  /** On a flat contact plane the contact axes are the world x and z axes. */
  lemma FlatContactAxes(c: Config, s: LocomotionState)
    requires s.contactNormal == Up
    requires c.math.Normalize(Right) == Right && c.math.Normalize(Forward) == Forward
    ensures ContactAxes(c, s) == (Right, Forward)
  {
    FlatProjection(s, Right);
    FlatProjection(s, Forward);
  }

  /** Steering along the world axes sets the x and z components to the targets and keeps y. */
  lemma SteerAlongWorldAxes(v: Vec3, targets: (real, real))
    ensures Steer(v, (Right, Forward), targets) == Vec3(targets.0, v.y, targets.1)
  {
    assert Dot(v, Right) == v.x;
    assert Dot(v, Forward) == v.z;
    assert Scale(Right, targets.0 - v.x) == Vec3(targets.0 - v.x, 0.0, 0.0);
    assert Scale(Forward, targets.1 - v.z) == Vec3(0.0, 0.0, targets.1 - v.z);
  }

  /** Steering sets the component along each axis to its target when the axes are orthonormal. */
  lemma SteerReachesTargets(v: Vec3, axes: (Vec3, Vec3), targets: (real, real))
    requires OrthonormalAxes(axes)
    ensures Dot(Steer(v, axes, targets), axes.0) == targets.0
    ensures Dot(Steer(v, axes, targets), axes.1) == targets.1
  {
    DotLinear(v, axes.0, axes.1, targets.0 - Dot(v, axes.0), targets.1 - Dot(v, axes.1), axes.0);
    DotLinear(v, axes.0, axes.1, targets.0 - Dot(v, axes.0), targets.1 - Dot(v, axes.1), axes.1);
  }

  lemma DotLinear(v: Vec3, a: Vec3, b: Vec3, p: real, q: real, w: Vec3)
    ensures Dot(Add(v, Add(Scale(a, p), Scale(b, q))), w) == Dot(v, w) + p * Dot(a, w) + q * Dot(b, w)
  {
  }

  /** On a flat contact plane the new horizontal components are exactly `newX` and `newZ`. */
  lemma AdjustVelocityOnFlatContact(c: Config, s: LocomotionState, deltaTime: real)
    requires s.contactNormal == Up
    requires c.math.Normalize(Right) == Right && c.math.Normalize(Forward) == Forward
    ensures AdjustVelocity(c, s, deltaTime).velocity
         == Vec3(AxisTargets(c, s, deltaTime).0, s.velocity.y, AxisTargets(c, s, deltaTime).1)
  {
    FlatContactAxes(c, s);
    SteerOnWorldAxes(c, s, deltaTime);
  }

  lemma SteerOnWorldAxes(c: Config, s: LocomotionState, deltaTime: real)
    requires ContactAxes(c, s) == (Right, Forward)
    ensures AdjustVelocity(c, s, deltaTime).velocity
         == Vec3(AxisTargets(c, s, deltaTime).0, s.velocity.y, AxisTargets(c, s, deltaTime).1)
  {
    SteerAlongWorldAxes(s.velocity, AxisTargets(c, s, deltaTime));
  }

  /** Removing the part along a unit normal leaves a vector in the contact plane. */
  lemma ProjectionLiesInContactPlane(s: LocomotionState, v: Vec3)
    requires Dot(s.contactNormal, s.contactNormal) == 1.0
    ensures Dot(ProjectOnContactPlane(s, v), s.contactNormal) == 0.0
  {
    var n := s.contactNormal;
    var d := Dot(v, n);
    calc {
      Dot(ProjectOnContactPlane(s, v), n);
      (v.x - n.x * d) * n.x + (v.y - n.y * d) * n.y + (v.z - n.z * d) * n.z;
      d - d * Dot(n, n);
      0.0;
    }
  }

  // ---------------------------------------------------------------------------
  // Jump

  /** The branch order, what each branch does to `jumpPhase` and the step counter, and that an
      ineligible request changes nothing. */
  lemma JumpOutcome(c: Config, s: LocomotionState, gravityY: real)
    ensures var r := Jump(c, s, gravityY);
            var branch := JumpEligibility(c, s);
            && (OnGround(s) ==> branch == FromGround)
            && (!OnGround(s) && OnSteep(s) ==> branch == FromSteep)
            && (branch == NoJump <==>
                  !OnGround(s) && !OnSteep(s)
                  && (c.settings.maxAirJumps <= 0 || s.jumpPhase > c.settings.maxAirJumps as real))
            && (branch == NoJump ==> r == s)
            && (branch != NoJump ==> r.stepsSinceLastJump == 0)
            && (branch == FromGround ==> r.jumpPhase == s.jumpPhase)
            && (branch == FromSteep ==> r.jumpPhase == 0.0)
            && (branch == FromAir ==> r.jumpPhase == (if s.jumpPhase == 0.0 then 1.0 else s.jumpPhase))
            && (PhaseInvariant(s) ==> PhaseInvariant(r))
            && r == s.(velocity := r.velocity, jumpPhase := r.jumpPhase, stepsSinceLastJump := r.stepsSinceLastJump)
  {
  }

  /** The jump adds speed along its direction, at least nothing and at most the launch speed, and
      nothing at all once the velocity already has the launch speed along that direction. */
  lemma JumpImpulseBounds(c: Config, s: LocomotionState, gravityY: real)
    requires JumpEligibility(c, s) != NoJump
    requires SqrtNonNegative(c.math) && gravityY <= 0.0 && 0.0 <= c.settings.jumpHeight
    ensures var direction := JumpDirection(c, s, JumpEligibility(c, s));
            var added := JumpImpulse(JumpSpeed(c, gravityY), Dot(s.velocity, direction));
            && Jump(c, s, gravityY).velocity == Add(s.velocity, Scale(direction, added))
            && 0.0 <= added <= JumpSpeed(c, gravityY)
            && (JumpSpeed(c, gravityY) <= Dot(s.velocity, direction) ==> Jump(c, s, gravityY).velocity == s.velocity)
            && (Dot(s.velocity, direction) <= 0.0 ==> added == JumpSpeed(c, gravityY))
  {
    var a := -2.0 * gravityY;
    assert 0.0 <= a * c.settings.jumpHeight;
    assert 0.0 <= JumpSpeed(c, gravityY);
  }

  /** How many of `n` successive jump requests fire while the sphere touches nothing. The jumps
      follow one another directly: the `UpdateState` of the physics steps in between changes
      nothing the eligibility depends on while the sphere stays airborne
      (`AirborneUpdateKeepsEligibility`). */
  function AirborneJumps(c: Config, s: LocomotionState, gravityY: real, n: nat): nat
    decreases n
  {
    if n == 0 then 0
    else (if JumpEligibility(c, s) == NoJump then 0 else 1) + AirborneJumps(c, Jump(c, s, gravityY), gravityY, n - 1)
  }

  /** While the sphere is not grounded, `UpdateState` keeps the contact counts and `jumpPhase`, so
      a jump request gets the same branch before and after it. */
  lemma AirborneUpdateKeepsEligibility(c: Config, s: LocomotionState, bodyVelocity: Vec3, probe: Option<Hit>)
    requires !Grounded(c, s, bodyVelocity, probe)
    ensures JumpEligibility(c, UpdateState(c, s, bodyVelocity, probe)) == JumpEligibility(c, s)
  {
    UpdateStateOutcome(c, s, bodyVelocity, probe);
  }

  /** Air jumps are never used up: with any allowed, every one of `n` requests in the air fires,
      since `jumpPhase` never rises above 1. */
  lemma {:induction false} AirJumpsNeverExhausted(c: Config, s: LocomotionState, gravityY: real, n: nat)
    requires !OnGround(s) && !OnSteep(s) && PhaseInvariant(s)
    requires c.settings.maxAirJumps >= 1
    ensures AirborneJumps(c, s, gravityY, n) == n
    decreases n
  {
    if n > 0 {
      JumpFrame(c, s, gravityY);
      var r := Jump(c, s, gravityY);
      assert r.jumpPhase == 1.0;
      AirJumpsNeverExhausted(c, r, gravityY, n - 1);
    }
  }

  /** With the default `maxAirJumps` of 0 only a ground or steep jump can fire. */
  lemma DefaultSettingsNeverAirJump(c: Config, s: LocomotionState)
    requires c.settings == Defaults()
    ensures JumpEligibility(c, s) != FromAir
    ensures JumpEligibility(c, s) == NoJump <==> !OnGround(s) && !OnSteep(s)
  {
  }

  // ---------------------------------------------------------------------------
  // Physics step and input frame

  /** What of the state each stage of the step leaves alone. */
  lemma UpdateStateFrame(c: Config, s: LocomotionState, bodyVelocity: Vec3, probe: Option<Hit>)
    ensures var r := UpdateState(c, s, bodyVelocity, probe);
            && r.desiredJump == s.desiredJump
            && r.desiredVelocity == s.desiredVelocity
            && r.stepsSinceLastJump == Increment(s.stepsSinceLastJump)
  {
  }

  lemma AdjustVelocityFrame(c: Config, s: LocomotionState, deltaTime: real)
    ensures AdjustVelocity(c, s, deltaTime) == s.(velocity := AdjustVelocity(c, s, deltaTime).velocity)
  {
  }

  lemma JumpFrame(c: Config, s: LocomotionState, gravityY: real)
    ensures var r := Jump(c, s, gravityY);
            r == s.(velocity := r.velocity, jumpPhase := r.jumpPhase, stepsSinceLastJump := r.stepsSinceLastJump)
  {
  }

  /** After every physics step the accumulators are zero and the jump request is consumed,
      whatever branch was taken; the velocity the step wrote to the body is the one it keeps. */
  lemma FixedUpdateClearsContacts(c: Config, s: LocomotionState, bodyVelocity: Vec3, probe: Option<Hit>,
                                  deltaTime: real, gravityY: real)
    ensures var r := FixedUpdate(c, s, bodyVelocity, probe, deltaTime, gravityY);
            var written := StepBeforeClear(c, s, bodyVelocity, probe, deltaTime, gravityY);
            && Cleared(r)
            && !r.desiredJump
            && r.velocity == written.velocity
            && r.jumpPhase == written.jumpPhase
            && r.stepsSinceLastGrounded == written.stepsSinceLastGrounded
            && r.stepsSinceLastJump == written.stepsSinceLastJump
            && r.desiredVelocity == s.desiredVelocity
            && (!s.desiredJump ==>
                  r.velocity == AdjustVelocity(c, UpdateState(c, s, bodyVelocity, probe), deltaTime).velocity
                  && r.stepsSinceLastJump == Increment(s.stepsSinceLastJump))
  {
    var u := UpdateState(c, s, bodyVelocity, probe);
    UpdateStateFrame(c, s, bodyVelocity, probe);
    var a := AdjustVelocity(c, u, deltaTime);
    AdjustVelocityFrame(c, u, deltaTime);
    if a.desiredJump {
      JumpFrame(c, a.(desiredJump := false), gravityY);
    }
  }

  /** `jumpPhase` stays 0 or 1 across every physics step. */
  lemma FixedUpdateKeepsPhaseInvariant(c: Config, s: LocomotionState, bodyVelocity: Vec3, probe: Option<Hit>,
                                    deltaTime: real, gravityY: real)
    requires PhaseInvariant(s)
    ensures PhaseInvariant(FixedUpdate(c, s, bodyVelocity, probe, deltaTime, gravityY))
  {
    var u := UpdateState(c, s, bodyVelocity, probe);
    UpdateStatePhase(c, s, bodyVelocity, probe);
    var a := AdjustVelocity(c, u, deltaTime);
    AdjustVelocityFrame(c, u, deltaTime);
    if a.desiredJump {
      JumpOutcome(c, a.(desiredJump := false), gravityY);
    }
  }

  lemma UpdateStatePhase(c: Config, s: LocomotionState, bodyVelocity: Vec3, probe: Option<Hit>)
    requires PhaseInvariant(s)
    ensures PhaseInvariant(UpdateState(c, s, bodyVelocity, probe))
  {
  }

  /** The input frame sets only the intent: a horizontal desired velocity and the jump flag,
      which it overwrites with this frame's key press. */
  lemma UpdateSetsIntent(c: Config, s: LocomotionState, axes: Vec2, jumpKeyDown: bool)
    ensures var r := Update(c, s, axes, jumpKeyDown);
            && r.desiredVelocity.y == 0.0
            && r.desiredJump == jumpKeyDown
            && r == s.(desiredVelocity := r.desiredVelocity, desiredJump := jumpKeyDown)
            && (c.math.ClampMagnitude(axes, 1.0) == axes ==>
                  r.desiredVelocity == Vec3(axes.x * c.settings.maxSpeed, 0.0, axes.y * c.settings.maxSpeed))
  {
  }

  /** At rest on flat ground, pushing the stick fully right for one 0.02 s step with an
      acceleration of 10 gives a velocity of at most 0.2 along x. */
  lemma StartWalkingFromRest(c: Config, s: LocomotionState, gravityY: real)
    requires s.groundContactCount == 1 && s.contactNormal == Up
    requires c.math.Normalize(Right) == Right && c.math.Normalize(Forward) == Forward
    requires c.math.ClampMagnitude(Vec2(1.0, 0.0), 1.0) == Vec2(1.0, 0.0)
    requires c.settings.maxAcceleration == 10.0 && 0.0 <= c.settings.maxSpeed
    ensures var intent := Update(c, s, Vec2(1.0, 0.0), false);
            FixedUpdate(c, intent, Zero, None, 0.02, gravityY).velocity
              == Vec3(if c.settings.maxSpeed <= 0.2 then c.settings.maxSpeed else 0.2, 0.0, 0.0)
  {
    var intent := Update(c, s, Vec2(1.0, 0.0), false);
    UpdateSetsIntent(c, s, Vec2(1.0, 0.0), false);
    assert intent.desiredVelocity == Vec3(c.settings.maxSpeed, 0.0, 0.0);
    FixedUpdateClearsContacts(c, intent, Zero, None, 0.02, gravityY);
    var u := UpdateState(c, intent, Zero, None);
    UpdateStayingOnGround(c, intent, Zero, None);
    AdjustVelocityOnFlatContact(c, u, 0.02);
    TargetsFromRest(c, u);
  }

  lemma UpdateStayingOnGround(c: Config, s: LocomotionState, bodyVelocity: Vec3, probe: Option<Hit>)
    requires s.groundContactCount == 1
    ensures UpdateState(c, s, bodyVelocity, probe)
         == Counted(s, bodyVelocity).(stepsSinceLastGrounded := 0, jumpPhase := 0.0)
  {
  }

  lemma TargetsFromRest(c: Config, s: LocomotionState)
    requires s.velocity == Zero && OnGround(s)
    requires s.desiredVelocity == Vec3(c.settings.maxSpeed, 0.0, 0.0)
    requires c.settings.maxAcceleration == 10.0 && 0.0 <= c.settings.maxSpeed
    ensures AxisTargets(c, s, 0.02) == (if c.settings.maxSpeed <= 0.2 then c.settings.maxSpeed else 0.2, 0.0)
  {
    assert MaxSpeedChange(c, s, 0.02) == 0.2;
  }
}
