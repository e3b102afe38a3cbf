# MovingSphere: a verified model of a rolling-sphere character controller

This project models the core of a Unity character controller. A sphere with a Rigidbody is
moved by player input. It has the following behaviours:

- It accelerates towards a desired velocity along the plane of the ground it stands on.
- It counts ground and steep contacts from collision callbacks.
- It snaps back onto the ground after a small bump, using a downward probe.
- It promotes a crevice of steep contacts to ground.
- It jumps, from the ground, from a steep wall or in the air, with a launch speed that is
  reduced by the speed it already has.

Its tunable parameters come from a settings asset.

The model has five modules:

- `Vectors` (vectors.dfy): `Vector3` over the reals. The engine's floating-point routines
  (`normalized`, `magnitude`, `Mathf.Sqrt`, `Mathf.Cos`, `Mathf.Deg2Rad`,
  `Vector2.ClampMagnitude`) are carried uninterpreted in a `MathOps` value.
- `Settings` (settings.dfy): the settings asset as a datatype. It holds the default values, the
  ranges the inspector declares, and 32-bit layer masks with C#'s `1 << layer`.
- `Locomotion` (locomotion.dfy): the component's fields as one `LocomotionState` value, with one
  function per method of the component. Each function does what the code does, branch for
  branch.
- `Sphere` (moving_sphere.dfy): the component itself. It is the class `MovingSphere`, whose
  fields its methods update in place. Every method is proved to leave the fields exactly as
  the matching `Locomotion` function says. `FixedUpdate` also writes the body's velocity and
  keeps the class invariant `Valid()`.
- `LocomotionProofs` (locomotion_proofs.dfy): what the functions promise. It covers contact
  classification and accumulation, grounded resolution, the speed-change limit, the jump
  branches and impulse, and the clearing of contacts at the end of every physics step.
- `Findings` (findings.dfy): two places where the code does something other than what it
  evidently means. Each has an input that shows the difference and a corrected definition
  with the intended property proved.

The model follows the code as written, including three behaviours worth knowing:

- `Update` overwrites `desiredJump` with this frame's key press (MovingSphere.cs:64). A press
  is lost when two render frames fall between physics steps and the second one has no press.
- `jumpPhase` is only ever set to 0 or 1, so with `maxAirJumps >= 1` the test `jumpPhase <= maxAirJumps` never refuses a jump.
- `AdjustVelocity` moves the world x and z velocity components rather than the components
  along the contact plane. See "## Findings".

## Model

| member | source | states |
|---|---|---|
| Settings.Defaults | Assets/Scripts/SettingsSphere.cs:7-31 | The default settings lie in the ranges the inspector declares, allow no air jump, have a ground angle no steeper than the stairs angle, and select every layer in both masks. |
| Settings.InDeclaredRanges | Assets/Scripts/SettingsSphere.cs:7-29 | The `[Range]` and `[Min]` bounds of every field, between the ends of each slider and `probeDistance` not negative. Stated of the defaults by `Settings.Defaults`. |
| Settings.LayerBitSelectsOnlyItsLayer | Assets/Scripts/MovingSphere.cs:240-244 | The mask `1 << layer` has the bit of exactly those layers that agree with `layer` in their low five bits, because C# masks the shift count. |
| Settings.MaskTestHasLayer | Assets/Scripts/MovingSphere.cs:242 | The test `(mask & (1 << layer)) != 0` holds exactly when bit `layer % 32` of the mask, shifted down to the lowest place, is 1. |
| Settings.EveryLayerHasAllLayers | Assets/Scripts/SettingsSphere.cs:31 | The mask `-1` selects every layer. |
| Locomotion.GetMinDot | Assets/Scripts/MovingSphere.cs:240-244 | The threshold is the stairs one exactly when bit `layer % 32` of `stairsMask` is set, and the ground one otherwise. |
| Locomotion.MoveTowards | Assets/Scripts/MovingSphere.cs:96-99 | `Mathf.MoveTowards` reaches the target when it is within `maxDelta`. Otherwise it moves exactly `maxDelta` towards the target. It never moves more than `maxDelta` and never passes the target. |
| Locomotion.JumpImpulse | Assets/Scripts/MovingSphere.cs:155-163 | The added speed is between 0 and the launch speed. It is zero once the aligned speed reaches the launch speed and the full launch speed when the aligned speed is not positive. Otherwise the aligned speed plus the added speed is the larger of the two. |
| Locomotion.Increment | Assets/Scripts/MovingSphere.cs:111-112 | `x++` on a C# `int`: the result is one more than `x` modulo 2^32, and exactly one more below the largest value. |
| Locomotion.CosOfDegrees | Assets/Scripts/MovingSphere.cs:37-41 | `Mathf.Cos(angle * Mathf.Deg2Rad)`, the threshold OnValidate caches. Used by `Sphere.MovingSphere.OnValidate`. |
| Locomotion.Initial | Assets/Scripts/MovingSphere.cs:8-27 | The fields at C#'s default values. Used by `Sphere.MovingSphere.Awake`. |
| Locomotion.Validated | Assets/Scripts/MovingSphere.cs:37-41 | The two cached thresholds are the cosines of the two angles. Established by `Sphere.MovingSphere.OnValidate` and `Sphere.MovingSphere.Awake`. |
| Locomotion.OnGround | Assets/Scripts/MovingSphere.cs:15 | `OnGround` is `groundContactCount > 0`. Used by `LocomotionProofs.UpdateStateOutcome` and `LocomotionProofs.JumpOutcome`. |
| Locomotion.OnSteep | Assets/Scripts/MovingSphere.cs:16 | `OnSteep` is `steepContactCount > 0`. Used by `LocomotionProofs.JumpOutcome`. |
| Locomotion.Classify | Assets/Scripts/MovingSphere.cs:193-201 | The branch one contact takes in the loop. Its meaning is stated by `LocomotionProofs.ClassificationThresholds`. |
| Locomotion.TallyOf | Assets/Scripts/MovingSphere.cs:193-201 | What one contact adds to the four accumulators. Stated by `LocomotionProofs.TallyStep`. |
| Locomotion.Accumulate | Assets/Scripts/MovingSphere.cs:189-202 | What the whole loop adds. Stated by `LocomotionProofs.AccumulateAppend`, `AccumulateSnoc` and `AccumulateBound`. |
| Locomotion.AddTally | Assets/Scripts/MovingSphere.cs:193-201 | The accumulators with a tally added. Stated by `LocomotionProofs.AddTallyPlus`. |
| Locomotion.EvaluateCollision | Assets/Scripts/MovingSphere.cs:186-203 | The state after one collision callback: the old accumulators plus the tally of its contacts, with the threshold of its layer. Stated by `LocomotionProofs.EvaluateCollisionOneContact`, `EvaluateCollisionGrows` and `EvaluateCollisionInPieces`; `Sphere.MovingSphere.EvaluateCollision` is proved equal to it. |
| Locomotion.SnappedVelocity | Assets/Scripts/MovingSphere.cs:230-234 | The velocity after a snap. Stated by `LocomotionProofs.SnapToGroundOutcome`. |
| Locomotion.SnapToGround | Assets/Scripts/MovingSphere.cs:205-238 | The four guards in order, then the snap. Stated by `LocomotionProofs.SnapToGroundOutcome`. |
| Locomotion.CanSnap | Assets/Scripts/MovingSphere.cs:207-228 | The four guards of `SnapToGround`: grounded last step and not jumped in the last two steps, speed at most `maxSnapSpeed`, a probe hit, and a walkable hit normal for its layer. Stated by `LocomotionProofs.SnapToGroundOutcome`, in both directions. |
| Locomotion.CheckSteepContacts | Assets/Scripts/MovingSphere.cs:246-260 | Promotion of two or more steep contacts. Stated by `LocomotionProofs.CheckSteepContactsOutcome`. |
| Locomotion.Counted | Assets/Scripts/MovingSphere.cs:111-113 | The two counters bumped and the body's velocity read. Stated by `LocomotionProofs.UpdateStateOutcome` and `UpdateStayingOnGround`. |
| Locomotion.ResolveGround | Assets/Scripts/MovingSphere.cs:114 | `OnGround`, else `SnapToGround()`, else `CheckSteepContacts()`, with C#'s short-circuit. Stated by `LocomotionProofs.UpdateStateOutcome`. |
| Locomotion.UpdateState | Assets/Scripts/MovingSphere.cs:109-128 | The first stage of a physics step. Stated by `LocomotionProofs.UpdateStateOutcome`, `UpdateStateFrame` and `UpdateStatePhase`. |
| Locomotion.ProjectOnContactPlane | Assets/Scripts/MovingSphere.cs:104-107 | A vector minus its part along the contact normal. Stated by `LocomotionProofs.ProjectionLiesInContactPlane`, `ProjectedAxesSkew` and `FlatProjection`. |
| Locomotion.ContactAxes | Assets/Scripts/MovingSphere.cs:87-88 | `xAxis` and `zAxis`. Stated by `LocomotionProofs.FlatContactAxes` and `ProjectedAxesOrthogonal`. |
| Locomotion.Acceleration | Assets/Scripts/MovingSphere.cs:93 | The ground or the air acceleration. Stated by `LocomotionProofs.AdjustVelocityLimits`. |
| Locomotion.MaxSpeedChange | Assets/Scripts/MovingSphere.cs:94 | `acceleration * deltaTime`. Stated by `LocomotionProofs.AdjustVelocityLimits`. |
| Locomotion.AxisTargets | Assets/Scripts/MovingSphere.cs:96-99 | `newX` and `newZ`, moved from `velocity.x` and `velocity.z` as written. Stated by `LocomotionProofs.AdjustVelocityLimits`. |
| Locomotion.Steer | Assets/Scripts/MovingSphere.cs:90-101 | Line 101's update, with `currentX` and `currentZ`. Stated by `LocomotionProofs.SteerReachesTargets` and `SteerAlongWorldAxes`. |
| Locomotion.AdjustVelocity | Assets/Scripts/MovingSphere.cs:85-103 | The second stage of a physics step. Stated by `LocomotionProofs.AdjustVelocityLimits`, `AdjustVelocitySetsAxisComponents`, `AdjustVelocityOnFlatContact` and `AdjustVelocityFrame`; `Sphere.MovingSphere.AdjustVelocity` is proved equal to it. |
| Locomotion.JumpEligibility | Assets/Scripts/MovingSphere.cs:134-145 | Which of the three branches, or the early return, the jump takes. Stated by `LocomotionProofs.JumpOutcome`. |
| Locomotion.PhaseAfterJump | Assets/Scripts/MovingSphere.cs:134-145 | `jumpPhase` as the branch leaves it. Stated by `LocomotionProofs.JumpOutcome`. |
| Locomotion.JumpSpeed | Assets/Scripts/MovingSphere.cs:151 | `Mathf.Sqrt(-2 * gravity.y * jumpHeight)`. Stated by `LocomotionProofs.JumpImpulseBounds`. |
| Locomotion.JumpDirection | Assets/Scripts/MovingSphere.cs:153 | The branch's normal plus up, normalised. Stated by `LocomotionProofs.JumpImpulseBounds`. |
| Locomotion.Jump | Assets/Scripts/MovingSphere.cs:131-168 | The jump as written, with the dead reset at line 149. Stated by `LocomotionProofs.JumpOutcome`, `JumpImpulseBounds`, `JumpFrame` and `AirJumpsNeverExhausted`. |
| Locomotion.ClearState | Assets/Scripts/MovingSphere.cs:170-174 | The four accumulators zeroed. Stated by `LocomotionProofs.FixedUpdateClearsContacts`. |
| Locomotion.StepBeforeClear | Assets/Scripts/MovingSphere.cs:70-80 | The state whose velocity the step writes to the body. Stated by `LocomotionProofs.FixedUpdateClearsContacts`. |
| Locomotion.FixedUpdate | Assets/Scripts/MovingSphere.cs:68-83 | One physics step. Stated by `LocomotionProofs.FixedUpdateClearsContacts` and `FixedUpdateKeepsPhaseInvariant`. |
| Locomotion.Update | Assets/Scripts/MovingSphere.cs:54-66 | One render frame's input. Stated by `LocomotionProofs.UpdateSetsIntent`. |
| LocomotionProofs.ClassificationThresholds | Assets/Scripts/MovingSphere.cs:193-201 | A contact is ground if and only if `normal.y >= minDot`. It is steep if and only if `-0.01 < normal.y < minDot`. Otherwise it is ignored. |
| LocomotionProofs.TallyStep | Assets/Scripts/MovingSphere.cs:193-201 | One loop iteration adds 1 and the normal to the ground accumulators, or to the steep ones, or changes nothing, by the thresholds above. |
| LocomotionProofs.AccumulateAppend | Assets/Scripts/MovingSphere.cs:189-202 | Accumulating two runs of contacts in turn gives the sum of accumulating each run. |
| LocomotionProofs.AccumulateSnoc | Assets/Scripts/MovingSphere.cs:189-202 | The contacts so far plus one more tally as the earlier tally plus that contact's tally. This is the loop step of `Sphere.MovingSphere.EvaluateCollision`. |
| LocomotionProofs.AddTallyPlus | Assets/Scripts/MovingSphere.cs:186-203 | Adding two tallies to the state in turn is adding their sum. |
| LocomotionProofs.AccumulateBound | Assets/Scripts/MovingSphere.cs:189-202 | The counts rise by at most one per contact. |
| LocomotionProofs.EvaluateCollisionOneContact | Assets/Scripts/MovingSphere.cs:186-203 | For a single contact, the three outcomes are exact: the ground count and normal, or the steep count and normal, or nothing. |
| LocomotionProofs.EvaluateCollisionGrows | Assets/Scripts/MovingSphere.cs:186-203 | Contact counts never decrease and rise by at most the number of contacts. Only the four accumulators change. |
| LocomotionProofs.EvaluateCollisionInPieces | Assets/Scripts/MovingSphere.cs:176-203 | Collision callbacks accumulate without clearing. Reporting contacts in two callbacks has the same effect as reporting them in one. |
| LocomotionProofs.DefaultSettingsUseStairsThreshold | Assets/Scripts/MovingSphere.cs:240-244 | With the default masks, every layer gets the stairs threshold. |
| LocomotionProofs.SnapToGroundOutcome | Assets/Scripts/MovingSphere.cs:205-238 | Each of the four guards, on its own, prevents the snap, and a failed snap changes nothing. A snap sets one ground contact with the hit normal. Passing all four guards snaps. It changes the velocity only when the velocity points away from the surface, and then sets it to the normalised projection onto the surface scaled by the old magnitude. |
| LocomotionProofs.CheckSteepContactsOutcome | Assets/Scripts/MovingSphere.cs:246-260 | It promotes if and only if there are two or more steep contacts whose normalised sum is walkable. A promotion sets one ground contact along that normal. The steep normal is normalised whenever there are two or more steep contacts. |
| LocomotionProofs.SteepPromotes | Assets/Scripts/MovingSphere.cs:248-251 | Two or more steep contacts whose normalised sum is walkable. `LocomotionProofs.CheckSteepContactsOutcome` proves the promotion happens exactly then. |
| LocomotionProofs.UpdateStateOutcome | Assets/Scripts/MovingSphere.cs:109-128 | The step counters advance with 32-bit wrap-around. The sphere ends on ground if and only if it had a contact, could snap, or could promote steep contacts. Grounded resets `stepsSinceLastGrounded` and `jumpPhase`; otherwise the contact normal becomes up. The `||` short-circuits: with ground contact neither the snap nor the steep check runs, and after a snap the steep check does not run. |
| LocomotionProofs.Grounded | Assets/Scripts/MovingSphere.cs:114 | The condition of the `if`: a ground contact, else a snap, else a steep promotion. `LocomotionProofs.UpdateStateOutcome` proves UpdateState ends on ground exactly then. |
| LocomotionProofs.AirborneUpdateKeepsEligibility | Assets/Scripts/MovingSphere.cs:109-128 | When the sphere is not grounded, UpdateState leaves the contact counts and `jumpPhase` as they were, so a jump request takes the same branch before and after it. |
| LocomotionProofs.UpdateStatePhase | Assets/Scripts/MovingSphere.cs:109-128 | UpdateState keeps `jumpPhase` at 0 or 1. |
| LocomotionProofs.UpdateStayingOnGround | Assets/Scripts/MovingSphere.cs:109-128 | With one ground contact, UpdateState only counts the step, reads the body velocity and resets `stepsSinceLastGrounded` and `jumpPhase`. |
| LocomotionProofs.AdjustVelocityLimits | Assets/Scripts/MovingSphere.cs:93-99 | The acceleration is the ground one exactly when the sphere is on ground. `newX` and `newZ` differ from `velocity.x` and `velocity.z` by at most `acceleration * deltaTime`. They lie between the current and the desired component, and reach the desired component when it is within that limit. |
| LocomotionProofs.AdjustVelocityFrame | Assets/Scripts/MovingSphere.cs:85-102 | AdjustVelocity changes only the velocity. |
| LocomotionProofs.ProjectedAxesSkew | Assets/Scripts/MovingSphere.cs:87-88 | For a unit contact normal `n`, the projections of the world x and z axes have dot product `-n.x * n.z`. |
| LocomotionProofs.ProjectedAxesOrthogonal | Assets/Scripts/MovingSphere.cs:87-88 | For a unit contact normal, the projected world axes are orthogonal exactly when the normal has no x or no z component. |
| LocomotionProofs.AdjustVelocitySetsAxisComponents | Assets/Scripts/MovingSphere.cs:85-102 | When the contact axes are orthonormal, the new velocity's component along each contact axis is `newX` and `newZ`. |
| LocomotionProofs.SteerReachesTargets | Assets/Scripts/MovingSphere.cs:101 | Adding `xAxis * (newX - currentX) + zAxis * (newZ - currentZ)` sets the components along orthonormal axes to `newX` and `newZ`. |
| LocomotionProofs.FlatContactAxes | Assets/Scripts/MovingSphere.cs:87-88 | On flat ground the contact axes are the world x and z axes. |
| LocomotionProofs.AdjustVelocityOnFlatContact | Assets/Scripts/MovingSphere.cs:85-102 | On flat ground the new velocity is `(newX, velocity.y, newZ)`. |
| LocomotionProofs.ProjectionLiesInContactPlane | Assets/Scripts/MovingSphere.cs:104-107 | The projection of any vector is orthogonal to a unit contact normal. |
| LocomotionProofs.TargetsFromRest | Assets/Scripts/MovingSphere.cs:93-99 | From rest on ground, with an acceleration of 10 and a 0.02 s step, the x target is the desired speed capped at 0.2. |
| LocomotionProofs.JumpOutcome | Assets/Scripts/MovingSphere.cs:131-149 | Branch order: ground before steep before air. A request is refused if and only if there is no contact and either air jumps are disabled or `jumpPhase > maxAirJumps`; a refused request changes nothing. A taken jump resets `stepsSinceLastJump`. Steep sets the phase to 0, a first air jump sets it to 1, and ground leaves it. The phase stays 0 or 1, and only velocity, phase and counter change. |
| LocomotionProofs.JumpImpulseBounds | Assets/Scripts/MovingSphere.cs:151-165 | The velocity gains `jumpDirection * speed`, with the speed between 0 and `sqrt(-2 g h)`. The velocity is unchanged when it already has the launch speed along the direction. The full launch speed is added when the velocity does not point along the direction. |
| LocomotionProofs.UpdateStateFrame | Assets/Scripts/MovingSphere.cs:109-128 | UpdateState keeps the desired velocity and the jump request and bumps `stepsSinceLastJump`. |
| LocomotionProofs.JumpFrame | Assets/Scripts/MovingSphere.cs:131-168 | The jump changes only the velocity, `jumpPhase` and `stepsSinceLastJump`. |
| LocomotionProofs.AirborneJumps | Assets/Scripts/MovingSphere.cs:131-149 | How many of `n` successive jump requests fire, as written. Stated by `LocomotionProofs.AirJumpsNeverExhausted`. |
| LocomotionProofs.AirJumpsNeverExhausted | Assets/Scripts/MovingSphere.cs:140-149 | As written, with `maxAirJumps >= 1`, every one of `n` jump requests in the air fires. |
| LocomotionProofs.DefaultSettingsNeverAirJump | Assets/Scripts/MovingSphere.cs:134-145 | With the default settings no air jump fires. A request is refused exactly when there is no contact. |
| LocomotionProofs.FixedUpdateClearsContacts | Assets/Scripts/MovingSphere.cs:68-83 | After every physics step the accumulators are zero and the jump request is consumed. The velocity kept is the one written to the body, and the desired velocity is untouched. Without a jump request the velocity is the adjusted one. |
| LocomotionProofs.FixedUpdateKeepsPhaseInvariant | Assets/Scripts/MovingSphere.cs:68-83 | Each physics step keeps `jumpPhase` at 0 or 1. |
| LocomotionProofs.UpdateSetsIntent | Assets/Scripts/MovingSphere.cs:54-66 | The input frame sets only the desired velocity, which is horizontal and `(x, 0, y) * maxSpeed` for an unclamped input, and sets `desiredJump` to this frame's key press. |
| LocomotionProofs.StartWalkingFromRest | Assets/Scripts/MovingSphere.cs:54-102 | From rest on flat ground, a full right input followed by one 0.02 s step with acceleration 10 gives velocity `(min(maxSpeed, 0.2), 0, 0)`. |
| Sphere.MovingSphere.Awake | Assets/Scripts/MovingSphere.cs:43-47 | The fields start at C#'s defaults and the thresholds are computed, so `Valid()` holds. |
| Sphere.MovingSphere.OnValidate | Assets/Scripts/MovingSphere.cs:37-41 | The cached thresholds become the cosines of the two angles, and no other field changes. |
| Sphere.MovingSphere.Update | Assets/Scripts/MovingSphere.cs:54-66 | The fields become `Locomotion.Update` of the old ones. |
| Sphere.MovingSphere.FixedUpdate | Assets/Scripts/MovingSphere.cs:68-83 | The fields become `Locomotion.FixedUpdate` of the old ones and the body's velocity. The body gets the velocity before the clear. `Valid()` is kept. |
| Sphere.MovingSphere.AdjustVelocity | Assets/Scripts/MovingSphere.cs:85-103 | The fields become `Locomotion.AdjustVelocity` of the old ones. |
| Sphere.MovingSphere.UpdateState | Assets/Scripts/MovingSphere.cs:109-128 | The fields become `Locomotion.UpdateState` of the old ones, with the short-circuit order of the grounded test. |
| Sphere.MovingSphere.Jump | Assets/Scripts/MovingSphere.cs:131-168 | The fields become `Locomotion.Jump` of the old ones. |
| Sphere.MovingSphere.ClearState | Assets/Scripts/MovingSphere.cs:170-174 | The counts and the normal sums are zeroed and nothing else changes. |
| Sphere.MovingSphere.OnCollisionEnter | Assets/Scripts/MovingSphere.cs:176-179 | The same as EvaluateCollision. |
| Sphere.MovingSphere.OnCollisionStay | Assets/Scripts/MovingSphere.cs:181-184 | The same as EvaluateCollision. |
| Sphere.MovingSphere.EvaluateCollision | Assets/Scripts/MovingSphere.cs:186-203 | The loop leaves the fields as `Locomotion.EvaluateCollision` of the old ones, that is, the old state plus the tally of all contacts. |
| Sphere.MovingSphere.SnapToGround | Assets/Scripts/MovingSphere.cs:205-238 | The result and the fields are as `Locomotion.SnapToGround` says. |
| Sphere.MovingSphere.CheckSteepContacts | Assets/Scripts/MovingSphere.cs:246-260 | The result and the fields are as `Locomotion.CheckSteepContacts` says. |
| Findings.SlopeSpeedChangeAsWritten | Assets/Scripts/MovingSphere.cs:96-99 | On a slope, the code as written changes the speed along the contact x axis by 1 in one step, more than the 0.2 limit. |
| Findings.SlopeSpeedChangeCorrected | Assets/Scripts/MovingSphere.cs:96-99 | On the same slope, the corrected version changes that speed by exactly the limit, to 4.8. |
| Findings.AdjustVelocityIntendedRespectsLimit | Assets/Scripts/MovingSphere.cs:90-101 | Corrected, when the contact axes are orthonormal (ground whose normal has no x or no z component), the speed along each contact axis changes by at most `acceleration * deltaTime`, towards the desired speed and without passing it. |
| Findings.AsWrittenAgreesOnFlatGround | Assets/Scripts/MovingSphere.cs:85-102 | On flat ground the code as written and the corrected version agree. |
| Findings.AxisTargetsIntended | Assets/Scripts/MovingSphere.cs:90-99 | `newX` and `newZ` as evidently intended, moved from `currentX` and `currentZ`. Stated by `Findings.AdjustVelocityIntendedRespectsLimit`. |
| Findings.AdjustVelocityIntended | Assets/Scripts/MovingSphere.cs:85-103 | AdjustVelocity with the corrected targets. Stated by `Findings.AdjustVelocityIntendedRespectsLimit`, `SlopeSpeedChangeCorrected` and `AsWrittenAgreesOnFlatGround`. |
| Findings.JumpIntended | Assets/Scripts/MovingSphere.cs:131-168 | The jump with each fired jump counted in `jumpPhase`. Stated by `Findings.AirJumpsAreLimited` and `OneGroundJumpThenTwoAirJumps`. |
| Findings.AirborneJumpsIntended | Assets/Scripts/MovingSphere.cs:131-149 | How many of `n` successive requests fire, corrected. Stated by `Findings.AirJumpsAreLimited`. |
| Findings.AirJumpsLeft | Assets/Scripts/MovingSphere.cs:140-145 | The air jumps the corrected phase still allows. Stated by `Findings.AirJumpsAreLimited`. |
| Findings.AirJumpsAreLimited | Assets/Scripts/MovingSphere.cs:131-149 | Corrected, airborne at phase `p`, `n` requests fire `min(n, jumps left)` times and never more than `maxAirJumps`. |
| Findings.OneGroundJumpThenTwoAirJumps | Assets/Scripts/MovingSphere.cs:131-149 | Corrected, with `maxAirJumps = 2`: a ground jump at phase 0 fires and leaves the phase at 1. Airborne with that phase, `n` requests fire `min(n, 2)` air jumps, so one ground jump and two air jumps in all. |
| Findings.ThreePressesWithOneAirJump | Assets/Scripts/MovingSphere.cs:140-149 | With one air jump allowed, three presses in the air fire three jumps as written and one when corrected. |

## Left out

- Floating point: all arithmetic is on the reals. `normalized`, `magnitude`, `Mathf.Sqrt`,
  `Mathf.Cos`, `Mathf.Deg2Rad` and `Vector2.ClampMagnitude` are uninterpreted functions.
  The lemmas state what they need of them (a square root is not negative, normalising a unit
  axis returns it) as preconditions.
- `Physics.Raycast` in `SnapToGround` becomes a parameter: what the probe reports (the hit's
  normal and layer, or nothing). `probeDistance`, `probeMask` and `body.position` are
  therefore not used.
- `Input.GetAxis` and `Input.GetKeyDown` become parameters of `Update`. `Time.deltaTime` and
  `Physics.gravity.y` become parameters of `FixedUpdate`.
- `GetComponent<Rigidbody>()`: `Awake` is given the body. Of the Rigidbody, only its velocity is
  modelled. The physics engine that moves it between steps is not part of this model.
- Unity's scheduling of `Update`, `FixedUpdate` and the collision callbacks is not modelled.
  Each callback is an operation on the state, and `FixedUpdate` composes its stages in the
  code's order.
- The callbacks receive a `Collision` reduced to the other object's layer and its contact
  normals.
- The contact counts are unbounded naturals: the C# `int` overflow after 2^31 contacts in
  one step is not modelled. The step counters do wrap around (`Increment`).
- The settings are a constant of the component. The editor re-runs `OnValidate` when an asset
  is edited, but that is modelled only as the `OnValidate` method itself.
- `[Range]` and `[Min]` become the predicate `InDeclaredRanges`, because the editor enforces
  them only on its sliders. `[CreateAssetMenu]` and `[SerializeField]` have no behaviour to
  model.
- `Locomotion.MoveTowards` follows `Mathf.MoveTowards` as Unity documents it, with the sign
  of zero taken as positive.
- LocomotionProofs.AdjustVelocitySetsAxisComponents: it assumes that the contact axes are
  orthonormal. For a unit normal `n` the projected axes are orthogonal only when
  `n.x * n.z == 0` (`LocomotionProofs.ProjectedAxesOrthogonal`), so the lemma covers only slopes
  that face along a world axis. On other slopes, line 101 also shifts the component along each
  axis by the other axis's change times `xAxis · zAxis`. The unit length of the normalised axes
  is assumed because `Normalize` is not interpreted.
- Findings.AdjustVelocityIntendedRespectsLimit: it carries the same assumption, so the corrected
  limit is proved only for slopes that face along a world axis. On other slopes even the
  corrected update can exceed `maxSpeedChange` along an axis.

## Findings

| source | as written | input that shows it | evidently intended | confidence | as-written member | corrected member |
|---|---|---|---|---|---|---|
| Assets/Scripts/MovingSphere.cs:96-99 | `newX` and `newZ` move the world components `velocity.x` and `velocity.z` towards the goal, but the update subtracts the contact-axis components `currentX` and `currentZ`. | Ground normal (0.6, 0.8, 0), velocity (4, -3, 0) (speed 5 along the slope's x axis), desired (4, 0, 0), acceleration 10, step 0.02 s. The speed along the slope drops to 4, a change of 1 against a limit of 0.2. | `MoveTowards(currentX, …)` and `MoveTowards(currentZ, …)`, so that, on ground whose normal has no x or no z component, the speed along each contact axis changes by at most `maxSpeedChange` (4.8 here). | high; not executed | Findings.SlopeSpeedChangeAsWritten | Findings.AdjustVelocityIntendedRespectsLimit |
| Assets/Scripts/MovingSphere.cs:140-149 | `jumpPhase` is only ever set to 0 or 1, and nothing counts a jump. The reset guarded by `stepsSinceLastJump > 1` comes right after the counter is zeroed, so it never fires. | `maxAirJumps = 1` and airborne at `jumpPhase = 0`: three jump requests all fire. | Count each jump (`jumpPhase += 1` once a branch is taken), so `maxAirJumps` bounds the air jumps. | high; not executed | Findings.ThreePressesWithOneAirJump | Findings.AirJumpsAreLimited |

The rest of the model follows the code as written. The corrected definitions
(`Findings.AdjustVelocityIntended`, `Findings.JumpIntended`) stand beside it, and the properties
the code evidently intends are proved about them.
