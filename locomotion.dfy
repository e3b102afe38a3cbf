// The contact and jump state machine of MovingSphere as pure functions over a
// snapshot of the controller's fields. Each function mirrors one method of the
// component; the class in moving_sphere.dfy is proved to follow them step by step.

module Locomotion {
  import opened Vectors
  import opened Settings

  /** A C# `int`. */
  newtype int32 = x: int | -0x8000_0000 <= x < 0x8000_0000

  const Int32Max: int32 := 0x7FFF_FFFF
  const Int32Min: int32 := -0x8000_0000

  /** `x++` on a C# `int` in an unchecked context: the largest value wraps to the smallest. */
  function Increment(x: int32): (r: int32)
    ensures (r as int - x as int - 1) % 0x1_0000_0000 == 0
    ensures x < Int32Max ==> r as int == x as int + 1
  {
    if x == Int32Max then Int32Min else x + 1
  }

  datatype Option<T> = None | Some(value: T)

  /** What the downward raycast reports: the surface normal and the hit object's layer. */
  datatype Hit = Hit(normal: Vec3, layer: int)

  /** One collision event: the other object's layer and the normal of each contact point. */
  datatype Collision = Collision(layer: int, normals: seq<Vec3>)

  /** The settings asset, the engine's numeric routines, and the two cached slope thresholds. */
  datatype Config = Config(
    settings: SettingsSphere,
    math: MathOps,
    minGroundDotProduct: real,
    minStairsDotProduct: real)

  function CosOfDegrees(m: MathOps, degrees: real): real {
    m.Cos(degrees * m.Deg2Rad)
  }

  /** The thresholds as `OnValidate` caches them. */
  predicate Validated(c: Config) {
    && c.minGroundDotProduct == CosOfDegrees(c.math, c.settings.maxGroundAngle)
    && c.minStairsDotProduct == CosOfDegrees(c.math, c.settings.maxStairsAngle)
  }

  /** The fields of the component that its methods update. */
  datatype LocomotionState = LocomotionState(
    velocity: Vec3,
    desiredVelocity: Vec3,
    desiredJump: bool,
    groundContactCount: nat,
    steepContactCount: nat,
    contactNormal: Vec3,
    steepNormal: Vec3,
    jumpPhase: real,
    stepsSinceLastGrounded: int32,
    stepsSinceLastJump: int32)

  /** C#'s default field values. */
  function Initial(): LocomotionState {
    LocomotionState(Zero, Zero, false, 0, 0, Zero, Zero, 0.0, 0, 0)
  }

  /** Every assignment to `jumpPhase` stores 0 or 1. */
  predicate PhaseInvariant(s: LocomotionState) {
    s.jumpPhase == 0.0 || s.jumpPhase == 1.0
  }

  /** No contact has been accumulated since the last `ClearState`. */
  predicate Cleared(s: LocomotionState) {
    && s.groundContactCount == 0
    && s.steepContactCount == 0
    && s.contactNormal == Zero
    && s.steepNormal == Zero
  }

  predicate OnGround(s: LocomotionState) {
    s.groundContactCount > 0
  }

  predicate OnSteep(s: LocomotionState) {
    s.steepContactCount > 0
  }

  // ---------------------------------------------------------------------------
  // Slope thresholds and contact classification

  /** Stairs layers get the more permissive threshold. */
  function GetMinDot(c: Config, layer: int): (r: real)
    ensures r == if HasLayer(c.settings.stairsMask, layer) then c.minStairsDotProduct
                 else c.minGroundDotProduct
  {
    if (c.settings.stairsMask & LayerBit(layer)) == 0 then c.minGroundDotProduct
    else c.minStairsDotProduct
  }

  /** Normals pointing at least this far down are ceilings and are ignored. */
  const SteepLimit: real := -0.01

  datatype ContactKind = GroundContact | SteepContact | Ignored

  function Classify(normal: Vec3, minDot: real): ContactKind {
    if normal.y >= minDot then GroundContact
    else if normal.y > SteepLimit then SteepContact
    else Ignored
  }

  /** Counts and normal sums of the contacts of one kind. */
  datatype Tally = Tally(groundCount: nat, groundSum: Vec3, steepCount: nat, steepSum: Vec3)

  const NoContacts := Tally(0, Zero, 0, Zero)

  function Plus(a: Tally, b: Tally): Tally {
    Tally(a.groundCount + b.groundCount, Add(a.groundSum, b.groundSum),
          a.steepCount + b.steepCount, Add(a.steepSum, b.steepSum))
  }

  function TallyOf(normal: Vec3, minDot: real): Tally {
    match Classify(normal, minDot)
    case GroundContact => Tally(1, normal, 0, Zero)
    case SteepContact => Tally(0, Zero, 1, normal)
    case Ignored => NoContacts
  }

  /** What the contact loop adds over all the contacts of one collision. */
  function Accumulate(normals: seq<Vec3>, minDot: real): Tally {
    if normals == [] then NoContacts
    else Plus(TallyOf(normals[0], minDot), Accumulate(normals[1..], minDot))
  }

  /** The accumulators with a tally added to them. */
  function AddTally(s: LocomotionState, t: Tally): LocomotionState {
    s.(groundContactCount := s.groundContactCount + t.groundCount,
       contactNormal := Add(s.contactNormal, t.groundSum),
       steepContactCount := s.steepContactCount + t.steepCount,
       steepNormal := Add(s.steepNormal, t.steepSum))
  }

  function EvaluateCollision(c: Config, s: LocomotionState, collision: Collision): LocomotionState {
    AddTally(s, Accumulate(collision.normals, GetMinDot(c, collision.layer)))
  }

  // ---------------------------------------------------------------------------
  // Grounded resolution

  /** The guards of `SnapToGround`, in the order it tests them; failing any one returns false. */
  predicate CanSnap(c: Config, s: LocomotionState, probe: Option<Hit>) {
    && !(s.stepsSinceLastGrounded > 1 || s.stepsSinceLastJump <= 2)
    && !(c.math.Magnitude(s.velocity) > c.settings.maxSnapSpeed)
    && probe.Some?
    && !(probe.value.normal.y < GetMinDot(c, probe.value.layer))
  }

  /** Velocity after a snap: when it points away from the hit plane, its projection onto the plane,
      normalised and scaled by the old magnitude. */
  function SnappedVelocity(c: Config, velocity: Vec3, normal: Vec3): Vec3 {
    var speed := c.math.Magnitude(velocity);
    var dot := Dot(velocity, normal);
    if dot > 0.0 then Scale(c.math.Normalize(Sub(velocity, Scale(normal, dot))), speed)
    else velocity
  }

  /** `probe` is the result of the downward raycast, taken with the probe distance and mask. */
  function SnapToGround(c: Config, s: LocomotionState, probe: Option<Hit>): (bool, LocomotionState) {
    if CanSnap(c, s, probe) then
      (true, s.(groundContactCount := 1,
                contactNormal := probe.value.normal,
                velocity := SnappedVelocity(c, s.velocity, probe.value.normal)))
    else (false, s)
  }

  function CheckSteepContacts(c: Config, s: LocomotionState): (bool, LocomotionState) {
    if s.steepContactCount > 1 then
      var n := c.math.Normalize(s.steepNormal);
      if n.y >= c.minGroundDotProduct then
        (true, s.(steepNormal := n, groundContactCount := 1, contactNormal := n))
      else (false, s.(steepNormal := n))
    else (false, s)
  }

  /** The state after the two counters are bumped and the body's velocity is read. */
  function Counted(s: LocomotionState, bodyVelocity: Vec3): LocomotionState {
    s.(stepsSinceLastGrounded := Increment(s.stepsSinceLastGrounded),
       stepsSinceLastJump := Increment(s.stepsSinceLastJump),
       velocity := bodyVelocity)
  }

  /** `OnGround || SnapToGround() || CheckSteepContacts()`, with C#'s short-circuit. */
  function ResolveGround(c: Config, s: LocomotionState, probe: Option<Hit>): (bool, LocomotionState) {
    if OnGround(s) then (true, s)
    else
      var (snapped, t) := SnapToGround(c, s, probe);
      if snapped then (true, t) else CheckSteepContacts(c, t)
  }

  function UpdateState(c: Config, s: LocomotionState, bodyVelocity: Vec3, probe: Option<Hit>): LocomotionState {
    var (grounded, t) := ResolveGround(c, Counted(s, bodyVelocity), probe);
    if grounded then
      var g := t.(stepsSinceLastGrounded := 0, jumpPhase := 0.0);
      if g.groundContactCount > 1 then g.(contactNormal := c.math.Normalize(g.contactNormal)) else g
    else t.(contactNormal := Up)
  }

  // ---------------------------------------------------------------------------
  // Velocity adjustment

  function Abs(a: real): real {
    if a < 0.0 then -a else a
  }

  /** `Mathf.Sign`: 1 for zero and positive values. */
  function Sign(a: real): real {
    if a >= 0.0 then 1.0 else -1.0
  }

  /** `a` lies on the closed segment between `p` and `q`, whichever order they are in. */
  predicate Between(a: real, p: real, q: real) {
    (p <= a <= q) || (q <= a <= p)
  }

  /** `Mathf.MoveTowards`. */
  function MoveTowards(current: real, target: real, maxDelta: real): (r: real)
    ensures Abs(target - current) <= maxDelta ==> r == target
    ensures 0.0 <= maxDelta ==> Abs(r - current) <= maxDelta && Between(r, current, target)
    ensures 0.0 <= maxDelta < Abs(target - current) ==> Abs(r - current) == maxDelta
  {
    if Abs(target - current) <= maxDelta then target
    else if Sign(target - current) == 1.0 then current + maxDelta
    else current - maxDelta
  }

  function ProjectOnContactPlane(s: LocomotionState, v: Vec3): Vec3 {
    Sub(v, Scale(s.contactNormal, Dot(v, s.contactNormal)))
  }

  /** The world x and z axes laid onto the contact plane. */
  function ContactAxes(c: Config, s: LocomotionState): (Vec3, Vec3) {
    (c.math.Normalize(ProjectOnContactPlane(s, Right)), c.math.Normalize(ProjectOnContactPlane(s, Forward)))
  }

  function Acceleration(c: Config, s: LocomotionState): real {
    if OnGround(s) then c.settings.maxAcceleration else c.settings.maxAirAcceleration
  }

  function MaxSpeedChange(c: Config, s: LocomotionState, deltaTime: real): real {
    Acceleration(c, s) * deltaTime
  }

  /** `newX` and `newZ`: the world x and z velocity components moved towards the desired ones
      by at most the speed change limit. */
  function AxisTargets(c: Config, s: LocomotionState, deltaTime: real): (real, real) {
    var limit := MaxSpeedChange(c, s, deltaTime);
    (MoveTowards(s.velocity.x, s.desiredVelocity.x, limit),
     MoveTowards(s.velocity.z, s.desiredVelocity.z, limit))
  }

  /** The velocity with its components along the two contact axes replaced by the targets:
      `velocity += xAxis * (newX - currentX) + zAxis * (newZ - currentZ)`. */
  function Steer(velocity: Vec3, axes: (Vec3, Vec3), targets: (real, real)): Vec3 {
    var currentX := Dot(velocity, axes.0);
    var currentZ := Dot(velocity, axes.1);
    Add(velocity, Add(Scale(axes.0, targets.0 - currentX), Scale(axes.1, targets.1 - currentZ)))
  }

  function AdjustVelocity(c: Config, s: LocomotionState, deltaTime: real): LocomotionState {
    s.(velocity := Steer(s.velocity, ContactAxes(c, s), AxisTargets(c, s, deltaTime)))
  }

  // ---------------------------------------------------------------------------
  // Jump

  /** Which branch of `Jump` fires. */
  datatype JumpBranch = FromGround | FromSteep | FromAir | NoJump

  function JumpEligibility(c: Config, s: LocomotionState): JumpBranch {
    if OnGround(s) then FromGround
    else if OnSteep(s) then FromSteep
    else if c.settings.maxAirJumps > 0 && s.jumpPhase <= c.settings.maxAirJumps as real then FromAir
    else NoJump
  }

  /** `jumpPhase` as the chosen branch leaves it: a steep jump resets it and the first air jump
      sets it to 1. */
  function PhaseAfterJump(branch: JumpBranch, phase: real): real {
    match branch
    case FromSteep => 0.0
    case FromAir => if phase == 0.0 then 1.0 else phase
    case _ => phase
  }

  /** The launch speed that reaches `jumpHeight` under gravity `gravityY`. */
  function JumpSpeed(c: Config, gravityY: real): real {
    c.math.Sqrt(-2.0 * gravityY * c.settings.jumpHeight)
  }

  /** The surface normal the jump pushes off, tilted towards up. */
  function JumpDirection(c: Config, s: LocomotionState, branch: JumpBranch): Vec3 {
    c.math.Normalize(Add(if branch == FromSteep then s.steepNormal else s.contactNormal, Up))
  }

  /** The speed added along the jump direction, given the speed already along it. */
  function JumpImpulse(jumpSpeed: real, alignedSpeed: real): (r: real)
    ensures 0.0 <= jumpSpeed ==> 0.0 <= r <= jumpSpeed
    ensures 0.0 <= jumpSpeed <= alignedSpeed ==> r == 0.0
    ensures alignedSpeed <= 0.0 ==> r == jumpSpeed
    ensures 0.0 < alignedSpeed ==> alignedSpeed + r == Max(jumpSpeed, alignedSpeed)
  {
    if alignedSpeed > 0.0 then Max(jumpSpeed - alignedSpeed, 0.0) else jumpSpeed
  }

  function Jump(c: Config, s: LocomotionState, gravityY: real): LocomotionState {
    var branch := JumpEligibility(c, s);
    if branch == NoJump then s
    else
      var phase := PhaseAfterJump(branch, s.jumpPhase);
      var stepsSinceLastJump: int32 := 0;
      // the reset that follows the counter's reset can never fire
      var phase' := if stepsSinceLastJump > 1 then 0.0 else phase;
      var direction := JumpDirection(c, s, branch);
      var speed := JumpImpulse(JumpSpeed(c, gravityY), Dot(s.velocity, direction));
      s.(jumpPhase := phase',
         stepsSinceLastJump := stepsSinceLastJump,
         velocity := Add(s.velocity, Scale(direction, speed)))
  }

  // ---------------------------------------------------------------------------
  // One physics step, one render frame

  function ClearState(s: LocomotionState): LocomotionState {
    s.(groundContactCount := 0, steepContactCount := 0, contactNormal := Zero, steepNormal := Zero)
  }

  /** The state whose velocity `FixedUpdate` writes to the body, just before it clears the contacts. */
  function StepBeforeClear(c: Config, s: LocomotionState, bodyVelocity: Vec3, probe: Option<Hit>,
                           deltaTime: real, gravityY: real): LocomotionState
  {
    var adjusted := AdjustVelocity(c, UpdateState(c, s, bodyVelocity, probe), deltaTime);
    if adjusted.desiredJump then Jump(c, adjusted.(desiredJump := false), gravityY) else adjusted
  }

  function FixedUpdate(c: Config, s: LocomotionState, bodyVelocity: Vec3, probe: Option<Hit>,
                       deltaTime: real, gravityY: real): LocomotionState
  {
    ClearState(StepBeforeClear(c, s, bodyVelocity, probe, deltaTime, gravityY))
  }

  /** The input part of `Update`: `axes` are the two input axes, `jumpKeyDown` the jump key's press edge. */
  function Update(c: Config, s: LocomotionState, axes: Vec2, jumpKeyDown: bool): LocomotionState {
    var input := c.math.ClampMagnitude(axes, 1.0);
    s.(desiredVelocity := Scale(Vec3(input.x, 0.0, input.y), c.settings.maxSpeed),
       desiredJump := jumpKeyDown)
  }
}
