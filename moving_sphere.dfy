// The MovingSphere component itself: its fields, updated in place by its event methods, each
// proved to leave the fields as the matching Locomotion function says.

module Sphere {
  import opened Vectors
  import opened Settings
  import opened Locomotion
  import LocomotionProofs

  /** The part of Unity's Rigidbody that the controller reads and writes. */
  class Rigidbody {
    var velocity: Vec3

    constructor (velocity: Vec3)
      ensures this.velocity == velocity
    {
      this.velocity := velocity;
    }
  }

  class MovingSphere {
    const settings: SettingsSphere
    const math: MathOps
    const body: Rigidbody

    var velocity: Vec3
    var desiredVelocity: Vec3
    var desiredJump: bool
    var groundContactCount: nat
    var steepContactCount: nat
    var jumpPhase: real
    var minGroundDotProduct: real
    var minStairsDotProduct: real
    var contactNormal: Vec3
    var steepNormal: Vec3
    var stepsSinceLastGrounded: int32
    var stepsSinceLastJump: int32

    /** The fields the methods update, as one value. */
    function State(): LocomotionState
      reads this
    {
      LocomotionState(velocity, desiredVelocity, desiredJump, groundContactCount, steepContactCount,
                      contactNormal, steepNormal, jumpPhase, stepsSinceLastGrounded, stepsSinceLastJump)
    }

    /** The settings, the numeric routines and the cached thresholds. */
    function Cfg(): Config
      reads this
    {
      Config(settings, math, minGroundDotProduct, minStairsDotProduct)
    }

    /** The thresholds match the settings and `jumpPhase` is 0 or 1. */
    predicate Valid()
      reads this
    {
      Validated(Cfg()) && PhaseInvariant(State())
    }

    /** `Awake`: the fields start at C#'s defaults, the body is the attached Rigidbody, and the
        thresholds are computed as `OnValidate` does. */
    constructor Awake(settings: SettingsSphere, math: MathOps, body: Rigidbody)
      ensures this.settings == settings && this.math == math && this.body == body
      ensures State() == Initial()
      ensures Valid()
    {
      this.settings := settings;
      this.math := math;
      this.body := body;
      velocity, desiredVelocity, desiredJump := Zero, Zero, false;
      groundContactCount, steepContactCount := 0, 0;
      jumpPhase := 0.0;
      contactNormal, steepNormal := Zero, Zero;
      stepsSinceLastGrounded, stepsSinceLastJump := 0, 0;
      new;
      OnValidate();
    }

    method OnValidate()
      modifies this
      ensures Validated(Cfg())
      ensures State() == old(State())
    {
      minGroundDotProduct := CosOfDegrees(math, settings.maxGroundAngle);
      minStairsDotProduct := CosOfDegrees(math, settings.maxStairsAngle);
    }

    /** `Update`: `axes` are the horizontal and vertical input axes, `jumpKeyDown` whether the
        jump key went down this frame. */
    method Update(axes: Vec2, jumpKeyDown: bool)
      modifies this
      ensures State() == Locomotion.Update(old(Cfg()), old(State()), axes, jumpKeyDown)
      ensures Cfg() == old(Cfg())
    {
      var playerInput := math.ClampMagnitude(axes, 1.0);
      desiredVelocity := Scale(Vec3(playerInput.x, 0.0, playerInput.y), settings.maxSpeed);
      desiredJump := jumpKeyDown;
    }

    /** `FixedUpdate`: `probe` is what the ground probe's raycast would report this step,
        `deltaTime` the step length and `gravityY` the vertical gravity. */
    method FixedUpdate(probe: Option<Hit>, deltaTime: real, gravityY: real)
      requires Valid()
      modifies this, body
      ensures State() == Locomotion.FixedUpdate(old(Cfg()), old(State()), old(body.velocity), probe, deltaTime, gravityY)
      ensures body.velocity
           == StepBeforeClear(old(Cfg()), old(State()), old(body.velocity), probe, deltaTime, gravityY).velocity
      ensures Cfg() == old(Cfg())
      ensures Valid()
    {
      LocomotionProofs.FixedUpdateKeepsPhaseInvariant(Cfg(), State(), body.velocity, probe, deltaTime, gravityY);
      UpdateState(probe);
      AdjustVelocity(deltaTime);
      if desiredJump {
        desiredJump := false;
        Jump(gravityY);
      }
      body.velocity := velocity;
      ClearState();
    }

    method AdjustVelocity(deltaTime: real)
      modifies this
      ensures State() == Locomotion.AdjustVelocity(old(Cfg()), old(State()), deltaTime)
      ensures Cfg() == old(Cfg())
    {
      var xAxis := math.Normalize(ProjectOnContactPlane(State(), Right));
      var zAxis := math.Normalize(ProjectOnContactPlane(State(), Forward));
      var currentX := Dot(velocity, xAxis);
      var currentZ := Dot(velocity, zAxis);
      var acceleration := if groundContactCount > 0 then settings.maxAcceleration else settings.maxAirAcceleration;
      var maxSpeedChange := acceleration * deltaTime;
      var newX := MoveTowards(velocity.x, desiredVelocity.x, maxSpeedChange);
      var newZ := MoveTowards(velocity.z, desiredVelocity.z, maxSpeedChange);
      assert (xAxis, zAxis) == ContactAxes(Cfg(), State());
      assert acceleration == Acceleration(Cfg(), State());
      assert maxSpeedChange == MaxSpeedChange(Cfg(), State(), deltaTime);
      assert (newX, newZ) == AxisTargets(Cfg(), State(), deltaTime);
      velocity := Add(velocity, Add(Scale(xAxis, newX - currentX), Scale(zAxis, newZ - currentZ)));
    }

    method UpdateState(probe: Option<Hit>)
      modifies this
      ensures State() == Locomotion.UpdateState(old(Cfg()), old(State()), old(body.velocity), probe)
      ensures Cfg() == old(Cfg())
    {
      stepsSinceLastGrounded := Increment(stepsSinceLastGrounded);
      stepsSinceLastJump := Increment(stepsSinceLastJump);
      velocity := body.velocity;
      var grounded := groundContactCount > 0;
      if !grounded {
        grounded := SnapToGround(probe);
      }
      if !grounded {
        grounded := CheckSteepContacts();
      }
      if grounded {
        stepsSinceLastGrounded := 0;
        jumpPhase := 0.0;
        if groundContactCount > 1 {
          contactNormal := math.Normalize(contactNormal);
        }
      } else {
        contactNormal := Up;
      }
    }

    method Jump(gravityY: real)
      modifies this
      ensures State() == Locomotion.Jump(old(Cfg()), old(State()), gravityY)
      ensures Cfg() == old(Cfg())
    {
      ghost var s := State();
      ghost var branch := JumpEligibility(Cfg(), s);
      var jumpDirection: Vec3;
      if groundContactCount > 0 {
        jumpDirection := contactNormal;
      } else if steepContactCount > 0 {
        jumpDirection := steepNormal;
        jumpPhase := 0.0;
      } else if settings.maxAirJumps > 0 && jumpPhase <= settings.maxAirJumps as real {
        if jumpPhase == 0.0 {
          jumpPhase := 1.0;
        }
        jumpDirection := contactNormal;
      } else {
        return;
      }
      assert jumpPhase == PhaseAfterJump(branch, s.jumpPhase);
      stepsSinceLastJump := 0;
      // the phase reset that the code guards with `stepsSinceLastJump > 1` is dead here
      assert stepsSinceLastJump <= 1;
      var jumpSpeed := JumpSpeed(Cfg(), gravityY);
      jumpDirection := math.Normalize(Add(jumpDirection, Up));
      assert jumpDirection == JumpDirection(Cfg(), s, branch);
      var alignedSpeed := Dot(velocity, jumpDirection);
      if alignedSpeed > 0.0 {
        jumpSpeed := Max(jumpSpeed - alignedSpeed, 0.0);
      }
      assert jumpSpeed == JumpImpulse(JumpSpeed(Cfg(), gravityY), Dot(s.velocity, jumpDirection));
      velocity := Add(velocity, Scale(jumpDirection, jumpSpeed));
    }

    method ClearState()
      modifies this
      ensures State() == Locomotion.ClearState(old(State()))
      ensures Cfg() == old(Cfg())
    {
      groundContactCount, steepContactCount := 0, 0;
      contactNormal, steepNormal := Zero, Zero;
    }

    method OnCollisionEnter(collision: Collision)
      modifies this
      ensures State() == Locomotion.EvaluateCollision(old(Cfg()), old(State()), collision)
      ensures Cfg() == old(Cfg())
    {
      EvaluateCollision(collision);
    }

    method OnCollisionStay(collision: Collision)
      modifies this
      ensures State() == Locomotion.EvaluateCollision(old(Cfg()), old(State()), collision)
      ensures Cfg() == old(Cfg())
    {
      EvaluateCollision(collision);
    }

    method EvaluateCollision(collision: Collision)
      modifies this
      ensures State() == Locomotion.EvaluateCollision(old(Cfg()), old(State()), collision)
      ensures Cfg() == old(Cfg())
    {
      var minDot := GetMinDot(Cfg(), collision.layer);
      var normals := collision.normals;
      for i := 0 to |normals|
        invariant Cfg() == old(Cfg())
        invariant State() == AddTally(old(State()), Accumulate(normals[..i], minDot))
      {
        var normal := normals[i];
        ghost var before := State();
        if normal.y >= minDot {
          groundContactCount := groundContactCount + 1;
          contactNormal := Add(contactNormal, normal);
        } else if normal.y > SteepLimit {
          steepContactCount := steepContactCount + 1;
          steepNormal := Add(steepNormal, normal);
        }
        LocomotionProofs.TallyStep(before, normal, minDot);
        assert State() == AddTally(before, TallyOf(normal, minDot));
        LocomotionProofs.AddTallyPlus(old(State()), Accumulate(normals[..i], minDot), TallyOf(normal, minDot));
        assert normals[..i + 1] == normals[..i] + [normal];
        LocomotionProofs.AccumulateSnoc(normals[..i], normal, minDot);
      }
      assert normals[..|normals|] == normals;
    }

    method SnapToGround(probe: Option<Hit>) returns (snapped: bool)
      modifies this
      ensures (snapped, State()) == Locomotion.SnapToGround(old(Cfg()), old(State()), probe)
      ensures Cfg() == old(Cfg())
    {
      if stepsSinceLastGrounded > 1 || stepsSinceLastJump <= 2 {
        return false;
      }
      var speed := math.Magnitude(velocity);
      if speed > settings.maxSnapSpeed {
        return false;
      }
      if probe.None? {
        return false;
      }
      var hit := probe.value;
      if hit.normal.y < GetMinDot(Cfg(), hit.layer) {
        return false;
      }
      groundContactCount := 1;
      contactNormal := hit.normal;
      var dot := Dot(velocity, hit.normal);
      if dot > 0.0 {
        velocity := Scale(math.Normalize(Sub(velocity, Scale(hit.normal, dot))), speed);
      }
      return true;
    }

    method CheckSteepContacts() returns (promoted: bool)
      modifies this
      ensures (promoted, State()) == Locomotion.CheckSteepContacts(old(Cfg()), old(State()))
      ensures Cfg() == old(Cfg())
    {
      if steepContactCount > 1 {
        steepNormal := math.Normalize(steepNormal);
        if steepNormal.y >= minGroundDotProduct {
          groundContactCount := 1;
          contactNormal := steepNormal;
          return true;
        }
      }
      return false;
    }
  }
}
