/**
  `ThirdPersonMovement` of Assets/Scripts: the height-based controller. Each
  frame runs the ground check (landing and take-off edges, with fall damage
  measured from the height where the fall began), the jump and crouch
  presses, then gravity with a multiplier chosen by the direction of travel
  and whether jump is held.

  The engine inputs of one frame (the sphere probe, the current height, the
  button edges, whether jump is held and the frame time) are the fields of
  `Input`; horizontal motion, turning and animation are not part of this
  model. This copy calls `PlayerHealth.TakeDamage` without checking that a
  `PlayerHealth` is attached: without one, the call fails and the rest of
  the frame does not run.
*/
module ScriptsMovement {
  import opened Wrappers
  import opened UnityMath
  import HealthPool
  import ScriptsHealth

  /** Inspector settings the script reads and never writes; `originalSpeed`
      is the speed copied in `Start`. */
  datatype Settings = Settings(
    fallMultiplier: real,
    lowJumpMultiplier: real,
    minFallDamageHeight: real,
    maxFallDamageHeight: real,
    maxFallDamage: int,
    jumpForce: real,
    gravity: real,
    originalSpeed: real)

  /** The fields one frame updates. */
  datatype Body = Body(
    isGrounded: bool,
    verticalVelocity: real,
    isCrouching: bool,
    speed: real,
    controllerHeight: real,
    controllerCenterY: real,
    fallStartY: real,
    isFalling: bool)

  /** What the engine reports in one frame: the ground probe, the height of
      the character, the jump and crouch key-down edges, whether jump is held,
      and `Time.deltaTime`. */
  datatype Input = Input(groundProbe: bool, y: real, jumpDown: bool, crouchDown: bool, jumpHeld: bool, dt: real)

  /** The grounded snap of this copy. */
  const GroundedVelocity: real := -2.0

  /** The damage for a landing after a fall of `fallDistance`: the fall's
      position between the two heights, scaled to `maxFallDamage` and rounded. */
  function LandingDamage(s: Settings, fallDistance: real): (r: int)
    ensures 0 <= s.maxFallDamage ==> 0 <= r <= s.maxFallDamage
  {
    var t := InverseLerp(s.minFallDamageHeight, s.maxFallDamageHeight, fallDistance);
    var scaled := Lerp(0.0, s.maxFallDamage as real, t);
    if 0 <= s.maxFallDamage then
      LerpWithin(0.0, s.maxFallDamage as real, t);
      RoundToIntMonotone(0.0, scaled);
      RoundToIntMonotone(scaled, s.maxFallDamage as real);
      RoundToIntOfInt(0);
      RoundToIntOfInt(s.maxFallDamage);
      RoundToInt(scaled)
    else
      RoundToInt(scaled)
  }

  /** The damage the ground check asks for, if any: only on the landing edge,
      and only after a fall longer than `minFallDamageHeight`. */
  function LandingHit(s: Settings, b: Body, groundProbe: bool, y: real): Option<int>
  {
    if !b.isGrounded && groundProbe && b.fallStartY - y > s.minFallDamageHeight
    then Some(LandingDamage(s, b.fallStartY - y))
    else None
  }

  /** `GroundCheck`, run to its end: on landing the fall is over, on take-off
      the fall starts at the current height, and a grounded downward velocity
      snaps to -2. */
  function GroundChecked(b: Body, groundProbe: bool, y: real): Body
  {
    var landed := !b.isGrounded && groundProbe;
    var tookOff := b.isGrounded && !groundProbe;
    b.(isGrounded := groundProbe,
       isFalling := if landed then false else if tookOff then true else b.isFalling,
       fallStartY := if tookOff then y else b.fallStartY,
       verticalVelocity := if groundProbe && b.verticalVelocity < 0.0 then GroundedVelocity else b.verticalVelocity)
  }

  /** `Jump`. */
  function Jumped(s: Settings, b: Body): Body
  {
    b.(verticalVelocity := s.jumpForce)
  }

  /** `ToggleCrouch`: flip the posture and apply its controller preset and speed. */
  function Crouched(s: Settings, b: Body): Body
  {
    var c := !b.isCrouching;
    b.(isCrouching := c,
       controllerHeight := if c then 1.0 else 2.0,
       controllerCenterY := if c then 0.5 else 1.0,
       speed := if c then s.originalSpeed * 0.5 else s.originalSpeed)
  }

  /** `HandleInput`: a jump press counts only on the ground; then the crouch press. */
  function InputHandled(s: Settings, b: Body, jumpDown: bool, crouchDown: bool): Body
  {
    var afterJump := if jumpDown && b.isGrounded then Jumped(s, b) else b;
    if crouchDown then Crouched(s, afterJump) else afterJump
  }

  /** `ApplyGravity`, branch by branch. */
  function GravityApplied(s: Settings, b: Body, jumpHeld: bool, dt: real): Body
  {
    var v := if b.isGrounded && b.verticalVelocity < 0.0 then GroundedVelocity else b.verticalVelocity;
    var v' :=
      if v < 0.0 then v + s.gravity * s.fallMultiplier * dt
      else if !jumpHeld then v + s.gravity * s.lowJumpMultiplier * dt
      else v + s.gravity * dt;
    b.(verticalVelocity := v')
  }

  /** The gravity multiplier as a rule: falling is faster, a rise with jump
      released is cut short, a held jump rises under plain gravity. */
  function GravityMultiplier(s: Settings, v: real, jumpHeld: bool): real
  {
    if v < 0.0 then s.fallMultiplier
    else if !jumpHeld then s.lowJumpMultiplier
    else 1.0
  }

  /** Whether the frame fails at the damage call for want of a `PlayerHealth`. */
  predicate Faults(s: Settings, b: Body, input: Input, hasHealth: bool)
  {
    !hasHealth && LandingHit(s, b, input.groundProbe, input.y).Some?
  }

  /** `Update`, for the fields of `Body`: ground check, input, gravity (the
      move itself belongs to the engine). A failed damage call leaves only
      the new probe result. */
  function Stepped(s: Settings, b: Body, input: Input, hasHealth: bool): Body
  {
    if Faults(s, b, input, hasHealth) then b.(isGrounded := input.groundProbe)
    else
      var checked := GroundChecked(b, input.groundProbe, input.y);
      GravityApplied(s, InputHandled(s, checked, input.jumpDown, input.crouchDown), input.jumpHeld, input.dt)
  }

  /** Whether the controller's height, centre and speed are the preset of its posture. */
  predicate CrouchPreset(s: Settings, b: Body)
  {
    if b.isCrouching
    then b.controllerHeight == 1.0 && b.controllerCenterY == 0.5 && b.speed == s.originalSpeed * 0.5
    else b.controllerHeight == 2.0 && b.controllerCenterY == 1.0 && b.speed == s.originalSpeed
  }

  /** The fields after the component is created and `Start` has run. */
  function Initial(s: Settings, controllerHeight: real, controllerCenterY: real): Body
  {
    Body(false, 0.0, false, s.originalSpeed, controllerHeight, controllerCenterY, 0.0, false)
  }

  // ---------------------------------------------------------------------------
  // Fall damage

  /** A fall longer than the two heights' span does the full damage. */
  lemma FullDamageBeyondMaxHeight(s: Settings, fallDistance: real)
    requires s.minFallDamageHeight < s.maxFallDamageHeight <= fallDistance
    ensures LandingDamage(s, fallDistance) == s.maxFallDamage
  {
    RoundToIntOfInt(s.maxFallDamage);
  }

  /** A landing after a fall no longer than `minFallDamageHeight` asks for no
      damage at all, not even a hit of 0. */
  lemma NoDamageWithinMinHeight(s: Settings, b: Body, groundProbe: bool, y: real)
    requires b.fallStartY - y <= s.minFallDamageHeight
    ensures LandingHit(s, b, groundProbe, y) == None
  {
  }

  /** Damage never decreases with the length of the fall. */
  lemma LandingDamageMonotone(s: Settings, d1: real, d2: real)
    requires s.minFallDamageHeight < s.maxFallDamageHeight && 0 <= s.maxFallDamage && d1 <= d2
    ensures LandingDamage(s, d1) <= LandingDamage(s, d2)
  {
    var t1 := InverseLerp(s.minFallDamageHeight, s.maxFallDamageHeight, d1);
    var t2 := InverseLerp(s.minFallDamageHeight, s.maxFallDamageHeight, d2);
    InverseLerpMonotone(s.minFallDamageHeight, s.maxFallDamageHeight, d1, d2);
    LerpMonotone(0.0, s.maxFallDamage as real, t1, t2);
    RoundToIntMonotone(Lerp(0.0, s.maxFallDamage as real, t1), Lerp(0.0, s.maxFallDamage as real, t2));
  }

  /** With the default heights 3 and 10 and at most 50 damage, a fall of 6
      does 3/7 of 50, that is 150/7, which rounds to 21. */
  lemma SixUnitFall(s: Settings)
    requires s.minFallDamageHeight == 3.0 && s.maxFallDamageHeight == 10.0 && s.maxFallDamage == 50
    ensures LandingHit(s, Body(false, -9.0, false, 6.0, 2.0, 1.0, 6.0, true), true, 0.0) == Some(21)
  {
    assert InverseLerp(3.0, 10.0, 6.0) == 3.0 / 7.0;
    assert Lerp(0.0, 50.0, 3.0 / 7.0) == 150.0 / 7.0;
    assert (150.0 / 7.0).Floor == 21;
  }

  // ---------------------------------------------------------------------------
  // Landing and take-off edges

  /** Damage is asked for only on the landing edge, so after a grounded frame
      the next frame asks for none, whatever it reports: at most one hit per
      landing. */
  lemma OneHitPerLanding(s: Settings, b: Body, first: Input, second: Input, hasHealth: bool)
    requires first.groundProbe
    ensures LandingHit(s, Stepped(s, b, first, hasHealth), second.groundProbe, second.y) == None
  {
  }

  /** On take-off the fall starts at the current height. */
  lemma TakeOffRecordsHeight(s: Settings, b: Body, input: Input, hasHealth: bool)
    requires b.isGrounded && !input.groundProbe
    ensures Stepped(s, b, input, hasHealth).fallStartY == input.y
    ensures Stepped(s, b, input, hasHealth).isFalling
    ensures !Stepped(s, b, input, hasHealth).isGrounded
  {
  }

  /** A completed landing ends the fall and keeps its start height. */
  lemma LandingEndsFall(s: Settings, b: Body, input: Input, hasHealth: bool)
    requires !b.isGrounded && input.groundProbe && !Faults(s, b, input, hasHealth)
    ensures !Stepped(s, b, input, hasHealth).isFalling
    ensures Stepped(s, b, input, hasHealth).fallStartY == b.fallStartY
  {
  }

  /** `isFalling` means "airborne since the last take-off" (it is also true
      while rising after a jump): every completed frame keeps it from being
      set on the ground. A failed damage call can break this. */
  lemma FallingMeansAirborne(s: Settings, b: Body, input: Input, hasHealth: bool)
    requires b.isFalling ==> !b.isGrounded
    requires !Faults(s, b, input, hasHealth)
    ensures Stepped(s, b, input, hasHealth).isFalling ==> !Stepped(s, b, input, hasHealth).isGrounded
  {
  }

  /** The first landing after the component starts is measured from height
      0, because the fall start is only recorded on a take-off edge. */
  lemma SpawnFallMeasuredFromZero(s: Settings, h: real, c: real, y: real)
    ensures LandingHit(s, Initial(s, h, c), true, y)
         == if -y > s.minFallDamageHeight then Some(LandingDamage(s, -y)) else None
  {
  }

  // ---------------------------------------------------------------------------
  // Jump and gravity

  /** Each branch of `ApplyGravity` applies the rule's multiplier to gravity. */
  lemma GravityFollowsMultiplier(s: Settings, b: Body, jumpHeld: bool, dt: real)
    ensures var v := if b.isGrounded && b.verticalVelocity < 0.0 then GroundedVelocity else b.verticalVelocity;
            GravityApplied(s, b, jumpHeld, dt).verticalVelocity == v + s.gravity * GravityMultiplier(s, v, jumpHeld) * dt
    ensures GravityApplied(s, b, jumpHeld, dt) == b.(verticalVelocity := GravityApplied(s, b, jumpHeld, dt).verticalVelocity)
  {
  }

  /** A jump press in the air is ignored. */
  lemma AirborneJumpIgnored(s: Settings, b: Body, input: Input, hasHealth: bool)
    requires !input.groundProbe
    ensures Stepped(s, b, input, hasHealth) == Stepped(s, b, input.(jumpDown := false), hasHealth)
  {
  }

  /** A jump press on the ground launches at `jumpForce`, then rises under
      plain gravity when jump is held and under the low-jump multiplier when
      it is not. */
  lemma GroundedJumpLaunches(s: Settings, b: Body, input: Input, hasHealth: bool)
    requires input.groundProbe && input.jumpDown && 0.0 <= s.jumpForce && !Faults(s, b, input, hasHealth)
    ensures Stepped(s, b, input, hasHealth).verticalVelocity
         == s.jumpForce + s.gravity * GravityMultiplier(s, s.jumpForce, input.jumpHeld) * input.dt
  {
  }

  /** A grounded frame that starts downward and has no jump press ends at
      exactly the snap value plus one frame of fast-fall gravity. */
  lemma GroundedDescent(s: Settings, b: Body, input: Input, hasHealth: bool)
    requires input.groundProbe && !input.jumpDown && b.verticalVelocity < 0.0 && !Faults(s, b, input, hasHealth)
    ensures Stepped(s, b, input, hasHealth).verticalVelocity == -2.0 + s.gravity * s.fallMultiplier * input.dt
  {
  }

  /** Crouching twice restores the posture, and also the controller preset
      and speed when they matched the posture before. */
  lemma CrouchTwice(s: Settings, b: Body)
    ensures Crouched(s, Crouched(s, b)).isCrouching == b.isCrouching
    ensures CrouchPreset(s, Crouched(s, b))
    ensures CrouchPreset(s, b) ==> Crouched(s, Crouched(s, b)) == b
  {
  }

  // ---------------------------------------------------------------------------
  // The component

  class ThirdPersonMovement {
    const settings: Settings
    /** The sibling `PlayerHealth` found in `Start`; the script assumes there is one. */
    const playerHealth: ScriptsHealth.PlayerHealth?
    var isGrounded: bool
    var verticalVelocity: real
    var isCrouching: bool
    var speed: real
    var controllerHeight: real
    var controllerCenterY: real
    var fallStartY: real
    var isFalling: bool

    function State(): Body
      reads this
    {
      Body(isGrounded, verticalVelocity, isCrouching, speed, controllerHeight, controllerCenterY, fallStartY, isFalling)
    }

    /** Field initialisers followed by `Start`: the inspector values and the
        sibling components are given, `originalSpeed` is copied from `speed`. */
    constructor (settings: Settings, controllerHeight: real, controllerCenterY: real,
                 playerHealth: ScriptsHealth.PlayerHealth?)
      ensures this.settings == settings && this.playerHealth == playerHealth
      ensures State() == Initial(settings, controllerHeight, controllerCenterY)
    {
      this.settings := settings;
      this.playerHealth := playerHealth;
      isGrounded := false;
      verticalVelocity := 0.0;
      isCrouching := false;
      speed := settings.originalSpeed;
      this.controllerHeight := controllerHeight;
      this.controllerCenterY := controllerCenterY;
      fallStartY := 0.0;
      isFalling := false;
    }

    /** Returns false when the damage call fails for want of a `PlayerHealth`;
        the fields then hold what was written before the call. */
    method GroundCheck(groundProbe: bool, y: real) returns (completed: bool)
      modifies this, playerHealth
      ensures completed == !(playerHealth == null && LandingHit(settings, old(State()), groundProbe, y).Some?)
      ensures State() == if completed then GroundChecked(old(State()), groundProbe, y)
                         else old(State()).(isGrounded := groundProbe)
      ensures playerHealth != null ==> playerHealth.maxHealth == old(playerHealth.maxHealth)
      ensures playerHealth != null ==>
                playerHealth.currentHealth == HealthPool.Charged(old(playerHealth.currentHealth), old(playerHealth.maxHealth),
                                                      LandingHit(settings, old(State()), groundProbe, y))
      ensures playerHealth != null ==> playerHealth.Took(LandingHit(settings, old(State()), groundProbe, y))
      ensures playerHealth != null && old(playerHealth.Valid()) ==> playerHealth.Valid()
    {
      var wasGrounded := isGrounded;
      isGrounded := groundProbe;
      if !wasGrounded && isGrounded {
        var fallDistance := fallStartY - y;
        if fallDistance > settings.minFallDamageHeight {
          var t := InverseLerp(settings.minFallDamageHeight, settings.maxFallDamageHeight, fallDistance);
          var damage := RoundToInt(Lerp(0.0, settings.maxFallDamage as real, t));
          if playerHealth == null {
            return false;
          }
          playerHealth.TakeDamage(damage);
        }
        isFalling := false;
      }
      if wasGrounded && !isGrounded {
        fallStartY := y;
        isFalling := true;
      }
      if isGrounded && verticalVelocity < 0.0 {
        verticalVelocity := GroundedVelocity;
      }
      return true;
    }

    method HandleInput(jumpDown: bool, crouchDown: bool)
      modifies this
      ensures State() == InputHandled(settings, old(State()), jumpDown, crouchDown)
    {
      if jumpDown && isGrounded {
        Jump();
      }
      if crouchDown {
        ToggleCrouch();
      }
    }

    method Jump()
      modifies this
      ensures State() == Jumped(settings, old(State()))
    {
      verticalVelocity := settings.jumpForce;
    }

    method ApplyGravity(jumpHeld: bool, dt: real)
      modifies this
      ensures State() == GravityApplied(settings, old(State()), jumpHeld, dt)
    {
      if isGrounded && verticalVelocity < 0.0 {
        verticalVelocity := GroundedVelocity;
      }
      if verticalVelocity < 0.0 {
        verticalVelocity := verticalVelocity + settings.gravity * settings.fallMultiplier * dt;
      } else if !jumpHeld {
        verticalVelocity := verticalVelocity + settings.gravity * settings.lowJumpMultiplier * dt;
      } else {
        verticalVelocity := verticalVelocity + settings.gravity * dt;
      }
    }

    method ToggleCrouch()
      modifies this
      ensures State() == Crouched(settings, old(State()))
    {
      isCrouching := !isCrouching;
      controllerHeight := if isCrouching then 1.0 else 2.0;
      controllerCenterY := if isCrouching then 0.5 else 1.0;
      speed := if isCrouching then settings.originalSpeed * 0.5 else settings.originalSpeed;
    }

    /** One frame. */
    method Update(input: Input)
      modifies this, playerHealth
      ensures State() == Stepped(settings, old(State()), input, playerHealth != null)
      ensures playerHealth != null ==> playerHealth.maxHealth == old(playerHealth.maxHealth)
      ensures playerHealth != null ==>
                playerHealth.currentHealth == HealthPool.Charged(old(playerHealth.currentHealth), old(playerHealth.maxHealth),
                                                      LandingHit(settings, old(State()), input.groundProbe, input.y))
      ensures playerHealth != null ==> playerHealth.Took(LandingHit(settings, old(State()), input.groundProbe, input.y))
      ensures playerHealth != null && old(playerHealth.Valid()) ==> playerHealth.Valid()
    {
      var completed := GroundCheck(input.groundProbe, input.y);
      if !completed {
        return;
      }
      HandleInput(input.jumpDown, input.crouchDown);
      ApplyGravity(input.jumpHeld, input.dt);
    }
  }
}
