/**
  `ThirdPersonMovement` at the top of Assets: the per-frame state machine of
  the velocity-based controller. Each frame it stops at the death gate, or
  else samples the ground probe, handles the jump and crouch presses, records
  the vertical velocity, applies gravity or the grounded snap, and charges
  fall damage from the recorded velocity.

  The engine inputs of one frame (the sphere probe, the button edges and the
  frame time) are the fields of `Input`; horizontal motion, turning and
  animation are not part of this model. `Frame` holds the fields a frame
  updates, and the functions below say what one frame does to it; the class
  `ThirdPersonMovement` performs the same updates in place.
*/
module RootMovement {
  import opened Wrappers
  import opened UnityMath
  import HealthPool
  import RootHealth

  /** Inspector settings the script reads and never writes; `originalSpeed`
      is the speed copied in `Start`. */
  datatype Settings = Settings(
    jumpForce: real,
    gravity: real,
    fallDamageThreshold: real,
    maxFallDamage: int,
    originalSpeed: real)

  /** The fields one frame updates (the controller's height and centre are
      the `CharacterController` values set by crouching). */
  datatype Frame = Frame(
    isGrounded: bool,
    verticalVelocity: real,
    lastYVelocity: real,
    isCrouching: bool,
    speed: real,
    controllerHeight: real,
    controllerCenterY: real)

  /** What the engine reports in one frame: the ground probe, the jump and
      crouch key-down edges, and `Time.deltaTime`. */
  datatype Input = Input(groundProbe: bool, jumpDown: bool, crouchDown: bool, dt: real)

  /** The grounded snap: a small downward speed that keeps the character on the ground. */
  const GroundedVelocity: real := -0.5

  /** `TriggerJump`: launch only from the ground. */
  function Jumped(s: Settings, f: Frame): Frame
  {
    if f.isGrounded then f.(verticalVelocity := s.jumpForce) else f
  }

  /** `ToggleCrouch`: flip the posture and apply its controller preset and speed. */
  function Crouched(s: Settings, f: Frame): Frame
  {
    var c := !f.isCrouching;
    f.(isCrouching := c,
       controllerHeight := if c then 1.0 else 2.0,
       controllerCenterY := if c then 0.5 else 1.0,
       speed := if c then s.originalSpeed * 0.5 else s.originalSpeed)
  }

  /** `HandleInput`: the jump press first, then the crouch press. */
  function InputHandled(s: Settings, f: Frame, jumpDown: bool, crouchDown: bool): Frame
  {
    var afterJump := if jumpDown then Jumped(s, f) else f;
    if crouchDown then Crouched(s, afterJump) else afterJump
  }

  /** `CalculateFallDamage`: fifty points per unit of speed beyond the
      threshold's magnitude, rounded and clamped to [0, maxFallDamage]. */
  function FallDamage(s: Settings, velocity: real): (r: int)
    ensures 0 <= s.maxFallDamage ==> 0 <= r <= s.maxFallDamage
  {
    var excess := Abs(velocity) - Abs(s.fallDamageThreshold);
    Clamp(RoundToInt(excess * 50.0), 0, s.maxFallDamage)
  }

  /** The damage `HandleGravityAndFallDamage` computes from the recorded
      velocity, if any. */
  function FallDamageDue(s: Settings, f: Frame): Option<int>
  {
    if f.isGrounded && f.lastYVelocity < s.fallDamageThreshold
    then Some(FallDamage(s, f.lastYVelocity))
    else None
  }

  /** The velocity part of `HandleGravityAndFallDamage`. */
  function GravityApplied(s: Settings, f: Frame, dt: real): Frame
  {
    if f.isGrounded then
      if f.verticalVelocity < 0.0 then f.(verticalVelocity := GroundedVelocity) else f
    else f.(verticalVelocity := f.verticalVelocity + s.gravity * dt)
  }

  /** The death gate: `health` is the attached `PlayerHealth`'s pool, if any. */
  predicate Dead(health: Option<int>)
  {
    health.Some? && health.value <= 0
  }

  /** The frame as it stands just before gravity: probed, input handled and
      the velocity recorded in `lastYVelocity`. */
  function Recorded(s: Settings, f: Frame, input: Input): Frame
  {
    var handled := InputHandled(s, f.(isGrounded := input.groundProbe), input.jumpDown, input.crouchDown);
    handled.(lastYVelocity := handled.verticalVelocity)
  }

  /** `Update`, for the fields of `Frame`. */
  function Stepped(s: Settings, f: Frame, input: Input, health: Option<int>): Frame
  {
    if Dead(health) then f
    else GravityApplied(s, Recorded(s, f, input), input.dt)
  }

  /** The damage `Update` passes to `PlayerHealth.TakeDamage`, if it calls it. */
  function StepDamage(s: Settings, f: Frame, input: Input, health: Option<int>): Option<int>
  {
    if Dead(health) || health.None? then None
    else FallDamageDue(s, Recorded(s, f, input))
  }

  /** Whether the controller's height, centre and speed are the preset of its posture. */
  predicate CrouchPreset(s: Settings, f: Frame)
  {
    if f.isCrouching
    then f.controllerHeight == 1.0 && f.controllerCenterY == 0.5 && f.speed == s.originalSpeed * 0.5
    else f.controllerHeight == 2.0 && f.controllerCenterY == 1.0 && f.speed == s.originalSpeed
  }

  // ---------------------------------------------------------------------------
  // Properties of one frame

  /** Once the pool is empty the frame changes nothing and charges nothing. */
  lemma DeathGateFreezes(s: Settings, f: Frame, input: Input, health: Option<int>)
    requires Dead(health)
    ensures Stepped(s, f, input, health) == f
    ensures StepDamage(s, f, input, health) == None
  {
  }

  /** The probe is taken before input and `lastYVelocity` is the velocity
      after input and before gravity: the jump force exactly when a jump was
      pressed on a grounded frame, the previous velocity otherwise. */
  lemma RecordedVelocityIsPostInput(s: Settings, f: Frame, input: Input, health: Option<int>)
    requires !Dead(health)
    ensures Stepped(s, f, input, health).isGrounded == input.groundProbe
    ensures Stepped(s, f, input, health).lastYVelocity
         == if input.jumpDown && input.groundProbe then s.jumpForce else f.verticalVelocity
  {
  }

  /** A jump press in the air has no effect at all. */
  lemma AirborneJumpIgnored(s: Settings, f: Frame, input: Input, health: Option<int>)
    requires !input.groundProbe
    ensures Stepped(s, f, input, health) == Stepped(s, f, input.(jumpDown := false), health)
    ensures StepDamage(s, f, input, health) == StepDamage(s, f, input.(jumpDown := false), health)
  {
  }

  /** On the ground, a downward velocity snaps to exactly -0.5 and an upward
      one (a jump just taken) is kept, so a grounded frame never ends below
      -0.5. */
  lemma GroundedSnap(s: Settings, f: Frame, input: Input, health: Option<int>)
    requires !Dead(health) && input.groundProbe
    ensures var v := Recorded(s, f, input).verticalVelocity;
            Stepped(s, f, input, health).verticalVelocity == if v < 0.0 then -0.5 else v
    ensures Stepped(s, f, input, health).verticalVelocity >= -0.5
  {
  }

  /** In the air, velocity integrates gravity over the frame; with downward
      gravity and a non-negative frame time it never grows. */
  lemma AirborneIntegration(s: Settings, f: Frame, input: Input, health: Option<int>)
    requires !Dead(health) && !input.groundProbe
    ensures Stepped(s, f, input, health).verticalVelocity == f.verticalVelocity + s.gravity * input.dt
    ensures s.gravity <= 0.0 && 0.0 <= input.dt ==> Stepped(s, f, input, health).verticalVelocity <= f.verticalVelocity
  {
    if s.gravity <= 0.0 && 0.0 <= input.dt {
      MulNonNegative(-s.gravity, input.dt);
    }
  }

  /** Damage is requested exactly on a live grounded frame whose recorded
      velocity is below the threshold, and only when a pool is attached. */
  lemma DamageOnlyOnFastGroundedFrames(s: Settings, f: Frame, input: Input, health: Option<int>)
    ensures StepDamage(s, f, input, health).Some?
        <==> (health.Some? && !Dead(health) && input.groundProbe
              && Recorded(s, f, input).verticalVelocity < s.fallDamageThreshold)
    ensures StepDamage(s, f, input, health).Some? ==>
              StepDamage(s, f, input, health).value == FallDamage(s, Recorded(s, f, input).verticalVelocity)
  {
  }

  /** The faster the landing, the larger the damage. */
  lemma FallDamageMonotone(s: Settings, v1: real, v2: real)
    requires v1 <= v2 <= 0.0 && 0 <= s.maxFallDamage
    ensures FallDamage(s, v2) <= FallDamage(s, v1)
  {
    var e1 := Abs(v1) - Abs(s.fallDamageThreshold);
    var e2 := Abs(v2) - Abs(s.fallDamageThreshold);
    assert e2 * 50.0 <= e1 * 50.0;
    RoundToIntMonotone(e2 * 50.0, e1 * 50.0);
    ClampMonotone(RoundToInt(e2 * 50.0), RoundToInt(e1 * 50.0), 0, s.maxFallDamage);
  }

  /** With a threshold at or below the snap value, a grounded frame cannot be
      followed by a damaging one unless a jump is pressed: the snap leaves
      the velocity at -0.5 or above. */
  lemma NoDamageWhileResting(s: Settings, f: Frame, first: Input, second: Input, h1: Option<int>, h2: Option<int>)
    requires s.fallDamageThreshold <= GroundedVelocity
    requires !Dead(h1) && first.groundProbe && !second.jumpDown
    ensures StepDamage(s, Stepped(s, f, first, h1), second, h2) == None
  {
    GroundedSnap(s, f, first, h1);
  }

  /** Crouching twice restores the posture, and also the controller preset
      and speed when they matched the posture before. */
  lemma CrouchTwice(s: Settings, f: Frame)
    ensures Crouched(s, Crouched(s, f)).isCrouching == f.isCrouching
    ensures CrouchPreset(s, Crouched(s, f))
    ensures CrouchPreset(s, f) ==> Crouched(s, Crouched(s, f)) == f
  {
  }

  // ---------------------------------------------------------------------------
  // Several frames, with the pool attached

  /** Runs frames in order against an attached pool of `maxHealth`, charging
      each requested damage to it; yields the last frame and the pool. */
  function Run(s: Settings, f: Frame, health: int, maxHealth: int, inputs: seq<Input>): (Frame, int)
    decreases |inputs|
  {
    if inputs == [] then (f, health)
    else
      var next := Stepped(s, f, inputs[0], Some(health));
      var hp := HealthPool.Charged(health, maxHealth, StepDamage(s, f, inputs[0], Some(health)));
      Run(s, next, hp, maxHealth, inputs[1..])
  }

  /** Death is terminal: from an empty pool, no sequence of frames moves the
      character or changes the pool. */
  lemma {:induction false} DeathIsTerminal(s: Settings, f: Frame, health: int, maxHealth: int, inputs: seq<Input>)
    requires health <= 0
    ensures Run(s, f, health, maxHealth, inputs) == (f, health)
    decreases |inputs|
  {
    if inputs != [] {
      DeathIsTerminal(s, f, health, maxHealth, inputs[1..]);
    }
  }

  /** The pool stays within [0, maxHealth] across any run of frames. */
  lemma {:induction false} RunKeepsPool(s: Settings, f: Frame, health: int, maxHealth: int, inputs: seq<Input>)
    requires 0 <= health <= maxHealth
    ensures 0 <= Run(s, f, health, maxHealth, inputs).1 <= maxHealth
    decreases |inputs|
  {
    if inputs != [] {
      var next := Stepped(s, f, inputs[0], Some(health));
      var hp := HealthPool.Charged(health, maxHealth, StepDamage(s, f, inputs[0], Some(health)));
      RunKeepsPool(s, next, hp, maxHealth, inputs[1..]);
    }
  }

  // ---------------------------------------------------------------------------
  // The component

  class ThirdPersonMovement {
    const settings: Settings
    /** The sibling `PlayerHealth` found in `Start`, if there is one. */
    const playerHealth: RootHealth.PlayerHealth?
    var isGrounded: bool
    var verticalVelocity: real
    var lastYVelocity: real
    var isCrouching: bool
    var speed: real
    var controllerHeight: real
    var controllerCenterY: real

    function State(): Frame
      reads this
    {
      Frame(isGrounded, verticalVelocity, lastYVelocity, isCrouching, speed, controllerHeight, controllerCenterY)
    }

    /** The pool the death gate reads, if a `PlayerHealth` is attached. */
    function Health(): Option<int>
      reads this, playerHealth
    {
      if playerHealth == null then None else Some(playerHealth.currentHealth)
    }

    /** Field initialisers followed by `Start`: the inspector values and the
        sibling components are given, `originalSpeed` is copied from `speed`. */
    constructor (speed: real, jumpForce: real, gravity: real, fallDamageThreshold: real, maxFallDamage: int,
                 controllerHeight: real, controllerCenterY: real, playerHealth: RootHealth.PlayerHealth?)
      ensures settings == Settings(jumpForce, gravity, fallDamageThreshold, maxFallDamage, speed)
      ensures this.playerHealth == playerHealth
      ensures State() == Frame(false, 0.0, 0.0, false, speed, controllerHeight, controllerCenterY)
    {
      settings := Settings(jumpForce, gravity, fallDamageThreshold, maxFallDamage, speed);
      this.playerHealth := playerHealth;
      isGrounded := false;
      verticalVelocity := 0.0;
      lastYVelocity := 0.0;
      isCrouching := false;
      this.speed := speed;
      this.controllerHeight := controllerHeight;
      this.controllerCenterY := controllerCenterY;
    }

    method TriggerJump()
      modifies this
      ensures State() == Jumped(settings, old(State()))
    {
      if isGrounded {
        verticalVelocity := settings.jumpForce;
      }
    }

    method ToggleCrouch()
      modifies this
      ensures State() == Crouched(settings, old(State()))
    {
      isCrouching := !isCrouching;
      controllerHeight := if isCrouching then 1.0 else 2.0;
      controllerCenterY := if isCrouching then 0.5 else 1.0;
      speed := if isCrouching then settings.originalSpeed * 0.5 else settings.originalSpeed;
    }

    method HandleInput(jumpDown: bool, crouchDown: bool)
      modifies this
      ensures State() == InputHandled(settings, old(State()), jumpDown, crouchDown)
    {
      if jumpDown {
        TriggerJump();
      }
      if crouchDown {
        ToggleCrouch();
      }
    }

    method CalculateFallDamage(velocity: real) returns (damage: int)
      ensures damage == FallDamage(settings, velocity)
      ensures 0 <= settings.maxFallDamage ==> 0 <= damage <= settings.maxFallDamage
    {
      var fallSpeed := Abs(velocity);
      var excess := fallSpeed - Abs(settings.fallDamageThreshold);
      damage := Clamp(RoundToInt(excess * 50.0), 0, settings.maxFallDamage);
    }

    method HandleGravityAndFallDamage(dt: real)
      modifies this, playerHealth
      ensures State() == GravityApplied(settings, old(State()), dt)
      ensures playerHealth != null ==> playerHealth.maxHealth == old(playerHealth.maxHealth)
      ensures playerHealth != null ==>
                playerHealth.currentHealth == HealthPool.Charged(old(playerHealth.currentHealth), old(playerHealth.maxHealth),
                                                      FallDamageDue(settings, old(State())))
      ensures playerHealth != null ==> playerHealth.Took(FallDamageDue(settings, old(State())))
      ensures playerHealth != null && old(playerHealth.Valid()) ==> playerHealth.Valid()
    {
      if isGrounded {
        if lastYVelocity < settings.fallDamageThreshold {
          var damage := CalculateFallDamage(lastYVelocity);
          if playerHealth != null {
            playerHealth.TakeDamage(damage);
          }
        }
        if verticalVelocity < 0.0 {
          verticalVelocity := GroundedVelocity;
        }
      } else {
        verticalVelocity := verticalVelocity + settings.gravity * dt;
      }
    }

    /** One frame. */
    method Update(input: Input)
      modifies this, playerHealth
      ensures State() == Stepped(settings, old(State()), input, old(Health()))
      ensures playerHealth != null ==> playerHealth.maxHealth == old(playerHealth.maxHealth)
      ensures playerHealth != null ==>
                playerHealth.currentHealth == HealthPool.Charged(old(playerHealth.currentHealth), old(playerHealth.maxHealth),
                                                      StepDamage(settings, old(State()), input, old(Health())))
      ensures playerHealth != null ==> playerHealth.Took(StepDamage(settings, old(State()), input, old(Health())))
      ensures playerHealth != null && old(playerHealth.Valid()) ==> playerHealth.Valid()
    {
      if playerHealth != null && playerHealth.currentHealth <= 0 {
        return;
      }
      isGrounded := input.groundProbe;
      HandleInput(input.jumpDown, input.crouchDown);
      lastYVelocity := verticalVelocity;
      HandleGravityAndFallDamage(input.dt);
    }
  }
}
