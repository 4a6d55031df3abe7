/**
  `PlayerHealth` of Assets/Scripts: an integer health pool mirrored into a UI
  slider, whose death handler shows the game-over screen, pauses the game and
  releases the cursor. The slider is kept as two plain fields; the engine-wide
  pause (`Time.timeScale = 0`) and cursor state are kept as flags.
*/
module ScriptsHealth {
  import opened HealthPool
  import opened Wrappers

  class PlayerHealth {
    var maxHealth: int
    var currentHealth: int
    /** `healthSlider.maxValue` and `healthSlider.value`. */
    var sliderMaxValue: real
    var sliderValue: real
    /** Whether a game-over screen was assigned in the inspector. */
    const hasGameOverScreen: bool
    var gameOverShown: bool
    /** `Time.timeScale == 0`. */
    var paused: bool
    /** Cursor unlocked and visible. */
    var cursorReleased: bool
    /** How many times `Die` has run. */
    ghost var deaths: nat

    /** The state `Start` establishes and `TakeDamage` keeps. */
    ghost predicate Valid()
      reads this
    {
      && sliderMaxValue == maxHealth as real
      && sliderValue == currentHealth as real
      && (0 <= maxHealth ==> 0 <= currentHealth <= maxHealth)
    }

    /** The component as the engine creates it, before `Start`: field
        initialisers only (a fresh slider reads 0 out of 1). */
    constructor (maxHealth: int, hasGameOverScreen: bool)
      ensures this.maxHealth == maxHealth && currentHealth == 0
      ensures sliderMaxValue == 1.0 && sliderValue == 0.0
      ensures this.hasGameOverScreen == hasGameOverScreen
      ensures !gameOverShown && !paused && !cursorReleased && deaths == 0
    {
      this.maxHealth := maxHealth;
      currentHealth := 0;
      sliderMaxValue := 1.0;
      sliderValue := 0.0;
      this.hasGameOverScreen := hasGameOverScreen;
      gameOverShown := false;
      paused := false;
      cursorReleased := false;
      deaths := 0;
    }

    /** Fills the pool and the slider. */
    method Start()
      modifies this
      ensures Valid()
      ensures currentHealth == maxHealth == old(maxHealth)
      ensures sliderMaxValue == maxHealth as real && sliderValue == maxHealth as real
      ensures gameOverShown == old(gameOverShown) && paused == old(paused)
      ensures cursorReleased == old(cursorReleased) && deaths == old(deaths)
    {
      currentHealth := maxHealth;
      sliderMaxValue := maxHealth as real;
      sliderValue := currentHealth as real;
    }

    /** What one damage call leaves behind, between the state before and
        after it: for `Some(damage)`, the health is subtracted and clamped,
        the slider follows it, and `Die` has run (pause, cursor, game-over
        screen when assigned) exactly when the new health is 0 or less; for
        `None`, no call was made and nothing changed. */
    twostate predicate Took(damage: Option<int>)
      reads this
    {
      match damage
      case None => unchanged(this)
      case Some(d) =>
        && currentHealth == AfterDamage(old(currentHealth), old(maxHealth), d)
        && maxHealth == old(maxHealth) && sliderMaxValue == old(sliderMaxValue)
        && sliderValue == currentHealth as real
        && deaths == old(deaths) + (if currentHealth <= 0 then 1 else 0)
        && (currentHealth <= 0 ==>
              paused && cursorReleased && gameOverShown == (old(gameOverShown) || hasGameOverScreen))
        && (0 < currentHealth ==>
              paused == old(paused) && cursorReleased == old(cursorReleased) && gameOverShown == old(gameOverShown))
    }

    /** Subtracts, clamps, refreshes the slider and dies at zero. There is no
        guard against dying twice: every hit that leaves the pool at zero
        runs `Die` again. */
    method TakeDamage(damage: int)
      modifies this
      ensures Took(Some(damage))
      ensures old(Valid()) ==> Valid()
    {
      currentHealth := currentHealth - damage;
      currentHealth := UnityMath.Clamp(currentHealth, 0, maxHealth);
      UpdateHealthUI();
      if currentHealth <= 0 {
        Die();
      }
    }

    /** Mirrors the pool into the slider. */
    method UpdateHealthUI()
      modifies this`sliderValue
      ensures sliderValue == currentHealth as real
    {
      sliderValue := currentHealth as real;
    }

    /** Shows the game-over screen when there is one, pauses the game and
        releases the cursor; the pool itself is untouched. */
    method Die()
      modifies this`gameOverShown, this`paused, this`cursorReleased, this`deaths
      ensures gameOverShown == (old(gameOverShown) || hasGameOverScreen)
      ensures paused && cursorReleased && deaths == old(deaths) + 1
    {
      if hasGameOverScreen {
        gameOverShown := true;
      }
      paused := true;
      cursorReleased := true;
      deaths := deaths + 1;
    }
  }
}
