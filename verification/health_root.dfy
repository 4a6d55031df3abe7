/**
  `PlayerHealth` at the top of Assets: the same pool and slider as the copy in
  Assets/Scripts, but its death handler only writes a log line, so dying
  changes nothing but the count of deaths.
*/
module RootHealth {
  import opened HealthPool
  import opened Wrappers

  class PlayerHealth {
    var maxHealth: int
    var currentHealth: int
    /** `healthSlider.maxValue` and `healthSlider.value`. */
    var sliderMaxValue: real
    var sliderValue: real
    /** How many times `Die` has run. */
    ghost var deaths: nat

    /** The state `Start` establishes and `TakeDamage` keeps. */
    ghost predicate Valid()
      reads this
    {
      && sliderMaxValue == maxHealth as real
      && sliderValue == currentHealth as real
      && (0 <= maxHealth ==> 0 <= currentHealth <= maxHealth)
    }

    /** The component as the engine creates it, before `Start`. */
    constructor (maxHealth: int)
      ensures this.maxHealth == maxHealth && currentHealth == 0
      ensures sliderMaxValue == 1.0 && sliderValue == 0.0 && deaths == 0
    {
      this.maxHealth := maxHealth;
      currentHealth := 0;
      sliderMaxValue := 1.0;
      sliderValue := 0.0;
      deaths := 0;
    }

    /** Fills the pool and the slider. */
    method Start()
      modifies this
      ensures Valid()
      ensures currentHealth == maxHealth == old(maxHealth)
      ensures sliderMaxValue == maxHealth as real && sliderValue == maxHealth as real
      ensures deaths == old(deaths)
    {
      currentHealth := maxHealth;
      sliderMaxValue := maxHealth as real;
      sliderValue := currentHealth as real;
    }

    /** What one damage call leaves behind, between the state before and
        after it: for `Some(damage)`, the health is subtracted and clamped,
        the slider follows it, and `Die` has run exactly when the new health
        is 0 or less; for `None`, no call was made and nothing changed. */
    twostate predicate Took(damage: Option<int>)
      reads this
    {
      match damage
      case None => unchanged(this)
      case Some(d) =>
        && currentHealth == AfterDamage(old(currentHealth), old(maxHealth), d)
        && maxHealth == old(maxHealth) && sliderMaxValue == old(sliderMaxValue)
        && sliderValue == currentHealth as real
        && deaths == old(deaths) + (if currentHealth <= 0 then 1 else 0)
    }

    /** Subtracts, clamps, refreshes the slider and dies at zero. */
    method TakeDamage(damage: int)
      modifies this
      ensures Took(Some(damage))
      ensures old(Valid()) ==> Valid()
    {
      currentHealth := currentHealth - damage;
      currentHealth := UnityMath.Clamp(currentHealth, 0, maxHealth);
      UpdateHealthUI();
      if currentHealth <= 0 {
        Die();
      }
    }

    /** Mirrors the pool into the slider. */
    method UpdateHealthUI()
      modifies this`sliderValue
      ensures sliderValue == currentHealth as real
    {
      sliderValue := currentHealth as real;
    }

    /** Only a log line in the source: no field of the component changes. */
    method Die()
      modifies this`deaths
      ensures deaths == old(deaths) + 1
    {
      deaths := deaths + 1;
    }
  }
}
