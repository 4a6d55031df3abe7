/**
  The integer health rule shared by both copies of `PlayerHealth`:
  `TakeDamage` subtracts the damage and clamps the result to [0, maxHealth].
*/
module HealthPool {
  import opened UnityMath
  import opened Wrappers

  /** The health left after `TakeDamage(damage)` starting from `current`. */
  function AfterDamage(current: int, maxHealth: int, damage: int): (r: int)
    ensures 0 <= maxHealth ==> 0 <= r <= maxHealth
    ensures 0 < maxHealth ==> (r <= 0 <==> current - damage <= 0)
    ensures 0 <= current - damage <= maxHealth ==> r == current - damage
  {
    Clamp(current - damage, 0, maxHealth)
  }

  /** The pool after a frame that called `TakeDamage(d)` when `damage` is
      `Some(d)`, and did not call it when `damage` is `None`. */
  function Charged(current: int, maxHealth: int, damage: Option<int>): int
  {
    match damage
    case Some(d) => AfterDamage(current, maxHealth, d)
    case None => current
  }

  /** Negative damage heals, but never past `maxHealth`. */
  lemma HealingIsCapped(current: int, maxHealth: int, damage: int)
    requires 0 <= current <= maxHealth && damage <= 0
    ensures current <= AfterDamage(current, maxHealth, damage) <= maxHealth
    ensures AfterDamage(current, maxHealth, damage) == if current - damage <= maxHealth then current - damage else maxHealth
  {
  }

  /** At zero health, further non-negative damage leaves the pool at zero. */
  lemma DepletedStaysDepleted(maxHealth: int, damage: int)
    requires 0 <= maxHealth && 0 <= damage
    ensures AfterDamage(0, maxHealth, damage) == 0
  {
  }

  /** The health left after a run of `TakeDamage` calls, oldest first. */
  function AfterHits(current: int, maxHealth: int, hits: seq<int>): int
    decreases |hits|
  {
    if hits == [] then current
    else AfterHits(AfterDamage(current, maxHealth, hits[0]), maxHealth, hits[1..])
  }

  function Total(hits: seq<int>): int
    decreases |hits|
  {
    if hits == [] then 0 else hits[0] + Total(hits[1..])
  }

  /** A run of non-negative hits on a valid pool leaves exactly what one hit of
      their total would: the pool never goes below zero and never rebounds. */
  lemma {:induction false} HitsAccumulate(current: int, maxHealth: int, hits: seq<int>)
    requires 0 <= current <= maxHealth
    requires forall i :: 0 <= i < |hits| ==> 0 <= hits[i]
    ensures AfterHits(current, maxHealth, hits) == if current - Total(hits) <= 0 then 0 else current - Total(hits)
    decreases |hits|
  {
    if hits != [] {
      var next := AfterDamage(current, maxHealth, hits[0]);
      assert forall i :: 0 <= i < |hits[1..]| ==> 0 <= hits[1..][i] by {
        forall i | 0 <= i < |hits[1..]| ensures 0 <= hits[1..][i] {
          assert hits[1..][i] == hits[i + 1];
        }
      }
      HitsAccumulate(next, maxHealth, hits[1..]);
      TotalNonNegative(hits[1..]);
    }
  }

  lemma {:induction false} TotalNonNegative(hits: seq<int>)
    requires forall i :: 0 <= i < |hits| ==> 0 <= hits[i]
    ensures 0 <= Total(hits)
    decreases |hits|
  {
    if hits != [] {
      assert forall i :: 0 <= i < |hits[1..]| ==> 0 <= hits[1..][i] by {
        forall i | 0 <= i < |hits[1..]| ensures 0 <= hits[1..][i] {
          assert hits[1..][i] == hits[i + 1];
        }
      }
      TotalNonNegative(hits[1..]);
    }
  }
}
