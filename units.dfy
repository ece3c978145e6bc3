/** `UnitBaseModule`: a networked unit with a team and clamped health. */
module Units {
  import opened Core

  /** What the unit's events report, in firing order. Listeners are not
      modelled; each firing is recorded whether or not anyone listens. */
  datatype UnitEvent = Death | HealthChanged(health: real)

  /** The health the `Health` setter stores for `value`: positive values
      are capped at `maxHealth`, anything else becomes 0. */
  function StoredHealth(value: real, maxHealth: real): (h: real)
    ensures value > 0.0 ==> h <= value && h <= maxHealth && (h == value || h == maxHealth)
    ensures value <= 0.0 ==> h == 0.0
    ensures maxHealth >= 0.0 ==> 0.0 <= h <= maxHealth
  {
    if value > 0.0 then (if value > maxHealth then maxHealth else value) else 0.0
  }

  /** The events one call of the `Health` setter fires: `onDeath` when the
      value is not positive, then always `onHealthChanged` with the stored
      health. */
  function SetterEvents(value: real, maxHealth: real): (es: seq<UnitEvent>)
    ensures |es| > 0 && es[|es| - 1] == HealthChanged(StoredHealth(value, maxHealth))
    ensures Death in es <==> value <= 0.0
    ensures Death in es ==> es[0] == Death
  {
    if value > 0.0 then [HealthChanged(StoredHealth(value, maxHealth))]
    else [Death, HealthChanged(0.0)]
  }

  /** A unit already at zero health dies again on every non-negative hit:
      each setter call with a value of at most 0 fires `onDeath`. */
  lemma DeathFiresAgain(maxHealth: real, damage: real)
    requires damage >= 0.0
    ensures StoredHealth(StoredHealth(0.0, maxHealth) - damage, maxHealth) == 0.0
    ensures SetterEvents(StoredHealth(0.0, maxHealth) - damage, maxHealth) == [Death, HealthChanged(0.0)]
  {
  }

  /** Health is bounded by the maximum: however many hits (or heals) a unit
      takes, its health stays within [0, maxHealth]. */
  lemma {:induction false} HealthStaysInRange(health: real, maxHealth: real, damages: seq<real>)
    requires 0.0 <= health <= maxHealth
    ensures 0.0 <= AfterDamages(health, maxHealth, damages) <= maxHealth
    decreases |damages|
  {
    if damages != [] {
      HealthStaysInRange(StoredHealth(health - damages[0], maxHealth), maxHealth, damages[1..]);
    }
  }

  /** The health after `Damage` is called with each of `damages` in turn. */
  function AfterDamages(health: real, maxHealth: real, damages: seq<real>): real
    decreases |damages|
  {
    if damages == [] then health
    else AfterDamages(StoredHealth(health - damages[0], maxHealth), maxHealth, damages[1..])
  }

  class UnitBaseModule {
    var team: Team
    var maxHealth: real
    var realHealth: real
    /** Every `onDeath` and `onHealthChanged` firing so far. */
    var events: seq<UnitEvent>

    /** With a non-negative maximum, stored health lies in [0, maxHealth]. */
    ghost predicate Valid()
      reads this
    {
      maxHealth >= 0.0 ==> 0.0 <= realHealth <= maxHealth
    }

    /** A unit as placed in the scene: `realHealth` starts at 0. */
    constructor (team: Team, maxHealth: real)
      ensures this.team == team && this.maxHealth == maxHealth
      ensures realHealth == 0.0 && events == [] && Valid()
    {
      this.team := team;
      this.maxHealth := maxHealth;
      realHealth := 0.0;
      events := [];
    }

    /** The `Health` getter. */
    function Health(): real
      reads this
    {
      realHealth
    }

    /** The `Health` setter. Whatever the earlier health, the new one is
        within range. */
    method SetHealth(value: real)
      modifies this`realHealth, this`events
      ensures realHealth == StoredHealth(value, maxHealth)
      ensures events == old(events) + SetterEvents(value, maxHealth)
      ensures Valid()
    {
      if value > 0.0 {
        realHealth := if value > maxHealth then maxHealth else value;
      } else {
        realHealth := 0.0;
        events := events + [Death];
      }
      events := events + [HealthChanged(realHealth)];
    }

    /** `Damage(damage, sender)`: `Health -= damage`. The sender is not
        used. */
    method Damage(damage: real)
      modifies this`realHealth, this`events
      ensures realHealth == StoredHealth(old(realHealth) - damage, maxHealth)
      ensures events == old(events) + SetterEvents(old(realHealth) - damage, maxHealth)
      ensures Valid()
    {
      SetHealth(Health() - damage);
    }
  }
}
