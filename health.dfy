/** A player's `Health`: a networked integer clamped to `[0, MaxHealth]` and a
    death latch. Reaching 0 marks the player dead and raises `OnDie`; once
    dead, further changes are ignored, so `OnDie` is raised at most once. */
module HealthModel {
  import opened Common

  /** `MaxHealth`'s default. */
  const DefaultMaxHealth := 100

  /** The state `ModifyHealth` works on. */
  datatype Vitals = Vitals(current: int, isDead: bool)

  /** `ModifyHealth(value)`: the new vitals, and whether `OnDie` was raised.
      The sum is an unchecked C# `int` addition. */
  function Modify(h: Vitals, maxHealth: int, value: int): (r: (Vitals, bool))
    ensures h.isDead ==> r == (h, false)
    ensures !h.isDead && 0 <= maxHealth ==> 0 <= r.0.current <= maxHealth
    ensures !h.isDead && InInt32(h.current + value) ==> r.0.current == Clamp(h.current + value, 0, maxHealth)
    ensures r.1 <==> !h.isDead && r.0.isDead
    ensures r.0.isDead <==> h.isDead || r.0.current == 0
  {
    if h.isDead then (h, false)
    else
      var newHealth := Wrap32(h.current + value);
      var c := Clamp(newHealth, 0, maxHealth);
      if c == 0 then (Vitals(c, true), true) else (Vitals(c, false), false)
  }

  /** A run of `ModifyHealth` calls: the final vitals and how many times
      `OnDie` was raised. */
  function Run(h: Vitals, maxHealth: int, values: seq<int>): (Vitals, nat)
    decreases |values|
  {
    if values == [] then (h, 0)
    else
      var step := Modify(h, maxHealth, values[0]);
      var rest := Run(step.0, maxHealth, values[1..]);
      (rest.0, rest.1 + if step.1 then 1 else 0)
  }

  /** Over any run, `OnDie` is raised at most once, and exactly when the run
      takes a living player to death; a dead player's vitals never change, and
      health that starts in `[0, maxHealth]` stays there. */
  lemma {:induction false} DiesAtMostOnce(h: Vitals, maxHealth: int, values: seq<int>)
    ensures Run(h, maxHealth, values).1 <= 1
    ensures Run(h, maxHealth, values).1 == 1 <==> !h.isDead && Run(h, maxHealth, values).0.isDead
    ensures h.isDead ==> Run(h, maxHealth, values).0 == h
    ensures 0 <= h.current <= maxHealth ==> 0 <= Run(h, maxHealth, values).0.current <= maxHealth
    decreases |values|
  {
    if values != [] {
      var step := Modify(h, maxHealth, values[0]);
      DiesAtMostOnce(step.0, maxHealth, values[1..]);
    }
  }

  /** The addition wraps around: restoring `int.MaxValue` to a player at full
      health overflows to a negative sum, which clamps to 0 and kills. */
  lemma RestoreCanWrap()
    ensures Modify(Vitals(DefaultMaxHealth, false), DefaultMaxHealth, 0x7FFF_FFFF) == (Vitals(0, true), true)
  {
    assert Wrap32(DefaultMaxHealth + 0x7FFF_FFFF) < 0;
  }

  class Health {
    const isServer: bool
    const maxHealth: int
    var currentHealth: int
    var isDead: bool
    /** How many times `OnDie` has been raised. */
    var onDieRaised: nat

    /** A freshly created component: the networked value starts at 0. */
    constructor (isServer: bool, maxHealth: int)
      requires InInt32(maxHealth)
      ensures this.isServer == isServer && this.maxHealth == maxHealth
      ensures currentHealth == 0 && !isDead && onDieRaised == 0
    {
      this.isServer := isServer;
      this.maxHealth := maxHealth;
      currentHealth := 0;
      isDead := false;
      onDieRaised := 0;
    }

    /** Health within its bounds, dead exactly at 0 once `OnDie` has been
        raised, and `OnDie` raised once exactly when dead. */
    predicate Valid()
      reads this
    {
      && 0 <= maxHealth && InInt32(maxHealth)
      && 0 <= currentHealth <= maxHealth
      && (isDead ==> currentHealth == 0)
      && onDieRaised == (if isDead then 1 else 0)
    }

    function State(): Vitals
      reads this
    {
      Vitals(currentHealth, isDead)
    }

    /** `OnNetworkSpawn()`: the server starts the player at full health. */
    method OnNetworkSpawn()
      modifies this
      ensures isServer ==> currentHealth == maxHealth
      ensures !isServer ==> currentHealth == old(currentHealth)
      ensures isDead == old(isDead) && onDieRaised == old(onDieRaised)
      ensures old(Valid()) && !isDead ==> Valid()
    {
      if !isServer {
        return;
      }
      currentHealth := maxHealth;
    }

    /** `ModifyHealth(value)`. */
    method ModifyHealth(value: int)
      requires InInt32(value)
      modifies this
      ensures State() == Modify(old(State()), maxHealth, value).0
      ensures onDieRaised == old(onDieRaised) + if Modify(old(State()), maxHealth, value).1 then 1 else 0
      ensures old(Valid()) ==> Valid()
    {
      if isDead {
        return;
      }
      var newHealth := Wrap32(currentHealth + value);
      currentHealth := Clamp(newHealth, 0, maxHealth);
      if currentHealth == 0 {
        isDead := true;
        onDieRaised := onDieRaised + 1;
      }
    }

    /** `TakeDamage(damage)`: `ModifyHealth` of the negated damage (an
        unchecked negation). */
    method TakeDamage(damage: int)
      requires InInt32(damage)
      modifies this
      ensures State() == Modify(old(State()), maxHealth, Wrap32(-damage)).0
      ensures onDieRaised == old(onDieRaised) + if Modify(old(State()), maxHealth, Wrap32(-damage)).1 then 1 else 0
      ensures old(Valid()) ==> Valid()
    {
      ModifyHealth(Wrap32(-damage));
    }

    /** `RestoreHealth(value)`: `ModifyHealth(value)`. */
    method RestoreHealth(value: int)
      requires InInt32(value)
      modifies this
      ensures State() == Modify(old(State()), maxHealth, value).0
      ensures onDieRaised == old(onDieRaised) + if Modify(old(State()), maxHealth, value).1 then 1 else 0
      ensures old(Valid()) ==> Valid()
    {
      ModifyHealth(value);
    }
  }
}
