/** The `Enemy` base class: integer health lowered by each hit and a defeat
    that happens once. `TakeDamage` answers true exactly for the hit that
    defeats the enemy; a defeated enemy ignores further hits. */
module Enemies {
  import opened Common

  /** The state `TakeDamage` works on. */
  datatype Life = Life(health: int, isDead: bool)

  /** `TakeDamage(damageAmount)`: the new state and the result, which is also
      whether `OnDefeated` runs. The subtraction is an unchecked C# `int`
      subtraction. */
  function Hit(e: Life, damageAmount: int): (r: (Life, bool))
    ensures e.isDead ==> r == (e, false)
    ensures !e.isDead ==> r.0.health == Wrap32(e.health - damageAmount)
    ensures !e.isDead && InInt32(e.health - damageAmount) ==> r.0.health == e.health - damageAmount
    ensures r.1 <==> !e.isDead && r.0.health <= 0
    ensures r.0.isDead <==> e.isDead || r.1
  {
    if e.isDead then (e, false)
    else
      var health := Wrap32(e.health - damageAmount);
      if health <= 0 then (Life(health, true), true) else (Life(health, false), false)
  }

  /** A run of `TakeDamage` calls: the final state and how many of them
      answered true. */
  function Hits(e: Life, amounts: seq<int>): (Life, nat)
    decreases |amounts|
  {
    if amounts == [] then (e, 0)
    else
      var step := Hit(e, amounts[0]);
      var rest := Hits(step.0, amounts[1..]);
      (rest.0, rest.1 + if step.1 then 1 else 0)
  }

  /** Over any run, `TakeDamage` answers true at most once, and exactly when
      the run takes a living enemy to defeat; a defeated enemy never changes. */
  lemma {:induction false} DefeatedAtMostOnce(e: Life, amounts: seq<int>)
    ensures Hits(e, amounts).1 <= 1
    ensures Hits(e, amounts).1 == 1 <==> !e.isDead && Hits(e, amounts).0.isDead
    ensures e.isDead ==> Hits(e, amounts).0 == e
    decreases |amounts|
  {
    if amounts != [] {
      DefeatedAtMostOnce(Hit(e, amounts[0]).0, amounts[1..]);
    }
  }

  /** The hit that answers true is the first one that takes health to 0 or
      below: every earlier hit left the enemy alive with positive health. */
  lemma {:induction false} DefeatingHitIsFirst(e: Life, amounts: seq<int>, j: nat)
    requires j < |amounts| && !e.isDead
    requires Hit(Hits(e, amounts[..j]).0, amounts[j]).1
    ensures forall i :: 0 < i <= j ==> !Hits(e, amounts[..i]).0.isDead && Hits(e, amounts[..i]).0.health > 0
    ensures Hits(e, amounts[..j + 1]).1 == 1
  {
    DefeatedAtMostOnce(e, amounts[..j]);
    HitsSnoc(e, amounts[..j], amounts[j]);
    assert amounts[..j] + [amounts[j]] == amounts[..j + 1];
    forall i | 0 < i <= j
      ensures !Hits(e, amounts[..i]).0.isDead && Hits(e, amounts[..i]).0.health > 0
    {
      StillAlive(e, amounts[..j], i);
      assert amounts[..j][..i] == amounts[..i];
    }
  }

  /** A run ending in one more hit is that hit applied after the run. */
  lemma {:induction false} HitsSnoc(e: Life, amounts: seq<int>, d: int)
    ensures Hits(e, amounts + [d]).0 == Hit(Hits(e, amounts).0, d).0
    ensures Hits(e, amounts + [d]).1 == Hits(e, amounts).1 + if Hit(Hits(e, amounts).0, d).1 then 1 else 0
    decreases |amounts|
  {
    if amounts == [] {
      assert [] + [d] == [d];
      assert [d][1..] == [];
    } else {
      assert (amounts + [d])[1..] == amounts[1..] + [d];
      HitsSnoc(Hit(e, amounts[0]).0, amounts[1..], d);
    }
  }

  /** A run after which the enemy is still alive (so it can still be
      defeated) left it alive, with positive health, after each prefix. */
  lemma {:induction false} StillAlive(e: Life, amounts: seq<int>, i: nat)
    requires !e.isDead && !Hits(e, amounts).0.isDead && 0 < i <= |amounts|
    ensures !Hits(e, amounts[..i]).0.isDead && Hits(e, amounts[..i]).0.health > 0
    decreases |amounts|
  {
    var step := Hit(e, amounts[0]);
    DefeatedAtMostOnce(step.0, amounts[1..]);
    assert !step.0.isDead;
    if i == 1 {
      assert amounts[..1][1..] == [];
    } else {
      assert amounts[..i][1..] == amounts[1..][..i - 1];
      StillAlive(step.0, amounts[1..], i - 1);
    }
  }

  /** The abstract `Enemy`; `OnDefeated` is abstract, so the model counts its
      calls. */
  class Enemy {
    var health: int
    const damage: int
    var isDead: bool
    /** How many times `OnDefeated` has been called. */
    var defeatedCalls: nat

    /** The serialized defaults are 100 health and 10 damage. */
    constructor (health: int, damage: int)
      requires InInt32(health) && InInt32(damage)
      ensures this.health == health && this.damage == damage
      ensures !isDead && defeatedCalls == 0
    {
      this.health := health;
      this.damage := damage;
      isDead := false;
      defeatedCalls := 0;
    }

    /** `OnDefeated` has run once exactly when the enemy is dead. */
    predicate Valid()
      reads this
    {
      InInt32(health) && defeatedCalls == if isDead then 1 else 0
    }

    function State(): Life
      reads this
    {
      Life(health, isDead)
    }

    /** `GetDamage()`: the damage this enemy deals, which no operation
        changes. */
    function GetDamage(): (d: int)
      reads this
      ensures d == damage
    {
      damage
    }

    /** `TakeDamage(damageAmount)`. */
    method TakeDamage(damageAmount: int) returns (defeated: bool)
      requires InInt32(damageAmount)
      modifies this
      ensures (State(), defeated) == Hit(old(State()), damageAmount)
      ensures defeatedCalls == old(defeatedCalls) + if defeated then 1 else 0
      ensures old(Valid()) ==> Valid()
    {
      if isDead {
        return false;
      }
      health := Wrap32(health - damageAmount);
      if health <= 0 {
        isDead := true;
        defeatedCalls := defeatedCalls + 1;
        return true;
      }
      return false;
    }
  }
}
