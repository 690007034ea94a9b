/** A choppable tree: every interaction asks the server for 25 damage, and
    the server despawns the tree once its health is 0 or below. */
module Trees {
  import opened Common

  /** The damage one `Interact` asks for. */
  const InteractDamage := 25

  /** `maxHealth`'s default. */
  const DefaultMaxHealth := 100

  /** Health after `k` interactions starting from `h` (each an unchecked
      C# `int` subtraction). */
  function HealthAfter(h: int, k: nat): int
  {
    if k == 0 then h else Wrap32(HealthAfter(h, k - 1) - InteractDamage)
  }

  /** Without overflow, `k` interactions take exactly `25 * k` off. */
  lemma {:induction false} HealthAfterExact(h: int, k: nat)
    requires InInt32(h) && InInt32(h - InteractDamage * k)
    ensures HealthAfter(h, k) == h - InteractDamage * k
  {
    if k > 0 {
      HealthAfterExact(h, k - 1);
    }
  }

  /** A tree at the default health survives three interactions and is
      despawned on the fourth; in general a tree of health `h` falls on the
      first interaction that brings the count to `25 * k >= h`. */
  lemma FallsAfter(h: int, k: nat)
    requires InInt32(h) && InInt32(h - InteractDamage * k)
    ensures HealthAfter(h, k) <= 0 <==> InteractDamage * k >= h
    ensures h == DefaultMaxHealth ==> (HealthAfter(h, k) <= 0 <==> k >= 4)
  {
    HealthAfterExact(h, k);
  }

  class TreeHealth {
    const maxHealth: int
    var currentHealth: int
    /** How many times the server has called `Despawn`. */
    var despawnRequests: nat

    /** Before `Start` the health field holds C#'s default 0. */
    constructor (maxHealth: int)
      requires InInt32(maxHealth)
      ensures this.maxHealth == maxHealth && currentHealth == 0 && despawnRequests == 0
    {
      this.maxHealth := maxHealth;
      currentHealth := 0;
      despawnRequests := 0;
    }

    /** `Start()`: full health. */
    method Start()
      modifies this
      ensures currentHealth == maxHealth && despawnRequests == old(despawnRequests)
    {
      currentHealth := maxHealth;
    }

    /** `TakeDamageServerRpc(damage)`, run on the server. */
    method TakeDamageServerRpc(damage: int)
      requires InInt32(currentHealth) && InInt32(damage)
      modifies this
      ensures currentHealth == Wrap32(old(currentHealth) - damage)
      ensures InInt32(old(currentHealth) - damage) ==> currentHealth == old(currentHealth) - damage
      ensures despawnRequests == old(despawnRequests) + if currentHealth <= 0 then 1 else 0
    {
      currentHealth := Wrap32(currentHealth - damage);
      if currentHealth <= 0 {
        despawnRequests := despawnRequests + 1;
      }
    }

    /** `Interact()`: the request reaches the server at once. */
    method Interact()
      requires InInt32(currentHealth)
      modifies this
      ensures currentHealth == HealthAfter(old(currentHealth), 1)
      ensures despawnRequests == old(despawnRequests) + if currentHealth <= 0 then 1 else 0
    {
      TakeDamageServerRpc(InteractDamage);
    }
  }
}
