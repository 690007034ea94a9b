/** The player's melee controller: a click starts an attack unless one is
    already under way, successive attacks alternate between two animations,
    and the movement animation follows the keys held while not attacking.
    `Invoke` calls are pending counters, released by explicit `Resume`
    methods. */
module Melee {
  import opened Common

  const IDLE := "Idle"
  const WALK := "Walk"
  const RUN := "Run"
  const ATTACK1 := "Attack 1"
  const ATTACK2 := "Attack 2"

  /** The keys `SetAnimations` reads: left shift, W, A, S and D. */
  datatype Keys = Keys(shift: bool, w: bool, a: bool, s: bool, d: bool)

  /** The branch of `SetAnimations` taken for the held keys, key by key:
      running needs shift and W, walking needs W without shift, or shift with
      A, S or D but without W (A, S or D without shift or W leave the player
      idle). */
  function MovementAnimation(k: Keys): (anim: string)
    ensures anim == RUN <==> k.shift && k.w
    ensures anim == WALK <==> (k.w && !k.shift) || (k.shift && !k.w && (k.a || k.s || k.d))
    ensures anim == IDLE <==> (!k.shift && !k.w) || (k.shift && !k.w && !k.a && !k.s && !k.d)
  {
    if !k.shift && !k.w then IDLE
    else if k.shift && k.w then RUN
    else if k.w || k.a || k.s || k.d then WALK
    else IDLE
  }

  /** The animation an accepted attack plays for the current combo count. */
  function AttackAnimation(attackCount: int): string {
    if attackCount == 0 then ATTACK1 else ATTACK2
  }

  /** The combo count after an accepted attack. */
  function NextCount(attackCount: int): int {
    if attackCount == 0 then attackCount + 1 else 0
  }

  /** The combo count after `k` accepted attacks. */
  function CountAfter(attackCount: int, k: nat): int {
    if k == 0 then attackCount else NextCount(CountAfter(attackCount, k - 1))
  }

  /** Starting from a count of 0 or 1, the count after `k` accepted attacks
      is the parity of the start plus `k`, so the `k`-th attack from a fresh
      controller plays `ATTACK1` exactly when `k` is even. */
  lemma {:induction false} ComboAlternates(attackCount: int, k: nat)
    requires attackCount == 0 || attackCount == 1
    ensures CountAfter(attackCount, k) == (attackCount + k) % 2
    ensures AttackAnimation(CountAfter(0, k)) == if k % 2 == 0 then ATTACK1 else ATTACK2
  {
    if k > 0 {
      ComboAlternates(attackCount, k - 1);
      ComboAlternates(0, k - 1);
    }
  }

  class MeleeCombatController {
    /** `null` before the first change. */
    var currentAnimationState: Option<string>
    /** The animations cross-faded to, in order. */
    var crossFades: seq<string>
    var attacking: bool
    var readyToAttack: bool
    var attackCount: int
    /** `Invoke(ResetAttack)` and `Invoke(AttackRaycast)` calls not yet run. */
    var pendingResets: nat
    var pendingRaycasts: nat
    /** Sword swing sounds played and hit effects spawned. */
    var swings: nat
    var hitEffects: nat

    constructor ()
      ensures currentAnimationState == None && crossFades == []
      ensures !attacking && readyToAttack && attackCount == 0
      ensures pendingResets == 0 && pendingRaycasts == 0 && swings == 0 && hitEffects == 0
    {
      currentAnimationState := None;
      crossFades := [];
      attacking := false;
      readyToAttack := true;
      attackCount := 0;
      pendingResets := 0;
      pendingRaycasts := 0;
      swings := 0;
      hitEffects := 0;
    }

    /** The attack lock: ready exactly when not attacking, a reset pending
        exactly while attacking, and the combo count 0 or 1. */
    predicate Valid()
      reads this
    {
      && (readyToAttack <==> !attacking)
      && pendingResets == (if attacking then 1 else 0)
      && (attackCount == 0 || attackCount == 1)
    }

    /** `ChangeAnimationState(newState)`: the same state again is ignored. */
    method ChangeAnimationState(newState: string)
      modifies this
      ensures old(currentAnimationState) == Some(newState) ==> unchanged(this)
      ensures old(currentAnimationState) != Some(newState) ==>
        currentAnimationState == Some(newState) && crossFades == old(crossFades) + [newState]
      ensures attacking == old(attacking) && readyToAttack == old(readyToAttack)
      ensures attackCount == old(attackCount) && pendingResets == old(pendingResets)
      ensures pendingRaycasts == old(pendingRaycasts) && swings == old(swings) && hitEffects == old(hitEffects)
    {
      if currentAnimationState == Some(newState) {
        return;
      }
      currentAnimationState := Some(newState);
      crossFades := crossFades + [newState];
    }

    /** `SetAnimations()`: the movement animation, only while not attacking. */
    method SetAnimations(keys: Keys)
      modifies this
      ensures attacking ==> unchanged(this)
      ensures !attacking ==> currentAnimationState == Some(MovementAnimation(keys))
      ensures !attacking && old(currentAnimationState) != Some(MovementAnimation(keys)) ==>
        crossFades == old(crossFades) + [MovementAnimation(keys)]
      ensures !attacking && old(currentAnimationState) == Some(MovementAnimation(keys)) ==> crossFades == old(crossFades)
      ensures attacking == old(attacking) && readyToAttack == old(readyToAttack)
      ensures attackCount == old(attackCount) && pendingResets == old(pendingResets)
      ensures pendingRaycasts == old(pendingRaycasts) && swings == old(swings) && hitEffects == old(hitEffects)
    {
      if !attacking {
        if !keys.shift && !keys.w {
          ChangeAnimationState(IDLE);
        } else if keys.shift && keys.w {
          ChangeAnimationState(RUN);
        } else if keys.w || keys.a || keys.s || keys.d {
          ChangeAnimationState(WALK);
        } else {
          ChangeAnimationState(IDLE);
        }
      }
    }

    /** `Attack()`: refused while an attack is under way; otherwise locks,
        schedules the reset and the raycast, and plays the next combo
        animation. */
    method Attack()
      modifies this
      ensures !(old(readyToAttack) && !old(attacking)) ==> unchanged(this)
      ensures old(readyToAttack) && !old(attacking) ==>
        && !readyToAttack && attacking
        && attackCount == NextCount(old(attackCount))
        && pendingResets == old(pendingResets) + 1 && pendingRaycasts == old(pendingRaycasts) + 1
        && swings == old(swings) + 1 && hitEffects == old(hitEffects)
        && currentAnimationState == Some(AttackAnimation(old(attackCount)))
        && crossFades == old(crossFades) + (if old(currentAnimationState) == Some(AttackAnimation(old(attackCount)))
                                            then [] else [AttackAnimation(old(attackCount))])
      ensures old(Valid()) ==> Valid()
    {
      if !readyToAttack || attacking {
        return;
      }
      readyToAttack := false;
      attacking := true;
      pendingResets := pendingResets + 1;
      pendingRaycasts := pendingRaycasts + 1;
      swings := swings + 1;
      if attackCount == 0 {
        ChangeAnimationState(ATTACK1);
        attackCount := attackCount + 1;
      } else {
        ChangeAnimationState(ATTACK2);
        attackCount := 0;
      }
    }

    /** The scheduled `ResetAttack()` runs: the lock is released. */
    method ResumeResetAttack()
      requires pendingResets > 0
      modifies this
      ensures !attacking && readyToAttack && pendingResets == old(pendingResets) - 1
      ensures attackCount == old(attackCount) && crossFades == old(crossFades)
      ensures currentAnimationState == old(currentAnimationState)
      ensures pendingRaycasts == old(pendingRaycasts) && swings == old(swings) && hitEffects == old(hitEffects)
      ensures old(Valid()) ==> Valid()
    {
      pendingResets := pendingResets - 1;
      attacking := false;
      readyToAttack := true;
    }

    /** The scheduled `AttackRaycast()` runs; `hit` is whether the ray hit
        something on the attack layer, which spawns a hit effect. */
    method ResumeAttackRaycast(hit: bool)
      requires pendingRaycasts > 0
      modifies this
      ensures pendingRaycasts == old(pendingRaycasts) - 1
      ensures hitEffects == old(hitEffects) + if hit then 1 else 0
      ensures attacking == old(attacking) && readyToAttack == old(readyToAttack)
      ensures attackCount == old(attackCount) && pendingResets == old(pendingResets)
      ensures currentAnimationState == old(currentAnimationState) && crossFades == old(crossFades)
      ensures swings == old(swings)
    {
      pendingRaycasts := pendingRaycasts - 1;
      if hit {
        hitEffects := hitEffects + 1;
      }
    }

    /** `Update()`: a click attacks, then the movement animation is set. */
    method Update(mouseDown: bool, keys: Keys)
      modifies this
      ensures old(Valid()) ==> Valid()
      ensures mouseDown && old(readyToAttack) && !old(attacking) ==>
        attacking && attackCount == NextCount(old(attackCount))
        && currentAnimationState == Some(AttackAnimation(old(attackCount)))
      ensures !(mouseDown && old(readyToAttack) && !old(attacking)) ==>
        attacking == old(attacking) && attackCount == old(attackCount)
      ensures !attacking ==> currentAnimationState == Some(MovementAnimation(keys))
    {
      if mouseDown {
        Attack();
      }
      SetAnimations(keys);
    }
  }
}
