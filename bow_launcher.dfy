/** The bow's `ProjectileLauncher` (the one under `Player/Arrow`): holding
    fire charges the bow, releasing it fires when charged enough, ready and
    stocked, and every release starts a short reset of the bow during which
    it can neither charge nor fire. A press during the reset is remembered and
    charging resumes when the reset ends. The bow's scale animation is not
    modelled; its reset timer is. */
module BowLaunchers {
  import opened Common
  import opened Launching

  class ProjectileLauncher {
    const isOwner: bool
    /** Whether `bowTransform` is assigned. */
    const hasBowTransform: bool
    const chargeSpeed: real
    const maxChargeValue: real
    const minChargeToFire: real
    const bowResetDuration: real
    const costToFire: int
    const muzzleFlashDuration: real
    const wallet: ArrowWallet

    var canFire: bool
    var chargeValue: real
    var isCharging: bool
    var bowResetTimer: real
    var isResetting: bool
    var isFireButtonHeldDuringReset: bool
    var muzzleFlashTimer: real
    /** Whether `HandleFire` is subscribed to the fire input. */
    var subscribed: bool
    /** Server projectile requests sent by this instance. */
    var shotsRequested: nat
    /** Speed multipliers of the local (dummy) projectiles spawned. */
    var dummyShots: seq<real>
    /** Speed multipliers of the server projectiles this instance spawned. */
    var serverShots: seq<real>

    /** The serialized defaults are a charge speed of 5, a maximum charge of
        10, a minimum of 0.5 to fire and a reset of 0.3 seconds. */
    constructor (isOwner: bool, hasBowTransform: bool, chargeSpeed: real, maxChargeValue: real,
                 minChargeToFire: real, bowResetDuration: real, costToFire: int,
                 muzzleFlashDuration: real, wallet: ArrowWallet)
      requires 0.0 < maxChargeValue && InInt32(costToFire)
      ensures this.isOwner == isOwner && this.hasBowTransform == hasBowTransform
      ensures this.chargeSpeed == chargeSpeed && this.maxChargeValue == maxChargeValue
      ensures this.minChargeToFire == minChargeToFire && this.bowResetDuration == bowResetDuration
      ensures this.costToFire == costToFire && this.muzzleFlashDuration == muzzleFlashDuration
      ensures this.wallet == wallet
      ensures canFire && chargeValue == 0.0 && !isCharging && bowResetTimer == 0.0 && !isResetting
      ensures !isFireButtonHeldDuringReset && muzzleFlashTimer == 0.0 && !subscribed
      ensures shotsRequested == 0 && dummyShots == [] && serverShots == []
      ensures Valid()
    {
      this.isOwner := isOwner;
      this.hasBowTransform := hasBowTransform;
      this.chargeSpeed := chargeSpeed;
      this.maxChargeValue := maxChargeValue;
      this.minChargeToFire := minChargeToFire;
      this.bowResetDuration := bowResetDuration;
      this.costToFire := costToFire;
      this.muzzleFlashDuration := muzzleFlashDuration;
      this.wallet := wallet;
      canFire := true;
      chargeValue := 0.0;
      isCharging := false;
      bowResetTimer := 0.0;
      isResetting := false;
      isFireButtonHeldDuringReset := false;
      muzzleFlashTimer := 0.0;
      subscribed := false;
      shotsRequested := 0;
      dummyShots := [];
      serverShots := [];
    }

    /** The charge stays in `[0, maxChargeValue]`; a reset only runs with a
        bow to animate; with a bow, firing is disabled only during a reset;
        a press is remembered only during a reset; the bow never charges
        while resetting; and an instance that does not own the player never
        charges at all. */
    predicate Valid()
      reads this
    {
      && 0.0 < maxChargeValue && InInt32(costToFire)
      && 0.0 <= chargeValue <= maxChargeValue
      && (isResetting ==> hasBowTransform)
      && (hasBowTransform && !canFire ==> isResetting)
      && (isFireButtonHeldDuringReset ==> isResetting)
      && !(isCharging && isResetting)
      && (!isOwner ==> !subscribed && chargeValue == 0.0)
    }

    /** Without a bow transform the bow is jammed after its first shot: no
        reset ever starts, so firing is never enabled again. */
    predicate Jammed()
      reads this
    {
      !hasBowTransform && !canFire
    }

    /** `OnNetworkSpawn()`: the owner subscribes to the fire input. */
    method OnNetworkSpawn()
      modifies this
      ensures subscribed == (isOwner || old(subscribed))
      ensures canFire == old(canFire) && chargeValue == old(chargeValue) && isCharging == old(isCharging)
      ensures isResetting == old(isResetting) && isFireButtonHeldDuringReset == old(isFireButtonHeldDuringReset)
      ensures bowResetTimer == old(bowResetTimer) && muzzleFlashTimer == old(muzzleFlashTimer)
      ensures shotsRequested == old(shotsRequested) && dummyShots == old(dummyShots) && serverShots == old(serverShots)
      ensures old(Valid()) ==> Valid()
    {
      if !isOwner {
        return;
      }
      subscribed := true;
    }

    /** `OnNetworkDespawn()`: the owner unsubscribes. */
    method OnNetworkDespawn()
      modifies this
      ensures subscribed == (!isOwner && old(subscribed))
      ensures canFire == old(canFire) && chargeValue == old(chargeValue) && isCharging == old(isCharging)
      ensures isResetting == old(isResetting) && isFireButtonHeldDuringReset == old(isFireButtonHeldDuringReset)
      ensures bowResetTimer == old(bowResetTimer) && muzzleFlashTimer == old(muzzleFlashTimer)
      ensures shotsRequested == old(shotsRequested) && dummyShots == old(dummyShots) && serverShots == old(serverShots)
      ensures old(Valid()) ==> Valid()
    {
      if !isOwner {
        return;
      }
      subscribed := false;
    }

    /** The input raises `PrimaryFireEvent`; it reaches `HandleFire` only
        when subscribed. `hasBowInHand` is `handItems.GetHasBowInHand()`. */
    method OnPrimaryFire(isPressed: bool, hasBowInHand: bool)
      requires InInt32(wallet.totalArrows) && 0.0 < maxChargeValue
      modifies this
      ensures !old(subscribed) ==> unchanged(this)
      ensures old(Valid()) ==> Valid()
      ensures old(Jammed()) ==> Jammed() && shotsRequested == old(shotsRequested)
    {
      if subscribed {
        HandleFire(isPressed, hasBowInHand);
      }
    }

    /** `HandleFire(isPressed)`: ignored without the bow in hand; a press
        during a reset is remembered, a release forgets it. */
    method HandleFire(isPressed: bool, hasBowInHand: bool)
      requires InInt32(wallet.totalArrows) && 0.0 < maxChargeValue
      modifies this
      ensures !hasBowInHand ==> unchanged(this)
      ensures hasBowInHand && isPressed ==>
        && isFireButtonHeldDuringReset == (old(isFireButtonHeldDuringReset) || old(isResetting))
        && isCharging == (old(isCharging) || !old(isResetting))
        && chargeValue == old(chargeValue) && canFire == old(canFire) && isResetting == old(isResetting)
        && shotsRequested == old(shotsRequested)
      ensures hasBowInHand && !isPressed ==> !isFireButtonHeldDuringReset && !isCharging
      ensures hasBowInHand && !isPressed && !old(isCharging) ==>
        chargeValue == old(chargeValue) && canFire == old(canFire) && isResetting == old(isResetting)
        && shotsRequested == old(shotsRequested)
      ensures hasBowInHand && !isPressed && old(isCharging) ==>
        chargeValue == 0.0 && shotsRequested == old(shotsRequested) + (if Fires(old(chargeValue), old(canFire)) then 1 else 0)
      ensures old(Valid()) ==> Valid()
      ensures old(Jammed()) ==> Jammed() && shotsRequested == old(shotsRequested)
    {
      if !hasBowInHand {
        return;
      }
      if isPressed {
        if isResetting {
          isFireButtonHeldDuringReset := true;
        }
        StartCharging();
      } else {
        isFireButtonHeldDuringReset := false;
        StopCharging();
      }
    }

    /** `StartCharging()`: refused during a reset. */
    method StartCharging()
      modifies this
      ensures isCharging == (old(isCharging) || !old(isResetting))
      ensures canFire == old(canFire) && chargeValue == old(chargeValue) && isResetting == old(isResetting)
      ensures isFireButtonHeldDuringReset == old(isFireButtonHeldDuringReset) && subscribed == old(subscribed)
      ensures bowResetTimer == old(bowResetTimer) && muzzleFlashTimer == old(muzzleFlashTimer)
      ensures shotsRequested == old(shotsRequested) && dummyShots == old(dummyShots) && serverShots == old(serverShots)
    {
      if isResetting {
        return;
      }
      isCharging := true;
    }

    /** A release fires when the charge is enough, the bow is ready and the
        wallet (as this client sees it) holds the cost. */
    predicate Fires(charge: real, ready: bool)
      reads this, wallet
    {
      charge >= minChargeToFire && ready && wallet.totalArrows >= costToFire
    }

    /** `StopCharging()`: only while charging. A shot requests the server
        projectile, spawns the local one and disables firing; every release
        empties the charge and starts the bow's reset. */
    method StopCharging()
      requires InInt32(wallet.totalArrows) && 0.0 < maxChargeValue
      modifies this
      ensures !old(isCharging) ==> unchanged(this)
      ensures old(isCharging) ==>
        && !isCharging && chargeValue == 0.0
        && (Fires(old(chargeValue), old(canFire)) ==>
              && !canFire && shotsRequested == old(shotsRequested) + 1
              && dummyShots == old(dummyShots) + [SpeedMultiplier(old(chargeValue), maxChargeValue)]
              && muzzleFlashTimer == muzzleFlashDuration)
        && (!Fires(old(chargeValue), old(canFire)) ==>
              && canFire == old(canFire) && shotsRequested == old(shotsRequested)
              && dummyShots == old(dummyShots) && muzzleFlashTimer == old(muzzleFlashTimer))
        && (hasBowTransform ==> isResetting && bowResetTimer == 0.0)
        && (!hasBowTransform ==> isResetting == old(isResetting) && bowResetTimer == old(bowResetTimer))
      ensures isFireButtonHeldDuringReset == old(isFireButtonHeldDuringReset) && subscribed == old(subscribed)
      ensures serverShots == old(serverShots)
      ensures old(Valid()) && !old(isFireButtonHeldDuringReset) ==> Valid()
      ensures old(Jammed()) ==> Jammed() && shotsRequested == old(shotsRequested)
    {
      if !isCharging {
        return;
      }
      isCharging := false;
      if chargeValue >= minChargeToFire && canFire {
        if wallet.totalArrows >= costToFire {
          shotsRequested := shotsRequested + 1;
          SpawnDummyProjectile();
          canFire := false;
        }
      }
      chargeValue := 0.0;
      ResetBowScale();
    }

    /** `SpawnDummyProjectile`: the local projectile, with this instance's
        charge deciding its speed, and the muzzle flash. */
    method SpawnDummyProjectile()
      requires maxChargeValue != 0.0
      modifies this
      ensures dummyShots == old(dummyShots) + [SpeedMultiplier(chargeValue, maxChargeValue)]
      ensures muzzleFlashTimer == muzzleFlashDuration
      ensures canFire == old(canFire) && chargeValue == old(chargeValue) && isCharging == old(isCharging)
      ensures isResetting == old(isResetting) && isFireButtonHeldDuringReset == old(isFireButtonHeldDuringReset)
      ensures bowResetTimer == old(bowResetTimer) && subscribed == old(subscribed)
      ensures shotsRequested == old(shotsRequested) && serverShots == old(serverShots)
    {
      muzzleFlashTimer := muzzleFlashDuration;
      dummyShots := dummyShots + [SpeedMultiplier(chargeValue, maxChargeValue)];
    }

    /** `ResetBowScale()`: with a bow, restart the reset timer. */
    method ResetBowScale()
      modifies this
      ensures hasBowTransform ==> isResetting && bowResetTimer == 0.0
      ensures !hasBowTransform ==> isResetting == old(isResetting) && bowResetTimer == old(bowResetTimer)
      ensures canFire == old(canFire) && chargeValue == old(chargeValue) && isCharging == old(isCharging)
      ensures isFireButtonHeldDuringReset == old(isFireButtonHeldDuringReset) && muzzleFlashTimer == old(muzzleFlashTimer)
      ensures subscribed == old(subscribed) && shotsRequested == old(shotsRequested)
      ensures dummyShots == old(dummyShots) && serverShots == old(serverShots)
    {
      if !hasBowTransform {
        return;
      }
      bowResetTimer := 0.0;
      isResetting := true;
    }

    /** `Update()` with this frame's `Time.deltaTime`: the muzzle flash runs
        down; on the owner, the reset advances and, once it is over, firing
        is enabled again and a held button resumes charging; then a charging
        bow gains charge. */
    method Update(deltaTime: real)
      modifies this
      ensures old(muzzleFlashTimer) > 0.0 ==> muzzleFlashTimer == old(muzzleFlashTimer) - deltaTime
      ensures old(muzzleFlashTimer) <= 0.0 ==> muzzleFlashTimer == old(muzzleFlashTimer)
      ensures !isOwner ==>
        && canFire == old(canFire) && chargeValue == old(chargeValue) && isCharging == old(isCharging)
        && isResetting == old(isResetting) && bowResetTimer == old(bowResetTimer)
      ensures isOwner && old(isResetting) ==> bowResetTimer == old(bowResetTimer) + deltaTime
      ensures isOwner && old(isResetting) && bowResetTimer >= bowResetDuration ==>
        !isResetting && canFire && !isFireButtonHeldDuringReset
        && isCharging == (old(isCharging) || old(isFireButtonHeldDuringReset))
      ensures isOwner && old(isResetting) && bowResetTimer < bowResetDuration ==>
        isResetting && canFire == old(canFire) && isCharging == old(isCharging)
        && isFireButtonHeldDuringReset == old(isFireButtonHeldDuringReset)
      ensures isOwner && !old(isResetting) ==>
        isResetting == old(isResetting) && bowResetTimer == old(bowResetTimer) && canFire == old(canFire)
        && isCharging == old(isCharging) && isFireButtonHeldDuringReset == old(isFireButtonHeldDuringReset)
      ensures isOwner && isCharging && 0.0 <= maxChargeValue ==>
        chargeValue == ChargeStep(old(chargeValue), chargeSpeed * deltaTime, maxChargeValue)
      ensures !isCharging ==> chargeValue == old(chargeValue)
      ensures subscribed == old(subscribed) && shotsRequested == old(shotsRequested)
      ensures dummyShots == old(dummyShots) && serverShots == old(serverShots)
      ensures old(Valid()) ==> Valid()
      ensures old(Valid() && Jammed()) ==> Jammed()
    {
      if muzzleFlashTimer > 0.0 {
        muzzleFlashTimer := muzzleFlashTimer - deltaTime;
      }
      if !isOwner {
        return;
      }
      if isResetting {
        bowResetTimer := bowResetTimer + deltaTime;
        if bowResetTimer >= bowResetDuration {
          isResetting := false;
          canFire := true;
          if isFireButtonHeldDuringReset {
            isCharging := true;
            isFireButtonHeldDuringReset := false;
          }
        }
      }
      if isCharging {
        chargeValue := ClampReal(chargeValue + chargeSpeed * deltaTime, 0.0, maxChargeValue);
      }
    }

    /** `SpawnServerProjectileServerRpc`, run on the server's instance: with
        too few arrows nothing happens; otherwise exactly the cost is spent
        and a projectile is spawned whose speed multiplier comes from the
        server instance's own charge. On an instance that does not own the
        player that charge is always 0, so the multiplier is 1. */
    method SpawnServerProjectileServerRpc()
      requires InInt32(wallet.totalArrows) && InInt32(costToFire) && maxChargeValue != 0.0
      modifies wallet, this
      ensures old(wallet.totalArrows) < costToFire ==> unchanged(wallet) && serverShots == old(serverShots)
      ensures old(wallet.totalArrows) >= costToFire ==>
        wallet.totalArrows == Wrap32(old(wallet.totalArrows) - costToFire)
        && serverShots == old(serverShots) + [SpeedMultiplier(chargeValue, maxChargeValue)]
      ensures old(wallet.totalArrows) >= costToFire && 0 <= costToFire ==>
        wallet.totalArrows == old(wallet.totalArrows) - costToFire
      ensures Valid() && !isOwner && old(wallet.totalArrows) >= costToFire ==> serverShots[|serverShots| - 1] == 1.0
      ensures canFire == old(canFire) && chargeValue == old(chargeValue) && isCharging == old(isCharging)
      ensures isResetting == old(isResetting) && isFireButtonHeldDuringReset == old(isFireButtonHeldDuringReset)
      ensures bowResetTimer == old(bowResetTimer) && muzzleFlashTimer == old(muzzleFlashTimer)
      ensures subscribed == old(subscribed) && shotsRequested == old(shotsRequested) && dummyShots == old(dummyShots)
    {
      if wallet.totalArrows < costToFire {
        return;
      }
      wallet.SpendCoins(costToFire);
      serverShots := serverShots + [SpeedMultiplier(chargeValue, maxChargeValue)];
    }

    /** `SpawnServerProjectileClientRpc`: every other client spawns the local
        projectile; the owner already has. */
    method SpawnServerProjectileClientRpc()
      requires maxChargeValue != 0.0
      modifies this
      ensures isOwner ==> unchanged(this)
      ensures !isOwner ==>
        dummyShots == old(dummyShots) + [SpeedMultiplier(chargeValue, maxChargeValue)]
        && muzzleFlashTimer == muzzleFlashDuration
      ensures canFire == old(canFire) && chargeValue == old(chargeValue) && isCharging == old(isCharging)
      ensures isResetting == old(isResetting) && shotsRequested == old(shotsRequested)
      ensures old(Valid()) ==> Valid()
    {
      if isOwner {
        return;
      }
      SpawnDummyProjectile();
    }
  }
}
