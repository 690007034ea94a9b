/** The player's first `ProjectileLauncher` (the one directly under
    `Player`): the same charge-and-release firing as the bow, but the rate of
    fire is limited by a cooldown timer of `1 / fireRate` seconds instead of
    a bow reset. */
module PlayerLaunchers {
  import opened Common
  import opened Launching

  class ProjectileLauncher {
    const isOwner: bool
    const fireRate: real
    const muzzleFlashDuration: real
    const costToFire: int
    const chargeSpeed: real
    const maxChargeValue: real
    const minChargeToFire: real
    const wallet: ArrowWallet

    var timer: real
    var muzzleFlashTimer: real
    /** Whether the muzzle flash object is active. */
    var muzzleFlashActive: bool
    var chargeValue: real
    var isCharging: bool
    /** Whether `HandleFire` is subscribed to the fire input. */
    var subscribed: bool
    /** Server projectile requests sent by this instance. */
    var shotsRequested: nat
    /** Speed multipliers of the local (dummy) projectiles spawned. */
    var dummyShots: seq<real>
    /** Speed multipliers of the server projectiles this instance spawned. */
    var serverShots: seq<real>
    /** Frame time the owner has seen since its last shot. */
    ghost var sinceShot: real

    /** The cooldown between two shots. */
    function Cooldown(): real
      reads this
      requires fireRate != 0.0
    {
      1.0 / fireRate
    }

    /** The serialized defaults are a charge speed of 5, a maximum charge of
        10 and a minimum of 0.5 to fire. */
    constructor (isOwner: bool, fireRate: real, muzzleFlashDuration: real, costToFire: int,
                 chargeSpeed: real, maxChargeValue: real, minChargeToFire: real, wallet: ArrowWallet)
      requires 0.0 < fireRate && 0.0 < maxChargeValue && InInt32(costToFire)
      ensures this.isOwner == isOwner && this.fireRate == fireRate
      ensures this.muzzleFlashDuration == muzzleFlashDuration && this.costToFire == costToFire
      ensures this.chargeSpeed == chargeSpeed && this.maxChargeValue == maxChargeValue
      ensures this.minChargeToFire == minChargeToFire && this.wallet == wallet
      ensures timer == 0.0 && muzzleFlashTimer == 0.0 && !muzzleFlashActive
      ensures chargeValue == 0.0 && !isCharging && !subscribed
      ensures shotsRequested == 0 && dummyShots == [] && serverShots == []
      ensures Valid()
    {
      this.isOwner := isOwner;
      this.fireRate := fireRate;
      this.muzzleFlashDuration := muzzleFlashDuration;
      this.costToFire := costToFire;
      this.chargeSpeed := chargeSpeed;
      this.maxChargeValue := maxChargeValue;
      this.minChargeToFire := minChargeToFire;
      this.wallet := wallet;
      timer := 0.0;
      muzzleFlashTimer := 0.0;
      muzzleFlashActive := false;
      chargeValue := 0.0;
      isCharging := false;
      subscribed := false;
      shotsRequested := 0;
      dummyShots := [];
      serverShots := [];
      sinceShot := 0.0;
    }

    /** The charge stays in `[0, maxChargeValue]`, an instance that does not
        own the player never subscribes nor gains charge, and after a shot the
        cooldown still to run plus the time seen since covers a whole
        cooldown. */
    ghost predicate Valid()
      reads this
    {
      && 0.0 < fireRate && 0.0 < maxChargeValue && InInt32(costToFire)
      && 0.0 <= chargeValue <= maxChargeValue
      && (!isOwner ==> !subscribed && chargeValue == 0.0)
      && 0.0 <= sinceShot
      && (shotsRequested > 0 ==> timer + sinceShot >= Cooldown())
    }

    /** `OnNetworkSpawn()`: the owner subscribes to the fire input. */
    method OnNetworkSpawn()
      modifies this
      ensures subscribed == (isOwner || old(subscribed))
      ensures timer == old(timer) && chargeValue == old(chargeValue) && isCharging == old(isCharging)
      ensures muzzleFlashTimer == old(muzzleFlashTimer) && muzzleFlashActive == old(muzzleFlashActive)
      ensures shotsRequested == old(shotsRequested) && dummyShots == old(dummyShots) && serverShots == old(serverShots)
      ensures sinceShot == old(sinceShot)
      ensures old(Valid()) ==> Valid()
    {
      if !isOwner {
        return;
      }
      subscribed := true;
    }

    /** `OnNetworkDespawn()`: the owner unsubscribes. */
    method OnNetworkDespawn()
      modifies this
      ensures subscribed == (!isOwner && old(subscribed))
      ensures timer == old(timer) && chargeValue == old(chargeValue) && isCharging == old(isCharging)
      ensures muzzleFlashTimer == old(muzzleFlashTimer) && muzzleFlashActive == old(muzzleFlashActive)
      ensures shotsRequested == old(shotsRequested) && dummyShots == old(dummyShots) && serverShots == old(serverShots)
      ensures sinceShot == old(sinceShot)
      ensures old(Valid()) ==> Valid()
    {
      if !isOwner {
        return;
      }
      subscribed := false;
    }

    /** The input raises `PrimaryFireEvent`; it reaches `HandleFire` only
        when subscribed. `hasBowInHand` is `handItems.GetHasBowInHand()`. */
    method OnPrimaryFire(isPressed: bool, hasBowInHand: bool)
      requires 0.0 < maxChargeValue && 0.0 < fireRate
      modifies this
      ensures !old(subscribed) ==> unchanged(this)
      ensures old(Valid()) ==> Valid()
    {
      if subscribed {
        HandleFire(isPressed, hasBowInHand);
      }
    }

    /** `HandleFire(isPressed)`: ignored without the bow in hand; a press
        starts charging, a release stops it. */
    method HandleFire(isPressed: bool, hasBowInHand: bool)
      requires 0.0 < maxChargeValue && 0.0 < fireRate
      modifies this
      ensures !hasBowInHand ==> unchanged(this)
      ensures hasBowInHand && isPressed ==>
        isCharging && chargeValue == old(chargeValue) && timer == old(timer)
        && shotsRequested == old(shotsRequested)
      ensures hasBowInHand && !isPressed ==> !isCharging
      ensures hasBowInHand && !isPressed && old(isCharging) ==>
        chargeValue == 0.0 && shotsRequested == old(shotsRequested) + (if Fires(old(chargeValue), old(timer)) then 1 else 0)
      ensures old(Valid()) ==> Valid()
    {
      if !hasBowInHand {
        return;
      }
      if isPressed {
        StartCharging();
      } else {
        StopCharging();
      }
    }

    /** `StartCharging()`. */
    method StartCharging()
      modifies this
      ensures isCharging
      ensures timer == old(timer) && chargeValue == old(chargeValue) && subscribed == old(subscribed)
      ensures muzzleFlashTimer == old(muzzleFlashTimer) && muzzleFlashActive == old(muzzleFlashActive)
      ensures shotsRequested == old(shotsRequested) && dummyShots == old(dummyShots) && serverShots == old(serverShots)
      ensures sinceShot == old(sinceShot)
    {
      isCharging := true;
    }

    /** A release fires when the charge is enough, the cooldown is over and
        the wallet (as this client sees it) holds the cost. */
    predicate Fires(charge: real, cooldownLeft: real)
      reads this, wallet
    {
      charge >= minChargeToFire && cooldownLeft <= 0.0 && wallet.totalArrows >= costToFire
    }

    /** `StopCharging()`: only while charging. A shot requests the server
        projectile, spawns the local one and restarts the cooldown; every
        release empties the charge. A shot after an earlier one comes at
        least a whole cooldown of frame time later. */
    method StopCharging()
      requires 0.0 < maxChargeValue && 0.0 < fireRate
      modifies this
      ensures !old(isCharging) ==> unchanged(this)
      ensures old(isCharging) ==>
        && !isCharging && chargeValue == 0.0
        && (Fires(old(chargeValue), old(timer)) ==>
              && timer == Cooldown() && shotsRequested == old(shotsRequested) + 1
              && dummyShots == old(dummyShots) + [SpeedMultiplier(old(chargeValue), maxChargeValue)]
              && muzzleFlashActive && muzzleFlashTimer == muzzleFlashDuration && sinceShot == 0.0)
        && (!Fires(old(chargeValue), old(timer)) ==>
              && timer == old(timer) && shotsRequested == old(shotsRequested) && dummyShots == old(dummyShots)
              && muzzleFlashActive == old(muzzleFlashActive) && muzzleFlashTimer == old(muzzleFlashTimer)
              && sinceShot == old(sinceShot))
      ensures old(Valid()) && old(isCharging) && Fires(old(chargeValue), old(timer)) && old(shotsRequested) > 0 ==>
        old(sinceShot) >= Cooldown()
      ensures subscribed == old(subscribed) && serverShots == old(serverShots)
      ensures old(Valid()) ==> Valid()
    {
      if !isCharging {
        return;
      }
      isCharging := false;
      if chargeValue >= minChargeToFire && timer <= 0.0 {
        if wallet.totalArrows >= costToFire {
          shotsRequested := shotsRequested + 1;
          SpawnDummyProjectile();
          timer := 1.0 / fireRate;
          sinceShot := 0.0;
        }
      }
      chargeValue := 0.0;
    }

    /** `SpawnDummyProjectile`: the muzzle flash and the local projectile,
        with this instance's charge deciding its speed. */
    method SpawnDummyProjectile()
      requires maxChargeValue != 0.0
      modifies this
      ensures muzzleFlashActive && muzzleFlashTimer == muzzleFlashDuration
      ensures dummyShots == old(dummyShots) + [SpeedMultiplier(chargeValue, maxChargeValue)]
      ensures timer == old(timer) && chargeValue == old(chargeValue) && isCharging == old(isCharging)
      ensures subscribed == old(subscribed) && shotsRequested == old(shotsRequested) && serverShots == old(serverShots)
      ensures sinceShot == old(sinceShot)
    {
      muzzleFlashActive := true;
      muzzleFlashTimer := muzzleFlashDuration;
      dummyShots := dummyShots + [SpeedMultiplier(chargeValue, maxChargeValue)];
    }

    /** `Update()` with this frame's `Time.deltaTime`: the muzzle flash runs
        down and is hidden when it runs out; on the owner the cooldown runs
        down while positive and a charging launcher gains charge. */
    method Update(deltaTime: real)
      modifies this
      ensures old(muzzleFlashTimer) > 0.0 ==>
        muzzleFlashTimer == old(muzzleFlashTimer) - deltaTime
        && muzzleFlashActive == (muzzleFlashTimer > 0.0 && old(muzzleFlashActive))
      ensures old(muzzleFlashTimer) <= 0.0 ==>
        muzzleFlashTimer == old(muzzleFlashTimer) && muzzleFlashActive == old(muzzleFlashActive)
      ensures !isOwner ==> timer == old(timer) && chargeValue == old(chargeValue)
      ensures isOwner ==> timer == if old(timer) > 0.0 then old(timer) - deltaTime else old(timer)
      ensures isOwner && isCharging && 0.0 <= maxChargeValue ==>
        chargeValue == ChargeStep(old(chargeValue), chargeSpeed * deltaTime, maxChargeValue)
      ensures !isCharging ==> chargeValue == old(chargeValue)
      ensures isCharging == old(isCharging) && subscribed == old(subscribed)
      ensures shotsRequested == old(shotsRequested) && dummyShots == old(dummyShots) && serverShots == old(serverShots)
      ensures old(Valid()) && 0.0 <= deltaTime ==> Valid()
    {
      if muzzleFlashTimer > 0.0 {
        muzzleFlashTimer := muzzleFlashTimer - deltaTime;
        if muzzleFlashTimer <= 0.0 {
          muzzleFlashActive := false;
        }
      }
      if !isOwner {
        return;
      }
      sinceShot := sinceShot + deltaTime;
      if timer > 0.0 {
        timer := timer - deltaTime;
      }
      if isCharging {
        chargeValue := ClampReal(chargeValue + chargeSpeed * deltaTime, 0.0, maxChargeValue);
      }
    }

    /** `SpawnServerProjectileServerRpc`, run on the server's instance: with
        too few arrows nothing happens; otherwise exactly the cost is spent
        and a projectile is spawned whose speed multiplier comes from the
        server instance's own charge, which on an instance that does not own
        the player is always 0, giving a multiplier of 1. */
    method SpawnServerProjectileServerRpc()
      requires InInt32(wallet.totalArrows) && InInt32(costToFire) && maxChargeValue != 0.0
      modifies wallet, this
      ensures old(wallet.totalArrows) < costToFire ==> unchanged(wallet) && serverShots == old(serverShots)
      ensures old(wallet.totalArrows) >= costToFire ==>
        wallet.totalArrows == Wrap32(old(wallet.totalArrows) - costToFire)
        && serverShots == old(serverShots) + [SpeedMultiplier(chargeValue, maxChargeValue)]
      ensures old(wallet.totalArrows) >= costToFire && 0 <= costToFire ==>
        wallet.totalArrows == old(wallet.totalArrows) - costToFire
      ensures Valid() && !isOwner && old(wallet.totalArrows) >= costToFire ==> serverShots[|serverShots| - 1] == 1.0
      ensures timer == old(timer) && chargeValue == old(chargeValue) && isCharging == old(isCharging)
      ensures muzzleFlashTimer == old(muzzleFlashTimer) && muzzleFlashActive == old(muzzleFlashActive)
      ensures subscribed == old(subscribed) && shotsRequested == old(shotsRequested) && dummyShots == old(dummyShots)
      ensures sinceShot == old(sinceShot)
    {
      if wallet.totalArrows < costToFire {
        return;
      }
      wallet.SpendCoins(costToFire);
      serverShots := serverShots + [SpeedMultiplier(chargeValue, maxChargeValue)];
    }

    /** `SpawnServerProjectileClientRpc`: every other client spawns the local
        projectile; the owner already has. */
    method SpawnServerProjectileClientRpc()
      requires maxChargeValue != 0.0
      modifies this
      ensures isOwner ==> unchanged(this)
      ensures !isOwner ==>
        dummyShots == old(dummyShots) + [SpeedMultiplier(chargeValue, maxChargeValue)]
        && muzzleFlashActive && muzzleFlashTimer == muzzleFlashDuration
      ensures timer == old(timer) && chargeValue == old(chargeValue) && isCharging == old(isCharging)
      ensures shotsRequested == old(shotsRequested)
      ensures old(Valid()) ==> Valid()
    {
      if isOwner {
        return;
      }
      SpawnDummyProjectile();
    }
  }
}
