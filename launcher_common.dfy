/** What the two projectile launchers share: the arrow wallet they spend
    from, the per-frame charge step and the speed multiplier a
    shot gets from its charge. Floats are modelled as reals. */
module Launching {
  import opened Common

  /** One frame of charging: `increment` (that is, `chargeSpeed *
      deltaTime`) more, clamped to `[0, maxChargeValue]`. */
  function ChargeStep(charge: real, increment: real, maxChargeValue: real): (r: real)
    requires 0.0 <= maxChargeValue
    ensures 0.0 <= r <= maxChargeValue
    ensures 0.0 <= charge && 0.0 <= increment ==> charge <= r || r == maxChargeValue
    ensures 0.0 <= charge + increment <= maxChargeValue ==> r == charge + increment
  {
    ClampReal(charge + increment, 0.0, maxChargeValue)
  }

  /** Charging from `charge` for `frames` frames that each add `increment`. */
  function ChargeAfter(charge: real, increment: real, maxChargeValue: real, frames: nat): real
    requires 0.0 <= maxChargeValue
  {
    if frames == 0 then charge
    else ChargeStep(ChargeAfter(charge, increment, maxChargeValue, frames - 1), increment, maxChargeValue)
  }

  /** Charging from 0 at a steady frame rate adds the same increment per
      frame until it reaches the maximum, and then stays there. */
  lemma ChargeAfterFrames(increment: real, maxChargeValue: real, frames: nat)
    requires 0.0 <= maxChargeValue && 0.0 <= increment
    ensures ChargeAfter(0.0, increment, maxChargeValue, frames)
         == if increment * frames as real <= maxChargeValue then increment * frames as real else maxChargeValue
  {
    ChargeAfterTotal(increment, maxChargeValue, frames);
    TotalIsProduct(increment, frames);
  }

  /** `frames` increments added up. */
  function Total(increment: real, frames: nat): real
  {
    if frames == 0 then 0.0 else Total(increment, frames - 1) + increment
  }

  lemma {:induction false} TotalIsProduct(increment: real, frames: nat)
    ensures Total(increment, frames) == increment * frames as real
  {
    if frames > 0 {
      TotalIsProduct(increment, frames - 1);
      assert increment * frames as real == increment * (frames - 1) as real + increment;
    }
  }

  /** Charging from 0 is the running total of the increments, capped. */
  lemma {:induction false} ChargeAfterTotal(increment: real, maxChargeValue: real, frames: nat)
    requires 0.0 <= maxChargeValue && 0.0 <= increment
    ensures 0.0 <= Total(increment, frames)
    ensures ChargeAfter(0.0, increment, maxChargeValue, frames)
         == if Total(increment, frames) <= maxChargeValue then Total(increment, frames) else maxChargeValue
  {
    if frames > 0 {
      ChargeAfterTotal(increment, maxChargeValue, frames - 1);
      ChargeStepFromCapped(ChargeAfter(0.0, increment, maxChargeValue, frames - 1),
                           Total(increment, frames - 1), increment, maxChargeValue);
    }
  }

  /** One step from the capped value of a running total `total`. */
  lemma ChargeStepFromCapped(prev: real, total: real, increment: real, maxChargeValue: real)
    requires 0.0 <= maxChargeValue && 0.0 <= increment && 0.0 <= total
    requires prev == if total <= maxChargeValue then total else maxChargeValue
    ensures ChargeStep(prev, increment, maxChargeValue)
         == if total + increment <= maxChargeValue then total + increment else maxChargeValue
  {
  }

  /** The speed multiplier of a shot fired with `charge`:
      `1 + charge / maxChargeValue * 2`. */
  function SpeedMultiplier(charge: real, maxChargeValue: real): (m: real)
    requires maxChargeValue != 0.0
    ensures 0.0 < maxChargeValue && 0.0 <= charge <= maxChargeValue ==> 1.0 <= m <= 3.0
    ensures charge == 0.0 ==> m == 1.0
    ensures charge == maxChargeValue ==> m == 3.0
  {
    1.0 + (charge / maxChargeValue * 2.0)
  }

  /** A stronger charge gives a faster shot. */
  lemma SpeedMultiplierMonotone(c1: real, c2: real, maxChargeValue: real)
    requires 0.0 < maxChargeValue && c1 <= c2
    ensures SpeedMultiplier(c1, maxChargeValue) <= SpeedMultiplier(c2, maxChargeValue)
  {
    assert c1 / maxChargeValue <= c2 / maxChargeValue;
  }

  /** `ArrowWallet`: the networked arrow count. */
  class ArrowWallet {
    var totalArrows: int

    constructor (totalArrows: int)
      requires InInt32(totalArrows)
      ensures this.totalArrows == totalArrows
    {
      this.totalArrows := totalArrows;
    }

    /** `SpendCoins(costToFire)`: an unchecked C# `int` subtraction. */
    method SpendCoins(costToFire: int)
      requires InInt32(totalArrows) && InInt32(costToFire)
      modifies this
      ensures totalArrows == Wrap32(old(totalArrows) - costToFire)
      ensures InInt32(old(totalArrows) - costToFire) ==> totalArrows == old(totalArrows) - costToFire
    {
      totalArrows := Wrap32(totalArrows - costToFire);
    }
  }
}
