/**
 * Charge arithmetic of a robot: the constants of Charger.java and Robot.java
 * and the effect of one charge or discharge tick on a charge level.
 */
module Charger {

  /** Full charge, in percent. */
  const FullCharge := 100
  /** Charge of a newly built robot. */
  const InitialCharge := 50
  /** Percent added by one charge tick. */
  const ChargeAmount := 10
  /** Percent removed by one discharge tick. */
  const OneStepDischarge := 10

  /** The charge levels a robot can be at: a multiple of ten within [0, 100]. */
  predicate IsChargeLevel(charge: int)
  {
    0 <= charge <= FullCharge && charge % 10 == 0
  }

  lemma InitialChargeIsChargeLevel()
    ensures IsChargeLevel(InitialCharge)
  {
  }

  function Min(a: int, b: int): int { if a <= b then a else b }

  function Max(a: int, b: int): int { if a <= b then b else a }

  /**
   * The charge after one charge tick: it grows by one step only while the
   * robot is active, holds both charger parts and is not yet full.
   */
  function Charged(charge: int, gathered: bool): (r: int)
    ensures IsChargeLevel(charge) ==> IsChargeLevel(r)
    ensures r == charge || r == charge + ChargeAmount
    ensures r != charge ==> charge != 0 && gathered && charge != FullCharge
    ensures charge != 0 && gathered && charge != FullCharge ==> r == charge + ChargeAmount
  {
    if charge != 0 && gathered && charge != FullCharge then charge + ChargeAmount else charge
  }

  /** The charge after one discharge tick: it shrinks by one step only while the robot is active. */
  function Discharged(charge: int): (r: int)
    ensures IsChargeLevel(charge) ==> IsChargeLevel(r)
    ensures r == charge <==> charge == 0
    ensures charge != 0 ==> r == charge - OneStepDischarge
  {
    if charge != 0 then charge - OneStepDischarge else charge
  }

  /** The charge after `n` charge ticks with both parts held throughout. */
  function ChargedTimes(charge: int, n: nat): int
    decreases n
  {
    if n == 0 then charge else ChargedTimes(Charged(charge, true), n - 1)
  }

  /** The charge after `n` discharge ticks. */
  function DischargedTimes(charge: int, n: nat): int
    decreases n
  {
    if n == 0 then charge else DischargedTimes(Discharged(charge), n - 1)
  }

  /** One more charge tick after `n` ticks is one more tick of ChargedTimes. */
  lemma {:induction false} ChargedTimesStep(charge: int, n: nat)
    ensures ChargedTimes(charge, n + 1) == Charged(ChargedTimes(charge, n), true)
    decreases n
  {
    if n > 0 {
      ChargedTimesStep(Charged(charge, true), n - 1);
    }
  }

  /** One more discharge tick after `n` ticks is one more tick of DischargedTimes. */
  lemma {:induction false} DischargedTimesStep(charge: int, n: nat)
    ensures DischargedTimes(charge, n + 1) == Discharged(DischargedTimes(charge, n))
    decreases n
  {
    if n > 0 {
      DischargedTimesStep(Discharged(charge), n - 1);
    }
  }

  /** Charging an active robot saturates at full charge. */
  lemma {:induction false} ChargedTimesSaturates(charge: int, n: nat)
    requires IsChargeLevel(charge) && charge != 0
    ensures ChargedTimes(charge, n) == Min(charge + n * ChargeAmount, FullCharge)
    decreases n
  {
    if n > 0 {
      ChargedTimesSaturates(Charged(charge, true), n - 1);
    }
  }

  /** Discharging stops at zero and never goes below it. */
  lemma {:induction false} DischargedTimesStopsAtZero(charge: int, n: nat)
    requires IsChargeLevel(charge)
    ensures DischargedTimes(charge, n) == Max(charge - n * OneStepDischarge, 0)
    decreases n
  {
    if n > 0 {
      DischargedTimesStopsAtZero(Discharged(charge), n - 1);
    }
  }

  /** Every charge level reached by ticks from a charge level is a charge level. */
  lemma {:induction false} TicksKeepChargeLevel(charge: int, n: nat)
    requires IsChargeLevel(charge)
    ensures IsChargeLevel(ChargedTimes(charge, n)) && IsChargeLevel(DischargedTimes(charge, n))
    decreases n
  {
    if n > 0 {
      TicksKeepChargeLevel(Charged(charge, true), n - 1);
      TicksKeepChargeLevel(Discharged(charge), n - 1);
    }
  }
}
