/** Margin-pool arithmetic (sampark/budget/margin.py), integer paise throughout. */
module Margin {

  const BPS := 10_000
  const CUSTOMER_MARGIN_BPS := 500

  function IncentiveCeilingPaise(amountPaise: int, incentiveBps: int): int {
    amountPaise * incentiveBps / BPS
  }

  function CustomerMarginBudgetPaise(openAtRiskPaise: int): int {
    openAtRiskPaise * CUSTOMER_MARGIN_BPS / BPS
  }

  function RemainingPaise(budget: int, reserved: int, spent: int): int {
    budget - reserved - spent
  }

  function Min(a: int, b: int): int {
    if a <= b then a else b
  }

  function Max(a: int, b: int): int {
    if a <= b then b else a
  }

  function DowngradeToFit(requested: int, merchantRemaining: int, customerRemaining: int): int {
    Max(Min(Min(requested, merchantRemaining), customerRemaining), 0)
  }

  /** The incentive the allocator offers once only `downgraded` paise fit (sampark/allocator/greedy.py). */
  function EffectiveBps(downgraded: int, amountPaise: int): int {
    if amountPaise != 0 then downgraded * BPS / amountPaise else 0
  }

  lemma FloorBounds(n: int, d: int)
    requires d > 0
    ensures n / d * d <= n < (n / d + 1) * d
    ensures n >= 0 ==> n / d >= 0
  {
  }

  lemma FloorMonotone(a: int, b: int, d: int)
    requires a <= b && d > 0
    ensures a / d <= b / d
  {
    FloorBounds(a, d);
    FloorBounds(b, d);
    if a / d >= b / d + 1 {
      MulMonotone(b / d + 1, a / d, d);
    }
  }

  lemma MulMonotone(a: int, b: int, c: int)
    requires a <= b && c >= 0
    ensures a * c <= b * c
  {
  }

  lemma CeilingMonotone(amount: int, lowBps: int, highBps: int)
    requires amount >= 0 && lowBps <= highBps
    ensures IncentiveCeilingPaise(amount, lowBps) <= IncentiveCeilingPaise(amount, highBps)
  {
    MulMonotone(lowBps, highBps, amount);
    FloorMonotone(amount * lowBps, amount * highBps, BPS);
  }

  /** A downgrade fits both pools, is never negative, and takes the request whole when it fits. */
  lemma DowngradeFits(requested: int, merchantRemaining: int, customerRemaining: int)
    ensures var d := DowngradeToFit(requested, merchantRemaining, customerRemaining);
            && d >= 0
            && (merchantRemaining >= 0 ==> d <= merchantRemaining)
            && (customerRemaining >= 0 ==> d <= customerRemaining)
            && (requested >= 0 ==> d <= requested)
            && (d == requested <==>
                  requested == 0 || (0 < requested <= merchantRemaining && requested <= customerRemaining))
  {
  }

  /**
   * After a downgrade to `d` paise the offered rate never exceeds the requested one, the ceiling it
   * stands for is at most `d`, and rounding the rate down loses less than amount/10000 + 1 paise.
   */
  lemma EffectiveBpsIsSound(amount: int, requestedBps: int, d: int)
    requires amount > 0 && requestedBps >= 0
    requires 0 <= d <= IncentiveCeilingPaise(amount, requestedBps)
    ensures var e := EffectiveBps(d, amount);
            && 0 <= e <= requestedBps
            && 0 <= IncentiveCeilingPaise(amount, e) <= d
            && BPS * (d - IncentiveCeilingPaise(amount, e)) < amount + BPS
  {
    var e := EffectiveBps(d, amount);
    FloorBounds(d * BPS, amount);
    FloorBounds(amount * requestedBps, BPS);
    assert e * amount <= d * BPS <= amount * requestedBps;
    if e > requestedBps {
      MulMonotone(requestedBps + 1, e, amount);
      assert false;
    }
    FloorBounds(amount * e, BPS);
    assert amount * e == e * amount;
    assert IncentiveCeilingPaise(amount, e) * BPS <= d * BPS;
    assert d * BPS < (e + 1) * amount == amount * e + amount;
  }

  /**
   * What the simulated world later books for a recovered item, and the ceiling the issuer reserves
   * when the preview left room for `d` paise: the spend is at most the reservation, and the
   * reservation is the offered rate's own ceiling.
   */
  lemma SpendWithinReservation(amount: int, bps: int, merchantRemaining: int, customerRemaining: int, recovered: bool)
    requires amount > 0 && bps >= 0
    requires IncentiveCeilingPaise(amount, bps) <= merchantRemaining
    requires IncentiveCeilingPaise(amount, bps) <= customerRemaining
    ensures var reserved := DowngradeToFit(IncentiveCeilingPaise(amount, bps), merchantRemaining, customerRemaining);
            var amountRecovered := if recovered then amount else 0;
            var spend := if recovered then amountRecovered * bps / BPS else 0;
            && reserved == IncentiveCeilingPaise(amount, bps)
            && 0 <= spend <= reserved
  {
    FloorBounds(amount * bps, BPS);
    assert amount * bps >= 0;
  }
}
