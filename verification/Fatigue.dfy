/**
 * The fatigue cost of a contact (sampark/policy/soft/fatigue.py) with its frozen constants, and when
 * another open item raises it.
 *
 * DECAY ** m for a whole number of open items k is DECAY ** k times DECAY ** FUTURE_COUNT; the
 * latter, an irrational number of which 0.5110607 are the first digits, is a parameter.
 */
module Fatigue {
  const DECAY := 0.8479767239071947
  const P_BASE_MEAN := 0.28556889883981273
  const MEAN_AMOUNT_PAISE := 387607.0
  const FUTURE_COUNT := 4.0707

  datatype Forward = Forward(pBaseMean: real, decay: real, decayFuture: real, futureCount: real, meanAmountPaise: real)

  function Shipped(decayFuture: real): Forward {
    Forward(P_BASE_MEAN, DECAY, decayFuture, FUTURE_COUNT, MEAN_AMOUNT_PAISE)
  }

  /** DECAY ** FUTURE_COUNT, to three places. */
  predicate ShippedDecay(decayFuture: real) {
    0.5105 <= decayFuture <= 0.5115
  }

  function Pow(base: real, n: nat): real {
    if n == 0 then 1.0 else Pow(base, n - 1) * base
  }

  function Total(amounts: seq<int>): int {
    if amounts == [] then 0 else amounts[0] + Total(amounts[1..])
  }

  lemma {:induction false} TotalAdds(a: seq<int>, b: seq<int>, amount: int)
    ensures Total([amount]) == amount && Total(a + b) == Total(a) + Total(b)
  {
    assert [amount][1..] == [];
    if a == [] {
      assert a + b == b;
    } else {
      assert (a + b)[1..] == a[1..] + b;
      TotalAdds(a[1..], b, amount);
    }
  }

  /** What the customer's expected future contacts are worth. */
  function ForwardValue(f: Forward, total: int): real {
    total as real + f.futureCount * f.meanAmountPaise
  }

  function Horizon(f: Forward, count: nat): real {
    count as real + f.futureCount
  }

  /** 1 - DECAY ** m. */
  function Lost(f: Forward, count: nat): real {
    1.0 - Pow(f.decay, count) * f.decayFuture
  }

  /** The share of the forward value, averaged over the horizon, that the contact costs. */
  function Share(scale: real, lost: real, value: real, horizon: real): real
    requires horizon > 0.0
  {
    scale * lost * (value / horizon)
  }

  /** How likely a contact of index n is to recover anything. */
  function Scale(f: Forward, n: nat): real {
    f.pBaseMean * Pow(f.decay, n)
  }

  function CostOf(f: Forward, n: nat, count: nat, total: int): real {
    if Horizon(f, count) <= 0.0 then 0.0
    else Share(Scale(f, n), Lost(f, count), ForwardValue(f, total), Horizon(f, count))
  }

  function FatigueCost(f: Forward, n: nat, otherOpen: seq<int>): real {
    CostOf(f, n, |otherOpen|, Total(otherOpen))
  }

  predicate Proper(f: Forward) {
    f.pBaseMean > 0.0 && 0.0 < f.decay < 1.0 && f.futureCount > 0.0
  }

  lemma {:induction false} PowPositive(base: real, n: nat)
    requires base > 0.0
    ensures Pow(base, n) > 0.0
  {
    if n > 0 {
      PowPositive(base, n - 1);
    }
  }

  /** What is lost of `value` over `horizon` is at most what is lost of `value'` over `horizon'`. */
  predicate NoMore(lost: real, value: real, horizon: real, lost': real, value': real, horizon': real) {
    lost * value * horizon' <= lost' * value' * horizon
  }

  lemma CompareShares(scale: real, a: real, v: real, m: real, b: real, u: real, l: real)
    requires scale > 0.0 && m > 0.0 && l > 0.0
    ensures Share(scale, a, v, m) <= Share(scale, b, u, l) <==> NoMore(a, v, m, b, u, l)
  {
    assert scale * a * (v / m) == scale * (a * v / m) && scale * b * (u / l) == scale * (b * u / l);
    assert a * v / m <= b * u / l <==> a * v * l <= b * u * m by {
      var x, y := a * v / m, b * u / l;
      assert x * m == a * v && y * l == b * u;
      assert a * v * l == x * (m * l) && b * u * m == y * (m * l);
      assert x <= y <==> x * (m * l) <= y * (m * l) by {
        assert m * l > 0.0;
      }
    }
  }

  lemma CostIsShare(f: Forward, n: nat, open: seq<int>)
    requires Proper(f)
    ensures Horizon(f, |open|) > 0.0 && Scale(f, n) > 0.0
    ensures FatigueCost(f, n, open)
            == Share(Scale(f, n), Lost(f, |open|), ForwardValue(f, Total(open)), Horizon(f, |open|))
  {
    assert Scale(f, n) > 0.0 by {
      PowPositive(f.decay, n);
    }
    hide Scale, Share, Lost, ForwardValue, Pow, Total;
  }

  lemma OneMoreMeans(f: Forward, fewer: seq<int>, more: seq<int>, amount: int)
    requires |more| == |fewer| + 1 && Total(more) == Total(fewer) + amount
    ensures Horizon(f, |more|) == Horizon(f, |fewer|) + 1.0
    ensures ForwardValue(f, Total(more)) == ForwardValue(f, Total(fewer)) + amount as real
  {
  }

  lemma CostsCompared(f: Forward, n: nat, fewer: seq<int>, more: seq<int>, amount: int)
    requires Proper(f) && |more| == |fewer| + 1 && Total(more) == Total(fewer) + amount
    ensures FatigueCost(f, n, fewer) <= FatigueCost(f, n, more)
            <==> NoMore(Lost(f, |fewer|), ForwardValue(f, Total(fewer)), Horizon(f, |fewer|),
                        Lost(f, |fewer| + 1), ForwardValue(f, Total(fewer)) + amount as real, Horizon(f, |fewer|) + 1.0)
  {
    hide *;
    CostIsShare(f, n, fewer);
    CostIsShare(f, n, more);
    OneMoreMeans(f, fewer, more, amount);
    CompareShares(Scale(f, n), Lost(f, |fewer|), ForwardValue(f, Total(fewer)), Horizon(f, |fewer|),
                  Lost(f, |more|), ForwardValue(f, Total(more)), Horizon(f, |more|));
  }

  /** What makes up for the longer horizon, if the share lost rises from `lost` to `lost'`. */
  function Threshold(value: real, horizon: real, lost: real, lost': real): real
    requires horizon > 0.0 && lost' > 0.0
  {
    assert lost' * horizon > 0.0;
    value * (lost * (horizon + 1.0) / (lost' * horizon) - 1.0)
  }

  /** The least amount at which one more open item does not lower the cost. */
  function LeastAmount(f: Forward, count: nat, total: int): real
    requires Horizon(f, count) > 0.0 && Lost(f, count + 1) > 0.0
  {
    Threshold(ForwardValue(f, total), Horizon(f, count), Lost(f, count), Lost(f, count + 1))
  }

  lemma {:induction false} SomethingIsLost(f: Forward, count: nat)
    requires Proper(f) && 0.0 < f.decayFuture < 1.0
    ensures Lost(f, count) > 0.0
  {
    PowAtMostOne(f.decay, count);
    assert Pow(f.decay, count) * f.decayFuture <= f.decayFuture;
  }

  lemma {:induction false} PowAtMostOne(base: real, n: nat)
    requires 0.0 < base < 1.0
    ensures 0.0 < Pow(base, n) <= 1.0
  {
    if n > 0 {
      PowAtMostOne(base, n - 1);
    }
  }

  lemma SolvedForAmount(a: real, v: real, h: real, b: real, x: real)
    requires b > 0.0 && h > 0.0
    ensures NoMore(a, v, h, b, v + x, h + 1.0) <==> x >= Threshold(v, h, a, b)
  {
    var d := b * h;
    assert d > 0.0;
    var q := a * (h + 1.0) / d;
    assert q * d == a * (h + 1.0);
    assert a * v * (h + 1.0) == v * (q * d) == v * q * d;
    assert b * (v + x) * h == (v + x) * d;
    assert v * q * d <= (v + x) * d <==> v * q <= v + x;
    assert v * (q - 1.0) == v * q - v;
  }

  /**
   * Exactly when another open item does not lower the cost: its amount must make up for how it
   * lengthens the horizon the forward value is averaged over.
   */
  lemma OneMoreOpenItem(f: Forward, n: nat, fewer: seq<int>, more: seq<int>, amount: int)
    requires Proper(f) && 0.0 < f.decayFuture < 1.0
    requires |more| == |fewer| + 1 && Total(more) == Total(fewer) + amount
    ensures Horizon(f, |fewer|) > 0.0 && Lost(f, |fewer| + 1) > 0.0
    ensures FatigueCost(f, n, fewer) <= FatigueCost(f, n, more)
            <==> amount as real >= LeastAmount(f, |fewer|, Total(fewer))
  {
    SomethingIsLost(f, |fewer| + 1);
    CostsCompared(f, n, fewer, more, amount);
    hide Lost, NoMore, ForwardValue, FatigueCost, Threshold;
    SolvedForAmount(Lost(f, |fewer|), ForwardValue(f, Total(fewer)), Horizon(f, |fewer|), Lost(f, |fewer| + 1),
                    amount as real);
  }

  /** With the frozen constants an open item of 100 rupees makes a first contact cheaper. */
  lemma SmallItemLowersTheCost(decayFuture: real)
    requires ShippedDecay(decayFuture)
    ensures FatigueCost(Shipped(decayFuture), 0, [10_000]) < FatigueCost(Shipped(decayFuture), 0, [])
  {
    assert Pow(DECAY, 0) == 1.0 && Pow(DECAY, 1) == DECAY;
    assert Total([10_000]) == 10_000;
    OneMoreOpenItem(Shipped(decayFuture), 0, [], [10_000], 10_000);
  }
}
