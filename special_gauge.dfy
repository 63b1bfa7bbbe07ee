/** SpecialGaugeManager: a gauge that fills up to maxGauge and is emptied
    when the special is used or the round is reset. */
module Gauge {
  import opened Common

  /** currentGauge after IncreaseGauge(amount): capped above at maxGauge and
      not clamped below. */
  function GaugeAfter(g: real, amount: real, maxGauge: real): (r: real)
    ensures r <= maxGauge
    ensures r == maxGauge || r == g + amount
    ensures g + amount <= maxGauge ==> r == g + amount
    ensures amount >= 0.0 && g <= maxGauge ==> g <= r
  {
    Min(g + amount, maxGauge)
  }

  /** The gauge after a series of IncreaseGauge calls. */
  function GaugeAfterAll(g: real, amounts: seq<real>, maxGauge: real): real
    decreases |amounts|
  {
    if amounts == [] then g else GaugeAfterAll(GaugeAfter(g, amounts[0], maxGauge), amounts[1..], maxGauge)
  }

  /** Non-negative increases saturate: the result is the plain total, cut at
      maxGauge, in whatever pieces it arrives. */
  lemma {:induction false} IncreasesSaturate(g: real, amounts: seq<real>, maxGauge: real)
    requires g <= maxGauge && AllNonneg(amounts)
    ensures GaugeAfterAll(g, amounts, maxGauge) == Min(g + Sum(amounts), maxGauge)
    decreases |amounts|
  {
    if amounts != [] {
      assert AllNonneg(amounts[1..]) by {
        forall i | 0 <= i < |amounts[1..]| ensures amounts[1..][i] >= 0.0 {
          assert amounts[1..][i] == amounts[i + 1];
        }
      }
      IncreasesSaturate(GaugeAfter(g, amounts[0], maxGauge), amounts[1..], maxGauge);
      SumNonneg(amounts[1..]);
    }
  }

  /** IncreaseGauge has no lower clamp: an amount that takes the total below
      zero leaves the gauge below zero, at exactly that total. */
  lemma NegativeAmountGoesBelowZero(g: real, amount: real, maxGauge: real)
    requires g + amount < 0.0 <= maxGauge
    ensures GaugeAfter(g, amount, maxGauge) == g + amount < 0.0
  {
  }

  /** Non-positive amounts are never clamped: from a gauge within its maximum,
      any series of them subtracts its whole total, below zero if need be. */
  lemma {:induction false} DecreasesAreUnclamped(g: real, amounts: seq<real>, maxGauge: real)
    requires g <= maxGauge && forall i :: 0 <= i < |amounts| ==> amounts[i] <= 0.0
    ensures GaugeAfterAll(g, amounts, maxGauge) == g + Sum(amounts)
    decreases |amounts|
  {
    if amounts != [] {
      assert amounts[0] <= 0.0;
      assert forall i :: 0 <= i < |amounts[1..]| ==> amounts[1..][i] == amounts[i + 1];
      DecreasesAreUnclamped(g + amounts[0], amounts[1..], maxGauge);
    }
  }

  class SpecialGaugeManager {
    const maxGauge: real
    var currentGauge: real

    constructor (maxValue: real)
      ensures maxGauge == maxValue && currentGauge == 0.0
    {
      maxGauge := maxValue;
      currentGauge := 0.0;
    }

    /** IsFull */
    predicate IsFull()
      reads this
    {
      currentGauge >= maxGauge
    }

    /** IncreaseGauge */
    method IncreaseGauge(amount: real)
      modifies this
      ensures currentGauge == GaugeAfter(old(currentGauge), amount, maxGauge)
      ensures IsFull() <==> old(currentGauge) + amount >= maxGauge
    {
      currentGauge := Min(currentGauge + amount, maxGauge);
    }

    /** ConsumeFullGauge */
    method ConsumeFullGauge()
      modifies this
      ensures currentGauge == 0.0
      ensures IsFull() <==> maxGauge <= 0.0
    {
      currentGauge := 0.0;
    }

    /** ResetGauge */
    method ResetGauge()
      modifies this
      ensures currentGauge == 0.0
      ensures IsFull() <==> maxGauge <= 0.0
    {
      currentGauge := 0.0;
    }
  }
}
