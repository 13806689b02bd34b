/**
 * Money in the smallest unit (src/domain/value-objects/Money.ts).
 * Percentages are taken as exact rationals and rounded half up.
 */
module MoneyValue {
  import opened Common

  datatype Currency = IDR | USD

  datatype MoneyError = CurrencyMismatch | NegativeResult

  /** Rounds amount * bps / 10000 half up, as Math.round does on the exact product. */
  function PercentOf(amount: nat, bps: nat): nat {
    (amount * bps + 5000) / 10000
  }

  datatype Money = Money(amount: nat, currency: Currency) {
    function Add(other: Money): Result<Money, MoneyError> {
      if currency != other.currency then Err(CurrencyMismatch)
      else Ok(Money(amount + other.amount, currency))
    }

    function Subtract(other: Money): Result<Money, MoneyError> {
      if currency != other.currency then Err(CurrencyMismatch)
      else if amount < other.amount then Err(NegativeResult)
      else Ok(Money(amount - other.amount, currency))
    }

    function PercentageBps(bps: nat): Money {
      Money(PercentOf(amount, bps), currency)
    }

    function LessThan(other: Money): Result<bool, MoneyError> {
      if currency != other.currency then Err(CurrencyMismatch) else Ok(amount < other.amount)
    }

    function GreaterThan(other: Money): Result<bool, MoneyError> {
      if currency != other.currency then Err(CurrencyMismatch) else Ok(amount > other.amount)
    }
  }

  /** Subtraction undoes addition, and succeeds exactly when nothing negative would remain. */
  lemma SubtractInvertsAdd(a: Money, b: Money)
    ensures a.Add(b).Ok? <==> a.currency == b.currency
    ensures a.Add(b).Ok? ==> a.Add(b).value.Subtract(b) == Ok(a)
    ensures a.Subtract(b).Ok? <==> a.currency == b.currency && b.amount <= a.amount
    ensures a.Subtract(b).Ok? ==> a.Subtract(b).value.Add(b) == Ok(a)
  {
  }

  /** A rounded percentage is within half a unit of the exact one, and half rounds up. */
  lemma PercentageIsNearest(amount: nat, bps: nat)
    ensures -5000 < 10000 * PercentOf(amount, bps) - amount * bps <= 5000
  {
    var scaled := amount * bps + 5000;
    assert scaled == 10000 * (scaled / 10000) + scaled % 10000;
  }

  /** When the amount grows by d, its percentage grows by at least 0 and by less than d*bps/10000 + 1. */
  lemma PercentageGrowth(amount: nat, bps: nat, d: nat)
    ensures PercentOf(amount, bps) <= PercentOf(amount + d, bps)
    ensures 10000 * (PercentOf(amount + d, bps) - PercentOf(amount, bps)) < d * bps + 10000
  {
    PercentageIsNearest(amount, bps);
    PercentageIsNearest(amount + d, bps);
    assert (amount + d) * bps == amount * bps + d * bps;
    assert d * bps >= 0;
  }

  /** A percentage of at most 100% grows no faster than the amount. */
  lemma PercentageGrowsNoFasterThanAmount(amount: nat, bps: nat, d: nat)
    requires bps <= 10000
    ensures PercentOf(amount + d, bps) - PercentOf(amount, bps) <= d
  {
    PercentageGrowth(amount, bps, d);
    ProductBound(d, bps, 10000);
  }

  /** Two percentages that sum to at most 100% grow together by at most one unit more than the amount. */
  lemma TwoPercentagesGrowth(amount: nat, p: nat, m: nat, d: nat)
    requires p + m <= 10000
    ensures PercentOf(amount + d, p) - PercentOf(amount, p) + PercentOf(amount + d, m) - PercentOf(amount, m) <= d + 1
  {
    PercentageGrowth(amount, p, d);
    PercentageGrowth(amount, m, d);
    assert d * p + d * m == d * (p + m);
    ProductBound(d, p + m, 10000);
  }

  lemma ProductBound(d: nat, a: nat, b: nat)
    requires a <= b
    ensures d * a <= d * b
  {
    assert d * b == d * a + d * (b - a);
  }
}
