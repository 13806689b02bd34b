/** The agreed fee structure of a contract (src/domain/value-objects/FeeStructure.ts). */
module FeeStructures {
  import opened Common
  import opened MoneyValue

  datatype FeeStructure = FeeStructure(
    platformFeeBps: int,
    mediatorFeeBps: Option<int>,
    platformFixedFee: Option<Money>,
    minimumPlatformFee: Option<Money>,
    maximumPlatformFee: Option<Money>)

  datatype FeeBreakdown = FeeBreakdown(
    platformFee: Money, mediatorFee: Option<Money>, totalFees: Money, netAmount: Money)

  /** An absent mediator rate counts as 0. */
  function MediatorBps(props: FeeStructure): int {
    if props.mediatorFeeBps.Some? then props.mediatorFeeBps.value else 0
  }

  predicate ValidateFees(props: FeeStructure) {
    && 0 <= props.platformFeeBps <= 10000
    && (props.mediatorFeeBps.Some? ==> 0 <= props.mediatorFeeBps.value <= 5000)
    && props.platformFeeBps + MediatorBps(props) <= 10000
  }

  function AddFixed(fee: Money, fixed: Option<Money>): Result<Money, MoneyError> {
    if fixed.None? then Ok(fee) else fee.Add(fixed.value)
  }

  function ApplyMinimum(fee: Money, minimum: Option<Money>): Result<Money, MoneyError> {
    if minimum.None? then Ok(fee)
    else
      var below :- fee.LessThan(minimum.value);
      Ok(if below then minimum.value else fee)
  }

  function ApplyMaximum(fee: Money, maximum: Option<Money>): Result<Money, MoneyError> {
    if maximum.None? then Ok(fee)
    else
      var above :- fee.GreaterThan(maximum.value);
      Ok(if above then maximum.value else fee)
  }

  function Clamped(percentage: Money, fixed: Option<Money>, minimum: Option<Money>, maximum: Option<Money>): Result<Money, MoneyError> {
    var withFixed :- AddFixed(percentage, fixed);
    var withMinimum :- ApplyMinimum(withFixed, minimum);
    ApplyMaximum(withMinimum, maximum)
  }

  function PlatformFee(props: FeeStructure, total: Money): Result<Money, MoneyError>
    requires ValidateFees(props)
  {
    Clamped(total.PercentageBps(props.platformFeeBps), props.platformFixedFee, props.minimumPlatformFee,
            props.maximumPlatformFee)
  }

  /** A rate of 0 is falsy in the source, so it yields no mediator fee at all. */
  function MediatorFee(props: FeeStructure, total: Money): Option<Money>
    requires ValidateFees(props)
  {
    if MediatorBps(props) == 0 then None else Some(total.PercentageBps(MediatorBps(props)))
  }

  function CalculateFees(props: FeeStructure, total: Money): Result<FeeBreakdown, MoneyError>
    requires ValidateFees(props)
  {
    var platformFee :- PlatformFee(props, total);
    var mediatorFee := MediatorFee(props, total);
    var totalFees :- AddFixed(platformFee, mediatorFee);
    var netAmount :- total.Subtract(totalFees);
    Ok(FeeBreakdown(platformFee, mediatorFee, totalFees, netAmount))
  }

  function MediatorAmount(b: FeeBreakdown): nat {
    if b.mediatorFee.Some? then b.mediatorFee.value.amount else 0
  }

  /** Whenever a breakdown is returned, what platform, mediator and seller get is the whole total. */
  lemma FeesAddUp(props: FeeStructure, total: Money)
    requires ValidateFees(props)
    requires CalculateFees(props, total).Ok?
    ensures var b := CalculateFees(props, total).value;
      && b.platformFee.amount + MediatorAmount(b) + b.netAmount.amount == total.amount
      && b.totalFees.amount == b.platformFee.amount + MediatorAmount(b)
      && b.platformFee.currency == b.totalFees.currency == b.netAmount.currency == total.currency
  {
  }

  lemma MediatorAmountIsPercentage(props: FeeStructure, total: Money)
    requires ValidateFees(props)
    requires CalculateFees(props, total).Ok?
    ensures MediatorAmount(CalculateFees(props, total).value) == PercentOf(total.amount, MediatorBps(props))
    ensures PlatformFee(props, total).Ok?
    ensures CalculateFees(props, total).value.platformFee == PlatformFee(props, total).value
  {
  }

  /** Clamping never stretches a difference: the platform fee grows no faster than its percentage. */
  lemma PlatformFeeGrowth(props: FeeStructure, small: Money, large: Money)
    requires ValidateFees(props) && small.currency == large.currency && small.amount <= large.amount
    requires PlatformFee(props, small).Ok? && PlatformFee(props, large).Ok?
    ensures PlatformFee(props, small).value.amount <= PlatformFee(props, large).value.amount
    ensures PlatformFee(props, large).value.amount - PlatformFee(props, small).value.amount
      <= PercentOf(large.amount, props.platformFeeBps) - PercentOf(small.amount, props.platformFeeBps)
  {
    PercentageGrowth(small.amount, props.platformFeeBps, large.amount - small.amount);
  }

  /**
   * As the total grows the seller's net amount never falls by more than 1, through fixed fee, minimum
   * and maximum; without a mediator fee it never falls at all.
   */
  lemma NetAlmostMonotone(props: FeeStructure, small: Money, large: Money)
    requires ValidateFees(props) && small.currency == large.currency && small.amount <= large.amount
    requires CalculateFees(props, small).Ok? && CalculateFees(props, large).Ok?
    ensures CalculateFees(props, large).value.netAmount.amount
      >= CalculateFees(props, small).value.netAmount.amount - 1
    ensures MediatorBps(props) == 0 ==>
      CalculateFees(props, large).value.netAmount.amount >= CalculateFees(props, small).value.netAmount.amount
  {
    var d := large.amount - small.amount;
    var p, m := props.platformFeeBps, MediatorBps(props);
    PlatformFeeGrowth(props, small, large);
    TwoPercentagesGrowth(small.amount, p, m, d);
    PercentageGrowsNoFasterThanAmount(small.amount, p, d);
    MediatorAmountIsPercentage(props, small);
    MediatorAmountIsPercentage(props, large);
    FeesAddUp(props, small);
    FeesAddUp(props, large);
  }

  // ---- What is charged ----

  function Rounded(amount: nat, bps: int): int
    requires bps >= 0
  {
    (amount * bps + 5000) / 10000
  }

  function AmountOf(m: Option<Money>, default: int): int {
    if m.Some? then m.value.amount else default
  }

  /** Every amount the structure names is in the currency of the total. */
  predicate SameCurrency(props: FeeStructure, total: Money) {
    && (props.platformFixedFee.Some? ==> props.platformFixedFee.value.currency == total.currency)
    && (props.minimumPlatformFee.Some? ==> props.minimumPlatformFee.value.currency == total.currency)
    && (props.maximumPlatformFee.Some? ==> props.maximumPlatformFee.value.currency == total.currency)
  }

  /** The chain of fixed fee, minimum and maximum, from any percentage on. */
  lemma ClampedExactly(percentage: Money, fixed: Option<Money>, minimum: Option<Money>, maximum: Option<Money>)
    ensures var x := percentage.amount + AmountOf(fixed, 0);
      var lifted := Max(x, AmountOf(minimum, x));
      var fee := Min(lifted, AmountOf(maximum, lifted));
      var agree := (fixed.Some? ==> fixed.value.currency == percentage.currency)
        && (minimum.Some? ==> minimum.value.currency == percentage.currency)
        && (maximum.Some? ==> maximum.value.currency == percentage.currency);
      var r := Clamped(percentage, fixed, minimum, maximum);
      && (r.Ok? <==> agree)
      && (r.Ok? ==> r.value == Money(fee, percentage.currency))
  {
  }

  lemma PlatformFeeExactly(props: FeeStructure, total: Money)
    requires ValidateFees(props)
    ensures var x := Rounded(total.amount, props.platformFeeBps) + AmountOf(props.platformFixedFee, 0);
      var lifted := Max(x, AmountOf(props.minimumPlatformFee, x));
      var fee := Min(lifted, AmountOf(props.maximumPlatformFee, lifted));
      var r := PlatformFee(props, total);
      && (r.Ok? <==> SameCurrency(props, total))
      && (r.Ok? ==> r.value == Money(fee, total.currency))
  {
    ClampedExactly(total.PercentageBps(props.platformFeeBps), props.platformFixedFee, props.minimumPlatformFee,
                   props.maximumPlatformFee);
  }

  lemma MediatorFeeExactly(props: FeeStructure, total: Money)
    requires ValidateFees(props)
    ensures MediatorFee(props, total) ==
      if MediatorBps(props) == 0 then None else Some(Money(Rounded(total.amount, MediatorBps(props)), total.currency))
    ensures MediatorBps(props) == 0 ==> Rounded(total.amount, MediatorBps(props)) == 0
  {
    assert MediatorBps(props) == 0 ==> total.amount * MediatorBps(props) == 0;
  }

  /**
   * The fees in integers. With x the rounded percentage plus the fixed fee, the platform fee is x lifted to the
   * minimum and then cut at the maximum, each where set: at least the minimum unless the maximum is lower, at most
   * the maximum, and x itself between the two. The mediator fee is its rounded percentage. They are defined exactly
   * when all currencies agree and together they do not exceed the total.
   */
  lemma FeesExactly(props: FeeStructure, total: Money)
    requires ValidateFees(props)
    ensures var x := Rounded(total.amount, props.platformFeeBps) + AmountOf(props.platformFixedFee, 0);
      var lifted := Max(x, AmountOf(props.minimumPlatformFee, x));
      var fee := Min(lifted, AmountOf(props.maximumPlatformFee, lifted));
      var mediator := Rounded(total.amount, MediatorBps(props));
      var r := CalculateFees(props, total);
      && (r.Ok? <==> SameCurrency(props, total) && fee + mediator <= total.amount)
      && (r.Ok? ==>
            && r.value.platformFee == Money(fee, total.currency)
            && r.value.mediatorFee == (if MediatorBps(props) == 0 then None else Some(Money(mediator, total.currency)))
            && r.value.totalFees == Money(fee + mediator, total.currency)
            && r.value.netAmount == Money(total.amount - fee - mediator, total.currency))
  {
    PlatformFeeExactly(props, total);
    MediatorFeeExactly(props, total);
  }

  /** The loss of 1 does occur: at 49.99% each, a total of 1 nets 1 and a total of 2 nets 0. */
  lemma NetCanFallByOne()
    ensures var props := FeeStructure(4999, Some(4999), None, None, None);
      && ValidateFees(props)
      && CalculateFees(props, Money(1, IDR)).Ok? && CalculateFees(props, Money(2, IDR)).Ok?
      && CalculateFees(props, Money(1, IDR)).value.netAmount.amount == 1
      && CalculateFees(props, Money(2, IDR)).value.netAmount.amount == 0
  {
  }

  /** Two complementary rates round to the total, or to one more exactly at the half-way remainder. */
  lemma ComplementaryRatesRound(total: nat, p: nat, m: nat)
    requires p + m == 10000
    ensures PercentOf(total, p) + PercentOf(total, m)
      == total + (if (total * p) % 10000 == 5000 then 1 else 0)
  {
    var x := total * p;
    var q, r := x / 10000, x % 10000;
    assert total * m == 10000 * total - x == 10000 * (total - q) - r;
    assert PercentOf(total, p) == q + (r + 5000) / 10000;
    assert PercentOf(total, m) == (10000 * (total - q) - r + 5000) / 10000;
  }

  lemma SmallerRatesRoundWithinTotal(total: nat, p: nat, m: nat)
    requires p + m < 10000
    ensures PercentOf(total, p) + PercentOf(total, m) <= total
  {
    PercentageIsNearest(total, p);
    PercentageIsNearest(total, m);
    assert total * p + total * m == total * (p + m);
    ProductBound(total, p + m, 9999);
  }

  /**
   * Pure percentages: a valid structure without fixed fee, minimum or maximum fails exactly when the two
   * rates sum to 100% and the platform share falls half-way between two units; the fees then exceed the
   * total by exactly 1.
   */
  lemma PurePercentagesFailExactlyAtHalf(props: FeeStructure, total: Money)
    requires ValidateFees(props)
    requires props.platformFixedFee.None? && props.minimumPlatformFee.None? && props.maximumPlatformFee.None?
    ensures CalculateFees(props, total).Err? <==>
      props.platformFeeBps + MediatorBps(props) == 10000 && (total.amount * props.platformFeeBps) % 10000 == 5000
    ensures CalculateFees(props, total).Err? ==>
      PercentOf(total.amount, props.platformFeeBps) + PercentOf(total.amount, MediatorBps(props)) == total.amount + 1
  {
    var p, m := props.platformFeeBps, MediatorBps(props);
    assert PercentOf(total.amount, 0) == 0;
    if p + m == 10000 {
      ComplementaryRatesRound(total.amount, p, m);
    } else {
      SmallerRatesRoundWithinTotal(total.amount, p, m);
    }
  }

  /** Two halves of a total of 1: both round up. */
  lemma TwoHalvesOfOneFail()
    ensures var props := FeeStructure(5000, Some(5000), None, None, None);
      ValidateFees(props) && CalculateFees(props, Money(1, IDR)).Err?
  {
  }

  /** The structure the create use case builds: both clamps set, rates capped at 10% and 5%. */
  predicate UseCaseFees(props: FeeStructure) {
    && ValidateFees(props)
    && props.platformFeeBps <= 1000 && MediatorBps(props) <= 500
    && props.platformFixedFee.None?
    && props.minimumPlatformFee == Some(Money(5000, IDR))
    && props.maximumPlatformFee == Some(Money(500000, IDR))
  }

  /**
   * For the use case's structure the fees of a rupiah total are undefined exactly when the minimum
   * platform fee and the mediator's share together exceed it.
   */
  lemma UseCaseFeesDefinedExactly(props: FeeStructure, total: nat)
    requires UseCaseFees(props)
    ensures CalculateFees(props, Money(total, IDR)).Ok? <==>
      5000 + PercentOf(total, MediatorBps(props)) <= total
  {
    var p, m := props.platformFeeBps, MediatorBps(props);
    assert PercentOf(total, 0) == 0;
    PercentageIsNearest(total, p);
    PercentageIsNearest(total, m);
    ProductBound(total, p, 1000);
    ProductBound(total, m, 500);
  }
}
