/** When a prorated upgrade quote is taken at its word, and when the change is deferred instead. */
module Proration {
  import opened Basics

  datatype Timing = Immediate | PeriodEnd

  datatype Policy = ProratedDelta | FullPeriod

  /** A remote estimate, in minor currency units. `cleanShape` stands for the checks on the shape of
      the estimated invoice, its currency and its billing period. */
  datatype Estimate = Estimate(due: int, source: int, target: int, credit: int, balanceCredit: int, tax: int,
                               discount: int, cleanShape: bool)

  /** The two prorations stand in the ratio of the two catalog prices, up to rounding. */
  predicate InProportion(source: int, target: int, sourcePrice: int, targetPrice: int) {
    Abs(source * targetPrice - target * sourcePrice) <= Max(sourcePrice, targetPrice)
  }

  predicate SafeDelta(e: Estimate, sourcePrice: int, targetPrice: int) {
    && e.cleanShape && e.due > 0
    && 0 < e.source <= sourcePrice && e.source < e.target <= targetPrice
    && e.due == e.target - e.source
    && e.balanceCredit == 0 && e.tax == 0 && e.discount == 0
    && InProportion(e.source, e.target, sourcePrice, targetPrice)
  }

  predicate SafeFull(e: Estimate, targetPrice: int) {
    e.cleanShape && e.due == targetPrice && e.credit == 0 && e.balanceCredit == 0 && e.tax == 0 && e.discount == 0
  }

  /** An immediate change whose estimate is not safe is deferred to the period end. */
  function Decide(policy: Policy, e: Estimate, sourcePrice: int, targetPrice: int): Timing {
    if (if policy == ProratedDelta then SafeDelta(e, sourcePrice, targetPrice) else SafeFull(e, targetPrice))
    then Immediate else PeriodEnd
  }

  /** `amount` is within half a minor unit of the fraction `part / whole` of `price`. */
  predicate RoundsTo(amount: int, price: int, part: int, whole: int) {
    2 * Abs(amount * whole - price * part) <= whole
  }

  /** Every pair of amounts rounded from one common fraction of the two prices passes. */
  lemma RoundedPairsPass(source: int, target: int, sourcePrice: int, targetPrice: int, part: int, whole: int)
    requires 0 < sourcePrice && 0 < targetPrice && 0 < whole
    requires RoundsTo(source, sourcePrice, part, whole) && RoundsTo(target, targetPrice, part, whole)
    ensures InProportion(source, target, sourcePrice, targetPrice)
  {
    var d := source * targetPrice - target * sourcePrice;
    var m := Max(sourcePrice, targetPrice);
    CrossBound(source, target, sourcePrice, targetPrice, part, whole, m);
    Cancel(d, m, whole);
    Cancel(-d, m, whole);
  }

  lemma CrossBound(source: int, target: int, sourcePrice: int, targetPrice: int, part: int, whole: int, m: int)
    requires 0 < sourcePrice <= m && 0 < targetPrice <= m && 0 < whole
    requires RoundsTo(source, sourcePrice, part, whole) && RoundsTo(target, targetPrice, part, whole)
    ensures (source * targetPrice - target * sourcePrice) * whole <= m * whole
    ensures -(source * targetPrice - target * sourcePrice) * whole <= m * whole
  {
    var x := source * whole - sourcePrice * part;
    var y := target * whole - targetPrice * part;
    var d := source * targetPrice - target * sourcePrice;
    CrossError(source, target, sourcePrice, targetPrice, part, whole);
    Scaled(targetPrice, x, whole, m);
    Scaled(sourcePrice, y, whole, m);
    Combine(d * whole, targetPrice * x, sourcePrice * y, m * whole);
    Negate(d, whole);
  }

  lemma Combine(d: int, x: int, y: int, m: int)
    requires d == x - y && -m <= 2 * x <= m && -m <= 2 * y <= m
    ensures -m <= d <= m
  {}

  lemma Negate(d: int, w: int)
    ensures -d * w == -(d * w)
  {}

  lemma MulAssoc(a: int, b: int, c: int)
    ensures a * (b * c) == (a * b) * c
  {}

  /** The cross product of the two amounts is the difference of their scaled rounding errors. */
  lemma CrossError(source: int, target: int, sourcePrice: int, targetPrice: int, part: int, whole: int)
    ensures (source * targetPrice - target * sourcePrice) * whole
         == targetPrice * (source * whole - sourcePrice * part) - sourcePrice * (target * whole - targetPrice * part)
  {
    MulAssoc(targetPrice, source, whole);
    MulAssoc(sourcePrice, target, whole);
    MulAssoc(targetPrice, sourcePrice, part);
    MulAssoc(sourcePrice, targetPrice, part);
    Distribute(targetPrice, source * whole, sourcePrice * part);
    Distribute(sourcePrice, target * whole, targetPrice * part);
  }

  lemma Distribute(a: int, b: int, c: int)
    ensures a * (b - c) == a * b - a * c
  {}

  lemma Scaled(price: int, x: int, whole: int, m: int)
    requires 0 < price <= m && 2 * Abs(x) <= whole
    ensures -(m * whole) <= 2 * (price * x) <= m * whole
  {
    MulMonotone(2 * x, whole, price);
    MulMonotone(-(2 * x), whole, price);
    MulMonotone(price, m, whole);
  }

  lemma Cancel(d: int, m: int, whole: int)
    requires 0 < whole && d * whole <= m * whole
    ensures d <= m
  {
    if m < d { MulMonotone(m + 1, d, whole); }
  }

  /** What an accepted prorated quote guarantees: new money for the difference of the two prorations and nothing
      else, at most the target price, and a charge within one rounding of the source proration's share of the
      price difference. */
  lemma AcceptedQuoteIsProportional(e: Estimate, sourcePrice: int, targetPrice: int)
    requires Decide(ProratedDelta, e, sourcePrice, targetPrice) == Immediate
    ensures 0 < e.due < targetPrice && e.due == e.target - e.source && e.source <= sourcePrice && e.cleanShape
    ensures e.balanceCredit == 0 && e.tax == 0 && e.discount == 0
    ensures Abs(e.due * sourcePrice - e.source * (targetPrice - sourcePrice)) <= Max(sourcePrice, targetPrice)
  {
    assert e.due * sourcePrice - e.source * (targetPrice - sourcePrice)
      == e.target * sourcePrice - e.source * targetPrice;
  }

  /** A quote rounded from a positive fraction of an upgrade's prices, with nothing else on it, goes
      through unless the rounded amounts coincide or vanish. */
  lemma HonestQuoteIsAccepted(e: Estimate, sourcePrice: int, targetPrice: int, part: int, whole: int)
    requires 0 < sourcePrice < targetPrice && 0 < part <= whole
    requires RoundsTo(e.source, sourcePrice, part, whole) && RoundsTo(e.target, targetPrice, part, whole)
    requires e.cleanShape && e.due == e.target - e.source && e.balanceCredit == 0 && e.tax == 0 && e.discount == 0
    ensures Decide(ProratedDelta, e, sourcePrice, targetPrice) == Immediate <==> 0 < e.source < e.target
  {
    RoundedPairsPass(e.source, e.target, sourcePrice, targetPrice, part, whole);
    AtMostPrice(e.source, sourcePrice, part, whole);
    AtMostPrice(e.target, targetPrice, part, whole);
  }

  /** Under the full-period policy exactly a clean quote of the whole target price goes through, whatever the old
      price and the prorations. */
  lemma FullQuoteIsThePrice(e: Estimate, sourcePrice: int, targetPrice: int)
    ensures Decide(FullPeriod, e, sourcePrice, targetPrice) == Immediate
       <==> e == Estimate(targetPrice, e.source, e.target, 0, 0, 0, 0, true)
  {}

  lemma AtMostPrice(amount: int, price: int, part: int, whole: int)
    requires 0 < price && 0 < part <= whole && RoundsTo(amount, price, part, whole)
    ensures amount <= price
  {
    MulMonotone(part, whole, price);
    Commute(part, price);
    Commute(whole, price);
    Distribute(whole, price, -1);
    Commute(whole, price + 1);
    Commute(amount, whole);
    CancelStrict(amount, price + 1, whole);
  }

  lemma Commute(a: int, b: int)
    ensures a * b == b * a
  {}

  lemma CancelStrict(a: int, b: int, w: int)
    requires 0 < w && a * w < b * w
    ensures a < b
  {
    if b <= a { MulMonotone(b, a, w); }
  }
}
