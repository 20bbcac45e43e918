/** The rows of one account's credit ledger, and sums over them. */
module LedgerTables {

  /** PostgreSQL bigint maximum: no stored atom count exceeds it. */
  const MAX_ATOMS := 0x7fff_ffff_ffff_ffff

  /** An order and the single funding lot it may have share one identity. */
  type OrderId = nat

  /** The primary key of a debit row together with its immutable kind: a product
      operation, or a collection that paid the debt of `order`. A collection has exactly
      one allocation, whose row id is `serial`. */
  datatype Key = Product(name: string) | Collection(order: OrderId, serial: nat)

  datatype Source = Subscription(epoch: nat) | Pack(lot: OrderId)

  datatype Alloc = Alloc(debit: Key, source: Source, amount: int, refunded: int)

  datatype Debit = Debit(amount: int, epoch: nat, restored: int, closed: bool)

  datatype PaymentStatus = Pending | Paid | PartlyRefunded | FullyRefunded | Disputed

  datatype Order = Order(pack: int, price: int, cash: int, refunded: int, status: PaymentStatus)

  datatype LotStatus = Active | Expired | RefundClosed | DisputeClosed

  datatype Lot = Lot(id: nat, original: int, remaining: int, expired: int, clawed: int,
                     expiresAt: int, status: LotStatus)

  datatype Debt = Debt(target: int, collected: int, released: int)

  /** A clawback debt of one subscription invoice within one grant epoch. */
  datatype FundingDebt = FundingDebt(epoch: nat, invoice: string, target: int, collected: int)

  datatype Reason =
    | UsageCharge | UsageRefund | DebtRefund | FundingDebtCollection | PackDebtCollection | SubscriptionGrant
    | UpgradeGrant

  datatype LogRow = LogRow(delta: int, balanceAfter: int, reason: Reason)

  predicate Open(a: Alloc) { a.refunded < a.amount }

  predicate Collects(a: Alloc, o: OrderId) { a.debit.Collection? && a.debit.order == o }

  function Uncollected(d: Debt): int { d.target - d.collected - d.released }

  // ---- sums over allocations ------------------------------------------------------

  /** Which allocations a sum ranges over, and what it adds up. */
  datatype Pick =
    | OnLot(lot: OrderId)                       // not yet refunded, drawn on a lot
    | ForDebt(order: OrderId)                   // not yet refunded, collected for a debt
    | OfDebit(key: Key)                         // everything one debit drew
    | DrawnOnLot(key: Key, lot: OrderId)        // what one debit drew on one lot
    | DrawnOnSubscription(key: Key)             // what one debit drew on the subscription
    | DrawnInEpoch(key: Key, epoch: nat)        // what one debit drew on the subscription in one epoch
    | OpenSince(epoch: nat)                     // not yet refunded, drawn on the subscription since an epoch
    | Stranded(epoch: nat, live: bool)          // not yet refunded, and the subscription would not take it back
    | EverSubscribed                            // all atoms ever drawn on the subscription
    | Everything                                // all atoms ever drawn

  /** In epoch `epoch` the subscription takes atoms of that epoch back, and only while it is `live`. */
  predicate StrandedSource(source: Source, epoch: nat, live: bool) {
    source.Subscription? && !(live && source.epoch == epoch)
  }

  function Weight(a: Alloc, p: Pick): int {
    match p
    case OnLot(o) => if a.source == Pack(o) then a.amount - a.refunded else 0
    case ForDebt(o) => if Collects(a, o) then a.amount - a.refunded else 0
    case OfDebit(k) => if a.debit == k then a.amount else 0
    case DrawnOnLot(k, o) => if a.debit == k && a.source == Pack(o) then a.amount else 0
    case DrawnOnSubscription(k) => if a.debit == k && a.source.Subscription? then a.amount else 0
    case DrawnInEpoch(k, e) => if a.debit == k && a.source == Subscription(e) then a.amount else 0
    case Stranded(e, live) => if StrandedSource(a.source, e, live) then a.amount - a.refunded else 0
    case OpenSince(e) => if a.source.Subscription? && e <= a.source.epoch then a.amount - a.refunded else 0
    case EverSubscribed => if a.source.Subscription? then a.amount else 0
    case Everything => a.amount
  }

  function Sum(s: seq<Alloc>, p: Pick): int {
    if |s| == 0 then 0 else Sum(s[..|s| - 1], p) + Weight(s[|s| - 1], p)
  }

  lemma SumAppend(s: seq<Alloc>, a: Alloc, p: Pick)
    ensures Sum(s + [a], p) == Sum(s, p) + Weight(a, p)
  {
    assert (s + [a])[..|s|] == s;
  }

  lemma {:induction false} SumUpdate(s: seq<Alloc>, i: nat, a: Alloc, p: Pick)
    requires i < |s|
    ensures Sum(s[i := a], p) == Sum(s, p) - Weight(s[i], p) + Weight(a, p)
  {
    var t := s[i := a];
    var n := |s| - 1;
    if i == n {
      assert t[..n] == s[..n];
    } else {
      assert t[..n] == s[..n][i := a];
      SumUpdate(s[..n], i, a, p);
    }
  }

  ghost predicate Bounded(s: seq<Alloc>) {
    forall i :: 0 <= i < |s| ==> 0 <= s[i].refunded <= s[i].amount
  }

  /** Every row drew something and was refunded at most that. */
  ghost predicate Drawable(s: seq<Alloc>) {
    forall i :: 0 <= i < |s| ==> 0 <= s[i].refunded <= s[i].amount && 0 < s[i].amount
  }

  lemma {:induction false} SumAtLeast(s: seq<Alloc>, i: nat, p: Pick)
    requires Bounded(s) && i < |s|
    ensures 0 <= Weight(s[i], p) <= Sum(s, p)
  {
    var n := |s| - 1;
    SumNonNegative(s[..n], p);
    if i < n {
      SumAtLeast(s[..n], i, p);
      assert s[..n][i] == s[i];
    }
  }

  lemma {:induction false} SumNonNegative(s: seq<Alloc>, p: Pick)
    requires Bounded(s)
    ensures 0 <= Sum(s, p)
  {
    if |s| > 0 {
      SumNonNegative(s[..|s| - 1], p);
    }
  }

  /** A sum in which every term vanishes is zero. */
  lemma {:induction false} SumZero(s: seq<Alloc>, p: Pick)
    requires forall i :: 0 <= i < |s| ==> Weight(s[i], p) == 0
    ensures Sum(s, p) == 0
  {
    if |s| > 0 {
      SumZero(s[..|s| - 1], p);
    }
  }

  predicate Subscribing(p: Pick) { p.OpenSince? || p.Stranded? || p.EverSubscribed? }

  /** What a further atom drawn on `source` adds to a sum over draws on subscriptions. */
  function Share(source: Source, p: Pick): int
    requires Subscribing(p)
  {
    match p
    case OpenSince(e) => if source.Subscription? && e <= source.epoch then 1 else 0
    case Stranded(e, live) => if StrandedSource(source, e, live) then 1 else 0
    case EverSubscribed => if source.Subscription? then 1 else 0
  }

  /** `y` is `x` with `n` further atoms drawn on `source`, as far as subscriptions go. */
  ghost predicate DrawnMore(x: seq<Alloc>, y: seq<Alloc>, source: Source, n: int) {
    forall p: Pick :: Subscribing(p) ==> Sum(y, p) == Sum(x, p) + Share(source, p) * n
  }

  lemma NoneDrawn(x: seq<Alloc>, source: Source)
    ensures DrawnMore(x, x, source, 0)
  {}

  lemma DrawnMoreStep(x: seq<Alloc>, y: seq<Alloc>, source: Source, n: int, a: Alloc)
    requires DrawnMore(x, y, source, n) && a.source == source && a.refunded == 0
    ensures DrawnMore(x, y + [a], source, n + a.amount)
  {
    forall p: Pick | Subscribing(p)
      ensures Sum(y + [a], p) == Sum(x, p) + Share(source, p) * (n + a.amount)
    {
      SumAppend(y, a, p);
      assert Sum(y, p) == Sum(x, p) + Share(source, p) * n;
    }
  }

  lemma DrawnMoreElse(x: seq<Alloc>, y: seq<Alloc>, source: Source, n: int, a: Alloc)
    requires DrawnMore(x, y, source, n) && a.source.Pack?
    ensures DrawnMore(x, y + [a], source, n)
  {
    forall p: Pick | Subscribing(p) ensures Sum(y + [a], p) == Sum(x, p) + Share(source, p) * n {
      SumAppend(y, a, p);
      assert Sum(y, p) == Sum(x, p) + Share(source, p) * n;
    }
  }

  lemma LotUnchanged(lots: map<OrderId, Lot>, o: OrderId)
    requires o in lots
    ensures lots[o := lots[o].(remaining := lots[o].remaining - 0)] == lots
  {}

  // ---- sums over lots and debts, in queue order -------------------------------------

  ghost predicate Distinct<T>(q: seq<T>) {
    forall i, j :: 0 <= i < j < |q| ==> q[i] != q[j]
  }

  /** `q` lists every lot once. */
  ghost predicate Listed(q: seq<OrderId>, lots: map<OrderId, Lot>) {
    Distinct(q) && forall o :: o in lots <==> o in q
  }

  function LotSum(q: seq<OrderId>, lots: map<OrderId, Lot>): int {
    if |q| == 0 then 0
    else LotSum(q[..|q| - 1], lots) + (if q[|q| - 1] in lots then lots[q[|q| - 1]].remaining else 0)
  }

  lemma {:induction false} LotSumUpdate(q: seq<OrderId>, lots: map<OrderId, Lot>, o: OrderId, l: Lot)
    requires Distinct(q) && o in lots
    ensures LotSum(q, lots[o := l]) == LotSum(q, lots) + (if o in q then l.remaining - lots[o].remaining else 0)
  {
    if |q| > 0 {
      var n := |q| - 1;
      LotSumUpdate(q[..n], lots, o, l);
      assert q == q[..n] + [q[n]];
    }
  }

  /** All atoms of the lots, live or expired. */
  function HoldSum(q: seq<OrderId>, lots: map<OrderId, Lot>): int {
    if |q| == 0 then 0
    else HoldSum(q[..|q| - 1], lots)
         + (if q[|q| - 1] in lots then lots[q[|q| - 1]].remaining + lots[q[|q| - 1]].expired else 0)
  }

  lemma {:induction false} HoldSumUpdate(q: seq<OrderId>, lots: map<OrderId, Lot>, o: OrderId, l: Lot)
    requires Distinct(q) && o in lots
    ensures HoldSum(q, lots[o := l]) == HoldSum(q, lots)
         + (if o in q then l.remaining + l.expired - lots[o].remaining - lots[o].expired else 0)
  {
    if |q| > 0 {
      var n := |q| - 1;
      HoldSumUpdate(q[..n], lots, o, l);
      assert q == q[..n] + [q[n]];
    }
  }

  /** What the account still owes in pack debt and has not yet paid. */
  function UncollectedSum(q: seq<OrderId>, debts: map<OrderId, Debt>): int {
    if |q| == 0 then 0
    else UncollectedSum(q[..|q| - 1], debts) + (if q[|q| - 1] in debts then Uncollected(debts[q[|q| - 1]]) else 0)
  }

  /** Debt that has not been forgiven, paid or not: the measure of refund recursion. */
  function ActiveSum(q: seq<OrderId>, debts: map<OrderId, Debt>): int {
    if |q| == 0 then 0
    else ActiveSum(q[..|q| - 1], debts)
         + (if q[|q| - 1] in debts then debts[q[|q| - 1]].target - debts[q[|q| - 1]].released else 0)
  }

  lemma {:induction false} UncollectedSumUpdate(q: seq<OrderId>, debts: map<OrderId, Debt>, o: OrderId, d: Debt)
    requires Distinct(q) && o in debts
    ensures UncollectedSum(q, debts[o := d])
         == UncollectedSum(q, debts) + (if o in q then Uncollected(d) - Uncollected(debts[o]) else 0)
  {
    if |q| > 0 {
      var n := |q| - 1;
      UncollectedSumUpdate(q[..n], debts, o, d);
      assert q == q[..n] + [q[n]];
    }
  }

  lemma {:induction false} UncollectedSumBound(q: seq<OrderId>, debts: map<OrderId, Debt>)
    requires forall o :: o in debts ==> 0 <= Uncollected(debts[o])
    ensures 0 <= UncollectedSum(q, debts)
    ensures forall o :: o in q && o in debts ==> Uncollected(debts[o]) <= UncollectedSum(q, debts)
  {
    if |q| > 0 {
      var n := |q| - 1;
      UncollectedSumBound(q[..n], debts);
      assert q == q[..n] + [q[n]];
    }
  }

  lemma {:induction false} UncollectedSumZero(q: seq<OrderId>, debts: map<OrderId, Debt>)
    requires forall o :: o in q && o in debts ==> Uncollected(debts[o]) == 0
    ensures UncollectedSum(q, debts) == 0
  {
    if |q| > 0 {
      var n := |q| - 1;
      assert q == q[..n] + [q[n]];
      UncollectedSumZero(q[..n], debts);
    }
  }

  /** Releasing more never raises the active total; releasing some of a listed debt lowers it. */
  lemma {:induction false} ActiveSumDrops(q: seq<OrderId>, x: map<OrderId, Debt>, y: map<OrderId, Debt>)
    requires x.Keys == y.Keys
    requires forall o :: o in x ==> y[o].target == x[o].target && x[o].released <= y[o].released
    ensures ActiveSum(q, y) <= ActiveSum(q, x)
    ensures (exists o :: o in q && o in x && x[o].released < y[o].released) ==> ActiveSum(q, y) < ActiveSum(q, x)
  {
    if |q| > 0 {
      var n := |q| - 1;
      ActiveSumDrops(q[..n], x, y);
      assert q == q[..n] + [q[n]];
    }
  }

  lemma {:induction false} ActiveSumNonNegative(q: seq<OrderId>, debts: map<OrderId, Debt>)
    requires forall o :: o in debts ==> debts[o].released <= debts[o].target
    ensures 0 <= ActiveSum(q, debts)
  {
    if |q| > 0 {
      ActiveSumNonNegative(q[..|q| - 1], debts);
    }
  }

  function FundingCollected(s: seq<FundingDebt>): int {
    if |s| == 0 then 0 else FundingCollected(s[..|s| - 1]) + s[|s| - 1].collected
  }

  lemma {:induction false} FundingCollectedUpdate(s: seq<FundingDebt>, i: nat, d: FundingDebt)
    requires i < |s|
    ensures FundingCollected(s[i := d]) == FundingCollected(s) - s[i].collected + d.collected
  {
    var t := s[i := d];
    var n := |s| - 1;
    if i == n {
      assert t[..n] == s[..n];
    } else {
      assert t[..n] == s[..n][i := d];
      FundingCollectedUpdate(s[..n], i, d);
    }
  }
}
