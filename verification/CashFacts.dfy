/** What payments, cash refunds and disputes do to an order, its lot and its debt. */
module CashFacts {
  import opened Basics
  import opened LedgerTables
  import opened LedgerInvariant
  import opened LedgerSteps
  import opened LedgerBoundary
  import opened DebtCollection
  import opened Spending

  // ---- funding a lot ------------------------------------------------------------------------

  function AfterPayment(r: Order): Order {
    if r.status == Pending then r.(status := Paid) else r
  }

  /** The lot a payment creates: the pack less what cash refunds already took, unless nothing is
      left to spend. */
  function FundedLot(r: Order, id: nat, expiresAt: int, now: int): Lot {
    var left := r.pack - r.refunded;
    if left == 0 || r.status == Disputed then
      Lot(id, r.pack, 0, 0, r.refunded, expiresAt, if r.status == Disputed then DisputeClosed else RefundClosed)
    else if expiresAt <= now then
      Lot(id, r.pack, 0, left, r.refunded, expiresAt, Expired)
    else
      Lot(id, r.pack, left, 0, r.refunded, expiresAt, Active)
  }

  /** The lot holds, live or expired, what cash refunds left of its pack, but for `paid` atoms that went on what
      the account owed. */
  ghost predicate HoldsUnlost(l: Lot, r: Order, id: nat, expiresAt: int, now: int, paid: int) {
    && l.id == id && l.original == r.pack && l.expiresAt == expiresAt && l.clawed == r.refunded
    && l.remaining + paid + l.expired == r.pack - r.refunded && 0 <= paid && 0 <= l.remaining && 0 <= l.expired
    && (l.status == DisputeClosed <==> r.status == Disputed)
    && (l.status == RefundClosed <==> r.refunded == r.pack && r.status != Disputed)
    && (l.status == Expired <==> r.refunded < r.pack && expiresAt <= now)
    && (if l.status == Expired then l.remaining == 0 == paid else l.expired == 0)
  }

  lemma FundedLotHolds(orders: map<OrderId, Order>, o: OrderId, r: Order, id: nat, expiresAt: int, now: int, paid: int)
    requires CashOk(orders) && o in orders && OrderOk(r) && r == AfterPayment(orders[o])
    requires 0 <= paid <= FundedLot(r, id, expiresAt, now).remaining
    ensures var l := FundedLot(r, id, expiresAt, now);
      HoldsUnlost(l.(remaining := l.remaining - paid), r, id, expiresAt, now, paid)
  {
    CashShareBounds(r.pack, r.price, r.price);
    CashShareRoundsUp(r.refunded, r.pack, r.cash, r.price);
    hide CashShare, RoundedUp;
  }

  /** An order without a lot has nothing drawn on it and owes nothing. */
  lemma NoLotNoClaims(b: Books, o: OrderId)
    requires RowsOk(b) && o !in b.lots
    ensures o !in b.debts
    ensures Sum(b.allocs, OnLot(o)) == 0 && Sum(b.allocs, ForDebt(o)) == 0
  {
    forall i | 0 <= i < |b.allocs|
      ensures Weight(b.allocs[i], OnLot(o)) == 0 && Weight(b.allocs[i], ForDebt(o)) == 0
    {
      assert AllocOk(b, i);
    }
    SumZero(b.allocs, OnLot(o));
    SumZero(b.allocs, ForDebt(o));
  }

  /** `c` differs from `b` at most in what it says about the order `o`, its lot and its debt. */
  ghost predicate OnlyOrder(b: Books, c: Books, o: OrderId) {
    && c.allocs == b.allocs && c.debits == b.debits
    && b.orders.Keys <= c.orders.Keys && b.lots.Keys <= c.lots.Keys && b.debts.Keys <= c.debts.Keys
    && (forall q :: q in c.orders && q != o ==> q in b.orders && c.orders[q] == b.orders[q])
    && (forall q :: q in c.lots && q != o ==> q in b.lots && c.lots[q] == b.lots[q])
    && (forall q :: q in c.debts && q != o ==> q in b.debts && c.debts[q] == b.debts[q])
  }

  lemma OnlyOrderKeeps(b: Books, c: Books, o: OrderId)
    requires Core(b, map[], 0, 0) && OnlyOrder(b, c, o)
    requires o in c.orders && OrderOk(c.orders[o])
    requires o in c.debts ==> o in c.lots && DebtOk(c.debts[o])
    requires o in c.lots ==> LotOk(c, o) && Settled(c, o) && Balanced(c, o, 0)
    ensures Core(c, map[], 0, 0)
  {
    OnlyOrderRows(b, c, o);
    OnlyOrderTerms(b, c, o);
    hide RowsOk, TermsOk, Acyclic, OnlyOrder;
    OnlyOrderEquations(b, c, o);
  }

  lemma OnlyOrderRows(b: Books, c: Books, o: OrderId)
    requires RowsOk(b) && OnlyOrder(b, c, o) && o in c.orders
    requires o in c.debts ==> o in c.lots
    ensures RowsOk(c)
  {
    forall i | 0 <= i < |c.allocs| ensures AllocOk(c, i) { assert AllocOk(b, i); }
  }

  lemma OnlyOrderTerms(b: Books, c: Books, o: OrderId)
    requires TermsOk(b) && OnlyOrder(b, c, o) && RowsOk(c)
    requires o in c.orders && OrderOk(c.orders[o])
    requires o in c.debts ==> DebtOk(c.debts[o])
    requires o in c.lots ==> LotOk(c, o)
    ensures TermsOk(c)
  {
    hide AllocOk;
    forall q | q in c.lots ensures LotOk(c, q) {
      if q != o { assert LotOk(b, q); }
    }
  }

  lemma OnlyOrderEquations(b: Books, c: Books, o: OrderId)
    requires Equations(b, map[], 0, 0) && OnlyOrder(b, c, o)
    requires o in c.lots ==> Settled(c, o) && Balanced(c, o, 0)
    ensures Equations(c, map[], 0, 0)
  {
    forall q | q in c.lots ensures Settled(c, q) && Balanced(c, q, 0) {
      if q != o { assert Settled(b, q) && Balanced(b, q, 0); }
    }
  }

  lemma FundKeeps(b: Books, o: OrderId, r: Order, id: nat, expiresAt: int, now: int)
    requires Core(b, map[], 0, 0) && CashOk(b.orders) && o in b.orders && o !in b.lots
    requires r == AfterPayment(b.orders[o])
    ensures var c := b.(orders := b.orders[o := r], lots := b.lots[o := FundedLot(r, id, expiresAt, now)]);
      Core(c, map[], 0, 0) && CashOk(c.orders) && c.debts == b.debts && ActiveDebt(c, o) == 0
  {
    FundLocal(b, o, r, id, expiresAt, now);
    hide *;
    OnlyOrderKeeps(b, b.(orders := b.orders[o := r], lots := b.lots[o := FundedLot(r, id, expiresAt, now)]), o);
  }

  lemma FundLocal(b: Books, o: OrderId, r: Order, id: nat, expiresAt: int, now: int)
    requires Core(b, map[], 0, 0) && CashOk(b.orders) && o in b.orders && o !in b.lots
    requires r == AfterPayment(b.orders[o])
    ensures var c := b.(orders := b.orders[o := r], lots := b.lots[o := FundedLot(r, id, expiresAt, now)]);
      && OnlyOrder(b, c, o) && OrderOk(r) && o !in c.debts && LotOk(c, o) && Settled(c, o) && Balanced(c, o, 0)
      && CashOk(c.orders) && ActiveDebt(c, o) == 0
  {
    assert OrderOk(b.orders[o]);
    CashShareBounds(r.pack, r.price, r.price);
    CashShareRoundsUp(r.refunded, r.pack, r.cash, r.price);
    NoLotNoClaims(b, o);
    hide Core, Sum, CashShare, RoundedUp;
  }

  lemma PaymentLabel(b: Books, o: OrderId)
    requires Core(b, map[], 0, 0) && CashOk(b.orders) && o in b.orders
    ensures var c := b.(orders := b.orders[o := AfterPayment(b.orders[o])]);
      Core(c, map[], 0, 0) && CashOk(c.orders)
  {
    var c := b.(orders := b.orders[o := AfterPayment(b.orders[o])]);
    if o in b.lots { CoreAt(b, map[], o, 0); }
    OnlyOrderKeeps(b, c, o);
  }

  /** New facts about an order whose lot is not funded yet. */
  lemma OrderFacts(b: Books, o: OrderId, r: Order)
    requires Core(b, map[], 0, 0) && o in b.orders && OrderOk(r) && o !in b.lots
    ensures Core(b.(orders := b.orders[o := r]), map[], 0, 0)
  {
    OnlyOrderKeeps(b, b.(orders := b.orders[o := r]), o);
  }

  lemma NewOrderKeeps(b: Books, o: OrderId, r: Order)
    requires Core(b, map[], 0, 0) && o !in b.orders && OrderOk(r)
    ensures Core(b.(orders := b.orders[o := r]), map[], 0, 0)
  {
    var c := b.(orders := b.orders[o := r]);
    OnlyOrderKeeps(b, c, o);
  }

  // ---- taking cash back -----------------------------------------------------------------------

  /** The largest cash claim against the order, once a new one is known. */
  function CashAfter(r: Order, dispute: bool, refunded: int): int {
    if dispute then r.price else Max(r.cash, refunded)
  }

  function LabelAfter(r: Order, dispute: bool, cash: int): PaymentStatus {
    if dispute then Disputed else if cash >= r.price then FullyRefunded else PartlyRefunded
  }

  /** A claim is acted on when it matches the order: a dispute, or a refund of part of the price. */
  predicate Claimable(r: Order, dispute: bool, refunded: int) {
    0 <= refunded <= r.price && (dispute || 0 < refunded)
  }

  /** The order once the claim is known. */
  function OrderAfter(r: Order, dispute: bool, refunded: int): Order
    requires 0 < r.price
  {
    var cash := CashAfter(r, dispute, refunded);
    r.(cash := cash, refunded := CashShare(r.pack, cash, r.price), status := LabelAfter(r, dispute, cash))
  }

  /** The order counts the largest cash claim so far, and has lost that share of its pack, rounded up. */
  ghost predicate ClaimCounted(r: Order, n: Order, dispute: bool, refunded: int) {
    && n.pack == r.pack && n.price == r.price && n.cash == (if dispute then r.price else Max(r.cash, refunded))
    && RoundedUp(n.refunded, n.pack, n.cash, n.price)
    && (n.status == Disputed <==> dispute) && (n.status == FullyRefunded <==> !dispute && n.cash == n.price)
    && n.status != Pending && n.status != Paid
  }

  /** A claim never gives atoms back, and takes the whole pack exactly when all cash is gone. */
  lemma OrderAfterOk(orders: map<OrderId, Order>, o: OrderId, dispute: bool, refunded: int)
    requires CashOk(orders) && o in orders && OrderOk(orders[o]) && Claimable(orders[o], dispute, refunded)
    ensures var r := orders[o];
      && var n := OrderAfter(r, dispute, refunded);
      && OrderOk(n) && CashOk(orders[o := n]) && n.pack == r.pack && n.price == r.price
      && r.cash <= n.cash <= r.price && r.refunded <= n.refunded && RoundedUp(n.refunded, n.pack, n.cash, n.price)
      && (n.cash == r.price ==> n.refunded == r.pack) && (dispute ==> n.cash == r.price)
      && ClaimCounted(r, n, dispute, refunded)
  {
    hide CashShare, RoundedUp;
    var r := orders[o];
    var cash := CashAfter(r, dispute, refunded);
    CashShareBounds(r.pack, cash, r.price);
    CashShareBounds(r.pack, r.price, r.price);
    CashShareMonotone(r.pack, r.cash, cash, r.price);
    CashShareRoundsUp(r.refunded, r.pack, r.cash, r.price);
    CashShareRoundsUp(CashShare(r.pack, cash, r.price), r.pack, cash, r.price);
  }

  /** Atoms the claim takes from what the lot still has, spendable first, then expired. */
  function Taken(l: Lot, delta: int): int {
    Min(delta, l.remaining + l.expired)
  }

  /** The lot after `delta` atoms are claimed. */
  function ClaimedLot(l: Lot, delta: int, terminal: bool, dispute: bool): Lot {
    var live := if l.status == Active then Min(delta, l.remaining) else 0;
    var lapsed := Min(delta - live, l.expired);
    l.(remaining := l.remaining - live, expired := l.expired - lapsed, clawed := l.clawed + live + lapsed,
       status := if terminal then (if dispute then DisputeClosed else RefundClosed) else l.status)
  }

  /** What the lot cannot give becomes debt of its order. */
  function ClaimedDebts(debts: map<OrderId, Debt>, o: OrderId, missing: int): map<OrderId, Debt> {
    if missing <= 0 then debts
    else if o in debts then debts[o := debts[o].(target := debts[o].target + missing)]
    else debts[o := Debt(missing, 0, 0)]
  }

  /** From `x` to `y` a claim took `delta` more atoms of the pack of `o`: all it can from the lot,
      the rest as debt, and nothing from anywhere else. The lot closes once the whole pack is gone. */
  ghost predicate Claimed(x: Books, y: Books, o: OrderId, delta: int, dispute: bool) {
    && y.allocs == x.allocs && y.debits == x.debits && y.lots.Keys == x.lots.Keys
    && (forall q :: q in x.lots && q != o ==> y.lots[q] == x.lots[q])
    && (forall q :: q != o ==> (q in y.debts <==> q in x.debts) && (q in x.debts ==> y.debts[q] == x.debts[q]))
    && (o !in x.lots ==> y.debts == x.debts)
    && (o in x.lots && o in y.orders ==> ClaimedAt(x, y, o, delta, dispute))
  }

  ghost predicate ClaimedAt(x: Books, y: Books, o: OrderId, delta: int, dispute: bool)
    requires o in x.lots && o in y.lots && o in y.orders
  {
    var l := x.lots[o];
    var m := y.lots[o];
    var taken := Min(delta, l.remaining + l.expired);
    && m.id == l.id && m.original == l.original && m.expiresAt == l.expiresAt
    && m.clawed == l.clawed + taken && m.remaining + m.expired == l.remaining + l.expired - taken
    && (l.status == Active ==> m.remaining == l.remaining - taken)
    && m.status == (if y.orders[o].refunded == y.orders[o].pack && (delta > 0 || dispute)
                    then (if dispute then DisputeClosed else RefundClosed) else l.status)
    && Target(y, o) == Target(x, o) + delta - taken
    && Collected(y, o) == Collected(x, o) && Released(y, o) == Released(x, o)
    && (o in y.debts <==> o in x.debts || delta > taken)
  }

  /** A claim that takes atoms first projects the expiry of its own lot. */
  function BeforeClaim(b: Books, o: OrderId, delta: int, now: int): Books {
    if delta > 0 && o in b.lots then b.(lots := b.lots[o := ExpiredLot(b.lots[o], now)]) else b
  }

  lemma ClaimIsTaken(l: Lot, delta: int)
    requires 0 <= delta && 0 <= l.remaining && 0 <= l.expired
    requires l.status == Active ==> l.expired == 0
    requires l.status != Active ==> l.remaining == 0
    ensures forall t, d ::
      && ClaimedLot(l, delta, t, d).clawed == l.clawed + Taken(l, delta)
      && ClaimedLot(l, delta, t, d).remaining + ClaimedLot(l, delta, t, d).expired
        == l.remaining + l.expired - Taken(l, delta)
      && 0 <= ClaimedLot(l, delta, t, d).remaining && 0 <= ClaimedLot(l, delta, t, d).expired
  {}

  /** A claim keeps the invariant; the bounds its additions are checked against are never hit. */
  lemma ClaimKeeps(b: Books, o: OrderId, r: Order, dispute: bool)
    requires Core(b, map[], 0, 0) && o in b.orders && o in b.lots && OrderOk(r) && r.pack == b.orders[o].pack
    requires b.orders[o].refunded < r.refunded
    requires (dispute ==> r.refunded == r.pack) && (dispute <==> r.status == Disputed)
    ensures var delta := r.refunded - b.orders[o].refunded;
      && var missing := delta - Taken(b.lots[o], delta);
      && var c := b.(orders := b.orders[o := r],
                     lots := b.lots[o := ClaimedLot(b.lots[o], delta, r.refunded == r.pack, dispute)],
                     debts := ClaimedDebts(b.debts, o, missing));
      && Core(c, map[], 0, 0) && Claimed(b, c, o, delta, dispute)
      && 0 <= b.lots[o].clawed + Taken(b.lots[o], delta) <= MAX_ATOMS && Target(b, o) + missing <= MAX_ATOMS
      && 0 <= missing
  {
    var delta := r.refunded - b.orders[o].refunded;
    var missing := delta - Taken(b.lots[o], delta);
    var c := b.(orders := b.orders[o := r],
                lots := b.lots[o := ClaimedLot(b.lots[o], delta, r.refunded == r.pack, dispute)],
                debts := ClaimedDebts(b.debts, o, missing));
    ClaimLocal(b, o, r, dispute, c);
    assert b.debts.Keys <= b.lots.Keys;
    hide Core, LotOk, Settled, Balanced;
    ClaimTables(b, c, o, r, dispute);
    hide Claimed, OnlyOrder, ClaimedLot, ClaimedDebts;
    OnlyOrderKeeps(b, c, o);
  }

  lemma ClaimTables(b: Books, c: Books, o: OrderId, r: Order, dispute: bool)
    requires o in b.orders && o in b.lots && r.pack == b.orders[o].pack && b.orders[o].refunded < r.refunded
    requires 0 <= b.lots[o].remaining && 0 <= b.lots[o].expired && b.debts.Keys <= b.lots.Keys
    requires if b.lots[o].status == Active then b.lots[o].expired == 0 else b.lots[o].remaining == 0
    requires var delta := r.refunded - b.orders[o].refunded;
      c == b.(orders := b.orders[o := r],
              lots := b.lots[o := ClaimedLot(b.lots[o], delta, r.refunded == r.pack, dispute)],
              debts := ClaimedDebts(b.debts, o, delta - Taken(b.lots[o], delta)))
    ensures OnlyOrder(b, c, o) && Claimed(b, c, o, r.refunded - b.orders[o].refunded, dispute)
  {
    ClaimIsTaken(b.lots[o], r.refunded - b.orders[o].refunded);
  }

  lemma ClaimLocal(b: Books, o: OrderId, r: Order, dispute: bool, c: Books)
    requires Core(b, map[], 0, 0) && o in b.orders && o in b.lots && OrderOk(r) && r.pack == b.orders[o].pack
    requires b.orders[o].refunded < r.refunded
    requires (dispute ==> r.refunded == r.pack) && (dispute <==> r.status == Disputed)
    requires var delta := r.refunded - b.orders[o].refunded;
      c == b.(orders := b.orders[o := r],
              lots := b.lots[o := ClaimedLot(b.lots[o], delta, r.refunded == r.pack, dispute)],
              debts := ClaimedDebts(b.debts, o, delta - Taken(b.lots[o], delta)))
    ensures LotOk(c, o) && Settled(c, o) && Balanced(c, o, 0) && (o in c.debts ==> DebtOk(c.debts[o]))
    ensures var delta := r.refunded - b.orders[o].refunded;
      && 0 <= b.lots[o].clawed + Taken(b.lots[o], delta) <= MAX_ATOMS
      && 0 <= delta - Taken(b.lots[o], delta) && Target(b, o) + delta - Taken(b.lots[o], delta) <= MAX_ATOMS
    ensures 0 <= b.lots[o].remaining && 0 <= b.lots[o].expired
    ensures if b.lots[o].status == Active then b.lots[o].expired == 0 else b.lots[o].remaining == 0
  {
    CoreAt(b, map[], o, 0);
    DebtIsBacked(b, map[], o, o);
    ClaimIsTaken(b.lots[o], r.refunded - b.orders[o].refunded);
  }

  /** New cash facts that take no further atoms; a dispute closes the lot as disputed. */
  lemma RecordKeeps(b: Books, o: OrderId, r: Order, dispute: bool)
    requires Core(b, map[], 0, 0) && o in b.orders && OrderOk(r)
    requires r.pack == b.orders[o].pack && r.refunded == b.orders[o].refunded
    requires (dispute ==> r.refunded == r.pack) && (dispute <==> r.status == Disputed)
    ensures o in b.lots && dispute ==> b.lots[o].remaining == 0
    ensures var c := b.(orders := b.orders[o := r],
                        lots := if dispute && o in b.lots then b.lots[o := b.lots[o].(status := DisputeClosed)]
                          else b.lots);
      Core(c, map[], 0, 0) && Claimed(b, c, o, 0, dispute)
  {
    var c := b.(orders := b.orders[o := r],
                lots := if dispute && o in b.lots then b.lots[o := b.lots[o].(status := DisputeClosed)] else b.lots);
    RecordLocal(b, c, o, r, dispute);
    hide *;
    RecordTables(b, c, o, r, dispute);
    OnlyOrderKeeps(b, c, o);
  }

  lemma RecordLocal(b: Books, c: Books, o: OrderId, r: Order, dispute: bool)
    requires Core(b, map[], 0, 0) && o in b.orders && OrderOk(r)
    requires r.pack == b.orders[o].pack && r.refunded == b.orders[o].refunded
    requires (dispute ==> r.refunded == r.pack) && (dispute <==> r.status == Disputed)
    requires c == b.(orders := b.orders[o := r],
                     lots := if dispute && o in b.lots then b.lots[o := b.lots[o].(status := DisputeClosed)]
                             else b.lots)
    ensures OnlyOrder(b, c, o) && b.debts.Keys <= b.lots.Keys && (o in c.debts ==> DebtOk(c.debts[o]))
    ensures o in b.lots ==>
      && 0 <= b.lots[o].remaining && 0 <= b.lots[o].expired && (dispute ==> b.lots[o].remaining == 0)
      && LotOk(c, o) && Settled(c, o) && Balanced(c, o, 0)
  {
    if o in b.lots {
      CoreAt(b, map[], o, 0);
      DebtIsBacked(b, map[], o, o);
    }
    hide Acyclic, Equations, UnwindingOk, Sum;
  }

  lemma RecordTables(b: Books, c: Books, o: OrderId, r: Order, dispute: bool)
    requires o in b.orders && r.pack == b.orders[o].pack && r.refunded == b.orders[o].refunded
    requires dispute ==> r.refunded == r.pack
    requires o in b.lots ==> 0 <= b.lots[o].remaining && 0 <= b.lots[o].expired && b.debts.Keys <= b.lots.Keys
    requires c == b.(orders := b.orders[o := r],
                     lots := if dispute && o in b.lots then b.lots[o := b.lots[o].(status := DisputeClosed)]
                             else b.lots)
    ensures Claimed(b, c, o, 0, dispute)
  {}

  /** The debt queue after a claim: a new debt goes to its end. */
  function QueueAfter(q: seq<OrderId>, debts: map<OrderId, Debt>, o: OrderId, missing: int): seq<OrderId> {
    if missing > 0 && o !in debts then q + [o] else q
  }

  /** The queues still list every debt and lot once, lots in expiry order. */
  lemma ClaimQueues(b: Books, o: OrderId, l: Lot, missing: int, debtQueue: seq<OrderId>, lotQueue: seq<OrderId>)
    requires Queued(debtQueue, b.debts) && Listed(lotQueue, b.lots) && QueueSorted(lotQueue, b.lots)
    requires o in b.lots && l.id == b.lots[o].id && l.expiresAt == b.lots[o].expiresAt
    ensures QueueAfter(debtQueue, b.debts, o, missing)
         == debtQueue + (if o in ClaimedDebts(b.debts, o, missing) && o !in b.debts then [o] else [])
    ensures Queued(QueueAfter(debtQueue, b.debts, o, missing), ClaimedDebts(b.debts, o, missing))
    ensures Listed(lotQueue, b.lots[o := l]) && QueueSorted(lotQueue, b.lots[o := l])
  {
    SortedKept(lotQueue, b.lots, b.lots[o := l]);
  }

  // ---- order independence ------------------------------------------------------------------------

  /** A cash fact about one order, as delivered: possibly repeated, in any order. */
  datatype Fact = Fact(dispute: bool, refunded: int)

  /** The largest claim among facts, a dispute counting as the full price. */
  function LargestClaim(facts: seq<Fact>, price: int, start: int): int {
    if |facts| == 0 then start
    else
      var f := facts[|facts| - 1];
      var before := LargestClaim(facts[..|facts| - 1], price, start);
      if f.dispute then Max(before, price) else Max(before, f.refunded)
  }

  function Claim(f: Fact, price: int): int { if f.dispute then price else f.refunded }

  /** It is the least upper bound of the facts, whatever their order and multiplicity. */
  lemma {:induction false} LargestClaimIsLargest(facts: seq<Fact>, price: int, start: int)
    ensures start <= LargestClaim(facts, price, start)
    ensures forall f :: f in facts ==> Claim(f, price) <= LargestClaim(facts, price, start)
    ensures LargestClaim(facts, price, start) == start
         || exists f :: f in facts && LargestClaim(facts, price, start) == Claim(f, price)
  {
    if |facts| > 0 {
      var n := |facts| - 1;
      LargestClaimIsLargest(facts[..n], price, start);
      assert facts == facts[..n] + [facts[n]];
      assert facts[n] in facts;
    }
  }

  /** Deliveries of the same facts, in any order and any number of times, claim the same cash. */
  lemma DeliveryOrderIsIrrelevant(x: seq<Fact>, y: seq<Fact>, price: int, start: int)
    requires forall f :: f in x <==> f in y
    ensures LargestClaim(x, price, start) == LargestClaim(y, price, start)
  {
    LargestClaimIsLargest(x, price, start);
    LargestClaimIsLargest(y, price, start);
  }

  /** Nothing was ever spent, and no order owes anything. */
  ghost predicate Unspent(b: Books) { b.allocs == [] && b.debits == map[] && b.debts == map[] }

  /** Nothing is drawn on the lot of `o`, and the order owes nothing. */
  ghost predicate Untapped(b: Books, o: OrderId) { o !in b.debts && Sum(b.allocs, OnLot(o)) == 0 }

  /** The account has no debt left to pay, and `orders` are untapped; what it spent on others does not
      matter. */
  ghost predicate Clear(b: Books, orders: set<OrderId>) {
    && (forall q :: q in b.debts ==> Uncollected(b.debts[q]) == 0)
    && forall o :: o in orders ==> Untapped(b, o)
  }

  lemma UnspentIsClear(b: Books, orders: set<OrderId>)
    requires Unspent(b)
    ensures Clear(b, orders)
  {
    forall o | o in orders ensures Untapped(b, o) {}
  }

  /** An order that is not paid yet is untapped. */
  lemma UnpaidIsUntapped(b: Books, o: OrderId)
    requires Core(b, map[], 0, 0) && o !in b.lots
    ensures Untapped(b, o)
  {
    NoLotNoClaims(b, o);
  }

  /** Cash refunds have taken their share of an untapped, unexpired lot and left the rest. */
  lemma UntappedLotFollowsCash(b: Books, o: OrderId)
    requires Core(b, map[], 0, 0) && CashOk(b.orders) && o in b.lots && Untapped(b, o) && b.lots[o].expired == 0
    ensures o in b.orders && 0 < b.orders[o].price
    ensures b.lots[o].clawed == b.orders[o].refunded
    ensures RoundedUp(b.lots[o].clawed, b.orders[o].pack, b.orders[o].cash, b.orders[o].price)
    ensures b.lots[o].remaining == b.orders[o].pack - b.orders[o].refunded
  {
    CoreAt(b, map[], o, 0);
    assert OrderOk(b.orders[o]);
  }
}
