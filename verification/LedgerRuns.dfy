/** Whole runs of an account: any transactions, in any order, at any times. */
module LedgerRuns {
  import opened Basics
  import opened LedgerTables
  import opened LedgerInvariant
  import opened LedgerSteps
  import opened LedgerBoundary
  import opened DebtCollection
  import opened SubscriptionState
  import opened CashFacts
  import opened DebtPriority
  import opened Spending
  import opened Refunding
  import opened Fefo
  import opened CreditLedger

  datatype Op =
    | DoCharge(name: string, amount: int)
    | DoRefund(key: Key)
    | DoRegister(order: OrderId, pack: int, price: int)
    | DoPay(order: OrderId, lot: nat, expiresAt: int)
    | DoClaim(order: OrderId, dispute: bool, refunded: int)
    | DoGrant(monthly: nat, window: Window)
    | DoUpgrade(delta: nat)
    | DoPlan(plan: Plan)
    | DoFundingDebt(invoice: string, target: nat)
    | DoExpire

  datatype Step = Step(op: Op, now: int)

  /** The cash fact a step delivers about an order. */
  function FactOf(op: Op, o: OrderId, price: int): seq<Fact> {
    if op.DoClaim? && op.order == o && 0 <= op.refunded <= price && (op.dispute || 0 < op.refunded)
    then [Fact(op.dispute, op.refunded)] else []
  }

  function FactsOf(run: seq<Step>, o: OrderId, price: int): seq<Fact> {
    if |run| == 0 then [] else FactsOf(run[..|run| - 1], o, price) + FactOf(run[|run| - 1].op, o, price)
  }

  /** What no transaction ever rewrites: product debits keep their amount, and once refunded stay
      as they are; allocations keep their draw; orders keep their price and contents. */
  ghost predicate HistoryKept(x: Books, y: Books) {
    && (forall k: Key :: k.Product? && k in x.debits ==>
          && k in y.debits && y.debits[k].amount == x.debits[k].amount
          && (x.debits[k].closed ==> y.debits[k] == x.debits[k]))
    && |x.allocs| <= |y.allocs| && (forall i :: 0 <= i < |x.allocs| ==> SameDraw(x.allocs[i], y.allocs[i]))
    && (forall o :: o in x.orders ==>
          o in y.orders && y.orders[o].pack == x.orders[o].pack && y.orders[o].price == x.orders[o].price)
  }

  lemma HistoryTrans(x: Books, y: Books, z: Books)
    requires HistoryKept(x, y) && HistoryKept(y, z)
    ensures HistoryKept(x, z)
  {
    forall i | 0 <= i < |x.allocs| ensures SameDraw(x.allocs[i], z.allocs[i]) {
      assert SameDraw(x.allocs[i], y.allocs[i]) && SameDraw(y.allocs[i], z.allocs[i]);
    }
  }

  // ---- cash over a run -----------------------------------------------------------------------

  /** What an order was sold for and how much of it went back. */
  datatype Terms = Terms(pack: int, price: int, cash: int)

  function TermsOf(orders: map<OrderId, Order>, o: OrderId): Option<Terms> {
    if o in orders then Some(Terms(orders[o].pack, orders[o].price, orders[o].cash)) else None
  }

  predicate Registers(op: Op, o: OrderId) {
    op.DoRegister? && op.order == o && 0 < op.pack <= MAX_ATOMS && 0 < op.price
  }

  function TermsAfter(t: Option<Terms>, op: Op, o: OrderId): Option<Terms> {
    match t
    case None => if Registers(op, o) then Some(Terms(op.pack, op.price, 0)) else None
    case Some(v) => Some(v.(cash := LargestClaim(FactOf(op, o, v.price), v.price, v.cash)))
  }

  /** The terms of an order at the end of a run. */
  function Story(run: seq<Step>, o: OrderId, t: Option<Terms>): Option<Terms> {
    if |run| == 0 then t else TermsAfter(Story(run[..|run| - 1], o, t), run[|run| - 1].op, o)
  }

  /** An order has lost exactly the largest claim made against it. */
  lemma {:induction false} StoryIsLargest(run: seq<Step>, o: OrderId, v: Terms)
    ensures Story(run, o, Some(v)) == Some(v.(cash := LargestClaim(FactsOf(run, o, v.price), v.price, v.cash)))
  {
    if |run| > 0 {
      var n := |run| - 1;
      StoryIsLargest(run[..n], o, v);
      ClaimsAppend(FactsOf(run[..n], o, v.price), FactOf(run[n].op, o, v.price), v.price, v.cash);
    }
  }

  /** For an order registered during the run, the claims made since count. */
  lemma {:induction false} StoryOfNewOrder(run: seq<Step>, o: OrderId) returns (k: nat)
    requires Story(run, o, None).Some?
    ensures k < |run| && Registers(run[k].op, o)
    ensures var op := run[k].op;
      Story(run, o, None) == Some(Terms(op.pack, op.price, LargestClaim(FactsOf(run[k + 1..], o, op.price), op.price,
          0)))
  {
    var n := |run| - 1;
    if Story(run[..n], o, None).None? {
      k := n;
      assert run[n + 1..] == [];
    } else {
      k := StoryOfNewOrder(run[..n], o);
      var op := run[k].op;
      assert run[k + 1..][..n - k - 1] == run[..n][k + 1..];
      ClaimsAppend(FactsOf(run[..n][k + 1..], o, op.price), FactOf(run[n].op, o, op.price), op.price, 0);
    }
  }

  /** Exactly the registered orders exist, and each has lost what its story says. */
  ghost predicate CashFollows(x: map<OrderId, Order>, y: map<OrderId, Order>, run: seq<Step>) {
    forall o :: TermsOf(y, o) == Story(run, o, TermsOf(x, o))
  }

  ghost predicate CashStep(x: map<OrderId, Order>, y: map<OrderId, Order>, op: Op) {
    forall o :: TermsOf(y, o) == TermsAfter(TermsOf(x, o), op, o)
  }

  // ---- lots nothing is spent from ---------------------------------------------------------------

  /** Nothing is charged, and only `orders` are claimed against. */
  predicate Gentle(op: Op, orders: set<OrderId>) { !op.DoCharge? && (op.DoClaim? ==> op.order in orders) }

  /** While an account owes nothing and spends nothing, claims against untapped orders leave no debt and
      nothing is drawn; the lot of such an order appears only when it is paid, keeps its window, and
      expires only once that has closed. */
  ghost predicate LotsFollow(x: Books, y: Books, step: Step, orders: set<OrderId>) {
    Clear(x, orders) && Gentle(step.op, orders) ==>
      && Clear(y, orders) && y.debts.Keys == x.debts.Keys && |y.allocs| == |x.allocs|
      && (forall k: Key :: k.Product? && k in y.debits ==> k in x.debits)
      && x.lots.Keys <= y.lots.Keys && (step.op.DoPay? && step.op.order in x.orders ==> step.op.order in y.lots)
      && (forall o :: o in orders && o in x.lots && o in y.lots ==> LotFollows(x.lots[o], y.lots[o], step.now))
      && (forall o :: o in y.lots && o !in x.lots ==>
            && step.op.DoPay? && step.op.order == o && y.lots[o].expiresAt == step.op.expiresAt
            && (step.op.expiresAt > step.now ==> y.lots[o].expired == 0))
  }

  ghost predicate LotFollows(l: Lot, m: Lot, now: int) {
    && m.expiresAt == l.expiresAt
    && (l.expired == 0 && (l.status == Active ==> l.expiresAt > now) ==>
          m.expired == 0 && (m.status == Active ==> l.status == Active))
  }

  lemma KeptHistory(x: Books, y: Books)
    requires Kept({}, x, y)
    ensures HistoryKept(x, y)
  {
    forall k: Key | k.Product? ensures Protected(k, {}) {}
  }

  lemma RefundHistory(x: Books, y: Books, key: Key, restored: int)
    requires key in x.debits && !x.debits[key].closed && RefundDone(x, y, key, restored)
    ensures HistoryKept(x, y)
  {}

  /** One transaction; `overflow` says that it was a refund the balance had no room for. */
  method Apply(ledger: Ledger, step: Step, ghost orders: set<OrderId>) returns (overflow: bool)
    requires ledger.Valid() && (step.op.DoGrant? ==> step.op.monthly <= MAX_ATOMS)
    modifies ledger
    ensures ledger.Valid() && old(ledger.log) <= ledger.log && old(ledger.debtQueue) <= ledger.debtQueue
    ensures HistoryKept(old(ledger.Tables()), ledger.Tables())
    ensures CashStep(old(ledger.orders), ledger.orders, step.op)
    ensures LotsFollow(old(ledger.Tables()), ledger.Tables(), step, orders)
    ensures old(ledger.HasRoom()) ==> !overflow && (step.op.DoUpgrade? || ledger.HasRoom())
    ensures step.op.DoPlan? ==> ledger.plan == step.op.plan
  {
    hide Ledger.Valid, RefundDone, RefundInverts, Kept, Claimed, PaidOldestFirst, HistoryKept, CashStep, ChargeDrew,
      NothingOwed, AllReturnable, SpendingOrder, SpendableTotal, OrderAfter, LotsFollow, Repaid, TooMuch, DebtFree, Sum;
    ghost var b := ledger.Tables();
    var now := step.now;
    overflow := false;
    match step.op
    case DoCharge(name, amount) =>
      var outcome, total, restored := ledger.Charge(name, amount, now);
      SpendingLots(b, ledger.Tables(), step, orders);
      if outcome == Charged {
        ChargeHistory(b.(lots := ExpireLapsed(b.lots, now)), ledger.Tables(), Product(name),
                      SpendingOrder(ledger.lotQueue, b.lots, ledger.plan, old(ledger.balance), ledger.epoch,
                                    now), amount, ledger.epoch);
        SameCash(b.orders, ledger.orders, step.op);
        HistoryFrame(b, b.(lots := ExpireLapsed(b.lots, now)), ledger.Tables());
      } else {
        QuietStep(b, ledger.Tables(), step.op);
      }
    case DoRefund(key) =>
      overflow := RefundStep(ledger, key, step, orders);
    case DoRegister(order, pack, price) =>
      var created := ledger.RegisterOrder(order, pack, price);
      RegisterCash(b, ledger.Tables(), order, pack, price);
      SameLots(b, ledger.Tables(), step, orders);
    case DoPay(order, lot, expiresAt) =>
      PayStep(ledger, order, lot, expiresAt, step, orders);
    case DoClaim(order, dispute, refunded) =>
      ClaimStep(ledger, order, dispute, refunded, step, orders);
    case DoGrant(monthly, window) =>
      var collected := ledger.GrantEpoch(monthly, window);
      NothingToCollect(b, ledger.debtQueue, old(ledger.debtQueue), orders);
      KeptHistory(b, ledger.Tables());
      KeptCash(b, ledger.Tables());
      SameCash(b.orders, ledger.orders, step.op);
      SameLots(b, ledger.Tables(), step, orders);
    case DoUpgrade(delta) =>
      UpgradeStep(ledger, delta, step, orders);
    case DoPlan(plan) =>
      ledger.SetPlan(plan);
      QuietStep(b, ledger.Tables(), step.op);
      SameLots(b, ledger.Tables(), step, orders);
    case DoFundingDebt(invoice, target) =>
      ledger.RecordFundingDebt(invoice, target);
      QuietStep(b, ledger.Tables(), step.op);
      SameLots(b, ledger.Tables(), step, orders);
    case DoExpire =>
      var expired := ledger.ExpireAccountPackLots(now);
      QuietStep(b, ledger.Tables(), step.op);
      ExpiryLots(b, ledger.Tables(), step, orders);
  }

  method RefundStep(ledger: Ledger, key: Key, step: Step, ghost orders: set<OrderId>) returns (overflow: bool)
    requires ledger.Valid() && step.op == DoRefund(key)
    modifies ledger
    ensures ledger.Valid() && old(ledger.log) <= ledger.log && old(ledger.debtQueue) <= ledger.debtQueue
    ensures HistoryKept(old(ledger.Tables()), ledger.Tables())
    ensures CashStep(old(ledger.orders), ledger.orders, step.op)
    ensures LotsFollow(old(ledger.Tables()), ledger.Tables(), step, orders)
    ensures old(ledger.HasRoom()) ==> !overflow && ledger.HasRoom()
  {
    hide Ledger.Valid, RefundDone, RefundInverts, HistoryKept, CashStep, NothingOwed, AllReturnable, SpendableTotal,
      LotsFollow, Repaid, TooMuch, DebtFree;
    ghost var b := ledger.Tables();
    ghost var s := ledger.AccountSide();
    ledger.DebtsAreOk();
    LotsAreOkFor(ledger, orders);
    var outcome, total, restored := ledger.Refund(key, step.now);
    overflow := outcome == Rejected(BalanceOverflow);
    SameCash(b.orders, ledger.orders, step.op);
    if outcome.Refunded? || outcome.EpochExpired? {
      RefundHistory(b.(lots := ExpireLapsed(b.lots, step.now)), ledger.Tables(), key, restored);
      HistoryFrame(b, b.(lots := ExpireLapsed(b.lots, step.now)), ledger.Tables());
      ghost var gain := b.debits[key].amount;
      FirstExposure(b, s, ledger.Tables(), ledger.AccountSide(), ledger.Here(step.now), gain);
      RefundLots(ledger, b, s, key, restored, gain, step, orders);
    } else {
      QuietStep(b, ledger.Tables(), step.op);
      if outcome == Replayed {
        ExpiryLots(b, ledger.Tables(), step, orders);
      } else {
        SameLots(b, ledger.Tables(), step, orders);
      }
    }
  }

  method UpgradeStep(ledger: Ledger, delta: nat, step: Step, ghost orders: set<OrderId>)
    requires ledger.Valid() && step.op == DoUpgrade(delta)
    modifies ledger
    ensures ledger.Valid() && old(ledger.log) <= ledger.log && old(ledger.debtQueue) <= ledger.debtQueue
    ensures HistoryKept(old(ledger.Tables()), ledger.Tables())
    ensures CashStep(old(ledger.orders), ledger.orders, step.op)
    ensures LotsFollow(old(ledger.Tables()), ledger.Tables(), step, orders)
    ensures 0 < delta <= MAX_ATOMS - old(ledger.balance) ==> |old(ledger.log)| < |ledger.log|
  {
    hide Ledger.Valid, Kept, HistoryKept, CashStep, NothingOwed, LotsFollow, Repaid;
    ghost var b := ledger.Tables();
    var granted := false;
    if delta > 0 { granted := ledger.GrantUpgrade(delta, step.now); }
    NothingToCollect(b, ledger.debtQueue, old(ledger.debtQueue), orders);
    if granted {
      KeptHistory(b, ledger.Tables());
      KeptCash(b, ledger.Tables());
    } else {
      HistoryRefl(b);
    }
    SameCash(b.orders, ledger.orders, step.op);
    SameLots(b, ledger.Tables(), step, orders);
  }

  method PayStep(ledger: Ledger, order: OrderId, lot: nat, expiresAt: int, step: Step, ghost orders: set<OrderId>)
    requires ledger.Valid() && step.op == DoPay(order, lot, expiresAt)
    modifies ledger
    ensures ledger.Valid() && old(ledger.log) <= ledger.log && old(ledger.debtQueue) <= ledger.debtQueue
    ensures HistoryKept(old(ledger.Tables()), ledger.Tables())
    ensures CashStep(old(ledger.orders), ledger.orders, step.op)
    ensures LotsFollow(old(ledger.Tables()), ledger.Tables(), step, orders)
    ensures old(ledger.HasRoom()) ==> ledger.HasRoom()
  {
    hide Ledger.Valid, Kept, PaidOldestFirst, HistoryKept, CashStep, FundedLot, LotsFollow;
    ghost var b := ledger.Tables();
    var outcome, collected := ledger.PaymentSucceeded(order, lot, expiresAt, step.now);
    SameCash(b.orders, ledger.orders, step.op);
    if outcome == Funded {
      ghost var l := FundedLot(AfterPayment(b.orders[order]), lot, expiresAt, step.now);
      ghost var t := b.(orders := ledger.orders, lots := b.lots[order := l]);
      KeptHistory(t, ledger.Tables());
      HistoryFrame(b, t, ledger.Tables());
      NothingToCollect(b, ledger.debtQueue, old(ledger.debtQueue), orders);
      NewLot(b, ledger.Tables(), order, l, lot, collected, step, orders);
    } else {
      QuietStep(b, ledger.Tables(), step.op);
      SameLots(b, ledger.Tables(), step, orders);
    }
  }

  method ClaimStep(ledger: Ledger, order: OrderId, dispute: bool, refunded: int, step: Step, ghost orders: set<OrderId>)
    requires ledger.Valid() && step.op == DoClaim(order, dispute, refunded)
    modifies ledger
    ensures ledger.Valid() && old(ledger.log) <= ledger.log && old(ledger.debtQueue) <= ledger.debtQueue
    ensures HistoryKept(old(ledger.Tables()), ledger.Tables())
    ensures CashStep(old(ledger.orders), ledger.orders, step.op)
    ensures LotsFollow(old(ledger.Tables()), ledger.Tables(), step, orders)
    ensures old(ledger.HasRoom()) ==> ledger.HasRoom()
  {
    hide Ledger.Valid, Claimed, OrderAfter, HistoryKept, CashStep, LotsFollow;
    ghost var b := ledger.Tables();
    if order in ledger.orders { ledger.OrdersAreOk(order); }
    ledger.LotsAreOk(order);
    var outcome := ledger.Clawback(order, dispute, refunded, step.now);
    if outcome != NotClaimed {
      ghost var delta := ledger.orders[order].refunded - b.orders[order].refunded;
      ClaimHistory(b, ledger.Tables(), order, delta, dispute, step.now);
      ClaimCash(b, ledger.Tables(), order, dispute, refunded);
      ledger.OrdersAreOk(order);
      ledger.LotsAreOk(order);
      ClaimedLots(b, ledger.Tables(), order, delta, dispute, step, orders);
    } else {
      NoClaimCash(b, order, dispute, refunded);
      SameLots(b, ledger.Tables(), step, orders);
    }
  }

  lemma NothingToCollect(b: Books, q: seq<OrderId>, r: seq<OrderId>, orders: set<OrderId>)
    ensures Clear(b, orders) ==> UncollectedSum(q, b.debts) == 0 && UncollectedSum(r, b.debts) == 0
  {
    if Clear(b, orders) {
      UncollectedSumZero(q, b.debts);
      UncollectedSumZero(r, b.debts);
    }
  }

  lemma SpendingLots(x: Books, y: Books, step: Step, orders: set<OrderId>)
    requires step.op.DoCharge?
    ensures LotsFollow(x, y, step, orders)
  {}

  lemma SameLots(x: Books, y: Books, step: Step, orders: set<OrderId>)
    requires Clear(x, orders) ==>
      y.lots == x.lots && y.allocs == x.allocs && y.debts == x.debts && y.debits == x.debits
    requires step.op.DoPay? && step.op.order in x.orders ==> step.op.order in y.lots
    ensures LotsFollow(x, y, step, orders)
  {}

  lemma ExpiryLots(x: Books, y: Books, step: Step, orders: set<OrderId>)
    requires !step.op.DoPay? && y == x.(lots := ExpireLapsed(x.lots, step.now))
    ensures LotsFollow(x, y, step, orders)
  {}

  lemma NewLot(x: Books, y: Books, o: OrderId, l: Lot, id: nat, collected: int, step: Step, orders: set<OrderId>)
    requires o in x.orders && o !in x.lots && step.op.DoPay? && step.op.order == o
    requires l == FundedLot(AfterPayment(x.orders[o]), id, step.op.expiresAt, step.now)
    requires Clear(x, orders) ==> collected == 0
    requires collected == 0 ==> y.debts == x.debts && y.allocs == x.allocs && y.debits == x.debits
    requires y.lots == x.lots[o := l.(remaining := l.remaining - collected)]
    ensures LotsFollow(x, y, step, orders)
  {}

  /** A claim finds in an untapped lot all it asks for. */
  lemma ClaimedLots(x: Books, y: Books, o: OrderId, delta: int, dispute: bool, step: Step, orders: set<OrderId>)
    requires Claimed(BeforeClaim(x, o, delta, step.now), y, o, delta, dispute) && step.op.DoClaim? && step.op.order == o
    requires o in x.orders && o in y.orders && delta == y.orders[o].refunded - x.orders[o].refunded && 0 <= delta
    requires y.orders[o].refunded <= x.orders[o].pack
    requires o in x.lots && Untapped(x, o) ==> HoldsRest(x, o)
    requires o in y.lots ==> 0 <= y.lots[o].remaining && 0 <= y.lots[o].expired
    ensures LotsFollow(x, y, step, orders)
  {
    if Clear(x, orders) && o in orders {
      assert Untapped(x, o);
      ClaimedLot(x, y, o, delta, dispute, step.now);
      hide Claimed, HoldsRest;
    }
  }

  lemma ClaimedLot(x: Books, y: Books, o: OrderId, delta: int, dispute: bool, now: int)
    requires Claimed(BeforeClaim(x, o, delta, now), y, o, delta, dispute)
    requires o in x.orders && o in y.orders && delta == y.orders[o].refunded - x.orders[o].refunded && 0 <= delta
    requires y.orders[o].refunded <= x.orders[o].pack && o !in x.debts && (o in x.lots ==> HoldsRest(x, o))
    requires o in y.lots ==> 0 <= y.lots[o].remaining && 0 <= y.lots[o].expired
    ensures y.allocs == x.allocs && y.debits == x.debits && y.debts == x.debts && y.lots.Keys == x.lots.Keys
    ensures forall q :: q in x.lots && q != o ==> y.lots[q] == x.lots[q]
    ensures o in x.lots ==> LotFollows(x.lots[o], y.lots[o], now)
  {
    assert y.debts.Keys == x.debts.Keys;
  }

  // ---- a refund of something else ----------------------------------------------------------------------

  /** The lots of untapped orders hold what cash refunds left of them. */
  ghost predicate LotsHoldRest(b: Books, orders: set<OrderId>) {
    forall o :: o in orders && o in b.lots && Untapped(b, o) ==> o in b.orders && HoldsRest(b, o)
  }

  lemma LotsAreOkFor(ledger: Ledger, orders: set<OrderId>)
    requires ledger.Valid()
    ensures LotsHoldRest(ledger.Tables(), orders)
  {
    forall o | o in orders && o in ledger.lots && Untapped(ledger.Tables(), o)
      ensures o in ledger.orders && HoldsRest(ledger.Tables(), o)
    {
      ledger.LotsAreOk(o);
    }
  }

  /** A refund with nothing owed draws nothing, and leaves untapped lots alone. */
  lemma RefundLots(ledger: Ledger, b: Books, s: Side, key: Key, restored: int, gain: int, step: Step,
                   orders: set<OrderId>)
    requires ledger.Valid() && step.op.DoRefund? && LotsHoldRest(b, orders)
    requires RefundDone(b.(lots := ExpireLapsed(b.lots, step.now)), ledger.Tables(), key, restored)
    requires Repaid(b, s, ledger.Tables(), ledger.AccountSide(), ledger.Here(step.now), 0, gain)
    ensures LotsFollow(b, ledger.Tables(), step, orders)
  {
    hide Ledger.Valid;
    ledger.DebtsAreOk();
    LotsAreOkFor(ledger, orders);
    NothingToCollect(b, ledger.debtQueue, ledger.debtQueue, orders);
    if Clear(b, orders) {
      hide Clear, Repaid, LotsHoldRest, RefundDone, Undisturbed;
      RefundStaysClear(b, s, ledger.Tables(), ledger.AccountSide(), key, restored, ledger.Here(step.now), gain, orders);
      RefundedLots(b, ledger.Tables(), key, restored, ledger.debtQueue, step.now, orders);
    }
  }

  lemma RefundStaysClear(b: Books, s: Side, y: Books, t: Side, key: Key, restored: int, c: Scene, gain: int,
                         orders: set<OrderId>)
    requires RefundDone(b.(lots := ExpireLapsed(b.lots, c.asOf)), y, key, restored)
    requires Repaid(b, s, y, t, c, 0, gain) && UncollectedSum(c.debts, b.debts) == 0 && Clear(b, orders)
    requires Queued(c.debts, y.debts) && Bounded(y.allocs) && forall o :: o in y.debts ==> 0 <= Uncollected(y.debts[o])
    ensures Clear(y, orders) && |y.allocs| == |b.allocs|
    ensures Undisturbed(b, y, c.debts, c.asOf)
  {
    UncollectedSumBound(c.debts, y.debts);
    forall o | o in orders ensures Untapped(y, o) {
      assert Untapped(b, o);
      SumShrinks(b.allocs, y.allocs, o);
    }
  }

  lemma RefundedLots(b: Books, y: Books, key: Key, restored: int, q: seq<OrderId>, now: int, orders: set<OrderId>)
    requires RefundDone(b.(lots := ExpireLapsed(b.lots, now)), y, key, restored) && Undisturbed(b, y, q, now)
    requires LotsHoldRest(b, orders) && LotsHoldRest(y, orders) && Clear(b, orders) && Clear(y, orders)
    ensures y.debts.Keys == b.debts.Keys && y.lots.Keys == b.lots.Keys
    ensures forall k: Key :: k.Product? && k in y.debits ==> k in b.debits
    ensures forall o :: o in orders && o in b.lots ==> LotFollows(b.lots[o], y.lots[o], now)
  {
    forall o | o in orders && o in b.lots ensures o in y.lots && LotFollows(b.lots[o], y.lots[o], now) {
      assert Untapped(b, o) && Untapped(y, o);
      assert SameLotTerms(ExpireLapsed(b.lots, now)[o], y.lots[o]);
    }
  }

  /** Refunding draws never leaves more drawn on a lot. */
  lemma {:induction false} SumShrinks(s: seq<Alloc>, t: seq<Alloc>, o: OrderId)
    requires |s| == |t| && Bounded(t) && (forall i :: 0 <= i < |s| ==> SameDraw(s[i], t[i]))
    ensures 0 <= Sum(t, OnLot(o)) <= Sum(s, OnLot(o))
  {
    if |s| > 0 {
      var n := |s| - 1;
      assert SameDraw(s[n], t[n]);
      SumShrinks(s[..n], t[..n], o);
    }
  }

  lemma ClaimCash(x: Books, y: Books, o: OrderId, dispute: bool, refunded: int)
    requires o in x.orders && OrderOk(x.orders[o]) && Claimable(x.orders[o], dispute, refunded)
    requires y.orders == x.orders[o := OrderAfter(x.orders[o], dispute, refunded)] && y.allocs == x.allocs
    requires y.debits == x.debits
    ensures CashStep(x.orders, y.orders, DoClaim(o, dispute, refunded)) && HistoryKept(x, y)
  {
    var f := Fact(dispute, refunded);
    assert [f][..0] == [];
    assert LargestClaim([f], x.orders[o].price, x.orders[o].cash) == y.orders[o].cash;
  }

  lemma RegisterCash(x: Books, y: Books, o: OrderId, pack: int, price: int)
    requires y == x.(orders := if o !in x.orders && 0 < pack <= MAX_ATOMS && 0 < price
                               then x.orders[o := Order(pack, price, 0, 0, Pending)] else x.orders)
    ensures CashStep(x.orders, y.orders, DoRegister(o, pack, price)) && HistoryKept(x, y)
  {}

  lemma NoClaimCash(x: Books, o: OrderId, dispute: bool, refunded: int)
    requires o !in x.orders || !Claimable(x.orders[o], dispute, refunded)
    ensures CashStep(x.orders, x.orders, DoClaim(o, dispute, refunded)) && HistoryKept(x, x)
  {}

  lemma ChargeHistory(x: Books, y: Books, key: Key, pool: seq<Fund>, amount: int, epoch: nat)
    requires ChargeDrew(x, y, key, pool, amount, epoch) && key !in x.debits
    ensures HistoryKept(x, y) && y.orders == x.orders
  {}

  lemma SameCash(x: map<OrderId, Order>, y: map<OrderId, Order>, op: Op)
    requires !op.DoClaim? && !op.DoRegister? && y.Keys == x.Keys && forall o :: o in x ==>
      TermsOf(y, o) == TermsOf(x, o)
    ensures CashStep(x, y, op)
  {}

  lemma HistoryFrame(x: Books, t: Books, y: Books)
    requires HistoryKept(t, y) && t.allocs == x.allocs && t.debits == x.debits
    requires forall o :: o in x.orders ==>
      o in t.orders && t.orders[o].pack == x.orders[o].pack && t.orders[o].price == x.orders[o].price
    ensures HistoryKept(x, y)
  {}

  /** A step that draws and returns nothing. */
  lemma QuietStep(x: Books, y: Books, op: Op)
    requires y.allocs == x.allocs && y.debits == x.debits && !op.DoClaim? && !op.DoRegister?
    requires y.orders.Keys == x.orders.Keys
    requires forall o :: o in x.orders ==> TermsOf(y.orders, o) == TermsOf(x.orders, o)
    ensures HistoryKept(x, y) && CashStep(x.orders, y.orders, op)
  {}

  lemma KeptCash(x: Books, y: Books)
    requires Kept({}, x, y)
    ensures y.orders == x.orders
  {}

  lemma ClaimHistory(x: Books, y: Books, o: OrderId, delta: int, dispute: bool, now: int)
    requires Claimed(BeforeClaim(x, o, delta, now), y, o, delta, dispute)
    ensures y.allocs == x.allocs && y.debits == x.debits
  {}

  /** Over any run every transaction boundary is valid, nothing recorded is rewritten, debts queue in the
      order in which they arose, the balance is what the log says, and cash facts count as their largest,
      however often and in whatever order they arrive. Unless the balance is raised within an epoch, no
      refund ever fails to fit. */
  method Run(ledger: Ledger, run: seq<Step>) returns (overflow: bool)
    requires ledger.Valid() && forall i :: 0 <= i < |run| && run[i].op.DoGrant? ==> run[i].op.monthly <= MAX_ATOMS
    modifies ledger
    ensures ledger.Valid() && HistoryKept(old(ledger.Tables()), ledger.Tables())
    ensures old(ledger.log) <= ledger.log && ledger.balance == DeltaSum(ledger.log)
    ensures old(ledger.debtQueue) <= ledger.debtQueue
    ensures CashFollows(old(ledger.orders), ledger.orders, run)
    ensures forall o :: o in ledger.orders ==> o in ledger.lots ==> Accounted(ledger.Tables(), o)
    ensures old(ledger.HasRoom()) && (forall i :: 0 <= i < |run| ==> !run[i].op.DoUpgrade?) ==>
      !overflow && ledger.HasRoom()
  {
    hide Ledger.Valid, HistoryKept, CashStep, CashFollows, Accounted, LotsFollow, Ledger.HasRoom;
    ghost var x := ledger.Tables();
    HistoryRefl(x);
    CashRefl(x.orders);
    var i := 0;
    overflow := false;
    assert run[..0] == [];
    while i < |run|
      invariant 0 <= i <= |run| && ledger.Valid() && HistoryKept(x, ledger.Tables())
      invariant old(ledger.debtQueue) <= ledger.debtQueue
      invariant old(ledger.log) <= ledger.log && CashFollows(x.orders, ledger.orders, run[..i])
      invariant old(ledger.HasRoom()) && (forall j :: 0 <= j < i ==> !run[j].op.DoUpgrade?) ==>
        !overflow && ledger.HasRoom()
    {
      ghost var y := ledger.Tables();
      var failed := Apply(ledger, run[i], {});
      overflow := overflow || failed;
      HistoryTrans(x, y, ledger.Tables());
      CashTrans(x.orders, y.orders, ledger.orders, run, i);
      i := i + 1;
    }
    assert run[..|run|] == run;
    RunEnd(ledger);
  }

  lemma HistoryRefl(x: Books)
    ensures HistoryKept(x, x)
  {}

  lemma CashRefl(x: map<OrderId, Order>)
    ensures CashFollows(x, x, [])
  {}

  lemma CashTrans(x: map<OrderId, Order>, y: map<OrderId, Order>, z: map<OrderId, Order>, run: seq<Step>, i: nat)
    requires i < |run| && CashFollows(x, y, run[..i]) && CashStep(y, z, run[i].op)
    ensures CashFollows(x, z, run[..i + 1])
  {
    assert run[..i + 1][..i] == run[..i];
    forall o ensures TermsOf(z, o) == Story(run[..i + 1], o, TermsOf(x, o)) {
      assert TermsOf(y, o) == Story(run[..i], o, TermsOf(x, o));
    }
  }

  lemma {:induction false} ClaimsAppend(a: seq<Fact>, b: seq<Fact>, price: int, start: int)
    ensures LargestClaim(a + b, price, start) == LargestClaim(b, price, LargestClaim(a, price, start))
  {
    if |b| == 0 {
      assert a + b == a;
    } else {
      ClaimsAppend(a, b[..|b| - 1], price, start);
      assert (a + b)[..|a + b| - 1] == a + b[..|b| - 1];
    }
  }

  /** An order nothing was spent from still has, live or expired, what cash refunds left of it. */
  ghost predicate HoldsRest(b: Books, o: OrderId)
    requires o in b.lots && o in b.orders
  {
    var l := b.lots[o];
    && 0 <= l.remaining && 0 <= l.expired && l.remaining + l.expired == b.orders[o].pack - b.orders[o].refunded
    && (if l.status == Active then l.expired == 0 else l.remaining == 0)
  }

  /** Every atom of a pack is in exactly one place, and its debt is what its collections hold. */
  ghost predicate Accounted(b: Books, o: OrderId)
    requires o in b.lots && o in b.orders
  {
    var l := b.lots[o];
    var r := b.orders[o];
    && l.remaining + l.expired + l.clawed + Released(b, o) + Sum(b.allocs, OnLot(o)) == r.pack
    && Collected(b, o) == Sum(b.allocs, ForDebt(o))
    && 0 <= Collected(b, o) && 0 <= Released(b, o) && Collected(b, o) + Released(b, o) <= Target(b, o)
    && r.refunded == l.clawed + Target(b, o) && 0 < r.price && RoundedUp(r.refunded, r.pack, r.cash, r.price)
    && 0 <= ActiveDebt(b, o) <= Sum(b.allocs, OnLot(o))
    && 0 <= l.remaining <= r.pack - r.refunded
    && (ActiveDebt(b, o) > 0 ==> l.remaining == 0)
    && (r.refunded == r.pack <==> l.status == RefundClosed || l.status == DisputeClosed)
    && (r.refunded == r.pack ==> l.remaining == 0 && l.expired == 0 && ActiveDebt(b, o) == Sum(b.allocs, OnLot(o)))
  }

  lemma BoundaryAccounts(b: Books, o: OrderId)
    requires Core(b, map[], 0, 0) && CashOk(b.orders) && o in b.lots
    requires o in b.orders
    ensures Accounted(b, o)
  {
    hide RoundedUp;
    CoreAt(b, map[], o, 0);
    DebtIsBacked(b, map[], o, o);
    assert OrderOk(b.orders[o]);
  }

  lemma RunEnd(ledger: Ledger)
    requires ledger.Valid()
    ensures ledger.balance == DeltaSum(ledger.log)
    ensures forall o :: o in ledger.orders ==> o in ledger.lots ==> Accounted(ledger.Tables(), o)
  {
    hide Core, Accounted;
    BalanceIsLogged(ledger.log, ledger.balance);
    forall o | o in ledger.orders && o in ledger.lots ensures Accounted(ledger.Tables(), o) {
      BoundaryAccounts(ledger.Tables(), o);
    }
  }
}
