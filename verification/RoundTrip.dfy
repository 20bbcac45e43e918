/** A refund undoes its charge. */
module RoundTrip {
  import opened LedgerTables
  import opened LedgerInvariant
  import opened LedgerSteps
  import opened LedgerBoundary
  import opened DebtCollection
  import opened SubscriptionState
  import opened Spending
  import opened Refunding
  import opened Fefo
  import opened CreditLedger

  /** Whatever may be spent at `now` is still open at `later`. */
  ghost predicate StaysOpen(lots: map<OrderId, Lot>, plan: Plan, now: int, later: int) {
    && now <= later
    && (forall o :: o in lots && Live(lots, o, now) > 0 ==> lots[o].expiresAt > later)
    && (SubscriptionSpendable(plan, now) ==> SubscriptionSpendable(plan, later))
  }

  /** Charging and then refunding, with nothing owed and nothing lapsing in between, restores the
      charged amount and every balance. */
  method ChargeThenRefund(ledger: Ledger, name: string, amount: int, now: int, later: int)
    requires ledger.Valid() && Product(name) !in ledger.debits && 0 < amount <= MAX_ATOMS
    requires amount <= SpendableTotal(ledger.lotQueue, ledger.lots, ledger.plan, ledger.balance, now)
    requires NothingOwed(ledger.debtQueue, ledger.debts, ledger.fundingDebts, ledger.epoch)
    requires StaysOpen(ledger.lots, ledger.plan, now, later)
    modifies ledger
    ensures ledger.Valid() && ledger.balance == old(ledger.balance)
    ensures ledger.lots == ExpireLapsed(old(ledger.lots), later)
    ensures ledger.debts == old(ledger.debts) && ledger.orders == old(ledger.orders)
    ensures ledger.fundingDebts == old(ledger.fundingDebts)
    ensures ledger.debits == old(ledger.debits)[Product(name) := Debit(amount, ledger.epoch, amount, true)]
  {
    hide Ledger.Valid, ChargeDrew, RefundInverts, NothingOwed, AllReturnable, StaysOpen, SpendingOrder, SpendableTotal;
    ghost var b := ledger.Tables();
    ghost var x := b.(lots := ExpireLapsed(b.lots, now));
    ghost var pool := SpendingOrder(ledger.lotQueue, b.lots, ledger.plan, ledger.balance, ledger.epoch, now);
    DrawnIsReturnable(ledger, now, later);
    var outcome, total, restored := ledger.Charge(name, amount, now);
    ghost var y := ledger.Tables();
    ChargeIsReturnable(x, y, Product(name), pool, amount, ledger.epoch, ledger.plan, ledger.balance, later);
    var refund;
    refund, total, restored := ledger.Refund(Product(name), later);
    RefundIsRecorded(y.(lots := ExpireLapsed(y.lots, later)), ledger.Tables(), Product(name), restored);
    hide RefundDone;
    BackWhereItWas(b, x, y, ledger.Tables(), Product(name), pool, amount, ledger.epoch, ledger.plan, now, later);
  }

  /** Every fund a charge may use takes its atoms back later. */
  ghost predicate PoolReturnable(b: Books, pool: seq<Fund>, epoch: nat, plan: Plan, later: int) {
    forall i :: 0 <= i < |pool| ==>
      match pool[i].source
      case Pack(o) => Unencumbered(b, o, later)
      case Subscription(e) => e == epoch && SubscriptionSpendable(plan, later)
  }

  lemma DrawnIsReturnable(ledger: Ledger, now: int, later: int)
    requires ledger.Valid() && StaysOpen(ledger.lots, ledger.plan, now, later)
    ensures PoolReturnable(ledger.Tables().(lots := ExpireLapsed(ledger.lots, now)),
                           SpendingOrder(ledger.lotQueue, ledger.lots, ledger.plan, ledger.balance, ledger.epoch, now),
                           ledger.epoch, ledger.plan, later)
    ensures RowsOk(ledger.Tables().(lots := ExpireLapsed(ledger.lots, now))) && 0 <= ledger.balance <= MAX_ATOMS
    ensures now <= later
  {
    var b := ledger.Tables();
    var packs := LotFunds(ledger.lotQueue, b.lots, now);
    var pool := SpendingOrder(ledger.lotQueue, b.lots, ledger.plan, ledger.balance, ledger.epoch, now);
    CoreLots(b, map[], 0, 0);
    CoreRows(b, map[], 0, 0);
    RowsFrame(b, b.(lots := ExpireLapsed(b.lots, now)));
    LotFundsComplete(ledger.lotQueue, b.lots, now);
    hide Unencumbered, RowsOk;
    forall f | f in packs ensures Unencumbered(b.(lots := ExpireLapsed(b.lots, now)), f.source.lot, later) {
      LiveLotIsFree(b, f.source.lot, ledger.plan, now, later);
    }
    hide Core;
    PlaceAvailable(packs, Fund(Subscription(ledger.epoch), if ledger.plan.window.Until? then ledger.plan.window.time
                               else 0, ledger.balance));
    forall i | 0 <= i < |pool|
      ensures match pool[i].source
              case Pack(o) => Unencumbered(b.(lots := ExpireLapsed(b.lots, now)), o, later)
              case Subscription(e) => e == ledger.epoch && SubscriptionSpendable(ledger.plan, later)
    {
      assert pool[i] in pool;
    }
  }

  lemma LiveLotIsFree(b: Books, o: OrderId, plan: Plan, now: int, later: int)
    requires Core(b, map[], 0, 0) && o in b.lots && Live(b.lots, o, now) > 0 && StaysOpen(b.lots, plan, now, later)
    ensures Unencumbered(b.(lots := ExpireLapsed(b.lots, now)), o, later)
  {
    assert LotOk(b, o) && (o in b.debts ==> DebtOk(b.debts[o]));
  }

  lemma ChargeIsReturnable(x: Books, y: Books, key: Key, pool: seq<Fund>, amount: int, epoch: nat, plan: Plan,
                           balance: int, later: int)
    requires ChargeDrew(x, y, key, pool, amount, epoch) && PoolReturnable(x, pool, epoch, plan, later)
    requires RowsOk(x) && key !in x.debits
    requires balance + Sum(y.allocs, DrawnOnSubscription(key)) <= MAX_ATOMS
    ensures AllReturnable(y, key, epoch, plan, balance, later)
    ensures key in y.debits && y.debits[key] == Debit(amount, epoch, 0, false)
  {
    OldRows(x, key);
    forall i | 0 <= i < |y.allocs| && y.allocs[i].debit == key
      ensures match y.allocs[i].source
              case Pack(o) => Unencumbered(y, o, later)
              case Subscription(e) => e == epoch && SubscriptionSpendable(plan, later)
    {
      assert Pooled(y.allocs[i].source, pool);
    }
  }

  lemma OldRows(x: Books, key: Key)
    requires RowsOk(x) && key !in x.debits
    ensures forall i :: 0 <= i < |x.allocs| ==> x.allocs[i].debit != key
  {
    forall i | 0 <= i < |x.allocs| ensures x.allocs[i].debit != key {
      assert AllocOk(x, i);
    }
  }

  /** A lot that lapses by `later` lent nothing. */
  lemma NothingFrom(x: Books, y: Books, key: Key, pool: seq<Fund>, amount: int, epoch: nat, plan: Plan, later: int,
                    o: OrderId)
    requires ChargeDrew(x, y, key, pool, amount, epoch) && PoolReturnable(x, pool, epoch, plan, later)
    requires RowsOk(x) && key !in x.debits && !Unencumbered(x, o, later)
    ensures Sum(y.allocs, DrawnOnLot(key, o)) == 0
  {
    OldRows(x, key);
    forall i | 0 <= i < |y.allocs| ensures Weight(y.allocs[i], DrawnOnLot(key, o)) == 0 {
      if y.allocs[i].debit == key {
        assert Pooled(y.allocs[i].source, pool);
      }
    }
    SumZero(y.allocs, DrawnOnLot(key, o));
  }

  /** One lot: what the charge took and the refund returned cancel out. */
  lemma LotBack(b: Books, x: Books, y: Books, key: Key, pool: seq<Fund>, amount: int, epoch: nat, plan: Plan, now: int,
                later: int, o: OrderId)
    requires x == b.(lots := ExpireLapsed(b.lots, now)) && RowsOk(x) && key !in x.debits && now <= later && o in b.lots
    requires ChargeDrew(x, y, key, pool, amount, epoch) && PoolReturnable(x, pool, epoch, plan, later)
    ensures o in y.lots
    ensures var l := ExpiredLot(y.lots[o], later);
      l.(remaining := l.remaining + Sum(y.allocs, DrawnOnLot(key, o))) == ExpiredLot(b.lots[o], later)
  {
    if !Unencumbered(x, o, later) {
      NothingFrom(x, y, key, pool, amount, epoch, plan, later, o);
    }
    assert x.lots[o] == ExpiredLot(b.lots[o], now);
  }

  lemma BackWhereItWas(b: Books, x: Books, y: Books, z: Books, key: Key, pool: seq<Fund>, amount: int, epoch: nat,
                       plan: Plan, now: int, later: int)
    requires x == b.(lots := ExpireLapsed(b.lots, now)) && RowsOk(x) && key !in x.debits && now <= later
    requires ChargeDrew(x, y, key, pool, amount, epoch) && key in y.debits && key in z.debits
    requires PoolReturnable(x, pool, epoch, plan, later)
    requires RefundInverts(y.(lots := ExpireLapsed(y.lots, later)), z, key)
    requires z.debits[key] == y.debits[key].(restored := amount, closed := true)
    ensures z.lots == ExpireLapsed(b.lots, later)
    ensures z.debts == b.debts && z.orders == b.orders
    ensures z.debits == b.debits[key := Debit(amount, epoch, amount, true)]
  {
    var t := y.(lots := ExpireLapsed(y.lots, later));
    WholeEnd(t, z.(debits := z.debits[key := y.debits[key]]), key);
    WholeTables(t, z.(debits := z.debits[key := y.debits[key]]), key);
    ChargedTables(x, y, key, pool, amount, epoch);
    hide ChargeDrew, ReturnedWhole, ExpiredLot, RowsOk, PoolReturnable, Sum;
    forall o | o in b.lots ensures z.lots[o] == ExpiredLot(b.lots[o], later) {
      LotBack(b, x, y, key, pool, amount, epoch, plan, now, later, o);
    }
    assert z.lots == ExpireLapsed(b.lots, later);
    SwapBack(z.debits, y.debits, b.debits, key, Debit(amount, epoch, 0, false), Debit(amount, epoch, amount, true));
  }

  lemma SwapBack<K, V>(z: map<K, V>, y: map<K, V>, b: map<K, V>, key: K, v: V, w: V)
    requires key in z && key in y && z[key := y[key]] == y && y == b[key := v] && z[key] == w
    ensures z == b[key := w]
  {
    assert z == z[key := y[key]][key := w];
  }

  lemma RefundIsRecorded(x: Books, y: Books, key: Key, restored: int)
    requires RefundDone(x, y, key, restored)
    ensures key in x.debits && key in y.debits && y.debits[key] == x.debits[key].(restored := restored, closed := true)
  {}

  lemma WholeTables(x: Books, y: Books, key: Key)
    requires ReturnedWhole(x, y, key, |x.allocs|)
    ensures y.orders == x.orders && y.debts == x.debts && y.debits == x.debits && y.lots.Keys == x.lots.Keys
  {}

  lemma ChargedTables(x: Books, y: Books, key: Key, pool: seq<Fund>, amount: int, epoch: nat)
    requires ChargeDrew(x, y, key, pool, amount, epoch)
    ensures y.orders == x.orders && y.debts == x.debts && y.lots.Keys == x.lots.Keys
    ensures y.debits == x.debits[key := Debit(amount, epoch, 0, false)]
  {}
}
