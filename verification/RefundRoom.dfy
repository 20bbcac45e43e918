/** A refund that does not fit: the one way for a product refund to be turned down by the balance. */
module RefundRoom {
  import opened LedgerTables
  import opened LedgerInvariant
  import opened LedgerBoundary
  import opened DebtCollection
  import opened DebtPriority
  import opened SubscriptionState
  import opened Spending
  import opened Refunding
  import opened Fefo
  import opened CreditLedger

  const FULL := Plan(true, false, Until(100))

  /** An account that owes nothing, in its first epoch, with `balance` atoms. */
  ghost predicate Fresh(ledger: Ledger, balance: int)
    reads ledger
  {
    && ledger.Valid() && ledger.balance == balance && ledger.epoch == 1 && ledger.plan == FULL
    && ledger.lots == map[] && ledger.debts == map[] && ledger.fundingDebts == [] && ledger.lotQueue == []
    && ledger.debtQueue == []
  }

  method FullLedger() returns (ledger: Ledger)
    ensures fresh(ledger) && Fresh(ledger, MAX_ATOMS) && ledger.allocs == [] && ledger.debits == map[]
  {
    hide Ledger.Valid;
    ledger := new Ledger();
    ledger.SetPlan(Plan(true, false, NoWindow));
    UncollectedSumZero(ledger.debtQueue, ledger.debts);
    var collected := ledger.GrantEpoch(MAX_ATOMS, Until(100));
  }

  method SpendOne(ledger: Ledger, key: Key)
    requires Fresh(ledger, MAX_ATOMS) && ledger.allocs == [] && ledger.debits == map[] && key == Product("a")
    modifies ledger
    ensures Fresh(ledger, MAX_ATOMS - 1) && key in ledger.debits && !ledger.debits[key].closed
    ensures DebtFree(ledger.Tables(), key) && TooMuch(ledger.Tables(), key, 1, FULL, MAX_ATOMS, 0)
  {
    hide Ledger.Valid, ChargeDrew, TooMuch, DebtFree, SpendableTotal, SpendingOrder, Sum, Explains, LiveSum,
      FundingCollected;
    FullBalance(ledger.plan);
    ghost var x := ledger.Tables();
    assert ExpireLapsed(map[], 0) == map[];
    assert x.(lots := ExpireLapsed(x.lots, 0)) == x;
    var charged, total, restored := ledger.Charge("a", 1, 0);
    OneDrawn(x, ledger.Tables(), key, ledger.plan);
  }

  /** An atom is spent from a full balance, an upgrade fills the gap, and the atom has nowhere to return. */
  method UpgradeThenRefund() returns (ledger: Ledger, outcome: RefundOutcome)
    ensures ledger.Valid() && outcome == Rejected(BalanceOverflow) && !ledger.HasRoom()
  {
    hide Ledger.Valid, Ledger.HasRoom, TooMuch, DebtFree, NothingOwed, RefundDone, RefundInverts, AllReturnable,
      SpendableTotal, Repaid, Kept;
    var key := Product("a");
    ledger := FullLedger();
    SpendOne(ledger, key);
    OwesNothing(ledger.debtQueue);
    var granted := ledger.GrantUpgrade(1, 0);
    var total, restored;
    outcome, total, restored := ledger.Refund(key, 0);
  }

  lemma FullBalance(plan: Plan)
    requires plan == Plan(true, false, Until(100))
    ensures SpendableTotal([], map[], plan, MAX_ATOMS, 0) == MAX_ATOMS && SubscriptionSpendable(plan, 0)
    ensures SpendingOrder([], map[], plan, MAX_ATOMS, 1, 0) == [Fund(Subscription(1), 100, MAX_ATOMS)]
  {}

  lemma OwesNothing(q: seq<OrderId>)
    requires q == []
    ensures NothingOwed(q, map[], [], 1) && UncollectedSum(q, map[]) == 0
  {}

  lemma OneDrawn(x: Books, y: Books, key: Key, plan: Plan)
    requires x.allocs == [] && x.debits == map[] && x.debts == map[] && x.lots == map[]
    requires plan == Plan(true, false, Until(100))
    requires ChargeDrew(x, y, key, [Fund(Subscription(1), 100, MAX_ATOMS)], 1, 1)
    ensures y.lots == x.lots && Sum(y.allocs, DrawnOnSubscription(key)) == 1 && key in y.debits && !y.debits[key].closed
    ensures y.debts == map[]
    ensures DebtFree(y, key) && TooMuch(y, key, 1, plan, MAX_ATOMS, 0)
  {
    var pool := [Fund(Subscription(1), 100, MAX_ATOMS)];
    assert Draw(pool, 1)[0] == 1 && DrawPick(key, pool[0].source) == DrawnOnSubscription(key);
    forall i | 0 <= i < |y.allocs| ensures y.allocs[i].source == Subscription(1) {
      assert Pooled(y.allocs[i].source, pool);
    }
    SumSame(y.allocs, DrawnOnSubscription(key), DrawnInEpoch(key, 1));
  }

  lemma {:induction false} SumSame(s: seq<Alloc>, p: Pick, q: Pick)
    requires forall i :: 0 <= i < |s| ==> Weight(s[i], p) == Weight(s[i], q)
    ensures Sum(s, p) == Sum(s, q)
  {
    if |s| > 0 {
      SumSame(s[..|s| - 1], p, q);
    }
  }
}
