/** What a product refund does over the whole run of its allocations. */
module Refunding {
  import opened Basics
  import opened LedgerTables
  import opened LedgerInvariant
  import opened LedgerSteps
  import opened LedgerBoundary
  import opened Spending
  import opened DebtCollection
  import opened SubscriptionState
  import opened Fefo

  // ---- live funds -------------------------------------------------------------------------------

  lemma {:induction false} LiveSumEnd(q: seq<OrderId>, lots: map<OrderId, Lot>, now: int)
    requires |q| > 0
    ensures LiveSum(q, lots, now) == LiveSum(q[..|q| - 1], lots, now) + Live(lots, q[|q| - 1], now)
  {
    if |q| > 1 {
      LiveSumEnd(q[1..], lots, now);
      assert q[1..][..|q| - 2] == q[..|q| - 1][1..];
    }
  }

  /** Expiry moves atoms within a lot. */
  lemma {:induction false} ExpireHolds(q: seq<OrderId>, lots: map<OrderId, Lot>, now: int)
    ensures HoldSum(q, ExpireLapsed(lots, now)) == HoldSum(q, lots)
  {
    if |q| > 0 {
      ExpireHolds(q[..|q| - 1], lots, now);
    }
  }

  /** Once lapsed lots are expired, everything a lot holds is live. */
  lemma {:induction false} AllLive(q: seq<OrderId>, lots: map<OrderId, Lot>, now: int)
    requires NoneLapsed(lots, now) && forall o :: o in lots && lots[o].status != Active ==> lots[o].remaining == 0
    ensures LiveSum(q, lots, now) == LotSum(q, lots)
  {
    if |q| > 0 {
      LiveSumEnd(q, lots, now);
      AllLive(q[..|q| - 1], lots, now);
    }
  }

  lemma CoreActiveDebts(b: Books, busy: Unwinding, at: OrderId, slack: int)
    requires Core(b, busy, at, slack)
    ensures forall o :: o in b.debts ==> 0 <= ActiveDebt(b, o)
  {
    forall o | o in b.debts ensures 0 <= ActiveDebt(b, o) {
      assert DebtOk(b.debts[o]);
    }
  }

  lemma CoreLots(b: Books, busy: Unwinding, at: OrderId, slack: int)
    requires Core(b, busy, at, slack)
    ensures slack == 0 ==> forall o :: o in b.lots && o !in busy ==>
      b.lots[o].remaining <= b.lots[o].original <= MAX_ATOMS
    ensures forall o :: o in b.lots && b.lots[o].status != Active ==> b.lots[o].remaining == 0
    ensures forall o :: o in b.lots ==> 0 <= b.lots[o].remaining
  {
    forall o | o in b.lots
      ensures (b.lots[o].status != Active ==> b.lots[o].remaining == 0) && 0 <= b.lots[o].remaining
      ensures o !in busy && slack == 0 ==> b.lots[o].remaining <= b.lots[o].original <= MAX_ATOMS
    {
      assert LotOk(b, o) && OrderOk(b.orders[o]);
      if o !in busy && slack == 0 {
        DebtIsBacked(b, busy, at, o);
      }
    }
  }

  // ---- what a refund does -------------------------------------------------------------------------

  /** From `x` to `y` the open debit `key` was refunded: every row of it was returned whole, it is now
      closed with `restored` atoms to its name, and no other product operation, cash fact, lot term or
      debt target changed. */
  ghost predicate RefundDone(x: Books, y: Books, key: Key, restored: int) {
    && key in x.debits && key in y.debits && 0 <= restored <= x.debits[key].amount
    && y.debits[key] == x.debits[key].(restored := restored, closed := true)
    && RefundProgress(x, y.(debits := y.debits[key := x.debits[key]]), key, |x.allocs|)
  }

  /** And every source regained exactly what was drawn on it, and nothing else moved. */
  ghost predicate RefundInverts(x: Books, y: Books, key: Key) {
    && key in x.debits && key in y.debits
    && ReturnedWhole(x, y.(debits := y.debits[key := x.debits[key]]), key, |x.allocs|)
  }

  // ---- when a refund does not fit ------------------------------------------------------------------

  /** No lot the debit drew on has debt to unwind. */
  ghost predicate DebtFree(b: Books, key: Key) {
    forall i :: 0 <= i < |b.allocs| && b.allocs[i].debit == key && b.allocs[i].source.Pack? ==>
      ActiveDebt(b, b.allocs[i].source.lot) == 0
  }

  /** The subscription would take back what the debit drew on it, and cannot hold it. */
  ghost predicate TooMuch(b: Books, key: Key, epoch: nat, plan: Plan, balance: int, now: int) {
    SubscriptionSpendable(plan, now) && balance + Sum(b.allocs, DrawnInEpoch(key, epoch)) > MAX_ATOMS
  }

  /** A refund loop in front of row `i`: the balance has not moved before the row of this epoch, and past
      it the row has fitted. */
  ghost predicate FitsSoFar(x: Books, key: Key, i: int, epoch: nat, plan: Plan, start: int, balance: int, now: int) {
    && 0 <= i <= |x.allocs|
    && var drawn := Sum(x.allocs[..i], DrawnInEpoch(key, epoch));
    && 0 <= drawn && (drawn == 0 ==> balance == start) && (drawn > 0 ==> !TooMuch(x, key, epoch, plan, start, now))
  }

  lemma SameFate(x: Books, y: Books, key: Key, epoch: nat, plan: Plan, balance: int, now: int)
    requires y.allocs == x.allocs && y.debts == x.debts
    ensures DebtFree(y, key) <==> DebtFree(x, key)
    ensures TooMuch(y, key, epoch, plan, balance, now) <==> TooMuch(x, key, epoch, plan, balance, now)
  {}

  lemma OneRowEach(b: Books)
    requires UsageOk(b)
    ensures RowPerSource(b.allocs)
  {}

  lemma FitsStart(x: Books, key: Key, epoch: nat, plan: Plan, start: int, now: int)
    ensures FitsSoFar(x, key, 0, epoch, plan, start, start, now)
  {
    assert x.allocs[..0] == [];
  }

  lemma FitsOther(x: Books, key: Key, i: nat, epoch: nat, plan: Plan, start: int, balance: int, now: int)
    requires FitsSoFar(x, key, i, epoch, plan, start, balance, now) && i < |x.allocs| && x.allocs[i].debit != key
    ensures FitsSoFar(x, key, i + 1, epoch, plan, start, balance, now)
  {
    SumNext(x.allocs, i, DrawnInEpoch(key, epoch));
  }

  /** The one row of this epoch is all the debit drew on it. */
  lemma FitsAt(x: Books, key: Key, i: nat, epoch: nat, plan: Plan, start: int, balance: int, now: int)
    requires FitsSoFar(x, key, i, epoch, plan, start, balance, now) && RowPerSource(x.allocs) && key.Product?
    requires i < |x.allocs| && x.allocs[i].debit == key && x.allocs[i].source == Subscription(epoch)
    ensures balance == start && Sum(x.allocs, DrawnInEpoch(key, epoch)) == x.allocs[i].amount
    ensures TooMuch(x, key, epoch, plan, start, now)
       <==> SubscriptionSpendable(plan, now) && start + x.allocs[i].amount > MAX_ATOMS
  {
    OnlyRow(x.allocs, key, i, epoch, i);
    OnlyRow(x.allocs, key, i, epoch, |x.allocs|);
    assert x.allocs[..|x.allocs|] == x.allocs;
  }

  lemma {:induction false} OnlyRow(s: seq<Alloc>, key: Key, i: nat, epoch: nat, n: nat)
    requires RowPerSource(s) && key.Product? && i < |s| && s[i].debit == key && s[i].source == Subscription(epoch)
    requires n <= |s|
    ensures Sum(s[..n], DrawnInEpoch(key, epoch)) == if i < n then s[i].amount else 0
  {
    if n > 0 {
      OnlyRow(s, key, i, epoch, n - 1);
      SumNext(s, n - 1, DrawnInEpoch(key, epoch));
    }
  }

  /** The next row goes back, or is the one that does not fit. */
  lemma FitsRow(x: Books, t: Books, key: Key, i: nat, epoch: nat, plan: Plan, start: int, balance: int, now: int,
                after: int, failed: bool)
    requires FitsSoFar(x, key, i, epoch, plan, start, balance, now) && RowPerSource(x.allocs) && key.Product?
    requires i < |x.allocs| && x.allocs[i].debit == key && 0 < x.allocs[i].amount && x.allocs[i].refunded == 0
    requires DebtFree(x, key) && RefundProgress(x, t, key, i) && Core(t, map[], 0, 0)
    requires ReturnFate(t, x.allocs[i].source, x.allocs[i].amount, epoch, plan, now, balance, after, failed)
    ensures failed ==> TooMuch(x, key, epoch, plan, start, now)
    ensures !failed ==> FitsSoFar(x, key, i + 1, epoch, plan, start, after, now)
  {
    SumNext(x.allocs, i, DrawnInEpoch(key, epoch));
    if x.allocs[i].source.Pack? { StaysDebtFree(x, t, key, i, i); }
    hide Core, RefundProgress, DebtFree;
    if x.allocs[i].source == Subscription(epoch) {
      FitsAt(x, key, i, epoch, plan, start, balance, now);
    }
  }

  lemma FitsEnd(x: Books, key: Key, epoch: nat, plan: Plan, start: int, balance: int, now: int)
    requires FitsSoFar(x, key, |x.allocs|, epoch, plan, start, balance, now) && start <= MAX_ATOMS
    ensures !TooMuch(x, key, epoch, plan, start, now)
  {
    assert x.allocs[..|x.allocs|] == x.allocs;
  }

  /** A refund never adds active debt. */
  lemma StaysDebtFree(x: Books, y: Books, key: Key, i: int, j: nat)
    requires RefundProgress(x, y, key, i) && DebtFree(x, key) && Core(y, map[], 0, 0)
    requires j < |x.allocs| && x.allocs[j].debit == key && x.allocs[j].source.Pack?
    ensures ActiveDebt(y, x.allocs[j].source.lot) == 0
  {
    var o := x.allocs[j].source.lot;
    if o in y.debts { assert DebtOk(y.debts[o]); }
  }

  // ---- what a refund is sure to give back ---------------------------------------------------------

  /** What returning `n` atoms to a source makes available whatever else the account owes: all of them when the
      subscription takes them back, and in a live lot all that the debt of its own order does not claim. */
  function Assured(b: Books, source: Source, n: int, epoch: nat, plan: Plan, asOf: int): int {
    match source
    case Subscription(e) => if e == epoch && SubscriptionSpendable(plan, asOf) then n else 0
    case Pack(o) =>
      if o in b.lots && b.lots[o].status == Active && b.lots[o].expiresAt > asOf then Max(0, n - ActiveDebt(b, o))
      else 0
  }

  /** The same for the first `i` rows of a debit. */
  function AssuredSum(b: Books, key: Key, i: nat, epoch: nat, plan: Plan, asOf: int): int
    requires i <= |b.allocs|
  {
    if i == 0 then 0
    else AssuredSum(b, key, i - 1, epoch, plan, asOf)
         + (if b.allocs[i - 1].debit == key
            then Assured(b, b.allocs[i - 1].source, b.allocs[i - 1].amount, epoch, plan, asOf) else 0)
  }

  /** From `x` to `y`, `n` atoms were returned to `source` and `back` of them became available. Debt of the
      order of a lot is forgiven first, as far as the atoms reach. */
  ghost predicate Yields(x: Books, y: Books, source: Source, n: int, back: int, epoch: nat, plan: Plan, asOf: int) {
    && Assured(x, source, n, epoch, plan, asOf) <= back
    && (source.Subscription? ==> back == Assured(x, source, n, epoch, plan, asOf))
    && y.debts.Keys == x.debts.Keys
    && (forall o :: o in x.debts ==>
          y.debts[o].target == x.debts[o].target && x.debts[o].released <= y.debts[o].released)
    && (source.Pack? ==> Released(y, source.lot) == Released(x, source.lot) + Min(n, ActiveDebt(x, source.lot)))
  }

  /** Expiry first changes nothing about it. */
  lemma YieldAfterExpiry(b: Books, t: Books, y: Books, o: OrderId, n: int, back: int, epoch: nat, plan: Plan, asOf: int)
    requires o in b.lots && Yields(t, y, Pack(o), n, back, epoch, plan, asOf)
    requires t == if b.lots[o].status == Active && b.lots[o].expiresAt <= asOf then Expire(b, o) else b
    ensures Yields(b, y, Pack(o), n, back, epoch, plan, asOf)
  {}

  /** Relieving the order's debt and returning the rest. */
  lemma ReliefYields(x: Books, y: Books, o: OrderId, busy: set<OrderId>, n: int, relief: int, back: int, epoch: nat,
                     plan: Plan, asOf: int)
    requires Kept(busy, x, y) && o in x.lots && relief == Max(0, Min(n, ActiveDebt(x, o))) && 0 <= ActiveDebt(x, o)
    requires 0 < n && 0 <= back && (x.lots[o].status == Active ==> n - relief <= back)
    requires Released(y, o) == Released(x, o) + relief
    ensures Yields(x, y, Pack(o), n, back, epoch, plan, asOf)
  {
    hide KeptAllocs;
  }

  /** Crediting the subscription. */
  lemma CreditYields(x: Books, y: Books, busy: set<OrderId>, source: Source, n: int, back: int, epoch: nat, plan: Plan,
                     asOf: int)
    requires Kept(busy, x, y) && source.Subscription?
    requires back == if source.epoch == epoch && SubscriptionSpendable(plan, asOf) then n else 0
    ensures Yields(x, y, source, n, back, epoch, plan, asOf)
  {}

  /** Marking the row leaves debts and lots alone. */
  lemma YieldsMarked(b: Books, y: Books, z: Books, source: Source, n: int, back: int, epoch: nat, plan: Plan, asOf: int)
    requires Yields(b, y, source, n, back, epoch, plan, asOf) && z.debts == y.debts
    ensures Yields(b, z, source, n, back, epoch, plan, asOf)
  {}

  /** A refund in front of row `i`: `restored` covers what the rows before it assure, and the debt of every lot
      is forgiven as far as what they drew on it reaches. */
  ghost predicate MadeGood(x: Books, y: Books, key: Key, i: int, restored: int, epoch: nat, plan: Plan, asOf: int) {
    && 0 <= i <= |x.allocs| && AssuredSum(x, key, i, epoch, plan, asOf) <= restored
    && forall o :: o in x.lots ==>
         Min(Target(x, o), Released(x, o) + Sum(x.allocs[..i], DrawnOnLot(key, o))) <= Released(y, o)
  }

  lemma MadeGoodStart(x: Books, key: Key, epoch: nat, plan: Plan, asOf: int)
    requires forall o :: o in x.debts ==> 0 <= ActiveDebt(x, o)
    ensures MadeGood(x, x, key, 0, 0, epoch, plan, asOf)
  {
    assert x.allocs[..0] == [];
  }

  lemma MadeGoodClosed(x: Books, y: Books, z: Books, key: Key, restored: int, epoch: nat, plan: Plan, asOf: int)
    requires MadeGood(x, y, key, |x.allocs|, restored, epoch, plan, asOf) && z.debts == y.debts
    ensures MadeGood(x, z, key, |x.allocs|, restored, epoch, plan, asOf)
  {}

  lemma {:induction false} AssuredExpired(b: Books, x: Books, key: Key, i: nat, epoch: nat, plan: Plan, asOf: int)
    requires x == b.(lots := ExpireLapsed(b.lots, asOf)) && i <= |b.allocs|
    ensures AssuredSum(x, key, i, epoch, plan, asOf) == AssuredSum(b, key, i, epoch, plan, asOf)
  {
    if i > 0 { AssuredExpired(b, x, key, i - 1, epoch, plan, asOf); }
  }

  /** Expiry before the refund assures no less. */
  lemma MadeGoodExpired(b: Books, x: Books, y: Books, key: Key, restored: int, epoch: nat, plan: Plan, asOf: int)
    requires x == b.(lots := ExpireLapsed(b.lots, asOf)) && MadeGood(x, y, key, |x.allocs|, restored, epoch, plan, asOf)
    ensures MadeGood(b, y, key, |b.allocs|, restored, epoch, plan, asOf)
  {
    AssuredExpired(b, x, key, |b.allocs|, epoch, plan, asOf);
    hide AssuredSum, Sum;
  }

  lemma MadeGoodOther(x: Books, y: Books, key: Key, i: nat, restored: int, epoch: nat, plan: Plan, asOf: int)
    requires MadeGood(x, y, key, i, restored, epoch, plan, asOf) && i < |x.allocs| && x.allocs[i].debit != key
    ensures MadeGood(x, y, key, i + 1, restored, epoch, plan, asOf)
  {
    forall o | o in x.lots
      ensures Sum(x.allocs[..i + 1], DrawnOnLot(key, o)) == Sum(x.allocs[..i], DrawnOnLot(key, o))
    {
      SumNext(x.allocs, i, DrawnOnLot(key, o));
    }
  }

  /** What a source assures does not shrink while a refund runs. */
  lemma AssuredGrows(x: Books, t: Books, key: Key, i: int, source: Source, n: int, epoch: nat, plan: Plan, asOf: int)
    requires RefundProgress(x, t, key, i)
    requires forall o :: o in x.lots && o in t.lots ==>
      t.lots[o].expiresAt == x.lots[o].expiresAt && (t.lots[o].status == x.lots[o].status
                                                     || x.lots[o].expiresAt <= asOf)
    ensures Assured(x, source, n, epoch, plan, asOf) <= Assured(t, source, n, epoch, plan, asOf)
  {}

  lemma MadeGoodStep(x: Books, t: Books, y: Books, key: Key, i: nat, restored: int, back: int, epoch: nat, plan: Plan,
                     asOf: int)
    requires RefundProgress(x, t, key, i) && MadeGood(x, t, key, i, restored, epoch, plan, asOf) && i < |x.allocs|
    requires forall o :: o in x.lots && o in t.lots ==>
      t.lots[o].expiresAt == x.lots[o].expiresAt && (t.lots[o].status == x.lots[o].status
                                                     || x.lots[o].expiresAt <= asOf)
    requires x.allocs[i].debit == key && 0 < x.allocs[i].amount
    requires Yields(t, y, x.allocs[i].source, x.allocs[i].amount, back, epoch, plan, asOf)
    ensures MadeGood(x, y, key, i + 1, restored + back, epoch, plan, asOf)
  {
    AssuredGrows(x, t, key, i, x.allocs[i].source, x.allocs[i].amount, epoch, plan, asOf);
    hide Assured, Sum;
    forall o | o in x.lots
      ensures Min(Target(x, o), Released(x, o) + Sum(x.allocs[..i + 1], DrawnOnLot(key, o))) <= Released(y, o)
    {
      SumNext(x.allocs, i, DrawnOnLot(key, o));
    }
  }

  /** A live subscription takes back at least all the debit drew on it in this epoch. */
  lemma {:induction false} AssuredEpoch(b: Books, key: Key, i: nat, epoch: nat, plan: Plan, asOf: int)
    requires SubscriptionSpendable(plan, asOf) && i <= |b.allocs| && RowsOk(b)
    ensures Sum(b.allocs[..i], DrawnInEpoch(key, epoch)) <= AssuredSum(b, key, i, epoch, plan, asOf)
  {
    if i > 0 {
      AssuredEpoch(b, key, i - 1, epoch, plan, asOf);
      SumNext(b.allocs, i - 1, DrawnInEpoch(key, epoch));
    }
  }

  // ---- a refund as the inverse of its charge ------------------------------------------------------

  /** Rows of `key` before `i` went back whole and nothing else moved: each lot regained what
      they drew on it. */
  ghost predicate ReturnedWhole(x: Books, y: Books, key: Key, i: int) {
    && 0 <= i <= |x.allocs| == |y.allocs|
    && y.orders == x.orders && y.debts == x.debts && y.debits == x.debits && y.lots.Keys == x.lots.Keys
    && (forall o :: o in x.lots ==>
          y.lots[o] == x.lots[o].(remaining := x.lots[o].remaining + Sum(x.allocs[..i], DrawnOnLot(key, o))))
    && (forall j :: 0 <= j < |x.allocs| ==>
          y.allocs[j] == if x.allocs[j].debit == key && j < i then x.allocs[j].(refunded := x.allocs[j].amount)
            else x.allocs[j])
  }

  lemma SumNext(s: seq<Alloc>, i: nat, p: Pick)
    requires i < |s|
    ensures Sum(s[..i + 1], p) == Sum(s[..i], p) + Weight(s[i], p)
  {
    assert s[..i + 1][..i] == s[..i];
  }

  lemma WholeStart(x: Books, key: Key)
    ensures ReturnedWhole(x, x, key, 0)
  {
    assert x.allocs[..0] == [];
  }

  lemma WholeSkip(x: Books, y: Books, key: Key, i: nat)
    requires ReturnedWhole(x, y, key, i) && i < |x.allocs|
    requires x.allocs[i].debit != key
    ensures ReturnedWhole(x, y, key, i + 1)
  {
    forall o | o in x.lots
      ensures Sum(x.allocs[..i + 1], DrawnOnLot(key, o)) == Sum(x.allocs[..i], DrawnOnLot(key, o))
    {
      SumNext(x.allocs, i, DrawnOnLot(key, o));
    }
  }

  /** One row returned whole to its source. */
  function GiveBack(y: Books, i: nat): Books
    requires i < |y.allocs| && (y.allocs[i].source.Pack? ==> y.allocs[i].source.lot in y.lots)
  {
    var a := y.allocs[i];
    Mark(if a.source.Pack? then Refill(y, a.source.lot, a.amount) else y, i, a.amount)
  }

  /** The source of row `i` holds it again, and nothing else moved. */
  ghost predicate WentBack(b: Books, y: Books, i: nat)
    requires i < |b.allocs|
  {
    var a := b.allocs[i];
    && (a.source.Pack? ==> a.source.lot in b.lots)
    && y == if a.source.Pack? then Refill(b, a.source.lot, a.amount) else b
  }

  lemma GaveBack(b: Books, y: Books, i: nat)
    requires i < |b.allocs|
    ensures WentBack(b, y, i) ==>
      && (b.allocs[i].source.Pack? ==> b.allocs[i].source.lot in b.lots)
      && i < |y.allocs| && Mark(y, i, b.allocs[i].amount) == GiveBack(b, i)
  {}

  lemma WholeStep(x: Books, y: Books, key: Key, i: nat)
    requires ReturnedWhole(x, y, key, i) && i < |x.allocs|
    requires x.allocs[i].debit == key && x.allocs[i].refunded == 0
    requires x.allocs[i].source.Pack? ==> x.allocs[i].source.lot in y.lots
    ensures y.allocs[i] == x.allocs[i]
    ensures ReturnedWhole(x, GiveBack(y, i), key, i + 1)
  {
    var z := GiveBack(y, i);
    hide Sum;
    forall o | o in x.lots
      ensures z.lots[o] == x.lots[o].(remaining := x.lots[o].remaining + Sum(x.allocs[..i + 1], DrawnOnLot(key, o)))
    {
      SumNext(x.allocs, i, DrawnOnLot(key, o));
    }
  }

  /** Every source of `key` will take back all that was drawn on it. */
  ghost predicate AllReturnable(b: Books, key: Key, epoch: nat, plan: Plan, balance: int, asOf: int) {
    && balance + Sum(b.allocs, DrawnOnSubscription(key)) <= MAX_ATOMS
    && forall i :: 0 <= i < |b.allocs| && b.allocs[i].debit == key ==>
         match b.allocs[i].source
         case Pack(o) => Unencumbered(b, o, asOf)
         case Subscription(e) => e == epoch && SubscriptionSpendable(plan, asOf)
  }

  lemma PrefixAtMost(s: seq<Alloc>, i: nat, p: Pick)
    requires Bounded(s) && i <= |s|
    ensures Sum(s[..i], p) <= Sum(s, p)
    decreases |s| - i
  {
    if i < |s| {
      PrefixAtMost(s, i + 1, p);
      SumNext(s, i, p);
      assert 0 <= s[i].refunded <= s[i].amount;
    } else {
      assert s[..i] == s;
    }
  }

  /** The next row of such a refund is itself returned whole. */
  lemma WholeNext(x: Books, y: Books, key: Key, i: nat, epoch: nat, plan: Plan, balance: int, asOf: int)
    requires AllReturnable(x, key, epoch, plan, balance, asOf) && RowsOk(x)
    requires ReturnedWhole(x, y, key, i) && i < |x.allocs| && x.allocs[i].debit == key
    ensures ReturnsWhole(y, x.allocs[i].source, epoch, plan, balance + Sum(x.allocs[..i], DrawnOnSubscription(key)),
                         x.allocs[i].amount, asOf)
  {
    RowsBounded(x);
    PrefixAtMost(x.allocs, i + 1, DrawnOnSubscription(key));
    SumNext(x.allocs, i, DrawnOnSubscription(key));
  }

  /** Live, debt-free lots do not lapse. */
  lemma ReturnableAfterExpiry(b: Books, key: Key, epoch: nat, plan: Plan, balance: int, now: int)
    requires AllReturnable(b, key, epoch, plan, balance, now)
    ensures AllReturnable(b.(lots := ExpireLapsed(b.lots, now)), key, epoch, plan, balance, now)
  {
    var c := b.(lots := ExpireLapsed(b.lots, now));
    forall i | 0 <= i < |c.allocs| && c.allocs[i].debit == key && c.allocs[i].source.Pack?
      ensures Unencumbered(c, c.allocs[i].source.lot, now)
    {
      assert Unencumbered(b, b.allocs[i].source.lot, now);
    }
  }

  /** A refund loop in front of row `i`: `x` are the tables before it, `y` the tables now. */
  lemma ProgressStart(x: Books, key: Key)
    ensures RefundProgress(x, x, key, 0)
  {}

  lemma ProgressSkip(x: Books, y: Books, key: Key, i: nat)
    requires RefundProgress(x, y, key, i) && i < |x.allocs|
    requires x.allocs[i].debit != key || (key.Product? && x.allocs[i].refunded == x.allocs[i].amount)
    ensures RefundProgress(x, y, key, i + 1)
  {
    forall j | 0 <= j < |x.allocs| ensures SameDraw(x.allocs[j], y.allocs[j]) {}
  }

  /** A row not yet reached is as it was. */
  lemma ProgressAt(x: Books, y: Books, key: Key, i: nat)
    requires RefundProgress(x, y, key, i) && i < |x.allocs| && key.Product?
    requires RowsOk(x)
    ensures i < |y.allocs| && (x.allocs[i].debit == key ==> y.allocs[i] == x.allocs[i])
    ensures 0 <= x.allocs[i].refunded <= x.allocs[i].amount && 0 < x.allocs[i].amount
  {
    assert SameDraw(x.allocs[i], y.allocs[i]) && AllocOk(x, i);
  }

  lemma ProgressCash(x: Books, y: Books, key: Key, i: int)
    requires RefundProgress(x, y, key, i)
    ensures y.orders == x.orders
  {}

  /** Rows of a debit that is not closed are untouched. */
  lemma OpenRows(b: Books, key: Key, i: nat)
    requires UsageOk(b) && key.Product? && key in b.debits && !b.debits[key].closed
    requires i < |b.allocs| && b.allocs[i].debit == key
    ensures b.allocs[i].refunded == 0
  {}

  /** A whole refund in front of row `i`: all drawn so far is restored, and the balance has gained what
      came from it. */
  ghost predicate WholeSoFar(x: Books, y: Books, key: Key, i: int, restored: int, gained: int) {
    && ReturnedWhole(x, y, key, i)
    && restored == Sum(x.allocs[..i], OfDebit(key)) && gained == Sum(x.allocs[..i], DrawnOnSubscription(key))
  }

  lemma WholeSoFarStart(x: Books, key: Key)
    ensures WholeSoFar(x, x, key, 0, 0, 0)
  {
    WholeStart(x, key);
    assert x.allocs[..0] == [];
  }

  /** The next row goes back whole, and the refund stays whole. */
  lemma WholeRow(x: Books, y: Books, key: Key, i: nat, restored: int, gained: int, epoch: nat, plan: Plan, balance: int,
                 asOf: int)
    requires WholeSoFar(x, y, key, i, restored, gained) && AllReturnable(x, key, epoch, plan, balance, asOf)
    requires RowsOk(x)
    requires i < |x.allocs| && x.allocs[i].debit == key && x.allocs[i].refunded == 0
    ensures ReturnsWhole(y, x.allocs[i].source, epoch, plan, balance + gained, x.allocs[i].amount, asOf)
    ensures i < |y.allocs| && y.allocs[i] == x.allocs[i]
    ensures (x.allocs[i].source.Pack? ==> x.allocs[i].source.lot in y.lots)
    ensures WholeSoFar(x, GiveBack(y, i), key, i + 1, restored + x.allocs[i].amount,
                       gained + (if x.allocs[i].source.Subscription? then x.allocs[i].amount else 0))
    ensures GiveBack(y, i).debts == y.debts
  {
    assert AllocOk(x, i);
    WholeNext(x, y, key, i, epoch, plan, balance, asOf);
    WholeStep(x, y, key, i);
    SumNext(x.allocs, i, OfDebit(key));
    SumNext(x.allocs, i, DrawnOnSubscription(key));
  }

  lemma WholeOther(x: Books, y: Books, key: Key, i: nat, restored: int, gained: int)
    requires WholeSoFar(x, y, key, i, restored, gained) && i < |x.allocs| && x.allocs[i].debit != key
    ensures WholeSoFar(x, y, key, i + 1, restored, gained)
  {
    WholeSkip(x, y, key, i);
    SumNext(x.allocs, i, OfDebit(key));
    SumNext(x.allocs, i, DrawnOnSubscription(key));
  }

  /** A row of another debit leaves the loop where it was. */
  lemma OtherRow(x: Books, y: Books, key: Key, i: nat, epoch: nat, plan: Plan, start: int, balance: int, now: int,
                 restored: int)
    requires RefundProgress(x, y, key, i) && i < |x.allocs| && x.allocs[i].debit != key
    ensures RefundProgress(x, y, key, i + 1)
    ensures FitsSoFar(x, key, i, epoch, plan, start, balance, now) ==>
      FitsSoFar(x, key, i + 1, epoch, plan, start, balance, now)
    ensures WholeSoFar(x, y, key, i, restored, balance - start) ==>
      WholeSoFar(x, y, key, i + 1, restored, balance - start)
  {
    ProgressSkip(x, y, key, i);
    hide RefundProgress, FitsSoFar, WholeSoFar;
    if FitsSoFar(x, key, i, epoch, plan, start, balance, now) {
      FitsOther(x, key, i, epoch, plan, start, balance, now);
    }
    if WholeSoFar(x, y, key, i, restored, balance - start) {
      WholeOther(x, y, key, i, restored, balance - start);
    }
  }

  lemma WholeSoFarEnd(x: Books, y: Books, key: Key, restored: int, gained: int)
    requires WholeSoFar(x, y, key, |x.allocs|, restored, gained)
    ensures ReturnedWhole(x, y, key, |x.allocs|)
    ensures restored == Sum(x.allocs, OfDebit(key)) && gained == Sum(x.allocs, DrawnOnSubscription(key))
  {
    assert x.allocs[..|x.allocs|] == x.allocs;
  }

  /** What a refund loop may restore is bounded by its debit. */
  lemma RestoredFits(b: Books, key: Key, i: nat)
    requires UsageOk(b) && RowsOk(b) && key.Product? && key in b.debits && i <= |b.allocs|
    ensures Sum(b.allocs[..i], OfDebit(key)) <= b.debits[key].amount <= MAX_ATOMS
    ensures i == |b.allocs| ==> Sum(b.allocs[..i], OfDebit(key)) == Sum(b.allocs, OfDebit(key)) == b.debits[key].amount
    ensures 0 < b.debits[key].amount && (!b.debits[key].closed ==> b.debits[key].restored == 0)
  {
    assert ProductOk(b, key);
    RowsBounded(b);
    PrefixAtMost(b.allocs, i, OfDebit(key));
    if i == |b.allocs| { assert b.allocs[..i] == b.allocs; }
  }

  lemma NoneRestored(x: Books, key: Key)
    ensures Sum(x.allocs[..0], OfDebit(key)) == 0
  {}

  /** When every row has gone back whole, the debit got back all it took. */
  lemma WholeEnd(x: Books, y: Books, key: Key)
    requires ReturnedWhole(x, y, key, |x.allocs|)
    ensures forall o :: o in x.lots ==>
      y.lots[o] == x.lots[o].(remaining := x.lots[o].remaining + Sum(x.allocs, DrawnOnLot(key, o)))
    ensures Sum(x.allocs[..|x.allocs|], DrawnOnSubscription(key)) == Sum(x.allocs, DrawnOnSubscription(key))
  {
    assert x.allocs[..|x.allocs|] == x.allocs;
  }

  lemma RefundIsDone(x: Books, t: Books, y: Books, key: Key, restored: int)
    requires RefundProgress(x, t, key, |x.allocs|) && key.Product? && key in x.debits
    requires 0 <= restored <= x.debits[key].amount
    requires key in t.debits && t.debits[key] == x.debits[key]
    requires y == t.(debits := t.debits[key := x.debits[key].(restored := restored, closed := true)])
    ensures RefundDone(x, y, key, restored)
    ensures ReturnedWhole(x, t, key, |x.allocs|) ==> RefundInverts(x, y, key)
  {
    assert y.(debits := y.debits[key := x.debits[key]]) == t by {
      assert t.debits[key := x.debits[key]] == t.debits;
    }
  }

  /** A product debit plays no part in the lot and debt equations. */
  lemma CloseKeeps(b: Books, key: Key, restored: int)
    requires Core(b, map[], 0, 0) && key.Product? && key in b.debits
    ensures Core(b.(debits := b.debits[key := b.debits[key].(restored := restored, closed := true)]), map[], 0, 0)
  {
    var c := b.(debits := b.debits[key := b.debits[key].(restored := restored, closed := true)]);
    forall i | 0 <= i < |c.allocs| ensures AllocOk(c, i) { assert AllocOk(b, i); }
    forall q | q in c.lots ensures LotOk(c, q) { assert LotOk(b, q); }
    forall q | q in c.lots ensures Settled(c, q) && Balanced(c, q, 0) { assert Settled(b, q) && Balanced(b, q, 0); }
  }

  /** Debt collection and expiry keep everything else a boundary asks for. */
  lemma KeptBoundary(x: Books, y: Books, debtQueue: seq<OrderId>, lotQueue: seq<OrderId>)
    requires Kept({}, x, y) && UsageOk(x) && QueueSorted(lotQueue, x.lots) && Queued(debtQueue, x.debts)
    requires Listed(lotQueue, x.lots)
    ensures UsageOk(y) && QueueSorted(lotQueue, y.lots) && Queued(debtQueue, y.debts) && Listed(lotQueue, y.lots)
    ensures y.orders == x.orders
  {
    UsageKept(x, y);
    SortedKept(lotQueue, x.lots, y.lots);
    KeptLists({}, x, y, debtQueue, lotQueue, 0);
  }

  /** Projecting expiry over all lots keeps what a boundary asks for. */
  lemma ExpiredBoundary(b: Books, q: seq<OrderId>, now: int)
    requires Core(b, map[], 0, 0) && UsageOk(b) && Listed(q, b.lots) && QueueSorted(q, b.lots)
    ensures var c := b.(lots := ExpireLapsed(b.lots, now));
      && Core(c, map[], 0, 0) && UsageOk(c) && Listed(q, c.lots) && QueueSorted(q, c.lots) && NoneLapsed(c.lots, now)
      && LiveSum(q, c.lots, now) == LiveSum(q, b.lots, now)
  {
    var c := b.(lots := ExpireLapsed(b.lots, now));
    ExpireAllKeeps(b, 0, now);
    hide Core;
    ExpiryIsUnobservable(q, b.lots, now, now);
    UsageFrame(b, c);
    hide UsageOk;
    assert c.lots.Keys == b.lots.Keys;
    SortedKept(q, b.lots, c.lots);
  }

  /** What a charge starts from: funds that cover it, and an opened debit that has drawn nothing. */
  lemma ChargeStarts(b: Books, q: seq<OrderId>, plan: Plan, balance: int, epoch: nat, now: int, key: Key, amount: int)
    requires Core(b, map[], 0, 0) && Listed(q, b.lots) && QueueSorted(q, b.lots) && 0 <= balance <= MAX_ATOMS
    requires key.Product? && key !in b.debits && 0 < amount <= SpendableTotal(q, b.lots, plan, balance, now)
    ensures var pool := SpendingOrder(q, b.lots, plan, balance, epoch, now);
      && PoolOk(pool, b.lots, balance, epoch) && Stocked(pool) && amount <= Available(pool)
      && (!SubscriptionSpendable(plan, now) ==> forall j :: 0 <= j < |pool| ==> pool[j].source.Pack?)
      && Core(OpenDebit(b, key, amount, epoch), map[], 0, 0)
      && Drawing(OpenDebit(b, key, amount, epoch), OpenDebit(b, key, amount, epoch), key, pool, 0, amount, amount)
      && Sum(b.allocs, DrawnOnSubscription(key)) == 0
  {
    CoreRows(b, map[], 0, 0);
    CoreLots(b, map[], 0, 0);
    OpenDebitKeeps(b, 0, key, amount, epoch);
    hide Core;
    SpendingOrderOk(q, b.lots, plan, balance, epoch, now);
    LotFundsOk(q, b.lots, now);
    hide PoolOk, Listed, QueueSorted, Drawing;
    DrawingStart(b, key, SpendingOrder(q, b.lots, plan, balance, epoch, now), amount, epoch);
    NothingDrawn(b, key, DrawnOnSubscription(key));
  }
}
