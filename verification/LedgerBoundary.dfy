/** What holds between transactions, and the steps that take the ledger from one boundary to
    the next: expiry, spending, refunding, funding and cash clawback. */
module LedgerBoundary {
  import opened Basics
  import opened LedgerTables
  import opened LedgerInvariant
  import opened LedgerSteps
  import opened SubscriptionState

  // ---- product operations -----------------------------------------------------------------

  /** A product debit is exactly what its allocations drew; its refund is all or nothing. */
  ghost predicate ProductOk(b: Books, k: Key)
    requires k in b.debits
  {
    var d := b.debits[k];
    && 0 < d.amount <= MAX_ATOMS && d.amount == Sum(b.allocs, OfDebit(k))
    && 0 <= d.restored <= d.amount && (!d.closed ==> d.restored == 0)
  }

  /** A product operation draws on each source at most once. */
  ghost predicate RowPerSource(s: seq<Alloc>) {
    forall i, j :: 0 <= i < j < |s| && s[i].debit.Product? && s[i].debit == s[j].debit ==> s[i].source != s[j].source
  }

  ghost predicate UsageOk(b: Books) {
    && RowPerSource(b.allocs)
    && (forall i :: 0 <= i < |b.allocs| && b.allocs[i].debit.Product? && b.allocs[i].debit in b.debits ==>
          b.allocs[i].refunded == if b.debits[b.allocs[i].debit].closed then b.allocs[i].amount else 0)
    && (forall k :: k in b.debits && k.Product? ==> ProductOk(b, k))
  }

  /** Atoms a cumulative cash refund takes from a pack: its share, rounded up. */
  function CashShare(pack: int, cash: int, price: int): int
    requires 0 < price
  {
    (pack * cash + price - 1) / price
  }

  /** `atoms` is the least whole number of atoms that is at least the share of `cash` in `price`. */
  predicate RoundedUp(atoms: int, pack: int, cash: int, price: int) {
    pack * cash <= atoms * price < pack * cash + price
  }

  ghost predicate CashOk(orders: map<OrderId, Order>) {
    forall o :: o in orders && 0 < orders[o].price ==>
      && RoundedUp(orders[o].refunded, orders[o].pack, orders[o].cash, orders[o].price)
      && (orders[o].status == Disputed ==> orders[o].cash == orders[o].price)
  }

  // ---- lazy expiry ------------------------------------------------------------------------------

  function ExpiredLot(l: Lot, now: int): Lot {
    if l.status == Active && l.expiresAt <= now
    then l.(expired := l.expired + l.remaining, remaining := 0, status := Expired)
    else l
  }

  function ExpireLapsed(lots: map<OrderId, Lot>, now: int): map<OrderId, Lot> {
    map o | o in lots :: ExpiredLot(lots[o], now)
  }

  lemma ExpireAllKeeps(b: Books, at: OrderId, now: int)
    requires Core(b, map[], at, 0)
    ensures Core(b.(lots := ExpireLapsed(b.lots, now)), map[], at, 0)
    ensures NoneLapsed(ExpireLapsed(b.lots, now), now)
  {
    var c := b.(lots := ExpireLapsed(b.lots, now));
    assert c.lots.Keys == b.lots.Keys;
    RowsFrame(b, c);
    forall q | q in c.lots ensures LotOk(c, q) { assert LotOk(b, q); }
    forall q | q in c.lots ensures Settled(c, q) && Balanced(c, q, 0) { assert Settled(b, q) && Balanced(b, q, 0); }
  }

  /** Spendable lot atoms at `now`. */
  function LiveSum(q: seq<OrderId>, lots: map<OrderId, Lot>, now: int): int {
    if |q| == 0 then 0 else Live(lots, q[0], now) + LiveSum(q[1..], lots, now)
  }

  function Live(lots: map<OrderId, Lot>, o: OrderId, now: int): int {
    if o in lots && lots[o].status == Active && lots[o].expiresAt > now then lots[o].remaining else 0
  }

  /** Projecting lazy expiry changes no balance reported then or later. */
  lemma {:induction false} ExpiryIsUnobservable(q: seq<OrderId>, lots: map<OrderId, Lot>, now: int, later: int)
    requires now <= later
    ensures LiveSum(q, ExpireLapsed(lots, now), later) == LiveSum(q, lots, later)
  {
    if |q| > 0 {
      ExpiryIsUnobservable(q[1..], lots, now, later);
    }
  }

  // ---- refunding a product operation -----------------------------------------------------------

  /** Nothing stands between a lot and atoms returned to it: it is live and owes no debt. */
  ghost predicate Unencumbered(b: Books, o: OrderId, asOf: int) {
    o in b.lots && b.lots[o].status == Active && b.lots[o].expiresAt > asOf && ActiveDebt(b, o) == 0
  }

  /** Atoms drawn on `source` all come back to it: the lot is unencumbered, or the
      subscription is still in the epoch it was charged in and has room. */
  ghost predicate ReturnsWhole(b: Books, source: Source, epoch: nat, plan: Plan, balance: int, amount: int, asOf: int) {
    match source
    case Pack(o) => Unencumbered(b, o, asOf)
    case Subscription(e) => e == epoch && SubscriptionSpendable(plan, asOf) && balance + amount <= MAX_ATOMS
  }

  /** Giving `n` atoms back to `source` takes the balance from `start` to `balance`, or fails. It fails when
      the subscription would take them and has no room, never on a lot without debt to unwind. */
  ghost predicate ReturnFate(b: Books, source: Source, n: int, epoch: nat, plan: Plan, asOf: int, start: int,
                             balance: int, failed: bool) {
    match source
    case Pack(o) => ActiveDebt(b, o) == 0 ==> !failed && balance == start
    case Subscription(e) =>
      var taken := e == epoch && SubscriptionSpendable(plan, asOf);
      (failed <==> taken && start + n > MAX_ATOMS) && (taken || balance == start)
  }

  lemma {:induction false} SumExtend(x: seq<Alloc>, y: seq<Alloc>, p: Pick)
    requires |x| <= |y|
    requires forall i :: 0 <= i < |x| ==> Weight(y[i], p) == Weight(x[i], p)
    requires forall i :: |x| <= i < |y| ==> Weight(y[i], p) == 0
    ensures Sum(y, p) == Sum(x, p)
  {
    if |y| > 0 {
      if |x| < |y| {
        SumExtend(x, y[..|y| - 1], p);
      } else {
        SumExtend(x[..|x| - 1], y[..|y| - 1], p);
      }
    }
  }

  /** From `x` to `y`, allocations of `key` before row `i` were refunded whole, no other
      product operation moved, and no cash fact, lot term or debt target changed. */
  ghost predicate RefundProgress(x: Books, y: Books, key: Key, i: int) {
    && y.orders == x.orders && |x.allocs| <= |y.allocs|
    && y.lots.Keys == x.lots.Keys && (forall o :: o in x.lots ==> SameLotTerms(x.lots[o], y.lots[o]))
    && y.debts.Keys == x.debts.Keys
    && (forall o :: o in x.debts ==>
          y.debts[o].target == x.debts[o].target && x.debts[o].released <= y.debts[o].released)
    && (forall j :: 0 <= j < |x.allocs| ==>
          && SameDraw(x.allocs[j], y.allocs[j])
          && (x.allocs[j].debit.Product? ==>
                y.allocs[j].refunded == if x.allocs[j].debit == key && j < i then x.allocs[j].amount
                  else x.allocs[j].refunded))
    && (forall j :: |x.allocs| <= j < |y.allocs| ==> y.allocs[j].debit.Collection?)
    && (forall k: Key :: k.Product? ==> (k in y.debits <==> k in x.debits))
    && (forall k: Key :: k.Product? && k in x.debits && k in y.debits ==> y.debits[k] == x.debits[k])
  }

  lemma ProgressKept(x: Books, y: Books, z: Books, key: Key, i: int)
    requires RefundProgress(x, y, key, i) && Kept({}, y, z)
    ensures RefundProgress(x, z, key, i)
  {
    forall j | 0 <= j < |z.allocs| ensures j < |y.allocs| ==> SameDraw(y.allocs[j], z.allocs[j]) {}
    forall k: Key | k.Product? ensures Protected(k, {}) {}
  }

  lemma ProgressMark(x: Books, y: Books, key: Key, i: nat, n: int)
    requires RefundProgress(x, y, key, i) && i < |x.allocs|
    requires x.allocs[i].debit == key && key.Product? && n == x.allocs[i].amount - x.allocs[i].refunded && 0 <= n
    ensures i < |y.allocs| && y.allocs[i] == x.allocs[i]
    ensures RefundProgress(x, Mark(y, i, n), key, i + 1)
  {
    var z := Mark(y, i, n);
    forall j | 0 <= j < |x.allocs| ensures SameDraw(x.allocs[j],
                                                    z.allocs[j]) { assert SameDraw(x.allocs[j], y.allocs[j]); }
  }

  /** Marking a restored product allocation settles its lot. */
  lemma MarkProduct(b: Books, at: OrderId, i: nat, n: int)
    requires i < |b.allocs| && b.allocs[i].debit.Product? && 0 <= n <= b.allocs[i].amount - b.allocs[i].refunded
    requires b.allocs[i].source.Pack? ==> at == b.allocs[i].source.lot
    requires Core(b, map[], at, if b.allocs[i].source.Pack? then n else 0)
    ensures Core(Mark(b, i, n), map[], at, 0)
  {
    var c := Mark(b, i, n);
    MarkAcyclic(b.allocs, i, c.allocs[i]);
    MarkRows(b, i, n);
    forall q | q in c.lots ensures LotOk(c, q) { assert LotOk(b, q); }
    MarkEquations(b, at, i, n);
  }

  lemma MarkRows(b: Books, i: nat, n: int)
    requires RowsOk(b) && i < |b.allocs| && b.allocs[i].debit.Product?
    requires 0 <= n <= b.allocs[i].amount - b.allocs[i].refunded
    ensures RowsOk(Mark(b, i, n))
  {
    var c := Mark(b, i, n);
    forall j | 0 <= j < |c.allocs| ensures AllocOk(c, j) { assert AllocOk(b, j); }
  }

  lemma MarkEquations(b: Books, at: OrderId, i: nat, n: int)
    requires i < |b.allocs| && b.allocs[i].debit.Product?
    requires b.allocs[i].source.Pack? ==> at == b.allocs[i].source.lot
    requires Equations(b, map[], at, if b.allocs[i].source.Pack? then n else 0)
    ensures Equations(Mark(b, i, n), map[], at, 0)
  {
    var c := Mark(b, i, n);
    forall q | q in c.lots ensures Settled(c, q) && Balanced(c, q, 0) {
      SumUpdate(b.allocs, i, c.allocs[i], ForDebt(q));
      SumUpdate(b.allocs, i, c.allocs[i], OnLot(q));
      assert Settled(b, q) && Balanced(b, q, if q == at then (if b.allocs[i].source.Pack? then n else 0) else 0);
    }
  }

  /** Closing the debit once every allocation of it has been refunded. */
  lemma ProgressEnd(x: Books, y: Books, key: Key, restored: int)
    requires RefundProgress(x, y, key, |x.allocs|) && UsageOk(x) && RowsOk(x)
    requires key.Product? && key in x.debits && key in y.debits && 0 <= restored <= x.debits[key].amount
    ensures UsageOk(y.(debits := y.debits[key := y.debits[key].(restored := restored, closed := true)]))
  {
    var z := y.(debits := y.debits[key := y.debits[key].(restored := restored, closed := true)]);
    ProgressOneRow(x, y, key, |x.allocs|);
    forall i | 0 <= i < |z.allocs| && z.allocs[i].debit.Product? && z.allocs[i].debit in z.debits
      ensures z.allocs[i].refunded == if z.debits[z.allocs[i].debit].closed then z.allocs[i].amount else 0
    {
      assert SameDraw(x.allocs[i], y.allocs[i]) && AllocOk(x, i);
    }
    forall k | k in z.debits && k.Product? ensures ProductOk(z, k) {
      assert ProductOk(x, k);
      ProgressSums(x, y, key, |x.allocs|, OfDebit(k));
    }
  }

  /** What a refund loop never touches. */
  lemma ProgressTables(x: Books, y: Books, key: Key, i: int)
    requires RefundProgress(x, y, key, i) && key.Product? && key in x.debits
    ensures y.orders == x.orders && key in y.debits && y.debits[key] == x.debits[key] && y.lots.Keys == x.lots.Keys
    ensures forall o :: o in x.lots ==> y.lots[o].id == x.lots[o].id && y.lots[o].expiresAt == x.lots[o].expiresAt
  {}

  lemma ProgressOneRow(x: Books, y: Books, key: Key, i: int)
    requires RefundProgress(x, y, key, i) && RowPerSource(x.allocs)
    ensures RowPerSource(y.allocs)
  {
    forall j | 0 <= j < |x.allocs| ensures SameDraw(x.allocs[j], y.allocs[j]) {}
  }

  lemma UsageFrame(x: Books, y: Books)
    requires UsageOk(x) && y.allocs == x.allocs && y.debits == x.debits
    ensures UsageOk(y)
  {
    forall k | k in y.debits && k.Product? ensures ProductOk(y, k) { assert ProductOk(x, k); }
  }

  /** What product operations drew is untouched by refunds. */
  lemma ProgressSums(x: Books, y: Books, key: Key, i: int, p: Pick)
    requires RefundProgress(x, y, key, i)
    requires (p.OfDebit? && p.key.Product?) || (p.DrawnOnLot? && p.key.Product?)
      || (p.DrawnOnSubscription? && p.key.Product?)
    ensures Sum(y.allocs, p) == Sum(x.allocs, p)
  {
    forall j | 0 <= j < |x.allocs| ensures Weight(y.allocs[j], p) == Weight(x.allocs[j], p) {
      assert SameDraw(x.allocs[j], y.allocs[j]);
    }
    SumExtend(x.allocs, y.allocs, p);
  }

  lemma UsageKept(x: Books, y: Books)
    requires UsageOk(x) && Kept({}, x, y)
    ensures UsageOk(y)
  {
    assert RefundProgress(x, y, Product(""), 0) by {
      assert forall j :: 0 <= j < |x.allocs| ==> SameDraw(x.allocs[j], y.allocs[j]);
      assert forall k: Key :: k.Product? ==> Protected(k, {});
    }
    ProgressOneRow(x, y, Product(""), 0);
    forall i | 0 <= i < |y.allocs| && y.allocs[i].debit.Product? && y.allocs[i].debit in y.debits
      ensures y.allocs[i].refunded == if y.debits[y.allocs[i].debit].closed then y.allocs[i].amount else 0
    {
      assert SameDraw(x.allocs[i], y.allocs[i]);
    }
    forall k | k in y.debits && k.Product? ensures ProductOk(y, k) {
      assert ProductOk(x, k);
      ProgressSums(x, y, Product(""), 0, OfDebit(k));
    }
  }

  // ---- spending ----------------------------------------------------------------------------------

  function OpenDebit(b: Books, key: Key, amount: int, epoch: nat): Books {
    b.(debits := b.debits[key := Debit(amount, epoch, 0, false)])
  }

  function Spend(b: Books, key: Key, source: Source, n: int): Books
    requires source.Pack? ==> source.lot in b.lots
  {
    b.(allocs := b.allocs + [Alloc(key, source, n, 0)],
       lots := if source.Subscription? then b.lots
               else b.lots[source.lot := b.lots[source.lot].(remaining := b.lots[source.lot].remaining - n)])
  }

  lemma OpenDebitKeeps(b: Books, at: OrderId, key: Key, amount: int, epoch: nat)
    requires Core(b, map[], at, 0) && key.Product? && key !in b.debits
    ensures Core(OpenDebit(b, key, amount, epoch), map[], at, 0)
  {
    var c := OpenDebit(b, key, amount, epoch);
    forall i | 0 <= i < |c.allocs| ensures AllocOk(c, i) { assert AllocOk(b, i); }
    forall q | q in c.lots ensures LotOk(c, q) { assert LotOk(b, q); }
    forall q | q in c.lots ensures Settled(c, q) && Balanced(c, q, 0) { assert Settled(b, q) && Balanced(b, q, 0); }
  }

  lemma SpendKeeps(b: Books, at: OrderId, key: Key, source: Source, n: int)
    requires Core(b, map[], at, 0) && key.Product? && key in b.debits && 0 < n <= MAX_ATOMS
    requires source.Pack? ==> source.lot in b.lots && n <= b.lots[source.lot].remaining
    ensures Core(Spend(b, key, source, n), map[], at, 0)
  {
    var c := Spend(b, key, source, n);
    assert c.lots.Keys == b.lots.Keys;
    SpendRows(b, key, source, n);
    SpendAcyclic(b.allocs, Alloc(key, source, n, 0));
    forall q | q in c.lots ensures LotOk(c, q) { assert LotOk(b, q); }
    SpendEquations(b, at, key, source, n);
  }

  lemma SpendRows(b: Books, key: Key, source: Source, n: int)
    requires RowsOk(b) && key.Product? && key in b.debits && 0 < n <= MAX_ATOMS
    requires source.Pack? ==> source.lot in b.lots
    ensures RowsOk(Spend(b, key, source, n))
  {
    var c := Spend(b, key, source, n);
    assert c.lots.Keys == b.lots.Keys;
    forall i | 0 <= i < |c.allocs| ensures AllocOk(c, i) {
      if i < |b.allocs| { assert AllocOk(b, i); }
    }
  }

  lemma SpendAcyclic(s: seq<Alloc>, a: Alloc)
    requires Acyclic(s) && a.debit.Product?
    ensures Acyclic(s + [a])
  {
    forall i: nat, j: nat | i < |s| + 1 && j < |s| + 1 && Feeds(s + [a], i, j) ensures i < j {
      assert Feeds(s, i, j);
    }
  }

  lemma SpendEquations(b: Books, at: OrderId, key: Key, source: Source, n: int)
    requires Equations(b, map[], at, 0) && key.Product?
    requires source.Pack? ==> source.lot in b.lots
    ensures Equations(Spend(b, key, source, n), map[], at, 0)
  {
    var c := Spend(b, key, source, n);
    forall q | q in c.lots ensures Settled(c, q) && Balanced(c, q, 0) {
      SumAppend(b.allocs, Alloc(key, source, n, 0), ForDebt(q));
      SumAppend(b.allocs, Alloc(key, source, n, 0), OnLot(q));
      assert Settled(b, q) && Balanced(b, q, 0);
    }
  }

  // ---- cash shares ---------------------------------------------------------------------------------

  /** The code's division computes exactly that number. */
  lemma CashShareRoundsUp(atoms: int, pack: int, cash: int, price: int)
    requires 0 < price
    ensures RoundedUp(atoms, pack, cash, price) <==> atoms == CashShare(pack, cash, price)
  {
    var q := CashShare(pack, cash, price);
    assert q * price <= pack * cash + price - 1 < q * price + price;
    if atoms < q { MulMonotone(atoms + 1, q, price); }
    if atoms > q { MulMonotone(q + 1, atoms, price); }
  }

  lemma OneShare(a: int, b: int, pack: int, cash: int, price: int)
    requires RoundedUp(a, pack, cash, price) && RoundedUp(b, pack, cash, price)
    ensures a == b
  {
    CashShareRoundsUp(a, pack, cash, price);
    CashShareRoundsUp(b, pack, cash, price);
  }

  lemma CashShareBounds(pack: int, cash: int, price: int)
    requires 0 <= pack && 0 <= cash <= price && 0 < price
    ensures 0 <= CashShare(pack, cash, price) <= pack
    ensures CashShare(pack, price, price) == pack
    ensures CashShare(pack, 0, price) == 0
  {
    MulMonotone(cash, price, pack);
    MulMonotone(0, cash, pack);
    DivBetween(pack * cash + price - 1, price, 0, pack);
    DivBetween(pack * price + price - 1, price, pack, pack);
    DivBetween(price - 1, price, 0, 0);
  }

  /** Quotients are characterised by where they sit between multiples of the divisor. */
  lemma DivBetween(a: int, d: int, low: int, high: int)
    requires 0 < d && low * d <= a < high * d + d
    ensures low <= a / d <= high
  {
    var q := a / d;
    assert q * d <= a < q * d + d;
    if q < low { MulMonotone(q + 1, low, d); }
    if q > high { MulMonotone(high + 1, q, d); }
  }

  /** More cash back never takes fewer atoms. */
  lemma CashShareMonotone(pack: int, less: int, more: int, price: int)
    requires 0 <= pack && 0 <= less <= more && 0 < price
    ensures CashShare(pack, less, price) <= CashShare(pack, more, price)
  {
    MulMonotone(less, more, pack);
    var q := (pack * less + price - 1) / price;
    assert q * price <= pack * less + price - 1;
    DivAtLeast(pack * more + price - 1, price, q);
  }

  lemma DivAtLeast(a: int, d: int, low: int)
    requires 0 < d && low * d <= a
    ensures low <= a / d
  {
    var q := a / d;
    assert q * d <= a < q * d + d;
    if q < low { MulMonotone(q + 1, low, d); }
  }
}
