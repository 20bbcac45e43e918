/** Which funds a charge sees, in which order, and how much it takes from each. */
module Spending {
  import opened Basics
  import opened LedgerTables
  import opened LedgerInvariant
  import opened LedgerSteps
  import opened LedgerBoundary
  import opened SubscriptionState
  import opened Fefo

  predicate LotBefore(x: Lot, y: Lot) {
    x.expiresAt < y.expiresAt || (x.expiresAt == y.expiresAt && x.id <= y.id)
  }

  /** The lot queue is in expiry order, then by lot id. */
  ghost predicate QueueSorted(q: seq<OrderId>, lots: map<OrderId, Lot>) {
    forall i, j :: 0 <= i < j < |q| && q[i] in lots && q[j] in lots ==> LotBefore(lots[q[i]], lots[q[j]])
  }

  /** Where a new lot goes in the queue. */
  function InsertLot(q: seq<OrderId>, lots: map<OrderId, Lot>, o: OrderId, l: Lot): seq<OrderId> {
    if |q| == 0 then [o]
    else if q[0] in lots && LotBefore(lots[q[0]], l) then [q[0]] + InsertLot(q[1..], lots, o, l)
    else [o] + q
  }

  function LotFunds(q: seq<OrderId>, lots: map<OrderId, Lot>, now: int): seq<Fund> {
    if |q| == 0 then []
    else (if Live(lots, q[0], now) > 0 then [Fund(Pack(q[0]), lots[q[0]].expiresAt, lots[q[0]].remaining)] else [])
         + LotFunds(q[1..], lots, now)
  }

  /** A lot expiring at the same time as the subscription is spent before it. */
  function Place(pool: seq<Fund>, f: Fund): seq<Fund> {
    if |pool| == 0 || f.expiresAt < pool[0].expiresAt then [f] + pool
    else [pool[0]] + Place(pool[1..], f)
  }

  /** Every fund a charge at `now` may use, first to expire first. */
  function SpendingOrder(q: seq<OrderId>, lots: map<OrderId, Lot>, plan: Plan, balance: int, epoch: nat, now: int)
    : seq<Fund> {
    var packs := LotFunds(q, lots, now);
    if SubscriptionSpendable(plan, now) && balance > 0
    then Place(packs, Fund(Subscription(epoch), plan.window.time, balance))
    else packs
  }

  /** The balance reported to the owner at `now`. */
  function SpendableTotal(q: seq<OrderId>, lots: map<OrderId, Lot>, plan: Plan, balance: int, now: int): int {
    SpendableSubscription(plan, balance, now) + LiveSum(q, lots, now)
  }

  // ---- what the order contains ---------------------------------------------------------------

  lemma {:induction false} PlaceAvailable(pool: seq<Fund>, f: Fund)
    ensures Available(Place(pool, f)) == Available(pool) + f.available && |Place(pool, f)| == |pool| + 1
    ensures forall g :: g in Place(pool, f) <==> g == f || g in pool
  {
    if !(|pool| == 0 || f.expiresAt < pool[0].expiresAt) {
      PlaceAvailable(pool[1..], f);
    }
  }

  /** `f` is spent before `g`: it expires first, or with `g` and is a lot, of the smaller id if both are. */
  ghost predicate Precedes(f: Fund, g: Fund, lots: map<OrderId, Lot>) {
    f.expiresAt < g.expiresAt
    || (f.expiresAt == g.expiresAt && f.source.Pack?
        && (g.source.Pack? ==>
              f.source.lot in lots && g.source.lot in lots && lots[f.source.lot].id <= lots[g.source.lot].id))
  }

  ghost predicate InTurn(pool: seq<Fund>, lots: map<OrderId, Lot>) {
    forall i, j :: 0 <= i < j < |pool| ==> Precedes(pool[i], pool[j], lots)
  }

  lemma {:induction false} PlaceSorted(pool: seq<Fund>, f: Fund, lots: map<OrderId, Lot>)
    requires InTurn(pool, lots) && f.source.Subscription? && forall g :: g in pool ==> g.source.Pack?
    ensures InTurn(Place(pool, f), lots)
  {
    if !(|pool| == 0 || f.expiresAt < pool[0].expiresAt) {
      PlaceSorted(pool[1..], f, lots);
      PlaceAvailable(pool[1..], f);
      var r := Place(pool[1..], f);
      forall i | 0 <= i < |r| ensures Precedes(pool[0], r[i], lots) {
        assert r[i] in r;
        if r[i] in pool[1..] {
          var k :| 0 <= k < |pool[1..]| && pool[1..][k] == r[i];
          assert pool[k + 1] == r[i];
        }
      }
    }
  }

  lemma {:induction false} LotFundsOk(q: seq<OrderId>, lots: map<OrderId, Lot>, now: int)
    requires forall o :: o in lots ==> 0 <= lots[o].remaining
    ensures Available(LotFunds(q, lots, now)) == LiveSum(q, lots, now)
    ensures forall f :: f in LotFunds(q, lots, now) ==>
      && f.source.Pack? && f.source.lot in q && f.source.lot in lots && 0 < f.available
      && f == Fund(f.source, lots[f.source.lot].expiresAt, lots[f.source.lot].remaining)
  {
    if |q| > 0 {
      LotFundsOk(q[1..], lots, now);
      var rest := LotFunds(q[1..], lots, now);
      if Live(lots, q[0], now) > 0 {
        assert LotFunds(q, lots, now)[1..] == rest;
      } else {
        assert LotFunds(q, lots, now) == rest;
      }
    }
  }

  lemma {:induction false} LotFundsSorted(q: seq<OrderId>, lots: map<OrderId, Lot>, now: int)
    requires forall o :: o in lots ==> 0 <= lots[o].remaining
    requires QueueSorted(q, lots)
    ensures InTurn(LotFunds(q, lots, now), lots)
  {
    if |q| > 0 {
      LotFundsSorted(q[1..], lots, now);
      LotFundsOk(q[1..], lots, now);
      var r := LotFunds(q[1..], lots, now);
      forall i | 0 <= i < |r| && q[0] in lots
        ensures Precedes(Fund(Pack(q[0]), lots[q[0]].expiresAt, lots[q[0]].remaining), r[i], lots)
      {
        assert r[i] in r;
        var k :| 0 <= k < |q[1..]| && q[1..][k] == r[i].source.lot;
        assert q[k + 1] == r[i].source.lot;
      }
    }
  }

  /** Every live lot has its fund. */
  lemma {:induction false} LotFundsComplete(q: seq<OrderId>, lots: map<OrderId, Lot>, now: int)
    ensures forall f :: f in LotFunds(q, lots, now) <==>
      && f.source.Pack? && f.source.lot in q && 0 < Live(lots, f.source.lot, now)
      && f == Fund(f.source, lots[f.source.lot].expiresAt, lots[f.source.lot].remaining)
  {
    if |q| > 0 {
      LotFundsComplete(q[1..], lots, now);
      assert q == [q[0]] + q[1..];
    }
  }

  /** No source is listed twice. */
  ghost predicate OneEach(pool: seq<Fund>) {
    forall i, j :: 0 <= i < j < |pool| ==> pool[i].source != pool[j].source
  }

  lemma {:induction false} LotFundsOnce(q: seq<OrderId>, lots: map<OrderId, Lot>, now: int)
    requires forall o :: o in lots ==> 0 <= lots[o].remaining
    requires Distinct(q)
    ensures OneEach(LotFunds(q, lots, now))
  {
    if |q| > 0 {
      LotFundsOnce(q[1..], lots, now);
      LotFundsOk(q[1..], lots, now);
      var r := LotFunds(q[1..], lots, now);
      forall i | 0 <= i < |r| ensures r[i].source != Pack(q[0]) { assert r[i] in r; }
    }
  }

  lemma {:induction false} PlaceOnce(pool: seq<Fund>, f: Fund)
    requires OneEach(pool) && forall i :: 0 <= i < |pool| ==> pool[i].source != f.source
    ensures OneEach(Place(pool, f))
  {
    if !(|pool| == 0 || f.expiresAt < pool[0].expiresAt) {
      PlaceOnce(pool[1..], f);
      PlaceAvailable(pool[1..], f);
      var r := Place(pool[1..], f);
      forall i | 0 <= i < |r| ensures r[i].source != pool[0].source {
        assert r[i] in r;
        if r[i] in pool[1..] {
          var k :| 0 <= k < |pool[1..]| && pool[1..][k] == r[i];
          assert pool[k + 1] == r[i];
        }
      }
    }
  }

  /** A fund is a lot or the subscription, with all it holds. */
  ghost predicate FundOk(f: Fund, lots: map<OrderId, Lot>, balance: int, epoch: nat) {
    && 0 < f.available <= MAX_ATOMS
    && match f.source
       case Pack(o) => o in lots && lots[o].remaining == f.available && lots[o].expiresAt == f.expiresAt
       case Subscription(e) => e == epoch && f.available == balance
  }

  /** What a charge relies on: the funds are those of the account, in expiry order, once each,
      and together they are exactly the reported balance. */
  ghost predicate PoolOk(pool: seq<Fund>, lots: map<OrderId, Lot>, balance: int, epoch: nat) {
    OneEach(pool) && ByExpiry(pool) && forall i :: 0 <= i < |pool| ==> FundOk(pool[i], lots, balance, epoch)
  }

  lemma LotFundOk(q: seq<OrderId>, lots: map<OrderId, Lot>, balance: int, epoch: nat, now: int)
    requires forall o :: o in lots ==> 0 <= lots[o].remaining <= MAX_ATOMS
    ensures forall f :: f in LotFunds(q, lots, now) ==> f.source.Pack? && FundOk(f, lots, balance, epoch)
    ensures Available(LotFunds(q, lots, now)) == LiveSum(q, lots, now)
  {
    LotFundsOk(q, lots, now);
  }

  lemma SpendingOrderOk(q: seq<OrderId>, lots: map<OrderId, Lot>, plan: Plan, balance: int, epoch: nat, now: int)
    requires Listed(q, lots) && QueueSorted(q, lots) && 0 <= balance <= MAX_ATOMS
    requires forall o :: o in lots ==> 0 <= lots[o].remaining <= MAX_ATOMS
    ensures PoolOk(SpendingOrder(q, lots, plan, balance, epoch, now), lots, balance, epoch)
    ensures Available(SpendingOrder(q, lots, plan, balance, epoch, now)) == SpendableTotal(q, lots, plan, balance, now)
    ensures Stocked(SpendingOrder(q, lots, plan, balance, epoch, now))
  {
    var packs := LotFunds(q, lots, now);
    LotFundOk(q, lots, balance, epoch, now);
    LotFundsSorted(q, lots, now);
    LotFundsOnce(q, lots, now);
    forall i | 0 <= i < |packs| ensures packs[i].source.Pack? { assert packs[i] in packs; }
    hide LotFunds, Place, LiveSum, OneEach;
    var pool := SpendingOrder(q, lots, plan, balance, epoch, now);
    if SubscriptionSpendable(plan, now) && balance > 0 {
      var f := Fund(Subscription(epoch), plan.window.time, balance);
      PlaceAvailable(packs, f);
      PlaceSorted(packs, f, lots);
      PlaceOnce(packs, f);
      assert FundOk(f, lots, balance, epoch);
    }
    forall i | 0 <= i < |pool| ensures FundOk(pool[i], lots, balance, epoch) {
      assert pool[i] in pool;
    }
  }

  /** The fund is that of a lot in its window, or of a subscription that is active, not revoked and in its
      window, and holds something. */
  ghost predicate LiveFund(f: Fund, lots: map<OrderId, Lot>, plan: Plan, balance: int, epoch: nat, now: int) {
    match f.source
    case Pack(o) =>
      && o in lots && lots[o].status == Active && now < lots[o].expiresAt == f.expiresAt
      && 0 < lots[o].remaining == f.available
    case Subscription(e) =>
      && plan.active && !plan.revoked && plan.window.Until? && now < plan.window.time == f.expiresAt
      && 0 < balance == f.available && e == epoch
  }

  /** A charge sees exactly the live funds of the account, in an order that nothing but their expiry, kind and
      id decides. */
  lemma PoolIsLive(q: seq<OrderId>, lots: map<OrderId, Lot>, plan: Plan, balance: int, epoch: nat, now: int)
    requires Listed(q, lots) && QueueSorted(q, lots) && forall o :: o in lots ==> 0 <= lots[o].remaining
    ensures var pool := SpendingOrder(q, lots, plan, balance, epoch, now);
      (forall f :: f in pool <==> LiveFund(f, lots, plan, balance, epoch, now)) && InTurn(pool, lots)
  {
    var packs := LotFunds(q, lots, now);
    LotFundsComplete(q, lots, now);
    LotFundsSorted(q, lots, now);
    hide InTurn, LotFunds, Place;
    if SubscriptionSpendable(plan, now) && balance > 0 {
      var f := Fund(Subscription(epoch), plan.window.time, balance);
      PlaceAvailable(packs, f);
      PlaceSorted(packs, f, lots);
    }
  }

  /** A subscription that is inactive, revoked or past its window adds nothing to the reported balance. */
  lemma ReportedBalance(q: seq<OrderId>, lots: map<OrderId, Lot>, plan: Plan, balance: int, now: int)
    ensures SpendableTotal(q, lots, plan, balance, now) == LiveSum(q, lots, now)
         + (if plan.active && !plan.revoked && plan.window.Until? && now < plan.window.time then balance else 0)
  {}

  // ---- the drawing loop -------------------------------------------------------------------------

  function DrawPick(key: Key, source: Source): Pick {
    match source
    case Pack(o) => DrawnOnLot(key, o)
    case Subscription(_) => DrawnOnSubscription(key)
  }

  /** A drawing loop in front of fund `i`, with `remaining` of `amount` atoms still to draw: `x`
      are the tables before the first draw, `y` the tables now. */
  ghost predicate Drawing(x: Books, y: Books, key: Key, pool: seq<Fund>, i: int, remaining: int, amount: int) {
    && 0 <= i <= |pool| && 0 <= remaining <= amount
    && DrawRows(x, y, key)
    && DrawShares(y.allocs, key, pool, i, remaining, amount)
    && DrawLots(x, y, key) && Sourced(x.allocs, y.allocs, pool) && Drawable(y.allocs)
    && (RowPerSource(x.allocs) ==> RowPerSource(y.allocs))
    && Sum(y.allocs, OfDebit(key)) == amount - remaining
    && Sum(y.allocs, Everything) == Sum(x.allocs, Everything) + amount - remaining
  }

  /** Only allocations of `key` were added, and only lots changed besides. */
  ghost predicate DrawRows(x: Books, y: Books, key: Key) {
    && y == x.(lots := y.lots, allocs := y.allocs) && y.lots.Keys == x.lots.Keys
    && x.allocs <= y.allocs
    && (forall j :: |x.allocs| <= j < |y.allocs| ==> y.allocs[j].debit == key && y.allocs[j].refunded == 0)
  }

  predicate Pooled(source: Source, pool: seq<Fund>) {
    exists i :: 0 <= i < |pool| && pool[i].source == source
  }

  /** Whatever was drawn came out of the pool. */
  ghost predicate Sourced(s: seq<Alloc>, t: seq<Alloc>, pool: seq<Fund>) {
    forall j :: |s| <= j < |t| ==> Pooled(t[j].source, pool)
  }

  /** The funds passed so far gave their FEFO share, the others nothing yet. */
  ghost predicate DrawShares(s: seq<Alloc>, key: Key, pool: seq<Fund>, i: int, remaining: int, amount: int)
    requires 0 <= i <= |pool|
  {
    && Draw(pool, amount)[i..] == Draw(pool[i..], remaining)
    && forall j :: 0 <= j < |pool| ==>
      Sum(s, DrawPick(key, pool[j].source)) == if j < i then Draw(pool, amount)[j] else 0
  }

  /** Every lot holds what it held less what the debit drew on it. */
  ghost predicate DrawLots(x: Books, y: Books, key: Key)
    requires y.lots.Keys == x.lots.Keys
  {
    forall o :: o in x.lots ==>
      y.lots[o] == x.lots[o].(remaining := x.lots[o].remaining - Sum(y.allocs, DrawnOnLot(key, o)))
  }

  /** A key that no allocation carries yet has drawn nothing. */
  lemma NothingDrawn(b: Books, key: Key, p: Pick)
    requires RowsOk(b) && key !in b.debits
    requires p == OfDebit(key) || (p.DrawnOnLot? && p.key == key) || p == DrawnOnSubscription(key)
    ensures Sum(b.allocs, p) == 0
  {
    forall i | 0 <= i < |b.allocs| ensures Weight(b.allocs[i], p) == 0 { assert AllocOk(b, i); }
    SumZero(b.allocs, p);
  }

  lemma DrawingStart(b: Books, key: Key, pool: seq<Fund>, amount: int, epoch: nat)
    requires RowsOk(b) && key !in b.debits && 0 < amount
    ensures Drawing(OpenDebit(b, key, amount, epoch), OpenDebit(b, key, amount, epoch), key, pool, 0, amount, amount)
  {
    forall p: Pick | p == OfDebit(key) || (p.DrawnOnLot? && p.key == key) || p == DrawnOnSubscription(key)
      ensures Sum(b.allocs, p) == 0
    {
      NothingDrawn(b, key, p);
    }
    forall i | 0 <= i < |b.allocs| ensures 0 <= b.allocs[i].refunded <= b.allocs[i].amount && 0 < b.allocs[i].amount {
      assert AllocOk(b, i);
    }
    assert pool[0..] == pool && Draw(pool, amount)[0..] == Draw(pool, amount);
  }

  /** A source that has given a debit nothing yet carries no row of it. */
  lemma FirstRow(s: seq<Alloc>, a: Alloc)
    requires Drawable(s) && RowPerSource(s) && Sum(s, DrawPick(a.debit, a.source)) == 0
    ensures RowPerSource(s + [a])
  {
    forall i | 0 <= i < |s| && s[i].debit == a.debit ensures s[i].source != a.source {
      SumAtLeast(s, i, DrawPick(a.debit, a.source));
    }
  }

  /** Taking from the next fund what is left to draw, as far as it reaches. */
  lemma DrawingStep(x: Books, y: Books, key: Key, pool: seq<Fund>, i: int, remaining: int, amount: int, used: int)
    requires Drawing(x, y, key, pool, i, remaining, amount) && i < |pool| && OneEach(pool)
    requires pool[i].source.Pack? ==> pool[i].source.lot in x.lots
    requires forall j :: 0 <= j < |pool| && j != i ==> !(pool[j].source.Subscription? && pool[i].source.Subscription?)
    requires used == Min(remaining, pool[i].available) && 0 < used
    ensures pool[i].source.Pack? ==> pool[i].source.lot in y.lots
    ensures Drawing(x, Spend(y, key, pool[i].source, used), key, pool, i + 1, remaining - used, amount)
  {
    var z := Spend(y, key, pool[i].source, used);
    var a := Alloc(key, pool[i].source, used, 0);
    NotYetDrawn(y.allocs, key, pool, i, remaining, amount);
    hide RowPerSource, Drawable, DrawShares, DrawLots, Sourced, Sum, OneEach;
    SumAppend(y.allocs, a, OfDebit(key));
    SumAppend(y.allocs, a, Everything);
    RowsStep(x.allocs, y.allocs, key, pool, i, a);
    SharesStep(y.allocs, key, pool, i, remaining, amount, used);
    LotsStep(x, y, key, pool[i].source, used);
    assert z.allocs == y.allocs + [a];
    hide *;
    DrawingBuild(x, z, key, pool, i + 1, remaining - used, amount);
  }

  lemma DrawingBuild(x: Books, y: Books, key: Key, pool: seq<Fund>, i: int, remaining: int, amount: int)
    requires 0 <= i <= |pool| && 0 <= remaining <= amount && DrawRows(x, y, key)
    requires DrawShares(y.allocs, key, pool, i, remaining, amount) && DrawLots(x, y, key)
    requires Sourced(x.allocs, y.allocs, pool) && Drawable(y.allocs)
    requires RowPerSource(x.allocs) ==> RowPerSource(y.allocs)
    requires Sum(y.allocs, OfDebit(key)) == amount - remaining
    requires Sum(y.allocs, Everything) == Sum(x.allocs, Everything) + amount - remaining
    ensures Drawing(x, y, key, pool, i, remaining, amount)
  {}

  lemma NotYetDrawn(s: seq<Alloc>, key: Key, pool: seq<Fund>, i: int, remaining: int, amount: int)
    requires 0 <= i < |pool| && DrawShares(s, key, pool, i, remaining, amount)
    ensures Sum(s, DrawPick(key, pool[i].source)) == 0
  {}

  lemma RowsStep(s: seq<Alloc>, t: seq<Alloc>, key: Key, pool: seq<Fund>, i: nat, a: Alloc)
    requires i < |pool| && |s| <= |t| && Sourced(s, t, pool) && Drawable(t) && (RowPerSource(s) ==> RowPerSource(t))
    requires a.source == pool[i].source && a.debit == key && a.refunded == 0 < a.amount
    requires Sum(t, DrawPick(key, a.source)) == 0
    ensures Sourced(s, t + [a], pool) && Drawable(t + [a]) && (RowPerSource(s) ==> RowPerSource(t + [a]))
  {
    if RowPerSource(s) { FirstRow(t, a); }
    hide RowPerSource, Sum;
    assert Pooled(a.source, pool);
  }

  lemma SharesStep(s: seq<Alloc>, key: Key, pool: seq<Fund>, i: int, remaining: int, amount: int, used: int)
    requires 0 <= i < |pool| && OneEach(pool) && DrawShares(s, key, pool, i, remaining, amount)
    requires forall j :: 0 <= j < |pool| && j != i ==> !(pool[j].source.Subscription? && pool[i].source.Subscription?)
    requires used == Min(remaining, pool[i].available) && 0 < used
    ensures DrawShares(s + [Alloc(key, pool[i].source, used, 0)], key, pool, i + 1, remaining - used, amount)
  {
    var a := Alloc(key, pool[i].source, used, 0);
    var draw := Draw(pool, amount);
    assert pool[i..][1..] == pool[i + 1..] && draw[i..][1..] == draw[i + 1..];
    assert draw[i] == draw[i..][0];
    forall j | 0 <= j < |pool|
      ensures Sum(s + [a], DrawPick(key, pool[j].source)) == if j < i + 1 then draw[j] else 0
    {
      SumAppend(s, a, DrawPick(key, pool[j].source));
      assert j != i ==> pool[j].source != pool[i].source;
    }
  }

  lemma LotsStep(x: Books, y: Books, key: Key, source: Source, used: int)
    requires DrawRows(x, y, key) && DrawLots(x, y, key)
    requires source.Pack? ==> source.lot in y.lots
    ensures DrawRows(x, Spend(y, key, source, used), key) && DrawLots(x, Spend(y, key, source, used), key)
  {
    var z := Spend(y, key, source, used);
    forall o | o in x.lots
      ensures z.lots[o] == x.lots[o].(remaining := x.lots[o].remaining - Sum(z.allocs, DrawnOnLot(key, o)))
    {
      SumAppend(y.allocs, Alloc(key, source, used, 0), DrawnOnLot(key, o));
    }
  }

  /** When nothing is left to draw, every fund has given exactly its FEFO share. */
  lemma DrawingEnd(x: Books, y: Books, key: Key, pool: seq<Fund>, i: int, amount: int)
    requires Drawing(x, y, key, pool, i, 0, amount) && Stocked(pool)
    ensures forall j :: 0 <= j < |pool| ==> Sum(y.allocs, DrawPick(key, pool[j].source)) == Draw(pool, amount)[j]
    ensures Sum(y.allocs, OfDebit(key)) == amount
    ensures Sum(y.allocs, Everything) == Sum(x.allocs, Everything) + amount
  {
    DrawNothing(pool[i..]);
    forall j | i <= j < |pool| ensures Draw(pool, amount)[j] == 0 {
      assert Draw(pool, amount)[j] == Draw(pool, amount)[i..][j - i];
    }
  }

  /** Projecting lazy expiry changes no reported balance, at that time or any later one. */
  lemma ProjectionIsInvisible(q: seq<OrderId>, lots: map<OrderId, Lot>, plan: Plan, balance: int, now: int, later: int)
    requires now <= later
    ensures SpendableTotal(q, ExpireLapsed(lots, now), plan, balance, later)
      == SpendableTotal(q, lots, plan, balance, later)
  {
    ExpiryIsUnobservable(q, lots, now, later);
  }

  // ---- what the charge relies on around the loop ------------------------------------------------

  /** Projecting expiry changes neither the funds a charge may use nor what they add up to. */
  lemma {:induction false} OrderAfterExpiry(q: seq<OrderId>, lots: map<OrderId, Lot>, now: int)
    ensures LotFunds(q, ExpireLapsed(lots, now), now) == LotFunds(q, lots, now)
  {
    if |q| > 0 {
      OrderAfterExpiry(q[1..], lots, now);
    }
  }

  lemma AvailableNext(pool: seq<Fund>, i: nat)
    requires Stocked(pool) && i < |pool|
    ensures Available(pool[i..]) == pool[i].available + Available(pool[i + 1..]) && 0 <= Available(pool[i + 1..])
  {
    assert pool[i..][1..] == pool[i + 1..];
    AvailableNonNegative(pool[i + 1..]);
  }

  /** A fund not yet reached still holds all it had. */
  lemma FundUntouched(x: Books, y: Books, key: Key, pool: seq<Fund>, i: int, remaining: int, amount: int, balance: int,
                      epoch: nat)
    requires Drawing(x, y, key, pool, i, remaining, amount) && i < |pool| && PoolOk(pool, x.lots, balance, epoch)
    ensures pool[i].source.Pack? ==>
      pool[i].source.lot in x.lots && pool[i].source.lot in y.lots
        && y.lots[pool[i].source.lot].remaining == pool[i].available
    ensures 0 < pool[i].available <= MAX_ATOMS
    ensures pool[i].source.Subscription? ==> pool[i].source.epoch == epoch && pool[i].available == balance
    ensures forall j :: 0 <= j < |pool| && j != i ==> !(pool[j].source.Subscription? && pool[i].source.Subscription?)
  {
    assert Sum(y.allocs, DrawPick(key, pool[i].source)) == 0;
  }

  /** Once everything is drawn, every product debit is again exactly what its rows drew. */
  lemma ChargeUsage(b: Books, y: Books, key: Key, pool: seq<Fund>, i: int, amount: int, epoch: nat)
    requires UsageOk(b) && RowsOk(b) && key.Product? && key !in b.debits && 0 < amount <= MAX_ATOMS
    requires Drawing(OpenDebit(b, key, amount, epoch), y, key, pool, i, 0, amount)
    ensures UsageOk(y)
  {
    forall j | 0 <= j < |y.allocs| && y.allocs[j].debit.Product? && y.allocs[j].debit in y.debits
      ensures y.allocs[j].refunded == if y.debits[y.allocs[j].debit].closed then y.allocs[j].amount else 0
    {
      if j < |b.allocs| {
        assert AllocOk(b, j) && y.allocs[j] == b.allocs[j];
      }
    }
    forall k | k in y.debits && k.Product? ensures ProductOk(y, k) {
      if k != key {
        assert ProductOk(b, k);
        SumExtend(b.allocs, y.allocs, OfDebit(k));
      }
    }
  }

  /** From `x` to `y` one product debit of `amount` was opened; it drew from every fund exactly its
      FEFO share, every lot holds what it held less what was drawn on it, and nothing else moved. */
  ghost predicate ChargeDrew(x: Books, y: Books, key: Key, pool: seq<Fund>, amount: int, epoch: nat) {
    && y == x.(lots := y.lots, allocs := y.allocs, debits := x.debits[key := Debit(amount, epoch, 0, false)])
    && DrawRows(x, y.(debits := x.debits), key) && DrawLots(x, y, key) && Sourced(x.allocs, y.allocs, pool)
    && (forall j :: 0 <= j < |pool| ==> Sum(y.allocs, DrawPick(key, pool[j].source)) == Draw(pool, amount)[j])
    && Sum(y.allocs, OfDebit(key)) == amount
    && Sum(y.allocs, Everything) == Sum(x.allocs, Everything) + amount
  }

  lemma ChargeDone(b: Books, y: Books, key: Key, pool: seq<Fund>, i: int, amount: int, epoch: nat)
    requires UsageOk(b) && RowsOk(b) && key.Product? && key !in b.debits && 0 < amount <= MAX_ATOMS && Stocked(pool)
    requires Drawing(OpenDebit(b, key, amount, epoch), y, key, pool, i, 0, amount)
    ensures ChargeDrew(b, y, key, pool, amount, epoch) && UsageOk(y)
  {
    DrawingEnd(OpenDebit(b, key, amount, epoch), y, key, pool, i, amount);
    ChargeUsage(b, y, key, pool, i, amount, epoch);
  }

  lemma ChargeFrame(x: Books, y: Books, key: Key, pool: seq<Fund>, amount: int, epoch: nat, q: seq<OrderId>)
    requires ChargeDrew(x, y, key, pool, amount, epoch) && QueueSorted(q, x.lots)
    ensures y.orders == x.orders && y.debts == x.debts && QueueSorted(q, y.lots)
    ensures Sum(y.allocs, Everything) == Sum(x.allocs, Everything) + amount
    ensures forall now :: NoneLapsed(x.lots, now) ==> NoneLapsed(y.lots, now)
  {
    SortedKept(q, x.lots, y.lots);
  }

  /** Lot terms fix the queue order. */
  lemma SortedKept(q: seq<OrderId>, x: map<OrderId, Lot>, y: map<OrderId, Lot>)
    requires QueueSorted(q, x) && x.Keys == y.Keys
    requires forall o :: o in x ==> y[o].id == x[o].id && y[o].expiresAt == x[o].expiresAt
    ensures QueueSorted(q, y)
  {
    forall i, j | 0 <= i < j < |q| && q[i] in y && q[j] in y ensures LotBefore(y[q[i]], y[q[j]]) {
      assert q[i] in x.Keys && q[j] in x.Keys;
    }
  }

  // ---- the lot queue ------------------------------------------------------------------------------

  lemma {:induction false} InsertLotHas(q: seq<OrderId>, lots: map<OrderId, Lot>, o: OrderId, l: Lot)
    ensures |InsertLot(q, lots, o, l)| == |q| + 1
    ensures forall k :: k in InsertLot(q, lots, o, l) <==> k == o || k in q
  {
    if |q| > 0 && q[0] in lots && LotBefore(lots[q[0]], l) {
      InsertLotHas(q[1..], lots, o, l);
    }
  }

  lemma {:induction false} InsertLotSorted(q: seq<OrderId>, lots: map<OrderId, Lot>, o: OrderId, l: Lot)
    requires QueueSorted(q, lots) && o !in lots && forall k :: k in q ==> k in lots
    ensures QueueSorted(InsertLot(q, lots, o, l), lots[o := l])
  {
    if |q| > 0 && LotBefore(lots[q[0]], l) {
      InsertLotSorted(q[1..], lots, o, l);
      InsertLotHas(q[1..], lots, o, l);
      var r := InsertLot(q[1..], lots, o, l);
      forall j | 0 <= j < |r| ensures r[j] in lots[o := l] && LotBefore(lots[o := l][q[0]], lots[o := l][r[j]]) {
        assert r[j] in r;
        if r[j] != o {
          var k :| 0 <= k < |q[1..]| && q[1..][k] == r[j];
          assert q[k + 1] == r[j];
        }
      }
    }
  }

  /** A new lot takes its place and adds what it holds. */
  lemma {:induction false} InsertLotSum(q: seq<OrderId>, lots: map<OrderId, Lot>, o: OrderId, l: Lot)
    requires o !in q && o !in lots
    ensures LotSum(InsertLot(q, lots, o, l), lots[o := l]) == LotSum(q, lots) + l.remaining
  {
    if |q| > 0 && q[0] in lots && LotBefore(lots[q[0]], l) {
      InsertLotSum(q[1..], lots, o, l);
      LotSumFirst(q[0], q[1..], lots);
      LotSumFirst(q[0], InsertLot(q[1..], lots, o, l), lots[o := l]);
      assert q == [q[0]] + q[1..];
    } else {
      LotSumFirst(o, q, lots[o := l]);
      LotSumOther(q, lots, o, l);
    }
  }

  lemma {:induction false} LotSumFirst(o: OrderId, q: seq<OrderId>, lots: map<OrderId, Lot>)
    ensures LotSum([o] + q, lots) == (if o in lots then lots[o].remaining else 0) + LotSum(q, lots)
  {
    if |q| > 0 {
      LotSumFirst(o, q[..|q| - 1], lots);
      assert ([o] + q)[..|q|] == [o] + q[..|q| - 1];
    } else {
      assert ([o] + q)[..0] == [];
    }
  }

  lemma {:induction false} LotSumOther(q: seq<OrderId>, lots: map<OrderId, Lot>, o: OrderId, l: Lot)
    requires o !in q
    ensures LotSum(q, lots[o := l]) == LotSum(q, lots)
  {
    if |q| > 0 {
      var n := |q| - 1;
      assert q[n] in q;
      LotSumOther(q[..n], lots, o, l);
    }
  }

  lemma {:induction false} InsertLotDistinct(q: seq<OrderId>, lots: map<OrderId, Lot>, o: OrderId, l: Lot)
    requires Distinct(q) && o !in q
    ensures Distinct(InsertLot(q, lots, o, l))
  {
    if |q| > 0 && q[0] in lots && LotBefore(lots[q[0]], l) {
      InsertLotDistinct(q[1..], lots, o, l);
      InsertLotHas(q[1..], lots, o, l);
      var r := InsertLot(q[1..], lots, o, l);
      forall j | 0 <= j < |r| ensures r[j] != q[0] { assert r[j] in r; }
    }
  }

  lemma InsertLotListed(q: seq<OrderId>, lots: map<OrderId, Lot>, o: OrderId, l: Lot)
    requires Listed(q, lots) && QueueSorted(q, lots) && o !in lots
    ensures Listed(InsertLot(q, lots, o, l), lots[o := l]) && QueueSorted(InsertLot(q, lots, o, l), lots[o := l])
    ensures LotSum(InsertLot(q, lots, o, l), lots[o := l]) == LotSum(q, lots) + l.remaining
  {
    InsertLotHas(q, lots, o, l);
    InsertLotSorted(q, lots, o, l);
    InsertLotDistinct(q, lots, o, l);
    InsertLotSum(q, lots, o, l);
  }
}
