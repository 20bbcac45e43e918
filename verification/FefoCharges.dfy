/** The ledger's charges are FEFO spending, so no other way of paying them leaves a larger balance at any
    later time. */
module FefoCharges {
  import opened Basics
  import opened LedgerTables
  import opened LedgerInvariant
  import opened LedgerSteps
  import opened LedgerBoundary
  import opened SubscriptionState
  import opened Spending
  import opened Refunding
  import opened Fefo
  import opened CreditLedger

  // ---- what survives a cutoff is the balance reported then --------------------------------------------

  lemma {:induction false} LotFundsLeft(q: seq<OrderId>, lots: map<OrderId, Lot>, now: int, cutoff: int)
    requires now <= cutoff && forall o :: o in lots ==> 0 <= lots[o].remaining
    ensures LeftAfter(LotFunds(q, lots, now), cutoff) == LiveSum(q, lots, cutoff)
  {
    if |q| > 0 {
      LotFundsLeft(q[1..], lots, now, cutoff);
      if Live(lots, q[0], now) > 0 {
        assert LotFunds(q, lots, now)[1..] == LotFunds(q[1..], lots, now);
      } else {
        assert LotFunds(q, lots, now) == LotFunds(q[1..], lots, now);
      }
    }
  }

  lemma {:induction false} PlaceLeft(pool: seq<Fund>, f: Fund, cutoff: int)
    ensures LeftAfter(Place(pool, f), cutoff) == LeftAfter(pool, cutoff)
      + (if f.expiresAt > cutoff then f.available else 0)
  {
    if !(|pool| == 0 || f.expiresAt < pool[0].expiresAt) {
      PlaceLeft(pool[1..], f, cutoff);
    }
  }

  /** The funds of an account that outlive a cutoff are the balance reported at that time. */
  lemma LeftIsReported(q: seq<OrderId>, lots: map<OrderId, Lot>, plan: Plan, balance: int, epoch: nat, now: int,
                       cutoff: int)
    requires now <= cutoff && 0 <= balance && forall o :: o in lots ==> 0 <= lots[o].remaining
    ensures LeftAfter(SpendingOrder(q, lots, plan, balance, epoch, now), cutoff)
      == SpendableTotal(q, lots, plan, balance, cutoff)
  {
    LotFundsLeft(q, lots, now, cutoff);
    if SubscriptionSpendable(plan, now) && balance > 0 {
      PlaceLeft(LotFunds(q, lots, now), Fund(Subscription(epoch), plan.window.time, balance), cutoff);
    }
  }

  // ---- one charge ----------------------------------------------------------------------------------

  function Holding(source: Source, lots: map<OrderId, Lot>, balance: int): int {
    match source
    case Pack(o) => if o in lots then lots[o].remaining else 0
    case Subscription(_) => balance
  }

  /** The same funds with what they hold now. */
  function Restock(pool: seq<Fund>, lots: map<OrderId, Lot>, balance: int): (r: seq<Fund>)
    ensures |r| == |pool|
    ensures forall i :: 0 <= i < |pool| ==> r[i] == pool[i].(available := Holding(pool[i].source, lots, balance))
  {
    if |pool| == 0 then []
    else [pool[0].(available := Holding(pool[0].source, lots, balance))] + Restock(pool[1..], lots, balance)
  }

  /** Lots from which something was taken, and nothing else about them. */
  ghost predicate DrawnDown(x: map<OrderId, Lot>, y: map<OrderId, Lot>) {
    && y.Keys == x.Keys
    && forall o :: o in x ==>
         0 <= y[o].remaining <= x[o].remaining && y[o].status == x[o].status && y[o].expiresAt == x[o].expiresAt
  }

  lemma {:induction false} RestockedLots(q: seq<OrderId>, x: map<OrderId, Lot>, y: map<OrderId, Lot>, balance: int,
                                         now: int, cutoff: int)
    requires now <= cutoff && DrawnDown(x, y)
    ensures LeftAfter(Restock(LotFunds(q, x, now), y, balance), cutoff) == LiveSum(q, y, cutoff)
  {
    if |q| > 0 {
      var rest := LotFunds(q[1..], x, now);
      RestockedLots(q[1..], x, y, balance, now, cutoff);
      if Live(x, q[0], now) > 0 {
        assert LotFunds(q, x, now)[1..] == rest;
      } else {
        assert LotFunds(q, x, now) == rest;
      }
    }
  }

  lemma {:induction false} RestockedPlace(pool: seq<Fund>, f: Fund, y: map<OrderId, Lot>, balance: int, cutoff: int)
    ensures LeftAfter(Restock(Place(pool, f), y, balance), cutoff)
         == LeftAfter(Restock(pool, y, balance), cutoff) + (if f.expiresAt > cutoff then Holding(f.source, y, balance)
                                                            else 0)
  {
    if !(|pool| == 0 || f.expiresAt < pool[0].expiresAt) {
      RestockedPlace(pool[1..], f, y, balance, cutoff);
      assert Place(pool, f)[1..] == Place(pool[1..], f);
    } else {
      assert Place(pool, f)[1..] == pool;
    }
  }

  /** What the charge left in its funds is the balance reported at any later time. */
  lemma RestockIsReported(q: seq<OrderId>, x: map<OrderId, Lot>, y: map<OrderId, Lot>, plan: Plan, start: int,
                          balance: int, epoch: nat, now: int, cutoff: int)
    requires now <= cutoff && DrawnDown(x, y) && 0 <= balance <= start
    ensures LeftAfter(Restock(SpendingOrder(q, x, plan, start, epoch, now), y, balance), cutoff)
         == SpendableTotal(q, y, plan, balance, cutoff)
  {
    RestockedLots(q, x, y, balance, now, cutoff);
    if SubscriptionSpendable(plan, now) && start > 0 {
      RestockedPlace(LotFunds(q, x, now), Fund(Subscription(epoch), plan.window.time, start), y, balance, cutoff);
    }
  }

  /** A charge leaves its funds as FEFO does. */
  lemma ChargeRestocks(x: Books, y: Books, key: Key, pool: seq<Fund>, amount: int, epoch: nat, start: int, balance: int)
    requires ChargeDrew(x, y, key, pool, amount, epoch) && PoolOk(pool, x.lots, start, epoch)
    requires balance == start - Sum(y.allocs, DrawnOnSubscription(key))
    ensures Restock(pool, y.lots, balance) == After(pool, Draw(pool, amount))
  {
    hide Sum, Draw, OneEach, ByExpiry, Sourced;
    forall i | 0 <= i < |pool| ensures Restock(pool, y.lots, balance)[i] == After(pool, Draw(pool, amount))[i] {
      assert FundOk(pool[i], x.lots, start, epoch);
      assert Sum(y.allocs, DrawPick(key, pool[i].source)) == Draw(pool, amount)[i];
    }
  }

  lemma ChargeDrawsDown(x: Books, y: Books, key: Key, pool: seq<Fund>, amount: int, epoch: nat)
    requires ChargeDrew(x, y, key, pool, amount, epoch) && Bounded(y.allocs)
    requires forall o :: o in y.lots ==> 0 <= y.lots[o].remaining
    ensures DrawnDown(x.lots, y.lots)
  {
    forall o | o in x.lots ensures 0 <= Sum(y.allocs, DrawnOnLot(key, o)) {
      SumNonNegative(y.allocs, DrawnOnLot(key, o));
    }
  }

  /** What is left after a cutoff, once a FEFO charge is paid. */
  lemma LeftAfterDraw(p: seq<Fund>, amount: int, cutoff: int)
    requires Stocked(p) && ByExpiry(p) && 0 <= amount <= Available(p)
    ensures LeftAfter(After(p, Draw(p, amount)), cutoff) == Min(LeftAfter(p, cutoff), Available(p) - amount)
  {
    var k := LeftAfterIsTail(p, After(p, Draw(p, amount)), cutoff);
    TailAfterDraw(p, amount, k);
  }

  /** The charge of an operation, with what it means for every later time. */
  method ChargeAndForecast(ledger: Ledger, name: string, amount: int, now: int)
    requires ledger.Valid() && 0 < amount <= MAX_ATOMS && Product(name) !in ledger.debits
    requires amount <= SpendableTotal(ledger.lotQueue, ledger.lots, ledger.plan, ledger.balance, now)
    modifies ledger
    ensures ledger.Valid() && ledger.plan == old(ledger.plan) && ledger.lotQueue == old(ledger.lotQueue)
    ensures ledger.debits.Keys == old(ledger.debits.Keys) + {Product(name)}
    ensures forall later :: now <= later ==>
      Reported(ledger, later) == Min(old(Reported(ledger, later)), old(Reported(ledger, now)) - amount)
  {
    hide Ledger.Valid, ChargeDrew, SpendingOrder, SpendableTotal;
    ghost var b := ledger.Tables();
    ghost var x := b.(lots := ExpireLapsed(b.lots, now));
    ghost var start := ledger.balance;
    Holdings(ledger);
    var outcome, total, restored := ledger.Charge(name, amount, now);
    Holdings(ledger);
    Charged(x, ledger.Tables(), Product(name), SpendingOrder(ledger.lotQueue, b.lots, ledger.plan, start, ledger.epoch,
                                                             now), amount,
            ledger.epoch);
    forall later | now <= later
      ensures Reported(ledger, later) == Min(old(Reported(ledger, later)), old(Reported(ledger, now)) - amount)
    {
      Forecast(b, x, ledger.Tables(), Product(name), ledger.lotQueue, ledger.plan, start, ledger.balance, ledger.epoch,
               now, later, amount);
    }
  }

  ghost function Reported(ledger: Ledger, at: int): int
    reads ledger
  {
    SpendableTotal(ledger.lotQueue, ledger.lots, ledger.plan, ledger.balance, at)
  }

  /** What a valid ledger's funds satisfy. */
  ghost predicate Held(b: Books, q: seq<OrderId>, balance: int) {
    && Listed(q, b.lots) && QueueSorted(q, b.lots) && 0 <= balance <= MAX_ATOMS && Bounded(b.allocs)
    && forall o :: o in b.lots ==> 0 <= b.lots[o].remaining <= MAX_ATOMS
  }

  lemma Holdings(ledger: Ledger)
    requires ledger.Valid()
    ensures Held(ledger.Tables(), ledger.lotQueue, ledger.balance)
  {
    CoreLots(ledger.Tables(), map[], 0, 0);
    CoreRows(ledger.Tables(), map[], 0, 0);
    RowsBounded(ledger.Tables());
  }

  lemma Charged(x: Books, y: Books, key: Key, pool: seq<Fund>, amount: int, epoch: nat)
    requires ChargeDrew(x, y, key, pool, amount, epoch)
    ensures y.debits.Keys == x.debits.Keys + {key}
  {}

  /** From a charge, the balance reported at a later time. */
  lemma Forecast(b: Books, x: Books, y: Books, key: Key, q: seq<OrderId>, plan: Plan, start: int, balance: int,
                 epoch: nat, now: int, later: int, amount: int)
    requires Held(b, q, start) && Held(y, q, balance) && x == b.(lots := ExpireLapsed(b.lots, now)) && now <= later
    requires ChargeDrew(x, y, key, SpendingOrder(q, b.lots, plan, start, epoch, now), amount, epoch)
    requires balance == start - Sum(y.allocs, DrawnOnSubscription(key))
    requires 0 < amount <= SpendableTotal(q, b.lots, plan, start, now)
    ensures SpendableTotal(q, y.lots, plan, balance, later)
         == Min(SpendableTotal(q, b.lots, plan, start, later), SpendableTotal(q, b.lots, plan, start, now) - amount)
  {
    var pool := SpendingOrder(q, b.lots, plan, start, epoch, now);
    hide ChargeDrew, SpendableTotal, SpendingOrder, Stocked, DrawnDown, Sum, PoolOk, Listed, QueueSorted, Bounded, Draw,
      After, Available;
    SpendingOrderOk(q, b.lots, plan, start, epoch, now);
    ExpiredFunds(b, q, start, epoch, now, pool, plan);
    ChargeDrawsDown(x, y, key, pool, amount, epoch);
    SumNonNegative(y.allocs, DrawnOnSubscription(key));
    ChargeRestocks(x, y, key, pool, amount, epoch, start, balance);
    RestockIsReported(q, x.lots, y.lots, plan, start, balance, epoch, now, later);
    LeftIsReported(q, b.lots, plan, start, epoch, now, later);
    PoolInOrder(pool, b.lots, start, epoch);
    LeftAfterDraw(pool, amount, later);
  }

  lemma PoolInOrder(pool: seq<Fund>, lots: map<OrderId, Lot>, balance: int, epoch: nat)
    requires PoolOk(pool, lots, balance, epoch)
    ensures ByExpiry(pool)
  {}

  /** Projecting expiry leaves the funds of a charge as they are. */
  lemma ExpiredFunds(b: Books, q: seq<OrderId>, balance: int, epoch: nat, now: int, pool: seq<Fund>, plan: Plan)
    requires Held(b, q, balance) && pool == SpendingOrder(q, b.lots, plan, balance, epoch, now)
    ensures PoolOk(pool, ExpireLapsed(b.lots, now), balance, epoch)
    ensures pool == SpendingOrder(q, ExpireLapsed(b.lots, now), plan, balance, epoch, now)
  {
    OrderAfterExpiry(q, b.lots, now);
    var lots := ExpireLapsed(b.lots, now);
    SortedKept(q, b.lots, lots);
    SpendingOrderOk(q, lots, plan, balance, epoch, now);
  }

  // ---- whole runs of charges ---------------------------------------------------------------------------

  /** A charge of the run; `used` is how another strategy pays it. */
  datatype Purchase = Purchase(name: string, amount: nat, now: int, used: seq<int>)

  function History(run: seq<Purchase>): seq<Event> {
    if |run| == 0 then [] else [Advance(run[0].now), Event.Charge(run[0].amount, run[0].used)] + History(run[1..])
  }

  /** Each operation is charged once, at times that do not run backwards. */
  ghost predicate Schedule(run: seq<Purchase>, start: int) {
    && (forall i :: 0 <= i < |run| ==> start <= run[i].now && 0 < run[i].amount <= MAX_ATOMS)
    && forall i, j :: 0 <= i < j < |run| ==> run[i].now <= run[j].now && run[i].name != run[j].name
  }

  /** Over any run of charges the ledger pays everything another strategy could have paid from the same
      funds, and at every later time reports at least what that strategy would have left. */
  method SpendAll(ledger: Ledger, run: seq<Purchase>, start: int, ghost pool: seq<Fund>)
    requires ledger.Valid() && Schedule(run, start)
    requires pool == SpendingOrder(ledger.lotQueue, ledger.lots, ledger.plan, ledger.balance, ledger.epoch, start)
    requires Feasible(pool, History(run)) && forall i :: 0 <= i < |run| ==> Product(run[i].name) !in ledger.debits
    modifies ledger
    ensures ledger.Valid()
    ensures forall i :: 0 <= i < |run| ==> Product(run[i].name) in ledger.debits
    ensures forall later :: start <= later && (forall i :: 0 <= i < |run| ==> run[i].now <= later) ==>
      Reported(ledger, later) >= LeftAfter(Outcome(pool, History(run)), later)
  {
    hide Ledger.Valid, SpendingOrder, SpendableTotal, Feasible, Outcome, Dominates, Stocked, ByExpiry, Held, Draw,
      After, Alive, Available, LeftAfter, Pays, History;
    ghost var p := pool;
    ghost var q := pool;
    ghost var at := start;
    Holdings(ledger);
    SpendingStarts(ledger, start, pool);
    assert run[0..] == run;
    var i := 0;
    while i < |run|
      invariant 0 <= i <= |run| && ledger.Valid() && start <= at && (forall j :: i <= j < |run| ==> at <= run[j].now)
      invariant at == if i == 0 then start else run[i - 1].now
      invariant Stocked(p) && ByExpiry(p) && Dominates(p, q) && Feasible(q, History(run[i..]))
      invariant Outcome(q, History(run[i..])) == Outcome(pool, History(run))
      invariant forall later :: at <= later ==> Reported(ledger, later) == LeftAfter(p, later)
      invariant forall j :: 0 <= j < |run| ==> (Product(run[j].name) in ledger.debits <==> j < i)
    {
      var s := run[i];
      NextCharge(p, q, run[i..]);
      ghost var r := Alive(p, s.now);
      AliveLeft(p, s.now);
      ChargeAndForecast(ledger, s.name, s.amount, s.now);
      LeftByDraw(r, s.amount);
      p, q, at := After(r, Draw(r, s.amount)), After(Alive(q, s.now), s.used), s.now;
      assert run[i..][1..] == run[i + 1..];
      i := i + 1;
    }
    assert run[|run|..] == [];
    forall later | start <= later && (forall i :: 0 <= i < |run| ==> run[i].now <= later)
      ensures Reported(ledger, later) >= LeftAfter(Outcome(pool, History(run)), later)
    {
      NothingFurther(q);
      assert |run| > 0 ==> run[|run| - 1].now <= later;
      DominanceIsSurvival(p, q, later);
    }
  }

  lemma LeftByDraw(p: seq<Fund>, amount: int)
    requires Stocked(p) && ByExpiry(p) && 0 <= amount <= Available(p)
    ensures forall cutoff ::
      LeftAfter(After(p, Draw(p, amount)), cutoff) == Min(LeftAfter(p, cutoff), Available(p) - amount)
  {
    forall cutoff ensures LeftAfter(After(p, Draw(p, amount)), cutoff)
      == Min(LeftAfter(p, cutoff), Available(p) - amount) {
      LeftAfterDraw(p, amount, cutoff);
    }
  }

  lemma NothingFurther(q: seq<Fund>)
    ensures History([]) == [] && Feasible(q, []) && Outcome(q, []) == q
  {}

  lemma SpendingStarts(ledger: Ledger, start: int, pool: seq<Fund>)
    requires Held(ledger.Tables(), ledger.lotQueue, ledger.balance)
    requires pool == SpendingOrder(ledger.lotQueue, ledger.lots, ledger.plan, ledger.balance, ledger.epoch, start)
    ensures Stocked(pool) && ByExpiry(pool) && Dominates(pool, pool)
    ensures forall later :: start <= later ==> Reported(ledger, later) == LeftAfter(pool, later)
  {
    SpendingOrderOk(ledger.lotQueue, ledger.lots, ledger.plan, ledger.balance, ledger.epoch, start);
    forall later | start <= later ensures Reported(ledger, later) == LeftAfter(pool, later) {
      LeftIsReported(ledger.lotQueue, ledger.lots, ledger.plan, ledger.balance, ledger.epoch, start, later);
    }
  }

  /** Time passes and the next charge is paid, by the ledger and by the other strategy. */
  lemma NextCharge(p: seq<Fund>, q: seq<Fund>, run: seq<Purchase>)
    requires |run| > 0 && Stocked(p) && ByExpiry(p) && Dominates(p, q) && Feasible(q, History(run))
    ensures var s := run[0]; var r := Alive(p, s.now); var t := Alive(q, s.now);
      && Pays(t, s.used, s.amount) && s.amount <= Available(r) && Stocked(r) && ByExpiry(r)
      && Stocked(After(r, Draw(r, s.amount))) && ByExpiry(After(r, Draw(r, s.amount)))
      && Dominates(After(r, Draw(r, s.amount)), After(t, s.used)) && Feasible(After(t, s.used), History(run[1..]))
      && Outcome(q, History(run)) == Outcome(After(t, s.used), History(run[1..]))
  {
    var s := run[0];
    var h := History(run);
    assert h[0] == Advance(s.now) && h[1..][0] == Event.Charge(s.amount, s.used) && h[1..][1..] == History(run[1..]);
    TimeKeepsDominance(p, q, s.now);
    ChargeKeepsDominance(Alive(p, s.now), Alive(q, s.now), s.used, s.amount);
  }

  /** Funds alive at `now` are all that outlives any later cutoff. */
  lemma {:induction false} AliveLeft(p: seq<Fund>, now: int)
    requires ByExpiry(p)
    ensures forall later :: now <= later ==> LeftAfter(Alive(p, now), later) == LeftAfter(p, later)
    ensures Available(Alive(p, now)) == LeftAfter(p, now)
  {
    if |p| > 0 {
      if p[0].expiresAt > now {
        AllLeft(p, now);
      } else {
        AliveLeft(p[1..], now);
      }
    }
  }
}
