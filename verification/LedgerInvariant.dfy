/** What every committed ledger state satisfies, and what still holds while a product
    refund is part-way through unwinding debt. */
module LedgerInvariant {
  import opened LedgerTables

  /** The tables a refund may touch, as one value. */
  datatype Books = Books(
    orders: map<OrderId, Order>,
    lots: map<OrderId, Lot>,
    debts: map<OrderId, Debt>,
    allocs: seq<Alloc>,
    debits: map<Key, Debit>)

  function Target(b: Books, o: OrderId): int { if o in b.debts then b.debts[o].target else 0 }

  function Collected(b: Books, o: OrderId): int { if o in b.debts then b.debts[o].collected else 0 }

  function Released(b: Books, o: OrderId): int { if o in b.debts then b.debts[o].released else 0 }

  /** Debt of the order that no product refund has forgiven. */
  function ActiveDebt(b: Books, o: OrderId): int { Target(b, o) - Released(b, o) }

  // ---- row-level facts --------------------------------------------------------------

  ghost predicate AllocOk(b: Books, i: nat)
    requires i < |b.allocs|
  {
    var a := b.allocs[i];
    && 0 <= a.refunded <= a.amount && 0 < a.amount <= MAX_ATOMS
    && (a.source.Pack? ==> a.source.lot in b.lots)
    && a.debit in b.debits
    && (a.debit.Collection? ==>
          && a.debit.order in b.debts && a.debit.serial == i
          && b.debits[a.debit].amount == a.amount
          && 0 <= b.debits[a.debit].restored <= a.refunded
          && b.debits[a.debit].closed == !Open(a))
  }

  ghost predicate RowsOk(b: Books) {
    && b.debts.Keys <= b.lots.Keys <= b.orders.Keys
    && (forall i :: 0 <= i < |b.allocs| ==> AllocOk(b, i))
    && (forall k :: k in b.debits && k.Collection? ==> k.serial < |b.allocs| && b.allocs[k.serial].debit == k)
  }

  ghost predicate OrderOk(r: Order) {
    0 < r.pack <= MAX_ATOMS && 0 < r.price && 0 <= r.cash <= r.price && 0 <= r.refunded <= r.pack
  }

  ghost predicate DebtOk(d: Debt) {
    0 <= d.collected && 0 <= d.released && 0 < d.target && 0 <= Uncollected(d)
  }

  /** What ties a lot to its order's cash facts, in every intermediate state. */
  ghost predicate LotOk(b: Books, o: OrderId)
    requires o in b.lots && o in b.orders
  {
    var l := b.lots[o];
    var r := b.orders[o];
    && l.original == r.pack
    && 0 <= l.remaining && 0 <= l.expired && 0 <= l.clawed
    && (l.status != Active ==> l.remaining == 0)
    && (l.status == Active ==> l.expired == 0)
    && (l.status == RefundClosed || l.status == DisputeClosed <==> r.refunded == r.pack)
    && (r.status == Disputed ==> l.status == DisputeClosed)
    // cash taken back is either clawed from the lot or owed as debt
    && r.refunded == l.clawed + Target(b, o)
    // debt arises only once the lot is exhausted, and is forgiven before the lot refills
    && (ActiveDebt(b, o) > 0 ==> l.remaining == 0 && l.expired == 0)
  }

  ghost predicate TermsOk(b: Books) {
    && RowsOk(b)
    && (forall o :: o in b.orders ==> OrderOk(b.orders[o]))
    && (forall o :: o in b.debts ==> DebtOk(b.debts[o]))
    && (forall o :: o in b.lots ==> LotOk(b, o))
  }

  // ---- the two equations a refund suspends while it works on an order ------------------

  /** Collected debt is exactly what the open collections for it still hold. */
  ghost predicate Settled(b: Books, o: OrderId) {
    Collected(b, o) == Sum(b.allocs, ForDebt(o))
  }

  /** Conservation of a lot. `slack` atoms of an allocation being reversed have already
      reached the lot although their allocation is not yet marked. */
  ghost predicate Balanced(b: Books, o: OrderId, slack: int)
    requires o in b.lots
  {
    var l := b.lots[o];
    l.original + slack == l.remaining + l.expired + l.clawed + Released(b, o) + Sum(b.allocs, OnLot(o))
  }

  // ---- acyclicity -----------------------------------------------------------------------

  /** Collection `i` took atoms from the lot of the very order whose debt `j` paid. */
  predicate Feeds(s: seq<Alloc>, i: nat, j: nat)
    requires i < |s| && j < |s|
  {
    && Open(s[i]) && Open(s[j]) && s[i].debit.Collection? && s[j].debit.Collection?
    && s[i].source == Pack(s[j].debit.order)
  }

  /** Whatever was collected from a lot is older than whatever was collected for that lot's
      own debt. Row ids therefore increase along every chain of collections. */
  ghost predicate Acyclic(s: seq<Alloc>) {
    forall i: nat, j: nat :: i < |s| && j < |s| && Feeds(s, i, j) ==> i < j
  }

  // ---- the invariant --------------------------------------------------------------------

  /** Orders whose debt is being unwound, each with the collection being reversed for it. */
  type Unwinding = map<OrderId, nat>

  ghost predicate UnwindingOk(b: Books, busy: Unwinding) {
    forall s :: s in busy ==>
      && s in b.debts && Uncollected(b.debts[s]) == 0
      && busy[s] < |b.allocs| && Open(b.allocs[busy[s]])
      && b.allocs[busy[s]].debit == Collection(s, busy[s])
  }

  /** The invariant while `busy` is being unwound and `slack` atoms of lot `at` are in
      flight. `Core(b, map[], o, 0)` for any `o` is the boundary invariant. */
  ghost predicate Core(b: Books, busy: Unwinding, at: OrderId, slack: int) {
    TermsOk(b) && Acyclic(b.allocs) && UnwindingOk(b, busy) && Equations(b, busy, at, slack)
  }

  ghost predicate Equations(b: Books, busy: Unwinding, at: OrderId, slack: int) {
    forall o :: o in b.lots && o !in busy ==> Settled(b, o) && Balanced(b, o, if o == at then slack else 0)
  }

  /** The debt of `o` was paid only after every collection now being reversed was made. */
  ghost predicate Above(b: Books, busy: Unwinding, o: OrderId) {
    && o !in busy
    && forall j, s :: 0 <= j < |b.allocs| && Open(b.allocs[j]) && Collects(b.allocs[j], o) && s in busy ==> busy[s] < j
  }

  // ---- what unwinding leaves alone --------------------------------------------------------

  predicate SameDraw(x: Alloc, y: Alloc) {
    x.debit == y.debit && x.source == y.source && x.amount == y.amount && x.refunded <= y.refunded
  }

  predicate SameLotTerms(x: Lot, y: Lot) {
    && x.id == y.id && x.original == y.original && x.clawed == y.clawed && x.expiresAt == y.expiresAt
    && (x.status == y.status || (x.status == Active && y.status == Expired))
  }

  predicate Protected(k: Key, busy: set<OrderId>) { k.Product? || k.order in busy }

  ghost predicate KeptAllocs(busy: set<OrderId>, x: seq<Alloc>, y: seq<Alloc>) {
    && |x| <= |y|
    && (forall i :: 0 <= i < |x| ==> SameDraw(x[i], y[i]) && (Protected(x[i].debit, busy) ==> x[i] == y[i]))
    && (forall i :: |x| <= i < |y| ==> !Protected(y[i].debit, busy))
    && (forall s :: s in busy ==> Sum(y, OnLot(s)) == Sum(x, OnLot(s)) && Sum(y, ForDebt(s)) == Sum(x, ForDebt(s)))
  }

  /** From `x` to `y`, everything belonging to a `busy` order, every product operation and
      every cash fact stayed as it was; debts were only collected and forgiven. */
  ghost predicate Kept(busy: set<OrderId>, x: Books, y: Books) {
    && y.orders == x.orders && y.lots.Keys == x.lots.Keys && y.debts.Keys == x.debts.Keys
    && KeptAllocs(busy, x.allocs, y.allocs)
    && (forall o :: o in x.lots ==> SameLotTerms(x.lots[o], y.lots[o]) && (o in busy ==> y.lots[o] == x.lots[o]))
    && (forall o :: o in x.debts ==>
          && y.debts[o].target == x.debts[o].target && x.debts[o].released <= y.debts[o].released
          && (o in busy ==> y.debts[o] == x.debts[o]))
    && (forall k :: k in x.debits ==> k in y.debits && (Protected(k, busy) ==> y.debits[k] == x.debits[k]))
    && (forall k :: k in y.debits && Protected(k, busy) ==> k in x.debits)
  }

  lemma KeptRefl(busy: set<OrderId>, x: Books)
    ensures Kept(busy, x, x)
  {}

  lemma KeptTrans(busy: set<OrderId>, more: set<OrderId>, x: Books, y: Books, z: Books)
    requires Kept(busy, x, y) && Kept(more, y, z) && busy <= more
    ensures Kept(busy, x, z)
  {
    assert KeptAllocs(busy, x.allocs, z.allocs) by {
      forall i | 0 <= i < |x.allocs|
        ensures SameDraw(x.allocs[i], z.allocs[i])
        ensures (Protected(x.allocs[i].debit, busy) ==> x.allocs[i] == z.allocs[i])
      {
        assert SameDraw(x.allocs[i], y.allocs[i]) && SameDraw(y.allocs[i], z.allocs[i]);
      }
      forall i | |x.allocs| <= i < |z.allocs|
        ensures !Protected(z.allocs[i].debit, busy)
      {
        if i < |y.allocs| {
          assert SameDraw(y.allocs[i], z.allocs[i]);
        }
      }
    }
  }

  // ---- consequences ----------------------------------------------------------------------

  lemma RowsBounded(b: Books)
    requires RowsOk(b)
    ensures Bounded(b.allocs)
  {
    forall i | 0 <= i < |b.allocs|
      ensures 0 <= b.allocs[i].refunded <= b.allocs[i].amount
    {
      assert AllocOk(b, i);
    }
  }

  /** An order with nothing collected has no open collection. */
  lemma NothingCollected(b: Books, o: OrderId)
    requires RowsOk(b) && Settled(b, o) && Collected(b, o) == 0
    ensures forall i :: 0 <= i < |b.allocs| && Open(b.allocs[i]) ==> !Collects(b.allocs[i], o)
  {
    forall i | 0 <= i < |b.allocs| && Collects(b.allocs[i], o)
      ensures !Open(b.allocs[i])
    {
      RowsBounded(b);
      SumAtLeast(b.allocs, i, ForDebt(o));
    }
  }

  /** A debt never exceeds what a pack can hold. */
  lemma DebtBound(b: Books, o: OrderId)
    requires TermsOk(b) && o in b.debts
    ensures b.debts[o].target <= MAX_ATOMS && Uncollected(b.debts[o]) <= MAX_ATOMS
  {
    assert o in b.lots && LotOk(b, o) && OrderOk(b.orders[o]) && DebtOk(b.debts[o]);
  }

  /** Active debt never exceeds what is still drawn on the lot, so a terminal lot holds
      nothing and a refund of a drawn amount always fits. */
  lemma DebtIsBacked(b: Books, busy: Unwinding, at: OrderId, o: OrderId)
    requires Core(b, busy, at, 0) && o in b.lots && o !in busy
    ensures ActiveDebt(b, o) <= Sum(b.allocs, OnLot(o))
    ensures b.lots[o].remaining + b.lots[o].expired <= b.lots[o].original - b.orders[o].refunded
    ensures b.orders[o].refunded == b.orders[o].pack ==> ActiveDebt(b, o) == Sum(b.allocs, OnLot(o))
    ensures b.orders[o].refunded == b.orders[o].pack ==> b.lots[o].remaining == 0 && b.lots[o].expired == 0
  {
    assert LotOk(b, o) && Balanced(b, o, 0);
    RowsBounded(b);
    SumNonNegative(b.allocs, OnLot(o));
    if o in b.debts { assert DebtOk(b.debts[o]); }
  }
}
