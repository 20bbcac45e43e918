/** Runs in which an account owes nothing and spends nothing, whatever it did before: what cash refunds and
    disputes leave of a pack does not depend on the order, or the number of times, in which they and the
    payment are delivered. */
module CashRuns {
  import opened Basics
  import opened LedgerTables
  import opened LedgerInvariant
  import opened LedgerSteps
  import opened LedgerBoundary
  import opened CashFacts
  import opened LedgerRuns
  import opened CreditLedger

  predicate Pays(op: Op, o: OrderId) { op.DoPay? && op.order == o }

  /** The order is paid during the run, after checkout has registered it. */
  ghost predicate PaidIn(run: seq<Step>, o: OrderId, t: Option<Terms>) {
    exists j :: 0 <= j < |run| && Pays(run[j].op, o) && Story(run[..j], o, t).Some?
  }

  /** Nothing is charged, only `orders` are claimed against, and the window of the order's lot stays open
      throughout. */
  ghost predicate Untouched(run: seq<Step>, o: OrderId, orders: set<OrderId>) {
    && (forall i :: 0 <= i < |run| ==> Gentle(run[i].op, orders))
    && forall i, j :: 0 <= i < |run| && 0 <= j < |run| && Pays(run[i].op, o) ==> run[j].now < run[i].op.expiresAt
  }

  /** A lot that has lost nothing to expiry, and will lose nothing to it during the run. */
  ghost predicate Stands(lots: map<OrderId, Lot>, o: OrderId, run: seq<Step>) {
    o in lots ==> lots[o].expired == 0 && forall j :: 0 <= j < |run| ==> run[j].now < lots[o].expiresAt
  }

  /** The lot has lost the share of the largest claim, and nothing else. */
  ghost predicate LotIs(l: Lot, v: Terms) {
    RoundedUp(l.clawed, v.pack, v.cash, v.price) && l.remaining == v.pack - l.clawed && l.expired == 0
  }

  /** Nothing was drawn or owed between `x` and `y`. */
  ghost predicate Undrawn(x: Books, y: Books) {
    && y.debts.Keys == x.debts.Keys && |y.allocs| == |x.allocs|
    && forall k: Key :: k.Product? && k in y.debits ==> k in x.debits
  }

  lemma StandsStep(x: Books, y: Books, run: seq<Step>, i: nat, o: OrderId, orders: set<OrderId>)
    requires i < |run| && o in orders && Untouched(run, o, orders) && Clear(x, orders) && Stands(x.lots, o, run)
    requires LotsFollow(x, y, run[i], orders)
    ensures Clear(y, orders) && Undrawn(x, y) && Stands(y.lots, o, run) && (o in x.lots ==> o in y.lots)
    ensures Pays(run[i].op, o) && o in x.orders ==> o in y.lots
  {
    assert Gentle(run[i].op, orders);
    if o in x.lots { assert LotFollows(x.lots[o], y.lots[o], run[i].now); }
  }

  lemma PaidStep(run: seq<Step>, i: nat, o: OrderId, t: Option<Terms>)
    requires i < |run| && PaidIn(run[..i + 1], o, t)
    ensures PaidIn(run[..i], o, t) || (Pays(run[i].op, o) && Story(run[..i], o, t).Some?)
  {
    var j :| 0 <= j < i + 1 && Pays(run[..i + 1][j].op, o) && Story(run[..i + 1][..j], o, t).Some?;
    assert run[..i + 1][..j] == run[..j];
    if j < i {
      assert Pays(run[..i][j].op, o) && run[..i][..j] == run[..j];
    }
  }

  /** From an account that owes nothing, with nothing drawn on or owed by `orders`: whatever else happens in
      such a run, the lot of a paid order among them ends with what the largest claim since its
      registration left of the pack, nothing is drawn, and no order comes to owe anything. */
  method ClearRun(ledger: Ledger, run: seq<Step>, o: OrderId, ghost orders: set<OrderId>)
    requires ledger.Valid() && forall i :: 0 <= i < |run| && run[i].op.DoGrant? ==> run[i].op.monthly <= MAX_ATOMS
    requires Clear(ledger.Tables(), orders) && o in orders && Untouched(run, o, orders) && Stands(ledger.lots, o, run)
    modifies ledger
    ensures ledger.Valid() && Clear(ledger.Tables(), orders) && Undrawn(old(ledger.Tables()), ledger.Tables())
    ensures CashFollows(old(ledger.orders), ledger.orders, run)
    ensures old(o in ledger.lots) || PaidIn(run, o, old(TermsOf(ledger.orders, o))) ==>
      && o in ledger.lots && TermsOf(ledger.orders, o).Some?
      && LotIs(ledger.lots[o], TermsOf(ledger.orders, o).value)
  {
    hide Ledger.Valid, HistoryKept, CashStep, CashFollows, LotsFollow, Clear, Untouched, Stands, LotIs, PaidIn;
    ghost var b := ledger.Tables();
    ghost var x := ledger.orders;
    ghost var t := TermsOf(x, o);
    ghost var held := o in ledger.lots;
    CashRefl(x);
    NotPaidYet(o, t);
    var i := 0;
    assert run[..0] == [];
    while i < |run|
      invariant 0 <= i <= |run| && ledger.Valid() && CashFollows(x, ledger.orders, run[..i])
      invariant Clear(ledger.Tables(), orders) && Undrawn(b, ledger.Tables()) && Stands(ledger.lots, o, run)
      invariant held || PaidIn(run[..i], o, t) ==> o in ledger.lots
    {
      ghost var y := ledger.Tables();
      if PaidIn(run[..i + 1], o, t) { PaidStep(run, i, o, t); }
      Registered(x, ledger.orders, run[..i], o);
      var overflow := Apply(ledger, run[i], orders);
      StandsStep(y, ledger.Tables(), run, i, o, orders);
      CashTrans(x, y.orders, ledger.orders, run, i);
      i := i + 1;
    }
    assert run[..|run|] == run;
    if o in ledger.lots { LotStandsFor(ledger, o, run, orders); }
  }

  /** The orders a run claims against. */
  ghost function ClaimedIn(run: seq<Step>): set<OrderId> {
    set i | 0 <= i < |run| && run[i].op.DoClaim? :: run[i].op.order
  }

  /** In particular, from an account that never spent: there every order may be claimed against. */
  method UnspentRun(ledger: Ledger, run: seq<Step>, o: OrderId)
    requires ledger.Valid() && forall i :: 0 <= i < |run| && run[i].op.DoGrant? ==> run[i].op.monthly <= MAX_ATOMS
    requires Unspent(ledger.Tables()) && Untouched(run, o, ClaimedIn(run)) && Stands(ledger.lots, o, run)
    modifies ledger
    ensures ledger.Valid() && Unspent(ledger.Tables())
    ensures CashFollows(old(ledger.orders), ledger.orders, run)
    ensures old(o in ledger.lots) || PaidIn(run, o, old(TermsOf(ledger.orders, o))) ==>
      && o in ledger.lots && TermsOf(ledger.orders, o).Some?
      && LotIs(ledger.lots[o], TermsOf(ledger.orders, o).value)
  {
    hide Ledger.Valid, CashFollows, Clear, Stands, LotIs, PaidIn;
    ghost var orders := ClaimedIn(run) + {o};
    UnspentIsClear(ledger.Tables(), orders);
    assert Untouched(run, o, orders);
    ClearRun(ledger, run, o, orders);
    StillUnspent(ledger);
  }

  lemma StillUnspent(ledger: Ledger)
    requires ledger.Valid() && ledger.allocs == [] && ledger.debts.Keys == {}
    requires forall k: Key :: k.Product? ==> k !in ledger.debits
    ensures Unspent(ledger.Tables())
  {
    CoreRows(ledger.Tables(), map[], 0, 0);
    assert ledger.debits.Keys == {};
  }

  lemma NotPaidYet(o: OrderId, t: Option<Terms>)
    ensures !PaidIn([], o, t)
  {}

  lemma Registered(x: map<OrderId, Order>, y: map<OrderId, Order>, run: seq<Step>, o: OrderId)
    requires CashFollows(x, y, run)
    ensures Story(run, o, TermsOf(x, o)).Some? ==> o in y
  {
    assert TermsOf(y, o) == Story(run, o, TermsOf(x, o));
  }

  lemma LotStandsFor(ledger: Ledger, o: OrderId, run: seq<Step>, orders: set<OrderId>)
    requires ledger.Valid() && Clear(ledger.Tables(), orders) && o in orders && o in ledger.lots
    requires Stands(ledger.lots, o, run)
    ensures o in ledger.orders && LotIs(ledger.lots[o], TermsOf(ledger.orders, o).value)
  {
    assert Untapped(ledger.Tables(), o);
    UntappedLotFollowsCash(ledger.Tables(), o);
  }

  /** Two runs, each on an account that owes nothing, that deliver the same claims about an order, in any
      order and any number of times, and its payment before, between or after them, leave the same lot,
      and no further debt. `xs` and `ys` are the untapped orders that may be claimed against. */
  method DeliveredEitherWay(first: Ledger, second: Ledger, one: seq<Step>, other: seq<Step>, o: OrderId, ghost v: Terms,
                            ghost xs: set<OrderId>, ghost ys: set<OrderId>)
    requires first != second && first.Valid() && second.Valid() && o in xs && o in ys
    requires Clear(first.Tables(), xs) && Clear(second.Tables(), ys)
    requires forall i :: 0 <= i < |one| && one[i].op.DoGrant? ==> one[i].op.monthly <= MAX_ATOMS
    requires forall i :: 0 <= i < |other| && other[i].op.DoGrant? ==> other[i].op.monthly <= MAX_ATOMS
    requires TermsOf(first.orders, o) == TermsOf(second.orders, o) == Some(v) && o !in first.lots && o !in second.lots
    requires Untouched(one, o, xs) && Untouched(other, o, ys) && PaidIn(one, o, Some(v)) && PaidIn(other, o, Some(v))
    requires forall f :: f in FactsOf(one, o, v.price) <==> f in FactsOf(other, o, v.price)
    modifies first, second
    ensures Clear(first.Tables(), xs) && Clear(second.Tables(), ys) && o in first.lots && o in second.lots
    ensures first.debts.Keys == old(first.debts.Keys) && second.debts.Keys == old(second.debts.Keys)
    ensures first.lots[o].remaining == second.lots[o].remaining && first.lots[o].clawed == second.lots[o].clawed
    ensures var cash := LargestClaim(FactsOf(one, o, v.price), v.price, v.cash);
      LotIs(first.lots[o], v.(cash := cash)) && LotIs(second.lots[o], v.(cash := cash))
  {
    hide Ledger.Valid, Untouched, PaidIn, FactsOf, LargestClaim, RoundedUp, Clear;
    ClearRun(first, one, o, xs);
    ClearRun(second, other, o, ys);
    StoryIsLargest(one, o, v);
    StoryIsLargest(other, o, v);
    DeliveryOrderIsIrrelevant(FactsOf(one, o, v.price), FactsOf(other, o, v.price), v.price, v.cash);
    assert TermsOf(first.orders, o) == Story(one, o, Some(v));
    assert TermsOf(second.orders, o) == Story(other, o, Some(v));
    OneShare(first.lots[o].clawed, second.lots[o].clawed, v.pack,
             LargestClaim(FactsOf(one, o, v.price), v.price, v.cash), v.price);
  }
}
