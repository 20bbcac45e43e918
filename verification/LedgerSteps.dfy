/** The row updates the ledger is built from, and what each does to the invariant. */
module LedgerSteps {
  import opened Basics
  import opened LedgerTables
  import opened LedgerInvariant
  import opened DebtCollection

  function Release(b: Books, o: OrderId, n: int): Books
    requires o in b.debts
  {
    b.(debts := b.debts[o := b.debts[o].(released := b.debts[o].released + n)])
  }

  /** Turns `n` collected atoms of a debt into released ones. */
  function Forgive(b: Books, o: OrderId, n: int): Books
    requires o in b.debts
  {
    var d := b.debts[o];
    b.(debts := b.debts[o := d.(collected := d.collected - n, released := d.released + n)])
  }

  /** Advances the refund marker of allocation `i`, leaving its debit row alone. */
  function Mark(b: Books, i: nat, n: int): Books
    requires i < |b.allocs|
  {
    b.(allocs := b.allocs[i := b.allocs[i].(refunded := b.allocs[i].refunded + n)])
  }

  /** Advances the marker of a collection and records what its debit got back. */
  function Close(b: Books, i: nat, n: int, restored: int): Books
    requires i < |b.allocs| && b.allocs[i].debit in b.debits
  {
    var c := Mark(b, i, n);
    var k := b.allocs[i].debit;
    c.(debits := b.debits[k := b.debits[k].(restored := restored, closed := b.debits[k].closed || !Open(c.allocs[i]))])
  }

  function Refill(b: Books, o: OrderId, n: int): Books
    requires o in b.lots
  {
    b.(lots := b.lots[o := b.lots[o].(remaining := b.lots[o].remaining + n)])
  }

  function Retire(b: Books, o: OrderId, n: int): Books
    requires o in b.lots
  {
    b.(lots := b.lots[o := b.lots[o].(expired := b.lots[o].expired + n)])
  }

  function Expire(b: Books, o: OrderId): Books
    requires o in b.lots
  {
    var l := b.lots[o];
    b.(lots := b.lots[o := l.(expired := l.expired + l.remaining, remaining := 0, status := Expired)])
  }

  /** Pays `n` atoms of the debt of `o` from `source`, with its debit and allocation rows. */
  function Collect(b: Books, o: OrderId, source: Source, n: int, epoch: nat): Books
    requires o in b.debts
  {
    var k := Collection(o, |b.allocs|);
    b.(debts := b.debts[o := b.debts[o].(collected := b.debts[o].collected + n)],
       debits := b.debits[k := Debit(n, epoch, 0, false)],
       allocs := b.allocs + [Alloc(k, source, n, 0)])
  }

  // ---- changing one order's rows ----------------------------------------------------------

  /** `c` differs from `b` at most in the lot and debt row of `o`. */
  ghost predicate OnlyAt(b: Books, c: Books, o: OrderId) {
    && c.orders == b.orders && c.allocs == b.allocs && c.debits == b.debits
    && c.lots.Keys == b.lots.Keys && c.debts.Keys == b.debts.Keys
    && (forall q :: q in b.lots && q != o ==> c.lots[q] == b.lots[q])
    && (forall q :: q in b.debts && q != o ==> c.debts[q] == b.debts[q])
  }

  lemma OnlyLot(b: Books, o: OrderId, l: Lot)
    requires o in b.lots
    ensures OnlyAt(b, b.(lots := b.lots[o := l]), o)
  {}

  lemma OnlyDebt(b: Books, o: OrderId, d: Debt)
    requires o in b.debts
    ensures OnlyAt(b, b.(debts := b.debts[o := d]), o)
  {}

  lemma RowsFrame(b: Books, c: Books)
    requires RowsOk(b) && c.allocs == b.allocs && c.debits == b.debits
    requires c.orders.Keys == b.orders.Keys && c.lots.Keys == b.lots.Keys && c.debts.Keys == b.debts.Keys
    ensures RowsOk(c)
  {
    forall i | 0 <= i < |c.allocs| ensures AllocOk(c, i) { assert AllocOk(b, i); }
  }

  lemma TermsFrame(b: Books, c: Books, o: OrderId)
    requires TermsOk(b) && OnlyAt(b, c, o) && o in b.lots && LotOk(c, o)
    requires o in c.debts ==> DebtOk(c.debts[o])
    ensures TermsOk(c)
  {
    RowsFrame(b, c);
    forall q | q in c.lots ensures LotOk(c, q) { assert LotOk(b, q); }
    forall q | q in c.debts ensures DebtOk(c.debts[q]) { assert DebtOk(b.debts[q]); }
  }

  lemma EquationsFrame(b: Books, busy: Unwinding, c: Books, more: Unwinding, o: OrderId, slack: int, left: int)
    requires Equations(b, busy, o, slack) && OnlyAt(b, c, o) && b.debts.Keys <= b.lots.Keys
    requires busy.Keys <= more.Keys
    requires o in c.lots && o !in more ==> Settled(c, o) && Balanced(c, o, left)
    ensures Equations(c, more, o, left)
  {
    forall q | q in c.lots && q !in more && q != o ensures Settled(c, q) && Balanced(c, q, 0) {
      assert Settled(b, q) && Balanced(b, q, 0);
    }
  }

  lemma KeptFrame(b: Books, busy: set<OrderId>, c: Books, o: OrderId)
    requires OnlyAt(b, c, o) && o !in busy && o in b.lots && SameLotTerms(b.lots[o], c.lots[o])
    requires o in b.debts ==> c.debts[o].target == b.debts[o].target && b.debts[o].released <= c.debts[o].released
    ensures Kept(busy, b, c)
  {
    assert forall q :: q in b.lots ==> SameLotTerms(b.lots[q], c.lots[q]);
  }

  /** What the invariant says about one order that is not being unwound. */
  lemma CoreAt(b: Books, busy: Unwinding, o: OrderId, slack: int)
    requires Core(b, busy, o, slack) && o in b.lots && o !in busy
    ensures o in b.orders && LotOk(b, o) && Settled(b, o) && Balanced(b, o, slack)
    ensures o in b.debts ==> DebtOk(b.debts[o])
  {}

  lemma CoreDebts(b: Books, busy: Unwinding, at: OrderId, slack: int)
    requires Core(b, busy, at, slack)
    ensures forall o :: o in b.debts ==> 0 <= Uncollected(b.debts[o])
  {
    forall o | o in b.debts ensures 0 <= Uncollected(b.debts[o]) { assert DebtOk(b.debts[o]); }
  }

  lemma CoreFrame(b: Books, busy: Unwinding, c: Books, o: OrderId, slack: int, left: int)
    requires Core(b, busy, o, slack) && OnlyAt(b, c, o) && o in b.lots && o !in busy && o in c.orders
    requires LotOk(c, o) && Settled(c, o) && Balanced(c, o, left)
    requires o in c.debts ==> DebtOk(c.debts[o])
    ensures Core(c, busy, o, left)
  {
    TermsFrame(b, c, o);
    EquationsFrame(b, busy, c, busy, o, slack, left);
  }

  // ---- forgiving debt -------------------------------------------------------------------------

  lemma ReleaseKeeps(b: Books, busy: Unwinding, o: OrderId, slack: int, n: int)
    requires Core(b, busy, o, slack) && o in b.debts && o !in busy
    requires 0 <= n <= Uncollected(b.debts[o])
    ensures Core(Release(b, o, n), busy, o, slack + n)
    ensures Kept(busy.Keys, b, Release(b, o, n))
  {
    var c := Release(b, o, n);
    OnlyDebt(b, o, c.debts[o]);
    ReleaseLocal(b, busy, o, slack, n);
    CoreFrame(b, busy, c, o, slack, slack + n);
    KeptFrame(b, busy.Keys, c, o);
  }

  lemma ReleaseLocal(b: Books, busy: Unwinding, o: OrderId, slack: int, n: int)
    requires Core(b, busy, o, slack) && o in b.debts && o !in busy
    requires 0 <= n <= Uncollected(b.debts[o])
    ensures var c := Release(b, o, n);
      && o in c.orders && LotOk(c, o) && Settled(c, o) && Balanced(c, o, slack + n) && DebtOk(c.debts[o])
      && SameLotTerms(b.lots[o], c.lots[o])
  {
    CoreAt(b, busy, o, slack);
  }

  // ---- reversing a collection -------------------------------------------------------------

  /** No open collection draws on the lot of an order whose debt was paid earlier. */
  lemma SourceNotOlder(s: seq<Alloc>, c: nat)
    requires Acyclic(s) && c < |s| && Open(s[c]) && s[c].debit.Collection?
    ensures forall j :: 0 <= j <= c && Open(s[j]) && s[j].debit.Collection? ==> s[c].source != Pack(s[j].debit.order)
  {
    forall j | 0 <= j <= c && Open(s[j]) && s[j].debit.Collection?
      ensures s[c].source != Pack(s[j].debit.order)
    {
      assert !Feeds(s, c, j);
    }
  }

  /** A collection's source lot is not being unwound, and the next level starts above it. */
  lemma SourceIsAbove(b: Books, busy: Unwinding, o: OrderId, c: nat)
    requires RowsOk(b) && Acyclic(b.allocs) && UnwindingOk(b, busy) && Above(b, busy, o)
    requires c < |b.allocs| && Open(b.allocs[c]) && Collects(b.allocs[c], o) && b.allocs[c].source.Pack?
    ensures Above(b, busy[o := c], b.allocs[c].source.lot)
  {
    var m := b.allocs[c].source.lot;
    SourceNotOlder(b.allocs, c);
    assert forall s :: s in busy ==> busy[s] < c;
    forall j | 0 <= j < |b.allocs| && Open(b.allocs[j]) && Collects(b.allocs[j], m)
      ensures c < j
    {
      assert Feeds(b.allocs, c, j);
    }
  }

  lemma BeginReversal(b: Books, busy: Unwinding, o: OrderId, slack: int, c: nat, n: int)
    requires Core(b, busy, o, slack) && Above(b, busy, o)
    requires o in b.debts && Uncollected(b.debts[o]) == 0
    requires c < |b.allocs| && Collects(b.allocs[c], o)
    requires 0 < n <= b.allocs[c].amount - b.allocs[c].refunded
    ensures n <= b.debts[o].collected
    ensures Core(Forgive(b, o, n), busy[o := c], o, 0)
    ensures b.allocs[c].source.Pack? ==> Above(Forgive(b, o, n), busy[o := c], b.allocs[c].source.lot)
    ensures Kept(busy.Keys, b, Forgive(b, o, n))
  {
    var x := Forgive(b, o, n);
    CoreAt(b, busy, o, slack);
    OpenIsCollected(b, o, c);
    if b.allocs[c].source.Pack? {
      SourceIsAbove(b, busy, o, c);
    }
    OnlyDebt(b, o, x.debts[o]);
    KeptFrame(b, busy.Keys, x, o);
    ForgiveCore(b, busy, o, slack, c, n);
  }

  lemma ForgiveCore(b: Books, busy: Unwinding, o: OrderId, slack: int, c: nat, n: int)
    requires Core(b, busy, o, slack) && o !in busy
    requires o in b.debts && Uncollected(b.debts[o]) == 0 && 0 < n <= b.debts[o].collected
    requires c < |b.allocs| && Collects(b.allocs[c], o) && Open(b.allocs[c])
    ensures Core(Forgive(b, o, n), busy[o := c], o, 0)
  {
    var x := Forgive(b, o, n);
    CoreAt(b, busy, o, slack);
    assert AllocOk(b, c);
    OnlyDebt(b, o, x.debts[o]);
    ForgiveLocal(b, o, n);
    hide RowsOk, LotOk, Settled, Balanced, DebtOk, OnlyAt, Acyclic;
    TermsFrame(b, x, o);
    EquationsFrame(b, busy, x, busy[o := c], o, slack, 0);
  }

  lemma ForgiveLocal(b: Books, o: OrderId, n: int)
    requires TermsOk(b) && o in b.debts && 0 < n <= b.debts[o].collected
    ensures o in b.lots && o in b.orders && LotOk(Forgive(b, o, n), o) && DebtOk(Forgive(b, o, n).debts[o])
  {
    assert LotOk(b, o) && DebtOk(b.debts[o]);
  }

  lemma OpenIsCollected(b: Books, o: OrderId, c: nat)
    requires RowsOk(b) && Settled(b, o) && c < |b.allocs| && Collects(b.allocs[c], o)
    ensures b.allocs[c].amount - b.allocs[c].refunded <= Collected(b, o)
  {
    RowsBounded(b);
    SumAtLeast(b.allocs, c, ForDebt(o));
  }

  lemma CloseRows(b: Books, c: nat, n: int, restored: int)
    requires RowsOk(b) && c < |b.allocs| && b.allocs[c].debit.Collection?
    requires 0 < n <= b.allocs[c].amount - b.allocs[c].refunded
    requires 0 <= restored <= b.allocs[c].refunded + n
    requires b.allocs[c].debit in b.debits
    ensures RowsOk(Close(b, c, n, restored))
  {
    var x := Close(b, c, n, restored);
    forall i | 0 <= i < |x.allocs| ensures AllocOk(x, i) {
      assert AllocOk(b, i) && AllocOk(b, c);
    }
  }

  lemma MarkAcyclic(s: seq<Alloc>, i: nat, a: Alloc)
    requires Acyclic(s) && i < |s| && SameDraw(s[i], a)
    ensures Acyclic(s[i := a])
  {
    var t := s[i := a];
    forall j: nat, k: nat | j < |t| && k < |t| && Feeds(t, j, k)
      ensures j < k
    {
      assert Feeds(s, j, k);
    }
  }

  /** Marking the reversed collection settles its debt and its source lot again. */
  lemma EndReversal(b: Books, busy: Unwinding, o: OrderId, slack: int, c: nat, n: int, y: Books, restored: int)
    requires Core(b, busy, o, slack) && Above(b, busy, o)
    requires o in b.debts && Uncollected(b.debts[o]) == 0
    requires c < |b.allocs| && Collects(b.allocs[c], o)
    requires 0 < n <= b.allocs[c].amount - b.allocs[c].refunded
    requires Kept(busy.Keys + {o}, Forgive(b, o, n), y)
    requires b.allocs[c].source.Pack? ==> Core(y, busy[o := c], b.allocs[c].source.lot, n)
    requires b.allocs[c].source.Subscription? ==> Core(y, busy[o := c], o, 0)
    requires 0 <= restored <= b.allocs[c].refunded + n
    ensures c < |y.allocs| && y.allocs[c] == b.allocs[c] && y.allocs[c].debit in y.debits
    ensures Core(Close(y, c, n, restored), busy, o, slack + n)
    ensures Kept(busy.Keys, b, Close(y, c, n, restored))
  {
    CollectionUntouched(b, o, c, n, busy.Keys + {o}, y);
    SourceNotOlder(b.allocs, c);
    CloseRows(y, c, n, restored);
    MarkAcyclic(y.allocs, c, Close(y, c, n, restored).allocs[c]);
    EndReversalEquations(b, busy, o, slack, c, n, y, restored);
    EndReversalKept(b, busy, o, c, n, y, restored);
    EndReversalTerms(y, busy, o, c, n, restored);
  }

  /** What the reversal left alone, and what it did to the debt of `o`. */
  lemma AfterReversal(b: Books, busy: set<OrderId>, o: OrderId, c: nat, n: int, y: Books, restored: int)
    requires o in b.debts && o in b.lots && o in busy && Kept(busy, Forgive(b, o, n), y)
    requires c < |y.allocs| && y.allocs[c].debit in y.debits
    ensures o in y.lots && y.lots[o] == b.lots[o] && o in y.debts && y.debts[o] == Forgive(b, o, n).debts[o]
    ensures Sum(Close(y, c, n, restored).allocs, Everything) == Sum(y.allocs, Everything)
  {
    SumUpdate(y.allocs, c, Close(y, c, n, restored).allocs[c], Everything);
  }

  lemma CollectionUntouched(b: Books, o: OrderId, c: nat, n: int, busy: set<OrderId>, y: Books)
    requires RowsOk(b) && o in b.debts && o in busy
    requires c < |b.allocs| && Collects(b.allocs[c], o)
    requires Kept(busy, Forgive(b, o, n), y)
    ensures c < |y.allocs| && y.allocs[c] == b.allocs[c] && y.allocs[c].debit in y.debits
    ensures y.debts[o] == Forgive(b, o, n).debts[o]
  {
    assert AllocOk(b, c);
    assert Protected(b.allocs[c].debit, busy);
  }

  lemma EndReversalTerms(y: Books, busy: Unwinding, o: OrderId, c: nat, n: int, restored: int)
    requires TermsOk(y) && UnwindingOk(y, busy[o := c]) && o !in busy
    requires c < |y.allocs| && y.allocs[c].debit in y.debits && Collects(y.allocs[c], o)
    requires RowsOk(Close(y, c, n, restored))
    ensures TermsOk(Close(y, c, n, restored)) && UnwindingOk(Close(y, c, n, restored), busy)
  {
    var z := Close(y, c, n, restored);
    forall q | q in z.lots ensures LotOk(z, q) { assert LotOk(y, q); }
    forall s | s in busy
      ensures s in z.debts && Uncollected(z.debts[s]) == 0 && busy[s] < |z.allocs| && Open(z.allocs[busy[s]])
           && z.allocs[busy[s]].debit == Collection(s, busy[s])
    {
      assert busy[o := c][s] == busy[s];
    }
  }

  lemma EndReversalEquations(b: Books, busy: Unwinding, o: OrderId, slack: int, c: nat, n: int, y: Books, restored: int)
    requires Equations(b, busy, o, slack) && o !in busy && o in b.lots
    requires o in b.debts && c < |b.allocs| && Collects(b.allocs[c], o) && b.allocs[c].source != Pack(o)
    requires KeptAllocs(busy.Keys + {o}, b.allocs, y.allocs)
    requires o in y.lots && y.lots[o] == b.lots[o] && o in y.debts && y.debts[o] == Forgive(b, o, n).debts[o]
    requires b.allocs[c].source.Pack? ==> Equations(y, busy[o := c], b.allocs[c].source.lot, n)
    requires b.allocs[c].source.Subscription? ==> Equations(y, busy[o := c], o, 0)
    requires c < |y.allocs| && y.allocs[c] == b.allocs[c] && y.allocs[c].debit in y.debits
    ensures Equations(Close(y, c, n, restored), busy, o, slack + n)
  {
    var z := Close(y, c, n, restored);
    forall q | q in z.lots && q !in busy
      ensures Settled(z, q) && Balanced(z, q, if q == o then slack + n else 0)
    {
      SumUpdate(y.allocs, c, z.allocs[c], ForDebt(q));
      SumUpdate(y.allocs, c, z.allocs[c], OnLot(q));
      if q == o {
        assert o in busy.Keys + {o};
        assert Settled(b, o) && Balanced(b, o, slack);
      } else {
        assert q !in busy[o := c];
        assert Settled(y, q) && Balanced(y, q, if b.allocs[c].source == Pack(q) then n else 0);
      }
    }
  }

  lemma EndReversalKept(b: Books, busy: Unwinding, o: OrderId, c: nat, n: int, y: Books, restored: int)
    requires UnwindingOk(b, busy) && Acyclic(b.allocs) && Above(b, busy, o)
    requires o in b.debts && c < |b.allocs| && Collects(b.allocs[c], o) && Open(b.allocs[c])
    requires 0 < n
    requires Kept(busy.Keys + {o}, Forgive(b, o, n), y)
    requires c < |y.allocs| && y.allocs[c] == b.allocs[c] && y.allocs[c].debit in y.debits
    ensures Kept(busy.Keys, b, Close(y, c, n, restored))
  {
    hide Kept, KeptAllocs, UnwindingOk, Acyclic, Above;
    var z := Close(y, c, n, restored);
    SourceNotBusy(b, busy, o, c);
    KeptRows(busy.Keys + {o}, Forgive(b, o, n), y);
    MarkKept(b.allocs, y.allocs, busy.Keys, o, c, z.allocs[c]);
    OthersKept(Forgive(b, o, n), busy.Keys, o, y, z);
    ForgivenKept(busy.Keys, b, o, n, z);
  }

  lemma ForgivenKept(busy: set<OrderId>, b: Books, o: OrderId, n: int, z: Books)
    requires o in b.debts && o !in busy && 0 < n && Kept(busy, Forgive(b, o, n), z)
    ensures Kept(busy, b, z)
  {
    hide KeptAllocs;
  }

  lemma SourceNotBusy(b: Books, busy: Unwinding, o: OrderId, c: nat)
    requires UnwindingOk(b, busy) && Acyclic(b.allocs) && Above(b, busy, o)
    requires c < |b.allocs| && Collects(b.allocs[c], o) && Open(b.allocs[c])
    ensures o !in busy.Keys && forall q :: q in busy.Keys ==> b.allocs[c].source != Pack(q)
  {
    SourceNotOlder(b.allocs, c);
    assert forall s :: s in busy ==> busy[s] < c;
  }

  lemma KeptRows(busy: set<OrderId>, x: Books, y: Books)
    requires Kept(busy, x, y)
    ensures KeptAllocs(busy, x.allocs, y.allocs)
  {}

  /** The non-allocation part of Kept, with `o` no longer protected. */
  lemma OthersKept(x: Books, busy: set<OrderId>, o: OrderId, y: Books, z: Books)
    requires Kept(busy + {o}, x, y) && o !in busy
    requires z.orders == y.orders && z.lots == y.lots && z.debts == y.debts
    requires z.debits.Keys == y.debits.Keys
    requires forall k :: k in y.debits && !(k.Collection? && k.order == o) ==> z.debits[k] == y.debits[k]
    requires KeptAllocs(busy, x.allocs, z.allocs)
    ensures Kept(busy, x, z)
  {}

  lemma MarkKept(s: seq<Alloc>, t: seq<Alloc>, busy: set<OrderId>, o: OrderId, c: nat, a: Alloc)
    requires KeptAllocs(busy + {o}, s, t) && o !in busy
    requires c < |s| && Collects(s[c], o) && t[c] == s[c] && SameDraw(s[c], a)
    requires forall q :: q in busy ==> s[c].source != Pack(q)
    ensures KeptAllocs(busy, s, t[c := a])
  {
    forall i | 0 <= i < |s|
      ensures SameDraw(s[i], t[c := a][i]) && (Protected(s[i].debit, busy) ==> s[i] == t[c := a][i])
    {
      assert SameDraw(s[i], t[i]);
    }
    forall q | q in busy
      ensures Sum(t[c := a], OnLot(q)) == Sum(s, OnLot(q)) && Sum(t[c := a], ForDebt(q)) == Sum(s, ForDebt(q))
    {
      SumUpdate(t, c, a, ForDebt(q));
      SumUpdate(t, c, a, OnLot(q));
      assert q in busy + {o};
    }
  }

  // ---- moving a lot's own atoms ---------------------------------------------------------------

  lemma RefillKeeps(b: Books, busy: Unwinding, o: OrderId, slack: int, n: int)
    requires Core(b, busy, o, slack) && o in b.lots && o !in busy
    requires 0 <= n || 0 <= -n <= b.lots[o].remaining
    requires n > 0 ==> b.lots[o].status == Active && ActiveDebt(b, o) == 0
    ensures Core(Refill(b, o, n), busy, o, slack + n)
    ensures Kept(busy.Keys, b, Refill(b, o, n))
  {
    assert LotOk(b, o);
    LotMoveKeeps(b, busy, o, slack, Refill(b, o, n).lots[o], n);
  }

  lemma RetireKeeps(b: Books, busy: Unwinding, o: OrderId, slack: int, n: int)
    requires Core(b, busy, o, slack) && o in b.lots && o !in busy && 0 <= n
    requires b.lots[o].status == Expired && ActiveDebt(b, o) == 0
    ensures Core(Retire(b, o, n), busy, o, slack + n)
    ensures Kept(busy.Keys, b, Retire(b, o, n))
  {
    assert LotOk(b, o);
    LotMoveKeeps(b, busy, o, slack, Retire(b, o, n).lots[o], n);
  }

  lemma ExpireKeeps(b: Books, busy: Unwinding, o: OrderId, slack: int)
    requires Core(b, busy, o, slack) && o in b.lots && o !in busy
    requires b.lots[o].status == Active
    ensures Core(Expire(b, o), busy, o, slack)
    ensures Kept(busy.Keys, b, Expire(b, o))
  {
    assert LotOk(b, o);
    LotMoveKeeps(b, busy, o, slack, Expire(b, o).lots[o], 0);
  }

  /** Any change of one idle lot's own holdings by `n` atoms in total. */
  lemma LotMoveKeeps(b: Books, busy: Unwinding, o: OrderId, slack: int, l: Lot, n: int)
    requires Core(b, busy, o, slack) && o in b.lots && o !in busy
    requires SameLotTerms(b.lots[o], l) && 0 <= l.remaining && 0 <= l.expired
    requires l.remaining + l.expired == b.lots[o].remaining + b.lots[o].expired + n
    requires l.status != Active ==> l.remaining == 0
    requires l.status == Active ==> l.expired == 0
    requires n > 0 ==> ActiveDebt(b, o) == 0
    ensures Core(b.(lots := b.lots[o := l]), busy, o, slack + n)
    ensures Kept(busy.Keys, b, b.(lots := b.lots[o := l]))
  {
    hide *;
    var c := b.(lots := b.lots[o := l]);
    OnlyLot(b, o, l);
    LotMoveLocal(b, busy, o, slack, l, n);
    CoreFrame(b, busy, c, o, slack, slack + n);
    KeptFrame(b, busy.Keys, c, o);
  }

  lemma LotMoveLocal(b: Books, busy: Unwinding, o: OrderId, slack: int, l: Lot, n: int)
    requires Core(b, busy, o, slack) && o in b.lots && o !in busy
    requires SameLotTerms(b.lots[o], l) && 0 <= l.remaining && 0 <= l.expired
    requires l.remaining + l.expired == b.lots[o].remaining + b.lots[o].expired + n
    requires l.status != Active ==> l.remaining == 0
    requires l.status == Active ==> l.expired == 0
    requires n > 0 ==> ActiveDebt(b, o) == 0
    ensures var c := b.(lots := b.lots[o := l]);
      && o in c.orders && LotOk(c, o) && Settled(c, o) && Balanced(c, o, slack + n)
      && (o in c.debts ==> DebtOk(c.debts[o]))
  {
    CoreAt(b, busy, o, slack);
  }

  // ---- paying debt ------------------------------------------------------------------------------

  /** `source` may be drawn on to pay debt: a lot only while its own debt is not active. */
  ghost predicate MayPay(b: Books, busy: Unwinding, at: OrderId, source: Source) {
    source.Pack? ==> source.lot in b.lots && source.lot !in busy && ActiveDebt(b, source.lot) == 0 && at == source.lot
  }

  lemma CollectKeeps(b: Books, busy: Unwinding, at: OrderId, slack: int, o: OrderId, source: Source, n: int, epoch: nat)
    requires Core(b, busy, at, slack) && MayPay(b, busy, at, source)
    requires o in b.debts && 0 < n <= Uncollected(b.debts[o])
    ensures Core(Collect(b, o, source, n, epoch), busy, at, slack + (if source.Pack? then n else 0))
    ensures Kept(busy.Keys, b, Collect(b, o, source, n, epoch))
  {
    var a := Alloc(Collection(o, |b.allocs|), source, n, 0);
    if source.Pack? {
      assert LotOk(b, source.lot);
      if source.lot in b.debts { assert DebtOk(b.debts[source.lot]); }
      NothingCollected(b, source.lot);
    }
    CollectAcyclic(b.allocs, a);
    CollectTerms(b, busy, o, source, n, epoch);
    CollectEquations(b, busy, at, slack, o, source, n, epoch);
    CollectKept(b, busy, o, source, n, epoch);
  }

  lemma CollectTerms(b: Books, busy: Unwinding, o: OrderId, source: Source, n: int, epoch: nat)
    requires TermsOk(b) && UnwindingOk(b, busy) && o in b.debts && 0 < n <= Uncollected(b.debts[o])
    requires source.Pack? ==> source.lot in b.lots
    ensures TermsOk(Collect(b, o, source, n, epoch)) && UnwindingOk(Collect(b, o, source, n, epoch), busy)
  {
    CollectUnwinding(b, busy, o, source, n, epoch);
    hide UnwindingOk, Uncollected;
    CollectTables(b, o, source, n, epoch);
  }

  lemma CollectUnwinding(b: Books, busy: Unwinding, o: OrderId, source: Source, n: int, epoch: nat)
    requires UnwindingOk(b, busy) && o in b.debts && 0 < n <= Uncollected(b.debts[o])
    ensures UnwindingOk(Collect(b, o, source, n, epoch), busy)
  {}

  lemma CollectTables(b: Books, o: OrderId, source: Source, n: int, epoch: nat)
    requires TermsOk(b) && o in b.debts && 0 < n <= Uncollected(b.debts[o])
    requires source.Pack? ==> source.lot in b.lots
    ensures TermsOk(Collect(b, o, source, n, epoch))
  {
    DebtBound(b, o);
    CollectRows(b, o, source, n, epoch);
    CollectLots(b, o, source, n, epoch);
    hide RowsOk, LotOk, OrderOk, DebtOk;
  }

  lemma CollectLots(b: Books, o: OrderId, source: Source, n: int, epoch: nat)
    requires TermsOk(b) && o in b.debts && 0 < n <= Uncollected(b.debts[o])
    ensures var c := Collect(b, o, source, n, epoch);
      && (forall q :: q in c.lots ==> q in c.orders && LotOk(c, q)) && (forall q :: q in c.debts ==> DebtOk(c.debts[q]))
  {
    var c := Collect(b, o, source, n, epoch);
    assert DebtOk(b.debts[o]);
    forall q | q in c.lots ensures LotOk(c, q) { assert LotOk(b, q); }
  }

  /** A collection is a new debit of exactly one allocation: that allocation is all the debit drew, and
      from nowhere but its source; no other debit, and nothing another debit drew, changes. */
  lemma CollectionIsWhole(b: Books, o: OrderId, source: Source, n: int, epoch: nat)
    requires RowsOk(b) && o in b.debts
    ensures var key := Collection(o, |b.allocs|); var z := Collect(b, o, source, n, epoch);
      && key !in b.debits && key in z.debits && z.debits[key].amount == Sum(z.allocs, OfDebit(key)) == n
      && (forall i :: 0 <= i < |z.allocs| && z.allocs[i].debit == key ==> z.allocs[i].source == source)
      && (forall k: Key :: k != key ==> (k in z.debits <==> k in b.debits))
      && (forall k: Key :: k != key ==> Sum(z.allocs, OfDebit(k)) == Sum(b.allocs, OfDebit(k)))
      && (forall k: Key :: k in b.debits ==> z.debits[k] == b.debits[k])
  {
    var key := Collection(o, |b.allocs|);
    forall i | 0 <= i < |b.allocs| ensures b.allocs[i].debit != key { assert AllocOk(b, i); }
    SumZero(b.allocs, OfDebit(key));
    forall k: Key ensures Sum(b.allocs + [Alloc(key, source, n, 0)], OfDebit(k))
      == Sum(b.allocs, OfDebit(k)) + (if k == key then n else 0) {
      SumAppend(b.allocs, Alloc(key, source, n, 0), OfDebit(k));
    }
  }

  lemma CollectRows(b: Books, o: OrderId, source: Source, n: int, epoch: nat)
    requires RowsOk(b) && o in b.debts && 0 < n <= MAX_ATOMS
    requires source.Pack? ==> source.lot in b.lots
    ensures RowsOk(Collect(b, o, source, n, epoch))
  {
    var c := Collect(b, o, source, n, epoch);
    forall i | 0 <= i < |c.allocs| ensures AllocOk(c, i) {
      if i < |b.allocs| { assert AllocOk(b, i); }
    }
  }

  lemma CollectEquations(b: Books, busy: Unwinding, at: OrderId, slack: int, o: OrderId, source: Source, n: int,
                         epoch: nat)
    requires Equations(b, busy, at, slack) && o in b.debts && b.debts.Keys <= b.lots.Keys
    requires source.Pack? ==> at == source.lot
    ensures Equations(Collect(b, o, source, n, epoch), busy, at, slack + (if source.Pack? then n else 0))
  {
    var c := Collect(b, o, source, n, epoch);
    var a := Alloc(Collection(o, |b.allocs|), source, n, 0);
    forall q | q in c.lots && q !in busy
      ensures Settled(c, q) && Balanced(c, q, if q == at then slack + (if source.Pack? then n else 0) else 0)
    {
      SumAppend(b.allocs, a, ForDebt(q));
      SumAppend(b.allocs, a, OnLot(q));
      assert Settled(b, q) && Balanced(b, q, if q == at then slack else 0);
    }
  }

  lemma CollectKept(b: Books, busy: Unwinding, o: OrderId, source: Source, n: int, epoch: nat)
    requires UnwindingOk(b, busy) && o in b.debts && 0 < n <= Uncollected(b.debts[o])
    requires source.Pack? ==> source.lot !in busy
    ensures Kept(busy.Keys, b, Collect(b, o, source, n, epoch))
  {
    assert o !in busy.Keys;
    AppendKept(b.allocs, busy.Keys, Alloc(Collection(o, |b.allocs|), source, n, 0));
  }

  lemma AppendKept(s: seq<Alloc>, busy: set<OrderId>, a: Alloc)
    requires !Protected(a.debit, busy) && (a.source.Pack? ==> a.source.lot !in busy)
    ensures KeptAllocs(busy, s, s + [a])
  {
    forall q | q in busy
      ensures Sum(s + [a], OnLot(q)) == Sum(s, OnLot(q)) && Sum(s + [a], ForDebt(q)) == Sum(s, ForDebt(q))
    {
      SumAppend(s, a, ForDebt(q));
      SumAppend(s, a, OnLot(q));
    }
  }

  /** A new collection is younger than all others, so it only matters that its source lot
      has no open collection of its own. */
  lemma CollectAcyclic(s: seq<Alloc>, a: Alloc)
    requires Acyclic(s) && a.debit.Collection? && a.source != Pack(a.debit.order)
    requires a.source.Pack? ==> forall i :: 0 <= i < |s| && Open(s[i]) ==> !Collects(s[i], a.source.lot)
    ensures Acyclic(s + [a])
  {
    var t := s + [a];
    forall i: nat, j: nat | i < |t| && j < |t| && Feeds(t, i, j)
      ensures i < j
    {
      if i < |s| && j < |s| {
        assert Feeds(s, i, j);
      }
    }
  }

  /** A collection loop in front of queue position `i`, with `remaining` of `available` atoms left: `b`
      are the tables before it, `y` the tables now. Atoms of a lot are taken from it at the end. */
  ghost predicate Paying(b: Books, y: Books, q: seq<OrderId>, i: int, remaining: int, available: int, busy: Unwinding,
                         at: OrderId, slack: int, source: Source) {
    && Pass(q, b.debts, y.debts, i, remaining, available)
    && Core(y, busy, at, slack + (if source.Pack? then available - remaining else 0)) && MayPay(y, busy, at, source)
    && Kept(busy.Keys, b, y) && y.lots == b.lots
    && Sum(y.allocs, Everything) == Sum(b.allocs, Everything) + available - remaining
    && DrawnMore(b.allocs, y.allocs, source, available - remaining)
    && (remaining == available ==> y == b)
  }

  lemma PayingStart(b: Books, q: seq<OrderId>, available: int, busy: Unwinding, at: OrderId, slack: int, source: Source)
    requires Core(b, busy, at, slack) && MayPay(b, busy, at, source) && Queued(q, b.debts) && 0 <= available
    ensures Paying(b, b, q, 0, available, available, busy, at, slack, source)
  {
    CoreDebts(b, busy, at, slack);
    PassStart(q, b.debts, available);
  }

  lemma PayingAt(b: Books, y: Books, q: seq<OrderId>, i: int, remaining: int, available: int, busy: Unwinding,
                 at: OrderId, slack: int, source: Source)
    requires Paying(b, y, q, i, remaining, available, busy, at, slack, source) && 0 <= i < |q|
    ensures q[i] in b.debts && q[i] in y.debts && y.debts[q[i]] == b.debts[q[i]] && 0 <= Uncollected(b.debts[q[i]])
    ensures Uncollected(b.debts[q[i]]) == 0 ==> Paying(b, y, q, i + 1, remaining, available, busy, at, slack, source)
  {
    hide Core, Kept;
    PassAt(q, b.debts, y.debts, i, remaining, available);
  }

  lemma PayingPay(b: Books, y: Books, q: seq<OrderId>, i: int, remaining: int, available: int, busy: Unwinding,
                  at: OrderId, slack: int, source: Source, amount: int, epoch: nat)
    requires Paying(b, y, q, i, remaining, available, busy, at, slack, source) && 0 <= i < |q|
    requires q[i] in b.debts && q[i] in y.debts && 0 < amount == Min(remaining, Uncollected(b.debts[q[i]]))
    requires y.debts[q[i]] == b.debts[q[i]]
    ensures Paying(b, Collect(y, q[i], source, amount, epoch), q, i + 1, remaining - amount, available, busy, at, slack,
                   source)
  {
    hide Core, Kept, Pass, MayPay, Sum, DrawnMore;
    PayingLeft(b, y, q, i, remaining, available, busy, at, slack, source);
    PayingPayBooks(b, y, q[i], remaining, available, busy, at, slack, source, amount, epoch);
    PassPayTables(q, b.debts, y, i, remaining, available, source, amount, epoch);
    hide *;
    PayingBuild(b, Collect(y, q[i], source, amount, epoch), q, i + 1, remaining - amount, available, busy, at, slack,
                source);
  }

  lemma PassPayTables(q: seq<OrderId>, x: map<OrderId, Debt>, y: Books, i: int, remaining: int, available: int,
                      source: Source, amount: int, epoch: nat)
    requires Pass(q, x, y.debts, i, remaining, available) && 0 <= i < |q| && q[i] in x && q[i] in y.debts
    requires amount == Min(remaining, Uncollected(x[q[i]])) && 0 < amount
    ensures Pass(q, x, Collect(y, q[i], source, amount, epoch).debts, i + 1, remaining - amount, available)
  {
    PassPay(q, x, y.debts, i, remaining, available, amount);
  }

  lemma PayingPayBooks(b: Books, y: Books, o: OrderId, remaining: int, available: int, busy: Unwinding, at: OrderId,
                       slack: int, source: Source, amount: int, epoch: nat)
    requires Core(y, busy, at, slack + (if source.Pack? then available - remaining else 0))
    requires MayPay(y, busy, at, source)
    requires Kept(busy.Keys, b, y) && y.lots == b.lots && o in y.debts && 0 < amount <= Uncollected(y.debts[o])
    requires Sum(y.allocs, Everything) == Sum(b.allocs, Everything) + available - remaining
    requires DrawnMore(b.allocs, y.allocs, source, available - remaining)
    ensures var z := Collect(y, o, source, amount, epoch);
      && Core(z, busy, at, slack + (if source.Pack? then available - (remaining - amount) else 0))
      && MayPay(z, busy, at, source)
      && Kept(busy.Keys, b, z) && z.lots == b.lots
      && Sum(z.allocs, Everything) == Sum(b.allocs, Everything) + available - (remaining - amount)
      && DrawnMore(b.allocs, z.allocs, source, available - (remaining - amount))
  {
    hide Core, Kept, Sum, DrawnMore;
    DrawnMoreStep(b.allocs, y.allocs, source, available - remaining,
                  Alloc(Collection(o, |y.allocs|), source, amount, 0));
    CollectMayPay(y, busy, at, o, source, amount, epoch);
    SumAppend(y.allocs, Alloc(Collection(o, |y.allocs|), source, amount, 0), Everything);
    CollectKeeps(y, busy, at, slack + (if source.Pack? then available - remaining else 0), o, source, amount, epoch);
    KeptTrans(busy.Keys, busy.Keys, b, y, Collect(y, o, source, amount, epoch));
  }

  lemma PayingBuild(b: Books, y: Books, q: seq<OrderId>, i: int, remaining: int, available: int, busy: Unwinding,
                    at: OrderId, slack: int, source: Source)
    requires Pass(q, b.debts, y.debts, i, remaining, available) && remaining < available
    requires Core(y, busy, at, slack + (if source.Pack? then available - remaining else 0))
    requires MayPay(y, busy, at, source)
    requires Kept(busy.Keys, b, y) && y.lots == b.lots
    requires Sum(y.allocs, Everything) == Sum(b.allocs, Everything) + available - remaining
    requires DrawnMore(b.allocs, y.allocs, source, available - remaining)
    ensures Paying(b, y, q, i, remaining, available, busy, at, slack, source)
  {}

  lemma CollectMayPay(y: Books, busy: Unwinding, at: OrderId, o: OrderId, source: Source, amount: int, epoch: nat)
    requires MayPay(y, busy, at, source) && o in y.debts
    ensures MayPay(Collect(y, o, source, amount, epoch), busy, at, source)
  {}

  lemma PayingEnd(b: Books, y: Books, q: seq<OrderId>, i: int, remaining: int, available: int, busy: Unwinding,
                  at: OrderId, slack: int, source: Source)
    requires Paying(b, y, q, i, remaining, available, busy, at, slack, source) && (remaining == 0 || i == |q|)
    ensures Core(y, busy, at, slack + (if source.Pack? then available - remaining else 0)) && Kept(busy.Keys, b, y)
    ensures y.lots == b.lots && Sum(y.allocs, Everything) == Sum(b.allocs, Everything) + available - remaining
    ensures DrawnMore(b.allocs, y.allocs, source, available - remaining)
    ensures remaining == available ==> y == b
    ensures PaidOldestFirst(q, b.debts, y.debts, available - remaining)
    ensures 0 <= available - remaining == Min(available, UncollectedSum(q, b.debts))
  {
    hide Core, Kept, PaidOldestFirst;
    PassEnd(q, b.debts, y.debts, i, remaining, available);
    UncollectedNonNegative(q, b.debts, y.debts, i, remaining, available);
  }

  lemma PayingLeft(b: Books, y: Books, q: seq<OrderId>, i: int, remaining: int, available: int, busy: Unwinding,
                   at: OrderId, slack: int, source: Source)
    requires Paying(b, y, q, i, remaining, available, busy, at, slack, source)
    ensures 0 <= remaining <= available
  {}

  lemma UncollectedNonNegative(q: seq<OrderId>, x: map<OrderId, Debt>, y: map<OrderId, Debt>, i: int, remaining: int,
                               available: int)
    requires Pass(q, x, y, i, remaining, available)
    ensures 0 <= UncollectedSum(q, x) && remaining <= available
  {
    UncollectedSumBound(q, x);
  }

  // ---- working through the collections of one debt ------------------------------------------------

  /** The collection keys in `visiting` are those being reversed. */
  ghost predicate Visits(visiting: set<Key>, busy: Unwinding) {
    forall k :: k in visiting && k.Collection? ==> k.order in busy && busy[k.order] == k.serial
  }

  /** Rows `ids[n..]` are untouched open collections for `o`. */
  ghost predicate ListedRows(b: Books, rows: Books, o: OrderId, ids: seq<nat>, n: int)
    requires 0 <= n <= |ids| && |rows.allocs| <= |b.allocs|
  {
    forall k :: n <= k < |ids| ==>
      && ids[k] < |rows.allocs| && b.allocs[ids[k]] == rows.allocs[ids[k]]
      && Open(b.allocs[ids[k]]) && Collects(b.allocs[ids[k]], o)
      && b.allocs[ids[k]].debit in rows.debits && b.allocs[ids[k]].debit in b.debits
      && b.debits[b.allocs[ids[k]].debit] == rows.debits[b.allocs[ids[k]].debit]
  }

  /** Rows `ids[n..]`, as fetched in `rows`, are untouched open collections for `o`; while
      atoms remain to be reversed they are all there are. */
  ghost predicate Worklist(b: Books, rows: Books, o: OrderId, ids: seq<nat>, n: int, remaining: int) {
    && 0 <= n <= |ids| && Distinct(ids) && |rows.allocs| <= |b.allocs| && ListedRows(b, rows, o, ids, n)
    && (remaining > 0 ==>
          forall i :: 0 <= i < |b.allocs| && Open(b.allocs[i]) && Collects(b.allocs[i], o) ==> i in ids[n..])
  }

  lemma WorklistStart(b: Books, o: OrderId, ids: seq<nat>, remaining: int)
    requires RowsOk(b) && Distinct(ids)
    requires forall k :: 0 <= k < |ids| ==>
      ids[k] < |b.allocs| && Open(b.allocs[ids[k]]) && Collects(b.allocs[ids[k]], o)
    requires forall i :: 0 <= i < |b.allocs| && Open(b.allocs[i]) && Collects(b.allocs[i], o) ==> i in ids
    ensures Worklist(b, b, o, ids, 0, remaining)
  {
    assert ids[0..] == ids;
    forall k | 0 <= k < |ids| ensures b.allocs[ids[k]].debit in b.debits { assert AllocOk(b, ids[k]); }
  }

  /** What the next row on the list looks like. */
  lemma WorklistAt(b: Books, rows: Books, busy: Unwinding, o: OrderId, slack: int, ids: seq<nat>, n: int,
                   remaining: int, visiting: set<Key>)
    requires Worklist(b, rows, o, ids, n, remaining) && n < |ids|
    requires Core(b, busy, o, slack) && o !in busy && Visits(visiting, busy)
    ensures ids[n] < |rows.allocs| <= |b.allocs| && b.allocs[ids[n]] == rows.allocs[ids[n]]
    ensures Collects(b.allocs[ids[n]], o) && b.allocs[ids[n]].debit == Collection(o, ids[n])
    ensures 0 <= b.allocs[ids[n]].refunded < b.allocs[ids[n]].amount <= MAX_ATOMS
    ensures b.allocs[ids[n]].debit !in visiting
    ensures b.allocs[ids[n]].debit in b.debits && b.allocs[ids[n]].debit in rows.debits
    ensures b.debits[b.allocs[ids[n]].debit] == rows.debits[b.allocs[ids[n]].debit]
    ensures b.debits[b.allocs[ids[n]].debit].amount == b.allocs[ids[n]].amount
    ensures 0 <= b.debits[b.allocs[ids[n]].debit].restored <= b.allocs[ids[n]].refunded
    ensures b.debits[b.allocs[ids[n]].debit].closed == !Open(b.allocs[ids[n]])
    ensures o in b.debts
  {
    assert AllocOk(b, ids[n]);
  }

  /** Reversing collection `c` leaves every other collection for `o` as it was, and adds none. */
  lemma OthersStay(b: Books, busy: set<OrderId>, o: OrderId, c: nat, y: Books, r: int, restored: int)
    requires o in b.debts && o in busy && Kept(busy, Forgive(b, o, r), y)
    requires c < |b.allocs| && c < |y.allocs| && y.allocs[c] == b.allocs[c] && y.allocs[c].debit in y.debits && 0 < r
    ensures |b.allocs| <= |y.allocs| == |Close(y, c, r, restored).allocs|
    ensures forall i :: 0 <= i < |y.allocs| && Collects(y.allocs[i], o) ==> i < |b.allocs| && y.allocs[i] == b.allocs[i]
    ensures forall i :: 0 <= i < |b.allocs| && Collects(b.allocs[i], o) ==>
      && y.allocs[i] == b.allocs[i]
      && (b.allocs[i].debit in b.debits ==>
            b.allocs[i].debit in y.debits && y.debits[b.allocs[i].debit] == b.debits[b.allocs[i].debit])
  {
    var x := Forgive(b, o, r);
    forall i | 0 <= i < |y.allocs| && Collects(y.allocs[i], o)
      ensures i < |b.allocs| && y.allocs[i] == b.allocs[i]
    {
      assert Protected(y.allocs[i].debit, busy);
      if i < |x.allocs| { assert SameDraw(x.allocs[i], y.allocs[i]); }
    }
    forall i | 0 <= i < |b.allocs| && Collects(b.allocs[i], o) ensures Protected(b.allocs[i].debit, busy) {}
  }

  /** Reversing row `ids[n]` moves the list on. */
  lemma WorklistStep(b: Books, rows: Books, busy: Unwinding, o: OrderId, ids: seq<nat>, n: int, remaining: int,
                     y: Books, r: int, restored: int)
    requires Worklist(b, rows, o, ids, n, remaining) && n < |ids| && o in b.debts
    requires Kept(busy.Keys + {o}, Forgive(b, o, r), y)
    requires ids[n] < |y.allocs| && y.allocs[ids[n]] == b.allocs[ids[n]] && y.allocs[ids[n]].debit in y.debits
    requires 0 < r && (r == b.allocs[ids[n]].amount - b.allocs[ids[n]].refunded || remaining <= r)
    requires forall i :: 0 <= i < |b.allocs| && b.allocs[i].debit.Collection? ==> b.allocs[i].debit.serial == i
    ensures Worklist(Close(y, ids[n], r, restored), rows, o, ids, n + 1, remaining - r)
  {
    hide Kept, Forgive, Worklist;
    WorklistHead(b, rows, o, ids, n, remaining);
    OthersStay(b, busy.Keys + {o}, o, ids[n], y, r, restored);
    WorklistRows(b, rows, o, ids, n, remaining, y, r, restored);
    WorklistRest(b, rows, o, ids, n, remaining, y, r, restored);
    hide *;
    WorklistBuild(Close(y, ids[n], r, restored), rows, o, ids, n + 1, remaining - r);
  }

  lemma WorklistHead(b: Books, rows: Books, o: OrderId, ids: seq<nat>, n: int, remaining: int)
    requires Worklist(b, rows, o, ids, n, remaining) && n < |ids|
    ensures 0 <= n && ids[n] < |b.allocs|
  {}

  lemma WorklistBuild(b: Books, rows: Books, o: OrderId, ids: seq<nat>, n: int, remaining: int)
    requires 0 <= n <= |ids| && Distinct(ids) && |rows.allocs| <= |b.allocs| && ListedRows(b, rows, o, ids, n)
    requires remaining > 0 ==>
      forall i :: 0 <= i < |b.allocs| && Open(b.allocs[i]) && Collects(b.allocs[i], o) ==> i in ids[n..]
    ensures Worklist(b, rows, o, ids, n, remaining)
  {}

  /** The rows still on the list. */
  lemma WorklistRows(b: Books, rows: Books, o: OrderId, ids: seq<nat>, n: int, remaining: int, y: Books, r: int,
                     restored: int)
    requires Worklist(b, rows, o, ids, n, remaining) && n < |ids| && |b.allocs| <= |y.allocs|
    requires ids[n] < |y.allocs| && y.allocs[ids[n]] == b.allocs[ids[n]] && y.allocs[ids[n]].debit in y.debits
    requires forall i :: 0 <= i < |b.allocs| && Collects(b.allocs[i], o) ==>
      && y.allocs[i] == b.allocs[i]
      && (b.allocs[i].debit in b.debits ==>
            b.allocs[i].debit in y.debits && y.debits[b.allocs[i].debit] == b.debits[b.allocs[i].debit])
    requires forall i :: 0 <= i < |b.allocs| && b.allocs[i].debit.Collection? ==> b.allocs[i].debit.serial == i
    ensures 0 <= n && Distinct(ids) && |rows.allocs| <= |Close(y, ids[n], r, restored).allocs|
    ensures ListedRows(Close(y, ids[n], r, restored), rows, o, ids, n + 1)
  {
    forall k | n + 1 <= k < |ids| ensures ids[n] != ids[k] {}
  }

  /** And nothing else is open. */
  lemma WorklistRest(b: Books, rows: Books, o: OrderId, ids: seq<nat>, n: int, remaining: int, y: Books, r: int,
                     restored: int)
    requires Worklist(b, rows, o, ids, n, remaining) && n < |ids|
    requires ids[n] < |y.allocs| && y.allocs[ids[n]] == b.allocs[ids[n]] && y.allocs[ids[n]].debit in y.debits
    requires 0 < r && (r == b.allocs[ids[n]].amount - b.allocs[ids[n]].refunded || remaining <= r)
    requires forall i :: 0 <= i < |y.allocs| && Collects(y.allocs[i], o) ==>
      i < |b.allocs| && y.allocs[i] == b.allocs[i]
    ensures var z := Close(y, ids[n], r, restored);
      remaining - r > 0 ==>
        forall i :: 0 <= i < |z.allocs| && Open(z.allocs[i]) && Collects(z.allocs[i], o) ==> i in ids[n + 1..]
  {
    var z := Close(y, ids[n], r, restored);
    if remaining - r > 0 {
      forall i | 0 <= i < |z.allocs| && Open(z.allocs[i]) && Collects(z.allocs[i], o)
        ensures i in ids[n + 1..]
      {
        assert Collects(y.allocs[i], o);
        assert i in ids[n..];
        assert ids[n..] == [ids[n]] + ids[n + 1..];
      }
    }
  }

  /** And `o` stays above what is being unwound. */
  lemma AboveStep(b: Books, busy: Unwinding, o: OrderId, c: nat, y: Books, r: int, restored: int)
    requires Above(b, busy, o) && o in b.debts && Kept(busy.Keys + {o}, Forgive(b, o, r), y)
    requires c < |b.allocs| && c < |y.allocs| && y.allocs[c] == b.allocs[c] && y.allocs[c].debit in y.debits && 0 < r
    ensures Above(Close(y, c, r, restored), busy, o)
  {
    var z := Close(y, c, r, restored);
    OthersStay(b, busy.Keys + {o}, o, c, y, r, restored);
    hide Kept;
    forall i | 0 <= i < |z.allocs| && Open(z.allocs[i]) && Collects(z.allocs[i], o)
      ensures i < |b.allocs| && Collects(b.allocs[i], o) && (i != c ==> z.allocs[i] == b.allocs[i])
    {
      assert Collects(y.allocs[i], o);
    }
  }

  /** The reversal loop of one debt in front of row `n` of its list: `b` are the tables before it, `y`
      the tables now, `done` the atoms reversed so far. */
  ghost predicate Reversing(b: Books, y: Books, busy: Unwinding, o: OrderId, slack: int, ids: seq<nat>, n: int,
                            amount: int, done: int) {
    && 0 <= done <= amount && o in b.debts && o in b.lots
    && Core(y, busy, o, slack + done) && Kept(busy.Keys, b, y)
    && Above(y, busy, o) && Worklist(y, b, o, ids, n, amount - done)
    && o in y.lots && y.lots[o] == b.lots[o]
    && o in y.debts && y.debts[o] == Forgive(b, o, done).debts[o]
  }

  lemma ReversingStart(b: Books, busy: Unwinding, o: OrderId, slack: int, ids: seq<nat>, amount: int)
    requires Core(b, busy, o, slack) && Above(b, busy, o) && o in b.debts && o in b.lots && 0 <= amount && Distinct(ids)
    requires forall k :: 0 <= k < |ids| ==>
      ids[k] < |b.allocs| && Open(b.allocs[ids[k]]) && Collects(b.allocs[ids[k]], o)
    requires forall i :: 0 <= i < |b.allocs| && Open(b.allocs[i]) && Collects(b.allocs[i], o) ==> i in ids
    ensures Reversing(b, b, busy, o, slack, ids, 0, amount, 0)
  {
    CoreRows(b, busy, o, slack);
    hide Core, Above;
    KeptRefl(busy.Keys, b);
    WorklistStart(b, o, ids, amount);
  }

  lemma ReversingNow(b: Books, y: Books, busy: Unwinding, o: OrderId, slack: int, ids: seq<nat>, n: int, amount: int,
                     done: int)
    requires Reversing(b, y, busy, o, slack, ids, n, amount, done)
    ensures Above(y, busy, o) && Worklist(y, b, o, ids, n, amount - done)
    ensures o in b.debts && o in y.debts && o in y.lots && Uncollected(y.debts[o]) == Uncollected(b.debts[o])
  {}

  /** Neither a cycle nor an inconsistent row can turn up next. */
  lemma ReversingAt(b: Books, y: Books, busy: Unwinding, o: OrderId, slack: int, ids: seq<nat>, n: int, amount: int,
                    done: int, visiting: set<Key>)
    requires Reversing(b, y, busy, o, slack, ids, n, amount, done) && 0 <= n < |ids| && Visits(visiting, busy)
    ensures ids[n] < |b.allocs| <= |y.allocs| && y.allocs[ids[n]] == b.allocs[ids[n]] && Collects(b.allocs[ids[n]], o)
    ensures b.allocs[ids[n]].debit !in visiting && 0 <= b.allocs[ids[n]].refunded < b.allocs[ids[n]].amount
    ensures b.allocs[ids[n]].debit in b.debits && b.allocs[ids[n]].debit in y.debits
    ensures y.debits[b.allocs[ids[n]].debit] == b.debits[b.allocs[ids[n]].debit]
    ensures b.debits[b.allocs[ids[n]].debit].amount == b.allocs[ids[n]].amount
  {
    AboveIsIdle(y, busy, o);
    hide Core, Kept, Above, Worklist;
    WorklistAt(y, b, busy, o, slack + done, ids, n, amount - done, visiting);
  }

  lemma ReversingStep(b: Books, y: Books, z: Books, busy: Unwinding, o: OrderId, slack: int, ids: seq<nat>, n: int,
                      amount: int, done: int, r: int)
    requires Reversing(b, y, busy, o, slack, ids, n, amount, done) && 0 < r <= amount - done && 0 <= n < |ids|
    requires Core(z, busy, o, slack + done + r) && Kept(busy.Keys, y, z)
    requires Above(z, busy, o) && Worklist(z, b, o, ids, n + 1, amount - done - r)
    requires o in z.lots && z.lots[o] == y.lots[o] && o in y.debts && o in z.debts
    requires z.debts[o] == Forgive(y, o, r).debts[o]
    ensures Reversing(b, z, busy, o, slack, ids, n + 1, amount, done + r)
  {
    hide Core, Above, Worklist;
    KeptTrans(busy.Keys, busy.Keys, b, y, z);
  }

  /** The loop ends with everything reversed. */
  lemma ReversingEnd(b: Books, y: Books, busy: Unwinding, o: OrderId, slack: int, ids: seq<nat>, n: int, amount: int,
                     done: int)
    requires Reversing(b, y, busy, o, slack, ids, n, amount, done) && (done == amount || n == |ids|)
    requires Uncollected(b.debts[o]) == 0 && amount <= b.debts[o].collected
    ensures done == amount
    ensures Core(y, busy, o, slack + amount) && Kept(busy.Keys, b, y)
    ensures o in y.lots && y.lots[o] == b.lots[o] && o in y.debts && y.debts[o] == Forgive(b, o, amount).debts[o]
  {
    AllReversed(b, y, busy, o, slack, ids, n, amount, done);
    hide Core, Kept, Above, Worklist, Sum;
  }

  lemma AllReversed(b: Books, y: Books, busy: Unwinding, o: OrderId, slack: int, ids: seq<nat>, n: int, amount: int,
                    done: int)
    requires Reversing(b, y, busy, o, slack, ids, n, amount, done) && (done == amount || n == |ids|)
    requires Uncollected(b.debts[o]) == 0 && amount <= b.debts[o].collected
    ensures done == amount
  {
    AboveIsIdle(y, busy, o);
    hide Core, Kept, Above, Worklist, Sum;
    if n == |ids| {
      WorklistDone(y, b, busy, o, slack + done, ids, amount - done);
    }
  }

  /** A reversal begins: the next collection on the list is forgiven, and the level below may start. */
  lemma ReversalBegins(b: Books, busy: Unwinding, o: OrderId, slack: int, c: nat, r: int, rows: Books, ids: seq<nat>,
                       n: int, remaining: int, visiting: set<Key>, at: OrderId, debtQueue: seq<OrderId>)
    requires Core(b, busy, o, slack) && Above(b, busy, o) && Visits(visiting, busy)
    requires Worklist(b, rows, o, ids, n, remaining) && n < |ids| && c == ids[n]
    requires o in b.debts && Uncollected(b.debts[o]) == 0 && Queued(debtQueue, b.debts)
    requires c < |b.allocs| && Collects(b.allocs[c], o) && 0 < r <= b.allocs[c].amount - b.allocs[c].refunded
    requires b.allocs[c].source.Pack? ==> at == b.allocs[c].source.lot
    ensures r <= b.debts[o].collected && b.allocs[c].amount <= MAX_ATOMS
    ensures b.allocs[c].debit in b.debits && 0 <= b.debits[b.allocs[c].debit].restored <= b.allocs[c].refunded
    ensures var x := Forgive(b, o, r);
      && Core(x, busy[o := c], at, 0) && Kept(busy.Keys, b, x) && Visits(visiting + {b.allocs[c].debit}, busy[o := c])
      && (b.allocs[c].source.Pack? ==> Above(x, busy[o := c], at))
      && 0 <= ActiveSum(debtQueue, x.debts) < ActiveSum(debtQueue, b.debts)
    ensures busy[o := c].Keys == busy.Keys + {o}
  {
    hide Core, Kept, Above, Worklist, Visits, Queued, ActiveSum;
    AboveIsIdle(b, busy, o);
    WorklistAt(b, rows, busy, o, slack, ids, n, remaining, visiting);
    BeginReversal(b, busy, o, slack, c, r);
    QueuedHas(debtQueue, b.debts, o);
    ForgiveDrops(b, debtQueue, o, r);
    VisitsMore(visiting, busy, o, c);
    CoreIdle(Forgive(b, o, r), busy[o := c], o, at);
    CoreActive(Forgive(b, o, r), busy[o := c], at, 0, debtQueue);
  }

  /** A finished reversal: the collection is marked, its debt and source settled, the list one row
      shorter. */
  lemma ReversalDone(b: Books, y: Books, o: OrderId, c: nat, r: int, restored: int, busy: Unwinding, slack: int,
                     rows: Books, ids: seq<nat>, n: int, remaining: int)
    requires Core(b, busy, o, slack) && Above(b, busy, o) && o in b.lots && o in b.debts && Uncollected(b.debts[o]) == 0
    requires Worklist(b, rows, o, ids, n, remaining) && n < |ids| && c == ids[n]
    requires c < |b.allocs| && Collects(b.allocs[c], o)
    requires 0 < r == Min(remaining, b.allocs[c].amount - b.allocs[c].refunded)
    requires 0 <= restored <= b.allocs[c].refunded + r
    requires Kept(busy.Keys + {o}, Forgive(b, o, r), y)
    requires b.allocs[c].source.Pack? ==> Core(y, busy[o := c], b.allocs[c].source.lot, r)
    requires b.allocs[c].source.Subscription? ==> Core(y, busy[o := c], o, 0)
    ensures c < |y.allocs| && y.allocs[c] == b.allocs[c] && y.allocs[c].debit in y.debits
    ensures var z := Close(y, c, r, restored);
      && Core(z, busy, o, slack + r) && Kept(busy.Keys, b, z)
      && Above(z, busy, o) && Worklist(z, rows, o, ids, n + 1, remaining - r)
      && o in z.lots && z.lots[o] == b.lots[o] && o in z.debts && z.debts[o] == Forgive(b, o, r).debts[o]
      && Sum(z.allocs, Everything) == Sum(y.allocs, Everything)
  {
    hide Core, Kept, Above, Worklist;
    CoreSerials(b, busy, o, slack);
    EndReversal(b, busy, o, slack, c, r, y, restored);
    AfterReversal(b, busy.Keys + {o}, o, c, r, y, restored);
    WorklistStep(b, rows, busy, o, ids, n, remaining, y, r, restored);
    AboveStep(b, busy, o, c, y, r, restored);
  }

  /** When the list is exhausted nothing remains to be reversed. */
  lemma WorklistDone(b: Books, rows: Books, busy: Unwinding, o: OrderId, slack: int, ids: seq<nat>, remaining: int)
    requires Worklist(b, rows, o, ids, |ids|, remaining) && Core(b, busy, o, slack) && o !in busy && o in b.lots
    requires 0 <= remaining <= Collected(b, o)
    ensures remaining == 0
  {
    CoreAt(b, busy, o, slack);
    if remaining > 0 {
      assert ids[|ids|..] == [];
      forall i | 0 <= i < |b.allocs| ensures Weight(b.allocs[i], ForDebt(o)) == 0 {
        assert AllocOk(b, i);
      }
      SumZero(b.allocs, ForDebt(o));
    }
  }

  // ---- facts the ledger methods need about the invariant ------------------------------------------

  /** From `x` to `y`, `relief` atoms of the debt of `o` were forgiven, those never paid first; its
      lot and what is drawn on it stayed as they were. */
  ghost predicate Relieved(x: Books, y: Books, o: OrderId, relief: int) {
    && o in x.lots && o in y.lots && y.lots[o] == x.lots[o] && Sum(y.allocs, OnLot(o)) == Sum(x.allocs, OnLot(o))
    && Released(y, o) == Released(x, o) + relief && Target(y, o) == Target(x, o)
    && Collected(y, o) == Collected(x, o) - Max(0, relief - (ActiveDebt(x, o) - Collected(x, o)))
  }

  lemma NothingRelieved(x: Books, o: OrderId)
    requires o in x.lots && (o in x.debts ==> DebtOk(x.debts[o]))
    ensures Relieved(x, x, o, 0) && 0 <= ActiveDebt(x, o)
  {}

  /** A lot whose holdings did not move while its debt was relieved has the same drawn on it. */
  lemma ReliefDone(x: Books, y: Books, o: OrderId, busy: Unwinding, relief: int)
    requires Core(x, busy, o, 0) && Core(y, busy, o, relief) && o !in busy && o in x.lots && o in y.lots
    requires y.lots[o] == x.lots[o]
    requires o in x.debts && o in y.debts && 0 < relief <= ActiveDebt(x, o)
    requires var released := Min(relief, Uncollected(x.debts[o]));
      y.debts[o] == x.debts[o].(released := x.debts[o].released + relief,
                                collected := x.debts[o].collected - (relief - released))
    ensures Relieved(x, y, o, relief)
  {
    CoreAt(x, busy, o, 0);
    CoreAt(y, busy, o, relief);
  }

  /** No lot is active past its expiry. */
  predicate NoneLapsed(lots: map<OrderId, Lot>, asOf: int) {
    forall o :: o in lots && lots[o].status == Active ==> lots[o].expiresAt > asOf
  }

  lemma KeptLists(busy: set<OrderId>, x: Books, y: Books, debtQueue: seq<OrderId>, lotQueue: seq<OrderId>, asOf: int)
    requires Kept(busy, x, y) && Queued(debtQueue, x.debts) && Listed(lotQueue, x.lots)
    ensures Queued(debtQueue, y.debts) && Listed(lotQueue, y.lots)
    ensures ActiveSum(debtQueue, y.debts) <= ActiveSum(debtQueue, x.debts)
    ensures NoneLapsed(x.lots, asOf) ==> NoneLapsed(y.lots, asOf)
  {
    assert forall o :: o in y.debts <==> o in x.debts.Keys;
    assert forall o :: o in y.lots <==> o in x.lots.Keys;
    ActiveSumDrops(debtQueue, x.debts, y.debts);
  }

  lemma ForgiveDrops(b: Books, q: seq<OrderId>, o: OrderId, n: int)
    requires o in b.debts && o in q && 0 < n
    ensures ActiveSum(q, Forgive(b, o, n).debts) < ActiveSum(q, b.debts)
  {
    ActiveSumDrops(q, b.debts, Forgive(b, o, n).debts);
  }

  lemma CoreActive(b: Books, busy: Unwinding, at: OrderId, slack: int, q: seq<OrderId>)
    requires Core(b, busy, at, slack)
    ensures 0 <= ActiveSum(q, b.debts)
  {
    forall o | o in b.debts ensures b.debts[o].released <= b.debts[o].target { assert DebtOk(b.debts[o]); }
    ActiveSumNonNegative(q, b.debts);
  }

  lemma CoreRows(b: Books, busy: Unwinding, at: OrderId, slack: int)
    requires Core(b, busy, at, slack)
    ensures RowsOk(b)
  {}

  lemma AboveIsIdle(b: Books, busy: Unwinding, o: OrderId)
    requires Above(b, busy, o)
    ensures o !in busy
  {}

  lemma VisitsMore(visiting: set<Key>, busy: Unwinding, o: OrderId, c: nat)
    requires Visits(visiting, busy) && o !in busy
    ensures Visits(visiting + {Collection(o, c)}, busy[o := c])
  {}

  lemma CoreSerials(b: Books, busy: Unwinding, at: OrderId, slack: int)
    requires Core(b, busy, at, slack)
    ensures forall i :: 0 <= i < |b.allocs| && b.allocs[i].debit.Collection? ==> b.allocs[i].debit.serial == i
  {
    forall i | 0 <= i < |b.allocs| && b.allocs[i].debit.Collection? ensures b.allocs[i].debit.serial == i {
      assert AllocOk(b, i);
    }
  }

  lemma CoreIdle(b: Books, busy: Unwinding, at: OrderId, other: OrderId)
    requires Core(b, busy, at, 0)
    ensures Core(b, busy, other, 0)
  {}

  /** At the start of a product refund nothing is being unwound. */
  lemma NothingVisited(b: Books, at: OrderId, key: Key)
    requires Core(b, map[], 0, 0) && key.Product?
    ensures Core(b, map[], at, 0) && Above(b, map[], at) && Visits({key}, map[])
  {}

  /** An allocation's open part is among what its lot still has outstanding. */
  lemma DrawnIsOutstanding(b: Books, i: nat)
    requires RowsOk(b) && i < |b.allocs| && b.allocs[i].source.Pack?
    ensures b.allocs[i].amount - b.allocs[i].refunded <= Sum(b.allocs, OnLot(b.allocs[i].source.lot))
    ensures b.allocs[i].source.lot in b.lots && b.allocs[i].source.lot in b.orders
  {
    RowsBounded(b);
    assert AllocOk(b, i);
    SumAtLeast(b.allocs, i, OnLot(b.allocs[i].source.lot));
  }

  /** What a product refund returns to a lot always fits: neither clamp truncates it, no
      bound is exceeded, and a terminal lot is never asked to take anything back. */
  lemma ReturnFits(b: Books, busy: Unwinding, o: OrderId, relieved: int, amount: int)
    requires Core(b, busy, o, relieved) && o in b.lots && o !in busy && ActiveDebt(b, o) == 0
    requires relieved < amount <= Sum(b.allocs, OnLot(o))
    ensures b.lots[o].status == Active || b.lots[o].status == Expired
    ensures amount - relieved <= b.orders[o].pack - b.orders[o].refunded - b.lots[o].remaining - b.lots[o].expired
    ensures 0 <= b.lots[o].remaining && 0 <= b.lots[o].expired
    ensures b.lots[o].remaining + b.lots[o].expired + amount - relieved <= MAX_ATOMS
  {
    CoreAt(b, busy, o, relieved);
    assert OrderOk(b.orders[o]);
  }
}
