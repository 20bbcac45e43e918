/** What giving atoms back means for the account: they pay what it owes before they can be spent,
    and they never bring the subscription more than was drawn on it. */
module DebtPriority {
  import opened Basics
  import opened LedgerTables
  import opened LedgerInvariant
  import opened LedgerSteps
  import opened DebtCollection

  /** What lies on the subscription side: the balance and the debts of invoices. */
  datatype Side = Side(balance: int, fundingDebts: seq<FundingDebt>)

  /** What the account owes in pack debt. */
  function Owed(b: Books, q: seq<OrderId>): int { UncollectedSum(q, b.debts) }

  /** The balance the subscription would have if all that was drawn on it in this epoch came back. */
  function Exposure(b: Books, s: Side, epoch: nat): int { s.balance + Sum(b.allocs, OpenSince(epoch)) }

  /** From `x` to `y` the account owes no more than before, and a lot or the subscription holds more
      only if, at the end, nothing is left to pay from it. */
  ghost predicate DebtsFirst(x: Books, s: Side, y: Books, t: Side, q: seq<OrderId>, epoch: nat) {
    && y.lots.Keys == x.lots.Keys
    && 0 <= Owed(y, q) <= Owed(x, q) && 0 <= FundingOwed(t.fundingDebts, epoch) <= FundingOwed(s.fundingDebts, epoch)
    && (forall o :: o in x.lots && o in y.lots && y.lots[o].remaining > x.lots[o].remaining ==> Owed(y, q) == 0)
    && (t.balance > s.balance ==> Owed(y, q) == 0 && FundingOwed(t.fundingDebts, epoch) == 0)
  }

  /** Debts of invoices were paid oldest first, and all of them before any pack debt was paid from the
      subscription. */
  ghost predicate InvoicesFirst(x: Books, s: Side, y: Books, t: Side, epoch: nat) {
    && FundingOk(t.fundingDebts)
    && FundingPaid(s.fundingDebts, t.fundingDebts, epoch,
                   FundingCollected(t.fundingDebts) - FundingCollected(s.fundingDebts))
    && Sum(x.allocs, EverSubscribed) <= Sum(y.allocs, EverSubscribed)
    && (Sum(x.allocs, EverSubscribed) < Sum(y.allocs, EverSubscribed) ==> FundingOwed(t.fundingDebts, epoch) == 0)
  }

  lemma InvoicesThen(x: Books, s: Side, y: Books, t: Side, z: Books, u: Side, epoch: nat)
    requires InvoicesFirst(x, s, y, t, epoch) && InvoicesFirst(y, t, z, u, epoch)
    requires 0 <= FundingOwed(u.fundingDebts, epoch) <= FundingOwed(t.fundingDebts, epoch)
    ensures InvoicesFirst(x, s, z, u, epoch)
  {
    hide Sum, FundingOwed, FundingCollected;
  }

  /** The exposure of the subscription grew by at most `extra`, and no later epoch was drawn on. */
  ghost predicate ExposureKept(x: Books, s: Side, y: Books, t: Side, epoch: nat, extra: int) {
    && Exposure(y, t, epoch) <= Exposure(x, s, epoch) + extra
    && Sum(y.allocs, OpenSince(epoch + 1)) <= Sum(x.allocs, OpenSince(epoch + 1))
  }

  /** A lot changes its status only by lapsing, and an account that owes nothing collects nothing. */
  ghost predicate Undisturbed(x: Books, y: Books, q: seq<OrderId>, asOf: int) {
    && (forall o :: o in x.lots && o in y.lots ==>
          && y.lots[o].expiresAt == x.lots[o].expiresAt
          && (y.lots[o].status == x.lots[o].status || x.lots[o].expiresAt <= asOf))
    && (Owed(x, q) == 0 ==> |y.allocs| == |x.allocs|)
  }

  /** Where a refund takes place: the queues, the epoch, the time, and whether the subscription is
      spendable then. */
  datatype Scene = Scene(debts: seq<OrderId>, lots: seq<OrderId>, epoch: nat, asOf: int, live: bool)

  /** All the account has: its balance, its lots with what expired in them, and what it paid on invoice
      debts, less the pack debt it has yet to pay and the draws that no refund would bring back. Paying
      debt and expiry leave it alone, and giving back `n` atoms raises it by `n`,
      wherever they end up. */
  function Worth(b: Books, s: Side, c: Scene): int {
    s.balance + HoldSum(c.lots, b.lots) + FundingCollected(s.fundingDebts)
    - Owed(b, c.debts) - Sum(b.allocs, Stranded(c.epoch, c.live))
  }

  /** All of it, and `gain` atoms were given back; `extra` atoms of an allocation being reversed have
      already reached the subscription although their allocation is not yet marked. */
  ghost predicate Repaid(x: Books, s: Side, y: Books, t: Side, c: Scene, extra: int, gain: int) {
    && DebtsFirst(x, s, y, t, c.debts, c.epoch) && ExposureKept(x, s, y, t, c.epoch, extra)
    && Undisturbed(x, y, c.debts, c.asOf) && Worth(y, t, c) == Worth(x, s, c) + gain
    && InvoicesFirst(x, s, y, t, c.epoch)
  }

  lemma FirstThen(x: Books, s: Side, y: Books, t: Side, z: Books, u: Side, c: Scene, extra: int, first: int,
                  second: int)
    requires Repaid(x, s, y, t, c, 0, first) && Repaid(y, t, z, u, c, extra, second)
    ensures Repaid(x, s, z, u, c, extra, first + second)
  {
    InvoicesThen(x, s, y, t, z, u, c.epoch);
    hide Worth, Exposure, Owed, InvoicesFirst;
  }

  /** Marking the allocation that was reversed: what is stranded is given up now. */
  lemma FirstMark(x: Books, s: Side, y: Books, z: Books, u: Side, i: nat, n: int, c: Scene, extra: int, gain: int)
    requires Repaid(x, s, y, u, c, extra, gain) && z.debts == y.debts && z.lots == y.lots
    requires i < |y.allocs| && z.allocs == y.allocs[i := y.allocs[i].(refunded := y.allocs[i].refunded + n)] && 0 <= n
    requires extra == if y.allocs[i].source == Subscription(c.epoch) then n else 0
    ensures Repaid(x, s, z, u, c, 0, gain + (if StrandedSource(y.allocs[i].source, c.epoch, c.live) then n else 0))
  {
    SumUpdate(y.allocs, i, z.allocs[i], OpenSince(c.epoch));
    SumUpdate(y.allocs, i, z.allocs[i], OpenSince(c.epoch + 1));
    SumUpdate(y.allocs, i, z.allocs[i], EverSubscribed);
    MarkWorth(y, z, u, i, n, c);
    hide Worth, FundingPaid, FundingOk, Sum, UncollectedSum, FundingCollected, FundingOwed;
  }

  lemma MarkWorth(y: Books, z: Books, u: Side, i: nat, n: int, c: Scene)
    requires z.debts == y.debts && z.lots == y.lots && i < |y.allocs|
    requires z.allocs == y.allocs[i := y.allocs[i].(refunded := y.allocs[i].refunded + n)]
    ensures Worth(z, u, c)
         == Worth(y, u, c) + (if StrandedSource(y.allocs[i].source, c.epoch, c.live) then n else 0)
  {
    SumUpdate(y.allocs, i, z.allocs[i], Stranded(c.epoch, c.live));
    hide Sum, HoldSum, UncollectedSum, FundingCollected;
  }

  /** A last step that leaves all but debit rows alone. */
  lemma FirstLast(x: Books, s: Side, y: Books, z: Books, u: Side, c: Scene, gain: int)
    requires Repaid(x, s, y, u, c, 0, gain) && z.debts == y.debts && z.lots == y.lots && z.allocs == y.allocs
    ensures Repaid(x, s, z, u, c, 0, gain)
  {}

  lemma FirstExposure(x: Books, s: Side, y: Books, t: Side, c: Scene, gain: int)
    requires Repaid(x, s, y, t, c, 0, gain)
    ensures Exposure(y, t, c.epoch) <= Exposure(x, s, c.epoch)
    ensures Sum(y.allocs, OpenSince(c.epoch + 1)) <= Sum(x.allocs, OpenSince(c.epoch + 1))
  {}

  /** A lot whose window is open keeps its status. */
  lemma StatusKept(x: Books, s: Side, y: Books, t: Side, c: Scene, gain: int)
    requires Repaid(x, s, y, t, c, 0, gain)
    ensures forall o :: o in x.lots && o in y.lots ==>
      y.lots[o].expiresAt == x.lots[o].expiresAt && (y.lots[o].status == x.lots[o].status
                                                     || x.lots[o].expiresAt <= c.asOf)
  {}

  /** A row of this epoch that is not refunded fits under the exposure. */
  lemma RowFits(b: Books, s: Side, i: nat, n: int, epoch: nat)
    requires RowsOk(b) && i < |b.allocs| && b.allocs[i].source == Subscription(epoch)
    requires n <= b.allocs[i].amount - b.allocs[i].refunded
    ensures s.balance + n <= Exposure(b, s, epoch)
  {
    RowsBounded(b);
    SumAtLeast(b.allocs, i, OpenSince(epoch));
  }

  /** Nothing open was drawn in an epoch yet to come. */
  ghost predicate NoneLater(s: seq<Alloc>, epoch: nat) { Sum(s, OpenSince(epoch + 1)) == 0 }

  lemma NoneLaterRepaid(x: Books, s: Side, y: Books, t: Side, c: Scene, extra: int, gain: int)
    requires Repaid(x, s, y, t, c, extra, gain) && NoneLater(x.allocs, c.epoch) && RowsOk(y)
    ensures NoneLater(y.allocs, c.epoch)
  {
    RowsBounded(y);
    SumNonNegative(y.allocs, OpenSince(c.epoch + 1));
  }

  lemma NoneLaterDrawn(x: seq<Alloc>, y: seq<Alloc>, source: Source, n: int, epoch: nat)
    requires DrawnMore(x, y, source, n) && NoneLater(x, epoch) && (source.Subscription? ==> source.epoch == epoch)
    ensures NoneLater(y, epoch)
    ensures Sum(y, OpenSince(epoch)) == Sum(x, OpenSince(epoch)) + (if source.Subscription? then n else 0)
  {
    DrawnMoreAt(x, y, source, n, epoch, true);
  }

  /** A new epoch begins with nothing drawn in it. */
  lemma NoneYet(s: seq<Alloc>, epoch: nat)
    requires Bounded(s) && NoneLater(s, epoch)
    ensures NoneLater(s, epoch + 1) && Sum(s, OpenSince(epoch + 1)) == 0
  {
    OpenSinceMonotone(s, epoch + 1);
    SumNonNegative(s, OpenSince(epoch + 2));
  }

  lemma {:induction false} OpenSinceMonotone(s: seq<Alloc>, epoch: nat)
    requires Bounded(s)
    ensures Sum(s, OpenSince(epoch + 1)) <= Sum(s, OpenSince(epoch))
  {
    if |s| > 0 {
      OpenSinceMonotone(s[..|s| - 1], epoch);
      assert 0 <= s[|s| - 1].refunded <= s[|s| - 1].amount;
    }
  }

  /** What an account owes is never negative. */
  ghost predicate OwesOk(b: Books, s: Side) {
    FundingOk(s.fundingDebts) && forall o :: o in b.debts ==> 0 <= Uncollected(b.debts[o])
  }

  /** Steps that neither raise what can be spent nor touch a debt or an allocation. */
  lemma FirstFrame(x: Books, s: Side, y: Books, c: Scene, gain: int)
    requires OwesOk(x, s) && y.debts == x.debts && y.allocs == x.allocs
    requires y.lots.Keys == x.lots.Keys && forall o :: o in x.lots ==>
      && y.lots[o].remaining <= x.lots[o].remaining && y.lots[o].expiresAt == x.lots[o].expiresAt
      && (y.lots[o].status == x.lots[o].status || x.lots[o].expiresAt <= c.asOf)
    requires HoldSum(c.lots, y.lots) == HoldSum(c.lots, x.lots) + gain
    ensures Repaid(x, s, y, s, c, 0, gain)
  {
    UncollectedSumBound(c.debts, x.debts);
    FundingOwedBound(s.fundingDebts, c.epoch);
  }

  lemma FirstSame(x: Books, s: Side, c: Scene)
    requires OwesOk(x, s)
    ensures forall extra :: 0 <= extra ==> Repaid(x, s, x, s, c, extra, 0)
  {
    FirstFrame(x, s, x, c, 0);
  }

  lemma FirstRetire(x: Books, s: Side, o: OrderId, n: int, c: Scene)
    requires OwesOk(x, s) && o in x.lots && Listed(c.lots, x.lots)
    ensures Repaid(x, s, Retire(x, o, n), s, c, 0, n)
  {
    HoldSumUpdate(c.lots, x.lots, o, Retire(x, o, n).lots[o]);
    FirstFrame(x, s, Retire(x, o, n), c, n);
  }

  lemma FirstExpire(x: Books, s: Side, o: OrderId, c: Scene)
    requires OwesOk(x, s) && o in x.lots && 0 <= x.lots[o].remaining && x.lots[o].expiresAt <= c.asOf
    requires Listed(c.lots, x.lots)
    ensures Repaid(x, s, Expire(x, o), s, c, 0, 0)
  {
    HoldSumUpdate(c.lots, x.lots, o, Expire(x, o).lots[o]);
    FirstFrame(x, s, Expire(x, o), c, 0);
  }

  /** Releasing debt that was never paid cancels as many of the atoms given back. */
  lemma FirstRelease(x: Books, s: Side, o: OrderId, n: int, c: Scene)
    requires OwesOk(x, s) && Queued(c.debts, x.debts) && o in x.debts && 0 <= n <= Uncollected(x.debts[o])
    ensures Repaid(x, s, Release(x, o, n), s, c, 0, n)
  {
    UncollectedSumUpdate(c.debts, x.debts, o, Release(x, o, n).debts[o]);
    UncollectedSumBound(c.debts, Release(x, o, n).debts);
    FundingOwedBound(s.fundingDebts, c.epoch);
  }

  lemma FirstForgive(x: Books, s: Side, o: OrderId, n: int, c: Scene)
    requires OwesOk(x, s) && Queued(c.debts, x.debts) && o in x.debts
    ensures Repaid(x, s, Forgive(x, o, n), s, c, 0, 0)
  {
    UncollectedSumUpdate(c.debts, x.debts, o, Forgive(x, o, n).debts[o]);
    UncollectedSumBound(c.debts, Forgive(x, o, n).debts);
    FundingOwedBound(s.fundingDebts, c.epoch);
  }

  /** Returning `n` atoms to a lot and paying from them what is owed. */
  lemma FirstRefill(x: Books, s: Side, y: Books, o: OrderId, n: int, paid: int, c: Scene)
    requires OwesOk(x, s) && o in x.lots && paid == Min(n, Owed(x, c.debts)) && 0 <= n && Listed(c.lots, x.lots)
    requires PaidOldestFirst(c.debts, x.debts, y.debts, paid) && DrawnMore(x.allocs, y.allocs, Pack(o), paid)
    requires y.lots == x.lots[o := x.lots[o].(remaining := x.lots[o].remaining + n - paid)]
    requires paid == 0 ==> y.allocs == x.allocs
    ensures Repaid(x, s, y, s, c, 0, n)
  {
    HoldSumUpdate(c.lots, x.lots, o, y.lots[o]);
    UncollectedSumBound(c.debts, x.debts);
    FundingOwedBound(s.fundingDebts, c.epoch);
    DrawnMoreAt(x.allocs, y.allocs, Pack(o), paid, c.epoch, c.live);
  }

  /** Returning `n` atoms to the subscription and paying both kinds of debt from its balance. */
  lemma FirstCredit(x: Books, s: Side, y: Books, t: Side, n: int, first: int, second: int, c: Scene)
    requires OwesOk(x, s) && 0 <= s.balance && 0 <= n && c.live
    requires first == Min(s.balance + n, FundingOwed(s.fundingDebts, c.epoch))
    requires FundingPaid(s.fundingDebts, t.fundingDebts, c.epoch, first) && FundingOk(t.fundingDebts)
    requires second == Min(s.balance + n - first, Owed(x, c.debts))
    requires PaidOldestFirst(c.debts, x.debts, y.debts, second)
    requires DrawnMore(x.allocs, y.allocs, Subscription(c.epoch), second)
    requires y.lots == x.lots && t.balance == s.balance + n - first - second
    requires second == 0 ==> y.allocs == x.allocs
    ensures Repaid(x, s, y, t, c, n, n)
  {
    UncollectedSumBound(c.debts, x.debts);
    FundingOwedBound(s.fundingDebts, c.epoch);
    DrawnMoreAt(x.allocs, y.allocs, Subscription(c.epoch), second, c.epoch, c.live);
  }

  lemma DrawnMoreAt(x: seq<Alloc>, y: seq<Alloc>, source: Source, n: int, epoch: nat, live: bool)
    requires DrawnMore(x, y, source, n) && (source.Subscription? ==> source.epoch == epoch)
    ensures Sum(y, OpenSince(epoch)) == Sum(x, OpenSince(epoch)) + (if source.Subscription? then n else 0)
    ensures Sum(y, OpenSince(epoch + 1)) == Sum(x, OpenSince(epoch + 1))
    ensures Sum(y, EverSubscribed) == Sum(x, EverSubscribed) + (if source.Subscription? then n else 0)
    ensures Sum(y, Stranded(epoch, live)) == Sum(x, Stranded(epoch, live))
      + (if source.Subscription? && !live then n else 0)
  {
    assert Share(source, OpenSince(epoch)) * n == if source.Subscription? then n else 0;
    assert Share(source, OpenSince(epoch + 1)) * n == 0;
    assert Share(source, EverSubscribed) * n == if source.Subscription? then n else 0;
    assert Share(source, Stranded(epoch, live)) * n == if source.Subscription? && !live then n else 0;
  }

  /** A refund that finds nothing owed leaves nothing owed. */
  lemma NothingOwedStays(x: Books, s: Side, y: Books, t: Side, q: seq<OrderId>, epoch: nat)
    requires DebtsFirst(x, s, y, t, q, epoch) && NothingOwed(q, x.debts, s.fundingDebts, epoch)
    ensures NothingOwed(q, y.debts, t.fundingDebts, epoch)
  {}

  // ---- single steps, with everything the ledger needs of them ----------------------------------------

  /** Releasing uncollected debt. */
  lemma ReleaseStep(b: Books, s: Side, busy: Unwinding, o: OrderId, n: int, c: Scene)
    requires Core(b, busy, o, 0) && OwesOk(b, s) && Queued(c.debts, b.debts) && Listed(c.lots, b.lots)
    requires o in b.debts && o !in busy && 0 <= n <= Uncollected(b.debts[o])
    ensures var z := Release(b, o, n);
      && Core(z, busy, o, n) && Kept(busy.Keys, b, z) && Repaid(b, s, z, s, c, 0, n)
      && Queued(c.debts, z.debts) && Listed(c.lots, z.lots)
      && ActiveSum(c.debts, z.debts) <= ActiveSum(c.debts, b.debts)
  {
    hide *;
    ReleaseKeeps(b, busy, o, 0, n);
    FirstRelease(b, s, o, n, c);
    KeptLists(busy.Keys, b, Release(b, o, n), c.debts, c.lots, 0);
  }

  lemma ReleaseNothing(b: Books, o: OrderId)
    requires o in b.debts
    ensures Release(b, o, 0) == b
  {
    assert b.debts[o := b.debts[o].(released := b.debts[o].released + 0)] == b.debts;
  }

  /** Forgiving the collection about to be reversed. */
  lemma ForgiveStep(b: Books, s: Side, busy: Unwinding, o: OrderId, n: int, c: Scene)
    requires o in b.debts && Kept(busy.Keys, b, Forgive(b, o, n))
    requires OwesOk(b, s) && Queued(c.debts, b.debts) && Listed(c.lots, b.lots)
    ensures var x := Forgive(b, o, n);
      Repaid(b, s, x, s, c, 0, 0) && Queued(c.debts, x.debts) && Listed(c.lots, x.lots)
    ensures NoneLapsed(b.lots, c.asOf) ==> NoneLapsed(Forgive(b, o, n).lots, c.asOf)
  {
    hide Kept, Queued, Listed, OwesOk, Repaid, NoneLapsed;
    FirstForgive(b, s, o, n, c);
    KeptLists(busy.Keys, b, Forgive(b, o, n), c.debts, c.lots, 0);
  }

  /** Retiring atoms of an expired lot. */
  lemma RetireStep(b: Books, s: Side, busy: Unwinding, o: OrderId, slack: int, n: int, c: Scene)
    requires Core(b, busy, o, slack) && OwesOk(b, s) && Queued(c.debts, b.debts) && Listed(c.lots, b.lots)
    requires o in b.lots && o !in busy && 0 < n && b.lots[o].status == Expired && ActiveDebt(b, o) == 0
    ensures var z := Retire(b, o, n);
      && Core(z, busy, o, slack + n) && Kept(busy.Keys, b, z) && Repaid(b, s, z, s, c, 0, n)
      && Queued(c.debts, z.debts) && Listed(c.lots, z.lots) && LotSum(c.lots, z.lots) == LotSum(c.lots, b.lots)
  {
    hide Core, Kept, Queued, OwesOk, Repaid;
    RetireKeeps(b, busy, o, slack, n);
    FirstRetire(b, s, o, n, c);
    LotSumUpdate(c.lots, b.lots, o, Retire(b, o, n).lots[o]);
    KeptLists(busy.Keys, b, Retire(b, o, n), c.debts, c.lots, 0);
  }
}
