/** What one run of a debt-collection loop may do to the debts it finds. */
module DebtCollection {
  import opened Basics
  import opened LedgerTables

  /** From `x` to `y`, exactly `n` atoms of debt were paid, in queue order: a debt was
      touched only once everything queued before it was paid in full. */
  ghost predicate PaidOldestFirst(q: seq<OrderId>, x: map<OrderId, Debt>, y: map<OrderId, Debt>, n: int) {
    && x.Keys == y.Keys
    && (forall o :: o in x ==>
          && y[o].target == x[o].target && y[o].released == x[o].released
          && x[o].collected <= y[o].collected && (0 <= Uncollected(x[o]) ==> 0 <= Uncollected(y[o])))
    && UncollectedSum(q, x) - UncollectedSum(q, y) == n
    && (forall j, k :: 0 <= j < k < |q| && q[j] in x && q[k] in x && y[q[k]] != x[q[k]] ==> Uncollected(y[q[j]]) == 0)
  }

  ghost predicate Queued(q: seq<OrderId>, debts: map<OrderId, Debt>) {
    Distinct(q) && forall o :: o in debts <==> o in q
  }

  /** A collection loop in front of queue position `i`, with `remaining` of `available` atoms
      left, having turned debts `x` into `y`. */
  ghost predicate Pass(q: seq<OrderId>, x: map<OrderId, Debt>, y: map<OrderId, Debt>, i: int, remaining: int,
                       available: int) {
    && 0 <= i <= |q| && 0 <= remaining <= available
    && Queued(q, x) && (forall o :: o in x ==> 0 <= Uncollected(x[o]))
    && PaidOldestFirst(q, x, y, available - remaining)
    && (forall j :: i <= j < |q| ==> y[q[j]] == x[q[j]])
    && (remaining > 0 ==> forall j :: 0 <= j < i ==> Uncollected(y[q[j]]) == 0)
  }

  lemma PassStart(q: seq<OrderId>, x: map<OrderId, Debt>, available: int)
    requires Queued(q, x) && (forall o :: o in x ==> 0 <= Uncollected(x[o])) && 0 <= available
    ensures Pass(q, x, x, 0, available, available)
  {}

  lemma PassAt(q: seq<OrderId>, x: map<OrderId, Debt>, y: map<OrderId, Debt>, i: int, remaining: int, available: int)
    requires Pass(q, x, y, i, remaining, available) && i < |q|
    ensures q[i] in x && q[i] in y && y[q[i]] == x[q[i]]
    ensures Uncollected(x[q[i]]) == 0 ==> Pass(q, x, y, i + 1, remaining, available)
    ensures 0 <= Uncollected(x[q[i]])
  {}

  /** Paying the debt at position `i` as far as the atoms reach. */
  lemma PassPay(q: seq<OrderId>, x: map<OrderId, Debt>, y: map<OrderId, Debt>, i: int, remaining: int, available: int,
                amount: int)
    requires Pass(q, x, y, i, remaining, available) && i < |q| && q[i] in x && q[i] in y
    requires amount == Min(remaining, Uncollected(x[q[i]])) && 0 < amount
    ensures Pass(q, x, y[q[i] := y[q[i]].(collected := y[q[i]].collected + amount)], i + 1, remaining - amount,
                 available)
  {
    PaidMore(q, x, y, i, remaining, available, amount);
    hide PaidOldestFirst;
  }

  lemma PaidMore(q: seq<OrderId>, x: map<OrderId, Debt>, y: map<OrderId, Debt>, i: int, remaining: int, available: int,
                 amount: int)
    requires Pass(q, x, y, i, remaining, available) && i < |q| && q[i] in x && q[i] in y
    requires amount == Min(remaining, Uncollected(x[q[i]])) && 0 < amount
    ensures PaidOldestFirst(q, x, y[q[i] := y[q[i]].(collected := y[q[i]].collected + amount)],
                            available - remaining + amount)
  {
    UncollectedSumUpdate(q, y, q[i], y[q[i]].(collected := y[q[i]].collected + amount));
    hide UncollectedSum;
  }

  /** A pass that stopped with nothing left, or with nothing left to pay, paid the most it could. */
  lemma PassEnd(q: seq<OrderId>, x: map<OrderId, Debt>, y: map<OrderId, Debt>, i: int, remaining: int, available: int)
    requires Pass(q, x, y, i, remaining, available)
    requires remaining == 0 || i == |q|
    ensures PaidOldestFirst(q, x, y, available - remaining)
    ensures available - remaining == Min(available, UncollectedSum(q, x))
  {
    UncollectedSumBound(q, y);
    if remaining > 0 {
      UncollectedSumZero(q, y);
    }
  }

  lemma DebtUntouched(q: seq<OrderId>, x: map<OrderId, Debt>, y: map<OrderId, Debt>, n: int)
    requires PaidOldestFirst(q, x, y, n)
    ensures x.Keys == y.Keys && forall o :: o in x ==> y[o].target == x[o].target && y[o].released == x[o].released
  {}

  lemma QueuedHas(q: seq<OrderId>, debts: map<OrderId, Debt>, o: OrderId)
    requires Queued(q, debts) && o in debts
    ensures o in q
  {}

  lemma QueuedOnce(q: seq<OrderId>, debts: map<OrderId, Debt>)
    requires Queued(q, debts)
    ensures Distinct(q)
  {}

  /** Oldest-first payment of a given amount has only one outcome, so at most one debt is
      left partly paid and the choice of debts is not up to the loop. */
  lemma {:induction false} PaidOldestFirstUnique(q: seq<OrderId>, x: map<OrderId, Debt>, y: map<OrderId, Debt>,
                                                 z: map<OrderId, Debt>, n: int)
    requires Queued(q, x) && forall o :: o in x ==> 0 <= Uncollected(x[o])
    requires PaidOldestFirst(q, x, y, n) && PaidOldestFirst(q, x, z, n)
    ensures y == z
  {
    if i :| 0 <= i < |q| && y[q[i]] != z[q[i]] && forall j :: 0 <= j < i ==> y[q[j]] == z[q[j]] {
      // say y paid more of debt i; then z paid nothing after i, and less up to i
      if Uncollected(y[q[i]]) < Uncollected(z[q[i]]) {
        LessPaid(q, y, z, i);
      } else {
        LessPaid(q, z, y, i);
      }
    } else {
      FirstDifference(q, y, z);
    }
  }

  lemma {:induction false} FirstDifference(q: seq<OrderId>, y: map<OrderId, Debt>, z: map<OrderId, Debt>)
    requires Queued(q, y) && Queued(q, z)
    requires !exists i :: 0 <= i < |q| && y[q[i]] != z[q[i]] && forall j :: 0 <= j < i ==> y[q[j]] == z[q[j]]
    ensures y == z
  {
    var i := 0;
    while i < |q|
      invariant 0 <= i <= |q|
      invariant forall j :: 0 <= j < i ==> y[q[j]] == z[q[j]]
    {
      i := i + 1;
    }
    forall o | o in y ensures y[o] == z[o] {
      assert o in q;
    }
  }

  /** If `z` pays less of debt `i` than `y`, the same before it and no more after it, it pays
      less in total. */
  lemma {:induction false} LessPaid(q: seq<OrderId>, y: map<OrderId, Debt>, z: map<OrderId, Debt>, i: nat)
    requires y.Keys == z.Keys && i < |q| && q[i] in y
    requires forall j :: 0 <= j < i && q[j] in y ==> y[q[j]] == z[q[j]]
    requires Uncollected(y[q[i]]) < Uncollected(z[q[i]])
    requires forall k :: i < k < |q| && q[k] in y ==> Uncollected(y[q[k]]) <= Uncollected(z[q[k]])
    ensures UncollectedSum(q, y) < UncollectedSum(q, z)
  {
    var n := |q| - 1;
    if i == n {
      SumSplit(q[..n], y, z);
    } else {
      LessPaid(q[..n], y, z, i);
    }
  }

  lemma {:induction false} SumSplit(q: seq<OrderId>, y: map<OrderId, Debt>, z: map<OrderId, Debt>)
    requires y.Keys == z.Keys
    ensures (forall j :: 0 <= j < |q| ==> q[j] in y ==> y[q[j]] == z[q[j]]) ==>
      UncollectedSum(q, y) == UncollectedSum(q, z)
  {
    if |q| > 0 {
      SumSplit(q[..|q| - 1], y, z);
    }
  }

  // ---- subscription-side debts ---------------------------------------------------------

  /** What the account owes on subscription invoices of one grant epoch. */
  function FundingOwed(s: seq<FundingDebt>, epoch: nat): int {
    if |s| == 0 then 0
    else FundingOwed(s[..|s| - 1], epoch)
         + (if s[|s| - 1].epoch == epoch then s[|s| - 1].target - s[|s| - 1].collected else 0)
  }

  ghost predicate FundingOk(s: seq<FundingDebt>) {
    forall i :: 0 <= i < |s| ==> 0 <= s[i].collected <= s[i].target
  }

  lemma {:induction false} FundingOwedUpdate(s: seq<FundingDebt>, epoch: nat, i: nat, n: int)
    requires i < |s| && s[i].epoch == epoch
    ensures FundingOwed(s[i := s[i].(collected := s[i].collected + n)], epoch) == FundingOwed(s, epoch) - n
  {
    var t := s[i := s[i].(collected := s[i].collected + n)];
    var k := |s| - 1;
    if i == k {
      assert t[..k] == s[..k];
    } else {
      assert t[..k] == s[..k][i := t[i]];
      FundingOwedUpdate(s[..k], epoch, i, n);
    }
  }

  lemma {:induction false} FundingOwedBound(s: seq<FundingDebt>, epoch: nat)
    requires FundingOk(s)
    ensures 0 <= FundingOwed(s, epoch)
    ensures forall i :: 0 <= i < |s| && s[i].epoch == epoch ==> s[i].target - s[i].collected <= FundingOwed(s, epoch)
  {
    if |s| > 0 {
      FundingOwedBound(s[..|s| - 1], epoch);
    }
  }

  lemma {:induction false} FundingOwedZero(s: seq<FundingDebt>, epoch: nat)
    requires forall i :: 0 <= i < |s| && s[i].epoch == epoch ==> s[i].target == s[i].collected
    ensures FundingOwed(s, epoch) == 0
  {
    if |s| > 0 {
      FundingOwedZero(s[..|s| - 1], epoch);
    }
  }

  /** The same for subscription-side debts: only rows of `epoch` are paid, oldest first. */
  ghost predicate FundingPaid(x: seq<FundingDebt>, y: seq<FundingDebt>, epoch: nat, n: int) {
    && |x| == |y|
    && (forall i :: 0 <= i < |x| ==>
          && y[i] == x[i].(collected := y[i].collected)
          && x[i].collected <= y[i].collected && (x[i].epoch != epoch ==> y[i] == x[i]))
    && FundingOwed(x, epoch) - FundingOwed(y, epoch) == n
    && FundingCollected(y) - FundingCollected(x) == n
    && (forall j, k :: 0 <= j < k < |x| && x[j].epoch == epoch && y[k] != x[k] ==> y[j].collected == y[j].target)
  }

  /** The subscription-side loop in front of row `i`. */
  ghost predicate FundingPass(x: seq<FundingDebt>, y: seq<FundingDebt>, epoch: nat, i: int, remaining: int,
                              available: int) {
    && 0 <= i <= |x| && 0 <= remaining <= available
    && FundingOk(x) && FundingOk(y) && FundingPaid(x, y, epoch, available - remaining)
    && (forall j :: i <= j < |x| ==> y[j] == x[j])
    && (remaining > 0 ==> forall j :: 0 <= j < i && y[j].epoch == epoch ==> y[j].collected == y[j].target)
  }

  lemma FundingPassStart(x: seq<FundingDebt>, epoch: nat, available: int)
    requires FundingOk(x) && 0 <= available
    ensures FundingPass(x, x, epoch, 0, available, available)
  {}

  lemma FundingPassAt(x: seq<FundingDebt>, y: seq<FundingDebt>, epoch: nat, i: int, remaining: int, available: int)
    requires FundingPass(x, y, epoch, i, remaining, available) && i < |x|
    ensures |y| == |x| && y[i] == x[i] && x[i].collected <= x[i].target
    ensures x[i].epoch != epoch || x[i].collected == x[i].target ==>
      FundingPass(x, y, epoch, i + 1, remaining, available)
  {}

  lemma FundingPassPay(x: seq<FundingDebt>, y: seq<FundingDebt>, epoch: nat, i: int, remaining: int, available: int,
                       amount: int)
    requires FundingPass(x, y, epoch, i, remaining, available) && i < |x| && |y| == |x|
    requires x[i].epoch == epoch && amount == Min(remaining, x[i].target - x[i].collected) && 0 < amount
    ensures FundingPass(x, y[i := y[i].(collected := y[i].collected + amount)], epoch, i + 1, remaining - amount,
                        available)
  {
    FundingOwedUpdate(y, epoch, i, amount);
    FundingCollectedUpdate(y, i, y[i].(collected := y[i].collected + amount));
  }

  lemma FundingPassEnd(x: seq<FundingDebt>, y: seq<FundingDebt>, epoch: nat, i: int, remaining: int, available: int)
    requires FundingPass(x, y, epoch, i, remaining, available)
    requires remaining == 0 || i == |x|
    ensures FundingOk(y) && FundingPaid(x, y, epoch, available - remaining)
    ensures available - remaining == Min(available, FundingOwed(x, epoch))
    ensures remaining == available ==> y == x
  {
    FundingOwedBound(y, epoch);
    if remaining > 0 {
      FundingOwedZero(y, epoch);
    }
    if remaining == available {
      NothingOwedNothingPaid(x, y, epoch);
    }
  }

  lemma {:induction false} NothingOwedNothingPaid(x: seq<FundingDebt>, y: seq<FundingDebt>, epoch: nat)
    requires |x| == |y|
    requires forall i :: 0 <= i < |x| ==> y[i] == x[i].(collected := y[i].collected) && x[i].collected <= y[i].collected
    ensures FundingCollected(x) <= FundingCollected(y)
    ensures FundingCollected(y) == FundingCollected(x) ==> y == x
  {
    if |x| > 0 {
      var n := |x| - 1;
      NothingOwedNothingPaid(x[..n], y[..n], epoch);
      assert x == x[..n] + [x[n]] && y == y[..n] + [y[n]];
    }
  }

  lemma FundingPaidTotal(x: seq<FundingDebt>, y: seq<FundingDebt>, epoch: nat, n: int)
    requires FundingPaid(x, y, epoch, n)
    ensures FundingCollected(y) == FundingCollected(x) + n
  {}

  lemma FundingNeverNegative(s: seq<FundingDebt>, epoch: nat)
    requires FundingOk(s)
    ensures 0 <= FundingOwed(s, epoch)
  {
    FundingOwedBound(s, epoch);
  }

  /** Nothing in the account can claim returned atoms. */
  ghost predicate NothingOwed(q: seq<OrderId>, debts: map<OrderId, Debt>, s: seq<FundingDebt>, epoch: nat) {
    UncollectedSum(q, debts) == 0 && FundingOwed(s, epoch) == 0
  }

  // ---- the account's log ---------------------------------------------------------------

  function BalanceBefore(log: seq<LogRow>, i: nat): int
    requires i <= |log|
  {
    if i == 0 then 0 else log[i - 1].balanceAfter
  }

  /** Each row's balance is the previous one plus its delta, and the last is the balance. */
  ghost predicate Telescopes(log: seq<LogRow>, balance: int) {
    && balance == BalanceBefore(log, |log|)
    && forall i :: 0 <= i < |log| ==> log[i].balanceAfter == BalanceBefore(log, i) + log[i].delta
  }

  /** Since then `log` says of every collection that came after the first `n` rows, and of nothing else, how much
      it took from the balance. */
  ghost predicate CollectionsLogged(before: seq<LogRow>, log: seq<LogRow>, n: nat, allocs: seq<Alloc>) {
    && before <= log && n <= |allocs| && |log| - |before| == |allocs| - n
    && forall k :: |before| <= k < |log| ==>
         log[k].reason == PackDebtCollection && log[k].delta == -allocs[n + k - |before|].amount
  }

  lemma NoneLogged(log: seq<LogRow>, allocs: seq<Alloc>)
    ensures CollectionsLogged(log, log, |allocs|, allocs)
  {}

  lemma CollectionLogged(before: seq<LogRow>, log: seq<LogRow>, n: nat, allocs: seq<Alloc>, row: LogRow, a: Alloc)
    requires CollectionsLogged(before, log, n, allocs) && row.reason == PackDebtCollection && row.delta == -a.amount
    ensures CollectionsLogged(before, log + [row], n, allocs + [a]) && before <= log + [row]
  {}

  /** All that came since then is collections for debts of invoices. */
  ghost predicate InvoicesLogged(before: seq<LogRow>, log: seq<LogRow>) {
    before <= log && forall i :: |before| <= i < |log| ==> log[i].reason == FundingDebtCollection && log[i].delta < 0
  }

  function DeltaSum(log: seq<LogRow>): int {
    if |log| == 0 then 0 else DeltaSum(log[..|log| - 1]) + log[|log| - 1].delta
  }

  /** The stored balance is the sum of everything the log says happened to it. */
  lemma {:induction false} BalanceIsLogged(log: seq<LogRow>, balance: int)
    requires Telescopes(log, balance)
    ensures balance == DeltaSum(log)
  {
    if |log| > 0 {
      var n := |log| - 1;
      forall i | 0 <= i < n
        ensures log[..n][i].balanceAfter == BalanceBefore(log[..n], i) + log[..n][i].delta
      {
        assert log[i].balanceAfter == BalanceBefore(log, i) + log[i].delta;
      }
      BalanceIsLogged(log[..n], BalanceBefore(log, n));
    }
  }
}
