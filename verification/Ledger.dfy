/** One account's credit ledger. Every operation first locks the account row, so each method
    below is one atomic transaction. */
module CreditLedger {
  import opened Basics
  import opened LedgerTables
  import opened LedgerInvariant
  import opened LedgerSteps
  import opened DebtCollection
  import opened DebtPriority
  import opened SubscriptionState
  import opened LedgerBoundary
  import opened Spending
  import opened Refunding
  import opened Fefo
  import opened CashFacts

  /** Why a transaction was rolled back. */
  datatype Error =
    | NoError
    | BalanceOverflow            // a returned subscription balance exceeds the bigint range
    | CycleDetected              // a debt collection is already being unwound
    | InconsistentCollection     // a collection debit differs from its allocation
    | NoReversibleFunding        // collected debt has no collection left to reverse
    | AmountOverflow             // any other checked addition
    | RestoredExceedsDebit       // a refund returns more than its debit took
    | DebitNotFound
    | NotRefundable              // the debit is a debt collection

  datatype Refusal = InvalidAmount | KeyConflict | NotActive | Revoked | WindowExpired | Insufficient

  datatype ChargeOutcome = Charged | Repeated | Refused(why: Refusal)

  datatype FundingOutcome = UnknownOrder | Funded | AlreadyFunded

  datatype ClaimOutcome = NotClaimed | Advanced | NotAdvanced | OutOfRange

  datatype RefundOutcome = Refunded | EpochExpired | Replayed | Rejected(why: Error)

  /** Why a charge that the reported balance does not cover is refused; `lots` are the lots after
      expiry. */
  function RefusalFor(plan: Plan, lots: map<OrderId, Lot>, available: int, now: int): Refusal {
    var anyExpired := exists o :: o in lots && lots[o].status == Expired;
    if available == 0 && !SubscriptionSpendable(plan, now)
       && !(exists o :: o in lots && lots[o].status == Active && lots[o].expiresAt > now)
    then
      if !plan.active && !anyExpired then NotActive
      else if plan.revoked && !anyExpired then Revoked
      else WindowExpired
    else Insufficient
  }

  predicate Gone(l: Lot, now: int) { l.status == Expired || (l.status == Active && l.expiresAt <= now) }

  /** The reason fits the account before the charge: there is nothing to spend unless funds are merely too small,
      and a lot that ran out outranks an inactive or revoked subscription. */
  ghost predicate Explains(why: Refusal, plan: Plan, lots: map<OrderId, Lot>, available: int, now: int) {
    var anyOpen := exists o :: o in lots && lots[o].status == Active && now < lots[o].expiresAt;
    var anyGone := exists o :: o in lots && Gone(lots[o], now);
    var usable := plan.active && !plan.revoked && plan.window.Until? && now < plan.window.time;
    if available != 0 || usable || anyOpen then why == Insufficient
    else if anyGone || (plan.active && !plan.revoked) then why == WindowExpired
    else why == if plan.active then Revoked else NotActive
  }

  lemma RefusalExplained(plan: Plan, lots: map<OrderId, Lot>, available: int, now: int)
    ensures Explains(RefusalFor(plan, ExpireLapsed(lots, now), available, now), plan, lots, available, now)
  {
    var after := ExpireLapsed(lots, now);
    forall o | o in lots ensures after[o] == ExpiredLot(lots[o], now) {}
  }

  lemma LogStep(log: seq<LogRow>, balance: int, delta: int, reason: Reason)
    requires Telescopes(log, balance)
    ensures Telescopes(log + [LogRow(delta, balance + delta, reason)], balance + delta)
    ensures log <= log + [LogRow(delta, balance + delta, reason)]
  {
    var t := log + [LogRow(delta, balance + delta, reason)];
    forall i | 0 <= i < |t| ensures t[i].balanceAfter == BalanceBefore(t, i) + t[i].delta {
      if i < |log| {
        assert log[i].balanceAfter == BalanceBefore(log, i) + log[i].delta;
      }
    }
  }

  /** What the account row, its log and its subscription-side debts satisfy. */
  ghost predicate AccountOk(balance: int, log: seq<LogRow>, fundingDebts: seq<FundingDebt>) {
    0 <= balance <= MAX_ATOMS && Telescopes(log, balance) && FundingOk(fundingDebts)
  }

  /** Reversing `amount` atoms drawn on the lot of `o` first forgives its debt; a closed
      window keeps the rest as expired, and a terminal lot has no rest to keep. */
  ghost predicate ReturnedTo(x: Books, y: Books, o: OrderId, amount: int, asOf: int)
    requires o in x.lots && o in y.lots
  {
    var l := x.lots[o];
    var lapsed := l.status == Active && l.expiresAt <= asOf;
    var forgiven := Min(amount, ActiveDebt(x, o));
    && Released(y, o) == Released(x, o) + forgiven
    && y.lots[o].status == (if lapsed then Expired else l.status)
    && y.lots[o].expired == l.expired + (if lapsed then l.remaining else 0)
         + (if y.lots[o].status == Expired then amount - forgiven else 0)
    && (y.lots[o].status == Active || y.lots[o].status == Expired || forgiven == amount)
  }

  lemma ReturnedAfterExpiry(b: Books, t: Books, y: Books, o: OrderId, amount: int, asOf: int)
    requires o in b.lots && o in t.lots && o in y.lots && ReturnedTo(t, y, o, amount, asOf)
    requires t == if b.lots[o].status == Active && b.lots[o].expiresAt <= asOf then Expire(b, o) else b
    ensures ReturnedTo(b, y, o, amount, asOf)
  {}

  /** What relieving debt leaves to be returned. */
  lemma ReliefLeaves(x: Books, u: Books, o: OrderId, amount: int, relief: int)
    requires Relieved(x, u, o, relief) && 0 <= ActiveDebt(x, o) && 0 < amount <= Sum(x.allocs, OnLot(o))
    requires relief == Max(0, Min(amount, ActiveDebt(x, o)))
    ensures o in x.lots && o in u.lots && u.lots[o] == x.lots[o] && 0 <= relief <= amount
    ensures amount - relief > 0 ==> ActiveDebt(u, o) == 0 && amount <= Sum(u.allocs, OnLot(o))
    ensures Released(u, o) == Released(x, o) + relief
    ensures ActiveDebt(x, o) == 0 ==> relief == 0
  {}

  lemma BeforeRelief(x: Books, busy: Unwinding, o: OrderId, q: seq<OrderId>)
    requires Core(x, busy, o, 0) && Above(x, busy, o) && o in x.lots
    ensures o !in busy && 0 <= ActiveDebt(x, o) && 0 <= ActiveSum(q, x.debts)
  {
    hide Core;
    AboveIsIdle(x, busy, o);
    CoreAt(x, busy, o, 0);
    CoreActive(x, busy, o, 0, q);
    NothingRelieved(x, o);
  }

  /** Relief and return together are the reversal. */
  lemma ReliefThenReturn(x: Books, u: Books, y: Books, o: OrderId, amount: int, relief: int, asOf: int)
    requires Relieved(x, u, o, relief) && relief == Max(0, Min(amount, ActiveDebt(x, o))) && 0 <= ActiveDebt(x, o)
    requires 0 < amount
    requires o in x.lots && o in y.lots && Released(y, o) == Released(u, o) && y.lots[o].status == x.lots[o].status
    requires x.lots[o].status == Active ==> x.lots[o].expiresAt > asOf
    requires y.lots[o].expired == x.lots[o].expired + (if x.lots[o].status == Expired then amount - relief else 0)
    requires amount - relief > 0 ==> x.lots[o].status == Active || x.lots[o].status == Expired
    ensures ReturnedTo(x, y, o, amount, asOf)
  {}

  class Ledger {
    var balance: int
    var epoch: nat
    var plan: Plan
    var orders: map<OrderId, Order>
    var lots: map<OrderId, Lot>
    var lotQueue: seq<OrderId>          // lots by expiry, then id
    var debts: map<OrderId, Debt>
    var debtQueue: seq<OrderId>         // debts by creation
    var allocs: seq<Alloc>              // allocations by row id
    var debits: map<Key, Debit>
    var fundingDebts: seq<FundingDebt>  // subscription-side debts by creation
    var log: seq<LogRow>

    function Tables(): Books
      reads this
    {
      Books(orders, lots, debts, allocs, debits)
    }

    /** Atoms spendable at some time, plus every atom ever drawn or paid. Only fresh funding
        raises it: spending and paying debt move atoms within it. */
    ghost function Funds(): int
      reads this
    {
      balance + LotSum(lotQueue, lots) + Sum(allocs, Everything) + FundingCollected(fundingDebts)
    }

    ghost function AccountSide(): Side
      reads this
    {
      Side(balance, fundingDebts)
    }

    ghost function Here(asOf: int): Scene
      reads this
    {
      Scene(debtQueue, lotQueue, epoch, asOf, SubscriptionSpendable(plan, asOf))
    }

    /** Since the old state atoms came back as `Repaid` says. */
    twostate predicate Repays(asOf: int, extra: int, gain: int)
      reads this
    {
      Repaid(old(Tables()), old(AccountSide()), Tables(), AccountSide(), Here(asOf), extra, gain)
    }

    /** The balance has room for every atom this epoch drew on the subscription. */
    ghost predicate HasRoom()
      reads this
    {
      Exposure(Tables(), AccountSide(), epoch) <= MAX_ATOMS
    }

    lemma OwesHere(busy: Unwinding, at: OrderId, slack: int)
      requires Core(Tables(), busy, at, slack) && AccountOk(balance, log, fundingDebts)
      ensures OwesOk(Tables(), AccountSide())
    {
      CoreDebts(Tables(), busy, at, slack);
    }

    // ---- debt collection ----------------------------------------------------------------

    method RecordDebtCollection(o: OrderId, amount: int, source: Source)
      requires o in debts
      modifies this`debits, this`allocs
      ensures allocs == old(allocs) + [Alloc(Collection(o, |old(allocs)|), source, amount, 0)]
      ensures debits == old(debits)[Collection(o, |old(allocs)|) := Debit(amount, epoch, 0, false)]
    {
      var key := Collection(o, |allocs|);
      debits := debits[key := Debit(amount, epoch, 0, false)];
      allocs := allocs + [Alloc(key, source, amount, 0)];
    }

    /** One turn of a collection loop: pays `amount` of the debt of `o`. */
    method PayDebt(o: OrderId, amount: int, source: Source)
      requires o in debts
      modifies this`debts, this`debits, this`allocs
      ensures Tables() == Collect(old(Tables()), o, source, amount, epoch)
    {
      debts := debts[o := debts[o].(collected := debts[o].collected + amount)];
      RecordDebtCollection(o, amount, source);
    }

    method TakeFromLot(lot: OrderId, n: int, ghost busy: Unwinding, ghost slack: int)
      requires Core(Tables(), busy, lot, slack) && lot in lots && lot !in busy
      requires 0 <= n <= lots[lot].remaining
      modifies this`lots
      ensures Core(Tables(), busy, lot, slack - n) && Kept(busy.Keys, old(Tables()), Tables())
      ensures lots == old(lots)[lot := old(lots[lot]).(remaining := old(lots[lot].remaining) - n)]
      ensures Listed(lotQueue, old(lots)) ==> LotSum(lotQueue, lots) == LotSum(lotQueue, old(lots)) - n
    {
      hide Core, Kept;
      ghost var t := Tables();
      RefillKeeps(t, busy, lot, slack, -n);
      if Listed(lotQueue, lots) {
        LotSumUpdate(lotQueue, lots, lot, lots[lot].(remaining := lots[lot].remaining - n));
      }
      if lots[lot].remaining >= n {
        lots := lots[lot := lots[lot].(remaining := lots[lot].remaining - n)];
      }
      assert Tables() == Refill(t, lot, -n);
    }

    /** Pays pack debts, oldest first, with atoms of a lot that are still to be taken from it. */
    method PayPackDebts(lot: OrderId, available: int, ghost busy: Unwinding, ghost slack: int) returns (collected: int)
      requires Core(Tables(), busy, lot, slack) && Queued(debtQueue, debts)
      requires MayPay(Tables(), busy, lot, Pack(lot)) && 0 <= available
      modifies this`debts, this`debits, this`allocs
      ensures Core(Tables(), busy, lot, slack + collected) && Kept(busy.Keys, old(Tables()), Tables())
      ensures 0 <= collected == Min(available, UncollectedSum(debtQueue, old(debts)))
      ensures PaidOldestFirst(debtQueue, old(debts), debts, collected)
      ensures Sum(allocs, Everything) == old(Sum(allocs, Everything)) + collected
      ensures DrawnMore(old(allocs), allocs, Pack(lot), collected)
      ensures collected == 0 ==> Tables() == old(Tables())
    {
      hide Core, Kept, PaidOldestFirst, Paying, Queued, MayPay, DrawnMore;
      var rows := debts;
      var remaining := available;
      ghost var b := Tables();
      PayingStart(b, debtQueue, available, busy, lot, slack, Pack(lot));
      var i := 0;
      while i < |debtQueue|
        invariant 0 <= i <= |debtQueue|
        invariant Paying(b, Tables(), debtQueue, i, remaining, available, busy, lot, slack, Pack(lot))
      {
        var o := debtQueue[i];
        PayingAt(b, Tables(), debtQueue, i, remaining, available, busy, lot, slack, Pack(lot));
        if Uncollected(rows[o]) > 0 {
          var amount := Min(remaining, Uncollected(rows[o]));
          if amount <= 0 { break; }
          PayingPay(b, Tables(), debtQueue, i, remaining, available, busy, lot, slack, Pack(lot), amount, epoch);
          PayDebt(o, amount, Pack(lot));
          remaining := remaining - amount;
        }
        i := i + 1;
      }
      PayingLeft(b, Tables(), debtQueue, i, remaining, available, busy, lot, slack, Pack(lot));
      PayingEnd(b, Tables(), debtQueue, i, remaining, available, busy, lot, slack, Pack(lot));
      collected := available - remaining;
    }

    /** New or returned atoms of a lot first pay what the account owes. */
    method CollectPackDebtsFromLot(lot: OrderId, available: int, ghost busy: Unwinding, ghost slack: int)
      returns (collected: int)
      requires Core(Tables(), busy, lot, slack) && Queued(debtQueue, debts)
      requires MayPay(Tables(), busy, lot, Pack(lot)) && 0 <= available <= lots[lot].remaining
      modifies this`debts, this`debits, this`allocs, this`lots
      ensures Core(Tables(), busy, lot, slack) && Kept(busy.Keys, old(Tables()), Tables())
      ensures 0 <= collected == Min(available, UncollectedSum(debtQueue, old(debts)))
      ensures PaidOldestFirst(debtQueue, old(debts), debts, collected)
      ensures lots == old(lots)[lot := old(lots[lot]).(remaining := old(lots[lot].remaining) - collected)]
      ensures Sum(allocs, Everything) == old(Sum(allocs, Everything)) + collected
      ensures DrawnMore(old(allocs), allocs, Pack(lot), collected)
      ensures collected == 0 ==> Tables() == old(Tables())
      ensures Listed(lotQueue, old(lots)) ==> Funds() == old(Funds())
    {
      hide Core, Kept, PaidOldestFirst, Queued, Listed, DrawnMore;
      ghost var b := Tables();
      LotUnchanged(lots, lot);
      collected := PayPackDebts(lot, available, busy, slack);
      if collected > 0 {
        ghost var t := Tables();
        TakeFromLot(lot, collected, busy, slack + collected);
        KeptTrans(busy.Keys, busy.Keys, b, t, Tables());
      }
    }

    method CollectPackDebtsFromSubscription(ghost busy: Unwinding, ghost at: OrderId, ghost slack: int)
      returns (collected: int)
      requires Core(Tables(), busy, at, slack) && Queued(debtQueue, debts)
      requires 0 <= balance && Telescopes(log, balance)
      modifies this`balance, this`debts, this`debits, this`allocs, this`log
      ensures Core(Tables(), busy, at, slack) && Kept(busy.Keys, old(Tables()), Tables())
      ensures collected == Min(old(balance), UncollectedSum(debtQueue, old(debts)))
      ensures PaidOldestFirst(debtQueue, old(debts), debts, collected)
      ensures 0 <= balance == old(balance) - collected && Telescopes(log, balance) && old(log) <= log
      ensures Sum(allocs, Everything) == old(Sum(allocs, Everything)) + collected
      ensures DrawnMore(old(allocs), allocs, Subscription(epoch), collected)
      ensures collected == 0 ==> Tables() == old(Tables()) && log == old(log)
      ensures CollectionsLogged(old(log), log, |old(allocs)|, allocs)
    {
      hide Core, Kept, PaidOldestFirst, Paying, Telescopes, Queued, DrawnMore, CollectionsLogged;
      NoneLogged(log, allocs);
      var rows := debts;
      var left := balance;
      ghost var b := Tables();
      ghost var source := Subscription(epoch);
      PayingStart(b, debtQueue, left, busy, at, slack, source);
      var i := 0;
      while i < |debtQueue|
        invariant 0 <= i <= |debtQueue| && balance == old(balance)
        invariant Paying(b, Tables(), debtQueue, i, left, balance, busy, at, slack, source)
        invariant Telescopes(log, left) && CollectionsLogged(old(log), log, |old(allocs)|, allocs) && old(log) <= log
        invariant left == balance ==> log == old(log)
      {
        var o := debtQueue[i];
        PayingAt(b, Tables(), debtQueue, i, left, balance, busy, at, slack, source);
        PayingLeft(b, Tables(), debtQueue, i, left, balance, busy, at, slack, source);
        if Uncollected(rows[o]) > 0 {
          var amount := Min(left, Uncollected(rows[o]));
          if amount <= 0 { break; }
          PayingPay(b, Tables(), debtQueue, i, left, balance, busy, at, slack, source, amount, epoch);
          LogStep(log, left, -amount, PackDebtCollection);
          left := left - amount;
          CollectionLogged(old(log), log, |old(allocs)|, allocs, LogRow(-amount, left, PackDebtCollection),
                           Alloc(Collection(o, |allocs|), Subscription(epoch), amount, 0));
          PayDebt(o, amount, Subscription(epoch));
          log := log + [LogRow(-amount, left, PackDebtCollection)];
        }
        i := i + 1;
      }
      PayingLeft(b, Tables(), debtQueue, i, left, balance, busy, at, slack, source);
      PayingEnd(b, Tables(), debtQueue, i, left, balance, busy, at, slack, source);
      collected := balance - left;
      if left != balance {
        balance := left;
      }
    }

    method CollectClawbackDebts() returns (collected: int)
      requires FundingOk(fundingDebts) && 0 <= balance && Telescopes(log, balance)
      modifies this`balance, this`fundingDebts, this`log
      ensures collected == Min(old(balance), FundingOwed(old(fundingDebts), epoch))
      ensures FundingOk(fundingDebts) && FundingPaid(old(fundingDebts), fundingDebts, epoch, collected)
      ensures 0 <= balance == old(balance) - collected && Telescopes(log, balance) && old(log) <= log
      ensures collected == 0 ==> fundingDebts == old(fundingDebts) && log == old(log)
      ensures InvoicesLogged(old(log), log)
    {
      hide FundingPass, FundingPaid, FundingOk, Telescopes;
      var rows := fundingDebts;
      var left := balance;
      collected := 0;
      FundingPassStart(rows, epoch, left);
      var i := 0;
      while i < |rows|
        invariant 0 <= i <= |rows| && 0 <= left <= balance == old(balance) && collected == balance - left
        invariant FundingPass(rows, fundingDebts, epoch, i, left, balance)
        invariant Telescopes(log, left) && InvoicesLogged(old(log), log)
        invariant left == balance ==> log == old(log)
      {
        var debt := rows[i];
        FundingPassAt(rows, fundingDebts, epoch, i, left, balance);
        if debt.epoch == epoch && debt.collected < debt.target {
          var amount := Min(debt.target - debt.collected, left);
          if amount <= 0 { break; }
          FundingPassPay(rows, fundingDebts, epoch, i, left, balance, amount);
          LogStep(log, left, -amount, FundingDebtCollection);
          left := left - amount;
          collected := collected + amount;
          fundingDebts := fundingDebts[i := fundingDebts[i].(collected := fundingDebts[i].collected + amount)];
          log := log + [LogRow(-amount, left, FundingDebtCollection)];
        }
        i := i + 1;
      }
      FundingPassEnd(rows, fundingDebts, epoch, i, left, balance);
      if collected != 0 {
        balance := left;
      }
    }

    // ---- returning subscription atoms ------------------------------------------------------

    /** Returns atoms to a spendable subscription, which first pays what the account owes: `first` on
        the subscription side, `second` in pack debt. */
    method ReturnSubscriptionAtoms(amount: int, reason: Reason, asOf: int, ghost busy: Unwinding, ghost at: OrderId)
      returns (returned: int, err: Error, ghost first: int, ghost second: int)
      requires Core(Tables(), busy, at, 0) && Queued(debtQueue, debts)
      requires AccountOk(balance, log, fundingDebts) && 0 < amount
      modifies this`balance, this`debts, this`debits, this`allocs, this`log, this`fundingDebts
      ensures err == NoError || err == BalanceOverflow
      ensures err == NoError <==> !SubscriptionSpendable(plan, asOf) || old(balance) + amount <= MAX_ATOMS
      ensures err == NoError ==>
        && Core(Tables(), busy, at, 0) && Kept(busy.Keys, old(Tables()), Tables())
        && AccountOk(balance, log, fundingDebts)
        && returned == (if SubscriptionSpendable(plan, asOf) then amount else 0)
        && Funds() == old(Funds()) + returned && old(log) <= log && Repays(asOf, amount, returned)
      ensures err == NoError && returned > 0 ==>
        && first == Min(old(balance) + amount, FundingOwed(old(fundingDebts), epoch))
        && second == Min(old(balance) + amount - first, UncollectedSum(debtQueue, old(debts)))
        && FundingPaid(old(fundingDebts), fundingDebts, epoch, first)
        && PaidOldestFirst(debtQueue, old(debts), debts, second)
        && balance == old(balance) + amount - first - second
        && old(log) + [LogRow(amount, old(balance) + amount, reason)] <= log
      ensures !SubscriptionSpendable(plan, asOf) ==> balance == old(balance)
      ensures err == NoError && NothingOwed(old(debtQueue), old(debts), old(fundingDebts), epoch) ==>
        Tables() == old(Tables()) && fundingDebts == old(fundingDebts) && balance == old(balance) + returned
    {
      hide Core, Kept, PaidOldestFirst, FundingPaid, AccountOk, Queued, NothingOwed, Repaid, OwesOk, Telescopes,
        FundingOk, Sum, LotSum, FundingCollected, UncollectedSum, FundingOwed, SubscriptionSpendable, Exposure;
      OwesHere(busy, at, 0);
      returned, err, first, second := 0, NoError, 0, 0;
      if SubscriptionSpendable(plan, asOf) {
        if balance > MAX_ATOMS - amount {
          err := BalanceOverflow;
        } else {
          first, second := CreditSubscription(amount, reason, Here(asOf), busy, at);
          returned := amount;
        }
      } else {
        KeptRefl(busy.Keys, Tables());
        FirstSame(Tables(), AccountSide(), Here(asOf));
      }
    }

    /** Adds atoms to the subscription balance and lets both kinds of debt claim them. */
    method CreditSubscription(amount: int, reason: Reason, ghost c: Scene, ghost busy: Unwinding, ghost at: OrderId)
      returns (first: int, second: int)
      requires Core(Tables(), busy, at, 0) && Queued(debtQueue, debts)
      requires AccountOk(balance, log, fundingDebts) && 0 < amount <= MAX_ATOMS - balance
      requires c == Here(c.asOf).(live := true)
      modifies this`balance, this`debts, this`debits, this`allocs, this`log, this`fundingDebts
      ensures Core(Tables(), busy, at, 0) && Kept(busy.Keys, old(Tables()), Tables())
      ensures AccountOk(balance, log, fundingDebts)
      ensures Funds() == old(Funds()) + amount && old(log) <= log
      ensures Repaid(old(Tables()), old(AccountSide()), Tables(), AccountSide(), c, amount, amount)
      ensures first == Min(old(balance) + amount, FundingOwed(old(fundingDebts), epoch))
      ensures second == Min(old(balance) + amount - first, UncollectedSum(debtQueue, old(debts)))
      ensures FundingPaid(old(fundingDebts), fundingDebts, epoch, first)
      ensures PaidOldestFirst(debtQueue, old(debts), debts, second)
      ensures old(log) + [LogRow(amount, old(balance) + amount, reason)] <= log
      ensures balance == old(balance) + amount - first - second && (second == 0 ==> Tables() == old(Tables()))
      ensures NothingOwed(debtQueue, old(debts), old(fundingDebts), epoch) ==>
        Tables() == old(Tables()) && fundingDebts == old(fundingDebts) && balance == old(balance) + amount
    {
      hide Core, Kept, PaidOldestFirst, FundingPaid, FundingOk, Telescopes, Queued, Repaid, OwesOk, Sum, LotSum,
        FundingCollected, UncollectedSum, FundingOwed, DrawnMore;
      ghost var b := Tables();
      OwesHere(busy, at, 0);
      LogStep(log, balance, amount, reason);
      balance := balance + amount;
      log := log + [LogRow(amount, balance, reason)];
      FundingNeverNegative(fundingDebts, epoch);
      CoreDebts(Tables(), busy, at, 0);
      UncollectedSumBound(debtQueue, debts);
      first := CollectClawbackDebts();
      FundingPaidTotal(old(fundingDebts), fundingDebts, epoch, first);
      second := CollectPackDebtsFromSubscription(busy, at, 0);
      FirstCredit(b, old(AccountSide()), Tables(), AccountSide(), amount, first, second, c);
    }

    // ---- unwinding a product operation -----------------------------------------------------

    /** The open collections that paid the debt of `o`. The order in which they come back is
        left open: rows are sorted by transaction start and a random key, so not by age. */
    method FetchCollections(o: OrderId) returns (ids: seq<nat>)
      ensures Distinct(ids)
      ensures forall k :: 0 <= k < |ids| ==> ids[k] < |allocs| && Open(allocs[ids[k]]) && Collects(allocs[ids[k]], o)
      ensures forall i :: 0 <= i < |allocs| && Open(allocs[i]) && Collects(allocs[i], o) ==> i in ids
    {
      ids := [];
      for i := 0 to |allocs|
        invariant Distinct(ids)
        invariant forall k :: 0 <= k < |ids| ==> ids[k] < i && Open(allocs[ids[k]]) && Collects(allocs[ids[k]], o)
        invariant forall j :: 0 <= j < i && Open(allocs[j]) && Collects(allocs[j], o) ==> j in ids
      {
        if Open(allocs[i]) && Collects(allocs[i], o) {
          ids := ids + [i];
        }
      }
    }

    /** What unwinding needs of the account while `busy` is being unwound. */
    ghost predicate Ready(busy: Unwinding, at: OrderId, slack: int)
      reads this
    {
      Core(Tables(), busy, at, slack) && Queued(debtQueue, debts) && Listed(lotQueue, lots)
        && AccountOk(balance, log, fundingDebts)
    }

    /** Forgives up to `amount` of the debt of `o`: what was never paid first, then what was
        paid, giving the payments back to their sources. */
    method RelievePackDebt(o: OrderId, amount: int, visiting: set<Key>, asOf: int, ghost busy: Unwinding)
      returns (relief: int, recovered: int, err: Error)
      requires Ready(busy, o, 0) && o in lots && Above(Tables(), busy, o) && Visits(visiting, busy)
      modifies this`balance, this`lots, this`debts, this`debits, this`allocs, this`fundingDebts, this`log
      ensures err == NoError || err == BalanceOverflow
      ensures old(HasRoom()) ==> err == NoError
      ensures err == NoError ==>
        && relief == Max(0, Min(amount, ActiveDebt(old(Tables()), o)))
        && Ready(busy, o, relief) && Kept(busy.Keys, old(Tables()), Tables())
        && Relieved(old(Tables()), Tables(), o, relief)
        && 0 <= recovered <= relief && old(log) <= log && Repays(asOf, 0, relief)
        && (NoneLapsed(old(lots), asOf) ==> NoneLapsed(lots, asOf) && Funds() == old(Funds()) + recovered)
      ensures ActiveDebt(old(Tables()), o) == 0 ==>
        err == NoError && relief == 0 && Tables() == old(Tables()) && balance == old(balance)
        && fundingDebts == old(fundingDebts) && log == old(log)
      decreases ActiveSum(debtQueue, debts), 2
    {
      hide Core, Kept, Queued, Listed, AccountOk, Visits, NoneLapsed, Above, Relieved, Repaid, OwesOk;
      ghost var b := Tables();
      CoreActive(b, busy, o, 0, debtQueue);
      AboveIsIdle(b, busy, o);
      CoreAt(b, busy, o, 0);
      NothingRelieved(b, o);
      hide LotOk, Balanced, Settled;
      relief, recovered, err := 0, 0, NoError;
      KeptRefl(busy.Keys, b);
      OwesHere(busy, o, 0);
      FirstSame(Tables(), AccountSide(), Here(asOf));
      if o in debts && amount > 0 {
        var activeDebt := debts[o].target - debts[o].released;
        relief := Min(amount, activeDebt);
        if relief > 0 {
          recovered, err := RelieveActive(o, relief, visiting, asOf, busy);
        }
      }
    }

    /** Forgives `relief` atoms of active debt. */
    method RelieveActive(o: OrderId, relief: int, visiting: set<Key>, asOf: int, ghost busy: Unwinding)
      returns (recovered: int, err: Error)
      requires Ready(busy, o, 0) && o in lots && o in debts && Above(Tables(), busy, o) && Visits(visiting, busy)
      requires 0 < relief <= ActiveDebt(Tables(), o) && o !in busy && DebtOk(debts[o])
      modifies this`balance, this`lots, this`debts, this`debits, this`allocs, this`fundingDebts, this`log
      ensures err == NoError || err == BalanceOverflow
      ensures old(HasRoom()) ==> err == NoError
      ensures err == NoError ==>
        && Ready(busy, o, relief) && Kept(busy.Keys, old(Tables()), Tables())
        && Relieved(old(Tables()), Tables(), o, relief)
        && 0 <= recovered <= relief && old(log) <= log && Repays(asOf, 0, relief)
        && (NoneLapsed(old(lots), asOf) ==> NoneLapsed(lots, asOf) && Funds() == old(Funds()) + recovered)
      decreases ActiveSum(debtQueue, debts), 2, 0
    {
      hide Core, Kept, Queued, Listed, AccountOk, Visits, NoneLapsed, Above, Relieved, Repaid;
      ghost var b := Tables();
      CoreActive(b, busy, o, 0, debtQueue);
      recovered, err := 0, NoError;
      var uncollected := debts[o].target - debts[o].released - debts[o].collected;
      var releaseUncollected := Min(relief, uncollected);
      ReleaseUncollected(o, releaseUncollected, asOf, busy);
      var reverseCollected := relief - releaseUncollected;
      if reverseCollected > 0 {
        ghost var t := Tables();
        ghost var s := AccountSide();
        recovered, err := ReverseCollections(o, reverseCollected, visiting, asOf, busy, releaseUncollected);
        if err == NoError {
          KeptTrans(busy.Keys, busy.Keys, b, t, Tables());
          FirstThen(b, old(AccountSide()), t, s, Tables(), AccountSide(), Here(asOf), 0, releaseUncollected,
                    reverseCollected);
        }
      }
      if err == NoError {
        ReliefDone(b, Tables(), o, busy, relief);
      }
    }

    method ReleaseUncollected(o: OrderId, n: int, ghost asOf: int, ghost busy: Unwinding)
      requires Ready(busy, o, 0) && o in lots && o in debts && Above(Tables(), busy, o)
      requires 0 <= n <= Uncollected(debts[o])
      modifies this`debts
      ensures Ready(busy, o, n) && Kept(busy.Keys, old(Tables()), Tables()) && Above(Tables(), busy, o)
      ensures debts == if n > 0 then old(debts)[o := old(debts[o]).(released := old(debts[o].released) + n)]
        else old(debts)
      ensures ActiveSum(debtQueue, debts) <= old(ActiveSum(debtQueue, debts))
      ensures Repays(asOf, 0, n)
    {
      hide Core, Kept, AccountOk, Queued, Listed, Repaid, OwesOk;
      ghost var b := Tables();
      AboveIsIdle(b, busy, o);
      OwesHere(busy, o, 0);
      ReleaseStep(b, AccountSide(), busy, o, n, Here(asOf));
      ReleaseNothing(b, o);
      if n > 0 {
        debts := debts[o := debts[o].(released := debts[o].released + n)];
      }
      assert Tables() == Release(b, o, n);
    }

    /** Gives back `amount` of what was collected for the debt of `o`. */
    method ReverseCollections(o: OrderId, amount: int, visiting: set<Key>, asOf: int, ghost busy: Unwinding,
                              ghost slack: int)
      returns (recovered: int, err: Error)
      requires Ready(busy, o, slack) && o in lots && o in debts && Above(Tables(), busy, o) && Visits(visiting, busy)
      requires Uncollected(debts[o]) == 0 && 0 < amount <= debts[o].collected
      modifies this`balance, this`lots, this`debts, this`debits, this`allocs, this`fundingDebts, this`log
      ensures err == NoError || err == BalanceOverflow
      ensures old(HasRoom()) ==> err == NoError
      ensures err == NoError ==>
        && Ready(busy, o, slack + amount) && Kept(busy.Keys, old(Tables()), Tables())
        && o in lots && lots[o] == old(lots[o])
        && o in debts && debts[o] == Forgive(old(Tables()), o, amount).debts[o]
        && 0 <= recovered <= amount && old(log) <= log && Repays(asOf, 0, amount)
        && (NoneLapsed(old(lots), asOf) ==> NoneLapsed(lots, asOf) && Funds() == old(Funds()) + recovered)
      decreases ActiveSum(debtQueue, debts), 1
    {
      hide Core, Kept, AccountOk, Worklist, Visits, Queued, Listed, Above, NoneLapsed, Reversing, Repaid, OwesOk,
        ActiveSum, Sum, LotSum, FundingCollected;
      err := NoError;
      recovered := 0;
      ghost var b := Tables();
      CoreActive(b, busy, o, slack, debtQueue);
      var collections := FetchCollections(o);
      var rows := allocs;
      var debitRows := debits;
      var remaining := amount;
      ReversingStart(b, busy, o, slack, collections, amount);
      OwesHere(busy, o, slack);
      FirstSame(Tables(), AccountSide(), Here(asOf));
      var n := 0;
      while n < |collections|
        invariant 0 <= n <= |collections| && 0 <= remaining <= amount && err == NoError
        invariant Ready(busy, o, slack + amount - remaining)
        invariant Reversing(b, Tables(), busy, o, slack, collections, n, amount, amount - remaining)
        invariant 0 <= recovered <= amount - remaining && old(log) <= log && Repays(asOf, 0, amount - remaining)
        invariant NoneLapsed(old(lots), asOf) ==> NoneLapsed(lots, asOf) && Funds() == old(Funds()) + recovered
        invariant ActiveSum(debtQueue, debts) <= old(ActiveSum(debtQueue, debts))
      {
        if remaining <= 0 { break; }
        ghost var t := Tables();
        ghost var s := AccountSide();
        ReversingAt(b, t, busy, o, slack, collections, n, amount, amount - remaining, visiting);
        ReversingNow(b, t, busy, o, slack, collections, n, amount, amount - remaining);
        FirstExposure(b, old(AccountSide()), t, s, Here(asOf), amount - remaining);
        var row := rows[collections[n]];
        var debit := debitRows[row.debit];
        if row.debit in visiting { err := CycleDetected; break; }
        if debit.amount != row.amount { err := InconsistentCollection; break; }
        var reversing := Min(remaining, row.amount - row.refunded);
        if reversing > 0 {
          var restored;
          restored, err := ReverseOne(o, collections[n], reversing, debit.restored, visiting, asOf, busy,
                                      slack + amount - remaining, b, collections, n, remaining);
          if err != NoError { break; }
          ReversingStep(b, t, Tables(), busy, o, slack, collections, n, amount, amount - remaining, reversing);
          FirstThen(b, old(AccountSide()), t, s, Tables(), AccountSide(), Here(asOf), 0, amount - remaining,
                    reversing);
          recovered := recovered + restored;
          remaining := remaining - reversing;
        }
        n := n + 1;
      }
      if err == NoError {
        ReversingEnd(b, Tables(), busy, o, slack, collections, n, amount, amount - remaining);
        if remaining > 0 { err := NoReversibleFunding; }
      }
    }

    /** One turn of that loop: gives back `reversing` atoms of collection `c`. */
    method ReverseOne(o: OrderId, c: nat, reversing: int, restoredBefore: int, visiting: set<Key>, asOf: int,
                      ghost busy: Unwinding, ghost slack: int, ghost rows: Books, ghost ids: seq<nat>, ghost n: int,
                      ghost remaining: int)
      returns (restored: int, err: Error)
      requires Ready(busy, o, slack) && o in lots && o in debts && Above(Tables(), busy, o) && Visits(visiting, busy)
      requires Uncollected(debts[o]) == 0
      requires Worklist(Tables(), rows, o, ids, n, remaining) && n < |ids| && c == ids[n]
      requires c < |allocs| && Collects(allocs[c], o)
      requires 0 < reversing == Min(remaining, allocs[c].amount - allocs[c].refunded)
      requires allocs[c].debit in debits && restoredBefore == debits[allocs[c].debit].restored
      modifies this`balance, this`lots, this`debts, this`debits, this`allocs, this`fundingDebts, this`log
      ensures err == NoError || err == BalanceOverflow
      ensures old(HasRoom()) ==> err == NoError
      ensures err == NoError ==>
        && Ready(busy, o, slack + reversing) && Kept(busy.Keys, old(Tables()), Tables())
        && Above(Tables(), busy, o) && Worklist(Tables(), rows, o, ids, n + 1, remaining - reversing)
        && o in lots && lots[o] == old(lots[o])
        && o in debts && debts[o] == Forgive(old(Tables()), o, reversing).debts[o]
        && 0 <= restored <= reversing && old(log) <= log && Repays(asOf, 0, reversing)
        && (NoneLapsed(old(lots), asOf) ==> NoneLapsed(lots, asOf) && Funds() == old(Funds()) + restored)
        && ActiveSum(debtQueue, debts) <= old(ActiveSum(debtQueue, debts))
      decreases ActiveSum(debtQueue, debts), 0, 1
    {
      hide Ready, Core, Kept, Above, Queued, Listed, Visits, Worklist, NoneLapsed, Repaid, ActiveSum, Sum, LotSum,
        FundingCollected, HasRoom;
      ghost var b := Tables();
      ghost var s := AccountSide();
      ReadyNow(busy, o, slack);
      var key := allocs[c].debit;
      ghost var at := if allocs[c].source.Pack? then allocs[c].source.lot else o;
      CollectionAt(busy, o, slack, c);
      restored, err := RestoreForgiven(o, c, reversing, visiting, asOf, busy, slack, rows, ids, n, remaining, at);
      if err == NoError {
        err := FinishReversal(o, c, key, reversing, restoredBefore, restored, busy, slack, b, s, rows, ids, n,
                              remaining, at, asOf);
      }
    }

    lemma CollectionAt(busy: Unwinding, o: OrderId, slack: int, c: nat)
      requires Ready(busy, o, slack) && c < |allocs| && Collects(allocs[c], o)
      ensures allocs[c].amount <= MAX_ATOMS
      ensures allocs[c].debit in debits && 0 <= debits[allocs[c].debit].restored <= allocs[c].refunded
    {
      CoreRows(Tables(), busy, o, slack);
      assert AllocOk(Tables(), c);
    }

    /** Forgives `r` atoms of the collected debt and restores their source; the collection is not marked
        yet. */
    method RestoreForgiven(o: OrderId, c: nat, r: int, visiting: set<Key>, asOf: int, ghost busy: Unwinding,
                           ghost slack: int, ghost rows: Books, ghost ids: seq<nat>, ghost n: int, ghost remaining: int,
                           ghost at: OrderId)
      returns (restored: int, err: Error)
      requires Ready(busy, o, slack) && o in debts && Above(Tables(), busy, o) && Visits(visiting, busy)
      requires Uncollected(debts[o]) == 0
      requires Worklist(Tables(), rows, o, ids, n, remaining) && n < |ids| && c == ids[n]
      requires c < |allocs| && Collects(allocs[c], o) && 0 < r <= allocs[c].amount - allocs[c].refunded
      requires at == if allocs[c].source.Pack? then allocs[c].source.lot else o
      modifies this`balance, this`lots, this`debts, this`debits, this`allocs, this`fundingDebts, this`log
      ensures err == NoError || err == BalanceOverflow
      ensures old(HasRoom()) ==> err == NoError
      ensures err == NoError ==>
        && Ready(busy[o := c], at, if old(allocs[c].source).Pack? then r else 0)
        && Kept(busy.Keys + {o}, Forgive(old(Tables()), o, r), Tables())
        && 0 <= restored <= r && old(log) <= log
        && Repays(asOf, if old(allocs[c].source) == Subscription(epoch) then r else 0,
                  if StrandedSource(old(allocs[c].source), epoch, SubscriptionSpendable(plan, asOf)) then 0 else r)
        && (NoneLapsed(old(lots), asOf) ==> NoneLapsed(lots, asOf) && Funds() == old(Funds()) + restored)
        && ActiveSum(debtQueue, debts) <= old(ActiveSum(debtQueue, debts))
      decreases ActiveSum(debtQueue, debts), 0, 0
    {
      hide Ready, Core, Kept, Above, Queued, Listed, Visits, Worklist, NoneLapsed, Repaid, ActiveSum, Sum, LotSum,
        FundingCollected;
      ghost var b := Tables();
      ghost var s := AccountSide();
      ghost var source := allocs[c].source;
      var key := allocs[c].debit;
      ForgiveCollected(o, c, r, visiting, asOf, busy, slack, rows, ids, n, remaining, at);
      ghost var x := Tables();
      ReadyNow(busy[o := c], at, 0);
      restored, err := RestoreAllocationEffect(c, r, DebtRefund, visiting + {key}, asOf, busy[o := c], at);
      if err == NoError {
        FirstThen(b, s, x, s, Tables(), AccountSide(), Here(asOf), if source == Subscription(epoch) then r else 0, 0,
                  if StrandedSource(source, epoch, SubscriptionSpendable(plan, asOf)) then 0 else r);
        KeptLists(busy.Keys + {o}, x, Tables(), debtQueue, lotQueue, asOf);
      }
    }

    lemma ReadyNow(busy: Unwinding, at: OrderId, slack: int)
      requires Ready(busy, at, slack)
      ensures Core(Tables(), busy, at, slack) && Queued(debtQueue, debts) && Listed(lotQueue, lots)
    {}

    /** Moves `r` atoms of the debt of `o` from collected to released, after which their source may be
        restored. */
    method ForgiveCollected(o: OrderId, c: nat, r: int, ghost visiting: set<Key>, ghost asOf: int,
                            ghost busy: Unwinding, ghost slack: int, ghost rows: Books, ghost ids: seq<nat>,
                            ghost n: int, ghost remaining: int, ghost at: OrderId)
      requires Ready(busy, o, slack) && o in debts && Above(Tables(), busy, o) && Visits(visiting, busy)
      requires Uncollected(debts[o]) == 0
      requires Worklist(Tables(), rows, o, ids, n, remaining) && n < |ids| && c == ids[n]
      requires c < |allocs| && Collects(allocs[c], o) && 0 < r <= allocs[c].amount - allocs[c].refunded
      requires allocs[c].source.Pack? ==> at == allocs[c].source.lot
      modifies this`debts
      ensures Tables() == Forgive(old(Tables()), o, r) && Repays(asOf, 0, 0) && Kept(busy.Keys, old(Tables()), Tables())
      ensures Ready(busy[o := c], at, 0) && Visits(visiting + {allocs[c].debit}, busy[o := c])
      ensures allocs[c].source.Pack? ==> Above(Tables(), busy[o := c], at)
      ensures 0 <= ActiveSum(debtQueue, debts) < old(ActiveSum(debtQueue, debts))
      ensures busy[o := c].Keys == busy.Keys + {o} && allocs[c].amount <= MAX_ATOMS
      ensures allocs[c].debit in debits && 0 <= debits[allocs[c].debit].restored <= allocs[c].refunded
    {
      hide Core, Kept, Above, AccountOk, Queued, Listed, Visits, Worklist, Repaid, OwesOk, ActiveSum;
      OwesHere(busy, o, slack);
      ReversalBegins(Tables(), busy, o, slack, c, r, rows, ids, n, remaining, visiting, at, debtQueue);
      ForgiveStep(Tables(), AccountSide(), busy, o, r, Here(asOf));
      debts := debts[o := debts[o].(collected := debts[o].collected - r, released := debts[o].released + r)];
      assert Tables() == Forgive(old(Tables()), o, r);
    }

    /** Marks a reversed collection, which settles its debt and its source again. `b` are the tables
        before the reversal. */
    method FinishReversal(o: OrderId, c: nat, key: Key, reversing: int, restoredBefore: int, restored: int,
                          ghost busy: Unwinding, ghost slack: int, ghost b: Books, ghost s: Side, ghost rows: Books,
                          ghost ids: seq<nat>, ghost n: int, ghost remaining: int, ghost at: OrderId, ghost asOf: int)
      returns (err: Error)
      requires Core(b, busy, o, slack) && Above(b, busy, o) && o in b.lots && o in b.debts
      requires Uncollected(b.debts[o]) == 0
      requires Worklist(b, rows, o, ids, n, remaining) && n < |ids| && c == ids[n]
      requires c < |b.allocs| && Collects(b.allocs[c], o)
      requires 0 < reversing == Min(remaining, b.allocs[c].amount - b.allocs[c].refunded)
      requires key == b.allocs[c].debit && 0 <= restoredBefore <= b.allocs[c].refunded && 0 <= restored <= reversing
      requires b.allocs[c].amount <= MAX_ATOMS
      requires Kept(busy.Keys + {o}, Forgive(b, o, reversing), Tables())
      requires at == if b.allocs[c].source.Pack? then b.allocs[c].source.lot else o
      requires Ready(busy[o := c], at, if b.allocs[c].source.Pack? then reversing else 0)
      requires Repaid(b, s, Tables(), AccountSide(), Here(asOf),
                      if b.allocs[c].source == Subscription(epoch) then reversing else 0,
                      if StrandedSource(b.allocs[c].source, epoch, SubscriptionSpendable(plan, asOf)) then 0
                      else reversing)
      modifies this`allocs, this`debits
      ensures err == NoError
      ensures Ready(busy, o, slack + reversing) && Kept(busy.Keys, b, Tables())
      ensures Repaid(b, s, Tables(), AccountSide(), Here(asOf), 0, reversing)
      ensures Above(Tables(), busy, o) && Worklist(Tables(), rows, o, ids, n + 1, remaining - reversing)
      ensures o in lots && lots[o] == b.lots[o] && o in debts && debts[o] == Forgive(b, o, reversing).debts[o]
      ensures Sum(allocs, Everything) == old(Sum(allocs, Everything))
    {
      hide Core, Kept, Above, Worklist, Repaid, AccountOk, Queued, Listed, Sum;
      ghost var y := Tables();
      ReversalDone(b, Tables(), o, c, reversing, restoredBefore + restored, busy, slack, rows, ids, n, remaining);
      err := NoError;
      if restoredBefore > MAX_ATOMS - restored {
        err := AmountOverflow;
      } else {
        MarkCollection(c, key, reversing, restoredBefore + restored);
        FirstMark(b, s, y, Tables(), AccountSide(), c, reversing, Here(asOf),
                  if b.allocs[c].source == Subscription(epoch) then reversing else 0,
                  if StrandedSource(b.allocs[c].source, epoch, SubscriptionSpendable(plan, asOf)) then 0
                    else reversing);
      }
    }

    method MarkCollection(c: nat, key: Key, n: int, restored: int)
      requires c < |allocs| && key == allocs[c].debit && key in debits
      requires 0 < n <= allocs[c].amount - allocs[c].refunded
      modifies this`allocs, this`debits
      ensures Tables() == Close(old(Tables()), c, n, restored)
    {
      if allocs[c].refunded + n <= allocs[c].amount {
        allocs := allocs[c := allocs[c].(refunded := allocs[c].refunded + n)];
      }
      debits := debits[key := debits[key].(restored := restored, closed := debits[key].closed || !Open(allocs[c]))];
    }

    /** Reverses `amount` atoms of allocation `i` at their source, without moving its marker. */
    method RestoreAllocationEffect(i: nat, amount: int, reason: Reason, visiting: set<Key>, asOf: int,
                                   ghost busy: Unwinding, ghost at: OrderId)
      returns (restored: int, err: Error)
      requires Ready(busy, at, 0) && Visits(visiting, busy)
      requires i < |allocs| && 0 < amount <= allocs[i].amount - allocs[i].refunded
      requires allocs[i].source.Pack? ==> at == allocs[i].source.lot && Above(Tables(), busy, at)
      modifies this`balance, this`lots, this`debts, this`debits, this`allocs, this`fundingDebts, this`log
      ensures err == NoError || err == BalanceOverflow
      ensures old(HasRoom()) ==> err == NoError
      ensures err == NoError ==>
        && Ready(busy, at, if old(allocs[i].source).Pack? then amount else 0)
        && Kept(busy.Keys, old(Tables()), Tables())
        && 0 <= restored <= amount && old(log) <= log
        && Repays(asOf, if old(allocs[i].source) == Subscription(epoch) then amount else 0,
                  if StrandedSource(old(allocs[i].source), epoch, SubscriptionSpendable(plan, asOf)) then 0 else amount)
        && (NoneLapsed(old(lots), asOf) ==> NoneLapsed(lots, asOf) && Funds() == old(Funds()) + restored)
      ensures err == NoError && old(allocs[i].source).Pack? ==>
        at in old(lots) && at in lots && ReturnedTo(old(Tables()), Tables(), at, amount, asOf)
      ensures err == NoError ==>
        Yields(old(Tables()), Tables(), old(allocs[i].source), amount, restored, epoch, plan, asOf)
      ensures ReturnFate(old(Tables()), old(allocs[i].source), amount, epoch, plan, asOf, old(balance), balance,
                         err != NoError)
      ensures (NothingOwed(old(debtQueue), old(debts), old(fundingDebts), epoch)
               && ReturnsWhole(old(Tables()), old(allocs[i].source), epoch, plan, old(balance), amount, asOf)) ==>
        && err == NoError && restored == amount && fundingDebts == old(fundingDebts)
        && (old(allocs[i].source).Subscription? ==> Tables() == old(Tables()) && balance == old(balance) + amount)
        && (old(allocs[i].source).Pack? ==>
              at in old(lots) && Tables() == Refill(old(Tables()), at, amount) && balance == old(balance))
      decreases ActiveSum(debtQueue, debts), 5
    {
      hide Core, Kept, AccountOk, Queued, Listed, Visits, NothingOwed, NoneLapsed, Repaid, OwesOk, Yields;
      ghost var b := Tables();
      if allocs[i].source.Subscription? {
        hide Above;
        KeptRefl(busy.Keys, b);
        KeptLists(busy.Keys, b, b, debtQueue, lotQueue, asOf);
        restored, err := 0, NoError;
        OwesHere(busy, at, 0);
        FirstSame(Tables(), AccountSide(), Here(asOf));
        if allocs[i].source.epoch == epoch {
          CoreRows(b, busy, at, 0);
          RowFits(b, AccountSide(), i, amount, epoch);
          ghost var first, second;
          restored, err, first, second := ReturnSubscriptionAtoms(amount, reason, asOf, busy, at);
        }
        if err == NoError {
          KeptLists(busy.Keys, b, Tables(), debtQueue, lotQueue, asOf);
          CreditYields(b, Tables(), busy.Keys, b.allocs[i].source, amount, restored, epoch, plan, asOf);
        }
      } else {
        CoreRows(b, busy, at, 0);
        DrawnIsOutstanding(b, i);
        restored, err := RestorePack(allocs[i].source.lot, amount, visiting, asOf, busy);
      }
    }

    /** The same for a lot. */
    method RestorePack(o: OrderId, amount: int, visiting: set<Key>, asOf: int, ghost busy: Unwinding)
      returns (restored: int, err: Error)
      requires Ready(busy, o, 0) && o in lots && o in orders && Above(Tables(), busy, o) && Visits(visiting, busy)
      requires 0 < amount <= Sum(allocs, OnLot(o))
      modifies this`balance, this`lots, this`debts, this`debits, this`allocs, this`fundingDebts, this`log
      ensures err == NoError || err == BalanceOverflow
      ensures old(HasRoom()) ==> err == NoError
      ensures err == NoError ==>
        && Ready(busy, o, amount) && Kept(busy.Keys, old(Tables()), Tables())
        && 0 <= restored <= amount && old(log) <= log && Repays(asOf, 0, amount)
        && o in old(lots) && o in lots && ReturnedTo(old(Tables()), Tables(), o, amount, asOf)
        && (NoneLapsed(old(lots), asOf) ==> NoneLapsed(lots, asOf) && Funds() == old(Funds()) + restored)
      ensures NothingOwed(old(debtQueue), old(debts), old(fundingDebts), epoch)
              && Unencumbered(old(Tables()), o, asOf) ==>
        && err == NoError && restored == amount && o in old(lots) && Tables() == Refill(old(Tables()), o, amount)
        && balance == old(balance) && fundingDebts == old(fundingDebts)
      ensures ActiveDebt(old(Tables()), o) == 0 ==> err == NoError && balance == old(balance)
      ensures err == NoError ==> Yields(old(Tables()), Tables(), Pack(o), amount, restored, epoch, plan, asOf)
      decreases ActiveSum(debtQueue, debts), 4
    {
      hide Core, Kept, AccountOk, Queued, Listed, Visits, NothingOwed, NoneLapsed, Above, ReturnedTo, Repaid;
      ghost var b := Tables();
      CoreActive(b, busy, o, 0, debtQueue);
      ExpireIfLapsed(o, asOf, busy);
      ghost var t := Tables();
      ghost var s := AccountSide();
      restored, err := RestoreCurrent(o, amount, visiting, asOf, busy);
      if err == NoError {
        ReturnedAfterExpiry(b, t, Tables(), o, amount, asOf);
        YieldAfterExpiry(b, t, Tables(), o, amount, restored, epoch, plan, asOf);
        KeptTrans(busy.Keys, busy.Keys, b, t, Tables());
        FirstThen(b, s, t, s, Tables(), AccountSide(), Here(asOf), 0, 0, amount);
        KeptLists(busy.Keys, b, Tables(), debtQueue, lotQueue, asOf);
      }
    }

    /** The same for a lot whose status is up to date. */
    method RestoreCurrent(o: OrderId, amount: int, visiting: set<Key>, asOf: int, ghost busy: Unwinding)
      returns (restored: int, err: Error)
      requires Ready(busy, o, 0) && o in lots && o in orders && Above(Tables(), busy, o) && Visits(visiting, busy)
      requires 0 < amount <= Sum(allocs, OnLot(o))
      requires lots[o].status == Active ==> lots[o].expiresAt > asOf
      modifies this`balance, this`lots, this`debts, this`debits, this`allocs, this`fundingDebts, this`log
      ensures err == NoError || err == BalanceOverflow
      ensures old(HasRoom()) ==> err == NoError
      ensures err == NoError ==>
        && Ready(busy, o, amount) && Kept(busy.Keys, old(Tables()), Tables())
        && 0 <= restored <= amount && old(log) <= log && Repays(asOf, 0, amount)
        && o in old(lots) && o in lots && ReturnedTo(old(Tables()), Tables(), o, amount, asOf)
        && (NoneLapsed(old(lots), asOf) ==> Funds() == old(Funds()) + restored)
      ensures NothingOwed(old(debtQueue), old(debts), old(fundingDebts), epoch)
              && Unencumbered(old(Tables()), o, asOf) ==>
        && err == NoError && restored == amount && o in old(lots) && Tables() == Refill(old(Tables()), o, amount)
        && balance == old(balance) && fundingDebts == old(fundingDebts)
      ensures ActiveDebt(old(Tables()), o) == 0 ==> err == NoError && balance == old(balance)
      ensures err == NoError ==> Yields(old(Tables()), Tables(), Pack(o), amount, restored, epoch, plan, asOf)
      decreases ActiveSum(debtQueue, debts), 3
    {
      hide Ready, HasRoom, Kept, Visits, NothingOwed, NoneLapsed, Relieved, ReturnedTo, Repaid, Refill, ActiveSum,
        ActiveDebt, Released, Above, Sum, LotSum, FundingCollected;
      restored, err := 0, NoError;
      ghost var t := Tables();
      ReadyToRelieve(o, busy);
      var lot := lots[o];
      var order := orders[o];
      var relieved, recovered;
      relieved, recovered, err := RelievePackDebt(o, amount, visiting, asOf, busy);
      if err == NoError {
        ghost var u := Tables();
        ghost var s := AccountSide();
        ReliefLeaves(t, u, o, amount, relieved);
        assert ActiveDebt(t, o) == 0 ==> u == t && relieved == 0;
        var returned;
        returned, err := ReturnToLot(o, amount - relieved, lot, order, asOf, busy, relieved);
        ReliefThenReturn(t, u, Tables(), o, amount, relieved, asOf);
        KeptTrans(busy.Keys, busy.Keys, t, u, Tables());
        FirstThen(t, old(AccountSide()), u, s, Tables(), AccountSide(), Here(asOf), 0, relieved, amount - relieved);
        restored := recovered + returned;
        ReliefYields(t, Tables(), o, busy.Keys, amount, relieved, restored, epoch, plan, asOf);
      }
    }

    lemma ReadyToRelieve(o: OrderId, busy: Unwinding)
      requires Ready(busy, o, 0) && o in lots && Above(Tables(), busy, o)
      ensures o !in busy && 0 <= ActiveDebt(Tables(), o) && 0 <= ActiveSum(debtQueue, debts)
    {
      hide Core;
      BeforeRelief(Tables(), busy, o, debtQueue);
    }

    method ExpireIfLapsed(o: OrderId, asOf: int, ghost busy: Unwinding)
      requires Ready(busy, o, 0) && o in lots && Above(Tables(), busy, o)
      modifies this`lots
      ensures Ready(busy, o, 0) && Kept(busy.Keys, old(Tables()), Tables()) && Above(Tables(), busy, o)
      ensures o in old(lots) && Tables() == if old(lots[o]).status == Active && old(lots[o]).expiresAt <= asOf
                                            then Expire(old(Tables()), o) else old(Tables())
      ensures NoneLapsed(old(lots), asOf) ==> Tables() == old(Tables())
      ensures ActiveSum(debtQueue, debts) <= old(ActiveSum(debtQueue, debts))
      ensures Repays(asOf, 0, 0)
    {
      hide Core, Kept, AccountOk, Queued, Listed, Above, Repaid, OwesOk, ActiveSum;
      assert lots[o].status == Active && lots[o].expiresAt <= asOf ==> !NoneLapsed(lots, asOf);
      CoreLots(Tables(), busy, o, 0);
      OwesHere(busy, o, 0);
      hide NoneLapsed;
      FirstSame(Tables(), AccountSide(), Here(asOf));
      KeptRefl(busy.Keys, Tables());
      if lots[o].status == Active && lots[o].expiresAt <= asOf {
        FirstExpire(Tables(), AccountSide(), o, Here(asOf));
        ExpireLot(o, asOf, busy);
      }
    }

    method ExpireLot(o: OrderId, ghost asOf: int, ghost busy: Unwinding)
      requires Ready(busy, o, 0) && o in lots && lots[o].status == Active && Above(Tables(), busy, o)
      modifies this`lots
      ensures Ready(busy, o, 0) && Kept(busy.Keys, old(Tables()), Tables()) && Above(Tables(), busy, o)
      ensures Tables() == Expire(old(Tables()), o)
      ensures ActiveSum(debtQueue, debts) <= old(ActiveSum(debtQueue, debts))
    {
      hide Core, Kept, AccountOk, Queued, Listed, ActiveSum;
      ghost var b := Tables();
      ExpireKeeps(b, busy, o, 0);
      lots := lots[o := lots[o].(expired := lots[o].expired + lots[o].remaining, remaining := 0, status := Expired)];
      KeptLists(busy.Keys, b, Tables(), debtQueue, lotQueue, asOf);
    }

    /** Puts back what no debt claimed. `lot` and `order` were read before the debt was relieved. */
    method ReturnToLot(o: OrderId, restorable: int, lot: Lot, order: Order, asOf: int, ghost busy: Unwinding,
                       ghost relieved: int)
      returns (returned: int, err: Error)
      requires Ready(busy, o, relieved) && o in lots && o !in busy && o in orders
      requires lot == lots[o] && order == orders[o] && 0 <= restorable && 0 <= relieved
      requires restorable > 0 ==> ActiveDebt(Tables(), o) == 0 && relieved + restorable <= Sum(allocs, OnLot(o))
      modifies this`lots, this`debts, this`debits, this`allocs
      ensures err == NoError
      ensures Ready(busy, o, relieved + restorable) && Kept(busy.Keys, old(Tables()), Tables())
      ensures returned == (if lot.status == Active then restorable else 0)
      ensures o in lots && Released(Tables(), o) == old(Released(Tables(), o))
      ensures lots[o].status == lot.status
      ensures lots[o].expired == lot.expired + (if lot.status == Expired then restorable else 0)
      ensures restorable > 0 ==> lot.status == Active || lot.status == Expired
      ensures Funds() == old(Funds()) + returned && Repays(asOf, 0, restorable)
      ensures NothingOwed(debtQueue, old(debts), fundingDebts, epoch) && lot.status == Active ==>
        Tables() == Refill(old(Tables()), o, restorable)
    {
      hide Core, Kept, AccountOk, Queued, NothingOwed, NoneLapsed, Repaid, OwesOk;
      returned, err := 0, NoError;
      ghost var b := Tables();
      KeptRefl(busy.Keys, b);
      LotUnchanged(lots, o);
      OwesHere(busy, o, relieved);
      FirstSame(Tables(), AccountSide(), Here(asOf));
      if restorable > 0 {
        ReturnFits(b, busy, o, relieved, relieved + restorable);
      }
      if restorable > 0 && lot.status == Active {
        var headroom := order.pack - order.refunded - lot.remaining;
        returned := Min(restorable, Max(headroom, 0));
        if returned > 0 {
          if lot.remaining > MAX_ATOMS - returned {
            err := AmountOverflow;
          } else {
            RefillLot(o, returned, asOf, busy, relieved);
          }
        }
      } else if restorable > 0 && lot.status == Expired {
        var headroom := order.pack - order.refunded - lot.expired;
        var retired := Min(restorable, Max(headroom, 0));
        if retired > 0 {
          if lot.expired > MAX_ATOMS - retired {
            err := AmountOverflow;
          } else {
            RetireInLot(o, retired, asOf, busy, relieved);
          }
        }
      }
      KeptLists(busy.Keys, b, Tables(), debtQueue, lotQueue, asOf);
    }

    method RefillLot(o: OrderId, n: int, asOf: int, ghost busy: Unwinding, ghost slack: int)
      requires Ready(busy, o, slack) && o in lots && o !in busy && 0 < n
      requires lots[o].status == Active && ActiveDebt(Tables(), o) == 0
      modifies this`lots, this`debts, this`debits, this`allocs
      ensures Ready(busy, o, slack + n) && Kept(busy.Keys, old(Tables()), Tables())
      ensures o in lots && lots[o].status == Active && lots[o].expired == old(lots[o].expired)
      ensures Released(Tables(), o) == old(Released(Tables(), o))
      ensures Funds() == old(Funds()) + n && Repays(asOf, 0, n)
      ensures NothingOwed(debtQueue, old(debts), fundingDebts, epoch) ==> Tables() == Refill(old(Tables()), o, n)
    {
      hide Core, Kept, AccountOk, Queued, PaidOldestFirst, Listed, Repaid, OwesOk, Sum, LotSum, ActiveSum, NoneLapsed,
        FundingCollected, UncollectedSum, FundingOwed, DrawnMore;
      ghost var b := Tables();
      OwesHere(busy, o, slack);
      CoreDebts(b, busy, o, slack);
      AddToLot(o, n, asOf, busy, slack);
      ghost var t := Tables();
      var collected := CollectPackDebtsFromLot(o, n, busy, slack + n);
      DebtUntouched(debtQueue, t.debts, debts, collected);
      FirstRefill(b, AccountSide(), Tables(), o, n, collected, Here(asOf));
      KeptTrans(busy.Keys, busy.Keys, b, t, Tables());
      KeptLists(busy.Keys, b, Tables(), debtQueue, lotQueue, asOf);
    }

    method AddToLot(o: OrderId, n: int, ghost asOf: int, ghost busy: Unwinding, ghost slack: int)
      requires Ready(busy, o, slack) && o in lots && o !in busy && 0 < n
      requires lots[o].status == Active && ActiveDebt(Tables(), o) == 0
      modifies this`lots
      ensures Ready(busy, o, slack + n) && Kept(busy.Keys, old(Tables()), Tables())
      ensures Tables() == Refill(old(Tables()), o, n) && Funds() == old(Funds()) + n
      ensures n <= lots[o].remaining
    {
      hide Core, Kept, AccountOk, Queued;
      ghost var b := Tables();
      CoreAt(b, busy, o, slack);
      RefillKeeps(b, busy, o, slack, n);
      LotSumUpdate(lotQueue, lots, o, lots[o].(remaining := lots[o].remaining + n));
      lots := lots[o := lots[o].(remaining := lots[o].remaining + n)];
      KeptLists(busy.Keys, b, Tables(), debtQueue, lotQueue, asOf);
    }

    method RetireInLot(o: OrderId, n: int, asOf: int, ghost busy: Unwinding, ghost slack: int)
      requires Ready(busy, o, slack) && o in lots && o !in busy && 0 < n
      requires lots[o].status == Expired && ActiveDebt(Tables(), o) == 0
      modifies this`lots
      ensures Ready(busy, o, slack + n) && Kept(busy.Keys, old(Tables()), Tables())
      ensures Tables() == Retire(old(Tables()), o, n) && Funds() == old(Funds()) && Repays(asOf, 0, n)
    {
      hide Core, Kept, AccountOk, Queued, Listed, Repaid, OwesOk, ActiveDebt, Sum, LotSum, FundingCollected;
      OwesHere(busy, o, slack);
      RetireStep(Tables(), AccountSide(), busy, o, slack, n, Here(asOf));
      lots := lots[o := lots[o].(expired := lots[o].expired + n)];
      assert Tables() == Retire(old(Tables()), o, n);
    }

    // ---- transactions ------------------------------------------------------------------------

    /** What every committed transaction leaves behind. */
    ghost predicate Valid()
      reads this
    {
      && Ready(map[], 0, 0) && UsageOk(Tables()) && CashOk(orders) && QueueSorted(lotQueue, lots)
      && NoneLater(allocs, epoch)
    }

    /** Like `Funds`, with lots counted only while they are live at `now`. */
    ghost function FundsAt(now: int): int
      reads this
    {
      balance + LiveSum(lotQueue, lots, now) + Sum(allocs, Everything) + FundingCollected(fundingDebts)
    }

    constructor ()
      ensures Valid()
      ensures balance == 0 && epoch == 0 && log == [] && allocs == [] && debits == map[]
      ensures orders == map[] && lots == map[] && debts == map[] && fundingDebts == []
      ensures plan == Plan(false, false, NoWindow)
      ensures lotQueue == [] && debtQueue == [] && HasRoom()
    {
      balance, epoch, plan := 0, 0, Plan(false, false, NoWindow);
      orders, lots, lotQueue, debts, debtQueue := map[], map[], [], map[], [];
      allocs, debits, fundingDebts, log := [], map[], [], [];
    }

    /** Projects lazy expiry. */
    method ExpireAccountPackLots(now: int) returns (expired: bool)
      requires Valid()
      modifies this`lots
      ensures Valid() && NoneLapsed(lots, now)
      ensures lots == ExpireLapsed(old(lots), now)
      ensures expired <==> exists o :: o in lots && lots[o].status == Expired
      ensures FundsAt(now) == old(FundsAt(now)) == Funds()
    {
      hide Core, AccountOk, Queued, Listed, NoneLater, UsageOk, CashOk, QueueSorted, ExpireLapsed, NoneLapsed;
      ExpiredBoundary(Tables(), lotQueue, now);
      lots := ExpireLapsed(lots, now);
      CoreLots(Tables(), map[], 0, 0);
      AllLive(lotQueue, lots, now);
      expired := exists o :: o in lots && lots[o].status == Expired;
    }

    /** Returns allocation `i` whole, without marking it yet. */
    method ReturnRow(key: Key, i: nat, now: int, ghost x: Books, ghost at: OrderId) returns (restored: int, err: Error)
      requires Ready(map[], 0, 0) && NoneLapsed(lots, now) && key.Product?
      requires RefundProgress(x, Tables(), key, i) && i < |x.allocs| && x.allocs[i].debit == key
      requires i < |allocs| && allocs[i] == x.allocs[i] && allocs[i].refunded < allocs[i].amount
      requires x.allocs[i].source.Pack? ==> at == x.allocs[i].source.lot
      modifies this`balance, this`lots, this`debts, this`debits, this`allocs, this`fundingDebts, this`log
      ensures err == NoError || err == BalanceOverflow
      ensures old(HasRoom()) ==> err == NoError
      ensures err == NoError ==>
        && Ready(map[], at, if x.allocs[i].source.Pack? then x.allocs[i].amount - x.allocs[i].refunded else 0)
        && NoneLapsed(lots, now) && RefundProgress(x, Tables(), key, i)
        && 0 <= restored <= x.allocs[i].amount - x.allocs[i].refunded && old(log) <= log
        && Funds() == old(Funds()) + restored
        && Repays(now, if x.allocs[i].source == Subscription(epoch) then x.allocs[i].amount - x.allocs[i].refunded
                       else 0,
                  if StrandedSource(x.allocs[i].source, epoch, SubscriptionSpendable(plan, now)) then 0
                  else x.allocs[i].amount - x.allocs[i].refunded)
      ensures err == NoError ==>
        Yields(old(Tables()), Tables(), x.allocs[i].source, x.allocs[i].amount - x.allocs[i].refunded, restored, epoch,
               plan, now)
      ensures ReturnFate(old(Tables()), x.allocs[i].source, x.allocs[i].amount - x.allocs[i].refunded, epoch, plan, now,
                         old(balance), balance, err != NoError)
      ensures NothingOwed(old(debtQueue), old(debts), old(fundingDebts), epoch) && x.allocs[i].refunded == 0
              && ReturnsWhole(old(Tables()), x.allocs[i].source, epoch, plan, old(balance), x.allocs[i].amount, now) ==>
        && err == NoError && restored == x.allocs[i].amount && fundingDebts == old(fundingDebts)
        && WentBack(old(Tables()), Tables(), i)
        && balance == old(balance) + (if x.allocs[i].source.Subscription? then x.allocs[i].amount else 0)
    {
      hide Core, Kept, AccountOk, Queued, Listed, NothingOwed, NoneLapsed, RefundProgress, ReturnedTo, Repaid, OwesOk,
        ReturnsWhole, Above, Visits, Refill, ActiveSum, Sum, LotSum, FundingCollected, Exposure, ReturnFate, Yields;
      ghost var b := Tables();
      ghost var idle: Unwinding := map[];
      ReadyToReturn(at, key, idle);
      hide Ready, HasRoom;
      restored, err := RestoreAllocationEffect(i, allocs[i].amount - allocs[i].refunded, UsageRefund, {key}, now, idle,
                                               at);
      if err == NoError { ProgressKept(x, b, Tables(), key, i); }
    }

    /** One turn of the refund loop: returns allocation `i` whole and marks it. */
    method RefundRow(key: Key, i: nat, now: int, ghost x: Books) returns (restored: int, err: Error)
      requires Ready(map[], 0, 0) && NoneLapsed(lots, now) && key.Product?
      requires RefundProgress(x, Tables(), key, i) && i < |x.allocs| && x.allocs[i].debit == key
      requires i < |allocs| && allocs[i] == x.allocs[i] && allocs[i].refunded < allocs[i].amount
      modifies this`balance, this`lots, this`debts, this`debits, this`allocs, this`fundingDebts, this`log
      ensures err == NoError || err == BalanceOverflow
      ensures old(HasRoom()) ==> err == NoError
      ensures err == NoError ==>
        && Ready(map[], 0, 0) && NoneLapsed(lots, now) && RefundProgress(x, Tables(), key, i + 1)
        && 0 <= restored <= x.allocs[i].amount - x.allocs[i].refunded && old(log) <= log
        && Funds() == old(Funds()) + restored && Repays(now, 0, x.allocs[i].amount - x.allocs[i].refunded)
        && Yields(old(Tables()), Tables(), x.allocs[i].source, x.allocs[i].amount - x.allocs[i].refunded, restored,
                  epoch, plan, now)
      ensures ReturnFate(old(Tables()), x.allocs[i].source, x.allocs[i].amount - x.allocs[i].refunded, epoch, plan, now,
                         old(balance), balance, err != NoError)
      ensures NothingOwed(old(debtQueue), old(debts), old(fundingDebts), epoch) && x.allocs[i].refunded == 0
              && ReturnsWhole(old(Tables()), x.allocs[i].source, epoch, plan, old(balance), x.allocs[i].amount, now) ==>
        && err == NoError && restored == x.allocs[i].amount && fundingDebts == old(fundingDebts)
        && (x.allocs[i].source.Pack? ==> x.allocs[i].source.lot in old(lots))
        && Tables() == GiveBack(old(Tables()), i)
        && balance == old(balance) + (if x.allocs[i].source.Subscription? then x.allocs[i].amount else 0)
    {
      hide Ready, HasRoom, NothingOwed, NoneLapsed, RefundProgress, Repaid, ReturnsWhole, Refill, Sum, LotSum,
        FundingCollected, Exposure, ReturnFate, GiveBack, WentBack, Yields;
      ghost var b := Tables();
      var row := allocs[i];
      var pending := row.amount - row.refunded;
      ghost var at := if row.source.Pack? then row.source.lot else 0;
      restored, err := ReturnRow(key, i, now, x, at);
      if err != NoError { return; }
      ghost var y := Tables();
      GaveBack(b, y, i);
      MarkUsage(key, i, pending, at, x);
      YieldsMarked(b, y, Tables(), row.source, pending, restored, epoch, plan, now);
      FirstMark(b, old(AccountSide()), y, Tables(), AccountSide(), i, pending, Here(now),
                if row.source == Subscription(epoch) then pending else 0,
                if StrandedSource(row.source, epoch, SubscriptionSpendable(plan, now)) then 0 else pending);
    }

    lemma ReadyToReturn(at: OrderId, key: Key, idle: Unwinding)
      requires Ready(map[], 0, 0) && key.Product? && idle == map[]
      ensures Ready(idle, at, 0) && Above(Tables(), idle, at) && Visits({key}, idle) && idle.Keys == {}
    {
      hide Core;
      NothingVisited(Tables(), at, key);
    }

    /** Advances the refund marker of a product allocation by all it has left. */
    method MarkUsage(key: Key, i: nat, pending: int, ghost at: OrderId, ghost x: Books)
      requires key.Product? && RefundProgress(x, Tables(), key, i)
      requires i < |x.allocs| && x.allocs[i].debit == key && 0 <= pending == x.allocs[i].amount - x.allocs[i].refunded
      requires x.allocs[i].source.Pack? ==> at == x.allocs[i].source.lot
      requires Ready(map[], at, if x.allocs[i].source.Pack? then pending else 0)
      modifies this`allocs
      ensures Ready(map[], 0, 0) && RefundProgress(x, Tables(), key, i + 1) && Funds() == old(Funds())
      ensures i < |old(allocs)| && old(allocs[i]) == x.allocs[i] && Tables() == Mark(old(Tables()), i, pending)
    {
      hide Core, AccountOk, Queued, Listed, RefundProgress;
      ghost var y := Tables();
      ProgressMark(x, y, key, i, pending);
      MarkProduct(y, at, i, pending);
      CoreIdle(Mark(y, i, pending), map[], at, 0);
      SumUpdate(allocs, i, allocs[i].(refunded := allocs[i].refunded + pending), Everything);
      if allocs[i].refunded + pending <= allocs[i].amount {
        allocs := allocs[i := allocs[i].(refunded := allocs[i].refunded + pending)];
      }
      assert Tables() == Mark(y, i, pending);
    }

    /** One turn of the refund loop, with all the loop keeps: `x` and `s` are the state before it. */
    method RefundTurn(key: Key, i: nat, now: int, ghost x: Books, ghost s: Side, ghost restored: int, ghost gain: int)
      returns (back: int, err: Error)
      requires Ready(map[], 0, 0) && NoneLapsed(lots, now) && key.Product? && UsageOk(x) && RowsOk(x)
      requires RefundProgress(x, Tables(), key, i) && i < |x.allocs| && x.allocs[i].debit == key
      requires key in x.debits && !x.debits[key].closed
      requires Repaid(x, s, Tables(), AccountSide(), Here(now), 0, gain)
      modifies this`balance, this`lots, this`debts, this`debits, this`allocs, this`fundingDebts, this`log
      ensures err == NoError || err == BalanceOverflow
      ensures Exposure(x, s, epoch) <= MAX_ATOMS ==> err == NoError
      ensures err == NoError ==>
        && Ready(map[], 0, 0) && NoneLapsed(lots, now) && RefundProgress(x, Tables(), key, i + 1)
        && 0 <= back <= x.allocs[i].amount && old(log) <= log
        && Funds() == old(Funds()) + back
        && Repaid(x, s, Tables(), AccountSide(), Here(now), 0, gain + x.allocs[i].amount)
      ensures err == NoError && MadeGood(x, old(Tables()), key, i, restored, epoch, plan, now) ==>
        MadeGood(x, Tables(), key, i + 1, restored + back, epoch, plan, now)
      ensures DebtFree(x, key) && FitsSoFar(x, key, i, epoch, plan, s.balance, old(balance), now) ==>
        if err != NoError then TooMuch(x, key, epoch, plan, s.balance, now)
        else FitsSoFar(x, key, i + 1, epoch, plan, s.balance, balance, now)
      ensures NothingOwed(debtQueue, old(debts), old(fundingDebts), epoch)
              && AllReturnable(x, key, epoch, plan, s.balance, now)
              && WholeSoFar(x, old(Tables()), key, i, restored, old(balance) - s.balance) ==>
        && err == NoError && NothingOwed(debtQueue, debts, fundingDebts, epoch) && fundingDebts == old(fundingDebts)
        && WholeSoFar(x, Tables(), key, i + 1, restored + back, balance - s.balance)
    {
      hide Core, Kept, AccountOk, Queued, Listed, NothingOwed, NoneLapsed, RefundProgress, AllReturnable, UsageOk,
        WholeSoFar, GiveBack, Sum, Repaid, FundingCollected, LotSum, FitsSoFar, TooMuch, DebtFree, RowPerSource,
        Exposure, ReturnFate, RowsOk, Yields, MadeGood;
      ghost var t := Tables();
      OpenRows(x, key, i);
      OneRowEach(x);
      ProgressAt(x, t, key, i);
      FirstExposure(x, s, t, AccountSide(), Here(now), gain);
      StatusKept(x, s, t, AccountSide(), Here(now), gain);
      if WholeSoFar(x, t, key, i, restored, balance - s.balance) && AllReturnable(x, key, epoch, plan, s.balance, now) {
        WholeRow(x, t, key, i, restored, balance - s.balance, epoch, plan, s.balance, now);
      }
      back, err := RefundRow(key, i, now, x);
      if DebtFree(x, key) && FitsSoFar(x, key, i, epoch, plan, s.balance, old(balance), now) {
        FitsRow(x, t, key, i, epoch, plan, s.balance, old(balance), now, balance, err != NoError);
      }
      if err == NoError {
        FirstThen(x, s, t, old(AccountSide()), Tables(), AccountSide(), Here(now), 0, gain, x.allocs[i].amount);
        if MadeGood(x, t, key, i, restored, epoch, plan, now) {
          MadeGoodStep(x, t, Tables(), key, i, restored, back, epoch, plan, now);
        }
      }
    }

    /** What the refund loop starts from. */
    lemma RefundStarts(key: Key, now: int)
      requires Valid() && key.Product? && key in debits && !debits[key].closed
      ensures Ready(map[], 0, 0) && UsageOk(Tables()) && RowsOk(Tables()) && RefundProgress(Tables(), Tables(), key, 0)
      ensures Repaid(Tables(), AccountSide(), Tables(), AccountSide(), Here(now), 0, 0) && balance <= MAX_ATOMS
      ensures FitsSoFar(Tables(), key, 0, epoch, plan, balance, balance, now)
      ensures WholeSoFar(Tables(), Tables(), key, 0, 0, 0) && MadeGood(Tables(), Tables(), key, 0, 0, epoch, plan, now)
      ensures Sum(allocs[..0], OfDebit(key)) == 0 && Sum(allocs[..|allocs|], OfDebit(key)) == debits[key].amount
      ensures Sum(allocs, OfDebit(key)) == debits[key].amount
      ensures HasRoom() ==> Exposure(Tables(), AccountSide(), epoch) <= MAX_ATOMS
    {
      hide Core, AccountOk, Queued, Listed, UsageOk, CashOk, QueueSorted, NoneLater, Repaid, OwesOk, RefundProgress,
        FitsSoFar, WholeSoFar, MadeGood;
      ghost var x := Tables();
      OwesHere(map[], 0, 0);
      FirstSame(x, AccountSide(), Here(now));
      CoreRows(x, map[], 0, 0);
      ProgressStart(x, key);
      AccountBounds();
      FitsStart(x, key, epoch, plan, balance, now);
      WholeSoFarStart(x, key);
      RestoredFits(x, key, |x.allocs|);
      NoneRestored(x, key);
      CoreActiveDebts(x, map[], 0, 0);
      MadeGoodStart(x, key, epoch, plan, now);
    }

    /** The refund loop of `refund`. */
    method RefundRows(key: Key, now: int) returns (restored: int, err: Error)
      requires Valid() && NoneLapsed(lots, now) && key.Product? && key in debits && !debits[key].closed
      modifies this`balance, this`lots, this`debts, this`debits, this`allocs, this`fundingDebts, this`log
      ensures err == NoError || err == BalanceOverflow
      ensures old(HasRoom()) ==> err == NoError
      ensures err == NoError ==>
        && Ready(map[], 0, 0) && NoneLapsed(lots, now)
        && RefundProgress(old(Tables()), Tables(), key, |old(allocs)|)
        && 0 <= restored <= old(debits[key].amount) && old(log) <= log
        && Funds() == old(Funds()) + restored && Repays(now, 0, old(debits[key].amount))
        && MadeGood(old(Tables()), Tables(), key, |old(allocs)|, restored, epoch, plan, now)
      ensures DebtFree(old(Tables()), key) ==>
        (err == BalanceOverflow <==> TooMuch(old(Tables()), key, epoch, plan, old(balance), now))
      ensures NothingOwed(debtQueue, old(debts), old(fundingDebts), epoch)
              && AllReturnable(old(Tables()), key, epoch, plan, old(balance), now) ==>
        && err == NoError && restored == old(debits[key].amount) && fundingDebts == old(fundingDebts)
        && ReturnedWhole(old(Tables()), Tables(), key, |old(allocs)|)
        && balance == old(balance) + Sum(old(allocs), DrawnOnSubscription(key))
    {
      hide Core, Kept, AccountOk, Queued, Listed, NothingOwed, NoneLapsed, RefundProgress, ReturnedWhole, AllReturnable,
        NoneLater, UsageOk, CashOk, QueueSorted, WholeSoFar, GiveBack, Sum, Repaid, OwesOk, FundingCollected, LotSum,
        ActiveSum, FitsSoFar, TooMuch, DebtFree, RowPerSource, Exposure, ReturnFate, RowsOk, Valid, Ready, HasRoom,
        MadeGood;
      restored, err := 0, NoError;
      ghost var x := Tables();
      ghost var free := DebtFree(x, key);
      ghost var whole := NothingOwed(debtQueue, debts, fundingDebts, epoch)
                         && AllReturnable(x, key, epoch, plan, balance, now);
      RefundStarts(key, now);
      var rows := allocs;
      var i := 0;
      while i < |rows|
        invariant 0 <= i <= |rows| && err == NoError
        invariant Ready(map[], 0, 0) && NoneLapsed(lots, now) && RefundProgress(x, Tables(), key, i)
        invariant 0 <= restored <= Sum(rows[..i], OfDebit(key)) && old(log) <= log
        invariant Funds() == old(Funds()) + restored && Repays(now, 0, Sum(rows[..i], OfDebit(key)))
        invariant MadeGood(x, Tables(), key, i, restored, epoch, plan, now)
        invariant free ==> FitsSoFar(x, key, i, epoch, plan, old(balance), balance, now)
        invariant whole ==>
          && NothingOwed(debtQueue, debts, fundingDebts, epoch) && fundingDebts == old(fundingDebts)
          && WholeSoFar(x, Tables(), key, i, restored, balance - old(balance))
      {
        SumNext(rows, i, OfDebit(key));
        if rows[i].debit == key {
          OpenRows(x, key, i);
          ProgressAt(x, Tables(), key, i);
          if rows[i].amount - rows[i].refunded > 0 {
            var back;
            back, err := RefundTurn(key, i, now, x, old(AccountSide()), restored, Sum(rows[..i], OfDebit(key)));
            if err != NoError { break; }
            restored := restored + back;
          }
        } else {
          OtherRow(x, Tables(), key, i, epoch, plan, old(balance), balance, now, restored);
          MadeGoodOther(x, Tables(), key, i, restored, epoch, plan, now);
        }
        i := i + 1;
      }
      if free && err == NoError { FitsEnd(x, key, epoch, plan, old(balance), balance, now); }
      if whole && err == NoError { WholeSoFarEnd(x, Tables(), key, restored, balance - old(balance)); }
    }

    /** A repeated refund only projects expiry, and reports what the first one restored. */
    twostate predicate ReplayedNow(key: Key, now: int, restored: int)
      reads this
    {
      && Tables() == old(Tables()).(lots := ExpireLapsed(old(lots), now))
      && key in old(debits) && restored == old(debits[key].restored)
      && balance == old(balance) && log == old(log) && fundingDebts == old(fundingDebts)
    }

    /** What a refund does: every row of the debit goes back, live funds rise by what it restores, which
        covers all that its sources assure, and what is owed is paid first. */
    twostate predicate RefundedNow(key: Key, now: int, restored: int)
      reads this
    {
      && key in old(debits) && RefundDone(old(Tables()).(lots := ExpireLapsed(old(lots), now)), Tables(), key, restored)
      && old(log) <= log && FundsAt(now) == old(FundsAt(now)) + restored && Repays(now, 0, old(debits[key].amount))
      && MadeGood(old(Tables()), Tables(), key, |old(allocs)|, restored, epoch, plan, now)
    }

    /** The refund undid the charge exactly. */
    twostate predicate UndoneNow(key: Key, now: int, restored: int)
      reads this
    {
      && key in old(debits) && restored == old(debits[key].amount)
      && RefundInverts(old(Tables()).(lots := ExpireLapsed(old(lots), now)), Tables(), key)
      && balance == old(balance) + Sum(old(allocs), DrawnOnSubscription(key)) && fundingDebts == old(fundingDebts)
    }

    /** Refunds a product operation once, whole, to where its atoms came from. */
    method Refund(key: Key, now: int) returns (outcome: RefundOutcome, total: int, restored: int)
      requires Valid()
      modifies this
      ensures Valid()
      ensures epoch == old(epoch) && plan == old(plan) && orders == old(orders)
      ensures lotQueue == old(lotQueue) && debtQueue == old(debtQueue)
      // what is refused, and that a refusal leaves no trace
      ensures key !in old(debits) <==> outcome == Rejected(DebitNotFound)
      ensures key in old(debits) && key.Collection? <==> outcome == Rejected(NotRefundable)
      ensures outcome.Rejected? ==> unchanged(this) && outcome.why in {DebitNotFound, NotRefundable, BalanceOverflow}
      // a debit is refunded at most once
      ensures outcome == Replayed <==> key in old(debits) && key.Product? && old(debits[key].closed)
      ensures outcome == Replayed ==> ReplayedNow(key, now, restored)
      // what a refund does
      ensures outcome.Refunded? || outcome.EpochExpired? ==>
        (outcome.Refunded? <==> restored > 0) && RefundedNow(key, now, restored)
      ensures (outcome.Refunded? || outcome.EpochExpired?) && SubscriptionSpendable(plan, now) ==>
        Sum(old(allocs), DrawnInEpoch(key, epoch)) <= restored
      ensures !outcome.Rejected? ==> total == SpendableTotal(lotQueue, lots, plan, balance, now)
      // it does not fit only after the balance was raised within the epoch, and, where no debt
      // is unwound, exactly when the balance has no room for what the debit drew on it
      ensures old(HasRoom()) ==> outcome != Rejected(BalanceOverflow)
      ensures key in old(debits) && key.Product? && !old(debits[key].closed) && DebtFree(old(Tables()), key) ==>
        (outcome == Rejected(BalanceOverflow) <==> TooMuch(old(Tables()), key, epoch, plan, old(balance), now))
      // with nothing owed and every source open, it undoes the charge exactly
      ensures key in old(debits) && key.Product? && !old(debits[key].closed)
              && NothingOwed(debtQueue, old(debts), old(fundingDebts), epoch)
              && AllReturnable(old(Tables()), key, epoch, plan, old(balance), now) ==>
        outcome == Refunded && UndoneNow(key, now, restored)
    {
      hide Valid, NothingOwed, DebtFree, TooMuch, HasRoom, AllReturnable, SpendableTotal, ReplayedNow, RefundedNow,
        UndoneNow;
      var before := Tables();
      var oldBalance, oldFundingDebts, oldLog := balance, fundingDebts, log;
      outcome, restored := TryRefund(key, now);
      if outcome.Rejected? {
        RollBack(before, oldBalance, oldFundingDebts, oldLog);
        total := 0;
      } else {
        total := SpendableTotal(lotQueue, lots, plan, balance, now);
      }
    }

    lemma AssuredHere(key: Key, now: int)
      requires Valid()
      ensures forall y, restored ::
        MadeGood(Tables(), y, key, |allocs|, restored, epoch, plan, now) && SubscriptionSpendable(plan, now) ==>
          Sum(allocs, DrawnInEpoch(key, epoch)) <= restored
    {
      CoreRows(Tables(), map[], 0, 0);
      assert allocs[..|allocs|] == allocs;
      if SubscriptionSpendable(plan, now) { AssuredEpoch(Tables(), key, |allocs|, epoch, plan, now); }
    }

    method RollBack(before: Books, oldBalance: int, oldFundingDebts: seq<FundingDebt>, oldLog: seq<LogRow>)
      modifies this`balance, this`lots, this`debts, this`debits, this`allocs, this`fundingDebts, this`log
      ensures lots == before.lots && debts == before.debts && debits == before.debits && allocs == before.allocs
      ensures balance == oldBalance && fundingDebts == oldFundingDebts && log == oldLog
    {
      balance, fundingDebts, log := oldBalance, oldFundingDebts, oldLog;
      lots, debts, debits, allocs := before.lots, before.debts, before.debits, before.allocs;
    }

    /** The same before a refusal rolls back. */
    method TryRefund(key: Key, now: int) returns (outcome: RefundOutcome, restored: int)
      requires Valid()
      modifies this`balance, this`lots, this`debts, this`debits, this`allocs, this`fundingDebts, this`log
      ensures !outcome.Rejected? ==> Valid()
      ensures key !in old(debits) <==> outcome == Rejected(DebitNotFound)
      ensures key in old(debits) && key.Collection? <==> outcome == Rejected(NotRefundable)
      ensures outcome.Rejected? ==> outcome.why in {DebitNotFound, NotRefundable, BalanceOverflow}
      ensures outcome == Replayed <==> key in old(debits) && key.Product? && old(debits[key].closed)
      ensures outcome == Replayed ==> ReplayedNow(key, now, restored)
      ensures outcome.Refunded? || outcome.EpochExpired? ==>
        (outcome.Refunded? <==> restored > 0) && RefundedNow(key, now, restored)
      ensures (outcome.Refunded? || outcome.EpochExpired?) && SubscriptionSpendable(plan, now) ==>
        Sum(old(allocs), DrawnInEpoch(key, epoch)) <= restored
      ensures old(HasRoom()) ==> outcome != Rejected(BalanceOverflow)
      ensures key in old(debits) && key.Product? && !old(debits[key].closed) && DebtFree(old(Tables()), key) ==>
        (outcome == Rejected(BalanceOverflow) <==> TooMuch(old(Tables()), key, epoch, plan, old(balance), now))
      ensures key in old(debits) && key.Product? && !old(debits[key].closed)
              && NothingOwed(debtQueue, old(debts), old(fundingDebts), epoch)
              && AllReturnable(old(Tables()), key, epoch, plan, old(balance), now) ==>
        outcome == Refunded && UndoneNow(key, now, restored)
    {
      hide Valid, NothingOwed, NoneLapsed, RefundDone, RefundInverts, AllReturnable, Repaid, OwesOk, DebtFree, TooMuch,
        Sum, LiveSum, FundingCollected, HasRoom, ExpireLapsed, MadeGood;
      ghost var b := Tables();
      AssuredHere(key, now);
      restored := 0;
      ExpireForRefund(key, now);
      ghost var x := Tables();
      if key !in debits {
        outcome := Rejected(DebitNotFound);
      } else if key.Collection? {
        outcome := Rejected(NotRefundable);
      } else if debits[key].closed {
        outcome, restored := Replayed, debits[key].restored;
      } else {
        var err;
        restored, err := RefundOpen(key, now);
        if err == NoError {
          FirstThen(b, old(AccountSide()), x, old(AccountSide()), Tables(), AccountSide(), Here(now), 0, 0,
                    old(debits[key].amount));
          MadeGoodExpired(b, x, Tables(), key, restored, epoch, plan, now);
        }
        outcome := if err != NoError then Rejected(err) else if restored > 0 then Refunded else EpochExpired;
      }
    }

    /** A refund first projects expiry, which changes nothing about what it will do. */
    method ExpireForRefund(key: Key, now: int)
      requires Valid()
      modifies this`lots
      ensures Valid() && NoneLapsed(lots, now) && lots == ExpireLapsed(old(lots), now)
      ensures FundsAt(now) == old(FundsAt(now)) && Repays(now, 0, 0) && HasRoom() == old(HasRoom())
      ensures DebtFree(Tables(), key) <==> old(DebtFree(Tables(), key))
      ensures TooMuch(Tables(), key, epoch, plan, balance, now)
        <==> old(TooMuch(Tables(), key, epoch, plan, balance, now))
      ensures old(AllReturnable(Tables(), key, epoch, plan, balance, now)) ==>
        AllReturnable(Tables(), key, epoch, plan, balance, now)
    {
      hide Valid, NoneLapsed, AllReturnable, Repaid, OwesOk, DebtFree, TooMuch, Sum, LiveSum, FundingCollected;
      ghost var b := Tables();
      HoldingsHere();
      var expired := ExpireAccountPackLots(now);
      ExpireHolds(lotQueue, b.lots, now);
      FirstFrame(b, AccountSide(), Tables(), Here(now), 0);
      assert Tables() == b.(lots := ExpireLapsed(b.lots, now));
      SameFate(b, Tables(), key, epoch, plan, balance, now);
      if AllReturnable(b, key, epoch, plan, balance, now) { ReturnableAfterExpiry(b, key, epoch, plan, balance, now); }
    }

    /** Refunds a debit that is still open, once expiry has been projected. */
    method RefundOpen(key: Key, now: int) returns (restored: int, err: Error)
      requires Valid() && NoneLapsed(lots, now) && key.Product? && key in debits && !debits[key].closed
      modifies this`balance, this`lots, this`debts, this`debits, this`allocs, this`fundingDebts, this`log
      ensures err == NoError || err == BalanceOverflow
      ensures old(HasRoom()) ==> err == NoError
      ensures err == NoError ==>
        && Valid() && RefundDone(old(Tables()), Tables(), key, restored)
        && old(log) <= log && FundsAt(now) == old(FundsAt(now)) + restored && Repays(now, 0, old(debits[key].amount))
        && MadeGood(old(Tables()), Tables(), key, |old(allocs)|, restored, epoch, plan, now)
      ensures DebtFree(old(Tables()), key) ==>
        (err == BalanceOverflow <==> TooMuch(old(Tables()), key, epoch, plan, old(balance), now))
      ensures NothingOwed(debtQueue, old(debts), old(fundingDebts), epoch)
              && AllReturnable(old(Tables()), key, epoch, plan, old(balance), now) ==>
        && err == NoError && 0 < restored == old(debits[key].amount) && fundingDebts == old(fundingDebts)
        && RefundInverts(old(Tables()), Tables(), key)
        && balance == old(balance) + Sum(old(allocs), DrawnOnSubscription(key))
    {
      hide Core, AccountOk, Queued, Listed, NothingOwed, NoneLapsed, RefundProgress, ReturnedWhole, AllReturnable,
        NoneLater, UsageOk, Sum, CashOk, QueueSorted, RefundDone, RefundInverts, Repaid, TooMuch, DebtFree, MadeGood;
      ghost var x := Tables();
      CoreRows(x, map[], 0, 0);
      RestoredFits(x, key, |x.allocs|);
      AllLiveAtBoundary(now);
      restored, err := RefundRows(key, now);
      if err == NoError {
        assert x.orders == orders by { ProgressCash(x, Tables(), key, |x.allocs|); }
        ghost var t := Tables();
        CoreRows(t, map[], 0, 0);
        NoneLaterRepaid(x, old(AccountSide()), t, AccountSide(), Here(now), 0, x.debits[key].amount);
        err := CloseUsage(key, restored, x);
        MadeGoodClosed(x, t, Tables(), key, restored, epoch, plan, now);
        FirstLast(x, old(AccountSide()), t, Tables(), AccountSide(), Here(now), x.debits[key].amount);
        RefundIsDone(x, t, Tables(), key, restored);
        AllLiveAtBoundary(now);
      }
    }

    lemma HoldingsHere()
      requires Valid()
      ensures OwesOk(Tables(), AccountSide()) && forall o :: o in lots ==> 0 <= lots[o].remaining
    {
      OwesHere(map[], 0, 0);
      CoreLots(Tables(), map[], 0, 0);
    }

    lemma AllLiveAtBoundary(now: int)
      requires Ready(map[], 0, 0) && NoneLapsed(lots, now)
      ensures FundsAt(now) == Funds()
    {
      hide Core, AccountOk, Queued, Listed;
      CoreLots(Tables(), map[], 0, 0);
      AllLive(lotQueue, lots, now);
    }

    /** Closes a refunded debit; its amount bounds what it got back. */
    method CloseUsage(key: Key, restored: int, ghost x: Books) returns (err: Error)
      requires Ready(map[], 0, 0) && UsageOk(x) && RowsOk(x) && CashOk(x.orders) && QueueSorted(lotQueue, x.lots)
      requires key.Product? && key in x.debits && !x.debits[key].closed && 0 <= restored <= x.debits[key].amount
      requires RefundProgress(x, Tables(), key, |x.allocs|) && NoneLater(allocs, epoch)
      modifies this`debits
      ensures err == NoError && Valid() && Funds() == old(Funds())
      ensures Tables().(debits := debits[key := x.debits[key]]) == old(Tables())
      ensures key in old(debits) && old(debits[key]) == x.debits[key]
      ensures debits == old(debits)[key := x.debits[key].(restored := restored, closed := true)]
    {
      hide Core, AccountOk, Queued, Listed, NoneLater, UsageOk, CashOk, QueueSorted, RefundProgress, RowsOk, Sum;
      ghost var y := Tables();
      RestoredFits(x, key, |x.allocs|);
      ProgressTables(x, y, key, |x.allocs|);
      ProgressEnd(x, y, key, restored);
      SortedKept(lotQueue, x.lots, lots);
      CloseKeeps(y, key, restored);
      err := NoError;
      if debits[key].restored > MAX_ATOMS - restored {
        err := AmountOverflow;
      } else if debits[key].restored + restored > debits[key].amount {
        err := RestoredExceedsDebit;
      } else {
        debits := debits[key := debits[key].(restored := debits[key].restored + restored, closed := true)];
      }
    }

    // ---- charging ------------------------------------------------------------------------------

    /** One turn of the charge loop: takes `used` atoms from the next source. */
    method DrawFrom(key: Key, pool: seq<Fund>, i: nat, used: int, ghost x: Books, ghost remaining: int,
                    ghost amount: int)
      requires Core(Tables(), map[], 0, 0) && Listed(lotQueue, lots) && key.Product? && key in debits
      requires Drawing(x, Tables(), key, pool, i, remaining, amount) && i < |pool|
      requires PoolOk(pool, x.lots, balance, epoch)
      requires 0 < used == Min(remaining, pool[i].available)
      modifies this`lots, this`allocs
      ensures Core(Tables(), map[], 0, 0) && Listed(lotQueue, lots)
      ensures Drawing(x, Tables(), key, pool, i + 1, remaining - used, amount)
      ensures allocs == old(allocs) + [Alloc(key, pool[i].source, used, 0)]
      ensures Funds() == old(Funds()) + (if pool[i].source.Subscription? then used else 0)
    {
      hide Core, Drawing;
      ghost var y := Tables();
      FundUntouched(x, y, key, pool, i, remaining, amount, balance, epoch);
      var source := pool[i].source;
      SpendKeeps(y, 0, key, source, used);
      DrawingStep(x, y, key, pool, i, remaining, amount, used);
      SumAppend(allocs, Alloc(key, source, used, 0), Everything);
      if source.Pack? {
        LotSumUpdate(lotQueue, lots, source.lot, lots[source.lot].(remaining := lots[source.lot].remaining - used));
        if lots[source.lot].remaining >= used {
          lots := lots[source.lot := lots[source.lot].(remaining := lots[source.lot].remaining - used)];
        }
      }
      allocs := allocs + [Alloc(key, source, used, 0)];
      assert Tables() == Spend(y, key, source, used);
    }

    /** The charge loop: draws `amount` from the sources in order. */
    method DrawSources(key: Key, pool: seq<Fund>, amount: int) returns (subscriptionUsed: int, ghost last: int)
      requires Core(Tables(), map[], 0, 0) && Listed(lotQueue, lots) && key.Product? && key in debits
      requires Drawing(Tables(), Tables(), key, pool, 0, amount, amount) && PoolOk(pool, lots, balance, epoch)
      requires 0 < amount <= Available(pool) && 0 <= balance && Stocked(pool)
      modifies this`lots, this`allocs
      ensures Core(Tables(), map[], 0, 0) && Listed(lotQueue, lots)
      ensures Drawing(old(Tables()), Tables(), key, pool, last, 0, amount)
      ensures 0 <= subscriptionUsed <= balance && Funds() == old(Funds()) + subscriptionUsed
      ensures subscriptionUsed == Sum(allocs, DrawnOnSubscription(key)) - Sum(old(allocs), DrawnOnSubscription(key))
      ensures DrawnMore(old(allocs), allocs, Subscription(epoch), subscriptionUsed)
      ensures (forall j :: 0 <= j < |pool| ==> pool[j].source.Pack?) ==> subscriptionUsed == 0
    {
      hide Core, Drawing, Listed, PoolOk, Sum, LotSum, DrawnMore;
      NoneDrawn(allocs, Subscription(epoch));
      ghost var x := Tables();
      subscriptionUsed := 0;
      var remaining := amount;
      var i := 0;
      assert pool[0..] == pool;
      while i < |pool|
        invariant 0 <= i <= |pool| && 0 < remaining <= amount
        invariant Core(Tables(), map[], 0, 0) && Listed(lotQueue, lots)
        invariant Drawing(x, Tables(), key, pool, i, remaining, amount)
        invariant remaining <= Available(pool[i..])
        invariant 0 <= subscriptionUsed <= balance && Funds() == old(Funds()) + subscriptionUsed
        invariant subscriptionUsed == Sum(allocs, DrawnOnSubscription(key)) - Sum(x.allocs, DrawnOnSubscription(key))
        invariant DrawnMore(x.allocs, allocs, Subscription(epoch), subscriptionUsed)
        invariant subscriptionUsed > 0 ==> exists j :: 0 <= j < i && pool[j].source.Subscription?
      {
        FundUntouched(x, Tables(), key, pool, i, remaining, amount, balance, epoch);
        AvailableNext(pool, i);
        var used := Min(remaining, pool[i].available);
        if used > 0 {
          SumAppend(allocs, Alloc(key, pool[i].source, used, 0), DrawnOnSubscription(key));
          if pool[i].source.Pack? {
            DrawnMoreElse(x.allocs, allocs, Subscription(epoch), subscriptionUsed, Alloc(key, pool[i].source, used, 0));
          } else {
            DrawnMoreStep(x.allocs, allocs, Subscription(epoch), subscriptionUsed, Alloc(key, pool[i].source, used, 0));
          }
          DrawFrom(key, pool, i, used, x, remaining, amount);
          if pool[i].source.Subscription? {
            subscriptionUsed := subscriptionUsed + used;
          }
          remaining := remaining - used;
          if remaining == 0 { i := i + 1; break; }
        }
        i := i + 1;
      }
      last := i;
    }

    /** Spends `amount` under the operation's name, first-expiring funds first. */
    method Charge(name: string, amount: int, now: int) returns (outcome: ChargeOutcome, total: int, restored: int)
      requires Valid()
      modifies this`balance, this`lots, this`debits, this`allocs, this`log
      ensures Valid()
      // exactly when it is accepted, repeated or refused
      ensures outcome == Charged <==>
        && 0 < amount <= MAX_ATOMS && Product(name) !in old(debits)
        && amount <= SpendableTotal(lotQueue, old(lots), plan, old(balance), now)
      ensures outcome == Repeated <==>
        0 < amount <= MAX_ATOMS && Product(name) in old(debits) && old(debits[Product(name)].amount) == amount
      ensures outcome == Refused(InvalidAmount) <==> !(0 < amount <= MAX_ATOMS)
      ensures outcome == Refused(KeyConflict) <==>
        0 < amount <= MAX_ATOMS && Product(name) in old(debits) && old(debits[Product(name)].amount) != amount
      ensures 0 < amount <= MAX_ATOMS && Product(name) !in old(debits)
              && SpendableTotal(lotQueue, old(lots), plan, old(balance), now) < amount ==>
        && outcome.Refused?
        && Explains(outcome.why, plan, old(lots), SpendableTotal(lotQueue, old(lots), plan, old(balance), now), now)
      // a refusal leaves no trace, a repetition only projects expiry
      ensures outcome.Refused? ==> unchanged(this)
      ensures outcome == Repeated ==>
        && Tables() == old(Tables()).(lots := ExpireLapsed(old(lots), now)) && balance == old(balance)
        && log == old(log)
        && restored == old(debits[Product(name)].restored)
      // what a charge draws
      ensures outcome == Charged ==>
        && ChargeDrew(old(Tables()).(lots := ExpireLapsed(old(lots), now)), Tables(), Product(name),
                      SpendingOrder(lotQueue, old(lots), plan, old(balance), epoch, now), amount, epoch)
        && balance == old(balance) - Sum(allocs, DrawnOnSubscription(Product(name)))
        && log == old(log) + (if balance == old(balance) then []
                              else [LogRow(balance - old(balance), balance, UsageCharge)])
        && FundsAt(now) == old(FundsAt(now)) && restored == 0
      ensures Exposure(Tables(), AccountSide(), epoch) == old(Exposure(Tables(), AccountSide(), epoch))
      // the balance reported
      ensures !outcome.Refused? ==> total == SpendableTotal(lotQueue, lots, plan, balance, now)
      ensures outcome == Charged ==> total == SpendableTotal(lotQueue, old(lots), plan, old(balance), now) - amount
    {
      hide Valid, SpendingOrder, SpendableTotal, NoneLapsed, ChargeDrew, Explains, RefusalFor, ExpireLapsed;
      restored, total := 0, 0;
      if amount <= 0 || amount > MAX_ATOMS {
        return Refused(InvalidAmount), 0, 0;
      }
      var oldLots, oldDebits := lots, debits;
      var key := Product(name);
      var expired := ExpireAccountPackLots(now);
      ReportAfterExpiry(oldLots, now);
      if key in debits {
        if debits[key].amount != amount {
          lots := oldLots;
          return Refused(KeyConflict), 0, 0;
        }
        total := SpendableTotal(lotQueue, lots, plan, balance, now);
        return Repeated, total, debits[key].restored;
      }
      var available := SpendableTotal(lotQueue, lots, plan, balance, now);
      if available < amount {
        var why := RefusalFor(plan, lots, available, now);
        RefusalExplained(plan, oldLots, available, now);
        lots := oldLots;
        return Refused(why), 0, 0;
      }
      DrawAll(key, amount, now);
      total := available - amount;
      outcome := Charged;
    }

    lemma ReportAfterExpiry(before: map<OrderId, Lot>, now: int)
      requires lots == ExpireLapsed(before, now)
      ensures SpendableTotal(lotQueue, lots, plan, balance, now) == SpendableTotal(lotQueue, before, plan, balance, now)
      ensures SpendingOrder(lotQueue, lots, plan, balance, epoch, now)
        == SpendingOrder(lotQueue, before, plan, balance, epoch, now)
    {
      ExpiryIsUnobservable(lotQueue, before, now, now);
      OrderAfterExpiry(lotQueue, before, now);
    }

    /** An accepted charge, once expiry has been projected. */
    method DrawAll(key: Key, amount: int, now: int)
      requires Valid() && NoneLapsed(lots, now) && key.Product? && key !in debits
      requires 0 < amount <= MAX_ATOMS && amount <= SpendableTotal(lotQueue, lots, plan, balance, now)
      modifies this`balance, this`lots, this`debits, this`allocs, this`log
      ensures Valid()
      ensures
        && ChargeDrew(old(Tables()), Tables(), key, SpendingOrder(lotQueue, old(lots), plan, old(balance), epoch, now),
                      amount, epoch)
        && balance == old(balance) - Sum(allocs, DrawnOnSubscription(key))
        && log == old(log) + (if balance == old(balance) then []
                              else [LogRow(balance - old(balance), balance, UsageCharge)])
        && FundsAt(now) == old(FundsAt(now))
        && Exposure(Tables(), AccountSide(), epoch) == old(Exposure(Tables(), AccountSide(), epoch))
      ensures SpendableTotal(lotQueue, lots, plan, balance, now)
           == SpendableTotal(lotQueue, old(lots), plan, old(balance), now) - amount
    {
      hide Core, Queued, Listed, NoneLater, UsageOk, CashOk, QueueSorted, AccountOk, SpendingOrder, ChargeDrew,
        NoneLapsed;
      AllLiveAtBoundary(now);
      var subscriptionUsed := DrawTables(key, amount, now);
      if subscriptionUsed != 0 {
        PayFromBalance(subscriptionUsed, UsageCharge);
      }
      AllLiveAtBoundary(now);
    }

    method PayFromBalance(used: int, reason: Reason)
      requires AccountOk(balance, log, fundingDebts) && 0 <= used <= balance
      modifies this`balance, this`log
      ensures AccountOk(balance, log, fundingDebts)
      ensures balance == old(balance) - used && log == old(log) + [LogRow(-used, balance, reason)]
    {
      LogStep(log, balance, -used, reason);
      balance := balance - used;
      log := log + [LogRow(-used, balance, reason)];
    }

    /** The part of a charge that touches the debit, its allocations and the lots. */
    method DrawTables(key: Key, amount: int, now: int) returns (subscriptionUsed: int)
      requires Valid() && key.Product? && key !in debits
      requires 0 < amount <= MAX_ATOMS && amount <= SpendableTotal(lotQueue, lots, plan, balance, now)
      modifies this`lots, this`debits, this`allocs
      ensures Valid()
      ensures ChargeDrew(old(Tables()), Tables(), key, SpendingOrder(lotQueue, old(lots), plan, balance, epoch, now),
                         amount, epoch)
      ensures 0 <= subscriptionUsed == Sum(allocs, DrawnOnSubscription(key)) <= balance
      ensures LotSum(lotQueue, lots) == LotSum(lotQueue, old(lots)) - amount + subscriptionUsed
      ensures Sum(allocs, Everything) == Sum(old(allocs), Everything) + amount
      ensures Sum(allocs, OpenSince(epoch)) == Sum(old(allocs), OpenSince(epoch)) + subscriptionUsed
      ensures !SubscriptionSpendable(plan, now) ==> subscriptionUsed == 0
      ensures NoneLapsed(old(lots), now) ==> NoneLapsed(lots, now)
    {
      hide Core, AccountOk, Queued, Listed, NoneLater, UsageOk, CashOk, QueueSorted, PoolOk, Drawing, NoneLapsed,
        ChargeDrew, SpendingOrder, SpendableTotal, Stocked;
      ghost var b := Tables();
      CoreRows(b, map[], 0, 0);
      AccountBounds();
      var pool := SpendingOrder(lotQueue, lots, plan, balance, epoch, now);
      ChargeStarts(b, lotQueue, plan, balance, epoch, now, key, amount);
      debits := debits[key := Debit(amount, epoch, 0, false)];
      assert Tables() == OpenDebit(b, key, amount, epoch);
      ghost var last;
      subscriptionUsed, last := DrawSources(key, pool, amount);
      ChargeDone(b, Tables(), key, pool, last, amount, epoch);
      ChargeFrame(b, Tables(), key, pool, amount, epoch, lotQueue);
      NoneLaterDrawn(b.allocs, allocs, Subscription(epoch), subscriptionUsed, epoch);
    }

    lemma AccountBounds()
      requires AccountOk(balance, log, fundingDebts)
      ensures 0 <= balance <= MAX_ATOMS && FundingOk(fundingDebts)
    {}

    // ---- cash facts ------------------------------------------------------------------------------

    /** A checkout reserves an order; nothing is paid yet. */
    method RegisterOrder(o: OrderId, pack: int, price: int) returns (created: bool)
      requires Valid()
      modifies this`orders
      ensures Valid()
      ensures created <==> o !in old(orders) && 0 < pack <= MAX_ATOMS && 0 < price
      ensures orders == if created then old(orders)[o := Order(pack, price, 0, 0, Pending)] else old(orders)
    {
      hide Core, Queued, Listed, AccountOk, NoneLater, QueueSorted;
      created := o !in orders && 0 < pack <= MAX_ATOMS && 0 < price;
      if created {
        ghost var b := Tables();
        CashShareBounds(pack, 0, price);
        CashShareRoundsUp(0, pack, 0, price);
        NewOrderKeeps(b, o, Order(pack, price, 0, 0, Pending));
        orders := orders[o := Order(pack, price, 0, 0, Pending)];
        UsageFrame(b, Tables());
      }
    }

    /** A payment funds the order's lot once; fresh atoms first pay what the account owes. */
    method PaymentSucceeded(o: OrderId, lotId: nat, expiresAt: int, now: int)
      returns (outcome: FundingOutcome, collected: int)
      requires Valid()
      modifies this
      ensures Valid()
      ensures balance == old(balance) && epoch == old(epoch) && plan == old(plan) && log == old(log)
      ensures fundingDebts == old(fundingDebts) && debtQueue == old(debtQueue)
      ensures outcome == UnknownOrder <==> o !in old(orders)
      ensures outcome == UnknownOrder ==> unchanged(this)
      ensures outcome == AlreadyFunded <==> o in old(orders) && o in old(lots)
      ensures outcome != Funded ==> collected == 0
      ensures o in old(orders) ==> orders == old(orders)[o := AfterPayment(old(orders[o]))]
      ensures o in old(orders) ==>
        && o in orders
        && orders[o] == old(orders[o]).(status := if old(orders[o].status) == Pending then Paid
                                                  else old(orders[o].status))
      ensures outcome == AlreadyFunded ==>
        Tables() == old(Tables()).(orders := orders) && lotQueue == old(lotQueue)
      ensures outcome == Funded ==>
        && var lot := FundedLot(AfterPayment(old(orders[o])), lotId, expiresAt, now);
        && 0 <= lot.remaining && collected == Min(lot.remaining, UncollectedSum(debtQueue, old(debts)))
        && lots == old(lots)[o := lot.(remaining := lot.remaining - collected)]
        && PaidOldestFirst(debtQueue, old(debts), debts, collected)
        && Funds() == old(Funds()) + lot.remaining
        && Kept({}, old(Tables()).(orders := orders, lots := old(lots)[o := lot]), Tables())
        && o in lots && HoldsUnlost(lots[o], orders[o], lotId, expiresAt, now, collected)
        && Sum(allocs, OpenSince(epoch)) == old(Sum(allocs, OpenSince(epoch)))
        && (collected == 0 ==> debts == old(debts) && allocs == old(allocs) && debits == old(debits))
    {
      hide Valid, AfterPayment, FundedLot, PaidOldestFirst, Kept, HoldsUnlost, CashOk, OrderOk;
      collected := 0;
      if o !in orders {
        return UnknownOrder, 0;
      }
      PaymentFacts(o);
      if o in lots {
        RelabelPaid(o);
        return AlreadyFunded, 0;
      }
      collected := FundOrder(o, lotId, expiresAt, now);
      outcome := Funded;
    }

    /** The first payment of an order opens its lot. */
    method FundOrder(o: OrderId, lotId: nat, expiresAt: int, now: int) returns (collected: int)
      requires Valid() && o in orders && o !in lots
      modifies this
      ensures Valid()
      ensures balance == old(balance) && epoch == old(epoch) && plan == old(plan) && log == old(log)
      ensures fundingDebts == old(fundingDebts) && debtQueue == old(debtQueue)
      ensures orders == old(orders)[o := AfterPayment(old(orders[o]))]
      ensures
        && var lot := FundedLot(AfterPayment(old(orders[o])), lotId, expiresAt, now);
        && 0 <= lot.remaining && collected == Min(lot.remaining, UncollectedSum(debtQueue, old(debts)))
        && lots == old(lots)[o := lot.(remaining := lot.remaining - collected)]
        && PaidOldestFirst(debtQueue, old(debts), debts, collected)
        && Funds() == old(Funds()) + lot.remaining
        && Kept({}, old(Tables()).(orders := orders, lots := old(lots)[o := lot]), Tables())
        && o in lots && HoldsUnlost(lots[o], orders[o], lotId, expiresAt, now, collected)
        && Sum(allocs, OpenSince(epoch)) == old(Sum(allocs, OpenSince(epoch)))
        && (collected == 0 ==> debts == old(debts) && allocs == old(allocs) && debits == old(debits))
    {
      hide Valid, AfterPayment, FundedLot, PaidOldestFirst, Kept, HoldsUnlost, CashOk, OrderOk;
      ghost var facts := orders;
      PaymentFacts(o);
      var lot := OpenLot(o, lotId, expiresAt, now);
      collected := CollectFromNewLot(o, lot.remaining);
      FundedLotHolds(facts, o, AfterPayment(facts[o]), lotId, expiresAt, now, collected);
    }

    lemma PaymentFacts(o: OrderId)
      requires Valid() && o in orders
      ensures CashOk(orders) && OrderOk(AfterPayment(orders[o]))
      ensures AfterPayment(orders[o])
           == orders[o].(status := if orders[o].status == Pending then Paid else orders[o].status)
    {}

    method RelabelPaid(o: OrderId)
      requires Valid() && o in orders
      modifies this`orders
      ensures Valid() && orders == old(orders)[o := AfterPayment(old(orders[o]))]
    {
      hide Core, Queued, Listed, AccountOk, NoneLater, QueueSorted, CashOk, AfterPayment;
      ghost var b := Tables();
      PaymentLabel(b, o);
      orders := orders[o := AfterPayment(orders[o])];
      UsageFrame(b, Tables());
    }

    method OpenLot(o: OrderId, lotId: nat, expiresAt: int, now: int) returns (lot: Lot)
      requires Valid() && o in orders && o !in lots
      modifies this`orders, this`lots, this`lotQueue
      ensures Valid()
      ensures lot == FundedLot(AfterPayment(old(orders[o])), lotId, expiresAt, now)
      ensures orders == old(orders)[o := AfterPayment(old(orders[o]))] && lots == old(lots)[o := lot]
      ensures ActiveDebt(Tables(), o) == 0 && 0 <= lot.remaining
      ensures Funds() == old(Funds()) + lot.remaining
    {
      hide Core, Queued, Listed, AccountOk, NoneLater, QueueSorted, CashOk, AfterPayment;
      ghost var b := Tables();
      var order := AfterPayment(orders[o]);
      lot := FundedLot(order, lotId, expiresAt, now);
      FundKeeps(b, o, order, lotId, expiresAt, now);
      InsertLotListed(lotQueue, lots, o, lot);
      lotQueue := InsertLot(lotQueue, lots, o, lot);
      orders := orders[o := order];
      lots := lots[o := lot];
      UsageFrame(b, Tables());
      CoreLots(Tables(), map[], 0, 0);
    }

    method CollectFromNewLot(o: OrderId, available: int) returns (collected: int)
      requires Valid() && o in lots && 0 <= available <= lots[o].remaining && ActiveDebt(Tables(), o) == 0
      modifies this`debts, this`debits, this`allocs, this`lots
      ensures Valid() && Funds() == old(Funds())
      ensures 0 <= collected == Min(available, UncollectedSum(debtQueue, old(debts)))
      ensures lots == old(lots)[o := old(lots[o]).(remaining := old(lots[o].remaining) - collected)]
      ensures PaidOldestFirst(debtQueue, old(debts), debts, collected) && Kept({}, old(Tables()), Tables())
      ensures collected == 0 ==> Tables() == old(Tables())
      ensures Sum(allocs, OpenSince(epoch)) == old(Sum(allocs, OpenSince(epoch)))
    {
      hide Core, Kept, Queued, Listed, AccountOk, NoneLater, QueueSorted, CashOk, UsageOk, PaidOldestFirst;
      ghost var b := Tables();
      ghost var idle: Unwinding := map[];
      assert idle.Keys == {};
      CoreIdle(b, idle, 0, o);
      collected := CollectPackDebtsFromLot(o, available, idle, 0);
      CoreIdle(Tables(), idle, o, 0);
      NoneLaterDrawn(b.allocs, allocs, Pack(o), collected, epoch);
      KeptBoundary(b, Tables(), debtQueue, lotQueue);
    }

    /** A cash refund or dispute: takes the lost share of the pack back, first from what the lot
        holds, the rest as debt. */
    method Clawback(o: OrderId, dispute: bool, refunded: int, now: int) returns (outcome: ClaimOutcome)
      requires Valid()
      modifies this`orders, this`lots, this`debts, this`debtQueue
      ensures Valid() && outcome != OutOfRange
      ensures outcome != NotClaimed
        <==> o in old(orders) && 0 <= refunded <= old(orders[o].price) && (dispute || 0 < refunded)
      ensures outcome == NotClaimed ==> unchanged(this)
      ensures outcome == NotAdvanced ==> unchanged(this)
      ensures outcome == Advanced <==> orders != old(orders)
      ensures outcome != NotClaimed ==>
        && orders == old(orders)[o := OrderAfter(old(orders[o]), dispute, refunded)]
        && old(orders[o].refunded) <= orders[o].refunded
        && var delta := orders[o].refunded - old(orders[o].refunded);
        && Claimed(BeforeClaim(old(Tables()), o, delta, now), Tables(), o, delta, dispute)
      ensures outcome != NotClaimed ==> o in orders && ClaimCounted(old(orders[o]), orders[o], dispute, refunded)
      ensures debtQueue == old(debtQueue) + (if o in debts && o !in old(debts) then [o] else [])
    {
      hide Valid, Claimed, ExpiredLot, CashShare;
      outcome := NotClaimed;
      if o in orders && Claimable(orders[o], dispute, refunded) {
        OrdersAreOk(o);
        OrderAfterOk(orders, o, dispute, refunded);
        var order := orders[o];
        var cash := CashAfter(order, dispute, refunded);
        var atoms := if dispute || cash >= order.price then order.pack else CashShare(order.pack, cash, order.price);
        outcome := ApplyClaim(o, order.(cash := cash, refunded := atoms, status := LabelAfter(order, dispute, cash)),
                              dispute, now);
      }
    }

    lemma OrdersAreOk(o: OrderId)
      requires Valid() && o in orders
      ensures OrderOk(orders[o]) && CashOk(orders)
    {}

    lemma LotsAreOk(o: OrderId)
      requires Valid()
      ensures o in lots ==>
        && o in orders && 0 <= lots[o].remaining && 0 <= lots[o].expired
        && (if lots[o].status == Active then lots[o].expired == 0 else lots[o].remaining == 0)
        && (Untapped(Tables(), o) ==> lots[o].remaining + lots[o].expired == orders[o].pack - orders[o].refunded)
    {
      hide Queued, Listed, AccountOk, NoneLater, UsageOk, CashOk, QueueSorted;
      if o in lots { CoreAt(Tables(), map[], o, 0); }
    }

    lemma DebtsAreOk()
      requires Valid()
      ensures Queued(debtQueue, debts) && Bounded(allocs) && forall o :: o in debts ==> 0 <= Uncollected(debts[o])
    {
      CoreDebts(Tables(), map[], 0, 0);
      CoreRows(Tables(), map[], 0, 0);
      RowsBounded(Tables());
    }

    /** Brings the ledger up to the order's new cash facts `r`. */
    method ApplyClaim(o: OrderId, r: Order, dispute: bool, now: int) returns (outcome: ClaimOutcome)
      requires Valid() && o in orders && OrderOk(r) && CashOk(orders[o := r])
      requires r.pack == orders[o].pack && orders[o].refunded <= r.refunded && (dispute ==> r.refunded == r.pack)
      requires r == orders[o].(cash := r.cash, refunded := r.refunded, status := r.status) && orders[o].cash <= r.cash
      requires dispute <==> r.status == Disputed
      modifies this`orders, this`lots, this`debts, this`debtQueue
      ensures Valid() && (outcome == Advanced || outcome == NotAdvanced)
      ensures outcome == NotAdvanced ==> unchanged(this)
      ensures outcome == Advanced <==> orders != old(orders)
      ensures orders == old(orders)[o := r]
      ensures var delta := r.refunded - old(orders[o].refunded);
        Claimed(BeforeClaim(old(Tables()), o, delta, now), Tables(), o, delta, dispute)
      ensures debtQueue == old(debtQueue) + (if o in debts && o !in old(debts) then [o] else [])
    {
      hide Valid, Claimed;
      ghost var b := Tables();
      var order := orders[o];
      outcome := Advanced;
      if r.refunded <= order.refunded {
        if r.cash > order.cash || r.status != order.status {
          RecordClaim(o, r, dispute);
        } else {
          NothingClaimed(o, dispute);
          outcome := NotAdvanced;
        }
      } else if o in lots {
        if lots[o].status == Active && lots[o].expiresAt <= now {
          ExpireOne(o);
        }
        assert Tables() == BeforeClaim(b, o, r.refunded - order.refunded, now);
        outcome := TakeBack(o, r, dispute);
      } else {
        RecordEarlyClaim(o, r, dispute);
      }
    }

    lemma NothingClaimed(o: OrderId, dispute: bool)
      requires Valid() && o in orders && (dispute ==> orders[o].status == Disputed)
      ensures Claimed(Tables(), Tables(), o, 0, dispute)
    {
      hide Queued, Listed, AccountOk, NoneLater, UsageOk, CashOk, QueueSorted;
      if o in lots { assert LotOk(Tables(), o); }
    }

    /** New cash facts that take no further atoms; a dispute closes an empty lot. */
    method RecordClaim(o: OrderId, r: Order, dispute: bool)
      requires Valid() && o in orders && OrderOk(r) && CashOk(orders[o := r])
      requires r.pack == orders[o].pack && r.refunded == orders[o].refunded
      requires (dispute ==> r.refunded == r.pack) && (dispute <==> r.status == Disputed)
      modifies this`orders, this`lots
      ensures Valid() && orders == old(orders)[o := r] && Claimed(old(Tables()), Tables(), o, 0, dispute)
    {
      hide Core, Queued, AccountOk, NoneLater, CashOk, Claimed;
      ghost var b := Tables();
      RecordKeeps(b, o, r, dispute);
      orders := orders[o := r];
      if dispute && o in lots && lots[o].remaining == 0 {
        SortedKept(lotQueue, lots, lots[o := lots[o].(status := DisputeClosed)]);
        lots := lots[o := lots[o].(status := DisputeClosed)];
      }
      UsageFrame(b, Tables());
    }

    method ExpireOne(o: OrderId)
      requires Valid() && o in lots && lots[o].status == Active
      modifies this`lots
      ensures Valid() && Tables() == Expire(old(Tables()), o)
    {
      hide Core, Queued, Listed, AccountOk, NoneLater, QueueSorted, CashOk, UsageOk;
      ghost var b := Tables();
      ghost var idle: Unwinding := map[];
      assert idle.Keys == {};
      CoreIdle(b, idle, 0, o);
      ExpireKeeps(b, idle, o, 0);
      lots := lots[o := lots[o].(expired := lots[o].expired + lots[o].remaining, remaining := 0, status := Expired)];
      CoreIdle(Tables(), idle, o, 0);
      KeptBoundary(b, Tables(), debtQueue, lotQueue);
    }

    /** Takes the atoms a claim is worth. `r` is the order with its new cash facts. */
    method TakeBack(o: OrderId, r: Order, dispute: bool) returns (outcome: ClaimOutcome)
      requires Valid() && o in orders && o in lots && OrderOk(r) && CashOk(orders[o := r]) && r.pack == orders[o].pack
      requires orders[o].refunded < r.refunded && (dispute ==> r.refunded == r.pack)
      requires (dispute <==> r.status == Disputed)
      modifies this`orders, this`lots, this`debts, this`debtQueue
      ensures Valid() && outcome == Advanced && orders == old(orders)[o := r]
      ensures Claimed(old(Tables()), Tables(), o, r.refunded - old(orders[o].refunded), dispute)
      ensures debtQueue == old(debtQueue) + (if o in debts && o !in old(debts) then [o] else [])
    {
      hide Core, Queued, Listed, NoneLater, QueueSorted, AccountOk, CashOk, UsageOk, Claimed, ClaimedDebts, QueueAfter,
        OrderOk;
      ghost var b := Tables();
      var lot := lots[o];
      var delta := r.refunded - orders[o].refunded;
      CoreIdle(b, map[], 0, o);
      CoreAt(b, map[], o, 0);
      ClaimKeeps(b, o, r, dispute);
      hide LotOk, Settled, Balanced;
      var live := if lot.status == Active then Min(delta, lot.remaining) else 0;
      var lapsed := Min(delta - live, lot.expired);
      var removed := live + lapsed;
      var missing := delta - removed;
      assert removed == Taken(lot, delta);
      hide Taken;
      var taken := ClaimedLot(lot, delta, r.refunded == r.pack, dispute);
      ClaimIsTaken(lot, delta);
      hide ClaimedLot;
      ClaimQueues(b, o, taken, missing, debtQueue, lotQueue);
      outcome := OutOfRange;
      if lot.clawed <= MAX_ATOMS - removed && (missing > 0 && o in debts ==> debts[o].target <= MAX_ATOMS - missing) {
        lots := lots[o := taken];
        debtQueue := QueueAfter(debtQueue, debts, o, missing);
        debts := ClaimedDebts(debts, o, missing);
        orders := orders[o := r];
        UsageFrame(b, Tables());
        outcome := Advanced;
      }
    }

    /** A claim that arrives before the payment only lowers the later grant. */
    method RecordEarlyClaim(o: OrderId, r: Order, dispute: bool)
      requires Valid() && o in orders && o !in lots && OrderOk(r) && CashOk(orders[o := r])
      modifies this`orders
      ensures Valid() && orders == old(orders)[o := r]
      ensures Claimed(old(Tables()), Tables(), o, r.refunded - old(orders[o].refunded), dispute)
    {
      hide Core, Queued, Listed, AccountOk, NoneLater, QueueSorted, CashOk;
      ghost var b := Tables();
      CoreRows(b, map[], 0, 0);
      NoLotNoClaims(b, o);
      OrderFacts(b, o, r);
      orders := orders[o := r];
      UsageFrame(b, Tables());
    }

    // ---- subscription funding ------------------------------------------------------------------------

    /** A new grant epoch replaces the balance; the fresh atoms first pay pack debt. */
    method GrantEpoch(monthly: int, window: Window) returns (collected: int)
      requires Valid() && 0 <= monthly <= MAX_ATOMS
      modifies this`balance, this`epoch, this`plan, this`debts, this`debits, this`allocs, this`log
      ensures Valid() && epoch == old(epoch) + 1 && plan == old(plan).(window := window)
      ensures collected == Min(monthly, UncollectedSum(debtQueue, old(debts)))
      ensures balance == monthly - collected && PaidOldestFirst(debtQueue, old(debts), debts, collected)
      ensures collected == 0 ==> Tables() == old(Tables())
      ensures CollectionsLogged(old(log) + [LogRow(monthly - old(balance), monthly, SubscriptionGrant)], log,
                                |old(allocs)|, allocs)
      ensures DrawnMore(old(allocs), allocs, Subscription(epoch), collected)
      ensures Kept({}, old(Tables()), Tables())
      ensures Funds() == old(Funds()) + monthly - old(balance) && HasRoom()
    {
      hide Core, Kept, Queued, Listed, NoneLater, QueueSorted, CashOk, UsageOk, PaidOldestFirst, Telescopes, FundingOk,
        Sum, LotSum, FundingCollected, UncollectedSum, DrawnMore;
      ghost var b := Tables();
      ghost var idle: Unwinding := map[];
      assert idle.Keys == {};
      CoreDebts(b, idle, 0, 0);
      UncollectedSumBound(debtQueue, debts);
      CoreRows(b, idle, 0, 0);
      RowsBounded(b);
      NoneYet(allocs, epoch);
      LogStep(log, balance, monthly - balance, SubscriptionGrant);
      log := log + [LogRow(monthly - balance, monthly, SubscriptionGrant)];
      balance := monthly;
      epoch := epoch + 1;
      plan := plan.(window := window);
      collected := CollectPackDebtsFromSubscription(idle, 0, 0);
      NoneLaterDrawn(b.allocs, allocs, Subscription(epoch), collected, epoch);
      KeptBoundary(b, Tables(), debtQueue, lotQueue);
    }

    /** An upgrade paid for part of the period adds atoms to the current epoch; like all fresh
        atoms they first pay what the account owes. */
    method GrantUpgrade(delta: int, ghost asOf: int) returns (granted: bool)
      requires Valid() && 0 < delta
      modifies this`balance, this`debts, this`debits, this`allocs, this`log, this`fundingDebts
      ensures Valid() && (granted <==> old(balance) + delta <= MAX_ATOMS) && (!granted ==> unchanged(this))
      ensures granted ==>
        && old(log) + [LogRow(delta, old(balance) + delta, UpgradeGrant)] <= log
        && Repaid(old(Tables()), old(AccountSide()), Tables(), AccountSide(), Here(asOf).(live := true), delta, delta)
        && Kept({}, old(Tables()), Tables())
        && Funds() == old(Funds()) + delta
        && (UncollectedSum(debtQueue, old(debts)) == 0 ==> Tables() == old(Tables()))
        && (NothingOwed(debtQueue, old(debts), old(fundingDebts), epoch) ==>
              fundingDebts == old(fundingDebts) && balance == old(balance) + delta)
    {
      hide Core, Kept, Queued, Listed, AccountOk, NoneLater, QueueSorted, CashOk, UsageOk, PaidOldestFirst, FundingPaid,
        Repaid, NothingOwed;
      AccountBounds();
      granted := balance <= MAX_ATOMS - delta;
      if granted {
        ghost var b := Tables();
        ghost var idle: Unwinding := map[];
        assert idle.Keys == {};
        FundingNeverNegative(fundingDebts, epoch);
        ghost var first, second := CreditSubscription(delta, UpgradeGrant, Here(asOf).(live := true), idle, 0);
        CoreRows(Tables(), idle, 0, 0);
        NoneLaterRepaid(b, old(AccountSide()), Tables(), AccountSide(), Here(asOf).(live := true), delta, delta);
        KeptBoundary(b, Tables(), debtQueue, lotQueue);
      }
    }

    /** What the subscription projection decides about the account. */
    method SetPlan(newPlan: Plan)
      requires Valid()
      modifies this`plan
      ensures Valid() && plan == newPlan
    {
      plan := newPlan;
    }

    /** The subscription projection records what a refunded invoice of this epoch still owes. */
    method RecordFundingDebt(invoice: string, target: nat)
      requires Valid()
      modifies this`fundingDebts
      ensures Valid() && fundingDebts == old(fundingDebts) + [FundingDebt(epoch, invoice, target, 0)]
      ensures Funds() == old(Funds())
    {
      hide Core, Queued, Listed, NoneLater, QueueSorted, CashOk, UsageOk, Telescopes;
      fundingDebts := fundingDebts + [FundingDebt(epoch, invoice, target, 0)];
      assert fundingDebts[..|fundingDebts| - 1] == old(fundingDebts);
    }
  }
}
