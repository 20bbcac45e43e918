/** The monthly grants of an annual plan: which slot is due, and what granting it does. */
module AnnualGrants {
  import opened Basics
  import opened LedgerTables
  import opened DebtCollection
  import opened SubscriptionState
  import opened CreditLedger

  // ---- calendar -----------------------------------------------------------------------------

  /** A civil instant: months since year 0, day of the month from 1, second of the day. */
  datatype Instant = Instant(month: int, day: int, second: int)

  predicate LeapYear(year: int) { year % 4 == 0 && (year % 100 != 0 || year % 400 == 0) }

  function DaysIn(month: int): (n: int)
    ensures 28 <= n <= 31
  {
    var m := month % 12 + 1;
    if m == 2 then (if LeapYear(month / 12) then 29 else 28)
    else if m in {4, 6, 9, 11} then 30 else 31
  }

  /** Days from a fixed day to the first of a month, with years counted from March so that leap days come last. */
  function FirstDay(month: int): int {
    var year, m := (month - 2) / 12, (month - 2) % 12;
    365 * year + year / 4 - year / 100 + year / 400 + (153 * m + 2) / 5
  }

  lemma FirstDayOf(year: int, m: int)
    requires 0 <= m < 12
    ensures FirstDay(12 * year + m + 2) == 365 * year + year / 4 - year / 100 + year / 400 + (153 * m + 2) / 5
  {
    assert (12 * year + m) / 12 == year && (12 * year + m) % 12 == m;
  }

  lemma LeapDays(year: int)
    ensures (year + 1) / 4 - (year + 1) / 100 + (year + 1) / 400
         == year / 4 - year / 100 + year / 400 + (if LeapYear(year + 1) then 1 else 0)
  {
    assert (year + 1) / 4 == year / 4 + (if (year + 1) % 4 == 0 then 1 else 0);
    assert (year + 1) / 100 == year / 100 + (if (year + 1) % 100 == 0 then 1 else 0);
    assert (year + 1) / 400 == year / 400 + (if (year + 1) % 400 == 0 then 1 else 0);
    assert (year + 1) % 100 == 0 ==> (year + 1) % 4 == 0;
    assert (year + 1) % 400 == 0 ==> (year + 1) % 100 == 0;
  }

  lemma DaysOf(year: int, m: int)
    requires 0 <= m < 12
    ensures DaysIn(12 * year + m + 2)
         == if m == 11 then (if LeapYear(year + 1) then 29 else 28) else if m in {1, 3, 6, 8} then 30 else 31
  {
    var y, k := if m < 10 then year else year + 1, if m < 10 then m + 2 else m - 10;
    assert 12 * year + m + 2 == 12 * y + k;
    assert (12 * y + k) / 12 == y && (12 * y + k) % 12 == k;
  }

  /** Every month ends where the next one of the Gregorian calendar begins. */
  lemma MonthsTile(month: int)
    ensures FirstDay(month) + DaysIn(month) == FirstDay(month + 1)
  {
    hide FirstDay, DaysIn, LeapYear;
    var year, m := (month - 2) / 12, (month - 2) % 12;
    assert month == 12 * year + m + 2;
    FirstDayOf(year, m);
    DaysOf(year, m);
    if m < 11 {
      FirstDayOf(year, m + 1);
    } else {
      FirstDayOf(year + 1, 0);
      LeapDays(year);
      assert month + 1 == 12 * (year + 1) + 2;
    }
  }

  predicate InstantOk(t: Instant) { 1 <= t.day <= DaysIn(t.month) && 0 <= t.second < 86400 }

  /** Month addition, clamped to the end of the month. */
  function AddMonths(t: Instant, n: int): (r: Instant)
    requires InstantOk(t)
    ensures InstantOk(r)
  {
    t.(month := t.month + n, day := Min(t.day, DaysIn(t.month + n)))
  }

  /** It is `n` months later at the same time of the day, on the latest day of that month that is no later in
      its month. */
  lemma AddMonthsIsLatest(t: Instant, n: int, r: Instant)
    requires InstantOk(t)
    ensures r == AddMonths(t, n) <==>
      && r.month == t.month + n && r.second == t.second && InstantOk(r) && r.day <= t.day
      && forall d {:trigger r.(day := d)} :: r.day < d <= t.day ==> !InstantOk(r.(day := d))
  {
    if r.month == t.month + n && r.second == t.second && InstantOk(r) && r.day <= t.day
       && r.day < AddMonths(t, n).day
    {
      assert InstantOk(r.(day := AddMonths(t, n).day));
    }
  }

  /** An order-preserving clock reading. */
  function Clock(t: Instant): int { (t.month * 31 + t.day) * 86400 + t.second }

  predicate Earlier(x: Instant, y: Instant) {
    x.month < y.month || (x.month == y.month && (x.day < y.day || (x.day == y.day && x.second < y.second)))
  }

  lemma ClockOrders(x: Instant, y: Instant)
    requires InstantOk(x) && InstantOk(y)
    ensures Earlier(x, y) <==> Clock(x) < Clock(y)
  {}

  /** Later slots begin strictly later, even where days were clamped. */
  lemma SlotsIncrease(anchor: Instant, n: int, m: int)
    requires InstantOk(anchor) && n < m
    ensures Clock(AddMonths(anchor, n)) < Clock(AddMonths(anchor, m))
  {
    ClockOrders(AddMonths(anchor, n), AddMonths(anchor, m));
  }

  // ---- slots -----------------------------------------------------------------------------------

  /** How many of the slot boundaries 1..n have passed: the last one that has. */
  function Boundaries(anchor: Instant, now: Instant, n: nat): (b: nat)
    requires InstantOk(anchor)
    ensures b <= n
  {
    if n == 0 then 0
    else if Clock(AddMonths(anchor, n)) <= Clock(now) then n
    else Boundaries(anchor, now, n - 1)
  }

  /** Exactly the boundaries up to it have passed. */
  lemma {:induction false} BoundariesPassed(anchor: Instant, now: Instant, n: nat)
    requires InstantOk(anchor)
    ensures forall s :: 1 <= s <= n ==> (s <= Boundaries(anchor, now, n) <==> Clock(AddMonths(anchor, s)) <= Clock(now))
  {
    if n > 0 {
      BoundariesPassed(anchor, now, n - 1);
      if Clock(AddMonths(anchor, n)) <= Clock(now) {
        forall s | 1 <= s < n ensures Clock(AddMonths(anchor, s)) <= Clock(now) {
          SlotsIncrease(anchor, s, n);
        }
      }
    }
  }

  /** The slot the grant transaction aims for. */
  function TargetSlot(anchor: Instant, now: Instant, allowed: nat): nat
    requires InstantOk(anchor)
  {
    Min(Min(Boundaries(anchor, now, 12) + 1, allowed), 12)
  }

  /** It is the first slot whose end has not passed, or the last one that is funded. */
  lemma TargetIsCurrent(anchor: Instant, now: Instant, allowed: nat, slot: nat)
    requires InstantOk(anchor)
    ensures slot == TargetSlot(anchor, now, allowed) <==>
      && slot <= allowed && slot <= 12 && (slot == 0 ==> allowed == 0)
      && (forall s :: 1 <= s < slot ==> Clock(AddMonths(anchor, s)) <= Clock(now))
      && (slot < allowed && slot < 12 ==> Clock(now) < Clock(AddMonths(anchor, slot)))
  {
    BoundariesPassed(anchor, now, 12);
    var target := TargetSlot(anchor, now, allowed);
    hide Clock, AddMonths;
    assert 1 <= target <= 12 ==>
      (target <= Boundaries(anchor, now, 12) <==> Clock(AddMonths(anchor, target)) <= Clock(now));
    assert 1 <= slot <= 12 ==>
      (slot <= Boundaries(anchor, now, 12) <==> Clock(AddMonths(anchor, slot)) <= Clock(now));
  }

  /** The slot and time condition of the due query. */
  predicate DueSlot(anchor: Instant, now: Instant, issued: nat, allowed: nat)
    requires InstantOk(anchor)
  {
    issued < allowed && Clock(AddMonths(anchor, issued)) <= Clock(now)
  }

  /** Over all rows: the due query selects one exactly when the grant would pick a new slot, except before
      the anchor of an account that was never granted, a row no writer of the anchor stores. */
  lemma DueWhenPicked(anchor: Instant, now: Instant, issued: nat, allowed: nat)
    requires InstantOk(anchor) && issued <= 12 && allowed <= 12
    ensures DueSlot(anchor, now, issued, allowed) ==> TargetSlot(anchor, now, allowed) > issued
    ensures (DueSlot(anchor, now, issued, allowed) <==> TargetSlot(anchor, now, allowed) > issued)
       <==> !(issued == 0 && 0 < allowed && Clock(now) < Clock(anchor))
  {
    BoundariesPassed(anchor, now, 12);
    assert AddMonths(anchor, 0) == anchor;
  }

  /** The exception is real: an anchor one month ahead. */
  lemma EarlyGrantExample()
    ensures var anchor := Instant(24300, 15, 0);
      var now := Instant(24299, 15, 0);
      InstantOk(anchor) && !DueSlot(anchor, now, 0, 12) && TargetSlot(anchor, now, 12) == 1
  {
    var anchor := Instant(24300, 15, 0);
    var now := Instant(24299, 15, 0);
    BoundariesPassed(anchor, now, 12);
    SlotsIncrease(anchor, 0, 1);
    assert AddMonths(anchor, 0) == anchor;
  }

  /** An uncapped slot ends strictly in the future. */
  lemma UncappedSlotIsLive(anchor: Instant, now: Instant, allowed: nat)
    requires InstantOk(anchor) && InstantOk(now)
    requires TargetSlot(anchor, now, allowed) == Boundaries(anchor, now, 12) + 1
    ensures Clock(now) < Clock(AddMonths(anchor, TargetSlot(anchor, now, allowed)))
  {
    BoundariesPassed(anchor, now, 12);
  }

  lemma SlotIsAllowed(anchor: Instant, now: Instant, issued: nat, allowed: nat)
    requires InstantOk(anchor) && issued <= 12 && allowed <= 12
    ensures 0 <= TargetSlot(anchor, now, allowed) <= Min(allowed, 12)
    ensures DueSlot(anchor, now, issued, allowed) ==> TargetSlot(anchor, now, allowed) > issued
  {
    DueWhenPicked(anchor, now, issued, allowed);
  }

  // ---- granting ----------------------------------------------------------------------------------

  datatype Invoice = NoInvoice | Unknown | Known(fullyRefunded: bool, disputed: bool)

  datatype Outcome = Ignored | AlreadyGranted | InvoiceClosed | Granted(slot: nat)

  /** Slots are issued once each, in increasing order. */
  ghost predicate SlotsIssued(slots: seq<nat>, issued: nat) {
    && (forall i, j :: 0 <= i < j < |slots| ==> slots[i] < slots[j])
    && (forall i :: 0 <= i < |slots| ==> slots[i] <= issued)
  }

  lemma NextSlot(slots: seq<nat>, issued: nat, slot: nat)
    requires SlotsIssued(slots, issued) && issued < slot
    ensures SlotsIssued(slots + [slot], slot)
  {}

  lemma OneSlot()
    ensures SlotsIssued([1], 1)
  {}

  /** The annual side of one account. */
  class AnnualAccount {
    const ledger: Ledger
    var yearly: bool
    var periodEnd: Option<Instant>
    var anchor: Option<Instant>
    var invoice: Invoice
    var issued: nat
    var allowed: nat
    ghost var slots: seq<nat>        // slots granted so far, within the current term
    ghost var terms: seq<seq<nat>>   // slots granted in each term before

    ghost predicate Valid()
      reads this, ledger
    {
      && ledger.Valid() && issued <= 12 && allowed <= 12
      && (anchor.Some? ==> InstantOk(anchor.value)) && (periodEnd.Some? ==> InstantOk(periodEnd.value))
      // whoever stores an anchor grants the first slot with it
      && (anchor.Some? ==> 1 <= issued)
      && SlotsIssued(slots, issued) && forall i :: 0 <= i < |terms| ==> SlotsIssued(terms[i], 12)
    }

    constructor (ledger: Ledger)
      requires ledger.Valid()
      ensures Valid() && this.ledger == ledger && slots == [] && terms == []
      ensures !yearly && anchor == None && periodEnd == None && issued == 0 && allowed == 12 && invoice == NoInvoice
    {
      this.ledger := ledger;
      yearly, periodEnd, anchor := false, None, None;
      invoice, issued, allowed, slots, terms := NoInvoice, 0, 12, [], [];
    }

    predicate Eligible(now: Instant)
      reads this, ledger
    {
      ledger.plan.active && yearly && !ledger.plan.revoked && periodEnd.Some? && Clock(now) < Clock(periodEnd.value)
    }

    /** The worker's candidate query. */
    predicate Due(now: Instant)
      reads this, ledger
    {
      && Eligible(now) && anchor.Some? && InstantOk(anchor.value) && invoice != NoInvoice
      && DueSlot(anchor.value, now, issued, allowed)
    }

    /** The due query and the grant agree on every account that has an anchor. */
    lemma DueIsPicked(now: Instant)
      requires Valid() && InstantOk(now) && Eligible(now) && anchor.Some? && invoice != NoInvoice
      ensures Due(now) <==> TargetSlot(anchor.value, now, allowed) > issued
    {
      DueWhenPicked(anchor.value, now, issued, allowed);
    }

    /** The ledger began an epoch of `monthly` atoms spendable until `until`: the balance is set to them, less
        what pays pack debt, oldest first, and the log says how far that moved it. */
    twostate predicate FreshGrant(monthly: nat, until: int)
      reads ledger
    {
      && ledger.epoch == old(ledger.epoch) + 1 && ledger.plan.window == Until(until)
      && var paid := Min(monthly, UncollectedSum(ledger.debtQueue, old(ledger.debts)));
      && ledger.balance == monthly - paid && PaidOldestFirst(ledger.debtQueue, old(ledger.debts), ledger.debts, paid)
      && CollectionsLogged(old(ledger.log) + [LogRow(monthly - old(ledger.balance), monthly, SubscriptionGrant)],
                           ledger.log, |old(ledger.allocs)|, ledger.allocs)
      && ledger.Funds() == old(ledger.Funds()) + monthly - old(ledger.balance)
    }

    /** A paid annual invoice that funds a slot starts a term: it grants the first slot and stores the anchor. */
    method BeginTerm(start: Instant, end: Instant, funded: nat, monthly: nat) returns (begun: bool)
      requires Valid() && InstantOk(start) && InstantOk(end) && funded <= 12 && monthly <= MAX_ATOMS
      modifies this, ledger
      ensures Valid() && (begun <==> 1 <= funded) && (!begun ==> unchanged(this) && unchanged(ledger))
      ensures begun ==>
        && anchor == Some(start) && periodEnd == Some(end) && issued == 1 && allowed == funded
        && slots == [1] && terms == old(terms) + [old(slots)]
        && ledger.plan.active && !ledger.plan.revoked && yearly && invoice == Known(false, false)
        && FreshGrant(monthly, Min(Clock(end), Clock(AddMonths(start, 1))))
    {
      hide Ledger.Valid, InstantOk, Clock, AddMonths, FreshGrant, SlotsIssued;
      OneSlot();
      TermsAreOk();
      begun := 1 <= funded;
      if begun {
        Activate(monthly, Min(Clock(end), Clock(AddMonths(start, 1))));
        terms := terms + [slots];
        yearly, invoice := true, Known(false, false);
        anchor, periodEnd, issued, allowed, slots := Some(start), Some(end), 1, funded, [1];
      }
    }

    method Activate(monthly: nat, until: int)
      requires Valid() && monthly <= MAX_ATOMS
      modifies ledger
      ensures Valid() && FreshGrant(monthly, until) && ledger.plan.active && !ledger.plan.revoked
    {
      hide Ledger.Valid, InstantOk, PaidOldestFirst, Ledger.Tables, Ledger.HasRoom, SlotsIssued;
      var collected := ledger.GrantEpoch(monthly, Until(until));
      ledger.SetPlan(ledger.plan.(active := true, revoked := false));
    }

    /** Grants the current slot once; `matches` says that the remote subscription agrees with the
        local plan. Overlapping workers serialize on the account row. */
    method GrantDue(now: Instant, matches: bool, monthly: nat) returns (outcome: Outcome)
      requires Valid() && InstantOk(now) && monthly <= MAX_ATOMS
      modifies this`issued, this`allowed, this`slots, ledger
      ensures Valid()
      ensures outcome.Granted? <==>
        && old(Eligible(now)) && matches && invoice.Known? && !invoice.fullyRefunded && !invoice.disputed
        && old(issued) < (if anchor.Some? then TargetSlot(anchor.value, now, old(allowed)) else Min(1, old(allowed)))
      ensures outcome.Granted? ==>
        && old(issued) < outcome.slot == issued <= Min(old(allowed), 12) && allowed == old(allowed)
        && slots == old(slots) + [outcome.slot]
      // it is spendable until the slot or the paid period ends, and alive unless it was capped
      ensures outcome.Granted? ==>
        FreshGrant(monthly, if anchor.Some? then Min(Clock(periodEnd.value),
                                                     Clock(AddMonths(anchor.value, outcome.slot)))
                            else Clock(periodEnd.value))
      ensures outcome.Granted? && anchor.Some? ==>
        && (forall s :: 1 <= s < outcome.slot ==> Clock(AddMonths(anchor.value, s)) <= Clock(now))
        && (outcome.slot < Min(allowed, 12) ==> Clock(now) < Clock(AddMonths(anchor.value, outcome.slot)))
        && ledger.plan.window.Until?
        && (outcome.slot == Boundaries(anchor.value, now, 12) + 1 ==> Clock(now) < ledger.plan.window.time)
      ensures outcome == InvoiceClosed ==> allowed == old(issued) < old(allowed)
      ensures outcome != InvoiceClosed ==> allowed == old(allowed)
      ensures !outcome.Granted? ==> issued == old(issued) && slots == old(slots) && unchanged(ledger)
      // every account the query selects and the remote side confirms is granted, and then no longer selected
      ensures matches && invoice != Unknown ==> !Due(now)
      ensures old(Due(now)) && matches && invoice.Known? && !invoice.fullyRefunded && !invoice.disputed ==>
        outcome.Granted?
    {
      hide Ledger.Valid, Ledger.Funds, Ledger.Tables, SlotsIssued, InstantOk, Clock, AddMonths, Boundaries, TargetSlot,
        DueSlot, FreshGrant;
      if !ledger.plan.active || !yearly || ledger.plan.revoked { return Ignored; }
      if periodEnd.None? || Clock(periodEnd.value) <= Clock(now) { return Ignored; }
      if !matches { return Ignored; }
      var slot := if anchor.Some? then TargetSlot(anchor.value, now, allowed) else Min(1, allowed);
      if anchor.Some? {
        SlotIsAllowed(anchor.value, now, issued, allowed);
        TargetIsCurrent(anchor.value, now, allowed, slot);
      }
      if slot <= issued { return AlreadyGranted; }
      if !invoice.Known? { return Ignored; }
      if invoice.fullyRefunded || invoice.disputed {
        allowed := issued;
        if anchor.Some? { SlotIsAllowed(anchor.value, now, issued, allowed); }
        return InvoiceClosed;
      }
      var until := if anchor.Some? then Min(Clock(periodEnd.value), Clock(AddMonths(anchor.value, slot)))
        else Clock(periodEnd.value);
      if anchor.Some? && slot == Boundaries(anchor.value, now, 12) + 1 {
        UncappedSlotIsLive(anchor.value, now, allowed);
      }
      IssueSlot(slot, monthly, until);
      if anchor.Some? { SlotIsAllowed(anchor.value, now, issued, allowed); }
      outcome := Granted(slot);
    }

    /** Grants the slot in a new epoch and records it as issued. */
    method IssueSlot(slot: nat, monthly: nat, until: int)
      requires Valid() && monthly <= MAX_ATOMS && issued < slot <= 12
      modifies this`issued, this`slots, ledger
      ensures Valid() && issued == slot && slots == old(slots) + [slot]
      ensures FreshGrant(monthly, until) && ledger.plan.window == Until(until)
    {
      hide Ledger.Valid, Ledger.Tables, Ledger.HasRoom, SlotsIssued, InstantOk, PaidOldestFirst;
      var collected := ledger.GrantEpoch(monthly, Until(until));
      NextSlot(slots, issued, slot);
      issued := slot;
      slots := slots + [slot];
    }

    lemma TermsAreOk()
      requires Valid()
      ensures SlotsIssued(slots, 12) && forall i :: 0 <= i < |terms| ==> SlotsIssued(terms[i], 12)
    {
      hide Ledger.Valid, InstantOk;
    }

    /** A partial refund of the annual invoice funds fewer slots. */
    method Shrink(limit: nat)
      requires Valid()
      modifies this`allowed
      ensures Valid() && allowed == Min(old(allowed), limit)
    {
      allowed := Min(allowed, limit);
    }
  }

  datatype Term = Term(start: Instant, end: Instant, funded: nat, monthly: nat)

  /** A worker's attempt to grant; before it an invoice refund may fund fewer slots, or a new term begin. */
  datatype Attempt = Attempt(now: Instant, matches: bool, monthly: nat, refundTo: Option<nat>, begins: Option<Term>)

  predicate AttemptOk(a: Attempt) {
    && InstantOk(a.now) && a.monthly <= MAX_ATOMS
    && (a.begins.Some? ==>
          InstantOk(a.begins.value.start) && InstantOk(a.begins.value.end) && a.begins.value.funded <= 12
          && a.begins.value.monthly <= MAX_ATOMS)
  }

  /** Any number of overlapping workers, with refunds and new terms in between, at any clock readings:
      within every term slots strictly increase and none exceeds twelve; while no new term begins, none
      exceeds what was allowed. */
  method Work(account: AnnualAccount, attempts: seq<Attempt>)
    requires account.Valid() && forall i :: 0 <= i < |attempts| ==> AttemptOk(attempts[i])
    modifies account, account.ledger
    ensures account.Valid() && old(account.terms) <= account.terms
    ensures forall i :: 0 <= i < |account.terms| ==> SlotsIssued(account.terms[i], 12)
    ensures SlotsIssued(account.slots, 12)
    // once the last worker is done, nothing is due at its time
    ensures |attempts| > 0 && attempts[|attempts| - 1].matches && account.invoice != Unknown ==>
      !account.Due(attempts[|attempts| - 1].now)
    ensures (forall i :: 0 <= i < |attempts| ==> attempts[i].begins.None?) ==>
      && old(account.slots) <= account.slots && account.terms == old(account.terms)
      && forall i :: |old(account.slots)| <= i < |account.slots| ==>
           old(account.issued) < account.slots[i] <= Min(old(account.allowed), 12)
  {
    hide Ledger.Valid, AnnualAccount.Valid, SlotsIssued, AttemptOk, AnnualAccount.Due;
    var n := 0;
    while n < |attempts|
      invariant 0 <= n <= |attempts| && account.Valid() && old(account.terms) <= account.terms
      invariant n > 0 && attempts[n - 1].matches && account.invoice != Unknown ==> !account.Due(attempts[n - 1].now)
      invariant (forall i :: 0 <= i < n ==> attempts[i].begins.None?) ==>
        && account.terms == old(account.terms) && old(account.slots) <= account.slots
        && account.allowed <= old(account.allowed) && old(account.issued) <= account.issued
        && forall i :: |old(account.slots)| <= i < |account.slots| ==>
             old(account.issued) < account.slots[i] <= Min(old(account.allowed), 12)
    {
      Try(account, attempts[n]);
      n := n + 1;
    }
    account.TermsAreOk();
  }

  method Try(account: AnnualAccount, a: Attempt)
    requires account.Valid() && AttemptOk(a)
    modifies account, account.ledger
    ensures account.Valid() && old(account.terms) <= account.terms
    ensures a.matches && account.invoice != Unknown ==> !account.Due(a.now)
    ensures a.begins.None? && a.refundTo.Some? ==> account.allowed <= a.refundTo.value
    ensures a.begins.Some? && 1 <= a.begins.value.funded ==> account.anchor == Some(a.begins.value.start)
    ensures a.begins.None? ==>
      && account.terms == old(account.terms) && account.allowed <= old(account.allowed)
      && old(account.issued) <= account.issued
      && (account.slots == old(account.slots)
          || (account.slots == old(account.slots) + [account.issued]
              && old(account.issued) < account.issued <= Min(old(account.allowed), 12)))
  {
    hide Ledger.Valid, AnnualAccount.Valid, SlotsIssued, AnnualAccount.FreshGrant, Clock, AddMonths, TargetSlot,
      AnnualAccount.Due;
    if a.refundTo.Some? {
      account.Shrink(a.refundTo.value);
    }
    if a.begins.Some? {
      var begun := account.BeginTerm(a.begins.value.start, a.begins.value.end, a.begins.value.funded,
                                     a.begins.value.monthly);
    }
    var outcome := account.GrantDue(a.now, a.matches, a.monthly);
  }
}
