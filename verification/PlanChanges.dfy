/** Plan-change intents of one account: leases, a write-once remote request, and retries. Each store
    method is one transaction; remote calls happen between them, by any number of workers. */
module PlanChanges {
  import opened Basics

  type ChangeId = nat

  datatype Timing = Immediate | PeriodEnd

  /** A frozen remote request. Its idempotency key is built from the change and the timing. */
  datatype Request = Request(change: ChangeId, timing: Timing, body: string)

  datatype Status = Reserved | Previewed | Applying | Scheduled | Applied | RequiresAction | Completed | Failed

  datatype Lease = Lease(token: nat, until: int)

  datatype Change = Change(
    key: string,
    target: string,
    status: Status,
    timing: Timing,
    request: Option<Request>,
    startedAt: Option<int>,
    lease: Option<Lease>,
    previewUntil: int,
    pendingUntil: Option<int>,
    settlement: Option<string>)

  /** Statuses that keep the account from starting another change. */
  predicate Pending(s: Status) { s in {Reserved, Previewed, Applying, Scheduled, Applied, RequiresAction} }

  predicate Idle(c: Change, now: int) { c.lease.None? || c.lease.value.until <= now }

  predicate HoldsLease(c: Change, token: nat) { c.lease.Some? && c.lease.value.token == token }

  predicate ChangeOk(c: Change, id: ChangeId) {
    && (c.lease.Some? ==> c.status == Reserved || c.status == Applying)
    && (c.status == Reserved ==> c.request.None?)
    && (c.status in {Previewed, Applying, Scheduled, Applied, RequiresAction} ==> c.request.Some?)
    && (c.request.Some? ==> c.request.value.change == id && c.request.value.timing == c.timing)
    // a started intent never looks startable again
    && (c.startedAt.Some? ==> c.request.Some? && c.status != Reserved && c.status != Previewed)
    && (c.settlement.Some? ==> c.startedAt.Some?)
    && (c.status in {Scheduled, Applied, RequiresAction} ==> c.startedAt.Some?)
  }

  /** What no later step takes back. */
  predicate Grows(x: Change, y: Change) {
    && y.key == x.key && y.target == x.target
    && (x.request.Some? ==> y.request == x.request)
    && (x.startedAt.Some? ==> y.startedAt == x.startedAt)
    && (x.settlement.Some? ==> y.settlement == x.settlement)
    && (!Pending(x.status) ==> y.status == x.status)
  }

  ghost predicate StoreOk(changes: map<ChangeId, Change>, byKey: map<string, ChangeId>, next: ChangeId) {
    && (forall id :: id in changes ==> id < next && ChangeOk(changes[id], id))
    && (forall id :: id in changes ==> changes[id].key in byKey && byKey[changes[id].key] == id)
    && (forall k :: k in byKey ==> byKey[k] in changes && changes[byKey[k]].key == k)
    && (forall i, j :: i in changes && j in changes && Pending(changes[i].status) && Pending(changes[j].status) ==>
          i == j)
  }

  /** Tokens come from a counter. */
  ghost predicate LeasesOk(changes: map<ChangeId, Change>, nextToken: nat) {
    forall id :: id in changes && changes[id].lease.Some? ==> changes[id].lease.value.token < nextToken
  }

  /** Nobody holds a lease under this token. */
  ghost predicate Unheld(changes: map<ChangeId, Change>, token: nat) {
    forall id :: id in changes ==> !HoldsLease(changes[id], token)
  }

  /** The intent is leased to `token` alone. */
  ghost predicate HeldOnlyBy(c: Change, token: nat) { forall t :: HoldsLease(c, t) <==> t == token }

  lemma LeaseKept(changes: map<ChangeId, Change>, nextToken: nat, id: ChangeId, c: Change)
    requires LeasesOk(changes, nextToken) && (c.lease.Some? ==> c.lease.value.token < nextToken)
    ensures LeasesOk(changes[id := c], nextToken)
  {}

  lemma NewToken(changes: map<ChangeId, Change>, token: nat)
    requires LeasesOk(changes, token)
    ensures Unheld(changes, token) && LeasesOk(changes, token + 1)
  {}

  ghost predicate AllGrow(x: map<ChangeId, Change>, y: map<ChangeId, Change>) {
    forall id :: id in x ==> id in y && Grows(x[id], y[id])
  }

  lemma GrowTrans(x: map<ChangeId, Change>, y: map<ChangeId, Change>, z: map<ChangeId, Change>)
    requires AllGrow(x, y) && AllGrow(y, z)
    ensures AllGrow(x, z)
  {
    forall id | id in x ensures id in z && Grows(x[id], z[id]) {
      assert Grows(x[id], y[id]) && Grows(y[id], z[id]);
    }
  }

  lemma OneChange(changes: map<ChangeId, Change>, byKey: map<string, ChangeId>, next: ChangeId, id: ChangeId, c: Change)
    requires StoreOk(changes, byKey, next) && id in changes && ChangeOk(c, id) && Grows(changes[id], c)
    ensures StoreOk(changes[id := c], byKey, next) && AllGrow(changes, changes[id := c])
  {}

  lemma NewChange(changes: map<ChangeId, Change>, byKey: map<string, ChangeId>, next: ChangeId, c: Change)
    requires StoreOk(changes, byKey, next) && c.key !in byKey && ChangeOk(c, next)
    requires forall id :: id in changes ==> !Pending(changes[id].status)
    ensures next !in changes
    ensures StoreOk(changes[next := c], byKey[c.key := next], next + 1) && AllGrow(changes, changes[next := c])
  {}

  // ---- lazy expiry ------------------------------------------------------------------------------

  function Lapsed(c: Change, now: int): Change {
    if c.status == RequiresAction && c.pendingUntil.Some? && c.pendingUntil.value <= now then c.(status := Failed)
    else if c.status == Previewed && c.previewUntil <= now && Idle(c, now) then c.(status := Failed)
    else c
  }

  /** From `x` to `y` the intent failed exactly if it had run out: a preview whose time is up, which
      therefore can no longer be confirmed, or a remote action whose deadline has passed. */
  ghost predicate OverdueFails(x: Change, y: Change, now: int) {
    && y == x.(status := y.status)
    && if x.status == RequiresAction then
         y.status == if x.pendingUntil.Some? && x.pendingUntil.value <= now then Failed else RequiresAction
       else if x.status == Previewed then y.status == if now < x.previewUntil then Previewed else Failed
       else y.status == x.status
  }

  lemma LapsedIsOverdue(c: Change, id: ChangeId, now: int)
    requires ChangeOk(c, id)
    ensures OverdueFails(c, Lapsed(c, now), now)
    ensures Pending(c.status) <==> c.status != Completed && c.status != Failed
  {}

  ghost predicate OnlyOverdueFail(x: map<ChangeId, Change>, y: map<ChangeId, Change>, now: int) {
    forall id :: id in x ==> id in y && OverdueFails(x[id], y[id], now)
  }

  ghost predicate NoneOpen(x: map<ChangeId, Change>, y: map<ChangeId, Change>) {
    forall id :: id in x ==> id in y && y[id].status in {Completed, Failed}
  }

  lemma LapseAllIsOverdue(changes: map<ChangeId, Change>, byKey: map<string, ChangeId>, next: ChangeId, now: int)
    requires StoreOk(changes, byKey, next)
    ensures var after := LapseAll(changes, now);
      && OnlyOverdueFail(changes, after, now)
      && ((exists id :: id in after && Pending(after[id].status)) || NoneOpen(changes, after))
  {
    var after := LapseAll(changes, now);
    forall id | id in changes ensures OverdueFails(changes[id], after[id], now) {
      LapsedIsOverdue(changes[id], id, now);
    }
    if forall id :: id in after ==> !Pending(after[id].status) {
      forall id | id in changes ensures after[id].status in {Completed, Failed} {}
    }
  }

  lemma OpenOneMore(x: map<ChangeId, Change>, y: map<ChangeId, Change>, id: ChangeId, c: Change, now: int)
    requires OnlyOverdueFail(x, y, now) && NoneOpen(x, y) && id !in y
    ensures OnlyOverdueFail(x, y[id := c], now) && NoneOpen(x, y[id := c])
  {}

  function LapseAll(changes: map<ChangeId, Change>, now: int): map<ChangeId, Change> {
    map id | id in changes :: Lapsed(changes[id], now)
  }

  lemma LapseKeeps(changes: map<ChangeId, Change>, byKey: map<string, ChangeId>, next: ChangeId, now: int)
    requires StoreOk(changes, byKey, next)
    ensures StoreOk(LapseAll(changes, now), byKey, next) && AllGrow(changes, LapseAll(changes, now))
  {
    var after := LapseAll(changes, now);
    forall id | id in after ensures ChangeOk(after[id], id) && Grows(changes[id], after[id]) {
      assert ChangeOk(changes[id], id);
    }
    forall i, j | i in after && j in after && Pending(after[i].status) && Pending(after[j].status) ensures i == j {
      assert Pending(changes[i].status) && Pending(changes[j].status);
    }
  }

  lemma LapseAt(changes: map<ChangeId, Change>, byKey: map<string, ChangeId>, key: string, now: int)
    requires key in byKey ==> byKey[key] in changes
    ensures key in byKey ==>
      byKey[key] in LapseAll(changes, now) && LapseAll(changes, now)[byKey[key]].target == changes[byKey[key]].target
    ensures LapseAll(changes, now).Keys == changes.Keys
  {}

  lemma LapsePending(changes: map<ChangeId, Change>, now: int)
    ensures (exists id :: id in LapseAll(changes, now) && Pending(LapseAll(changes, now)[id].status))
       <==> (exists id :: id in changes && Pending(Lapsed(changes[id], now).status))
  {
    forall id | id in changes ensures LapseAll(changes, now)[id] == Lapsed(changes[id], now) {}
  }

  // ---- the store -----------------------------------------------------------------------------------

  datatype Reservation = Reservation(change: ChangeId, replayed: bool) | Conflict | Unavailable | Busy

  /** Whether the account may change plans: `Barred` says no before a pending intent is looked for (no
      active subscription, a pending cancellation, an unknown period), `Unfunded` after (no funded
      period or invoice, no positive delta). */
  datatype Standing = Eligible | Barred | Unfunded

  class ChangeStore {
    var changes: map<ChangeId, Change>
    var byKey: map<string, ChangeId>
    var next: ChangeId
    var nextToken: nat

    ghost predicate Valid()
      reads this
    {
      StoreOk(changes, byKey, next) && LeasesOk(changes, nextToken)
    }

    constructor ()
      ensures Valid() && changes == map[]
    {
      changes, byKey, next, nextToken := map[], map[], 0, 0;
    }

    method Write(id: ChangeId, c: Change)
      requires Valid() && id in changes && ChangeOk(c, id) && Grows(changes[id], c)
      requires c.lease.Some? ==> c.lease.value.token < nextToken
      modifies this`changes
      ensures Valid() && changes == old(changes)[id := c] && AllGrow(old(changes), changes)
    {
      OneChange(changes, byKey, next, id, c);
      hide StoreOk, AllGrow;
      changes := changes[id := c];
    }

    lemma RowOk(id: ChangeId)
      requires Valid() && id in changes
      ensures ChangeOk(changes[id], id)
    {}

    /** One idempotency key is one intent with one target; an account has one pending intent. A refusal
        rolls everything back, the lapsed previews included. */
    method Reserve(key: string, target: string, standing: Standing, noop: bool, timing: Timing, now: int)
      returns (r: Reservation)
      requires Valid()
      modifies this`changes, this`byKey, this`next
      ensures Valid() && AllGrow(old(changes), changes)
      ensures r.Reservation? && r.replayed <==> key in old(byKey) && old(changes[byKey[key]]).target == target
      ensures r.Reservation? && r.replayed ==> r.change == old(byKey[key])
      ensures r == Conflict <==> key in old(byKey) && old(changes[byKey[key]]).target != target
      ensures r == Busy <==>
        && key !in old(byKey) && standing != Barred
        && exists id :: id in old(changes) && Pending(Lapsed(old(changes)[id], now).status)
      ensures r == Unavailable <==> r != Busy && key !in old(byKey) && standing != Eligible
      ensures r.Reservation? && !r.replayed ==>
        && r.change !in old(changes) && byKey == old(byKey)[key := r.change]
        && changes == LapseAll(old(changes), now)[r.change :=
             Change(key, target, if noop then Completed else Reserved, timing, None, None, None, 0, None, None)]
      ensures r.Reservation? && r.replayed ==> changes == LapseAll(old(changes), now) && byKey == old(byKey)
      ensures !r.Reservation? ==> unchanged(this)
      // what is failed has run out, and a new intent finds no other open
      ensures r.Reservation? ==>
        OnlyOverdueFail(old(changes), changes, now) && (!r.replayed ==> NoneOpen(old(changes), changes))
    {
      hide StoreOk, LapseAll, AllGrow, Pending, OnlyOverdueFail, NoneOpen;
      LapseAllIsOverdue(changes, byKey, next, now);
      var found := changes;
      AllSame(changes);
      ghost var before := changes;
      KeyAt(key);
      LapseAt(changes, byKey, key, now);
      LapsePending(changes, now);
      LapseExpired(now);
      ghost var lapsed := changes;
      if key in byKey {
        var id := byKey[key];
        r := if changes[id].target == target then Reservation(id, true) else Conflict;
      } else if standing == Barred {
        r := Unavailable;
      } else if exists id :: id in changes && Pending(changes[id].status) {
        r := Busy;
      } else if standing == Unfunded {
        r := Unavailable;
      } else {
        var id := Insert(Change(key, target, if noop then Completed
                                else Reserved, timing, None, None, None, 0, None, None));
        GrowTrans(before, lapsed, changes);
        OpenOneMore(before, lapsed, id, changes[id], now);
        r := Reservation(id, false);
      }
      if !r.Reservation? { changes := found; }
    }

    method LapseExpired(now: int)
      requires Valid()
      modifies this`changes
      ensures Valid() && changes == LapseAll(old(changes), now) && AllGrow(old(changes), changes)
    {
      LapseKeeps(changes, byKey, next, now);
      hide StoreOk;
      changes := LapseAll(changes, now);
    }

    method Insert(c: Change) returns (id: ChangeId)
      requires Valid() && c.key !in byKey && c.request.None? && c.startedAt.None? && c.lease.None? && c.settlement.None?
      requires c.status == Reserved || c.status == Completed
      requires !exists q :: q in changes && Pending(changes[q].status)
      modifies this`changes, this`byKey, this`next
      ensures Valid() && AllGrow(old(changes), changes) && id !in old(changes)
      ensures changes == old(changes)[id := c] && byKey == old(byKey)[c.key := id]
    {
      hide StoreOk, LeasesOk, AllGrow, Pending;
      NewChange(changes, byKey, next, c);
      LeaseKept(changes, nextToken, next, c);
      id := next;
      next := next + 1;
      changes := changes[id := c];
      byKey := byKey[c.key := id];
    }

    lemma KeyAt(key: string)
      requires Valid()
      ensures key in byKey ==> byKey[key] in changes
    {}

    method AcquireLease(id: ChangeId, until: int, now: int) returns (token: Option<nat>)
      requires Valid()
      modifies this`changes, this`nextToken
      ensures Valid() && AllGrow(old(changes), changes)
      ensures token.Some? <==>
        && id in old(changes) && old(changes[id]).status == Reserved
        && (old(changes[id]).lease.None? || old(changes[id]).lease.value.until <= now)
      ensures token.Some? ==>
        token.value == old(nextToken) < nextToken
          && changes == old(changes)[id := old(changes[id]).(lease := Some(Lease(token.value, until)))]
          && Unheld(old(changes), token.value) && HeldOnlyBy(changes[id], token.value)
      ensures token.None? ==> changes == old(changes) && nextToken == old(nextToken)
    {
      hide StoreOk;
      token := None;
      AllSame(changes);
      if id in changes && changes[id].status == Reserved && Idle(changes[id], now) {
        RowOk(id);
        token := Some(nextToken);
        NewToken(changes, nextToken);
        nextToken := nextToken + 1;
        Write(id, changes[id].(lease := Some(Lease(token.value, until))));
      }
    }

    /** Freezes the remote request together with the preview; only the leaseholder can, and only once. */
    method StorePreview(id: ChangeId, token: nat, timing: Timing, body: string, now: int) returns (stored: bool)
      requires Valid()
      modifies this`changes
      ensures Valid() && AllGrow(old(changes), changes)
      ensures stored <==>
        && id in old(changes) && HoldsLease(old(changes[id]), token)
        && old(changes[id]).startedAt.None? && old(changes[id]).request.None?
      ensures stored ==> old(changes[id]).status == Reserved && changes == old(changes)[id :=
        old(changes[id]).(status := Previewed, timing := timing, request := Some(Request(id, timing, body)),
                          previewUntil := now + 600, lease := None)]
      ensures !stored ==> changes == old(changes)
    {
      hide StoreOk;
      AllSame(changes);
      stored := id in changes && HoldsLease(changes[id], token) && changes[id].startedAt.None?
        && changes[id].request.None?;
      if stored {
        RowOk(id);
        Write(id, changes[id].(status := Previewed, timing := timing, request := Some(Request(id, timing, body)),
                               previewUntil := now + 600, lease := None));
      }
    }

    method RetireUnfrozen(id: ChangeId, token: nat)
      requires Valid()
      modifies this`changes
      ensures Valid() && AllGrow(old(changes), changes)
      ensures changes == if id in old(changes) && HoldsLease(old(changes[id]), token) && old(changes[id]).request.None?
                         then old(changes)[id := old(changes[id]).(status := Failed, lease := None)] else old(changes)
    {
      hide StoreOk;
      AllSame(changes);
      if id in changes && HoldsLease(changes[id], token) && changes[id].request.None? {
        RowOk(id);
        Write(id, changes[id].(status := Failed, lease := None));
      }
    }

    /** Starts or takes over a confirmation. */
    method AcquireConfirmation(id: ChangeId, until: int, now: int) returns (token: Option<nat>)
      requires Valid()
      modifies this`changes, this`nextToken
      ensures Valid() && AllGrow(old(changes), changes)
      ensures token.Some? <==>
        && id in old(changes) && (old(changes[id]).lease.None? || old(changes[id]).lease.value.until <= now)
        && (old(changes[id]).status == Applying || (old(changes[id]).status == Previewed
                                                    && now < old(changes[id]).previewUntil))
      ensures token.Some? ==>
        && token.value == old(nextToken) < nextToken && old(changes[id]).request.Some?
        && changes == old(changes)[id := old(changes[id]).(status := Applying,
                                                           lease := Some(Lease(token.value, until)))]
        && Unheld(old(changes), token.value) && HeldOnlyBy(changes[id], token.value)
      ensures token.None? ==> changes == old(changes) && nextToken == old(nextToken)
    {
      hide StoreOk;
      token := None;
      AllSame(changes);
      if id in changes && Idle(changes[id], now)
         && (changes[id].status == Applying || (changes[id].status == Previewed && now < changes[id].previewUntil)) {
        RowOk(id);
        token := Some(nextToken);
        NewToken(changes, nextToken);
        nextToken := nextToken + 1;
        Write(id, changes[id].(status := Applying, lease := Some(Lease(token.value, until))));
      }
    }

    method ExpireIfIdle(id: ChangeId, now: int) returns (expired: bool)
      requires Valid()
      modifies this`changes
      ensures Valid() && AllGrow(old(changes), changes)
      ensures expired <==>
        id in old(changes) && old(changes[id]).status == Previewed && old(changes[id]).previewUntil <= now
          && Idle(old(changes[id]), now)
      ensures changes == if expired then old(changes)[id := old(changes[id]).(status := Failed, lease := None)]
        else old(changes)
    {
      hide StoreOk;
      AllSame(changes);
      expired := id in changes && changes[id].status == Previewed && changes[id].previewUntil <= now
        && Idle(changes[id], now);
      if expired {
        RowOk(id);
        Write(id, changes[id].(status := Failed, lease := None));
      }
    }

    /** Durably marks that the remote mutation may have happened. */
    method MarkStarted(id: ChangeId, token: nat, now: int) returns (marked: bool)
      requires Valid()
      modifies this`changes
      ensures Valid() && AllGrow(old(changes), changes)
      ensures marked <==>
        id in old(changes) && old(changes[id]).status == Applying && HoldsLease(old(changes[id]), token)
      ensures marked ==> id in changes && changes[id].startedAt.Some? && changes[id].request.Some?
      ensures changes == if marked then old(changes)[id := old(changes[id]).(startedAt :=
                           if old(changes[id]).startedAt.Some? then old(changes[id]).startedAt else Some(now))]
                             else old(changes)
    {
      hide StoreOk;
      AllSame(changes);
      marked := id in changes && changes[id].status == Applying && HoldsLease(changes[id], token);
      if marked {
        RowOk(id);
        Write(id, changes[id].(startedAt := if changes[id].startedAt.Some? then changes[id].startedAt else Some(now)));
      }
    }

    /** Records the remote outcome; a settlement invoice, once known, is never replaced. */
    method Finish(id: ChangeId, token: nat, status: Status, pendingUntil: Option<int>, settlement: Option<string>)
      returns (finished: bool)
      requires Valid() && status in {Scheduled, Applied, RequiresAction}
      requires id in changes && HoldsLease(changes[id], token) ==> changes[id].startedAt.Some?
      modifies this`changes
      ensures Valid() && AllGrow(old(changes), changes)
      ensures finished <==>
        && id in old(changes) && HoldsLease(old(changes[id]), token)
        && (settlement.None? || old(changes[id]).settlement.None? || old(changes[id]).settlement == settlement)
      ensures changes == if finished then old(changes)[id := old(changes[id]).(status := status,
          pendingUntil := pendingUntil, lease := None,
                           settlement := if old(changes[id]).settlement.Some? then old(changes[id]).settlement
                             else settlement)] else old(changes)
    {
      hide StoreOk;
      AllSame(changes);
      finished := id in changes && HoldsLease(changes[id], token)
                  && (settlement.None? || changes[id].settlement.None? || changes[id].settlement == settlement);
      if finished {
        var c := changes[id];
        RowOk(id);
        Write(id, c.(status := if c.status == Completed then c.status
                     else status, pendingUntil := pendingUntil, lease := None,
                     settlement := if c.settlement.Some? then c.settlement else settlement));
      }
    }

    /** After an error a confirmation that never started becomes a preview again; a started one stays. */
    method ReleaseAfterError(id: ChangeId, token: nat)
      requires Valid()
      modifies this`changes
      ensures Valid() && AllGrow(old(changes), changes)
      ensures changes == if id in old(changes) && HoldsLease(old(changes[id]), token)
                         then old(changes)[id := old(changes[id]).(lease := None, status :=
                                if old(changes[id]).status == Applying
                                  && old(changes[id]).startedAt.None? then Previewed else old(changes[id]).status)]
                         else old(changes)
    {
      hide StoreOk;
      AllSame(changes);
      if id in changes && HoldsLease(changes[id], token) {
        var c := changes[id];
        RowOk(id);
        Write(id, c.(lease := None, status := if c.status == Applying && c.startedAt.None? then Previewed
                     else c.status));
      }
    }
  }

  lemma AllSame(x: map<ChangeId, Change>)
    ensures AllGrow(x, x)
  {}

  // ---- workers ------------------------------------------------------------------------------------

  /** A coordinator call in progress: previewing under a lease, confirming a frozen request, past the
      durable start mark, or holding the remote reply. */
  datatype Worker =
    | Preparing(change: ChangeId, token: nat)
    | Confirming(change: ChangeId, token: nat, request: Request)
    | Started(change: ChangeId, token: nat, request: Request)
    | Called(change: ChangeId, token: nat, request: Request)

  datatype Call = Call(change: ChangeId, request: Request)

  predicate WorkerOk(w: Worker, changes: map<ChangeId, Change>) {
    && w.change in changes
    && (!w.Preparing? ==> changes[w.change].request == Some(w.request))
    && (w.Started? || w.Called? ==> changes[w.change].startedAt.Some?)
  }

  /** Every remote mutation carried the frozen request of its change, after its start mark. */
  predicate CallOk(c: Call, changes: map<ChangeId, Change>) {
    && c.change in changes && changes[c.change].request == Some(c.request) && changes[c.change].startedAt.Some?
    && c.request.change == c.change
  }

  ghost predicate CallsOk(workers: seq<Worker>, calls: seq<Call>, changes: map<ChangeId, Change>) {
    && (forall i :: 0 <= i < |workers| ==> WorkerOk(workers[i], changes))
    && (forall i :: 0 <= i < |calls| ==> CallOk(calls[i], changes))
  }

  lemma CallsGrow(workers: seq<Worker>, calls: seq<Call>, x: map<ChangeId, Change>, y: map<ChangeId, Change>)
    requires CallsOk(workers, calls, x) && AllGrow(x, y)
    ensures CallsOk(workers, calls, y)
  {
    forall i | 0 <= i < |workers| ensures WorkerOk(workers[i], y) { assert WorkerOk(workers[i], x); }
    forall i | 0 <= i < |calls| ensures CallOk(calls[i], y) { assert CallOk(calls[i], x); }
  }

  /** All calls for one change are the same request; different changes never share one. */
  lemma CallsAgree(workers: seq<Worker>, calls: seq<Call>, changes: map<ChangeId, Change>)
    requires CallsOk(workers, calls, changes)
    ensures forall i, j :: 0 <= i < |calls| && 0 <= j < |calls| ==>
      (calls[i].change == calls[j].change <==> calls[i].request == calls[j].request)
  {
    forall i | 0 <= i < |calls| ensures CallOk(calls[i], changes) {}
  }

  /** No two workers share a token. */
  ghost predicate OneTokenEach(workers: seq<Worker>, nextToken: nat) {
    && (forall i :: 0 <= i < |workers| ==> workers[i].token < nextToken)
    && (forall i, j :: 0 <= i < j < |workers| ==> workers[i].token != workers[j].token)
  }

  /** The worker may still take a step that its lease guards. */
  predicate MayAct(w: Worker, changes: map<ChangeId, Change>) {
    w.change in changes && HoldsLease(changes[w.change], w.token)
  }

  /** Any number of workers may have been started for an intent, but at most one may act on it. */
  lemma OneActs(workers: seq<Worker>, changes: map<ChangeId, Change>, nextToken: nat)
    requires OneTokenEach(workers, nextToken)
    ensures forall i, j :: 0 <= i < j < |workers| && workers[i].change == workers[j].change ==>
      !(MayAct(workers[i], changes) && MayAct(workers[j], changes))
  {}

  /** What one action does to the workers `x`, given the intents before (`c`) and after it (`d`): a lease that was
      taken gets its worker, a start mark moves its worker on, and a call is made by a started worker, once. */
  ghost predicate WorkersMove(x: seq<Worker>, y: seq<Worker>, c: map<ChangeId, Change>, d: map<ChangeId, Change>,
                              action: Action) {
    match action
    case DoLease(id, _) =>
      if d == c then y == x
      else id in d && d[id].lease.Some? && y == x + [Preparing(id, d[id].lease.value.token)]
    case DoConfirm(id, _) =>
      if d == c then y == x
      else
        && id in d && d[id].lease.Some? && d[id].request.Some?
        && y == x + [Confirming(id, d[id].lease.value.token, d[id].request.value)]
    case DoStart(i) =>
      if i < |x| && x[i].Confirming? && MayAct(x[i], c) && c[x[i].change].status == Applying
      then y == x[i := Started(x[i].change, x[i].token, x[i].request)] else y == x
    case DoCall(i) =>
      if i < |x| && x[i].Started? then y == x[i := Called(x[i].change, x[i].token, x[i].request)] else y == x
    case _ => y == x
  }

  /** What the action of worker `w` does to the intents: only a worker that may act moves one, its own. */
  ghost predicate IntentMoves(w: Worker, c: map<ChangeId, Change>, d: map<ChangeId, Change>, action: Action) {
    match action
    case DoPreview(_, timing, body) =>
      if w.Preparing? && MayAct(w, c) && c[w.change].request.None?
      then
        && w.change in d && d[w.change].status == Previewed && d[w.change].lease.None?
        && d[w.change].request == Some(Request(w.change, timing, body))
      else d == c
    case DoRetire(_) =>
      if w.Preparing? && MayAct(w, c) && c[w.change].request.None?
      then d == c[w.change := c[w.change].(status := Failed, lease := None)] else d == c
    case DoFinish(_, status, _, settlement) =>
      if w.Called? && status in {Scheduled, Applied, RequiresAction} && MayAct(w, c)
         && (settlement.None? || c[w.change].settlement in {None, settlement})
      then w.change in d && d[w.change].status == status && d[w.change].lease.None? else d == c
    case DoRelease(_) => if MayAct(w, c) then w.change in d && d[w.change].lease.None? else d == c
    case _ => true
  }

  /** The calls an action makes. */
  function CallsOf(x: seq<Worker>, action: Action): seq<Call> {
    if action.DoCall? && action.worker < |x| && x[action.worker].Started?
    then [Call(x[action.worker].change, x[action.worker].request)] else []
  }

  datatype Action =
    | DoReserve(key: string, target: string, standing: Standing, noop: bool, timing: Timing)
    | DoLease(change: ChangeId, until: int)
    | DoPreview(worker: nat, previewTiming: Timing, body: string)
    | DoRetire(worker: nat)
    | DoConfirm(change: ChangeId, until: int)
    | DoExpire(change: ChangeId)
    | DoStart(worker: nat)
    | DoCall(worker: nat)
    | DoFinish(worker: nat, status: Status, pendingUntil: Option<int>, settlement: Option<string>)
    | DoRelease(worker: nat)

  class Coordinator {
    const store: ChangeStore
    var workers: seq<Worker>
    ghost var calls: seq<Call>

    ghost predicate Valid()
      reads this, store
    {
      store.Valid() && CallsOk(workers, calls, store.changes) && OneTokenEach(workers, store.nextToken)
    }

    constructor ()
      ensures Valid() && fresh(store) && store.changes == map[] && calls == []
    {
      store := new ChangeStore();
      workers, calls := [], [];
    }

    method Step(action: Action, now: int)
      requires Valid()
      modifies this, store
      ensures Valid() && AllGrow(old(store.changes), store.changes)
      ensures calls == old(calls) + CallsOf(old(workers), action)
      ensures WorkersMove(old(workers), workers, old(store.changes), store.changes, action)
      ensures action.DoPreview? || action.DoRetire? || action.DoFinish? || action.DoRelease? ==>
        if action.worker < |old(workers)|
        then IntentMoves(old(workers[action.worker]), old(store.changes), store.changes, action)
        else store.changes == old(store.changes)
    {
      hide ChangeStore.Valid, CallsOk, AllGrow;
      ghost var x := store.changes;
      var added: Option<Worker> := None;
      match action {
        case DoReserve(key, target, standing, noop, timing) =>
          var r := store.Reserve(key, target, standing, noop, timing, now);
        case DoLease(id, until) =>
          var token := store.AcquireLease(id, until, now);
          if token.Some? { added := Some(Preparing(id, token.value)); }
        case DoConfirm(id, until) =>
          var token := store.AcquireConfirmation(id, until, now);
          if token.Some? { added := Some(Confirming(id, token.value, store.changes[id].request.value)); }
        case DoExpire(id) =>
          var expired := store.ExpireIfIdle(id, now);
        case _ =>
          Work(action, now);
          return;
      }
      CallsGrow(workers, calls, x, store.changes);
      if added.Some? {
        AddWorker(workers, calls, store.changes, added.value);
        workers := workers + [added.value];
      }
    }

    /** A step of a worker already under way. */
    method Work(action: Action, now: int)
      requires Valid()
      requires !(action.DoReserve? || action.DoLease? || action.DoConfirm? || action.DoExpire?)
      modifies this, store
      ensures Valid() && AllGrow(old(store.changes), store.changes)
      ensures calls == old(calls) + CallsOf(old(workers), action)
      ensures WorkersMove(old(workers), workers, old(store.changes), store.changes, action)
      ensures action.DoPreview? || action.DoRetire? || action.DoFinish? || action.DoRelease? ==>
        if action.worker < |old(workers)|
        then IntentMoves(old(workers[action.worker]), old(store.changes), store.changes, action)
        else store.changes == old(store.changes)
    {
      hide ChangeStore.Valid, CallsOk, AllGrow, IntentMoves, StoreOk, OneTokenEach;
      ghost var x := store.changes;
      AllSame(x);
      var i := action.worker;
      if i >= |workers| { return; }
      var w := workers[i];
      WorkerAt(workers, calls, x, i);
      var next := w;
      if action.DoStart? {
        if w.Confirming? {
          var marked := store.MarkStarted(w.change, w.token, now);
          if marked { next := Started(w.change, w.token, w.request); }
        }
      } else if action.DoCall? {
        if w.Started? {
          store.RowOk(w.change);
          RecordCall(workers, calls, x, i);
          calls := calls + [Call(w.change, w.request)];
          next := Called(w.change, w.token, w.request);
        }
      } else {
        Act(w, action, now);
      }
      CallsGrow(workers, calls, x, store.changes);
      SetWorker(workers, calls, store.changes, i, next);
      SameTokens(workers, store.nextToken, i, next);
      workers := workers[i := next];
    }

    /** What a worker does to its intent other than start or call. */
    method Act(w: Worker, action: Action, now: int)
      requires store.Valid() && WorkerOk(w, store.changes)
      requires action.DoPreview? || action.DoRetire? || action.DoFinish? || action.DoRelease?
      modifies store
      ensures store.Valid() && AllGrow(old(store.changes), store.changes) && store.nextToken == old(store.nextToken)
      ensures IntentMoves(w, old(store.changes), store.changes, action)
    {
      hide ChangeStore.Valid, AllGrow, StoreOk;
      AllSame(store.changes);
      store.RowOk(w.change);
      match action {
        case DoPreview(_, timing, body) =>
          if w.Preparing? { var stored := store.StorePreview(w.change, w.token, timing, body, now); }
        case DoRetire(_) =>
          if w.Preparing? { store.RetireUnfrozen(w.change, w.token); }
        case DoFinish(_, status, pendingUntil, settlement) =>
          if w.Called? && status in {Scheduled, Applied, RequiresAction} {
            var finished := store.Finish(w.change, w.token, status, pendingUntil, settlement);
          }
        case DoRelease(_) =>
          store.ReleaseAfterError(w.change, w.token);
      }
    }

    /** Over any interleaving of workers, lease expiry, crashes and retries. */
    method Run(schedule: seq<(Action, int)>)
      requires Valid()
      modifies this, store
      ensures Valid() && AllGrow(old(store.changes), store.changes) && old(calls) <= calls
      ensures forall i, j :: 0 <= i < |calls| && 0 <= j < |calls| ==>
        (calls[i].change == calls[j].change <==> calls[i].request == calls[j].request)
      ensures forall i, j :: 0 <= i < j < |workers| && workers[i].change == workers[j].change ==>
        !(MayAct(workers[i], store.changes) && MayAct(workers[j], store.changes))
    {
      hide Valid, AllGrow, WorkersMove, IntentMoves, CallsOf, MayAct;
      ghost var x := store.changes;
      AllSame(x);
      var i := 0;
      while i < |schedule|
        invariant 0 <= i <= |schedule| && Valid() && AllGrow(x, store.changes) && old(calls) <= calls
      {
        ghost var y := store.changes;
        Step(schedule[i].0, schedule[i].1);
        GrowTrans(x, y, store.changes);
        i := i + 1;
      }
      SameRequests();
    }

    lemma SameRequests()
      requires Valid()
      ensures forall i, j :: 0 <= i < |calls| && 0 <= j < |calls| ==>
        (calls[i].change == calls[j].change <==> calls[i].request == calls[j].request)
      ensures forall i, j :: 0 <= i < j < |workers| && workers[i].change == workers[j].change ==>
        !(MayAct(workers[i], store.changes) && MayAct(workers[j], store.changes))
    {
      OneActs(workers, store.changes, store.nextToken);
      hide MayAct;
      CallsAgree(workers, calls, store.changes);
    }
  }

  lemma WorkerAt(workers: seq<Worker>, calls: seq<Call>, changes: map<ChangeId, Change>, i: nat)
    requires CallsOk(workers, calls, changes) && i < |workers|
    ensures WorkerOk(workers[i], changes)
  {}

  lemma AddWorker(workers: seq<Worker>, calls: seq<Call>, changes: map<ChangeId, Change>, w: Worker)
    requires CallsOk(workers, calls, changes) && WorkerOk(w, changes)
    ensures CallsOk(workers + [w], calls, changes)
  {}

  lemma SetWorker(workers: seq<Worker>, calls: seq<Call>, changes: map<ChangeId, Change>, i: nat, w: Worker)
    requires CallsOk(workers, calls, changes) && i < |workers| && WorkerOk(w, changes)
    ensures CallsOk(workers[i := w], calls, changes)
  {}

  lemma SameTokens(workers: seq<Worker>, nextToken: nat, i: nat, w: Worker)
    requires OneTokenEach(workers, nextToken) && i < |workers| && w.token == workers[i].token
    ensures OneTokenEach(workers[i := w], nextToken)
  {}

  lemma RecordCall(workers: seq<Worker>, calls: seq<Call>, changes: map<ChangeId, Change>, i: nat)
    requires CallsOk(workers, calls, changes) && i < |workers| && workers[i].Started?
    requires workers[i].request.change == workers[i].change
    ensures CallsOk(workers, calls + [Call(workers[i].change, workers[i].request)], changes)
  {
    assert WorkerOk(workers[i], changes);
  }
}
