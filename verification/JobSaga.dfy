/** Workers, billing and the store together: the charge-and-refund saga under every interleaving. */
module JobSaga {
  import opened Basics
  import opened Fencing
  import opened JobTables
  import opened JobSteps
  import opened JobWorkflow

  /** What billing holds under a job's credit key. */
  datatype Debit = Open | Closed

  /** What a call to billing does: it may also refuse, or be lost before or after taking effect. */
  datatype Mood = Willing | Expiring | Unwilling | LostBefore | LostAfter

  datatype Reply = Replied(result: Result) | Refusal | Lost

  /** A billing worker holding a claim; it may be slow, so its call and its report are separate steps. */
  datatype Worker = Worker(claim: BillingClaim, reply: Option<Reply>)

  datatype Verdict = WorkCompleted | WorkRejected | ManualReviewAsked | Retrying | LeaseLost | Impossible

  /** Billing is idempotent by credit key. */
  class BillingService {
    var debits: map<JobId, Debit>

    constructor ()
      ensures debits == map[]
    {
      debits := map[];
    }

    method ChargeKey(id: JobId, mood: Mood) returns (reply: Reply)
      modifies this
      ensures debits == old(debits) || (id !in old(debits) && debits == old(debits)[id := Open])
      ensures reply.Replied? ==> id in debits && reply.result == (if id in old(debits) then Replayed else Charged)
      ensures (reply == Refusal <==> mood == Unwilling) && (reply == Refusal ==> debits == old(debits))
      ensures mood == LostAfter ==> reply == Lost && id in debits
    {
      var known := id in debits;
      if !known && mood != Unwilling && mood != LostBefore {
        debits := debits[id := Open];
      }
      reply := if mood == Unwilling then Refusal
               else if mood == LostBefore || mood == LostAfter then Lost
               else Replied(if known then Replayed else Charged);
    }

    method RefundKey(id: JobId, mood: Mood) returns (reply: Reply)
      modifies this
      ensures debits == old(debits) || (id in old(debits) && debits == old(debits)[id := Closed])
      ensures reply.Replied? ==>
        && id in debits && debits[id] == Closed && id in old(debits)
        && (old(debits[id]) == Closed <==> reply.result == Replayed)
        && reply.result in {Refunded, Replayed, EpochExpired}
      ensures (reply == Refusal ==> debits == old(debits)) && (mood == Unwilling ==> reply == Refusal)
      ensures mood == LostAfter && id in old(debits) ==> reply == Lost && debits[id] == Closed
    {
      if mood == Unwilling || id !in debits {
        return if mood == LostBefore || mood == LostAfter then Lost else Refusal;
      }
      var known := debits[id] == Closed;
      if mood != LostBefore {
        debits := debits[id := Closed];
      }
      reply := if mood == LostBefore || mood == LostAfter then Lost
               else Replied(if known then Replayed else if mood == Expiring then EpochExpired else Refunded);
    }
  }

  // ---- what ties the host's jobs to billing ---------------------------------------------------------

  predicate WorkerOk(w: Worker, jobs: map<JobId, Job>, debits: map<JobId, Debit>) {
    var id := w.claim.key.job;
    && id in jobs
    && (w.claim.key.operation == Refund ==> Failing(jobs[id].attempt.state))
    && (w.reply.Some? && w.reply.value.Replied? ==>
          && id in debits
          && (if w.claim.key.operation == Charge then w.reply.value.result in {Charged, Replayed}
              else debits[id] == Closed && w.reply.value.result in {Refunded, Replayed, EpochExpired}))
  }

  predicate BilledOk(j: Job, id: JobId, debits: map<JobId, Debit>) {
    && (Paid(j.attempt.state) ==> id in debits)
    && (id in debits && debits[id] == Closed ==> Failing(j.attempt.state))
    && (j.attempt.state == FailedRefunded ==> id in debits && debits[id] == Closed)
  }

  ghost predicate SagaOk(jobs: map<JobId, Job>, debits: map<JobId, Debit>, workers: seq<Worker>) {
    && debits.Keys <= jobs.Keys
    && (forall id :: id in jobs ==> BilledOk(jobs[id], id, debits))
    && (forall i :: 0 <= i < |workers| ==> WorkerOk(workers[i], jobs, debits))
  }

  /** Jobs only move forward, so what workers rely on stays true. */
  predicate Forward(j: Job, k: Job) {
    && (Paid(j.attempt.state) ==> Paid(k.attempt.state)) && (Failing(j.attempt.state) ==> Failing(k.attempt.state))
  }

  lemma JobMoves(jobs: map<JobId, Job>, debits: map<JobId, Debit>, workers: seq<Worker>, id: JobId, k: Job)
    requires SagaOk(jobs, debits, workers) && id in jobs && Forward(jobs[id], k) && BilledOk(k, id, debits)
    ensures SagaOk(jobs[id := k], debits, workers)
  {
    forall i | 0 <= i < |workers| ensures WorkerOk(workers[i], jobs[id := k], debits) {
      assert WorkerOk(workers[i], jobs, debits);
    }
  }

  /** One worker for each claim. */
  function Hired(claims: seq<BillingClaim>): (r: seq<Worker>)
    ensures |r| == |claims| && forall i :: 0 <= i < |claims| ==> r[i] == Worker(claims[i], None)
  {
    if |claims| == 0 then [] else [Worker(claims[0], None)] + Hired(claims[1..])
  }

  predicate ClaimFits(j: Job, op: Operation) { op == Refund ==> Failing(j.attempt.state) }

  /** Any number of jobs move, and workers are hired for what was claimed. */
  lemma JobsMove(jobs: map<JobId, Job>, debits: map<JobId, Debit>, workers: seq<Worker>, after: map<JobId, Job>,
                 claims: seq<BillingClaim>)
    requires SagaOk(jobs, debits, workers) && after.Keys == jobs.Keys
    requires forall id :: id in jobs ==> Forward(jobs[id], after[id]) && BilledOk(after[id], id, debits)
    requires forall c :: c in claims ==> c.key.job in jobs && ClaimFits(jobs[c.key.job], c.key.operation)
    ensures SagaOk(after, debits, workers + Hired(claims))
  {
    var all := workers + Hired(claims);
    forall i | 0 <= i < |all| ensures WorkerOk(all[i], after, debits) {
      if i < |workers| {
        assert WorkerOk(workers[i], jobs, debits);
      } else {
        assert claims[i - |workers|] in claims;
      }
    }
  }

  lemma JobArrives(jobs: map<JobId, Job>, debits: map<JobId, Debit>, workers: seq<Worker>, id: JobId)
    requires SagaOk(jobs, debits, workers) && id !in jobs
    ensures SagaOk(jobs[id := FRESH_JOB], debits, workers)
  {
    assert id !in debits.Keys;
    forall i | 0 <= i < |workers| ensures WorkerOk(workers[i], jobs[id := FRESH_JOB], debits) {
      assert WorkerOk(workers[i], jobs, debits);
    }
  }

  /** Billing takes one call; `w` learns its reply. */
  lemma BillingMoves(jobs: map<JobId, Job>, debits: map<JobId, Debit>, after: map<JobId, Debit>, workers: seq<Worker>,
                     i: nat, w: Worker)
    requires SagaOk(jobs, debits, workers) && i < |workers| && WorkerOk(w, jobs, after)
    requires w.claim == workers[i].claim
    requires after == debits || (w.claim.key.job !in debits && after == debits[w.claim.key.job := Open])
          || (w.claim.key.operation == Refund && w.claim.key.job in debits
              && after == debits[w.claim.key.job := Closed])
    ensures SagaOk(jobs, after, workers[i := w])
  {
    var id := w.claim.key.job;
    assert WorkerOk(workers[i], jobs, debits);
    var ws := workers[i := w];
    forall j | 0 <= j < |ws| ensures WorkerOk(ws[j], jobs, after) {
      assert WorkerOk(workers[j], jobs, debits);
    }
    forall k | k in jobs ensures BilledOk(jobs[k], k, after) {
      assert BilledOk(jobs[k], k, debits);
    }
  }

  /** A ready, running or succeeded job was charged, once, and no refund was ever asked for; a failed
      job completed its charge and then its refund. */
  predicate Story(j: Job, id: JobId, debits: map<JobId, Debit>) {
    && (j.state in {Ready, Running, Succeeded} ==>
          && id in debits && debits[id] == Open && j.refund == None && j.charge.state == Done
          && j.charge.result in {Charged, Replayed})
    && (j.state == RefundPending ==>
          && id in debits && j.charge.state == Done && j.charge.result in {Charged, Replayed}
          && j.refund.Some? && j.refund.value.state != Done)
    && (j.state == Failed ==>
          && id in debits && debits[id] == Closed && j.charge.state == Done && j.charge.result in {Charged, Replayed}
          && j.refund.Some? && j.refund.value.state == Done
          && j.refund.value.result in {Refunded, Replayed, EpochExpired})
    && (j.state in {PendingCredit, BillingRejected} ==>
          && j.refund == None && j.dispatch == None && j.receipt == None && (id in debits ==> debits[id] == Open))
  }

  lemma StoryHolds(j: Job, id: JobId, debits: map<JobId, Debit>)
    requires JobOk(j) && BilledOk(j, id, debits)
    ensures Story(j, id, debits)
  {}

  /** What a report about row `op` of job `j` does to it. Only the holder of the row can move it, and only a holder
      whose lease is live can end it: a lost answer puts the row back for a retry and leaves job and attempt
      alone, a refused charge rejects the job, a refused refund is left to an operator, and an answer completes
      the operation. */
  ghost predicate Reported(j: Job, k: Job, claim: BillingClaim, reply: Reply, verdict: Verdict, retryAt: int, now: int)
    {
    var op := claim.key.operation;
    var row := if op == Charge then Some(j.charge) else j.refund;
    var held := row.Some? && row.value.state == Processing && row.value.lease.Held?
                && row.value.lease.token == claim.token;
    var live := held && now < row.value.lease.until;
    match reply
    case Lost =>
      && verdict == (if held then Retrying else LeaseLost) && (!held ==> k == j)
      && (held ==>
            && Row(k, op) == Some(Outbox(Pending, retryAt, Free, row.value.tries, NoResult))
            && k == WithRow(j, op, Row(k, op).value) && k.state == j.state && k.attempt == j.attempt)
    case Refusal =>
      && verdict == (if !live then LeaseLost else if op == Charge then WorkRejected else ManualReviewAsked)
      && (!live ==> k == j)
      && (live && op == Charge ==>
            && k.state == BillingRejected && k.attempt.state == Rejected && k.charge.state == Done
            && k.charge.result.RejectedFor? && k.dispatch == k.refund == None)
      && (live && op == Refund ==>
            && k.state == j.state && k.attempt == j.attempt && k.charge == j.charge && k.dispatch == j.dispatch
            && k.refund == Some(row.value.(state := Abandoned, lease := Free, result := ManualReview)))
    case Replied(result) =>
      && verdict == (if live then WorkCompleted else LeaseLost) && (!live ==> k == j)
      && (live && op == Charge ==>
            && k.state == Ready && k.attempt.state == AttemptReady && k.charge.state == Done
            && k.charge.result == result && k.dispatch == Some(FRESH_ROW) && k.refund == None)
      && (live && op == Refund ==>
            && k.state == Failed && k.attempt.state == FailedRefunded && k.charge == j.charge
            && k.refund.Some? && k.refund.value.state == Done && k.refund.value.result == result)
  }

  /** The worker's report took effect on its job alone. */
  ghost predicate SettledIn(x: map<JobId, Job>, y: map<JobId, Job>, w: Worker, retryAt: int, now: int)
    requires w.reply.Some?
  {
    var id := w.claim.key.job;
    && id in x && id in y && y == x[id := y[id]]
    && exists verdict :: Reported(x[id], y[id], w.claim, w.reply.value, verdict, retryAt, now)
  }

  class Saga {
    const store: JobWorkflowStore
    const billing: BillingService
    var workers: seq<Worker>

    ghost predicate Valid()
      reads this, store, billing
    {
      store.Valid() && SagaOk(store.jobs, billing.debits, workers)
    }

    constructor ()
      ensures Valid() && fresh(store) && fresh(billing) && store.jobs == map[] && store.history == [] && workers == []
    {
      store := new JobWorkflowStore();
      billing := new BillingService();
      workers := [];
    }

    method Submit(requestKey: string, terms: Terms)
      requires Valid()
      modifies store
      ensures Valid() && store.history == old(store.history)
      ensures requestKey in store.requests && old(store.requests).Keys <= store.requests.Keys
    {
      hide JobWorkflowStore.Valid, SagaOk;
      ghost var jobs := store.jobs;
      var r := store.SubmitJob(requestKey, terms);
      if r.Submission? && r.created {
        JobArrives(jobs, billing.debits, workers, r.job);
      }
    }

    /** A batch of rows is claimed under one token; each is worked on by itself. */
    method Claim(rows: seq<BillingKey>, limit: nat, leaseUntil: int, now: int)
      requires Valid()
      modifies this, store
      ensures Valid() && store.history == old(store.history) && store.requests == old(store.requests)
    {
      hide JobWorkflowStore.Valid, SagaOk, BilledOk, Claimed;
      ghost var jobs := store.jobs;
      ghost var looked;
      var claims;
      claims, looked := store.ClaimBilling(rows, limit, leaseUntil, now);
      forall id | id in jobs
        ensures id in store.jobs && Forward(jobs[id], store.jobs[id]) && BilledOk(store.jobs[id], id, billing.debits)
      {
        JobAtOk(jobs, billing.debits, workers, id);
        if Claims(claims, id) {
          var c :| c in claims && c.key.job == id;
          ClaimedForward(jobs, billing.debits, c.key, c.token, leaseUntil, now);
        }
      }
      forall c | c in claims ensures c.key.job in jobs && ClaimFits(jobs[c.key.job], c.key.operation) {}
      JobsMove(jobs, billing.debits, workers, store.jobs, claims);
      workers := workers + Hired(claims);
    }

    /** The worker calls billing, possibly long after its lease lapsed. */
    method CallBilling(i: nat, mood: Mood)
      requires Valid() && i < |workers|
      modifies this, billing
      ensures Valid() && store.history == old(store.history)
      ensures |workers| == |old(workers)| && workers[i].reply.Some?
      ensures workers == old(workers)[i := old(workers[i]).(reply := workers[i].reply)]
    {
      hide JobWorkflowStore.Valid;
      ghost var debits := billing.debits;
      var w := workers[i];
      assert WorkerOk(w, store.jobs, debits);
      var reply;
      if w.claim.key.operation == Charge {
        reply := billing.ChargeKey(w.claim.key.job, mood);
      } else {
        reply := billing.RefundKey(w.claim.key.job, mood);
      }
      BillingMoves(store.jobs, debits, billing.debits, workers, i, w.(reply := Some(reply)));
      workers := workers[i := w.(reply := Some(reply))];
    }

    /** The worker reports what billing answered. */
    method Settle(i: nat, retryAt: int, now: int) returns (verdict: Verdict)
      requires Valid() && i < |workers| && workers[i].reply.Some?
      modifies store
      ensures Valid() && store.history == old(store.history) && store.requests == old(store.requests)
      ensures verdict != Impossible && (verdict == ManualReviewAsked ==> workers[i].reply == Some(Refusal))
      ensures verdict == WorkCompleted <==> workers[i].reply.value.Replied? && old(store.Current(workers[i].claim, now))
      ensures var id := workers[i].claim.key.job;
        && id in old(store.jobs) && id in store.jobs && store.jobs == old(store.jobs)[id := store.jobs[id]]
        && Reported(old(store.jobs)[id], store.jobs[id], workers[i].claim, workers[i].reply.value, verdict, retryAt,
                    now)
    {
      hide JobWorkflowStore.Valid, SagaOk;
      var w := workers[i];
      ghost var jobs := store.jobs;
      ghost var debits := billing.debits;
      WorkerAt(jobs, debits, workers, i);
      store.JobIsOk(w.claim.key.job);
      if HeldBy(store.jobs[w.claim.key.job], w.claim.key.operation, w.claim.token) {
        store.ClaimedJob(w.claim);
        SettledMoves(jobs, debits, workers, i);
      }
      match w.reply.value
      case Refusal =>
        if w.claim.key.operation == Charge {
          var r := store.FinalizeChargeRejected(w.claim, "billing", now);
          verdict := if r == Yes then WorkRejected else LeaseLost;
        } else {
          var done := store.FinalizeBillingPermanentFailure(w.claim, now);
          verdict := if done then ManualReviewAsked else LeaseLost;
        }
      case Lost =>
        var released := store.ReleaseBillingClaim(w.claim, retryAt);
        verdict := if released then Retrying else LeaseLost;
      case Replied(result) =>
        var r;
        if w.claim.key.operation == Charge {
          r := store.FinalizeChargeSuccess(w.claim, result, now);
        } else {
          r := store.FinalizeRefundSuccess(w.claim, result, now);
        }
        verdict := if r == Yes then WorkCompleted else if r == No then LeaseLost else Impossible;
    }

    // ---- dispatch and execution, by anyone holding any claim, real or stale ---------------------------

    method Dispatch(claim: DispatchClaim, act: DispatchAct, at: int, now: int)
      requires Valid()
      modifies store
      ensures Valid() && store.history == old(store.history) && store.requests == old(store.requests)
    {
      hide JobWorkflowStore.Valid, SagaOk;
      ghost var jobs := store.jobs;
      match act {
        case Take(rows, limit) =>
          ghost var looked;
          var taken;
          taken, looked := store.ClaimDispatch(rows, limit, at, now);
          forall id | id in jobs
            ensures id in store.jobs && Forward(jobs[id], store.jobs[id])
            ensures BilledOk(store.jobs[id], id, billing.debits)
          {
            JobAtOk(jobs, billing.debits, workers, id);
            if Takes(taken, id) {
              var c :| c in taken && c.job == id;
            }
          }
          JobsMove(jobs, billing.debits, workers, store.jobs, []);
          assert workers + Hired([]) == workers;
        case Confirm =>
          var done := store.FinalizeDispatch(claim, now);
          DispatchMoved(jobs, store.jobs, billing.debits, workers, claim.job);
        case GiveBack =>
          var released := store.ReleaseDispatchClaim(claim, at);
          DispatchMoved(jobs, store.jobs, billing.debits, workers, claim.job);
      }
    }

    lemma DispatchMoved(jobs: map<JobId, Job>, after: map<JobId, Job>, debits: map<JobId, Debit>, workers: seq<Worker>,
                        id: JobId)
      requires SagaOk(jobs, debits, workers)
      requires after == jobs
            || (id in jobs && id in after && after == jobs[id := jobs[id].(dispatch := after[id].dispatch)])
      ensures SagaOk(after, debits, workers)
    {
      if after != jobs {
        JobAtOk(jobs, debits, workers, id);
        JobMoves(jobs, debits, workers, id, after[id]);
      }
    }

    method Execute(execution: ExecutionClaim, act: ExecutionAct, leaseUntil: int, now: int)
      requires Valid()
      modifies store
      ensures Valid() && TimedBy(old(store.history), store.history, now) && store.requests == old(store.requests)
    {
      hide JobWorkflowStore.Valid, SagaOk;
      ghost var jobs := store.jobs;
      var id := execution.job;
      if id in jobs {
        JobAtOk(jobs, billing.debits, workers, id);
        store.JobIsOk(id);
      }
      match act {
        case Deliver =>
          var r := store.ConsumeDispatch(id, leaseUntil, now);
        case Reclaim =>
          var r := store.ReclaimExecution(id, leaseUntil, now);
        case Renew =>
          var r := store.RenewExecution(execution, leaseUntil, now);
        case Complete =>
          var r := store.CompleteExecution(execution, now);
        case GiveUp =>
          var r := store.FailExecution(execution, now);
      }
      if store.jobs != jobs {
        JobMoves(jobs, billing.debits, workers, id, store.jobs[id]);
      }
    }

    /** One step of the schedule. */
    method Step(action: Action, now: int)
      requires Valid()
      modifies this, store, billing
      ensures Valid() && TimedBy(old(store.history), store.history, now)
      ensures action.DoSubmit? ==> action.requestKey in store.requests
      ensures old(store.requests).Keys <= store.requests.Keys
      ensures action.DoSettle? && action.reporter < |old(workers)| && old(workers[action.reporter]).reply.Some? ==>
        SettledIn(old(store.jobs), store.jobs, old(workers[action.reporter]), action.retryAt, now)
    {
      hide Valid, Reported;
      match action
      case DoSubmit(key, terms) => Submit(key, terms);
      case DoClaim(rows, limit, until) => Claim(rows, limit, until, now);
      case DoCall(i, mood) => if i < |workers| { CallBilling(i, mood); }
      case DoSettle(i, retryAt) =>
        if i < |workers| && workers[i].reply.Some? {
          var verdict := Settle(i, retryAt, now);
        }
      case DoDispatch(claim, act, at) => Dispatch(claim, act, at, now);
      case DoExecute(execution, act, until) => Execute(execution, act, until, now);
    }

    /** Over any schedule of submissions, workers, crashes, redeliveries, takeovers and stale claims,
        every job's story stays consistent and its executions fenced. */
    method Run(schedule: seq<(Action, int)>)
      requires Valid()
      modifies this, store, billing
      ensures Valid() && old(store.history) <= store.history && Fenced(store.history)
      ensures Clocked(old(store.history)) && ClockRuns(old(store.history), schedule) ==> Clocked(store.history)
      ensures forall i :: 0 <= i < |schedule| && schedule[i].0.DoSubmit? ==> schedule[i].0.requestKey in store.requests
      ensures forall id :: id in store.jobs ==>
        Paired(store.jobs[id].state, store.jobs[id].attempt.state) && Story(store.jobs[id], id, billing.debits)
    {
      hide JobWorkflowStore.Valid, SagaOk, Story, Paired, Fenced;
      var i := 0;
      while i < |schedule|
        invariant 0 <= i <= |schedule| && Valid() && old(store.history) <= store.history
        invariant forall j :: 0 <= j < i && schedule[j].0.DoSubmit? ==> schedule[j].0.requestKey in store.requests
        invariant Clocked(old(store.history)) && ClockRuns(old(store.history), schedule) ==>
          Clocked(store.history) && ClockRuns(store.history, schedule[i..])
      {
        ghost var h := store.history;
        Step(schedule[i].0, schedule[i].1);
        if Clocked(h) && ClockRuns(h, schedule[i..]) { ClockStep(h, store.history, schedule[i..]); }
        i := i + 1;
      }
      forall id | id in store.jobs
        ensures Paired(store.jobs[id].state, store.jobs[id].attempt.state) && Story(store.jobs[id], id, billing.debits)
      {
        store.JobIsOk(id);
        JobAtOk(store.jobs, billing.debits, workers, id);
        StoryHolds(store.jobs[id], id, billing.debits);
        PairedHolds(store.jobs[id]);
      }
      store.HistoryIsFenced();
    }
  }

  /** Events added to `h` happen at `now`. */
  ghost predicate TimedBy(h: seq<Event>, g: seq<Event>, now: int) {
    h <= g && forall i :: |h| <= i < |g| ==> g[i].at == now
  }

  /** The schedule continues the history without stepping back. */
  ghost predicate ClockRuns(h: seq<Event>, schedule: seq<(Action, int)>) {
    && (forall i, j :: 0 <= i < j < |schedule| ==> schedule[i].1 <= schedule[j].1)
    && forall i, j :: 0 <= i < |h| && 0 <= j < |schedule| ==> h[i].at <= schedule[j].1
  }

  lemma ClockStep(h: seq<Event>, g: seq<Event>, schedule: seq<(Action, int)>)
    requires |schedule| > 0 && Clocked(h) && ClockRuns(h, schedule) && TimedBy(h, g, schedule[0].1)
    ensures Clocked(g) && ClockRuns(g, schedule[1..])
  {}

  datatype DispatchAct = Take(rows: seq<JobId>, limit: nat) | Confirm | GiveBack

  datatype ExecutionAct = Deliver | Reclaim | Renew | Complete | GiveUp

  datatype Action =
    | DoSubmit(requestKey: string, terms: Terms)
    | DoClaim(rows: seq<BillingKey>, limit: nat, leaseUntil: int)
    | DoCall(worker: nat, mood: Mood)
    | DoSettle(reporter: nat, retryAt: int)
    | DoDispatch(claim: DispatchClaim, dispatchAct: DispatchAct, at: int)
    | DoExecute(execution: ExecutionClaim, executionAct: ExecutionAct, until: int)

  lemma JobAtOk(jobs: map<JobId, Job>, debits: map<JobId, Debit>, workers: seq<Worker>, id: JobId)
    requires SagaOk(jobs, debits, workers) && id in jobs
    ensures BilledOk(jobs[id], id, debits)
  {}

  lemma PairedHolds(j: Job)
    requires JobOk(j)
    ensures Paired(j.state, j.attempt.state)
  {}

  lemma WorkerAt(jobs: map<JobId, Job>, debits: map<JobId, Debit>, workers: seq<Worker>, i: nat)
    requires SagaOk(jobs, debits, workers) && i < |workers|
    ensures WorkerOk(workers[i], jobs, debits) && BilledOk(jobs[workers[i].claim.key.job], workers[i].claim.key.job,
                                                           debits)
  {}

  /** Whatever a worker reports on a row it still holds keeps jobs and billing in step. */
  lemma SettledMoves(jobs: map<JobId, Job>, debits: map<JobId, Debit>, workers: seq<Worker>, i: nat)
    requires SagaOk(jobs, debits, workers) && i < |workers|
    requires WorkerOk(workers[i], jobs, debits) && JobOk(jobs[workers[i].claim.key.job])
    requires HeldBy(jobs[workers[i].claim.key.job], workers[i].claim.key.operation, workers[i].claim.token)
    ensures var w := workers[i];
      && var id := w.claim.key.job;
      && (forall r: Outbox :: SagaOk(jobs[id := WithRow(jobs[id], w.claim.key.operation, r)], debits, workers))
      && (w.claim.key.operation == Charge ==>
            forall reason: string :: SagaOk(jobs[id := ChargeRejected(jobs[id], reason)], debits, workers))
      && (w.claim.key.operation == Charge && w.reply.Some? && w.reply.value.Replied? ==>
            SagaOk(jobs[id := ChargeSucceeded(jobs[id], w.reply.value.result)], debits, workers))
      && (w.claim.key.operation == Refund && w.reply.Some? && w.reply.value.Replied? ==>
            SagaOk(jobs[id := RefundSucceeded(jobs[id], w.reply.value.result)], debits, workers))
  {
    var w := workers[i];
    var id := w.claim.key.job;
    WorkerAt(jobs, debits, workers, i);
    HeldRowIsCurrent(jobs[id], w.claim.key.operation, w.claim.token);
    hide SagaOk, JobOk, WorkerOk;
    forall r: Outbox ensures SagaOk(jobs[id := WithRow(jobs[id], w.claim.key.operation, r)], debits, workers) {
      JobMoves(jobs, debits, workers, id, WithRow(jobs[id], w.claim.key.operation, r));
    }
    if w.claim.key.operation == Charge {
      forall reason: string ensures SagaOk(jobs[id := ChargeRejected(jobs[id], reason)], debits, workers) {
        JobMoves(jobs, debits, workers, id, ChargeRejected(jobs[id], reason));
      }
      if w.reply.Some? && w.reply.value.Replied? {
        JobMoves(jobs, debits, workers, id, ChargeSucceeded(jobs[id], w.reply.value.result));
      }
    } else if w.reply.Some? && w.reply.value.Replied? {
      JobMoves(jobs, debits, workers, id, RefundSucceeded(jobs[id], w.reply.value.result));
    }
  }

  lemma ClaimedForward(jobs: map<JobId, Job>, debits: map<JobId, Debit>, key: BillingKey, token: nat, until: int,
                       now: int)
    requires key.job in jobs && Claimable(jobs[key.job], key.operation, now) && BilledOk(jobs[key.job], key.job, debits)
    ensures Forward(jobs[key.job], Claimed(jobs[key.job], key.operation, token, until))
    ensures BilledOk(Claimed(jobs[key.job], key.operation, token, until), key.job, debits)
  {}
}
