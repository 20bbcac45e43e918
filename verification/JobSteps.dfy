/** What each store operation does to one job, and that it keeps the job's rows in agreement. */
module JobSteps {
  import opened Basics
  import opened Fencing
  import opened JobTables

  function Leased(r: Outbox, token: nat, until: int): Outbox {
    r.(state := Processing, lease := Held(token, until), tries := r.tries + 1)
  }

  function Finished(r: Outbox, result: Result): Outbox { r.(state := Done, lease := Free, result := result) }

  function Released(r: Outbox, availableAt: int): Outbox {
    r.(state := Pending, availableAt := availableAt, lease := Free)
  }

  // ---- billing --------------------------------------------------------------------------------------

  /** A row whose turn has come, or whose previous holder let its lease lapse. */
  predicate Due(r: Outbox, now: int) {
    (r.state == Pending && r.availableAt <= now) || (r.state == Processing && r.lease.Held? && r.lease.until <= now)
  }

  predicate Claimable(j: Job, op: Operation, now: int) {
    && Row(j, op).Some? && Due(Row(j, op).value, now)
    && (if op == Charge then j.attempt.state in {AwaitingCredit, Charging} else j.attempt.state == FailedPendingRefund)
  }

  function Claimed(j: Job, op: Operation, token: nat, until: int): Job
    requires Row(j, op).Some?
  {
    var k := WithRow(j, op, Leased(Row(j, op).value, token, until));
    if op == Charge then k.(attempt := k.attempt.(state := Charging)) else k
  }

  /** The job with its dispatch leased for delivery. */
  function Sent(j: Job, token: nat, until: int): Job
    requires j.dispatch.Some?
  {
    j.(dispatch := Some(Leased(j.dispatch.value, token, until)))
  }

  /** The row is being processed under this token. */
  predicate HeldBy(j: Job, op: Operation, token: nat) {
    && Row(j, op).Some? && Row(j, op).value.state == Processing
    && Row(j, op).value.lease.Held? && Row(j, op).value.lease.token == token
  }

  predicate LiveClaim(j: Job, op: Operation, token: nat, now: int) {
    HeldBy(j, op, token) && now < Row(j, op).value.lease.until
  }

  /** From `at` on, and not before, the row may be claimed. */
  ghost predicate ClaimableFrom(j: Job, op: Operation, at: int) {
    forall later :: Claimable(j, op, later) <==> at <= later
  }

  ghost predicate DueFrom(r: Outbox, at: int) { forall later :: Due(r, later) <==> at <= later }

  /** A claim excludes every other until its lease ends. */
  lemma ClaimExcludes(j: Job, op: Operation, token: nat, until: int, now: int)
    requires JobOk(j) && Claimable(j, op, now)
    ensures var k := Claimed(j, op, token, until);
      && ClaimableFrom(k, op, until) && Row(k, op).Some? && Row(k, op).value.lease == Held(token, until)
      && Row(k, op).value.tries == Row(j, op).value.tries + 1
  {}

  /** A row given back waits for its retry time. */
  lemma ReleaseWaits(j: Job, op: Operation, token: nat, retryAt: int)
    requires JobOk(j) && HeldBy(j, op, token)
    ensures ClaimableFrom(WithRow(j, op, Released(Row(j, op).value, retryAt)), op, retryAt)
  {}

  /** A row that is done or abandoned is never claimed again, and a job has at most one row that may be. */
  lemma FinishedRowsRest(j: Job, op: Operation, now: int)
    requires JobOk(j) && Row(j, op).Some?
    ensures Row(j, op).value.state in {Done, Abandoned} ==> !Claimable(j, op, now)
    ensures Claimable(j, Charge, now) ==> !Claimable(j, Refund, now)
  {}

  function ChargeSucceeded(j: Job, result: Result): Job {
    j.(state := Ready, attempt := j.attempt.(state := AttemptReady), charge := Finished(j.charge, result),
       dispatch := Some(FRESH_ROW))
  }

  function ChargeRejected(j: Job, reason: string): Job {
    j.(state := BillingRejected, attempt := j.attempt.(state := Rejected),
       charge := Finished(j.charge, RejectedFor(reason)))
  }

  function RefundSucceeded(j: Job, result: Result): Job
    requires j.refund.Some?
  {
    j.(state := Failed, attempt := j.attempt.(state := FailedRefunded),
       refund := Some(Finished(j.refund.value, result)))
  }

  lemma ClaimedOk(j: Job, op: Operation, token: nat, until: int, now: int)
    requires JobOk(j) && Claimable(j, op, now)
    ensures JobOk(Claimed(j, op, token, until)) && HeldBy(Claimed(j, op, token, until), op, token)
  {}

  /** A held row belongs to a job waiting for exactly that operation, so the finalizers never meet a
      job or attempt in another state. */
  lemma HeldRowIsCurrent(j: Job, op: Operation, token: nat)
    requires JobOk(j) && HeldBy(j, op, token)
    ensures op == Charge ==> j.attempt.state == Charging && j.state == PendingCredit && j.dispatch == None
    ensures op == Refund ==> j.attempt.state == FailedPendingRefund && j.state == RefundPending
    ensures Row(j, op).value.result == NoResult
  {}

  lemma FinalizedOk(j: Job, op: Operation, token: nat)
    requires JobOk(j) && HeldBy(j, op, token)
    ensures op == Charge ==> forall r: Result :: r == Charged || r == Replayed ==> JobOk(ChargeSucceeded(j, r))
    ensures op == Charge ==> forall s: string :: JobOk(ChargeRejected(j, s))
    ensures op == Refund ==> forall r: Result :: r == Refunded || r == Replayed || r == EpochExpired ==>
      JobOk(RefundSucceeded(j, r))
  {}

  /** Giving a held row back, or giving up on it, moves neither job nor attempt. */
  lemma LetGoOk(j: Job, op: Operation, token: nat, r: Outbox)
    requires JobOk(j) && HeldBy(j, op, token)
    requires r.lease == Free && (r.state == Abandoned || (r.state == Pending && r.result == NoResult))
    ensures JobOk(WithRow(j, op, r))
  {}

  // ---- executing ------------------------------------------------------------------------------------

  function Started(j: Job, token: nat, until: int): Job {
    j.(state := Running, attempt := Attempt(Executing, Held(token, until), j.attempt.generation + 1),
       receipt := Some(Consumed))
  }

  function Reissued(j: Job, token: nat, until: int): Job {
    j.(attempt := j.attempt.(lease := Held(token, until), generation := j.attempt.generation + 1))
  }

  function Extended(j: Job, token: nat, until: int): Job { j.(attempt := j.attempt.(lease := Held(token, until))) }

  function Succeed(j: Job): Job { j.(state := Succeeded, attempt := j.attempt.(state := Completed, lease := Free)) }

  function Fail(j: Job): Job {
    j.(state := RefundPending, attempt := j.attempt.(state := FailedPendingRefund, lease := Free),
       refund := Some(FRESH_ROW))
  }

  /** A dispatched job without a receipt is ready: a first delivery always starts it. */
  lemma FirstDeliveryFindsReady(j: Job)
    requires JobOk(j) && j.dispatch.Some? && j.receipt == None
    ensures j.attempt.state == AttemptReady && j.state == Ready
  {}

  /** The attempt is executing under this token, whose lease is live. */
  predicate LiveHolder(j: Job, token: nat, now: int) {
    && j.attempt.state == Executing && j.attempt.lease.Held? && j.attempt.lease.token == token
    && now < j.attempt.lease.until
  }

  /** An executing job is running, has its charge done and no refund: ending it never fails. */
  lemma ExecutingIsPaid(j: Job)
    requires JobOk(j) && j.attempt.state == Executing
    ensures j.state == Running && j.refund == None && j.charge.state == Done && j.charge.result in {Charged, Replayed}
  {}

  predicate TokenIsFresh(h: seq<Event>, token: nat) {
    forall i :: 0 <= i < |h| ==> h[i].token != token
  }

  lemma StartedKeeps(jobs: map<JobId, Job>, h: seq<Event>, id: JobId, token: nat, until: int, now: int)
    requires WorkflowOk(jobs, h) && id in jobs && jobs[id].dispatch.Some? && jobs[id].receipt == None
    requires TokenIsFresh(h, token)
    ensures WorkflowOk(jobs[id := Started(jobs[id], token, until)],
                       h + [Issued(id, token, jobs[id].attempt.generation + 1, now, until)])
  {
    JobAt(jobs, h, id);
    FirstDeliveryFindsReady(jobs[id]);
    FencedStep(jobs, h, id, Started(jobs[id], token, until),
               Issued(id, token, jobs[id].attempt.generation + 1, now, until));
  }

  lemma ReissuedKeeps(jobs: map<JobId, Job>, h: seq<Event>, id: JobId, token: nat, until: int, now: int)
    requires WorkflowOk(jobs, h) && id in jobs && jobs[id].attempt.state == Executing && TokenIsFresh(h, token)
    requires jobs[id].attempt.lease.Held? ==> jobs[id].attempt.lease.until <= now
    ensures WorkflowOk(jobs[id := Reissued(jobs[id], token, until)],
                       h + [Issued(id, token, jobs[id].attempt.generation + 1, now, until)])
  {
    JobAt(jobs, h, id);
    FencedStep(jobs, h, id, Reissued(jobs[id], token, until),
               Issued(id, token, jobs[id].attempt.generation + 1, now, until));
  }

  lemma HolderMoves(j: Job, token: nat, until: int, now: int)
    requires JobOk(j) && LiveHolder(j, token, now)
    ensures JobOk(Extended(j, token, until)) && JobOk(Succeed(j)) && JobOk(Fail(j))
  {}

  lemma HolderKeeps(jobs: map<JobId, Job>, h: seq<Event>, id: JobId, token: nat, until: int, now: int)
    requires WorkflowOk(jobs, h) && id in jobs && LiveHolder(jobs[id], token, now)
    ensures WorkflowOk(jobs[id := Extended(jobs[id], token, until)], h + [Renewed(id, token, now, until)])
    ensures WorkflowOk(jobs[id := Succeed(jobs[id])], h + [Ended(id, token, true, now)])
    ensures WorkflowOk(jobs[id := Fail(jobs[id])], h + [Ended(id, token, false, now)])
  {
    JobAt(jobs, h, id);
    HolderMoves(jobs[id], token, until, now);
    assert Allowed(h, Renewed(id, token, now, until)) && Allowed(h, Ended(id, token, true, now))
      && Allowed(h, Ended(id, token, false, now));
    hide WorkflowOk, JobOk, FenceOk, HolderOf, Allowed;
    FencedStep(jobs, h, id, Extended(jobs[id], token, until), Renewed(id, token, now, until));
    FencedStep(jobs, h, id, Succeed(jobs[id]), Ended(id, token, true, now));
    FencedStep(jobs, h, id, Fail(jobs[id]), Ended(id, token, false, now));
  }
}
