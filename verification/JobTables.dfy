/** The rows of the job workflow, and what ties a job to its attempt, outbox and inbox rows. Unique
    and composite foreign keys give each job one attempt, one charge row, and at most one refund row,
    dispatch row and receipt, so they are kept together under the job's identity. */
module JobTables {
  import opened Basics
  import opened Fencing

  type JobId = nat

  datatype JobState = PendingCredit | Ready | Running | Succeeded | BillingRejected | RefundPending | Failed

  datatype AttemptState =
    | AwaitingCredit | Charging | AttemptReady | Executing | Completed | Rejected | FailedPendingRefund | FailedRefunded

  datatype Lease = Free | Held(token: nat, until: int)

  /** The lease is this token's, and has not run out. */
  predicate LeaseLives(lease: Lease, token: nat, now: int) {
    lease.Held? && lease.token == token && now < lease.until
  }

  datatype Attempt = Attempt(state: AttemptState, lease: Lease, generation: nat)

  datatype Operation = Charge | Refund

  datatype RowState = Pending | Processing | Done | Abandoned

  datatype Result = NoResult | Charged | Refunded | EpochExpired | Replayed | RejectedFor(reason: string) | ManualReview

  /** An outbox row. */
  datatype Outbox = Outbox(state: RowState, availableAt: int, lease: Lease, tries: nat, result: Result)

  datatype Receipt = Consumed | Stale

  datatype Job = Job(
    state: JobState,
    attempt: Attempt,
    charge: Outbox,
    refund: Option<Outbox>,
    dispatch: Option<Outbox>,
    receipt: Option<Receipt>)

  const FRESH_ROW := Outbox(Pending, 0, Free, 0, NoResult)

  const FRESH_JOB := Job(PendingCredit, Attempt(AwaitingCredit, Free, 0), FRESH_ROW, None, None, None)

  // ---- what every committed state satisfies ----------------------------------------------------

  predicate Paired(job: JobState, attempt: AttemptState) {
    match attempt
    case AwaitingCredit => job == PendingCredit
    case Charging => job == PendingCredit
    case AttemptReady => job == Ready
    case Executing => job == Running
    case Completed => job == Succeeded
    case Rejected => job == BillingRejected
    case FailedPendingRefund => job == RefundPending
    case FailedRefunded => job == Failed
  }

  /** The charge was finalized as successful. */
  predicate Paid(state: AttemptState) {
    state in {AttemptReady, Executing, Completed, FailedPendingRefund, FailedRefunded}
  }

  predicate Failing(state: AttemptState) { state == FailedPendingRefund || state == FailedRefunded }

  /** A row is leased exactly while it is processed, and has a result exactly once it is finished. */
  predicate RowOk(r: Outbox) {
    (r.state == Processing <==> r.lease.Held?) && (r.state == Pending || r.state == Processing ==> r.result == NoResult)
  }

  predicate ChargeRowOk(r: Outbox, state: AttemptState) {
    && RowOk(r)
    && (state == AwaitingCredit ==> r.state == Pending)
    && (state == Charging ==> r.state != Done)
    && (state == Rejected ==> r.state == Done && r.result.RejectedFor?)
    && (Paid(state) ==> r.state == Done && (r.result == Charged || r.result == Replayed))
  }

  predicate RefundRowOk(r: Outbox, state: AttemptState) {
    && RowOk(r)
    && (state == FailedPendingRefund ==> r.state != Done)
    && (state == FailedRefunded ==> r.state == Done && r.result in {Refunded, Replayed, EpochExpired})
  }

  /** The job, its attempt and its outbox rows agree. */
  predicate JobOk(j: Job) {
    && Paired(j.state, j.attempt.state)
    && (j.attempt.state == Executing <==> j.attempt.lease.Held?)
    && ChargeRowOk(j.charge, j.attempt.state)
    && (j.refund.Some? <==> Failing(j.attempt.state))
    && (j.refund.Some? ==> RefundRowOk(j.refund.value, j.attempt.state))
    && (j.dispatch.Some? <==> Paid(j.attempt.state))
    && (j.dispatch.Some? ==> (j.dispatch.value.state == Processing <==> j.dispatch.value.lease.Held?))
    && (j.receipt.Some? <==> Paid(j.attempt.state) && j.attempt.state != AttemptReady)
    && (j.receipt.Some? ==> j.receipt.value == Consumed)
  }

  predicate Over(state: AttemptState) { state == Completed || Failing(state) }

  /** A job and the history of its execution tell the same story. */
  ghost predicate FenceOk(j: Job, h: seq<Event>, id: JobId) {
    && GenerationOf(h, id) == j.attempt.generation
    && HolderOf(h, id) == (if j.attempt.lease.Held? then Holder(j.attempt.lease.token, j.attempt.lease.until)
                            else Nobody)
    && (HasEnded(h, id) <==> Over(j.attempt.state))
  }

  ghost predicate WorkflowOk(jobs: map<JobId, Job>, h: seq<Event>) {
    && Fenced(h)
    && (forall id :: id in jobs ==> JobOk(jobs[id]) && FenceOk(jobs[id], h, id))
    && (forall i :: 0 <= i < |h| ==> h[i].job in jobs)
  }

  function Row(j: Job, op: Operation): Option<Outbox> {
    if op == Charge then Some(j.charge) else j.refund
  }

  function WithRow(j: Job, op: Operation, r: Outbox): Job {
    if op == Charge then j.(charge := r) else j.(refund := Some(r))
  }

  // ---- keeping it ---------------------------------------------------------------------------------

  lemma JobAt(jobs: map<JobId, Job>, h: seq<Event>, id: JobId)
    requires WorkflowOk(jobs, h) && id in jobs
    ensures JobOk(jobs[id]) && FenceOk(jobs[id], h, id) && Fenced(h)
  {}

  /** A step of one job outside its execution. */
  lemma QuietStep(jobs: map<JobId, Job>, h: seq<Event>, id: JobId, j: Job)
    requires WorkflowOk(jobs, h) && id in jobs && JobOk(j)
    requires j.attempt.generation == jobs[id].attempt.generation && j.attempt.lease == jobs[id].attempt.lease
    requires Over(j.attempt.state) <==> Over(jobs[id].attempt.state)
    ensures WorkflowOk(jobs[id := j], h)
  {
    hide JobOk, Fenced, HolderOf, GenerationOf, HasEnded, Over;
  }

  /** A step that the job's execution history records. */
  lemma FencedStep(jobs: map<JobId, Job>, h: seq<Event>, id: JobId, j: Job, e: Event)
    requires WorkflowOk(jobs, h) && id in jobs && JobOk(j)
    requires e.job == id && Allowed(h, e) && !Over(jobs[id].attempt.state)
    requires j.attempt.generation == (if e.Issued? then e.generation else jobs[id].attempt.generation)
    requires j.attempt.lease == Free <==> e.Ended?
    requires !e.Ended? ==> j.attempt.lease == Held(e.token, e.until)
    requires Over(j.attempt.state) <==> e.Ended?
    ensures WorkflowOk(jobs[id := j], h + [e])
  {
    Extend(h, e);
    var g := h + [e];
    assert Fenced(g) by {
      assert g[..|g| - 1] == h && g[|g| - 1] == e;
    }
    hide JobOk, Allowed, Fenced, HolderOf, GenerationOf, HasEnded, Over;
    forall i | 0 <= i < |h + [e]| ensures (h + [e])[i].job in jobs[id := j] {}
  }

  lemma NewJobStep(jobs: map<JobId, Job>, h: seq<Event>, id: JobId)
    requires WorkflowOk(jobs, h) && id !in jobs
    ensures WorkflowOk(jobs[id := FRESH_JOB], h)
  {
    Unheard(h, id);
  }

  /** A job no event mentions has neither holder nor generation. */
  lemma {:induction false} Unheard(h: seq<Event>, id: JobId)
    requires forall i :: 0 <= i < |h| ==> h[i].job != id
    ensures HolderOf(h, id) == Nobody && GenerationOf(h, id) == 0 && !HasEnded(h, id)
  {
    if |h| > 0 {
      Unheard(h[..|h| - 1], id);
    }
  }
}
