/** The host's job store. Each method is one database transaction at the clock reading `now`; in
    between, any number of workers interleave, crash, or come back with stale claims. */
module JobWorkflow {
  import opened Basics
  import opened Fencing
  import opened JobTables
  import opened JobSteps

  datatype BillingKey = BillingKey(job: JobId, operation: Operation)

  /** A worker's claim on a billing row, good while the row still holds its token. */
  datatype BillingClaim = BillingClaim(key: BillingKey, token: nat)

  datatype DispatchClaim = DispatchClaim(job: JobId, token: nat)

  datatype ExecutionClaim = ExecutionClaim(job: JobId, token: nat, generation: nat)

  /** What the caller asked for; one request key never stands for two of these. */
  datatype Terms = Terms(owner: string, amount: nat, payload: string)

  datatype Request = Request(job: JobId, terms: Terms)

  datatype Submission = Submission(job: JobId, created: bool) | KeyConflict

  /** `Broken` is the workflow invariant error. */
  datatype Answer = Yes | No | Broken

  datatype Delivery = Begun(claim: ExecutionClaim) | Duplicate | Unknown | BrokenDelivery

  /** Tokens come from a counter, so a new one differs from all before it. */
  ghost predicate TokensBelow(jobs: map<JobId, Job>, h: seq<Event>, next: nat) {
    && (forall i :: 0 <= i < |h| ==> h[i].token < next)
    && (forall id :: id in jobs ==>
          && (jobs[id].charge.lease.Held? ==> jobs[id].charge.lease.token < next)
          && (jobs[id].refund.Some? && jobs[id].refund.value.lease.Held? ==> jobs[id].refund.value.lease.token < next)
          && (jobs[id].dispatch.Some? && jobs[id].dispatch.value.lease.Held? ==>
                jobs[id].dispatch.value.lease.token < next))
  }

  ghost predicate RequestsOk(requests: map<string, Request>, jobs: map<JobId, Job>, nextJob: nat) {
    && (forall id :: id in jobs ==> id < nextJob)
    && (forall r :: r in requests ==> requests[r].job in jobs)
    && (forall r, s :: r in requests && s in requests && r != s ==> requests[r].job != requests[s].job)
  }

  // ---- claiming a batch ----------------------------------------------------------------------

  predicate Claims(claims: seq<BillingClaim>, id: JobId) { exists c :: c in claims && c.key.job == id }

  predicate Takes(claims: seq<DispatchClaim>, id: JobId) { exists c :: c in claims && c.job == id }

  predicate MayClaimIn(jobs: map<JobId, Job>, key: BillingKey, now: int) {
    key.job in jobs && Claimable(jobs[key.job], key.operation, now)
  }

  predicate MayDispatchIn(jobs: map<JobId, Job>, id: JobId, now: int) {
    id in jobs && jobs[id].dispatch.Some? && Due(jobs[id].dispatch.value, now)
  }

  /** From `x` to `y` exactly the claimable of `rows` were claimed. */
  ghost predicate BatchClaimed(x: map<JobId, Job>, y: map<JobId, Job>, claims: seq<BillingClaim>, rows: seq<BillingKey>,
                               token: nat, until: int, now: int) {
    && y.Keys == x.Keys
    && (forall c :: c in claims ==>
          && c.token == token && c.key in rows && MayClaimIn(x, c.key, now) && c.key.job in y
          && y[c.key.job] == Claimed(x[c.key.job], c.key.operation, token, until))
    && (forall id :: id in y && !Claims(claims, id) ==> y[id] == x[id])
    && (forall k :: k in rows && MayClaimIn(x, k, now) ==> Claims(claims, k.job))
  }

  lemma NothingClaimed(x: map<JobId, Job>, token: nat, until: int, now: int)
    ensures BatchClaimed(x, x, [], [], token, until, now)
  {}

  lemma NothingTaken(x: map<JobId, Job>, token: nat, until: int, now: int)
    ensures BatchSent(x, x, [], [], token, until, now)
  {}

  lemma ClaimNext(x: map<JobId, Job>, y: map<JobId, Job>, claims: seq<BillingClaim>, rows: seq<BillingKey>,
                  key: BillingKey, token: nat, until: int, now: int)
    requires BatchClaimed(x, y, claims, rows, token, until, now)
    ensures Claims(claims, key.job) || !MayClaimIn(y, key, now) ==>
      BatchClaimed(x, y, claims, rows + [key], token, until, now)
    ensures !Claims(claims, key.job) && MayClaimIn(y, key, now) ==>
      BatchClaimed(x, y[key.job := Claimed(y[key.job], key.operation, token, until)],
                   claims + [BillingClaim(key, token)], rows + [key], token, until, now)
  {
    if !Claims(claims, key.job) && MayClaimIn(y, key, now) {
      var more := claims + [BillingClaim(key, token)];
      assert BillingClaim(key, token) in more && forall c :: c in claims ==> c in more;
    }
  }

  lemma BatchExcludes(x: map<JobId, Job>, y: map<JobId, Job>, claims: seq<BillingClaim>, rows: seq<BillingKey>,
                      token: nat, until: int, now: int)
    requires BatchClaimed(x, y, claims, rows, token, until, now) && forall id :: id in x ==> JobOk(x[id])
    ensures forall c :: c in claims ==>
      && c.key.job in y && Row(y[c.key.job], c.key.operation).Some?
      && Row(y[c.key.job], c.key.operation).value.lease == Held(token, until)
      && ClaimableFrom(y[c.key.job], c.key.operation, until)
  {
    hide JobOk, Claimable, Claimed, ClaimableFrom;
    forall c | c in claims
      ensures c.key.job in y && Row(y[c.key.job], c.key.operation).Some?
      ensures Row(y[c.key.job], c.key.operation).value.lease == Held(token, until)
      ensures ClaimableFrom(y[c.key.job], c.key.operation, until)
    {
      ClaimExcludes(x[c.key.job], c.key.operation, token, until, now);
    }
  }

  /** The same for dispatch rows. */
  ghost predicate BatchSent(x: map<JobId, Job>, y: map<JobId, Job>, claims: seq<DispatchClaim>, rows: seq<JobId>,
                            token: nat, until: int, now: int) {
    && y.Keys == x.Keys
    && (forall c :: c in claims ==>
          && c.token == token && c.job in rows && MayDispatchIn(x, c.job, now) && c.job in y
          && y[c.job] == Sent(x[c.job], token, until))
    && (forall id :: id in y && !Takes(claims, id) ==> y[id] == x[id])
    && (forall k :: k in rows && MayDispatchIn(x, k, now) ==> Takes(claims, k))
  }

  lemma TakeNext(x: map<JobId, Job>, y: map<JobId, Job>, claims: seq<DispatchClaim>, rows: seq<JobId>, id: JobId,
                 token: nat, until: int, now: int)
    requires BatchSent(x, y, claims, rows, token, until, now)
    ensures Takes(claims, id) || !MayDispatchIn(y, id, now) ==> BatchSent(x, y, claims, rows + [id], token, until, now)
    ensures !Takes(claims, id) && MayDispatchIn(y, id, now) ==>
      BatchSent(x, y[id := Sent(y[id], token, until)], claims + [DispatchClaim(id, token)], rows + [id], token, until,
                now)
  {
    if !Takes(claims, id) && MayDispatchIn(y, id, now) {
      var more := claims + [DispatchClaim(id, token)];
      assert DispatchClaim(id, token) in more && forall c :: c in claims ==> c in more;
    }
  }

  lemma SentExcludes(x: map<JobId, Job>, y: map<JobId, Job>, claims: seq<DispatchClaim>, rows: seq<JobId>, token: nat,
                     until: int, now: int)
    requires BatchSent(x, y, claims, rows, token, until, now)
    ensures forall c :: c in claims ==>
      && c.job in y && y[c.job].dispatch.Some? && DueFrom(y[c.job].dispatch.value, until)
      && y[c.job].dispatch.value.lease == Held(token, until)
  {}

  class JobWorkflowStore {
    var jobs: map<JobId, Job>
    var requests: map<string, Request>
    var nextJob: nat
    var nextToken: nat
    ghost var history: seq<Event>

    ghost predicate Valid()
      reads this
    {
      WorkflowOk(jobs, history) && TokensBelow(jobs, history, nextToken) && RequestsOk(requests, jobs, nextJob)
    }

    constructor ()
      ensures Valid() && jobs == map[] && history == [] && requests == map[]
    {
      jobs, requests, nextJob, nextToken, history := map[], map[], 0, 0, [];
    }

    // ---- submitting ---------------------------------------------------------------------------

    /** A request key creates at most one job, and never stands for different terms. */
    method SubmitJob(requestKey: string, terms: Terms) returns (r: Submission)
      requires Valid()
      modifies this`jobs, this`requests, this`nextJob
      ensures Valid()
      ensures r == KeyConflict <==> requestKey in old(requests) && old(requests[requestKey]).terms != terms
      ensures requestKey in old(requests) ==>
        && jobs == old(jobs) && requests == old(requests)
        && (r.Submission? ==> r == Submission(old(requests[requestKey]).job, false))
      ensures requestKey !in old(requests) ==>
        && r.Submission? && r.created && r.job !in old(jobs)
        && requests == old(requests)[requestKey := Request(r.job, terms)] && jobs == old(jobs)[r.job := FRESH_JOB]
    {
      hide WorkflowOk;
      if requestKey in requests {
        return if requests[requestKey].terms == terms then Submission(requests[requestKey].job, false) else KeyConflict;
      }
      var id := nextJob;
      NewJobStep(jobs, history, id);
      nextJob := nextJob + 1;
      requests := requests[requestKey := Request(id, terms)];
      jobs := jobs[id := FRESH_JOB];
      r := Submission(id, true);
    }

    // ---- billing claims -------------------------------------------------------------------------

    predicate MayClaim(key: BillingKey, now: int)
      reads this
    {
      MayClaimIn(jobs, key, now)
    }

    /** Takes the first `limit` claimable rows under one fresh token. `candidates` are the rows in queue
        order, without those another transaction has locked; `looked` is how far the batch got. */
    method ClaimBilling(candidates: seq<BillingKey>, limit: nat, leaseUntil: int, now: int)
      returns (claims: seq<BillingClaim>, ghost looked: nat)
      requires Valid()
      modifies this`jobs, this`nextToken
      ensures Valid() && nextToken == old(nextToken) + 1 && |claims| <= limit
      ensures looked <= |candidates| && (|claims| < limit ==> looked == |candidates|)
      ensures BatchClaimed(old(jobs), jobs, claims, candidates[..looked], old(nextToken), leaseUntil, now)
      // nobody else gets them before the lease ends
      ensures forall c :: c in claims ==>
        && c.key.job in jobs && Row(jobs[c.key.job], c.key.operation).Some?
        && Row(jobs[c.key.job], c.key.operation).value.lease == Held(old(nextToken), leaseUntil)
        && ClaimableFrom(jobs[c.key.job], c.key.operation, leaseUntil)
    {
      hide Valid, BatchClaimed, Claimed, Claimable, ClaimableFrom;
      ghost var x := jobs;
      JobsAreOk();
      claims := [];
      var token := nextToken;
      FreshToken();
      var i := 0;
      assert candidates[..0] == [] && BatchClaimed(x, x, [], [], token, leaseUntil,
                                                   now) by { NothingClaimed(x, token, leaseUntil, now); }
      while i < |candidates| && |claims| < limit
        invariant 0 <= i <= |candidates| && |claims| <= limit && Valid() && nextToken == token + 1
        invariant BatchClaimed(x, jobs, claims, candidates[..i], token, leaseUntil, now)
      {
        var key := candidates[i];
        assert candidates[..i + 1] == candidates[..i] + [key];
        ClaimNext(x, jobs, claims, candidates[..i], key, token, leaseUntil, now);
        // a job never has two claimable rows
        if !Claims(claims, key.job) && MayClaim(key, now) {
          ClaimOne(key, token, leaseUntil, now);
          claims := claims + [BillingClaim(key, token)];
        }
        i := i + 1;
      }
      looked := i;
      BatchExcludes(x, jobs, claims, candidates[..looked], token, leaseUntil, now);
    }

    lemma JobsAreOk()
      requires Valid()
      ensures forall id :: id in jobs ==> JobOk(jobs[id])
    {}

    method FreshToken()
      requires Valid()
      modifies this`nextToken
      ensures Valid() && nextToken == old(nextToken) + 1
    {
      hide WorkflowOk, RequestsOk;
      TokensGrow(jobs, history, nextToken, nextToken + 1);
      nextToken := nextToken + 1;
    }

    method ClaimOne(key: BillingKey, token: nat, leaseUntil: int, now: int)
      requires Valid() && MayClaim(key, now) && token < nextToken
      modifies this`jobs
      ensures Valid() && jobs == old(jobs)[key.job := Claimed(old(jobs[key.job]), key.operation, token, leaseUntil)]
    {
      hide Valid, Quiet, Claimed;
      ClaimIsQuiet(key, token, leaseUntil, now);
      Store(key.job, Claimed(jobs[key.job], key.operation, token, leaseUntil));
    }

    lemma ClaimIsQuiet(key: BillingKey, token: nat, leaseUntil: int, now: int)
      requires Valid() && MayClaim(key, now) && token < nextToken
      ensures Quiet(key.job, Claimed(jobs[key.job], key.operation, token, leaseUntil))
    {
      hide RequestsOk;
      JobAt(jobs, history, key.job);
      ClaimedOk(jobs[key.job], key.operation, token, leaseUntil, now);
      hide WorkflowOk, JobOk;
    }

    predicate Current(claim: BillingClaim, now: int)
      reads this
    {
      claim.key.job in jobs && LiveClaim(jobs[claim.key.job], claim.key.operation, claim.token, now)
    }

    /** Replaces one job by another that its history cannot tell apart. */
    ghost predicate Quiet(id: JobId, j: Job)
      reads this
    {
      && id in jobs && JobOk(j)
      && j.attempt.generation == jobs[id].attempt.generation && j.attempt.lease == jobs[id].attempt.lease
      && (Over(j.attempt.state) <==> Over(jobs[id].attempt.state))
      && (j.charge.lease.Held? ==> j.charge.lease.token < nextToken)
      && (j.refund.Some? && j.refund.value.lease.Held? ==> j.refund.value.lease.token < nextToken)
      && (j.dispatch.Some? && j.dispatch.value.lease.Held? ==> j.dispatch.value.lease.token < nextToken)
    }

    method Store(id: JobId, j: Job)
      requires Valid() && Quiet(id, j)
      modifies this`jobs
      ensures Valid() && jobs == old(jobs)[id := j]
    {
      hide WorkflowOk, TokensBelow, RequestsOk, JobOk, Over;
      QuietStep(jobs, history, id, j);
      TokensStored(jobs, history, nextToken, id, j);
      RequestsStored(requests, jobs, nextJob, id, j);
      jobs := jobs[id := j];
    }

    /** Facts about a claimed job, before its row is finalized. */
    lemma ClaimedJob(claim: BillingClaim)
      requires Valid() && claim.key.job in jobs && HeldBy(jobs[claim.key.job], claim.key.operation, claim.token)
      ensures JobOk(jobs[claim.key.job])
      ensures Quiet(claim.key.job, jobs[claim.key.job])
    {
      JobAt(jobs, history, claim.key.job);
    }

    // ---- finalizing billing ---------------------------------------------------------------------

    /** The charge went through: the job becomes ready and is queued for dispatch. */
    method FinalizeChargeSuccess(claim: BillingClaim, outcome: Result, now: int) returns (r: Answer)
      requires Valid() && claim.key.operation == Charge && outcome in {Charged, Replayed}
      modifies this`jobs
      ensures Valid() && r != Broken
      ensures r == Yes <==>
        && claim.key.job in old(jobs) && Row(old(jobs[claim.key.job]), claim.key.operation).Some?
        && LeaseLives(Row(old(jobs[claim.key.job]), claim.key.operation).value.lease, claim.token, now)
      ensures r == Yes ==> jobs == old(jobs)[claim.key.job := ChargeSucceeded(old(jobs[claim.key.job]), outcome)]
      ensures r == No ==> jobs == old(jobs)
    {
      hide WorkflowOk, TokensBelow, RequestsOk;
      JobIsOk(claim.key.job);
      if !Current(claim, now) { return No; }
      var id := claim.key.job;
      var job := jobs[id];
      ClaimedJob(claim);
      HeldRowIsCurrent(job, Charge, claim.token);
      FinalizedOk(job, Charge, claim.token);
      r := Broken;
      if job.attempt.state == Charging && job.state == PendingCredit && job.dispatch == None {
        Store(id, ChargeSucceeded(job, outcome));
        r := Yes;
      }
    }

    method FinalizeChargeRejected(claim: BillingClaim, reason: string, now: int) returns (r: Answer)
      requires Valid() && claim.key.operation == Charge
      modifies this`jobs
      ensures Valid() && r != Broken
      ensures r == Yes <==>
        && claim.key.job in old(jobs) && Row(old(jobs[claim.key.job]), claim.key.operation).Some?
        && LeaseLives(Row(old(jobs[claim.key.job]), claim.key.operation).value.lease, claim.token, now)
      ensures r == Yes ==> jobs == old(jobs)[claim.key.job := ChargeRejected(old(jobs[claim.key.job]), reason)]
      ensures r == No ==> jobs == old(jobs)
    {
      hide WorkflowOk, TokensBelow, RequestsOk;
      JobIsOk(claim.key.job);
      if !Current(claim, now) { return No; }
      var id := claim.key.job;
      var job := jobs[id];
      ClaimedJob(claim);
      HeldRowIsCurrent(job, Charge, claim.token);
      FinalizedOk(job, Charge, claim.token);
      r := Broken;
      if job.attempt.state == Charging && job.state == PendingCredit {
        Store(id, ChargeRejected(job, reason));
        r := Yes;
      }
    }

    method FinalizeRefundSuccess(claim: BillingClaim, outcome: Result, now: int) returns (r: Answer)
      requires Valid() && claim.key.operation == Refund && outcome in {Refunded, Replayed, EpochExpired}
      modifies this`jobs
      ensures Valid() && r != Broken
      ensures r == Yes <==>
        && claim.key.job in old(jobs) && Row(old(jobs[claim.key.job]), claim.key.operation).Some?
        && LeaseLives(Row(old(jobs[claim.key.job]), claim.key.operation).value.lease, claim.token, now)
      ensures r == Yes ==>
        && old(jobs[claim.key.job]).refund.Some?
        && jobs == old(jobs)[claim.key.job := RefundSucceeded(old(jobs[claim.key.job]), outcome)]
      ensures r == No ==> jobs == old(jobs)
    {
      hide WorkflowOk, TokensBelow, RequestsOk;
      JobIsOk(claim.key.job);
      if !Current(claim, now) { return No; }
      var id := claim.key.job;
      var job := jobs[id];
      ClaimedJob(claim);
      HeldRowIsCurrent(job, Refund, claim.token);
      FinalizedOk(job, Refund, claim.token);
      r := Broken;
      if job.attempt.state == FailedPendingRefund && job.state == RefundPending {
        Store(id, RefundSucceeded(job, outcome));
        r := Yes;
      }
    }

    /** Gives a row back for a later retry. The lease may have lapsed, but not changed hands. */
    method ReleaseBillingClaim(claim: BillingClaim, retryAt: int) returns (released: bool)
      requires Valid()
      modifies this`jobs
      ensures Valid()
      ensures released <==>
        && claim.key.job in old(jobs) && Row(old(jobs[claim.key.job]), claim.key.operation).Some?
        && Row(old(jobs[claim.key.job]), claim.key.operation).value.lease.Held?
        && Row(old(jobs[claim.key.job]), claim.key.operation).value.lease.token == claim.token
      ensures released ==> jobs == old(jobs)[claim.key.job := WithRow(old(jobs[claim.key.job]), claim.key.operation,
                                               Released(Row(old(jobs[claim.key.job]), claim.key.operation).value,
                                                        retryAt))]
      ensures released ==> ClaimableFrom(jobs[claim.key.job], claim.key.operation, retryAt)
      ensures !released ==> jobs == old(jobs)
    {
      hide WorkflowOk, TokensBelow, RequestsOk, ClaimableFrom;
      JobIsOk(claim.key.job);
      released := claim.key.job in jobs && HeldBy(jobs[claim.key.job], claim.key.operation, claim.token);
      if released {
        var job := jobs[claim.key.job];
        var row := Released(Row(job, claim.key.operation).value, retryAt);
        ClaimedJob(claim);
        HeldRowIsCurrent(job, claim.key.operation, claim.token);
        LetGoOk(job, claim.key.operation, claim.token, row);
        ReleaseWaits(job, claim.key.operation, claim.token, retryAt);
        Store(claim.key.job, WithRow(job, claim.key.operation, row));
      }
    }

    /** Stops retrying without claiming success; an operator must look. */
    method FinalizeBillingPermanentFailure(claim: BillingClaim, now: int) returns (done: bool)
      requires Valid()
      modifies this`jobs
      ensures Valid()
      ensures done <==>
        && claim.key.job in old(jobs) && Row(old(jobs[claim.key.job]), claim.key.operation).Some?
        && LeaseLives(Row(old(jobs[claim.key.job]), claim.key.operation).value.lease, claim.token, now)
      ensures done ==> jobs == old(jobs)[claim.key.job := WithRow(old(jobs[claim.key.job]), claim.key.operation,
                                           Row(old(jobs[claim.key.job]), claim.key.operation).value
                                             .(state := Abandoned, lease := Free, result := ManualReview))]
      ensures !done ==> jobs == old(jobs)
    {
      hide WorkflowOk, TokensBelow, RequestsOk;
      JobIsOk(claim.key.job);
      done := Current(claim, now);
      if done {
        var job := jobs[claim.key.job];
        var row := Row(job, claim.key.operation).value.(state := Abandoned, lease := Free, result := ManualReview);
        ClaimedJob(claim);
        LetGoOk(job, claim.key.operation, claim.token, row);
        Store(claim.key.job, WithRow(job, claim.key.operation, row));
      }
    }

    // ---- dispatch ---------------------------------------------------------------------------------

    predicate MayDispatch(id: JobId, now: int)
      reads this
    {
      MayDispatchIn(jobs, id, now)
    }

    /** Takes the first `limit` due dispatches under one fresh token, as `ClaimBilling` does. */
    method ClaimDispatch(candidates: seq<JobId>, limit: nat, leaseUntil: int, now: int)
      returns (claims: seq<DispatchClaim>, ghost looked: nat)
      requires Valid()
      modifies this`jobs, this`nextToken
      ensures Valid() && nextToken == old(nextToken) + 1 && |claims| <= limit
      ensures looked <= |candidates| && (|claims| < limit ==> looked == |candidates|)
      ensures BatchSent(old(jobs), jobs, claims, candidates[..looked], old(nextToken), leaseUntil, now)
      ensures forall c :: c in claims ==>
        && c.job in jobs && jobs[c.job].dispatch.Some? && DueFrom(jobs[c.job].dispatch.value, leaseUntil)
        && jobs[c.job].dispatch.value.lease == Held(old(nextToken), leaseUntil)
    {
      hide Valid, BatchSent, Sent, Due, DueFrom;
      ghost var x := jobs;
      claims := [];
      var token := nextToken;
      FreshToken();
      var i := 0;
      assert candidates[..0] == [] && BatchSent(x, x, [], [], token, leaseUntil,
                                                now) by { NothingTaken(x, token, leaseUntil, now); }
      while i < |candidates| && |claims| < limit
        invariant 0 <= i <= |candidates| && |claims| <= limit && Valid() && nextToken == token + 1
        invariant BatchSent(x, jobs, claims, candidates[..i], token, leaseUntil, now)
      {
        var id := candidates[i];
        assert candidates[..i + 1] == candidates[..i] + [id];
        TakeNext(x, jobs, claims, candidates[..i], id, token, leaseUntil, now);
        if !Takes(claims, id) && MayDispatch(id, now) {
          SendOne(id, token, leaseUntil, now);
          claims := claims + [DispatchClaim(id, token)];
        }
        i := i + 1;
      }
      looked := i;
      SentExcludes(x, jobs, claims, candidates[..looked], token, leaseUntil, now);
    }

    method SendOne(id: JobId, token: nat, leaseUntil: int, now: int)
      requires Valid() && MayDispatch(id, now) && token < nextToken
      modifies this`jobs
      ensures Valid() && jobs == old(jobs)[id := Sent(old(jobs[id]), token, leaseUntil)]
    {
      JobAt(jobs, history, id);
      hide WorkflowOk, RequestsOk;
      Store(id, Sent(jobs[id], token, leaseUntil));
    }

    predicate DispatchHeld(claim: DispatchClaim)
      reads this
    {
      && claim.job in jobs && jobs[claim.job].dispatch.Some? && jobs[claim.job].dispatch.value.state == Processing
      && jobs[claim.job].dispatch.value.lease.Held? && jobs[claim.job].dispatch.value.lease.token == claim.token
    }

    method FinalizeDispatch(claim: DispatchClaim, now: int) returns (done: bool)
      requires Valid()
      modifies this`jobs
      ensures Valid()
      ensures done <==>
        && claim.job in old(jobs) && old(jobs[claim.job]).dispatch.Some?
        && LeaseLives(old(jobs[claim.job]).dispatch.value.lease, claim.token, now)
      ensures done ==>
        jobs == old(jobs)[claim.job := old(jobs[claim.job]).(
                            dispatch := Some(Finished(old(jobs[claim.job]).dispatch.value, NoResult)))]
      ensures !done ==> jobs == old(jobs)
    {
      hide WorkflowOk, RequestsOk;
      JobIsOk(claim.job);
      done := DispatchHeld(claim) && now < jobs[claim.job].dispatch.value.lease.until;
      if done {
        JobAt(jobs, history, claim.job);
        Store(claim.job, jobs[claim.job].(dispatch := Some(Finished(jobs[claim.job].dispatch.value, NoResult))));
      }
    }

    method ReleaseDispatchClaim(claim: DispatchClaim, retryAt: int) returns (released: bool)
      requires Valid()
      modifies this`jobs
      ensures Valid()
      ensures released <==>
        && claim.job in old(jobs) && old(jobs[claim.job]).dispatch.Some?
        && old(jobs[claim.job]).dispatch.value.lease.Held?
        && old(jobs[claim.job]).dispatch.value.lease.token == claim.token
      ensures released ==>
        jobs == old(jobs)[claim.job := old(jobs[claim.job]).(
                            dispatch := Some(Released(old(jobs[claim.job]).dispatch.value, retryAt)))]
      ensures released ==> jobs[claim.job].dispatch.Some? && DueFrom(jobs[claim.job].dispatch.value, retryAt)
      ensures !released ==> jobs == old(jobs)
    {
      hide WorkflowOk, RequestsOk;
      JobIsOk(claim.job);
      released := DispatchHeld(claim);
      if released {
        JobAt(jobs, history, claim.job);
        Store(claim.job, jobs[claim.job].(dispatch := Some(Released(jobs[claim.job].dispatch.value, retryAt))));
      }
    }

    // ---- executing ----------------------------------------------------------------------------------

    /** Stores the outcome of an execution step together with the history it belongs to. */
    method Record(id: JobId, j: Job, ghost e: Event)
      requires Valid() && id in jobs && WorkflowOk(jobs[id := j], history + [e]) && e.token < nextToken
      requires j.charge == jobs[id].charge && j.dispatch == jobs[id].dispatch
      requires j.refund == jobs[id].refund || j.refund == Some(FRESH_ROW)
      modifies this`jobs, this`history
      ensures Valid() && jobs == old(jobs)[id := j] && history == old(history) + [e]
    {
      hide WorkflowOk;
      jobs := jobs[id := j];
      history := history + [e];
    }

    /** A queue message, delivered at least once, in any order. The first delivery of a dispatch that
        was published starts the job; every other changes nothing. */
    method ConsumeDispatch(id: JobId, leaseUntil: int, now: int) returns (r: Delivery)
      requires Valid()
      modifies this`jobs, this`nextToken, this`history
      ensures Valid() && r != BrokenDelivery
      ensures r == Unknown <==> !(id in old(jobs) && old(jobs[id]).dispatch.Some?
                                  && old(jobs[id]).dispatch.value.state in {Processing, Done})
      ensures r == Duplicate <==> r != Unknown && old(jobs[id]).receipt.Some?
      ensures r.Begun? ==>
        && old(jobs[id]).state == Ready
        && r.claim == ExecutionClaim(id, old(nextToken), old(jobs[id]).attempt.generation + 1)
        && jobs == old(jobs)[id := JobSteps.Started(old(jobs[id]), old(nextToken), leaseUntil)]
        && history == old(history) + [Issued(id, r.claim.token, r.claim.generation, now, leaseUntil)]
      ensures !r.Begun? ==> jobs == old(jobs) && history == old(history)
    {
      hide WorkflowOk, RequestsOk, TokensBelow;
      if !(id in jobs && jobs[id].dispatch.Some? && jobs[id].dispatch.value.state in {Processing, Done}) {
        return Unknown;
      }
      var job := jobs[id];
      if job.receipt.Some? { return Duplicate; }
      JobAt(jobs, history, id);
      FirstDeliveryFindsReady(job);
      r := BrokenDelivery;
      if job.attempt.state == AttemptReady && job.state == Ready {
        var token := nextToken;
        NextToken();
        StartedKeeps(jobs, history, id, token, leaseUntil, now);
        Record(id, JobSteps.Started(job, token, leaseUntil),
               Issued(id, token, job.attempt.generation + 1, now, leaseUntil));
        r := Begun(ExecutionClaim(id, token, job.attempt.generation + 1));
      }
    }

    /** Takes over an execution whose lease lapsed. */
    method ReclaimExecution(id: JobId, leaseUntil: int, now: int) returns (r: Option<ExecutionClaim>)
      requires Valid()
      modifies this`jobs, this`nextToken, this`history
      ensures Valid()
      ensures r.Some? <==>
        id in old(jobs) && old(jobs[id]).attempt.state == Executing && old(jobs[id]).attempt.lease.Held?
          && old(jobs[id]).attempt.lease.until <= now
      ensures r.Some? ==>
        && r.value == ExecutionClaim(id, old(nextToken), old(jobs[id]).attempt.generation + 1)
        && jobs == old(jobs)[id := Reissued(old(jobs[id]), old(nextToken), leaseUntil)]
        && history == old(history) + [Issued(id, r.value.token, r.value.generation, now, leaseUntil)]
      ensures r.None? ==> jobs == old(jobs) && history == old(history)
    {
      hide WorkflowOk, RequestsOk, TokensBelow;
      r := None;
      if id in jobs && jobs[id].attempt.state == Executing && jobs[id].attempt.lease.Held?
        && jobs[id].attempt.lease.until <= now {
        var job := jobs[id];
        JobAt(jobs, history, id);
        ExecutingIsPaid(job);
        if job.state == Running {
          var token := nextToken;
          NextToken();
          ReissuedKeeps(jobs, history, id, token, leaseUntil, now);
          Record(id, Reissued(job, token, leaseUntil), Issued(id, token, job.attempt.generation + 1, now, leaseUntil));
          r := Some(ExecutionClaim(id, token, job.attempt.generation + 1));
        }
      }
    }

    predicate Executes(execution: ExecutionClaim, now: int)
      reads this
    {
      execution.job in jobs && LiveHolder(jobs[execution.job], execution.token, now)
    }

    method RenewExecution(execution: ExecutionClaim, leaseUntil: int, now: int) returns (renewed: bool)
      requires Valid()
      modifies this`jobs, this`history
      ensures Valid()
      ensures renewed <==>
        execution.job in old(jobs) && LeaseLives(old(jobs[execution.job]).attempt.lease, execution.token, now)
      ensures renewed ==>
        && jobs == old(jobs)[execution.job := Extended(old(jobs[execution.job]), execution.token, leaseUntil)]
        && history == old(history) + [Renewed(execution.job, execution.token, now, leaseUntil)]
      ensures !renewed ==> jobs == old(jobs) && history == old(history)
    {
      hide WorkflowOk, RequestsOk, TokensBelow;
      JobIsOk(execution.job);
      renewed := Executes(execution, now);
      if renewed {
        HolderKeeps(jobs, history, execution.job, execution.token, leaseUntil, now);
        HolderToken(execution, now);
        Record(execution.job, Extended(jobs[execution.job], execution.token, leaseUntil),
               Renewed(execution.job, execution.token, now, leaseUntil));
      }
    }

    method CompleteExecution(execution: ExecutionClaim, now: int) returns (r: Answer)
      requires Valid()
      modifies this`jobs, this`history
      ensures Valid() && r != Broken
      ensures r == Yes <==>
        execution.job in old(jobs) && LeaseLives(old(jobs[execution.job]).attempt.lease, execution.token, now)
      ensures r == Yes ==>
        && jobs == old(jobs)[execution.job := Succeed(old(jobs[execution.job]))]
        && history == old(history) + [Ended(execution.job, execution.token, true, now)]
      ensures r == No ==> jobs == old(jobs) && history == old(history)
    {
      hide WorkflowOk, RequestsOk, TokensBelow;
      JobIsOk(execution.job);
      if !Executes(execution, now) { return No; }
      var job := jobs[execution.job];
      JobAt(jobs, history, execution.job);
      ExecutingIsPaid(job);
      HolderKeeps(jobs, history, execution.job, execution.token, 0, now);
      HolderToken(execution, now);
      r := Broken;
      if job.state == Running {
        Record(execution.job, Succeed(job), Ended(execution.job, execution.token, true, now));
        r := Yes;
      }
    }

    /** A terminal failure asks for the refund of the completed charge in the same transaction. */
    method FailExecution(execution: ExecutionClaim, now: int) returns (r: Answer)
      requires Valid()
      modifies this`jobs, this`history
      ensures Valid() && r != Broken
      ensures r == Yes <==>
        execution.job in old(jobs) && LeaseLives(old(jobs[execution.job]).attempt.lease, execution.token, now)
      ensures r == Yes ==>
        && jobs == old(jobs)[execution.job := JobSteps.Fail(old(jobs[execution.job]))]
        && history == old(history) + [Ended(execution.job, execution.token, false, now)]
      ensures r == No ==> jobs == old(jobs) && history == old(history)
    {
      hide WorkflowOk, RequestsOk, TokensBelow;
      JobIsOk(execution.job);
      if !Executes(execution, now) { return No; }
      var job := jobs[execution.job];
      JobAt(jobs, history, execution.job);
      ExecutingIsPaid(job);
      HolderKeeps(jobs, history, execution.job, execution.token, 0, now);
      HolderToken(execution, now);
      r := Broken;
      if job.state == Running && job.charge.state == Done && job.refund == None {
        Record(execution.job, JobSteps.Fail(job), Ended(execution.job, execution.token, false, now));
        r := Yes;
      }
    }

    /** Uses up the next token. */
    method NextToken()
      requires Valid()
      modifies this`nextToken
      ensures Valid() && nextToken == old(nextToken) + 1 && TokenIsFresh(history, old(nextToken))
    {
      hide WorkflowOk, RequestsOk;
      TokensGrow(jobs, history, nextToken, nextToken + 1);
      nextToken := nextToken + 1;
    }

    lemma JobIsOk(id: JobId)
      requires Valid()
      ensures id in jobs ==> JobOk(jobs[id])
    {
      if id in jobs { JobAt(jobs, history, id); }
    }

    lemma HistoryIsFenced()
      requires Valid()
      ensures Fenced(history)
    {}

    /** The current holder's token was issued before. */
    lemma HolderToken(execution: ExecutionClaim, now: int)
      requires Valid() && Executes(execution, now)
      ensures execution.token < nextToken
    {
      JobAt(jobs, history, execution.job);
      var i := HolderIsLatest(history, execution.job);
    }
  }

  lemma TokensStored(jobs: map<JobId, Job>, h: seq<Event>, next: nat, id: JobId, j: Job)
    requires TokensBelow(jobs, h, next)
    requires j.charge.lease.Held? ==> j.charge.lease.token < next
    requires j.refund.Some? && j.refund.value.lease.Held? ==> j.refund.value.lease.token < next
    requires j.dispatch.Some? && j.dispatch.value.lease.Held? ==> j.dispatch.value.lease.token < next
    ensures TokensBelow(jobs[id := j], h, next)
  {}

  lemma RequestsStored(requests: map<string, Request>, jobs: map<JobId, Job>, nextJob: nat, id: JobId, j: Job)
    requires RequestsOk(requests, jobs, nextJob) && id in jobs
    ensures RequestsOk(requests, jobs[id := j], nextJob)
  {}

  lemma TokensGrow(jobs: map<JobId, Job>, h: seq<Event>, n: nat, m: nat)
    requires TokensBelow(jobs, h, n) && n <= m
    ensures TokensBelow(jobs, h, m)
  {}
}
