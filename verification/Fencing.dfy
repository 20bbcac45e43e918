/** Execution fencing: what a history of leases, renewals and endings must look like. */
module Fencing {

  /** `Issued` hands a job's execution to a new token, `Ended` completes or fails it; a lease runs from
      `at` until `until`. */
  datatype Event =
    | Issued(job: nat, token: nat, generation: nat, at: int, until: int)
    | Renewed(job: nat, token: nat, at: int, until: int)
    | Ended(job: nat, token: nat, success: bool, at: int)

  datatype Holding = Nobody | Holder(token: nat, until: int)

  /** Who may act on the job after the history, and how long: the last token issued, until the job ends. */
  function HolderOf(h: seq<Event>, job: nat): Holding {
    if |h| == 0 then Nobody
    else
      var e := h[|h| - 1];
      if e.job != job then HolderOf(h[..|h| - 1], job)
      else if e.Ended? then Nobody else Holder(e.token, e.until)
  }

  function GenerationOf(h: seq<Event>, job: nat): nat {
    if |h| == 0 then 0
    else if h[|h| - 1].Issued? && h[|h| - 1].job == job then h[|h| - 1].generation
    else GenerationOf(h[..|h| - 1], job)
  }

  predicate HasEnded(h: seq<Event>, job: nat) {
    exists i :: 0 <= i < |h| && h[i].Ended? && h[i].job == job
  }

  /** A step taken by the token then in charge while its lease is live; a new token is fresh, of a higher
      generation, and given out only once the lease before it has run out, never for a job that has ended. */
  ghost predicate Allowed(past: seq<Event>, e: Event) {
    match e
    case Issued(j, t, g, at, _) =>
      && !HasEnded(past, j) && GenerationOf(past, j) < g
      && (HolderOf(past, j).Holder? ==> HolderOf(past, j).until <= at)
      && forall i :: 0 <= i < |past| ==> past[i].token != t
    case Renewed(j, t, at, _) => HeldAt(past, j, t, at)
    case Ended(j, t, _, at) => HeldAt(past, j, t, at)
  }

  /** The token holds a live lease on the job. */
  predicate HeldAt(past: seq<Event>, job: nat, token: nat, at: int) {
    HolderOf(past, job).Holder? && HolderOf(past, job).token == token && at < HolderOf(past, job).until
  }

  ghost predicate Fenced(h: seq<Event>) {
    |h| == 0 || (Fenced(h[..|h| - 1]) && Allowed(h[..|h| - 1], h[|h| - 1]))
  }

  lemma {:induction false} EachIsAllowed(h: seq<Event>, k: nat)
    requires Fenced(h) && k < |h|
    ensures Fenced(h[..k]) && Allowed(h[..k], h[k])
    ensures forall i :: 0 <= i < k ==> h[..k][i] == h[i]
    decreases |h|
  {
    if k < |h| - 1 {
      EachIsAllowed(h[..|h| - 1], k);
      assert h[..|h| - 1][..k] == h[..k];
    }
  }

  /** A holder's token was issued, and nobody else has been issued the job since. */
  lemma {:induction false} HolderIsLatest(h: seq<Event>, job: nat) returns (i: nat)
    requires Fenced(h) && HolderOf(h, job).Holder?
    ensures i < |h| && h[i].Issued? && h[i].job == job && h[i].token == HolderOf(h, job).token
    ensures forall k :: i < k < |h| && h[k].job == job ==> h[k].Renewed? && h[k].token == h[i].token
  {
    var n := |h| - 1;
    if h[n].Issued? && h[n].job == job {
      i := n;
    } else {
      i := HolderIsLatest(h[..n], job);
    }
  }

  /** Whoever holds the job got the current lease in the last event about it. */
  lemma {:induction false} HolderIsLast(h: seq<Event>, job: nat) returns (i: nat)
    requires HolderOf(h, job).Holder?
    ensures i < |h| && h[i].job == job && !h[i].Ended?
    ensures h[i].token == HolderOf(h, job).token && h[i].until == HolderOf(h, job).until
    ensures forall k :: i < k < |h| ==> h[k].job != job
  {
    var n := |h| - 1;
    if h[n].job == job {
      i := n;
    } else {
      i := HolderIsLast(h[..n], job);
    }
  }

  /** Renewing and ending happen while the lease last given to that very token is live. */
  lemma ActsWhileLive(h: seq<Event>, k: nat) returns (i: nat)
    requires Fenced(h) && k < |h| && !h[k].Issued?
    ensures i < k && h[i].job == h[k].job && h[i].token == h[k].token && !h[i].Ended? && h[k].at < h[i].until
    ensures forall j :: i < j < k ==> h[j].job != h[k].job
  {
    EachIsAllowed(h, k);
    i := HolderIsLast(h[..k], h[k].job);
    assert h[..k][i] == h[i];
    forall j | i < j < k ensures h[j].job != h[k].job { assert h[..k][j] == h[j]; }
  }

  /** A job changes hands only once the lease last given for it has run out. */
  lemma TakenOverAfterExpiry(h: seq<Event>, i: nat, k: nat)
    requires Fenced(h) && i < k < |h| && h[k].Issued? && h[i].job == h[k].job
    requires forall j :: i < j < k ==> h[j].job != h[k].job
    ensures !h[i].Ended? && h[i].until <= h[k].at
  {
    EachIsAllowed(h, k);
    IssuedBeforeTheEnd(h, k);
    LastDecides(h[..k], i);
  }

  lemma {:induction false} LastDecides(h: seq<Event>, i: nat)
    requires i < |h| && !h[i].Ended? && forall j :: i < j < |h| ==> h[j].job != h[i].job
    ensures HolderOf(h, h[i].job) == Holder(h[i].token, h[i].until)
  {
    if i < |h| - 1 {
      LastDecides(h[..|h| - 1], i);
    }
  }

  // ---- at one instant ------------------------------------------------------------------------------

  /** The clock did not run backwards. */
  ghost predicate Clocked(h: seq<Event>) { forall i, j :: 0 <= i < j < |h| ==> h[i].at <= h[j].at }

  /** No lease ends as it begins. */
  ghost predicate Lasting(h: seq<Event>) { forall i :: 0 <= i < |h| && !h[i].Ended? ==> h[i].at < h[i].until }

  /** At `t`, after the first `k` events of the history, the token holds a live lease on the job. */
  ghost predicate LiveAt(h: seq<Event>, k: nat, job: nat, token: nat, t: int) {
    && k <= |h| && (k > 0 ==> h[k - 1].at <= t) && (k < |h| ==> t <= h[k].at)
    && HeldAt(h[..k], job, token, t)
  }

  /** Two live tokens of one job never coexist. */
  lemma OneLiveToken(h: seq<Event>, job: nat, k: nat, token: nat, m: nat, other: nat, t: int)
    requires Fenced(h) && Clocked(h) && Lasting(h) && LiveAt(h, k, job, token, t) && LiveAt(h, m, job, other, t)
    ensures token == other
  {
    if k <= m {
      StillHeld(h, job, k, token, m, t);
    } else {
      StillHeld(h, job, m, other, k, t);
    }
  }

  /** At the instant `t` a live holder can only give way to an ended job. */
  lemma {:induction false} StillHeld(h: seq<Event>, job: nat, k: nat, token: nat, m: nat, t: int)
    requires Fenced(h) && Clocked(h) && Lasting(h) && LiveAt(h, k, job, token, t) && k <= m <= |h|
    requires m > k ==> h[m - 1].at <= t
    ensures HeldAt(h[..m], job, token, t) || (HolderOf(h[..m], job) == Nobody && HasEnded(h[..m], job))
    decreases m
  {
    if k < m {
      var n := m - 1;
      StillHeld(h, job, k, token, n, t);
      EachIsAllowed(h, n);
      assert h[..m] == h[..n] + [h[n]];
      assert h[n].at == t;
      Extend(h[..n], h[n]);
    }
  }

  /** No token is issued for a job that has ended. */
  lemma IssuedBeforeTheEnd(h: seq<Event>, j: nat)
    requires Fenced(h) && j < |h| && h[j].Issued?
    ensures forall i :: 0 <= i < j && h[i].Ended? ==> h[i].job != h[j].job
  {
    EachIsAllowed(h, j);
    forall i | 0 <= i < j && h[i].Ended? ensures h[i].job != h[j].job {
      assert h[..j][i] == h[i];
    }
  }

  /** A job ends at most once, and nothing happens to it afterwards. */
  lemma NothingAfterTheEnd(h: seq<Event>, k: nat)
    requires Fenced(h) && k < |h|
    ensures forall i :: 0 <= i < k && h[i].Ended? ==> h[i].job != h[k].job
  {
    EachIsAllowed(h, k);
    if h[k].Issued? {
      IssuedBeforeTheEnd(h, k);
    } else {
      var n := HolderIsLatest(h[..k], h[k].job);
      IssuedBeforeTheEnd(h, n);
      forall i | 0 <= i < k && h[i].Ended? ensures h[i].job != h[k].job {
        assert h[..k][i] == h[i];
      }
    }
  }

  /** Only the newest token of a job ever renews or ends it: a superseded one is powerless. */
  lemma OnlyTheNewestActs(h: seq<Event>, k: nat)
    requires Fenced(h) && k < |h| && !h[k].Issued?
    ensures exists n :: 0 <= n < k && h[n].Issued? && h[n].job == h[k].job && h[n].token == h[k].token
    ensures forall i, j :: 0 <= i < j < k && h[i].Issued? && h[j].Issued? && h[i].job == h[j].job == h[k].job ==>
      h[k].token != h[i].token
  {
    EachIsAllowed(h, k);
    var n := HolderIsLatest(h[..k], h[k].job);
    assert h[n] == h[..k][n];
    TokensAreFresh(h, n);
    forall i, j | 0 <= i < j < k && h[i].Issued? && h[j].Issued? && h[i].job == h[j].job == h[k].job
      ensures h[k].token != h[i].token
    {
      assert h[..k][j] == h[j];
    }
  }

  lemma TokensAreFresh(h: seq<Event>, n: nat)
    requires Fenced(h) && n < |h| && h[n].Issued?
    ensures forall i :: 0 <= i < n ==> h[i].token != h[n].token
  {
    EachIsAllowed(h, n);
    forall i | 0 <= i < n ensures h[i].token != h[n].token {
      assert h[..n][i] == h[i];
    }
  }

  /** Generations of one job strictly increase. */
  lemma GenerationsIncrease(h: seq<Event>, i: nat, j: nat)
    requires Fenced(h) && i < j < |h| && h[i].Issued? && h[j].Issued? && h[i].job == h[j].job
    ensures h[i].generation < h[j].generation
  {
    EachIsAllowed(h, j);
    LatestGeneration(h[..j], i);
  }

  lemma {:induction false} LatestGeneration(h: seq<Event>, i: nat)
    requires Fenced(h) && i < |h| && h[i].Issued?
    ensures h[i].generation <= GenerationOf(h, h[i].job)
  {
    var n := |h| - 1;
    if i < n {
      LatestGeneration(h[..n], i);
    }
  }

  // ---- extending a history -------------------------------------------------------------------

  lemma Extend(h: seq<Event>, e: Event)
    ensures (h + [e])[..|h|] == h
    ensures forall j :: e.job != j ==>
      HolderOf(h + [e], j) == HolderOf(h, j) && GenerationOf(h + [e], j) == GenerationOf(h, j)
    ensures HolderOf(h + [e], e.job) ==
      match e
      case Issued(_, t, _, _, until) => Holder(t, until)
      case Renewed(_, t, _, until) => Holder(t, until)
      case Ended(_, _, _, _) => Nobody
    ensures GenerationOf(h + [e], e.job) == if e.Issued? then e.generation else GenerationOf(h, e.job)
    ensures forall j :: HasEnded(h + [e], j) <==> HasEnded(h, j) || (e.Ended? && e.job == j)
  {
    assert (h + [e])[..|h|] == h;
    forall j ensures HasEnded(h + [e], j) <==> HasEnded(h, j) || (e.Ended? && e.job == j) {
      if HasEnded(h, j) {
        var i :| 0 <= i < |h| && h[i].Ended? && h[i].job == j;
        assert (h + [e])[i] == h[i];
      }
      if e.Ended? && e.job == j {
        assert (h + [e])[|h|] == e;
      }
    }
  }
}
