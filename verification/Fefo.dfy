/** First-expiring-first-out spending, and why no other order can do better. */
module Fefo {
  import opened Basics
  import opened LedgerTables

  /** Something a charge may draw on. */
  datatype Fund = Fund(source: Source, expiresAt: int, available: int)

  /** What each fund pays: all it has until the amount is covered. */
  function Draw(pool: seq<Fund>, amount: int): (used: seq<int>)
    ensures |used| == |pool|
  {
    if |pool| == 0 then []
    else
      var used := Max(0, Min(amount, pool[0].available));
      [used] + Draw(pool[1..], amount - used)
  }

  function Total(s: seq<int>): int { if |s| == 0 then 0 else s[0] + Total(s[1..]) }

  function Available(pool: seq<Fund>): int { if |pool| == 0 then 0 else pool[0].available + Available(pool[1..]) }

  ghost predicate Stocked(pool: seq<Fund>) { forall i :: 0 <= i < |pool| ==> 0 <= pool[i].available }

  ghost predicate ByExpiry(pool: seq<Fund>) {
    forall i, j :: 0 <= i < j < |pool| ==> pool[i].expiresAt <= pool[j].expiresAt
  }

  /** A way of paying `amount` out of `pool`, in any order. */
  ghost predicate Pays(pool: seq<Fund>, used: seq<int>, amount: int) {
    && |used| == |pool| && Total(used) == amount
    && forall i :: 0 <= i < |pool| ==> 0 <= used[i] <= pool[i].available
  }

  function After(pool: seq<Fund>, used: seq<int>): (r: seq<Fund>)
    requires |used| == |pool|
    ensures |r| == |pool|
    ensures forall i :: 0 <= i < |pool| ==> r[i] == pool[i].(available := pool[i].available - used[i])
  {
    if |pool| == 0 then [] else [pool[0].(available := pool[0].available - used[0])] + After(pool[1..], used[1..])
  }

  /** A charge is paid exactly whenever the pool covers it, and draws on a fund only once all
      earlier ones are empty. */
  lemma {:induction false} DrawPays(pool: seq<Fund>, amount: int)
    requires Stocked(pool) && 0 <= amount <= Available(pool)
    ensures Pays(pool, Draw(pool, amount), amount)
    ensures forall i, j :: 0 <= i < j < |pool| && Draw(pool, amount)[j] > 0 ==>
      Draw(pool, amount)[i] == pool[i].available
  {
    if |pool| > 0 {
      var used := Min(amount, pool[0].available);
      AvailableNonNegative(pool[1..]);
      DrawPays(pool[1..], amount - used);
      if used < pool[0].available {
        DrawNothing(pool[1..]);
      }
    }
  }

  lemma {:induction false} DrawNothing(pool: seq<Fund>)
    requires Stocked(pool)
    ensures forall i :: 0 <= i < |pool| ==> Draw(pool, 0)[i] == 0
  {
    if |pool| > 0 {
      DrawNothing(pool[1..]);
    }
  }

  lemma {:induction false} AvailableNonNegative(pool: seq<Fund>)
    requires Stocked(pool)
    ensures 0 <= Available(pool)
  {
    if |pool| > 0 {
      AvailableNonNegative(pool[1..]);
    }
  }

  // ---- dominance ----------------------------------------------------------------------------

  /** Atoms of the pool still unexpired after `cutoff`. */
  function LeftAfter(pool: seq<Fund>, cutoff: int): int {
    if |pool| == 0 then 0
    else (if pool[0].expiresAt > cutoff then pool[0].available else 0) + LeftAfter(pool[1..], cutoff)
  }

  /** `p` and `q` hold the same funds, and at every future cutoff `p` has at least as much left
      of them and, counting everything, as much in total. */
  ghost predicate Dominates(p: seq<Fund>, q: seq<Fund>) {
    && |p| == |q| && (forall i :: 0 <= i < |p| ==> p[i].expiresAt == q[i].expiresAt)
    && forall k :: 0 <= k <= |p| ==> Available(p[k..]) >= Available(q[k..])
  }

  /** With funds in expiry order, what is left after a cutoff is a tail of the pool. */
  lemma {:induction false} LeftAfterIsTail(p: seq<Fund>, q: seq<Fund>, cutoff: int) returns (k: nat)
    requires ByExpiry(p) && |p| == |q| && forall i :: 0 <= i < |p| ==> p[i].expiresAt == q[i].expiresAt
    ensures k <= |p| && LeftAfter(p, cutoff) == Available(p[k..]) && LeftAfter(q, cutoff) == Available(q[k..])
  {
    if |p| == 0 {
      k := 0;
    } else if p[0].expiresAt > cutoff {
      AllLeft(p, cutoff);
      AllLeft(q, cutoff);
      assert p[0..] == p && q[0..] == q;
      k := 0;
    } else {
      k := LeftAfterIsTail(p[1..], q[1..], cutoff);
      assert p[1..][k..] == p[k + 1..] && q[1..][k..] == q[k + 1..];
      k := k + 1;
    }
  }

  lemma {:induction false} AllLeft(p: seq<Fund>, cutoff: int)
    requires forall i :: 0 <= i < |p| ==> p[i].expiresAt > cutoff
    ensures LeftAfter(p, cutoff) == Available(p)
  {
    if |p| > 0 {
      AllLeft(p[1..], cutoff);
    }
  }

  /** The meaning of dominance: never fewer credits alive after any instant. */
  lemma DominanceIsSurvival(p: seq<Fund>, q: seq<Fund>, cutoff: int)
    requires Dominates(p, q) && ByExpiry(p)
    ensures LeftAfter(p, cutoff) >= LeftAfter(q, cutoff)
  {
    var k := LeftAfterIsTail(p, q, cutoff);
  }

  /** What the later funds pay is what the earlier ones could not. */
  lemma {:induction false} DrawTail(p: seq<Fund>, amount: int, k: nat)
    requires Stocked(p) && 0 <= amount && k <= |p|
    ensures Draw(p, amount)[k..] == Draw(p[k..], Max(0, amount - Available(p[..k])))
  {
    if k == 0 {
      assert p[0..] == p && Draw(p, amount)[0..] == Draw(p, amount);
    } else {
      var used := Min(amount, p[0].available);
      DrawTail(p[1..], amount - used, k - 1);
      assert Draw(p, amount)[k..] == Draw(p[1..], amount - used)[k - 1..];
      assert p[1..][k - 1..] == p[k..] && p[..k][1..] == p[1..][..k - 1];
      AvailableNonNegative(p[1..][..k - 1]);
    }
  }

  /** After drawing, a tail keeps all it had, or the pool up to it is used up. */
  lemma TailAfterDraw(p: seq<Fund>, amount: int, k: nat)
    requires Stocked(p) && 0 <= amount <= Available(p) && k <= |p|
    ensures Available(After(p, Draw(p, amount))[k..]) == Min(Available(p[k..]), Available(p) - amount)
  {
    var rest := Max(0, amount - Available(p[..k]));
    AvailableSplit(p, k);
    StockedSplit(p, k);
    TailOfDraw(p, amount, k);
    LeftInTail(p[k..], rest);
  }

  /** A tail of what is left is what is left of the tail. */
  lemma TailOfDraw(p: seq<Fund>, amount: int, k: nat)
    requires Stocked(p) && 0 <= amount && k <= |p|
    ensures Available(After(p, Draw(p, amount))[k..])
         == Available(After(p[k..], Draw(p[k..], Max(0, amount - Available(p[..k])))))
  {
    DrawTail(p, amount, k);
    TailAfter(p, Draw(p, amount), k);
  }

  lemma StockedSplit(p: seq<Fund>, k: nat)
    requires Stocked(p) && k <= |p|
    ensures Stocked(p[..k]) && Stocked(p[k..]) && 0 <= Available(p[..k]) && 0 <= Available(p[k..])
  {
    AvailableNonNegative(p[..k]);
    AvailableNonNegative(p[k..]);
  }

  lemma LeftInTail(q: seq<Fund>, amount: int)
    requires Stocked(q) && 0 <= amount <= Available(q)
    ensures Available(After(q, Draw(q, amount))) == Available(q) - amount
  {
    DrawPays(q, amount);
    AfterTotal(q, Draw(q, amount));
  }

  lemma {:induction false} AvailableSplit(p: seq<Fund>, k: nat)
    requires k <= |p|
    ensures Available(p) == Available(p[..k]) + Available(p[k..])
  {
    if k == 0 {
      assert p[0..] == p;
    } else {
      AvailableSplit(p[1..], k - 1);
      assert p[1..][..k - 1] == p[..k][1..] && p[1..][k - 1..] == p[k..];
    }
  }

  lemma {:induction false} AfterTotal(q: seq<Fund>, used: seq<int>)
    requires |used| == |q|
    ensures Available(After(q, used)) == Available(q) - Total(used)
  {
    if |q| > 0 {
      AfterTotal(q[1..], used[1..]);
    }
  }

  lemma {:induction false} TailAfter(q: seq<Fund>, used: seq<int>, k: nat)
    requires |used| == |q| && k <= |q|
    ensures After(q, used)[k..] == After(q[k..], used[k..])
  {}

  /** However the other strategy pays, a tail of its pool has at most what it had before, and
      at most what its whole pool has left. */
  lemma TailAfterPaying(q: seq<Fund>, used: seq<int>, amount: int, k: nat)
    requires Pays(q, used, amount) && k <= |q|
    ensures Available(After(q, used)[k..]) <= Available(q[k..])
    ensures Available(After(q, used)[k..]) <= Available(q) - amount
  {
    var a := After(q, used);
    AfterTotal(q, used);
    AvailableSplit(a, k);
    AvailableNonNegative(a[..k]);
    TailAfter(q, used, k);
    AfterTotal(q[k..], used[k..]);
    TotalNonNegative(used[k..]);
  }

  lemma {:induction false} TotalNonNegative(s: seq<int>)
    requires forall i :: 0 <= i < |s| ==> 0 <= s[i]
    ensures 0 <= Total(s)
  {
    if |s| > 0 {
      TotalNonNegative(s[1..]);
    }
  }

  /** One charge: if any strategy on a dominated pool can pay, so can FEFO, and it stays ahead. */
  lemma ChargeKeepsDominance(p: seq<Fund>, q: seq<Fund>, used: seq<int>, amount: int)
    requires Stocked(p) && Dominates(p, q) && Pays(q, used, amount) && 0 <= amount
    ensures amount <= Available(p)
    ensures Dominates(After(p, Draw(p, amount)), After(q, used))
    ensures Stocked(After(p, Draw(p, amount)))
  {
    CoveredToo(p, q, used, amount);
    DrawPays(p, amount);
    forall k | 0 <= k <= |p|
      ensures Available(After(p, Draw(p, amount))[k..]) >= Available(After(q, used)[k..])
    {
      assert Available(p[k..]) >= Available(q[k..]);
      TailStaysAhead(p, q, used, amount, k);
    }
  }

  lemma CoveredToo(p: seq<Fund>, q: seq<Fund>, used: seq<int>, amount: int)
    requires Dominates(p, q) && Pays(q, used, amount)
    ensures amount <= Available(q) <= Available(p)
  {
    assert p[0..] == p && q[0..] == q;
    AfterTotal(q, used);
    AvailableNonNegative(After(q, used));
  }

  lemma TailStaysAhead(p: seq<Fund>, q: seq<Fund>, used: seq<int>, amount: int, k: nat)
    requires Stocked(p) && Pays(q, used, amount) && |q| == |p| && k <= |p|
    requires 0 <= amount <= Available(q) <= Available(p) && Available(q[k..]) <= Available(p[k..])
    ensures Available(After(p, Draw(p, amount))[k..]) >= Available(After(q, used)[k..])
  {
    hide Draw, After, Available, Pays;
    TailAfterDraw(p, amount, k);
    TailAfterPaying(q, used, amount, k);
  }

  /** Time passing: funds expired by `now` drop out of both pools. */
  function Alive(pool: seq<Fund>, now: int): seq<Fund> {
    if |pool| == 0 then []
    else if pool[0].expiresAt > now then pool
    else Alive(pool[1..], now)
  }

  lemma {:induction false} TimeKeepsDominance(p: seq<Fund>, q: seq<Fund>, now: int)
    requires Stocked(p) && ByExpiry(p) && Dominates(p, q)
    ensures Dominates(Alive(p, now), Alive(q, now)) && Stocked(Alive(p, now)) && ByExpiry(Alive(p, now))
    ensures forall i :: 0 <= i < |Alive(p, now)| ==> Alive(p, now)[i].expiresAt > now
  {
    if |p| > 0 && p[0].expiresAt <= now {
      forall k | 0 <= k <= |p[1..]|
        ensures Available(p[1..][k..]) >= Available(q[1..][k..])
      {
        assert p[1..][k..] == p[k + 1..] && q[1..][k..] == q[k + 1..];
      }
      TimeKeepsDominance(p[1..], q[1..], now);
    }
  }

  // ---- whole runs ------------------------------------------------------------------------------

  /** A history of charges and of time passing; `used` is how another strategy pays. */
  datatype Event = Charge(amount: nat, used: seq<int>) | Advance(now: int)

  /** The other strategy's pool after the history, if it could pay every charge. */
  ghost predicate Feasible(q: seq<Fund>, run: seq<Event>)
    decreases |run|
  {
    |run| == 0 ||
    match run[0]
    case Charge(amount, used) => Pays(q, used, amount) && Feasible(After(q, used), run[1..])
    case Advance(now) => Feasible(Alive(q, now), run[1..])
  }

  ghost function Outcome(q: seq<Fund>, run: seq<Event>): seq<Fund>
    requires Feasible(q, run)
    decreases |run|
  {
    if |run| == 0 then q
    else match run[0]
      case Charge(amount, used) => Outcome(After(q, used), run[1..])
      case Advance(now) => Outcome(Alive(q, now), run[1..])
  }

  /** FEFO's pool after the same charges. */
  function FefoOutcome(p: seq<Fund>, run: seq<Event>): seq<Fund>
    decreases |run|
  {
    if |run| == 0 then p
    else match run[0]
      case Charge(amount, _) =>
        FefoOutcome(After(p, Draw(p, amount)), run[1..])
      case Advance(now) => FefoOutcome(Alive(p, now), run[1..])
  }

  /** FEFO accepted every charge of the history. */
  ghost predicate FefoPays(p: seq<Fund>, run: seq<Event>)
    decreases |run|
  {
    |run| == 0 ||
    match run[0]
    case Charge(amount, _) =>
      amount <= Available(p) && FefoPays(After(p, Draw(p, amount)), run[1..])
    case Advance(now) => FefoPays(Alive(p, now), run[1..])
  }

  /** Over any history of charges and expiry on the same funds, FEFO can pay whatever any other
      strategy can pay, and at the end has at least as much left for every future instant. */
  lemma {:induction false} FefoIsOptimal(p: seq<Fund>, q: seq<Fund>, run: seq<Event>)
    requires Stocked(p) && ByExpiry(p) && Dominates(p, q) && Feasible(q, run)
    ensures FefoPays(p, run)
    ensures Dominates(FefoOutcome(p, run), Outcome(q, run)) && ByExpiry(FefoOutcome(p, run))
    decreases |run|
  {
    if |run| > 0 {
      match run[0]
      case Charge(amount, used) =>
        ChargeKeepsDominance(p, q, used, amount);
        FefoIsOptimal(After(p, Draw(p, amount)), After(q, used), run[1..]);
      case Advance(now) =>
        TimeKeepsDominance(p, q, now);
        FefoIsOptimal(Alive(p, now), Alive(q, now), run[1..]);
    }
  }

  /** In particular, from one pool: no other way of paying leaves more alive after any cutoff. */
  lemma FefoLeavesMost(pool: seq<Fund>, run: seq<Event>, cutoff: int)
    requires Stocked(pool) && ByExpiry(pool) && Feasible(pool, run)
    ensures FefoPays(pool, run)
    ensures LeftAfter(FefoOutcome(pool, run), cutoff) >= LeftAfter(Outcome(pool, run), cutoff)
  {
    FefoIsOptimal(pool, pool, run);
    DominanceIsSurvival(FefoOutcome(pool, run), Outcome(pool, run), cutoff);
  }
}
