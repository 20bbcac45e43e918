/** The signing-key provider: threads share one key snapshot, one refresh budget and one bounded
    cache of unknown key ids. Each method of the gate is one critical section. */
module KeyRefresh {
  import opened Basics

  datatype Key = Key(kid: string, material: nat)

  /** An immutable published key set; `version` is its identity. */
  datatype Snapshot = Snapshot(keys: seq<Key>, expiresAt: int, version: nat)

  datatype Config = Config(cacheSeconds: nat, cooldown: nat, unknownSize: nat, unknownTtl: nat)

  /** Bounds the constructor of the verification settings enforces. */
  predicate ConfigOk(c: Config) {
    1 <= c.cooldown <= c.cacheSeconds && 1 <= c.unknownSize && 1 <= c.unknownTtl
  }

  datatype Miss = Miss(kid: string, expiresAt: int)

  /** What a thread learns when it asks for a key. */
  datatype Verdict =
    | Found(key: Key)
    | Missing
    | InProgress                       // another key id is being refreshed
    | Waits                            // the same key id is being refreshed
    | CoolingDown
    | Refreshes(reservedUntil: int)    // the thread must now fetch the key set

  function Match(keys: seq<Key>, kid: string): Option<Key> {
    if |keys| == 0 then None else if keys[0].kid == kid then Some(keys[0]) else Match(keys[1..], kid)
  }

  lemma {:induction false} MatchFinds(keys: seq<Key>, kid: string)
    ensures Match(keys, kid).Some? ==> Match(keys, kid).value in keys && Match(keys, kid).value.kid == kid
    ensures Match(keys, kid).None? ==> forall k :: k in keys ==> k.kid != kid
  {
    if |keys| > 0 && keys[0].kid != kid {
      MatchFinds(keys[1..], kid);
    }
  }

  // ---- the negative cache, oldest first -------------------------------------------------------

  function Without(s: seq<Miss>, kid: string): (r: seq<Miss>)
    ensures |r| <= |s| && (forall m :: m in r <==> m in s && m.kid != kid)
  {
    if |s| == 0 then [] else (if s[0].kid == kid then [] else [s[0]]) + Without(s[1..], kid)
  }

  function Lookup(s: seq<Miss>, kid: string): (r: Option<Miss>)
    ensures r.Some? ==> r.value in s && r.value.kid == kid
    ensures r.None? ==> forall m :: m in s ==> m.kid != kid
  {
    if |s| == 0 then None else if s[0].kid == kid then Some(s[0]) else Lookup(s[1..], kid)
  }

  /** The last `size` entries: the oldest are evicted first. */
  function Newest(s: seq<Miss>, size: nat): seq<Miss> { if |s| > size then s[|s| - size..] else s }

  /** One fetch of the key set from the identity provider. */
  datatype Fetch = Fetch(started: int, completed: int)

  /** Every fetch started at least one cooldown after the previous one started and completed. */
  ghost predicate Spaced(log: seq<Fetch>, cooldown: nat) {
    && (forall i :: 0 <= i < |log| ==> log[i].started <= log[i].completed)
    && (forall i :: 0 < i < |log| ==>
          log[i - 1].completed + cooldown <= log[i].started && log[i - 1].started + cooldown <= log[i].started)
  }

  /** A key id is remembered once. */
  ghost predicate OnceEach(unknown: seq<Miss>) {
    forall i, j :: 0 <= i < j < |unknown| ==> unknown[i].kid != unknown[j].kid
  }

  /** The negative cache is bounded; no observation outlives the next allowed refresh, or contradicts
      the published keys. */
  ghost predicate MissesOk(unknown: seq<Miss>, snapshot: Option<Snapshot>, nextRefreshAt: int, size: nat) {
    && |unknown| <= size && OnceEach(unknown)
    && forall m :: m in unknown ==>
      m.expiresAt <= nextRefreshAt && snapshot.Some? && Match(snapshot.value.keys, m.kid).None?
  }

  /** Past fetches are spaced, and the next one will be too. */
  ghost predicate TimesOk(log: seq<Fetch>, fetching: bool, startedAt: int, nextRefreshAt: int, cooldown: nat) {
    && Spaced(log, cooldown)
    && (fetching ==> startedAt + cooldown == nextRefreshAt)
    && (|log| > 0 ==>
          var last := log[|log| - 1];
          var earliest := if fetching then startedAt else nextRefreshAt;
          last.completed + cooldown <= earliest && last.started + cooldown <= earliest)
  }

  /** The key id was missed and the observation still holds. */
  ghost predicate Recent(unknown: seq<Miss>, kid: string, now: int) {
    exists m :: m in unknown && m.kid == kid && now < m.expiresAt
  }

  lemma RecentIsLookedUp(unknown: seq<Miss>, kid: string, now: int)
    requires OnceEach(unknown)
    ensures Recent(unknown, kid, now) <==>
      Lookup(unknown, kid).Some? && now < Lookup(unknown, kid).value.expiresAt
  {
    var hit := Lookup(unknown, kid);
    forall m | m in unknown && m.kid == kid ensures hit == Some(m) {
      var i :| 0 <= i < |unknown| && unknown[i] == m;
      var j :| 0 <= j < |unknown| && unknown[j] == hit.value;
    }
  }

  lemma {:induction false} WithoutDistinct(s: seq<Miss>, kid: string)
    requires OnceEach(s)
    ensures OnceEach(Without(s, kid))
    ensures forall m: Miss :: m.kid == kid ==> OnceEach(Without(s, kid) + [m])
  {
    if |s| > 0 {
      WithoutDistinct(s[1..], kid);
      var rest := Without(s[1..], kid);
      forall i | 0 <= i < |rest| ensures rest[i].kid != s[0].kid {
        assert rest[i] in rest;
        var k :| 0 <= k < |s[1..]| && s[1..][k] == rest[i];
        assert s[k + 1] == rest[i];
      }
      forall i | 0 <= i < |Without(s, kid)| ensures Without(s, kid)[i].kid != kid {
        assert Without(s, kid)[i] in Without(s, kid);
      }
    }
  }

  class RefreshGate {
    const config: Config
    var snapshot: Option<Snapshot>
    var nextRefreshAt: int
    var inflight: Option<string>        // the key id being refreshed
    var lastFailed: bool
    var unknown: seq<Miss>
    var versions: nat
    ghost var log: seq<Fetch>           // completed fetches
    ghost var startedAt: int            // start of the fetch in flight

    ghost predicate Valid()
      reads this
    {
      && ConfigOk(config) && MissesOk(unknown, snapshot, nextRefreshAt, config.unknownSize)
      && TimesOk(log, inflight.Some?, startedAt, nextRefreshAt, config.cooldown)
      && (snapshot.Some? ==> snapshot.value.version < versions)
      && (snapshot.None? && inflight.None? && !lastFailed ==> nextRefreshAt == 0)
      // after a successful refresh the next one is allowed before the snapshot expires
      && (inflight.None? && !lastFailed && snapshot.Some? ==> nextRefreshAt <= snapshot.value.expiresAt)
    }

    constructor (c: Config)
      requires ConfigOk(c)
      ensures Valid() && config == c && log == [] && unknown == [] && inflight == None && snapshot == None
      ensures nextRefreshAt == 0 && !lastFailed
    {
      config := c;
      snapshot, nextRefreshAt, inflight, lastFailed, unknown, versions := None, 0, None, false, [], 0;
      log, startedAt := [], 0;
    }

    /** Looks the key id up among recent misses; a lapsed entry is dropped, a live one becomes the
        most recent. */
    method UnknownIsCached(kid: string, now: int) returns (cached: bool)
      requires Valid()
      modifies this`unknown
      ensures Valid()
      ensures cached ==> now < nextRefreshAt && snapshot.Some? && Match(snapshot.value.keys, kid).None?
      ensures cached <==> Lookup(old(unknown), kid).Some? && now < Lookup(old(unknown), kid).value.expiresAt
      ensures unknown == match Lookup(old(unknown), kid)
                         case None => old(unknown)
                         case Some(hit) => Without(old(unknown), kid) + (if cached then [hit] else [])
      ensures forall m :: m in unknown ==> m in old(unknown)
      ensures cached ==> |unknown| > 0 && unknown[|unknown| - 1].kid == kid && now < unknown[|unknown| - 1].expiresAt
    {
      var hit := Lookup(unknown, kid);
      WithoutDistinct(unknown, kid);
      hide OnceEach;
      if hit.None? { return false; }
      if now >= hit.value.expiresAt {
        unknown := Without(unknown, kid);
        return false;
      }
      Shorter(unknown, kid, hit.value);
      unknown := Without(unknown, kid) + [hit.value];
      return true;
    }

    method RememberUnknown(kid: string, now: int)
      requires Valid() && snapshot.Some? && Match(snapshot.value.keys, kid).None?
      modifies this`unknown
      ensures Valid()
      ensures unknown == Newest(Without(old(unknown), kid) + [Miss(kid, Min(now + config.unknownTtl, nextRefreshAt))],
                                config.unknownSize)
      ensures |unknown| > 0 && unknown[|unknown| - 1] == Miss(kid, Min(now + config.unknownTtl, nextRefreshAt))
    {
      hide Without, MissesOk, TimesOk;
      ghost var before := unknown;
      RememberedOk(before, Miss(kid, Min(now + config.unknownTtl, nextRefreshAt)), snapshot, nextRefreshAt,
                   config.unknownSize);
      var all := Without(unknown, kid) + [Miss(kid, Min(now + config.unknownTtl, nextRefreshAt))];
      var kept := all;
      while |kept| > config.unknownSize
        invariant |kept| <= |all| && kept == all[|all| - |kept|..] && (|kept| == |all| || config.unknownSize <= |kept|)
      {
        kept := kept[1..];
      }
      assert kept == Newest(all, config.unknownSize);
      unknown := kept;
    }

    lemma RecentHere(kid: string, now: int)
      requires Valid()
      ensures Recent(unknown, kid, now) <==>
        Lookup(unknown, kid).Some? && now < Lookup(unknown, kid).value.expiresAt
    {
      RecentIsLookedUp(unknown, kid, now);
    }

    /** What a thread finds inside the lock at `now`. */
    method Admit(kid: string, now: int) returns (v: Verdict)
      requires Valid() && 0 <= now
      modifies this`unknown, this`inflight, this`nextRefreshAt, this`lastFailed, this`startedAt
      ensures Valid()
      // a live known key is always answered, and never waits
      ensures v.Found? <==> snapshot.Some? && now < snapshot.value.expiresAt && Match(snapshot.value.keys, kid).Some?
      ensures v.Found? ==> Match(snapshot.value.keys, kid) == Some(v.key)
      // a miss is reported only against the published keys
      ensures v == Missing ==> snapshot.Some? && Match(snapshot.value.keys, kid).None? && now < nextRefreshAt
      ensures v == Missing ==>
        |unknown| > 0 && unknown[|unknown| - 1].kid == kid && now < unknown[|unknown| - 1].expiresAt
      // at most one refresh, never inside the cooldown
      ensures v.Refreshes? ==>
        && old(inflight).None? && inflight == Some(kid) && old(nextRefreshAt) <= now && startedAt == now
        && v.reservedUntil == nextRefreshAt == now + config.cooldown && !lastFailed
      ensures !v.Refreshes? ==>
        inflight == old(inflight) && nextRefreshAt == old(nextRefreshAt) && startedAt == old(startedAt)
          && lastFailed == old(lastFailed)
      // a recent miss answers even while a refresh runs; otherwise it decides, and then the cooldown does
      ensures !v.Found? && Recent(old(unknown), kid, now) ==> v == Missing
      ensures !v.Found? && !Recent(old(unknown), kid, now) ==>
        && (v == InProgress <==> old(inflight).Some? && old(inflight).value != kid)
        && (v == Waits <==> old(inflight) == Some(kid))
        && (v == CoolingDown <==>
              && old(inflight).None? && now < old(nextRefreshAt)
              && (old(lastFailed) || (snapshot.Some? && Match(snapshot.value.keys, kid).Some?)))
        && (v == Missing <==>
              && old(inflight).None? && now < old(nextRefreshAt)
              && !old(lastFailed) && (snapshot.Some? ==> Match(snapshot.value.keys, kid).None?))
      // the first thread after the cooldown refreshes, whatever misses were cached
      ensures old(inflight).None? && old(nextRefreshAt) <= now && !v.Found? ==> v.Refreshes?
    {
      hide MissesOk, Spaced, Newest, Without, Lookup, Recent;
      if snapshot.Some? && now < snapshot.value.expiresAt && Match(snapshot.value.keys, kid).Some? {
        return Found(Match(snapshot.value.keys, kid).value);
      }
      RecentHere(kid, now);
      var cached := UnknownIsCached(kid, now);
      if cached { return Missing; }
      if inflight.Some? {
        return if inflight.value != kid then InProgress else Waits;
      }
      if now < nextRefreshAt {
        if lastFailed || (snapshot.Some? && Match(snapshot.value.keys, kid).Some?) {
          return CoolingDown;
        }
        RememberUnknown(kid, now);
        return Missing;
      }
      LaterIsOk(unknown, snapshot, nextRefreshAt, now + config.cooldown, config.unknownSize);
      inflight := Some(kid);
      nextRefreshAt := now + config.cooldown;
      lastFailed := false;
      startedAt := now;
      v := Refreshes(nextRefreshAt);
    }

    /** The fetching thread publishes what it got, or that it got nothing. */
    method Complete(fetched: Option<seq<Key>>, reservedUntil: int, completedAt: int)
      returns (published: Option<Snapshot>)
      requires Valid() && inflight.Some? && reservedUntil == nextRefreshAt && startedAt <= completedAt
      modifies this
      ensures Valid() && inflight.None? && log == old(log) + [Fetch(old(startedAt), completedAt)]
      ensures nextRefreshAt == if reservedUntil <= completedAt + config.cooldown then completedAt + config.cooldown
        else reservedUntil
      ensures fetched.Some? ==>
        && published == snapshot == Some(Snapshot(fetched.value, completedAt + config.cacheSeconds, old(versions)))
        && unknown == [] && !lastFailed && nextRefreshAt <= snapshot.value.expiresAt
      ensures versions == old(versions) + (if fetched.Some? then 1 else 0)
      ensures fetched.None? ==> published.None? && snapshot == old(snapshot) && unknown == old(unknown) && lastFailed
    {
      inflight := None;
      nextRefreshAt := if reservedUntil <= completedAt + config.cooldown then completedAt + config.cooldown
        else reservedUntil;
      lastFailed := fetched.None?;
      log := log + [Fetch(startedAt, completedAt)];
      published := None;
      if fetched.Some? {
        published := Some(Snapshot(fetched.value, completedAt + config.cacheSeconds, versions));
        snapshot := published;
        versions := versions + 1;
        unknown := [];
      }
    }

    /** The fetching thread's own key id was not among the keys it fetched. */
    method AfterMiss(kid: string, fetched: Snapshot, now: int) returns (v: Verdict)
      requires Valid() && snapshot.Some? && Match(fetched.keys, kid).None?
      requires fetched.version == snapshot.value.version ==> fetched == snapshot.value
      modifies this`unknown
      ensures Valid()
      ensures v == if Match(snapshot.value.keys, kid).Some? then Found(Match(snapshot.value.keys, kid).value)
        else Missing
      ensures v == Missing ==> |unknown| > 0 && unknown[|unknown| - 1].kid == kid
    {
      if snapshot.value.version != fetched.version {
        if Match(snapshot.value.keys, kid).Some? {
          return Found(Match(snapshot.value.keys, kid).value);
        }
      }
      RememberUnknown(kid, now);
      v := Missing;
    }

    lemma FetchStart()
      requires Valid() && inflight.Some?
      ensures startedAt == nextRefreshAt - config.cooldown
    {}
  }

  lemma {:induction false} Shorter(s: seq<Miss>, kid: string, m: Miss)
    requires m in s && m.kid == kid
    ensures |Without(s, kid)| < |s|
  {
    if s[0].kid != kid {
      Shorter(s[1..], kid, m);
    }
  }

  /** The newest misses, the latest among them, are a cache again. */
  lemma RememberedOk(unknown: seq<Miss>, m: Miss, snapshot: Option<Snapshot>, nextRefreshAt: int, size: nat)
    requires MissesOk(unknown, snapshot, nextRefreshAt, size) && m.expiresAt <= nextRefreshAt
    requires snapshot.Some? && Match(snapshot.value.keys, m.kid).None?
    ensures MissesOk(Newest(Without(unknown, m.kid) + [m], size), snapshot, nextRefreshAt, size)
  {
    WithoutDistinct(unknown, m.kid);
    hide Without, Match;
    var all := Without(unknown, m.kid) + [m];
    forall x | x in Newest(all, size) ensures x in all {}
  }

  lemma LaterIsOk(unknown: seq<Miss>, snapshot: Option<Snapshot>, at: int, later: int, size: nat)
    requires MissesOk(unknown, snapshot, at, size) && at <= later
    ensures MissesOk(unknown, snapshot, later, size)
  {}

  /** Whatever threads ask for, the number of fetches is bounded by time alone. */
  lemma {:induction false} FetchBudget(log: seq<Fetch>, cooldown: nat, i: nat, j: nat)
    requires Spaced(log, cooldown) && i <= j < |log|
    ensures log[i].started + (j - i) * cooldown <= log[j].started
    decreases j
  {
    if i < j {
      FetchBudget(log, cooldown, i, j - 1);
      assert (j - i) * cooldown == (j - 1 - i) * cooldown + cooldown;
    }
  }

  // ---- threads ---------------------------------------------------------------------------------------

  /** Where a verifying thread is: between calls, fetching, or about to report its own miss. */
  datatype Thread = Idle | Fetching(kid: string, reservedUntil: int) | Reporting(wanted: string, fetched: Snapshot)

  /** A fetching thread reads the clock before it waits for the lock, `delay` earlier. */
  datatype Action =
    | Ask(asker: nat, kid: string)
    | Return(fetcher: nat, fetched: Option<seq<Key>>, delay: nat)
    | Report(reporter: nat)

  function Actor(action: Action): nat {
    match action
    case Ask(t, _) => t
    case Return(t, _, _) => t
    case Report(t) => t
  }

  /** The parts of the gate that threads rely on. */
  datatype Shared = Shared(inflight: Option<string>, nextRefreshAt: int, snapshot: Option<Snapshot>, versions: nat)

  predicate ThreadOk(t: Thread, g: Shared) {
    match t
    case Idle => true
    case Fetching(kid, reservedUntil) => g.inflight == Some(kid) && reservedUntil == g.nextRefreshAt
    case Reporting(wanted, fetched) =>
      && g.snapshot.Some? && fetched.version < g.versions && Match(fetched.keys, wanted).None?
      && (fetched.version == g.snapshot.value.version ==> fetched == g.snapshot.value)
  }

  /** At most one thread is fetching, and it is the one the gate admitted. */
  ghost predicate ThreadsOk(threads: seq<Thread>, g: Shared) {
    && (forall t, u :: 0 <= t < u < |threads| && threads[t].Fetching? ==> !threads[u].Fetching?)
    && (forall t :: 0 <= t < |threads| ==> ThreadOk(threads[t], g))
  }

  lemma Admitted(threads: seq<Thread>, g: Shared, t: nat, kid: string, reservedUntil: int)
    requires ThreadsOk(threads, g) && t < |threads| && g.inflight.None?
    ensures ThreadsOk(threads[t := Fetching(kid, reservedUntil)],
                      g.(inflight := Some(kid), nextRefreshAt := reservedUntil))
  {
    forall u | 0 <= u < |threads| ensures !threads[u].Fetching? && (threads[u].Reporting? ==> ThreadOk(threads[u], g)) {
      assert ThreadOk(threads[u], g);
    }
  }

  /** A thread that fetched hands over to whatever the gate now says. */
  lemma HandedOver(threads: seq<Thread>, g: Shared, t: nat, h: Shared, next: Thread)
    requires ThreadsOk(threads, g) && t < |threads| && threads[t].Fetching? && !next.Fetching? && ThreadOk(next, h)
    requires g.versions <= h.versions
    requires h.snapshot == g.snapshot || (h.snapshot.Some? && h.snapshot.value.version == g.versions)
    ensures ThreadsOk(threads[t := next], h)
  {
    forall u | 0 <= u < |threads| && u != t ensures ThreadOk(threads[u], h) {
      assert ThreadOk(threads[u], g);
    }
  }

  ghost function View(gate: RefreshGate): Shared
    reads gate
  {
    Shared(gate.inflight, gate.nextRefreshAt, gate.snapshot, gate.versions)
  }

  method Step(gate: RefreshGate, threads: seq<Thread>, action: Action, now: int) returns (after: seq<Thread>)
    requires gate.Valid() && ThreadsOk(threads, View(gate)) && (gate.inflight.Some? ==> gate.startedAt <= now)
    requires 0 <= now
    modifies gate
    ensures gate.Valid() && ThreadsOk(after, View(gate)) && |after| == |threads|
    ensures old(gate.log) <= gate.log
    ensures gate.inflight.Some? ==> gate.startedAt <= now
    // a thread that the gate admits fetches, and a fetch ends for the gate when its thread returns
    ensures forall t :: 0 <= t < |threads| && t != Actor(action) ==> after[t] == threads[t]
    ensures !action.Return? ==> gate.log == old(gate.log)
    ensures action.Ask? && action.asker < |threads| ==>
      after[action.asker] == if old(gate.inflight).None? && gate.inflight.Some?
                             then Fetching(action.kid, gate.nextRefreshAt) else threads[action.asker]
    ensures action.Ask? && action.asker < |threads| && threads[action.asker].Idle? ==>
      || gate.inflight.Some? || now < gate.nextRefreshAt
      || (gate.snapshot.Some? && now < gate.snapshot.value.expiresAt
          && Match(gate.snapshot.value.keys, action.kid).Some?)
    ensures action.Return? && action.fetcher < |threads| && threads[action.fetcher].Fetching? ==>
      && gate.inflight.None? && gate.log == old(gate.log) + [Fetch(old(gate.startedAt), Max(old(gate.startedAt),
                                                                                             now - action.delay))]
      && (if action.fetched.Some? && Match(action.fetched.value, threads[action.fetcher].kid).None?
          then gate.snapshot.Some?
               && after[action.fetcher] == Reporting(threads[action.fetcher].kid, gate.snapshot.value)
          else after[action.fetcher] == Idle)
    ensures action.Report? && action.reporter < |threads| && threads[action.reporter].Reporting? ==>
      after[action.reporter] == Idle
  {
    hide RefreshGate.Valid, ThreadsOk;
    after := threads;
    ghost var g := View(gate);
    match action
    case Ask(t, kid) =>
      if t < |threads| && threads[t].Idle? {
        var v := gate.Admit(kid, now);
        if v.Refreshes? {
          Admitted(threads, g, t, kid, v.reservedUntil);
          after := threads[t := Fetching(kid, v.reservedUntil)];
        }
      }
    case Return(t, fetched, delay) =>
      if t < |threads| && threads[t].Fetching? {
        ThreadAt(threads, g, t);
        var kid := threads[t].kid;
        var started := threads[t].reservedUntil - gate.config.cooldown;
        gate.FetchStart();
        var published := gate.Complete(fetched, threads[t].reservedUntil, if now - delay < started then started
                                       else now - delay);
        var next := if published.Some? && Match(published.value.keys, kid).None? then Reporting(kid, published.value)
          else Idle;
        HandedOver(threads, g, t, View(gate), next);
        after := threads[t := next];
      }
    case Report(t) =>
      if t < |threads| && threads[t].Reporting? {
        ThreadAt(threads, g, t);
        var v := gate.AfterMiss(threads[t].wanted, threads[t].fetched, now);
        WentIdle(threads, g, t);
        after := threads[t := Idle];
      }
  }

  lemma ThreadAt(threads: seq<Thread>, g: Shared, t: nat)
    requires ThreadsOk(threads, g) && t < |threads|
    ensures ThreadOk(threads[t], g)
  {}

  lemma WentIdle(threads: seq<Thread>, g: Shared, t: nat)
    requires ThreadsOk(threads, g) && t < |threads|
    ensures ThreadsOk(threads[t := Idle], g)
  {}

  /** Over any schedule of any number of threads asking for any key ids. */
  method Run(config: Config, threadCount: nat, schedule: seq<(Action, int)>) returns (gate: RefreshGate)
    requires ConfigOk(config)
    requires forall i, j :: 0 <= i < j < |schedule| ==> schedule[i].1 <= schedule[j].1
    requires forall i :: 0 <= i < |schedule| ==> 0 <= schedule[i].1
    ensures gate.Valid() && Spaced(gate.log, config.cooldown) && |gate.unknown| <= config.unknownSize
  {
    gate := new RefreshGate(config);
    var threads := seq(threadCount, i => Idle);
    var i := 0;
    while i < |schedule|
      invariant 0 <= i <= |schedule| && fresh(gate) && gate.Valid() && gate.config == config
      invariant ThreadsOk(threads, View(gate))
      invariant gate.inflight.Some? ==> i > 0 && gate.startedAt <= schedule[i - 1].1
    {
      threads := Step(gate, threads, schedule[i].0, schedule[i].1);
      i := i + 1;
    }
  }
}
