/**
 The two token-bucket limiters of internal/api/middleware.go.  Elapsed seconds times the rate is
 computed exactly on nanoseconds and truncated, as the integer conversion does.
 */
module RateLimit {
  import opened Common

  const CLIENT_TTL: int := 600 * SECOND
  const CLEANUP_INTERVAL: int := 60 * SECOND
  const MAX_CLIENTS: nat := 10_000

  datatype Bucket = Bucket(tokens: int, lastSeen: int)

  /** Division that truncates toward zero. */
  function Truncated(x: int): int {
    if x >= 0 then x / SECOND else -(-x / SECOND)
  }

  function Earned(rate: int, elapsed: int): int {
    Truncated(elapsed * rate)
  }

  /** The bucket of a client that is seen for the first time, or again, and the answer it gets. */
  function Touch(rate: int, b: Option<Bucket>, now: int): (Bucket, bool) {
    match b
    case None => (Bucket(rate - 1, now), true)
    case Some(b) =>
      var tokens := Min(b.tokens + Earned(rate, now - b.lastSeen), rate);
      if tokens <= 0 then (Bucket(tokens, now), false) else (Bucket(tokens - 1, now), true)
  }

  function Lookup(m: map<string, Bucket>, key: string): Option<Bucket> {
    if key in m then Some(m[key]) else None
  }

  // ---------- the limiters ----------

  /** One request to the limiter that never forgets a key. */
  function NamespaceStep(rate: int, m: map<string, Bucket>, ns: string, now: int): (map<string, Bucket>, bool) {
    var (b, ok) := Touch(rate, Lookup(m, ns), now);
    (m[ns := b], ok)
  }

  class NamespaceLimiter {
    const rate: int
    var namespaces: map<string, Bucket>

    constructor (rate: int)
      ensures this.rate == rate && namespaces == map[]
    {
      this.rate := rate;
      namespaces := map[];
    }

    method Allow(ns: string, now: int) returns (ok: bool)
      modifies this
      ensures (namespaces, ok) == NamespaceStep(rate, old(namespaces), ns, now)
    {
      if ns !in namespaces {
        namespaces := namespaces[ns := Bucket(rate - 1, now)];
        return true;
      }
      var b := namespaces[ns];
      var tokens := b.tokens + Earned(rate, now - b.lastSeen);
      if tokens > rate {
        tokens := rate;
      }
      if tokens <= 0 {
        namespaces := namespaces[ns := Bucket(tokens, now)];
        return false;
      }
      namespaces := namespaces[ns := Bucket(tokens - 1, now)];
      return true;
    }
  }

  datatype IpState = IpState(clients: map<string, Bucket>, nextCleanup: int)

  datatype IpConfig = IpConfig(rate: int, ttl: int, interval: int, maxClients: nat)

  function Prune(clients: map<string, Bucket>, ttl: int, now: int): map<string, Bucket> {
    map ip | ip in clients && now - clients[ip].lastSeen < ttl :: clients[ip]
  }

  function IpStep(cfg: IpConfig, s: IpState, ip: string, now: int): (IpState, bool) {
    var s1 := if now >= s.nextCleanup
              then IpState(Prune(s.clients, cfg.ttl, now), now + cfg.interval)
              else s;
    if ip !in s1.clients && |s1.clients| >= cfg.maxClients then (s1, false)
    else
      var (b, ok) := Touch(cfg.rate, Lookup(s1.clients, ip), now);
      (s1.(clients := s1.clients[ip := b]), ok)
  }

  class IpLimiter {
    const cfg: IpConfig
    var clients: map<string, Bucket>
    var nextCleanup: int

    constructor (cfg: IpConfig, now: int)
      ensures this.cfg == cfg && clients == map[] && nextCleanup == now + cfg.interval
    {
      this.cfg := cfg;
      clients := map[];
      nextCleanup := now + cfg.interval;
    }

    method Allow(ip: string, now: int) returns (ok: bool)
      modifies this
      ensures (IpState(clients, nextCleanup), ok) == IpStep(cfg, old(IpState(clients, nextCleanup)), ip, now)
      ensures |old(clients)| <= cfg.maxClients ==> |clients| <= cfg.maxClients
    {
      if now >= nextCleanup {
        PruneStale(now);
        nextCleanup := now + cfg.interval;
      }
      if ip !in clients {
        if |clients| >= cfg.maxClients {
          return false;
        }
        clients := clients[ip := Bucket(cfg.rate - 1, now)];
        return true;
      }
      var b := clients[ip];
      var tokens := b.tokens + Earned(cfg.rate, now - b.lastSeen);
      if tokens > cfg.rate {
        tokens := cfg.rate;
      }
      if tokens <= 0 {
        clients := clients[ip := Bucket(tokens, now)];
        return false;
      }
      clients := clients[ip := Bucket(tokens - 1, now)];
      return true;
    }

    method PruneStale(now: int)
      modifies this`clients
      ensures clients == Prune(old(clients), cfg.ttl, now)
      ensures |clients| <= |old(clients)|
    {
      var todo := clients.Keys;
      while todo != {}
        invariant todo <= old(clients).Keys
        invariant clients == map ip | && ip in old(clients)
                                      && (ip in todo || now - old(clients)[ip].lastSeen < cfg.ttl) :: old(clients)[ip]
        invariant |clients| <= |old(clients)|
        decreases todo
      {
        var ip :| ip in todo;
        if now - clients[ip].lastSeen >= cfg.ttl {
          clients := clients - {ip};
        }
        todo := todo - {ip};
      }
    }
  }

  // ---------- request sequences ----------

  datatype Request = Request(key: string, at: int)

  predicate Ordered(t: int, reqs: seq<Request>) {
    && (forall i :: 0 <= i < |reqs| ==> t <= reqs[i].at)
    && (forall i, j :: 0 <= i < j < |reqs| ==> reqs[i].at <= reqs[j].at)
  }

  function IpAnswers(cfg: IpConfig, s: IpState, reqs: seq<Request>): seq<bool>
    decreases |reqs|
  {
    if reqs == [] then []
    else
      var (s', ok) := IpStep(cfg, s, reqs[0].key, reqs[0].at);
      [ok] + IpAnswers(cfg, s', reqs[1..])
  }

  function NamespaceAnswers(rate: int, m: map<string, Bucket>, reqs: seq<Request>): seq<bool>
    decreases |reqs|
  {
    if reqs == [] then []
    else
      var (m', ok) := NamespaceStep(rate, m, reqs[0].key, reqs[0].at);
      [ok] + NamespaceAnswers(rate, m', reqs[1..])
  }

  predicate Refused(cfg: IpConfig, s: IpState, ip: string, now: int) {
    var clients := if now >= s.nextCleanup then Prune(s.clients, cfg.ttl, now) else s.clients;
    ip !in clients && |clients| >= cfg.maxClients
  }

  /** The client cap never turns anybody away. */
  predicate CapNotReached(cfg: IpConfig, s: IpState, reqs: seq<Request>)
    decreases |reqs|
  {
    reqs == [] ||
    (!Refused(cfg, s, reqs[0].key, reqs[0].at) &&
     CapNotReached(cfg, IpStep(cfg, s, reqs[0].key, reqs[0].at).0, reqs[1..]))
  }

  // ---------- arithmetic of the refill ----------

  lemma FloorAdds(x: nat, y: nat, d: nat)
    requires d >= 1
    ensures x / d + y / d <= (x + y) / d
  {
    var q, z := x / d + y / d, x + y;
    assert x == x / d * d + x % d && y == y / d * d + y % d && z == z / d * d + z % d;
    assert q * d == x / d * d + y / d * d <= z;
    var excess := q - z / d;
    assert excess * d == q * d - z / d * d < d;
    assert excess >= 1 ==> excess * d >= d;
  }

  /** Two refills never earn more than one refill over both intervals. */
  lemma EarnedAdds(rate: int, a: int, b: int)
    requires rate >= 1 && a >= 0 && b >= 0
    ensures 0 <= Earned(rate, a) && 0 <= Earned(rate, b)
    ensures Earned(rate, a) + Earned(rate, b) <= Earned(rate, a + b)
  {
    assert a * rate >= 0 && b * rate >= 0;
    assert (a + b) * rate == a * rate + b * rate;
    FloorAdds(a * rate, b * rate, SECOND);
  }

  /** A second earns a full bucket. */
  lemma SecondRefills(rate: int, elapsed: int)
    requires rate >= 1 && elapsed >= SECOND
    ensures Earned(rate, elapsed) >= rate
  {
    assert elapsed * rate >= SECOND * rate;
    assert SECOND * rate / SECOND == rate;
  }

  // ---------- eviction cannot be observed ----------

  predicate Sound(rate: int, m: map<string, Bucket>, t: int) {
    forall k :: k in m ==> 0 <= m[k].tokens <= rate && m[k].lastSeen <= t
  }

  /** The pruned table is the full one without clients that have been silent for the whole TTL. */
  predicate Mirrors(cfg: IpConfig, s: IpState, m: map<string, Bucket>, t: int) {
    && Sound(cfg.rate, m, t)
    && (forall ip :: ip in s.clients ==> ip in m && m[ip] == s.clients[ip])
    && (forall ip :: ip in m && ip !in s.clients ==> t - m[ip].lastSeen >= cfg.ttl)
  }

  lemma MirrorPrune(cfg: IpConfig, s: IpState, m: map<string, Bucket>, t: int, now: int)
    requires t <= now && Mirrors(cfg, s, m, t)
    ensures Mirrors(cfg, s, m, now)
    ensures Mirrors(cfg, IpState(Prune(s.clients, cfg.ttl, now), now + cfg.interval), m, now)
  {
  }

  /** A bucket that has been silent for a whole second answers like a new one. */
  lemma SilentIsNew(rate: int, b: Bucket, now: int)
    requires rate >= 1 && b.tokens >= 0 && now - b.lastSeen >= SECOND
    ensures Touch(rate, Some(b), now) == Touch(rate, None, now)
  {
    SecondRefills(rate, now - b.lastSeen);
  }

  lemma TouchIsSound(rate: int, b: Option<Bucket>, now: int)
    requires rate >= 1 && (b.Some? ==> b.value.tokens >= 0 && b.value.lastSeen <= now)
    ensures var b' := Touch(rate, b, now).0; 0 <= b'.tokens <= rate && b'.lastSeen == now
  {
    if b.Some? {
      EarnedAdds(rate, now - b.value.lastSeen, 0);
    }
  }

  lemma MirrorTouch(cfg: IpConfig, s: IpState, m: map<string, Bucket>, ip: string, now: int)
    requires cfg.rate >= 1 && cfg.ttl >= SECOND && Mirrors(cfg, s, m, now)
    ensures var (b, ok) := Touch(cfg.rate, Lookup(s.clients, ip), now);
            && (b, ok) == Touch(cfg.rate, Lookup(m, ip), now)
            && Mirrors(cfg, s.(clients := s.clients[ip := b]), m[ip := b], now)
  {
    hide Touch;
    TouchIsSound(cfg.rate, Lookup(m, ip), now);
    if ip in m && ip !in s.clients {
      SilentIsNew(cfg.rate, m[ip], now);
    }
  }

  lemma MirrorStep(cfg: IpConfig, s: IpState, m: map<string, Bucket>, t: int, ip: string, now: int)
    requires cfg.rate >= 1 && cfg.ttl >= SECOND && t <= now && Mirrors(cfg, s, m, t)
    requires !Refused(cfg, s, ip, now)
    ensures var (s', ok) := IpStep(cfg, s, ip, now);
            var (m', ok') := NamespaceStep(cfg.rate, m, ip, now);
            ok == ok' && Mirrors(cfg, s', m', now)
  {
    hide Mirrors, Touch, Prune;
    MirrorPrune(cfg, s, m, t, now);
    var pruned := IpState(Prune(s.clients, cfg.ttl, now), now + cfg.interval);
    MirrorTouch(cfg, if now >= s.nextCleanup then pruned else s, m, ip, now);
  }

  lemma {:induction false} MirrorRun(cfg: IpConfig, s: IpState, m: map<string, Bucket>, t: int, reqs: seq<Request>)
    requires cfg.rate >= 1 && cfg.ttl >= SECOND && Mirrors(cfg, s, m, t) && Ordered(t, reqs)
             && CapNotReached(cfg, s, reqs)
    ensures IpAnswers(cfg, s, reqs) == NamespaceAnswers(cfg.rate, m, reqs)
    decreases |reqs|
  {
    hide IpStep, NamespaceStep, Mirrors, Refused;
    if reqs != [] {
      var r := reqs[0];
      MirrorStep(cfg, s, m, t, r.key, r.at);
      MirrorRun(cfg, IpStep(cfg, s, r.key, r.at).0, NamespaceStep(cfg.rate, m, r.key, r.at).0, r.at, reqs[1..]);
    }
  }

  function Fresh(cfg: IpConfig, t: int): IpState {
    IpState(map[], t + cfg.interval)
  }

  ghost predicate PruningIsInvisible(cfg: IpConfig) {
    forall t, reqs | Ordered(t, reqs) && CapNotReached(cfg, Fresh(cfg, t), reqs) ::
      IpAnswers(cfg, Fresh(cfg, t), reqs) == NamespaceAnswers(cfg.rate, map[], reqs)
  }

  /** With a rate below one, a client that comes back after its bucket was evicted is let in again. */
  lemma EvictionShows(cfg: IpConfig)
    requires cfg.rate < 1 && cfg.maxClients >= 1 && 0 <= cfg.interval <= cfg.ttl
    ensures !PruningIsInvisible(cfg)
  {
    var only := map["a" := Bucket(cfg.rate - 1, 0)];
    var s0, s1 := Fresh(cfg, 0), IpState(only, cfg.interval);
    var s2 := IpState(map["a" := Bucket(cfg.rate - 1, cfg.ttl)], cfg.ttl + cfg.interval);
    EvictedComesBack(cfg);
    var m2, ok := NamespaceStep(cfg.rate, only, "a", cfg.ttl).0, false;
    var later := [Request("a", cfg.ttl)];
    var reqs := [Request("a", 0)] + later;
    hide IpStep, NamespaceStep, Refused;
    assert reqs[1..] == later && later[1..] == [];
    assert IpAnswers(cfg, s1, later) == [true] + IpAnswers(cfg, s2, []);
    assert IpAnswers(cfg, s0, reqs) == [true] + IpAnswers(cfg, s1, later);
    assert NamespaceAnswers(cfg.rate, only, later) == [false] + NamespaceAnswers(cfg.rate, m2, []);
    assert NamespaceAnswers(cfg.rate, map[], reqs) == [true] + NamespaceAnswers(cfg.rate, only, later);
    assert IpAnswers(cfg, s0, reqs)[1] != NamespaceAnswers(cfg.rate, map[], reqs)[1];
    assert CapNotReached(cfg, s2, []) && CapNotReached(cfg, s1, later) && CapNotReached(cfg, s0, reqs);
  }

  lemma EvictedComesBack(cfg: IpConfig)
    requires cfg.rate < 1 && cfg.maxClients >= 1 && 0 <= cfg.interval <= cfg.ttl
    ensures var only := map["a" := Bucket(cfg.rate - 1, 0)];
            var s1 := IpState(only, cfg.interval);
            var s2 := IpState(map["a" := Bucket(cfg.rate - 1, cfg.ttl)], cfg.ttl + cfg.interval);
            && !Refused(cfg, Fresh(cfg, 0), "a", 0) && !Refused(cfg, s1, "a", cfg.ttl)
            && IpStep(cfg, Fresh(cfg, 0), "a", 0) == (s1, true) && IpStep(cfg, s1, "a", cfg.ttl) == (s2, true)
            && NamespaceStep(cfg.rate, map[], "a", 0) == (only, true)
            && !NamespaceStep(cfg.rate, only, "a", cfg.ttl).1
  {
    var only := map["a" := Bucket(cfg.rate - 1, 0)];
    assert Prune(map[], cfg.ttl, 0) == map[] && Prune(only, cfg.ttl, cfg.ttl) == map[];
    assert Earned(cfg.rate, cfg.ttl) <= 0 by { assert cfg.ttl * cfg.rate <= 0; }
  }

  /**
   While the client cap is not reached, evicting silent clients changes no answer to any request
   sequence with a nondecreasing clock, if and only if the rate is at least one.
   */
  lemma EvictionCannotBeObserved(cfg: IpConfig)
    requires cfg.ttl >= SECOND && cfg.maxClients >= 1 && 0 <= cfg.interval <= cfg.ttl
    ensures PruningIsInvisible(cfg) <==> cfg.rate >= 1
  {
    if cfg.rate >= 1 {
      forall t, reqs | Ordered(t, reqs) && CapNotReached(cfg, Fresh(cfg, t), reqs)
        ensures IpAnswers(cfg, Fresh(cfg, t), reqs) == NamespaceAnswers(cfg.rate, map[], reqs)
      {
        MirrorRun(cfg, Fresh(cfg, t), map[], t, reqs);
      }
    } else {
      EvictionShows(cfg);
    }
  }

  // ---------- how much a client can get ----------

  /** How many of the requests of `key` are allowed. */
  function Allowed(cfg: IpConfig, s: IpState, reqs: seq<Request>, key: string): nat
    decreases |reqs|
  {
    if reqs == [] then 0
    else
      var (s', ok) := IpStep(cfg, s, reqs[0].key, reqs[0].at);
      (if ok && reqs[0].key == key then 1 else 0) + Allowed(cfg, s', reqs[1..], key)
  }

  /** The effect of one request on the bucket of `key`. */
  datatype Fate = Kept | Evicted | Asked

  lemma KeyStep(cfg: IpConfig, s: IpState, r: Request, key: string) returns (fate: Fate)
    ensures var (s', ok) := IpStep(cfg, s, r.key, r.at);
            var before, after := Lookup(s.clients, key), Lookup(s'.clients, key);
            match fate
            case Kept => after == before && !(ok && r.key == key)
            case Evicted => before.Some? && r.at - before.value.lastSeen >= cfg.ttl
                            && (if r.key == key && ok then after == Some(Bucket(cfg.rate - 1, r.at)) else after == None)
            case Asked =>
              var (b, passed) := Touch(cfg.rate, before, r.at);
              r.key == key && after == Some(b) && ok == passed
  {
    var s1 := if r.at >= s.nextCleanup then Prune(s.clients, cfg.ttl, r.at) else s.clients;
    if key in s.clients && key !in s1 {
      fate := Evicted;
    } else if r.key == key && !(key !in s1 && |s1| >= cfg.maxClients) {
      fate := Asked;
    } else {
      fate := Kept;
    }
  }

  predicate Thrifty(cfg: IpConfig, s: IpState, key: string, t: int) {
    key in s.clients ==> s.clients[key].tokens >= 0 && s.clients[key].lastSeen <= t
  }

  function Last(t: int, reqs: seq<Request>): int {
    if reqs == [] then t else reqs[|reqs| - 1].at
  }

  /** A bucket with its tokens and the time since it was last seen bounds everything to come. */
  lemma {:induction false} SpendsBucket(cfg: IpConfig, s: IpState, t: int, reqs: seq<Request>, key: string)
    requires cfg.rate >= 1 && cfg.ttl >= SECOND && Ordered(t, reqs) && Thrifty(cfg, s, key, t)
    requires key in s.clients
    ensures Allowed(cfg, s, reqs, key) <=
            s.clients[key].tokens + Earned(cfg.rate, Last(t, reqs) - s.clients[key].lastSeen)
    decreases |reqs|, 0
  {
    hide IpStep, Earned;
    var b := s.clients[key];
    EarnedAdds(cfg.rate, Last(t, reqs) - b.lastSeen, 0);
    if reqs != [] {
      var r, rest, last := reqs[0], reqs[1..], Last(t, reqs);
      var s' := IpStep(cfg, s, r.key, r.at).0;
      assert Last(r.at, rest) == last;
      EarnedAdds(cfg.rate, r.at - b.lastSeen, last - r.at);
      var fate := KeyStep(cfg, s, r, key);
      if fate == Kept {
        SpendsBucket(cfg, s', r.at, rest, key);
      } else if fate == Asked {
        SpendsBucket(cfg, s', r.at, rest, key);
      } else {
        SecondRefills(cfg.rate, r.at - b.lastSeen);
        if key in s'.clients {
          SpendsBucket(cfg, s', r.at, rest, key);
        } else {
          SpendsAtMost(cfg, s', r.at, rest, key);
        }
      }
    }
  }

  lemma {:induction false} SpendsAtMost(cfg: IpConfig, s: IpState, t: int, reqs: seq<Request>, key: string)
    requires cfg.rate >= 1 && cfg.ttl >= SECOND && Ordered(t, reqs) && Thrifty(cfg, s, key, t)
    ensures Allowed(cfg, s, reqs, key) <= cfg.rate + Earned(cfg.rate, Last(t, reqs) - t)
    decreases |reqs|, 1
  {
    hide IpStep, Earned;
    EarnedAdds(cfg.rate, Last(t, reqs) - t, 0);
    if reqs != [] {
      var r, rest, last := reqs[0], reqs[1..], Last(t, reqs);
      var s' := IpStep(cfg, s, r.key, r.at).0;
      assert Last(r.at, rest) == last;
      EarnedAdds(cfg.rate, r.at - t, last - r.at);
      if key in s.clients { EarnedAdds(cfg.rate, r.at - s.clients[key].lastSeen, 0); }
      var fate := KeyStep(cfg, s, r, key);
      if fate == Asked || (fate == Evicted && key in s'.clients) {
        SpendsBucket(cfg, s', r.at, rest, key);
      } else {
        SpendsAtMost(cfg, s', r.at, rest, key);
      }
    }
  }

  function IpAfter(cfg: IpConfig, s: IpState, reqs: seq<Request>): IpState
    decreases |reqs|
  {
    if reqs == [] then s else IpAfter(cfg, IpStep(cfg, s, reqs[0].key, reqs[0].at).0, reqs[1..])
  }

  lemma {:induction false} HistoryKeeps(cfg: IpConfig, s: IpState, t: int, reqs: seq<Request>)
    requires cfg.rate >= 1 && Ordered(t, reqs) && Sound(cfg.rate, s.clients, t) && |s.clients| <= cfg.maxClients
    ensures var s' := IpAfter(cfg, s, reqs);
            Sound(cfg.rate, s'.clients, Last(t, reqs)) && |s'.clients| <= cfg.maxClients
    decreases |reqs|
  {
    hide Earned;
    if reqs != [] {
      var r := reqs[0];
      StepKeeps(cfg, s, t, r.key, r.at);
      HistoryKeeps(cfg, IpStep(cfg, s, r.key, r.at).0, r.at, reqs[1..]);
    }
  }

  lemma StepKeeps(cfg: IpConfig, s: IpState, t: int, ip: string, now: int)
    requires cfg.rate >= 1 && t <= now && Sound(cfg.rate, s.clients, t) && |s.clients| <= cfg.maxClients
    ensures var s' := IpStep(cfg, s, ip, now).0;
            Sound(cfg.rate, s'.clients, now) && |s'.clients| <= cfg.maxClients
  {
    hide Earned;
    if ip in s.clients {
      EarnedAdds(cfg.rate, now - s.clients[ip].lastSeen, 0);
    }
    PruneShrinks(s.clients, cfg.ttl, now);
  }

  lemma PruneShrinks(clients: map<string, Bucket>, ttl: int, now: int)
    ensures |Prune(clients, ttl, now)| <= |clients|
  {
    var gone := clients.Keys - Prune(clients, ttl, now).Keys;
    assert clients.Keys == Prune(clients, ttl, now).Keys + gone;
  }

  /**
   In the IP limiter, after any history, one client is allowed at most rate + floor(D * rate)
   requests in any window of length D, and the table never holds more than maxClients buckets.
   */
  lemma IpWindowBound(cfg: IpConfig, t: int, before: seq<Request>, window: seq<Request>, key: string)
    requires cfg.rate >= 1 && cfg.ttl >= SECOND && Ordered(t, before) && window != []
             && Ordered(Last(t, before), window)
    ensures var s := IpAfter(cfg, Fresh(cfg, t), before);
            && |s.clients| <= cfg.maxClients
            && Allowed(cfg, s, window, key) <= cfg.rate + Earned(cfg.rate, window[|window| - 1].at - window[0].at)
  {
    var s := IpAfter(cfg, Fresh(cfg, t), before);
    HistoryKeeps(cfg, Fresh(cfg, t), t, before);
    SpendsAtMost(cfg, s, window[0].at, window, key);
  }

  function NamespaceAfter(rate: int, m: map<string, Bucket>, reqs: seq<Request>): map<string, Bucket>
    decreases |reqs|
  {
    if reqs == [] then m else NamespaceAfter(rate, NamespaceStep(rate, m, reqs[0].key, reqs[0].at).0, reqs[1..])
  }

  function NamespaceAllowed(rate: int, m: map<string, Bucket>, reqs: seq<Request>, key: string): nat
    decreases |reqs|
  {
    if reqs == [] then 0
    else
      var (m', ok) := NamespaceStep(rate, m, reqs[0].key, reqs[0].at);
      (if ok && reqs[0].key == key then 1 else 0) + NamespaceAllowed(rate, m', reqs[1..], key)
  }

  /** The namespace limiter is an IP limiter whose cleanup never comes and whose cap is never met. */
  lemma {:induction false} NamespaceAsIp(cfg: IpConfig, m: map<string, Bucket>, reqs: seq<Request>, far: int,
                                         key: string)
    requires forall i :: 0 <= i < |reqs| ==> reqs[i].at < far
    requires |m| + |reqs| <= cfg.maxClients
    ensures NamespaceAllowed(cfg.rate, m, reqs, key) == Allowed(cfg, IpState(m, far), reqs, key)
    ensures NamespaceAfter(cfg.rate, m, reqs) == IpAfter(cfg, IpState(m, far), reqs).clients
    ensures IpAfter(cfg, IpState(m, far), reqs).nextCleanup == far
    decreases |reqs|
  {
    hide Touch;
    if reqs != [] {
      var r := reqs[0];
      var m' := NamespaceStep(cfg.rate, m, r.key, r.at).0;
      assert IpStep(cfg, IpState(m, far), r.key, r.at) == (IpState(m', far), NamespaceStep(cfg.rate, m, r.key, r.at).1);
      assert m'.Keys == m.Keys + {r.key};
      NamespaceAsIp(cfg, m', reqs[1..], far, key);
    }
  }

  lemma NamespaceWindowBound(rate: int, t: int, before: seq<Request>, window: seq<Request>, key: string)
    requires rate >= 1 && Ordered(t, before) && window != [] && Ordered(Last(t, before), window)
    ensures NamespaceAllowed(rate, NamespaceAfter(rate, map[], before), window, key)
            <= rate + Earned(rate, window[|window| - 1].at - window[0].at)
  {
    hide Earned;
    var cfg := IpConfig(rate, SECOND, 1, 2 * |before| + |window| + 1);
    var far := window[|window| - 1].at + 1;
    BeforeWindow(t, before, window);
    NamespaceAsIp(cfg, map[], before, far, key);
    HistoryKeeps(IpConfig(rate, SECOND, 1, |before|), IpState(map[], far), t, before);
    NamespaceAsIp(IpConfig(rate, SECOND, 1, |before|), map[], before, far, key);
    var m := NamespaceAfter(rate, map[], before);
    NamespaceAsIp(cfg, m, window, far, key);
    SpendsAtMost(cfg, IpState(m, far), window[0].at, window, key);
  }

  lemma BeforeWindow(t: int, before: seq<Request>, window: seq<Request>)
    requires Ordered(t, before) && window != [] && Ordered(Last(t, before), window)
    ensures forall i :: 0 <= i < |before| ==> before[i].at < window[|window| - 1].at + 1
    ensures forall i :: 0 <= i < |window| ==> window[i].at < window[|window| - 1].at + 1
  {
    assert Last(t, before) <= window[|window| - 1].at;
  }

  // ---------- what a client can count on ----------

  /** The exact bucket after a request: what is left, plus the refill rounded down, up to the rate. */
  lemma RefillIsExact(rate: int, b: Bucket, now: int)
    requires rate >= 0 && b.lastSeen <= now
    ensures var full := b.tokens + (now - b.lastSeen) * rate / 1_000_000_000;
            var tokens := if full > rate then rate else full;
            Touch(rate, Some(b), now) ==
            if tokens >= 1 then (Bucket(tokens - 1, now), true) else (Bucket(tokens, now), false)
  {
    hide Truncated;
    var elapsed := now - b.lastSeen;
    FloorOfProduct(elapsed, rate);
  }

  lemma FloorOfProduct(a: nat, b: nat)
    ensures Truncated(a * b) == a * b / 1_000_000_000
  {
    assert a * b >= 0;
  }

  function CountOf(reqs: seq<Request>, key: string): nat {
    if reqs == [] then 0 else (if reqs[0].key == key then 1 else 0) + CountOf(reqs[1..], key)
  }

  /** The tokens a client has in hand; a client that is not known has a full bucket. */
  function InHand(rate: int, m: map<string, Bucket>, key: string): int {
    if key in m then m[key].tokens else rate
  }

  /** With n tokens in hand, the next n requests of a client are allowed, whenever they come. */
  lemma {:induction false} TokensAreGood(rate: int, m: map<string, Bucket>, t: int, reqs: seq<Request>, key: string,
                                         n: nat)
    requires rate >= 1 && Ordered(t, reqs) && (key in m ==> m[key].lastSeen <= t)
    requires n <= InHand(rate, m, key) && n <= rate
    ensures NamespaceAllowed(rate, m, reqs, key) >= Min(n, CountOf(reqs, key))
    decreases |reqs|
  {
    hide Earned;
    if reqs != [] {
      var r := reqs[0];
      var m' := NamespaceStep(rate, m, r.key, r.at).0;
      if r.key != key {
        TokensAreGood(rate, m', r.at, reqs[1..], key, n);
      } else if n > 0 {
        if key in m { EarnedAdds(rate, r.at - m[key].lastSeen, 0); }
        TokensAreGood(rate, m', r.at, reqs[1..], key, n - 1);
      }
    }
  }

  /** A client that has been silent for a second, or is new, gets its next `rate` requests. */
  lemma SilentClientGetsItsRate(rate: int, m: map<string, Bucket>, t: int, reqs: seq<Request>, key: string)
    requires rate >= 1 && Ordered(t, reqs) && Sound(rate, m, t)
    requires key in m ==> forall i :: 0 <= i < |reqs| ==> reqs[i].at - m[key].lastSeen >= SECOND
    ensures NamespaceAllowed(rate, m, reqs, key) >= Min(rate, CountOf(reqs, key))
  {
    hide Touch, NamespaceStep;
    if key in m {
      SameWithout(rate, m, reqs, key);
      TokensAreGood(rate, m - {key}, t, reqs, key, rate);
    } else {
      TokensAreGood(rate, m, t, reqs, key, rate);
    }
  }

  /** Forgetting a client that has been silent for a second changes nothing for it. */
  lemma {:induction false} SameWithout(rate: int, m: map<string, Bucket>, reqs: seq<Request>, key: string)
    requires rate >= 1 && key in m && m[key].tokens >= 0
    requires forall i :: 0 <= i < |reqs| ==> reqs[i].at - m[key].lastSeen >= SECOND
    ensures NamespaceAllowed(rate, m, reqs, key) == NamespaceAllowed(rate, m - {key}, reqs, key)
    decreases |reqs|
  {
    hide Touch;
    if reqs != [] {
      var r := reqs[0];
      if r.key == key {
        SilentIsNew(rate, m[key], r.at);
        assert m[key := Touch(rate, None, r.at).0] == (m - {key})[key := Touch(rate, None, r.at).0];
      } else {
        var m' := NamespaceStep(rate, m, r.key, r.at).0;
        assert NamespaceStep(rate, m - {key}, r.key, r.at).0 == m' - {key};
        SameWithout(rate, m', reqs[1..], key);
      }
    }
  }

  /** The limiter as it is shipped: ten minutes, one minute and ten thousand clients. */
  function Shipped(rate: int): IpConfig {
    IpConfig(rate, CLIENT_TTL, CLEANUP_INTERVAL, MAX_CLIENTS)
  }

  /** For every rate per second, both results hold of the limiter as it is shipped. */
  lemma ShippedLimiter(rate: int, t: int, before: seq<Request>, window: seq<Request>, key: string)
    requires rate >= 1 && Ordered(t, before) && window != [] && Ordered(Last(t, before), window)
    ensures Shipped(rate) == IpConfig(rate, 600 * SECOND, 60 * SECOND, 10_000) && PruningIsInvisible(Shipped(rate))
    ensures var s := IpAfter(Shipped(rate), Fresh(Shipped(rate), t), before);
            && |s.clients| <= MAX_CLIENTS
            && Allowed(Shipped(rate), s, window, key) <= rate + Earned(rate, window[|window| - 1].at - window[0].at)
  {
    hide PruningIsInvisible, Allowed, Earned, Ordered;
    EvictionCannotBeObserved(Shipped(rate));
    IpWindowBound(Shipped(rate), t, before, window, key);
  }
}
