/** The per-token rate limit (`_enforce_token_limit` in app/identity/auth.py). */
module RateLimiter {
  import opened Wrappers
  import opened TtlCaches

  /** `limit` admissions per `window` seconds; counters of at most `maxsize` tokens are remembered. */
  datatype Settings = Settings(limit: int, window: real, maxsize: nat)

  predicate Sane(cfg: Settings) { cfg.window > 0.0 && cfg.maxsize >= 1 }

  datatype Call = Call(token: string, now: real)

  /** A call that was let through. */
  datatype Admission = Admission(token: string, at: real)

  type Counters = Entries<string, nat>

  function CountOf(es: Counters, token: string, now: real): nat {
    match Find(es, token, now)
    case Some(e) => e.value
    case None => 0
  }

  /** The stored count decides; a refusal only refreshes recency, an admission restarts the TTL. */
  function Enforce(cfg: Settings, es: Counters, call: Call): (bool, Counters) {
    var count := CountOf(es, call.token, call.now);
    var touched := Touch(es, call.token, call.now);
    if count >= cfg.limit then (false, touched)
    else (true, Written(touched, call.token, count + 1, call.now, cfg.window, cfg.maxsize))
  }

  // ---------------------------------------------------------------------------------------------
  // The history

  /** `evicted` records that some live counter was pushed out by a write for another token. */
  datatype State = State(cache: Counters, log: seq<Admission>, evicted: bool)

  function Step(cfg: Settings, s: State, call: Call): State {
    var (ok, cache) := Enforce(cfg, s.cache, call);
    if ok then
      State(cache, s.log + [Admission(call.token, call.now)],
            s.evicted || Evicts(Touch(s.cache, call.token, call.now), call.token, call.now, cfg.maxsize))
    else s.(cache := cache)
  }

  function After(cfg: Settings, calls: seq<Call>): State {
    if calls == [] then State([], [], false) else Step(cfg, After(cfg, calls[..|calls| - 1]), calls[|calls| - 1])
  }

  lemma AfterOneMore(cfg: Settings, calls: seq<Call>, c: Call)
    ensures After(cfg, calls + [c]) == Step(cfg, After(cfg, calls), c)
  {
    assert (calls + [c])[..|calls|] == calls;
  }

  ghost predicate Ordered(calls: seq<Call>) {
    forall i, j :: 0 <= i < j < |calls| ==> calls[i].now <= calls[j].now
  }

  ghost predicate NoEarlierThan(calls: seq<Call>, now: real) {
    forall i :: 0 <= i < |calls| ==> calls[i].now <= now
  }

  ghost predicate LogOk(log: seq<Admission>, clock: real) {
    && (forall i, j :: 0 <= i < j < |log| ==> log[i].at <= log[j].at)
    && (forall i :: 0 <= i < |log| ==> log[i].at <= clock)
  }

  /** The admissions of a token that hang together at `now`: each less than a window after the one
      before it, the last less than a window before `now`. */
  function Chain(window: real, log: seq<Admission>, token: string, now: real): nat {
    if log == [] then 0
    else
      var front, last := log[..|log| - 1], log[|log| - 1];
      if last.token != token then Chain(window, front, token, now)
      else if now < last.at + window then 1 + Chain(window, front, token, last.at)
      else 0
  }

  /** Admissions of a token in the half-open window [from, to). */
  function WindowCount(log: seq<Admission>, token: string, from: real, to: real): nat {
    if log == [] then 0
    else
      var last := log[|log| - 1];
      WindowCount(log[..|log| - 1], token, from, to) + if last.token == token && from <= last.at < to then 1 else 0
  }

  /** The tokens admitted within a window before `now`. */
  function Recent(window: real, log: seq<Admission>, now: real): set<string> {
    set i | 0 <= i < |log| && now < log[i].at + window :: log[i].token
  }

  /** No window admits more than n distinct tokens. */
  ghost predicate TokensWithin(window: real, log: seq<Admission>, n: nat) {
    forall j :: 0 <= j < |log| ==> |Recent(window, log[..j + 1], log[j].at)| <= n
  }

  /** No window admits more distinct tokens than the cache holds. */
  ghost predicate WithinCapacity(cfg: Settings, log: seq<Admission>) {
    TokensWithin(cfg.window, log, cfg.maxsize)
  }

  // ---------------------------------------------------------------------------------------------
  // How the cache operations act on counters

  /** With distinct keys, lookups depend only on which live entries there are. */
  lemma FindDetermined(a: Counters, b: Counters, token: string, now: real)
    requires DistinctKeys(a) && DistinctKeys(b)
    requires forall e :: e in a && e.key == token && now < e.expires ==> e in b
    requires forall e :: e in b && e.key == token && now < e.expires ==> e in a
    ensures Find(a, token, now) == Find(b, token, now)
  {
    if Find(a, token, now).Some? {
      FindUnique(b, Find(a, token, now).value, now);
    }
  }

  lemma FindAfterTouch(es: Counters, key: string, now: real, token: string, later: real)
    requires DistinctKeys(es) && now <= later
    ensures Find(Touch(es, key, now), token, later) == Find(es, token, later)
  {
    if Find(es, key, now).Some? {
      var e := Find(es, key, now).value;
      TouchKeepsShape(es, key, now);
      WithoutMembers(es, key);
      forall x | x in es && x.key == key
        ensures x == e
      {
        var i :| 0 <= i < |es| && es[i] == x;
        var j :| 0 <= j < |es| && es[j] == e;
      }
      FindDetermined(Touch(es, key, now), es, token, later);
    }
  }

  lemma FindAfterWrite(es: Counters, key: string, value: nat, now: real, ttl: real, maxsize: nat, token: string, later: real)
    requires DistinctKeys(es) && maxsize >= 1 && now <= later && !Evicts(es, key, now, maxsize)
    ensures Find(Written(es, key, value, now, ttl, maxsize), token, later) ==
      if token == key then (if later < now + ttl then Some(Entry(key, value, now + ttl)) else None)
      else Find(es, token, later)
  {
    var w := Written(es, key, value, now, ttl, maxsize);
    WrittenKeepsShape(es, key, value, now, ttl, maxsize);
    LiveMembers(es, now);
    WithoutMembers(Live(es, now), key);
    if token == key {
      if later < now + ttl {
        FindUnique(w, Entry(key, value, now + ttl), later);
      }
    } else {
      FindDetermined(w, es, token, later);
    }
  }

  // ---------------------------------------------------------------------------------------------
  // Counters agree with chains

  /** While nothing has been evicted, the counter of every token is the length of its chain. */
  ghost predicate CountersAreChains(cfg: Settings, es: Counters, log: seq<Admission>, clock: real) {
    forall token, now {:trigger CountOf(es, token, now)} ::
      clock <= now ==> CountOf(es, token, now) == Chain(cfg.window, log, token, now)
  }

  ghost predicate CacheInv(cfg: Settings, s: State, clock: real) {
    && Sane(cfg)
    && DistinctKeys(s.cache) && |s.cache| <= cfg.maxsize
    && (forall i :: 0 <= i < |s.cache| ==> s.cache[i].value >= 1)
    && LogOk(s.log, clock)
    && (!s.evicted ==> CountersAreChains(cfg, s.cache, s.log, clock))
  }

  lemma TouchedCounters(cfg: Settings, es: Counters, log: seq<Admission>, clock: real, call: Call)
    requires DistinctKeys(es) && clock <= call.now && CountersAreChains(cfg, es, log, clock)
    ensures CountersAreChains(cfg, Touch(es, call.token, call.now), log, call.now)
  {
    forall token, now | call.now <= now
      ensures CountOf(Touch(es, call.token, call.now), token, now) == Chain(cfg.window, log, token, now)
    {
      FindAfterTouch(es, call.token, call.now, token, now);
      assert CountOf(es, token, now) == Chain(cfg.window, log, token, now);
    }
  }

  lemma ChainGrows(window: real, log: seq<Admission>, a: Admission, token: string, now: real)
    ensures Chain(window, log + [a], token, now) ==
      if a.token != token then Chain(window, log, token, now)
      else if now < a.at + window then 1 + Chain(window, log, token, a.at) else 0
  {
    assert (log + [a])[..|log|] == log;
  }

  /** The counters after an admission, one token and one later time at a time. */
  lemma AdmittedCount(cfg: Settings, es: Counters, log: seq<Admission>, call: Call, token: string, now: real)
    requires Sane(cfg) && DistinctKeys(es) && call.now <= now
    requires CountOf(es, token, now) == Chain(cfg.window, log, token, now)
    requires CountOf(es, call.token, call.now) == Chain(cfg.window, log, call.token, call.now)
    requires !Evicts(es, call.token, call.now, cfg.maxsize)
    ensures CountOf(Written(es, call.token, CountOf(es, call.token, call.now) + 1, call.now, cfg.window, cfg.maxsize), token, now)
         == Chain(cfg.window, log + [Admission(call.token, call.now)], token, now)
  {
    var count := CountOf(es, call.token, call.now);
    FindAfterWrite(es, call.token, count + 1, call.now, cfg.window, cfg.maxsize, token, now);
    ChainGrows(cfg.window, log, Admission(call.token, call.now), token, now);
  }

  lemma AdmittedCounters(cfg: Settings, es: Counters, log: seq<Admission>, call: Call)
    requires Sane(cfg) && DistinctKeys(es) && CountersAreChains(cfg, es, log, call.now)
    requires !Evicts(es, call.token, call.now, cfg.maxsize)
    ensures var count := CountOf(es, call.token, call.now);
      CountersAreChains(cfg, Written(es, call.token, count + 1, call.now, cfg.window, cfg.maxsize),
                        log + [Admission(call.token, call.now)], call.now)
  {
    var w := Written(es, call.token, CountOf(es, call.token, call.now) + 1, call.now, cfg.window, cfg.maxsize);
    forall token, now | call.now <= now
      ensures CountOf(w, token, now) == Chain(cfg.window, log + [Admission(call.token, call.now)], token, now)
    {
      AdmittedCount(cfg, es, log, call, token, now);
    }
  }

  lemma TouchKeepsValues(es: Counters, key: string, now: real)
    requires forall i :: 0 <= i < |es| ==> es[i].value >= 1
    ensures forall i :: 0 <= i < |Touch(es, key, now)| ==> Touch(es, key, now)[i].value >= 1
  {
    WithoutMembers(es, key);
    forall i | 0 <= i < |Touch(es, key, now)|
      ensures Touch(es, key, now)[i].value >= 1
    {
      assert Touch(es, key, now)[i] in es;
    }
  }

  lemma WriteKeepsValues(es: Counters, key: string, value: nat, now: real, ttl: real, maxsize: nat)
    requires value >= 1 && forall i :: 0 <= i < |es| ==> es[i].value >= 1
    ensures var w := Written(es, key, value, now, ttl, maxsize); forall i :: 0 <= i < |w| ==> w[i].value >= 1
  {
    var rest, kept := Without(Live(es, now), key), Kept(es, key, now, maxsize);
    LiveMembers(es, now);
    WithoutMembers(Live(es, now), key);
    forall i | 0 <= i < |kept|
      ensures kept[i].value >= 1
    {
      assert kept[i] in rest;
    }
  }

  lemma StepKeepsShape(cfg: Settings, s: State, call: Call)
    requires Sane(cfg) && DistinctKeys(s.cache) && |s.cache| <= cfg.maxsize
    requires forall i :: 0 <= i < |s.cache| ==> s.cache[i].value >= 1
    ensures var t := Step(cfg, s, call);
      DistinctKeys(t.cache) && |t.cache| <= cfg.maxsize && forall i :: 0 <= i < |t.cache| ==> t.cache[i].value >= 1
  {
    var touched := Touch(s.cache, call.token, call.now);
    var count := CountOf(s.cache, call.token, call.now);
    TouchKeepsShape(s.cache, call.token, call.now);
    TouchKeepsValues(s.cache, call.token, call.now);
    if count < cfg.limit {
      WrittenKeepsShape(touched, call.token, count + 1, call.now, cfg.window, cfg.maxsize);
      WriteKeepsValues(touched, call.token, count + 1, call.now, cfg.window, cfg.maxsize);
    }
  }

  lemma StepKeepsCounters(cfg: Settings, s: State, call: Call, clock: real)
    requires Sane(cfg) && DistinctKeys(s.cache) && clock <= call.now && !Step(cfg, s, call).evicted
    requires CountersAreChains(cfg, s.cache, s.log, clock)
    ensures CountersAreChains(cfg, Step(cfg, s, call).cache, Step(cfg, s, call).log, call.now)
  {
    var touched := Touch(s.cache, call.token, call.now);
    TouchedCounters(cfg, s.cache, s.log, clock, call);
    if CountOf(s.cache, call.token, call.now) < cfg.limit {
      TouchKeepsShape(s.cache, call.token, call.now);
      FindAfterTouch(s.cache, call.token, call.now, call.token, call.now);
      AdmittedCounters(cfg, touched, s.log, call);
    } else {
      assert Step(cfg, s, call) == s.(cache := touched);
    }
  }

  lemma StepKeepsInv(cfg: Settings, s: State, call: Call, clock: real)
    requires CacheInv(cfg, s, clock) && clock <= call.now
    ensures CacheInv(cfg, Step(cfg, s, call), call.now)
  {
    StepKeepsShape(cfg, s, call);
    if !Step(cfg, s, call).evicted {
      StepKeepsCounters(cfg, s, call, clock);
    }
  }

  lemma {:induction false} RunKeepsInv(cfg: Settings, calls: seq<Call>, now: real)
    requires Sane(cfg) && Ordered(calls) && NoEarlierThan(calls, now)
    ensures CacheInv(cfg, After(cfg, calls), now)
  {
    if calls != [] {
      var before, last := calls[..|calls| - 1], calls[|calls| - 1];
      RunKeepsInv(cfg, before, last.now);
      StepKeepsInv(cfg, After(cfg, before), last, last.now);
    }
  }

  // ---------------------------------------------------------------------------------------------
  // Eviction of a live counter, exactly

  function KeySet(es: Counters): set<string> {
    set i | 0 <= i < |es| :: es[i].key
  }

  lemma {:induction false} KeySetSize(es: Counters)
    requires DistinctKeys(es)
    ensures |KeySet(es)| == |es|
  {
    if es != [] {
      KeySetSize(es[1..]);
      assert forall k :: k in KeySet(es) <==> k == es[0].key || k in KeySet(es[1..]);
      assert KeySet(es) == {es[0].key} + KeySet(es[1..]);
      assert es[0].key !in KeySet(es[1..]);
    }
  }

  /** A token has a chain exactly while it has a recent admission. */
  lemma {:induction false} ChainIsRecent(window: real, log: seq<Admission>, token: string, now: real, clock: real)
    requires LogOk(log, clock)
    ensures Chain(window, log, token, now) > 0 <==> token in Recent(window, log, now)
  {
    if log != [] {
      var front, last := log[..|log| - 1], log[|log| - 1];
      if last.token != token {
        ChainIsRecent(window, front, token, now, clock);
        assert token in Recent(window, log, now) ==> token in Recent(window, front, now);
        assert token in Recent(window, front, now) ==> token in Recent(window, log, now) by {
          if token in Recent(window, front, now) {
            var i :| 0 <= i < |front| && now < front[i].at + window && front[i].token == token;
            assert log[i] == front[i];
          }
        }
      } else {
        assert last.at + window > now ==> log[|log| - 1].token in Recent(window, log, now);
      }
    }
  }

  lemma OthersLiveAreRecent(cfg: Settings, s: State, call: Call, clock: real)
    requires CacheInv(cfg, s, clock) && clock <= call.now && !s.evicted
    ensures KeySet(Without(Live(s.cache, call.now), call.token)) == Recent(cfg.window, s.log, call.now) - {call.token}
  {
    var others := Without(Live(s.cache, call.now), call.token);
    LiveMembers(s.cache, call.now);
    WithoutMembers(Live(s.cache, call.now), call.token);
    forall token
      ensures token in KeySet(others) <==> token in Recent(cfg.window, s.log, call.now) && token != call.token
    {
      ChainIsRecent(cfg.window, s.log, token, call.now, clock);
      assert CountOf(s.cache, token, call.now) == Chain(cfg.window, s.log, token, call.now);
      if token in KeySet(others) {
        var i :| 0 <= i < |others| && others[i].key == token;
        assert others[i] in s.cache;
        FindUnique(s.cache, others[i], call.now);
      }
      if Find(s.cache, token, call.now).Some? && token != call.token {
        var e := Find(s.cache, token, call.now).value;
        assert e in others;
        var i :| 0 <= i < |others| && others[i] == e;
        assert others[i].key in KeySet(others);
      }
    }
  }

  lemma TouchKeepsOthers(es: Counters, token: string, now: real)
    requires DistinctKeys(es)
    ensures |Without(Live(Touch(es, token, now), now), token)| == |Without(Live(es, now), token)|
  {
    var a, b := Without(Live(Touch(es, token, now), now), token), Without(Live(es, now), token);
    TouchKeepsShape(es, token, now);
    LiveDistinct(es, now);
    LiveDistinct(Touch(es, token, now), now);
    WithoutDistinct(Live(es, now), token);
    WithoutDistinct(Live(Touch(es, token, now), now), token);
    LiveMembers(es, now);
    LiveMembers(Touch(es, token, now), now);
    WithoutMembers(es, token);
    WithoutMembers(Live(es, now), token);
    WithoutMembers(Live(Touch(es, token, now), now), token);
    assert forall e :: e in a <==> e in b;
    SameMembersSameKeys(a, b);
    KeySetSize(a);
    KeySetSize(b);
  }

  lemma SameMembersSameKeys(a: Counters, b: Counters)
    requires forall e :: e in a <==> e in b
    ensures KeySet(a) == KeySet(b)
  {
    forall k
      ensures k in KeySet(a) <==> k in KeySet(b)
    {
      if k in KeySet(a) {
        var i :| 0 <= i < |a| && a[i].key == k;
        assert a[i] in b;
      }
      if k in KeySet(b) {
        var i :| 0 <= i < |b| && b[i].key == k;
        assert b[i] in a;
      }
    }
  }

  /** A write pushes out a live counter exactly when the window ending with it has seen more tokens
      than the cache holds. */
  lemma EvictsIffTooManyRecent(cfg: Settings, s: State, call: Call, clock: real)
    requires CacheInv(cfg, s, clock) && clock <= call.now && !s.evicted
    ensures Evicts(Touch(s.cache, call.token, call.now), call.token, call.now, cfg.maxsize) <==>
            |Recent(cfg.window, s.log + [Admission(call.token, call.now)], call.now)| > cfg.maxsize
  {
    var others := Without(Live(s.cache, call.now), call.token);
    TouchKeepsOthers(s.cache, call.token, call.now);
    OthersLiveAreRecent(cfg, s, call, clock);
    LiveDistinct(s.cache, call.now);
    WithoutDistinct(Live(s.cache, call.now), call.token);
    KeySetSize(others);
    RecentGrows(cfg.window, s.log, call);
    var recent := Recent(cfg.window, s.log, call.now);
    assert recent + {call.token} == (recent - {call.token}) + {call.token};
  }

  lemma RecentGrows(window: real, log: seq<Admission>, call: Call)
    requires window > 0.0
    ensures Recent(window, log + [Admission(call.token, call.now)], call.now) == Recent(window, log, call.now) + {call.token}
  {
    var log' := log + [Admission(call.token, call.now)];
    forall token
      ensures token in Recent(window, log', call.now) <==> token in Recent(window, log, call.now) || token == call.token
    {
      if token in Recent(window, log, call.now) {
        var i :| 0 <= i < |log| && call.now < log[i].at + window && log[i].token == token;
        assert log'[i] == log[i];
      }
      assert log'[|log|].token in Recent(window, log', call.now);
    }
  }

  lemma CapacityGrows(cfg: Settings, log: seq<Admission>, a: Admission)
    ensures WithinCapacity(cfg, log + [a]) <==> WithinCapacity(cfg, log) && |Recent(cfg.window, log + [a], a.at)| <= cfg.maxsize
  {
    var log' := log + [a];
    assert log'[..|log| + 1] == log';
    assert forall j :: 0 <= j < |log| ==> log'[..j + 1] == log[..j + 1] && log'[j] == log[j];
    if WithinCapacity(cfg, log') {
      assert |Recent(cfg.window, log'[..|log| + 1], log'[|log|].at)| <= cfg.maxsize;
      forall j | 0 <= j < |log|
        ensures |Recent(cfg.window, log[..j + 1], log[j].at)| <= cfg.maxsize
      {
        assert |Recent(cfg.window, log'[..j + 1], log'[j].at)| <= cfg.maxsize;
      }
    }
  }

  /** In every run a live counter has been evicted exactly when some window admitted more distinct
      tokens than the cache holds. */
  lemma {:induction false} EvictedIffOverCapacity(cfg: Settings, calls: seq<Call>)
    requires Sane(cfg) && Ordered(calls)
    ensures After(cfg, calls).evicted <==> !WithinCapacity(cfg, After(cfg, calls).log)
  {
    if calls != [] {
      var before, last := calls[..|calls| - 1], calls[|calls| - 1];
      EvictedIffOverCapacity(cfg, before);
      RunKeepsInv(cfg, before, last.now);
      var s := After(cfg, before);
      if Enforce(cfg, s.cache, last).0 {
        CapacityGrows(cfg, s.log, Admission(last.token, last.now));
        if !s.evicted {
          EvictsIffTooManyRecent(cfg, s, last, last.now);
        }
      }
    }
  }

  // ---------------------------------------------------------------------------------------------
  // What the limit guarantees

  /** A call is admitted exactly when the token's chain is shorter than the limit. */
  lemma {:induction false} AdmittedIffChainBelowLimit(cfg: Settings, calls: seq<Call>, call: Call)
    requires Sane(cfg) && Ordered(calls) && NoEarlierThan(calls, call.now)
    requires WithinCapacity(cfg, After(cfg, calls).log)
    ensures Enforce(cfg, After(cfg, calls).cache, call).0 <==>
            Chain(cfg.window, After(cfg, calls).log, call.token, call.now) < cfg.limit
  {
    EvictedIffOverCapacity(cfg, calls);
    RunKeepsInv(cfg, calls, call.now);
  }

  ghost predicate ChainsWithin(cfg: Settings, log: seq<Admission>) {
    forall n, token, now :: 0 <= n <= |log| ==> Chain(cfg.window, log[..n], token, now) <= Max(0, cfg.limit)
  }

  lemma ChainsGrow(cfg: Settings, log: seq<Admission>, a: Admission)
    requires ChainsWithin(cfg, log) && Chain(cfg.window, log, a.token, a.at) < cfg.limit
    ensures ChainsWithin(cfg, log + [a])
  {
    var log' := log + [a];
    forall n, token, now | 0 <= n <= |log'|
      ensures Chain(cfg.window, log'[..n], token, now) <= Max(0, cfg.limit)
    {
      if n <= |log| {
        assert log'[..n] == log[..n];
      } else {
        assert log'[..n] == log' && log'[..|log|] == log && log[..|log|] == log;
      }
    }
  }

  lemma {:induction false} ChainsNeverExceedLimit(cfg: Settings, calls: seq<Call>)
    requires Sane(cfg) && Ordered(calls) && WithinCapacity(cfg, After(cfg, calls).log)
    ensures ChainsWithin(cfg, After(cfg, calls).log)
  {
    if calls != [] {
      var before, last := calls[..|calls| - 1], calls[|calls| - 1];
      var s := After(cfg, before);
      if Enforce(cfg, s.cache, last).0 {
        CapacityGrows(cfg, s.log, Admission(last.token, last.now));
        ChainsNeverExceedLimit(cfg, before);
        AdmittedIffChainBelowLimit(cfg, before, last);
        ChainsGrow(cfg, s.log, Admission(last.token, last.now));
      } else {
        ChainsNeverExceedLimit(cfg, before);
      }
    }
  }

  /** Everything admitted since `from`, seen from less than a window later, is in the chain. */
  lemma {:induction false} RecentInChain(window: real, log: seq<Admission>, token: string, from: real, to: real, now: real)
    requires LogOk(log, now) && now < from + window
    ensures WindowCount(log, token, from, to) <= Chain(window, log, token, now)
  {
    if log != [] {
      var front, last := log[..|log| - 1], log[|log| - 1];
      if last.token != token {
        RecentInChain(window, front, token, from, to, now);
      } else if from <= last.at {
        RecentInChain(window, front, token, from, to, last.at);
      } else {
        NothingSince(front, token, from, to);
      }
    }
  }

  lemma {:induction false} NothingSince(log: seq<Admission>, token: string, from: real, to: real)
    requires forall i :: 0 <= i < |log| ==> log[i].at < from
    ensures WindowCount(log, token, from, to) == 0
  {
    if log != [] { NothingSince(log[..|log| - 1], token, from, to); }
  }

  lemma {:induction false} WindowWithinLimit(cfg: Settings, log: seq<Admission>, token: string, from: real, clock: real)
    requires LogOk(log, clock) && ChainsWithin(cfg, log)
    ensures WindowCount(log, token, from, from + cfg.window) <= Max(0, cfg.limit)
  {
    if log != [] {
      var front, last := log[..|log| - 1], log[|log| - 1];
      if last.at < from + cfg.window {
        RecentInChain(cfg.window, log, token, from, from + cfg.window, last.at);
        assert log[..|log|] == log;
      } else {
        assert forall n :: 0 <= n <= |front| ==> front[..n] == log[..n];
        WindowWithinLimit(cfg, front, token, from, clock);
      }
    }
  }

  lemma {:induction false} WindowsAdd(log: seq<Admission>, token: string, a: real, b: real, c: real)
    requires a <= b <= c
    ensures WindowCount(log, token, a, c) == WindowCount(log, token, a, b) + WindowCount(log, token, b, c)
  {
    if log != [] { WindowsAdd(log[..|log| - 1], token, a, b, c); }
  }

  /** The length of n windows laid end to end. */
  function Span(window: real, n: nat): real {
    if n == 0 then 0.0 else window + Span(window, n - 1)
  }

  lemma {:induction false} SpanNonNegative(window: real, n: nat)
    requires window >= 0.0
    ensures Span(window, n) >= 0.0
  {
    if n > 0 { SpanNonNegative(window, n - 1); }
  }

  lemma {:induction false} WindowsWithinLimit(cfg: Settings, log: seq<Admission>, token: string, from: real, n: nat, clock: real)
    requires LogOk(log, clock) && ChainsWithin(cfg, log) && cfg.window > 0.0
    ensures WindowCount(log, token, from, from + Span(cfg.window, n)) <= n * Max(0, cfg.limit)
    decreases n
  {
    if n == 0 {
      EmptyWindow(log, token, from);
    } else {
      SpanNonNegative(cfg.window, n - 1);
      WindowsAdd(log, token, from, from + cfg.window, from + Span(cfg.window, n));
      WindowWithinLimit(cfg, log, token, from, clock);
      WindowsWithinLimit(cfg, log, token, from + cfg.window, n - 1, clock);
      assert from + cfg.window + Span(cfg.window, n - 1) == from + Span(cfg.window, n);
      assert n * Max(0, cfg.limit) == Max(0, cfg.limit) + (n - 1) * Max(0, cfg.limit);
    }
  }

  lemma {:induction false} EmptyWindow(log: seq<Admission>, token: string, at: real)
    ensures WindowCount(log, token, at, at) == 0
  {
    if log != [] { EmptyWindow(log[..|log| - 1], token, at); }
  }

  /** In every run in which no window admits more tokens than the cache holds, any n consecutive
      windows hold at most n * limit admissions of one token. */
  lemma {:induction false} AdmissionsPerWindow(cfg: Settings, calls: seq<Call>, token: string, from: real, n: nat)
    requires Sane(cfg) && Ordered(calls) && WithinCapacity(cfg, After(cfg, calls).log)
    ensures WindowCount(After(cfg, calls).log, token, from, from + Span(cfg.window, n)) <= n * Max(0, cfg.limit)
  {
    ChainsNeverExceedLimit(cfg, calls);
    var clock := if calls == [] then 0.0 else calls[|calls| - 1].now;
    RunKeepsInv(cfg, calls, clock);
    WindowsWithinLimit(cfg, After(cfg, calls).log, token, from, n, clock);
  }

  ghost predicate IsLastOf(log: seq<Admission>, i: nat, token: string) {
    i < |log| && log[i].token == token && forall j :: i < j < |log| ==> log[j].token != token
  }

  lemma {:induction false} ChainFromLast(window: real, log: seq<Admission>, i: nat, token: string, now: real)
    requires IsLastOf(log, i, token) && window > 0.0
    ensures Chain(window, log, token, now) == if now < log[i].at + window then Chain(window, log, token, log[i].at) else 0
  {
    if i < |log| - 1 {
      ChainFromLast(window, log[..|log| - 1], i, token, now);
    }
  }

  /** The last admission of the token, number i of the log, was the last its limit allows. */
  ghost predicate UsedUp(cfg: Settings, log: seq<Admission>, i: nat, token: string) {
    IsLastOf(log, i, token) && Chain(cfg.window, log, token, log[i].at) == cfg.limit
  }

  /** A token that has used up its limit is refused until exactly one window after its last admission
      and admitted from then on, whatever calls were refused in between. */
  lemma {:induction false} LockoutIsExact(cfg: Settings, calls: seq<Call>, call: Call, i: nat)
    requires Sane(cfg) && cfg.limit >= 1 && Ordered(calls) && NoEarlierThan(calls, call.now)
    requires WithinCapacity(cfg, After(cfg, calls).log)
    requires UsedUp(cfg, After(cfg, calls).log, i, call.token)
    ensures Enforce(cfg, After(cfg, calls).cache, call).0 <==> After(cfg, calls).log[i].at + cfg.window <= call.now
  {
    AdmittedIffChainBelowLimit(cfg, calls, call);
    ChainFromLast(cfg.window, After(cfg, calls).log, i, call.token, call.now);
  }

  // ---------------------------------------------------------------------------------------------
  // The rate string, such as "10/minute"

  function SplitSlash(s: string): (parts: seq<string>)
    ensures |parts| >= 1
  {
    if s == "" then [""]
    else
      var rest := SplitSlash(s[1..]);
      if s[0] == '/' then [""] + rest else [[s[0]] + rest[0]] + rest[1..]
  }

  function Seconds(unit: string): real {
    if unit == "second" then 1.0 else if unit == "minute" then 60.0 else if unit == "hour" then 3600.0 else 60.0
  }

  /** Both a wrong number of parts and an unreadable count raise ValueError. */
  function ParseRate(rate: string, parseInt: string -> Option<int>): Option<(int, real)> {
    var parts := SplitSlash(rate);
    if |parts| != 2 then None
    else
      match parseInt(parts[0])
      case None => None
      case Some(count) => Some((count, Seconds(parts[1])))
  }

  lemma {:induction false} SplitWhole(s: string)
    requires '/' !in s
    ensures SplitSlash(s) == [s]
  {
    if s != "" {
      SplitWhole(s[1..]);
      assert [s[0]] + s[1..] == s && s[0] in s;
    }
  }

  lemma {:induction false} SplitAtSlash(a: string, b: string)
    requires '/' !in a
    ensures SplitSlash(a + "/" + b) == [a] + SplitSlash(b)
  {
    var s := a + "/" + b;
    if a == "" {
      assert s[1..] == b;
    } else {
      assert s[1..] == a[1..] + "/" + b;
      SplitAtSlash(a[1..], b);
      assert [a[0]] + a[1..] == a && a[0] in a;
      assert s[0] == a[0];
    }
  }

  /** A rate is read as its count and its unit, wherever its one slash stands; a second slash is an error,
      and so is none. */
  lemma RateIsCountAndUnit(count: string, unit: string, parseInt: string -> Option<int>)
    requires '/' !in count
    ensures ParseRate(count + "/" + unit, parseInt) ==
      if '/' in unit || parseInt(count).None? then None
      else Some((parseInt(count).value, if unit == "second" then 1.0 else if unit == "hour" then 3600.0 else 60.0))
    ensures ParseRate(count, parseInt) == None
  {
    SplitWhole(count);
    SplitAtSlash(count, unit);
    if '/' !in unit {
      SplitWhole(unit);
    } else {
      var i :| 0 <= i < |unit| && unit[i] == '/';
      SplitMany(unit, i);
    }
  }

  lemma {:induction false} SplitMany(s: string, i: nat)
    requires i < |s| && s[i] == '/'
    ensures |SplitSlash(s)| >= 2
  {
    if i > 0 { SplitMany(s[1..], i - 1); }
  }

  // ---------------------------------------------------------------------------------------------
  // The module with its cache object

  class TokenLimiter {
    const cfg: Settings
    const cache: TtlCache<string, nat>

    constructor (cfg: Settings)
      requires Sane(cfg)
      ensures Valid() && this.cfg == cfg && fresh(cache) && cache.entries == []
    {
      this.cfg := cfg;
      cache := new TtlCache(cfg.maxsize, cfg.window);
    }

    ghost predicate Valid()
      reads this, cache
    {
      Sane(cfg) && cache.Valid() && cache.maxsize == cfg.maxsize && cache.ttl == cfg.window
    }

    /** One step of the runs above: the cache after it is what `Enforce` makes of the cache before. */
    method EnforceTokenLimit(token: string, now: real) returns (ok: bool)
      requires Valid()
      modifies cache`entries
      ensures Valid()
      ensures (ok, cache.entries) == Enforce(cfg, old(cache.entries), Call(token, now))
    {
      var hit := cache.Get(token, now);
      var count := if hit.Some? then hit.value else 0;
      if count >= cfg.limit { return false; }
      cache.Put(token, count + 1, now);
      ok := true;
    }
  }
}
