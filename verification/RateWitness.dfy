/** The rate limiter measured against a sliding window, and against a cache that is too small. */
module RateWitness {
  import opened Wrappers
  import opened TtlCaches
  import opened RateLimiter

  // ---------------------------------------------------------------------------------------------
  // Repeated calls of one token

  function Times<T>(x: T, n: nat): seq<T> { seq(n, _ => x) }

  lemma TimesOneMore<T>(front: seq<T>, x: T, n: nat)
    requires n > 0
    ensures front + Times(x, n) == (front + Times(x, n - 1)) + [x]
  {
  }

  lemma OnlyTimesOneMore<T>(x: T, n: nat)
    requires n > 0
    ensures Times(x, n) == Times(x, n - 1) + [x]
  {
  }

  /** The cache of a token that has had `count` admissions and of no other. */
  function Alone(token: string, count: nat, expires: real): Counters {
    if count == 0 then [] else [Entry(token, count, expires)]
  }

  lemma OneMore(cfg: Settings, s: State, c: Call, count: nat, expires: real)
    requires Sane(cfg) && count < cfg.limit && c.now < expires && s.cache == Alone(c.token, count, expires)
    ensures var t := Step(cfg, s, c);
      t.cache == Alone(c.token, count + 1, c.now + cfg.window) && t.log == s.log + [Admission(c.token, c.now)]
  {
  }

  function Iterate(f: State -> State, s: State, n: nat): State {
    if n == 0 then s else f(Iterate(f, s, n - 1))
  }

  function Called(cfg: Settings, c: Call): State -> State { s => Step(cfg, s, c) }

  lemma {:induction false} AfterTimes(cfg: Settings, calls: seq<Call>, c: Call, n: nat)
    ensures After(cfg, calls + Times(c, n)) == Iterate(Called(cfg, c), After(cfg, calls), n)
  {
    if n == 0 {
      assert calls + Times(c, n) == calls;
    } else {
      AfterTimes(cfg, calls, c, n - 1);
      TimesOneMore(calls, c, n);
      AfterOneMore(cfg, calls + Times(c, n - 1), c);
    }
  }

  /** f admits and counts every call below the limit. */
  ghost predicate CountsUp(f: State -> State, c: Call, limit: int, window: real) {
    forall s: State, count: nat, expires: real :: count < limit && c.now < expires && s.cache == Alone(c.token, count, expires) ==>
      f(s).cache == Alone(c.token, count + 1, c.now + window) && f(s).log == s.log + [Admission(c.token, c.now)]
  }

  lemma CalledCountsUp(cfg: Settings, c: Call)
    requires Sane(cfg)
    ensures CountsUp(Called(cfg, c), c, cfg.limit, cfg.window)
  {
    forall s: State, count: nat, expires: real | count < cfg.limit && c.now < expires && s.cache == Alone(c.token, count, expires)
      ensures var t := Called(cfg, c)(s);
        t.cache == Alone(c.token, count + 1, c.now + cfg.window) && t.log == s.log + [Admission(c.token, c.now)]
    {
      OneMore(cfg, s, c, count, expires);
    }
  }

  lemma {:induction false} IterateCounts(f: State -> State, c: Call, limit: int, window: real, s: State, n: nat, count: nat, expires: real)
    requires CountsUp(f, c, limit, window) && window > 0.0
    requires count + n <= limit && c.now < expires && s.cache == Alone(c.token, count, expires)
    ensures var t := Iterate(f, s, n);
      && t.cache == Alone(c.token, count + n, if n == 0 then expires else c.now + window)
      && t.log == s.log + Times(Admission(c.token, c.now), n)
  {
    if n > 0 {
      IterateCounts(f, c, limit, window, s, n - 1, count, expires);
      TimesOneMore(s.log, Admission(c.token, c.now), n);
    }
  }

  /** The state after n admissions of one token, and what they added to the log. */
  predicate Counted(s: State, t: State, c: Call, n: nat, count: nat, window: real) {
    && t.log == s.log + Times(Admission(c.token, c.now), n)
    && (n > 0 ==> t.cache == Alone(c.token, count + n, c.now + window))
  }

  lemma CalledAgain(cfg: Settings, s: State, c: Call, n: nat, count: nat, expires: real)
    requires Sane(cfg) && count + n <= cfg.limit && c.now < expires && s.cache == Alone(c.token, count, expires)
    ensures Counted(s, Iterate(Called(cfg, c), s, n), c, n, count, cfg.window)
  {
    CalledCountsUp(cfg, c);
    IterateCounts(Called(cfg, c), c, cfg.limit, cfg.window, s, n, count, expires);
  }

  const NEW: State := State([], [], false)

  lemma {:induction false} AfterTimesOnly(cfg: Settings, c: Call, n: nat)
    ensures After(cfg, Times(c, n)) == Iterate(Called(cfg, c), NEW, n)
  {
    if n > 0 {
      AfterTimesOnly(cfg, c, n - 1);
      OnlyTimesOneMore(c, n);
      AfterOneMore(cfg, Times(c, n - 1), c);
    }
  }

  // ---------------------------------------------------------------------------------------------
  // A sliding window

  /** Admissions of a token in the window (now - window, now]. */
  function RecentCount(window: real, log: seq<Admission>, token: string, now: real): nat {
    if log == [] then 0
    else
      var last := log[|log| - 1];
      RecentCount(window, log[..|log| - 1], token, now) + if last.token == token && now < last.at + window then 1 else 0
  }

  lemma {:induction false} FewerLater(window: real, log: seq<Admission>, token: string, now: real, later: real)
    requires now <= later
    ensures RecentCount(window, log, token, later) <= RecentCount(window, log, token, now)
  {
    if log != [] { FewerLater(window, log[..|log| - 1], token, now, later); }
  }

  lemma {:induction false} NoneRecent(window: real, log: seq<Admission>, token: string, now: real)
    requires forall i :: 0 <= i < |log| ==> log[i].at + window <= now
    ensures RecentCount(window, log, token, now) == 0
  {
    if log != [] { NoneRecent(window, log[..|log| - 1], token, now); }
  }

  /** What a sliding window counts is part of the chain. */
  lemma {:induction false} RecentWithinChain(window: real, log: seq<Admission>, token: string, now: real)
    requires LogOk(log, now)
    ensures RecentCount(window, log, token, now) <= Chain(window, log, token, now)
  {
    if log != [] {
      var front, last := log[..|log| - 1], log[|log| - 1];
      if last.token != token {
        RecentWithinChain(window, front, token, now);
      } else if now < last.at + window {
        FewerLater(window, front, token, last.at, now);
        RecentWithinChain(window, front, token, last.at);
      } else {
        NoneRecent(window, log, token, now);
      }
    }
  }

  /** A chain begins with an admission that a sliding window counts too. */
  lemma {:induction false} ChainNeedsRecent(window: real, log: seq<Admission>, token: string, now: real)
    requires Chain(window, log, token, now) > 0
    ensures RecentCount(window, log, token, now) > 0
  {
    var last := log[|log| - 1];
    if last.token != token { ChainNeedsRecent(window, log[..|log| - 1], token, now); }
  }

  ghost predicate Callable(cfg: Settings, calls: seq<Call>, call: Call) {
    Ordered(calls) && NoEarlierThan(calls, call.now) && WithinCapacity(cfg, After(cfg, calls).log)
  }

  /** Whatever a sliding window would refuse, the limiter refuses. */
  lemma {:induction false} RefusesWhatSlidingWindowRefuses(cfg: Settings, calls: seq<Call>, call: Call)
    requires Sane(cfg) && Callable(cfg, calls, call)
    requires RecentCount(cfg.window, After(cfg, calls).log, call.token, call.now) >= cfg.limit
    ensures !Enforce(cfg, After(cfg, calls).cache, call).0
  {
    RunKeepsInv(cfg, calls, call.now);
    RecentWithinChain(cfg.window, After(cfg, calls).log, call.token, call.now);
    AdmittedIffChainBelowLimit(cfg, calls, call);
  }

  lemma {:induction false} RecentOfTimes(window: real, log: seq<Admission>, a: Admission, n: nat, token: string, now: real)
    requires a.token == token && now < a.at + window
    ensures RecentCount(window, log + Times(a, n), token, now) == RecentCount(window, log, token, now) + n
  {
    if n == 0 {
      assert log + Times(a, n) == log;
    } else {
      RecentOfTimes(window, log, a, n - 1, token, now);
      TimesOneMore(log, a, n);
      assert (log + Times(a, n))[..|log + Times(a, n)| - 1] == log + Times(a, n - 1);
    }
  }

  lemma AfterBoth(cfg: Settings, a: Call, m: nat, b: Call, n: nat)
    ensures After(cfg, Times(a, m) + Times(b, n)) == Iterate(Called(cfg, b), Iterate(Called(cfg, a), NEW, m), n)
  {
    AfterTimesOnly(cfg, a, m);
    AfterTimes(cfg, Times(a, m), b, n);
  }

  /** m calls at one time, and n more of the same token later. */
  lemma BothRun(cfg: Settings, a: Call, m: nat, b: Call, n: nat) returns (calls: seq<Call>)
    requires a.token == b.token && a.now <= b.now
    ensures After(cfg, calls) == Iterate(Called(cfg, b), Iterate(Called(cfg, a), NEW, m), n)
    ensures Ordered(calls) && NoEarlierThan(calls, b.now) && forall i :: 0 <= i < |calls| ==> calls[i].token == a.token
  {
    calls := Times(a, m) + Times(b, n);
    AfterBoth(cfg, a, m, b, n);
  }

  /** One call, and the rest of the limit three quarters of a window later. Half a window after that the
      first admission has left the sliding window but still hangs on the chain. */
  function SpreadEnd(cfg: Settings): State {
    Iterate(Called(cfg, Call("", 0.75 * cfg.window)), Iterate(Called(cfg, Call("", 0.0)), NEW, 1), Max(0, cfg.limit - 1))
  }

  lemma SpreadBegins(cfg: Settings)
    requires Sane(cfg) && cfg.limit >= 1
    ensures var s := Iterate(Called(cfg, Call("", 0.0)), NEW, 1);
      s.cache == Alone("", 1, cfg.window) && s.log == Times(Admission("", 0.0), 1)
  {
    CalledAgain(cfg, NEW, Call("", 0.0), 1, 0, cfg.window);
    assert [] + Times(Admission("", 0.0), 1) == Times(Admission("", 0.0), 1);
  }

  lemma SpreadOut(cfg: Settings)
    requires Sane(cfg) && cfg.limit >= 2
    ensures SpreadEnd(cfg).cache == Alone("", cfg.limit, 1.75 * cfg.window)
    ensures SpreadEnd(cfg).log == Times(Admission("", 0.0), 1) + Times(Admission("", 0.75 * cfg.window), cfg.limit - 1)
  {
    SpreadBegins(cfg);
    var s := Iterate(Called(cfg, Call("", 0.0)), NEW, 1);
    CalledAgain(cfg, s, Call("", 0.75 * cfg.window), cfg.limit - 1, 1, cfg.window);
  }

  lemma SpreadCount(cfg: Settings)
    requires Sane(cfg) && cfg.limit >= 2
    ensures RecentCount(cfg.window, SpreadEnd(cfg).log, "", 1.25 * cfg.window) == cfg.limit - 1
  {
    SpreadOut(cfg);
    FirstHasLeft(cfg.window, cfg.limit - 1);
  }

  lemma FirstHasLeft(window: real, n: nat)
    requires window > 0.0
    ensures RecentCount(window, Times(Admission("", 0.0), 1) + Times(Admission("", 0.75 * window), n), "", 1.25 * window) == n
  {
    RecentOfTimes(window, Times(Admission("", 0.0), 1), Admission("", 0.75 * window), n, "", 1.25 * window);
    NoneRecent(window, Times(Admission("", 0.0), 1), "", 1.25 * window);
  }

  lemma {:induction false} OneTokenFits(cfg: Settings, calls: seq<Call>, token: string)
    requires Sane(cfg) && forall i :: 0 <= i < |calls| ==> calls[i].token == token
    ensures forall i :: 0 <= i < |After(cfg, calls).log| ==> After(cfg, calls).log[i].token == token
    ensures WithinCapacity(cfg, After(cfg, calls).log)
  {
    if calls != [] {
      var front := calls[..|calls| - 1];
      OneTokenFits(cfg, front, token);
      var log := After(cfg, calls).log;
      forall j | 0 <= j < |log|
        ensures |Recent(cfg.window, log[..j + 1], log[j].at)| <= cfg.maxsize
      {
        assert Recent(cfg.window, log[..j + 1], log[j].at) <= {token};
        SubsetSize(Recent(cfg.window, log[..j + 1], log[j].at), {token});
      }
    }
  }

  lemma {:induction false} SubsetSize<T>(a: set<T>, b: set<T>)
    requires a <= b
    ensures |a| <= |b|
  {
    if x :| x in a {
      SubsetSize(a - {x}, b - {x});
    }
  }

  /** With a limit of two or more it is not a sliding window: each admission restarts the count's life,
      so a token can be refused though fewer than `limit` of its calls were admitted within the window. */
  lemma NotASlidingWindow(cfg: Settings)
    requires Sane(cfg) && cfg.limit >= 2
    ensures exists calls, call: Call :: Callable(cfg, calls, call) && OnlyChainRefuses(cfg, After(cfg, calls), call)
  {
    var calls := BothRun(cfg, Call("", 0.0), 1, Call("", 0.75 * cfg.window), Max(0, cfg.limit - 1));
    var call := Call("", 1.25 * cfg.window);
    assert After(cfg, calls) == SpreadEnd(cfg);
    assert Callable(cfg, calls, call) by { OneTokenFits(cfg, calls, call.token); }
    assert OnlyChainRefuses(cfg, After(cfg, calls), call) by { SpreadRefuses(cfg, call); }
  }

  /** A sliding window would admit the call and the limiter refuses it. */
  ghost predicate OnlyChainRefuses(cfg: Settings, s: State, call: Call) {
    RecentCount(cfg.window, s.log, call.token, call.now) < cfg.limit && !Enforce(cfg, s.cache, call).0
  }

  lemma SpreadRefuses(cfg: Settings, call: Call)
    requires Sane(cfg) && cfg.limit >= 2 && call == Call("", 1.25 * cfg.window)
    ensures OnlyChainRefuses(cfg, SpreadEnd(cfg), call)
  {
    SpreadCount(cfg);
    assert !Enforce(cfg, SpreadEnd(cfg).cache, call).0 by {
      SpreadOut(cfg);
      assert CountOf(SpreadEnd(cfg).cache, "", call.now) == cfg.limit;
    }
  }

  /** In every run within capacity the limiter admits exactly what a sliding window admits. */
  ghost predicate DecidesAsSlidingWindow(cfg: Settings) {
    forall calls, call: Call :: Callable(cfg, calls, call) ==>
      (Enforce(cfg, After(cfg, calls).cache, call).0 <==>
       RecentCount(cfg.window, After(cfg, calls).log, call.token, call.now) < cfg.limit)
  }

  /** The limiter is a sliding window exactly for limits of at most one. */
  lemma SlidingWindowIffLimitAtMostOne(cfg: Settings)
    requires Sane(cfg)
    ensures DecidesAsSlidingWindow(cfg) <==> cfg.limit <= 1
  {
    if cfg.limit <= 1 {
      forall calls, call: Call | Callable(cfg, calls, call)
        ensures Enforce(cfg, After(cfg, calls).cache, call).0 <==>
                RecentCount(cfg.window, After(cfg, calls).log, call.token, call.now) < cfg.limit
      {
        DecidesAlike(cfg, calls, call);
      }
    } else {
      NotASlidingWindow(cfg);
    }
  }

  lemma {:induction false} DecidesAlike(cfg: Settings, calls: seq<Call>, call: Call)
    requires Sane(cfg) && cfg.limit <= 1 && Callable(cfg, calls, call)
    ensures Enforce(cfg, After(cfg, calls).cache, call).0 <==>
            RecentCount(cfg.window, After(cfg, calls).log, call.token, call.now) < cfg.limit
  {
    var log := After(cfg, calls).log;
    AdmittedIffChainBelowLimit(cfg, calls, call);
    RunKeepsInv(cfg, calls, call.now);
    RecentWithinChain(cfg.window, log, call.token, call.now);
    if Chain(cfg.window, log, call.token, call.now) > 0 {
      ChainNeedsRecent(cfg.window, log, call.token, call.now);
    }
  }

  // ---------------------------------------------------------------------------------------------
  // More tokens than the cache holds

  /** Distinct names. */
  function Name(k: nat): string { Times('u', k) }

  lemma NamesDiffer(j: nat, k: nat)
    requires j != k
    ensures Name(j) != Name(k)
  {
    assert |Name(j)| == j && |Name(k)| == k;
  }

  function Others(k: nat): seq<Call> { seq(k, i requires 0 <= i < k => Call(Name(i + 1), 0.0)) }

  function OtherCounters(k: nat, window: real): Counters {
    seq(k, i requires 0 <= i < k => Entry(Name(i + 1), 1, window))
  }

  function OtherAdmissions(k: nat): seq<Admission> { seq(k, i requires 0 <= i < k => Admission(Name(i + 1), 0.0)) }

  /** A write of a new token to a cache without expired entries. */
  lemma NewcomerWrites(es: Counters, token: string, now: real, ttl: real, maxsize: nat)
    requires (forall i :: 0 <= i < |es| ==> now < es[i].expires && es[i].key != token) && maxsize >= 1
    ensures CountOf(es, token, now) == 0 && Touch(es, token, now) == es
    ensures Written(es, token, 1, now, ttl, maxsize) ==
      (if |es| < maxsize then es else es[|es| - (maxsize - 1)..]) + [Entry(token, 1, now + ttl)]
  {
    LiveWhole(es, now);
    WithoutAbsent(es, token);
  }

  /** The state after the first k others have called. */
  function Visited(cfg: Settings, s: State, k: nat): State {
    if k == 0 then s else Step(cfg, Visited(cfg, s, k - 1), Call(Name(k), 0.0))
  }

  lemma OthersOneMore(calls: seq<Call>, k: nat)
    requires k > 0
    ensures calls + Others(k) == (calls + Others(k - 1)) + [Call(Name(k), 0.0)]
  {
  }

  lemma {:induction false} AfterOthers(cfg: Settings, calls: seq<Call>, k: nat)
    ensures After(cfg, calls + Others(k)) == Visited(cfg, After(cfg, calls), k)
  {
    if k == 0 {
      assert calls + Others(k) == calls;
    } else {
      AfterOthers(cfg, calls, k - 1);
      OthersOneMore(calls, k);
      AfterOneMore(cfg, calls + Others(k - 1), Call(Name(k), 0.0));
    }
  }

  lemma AdmissionsOneMore(log: seq<Admission>, k: nat)
    requires k > 0
    ensures (log + OtherAdmissions(k - 1)) + [Admission(Name(k), 0.0)] == log + OtherAdmissions(k)
  {
  }

  lemma CountersOneMore(es: Counters, k: nat, window: real)
    requires k > 0
    ensures (es + OtherCounters(k - 1, window)) + [Entry(Name(k), 1, window)] == es + OtherCounters(k, window)
  {
  }

  /** The first token has used its limit; k others follow, and the last of them, if there are as many as
      the cache holds, pushes the first one out. */
  lemma {:induction false} Crowded(cfg: Settings, s: State, k: nat)
    requires Sane(cfg) && cfg.limit >= 1 && k <= cfg.maxsize
    requires s.cache == [Entry(Name(0), cfg.limit, cfg.window)]
    ensures var t := Visited(cfg, s, k);
      && t.cache == (if k < cfg.maxsize then [Entry(Name(0), cfg.limit, cfg.window)] else []) + OtherCounters(k, cfg.window)
      && t.log == s.log + OtherAdmissions(k)
  {
    if k > 0 {
      Crowded(cfg, s, k - 1);
      AdmissionsOneMore(s.log, k);
      CrowdGrows(cfg, Visited(cfg, s, k - 1), k);
    }
  }

  lemma NameIsNew(cfg: Settings, es: Counters, k: nat)
    requires Sane(cfg) && k >= 1 && es == [Entry(Name(0), cfg.limit, cfg.window)] + OtherCounters(k - 1, cfg.window)
    ensures forall i :: 0 <= i < |es| ==> 0.0 < es[i].expires && es[i].key != Name(k)
  {
    forall i | 0 <= i < |es|
      ensures 0.0 < es[i].expires && es[i].key != Name(k)
    {
      NamesDiffer(i, k);
    }
  }

  lemma NewcomerSteps(cfg: Settings, s: State, token: string)
    requires Sane(cfg) && cfg.limit >= 1
    requires forall i :: 0 <= i < |s.cache| ==> 0.0 < s.cache[i].expires && s.cache[i].key != token
    ensures var t := Step(cfg, s, Call(token, 0.0));
      && t.log == s.log + [Admission(token, 0.0)]
      && t.cache == (if |s.cache| < cfg.maxsize then s.cache else s.cache[|s.cache| - (cfg.maxsize - 1)..]) + [Entry(token, 1, cfg.window)]
  {
    NewcomerWrites(s.cache, token, 0.0, cfg.window, cfg.maxsize);
  }

  lemma CrowdGrows(cfg: Settings, s: State, k: nat)
    requires Sane(cfg) && cfg.limit >= 1 && 1 <= k <= cfg.maxsize
    requires s.cache == [Entry(Name(0), cfg.limit, cfg.window)] + OtherCounters(k - 1, cfg.window)
    ensures var t := Step(cfg, s, Call(Name(k), 0.0));
      && t.cache == (if k < cfg.maxsize then [Entry(Name(0), cfg.limit, cfg.window)] else []) + OtherCounters(k, cfg.window)
      && t.log == s.log + [Admission(Name(k), 0.0)]
  {
    NameIsNew(cfg, s.cache, k);
    NewcomerSteps(cfg, s, Name(k));
    CountersOneMore([Entry(Name(0), cfg.limit, cfg.window)], k, cfg.window);
    CountersOneMore([], k, cfg.window);
    assert s.cache[1..] == [] + OtherCounters(k - 1, cfg.window);
  }

  lemma {:induction false} CountConcat(a: seq<Admission>, b: seq<Admission>, token: string, from: real, to: real)
    ensures WindowCount(a + b, token, from, to) == WindowCount(a, token, from, to) + WindowCount(b, token, from, to)
  {
    if b == [] {
      assert a + b == a;
    } else {
      assert (a + b)[..|a + b| - 1] == a + b[..|b| - 1];
      CountConcat(a, b[..|b| - 1], token, from, to);
    }
  }

  lemma {:induction false} CountTimes(a: Admission, n: nat, from: real, to: real)
    requires from <= a.at < to
    ensures WindowCount(Times(a, n), a.token, from, to) == n
  {
    if n > 0 {
      assert Times(a, n)[..n - 1] == Times(a, n - 1);
      CountTimes(a, n - 1, from, to);
    }
  }

  /** Admissions of a token in the window that begins at `from`. */
  function InWindow(window: real, log: seq<Admission>, token: string, from: real): nat {
    WindowCount(log, token, from, from + window)
  }

  /** The log of a run in which `limit` calls of one token, one of each of maxsize others, and one more
      of the first are all admitted. */
  function CrowdedLog(cfg: Settings): seq<Admission> {
    var a := Admission(Name(0), 0.0);
    Times(a, Max(0, cfg.limit)) + (OtherAdmissions(cfg.maxsize) + Times(a, 1))
  }

  /** The first token calls until its limit is used up, the others call, and the first calls once more. */
  function Crowd(cfg: Settings): seq<Call> {
    (Times(Call(Name(0), 0.0), Max(0, cfg.limit)) + Others(cfg.maxsize)) + [Call(Name(0), 0.0)]
  }

  function CrowdEnd(cfg: Settings): State {
    Step(cfg, Visited(cfg, Iterate(Called(cfg, Call(Name(0), 0.0)), NEW, Max(0, cfg.limit)), cfg.maxsize), Call(Name(0), 0.0))
  }

  lemma AfterCrowd(cfg: Settings)
    ensures After(cfg, Crowd(cfg)) == CrowdEnd(cfg)
  {
    var c := Call(Name(0), 0.0);
    var used := Times(c, Max(0, cfg.limit));
    AfterTimesOnly(cfg, c, Max(0, cfg.limit));
    AfterOthers(cfg, used, cfg.maxsize);
    AfterOneMore(cfg, used + Others(cfg.maxsize), c);
  }

  lemma CrowdRun(cfg: Settings) returns (calls: seq<Call>)
    ensures Ordered(calls) && After(cfg, calls) == CrowdEnd(cfg)
  {
    calls := Crowd(cfg);
    assert After(cfg, Crowd(cfg)) == CrowdEnd(cfg) by { AfterCrowd(cfg); }
    assert forall i :: 0 <= i < |calls| ==> calls[i].now == 0.0;
  }

  lemma CrowdIsAdmitted(cfg: Settings)
    requires Sane(cfg) && cfg.limit >= 1
    ensures CrowdEnd(cfg).log == CrowdedLog(cfg)
  {
    var c, a := Call(Name(0), 0.0), Admission(Name(0), 0.0);
    var used := Iterate(Called(cfg, c), NEW, cfg.limit);
    CalledAgain(cfg, NEW, c, cfg.limit, 0, cfg.window);
    Crowded(cfg, used, cfg.maxsize);
    assert [] + OtherCounters(cfg.maxsize, cfg.window) == OtherCounters(cfg.maxsize, cfg.window);
    NewcomerAdmitted(cfg, Visited(cfg, used, cfg.maxsize));
    LogInParts(Times(a, cfg.limit), OtherAdmissions(cfg.maxsize), a);
  }

  lemma LogInParts(x: seq<Admission>, y: seq<Admission>, a: Admission)
    ensures ([] + x) + y + [a] == x + (y + Times(a, 1))
  {
  }

  lemma CountAround(x: seq<Admission>, y: seq<Admission>, z: seq<Admission>, token: string, from: real, to: real)
    ensures WindowCount(x + (y + z), token, from, to) >= WindowCount(x, token, from, to) + WindowCount(z, token, from, to)
  {
    CountConcat(x, y + z, token, from, to);
    CountConcat(y, z, token, from, to);
  }

  /** It admits the first token more often than its limit. */
  lemma OneTooMany(cfg: Settings)
    requires Sane(cfg) && cfg.limit >= 1
    ensures InWindow(cfg.window, CrowdedLog(cfg), Name(0), 0.0) > cfg.limit
  {
    var a := Admission(Name(0), 0.0);
    CountAround(Times(a, cfg.limit), OtherAdmissions(cfg.maxsize), Times(a, 1), Name(0), 0.0, cfg.window);
    CountTimes(a, cfg.limit, 0.0, cfg.window);
    CountTimes(a, 1, 0.0, cfg.window);
  }

  lemma NewcomerAdmitted(cfg: Settings, s: State)
    requires Sane(cfg) && cfg.limit >= 1 && s.cache == OtherCounters(cfg.maxsize, cfg.window)
    ensures Step(cfg, s, Call(Name(0), 0.0)).log == s.log + [Admission(Name(0), 0.0)]
  {
    forall i | 0 <= i < |s.cache|
      ensures s.cache[i].key != Name(0)
    {
      NamesDiffer(i + 1, 0);
    }
    NewcomerSteps(cfg, s, Name(0));
  }

  function Names(n: nat): (r: set<string>)
    ensures |r| <= n
    ensures forall k: nat :: k < n ==> Name(k) in r
  {
    if n == 0 then {} else Names(n - 1) + {Name(n - 1)}
  }

  lemma FewNames(window: real, log: seq<Admission>, n: nat)
    requires forall i :: 0 <= i < |log| ==> log[i].token in Names(n)
    ensures TokensWithin(window, log, n)
  {
    forall j | 0 <= j < |log|
      ensures |Recent(window, log[..j + 1], log[j].at)| <= n
    {
      assert Recent(window, log[..j + 1], log[j].at) <= Names(n);
      SubsetSize(Recent(window, log[..j + 1], log[j].at), Names(n));
    }
  }

  /** Every window holds at most `limit` admissions of each token. */
  ghost predicate LimitHolds(cfg: Settings, log: seq<Admission>) {
    forall token, from :: InWindow(cfg.window, log, token, from) <= Max(0, cfg.limit)
  }

  /** The limit holds in every run that admits at most d distinct tokens within a window. */
  ghost predicate LimitHoldsUpTo(cfg: Settings, d: nat) {
    forall calls :: Ordered(calls) && TokensWithin(cfg.window, After(cfg, calls).log, d) ==> LimitHolds(cfg, After(cfg, calls).log)
  }

  lemma ChainsKeepLimit(cfg: Settings, log: seq<Admission>, clock: real)
    requires LogOk(log, clock) && ChainsWithin(cfg, log)
    ensures LimitHolds(cfg, log)
  {
    forall token, from
      ensures InWindow(cfg.window, log, token, from) <= Max(0, cfg.limit)
    {
      WindowWithinLimit(cfg, log, token, from, clock);
    }
  }

  lemma {:induction false} LimitHoldsWithinCapacity(cfg: Settings, calls: seq<Call>)
    requires Sane(cfg) && Ordered(calls) && WithinCapacity(cfg, After(cfg, calls).log)
    ensures LimitHolds(cfg, After(cfg, calls).log)
  {
    var clock := if calls == [] then 0.0 else calls[|calls| - 1].now;
    ChainsNeverExceedLimit(cfg, calls);
    RunKeepsInv(cfg, calls, clock);
    ChainsKeepLimit(cfg, After(cfg, calls).log, clock);
  }

  lemma {:induction false} NothingAdmitted(cfg: Settings, calls: seq<Call>)
    requires cfg.limit <= 0
    ensures After(cfg, calls).log == []
  {
    if calls != [] { NothingAdmitted(cfg, calls[..|calls| - 1]); }
  }

  /** Whatever the settings, some run over capacity breaks the limit. */
  lemma OverCapacityTheLimitFails(cfg: Settings)
    requires Sane(cfg) && cfg.limit >= 1
    ensures exists calls ::
      && Ordered(calls) && !WithinCapacity(cfg, After(cfg, calls).log)
      && TokensWithin(cfg.window, After(cfg, calls).log, cfg.maxsize + 1)
      && !LimitHolds(cfg, After(cfg, calls).log)
  {
    var calls := CrowdRun(cfg);
    CrowdIsAdmitted(cfg);
    OneTooMany(cfg);
    FewNames(cfg.window, CrowdedLog(cfg), cfg.maxsize + 1);
    assert !LimitHolds(cfg, CrowdedLog(cfg));
    if WithinCapacity(cfg, CrowdedLog(cfg)) { LimitHoldsWithinCapacity(cfg, calls); }
  }

  /** The limit is guaranteed for d distinct tokens in a window exactly when the cache has room for them. */
  lemma {:induction false} LimitHoldsIffRoomForAllTokens(cfg: Settings, d: nat)
    requires Sane(cfg)
    ensures LimitHoldsUpTo(cfg, d) <==> d <= cfg.maxsize || cfg.limit <= 0
  {
    if d <= cfg.maxsize || cfg.limit <= 0 {
      forall calls | Ordered(calls) && TokensWithin(cfg.window, After(cfg, calls).log, d)
        ensures LimitHolds(cfg, After(cfg, calls).log)
      {
        if cfg.limit <= 0 { NothingAdmitted(cfg, calls); } else { LimitHoldsWithinCapacity(cfg, calls); }
      }
    } else {
      OverCapacityTheLimitFails(cfg);
      var calls :| Ordered(calls) && TokensWithin(cfg.window, After(cfg, calls).log, cfg.maxsize + 1) && !LimitHolds(cfg, After(cfg, calls).log);
      assert TokensWithin(cfg.window, After(cfg, calls).log, d);
    }
  }
}
