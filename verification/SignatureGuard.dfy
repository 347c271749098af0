/** Signed requests and their replay cache (`verify_signature` in app/identity/auth.py). */
module SignatureGuard {
  import opened Wrappers
  import opened Counting
  import opened TtlCaches

  const MAX_TIMESTAMP_AGE := 300

  /** HMAC (RFC 2104) under the shared secret, and Python's `int(str)`, stay uninterpreted. */
  datatype Settings = Settings(
    hmac: seq<bv8> -> string,
    parseInt: string -> Option<int>,
    ttl: real,
    maxsize: nat)

  datatype SignedRequest = SignedRequest(timestamp: Option<string>, signature: Option<string>, body: seq<bv8>)

  /** One call: the request, the wall clock in whole seconds, and the cache's clock. */
  datatype Call = Call(request: SignedRequest, wall: int, now: real)

  /** A call that was accepted. */
  datatype Accepted = Accepted(signature: string, wall: int, at: real)

  predicate Present(header: Option<string>) { header.Some? && header.value != "" }

  /** All the checks that come before the replay cache. */
  predicate Genuine(cfg: Settings, r: SignedRequest, wall: int) {
    && Present(r.timestamp) && Present(r.signature)
    && var t := cfg.parseInt(r.timestamp.value);
       && t.Some?
       && -MAX_TIMESTAMP_AGE <= wall - t.value <= MAX_TIMESTAMP_AGE
       && cfg.hmac(r.body) == r.signature.value
  }

  function Verify(cfg: Settings, es: Entries<string, int>, call: Call): (bool, Entries<string, int>) {
    if !Genuine(cfg, call.request, call.wall) then (false, es)
    else
      var signature := call.request.signature.value;
      if Contains(es, signature, call.now) then (false, es)
      else (true, Written(es, signature, call.wall, call.now, cfg.ttl, cfg.maxsize))
  }

  // ---------------------------------------------------------------------------------------------
  // The history: a log of accepted calls

  datatype State = State(cache: Entries<string, int>, log: seq<Accepted>)

  function Step(cfg: Settings, s: State, call: Call): State {
    var (ok, cache) := Verify(cfg, s.cache, call);
    State(cache, if ok then s.log + [Accepted(call.request.signature.value, call.wall, call.now)] else s.log)
  }

  function After(cfg: Settings, calls: seq<Call>): State {
    if calls == [] then State([], []) else Step(cfg, After(cfg, calls[..|calls| - 1]), calls[|calls| - 1])
  }

  ghost predicate Ordered(calls: seq<Call>) {
    forall i, j :: 0 <= i < j < |calls| ==> calls[i].now <= calls[j].now
  }

  ghost predicate NoEarlierThan(calls: seq<Call>, now: real) {
    forall i :: 0 <= i < |calls| ==> calls[i].now <= now
  }

  function Fresh(cfg: Settings, now: real): Accepted -> nat { (a: Accepted) => if now < a.at + cfg.ttl then 1 else 0 }

  /** How many calls were accepted within the TTL before `now`. */
  function FreshCount(cfg: Settings, log: seq<Accepted>, now: real): nat { Sum(Fresh(cfg, now), log) }

  function AsEntry(cfg: Settings, a: Accepted): Entry<string, int> { Entry(a.signature, a.wall, a.at + cfg.ttl) }

  function AsEntries(cfg: Settings, log: seq<Accepted>): Entries<string, int> {
    seq(|log|, i requires 0 <= i < |log| => AsEntry(cfg, log[i]))
  }

  ghost predicate LogOk(log: seq<Accepted>, clock: real) {
    && (forall i, j :: 0 <= i < j < |log| ==> log[i].at <= log[j].at)
    && (forall i :: 0 <= i < |log| ==> log[i].at <= clock)
  }

  /** The cache is a suffix of the log; what is missing has expired, unless the cache is full. */
  ghost predicate CacheInv(cfg: Settings, es: Entries<string, int>, log: seq<Accepted>, clock: real) {
    && cfg.maxsize >= 1
    && LogOk(log, clock)
    && |es| <= cfg.maxsize && |es| <= |log|
    && es == AsEntries(cfg, log)[|log| - |es|..]
    && (|es| < cfg.maxsize ==> forall i :: 0 <= i < |log| - |es| ==> log[i].at + cfg.ttl <= clock)
  }

  ghost predicate SortedByExpiry(es: Entries<string, int>) {
    forall i, j :: 0 <= i < j < |es| ==> es[i].expires <= es[j].expires
  }

  /** In a cache ordered by expiry the live entries are a suffix. */
  lemma {:induction false} LiveIsSuffix(es: Entries<string, int>, now: real)
    requires SortedByExpiry(es)
    ensures Live(es, now) == es[|es| - |Live(es, now)|..]
  {
    if es != [] {
      LiveIsSuffix(es[1..], now);
      if now < es[0].expires {
        LiveWhole(es[1..], now);
      }
    }
  }

  lemma {:induction false} LiveCounts(cfg: Settings, log: seq<Accepted>, now: real)
    ensures |Live(AsEntries(cfg, log), now)| == FreshCount(cfg, log, now)
  {
    if log != [] {
      assert AsEntries(cfg, log)[1..] == AsEntries(cfg, log[1..]);
      LiveCounts(cfg, log[1..], now);
    }
  }

  lemma {:induction false} LiveConcat(a: Entries<string, int>, b: Entries<string, int>, now: real)
    ensures Live(a + b, now) == Live(a, now) + Live(b, now)
  {
    if a == [] {
      assert a + b == b;
    } else {
      assert (a + b)[1..] == a[1..] + b;
      LiveConcat(a[1..], b, now);
    }
  }

  lemma {:induction false} LiveNone(es: Entries<string, int>, now: real)
    requires forall i :: 0 <= i < |es| ==> es[i].expires <= now
    ensures Live(es, now) == []
  {
    if es != [] { LiveNone(es[1..], now); }
  }

  /** From a live position on, all is live. */
  lemma LiveTail(es: Entries<string, int>, now: real, k: nat)
    requires SortedByExpiry(es) && k < |es| && now < es[k].expires
    ensures |Live(es, now)| >= |es| - k
  {
    assert es == es[..k] + es[k..];
    LiveConcat(es[..k], es[k..], now);
    LiveWhole(es[k..], now);
  }

  /** The live part, being a suffix, is live. */
  lemma LiveBack(es: Entries<string, int>, now: real, i: nat)
    requires Live(es, now) == es[|es| - |Live(es, now)|..] && |es| - |Live(es, now)| <= i < |es|
    ensures now < es[i].expires
  {
    LiveMembers(es, now);
    assert es[i] == Live(es, now)[i - (|es| - |Live(es, now)|)];
  }

  /** In an ordered sequence the live part is a suffix, and the rest has expired. */
  lemma {:induction false} LiveSplit(es: Entries<string, int>, now: real)
    requires SortedByExpiry(es)
    ensures var m := |es| - |Live(es, now)|;
      && Live(es, now) == es[m..]
      && (forall i :: 0 <= i < m ==> es[i].expires <= now)
      && (forall i :: m <= i < |es| ==> now < es[i].expires)
  {
    LiveIsSuffix(es, now);
    var m := |es| - |Live(es, now)|;
    forall i | 0 <= i < m ensures es[i].expires <= now { if now < es[i].expires { LiveTail(es, now, i); } }
    forall i | m <= i < |es| ensures now < es[i].expires { LiveBack(es, now, i); }
  }

  lemma LiveSkipsExpired(all: Entries<string, int>, k: nat, now: real)
    requires k <= |all| && forall i :: 0 <= i < k ==> all[i].expires <= now
    ensures Live(all[k..], now) == Live(all, now)
  {
    LiveNone(all[..k], now);
    LiveConcat(all[..k], all[k..], now);
    assert all[..k] + all[k..] == all;
  }

  /** The live part of a suffix that holds `maxsize` entries or else everything unexpired. */
  lemma LiveOfSuffix(all: Entries<string, int>, k: nat, maxsize: nat, now: real)
    requires SortedByExpiry(all) && k <= |all| && |all| - k <= maxsize
    requires |all| - k < maxsize ==> forall i :: 0 <= i < k ==> all[i].expires <= now
    ensures var n := |Live(all[k..], now)|;
      n == Min(maxsize, |Live(all, now)|) && Live(all[k..], now) == all[|all| - n..]
  {
    var m := |all| - |Live(all, now)|;
    assert Live(all, now) == all[m..] by { LiveSplit(all, now); }
    if k <= m {
      assert Live(all[k..], now) == Live(all, now) by {
        LiveSplit(all, now);
        LiveSkipsExpired(all, k, now);
      }
    } else {
      assert |all| - k == maxsize by {
        LiveSplit(all, now);
        assert now < all[m].expires;
      }
      assert Live(all[k..], now) == all[k..] by {
        LiveSplit(all, now);
        LiveWhole(all[k..], now);
      }
    }
  }

  lemma AsEntriesSorted(cfg: Settings, log: seq<Accepted>, clock: real)
    requires LogOk(log, clock)
    ensures SortedByExpiry(AsEntries(cfg, log))
  {
  }

  /** The live entries are the last min(maxsize, fresh) of the log; when there are fewer than
      `maxsize` of them, everything before has expired. */
  lemma LiveLength(cfg: Settings, es: Entries<string, int>, log: seq<Accepted>, clock: real, now: real)
    requires CacheInv(cfg, es, log, clock) && clock <= now
    ensures var n := |Live(es, now)|;
      && n == Min(cfg.maxsize, FreshCount(cfg, log, now)) <= |log|
      && Live(es, now) == AsEntries(cfg, log)[|log| - n..]
  {
    AsEntriesSorted(cfg, log, clock);
    LiveOfSuffix(AsEntries(cfg, log), |log| - |es|, cfg.maxsize, now);
    LiveCounts(cfg, log, now);
  }

  lemma ExpiredBefore(cfg: Settings, log: seq<Accepted>, clock: real, now: real)
    requires LogOk(log, clock)
    ensures var n := FreshCount(cfg, log, now);
      n <= |log| && forall i :: 0 <= i < |log| - n ==> log[i].at + cfg.ttl <= now
  {
    AsEntriesSorted(cfg, log, clock);
    LiveSplit(AsEntries(cfg, log), now);
    LiveCounts(cfg, log, now);
    forall i | 0 <= i < |log| - FreshCount(cfg, log, now)
      ensures log[i].at + cfg.ttl <= now
    {
      assert AsEntries(cfg, log)[i].expires <= now;
    }
  }

  /** Accepting one more: the oldest of a full live cache makes room. */
  lemma AcceptKeepsInv(cfg: Settings, es: Entries<string, int>, log: seq<Accepted>, clock: real, a: Accepted)
    requires CacheInv(cfg, es, log, clock) && clock <= a.at
    requires !Contains(es, a.signature, a.at)
    ensures CacheInv(cfg, Written(es, a.signature, a.wall, a.at, cfg.ttl, cfg.maxsize), log + [a], a.at)
  {
    WrittenIsTrimmed(cfg, es, a);
    KeptIsSuffix(cfg, es, log, clock, a.at);
    SuffixGrows(cfg, Trim(Live(es, a.at), cfg.maxsize), log, clock, a);
  }

  lemma SuffixGrows(cfg: Settings, kept: Entries<string, int>, log: seq<Accepted>, clock: real, a: Accepted)
    requires LogOk(log, clock) && clock <= a.at
    requires |kept| <= |log| && |kept| < cfg.maxsize
    requires kept == AsEntries(cfg, log)[|log| - |kept|..]
    requires |kept| + 1 < cfg.maxsize ==> forall i :: 0 <= i < |log| - |kept| ==> log[i].at + cfg.ttl <= a.at
    ensures CacheInv(cfg, kept + [AsEntry(cfg, a)], log + [a], a.at)
  {
    assert AsEntries(cfg, log + [a]) == AsEntries(cfg, log) + [AsEntry(cfg, a)];
  }

  lemma KeptIsSuffix(cfg: Settings, es: Entries<string, int>, log: seq<Accepted>, clock: real, now: real)
    requires CacheInv(cfg, es, log, clock) && clock <= now
    ensures var kept := Trim(Live(es, now), cfg.maxsize);
      && |kept| <= |log| && |kept| < cfg.maxsize
      && kept == AsEntries(cfg, log)[|log| - |kept|..]
      && (|kept| + 1 < cfg.maxsize ==> forall i :: 0 <= i < |log| - |kept| ==> log[i].at + cfg.ttl <= now)
  {
    LiveLength(cfg, es, log, clock, now);
    ExpiredBefore(cfg, log, clock, now);
  }

  lemma WrittenIsTrimmed(cfg: Settings, es: Entries<string, int>, a: Accepted)
    requires !Contains(es, a.signature, a.at)
    ensures Written(es, a.signature, a.wall, a.at, cfg.ttl, cfg.maxsize) == Trim(Live(es, a.at), cfg.maxsize) + [AsEntry(cfg, a)]
  {
    LiveMembers(es, a.at);
    WithoutAbsent(Live(es, a.at), a.signature);
  }

  function Trim(es: Entries<string, int>, maxsize: nat): Entries<string, int> {
    if |es| < maxsize then es else es[|es| - Max(0, maxsize - 1)..]
  }

  lemma StepKeepsInv(cfg: Settings, s: State, call: Call, clock: real)
    requires CacheInv(cfg, s.cache, s.log, clock) && clock <= call.now
    ensures CacheInv(cfg, Step(cfg, s, call).cache, Step(cfg, s, call).log, call.now)
  {
    if Verify(cfg, s.cache, call).0 {
      AcceptKeepsInv(cfg, s.cache, s.log, clock, Accepted(call.request.signature.value, call.wall, call.now));
    }
  }

  lemma {:induction false} RunKeepsInv(cfg: Settings, calls: seq<Call>, now: real)
    requires cfg.maxsize >= 1 && Ordered(calls) && NoEarlierThan(calls, now)
    ensures CacheInv(cfg, After(cfg, calls).cache, After(cfg, calls).log, now)
  {
    if calls != [] {
      var before, last := calls[..|calls| - 1], calls[|calls| - 1];
      RunKeepsInv(cfg, before, last.now);
      StepKeepsInv(cfg, After(cfg, before), last, last.now);
    }
  }

  // ---------------------------------------------------------------------------------------------
  // What the cache means

  /** The live contents of the cache are the last min(maxsize, n) accepted calls, where n calls were
      accepted within the TTL. */
  ghost predicate HoldsRecentLog(cfg: Settings, s: State, now: real) {
    var n := Min(cfg.maxsize, FreshCount(cfg, s.log, now));
    0 <= n <= |s.log| && Live(s.cache, now) == AsEntries(cfg, s.log[|s.log| - n..])
  }

  lemma RecentLog(cfg: Settings, s: State, now: real)
    requires CacheInv(cfg, s.cache, s.log, now)
    ensures HoldsRecentLog(cfg, s, now)
  {
    LiveLength(cfg, s.cache, s.log, now, now);
    AsEntriesSuffix(cfg, s.log, |Live(s.cache, now)|);
  }

  /** In every run the cache holds the recent end of the log of accepted calls, and nothing else. */
  lemma CacheIsTheRecentLog(cfg: Settings, calls: seq<Call>, now: real)
    requires cfg.maxsize >= 1 && Ordered(calls) && NoEarlierThan(calls, now)
    ensures HoldsRecentLog(cfg, After(cfg, calls), now)
  {
    RunKeepsInv(cfg, calls, now);
    RecentLog(cfg, After(cfg, calls), now);
  }

  lemma AsEntriesSuffix(cfg: Settings, log: seq<Accepted>, n: nat)
    requires n <= |log|
    ensures AsEntries(cfg, log)[|log| - n..] == AsEntries(cfg, log[|log| - n..])
  {
  }

  /** The signature is among the last `maxsize` accepted ones and was accepted within the TTL. */
  ghost predicate SeenRecently(cfg: Settings, log: seq<Accepted>, signature: string, now: real) {
    exists i :: 0 <= i < |log| && |log| - i <= cfg.maxsize && log[i].signature == signature && now < log[i].at + cfg.ttl
  }

  lemma ContainedWasSeen(cfg: Settings, es: Entries<string, int>, log: seq<Accepted>, clock: real, signature: string, now: real)
    requires CacheInv(cfg, es, log, clock) && Contains(es, signature, now)
    ensures SeenRecently(cfg, log, signature, now)
  {
    var e := Find(es, signature, now).value;
    var j :| 0 <= j < |es| && es[j] == e;
    var i := |log| - |es| + j;
    assert AsEntries(cfg, log)[i] == e;
    assert log[i].signature == signature && now < log[i].at + cfg.ttl;
  }

  lemma SeenIsContained(cfg: Settings, es: Entries<string, int>, log: seq<Accepted>, clock: real, signature: string, now: real)
    requires CacheInv(cfg, es, log, clock) && clock <= now && SeenRecently(cfg, log, signature, now)
    ensures Contains(es, signature, now)
  {
    var i :| 0 <= i < |log| && |log| - i <= cfg.maxsize && log[i].signature == signature && now < log[i].at + cfg.ttl;
    LoggedIsCached(cfg, es, log, clock, i, now);
    assert es[i - (|log| - |es|)] in es;
  }

  lemma LoggedIsCached(cfg: Settings, es: Entries<string, int>, log: seq<Accepted>, clock: real, i: nat, now: real)
    requires CacheInv(cfg, es, log, clock) && clock <= now
    requires i < |log| && |log| - i <= cfg.maxsize && now < log[i].at + cfg.ttl
    ensures |log| - |es| <= i && es[i - (|log| - |es|)] == AsEntry(cfg, log[i])
  {
  }

  lemma ContainsIsSeenRecently(cfg: Settings, es: Entries<string, int>, log: seq<Accepted>, clock: real, signature: string, now: real)
    requires CacheInv(cfg, es, log, clock) && clock <= now
    ensures Contains(es, signature, now) <==> SeenRecently(cfg, log, signature, now)
  {
    if Contains(es, signature, now) {
      ContainedWasSeen(cfg, es, log, clock, signature, now);
    } else if SeenRecently(cfg, log, signature, now) {
      SeenIsContained(cfg, es, log, clock, signature, now);
    }
  }

  /** A request is accepted exactly when both headers are there, its timestamp is a number within 300
      seconds of the wall clock, its signature is the HMAC of its body, and that was not seen recently. */
  lemma AcceptedIffNotReplayed(cfg: Settings, calls: seq<Call>, call: Call)
    requires cfg.maxsize >= 1 && Ordered(calls) && NoEarlierThan(calls, call.now)
    ensures var s := After(cfg, calls);
      Verify(cfg, s.cache, call).0 <==>
        && call.request.timestamp.Some? && call.request.timestamp.value != ""
        && call.request.signature.Some? && call.request.signature.value != ""
        && cfg.parseInt(call.request.timestamp.value).Some?
        && -300 <= call.wall - cfg.parseInt(call.request.timestamp.value).value <= 300
        && cfg.hmac(call.request.body) == call.request.signature.value
        && !SeenRecently(cfg, s.log, call.request.signature.value, call.now)
  {
    var s := After(cfg, calls);
    RunKeepsInv(cfg, calls, call.now);
    if Genuine(cfg, call.request, call.wall) {
      ContainsIsSeenRecently(cfg, s.cache, s.log, call.now, call.request.signature.value, call.now);
    }
  }

  /** Two accepted calls with one signature are a TTL apart, or `maxsize` others were accepted between them. */
  ghost predicate NoReplay(cfg: Settings, log: seq<Accepted>) {
    forall i, j :: 0 <= i < j < |log| && log[i].signature == log[j].signature ==>
      log[i].at + cfg.ttl <= log[j].at || j - i - 1 >= cfg.maxsize
  }

  lemma StepKeepsNoReplay(cfg: Settings, s: State, call: Call, clock: real)
    requires CacheInv(cfg, s.cache, s.log, clock) && clock <= call.now && NoReplay(cfg, s.log)
    ensures NoReplay(cfg, Step(cfg, s, call).log)
  {
    var t := Step(cfg, s, call);
    if t.log != s.log {
      ContainsIsSeenRecently(cfg, s.cache, s.log, clock, call.request.signature.value, call.now);
      forall i | 0 <= i < |s.log| && t.log[i].signature == t.log[|s.log|].signature
        ensures t.log[i].at + cfg.ttl <= t.log[|s.log|].at || |s.log| - i - 1 >= cfg.maxsize
      {
        assert s.log[i] == t.log[i];
      }
    }
  }

  lemma {:induction false} ReplaysAreApart(cfg: Settings, calls: seq<Call>)
    requires cfg.maxsize >= 1 && Ordered(calls)
    ensures NoReplay(cfg, After(cfg, calls).log)
  {
    if calls != [] {
      var before, last := calls[..|calls| - 1], calls[|calls| - 1];
      ReplaysAreApart(cfg, before);
      RunKeepsInv(cfg, before, last.now);
      StepKeepsNoReplay(cfg, After(cfg, before), last, last.now);
    }
  }

  // ---------------------------------------------------------------------------------------------
  // The module with its cache object

  class Verifier {
    const cfg: Settings
    const cache: TtlCache<string, int>
    ghost var log: seq<Accepted>
    ghost var clock: real

    constructor (cfg: Settings)
      requires cfg.maxsize >= 1
      ensures Valid() && this.cfg == cfg && log == [] && fresh(cache) && clock == 0.0
    {
      this.cfg := cfg;
      cache := new TtlCache(cfg.maxsize, cfg.ttl);
      log, clock := [], 0.0;
    }

    ghost predicate Valid()
      reads this, cache
    {
      && cache.Valid() && cache.maxsize == cfg.maxsize && cache.ttl == cfg.ttl
      && CacheInv(cfg, cache.entries, log, clock)
    }

    method VerifySignature(request: SignedRequest, wall: int, now: real) returns (ok: bool)
      requires Valid() && clock <= now
      modifies this`log, this`clock, cache`entries
      ensures Valid() && clock == now
      ensures ok <==>
        && request.timestamp.Some? && request.timestamp.value != "" && request.signature.Some? && request.signature.value != ""
        && cfg.parseInt(request.timestamp.value).Some?
        && -300 <= wall - cfg.parseInt(request.timestamp.value).value <= 300
        && cfg.hmac(request.body) == request.signature.value
        && !SeenRecently(cfg, old(log), request.signature.value, now)
      ensures log == if ok then old(log) + [Accepted(request.signature.value, wall, now)] else old(log)
      ensures !ok ==> cache.entries == old(cache.entries)
      ensures State(cache.entries, log) == Step(cfg, State(old(cache.entries), old(log)), Call(request, wall, now))
    {
      ghost var before := State(cache.entries, log);
      ghost var call := Call(request, wall, now);
      StepKeepsInv(cfg, before, call, clock);
      ghost var earlier := clock;
      clock := now;
      if request.timestamp.None? || request.timestamp.value == "" { return false; }
      if request.signature.None? || request.signature.value == "" { return false; }
      var timestamp := cfg.parseInt(request.timestamp.value);
      if timestamp.None? { return false; }
      var age := wall - timestamp.value;
      if age > MAX_TIMESTAMP_AGE || -age > MAX_TIMESTAMP_AGE { return false; }
      var signature := request.signature.value;
      if cfg.hmac(request.body) != signature { return false; }
      ContainsIsSeenRecently(cfg, cache.entries, log, earlier, signature, now);
      var seen := cache.Has(signature, now);
      if seen { return false; }
      cache.Put(signature, wall, now);
      log := log + [Accepted(signature, wall, now)];
      ok := true;
    }
  }
}
