/** Token authentication (`verify_token` in app/identity/auth.py): the store's own tokens first, then
    the API tokens of the identity database, which are also rate-limited and bound to roles. */
module TokenAuth {
  import opened Wrappers
  import opened TtlCaches
  import TokenStore
  import RateLimiter

  /** SHA-256 of a token stays uninterpreted. */
  datatype Settings = Settings(store: TokenStore.Settings, rate: RateLimiter.Settings, hash: string -> string)

  /** A row of `api_tokens`; `roles` is what its role restriction lists, empty when there is none. */
  datatype ApiToken = ApiToken(
    id: string,
    userId: string,
    expiresAt: Option<real>,
    roles: seq<string>,
    lastUsedAt: Option<real>,
    revoked: bool)

  datatype UserRole = UserRole(userId: string, roleId: string, active: bool)

  /** A row of `token_usage_log`. */
  datatype Usage = Usage(tokenId: string, userId: string)

  /** The three clocks a call reads: whole wall-clock seconds, UTC time, and the cache's clock. */
  datatype Clock = Clock(wall: int, utc: real, cache: real)

  datatype Call = Call(token: Option<string>, nonce: Option<string>, userRoles: seq<UserRole>)

  datatype State = State(
    store: TokenStore.Tables,
    counters: RateLimiter.Counters,
    apiTokens: map<string, ApiToken>,   // by token hash
    usage: seq<Usage>)

  /** The ways out of `verify_token`; the two accepting ones return True. */
  datatype Outcome =
    | MissingField
    | StoreReplay
    | StoreAccept
    | UnknownToken
    | ExpiredToken
    | RateLimited
    | ApiReplay
    | RoleRefused
    | ApiAccept

  predicate Accepting(o: Outcome) { o.StoreAccept? || o.ApiAccept? }

  predicate Known(apiTokens: map<string, ApiToken>, hash: string) { hash in apiTokens && !apiTokens[hash].revoked }

  predicate Lapsed(t: ApiToken, utc: real) { t.expiresAt.Some? && t.expiresAt.value < utc }

  /** The user holds one of the roles the token is restricted to, if it is restricted at all. */
  predicate RolesAllow(t: ApiToken, userRoles: seq<UserRole>) {
    t.roles != [] ==> exists i :: 0 <= i < |userRoles| && userRoles[i].active && userRoles[i].userId == t.userId && userRoles[i].roleId in t.roles
  }

  function Used(s: State, hash: string, utc: real): State
    requires hash in s.apiTokens
  {
    var t := s.apiTokens[hash];
    s.(apiTokens := s.apiTokens[hash := t.(lastUsedAt := Some(utc))], usage := s.usage + [Usage(t.id, t.userId)])
  }

  function VerifyApiToken(cfg: Settings, s: State, token: string, nonce: string, userRoles: seq<UserRole>, clock: Clock): (State, Outcome) {
    var hash := cfg.hash(token);
    if !Known(s.apiTokens, hash) then (s, UnknownToken)
    else if Lapsed(s.apiTokens[hash], clock.utc) then (s, ExpiredToken)
    else
      var (admitted, counters) := RateLimiter.Enforce(cfg.rate, s.counters, RateLimiter.Call(hash, clock.cache));
      var s1 := s.(counters := counters);
      if !admitted then (s1, RateLimited)
      else
        var (registered, store) := TokenStore.RegisterNonce(cfg.store, s1.store, nonce, None, clock.wall);
        var s2 := s1.(store := store);
        if !registered then (s2, ApiReplay)
        else if !RolesAllow(s2.apiTokens[hash], userRoles) then (s2, RoleRefused)
        else (Used(s2, hash, clock.utc), ApiAccept)
  }

  function Verify(cfg: Settings, s: State, call: Call, clock: Clock): (State, Outcome) {
    if call.token.None? || call.nonce.None? then (s, MissingField)
    else
      var (valid, store) := TokenStore.IsTokenValid(s.store, call.token.value, clock.wall);
      var s1 := s.(store := store);
      if valid then
        var (registered, store') := TokenStore.RegisterNonce(cfg.store, store, call.nonce.value, None, clock.wall);
        (s.(store := store'), if registered then StoreAccept else StoreReplay)
      else VerifyApiToken(cfg, s1, call.token.value, call.nonce.value, call.userRoles, clock)
  }

  /** An active role of the token's user is among those it is restricted to. */
  ghost predicate HoldsListedRole(t: ApiToken, userRoles: seq<UserRole>) {
    exists i :: 0 <= i < |userRoles| && userRoles[i].active && userRoles[i].userId == t.userId && userRoles[i].roleId in t.roles
  }

  /** The row is not revoked, has not expired, and its user may use it. */
  ghost predicate Admits(t: ApiToken, userRoles: seq<UserRole>, utc: real) {
    && !t.revoked
    && (t.expiresAt.None? || utc <= t.expiresAt.value)
    && (t.roles == [] || HoldsListedRole(t, userRoles))
  }

  /** Which way out a call takes, read off the tables; the first reason that applies decides. */
  ghost predicate TakesWayOut(cfg: Settings, s: State, call: Call, clock: Clock, o: Outcome) {
    if call.token.None? || call.nonce.None? then o == MissingField
    else
      var token, nonce, hash := call.token.value, call.nonce.value, cfg.hash(call.token.value);
      var unused := nonce in s.store.nonces ==> s.store.nonces[nonce] <= clock.wall;
      if token in s.store.tokens && clock.wall <= s.store.tokens[token] then o == (if unused then StoreAccept else StoreReplay)
      else if hash !in s.apiTokens || s.apiTokens[hash].revoked then o == UnknownToken
      else
        var row := s.apiTokens[hash];
        if row.expiresAt.Some? && row.expiresAt.value < clock.utc then o == ExpiredToken
        else if RateLimiter.CountOf(s.counters, hash, clock.cache) >= cfg.rate.limit then o == RateLimited
        else if !unused then o == ApiReplay
        else if row.roles != [] && !HoldsListedRole(row, call.userRoles) then o == RoleRefused
        else o == ApiAccept
  }

  lemma WaysOut(cfg: Settings, s: State, call: Call, clock: Clock)
    ensures TakesWayOut(cfg, s, call, clock, Verify(cfg, s, call, clock).1)
  {
  }

  /** Only acceptance by API token touches the API tokens or the usage log, and it touches one row of each. */
  lemma FailuresLeaveNoTrace(cfg: Settings, s: State, call: Call, clock: Clock)
    ensures var (t, o) := Verify(cfg, s, call, clock);
      if o.ApiAccept? then
        && call.token.Some?
        && var hash := cfg.hash(call.token.value);
           && hash in s.apiTokens && Admits(s.apiTokens[hash], call.userRoles, clock.utc)
           && t.apiTokens == s.apiTokens[hash := s.apiTokens[hash].(lastUsedAt := Some(clock.utc))]
           && t.usage == s.usage + [Usage(s.apiTokens[hash].id, s.apiTokens[hash].userId)]
      else t.apiTokens == s.apiTokens && t.usage == s.usage
  {
  }

  // ---------------------------------------------------------------------------------------------
  // Runs: verifications between whatever else changes the same data

  datatype Event =
    | Verification(call: Call)
    | IssueToken(token: string, ttl: Option<int>)
    | RevokeToken(token: string)
    | CleanupNonces
    | Manage(apiTokens: map<string, ApiToken>)   // any of the token management routes

  datatype Timed = Timed(event: Event, clock: Clock)

  function OutcomeOf(cfg: Settings, s: State, e: Timed): Option<Outcome> {
    if e.event.Verification? then Some(Verify(cfg, s, e.event.call, e.clock).1) else None
  }

  function Step(cfg: Settings, s: State, e: Timed): State {
    match e.event
    case Verification(call) => Verify(cfg, s, call, e.clock).0
    case IssueToken(token, ttl) => s.(store := TokenStore.IssueToken(cfg.store, s.store, token, ttl, e.clock.wall))
    case RevokeToken(token) => s.(store := TokenStore.RevokeToken(s.store, token))
    case CleanupNonces => s.(store := TokenStore.CleanupNonces(s.store, e.clock.wall))
    case Manage(apiTokens) => s.(apiTokens := apiTokens)
  }

  const EMPTY: State := State(TokenStore.Tables(map[], map[]), [], map[], [])

  function After(cfg: Settings, es: seq<Timed>): State {
    if es == [] then EMPTY else Step(cfg, After(cfg, es[..|es| - 1]), es[|es| - 1])
  }

  /** The outcome of the last event of a run. */
  function LastOutcome(cfg: Settings, es: seq<Timed>): Option<Outcome>
    requires es != []
  {
    OutcomeOf(cfg, After(cfg, es[..|es| - 1]), es[|es| - 1])
  }

  function Count(cfg: Settings, es: seq<Timed>, o: Outcome): nat {
    if es == [] then 0
    else Count(cfg, es[..|es| - 1], o) + if LastOutcome(cfg, es) == Some(o) then 1 else 0
  }

  ghost predicate Ordered(es: seq<Timed>) {
    forall i, j :: 0 <= i < j < |es| ==> es[i].clock.wall <= es[j].clock.wall && es[i].clock.cache <= es[j].clock.cache
  }

  ghost predicate NoLaterThan(es: seq<Timed>, clock: Clock) {
    forall i :: 0 <= i < |es| ==> es[i].clock.wall <= clock.wall && es[i].clock.cache <= clock.cache
  }

  // ---------------------------------------------------------------------------------------------
  // What one event does to the store and to the limiter

  /** The nonce is registered only on these ways out, successfully or not. */
  predicate ReachesNonce(o: Outcome) {
    o.StoreReplay? || o.StoreAccept? || o.ApiReplay? || o.RoleRefused? || o.ApiAccept?
  }

  predicate ReachesLimit(o: Outcome) { o.RateLimited? || o.ApiReplay? || o.RoleRefused? || o.ApiAccept? }

  function StoreOpsOf(e: Timed, o: Option<Outcome>): seq<TokenStore.Timed> {
    var at := e.clock.wall;
    match e.event
    case Verification(call) =>
      if call.token.None? || call.nonce.None? || o.None? then []
      else [TokenStore.Timed(TokenStore.Check(call.token.value), at)] +
           (if ReachesNonce(o.value) then [TokenStore.Timed(TokenStore.Register(call.nonce.value, None), at)] else [])
    case IssueToken(token, ttl) => [TokenStore.Timed(TokenStore.Issue(token, ttl), at)]
    case RevokeToken(token) => [TokenStore.Timed(TokenStore.Revoke(token), at)]
    case CleanupNonces => [TokenStore.Timed(TokenStore.Cleanup, at)]
    case Manage(_) => []
  }

  function RateCallsOf(cfg: Settings, e: Timed, o: Option<Outcome>): seq<RateLimiter.Call> {
    if e.event.Verification? && e.event.call.token.Some? && o.Some? && ReachesLimit(o.value)
    then [RateLimiter.Call(cfg.hash(e.event.call.token.value), e.clock.cache)] else []
  }

  function StoreOps(cfg: Settings, es: seq<Timed>): seq<TokenStore.Timed> {
    if es == [] then [] else StoreOps(cfg, es[..|es| - 1]) + StoreOpsOf(es[|es| - 1], LastOutcome(cfg, es))
  }

  function RateCalls(cfg: Settings, es: seq<Timed>): seq<RateLimiter.Call> {
    if es == [] then [] else RateCalls(cfg, es[..|es| - 1]) + RateCallsOf(cfg, es[|es| - 1], LastOutcome(cfg, es))
  }

  /** The effect of a call on the store and on the counters, by the way out it takes. */
  lemma VerifyEffects(cfg: Settings, s: State, token: string, nonce: string, userRoles: seq<UserRole>, clock: Clock)
    ensures var (t, o) := Verify(cfg, s, Call(Some(token), Some(nonce), userRoles), clock);
            var checked := TokenStore.IsTokenValid(s.store, token, clock.wall).1;
            var (unused, registered) := TokenStore.RegisterNonce(cfg.store, checked, nonce, None, clock.wall);
            var (admitted, counters) := RateLimiter.Enforce(cfg.rate, s.counters, RateLimiter.Call(cfg.hash(token), clock.cache));
      && t.store == (if ReachesNonce(o) then registered else checked)
      && t.counters == (if ReachesLimit(o) then counters else s.counters)
      && (ReachesLimit(o) ==> (o.RateLimited? <==> !admitted))
      && (ReachesNonce(o) ==> (o.StoreReplay? || o.ApiReplay? <==> !unused))
      && !o.MissingField?
  {
  }

  lemma AppendOps(cfg: Settings, ops: seq<TokenStore.Timed>, more: seq<TokenStore.Timed>)
    requires |more| <= 2
    ensures TokenStore.After(cfg.store, ops + more) == Applied(cfg, TokenStore.After(cfg.store, ops), more)
  {
    OneByOne(ops, more);
    if |more| >= 1 { TokenStore.AfterOneMore(cfg.store, ops, more[0]); }
    if |more| == 2 { TokenStore.AfterOneMore(cfg.store, ops + [more[0]], more[1]); }
  }

  lemma OneByOne<T>(s: seq<T>, more: seq<T>)
    requires |more| <= 2
    ensures s + more == if |more| == 0 then s else if |more| == 1 then s + [more[0]] else (s + [more[0]]) + [more[1]]
  {
  }

  function Applied(cfg: Settings, t: TokenStore.Tables, more: seq<TokenStore.Timed>): TokenStore.Tables
    requires |more| <= 2
  {
    if |more| == 0 then t
    else if |more| == 1 then TokenStore.Apply(cfg.store, t, more[0])
    else TokenStore.Apply(cfg.store, TokenStore.Apply(cfg.store, t, more[0]), more[1])
  }

  lemma VerificationStoreStep(cfg: Settings, s: State, e: Timed, ops: seq<TokenStore.Timed>)
    requires e.event.Verification? && s.store == TokenStore.After(cfg.store, ops)
    ensures Step(cfg, s, e).store == TokenStore.After(cfg.store, ops + StoreOpsOf(e, OutcomeOf(cfg, s, e)))
  {
    var call, o := e.event.call, Verify(cfg, s, e.event.call, e.clock).1;
    assert OutcomeOf(cfg, s, e) == Some(o);
    AppendOps(cfg, ops, StoreOpsOf(e, Some(o)));
    if call.token.Some? && call.nonce.Some? {
      VerifyEffects(cfg, s, call.token.value, call.nonce.value, call.userRoles, e.clock);
    }
  }

  lemma StoreStep(cfg: Settings, s: State, e: Timed, ops: seq<TokenStore.Timed>)
    requires s.store == TokenStore.After(cfg.store, ops)
    ensures Step(cfg, s, e).store == TokenStore.After(cfg.store, ops + StoreOpsOf(e, OutcomeOf(cfg, s, e)))
  {
    if e.event.Verification? {
      VerificationStoreStep(cfg, s, e, ops);
    } else {
      assert OutcomeOf(cfg, s, e) == None;
      PlainOp(cfg, s, e);
      AppendOps(cfg, ops, StoreOpsOf(e, None));
    }
  }

  /** The other events are one store operation each, or none. */
  lemma PlainOp(cfg: Settings, s: State, e: Timed)
    requires !e.event.Verification?
    ensures |StoreOpsOf(e, None)| <= 1 && Step(cfg, s, e).store == Applied(cfg, s.store, StoreOpsOf(e, None))
  {
  }

  lemma RateStep(cfg: Settings, s: State, e: Timed, calls: seq<RateLimiter.Call>)
    requires s.counters == RateLimiter.After(cfg.rate, calls).cache
    ensures Step(cfg, s, e).counters == RateLimiter.After(cfg.rate, calls + RateCallsOf(cfg, e, OutcomeOf(cfg, s, e))).cache
  {
    var more := RateCallsOf(cfg, e, OutcomeOf(cfg, s, e));
    if more == [] {
      assert calls + more == calls;
    } else {
      RateLimiter.AfterOneMore(cfg.rate, calls, more[0]);
    }
    if e.event.Verification? && e.event.call.token.Some? && e.event.call.nonce.Some? {
      var call := e.event.call;
      VerifyEffects(cfg, s, call.token.value, call.nonce.value, call.userRoles, e.clock);
    }
  }

  /** The store and the limiter inside `verify_token` see exactly these histories. */
  lemma {:induction false} PartsFollowHistories(cfg: Settings, es: seq<Timed>)
    ensures After(cfg, es).store == TokenStore.After(cfg.store, StoreOps(cfg, es))
    ensures After(cfg, es).counters == RateLimiter.After(cfg.rate, RateCalls(cfg, es)).cache
  {
    if es != [] {
      var front, e := es[..|es| - 1], es[|es| - 1];
      PartsFollowHistories(cfg, front);
      StoreStep(cfg, After(cfg, front), e, StoreOps(cfg, front));
      RateStep(cfg, After(cfg, front), e, RateCalls(cfg, front));
    }
  }

  lemma {:induction false} HistoriesOrdered(cfg: Settings, es: seq<Timed>, clock: Clock)
    requires Ordered(es) && NoLaterThan(es, clock)
    ensures TokenStore.Ordered(StoreOps(cfg, es)) && TokenStore.NoLaterThan(StoreOps(cfg, es), clock.wall)
    ensures RateLimiter.Ordered(RateCalls(cfg, es)) && RateLimiter.NoEarlierThan(RateCalls(cfg, es), clock.cache)
  {
    if es != [] {
      HistoriesOrdered(cfg, es[..|es| - 1], es[|es| - 1].clock);
    }
  }

  // ---------------------------------------------------------------------------------------------
  // Exact accounting

  function Granted(cfg: Settings, es: seq<Timed>): nat {
    |RateLimiter.After(cfg.rate, RateCalls(cfg, es)).log|
  }

  lemma GrantedStep(cfg: Settings, es: seq<Timed>)
    requires es != []
    ensures Granted(cfg, es) == Granted(cfg, es[..|es| - 1]) +
      (if LastOutcome(cfg, es) in {Some(ApiReplay), Some(RoleRefused), Some(ApiAccept)} then 1 else 0)
  {
    var front, e := es[..|es| - 1], es[|es| - 1];
    var s := After(cfg, front);
    var calls, more := RateCalls(cfg, front), RateCallsOf(cfg, e, LastOutcome(cfg, es));
    assert s.counters == RateLimiter.After(cfg.rate, calls).cache by { PartsFollowHistories(cfg, front); }
    if e.event.Verification? && e.event.call.token.Some? && e.event.call.nonce.Some? {
      var call := e.event.call;
      VerifyEffects(cfg, s, call.token.value, call.nonce.value, call.userRoles, e.clock);
    }
    GrantedByCall(cfg.rate, calls, more);
  }

  lemma GrantedByCall(rate: RateLimiter.Settings, calls: seq<RateLimiter.Call>, more: seq<RateLimiter.Call>)
    requires |more| <= 1
    ensures |RateLimiter.After(rate, calls + more).log| == |RateLimiter.After(rate, calls).log| +
      (if |more| == 1 && RateLimiter.Enforce(rate, RateLimiter.After(rate, calls).cache, more[0]).0 then 1 else 0)
  {
    if more == [] {
      assert calls + more == calls;
    } else {
      RateLimiter.AfterOneMore(rate, calls, more[0]);
      assert more == [more[0]];
    }
  }

  /** Over any run: one usage row for each acceptance by API token, and one unit of quota for each
      acceptance, nonce replay and role refusal on the API path. */
  lemma {:induction false} Accounting(cfg: Settings, es: seq<Timed>)
    ensures |After(cfg, es).usage| == Count(cfg, es, ApiAccept)
    ensures Granted(cfg, es) == Count(cfg, es, ApiAccept) + Count(cfg, es, ApiReplay) + Count(cfg, es, RoleRefused)
  {
    if es != [] {
      var front, e := es[..|es| - 1], es[|es| - 1];
      Accounting(cfg, front);
      GrantedStep(cfg, es);
      if e.event.Verification? {
        FailuresLeaveNoTrace(cfg, After(cfg, front), e.event.call, e.clock);
      }
    }
  }

  // ---------------------------------------------------------------------------------------------
  // When a call is accepted, in terms of histories alone

  ghost predicate StoreTokenLives(cfg: Settings, es: seq<Timed>, token: string, wall: int) {
    var x := TokenStore.Expiry(cfg.store, StoreOps(cfg, es), token);
    x.Some? && wall <= x.value
  }

  ghost predicate ApiTokenAllows(cfg: Settings, es: seq<Timed>, call: Call, token: string, clock: Clock) {
    var hash, apiTokens := cfg.hash(token), After(cfg, es).apiTokens;
    && hash in apiTokens && Admits(apiTokens[hash], call.userRoles, clock.utc)
    && RateLimiter.Chain(cfg.rate.window, RateLimiter.After(cfg.rate, RateCalls(cfg, es)).log, hash, clock.cache) < cfg.rate.limit
  }

  /** No window admits more distinct API tokens than the limiter remembers. */
  ghost predicate WithinCapacity(cfg: Settings, es: seq<Timed>) {
    RateLimiter.WithinCapacity(cfg.rate, RateLimiter.After(cfg.rate, RateCalls(cfg, es)).log)
  }

  ghost predicate Accepts(cfg: Settings, s: State, call: Call, clock: Clock) {
    Accepting(Verify(cfg, s, call, clock).1)
  }

  /** What the history says about a call: token and unused nonce, and a token that admits it. */
  ghost predicate Deserves(cfg: Settings, es: seq<Timed>, call: Call, clock: Clock) {
    && call.token.Some? && call.nonce.Some?
    && !TokenStore.InUse(cfg.store, StoreOps(cfg, es), call.nonce.value, clock.wall)
    && (|| StoreTokenLives(cfg, es, call.token.value, clock.wall)
        || ApiTokenAllows(cfg, es, call, call.token.value, clock))
  }

  lemma {:induction false} CheckLeavesNonces(cfg: Settings, ops: seq<TokenStore.Timed>, token: string, nonce: string, wall: int)
    requires TokenStore.Ordered(ops) && TokenStore.NoLaterThan(ops, wall)
    ensures var store := TokenStore.IsTokenValid(TokenStore.After(cfg.store, ops), token, wall).1;
      TokenStore.RegisterNonce(cfg.store, store, nonce, None, wall).0 <==> !TokenStore.InUse(cfg.store, ops, nonce, wall)
  {
    TokenStore.RegisteredIffNotInUse(cfg.store, ops, nonce, None, wall);
  }

  /** The same decision, one part at a time. */
  lemma AcceptedIffParts(cfg: Settings, s: State, token: string, nonce: string, userRoles: seq<UserRole>, clock: Clock)
    ensures var (valid, checked) := TokenStore.IsTokenValid(s.store, token, clock.wall);
            var hash := cfg.hash(token);
      Accepting(Verify(cfg, s, Call(Some(token), Some(nonce), userRoles), clock).1) <==>
        && TokenStore.RegisterNonce(cfg.store, checked, nonce, None, clock.wall).0
        && (|| valid
            || (&& Known(s.apiTokens, hash) && !Lapsed(s.apiTokens[hash], clock.utc) && RolesAllow(s.apiTokens[hash], userRoles)
                && RateLimiter.Enforce(cfg.rate, s.counters, RateLimiter.Call(hash, clock.cache)).0))
  {
  }

  /** A call is accepted exactly when it carries a token and an unused nonce, and the token is a live
      token of the store or a live API token within its rate whose roles allow it. */
  lemma {:induction false} AcceptedIff(cfg: Settings, es: seq<Timed>, call: Call, clock: Clock)
    requires RateLimiter.Sane(cfg.rate) && Ordered(es) && NoLaterThan(es, clock)
    requires WithinCapacity(cfg, es)
    ensures Accepts(cfg, After(cfg, es), call, clock) <==> Deserves(cfg, es, call, clock)
  {
    if call.token.Some? && call.nonce.Some? {
      AcceptedIffParts(cfg, After(cfg, es), call.token.value, call.nonce.value, call.userRoles, clock);
      PartsFollowHistories(cfg, es);
      HistoriesOrdered(cfg, es, clock);
      TokenStore.ValidIffIssuedAndUnexpired(cfg.store, StoreOps(cfg, es), call.token.value, clock.wall);
      CheckLeavesNonces(cfg, StoreOps(cfg, es), call.token.value, call.nonce.value, clock.wall);
      RateLimiter.AdmittedIffChainBelowLimit(cfg.rate, RateCalls(cfg, es), RateLimiter.Call(cfg.hash(call.token.value), clock.cache));
    }
  }

  // ---------------------------------------------------------------------------------------------
  // Nonces across both paths

  datatype Accepted = Accepted(nonce: string, wall: int)

  /** The accepted calls of a run, on either path. */
  function AcceptedCalls(cfg: Settings, es: seq<Timed>): seq<Accepted> {
    if es == [] then []
    else
      var e := es[|es| - 1];
      AcceptedCalls(cfg, es[..|es| - 1]) +
      (if e.event.Verification? && e.event.call.nonce.Some? && LastOutcome(cfg, es).Some? && Accepting(LastOutcome(cfg, es).value)
       then [Accepted(e.event.call.nonce.value, e.clock.wall)] else [])
  }

  lemma {:induction false} InUseLasts(cfg: TokenStore.Settings, ops: seq<TokenStore.Timed>, more: seq<TokenStore.Timed>, nonce: string, now: int)
    requires TokenStore.InUse(cfg, ops, nonce, now)
    ensures TokenStore.InUse(cfg, ops + more, nonce, now)
  {
    if more == [] {
      assert ops + more == ops;
    } else {
      InUseLasts(cfg, ops, more[..|more| - 1], nonce, now);
      assert (ops + more)[..|ops + more| - 1] == ops + more[..|more| - 1];
    }
  }

  ghost predicate Reserved(cfg: Settings, es: seq<Timed>, a: Accepted) {
    forall now :: now < a.wall + cfg.store.nonceTtl ==> TokenStore.InUse(cfg.store, StoreOps(cfg, es), a.nonce, now)
  }

  lemma ReservedLasts(cfg: Settings, es: seq<Timed>, e: Timed, a: Accepted)
    requires Reserved(cfg, es, a)
    ensures Reserved(cfg, es + [e], a)
  {
    var all := es + [e];
    assert all[..|all| - 1] == es;
    forall now | now < a.wall + cfg.store.nonceTtl
      ensures TokenStore.InUse(cfg.store, StoreOps(cfg, all), a.nonce, now)
    {
      InUseLasts(cfg.store, StoreOps(cfg, es), StoreOpsOf(e, LastOutcome(cfg, all)), a.nonce, now);
    }
  }

  /** An accepting event found its nonce unused and registered it. */
  lemma {:induction false} AcceptingRegisters(cfg: Settings, es: seq<Timed>)
    requires es != [] && Ordered(es)
    requires LastOutcome(cfg, es).Some? && Accepting(LastOutcome(cfg, es).value)
    ensures var e := es[|es| - 1];
      && e.event.Verification? && e.event.call.nonce.Some?
      && !TokenStore.InUse(cfg.store, StoreOps(cfg, es[..|es| - 1]), e.event.call.nonce.value, e.clock.wall)
      && Reserved(cfg, es, Accepted(e.event.call.nonce.value, e.clock.wall))
  {
    var front, e := es[..|es| - 1], es[|es| - 1];
    var s, call, ops := After(cfg, front), e.event.call, StoreOps(cfg, front);
    var token, nonce := call.token.value, call.nonce.value;
    VerifyEffects(cfg, s, token, nonce, call.userRoles, e.clock);
    assert !TokenStore.InUse(cfg.store, ops, nonce, e.clock.wall) by {
      PartsFollowHistories(cfg, front);
      HistoriesOrdered(cfg, front, e.clock);
      CheckLeavesNonces(cfg, ops, token, nonce, e.clock.wall);
    }
    var check := TokenStore.Timed(TokenStore.Check(token), e.clock.wall);
    var register := TokenStore.Timed(TokenStore.Register(nonce, None), e.clock.wall);
    assert StoreOps(cfg, es) == (ops + [check]) + [register];
    assert (ops + [check])[..|ops|] == ops;
    ReservedByRegister(cfg, ops + [check], register, nonce);
  }

  lemma {:induction false} ReservedByRegister(cfg: Settings, ops: seq<TokenStore.Timed>, register: TokenStore.Timed, nonce: string)
    requires register.op == TokenStore.Register(nonce, None) && !TokenStore.InUse(cfg.store, ops, nonce, register.now)
    ensures forall now :: now < register.now + cfg.store.nonceTtl ==> TokenStore.InUse(cfg.store, ops + [register], nonce, now)
  {
    assert (ops + [register])[..|ops|] == ops;
  }

  lemma {:induction false} AcceptedStayReserved(cfg: Settings, es: seq<Timed>)
    requires Ordered(es)
    ensures forall i :: 0 <= i < |AcceptedCalls(cfg, es)| ==> Reserved(cfg, es, AcceptedCalls(cfg, es)[i])
  {
    if es != [] {
      var front := es[..|es| - 1];
      AcceptedStayReserved(cfg, front);
      forall i | 0 <= i < |AcceptedCalls(cfg, front)|
        ensures Reserved(cfg, es, AcceptedCalls(cfg, front)[i])
      {
        ReservedLasts(cfg, front, es[|es| - 1], AcceptedCalls(cfg, front)[i]);
        assert front + [es[|es| - 1]] == es;
      }
      if LastOutcome(cfg, es).Some? && Accepting(LastOutcome(cfg, es).value) {
        AcceptingRegisters(cfg, es);
      }
    }
  }

  /** Two accepted calls with one nonce are at least NONCE_TTL apart, whichever path each took. */
  lemma {:induction false} AcceptedNoncesAreApart(cfg: Settings, es: seq<Timed>)
    requires Ordered(es)
    ensures var log := AcceptedCalls(cfg, es);
      forall i, j :: 0 <= i < j < |log| && log[i].nonce == log[j].nonce ==> log[i].wall + cfg.store.nonceTtl <= log[j].wall
  {
    if es != [] {
      var front := es[..|es| - 1];
      AcceptedNoncesAreApart(cfg, front);
      AcceptedStayReserved(cfg, front);
      assert Ordered(front);
      if LastOutcome(cfg, es).Some? && Accepting(LastOutcome(cfg, es).value) {
        AcceptingRegisters(cfg, es);
        var log, e := AcceptedCalls(cfg, es), es[|es| - 1];
        assert log == AcceptedCalls(cfg, front) + [Accepted(e.event.call.nonce.value, e.clock.wall)];
        forall i | 0 <= i < |log| - 1 && log[i].nonce == log[|log| - 1].nonce
          ensures log[i].wall + cfg.store.nonceTtl <= log[|log| - 1].wall
        {
          assert log[i] == AcceptedCalls(cfg, front)[i];
          assert Reserved(cfg, front, log[i]);
        }
      } else {
        assert AcceptedCalls(cfg, es) == AcceptedCalls(cfg, front);
      }
    }
  }

  // ---------------------------------------------------------------------------------------------
  // The function with its stores and caches

  class TokenVerifier {
    const cfg: Settings
    const store: TokenStore.Store
    const limiter: RateLimiter.TokenLimiter
    var apiTokens: map<string, ApiToken>
    var usage: seq<Usage>

    constructor (cfg: Settings)
      requires RateLimiter.Sane(cfg.rate)
      ensures Valid() && this.cfg == cfg && Model() == EMPTY
      ensures fresh(store) && fresh(limiter) && fresh(limiter.cache)
    {
      this.cfg := cfg;
      store := new TokenStore.Store(cfg.store);
      limiter := new RateLimiter.TokenLimiter(cfg.rate);
      apiTokens, usage := map[], [];
    }

    ghost predicate Valid()
      reads this, limiter, limiter.cache
    {
      store.cfg == cfg.store && limiter.cfg == cfg.rate && limiter.Valid()
    }

    ghost function Model(): State
      reads this, store, limiter.cache
    {
      State(store.Contents(), limiter.cache.entries, apiTokens, usage)
    }

    method HoldsAnyRole(t: ApiToken, userRoles: seq<UserRole>) returns (held: bool)
      ensures held <==> exists i :: 0 <= i < |userRoles| && userRoles[i].active && userRoles[i].userId == t.userId && userRoles[i].roleId in t.roles
    {
      held := false;
      var count := 0;
      for i := 0 to |userRoles|
        invariant count > 0 <==> exists j :: 0 <= j < i && userRoles[j].active && userRoles[j].userId == t.userId && userRoles[j].roleId in t.roles
        invariant count >= 0
      {
        if userRoles[i].active && userRoles[i].userId == t.userId && userRoles[i].roleId in t.roles {
          count := count + 1;
        }
      }
      held := count > 0;
    }

    method VerifyToken(token: Option<string>, nonce: Option<string>, userRoles: seq<UserRole>, clock: Clock)
      returns (outcome: Outcome)
      requires Valid()
      modifies this`apiTokens, this`usage, store, limiter.cache
      ensures Valid()
      ensures (Model(), outcome) == Verify(cfg, old(Model()), Call(token, nonce, userRoles), clock)
      ensures TakesWayOut(cfg, old(Model()), Call(token, nonce, userRoles), clock, outcome)
    {
      WaysOut(cfg, Model(), Call(token, nonce, userRoles), clock);
      if token.None? || nonce.None? { return MissingField; }
      var valid := store.IsValid(token.value, clock.wall);
      if valid {
        var unused := store.RegisterOnce(nonce.value, None, clock.wall);
        if !unused { return StoreReplay; }
        return StoreAccept;
      }
      var hash := cfg.hash(token.value);
      if hash !in apiTokens || apiTokens[hash].revoked { return UnknownToken; }
      var t := apiTokens[hash];
      if t.expiresAt.Some? && t.expiresAt.value < clock.utc { return ExpiredToken; }
      var within := limiter.EnforceTokenLimit(hash, clock.cache);
      if !within { return RateLimited; }
      var unused := store.RegisterOnce(nonce.value, None, clock.wall);
      if !unused { return ApiReplay; }
      if t.roles != [] {
        var held := HoldsAnyRole(t, userRoles);
        if !held { return RoleRefused; }
      }
      apiTokens := apiTokens[hash := t.(lastUsedAt := Some(clock.utc))];
      usage := usage + [Usage(t.id, t.userId)];
      outcome := ApiAccept;
    }
  }
}
