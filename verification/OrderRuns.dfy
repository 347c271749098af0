/** Any number of webhook requests at once (app/api/routes.py:97-150).

    A request is authenticated in one step: neither `verify_signature`, with the body already read, nor
    `verify_token` lets others run before it answers. An order that is queued leaves in that same step.
    Otherwise the request goes on as a task of the pool protocol, and others may run at each of its
    awaits, so its order leaves at a time of its own. */
module OrderRuns {
  import opened Wrappers
  import opened Webhook
  import PoolProtocol
  import SessionPool
  import SignatureGuard
  import TokenAuth
  import TokenStore

  type Clock = TokenAuth.Clock

  datatype Phase = Waiting | Refused | Admitted(admission: Admission, clock: Clock)

  /** The call that hands an order to the exchange or to the queue, and when it was made. */
  datatype Attempt = Attempt(request: nat, clock: Clock, queued: bool)

  /** `history` records what was done to the tokens, in the order it was done. */
  datatype Snapshot = Snapshot(
    gate: Gate,
    pool: PoolProtocol.State,
    phases: seq<Phase>,
    attempts: seq<Attempt>,
    history: seq<TokenAuth.Timed>)

  datatype Action =
    | Arrive(request: nat, userRoles: seq<TokenAuth.UserRole>)
    | Proceed(move: PoolProtocol.Event)
    | Elsewhere(event: TokenAuth.Event)   // any other use of the tokens, by any route

  datatype Event = Event(action: Action, clock: Clock)

  /** The pool protocol's tasks are the requests. */
  function World(cfg: Settings, rs: seq<Request>): PoolProtocol.World {
    cfg.exchanges.(jobs := seq(|rs|, i requires 0 <= i < |rs| => rs[i].job))
  }

  function Initial(cfg: Settings, rs: seq<Request>): Snapshot {
    Snapshot(Start().gate, PoolProtocol.Init(World(cfg, rs)), seq(|rs|, i => Waiting), [], [])
  }

  predicate Enabled(cfg: Settings, rs: seq<Request>, s: Snapshot, e: Event) {
    match e.action
    case Arrive(i, _) => i < |rs| && i < |s.phases| && s.phases[i].Waiting?
    case Proceed(m) =>
      && !cfg.queueOrders
      && |s.pool.tasks| == |rs|
      && m.task < |s.phases| && s.phases[m.task].Admitted?
      && PoolProtocol.Enabled(World(cfg, rs), s.pool, m)
    case Elsewhere(_) => true
  }

  predicate ReachesToken(cfg: Settings, r: Request) {
    ApiKeyOk(cfg, r) && (cfg.requireHttps ==> r.https) && r.signature.None?
  }

  function Verification(r: Request, userRoles: seq<TokenAuth.UserRole>, clock: Clock): TokenAuth.Timed {
    TokenAuth.Timed(TokenAuth.Verification(TokenAuth.Call(r.token, r.nonce, userRoles)), clock)
  }

  /** Authentication and, where orders are queued, the order. */
  function ArriveStep(cfg: Settings, rs: seq<Request>, s: Snapshot, i: nat, userRoles: seq<TokenAuth.UserRole>, clock: Clock): Snapshot
    requires i < |rs| && i < |s.phases|
  {
    var (gate, admitted) := Admit(cfg, s.gate, rs[i], userRoles, clock);
    s.(gate := gate,
       phases := s.phases[i := if admitted.Success? then Admitted(admitted.value, clock) else Refused],
       attempts := s.attempts + (if admitted.Success? && cfg.queueOrders then [Attempt(i, clock, true)] else []),
       history := s.history + (if ReachesToken(cfg, rs[i]) then [Verification(rs[i], userRoles, clock)] else []))
  }

  /** One step of an admitted request; its order leaves when it calls the exchange for it. */
  function ProceedStep(cfg: Settings, rs: seq<Request>, s: Snapshot, m: PoolProtocol.Event, clock: Clock): Snapshot
    requires |s.pool.tasks| == |rs| && PoolProtocol.Enabled(World(cfg, rs), s.pool, m)
  {
    s.(pool := PoolProtocol.Do(World(cfg, rs), s.pool, m),
       attempts := s.attempts + if s.pool.tasks[m.task].PlaceOrder? then [Attempt(m.task, clock, false)] else [])
  }

  function ElsewhereStep(cfg: Settings, s: Snapshot, event: TokenAuth.Event, clock: Clock): Snapshot {
    var e := TokenAuth.Timed(event, clock);
    s.(gate := s.gate.(tokens := TokenAuth.Step(cfg.tokens, s.gate.tokens, e)), history := s.history + [e])
  }

  /** An event that cannot happen changes nothing. */
  function Step(cfg: Settings, rs: seq<Request>, s: Snapshot, e: Event): Snapshot {
    if !Enabled(cfg, rs, s, e) then s
    else
      match e.action
      case Arrive(i, userRoles) => ArriveStep(cfg, rs, s, i, userRoles, e.clock)
      case Proceed(m) => ProceedStep(cfg, rs, s, m, e.clock)
      case Elsewhere(event) => ElsewhereStep(cfg, s, event, e.clock)
  }

  function From(cfg: Settings, rs: seq<Request>, s: Snapshot, es: seq<Event>): Snapshot {
    if es == [] then s else Step(cfg, rs, From(cfg, rs, s, es[..|es| - 1]), es[|es| - 1])
  }

  function After(cfg: Settings, rs: seq<Request>, es: seq<Event>): Snapshot {
    From(cfg, rs, Initial(cfg, rs), es)
  }

  lemma {:induction false} FromThen(cfg: Settings, rs: seq<Request>, s: Snapshot, es: seq<Event>, more: seq<Event>)
    ensures From(cfg, rs, s, es + more) == From(cfg, rs, From(cfg, rs, s, es), more)
  {
    if more == [] {
      assert es + more == es;
    } else {
      FromThen(cfg, rs, s, es, more[..|more| - 1]);
      assert (es + more)[..|es + more| - 1] == es + more[..|more| - 1];
    }
  }

  predicate NoLater(a: Clock, b: Clock) { a.wall <= b.wall && a.cache <= b.cache }

  ghost predicate Ordered(es: seq<Event>) {
    forall i, j :: 0 <= i < j < |es| ==> NoLater(es[i].clock, es[j].clock)
  }

  ghost predicate UpTo(es: seq<Event>, now: Clock) {
    forall i :: 0 <= i < |es| ==> NoLater(es[i].clock, now)
  }

  /** The clock of the last event. */
  function Latest(es: seq<Event>): Clock {
    if es == [] then TokenAuth.Clock(0, 0.0, 0.0) else es[|es| - 1].clock
  }

  // ---------------------------------------------------------------------------------------------
  // Every run of requests is a run of the pool protocol

  /** The moves of the pool that a run makes, and the pool's states in between. */
  lemma {:induction false} PoolPartIsARun(cfg: Settings, rs: seq<Request>, es: seq<Event>)
    returns (run: seq<PoolProtocol.State>, moves: seq<PoolProtocol.Event>)
    ensures PoolProtocol.IsRun(World(cfg, rs), run, moves)
    ensures run[|moves|] == After(cfg, rs, es).pool
  {
    if es == [] {
      run, moves := [PoolProtocol.Init(World(cfg, rs))], [];
    } else {
      var s, e := After(cfg, rs, es[..|es| - 1]), es[|es| - 1];
      run, moves := PoolPartIsARun(cfg, rs, es[..|es| - 1]);
      if e.action.Proceed? && Enabled(cfg, rs, s, e) {
        OneMoreMove(World(cfg, rs), run, moves, e.action.move);
        run, moves := run + [After(cfg, rs, es).pool], moves + [e.action.move];
      }
    }
  }

  lemma OneMoreMove(w: PoolProtocol.World, run: seq<PoolProtocol.State>, moves: seq<PoolProtocol.Event>, m: PoolProtocol.Event)
    requires PoolProtocol.IsRun(w, run, moves) && |run[|moves|].tasks| == |w.jobs| && PoolProtocol.Enabled(w, run[|moves|], m)
    ensures PoolProtocol.IsRun(w, run + [PoolProtocol.Do(w, run[|moves|], m)], moves + [m])
  {
    var run', moves' := run + [PoolProtocol.Do(w, run[|moves|], m)], moves + [m];
    forall i | 0 <= i < |moves'|
      ensures |run'[i].tasks| == |w.jobs| && PoolProtocol.Enabled(w, run'[i], moves'[i])
           && run'[i + 1] == PoolProtocol.Do(w, run'[i], moves'[i])
    {
      if i < |moves| { assert moves'[i] == moves[i]; }
    }
  }

  lemma PoolInv(cfg: Settings, rs: seq<Request>, es: seq<Event>)
    ensures PoolProtocol.Inv(World(cfg, rs), After(cfg, rs, es).pool)
  {
    var run, moves := PoolPartIsARun(cfg, rs, es);
    PoolProtocol.RunInv(World(cfg, rs), run, moves, |moves|);
  }

  // ---------------------------------------------------------------------------------------------
  // Invariant

  ghost predicate GuardOk(cfg: Settings, s: Snapshot, now: Clock) {
    && SignatureGuard.CacheInv(cfg.signatures, s.gate.guard.cache, s.gate.guard.log, now.cache)
    && SignatureGuard.NoReplay(cfg.signatures, s.gate.guard.log)
  }

  predicate IsSigned(s: Snapshot, i: nat) { i < |s.phases| && s.phases[i].Admitted? && s.phases[i].admission.Signed? }

  predicate IsByToken(s: Snapshot, i: nat) { i < |s.phases| && s.phases[i].Admitted? && s.phases[i].admission.ByToken? }

  function IndexOf(s: Snapshot, i: nat): nat
    requires IsSigned(s, i)
  {
    s.phases[i].admission.index
  }

  /** A request admitted by signature is an accepted call of its own. */
  ghost predicate SignedOk(cfg: Settings, rs: seq<Request>, s: Snapshot) {
    && (forall i :: 0 <= i < |rs| && IsSigned(s, i) ==>
          && IndexOf(s, i) < |s.gate.guard.log|
          && var a := s.gate.guard.log[IndexOf(s, i)];
             a.at == s.phases[i].clock.cache && a.signature == cfg.signatures.hmac(rs[i].body) && rs[i].signature == Some(a.signature))
    && (forall i, j :: 0 <= i < j < |rs| && IsSigned(s, i) && IsSigned(s, j) ==> IndexOf(s, i) != IndexOf(s, j))
  }

  ghost predicate HistoryOk(cfg: Settings, s: Snapshot, now: Clock) {
    && s.gate.tokens == TokenAuth.After(cfg.tokens, s.history)
    && TokenAuth.Ordered(s.history) && TokenAuth.NoLaterThan(s.history, now)
  }

  predicate SameNonce(rs: seq<Request>, s: Snapshot, i: nat, j: nat) {
    i < |rs| && j < |rs| && i != j && IsByToken(s, i) && IsByToken(s, j) && rs[i].nonce == rs[j].nonce
  }

  /** A request admitted by token holds its nonce, and no two hold one nonce at once. */
  ghost predicate NoncesOk(cfg: Settings, rs: seq<Request>, s: Snapshot) {
    && (forall i :: 0 <= i < |rs| && IsByToken(s, i) ==>
          rs[i].nonce.Some? && TokenAuth.Reserved(cfg.tokens, s.history, TokenAuth.Accepted(rs[i].nonce.value, s.phases[i].clock.wall)))
    && (forall i, j :: SameNonce(rs, s, i, j) ==> NoncesApart(cfg, s, i, j))
  }

  predicate NoncesApart(cfg: Settings, s: Snapshot, i: nat, j: nat)
    requires i < |s.phases| && j < |s.phases| && s.phases[i].Admitted? && s.phases[j].Admitted?
  {
    var a, b := s.phases[i].clock.wall, s.phases[j].clock.wall;
    a + cfg.tokens.store.nonceTtl <= b || b + cfg.tokens.store.nonceTtl <= a
  }

  /** An attempt comes from an admitted request, not before its admission, and at once if it is queued. */
  predicate AttemptOk(cfg: Settings, s: Snapshot, a: Attempt) {
    && a.request < |s.phases| && s.phases[a.request].Admitted?
    && NoLater(s.phases[a.request].clock, a.clock)
    && a.queued == cfg.queueOrders
    && (a.queued ==> a.clock == s.phases[a.request].clock)
  }

  ghost predicate AttemptsOk(cfg: Settings, s: Snapshot, now: Clock) {
    && (forall a :: 0 <= a < |s.attempts| ==> AttemptOk(cfg, s, s.attempts[a]) && NoLater(s.attempts[a].clock, now))
    && (forall a, b :: 0 <= a < b < |s.attempts| ==>
          NoLater(s.attempts[a].clock, s.attempts[b].clock) && s.attempts[a].request != s.attempts[b].request)
  }

  /** Only an admitted request whose order is not queued uses the pool, and its attempt is the pool's order. */
  ghost predicate PoolUseOk(cfg: Settings, s: Snapshot) {
    && |s.pool.tasks| == |s.phases|
    && (forall i :: 0 <= i < |s.phases| && (cfg.queueOrders || !s.phases[i].Admitted?) ==> s.pool.tasks[i] == PoolProtocol.Start)
    && (!cfg.queueOrders ==> s.pool.orders == Requests(s.attempts))
  }

  function Requests(attempts: seq<Attempt>): seq<nat> {
    seq(|attempts|, a requires 0 <= a < |attempts| => attempts[a].request)
  }

  ghost predicate PhasesPast(s: Snapshot, now: Clock) {
    forall i :: 0 <= i < |s.phases| && s.phases[i].Admitted? ==> NoLater(s.phases[i].clock, now)
  }

  ghost predicate Inv(cfg: Settings, rs: seq<Request>, s: Snapshot, now: Clock) {
    && |s.phases| == |rs|
    && GuardOk(cfg, s, now)
    && SignedOk(cfg, rs, s)
    && HistoryOk(cfg, s, now)
    && NoncesOk(cfg, rs, s)
    && AttemptsOk(cfg, s, now)
    && PoolUseOk(cfg, s)
    && PhasesPast(s, now)
  }

  lemma {:induction false} InitialInv(cfg: Settings, rs: seq<Request>, now: Clock)
    requires cfg.signatures.maxsize >= 1
    ensures Inv(cfg, rs, Initial(cfg, rs), now)
  {
  }

  // ---- What admission does

  lemma {:induction false} AdmittedBySignature(cfg: Settings, g: Gate, r: Request, userRoles: seq<TokenAuth.UserRole>, clock: Clock)
    ensures var (h, admitted) := Admit(cfg, g, r, userRoles, clock);
      && (h.guard.log != g.guard.log <==> admitted.Success? && admitted.value.Signed?)
      && (admitted.Success? && admitted.value.Signed? ==>
            && admitted.value.index == |g.guard.log| && r.signature == Some(cfg.signatures.hmac(r.body))
            && h.guard.log == g.guard.log + [SignatureGuard.Accepted(cfg.signatures.hmac(r.body), clock.wall, clock.cache)])
  {
  }

  lemma {:induction false} AdmittedByToken(cfg: Settings, g: Gate, r: Request, userRoles: seq<TokenAuth.UserRole>, clock: Clock)
    ensures var (h, admitted) := Admit(cfg, g, r, userRoles, clock);
      && h.tokens == (if ReachesToken(cfg, r) then TokenAuth.Step(cfg.tokens, g.tokens, Verification(r, userRoles, clock)) else g.tokens)
      && (admitted.Success? && admitted.value.ByToken? ==>
            && ReachesToken(cfg, r)
            && TokenAuth.Accepting(TokenAuth.Verify(cfg.tokens, g.tokens, TokenAuth.Call(r.token, r.nonce, userRoles), clock).1))
  {
  }

  lemma {:induction false} ArriveGuard(cfg: Settings, rs: seq<Request>, s: Snapshot, i: nat, userRoles: seq<TokenAuth.UserRole>, clock: Clock)
    requires i < |rs| == |s.phases| && GuardOk(cfg, s, clock)
    ensures GuardOk(cfg, ArriveStep(cfg, rs, s, i, userRoles, clock), clock)
  {
    var call := SignatureCall(rs[i], clock);
    var g := s.gate.guard;
    SignatureGuard.StepKeepsInv(cfg.signatures, g, call, clock.cache);
    SignatureGuard.StepKeepsNoReplay(cfg.signatures, g, call, clock.cache);
    assert ArriveStep(cfg, rs, s, i, userRoles, clock).gate.guard in {g, SignatureGuard.Step(cfg.signatures, g, call)};
  }

  lemma {:induction false} ArriveSigned(cfg: Settings, rs: seq<Request>, s: Snapshot, i: nat, userRoles: seq<TokenAuth.UserRole>, clock: Clock)
    requires i < |rs| == |s.phases| && s.phases[i].Waiting? && SignedOk(cfg, rs, s)
    ensures SignedOk(cfg, rs, ArriveStep(cfg, rs, s, i, userRoles, clock))
  {
    AdmittedBySignature(cfg, s.gate, rs[i], userRoles, clock);
    var t := ArriveStep(cfg, rs, s, i, userRoles, clock);
    assert forall j :: 0 <= j < |rs| && j != i ==> (IsSigned(t, j) <==> IsSigned(s, j)) && t.phases[j] == s.phases[j];
    assert forall k :: 0 <= k < |s.gate.guard.log| ==> t.gate.guard.log[k] == s.gate.guard.log[k];
  }

  lemma {:induction false} HistoryGrows(cfg: Settings, s: Snapshot, e: TokenAuth.Timed)
    requires HistoryOk(cfg, s, e.clock)
    ensures TokenAuth.After(cfg.tokens, s.history + [e]) == TokenAuth.Step(cfg.tokens, s.gate.tokens, e)
    ensures TokenAuth.Ordered(s.history + [e]) && TokenAuth.NoLaterThan(s.history + [e], e.clock)
  {
    assert (s.history + [e])[..|s.history|] == s.history;
  }

  lemma {:induction false} ArriveHistory(cfg: Settings, rs: seq<Request>, s: Snapshot, i: nat, userRoles: seq<TokenAuth.UserRole>, clock: Clock)
    requires i < |rs| == |s.phases| && HistoryOk(cfg, s, clock)
    ensures HistoryOk(cfg, ArriveStep(cfg, rs, s, i, userRoles, clock), clock)
  {
    AdmittedByToken(cfg, s.gate, rs[i], userRoles, clock);
    HistoryGrows(cfg, s, Verification(rs[i], userRoles, clock));
    assert s.history + [] == s.history;
  }

  lemma {:induction false} NoncesLast(cfg: Settings, rs: seq<Request>, s: Snapshot, t: Snapshot, e: TokenAuth.Timed)
    requires NoncesOk(cfg, rs, s) && t.phases == s.phases && t.history == s.history + [e]
    ensures NoncesOk(cfg, rs, t)
  {
    forall i | 0 <= i < |rs| && IsByToken(t, i)
      ensures rs[i].nonce.Some? && TokenAuth.Reserved(cfg.tokens, t.history, TokenAuth.Accepted(rs[i].nonce.value, t.phases[i].clock.wall))
    {
      assert IsByToken(s, i);
      TokenAuth.ReservedLasts(cfg.tokens, s.history, e, TokenAuth.Accepted(rs[i].nonce.value, t.phases[i].clock.wall));
    }
    assert forall i, j :: SameNonce(rs, t, i, j) ==> SameNonce(rs, s, i, j);
  }

  /** One more request holds its nonce, which was free at its time. */
  lemma {:induction false} NonceAdded(cfg: Settings, rs: seq<Request>, s: Snapshot, t: Snapshot, i: nat, clock: Clock)
    requires i < |rs| == |s.phases| && NoncesOk(cfg, rs, s) && NoncesOk(cfg, rs, t.(phases := s.phases))
    requires t.phases == s.phases[i := Admitted(ByToken, clock)] && rs[i].nonce.Some?
    requires !TokenStore.InUse(cfg.tokens.store, TokenAuth.StoreOps(cfg.tokens, s.history), rs[i].nonce.value, clock.wall)
    requires TokenAuth.Reserved(cfg.tokens, t.history, TokenAuth.Accepted(rs[i].nonce.value, clock.wall))
    ensures NoncesOk(cfg, rs, t)
  {
    forall j | 0 <= j < |rs| && IsByToken(t, j)
      ensures rs[j].nonce.Some? && TokenAuth.Reserved(cfg.tokens, t.history, TokenAuth.Accepted(rs[j].nonce.value, t.phases[j].clock.wall))
    {
      if j != i { assert IsByToken(t.(phases := s.phases), j); }
    }
    forall j, k | SameNonce(rs, t, j, k)
      ensures NoncesApart(cfg, t, j, k)
    {
      if j != i && k != i {
        assert SameNonce(rs, s, j, k);
      } else {
        var other := if j == i then k else j;
        assert IsByToken(s, other);
        assert TokenAuth.Reserved(cfg.tokens, s.history, TokenAuth.Accepted(rs[i].nonce.value, s.phases[other].clock.wall));
      }
    }
  }

  lemma {:induction false} OtherPhase(cfg: Settings, rs: seq<Request>, s: Snapshot, t: Snapshot, i: nat, p: Phase)
    requires i < |rs| == |s.phases| && NoncesOk(cfg, rs, s) && t.history == s.history && t.phases == s.phases[i := p]
    requires s.phases[i].Waiting? && !(p.Admitted? && p.admission.ByToken?)
    ensures NoncesOk(cfg, rs, t)
  {
    assert forall j :: 0 <= j < |rs| ==> (IsByToken(t, j) <==> IsByToken(s, j)) && (j != i ==> t.phases[j] == s.phases[j]);
    assert forall j, k :: SameNonce(rs, t, j, k) ==> SameNonce(rs, s, j, k);
  }

  lemma {:induction false} ArriveNonces(cfg: Settings, rs: seq<Request>, s: Snapshot, i: nat, userRoles: seq<TokenAuth.UserRole>, clock: Clock)
    requires i < |rs| == |s.phases| && s.phases[i].Waiting? && HistoryOk(cfg, s, clock)
    requires NoncesOk(cfg, rs, s)
    ensures NoncesOk(cfg, rs, ArriveStep(cfg, rs, s, i, userRoles, clock))
  {
    var t := ArriveStep(cfg, rs, s, i, userRoles, clock);
    AdmittedByToken(cfg, s.gate, rs[i], userRoles, clock);
    if !ReachesToken(cfg, rs[i]) {
      assert t.history == s.history;
      OtherPhase(cfg, rs, s, t, i, t.phases[i]);
    } else {
      var e := Verification(rs[i], userRoles, clock);
      var later := t.(phases := s.phases);
      NoncesLast(cfg, rs, s, later, e);
      if IsByToken(t, i) {
        assert t.history[..|t.history| - 1] == s.history;
        HistoryGrows(cfg, s, e);
        TokenAuth.AcceptingRegisters(cfg.tokens, t.history);
        NonceAdded(cfg, rs, s, t, i, clock);
      } else {
        OtherPhase(cfg, rs, later, t, i, t.phases[i]);
      }
    }
  }

  lemma {:induction false} ArriveAttempts(cfg: Settings, rs: seq<Request>, s: Snapshot, i: nat, userRoles: seq<TokenAuth.UserRole>, clock: Clock)
    requires i < |rs| == |s.phases| && s.phases[i].Waiting? && AttemptsOk(cfg, s, clock)
    ensures AttemptsOk(cfg, ArriveStep(cfg, rs, s, i, userRoles, clock), clock)
  {
    var t := ArriveStep(cfg, rs, s, i, userRoles, clock);
    forall a | 0 <= a < |t.attempts|
      ensures AttemptOk(cfg, t, t.attempts[a]) && NoLater(t.attempts[a].clock, clock)
    {
      if a < |s.attempts| {
        assert t.attempts[a] == s.attempts[a] && AttemptOk(cfg, s, s.attempts[a]);
      }
    }
    assert forall a :: 0 <= a < |s.attempts| ==> AttemptOk(cfg, s, s.attempts[a]) && s.attempts[a].request != i;
  }

  lemma {:induction false} ArriveKeepsInv(cfg: Settings, rs: seq<Request>, s: Snapshot, i: nat, userRoles: seq<TokenAuth.UserRole>, clock: Clock)
    requires Inv(cfg, rs, s, clock) && i < |rs| && s.phases[i].Waiting?
    ensures Inv(cfg, rs, ArriveStep(cfg, rs, s, i, userRoles, clock), clock)
  {
    ArriveGuard(cfg, rs, s, i, userRoles, clock);
    ArriveSigned(cfg, rs, s, i, userRoles, clock);
    ArriveHistory(cfg, rs, s, i, userRoles, clock);
    ArriveNonces(cfg, rs, s, i, userRoles, clock);
    ArriveAttempts(cfg, rs, s, i, userRoles, clock);
    var t := ArriveStep(cfg, rs, s, i, userRoles, clock);
    assert PoolUseOk(cfg, t) by {
      if !cfg.queueOrders { assert t.attempts == s.attempts; }
    }
  }

  // ---- The other steps

  /** Time passing alone. */
  lemma {:induction false} LaterClock(cfg: Settings, rs: seq<Request>, s: Snapshot, earlier: Clock, now: Clock)
    requires Inv(cfg, rs, s, earlier) && NoLater(earlier, now)
    ensures Inv(cfg, rs, s, now)
  {
  }

  lemma {:induction false} OrdersGrow(w: PoolProtocol.World, s: PoolProtocol.State, m: PoolProtocol.Event)
    requires |s.tasks| == |w.jobs| && PoolProtocol.Enabled(w, s, m)
    ensures var t := PoolProtocol.Do(w, s, m);
      && t.tasks == s.tasks[m.task := t.tasks[m.task]] && |t.tasks| == |s.tasks|
      && t.orders == s.orders + if s.tasks[m.task].PlaceOrder? then [m.task] else []
  {
    PoolProtocol.OneTaskMoves(w, s, m);
    PoolProtocol.OrderStage(w, s, m);
  }

  lemma {:induction false} NotOrderedBefore(cfg: Settings, rs: seq<Request>, s: Snapshot, i: nat)
    requires PoolUseOk(cfg, s) && PoolProtocol.OrdersOk(s.pool) && !cfg.queueOrders
    requires i < |s.phases| && s.pool.tasks[i].PlaceOrder?
    ensures forall a :: 0 <= a < |s.attempts| ==> s.attempts[a].request != i
  {
    forall a | 0 <= a < |s.attempts|
      ensures s.attempts[a].request != i
    {
      assert s.pool.orders[a] == s.attempts[a].request;
      assert s.pool.orders[a] in multiset(s.pool.orders);
    }
  }

  lemma {:induction false} ProceedAttempts(cfg: Settings, rs: seq<Request>, s: Snapshot, m: PoolProtocol.Event, clock: Clock)
    requires Inv(cfg, rs, s, clock) && PoolProtocol.OrdersOk(s.pool)
    requires Enabled(cfg, rs, s, Event(Proceed(m), clock))
    ensures AttemptsOk(cfg, ProceedStep(cfg, rs, s, m, clock), clock)
  {
    var t := ProceedStep(cfg, rs, s, m, clock);
    if s.pool.tasks[m.task].PlaceOrder? { NotOrderedBefore(cfg, rs, s, m.task); }
    forall a | 0 <= a < |t.attempts|
      ensures AttemptOk(cfg, t, t.attempts[a]) && NoLater(t.attempts[a].clock, clock)
    {
      if a < |s.attempts| {
        assert t.attempts[a] == s.attempts[a] && AttemptOk(cfg, s, s.attempts[a]);
      }
    }
  }

  lemma {:induction false} ProceedPool(cfg: Settings, rs: seq<Request>, s: Snapshot, m: PoolProtocol.Event, clock: Clock)
    requires |s.phases| == |rs| && PoolUseOk(cfg, s) && Enabled(cfg, rs, s, Event(Proceed(m), clock))
    ensures PoolUseOk(cfg, ProceedStep(cfg, rs, s, m, clock))
  {
    OrdersGrow(World(cfg, rs), s.pool, m);
    var t := ProceedStep(cfg, rs, s, m, clock);
    assert t.pool.orders == Requests(t.attempts);
  }

  lemma {:induction false} ProceedKeepsInv(cfg: Settings, rs: seq<Request>, s: Snapshot, m: PoolProtocol.Event, now: Clock)
    requires Inv(cfg, rs, s, now) && PoolProtocol.OrdersOk(s.pool) && Enabled(cfg, rs, s, Event(Proceed(m), now))
    ensures Inv(cfg, rs, ProceedStep(cfg, rs, s, m, now), now)
  {
    var t := ProceedStep(cfg, rs, s, m, now);
    assert t.phases == s.phases && t.gate == s.gate && t.history == s.history;
    ProceedAttempts(cfg, rs, s, m, now);
    ProceedPool(cfg, rs, s, m, now);
    assert SignedOk(cfg, rs, t);
    assert NoncesOk(cfg, rs, t) by {
      assert forall i, j :: SameNonce(rs, t, i, j) ==> SameNonce(rs, s, i, j);
    }
  }

  lemma {:induction false} ElsewhereKeepsInv(cfg: Settings, rs: seq<Request>, s: Snapshot, event: TokenAuth.Event, now: Clock)
    requires Inv(cfg, rs, s, now)
    ensures Inv(cfg, rs, ElsewhereStep(cfg, s, event, now), now)
  {
    var t := ElsewhereStep(cfg, s, event, now);
    assert HistoryOk(cfg, t, now) by { HistoryGrows(cfg, s, TokenAuth.Timed(event, now)); }
    assert NoncesOk(cfg, rs, t) by { NoncesLast(cfg, rs, s, t, TokenAuth.Timed(event, now)); }
    assert t.phases == s.phases && t.gate.guard == s.gate.guard && t.attempts == s.attempts && t.pool == s.pool;
    assert SignedOk(cfg, rs, t);
    assert AttemptsOk(cfg, t, now) by {
      assert forall a :: 0 <= a < |s.attempts| ==> AttemptOk(cfg, s, s.attempts[a]);
    }
  }

  lemma {:induction false} StepKeepsInv(cfg: Settings, rs: seq<Request>, s: Snapshot, e: Event)
    requires Inv(cfg, rs, s, e.clock) && PoolProtocol.OrdersOk(s.pool)
    ensures Inv(cfg, rs, Step(cfg, rs, s, e), e.clock)
  {
    if Enabled(cfg, rs, s, e) {
      match e.action
      case Arrive(i, userRoles) => ArriveKeepsInv(cfg, rs, s, i, userRoles, e.clock);
      case Proceed(m) => ProceedKeepsInv(cfg, rs, s, m, e.clock);
      case Elsewhere(event) => ElsewhereKeepsInv(cfg, rs, s, event, e.clock);
    }
  }

  lemma {:induction false} RunInv(cfg: Settings, rs: seq<Request>, es: seq<Event>, now: Clock)
    requires cfg.signatures.maxsize >= 1 && Ordered(es) && UpTo(es, now)
    ensures Inv(cfg, rs, After(cfg, rs, es), now)
  {
    if es == [] {
      InitialInv(cfg, rs, now);
    } else {
      var front, e := es[..|es| - 1], es[|es| - 1];
      RunInv(cfg, rs, front, e.clock);
      PoolInv(cfg, rs, front);
      StepKeepsInv(cfg, rs, After(cfg, rs, front), e);
      LaterClock(cfg, rs, After(cfg, rs, es), e.clock, now);
    }
  }

  // ---------------------------------------------------------------------------------------------
  // What every run keeps

  /** Every attempt belongs to a request admitted before it, a request makes at most one, and a queued
      order leaves at the time of its admission. */
  lemma {:induction false} EachAttemptHasItsAdmission(cfg: Settings, rs: seq<Request>, es: seq<Event>)
    requires cfg.signatures.maxsize >= 1 && Ordered(es)
    ensures AttemptsOk(cfg, After(cfg, rs, es), Latest(es))
  {
    RunInv(cfg, rs, es, Latest(es));
  }

  /** Both were admitted by the same signed body. */
  predicate SameBody(rs: seq<Request>, s: Snapshot, i: nat, j: nat) {
    i < |rs| && j < |rs| && i != j && IsSigned(s, i) && IsSigned(s, j) && rs[i].body == rs[j].body
  }

  /** How many signatures were accepted between those of two requests. */
  function Between(s: Snapshot, i: nat, j: nat): int
    requires IsSigned(s, i) && IsSigned(s, j)
  {
    if IndexOf(s, i) < IndexOf(s, j) then IndexOf(s, j) - IndexOf(s, i) - 1 else IndexOf(s, i) - IndexOf(s, j) - 1
  }

  predicate AdmissionsApart(cfg: Settings, s: Snapshot, i: nat, j: nat)
    requires IsSigned(s, i) && IsSigned(s, j)
  {
    var a, b := s.phases[i].clock.cache, s.phases[j].clock.cache;
    Between(s, i, j) >= cfg.signatures.maxsize || a + cfg.signatures.ttl <= b || b + cfg.signatures.ttl <= a
  }

  lemma {:induction false} SignedApart(cfg: Settings, rs: seq<Request>, s: Snapshot, now: Clock, i: nat, j: nat)
    requires Inv(cfg, rs, s, now) && SameBody(rs, s, i, j)
    ensures AdmissionsApart(cfg, s, i, j)
  {
    var log, x, y := s.gate.guard.log, IndexOf(s, i), IndexOf(s, j);
    assert x != y;
    assert log[x].signature == log[y].signature;
    assert log[x].at == s.phases[i].clock.cache && log[y].at == s.phases[j].clock.cache;
  }

  /** Requests that share a signed body were admitted a TTL apart or have SIGNATURE_CACHE_SIZE accepted
      signatures between them; requests that share a nonce were admitted NONCE_TTL apart. */
  lemma {:induction false} AdmissionsAreApart(cfg: Settings, rs: seq<Request>, es: seq<Event>, i: nat, j: nat)
    requires cfg.signatures.maxsize >= 1 && Ordered(es)
    ensures var s := After(cfg, rs, es);
      && (SameBody(rs, s, i, j) ==> AdmissionsApart(cfg, s, i, j))
      && (SameNonce(rs, s, i, j) ==> NoncesApart(cfg, s, i, j))
  {
    RunInv(cfg, rs, es, Latest(es));
    var s := After(cfg, rs, es);
    if SameBody(rs, s, i, j) { SignedApart(cfg, rs, s, Latest(es), i, j); }
  }

  /** A request admitted by its signature uses the signature up, whatever became of its order and
      whatever happened since: within the TTL, and with fewer than SIGNATURE_CACHE_SIZE signatures
      accepted in between, the same signature is refused and nothing else changes. */
  lemma {:induction false} SpentSignaturesAreRefused(cfg: Settings, rs: seq<Request>, es: seq<Event>, i: nat, k: nat, userRoles: seq<TokenAuth.UserRole>, clock: Clock)
    requires cfg.signatures.maxsize >= 1 && Ordered(es) && UpTo(es, clock)
    requires var s := After(cfg, rs, es);
      && i < |rs| && IsSigned(s, i) && clock.cache < s.phases[i].clock.cache + cfg.signatures.ttl
      && |s.gate.guard.log| - IndexOf(s, i) <= cfg.signatures.maxsize
      && k < |rs| && k < |s.phases| && s.phases[k].Waiting? && rs[k].signature == rs[i].signature
    ensures var s := After(cfg, rs, es);
      After(cfg, rs, es + [Event(Arrive(k, userRoles), clock)]) == s.(phases := s.phases[k := Refused])
  {
    var e := Event(Arrive(k, userRoles), clock);
    assert (es + [e])[..|es|] == es;
    RunInv(cfg, rs, es, clock);
    RepeatIsRefused(cfg, rs, After(cfg, rs, es), i, k, userRoles, clock);
  }

  lemma {:induction false} RepeatIsRefused(cfg: Settings, rs: seq<Request>, s: Snapshot, i: nat, k: nat, userRoles: seq<TokenAuth.UserRole>, clock: Clock)
    requires |s.phases| == |rs| && GuardOk(cfg, s, clock) && SignedOk(cfg, rs, s)
    requires i < |rs| && IsSigned(s, i) && clock.cache < s.phases[i].clock.cache + cfg.signatures.ttl
    requires |s.gate.guard.log| - IndexOf(s, i) <= cfg.signatures.maxsize
    requires k < |rs| && rs[k].signature == rs[i].signature
    ensures ArriveStep(cfg, rs, s, k, userRoles, clock) == s.(phases := s.phases[k := Refused])
  {
    var g, signature := s.gate.guard, rs[k].signature.value;
    assert g.log[IndexOf(s, i)].signature == signature;
    assert SignatureGuard.SeenRecently(cfg.signatures, g.log, signature, clock.cache);
    SignatureGuard.ContainsIsSeenRecently(cfg.signatures, g.cache, g.log, clock.cache, signature, clock.cache);
    assert Admit(cfg, s.gate, rs[k], userRoles, clock).0 == s.gate && Admit(cfg, s.gate, rs[k], userRoles, clock).1.Failure?;
  }

  // ---------------------------------------------------------------------------------------------
  // How close the orders themselves can come

  /** No order leaves more than `delay` after its request was admitted. */
  ghost predicate DelaysWithin(s: Snapshot, delay: real) {
    forall a :: 0 <= a < |s.attempts| && s.attempts[a].request < |s.phases| && s.phases[s.attempts[a].request].Admitted? ==>
      s.attempts[a].clock.cache <= s.phases[s.attempts[a].request].clock.cache + delay
  }

  /** Two orders for one signed body are at least `span` apart, or SIGNATURE_CACHE_SIZE signatures were
      accepted between their admissions. */
  ghost predicate BodiesApart(cfg: Settings, rs: seq<Request>, s: Snapshot, span: real) {
    forall a, b :: 0 <= a < b < |s.attempts| && SameBody(rs, s, s.attempts[a].request, s.attempts[b].request) ==>
      || s.attempts[a].clock.cache + span <= s.attempts[b].clock.cache
      || Between(s, s.attempts[a].request, s.attempts[b].request) >= cfg.signatures.maxsize
  }

  ghost predicate WallDelaysWithin(s: Snapshot, delay: int) {
    forall a :: 0 <= a < |s.attempts| && s.attempts[a].request < |s.phases| && s.phases[s.attempts[a].request].Admitted? ==>
      s.attempts[a].clock.wall <= s.phases[s.attempts[a].request].clock.wall + delay
  }

  /** Two orders admitted by token with one nonce are at least `span` seconds apart. */
  ghost predicate OrdersOfNonceApart(rs: seq<Request>, s: Snapshot, span: int) {
    forall a, b :: 0 <= a < b < |s.attempts| && SameNonce(rs, s, s.attempts[a].request, s.attempts[b].request) ==>
      s.attempts[a].clock.wall + span <= s.attempts[b].clock.wall
  }

  lemma {:induction false} BodiesApartByDelay(cfg: Settings, rs: seq<Request>, s: Snapshot, now: Clock, delay: real, span: real)
    requires Inv(cfg, rs, s, now) && DelaysWithin(s, delay) && (span <= 0.0 || span <= cfg.signatures.ttl - delay)
    ensures BodiesApart(cfg, rs, s, span)
  {
    forall a, b | 0 <= a < b < |s.attempts| && SameBody(rs, s, s.attempts[a].request, s.attempts[b].request)
      ensures || s.attempts[a].clock.cache + span <= s.attempts[b].clock.cache
              || Between(s, s.attempts[a].request, s.attempts[b].request) >= cfg.signatures.maxsize
    {
      assert AttemptOk(cfg, s, s.attempts[a]) && AttemptOk(cfg, s, s.attempts[b]);
      SignedApart(cfg, rs, s, now, s.attempts[a].request, s.attempts[b].request);
    }
  }

  lemma {:induction false} NonceOrdersByDelay(cfg: Settings, rs: seq<Request>, s: Snapshot, now: Clock, delay: int, span: int)
    requires Inv(cfg, rs, s, now) && WallDelaysWithin(s, delay) && (span <= 0 || span <= cfg.tokens.store.nonceTtl - delay)
    ensures OrdersOfNonceApart(rs, s, span)
  {
    forall a, b | 0 <= a < b < |s.attempts| && SameNonce(rs, s, s.attempts[a].request, s.attempts[b].request)
      ensures s.attempts[a].clock.wall + span <= s.attempts[b].clock.wall
    {
      assert AttemptOk(cfg, s, s.attempts[a]) && AttemptOk(cfg, s, s.attempts[b]);
      assert NoncesApart(cfg, s, s.attempts[a].request, s.attempts[b].request);
    }
  }

  lemma {:induction false} QueuedAtOnce(cfg: Settings, s: Snapshot, now: Clock)
    requires AttemptsOk(cfg, s, now) && cfg.queueOrders
    ensures DelaysWithin(s, 0.0) && WallDelaysWithin(s, 0)
  {
    assert forall a :: 0 <= a < |s.attempts| ==> AttemptOk(cfg, s, s.attempts[a]);
  }

  /** Orders for one signed body stay apart by the TTL less the longest delay from admission to order. */
  lemma {:induction false} SignedOrdersAreNotRepeated(cfg: Settings, rs: seq<Request>, es: seq<Event>, delay: real)
    requires cfg.signatures.maxsize >= 1 && Ordered(es)
    ensures DelaysWithin(After(cfg, rs, es), delay) ==> BodiesApart(cfg, rs, After(cfg, rs, es), cfg.signatures.ttl - delay)
    ensures cfg.queueOrders ==> BodiesApart(cfg, rs, After(cfg, rs, es), cfg.signatures.ttl)
  {
    RunInv(cfg, rs, es, Latest(es));
    var s := After(cfg, rs, es);
    if DelaysWithin(s, delay) { BodiesApartByDelay(cfg, rs, s, Latest(es), delay, cfg.signatures.ttl - delay); }
    if cfg.queueOrders {
      QueuedAtOnce(cfg, s, Latest(es));
      BodiesApartByDelay(cfg, rs, s, Latest(es), 0.0, cfg.signatures.ttl);
    }
  }

  /** Orders admitted with one nonce stay apart by NONCE_TTL less the longest delay. */
  lemma {:induction false} TokenOrdersAreNotRepeated(cfg: Settings, rs: seq<Request>, es: seq<Event>, delay: int)
    requires cfg.signatures.maxsize >= 1 && Ordered(es)
    ensures WallDelaysWithin(After(cfg, rs, es), delay) ==>
              OrdersOfNonceApart(rs, After(cfg, rs, es), cfg.tokens.store.nonceTtl - delay)
    ensures cfg.queueOrders ==> OrdersOfNonceApart(rs, After(cfg, rs, es), cfg.tokens.store.nonceTtl)
  {
    RunInv(cfg, rs, es, Latest(es));
    var s := After(cfg, rs, es);
    if WallDelaysWithin(s, delay) { NonceOrdersByDelay(cfg, rs, s, Latest(es), delay, cfg.tokens.store.nonceTtl - delay); }
    if cfg.queueOrders {
      QueuedAtOnce(cfg, s, Latest(es));
      NonceOrdersByDelay(cfg, rs, s, Latest(es), 0, cfg.tokens.store.nonceTtl);
    }
  }

  // ---------------------------------------------------------------------------------------------
  // When all requests have completed

  /** No request can arrive or go on. */
  ghost predicate Quiet(cfg: Settings, rs: seq<Request>, s: Snapshot) {
    forall e: Event :: Enabled(cfg, rs, s, e) ==> e.action.Elsewhere?
  }

  /** Then every request was refused, queued or worked off; the lock is free, no client is held, and
      every client acquired was returned as often as it was acquired. */
  lemma {:induction false} NothingIsHeldAtTheEnd(cfg: Settings, rs: seq<Request>, es: seq<Event>, k: SessionPool.Key)
    requires cfg.signatures.maxsize >= 1 && Ordered(es) && Quiet(cfg, rs, After(cfg, rs, es))
    ensures var s := After(cfg, rs, es);
      && |s.phases| == |s.pool.tasks| == |rs|
      && (forall i :: 0 <= i < |rs| ==> s.phases[i].Refused? || (s.phases[i].Admitted? && (cfg.queueOrders || s.pool.tasks[i].Done?)))
      && s.pool.lock == None
      && PoolProtocol.HeldCount(s.pool, k) == 0
      && multiset(s.pool.acquired) == multiset(s.pool.returned)
  {
    var s, w := After(cfg, rs, es), World(cfg, rs);
    RunInv(cfg, rs, es, Latest(es));
    PoolInv(cfg, rs, es);
    forall i: nat | i < |rs|
      ensures !s.phases[i].Waiting?
    {
      var e := Event(Arrive(i, []), Latest(es));
      assert !Enabled(cfg, rs, s, e);
    }
    if s.pool.lock.Some? { var e := LockHolderMoves(cfg, rs, s, Latest(es)); }
    forall i: nat | i < |rs| && s.phases[i].Admitted? && !cfg.queueOrders
      ensures s.pool.tasks[i].Done?
    {
      var e := Event(Proceed(PoolProtocol.Event(i, PoolProtocol.Ok)), Latest(es));
      assert !Enabled(cfg, rs, s, e);
    }
    PoolProtocol.NothingInHand(s.pool, PoolProtocol.OfKey(k));
    forall c
      ensures multiset(s.pool.acquired)[c] == multiset(s.pool.returned)[c]
    {
      var run, moves := PoolPartIsARun(cfg, rs, es);
      PoolProtocol.BalancedWhenIdle(w, run, moves, c);
    }
  }

  /** Whoever holds the lock can go on. */
  lemma LockHolderMoves(cfg: Settings, rs: seq<Request>, s: Snapshot, now: Clock) returns (e: Event)
    requires PoolProtocol.LockOk(s.pool) && PoolUseOk(cfg, s) && |s.phases| == |rs| && s.pool.lock.Some?
    ensures Enabled(cfg, rs, s, e) && e.action.Proceed?
  {
    assert PoolProtocol.Critical(s.pool.tasks[s.pool.lock.value]);
    e := Event(Proceed(PoolProtocol.Event(s.pool.lock.value, PoolProtocol.Ok)), now);
  }
}
