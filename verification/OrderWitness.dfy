/** How far apart orders for one signed body, or for one nonce, are kept: exactly the TTL less the
    longest delay from admission to order, and so the whole TTL exactly where orders are queued. */
module OrderWitness {
  import opened Wrappers
  import opened Webhook
  import opened OrderRuns
  import PoolProtocol
  import SessionPool
  import SignatureGuard
  import TokenAuth
  import TokenStore

  // ---------------------------------------------------------------------------------------------
  // One request on its way to its order

  function Go(i: nat, c: Clock): Event { Event(Proceed(PoolProtocol.Event(i, PoolProtocol.Ok)), c) }

  predicate NoneIdle(p: PoolProtocol.State, key: SessionPool.Key) {
    key in p.pools && p.pools[key] < |p.queues| ==> p.queues[p.pools[key]] == []
  }

  /** Request i is in, may move, and will find no idle client. */
  predicate OnItsWay(cfg: Settings, rs: seq<Request>, s: Snapshot, i: nat, key: SessionPool.Key) {
    && !cfg.queueOrders
    && |s.pool.tasks| == |s.phases| == |rs| && i < |rs| && s.phases[i].Admitted?
    && PoolProtocol.SessionKey(World(cfg, rs), rs[i].job) == Success(key)
    && s.pool.lock == None && NoneIdle(s.pool, key)
  }

  predicate OnlyMoves(s: Snapshot, t: Snapshot, i: nat, p: PoolProtocol.Pc) {
    t.gate == s.gate && t.phases == s.phases && t.history == s.history
    && i < |s.pool.tasks| && t.pool.tasks == s.pool.tasks[i := p]
  }

  lemma OneMore(cfg: Settings, rs: seq<Request>, s: Snapshot, e: Event)
    ensures From(cfg, rs, s, [e]) == Step(cfg, rs, s, e)
  {
    assert [e][..0] == [];
    assert From(cfg, rs, s, []) == s;
  }

  /** Where a step without the lock leads a request that is not refused anything. */
  function NextPc(s: Snapshot, i: nat, key: SessionPool.Key): PoolProtocol.Pc
    requires i < |s.pool.tasks|
  {
    match s.pool.tasks[i]
    case Start => PoolProtocol.AwaitLookup(key)
    case Create(_) => PoolProtocol.LoadMarkets(SessionPool.Client(|s.pool.created|, key))
    case LoadMarkets(c) => PoolProtocol.PlaceOrder(c)
    case PlaceOrder(c) => PoolProtocol.AwaitReturn(c, PoolProtocol.Placed)
    case p => p
  }

  lemma Advances(cfg: Settings, rs: seq<Request>, s: Snapshot, i: nat, key: SessionPool.Key, c: Clock)
    requires OnItsWay(cfg, rs, s, i, key)
    requires var p := s.pool.tasks[i]; p.Start? || p == PoolProtocol.Create(key) || p.LoadMarkets? || p.PlaceOrder?
    ensures var t := From(cfg, rs, s, [Go(i, c)]);
      && OnItsWay(cfg, rs, t, i, key) && OnlyMoves(s, t, i, NextPc(s, i, key))
      && t.attempts == s.attempts + if s.pool.tasks[i].PlaceOrder? then [Attempt(i, c, false)] else []
  {
    OneMore(cfg, rs, s, Go(i, c));
  }

  lemma Locks(cfg: Settings, rs: seq<Request>, s: Snapshot, i: nat, key: SessionPool.Key, c: Clock)
    requires OnItsWay(cfg, rs, s, i, key) && s.pool.tasks[i] == PoolProtocol.AwaitLookup(key)
    ensures var t := From(cfg, rs, s, [Go(i, c)]);
      && OnlyMoves(s, t, i, PoolProtocol.Lookup(key)) && t.attempts == s.attempts
      && t.pool == s.pool.(lock := Some(i), tasks := t.pool.tasks)
  {
    OneMore(cfg, rs, s, Go(i, c));
  }

  lemma FindsNone(cfg: Settings, rs: seq<Request>, s: Snapshot, i: nat, key: SessionPool.Key, c: Clock)
    requires OnItsWay(cfg, rs, s.(pool := s.pool.(lock := None)), i, key) && s.pool.tasks[i] == PoolProtocol.Lookup(key)
    ensures var t := From(cfg, rs, s, [Go(i, c)]);
      OnItsWay(cfg, rs, t, i, key) && OnlyMoves(s, t, i, PoolProtocol.Create(key)) && t.attempts == s.attempts
  {
    OneMore(cfg, rs, s, Go(i, c));
  }

  /** From admission at `c` to the order at `d`. */
  function Way(i: nat, c: Clock, d: Clock): seq<Event> {
    [Go(i, c)] + [Go(i, c)] + [Go(i, c)] + [Go(i, c)] + [Go(i, c)] + [Go(i, d)]
  }

  lemma WayToOrder(cfg: Settings, rs: seq<Request>, s: Snapshot, i: nat, key: SessionPool.Key, c: Clock, d: Clock) returns (p: PoolProtocol.Pc)
    requires OnItsWay(cfg, rs, s, i, key) && s.pool.tasks[i].Start?
    ensures var t := From(cfg, rs, s, Way(i, c, d));
      && OnItsWay(cfg, rs, t, i, key) && OnlyMoves(s, t, i, p)
      && t.attempts == s.attempts + [Attempt(i, d, false)]
  {
    var g := [Go(i, c)];
    var s1 := From(cfg, rs, s, g);
    Advances(cfg, rs, s, i, key, c);
    var s2 := From(cfg, rs, s1, g);
    Locks(cfg, rs, s1, i, key, c);
    var s3 := From(cfg, rs, s2, g);
    FindsNone(cfg, rs, s2, i, key, c);
    var s4 := From(cfg, rs, s3, g);
    Advances(cfg, rs, s3, i, key, c);
    var x := SessionPool.Client(|s3.pool.created|, key);
    var s5 := From(cfg, rs, s4, g);
    Advances(cfg, rs, s4, i, key, c);
    Advances(cfg, rs, s5, i, key, d);
    p := PoolProtocol.AwaitReturn(x, PoolProtocol.Placed);
    WaySteps(cfg, rs, s, i, c, d);
  }

  lemma WaySteps(cfg: Settings, rs: seq<Request>, s: Snapshot, i: nat, c: Clock, d: Clock)
    ensures var g := [Go(i, c)];
      From(cfg, rs, s, Way(i, c, d)) ==
      From(cfg, rs, From(cfg, rs, From(cfg, rs, From(cfg, rs, From(cfg, rs, From(cfg, rs, s, g), g), g), g), g), [Go(i, d)])
  {
    var g := [Go(i, c)];
    FromThen(cfg, rs, s, g, g);
    FromThen(cfg, rs, s, g + g, g);
    FromThen(cfg, rs, s, g + g + g, g);
    FromThen(cfg, rs, s, g + g + g + g, g);
    FromThen(cfg, rs, s, g + g + g + g + g, [Go(i, d)]);
  }

  // ---------------------------------------------------------------------------------------------
  // Two requests, the second admitted after the first has ordered late

  function Schedule(c0: Clock, d: Clock, c1: Clock): seq<Event> {
    ([Event(Arrive(0, []), c0)] + Way(0, c0, d)) + ([Event(Arrive(1, []), c1)] + Way(1, c1, c1))
  }

  lemma ScheduleOrdered(c0: Clock, d: Clock, c1: Clock)
    requires NoLater(c0, d) && NoLater(d, c1)
    ensures Ordered(Schedule(c0, d, c1)) && |Schedule(c0, d, c1)| == 14
    ensures forall k :: 0 <= k < 14 ==> NoLater(c0, Schedule(c0, d, c1)[k].clock)
  {
    var es := Schedule(c0, d, c1);
    assert forall k :: 0 <= k < 14 ==> es[k].clock == if k < 6 then c0 else if k == 6 then d else c1;
  }

  /** Request i arrives, is admitted and orders at `d`. */
  lemma ArrivesAndOrders(cfg: Settings, rs: seq<Request>, s: Snapshot, i: nat, key: SessionPool.Key, c: Clock, d: Clock)
    returns (t: Snapshot)
    requires !cfg.queueOrders && |s.pool.tasks| == |s.phases| == |rs| && i < |rs|
    requires s.phases[i].Waiting? && s.pool.tasks[i].Start? && s.pool.lock == None && NoneIdle(s.pool, key)
    requires PoolProtocol.SessionKey(World(cfg, rs), rs[i].job) == Success(key)
    requires Admit(cfg, s.gate, rs[i], [], c).1.Success?
    ensures t == From(cfg, rs, s, [Event(Arrive(i, []), c)] + Way(i, c, d))
    ensures var (gate, admitted) := Admit(cfg, s.gate, rs[i], [], c);
      && t.gate == gate && t.phases == s.phases[i := Admitted(admitted.value, c)]
      && t.attempts == s.attempts + [Attempt(i, d, false)]
      && |t.pool.tasks| == |s.pool.tasks| && (forall j :: 0 <= j < |rs| && j != i ==> t.pool.tasks[j] == s.pool.tasks[j])
      && t.pool.lock == None && NoneIdle(t.pool, key)
  {
    var e := Event(Arrive(i, []), c);
    FromThen(cfg, rs, s, [e], Way(i, c, d));
    OneMore(cfg, rs, s, e);
    var p := WayToOrder(cfg, rs, Step(cfg, rs, s, e), i, key, c, d);
    t := From(cfg, rs, s, [e] + Way(i, c, d));
  }

  lemma TwoOrders(cfg: Settings, rs: seq<Request>, s: Snapshot, key: SessionPool.Key, c0: Clock, d: Clock, c1: Clock)
    requires !cfg.queueOrders && |rs| == 2 && rs[0].job == rs[1].job
    requires PoolProtocol.SessionKey(World(cfg, rs), rs[0].job) == Success(key)
    requires s.pool == PoolProtocol.Init(World(cfg, rs)) && s.phases == [Waiting, Waiting] && s.attempts == []
    requires Admit(cfg, s.gate, rs[0], [], c0).1.Success?
    requires Admit(cfg, Admit(cfg, s.gate, rs[0], [], c0).0, rs[1], [], c1).1.Success?
    ensures var t := From(cfg, rs, s, Schedule(c0, d, c1));
      var (g0, a0) := Admit(cfg, s.gate, rs[0], [], c0);
      && t.phases == [Admitted(a0.value, c0), Admitted(Admit(cfg, g0, rs[1], [], c1).1.value, c1)]
      && t.attempts == [Attempt(0, d, false), Attempt(1, c1, false)]
  {
    var first, second := [Event(Arrive(0, []), c0)] + Way(0, c0, d), [Event(Arrive(1, []), c1)] + Way(1, c1, c1);
    var t := ArrivesAndOrders(cfg, rs, s, 0, key, c0, d);
    var u := ArrivesAndOrders(cfg, rs, t, 1, key, c1, c1);
    FromThen(cfg, rs, s, first, second);
  }

  // ---------------------------------------------------------------------------------------------
  // Signed bodies

  /** Somebody who knows the secret can send this body, whatever the wall clock shows. */
  ghost predicate CanSign(cfg: Settings, r: Request, stamp: int -> string) {
    && ApiKeyOk(cfg, r) && (cfg.requireHttps ==> r.https)
    && r.signature == Some(cfg.signatures.hmac(r.body)) && r.signature.value != ""
    && (forall n :: stamp(n) != "" && cfg.signatures.parseInt(stamp(n)) == Some(n))
    && PoolProtocol.SessionKey(cfg.exchanges, r.job).Success?
  }

  /** In every run in which no order is delayed by more than `delay`, orders for one body are `span` apart. */
  ghost predicate KeepsBodiesApart(cfg: Settings, delay: real, span: real) {
    forall rs: seq<Request>, es: seq<Event> ::
      Ordered(es) && DelaysWithin(After(cfg, rs, es), delay) ==> BodiesApart(cfg, rs, After(cfg, rs, es), span)
  }

  function At(x: real): Clock { TokenAuth.Clock(x.Floor, x, x) }

  function Stamped(r: Request, stamp: int -> string, c: Clock): Request { r.(timestamp := Some(stamp(c.wall))) }

  lemma AdmittedTwice(cfg: Settings, r: Request, stamp: int -> string, c0: Clock, c1: Clock)
    requires CanSign(cfg, r, stamp) && cfg.signatures.maxsize >= 1 && c0.cache + cfg.signatures.ttl <= c1.cache
    ensures var (g, a) := Admit(cfg, Start().gate, Stamped(r, stamp, c0), [], c0);
      a == Success(Signed(0)) && Admit(cfg, g, Stamped(r, stamp, c1), [], c1).1 == Success(Signed(1))
  {
    var g := Admit(cfg, Start().gate, Stamped(r, stamp, c0), [], c0).0;
    var signature := cfg.signatures.hmac(r.body);
    assert SignatureGuard.Verify(cfg.signatures, [], SignatureCall(Stamped(r, stamp, c0), c0)).0;
    assert |g.guard.log| == 1;
    assert forall e :: e in g.guard.cache ==> e.expires <= c1.cache;
  }

  /** The first order leaves as late as the delay allows, the second right after its admission one TTL
      after the first. */
  lemma LateOrder(cfg: Settings, r: Request, stamp: int -> string, delay: real) returns (rs: seq<Request>, es: seq<Event>)
    requires CanSign(cfg, r, stamp) && !cfg.queueOrders && cfg.signatures.maxsize >= 1
    requires 0.0 <= delay <= cfg.signatures.ttl
    ensures Ordered(es) && DelaysWithin(After(cfg, rs, es), delay)
    ensures var s := After(cfg, rs, es);
      && |s.attempts| == 2 && SameBody(rs, s, s.attempts[0].request, s.attempts[1].request)
      && Between(s, s.attempts[0].request, s.attempts[1].request) == 0
      && s.attempts[0].clock.cache == delay && s.attempts[1].clock.cache == cfg.signatures.ttl
  {
    var c0, d, c1 := At(0.0), At(delay), At(cfg.signatures.ttl);
    rs := [Stamped(r, stamp, c0), Stamped(r, stamp, c1)];
    es := Schedule(c0, d, c1);
    ScheduleOrdered(c0, d, c1);
    AdmittedTwice(cfg, r, stamp, c0, c1);
    var key := PoolProtocol.SessionKey(cfg.exchanges, r.job).value;
    assert Initial(cfg, rs).phases == [Waiting, Waiting];
    TwoOrders(cfg, rs, Initial(cfg, rs), key, c0, d, c1);
  }

  /** Where orders are not queued, the span that every run keeps is exactly the TTL less the delay. */
  lemma {:induction false} DirectSpanIsExact(cfg: Settings, r: Request, stamp: int -> string, delay: real, span: real)
    requires CanSign(cfg, r, stamp) && !cfg.queueOrders && cfg.signatures.maxsize >= 1
    requires cfg.signatures.ttl >= 0.0 && delay >= 0.0
    ensures KeepsBodiesApart(cfg, delay, span) <==> span <= 0.0 || span <= cfg.signatures.ttl - delay
  {
    if span <= 0.0 || span <= cfg.signatures.ttl - delay {
      forall rs: seq<Request>, es: seq<Event> | Ordered(es) && DelaysWithin(After(cfg, rs, es), delay)
        ensures BodiesApart(cfg, rs, After(cfg, rs, es), span)
      {
        RunInv(cfg, rs, es, Latest(es));
        BodiesApartByDelay(cfg, rs, After(cfg, rs, es), Latest(es), delay, span);
      }
    } else {
      var late := if delay <= cfg.signatures.ttl then delay else cfg.signatures.ttl;
      var rs, es := LateOrder(cfg, r, stamp, late);
      assert DelaysWithin(After(cfg, rs, es), delay);
      assert !BodiesApart(cfg, rs, After(cfg, rs, es), span);
    }
  }

  /** Orders for one body are a TTL apart in every run, however long anything takes, exactly if orders
      are queued. */
  lemma {:induction false} BodiesApartIffQueued(cfg: Settings, r: Request, stamp: int -> string)
    requires CanSign(cfg, r, stamp) && cfg.signatures.maxsize >= 1 && cfg.signatures.ttl > 0.0
    ensures (forall rs: seq<Request>, es: seq<Event> ::
               Ordered(es) ==> BodiesApart(cfg, rs, After(cfg, rs, es), cfg.signatures.ttl)) <==> cfg.queueOrders
  {
    if cfg.queueOrders {
      forall rs: seq<Request>, es: seq<Event> | Ordered(es)
        ensures BodiesApart(cfg, rs, After(cfg, rs, es), cfg.signatures.ttl)
      {
        SignedOrdersAreNotRepeated(cfg, rs, es, 0.0);
      }
    } else {
      var rs, es := LateOrder(cfg, r, stamp, cfg.signatures.ttl);
      assert !BodiesApart(cfg, rs, After(cfg, rs, es), cfg.signatures.ttl);
    }
  }

  // ---------------------------------------------------------------------------------------------
  // Nonces

  ghost predicate CanUseToken(cfg: Settings, r: Request) {
    && ReachesToken(cfg, r) && r.token.Some? && r.nonce.Some?
    && PoolProtocol.SessionKey(cfg.exchanges, r.job).Success?
  }

  ghost predicate KeepsNonceOrdersApart(cfg: Settings, delay: int, span: int) {
    forall rs: seq<Request>, es: seq<Event> ::
      Ordered(es) && WallDelaysWithin(After(cfg, rs, es), delay) ==> OrdersOfNonceApart(rs, After(cfg, rs, es), span)
  }

  /** The gate once the token is issued for long enough. */
  function Issued(cfg: Settings, token: string): TokenAuth.Timed {
    TokenAuth.Timed(TokenAuth.IssueToken(token, Some(cfg.tokens.store.nonceTtl + 1)), At(0.0))
  }

  lemma TokenAdmittedTwice(cfg: Settings, r: Request, g: Gate, c0: Clock, c1: Clock)
    requires CanUseToken(cfg, r) && cfg.tokens.store.nonceTtl >= 0
    requires g.tokens.store == TokenStore.Tables(map[r.token.value := cfg.tokens.store.nonceTtl + 1], map[])
    requires c0.wall == 0 && c1.wall == cfg.tokens.store.nonceTtl
    ensures var (h, a) := Admit(cfg, g, r, [], c0);
      a == Success(ByToken) && Admit(cfg, h, r, [], c1).1 == Success(ByToken)
  {
    var h := Admit(cfg, g, r, [], c0).0;
    assert h.tokens.store.tokens == g.tokens.store.tokens;
    assert h.tokens.store.nonces == map[r.nonce.value := cfg.tokens.store.nonceTtl];
  }

  lemma LateTokenOrder(cfg: Settings, r: Request, delay: int) returns (rs: seq<Request>, es: seq<Event>)
    requires CanUseToken(cfg, r) && !cfg.queueOrders && 0 <= delay <= cfg.tokens.store.nonceTtl
    ensures Ordered(es) && WallDelaysWithin(After(cfg, rs, es), delay)
    ensures var s := After(cfg, rs, es);
      && |s.attempts| == 2 && SameNonce(rs, s, s.attempts[0].request, s.attempts[1].request)
      && s.attempts[0].clock.wall == delay && s.attempts[1].clock.wall == cfg.tokens.store.nonceTtl
  {
    var c0, d, c1 := At(0.0), At(delay as real), At(cfg.tokens.store.nonceTtl as real);
    rs := [r, r];
    var issue := Issued(cfg, r.token.value);
    var first := Event(Elsewhere(issue.event), c0);
    es := [first] + Schedule(c0, d, c1);
    ScheduleOrdered(c0, d, c1);
    OneMore(cfg, rs, Initial(cfg, rs), first);
    var s := Step(cfg, rs, Initial(cfg, rs), first);
    assert s.gate.tokens.store == TokenStore.Tables(map[r.token.value := cfg.tokens.store.nonceTtl + 1], map[]);
    TokenAdmittedTwice(cfg, r, s.gate, c0, c1);
    var key := PoolProtocol.SessionKey(cfg.exchanges, r.job).value;
    assert s.phases == [Waiting, Waiting];
    TwoOrders(cfg, rs, s, key, c0, d, c1);
    FromThen(cfg, rs, Initial(cfg, rs), [first], Schedule(c0, d, c1));
  }

  /** The same for nonces, in whole seconds of the wall clock. */
  lemma {:induction false} DirectNonceSpanIsExact(cfg: Settings, r: Request, delay: int, span: int)
    requires CanUseToken(cfg, r) && !cfg.queueOrders && cfg.signatures.maxsize >= 1
    requires cfg.tokens.store.nonceTtl >= 0 && delay >= 0
    ensures KeepsNonceOrdersApart(cfg, delay, span) <==> span <= 0 || span <= cfg.tokens.store.nonceTtl - delay
  {
    if span <= 0 || span <= cfg.tokens.store.nonceTtl - delay {
      forall rs: seq<Request>, es: seq<Event> | Ordered(es) && WallDelaysWithin(After(cfg, rs, es), delay)
        ensures OrdersOfNonceApart(rs, After(cfg, rs, es), span)
      {
        RunInv(cfg, rs, es, Latest(es));
        NonceOrdersByDelay(cfg, rs, After(cfg, rs, es), Latest(es), delay, span);
      }
    } else {
      var late := Min(delay, cfg.tokens.store.nonceTtl);
      var rs, es := LateTokenOrder(cfg, r, late);
      assert WallDelaysWithin(After(cfg, rs, es), delay);
      assert !OrdersOfNonceApart(rs, After(cfg, rs, es), span);
    }
  }

  /** Orders of one nonce are NONCE_TTL apart in every run exactly if orders are queued. */
  lemma {:induction false} NonceOrdersApartIffQueued(cfg: Settings, r: Request)
    requires CanUseToken(cfg, r) && cfg.signatures.maxsize >= 1 && cfg.tokens.store.nonceTtl > 0
    ensures (forall rs: seq<Request>, es: seq<Event> ::
               Ordered(es) ==> OrdersOfNonceApart(rs, After(cfg, rs, es), cfg.tokens.store.nonceTtl)) <==> cfg.queueOrders
  {
    if cfg.queueOrders {
      forall rs: seq<Request>, es: seq<Event> | Ordered(es)
        ensures OrdersOfNonceApart(rs, After(cfg, rs, es), cfg.tokens.store.nonceTtl)
      {
        TokenOrdersAreNotRepeated(cfg, rs, es, 0);
      }
    } else {
      var rs, es := LateTokenOrder(cfg, r, cfg.tokens.store.nonceTtl);
      assert !OrdersOfNonceApart(rs, After(cfg, rs, es), cfg.tokens.store.nonceTtl);
    }
  }
}
