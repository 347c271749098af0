/** A request that nobody interrupts: the steps of the protocol, taken one after the other, do what the
    straight-line webhook does. */
module OrderAlone {
  import opened Wrappers
  import opened SessionPool
  import opened PoolProtocol
  import opened PoolSteps
  import Webhook
  import OrderRuns

  function Reply(raised: Option<Error>): Answer { if raised.Some? then Raise(raised.value) else Ok }

  /** What the outside answers to the call a task is about to make. */
  function AnswerTo(p: Pc, a: Webhook.Answers): Answer {
    match p
    case Create(_) => Reply(a.construct)
    case LoadMarkets(_) => Reply(a.load)
    case PlaceOrder(_) => Reply(a.order)
    case Close(_, _) => Reply(a.close)
    case _ => Ok
  }

  /** Task i runs on by itself for as long as it can. */
  function Alone(w: World, s: State, i: nat, a: Webhook.Answers): State
    requires |s.tasks| == |w.jobs| && i < |s.tasks|
    decreases Rank(s.tasks[i])
  {
    var e := Event(i, AnswerTo(s.tasks[i], a));
    if !Enabled(w, s, e) then s
    else
      OneTaskMoves(w, s, e);
      RankDrops(w, s, e);
      Alone(w, Do(w, s, e), i, a)
  }

  /** The pool of a state, as the sequential model sees it. */
  function PoolOf(s: State): Webhook.Pool {
    Webhook.Pool(View(s), |s.created|, seq(|s.closed|, j requires 0 <= j < |s.closed| => Pooled(s.closed[j])))
  }

  /** Task i has gone on to p; nobody else has moved. */
  predicate Moved(s: State, t: State, i: nat, p: Pc) {
    i < |s.tasks| && t.tasks == s.tasks[i := p] && t.lock == None
  }

  lemma OneStep(w: World, s: State, i: nat, a: Webhook.Answers)
    requires |s.tasks| == |w.jobs| && i < |s.tasks| && Enabled(w, s, Event(i, AnswerTo(s.tasks[i], a)))
    ensures var t := Do(w, s, Event(i, AnswerTo(s.tasks[i], a)));
      && |t.tasks| == |s.tasks| && t.tasks == s.tasks[i := t.tasks[i]]
      && Alone(w, s, i, a) == Alone(w, t, i, a)
  {
    OneTaskMoves(w, s, Event(i, AnswerTo(s.tasks[i], a)));
  }

  /** Task i has come to its end, with this pool and outcome, and has or has not ordered. */
  predicate Ended(s: State, t: State, i: nat, pool: Webhook.Pool, ordered: bool, outcome: Outcome) {
    Moved(s, t, i, Done(outcome)) && PoolOf(t) == pool && t.orders == s.orders + if ordered then [i] else []
  }

  lemma ClosesAlone(w: World, s: State, i: nat, a: Webhook.Answers, c: Client, pending: Outcome)
    requires |s.tasks| == |w.jobs| && i < |s.tasks| && s.tasks[i] == Close(c, pending) && s.lock == None
    ensures var p := PoolOf(s);
      Ended(s, Alone(w, s, i, a), i, p.(closed := p.closed + [Pooled(c)]), false,
            if a.close.Some? then CloseFailed(a.close.value) else pending)
  {
    OneStep(w, s, i, a);
  }

  lemma SamePool(s: State, t: State)
    requires t.pools == s.pools && t.queues == s.queues && t.created == s.created && t.closed == s.closed
    ensures View(t) == View(s) && PoolOf(t) == PoolOf(s) && (Filed(s) ==> Filed(t))
  {
  }

  lemma LocksAlone(w: World, s: State, i: nat, a: Webhook.Answers) returns (t: State)
    requires |s.tasks| == |w.jobs| && i < |s.tasks| && s.lock == None && Filed(s)
    requires s.tasks[i].AwaitLookup? || s.tasks[i].AwaitReturn?
    ensures var p := s.tasks[i];
      t.tasks == s.tasks[i := if p.AwaitLookup? then Lookup(p.key) else Return(p.c, p.pending)] && t.lock == Some(i)
    ensures View(t) == View(s) && Filed(t)
    ensures t.created == s.created && t.closed == s.closed && t.orders == s.orders
    ensures Alone(w, t, i, a) == Alone(w, s, i, a)
  {
    OneStep(w, s, i, a);
    t := Do(w, s, Event(i, Ok));
    SamePool(s, t);
  }

  /** `release` with the lock, up to the size check and the `put`. */
  lemma ChecksAlone(w: World, s: State, i: nat, a: Webhook.Answers, c: Client, pending: Outcome) returns (u: State)
    requires |s.tasks| == |w.jobs| && i < |s.tasks| && s.tasks[i] == Return(c, pending) && s.lock == Some(i) && Filed(s)
    ensures var (kept, shelf) := Offer(View(s), c, w.maxsize);
      && Moved(s, u, i, if kept then Done(pending) else Close(c, pending)) && View(u) == shelf
    ensures u.created == s.created && u.closed == s.closed && u.orders == s.orders
    ensures Alone(w, u, i, a) == Alone(w, s, i, a)
  {
    ReturnAndCheckAreOffer(w, s, i, c, pending);
    OneTaskMoves(w, s, Event(i, Ok));
    u := Do(w, Do(w, s, Event(i, Ok)), Event(i, Ok));
    OneStep(w, s, i, a);
    OneStep(w, Do(w, s, Event(i, Ok)), i, a);
  }

  /** `release` up to the size check and the `put`. */
  lemma OffersAlone(w: World, s: State, i: nat, a: Webhook.Answers, c: Client, pending: Outcome) returns (u: State)
    requires |s.tasks| == |w.jobs| && i < |s.tasks| && s.tasks[i] == AwaitReturn(c, pending) && s.lock == None && Filed(s)
    ensures var (kept, shelf) := Offer(View(s), c, w.maxsize);
      && Moved(s, u, i, if kept then Done(pending) else Close(c, pending))
      && PoolOf(u) == PoolOf(s).(shelf := shelf) && u.orders == s.orders
    ensures Alone(w, u, i, a) == Alone(w, s, i, a)
  {
    var t := LocksAlone(w, s, i, a);
    u := ChecksAlone(w, t, i, a, c, pending);
  }

  /** `release`, from waiting for the lock to the end. */
  lemma ReleasesAlone(w: World, s: State, i: nat, a: Webhook.Answers, c: Client, pending: Outcome)
    requires |s.tasks| == |w.jobs| && i < |s.tasks| && s.tasks[i] == AwaitReturn(c, pending) && s.lock == None && Filed(s)
    ensures var (kept, pool) := Webhook.Released(PoolOf(s), c, w.maxsize);
      Ended(s, Alone(w, s, i, a), i, pool, false, if !kept && a.close.Some? then CloseFailed(a.close.value) else pending)
  {
    var u := OffersAlone(w, s, i, a, c, pending);
    if u.tasks[i].Close? {
      ClosesAlone(w, u, i, a, c, pending);
    }
  }

  /** The exchange calls and the release, with a client in hand. */
  function Served(w: World, pool: Webhook.Pool, c: Client, a: Webhook.Answers): (Webhook.Pool, Outcome) {
    var (kept, after) := Webhook.Released(pool, c, w.maxsize);
    var outcome :=
      if a.load.Some? then Failed(a.load.value) else if a.order.Some? then Failed(a.order.value) else Placed;
    (after, if !kept && a.close.Some? then CloseFailed(a.close.value) else outcome)
  }

  /** The exchange calls, up to `finally`. */
  lemma CallsAlone(w: World, s: State, i: nat, a: Webhook.Answers, c: Client) returns (u: State)
    requires |s.tasks| == |w.jobs| && i < |s.tasks| && s.tasks[i] == LoadMarkets(c) && s.lock == None && Filed(s)
    ensures Moved(s, u, i, AwaitReturn(c,
      if a.load.Some? then Failed(a.load.value) else if a.order.Some? then Failed(a.order.value) else Placed))
    ensures PoolOf(u) == PoolOf(s) && Filed(u) && u.orders == s.orders + if a.load.None? then [i] else []
    ensures Alone(w, u, i, a) == Alone(w, s, i, a)
  {
    OneStep(w, s, i, a);
    u := Do(w, s, Event(i, Reply(a.load)));
    if a.load.None? {
      OneStep(w, u, i, a);
      u := Do(w, u, Event(i, Reply(a.order)));
    }
    assert u.pools == s.pools && u.queues == s.queues;
  }

  lemma ServesAlone(w: World, s: State, i: nat, a: Webhook.Answers, c: Client)
    requires |s.tasks| == |w.jobs| && i < |s.tasks| && s.tasks[i] == LoadMarkets(c) && s.lock == None && Filed(s)
    ensures var (pool, outcome) := Served(w, PoolOf(s), c, a);
      Ended(s, Alone(w, s, i, a), i, pool, a.load.None?, outcome)
  {
    var u := CallsAlone(w, s, i, a, c);
    ReleasesAlone(w, u, i, a, c, u.tasks[i].pending);
  }

  /** `_create_exchange`. */
  lemma BuildsAlone(w: World, s: State, i: nat, a: Webhook.Answers, key: Key) returns (u: State)
    requires |s.tasks| == |w.jobs| && i < |s.tasks| && s.tasks[i] == Create(key) && s.lock == None && Filed(s)
    ensures Moved(s, u, i, if a.construct.Some? then Done(Failed(HttpError(500))) else LoadMarkets(Client(|s.created|, key)))
    ensures PoolOf(u) == PoolOf(s).(created := |s.created| + if a.construct.Some? then 0 else 1)
    ensures Filed(u) && u.orders == s.orders && Alone(w, u, i, a) == Alone(w, s, i, a)
  {
    OneStep(w, s, i, a);
    u := Do(w, s, Event(i, Reply(a.construct)));
    assert u.pools == s.pools && u.queues == s.queues && u.closed == s.closed;
  }

  lemma CreatesAlone(w: World, s: State, i: nat, a: Webhook.Answers, key: Key)
    requires |s.tasks| == |w.jobs| && i < |s.tasks| && s.tasks[i] == Create(key) && s.lock == None && Filed(s)
    ensures var (pool, ordered, outcome) := Continued(w, PoolOf(s), None, key, a);
      Ended(s, Alone(w, s, i, a), i, pool, ordered, outcome)
  {
    var u := BuildsAlone(w, s, i, a, key);
    if a.construct.None? {
      ServesAlone(w, u, i, a, Client(|s.created|, key));
    }
  }

  /** What `Execute` does once `acquire` has looked. */
  function Continued(w: World, pool: Webhook.Pool, found: Option<Client>, key: Key, a: Webhook.Answers): (Webhook.Pool, bool, Outcome) {
    if found.Some? then
      var (after, outcome) := Served(w, pool, found.value, a);
      (after, a.load.None?, outcome)
    else if a.construct.Some? then (pool, false, Failed(HttpError(500)))
    else
      var (after, outcome) := Served(w, pool.(created := pool.created + 1), Client(pool.created, key), a);
      (after, a.load.None?, outcome)
  }

  lemma FindsAlone(w: World, s: State, i: nat, a: Webhook.Answers, key: Key) returns (u: State)
    requires |s.tasks| == |w.jobs| && i < |s.tasks| && s.tasks[i] == Lookup(key) && s.lock == Some(i) && Filed(s)
    ensures var (found, shelf) := Take(View(s), key);
      Moved(s, u, i, if found.Some? then LoadMarkets(found.value) else Create(key)) && View(u) == shelf
    ensures Filed(u) && u.created == s.created && u.closed == s.closed && u.orders == s.orders
    ensures Alone(w, u, i, a) == Alone(w, s, i, a)
  {
    LookupIsTake(w, s, i, key);
    QueueFiled(w, s, key);
    TakeFiled(w, WithQueue(s, key), i, key, WithQueue(s, key).pools[key]);
    OneStep(w, s, i, a);
    u := Do(w, s, Event(i, Ok));
  }

  /** `acquire` up to what it finds. */
  lemma LooksAlone(w: World, s: State, i: nat, a: Webhook.Answers, key: Key) returns (u: State)
    requires |s.tasks| == |w.jobs| && i < |s.tasks| && s.tasks[i] == AwaitLookup(key) && s.lock == None && Filed(s)
    ensures var (found, shelf) := Take(View(s), key);
      && Moved(s, u, i, if found.Some? then LoadMarkets(found.value) else Create(key))
      && PoolOf(u) == PoolOf(s).(shelf := shelf) && Filed(u) && u.orders == s.orders
    ensures Alone(w, u, i, a) == Alone(w, s, i, a)
  {
    var t := LocksAlone(w, s, i, a);
    u := FindsAlone(w, t, i, a, key);
  }

  lemma AcquiresAlone(w: World, s: State, i: nat, a: Webhook.Answers, key: Key)
    requires |s.tasks| == |w.jobs| && i < |s.tasks| && s.tasks[i] == AwaitLookup(key) && s.lock == None && Filed(s)
    ensures var (found, shelf) := Take(View(s), key);
      var (pool, ordered, outcome) := Continued(w, PoolOf(s).(shelf := shelf), found, key, a);
      Ended(s, Alone(w, s, i, a), i, pool, ordered, outcome)
  {
    var u := LooksAlone(w, s, i, a, key);
    if u.tasks[i].Create? {
      CreatesAlone(w, u, i, a, key);
    } else {
      ServesAlone(w, u, i, a, u.tasks[i].c);
    }
  }

  lemma AsksAlone(w: World, s: State, i: nat, a: Webhook.Answers) returns (u: State)
    requires |s.tasks| == |w.jobs| && i < |s.tasks| && s.tasks[i].Start? && s.lock == None && Filed(s)
    ensures var key := SessionKey(w, w.jobs[i]);
      Moved(s, u, i, if key.Success? then AwaitLookup(key.value) else Done(Failed(key.error)))
    ensures PoolOf(u) == PoolOf(s) && Filed(u) && u.orders == s.orders
    ensures Alone(w, u, i, a) == Alone(w, s, i, a)
  {
    OneStep(w, s, i, a);
    u := Do(w, s, Event(i, Ok));
  }

  /** A task left alone ends in the pool, the order and the outcome of the straight-line model. */
  lemma AloneIsExecute(w: World, s: State, i: nat, a: Webhook.Answers)
    requires |s.tasks| == |w.jobs| && i < |s.tasks| && s.tasks[i].Start? && s.lock == None && Filed(s)
    ensures var (pool, ordered, outcome) := Webhook.Execute(w, PoolOf(s), w.jobs[i], a);
      Ended(s, Alone(w, s, i, a), i, pool, ordered, outcome)
  {
    var u := AsksAlone(w, s, i, a);
    if SessionKey(w, w.jobs[i]).Success? {
      var key := SessionKey(w, w.jobs[i]).value;
      AcquiresAlone(w, u, i, a, key);
    }
  }

  // ---------------------------------------------------------------------------------------------
  // A whole request

  function Repeat<T>(x: T, k: nat): seq<T> { seq(k, _ => x) }

  /** Nobody but the pool, its task and the attempts has noticed. */
  predicate OnlyProceeded(s: OrderRuns.Snapshot, t: OrderRuns.Snapshot) {
    t.gate == s.gate && t.phases == s.phases && t.history == s.history
  }

  /** The steps of an admitted request that runs on by itself, as events of a run; k counts its orders. */
  lemma {:induction false} ProceedsAlone(cfg: Webhook.Settings, rs: seq<Webhook.Request>, s: OrderRuns.Snapshot, i: nat, a: Webhook.Answers, clock: OrderRuns.Clock)
    returns (es: seq<OrderRuns.Event>, k: nat)
    requires !cfg.queueOrders && |s.pool.tasks| == |s.phases| == |rs| && i < |rs| && s.phases[i].Admitted?
    ensures forall j :: 0 <= j < |es| ==> es[j].clock == clock
    ensures var t := OrderRuns.From(cfg, rs, s, es);
      && OnlyProceeded(s, t) && t.pool == Alone(OrderRuns.World(cfg, rs), s.pool, i, a)
      && t.attempts == s.attempts + Repeat(OrderRuns.Attempt(i, clock, false), k)
      && t.pool.orders == s.pool.orders + Repeat(i, k)
    decreases Rank(s.pool.tasks[i])
  {
    var w, m := OrderRuns.World(cfg, rs), Event(i, AnswerTo(s.pool.tasks[i], a));
    if !Enabled(w, s.pool, m) {
      es, k := [], 0;
    } else {
      var e := OrderRuns.Event(OrderRuns.Proceed(m), clock);
      var s1 := OrderRuns.Step(cfg, rs, s, e);
      OrderRuns.OrdersGrow(w, s.pool, m);
      RankDrops(w, s.pool, m);
      var rest, n := ProceedsAlone(cfg, rs, s1, i, a, clock);
      FirstThen(cfg, rs, s, e, rest);
      es, k := [e] + rest, n + if s.pool.tasks[i].PlaceOrder? then 1 else 0;
      RepeatOneMore(s.attempts, OrderRuns.Attempt(i, clock, false), n);
      RepeatOneMore(s.pool.orders, i, n);
    }
  }

  lemma RepeatOneMore<T>(front: seq<T>, x: T, n: nat)
    ensures front + [x] + Repeat(x, n) == front + Repeat(x, n + 1)
    ensures front + [] + Repeat(x, n) == front + Repeat(x, n)
  {
  }

  lemma FirstThen(cfg: Webhook.Settings, rs: seq<Webhook.Request>, s: OrderRuns.Snapshot, e: OrderRuns.Event, more: seq<OrderRuns.Event>)
    ensures OrderRuns.From(cfg, rs, s, [e] + more) == OrderRuns.From(cfg, rs, OrderRuns.Step(cfg, rs, s, e), more)
  {
    OrderRuns.FromThen(cfg, rs, s, [e], more);
    assert [e][..0] == [];
    assert OrderRuns.From(cfg, rs, s, []) == s;
  }

  /** The orders behind the attempts. */
  function OrdersOf(rs: seq<Webhook.Request>, s: OrderRuns.Snapshot): seq<Webhook.Order>
    requires AttemptsFromAdmitted(rs, s)
  {
    seq(|s.attempts|, k requires 0 <= k < |s.attempts| =>
      Webhook.OrderOf(s.phases[s.attempts[k].request].admission, rs[s.attempts[k].request], s.attempts[k].queued))
  }

  predicate AttemptsFromAdmitted(rs: seq<Webhook.Request>, s: OrderRuns.Snapshot) {
    && |s.phases| == |rs|
    && forall k :: 0 <= k < |s.attempts| ==> s.attempts[k].request < |rs| && s.phases[s.attempts[k].request].Admitted?
  }

  /** A snapshot as the sequential model sees it. */
  function StateOf(rs: seq<Webhook.Request>, s: OrderRuns.Snapshot): Webhook.State
    requires AttemptsFromAdmitted(rs, s)
  {
    Webhook.State(s.gate, PoolOf(s.pool), OrdersOf(rs, s))
  }

  /** Request i may arrive, and nobody is inside the pool's lock. */
  predicate Undisturbed(rs: seq<Webhook.Request>, s: OrderRuns.Snapshot, i: nat) {
    && AttemptsFromAdmitted(rs, s) && |s.pool.tasks| == |rs|
    && i < |rs| && s.phases[i].Waiting? && s.pool.tasks[i].Start? && s.pool.lock == None
  }

  lemma ArrivesAlone(cfg: Webhook.Settings, rs: seq<Webhook.Request>, s: OrderRuns.Snapshot, i: nat, env: Webhook.Env) returns (t: OrderRuns.Snapshot)
    requires Undisturbed(rs, s, i)
    ensures t == OrderRuns.Step(cfg, rs, s, OrderRuns.Event(OrderRuns.Arrive(i, env.userRoles), env.clock))
    ensures var (gate, admitted) := Webhook.Admit(cfg, s.gate, rs[i], env.userRoles, env.clock);
      && t.pool == s.pool && AttemptsFromAdmitted(rs, t)
      && t.phases == s.phases[i := if admitted.Success? then OrderRuns.Admitted(admitted.value, env.clock) else OrderRuns.Refused]
      && StateOf(rs, t) == Webhook.State(gate, PoolOf(s.pool),
           OrdersOf(rs, s) + if admitted.Success? && cfg.queueOrders then [Webhook.OrderOf(admitted.value, rs[i], true)] else [])
  {
    t := OrderRuns.Step(cfg, rs, s, OrderRuns.Event(OrderRuns.Arrive(i, env.userRoles), env.clock));
    assert forall k :: 0 <= k < |s.attempts| ==> t.attempts[k] == s.attempts[k] && s.attempts[k].request != i;
  }

  lemma OrdersAdded(rs: seq<Webhook.Request>, s: OrderRuns.Snapshot, t: OrderRuns.Snapshot, i: nat, clock: OrderRuns.Clock, ordered: bool)
    requires AttemptsFromAdmitted(rs, s) && i < |rs| && s.phases[i].Admitted? && t.phases == s.phases
    requires t.attempts == s.attempts + if ordered then [OrderRuns.Attempt(i, clock, false)] else []
    ensures AttemptsFromAdmitted(rs, t)
    ensures OrdersOf(rs, t) == OrdersOf(rs, s) + if ordered then [Webhook.OrderOf(s.phases[i].admission, rs[i], false)] else []
  {
  }

  /** An admitted request left alone. */
  lemma OrdersAlone(cfg: Webhook.Settings, rs: seq<Webhook.Request>, s: OrderRuns.Snapshot, i: nat, a: Webhook.Answers, clock: OrderRuns.Clock)
    returns (es: seq<OrderRuns.Event>)
    requires !cfg.queueOrders && AttemptsFromAdmitted(rs, s) && |s.pool.tasks| == |rs| && i < |rs| && s.phases[i].Admitted?
    requires s.pool.tasks[i].Start? && s.pool.lock == None && Filed(s.pool)
    ensures forall j :: 0 <= j < |es| ==> es[j].clock == clock
    ensures var t := OrderRuns.From(cfg, rs, s, es);
      var (pool, ordered, outcome) := Webhook.Execute(cfg.exchanges, PoolOf(s.pool), rs[i].job, a);
      && AttemptsFromAdmitted(rs, t) && t.pool.tasks == s.pool.tasks[i := Done(outcome)]
      && StateOf(rs, t) == Webhook.State(s.gate, pool,
           OrdersOf(rs, s) + if ordered then [Webhook.OrderOf(s.phases[i].admission, rs[i], false)] else [])
  {
    var k;
    es, k := ProceedsAlone(cfg, rs, s, i, a, clock);
    var w := OrderRuns.World(cfg, rs);
    AloneIsExecute(w, s.pool, i, a);
    assert w.jobs[i] == rs[i].job;
    var t, ordered := OrderRuns.From(cfg, rs, s, es), Webhook.Execute(w, PoolOf(s.pool), rs[i].job, a).1;
    assert |s.pool.orders + Repeat(i, k)| == |s.pool.orders| + k;
    assert Repeat(OrderRuns.Attempt(i, clock, false), k) == if ordered then [OrderRuns.Attempt(i, clock, false)] else [];
    OrdersAdded(rs, s, t, i, clock, ordered);
  }

  /** The events es, all at the time of env, bring request i from its arrival to the state and the
      response of the straight-line webhook. */
  ghost predicate ActsAsHandle(cfg: Webhook.Settings, rs: seq<Webhook.Request>, s: OrderRuns.Snapshot, i: nat, env: Webhook.Env, es: seq<OrderRuns.Event>)
    requires Undisturbed(rs, s, i)
  {
    var t := OrderRuns.From(cfg, rs, s, es);
    var (after, response) := Webhook.Handle(cfg, StateOf(rs, s), rs[i], env);
    && (forall j :: 0 <= j < |es| ==> es[j].clock == env.clock)
    && AttemptsFromAdmitted(rs, t) && StateOf(rs, t) == after
    && |t.pool.tasks| == |rs|
    && (t.phases[i].Admitted? && !cfg.queueOrders ==>
          t.pool.tasks[i].Done? && Webhook.StatusOf(t.pool.tasks[i].outcome) == response)
  }

  /** A request left alone from its arrival on has the effect and the response of the straight-line webhook. */
  lemma RequestAloneIsHandle(cfg: Webhook.Settings, rs: seq<Webhook.Request>, s: OrderRuns.Snapshot, i: nat, env: Webhook.Env)
    requires Undisturbed(rs, s, i) && Filed(s.pool)
    ensures exists es :: ActsAsHandle(cfg, rs, s, i, env, es)
  {
    var e := OrderRuns.Event(OrderRuns.Arrive(i, env.userRoles), env.clock);
    var s1 := ArrivesAlone(cfg, rs, s, i, env);
    var more: seq<OrderRuns.Event> := [];
    if s1.phases[i].Admitted? && !cfg.queueOrders {
      more := OrdersAlone(cfg, rs, s1, i, env.answers, env.clock);
    }
    FirstThen(cfg, rs, s, e, more);
    assert ActsAsHandle(cfg, rs, s, i, env, [e] + more);
  }
}
