/** The webhook (app/api/routes.py) and the order task (app/execution/tasks.py), one request from
    beginning to end: authentication, then at most one order, with the client given back on every way
    out. `OrderRuns` interleaves many requests and dates their steps. */
module Webhook {
  import opened Wrappers
  import SessionPool
  import PoolProtocol
  import SignatureGuard
  import TokenAuth
  import RateLimiter

  datatype Settings = Settings(
    requireApiKey: bool,
    staticApiKey: string,
    requireHttps: bool,
    queueOrders: bool,
    signatures: SignatureGuard.Settings,
    tokens: TokenAuth.Settings,
    exchanges: PoolProtocol.World)

  datatype Request = Request(
    https: bool,
    apiKey: Option<string>,
    timestamp: Option<string>,
    signature: Option<string>,
    body: seq<bv8>,
    token: Option<string>,
    nonce: Option<string>,
    job: PoolProtocol.Job)

  /** What each call into the outside raises, if it is reached. */
  datatype Answers = Answers(
    enqueue: Option<Error>,
    construct: Option<Error>,
    load: Option<Error>,
    order: Option<Error>,
    close: Option<Error>)

  datatype Env = Env(clock: TokenAuth.Clock, userRoles: seq<TokenAuth.UserRole>, answers: Answers)

  datatype Response = Queued | OrderPlaced | HttpFailure(status: int)

  /** How a request got in: by its signature, as the accepted call of that number, or by its token. */
  datatype Admission = Signed(index: nat) | ByToken

  /** An order handed to the exchange or to the queue. */
  datatype Order = Order(admission: Admission, body: seq<bv8>, nonce: Option<string>, queued: bool)

  /** What authentication works on. */
  datatype Gate = Gate(guard: SignatureGuard.State, tokens: TokenAuth.State)

  datatype Pool = Pool(shelf: SessionPool.Shelf, created: nat, closed: seq<SessionPool.Exchange>)

  datatype State = State(gate: Gate, pool: Pool, orders: seq<Order>)

  // ---------------------------------------------------------------------------------------------
  // Authentication

  predicate ApiKeyOk(cfg: Settings, r: Request) {
    cfg.requireApiKey ==> r.apiKey.Some? && r.apiKey.value != "" && r.apiKey.value == cfg.staticApiKey
  }

  function SignatureCall(r: Request, clock: TokenAuth.Clock): SignatureGuard.Call {
    SignatureGuard.Call(SignatureGuard.SignedRequest(r.timestamp, r.signature, r.body), clock.wall, clock.cache)
  }

  /** A signature header, valid or not, decides alone; without one the token does. */
  function Admit(cfg: Settings, g: Gate, r: Request, userRoles: seq<TokenAuth.UserRole>, clock: TokenAuth.Clock): (Gate, Result<Admission, int>) {
    if !ApiKeyOk(cfg, r) then (g, Failure(401))
    else if cfg.requireHttps && !r.https then (g, Failure(400))
    else if r.signature.Some? then
      var call := SignatureCall(r, clock);
      (g.(guard := SignatureGuard.Step(cfg.signatures, g.guard, call)),
       if SignatureGuard.Verify(cfg.signatures, g.guard.cache, call).0 then Success(Signed(|g.guard.log|)) else Failure(403))
    else
      var (tokens, o) := TokenAuth.Verify(cfg.tokens, g.tokens, TokenAuth.Call(r.token, r.nonce, userRoles), clock);
      (g.(tokens := tokens), if TokenAuth.Accepting(o) then Success(ByToken) else Failure(403))
  }

  // ---------------------------------------------------------------------------------------------
  // The order

  /** `acquire` as the factory sees it. */
  function Acquired(pool: Pool, key: SessionPool.Key, construct: Option<Error>): (Pool, Result<SessionPool.Client, Error>) {
    var (c, shelf) := SessionPool.Take(pool.shelf, key);
    if c.Some? then (pool.(shelf := shelf), Success(c.value))
    else if construct.Some? then (pool.(shelf := shelf), Failure(HttpError(500)))
    else (pool.(shelf := shelf, created := pool.created + 1), Success(SessionPool.Client(pool.created, key)))
  }

  function Released(pool: Pool, c: SessionPool.Client, maxsize: int): (bool, Pool) {
    var (kept, shelf) := SessionPool.Offer(pool.shelf, c, maxsize);
    (kept, Pool(shelf, pool.created, if kept then pool.closed else pool.closed + [SessionPool.Pooled(c)]))
  }

  /** From `get_exchange` to the end of `finally`: the pool afterwards, whether the order call was
      made, and the outcome. */
  function Execute(w: PoolProtocol.World, pool: Pool, job: PoolProtocol.Job, a: Answers): (Pool, bool, PoolProtocol.Outcome) {
    match PoolProtocol.SessionKey(w, job)
    case Failure(e) => (pool, false, PoolProtocol.Failed(e))
    case Success(key) =>
      var (p1, got) := Acquired(pool, key, a.construct);
      match got
      case Failure(e) => (p1, false, PoolProtocol.Failed(e))
      case Success(c) =>
        var (kept, p2) := Released(p1, c, w.maxsize);
        var outcome :=
          if a.load.Some? then PoolProtocol.Failed(a.load.value)
          else if a.order.Some? then PoolProtocol.Failed(a.order.value)
          else PoolProtocol.Placed;
        (p2, a.load.None?, if !kept && a.close.Some? then PoolProtocol.CloseFailed(a.close.value) else outcome)
  }

  /** The `except` clauses; an exception raised inside `finally` escapes them. */
  function StatusOf(o: PoolProtocol.Outcome): Response {
    match o
    case Placed => OrderPlaced
    case Failed(ExchangeError) => HttpFailure(400)
    case Failed(NetworkError) => HttpFailure(502)
    case Failed(ValueError) => HttpFailure(422)
    case Failed(HttpError(status)) => HttpFailure(status)
    case Failed(OtherError) => HttpFailure(500)
    case CloseFailed(_) => HttpFailure(500)
  }

  function OrderOf(admission: Admission, r: Request, queued: bool): Order {
    Order(admission, r.body, r.nonce, queued)
  }

  function Handle(cfg: Settings, s: State, r: Request, env: Env): (State, Response) {
    var (gate, admitted) := Admit(cfg, s.gate, r, env.userRoles, env.clock);
    var s1 := s.(gate := gate);
    match admitted
    case Failure(status) => (s1, HttpFailure(status))
    case Success(admission) =>
      if cfg.queueOrders then
        (s1.(orders := s1.orders + [OrderOf(admission, r, true)]),
         if env.answers.enqueue.Some? then HttpFailure(500) else Queued)
      else
        var (pool, ordered, outcome) := Execute(cfg.exchanges, s1.pool, r.job, env.answers);
        (s1.(pool := pool, orders := s1.orders + if ordered then [OrderOf(admission, r, false)] else []),
         StatusOf(outcome))
  }

  // ---------------------------------------------------------------------------------------------
  // What a caller sees

  /** The queue of every key holds clients of that key. */
  ghost predicate Filed(shelf: SessionPool.Shelf) {
    forall k, c :: c in SessionPool.Idle(shelf, k) ==> c.key == k
  }

  /** 401 exactly for a missing or wrong API key where one is required, then 400 exactly for plain HTTP where
      that is not allowed, then 403 exactly for a signature or a token that is not accepted. */
  ghost predicate Admits(cfg: Settings, g: Gate, r: Request, userRoles: seq<TokenAuth.UserRole>, clock: TokenAuth.Clock, admitted: Result<Admission, int>) {
    if cfg.requireApiKey && (r.apiKey.None? || r.apiKey.value == "" || r.apiKey.value != cfg.staticApiKey) then admitted == Failure(401)
    else if cfg.requireHttps && !r.https then admitted == Failure(400)
    else if r.signature.Some? then
      var request := SignatureGuard.SignedRequest(r.timestamp, r.signature, r.body);
      admitted == if SignatureGuard.Verify(cfg.signatures, g.guard.cache, SignatureGuard.Call(request, clock.wall, clock.cache)).0
                  then Success(Signed(|g.guard.log|)) else Failure(403)
    else
      var o := TokenAuth.Verify(cfg.tokens, g.tokens, TokenAuth.Call(r.token, r.nonce, userRoles), clock).1;
      admitted == if o == TokenAuth.StoreAccept || o == TokenAuth.ApiAccept then Success(ByToken) else Failure(403)
  }

  lemma AdmitAdmits(cfg: Settings, g: Gate, r: Request, userRoles: seq<TokenAuth.UserRole>, clock: TokenAuth.Clock)
    ensures Admits(cfg, g, r, userRoles, clock, Admit(cfg, g, r, userRoles, clock).1)
  {
  }

  /** The response once a request holds a client: by the first exception of loading and ordering, unless
      closing a client that is one too many raises. */
  ghost predicate RespondsWithClient(a: Answers, surplus: bool, response: Response) {
    var raised := if a.load.Some? then a.load else a.order;
    if surplus && a.close.Some? then response == HttpFailure(500)
    else
      && (raised == None ==> response == OrderPlaced)
      && (raised == Some(ExchangeError) ==> response == HttpFailure(400))
      && (raised == Some(NetworkError) ==> response == HttpFailure(502))
      && (raised == Some(ValueError) ==> response == HttpFailure(422))
      && (raised == Some(OtherError) ==> response == HttpFailure(500))
      && (raised.Some? && raised.value.HttpError? ==> response == HttpFailure(raised.value.status))
  }

  /** The response to an admitted request and whether it makes an order. */
  ghost predicate Responds(cfg: Settings, shelf: SessionPool.Shelf, job: PoolProtocol.Job, a: Answers, response: Response, ordered: bool) {
    var w := cfg.exchanges;
    if cfg.queueOrders then response == (if a.enqueue.Some? then HttpFailure(500) else Queued) && ordered
    else if w.lower(job.exchange) !in w.supported then response == HttpFailure(400) && !ordered
    else if PoolProtocol.Lacking(job.apiKey, w.defaultKey) || PoolProtocol.Lacking(job.secret, w.defaultSecret) then
      response == HttpFailure(401) && !ordered
    else
      forall key :: PoolProtocol.KeyOf(w, job, key) ==>
        var idle := SessionPool.Idle(shelf, key);
        if idle == [] && a.construct.Some? then response == HttpFailure(500) && !ordered
        else
          && RespondsWithClient(a, (if idle == [] then 0 else |idle| - 1) >= w.maxsize, response)
          && (ordered <==> a.load.None?)
  }

  /** A refused request changes nothing but what authentication did; an admitted one gets the response above
      and makes at most one order, its own. */
  lemma HandleResponds(cfg: Settings, s: State, r: Request, env: Env)
    requires Filed(s.pool.shelf)
    ensures var (gate, admitted) := Admit(cfg, s.gate, r, env.userRoles, env.clock);
      var (t, response) := Handle(cfg, s, r, env);
      && t.gate == gate
      && (admitted.Failure? ==> response == HttpFailure(admitted.error) && t.pool == s.pool && t.orders == s.orders)
      && (admitted.Success? ==>
            var order := Order(admitted.value, r.body, r.nonce, cfg.queueOrders);
            && (t.orders == s.orders || t.orders == s.orders + [order])
            && Responds(cfg, s.pool.shelf, r.job, env.answers, response, t.orders == s.orders + [order]))
  {
    PoolProtocol.SessionKeyIff(cfg.exchanges, r.job);
    assert s.orders + [] == s.orders;
  }

  function Start(): State {
    State(Gate(SignatureGuard.State([], []), TokenAuth.EMPTY), Pool(map[], 0, []), [])
  }

  // ---------------------------------------------------------------------------------------------
  // The service with its objects

  class Service {
    const cfg: Settings
    const signatures: SignatureGuard.Verifier
    const tokens: TokenAuth.TokenVerifier
    const pool: SessionPool.ExchangeSessionPool
    ghost var orders: seq<Order>

    constructor (cfg: Settings)
      requires cfg.signatures.maxsize >= 1 && RateLimiter.Sane(cfg.tokens.rate)
      ensures Valid() && this.cfg == cfg && Model() == Start()
      ensures signatures.clock == 0.0
    {
      this.cfg := cfg;
      signatures := new SignatureGuard.Verifier(cfg.signatures);
      tokens := new TokenAuth.TokenVerifier(cfg.tokens);
      pool := new SessionPool.ExchangeSessionPool(cfg.exchanges.maxsize);
      orders := [];
    }

    ghost predicate Valid()
      reads this, signatures, signatures.cache, tokens, tokens.limiter, tokens.limiter.cache, pool
    {
      && (signatures.cache as object) != tokens.limiter.cache
      && signatures.Valid() && signatures.cfg == cfg.signatures
      && tokens.Valid() && tokens.cfg == cfg.tokens
      && pool.Valid() && pool.maxsize == cfg.exchanges.maxsize
    }

    ghost function PoolModel(): Pool
      reads pool
    {
      Pool(pool.pools, pool.created, pool.closed)
    }

    ghost function GateModel(): Gate
      reads signatures, signatures.cache, tokens, tokens.store, tokens.limiter.cache
    {
      Gate(SignatureGuard.State(signatures.cache.entries, signatures.log), tokens.Model())
    }

    ghost function Model(): State
      reads this, signatures, signatures.cache, tokens, tokens.store, tokens.limiter.cache, pool
    {
      State(GateModel(), PoolModel(), orders)
    }

    /** `get_exchange`. */
    method GetExchange(job: PoolProtocol.Job, construct: Option<Error>) returns (r: Result<SessionPool.Client, Error>)
      requires pool.Valid()
      modifies pool`pools, pool`created
      ensures pool.Valid()
      ensures match PoolProtocol.SessionKey(cfg.exchanges, job)
              case Failure(e) => PoolModel() == old(PoolModel()) && r == Failure(e)
              case Success(key) => (PoolModel(), r) == Acquired(old(PoolModel()), key, construct)
      ensures r.Success? ==> r.value.id < pool.created
      ensures var w := cfg.exchanges;
        var supported := w.lower(job.exchange) in w.supported;
        var lacking := PoolProtocol.Lacking(job.apiKey, w.defaultKey) || PoolProtocol.Lacking(job.secret, w.defaultSecret);
        && (r == Failure(HttpError(400)) <==> !supported)
        && (r == Failure(HttpError(401)) <==> supported && lacking)
        && (r.Failure? ==> r.error in {HttpError(400), HttpError(401), HttpError(500)})
        && (r.Success? ==> PoolProtocol.KeyOf(w, job, r.value.key))
    {
      PoolProtocol.SessionKeyIff(cfg.exchanges, job);
      var id := cfg.exchanges.lower(job.exchange);
      if id !in cfg.exchanges.supported { return Failure(HttpError(400)); }
      var apiKey := PoolProtocol.OrDefault(job.apiKey, cfg.exchanges.defaultKey);
      var secret := PoolProtocol.OrDefault(job.secret, cfg.exchanges.defaultSecret);
      if apiKey == "" || secret == "" { return Failure(HttpError(401)); }
      r := pool.Acquire(SessionPool.Key(id, apiKey, secret), construct);
      if r.Failure? { r := Failure(HttpError(500)); }
    }

    /** `_execute_order`, and the same stretch of `webhook`. */
    method ExecuteOrder(job: PoolProtocol.Job, answers: Answers) returns (ordered: bool, outcome: PoolProtocol.Outcome)
      requires pool.Valid() && pool.maxsize == cfg.exchanges.maxsize
      modifies pool
      ensures pool.Valid()
      ensures (PoolModel(), ordered, outcome) == Execute(cfg.exchanges, old(PoolModel()), job, answers)
    {
      ordered := false;
      var exchange := GetExchange(job, answers.construct);
      if exchange.Failure? { return false, PoolProtocol.Failed(exchange.error); }
      if answers.load.Some? {
        outcome := PoolProtocol.Failed(answers.load.value);
      } else {
        ordered := true;
        outcome := if answers.order.Some? then PoolProtocol.Failed(answers.order.value) else PoolProtocol.Placed;
      }
      var raised := pool.Release(SessionPool.Pooled(exchange.value), answers.close);
      if raised.Some? { outcome := PoolProtocol.CloseFailed(raised.value); }
    }

    /** `rejected` is the status of the refusal; without one the request is in. */
    method Authenticate(r: Request, env: Env) returns (rejected: Option<int>, ghost admission: Admission)
      requires Valid() && signatures.clock <= env.clock.cache
      modifies signatures`log, signatures`clock, signatures.cache
      modifies tokens`apiTokens, tokens`usage, tokens.store, tokens.limiter.cache
      ensures Valid() && signatures.clock <= env.clock.cache
      ensures (GateModel(), if rejected.Some? then Failure(rejected.value) else Success(admission))
           == Admit(cfg, old(GateModel()), r, env.userRoles, env.clock)
      ensures Admits(cfg, old(GateModel()), r, env.userRoles, env.clock, if rejected.Some? then Failure(rejected.value) else Success(admission))
    {
      AdmitAdmits(cfg, GateModel(), r, env.userRoles, env.clock);
      admission := ByToken;
      if cfg.requireApiKey && (r.apiKey.None? || r.apiKey.value == "" || r.apiKey.value != cfg.staticApiKey) {
        return Some(401), admission;
      }
      if cfg.requireHttps && !r.https { return Some(400), admission; }
      if r.signature.Some? {
        admission := Signed(|signatures.log|);
        var request := SignatureGuard.SignedRequest(r.timestamp, r.signature, r.body);
        var ok := signatures.VerifySignature(request, env.clock.wall, env.clock.cache);
        rejected := if ok then None else Some(403);
      } else {
        var outcome := tokens.VerifyToken(r.token, r.nonce, env.userRoles, env.clock);
        rejected := if TokenAuth.Accepting(outcome) then None else Some(403);
      }
    }

    /** `webhook`. */
    method HandleWebhook(r: Request, env: Env) returns (response: Response)
      requires Valid() && signatures.clock <= env.clock.cache
      modifies this`orders, signatures`log, signatures`clock, signatures.cache, pool
      modifies tokens`apiTokens, tokens`usage, tokens.store, tokens.limiter.cache
      ensures Valid()
      ensures (Model(), response) == Handle(cfg, old(Model()), r, env)
      ensures var admitted := Admit(cfg, old(GateModel()), r, env.userRoles, env.clock).1;
        match admitted
        case Failure(status) => response == HttpFailure(status) && orders == old(orders)
        case Success(_) => Responds(cfg, old(pool.pools), r.job, env.answers, response, orders != old(orders))
    {
      HandleResponds(cfg, Model(), r, env);
      ghost var before := Model();
      var rejected, admission := Authenticate(r, env);
      if rejected.Some? { return HttpFailure(rejected.value); }
      ghost var s1 := Model();
      if cfg.queueOrders {
        orders := orders + [OrderOf(admission, r, true)];
        response := if env.answers.enqueue.Some? then HttpFailure(500) else Queued;
        assert Model() == s1.(orders := orders);
      } else {
        var ordered, outcome := ExecuteOrder(r.job, env.answers);
        orders := orders + if ordered then [OrderOf(admission, r, false)] else [];
        response := StatusOf(outcome);
        assert Model() == s1.(pool := PoolModel(), orders := orders);
      }
    }
  }
}
