/** Any number of asyncio tasks sharing one session pool.

    A task is one run of `webhook` (app/api/routes.py) or `_execute_order` (app/execution/tasks.py)
    from `get_exchange` to the end of its `finally`. It may be preempted at every point where it
    awaits something: entry to the pool's lock, creation, the two exchange calls and `close`. The
    model also lets others run right after each lock entry and each lock exit, which asyncio need
    not do; so every statement below covers more interleavings than an event loop produces. */
module PoolProtocol {
  import opened Wrappers
  import opened Counting
  import opened SessionPool

  datatype Outcome =
    | Placed                       // the order call returned
    | Failed(error: Error)         // get_exchange, load_markets or the order call raised
    | CloseFailed(error: Error)    // closing a surplus client raised inside `finally`

  /** What a task asks `get_exchange` for. */
  datatype Job = Job(exchange: string, apiKey: Option<string>, secret: Option<string>)

  datatype World = World(
    maxsize: int,
    supported: set<string>,
    lower: string -> string,
    defaultKey: string,
    defaultSecret: string,
    jobs: seq<Job>)

  /** Where a task is, with its local variables: `pool` is the queue object it fetched. */
  datatype Pc =
    | Start
    | AwaitLookup(key: Key)
    | Lookup(key: Key)
    | Create(key: Key)
    | LoadMarkets(c: Client)
    | PlaceOrder(c: Client)
    | AwaitReturn(c: Client, pending: Outcome)
    | Return(c: Client, pending: Outcome)
    | Check(c: Client, pool: nat, pending: Outcome)
    | Close(c: Client, pending: Outcome)
    | Done(outcome: Outcome)

  /** `_pools` maps a key to a queue object; queue objects are indices into `queues`.
      `created`, `closed`, `acquired`, `returned` and `orders` record calls in the order made. */
  datatype State = State(
    pools: map<Key, nat>,
    queues: seq<seq<Client>>,
    lock: Option<nat>,
    created: seq<Client>,
    closed: seq<Client>,
    acquired: seq<Client>,
    returned: seq<Client>,
    orders: seq<nat>,
    tasks: seq<Pc>)

  /** The environment's answer to an awaited call. */
  datatype Answer = Ok | Raise(error: Error)

  datatype Event = Event(task: nat, answer: Answer)

  // ---------------------------------------------------------------------------------------------
  // get_exchange: normalisation, default credentials and guards in front of the pool

  function OrDefault(given: Option<string>, default: string): string {
    if given.Some? && given.value != "" then given.value else default
  }

  function SessionKey(w: World, job: Job): Result<Key, Error> {
    var id := w.lower(job.exchange);
    if id !in w.supported then Failure(HttpError(400))
    else
      var apiKey := OrDefault(job.apiKey, w.defaultKey);
      var secret := OrDefault(job.secret, w.defaultSecret);
      if apiKey == "" || secret == "" then Failure(HttpError(401))
      else Success(Key(id, apiKey, secret))
  }

  /** The value given where there is a non-empty one, the default otherwise, and never an empty one. */
  ghost predicate Credential(given: Option<string>, default: string, c: string) {
    && c != ""
    && (given.Some? && given.value != "" ==> c == given.value)
    && (given.None? || given.value == "" ==> c == default)
  }

  ghost predicate Lacking(given: Option<string>, default: string) {
    (given.None? || given.value == "") && default == ""
  }

  /** A key of a supported exchange, in lower case, with the credentials of the request. */
  ghost predicate KeyOf(w: World, job: Job, key: Key) {
    && key.exchangeId == w.lower(job.exchange) && key.exchangeId in w.supported
    && Credential(job.apiKey, w.defaultKey, key.apiKey)
    && Credential(job.secret, w.defaultSecret, key.secret)
  }

  /** 400 exactly for an unsupported exchange, 401 exactly when it is supported and a value is neither given
      nor configured, and otherwise the one key of the request. */
  lemma SessionKeyIff(w: World, job: Job)
    ensures var r, supported := SessionKey(w, job), w.lower(job.exchange) in w.supported;
      && (r == Failure(HttpError(400)) <==> !supported)
      && (r == Failure(HttpError(401)) <==>
            supported && (Lacking(job.apiKey, w.defaultKey) || Lacking(job.secret, w.defaultSecret)))
      && (r.Failure? ==> r.error in {HttpError(400), HttpError(401)})
      && forall key :: r == Success(key) <==> KeyOf(w, job, key)
  {
  }

  // ---------------------------------------------------------------------------------------------
  // Steps

  function Init(w: World): State {
    State(map[], [], None, [], [], [], [], [], seq(|w.jobs|, i => Start))
  }

  predicate Critical(p: Pc) { p.Lookup? || p.Return? }

  predicate Enabled(w: World, s: State, e: Event) {
    && e.task < |s.tasks|
    && var p := s.tasks[e.task];
       && !p.Done?
       && (p.AwaitLookup? || p.AwaitReturn? ==> s.lock.None?)
       && (e.answer.Raise? ==> p.Create? || p.LoadMarkets? || p.PlaceOrder? || p.Close?)
  }

  function GoTo(s: State, i: nat, p: Pc): State
    requires i < |s.tasks|
  {
    s.(tasks := s.tasks[i := p])
  }

  /** `self._pools.get(key)`, with a new queue stored when there is none. */
  function WithQueue(s: State, key: Key): State {
    if key in s.pools then s
    else s.(pools := s.pools[key := |s.queues|], queues := s.queues + [[]])
  }

  /** The pop, or the decision to create, inside the lock. */
  function TakeStep(s: State, i: nat, key: Key, q: nat): State
    requires i < |s.tasks|
  {
    if q < |s.queues| && s.queues[q] != [] then
      var c := s.queues[q][0];
      GoTo(s.(lock := None, queues := s.queues[q := s.queues[q][1..]], acquired := s.acquired + [c]),
           i, LoadMarkets(c))
    else
      GoTo(s.(lock := None), i, Create(key))
  }

  /** `release` inside the lock: `setdefault` builds a fresh queue object whether or not it is used. */
  function ReturnStep(s: State, i: nat, c: Client, pending: Outcome): State
    requires i < |s.tasks|
  {
    var pools := if c.key in s.pools then s.pools else s.pools[c.key := |s.queues|];
    GoTo(s.(lock := None, pools := pools, queues := s.queues + [[]]), i, Check(c, pools[c.key], pending))
  }

  /** `release` after the lock: the size check and the `put` have no suspension between them. */
  function CheckStep(w: World, s: State, i: nat, c: Client, q: nat, pending: Outcome): State
    requires i < |s.tasks|
  {
    if q < |s.queues| && |s.queues[q]| < w.maxsize then
      GoTo(s.(queues := s.queues[q := s.queues[q] + [c]]), i, Done(pending))
    else
      GoTo(s, i, Close(c, pending))
  }

  function CreateStep(s: State, i: nat, key: Key, a: Answer): State
    requires i < |s.tasks|
  {
    match a
    case Ok =>
      var c := Client(|s.created|, key);
      GoTo(s.(created := s.created + [c], acquired := s.acquired + [c]), i, LoadMarkets(c))
    case Raise(_) => GoTo(s, i, Done(Failed(HttpError(500))))
  }

  function Do(w: World, s: State, e: Event): State
    requires Enabled(w, s, e) && |w.jobs| == |s.tasks|
  {
    var i := e.task;
    match s.tasks[i]
    case Start =>
      (match SessionKey(w, w.jobs[i])
       case Failure(err) => GoTo(s, i, Done(Failed(err)))
       case Success(key) => GoTo(s, i, AwaitLookup(key)))
    case AwaitLookup(key) => GoTo(s.(lock := Some(i)), i, Lookup(key))
    case Lookup(key) => TakeStep(WithQueue(s, key), i, key, WithQueue(s, key).pools[key])
    case Create(key) => CreateStep(s, i, key, e.answer)
    case LoadMarkets(c) =>
      (match e.answer
       case Ok => GoTo(s, i, PlaceOrder(c))
       case Raise(err) => GoTo(s.(returned := s.returned + [c]), i, AwaitReturn(c, Failed(err))))
    case PlaceOrder(c) =>
      var s1 := s.(orders := s.orders + [i], returned := s.returned + [c]);
      GoTo(s1, i, AwaitReturn(c, if e.answer.Ok? then Placed else Failed(e.answer.error)))
    case AwaitReturn(c, pending) => GoTo(s.(lock := Some(i)), i, Return(c, pending))
    case Return(c, pending) => ReturnStep(s, i, c, pending)
    case Check(c, q, pending) => CheckStep(w, s, i, c, q, pending)
    case Close(c, pending) =>
      GoTo(s.(closed := s.closed + [c]), i,
           Done(if e.answer.Ok? then pending else CloseFailed(e.answer.error)))
  }

  /** A run: the states visited and the events between them, for any schedule and any answers. */
  ghost predicate IsRun(w: World, run: seq<State>, events: seq<Event>) {
    && |run| == |events| + 1
    && run[0] == Init(w)
    && forall i {:trigger events[i]} :: 0 <= i < |events| ==>
         |run[i].tasks| == |w.jobs| && Enabled(w, run[i], events[i]) && run[i + 1] == Do(w, run[i], events[i])
  }

  // ---------------------------------------------------------------------------------------------
  // Invariant

  predicate Holds(p: Pc) {
    p.LoadMarkets? || p.PlaceOrder? || p.AwaitReturn? || p.Return? || p.Check? || p.Close?
  }

  /** Any way of weighing clients, carried over to tasks and queues. */
  function Hand(g: Client -> nat, p: Pc): nat { if Holds(p) then g(p.c) else 0 }

  function InHand(g: Client -> nat): Pc -> nat { p => Hand(g, p) }

  function Owing(g: Client -> nat, p: Pc): nat { if p.LoadMarkets? || p.PlaceOrder? then g(p.c) else 0 }

  function Unreturned(g: Client -> nat): Pc -> nat { p => Owing(g, p) }

  function Waiting(g: Client -> nat): seq<Client> -> nat { q => Sum(g, q) }

  /** However clients are weighed, what was created is held, idle or closed, and nothing else. */
  ghost predicate Conserved(s: State, g: Client -> nat) {
    Sum(g, s.created) == Sum(InHand(g), s.tasks) + Sum(Waiting(g), s.queues) + Sum(g, s.closed)
  }

  /** Every client acquired was handed to `release` once, or its task has not got there yet. */
  ghost predicate HandedBack(s: State, g: Client -> nat) {
    Sum(g, s.acquired) == Sum(g, s.returned) + Sum(Unreturned(g), s.tasks)
  }

  ghost predicate FreshIds(s: State) {
    forall j :: 0 <= j < |s.created| ==> s.created[j].id == j
  }

  ghost predicate LockOk(s: State) {
    && (s.lock.Some? ==> s.lock.value < |s.tasks|)
    && forall i :: 0 <= i < |s.tasks| ==> (Critical(s.tasks[i]) <==> s.lock == Some(i))
  }

  /** A key keeps its queue object, keys do not share one, and clients wait only in the queue of their own key. */
  ghost predicate Filed(s: State) {
    && (forall k :: k in s.pools ==> s.pools[k] < |s.queues|)
    && (forall k, k' :: k in s.pools && k' in s.pools && s.pools[k] == s.pools[k'] ==> k == k')
    && (forall q, j :: 0 <= q < |s.queues| && 0 <= j < |s.queues[q]| ==>
          s.queues[q][j].key in s.pools && s.pools[s.queues[q][j].key] == q)
  }

  ghost predicate WithinCapacity(w: World, s: State) {
    forall q :: 0 <= q < |s.queues| ==> |s.queues[q]| <= Max(0, w.maxsize)
  }

  ghost predicate TaskOk(w: World, s: State, i: nat)
    requires i < |s.tasks| == |w.jobs|
  {
    var p := s.tasks[i];
    && (p.AwaitLookup? || p.Lookup? || p.Create? ==> SessionKey(w, w.jobs[i]) == Success(p.key))
    && (Holds(p) ==> SessionKey(w, w.jobs[i]) == Success(p.c.key))
    && (p.Check? ==> p.c.key in s.pools && s.pools[p.c.key] == p.pool)
  }

  predicate BeforeOrder(p: Pc) { !(p.AwaitReturn? || p.Return? || p.Check? || p.Close? || p.Done?) }

  predicate OrderWasPlaced(p: Pc) {
    || ((p.AwaitReturn? || p.Return? || p.Check? || p.Close?) && p.pending.Placed?)
    || (p.Done? && p.outcome.Placed?)
  }

  ghost predicate OrdersOk(s: State) {
    forall i :: 0 <= i < |s.tasks| ==>
      && multiset(s.orders)[i] <= (if BeforeOrder(s.tasks[i]) then 0 else 1)
      && (OrderWasPlaced(s.tasks[i]) ==> multiset(s.orders)[i] == 1)
  }

  ghost predicate Inv(w: World, s: State) {
    && |s.tasks| == |w.jobs|
    && FreshIds(s)
    && LockOk(s)
    && Filed(s)
    && WithinCapacity(w, s)
    && (forall i :: 0 <= i < |s.tasks| ==> TaskOk(w, s, i))
    && OrdersOk(s)
  }

  lemma InitInv(w: World)
    ensures Inv(w, Init(w))
  {
  }

  // ---- Conservation, one kind of step at a time

  lemma {:induction false} TakeConserves(s: State, i: nat, key: Key, q: nat, g: Client -> nat)
    requires i < |s.tasks| && s.tasks[i] == Lookup(key) && Conserved(s, g)
    ensures Conserved(TakeStep(s, i, key, q), g)
  {
    var t := TakeStep(s, i, key, q);
    SumUpdate(InHand(g), s.tasks, i, t.tasks[i]);
    if q < |s.queues| && s.queues[q] != [] {
      SumUpdate(Waiting(g), s.queues, q, s.queues[q][1..]);
    }
  }

  lemma {:induction false} QueueConserves(s: State, key: Key, g: Client -> nat)
    requires Conserved(s, g)
    ensures Conserved(WithQueue(s, key), g)
  {
    SumAppend(Waiting(g), s.queues, []);
  }

  lemma {:induction false} ReturnConserves(s: State, i: nat, c: Client, pending: Outcome, g: Client -> nat)
    requires i < |s.tasks| && s.tasks[i] == Return(c, pending) && Conserved(s, g)
    ensures Conserved(ReturnStep(s, i, c, pending), g)
  {
    SumUpdate(InHand(g), s.tasks, i, ReturnStep(s, i, c, pending).tasks[i]);
    SumAppend(Waiting(g), s.queues, []);
  }

  lemma {:induction false} CheckConserves(w: World, s: State, i: nat, c: Client, q: nat, pending: Outcome, g: Client -> nat)
    requires i < |s.tasks| && s.tasks[i] == Check(c, q, pending) && Conserved(s, g)
    ensures Conserved(CheckStep(w, s, i, c, q, pending), g)
  {
    SumUpdate(InHand(g), s.tasks, i, CheckStep(w, s, i, c, q, pending).tasks[i]);
    if q < |s.queues| {
      SumUpdate(Waiting(g), s.queues, q, s.queues[q] + [c]);
      SumAppend(g, s.queues[q], c);
    }
  }

  lemma {:induction false} CreateConserves(s: State, i: nat, key: Key, a: Answer, g: Client -> nat)
    requires i < |s.tasks| && s.tasks[i] == Create(key) && Conserved(s, g)
    ensures Conserved(CreateStep(s, i, key, a), g)
  {
    SumUpdate(InHand(g), s.tasks, i, CreateStep(s, i, key, a).tasks[i]);
    SumAppend(g, s.created, Client(|s.created|, key));
  }

  lemma {:induction false} OtherConserves(s: State, t: State, i: nat, p: Pc, g: Client -> nat)
    requires i < |s.tasks| && t.tasks == s.tasks[i := p]
    requires t.queues == s.queues && t.created == s.created
    requires if s.tasks[i].Close? then t.closed == s.closed + [s.tasks[i].c] && !Holds(p)
             else t.closed == s.closed && Holds(p) == Holds(s.tasks[i]) && (Holds(p) ==> p.c == s.tasks[i].c)
    requires Conserved(s, g)
    ensures Conserved(t, g)
  {
    SumUpdate(InHand(g), s.tasks, i, p);
    if s.tasks[i].Close? { SumAppend(g, s.closed, s.tasks[i].c); }
  }

  /** The steps that leave queues and the created clients alone. */
  predicate Quiet(p: Pc) { !(p.Lookup? || p.Create? || p.Return? || p.Check?) }

  lemma QuietSteps(w: World, s: State, e: Event)
    requires |s.tasks| == |w.jobs| && Enabled(w, s, e) && Quiet(s.tasks[e.task])
    ensures var t, p := Do(w, s, e), s.tasks[e.task];
            && t.queues == s.queues && t.pools == s.pools && t.created == s.created
            && t.tasks == s.tasks[e.task := t.tasks[e.task]]
            && var p' := t.tasks[e.task];
               if p.Close? then t.closed == s.closed + [p.c] && !Holds(p')
               else t.closed == s.closed && Holds(p') == Holds(p) && (Holds(p') ==> p'.c == p.c)
  {
  }

  lemma StepConserves(w: World, s: State, e: Event, g: Client -> nat)
    requires |s.tasks| == |w.jobs| && Enabled(w, s, e) && Conserved(s, g)
    ensures Conserved(Do(w, s, e), g)
  {
    var i, p := e.task, s.tasks[e.task];
    if Quiet(p) {
      QuietSteps(w, s, e);
      OtherConserves(s, Do(w, s, e), i, Do(w, s, e).tasks[i], g);
    } else if p.Lookup? {
      QueueConserves(s, p.key, g);
      TakeConserves(WithQueue(s, p.key), i, p.key, WithQueue(s, p.key).pools[p.key], g);
    } else if p.Create? {
      CreateConserves(s, i, p.key, e.answer, g);
    } else if p.Return? {
      ReturnConserves(s, i, p.c, p.pending, g);
    } else {
      CheckConserves(w, s, i, p.c, p.pool, p.pending, g);
    }
  }

  // ---- The queues

  lemma QueueFiled(w: World, s: State, key: Key)
    requires Filed(s)
    ensures Filed(WithQueue(s, key))
    ensures WithinCapacity(w, s) ==> WithinCapacity(w, WithQueue(s, key))
  {
  }

  lemma TakeFiled(w: World, s: State, i: nat, key: Key, q: nat)
    requires i < |s.tasks| && Filed(s)
    ensures Filed(TakeStep(s, i, key, q))
    ensures WithinCapacity(w, s) ==> WithinCapacity(w, TakeStep(s, i, key, q))
  {
    if q < |s.queues| && s.queues[q] != [] {
      assert forall j :: 0 <= j < |s.queues[q][1..]| ==> s.queues[q][1..][j] == s.queues[q][j + 1];
    }
  }

  lemma ReturnFiled(w: World, s: State, i: nat, c: Client, pending: Outcome)
    requires i < |s.tasks| && Filed(s)
    ensures Filed(ReturnStep(s, i, c, pending))
    ensures WithinCapacity(w, s) ==> WithinCapacity(w, ReturnStep(s, i, c, pending))
  {
  }

  lemma StepFiled(w: World, s: State, e: Event)
    requires |s.tasks| == |w.jobs| && Enabled(w, s, e) && Filed(s) && WithinCapacity(w, s) && TaskOk(w, s, e.task)
    ensures Filed(Do(w, s, e)) && WithinCapacity(w, Do(w, s, e))
  {
    var i := e.task;
    var p := s.tasks[i];
    if Quiet(p) {
      QuietSteps(w, s, e);
    } else if p.Lookup? {
      QueueFiled(w, s, p.key);
      TakeFiled(w, WithQueue(s, p.key), i, p.key, WithQueue(s, p.key).pools[p.key]);
    } else if p.Return? {
      ReturnFiled(w, s, i, p.c, p.pending);
    }
  }

  /** Queue objects are never removed from `_pools` nor replaced in it. */
  lemma QueuesAreNeverReplaced(w: World, s: State, e: Event)
    requires |s.tasks| == |w.jobs| && Enabled(w, s, e)
    ensures forall k :: k in s.pools ==> k in Do(w, s, e).pools && Do(w, s, e).pools[k] == s.pools[k]
  {
  }

  // ---- The tasks

  lemma OtherTaskOk(w: World, s: State, t: State, i: nat)
    requires i < |s.tasks| == |t.tasks| == |w.jobs| && t.tasks[i] == s.tasks[i] && TaskOk(w, s, i)
    requires forall k :: k in s.pools ==> k in t.pools && t.pools[k] == s.pools[k]
    ensures TaskOk(w, t, i)
  {
  }

  lemma OwnTaskOk(w: World, s: State, e: Event)
    requires |s.tasks| == |w.jobs| && Enabled(w, s, e) && Filed(s) && TaskOk(w, s, e.task)
    ensures |Do(w, s, e).tasks| == |w.jobs| && TaskOk(w, Do(w, s, e), e.task)
  {
    var p := s.tasks[e.task];
    if p.Lookup? && p.key in s.pools && s.queues[s.pools[p.key]] != [] {
      assert s.queues[s.pools[p.key]][0].key == p.key;
    }
  }

  lemma StepTasksOk(w: World, s: State, e: Event)
    requires |s.tasks| == |w.jobs| && Enabled(w, s, e) && Filed(s)
    requires forall i :: 0 <= i < |s.tasks| ==> TaskOk(w, s, i)
    ensures var t := Do(w, s, e); |t.tasks| == |w.jobs| && forall i :: 0 <= i < |t.tasks| ==> TaskOk(w, t, i)
  {
    var t := Do(w, s, e);
    OwnTaskOk(w, s, e);
    QueuesAreNeverReplaced(w, s, e);
    OneTaskMoves(w, s, e);
    forall i | 0 <= i < |t.tasks| && i != e.task
      ensures TaskOk(w, t, i)
    {
      OtherTaskOk(w, s, t, i);
    }
  }

  lemma OneTaskMoves(w: World, s: State, e: Event)
    requires |s.tasks| == |w.jobs| && Enabled(w, s, e)
    ensures |Do(w, s, e).tasks| == |s.tasks|
    ensures Do(w, s, e).tasks == s.tasks[e.task := Do(w, s, e).tasks[e.task]]
  {
  }

  /** The two logs grow only where a client changes hands. */
  lemma HandoverLogs(w: World, s: State, e: Event)
    requires |s.tasks| == |w.jobs| && Enabled(w, s, e)
    ensures var t, p := Do(w, s, e), s.tasks[e.task];
            e.task < |t.tasks| &&
            var p' := t.tasks[e.task];
            var owes, owes' := p.LoadMarkets? || p.PlaceOrder?, p'.LoadMarkets? || p'.PlaceOrder?;
      && t.acquired == s.acquired + (if !owes && owes' then [p'.c] else [])
      && t.returned == s.returned + (if owes && !owes' then [p.c] else [])
      && (owes && owes' ==> p'.c == p.c)
  {
  }

  lemma StepHandsBack(w: World, s: State, e: Event, g: Client -> nat)
    requires |s.tasks| == |w.jobs| && Enabled(w, s, e) && HandedBack(s, g)
    ensures HandedBack(Do(w, s, e), g)
  {
    OneTaskMoves(w, s, e);
    HandoverLogs(w, s, e);
    LogsHandBack(s, Do(w, s, e), e.task, Do(w, s, e).tasks[e.task], g);
  }

  lemma LogsHandBack(s: State, t: State, i: nat, p': Pc, g: Client -> nat)
    requires i < |s.tasks| && t.tasks == s.tasks[i := p'] && HandedBack(s, g)
    requires var p := s.tasks[i];
             var owes, owes' := p.LoadMarkets? || p.PlaceOrder?, p'.LoadMarkets? || p'.PlaceOrder?;
      && t.acquired == s.acquired + (if !owes && owes' then [p'.c] else [])
      && t.returned == s.returned + (if owes && !owes' then [p.c] else [])
      && (owes && owes' ==> p'.c == p.c)
    ensures HandedBack(t, g)
  {
    var p := s.tasks[i];
    SumUpdate(Unreturned(g), s.tasks, i, p');
    assert s.acquired + [] == s.acquired && s.returned + [] == s.returned;
    if p'.LoadMarkets? || p'.PlaceOrder? { SumAppend(g, s.acquired, p'.c); }
    if p.LoadMarkets? || p.PlaceOrder? { SumAppend(g, s.returned, p.c); }
  }

  lemma StepIds(w: World, s: State, e: Event)
    requires |s.tasks| == |w.jobs| && Enabled(w, s, e) && FreshIds(s)
    ensures FreshIds(Do(w, s, e))
  {
    if Quiet(s.tasks[e.task]) { QuietSteps(w, s, e); }
  }

  lemma StepLock(w: World, s: State, e: Event)
    requires |s.tasks| == |w.jobs| && Enabled(w, s, e) && LockOk(s)
    ensures LockOk(Do(w, s, e))
  {
    OneTaskMoves(w, s, e);
  }

  /** Only the order call moves a task past its order, and success is reported only after it. */
  lemma OrderStage(w: World, s: State, e: Event)
    requires |s.tasks| == |w.jobs| && Enabled(w, s, e)
    ensures var t, p := Do(w, s, e), s.tasks[e.task];
      && e.task < |t.tasks|
      && t.orders == (if p.PlaceOrder? then s.orders + [e.task] else s.orders)
      && (BeforeOrder(t.tasks[e.task]) ==> BeforeOrder(p) && !p.PlaceOrder?)
      && (p.PlaceOrder? ==> BeforeOrder(p))
      && (OrderWasPlaced(t.tasks[e.task]) ==> OrderWasPlaced(p) || p.PlaceOrder?)
  {
  }

  lemma StepOrders(w: World, s: State, e: Event)
    requires |s.tasks| == |w.jobs| && Enabled(w, s, e) && OrdersOk(s)
    ensures OrdersOk(Do(w, s, e))
  {
    OneTaskMoves(w, s, e);
    OrderStage(w, s, e);
    var t := Do(w, s, e);
    forall i | 0 <= i < |t.tasks|
      ensures multiset(t.orders)[i] <= (if BeforeOrder(t.tasks[i]) then 0 else 1)
      ensures OrderWasPlaced(t.tasks[i]) ==> multiset(t.orders)[i] == 1
    {
      assert multiset(t.orders)[i] == multiset(s.orders)[i] + if s.tasks[e.task].PlaceOrder? && i == e.task then 1 else 0;
    }
  }

  lemma StepInv(w: World, s: State, e: Event)
    requires Inv(w, s) && Enabled(w, s, e)
    ensures Inv(w, Do(w, s, e))
  {
    StepIds(w, s, e);
    StepFiled(w, s, e);
    StepTasksOk(w, s, e);
    StepLock(w, s, e);
    StepOrders(w, s, e);
  }

  lemma {:induction false} RunInv(w: World, run: seq<State>, events: seq<Event>, n: nat)
    requires IsRun(w, run, events) && n < |run|
    ensures Inv(w, run[n])
  {
    if n == 0 {
      InitInv(w);
    } else {
      RunInv(w, run, events, n - 1);
      StepInv(w, run[n - 1], events[n - 1]);
    }
  }

  lemma {:induction false} RunConserves(w: World, run: seq<State>, events: seq<Event>, n: nat, g: Client -> nat)
    requires IsRun(w, run, events) && n < |run|
    ensures Conserved(run[n], g) && HandedBack(run[n], g)
  {
    if n == 0 {
      SumNone(InHand(g), Init(w).tasks);
      SumNone(Unreturned(g), Init(w).tasks);
    } else {
      RunConserves(w, run, events, n - 1, g);
      StepConserves(w, run[n - 1], events[n - 1], g);
      StepHandsBack(w, run[n - 1], events[n - 1], g);
    }
  }

  // ---------------------------------------------------------------------------------------------
  // Ownership

  ghost predicate HeldBy(s: State, i: nat, c: Client) { i < |s.tasks| && Holds(s.tasks[i]) && s.tasks[i].c == c }

  ghost predicate IdleAt(s: State, q: nat, j: nat, c: Client) {
    q < |s.queues| && j < |s.queues[q]| && s.queues[q][j] == c
  }

  lemma CreatedOnce(s: State, c: Client)
    requires FreshIds(s)
    ensures Sum(Same(c), s.created) == if c in s.created then 1 else 0
  {
    if c in s.created {
      SumOnlyAt(Same(c), s.created, c.id);
    } else {
      SumNone(Same(c), s.created);
    }
  }

  lemma HeldWeighs(s: State, i: nat, c: Client)
    requires HeldBy(s, i, c)
    ensures InHand(Same(c))(s.tasks[i]) == 1 && Sum(InHand(Same(c)), s.tasks) >= 1
  {
    SumMember(InHand(Same(c)), s.tasks, i);
  }

  lemma IdleWeighs(s: State, q: nat, j: nat, c: Client)
    requires IdleAt(s, q, j, c)
    ensures Waiting(Same(c))(s.queues[q]) >= 1 && Sum(Waiting(Same(c)), s.queues) >= 1
  {
    SumMember(Same(c), s.queues[q], j);
    SumMember(Waiting(Same(c)), s.queues, q);
  }

  lemma ClosedWeighs(s: State, c: Client)
    requires c in s.closed
    ensures Sum(Same(c), s.closed) >= 1
  {
    var j :| 0 <= j < |s.closed| && s.closed[j] == c;
    SumMember(Same(c), s.closed, j);
  }

  lemma NotHeldTwice(s: State, c: Client, i: nat, j: nat)
    requires Conserved(s, Same(c)) && FreshIds(s) && HeldBy(s, i, c) && HeldBy(s, j, c)
    ensures i == j
  {
    CreatedOnce(s, c);
    HeldWeighs(s, i, c);
    HeldWeighs(s, j, c);
    if i < j { SumTwo(InHand(Same(c)), s.tasks, i, j); }
    if j < i { SumTwo(InHand(Same(c)), s.tasks, j, i); }
  }

  lemma NotIdleTwice(s: State, c: Client, q: nat, j: nat, q': nat, j': nat)
    requires Conserved(s, Same(c)) && FreshIds(s) && IdleAt(s, q, j, c) && IdleAt(s, q', j', c)
    ensures q == q' && j == j'
  {
    CreatedOnce(s, c);
    IdleWeighs(s, q, j, c);
    IdleWeighs(s, q', j', c);
    if q < q' { SumTwo(Waiting(Same(c)), s.queues, q, q'); }
    if q' < q { SumTwo(Waiting(Same(c)), s.queues, q', q); }
    SumMember(Waiting(Same(c)), s.queues, q);
    if j < j' { SumTwo(Same(c), s.queues[q], j, j'); }
    if j' < j { SumTwo(Same(c), s.queues[q], j', j); }
  }

  /** In every run, at every moment, a client is in exactly one place: in one task's hands, at one
      position of one queue, or closed. In particular no closed or idle client is in use. */
  lemma EachClientIsInOnePlace(w: World, run: seq<State>, events: seq<Event>, n: nat, c: Client)
    requires IsRun(w, run, events) && n < |run|
    ensures var s := run[n];
      && (forall i, j :: HeldBy(s, i, c) && HeldBy(s, j, c) ==> i == j)
      && (forall q, j, q', j' :: IdleAt(s, q, j, c) && IdleAt(s, q', j', c) ==> q == q' && j == j')
      && (forall i, q, j :: HeldBy(s, i, c) ==> !IdleAt(s, q, j, c))
      && (forall i :: HeldBy(s, i, c) ==> c !in s.closed)
      && (forall q, j :: IdleAt(s, q, j, c) ==> c !in s.closed)
      && (c in s.created <==> (exists i :: HeldBy(s, i, c)) || (exists q, j :: IdleAt(s, q, j, c)) || c in s.closed)
  {
    var s := run[n];
    RunInv(w, run, events, n);
    RunConserves(w, run, events, n, Same(c));
    CreatedOnce(s, c);
    forall i, j | HeldBy(s, i, c) && HeldBy(s, j, c) ensures i == j { NotHeldTwice(s, c, i, j); }
    forall q, j, q', j' | IdleAt(s, q, j, c) && IdleAt(s, q', j', c) ensures q == q' && j == j' {
      NotIdleTwice(s, c, q, j, q', j');
    }
    forall i | HeldBy(s, i, c) ensures Sum(InHand(Same(c)), s.tasks) >= 1 { HeldWeighs(s, i, c); }
    forall q, j | IdleAt(s, q, j, c) ensures Sum(Waiting(Same(c)), s.queues) >= 1 { IdleWeighs(s, q, j, c); }
    if c in s.closed { ClosedWeighs(s, c); }
    if c in s.created { CreatedIsSomewhere(s, c); }
  }

  lemma CreatedIsSomewhere(s: State, c: Client)
    requires Conserved(s, Same(c)) && Sum(Same(c), s.created) >= 1
    ensures (exists i :: HeldBy(s, i, c)) || (exists q, j :: IdleAt(s, q, j, c)) || c in s.closed
  {
    if Sum(InHand(Same(c)), s.tasks) > 0 {
      var i := SumPositive(InHand(Same(c)), s.tasks);
      assert HeldBy(s, i, c);
    } else if Sum(Waiting(Same(c)), s.queues) > 0 {
      var q := SumPositive(Waiting(Same(c)), s.queues);
      var j := SumPositive(Same(c), s.queues[q]);
      assert IdleAt(s, q, j, c);
    } else {
      var j := SumPositive(Same(c), s.closed);
    }
  }

  /** A task only ever holds a client of the exchange and the credentials of its own request. */
  lemma ClientsMatchTheirJob(w: World, run: seq<State>, events: seq<Event>, n: nat, i: nat)
    requires IsRun(w, run, events) && n < |run| && i < |run[n].tasks| && Holds(run[n].tasks[i])
    ensures i < |w.jobs| && KeyOf(w, w.jobs[i], run[n].tasks[i].c.key)
    ensures SessionKey(w, w.jobs[i]) == Success(run[n].tasks[i].c.key)
  {
    RunInv(w, run, events, n);
    assert TaskOk(w, run[n], i);
    SessionKeyIff(w, w.jobs[i]);
  }

  /** A task calls `create_market_order` at most once, not at all before it holds a client with its
      markets loaded, and exactly once when it reports success. */
  lemma AtMostOneOrderPerTask(w: World, run: seq<State>, events: seq<Event>, n: nat, i: nat)
    requires IsRun(w, run, events) && n < |run| && i < |run[n].tasks|
    ensures multiset(run[n].orders)[i] <= 1
    ensures BeforeOrder(run[n].tasks[i]) ==> multiset(run[n].orders)[i] == 0
    ensures OrderWasPlaced(run[n].tasks[i]) ==> multiset(run[n].orders)[i] == 1
  {
    RunInv(w, run, events, n);
  }

  // ---------------------------------------------------------------------------------------------
  // Counts per key

  function OfKey(k: Key): Client -> nat { (c: Client) => if c.key == k then 1 else 0 }

  function Creates(k: Key): Pc -> nat { (p: Pc) => if p.Create? && p.key == k then 1 else 0 }

  function HeldCount(s: State, k: Key): nat { Sum(InHand(OfKey(k)), s.tasks) }

  function IdleCount(s: State, k: Key): nat { Sum(Waiting(OfKey(k)), s.queues) }

  function ClosedCount(s: State, k: Key): nat { Sum(OfKey(k), s.closed) }

  function CreatedCount(s: State, k: Key): nat { Sum(OfKey(k), s.created) }

  function CreatingCount(s: State, k: Key): nat { Sum(Creates(k), s.tasks) }

  /** Clients of a key that exist and have not been closed. */
  function Open(s: State, k: Key): nat { HeldCount(s, k) + IdleCount(s, k) }

  /** Tasks using a client of the key, or on their way from an empty queue to creating one. */
  function Demand(s: State, k: Key): nat { HeldCount(s, k) + CreatingCount(s, k) }

  function Peak(run: seq<State>, n: nat, k: Key): nat
    requires n < |run|
  {
    if n == 0 then Demand(run[0], k) else Max(Peak(run, n - 1, k), Demand(run[n], k))
  }

  /** All the idle clients of a key are in the one queue filed under it. */
  lemma IdleInOwnQueue(s: State, k: Key)
    requires Filed(s)
    ensures IdleCount(s, k) == if k in s.pools then |s.queues[s.pools[k]]| else 0
  {
    forall q | 0 <= q < |s.queues|
      ensures Waiting(OfKey(k))(s.queues[q]) == if k in s.pools && s.pools[k] == q then |s.queues[q]| else 0
    {
      if k in s.pools && s.pools[k] == q {
        CountWhole(OfKey(k), s.queues[q]);
      } else {
        SumNone(OfKey(k), s.queues[q]);
      }
    }
    if k in s.pools {
      SumOnlyAt(Waiting(OfKey(k)), s.queues, s.pools[k]);
    } else {
      SumNone(Waiting(OfKey(k)), s.queues);
    }
  }

  lemma {:induction false} CountWhole(g: Client -> nat, cs: seq<Client>)
    requires forall j :: 0 <= j < |cs| ==> g(cs[j]) == 1
    ensures Sum(g, cs) == |cs|
  {
    if cs != [] { CountWhole(g, cs[1..]); }
  }

  /** The queue of a key never exceeds its capacity, though check and put are outside the lock. */
  lemma IdleWithinCapacity(w: World, run: seq<State>, events: seq<Event>, n: nat, k: Key)
    requires IsRun(w, run, events) && n < |run|
    ensures IdleCount(run[n], k) <= Max(0, w.maxsize)
    ensures CreatedCount(run[n], k) == HeldCount(run[n], k) + IdleCount(run[n], k) + ClosedCount(run[n], k)
  {
    RunInv(w, run, events, n);
    RunConserves(w, run, events, n, OfKey(k));
    IdleInOwnQueue(run[n], k);
  }

  lemma CreatingMoves(w: World, s: State, e: Event, k: Key)
    requires |s.tasks| == |w.jobs| && Enabled(w, s, e)
    ensures var t, i := Do(w, s, e), e.task;
      && i < |t.tasks|
      && CreatingCount(t, k) + Creates(k)(s.tasks[i]) == CreatingCount(s, k) + Creates(k)(t.tasks[i])
  {
    OneTaskMoves(w, s, e);
    SumUpdate(Creates(k), s.tasks, e.task, Do(w, s, e).tasks[e.task]);
  }

  lemma CreatedMoves(w: World, s: State, e: Event, k: Key)
    requires |s.tasks| == |w.jobs| && Enabled(w, s, e)
    ensures var t, i := Do(w, s, e), e.task;
      && CreatedCount(t, k) <= CreatedCount(s, k) + Creates(k)(s.tasks[i])
      && ClosedCount(t, k) >= ClosedCount(s, k)
  {
    var t, p := Do(w, s, e), s.tasks[e.task];
    if p.Create? && e.answer.Ok? {
      SumAppend(OfKey(k), s.created, Client(|s.created|, p.key));
    }
    if p.Close? {
      SumAppend(OfKey(k), s.closed, p.c);
    }
  }

  /** The step that turns to creating leaves an empty queue behind. */
  lemma LookupFindsNone(w: World, s: State, e: Event, k: Key)
    requires |s.tasks| == |w.jobs| && Enabled(w, s, e) && Filed(s)
    requires var t := Do(w, s, e); e.task < |t.tasks| && t.tasks[e.task] == Create(k)
    ensures var t := Do(w, s, e); k in t.pools && t.pools[k] < |t.queues| && t.queues[t.pools[k]] == []
  {
    assert s.tasks[e.task] == Lookup(k);
  }

  /** A task turns to creating only when the queue of its key is empty. */
  lemma CreateOnlyWhenIdleIsEmpty(w: World, s: State, e: Event, k: Key)
    requires Inv(w, s) && Enabled(w, s, e)
    requires var t := Do(w, s, e); e.task < |t.tasks| && Creates(k)(t.tasks[e.task]) == 1
    ensures IdleCount(Do(w, s, e), k) == 0
  {
    LookupFindsNone(w, s, e, k);
    assert Filed(Do(w, s, e)) by { StepInv(w, s, e); }
    IdleInOwnQueue(Do(w, s, e), k);
  }

  lemma PeakStep(w: World, s: State, e: Event, k: Key)
    requires Inv(w, s) && Enabled(w, s, e) && Conserved(s, OfKey(k))
    ensures var t := Do(w, s, e);
            Open(t, k) + CreatingCount(t, k) <= Max(Open(s, k) + CreatingCount(s, k), Demand(t, k))
  {
    var t := Do(w, s, e);
    StepConserves(w, s, e, OfKey(k));
    CreatingMoves(w, s, e, k);
    CreatedMoves(w, s, e, k);
    if Creates(k)(t.tasks[e.task]) == 1 {
      CreateOnlyWhenIdleIsEmpty(w, s, e, k);
    }
  }

  /** Clients open now, with those about to be created, are within the peak demand so far. */
  ghost predicate WithinPeak(run: seq<State>, n: nat, k: Key)
    requires n < |run|
  {
    Open(run[n], k) + CreatingCount(run[n], k) <= Peak(run, n, k)
  }

  /** What one step may add to the clients open and about to be created. */
  ghost predicate GrowsWithDemand(s: State, t: State, k: Key) {
    Open(t, k) + CreatingCount(t, k) <= Max(Open(s, k) + CreatingCount(s, k), Demand(t, k))
  }

  lemma GrowsAlongRun(w: World, run: seq<State>, events: seq<Event>, n: nat, k: Key)
    requires IsRun(w, run, events) && n < |events|
    ensures GrowsWithDemand(run[n], run[n + 1], k)
  {
    RunInv(w, run, events, n);
    RunConserves(w, run, events, n, OfKey(k));
    PeakStep(w, run[n], events[n], k);
  }

  lemma PeakGrows(run: seq<State>, n: nat, k: Key)
    requires n + 1 < |run| && WithinPeak(run, n, k) && GrowsWithDemand(run[n], run[n + 1], k)
    ensures WithinPeak(run, n + 1, k)
  {
    assert Peak(run, n + 1, k) == Max(Peak(run, n, k), Demand(run[n + 1], k));
  }

  lemma StartsWithinPeak(w: World, run: seq<State>, k: Key)
    requires |run| > 0 && run[0] == Init(w)
    ensures WithinPeak(run, 0, k)
  {
    SumNone(Waiting(OfKey(k)), run[0].queues);
  }

  /** For every key and every run, the clients open never exceed the peak demand so far. */
  lemma {:induction false} OpenNeverExceedsPeak(w: World, run: seq<State>, events: seq<Event>, n: nat, k: Key)
    requires IsRun(w, run, events) && n < |run|
    ensures WithinPeak(run, n, k)
  {
    if n == 0 {
      StartsWithinPeak(w, run, k);
    } else {
      OpenNeverExceedsPeak(w, run, events, n - 1, k);
      GrowsAlongRun(w, run, events, n - 1, k);
      PeakGrows(run, n - 1, k);
    }
  }

  // ---------------------------------------------------------------------------------------------
  // Creation that awaits nothing

  /** The most tasks that have held a client of the key at one time so far. */
  function PeakHeld(run: seq<State>, n: nat, k: Key): nat
    requires n < |run|
  {
    if n == 0 then HeldCount(run[0], k) else Max(PeakHeld(run, n - 1, k), HeldCount(run[n], k))
  }

  /** If step n creates a client, the step before it was the same task's. */
  ghost predicate AtOnce(run: seq<State>, events: seq<Event>, n: nat)
    requires n < |events| < |run|
  {
    (events[n].task < |run[n].tasks| && run[n].tasks[events[n].task].Create?)
    ==> (n > 0 && events[n - 1].task == events[n].task)
  }

  /** No other task moves between a task's lookup and its creating a client: `_create_exchange`, as
      written, awaits nothing. */
  ghost predicate CreatesAtOnce(run: seq<State>, events: seq<Event>)
    requires |run| == |events| + 1
  {
    forall n {:trigger AtOnce(run, events, n)} :: 0 <= n < |events| ==> AtOnce(run, events, n)
  }

  lemma CreationKeepsIdle(w: World, s: State, e: Event, k: Key)
    requires |s.tasks| == |w.jobs| && Enabled(w, s, e) && s.tasks[e.task].Create?
    ensures IdleCount(Do(w, s, e), k) == IdleCount(s, k)
    ensures s.tasks[e.task].key != k ==> CreatedCount(Do(w, s, e), k) == CreatedCount(s, k)
  {
    if e.answer.Ok? {
      SumAppend(OfKey(k), s.created, Client(|s.created|, s.tasks[e.task].key));
    }
  }

  /** Where creation is at once, it finds no idle client of its key. */
  lemma CreationFindsNoneIdle(w: World, run: seq<State>, events: seq<Event>, n: nat)
    requires IsRun(w, run, events) && CreatesAtOnce(run, events) && n < |events|
    requires run[n].tasks[events[n].task].Create?
    ensures IdleCount(run[n], run[n].tasks[events[n].task].key) == 0
  {
    assert AtOnce(run, events, n);
    RunInv(w, run, events, n - 1);
    CreateOnlyWhenIdleIsEmpty(w, run[n - 1], events[n - 1], run[n].tasks[events[n].task].key);
  }

  lemma PeakHeldGrows(w: World, run: seq<State>, events: seq<Event>, n: nat, k: Key)
    requires IsRun(w, run, events) && CreatesAtOnce(run, events) && n < |events|
    requires Open(run[n], k) <= PeakHeld(run, n, k)
    ensures Open(run[n + 1], k) <= PeakHeld(run, n + 1, k)
  {
    var s, e := run[n], events[n];
    RunInv(w, run, events, n);
    RunConserves(w, run, events, n, OfKey(k));
    if !s.tasks[e.task].Create? {
      StepConserves(w, s, e, OfKey(k));
      CreatedMoves(w, s, e, k);
    } else {
      CreationKeepsIdle(w, s, e, k);
      if s.tasks[e.task].key == k {
        CreationFindsNoneIdle(w, run, events, n);
      } else {
        StepConserves(w, s, e, OfKey(k));
        CreatedMoves(w, s, e, k);
      }
    }
  }

  /** With creation at once, the clients open never exceed the peak number of tasks holding one. */
  lemma {:induction false} OpenNeverExceedsHolders(w: World, run: seq<State>, events: seq<Event>, n: nat, k: Key)
    requires IsRun(w, run, events) && CreatesAtOnce(run, events) && n < |run|
    ensures Open(run[n], k) <= PeakHeld(run, n, k)
  {
    if n == 0 {
      SumNone(Waiting(OfKey(k)), run[0].queues);
    } else {
      OpenNeverExceedsHolders(w, run, events, n - 1, k);
      PeakHeldGrows(w, run, events, n - 1, k);
    }
  }

  // ---------------------------------------------------------------------------------------------
  // Progress and termination

  ghost predicate AllDone(s: State) { forall i :: 0 <= i < |s.tasks| ==> s.tasks[i].Done? }

  function Rank(p: Pc): nat {
    match p
    case Start => 10
    case AwaitLookup(_) => 9
    case Lookup(_) => 8
    case Create(_) => 7
    case LoadMarkets(_) => 6
    case PlaceOrder(_) => 5
    case AwaitReturn(_, _) => 4
    case Return(_, _) => 3
    case Check(_, _, _) => 2
    case Close(_, _) => 1
    case Done(_) => 0
  }

  function Remaining(s: State): nat { Sum(Rank, s.tasks) }

  /** While a task is unfinished something can move: the holder of the lock, or else any unfinished task. */
  lemma SomeTaskCanMove(w: World, s: State) returns (e: Event)
    requires Inv(w, s) && !AllDone(s)
    ensures Enabled(w, s, e) && (s.lock.Some? ==> e.task == s.lock.value)
  {
    var i: nat :| i < |s.tasks| && !s.tasks[i].Done?;
    e := Event(if s.lock.Some? then s.lock.value else i, Ok);
  }

  lemma RankDrops(w: World, s: State, e: Event)
    requires |s.tasks| == |w.jobs| && Enabled(w, s, e)
    ensures e.task < |Do(w, s, e).tasks| && Rank(Do(w, s, e).tasks[e.task]) < Rank(s.tasks[e.task])
  {
  }

  /** Every step, whatever its answer, brings its task closer to the end. */
  lemma EveryStepAdvances(w: World, s: State, e: Event)
    requires |s.tasks| == |w.jobs| && Enabled(w, s, e)
    ensures Remaining(Do(w, s, e)) < Remaining(s)
  {
    OneTaskMoves(w, s, e);
    RankDrops(w, s, e);
    SumUpdate(Rank, s.tasks, e.task, Do(w, s, e).tasks[e.task]);
  }

  /** No schedule runs for more than ten steps a task. */
  lemma {:induction false} RunsAreBounded(w: World, run: seq<State>, events: seq<Event>, n: nat)
    requires IsRun(w, run, events) && n < |run|
    ensures n + Remaining(run[n]) <= 10 * |w.jobs|
  {
    if n == 0 {
      SumBound(Rank, Init(w).tasks, 10);
    } else {
      RunsAreBounded(w, run, events, n - 1);
      EveryStepAdvances(w, run[n - 1], events[n - 1]);
    }
  }

  ghost predicate Stuck(w: World, s: State) { forall e :: !Enabled(w, s, e) }

  /** No task has begun and not ended. */
  ghost predicate Idling(s: State) { forall i :: 0 <= i < |s.tasks| ==> s.tasks[i].Start? || s.tasks[i].Done? }

  lemma NothingInHand(s: State, g: Client -> nat)
    requires Idling(s)
    ensures Sum(InHand(g), s.tasks) == 0 && Sum(Unreturned(g), s.tasks) == 0
  {
    SumNone(InHand(g), s.tasks);
    SumNone(Unreturned(g), s.tasks);
  }

  lemma BalancedWhenIdle(w: World, run: seq<State>, events: seq<Event>, c: Client)
    requires IsRun(w, run, events) && Idling(run[|events|])
    ensures multiset(run[|events|].acquired)[c] == multiset(run[|events|].returned)[c]
  {
    var s := run[|events|];
    RunConserves(w, run, events, |events|, Same(c));
    NothingInHand(s, Same(c));
    SumSameIsMultiplicity(c, s.acquired);
    SumSameIsMultiplicity(c, s.returned);
  }

  /** A run that cannot go on has finished every task: the lock is free, no client is held, every
      client acquired was returned as often as it was acquired, and of each key at most
      min(peak, capacity) clients stay open, the peak being that of the holders alone where creation
      is at once. */
  lemma CompletedRuns(w: World, run: seq<State>, events: seq<Event>, k: Key)
    requires IsRun(w, run, events) && Stuck(w, run[|events|])
    ensures var s := run[|events|];
      && AllDone(s)
      && s.lock == None
      && HeldCount(s, k) == 0
      && Open(s, k) <= Min(Peak(run, |events|, k), Max(0, w.maxsize))
      && (CreatesAtOnce(run, events) ==> Open(s, k) <= PeakHeld(run, |events|, k))
      && multiset(s.acquired) == multiset(s.returned)
  {
    var n := |events|;
    var s := run[n];
    RunInv(w, run, events, n);
    if !AllDone(s) {
      var e := SomeTaskCanMove(w, s);
    }
    NothingInHand(s, OfKey(k));
    IdleWithinCapacity(w, run, events, n, k);
    OpenNeverExceedsPeak(w, run, events, n, k);
    if CreatesAtOnce(run, events) { OpenNeverExceedsHolders(w, run, events, n, k); }
    forall c
      ensures multiset(s.acquired)[c] == multiset(s.returned)[c]
    {
      BalancedWhenIdle(w, run, events, c);
    }
  }
}
