/** Several processes registering nonces in one SQLite file (app/identity/token_store.py:62-89).

    Each call reads the clock once, then deletes and commits, selects, and inserts and commits; a
    committed write is one atomic step, and everything else may happen between the steps of a call.
    Any statement may instead raise, for instance because the database is locked. */
module NonceRace {
  import opened Wrappers
  import TokenStore

  datatype Job =
    | Register(nonce: string, ttl: Option<int>)   // register_nonce
    | Sweep                                       // cleanup_expired_nonces

  datatype World = World(cfg: TokenStore.Settings, jobs: seq<Job>)

  datatype Verdict =
    | Registered            // returned True
    | Refused(now: int, swept: nat)   // returned False, with its clock reading and its sweep
    | Conflict(seen: nat)   // the insert violated the primary key and raised
    | Faulted               // a statement raised for another reason
    | Finished              // a sweep came to its end

  /** `now` is the clock reading the worker took at its start; `swept` and `seen` count the
      registrations committed when it swept and when it looked for its nonce. */
  datatype Pc =
    | Ready
    | Sweeping(now: int)
    | Looking(now: int, swept: nat)
    | Inserting(now: int, seen: nat)
    | Done(verdict: Verdict)

  /** A committed registration: by whom, with which captured clock, and when. */
  datatype Commit = Commit(worker: nat, nonce: string, now: int, expires: int, at: int)

  datatype State = State(time: int, nonces: map<string, int>, commits: seq<Commit>, workers: seq<Pc>)

  datatype Event = Tick(seconds: nat) | Run(worker: nat, fault: bool)

  function Init(w: World, time: int): State {
    State(time, map[], [], seq(|w.jobs|, i => Ready))
  }

  predicate Enabled(w: World, s: State, e: Event) {
    e.Run? ==>
      && e.worker < |s.workers|
      && !s.workers[e.worker].Done?
      && (e.fault ==> !s.workers[e.worker].Ready?)
  }

  function Unexpired(nonces: map<string, int>, now: int): map<string, int> {
    map n | n in nonces && nonces[n] > now :: nonces[n]
  }

  function GoTo(s: State, i: nat, p: Pc): State
    requires i < |s.workers|
  {
    s.(workers := s.workers[i := p])
  }

  function InsertStep(w: World, s: State, i: nat, job: Job, now: int, seen: nat): State
    requires i < |s.workers| && job.Register?
  {
    if job.nonce in s.nonces then GoTo(s, i, Done(Conflict(seen)))
    else
      var expires := now + TokenStore.Lifetime(job.ttl, w.cfg.nonceTtl);
      GoTo(s.(nonces := s.nonces[job.nonce := expires],
              commits := s.commits + [Commit(i, job.nonce, now, expires, s.time)]), i, Done(Registered))
  }

  function RunStep(w: World, s: State, i: nat, fault: bool): State
    requires i < |s.workers| == |w.jobs| && Enabled(w, s, Run(i, fault))
  {
    var job, p := w.jobs[i], s.workers[i];
    if fault then GoTo(s, i, Done(Faulted))
    else if p.Ready? then GoTo(s, i, Sweeping(s.time))
    else if p.Sweeping? then
      GoTo(s.(nonces := Unexpired(s.nonces, p.now)), i, if job.Sweep? then Done(Finished) else Looking(p.now, |s.commits|))
    else if job.Sweep? then GoTo(s, i, Done(Finished))
    else if p.Looking? then
      GoTo(s, i, if job.nonce in s.nonces then Done(Refused(p.now, p.swept)) else Inserting(p.now, |s.commits|))
    else InsertStep(w, s, i, job, p.now, p.seen)
  }

  function Do(w: World, s: State, e: Event): State
    requires |s.workers| == |w.jobs| && Enabled(w, s, e)
  {
    match e
    case Tick(d) => s.(time := s.time + d)
    case Run(i, fault) => RunStep(w, s, i, fault)
  }

  ghost predicate IsRun(w: World, run: seq<State>, events: seq<Event>) {
    && |run| == |events| + 1
    && run[0] == Init(w, run[0].time)
    && forall i :: 0 <= i < |events| ==>
         |run[i].workers| == |w.jobs| && Enabled(w, run[i], events[i]) && run[i + 1] == Do(w, run[i], events[i])
  }

  // ---------------------------------------------------------------------------------------------
  // Invariant

  /** A committed registration is still in the table, or its lifetime has passed. */
  ghost predicate KeptUntilExpiry(s: State) {
    forall k :: 0 <= k < |s.commits| ==>
      var c := s.commits[k];
      (c.nonce in s.nonces && s.nonces[c.nonce] == c.expires) || c.expires <= s.time
  }

  ghost predicate RowsAreCommits(s: State) {
    forall n :: n in s.nonces ==> exists k :: 0 <= k < |s.commits| && s.commits[k].nonce == n && s.commits[k].expires == s.nonces[n]
  }

  ghost predicate ClocksPast(s: State) {
    forall i :: 0 <= i < |s.workers| ==>
      (s.workers[i].Sweeping? || s.workers[i].Looking? || s.workers[i].Inserting? ==> s.workers[i].now <= s.time)
  }

  ghost predicate RepeatsAreLate(s: State) {
    forall j, k :: 0 <= j < k < |s.commits| && s.commits[j].nonce == s.commits[k].nonce ==>
      s.commits[j].expires <= s.commits[k].at
  }

  /** What a commit records is its worker's own job. */
  ghost predicate CommitsOk(w: World, s: State) {
    forall k :: 0 <= k < |s.commits| ==>
      var c := s.commits[k];
      && c.worker < |w.jobs| && w.jobs[c.worker].Register?
      && c.nonce == w.jobs[c.worker].nonce
      && c.expires == c.now + TokenStore.Lifetime(w.jobs[c.worker].ttl, w.cfg.nonceTtl)
      && c.now <= c.at <= s.time
  }

  ghost predicate VerdictsOk(s: State) {
    && (forall k :: 0 <= k < |s.commits| ==>
          s.commits[k].worker < |s.workers| && s.workers[s.commits[k].worker] == Done(Registered))
    && (forall j, k :: 0 <= j < k < |s.commits| ==> s.commits[j].worker != s.commits[k].worker)
    && (forall i :: 0 <= i < |s.workers| && s.workers[i] == Done(Registered) ==>
          exists k :: 0 <= k < |s.commits| && s.commits[k].worker == i)
  }

  ghost predicate CommittedSince(s: State, nonce: string, seen: nat) {
    exists k :: seen <= k < |s.commits| && s.commits[k].nonce == nonce
  }

  /** A worker about to insert saw its nonce absent: if it is there now, another put it there since. */
  ghost predicate LosersWereBeaten(w: World, s: State) {
    forall i :: 0 <= i < |s.workers| == |w.jobs| && w.jobs[i].Register? ==>
      && (s.workers[i].Inserting? ==>
            s.workers[i].seen <= |s.commits|
            && (w.jobs[i].nonce in s.nonces ==> CommittedSince(s, w.jobs[i].nonce, s.workers[i].seen)))
      && (s.workers[i].Done? && s.workers[i].verdict.Conflict? ==>
            CommittedSince(s, w.jobs[i].nonce, s.workers[i].verdict.seen))
      && (s.workers[i].Done? && s.workers[i].verdict.Refused? ==>
            InTheWay(s, w.jobs[i].nonce, s.workers[i].verdict.now, s.workers[i].verdict.swept))
  }

  /** A registration of the nonce that outlives `now`, or one committed after the first `swept`. */
  ghost predicate InTheWay(s: State, nonce: string, now: int, swept: nat) {
    exists k :: 0 <= k < |s.commits| && s.commits[k].nonce == nonce && (s.commits[k].expires > now || swept <= k)
  }

  ghost predicate RowsOutlive(s: State, now: int, swept: nat) {
    forall n :: n in s.nonces ==> s.nonces[n] > now || CommittedSince(s, n, swept)
  }

  /** What a worker finds after its sweep was unexpired then, or came since. */
  ghost predicate SweptOk(s: State) {
    forall i :: 0 <= i < |s.workers| && s.workers[i].Looking? ==>
      RowsOutlive(s, s.workers[i].now, s.workers[i].swept) && s.workers[i].swept <= |s.commits|
  }

  ghost predicate Inv(w: World, s: State) {
    && |s.workers| == |w.jobs|
    && KeptUntilExpiry(s)
    && RowsAreCommits(s)
    && ClocksPast(s)
    && RepeatsAreLate(s)
    && CommitsOk(w, s)
    && VerdictsOk(s)
    && LosersWereBeaten(w, s)
    && SweptOk(s)
  }

  lemma InitInv(w: World, time: int)
    ensures Inv(w, Init(w, time))
  {
  }

  /** Time passes and nothing else happens. */
  predicate Later(s: State, t: State) { s.time <= t.time && t == s.(time := t.time) }

  lemma TickKeepsCommits(w: World, s: State, t: State)
    requires KeptUntilExpiry(s) && RowsAreCommits(s) && ClocksPast(s) && RepeatsAreLate(s) && CommitsOk(w, s) && VerdictsOk(s)
    requires Later(s, t)
    ensures KeptUntilExpiry(t) && RowsAreCommits(t) && ClocksPast(t) && RepeatsAreLate(t) && CommitsOk(w, t) && VerdictsOk(t)
  {
    assert RowsAreCommits(t);
  }

  lemma TickKeepsWorkers(w: World, s: State, t: State)
    requires LosersWereBeaten(w, s) && SweptOk(s) && Later(s, t)
    ensures LosersWereBeaten(w, t) && SweptOk(t)
  {
    SameCommits(s, t);
    assert forall j :: 0 <= j < |s.workers| && s.workers[j].Looking? ==> RowsOutlive(s, s.workers[j].now, s.workers[j].swept);
  }

  lemma TickInv(w: World, s: State, t: State)
    requires Inv(w, s) && Later(s, t)
    ensures Inv(w, t)
  {
    TickKeepsCommits(w, s, t);
    TickKeepsWorkers(w, s, t);
  }

  lemma SameCommits(s: State, t: State)
    requires t.commits == s.commits
    ensures forall nonce, seen: nat :: CommittedSince(s, nonce, seen) <==> CommittedSince(t, nonce, seen)
    ensures forall nonce, now, swept: nat :: InTheWay(s, nonce, now, swept) <==> InTheWay(t, nonce, now, swept)
  {
  }

  lemma MoveKeepsVerdicts(s: State, i: nat, p: Pc)
    requires VerdictsOk(s) && i < |s.workers| && !s.workers[i].Done? && p != Done(Registered)
    ensures VerdictsOk(GoTo(s, i, p))
  {
    var t := GoTo(s, i, p);
    forall j | 0 <= j < |t.workers| && t.workers[j] == Done(Registered)
      ensures exists k :: 0 <= k < |t.commits| && t.commits[k].worker == j
    {
      assert s.workers[j] == Done(Registered);
    }
  }

  /** What a register worker must be able to show at its new place. */
  ghost predicate MayMoveTo(w: World, s: State, i: nat, p: Pc) {
    i < |w.jobs| && w.jobs[i].Register? ==>
      && (p.Inserting? ==> w.jobs[i].nonce !in s.nonces && p.seen == |s.commits|)
      && (p.Done? && p.verdict.Conflict? ==> CommittedSince(s, w.jobs[i].nonce, p.verdict.seen))
      && (p.Done? && p.verdict.Refused? ==> InTheWay(s, w.jobs[i].nonce, p.verdict.now, p.verdict.swept))
  }

  lemma MoveKeepsLosers(w: World, s: State, i: nat, p: Pc)
    requires LosersWereBeaten(w, s) && i < |s.workers| == |w.jobs| && MayMoveTo(w, s, i, p)
    ensures LosersWereBeaten(w, GoTo(s, i, p))
  {
    var t := GoTo(s, i, p);
    SameCommits(s, t);
  }

  lemma MoveKeepsSwept(s: State, i: nat, p: Pc)
    requires SweptOk(s) && i < |s.workers|
    requires p.Looking? ==> p.swept <= |s.commits| && forall n :: n in s.nonces ==> s.nonces[n] > p.now
    ensures SweptOk(GoTo(s, i, p))
  {
    var t := GoTo(s, i, p);
    SameCommits(s, t);
    assert forall j :: 0 <= j < |s.workers| && j != i && s.workers[j].Looking? ==> RowsOutlive(s, s.workers[j].now, s.workers[j].swept);
  }

  /** A step that changes neither table nor log. */
  lemma MoveInv(w: World, s: State, i: nat, p: Pc)
    requires Inv(w, s) && i < |s.workers| && !s.workers[i].Done?
    requires p.Sweeping? || p.Looking? || p.Inserting? ==> p.now <= s.time
    requires p.Looking? ==> p.swept <= |s.commits| && forall n :: n in s.nonces ==> s.nonces[n] > p.now
    requires p != Done(Registered) && MayMoveTo(w, s, i, p)
    ensures Inv(w, GoTo(s, i, p))
  {
    assert RowsAreCommits(GoTo(s, i, p));
    MoveKeepsSwept(s, i, p);
    MoveKeepsVerdicts(s, i, p);
    MoveKeepsLosers(w, s, i, p);
  }

  lemma SweepKeepsRows(s: State, now: int)
    requires RowsAreCommits(s)
    ensures RowsAreCommits(s.(nonces := Unexpired(s.nonces, now)))
  {
    var t := s.(nonces := Unexpired(s.nonces, now));
    forall n | n in t.nonces
      ensures exists k :: 0 <= k < |t.commits| && t.commits[k].nonce == n && t.commits[k].expires == t.nonces[n]
    {
      assert n in s.nonces;
    }
  }

  lemma SweepKeepsLosers(w: World, s: State, now: int)
    requires LosersWereBeaten(w, s)
    ensures LosersWereBeaten(w, s.(nonces := Unexpired(s.nonces, now)))
  {
    var t := s.(nonces := Unexpired(s.nonces, now));
    SameCommits(s, t);
  }

  lemma SweepKeepsSwept(s: State, now: int)
    requires SweptOk(s)
    ensures SweptOk(s.(nonces := Unexpired(s.nonces, now)))
  {
    var t := s.(nonces := Unexpired(s.nonces, now));
    SameCommits(s, t);
    assert forall j :: 0 <= j < |s.workers| && s.workers[j].Looking? ==> RowsOutlive(s, s.workers[j].now, s.workers[j].swept);
  }

  lemma SweepInv(w: World, s: State, i: nat)
    requires Inv(w, s) && i < |s.workers| && s.workers[i].Sweeping?
    ensures Inv(w, s.(nonces := Unexpired(s.nonces, s.workers[i].now)))
  {
    SweepKeepsRows(s, s.workers[i].now);
    SweepKeepsLosers(w, s, s.workers[i].now);
    SweepKeepsSwept(s, s.workers[i].now);
  }

  lemma InsertInv(w: World, s: State, i: nat)
    requires Inv(w, s) && i < |s.workers| && s.workers[i].Inserting?
    requires w.jobs[i].Register? && w.jobs[i].nonce !in s.nonces
    ensures Inv(w, InsertStep(w, s, i, w.jobs[i], s.workers[i].now, s.workers[i].seen))
  {
    var t := InsertStep(w, s, i, w.jobs[i], s.workers[i].now, s.workers[i].seen);
    InsertTable(w, s, i, t);
    InsertRows(w, s, i, t);
    InsertVerdicts(w, s, i, t);
    InsertLosers(w, s, i, t);
    InsertSwept(w, s, i, t);
  }

  lemma InsertTable(w: World, s: State, i: nat, t: State)
    requires Inv(w, s) && i < |s.workers| && s.workers[i].Inserting?
    requires w.jobs[i].Register? && w.jobs[i].nonce !in s.nonces
    requires t == InsertStep(w, s, i, w.jobs[i], s.workers[i].now, s.workers[i].seen)
    ensures KeptUntilExpiry(t) && ClocksPast(t) && RepeatsAreLate(t) && CommitsOk(w, t)
  {
  }

  lemma InsertRows(w: World, s: State, i: nat, t: State)
    requires RowsAreCommits(s) && i < |s.workers| == |w.jobs|
    requires w.jobs[i].Register? && w.jobs[i].nonce !in s.nonces && s.workers[i].Inserting?
    requires t == InsertStep(w, s, i, w.jobs[i], s.workers[i].now, s.workers[i].seen)
    ensures RowsAreCommits(t)
  {
    forall n | n in t.nonces
      ensures exists k :: 0 <= k < |t.commits| && t.commits[k].nonce == n && t.commits[k].expires == t.nonces[n]
    {
      if n == w.jobs[i].nonce {
        assert t.commits[|s.commits|].nonce == n;
      } else {
        var k :| 0 <= k < |s.commits| && s.commits[k].nonce == n && s.commits[k].expires == s.nonces[n];
        assert t.commits[k] == s.commits[k];
      }
    }
  }

  /** One more commit, by worker i. */
  predicate OneMoreCommit(s: State, t: State, i: nat) {
    && i < |s.workers| && t.workers == s.workers[i := Done(Registered)]
    && |t.commits| == |s.commits| + 1 && t.commits[..|s.commits|] == s.commits
    && t.commits[|s.commits|].worker == i
  }

  lemma OldCommits(s: State, t: State, i: nat)
    requires OneMoreCommit(s, t, i)
    ensures forall k :: 0 <= k < |s.commits| ==> t.commits[k] == s.commits[k]
  {
  }

  /** The first two parts of VerdictsOk; the third is WinnerCommitted. */
  lemma CommittersAreDone(s: State, t: State, i: nat)
    requires VerdictsOk(s) && i < |s.workers| && s.workers[i].Inserting? && OneMoreCommit(s, t, i)
    ensures forall k :: 0 <= k < |t.commits| ==>
      t.commits[k].worker < |t.workers| && t.workers[t.commits[k].worker] == Done(Registered)
    ensures forall j, k :: 0 <= j < k < |t.commits| ==> t.commits[j].worker != t.commits[k].worker
  {
    OldCommits(s, t, i);
    assert forall k :: 0 <= k < |s.commits| ==> s.commits[k].worker != i;
  }

  lemma InsertVerdicts(w: World, s: State, i: nat, t: State)
    requires VerdictsOk(s) && i < |s.workers| && s.workers[i].Inserting? && OneMoreCommit(s, t, i)
    ensures VerdictsOk(t)
  {
    CommittersAreDone(s, t, i);
    forall j | 0 <= j < |t.workers| && t.workers[j] == Done(Registered)
      ensures exists k :: 0 <= k < |t.commits| && t.commits[k].worker == j
    {
      WinnerCommitted(s, t, i, j);
    }
  }

  lemma WinnerCommitted(s: State, t: State, i: nat, j: nat)
    requires VerdictsOk(s) && OneMoreCommit(s, t, i) && j < |t.workers| && t.workers[j] == Done(Registered)
    ensures exists k :: 0 <= k < |t.commits| && t.commits[k].worker == j
  {
    if j == i {
      assert t.commits[|s.commits|].worker == j;
    } else {
      var k :| 0 <= k < |s.commits| && s.commits[k].worker == j;
      OldCommits(s, t, i);
      assert t.commits[k].worker == j;
    }
  }

  /** What was committed stays committed, and the new commit comes after everything seen before. */
  lemma CommitsLast(s: State, t: State, i: nat, nonce: string)
    requires OneMoreCommit(s, t, i) && t.commits[|s.commits|].nonce == nonce
    ensures forall n, seen: nat :: CommittedSince(s, n, seen) ==> CommittedSince(t, n, seen)
    ensures forall seen: nat :: seen <= |s.commits| ==> CommittedSince(t, nonce, seen)
    ensures forall n, now, swept: nat :: InTheWay(s, n, now, swept) ==> InTheWay(t, n, now, swept)
  {
    OldCommits(s, t, i);
    forall n, seen: nat | CommittedSince(s, n, seen)
      ensures CommittedSince(t, n, seen)
    {
      var k :| seen <= k < |s.commits| && s.commits[k].nonce == n;
      assert t.commits[k] == s.commits[k];
    }
    forall n, now, swept: nat | InTheWay(s, n, now, swept)
      ensures InTheWay(t, n, now, swept)
    {
      var k :| 0 <= k < |s.commits| && s.commits[k].nonce == n && (s.commits[k].expires > now || swept <= k);
      assert t.commits[k] == s.commits[k];
    }
    assert t.commits[|s.commits|].nonce == nonce;
  }

  lemma InsertLosers(w: World, s: State, i: nat, t: State)
    requires LosersWereBeaten(w, s) && i < |s.workers| == |w.jobs| && w.jobs[i].Register?
    requires OneMoreCommit(s, t, i) && t.commits[|s.commits|].nonce == w.jobs[i].nonce
    requires forall n :: n in t.nonces ==> n in s.nonces || n == w.jobs[i].nonce
    ensures LosersWereBeaten(w, t)
  {
    CommitsLast(s, t, i, w.jobs[i].nonce);
  }

  lemma InsertSwept(w: World, s: State, i: nat, t: State)
    requires SweptOk(s) && i < |s.workers| == |w.jobs| && w.jobs[i].Register?
    requires OneMoreCommit(s, t, i) && t.commits[|s.commits|].nonce == w.jobs[i].nonce
    requires forall n :: n in t.nonces ==> (n in s.nonces && t.nonces[n] == s.nonces[n]) || n == w.jobs[i].nonce
    ensures SweptOk(t)
  {
    CommitsLast(s, t, i, w.jobs[i].nonce);
    forall j | 0 <= j < |t.workers| && t.workers[j].Looking?
      ensures RowsOutlive(t, t.workers[j].now, t.workers[j].swept)
    {
      assert RowsOutlive(s, s.workers[j].now, s.workers[j].swept);
    }
  }

  /** A nonce found after the sweep is in the way. */
  lemma FoundIsInTheWay(s: State, i: nat, nonce: string)
    requires RowsAreCommits(s) && SweptOk(s) && i < |s.workers| && s.workers[i].Looking? && nonce in s.nonces
    ensures InTheWay(s, nonce, s.workers[i].now, s.workers[i].swept)
  {
    var p := s.workers[i];
    assert RowsOutlive(s, p.now, p.swept);
    if s.nonces[nonce] > p.now {
      var k :| 0 <= k < |s.commits| && s.commits[k].nonce == nonce && s.commits[k].expires == s.nonces[nonce];
    } else {
      var k :| p.swept <= k < |s.commits| && s.commits[k].nonce == nonce;
    }
  }

  lemma SweepStepInv(w: World, s: State, i: nat)
    requires Inv(w, s) && i < |s.workers| && s.workers[i].Sweeping?
    ensures Inv(w, Do(w, s, Run(i, false)))
  {
    SweepInv(w, s, i);
    var swept := s.(nonces := Unexpired(s.nonces, s.workers[i].now));
    MoveInv(w, swept, i, Do(w, s, Run(i, false)).workers[i]);
  }

  lemma LookStepInv(w: World, s: State, i: nat)
    requires Inv(w, s) && i < |s.workers| && s.workers[i].Looking?
    ensures Inv(w, Do(w, s, Run(i, false)))
  {
    if w.jobs[i].Register? && w.jobs[i].nonce in s.nonces {
      FoundIsInTheWay(s, i, w.jobs[i].nonce);
    }
    MoveInv(w, s, i, Do(w, s, Run(i, false)).workers[i]);
  }

  lemma InsertStepInv(w: World, s: State, i: nat)
    requires Inv(w, s) && i < |s.workers| && s.workers[i].Inserting?
    ensures Inv(w, Do(w, s, Run(i, false)))
  {
    if w.jobs[i].Register? && w.jobs[i].nonce !in s.nonces {
      InsertInv(w, s, i);
    } else {
      MoveInv(w, s, i, Do(w, s, Run(i, false)).workers[i]);
    }
  }

  lemma StepInv(w: World, s: State, e: Event)
    requires Inv(w, s) && Enabled(w, s, e)
    ensures Inv(w, Do(w, s, e))
  {
    if e.Tick? {
      assert Do(w, s, e) == s.(time := s.time + e.seconds);
      TickInv(w, s, Do(w, s, e));
    } else {
      var i := e.worker;
      assert e == Run(i, e.fault);
      if e.fault {
        MoveInv(w, s, i, Done(Faulted));
      } else {
        match s.workers[i]
        case Ready => MoveInv(w, s, i, Sweeping(s.time));
        case Sweeping(_) => SweepStepInv(w, s, i);
        case Looking(_, _) => LookStepInv(w, s, i);
        case Inserting(_, _) => InsertStepInv(w, s, i);
      }
    }
  }

  lemma {:induction false} RunInv(w: World, run: seq<State>, events: seq<Event>, n: nat)
    requires IsRun(w, run, events) && n < |run|
    ensures Inv(w, run[n])
  {
    if n == 0 {
      InitInv(w, run[0].time);
    } else {
      RunInv(w, run, events, n - 1);
      StepInv(w, run[n - 1], events[n - 1]);
    }
  }

  // ---------------------------------------------------------------------------------------------
  // Whole runs

  /** When one nonce is registered twice, the second insert commits no earlier than the first worker's
      captured clock plus its lifetime, however the workers interleave and however stale their clocks. */
  lemma SecondRegistrationIsLate(w: World, run: seq<State>, events: seq<Event>, n: nat, j: nat, k: nat)
    requires IsRun(w, run, events) && n < |run| && j < k < |run[n].commits|
    requires run[n].commits[j].nonce == run[n].commits[k].nonce
    ensures var first, second := run[n].commits[j], run[n].commits[k];
      && first.worker != second.worker && first.worker < |w.jobs| && w.jobs[first.worker].Register?
      && second.at >= first.now + TokenStore.Lifetime(w.jobs[first.worker].ttl, w.cfg.nonceTtl)
  {
    RunInv(w, run, events, n);
  }

  /** A worker reports success exactly when it committed a registration, and then it committed one. A
      primary-key conflict is never a success. */
  lemma SuccessIsOneCommit(w: World, run: seq<State>, events: seq<Event>, n: nat, i: nat)
    requires IsRun(w, run, events) && n < |run| && i < |run[n].workers|
    ensures run[n].workers[i] == Done(Registered) <==>
            exists k :: 0 <= k < |run[n].commits| && run[n].commits[k].worker == i
    ensures var commits := run[n].commits;
            forall j, k :: 0 <= j < k < |commits| ==> commits[j].worker != i || commits[k].worker != i
  {
    RunInv(w, run, events, n);
  }

  /** Nobody is turned away for nothing: a refusal is due to a registration that outlives the refused
      worker's clock reading or was committed after its sweep, and a conflict to one committed after the
      loser had looked. */
  lemma RefusalsAreJustified(w: World, run: seq<State>, events: seq<Event>, n: nat, i: nat)
    requires IsRun(w, run, events) && n < |run| && i < |run[n].workers| == |w.jobs|
    requires w.jobs[i].Register? && run[n].workers[i].Done?
    ensures run[n].workers[i].verdict.Refused? ==>
              InTheWay(run[n], w.jobs[i].nonce, run[n].workers[i].verdict.now, run[n].workers[i].verdict.swept)
    ensures run[n].workers[i].verdict.Conflict? ==> CommittedSince(run[n], w.jobs[i].nonce, run[n].workers[i].verdict.seen)
  {
    RunInv(w, run, events, n);
  }

  /** A worker left alone does what `register_nonce` does in one piece. */
  lemma AloneIsRegisterNonce(w: World, s: State, i: nat, tokens: map<string, int>)
    requires |s.workers| == |w.jobs| && i < |w.jobs| && w.jobs[i].Register? && s.workers[i].Ready?
    ensures var e := Run(i, false);
      && Enabled(w, s, e)
      && (var a := Do(w, s, e);
          && Enabled(w, a, e)
          && (var b := Do(w, a, e);
              && Enabled(w, b, e)
              && (var c := Do(w, b, e);
                  var tables := TokenStore.Tables(tokens, s.nonces);
                  var (ok, t) := TokenStore.RegisterNonce(w.cfg, tables, w.jobs[i].nonce, w.jobs[i].ttl, s.time);
                  if ok then Enabled(w, c, e) && Do(w, c, e).workers[i] == Done(Registered) && Do(w, c, e).nonces == t.nonces
                  else c.workers[i].Done? && c.workers[i].verdict.Refused? && c.nonces == t.nonces)))
  {
  }
}
