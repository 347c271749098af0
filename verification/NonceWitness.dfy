/** How far apart the commits of one nonce are kept: exactly its lifetime less the staleness of the clock
    the first was registered with. */
module NonceWitness {
  import opened Wrappers
  import opened NonceRace
  import TokenStore

  /** Every registration asks for the default lifetime. */
  ghost predicate DefaultLifetimes(w: World) {
    forall i :: 0 <= i < |w.jobs| && w.jobs[i].Register? ==> w.jobs[i].ttl.None?
  }

  /** Nobody commits more than `delay` seconds after reading the clock. */
  ghost predicate StaleBy(s: State, delay: int) {
    forall k :: 0 <= k < |s.commits| ==> s.commits[k].at <= s.commits[k].now + delay
  }

  ghost predicate CommitsApart(s: State, span: int) {
    forall j, k :: 0 <= j < k < |s.commits| && s.commits[j].nonce == s.commits[k].nonce ==>
      s.commits[j].at + span <= s.commits[k].at
  }

  /** In every run with such clocks the commits of one nonce are `span` apart. */
  ghost predicate KeepsApart(cfg: TokenStore.Settings, delay: int, span: int) {
    forall w: World, run, events, n: nat ::
      w.cfg == cfg && DefaultLifetimes(w) && IsRun(w, run, events) && n < |run| && StaleBy(run[n], delay) ==>
        CommitsApart(run[n], span)
  }

  /** Commits are logged in the order of time. */
  ghost predicate InOrder(s: State) {
    && (forall j, k :: 0 <= j < k < |s.commits| ==> s.commits[j].at <= s.commits[k].at)
    && (forall k :: 0 <= k < |s.commits| ==> s.commits[k].at <= s.time)
  }

  lemma StepInOrder(w: World, s: State, e: Event)
    requires |s.workers| == |w.jobs| && Enabled(w, s, e) && InOrder(s)
    ensures InOrder(Do(w, s, e))
  {
  }

  lemma {:induction false} RunInOrder(w: World, run: seq<State>, events: seq<Event>, n: nat)
    requires IsRun(w, run, events) && n < |run|
    ensures InOrder(run[n])
  {
    if n > 0 {
      RunInOrder(w, run, events, n - 1);
      StepInOrder(w, run[n - 1], events[n - 1]);
    }
  }

  lemma {:induction false} KeptApart(w: World, run: seq<State>, events: seq<Event>, n: nat, delay: int, span: int)
    requires IsRun(w, run, events) && n < |run| && DefaultLifetimes(w) && StaleBy(run[n], delay)
    requires span <= 0 || span <= w.cfg.nonceTtl - delay
    ensures CommitsApart(run[n], span)
  {
    RunInOrder(w, run, events, n);
    var commits := run[n].commits;
    forall j, k | 0 <= j < k < |commits| && commits[j].nonce == commits[k].nonce
      ensures commits[j].at + span <= commits[k].at
    {
      SecondRegistrationIsLate(w, run, events, n, j, k);
    }
  }

  // ---------------------------------------------------------------------------------------------
  // The bound is attained

  const NONCE: string := "n"

  function Two(cfg: TokenStore.Settings): World { World(cfg, [Register(NONCE, None), Register(NONCE, None)]) }

  function First(ttl: int, d: int): Commit { Commit(0, NONCE, 0, ttl, d) }

  function Second(ttl: int): Commit { Commit(1, NONCE, ttl, ttl + ttl, ttl) }

  /** The first worker commits d seconds after its clock reading; the second starts when the first
      registration has just expired. */
  function History(ttl: int, d: int): seq<State> {
    [ State(0, map[], [], [Ready, Ready]),
      State(0, map[], [], [Sweeping(0), Ready]),
      State(0, map[], [], [Looking(0, 0), Ready]),
      State(0, map[], [], [Inserting(0, 0), Ready]),
      State(d, map[], [], [Inserting(0, 0), Ready]),
      State(d, map[NONCE := ttl], [First(ttl, d)], [Done(Registered), Ready]),
      State(ttl, map[NONCE := ttl], [First(ttl, d)], [Done(Registered), Ready]),
      State(ttl, map[NONCE := ttl], [First(ttl, d)], [Done(Registered), Sweeping(ttl)]),
      State(ttl, map[], [First(ttl, d)], [Done(Registered), Looking(ttl, 1)]),
      State(ttl, map[], [First(ttl, d)], [Done(Registered), Inserting(ttl, 1)]),
      State(ttl, map[NONCE := ttl + ttl], [First(ttl, d), Second(ttl)], [Done(Registered), Done(Registered)]) ]
  }

  function Schedule(ttl: int, d: int): seq<Event>
    requires 0 <= d <= ttl
  {
    [ Run(0, false), Run(0, false), Run(0, false), Tick(d), Run(0, false), Tick(ttl - d),
      Run(1, false), Run(1, false), Run(1, false), Run(1, false) ]
  }

  ghost predicate Follows(cfg: TokenStore.Settings, d: int, i: nat)
    requires 0 <= d <= cfg.nonceTtl && i < 10
  {
    var s, e := History(cfg.nonceTtl, d)[i], Schedule(cfg.nonceTtl, d)[i];
    |s.workers| == 2 && Enabled(Two(cfg), s, e) && History(cfg.nonceTtl, d)[i + 1] == Do(Two(cfg), s, e)
  }

  lemma FirstWorker(cfg: TokenStore.Settings, d: int)
    requires 0 <= d <= cfg.nonceTtl
    ensures Follows(cfg, d, 0) && Follows(cfg, d, 1) && Follows(cfg, d, 2)
  {
    var none: map<string, int> := map[];
    assert Unexpired(none, 0) == none;
  }

  lemma SecondWorker(cfg: TokenStore.Settings, d: int)
    requires 0 <= d <= cfg.nonceTtl
    ensures Follows(cfg, d, 6) && Follows(cfg, d, 7)
  {
    assert Unexpired(map[NONCE := cfg.nonceTtl], cfg.nonceTtl) == map[];
  }

  lemma SecondCommits(cfg: TokenStore.Settings, d: int)
    requires 0 <= d <= cfg.nonceTtl
    ensures Follows(cfg, d, 8) && Follows(cfg, d, 9)
  {
    var ttl := cfg.nonceTtl;
    assert [First(ttl, d)] + [Second(ttl)] == [First(ttl, d), Second(ttl)];
  }

  lemma LateCommit(cfg: TokenStore.Settings, d: int)
    requires 0 <= d <= cfg.nonceTtl
    ensures IsRun(Two(cfg), History(cfg.nonceTtl, d), Schedule(cfg.nonceTtl, d))
  {
    var run, events := History(cfg.nonceTtl, d), Schedule(cfg.nonceTtl, d);
    assert run[0] == Init(Two(cfg), 0);
    forall i | 0 <= i < |events|
      ensures |run[i].workers| == 2 && Enabled(Two(cfg), run[i], events[i]) && run[i + 1] == Do(Two(cfg), run[i], events[i])
    {
      assert Follows(cfg, d, i) by {
        if i < 3 { FirstWorker(cfg, d); }
        else if i < 6 { assert [Inserting(0, 0), Ready][0 := Done(Registered)] == [Done(Registered), Ready]; }
        else if i < 8 { SecondWorker(cfg, d); }
        else { SecondCommits(cfg, d); }
      }
    }
  }

  /** With clock readings at most `delay` seconds old at the commit, commits of one nonce are kept apart by
      exactly its lifetime less that delay; by the whole lifetime exactly if no reading is stale. */
  lemma LifetimeSpanIsExact(cfg: TokenStore.Settings, delay: int, span: int)
    requires cfg.nonceTtl >= 0 && delay >= 0
    ensures KeepsApart(cfg, delay, span) <==> span <= 0 || span <= cfg.nonceTtl - delay
  {
    if span <= 0 || span <= cfg.nonceTtl - delay {
      forall w: World, run, events, n: nat | w.cfg == cfg && DefaultLifetimes(w) && IsRun(w, run, events) && n < |run| && StaleBy(run[n], delay)
        ensures CommitsApart(run[n], span)
      {
        KeptApart(w, run, events, n, delay, span);
      }
    } else {
      var d := Min(delay, cfg.nonceTtl);
      LateCommit(cfg, d);
      var run := History(cfg.nonceTtl, d);
      assert run[10].commits[0] == First(cfg.nonceTtl, d) && run[10].commits[1] == Second(cfg.nonceTtl);
      assert !CommitsApart(run[10], span);
      assert IsRun(Two(cfg), run, Schedule(cfg.nonceTtl, d)) && DefaultLifetimes(Two(cfg)) && StaleBy(run[10], delay);
    }
  }
}
