/** Any number of `forgot_password` and `reset_password` requests at once (app/identity/routes.py:216-244).

    The two routes run in threads. Each reads its row with one SELECT and writes it with one UPDATE by
    primary key and a commit; a committed write is one step, and anything may happen between the two.
    Either statement may raise instead. */
module ResetRace {
  import opened Wrappers
  import opened Counting
  import PasswordReset

  type User = PasswordReset.User
  type Crypto = PasswordReset.Crypto

  datatype Job = Forget(email: string) | Renew(token: string, password: string)

  /** `writesAll`: an UPDATE writes every assigned column. SQLAlchemy's leaves out those that were assigned
      the value they were read with. */
  datatype World = World(c: Crypto, writesAll: bool, jobs: seq<Job>)

  /** Where a request is: before its SELECT, between SELECT and commit, or at its end. `seen` counts what
      had been logged at the SELECT. A salted hash is never the one that was read. */
  datatype Pc =
    | Ready
    | Storing(user: nat, read: User, utc: real)
    | Renewing(user: nat, token: string, password: string, seen: nat)
    | Done(success: bool)

  /** A committed write of a token, or a committed reset with one. */
  datatype Commit =
    | Stored(worker: nat, user: nat, token: string)
    | Spent(worker: nat, user: nat, token: string, seen: nat)

  datatype State = State(users: seq<User>, log: seq<Commit>, workers: seq<Pc>)

  datatype Event =
    | Register(id: string, email: string, passwordHash: string)
    | Run(worker: nat, utc: real)
    | Fault(worker: nat)

  function Initial(w: World): State { State([], [], seq(|w.jobs|, i => Ready)) }

  function Select(w: World, s: State, job: Job, utc: real): Pc {
    match job
    case Forget(email) =>
      var k := PasswordReset.ByEmail(s.users, email);
      if k == |s.users| then Done(false) else Storing(k, s.users[k], utc)
    case Renew(token, password) =>
      match PasswordReset.MayReset(w.c, s.users, token, utc)
      case None => Done(false)
      case Some(k) => Renewing(k, token, password, |s.log|)
  }

  function Column<T(==)>(w: World, read: T, value: T, stored: T): T {
    if w.writesAll then value else Assigned(read, value, stored)
  }

  /** The commit of `forgot_password`; it stores a token if its UPDATE writes that column. */
  function StoreStep(w: World, s: State, i: nat, k: nat, read: User, utc: real): State
    requires k < |s.users| && i < |s.workers|
  {
    var token, u := PasswordReset.NewToken(w.c, read.id, utc), s.users[k];
    State(s.users[k := u.(resetToken := Column(w, read.resetToken, Some(token), u.resetToken),
                          resetExpiresAt := Column(w, read.resetExpiresAt, Some(utc + PasswordReset.LIFETIME), u.resetExpiresAt))],
          s.log + (if w.writesAll || read.resetToken != Some(token) then [Stored(i, k, token)] else []),
          s.workers[i := Done(true)])
  }

  /** The commit of `reset_password`, whatever is stored by now. */
  function RenewStep(w: World, s: State, i: nat, k: nat, token: string, password: string, seen: nat): State
    requires k < |s.users| && i < |s.workers|
  {
    State(s.users[k := PasswordReset.Renewed(w.c, s.users[k], password)],
          s.log + [Spent(i, k, token, seen)],
          s.workers[i := Done(true)])
  }

  function RunStep(w: World, s: State, i: nat, utc: real): State
    requires i < |s.workers| == |w.jobs|
  {
    match s.workers[i]
    case Ready => s.(workers := s.workers[i := Select(w, s, w.jobs[i], utc)])
    case Storing(k, read, at) => if k < |s.users| then StoreStep(w, s, i, k, read, at) else s
    case Renewing(k, token, password, seen) => if k < |s.users| then RenewStep(w, s, i, k, token, password, seen) else s
    case Done(_) => s
  }

  /** An event that cannot happen changes nothing. */
  function Step(w: World, s: State, e: Event): State {
    match e
    case Register(id, email, hash) =>
      if id == "" || PasswordReset.Taken(s.users, id, email) then s
      else s.(users := s.users + [PasswordReset.User(id, email, hash, None, None)])
    case Run(i, utc) => if i < |s.workers| == |w.jobs| then RunStep(w, s, i, utc) else s
    case Fault(i) => if i < |s.workers| && !s.workers[i].Done? then s.(workers := s.workers[i := Done(false)]) else s
  }

  function From(w: World, s: State, es: seq<Event>): State {
    if es == [] then s else Step(w, From(w, s, es[..|es| - 1]), es[|es| - 1])
  }

  function After(w: World, es: seq<Event>): State { From(w, Initial(w), es) }

  // ---------------------------------------------------------------------------------------------
  // Invariant

  /** A token made for this subject, with whatever expiry. */
  ghost predicate MadeFor(c: Crypto, token: string, id: string) { exists x :: token == c.encode(id, x) }

  ghost predicate UsersOk(c: Crypto, users: seq<User>) {
    && (forall k :: 0 <= k < |users| ==> users[k].id != "")
    && (forall k :: 0 <= k < |users| && users[k].resetToken.Some? ==> MadeFor(c, users[k].resetToken.value, users[k].id))
    && (forall j, k :: 0 <= j < k < |users| ==> users[j].id != users[k].id && users[j].email != users[k].email)
  }

  predicate IsStored(x: Commit, token: string) { x.Stored? && x.token == token }

  predicate IsSpent(x: Commit, token: string) { x.Spent? && x.token == token }

  ghost predicate StoredAfter(log: seq<Commit>, token: string, j: int, upto: nat) {
    exists m :: j < m < upto && 0 <= m < |log| && IsStored(log[m], token)
  }

  /** Each reset among the first commits was followed, among them, by a new storing of its token. */
  ghost predicate Refreshed(log: seq<Commit>, token: string, upto: nat) {
    forall j :: 0 <= j < upto && j < |log| && IsSpent(log[j], token) ==> StoredAfter(log, token, j, upto)
  }

  ghost predicate WorkerOk(c: Crypto, s: State, p: Pc) {
    && (p.Storing? ==> p.user < |s.users| && p.read.id == s.users[p.user].id)
    && (p.Renewing? ==>
          && p.user < |s.users| && MadeFor(c, p.token, s.users[p.user].id)
          && p.seen <= |s.log| && Refreshed(s.log, p.token, p.seen))
  }

  ghost predicate CommitOk(c: Crypto, s: State, k: nat)
    requires k < |s.log|
  {
    var x := s.log[k];
    && x.user < |s.users| && MadeFor(c, x.token, s.users[x.user].id)
    && (x.Spent? ==> x.seen <= k && Refreshed(s.log, x.token, x.seen))
  }

  /** A token that is stored now was stored after its last reset. */
  ghost predicate StoredOk(s: State) {
    forall token :: PasswordReset.Stored(s.users, token) ==> Refreshed(s.log, token, |s.log|)
  }

  ghost predicate Inv(w: World, s: State) {
    && |s.workers| == |w.jobs|
    && UsersOk(w.c, s.users)
    && (forall i :: 0 <= i < |s.workers| ==> WorkerOk(w.c, s, s.workers[i]))
    && (forall k :: 0 <= k < |s.log| ==> CommitOk(w.c, s, k))
    && StoredOk(s)
  }

  /** Refreshed looks at the first commits only. */
  lemma RefreshedLasts(log: seq<Commit>, more: seq<Commit>, token: string, upto: nat)
    requires upto <= |log|
    ensures Refreshed(log + more, token, upto) <==> Refreshed(log, token, upto)
  {
    var log' := log + more;
    assert forall j :: 0 <= j < |log| ==> log'[j] == log[j];
    forall j: nat | j < upto
      ensures StoredAfter(log', token, j, upto) <==> StoredAfter(log, token, j, upto)
    {
      if StoredAfter(log, token, j, upto) {
        var m :| j < m < upto && 0 <= m < |log| && IsStored(log[m], token);
        assert IsStored(log'[m], token);
      }
      if StoredAfter(log', token, j, upto) {
        var m :| j < m < upto && 0 <= m < |log'| && IsStored(log'[m], token);
        assert IsStored(log[m], token);
      }
    }
  }

  /** One more storing refreshes its token; other tokens are not touched by it. */
  lemma StoringRefreshes(log: seq<Commit>, x: Commit, token: string)
    requires x.Stored? && (x.token == token || Refreshed(log, token, |log|))
    ensures Refreshed(log + [x], token, |log| + 1)
  {
    var log' := log + [x];
    forall j | 0 <= j < |log'| && IsSpent(log'[j], token)
      ensures StoredAfter(log', token, j, |log'|)
    {
      if x.token == token {
        assert IsStored(log'[|log|], token);
      } else {
        var m :| j < m < |log| && IsStored(log[m], token);
        assert IsStored(log'[m], token);
      }
    }
  }

  lemma OthersStayRefreshed(log: seq<Commit>, x: Commit, token: string)
    requires x.token != token && Refreshed(log, token, |log|)
    ensures Refreshed(log + [x], token, |log| + 1)
  {
    var log' := log + [x];
    forall j | 0 <= j < |log'| && IsSpent(log'[j], token)
      ensures StoredAfter(log', token, j, |log'|)
    {
      assert IsSpent(log[j], token);
      var m :| j < m < |log| && IsStored(log[m], token);
      assert IsStored(log'[m], token);
    }
  }

  /** Rows keep their owner, and the log only grows. */
  predicate Grows(s: State, t: State, more: seq<Commit>) {
    && |s.users| <= |t.users| && (forall k :: 0 <= k < |s.users| ==> t.users[k].id == s.users[k].id)
    && t.log == s.log + more
  }

  lemma WorkerStaysOk(c: Crypto, s: State, t: State, more: seq<Commit>, p: Pc)
    requires WorkerOk(c, s, p) && Grows(s, t, more)
    ensures WorkerOk(c, t, p)
  {
    if p.Renewing? { RefreshedLasts(s.log, more, p.token, p.seen); }
  }

  lemma CommitStaysOk(c: Crypto, s: State, t: State, more: seq<Commit>, k: nat)
    requires k < |s.log| && CommitOk(c, s, k) && Grows(s, t, more)
    ensures CommitOk(c, t, k)
  {
    assert t.log[k] == s.log[k];
    if s.log[k].Spent? { RefreshedLasts(s.log, more, s.log[k].token, s.log[k].seen); }
  }

  /** What is left to show for a step of one worker: its own place, its own commit, and the table. */
  lemma StepKeeps(w: World, s: State, t: State, more: seq<Commit>, i: nat)
    requires Inv(w, s) && Grows(s, t, more) && i < |s.workers| && |more| <= 1
    requires |t.workers| == |s.workers| && t.workers == s.workers[i := t.workers[i]]
    requires UsersOk(w.c, t.users) && StoredOk(t) && WorkerOk(w.c, t, t.workers[i])
    requires more != [] ==> CommitOk(w.c, t, |s.log|)
    ensures Inv(w, t)
  {
    forall j | 0 <= j < |t.workers|
      ensures WorkerOk(w.c, t, t.workers[j])
    {
      if j != i { WorkerStaysOk(w.c, s, t, more, s.workers[j]); }
    }
    forall k | 0 <= k < |t.log|
      ensures CommitOk(w.c, t, k)
    {
      if k < |s.log| { CommitStaysOk(w.c, s, t, more, k); }
    }
  }

  lemma SelectInv(w: World, s: State, i: nat, utc: real)
    requires Inv(w, s) && i < |s.workers| && s.workers[i].Ready?
    ensures Inv(w, RunStep(w, s, i, utc))
  {
    var t := RunStep(w, s, i, utc);
    var p := t.workers[i];
    if p.Renewing? {
      assert PasswordReset.Stored(s.users, p.token);
      assert s.users[p.user].resetToken == Some(p.token);
    }
    assert StoredOk(t);
    assert t.log == s.log + [];
    StepKeeps(w, s, t, [], i);
  }

  lemma FaultInv(w: World, s: State, i: nat)
    requires Inv(w, s) && i < |s.workers|
    ensures Inv(w, s.(workers := s.workers[i := Done(false)]))
  {
    var t := s.(workers := s.workers[i := Done(false)]);
    assert StoredOk(t);
    assert t.log == s.log + [];
    StepKeeps(w, s, t, [], i);
  }

  lemma RegisterInv(w: World, s: State, u: User)
    requires Inv(w, s) && u.id != "" && u.resetToken.None? && !PasswordReset.Taken(s.users, u.id, u.email)
    ensures Inv(w, s.(users := s.users + [u]))
  {
    var t := s.(users := s.users + [u]);
    assert t.log == s.log + [];
    forall j | 0 <= j < |t.workers| ensures WorkerOk(w.c, t, t.workers[j]) { WorkerStaysOk(w.c, s, t, [], s.workers[j]); }
    forall k | 0 <= k < |t.log| ensures CommitOk(w.c, t, k) { CommitStaysOk(w.c, s, t, [], k); }
    forall token | PasswordReset.Stored(t.users, token)
      ensures Refreshed(t.log, token, |t.log|)
    {
      var k :| 0 <= k < |t.users| && t.users[k].resetToken == Some(token);
      assert s.users[k].resetToken == Some(token);
      assert PasswordReset.Stored(s.users, token);
    }
  }

  /** What a storing leaves in the table: its own token, or what was there. */
  lemma StoreColumns(w: World, s: State, i: nat, k: nat, read: User, utc: real)
    requires k < |s.users| && i < |s.workers|
    ensures var t, token := StoreStep(w, s, i, k, read, utc), PasswordReset.NewToken(w.c, read.id, utc);
      && Grows(s, t, t.log[|s.log|..]) && |t.log[|s.log|..]| <= 1
      && (|| (t.log == s.log && t.users[k].resetToken == s.users[k].resetToken)
          || (t.log == s.log + [Stored(i, k, token)] && t.users[k].resetToken == Some(token)))
  {
  }

  lemma StoreInv(w: World, s: State, i: nat, utc: real)
    requires Inv(w, s) && i < |s.workers| && s.workers[i].Storing?
    ensures Inv(w, RunStep(w, s, i, utc))
  {
    var p := s.workers[i];
    assert WorkerOk(w.c, s, p);
    var t, token := StoreStep(w, s, i, p.user, p.read, p.utc), PasswordReset.NewToken(w.c, p.read.id, p.utc);
    StoreColumns(w, s, i, p.user, p.read, p.utc);
    assert MadeFor(w.c, token, t.users[p.user].id);
    forall x | PasswordReset.Stored(t.users, x)
      ensures Refreshed(t.log, x, |t.log|)
    {
      var k :| 0 <= k < |t.users| && t.users[k].resetToken == Some(x);
      if t.log == s.log {
        assert s.users[k].resetToken == Some(x);
        assert PasswordReset.Stored(s.users, x);
      } else {
        if x != token {
          assert s.users[k].resetToken == Some(x);
          assert PasswordReset.Stored(s.users, x);
        }
        StoringRefreshes(s.log, Stored(i, p.user, token), x);
      }
    }
    StepKeeps(w, s, t, t.log[|s.log|..], i);
  }

  /** No other row can hold a token made for this one's owner. */
  lemma OneOwner(c: Crypto, users: seq<User>, token: string, k: nat, j: nat)
    requires PasswordReset.RoundTrip(c) && UsersOk(c, users) && k < |users| && j < |users|
    requires MadeFor(c, token, users[k].id) && users[j].resetToken == Some(token)
    ensures j == k
  {
    var x :| token == c.encode(users[k].id, x);
    var y :| token == c.encode(users[j].id, y);
    PasswordReset.TokensNameTheirSubject(c, users[k].id, x, users[j].id, y);
  }

  lemma RenewClears(w: World, s: State, i: nat)
    requires PasswordReset.RoundTrip(w.c) && Inv(w, s) && i < |s.workers| && s.workers[i].Renewing?
    ensures var p := s.workers[i];
      && p.user < |s.users|
      && !PasswordReset.Stored(RenewStep(w, s, i, p.user, p.token, p.password, p.seen).users, p.token)
  {
    var p := s.workers[i];
    assert WorkerOk(w.c, s, p);
    var t := RenewStep(w, s, i, p.user, p.token, p.password, p.seen);
    if PasswordReset.Stored(t.users, p.token) {
      var j :| 0 <= j < |t.users| && t.users[j].resetToken == Some(p.token);
      assert s.users[j].resetToken == Some(p.token);
      OneOwner(w.c, s.users, p.token, p.user, j);
    }
  }

  lemma RenewInv(w: World, s: State, i: nat, utc: real)
    requires PasswordReset.RoundTrip(w.c) && Inv(w, s) && i < |s.workers| && s.workers[i].Renewing?
    ensures Inv(w, RunStep(w, s, i, utc))
  {
    var p := s.workers[i];
    assert WorkerOk(w.c, s, p);
    var t, x := RenewStep(w, s, i, p.user, p.token, p.password, p.seen), Spent(i, p.user, p.token, p.seen);
    RenewClears(w, s, i);
    RefreshedLasts(s.log, [x], p.token, p.seen);
    forall token | PasswordReset.Stored(t.users, token)
      ensures Refreshed(t.log, token, |t.log|)
    {
      var k :| 0 <= k < |t.users| && t.users[k].resetToken == Some(token);
      assert s.users[k].resetToken == Some(token);
      assert PasswordReset.Stored(s.users, token);
      OthersStayRefreshed(s.log, x, token);
    }
    StepKeeps(w, s, t, [x], i);
  }

  lemma StepInv(w: World, s: State, e: Event)
    requires PasswordReset.RoundTrip(w.c) && Inv(w, s)
    ensures Inv(w, Step(w, s, e))
  {
    match e
    case Register(id, email, hash) =>
      if id != "" && !PasswordReset.Taken(s.users, id, email) {
        RegisterInv(w, s, PasswordReset.User(id, email, hash, None, None));
      }
    case Run(i, utc) =>
      if i < |s.workers| {
        match s.workers[i]
        case Ready => SelectInv(w, s, i, utc);
        case Storing(_, _, _) => StoreInv(w, s, i, utc);
        case Renewing(_, _, _, _) => RenewInv(w, s, i, utc);
        case Done(_) =>
      }
    case Fault(i) =>
      if i < |s.workers| { FaultInv(w, s, i); }
  }

  lemma {:induction false} RunInv(w: World, es: seq<Event>)
    requires PasswordReset.RoundTrip(w.c)
    ensures Inv(w, After(w, es))
  {
    if es != [] {
      RunInv(w, es[..|es| - 1]);
      StepInv(w, After(w, es[..|es| - 1]), es[|es| - 1]);
    }
  }

  /** However requests overlap, a stored token was made for its own user: until some expiry it decodes to
      that user, and from then on to nobody. */
  lemma {:induction false} StoredTokenNamesItsUser(w: World, es: seq<Event>, k: nat) returns (expires: int)
    requires PasswordReset.RoundTrip(w.c) && k < |After(w, es).users| && After(w, es).users[k].resetToken.Some?
    ensures var u := After(w, es).users[k];
      forall now :: w.c.decode(u.resetToken.value, now) == if now < expires as real then Some(u.id) else None
  {
    RunInv(w, es);
    var u := After(w, es).users[k];
    assert MadeFor(w.c, u.resetToken.value, u.id);
    expires :| u.resetToken.value == w.c.encode(u.id, expires);
  }

  // ---------------------------------------------------------------------------------------------
  // Overlapping resets

  /** Two resets with one token and no storing of it in between overlapped: the second had made its
      SELECT before the first committed. */
  lemma {:induction false} UnrefreshedResetsOverlap(w: World, es: seq<Event>, j: nat, k: nat)
    requires PasswordReset.RoundTrip(w.c)
    requires j < k < |After(w, es).log| && After(w, es).log[j].Spent? && IsSpent(After(w, es).log[k], After(w, es).log[j].token)
    requires !StoredAfter(After(w, es).log, After(w, es).log[j].token, j, k)
    ensures After(w, es).log[k].seen <= j
  {
    RunInv(w, es);
    assert CommitOk(w.c, After(w, es), k);
  }

  function OpenFor(token: string): Pc -> nat { (p: Pc) => if p.Renewing? && p.token == token then 1 else 0 }

  function SpentFor(token: string): Commit -> nat { (x: Commit) => if IsSpent(x, token) then 1 else 0 }

  function StoredFor(token: string): Commit -> nat { (x: Commit) => if IsStored(x, token) then 1 else 0 }

  /** Resets with the token between SELECT and commit. */
  function Open(s: State, token: string): nat { Sum(OpenFor(token), s.workers) }

  function Successes(s: State, token: string): nat { Sum(SpentFor(token), s.log) }

  function Storings(s: State, token: string): nat { Sum(StoredFor(token), s.log) }

  /** At no time were more than n resets with the token open. */
  ghost predicate OpenWithin(w: World, es: seq<Event>, token: string, n: nat) {
    Open(After(w, es), token) <= n && (es != [] ==> OpenWithin(w, es[..|es| - 1], token, n))
  }

  /** A stored token has n successes to give; otherwise only the open resets can still succeed. */
  ghost predicate Budget(s: State, token: string, n: nat) {
    Successes(s, token) + (if PasswordReset.Stored(s.users, token) then n else Open(s, token)) <= n * Storings(s, token)
  }

  lemma WorkerMoves(s: State, i: nat, p: Pc, token: string)
    requires i < |s.workers|
    ensures Sum(OpenFor(token), s.workers[i := p]) + OpenFor(token)(s.workers[i]) == Open(s, token) + OpenFor(token)(p)
  {
    SumUpdate(OpenFor(token), s.workers, i, p);
  }

  lemma SelectBudget(w: World, s: State, i: nat, utc: real, token: string, n: nat)
    requires i < |s.workers| == |w.jobs| && s.workers[i].Ready? && Budget(s, token, n)
    ensures Budget(RunStep(w, s, i, utc), token, n)
  {
    var p := Select(w, s, w.jobs[i], utc);
    WorkerMoves(s, i, p, token);
    if p.Renewing? { assert s.users[p.user].resetToken == Some(p.token); }
  }

  /** The storing of `mine` by task i, seen from a token. */
  lemma StoreBudget(w: World, s: State, i: nat, utc: real, token: string, n: nat)
    requires Inv(w, s) && i < |s.workers| && s.workers[i].Storing? && Budget(s, token, n) && Open(s, token) <= n
    ensures Budget(RunStep(w, s, i, utc), token, n)
  {
    var p := s.workers[i];
    assert WorkerOk(w.c, s, p);
    var t, mine := StoreStep(w, s, i, p.user, p.read, p.utc), PasswordReset.NewToken(w.c, p.read.id, p.utc);
    StoreColumns(w, s, i, p.user, p.read, p.utc);
    WorkerMoves(s, i, Done(true), token);
    assert Open(t, token) == Open(s, token);
    if t.log == s.log {
      StoreMayReplace(s, t, p.user, mine, token);
    } else {
      LogGrows(s, t, Stored(i, p.user, mine), token);
      if mine == token { OneMoreStoring(s, t, token, n); } else { StoreMayReplace(s, t, p.user, mine, token); }
    }
  }

  lemma LogGrows(s: State, t: State, x: Commit, token: string)
    requires t.log == s.log + [x]
    ensures Successes(t, token) == Successes(s, token) + SpentFor(token)(x)
    ensures Storings(t, token) == Storings(s, token) + StoredFor(token)(x)
  {
    SumAppend(SpentFor(token), s.log, x);
    SumAppend(StoredFor(token), s.log, x);
  }

  lemma OneMoreStoring(s: State, t: State, token: string, n: nat)
    requires Budget(s, token, n) && Open(t, token) <= n
    requires Successes(t, token) == Successes(s, token) && Storings(t, token) == Storings(s, token) + 1
    ensures Budget(t, token, n)
  {
    assert n * Storings(t, token) == n * Storings(s, token) + n;
  }

  /** Another token may be overwritten, but is not brought back. */
  lemma StoreMayReplace(s: State, t: State, k: nat, mine: string, token: string)
    requires k < |s.users| && |t.users| == |s.users| && (forall j :: 0 <= j < |s.users| && j != k ==> t.users[j] == s.users[j])
    requires t.users[k].resetToken == s.users[k].resetToken || (mine != token && t.users[k].resetToken == Some(mine))
    ensures PasswordReset.Stored(t.users, token) ==> PasswordReset.Stored(s.users, token)
  {
    if PasswordReset.Stored(t.users, token) {
      var j :| 0 <= j < |t.users| && t.users[j].resetToken == Some(token);
      assert s.users[j].resetToken == Some(token);
    }
  }

  lemma RenewBudget(w: World, s: State, i: nat, utc: real, token: string, n: nat)
    requires PasswordReset.RoundTrip(w.c) && Inv(w, s) && i < |s.workers| && s.workers[i].Renewing?
    requires Budget(s, token, n) && Open(s, token) <= n
    ensures Budget(RunStep(w, s, i, utc), token, n)
  {
    var p := s.workers[i];
    assert WorkerOk(w.c, s, p);
    var t, x := RenewStep(w, s, i, p.user, p.token, p.password, p.seen), Spent(i, p.user, p.token, p.seen);
    WorkerMoves(s, i, Done(true), token);
    LogGrows(s, t, x, token);
    RenewClears(w, s, i);
    if PasswordReset.Stored(t.users, token) {
      var j :| 0 <= j < |t.users| && t.users[j].resetToken == Some(token);
      assert s.users[j].resetToken == Some(token);
    }
  }

  lemma QuietBudget(w: World, s: State, e: Event, token: string, n: nat)
    requires !e.Run? && Budget(s, token, n) && Open(s, token) <= n
    ensures Budget(Step(w, s, e), token, n)
  {
    var t := Step(w, s, e);
    if e.Fault? && e.worker < |s.workers| { WorkerMoves(s, e.worker, Done(false), token); }
    if PasswordReset.Stored(t.users, token) {
      var j :| 0 <= j < |t.users| && t.users[j].resetToken == Some(token);
      assert s.users[j].resetToken == Some(token);
    }
    if PasswordReset.Stored(s.users, token) {
      var j :| 0 <= j < |s.users| && s.users[j].resetToken == Some(token);
      assert t.users[j].resetToken == Some(token);
    }
  }

  lemma StepBudget(w: World, s: State, e: Event, token: string, n: nat)
    requires PasswordReset.RoundTrip(w.c) && Inv(w, s) && Budget(s, token, n) && Open(s, token) <= n
    ensures Budget(Step(w, s, e), token, n)
  {
    if !e.Run? {
      QuietBudget(w, s, e, token, n);
    } else if e.worker < |s.workers| {
      match s.workers[e.worker]
      case Ready => SelectBudget(w, s, e.worker, e.utc, token, n);
      case Storing(_, _, _) => StoreBudget(w, s, e.worker, e.utc, token, n);
      case Renewing(_, _, _, _) => RenewBudget(w, s, e.worker, e.utc, token, n);
      case Done(_) =>
    }
  }

  lemma {:induction false} RunBudget(w: World, es: seq<Event>, token: string, n: nat)
    requires PasswordReset.RoundTrip(w.c) && OpenWithin(w, es, token, n)
    ensures Budget(After(w, es), token, n)
  {
    if es == [] {
      SumNone(OpenFor(token), Initial(w).workers);
    } else {
      var front := es[..|es| - 1];
      RunBudget(w, front, token, n);
      RunInv(w, front);
      StepBudget(w, After(w, front), es[|es| - 1], token, n);
    }
  }

  /** In every run with at most n resets of a token open at once, it resets at most n passwords for each
      time it was stored. */
  lemma {:induction false} SuccessesPerStoring(w: World, es: seq<Event>, token: string, n: nat)
    requires PasswordReset.RoundTrip(w.c) && OpenWithin(w, es, token, n)
    ensures Successes(After(w, es), token) <= n * Storings(After(w, es), token)
  {
    RunBudget(w, es, token, n);
  }

  // ---------------------------------------------------------------------------------------------
  // One request left alone

  /** SELECT and commit with nothing in between are `Forgot` and `Reset`, however UPDATEs are written. */
  lemma AloneIsSequential(w: World, s: State, i: nat, utc: real)
    requires Inv(w, s) && i < |s.workers| && s.workers[i].Ready?
    ensures var t := Step(w, Step(w, s, Run(i, utc)), Run(i, utc));
      match w.jobs[i]
      case Forget(email) => t.users == PasswordReset.Forgot(w.c, s.users, email, utc)
      case Renew(token, password) =>
        var (done, users) := PasswordReset.Reset(w.c, s.users, token, password, utc);
        t.users == users && t.workers[i] == Done(done)
  {
  }

  // ---------------------------------------------------------------------------------------------
  // Where an UPDATE writes every assigned column

  lemma StepKeepsRows(w: World, s: State, e: Event)
    requires w.writesAll && Inv(w, s) && PasswordReset.Inv(w.c, s.users)
    ensures PasswordReset.Inv(w.c, Step(w, s, e).users)
  {
    if e.Run? && e.worker < |s.workers| { assert WorkerOk(w.c, s, s.workers[e.worker]); }
  }

  /** Then token and expiry come and go together, and every stored token is one made for its own user and
      expiry, however requests overlap. */
  lemma {:induction false} RowsStayWhole(w: World, es: seq<Event>)
    requires PasswordReset.RoundTrip(w.c) && w.writesAll
    ensures PasswordReset.Inv(w.c, After(w, es).users)
  {
    if es != [] {
      RowsStayWhole(w, es[..|es| - 1]);
      RunInv(w, es[..|es| - 1]);
      StepKeepsRows(w, After(w, es[..|es| - 1]), es[|es| - 1]);
    }
  }
}
