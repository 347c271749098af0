/** What overlapping requests for one account can do, and that the bounds of `ResetRace` are exact. */
module ResetWitness {
  import opened Wrappers
  import opened Counting
  import opened ResetRace
  import PasswordReset

  // ---------------------------------------------------------------------------------------------
  // One stored token, n resets that overlap

  const USER: string := "u"
  const EMAIL: string := "e"

  function Token(c: Crypto): string { PasswordReset.NewToken(c, USER, 0.0) }

  /** One `forgot_password` and n resets with the token it stores. */
  function Overlapping(c: Crypto, writesAll: bool, passwords: seq<string>): World {
    World(c, writesAll, [Forget(EMAIL)] + seq(|passwords|, i requires 0 <= i < |passwords| => Renew(Token(c), passwords[i])))
  }

  function Row(hash: string, token: Option<string>, expires: Option<real>): User {
    PasswordReset.User(USER, EMAIL, hash, token, expires)
  }

  /** The resets in turn: each makes its SELECT, or, when all have, its commit. */
  function Turns(k: nat): seq<Event> { seq(k, i requires 0 <= i < k => Run(i + 1, 0.0)) }

  function Selecting(w: World, passwords: seq<string>, k: nat): seq<Pc>
    requires k <= |passwords|
  {
    [Done(true)] + seq(|passwords|, i requires 0 <= i < |passwords| => if i < k then Renewing(0, Token(w.c), passwords[i], 1) else Ready)
  }

  function Committing(w: World, passwords: seq<string>, k: nat): seq<Pc>
    requires k <= |passwords|
  {
    [Done(true)] + seq(|passwords|, i requires 0 <= i < |passwords| => if i < k then Done(true) else Renewing(0, Token(w.c), passwords[i], 1))
  }

  function Prepare(): seq<Event> { [Register(USER, EMAIL, "")] + [Run(0, 0.0)] + [Run(0, 0.0)] }

  lemma OneMore(w: World, s: State, e: Event)
    ensures From(w, s, [e]) == Step(w, s, e)
  {
    assert [e][..0] == [] && From(w, s, []) == s;
  }

  lemma {:induction false} FromThen(w: World, s: State, es: seq<Event>, more: seq<Event>)
    ensures From(w, s, es + more) == From(w, From(w, s, es), more)
  {
    if more == [] {
      assert es + more == es;
    } else {
      FromThen(w, s, es, more[..|more| - 1]);
      assert (es + more)[..|es + more| - 1] == es + more[..|more| - 1];
    }
  }

  /** The first request has stored a token, and the others are yet to come. */
  lemma Prepared(w: World)
    requires |w.jobs| > 0 && w.jobs[0] == Forget(EMAIL)
    ensures After(w, Prepare()) ==
      State([Row("", Some(Token(w.c)), Some(PasswordReset.LIFETIME))], [Stored(0, 0, Token(w.c))],
            seq(|w.jobs|, i => if i == 0 then Done(true) else Ready))
  {
    var s := Initial(w);
    var s1 := Step(w, s, Register(USER, EMAIL, ""));
    assert s1.users == [Row("", None, None)];
    var s2 := Step(w, s1, Run(0, 0.0));
    assert s2.workers[0] == Storing(0, s1.users[0], 0.0);
    FromThen(w, s, [Register(USER, EMAIL, "")] + [Run(0, 0.0)], [Run(0, 0.0)]);
    FromThen(w, s, [Register(USER, EMAIL, "")], [Run(0, 0.0)]);
    OneMore(w, s, Register(USER, EMAIL, ""));
    OneMore(w, s1, Run(0, 0.0));
    OneMore(w, s2, Run(0, 0.0));
    assert Step(w, s2, Run(0, 0.0)).workers == seq(|w.jobs|, i => if i == 0 then Done(true) else Ready);
  }

  lemma MaySelect(c: Crypto, hash: string)
    requires PasswordReset.RoundTrip(c)
    ensures PasswordReset.MayReset(c, [Row(hash, Some(Token(c)), Some(PasswordReset.LIFETIME))], Token(c), 0.0) == Some(0)
  {
    assert c.decode(c.encode(USER, (0.0 + PasswordReset.LIFETIME).Floor), 0.0) == Some(USER);
  }

  /** The first k resets have made their SELECT. */
  lemma {:induction false} AllSelect(w: World, passwords: seq<string>, s: State, k: nat)
    requires PasswordReset.RoundTrip(w.c) && w == Overlapping(w.c, w.writesAll, passwords) && k <= |passwords|
    requires s.users == [Row("", Some(Token(w.c)), Some(PasswordReset.LIFETIME))] && |s.log| == 1
    requires s.workers == Selecting(w, passwords, 0)
    ensures From(w, s, Turns(k)) == s.(workers := Selecting(w, passwords, k))
  {
    if k > 0 {
      AllSelect(w, passwords, s, k - 1);
      assert Turns(k)[..k - 1] == Turns(k - 1);
      MaySelect(w.c, "");
      assert Selecting(w, passwords, k) == Selecting(w, passwords, k - 1)[k := Renewing(0, Token(w.c), passwords[k - 1], 1)];
    }
  }

  function SpentBy(w: World, k: nat): seq<Commit> { seq(k, i requires 0 <= i < k => Spent(i + 1, 0, Token(w.c), 1)) }

  /** The first k resets have committed, each over the one before. */
  lemma {:induction false} AllCommit(w: World, passwords: seq<string>, s: State, k: nat)
    requires w == Overlapping(w.c, w.writesAll, passwords) && 0 < k <= |passwords|
    requires |s.users| == 1 && s.workers == Committing(w, passwords, 0)
    ensures From(w, s, Turns(k)) ==
      State([PasswordReset.Renewed(w.c, s.users[0], passwords[k - 1])], s.log + SpentBy(w, k), Committing(w, passwords, k))
  {
    assert Turns(k)[..k - 1] == Turns(k - 1);
    assert SpentBy(w, k) == SpentBy(w, k - 1) + [Spent(k, 0, Token(w.c), 1)];
    assert Committing(w, passwords, k) == Committing(w, passwords, k - 1)[k := Done(true)];
    if k == 1 {
      assert SpentBy(w, 0) == [] && s.log + SpentBy(w, 0) == s.log;
      assert From(w, s, Turns(0)) == s;
    } else {
      AllCommit(w, passwords, s, k - 1);
    }
  }

  function Schedule(n: nat): seq<Event> { Prepare() + Turns(n) + Turns(n) }

  /** All n resets succeed by one storing, and the last password stays. */
  lemma OverlappingResetsSucceed(w: World, passwords: seq<string>)
    requires PasswordReset.RoundTrip(w.c) && w == Overlapping(w.c, w.writesAll, passwords) && passwords != []
    ensures var n := |passwords|;
      var t := After(w, Schedule(n));
      && t.log == [Stored(0, 0, Token(w.c))] + SpentBy(w, n)
      && |t.workers| == n + 1 && (forall i :: 1 <= i <= n ==> t.workers[i] == Done(true))
      && t.users == [Row(w.c.bcrypt(passwords[n - 1]), None, None)]
  {
    var n := |passwords|;
    Prepared(w);
    var s := After(w, Prepare());
    assert s.workers == Selecting(w, passwords, 0);
    AllSelect(w, passwords, s, n);
    var u := From(w, s, Turns(n));
    assert Selecting(w, passwords, n) == Committing(w, passwords, 0);
    AllCommit(w, passwords, u, n);
    FromThen(w, Initial(w), Prepare(), Turns(n));
    FromThen(w, Initial(w), Prepare() + Turns(n), Turns(n));
  }

  // ---------------------------------------------------------------------------------------------
  // Never more than n open

  /** A task that stores is never open. */
  lemma {:induction false} ForgettingIsNeverOpen(w: World, es: seq<Event>)
    requires |w.jobs| > 0 && w.jobs[0].Forget?
    ensures var t := After(w, es); |t.workers| == |w.jobs| && !t.workers[0].Renewing?
  {
    if es != [] { ForgettingIsNeverOpen(w, es[..|es| - 1]); }
  }

  lemma {:induction false} AtMostNOpen(w: World, es: seq<Event>, token: string)
    requires |w.jobs| > 0 && w.jobs[0].Forget?
    ensures OpenWithin(w, es, token, |w.jobs| - 1)
  {
    ForgettingIsNeverOpen(w, es);
    var t := After(w, es);
    SumBound(OpenFor(token), t.workers[1..], 1);
    if es != [] { AtMostNOpen(w, es[..|es| - 1], token); }
  }

  lemma {:induction false} CountSpent(w: World, k: nat)
    ensures Sum(SpentFor(Token(w.c)), SpentBy(w, k)) == k && Sum(StoredFor(Token(w.c)), SpentBy(w, k)) == 0
  {
    if k > 0 {
      CountSpent(w, k - 1);
      assert SpentBy(w, k) == SpentBy(w, k - 1) + [Spent(k, 0, Token(w.c), 1)];
      SumAppend(SpentFor(Token(w.c)), SpentBy(w, k - 1), Spent(k, 0, Token(w.c), 1));
      SumAppend(StoredFor(Token(w.c)), SpentBy(w, k - 1), Spent(k, 0, Token(w.c), 1));
    }
  }

  lemma CountOneStoring(w: World, n: nat, s: State)
    requires s.log == [Stored(0, 0, Token(w.c))] + SpentBy(w, n)
    ensures Successes(s, Token(w.c)) == n && Storings(s, Token(w.c)) == 1
  {
    CountSpent(w, n);
    assert s.log[1..] == SpentBy(w, n);
  }

  /** In all runs with at most n resets of a token open at once, it gives at most m successes for each time
      it was stored. */
  ghost predicate Limits(c: Crypto, n: nat, m: nat) {
    forall w: World, es: seq<Event>, token: string :: w.c == c && OpenWithin(w, es, token, n) ==>
      Successes(After(w, es), token) <= m * Storings(After(w, es), token)
  }

  lemma {:induction false} LimitsUpTo(c: Crypto, n: nat, m: nat)
    requires PasswordReset.RoundTrip(c) && n <= m
    ensures Limits(c, n, m)
  {
    forall w: World, es: seq<Event>, token: string | w.c == c && OpenWithin(w, es, token, n)
      ensures Successes(After(w, es), token) <= m * Storings(After(w, es), token)
    {
      SuccessesPerStoring(w, es, token, n);
      assert (m - n) * Storings(After(w, es), token) >= 0;
    }
  }

  lemma SomeRunReaches(c: Crypto, n: nat) returns (w: World, es: seq<Event>)
    requires PasswordReset.RoundTrip(c) && n > 0
    ensures w.c == c && OpenWithin(w, es, Token(c), n)
    ensures Successes(After(w, es), Token(c)) == n && Storings(After(w, es), Token(c)) == 1
  {
    var passwords := seq(n, i => "");
    w, es := Overlapping(c, true, passwords), Schedule(n);
    OverlappingResetsSucceed(w, passwords);
    CountOneStoring(w, n, After(w, es));
    AtMostNOpen(w, es, Token(c));
  }

  /** The number of resets open at once is exactly the number of successes one storing can give. */
  lemma {:induction false} SuccessesPerStoringAreExact(c: Crypto, n: nat, m: nat)
    requires PasswordReset.RoundTrip(c)
    ensures Limits(c, n, m) <==> n <= m
  {
    if n <= m {
      LimitsUpTo(c, n, m);
    } else {
      var w, es := SomeRunReaches(c, n);
      assert !(Successes(After(w, es), Token(c)) <= m * Storings(After(w, es), Token(c)));
    }
  }

  /** Reset tokens are good once in all runs exactly if resets of one token never overlap. */
  lemma SingleUseIffNoOverlap(c: Crypto, n: nat)
    requires PasswordReset.RoundTrip(c)
    ensures (forall w: World, es: seq<Event>, token: string :: w.c == c && OpenWithin(w, es, token, n) ==>
               Successes(After(w, es), token) <= Storings(After(w, es), token)) <==> n <= 1
  {
    SuccessesPerStoringAreExact(c, n, 1);
    if n <= 1 {
      forall w: World, es: seq<Event>, token: string | w.c == c && OpenWithin(w, es, token, n)
        ensures Successes(After(w, es), token) <= Storings(After(w, es), token)
      {
        assert Successes(After(w, es), token) <= 1 * Storings(After(w, es), token);
      }
    } else {
      var w, es := SomeRunReaches(c, n);
      assert !(Successes(After(w, es), Token(c)) <= Storings(After(w, es), Token(c)));
    }
  }

  // ---------------------------------------------------------------------------------------------
  // A row that comes apart

  /** Two `forgot_password` within one second make the same token; a reset commits between the SELECT and
      the commit of the second, whose UPDATE then leaves the token out. */
  function Apart(c: Crypto): World { World(c, false, [Forget(EMAIL), Forget(EMAIL), Renew(Token(c), "")]) }

  function ApartSchedule(): seq<Event> { Prepare() + [Run(1, 0.5)] + [Run(2, 0.0)] + [Run(2, 0.0)] + [Run(1, 0.5)] }

  lemma ApartGoesOn(w: World, s: State)
    ensures From(w, s, [Run(1, 0.5)] + [Run(2, 0.0)] + [Run(2, 0.0)] + [Run(1, 0.5)]) ==
      Step(w, Step(w, Step(w, Step(w, s, Run(1, 0.5)), Run(2, 0.0)), Run(2, 0.0)), Run(1, 0.5))
  {
    var s1 := Step(w, s, Run(1, 0.5));
    var s2 := Step(w, s1, Run(2, 0.0));
    var s3 := Step(w, s2, Run(2, 0.0));
    FromThen(w, s, [Run(1, 0.5)] + [Run(2, 0.0)] + [Run(2, 0.0)], [Run(1, 0.5)]);
    FromThen(w, s, [Run(1, 0.5)] + [Run(2, 0.0)], [Run(2, 0.0)]);
    FromThen(w, s, [Run(1, 0.5)], [Run(2, 0.0)]);
    OneMore(w, s, Run(1, 0.5));
    OneMore(w, s1, Run(2, 0.0));
    OneMore(w, s2, Run(2, 0.0));
    OneMore(w, s3, Run(1, 0.5));
  }

  lemma ApartEnds(c: Crypto)
    requires PasswordReset.RoundTrip(c)
    ensures After(Apart(c), ApartSchedule()).users == [Row(c.bcrypt(""), None, Some(0.5 + PasswordReset.LIFETIME))]
  {
    var w := Apart(c);
    Prepared(w);
    var s := After(w, Prepare());
    assert s.workers == [Done(true), Ready, Ready];
    ApartGoesOn(w, s);
    var more := [Run(1, 0.5)] + [Run(2, 0.0)] + [Run(2, 0.0)] + [Run(1, 0.5)];
    FromThen(w, Initial(w), Prepare(), more);
    assert ApartSchedule() == Prepare() + more;
    var s1 := Step(w, s, Run(1, 0.5));
    assert s1.workers == [Done(true), Storing(0, s.users[0], 0.5), Ready];
    MaySelect(c, "");
    var s2 := Step(w, s1, Run(2, 0.0));
    assert s2.workers[2] == Renewing(0, Token(c), "", 1);
    var s3 := Step(w, s2, Run(2, 0.0));
    assert s3.users == [Row(c.bcrypt(""), None, None)];
    assert (0.5 + PasswordReset.LIFETIME).Floor == (0.0 + PasswordReset.LIFETIME).Floor;
    assert PasswordReset.NewToken(c, USER, 0.5) == Token(c);
  }

  /** Token and expiry belong together in every row of every run exactly if an UPDATE writes every column
      that was assigned. */
  lemma RowsStayWholeIffAllWritten(c: Crypto, writesAll: bool)
    requires PasswordReset.RoundTrip(c)
    ensures (forall w: World, es: seq<Event> :: w.c == c && w.writesAll == writesAll ==> PasswordReset.Inv(c, After(w, es).users))
            <==> writesAll
  {
    if writesAll {
      forall w: World, es: seq<Event> | w.c == c && w.writesAll == writesAll
        ensures PasswordReset.Inv(c, After(w, es).users)
      {
        RowsStayWhole(w, es);
      }
    } else {
      ApartEnds(c);
      var users := After(Apart(c), ApartSchedule()).users;
      assert !PasswordReset.ResetOk(c, users[0]);
      assert !PasswordReset.Inv(c, After(Apart(c), ApartSchedule()).users);
    }
  }
}
