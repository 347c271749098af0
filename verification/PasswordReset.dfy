/** Forgotten passwords (`forgot_password` and `reset_password` in app/identity/routes.py, with
    `create_jwt` and `decode_jwt` of app/identity/auth.py), one request at a time; `ResetRace` lets
    requests overlap. */
module PasswordReset {
  import opened Wrappers

  /** JWT encoding (RFC 7519) of a subject and an expiry in whole seconds, and bcrypt, stay
      uninterpreted: all that is known of a token is that it decodes to its subject before its expiry
      and not from then on. */
  datatype Crypto = Crypto(
    encode: (string, int) -> string,
    decode: (string, real) -> Option<string>,
    bcrypt: string -> string)

  ghost predicate RoundTrip(c: Crypto) {
    forall sub, exp, now :: c.decode(c.encode(sub, exp), now) == if now < exp as real then Some(sub) else None
  }

  datatype User = User(
    id: string,
    email: string,
    passwordHash: string,
    resetToken: Option<string>,
    resetExpiresAt: Option<real>)

  const LIFETIME: real := 3600.0

  function ByEmail(users: seq<User>, email: string): (i: nat)
    ensures i <= |users|
    ensures i < |users| ==> users[i].email == email
    ensures forall j :: 0 <= j < i ==> users[j].email != email
  {
    FirstWhere((u: User) => u.email == email, users)
  }

  function ByToken(users: seq<User>, token: string): (i: nat)
    ensures i <= |users|
    ensures i < |users| ==> users[i].resetToken == Some(token)
    ensures forall j :: 0 <= j < i ==> users[j].resetToken != Some(token)
  {
    FirstWhere((u: User) => u.resetToken == Some(token), users)
  }

  function NewToken(c: Crypto, id: string, utc: real): string { c.encode(id, (utc + LIFETIME).Floor) }

  /** Stores a new token for the user of this address; an unknown address changes nothing. */
  function Forgot(c: Crypto, users: seq<User>, email: string, utc: real): seq<User> {
    var i := ByEmail(users, email);
    if i == |users| then users
    else users[i := users[i].(resetToken := Some(NewToken(c, users[i].id, utc)), resetExpiresAt := Some(utc + LIFETIME))]
  }

  /** The user whose password this token may reset. */
  function MayReset(c: Crypto, users: seq<User>, token: string, utc: real): (r: Option<nat>)
    ensures r.Some? ==> r.value < |users| && users[r.value].resetToken == Some(token)
  {
    var sub := c.decode(token, utc);
    if sub.None? || sub.value == "" then None
    else
      var i := ByToken(users, token);
      if i == |users| || users[i].resetExpiresAt.None? || users[i].resetExpiresAt.value < utc then None else Some(i)
  }

  function Renewed(c: Crypto, u: User, password: string): User {
    u.(passwordHash := c.bcrypt(password), resetToken := None, resetExpiresAt := None)
  }

  function Reset(c: Crypto, users: seq<User>, token: string, password: string, utc: real): (bool, seq<User>) {
    match MayReset(c, users, token, utc)
    case None => (false, users)
    case Some(i) => (true, users[i := Renewed(c, users[i], password)])
  }

  class Accounts {
    const c: Crypto
    var users: seq<User>

    constructor (c: Crypto)
      ensures this.c == c && users == []
    {
      this.c := c;
      users := [];
    }

    method ForgotPassword(email: string, utc: real) returns (token: Option<string>)
      modifies this`users
      ensures users == Forgot(c, old(users), email, utc)
      ensures token.Some? ==> exists i :: 0 <= i < |users| && users[i].email == email && users[i].resetToken == token
      ensures token.None? ==> users == old(users) && forall i :: 0 <= i < |users| ==> users[i].email != email
      ensures token.Some? ==>
        exists i :: 0 <= i < |old(users)| && old(users)[i].email == email && token == Some(c.encode(old(users)[i].id, (utc + 3600.0).Floor)) &&
          users == old(users)[i := old(users)[i].(resetToken := token, resetExpiresAt := Some(utc + 3600.0))]
    {
      var i := FindFirst((u: User) => u.email == email, users);
      if i == |users| { return None; }
      token := Some(NewToken(c, users[i].id, utc));
      users := users[i := users[i].(resetToken := token, resetExpiresAt := Some(utc + LIFETIME))];
      assert users[i].email == email && users[i].resetToken == token;
    }

    method ResetPassword(token: string, password: string, utc: real) returns (done: bool)
      modifies this`users
      ensures (done, users) == Reset(c, old(users), token, password, utc)
      ensures !done ==> users == old(users)
      ensures done ==> c.decode(token, utc).Some? && c.decode(token, utc).value != ""
      ensures done ==>
        exists i :: 0 <= i < |old(users)| && old(users)[i].resetToken == Some(token) &&
          old(users)[i].resetExpiresAt.Some? && utc <= old(users)[i].resetExpiresAt.value &&
          users == old(users)[i := old(users)[i].(passwordHash := c.bcrypt(password), resetToken := None, resetExpiresAt := None)]
    {
      var sub := c.decode(token, utc);
      if sub.None? || sub.value == "" { return false; }
      var i := FindFirst((u: User) => u.resetToken == Some(token), users);
      if i == |users| { return false; }
      if users[i].resetExpiresAt.None? || users[i].resetExpiresAt.value < utc { return false; }
      users := users[i := Renewed(c, users[i], password)];
      done := true;
    }
  }

  // ---------------------------------------------------------------------------------------------
  // Runs

  datatype Event =
    | Register(id: string, email: string, passwordHash: string)   // taken in only if both are new and `id` is not empty
    | ForgotPassword(email: string)
    | ResetPassword(token: string, password: string)

  datatype Timed = Timed(event: Event, utc: real)

  predicate Taken(users: seq<User>, id: string, email: string) {
    exists i :: 0 <= i < |users| && (users[i].id == id || users[i].email == email)
  }

  function Step(c: Crypto, users: seq<User>, e: Timed): seq<User> {
    match e.event
    case Register(id, email, passwordHash) =>
      if id == "" || Taken(users, id, email) then users else users + [User(id, email, passwordHash, None, None)]
    case ForgotPassword(email) => Forgot(c, users, email, e.utc)
    case ResetPassword(token, password) => Reset(c, users, token, password, e.utc).1
  }

  function After(c: Crypto, es: seq<Timed>): seq<User> {
    if es == [] then [] else Step(c, After(c, es[..|es| - 1]), es[|es| - 1])
  }

  /** The event at position i is a reset with this token that succeeded. */
  predicate Succeeded(c: Crypto, es: seq<Timed>, i: nat, token: string) {
    && i < |es|
    && es[i].event.ResetPassword? && es[i].event.token == token
    && Reset(c, After(c, es[..i]), token, es[i].event.password, es[i].utc).0
  }

  ghost predicate Stored(users: seq<User>, token: string) {
    exists u :: 0 <= u < |users| && users[u].resetToken == Some(token)
  }

  ghost predicate StoredFor(users: seq<User>, token: string, email: string) {
    exists u :: 0 <= u < |users| && users[u].resetToken == Some(token) && users[u].email == email
  }

  /** The event at position i is a `forgot_password` that left this token stored for its own user. */
  ghost predicate StoresAgain(c: Crypto, es: seq<Timed>, i: nat, token: string) {
    && i < |es| && es[i].event.ForgotPassword?
    && StoredFor(After(c, es[..i + 1]), token, es[i].event.email)
  }

  // ---------------------------------------------------------------------------------------------
  // Invariant

  /** Token and expiry come and go together, and the token is one made for this very user and expiry. */
  ghost predicate ResetOk(c: Crypto, u: User) {
    && u.id != ""
    && (u.resetToken.Some? <==> u.resetExpiresAt.Some?)
    && (u.resetToken.Some? ==> u.resetToken.value == c.encode(u.id, u.resetExpiresAt.value.Floor))
  }

  ghost predicate Inv(c: Crypto, users: seq<User>) {
    && (forall i :: 0 <= i < |users| ==> ResetOk(c, users[i]))
    && (forall i, j :: 0 <= i < j < |users| ==> users[i].id != users[j].id && users[i].email != users[j].email)
  }

  lemma StepInv(c: Crypto, users: seq<User>, e: Timed)
    requires Inv(c, users)
    ensures Inv(c, Step(c, users, e))
  {
  }

  lemma {:induction false} RunInv(c: Crypto, es: seq<Timed>)
    ensures Inv(c, After(c, es))
  {
    if es != [] {
      RunInv(c, es[..|es| - 1]);
      StepInv(c, After(c, es[..|es| - 1]), es[|es| - 1]);
    }
  }

  /** Tokens made for different subjects differ. */
  lemma TokensNameTheirSubject(c: Crypto, a: string, x: int, b: string, y: int)
    requires RoundTrip(c) && c.encode(a, x) == c.encode(b, y)
    ensures a == b
  {
    var now := (Min(x, y) - 1) as real;
    assert c.decode(c.encode(a, x), now) == Some(a);
    assert c.decode(c.encode(b, y), now) == Some(b);
  }

  /** At most one user stores a given token. */
  lemma OneHolder(c: Crypto, users: seq<User>, token: string, i: nat, j: nat)
    requires RoundTrip(c) && Inv(c, users)
    requires i < |users| && j < |users| && users[i].resetToken == Some(token) && users[j].resetToken == Some(token)
    ensures i == j
  {
    assert ResetOk(c, users[i]) && ResetOk(c, users[j]);
    TokensNameTheirSubject(c, users[i].id, users[i].resetExpiresAt.value.Floor, users[j].id, users[j].resetExpiresAt.value.Floor);
  }

  // ---------------------------------------------------------------------------------------------
  // What the two routes guarantee

  /** A stored reset token never decodes to anyone but its own user, and decodes to that user until the
      last whole second before its stored expiry. */
  lemma {:induction false} StoredTokenDecodesToItsUser(c: Crypto, es: seq<Timed>, i: nat, now: real)
    requires RoundTrip(c) && i < |After(c, es)| && After(c, es)[i].resetToken.Some?
    ensures var u := After(c, es)[i];
      && u.resetExpiresAt.Some?
      && c.decode(u.resetToken.value, now) == if now < u.resetExpiresAt.value.Floor as real then Some(u.id) else None
  {
    RunInv(c, es);
    assert ResetOk(c, After(c, es)[i]);
  }

  /** Who may reset is decided by the stored tokens and the token's own expiry. */
  lemma MayResetIff(c: Crypto, users: seq<User>, token: string, utc: real)
    requires RoundTrip(c) && Inv(c, users)
    ensures MayReset(c, users, token, utc).Some? <==> Stored(users, token) && c.decode(token, utc).Some?
    ensures var r := MayReset(c, users, token, utc);
      r.Some? ==> c.decode(token, utc) == Some(users[r.value].id) && forall j :: 0 <= j < |users| && users[j].resetToken == Some(token) ==> j == r.value
  {
    var i := ByToken(users, token);
    if i < |users| {
      assert ResetOk(c, users[i]);
      forall j | 0 <= j < |users| && users[j].resetToken == Some(token)
        ensures j == i
      {
        OneHolder(c, users, token, i, j);
      }
    }
  }

  /** A reset succeeds exactly when some user stores the token and the token itself has not expired; the
      stored expiry never decides. It changes the password of that user and of nobody else. */
  lemma ResetSucceedsIff(c: Crypto, es: seq<Timed>, token: string, password: string, utc: real)
    requires RoundTrip(c)
    ensures var (done, users) := Reset(c, After(c, es), token, password, utc);
      && (done <==> Stored(After(c, es), token) && c.decode(token, utc).Some?)
      && (done ==> !Stored(users, token))
      && |users| == |After(c, es)|
      && forall i :: 0 <= i < |users| ==>
           users[i].passwordHash == if done && c.decode(token, utc) == Some(users[i].id) then c.bcrypt(password)
                                    else After(c, es)[i].passwordHash
  {
    RunInv(c, es);
    MayResetIff(c, After(c, es), token, utc);
  }

  /** After a successful reset nobody stores the token. */
  lemma SpentAfterSuccess(c: Crypto, es: seq<Timed>, i: nat, token: string)
    requires RoundTrip(c) && Succeeded(c, es, i, token)
    ensures !Stored(After(c, es[..i + 1]), token)
  {
    assert es[..i + 1][..i] == es[..i];
    var users := After(c, es[..i]);
    RunInv(c, es[..i]);
    var k := ByToken(users, token);
    forall u | 0 <= u < |users| && u != k
      ensures users[u].resetToken != Some(token)
    {
      if users[u].resetToken == Some(token) { OneHolder(c, users, token, u, k); }
    }
  }

  /** A token that is not stored becomes stored only by a `forgot_password` for its user. */
  lemma {:induction false} StoredAgainBetween(c: Crypto, es: seq<Timed>, i: nat, j: nat, token: string) returns (k: nat)
    requires i <= j <= |es| && !Stored(After(c, es[..i]), token) && Stored(After(c, es[..j]), token)
    ensures i <= k < j && StoresAgain(c, es, k, token)
    decreases j
  {
    assert i < j;
    assert es[..j][..j - 1] == es[..j - 1];
    if Stored(After(c, es[..j - 1]), token) {
      k := StoredAgainBetween(c, es, i, j - 1, token);
    } else {
      k := j - 1;
      var before, after := After(c, es[..j - 1]), After(c, es[..j]);
      var u :| 0 <= u < |after| && after[u].resetToken == Some(token);
      assert u < |before| ==> before[u].resetToken != Some(token);
      assert es[k].event.ForgotPassword?;
    }
  }

  /** With requests one at a time a reset token is good once: between two successful resets with the same token string there is a
      `forgot_password` call that stored it again for its user. */
  lemma ResetTokensAreSpent(c: Crypto, es: seq<Timed>, i: nat, j: nat, token: string) returns (k: nat)
    requires RoundTrip(c) && i < j && Succeeded(c, es, i, token) && Succeeded(c, es, j, token)
    ensures i < k < j && StoresAgain(c, es, k, token)
  {
    SpentAfterSuccess(c, es, i, token);
    var u := ByToken(After(c, es[..j]), token);
    assert After(c, es[..j])[u].resetToken == Some(token);
    k := StoredAgainBetween(c, es, i + 1, j, token);
  }
}
