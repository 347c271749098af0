/** The SQLite-backed token and nonce tables (app/identity/token_store.py), used by one caller at a
    time. Times are whole seconds of the wall clock. Both tables are cleaned lazily; what they answer
    is compared with a history that is never cleaned. */
module TokenStore {
  import opened Wrappers

  datatype Settings = Settings(tokenTtl: int, nonceTtl: int)

  /** The two tables, each from its primary key to `expires_at`. */
  datatype Tables = Tables(tokens: map<string, int>, nonces: map<string, int>)

  /** `ttl or default`: neither None nor 0 is a lifetime. */
  function Lifetime(ttl: Option<int>, default: int): int {
    if ttl.Some? && ttl.value != 0 then ttl.value else default
  }

  // ---------------------------------------------------------------------------------------------
  // The functions of the module

  function IssueToken(cfg: Settings, t: Tables, token: string, ttl: Option<int>, now: int): Tables {
    t.(tokens := t.tokens[token := now + Lifetime(ttl, cfg.tokenTtl)])
  }

  function RevokeToken(t: Tables, token: string): Tables {
    t.(tokens := t.tokens - {token})
  }

  function IsTokenValid(t: Tables, token: string, now: int): (bool, Tables) {
    if token !in t.tokens then (false, t)
    else if t.tokens[token] < now then (false, RevokeToken(t, token))
    else (true, t)
  }

  function CleanupNonces(t: Tables, now: int): Tables {
    t.(nonces := map n | n in t.nonces && t.nonces[n] > now :: t.nonces[n])
  }

  function RegisterNonce(cfg: Settings, t: Tables, nonce: string, ttl: Option<int>, now: int): (bool, Tables) {
    var clean := CleanupNonces(t, now);
    if nonce in clean.nonces then (false, clean)
    else (true, clean.(nonces := clean.nonces[nonce := now + Lifetime(ttl, cfg.nonceTtl)]))
  }

  // ---------------------------------------------------------------------------------------------
  // The history

  datatype Op =
    | Issue(token: string, ttl: Option<int>)
    | Revoke(token: string)
    | Check(token: string)
    | Register(nonce: string, nonceTtl: Option<int>)
    | Cleanup

  datatype Timed = Timed(op: Op, now: int)

  function Apply(cfg: Settings, t: Tables, e: Timed): Tables {
    match e.op
    case Issue(token, ttl) => IssueToken(cfg, t, token, ttl, e.now)
    case Revoke(token) => RevokeToken(t, token)
    case Check(token) => IsTokenValid(t, token, e.now).1
    case Register(nonce, ttl) => RegisterNonce(cfg, t, nonce, ttl, e.now).1
    case Cleanup => CleanupNonces(t, e.now)
  }

  function After(cfg: Settings, ops: seq<Timed>): Tables {
    if ops == [] then Tables(map[], map[]) else Apply(cfg, After(cfg, ops[..|ops| - 1]), ops[|ops| - 1])
  }

  lemma AfterOneMore(cfg: Settings, ops: seq<Timed>, e: Timed)
    ensures After(cfg, ops + [e]) == Apply(cfg, After(cfg, ops), e)
  {
    assert (ops + [e])[..|ops|] == ops;
  }

  ghost predicate Ordered(ops: seq<Timed>) {
    forall i, j :: 0 <= i < j < |ops| ==> ops[i].now <= ops[j].now
  }

  ghost predicate NoLaterThan(ops: seq<Timed>, now: int) {
    forall i :: 0 <= i < |ops| ==> ops[i].now <= now
  }

  /** What the history alone says of a token: the end of its last issue, unless it was revoked since. */
  function Expiry(cfg: Settings, ops: seq<Timed>, token: string): Option<int> {
    if ops == [] then None
    else
      var e := ops[|ops| - 1];
      if e.op.Issue? && e.op.token == token then Some(e.now + Lifetime(e.op.ttl, cfg.tokenTtl))
      else if e.op.Revoke? && e.op.token == token then None
      else Expiry(cfg, ops[..|ops| - 1], token)
  }

  /** What the history alone says of a nonce: some registration of it succeeded and is unexpired at
      `now`. A registration succeeded when, at its own time, none before it was unexpired. */
  predicate InUse(cfg: Settings, ops: seq<Timed>, nonce: string, now: int)
    decreases |ops|
  {
    ops != [] &&
    var front, e := ops[..|ops| - 1], ops[|ops| - 1];
    || InUse(cfg, front, nonce, now)
    || (&& e.op.Register? && e.op.nonce == nonce
        && now < e.now + Lifetime(e.op.nonceTtl, cfg.nonceTtl)
        && !InUse(cfg, front, nonce, e.now))
  }

  ghost predicate TokensAgree(cfg: Settings, t: Tables, ops: seq<Timed>, clock: int) {
    forall token ::
      && (token in t.tokens ==> Expiry(cfg, ops, token) == Some(t.tokens[token]))
      && (Expiry(cfg, ops, token).Some? && token !in t.tokens ==> Expiry(cfg, ops, token).value < clock)
  }

  ghost predicate NoncesAgree(cfg: Settings, t: Tables, ops: seq<Timed>, clock: int) {
    forall nonce, now :: clock <= now ==>
      (InUse(cfg, ops, nonce, now) <==> nonce in t.nonces && now < t.nonces[nonce])
  }

  lemma TokenStep(cfg: Settings, t: Tables, ops: seq<Timed>, e: Timed, clock: int)
    requires TokensAgree(cfg, t, ops, clock) && clock <= e.now
    ensures TokensAgree(cfg, Apply(cfg, t, e), ops + [e], e.now)
  {
    assert (ops + [e])[..|ops|] == ops;
    forall token
      ensures var t', x := Apply(cfg, t, e), Expiry(cfg, ops + [e], token);
        && (token in t'.tokens ==> x == Some(t'.tokens[token]))
        && (x.Some? && token !in t'.tokens ==> x.value < e.now)
    {
      assert token in t.tokens ==> Expiry(cfg, ops, token) == Some(t.tokens[token]);
    }
  }

  lemma NonceStep(cfg: Settings, t: Tables, ops: seq<Timed>, e: Timed, clock: int)
    requires NoncesAgree(cfg, t, ops, clock) && clock <= e.now
    ensures NoncesAgree(cfg, Apply(cfg, t, e), ops + [e], e.now)
  {
    assert (ops + [e])[..|ops|] == ops;
    forall nonce, now | e.now <= now
      ensures var t' := Apply(cfg, t, e);
              InUse(cfg, ops + [e], nonce, now) <==> nonce in t'.nonces && now < t'.nonces[nonce]
    {
      assert InUse(cfg, ops, nonce, now) <==> nonce in t.nonces && now < t.nonces[nonce];
      assert InUse(cfg, ops, nonce, e.now) <==> nonce in t.nonces && e.now < t.nonces[nonce];
    }
  }

  lemma {:induction false} RunAgrees(cfg: Settings, ops: seq<Timed>, now: int)
    requires Ordered(ops) && NoLaterThan(ops, now)
    ensures TokensAgree(cfg, After(cfg, ops), ops, now) && NoncesAgree(cfg, After(cfg, ops), ops, now)
  {
    if ops != [] {
      var front, e := ops[..|ops| - 1], ops[|ops| - 1];
      RunAgrees(cfg, front, e.now);
      TokenStep(cfg, After(cfg, front), front, e, e.now);
      NonceStep(cfg, After(cfg, front), front, e, e.now);
      assert front + [e] == ops;
    }
  }

  // ---------------------------------------------------------------------------------------------
  // What callers see

  /** A token is valid exactly when it was issued, not revoked since, and its lifetime has not passed. */
  lemma {:induction false} ValidIffIssuedAndUnexpired(cfg: Settings, ops: seq<Timed>, token: string, now: int)
    requires Ordered(ops) && NoLaterThan(ops, now)
    ensures IsTokenValid(After(cfg, ops), token, now).0 <==>
            Expiry(cfg, ops, token).Some? && now <= Expiry(cfg, ops, token).value
  {
    RunAgrees(cfg, ops, now);
  }

  /** Once invalid, a token stays invalid until it is issued again. */
  lemma {:induction false} InvalidStaysInvalid(cfg: Settings, ops: seq<Timed>, more: seq<Timed>, token: string, now: int, later: int)
    requires Ordered(ops + more) && NoLaterThan(ops, now) && NoLaterThan(ops + more, later) && now <= later
    requires forall i :: 0 <= i < |more| ==> !(more[i].op.Issue? && more[i].op.token == token)
    requires !IsTokenValid(After(cfg, ops), token, now).0
    ensures !IsTokenValid(After(cfg, ops + more), token, later).0
  {
    ExpiryWithoutIssue(cfg, ops, more, token);
    assert forall i :: 0 <= i < |ops| ==> (ops + more)[i] == ops[i];
    ValidIffIssuedAndUnexpired(cfg, ops, token, now);
    ValidIffIssuedAndUnexpired(cfg, ops + more, token, later);
  }

  lemma {:induction false} ExpiryWithoutIssue(cfg: Settings, ops: seq<Timed>, more: seq<Timed>, token: string)
    requires forall i :: 0 <= i < |more| ==> !(more[i].op.Issue? && more[i].op.token == token)
    ensures Expiry(cfg, ops + more, token) in {Expiry(cfg, ops, token), None}
  {
    if more == [] {
      assert ops + more == ops;
    } else {
      var front := more[..|more| - 1];
      assert (ops + more)[..|ops + more| - 1] == ops + front;
      ExpiryWithoutIssue(cfg, ops, front, token);
    }
  }

  /** A nonce is accepted exactly when no earlier successful registration of it is unexpired. */
  lemma {:induction false} RegisteredIffNotInUse(cfg: Settings, ops: seq<Timed>, nonce: string, ttl: Option<int>, now: int)
    requires Ordered(ops) && NoLaterThan(ops, now)
    ensures RegisterNonce(cfg, After(cfg, ops), nonce, ttl, now).0 <==> !InUse(cfg, ops, nonce, now)
  {
    RunAgrees(cfg, ops, now);
  }

  function Registrations(ops: seq<Timed>): seq<Timed> {
    if ops == [] then []
    else
      var e := ops[|ops| - 1];
      Registrations(ops[..|ops| - 1]) + if e.op.Register? then [e] else []
  }

  lemma {:induction false} InUseByRegistrations(cfg: Settings, ops: seq<Timed>, nonce: string, now: int)
    ensures InUse(cfg, ops, nonce, now) <==> InUse(cfg, Registrations(ops), nonce, now)
    decreases |ops|
  {
    if ops != [] {
      var front, e := ops[..|ops| - 1], ops[|ops| - 1];
      InUseByRegistrations(cfg, front, nonce, now);
      InUseByRegistrations(cfg, front, nonce, e.now);
      if e.op.Register? {
        assert Registrations(ops)[..|Registrations(ops)| - 1] == Registrations(front);
      } else {
        assert Registrations(ops) == Registrations(front);
      }
    }
  }

  lemma {:induction false} RegistrationsOrdered(ops: seq<Timed>, now: int)
    requires Ordered(ops) && NoLaterThan(ops, now)
    ensures Ordered(Registrations(ops)) && NoLaterThan(Registrations(ops), now)
  {
    if ops != [] {
      RegistrationsOrdered(ops[..|ops| - 1], ops[|ops| - 1].now);
    }
  }

  /** Cleanup, and everything else that is not a registration, is unobservable to `register_nonce`. */
  lemma CleanupIsUnobservable(cfg: Settings, ops: seq<Timed>, nonce: string, ttl: Option<int>, now: int)
    requires Ordered(ops) && NoLaterThan(ops, now)
    ensures RegisterNonce(cfg, After(cfg, ops), nonce, ttl, now).0 ==
            RegisterNonce(cfg, After(cfg, Registrations(ops)), nonce, ttl, now).0
  {
    RegistrationsOrdered(ops, now);
    RegisteredIffNotInUse(cfg, ops, nonce, ttl, now);
    RegisteredIffNotInUse(cfg, Registrations(ops), nonce, ttl, now);
    InUseByRegistrations(cfg, ops, nonce, now);
  }

  // ---------------------------------------------------------------------------------------------
  // The tables as the module changes them

  class Store {
    const cfg: Settings
    var tokens: map<string, int>
    var nonces: map<string, int>

    constructor (cfg: Settings)
      ensures this.cfg == cfg && Contents() == Tables(map[], map[])
    {
      this.cfg := cfg;
      tokens, nonces := map[], map[];
    }

    function Contents(): Tables
      reads this
    {
      Tables(tokens, nonces)
    }

    /** `token` is the fresh random value the module draws. */
    method Issue(token: string, ttl: Option<int>, now: int)
      modifies this`tokens
      ensures Contents() == IssueToken(cfg, old(Contents()), token, ttl, now)
      ensures ttl == None || ttl == Some(0) ==> tokens == old(tokens)[token := now + cfg.tokenTtl]
      ensures ttl != None && ttl != Some(0) ==> tokens == old(tokens)[token := now + ttl.value]
    {
      var lifetime := cfg.tokenTtl;
      if ttl.Some? && ttl.value != 0 { lifetime := ttl.value; }
      tokens := tokens[token := now + lifetime];
    }

    method Revoke(token: string)
      modifies this`tokens
      ensures Contents() == RevokeToken(old(Contents()), token)
      ensures token !in tokens && forall t :: t != token ==> (t in tokens <==> t in old(tokens)) && (t in tokens ==> tokens[t] == old(tokens)[t])
    {
      tokens := tokens - {token};
    }

    method IsValid(token: string, now: int) returns (valid: bool)
      modifies this`tokens
      ensures (valid, Contents()) == IsTokenValid(old(Contents()), token, now)
      ensures valid <==> token in old(tokens) && now <= old(tokens)[token]
      ensures tokens == if valid then old(tokens) else old(tokens) - {token}
    {
      if token !in tokens { return false; }
      var expiresAt := tokens[token];
      if expiresAt < now {
        tokens := tokens - {token};
        return false;
      }
      valid := true;
    }

    method CleanUpNonces(now: int)
      modifies this`nonces
      ensures Contents() == CleanupNonces(old(Contents()), now)
      ensures forall n :: n in nonces <==> n in old(nonces) && now < old(nonces)[n]
      ensures forall n :: n in nonces ==> nonces[n] == old(nonces)[n]
    {
      nonces := map n | n in nonces && nonces[n] > now :: nonces[n];
    }

    method RegisterOnce(nonce: string, ttl: Option<int>, now: int) returns (registered: bool)
      modifies this`nonces
      ensures (registered, Contents()) == RegisterNonce(cfg, old(Contents()), nonce, ttl, now)
      ensures registered <==> nonce !in old(nonces) || old(nonces)[nonce] <= now
      ensures registered && (ttl == None || ttl == Some(0)) ==> nonce in nonces && nonces[nonce] == now + cfg.nonceTtl
      ensures registered && ttl != None && ttl != Some(0) ==> nonce in nonces && nonces[nonce] == now + ttl.value
      ensures forall n :: n != nonce || !registered ==> (n in nonces <==> n in old(nonces) && now < old(nonces)[n])
    {
      var expiresAt := now + Lifetime(ttl, cfg.nonceTtl);
      CleanUpNonces(now);
      if nonce in nonces { return false; }
      nonces := nonces[nonce := expiresAt];
      registered := true;
    }
  }
}
