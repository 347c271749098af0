/** Which counter a write pushes out of the full rate cache: the one whose token was called longest ago. */
module RateRecency {
  import opened Wrappers
  import opened TtlCaches
  import opened RateLimiter

  /** The position of the last call for a token, admitted or refused; -1 when there was none. */
  function LastCall(calls: seq<Call>, token: string): int {
    if calls == [] then -1
    else if calls[|calls| - 1].token == token then |calls| - 1
    else LastCall(calls[..|calls| - 1], token)
  }

  ghost predicate InRecencyOrder(es: Counters, calls: seq<Call>) {
    forall i, j :: 0 <= i < j < |es| ==> LastCall(calls, es[i].key) < LastCall(calls, es[j].key)
  }

  lemma {:induction false} LastCallBound(calls: seq<Call>, token: string)
    ensures LastCall(calls, token) < |calls|
  {
    if calls != [] { LastCallBound(calls[..|calls| - 1], token); }
  }

  lemma {:induction false} LiveInOrder(es: Counters, calls: seq<Call>, now: real)
    requires InRecencyOrder(es, calls)
    ensures InRecencyOrder(Live(es, now), calls)
  {
    if es != [] {
      LiveInOrder(es[1..], calls, now);
      LiveMembers(es[1..], now);
      assert forall e :: e in es[1..] ==> LastCall(calls, es[0].key) < LastCall(calls, e.key);
      assert forall j :: 0 <= j < |Live(es[1..], now)| ==> Live(es[1..], now)[j] in Live(es[1..], now);
    }
  }

  lemma {:induction false} WithoutInOrder(es: Counters, calls: seq<Call>, key: string)
    requires InRecencyOrder(es, calls)
    ensures InRecencyOrder(Without(es, key), calls)
  {
    if es != [] {
      WithoutInOrder(es[1..], calls, key);
      WithoutMembers(es[1..], key);
      assert forall e :: e in es[1..] ==> LastCall(calls, es[0].key) < LastCall(calls, e.key);
      assert forall j :: 0 <= j < |Without(es[1..], key)| ==> Without(es[1..], key)[j] in Without(es[1..], key);
    }
  }

  /** Entries of other tokens keep their order, and the token just called comes last. */
  lemma CalledLast(es: Counters, calls: seq<Call>, call: Call, e: Entry<string, nat>)
    requires InRecencyOrder(es, calls) && e.key == call.token
    requires forall i :: 0 <= i < |es| ==> es[i].key != call.token
    ensures InRecencyOrder(es + [e], calls + [call])
  {
    assert (calls + [call])[..|calls|] == calls;
    forall i | 0 <= i < |es|
      ensures LastCall(calls + [call], es[i].key) == LastCall(calls, es[i].key) < |calls|
    {
      LastCallBound(calls, es[i].key);
    }
  }

  lemma TouchedInOrder(es: Counters, calls: seq<Call>, call: Call)
    requires InRecencyOrder(es, calls) && Find(es, call.token, call.now).Some?
    ensures InRecencyOrder(Touch(es, call.token, call.now), calls + [call])
  {
    WithoutInOrder(es, calls, call.token);
    WithoutMembers(es, call.token);
    assert forall j :: 0 <= j < |Without(es, call.token)| ==> Without(es, call.token)[j] in Without(es, call.token);
    CalledLast(Without(es, call.token), calls, call, Find(es, call.token, call.now).value);
  }

  lemma SuffixInOrder(es: Counters, calls: seq<Call>, key: string, n: nat)
    requires InRecencyOrder(es, calls) && n <= |es| && forall i :: 0 <= i < |es| ==> es[i].key != key
    ensures InRecencyOrder(es[n..], calls) && forall i :: 0 <= i < |es[n..]| ==> es[n..][i].key != key
  {
    assert forall i :: 0 <= i < |es[n..]| ==> es[n..][i] == es[n + i];
  }

  lemma KeptInOrder(es: Counters, calls: seq<Call>, key: string, now: real, maxsize: nat)
    requires InRecencyOrder(es, calls)
    ensures var kept := Kept(es, key, now, maxsize);
            InRecencyOrder(kept, calls) && forall i :: 0 <= i < |kept| ==> kept[i].key != key
  {
    var rest := Without(Live(es, now), key);
    RestInOrder(es, calls, key, now);
    var n := if |rest| < maxsize then 0 else |rest| - Max(0, maxsize - 1);
    assert Kept(es, key, now, maxsize) == rest[n..];
    SuffixInOrder(rest, calls, key, n);
  }

  lemma RestInOrder(es: Counters, calls: seq<Call>, key: string, now: real)
    requires InRecencyOrder(es, calls)
    ensures var rest := Without(Live(es, now), key);
      InRecencyOrder(rest, calls) && forall i :: 0 <= i < |rest| ==> rest[i].key != key
  {
    var rest := Without(Live(es, now), key);
    LiveInOrder(es, calls, now);
    WithoutInOrder(Live(es, now), calls, key);
    WithoutMembers(Live(es, now), key);
    assert forall j :: 0 <= j < |rest| ==> rest[j] in rest;
  }

  lemma EnforceInOrder(cfg: Settings, es: Counters, calls: seq<Call>, call: Call)
    requires cfg.limit >= 1 && InRecencyOrder(es, calls)
    ensures InRecencyOrder(Enforce(cfg, es, call).1, calls + [call])
  {
    var count, touched := CountOf(es, call.token, call.now), Touch(es, call.token, call.now);
    if count >= cfg.limit {
      TouchedInOrder(es, calls, call);
    } else {
      TouchBeforeWrite(es, calls, call, cfg.maxsize);
      CalledLast(Kept(touched, call.token, call.now, cfg.maxsize), calls, call,
                 Entry(call.token, count + 1, call.now + cfg.window));
    }
  }

  /** In every run the counters stand in the order of their tokens' last calls, refused calls included. */
  lemma {:induction false} CacheInRecencyOrder(cfg: Settings, calls: seq<Call>)
    requires cfg.limit >= 1
    ensures InRecencyOrder(After(cfg, calls).cache, calls)
  {
    if calls != [] {
      var front, last := calls[..|calls| - 1], calls[|calls| - 1];
      CacheInRecencyOrder(cfg, front);
      EnforceInOrder(cfg, After(cfg, front).cache, front, last);
      assert front + [last] == calls;
    }
  }

  lemma TouchBeforeWrite(es: Counters, calls: seq<Call>, call: Call, maxsize: nat)
    requires InRecencyOrder(es, calls)
    ensures var kept := Kept(Touch(es, call.token, call.now), call.token, call.now, maxsize);
            InRecencyOrder(kept, calls) && forall i :: 0 <= i < |kept| ==> kept[i].key != call.token
  {
    var touched := Touch(es, call.token, call.now);
    if Find(es, call.token, call.now).Some? {
      TouchedOthers(es, call.token, call.now);
      KeptInOrder(Without(es, call.token), calls, call.token, call.now, maxsize) by {
        WithoutInOrder(es, calls, call.token);
      }
    } else {
      KeptInOrder(es, calls, call.token, call.now, maxsize);
    }
  }

  /** Moving a token's own entry to the end does not matter to what a write for it keeps. */
  lemma TouchedOthers(es: Counters, token: string, now: real)
    requires Find(es, token, now).Some?
    ensures Without(Live(Touch(es, token, now), now), token) == Without(Live(Without(es, token), now), token)
  {
    var e := Find(es, token, now).value;
    LiveAppend(Without(es, token), e, now);
    WithoutAppend(Live(Without(es, token), now), e, token);
  }

  lemma {:induction false} LiveAppend(es: Counters, e: Entry<string, nat>, now: real)
    ensures Live(es + [e], now) == Live(es, now) + (if now < e.expires then [e] else [])
  {
    if es == [] {
      assert (es + [e])[1..] == [];
    } else {
      assert (es + [e])[1..] == es[1..] + [e];
      LiveAppend(es[1..], e, now);
    }
  }

  lemma {:induction false} WithoutAppend(es: Counters, e: Entry<string, nat>, key: string)
    ensures Without(es + [e], key) == Without(es, key) + (if e.key != key then [e] else [])
  {
    if es == [] {
      assert (es + [e])[1..] == [];
    } else {
      assert (es + [e])[1..] == es[1..] + [e];
      WithoutAppend(es[1..], e, key);
    }
  }

  /** When an admission pushes out live counters, every one pushed out belongs to a token called longer
      ago than any whose counter stays. */
  lemma EvictionTakesLeastRecent(cfg: Settings, calls: seq<Call>, call: Call, out: Entry<string, nat>, stays: Entry<string, nat>)
    requires cfg.limit >= 1
    requires var touched := Touch(After(cfg, calls).cache, call.token, call.now);
             var rest := Without(Live(touched, call.now), call.token);
             var kept := Kept(touched, call.token, call.now, cfg.maxsize);
             out in rest && out !in kept && stays in kept
    ensures LastCall(calls, out.key) < LastCall(calls, stays.key)
  {
    var es := After(cfg, calls).cache;
    CacheInRecencyOrder(cfg, calls);
    var touched := Touch(es, call.token, call.now);
    var rest := Without(Live(touched, call.now), call.token);
    assert InRecencyOrder(rest, calls) by {
      if Find(es, call.token, call.now).Some? {
        TouchedOthers(es, call.token, call.now);
        WithoutInOrder(es, calls, call.token);
        LiveInOrder(Without(es, call.token), calls, call.now);
        WithoutInOrder(Live(Without(es, call.token), call.now), calls, call.token);
      } else {
        LiveInOrder(es, calls, call.now);
        WithoutInOrder(Live(es, call.now), calls, call.token);
      }
    }
    DroppedComeFirst(rest, calls, cfg.maxsize, out, stays);
  }

  lemma DroppedComeFirst(rest: Counters, calls: seq<Call>, maxsize: nat, out: Entry<string, nat>, stays: Entry<string, nat>)
    requires InRecencyOrder(rest, calls) && |rest| >= maxsize
    requires var kept := rest[|rest| - Max(0, maxsize - 1)..]; out in rest && out !in kept && stays in kept
    ensures LastCall(calls, out.key) < LastCall(calls, stays.key)
  {
    var n := |rest| - Max(0, maxsize - 1);
    assert rest == rest[..n] + rest[n..];
    assert out in rest[..n];
    var i :| 0 <= i < n && rest[..n][i] == out;
    var j :| 0 <= j < |rest[n..]| && rest[n..][j] == stays;
    assert rest[n + j] == stays;
  }
}
