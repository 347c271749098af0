/** Several worker processes behind one address, each with a signature cache of its own
    (`signature_cache` in app/identity/auth.py is a variable of the process). */
module SignatureProcesses {
  import opened Wrappers
  import opened Counting
  import SignatureGuard

  type Settings = SignatureGuard.Settings
  type Call = SignatureGuard.Call
  type Accepted = SignatureGuard.Accepted

  /** A call, and the process that happens to serve it. */
  datatype Event = Event(process: nat, call: Call)

  const NEW: SignatureGuard.State := SignatureGuard.State([], [])

  /** The caches and logs of n processes. */
  function After(cfg: Settings, n: nat, es: seq<Event>): (r: seq<SignatureGuard.State>)
    ensures |r| == n
  {
    if es == [] then seq(n, _ => NEW)
    else
      var before, e := After(cfg, n, es[..|es| - 1]), es[|es| - 1];
      if e.process < n then before[e.process := SignatureGuard.Step(cfg, before[e.process], e.call)] else before
  }

  ghost predicate Ordered(es: seq<Event>) {
    forall i, j :: 0 <= i < j < |es| ==> es[i].call.now <= es[j].call.now
  }

  ghost predicate UpTo(es: seq<Event>, now: real) {
    forall i :: 0 <= i < |es| ==> es[i].call.now <= now
  }

  predicate Within(a: Accepted, from: real, span: real) { from <= a.at < from + span }

  function Any(from: real, span: real): Accepted -> nat { (a: Accepted) => if Within(a, from, span) then 1 else 0 }

  function Of(signature: string, from: real, span: real): Accepted -> nat {
    (a: Accepted) => if a.signature == signature && Within(a, from, span) then 1 else 0
  }

  /** How many calls one process accepted within a TTL from `from` on, and how many with this signature. */
  function Load(cfg: Settings, log: seq<Accepted>, from: real): nat { Sum(Any(from, cfg.ttl), log) }

  function Admissions(cfg: Settings, log: seq<Accepted>, signature: string, from: real): nat {
    Sum(Of(signature, from, cfg.ttl), log)
  }

  function AdmissionsAt(cfg: Settings, signature: string, from: real): SignatureGuard.State -> nat {
    (s: SignatureGuard.State) => Admissions(cfg, s.log, signature, from)
  }

  /** Over all processes. */
  function AllAdmissions(cfg: Settings, states: seq<SignatureGuard.State>, signature: string, from: real): nat {
    Sum(AdmissionsAt(cfg, signature, from), states)
  }

  /** No process accepts more than SIGNATURE_CACHE_SIZE calls besides one within that TTL. */
  ghost predicate LightlyLoaded(cfg: Settings, states: seq<SignatureGuard.State>, from: real) {
    forall p :: 0 <= p < |states| ==> Load(cfg, states[p].log, from) <= cfg.maxsize + 1
  }

  // ---------------------------------------------------------------------------------------------
  // One process

  lemma LaterClock(cfg: Settings, s: SignatureGuard.State, clock: real, now: real)
    requires SignatureGuard.CacheInv(cfg, s.cache, s.log, clock) && clock <= now
    ensures SignatureGuard.CacheInv(cfg, s.cache, s.log, now)
  {
  }

  lemma {:induction false} ProcessInv(cfg: Settings, n: nat, es: seq<Event>, p: nat, now: real)
    requires cfg.maxsize >= 1 && Ordered(es) && UpTo(es, now) && p < n
    ensures var s := After(cfg, n, es)[p];
      SignatureGuard.CacheInv(cfg, s.cache, s.log, now) && SignatureGuard.NoReplay(cfg, s.log)
  {
    if es != [] {
      var front, e := es[..|es| - 1], es[|es| - 1];
      ProcessInv(cfg, n, front, p, e.call.now);
      var s := After(cfg, n, front)[p];
      if e.process == p {
        SignatureGuard.StepKeepsInv(cfg, s, e.call, e.call.now);
        SignatureGuard.StepKeepsNoReplay(cfg, s, e.call, e.call.now);
      }
      LaterClock(cfg, After(cfg, n, es)[p], e.call.now, now);
    }
  }

  /** Everything between two calls in the window is in the window. */
  lemma {:induction false} StretchInWindow(cfg: Settings, log: seq<Accepted>, from: real, j: nat)
    requires j <= |log| && forall k :: j <= k < |log| ==> Within(log[k], from, cfg.ttl)
    ensures Load(cfg, log, from) >= |log| - j
  {
    if log != [] {
      if j > 0 {
        StretchInWindow(cfg, log[1..], from, j - 1);
      } else {
        StretchInWindow(cfg, log[1..], from, 0);
      }
    }
  }

  lemma {:induction false} LoadOfPrefix(cfg: Settings, log: seq<Accepted>, from: real, k: nat)
    requires k <= |log|
    ensures Load(cfg, log[..k], from) <= Load(cfg, log, from)
  {
    if k < |log| {
      var front := log[..|log| - 1];
      assert front[..k] == log[..k] && log == front + [log[|log| - 1]];
      LoadOfPrefix(cfg, front, from, k);
      SumAppend(Any(from, cfg.ttl), front, log[|log| - 1]);
    } else {
      assert log[..k] == log;
    }
  }

  /** Two admissions of a signature within a TTL take a full cache of others between them. */
  lemma {:induction false} NotTwice(cfg: Settings, log: seq<Accepted>, clock: real, from: real, i: nat, j: nat)
    requires SignatureGuard.LogOk(log, clock) && SignatureGuard.NoReplay(cfg, log) && Load(cfg, log, from) <= cfg.maxsize + 1
    requires i < j < |log| && log[i].signature == log[j].signature
    ensures !(Within(log[i], from, cfg.ttl) && Within(log[j], from, cfg.ttl))
  {
    if Within(log[i], from, cfg.ttl) && Within(log[j], from, cfg.ttl) {
      StretchInWindow(cfg, log[..j + 1], from, i);
      LoadOfPrefix(cfg, log, from, j + 1);
    }
  }

  lemma {:induction false} AtMostOne(cfg: Settings, log: seq<Accepted>, clock: real, signature: string, from: real)
    requires SignatureGuard.LogOk(log, clock) && SignatureGuard.NoReplay(cfg, log) && Load(cfg, log, from) <= cfg.maxsize + 1
    ensures Admissions(cfg, log, signature, from) <= 1
  {
    var f := Of(signature, from, cfg.ttl);
    if i :| 0 <= i < |log| && f(log[i]) == 1 {
      forall k | 0 <= k < |log| && k != i
        ensures f(log[k]) == 0
      {
        if f(log[k]) == 1 {
          if i < k { NotTwice(cfg, log, clock, from, i, k); } else { NotTwice(cfg, log, clock, from, k, i); }
        }
      }
      SumOnlyAt(f, log, i);
    } else {
      SumNone(f, log);
    }
  }

  // ---------------------------------------------------------------------------------------------
  // All processes

  /** n processes admit one signature at most n times within a TTL. */
  lemma OneAdmissionPerProcess(cfg: Settings, n: nat, es: seq<Event>, signature: string, from: real)
    requires cfg.maxsize >= 1 && Ordered(es) && LightlyLoaded(cfg, After(cfg, n, es), from)
    ensures AllAdmissions(cfg, After(cfg, n, es), signature, from) <= n
  {
    var states := After(cfg, n, es);
    var now := if es == [] then 0.0 else es[|es| - 1].call.now;
    forall p | 0 <= p < n
      ensures AdmissionsAt(cfg, signature, from)(states[p]) <= 1
    {
      ProcessInv(cfg, n, es, p, now);
      AtMostOne(cfg, states[p].log, now, signature, from);
    }
    SumBound(AdmissionsAt(cfg, signature, from), states, 1);
  }

  /** The same call to each process in turn. */
  function ToAll(call: Call, k: nat): seq<Event> { seq(k, i requires 0 <= i < k => Event(i, call)) }

  function Once(cfg: Settings, call: Call): SignatureGuard.State { SignatureGuard.Step(cfg, NEW, call) }

  function Served(cfg: Settings, n: nat, call: Call, k: nat): seq<SignatureGuard.State> {
    seq(n, i requires 0 <= i < n => if i < k then Once(cfg, call) else NEW)
  }

  lemma {:induction false} EachAccepts(cfg: Settings, n: nat, call: Call, k: nat)
    requires k <= n
    ensures After(cfg, n, ToAll(call, k)) == Served(cfg, n, call, k)
  {
    if k == 0 {
      assert Served(cfg, n, call, 0) == seq(n, _ => NEW);
    } else {
      EachAccepts(cfg, n, call, k - 1);
      assert ToAll(call, k)[..k - 1] == ToAll(call, k - 1);
      assert Served(cfg, n, call, k) == Served(cfg, n, call, k - 1)[k - 1 := Once(cfg, call)];
    }
  }

  lemma OnceIsAdmitted(cfg: Settings, call: Call)
    requires SignatureGuard.Genuine(cfg, call.request, call.wall) && cfg.ttl > 0.0
    ensures var log := Once(cfg, call).log;
      Load(cfg, log, call.now) == 1 && Admissions(cfg, log, call.request.signature.value, call.now) == 1
  {
    var a := SignatureGuard.Accepted(call.request.signature.value, call.wall, call.now);
    assert SignatureGuard.Verify(cfg, [], call).0;
    assert Once(cfg, call).log == [] + [a];
    SumAppend(Any(call.now, cfg.ttl), [], a);
    SumAppend(Of(a.signature, call.now, cfg.ttl), [], a);
  }

  lemma {:induction false} SumAllOnes<T>(f: T -> nat, s: seq<T>)
    requires forall i :: 0 <= i < |s| ==> f(s[i]) == 1
    ensures Sum(f, s) == |s|
  {
    if s != [] { SumAllOnes(f, s[1..]); }
  }

  lemma AllAdmit(cfg: Settings, n: nat, call: Call)
    requires SignatureGuard.Genuine(cfg, call.request, call.wall) && cfg.ttl > 0.0
    ensures var states := After(cfg, n, ToAll(call, n));
      && LightlyLoaded(cfg, states, call.now)
      && AllAdmissions(cfg, states, call.request.signature.value, call.now) == n
  {
    EachAccepts(cfg, n, call, n);
    OnceIsAdmitted(cfg, call);
    var states := After(cfg, n, ToAll(call, n));
    forall p | 0 <= p < n
      ensures AdmissionsAt(cfg, call.request.signature.value, call.now)(states[p]) == 1
    {
      assert states[p] == Once(cfg, call);
    }
    SumAllOnes(AdmissionsAt(cfg, call.request.signature.value, call.now), states);
  }

  /** With n lightly loaded processes no signature is admitted more than m times within a TTL. */
  ghost predicate AdmitsAtMost(cfg: Settings, n: nat, m: nat) {
    forall es, signature, from :: Ordered(es) && LightlyLoaded(cfg, After(cfg, n, es), from) ==>
      AllAdmissions(cfg, After(cfg, n, es), signature, from) <= m
  }

  /** The number of processes is exactly how often a signature can be admitted within its TTL; it is good
      once exactly where there is one process. */
  lemma AdmissionsAreOnePerProcess(cfg: Settings, n: nat, m: nat, call: Call)
    requires SignatureGuard.Genuine(cfg, call.request, call.wall) && cfg.ttl > 0.0 && cfg.maxsize >= 1
    ensures AdmitsAtMost(cfg, n, m) <==> n <= m
  {
    if n <= m {
      forall es, signature, from | Ordered(es) && LightlyLoaded(cfg, After(cfg, n, es), from)
        ensures AllAdmissions(cfg, After(cfg, n, es), signature, from) <= m
      {
        OneAdmissionPerProcess(cfg, n, es, signature, from);
      }
    } else {
      AllAdmit(cfg, n, call);
      assert Ordered(ToAll(call, n));
    }
  }
}
