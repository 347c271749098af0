/** Why the bound by holders alone needs creation to follow the lookup at once: with another task in
    between, more clients are open than were ever held. */
module PoolWitness {
  import opened Wrappers
  import opened Counting
  import opened SessionPool
  import opened PoolProtocol

  const K: Key := Key("x", "a", "s")
  const A: Client := Client(0, K)
  const B: Client := Client(1, K)
  const J: Job := Job("x", Some("a"), Some("s"))

  function W(): World { World(1, {"x"}, name => name, "", "", [J, J]) }

  /** A state of the two tasks in which `created` clients exist, all acquired, `returned` ones given back. */
  function S(q: seq<seq<Client>>, lock: Option<nat>, created: seq<Client>, returned: seq<Client>, p0: Pc, p1: Pc): State {
    State(if q == [] then map[] else map[K := 0], q, lock, created, [], created, returned, [], [p0, p1])
  }

  const LOST: Outcome := Failed(NetworkError)

  /** The second task finds the queue empty while the first holds A; A is put back; the second creates B. */
  function Run(): seq<State> {
    [ S([], None, [], [], Start, Start),
      S([], None, [], [], AwaitLookup(K), Start),
      S([], Some(0), [], [], Lookup(K), Start),
      S([[]], None, [], [], Create(K), Start),
      S([[]], None, [A], [], LoadMarkets(A), Start),
      S([[]], None, [A], [], LoadMarkets(A), AwaitLookup(K)),
      S([[]], Some(1), [A], [], LoadMarkets(A), Lookup(K)),
      S([[]], None, [A], [], LoadMarkets(A), Create(K)),
      S([[]], None, [A], [A], AwaitReturn(A, LOST), Create(K)),
      S([[]], Some(0), [A], [A], Return(A, LOST), Create(K)),
      S([[], []], None, [A], [A], Check(A, 0, LOST), Create(K)),
      S([[A], []], None, [A], [A], Done(LOST), Create(K)),
      S([[A], []], None, [A, B], [A], Done(LOST), LoadMarkets(B)) ]
  }

  function Events(): seq<Event> {
    [ Event(0, Ok), Event(0, Ok), Event(0, Ok), Event(0, Ok),
      Event(1, Ok), Event(1, Ok), Event(1, Ok),
      Event(0, Raise(NetworkError)), Event(0, Ok), Event(0, Ok), Event(0, Ok),
      Event(1, Ok) ]
  }

  ghost predicate Follows(i: nat)
    requires i < 12
  {
    |Run()[i].tasks| == 2 && Enabled(W(), Run()[i], Events()[i]) && Run()[i + 1] == Do(W(), Run()[i], Events()[i])
  }

  lemma FollowsFirst() ensures Follows(0) && Follows(1) && Follows(2) && Follows(3) {
    assert SessionKey(W(), J) == Success(K);
  }
  lemma FollowsSecond() ensures Follows(4) && Follows(5) && Follows(6) && Follows(7) {
    assert SessionKey(W(), J) == Success(K);
  }
  lemma FollowsThird() ensures Follows(8) && Follows(9) && Follows(10) && Follows(11) {
    var q: seq<Client> := [];
    assert q + [A] == [A];
    assert [q, q][0 := [A]] == [[A], q];
  }

  lemma HeldByTwo(s: State)
    requires |s.tasks| == 2
    ensures HeldCount(s, K) == Hand(OfKey(K), s.tasks[0]) + Hand(OfKey(K), s.tasks[1])
  {
    var f, rest := InHand(OfKey(K)), s.tasks[1..];
    assert rest[1..] == [] && rest[0] == s.tasks[1];
    assert Sum(f, s.tasks) == f(s.tasks[0]) + Sum(f, rest);
    assert Sum(f, rest) == f(rest[0]) + Sum(f, rest[1..]);
  }

  lemma HeldAtMostOne(i: nat)
    requires i < 13
    ensures HeldCount(Run()[i], K) <= 1
  {
    HeldByTwo(Run()[i]);
  }

  lemma {:induction false} PeakHeldAtMostOne(i: nat)
    requires i < 13
    ensures PeakHeld(Run(), i, K) <= 1
  {
    HeldAtMostOne(i);
    if i > 0 { PeakHeldAtMostOne(i - 1); }
  }

  lemma FollowsAt(i: nat)
    requires i < 12
    ensures Follows(i)
  {
    if i < 4 { FollowsFirst(); } else if i < 8 { FollowsSecond(); } else { FollowsThird(); }
  }

  lemma StepsMakeARun(w: World, run: seq<State>, events: seq<Event>)
    requires |run| == |events| + 1 && run[0] == Init(w)
    requires forall i :: 0 <= i < |events| ==>
      |run[i].tasks| == |w.jobs| && Enabled(w, run[i], events[i]) && run[i + 1] == Do(w, run[i], events[i])
    ensures IsRun(w, run, events)
  {
  }

  lemma RunIsARun()
    ensures IsRun(W(), Run(), Events())
  {
    assert |Run()| == 13 && |Events()| == 12 && Run()[0] == Init(W());
    forall i | 0 <= i < 12
      ensures |Run()[i].tasks| == |W().jobs| && Enabled(W(), Run()[i], Events()[i])
           && Run()[i + 1] == Do(W(), Run()[i], Events()[i])
    {
      FollowsAt(i);
    }
    StepsMakeARun(W(), Run(), Events());
  }

  lemma TwoOpen()
    ensures Open(Run()[12], K) == 2
  {
    var s := Run()[12];
    HeldByTwo(s);
    assert Filed(s) by { assert s.queues[0] == [A] && s.queues[1] == []; }
    IdleInOwnQueue(s, K);
  }

  /** A run of two tasks after which two clients are open, though never more than one was held. */
  lemma HoldersAloneDoNotBoundOpen()
    ensures exists w, run, events, k :: IsRun(w, run, events) && Open(run[|events|], k) > PeakHeld(run, |events|, k)
  {
    RunIsARun();
    PeakHeldAtMostOne(12);
    TwoOpen();
    assert Open(Run()[|Events()|], K) > PeakHeld(Run(), |Events()|, K);
  }
}
