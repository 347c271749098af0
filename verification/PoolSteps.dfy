/** The steps of one task, run without interleaving, do to the queues what the sequential pool does. */
module PoolSteps {
  import opened Wrappers
  import opened SessionPool
  import opened PoolProtocol

  function ViewOf(pools: map<Key, nat>, queues: seq<seq<Client>>): Shelf {
    map k | k in pools && pools[k] < |queues| :: queues[pools[k]]
  }

  function View(s: State): Shelf { ViewOf(s.pools, s.queues) }

  lemma ViewWithQueue(s: State, key: Key)
    requires Filed(s)
    ensures key in WithQueue(s, key).pools
    ensures View(WithQueue(s, key)) == View(s)[key := Idle(View(s), key)]
  {
  }

  lemma ViewQueueChange(s: State, t: State, key: Key, items: seq<Client>)
    requires Filed(s) && key in s.pools && t.pools == s.pools
    requires t.queues == s.queues[s.pools[key] := items]
    ensures View(t) == View(s)[key := items]
  {
  }

  lemma LookupIsTake(w: World, s: State, i: nat, key: Key)
    requires |s.tasks| == |w.jobs| && i < |s.tasks| && s.tasks[i] == Lookup(key) && Filed(s)
    ensures var (c, shelf) := Take(View(s), key);
            var t := Do(w, s, Event(i, Ok));
            View(t) == shelf && t.tasks[i] == (if c.Some? then LoadMarkets(c.value) else Create(key))
  {
    var s1 := WithQueue(s, key);
    QueueFiled(w, s, key);
    ViewWithQueue(s, key);
    var t := TakeStep(s1, i, key, s1.pools[key]);
    assert Do(w, s, Event(i, Ok)) == t;
    ViewQueueChange(s1, t, key, Take(View(s), key).1[key]);
  }

  lemma ReturnKeepsView(s: State, i: nat, c: Client, pending: Outcome)
    requires i < |s.tasks| && Filed(s)
    ensures View(ReturnStep(s, i, c, pending)) == View(s)[c.key := Idle(View(s), c.key)]
  {
    var t := ReturnStep(s, i, c, pending);
    if c.key in s.pools {
      assert ViewOf(s.pools, s.queues + [[]]) == View(s);
    } else {
      ViewWithQueue(s, c.key);
      assert t.pools == WithQueue(s, c.key).pools && t.queues == WithQueue(s, c.key).queues;
    }
  }

  lemma ReturnAndCheckAreOffer(w: World, s: State, i: nat, c: Client, pending: Outcome)
    requires |s.tasks| == |w.jobs| && i < |s.tasks| && s.tasks[i] == Return(c, pending) && Filed(s)
    ensures var (kept, shelf) := Offer(View(s), c, w.maxsize);
            var t := Do(w, s, Event(i, Ok));
            && Enabled(w, t, Event(i, Ok))
            && var u := Do(w, t, Event(i, Ok));
               View(u) == shelf && u.tasks[i] == (if kept then Done(pending) else Close(c, pending))
  {
    CheckIsOffer(w, s, i, c, pending);
  }

  lemma CheckIsOffer(w: World, s: State, i: nat, c: Client, pending: Outcome)
    requires i < |s.tasks| && s.tasks[i] == Return(c, pending) && Filed(s)
    ensures var (kept, shelf) := Offer(View(s), c, w.maxsize);
            var t := ReturnStep(s, i, c, pending);
            var u := CheckStep(w, t, i, c, t.pools[c.key], pending);
            View(u) == shelf && u.tasks[i] == (if kept then Done(pending) else Close(c, pending))
  {
    ReturnedView(w, s, i, c, pending);
    CheckedView(w, ReturnStep(s, i, c, pending), i, c, pending);
  }

  lemma ReturnedView(w: World, s: State, i: nat, c: Client, pending: Outcome)
    requires i < |s.tasks| && Filed(s)
    ensures var t := ReturnStep(s, i, c, pending);
            Filed(t) && c.key in t.pools && View(t) == View(s)[c.key := Idle(View(s), c.key)]
  {
    ReturnKeepsView(s, i, c, pending);
    ReturnFiled(w, s, i, c, pending);
  }

  lemma CheckedView(w: World, t: State, i: nat, c: Client, pending: Outcome)
    requires i < |t.tasks| && Filed(t) && c.key in t.pools
    ensures var (kept, shelf) := Offer(View(t), c, w.maxsize);
            var u := CheckStep(w, t, i, c, t.pools[c.key], pending);
            View(u) == shelf && u.tasks[i] == (if kept then Done(pending) else Close(c, pending))
  {
    var q := t.pools[c.key];
    assert t.queues[q] == View(t)[c.key];
    if |t.queues[q]| < w.maxsize {
      ViewQueueChange(t, CheckStep(w, t, i, c, q, pending), c.key, t.queues[q] + [c]);
    } else {
      assert View(t) == View(t)[c.key := Idle(View(t), c.key)];
    }
  }
}
