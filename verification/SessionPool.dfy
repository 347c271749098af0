/** The pool of idle exchange clients (app/execution/session_pool.py), one call at a time. */
module SessionPool {
  import opened Wrappers

  /** The credential key (exchange_id, api_key, secret). */
  datatype Key = Key(exchangeId: string, apiKey: string, secret: string)

  /** A client object: its identity and the key stored on it as `_pool_key`. */
  datatype Client = Client(id: nat, key: Key)

  /** What a caller may hand to `release`: a client of this pool, or an object without `_pool_key`. */
  datatype Exchange = Pooled(client: Client) | Foreign(name: nat)

  /** `_pools` seen as a value: the idle clients of each key, oldest first. */
  type Shelf = map<Key, seq<Client>>

  function Idle(shelf: Shelf, key: Key): seq<Client> {
    if key in shelf then shelf[key] else []
  }

  /** `acquire` under the lock: the queue comes into being, and its oldest client is taken if there is one. */
  function Take(shelf: Shelf, key: Key): (Option<Client>, Shelf) {
    var idle := Idle(shelf, key);
    if idle != [] then (Some(idle[0]), shelf[key := idle[1..]]) else (None, shelf[key := []])
  }

  /** `release` of a pooled client: kept while the queue is below `maxsize`, otherwise to be closed. */
  function Offer(shelf: Shelf, c: Client, maxsize: int): (bool, Shelf) {
    var idle := Idle(shelf, c.key);
    if |idle| < maxsize then (true, shelf[c.key := idle + [c]]) else (false, shelf[c.key := idle])
  }

  function OfferAll(shelf: Shelf, cs: seq<Client>, maxsize: int): Shelf
    decreases |cs|
  {
    if cs == [] then shelf else OfferAll(Offer(shelf, cs[0], maxsize).1, cs[1..], maxsize)
  }

  function TakeMany(shelf: Shelf, key: Key, n: nat): seq<Option<Client>>
    decreases n
  {
    if n == 0 then [] else
      var (c, rest) := Take(shelf, key);
      [c] + TakeMany(rest, key, n - 1)
  }

  /** How much of what is offered fits, and where it ends up. */
  lemma {:induction false} OfferAllKeepsPrefix(shelf: Shelf, key: Key, cs: seq<Client>, maxsize: int)
    requires forall c :: c in cs ==> c.key == key
    requires |Idle(shelf, key)| <= Max(0, maxsize)
    ensures var room := Min(|cs|, Max(0, maxsize) - |Idle(shelf, key)|);
            Idle(OfferAll(shelf, cs, maxsize), key) == Idle(shelf, key) + cs[..room]
    ensures forall k :: k != key ==> Idle(OfferAll(shelf, cs, maxsize), k) == Idle(shelf, k)
    decreases |cs|
  {
    if cs != [] {
      var next := Offer(shelf, cs[0], maxsize).1;
      OfferAllKeepsPrefix(next, key, cs[1..], maxsize);
      var room := Min(|cs|, Max(0, maxsize) - |Idle(shelf, key)|);
      if |Idle(shelf, key)| < maxsize {
        assert cs[..room] == [cs[0]] + cs[1..][..room - 1];
      }
    }
  }

  lemma {:induction false} TakeManyInOrder(shelf: Shelf, key: Key, n: nat)
    ensures |TakeMany(shelf, key, n)| == n
    ensures forall i :: 0 <= i < n ==>
      TakeMany(shelf, key, n)[i] == if i < |Idle(shelf, key)| then Some(Idle(shelf, key)[i]) else None
    decreases n
  {
    if n > 0 {
      TakeManyInOrder(Take(shelf, key).1, key, n - 1);
    }
  }

  /** Reuse is first in, first out: of the clients returned to an empty queue, exactly the first
      `maxsize` come back, in the order of return, and every later request finds the queue empty. */
  lemma ReturnedClientsComeBackInOrder(shelf: Shelf, key: Key, cs: seq<Client>, maxsize: int, n: nat)
    requires Idle(shelf, key) == []
    requires forall c :: c in cs ==> c.key == key
    ensures var got := TakeMany(OfferAll(shelf, cs, maxsize), key, n);
            && |got| == n
            && forall i :: 0 <= i < n ==>
                 got[i] == if i < |cs| && i < maxsize then Some(cs[i]) else None
  {
    OfferAllKeepsPrefix(shelf, key, cs, maxsize);
    TakeManyInOrder(OfferAll(shelf, cs, maxsize), key, n);
  }

  class ExchangeSessionPool {
    const maxsize: int
    var pools: Shelf
    var created: nat
    var closed: seq<Exchange>

    constructor (maxsize: int)
      ensures this.maxsize == maxsize && pools == map[] && created == 0 && closed == []
      ensures Valid()
    {
      this.maxsize := maxsize;
      pools, created, closed := map[], 0, [];
    }

    /** Every idle client is filed under its own key, was created here, and no queue is over capacity. */
    ghost predicate Valid()
      reads this
    {
      forall k :: k in pools ==>
        && |pools[k]| <= Max(0, maxsize)
        && forall c :: c in pools[k] ==> c.key == k && c.id < created
    }

    /** `construct` is what instantiating the ccxt class does when it is reached. */
    method Acquire(key: Key, construct: Option<Error>) returns (r: Result<Client, Error>)
      requires Valid()
      modifies this`pools, this`created
      ensures Valid()
      ensures pools == Take(old(pools), key).1
      ensures match Take(old(pools), key).0
              case Some(c) => r == Success(c) && created == old(created)
              case None =>
                if construct.Some? then r == Failure(construct.value) && created == old(created)
                else r == Success(Client(old(created), key)) && created == old(created) + 1
      ensures r.Success? ==> r.value.key == key && r.value.id < created
      ensures key in pools && forall k :: k != key ==> Idle(pools, k) == Idle(old(pools), k)
      ensures var idle := Idle(old(pools), key);
        if idle == [] then pools[key] == [] else r == Success(idle[0]) && pools[key] == idle[1..]
    {
      if key !in pools {
        pools := pools[key := []];
      }
      if pools[key] != [] {
        var c := pools[key][0];
        pools := pools[key := pools[key][1..]];
        return Success(c);
      }
      if construct.Some? {
        return Failure(construct.value);
      }
      r := Success(Client(created, key));
      created := created + 1;
    }

    /** `closing` is what `exchange.close()` raises when it is reached. */
    method Release(exchange: Exchange, closing: Option<Error>) returns (raised: Option<Error>)
      requires Valid()
      requires exchange.Pooled? ==> exchange.client.id < created
      modifies this`pools, this`closed
      ensures Valid()
      ensures exchange.Foreign? ==> pools == old(pools) && closed == old(closed) + [exchange] && raised == closing
      ensures exchange.Pooled? ==>
        var (kept, shelf) := Offer(old(pools), exchange.client, maxsize);
        && pools == shelf
        && closed == (if kept then old(closed) else old(closed) + [exchange])
        && raised == (if kept then None else closing)
      ensures exchange.Pooled? ==>
        var key := exchange.client.key;
        && (forall k :: k != key ==> Idle(pools, k) == Idle(old(pools), k))
        && if |Idle(old(pools), key)| < maxsize
           then Idle(pools, key) == Idle(old(pools), key) + [exchange.client] && closed == old(closed) && raised == None
           else Idle(pools, key) == Idle(old(pools), key) && closed == old(closed) + [exchange] && raised == closing
    {
      if exchange.Foreign? {
        closed := closed + [exchange];
        return closing;
      }
      var key := exchange.client.key;
      if key !in pools {
        pools := pools[key := []];
      }
      if |pools[key]| < maxsize {
        pools := pools[key := pools[key] + [exchange.client]];
        raised := None;
      } else {
        closed := closed + [exchange];
        raised := closing;
      }
    }
  }
}
