/** A bounded cache whose entries expire a fixed time after they are written, as `TTLCache` of the
    cachetools library documents it; the two module-level caches of app/identity/auth.py are of this
    kind. Times are readings of the cache's own clock. */
module TtlCaches {
  import opened Wrappers

  datatype Entry<K, V> = Entry(key: K, value: V, expires: real)

  /** The entries, least recently used first. */
  type Entries<K, V> = seq<Entry<K, V>>

  function Live<K, V>(es: Entries<K, V>, now: real): (r: Entries<K, V>)
    ensures |r| <= |es|
  {
    if es == [] then []
    else if now < es[0].expires then [es[0]] + Live(es[1..], now)
    else Live(es[1..], now)
  }

  function Without<K(==), V>(es: Entries<K, V>, key: K): (r: Entries<K, V>)
    ensures |r| <= |es|
  {
    if es == [] then []
    else if es[0].key != key then [es[0]] + Without(es[1..], key)
    else Without(es[1..], key)
  }

  /** The live entry of a key, if there is one. */
  function Find<K(==), V>(es: Entries<K, V>, key: K, now: real): (r: Option<Entry<K, V>>)
    ensures r.Some? ==> r.value in es && r.value.key == key && now < r.value.expires
    ensures r.None? ==> forall e | e in es && e.key == key :: e.expires <= now
  {
    if es == [] then None
    else if es[0].key == key && now < es[0].expires then Some(es[0])
    else Find(es[1..], key, now)
  }

  /** `key in cache`: no effect on the order. */
  predicate Contains<K(==), V>(es: Entries<K, V>, key: K, now: real) { Find(es, key, now).Some? }

  /** `cache.get(key)`: a hit becomes the most recently used; its expiry stays. */
  function Touch<K(==), V>(es: Entries<K, V>, key: K, now: real): Entries<K, V> {
    match Find(es, key, now)
    case Some(e) => Without(es, key) + [e]
    case None => es
  }

  /** What a write keeps: the live entries of other keys, the oldest dropped when there is no room. */
  function Kept<K(==), V>(es: Entries<K, V>, key: K, now: real, maxsize: nat): Entries<K, V> {
    var rest := Without(Live(es, now), key);
    if |rest| < maxsize then rest else rest[|rest| - Max(0, maxsize - 1)..]
  }

  /** `cache[key] = value`. */
  function Written<K(==), V>(es: Entries<K, V>, key: K, value: V, now: real, ttl: real, maxsize: nat): Entries<K, V> {
    Kept(es, key, now, maxsize) + [Entry(key, value, now + ttl)]
  }

  lemma {:induction false} LiveMembers<K, V>(es: Entries<K, V>, now: real)
    ensures forall e :: e in Live(es, now) ==> e in es && now < e.expires
    ensures forall e :: e in es && now < e.expires ==> e in Live(es, now)
  {
    if es != [] { LiveMembers(es[1..], now); }
  }

  lemma {:induction false} WithoutMembers<K, V>(es: Entries<K, V>, key: K)
    ensures forall e :: e in Without(es, key) ==> e in es && e.key != key
    ensures forall e :: e in es && e.key != key ==> e in Without(es, key)
  {
    if es != [] { WithoutMembers(es[1..], key); }
  }

  lemma {:induction false} LiveWhole<K, V>(es: Entries<K, V>, now: real)
    requires forall i :: 0 <= i < |es| ==> now < es[i].expires
    ensures Live(es, now) == es
  {
    if es != [] { LiveWhole(es[1..], now); }
  }

  lemma {:induction false} WithoutAbsent<K, V>(es: Entries<K, V>, key: K)
    requires forall e :: e in es ==> e.key != key
    ensures Without(es, key) == es
  {
    if es != [] { WithoutAbsent(es[1..], key); }
  }

  ghost predicate DistinctKeys<K, V>(es: Entries<K, V>) {
    forall i, j :: 0 <= i < j < |es| ==> es[i].key != es[j].key
  }

  lemma {:induction false} LiveDistinct<K, V>(es: Entries<K, V>, now: real)
    requires DistinctKeys(es)
    ensures DistinctKeys(Live(es, now))
  {
    if es != [] {
      LiveDistinct(es[1..], now);
      LiveMembers(es[1..], now);
    }
  }

  lemma {:induction false} WithoutDistinct<K, V>(es: Entries<K, V>, key: K)
    requires DistinctKeys(es)
    ensures DistinctKeys(Without(es, key))
  {
    if es != [] {
      WithoutDistinct(es[1..], key);
      WithoutMembers(es[1..], key);
    }
  }

  /** With distinct keys, the entry found for a key is the only one. */
  lemma {:induction false} FindUnique<K, V>(es: Entries<K, V>, e: Entry<K, V>, now: real)
    requires DistinctKeys(es) && e in es && now < e.expires
    ensures Find(es, e.key, now) == Some(e)
  {
    var i :| 0 <= i < |es| && es[i] == e;
    if i > 0 {
      assert es[1..][i - 1] == e;
      FindUnique(es[1..], e, now);
    }
  }

  lemma {:induction false} WithoutLength<K, V>(es: Entries<K, V>, key: K)
    requires DistinctKeys(es)
    ensures |Without(es, key)| == |es| - (if exists e :: e in es && e.key == key then 1 else 0)
  {
    if es != [] {
      WithoutLength(es[1..], key);
      if es[0].key == key {
        assert forall e :: e in es[1..] ==> e.key != key;
      } else {
        assert (exists e :: e in es && e.key == key) <==> (exists e :: e in es[1..] && e.key == key);
      }
    }
  }

  lemma SuffixDistinct<K, V>(es: Entries<K, V>, n: nat)
    requires DistinctKeys(es) && n <= |es|
    ensures DistinctKeys(es[n..])
  {
  }

  /** Distinct keys and the size bound survive every operation. */
  lemma TouchKeepsShape<K, V>(es: Entries<K, V>, key: K, now: real)
    requires DistinctKeys(es)
    ensures DistinctKeys(Touch(es, key, now)) && |Touch(es, key, now)| == |es|
  {
    match Find(es, key, now)
    case Some(e) =>
      WithoutDistinct(es, key);
      WithoutLength(es, key);
      WithoutMembers(es, key);
    case None =>
  }

  lemma WrittenKeepsShape<K, V>(es: Entries<K, V>, key: K, value: V, now: real, ttl: real, maxsize: nat)
    requires DistinctKeys(es) && maxsize >= 1
    ensures var w := Written(es, key, value, now, ttl, maxsize); DistinctKeys(w) && |w| <= maxsize
  {
    LiveDistinct(es, now);
    WithoutDistinct(Live(es, now), key);
    var rest := Without(Live(es, now), key);
    WithoutMembers(Live(es, now), key);
    if |rest| >= maxsize { SuffixDistinct(rest, |rest| - (maxsize - 1)); }
  }

  /** An entry is lost to a write though it has not expired and has another key. */
  predicate Evicts<K(==), V>(es: Entries<K, V>, key: K, now: real, maxsize: nat) {
    |Without(Live(es, now), key)| >= maxsize
  }

  /** The cache object. */
  class TtlCache<K(==), V> {
    const maxsize: nat
    const ttl: real
    var entries: Entries<K, V>

    constructor (maxsize: nat, ttl: real)
      requires maxsize >= 1
      ensures this.maxsize == maxsize && this.ttl == ttl && entries == [] && Valid()
    {
      this.maxsize, this.ttl := maxsize, ttl;
      entries := [];
    }

    ghost predicate Valid()
      reads this
    {
      maxsize >= 1 && DistinctKeys(entries) && |entries| <= maxsize
    }

    method Has(key: K, now: real) returns (found: bool)
      requires Valid()
      ensures found <==> Contains(entries, key, now)
    {
      found := Find(entries, key, now).Some?;
    }

    method Get(key: K, now: real) returns (hit: Option<V>)
      requires Valid()
      modifies this`entries
      ensures Valid()
      ensures entries == Touch(old(entries), key, now)
      ensures match Find(old(entries), key, now) case Some(e) => hit == Some(e.value) case None => hit == None
    {
      var found := Find(entries, key, now);
      if found.None? { return None; }
      TouchKeepsShape(entries, key, now);
      entries := Without(entries, key) + [found.value];
      hit := Some(found.value.value);
    }

    method Put(key: K, value: V, now: real)
      requires Valid()
      modifies this`entries
      ensures Valid()
      ensures entries == Written(old(entries), key, value, now, ttl, maxsize)
    {
      WrittenKeepsShape(entries, key, value, now, ttl, maxsize);
      ghost var all := Without(Live(entries, now), key);
      var rest := Without(Live(entries, now), key);
      while |rest| >= maxsize
        invariant Min(maxsize - 1, |all|) <= |rest| <= |all|
        invariant rest == all[|all| - |rest|..]
      {
        rest := rest[1..];
      }
      entries := rest + [Entry(key, value, now + ttl)];
    }
  }
}
