/** The part of Redis the worker relies on: GET, SET, EXPIRE and DEL on string
    keys, with time as an explicit number of seconds. A key whose expiry time
    has been reached reads as absent. */
module KeyValue {
  import opened Wrappers

  /** A stored value and, after EXPIRE, the second at which it disappears. */
  datatype Entry<V> = Entry(value: V, expiresAt: Option<int>)

  type Store<V> = map<string, Entry<V>>

  /** The key holds a value at second `now`. */
  predicate Live<V>(s: Store<V>, key: string, now: int)
  {
    key in s && (s[key].expiresAt.None? || now < s[key].expiresAt.value)
  }

  /** GET: the value when the key is live, nil otherwise. */
  function Lookup<V>(s: Store<V>, key: string, now: int): (r: Option<V>)
    ensures r.Some? <==> Live(s, key, now)
    ensures r.Some? ==> r.value == s[key].value
  {
    if Live(s, key, now) then Some(s[key].value) else None
  }

  /** The two stores agree on every key other than `key`. */
  ghost predicate SameElsewhere<V>(s: Store<V>, t: Store<V>, key: string)
  {
    forall k :: k != key ==> (k in s <==> k in t) && (k in s ==> s[k] == t[k])
  }

  /** SET: the key holds `v` with no expiry (SET discards an earlier TTL). */
  function Put<V>(s: Store<V>, key: string, v: V): (t: Store<V>)
    ensures forall now :: Lookup(t, key, now) == Some(v)
    ensures SameElsewhere(s, t, key)
  {
    s[key := Entry(v, None)]
  }

  /** EXPIRE: a live key disappears `seconds` after `now`; EXPIRE on a missing
      key does nothing. */
  function WithExpiry<V>(s: Store<V>, key: string, seconds: int, now: int): (t: Store<V>)
    ensures Live(s, key, now) ==>
      forall later :: Lookup(t, key, later) == (if later < now + seconds then Lookup(s, key, now) else None)
    ensures !Live(s, key, now) ==> forall later :: later >= now ==> !Live(t, key, later)
    ensures SameElsewhere(s, t, key)
  {
    if Live(s, key, now) then s[key := Entry(s[key].value, Some(now + seconds))] else s
  }

  /** DEL: the key is gone. */
  function Without<V>(s: Store<V>, key: string): (t: Store<V>)
    ensures forall now :: Lookup(t, key, now) == None
    ensures SameElsewhere(s, t, key)
  {
    map k | k in s && k != key :: s[k]
  }

  /** A key written by SET and then given a TTL by EXPIRE at `now` reads as
      that value exactly until `now + seconds`. */
  lemma Lease<V>(s: Store<V>, key: string, v: V, seconds: int, now: int, later: int)
    ensures Lookup(WithExpiry(Put(s, key, v), key, seconds, now), key, later) ==
      (if later < now + seconds then Some(v) else None)
  {
    assert Live(Put(s, key, v), key, now);
  }

  /** A command as the Redis server receives it. */
  datatype Command<V> = GetCmd(key: string) | SetCmd(key: string, value: V)
                      | ExpireCmd(key: string, seconds: int) | DelCmd(key: string)

  /** A connection to the Redis server: its state is the store, and `log` is
      every command sent on it, in the order sent. */
  class Redis<V> {
    var store: Store<V>
    var log: seq<Command<V>>

    constructor(initial: Store<V>)
      ensures store == initial && log == []
    {
      store := initial;
      log := [];
    }

    method Get(key: string, now: int) returns (r: Option<V>)
      modifies this
      ensures r == Lookup(store, key, now)
      ensures store == old(store) && log == old(log) + [GetCmd(key)]
    {
      r := Lookup(store, key, now);
      log := log + [GetCmd(key)];
    }

    method Set(key: string, v: V)
      modifies this
      ensures store == Put(old(store), key, v)
      ensures log == old(log) + [SetCmd(key, v)]
    {
      store := Put(store, key, v);
      log := log + [SetCmd(key, v)];
    }

    method Expire(key: string, seconds: int, now: int)
      modifies this
      ensures store == WithExpiry(old(store), key, seconds, now)
      ensures log == old(log) + [ExpireCmd(key, seconds)]
    {
      store := WithExpiry(store, key, seconds, now);
      log := log + [ExpireCmd(key, seconds)];
    }

    method Del(key: string)
      modifies this
      ensures store == Without(old(store), key)
      ensures log == old(log) + [DelCmd(key)]
    {
      store := Without(store, key);
      log := log + [DelCmd(key)];
    }
  }
}
