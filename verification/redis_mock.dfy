/** The key-value backend as the in-memory Redis stand-in implements it: a
    plain map with `set`, `get` and `del`.  The expiry mode and duration a
    `set` carries are accepted and ignored, so expiry is not part of these
    semantics.  The mock is generic in the stored value: the store above it
    only ever writes serialised flow records. */
module RedisMock {
  import opened Base

  datatype Mock<V> = Mock(data: map<string, V>)

  /** One call the store issues against the backend. */
  datatype Command<V> =
    | SetCmd(key: string, value: V, mode: string, duration: int)
    | GetCmd(key: string)
    | DelCmd(key: string)

  /** `set(key, value, mode, duration)`: stores `value` under `key`,
      overwriting any previous value; no other key is touched. */
  function Set<V>(m: Mock<V>, key: string, value: V, mode: string, duration: int): (r: Mock<V>)
    ensures key in r.data && r.data[key] == value
    ensures r.data.Keys == m.data.Keys + {key}
    ensures forall k :: k in m.data && k != key ==> r.data[k] == m.data[k]
  {
    Mock(m.data[key := value])
  }

  /** `get(key)`: the value last stored under `key`, or `undefined`. */
  function Get<V>(m: Mock<V>, key: string): (r: Option<V>)
    ensures r.Some? <==> key in m.data
    ensures r.Some? ==> r.value == m.data[key]
  {
    if key in m.data then Some(m.data[key]) else None
  }

  /** `del(key)`: removes `key` if present and always replies with a count
      of 0 and no error; no other key is touched. */
  function Del<V>(m: Mock<V>, key: string): (r: (Mock<V>, int))
    ensures r.0.data.Keys == m.data.Keys - {key}
    ensures forall k :: k in r.0.data ==> r.0.data[k] == m.data[k]
    ensures key !in m.data ==> r.0 == m
    ensures r.1 == 0
  {
    if key in m.data then (Mock(m.data - {key}), 0) else (m, 0)
  }

  /** The backend state after one command. */
  function Apply<V>(m: Mock<V>, c: Command<V>): Mock<V> {
    match c
    case SetCmd(k, v, mode, d) => Set(m, k, v, mode, d)
    case GetCmd(_) => m
    case DelCmd(k) => Del(m, k).0
  }

  /** The backend state after a sequence of commands, in order. */
  function Replay<V>(m: Mock<V>, cs: seq<Command<V>>): Mock<V>
    decreases |cs|
  {
    if |cs| == 0 then m else Replay(Apply(m, cs[0]), cs[1..])
  }

  /** Replaying two traces one after the other is replaying their
      concatenation. */
  lemma {:induction false} ReplayAppend<V>(m: Mock<V>, a: seq<Command<V>>, b: seq<Command<V>>)
    ensures Replay(m, a + b) == Replay(Replay(m, a), b)
    decreases |a|
  {
    if |a| == 0 {
      assert a + b == b;
    } else {
      assert (a + b)[1..] == a[1..] + b;
      ReplayAppend(Apply(m, a[0]), a[1..], b);
    }
  }

  /** A read never changes the backend. */
  lemma {:induction false} ReadsOnly<V>(m: Mock<V>, cs: seq<Command<V>>)
    requires forall i :: 0 <= i < |cs| ==> cs[i].GetCmd?
    ensures Replay(m, cs) == m
    decreases |cs|
  {
    if |cs| > 0 {
      ReadsOnly(m, cs[1..]);
    }
  }

  /** set then get returns the value just stored. */
  lemma GetAfterSet<V>(m: Mock<V>, key: string, value: V, mode: string, duration: int)
    ensures Get(Set(m, key, value, mode, duration), key) == Some(value)
  {
  }

  /** get of any other key is unaffected by a set or a del. */
  lemma GetOtherKey<V>(m: Mock<V>, key: string, other: string, value: V, mode: string, duration: int)
    requires other != key
    ensures Get(Set(m, key, value, mode, duration), other) == Get(m, other)
    ensures Get(Del(m, key).0, other) == Get(m, other)
  {
  }

  /** del then get finds nothing. */
  lemma GetAfterDel<V>(m: Mock<V>, key: string)
    ensures Get(Del(m, key).0, key) == None
  {
  }

  /** A later set overwrites an earlier one, and the expiry arguments make
      no difference to the stored state. */
  lemma SetOverwrites<V>(m: Mock<V>, key: string, v1: V, v2: V, mode1: string, d1: int, mode2: string, d2: int)
    ensures Set(Set(m, key, v1, mode1, d1), key, v2, mode2, d2) == Set(m, key, v2, mode2, d2)
    ensures Set(m, key, v2, mode1, d1) == Set(m, key, v2, mode2, d2)
  {
  }

  /** Deleting twice is deleting once. */
  lemma DelIdempotent<V>(m: Mock<V>, key: string)
    ensures Del(Del(m, key).0, key) == Del(m, key)
  {
  }
}
