/** An abstract cache backend: a key/value map plus a log of the write-side
    calls that reached it, which is how the model observes delegation. */
module Backend {
  import opened Results

  /** A write-side call as the backend received it. */
  datatype Call<K, V> = SetCall(key: K, value: V) | ClearCall | MemoryWarningCall

  datatype Store<K, V> = Store(entries: map<K, V>, calls: seq<Call<K, V>>)

  /** A fetch: the stored value, or `NotFound` for an absent key. */
  function Lookup<K, V>(s: Store<K, V>, key: K): (r: Result<V>)
    ensures r.Success? <==> key in s.entries
    ensures r.Success? ==> r.value == s.entries[key]
    ensures r.Failure? ==> r.error == NotFound
  {
    if key in s.entries then Success(s.entries[key]) else Failure(NotFound)
  }

  /** A write: afterwards `key` yields exactly `value`, every other key is as
      before, and the call is logged. */
  function Put<K(!new), V>(s: Store<K, V>, key: K, value: V): (r: Store<K, V>)
    ensures Lookup(r, key) == Success(value)
    ensures forall other :: other != key ==> Lookup(r, other) == Lookup(s, other)
    ensures r.calls == s.calls + [SetCall(key, value)]
  {
    Store(s.entries[key := value], s.calls + [SetCall(key, value)])
  }

  /** Clearing: afterwards every key is absent. */
  function Wipe<K(!new), V>(s: Store<K, V>): (r: Store<K, V>)
    ensures forall key :: Lookup(r, key) == Failure(NotFound)
    ensures r.calls == s.calls + [ClearCall]
  {
    Store(map[], s.calls + [ClearCall])
  }

  /** A memory warning is recorded. What a concrete backend evicts in
      reaction is not modelled; the model's backend keeps its entries on a
      warning. */
  function Warn<K(!new), V>(s: Store<K, V>): (r: Store<K, V>)
    ensures forall key :: Lookup(r, key) == Lookup(s, key)
    ensures r.calls == s.calls + [MemoryWarningCall]
  {
    Store(s.entries, s.calls + [MemoryWarningCall])
  }
}
