/** The post-processing decorator. A cache is a backend wrapped in any number
    of post-processing layers; its operations are those of the vessel the
    layers materialise to, run against the backend's state. */
module PostProcessing {
  import opened Results
  import opened Transformers
  import opened Backend
  import BasicCaches

  /** `Base` is a backend cache level; `PostProcessed` is the cache level
      returned by `postProcess` on `inner`. The key and value types never
      change, which is what lets layers stack. */
  datatype Cache<K, !V> =
    | Base(store: Store<K, V>)
    | PostProcessed(inner: Cache<K, V>, transformer: OneWayTransformer<V>)

  /** The backend as a cache level of four behaviours. */
  function BackendLevel<K(!new), V(!new)>(): BasicCaches.BasicCache<Store<K, V>, K, V>
  {
    BasicCaches.BasicCache(
      (s, key) => Lookup(s, key),
      (s, key, value) => Put(s, key, value),
      s => Wipe(s),
      s => Warn(s))
  }

  /** The state of the backend at the bottom of the stack of layers. */
  function StoreOf<K, V>(c: Cache<K, V>): (s: Store<K, V>)
  {
    match c
    case Base(s) => s
    case PostProcessed(inner, _) => StoreOf(inner)
  }

  /** The transformers of the layers, innermost first: the order in which a
      get runs them. */
  function Pipeline<K, V>(c: Cache<K, V>): (ts: seq<OneWayTransformer<V>>)
  {
    match c
    case Base(_) => []
    case PostProcessed(inner, t) => Pipeline(inner) + [t]
  }

  /** The same stack of layers over a backend in state `s`. */
  function WithStore<K, V>(c: Cache<K, V>, s: Store<K, V>): (r: Cache<K, V>)
    ensures StoreOf(r) == s
    ensures Pipeline(r) == Pipeline(c)
  {
    match c
    case Base(_) => Base(s)
    case PostProcessed(inner, t) => PostProcessed(WithStore(inner, s), t)
  }

  /** The vessel a stack of layers stands for: each layer is one call of
      `postProcess`. However deep the stack, its write, clear and
      memory-warning behaviours are the backend's own. */
  function Materialize<K(!new), V(!new)>(c: Cache<K, V>): (level: BasicCaches.BasicCache<Store<K, V>, K, V>)
    ensures level.setClosure == BackendLevel<K, V>().setClosure
    ensures level.clearClosure == BackendLevel<K, V>().clearClosure
    ensures level.memoryClosure == BackendLevel<K, V>().memoryClosure
  {
    match c
    case Base(_) => BackendLevel()
    case PostProcessed(inner, t) => BasicCaches.PostProcess(Materialize(inner), t)
  }

  /** The decorated get: a backend answers with its lookup, and a layer
      binds the wrapped get to its transformer. */
  function Get<K(!new), V(!new)>(c: Cache<K, V>, key: K): (r: Result<V>)
    ensures c.Base? ==> r == Lookup(c.store, key)
    ensures c.PostProcessed? ==> r == Bind(Get(c.inner, key), c.transformer)
  {
    Materialize(c).getClosure(StoreOf(c), key)
  }

  /** A write through any number of layers reaches the backend with the value
      untransformed, and leaves the layers as they were. */
  function Set<K(!new), V(!new)>(c: Cache<K, V>, key: K, value: V): (r: Cache<K, V>)
    ensures Pipeline(r) == Pipeline(c)
    ensures StoreOf(r) == Put(StoreOf(c), key, value)
  {
    WithStore(c, Materialize(c).setClosure(StoreOf(c), key, value))
  }

  /** Clearing through any number of layers clears the backend. */
  function Clear<K(!new), V(!new)>(c: Cache<K, V>): (r: Cache<K, V>)
    ensures Pipeline(r) == Pipeline(c)
    ensures StoreOf(r) == Wipe(StoreOf(c))
  {
    WithStore(c, Materialize(c).clearClosure(StoreOf(c)))
  }

  /** A memory warning through any number of layers is the backend's. */
  function OnMemoryWarning<K(!new), V(!new)>(c: Cache<K, V>): (r: Cache<K, V>)
    ensures Pipeline(r) == Pipeline(c)
    ensures StoreOf(r) == Warn(StoreOf(c))
  {
    WithStore(c, Materialize(c).memoryClosure(StoreOf(c)))
  }

  /** `cache.postProcess(transformer)`: one more layer over the same backend,
      whose get is the wrapped get followed, on success only, by the
      transformer. */
  function PostProcess<K(!new), V(!new)>(cache: Cache<K, V>, transformer: OneWayTransformer<V>): (r: Cache<K, V>)
    ensures Materialize(r) == BasicCaches.PostProcess(Materialize(cache), transformer)
    ensures StoreOf(r) == StoreOf(cache)
    ensures Pipeline(r) == Pipeline(cache) + [transformer]
    ensures forall key :: Get(cache, key).Failure? ==> Get(r, key) == Get(cache, key)
    ensures forall key :: Get(cache, key).Success? ==> Get(r, key) == transformer(Get(cache, key).value)
  {
    PostProcessed(cache, transformer)
  }

  /** `cache ~>> transformer`: the same decorator written as an operator. */
  function PostProcessOp<K(!new), V(!new)>(cache: Cache<K, V>, transformer: OneWayTransformer<V>): (r: Cache<K, V>)
    ensures r == PostProcess(cache, transformer)
    ensures StoreOf(r) == StoreOf(cache)
    ensures Pipeline(r) == Pipeline(cache) + [transformer]
  {
    PostProcess(cache, transformer)
  }

  /** `cache ~>> ts[0] ~>> ts[1] ~>> ...`, grouped to the left. */
  function Chain<K(!new), V(!new)>(cache: Cache<K, V>, ts: seq<OneWayTransformer<V>>): (r: Cache<K, V>)
    ensures StoreOf(r) == StoreOf(cache)
    ensures Pipeline(r) == Pipeline(cache) + ts
    decreases |ts|
  {
    if |ts| == 0 then cache
    else
      var next := PostProcessOp(cache, ts[0]);
      assert Pipeline(cache) + ts == Pipeline(next) + ts[1..];
      Chain(next, ts[1..])
  }

  /** Reference semantics of a get: the backend's outcome threaded through the
      transformers in order, stopping at the first failure. */
  function RunPipeline<V>(ts: seq<OneWayTransformer<V>>, r: Result<V>): (out: Result<V>)
    decreases |ts|
  {
    if |ts| == 0 then r else RunPipeline(ts[1..], Bind(r, ts[0]))
  }

  /** A get that also records the values handed to transformers, in order:
      the observable trace of which transformers ran. */
  datatype Traced<V> = Traced(result: Result<V>, fed: seq<V>)

  function GetTraced<K(!new), V(!new)>(c: Cache<K, V>, key: K): (r: Traced<V>)
    ensures |r.fed| <= |Pipeline(c)|
    ensures r.result.Success? ==> |r.fed| == |Pipeline(c)|
    ensures Lookup(StoreOf(c), key).Failure? ==> r.fed == [] && r.result == Failure(NotFound)
    ensures |r.fed| > 0 ==> Lookup(StoreOf(c), key) == Success(r.fed[0])
    ensures Lookup(StoreOf(c), key).Success? && |Pipeline(c)| > 0 ==> |r.fed| > 0
    ensures r.fed == [] ==> r.result == Lookup(StoreOf(c), key)
    ensures forall i :: 0 < i < |r.fed| ==> Pipeline(c)[i - 1](r.fed[i - 1]) == Success(r.fed[i])
    ensures |r.fed| > 0 ==> Pipeline(c)[|r.fed| - 1](r.fed[|r.fed| - 1]) == r.result
  {
    match c
    case Base(s) => Traced(Lookup(s, key), [])
    case PostProcessed(inner, t) =>
      var before := GetTraced(inner, key);
      match before.result
      case Failure(e) => Traced(Failure(e), before.fed)
      case Success(v) => Traced(t(v), before.fed + [v])
  }
}
