/** The generic materialised cache: a cache level made of four behaviours and
    nothing else. The backend state `S` that the behaviours act on is passed
    explicitly, because a pure model has no hidden mutable `self`. */
module BasicCaches {
  import opened Results
  import opened Transformers

  datatype BasicCache<!S, !K, !V> = BasicCache(
    getClosure: (S, K) -> Result<V>,
    setClosure: (S, K, V) -> S,
    clearClosure: S -> S,
    memoryClosure: S -> S)

  /** `postProcess`: a new vessel whose get runs the wrapped get and, on
      success, the transformer; the write, clear and memory-warning behaviours
      are the wrapped level's own, so the transformer never sees a write. */
  function PostProcess<S(!new), K(!new), V>(level: BasicCache<S, K, V>, transformer: OneWayTransformer<V>): (r: BasicCache<S, K, V>)
    ensures r.setClosure == level.setClosure
    ensures r.clearClosure == level.clearClosure
    ensures r.memoryClosure == level.memoryClosure
    ensures forall s, key :: level.getClosure(s, key).Failure? ==> r.getClosure(s, key) == level.getClosure(s, key)
    ensures forall s, key :: level.getClosure(s, key).Success? ==> r.getClosure(s, key) == transformer(level.getClosure(s, key).value)
  {
    BasicCache(
      (s, key) => Bind(level.getClosure(s, key), transformer),
      level.setClosure,
      level.clearClosure,
      level.memoryClosure)
  }
}
