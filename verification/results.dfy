/** Synchronous stand-in for the asynchronous outcome a cache `get` or a
    transformer delivers: it settles either with a value or with a failure
    reason. */
module Results {

  /** Failure reasons. `NotFound` is what a backend reports for an absent key;
      transformers may reject with `TransformRejected` or any other reason. */
  datatype Error = NotFound | TransformRejected | Other(reason: string)

  datatype Result<V> = Success(value: V) | Failure(error: Error)

  /** Chaining a further step onto an outcome (`mutate` on a future): a
      success feeds its value to `f`, a failure settles unchanged and `f` is
      never consulted. */
  function Bind<V, W>(r: Result<V>, f: V -> Result<W>): (b: Result<W>)
  {
    match r
    case Success(v) => f(v)
    case Failure(e) => Failure(e)
  }

  /** Steps chained one after the other may be regrouped. */
  lemma BindAssociative<U, V, W>(r: Result<U>, f: U -> Result<V>, g: V -> Result<W>)
    ensures Bind(Bind(r, f), g) == Bind(r, x => Bind(f(x), g))
  {
  }
}
