/** What the post-processing decorator guarantees, stated over the model. */
module PostProcessProperties {
  import opened Results
  import opened Transformers
  import opened Backend
  import opened PostProcessing

  /** Running one more transformer after a pipeline is binding its outcome. */
  lemma {:induction false} RunPipelineSnoc<V>(ts: seq<OneWayTransformer<V>>, t: OneWayTransformer<V>, r: Result<V>)
    ensures RunPipeline(ts + [t], r) == Bind(RunPipeline(ts, r), t)
    decreases |ts|
  {
    if |ts| > 0 {
      assert (ts + [t])[1..] == ts[1..] + [t];
      RunPipelineSnoc(ts[1..], t, Bind(r, ts[0]));
    }
  }

  /** Two pipelines run back to back are one pipeline. */
  lemma {:induction false} RunPipelineAppend<V>(ts: seq<OneWayTransformer<V>>, us: seq<OneWayTransformer<V>>, r: Result<V>)
    ensures RunPipeline(ts + us, r) == RunPipeline(us, RunPipeline(ts, r))
    decreases |ts|
  {
    if |ts| > 0 {
      assert (ts + us)[1..] == ts[1..] + us;
      RunPipelineAppend(ts[1..], us, Bind(r, ts[0]));
    } else {
      assert ts + us == us;
    }
  }

  /** A failure entering a pipeline leaves it unchanged: no transformer can
      turn it into a success or another failure. */
  lemma {:induction false} RunPipelineKeepsFailure<V>(ts: seq<OneWayTransformer<V>>, e: Error)
    ensures RunPipeline(ts, Failure(e)) == Failure(e)
    decreases |ts|
  {
    if |ts| > 0 {
      RunPipelineKeepsFailure(ts[1..], e);
    }
  }

  /** A get on any stack of layers is the backend's lookup run through the
      layers' transformers, innermost first. */
  lemma {:induction false} GetRunsPipeline<K(!new), V(!new)>(c: Cache<K, V>, key: K)
    ensures Get(c, key) == RunPipeline(Pipeline(c), Lookup(StoreOf(c), key))
  {
    match c
    case Base(s) =>
    case PostProcessed(inner, t) =>
      GetRunsPipeline(inner, key);
      RunPipelineSnoc(Pipeline(inner), t, Lookup(StoreOf(inner), key));
      assert PostProcessed(inner, t) == PostProcess(inner, t);
  }

  /** The traced get settles exactly as the get does. */
  lemma {:induction false} GetTracedAgrees<K(!new), V(!new)>(c: Cache<K, V>, key: K)
    ensures GetTraced(c, key).result == Get(c, key)
  {
    match c
    case Base(s) =>
    case PostProcessed(inner, t) =>
      GetTracedAgrees(inner, key);
      assert PostProcessed(inner, t) == PostProcess(inner, t);
  }

  /** The decorated get, case by case: it succeeds exactly when the wrapped
      get succeeds and the transformer accepts the fetched value, and then
      with the transformer's output; it fails with the wrapped get's reason
      when that fails, and otherwise with the transformer's reason. */
  lemma DecoratedGetOutcome<K(!new), V(!new)>(c: Cache<K, V>, t: OneWayTransformer<V>, key: K)
    ensures Get(PostProcess(c, t), key).Success? <==> Get(c, key).Success? && t(Get(c, key).value).Success?
    ensures forall v, w :: Get(c, key) == Success(v) && t(v) == Success(w) ==> Get(PostProcess(c, t), key) == Success(w)
    ensures forall e :: Get(c, key) == Failure(e) ==> Get(PostProcess(c, t), key) == Failure(e)
    ensures forall v, e :: Get(c, key) == Success(v) && t(v) == Failure(e) ==> Get(PostProcess(c, t), key) == Failure(e)
  {
  }

  /** The transformer runs only on a successful fetch, exactly once, on the
      fetched value; after a failed fetch the decorated get hands nothing to
      any transformer beyond what the wrapped get did. */
  lemma TransformerRunsOnlyOnSuccess<K(!new), V(!new)>(c: Cache<K, V>, t: OneWayTransformer<V>, key: K)
    ensures Get(c, key).Failure? ==> GetTraced(PostProcess(c, t), key).fed == GetTraced(c, key).fed
    ensures Get(c, key).Success? ==> GetTraced(PostProcess(c, t), key).fed == GetTraced(c, key).fed + [Get(c, key).value]
  {
    GetTracedAgrees(c, key);
  }

  /** A set on the decorated cache is the set on the wrapped cache, with the
      decoration kept; reading back through the decoration runs the
      transformer on the value as written. */
  lemma SetBypassesTransformer<K(!new), V(!new)>(c: Cache<K, V>, t: OneWayTransformer<V>, key: K, value: V)
    ensures Set(PostProcess(c, t), key, value) == PostProcess(Set(c, key, value), t)
    ensures Get(Set(PostProcess(c, t), key, value), key) == Bind(Get(Set(c, key, value), key), t)
  {
  }

  /** A single layer over a backend: after a set through the layer, the
      wrapped cache yields the value as written and the layer yields the
      transformer applied to it. */
  lemma SetThroughOneLayer<K(!new), V(!new)>(s: Store<K, V>, t: OneWayTransformer<V>, key: K, value: V)
    ensures Set(PostProcess(Base(s), t), key, value).inner == Base(Put(s, key, value))
    ensures Get(Set(PostProcess(Base(s), t), key, value).inner, key) == Success(value)
    ensures Get(Set(PostProcess(Base(s), t), key, value), key) == t(value)
  {
  }

  /** Reading back a write through any stack of layers runs the whole
      pipeline on the value as written. */
  lemma {:induction false} SetThenGet<K(!new), V(!new)>(c: Cache<K, V>, key: K, value: V)
    ensures Get(Set(c, key, value), key) == RunPipeline(Pipeline(c), Success(value))
  {
    GetRunsPipeline(Set(c, key, value), key);
  }

  /** A write to one key leaves the get of every other key as it was, through
      any stack of layers. */
  lemma {:induction false} SetLeavesOtherKeys<K(!new), V(!new)>(c: Cache<K, V>, key: K, value: V, other: K)
    requires other != key
    ensures Get(Set(c, key, value), other) == Get(c, other)
  {
    GetRunsPipeline(Set(c, key, value), other);
    GetRunsPipeline(c, other);
  }

  /** Clearing the decorated cache is clearing the wrapped one; afterwards
      every get fails with `NotFound`, whatever the transformers. */
  lemma ClearDelegates<K(!new), V(!new)>(c: Cache<K, V>, t: OneWayTransformer<V>)
    ensures Clear(PostProcess(c, t)) == PostProcess(Clear(c), t)
    ensures forall key :: Get(Clear(PostProcess(c, t)), key) == Failure(NotFound)
  {
    var d := PostProcess(c, t);
    assert Materialize(d).clearClosure == Materialize(c).clearClosure;
    forall key
      ensures Get(Clear(d), key) == Failure(NotFound)
    {
      GetRunsPipeline(Clear(d), key);
      RunPipelineKeepsFailure(Pipeline(d), NotFound);
    }
  }

  /** A memory warning on the decorated cache is the wrapped cache's; a get
      afterwards is the warned wrapped cache's get followed by the
      transformer, whatever the backend did with the warning. */
  lemma MemoryWarningDelegates<K(!new), V(!new)>(c: Cache<K, V>, t: OneWayTransformer<V>)
    ensures OnMemoryWarning(PostProcess(c, t)) == PostProcess(OnMemoryWarning(c), t)
    ensures forall key :: Get(OnMemoryWarning(PostProcess(c, t)), key) == Bind(Get(OnMemoryWarning(c), key), t)
  {
  }

  /** Two layers run the inner transformer first: the get of
      `cache ~>> t1 ~>> t2` is the wrapped get bound to `t1` then `t2`, and it
      fails if either stage fails. */
  lemma ChainOfTwo<K(!new), V(!new)>(c: Cache<K, V>, t1: OneWayTransformer<V>, t2: OneWayTransformer<V>, key: K)
    ensures Get(PostProcessOp(PostProcessOp(c, t1), t2), key) == Bind(Get(c, key), AndThen(t1, t2))
    ensures Get(PostProcessOp(PostProcessOp(c, t1), t2), key).Success? <==>
              Get(c, key).Success? && t1(Get(c, key).value).Success? && t2(t1(Get(c, key).value).value).Success?
  {
    // Dafny closes this unaided; the two calls spell out the argument.
    BindAssociative(Get(c, key), t1, t2);
    if Get(c, key).Success? {
      AndThenSucceedsIffBoth(t1, t2, Get(c, key).value);
    }
  }

  /** A left-grouped chain of any length runs its transformers in the order
      written, after the wrapped get. */
  lemma {:induction false} ChainGet<K(!new), V(!new)>(c: Cache<K, V>, ts: seq<OneWayTransformer<V>>, key: K)
    ensures Get(Chain(c, ts), key) == RunPipeline(ts, Get(c, key))
  {
    GetRunsPipeline(Chain(c, ts), key);
    GetRunsPipeline(c, key);
    RunPipelineAppend(Pipeline(c), ts, Lookup(StoreOf(c), key));
  }

  /** Setting through a chain of any length is setting on the wrapped cache
      and chaining again: the backend receives the value unchanged. */
  lemma {:induction false} SetThroughChain<K(!new), V(!new)>(c: Cache<K, V>, ts: seq<OneWayTransformer<V>>, key: K, value: V)
    ensures Set(Chain(c, ts), key, value) == Chain(Set(c, key, value), ts)
    ensures Lookup(StoreOf(Set(Chain(c, ts), key, value)), key) == Success(value)
    decreases |ts|
  {
    if |ts| > 0 {
      SetBypassesTransformer(c, ts[0], key, value);
      SetThroughChain(PostProcessOp(c, ts[0]), ts[1..], key, value);
    }
  }
}
