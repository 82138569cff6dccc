/** The one-way transformer capability, restricted as the decorator requires
    to transformers whose input and output type are the same `V`. */
module Transformers {
  import opened Results

  /** Attempts to convert a value; may fail with a reason. */
  type OneWayTransformer<!V> = V -> Result<V>

  /** `t1` followed by `t2`; `t2` only sees what `t1` produced successfully. */
  function AndThen<V>(t1: OneWayTransformer<V>, t2: OneWayTransformer<V>): (t: OneWayTransformer<V>)
  {
    x => Bind(t1(x), t2)
  }

  /** The combined transformer succeeds exactly when both stages do, and then
      with what the second stage produced from the first stage's output. */
  lemma AndThenSucceedsIffBoth<V>(t1: OneWayTransformer<V>, t2: OneWayTransformer<V>, x: V)
    ensures AndThen(t1, t2)(x).Success? <==> t1(x).Success? && t2(t1(x).value).Success?
    ensures AndThen(t1, t2)(x).Success? ==> AndThen(t1, t2)(x) == t2(t1(x).value)
    ensures t1(x).Failure? ==> AndThen(t1, t2)(x) == t1(x)
  {
  }
}
