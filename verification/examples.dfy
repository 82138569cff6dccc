/** Concrete instances of the decorator's behaviour over a string-keyed,
    integer-valued backend. */
module PostProcessExamples {
  import opened Results
  import opened Transformers
  import opened Backend
  import opened PostProcessing
  import opened PostProcessProperties

  function Double(x: int): Result<int> { Success(2 * x) }

  function Increment(x: int): Result<int> { Success(x + 1) }

  function RejectNegative(x: int): Result<int>
  {
    if x < 0 then Failure(TransformRejected) else Success(x)
  }

  function BackendOf(entries: map<string, int>): Cache<string, int>
  {
    Base(Store(entries, []))
  }

  /** A hit is transformed, a miss fails with `NotFound`, a rejected value
      fails with the transformer's reason. */
  lemma HitMissAndRejection()
    ensures Get(PostProcess(BackendOf(map["a" := 10]), Double), "a") == Success(20)
    ensures Get(PostProcess(BackendOf(map["a" := 10]), Double), "b") == Failure(NotFound)
    ensures Get(PostProcess(BackendOf(map["x" := -1]), RejectNegative), "x") == Failure(TransformRejected)
  {
  }

  /** The chain order is the application order, so transformers that do not
      commute give different reads when the chain is reversed. */
  lemma ChainOrderMatters()
    ensures Get(PostProcessOp(PostProcessOp(BackendOf(map["a" := 10]), Double), Increment), "a") == Success(21)
    ensures Get(PostProcessOp(PostProcessOp(BackendOf(map["a" := 10]), Increment), Double), "a") == Success(22)
  {
  }

  /** A write through the layer stores the raw value; a read through it sees
      the transformed one. */
  lemma WriteStoresRawValue()
    ensures StoreOf(Set(PostProcess(BackendOf(map[]), Double), "k", 5)).entries == map["k" := 5]
    ensures Get(Set(PostProcess(BackendOf(map[]), Double), "k", 5), "k") == Success(10)
  {
    SetThroughOneLayer(Store(map[], []), Double, "k", 5);
  }
}
