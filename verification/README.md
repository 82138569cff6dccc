# Post-processing cache levels, modelled in Dafny

Carlos composes caches out of *cache levels*: key/value stores whose `get`
settles with a value or a failure, and which also take `set`, `clear` and
`onMemoryWarning` calls. `postProcess` wraps any cache level in a
read-side decorator. Its `get` runs the wrapped `get` and, on success only,
a `OneWayTransformer` whose input and output types are both the cache's value
type. Its `set`, `clear` and `onMemoryWarning` are the wrapped level's own,
so the transformer never sees a write. The result is again a `BasicCache`
with the same key and value types, so decorators stack. `cache ~>> t` is the
same call written as an operator.

The model, module by module:

- `Results`: the outcome of a `get` or a transformation as a synchronous
  `Result` (`Success(value)` or `Failure(error)`). `Bind` stands for
  `mutate`: a success feeds the next step and a failure settles unchanged.
- `Transformers`: `OneWayTransformer<V>` is `V -> Result<V>`. Using one type
  for input and output is how the model states that the transformer maps
  `V` to `V`.
- `Backend`: an abstract backend. It is a map plus a log of the write-side
  calls it received, and that log is how delegation is observed. An absent
  key fails with `NotFound`.
- `BasicCaches`: the `BasicCache` vessel, built from four behaviours over an
  explicit backend state. `PostProcess` is lines 18-25 of Carlos/PostProcess.swift, one
  behaviour at a time.
- `PostProcessing`: a cache is a backend under a stack of post-processing
  layers (`Base | PostProcessed(inner, transformer)`). `Materialize` turns a
  stack into the vessel that repeated `postProcess` calls build.
  `Get`, `Set`, `Clear` and `OnMemoryWarning` run that vessel's behaviours
  against the backend's state. `Pipeline` lists the layers' transformers in
  the order a get runs them. `RunPipeline` is an independent reference
  semantics for a get. `GetTraced` is a get that also records what each
  transformer was handed.
- `PostProcessProperties`: lemmas about the model.
- `PostProcessExamples`: concrete instances of the model.

## Model

| member | source | states |
|---|---|---|
| BasicCaches.PostProcess | Carlos/PostProcess.swift:17-25 | the new level's set, clear and memory behaviours are exactly the wrapped level's; its get fails with the wrapped reason when the wrapped get fails and is the transformer's outcome on the fetched value otherwise |
| PostProcessing.PostProcess | Carlos/PostProcess.swift:17-26 | decorating materialises to the vessel's `postProcess`, keeps the backend, appends the transformer to the pipeline, and per key passes failures through and transforms successes |
| PostProcessing.PostProcessOp | Carlos/PostProcess.swift:39-41 | `cache ~>> t` is `cache.postProcess(t)` for every cache and transformer: same backend, one more transformer at the end of the pipeline |
| PostProcessing.Chain | Carlos/PostProcess.swift:4 | a left-grouped chain `c ~>> t1 ~>> ... ~>> tn` keeps the backend and extends the pipeline by `t1 .. tn` in the order written |
| PostProcessing.Materialize | Carlos/PostProcess.swift:18-25 | however many layers are stacked, the write, clear and memory-warning behaviours are the backend's own |
| PostProcessing.Get | Carlos/PostProcess.swift:19-20 | a backend answers a get with its lookup; a post-processing layer's get is the wrapped get bound to its transformer, so a failure passes through and a success is transformed |
| PostProcessing.Set | Carlos/PostProcess.swift:22 | a set through any stack reaches the backend as `Put(key, value)` with the value untransformed, and the layers stay as they were |
| PostProcessing.Clear | Carlos/PostProcess.swift:23 | a clear through any stack clears the backend and keeps the layers |
| PostProcessing.OnMemoryWarning | Carlos/PostProcess.swift:24 | a memory warning through any stack is delivered to the backend and keeps the layers |
| PostProcessing.GetTraced | Carlos/PostProcess.swift:19-21 | no more transformers run than there are layers, and a successful get ran all of them; a backend miss runs none and fails with `NotFound`; a hit over at least one layer reaches the first transformer, which is handed the stored value; each later transformer is handed what the previous one produced; the outcome is what the last transformer handed a value returned, or the lookup itself when none was |
| PostProcessProperties.GetTracedAgrees | Carlos/PostProcess.swift:19-21 | the traced get settles exactly as the get does |
| PostProcessProperties.GetRunsPipeline | Carlos/PostProcess.swift:17-21 | a get on any stack equals the backend lookup threaded through the transformers innermost first, stopping at the first failure |
| PostProcessProperties.DecoratedGetOutcome | Carlos/PostProcess.swift:11-20 | the decorated get succeeds iff the wrapped get succeeds and the transformer accepts the value, and then with the transformer's output; a wrapped failure comes through with the same reason; a rejected value fails with the transformer's reason |
| PostProcessProperties.TransformerRunsOnlyOnSuccess | Carlos/PostProcess.swift:13-20 | after a failed wrapped get the transformer is handed nothing; after a successful one it is handed the fetched value exactly once |
| PostProcessProperties.SetBypassesTransformer | Carlos/PostProcess.swift:13-22 | a set on the decorated cache is the set on the wrapped cache with the decoration kept; reading back through the decoration transforms the stored value |
| PostProcessProperties.SetThroughOneLayer | Carlos/PostProcess.swift:19-22 | after a set through one layer over a backend, the wrapped cache yields the raw value and the decorated get yields the transformer applied to it |
| PostProcessProperties.SetThenGet | Carlos/PostProcess.swift:19-22 | reading back a write through any stack runs the whole pipeline on the value as written |
| PostProcessProperties.SetLeavesOtherKeys | Carlos/PostProcess.swift:19-22 | a write to one key through any stack leaves the get of every other key unchanged |
| PostProcessProperties.ClearDelegates | Carlos/PostProcess.swift:23 | clearing the decorated cache is clearing the wrapped one; afterwards every get fails with `NotFound` |
| PostProcessProperties.MemoryWarningDelegates | Carlos/PostProcess.swift:24 | a memory warning on the decorated cache is the wrapped cache's, and a get afterwards is the warned wrapped cache's get bound to the transformer, whatever the backend does with the warning |
| PostProcessProperties.ChainOfTwo | Carlos/PostProcess.swift:39-40 | `c ~>> t1 ~>> t2` runs `t1` then `t2` after the wrapped get, and succeeds iff all three stages do |
| PostProcessProperties.ChainGet | Carlos/PostProcess.swift:39-41 | a chain of any length runs its transformers in the order written, after the wrapped get |
| PostProcessProperties.SetThroughChain | Carlos/PostProcess.swift:18-40 | setting through a chain of any length is setting on the wrapped cache and chaining again; the backend holds the raw value |
| PostProcessExamples.HitMissAndRejection | Carlos/PostProcess.swift:11-20 | over `{"a": 10}` with doubling, `a` reads 20 and `b` fails with `NotFound`; over `{"x": -1}` with a transformer that rejects negatives, `x` fails with that rejection |
| PostProcessExamples.ChainOrderMatters | Carlos/PostProcess.swift:39-40 | doubling then incrementing reads 21 where incrementing then doubling reads 22, so the chain order is the application order |
| PostProcessExamples.WriteStoresRawValue | Carlos/PostProcess.swift:13-22 | a write of 5 through a doubling layer stores 5 and reads back as 10 |

## Left out

- Asynchrony. `Future`, its callbacks and `mutate` belong to the PiedPiper
  library, which is not part of this model. A settled future is a `Result`,
  and `mutate` with a transformer is `Bind`. A future that never settles, and
  cancellation, are not modelled.
- The internals of `BasicCache` and of the concrete backends (memory, disk,
  network) are not part of this model. A backend is a map plus a call log.
  What a backend evicts on a memory warning is not modelled: the warning is
  logged and the entries are kept.
- Whether `set` and `clear` report a failure of their own is a backend
  matter. The model treats them as always taking effect.
- Decorators that share one backend. Here the backend's state sits at the
  bottom of each stack, so a write through one stack is not seen by another
  stack built over the same backend.
- Concurrency between in-flight gets and writes. The decorator adds no
  locking, and the model is sequential.
- The operator-precedence declaration (line 4) is only modelled as the left
  grouping of `Chain`. The generic `where` constraints are enforced by
  Dafny's types, because a transformer has type `V -> Result<V>`.
