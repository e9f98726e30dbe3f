# usearch wrapper model

A Dafny model of the code around the usearch vector-search engine.

The native engine is not modelled: the HNSW graph, its insertion and search, join and
clustering. What is modelled is the code that surrounds it.

**The Python `Index` wrapper** (`python/usearch/index.py`):
- normalisation of the `dtype` and `metric` arguments;
- the configuration `Index.__init__` hands to the compiled index;
- the batch scheduling of `add` and `search`:
  - key generation and validation;
  - splitting rows into chunks;
  - merging per-chunk results;
  - `distil_batch`.
- the result containers `Matches` and `BatchMatches`: subscripting, `to_list` and recall;
- `Clustering`: centroid popularity, member filtering and re-clustering;
- the path fallback of `save`, `load` and `view`;
- the dispatch of `contains`, `count` and `rename`;
- the argument defaults of `cluster`;
- the `metric` and `expansion_*` setters.

**The C++ half of the Rust binding** (`rust/lib.cpp`):
- translation of the Rust metric and scalar enumerations;
- `new_index`;
- the buffer handling of `Index::search`.

The compiled index (`_compiled`) is a class with a key/vector store and a metric configuration. It has:
- `size`;
- `add_many`;
- `contains_*` and `count_*`;
- `change_metric`.

Its `search_many` is an oracle: a function from a matrix of queries to a `BatchMatches`
with one row per query. The native search of the Rust binding is an oracle too. Its only
promise is that it never returns more matches than asked for.

Modules:
- `Wrappers`: `Option`, `Result`, Python exceptions.
- `Seqs`, `Strings`: sequence and ASCII helpers.
- `Kinds`: keys, vectors and the metric and scalar enumerations.
- `Normalize`: dtype and metric normalisation, and the `Index.__init__` configuration.
- `Chunking`: the consecutive chunks both batch loops use.
- `Results`: `Matches`, `BatchMatches`, `count_matches`, `mean_recall`.
- `Engine`: the compiled index.
- `Batching`: `_add_to_compiled` and `_search_in_compiled`.
- `BatchTransparency`: batching does not change search results.
- `Clusters`: `Clustering` and `Index.cluster`.
- `PyIndex`: the `Index` class.
- `RustBridge`: `rust/lib.cpp`.

## Model

| member | source | states |
|---|---|---|
| Normalize.NormalizeDtype | python/usearch/index.py:64-91 | A missing or empty dtype gives B1 for the bitwise metrics and F32 otherwise. A `ScalarKind` is returned unchanged. A name succeeds exactly when its lower-cased form is in the table. A numpy type succeeds exactly when it is one of the five listed. Every failure is a `KeyError`. |
| Normalize.ToNumpyDtype | python/usearch/index.py:94-104 | Every `ScalarKind` has a numpy type. A listed numpy type is returned unchanged. Anything else is a `KeyError`. |
| Normalize.ScalarNumpyRoundTrip | python/usearch/index.py:85-104 | Converting a scalar kind to numpy and normalising it back gives the same kind. |
| Normalize.NumpyScalarRoundTrip | python/usearch/index.py:85-104 | Normalising a listed numpy type and converting it back gives the same numpy type. |
| Normalize.DtypeCaseInsensitive | python/usearch/index.py:71-72 | Dtype names are looked up without regard to case. |
| Normalize.PackedBitAliases | python/usearch/index.py:79-89 | "b1x8" in any case, and `np.uint8`, both give B1. |
| Normalize.NormalizeMetric | python/usearch/index.py:107-128 | `None` gives Cos. A name succeeds exactly when its lower-cased form is in the alias table, giving a kind. Any other argument is returned unchanged. A failure is a `KeyError`. |
| Normalize.MetricEnumNamesResolve | python/usearch/index.py:111-126 | Every metric kind is reached by its own enumeration name. |
| Normalize.MetricCaseInsensitive | python/usearch/index.py:126 | Metric names are looked up without regard to case. |
| Normalize.MetricAliases | python/usearch/index.py:112-126 | "dot" and "inner_product" give IP; "l2_sq" gives L2sq, in any case. |
| Normalize.ResolveMetric | python/usearch/index.py:523-537 | A built-in kind gives no JIT pointer, pointer 0 and signature ArrayArraySize. A compiled metric passes its kind, pointer and signature through. Any other object is a `ValueError`. An unknown name is a `KeyError`. |
| Normalize.BuiltinMetricsHaveNoPointer | python/usearch/index.py:524-528 | Whenever no JIT metric is recorded, the pointer is 0 and the signature is ArrayArraySize. |
| Normalize.MakeIndexConfig | python/usearch/index.py:512-551 | The configuration holds the resolved metric and the dtype normalised against the metric's kind. Omitted connectivity and expansions take the engine defaults. Errors from the metric come first, then those from the dtype. |
| Normalize.CompiledBitwiseDefaultsToB1 | python/usearch/index.py:529-540 | A compiled bitwise metric without a dtype gets B1 storage. |
| Chunking.Chunks | python/usearch/index.py:224-227 | Every chunk is non-empty and holds at most `b` rows. |
| Chunking.ChunksConcat | python/usearch/index.py:224-231 | The chunks, concatenated in order, give back the input exactly. |
| Chunking.ChunkAt | python/usearch/index.py:224-227 | Chunk `i` is the slice starting at `i*b`, of length `b` or the rest. |
| Chunking.ChunkCount | python/usearch/index.py:155-158 | There are `ceil(n/b)` chunks. |
| Chunking.ChunksAligned | python/usearch/index.py:224-231 | Keys and rows of equal number are cut into the same number of chunks, of equal sizes. |
| Chunking.EffectiveBatch | python/usearch/index.py:151-152 | An explicit batch size, or any size without logging, is kept. With logging and size 0 the size becomes `ceil(n / 100)`: the least `b` with `n <= 100 * b`. |
| Chunking.LoggedBatchBound | python/usearch/index.py:219-220 | For a non-empty input, with logging on and no batch size, the batch size is positive and there are at most 100 chunks. |
| Results.Position | python/usearch/index.py:279-281 | A Python index in `-n..n-1` reads a position inside the sequence. |
| Results.MatchAt | python/usearch/index.py:278-285 | Defined exactly for an integer in `-len..len-1`, giving the key and distance at that position, counted from the end for a negative index. Otherwise an `IndexError`. |
| Results.MatchesToList | python/usearch/index.py:287-292 | The pairs are the keys and distances zipped, position by position. |
| Results.IterationMatchesToList | python/usearch/index.py:278-292 | Iterating a `Matches` yields exactly the `to_list` pairs and then stops on `IndexError`. |
| Results.BatchRow | python/usearch/index.py:313-322 | Defined exactly for an integer in `-len..len-1`, where len is the number of counts; otherwise an `IndexError`. The row holds the first `counts[i]` keys and distances of row `i`. The per-query statistics are the batch totals divided by len, rounded down. |
| Results.RowPairs | python/usearch/index.py:326-327 | Row `i` contributes its first `min(counts[i], width)` keys and distances, paired position by position. |
| Results.RowsToList | python/usearch/index.py:324-327 | The flat list from row `i` on has `min(counts[k], width)` pairs for every row `k`. |
| Results.BatchToList | python/usearch/index.py:324-327 | `to_list` is one flat list with as many pairs as the rows report together. Where each pair sits is stated by `Results.RowsToListAt`. |
| Results.RowsToListAt | python/usearch/index.py:324-327 | Match `k` of row `j` (for `k < min(counts[j], width)`) is `(keys[j][k], distances[j][k])`, found in the flat list from row `i` right after the matches of rows `i .. j-1`. So `to_list` is every row's pairs, in query order. |
| Results.BatchToListLength | python/usearch/index.py:324-327 | When no count exceeds the width, `to_list` has exactly `sum(counts)` pairs. |
| Results.Hits | python/usearch/index.py:346-347 | The number of hits lies in `[0, len(expected)]`. |
| Results.FirstColumnHits | python/usearch/index.py:343-344 | The `count == 1` path counts at most one hit per query, and none when no first key matches. |
| Results.FirstColumnAgrees | python/usearch/index.py:343-347 | The vectorised count==1 path counts the same queries as the loop with count 1. |
| Results.CountMatches | python/usearch/index.py:334-348 | An `AssertionError` unless `len(expected) == len(self)`. The count defaults to the row width. The result is the number of queries whose expected key is among the first `count` keys of their row, so it is at most `len(expected)`. With count 1 on zero-width rows, an `IndexError`. |
| Results.Share | python/usearch/index.py:332 | The quotient times the divisor is the dividend; for `h <= n` it lies in `[0, 1]`. |
| Results.MeanRecall | python/usearch/index.py:329-332 | The recall is the hit count divided by `len(expected)`, and lies in `[0, 1]`. Empty input gives NaN on the count==1 path and an error otherwise. Errors from `count_matches` propagate. |
| Engine.CompiledIndex.constructor | python/usearch/index.py:540-550 | A new compiled index is empty and carries the normalised configuration. |
| Engine.CompiledIndex.AddMany | python/usearch/index.py:242 | `add_many` appends the keys and rows in order and changes nothing else. |
| Engine.CompiledIndex.ChangeMetric | python/usearch/index.py:860-864 | `change_metric` replaces the metric configuration and keeps the contents. |
| Engine.CompiledIndex.ContainsMany | python/usearch/index.py:680-681 | One answer per key, in order, each that of `contains_one`. |
| Engine.CompiledIndex.CountMany | python/usearch/index.py:689-690 | One count per key, in order, each that of `count_one`. |
| Engine.ContainsIffCounted | python/usearch/index.py:679-692 | A key is contained exactly when its count is positive. |
| Batching.Rows | python/usearch/index.py:140-143 | Only a 1-D or 2-D array passes the assertions (else `AssertionError`). A 1-D vector becomes a single row; a matrix is used as is. |
| Batching.Range | python/usearch/index.py:209 | `arange(start, start+n)` holds `start + i` at position `i`. |
| Batching.ResolveKeys | python/usearch/index.py:204-216 | Without keys, the keys are `start .. start+n-1`. A scalar key needs exactly one row and gives `[key]`. An iterable must have one key per row. Every failure is an `AssertionError`. |
| Batching.GeneratedKeysContinue | python/usearch/index.py:207-209 | Generated keys continue the numbering of an index whose keys are `0..size-1`. |
| Batching.AddBatches | python/usearch/index.py:223-248 | Batch size 0 gives one call on all rows. A negative batch size gives none, since `range` is empty. |
| Batching.AddBatchesCover | python/usearch/index.py:223-248 | The batches handed to `add_many` are the rows in order, each exactly once. A negative batch size gives none. |
| Batching.AddBatchesAligned | python/usearch/index.py:224-231 | Key batches and row batches pair up with equal sizes. |
| Batching.AddPlan | python/usearch/index.py:199-216 | The insertion succeeds exactly when the vectors are a 1-D or 2-D array and the keys resolve. It then has one key per row. Failures are `AssertionError`s. |
| Batching.AddPlanResolved | python/usearch/index.py:199-231 | Once rows and keys resolve, the plan inserts exactly the flattened batches. |
| Batching.AddToCompiled | python/usearch/index.py:189-250 | Corrected (as written, the return is `Batching.AddReturnAsWritten`): the compiled index receives the resolved keys and rows appended in order, batch by batch. `add_many` is called once per batch. The returned keys are all the keys inserted. On an error nothing is inserted. The metric and the expansions are untouched. |
| Batching.AddReturnAsWritten | python/usearch/index.py:224-250 | As written: without batching the keys are returned whole; with a negative batch size nothing is returned. With a positive batch size, at most one batch is returned, and it is empty only when there were no keys. |
| Batching.AddEach | python/usearch/index.py:241-243 | One `add_many` per batch: the compiled index receives every key batch and every row batch, appended in order. The metric and the expansions stay. |
| Batching.AddReturnDropsKeys | python/usearch/index.py:241-250 | As written, with a batch size below the number of rows, the returned keys are only a trailing chunk of at most one batch. This is not the full key array. |
| Batching.AddReturnCounterexample | python/usearch/index.py:224-250 | As written, three keys in batches of two return `[2]`. |
| Batching.SearchBatches | python/usearch/index.py:154-158 | Every search batch holds between one row and the batch size. There is none for a negative size or no rows, and at least one otherwise. |
| Batching.SearchBatchesCover | python/usearch/index.py:154-158 | The search batches are the rows in order, each exactly once. A negative batch size gives none. |
| Batching.Answers | python/usearch/index.py:168-170 | One engine answer per batch, in batch order. |
| Batching.SearchEach | python/usearch/index.py:168-170 | The loop collects exactly one engine answer per batch, in batch order. |
| Batching.Merge | python/usearch/index.py:174-182 | Stacking succeeds exactly for a non-empty list of answers of one width; otherwise a `ValueError`, as `np.vstack` raises. The result is valid and has one row per query of all parts. |
| Batching.MergedShape | python/usearch/index.py:176-178 | The stacked keys, distances and counts each have one entry per query of all parts, and every row has the common width. |
| Batching.MergeSingle | python/usearch/index.py:174-182 | Merging one answer gives it back unchanged. |
| Batching.AnswersCoverRows | python/usearch/index.py:154-178 | The answers for the batches have, together, one row per query. |
| Batching.MergedAnswers | python/usearch/index.py:168-182 | Stacking the batch answers fails only with `ValueError`, always when there is no batch. Otherwise it is a valid batch with one row per query. |
| Batching.Distil | python/usearch/index.py:146-149 | One query gives its own `Matches`, row 0 of the batch. Otherwise the batch itself. |
| Batching.SearchOutcome | python/usearch/index.py:131-186 | A 1-D query becomes one row. The result has one row per query, and is a single `Matches` exactly for one query. A negative batch size, or an empty batched input, is a `ValueError`. |
| Batching.SearchUnbatched | python/usearch/index.py:184-186 | Without batching, the engine is called once on all rows. |
| Batching.SearchBatched | python/usearch/index.py:154-182 | With batching, the answers for the chunks are merged: keys and distances stacked, counts concatenated, statistics summed. |
| Batching.SearchInCompiled | python/usearch/index.py:131-186 | The loop over the batches returns exactly the specified outcome. |
| Batching.SingleQuery | python/usearch/index.py:140-149 | A single 1-D query is answered with row 0 of the engine's answer, batched or not. |
| BatchTransparency.MergeRowWise | python/usearch/index.py:174-182 | For an engine that answers each query on its own, merging the batch answers equals the answer for all queries at once. |
| BatchTransparency.BatchedRowWise | python/usearch/index.py:154-182 | For such an engine, a batched search answers as one call on all rows. |
| BatchTransparency.BatchingIsTransparent | python/usearch/index.py:131-186 | For such an engine and any non-negative batch size, the result is that of one engine call on all rows. |
| Clusters.Insert | python/usearch/index.py:373 | Counting one more key keeps the centroids strictly ascending. The key is added if new. Its size grows by one and the others stay. |
| Clusters.Tally | python/usearch/index.py:373 | The unique keys are exactly the distinct keys of the input, ascending. Each size is the key's number of occurrences. The sizes sum to the input length. |
| Clusters.SizeAt | python/usearch/index.py:373 | The size stored beside a centroid is its count. |
| Clusters.CentroidsPopularity | python/usearch/index.py:371-373 | The centroids are the distinct assigned keys, ascending. Each size is how often the centroid was assigned. The sizes sum to the number of assignments. |
| Clusters.MakeClustering | python/usearch/index.py:356-366 | Without queries, every key of the index is a query. |
| Clusters.Select | python/usearch/index.py:376 | The mask selects as many queries as the mask holds `c`. |
| Clusters.MembersOf | python/usearch/index.py:375-376 | The members are the queries whose assignment is `c`, in order. A mask of another length is an `IndexError`. |
| Clusters.SelectSound | python/usearch/index.py:376 | Every member was assigned `c`. |
| Clusters.SelectComplete | python/usearch/index.py:376 | Every query assigned `c` is a member. |
| Clusters.SelectConcat | python/usearch/index.py:376 | Selection keeps the query order; it distributes over concatenation. |
| Clusters.MembersMatchPopularity | python/usearch/index.py:371-376 | A centroid has as many members as its popularity count. |
| Clusters.Cluster | python/usearch/index.py:994-1021 | `min_count` and `max_count` default to 0. Vectors and keys together are an `AssertionError`. Without keys, all keys are clustered. The clustering records the keys clustered, or all keys when vectors were given. |
| Clusters.Subcluster | python/usearch/index.py:378-380 | Re-clusters exactly the members of the centroid and records them as the queries. It fails exactly when `members_of` does. |
| PyIndex.OpenOnConstruct | python/usearch/index.py:553-559 | A file is opened exactly when the path is truthy and exists: viewed when `view` is set, loaded otherwise. |
| PyIndex.ResolvePath | python/usearch/index.py:898-914 | A truthy argument wins. Otherwise the index's own path is used, or `Define path argument` is raised when it is None. |
| PyIndex.ReopenTargetsConstructedFile | python/usearch/index.py:553-559 | `load()` or `view()` without an argument reaches the file the constructor opened. |
| PyIndex.EmptyArgumentFallsBack | python/usearch/index.py:899-901 | An empty path argument behaves like no argument. |
| PyIndex.ReportResolved | python/usearch/index.py:840-842 | The `metric` property of a freshly configured index reports the normalised argument. |
| PyIndex.ResolveReported | python/usearch/index.py:840-842 | Re-resolving what the property reports gives back the configuration. |
| PyIndex.RenameDispatch | python/usearch/index.py:801-811 | An iterable source with an iterable target renames many to many. An iterable source with a scalar target renames many to one. A scalar source with a scalar target renames one to one. A scalar source with an iterable target is a `TypeError`. |
| PyIndex.RenameRoundTrip | python/usearch/index.py:801-811 | Each native call comes from exactly one argument pair, and back. |
| PyIndex.Reported | python/usearch/index.py:840-842 | The reported metric is the compiled one exactly when a JIT metric is set, and otherwise the kind. |
| PyIndex.Index.constructor | python/usearch/index.py:523-553 | The wrapper's metric fields and the compiled index's metric agree. The index starts empty, with the configured dimensions, dtype, connectivity, multi flag and expansions. |
| PyIndex.Index.Metric | python/usearch/index.py:840-842 | The `metric` property reads the wrapper's own fields: the JIT metric if set, else the kind. |
| PyIndex.Index.Jit | python/usearch/index.py:813-819 | `jit` is true exactly when `metric` reports a compiled metric. |
| PyIndex.Index.Contains | python/usearch/index.py:679-683 | A scalar key gives one answer and an iterable gives one per key, in order: whether the key is stored. |
| PyIndex.Index.Count | python/usearch/index.py:688-692 | A scalar key gives one count and an iterable gives one per key, in order: how many stored vectors carry the key. |
| PyIndex.Index.Add | python/usearch/index.py:588-635 | Corrected (the source returns `Batching.AddReturnAsWritten`): the resolved keys and rows are appended, the keys are returned, and afterwards all are contained. On an error neither keys nor vectors change. The metric and the expansions stay, and the metric stays in sync. |
| PyIndex.Index.SetMetric | python/usearch/index.py:844-864 | As written, the compiled index switches to the resolved metric, but the `metric` and `jit` properties report the old one. Errors come from the normalisation and leave the compiled metric as it was. The expansions stay. |
| PyIndex.Index.SetMetricSynced | python/usearch/index.py:844-864 | Corrected: both the wrapper and the compiled index switch, and `metric` reports the normalised argument. On an error neither the wrapper's nor the compiled metric changes. The expansions stay. |
| PyIndex.Index.SetExpansionAdd | python/usearch/index.py:890-892 | Writes the value through to the compiled index. The other expansion, the contents and the compiled metric stay. |
| PyIndex.Index.SetExpansionSearch | python/usearch/index.py:894-896 | Writes the value through to the compiled index. The other expansion, the contents and the compiled metric stay. |
| PyIndex.Index.Cluster | python/usearch/index.py:1007-1021 | With neither vectors nor keys, every stored key is clustered and recorded as a query. |
| PyIndex.ContainsAgreesWithCount | python/usearch/index.py:679-692 | For every key, `contains` is true exactly when `count` is positive, and the answers have the same shape. |
| PyIndex.StaleMetricAfterSetter | python/usearch/index.py:840-864 | An index built for Cos and set to "l2sq" computes with L2sq but reports Cos. |
| RustBridge.RustToCppMetric | rust/lib.cpp:65-77 | An undeclared value, and only such a value, maps to `unknown_k`. |
| RustBridge.RustToCppScalar | rust/lib.cpp:79-88 | An undeclared value, and only such a value, maps to `unknown_k`. |
| RustBridge.MetricRoundTrip | rust/lib.cpp:65-77 | The eight declared metrics and the eight known native kinds correspond one to one, both ways. |
| RustBridge.ScalarRoundTrip | rust/lib.cpp:79-88 | The five declared scalars and the five known native kinds correspond one to one, both ways. |
| RustBridge.MetricInjective | rust/lib.cpp:65-77 | Distinct declared metrics map to distinct native kinds. |
| RustBridge.ScalarInjective | rust/lib.cpp:79-88 | Distinct declared scalars map to distinct native kinds. |
| RustBridge.MetricNamesAgree | rust/lib.cpp:65-77 | Each declared metric maps to the native kind of the same name. |
| RustBridge.ScalarNamesAgree | rust/lib.cpp:79-88 | I8, F16, F32 and F64 map to the native kinds of the same name, and B1 to `b1x8_k`. |
| RustBridge.NewIndex | rust/lib.cpp:90-96 | The native kinds are unknown exactly when the options' kinds are undeclared. |
| RustBridge.NewIndexRoundTrip | rust/lib.cpp:90-96 | Options with declared kinds are recovered from the native configuration. Dimensions, connectivity and expansions are passed unchanged. |
| RustBridge.MatchBuffers.constructor | rust/lib.cpp:31 | A fresh `Matches` has two empty vectors. |
| RustBridge.MatchBuffers.PushBack | rust/lib.cpp:34-35 | Appends one key and one distance. |
| RustBridge.MatchBuffers.Truncate | rust/lib.cpp:39-40 | Cuts both vectors to at most `n` entries. |
| RustBridge.DumpTo | rust/lib.cpp:38 | Writes the matches found to the front of both buffers and returns how many. |
| RustBridge.Search | rust/lib.cpp:30-42 | Both buffers are filled with `count` zeros. An engine error is raised before any dump. The result is exactly the keys and distances found: equal lengths, at most `count`, no zero placeholders. |

## Left out

- The native engine is not part of this model:
  - HNSW layers, linking, greedy search, removal, compaction;
  - join, clustering, `copy`, `clear` and `reset`;
  - capacity, memory usage, level statistics and hardware acceleration;
  - `search_many`, which is an oracle parameter;
  - the shape of `cluster_keys`/`cluster_vectors` answers, which is also an oracle.
- Floating point: vectors and distances are unbounded reals the model carries but never computes with.
- `radius` is accepted by `Index.search` but never forwarded (python/usearch/index.py:641, 667-677). The search oracle has no radius.
- `count`, `exact` and `threads` are bound inside the search oracle; `copy` and `threads` of `add_many` are dropped. Thread counts only select concurrency.
- Progress bars (`tqdm`), `plot_centroids_popularity` and `network` (python/usearch/index.py:382-405): presentation only.
- File I/O: `save`, `load`, `view`, `metadata` and `restore` perform I/O; only the path choice and the open-on-construct decision are modelled. Whether a file exists is a parameter.
- `get` and its byte reinterpretation `view(view_dtype)` (python/usearch/index.py:694-733): a numpy memory view with no Dafny counterpart.
- The JavaScript, Java and Wolfram bindings: argument unpacking around native calls.
- The Rust `Index::add`, `remove`, `rename`, `contains`, `reserve`, the size getters, `save`/`load`/`view` and `quantization` (rust/lib.cpp:14-28, 44-55): one-line forwards to the native engine.
- Broken paths, which are not modelled as features:
  - `IndexedKeys` slicing always reaches a bare `raise` (python/usearch/index.py:423-424);
  - `__delitem__` raises the count `remove` returns (781);
  - the `vectors` property passes an unsupported `vstack` argument (1041);
  - the module-level non-exact `search` calls the keyword-only constructor positionally (1225-1229).
- Keys are unbounded naturals. The `uint64` width and numpy's `astype(Key)` wrap-around of negative keys are not modelled.
- `str.lower` is modelled for ASCII letters only.
- `PyIndex.RenameDispatch`: `int(to)` on a one-element array succeeds in numpy; the model reports every iterable target of a scalar source as a `TypeError`.
- The native `add_many` may refuse a duplicate key when `multi` is off. `Engine.CompiledIndex.AddMany` appends unconditionally.
- The native `search_many` answers are assumed to be well-formed, with as many rows as queries. `RustBridge.NativeSearch` assumes at most `count` matches, as the C++ buffer writes require.
- The default connectivity and expansions come from the compiled module. They are a parameter (`EngineDefaults`).
- The wrapper's `Index.__init__` is split into `Normalize.MakeIndexConfig` (argument handling, with its errors) and `PyIndex.Index.constructor` (which starts from a configuration). The `isinstance(..., int)` assertions on connectivity and expansions are not modelled, since the model's parameters are integers.
- `Index.search` itself is a direct forward to `_search_in_compiled` and has no separate member.
- `BatchMatches.to_list` returns one flat list, although its annotation promises a list of lists; the model follows the code.

## Findings

| source | as written | input that shows it | evidently intended | confidence | as-written member | corrected member |
|---|---|---|---|---|---|---|
| python/usearch/index.py:224-250 | With batching on, the loop `for keys, vectors in tasks` rebinds `keys`. `add` then returns only the last key chunk. | three rows, no keys, `batch_size=2`: returns `[2]` instead of `[0, 1, 2]` | return every inserted key, as the unbatched path does | high; not executed | Batching.AddReturnCounterexample | Batching.AddToCompiled |
| python/usearch/index.py:840-864 | The `metric` setter only calls `change_metric`; `_metric_kind`, `_metric_jit`, `_metric_pointer` and `_metric_signature` keep their old values, so the `metric` and `jit` properties are stale. | `Index(metric="cos")`, then `index.metric = "l2sq"`: the index computes L2sq but `index.metric` is Cos | the setter records the new metric as `__init__` does | high; not executed | PyIndex.StaleMetricAfterSetter | PyIndex.Index.SetMetricSynced |
