/** Batch scheduling in `_add_to_compiled` and `_search_in_compiled`: key generation,
    splitting the rows into batches, and merging the per-batch search results. */
module Batching {
  import opened Wrappers
  import opened Seqs
  import opened Kinds
  import opened Chunking
  import opened Results
  import opened Engine

  // ---------------------------------------------------------------- arguments

  /** The `vectors` argument: a 1-D array, a 2-D array, or anything else (another type,
      or an array of another rank). */
  datatype VectorInput = OneVector(v: Vector) | VectorMatrix(rows: seq<Vector>) | Malformed

  /** The rows both wrappers work on. A 1-D array is reshaped into a single row; anything
      that is not a 1-D or 2-D numpy array fails the leading assertions. */
  function Rows(input: VectorInput): (r: Result<seq<Vector>>)
    ensures r.Err? <==> input.Malformed?
    ensures r.Err? ==> r.error == AssertionError
    ensures input.OneVector? ==> r.Ok? && |r.value| == 1 && r.value[0] == input.v
    ensures input.VectorMatrix? ==> r.Ok? && r.value == input.rows
  {
    match input
    case OneVector(v) => Ok([v])
    case VectorMatrix(rows) => Ok(rows)
    case Malformed => Err(AssertionError)
  }

  /** The `keys` argument of `add`: `None`, a single key, or an iterable of keys. */
  datatype KeysArg = NoKeys | OneKey(key: Key) | ManyKeys(keys: seq<Key>)

  /** `range(start, start + n)`. */
  function Range(start: nat, n: nat): (r: seq<Key>)
    ensures |r| == n && forall i :: 0 <= i < n ==> r[i] == start + i
  {
    seq(n, i requires 0 <= i < n => start + i)
  }

  /** Key validation and generation in `_add_to_compiled`: without keys, the rows are
      numbered on from `start` (the current size of the index); a single key needs exactly
      one row; otherwise there must be one key per row. */
  function ResolveKeys(arg: KeysArg, n: nat, start: nat): (r: Result<seq<Key>>)
    ensures r.Ok? <==> (arg.OneKey? ==> n == 1) && (arg.ManyKeys? ==> |arg.keys| == n)
    ensures r.Ok? ==> |r.value| == n
    ensures r.Err? ==> r.error == AssertionError
    ensures arg.NoKeys? ==> r.Ok? && forall i :: 0 <= i < n ==> r.value[i] == start + i
    ensures arg.OneKey? && r.Ok? ==> r.value == [arg.key]
    ensures arg.ManyKeys? && r.Ok? ==> r.value == arg.keys
  {
    match arg
    case NoKeys => Ok(Range(start, n))
    case OneKey(k) => if n == 1 then Ok([k]) else Err(AssertionError)
    case ManyKeys(ks) => if |ks| == n then Ok(ks) else Err(AssertionError)
  }

  /** Generated keys continue the numbering: an index whose keys are `0 .. size - 1` keeps
      that shape when more rows are added without keys. */
  lemma GeneratedKeysContinue(size: nat, n: nat)
    ensures Range(0, size) + ResolveKeys(NoKeys, n, size).value == Range(0, size + n)
  {
  }

  // ---------------------------------------------------------------- adding

  /** The batches `_add_to_compiled` hands to `add_many`: the chunks for a positive batch
      size, everything at once for zero, and nothing for a negative size (the `range` of
      start rows is then empty). */
  function AddBatches<T>(s: seq<T>, eb: int): (r: seq<seq<T>>)
    ensures eb == 0 ==> r == [s]
    ensures eb < 0 ==> r == []
  {
    if eb > 0 then Chunks(s, eb) else if eb == 0 then [s] else []
  }

  /** Whatever the batch size, the batches handed to `add_many` are the rows in order,
      each row exactly once, unless the size is negative. */
  lemma AddBatchesCover<T>(s: seq<T>, eb: int)
    ensures Flatten(AddBatches(s, eb)) == if eb < 0 then [] else s
  {
    if eb > 0 {
      ChunksConcat(s, eb);
    } else if eb == 0 {
      assert Flatten([s]) == s + Flatten([]);
    }
  }

  /** Keys and rows of equal number are cut into batches of equal sizes. */
  lemma AddBatchesAligned<T, U>(s: seq<T>, t: seq<U>, eb: int)
    requires |s| == |t|
    ensures |AddBatches(s, eb)| == |AddBatches(t, eb)|
    ensures forall i :: 0 <= i < |AddBatches(s, eb)| ==> |AddBatches(s, eb)[i]| == |AddBatches(t, eb)[i]|
  {
    if eb > 0 {
      ChunksAligned(s, t, eb);
    }
  }

  /** What `_add_to_compiled` inserts: the resolved keys and their rows, or an error.
      A negative batch size inserts nothing. */
  function AddPlan(keys: KeysArg, vectors: VectorInput, start: nat, log: bool, batchSize: int)
    : (r: Result<(seq<Key>, seq<Vector>)>)
    ensures r.Ok? ==> |r.value.0| == |r.value.1|
    ensures r.Err? ==> r.error == AssertionError
    ensures r.Ok? <==> Rows(vectors).Ok? && ResolveKeys(keys, |Rows(vectors).value|, start).Ok?
  {
    var rows :- Rows(vectors);
    var ks :- ResolveKeys(keys, |rows|, start);
    if EffectiveBatch(log, batchSize, |rows|) < 0 then Ok(([], [])) else Ok((ks, rows))
  }

  /** The plan once the rows and keys are resolved. */
  lemma AddPlanResolved(keys: KeysArg, vectors: VectorInput, start: nat, log: bool, batchSize: int)
    requires Rows(vectors).Ok? && ResolveKeys(keys, |Rows(vectors).value|, start).Ok?
    ensures
      var rows := Rows(vectors).value;
      var ks := ResolveKeys(keys, |rows|, start).value;
      AddPlan(keys, vectors, start, log, batchSize) ==
        if EffectiveBatch(log, batchSize, |rows|) < 0 then Ok(([], [])) else Ok((ks, rows))
  {
  }

  /** `_add_to_compiled`, returning the keys it inserted. The batches passed to `add_many`
      are reported in `calls`. */
  method AddToCompiled(compiled: CompiledIndex, keys: KeysArg, vectors: VectorInput, log: bool, batchSize: int)
    returns (r: Result<seq<Key>>, ghost calls: seq<seq<Key>>)
    requires compiled.Valid()
    modifies compiled
    ensures compiled.Valid()
    ensures r.Ok? == AddPlan(keys, vectors, old(compiled.Len()), log, batchSize).Ok?
    ensures r.Err? ==> r.error == AssertionError
    ensures r.Err? ==> compiled.keys == old(compiled.keys) && compiled.vectors == old(compiled.vectors)
    ensures r.Ok? ==>
      var plan := AddPlan(keys, vectors, old(compiled.Len()), log, batchSize).value;
      && r.value == plan.0
      && compiled.keys == old(compiled.keys) + plan.0
      && compiled.vectors == old(compiled.vectors) + plan.1
    ensures r.Ok? ==>
      var rows := Rows(vectors).value;
      var ks := ResolveKeys(keys, |rows|, old(compiled.Len())).value;
      calls == AddBatches(ks, EffectiveBatch(log, batchSize, |rows|))
    ensures compiled.Expansions() == old(compiled.Expansions())
    ensures compiled.MetricState() == old(compiled.MetricState())
  {
    calls := [];
    var rowsOr := Rows(vectors);
    if rowsOr.Err? {
      return Err(rowsOr.error), calls;
    }
    var rows := rowsOr.value;
    var n := |rows|;
    var ksOr := ResolveKeys(keys, n, compiled.Len());
    if ksOr.Err? {
      return Err(ksOr.error), calls;
    }
    AddPlanResolved(keys, vectors, compiled.Len(), log, batchSize);
    var ks := ksOr.value;
    var eb := EffectiveBatch(log, batchSize, n);
    var keyBatches := AddBatches(ks, eb);
    var rowBatches := AddBatches(rows, eb);
    AddBatchesAligned(ks, rows, eb);
    AddBatchesCover(ks, eb);
    AddBatchesCover(rows, eb);
    calls := AddEach(compiled, keyBatches, rowBatches);
    r := Ok(if eb < 0 then [] else ks);
  }

  /** The loop of `_add_to_compiled`: one `add_many` call per batch of keys and rows. */
  method AddEach(compiled: CompiledIndex, keyBatches: seq<seq<Key>>, rowBatches: seq<seq<Vector>>)
    returns (ghost calls: seq<seq<Key>>)
    requires compiled.Valid() && |keyBatches| == |rowBatches|
    requires forall i :: 0 <= i < |keyBatches| ==> |keyBatches[i]| == |rowBatches[i]|
    modifies compiled
    ensures compiled.Valid()
    ensures compiled.keys == old(compiled.keys) + Flatten(keyBatches)
    ensures compiled.vectors == old(compiled.vectors) + Flatten(rowBatches)
    ensures calls == keyBatches
    ensures compiled.Expansions() == old(compiled.Expansions())
    ensures compiled.MetricState() == old(compiled.MetricState())
  {
    calls := [];
    for i := 0 to |keyBatches|
      invariant compiled.Valid()
      invariant compiled.keys == old(compiled.keys) + Flatten(keyBatches[..i])
      invariant compiled.vectors == old(compiled.vectors) + Flatten(rowBatches[..i])
      invariant calls == keyBatches[..i]
      invariant compiled.Expansions() == old(compiled.Expansions())
      invariant compiled.MetricState() == old(compiled.MetricState())
    {
      compiled.AddMany(keyBatches[i], rowBatches[i]);
      AppendPiece(old(compiled.keys), keyBatches, i);
      AppendPiece(old(compiled.vectors), rowBatches, i);
      assert keyBatches[..i + 1] == keyBatches[..i] + [keyBatches[i]];
      calls := calls + [keyBatches[i]];
    }
    assert keyBatches[..|keyBatches|] == keyBatches;
    assert rowBatches[..|rowBatches|] == rowBatches;
  }

  /** The value `_add_to_compiled` returns as written. With batching the name `keys` is
      rebound to the list of key batches and then, by the loop, to each batch in turn, so
      it ends as the last batch, or as the empty list when there is none. */
  function AddReturnAsWritten(ks: seq<Key>, eb: int): (r: seq<Key>)
    ensures eb == 0 ==> r == ks
    ensures eb < 0 ==> r == []
    ensures eb > 0 ==> |r| <= eb && (|ks| > 0 <==> |r| > 0)
  {
    if eb == 0 then ks
    else
      var batches := AddBatches(ks, eb);
      if |batches| == 0 then [] else batches[|batches| - 1]
  }

  /** With a batch size smaller than the input, the returned keys are only a trailing
      piece of at most one batch: every earlier key is missing from the result. */
  lemma AddReturnDropsKeys(ks: seq<Key>, eb: int)
    requires 0 < eb < |ks|
    ensures |AddReturnAsWritten(ks, eb)| <= eb < |ks|
    ensures AddReturnAsWritten(ks, eb) == ks[|ks| - |AddReturnAsWritten(ks, eb)|..]
    ensures AddReturnAsWritten(ks, eb) != ks
  {
    var batches := Chunks(ks, eb);
    var last := |batches| - 1;
    ChunkCount(ks, eb);
    ChunkAt(ks, eb, last);
    var start := last * eb;
    assert |ks| <= start + eb by {
      assert |ks| <= |batches| * eb;
      MulPred(|batches|, eb);
    }
    assert batches[last] == ks[start..];
  }

  /** Three keys in batches of two: `add` returns `[2]`, not `[0, 1, 2]`. */
  lemma AddReturnCounterexample()
    ensures AddReturnAsWritten([0, 1, 2], 2) == [2]
  {
    var s: seq<Key> := [0, 1, 2];
    assert s[..2] == [0, 1] && s[2..] == [2];
    assert Chunks(s, 2) == [[0, 1], [2]];
  }

  // ---------------------------------------------------------------- searching

  /** A batch of results shaped as the engine returns it for `n` queries, with no matches. */
  function NoMatches(n: nat): (r: BatchMatches)
    ensures r.Valid() && r.Len() == n
  {
    BatchMatches(Matrix(seq(n, _ => []), 0), Matrix(seq(n, _ => []), 0), seq(n, _ => 0), 0, 0)
  }

  /** `compiled.search_many` with the search arguments bound: for a matrix of queries it
      returns one row of keys, one row of distances and one count per query. */
  type SearchOracle = f: seq<Vector> -> BatchMatches | forall q :: f(q).Valid() && f(q).Len() == |q|
    witness (q: seq<Vector>) => NoMatches(|q|)

  /** The batches `_search_in_compiled` searches when batching is on. */
  function SearchBatches(rows: seq<Vector>, eb: int): (r: seq<seq<Vector>>)
    requires eb != 0
    ensures eb < 0 || |rows| == 0 ==> r == []
    ensures eb > 0 && |rows| > 0 ==> |r| > 0
    ensures forall i :: 0 <= i < |r| ==> 0 < |r[i]| <= eb
  {
    if eb > 0 then Chunks(rows, eb) else []
  }

  /** The search batches hold the rows in order, each row exactly once, unless the batch
      size is negative. */
  lemma SearchBatchesCover(rows: seq<Vector>, eb: int)
    requires eb != 0
    ensures eb > 0 ==> Flatten(SearchBatches(rows, eb)) == rows
    ensures eb < 0 ==> SearchBatches(rows, eb) == []
  {
    if eb > 0 {
      ChunksConcat(rows, eb);
    }
  }

  /** The engine's answer for every batch, in order. */
  function Answers(search: seq<Vector> -> BatchMatches, tasks: seq<seq<Vector>>): (r: seq<BatchMatches>)
    ensures |r| == |tasks| && forall j :: 0 <= j < |tasks| ==> r[j] == search(tasks[j])
  {
    seq(|tasks|, j requires 0 <= j < |tasks| => search(tasks[j]))
  }

  function KeyRows(parts: seq<BatchMatches>): (r: seq<seq<seq<Key>>>)
    ensures |r| == |parts| && forall j :: 0 <= j < |parts| ==> r[j] == parts[j].keys.rows
  {
    seq(|parts|, j requires 0 <= j < |parts| => parts[j].keys.rows)
  }

  function DistanceRows(parts: seq<BatchMatches>): (r: seq<seq<seq<Distance>>>)
    ensures |r| == |parts| && forall j :: 0 <= j < |parts| ==> r[j] == parts[j].distances.rows
  {
    seq(|parts|, j requires 0 <= j < |parts| => parts[j].distances.rows)
  }

  function CountsOf(parts: seq<BatchMatches>): (r: seq<seq<nat>>)
    ensures |r| == |parts| && forall j :: 0 <= j < |parts| ==> r[j] == parts[j].counts
  {
    seq(|parts|, j requires 0 <= j < |parts| => parts[j].counts)
  }

  function VisitedOf(parts: seq<BatchMatches>): (r: seq<nat>)
    ensures |r| == |parts| && forall j :: 0 <= j < |parts| ==> r[j] == parts[j].visitedMembers
  {
    seq(|parts|, j requires 0 <= j < |parts| => parts[j].visitedMembers)
  }

  function ComputedOf(parts: seq<BatchMatches>): (r: seq<nat>)
    ensures |r| == |parts| && forall j :: 0 <= j < |parts| ==> r[j] == parts[j].computedDistances
  {
    seq(|parts|, j requires 0 <= j < |parts| => parts[j].computedDistances)
  }

  /** The number of queries of every part. */
  function LensOf(parts: seq<BatchMatches>): (r: seq<nat>)
    ensures |r| == |parts| && forall j :: 0 <= j < |parts| ==> r[j] == parts[j].Len()
  {
    seq(|parts|, j requires 0 <= j < |parts| => parts[j].Len())
  }

  /** All parts have the width of the first one. */
  predicate SameWidth(parts: seq<BatchMatches>)
    requires |parts| > 0
  {
    forall j :: 0 <= j < |parts| ==> parts[j].keys.cols == parts[0].keys.cols
  }

  /** The merge at the end of the batched search: keys and distances stacked row-wise with
      `np.vstack`, counts concatenated, statistics summed. Stacking no matrix at all, or
      matrices of different widths, raises `ValueError`. */
  function Merge(parts: seq<BatchMatches>): (r: Result<BatchMatches>)
    requires forall j :: 0 <= j < |parts| ==> parts[j].Valid()
    ensures r.Ok? <==> |parts| > 0 && SameWidth(parts)
    ensures r.Err? ==> r.error == ValueError
    ensures r.Ok? ==> r.value.Valid() && r.value.Len() == Sum(LensOf(parts))
    ensures r.Ok? ==> r.value.keys.cols == parts[0].keys.cols
  {
    if |parts| == 0 || !SameWidth(parts) then Err(ValueError)
    else
      var w := parts[0].keys.cols;
      MergedShape(parts, w);
      Ok(BatchMatches(
        Matrix(Flatten(KeyRows(parts)), w),
        Matrix(Flatten(DistanceRows(parts)), w),
        Flatten(CountsOf(parts)),
        Sum(VisitedOf(parts)),
        Sum(ComputedOf(parts))))
  }

  /** Valid parts of a common width stack into a valid batch with all their queries. */
  lemma MergedShape(parts: seq<BatchMatches>, w: nat)
    requires forall j :: 0 <= j < |parts| ==> parts[j].Valid() && parts[j].keys.cols == w
    ensures forall k :: 0 <= k < |Flatten(KeyRows(parts))| ==> |Flatten(KeyRows(parts))[k]| == w
    ensures forall k :: 0 <= k < |Flatten(DistanceRows(parts))| ==> |Flatten(DistanceRows(parts))[k]| == w
    ensures |Flatten(KeyRows(parts))| == Sum(LensOf(parts))
    ensures |Flatten(DistanceRows(parts))| == Sum(LensOf(parts))
    ensures |Flatten(CountsOf(parts))| == Sum(LensOf(parts))
  {
    FlattenWidth(KeyRows(parts), w);
    FlattenWidth(DistanceRows(parts), w);
    FlattenLength(KeyRows(parts));
    FlattenLength(DistanceRows(parts));
    FlattenLength(CountsOf(parts));
    assert Lengths(KeyRows(parts)) == LensOf(parts);
    assert Lengths(DistanceRows(parts)) == LensOf(parts);
    assert Lengths(CountsOf(parts)) == LensOf(parts);
  }

  /** Merging a single part gives that part back. */
  lemma MergeSingle(p: BatchMatches)
    requires p.Valid()
    ensures Merge([p]) == Ok(p)
  {
    assert KeyRows([p]) == [p.keys.rows];
    assert DistanceRows([p]) == [p.distances.rows];
    assert CountsOf([p]) == [p.counts];
    assert VisitedOf([p]) == [p.visitedMembers];
    assert ComputedOf([p]) == [p.computedDistances];
    FlattenSingle(p.keys.rows);
    FlattenSingle(p.distances.rows);
    FlattenSingle(p.counts);
    SumSingle(p.visitedMembers);
    SumSingle(p.computedDistances);
  }

  /** The engine answers for the batches have, together, one row per query. */
  lemma {:induction false} AnswersCoverRows(search: SearchOracle, tasks: seq<seq<Vector>>)
    ensures forall j :: 0 <= j < |tasks| ==> Answers(search, tasks)[j].Valid()
    ensures Sum(LensOf(Answers(search, tasks))) == |Flatten(tasks)|
  {
    FlattenLength(tasks);
    assert LensOf(Answers(search, tasks)) == Lengths(tasks);
  }

  /** The engine's answers for the batches, stacked: one row per query of every batch, or
      `ValueError` when there is no batch or the widths differ. */
  function MergedAnswers(search: SearchOracle, tasks: seq<seq<Vector>>): (r: Result<BatchMatches>)
    ensures |tasks| == 0 ==> r == Err(ValueError)
    ensures r.Err? ==> r.error == ValueError
    ensures r.Ok? ==> r.value.Valid() && r.value.Len() == |Flatten(tasks)|
  {
    AnswersCoverRows(search, tasks);
    Merge(Answers(search, tasks))
  }

  /** What the search returns: the `Matches` of the only query, or the whole batch. */
  datatype SearchResult = One(matches: Matches) | Batch(batch: BatchMatches)

  /** `distil_batch`: a single query gives its own `Matches`, anything else the batch. */
  function Distil(n: nat, b: BatchMatches): (r: SearchResult)
    requires b.Valid() && b.Len() == n
    ensures r.One? <==> n == 1
    ensures r.One? ==> BatchRow(b, At(0)) == Ok(r.matches)
    ensures r.Batch? ==> r.batch == b
  {
    if n == 1 then One(BatchRow(b, At(0)).value) else Batch(b)
  }

  /** What `_search_in_compiled` returns. */
  function SearchOutcome(search: SearchOracle, vectors: VectorInput, log: bool, batchSize: int)
    : (r: Result<SearchResult>)
    ensures r.Ok? ==> Rows(vectors).Ok?
    ensures r.Ok? ==> (r.value.One? <==> |Rows(vectors).value| == 1)
    ensures r.Ok? && r.value.Batch? ==> r.value.batch.Valid() && r.value.batch.Len() == |Rows(vectors).value|
    ensures r.Err? ==> r.error == AssertionError || r.error == ValueError
    ensures Rows(vectors).Ok? && EffectiveBatch(log, batchSize, |Rows(vectors).value|) < 0 ==> r == Err(ValueError)
    ensures Rows(vectors).Ok? && |Rows(vectors).value| == 0 && EffectiveBatch(log, batchSize, 0) != 0 ==>
      r == Err(ValueError)
  {
    var rows :- Rows(vectors);
    var eb := EffectiveBatch(log, batchSize, |rows|);
    if eb == 0 then
      Ok(Distil(|rows|, search(rows)))
    else
      var tasks := SearchBatches(rows, eb);
      SearchBatchesCover(rows, eb);
      var b :- MergedAnswers(search, tasks);
      Ok(Distil(|rows|, b))
  }

  /** Without batching the engine is called once, on all rows. */
  lemma SearchUnbatched(search: SearchOracle, vectors: VectorInput, log: bool, batchSize: int)
    requires Rows(vectors).Ok? && EffectiveBatch(log, batchSize, |Rows(vectors).value|) == 0
    ensures SearchOutcome(search, vectors, log, batchSize) == Ok(Distil(|Rows(vectors).value|, search(Rows(vectors).value)))
  {
  }

  /** With batching the engine's answers for the batches are merged. */
  lemma SearchBatched(search: SearchOracle, vectors: VectorInput, log: bool, batchSize: int)
    requires Rows(vectors).Ok? && EffectiveBatch(log, batchSize, |Rows(vectors).value|) != 0
    ensures
      var rows := Rows(vectors).value;
      var m := MergedAnswers(search, SearchBatches(rows, EffectiveBatch(log, batchSize, |rows|)));
      && (m.Err? ==> SearchOutcome(search, vectors, log, batchSize) == Err(m.error))
      && (m.Ok? ==> m.value.Len() == |rows| && SearchOutcome(search, vectors, log, batchSize) == Ok(Distil(|rows|, m.value)))
  {
    var rows := Rows(vectors).value;
    SearchBatchesCover(rows, EffectiveBatch(log, batchSize, |rows|));
  }

  /** The loop of `_search_in_compiled` that collects the engine's answer for every batch. */
  method SearchEach(search: seq<Vector> -> BatchMatches, tasks: seq<seq<Vector>>) returns (answers: seq<BatchMatches>)
    ensures answers == Answers(search, tasks)
  {
    answers := [];
    for j := 0 to |tasks|
      invariant |answers| == j
      invariant forall i :: 0 <= i < j ==> answers[i] == search(tasks[i])
    {
      answers := answers + [search(tasks[j])];
    }
  }

  /** `_search_in_compiled`: searches batch by batch, collects the answers, merges them. */
  method SearchInCompiled(search: SearchOracle, vectors: VectorInput, log: bool, batchSize: int)
    returns (r: Result<SearchResult>)
    ensures r == SearchOutcome(search, vectors, log, batchSize)
  {
    var rowsOr := Rows(vectors);
    if rowsOr.Err? {
      return Err(rowsOr.error);
    }
    var rows := rowsOr.value;
    var n := |rows|;
    var eb := EffectiveBatch(log, batchSize, n);
    if eb == 0 {
      SearchUnbatched(search, vectors, log, batchSize);
      return Ok(Distil(n, search(rows)));
    }
    var tasks := SearchBatches(rows, eb);
    var answers := SearchEach(search, tasks);
    SearchBatched(search, vectors, log, batchSize);
    AnswersCoverRows(search, tasks);
    var merged := Merge(answers);
    if merged.Err? {
      return Err(merged.error);
    }
    return Ok(Distil(n, merged.value));
  }

  /** A single query is answered with its own `Matches`, batched or not, whatever the engine. */
  lemma SingleQuery(search: SearchOracle, v: Vector, log: bool, batchSize: int)
    requires EffectiveBatch(log, batchSize, 1) >= 0
    ensures SearchOutcome(search, OneVector(v), log, batchSize) == Ok(One(BatchRow(search([v]), At(0)).value))
  {
    var eb := EffectiveBatch(log, batchSize, 1);
    var b := search([v]);
    var d := Distil(1, b);
    assert d == One(BatchRow(b, At(0)).value);
    if eb > 0 {
      assert Chunks([v], eb) == [[v]];
      assert Answers(search, [[v]]) == [b];
      MergeSingle(b);
      assert MergedAnswers(search, SearchBatches([v], eb)) == Ok(b);
    }
  }
}
