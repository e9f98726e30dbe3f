/** Batch scheduling does not change what a search returns, for an engine that answers
    every query independently of the others in its batch. */
module BatchTransparency {
  import opened Wrappers
  import opened Seqs
  import opened Kinds
  import opened Chunking
  import opened Results
  import opened Batching

  /** What the engine finds for one query, best first, and the work it did. */
  datatype RowAnswer = RowAnswer(found: seq<Match>, visited: nat, computed: nat)

  /** A row of width `w`: the first `w` entries, padded with `zero`. */
  function Padded<T>(s: seq<T>, w: nat, zero: T): (r: seq<T>)
    ensures |r| == w
    ensures forall i :: 0 <= i < Min(|s|, w) ==> r[i] == s[i]
  {
    if |s| >= w then s[..w] else s + seq(w - |s|, _ => zero)
  }

  function KeyRowOf(perRow: Vector -> RowAnswer, w: nat): Vector -> seq<Key>
  {
    v => Padded(MapSeq((m: Match) => m.key, perRow(v).found), w, 0)
  }

  function DistanceRowOf(perRow: Vector -> RowAnswer, w: nat): Vector -> seq<Distance>
  {
    v => Padded(MapSeq((m: Match) => m.distance, perRow(v).found), w, 0.0)
  }

  function CountOf(perRow: Vector -> RowAnswer, w: nat): Vector -> nat
  {
    v => Min(|perRow(v).found|, w)
  }

  function VisitedBy(perRow: Vector -> RowAnswer): Vector -> nat
  {
    v => perRow(v).visited
  }

  function ComputedBy(perRow: Vector -> RowAnswer): Vector -> nat
  {
    v => perRow(v).computed
  }

  /** The answer of an engine that treats every query on its own, `w` results per row. */
  function RowWiseBatch(perRow: Vector -> RowAnswer, w: nat, q: seq<Vector>): (r: BatchMatches)
    ensures r.Valid() && r.Len() == |q|
  {
    BatchMatches(
      Matrix(MapSeq(KeyRowOf(perRow, w), q), w),
      Matrix(MapSeq(DistanceRowOf(perRow, w), q), w),
      MapSeq(CountOf(perRow, w), q),
      Sum(MapSeq(VisitedBy(perRow), q)),
      Sum(MapSeq(ComputedBy(perRow), q)))
  }

  function RowWise(perRow: Vector -> RowAnswer, w: nat): SearchOracle
  {
    q => RowWiseBatch(perRow, w, q)
  }

  // The fields of a row-wise engine's batch answers, batch by batch.

  lemma RowWiseKeys(perRow: Vector -> RowAnswer, w: nat, tasks: seq<seq<Vector>>)
    ensures KeyRows(Answers(RowWise(perRow, w), tasks)) == MapEach(KeyRowOf(perRow, w), tasks)
  {
    var parts := Answers(RowWise(perRow, w), tasks);
    forall j | 0 <= j < |tasks|
      ensures parts[j].keys.rows == MapSeq(KeyRowOf(perRow, w), tasks[j])
    {
      assert parts[j] == RowWise(perRow, w)(tasks[j]);
    }
  }

  lemma RowWiseDistances(perRow: Vector -> RowAnswer, w: nat, tasks: seq<seq<Vector>>)
    ensures DistanceRows(Answers(RowWise(perRow, w), tasks)) == MapEach(DistanceRowOf(perRow, w), tasks)
  {
    var parts := Answers(RowWise(perRow, w), tasks);
    forall j | 0 <= j < |tasks|
      ensures parts[j].distances.rows == MapSeq(DistanceRowOf(perRow, w), tasks[j])
    {
      assert parts[j] == RowWise(perRow, w)(tasks[j]);
    }
  }

  lemma RowWiseCounts(perRow: Vector -> RowAnswer, w: nat, tasks: seq<seq<Vector>>)
    ensures CountsOf(Answers(RowWise(perRow, w), tasks)) == MapEach(CountOf(perRow, w), tasks)
  {
    var parts := Answers(RowWise(perRow, w), tasks);
    forall j | 0 <= j < |tasks|
      ensures parts[j].counts == MapSeq(CountOf(perRow, w), tasks[j])
    {
      assert parts[j] == RowWise(perRow, w)(tasks[j]);
    }
  }

  lemma RowWiseVisited(perRow: Vector -> RowAnswer, w: nat, tasks: seq<seq<Vector>>)
    ensures VisitedOf(Answers(RowWise(perRow, w), tasks)) == SumEach(VisitedBy(perRow), tasks)
  {
    var parts := Answers(RowWise(perRow, w), tasks);
    forall j | 0 <= j < |tasks|
      ensures parts[j].visitedMembers == Sum(MapSeq(VisitedBy(perRow), tasks[j]))
    {
      assert parts[j] == RowWise(perRow, w)(tasks[j]);
    }
  }

  lemma RowWiseComputed(perRow: Vector -> RowAnswer, w: nat, tasks: seq<seq<Vector>>)
    ensures ComputedOf(Answers(RowWise(perRow, w), tasks)) == SumEach(ComputedBy(perRow), tasks)
  {
    var parts := Answers(RowWise(perRow, w), tasks);
    forall j | 0 <= j < |tasks|
      ensures parts[j].computedDistances == Sum(MapSeq(ComputedBy(perRow), tasks[j]))
    {
      assert parts[j] == RowWise(perRow, w)(tasks[j]);
    }
  }

  lemma RowWiseWidth(perRow: Vector -> RowAnswer, w: nat, tasks: seq<seq<Vector>>)
    requires |tasks| > 0
    ensures SameWidth(Answers(RowWise(perRow, w), tasks))
    ensures Answers(RowWise(perRow, w), tasks)[0].keys.cols == w
  {
    var parts := Answers(RowWise(perRow, w), tasks);
    forall j | 0 <= j < |tasks|
      ensures parts[j].keys.cols == w
    {
      assert parts[j] == RowWise(perRow, w)(tasks[j]);
    }
  }

  /** For an engine that answers each query on its own, merging the batch answers gives
      exactly the answer for all queries at once. */
  lemma MergeRowWise(perRow: Vector -> RowAnswer, w: nat, tasks: seq<seq<Vector>>)
    requires |tasks| > 0
    ensures MergedAnswers(RowWise(perRow, w), tasks) == Ok(RowWiseBatch(perRow, w, Flatten(tasks)))
  {
    RowWiseKeys(perRow, w, tasks);
    RowWiseDistances(perRow, w, tasks);
    RowWiseCounts(perRow, w, tasks);
    RowWiseVisited(perRow, w, tasks);
    RowWiseComputed(perRow, w, tasks);
    RowWiseWidth(perRow, w, tasks);
    FlattenMapEach(KeyRowOf(perRow, w), tasks);
    FlattenMapEach(DistanceRowOf(perRow, w), tasks);
    FlattenMapEach(CountOf(perRow, w), tasks);
    SumOfSumEach(VisitedBy(perRow), tasks);
    SumOfSumEach(ComputedBy(perRow), tasks);
  }

  lemma RowWiseApply(perRow: Vector -> RowAnswer, w: nat, q: seq<Vector>)
    ensures RowWise(perRow, w)(q) == RowWiseBatch(perRow, w, q)
  {
  }

  /** Searching batch by batch with a row-wise engine answers as one call for all rows. */
  lemma BatchedRowWise(perRow: Vector -> RowAnswer, w: nat, vectors: VectorInput, log: bool, batchSize: int)
    requires Rows(vectors).Ok? && |Rows(vectors).value| > 0
    requires EffectiveBatch(log, batchSize, |Rows(vectors).value|) > 0
    ensures SearchOutcome(RowWise(perRow, w), vectors, log, batchSize) ==
      Ok(Distil(|Rows(vectors).value|, RowWiseBatch(perRow, w, Rows(vectors).value)))
  {
    var rows := Rows(vectors).value;
    var eb := EffectiveBatch(log, batchSize, |rows|);
    var tasks := SearchBatches(rows, eb);
    assert |tasks| > 0;
    SearchBatchesCover(rows, eb);
    MergeRowWise(perRow, w, tasks);
    SearchBatched(RowWise(perRow, w), vectors, log, batchSize);
  }

  /** Batch scheduling is invisible in the result: for an engine that answers each query on
      its own, any non-negative batch size (zero included) gives the answer of a single
      engine call on all rows. */
  lemma BatchingIsTransparent(perRow: Vector -> RowAnswer, w: nat, vectors: VectorInput, log: bool, batchSize: int)
    requires Rows(vectors).Ok? && |Rows(vectors).value| > 0
    requires EffectiveBatch(log, batchSize, |Rows(vectors).value|) >= 0
    ensures SearchOutcome(RowWise(perRow, w), vectors, log, batchSize) ==
      Ok(Distil(|Rows(vectors).value|, RowWiseBatch(perRow, w, Rows(vectors).value)))
  {
    if EffectiveBatch(log, batchSize, |Rows(vectors).value|) > 0 {
      BatchedRowWise(perRow, w, vectors, log, batchSize);
    } else {
      RowWiseApply(perRow, w, Rows(vectors).value);
      SearchUnbatched(RowWise(perRow, w), vectors, log, batchSize);
    }
  }
}
