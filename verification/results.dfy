/** The result containers `Match`, `Matches` and `BatchMatches`. */
module Results {
  import opened Wrappers
  import opened Seqs
  import opened Kinds

  /** A two-dimensional numpy array: rows of `cols` entries each. */
  datatype Matrix<T> = Matrix(rows: seq<seq<T>>, cols: nat) {
    predicate Valid()
    {
      forall i :: 0 <= i < |rows| ==> |rows[i]| == cols
    }
  }

  datatype Match = Match(key: Key, distance: Distance)

  /** The matches of one query, with the engine's search statistics. */
  datatype Matches = Matches(keys: seq<Key>, distances: seq<Distance>, visitedMembers: nat, computedDistances: nat)

  /** The matches of several queries: row `i` holds the `counts[i]` matches of query `i`,
      padded to the common width. The statistics are totals over all queries. */
  datatype BatchMatches = BatchMatches(
    keys: Matrix<Key>, distances: Matrix<Distance>, counts: seq<nat>,
    visitedMembers: nat, computedDistances: nat)
  {
    /** The shape the engine produces: one row of keys and of distances per query. */
    predicate Valid()
    {
      && keys.Valid() && distances.Valid()
      && |keys.rows| == |counts| && |distances.rows| == |counts|
      && keys.cols == distances.cols
    }

    /** `__len__`: the number of queries. */
    function Len(): nat
    {
      |counts|
    }
  }

  /** The argument of `__getitem__`: an integer, or anything else. */
  datatype Subscript = At(index: int) | NotAnInt

  /** The position Python's `s[i]` reads, for `-n <= i < n`. */
  function Position(i: int, n: nat): (j: nat)
    requires -(n as int) <= i < n
    ensures j < n
  {
    if 0 <= i then i else n + i
  }

  // ---------------------------------------------------------------- Matches

  /** `Matches.__getitem__`: the match at a position; a non-integer or an index outside
      `-len .. len-1` raises `IndexError` (negative indices count from the end). */
  function MatchAt(m: Matches, sub: Subscript): (r: Result<Match>)
    ensures r.Ok? <==> sub.At? && -Min(|m.keys|, |m.distances|) <= sub.index < Min(|m.keys|, |m.distances|)
    ensures r.Ok? ==>
      r.value == Match(m.keys[Position(sub.index, |m.keys|)], m.distances[Position(sub.index, |m.distances|)])
    ensures r.Err? ==> r.error == IndexError
  {
    match sub
    case NotAnInt => Err(IndexError)
    case At(i) =>
      if i < |m.keys| && -|m.keys| <= i && -|m.distances| <= i < |m.distances|
      then Ok(Match(m.keys[Position(i, |m.keys|)], m.distances[Position(i, |m.distances|)]))
      else Err(IndexError)
  }

  /** `Matches.to_list`: the (key, distance) pairs, position by position. */
  function MatchesToList(m: Matches): (r: seq<(Key, Distance)>)
    ensures |r| == Min(|m.keys|, |m.distances|)
    ensures forall i :: 0 <= i < |r| ==> r[i] == (m.keys[i], m.distances[i])
  {
    seq(Min(|m.keys|, |m.distances|), i requires 0 <= i < Min(|m.keys|, |m.distances|) => (m.keys[i], m.distances[i]))
  }

  /** Iterating a `Matches` calls `__getitem__` with 0, 1, ... until `IndexError`: the
      iteration yields exactly the pairs of `to_list`. */
  lemma IterationMatchesToList(m: Matches)
    ensures forall i :: 0 <= i < |MatchesToList(m)| ==>
      MatchAt(m, At(i)) == Ok(Match(MatchesToList(m)[i].0, MatchesToList(m)[i].1))
    ensures MatchAt(m, At(|MatchesToList(m)|)).Err?
  {
  }

  // ---------------------------------------------------------------- BatchMatches

  /** `BatchMatches.__getitem__`: the first `counts[i]` keys and distances of row `i`, and
      the batch statistics divided evenly (rounded down) among the queries. */
  function BatchRow(b: BatchMatches, sub: Subscript): (r: Result<Matches>)
    requires b.Valid()
    ensures r.Ok? <==> sub.At? && -(b.Len() as int) <= sub.index < b.Len()
    ensures r.Err? ==> r.error == IndexError
    ensures r.Ok? ==>
      var j := Position(sub.index, b.Len());
      && |r.value.keys| == |r.value.distances| == Min(b.counts[j], b.keys.cols)
      && r.value.keys == b.keys.rows[j][..|r.value.keys|]
      && r.value.distances == b.distances.rows[j][..|r.value.distances|]
    ensures r.Ok? ==>
      && b.Len() * r.value.visitedMembers <= b.visitedMembers < b.Len() * (r.value.visitedMembers + 1)
      && b.Len() * r.value.computedDistances <= b.computedDistances < b.Len() * (r.value.computedDistances + 1)
  {
    match sub
    case NotAnInt => Err(IndexError)
    case At(i) =>
      if -(b.Len() as int) <= i < b.Len() then
        var j := Position(i, b.Len());
        Ok(Matches(
             Take(b.keys.rows[j], b.counts[j]),
             Take(b.distances.rows[j], b.counts[j]),
             b.visitedMembers / b.Len(),
             b.computedDistances / b.Len()))
      else Err(IndexError)
  }

  /** The pairs row `i` contributes to `to_list`: its first `min(counts[i], width)` keys
      and distances, side by side. */
  function RowPairs(b: BatchMatches, i: nat): (r: seq<(Key, Distance)>)
    requires b.Valid() && i < b.Len()
    ensures |r| == Min(b.counts[i], b.keys.cols)
    ensures forall k :: 0 <= k < |r| ==> r[k] == (b.keys.rows[i][k], b.distances.rows[i][k])
  {
    var m := BatchRow(b, At(i)).value;
    assert m.keys == b.keys.rows[i][..|m.keys|];
    assert m.distances == b.distances.rows[i][..|m.distances|];
    MatchesToList(m)
  }

  /** Number of matches row `i` onward reports: `min(counts[i], width)` each. */
  function ShownFrom(b: BatchMatches, i: nat): nat
    requires b.Valid() && i <= b.Len()
    decreases b.Len() - i
  {
    if i == b.Len() then 0 else Min(b.counts[i], b.keys.cols) + ShownFrom(b, i + 1)
  }

  /** The flat list `to_list` builds from row `i` onward. */
  function RowsToList(b: BatchMatches, i: nat): (r: seq<(Key, Distance)>)
    requires b.Valid() && i <= b.Len()
    ensures |r| == ShownFrom(b, i)
    decreases b.Len() - i
  {
    if i == b.Len() then []
    else RowPairs(b, i) + RowsToList(b, i + 1)
  }

  /** `BatchMatches.to_list`: the pairs of every query's matches, in query order, in one
      flat list (query boundaries are not kept). */
  function BatchToList(b: BatchMatches): (r: seq<(Key, Distance)>)
    requires b.Valid()
    ensures |r| == ShownFrom(b, 0)
  {
    RowsToList(b, 0)
  }

  /** Number of matches rows `i .. j-1` report. */
  function ShownBetween(b: BatchMatches, i: nat, j: nat): nat
    requires b.Valid() && i <= j <= b.Len()
    decreases j - i
  {
    if i == j then 0 else Min(b.counts[i], b.keys.cols) + ShownBetween(b, i + 1, j)
  }

  /** Match `k` of row `j` sits in the flat list from row `i` right after the matches of
      rows `i .. j-1`: rows are laid out in query order, each row's matches in their own
      order. */
  lemma {:induction false} RowsToListAt(b: BatchMatches, i: nat, j: nat, k: nat)
    requires b.Valid() && i <= j < b.Len() && k < Min(b.counts[j], b.keys.cols)
    ensures ShownBetween(b, i, j) + k < |RowsToList(b, i)|
    ensures RowsToList(b, i)[ShownBetween(b, i, j) + k] == (b.keys.rows[j][k], b.distances.rows[j][k])
    decreases j - i
  {
    var row := RowPairs(b, i);
    var rest := RowsToList(b, i + 1);
    assert RowsToList(b, i) == row + rest;
    if i < j {
      RowsToListAt(b, i + 1, j, k);
      var at := ShownBetween(b, i + 1, j) + k;
      assert ShownBetween(b, i, j) + k == |row| + at;
      assert (row + rest)[|row| + at] == rest[at];
    }
  }

  /** When no count exceeds the width, `to_list` holds exactly `sum(counts)` pairs. */
  lemma {:induction false} BatchToListLength(b: BatchMatches, i: nat)
    requires b.Valid() && i <= b.Len()
    requires forall k :: 0 <= k < b.Len() ==> b.counts[k] <= b.keys.cols
    ensures |RowsToList(b, i)| == Sum(b.counts[i..])
    decreases b.Len() - i
  {
    if i < b.Len() {
      BatchToListLength(b, i + 1);
      assert b.counts[i..][1..] == b.counts[i + 1..];
    }
  }

  // ---------------------------------------------------------------- recall

  /** Number of the first `|expected|` queries whose expected key is among the first
      `c` keys of their row (`c` sliced the Python way). */
  function Hits(rows: seq<seq<Key>>, expected: seq<Key>, c: int): (h: nat)
    requires |expected| <= |rows|
    ensures h <= |expected|
  {
    if |expected| == 0 then 0
    else
      var i := |expected| - 1;
      Hits(rows, expected[..i], c) + (if expected[i] in PyPrefix(rows[i], c) then 1 else 0)
  }

  /** `np.sum(keys[:, 0] == expected)`: the queries whose first key is the expected one. */
  function FirstColumnHits(rows: seq<seq<Key>>, expected: seq<Key>): (r: nat)
    requires |expected| <= |rows|
    requires forall i :: 0 <= i < |rows| ==> |rows[i]| > 0
    ensures r <= |expected|
    ensures r == 0 <== forall i :: 0 <= i < |expected| ==> rows[i][0] != expected[i]
  {
    if |expected| == 0 then 0
    else
      var i := |expected| - 1;
      FirstColumnHits(rows, expected[..i]) + (if rows[i][0] == expected[i] then 1 else 0)
  }

  /** The vectorised path for `count == 1` counts the same queries as the loop. */
  lemma {:induction false} FirstColumnAgrees(rows: seq<seq<Key>>, expected: seq<Key>)
    requires |expected| <= |rows|
    requires forall i :: 0 <= i < |rows| ==> |rows[i]| > 0
    ensures FirstColumnHits(rows, expected) == Hits(rows, expected, 1)
  {
    if |expected| > 0 {
      var i := |expected| - 1;
      FirstColumnAgrees(rows, expected[..i]);
      assert PyPrefix(rows[i], 1) == [rows[i][0]];
    }
  }

  /** `count_matches`: how many queries found their expected key among the first `count`
      results (`count` defaults to the width of the result matrix). */
  method CountMatches(b: BatchMatches, expected: seq<Key>, count: Option<int>) returns (r: Result<nat>)
    requires b.Valid()
    ensures r.Err? <==> |expected| != b.Len() || (count.GetOr(b.keys.cols) == 1 && b.keys.cols == 0)
    ensures r.Err? ==> r.error == (if |expected| != b.Len() then AssertionError else IndexError)
    ensures r.Ok? ==> r.value == Hits(b.keys.rows, expected, count.GetOr(b.keys.cols))
    ensures r.Ok? ==> r.value <= |expected|
  {
    if |expected| != |b.counts| {
      return Err(AssertionError);
    }
    var c := if count.Some? then count.value else b.keys.cols;
    if c == 1 {
      if b.keys.cols == 0 {
        return Err(IndexError);
      }
      FirstColumnAgrees(b.keys.rows, expected);
      return Ok(FirstColumnHits(b.keys.rows, expected));
    }
    var recall := 0;
    var i := 0;
    while i < |expected|
      invariant 0 <= i <= |expected|
      invariant recall == Hits(b.keys.rows, expected[..i], c)
    {
      assert expected[..i + 1][..i] == expected[..i];
      if expected[i] in PyPrefix(b.keys.rows[i], c) {
        recall := recall + 1;
      }
      i := i + 1;
    }
    assert expected[..i] == expected;
    return Ok(recall);
  }

  /** A recall value: a fraction, or the NaN numpy produces for 0 / 0. */
  datatype Recall = Fraction(value: real) | NotANumber

  /** The share `h / n` of `n` queries, as a real number. */
  function Share(h: nat, n: nat): (x: real)
    requires n > 0
    ensures x * (n as real) == h as real
    ensures h <= n ==> 0.0 <= x <= 1.0
  {
    (h as real) / (n as real)
  }

  /** `mean_recall`: the share of queries whose expected key was found. An empty batch
      divides zero by zero: numpy's integer gives NaN on the `count == 1` path, Python's
      integer raises `ZeroDivisionError` on the other. */
  method MeanRecall(b: BatchMatches, expected: seq<Key>, count: Option<int>) returns (r: Result<Recall>)
    requires b.Valid()
    ensures r.Ok? ==> |expected| == b.Len()
    ensures r.Ok? && r.value.NotANumber? <==>
      |expected| == 0 && b.Len() == 0 && count.GetOr(b.keys.cols) == 1 && b.keys.cols > 0
    ensures r.Ok? && r.value.Fraction? ==>
      |expected| > 0 && r.value.value == Share(Hits(b.keys.rows, expected, count.GetOr(b.keys.cols)), |expected|)
    ensures r.Ok? && r.value.Fraction? ==> 0.0 <= r.value.value <= 1.0
    ensures |expected| == 0 && count.GetOr(b.keys.cols) != 1 ==> r.Err?
    ensures |expected| > 0 ==> (r.Ok? <==> |expected| == b.Len() && (count.GetOr(b.keys.cols) != 1 || b.keys.cols > 0))
  {
    var hits := CountMatches(b, expected, count);
    if hits.Err? {
      return Err(hits.error);
    }
    if |expected| == 0 {
      if count.GetOr(b.keys.cols) == 1 {
        return Ok(NotANumber);
      }
      return Err(ZeroDivisionError);
    }
    r := Ok(Fraction(Share(hits.value, |expected|)));
  }
}
