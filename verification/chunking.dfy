/** How `_add_to_compiled` and `_search_in_compiled` cut a workload into batches. */
module Chunking {
  import opened Seqs

  /** The batch size after the logging default: with a progress bar and no explicit
      size, batches grow the work by one percent, `ceil(n / 100)` rows at a time. */
  function EffectiveBatch(log: bool, batchSize: int, n: nat): (r: int)
    ensures !log || batchSize != 0 ==> r == batchSize
    ensures log && batchSize == 0 ==> (r - 1) * 100 < n <= r * 100
  {
    if log && batchSize == 0 then (n + 99) / 100 else batchSize
  }

  /** The slices `s[start : start + b]` for `start` in `range(0, |s|, b)`. */
  function Chunks<T>(s: seq<T>, b: nat): (r: seq<seq<T>>)
    requires b > 0
    ensures forall i :: 0 <= i < |r| ==> 0 < |r[i]| <= b
    decreases |s|
  {
    if |s| == 0 then []
    else if |s| <= b then [s]
    else [s[..b]] + Chunks(s[b..], b)
  }

  /** Concatenating the chunks in order gives back the input exactly. */
  lemma {:induction false} ChunksConcat<T>(s: seq<T>, b: nat)
    requires b > 0
    ensures Flatten(Chunks(s, b)) == s
    decreases |s|
  {
    if |s| > b {
      ChunksConcat(s[b..], b);
      assert Chunks(s, b)[1..] == Chunks(s[b..], b);
      assert s == s[..b] + s[b..];
    } else if |s| > 0 {
      assert Flatten(Chunks(s, b)) == s + Flatten([]);
    }
  }

  /** Chunk `i` starts at row `i * b` and holds up to `b` rows, as the comprehension slices it. */
  lemma {:induction false} ChunkAt<T>(s: seq<T>, b: nat, i: nat)
    requires b > 0 && i < |Chunks(s, b)|
    ensures i * b < |s|
    ensures Chunks(s, b)[i] == s[i * b .. Min(i * b + b, |s|)]
    decreases i
  {
    if i > 0 {
      assert |s| > b;
      var rest := s[b..];
      assert Chunks(s, b)[i] == Chunks(rest, b)[i - 1];
      ChunkAt(rest, b, i - 1);
      var j := (i - 1) * b;
      var start := i * b;
      MulPred(i, b);
      assert start == j + b;
      var stop := Min(j + b, |rest|);
      assert j <= stop <= |rest|;
      SliceOfSuffix(s, b, j, stop);
      assert b + stop == Min(start + b, |s|);
    } else {
      assert i * b == 0;
      if |s| <= b {
        assert Chunks(s, b) == [s];
      } else {
        assert Chunks(s, b)[0] == s[..b];
      }
    }
  }

  /** There are `ceil(n / b)` chunks: the fewest pieces of `b` rows that cover `n` rows. */
  lemma {:induction false} ChunkCount<T>(s: seq<T>, b: nat)
    requires b > 0
    ensures |s| <= |Chunks(s, b)| * b
    ensures |s| > 0 ==> (|Chunks(s, b)| - 1) * b < |s|
    decreases |s|
  {
    if |s| > b {
      var k := |Chunks(s[b..], b)|;
      ChunkCount(s[b..], b);
      assert |Chunks(s, b)| == k + 1;
      assert (k + 1) * b == k * b + b;
      assert (k + 1 - 1) * b == k * b;
      assert (k - 1) * b == k * b - b;
    }
  }

  /** Chunking sequences of equal length gives chunks of equal length, pairwise. */
  lemma {:induction false} ChunksAligned<T, U>(s: seq<T>, t: seq<U>, b: nat)
    requires b > 0 && |s| == |t|
    ensures |Chunks(s, b)| == |Chunks(t, b)|
    ensures forall i :: 0 <= i < |Chunks(s, b)| ==> |Chunks(s, b)[i]| == |Chunks(t, b)[i]|
    decreases |s|
  {
    if |s| > b {
      ChunksAligned(s[b..], t[b..], b);
    }
  }

  /** With logging on and no explicit size, a non-empty workload is cut into at most 100 batches. */
  lemma LoggedBatchBound<T>(s: seq<T>)
    requires |s| > 0
    ensures EffectiveBatch(true, 0, |s|) > 0
    ensures |Chunks(s, EffectiveBatch(true, 0, |s|))| <= 100
  {
    var b := (|s| + 99) / 100;
    assert |s| <= 100 * b;
    var k := |Chunks(s, b)|;
    ChunkCount(s, b);
    if k > 100 {
      MulMonotone(k - 1, 100, b);
      assert false;
    }
  }

  lemma MulPred(i: nat, b: nat)
    requires i > 0
    ensures (i - 1) * b + b == i * b
  {
  }

  lemma MulMonotone(x: nat, y: nat, b: nat)
    requires x >= y
    ensures x * b >= y * b
  {
  }

  lemma SliceOfSuffix<T>(s: seq<T>, b: nat, x: nat, y: nat)
    requires b <= |s| && x <= y <= |s| - b
    ensures s[b..][x..y] == s[b + x .. b + y]
  {
  }
}
