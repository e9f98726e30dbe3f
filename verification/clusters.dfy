/** The `Clustering` result and the argument handling of `Index.cluster`. */
module Clusters {
  import opened Wrappers
  import opened Seqs
  import opened Kinds
  import opened Results

  // ---------------------------------------------------------------- popularity

  /** What `np.unique(keys, return_counts=True)` returns: the distinct centroids in ascending
      order, and how often each occurs. */
  datatype Popularity = Popularity(centroids: seq<Key>, sizes: seq<nat>)
  {
    predicate Valid()
    {
      && |centroids| == |sizes|
      && (forall i, j :: 0 <= i < j < |centroids| ==> centroids[i] < centroids[j])
      && (forall i :: 0 <= i < |sizes| ==> sizes[i] > 0)
    }

    function Tail(): Popularity
      requires |centroids| > 0 && |sizes| > 0
    {
      Popularity(centroids[1..], sizes[1..])
    }
  }

  /** How often a centroid was counted (zero when it does not occur). */
  function SizeOf(p: Popularity, c: Key): nat
    requires p.Valid()
    decreases |p.centroids|
  {
    if |p.centroids| == 0 then 0
    else if p.centroids[0] == c then p.sizes[0]
    else SizeOf(p.Tail(), c)
  }

  /** A popularity with one more centroid in front. */
  function Cons(c0: Key, s0: nat, q: Popularity): Popularity
  {
    Popularity([c0] + q.centroids, [s0] + q.sizes)
  }

  /** Putting a smaller centroid in front keeps the order and adds just that centroid. */
  lemma ConsFacts(c0: Key, s0: nat, q: Popularity)
    requires q.Valid() && s0 > 0
    requires forall j :: 0 <= j < |q.centroids| ==> c0 < q.centroids[j]
    ensures Cons(c0, s0, q).Valid() && Cons(c0, s0, q).Tail() == q
    ensures forall c :: c in Cons(c0, s0, q).centroids <==> c == c0 || c in q.centroids
    ensures forall c :: SizeOf(Cons(c0, s0, q), c) == if c == c0 then s0 else SizeOf(q, c)
    ensures Sum(Cons(c0, s0, q).sizes) == s0 + Sum(q.sizes)
  {
    var r := Cons(c0, s0, q);
    assert r.Tail() == q;
    assert r.sizes[1..] == q.sizes;
    forall c | c == c0 ensures SizeOf(r, c) == s0 {
    }
  }

  /** Counts one more occurrence of `x`, keeping the centroids sorted. */
  function Insert(p: Popularity, x: Key): (r: Popularity)
    requires p.Valid()
    ensures r.Valid()
    ensures forall c :: c in r.centroids <==> c in p.centroids || c == x
    ensures forall c :: SizeOf(r, c) == SizeOf(p, c) + (if c == x then 1 else 0)
    ensures Sum(r.sizes) == Sum(p.sizes) + 1
    decreases |p.centroids|
  {
    if |p.centroids| == 0 then
      ConsFacts(x, 1, p);
      Cons(x, 1, p)
    else
      var c0 := p.centroids[0];
      var s0 := p.sizes[0];
      var tail := p.Tail();
      assert p == Cons(c0, s0, tail);
      ConsFacts(c0, s0, tail);
      if x < c0 then
        SizeOfAbsent(p, x);
        ConsFacts(x, 1, p);
        Cons(x, 1, p)
      else if x == c0 then
        ConsFacts(c0, s0 + 1, tail);
        Cons(c0, s0 + 1, tail)
      else
        var rest := Insert(tail, x);
        AboveAll(c0, tail, x, rest);
        ConsFacts(c0, s0, rest);
        Cons(c0, s0, rest)
  }

  /** Every centroid of `r` lies above `c0` when each is one of `p`'s or `x`, all above `c0`. */
  lemma AboveAll(c0: Key, p: Popularity, x: Key, r: Popularity)
    requires c0 < x && forall j :: 0 <= j < |p.centroids| ==> c0 < p.centroids[j]
    requires forall c :: c in r.centroids ==> c in p.centroids || c == x
    ensures forall j :: 0 <= j < |r.centroids| ==> c0 < r.centroids[j]
  {
    forall j | 0 <= j < |r.centroids|
      ensures c0 < r.centroids[j]
    {
      var y := r.centroids[j];
      assert y in r.centroids;
      if y != x {
        var k :| 0 <= k < |p.centroids| && p.centroids[k] == y;
      }
    }
  }

  /** A centroid that was never counted has size zero. */
  lemma {:induction false} SizeOfAbsent(p: Popularity, c: Key)
    requires p.Valid() && c !in p.centroids
    ensures SizeOf(p, c) == 0
    decreases |p.centroids|
  {
    if |p.centroids| > 0 {
      assert c !in p.Tail().centroids;
      SizeOfAbsent(p.Tail(), c);
    }
  }

  /** Counts the occurrences of every distinct key. */
  function Tally(flat: seq<Key>): (r: Popularity)
    ensures r.Valid()
    ensures forall c :: c in r.centroids <==> c in flat
    ensures forall c :: SizeOf(r, c) == Occurrences(flat, c)
    ensures Sum(r.sizes) == |flat|
  {
    if |flat| == 0 then Popularity([], [])
    else Insert(Tally(flat[1..]), flat[0])
  }

  // ---------------------------------------------------------------- Clustering

  /** A clustering: the clustered queries and, row by row, the centroid each was assigned. */
  datatype Clustering = Clustering(queries: seq<Key>, matches: BatchMatches)

  /** `Clustering.__init__`: without explicit queries, every key of the index
      (`get_keys_in_slice()`, given here as `allKeys`) is a query. */
  function MakeClustering(allKeys: seq<Key>, matches: BatchMatches, queries: Option<seq<Key>>): (r: Clustering)
    ensures r.matches == matches
    ensures queries.None? ==> r.queries == allKeys
    ensures queries.Some? ==> r.queries == queries.value
  {
    Clustering(queries.GetOr(allKeys), matches)
  }

  /** The centroid assignments as one flat array (`matches.keys.flatten()`). */
  function Assigned(cl: Clustering): seq<Key>
  {
    Flatten(cl.matches.keys.rows)
  }

  /** `centroids_popularity`: every distinct centroid and how many assignments it got. */
  function CentroidsPopularity(cl: Clustering): (r: Popularity)
    ensures r.Valid()
    ensures forall c :: c in r.centroids <==> c in Assigned(cl)
    ensures forall i :: 0 <= i < |r.centroids| ==> r.sizes[i] == Occurrences(Assigned(cl), r.centroids[i])
    ensures Sum(r.sizes) == |Assigned(cl)|
  {
    var p := Tally(Assigned(cl));
    forall i | 0 <= i < |p.centroids|
      ensures p.sizes[i] == SizeOf(p, p.centroids[i])
    {
      SizeAt(p, i);
    }
    p
  }

  /** `SizeOf` reads the count stored next to the centroid. */
  lemma {:induction false} SizeAt(p: Popularity, i: nat)
    requires p.Valid() && i < |p.centroids|
    ensures SizeOf(p, p.centroids[i]) == p.sizes[i]
    decreases i
  {
    if i > 0 {
      assert p.centroids[0] < p.centroids[i];
      SizeAt(p.Tail(), i - 1);
    }
  }

  /** The queries whose mask entry equals `c`, in order (`queries[mask == c]`). */
  function Select(queries: seq<Key>, mask: seq<Key>, c: Key): (r: seq<Key>)
    requires |queries| == |mask|
    ensures |r| == Occurrences(mask, c)
  {
    if |queries| == 0 then []
    else (if mask[0] == c then [queries[0]] else []) + Select(queries[1..], mask[1..], c)
  }

  /** `members_of`: the queries assigned to centroid `c`. A boolean mask of another length
      than the queries raises `IndexError`. */
  function MembersOf(cl: Clustering, c: Key): (r: Result<seq<Key>>)
    ensures r.Ok? <==> |Assigned(cl)| == |cl.queries|
    ensures r.Err? ==> r.error == IndexError
    ensures r.Ok? ==> r.value == Select(cl.queries, Assigned(cl), c)
  {
    if |Assigned(cl)| != |cl.queries| then Err(IndexError)
    else Ok(Select(cl.queries, Assigned(cl), c))
  }

  /** Every selected query was assigned to `c`. */
  lemma {:induction false} SelectSound(queries: seq<Key>, mask: seq<Key>, c: Key, x: Key)
    requires |queries| == |mask|
    requires x in Select(queries, mask, c)
    ensures exists i :: 0 <= i < |queries| && queries[i] == x && mask[i] == c
  {
    if mask[0] == c && x == queries[0] {
      assert queries[0] == x && mask[0] == c;
    } else {
      assert x in Select(queries[1..], mask[1..], c);
      SelectSound(queries[1..], mask[1..], c, x);
      var i :| 0 <= i < |queries[1..]| && queries[1..][i] == x && mask[1..][i] == c;
      assert queries[i + 1] == x && mask[i + 1] == c;
    }
  }

  /** Every query assigned to `c` is selected. */
  lemma {:induction false} SelectComplete(queries: seq<Key>, mask: seq<Key>, c: Key, i: nat)
    requires |queries| == |mask| && i < |queries| && mask[i] == c
    ensures queries[i] in Select(queries, mask, c)
  {
    if i > 0 {
      SelectComplete(queries[1..], mask[1..], c, i - 1);
    }
  }

  /** Selection distributes over concatenation, so the members keep the query order. */
  lemma {:induction false} SelectConcat(q1: seq<Key>, m1: seq<Key>, q2: seq<Key>, m2: seq<Key>, c: Key)
    requires |q1| == |m1| && |q2| == |m2|
    ensures Select(q1 + q2, m1 + m2, c) == Select(q1, m1, c) + Select(q2, m2, c)
  {
    if |q1| > 0 {
      assert (q1 + q2)[1..] == q1[1..] + q2;
      assert (m1 + m2)[1..] == m1[1..] + m2;
      SelectConcat(q1[1..], m1[1..], q2, m2, c);
    } else {
      assert q1 + q2 == q2 && m1 + m2 == m2;
    }
  }

  /** The members of a centroid are as many as its popularity count: the centroids
      partition the queries. */
  lemma MembersMatchPopularity(cl: Clustering, c: Key)
    requires |Assigned(cl)| == |cl.queries|
    ensures |MembersOf(cl, c).value| == SizeOf(Tally(Assigned(cl)), c)
  {
  }

  // ---------------------------------------------------------------- Index.cluster

  /** The engine request `Index.cluster` makes. */
  datatype ClusterCall =
    | ClusterVectors(vectors: seq<Vector>, minCount: int, maxCount: int)
    | ClusterKeys(keys: seq<Key>, minCount: int, maxCount: int)

  /** The native clustering: what the engine answers to a request. */
  type ClusterEngine = ClusterCall -> BatchMatches

  /** `Index.cluster`: `min_count` and `max_count` default to 0; vectors and keys together
      are refused; without either, every key of the index is clustered. The clustering
      records the keys passed (or, for vectors, `None`, so the queries fall back to all keys). */
  function Cluster(
    engine: ClusterEngine, allKeys: seq<Key>,
    vectors: Option<seq<Vector>>, keys: Option<seq<Key>>,
    minCount: Option<int>, maxCount: Option<int>): (r: Result<Clustering>)
    ensures r.Err? <==> vectors.Some? && keys.Some?
    ensures r.Err? ==> r.error == AssertionError
    ensures r.Ok? && vectors.Some? ==>
      r.value == Clustering(allKeys, engine(ClusterVectors(vectors.value, minCount.GetOr(0), maxCount.GetOr(0))))
    ensures r.Ok? && vectors.None? ==>
      var ks := keys.GetOr(allKeys);
      r.value == Clustering(ks, engine(ClusterKeys(ks, minCount.GetOr(0), maxCount.GetOr(0))))
  {
    var lo := minCount.GetOr(0);
    var hi := maxCount.GetOr(0);
    if vectors.Some? then
      if keys.Some? then Err(AssertionError)
      else Ok(MakeClustering(allKeys, engine(ClusterVectors(vectors.value, lo, hi)), None))
    else
      var ks := keys.GetOr(allKeys);
      Ok(MakeClustering(allKeys, engine(ClusterKeys(ks, lo, hi)), Some(ks)))
  }

  /** `subcluster`: clusters again exactly the members of one centroid. */
  function Subcluster(
    engine: ClusterEngine, allKeys: seq<Key>, cl: Clustering, c: Key,
    minCount: Option<int>, maxCount: Option<int>): (r: Result<Clustering>)
    ensures r.Ok? <==> MembersOf(cl, c).Ok?
    ensures r.Ok? ==> r.value.queries == MembersOf(cl, c).value
    ensures r.Ok? ==>
      r.value.matches == engine(ClusterKeys(MembersOf(cl, c).value, minCount.GetOr(0), maxCount.GetOr(0)))
  {
    var members :- MembersOf(cl, c);
    Cluster(engine, allKeys, None, Some(members), minCount, maxCount)
  }
}
