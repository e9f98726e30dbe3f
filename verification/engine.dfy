/** The compiled index `_compiled` as the Python wrapper sees it: a store of keyed vectors
    with a metric configuration. How the native engine links and searches its graph is not
    part of this model; searching is an oracle passed to the batching code. */
module Engine {
  import opened Wrappers
  import opened Seqs
  import opened Kinds
  import opened Normalize

  class CompiledIndex {
    const ndim: int
    const dtype: ScalarKind
    const multi: bool
    const connectivity: int
    var expansionAdd: int
    var expansionSearch: int
    var metricKind: MetricKind
    var metricPointer: int
    var metricSignature: MetricSignature
    /** The key of every stored vector, in insertion order (one entry per vector). */
    var keys: seq<Key>
    var vectors: seq<Vector>

    ghost predicate Valid()
      reads this
    {
      |keys| == |vectors|
    }

    /** `_CompiledIndex(...)` as `Index.__init__` calls it: an empty index with the
        normalised configuration. */
    constructor(config: IndexConfig)
      ensures Valid() && keys == [] && vectors == []
      ensures ndim == config.ndim && dtype == config.dtype && multi == config.multi
      ensures connectivity == config.connectivity
      ensures expansionAdd == config.expansionAdd && expansionSearch == config.expansionSearch
      ensures metricKind == config.metric.kind
      ensures metricPointer == config.metric.pointer
      ensures metricSignature == config.metric.signature
    {
      ndim := config.ndim;
      dtype := config.dtype;
      multi := config.multi;
      connectivity := config.connectivity;
      expansionAdd := config.expansionAdd;
      expansionSearch := config.expansionSearch;
      metricKind := config.metric.kind;
      metricPointer := config.metric.pointer;
      metricSignature := config.metric.signature;
      keys := [];
      vectors := [];
    }

    /** The search and insertion expansion factors. */
    ghost function Expansions(): (int, int)
      reads this
    {
      (expansionAdd, expansionSearch)
    }

    /** The metric the index computes with: kind, JIT pointer and signature. */
    ghost function MetricState(): (MetricKind, int, MetricSignature)
      reads this
    {
      (metricKind, metricPointer, metricSignature)
    }

    /** `__len__` and `size`: the number of stored vectors. */
    function Len(): nat
      reads this
    {
      |keys|
    }

    /** `add_many`: stores the rows under the given keys, in order. */
    method AddMany(ks: seq<Key>, vs: seq<Vector>)
      requires Valid() && |ks| == |vs|
      modifies this
      ensures Valid()
      ensures keys == old(keys) + ks && vectors == old(vectors) + vs
      ensures Len() == old(Len()) + |ks|
      ensures metricKind == old(metricKind) && metricPointer == old(metricPointer)
      ensures metricSignature == old(metricSignature)
      ensures expansionAdd == old(expansionAdd) && expansionSearch == old(expansionSearch)
    {
      keys := keys + ks;
      vectors := vectors + vs;
    }

    /** `change_metric`: switches the engine to another metric; the contents stay. */
    method ChangeMetric(kind: MetricKind, pointer: int, signature: MetricSignature)
      modifies this
      ensures metricKind == kind && metricPointer == pointer && metricSignature == signature
      ensures keys == old(keys) && vectors == old(vectors)
      ensures expansionAdd == old(expansionAdd) && expansionSearch == old(expansionSearch)
    {
      metricKind := kind;
      metricPointer := pointer;
      metricSignature := signature;
    }

    /** `contains_one`. */
    function ContainsOne(k: Key): bool
      reads this
    {
      k in keys
    }

    /** `count_one`: how many stored vectors carry the key. */
    function CountOne(k: Key): nat
      reads this
    {
      Occurrences(keys, k)
    }

    /** `contains_many`: `contains_one` for every key, in order. */
    function ContainsMany(ks: seq<Key>): (r: seq<bool>)
      reads this
      ensures |r| == |ks| && forall i :: 0 <= i < |ks| ==> r[i] == ContainsOne(ks[i])
    {
      seq(|ks|, i requires 0 <= i < |ks| reads this => ContainsOne(ks[i]))
    }

    /** `count_many`: `count_one` for every key, in order. */
    function CountMany(ks: seq<Key>): (r: seq<nat>)
      reads this
      ensures |r| == |ks| && forall i :: 0 <= i < |ks| ==> r[i] == CountOne(ks[i])
    {
      seq(|ks|, i requires 0 <= i < |ks| reads this => CountOne(ks[i]))
    }

    /** `get_keys_in_slice()` with its default arguments: every stored key. */
    function KeysInSlice(): seq<Key>
      reads this
    {
      keys
    }
  }

  /** A key is contained exactly when it is counted at least once. */
  lemma ContainsIffCounted(c: CompiledIndex, k: Key)
    ensures c.ContainsOne(k) <==> c.CountOne(k) > 0
  {
    OccurrencesPositive(c.keys, k);
  }
}
