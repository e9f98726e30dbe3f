/** The Python `Index` object: its own metric fields and path around the compiled index,
    and the dispatch of its key-based methods onto the compiled index. */
module PyIndex {
  import opened Wrappers
  import opened Seqs
  import opened Kinds
  import opened Strings
  import opened Normalize
  import opened Engine
  import Batching
  import Clusters

  // ---------------------------------------------------------------- paths

  /** Python truthiness of an optional path: present and not empty. */
  predicate Truthy(p: Option<string>)
  {
    p.Some? && p.value != ""
  }

  /** The file operation `Index.__init__` performs on an existing file. */
  datatype FileAction = LoadFrom(path: string) | ViewFrom(path: string)

  /** The tail of `Index.__init__`: a truthy path naming an existing file is opened,
      memory-mapped when `view` is set and loaded otherwise. */
  function OpenOnConstruct(path: Option<string>, onDisk: string -> bool, view: bool): (r: Option<FileAction>)
    ensures r.Some? <==> Truthy(path) && onDisk(path.value)
    ensures r.Some? ==> r.value.path == path.value && (r.value.ViewFrom? <==> view)
  {
    if Truthy(path) && onDisk(path.value) then
      Some(if view then ViewFrom(path.value) else LoadFrom(path.value))
    else None
  }

  /** The path `save`, `load` and `view` use: the argument when it is truthy, otherwise the
      index's own path; with neither there is no path to use. */
  function ResolvePath(arg: Option<string>, own: Option<string>): (r: Result<string>)
    ensures Truthy(arg) ==> r == Ok(arg.value)
    ensures !Truthy(arg) ==> (r.Ok? <==> own.Some?)
    ensures !Truthy(arg) && own.Some? ==> r.value == own.value
    ensures r.Err? ==> r.error == PathUndefined
  {
    if Truthy(arg) then Ok(arg.value)
    else if own.None? then Err(PathUndefined)
    else Ok(own.value)
  }

  /** Loading or viewing without an argument reaches the very file the constructor opened. */
  lemma ReopenTargetsConstructedFile(path: Option<string>, onDisk: string -> bool, view: bool)
    requires OpenOnConstruct(path, onDisk, view).Some?
    ensures ResolvePath(None, path) == Ok(OpenOnConstruct(path, onDisk, view).value.path)
  {
  }

  /** An argument path that is empty does not count: the own path is used, or nothing. */
  lemma EmptyArgumentFallsBack(own: Option<string>)
    ensures ResolvePath(Some(""), own) == ResolvePath(None, own)
  {
  }

  // ---------------------------------------------------------------- metric reporting

  /** What the `metric` property reports for a configuration: the compiled metric when a
      JIT metric is set (a non-empty named tuple is always truthy), the kind otherwise. */
  function Reported(s: MetricSetting): (r: MetricLike)
    ensures r.Compiled? <==> s.jit.Some?
    ensures r.Compiled? ==> r.compiled == s.jit.value
    ensures !r.Compiled? ==> r == Kind(s.kind)
  {
    if s.jit.Some? then Compiled(s.jit.value) else Kind(s.kind)
  }

  /** A configuration `ResolveMetric` can produce. */
  predicate WellFormed(s: MetricSetting)
  {
    if s.jit.Some? then s == MetricSetting(s.jit.value.kind, s.jit, s.jit.value.pointer, s.jit.value.signature)
    else s.pointer == 0 && s.signature == ArrayArraySize
  }

  /** Resolving a metric and reporting it gives back the normalised argument. */
  lemma ReportResolved(m: MetricLike)
    requires ResolveMetric(m).Ok?
    ensures WellFormed(ResolveMetric(m).value)
    ensures Reported(ResolveMetric(m).value) == NormalizeMetric(m).value
  {
  }

  /** Reporting a configuration and resolving the report gives back the configuration. */
  lemma ResolveReported(s: MetricSetting)
    requires WellFormed(s)
    ensures ResolveMetric(Reported(s)) == Ok(s)
  {
  }

  // ---------------------------------------------------------------- key arguments

  /** A `KeyOrKeysLike` argument: one key, or an iterable of keys. */
  datatype KeyOrKeys = Single(key: Key) | Several(keys: seq<Key>)

  /** A scalar answer for a scalar argument, one answer per key for an iterable. */
  datatype Answer<T> = ForOne(value: T) | ForEach(values: seq<T>)

  /** The native rename call `rename` dispatches to. */
  datatype RenameCall =
    | ManyToMany(from: seq<Key>, to: seq<Key>)
    | ManyToOne(from: seq<Key>, target: Key)
    | OneToOne(source: Key, target: Key)

  /** `rename`: an iterable source with an iterable target renames pairwise, with a scalar
      target renames all to one; a scalar source needs a scalar target (`int(to)` of an
      array is a `TypeError`). */
  function RenameDispatch(from: KeyOrKeys, to: KeyOrKeys): (r: Result<RenameCall>)
    ensures r.Err? <==> from.Single? && to.Several?
    ensures r.Err? ==> r.error == TypeError
    ensures r.Ok? && r.value.ManyToMany? <==> from.Several? && to.Several?
    ensures r.Ok? && r.value.ManyToOne? <==> from.Several? && to.Single?
    ensures r.Ok? && r.value.OneToOne? <==> from.Single? && to.Single?
  {
    match (from, to)
    case (Several(fs), Several(ts)) => Ok(ManyToMany(fs, ts))
    case (Several(fs), Single(t)) => Ok(ManyToOne(fs, t))
    case (Single(f), Single(t)) => Ok(OneToOne(f, t))
    case (Single(_), Several(_)) => Err(TypeError)
  }

  /** The `rename` arguments that produce a native call. */
  function RenameArgs(c: RenameCall): (KeyOrKeys, KeyOrKeys)
  {
    match c
    case ManyToMany(fs, ts) => (Several(fs), Several(ts))
    case ManyToOne(fs, t) => (Several(fs), Single(t))
    case OneToOne(f, t) => (Single(f), Single(t))
  }

  /** The dispatch loses nothing: every native call comes from exactly one pair of arguments. */
  lemma RenameRoundTrip(from: KeyOrKeys, to: KeyOrKeys, c: RenameCall)
    ensures RenameDispatch(RenameArgs(c).0, RenameArgs(c).1) == Ok(c)
    ensures RenameDispatch(from, to).Ok? ==> RenameArgs(RenameDispatch(from, to).value) == (from, to)
  {
  }

  // ---------------------------------------------------------------- the index

  class Index {
    var path: Option<string>
    var metricKind: MetricKind
    var metricJit: Option<CompiledMetric>
    var metricPointer: int
    var metricSignature: MetricSignature
    const compiled: CompiledIndex

    ghost predicate Valid()
      reads this, compiled
    {
      compiled.Valid()
    }

    /** The wrapper's own record of the metric. */
    function Setting(): MetricSetting
      reads this
    {
      MetricSetting(metricKind, metricJit, metricPointer, metricSignature)
    }

    /** The wrapper's metric fields agree with the metric the compiled index uses. */
    ghost predicate InSync()
      reads this, compiled
    {
      && metricKind == compiled.metricKind
      && metricPointer == compiled.metricPointer
      && metricSignature == compiled.metricSignature
    }

    /** `Index.__init__` once its arguments are normalised (see `MakeIndexConfig`): an empty
        compiled index with the same metric as the wrapper's fields. */
    constructor(config: IndexConfig, path: Option<string>)
      ensures fresh(compiled)
      ensures Valid() && InSync() && compiled.keys == []
      ensures Setting() == config.metric && this.path == path
      ensures compiled.ndim == config.ndim && compiled.dtype == config.dtype
      ensures compiled.multi == config.multi && compiled.connectivity == config.connectivity
      ensures compiled.expansionAdd == config.expansionAdd
      ensures compiled.expansionSearch == config.expansionSearch
    {
      metricKind := config.metric.kind;
      metricJit := config.metric.jit;
      metricPointer := config.metric.pointer;
      metricSignature := config.metric.signature;
      compiled := new CompiledIndex(config);
      this.path := path;
    }

    /** The `metric` property. */
    function Metric(): (r: MetricLike)
      reads this
      ensures metricJit.None? ==> r == Kind(metricKind)
      ensures metricJit.Some? ==> r == Compiled(metricJit.value)
    {
      Reported(Setting())
    }

    /** The `jit` property. */
    function Jit(): (r: bool)
      reads this
      ensures r <==> Metric().Compiled?
    {
      metricJit.Some?
    }

    /** `__len__` and `size`. */
    function Len(): nat
      reads this, compiled
    {
      compiled.Len()
    }

    /** `contains` (and `in`): one answer for a key, one per key for an iterable. */
    function Contains(keys: KeyOrKeys): (r: Answer<bool>)
      reads this, compiled
      ensures keys.Single? ==> r == ForOne(keys.key in compiled.keys)
      ensures keys.Several? ==> r.ForEach? && |r.values| == |keys.keys|
      ensures keys.Several? ==> forall i :: 0 <= i < |keys.keys| ==> r.values[i] == (keys.keys[i] in compiled.keys)
    {
      match keys
      case Single(k) => ForOne(compiled.ContainsOne(k))
      case Several(ks) => ForEach(compiled.ContainsMany(ks))
    }

    /** `count`: how many stored vectors carry each key. */
    function Count(keys: KeyOrKeys): (r: Answer<nat>)
      reads this, compiled
      ensures keys.Single? ==> r == ForOne(Occurrences(compiled.keys, keys.key))
      ensures keys.Several? ==> r.ForEach? && |r.values| == |keys.keys|
      ensures keys.Several? ==> forall i :: 0 <= i < |keys.keys| ==> r.values[i] == Occurrences(compiled.keys, keys.keys[i])
    {
      match keys
      case Single(k) => ForOne(compiled.CountOne(k))
      case Several(ks) => ForEach(compiled.CountMany(ks))
    }

    /** `add`: forwards to the batched insertion; the wrapper's metric is not touched. */
    method Add(keys: Batching.KeysArg, vectors: Batching.VectorInput, log: bool, batchSize: int)
      returns (r: Result<seq<Key>>)
      requires Valid()
      modifies compiled
      ensures Valid()
      ensures r.Ok? == Batching.AddPlan(keys, vectors, old(compiled.Len()), log, batchSize).Ok?
      ensures r.Ok? ==>
        var plan := Batching.AddPlan(keys, vectors, old(compiled.Len()), log, batchSize).value;
        && r.value == plan.0
        && compiled.keys == old(compiled.keys) + plan.0
        && compiled.vectors == old(compiled.vectors) + plan.1
      ensures r.Err? ==> compiled.keys == old(compiled.keys) && compiled.vectors == old(compiled.vectors)
      ensures r.Ok? ==> forall k :: k in r.value ==> Contains(Single(k)) == ForOne(true)
      ensures compiled.Expansions() == old(compiled.Expansions())
      ensures compiled.MetricState() == old(compiled.MetricState())
      ensures old(InSync()) ==> InSync()
    {
      ghost var calls;
      r, calls := Batching.AddToCompiled(compiled, keys, vectors, log, batchSize);
      if r.Ok? {
        forall k | k in r.value
          ensures k in compiled.keys
        {
          var i :| 0 <= i < |r.value| && r.value[i] == k;
          assert compiled.keys[|old(compiled.keys)| + i] == k;
        }
      }
    }

    /** The `metric` setter as written: the compiled index switches metric, but the
        wrapper's own fields, and therefore the `metric` and `jit` properties, keep
        reporting the old one. */
    method SetMetric(metric: MetricLike) returns (r: Result<()>)
      requires Valid()
      modifies compiled
      ensures Valid()
      ensures r.Ok? <==> ResolveMetric(metric).Ok?
      ensures r.Err? ==> r.error == ResolveMetric(metric).error
      ensures r.Err? ==> compiled.MetricState() == old(compiled.MetricState())
      ensures r.Ok? ==>
        var s := ResolveMetric(metric).value;
        compiled.metricKind == s.kind && compiled.metricPointer == s.pointer && compiled.metricSignature == s.signature
      ensures compiled.keys == old(compiled.keys) && compiled.vectors == old(compiled.vectors)
      ensures compiled.Expansions() == old(compiled.Expansions())
      ensures Metric() == old(Metric()) && Jit() == old(Jit())
    {
      var sOr := ResolveMetric(metric);
      if sOr.Err? {
        return Err(sOr.error);
      }
      var s := sOr.value;
      compiled.ChangeMetric(s.kind, s.pointer, s.signature);
      r := Ok(());
    }

    /** The `metric` setter as evidently intended: the wrapper records the new metric as
        well, so the property reports what the compiled index uses. */
    method SetMetricSynced(metric: MetricLike) returns (r: Result<()>)
      requires Valid()
      modifies this, compiled
      ensures Valid()
      ensures r.Ok? <==> ResolveMetric(metric).Ok?
      ensures r.Err? ==> r.error == ResolveMetric(metric).error
      ensures r.Err? ==> Setting() == old(Setting()) && compiled.MetricState() == old(compiled.MetricState())
      ensures r.Ok? ==> Setting() == ResolveMetric(metric).value && InSync()
      ensures r.Ok? ==> Metric() == NormalizeMetric(metric).value
      ensures compiled.keys == old(compiled.keys) && compiled.vectors == old(compiled.vectors)
      ensures compiled.Expansions() == old(compiled.Expansions())
      ensures path == old(path)
    {
      var sOr := ResolveMetric(metric);
      if sOr.Err? {
        return Err(sOr.error);
      }
      var s := sOr.value;
      compiled.ChangeMetric(s.kind, s.pointer, s.signature);
      metricKind := s.kind;
      metricJit := s.jit;
      metricPointer := s.pointer;
      metricSignature := s.signature;
      ReportResolved(metric);
      r := Ok(());
    }

    /** The `expansion_add` setter writes through to the compiled index. */
    method SetExpansionAdd(v: int)
      modifies compiled
      ensures compiled.expansionAdd == v && compiled.expansionSearch == old(compiled.expansionSearch)
      ensures compiled.keys == old(compiled.keys) && compiled.vectors == old(compiled.vectors)
      ensures compiled.MetricState() == old(compiled.MetricState())
    {
      compiled.expansionAdd := v;
    }

    /** The `expansion_search` setter writes through to the compiled index. */
    method SetExpansionSearch(v: int)
      modifies compiled
      ensures compiled.expansionSearch == v && compiled.expansionAdd == old(compiled.expansionAdd)
      ensures compiled.keys == old(compiled.keys) && compiled.vectors == old(compiled.vectors)
      ensures compiled.MetricState() == old(compiled.MetricState())
    {
      compiled.expansionSearch := v;
    }

    /** `cluster` on this index: the keys to cluster default to every stored key. */
    function Cluster(
      engine: Clusters.ClusterEngine, vectors: Option<seq<Vector>>, keys: Option<seq<Key>>,
      minCount: Option<int>, maxCount: Option<int>): (r: Result<Clusters.Clustering>)
      reads this, compiled
      ensures vectors.None? && keys.None? ==>
        r == Ok(Clusters.Clustering(compiled.keys, engine(Clusters.ClusterKeys(compiled.keys, minCount.GetOr(0), maxCount.GetOr(0)))))
      ensures vectors.Some? ==> r.Ok? ==> r.value.queries == compiled.keys
    {
      Clusters.Cluster(engine, compiled.KeysInSlice(), vectors, keys, minCount, maxCount)
    }
  }

  /** Membership and counting agree key by key: a key is contained exactly when its count
      is positive. */
  lemma ContainsAgreesWithCount(ix: Index, keys: KeyOrKeys)
    ensures ix.Contains(keys).ForOne? <==> ix.Count(keys).ForOne?
    ensures keys.Single? ==> (ix.Contains(keys).value <==> ix.Count(keys).value > 0)
    ensures keys.Several? ==> |ix.Contains(keys).values| == |ix.Count(keys).values|
    ensures keys.Several? ==> forall i :: 0 <= i < |keys.keys| ==>
      (ix.Contains(keys).values[i] <==> ix.Count(keys).values[i] > 0)
  {
    match keys
    case Single(k) =>
      OccurrencesPositive(ix.compiled.keys, k);
    case Several(ks) =>
      forall i | 0 <= i < |ks|
        ensures ix.Contains(keys).values[i] <==> ix.Count(keys).values[i] > 0
      {
        OccurrencesPositive(ix.compiled.keys, ks[i]);
      }
  }

  /** The stale getter in action: an index built for `Cos` and switched to `"l2sq"` computes
      with `L2sq` while its `metric` property still reports `Cos`. */
  method StaleMetricAfterSetter() returns (reported: MetricLike, active: MetricKind)
    ensures reported == Kind(Cos) && active == L2sq
  {
    var config := IndexConfig(2, F32, 16, 128, 64, false, MetricSetting(Cos, None, 0, ArrayArraySize));
    var ix := new Index(config, None);
    assert Lower("l2sq") == "l2sq";
    var r := ix.SetMetric(MetricName("l2sq"));
    reported := ix.Metric();
    active := ix.compiled.metricKind;
  }
}
