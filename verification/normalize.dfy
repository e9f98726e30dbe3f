/** Normalisation of the user-facing dtype and metric arguments of `Index`. */
module Normalize {
  import opened Wrappers
  import opened Strings
  import opened Kinds

  /** What may be passed as `dtype`: nothing, a `ScalarKind`, a name, or a numpy type. */
  datatype DTypeLike = NoDtype | DtKind(kind: ScalarKind) | DtName(name: string) | DtNumpy(numpy: NumpyType)

  /** What may be passed as `metric`. `OtherMetric` is any other Python object. */
  datatype MetricLike =
    | NoMetric
    | MetricName(name: string)
    | Kind(kind: MetricKind)
    | Compiled(compiled: CompiledMetric)
    | OtherMetric

  /** The argument `_to_numpy_dtype` receives: a `ScalarKind` or a numpy type. */
  datatype ScalarOrNumpy = Scalar(kind: ScalarKind) | Numpy(numpy: NumpyType)

  /** How the wrapper configures the engine's metric. */
  datatype MetricSetting = MetricSetting(
    kind: MetricKind, jit: Option<CompiledMetric>, pointer: int, signature: MetricSignature)

  /** Engine defaults for the graph parameters, taken from the compiled module. */
  datatype EngineDefaults = EngineDefaults(connectivity: int, expansionAdd: int, expansionSearch: int)

  /** The arguments `Index.__init__` hands to the compiled index. */
  datatype IndexConfig = IndexConfig(
    ndim: int, dtype: ScalarKind, connectivity: int, expansionAdd: int, expansionSearch: int,
    multi: bool, metric: MetricSetting)

  // ---------------------------------------------------------------- dtype

  /** The string keys of the dtype table, already lower-cased. */
  function DtypeByName(name: string): Option<ScalarKind>
  {
    if name == "f64" || name == "float64" then Some(F64)
    else if name == "f32" || name == "float32" then Some(F32)
    else if name == "f16" || name == "float16" then Some(F16)
    else if name == "i8" || name == "int8" then Some(I8)
    else if name == "b1" || name == "b1x8" then Some(B1)
    else None
  }

  /** The numpy-type keys of the dtype table. */
  function DtypeByNumpy(t: NumpyType): Option<ScalarKind>
  {
    match t
    case Float64 => Some(F64)
    case Float32 => Some(F32)
    case Float16 => Some(F16)
    case Int8 => Some(I8)
    case UInt8 => Some(B1)
    case OtherNumpy(_) => None
  }

  /** `_normalize_dtype`: the scalar kind an index stores, given the requested dtype and metric. */
  function NormalizeDtype(dtype: DTypeLike, metric: MetricKind): (r: Result<ScalarKind>)
    ensures dtype.NoDtype? || dtype == DtName("") ==> r == Ok(if IsBitwise(metric) then B1 else F32)
    ensures dtype.DtKind? ==> r == Ok(dtype.kind)
    ensures dtype.DtName? && dtype.name != "" ==> (r.Ok? <==> DtypeByName(Lower(dtype.name)).Some?)
    ensures dtype.DtNumpy? ==> (r.Ok? <==> !dtype.numpy.OtherNumpy?)
    ensures r.Err? ==> r.error == KeyError
  {
    match dtype
    case NoDtype => Ok(if IsBitwise(metric) then B1 else F32)
    case DtKind(k) => Ok(k)
    case DtName(s) =>
      if s == "" then Ok(if IsBitwise(metric) then B1 else F32)
      else if DtypeByName(Lower(s)).Some? then Ok(DtypeByName(Lower(s)).value)
      else Err(KeyError)
    case DtNumpy(t) =>
      if DtypeByNumpy(t).Some? then Ok(DtypeByNumpy(t).value) else Err(KeyError)
  }

  /** `_to_numpy_dtype`: the numpy type whose bytes have the layout of a scalar kind. */
  function ToNumpyDtype(d: ScalarOrNumpy): (r: Result<NumpyType>)
    ensures d.Scalar? ==> r.Ok? && !r.value.OtherNumpy?
    ensures d.Numpy? ==> (r.Ok? <==> !d.numpy.OtherNumpy?) && (r.Ok? ==> r.value == d.numpy)
    ensures r.Err? ==> r.error == KeyError
  {
    match d
    case Numpy(t) => if t.OtherNumpy? then Err(KeyError) else Ok(t)
    case Scalar(k) =>
      Ok(match k
         case F64 => Float64
         case F32 => Float32
         case F16 => Float16
         case I8 => Int8
         case B1 => UInt8)
  }

  /** The two tables are inverse: every scalar kind survives a trip through its numpy type. */
  lemma ScalarNumpyRoundTrip(k: ScalarKind, metric: MetricKind)
    ensures ToNumpyDtype(Scalar(k)).Ok?
    ensures NormalizeDtype(DtNumpy(ToNumpyDtype(Scalar(k)).value), metric) == Ok(k)
  {
  }

  /** ... and every numpy storage type survives a trip through its scalar kind. */
  lemma NumpyScalarRoundTrip(t: NumpyType, metric: MetricKind)
    requires !t.OtherNumpy?
    ensures NormalizeDtype(DtNumpy(t), metric).Ok?
    ensures ToNumpyDtype(Scalar(NormalizeDtype(DtNumpy(t), metric).value)) == Ok(t)
  {
  }

  /** Names are looked up case-insensitively. */
  lemma {:induction false} DtypeCaseInsensitive(s: string, metric: MetricKind)
    ensures NormalizeDtype(DtName(s), metric) == NormalizeDtype(DtName(Lower(s)), metric)
  {
    LowerIdempotent(s);
  }

  /** Both spellings of the packed-bit type select `B1`, whatever the metric. */
  lemma PackedBitAliases(metric: MetricKind)
    ensures NormalizeDtype(DtName("B1x8"), metric) == Ok(B1)
    ensures NormalizeDtype(DtNumpy(UInt8), metric) == Ok(B1)
  {
    assert Lower("B1x8") == "b1x8";
  }

  // ---------------------------------------------------------------- metric

  /** The alias table of `_normalize_metric`, keyed by lower-cased names. */
  function MetricByName(name: string): Option<MetricKind>
  {
    if name == "cos" || name == "cosine" then Some(Cos)
    else if name == "ip" || name == "dot" || name == "inner_product" then Some(IP)
    else if name == "l2sq" || name == "l2_sq" then Some(L2sq)
    else if name == "haversine" then Some(Haversine)
    else if name == "pearson" then Some(Pearson)
    else if name == "hamming" then Some(Hamming)
    else if name == "tanimoto" then Some(Tanimoto)
    else if name == "sorensen" then Some(Sorensen)
    else None
  }

  /** `_normalize_metric`: names become kinds, `None` becomes cosine, the rest passes through. */
  function NormalizeMetric(metric: MetricLike): (r: Result<MetricLike>)
    ensures metric.NoMetric? ==> r == Ok(Kind(Cos))
    ensures metric.MetricName? ==> (r.Ok? <==> MetricByName(Lower(metric.name)).Some?)
    ensures metric.MetricName? && r.Ok? ==> r.value.Kind?
    ensures !metric.NoMetric? && !metric.MetricName? ==> r == Ok(metric)
    ensures r.Ok? ==> !r.value.NoMetric? && !r.value.MetricName?
    ensures r.Err? ==> r.error == KeyError
  {
    match metric
    case NoMetric => Ok(Kind(Cos))
    case MetricName(s) =>
      if MetricByName(Lower(s)).Some? then Ok(Kind(MetricByName(Lower(s)).value)) else Err(KeyError)
    case _ => Ok(metric)
  }

  /** The name each metric kind has in the compiled enumeration. */
  function MetricEnumName(k: MetricKind): string
  {
    match k
    case IP => "IP"
    case Cos => "Cos"
    case L2sq => "L2sq"
    case Haversine => "Haversine"
    case Pearson => "Pearson"
    case Hamming => "Hamming"
    case Tanimoto => "Tanimoto"
    case Sorensen => "Sorensen"
  }

  /** The enumeration names in lower case. */
  function MetricLowerName(k: MetricKind): string
  {
    match k
    case IP => "ip"
    case Cos => "cos"
    case L2sq => "l2sq"
    case Haversine => "haversine"
    case Pearson => "pearson"
    case Hamming => "hamming"
    case Tanimoto => "tanimoto"
    case Sorensen => "sorensen"
  }

  lemma LowerMetricEnumName(k: MetricKind)
    ensures Lower(MetricEnumName(k)) == MetricLowerName(k)
  {
    match k
    case IP => assert Lower("IP") == "ip";
    case Cos => assert Lower("Cos") == "cos";
    case L2sq => assert Lower("L2sq") == "l2sq";
    case Haversine => assert Lower("Haversine") == "haversine";
    case Pearson => assert Lower("Pearson") == "pearson";
    case Hamming => assert Lower("Hamming") == "hamming";
    case Tanimoto => assert Lower("Tanimoto") == "tanimoto";
    case Sorensen => assert Lower("Sorensen") == "sorensen";
  }

  /** Every kind is reachable by its own enumeration name, spelled in any case. */
  lemma MetricEnumNamesResolve(k: MetricKind)
    ensures NormalizeMetric(MetricName(MetricEnumName(k))) == Ok(Kind(k))
  {
    LowerMetricEnumName(k);
  }

  /** Metric names are looked up case-insensitively. */
  lemma {:induction false} MetricCaseInsensitive(s: string)
    ensures NormalizeMetric(MetricName(s)) == NormalizeMetric(MetricName(Lower(s)))
  {
    LowerIdempotent(s);
  }

  /** The inner-product and squared-Euclidean aliases. */
  lemma MetricAliases()
    ensures NormalizeMetric(MetricName("dot")) == Ok(Kind(IP))
    ensures NormalizeMetric(MetricName("Inner_Product")) == Ok(Kind(IP))
    ensures NormalizeMetric(MetricName("L2_SQ")) == Ok(Kind(L2sq))
  {
    assert Lower("dot") == "dot";
    assert Lower("Inner_Product") == "inner_product";
    assert Lower("L2_SQ") == "l2_sq";
  }

  /** The metric branch of `Index.__init__` (and of the `metric` setter). */
  function ResolveMetric(metric: MetricLike): (r: Result<MetricSetting>)
    ensures r.Ok? <==> NormalizeMetric(metric).Ok? && !NormalizeMetric(metric).value.OtherMetric?
    ensures r.Ok? && NormalizeMetric(metric).value.Kind? ==>
      r.value == MetricSetting(NormalizeMetric(metric).value.kind, None, 0, ArrayArraySize)
    ensures metric.Compiled? ==>
      r == Ok(MetricSetting(metric.compiled.kind, Some(metric.compiled), metric.compiled.pointer, metric.compiled.signature))
    ensures metric.OtherMetric? ==> r == Err(ValueError)
    ensures r.Err? ==> r.error == KeyError || r.error == ValueError
  {
    var m :- NormalizeMetric(metric);
    match m
    case Kind(k) => Ok(MetricSetting(k, None, 0, ArrayArraySize))
    case Compiled(c) => Ok(MetricSetting(c.kind, Some(c), c.pointer, c.signature))
    case _ => Err(ValueError)
  }

  /** A built-in kind never carries a JIT pointer: pointer and signature are fixed. */
  lemma BuiltinMetricsHaveNoPointer(metric: MetricLike)
    requires ResolveMetric(metric).Ok? && ResolveMetric(metric).value.jit.None?
    ensures ResolveMetric(metric).value.pointer == 0
    ensures ResolveMetric(metric).value.signature == ArrayArraySize
    ensures !metric.Compiled?
  {
  }

  /** The argument handling of `Index.__init__` up to the construction of the compiled index. */
  function MakeIndexConfig(
    ndim: int, metric: MetricLike, dtype: DTypeLike,
    connectivity: Option<int>, expansionAdd: Option<int>, expansionSearch: Option<int>,
    multi: bool, defaults: EngineDefaults): (r: Result<IndexConfig>)
    ensures ResolveMetric(metric).Err? ==> r == Err(ResolveMetric(metric).error)
    ensures ResolveMetric(metric).Ok? ==>
      (r.Ok? <==> NormalizeDtype(dtype, ResolveMetric(metric).value.kind).Ok?)
    ensures r.Ok? ==> r.value.metric == ResolveMetric(metric).value
    ensures r.Ok? ==> Ok(r.value.dtype) == NormalizeDtype(dtype, r.value.metric.kind)
    ensures r.Ok? ==> r.value.connectivity == connectivity.GetOr(defaults.connectivity)
    ensures r.Ok? ==> r.value.expansionAdd == expansionAdd.GetOr(defaults.expansionAdd)
    ensures r.Ok? ==> r.value.expansionSearch == expansionSearch.GetOr(defaults.expansionSearch)
    ensures r.Ok? ==> r.value.ndim == ndim && r.value.multi == multi
  {
    var setting :- ResolveMetric(metric);
    var kind :- NormalizeDtype(dtype, setting.kind);
    Ok(IndexConfig(
      ndim, kind,
      connectivity.GetOr(defaults.connectivity),
      expansionAdd.GetOr(defaults.expansionAdd),
      expansionSearch.GetOr(defaults.expansionSearch),
      multi, setting))
  }

  /** A bitwise compiled metric without a dtype gets packed-bit storage from its own kind. */
  lemma CompiledBitwiseDefaultsToB1(ndim: int, c: CompiledMetric, multi: bool, defaults: EngineDefaults)
    requires IsBitwise(c.kind)
    ensures MakeIndexConfig(ndim, Compiled(c), NoDtype, None, None, None, multi, defaults).Ok?
    ensures MakeIndexConfig(ndim, Compiled(c), NoDtype, None, None, None, multi, defaults).value.dtype == B1
  {
  }
}
