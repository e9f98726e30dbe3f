/** The C++ side of the Rust binding: translation of the Rust enumerations into the native
    ones, construction of the native index, and the buffers of a search. */
module RustBridge {
  import opened Wrappers
  import opened Seqs
  import opened Strings
  import opened Kinds
  import Normalize
  import Results

  // ---------------------------------------------------------------- enumerations

  /** A Rust `MetricKind` as it crosses the bridge: one of the declared variants, or any
      other discriminant value, which a shared enum can carry. */
  datatype RustMetric = DeclaredMetric(kind: MetricKind) | UndeclaredMetric(repr: int)

  /** A Rust `ScalarKind` as it crosses the bridge. */
  datatype RustScalar = DeclaredScalar(kind: ScalarKind) | UndeclaredScalar(repr: int)

  /** `metric_kind_t`. */
  datatype NativeMetric = IpK | L2sqK | CosK | PearsonK | HaversineK | HammingK | TanimotoK | SorensenK | UnknownK

  /** `scalar_kind_t`, as far as the bridge produces it. */
  datatype NativeScalar = I8K | F16K | F32K | F64K | B1x8K | UnknownScalarK

  /** `rust_to_cpp_metric`. */
  function RustToCppMetric(value: RustMetric): (r: NativeMetric)
    ensures r == UnknownK <==> value.UndeclaredMetric?
  {
    match value
    case DeclaredMetric(IP) => IpK
    case DeclaredMetric(L2sq) => L2sqK
    case DeclaredMetric(Cos) => CosK
    case DeclaredMetric(Pearson) => PearsonK
    case DeclaredMetric(Haversine) => HaversineK
    case DeclaredMetric(Hamming) => HammingK
    case DeclaredMetric(Tanimoto) => TanimotoK
    case DeclaredMetric(Sorensen) => SorensenK
    case UndeclaredMetric(_) => UnknownK
  }

  /** `rust_to_cpp_scalar`. */
  function RustToCppScalar(value: RustScalar): (r: NativeScalar)
    ensures r == UnknownScalarK <==> value.UndeclaredScalar?
  {
    match value
    case DeclaredScalar(I8) => I8K
    case DeclaredScalar(F16) => F16K
    case DeclaredScalar(F32) => F32K
    case DeclaredScalar(F64) => F64K
    case DeclaredScalar(B1) => B1x8K
    case UndeclaredScalar(_) => UnknownScalarK
  }

  /** The Rust metric a native kind stands for; `unknown_k` stands for none. */
  function CppToRustMetric(n: NativeMetric): Option<MetricKind>
  {
    match n
    case IpK => Some(IP)
    case L2sqK => Some(L2sq)
    case CosK => Some(Cos)
    case PearsonK => Some(Pearson)
    case HaversineK => Some(Haversine)
    case HammingK => Some(Hamming)
    case TanimotoK => Some(Tanimoto)
    case SorensenK => Some(Sorensen)
    case UnknownK => None
  }

  /** The Rust scalar a native kind stands for. */
  function CppToRustScalar(n: NativeScalar): Option<ScalarKind>
  {
    match n
    case I8K => Some(I8)
    case F16K => Some(F16)
    case F32K => Some(F32)
    case F64K => Some(F64)
    case B1x8K => Some(B1)
    case UnknownScalarK => None
  }

  /** The metric translation is a bijection between the declared kinds and the known
      native kinds. */
  lemma MetricRoundTrip(k: MetricKind, n: NativeMetric)
    ensures CppToRustMetric(RustToCppMetric(DeclaredMetric(k))) == Some(k)
    ensures n != UnknownK ==> CppToRustMetric(n).Some? && RustToCppMetric(DeclaredMetric(CppToRustMetric(n).value)) == n
  {
  }

  /** The scalar translation is a bijection between the declared kinds and the known
      native kinds. */
  lemma ScalarRoundTrip(k: ScalarKind, n: NativeScalar)
    ensures CppToRustScalar(RustToCppScalar(DeclaredScalar(k))) == Some(k)
    ensures n != UnknownScalarK ==> CppToRustScalar(n).Some? && RustToCppScalar(DeclaredScalar(CppToRustScalar(n).value)) == n
  {
  }

  /** Distinct declared metrics stay distinct. */
  lemma MetricInjective(a: MetricKind, b: MetricKind)
    requires RustToCppMetric(DeclaredMetric(a)) == RustToCppMetric(DeclaredMetric(b))
    ensures a == b
  {
    MetricRoundTrip(a, IpK);
    MetricRoundTrip(b, IpK);
  }

  /** Distinct declared scalars stay distinct. */
  lemma ScalarInjective(a: ScalarKind, b: ScalarKind)
    requires RustToCppScalar(DeclaredScalar(a)) == RustToCppScalar(DeclaredScalar(b))
    ensures a == b
  {
    ScalarRoundTrip(a, I8K);
    ScalarRoundTrip(b, I8K);
  }

  /** The enumerator names of `metric_kind_t`. */
  function NativeMetricName(n: NativeMetric): string
  {
    match n
    case IpK => "ip_k"
    case L2sqK => "l2sq_k"
    case CosK => "cos_k"
    case PearsonK => "pearson_k"
    case HaversineK => "haversine_k"
    case HammingK => "hamming_k"
    case TanimotoK => "tanimoto_k"
    case SorensenK => "sorensen_k"
    case UnknownK => "unknown_k"
  }

  /** The enumerator names of `scalar_kind_t`. */
  function NativeScalarName(n: NativeScalar): string
  {
    match n
    case I8K => "i8_k"
    case F16K => "f16_k"
    case F32K => "f32_k"
    case F64K => "f64_k"
    case B1x8K => "b1x8_k"
    case UnknownScalarK => "unknown_k"
  }

  /** The variant names of the Rust `ScalarKind`. */
  function RustScalarName(k: ScalarKind): string
  {
    match k
    case I8 => "I8"
    case F16 => "F16"
    case F32 => "F32"
    case F64 => "F64"
    case B1 => "B1"
  }

  /** Every declared metric maps to the native kind of the same name. */
  lemma MetricNamesAgree(k: MetricKind)
    ensures NativeMetricName(RustToCppMetric(DeclaredMetric(k))) == Lower(Normalize.MetricEnumName(k)) + "_k"
  {
    Normalize.LowerMetricEnumName(k);
  }

  /** Every declared scalar maps to the native kind of the same name, except that single
      bits map to the packed `b1x8_k`. */
  lemma ScalarNamesAgree(k: ScalarKind)
    ensures k != B1 ==> NativeScalarName(RustToCppScalar(DeclaredScalar(k))) == Lower(RustScalarName(k)) + "_k"
    ensures k == B1 ==> NativeScalarName(RustToCppScalar(DeclaredScalar(k))) == "b1x8_k"
  {
    match k
    case I8 => assert Lower("I8") == "i8";
    case F16 => assert Lower("F16") == "f16";
    case F32 => assert Lower("F32") == "f32";
    case F64 => assert Lower("F64") == "f64";
    case B1 =>
  }

  // ---------------------------------------------------------------- new_index

  /** The Rust `IndexOptions` the bridge reads. */
  datatype IndexOptions = IndexOptions(
    dimensions: nat, metric: RustMetric, quantization: RustScalar,
    connectivity: nat, expansionAdd: nat, expansionSearch: nat)

  /** What `new_index` hands to the native `index_dense_t::make`: the punned metric and the
      dense configuration. */
  datatype NativeConfig = NativeConfig(
    dimensions: nat, metric: NativeMetric, scalar: NativeScalar,
    connectivity: nat, expansionAdd: nat, expansionSearch: nat)

  /** `new_index`. */
  function NewIndex(options: IndexOptions): (r: NativeConfig)
    ensures r.metric == UnknownK <==> options.metric.UndeclaredMetric?
    ensures r.scalar == UnknownScalarK <==> options.quantization.UndeclaredScalar?
  {
    NativeConfig(
      options.dimensions,
      RustToCppMetric(options.metric),
      RustToCppScalar(options.quantization),
      options.connectivity, options.expansionAdd, options.expansionSearch)
  }

  /** The options a native configuration was built from, when its kinds are known. */
  function RecoverOptions(c: NativeConfig): Option<IndexOptions>
  {
    match (CppToRustMetric(c.metric), CppToRustScalar(c.scalar))
    case (Some(m), Some(s)) =>
      Some(IndexOptions(c.dimensions, DeclaredMetric(m), DeclaredScalar(s), c.connectivity, c.expansionAdd, c.expansionSearch))
    case _ => None
  }

  /** Options with declared kinds pass through `new_index` without loss: the dimensions,
      connectivity and expansions unchanged, the kinds translated one to one. */
  lemma NewIndexRoundTrip(options: IndexOptions)
    requires options.metric.DeclaredMetric? && options.quantization.DeclaredScalar?
    ensures RecoverOptions(NewIndex(options)) == Some(options)
  {
    MetricRoundTrip(options.metric.kind, IpK);
    ScalarRoundTrip(options.quantization.kind, I8K);
  }

  // ---------------------------------------------------------------- Index::search

  /** The outcome of a native search: an error, or the matches found. */
  datatype EngineResult = Failed | Found(found: seq<Results.Match>)

  /** The native search: for a query and a wanted count, never more matches than wanted. */
  type NativeSearch = f: (Vector, nat) -> EngineResult
    | forall v, c :: f(v, c).Found? ==> |f(v, c).found| <= c
    witness (v: Vector, c: nat) => Failed

  function KeysOf(found: seq<Results.Match>): (r: seq<Key>)
    ensures |r| == |found| && forall i :: 0 <= i < |found| ==> r[i] == found[i].key
  {
    MapSeq((m: Results.Match) => m.key, found)
  }

  function DistancesOf(found: seq<Results.Match>): (r: seq<Distance>)
    ensures |r| == |found| && forall i :: 0 <= i < |found| ==> r[i] == found[i].distance
  {
    MapSeq((m: Results.Match) => m.distance, found)
  }

  /** The Rust `Matches` struct: two growable vectors. */
  class MatchBuffers {
    var keys: seq<Key>
    var distances: seq<Distance>

    constructor()
      ensures keys == [] && distances == []
    {
      keys := [];
      distances := [];
    }

    /** `push_back` on both vectors. */
    method PushBack(k: Key, d: Distance)
      modifies this
      ensures keys == old(keys) + [k] && distances == old(distances) + [d]
    {
      keys := keys + [k];
      distances := distances + [d];
    }

    /** `truncate(n)` on both vectors: a longer bound leaves a vector as it is. */
    method Truncate(n: nat)
      modifies this
      ensures keys == old(keys)[..Min(n, |old(keys)|)]
      ensures distances == old(distances)[..Min(n, |old(distances)|)]
    {
      keys := keys[..Min(n, |keys|)];
      distances := distances[..Min(n, |distances|)];
    }
  }

  /** `search_result_t::dump_to`: writes the matches found to the front of both buffers,
      which must have room for them, and returns how many it wrote. */
  method DumpTo(found: seq<Results.Match>, m: MatchBuffers) returns (written: nat)
    requires |found| <= |m.keys| && |found| <= |m.distances|
    modifies m
    ensures written == |found|
    ensures m.keys == KeysOf(found) + old(m.keys)[written..]
    ensures m.distances == DistancesOf(found) + old(m.distances)[written..]
  {
    m.keys := KeysOf(found) + m.keys[|found|..];
    m.distances := DistancesOf(found) + m.distances[|found|..];
    written := |found|;
  }

  /** `Index::search`: both buffers are filled with `count` zeros, an engine error is raised
      before anything is dumped, and after the dump both are cut to the number written, so
      exactly the matches found come back, keys and distances side by side. */
  method Search(engine: NativeSearch, vector: Vector, count: nat)
    returns (r: Result<(seq<Key>, seq<Distance>)>)
    ensures r.Err? <==> engine(vector, count).Failed?
    ensures r.Err? ==> r.error == EngineFailure
    ensures r.Ok? ==> |r.value.0| == |r.value.1| <= count
    ensures r.Ok? ==>
      var found := engine(vector, count).found;
      r.value.0 == KeysOf(found) && r.value.1 == DistancesOf(found)
  {
    var m := new MatchBuffers();
    for i := 0 to count
      invariant |m.keys| == i && |m.distances| == i
      invariant forall j :: 0 <= j < i ==> m.keys[j] == 0 && m.distances[j] == 0.0
    {
      m.PushBack(0, 0.0);
    }
    var result := engine(vector, count);
    if result.Failed? {
      return Err(EngineFailure);
    }
    var written := DumpTo(result.found, m);
    m.Truncate(written);
    r := Ok((m.keys, m.distances));
  }
}
