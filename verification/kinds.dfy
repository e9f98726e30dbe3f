/** The enumerations the Python wrapper receives from the compiled module. */
module Kinds {

  /** A vector key. The engine stores it as an unsigned 64-bit integer. */
  type Key = nat

  /** A distance as returned by the engine; the wrapper only moves it around. */
  type Distance = real

  /** One stored or queried vector; its scalars are never inspected by the wrapper. */
  type Vector = seq<real>

  datatype MetricKind = IP | Cos | L2sq | Haversine | Pearson | Hamming | Tanimoto | Sorensen

  datatype ScalarKind = F64 | F32 | F16 | I8 | B1

  /** Calling convention of a user-supplied compiled metric. */
  datatype MetricSignature = ArrayArray | ArrayArraySize | ArraySizeArraySize

  /** A JIT-compiled metric: a function pointer, the kind it stands for and its signature. */
  datatype CompiledMetric = CompiledMetric(pointer: int, kind: MetricKind, signature: MetricSignature)

  /** numpy scalar types, as far as the dtype tables mention them. */
  datatype NumpyType = Float64 | Float32 | Float16 | Int8 | UInt8 | OtherNumpy(name: string)

  /** The `MetricKindBitwise` tuple: metrics over packed single-bit scalars. */
  predicate IsBitwise(m: MetricKind)
  {
    m == Hamming || m == Tanimoto || m == Sorensen
  }
}
