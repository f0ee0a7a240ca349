/** Failure-compatible wrappers used to model DALI_ENFORCE / DALI_FAIL / throw as values. */
module Wrappers {

  /** Why a call failed. The message of the original exception is not modelled, only its kind. */
  datatype Error =
    | InvalidType          // a type argument is DALI_NO_TYPE or unknown
    | InvalidSize          // a negative sample count
    | NotContiguous        // AsTensorList(true) on a batch that is not fully contiguous
    | UnsupportedNoCopy    // no_copy across CPU/GPU backends
    | NoDataAvailable      // non-blocking consumer, nothing queued
    | EmptyBatch           // SetDataSource with an empty vector of tensors
    | ParseError           // a header or stream parser rejected its input
    | EndOfStream          // a read or seek went past the end of the encoded data
    | Unsupported          // a decoder does not support the requested configuration
    | LibraryError         // a call into an external library reported failure

  datatype Result<T> = Ok(value: T) | Fail(error: Error) {
    predicate IsFailure() { Fail? }
    function PropagateFailure<U>(): Result<U>
      requires Fail?
    {
      Fail(error)
    }
    function Extract(): T
      requires Ok?
    {
      value
    }
  }

  datatype Option<T> = None | Some(value: T)

  datatype Outcome = Pass | Failure(error: Error) {
    predicate IsFailure() { Failure? }
    function PropagateFailure<U>(): Result<U>
      requires Failure?
    {
      Fail(error)
    }
  }

  function Need(condition: bool, error: Error): (r: Outcome)
    ensures r.Pass? <==> condition
  {
    if condition then Pass else Failure(error)
  }
}

/** DALI's element types (DALIDataType) and tensor shapes. */
module DaliTypes {

  /** The subset of DALIDataType that this model touches; `NoType` is DALI_NO_TYPE. */
  datatype DALIDataType =
    | NoType
    | UInt8 | UInt16 | UInt32 | UInt64
    | Int8 | Int16 | Int32 | Int64
    | Float16 | Float | Float64
    | Bool

  /** IsValidType: every type except DALI_NO_TYPE. */
  predicate IsValidType(t: DALIDataType) {
    t != NoType
  }

  /** TypeInfo::size(): bytes per element; the empty TypeInfo of DALI_NO_TYPE has size 0. */
  function SizeOf(t: DALIDataType): (n: nat)
    ensures n == 0 <==> !IsValidType(t)
    ensures n in {0, 1, 2, 4, 8}
  {
    match t
    case NoType => 0
    case UInt8 => 1
    case Int8 => 1
    case Bool => 1
    case UInt16 => 2
    case Int16 => 2
    case Float16 => 2
    case UInt32 => 4
    case Int32 => 4
    case Float => 4
    case UInt64 => 8
    case Int64 => 8
    case Float64 => 8
  }

  /** A TensorShape<>: extents, outermost first. */
  type Shape = seq<nat>

  /** volume(shape): the number of elements; 1 for a scalar (empty) shape. */
  function Volume(s: Shape): nat
  {
    if s == [] then 1 else s[0] * Volume(s[1..])
  }

  /** Bytes taken by a tensor of shape `s` and element type `t`. */
  function Bytes(s: Shape, t: DALIDataType): nat
  {
    Volume(s) * SizeOf(t)
  }

  function Reverse<T>(s: seq<T>): (r: seq<T>)
    ensures |r| == |s|
    ensures forall i :: 0 <= i < |s| ==> r[i] == s[|s| - 1 - i]
  {
    if s == [] then [] else Reverse(s[1..]) + [s[0]]
  }
}

/** Byte-level reads shared by the image parsers (dali/core/byte_io.h is not part of this model). */
module ByteIO {

  type byte = x: int | 0 <= x < 256

  /** ReadValueBE<uint16_t> at offset `p`. */
  function BE16(d: seq<byte>, p: nat): (v: nat)
    requires p + 2 <= |d|
    ensures v < 0x1_0000
  {
    (d[p] as int) * 256 + (d[p + 1] as int)
  }

  /** ReadValueLE<uint16_t> at offset `p`. */
  function LE16(d: seq<byte>, p: nat): (v: nat)
    requires p + 2 <= |d|
    ensures v < 0x1_0000
  {
    (d[p] as int) + (d[p + 1] as int) * 256
  }

  /** ReadValueBE<uint32_t> at offset `p`. */
  function BE32(d: seq<byte>, p: nat): (v: nat)
    requires p + 4 <= |d|
    ensures v < 0x1_0000_0000
  {
    BE16(d, p) * 0x1_0000 + BE16(d, p + 2)
  }

  /** ReadValueLE<uint32_t> at offset `p`. */
  function LE32(d: seq<byte>, p: nat): (v: nat)
    requires p + 4 <= |d|
    ensures v < 0x1_0000_0000
  {
    LE16(d, p) + LE16(d, p + 2) * 0x1_0000
  }

  /** The two bytes of a 16-bit value, big-endian. */
  function EncodeBE16(v: nat): (r: seq<byte>)
    requires v < 0x1_0000
    ensures |r| == 2 && BE16(r, 0) == v
  {
    [v / 256, v % 256]
  }

  /** The two bytes of a 16-bit value, little-endian. */
  function EncodeLE16(v: nat): (r: seq<byte>)
    requires v < 0x1_0000
    ensures |r| == 2 && LE16(r, 0) == v
  {
    [v % 256, v / 256]
  }

  /** The four bytes of a 32-bit value, big-endian. */
  function EncodeBE32(v: nat): (r: seq<byte>)
    requires v < 0x1_0000_0000
    ensures |r| == 4 && BE32(r, 0) == v
  {
    var hi, lo := EncodeBE16(v / 0x1_0000), EncodeBE16(v % 0x1_0000);
    assert BE16(hi + lo, 0) == BE16(hi, 0) && BE16(hi + lo, 2) == BE16(lo, 0);
    hi + lo
  }

  /** The four bytes of a 32-bit value, little-endian. */
  function EncodeLE32(v: nat): (r: seq<byte>)
    requires v < 0x1_0000_0000
    ensures |r| == 4 && LE32(r, 0) == v
  {
    var lo, hi := EncodeLE16(v % 0x1_0000), EncodeLE16(v / 0x1_0000);
    assert LE16(lo + hi, 0) == LE16(lo, 0) && LE16(lo + hi, 2) == LE16(hi, 0);
    lo + hi
  }

  /** If the bytes from p on are x followed by y, then y starts right after x. */
  lemma SuffixAfter<T>(d: seq<T>, p: nat, x: seq<T>, y: seq<T>)
    requires p <= |d| && d[p..] == x + y
    ensures p + |x| <= |d| && d[p + |x|..] == y
  {
    assert d[p + |x|..] == d[p..][|x|..];
  }

  /** If the bytes from p on are x followed by y, then x sits at p. */
  lemma SuffixSplit<T>(d: seq<T>, p: nat, x: seq<T>, y: seq<T>)
    requires p <= |d| && d[p..] == x + y
    ensures p + |x| <= |d| && d[p + |x|..] == y
    ensures forall k :: 0 <= k < |x| ==> d[p + k] == x[k]
  {
    SuffixAfter(d, p, x, y);
    forall k | 0 <= k < |x|
      ensures d[p + k] == x[k]
    {
      assert d[p + k] == d[p..][k];
    }
  }
}
