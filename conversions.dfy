/** The loader's expression-level helpers: the closed enum mappings, the
    tensor-index lookup, the page rounding used to give constant bytes back
    to the OS, the uint16 copy of sparse index vectors, and the reading of
    int32 values out of a constant operand. */
module Conversions {
  import opened Wrappers
  import opened IR
  import opened Schema

  /** Why a load stops. Every one of them is terminal. */
  datatype LoadError =
    | UnsupportedActivation
    | UnsupportedTensorType
    | MultipleScales
    | MultipleZeroPoints
    | CustomQuantization
    | SparseNot2D
    | SparseDim0NotDense
    | SparseDim1NotCsr
    | SparseIndexParse
    | VariableTensor
    | OptionalInputNotAllowed(code: BuiltinOperator)
    /** the options table is absent or of another kind; the source
        dereferences it regardless */
    | MissingOptions
    /** at(i) past the end of an input or output list */
    | MissingInputOrOutput
    /** operands().at(ind) with an index that names no operand */
    | UndefinedOperand
    | NonConstantSize
    | NonConstantPerm
    | NonConstantAxis
    | NonConstantMultiples
    /** a constant read past the end of its bytes */
    | ConstantTooShort
    | SqueezeDimsOutOfRange
    | EinsumEmptyEquation
    | EinsumInputCount
    | FusedBatchNormEmptyOption
    | FusedBatchNormInputCount
    | OneHotArity
    | ArgMaxOutputType
    | ArgMaxAxis
    | WrongBatchMatMul(code: BuiltinOperator)
    | UnsupportedOperation(code: BuiltinOperator)
    | UnknownCustomOp(name: string)
    /** the generic custom fallback reads custom options that are absent */
    | NullCustomOptions

  // ---- convertActivation --------------------------------------------------

  /** The schema activation that maps to a given IR activation, if any. */
  function ActivationToSchema(a: Activation): Option<ActivationFunctionType>
  {
    match a
    case NONE => Some(AF_NONE)
    case RELU => Some(AF_RELU)
    case RELU1 => Some(AF_RELU_N1_TO_1)
    case RELU6 => Some(AF_RELU6)
    case TANH => Some(AF_TANH)
    case SIGMOID => None
  }

  /** convertActivation: the five supported schema activations map one to
      one onto IR activations; SIGN_BIT and out-of-schema values fail. */
  function ConvertActivation(t: ActivationFunctionType): (r: Result<Activation, LoadError>)
    ensures r.Failure? <==> t.AF_SIGN_BIT? || t.AF_OTHER?
    ensures r.Failure? ==> r.error == UnsupportedActivation
    ensures r.Success? ==> ActivationToSchema(r.value) == Some(t)
  {
    match t
    case AF_NONE => Success(Activation.NONE)
    case AF_RELU => Success(Activation.RELU)
    case AF_RELU_N1_TO_1 => Success(Activation.RELU1)
    case AF_RELU6 => Success(Activation.RELU6)
    case AF_TANH => Success(Activation.TANH)
    case _ => Failure(UnsupportedActivation)
  }

  /** The other direction: every IR activation with a schema counterpart is
      reached from exactly that counterpart. */
  lemma ConvertActivationInverse(a: Activation, t: ActivationFunctionType)
    ensures ConvertActivation(t) == Success(a) <==> ActivationToSchema(a) == Some(t)
  {
  }

  // ---- tensorTypeToDataType -----------------------------------------------

  /** The schema tensor type that maps to a given IR data type, if any. */
  function DataTypeToTensorType(d: DataType): Option<TensorType>
  {
    match d
    case FLOAT32 => Some(TT_FLOAT32)
    case INT32 => Some(TT_INT32)
    case BOOL8 => Some(TT_BOOL)
    case QUANT_UINT8_ASYMM => Some(TT_UINT8)
    case QUANT_INT8_SYMM => Some(TT_INT8)
    case INT64 => Some(TT_INT64)
    case _ => None
  }

  predicate SupportedTensorType(t: TensorType)
  {
    t in {TT_FLOAT32, TT_INT32, TT_BOOL, TT_UINT8, TT_INT8, TT_INT64}
  }

  /** tensorTypeToDataType: exactly six schema types are accepted, each
      mapped to its own IR type; every other type fails. */
  function TensorTypeToDataType(t: TensorType): (r: Result<DataType, LoadError>)
    ensures r.Success? <==> SupportedTensorType(t)
    ensures r.Failure? ==> r.error == UnsupportedTensorType
    ensures r.Success? ==> DataTypeToTensorType(r.value) == Some(t)
  {
    match t
    case TT_FLOAT32 => Success(FLOAT32)
    case TT_INT32 => Success(INT32)
    case TT_BOOL => Success(BOOL8)
    case TT_UINT8 => Success(QUANT_UINT8_ASYMM)
    case TT_INT8 => Success(QUANT_INT8_SYMM)
    case TT_INT64 => Success(INT64)
    case _ => Failure(UnsupportedTensorType)
  }

  lemma TensorTypeInverse(d: DataType, t: TensorType)
    ensures TensorTypeToDataType(t) == Success(d) <==> DataTypeToTensorType(d) == Some(t)
  {
  }

  // ---- tensorIdxToOperandIdx ----------------------------------------------

  /** tensorIdxToOperandIdx: -1 is the undefined operand index; any other
      tensor index names the operand created for that tensor. */
  function TensorIdxToOperandIdx(t2o: seq<OperandIndex>, idx: int): (r: OperandIndex)
    requires TensorRefOk(idx, |t2o|)
    ensures idx == -1 ==> r == Undefined
    ensures idx != -1 ==> r == t2o[idx]
  {
    if idx == -1 then Undefined else t2o[idx]
  }

  /** The operand indices of a whole tensor-index list, in order. */
  function TensorIdxsToOperandIdxs(t2o: seq<OperandIndex>, idxs: seq<int>): (r: seq<OperandIndex>)
    requires forall k :: 0 <= k < |idxs| ==> TensorRefOk(idxs[k], |t2o|)
    ensures |r| == |idxs|
    ensures forall k :: 0 <= k < |idxs| ==> r[k] == TensorIdxToOperandIdx(t2o, idxs[k])
  {
    seq(|idxs|, k requires 0 <= k < |idxs| => TensorIdxToOperandIdx(t2o, idxs[k]))
  }

  /** When every entry of the tensor-to-operand table is a defined index, an
      entry of the mapped list is undefined exactly where the serialized
      entry is -1. */
  lemma UndefinedIffOptional(t2o: seq<OperandIndex>, idxs: seq<int>, k: nat)
    requires forall j :: 0 <= j < |idxs| ==> TensorRefOk(idxs[j], |t2o|)
    requires forall j :: 0 <= j < |t2o| ==> t2o[j].Index?
    requires k < |idxs|
    ensures TensorIdxsToOperandIdxs(t2o, idxs)[k] == Undefined <==> idxs[k] == -1
  {
  }

  // ---- deallocateMmappedArea ----------------------------------------------

  /** A byte range [start, start + length) of the mapped model image. */
  datatype ByteRange = ByteRange(start: nat, length: nat)

  predicate PageAligned(x: int, pageSize: nat)
    requires pageSize > 0
  {
    x % pageSize == 0
  }

  /** The range deallocateMmappedArea gives back to the OS for the bytes
      [offset, offset + size): the start rounded up and the end rounded down
      to a page boundary, nothing when that leaves no whole page. */
  function ReleaseRange(offset: nat, size: nat, pageSize: nat): (r: Option<ByteRange>)
    requires pageSize > 0
    ensures r.Some? ==> && PageAligned(r.value.start, pageSize)
                        && PageAligned(r.value.length, pageSize)
                        && r.value.length > 0
                        && offset <= r.value.start
                        && r.value.start + r.value.length <= offset + size
  {
    var alignedStart := ((offset + (pageSize - 1)) / pageSize) * pageSize;
    var alignedEnd := ((offset + size) / pageSize) * pageSize;
    RoundUpBounds(offset, pageSize);
    RoundDownBounds(offset + size, pageSize);
    var areaSize := alignedEnd - alignedStart;
    if areaSize > 0 then
      MultipleDiff(alignedEnd, alignedStart, (offset + size) / pageSize,
                   (offset + (pageSize - 1)) / pageSize, pageSize);
      Some(ByteRange(alignedStart, areaSize))
    else None
  }

  lemma RoundUpBounds(x: nat, p: nat)
    requires p > 0
    ensures x <= ((x + (p - 1)) / p) * p < x + p
    ensures (((x + (p - 1)) / p) * p) % p == 0
  {
    var q := (x + (p - 1)) / p;
    var m := (x + (p - 1)) % p;
    assert x + (p - 1) == q * p + m;
    MultipleMod(q, p);
  }

  lemma RoundDownBounds(x: nat, p: nat)
    requires p > 0
    ensures x - p < (x / p) * p <= x
    ensures ((x / p) * p) % p == 0
  {
    assert x == (x / p) * p + x % p;
    MultipleMod(x / p, p);
  }

  lemma MultipleMod(q: int, p: nat)
    requires p > 0
    ensures (q * p) % p == 0
  {
    var m := q * p;
    assert m == q * p + 0;
    assert m / p == q && m % p == 0 by {
      DivModUnique(m, p, q, 0);
    }
  }

  lemma DivModUnique(m: int, p: nat, q: int, r: int)
    requires p > 0 && 0 <= r < p && m == q * p + r
    ensures m / p == q && m % p == r
  {
    var q' := m / p;
    var r' := m % p;
    assert m == q' * p + r';
    assert (q - q') * p == r' - r;
    if q > q' {
      assert (q - q') * p >= p by { MulGe(q - q', p); }
    } else if q < q' {
      assert (q' - q) * p >= p by { MulGe(q' - q, p); }
    }
  }

  lemma MulGe(a: int, p: nat)
    requires a >= 1 && p > 0
    ensures a * p >= p
  {
  }

  lemma MultipleDiff(a: int, b: int, qa: int, qb: int, p: nat)
    requires p > 0 && a == qa * p && b == qb * p
    ensures (a - b) % p == 0
  {
    assert a - b == (qa - qb) * p;
    MultipleMod(qa - qb, p);
  }

  /** The released range is the largest page-aligned range inside
      [offset, offset + size): any aligned sub-range of positive length
      lies within it, so nothing is released exactly when no whole page
      fits. */
  lemma {:induction false} ReleaseRangeMaximal(offset: nat, size: nat, pageSize: nat, a: int, b: int)
    requires pageSize > 0
    requires PageAligned(a, pageSize) && PageAligned(b, pageSize)
    requires offset <= a < b <= offset + size
    ensures ReleaseRange(offset, size, pageSize).Some?
    ensures ReleaseRange(offset, size, pageSize).value.start <= a
    ensures b <= ReleaseRange(offset, size, pageSize).value.start
                 + ReleaseRange(offset, size, pageSize).value.length
  {
    var p := pageSize;
    var s := ((offset + (p - 1)) / p) * p;
    var e := ((offset + size) / p) * p;
    RoundUpBounds(offset, p);
    RoundDownBounds(offset + size, p);
    AlignedBetween(a, s, offset, p);
    AlignedBetween(e, b, offset + size - p + 1, p);
  }

  /** Of two multiples of p, one below lo + p and the other at least lo,
      the first is not above the second. */
  lemma AlignedBetween(a: int, s: int, lo: int, p: nat)
    requires p > 0
    requires a % p == 0 && s % p == 0
    requires lo <= a && s < lo + p
    ensures s <= a
  {
    var qa, qs := a / p, s / p;
    DivModIdentity(a, p);
    DivModIdentity(s, p);
    if qs > qa {
      MulGe(qs - qa, p);
      MulDistrib(qs, qa, p);
    }
  }

  lemma DivModIdentity(x: int, p: nat)
    requires p > 0
    ensures x == (x / p) * p + x % p
  {
  }

  lemma MulDistrib(x: int, y: int, p: int)
    ensures (x - y) * p == x * p - y * p
  {
  }

  // ---- Narrowing casts ----------------------------------------------------

  /** The conversion of a long to int32_t: the value modulo 2^32, read as
      two's complement. */
  function ToInt32(v: int): (r: int)
    ensures -0x8000_0000 <= r < 0x8000_0000
    ensures (v - r) % 0x1_0000_0000 == 0
  {
    (v + 0x8000_0000) % 0x1_0000_0000 - 0x8000_0000
  }

  /** A value already inside the int32 range is kept by the conversion. */
  lemma {:induction false} ToInt32Identity(v: int)
    requires -0x8000_0000 <= v < 0x8000_0000
    ensures ToInt32(v) == v
  {
    DivModUnique(v + 0x8000_0000, 0x1_0000_0000, 0, v + 0x8000_0000);
  }

  // ---- Copy ---------------------------------------------------------------

  /** static_cast<uint16_t>: the value modulo 2^16. */
  function ToUint16(v: int): (r: nat)
    ensures r < 0x1_0000
    ensures (v - r) % 0x1_0000 == 0
  {
    v % 0x1_0000
  }

  /** Copy: false when the vector has no values; otherwise every value, in
      order, cast to uint16. */
  method Copy(values: Option<seq<int>>) returns (ok: bool, arr: seq<nat>)
    ensures ok <==> values.Some?
    ensures !ok ==> arr == []
    ensures ok ==> |arr| == |values.value|
    ensures ok ==> forall i :: 0 <= i < |arr| ==> arr[i] == ToUint16(values.value[i])
  {
    if values.None? {
      return false, [];
    }
    var vs := values.value;
    arr := [];
    var i := 0;
    while i < |vs|
      invariant 0 <= i <= |vs|
      invariant |arr| == i
      invariant forall j :: 0 <= j < i ==> arr[j] == ToUint16(vs[j])
    {
      arr := arr + [ToUint16(vs[i])];
      i := i + 1;
    }
    ok := true;
  }

  // ---- int32 values of a constant operand ---------------------------------

  /** The little-endian signed 32-bit value of four bytes. */
  function Int32LE(b0: byte, b1: byte, b2: byte, b3: byte): (r: int)
    ensures -0x8000_0000 <= r < 0x8000_0000
  {
    var u := b0 + 0x100 * b1 + 0x1_0000 * b2 + 0x100_0000 * b3;
    if u >= 0x8000_0000 then u - 0x1_0000_0000 else u
  }

  /** asVector<int32_t>(): one value per whole group of four bytes. */
  function AsInt32Vector(bytes: seq<byte>): (r: seq<int>)
    ensures |r| == |bytes| / 4
    ensures forall k :: 0 <= k < |r| ==>
              r[k] == Int32LE(bytes[4 * k], bytes[4 * k + 1], bytes[4 * k + 2], bytes[4 * k + 3])
    decreases |bytes|
  {
    if |bytes| < 4 then []
    else
      var rest := AsInt32Vector(bytes[4..]);
      assert forall k :: 0 <= k < |rest| ==> bytes[4..][4 * k] == bytes[4 * (k + 1)];
      [Int32LE(bytes[0], bytes[1], bytes[2], bytes[3])] + rest
  }

  /** asScalar<int>(): the first four bytes; fewer than four is a read past
      the end of the constant. */
  function AsInt32Scalar(bytes: seq<byte>): (r: Result<int, LoadError>)
    ensures r.Success? <==> |bytes| >= 4
    ensures r.Success? ==> r.value == AsInt32Vector(bytes)[0]
  {
    if |bytes| < 4 then Failure(ConstantTooShort)
    else Success(Int32LE(bytes[0], bytes[1], bytes[2], bytes[3]))
  }
}
