/** What loadOperand accepts and what it builds, stated on the serialized
    tensor alone, plus the sparsity parsing it performs. */
module OperandChecks {
  import opened Wrappers
  import opened IR
  import opened Schema
  import opened Conversions

  /** Quantization loadOperand refuses: a scale or zero-point list whose
      length is not one, or custom quantization details. */
  predicate QuantRejected(q: Option<QuantizationParameters>)
  {
    && q.Some?
    && (|| (q.value.scale.Some? && |q.value.scale.value| != 1)
        || (q.value.zeroPoint.Some? && |q.value.zeroPoint.value| != 1)
        || q.value.hasCustomDetails)
  }

  function ScaleOf(q: Option<QuantizationParameters>): Float
    requires !QuantRejected(q)
  {
    if q.Some? && q.value.scale.Some? then q.value.scale.value[0] else ZeroF
  }

  /** The zero point as TypeInfo stores it: the serialized long narrowed to
      int32. */
  function ZeroPointOf(q: Option<QuantizationParameters>): int
    requires !QuantRejected(q)
  {
    if q.Some? && q.value.zeroPoint.Some? then ToInt32(q.value.zeroPoint.value[0]) else 0
  }

  /** An index vector the sparsity parser can copy: a known vector kind, the
      table present and its values present. */
  predicate IndexVectorOk(kind: SparseIndexVectorType, v: Option<SparseIndexVector>)
  {
    kind != SIV_NONE && v.Some? && v.value.values.Some?
  }

  /** The only sparsity accepted: two dimensions, DENSE then SPARSE_CSR,
      with copyable segments and indices. */
  predicate SparsityAccepted(s: SparsityParameters)
  {
    && |s.dimMetadata| == 2
    && s.dimMetadata[0].format == DENSE
    && s.dimMetadata[1].format == SPARSE_CSR
    && IndexVectorOk(s.dimMetadata[1].segmentsType, s.dimMetadata[1].segments)
    && IndexVectorOk(s.dimMetadata[1].indicesType, s.dimMetadata[1].indices)
  }

  function CastAll(vs: seq<int>): (r: seq<int>)
    ensures |r| == |vs|
    ensures forall k :: 0 <= k < |vs| ==> r[k] == ToUint16(vs[k])
  {
    seq(|vs|, k requires 0 <= k < |vs| => ToUint16(vs[k]))
  }

  /** The 2-D metadata an accepted sparsity yields: segments and indices
      copied in order, each cast to uint16. */
  function Sparse2DOf(s: SparsityParameters): Sparse2D
    requires SparsityAccepted(s)
  {
    var m := s.dimMetadata[1];
    Sparse2D(CastAll(m.segments.value.values.value), CastAll(m.indices.value.values.value))
  }

  /** The cases in which loadOperand fails before it creates the operand. */
  predicate TypeInfoRejected(t: Tensor)
  {
    || !SupportedTensorType(t.tensorType)
    || QuantRejected(t.quantization)
    || (t.sparsity.Some? && !SparsityAccepted(t.sparsity.value))
  }

  /** Every case in which loadOperand fails: a variable tensor is refused
      only after its operand has been created. */
  predicate OperandRejected(t: Tensor)
  {
    TypeInfoRejected(t) || t.isVariable
  }

  function ShapeOf(t: Tensor): Shape
  {
    if t.shape.Some? then t.shape.value else []
  }

  /** The type information loadOperand derives from an accepted tensor. */
  predicate DescribesTypeInfo(ti: TypeInfo, t: Tensor)
    requires !TypeInfoRejected(t)
  {
    && DataTypeToTensorType(ti.dataType) == Some(t.tensorType)
    && ti.scale == ScaleOf(t.quantization)
    && ti.zeroPoint == ZeroPointOf(t.quantization)
    && ti.sparsity == (if t.sparsity.Some? then Some(Sparse2DOf(t.sparsity.value)) else None)
  }

  /** The type information of an accepted tensor, as loadOperand builds it. */
  function TypeInfoOf(t: Tensor): (r: TypeInfo)
    requires !TypeInfoRejected(t)
    ensures DescribesTypeInfo(r, t)
  {
    TypeInfo(TensorTypeToDataType(t.tensorType).value, ScaleOf(t.quantization), ZeroPointOf(t.quantization),
             if t.sparsity.Some? then Some(Sparse2DOf(t.sparsity.value)) else None)
  }

  /** The description pins the type information down: TypeInfoOf is the
      only type information that describes an accepted tensor. */
  lemma {:induction false} DescribesTypeInfoUnique(ti: TypeInfo, t: Tensor)
    requires !TypeInfoRejected(t)
    ensures DescribesTypeInfo(ti, t) <==> ti == TypeInfoOf(t)
  {
    if DescribesTypeInfo(ti, t) {
      TensorTypeInverse(ti.dataType, t.tensorType);
    }
  }

  /** The operand loadOperand creates for an accepted tensor, before any
      constant value is attached. */
  predicate DescribesTensor(o: Operand, t: Tensor)
    requires !OperandRejected(t)
  {
    o.shape == ShapeOf(t) && DescribesTypeInfo(o.typeInfo, t)
  }

  /** The lambda that parses the CSR index vectors: one Copy for the
      segments, one for the indices. */
  method ParseSparseIndexVector(m: DimensionMetadata) returns (ok: bool, segments: seq<int>, indices: seq<int>)
    ensures ok <==> IndexVectorOk(m.segmentsType, m.segments) && IndexVectorOk(m.indicesType, m.indices)
    ensures ok ==> segments == CastAll(m.segments.value.values.value)
    ensures ok ==> indices == CastAll(m.indices.value.values.value)
  {
    segments, indices := [], [];
    if m.segments.None? || m.indices.None? {
      return false, segments, indices;
    }
    if m.segmentsType == SIV_NONE {
      return false, segments, indices;
    }
    ok, segments := Copy(m.segments.value.values);
    if !ok {
      return;
    }
    if m.indicesType == SIV_NONE {
      return false, segments, indices;
    }
    ok, indices := Copy(m.indices.value.values);
  }

  /** The sparsity part of loadOperand: exactly SparsityAccepted succeeds,
      and then with the copied segments and indices; each failure carries
      the error of the first check that fails. */
  method LoadSparsity(s: SparsityParameters) returns (r: Result<Sparse2D, LoadError>)
    ensures r.Success? <==> SparsityAccepted(s)
    ensures r.Success? ==> r.value == Sparse2DOf(s)
    ensures |s.dimMetadata| != 2 ==> r == Failure(SparseNot2D)
    ensures |s.dimMetadata| == 2 && s.dimMetadata[0].format != DENSE ==> r == Failure(SparseDim0NotDense)
    ensures (&& |s.dimMetadata| == 2 && s.dimMetadata[0].format == DENSE
             && s.dimMetadata[1].format != SPARSE_CSR) ==> r == Failure(SparseDim1NotCsr)
    ensures (&& |s.dimMetadata| == 2 && s.dimMetadata[0].format == DENSE
             && s.dimMetadata[1].format == SPARSE_CSR && !SparsityAccepted(s)) ==> r == Failure(SparseIndexParse)
  {
    if |s.dimMetadata| != 2 {
      return Failure(SparseNot2D);
    }
    if s.dimMetadata[0].format != DENSE {
      return Failure(SparseDim0NotDense);
    }
    if s.dimMetadata[1].format != SPARSE_CSR {
      return Failure(SparseDim1NotCsr);
    }
    var ok, segments, indices := ParseSparseIndexVector(s.dimMetadata[1]);
    if !ok {
      return Failure(SparseIndexParse);
    }
    r := Success(Sparse2D(segments, indices));
  }

  /** The type part of loadOperand: element type, one scale and one zero
      point at most, no custom quantization, and the sparsity. */
  method LoadTypeInfo(t: Tensor) returns (r: Result<TypeInfo, LoadError>)
    ensures r.Success? <==> !TypeInfoRejected(t)
    ensures r.Success? ==> r.value == TypeInfoOf(t)
    ensures !SupportedTensorType(t.tensorType) ==> r == Failure(UnsupportedTensorType)
  {
    var dataType :- TensorTypeToDataType(t.tensorType);
    var scale, zeroPoint := ZeroF, 0;
    if t.quantization.Some? {
      var q := t.quantization.value;
      if q.scale.Some? {
        if |q.scale.value| != 1 {
          return Failure(MultipleScales);
        }
        scale := q.scale.value[0];
      }
      if q.zeroPoint.Some? {
        if |q.zeroPoint.value| != 1 {
          return Failure(MultipleZeroPoints);
        }
        zeroPoint := ToInt32(q.zeroPoint.value[0]);
      }
      if q.hasCustomDetails {
        return Failure(CustomQuantization);
      }
    }
    var sparsity: Option<Sparse2D> := None;
    if t.sparsity.Some? {
      var s :- LoadSparsity(t.sparsity.value);
      sparsity := Some(s);
    }
    TensorTypeInverse(dataType, t.tensorType);
    r := Success(TypeInfo(dataType, scale, zeroPoint, sparsity));
  }
}
