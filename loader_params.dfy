/** The parameter records the per-operation loaders build from an
    operator's options, before any graph is touched. Every function here is
    pure: it reads the operator, never the graph. */
module LoaderParams {
  import opened Wrappers
  import opened IR
  import opened Schema
  import opened Conversions

  // ---- loadStridesAndPaddings ---------------------------------------------

  /** Padding SAME and VALID map to themselves; any other value leaves the
      parameter's default, EXPLICIT. */
  function PaddingOf(p: Padding): (r: PaddingType)
    ensures r == SAME <==> p == PAD_SAME
    ensures r == VALID <==> p == PAD_VALID
  {
    if p == PAD_SAME then SAME else if p == PAD_VALID then VALID else EXPLICIT
  }

  // ---- options carrying a fused activation ----------------------------------

  function Conv2DParams(o: BuiltinOptions): (r: Result<OpKind, LoadError>)
    ensures !o.Conv2DOptions? ==> r == Failure(MissingOptions)
    ensures o.Conv2DOptions? && ConvertActivation(o.fusedActivation).Failure? ==> r == Failure(UnsupportedActivation)
    ensures r.Success? <==> o.Conv2DOptions? && ConvertActivation(o.fusedActivation).Success?
    ensures r.Success? ==> && r.value.Conv2D?
                           && (r.value.padding == SAME <==> o.padding == PAD_SAME)
                           && (r.value.padding == VALID <==> o.padding == PAD_VALID)
                           && ActivationToSchema(r.value.activation) == Some(o.fusedActivation)
                           && r.value.stride == Stride(o.strideH, o.strideW)
                           && r.value.dilation == Dilation(o.dilationWFactor, o.dilationHFactor)
  {
    match o
    case Conv2DOptions(pad, sw, sh, act, dw, dh) =>
      var a :- ConvertActivation(act);
      Success(Conv2D(a, Stride(sh, sw), PaddingOf(pad), Dilation(dw, dh)))
    case _ => Failure(MissingOptions)
  }

  function DepthwiseConv2DParams(o: BuiltinOptions): (r: Result<OpKind, LoadError>)
    ensures !o.DepthwiseConv2DOptions? ==> r == Failure(MissingOptions)
    ensures o.DepthwiseConv2DOptions? && ConvertActivation(o.fusedActivation).Failure? ==> r == Failure(UnsupportedActivation)
    ensures r.Success? <==> o.DepthwiseConv2DOptions? && ConvertActivation(o.fusedActivation).Success?
    ensures r.Success? ==> && r.value.DepthwiseConv2D?
                           && (r.value.padding == SAME <==> o.padding == PAD_SAME)
                           && (r.value.padding == VALID <==> o.padding == PAD_VALID)
                           && ActivationToSchema(r.value.activation) == Some(o.fusedActivation)
                           && r.value.stride == Stride(o.strideH, o.strideW)
                           && r.value.multiplier == o.depthMultiplier
  {
    match o
    case DepthwiseConv2DOptions(pad, sw, sh, m, act) =>
      var a :- ConvertActivation(act);
      Success(DepthwiseConv2D(a, Stride(sh, sw), PaddingOf(pad), m))
    case _ => Failure(MissingOptions)
  }

  function TransposeConvParams(o: BuiltinOptions): Result<OpKind, LoadError>
  {
    match o
    case TransposeConvOptions(pad, sw, sh) => Success(TransposeConv(Stride(sh, sw), PaddingOf(pad)))
    case _ => Failure(MissingOptions)
  }

  function Pool2DParams(t: PoolType, o: BuiltinOptions): (r: Result<OpKind, LoadError>)
    ensures !o.Pool2DOptions? ==> r == Failure(MissingOptions)
    ensures o.Pool2DOptions? && ConvertActivation(o.fusedActivation).Failure? ==> r == Failure(UnsupportedActivation)
    ensures r.Success? <==> o.Pool2DOptions? && ConvertActivation(o.fusedActivation).Success?
    ensures r.Success? ==> && r.value.Pool2D? && r.value.poolType == t
                           && (r.value.padding == SAME <==> o.padding == PAD_SAME)
                           && (r.value.padding == VALID <==> o.padding == PAD_VALID)
                           && ActivationToSchema(r.value.activation) == Some(o.fusedActivation)
                           && r.value.stride == Stride(o.strideH, o.strideW)
                           && r.value.kw == o.filterWidth && r.value.kh == o.filterHeight
  {
    match o
    case Pool2DOptions(pad, sw, sh, fw, fh, act) =>
      var a :- ConvertActivation(act);
      Success(Pool2D(t, Stride(sh, sw), PaddingOf(pad), fw, fh, a))
    case _ => Failure(MissingOptions)
  }

  function FullyConnectedParams(o: BuiltinOptions): (r: Result<OpKind, LoadError>)
    ensures !o.FullyConnectedOptions? ==> r == Failure(MissingOptions)
    ensures o.FullyConnectedOptions? && ConvertActivation(o.fusedActivation).Failure? ==> r == Failure(UnsupportedActivation)
    ensures r.Success? <==> o.FullyConnectedOptions? && ConvertActivation(o.fusedActivation).Success?
    ensures r.Success? ==> r.value.FullyConnected? && ActivationToSchema(r.value.activation) == Some(o.fusedActivation)
  {
    match o
    case FullyConnectedOptions(act) =>
      var a :- ConvertActivation(act);
      Success(FullyConnected(a))
    case _ => Failure(MissingOptions)
  }

  /** The options table loadBinaryArithmetic reads for each arithmetic
      type. */
  predicate ArithmeticOptionsMatch(t: ArithmeticType, o: BuiltinOptions)
  {
    match t
    case ADD => o.AddOptions?
    case SUB => o.SubOptions?
    case MUL => o.MulOptions?
    case DIV => o.DivOptions?
  }

  function BinaryArithmeticParams(t: ArithmeticType, o: BuiltinOptions): (r: Result<OpKind, LoadError>)
    ensures !ArithmeticOptionsMatch(t, o) ==> r == Failure(MissingOptions)
    ensures ArithmeticOptionsMatch(t, o) && ConvertActivation(o.fusedActivation).Failure? ==> r == Failure(UnsupportedActivation)
    ensures r.Success? <==> ArithmeticOptionsMatch(t, o) && ConvertActivation(o.fusedActivation).Success?
    ensures r.Success? ==> && r.value.BinaryArithmetic? && r.value.arithmeticType == t
                           && ActivationToSchema(r.value.activation) == Some(o.fusedActivation)
  {
    if !ArithmeticOptionsMatch(t, o) then Failure(MissingOptions)
    else
      var a :- ConvertActivation(o.fusedActivation);
      Success(BinaryArithmetic(t, a))
  }

  /** loadAddV2: an ADD whose activation comes from the custom options'
      "fused_activation_function" as an int8; no custom options means no
      activation. */
  function AddV2Params(custom: Option<CustomOptions>): (r: Result<OpKind, LoadError>)
    ensures custom.None? ==> r == Success(BinaryArithmetic(ArithmeticType.ADD, Activation.NONE))
    ensures r.Success? ==> r.value.BinaryArithmetic? && r.value.arithmeticType == ArithmeticType.ADD
    ensures custom.Some? ==>
              (r.Success? <==> 0 <= AsInt8(custom.value.Get("fused_activation_function")) <= 4)
    ensures custom.Some? && r.Success? ==>
              ActivationToSchema(r.value.activation)
                == Some(ActivationOfCode(AsInt8(custom.value.Get("fused_activation_function"))))
  {
    if custom.None? then Success(BinaryArithmetic(ArithmeticType.ADD, Activation.NONE))
    else
      var a :- ConvertActivation(ActivationOfCode(AsInt8(custom.value.Get("fused_activation_function"))));
      Success(BinaryArithmetic(ArithmeticType.ADD, a))
  }

  // ---- options without an activation ----------------------------------------

  /** loadReshape: absent options or an absent new_shape give an empty
      new shape; this is the one loader that tolerates missing options. */
  function ReshapeParams(o: BuiltinOptions): (r: OpKind)
    ensures r.Reshape?
    ensures o.ReshapeOptions? && o.newShape.Some? ==> r.newShape == o.newShape.value
    ensures !(o.ReshapeOptions? && o.newShape.Some?) ==> r.newShape == []
  {
    match o
    case ReshapeOptions(ns) => Reshape(if ns.Some? then ns.value else [])
    case _ => Reshape([])
  }

  function SoftmaxParams(o: BuiltinOptions): Result<OpKind, LoadError>
  {
    match o
    case SoftmaxOptions(beta) => Success(Softmax(beta))
    case _ => Failure(MissingOptions)
  }

  function ConcatenationParams(o: BuiltinOptions): Result<OpKind, LoadError>
  {
    match o
    case ConcatenationOptions(axis, _) => Success(Concat(axis))
    case _ => Failure(MissingOptions)
  }

  function PackParams(o: BuiltinOptions): Result<OpKind, LoadError>
  {
    match o
    case PackOptions(n, axis) => Success(Pack(n, axis))
    case _ => Failure(MissingOptions)
  }

  function ReduceParams(t: ReduceType, o: BuiltinOptions): Result<OpKind, LoadError>
  {
    match o
    case ReducerOptions(kd) => Success(Reduce(t, kd))
    case _ => Failure(MissingOptions)
  }

  /** loadReduceAll: keep_dims read as a boolean from the custom options,
      false when there are none. */
  function ReduceAllParams(custom: Option<CustomOptions>): (r: OpKind)
    ensures r.Reduce? && r.reduceType == R_ALL
    ensures custom.None? ==> !r.keepDims
    ensures custom.Some? ==> r.keepDims == AsBool(custom.value.Get("keep_dims"))
  {
    Reduce(R_ALL, if custom.None? then false else AsBool(custom.value.Get("keep_dims")))
  }

  function GatherParams(o: BuiltinOptions): Result<OpKind, LoadError>
  {
    match o
    case GatherOptions(axis) => Success(Gather(axis))
    case _ => Failure(MissingOptions)
  }

  /** The loaders that copy option fields fail exactly when the operator's
      options are not the table their opcode reads (a null options pointer
      in the serialized model), and then with MissingOptions. */
  lemma OptionTablesChecked(o: BuiltinOptions, t: ReduceType)
    ensures TransposeConvParams(o).Failure? <==> !o.TransposeConvOptions?
    ensures SoftmaxParams(o).Failure? <==> !o.SoftmaxOptions?
    ensures ConcatenationParams(o).Failure? <==> !o.ConcatenationOptions?
    ensures PackParams(o).Failure? <==> !o.PackOptions?
    ensures ReduceParams(t, o).Failure? <==> !o.ReducerOptions?
    ensures GatherParams(o).Failure? <==> !o.GatherOptions?
    ensures SplitVParams(o).Failure? <==> !o.SplitVOptions?
    ensures StridedSliceParams(o).Failure? <==> !o.StridedSliceOptions?
    ensures UnpackParams(o).Failure? <==> !o.UnpackOptions?
    ensures SpaceToDepthParams(o).Failure? <==> !o.SpaceToDepthOptions?
    ensures var all := [TransposeConvParams(o), SoftmaxParams(o), ConcatenationParams(o), PackParams(o),
                        ReduceParams(t, o), GatherParams(o), SplitVParams(o), StridedSliceParams(o),
                        UnpackParams(o), SpaceToDepthParams(o)];
            forall k :: 0 <= k < |all| && all[k].Failure? ==> all[k].error == MissingOptions
  {
  }

  /** Capacity of the fixed dims array of the Squeeze parameter. */
  const SqueezeCapacity: nat := 8

  /** loadSqueeze: the squeeze dimensions, refused when more than the
      parameter can hold; absent dimensions leave none. */
  function SqueezeParams(o: BuiltinOptions): (r: Result<OpKind, LoadError>)
    ensures !o.SqueezeOptions? ==> r == Failure(MissingOptions)
    ensures o.SqueezeOptions? ==>
              (r.Success? <==> o.squeezeDims.None? || |o.squeezeDims.value| <= SqueezeCapacity)
    ensures r.Failure? && o.SqueezeOptions? ==> r.error == SqueezeDimsOutOfRange
    ensures r.Success? ==> && r.value.Squeeze?
                           && r.value.ndim == |r.value.dims| <= SqueezeCapacity
                           && r.value.dims == (if o.squeezeDims.Some? then o.squeezeDims.value else [])
  {
    match o
    case SqueezeOptions(dims) =>
      if dims.None? then Success(Squeeze([], 0))
      else if |dims.value| > SqueezeCapacity then Failure(SqueezeDimsOutOfRange)
      else Success(Squeeze(dims.value, |dims.value|))
    case _ => Failure(MissingOptions)
  }

  function SplitVParams(o: BuiltinOptions): Result<OpKind, LoadError>
  {
    match o
    case SplitVOptions(n) => Success(SplitV(n))
    case _ => Failure(MissingOptions)
  }

  function StridedSliceParams(o: BuiltinOptions): Result<OpKind, LoadError>
  {
    match o
    case StridedSliceOptions(b, e, s) => Success(StridedSlice(b, e, s))
    case _ => Failure(MissingOptions)
  }

  function UnpackParams(o: BuiltinOptions): Result<OpKind, LoadError>
  {
    match o
    case UnpackOptions(n, axis) => Success(Unpack(n, axis))
    case _ => Failure(MissingOptions)
  }

  function SpaceToDepthParams(o: BuiltinOptions): Result<OpKind, LoadError>
  {
    match o
    case SpaceToDepthOptions(b) => Success(SpaceToDepth(b))
    case _ => Failure(MissingOptions)
  }

  function LeakyReluParams(o: BuiltinOptions): (r: Result<OpKind, LoadError>)
    ensures r.Success? <==> o.LeakyReluOptions?
    ensures r.Success? ==> r.value == ElementwiseActivation(ACT_LEAKY_RELU, o.alpha, OneF)
  {
    match o
    case LeakyReluOptions(alpha) => Success(ElementwiseActivation(ACT_LEAKY_RELU, alpha, OneF))
    case _ => Failure(MissingOptions)
  }

  // ---- loadComparison -------------------------------------------------------

  /** The six comparison opcodes and the comparison each one loads as. */
  function ComparisonOf(code: BuiltinOperator): Option<ComparisonType>
  {
    match code
    case EQUAL => Some(Equal)
    case NOT_EQUAL => Some(NotEqual)
    case GREATER_EQUAL => Some(GreaterEqual)
    case GREATER => Some(Greater)
    case LESS_EQUAL => Some(LessEqual)
    case LESS => Some(Less)
    case _ => None
  }

  function ComparisonParams(code: BuiltinOperator): (r: Result<OpKind, LoadError>)
    ensures r.Success? <==> code in {EQUAL, NOT_EQUAL, GREATER_EQUAL, GREATER, LESS_EQUAL, LESS}
    ensures r.Failure? ==> r.error == UnsupportedOperation(code)
    ensures code == EQUAL ==> r == Success(Comparison(Equal))
    ensures code == NOT_EQUAL ==> r == Success(Comparison(NotEqual))
    ensures code == GREATER_EQUAL ==> r == Success(Comparison(GreaterEqual))
    ensures code == GREATER ==> r == Success(Comparison(Greater))
    ensures code == LESS_EQUAL ==> r == Success(Comparison(LessEqual))
    ensures code == LESS ==> r == Success(Comparison(Less))
  {
    match ComparisonOf(code)
    case Some(c) => Success(Comparison(c))
    case None => Failure(UnsupportedOperation(code))
  }

  /** Distinct comparison opcodes load as distinct comparisons. */
  lemma ComparisonInjective(c1: BuiltinOperator, c2: BuiltinOperator)
    requires ComparisonParams(c1).Success? && ComparisonParams(c1) == ComparisonParams(c2)
    ensures c1 == c2
  {
  }

  // ---- loadOneHot -----------------------------------------------------------

  /** loadOneHot checks the arity of the serialized operator before
      anything else: four inputs and one output. */
  function OneHotParams(op: Operator): (r: Result<OpKind, LoadError>)
    ensures (|op.inputs| != 4 || |op.outputs| != 1) <==> r == Failure(OneHotArity)
    ensures r.Success? ==> r.value.OneHot?
    ensures |op.inputs| == 4 && |op.outputs| == 1 ==>
              r == (if op.builtinOptions.OneHotOptions? then Success(OneHot(op.builtinOptions.axis)) else Failure(MissingOptions))
  {
    if |op.inputs| != 4 || |op.outputs| != 1 then Failure(OneHotArity)
    else match op.builtinOptions
      case OneHotOptions(axis) => Success(OneHot(axis))
      case _ => Failure(MissingOptions)
  }

  // ---- loadIf / loadWhile ---------------------------------------------------

  /** A conversion to uint32, as the subgraph indices undergo. */
  function ToUint32(i: int): (r: nat)
    ensures r < 0x1_0000_0000
    ensures (i - r) % 0x1_0000_0000 == 0
  {
    i % 0x1_0000_0000
  }

  /** Subgraph indices in range are kept as they are. */
  lemma ToUint32Identity(i: int)
    requires 0 <= i < 0x1_0000_0000
    ensures ToUint32(i) == i
  {
  }

  function IfParams(o: BuiltinOptions): (r: Result<OpKind, LoadError>)
    ensures r.Success? <==> o.IfOptions?
    ensures r.Success? ==> r.value == If(ToUint32(o.thenSubgraphIndex), ToUint32(o.elseSubgraphIndex))
  {
    match o
    case IfOptions(t, e) => Success(If(ToUint32(t), ToUint32(e)))
    case _ => Failure(MissingOptions)
  }

  function WhileParams(o: BuiltinOptions): (r: Result<OpKind, LoadError>)
    ensures r.Success? <==> o.WhileOptions?
    ensures r.Success? ==> r.value == While(ToUint32(o.condSubgraphIndex), ToUint32(o.bodySubgraphIndex))
  {
    match o
    case WhileOptions(c, b) => Success(While(ToUint32(c), ToUint32(b)))
    case _ => Failure(MissingOptions)
  }

  // ---- loadBatchMatMul ------------------------------------------------------

  /** The builtin BATCH_MATMUL reads its adjoint flags from its options; the
      custom BatchMatMulV2 from "adj_x" and "adj_y", both false without
      custom options; any other opcode is refused. */
  function BatchMatMulParams(code: BuiltinOperator, op: Operator): (r: Result<OpKind, LoadError>)
    ensures code != BATCH_MATMUL && code != CUSTOM ==> r == Failure(WrongBatchMatMul(code))
    ensures code == CUSTOM ==> r.Success?
    ensures code == CUSTOM && op.customOptions.None? ==> r == Success(BatchMatMul(false, false))
    ensures code == BATCH_MATMUL ==> (r.Success? <==> op.builtinOptions.BatchMatMulOptions?)
    ensures code == BATCH_MATMUL && r.Success? ==>
              r.value == BatchMatMul(op.builtinOptions.adjointLhs, op.builtinOptions.adjointRhs)
    ensures code == CUSTOM && op.customOptions.Some? ==>
              r == Success(BatchMatMul(AsBool(op.customOptions.value.Get("adj_x")),
                                       AsBool(op.customOptions.value.Get("adj_y"))))
  {
    match code
    case BATCH_MATMUL =>
      (match op.builtinOptions
       case BatchMatMulOptions(l, r) => Success(BatchMatMul(l, r))
       case _ => Failure(MissingOptions))
    case CUSTOM =>
      if op.customOptions.None? then Success(BatchMatMul(false, false))
      else Success(BatchMatMul(AsBool(op.customOptions.value.Get("adj_x")),
                               AsBool(op.customOptions.value.Get("adj_y"))))
    case _ => Failure(WrongBatchMatMul(code))
  }

  // ---- loadEinsum / loadFusedBatchNorm --------------------------------------

  /** loadEinsum's parameter: the "equation" attribute; no custom options
      is an empty equation. */
  function EinsumParams(custom: Option<CustomOptions>): (r: Result<OpKind, LoadError>)
    ensures r.Failure? <==> custom.None?
    ensures r.Failure? ==> r.error == EinsumEmptyEquation
    ensures r.Success? ==> r.value == Einsum(AsString(custom.value.Get("equation")))
  {
    if custom.None? then Failure(EinsumEmptyEquation)
    else Success(Einsum(AsString(custom.value.Get("equation"))))
  }

  function FusedBatchNormParams(custom: Option<CustomOptions>): (r: Result<OpKind, LoadError>)
    ensures r.Failure? <==> custom.None?
    ensures r.Failure? ==> r.error == FusedBatchNormEmptyOption
    ensures r.Success? ==>
              r.value == FusedBatchNorm(AsBool(custom.value.Get("is_training")),
                                        AsFloat(custom.value.Get("epsilon")),
                                        AsString(custom.value.Get("data_format")))
  {
    if custom.None? then Failure(FusedBatchNormEmptyOption)
    else
      var c := custom.value;
      Success(FusedBatchNorm(AsBool(c.Get("is_training")), AsFloat(c.Get("epsilon")),
                             AsString(c.Get("data_format"))))
  }

  // ---- loadArgMax -----------------------------------------------------------

  /** ArgMax's output type must be int32 or int64. */
  function ArgMaxDataType(o: BuiltinOptions): (r: Result<DataType, LoadError>)
    ensures !o.ArgMaxOptions? ==> r == Failure(MissingOptions)
    ensures o.ArgMaxOptions? ==> (r.Success? <==> o.outputType in {TT_INT32, TT_INT64})
    ensures r.Success? ==> r.value in {INT32, INT64} && DataTypeToTensorType(r.value) == Some(o.outputType)
  {
    match o
    case ArgMaxOptions(t) =>
      if t == TT_INT32 || t == TT_INT64 then TensorTypeToDataType(t) else Failure(ArgMaxOutputType)
    case _ => Failure(MissingOptions)
  }

  /** The axis check as written: an operand of four bytes whose type is
      int32 or int64. */
  predicate ArgMaxAxisAcceptedAsWritten(axis: Operand)
  {
    axis.OperandSize() == 4 && axis.typeInfo.dataType in {INT32, INT64}
  }

  /** The axis check the error message describes: one element, of type
      int32 or int64. */
  predicate ArgMaxAxisAccepted(axis: Operand)
  {
    NumElements(axis.shape) == 1 && axis.typeInfo.dataType in {INT32, INT64}
  }

  /** As written, no int64 axis passes, whatever its shape. */
  lemma {:induction false} ArgMaxInt64AxisAlwaysRejected(axis: Operand)
    requires axis.typeInfo.dataType == INT64
    ensures !ArgMaxAxisAcceptedAsWritten(axis)
  {
    var n := NumElements(axis.shape);
    assert axis.OperandSize() == n * 8;
    if n <= 0 { assert n * 8 <= 0; } else { assert n * 8 >= 8; }
  }

  /** For int32 axes the check as written and the corrected one agree. */
  lemma {:induction false} ArgMaxInt32AxisAgrees(axis: Operand)
    requires axis.typeInfo.dataType == INT32
    ensures ArgMaxAxisAcceptedAsWritten(axis) <==> ArgMaxAxisAccepted(axis)
  {
    var n := NumElements(axis.shape);
    assert axis.OperandSize() == n * 4;
    if n <= 0 { assert n * 4 <= 0; } else if n >= 2 { assert n * 4 >= 8; }
  }

  /** A single int64 axis: accepted by the corrected check, refused as
      written. */
  lemma ArgMaxInt64ScalarAxis()
    ensures var axis := Operand([1], TypeInfo(INT64, ZeroF, 0, None), None);
            ArgMaxAxisAccepted(axis) && !ArgMaxAxisAcceptedAsWritten(axis)
  {
    var axis := Operand([1], TypeInfo(INT64, ZeroF, 0, None), None);
    assert NumElements([1]) == 1 * NumElements([]);
    ArgMaxInt64AxisAlwaysRejected(axis);
  }

  // ---- loadCustom's name table ----------------------------------------------

  /** The custom operations loadCustom maps onto builtin IR operations. */
  datatype CustomBuiltin =
    | CustomAddV2 | CustomReduceAll | CustomMatrixBandPart | CustomBatchMatMul | CustomEinsum
    | CustomBroadcastTo | CustomFusedBatchNorm | CustomStatelessRandomUniform | CustomErf

  /** The custom code under which each of them is recognised. */
  function CustomNameOf(b: CustomBuiltin): string
  {
    match b
    case CustomAddV2 => "AddV2"
    case CustomReduceAll => "All"
    case CustomMatrixBandPart => "MatrixBandPart"
    case CustomBatchMatMul => "BatchMatMulV2"
    case CustomEinsum => "Einsum"
    case CustomBroadcastTo => "BroadcastTo"
    case CustomFusedBatchNorm => "FusedBatchNormV3"
    case CustomStatelessRandomUniform => "StatelessRandomUniform"
    case CustomErf => "Erf"
  }

  function CustomBuiltinOf(name: string): (r: Option<CustomBuiltin>)
    ensures r.Some? ==> CustomNameOf(r.value) == name
  {
    if name == "AddV2" then Some(CustomAddV2)
    else if name == "All" then Some(CustomReduceAll)
    else if name == "MatrixBandPart" then Some(CustomMatrixBandPart)
    else if name == "BatchMatMulV2" then Some(CustomBatchMatMul)
    else if name == "Einsum" then Some(CustomEinsum)
    else if name == "BroadcastTo" then Some(CustomBroadcastTo)
    else if name == "FusedBatchNormV3" then Some(CustomFusedBatchNorm)
    else if name == "StatelessRandomUniform" then Some(CustomStatelessRandomUniform)
    else if name == "Erf" then Some(CustomErf)
    else None
  }

  /** The name table is a bijection: every recognised name is found, and
      only those. */
  lemma CustomNameTableInverse(b: CustomBuiltin, name: string)
    ensures CustomBuiltinOf(CustomNameOf(b)) == Some(b)
    ensures CustomBuiltinOf(name) == Some(b) <==> name == CustomNameOf(b)
  {
  }

  /** The operation a recognised custom handler adds, or why it refuses:
      every handler builds its parameter from the custom options and adds
      one builtin operation; Einsum needs two inputs and FusedBatchNormV3
      five, checked before anything is added. */
  function KnownCustomParams(b: CustomBuiltin, code: BuiltinOperator, op: Operator): (r: Result<OpKind, LoadError>)
    ensures r.Success? ==> !r.value.Custom?
    ensures b == CustomEinsum ==> (r.Success? <==> op.customOptions.Some? && |op.inputs| == 2)
    ensures b == CustomEinsum && r.Success? ==> r.value == Einsum(AsString(op.customOptions.value.Get("equation")))
    ensures b == CustomFusedBatchNorm ==> (r.Success? <==> op.customOptions.Some? && |op.inputs| == 5)
    ensures b == CustomFusedBatchNorm && r.Success? ==> r.value.FusedBatchNorm? && Success(r.value) == FusedBatchNormParams(op.customOptions)
    ensures b == CustomAddV2 && r.Success? ==> r.value.BinaryArithmetic? && r.value.arithmeticType == ArithmeticType.ADD
    ensures b == CustomAddV2 ==> r == AddV2Params(op.customOptions)
    ensures b == CustomReduceAll ==> r.Success? && r.value.Reduce? && r.value.reduceType == R_ALL
    ensures b == CustomReduceAll ==> r == Success(ReduceAllParams(op.customOptions))
    ensures b == CustomBatchMatMul ==> (r.Success? <==> code == CUSTOM || (code == BATCH_MATMUL && op.builtinOptions.BatchMatMulOptions?))
    ensures b == CustomBatchMatMul ==> r == BatchMatMulParams(code, op)
    ensures b == CustomMatrixBandPart ==> r == Success(Plain(MatrixBandPart))
    ensures b == CustomBroadcastTo ==> r == Success(Plain(BroadcastTo))
    ensures b == CustomStatelessRandomUniform ==> r == Success(Plain(StatelessRandomUniform))
    ensures b == CustomErf ==> r == Success(ElementwiseUnary(U_ERF))
  {
    match b
    case CustomAddV2 => AddV2Params(op.customOptions)
    case CustomReduceAll => Success(ReduceAllParams(op.customOptions))
    case CustomMatrixBandPart => Success(Plain(MatrixBandPart))
    case CustomBatchMatMul => BatchMatMulParams(code, op)
    case CustomEinsum =>
      var p :- EinsumParams(op.customOptions);
      if |op.inputs| != 2 then Failure(EinsumInputCount) else Success(p)
    case CustomBroadcastTo => Success(Plain(BroadcastTo))
    case CustomFusedBatchNorm =>
      var p :- FusedBatchNormParams(op.customOptions);
      if |op.inputs| != 5 then Failure(FusedBatchNormInputCount) else Success(p)
    case CustomStatelessRandomUniform => Success(Plain(StatelessRandomUniform))
    case CustomErf => Success(ElementwiseUnary(U_ERF))
  }

  // ---- loadOperation's dispatch table ---------------------------------------

  /** The opcodes loadOperation dispatches; anything else is unsupported. */
  predicate Dispatched(code: BuiltinOperator)
  {
    !code.OTHER_BUILTIN? && code !in {FLOOR_DIV, LSTM, EMBEDDING_LOOKUP, DEPTH_TO_SPACE, FLOOR}
  }

  /** The opcodes loaded as an elementwise unary operation, and their
      unary type. */
  function UnaryTypeOf(code: BuiltinOperator): (r: Option<UnaryType>)
    ensures r.Some? ==> Dispatched(code)
  {
    match code
    case RSQRT => Some(U_RSQRT)
    case SQRT => Some(U_SQRT)
    case EXP => Some(U_EXP)
    case CAST => Some(U_CAST)
    case ABS => Some(U_ABS)
    case COS => Some(U_COS)
    case SIN => Some(U_SIN)
    case NEG => Some(U_NEG)
    case LOG => Some(U_LOG)
    case ROUND => Some(U_ROUND)
    case LOGICAL_NOT => Some(U_LOGICAL_NOT)
    case ZEROS_LIKE => Some(U_ZEROS_LIKE)
    case QUANTIZE => Some(U_QUANTIZE)
    case _ => None
  }

  /** The opcodes loaded by building a parameter and handing it to
      loadOperationTo, with that parameter (or why it cannot be built). */
  function GenericParams(code: BuiltinOperator, op: Operator): (r: Option<Result<OpKind, LoadError>>)
    ensures r.Some? ==> Dispatched(code)
    ensures r.Some? ==> UnaryTypeOf(code).None?
  {
    var configured := ConfiguredParams(code, op);
    if configured.Some? then configured else FixedParams(code)
  }

  /** The generic operations whose parameters come from their options or
      operands. */
  function ConfiguredParams(code: BuiltinOperator, op: Operator): (r: Option<Result<OpKind, LoadError>>)
    ensures r.Some? ==> Dispatched(code)
  {
    var o := op.builtinOptions;
    match code
    case RESHAPE => Some(Success(ReshapeParams(o)))
    case CONV_2D => Some(Conv2DParams(o))
    case AVERAGE_POOL_2D => Some(Pool2DParams(AVG, o))
    case DEPTHWISE_CONV_2D => Some(DepthwiseConv2DParams(o))
    case TRANSPOSE_CONV => Some(TransposeConvParams(o))
    case SOFTMAX => Some(SoftmaxParams(o))
    case MAX_POOL_2D => Some(Pool2DParams(MAX, o))
    case CONCATENATION => Some(ConcatenationParams(o))
    case ADD => Some(BinaryArithmeticParams(ArithmeticType.ADD, o))
    case SUB => Some(BinaryArithmeticParams(ArithmeticType.SUB, o))
    case MUL => Some(BinaryArithmeticParams(ArithmeticType.MUL, o))
    case DIV => Some(BinaryArithmeticParams(ArithmeticType.DIV, o))
    case PACK => Some(PackParams(o))
    case MEAN => Some(ReduceParams(R_MEAN, o))
    case REDUCE_ANY => Some(ReduceParams(R_ANY, o))
    case REDUCE_MAX => Some(ReduceParams(R_MAX, o))
    case GATHER => Some(GatherParams(o))
    case SUM => Some(ReduceParams(R_SUM, o))
    case SQUEEZE => Some(SqueezeParams(o))
    case SPLIT_V => Some(SplitVParams(o))
    case STRIDED_SLICE => Some(StridedSliceParams(o))
    case UNPACK => Some(UnpackParams(o))
    case EQUAL => Some(ComparisonParams(code))
    case NOT_EQUAL => Some(ComparisonParams(code))
    case GREATER_EQUAL => Some(ComparisonParams(code))
    case GREATER => Some(ComparisonParams(code))
    case LESS_EQUAL => Some(ComparisonParams(code))
    case LESS => Some(ComparisonParams(code))
    case ONE_HOT => Some(OneHotParams(op))
    case REDUCE_PROD => Some(ReduceParams(R_PROD, o))
    case IF => Some(IfParams(o))
    case WHILE => Some(WhileParams(o))
    case BATCH_MATMUL => Some(BatchMatMulParams(code, op))
    case SPACE_TO_DEPTH => Some(SpaceToDepthParams(o))
    case LEAKY_RELU => Some(LeakyReluParams(o))
    case _ => None
  }

  /** The generic operations whose parameters are fixed by the opcode. */
  function FixedParams(code: BuiltinOperator): (r: Option<Result<OpKind, LoadError>>)
    ensures r.Some? ==> Dispatched(code) && r.value.Success?
  {
    match code
    case RELU => Some(Success(ElementwiseActivation(ACT_RELU, InfinityF, ZeroF)))
    case RELU_N1_TO_1 => Some(Success(ElementwiseActivation(ACT_RELU, OneF, MinusOneF)))
    case RELU6 => Some(Success(ElementwiseActivation(ACT_RELU, SixF, ZeroF)))
    case SELECT => Some(Success(Plain(Select)))
    case SELECT_V2 => Some(Success(Plain(Select)))
    case SQUARED_DIFFERENCE => Some(Success(Plain(SquaredDifference)))
    case TANH => Some(Success(ElementwiseActivation(ACT_TANH, OneF, OneF)))
    case REVERSE_V2 => Some(Success(Plain(Reverse)))
    case PAD => Some(Success(Plain(Pad)))
    case PADV2 => Some(Success(Plain(Pad)))
    case LOGISTIC => Some(Success(ElementwiseActivation(ACT_LOGISTIC, ZeroF, ZeroF)))
    case EXPAND_DIMS => Some(Success(Plain(ExpandDims)))
    case SPACE_TO_BATCH_ND => Some(Success(Plain(SpaceToBatchND)))
    case BATCH_TO_SPACE_ND => Some(Success(Plain(BatchToSpaceND)))
    case PRELU => Some(Success(Plain(PReLU)))
    case SLICE => Some(Success(Plain(Slice)))
    case MINIMUM => Some(Success(ElementwiseBinary(B_MIN)))
    case MAXIMUM => Some(Success(ElementwiseBinary(B_MAX)))
    case SHAPE => Some(Success(Plain(ShapeOf)))
    case POW => Some(Success(Plain(Pow)))
    case LOGICAL_OR => Some(Success(ElementwiseBinary(B_LOGICAL_OR)))
    case FILL => Some(Success(Plain(Fill)))
    case RANGE => Some(Success(Plain(Range)))
    case LOG_SOFTMAX => Some(Success(LogSoftmax(OneF, -1)))
    case L2_NORMALIZATION => Some(Success(Plain(L2Normalization)))
    case RANK => Some(Success(Plain(Rank)))
    case _ => None
  }
}
