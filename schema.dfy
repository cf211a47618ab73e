/** The serialized model, as the flatbuffer schema describes it, once the
    schema verifier has accepted it. Enumerations carry an extra constructor
    for a numeric value outside the schema, since the verifier does not
    check enum ranges. */
module Schema {
  import opened Wrappers
  import opened IR

  datatype TensorType =
    | TT_FLOAT32 | TT_FLOAT16 | TT_INT32 | TT_UINT8 | TT_INT64 | TT_STRING | TT_BOOL
    | TT_INT16 | TT_COMPLEX64 | TT_INT8 | TT_FLOAT64 | TT_OTHER(code: int)

  datatype ActivationFunctionType =
    | AF_NONE | AF_RELU | AF_RELU_N1_TO_1 | AF_RELU6 | AF_TANH | AF_SIGN_BIT | AF_OTHER(code: int)

  /** The value an int8 takes when cast to ActivationFunctionType. */
  function ActivationOfCode(c: int): ActivationFunctionType
  {
    match c
    case 0 => AF_NONE
    case 1 => AF_RELU
    case 2 => AF_RELU_N1_TO_1
    case 3 => AF_RELU6
    case 4 => AF_TANH
    case 5 => AF_SIGN_BIT
    case _ => AF_OTHER(c)
  }

  datatype Padding = PAD_SAME | PAD_VALID | PAD_OTHER(code: int)

  datatype DimensionType = DENSE | SPARSE_CSR

  datatype SparseIndexVectorType = SIV_NONE | SIV_Int32Vector | SIV_Uint16Vector | SIV_Uint8Vector

  /** An index vector table; its `values` vector may be absent. */
  datatype SparseIndexVector = SparseIndexVector(values: Option<seq<int>>)

  datatype DimensionMetadata = DimensionMetadata(
    format: DimensionType,
    segmentsType: SparseIndexVectorType, segments: Option<SparseIndexVector>,
    indicesType: SparseIndexVectorType, indices: Option<SparseIndexVector>)

  datatype SparsityParameters = SparsityParameters(dimMetadata: seq<DimensionMetadata>)

  datatype QuantizationParameters = QuantizationParameters(
    scale: Option<seq<Float>>, zeroPoint: Option<seq<int>>, hasCustomDetails: bool)

  datatype Tensor = Tensor(
    shape: Option<seq<int>>, tensorType: TensorType, buffer: nat, name: string,
    quantization: Option<QuantizationParameters>, isVariable: bool,
    sparsity: Option<SparsityParameters>)

  /** A buffer's data vector: its bytes and where they start in the model
      image (the distance from the image's base address). */
  datatype BufferData = BufferData(offset: nat, bytes: seq<byte>)

  datatype Buffer = Buffer(data: Option<BufferData>)

  datatype BuiltinOperator =
    | ADD | AVERAGE_POOL_2D | CONCATENATION | CONV_2D | DEPTHWISE_CONV_2D | FULLY_CONNECTED
    | L2_NORMALIZATION | LOGISTIC | MAX_POOL_2D | MUL | RELU | RELU_N1_TO_1 | RELU6 | RESHAPE
    | RESIZE_BILINEAR | SOFTMAX | TANH | PAD | GATHER | BATCH_TO_SPACE_ND | SPACE_TO_BATCH_ND
    | TRANSPOSE | MEAN | SUB | DIV | SQUEEZE | STRIDED_SLICE | EXP | SPLIT | CAST | PRELU
    | MAXIMUM | ARG_MAX | MINIMUM | LESS | NEG | PADV2 | GREATER | GREATER_EQUAL | LESS_EQUAL
    | SELECT | SLICE | SIN | TRANSPOSE_CONV | EXPAND_DIMS | EQUAL | NOT_EQUAL | LOG | SUM | SQRT
    | RSQRT | SHAPE | POW | REDUCE_PROD | REDUCE_MAX | PACK | LOGICAL_OR | ONE_HOT | UNPACK
    | LOGICAL_NOT | FLOOR_DIV | SQUARED_DIFFERENCE | REDUCE_ANY | ABS | SPLIT_V | COS | FILL
    | ZEROS_LIKE | TILE | RESIZE_NEAREST_NEIGHBOR | LEAKY_RELU | RANGE | SELECT_V2 | IF | WHILE
    | BATCH_MATMUL | LOG_SOFTMAX | QUANTIZE | SPACE_TO_DEPTH | ROUND | RANK | CUSTOM
    | REVERSE_V2 | LSTM | EMBEDDING_LOOKUP | DEPTH_TO_SPACE | FLOOR | OTHER_BUILTIN(code: int)

  datatype OperatorCode = OperatorCode(builtinCode: BuiltinOperator, customCode: string)

  /** One value of a decoded custom-options attribute map. */
  datatype FlexValue = FlexNull | FlexBool(b: bool) | FlexInt(i: int) | FlexFloat(f: Float)
                     | FlexString(s: string)

  /** Custom options: the raw bytes, and the attribute map the flexible
      binary decoder (a foreign library) reads out of them. */
  datatype CustomOptions = CustomOptions(bytes: seq<byte>, attrs: map<string, FlexValue>)
  {
    /** attr_map[key]: a key that is not there reads as the null value. */
    function Get(key: string): FlexValue { if key in attrs then attrs[key] else FlexNull }
  }

  /** AsBool of a decoded value: integers are true when non-zero, null and
      anything else is false. */
  function AsBool(v: FlexValue): bool
  {
    match v
    case FlexBool(b) => b
    case FlexInt(i) => i != 0
    case _ => false
  }

  /** Wraps an integer to int8 the way a static_cast does. */
  function ToInt8(i: int): (r: int)
    ensures -128 <= r < 128
    ensures (r - i) % 256 == 0
  {
    (i + 128) % 256 - 128
  }

  function AsInt8(v: FlexValue): int
  {
    match v
    case FlexInt(i) => ToInt8(i)
    case FlexBool(b) => if b then 1 else 0
    case _ => 0
  }

  function AsFloat(v: FlexValue): Float
  {
    match v
    case FlexFloat(f) => f
    case _ => ZeroF
  }

  /** ToString of a decoded value: a string yields its text, null yields
      "null"; other kinds are not modelled and yield "". */
  function AsString(v: FlexValue): string
  {
    match v
    case FlexString(s) => s
    case FlexNull => "null"
    case _ => ""
  }

  /** The builtin-options union of an operator, one constructor per options
      table the loader reads. */
  datatype BuiltinOptions =
    | NoOptions
    | Conv2DOptions(padding: Padding, strideW: int, strideH: int,
                    fusedActivation: ActivationFunctionType, dilationWFactor: int, dilationHFactor: int)
    | DepthwiseConv2DOptions(padding: Padding, strideW: int, strideH: int, depthMultiplier: int,
                             fusedActivation: ActivationFunctionType)
    | TransposeConvOptions(padding: Padding, strideW: int, strideH: int)
    | Pool2DOptions(padding: Padding, strideW: int, strideH: int, filterWidth: int,
                    filterHeight: int, fusedActivation: ActivationFunctionType)
    | ReshapeOptions(newShape: Option<seq<int>>)
    | SoftmaxOptions(beta: Float)
    | ConcatenationOptions(axis: int, fusedActivation: ActivationFunctionType)
    | FullyConnectedOptions(fusedActivation: ActivationFunctionType)
    | AddOptions(fusedActivation: ActivationFunctionType)
    | SubOptions(fusedActivation: ActivationFunctionType)
    | MulOptions(fusedActivation: ActivationFunctionType)
    | DivOptions(fusedActivation: ActivationFunctionType)
    | PackOptions(valuesCount: int, axis: int)
    | ResizeBilinearOptions(alignCorners: bool, halfPixelCenters: bool)
    | ResizeNearestNeighborOptions(alignCorners: bool)
    | ReducerOptions(keepDims: bool)
    | GatherOptions(axis: int)
    | SqueezeOptions(squeezeDims: Option<seq<int>>)
    | SplitOptions(numSplits: int)
    | SplitVOptions(numSplits: int)
    | StridedSliceOptions(beginMask: int, endMask: int, shrinkAxisMask: int)
    | UnpackOptions(num: int, axis: int)
    | OneHotOptions(axis: int)
    | IfOptions(thenSubgraphIndex: int, elseSubgraphIndex: int)
    | WhileOptions(condSubgraphIndex: int, bodySubgraphIndex: int)
    | ArgMaxOptions(outputType: TensorType)
    | BatchMatMulOptions(adjointLhs: bool, adjointRhs: bool)
    | SpaceToDepthOptions(blockSize: int)
    | LeakyReluOptions(alpha: Float)
    | OtherOptions

  datatype Operator = Operator(
    opcodeIndex: nat, inputs: seq<int>, outputs: seq<int>,
    builtinOptions: BuiltinOptions, customOptions: Option<CustomOptions>)

  datatype SubGraph = SubGraph(tensors: seq<Tensor>, inputs: seq<int>, outputs: seq<int>,
                               operators: seq<Operator>)

  datatype Model = Model(operatorCodes: seq<OperatorCode>, subgraphs: seq<SubGraph>,
                         buffers: seq<Buffer>)

  /** A tensor index list entry the loader may look up: -1 (optional) or a
      tensor of the subgraph. The loader indexes its tables unchecked. */
  predicate TensorRefOk(i: int, nTensors: nat)
  {
    i == -1 || 0 <= i < nTensors
  }

  predicate OperatorRefsOk(op: Operator, nTensors: nat, nCodes: nat)
  {
    && op.opcodeIndex < nCodes
    && (forall k :: 0 <= k < |op.inputs| ==> TensorRefOk(op.inputs[k], nTensors))
    && (forall k :: 0 <= k < |op.outputs| ==> TensorRefOk(op.outputs[k], nTensors))
  }

  predicate SubGraphRefsOk(sg: SubGraph, nCodes: nat, nBuffers: nat)
  {
    && (forall k :: 0 <= k < |sg.tensors| ==> sg.tensors[k].buffer < nBuffers)
    && (forall k :: 0 <= k < |sg.operators| ==> OperatorRefsOk(sg.operators[k], |sg.tensors|, nCodes))
    && (forall k :: 0 <= k < |sg.inputs| ==> TensorRefOk(sg.inputs[k], |sg.tensors|))
    && (forall k :: 0 <= k < |sg.outputs| ==> TensorRefOk(sg.outputs[k], |sg.tensors|))
  }

  /** Every cross reference of the model lands inside its table. */
  predicate ModelRefsOk(m: Model)
  {
    forall k :: 0 <= k < |m.subgraphs| ==> SubGraphRefsOk(m.subgraphs[k], |m.operatorCodes|, |m.buffers|)
  }
}
