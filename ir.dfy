/** The loader's target: the intermediate representation of one subgraph.
    Operands and operations live in append-only sequences and are named by
    their position (OperandIndex / operation index). */
module IR {
  import opened Wrappers

  type byte = b: int | 0 <= b < 256

  /** A 32-bit float carried as its raw IEEE-754 bits; nothing numeric is
      claimed about it. */
  datatype Float = Float(bits: bv32)

  const ZeroF := Float(0x0000_0000)
  const OneF := Float(0x3F80_0000)
  const MinusOneF := Float(0xBF80_0000)
  const SixF := Float(0x40C0_0000)
  /** ElementwiseActivation::infinity, the upper bound of a plain RELU. */
  const InfinityF := Float(0x7F80_0000)

  datatype DataType =
    | FLOAT32 | INT32 | UINT32 | QUANT_UINT8_ASYMM | BOOL8 | UINT8
    | QUANT_INT8_SYMM | FLOAT16 | INT64

  /** Element width in bytes (sizeOfDataType). */
  function SizeOfDataType(t: DataType): (n: nat)
    ensures 1 <= n <= 8
  {
    match t
    case FLOAT32 => 4
    case INT32 => 4
    case UINT32 => 4
    case QUANT_UINT8_ASYMM => 1
    case BOOL8 => 1
    case UINT8 => 1
    case QUANT_INT8_SYMM => 1
    case FLOAT16 => 2
    case INT64 => 8
  }

  datatype Activation = NONE | RELU | RELU1 | RELU6 | TANH | SIGMOID

  datatype PaddingType = EXPLICIT | SAME | VALID

  /** An operand index; Undefined is the default-constructed index that
      stands for an absent optional input. */
  datatype OperandIndex = Undefined | Index(n: nat)

  type Shape = seq<int>

  /** Number of elements of a shape: the product of its dimensions
      (1 for a scalar). */
  function NumElements(s: Shape): int
  {
    if s == [] then 1 else s[0] * NumElements(s[1..])
  }

  /** Byte size of a tensor of shape s and element type t (total_size). */
  function TotalSize(s: Shape, t: DataType): int
  {
    NumElements(s) * SizeOfDataType(t)
  }

  /** 2-D sparsity: CSR segments and indices, each element a uint16. */
  datatype Sparse2D = Sparse2D(segments: seq<int>, indices: seq<int>)

  datatype TypeInfo = TypeInfo(dataType: DataType, scale: Float, zeroPoint: int,
                               sparsity: Option<Sparse2D>)

  /** Constant data of an operand: a view into memory the loader does not
      own (ExternalData, at a byte offset of the model buffer), or a copy the
      operand owns (CachedData). */
  datatype OperandData =
    | ExternalData(offset: nat, bytes: seq<byte>)
    | CachedData(bytes: seq<byte>)
  {
    function Bytes(): seq<byte> { match this case ExternalData(_, b) => b case CachedData(b) => b }
  }

  datatype Operand = Operand(shape: Shape, typeInfo: TypeInfo, data: Option<OperandData>) {
    predicate IsConstant() { data.Some? }
    /** operandSize(): the operand's byte size. */
    function OperandSize(): int { TotalSize(shape, typeInfo.dataType) }
  }

  // ---- typed parameter records -------------------------------------------

  datatype Stride = Stride(vertical: int, horizontal: int)
  datatype Dilation = Dilation(widthFactor: int, heightFactor: int)

  datatype PoolType = AVG | MAX
  datatype ArithmeticType = ADD | SUB | MUL | DIV
  datatype ActivationType = ACT_RELU | ACT_TANH | ACT_LOGISTIC | ACT_LEAKY_RELU
  datatype ReduceType = R_MEAN | R_ANY | R_MAX | R_SUM | R_PROD | R_ALL
  datatype BinaryType = B_MIN | B_MAX | B_LOGICAL_OR
  datatype UnaryType =
    | U_RSQRT | U_SQRT | U_EXP | U_CAST | U_ABS | U_COS | U_SIN | U_NEG | U_LOG
    | U_ROUND | U_LOGICAL_NOT | U_ZEROS_LIKE | U_QUANTIZE | U_ERF
  datatype ComparisonType = Equal | NotEqual | GreaterEqual | Greater | LessEqual | Less

  /** Operations whose construction takes no parameter record. */
  datatype PlainOp =
    | Select | SquaredDifference | Reverse | Pad | ExpandDims | SpaceToBatchND
    | BatchToSpaceND | PReLU | Slice | ShapeOf | Pow | Fill | Range | L2Normalization
    | Rank | MatrixBandPart | BroadcastTo | StatelessRandomUniform

  /** One tag per operation kind, with its parameter payload. */
  datatype OpKind =
    | Conv2D(activation: Activation, stride: Stride, padding: PaddingType, dilation: Dilation)
    | DepthwiseConv2D(activation: Activation, stride: Stride, padding: PaddingType, multiplier: int)
    | TransposeConv(stride: Stride, padding: PaddingType)
    | Pool2D(poolType: PoolType, stride: Stride, padding: PaddingType, kw: int, kh: int,
             activation: Activation)
    | Reshape(newShape: seq<int>)
    | Softmax(beta: Float)
    | Concat(axis: int)
    | FullyConnected(activation: Activation)
    | BinaryArithmetic(arithmeticType: ArithmeticType, activation: Activation)
    | Pack(num: int, axis: int)
    | ElementwiseActivation(actType: ActivationType, alpha: Float, beta: Float)
    | ResizeBilinear(heightOut: int, widthOut: int, alignCorners: bool, halfPixelCenters: bool)
    | ResizeNearestNeighbor(heightOut: int, widthOut: int, alignCorners: bool)
    | ElementwiseUnary(unaryType: UnaryType)
    | Transpose(perm: seq<int>)
    | Reduce(reduceType: ReduceType, keepDims: bool)
    | ElementwiseBinary(binaryType: BinaryType)
    | Gather(axis: int)
    | Squeeze(dims: seq<int>, ndim: nat)
    | Split(axis: int, numSplits: int)
    | SplitV(numSplits: int)
    | StridedSlice(beginMask: int, endMask: int, shrinkAxisMask: int)
    | Unpack(num: int, axis: int)
    | Comparison(comparisonType: ComparisonType)
    | OneHot(axis: int)
    | If(thenSubgIndex: nat, elseSubgIndex: nat)
    | While(condSubgIndex: nat, bodySubgIndex: nat)
    | ArgMax(outputType: DataType)
    | Tile
    | BatchMatMul(adjX: bool, adjY: bool)
    | LogSoftmax(beta: Float, axis: int)
    | SpaceToDepth(blockSize: int)
    | Einsum(equation: string)
    | FusedBatchNorm(isTraining: bool, epsilon: Float, dataFormat: string)
    | Plain(op: PlainOp)
    /** A generic custom operation: exactly `exactInputs` inputs, its name,
        and the raw option bytes as opaque user data. */
    | Custom(exactInputs: nat, name: string, userdata: seq<byte>)

  datatype Operation = Operation(kind: OpKind, inputs: seq<OperandIndex>, outputs: seq<OperandIndex>)

  /** operands().at(ind) on an operand table: nothing for the undefined
      index or an index past the end. */
  function OperandIn(operands: seq<Operand>, ind: OperandIndex): (r: Option<Operand>)
    ensures r.Some? <==> ind.Index? && ind.n < |operands|
    ensures r.Some? ==> r.value == operands[ind.n]
  {
    if ind.Index? && ind.n < |operands| then Some(operands[ind.n]) else None
  }

  /** One subgraph under construction. The loader only appends operands and
      operations; besides that it sets an operand's constant value once and
      retypes an operand in two places. */
  class Graph {
    var operands: seq<Operand>
    var operations: seq<Operation>
    var inputs: seq<OperandIndex>
    var outputs: seq<OperandIndex>

    constructor ()
      ensures operands == [] && operations == [] && inputs == [] && outputs == []
    {
      operands, operations, inputs, outputs := [], [], [], [];
    }

    /** operands().at(ind) on this subgraph's operands. */
    function OperandAt(ind: OperandIndex): Option<Operand>
      reads this
    {
      OperandIn(operands, ind)
    }

    method AddOperand(shape: Shape, info: TypeInfo) returns (ind: OperandIndex)
      modifies this
      ensures ind == Index(|old(operands)|)
      ensures operands == old(operands) + [Operand(shape, info, None)]
      ensures operations == old(operations) && inputs == old(inputs) && outputs == old(outputs)
    {
      ind := Index(|operands|);
      operands := operands + [Operand(shape, info, None)];
    }

    method SetOperandValue(ind: nat, data: OperandData)
      requires ind < |operands|
      modifies this
      ensures operands == old(operands)[ind := old(operands)[ind].(data := Some(data))]
      ensures operations == old(operations) && inputs == old(inputs) && outputs == old(outputs)
    {
      operands := operands[ind := operands[ind].(data := Some(data))];
    }

    /** Operand::type(t): changes only the element type of one operand. */
    method SetOperandType(ind: nat, t: DataType)
      requires ind < |operands|
      modifies this
      ensures operands == old(operands)[ind := old(operands)[ind].(typeInfo := old(operands)[ind].typeInfo.(dataType := t))]
      ensures operations == old(operations) && inputs == old(inputs) && outputs == old(outputs)
    {
      operands := operands[ind := operands[ind].(typeInfo := operands[ind].typeInfo.(dataType := t))];
    }

    method AddOperation(op: Operation) returns (ind: nat)
      modifies this
      ensures ind == |old(operations)|
      ensures operations == old(operations) + [op]
      ensures operands == old(operands) && inputs == old(inputs) && outputs == old(outputs)
    {
      ind := |operations|;
      operations := operations + [op];
    }

    method SetInputsOutputs(ins: seq<OperandIndex>, outs: seq<OperandIndex>)
      modifies this
      ensures inputs == ins && outputs == outs
      ensures operands == old(operands) && operations == old(operations)
    {
      inputs, outputs := ins, outs;
    }
  }
}
