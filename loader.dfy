/** The loader proper: one object per load, holding the decoded model, the
    tensor-to-operand table of the subgraph being loaded, the operand
    names, the byte ranges of the model image given back to the OS, and the
    resulting subgraphs. */
module Loader {
  import opened Wrappers
  import opened IR
  import opened Schema
  import opened Conversions
  import opened OperandChecks
  import opened LoaderParams

  type PageSize = n: nat | n > 0 witness 1

  /** The operand lists of one operator, after index translation. */
  datatype IOIndices = IOIndices(inputs: seq<OperandIndex>, outputs: seq<OperandIndex>)

  /** loadOperationIO: translate the input and output tensor indices; an
      optional input (-1) is refused unless the opcode allows one. */
  method LoadOperationIO(t2o: seq<OperandIndex>, allowOptional: bool, code: BuiltinOperator,
                         inputs: seq<int>, outputs: seq<int>) returns (r: Result<IOIndices, LoadError>)
    requires forall k :: 0 <= k < |inputs| ==> TensorRefOk(inputs[k], |t2o|)
    requires forall k :: 0 <= k < |outputs| ==> TensorRefOk(outputs[k], |t2o|)
    ensures r.Failure? <==> !allowOptional && -1 in inputs
    ensures r.Failure? ==> r.error == OptionalInputNotAllowed(code)
    ensures r.Success? ==> r.value == IOIndices(TensorIdxsToOperandIdxs(t2o, inputs),
                                                TensorIdxsToOperandIdxs(t2o, outputs))
  {
    var ins: seq<OperandIndex> := [];
    var i := 0;
    while i < |inputs|
      invariant 0 <= i <= |inputs|
      invariant allowOptional || -1 !in inputs[..i]
      invariant |ins| == i
      invariant forall k :: 0 <= k < i ==> ins[k] == TensorIdxToOperandIdx(t2o, inputs[k])
    {
      if inputs[i] == -1 && !allowOptional {
        return Failure(OptionalInputNotAllowed(code));
      }
      ins := ins + [TensorIdxToOperandIdx(t2o, inputs[i])];
      i := i + 1;
    }
    assert inputs[..i] == inputs;
    var outs: seq<OperandIndex> := [];
    var j := 0;
    while j < |outputs|
      invariant 0 <= j <= |outputs|
      invariant |outs| == j
      invariant forall k :: 0 <= k < j ==> outs[k] == TensorIdxToOperandIdx(t2o, outputs[k])
    {
      outs := outs + [TensorIdxToOperandIdx(t2o, outputs[j])];
      j := j + 1;
    }
    r := Success(IOIndices(ins, outs));
  }

  /** Copies a list of dimensions one at a time. */
  method CopyDims(dims: seq<int>) returns (shape: Shape)
    ensures shape == dims
  {
    shape := [];
    var i := 0;
    while i < |dims|
      invariant 0 <= i <= |dims|
      invariant shape == dims[..i]
    {
      shape := shape + [dims[i]];
      i := i + 1;
    }
  }

  /** `after` is `before` with at most the element types changed. */
  predicate RetypedOnly(before: seq<Operand>, after: seq<Operand>)
  {
    && |after| == |before|
    && forall i :: 0 <= i < |before| ==>
         after[i] == before[i].(typeInfo := before[i].typeInfo.(dataType := after[i].typeInfo.dataType))
  }

  lemma RetypedOnlyTrans(a: seq<Operand>, b: seq<Operand>, c: seq<Operand>)
    requires RetypedOnly(a, b) && RetypedOnly(b, c)
    ensures RetypedOnly(a, c)
  {
  }

  /** Retype to `to` the operand at `ind` when its type is `from`. */
  function RetypeIf(ops: seq<Operand>, ind: nat, from: DataType, to: DataType): (r: seq<Operand>)
    requires ind < |ops|
    ensures RetypedOnly(ops, r)
    ensures r[ind].typeInfo.dataType == (if ops[ind].typeInfo.dataType == from then to else ops[ind].typeInfo.dataType)
    ensures forall i :: 0 <= i < |ops| && i != ind ==> r[i] == ops[i]
  {
    if ops[ind].typeInfo.dataType == from
    then ops[ind := ops[ind].(typeInfo := ops[ind].typeInfo.(dataType := to))]
    else ops
  }

  lemma RetypedOnlyRefl(a: seq<Operand>)
    ensures RetypedOnly(a, a)
  {
    forall i | 0 <= i < |a|
      ensures a[i] == a[i].(typeInfo := a[i].typeInfo.(dataType := a[i].typeInfo.dataType))
    {
    }
  }

  /** Tensor i is operand i. */
  function IdentityTable(n: nat): (r: seq<OperandIndex>)
    ensures |r| == n
    ensures forall k :: 0 <= k < n ==> r[k] == Index(k)
  {
    seq(n, k requires 0 <= k < n => Index(k))
  }

  /** What loading one operator yields when it succeeds: the operation
      appended and the operand table afterwards. */
  datatype Loaded = Loaded(operation: Operation, operands: seq<Operand>)

  /** A subgraph's operations and operands once all its operators are
      loaded. */
  datatype Body = Body(operations: seq<Operation>, operands: seq<Operand>)

  /** A loader call meets its expected outcome: it succeeds exactly when an
      outcome is expected, and then it has appended that operation and left
      that operand table. */
  predicate LoadsAs(ok: bool, expected: Option<Loaded>, opsBefore: seq<Operation>,
                    opsAfter: seq<Operation>, operandsAfter: seq<Operand>)
  {
    && (ok <==> expected.Some?)
    && (ok ==> opsAfter == opsBefore + [expected.value.operation] && operandsAfter == expected.value.operands)
  }

  class BaseLoader {
    const model: Model
    /** Whether the model image was mapped from a file, rather than handed
        over as a buffer the caller owns. */
    const fromFile: bool
    const pageSize: PageSize
    /** The opcodes for which an optional input (-1) is allowed. */
    const allowOptional: set<BuiltinOperator>
    var tensorToOperand: seq<OperandIndex>
    var tensorNames: map<OperandIndex, string>
    /** The page-aligned ranges of the model image given back to the OS,
        in the order they were released. */
    var released: seq<ByteRange>
    var subgraphs: map<nat, Graph>

    constructor (model: Model, fromFile: bool, pageSize: PageSize, allowOptional: set<BuiltinOperator>)
      ensures this.model == model && this.fromFile == fromFile && this.pageSize == pageSize
      ensures this.allowOptional == allowOptional
      ensures tensorToOperand == [] && tensorNames == map[] && released == [] && subgraphs == map[]
    {
      this.model := model;
      this.fromFile := fromFile;
      this.pageSize := pageSize;
      this.allowOptional := allowOptional;
      tensorToOperand := [];
      tensorNames := map[];
      released := [];
      subgraphs := map[];
    }

    // ---- serialized references --------------------------------------------

    predicate RefsOk(op: Operator)
      reads this
    {
      OperatorRefsOk(op, |tensorToOperand|, |model.operatorCodes|)
    }

    function CodeOf(op: Operator): BuiltinOperator
      requires op.opcodeIndex < |model.operatorCodes|
    {
      model.operatorCodes[op.opcodeIndex].builtinCode
    }

    /** The operand lists of an operator under a tensor-to-operand table. */
    function InsOf(op: Operator, t2o: seq<OperandIndex>): seq<OperandIndex>
      requires OperatorRefsOk(op, |t2o|, |model.operatorCodes|)
    {
      TensorIdxsToOperandIdxs(t2o, op.inputs)
    }

    function OutsOf(op: Operator, t2o: seq<OperandIndex>): seq<OperandIndex>
      requires OperatorRefsOk(op, |t2o|, |model.operatorCodes|)
    {
      TensorIdxsToOperandIdxs(t2o, op.outputs)
    }

    function Ins(op: Operator): seq<OperandIndex>
      reads this
      requires RefsOk(op)
    {
      InsOf(op, tensorToOperand)
    }

    function Outs(op: Operator): seq<OperandIndex>
      reads this
      requires RefsOk(op)
    {
      OutsOf(op, tensorToOperand)
    }

    /** The operator has an optional input its opcode does not allow. */
    predicate IORejected(op: Operator)
      requires op.opcodeIndex < |model.operatorCodes|
    {
      CodeOf(op) !in allowOptional && -1 in op.inputs
    }

    /** The operation of the given kind over the operator's own operand
        lists, with the operand table as it was. */
    function Appended(op: Operator, t2o: seq<OperandIndex>, kind: OpKind, operands: seq<Operand>): Loaded
      requires OperatorRefsOk(op, |t2o|, |model.operatorCodes|)
    {
      Loaded(Operation(kind, InsOf(op, t2o), OutsOf(op, t2o)), operands)
    }

    /** The ranges deallocateMmappedArea releases for a tensor's buffer:
        only for a mapped file, and only whole pages. */
    function ReleasedFor(t: Tensor): seq<ByteRange>
      requires t.buffer < |model.buffers|
    {
      var d := model.buffers[t.buffer].data;
      if fromFile && d.Some? then
        match ReleaseRange(d.value.offset, |d.value.bytes|, pageSize)
        case Some(rg) => [rg]
        case None => []
      else []
    }

    /** The operand an accepted tensor becomes: its shape, its type
        information, and its buffer's data, if any, as a view of the
        caller's buffer or as a copy of the mapped file. */
    function TensorOperand(t: Tensor): (r: Operand)
      requires !TypeInfoRejected(t) && t.buffer < |model.buffers|
      ensures DescribesTypeInfo(r.typeInfo, t)
      ensures r.IsConstant() <==> model.buffers[t.buffer].data.Some?
      ensures r.IsConstant() ==> && r.data.value.Bytes() == model.buffers[t.buffer].data.value.bytes
                                 && (r.data.value.ExternalData? <==> !fromFile)
    {
      var data := model.buffers[t.buffer].data;
      Operand(OperandChecks.ShapeOf(t), TypeInfoOf(t),
              if data.None? then None
              else if fromFile then Some(CachedData(data.value.bytes))
              else Some(ExternalData(data.value.offset, data.value.bytes)))
    }

    // ---- loadOperand ------------------------------------------------------

    /** What loading operands never undoes, measured from earlier tables:
        released ranges are only appended to, and only for a mapped file,
        and a recorded name is never replaced. */
    predicate ExtendsTables(released0: seq<ByteRange>, names0: map<OperandIndex, string>)
      reads this
    {
      && released0 <= released
      && (!fromFile ==> released == released0)
      && (forall k :: k in names0 ==> k in tensorNames && tensorNames[k] == names0[k])
    }

    /** loadOperand: one operand appended per accepted tensor, constant
        exactly when its buffer has data, the data a view into the caller's
        buffer or a copy of the mapped file (whose whole pages are then
        released), and its name recorded. A variable tensor is refused only
        after its operand has been appended. */
    method LoadOperand(tensor: Tensor, subg: Graph) returns (r: Result<OperandIndex, LoadError>)
      requires tensor.buffer < |model.buffers|
      modifies this, subg
      ensures tensorToOperand == old(tensorToOperand) && subgraphs == old(subgraphs)
      ensures subg.operations == old(subg.operations)
      ensures subg.inputs == old(subg.inputs) && subg.outputs == old(subg.outputs)
      ensures r.Failure? <==> OperandRejected(tensor)
      ensures ExtendsTables(old(released), old(tensorNames))
      ensures TypeInfoRejected(tensor) ==> subg.operands == old(subg.operands)
                                           && released == old(released) && tensorNames == old(tensorNames)
      ensures !TypeInfoRejected(tensor) ==> subg.operands == old(subg.operands) + [TensorOperand(tensor)]
      ensures r.Failure? && !TypeInfoRejected(tensor) ==>
                r.error == VariableTensor && |subg.operands| == |old(subg.operands)| + 1
      ensures r.Success? ==>
                var n := |old(subg.operands)|;
                var data := model.buffers[tensor.buffer].data;
                && r.value == Index(n)
                && |subg.operands| == n + 1
                && subg.operands[..n] == old(subg.operands)
                && DescribesTensor(subg.operands[n], tensor)
                && (subg.operands[n].IsConstant() <==> data.Some?)
                && (data.Some? ==> && subg.operands[n].data.value.Bytes() == data.value.bytes
                                   && (subg.operands[n].data.value.ExternalData? <==> !fromFile)
                                   && (!fromFile ==> subg.operands[n].data.value.offset == data.value.offset))
                && released == old(released) + ReleasedFor(tensor)
                && tensorNames == (if r.value in old(tensorNames) then old(tensorNames)
                                   else old(tensorNames)[r.value := tensor.name])
    {
      var shape: Shape := [];
      if tensor.shape.Some? {
        shape := CopyDims(tensor.shape.value);
      }
      var info :- LoadTypeInfo(tensor);
      var ind := subg.AddOperand(shape, info);
      var data := model.buffers[tensor.buffer].data;
      if data.Some? {
        if !fromFile {
          subg.SetOperandValue(ind.n, ExternalData(data.value.offset, data.value.bytes));
        } else {
          subg.SetOperandValue(ind.n, CachedData(data.value.bytes));
          var rg := ReleaseRange(data.value.offset, |data.value.bytes|, pageSize);
          if rg.Some? {
            released := released + [rg.value];
          }
        }
      }
      if ind !in tensorNames {
        tensorNames := tensorNames[ind := tensor.name];
      }
      if tensor.isVariable {
        return Failure(VariableTensor);
      }
      r := Success(ind);
    }

    // ---- loadOperationTo and the loaders built on it ------------------------

    /** loadOperationTo: translate the operand lists and append one
        operation of the given kind. */
    method LoadOperationTo(op: Operator, subg: Graph, kind: OpKind) returns (r: Result<nat, LoadError>)
      requires RefsOk(op)
      modifies subg
      ensures subg.operands == old(subg.operands)
      ensures subg.inputs == old(subg.inputs) && subg.outputs == old(subg.outputs)
      ensures r.Failure? <==> IORejected(op)
      ensures r.Failure? ==> r.error == OptionalInputNotAllowed(CodeOf(op))
                             && subg.operations == old(subg.operations)
      ensures r.Success? ==> && r.value == |old(subg.operations)|
                             && subg.operations == old(subg.operations) + [Operation(kind, Ins(op), Outs(op))]
    {
      var io :- LoadOperationIO(tensorToOperand, CodeOf(op) in allowOptional, CodeOf(op), op.inputs, op.outputs);
      var ind := subg.AddOperation(Operation(kind, io.inputs, io.outputs));
      r := Success(ind);
    }

    /** The outcome of a loader that builds its parameter first and then
        calls loadOperationTo: none when the parameter or the operand lists
        are refused. */
    function ExpectedWith(op: Operator, t2o: seq<OperandIndex>, operands: seq<Operand>,
                          params: Result<OpKind, LoadError>): Option<Loaded>
      requires OperatorRefsOk(op, |t2o|, |model.operatorCodes|)
    {
      if params.Failure? || IORejected(op) then None else Some(Appended(op, t2o, params.value, operands))
    }

    /** A loader that builds its parameter first and then calls
        loadOperationTo. */
    method LoadWith(op: Operator, subg: Graph, params: Result<OpKind, LoadError>) returns (r: Result<nat, LoadError>)
      requires RefsOk(op)
      modifies subg
      ensures subg.operands == old(subg.operands)
      ensures subg.inputs == old(subg.inputs) && subg.outputs == old(subg.outputs)
      ensures params.Failure? ==> r == Failure(params.error)
      ensures r.Failure? ==> subg.operations == old(subg.operations)
      ensures IORejected(op) ==> r.Failure?
      ensures r.Success? ==> subg.operations == old(subg.operations) + [Operation(params.value, Ins(op), Outs(op))]
      ensures LoadsAs(r.Success?, ExpectedWith(op, tensorToOperand, old(subg.operands), params),
                      old(subg.operations), subg.operations, subg.operands)
    {
      if params.Failure? {
        return Failure(params.error);
      }
      r := LoadOperationTo(op, subg, params.value);
    }

    /** What loadFC yields: the fully connected operation, which needs an
        input and a weights operand; weights that are uint8 asymmetric
        under a float input become int8 symmetric. */
    function ExpectedFC(op: Operator, t2o: seq<OperandIndex>, operands: seq<Operand>): Option<Loaded>
      requires OperatorRefsOk(op, |t2o|, |model.operatorCodes|)
    {
      var p := FullyConnectedParams(op.builtinOptions);
      var ins := InsOf(op, t2o);
      if p.Failure? || IORejected(op) || |ins| < 2 then None
      else
        var input := OperandIn(operands, ins[0]);
        var weights := OperandIn(operands, ins[1]);
        if input.None? || weights.None? then None
        else
          var after := if input.value.typeInfo.dataType == FLOAT32
                       then RetypeIf(operands, ins[1].n, QUANT_UINT8_ASYMM, QUANT_INT8_SYMM)
                       else operands;
          Some(Loaded(Operation(p.value, ins, OutsOf(op, t2o)), after))
    }

    /** loadFC: a fully connected operation; with float input and uint8
        asymmetric weights the weights are retyped to int8 symmetric. */
    method LoadFC(op: Operator, subg: Graph) returns (r: Result<nat, LoadError>)
      requires RefsOk(op)
      modifies subg
      ensures subg.inputs == old(subg.inputs) && subg.outputs == old(subg.outputs)
      ensures RetypedOnly(old(subg.operands), subg.operands)
      ensures IORejected(op) ==> r.Failure?
      ensures r.Success? ==>
                && |op.inputs| >= 2
                && FullyConnectedParams(op.builtinOptions).Success?
                && subg.operations == old(subg.operations) + [Operation(FullyConnectedParams(op.builtinOptions).value, Ins(op), Outs(op))]
                && var input, weights := Ins(op)[0], Ins(op)[1];
                   && input.Index? && input.n < |subg.operands|
                   && weights.Index? && weights.n < |subg.operands|
                   && subg.operands == RetypeIf(old(subg.operands), weights.n, QUANT_UINT8_ASYMM,
                        if old(subg.operands)[input.n].typeInfo.dataType == FLOAT32 then QUANT_INT8_SYMM else QUANT_UINT8_ASYMM)
      ensures LoadsAs(r.Success?, ExpectedFC(op, tensorToOperand, old(subg.operands)),
                      old(subg.operations), subg.operations, subg.operands)
    {
      var p := FullyConnectedParams(op.builtinOptions);
      var ind :- LoadWith(op, subg, p);
      var ins := Ins(op);
      if |ins| < 2 {
        return Failure(MissingInputOrOutput);
      }
      var input := subg.OperandAt(ins[0]);
      if input.None? {
        return Failure(UndefinedOperand);
      }
      var weights := subg.OperandAt(ins[1]);
      if weights.None? {
        return Failure(UndefinedOperand);
      }
      if input.value.typeInfo.dataType == FLOAT32 && weights.value.typeInfo.dataType == QUANT_UINT8_ASYMM {
        subg.SetOperandType(ins[1].n, QUANT_INT8_SYMM);
      }
      r := Success(ind);
    }

    /** What loadElementwiseUnary yields: the unary operation; for CAST the
        input and then the output, which must exist, are retyped from uint8
        asymmetric to plain uint8. */
    function ExpectedUnary(op: Operator, t2o: seq<OperandIndex>, operands: seq<Operand>, t: UnaryType): Option<Loaded>
      requires OperatorRefsOk(op, |t2o|, |model.operatorCodes|)
    {
      if IORejected(op) then None
      else if t != U_CAST then Some(Appended(op, t2o, ElementwiseUnary(t), operands))
      else
        var ins, outs := InsOf(op, t2o), OutsOf(op, t2o);
        if |ins| < 1 || OperandIn(operands, ins[0]).None? then None
        else
          var afterInput := RetypeIf(operands, ins[0].n, QUANT_UINT8_ASYMM, UINT8);
          if |outs| < 1 || OperandIn(afterInput, outs[0]).None? then None
          else Some(Loaded(Operation(ElementwiseUnary(t), ins, outs),
                           RetypeIf(afterInput, outs[0].n, QUANT_UINT8_ASYMM, UINT8)))
    }

    /** loadElementwiseUnary: for CAST, a uint8 asymmetric input and then
        output are retyped to plain uint8; other unary kinds touch no
        operand. */
    method LoadElementwiseUnary(op: Operator, subg: Graph, t: UnaryType) returns (r: Result<nat, LoadError>)
      requires RefsOk(op)
      modifies subg
      ensures subg.inputs == old(subg.inputs) && subg.outputs == old(subg.outputs)
      ensures RetypedOnly(old(subg.operands), subg.operands)
      ensures t != U_CAST ==> subg.operands == old(subg.operands)
      ensures IORejected(op) ==> r.Failure?
      ensures t != U_CAST ==> (r.Failure? <==> IORejected(op))
      ensures t != U_CAST && r.Failure? ==> subg.operations == old(subg.operations)
      ensures r.Success? ==> subg.operations == old(subg.operations) + [Operation(ElementwiseUnary(t), Ins(op), Outs(op))]
      ensures r.Success? && t == U_CAST ==>
                && |op.inputs| >= 1 && |op.outputs| >= 1
                && Ins(op)[0].Index? && Ins(op)[0].n < |subg.operands|
                && Outs(op)[0].Index? && Outs(op)[0].n < |subg.operands|
                && var afterInput := RetypeIf(old(subg.operands), Ins(op)[0].n, QUANT_UINT8_ASYMM, UINT8);
                   subg.operands == RetypeIf(afterInput, Outs(op)[0].n, QUANT_UINT8_ASYMM, UINT8)
      ensures LoadsAs(r.Success?, ExpectedUnary(op, tensorToOperand, old(subg.operands), t),
                      old(subg.operations), subg.operations, subg.operands)
    {
      var ind :- LoadOperationTo(op, subg, ElementwiseUnary(t));
      if t == U_CAST {
        var ins, outs := Ins(op), Outs(op);
        if |ins| < 1 {
          return Failure(MissingInputOrOutput);
        }
        var input := subg.OperandAt(ins[0]);
        if input.None? {
          return Failure(UndefinedOperand);
        }
        ghost var before := subg.operands;
        if input.value.typeInfo.dataType == QUANT_UINT8_ASYMM {
          subg.SetOperandType(ins[0].n, UINT8);
        }
        assert subg.operands == RetypeIf(before, ins[0].n, QUANT_UINT8_ASYMM, UINT8);
        if |outs| < 1 {
          return Failure(MissingInputOrOutput);
        }
        var output := subg.OperandAt(outs[0]);
        if output.None? {
          return Failure(UndefinedOperand);
        }
        ghost var middle := subg.operands;
        if output.value.typeInfo.dataType == QUANT_UINT8_ASYMM {
          subg.SetOperandType(outs[0].n, UINT8);
        }
        assert subg.operands == RetypeIf(middle, outs[0].n, QUANT_UINT8_ASYMM, UINT8);
        RetypedOnlyTrans(before, middle, subg.operands);
      }
      r := Success(ind);
    }

    /** What loadArgMax yields: the ArgMax operation, when the output type
        is int32 or int64 and the axis input exists and holds one int32 or
        int64 element. */
    function ExpectedArgMax(op: Operator, t2o: seq<OperandIndex>, operands: seq<Operand>): Option<Loaded>
      requires OperatorRefsOk(op, |t2o|, |model.operatorCodes|)
    {
      var dt := ArgMaxDataType(op.builtinOptions);
      var ins := InsOf(op, t2o);
      if dt.Failure? || IORejected(op) || |ins| < 2 then None
      else match OperandIn(operands, ins[1])
        case None => None
        case Some(axis) => if ArgMaxAxisAccepted(axis) then Some(Appended(op, t2o, ArgMax(dt.value), operands)) else None
    }

    /** loadArgMax: the output type must be int32 or int64, and after the
        operation is added its axis operand must hold one int32 or int64
        element. */
    method LoadArgMax(op: Operator, subg: Graph) returns (r: Result<nat, LoadError>)
      requires RefsOk(op)
      modifies subg
      ensures subg.operands == old(subg.operands)
      ensures subg.inputs == old(subg.inputs) && subg.outputs == old(subg.outputs)
      ensures IORejected(op) ==> r.Failure?
      ensures ArgMaxDataType(op.builtinOptions).Failure? ==> r == Failure(ArgMaxDataType(op.builtinOptions).error)
      ensures ArgMaxDataType(op.builtinOptions).Failure? || IORejected(op) ==> subg.operations == old(subg.operations)
      ensures ArgMaxDataType(op.builtinOptions).Success? && !IORejected(op) ==>
                subg.operations == old(subg.operations) + [Operation(ArgMax(ArgMaxDataType(op.builtinOptions).value), Ins(op), Outs(op))]
      ensures LoadsAs(r.Success?, ExpectedArgMax(op, tensorToOperand, old(subg.operands)),
                      old(subg.operations), subg.operations, subg.operands)
      ensures r.Success? ==>
                && subg.operations == old(subg.operations) + [Operation(ArgMax(ArgMaxDataType(op.builtinOptions).value), Ins(op), Outs(op))]
                && |op.inputs| >= 2
                && subg.OperandAt(Ins(op)[1]).Some?
                && ArgMaxAxisAccepted(subg.OperandAt(Ins(op)[1]).value)
      ensures (&& ArgMaxDataType(op.builtinOptions).Success? && !IORejected(op) && |op.inputs| >= 2
               && subg.OperandAt(Ins(op)[1]).Some?) ==>
                (r.Success? <==> ArgMaxAxisAccepted(subg.OperandAt(Ins(op)[1]).value))
    {
      var outputType :- ArgMaxDataType(op.builtinOptions);
      var ind :- LoadOperationTo(op, subg, ArgMax(outputType));
      var ins := Ins(op);
      if |ins| < 2 {
        return Failure(MissingInputOrOutput);
      }
      var axis := subg.OperandAt(ins[1]);
      if axis.None? {
        return Failure(UndefinedOperand);
      }
      if !ArgMaxAxisAccepted(axis.value) {
        return Failure(ArgMaxAxis);
      }
      r := Success(ind);
    }

    // ---- loaders that read a constant input ---------------------------------

    /** The constant operand that input k of the operator names, or why
        there is none: the list is too short, or the index names no
        operand. Non-constant operands are returned too; the caller
        refuses them with its own error. */
    function InputOperand(subg: Graph, io: IOIndices, k: nat): (r: Result<Operand, LoadError>)
      reads subg
      ensures k >= |io.inputs| ==> r == Failure(MissingInputOrOutput)
      ensures k < |io.inputs| ==> r == (match subg.OperandAt(io.inputs[k])
                                        case Some(o) => Success(o)
                                        case None => Failure(UndefinedOperand))
    {
      if k >= |io.inputs| then Failure(MissingInputOrOutput)
      else match subg.OperandAt(io.inputs[k])
        case Some(o) => Success(o)
        case None => Failure(UndefinedOperand)
    }

    /** The int32 values held by a constant operand. */
    function ConstValues(o: Operand): seq<int>
      requires o.IsConstant()
    {
      AsInt32Vector(o.data.value.Bytes())
    }

    /** What loadResizeBilinear yields: the data input only, and the output
        size from the first two int32 values of the constant second input. */
    function ExpectedResizeBilinear(op: Operator, t2o: seq<OperandIndex>, operands: seq<Operand>): Option<Loaded>
      requires OperatorRefsOk(op, |t2o|, |model.operatorCodes|)
    {
      var ins := InsOf(op, t2o);
      if IORejected(op) || |ins| < 2 then None
      else match OperandIn(operands, ins[1])
        case None => None
        case Some(size) =>
          if !size.IsConstant() || |ConstValues(size)| < 2 || !op.builtinOptions.ResizeBilinearOptions? then None
          else
            var o := op.builtinOptions;
            var kind := ResizeBilinear(ConstValues(size)[0], ConstValues(size)[1], o.alignCorners, o.halfPixelCenters);
            Some(Loaded(Operation(kind, [ins[0]], OutsOf(op, t2o)), operands))
    }

    /** loadResizeBilinear: only the data input is kept; the output size
        comes from the constant second input, which must be present. */
    method LoadResizeBilinear(op: Operator, subg: Graph) returns (r: Result<nat, LoadError>)
      requires RefsOk(op)
      modifies subg
      ensures subg.operands == old(subg.operands)
      ensures subg.inputs == old(subg.inputs) && subg.outputs == old(subg.outputs)
      ensures r.Failure? ==> subg.operations == old(subg.operations)
      ensures IORejected(op) ==> r.Failure?
      ensures (&& !IORejected(op) && |op.inputs| >= 2 && subg.OperandAt(Ins(op)[1]).Some?
               && !subg.OperandAt(Ins(op)[1]).value.IsConstant()) ==> r == Failure(NonConstantSize)
      ensures r.Success? ==>
                && |op.inputs| >= 2 && op.builtinOptions.ResizeBilinearOptions?
                && subg.OperandAt(Ins(op)[1]).Some?
                && var size := subg.OperandAt(Ins(op)[1]).value;
                   && size.IsConstant()
                   && |ConstValues(size)| >= 2
                   && subg.operations == old(subg.operations) +
                        [Operation(ResizeBilinear(ConstValues(size)[0], ConstValues(size)[1],
                                                  op.builtinOptions.alignCorners,
                                                  op.builtinOptions.halfPixelCenters),
                                   [Ins(op)[0]], Outs(op))]
      ensures LoadsAs(r.Success?, ExpectedResizeBilinear(op, tensorToOperand, old(subg.operands)),
                      old(subg.operations), subg.operations, subg.operands)
    {
      var io :- LoadOperationIO(tensorToOperand, CodeOf(op) in allowOptional, CodeOf(op), op.inputs, op.outputs);
      var size :- InputOperand(subg, io, 1);
      if !size.IsConstant() {
        return Failure(NonConstantSize);
      }
      var sizeValues := ConstValues(size);
      if |sizeValues| < 2 {
        return Failure(ConstantTooShort);
      }
      if !op.builtinOptions.ResizeBilinearOptions? {
        return Failure(MissingOptions);
      }
      var o := op.builtinOptions;
      var ind := subg.AddOperation(Operation(ResizeBilinear(sizeValues[0], sizeValues[1], o.alignCorners, o.halfPixelCenters),
                                             [io.inputs[0]], io.outputs));
      r := Success(ind);
    }

    /** What loadResizeNearestNeighbor yields: as for ResizeBilinear,
        without the half-pixel flag. */
    function ExpectedResizeNN(op: Operator, t2o: seq<OperandIndex>, operands: seq<Operand>): Option<Loaded>
      requires OperatorRefsOk(op, |t2o|, |model.operatorCodes|)
    {
      var ins := InsOf(op, t2o);
      if IORejected(op) || |ins| < 2 then None
      else match OperandIn(operands, ins[1])
        case None => None
        case Some(size) =>
          if !size.IsConstant() || |ConstValues(size)| < 2 || !op.builtinOptions.ResizeNearestNeighborOptions? then None
          else
            var kind := ResizeNearestNeighbor(ConstValues(size)[0], ConstValues(size)[1], op.builtinOptions.alignCorners);
            Some(Loaded(Operation(kind, [ins[0]], OutsOf(op, t2o)), operands))
    }

    /** loadResizeNearestNeighbor: as loadResizeBilinear, without the
        half-pixel flag. */
    method LoadResizeNearestNeighbor(op: Operator, subg: Graph) returns (r: Result<nat, LoadError>)
      requires RefsOk(op)
      modifies subg
      ensures subg.operands == old(subg.operands)
      ensures subg.inputs == old(subg.inputs) && subg.outputs == old(subg.outputs)
      ensures r.Failure? ==> subg.operations == old(subg.operations)
      ensures IORejected(op) ==> r.Failure?
      ensures (&& !IORejected(op) && |op.inputs| >= 2 && subg.OperandAt(Ins(op)[1]).Some?
               && !subg.OperandAt(Ins(op)[1]).value.IsConstant()) ==> r == Failure(NonConstantSize)
      ensures r.Success? ==>
                && |op.inputs| >= 2 && op.builtinOptions.ResizeNearestNeighborOptions?
                && subg.OperandAt(Ins(op)[1]).Some?
                && var size := subg.OperandAt(Ins(op)[1]).value;
                   && size.IsConstant()
                   && |ConstValues(size)| >= 2
                   && subg.operations == old(subg.operations) +
                        [Operation(ResizeNearestNeighbor(ConstValues(size)[0], ConstValues(size)[1],
                                                         op.builtinOptions.alignCorners),
                                   [Ins(op)[0]], Outs(op))]
      ensures LoadsAs(r.Success?, ExpectedResizeNN(op, tensorToOperand, old(subg.operands)),
                      old(subg.operations), subg.operations, subg.operands)
    {
      var io :- LoadOperationIO(tensorToOperand, CodeOf(op) in allowOptional, CodeOf(op), op.inputs, op.outputs);
      var size :- InputOperand(subg, io, 1);
      if !size.IsConstant() {
        return Failure(NonConstantSize);
      }
      var sizeValues := ConstValues(size);
      if |sizeValues| < 2 {
        return Failure(ConstantTooShort);
      }
      if !op.builtinOptions.ResizeNearestNeighborOptions? {
        return Failure(MissingOptions);
      }
      var ind := subg.AddOperation(Operation(ResizeNearestNeighbor(sizeValues[0], sizeValues[1], op.builtinOptions.alignCorners),
                                             [io.inputs[0]], io.outputs));
      r := Success(ind);
    }

    /** What loadTranspose yields: the data input only, and every int32
        value of the constant second input as the permutation. */
    function ExpectedTranspose(op: Operator, t2o: seq<OperandIndex>, operands: seq<Operand>): Option<Loaded>
      requires OperatorRefsOk(op, |t2o|, |model.operatorCodes|)
    {
      var ins := InsOf(op, t2o);
      if IORejected(op) || |ins| < 2 then None
      else match OperandIn(operands, ins[1])
        case None => None
        case Some(perm) =>
          if !perm.IsConstant() then None
          else Some(Loaded(Operation(Transpose(ConstValues(perm)), [ins[0]], OutsOf(op, t2o)), operands))
    }

    /** loadTranspose: only the data input is kept; the permutation is every
        int32 value of the constant second input. */
    method LoadTranspose(op: Operator, subg: Graph) returns (r: Result<nat, LoadError>)
      requires RefsOk(op)
      modifies subg
      ensures subg.operands == old(subg.operands)
      ensures subg.inputs == old(subg.inputs) && subg.outputs == old(subg.outputs)
      ensures r.Failure? ==> subg.operations == old(subg.operations)
      ensures IORejected(op) ==> r.Failure?
      ensures (&& !IORejected(op) && |op.inputs| >= 2 && subg.OperandAt(Ins(op)[1]).Some?
               && !subg.OperandAt(Ins(op)[1]).value.IsConstant()) ==> r == Failure(NonConstantPerm)
      ensures r.Success? ==>
                && |op.inputs| >= 2
                && subg.OperandAt(Ins(op)[1]).Some?
                && var perm := subg.OperandAt(Ins(op)[1]).value;
                   && perm.IsConstant()
                   && subg.operations == old(subg.operations) +
                        [Operation(Transpose(ConstValues(perm)), [Ins(op)[0]], Outs(op))]
      ensures LoadsAs(r.Success?, ExpectedTranspose(op, tensorToOperand, old(subg.operands)),
                      old(subg.operations), subg.operations, subg.operands)
    {
      var io :- LoadOperationIO(tensorToOperand, CodeOf(op) in allowOptional, CodeOf(op), op.inputs, op.outputs);
      var perm :- InputOperand(subg, io, 1);
      if !perm.IsConstant() {
        return Failure(NonConstantPerm);
      }
      var ind := subg.AddOperation(Operation(Transpose(ConstValues(perm)), [io.inputs[0]], io.outputs));
      r := Success(ind);
    }

    /** What loadSplit yields: the data (second) input only, split along
        the axis the constant first input holds as an int32 scalar. */
    function ExpectedSplit(op: Operator, t2o: seq<OperandIndex>, operands: seq<Operand>): Option<Loaded>
      requires OperatorRefsOk(op, |t2o|, |model.operatorCodes|)
    {
      var ins := InsOf(op, t2o);
      if IORejected(op) || |ins| < 2 then None
      else match OperandIn(operands, ins[0])
        case None => None
        case Some(axis) =>
          if !axis.IsConstant() || AsInt32Scalar(axis.data.value.Bytes()).Failure? || !op.builtinOptions.SplitOptions? then None
          else
            var kind := Split(AsInt32Scalar(axis.data.value.Bytes()).value, op.builtinOptions.numSplits);
            Some(Loaded(Operation(kind, [ins[1]], OutsOf(op, t2o)), operands))
    }

    /** loadSplit: the data is the second input and the axis the first,
        read as a constant int32 scalar; only the data input is kept. */
    method LoadSplit(op: Operator, subg: Graph) returns (r: Result<nat, LoadError>)
      requires RefsOk(op)
      modifies subg
      ensures subg.operands == old(subg.operands)
      ensures subg.inputs == old(subg.inputs) && subg.outputs == old(subg.outputs)
      ensures r.Failure? ==> subg.operations == old(subg.operations)
      ensures IORejected(op) ==> r.Failure?
      ensures (&& !IORejected(op) && |op.inputs| >= 2 && subg.OperandAt(Ins(op)[0]).Some?
               && !subg.OperandAt(Ins(op)[0]).value.IsConstant()) ==> r == Failure(NonConstantAxis)
      ensures r.Success? ==>
                && |op.inputs| >= 2 && op.builtinOptions.SplitOptions?
                && subg.OperandAt(Ins(op)[0]).Some?
                && var axis := subg.OperandAt(Ins(op)[0]).value;
                   && axis.IsConstant()
                   && AsInt32Scalar(axis.data.value.Bytes()).Success?
                   && subg.operations == old(subg.operations) +
                        [Operation(Split(AsInt32Scalar(axis.data.value.Bytes()).value, op.builtinOptions.numSplits),
                                   [Ins(op)[1]], Outs(op))]
      ensures LoadsAs(r.Success?, ExpectedSplit(op, tensorToOperand, old(subg.operands)),
                      old(subg.operations), subg.operations, subg.operands)
    {
      var io :- LoadOperationIO(tensorToOperand, CodeOf(op) in allowOptional, CodeOf(op), op.inputs, op.outputs);
      if |io.inputs| < 2 {
        return Failure(MissingInputOrOutput);
      }
      var input := io.inputs[1];
      var axis :- InputOperand(subg, io, 0);
      if !axis.IsConstant() {
        return Failure(NonConstantAxis);
      }
      var axisValue :- AsInt32Scalar(axis.data.value.Bytes());
      if !op.builtinOptions.SplitOptions? {
        return Failure(MissingOptions);
      }
      var ind := subg.AddOperation(Operation(Split(axisValue, op.builtinOptions.numSplits), [input], io.outputs));
      r := Success(ind);
    }

    /** What loadTile yields: the Tile operation over every input, when the
        multiples (second input) exist and are constant. */
    function ExpectedTile(op: Operator, t2o: seq<OperandIndex>, operands: seq<Operand>): Option<Loaded>
      requires OperatorRefsOk(op, |t2o|, |model.operatorCodes|)
    {
      var ins := InsOf(op, t2o);
      if IORejected(op) || |ins| < 2 then None
      else match OperandIn(operands, ins[1])
        case None => None
        case Some(multiples) => if multiples.IsConstant() then Some(Appended(op, t2o, Tile, operands)) else None
    }

    /** loadTile: every input is kept; the multiples (second input) must be
        constant. */
    method LoadTile(op: Operator, subg: Graph) returns (r: Result<nat, LoadError>)
      requires RefsOk(op)
      modifies subg
      ensures subg.operands == old(subg.operands)
      ensures subg.inputs == old(subg.inputs) && subg.outputs == old(subg.outputs)
      ensures r.Failure? ==> subg.operations == old(subg.operations)
      ensures (&& !IORejected(op) && |op.inputs| >= 2 && subg.OperandAt(Ins(op)[1]).Some?)
                ==> (r.Success? <==> subg.OperandAt(Ins(op)[1]).value.IsConstant())
      ensures r.Success? ==> && !IORejected(op) && |op.inputs| >= 2
                             && subg.operations == old(subg.operations) + [Operation(Tile, Ins(op), Outs(op))]
      ensures LoadsAs(r.Success?, ExpectedTile(op, tensorToOperand, old(subg.operands)),
                      old(subg.operations), subg.operations, subg.operands)
    {
      var io :- LoadOperationIO(tensorToOperand, CodeOf(op) in allowOptional, CodeOf(op), op.inputs, op.outputs);
      var multiples :- InputOperand(subg, io, 1);
      if !multiples.IsConstant() {
        return Failure(NonConstantMultiples);
      }
      var ind := subg.AddOperation(Operation(Tile, io.inputs, io.outputs));
      r := Success(ind);
    }

    // ---- loadEinsum / loadFusedBatchNorm ------------------------------------

    /** loadEinsum. Without custom options there is no equation. The
        two-input restriction is checked before the operation is added when
        checkArityFirst holds; otherwise, as written, after it. */
    method LoadEinsum(op: Operator, subg: Graph, checkArityFirst: bool) returns (r: Result<nat, LoadError>)
      requires RefsOk(op)
      modifies subg
      ensures subg.operands == old(subg.operands)
      ensures subg.inputs == old(subg.inputs) && subg.outputs == old(subg.outputs)
      ensures IORejected(op) ==> r.Failure?
      ensures op.customOptions.None? ==> r == Failure(EinsumEmptyEquation)
      ensures r.Success? <==> op.customOptions.Some? && !IORejected(op) && |op.inputs| == 2
      ensures r.Success? ==> && |op.inputs| == 2
                             && subg.operations == old(subg.operations) + [Operation(EinsumParams(op.customOptions).value, Ins(op), Outs(op))]
      ensures r.Failure? && checkArityFirst ==> subg.operations == old(subg.operations)
      ensures r.Failure? ==> || subg.operations == old(subg.operations)
                             || (&& op.customOptions.Some?
                                 && subg.operations == old(subg.operations) + [Operation(EinsumParams(op.customOptions).value, Ins(op), Outs(op))])
      ensures (&& !checkArityFirst && op.customOptions.Some? && !IORejected(op) && |op.inputs| != 2) ==>
                && r == Failure(EinsumInputCount)
                && subg.operations == old(subg.operations) + [Operation(EinsumParams(op.customOptions).value, Ins(op), Outs(op))]
    {
      var params :- EinsumParams(op.customOptions);
      if checkArityFirst && |op.inputs| != 2 {
        return Failure(EinsumInputCount);
      }
      var ind :- LoadOperationTo(op, subg, params);
      if !checkArityFirst && |Ins(op)| != 2 {
        return Failure(EinsumInputCount);
      }
      r := Success(ind);
    }

    /** loadFusedBatchNorm: as loadEinsum, with five inputs. */
    method LoadFusedBatchNorm(op: Operator, subg: Graph, checkArityFirst: bool) returns (r: Result<nat, LoadError>)
      requires RefsOk(op)
      modifies subg
      ensures subg.operands == old(subg.operands)
      ensures subg.inputs == old(subg.inputs) && subg.outputs == old(subg.outputs)
      ensures IORejected(op) ==> r.Failure?
      ensures op.customOptions.None? ==> r == Failure(FusedBatchNormEmptyOption)
      ensures r.Success? <==> op.customOptions.Some? && !IORejected(op) && |op.inputs| == 5
      ensures r.Success? ==> && |op.inputs| == 5
                             && subg.operations == old(subg.operations) + [Operation(FusedBatchNormParams(op.customOptions).value, Ins(op), Outs(op))]
      ensures r.Failure? && checkArityFirst ==> subg.operations == old(subg.operations)
      ensures r.Failure? ==> || subg.operations == old(subg.operations)
                             || (&& op.customOptions.Some?
                                 && subg.operations == old(subg.operations) + [Operation(FusedBatchNormParams(op.customOptions).value, Ins(op), Outs(op))])
      ensures (&& !checkArityFirst && op.customOptions.Some? && !IORejected(op) && |op.inputs| != 5) ==>
                && r == Failure(FusedBatchNormInputCount)
                && subg.operations == old(subg.operations) + [Operation(FusedBatchNormParams(op.customOptions).value, Ins(op), Outs(op))]
    {
      var params :- FusedBatchNormParams(op.customOptions);
      if checkArityFirst && |op.inputs| != 5 {
        return Failure(FusedBatchNormInputCount);
      }
      var ind :- LoadOperationTo(op, subg, params);
      if !checkArityFirst && |Ins(op)| != 5 {
        return Failure(FusedBatchNormInputCount);
      }
      r := Success(ind);
    }

    // ---- loadCustom ---------------------------------------------------------

    function CustomNameOfOp(op: Operator): string
      requires op.opcodeIndex < |model.operatorCodes|
    {
      model.operatorCodes[op.opcodeIndex].customCode
    }

    /** The generic custom operation the fallback adds: exactly as many
        inputs as it has, its name, and its raw option bytes. */
    function CustomFallbackOp(op: Operator, t2o: seq<OperandIndex>): Operation
      requires OperatorRefsOk(op, |t2o|, |model.operatorCodes|) && op.customOptions.Some?
    {
      Operation(Custom(|op.inputs|, CustomNameOfOp(op), op.customOptions.value.bytes), InsOf(op, t2o), OutsOf(op, t2o))
    }

    /** What loadCustom yields: the builtin operation of a recognised name
        whose handler accepts the operator; otherwise the generic custom
        operation, which needs the option bytes. */
    function ExpectedCustom(op: Operator, t2o: seq<OperandIndex>, operands: seq<Operand>): Option<Loaded>
      requires OperatorRefsOk(op, |t2o|, |model.operatorCodes|)
    {
      var b := CustomBuiltinOf(CustomNameOfOp(op));
      if IORejected(op) then None
      else if b.Some? && KnownCustomParams(b.value, CodeOf(op), op).Success? then
        Some(Appended(op, t2o, KnownCustomParams(b.value, CodeOf(op), op).value, operands))
      else if op.customOptions.Some? then Some(Loaded(CustomFallbackOp(op, t2o), operands))
      else None
    }

    /** The handler loadCustom runs for a recognised custom name; every
        handler checks its input count before adding anything, so it adds
        exactly the operation KnownCustomParams describes, or nothing. */
    method LoadKnownCustom(op: Operator, subg: Graph, b: CustomBuiltin) returns (r: Result<nat, LoadError>)
      requires RefsOk(op)
      modifies subg
      ensures subg.operands == old(subg.operands)
      ensures subg.inputs == old(subg.inputs) && subg.outputs == old(subg.outputs)
      ensures IORejected(op) ==> r.Failure?
      ensures r.Success? ==> && |subg.operations| == |old(subg.operations)| + 1
                             && subg.operations[..|old(subg.operations)|] == old(subg.operations)
                             && !subg.operations[|old(subg.operations)|].kind.Custom?
      ensures r.Failure? ==> subg.operations == old(subg.operations)
      ensures LoadsAs(r.Success?, ExpectedWith(op, tensorToOperand, old(subg.operands), KnownCustomParams(b, CodeOf(op), op)),
                      old(subg.operations), subg.operations, subg.operands)
    {
      match b
      case CustomAddV2 => r := LoadWith(op, subg, AddV2Params(op.customOptions));
      case CustomReduceAll => r := LoadOperationTo(op, subg, ReduceAllParams(op.customOptions));
      case CustomMatrixBandPart => r := LoadOperationTo(op, subg, Plain(MatrixBandPart));
      case CustomBatchMatMul => r := LoadWith(op, subg, BatchMatMulParams(CodeOf(op), op));
      case CustomEinsum => r := LoadEinsum(op, subg, true);
      case CustomBroadcastTo => r := LoadOperationTo(op, subg, Plain(BroadcastTo));
      case CustomFusedBatchNorm => r := LoadFusedBatchNorm(op, subg, true);
      case CustomStatelessRandomUniform => r := LoadOperationTo(op, subg, Plain(StatelessRandomUniform));
      case CustomErf => r := LoadElementwiseUnary(op, subg, U_ERF);
    }

    /** The catch branch of loadCustom: a generic custom operation carrying
        the raw option bytes, which must be present. */
    method LoadCustomFallback(op: Operator, subg: Graph) returns (r: Result<nat, LoadError>)
      requires RefsOk(op)
      modifies subg
      ensures subg.operands == old(subg.operands)
      ensures subg.inputs == old(subg.inputs) && subg.outputs == old(subg.outputs)
      ensures r.Failure? <==> IORejected(op) || op.customOptions.None?
      ensures r.Failure? ==> subg.operations == old(subg.operations)
      ensures r.Success? ==> subg.operations == old(subg.operations) + [CustomFallbackOp(op, tensorToOperand)]
    {
      var io :- LoadOperationIO(tensorToOperand, CodeOf(op) in allowOptional, CodeOf(op), op.inputs, op.outputs);
      if op.customOptions.None? {
        return Failure(NullCustomOptions);
      }
      var ind := subg.AddOperation(Operation(Custom(|io.inputs|, CustomNameOfOp(op), op.customOptions.value.bytes),
                                             io.inputs, io.outputs));
      r := Success(ind);
    }

    /** loadCustom: a recognised name is loaded as its builtin operation;
        an unrecognised name, or a handler that fails, falls back to a
        generic custom operation. Handlers check their arity before adding
        anything, so exactly one operation is added on success and none on
        failure. */
    method LoadCustom(op: Operator, subg: Graph) returns (r: Result<nat, LoadError>)
      requires RefsOk(op)
      modifies subg
      ensures subg.operands == old(subg.operands)
      ensures subg.inputs == old(subg.inputs) && subg.outputs == old(subg.outputs)
      ensures IORejected(op) ==> r.Failure?
      ensures r.Failure? ==> IORejected(op) || op.customOptions.None?
      ensures r.Failure? ==> subg.operations == old(subg.operations)
      ensures r.Success? ==> && |subg.operations| == |old(subg.operations)| + 1
                             && subg.operations[..|old(subg.operations)|] == old(subg.operations)
      ensures r.Success? && subg.operations[|old(subg.operations)|].kind.Custom? ==>
                op.customOptions.Some? && subg.operations[|old(subg.operations)|] == CustomFallbackOp(op, tensorToOperand)
      ensures CustomBuiltinOf(CustomNameOfOp(op)).None? ==>
                && (r.Success? <==> !IORejected(op) && op.customOptions.Some?)
                && (r.Success? ==> subg.operations == old(subg.operations) + [CustomFallbackOp(op, tensorToOperand)])
      ensures LoadsAs(r.Success?, ExpectedCustom(op, tensorToOperand, old(subg.operands)),
                      old(subg.operations), subg.operations, subg.operands)
    {
      var b := CustomBuiltinOf(CustomNameOfOp(op));
      if b.Some? {
        r := LoadKnownCustom(op, subg, b.value);
        if r.Success? {
          return;
        }
      }
      r := LoadCustomFallback(op, subg);
    }

    /** loadCustom as written: Einsum and FusedBatchNorm check their arity
        after adding their operation, and the fallback then adds a second,
        generic one. */
    method LoadCustomAsWritten(op: Operator, subg: Graph) returns (r: Result<nat, LoadError>)
      requires RefsOk(op)
      modifies subg
      ensures subg.operands == old(subg.operands)
      ensures r.Success? ==> |old(subg.operations)| + 1 <= |subg.operations| <= |old(subg.operations)| + 2
      ensures r.Success? ==> subg.operations[..|old(subg.operations)|] == old(subg.operations)
      ensures (&& CustomBuiltinOf(CustomNameOfOp(op)) == Some(CustomEinsum) && op.customOptions.Some? && !IORejected(op)
               && |op.inputs| != 2) ==>
                && r.Success?
                && subg.operations == old(subg.operations) +
                     [Operation(EinsumParams(op.customOptions).value, Ins(op), Outs(op)), CustomFallbackOp(op, tensorToOperand)]
      ensures (&& CustomBuiltinOf(CustomNameOfOp(op)) == Some(CustomFusedBatchNorm) && op.customOptions.Some? && !IORejected(op)
               && |op.inputs| != 5) ==>
                && r.Success?
                && subg.operations == old(subg.operations) +
                     [Operation(FusedBatchNormParams(op.customOptions).value, Ins(op), Outs(op)), CustomFallbackOp(op, tensorToOperand)]
    {
      var b := CustomBuiltinOf(CustomNameOfOp(op));
      if b.Some? {
        r := LoadKnownCustomAsWritten(op, subg, b.value);
        if r.Success? {
          return;
        }
      }
      r := LoadCustomFallback(op, subg);
    }

    /** The handlers as written: Einsum and FusedBatchNorm add their
        operation and only then check their input count; the others add
        one operation or nothing. */
    method LoadKnownCustomAsWritten(op: Operator, subg: Graph, b: CustomBuiltin) returns (r: Result<nat, LoadError>)
      requires RefsOk(op)
      modifies subg
      ensures subg.operands == old(subg.operands)
      ensures r.Success? ==> && |subg.operations| == |old(subg.operations)| + 1
                             && subg.operations[..|old(subg.operations)|] == old(subg.operations)
      ensures r.Failure? ==> || subg.operations == old(subg.operations)
                             || (&& |subg.operations| == |old(subg.operations)| + 1
                                 && subg.operations[..|old(subg.operations)|] == old(subg.operations))
      ensures (&& b == CustomEinsum && op.customOptions.Some? && !IORejected(op) && |op.inputs| != 2) ==>
                && r.Failure?
                && subg.operations == old(subg.operations) + [Operation(EinsumParams(op.customOptions).value, Ins(op), Outs(op))]
      ensures (&& b == CustomFusedBatchNorm && op.customOptions.Some? && !IORejected(op) && |op.inputs| != 5) ==>
                && r.Failure?
                && subg.operations == old(subg.operations) + [Operation(FusedBatchNormParams(op.customOptions).value, Ins(op), Outs(op))]
    {
      if b == CustomEinsum {
        r := LoadEinsum(op, subg, false);
      } else if b == CustomFusedBatchNorm {
        r := LoadFusedBatchNorm(op, subg, false);
      } else {
        r := LoadKnownCustom(op, subg, b);
      }
    }

    // ---- loadOperation ------------------------------------------------------

    /** What the opcodes with their own loader yield; an opcode outside the
        dispatch table yields nothing. */
    function ExpectedSpecial(op: Operator, t2o: seq<OperandIndex>, operands: seq<Operand>): Option<Loaded>
      requires OperatorRefsOk(op, |t2o|, |model.operatorCodes|)
    {
      var code := CodeOf(op);
      if code == FULLY_CONNECTED then ExpectedFC(op, t2o, operands)
      else if code == CUSTOM then ExpectedCustom(op, t2o, operands)
      else if code == ARG_MAX then ExpectedArgMax(op, t2o, operands)
      else ExpectedConstInput(op, t2o, operands)
    }

    /** What the loaders that read a constant input operand yield. */
    function ExpectedConstInput(op: Operator, t2o: seq<OperandIndex>, operands: seq<Operand>): Option<Loaded>
      requires OperatorRefsOk(op, |t2o|, |model.operatorCodes|)
    {
      var code := CodeOf(op);
      if code == RESIZE_BILINEAR then ExpectedResizeBilinear(op, t2o, operands)
      else if code == RESIZE_NEAREST_NEIGHBOR then ExpectedResizeNN(op, t2o, operands)
      else if code == TRANSPOSE then ExpectedTranspose(op, t2o, operands)
      else if code == SPLIT then ExpectedSplit(op, t2o, operands)
      else if code == TILE then ExpectedTile(op, t2o, operands)
      else None
    }

    /** What loadOperation yields for one operator: the loader its opcode
        dispatches to decides. */
    function ExpectedLoad(op: Operator, t2o: seq<OperandIndex>, operands: seq<Operand>): Option<Loaded>
      requires OperatorRefsOk(op, |t2o|, |model.operatorCodes|)
    {
      var code := CodeOf(op);
      var generic := GenericParams(code, op);
      if generic.Some? then ExpectedWith(op, t2o, operands, generic.value)
      else if UnaryTypeOf(code).Some? then ExpectedUnary(op, t2o, operands, UnaryTypeOf(code).value)
      else ExpectedSpecial(op, t2o, operands)
    }

    /** No operator with an optional input its opcode does not allow loads,
        whatever its opcode. */
    lemma ExpectedLoadIORejected(op: Operator, t2o: seq<OperandIndex>, operands: seq<Operand>)
      requires OperatorRefsOk(op, |t2o|, |model.operatorCodes|)
      requires IORejected(op)
      ensures ExpectedLoad(op, t2o, operands).None?
    {
    }

    /** A successful load leaves every operand in place, at most retyped. */
    lemma {:induction false} ExpectedLoadRetypesOnly(op: Operator, t2o: seq<OperandIndex>, operands: seq<Operand>)
      requires OperatorRefsOk(op, |t2o|, |model.operatorCodes|)
      requires ExpectedLoad(op, t2o, operands).Some?
      ensures RetypedOnly(operands, ExpectedLoad(op, t2o, operands).value.operands)
    {
      RetypedOnlyRefl(operands);
      var code := CodeOf(op);
      if GenericParams(code, op).None? && UnaryTypeOf(code).Some? {
        var t := UnaryTypeOf(code).value;
        if t == U_CAST {
          var ins, outs := InsOf(op, t2o), OutsOf(op, t2o);
          var afterInput := RetypeIf(operands, ins[0].n, QUANT_UINT8_ASYMM, UINT8);
          RetypedOnlyTrans(operands, afterInput, RetypeIf(afterInput, outs[0].n, QUANT_UINT8_ASYMM, UINT8));
        }
      }
    }

    /** The opcodes with their own loader; any other opcode that reaches
        here is unsupported. */
    method LoadSpecial(op: Operator, subg: Graph) returns (r: Result<nat, LoadError>)
      requires RefsOk(op)
      modifies subg
      ensures subg.inputs == old(subg.inputs) && subg.outputs == old(subg.outputs)
      ensures RetypedOnly(old(subg.operands), subg.operands)
      ensures !Dispatched(CodeOf(op)) ==> && r == Failure(UnsupportedOperation(CodeOf(op)))
                                          && subg.operations == old(subg.operations)
      ensures LoadsAs(r.Success?, ExpectedSpecial(op, tensorToOperand, old(subg.operands)),
                      old(subg.operations), subg.operations, subg.operands)
    {
      RetypedOnlyRefl(subg.operands);
      var code := CodeOf(op);
      if code == FULLY_CONNECTED {
        r := LoadFC(op, subg);
      } else if code == CUSTOM {
        r := LoadCustom(op, subg);
      } else if code == ARG_MAX {
        r := LoadArgMax(op, subg);
      } else {
        r := LoadConstInputOp(op, subg);
      }
    }

    /** The loaders that read a constant input operand; any other opcode
        that reaches here is unsupported. */
    method LoadConstInputOp(op: Operator, subg: Graph) returns (r: Result<nat, LoadError>)
      requires RefsOk(op)
      modifies subg
      ensures subg.inputs == old(subg.inputs) && subg.outputs == old(subg.outputs)
      ensures RetypedOnly(old(subg.operands), subg.operands)
      ensures CodeOf(op) !in {RESIZE_BILINEAR, RESIZE_NEAREST_NEIGHBOR, TRANSPOSE, SPLIT, TILE} ==>
                && r == Failure(UnsupportedOperation(CodeOf(op)))
                && subg.operations == old(subg.operations)
      ensures LoadsAs(r.Success?, ExpectedConstInput(op, tensorToOperand, old(subg.operands)),
                      old(subg.operations), subg.operations, subg.operands)
    {
      RetypedOnlyRefl(subg.operands);
      var code := CodeOf(op);
      if code == RESIZE_BILINEAR {
        r := LoadResizeBilinear(op, subg);
      } else if code == RESIZE_NEAREST_NEIGHBOR {
        r := LoadResizeNearestNeighbor(op, subg);
      } else if code == TRANSPOSE {
        r := LoadTranspose(op, subg);
      } else if code == SPLIT {
        r := LoadSplit(op, subg);
      } else if code == TILE {
        r := LoadTile(op, subg);
      } else {
        r := Failure(UnsupportedOperation(code));
      }
    }

    /** loadOperation: dispatch on the opcode. It succeeds exactly when the
        expected outcome exists, and then appends that operation and leaves
        that operand table; an opcode outside the dispatch table is
        unsupported. */
    method LoadOperation(op: Operator, subg: Graph) returns (r: Result<nat, LoadError>)
      requires RefsOk(op)
      modifies subg
      ensures subg.inputs == old(subg.inputs) && subg.outputs == old(subg.outputs)
      ensures RetypedOnly(old(subg.operands), subg.operands)
      ensures !Dispatched(CodeOf(op)) ==> && r == Failure(UnsupportedOperation(CodeOf(op)))
                                          && subg.operations == old(subg.operations)
      ensures LoadsAs(r.Success?, ExpectedLoad(op, tensorToOperand, old(subg.operands)),
                      old(subg.operations), subg.operations, subg.operands)
    {
      ghost var before := subg.operands;
      RetypedOnlyRefl(before);
      var code := CodeOf(op);
      var generic := GenericParams(code, op);
      if generic.Some? {
        r := LoadWith(op, subg, generic.value);
        return;
      }
      var unary := UnaryTypeOf(code);
      if unary.Some? {
        r := LoadElementwiseUnary(op, subg, unary.value);
        return;
      }
      r := LoadSpecial(op, subg);
    }

    // ---- loadSubgraph and loadModel -----------------------------------------

    /** Loading a list of operators in order, each against the operand
        table its predecessors left: the operations in order and the final
        operand table, or nothing as soon as one operator does not load. */
    function LoadAll(ops: seq<Operator>, t2o: seq<OperandIndex>, operands: seq<Operand>): (r: Option<Body>)
      requires forall k :: 0 <= k < |ops| ==> OperatorRefsOk(ops[k], |t2o|, |model.operatorCodes|)
      ensures r.Some? ==> |r.value.operations| == |ops| && |r.value.operands| == |operands|
      decreases |ops|, 1
    {
      if ops == [] then Some(Body([], operands)) else LoadLast(ops, t2o, operands)
    }

    /** A non-empty list of operators: the list without its last operator,
        then the last operator against the operand table the others left. */
    function LoadLast(ops: seq<Operator>, t2o: seq<OperandIndex>, operands: seq<Operand>): (r: Option<Body>)
      requires ops != []
      requires forall k :: 0 <= k < |ops| ==> OperatorRefsOk(ops[k], |t2o|, |model.operatorCodes|)
      ensures r.Some? ==> |r.value.operations| == |ops| && |r.value.operands| == |operands|
      decreases |ops|, 0
    {
      match LoadAll(ops[..|ops| - 1], t2o, operands)
      case None => None
      case Some(b) =>
        match ExpectedLoad(ops[|ops| - 1], t2o, b.operands)
        case None => None
        case Some(l) =>
          ExpectedLoadRetypesOnly(ops[|ops| - 1], t2o, b.operands);
          Some(Body(b.operations + [l.operation], l.operands))
    }

    /** Loading one more operator: the prefix's body, extended by what the
        next operator loads as against the prefix's operand table. */
    lemma {:induction false} LoadAllStep(ops: seq<Operator>, t2o: seq<OperandIndex>, operands: seq<Operand>, j: nat, b: Body)
      requires forall k :: 0 <= k < |ops| ==> OperatorRefsOk(ops[k], |t2o|, |model.operatorCodes|)
      requires j < |ops| && LoadAll(ops[..j], t2o, operands) == Some(b)
      ensures ExpectedLoad(ops[j], t2o, b.operands).None? ==> LoadAll(ops[..j + 1], t2o, operands).None?
      ensures ExpectedLoad(ops[j], t2o, b.operands).Some? ==>
                LoadAll(ops[..j + 1], t2o, operands)
                  == Some(Body(b.operations + [ExpectedLoad(ops[j], t2o, b.operands).value.operation],
                               ExpectedLoad(ops[j], t2o, b.operands).value.operands))
    {
      assert ops[..j + 1][..j] == ops[..j];
      assert LoadAll(ops[..j + 1], t2o, operands) == LoadLast(ops[..j + 1], t2o, operands);
    }

    /** Once a prefix of the operators fails to load, the whole list does. */
    lemma {:induction false} LoadAllStops(ops: seq<Operator>, t2o: seq<OperandIndex>, operands: seq<Operand>, j: nat)
      requires forall k :: 0 <= k < |ops| ==> OperatorRefsOk(ops[k], |t2o|, |model.operatorCodes|)
      requires j <= |ops| && LoadAll(ops[..j], t2o, operands).None?
      ensures LoadAll(ops, t2o, operands).None?
      decreases |ops| - j
    {
      if j == |ops| {
        assert ops[..j] == ops;
      } else {
        assert ops[..j + 1][..j] == ops[..j];
        LoadAllStops(ops, t2o, operands, j + 1);
      }
    }

    /** The operands of a list of accepted tensors, in order. */
    function TensorOperands(ts: seq<Tensor>): (r: seq<Operand>)
      requires forall k :: 0 <= k < |ts| ==> !TypeInfoRejected(ts[k]) && ts[k].buffer < |model.buffers|
      ensures |r| == |ts|
      ensures forall k :: 0 <= k < |ts| ==> r[k] == TensorOperand(ts[k])
    {
      seq(|ts|, k requires 0 <= k < |ts| => TensorOperand(ts[k]))
    }

    /** What loadSubgraph builds: nothing when a tensor is refused;
        otherwise tensor i becomes operand i and every operator is loaded
        in order, tensor indices naming operands one to one. */
    function SubgraphBody(sg: SubGraph): Option<Body>
      requires SubGraphRefsOk(sg, |model.operatorCodes|, |model.buffers|)
    {
      if exists k :: 0 <= k < |sg.tensors| && OperandRejected(sg.tensors[k]) then None
      else LoadAll(sg.operators, IdentityTable(|sg.tensors|), TensorOperands(sg.tensors))
    }

    /** The tensor loop of loadSubgraph: every tensor becomes an operand,
        in order, so tensor i is operand i; the first refused tensor stops
        it. */
    method LoadOperands(tensors: seq<Tensor>, g: Graph) returns (r: Result<(), LoadError>)
      requires forall k :: 0 <= k < |tensors| ==> tensors[k].buffer < |model.buffers|
      requires g.operands == []
      modifies this, g
      ensures subgraphs == old(subgraphs)
      ensures g.operations == old(g.operations) && g.inputs == old(g.inputs) && g.outputs == old(g.outputs)
      ensures r.Success? <==> forall k :: 0 <= k < |tensors| ==> !OperandRejected(tensors[k])
      ensures r.Success? ==> g.operands == TensorOperands(tensors) && tensorToOperand == IdentityTable(|tensors|)
      ensures ExtendsTables(old(released), old(tensorNames))
    {
      tensorToOperand := [];
      var i := 0;
      while i < |tensors|
        invariant 0 <= i <= |tensors|
        invariant |g.operands| == i
        invariant g.operations == old(g.operations) && g.inputs == old(g.inputs) && g.outputs == old(g.outputs)
        invariant forall k :: 0 <= k < i ==> !OperandRejected(tensors[k]) && g.operands[k] == TensorOperand(tensors[k])
        invariant tensorToOperand == IdentityTable(i)
        invariant subgraphs == old(subgraphs)
        invariant ExtendsTables(old(released), old(tensorNames))
      {
        var ind := LoadOperand(tensors[i], g);
        if ind.Failure? {
          assert OperandRejected(tensors[i]);
          return Failure(ind.error);
        }
        tensorToOperand := tensorToOperand + [ind.value];
        i := i + 1;
      }
      assert g.operands == TensorOperands(tensors);
      r := Success(());
    }

    /** The operator loop of loadSubgraph: every operator loaded in order;
        the first failure stops it. It succeeds exactly when LoadAll gives a
        body, and then the graph holds that body. */
    method LoadOperators(ops: seq<Operator>, g: Graph) returns (r: Result<(), LoadError>)
      requires forall k :: 0 <= k < |ops| ==> OperatorRefsOk(ops[k], |tensorToOperand|, |model.operatorCodes|)
      requires g.operations == []
      modifies g
      ensures g.inputs == old(g.inputs) && g.outputs == old(g.outputs)
      ensures r.Success? <==> LoadAll(ops, tensorToOperand, old(g.operands)).Some?
      ensures r.Success? ==> LoadAll(ops, tensorToOperand, old(g.operands)) == Some(Body(g.operations, g.operands))
    {
      ghost var initial := g.operands;
      var j := 0;
      assert ops[..0] == [];
      while j < |ops|
        invariant 0 <= j <= |ops|
        invariant forall k :: 0 <= k < j ==> OperatorRefsOk(ops[..j][k], |tensorToOperand|, |model.operatorCodes|)
        invariant LoadAll(ops[..j], tensorToOperand, initial) == Some(Body(g.operations, g.operands))
        invariant g.inputs == old(g.inputs) && g.outputs == old(g.outputs)
      {
        LoadAllStep(ops, tensorToOperand, initial, j, Body(g.operations, g.operands));
        var res := LoadOperation(ops[j], g);
        if res.Failure? {
          LoadAllStops(ops, tensorToOperand, initial, j + 1);
          return Failure(res.error);
        }
        j := j + 1;
      }
      assert ops[..j] == ops;
      r := Success(());
    }

    /** loadSubgraph: the operands, then the subgraph's inputs and outputs,
        then the operations. It succeeds exactly when SubgraphBody gives a
        body, and then builds that body. */
    method LoadSubgraph(sg: SubGraph) returns (r: Result<Graph, LoadError>)
      requires SubGraphRefsOk(sg, |model.operatorCodes|, |model.buffers|)
      modifies this
      ensures subgraphs == old(subgraphs)
      ensures ExtendsTables(old(released), old(tensorNames))
      ensures r.Success? <==> SubgraphBody(sg).Some?
      ensures r.Success? ==>
                && fresh(r.value)
                && HoldsBody(r.value, sg)
                && tensorToOperand == IdentityTable(|sg.tensors|)
                && |r.value.operands| == |sg.tensors|
                && |r.value.operations| == |sg.operators|
                && r.value.inputs == TensorIdxsToOperandIdxs(tensorToOperand, sg.inputs)
                && r.value.outputs == TensorIdxsToOperandIdxs(tensorToOperand, sg.outputs)
    {
      var g := new Graph();
      var operands := LoadOperands(sg.tensors, g);
      if operands.Failure? {
        return Failure(operands.error);
      }
      g.SetInputsOutputs(TensorIdxsToOperandIdxs(tensorToOperand, sg.inputs),
                         TensorIdxsToOperandIdxs(tensorToOperand, sg.outputs));
      var operations := LoadOperators(sg.operators, g);
      if operations.Failure? {
        return Failure(operations.error);
      }
      r := Success(g);
    }

    /** The graph holds the body loadSubgraph builds for `sg`. */
    predicate HoldsBody(g: Graph, sg: SubGraph)
      reads g
      requires SubGraphRefsOk(sg, |model.operatorCodes|, |model.buffers|)
    {
      && SubgraphBody(sg).Some?
      && g.operations == SubgraphBody(sg).value.operations
      && g.operands == SubgraphBody(sg).value.operands
    }

    /** loadModel: every subgraph, in order, under its own index. It
        succeeds exactly when every subgraph has a body, and then publishes
        one distinct new graph per subgraph holding that body; on failure
        nothing is published. */
    method LoadModel() returns (r: Result<(), LoadError>)
      requires ModelRefsOk(model)
      modifies this
      ensures r.Failure? ==> subgraphs == old(subgraphs)
      ensures ExtendsTables(old(released), old(tensorNames))
      ensures r.Success? <==> forall k :: 0 <= k < |model.subgraphs| ==> SubgraphBody(model.subgraphs[k]).Some?
      ensures r.Success? ==>
                && (forall k: nat :: k in subgraphs <==> k < |model.subgraphs|)
                && (forall k: nat :: k < |model.subgraphs| ==>
                      fresh(subgraphs[k]) && HoldsBody(subgraphs[k], model.subgraphs[k]))
                && (forall k1: nat, k2: nat :: k1 < k2 < |model.subgraphs| ==> subgraphs[k1] != subgraphs[k2])
    {
      var loaded: map<nat, Graph> := map[];
      var i := 0;
      while i < |model.subgraphs|
        invariant 0 <= i <= |model.subgraphs|
        invariant forall k: nat :: k in loaded <==> k < i
        invariant forall k: nat :: k < i ==> fresh(loaded[k]) && HoldsBody(loaded[k], model.subgraphs[k])
        invariant forall k1: nat, k2: nat :: k1 < k2 < i ==> loaded[k1] != loaded[k2]
        invariant subgraphs == old(subgraphs)
        invariant ExtendsTables(old(released), old(tensorNames))
      {
        var g := LoadSubgraph(model.subgraphs[i]);
        if g.Failure? {
          return Failure(g.error);
        }
        loaded := loaded[i := g.value];
        i := i + 1;
      }
      subgraphs := loaded;
      r := Success(());
    }
  }
}
