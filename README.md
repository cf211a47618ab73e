# onert model loader and dynamic tensor manager, in Dafny

This project models two parts of the onert runtime's import and memory core.

- **The base model loader** (`BaseLoader`) turns an already-verified TFLite/Circle model into IR subgraphs. For each tensor it creates an operand. It validates type, quantization, sparsity and the variable flag. For a model loaded from a file, it gives the whole pages of constant data back to the OS. It then maps each operator to an IR operation through the opcode dispatch, the per-operator parameter builders and the custom-operation name table with its generic fallback. It keeps every subgraph under its own index.
- **The CPU backend's dynamic tensor manager** (`DynamicTensorManager`) gives a tensor memory once its shape is known at run time. It reallocates when the byte size changes. It releases operands after their last use, following a plan that maps an operation index to operand indices.

Layout:

- `wrappers.dfy`: `Option` and `Result`.
- `ir.dfy`: the IR values (data types, shapes, type info, operand data, operation kinds) and the `Graph` class. A graph's operand and operation lists only grow, and loaders may retype operands.
- `schema.dfy`: the serialized model as plain records, plus the well-formedness of its cross references.
- `conversions.dfy`: the enum mappings, the tensor-index mapping, the page-release arithmetic, `Copy`, and little-endian int32 reads of constant data.
- `operand_checks.dfy`: the tensor checks of `loadOperand` (quantization, sparsity, type).
- `loader_params.dfy`: the parameter builders, the custom-name table and the dispatch tables.
- `loader.dfy`: the `BaseLoader` class (operands, operations, custom operations, subgraphs, model).
- `dtm.dfy`: the `DynamicTensorManager` class, its memory manager and call log, its validity invariant, and example runs.

Paths below are relative to the repository root. `BL` stands for `runtime/onert/frontend/base_loader/include/base_loader.h` and `DTM` for `runtime/onert/core/src/backend/cpu_common/DynamicTensorManager.cc`.

## Model

| member | source | states |
|---|---|---|
| Conversions.ConvertActivation | runtime/onert/frontend/base_loader/include/base_loader.h:219-238 | fails, with UnsupportedActivation, exactly on SIGN_BIT and codes outside the schema; every success maps back to the schema code it came from |
| Conversions.ConvertActivationInverse | runtime/onert/frontend/base_loader/include/base_loader.h:219-238 | converting t yields a exactly when t is a's schema counterpart, so the five supported codes map one to one |
| Conversions.TensorTypeToDataType | runtime/onert/frontend/base_loader/include/base_loader.h:241-261 | succeeds exactly on FLOAT32, INT32, BOOL, UINT8, INT8 and INT64; each result maps back to its input; all others fail with UnsupportedTensorType |
| Conversions.TensorTypeInverse | runtime/onert/frontend/base_loader/include/base_loader.h:241-261 | the six-entry mapping holds in both directions |
| Conversions.TensorIdxToOperandIdx | runtime/onert/frontend/base_loader/include/base_loader.h:264-267 | -1 gives the undefined operand index; any other index gives the operand created for that tensor |
| Conversions.TensorIdxsToOperandIdxs | runtime/onert/frontend/base_loader/include/base_loader.h:451-472 | a mapped list has the serialized list's length and order, entry by entry |
| Conversions.UndefinedIffOptional | runtime/onert/frontend/base_loader/include/base_loader.h:264-267 | when all tensors have operands, a mapped entry is undefined exactly where the serialized entry is -1 |
| Conversions.ReleaseRange | runtime/onert/frontend/base_loader/include/base_loader.h:270-291 | a released range is page-aligned at both ends, non-empty, and inside [offset, offset + size) |
| Conversions.ReleaseRangeMaximal | runtime/onert/frontend/base_loader/include/base_loader.h:270-291 | every non-empty page-aligned range inside [offset, offset + size) lies within the released one; so nothing is released exactly when no whole page fits |
| Conversions.ToInt32 | runtime/onert/frontend/base_loader/include/base_loader.h:336-364 | the long zero point passed to an int32_t: inside the int32 range and congruent to the value modulo 2^32 |
| Conversions.ToInt32Identity | runtime/onert/frontend/base_loader/include/base_loader.h:355-357 | a zero point inside the int32 range, as the debug asserts demand, passes unchanged |
| Conversions.ToUint16 | runtime/onert/frontend/base_loader/include/base_loader.h:305 | static_cast to uint16: below 2^16 and congruent to the value modulo 2^16 |
| Conversions.Copy | runtime/onert/frontend/base_loader/include/base_loader.h:294-308 | false with nothing copied when the values are absent; otherwise every value in order, cast to uint16 |
| Conversions.AsInt32Vector | runtime/onert/frontend/base_loader/include/base_loader.h:738 | one little-endian int32 per whole group of four bytes, in order |
| Conversions.AsInt32Scalar | runtime/onert/frontend/base_loader/include/base_loader.h:1052 | succeeds exactly when at least four bytes are present, with the first vector element |
| Schema.ToInt8 | runtime/onert/frontend/base_loader/include/base_loader.h:651-652 | the int8 reading of a flexbuffers integer lies in [-128, 128) and agrees with it modulo 256 |
| OperandChecks.ParseSparseIndexVector | runtime/onert/frontend/base_loader/include/base_loader.h:383-415 | succeeds exactly when both segments and indices are present int32, uint16 or uint8 vectors with values; the results are the uint16 casts, in order |
| OperandChecks.LoadSparsity | runtime/onert/frontend/base_loader/include/base_loader.h:366-418 | accepted exactly for two dims, DENSE then SPARSE_CSR, with parsable index vectors. Otherwise it fails with SparseNot2D, SparseDim0NotDense, SparseDim1NotCsr or SparseIndexParse, the error of the first check that fails |
| OperandChecks.LoadTypeInfo | runtime/onert/frontend/base_loader/include/base_loader.h:332-364 | fails exactly for an unsupported type, a present scale or zero-point list of length other than 1, custom quantization details, or rejected sparsity; on success the type info is the tensor's own (TypeInfoOf) |
| OperandChecks.TypeInfoOf | runtime/onert/frontend/base_loader/include/base_loader.h:332-364 | the type info of an accepted tensor: the mapped element type, its one scale and its one zero point narrowed to int32 (0 when absent), and the CSR metadata of its sparsity |
| OperandChecks.DescribesTypeInfoUnique | runtime/onert/frontend/base_loader/include/base_loader.h:332-364 | a type info describes an accepted tensor exactly when it is TypeInfoOf that tensor |
| LoaderParams.PaddingOf | runtime/onert/frontend/base_loader/include/base_loader.h:476-487 | SAME and VALID map to their IR counterparts, in both directions |
| LoaderParams.Conv2DParams | runtime/onert/frontend/base_loader/include/base_loader.h:522-532 | a missing options table fails, an unsupported activation fails, and nothing else does; success carries the converted activation, and SAME or VALID padding exactly as the options say |
| LoaderParams.DepthwiseConv2DParams | runtime/onert/frontend/base_loader/include/base_loader.h:535-545 | as Conv2DParams, for the depthwise options: failure cases, activation and padding |
| LoaderParams.Pool2DParams | runtime/onert/frontend/base_loader/include/base_loader.h:558-568 | as Conv2DParams (failure cases, activation, padding), and the pool type is the one requested |
| LoaderParams.FullyConnectedParams | runtime/onert/frontend/base_loader/include/base_loader.h:614-619 | a missing options table fails, an unsupported activation fails, and nothing else does; success is a fully connected operation with the converted activation |
| LoaderParams.BinaryArithmeticParams | runtime/onert/frontend/base_loader/include/base_loader.h:660-698 | succeeds exactly when the options table matches the arithmetic type and its activation converts; a wrong table fails with MissingOptions, a bad activation with UnsupportedActivation; success keeps the type and carries the converted activation |
| LoaderParams.AddV2Params | runtime/onert/frontend/base_loader/include/base_loader.h:636-657 | no custom options gives ADD with no activation; otherwise succeeds exactly when the int8 activation code is one of the five supported, and the activation is the one that code names |
| LoaderParams.ReshapeParams | runtime/onert/frontend/base_loader/include/base_loader.h:571-588 | the new shape is the options' shape when present and empty otherwise |
| LoaderParams.OptionTablesChecked | runtime/onert/frontend/base_loader/include/base_loader.h:548-1091 | each builder that only copies option fields fails exactly when its options table is absent, and then with MissingOptions |
| LoaderParams.ReduceAllParams | runtime/onert/frontend/base_loader/include/base_loader.h:809-827 | an ALL reduction whose keep_dims is the custom options' keep_dims read as a boolean, and false without custom options |
| LoaderParams.SqueezeParams | runtime/onert/frontend/base_loader/include/base_loader.h:1019-1034 | with Squeeze options, succeeds exactly when the dims are absent or fit the 8-entry parameter, and fails with SqueezeDimsOutOfRange otherwise; ndim equals the number of dims, none when absent |
| LoaderParams.LeakyReluParams | runtime/onert/frontend/base_loader/include/base_loader.h:1268-1273 | succeeds exactly with LeakyRelu options, with alpha and the fixed beta |
| LoaderParams.ComparisonParams | runtime/onert/frontend/base_loader/include/base_loader.h:1094-1125 | succeeds exactly for the six comparison opcodes, each with its own type: EQUAL gives Equal, NOT_EQUAL NotEqual, GREATER_EQUAL GreaterEqual, GREATER Greater, LESS_EQUAL LessEqual, LESS Less |
| LoaderParams.ComparisonInjective | runtime/onert/frontend/base_loader/include/base_loader.h:1094-1125 | different comparison opcodes give different comparison types |
| LoaderParams.OneHotParams | runtime/onert/frontend/base_loader/include/base_loader.h:1178-1188 | fails with OneHotArity exactly unless there are 4 inputs and 1 output; with that arity, OneHot options give a OneHot operation with their axis, and any other table fails with MissingOptions |
| LoaderParams.ToUint32 | runtime/onert/frontend/base_loader/include/base_loader.h:1191-1201 | the uint32 reading of a subgraph index: below 2^32 and congruent to it |
| LoaderParams.ToUint32Identity | runtime/onert/frontend/base_loader/include/base_loader.h:1191-1201 | non-negative int32 indices are unchanged |
| LoaderParams.IfParams | runtime/onert/frontend/base_loader/include/base_loader.h:1191-1201 | succeeds exactly with If options, carrying both branch subgraph indices |
| LoaderParams.WhileParams | runtime/onert/frontend/base_loader/include/base_loader.h:1204-1214 | succeeds exactly with While options, carrying the condition and body subgraph indices |
| LoaderParams.BatchMatMulParams | runtime/onert/frontend/base_loader/include/base_loader.h:872-907 | the builtin form needs its options and carries their two adjoint flags; the custom form always succeeds, with adj_x and adj_y read as booleans, or no adjoints without options; any other opcode fails |
| LoaderParams.EinsumParams | runtime/onert/frontend/base_loader/include/base_loader.h:1128-1142 | fails with EinsumEmptyEquation exactly without custom options; otherwise carries the equation |
| LoaderParams.FusedBatchNormParams | runtime/onert/frontend/base_loader/include/base_loader.h:1151-1167 | fails with FusedBatchNormEmptyOption exactly without custom options; otherwise carries is_training, epsilon and data_format read from them |
| LoaderParams.ArgMaxDataType | runtime/onert/frontend/base_loader/include/base_loader.h:1220-1229 | succeeds exactly for INT32 and INT64 output types, each mapped to its own IR type |
| LoaderParams.ArgMaxInt64AxisAlwaysRejected | runtime/onert/frontend/base_loader/include/base_loader.h:1232-1235 | as written, no INT64 axis operand passes the axis check |
| LoaderParams.ArgMaxInt32AxisAgrees | runtime/onert/frontend/base_loader/include/base_loader.h:1232-1235 | for INT32 axes the check as written and the corrected check agree |
| LoaderParams.ArgMaxInt64ScalarAxis | runtime/onert/frontend/base_loader/include/base_loader.h:1232-1235 | a one-element INT64 axis is rejected as written and accepted by the corrected check |
| LoaderParams.CustomBuiltinOf | runtime/onert/frontend/base_loader/include/base_loader.h:945-960 | a recognised name is the name of the builtin it yields |
| LoaderParams.CustomNameTableInverse | runtime/onert/frontend/base_loader/include/base_loader.h:945-960 | the nine-entry name table is a bijection |
| LoaderParams.KnownCustomParams | runtime/onert/frontend/base_loader/include/base_loader.h:961-993 | the operation each recognised name loads as, never a Custom one: AddV2 exactly AddV2Params, All exactly ReduceAllParams, BatchMatMulV2 exactly BatchMatMulParams, FusedBatchNormV3 exactly FusedBatchNormParams on success, Einsum and FusedBatchNormV3 only with options and exactly 2 or 5 inputs (arity checked before anything is added), the other four their fixed kinds |
| LoaderParams.UnaryTypeOf | runtime/onert/frontend/base_loader/include/base_loader.h:1276-1523 | every opcode loaded as an elementwise unary operation is in the dispatch table |
| LoaderParams.GenericParams | runtime/onert/frontend/base_loader/include/base_loader.h:1276-1523 | every opcode loaded through loadOperationTo is dispatched, and none of them is also a unary opcode |
| LoaderParams.ConfiguredParams | runtime/onert/frontend/base_loader/include/base_loader.h:1276-1523 | the generic opcodes whose parameters come from options or operands are dispatched |
| LoaderParams.FixedParams | runtime/onert/frontend/base_loader/include/base_loader.h:1276-1523 | the generic opcodes with fixed parameters are dispatched and never fail |
| Loader.LoadOperationIO | runtime/onert/frontend/base_loader/include/base_loader.h:451-472 | fails exactly when a -1 input is not allowed for the opcode; otherwise both lists are mapped entry by entry, and outputs are never checked |
| Loader.CopyDims | runtime/onert/frontend/base_loader/include/base_loader.h:313-322 | the shape is the serialized dims, in order |
| Loader.RetypeIf | runtime/onert/frontend/base_loader/include/base_loader.h:628-632 | only the one operand's data type changes, and only when it has the given type |
| Loader.IdentityTable | runtime/onert/frontend/base_loader/include/base_loader.h:421 | tensor k becomes operand k |
| Loader.BaseLoader.constructor | runtime/onert/frontend/base_loader/include/base_loader.h:70-71 | no tensors mapped, nothing released, no subgraphs |
| Loader.BaseLoader.LoadOperand | runtime/onert/frontend/base_loader/include/base_loader.h:311-448 | fails exactly on a rejected tensor. A variable tensor fails only after its operand is appended. Otherwise one operand is appended: it describes the tensor, is constant exactly when the buffer has data, and holds that data as external data for an in-memory model or a copy for a mapped file. Only a mapped file's pages are released. The operand's name is recorded unless its index already has one (emplace keeps the first name, and the table lasts across subgraphs) |
| Loader.BaseLoader.TensorOperand | runtime/onert/frontend/base_loader/include/base_loader.h:311-448 | the operand an accepted tensor becomes: it describes the tensor, is constant exactly when the buffer has data, holds those bytes, and holds them as external data exactly for an in-memory model |
| Loader.BaseLoader.LoadOperationTo | runtime/onert/frontend/base_loader/include/base_loader.h:505-519 | fails exactly on a refused optional input and adds nothing then; otherwise appends exactly the operation over the mapped lists |
| Loader.BaseLoader.LoadWith | runtime/onert/frontend/base_loader/include/base_loader.h:522-532 | a failed parameter build fails before any operation is added; otherwise as LoadOperationTo |
| Loader.BaseLoader.LoadFC | runtime/onert/frontend/base_loader/include/base_loader.h:614-633 | appends the operation; uint8-asymmetric weights become int8-symmetric exactly when the input is FLOAT32, and no other operand changes |
| Loader.BaseLoader.LoadElementwiseUnary | runtime/onert/frontend/base_loader/include/base_loader.h:841-860 | appends the operation; for CAST, a uint8-asymmetric input and then output become plain uint8; other kinds touch no operand |
| Loader.BaseLoader.LoadArgMax | runtime/onert/frontend/base_loader/include/base_loader.h:1217-1236 | output type INT32 or INT64, otherwise it fails before adding anything; once past that and the input check, the ArgMax operation stays added even when the axis check fails; succeeds exactly when the axis holds one INT32 or INT64 element (corrected check), and loads exactly as ExpectedArgMax |
| Loader.BaseLoader.LoadResizeBilinear | runtime/onert/frontend/base_loader/include/base_loader.h:725-748 | fails when the size input is not constant; the operation keeps only the data input and takes the height and width from the constant |
| Loader.BaseLoader.LoadResizeNearestNeighbor | runtime/onert/frontend/base_loader/include/base_loader.h:751-774 | as LoadResizeBilinear, without the half-pixel flag |
| Loader.BaseLoader.LoadTranspose | runtime/onert/frontend/base_loader/include/base_loader.h:777-795 | fails when the permutation is not constant; the operation keeps only the data input and the permutation is every int32 of the constant |
| Loader.BaseLoader.LoadSplit | runtime/onert/frontend/base_loader/include/base_loader.h:1037-1058 | fails when the axis (input 0) is not constant; the operation keeps only input 1 and the axis is the constant's int32 |
| Loader.BaseLoader.LoadTile | runtime/onert/frontend/base_loader/include/base_loader.h:1239-1254 | fails when the multiples are not constant; otherwise appends the operation over all inputs |
| Loader.BaseLoader.LoadEinsum | runtime/onert/frontend/base_loader/include/base_loader.h:1128-1149 | no options fails; success needs exactly 2 inputs; as written, an arity failure leaves the added operation |
| Loader.BaseLoader.LoadFusedBatchNorm | runtime/onert/frontend/base_loader/include/base_loader.h:1151-1175 | no options fails; success needs exactly 5 inputs; as written, an arity failure leaves the added operation |
| Loader.BaseLoader.LoadKnownCustom | runtime/onert/frontend/base_loader/include/base_loader.h:961-993 | corrected order: the handler of a recognised name appends exactly the operation KnownCustomParams gives (arity checked before adding), or nothing when that fails or an optional input is refused |
| Loader.BaseLoader.LoadKnownCustomAsWritten | runtime/onert/frontend/base_loader/include/base_loader.h:961-993 | as written: an Einsum with options but not 2 inputs, or a FusedBatchNormV3 with options but not 5, fails after its builtin operation was added; every handler adds at most one operation |
| Loader.BaseLoader.LoadCustomFallback | runtime/onert/frontend/base_loader/include/base_loader.h:997-1015 | appends the generic Custom operation: exact input count, the name, and a byte-for-byte copy of the options |
| Loader.BaseLoader.LoadCustom | runtime/onert/frontend/base_loader/include/base_loader.h:920-1016 | corrected: loads exactly as ExpectedCustom. A recognised name whose handler succeeds gives that handler's operation. An unknown name or a failing handler gives the generic Custom operation when options are present. A refused optional input or absent options fails with nothing added, and success appends exactly one operation |
| Loader.BaseLoader.LoadCustomAsWritten | runtime/onert/frontend/base_loader/include/base_loader.h:920-1016 | as written: a name that the table maps to Einsum with options but not 2 inputs, or to FusedBatchNormV3 with options but not 5, succeeds with two operations added, the builtin one and then the Custom one |
| Loader.BaseLoader.LoadOperation | runtime/onert/frontend/base_loader/include/base_loader.h:1276-1523 | corrected (it uses the corrected LoadCustom and LoadArgMax): loads exactly as ExpectedLoad, that is the generic parameter table, then the unary table, then the opcodes with their own loader. An opcode outside the table fails as unsupported and adds nothing. Operands are at most retyped |
| Loader.BaseLoader.LoadSpecial | runtime/onert/frontend/base_loader/include/base_loader.h:1276-1523 | FULLY_CONNECTED, CUSTOM and ARG_MAX load exactly as their own loader; an opcode outside the dispatch table fails as unsupported and adds nothing |
| Loader.BaseLoader.LoadConstInputOp | runtime/onert/frontend/base_loader/include/base_loader.h:1276-1523 | RESIZE_BILINEAR, RESIZE_NEAREST_NEIGHBOR, TRANSPOSE, SPLIT and TILE load exactly as their own loader; any other opcode fails as unsupported and adds nothing |
| Loader.BaseLoader.ExpectedLoadIORejected | runtime/onert/frontend/base_loader/include/base_loader.h:450-470 | an operator with a refused optional input never loads, whatever its opcode |
| Loader.BaseLoader.ExpectedLoadRetypesOnly | runtime/onert/frontend/base_loader/include/base_loader.h:1276-1523 | a successful load keeps every operand in place, at most changing its data type |
| Loader.BaseLoader.LoadAll | runtime/onert/frontend/base_loader/include/base_loader.h:1536-1543 | loading a list of operators in order gives one operation per operator and keeps the number of operands |
| Loader.BaseLoader.LoadAllStep | runtime/onert/frontend/base_loader/include/base_loader.h:1536-1543 | one more operator extends the loaded prefix by exactly what ExpectedLoad gives against the prefix's operands, or stops it |
| Loader.BaseLoader.LoadAllStops | runtime/onert/frontend/base_loader/include/base_loader.h:1536-1543 | once a prefix of the operators fails to load, the whole list does |
| Loader.BaseLoader.LoadOperands | runtime/onert/frontend/base_loader/include/base_loader.h:311-448 | succeeds exactly when every tensor is accepted, and then operand i is TensorOperand of tensor i and tensor i maps to operand i. Whether or not it succeeds, released ranges are only appended to, never for an in-memory model, and no recorded name is replaced |
| Loader.BaseLoader.LoadOperators | runtime/onert/frontend/base_loader/include/base_loader.h:1536-1543 | succeeds exactly when LoadAll gives a body for the operators, and the graph then holds exactly that body |
| Loader.BaseLoader.LoadSubgraph | runtime/onert/frontend/base_loader/include/base_loader.h:1536-1543 | corrected (through LoadOperation): succeeds exactly when SubgraphBody gives a body, and the new graph holds exactly that body. Operand i is TensorOperand of tensor i, and operation j is what ExpectedLoad gives for operator j. Inputs and outputs are mapped through the identity table. The release list and the name table are only extended, as in LoadOperands |
| Loader.BaseLoader.LoadModel | runtime/onert/frontend/base_loader/include/base_loader.h:1525-1544 | corrected (through LoadSubgraph): succeeds exactly when every serialized subgraph has a body. Serialized subgraph k is then stored under index k, as a distinct new graph holding that body. Nothing is published on failure. An in-memory model releases nothing, and names recorded earlier survive |
| DynamicTensors.AddPlan | runtime/onert/core/src/backend/cpu_common/DynamicTensorManager.cc:133-146 | x joins op's set, which is created when absent; other operations' sets are unchanged |
| DynamicTensors.AddPlanIdempotent | runtime/onert/core/src/backend/cpu_common/DynamicTensorManager.cc:133-146 | planning the same release twice is planning it once |
| DynamicTensors.AddPlanCommutes | runtime/onert/core/src/backend/cpu_common/DynamicTensorManager.cc:133-146 | the order of planning calls does not matter |
| DynamicTensors.ReleasePlanned | runtime/onert/core/src/backend/cpu_common/DynamicTensorManager.cc:154-163 | stops, with ok false, exactly when a planned operand is not registered (the `at` throw); what it released is then part of the plan, and otherwise the whole plan; one deallocation per released dynamic operand, as a multiset, and none for static ones |
| DynamicTensors.ReleaseKeepsValid | runtime/onert/core/src/backend/cpu_common/DynamicTensorManager.cc:148-164 | releasing blocks while dropping the tensors' references keeps every dynamic buffer live |
| DynamicTensors.DynamicTensorManager.constructor | runtime/onert/core/src/backend/cpu_common/DynamicTensorManager.cc:28-32 | the given registry, with an empty memory manager and no plans |
| DynamicTensors.DynamicTensorManager.ApplyShapeAsWritten | runtime/onert/core/src/backend/cpu_common/DynamicTensorManager.cc:34-82 | the four branches, as written: a tensor that was not dynamic, or has no buffer, gets the shape, the dynamic flag and one allocation of the new size. A different size gives one deallocation, then one allocation. The same size changes nothing, not even the shape |
| DynamicTensors.DynamicTensorManager.ApplyShape | runtime/onert/core/src/backend/cpu_common/DynamicTensorManager.cc:34-82 | corrected: as written, except that the same size keeps the block and sets the shape; keeps the manager valid |
| DynamicTensors.DynamicTensorManager.Allocate | runtime/onert/core/src/backend/cpu_common/DynamicTensorManager.cc:85-111 | from any state: a missing buffer gets one allocation; a size change gives one deallocation, then one allocation; the same size changes nothing; the dynamic flag is untouched; validity is kept when it held |
| DynamicTensors.DynamicTensorManager.BuildTensor | runtime/onert/core/src/backend/cpu_common/DynamicTensorManager.cc:113-120 | from any state: an unregistered index gets exactly one new entry, with no buffer; validity is kept when it held |
| DynamicTensors.DynamicTensorManager.ChangeShape | runtime/onert/core/src/backend/cpu_common/DynamicTensorManager.cc:123-131 | from any state: sets the shape and the dynamic flag and nothing else; validity is kept when it held |
| DynamicTensors.DynamicTensorManager.PlanDealloc | runtime/onert/core/src/backend/cpu_common/DynamicTensorManager.cc:133-146 | the plan table becomes AddPlan of the old one |
| DynamicTensors.DynamicTensorManager.DeallocInputAsWritten | runtime/onert/core/src/backend/cpu_common/DynamicTensorManager.cc:148-164 | nothing without a plan. A planned operand that is not registered gives ok false (the `at` throw), after deallocating part of the plan. Otherwise the calls added are exactly one deallocation per planned dynamic operand. The tensors keep their buffers |
| DynamicTensors.DynamicTensorManager.DeallocInput | runtime/onert/core/src/backend/cpu_common/DynamicTensorManager.cc:148-164 | corrected: the same calls and the same failure, and the released tensors drop their blocks, so a valid manager stays valid |
| DynamicTensors.DynamicTensorManager.DeallocSubgraphOutputAsWritten | runtime/onert/core/src/backend/cpu_common/DynamicTensorManager.cc:166-174 | an unregistered index gives ok false and changes nothing (the `at` throw); otherwise one deallocation exactly when the tensor is dynamic, none otherwise |
| DynamicTensors.DynamicTensorManager.DeallocSubgraphOutput | runtime/onert/core/src/backend/cpu_common/DynamicTensorManager.cc:166-174 | corrected: the same, and the tensor drops its block, so a valid manager stays valid |
| DynamicTensors.StaleBlockAfterRelease | runtime/onert/core/src/backend/cpu_common/DynamicTensorManager.cc:148-164 | as written, a tensor released after its last use and then reshaped to the same size holds a block the memory manager has freed |
| DynamicTensors.FreshBlockAfterRelease | runtime/onert/core/src/backend/cpu_common/DynamicTensorManager.cc:148-164 | with the corrected release, the same run leaves the tensor with a live block |
| DynamicTensors.SameSizeShapeKeptAsWritten | runtime/onert/core/src/backend/cpu_common/DynamicTensorManager.cc:78-80 | as written, a dynamic FLOAT32 tensor of shape [2, 3] given the shape [3, 2] keeps [2, 3] |
| DynamicTensors.SameSizeShapeApplied | runtime/onert/core/src/backend/cpu_common/DynamicTensorManager.cc:66-81 | corrected, the tensor takes [3, 2] and keeps its block, and only the first allocation is ever made |

Every method of `DynamicTensorManager` also ensures `DynamicKept`: no tensor is unregistered and no dynamic flag is cleared. `ApplyShape`, `Allocate`, `BuildTensor`, `ChangeShape`, `DeallocInput` and `DeallocSubgraphOutput` need no `Valid` to be called, and keep it when it held before. `Valid` says that every tensor holding a dynamic block holds the live block the memory manager recorded for its index.

## Left out

- File and memory-mapping I/O (`loadFromFile`, `loadFromBuffer`, `mmap`, `munmap`, `close`) is not modelled. The loader takes the model as a record plus a flag saying whether it came from a file. A release is recorded as a byte range. A failing `munmap` is only logged, so it is not modelled.
- The flatbuffer verifier, `GetModel` and flexbuffers decoding are foreign libraries. Custom options are their raw bytes plus an already-decoded attribute map. A missing key reads as flexbuffers' null, which reads as false, 0 and the string "null". `loadModel` ignores the verifier's result, and the model does the same. Nothing here establishes that a rejected buffer fails to load.
- Floating-point values (scale, beta, alpha, epsilon, activation bounds) are carried as raw 32-bit patterns. Nothing numeric is claimed about them.
- Indexing the serialized model without a check (opcode, buffer and tensor indices) is a precondition (`ModelRefsOk`). A null options table that the source would dereference is modelled as a `MissingOptions` failure.
- Exceptions are `Failure` results. The loader's partially built state after a failure is described only where it matters (operands in `LoadOperand`; operations in the custom loaders and `LoadArgMax`).
- flexbuffers' conversions between value kinds are reduced: `AsBool`, `AsInt8`, `AsFloat` and `AsString` read a value of an unrelated kind (a float as a boolean, a string as an integer) as false, 0, 0.0 or the empty string, where flexbuffers would convert it.
- The rows for `LoadOperation`, `LoadSubgraph` and `LoadModel` describe the corrected loader. As written, an Einsum or FusedBatchNormV3 with the wrong input count adds two operations (see `LoadCustomAsWritten`). An ARG_MAX with an INT64 axis fails and aborts the whole load (see `ArgMaxInt64AxisAlwaysRejected`).
- `allowOptionalInputTensor` and `loadSubgraph` are pure virtual functions whose definitions are not part of this model. The first is a set of opcodes fixed at construction. The second uses the order tensors, then inputs and outputs, then operators.
- `VERBOSE` logging is not modelled. `_tensor_names` is a map from operand index to name and nothing more.
- The zero-point range `assert` (a debug-only check) is not modelled; the release-build narrowing to int32 is (`ToInt32`).
- Loader.BaseLoader.LoadResizeBilinear, LoadResizeNearestNeighbor and LoadSplit: the source reads the first elements of a constant without checking its length, which is undefined for a short constant. The model fails with `ConstantTooShort` instead.
- Loader.BaseLoader.LoadCustomFallback: the source dereferences a null `custom_options()` when it builds the generic Custom operation. The model fails with `NullCustomOptions` instead.
- The `ir::Graph`, `Tensor`, `DynamicMemoryManager` and `sizeOfDataType` definitions are not part of this model.
  - The graph is modelled by the effect of its methods.
  - The memory manager is a map from operand index to its live block, plus a log of allocate and deallocate calls.
  - Element sizes are the standard widths.
- `Tensor::setBuffer` and `overwriteBuffer` both set the tensor's buffer reference; their ownership difference is not modelled. A not-yet-dynamic tensor's previous (static) buffer is simply replaced, as the source's TODO notes.
- LoaderParams.SqueezeParams: absent squeeze dims leave `ndim` uninitialised in the source; the model uses 0.
- The executor (`ExecutorBase.h`, declarations only) and the ONNX and moco importers and tests are not part of this model.
- DynamicTensors.DynamicTensorManager.constructor requires a registry that holds no dynamic blocks yet, which is what a fresh memory manager implies.
- DynamicTensors.DynamicTensorManager.ApplyShape, ApplyShapeAsWritten, Allocate and ChangeShape require a registered index: the source asserts that the tensor it looks up exists. BuildTensor requires an unregistered one, as its own assertion does.
- The `at` throws of `deallocInput` and `deallocSubgraphOutput` on an unregistered operand are `ok == false` results; the exception itself is not modelled.

## Findings

| source | as written | input that shows it | evidently intended | confidence | as-written member | corrected member |
|---|---|---|---|---|---|---|
| runtime/onert/frontend/base_loader/include/base_loader.h:1144-1148 | loadEinsum and loadFusedBatchNorm add their operation before checking the input count. loadCustom's catch then adds a generic Custom operation as well | custom "Einsum" with options and 3 inputs | reject before adding, so exactly one operation (the generic one) is added | high, not executed | Loader.BaseLoader.LoadCustomAsWritten | Loader.BaseLoader.LoadCustom |
| runtime/onert/frontend/base_loader/include/base_loader.h:1233-1235 | the axis must have operandSize() == 4 and type INT32 or INT64; an INT64 element is 8 bytes, so no INT64 axis passes | ARG_MAX whose axis operand has shape [1] and type INT64 | one element of type INT32 or INT64 | high, not executed | LoaderParams.ArgMaxInt64ScalarAxis | Loader.BaseLoader.LoadArgMax |
| runtime/onert/core/src/backend/cpu_common/DynamicTensorManager.cc:148-174 | deallocation frees the memory manager's block but leaves the tensor's buffer set. A later same-size applyShape then takes the "buffer present" branch and keeps the freed block (assuming the tensor's buffer pointer stays non-null after release; Tensor is not part of this model) | FLOAT32 tensor [2]: applyShape([2]), deallocInput of its plan, applyShape([2]) | drop the tensor's buffer when its block is released | medium, not executed | DynamicTensors.StaleBlockAfterRelease | DynamicTensors.DynamicTensorManager.DeallocInput |
| runtime/onert/core/src/backend/cpu_common/DynamicTensorManager.cc:78-80 | when the byte size is unchanged, nothing is done, so the new shape is never set | dynamic FLOAT32 tensor [2, 3] with a block, applyShape([3, 2]) | keep the block but set the shape | high, not executed | DynamicTensors.SameSizeShapeKeptAsWritten | DynamicTensors.DynamicTensorManager.ApplyShape |
