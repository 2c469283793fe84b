# Graph construction for the Intel NPU acceleration library, in Dafny

This project models how the library builds a network for the NPU. It has three parts.

- **The op registry** (`ops.dfy`, module `Ops`) models `get_supported_ops()`. This is a constant table of 41 frozen
  `SupportedOp(name, inputs, parameters)` records. The model proves:
  - the names are pairwise distinct;
  - every arity is 1, 2 or 4;
  - the listed operations carry the listed scalar parameter types;
  - `transpose`, `squeeze` and `unsqueeze`, which the tensor front end emits, are not in the table.
- **The native graph store** (`graph.dfy`, module `Graph`) models the C++ `ModelFactory` as the class
  `Graph.Factory`.
  - It has two append-only fields, `parameters` and `operations`, each a `seq<Node>`, plus the field `model`.
  - A node is an opaque record: its kind, its ordered inputs (`NodeRef`, an index into one of the two lists), the
    attributes fixed when it is built, and the shape and element-type code the backend reports for it.
  - Each builder appends exactly one node and keeps the invariant `Valid()`: every operation reads only parameters
    and earlier operations.
  - `Compile` closes the graph over the parameters, in creation order.
- **The tensor front end** (`tensor.dfy`, module `Tensors`) models `Tensor` as a datatype holding a factory and a
  node.
  - Reading `Shape`, `Dtype` and `Len` asks the factory about the node.
  - Every operator goes through `GenerateOp`. It refuses operands that do not share exactly one factory, and does so
    before touching any factory. It then makes one by-name factory call (`Dispatch`), which appends one node.
  - `T` computes the axis order `TransposeOrder`. Lemmas prove that this order is a permutation and an involution,
    and that it exchanges exactly the last two dimensions.

`wrappers.dfy` holds the shared `Option` and `Result` types.

There are three places where the code does not do what its docstrings or its evident intent say:
- `__sub__` builds the negation before the ownership check. The model follows the code (`Tensors.Tensor.Sub`) and
  gives the checked version beside it (`Tensors.Tensor.SubChecked`); see "## Findings".
- `__len__` uses `np.product`, which yields the float `1.0` for a scalar shape. The model follows the code
  (`Tensors.Tensor.LenAsWritten`) and gives the intended count beside it (`Tensors.Tensor.Len`); see "## Findings".
- The operators call `__generate_op` from inside the class body. Name mangling turns that call into
  `_Tensor__generate_op` (tensor.py:127 against tensor.py:247), a name that is not defined. As written, every operator
  that reaches that call raises `NameError`. `T` on a tensor of rank below 2 raises `IndexError` at tensor.py:210
  first. Here the model follows the evident intent, not the code: the call reaches the module-level function.

Two things come from outside the model:
- The backend's shape and type inference for a new operation node is a function value, `Factory.infer`, given to the
  constructor. It is not modelled further. Parameters and constants carry the shape and type they were built with.
- Floating-point attributes (clamp bounds, alpha, bias, constant values) are recorded as `real` values and never
  computed with.

## Model

| member | source | states |
|---|---|---|
| Ops.TableShape | intel_npu_acceleration_library/backend/ops.py:34-82 | the table has 41 entries and no two entries share a name |
| Ops.Find | intel_npu_acceleration_library/backend/ops.py:34-82 | a lookup by name returns an entry of the table carrying that name, and returns nothing exactly when no entry carries it |
| Ops.FindsFirstOccurrence | intel_npu_acceleration_library/backend/ops.py:34-82 | an entry whose name no earlier entry carries is the one a lookup by that name returns |
| Ops.FindsOwnEntry | intel_npu_acceleration_library/backend/ops.py:34-82 | in a table with distinct names, every entry is found by its own name |
| Ops.NotListed | intel_npu_acceleration_library/backend/ops.py:34-82 | a name that no entry carries is not found |
| Ops.MatmulEntry | intel_npu_acceleration_library/backend/ops.py:35 | `matmul` takes two inputs and no parameters |
| Ops.EltwiseAddEntry | intel_npu_acceleration_library/backend/ops.py:36 | `eltwise_add` takes two inputs and no parameters |
| Ops.EltwiseMulEntry | intel_npu_acceleration_library/backend/ops.py:37 | `eltwise_mul` takes two inputs and no parameters |
| Ops.EltwiseDivEntry | intel_npu_acceleration_library/backend/ops.py:38 | `eltwise_div` takes two inputs and no parameters |
| Ops.ClampEntry | intel_npu_acceleration_library/backend/ops.py:44-46 | `clamp` takes one input and two float parameters |
| Ops.EluEntry | intel_npu_acceleration_library/backend/ops.py:50 | `elu` takes one input and one float parameter |
| Ops.GrnEntry | intel_npu_acceleration_library/backend/ops.py:53 | `grn` takes one input and one float parameter |
| Ops.NegativeEntry | intel_npu_acceleration_library/backend/ops.py:56 | `negative` takes one input and no parameters |
| Ops.AttentionOp | intel_npu_acceleration_library/backend/ops.py:77-81 | attention takes four inputs and one bool parameter |
| Ops.OtherOpsUnary | intel_npu_acceleration_library/backend/ops.py:39-76 | every entry outside the eight special ones takes one input and has the default empty parameters, and every arity in the table is 1, 2 or 4 |
| Ops.NotListedTranspose | intel_npu_acceleration_library/backend/ops.py:34-82 | no entry is named `transpose` |
| Ops.NotListedSqueeze | intel_npu_acceleration_library/backend/ops.py:34-82 | no entry is named `squeeze` |
| Ops.NotListedUnsqueeze | intel_npu_acceleration_library/backend/ops.py:34-82 | no entry is named `unsqueeze` |
| Graph.ToPtrdiff | include/intel_npu_acceleration_library/nn_factory.h:111-112 | a `size_t` becomes a signed 64-bit value: the result is in range, agrees with the input modulo 2^64, and equals the input below 2^63 |
| Graph.ToOffsets | include/intel_npu_acceleration_library/nn_factory.h:111-112 | the padding vector keeps its length, each entry is converted to `ptrdiff_t`, and paddings below 2^63 come through unchanged |
| Graph.ParamRefs | include/intel_npu_acceleration_library/nn_factory.h:668-669 | the model's inputs are the first `n` parameters, the i-th at position i |
| Graph.Factory.constructor | include/intel_npu_acceleration_library/nn_factory.h:31-33 | a new factory has no parameters, no operations and no model, and is valid |
| Graph.Factory.InputMetas | include/intel_npu_acceleration_library/nn_factory.h:88 | a new node sees its inputs' metadata in input order |
| Graph.Factory.Push | include/intel_npu_acceleration_library/nn_factory.h:59 | `push_back` appends the node at the end of `operations`, returns a handle to it and keeps the graph valid |
| Graph.Factory.Operation | include/intel_npu_acceleration_library/nn_factory.h:88-90 | appends the node built over the given inputs, with their metadata as the backend infers it |
| Graph.Factory.NewParameter | include/intel_npu_acceleration_library/nn_factory.h:42-46 | appends exactly one parameter with the given shape and type, leaves `operations` unchanged, and returns that node |
| Graph.Factory.NewConstant | include/intel_npu_acceleration_library/nn_factory.h:57-61 | appends one constant with the given shape, type and values, and leaves `parameters` unchanged |
| Graph.Factory.NewConstantFill | include/intel_npu_acceleration_library/nn_factory.h:72-76 | appends one constant filled with one value, and leaves `parameters` unchanged |
| Graph.Factory.NewMatMul | include/intel_npu_acceleration_library/nn_factory.h:87-91 | appends one matrix product of `(input, weights)` in that order; the flags default to `trA = false`, `trB = true` |
| Graph.Factory.NewConvolution | include/intel_npu_acceleration_library/nn_factory.h:105-124 | appends exactly one node, a grouped convolution if and only if `groups > 1`, with the paddings converted to signed offsets |
| Graph.Factory.NewGather | include/intel_npu_acceleration_library/nn_factory.h:135-140 | appends one gather of `(input, indices, axis)`; `batch_dims` defaults to 0 |
| Graph.Factory.NewReshape | include/intel_npu_acceleration_library/nn_factory.h:149-153 | appends one reshape, always with `special_zero` set |
| Graph.Factory.NewTranspose | include/intel_npu_acceleration_library/nn_factory.h:162-166 | appends one transpose of `(input, input_order)` |
| Graph.Factory.Activation | include/intel_npu_acceleration_library/nn_factory.h:174-590 | each unary builder appends one node; gelu records the tanh approximation, round records half-to-even and softmax records axis -1, whatever the input |
| Graph.Factory.NewClamp | include/intel_npu_acceleration_library/nn_factory.h:236-240 | appends one clamp recording both bounds |
| Graph.Factory.NewElu | include/intel_npu_acceleration_library/nn_factory.h:273-277 | appends one elu recording alpha |
| Graph.Factory.NewGrn | include/intel_npu_acceleration_library/nn_factory.h:322-326 | appends one grn recording the bias |
| Graph.Factory.ConvertTo | include/intel_npu_acceleration_library/nn_factory.h:598-602 | appends one conversion recording the target type |
| Graph.Factory.NewEltwise | include/intel_npu_acceleration_library/nn_factory.h:611-641 | add, multiply and divide each append one node with inputs `(x1, x2)` in argument order |
| Graph.Factory.NewScaledDotProductAttention | include/intel_npu_acceleration_library/nn_factory.h:653-660 | appends one attention node over `(query, key, value, attn_mask)` in order, with the causal flag |
| Graph.Factory.Compile | include/intel_npu_acceleration_library/nn_factory.h:667-672 | the model is named "NNFactory", its single result is the given node, and its inputs are exactly the parameters in creation order (the i-th input is the i-th parameter node); nothing is appended |
| Graph.InputsHeld | include/intel_npu_acceleration_library/nn_factory.h:21-22 | in a valid factory, every input of every node is itself a node of that factory |
| Tensors.DtypeOf | intel_npu_acceleration_library/backend/tensor.py:92-115 | a type code is decoded if and only if it is between 2 and 11, and then to the type whose code it is; every other code raises "Unsupported dtype" |
| Tensors.DtypeRoundTrip | intel_npu_acceleration_library/backend/tensor.py:94-113 | decoding the code of a type gives that type back, and no two types share a code |
| Tensors.ProductAppend | intel_npu_acceleration_library/backend/tensor.py:199 | the element count of a shape extended by one dimension is the old count times that dimension |
| Tensors.ProductZeroIff | intel_npu_acceleration_library/backend/tensor.py:199 | a shape holds no element if and only if one of its dimensions is 0 |
| Tensors.ProductSwapLast | intel_npu_acceleration_library/backend/tensor.py:199 | exchanging the last two dimensions keeps the element count |
| Tensors.TransposeOrder | intel_npu_acceleration_library/backend/tensor.py:209-210 | the order exists if and only if the rank is at least 2; it has one entry per axis and swaps only positions n-2 and n-1; otherwise the index is out of range |
| Tensors.Permute | intel_npu_acceleration_library/backend/tensor.py:211 | the i-th dimension after permuting is the dimension the order names at position i |
| Tensors.TransposeOrderPermutes | intel_npu_acceleration_library/backend/tensor.py:209-210 | the order names only axes, names no axis twice, and names every axis |
| Tensors.TransposeOrderInvolution | intel_npu_acceleration_library/backend/tensor.py:209-211 | applying the order twice restores the shape |
| Tensors.TransposeOrderSwapsLastTwo | intel_npu_acceleration_library/backend/tensor.py:209-211 | the order exchanges the last two dimensions and keeps the others |
| Tensors.TransposeKeepsProduct | intel_npu_acceleration_library/backend/tensor.py:209-211 | transposing keeps the element count |
| Tensors.RegistryAgreement | intel_npu_acceleration_library/backend/ops.py:34-82 | the five operator names the registry lists carry the arity the front end calls them with; transpose, squeeze and unsqueeze are not listed |
| Tensors.Tensor.Shape | intel_npu_acceleration_library/backend/tensor.py:81-82 | the shape has `op_shape_size(node)` entries, and its i-th entry is `op_shape(node, i)` |
| Tensors.Tensor.Dtype | intel_npu_acceleration_library/backend/tensor.py:92-115 | the type is defined if and only if the node's code is between 2 and 11, and then its code is the node's code; any other code raises "Unsupported dtype" |
| Tensors.Tensor.Len | intel_npu_acceleration_library/backend/tensor.py:199 | the element count is 1 for a scalar and is 0 if and only if some dimension is 0 |
| Tensors.Tensor.LenAsWritten | intel_npu_acceleration_library/backend/tensor.py:199 | `len` fails if and only if the shape is empty, and otherwise equals the element count |
| Tensors.ScalarLen | intel_npu_acceleration_library/backend/tensor.py:199 | a scalar holds one element, yet `len` as written refuses it |
| Tensors.Tensor.Add | intel_npu_acceleration_library/backend/tensor.py:127 | on one factory, `a + b` appends exactly one `eltwise_add` of `(a, b)` and returns a handle to it; across factories it fails and changes neither factory |
| Tensors.Tensor.Mul | intel_npu_acceleration_library/backend/tensor.py:151 | the same for `*` and `eltwise_mul` |
| Tensors.Tensor.Div | intel_npu_acceleration_library/backend/tensor.py:163 | the same for `/` and `eltwise_div` |
| Tensors.Tensor.MatMul | intel_npu_acceleration_library/backend/tensor.py:244 | the same for `@` and `matmul`, which records the native default flags `trA = false`, `trB = true` |
| Tensors.Tensor.TwoOperands | intel_npu_acceleration_library/backend/tensor.py:127 | a binary operator passes `[self, other]` in that order |
| Tensors.Tensor.Neg | intel_npu_acceleration_library/backend/tensor.py:172 | `-a` appends exactly one `negative` of `a` to a's factory |
| Tensors.Tensor.Squeeze | intel_npu_acceleration_library/backend/tensor.py:220 | appends exactly one `squeeze` of the tensor |
| Tensors.Tensor.Unsqueeze | intel_npu_acceleration_library/backend/tensor.py:232 | appends exactly one `unsqueeze` of the tensor, recording `axis` unchanged |
| Tensors.Tensor.T | intel_npu_acceleration_library/backend/tensor.py:209-211 | below rank 2 it fails and appends nothing; otherwise it appends exactly one `transpose` with the order that swaps the last two axes |
| Tensors.Tensor.OneOperand | intel_npu_acceleration_library/backend/tensor.py:172 | a one-operand operator passes `[self]` and always succeeds |
| Tensors.Tensor.Sub | intel_npu_acceleration_library/backend/tensor.py:139 | on one factory, `a - b` appends exactly two nodes, `negative(b)` and then `eltwise_add(a, that)`; across factories it fails, yet b's factory has gained the negation |
| Tensors.Tensor.SubChecked | intel_npu_acceleration_library/backend/tensor.py:139 | the same two nodes on one factory; across factories it fails and changes neither factory |
| Tensors.Nodes | intel_npu_acceleration_library/backend/tensor.py:271 | the node handles of the operands, in operand order |
| Tensors.Metas | intel_npu_acceleration_library/backend/tensor.py:271 | the metadata of the operands' nodes, in operand order |
| Tensors.MetasOfOneFactory | intel_npu_acceleration_library/backend/tensor.py:270-271 | operands of one factory give nodes that this factory holds, with the metadata the operands report |
| Tensors.SingleFactory | intel_npu_acceleration_library/backend/tensor.py:267-268 | the factories form a set of exactly one element if and only if there is an operand and all operands share the first one's factory; so an empty operand list is refused |
| Tensors.GenerateOp | intel_npu_acceleration_library/backend/tensor.py:247-275 | fails with the ownership error, changing nothing, unless there is exactly one factory; otherwise makes one call on the first operand's factory with the nodes in operand order followed by the extra arguments, appends exactly one node, and returns a handle to it |
| Tensors.Dispatch | intel_npu_acceleration_library/backend/tensor.py:273 | the by-name call succeeds if and only if the named builder takes those operands and arguments; then it appends exactly one node, and otherwise it appends nothing |
| Tensors.CreateTensor | intel_npu_acceleration_library/backend/tensor.py:26-40 | appends one parameter, and the returned tensor reads back exactly the given shape and type |
| Tensors.CrossFactorySubtraction | intel_npu_acceleration_library/backend/tensor.py:139 | subtracting tensors of two fresh factories fails and leaves one node behind |
| Tensors.CrossFactorySubtractionChecked | intel_npu_acceleration_library/backend/tensor.py:139 | the checked subtraction fails and leaves no node behind |
| Tensors.SameFactorySubtraction | intel_npu_acceleration_library/backend/tensor.py:139 | on one factory, `a - b` builds `negative(b)` and then `eltwise_add(a, negative(b))` |

## Left out

- Ops.TableShape: the `lru_cache` memoisation is not modelled. A Dafny function gives equal results on every call, and frozen records are datatype values that cannot change. The model does not capture that the cached list object is shared and mutable.
- The native layer is modelled only over inputs that belong to the same factory: a `NodeRef` can only name this factory's own nodes. The C++ builders take any `ov::op::Op*` (nn_factory.h:87-88, 135-137, 611-612) and nothing there rejects a node of another `ModelFactory`; the only ownership check is the Python one (tensor.py:267-268).
- Numeric semantics of every OpenVINO operation: nodes are opaque records. The backend's shape and type inference is the function value `Factory.infer`.
- Floating point: float attributes are recorded as `real` values.
- `compile_model`, the inference runtime, the device string and the profiling flag. The constructor takes them and ignores them.
- The `backend_lib` ctypes boundary: `op_shape_size`, `op_shape` and `op_dtype` are reads of the node record.
- The Python `NNFactory` is not part of this model. This covers:
  - how `parameter` turns a NumPy or NPU type into a code (the model uses the inverse of the `dtype` table);
  - how names such as `abs_act` or `convert_to_fp16` reach the native builders;
  - what `transpose`, `squeeze` and `unsqueeze` do with their extra argument.
- Tensors.Dispatch: the by-name `__getattribute__` call is a closed datatype of the eight names the front end uses. `transpose`, `squeeze` and `unsqueeze` each append one node that records the axis order or the axis as an attribute. The native `transpose` instead takes the order as a node, and producing that node would be the unmodelled Python factory's job. A call with the wrong operands or arguments fails with a `TypeError`-like error before building anything.
- Tensors.Tensor.Len: the element count is an unbounded integer. NumPy's 64-bit wrap-around on very large shapes is not modelled.
- Tensors.CreateTensor: shapes are sequences of `size_t`. A negative Python dimension that ctypes would wrap is not modelled.
- Name mangling of `__generate_op` inside the class (tensor.py:127 against tensor.py:247) is not modelled. The operators call the module-level function, as evidently intended.
- `__repr__` and `__str__` are string formatting only.
- `qmatmul.py` is a client of a graph API that is not part of this model. Its three shape checks all test `X` (qmatmul.py:53-64), so `W` and `scale` are never validated.
- The float comparison tests in `test_layers.py` and `test_sdpa.py`.
- Concurrency: graph construction is single-threaded.
- `np.bool` and `np.product` are not available in every NumPy release; the model follows NumPy releases before 1.24, which have both.

## Findings

| source | as written | input that shows it | evidently intended | confidence | as-written member | corrected member |
|---|---|---|---|---|---|---|
| intel_npu_acceleration_library/backend/tensor.py:139 | with the call resolved to the module-level function, `__generate_op([self, -other], ...)` evaluates `-other` first, which appends a `negative` node to `other`'s factory; only then does the ownership check raise `ValueError` | `a - b` with `a` and `b` from two different factories (Tensors.CrossFactorySubtraction: one node is left behind) | a refused subtraction changes no factory, like every other refused operator | medium; not executed | Tensors.Tensor.Sub | Tensors.Tensor.SubChecked |
| intel_npu_acceleration_library/backend/tensor.py:199 | `np.product(self.shape)` returns the float `1.0` for an empty shape, and `len()` refuses a non-integer with `TypeError` | `len(t)` for a tensor `t` of shape `[]` (Tensors.ScalarLen) | a scalar has length 1 | medium; not executed | Tensors.Tensor.LenAsWritten | Tensors.Tensor.Len |
