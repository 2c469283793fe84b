/** The native graph store: a model factory that owns two append-only lists of
    graph nodes, the network's parameters (its inputs) and its operations, and
    that turns them into a model with one result.

    OpenVINO operations are kept as opaque records: what kind of node, which
    nodes feed it and in what order, the attributes fixed at construction, and
    the shape and element-type code the backend reports for it. Their numeric
    meaning is not modelled. */
module Graph {

  import opened Wrappers

  const SizeLimit: int := 0x1_0000_0000_0000_0000
  const PtrdiffLimit: int := 0x8000_0000_0000_0000

  /** A C++ `size_t`. */
  type SizeT = x: int | 0 <= x < SizeLimit

  /** A pointer to a node the factory created: the index of a parameter or of an operation. */
  datatype NodeRef = ParamRef(index: nat) | OpRef(index: nat)

  /** What the backend reports about a node: its shape and its element-type code. */
  datatype Meta = Meta(shape: seq<SizeT>, dtype: int)

  datatype UnaryOp =
    | Abs | Acos | Asin | Atan | Ceiling | Cos | Cosh | Erf | Exp | Floor | Gelu | Log
    | Negative | Relu | Sigmoid | Sign | Sin | Sinh | Sqrt | Tan | Tanh | Acosh | Asinh
    | Atanh | HSwish | Mish | SoftPlus | HSigmoid | Round | SoftSign | Swish | Softmax

  datatype EltwiseOp = Add | Multiply | Divide

  datatype GeluApproximation = GeluErf | GeluTanh

  datatype RoundMode = HalfToEven | HalfAwayFromZero

  /** The node classes the factory instantiates. */
  datatype Kind =
    | Parameter | Constant | MatMul | Convolution | GroupConvolution | Gather | Reshape
    | Transpose | Unary(op: UnaryOp) | Clamp | Elu | Grn | Convert | Eltwise(eop: EltwiseOp)
    | ScaledDotProductAttention | Squeeze | Unsqueeze

  /** Attributes fixed when a node is built. Floating-point values are recorded, never computed with. */
  datatype Attr =
    | Flag(b: bool)
    | Int(n: int)
    | Ints(ns: seq<int>)
    | Sizes(sizes: seq<SizeT>)
    | Offsets(offsets: seq<int>)
    | Float(x: real)
    | Values(xs: seq<real>)
    | Fill(value: real)
    | ElementType(code: int)
    | Approximation(mode: GeluApproximation)
    | Rounding(rounding: RoundMode)

  datatype Node = Node(kind: Kind, inputs: seq<NodeRef>, attrs: seq<Attr>, meta: Meta)

  /** A compiled network: its name, its single result and its inputs. */
  datatype Model = Model(name: string, result: NodeRef, inputs: seq<NodeRef>)

  /** The backend's shape and type inference for a new operation node, which is
      not part of this model: given the node's kind, attributes and the metadata
      of its inputs, it yields the new node's metadata. */
  type Inference = (Kind, seq<Attr>, seq<Meta>) -> Meta

  /** The attributes a unary builder fixes whatever its input. */
  function FixedAttrs(op: UnaryOp): seq<Attr> {
    match op
    case Gelu => [Approximation(GeluTanh)]
    case Round => [Rounding(HalfToEven)]
    case Softmax => [Int(-1)]
    case _ => []
  }

  /** The conversion of a `size_t` to `std::ptrdiff_t`: the same bits read as a
      signed 64-bit integer. */
  function ToPtrdiff(v: SizeT): (d: int)
    ensures -PtrdiffLimit <= d < PtrdiffLimit
    ensures (d - v) % SizeLimit == 0
    ensures v < PtrdiffLimit ==> d == v
  {
    if v < PtrdiffLimit then v else v - SizeLimit
  }

  /** The padding vectors as the convolution receives them. */
  function ToOffsets(vs: seq<SizeT>): (ds: seq<int>)
    ensures |ds| == |vs|
    ensures forall i | 0 <= i < |vs| :: ds[i] == ToPtrdiff(vs[i])
    ensures (forall i | 0 <= i < |vs| :: vs[i] < PtrdiffLimit) ==> ds == vs
  {
    seq(|vs|, i requires 0 <= i < |vs| => ToPtrdiff(vs[i]))
  }

  /** References to the first `n` parameters, in creation order. */
  function ParamRefs(n: nat): (rs: seq<NodeRef>)
    ensures |rs| == n
    ensures forall i | 0 <= i < n :: rs[i] == ParamRef(i)
  {
    seq(n, (i: nat) => ParamRef(i))
  }

  class Factory {
    var parameters: seq<Node>
    var operations: seq<Node>
    var model: Option<Model>
    const infer: Inference

    /** A factory for `device` (the device and profiling flag go to the
        inference runtime, which is not part of this model). */
    constructor (device: string, infer: Inference, profile: bool := false)
      ensures Valid()
      ensures parameters == [] && operations == [] && model == None
      ensures this.infer == infer
    {
      parameters := [];
      operations := [];
      model := None;
      this.infer := infer;
    }

    /** `r` points to a node this factory created. */
    predicate Holds(r: NodeRef)
      reads this
    {
      if r.ParamRef? then r.index < |parameters| else r.index < |operations|
    }

    predicate HoldsAll(rs: seq<NodeRef>)
      reads this
    {
      forall r <- rs :: Holds(r)
    }

    function Get(r: NodeRef): Node
      reads this
      requires Holds(r)
    {
      if r.ParamRef? then parameters[r.index] else operations[r.index]
    }

    /** `r` is a parameter or an operation created before operation `i`. */
    predicate Precedes(r: NodeRef, i: nat)
      reads this
    {
      if r.ParamRef? then r.index < |parameters| else r.index < i
    }

    /** Parameters are inputs-free parameter nodes, and every operation consumes
        only parameters and earlier operations, so the graph is acyclic and
        every recorded input exists. */
    ghost predicate Valid()
      reads this
    {
      && (forall i | 0 <= i < |parameters| :: parameters[i].kind == Parameter && parameters[i].inputs == [])
      && (forall i | 0 <= i < |operations| ::
            operations[i].kind != Parameter && forall r <- operations[i].inputs :: Precedes(r, i))
    }

    /** The backend's reads of a node: `op_shape_size`, `op_shape` and `op_dtype`. */
    function ShapeSize(r: NodeRef): nat
      reads this
      requires Holds(r)
    {
      |Get(r).meta.shape|
    }

    function ShapeDim(r: NodeRef, i: nat): SizeT
      reads this
      requires Holds(r) && i < ShapeSize(r)
    {
      Get(r).meta.shape[i]
    }

    function DtypeCode(r: NodeRef): int
      reads this
      requires Holds(r)
    {
      Get(r).meta.dtype
    }

    function InputMetas(rs: seq<NodeRef>): (ms: seq<Meta>)
      reads this
      requires HoldsAll(rs)
      ensures |ms| == |rs|
      ensures forall i | 0 <= i < |rs| :: ms[i] == Get(rs[i]).meta
    {
      if rs == [] then [] else [Get(rs[0]).meta] + InputMetas(rs[1..])
    }

    /** The operation node of `kind` over `inputs`, with the metadata the backend infers for it. */
    function Build(kind: Kind, inputs: seq<NodeRef>, attrs: seq<Attr>): Node
      reads this
      requires HoldsAll(inputs)
    {
      Node(kind, inputs, attrs, infer(kind, attrs, InputMetas(inputs)))
    }

    /** Appends one operation node; the `push_back` every builder ends with. */
    method Push(n: Node) returns (r: NodeRef)
      requires Valid() && n.kind != Parameter && HoldsAll(n.inputs)
      modifies this`operations
      ensures Valid()
      ensures operations == old(operations) + [n]
      ensures r == OpRef(|old(operations)|) && Holds(r)
    {
      r := OpRef(|operations|);
      operations := operations + [n];
    }

    /** Appends the operation node of `kind` over `inputs`. */
    method Operation(kind: Kind, inputs: seq<NodeRef>, attrs: seq<Attr>) returns (r: NodeRef)
      requires Valid() && kind != Parameter && HoldsAll(inputs)
      modifies this`operations
      ensures Valid()
      ensures operations == old(operations) + [old(Build(kind, inputs, attrs))]
      ensures r == OpRef(|old(operations)|) && Holds(r)
    {
      r := Push(Build(kind, inputs, attrs));
    }

    /** A new network input of the given shape and element type. */
    method NewParameter(shape: seq<SizeT>, dtype: int) returns (r: NodeRef)
      requires Valid()
      modifies this`parameters
      ensures Valid()
      ensures parameters == old(parameters) + [Node(Parameter, [], [], Meta(shape, dtype))]
      ensures operations == old(operations)
      ensures r == ParamRef(|old(parameters)|) && Holds(r) && Get(r).meta == Meta(shape, dtype)
    {
      r := ParamRef(|parameters|);
      parameters := parameters + [Node(Parameter, [], [], Meta(shape, dtype))];
    }

    /** A constant initialised from a list of values. */
    method NewConstant(dtype: int, shape: seq<SizeT>, values: seq<real>) returns (r: NodeRef)
      requires Valid()
      modifies this`operations
      ensures Valid()
      ensures operations == old(operations) + [Node(Constant, [], [Values(values)], Meta(shape, dtype))]
      ensures parameters == old(parameters)
      ensures r == OpRef(|old(operations)|) && Holds(r) && Get(r).meta == Meta(shape, dtype)
    {
      r := Push(Node(Constant, [], [Values(values)], Meta(shape, dtype)));
    }

    /** A constant whose every element is `value`. */
    method NewConstantFill(dtype: int, shape: seq<SizeT>, value: real) returns (r: NodeRef)
      requires Valid()
      modifies this`operations
      ensures Valid()
      ensures operations == old(operations) + [Node(Constant, [], [Fill(value)], Meta(shape, dtype))]
      ensures parameters == old(parameters)
      ensures r == OpRef(|old(operations)|) && Holds(r) && Get(r).meta == Meta(shape, dtype)
    {
      r := Push(Node(Constant, [], [Fill(value)], Meta(shape, dtype)));
    }

    /** A matrix product; by default the right-hand input is transposed and the left one is not. */
    method NewMatMul(input: NodeRef, weights: NodeRef, trA: bool := false, trB: bool := true) returns (r: NodeRef)
      requires Valid() && Holds(input) && Holds(weights)
      modifies this`operations
      ensures Valid()
      ensures operations == old(operations) + [old(Build(MatMul, [input, weights], [Flag(trA), Flag(trB)]))]
      ensures parameters == old(parameters)
      ensures r == OpRef(|old(operations)|) && Holds(r)
    {
      r := Operation(MatMul, [input, weights], [Flag(trA), Flag(trB)]);
    }

    /** A convolution: a grouped one exactly when `groups > 1`. The group count
        selects the node class and is not itself recorded. */
    method NewConvolution(input: NodeRef, weights: NodeRef, strides: seq<SizeT>, padsBegin: seq<SizeT>,
                          padsEnd: seq<SizeT>, dilations: seq<SizeT>, groups: SizeT := 1)
      returns (r: NodeRef)
      requires Valid() && Holds(input) && Holds(weights)
      modifies this`operations
      ensures Valid()
      ensures |operations| == |old(operations)| + 1 && operations[..|old(operations)|] == old(operations)
      ensures operations[|old(operations)|].kind == GroupConvolution <==> groups > 1
      ensures operations[|old(operations)|].kind == Convolution <==> groups <= 1
      ensures var kind := if groups > 1 then GroupConvolution else Convolution;
              operations[|old(operations)|]
                == old(Build(kind, [input, weights],
                             [Sizes(strides), Offsets(ToOffsets(padsBegin)), Offsets(ToOffsets(padsEnd)),
                              Sizes(dilations)]))
      ensures parameters == old(parameters)
      ensures r == OpRef(|old(operations)|) && Holds(r)
    {
      var attrs := [Sizes(strides), Offsets(ToOffsets(padsBegin)), Offsets(ToOffsets(padsEnd)), Sizes(dilations)];
      if groups > 1 {
        r := Operation(GroupConvolution, [input, weights], attrs);
        return;
      }
      r := Operation(Convolution, [input, weights], attrs);
    }

    /** Gathers slices of `input` at `indices` along `axis`; `batchDims` defaults to 0. */
    method NewGather(input: NodeRef, indices: NodeRef, axis: NodeRef, batchDims: SizeT := 0) returns (r: NodeRef)
      requires Valid() && Holds(input) && Holds(indices) && Holds(axis)
      modifies this`operations
      ensures Valid()
      ensures operations == old(operations) + [old(Build(Gather, [input, indices, axis], [Int(batchDims)]))]
      ensures parameters == old(parameters)
      ensures r == OpRef(|old(operations)|) && Holds(r)
    {
      r := Operation(Gather, [input, indices, axis], [Int(batchDims)]);
    }

    /** Reshapes `input` to the shape held by node `shape`, always with `special_zero` set. */
    method NewReshape(input: NodeRef, shape: NodeRef) returns (r: NodeRef)
      requires Valid() && Holds(input) && Holds(shape)
      modifies this`operations
      ensures Valid()
      ensures operations == old(operations) + [old(Build(Reshape, [input, shape], [Flag(true)]))]
      ensures parameters == old(parameters)
      ensures r == OpRef(|old(operations)|) && Holds(r)
    {
      r := Operation(Reshape, [input, shape], [Flag(true)]);
    }

    /** Permutes the axes of `input` by the order held in node `inputOrder`. */
    method NewTranspose(input: NodeRef, inputOrder: NodeRef) returns (r: NodeRef)
      requires Valid() && Holds(input) && Holds(inputOrder)
      modifies this`operations
      ensures Valid()
      ensures operations == old(operations) + [old(Build(Transpose, [input, inputOrder], []))]
      ensures parameters == old(parameters)
      ensures r == OpRef(|old(operations)|) && Holds(r)
    {
      r := Operation(Transpose, [input, inputOrder], []);
    }

    /** Any of the one-input activations (`abs` to `softmax`), with the attributes fixed for it:
        gelu uses the tanh approximation, round rounds half to even, softmax works on axis -1. */
    method Activation(op: UnaryOp, input: NodeRef) returns (r: NodeRef)
      requires Valid() && Holds(input)
      modifies this`operations
      ensures Valid()
      ensures operations == old(operations) + [old(Build(Unary(op), [input], FixedAttrs(op)))]
      ensures op == Gelu ==> operations[|old(operations)|].attrs == [Approximation(GeluTanh)]
      ensures op == Round ==> operations[|old(operations)|].attrs == [Rounding(HalfToEven)]
      ensures op == Softmax ==> operations[|old(operations)|].attrs == [Int(-1)]
      ensures parameters == old(parameters)
      ensures r == OpRef(|old(operations)|) && Holds(r)
    {
      r := Operation(Unary(op), [input], FixedAttrs(op));
    }

    /** Clamps `input` to the range from `min` to `max`. */
    method NewClamp(input: NodeRef, min: real, max: real) returns (r: NodeRef)
      requires Valid() && Holds(input)
      modifies this`operations
      ensures Valid()
      ensures operations == old(operations) + [old(Build(Clamp, [input], [Float(min), Float(max)]))]
      ensures parameters == old(parameters)
      ensures r == OpRef(|old(operations)|) && Holds(r)
    {
      r := Operation(Clamp, [input], [Float(min), Float(max)]);
    }

    method NewElu(input: NodeRef, alpha: real) returns (r: NodeRef)
      requires Valid() && Holds(input)
      modifies this`operations
      ensures Valid()
      ensures operations == old(operations) + [old(Build(Elu, [input], [Float(alpha)]))]
      ensures parameters == old(parameters)
      ensures r == OpRef(|old(operations)|) && Holds(r)
    {
      r := Operation(Elu, [input], [Float(alpha)]);
    }

    method NewGrn(input: NodeRef, bias: real) returns (r: NodeRef)
      requires Valid() && Holds(input)
      modifies this`operations
      ensures Valid()
      ensures operations == old(operations) + [old(Build(Grn, [input], [Float(bias)]))]
      ensures parameters == old(parameters)
      ensures r == OpRef(|old(operations)|) && Holds(r)
    {
      r := Operation(Grn, [input], [Float(bias)]);
    }

    /** Converts `input` to the element type with code `dtype`. */
    method ConvertTo(input: NodeRef, dtype: int) returns (r: NodeRef)
      requires Valid() && Holds(input)
      modifies this`operations
      ensures Valid()
      ensures operations == old(operations) + [old(Build(Convert, [input], [ElementType(dtype)]))]
      ensures parameters == old(parameters)
      ensures r == OpRef(|old(operations)|) && Holds(r)
    {
      r := Operation(Convert, [input], [ElementType(dtype)]);
    }

    /** `eltwise_add`, `eltwise_mul` and `eltwise_div`: the inputs are recorded as `(x1, x2)`. */
    method NewEltwise(op: EltwiseOp, x1: NodeRef, x2: NodeRef) returns (r: NodeRef)
      requires Valid() && Holds(x1) && Holds(x2)
      modifies this`operations
      ensures Valid()
      ensures operations == old(operations) + [old(Build(Eltwise(op), [x1, x2], []))]
      ensures parameters == old(parameters)
      ensures r == OpRef(|old(operations)|) && Holds(r)
    {
      r := Operation(Eltwise(op), [x1, x2], []);
    }

    /** Attention over `(query, key, value, attnMask)` in that order, with the causal flag. */
    method NewScaledDotProductAttention(query: NodeRef, key: NodeRef, value: NodeRef, attnMask: NodeRef,
                                        isCausal: bool)
      returns (r: NodeRef)
      requires Valid() && Holds(query) && Holds(key) && Holds(value) && Holds(attnMask)
      modifies this`operations
      ensures Valid()
      ensures operations
           == old(operations) + [old(Build(ScaledDotProductAttention, [query, key, value, attnMask], [Flag(isCausal)]))]
      ensures parameters == old(parameters)
      ensures r == OpRef(|old(operations)|) && Holds(r)
    {
      r := Operation(ScaledDotProductAttention, [query, key, value, attnMask], [Flag(isCausal)]);
    }

    /** Closes the graph: a model named "NNFactory" whose single result is `result`
        and whose inputs are exactly the parameters created so far, in creation
        order. Handing the model to the device compiler is not part of this model. */
    method Compile(result: NodeRef)
      requires Valid() && Holds(result)
      modifies this`model
      ensures Valid()
      ensures model == Some(Model("NNFactory", result, ParamRefs(|parameters|)))
      ensures |model.value.inputs| == |parameters|
      ensures forall i | 0 <= i < |parameters| ::
        Holds(model.value.inputs[i]) && Get(model.value.inputs[i]) == parameters[i]
      ensures parameters == old(parameters) && operations == old(operations)
    {
      model := Some(Model("NNFactory", result, ParamRefs(|parameters|)));
    }
  }

  /** Every input of a node in a valid factory is itself held by the factory. */
  lemma InputsHeld(f: Factory, r: NodeRef)
    requires f.Valid() && f.Holds(r)
    ensures f.HoldsAll(f.Get(r).inputs)
  {
    if r.OpRef? {
      forall x <- f.Get(r).inputs ensures f.Holds(x) {
        assert f.Precedes(x, r.index);
      }
    }
  }
}
