/** The Python tensor front end: a `Tensor` is a non-owning handle pairing a
    factory with one of its nodes. Reading a tensor's shape or element type
    asks the backend about the node; every operator builds exactly one new node
    in the shared factory and wraps it in a new handle. */
module Tensors {

  import opened Wrappers
  import Ops
  import opened Graph

  /** The element types a node may report. */
  datatype DType = Bool | BFloat16 | Float16 | Float32 | Float64 | Int4 | Int8 | Int16 | Int32 | Int64

  /** The exceptions the front end raises. */
  datatype Error =
    | OwnershipMismatch   // ValueError: operands from different factories, or no operand
    | UnsupportedDtype    // RuntimeError: a type code outside the table
    | IndexOutOfRange     // IndexError: transposing a tensor of rank below 2
    | CallMismatch        // TypeError: operands or extra arguments that the builder does not take
    | NotAnInteger        // TypeError: `len` given a floating-point element count

  /** The backend's code for each element type. */
  function Code(d: DType): int {
    match d
    case Bool => 2
    case BFloat16 => 3
    case Float16 => 4
    case Float32 => 5
    case Float64 => 6
    case Int4 => 7
    case Int8 => 8
    case Int16 => 9
    case Int32 => 10
    case Int64 => 11
  }

  /** The element type for a backend type code: defined exactly on the codes
      2 to 11, and inverse to `Code` there. */
  function DtypeOf(code: int): (r: Result<DType, Error>)
    ensures r.Success? <==> 2 <= code <= 11
    ensures r.Success? ==> Code(r.value) == code
    ensures r.Failure? ==> r.error == UnsupportedDtype
  {
    if code == 2 then Success(Bool)
    else if code == 3 then Success(BFloat16)
    else if code == 4 then Success(Float16)
    else if code == 5 then Success(Float32)
    else if code == 6 then Success(Float64)
    else if code == 7 then Success(Int4)
    else if code == 8 then Success(Int8)
    else if code == 9 then Success(Int16)
    else if code == 10 then Success(Int32)
    else if code == 11 then Success(Int64)
    else Failure(UnsupportedDtype)
  }

  /** Decoding the code of an element type gives that type back, so no two
      types share a code. */
  lemma DtypeRoundTrip(d: DType)
    ensures DtypeOf(Code(d)) == Success(d)
    ensures forall e: DType :: Code(e) == Code(d) ==> e == d
  {
  }

  /** The product of a list of dimensions; 1 for the empty list. */
  function Product(s: seq<nat>): nat {
    if s == [] then 1 else s[0] * Product(s[1..])
  }

  lemma {:induction false} ProductAppend(s: seq<nat>, x: nat)
    ensures Product(s + [x]) == Product(s) * x
  {
    if s != [] {
      assert (s + [x])[1..] == s[1..] + [x];
      ProductAppend(s[1..], x);
    }
  }

  /** A shape holds no element exactly when one of its dimensions is 0. */
  lemma {:induction false} ProductZeroIff(s: seq<nat>)
    ensures Product(s) == 0 <==> exists i | 0 <= i < |s| :: s[i] == 0
  {
    if s != [] {
      ProductZeroIff(s[1..]);
      if Product(s[1..]) == 0 {
        var i :| 0 <= i < |s[1..]| && s[1..][i] == 0;
        assert s[i + 1] == 0;
      }
      if exists i | 0 <= i < |s| :: s[i] == 0 {
        var i :| 0 <= i < |s| && s[i] == 0;
        if i > 0 {
          assert s[1..][i - 1] == 0;
        }
      }
    }
  }

  /** Exchanging the last two dimensions keeps the element count. */
  lemma ProductSwapLast(s: seq<nat>, a: nat, b: nat)
    ensures Product(s + [a, b]) == Product(s + [b, a])
  {
    assert s + [a, b] == (s + [a]) + [b];
    assert s + [b, a] == (s + [b]) + [a];
    ProductAppend(s + [a], b);
    ProductAppend(s, a);
    ProductAppend(s + [b], a);
    ProductAppend(s, b);
  }

  /** The axis at position `i` once the last two of `rank` axes are exchanged. */
  function SwapLastTwo(rank: nat, i: int): int {
    if i == rank - 2 then rank - 1 else if i == rank - 1 then rank - 2 else i
  }

  /** The axis order `T` passes: the identity on `rank` axes with the last two
      exchanged. Indexing position -2 of a shorter list fails. */
  function TransposeOrder(rank: nat): (r: Result<seq<int>, Error>)
    ensures r.Success? <==> rank >= 2
    ensures r.Failure? ==> r.error == IndexOutOfRange
    ensures r.Success? ==> |r.value| == rank
    ensures r.Success? ==> forall i | 0 <= i < rank :: r.value[i] == SwapLastTwo(rank, i)
  {
    if rank < 2 then Failure(IndexOutOfRange)
    else
      var order := seq(rank, i => i);
      Success(order[rank - 1 := order[rank - 2]][rank - 2 := order[rank - 1]])
  }

  /** The dimensions of `s` taken in the axis order `p`. */
  function Permute(s: seq<nat>, p: seq<int>): (t: seq<nat>)
    requires forall i | 0 <= i < |p| :: 0 <= p[i] < |s|
    ensures |t| == |p|
    ensures forall i | 0 <= i < |p| :: t[i] == s[p[i]]
  {
    seq(|p|, i requires 0 <= i < |p| => s[p[i]])
  }

  /** The order is a permutation of the axes: every entry is an axis, and no axis appears twice. */
  lemma TransposeOrderPermutes(rank: nat)
    requires rank >= 2
    ensures var p := TransposeOrder(rank).value;
      (forall i | 0 <= i < rank :: 0 <= p[i] < rank)
      && (forall i, j | 0 <= i < j < rank :: p[i] != p[j])
      && (forall k | 0 <= k < rank :: p[SwapLastTwo(rank, k)] == k)
  {
    var p := TransposeOrder(rank).value;
    forall i, j | 0 <= i < j < rank
      ensures p[i] != p[j]
    {
      assert p[i] == SwapLastTwo(rank, i) && p[j] == SwapLastTwo(rank, j);
    }
  }

  /** Applying the order twice restores the original axes. */
  lemma TransposeOrderInvolution(s: seq<nat>)
    requires |s| >= 2
    ensures var p := TransposeOrder(|s|).value;
      Permute(Permute(s, p), p) == s
  {
  }

  /** The order exchanges the last two dimensions of a shape and keeps the others. */
  lemma TransposeOrderSwapsLastTwo(s: seq<nat>)
    requires |s| >= 2
    ensures Permute(s, TransposeOrder(|s|).value) == s[..|s| - 2] + [s[|s| - 1], s[|s| - 2]]
  {
    var n := |s|;
    var p := TransposeOrder(n).value;
    var swapped := s[..n - 2] + [s[n - 1], s[n - 2]];
    forall i | 0 <= i < n
      ensures Permute(s, p)[i] == swapped[i]
    {
      assert p[i] == SwapLastTwo(n, i);
    }
  }

  /** Transposing keeps the element count. */
  lemma TransposeKeepsProduct(s: seq<nat>)
    requires |s| >= 2
    ensures Product(Permute(s, TransposeOrder(|s|).value)) == Product(s)
  {
    var n := |s|;
    TransposeOrderSwapsLastTwo(s);
    assert s == s[..n - 2] + [s[n - 2], s[n - 1]];
    ProductSwapLast(s[..n - 2], s[n - 2], s[n - 1]);
  }

  /** The factory methods the operators reach by name. */
  datatype OpName = EltwiseAdd | EltwiseMul | EltwiseDiv | Negative | TransposeOp | SqueezeOp | UnsqueezeOp | Matmul {

    function Name(): string {
      match this
      case EltwiseAdd => "eltwise_add"
      case EltwiseMul => "eltwise_mul"
      case EltwiseDiv => "eltwise_div"
      case Negative => "negative"
      case TransposeOp => "transpose"
      case SqueezeOp => "squeeze"
      case UnsqueezeOp => "unsqueeze"
      case Matmul => "matmul"
    }

    /** The number of node operands the method takes. */
    function Arity(): nat {
      match this
      case EltwiseAdd | EltwiseMul | EltwiseDiv | Matmul => 2
      case _ => 1
    }

    /** The node the method builds. */
    function Kind(): Graph.Kind {
      match this
      case EltwiseAdd => Eltwise(Add)
      case EltwiseMul => Eltwise(Multiply)
      case EltwiseDiv => Eltwise(Divide)
      case Negative => Unary(UnaryOp.Negative)
      case TransposeOp => Transpose
      case SqueezeOp => Squeeze
      case UnsqueezeOp => Unsqueeze
      case Matmul => MatMul
    }

    /** A call with `n` node operands and the extra arguments `args` matches the method's signature. */
    predicate Fits(n: nat, args: seq<Arg>) {
      && n == Arity()
      && match this
         case TransposeOp => |args| == 1 && args[0].IntsArg?
         case UnsqueezeOp => |args| == 1 && args[0].IntArg?
         case _ => args == []
    }

    /** The attributes the method records; a matrix product keeps the native defaults. */
    function Attrs(args: seq<Arg>): seq<Attr>
      requires Fits(Arity(), args)
    {
      match this
      case TransposeOp => [Ints(args[0].ns)]
      case UnsqueezeOp => [Int(args[0].n)]
      case Matmul => [Flag(false), Flag(true)]
      case _ => []
    }
  }

  /** An extra positional argument after the node operands. */
  datatype Arg = IntArg(n: int) | IntsArg(ns: seq<int>)

  /** The five operator names the registry lists carry its arity and no
      scalar parameters; transpose, squeeze and unsqueeze are not listed. */
  lemma RegistryAgreement(op: OpName)
    ensures op !in {TransposeOp, SqueezeOp, UnsqueezeOp} ==>
      Ops.Lookup(op.Name()) == Some(Ops.SupportedOp(op.Name(), op.Arity(), []))
    ensures op in {TransposeOp, SqueezeOp, UnsqueezeOp} ==> Ops.Lookup(op.Name()) == None
  {
    match op
    case EltwiseAdd => Ops.EltwiseAddEntry();
    case EltwiseMul => Ops.EltwiseMulEntry();
    case EltwiseDiv => Ops.EltwiseDivEntry();
    case Negative => Ops.NegativeEntry();
    case Matmul => Ops.MatmulEntry();
    case TransposeOp => Ops.NotListedTranspose();
    case SqueezeOp => Ops.NotListedSqueeze();
    case UnsqueezeOp => Ops.NotListedUnsqueeze();
  }

  /** A handle on node `node` of `factory`. */
  datatype Tensor = Tensor(factory: Factory, node: NodeRef) {

    /** The node belongs to the factory. */
    predicate Live()
      reads factory
    {
      factory.Holds(node)
    }

    /** The shape, read from the backend one dimension at a time. */
    function Shape(): (s: seq<nat>)
      reads factory
      requires Live()
      ensures |s| == factory.ShapeSize(node)
      ensures forall i | 0 <= i < |s| :: s[i] == factory.ShapeDim(node, i)
    {
      seq(factory.ShapeSize(node), i requires factory.Holds(node) && 0 <= i < factory.ShapeSize(node) reads factory =>
        factory.ShapeDim(node, i) as nat)
    }

    /** The element type of the node. */
    function Dtype(): (r: Result<DType, Error>)
      reads factory
      requires Live()
      ensures r.Success? <==> 2 <= factory.DtypeCode(node) <= 11
      ensures r.Success? ==> Code(r.value) == factory.DtypeCode(node)
      ensures r.Failure? ==> r.error == UnsupportedDtype
    {
      DtypeOf(factory.DtypeCode(node))
    }

    /** The number of elements: the product of the dimensions, 1 for a
        scalar, and 0 exactly when a dimension is 0. */
    function Len(): (n: nat)
      reads factory
      requires Live()
      ensures Shape() == [] ==> n == 1
      ensures n == 0 <==> exists i | 0 <= i < |Shape()| :: Shape()[i] == 0
    {
      ProductZeroIff(Shape());
      Product(Shape())
    }

    /** `len` as the front end computes it: the product comes back as a
        floating-point 1.0 for a scalar shape, which `len` refuses. */
    function LenAsWritten(): (r: Result<nat, Error>)
      reads factory
      requires Live()
      ensures r.Failure? <==> Shape() == []
      ensures r.Success? ==> r.value == Len()
    {
      if Shape() == [] then Failure(NotAnInteger) else Success(Product(Shape()))
    }

    method Add(other: Tensor) returns (r: Result<Tensor, Error>)
      requires factory.Valid() && other.factory.Valid() && Live() && other.Live()
      modifies factory`operations, other.factory`operations
      ensures factory.Valid() && other.factory.Valid()
      ensures factory != other.factory ==>
        r == Failure(OwnershipMismatch) && unchanged(factory, other.factory)
      ensures factory == other.factory ==>
        && r == Success(Tensor(factory, OpRef(|old(factory.operations)|)))
        && factory.operations == old(factory.operations) + [old(factory.Build(Eltwise(EltwiseOp.Add), [node, other.node], []))]
        && r.value.Live()
    {
      r := TwoOperands(EltwiseAdd, other);
    }

    method Mul(other: Tensor) returns (r: Result<Tensor, Error>)
      requires factory.Valid() && other.factory.Valid() && Live() && other.Live()
      modifies factory`operations, other.factory`operations
      ensures factory.Valid() && other.factory.Valid()
      ensures factory != other.factory ==>
        r == Failure(OwnershipMismatch) && unchanged(factory, other.factory)
      ensures factory == other.factory ==>
        && r == Success(Tensor(factory, OpRef(|old(factory.operations)|)))
        && factory.operations == old(factory.operations) + [old(factory.Build(Eltwise(Multiply), [node, other.node], []))]
        && r.value.Live()
    {
      r := TwoOperands(EltwiseMul, other);
    }

    method Div(other: Tensor) returns (r: Result<Tensor, Error>)
      requires factory.Valid() && other.factory.Valid() && Live() && other.Live()
      modifies factory`operations, other.factory`operations
      ensures factory.Valid() && other.factory.Valid()
      ensures factory != other.factory ==>
        r == Failure(OwnershipMismatch) && unchanged(factory, other.factory)
      ensures factory == other.factory ==>
        && r == Success(Tensor(factory, OpRef(|old(factory.operations)|)))
        && factory.operations == old(factory.operations) + [old(factory.Build(Eltwise(Divide), [node, other.node], []))]
        && r.value.Live()
    {
      r := TwoOperands(EltwiseDiv, other);
    }

    /** `@`: a matrix product whose right operand is transposed, by the native default. */
    method MatMul(other: Tensor) returns (r: Result<Tensor, Error>)
      requires factory.Valid() && other.factory.Valid() && Live() && other.Live()
      modifies factory`operations, other.factory`operations
      ensures factory.Valid() && other.factory.Valid()
      ensures factory != other.factory ==>
        r == Failure(OwnershipMismatch) && unchanged(factory, other.factory)
      ensures factory == other.factory ==>
        && r == Success(Tensor(factory, OpRef(|old(factory.operations)|)))
        && factory.operations
           == old(factory.operations) + [old(factory.Build(Graph.MatMul, [node, other.node], [Flag(false), Flag(true)]))]
        && r.value.Live()
    {
      r := TwoOperands(Matmul, other);
    }

    /** The shared body of the binary operators: `self` first, then `other`. */
    method TwoOperands(op: OpName, other: Tensor) returns (r: Result<Tensor, Error>)
      requires op.Arity() == 2
      requires factory.Valid() && other.factory.Valid() && Live() && other.Live()
      modifies factory`operations, other.factory`operations
      ensures factory.Valid() && other.factory.Valid()
      ensures factory != other.factory ==>
        r == Failure(OwnershipMismatch) && unchanged(factory, other.factory)
      ensures factory == other.factory ==>
        && r == Success(Tensor(factory, OpRef(|old(factory.operations)|)))
        && factory.operations == old(factory.operations) + [old(factory.Build(op.Kind(), [node, other.node], op.Attrs([])))]
        && r.value.Live()
    {
      SingleFactory([this, other]);
      if factory == other.factory {
        MetasOfOneFactory(factory, [this, other]);
        assert Nodes([this, other]) == [node, other.node];
      }
      r := GenerateOp([this, other], op, []);
    }

    method Neg() returns (r: Tensor)
      requires factory.Valid() && Live()
      modifies factory`operations
      ensures factory.Valid() && r.Live()
      ensures r == Tensor(factory, OpRef(|old(factory.operations)|))
      ensures factory.operations == old(factory.operations) + [old(factory.Build(Kind.Unary(UnaryOp.Negative), [node], []))]
    {
      r := OneOperand(OpName.Negative, []);
    }

    method Squeeze() returns (r: Tensor)
      requires factory.Valid() && Live()
      modifies factory`operations
      ensures factory.Valid() && r.Live()
      ensures r == Tensor(factory, OpRef(|old(factory.operations)|))
      ensures factory.operations == old(factory.operations) + [old(factory.Build(Graph.Squeeze, [node], []))]
    {
      r := OneOperand(SqueezeOp, []);
    }

    /** Passes `axis` through unchecked. */
    method Unsqueeze(axis: int) returns (r: Tensor)
      requires factory.Valid() && Live()
      modifies factory`operations
      ensures factory.Valid() && r.Live()
      ensures r == Tensor(factory, OpRef(|old(factory.operations)|))
      ensures factory.operations == old(factory.operations) + [old(factory.Build(Graph.Unsqueeze, [node], [Int(axis)]))]
    {
      r := OneOperand(UnsqueezeOp, [IntArg(axis)]);
    }

    /** Transposes the last two axes; fails without building anything below rank 2. */
    method T() returns (r: Result<Tensor, Error>)
      requires factory.Valid() && Live()
      modifies factory`operations
      ensures factory.Valid()
      ensures old(|Shape()|) < 2 ==> r == Failure(IndexOutOfRange) && unchanged(factory)
      ensures old(|Shape()|) >= 2 ==>
        && r == Success(Tensor(factory, OpRef(|old(factory.operations)|)))
        && factory.operations
           == old(factory.operations) + [old(factory.Build(Transpose, [node], [Ints(TransposeOrder(|Shape()|).value)]))]
        && r.value.Live()
    {
      var order := TransposeOrder(|Shape()|);
      if order.Failure? {
        return Failure(IndexOutOfRange);
      }
      var u := OneOperand(TransposeOp, [IntsArg(order.value)]);
      r := Success(u);
    }

    /** The shared body of the one-operand operators. */
    method OneOperand(op: OpName, args: seq<Arg>) returns (r: Tensor)
      requires op.Fits(1, args)
      requires factory.Valid() && Live()
      modifies factory`operations
      ensures factory.Valid() && r.Live()
      ensures r == Tensor(factory, OpRef(|old(factory.operations)|))
      ensures factory.operations == old(factory.operations) + [old(factory.Build(op.Kind(), [node], op.Attrs(args)))]
    {
      SingleFactory([this]);
      MetasOfOneFactory(factory, [this]);
      assert Nodes([this]) == [node];
      var g := GenerateOp([this], op, args);
      r := g.value;
    }

    /** `a - b` as written: `-b` is built first, in `b`'s factory, and only the
        addition checks that the operands share a factory. */
    method Sub(other: Tensor) returns (r: Result<Tensor, Error>)
      requires factory.Valid() && other.factory.Valid() && Live() && other.Live()
      modifies factory`operations, other.factory`operations
      ensures factory.Valid() && other.factory.Valid()
      ensures factory != other.factory ==>
        && r == Failure(OwnershipMismatch)
        && unchanged(factory)
        && other.factory.operations
           == old(other.factory.operations) + [old(other.factory.Build(Kind.Unary(UnaryOp.Negative), [other.node], []))]
      ensures factory == other.factory ==>
        var n := |old(factory.operations)|;
        var negated := old(factory.Build(Kind.Unary(UnaryOp.Negative), [other.node], []));
        var sumMeta := factory.infer(Eltwise(EltwiseOp.Add), [], [old(factory.Get(node).meta), negated.meta]);
        && r == Success(Tensor(factory, OpRef(n + 1)))
        && factory.operations
           == old(factory.operations) + [negated, Node(Eltwise(EltwiseOp.Add), [node, OpRef(n)], [], sumMeta)]
        && r.value.Live()
    {
      var negated := other.Neg();
      if factory == other.factory {
        ghost var n := |old(factory.operations)|;
        assert factory.Get(node) == old(factory.Get(node));
        assert factory.InputMetas([node, OpRef(n)]) == [old(factory.Get(node).meta), factory.operations[n].meta];
      }
      r := TwoOperands(EltwiseAdd, negated);
    }

    /** Subtraction that checks ownership before building anything. */
    method SubChecked(other: Tensor) returns (r: Result<Tensor, Error>)
      requires factory.Valid() && other.factory.Valid() && Live() && other.Live()
      modifies factory`operations, other.factory`operations
      ensures factory.Valid() && other.factory.Valid()
      ensures factory != other.factory ==>
        r == Failure(OwnershipMismatch) && unchanged(factory, other.factory)
      ensures factory == other.factory ==>
        var n := |old(factory.operations)|;
        var negated := old(factory.Build(Kind.Unary(UnaryOp.Negative), [other.node], []));
        var sumMeta := factory.infer(Eltwise(EltwiseOp.Add), [], [old(factory.Get(node).meta), negated.meta]);
        && r == Success(Tensor(factory, OpRef(n + 1)))
        && factory.operations
           == old(factory.operations) + [negated, Node(Eltwise(EltwiseOp.Add), [node, OpRef(n)], [], sumMeta)]
        && r.value.Live()
    {
      if factory != other.factory {
        return Failure(OwnershipMismatch);
      }
      r := Sub(other);
    }
  }

  /** The set of factories a list of tensors belongs to. */
  function Factories(ts: seq<Tensor>): set<Factory> {
    set t <- ts :: t.factory
  }

  /** The nodes of a list of tensors, in order. */
  function Nodes(ts: seq<Tensor>): (ns: seq<NodeRef>)
    ensures |ns| == |ts|
    ensures forall i | 0 <= i < |ts| :: ns[i] == ts[i].node
  {
    seq(|ts|, i requires 0 <= i < |ts| => ts[i].node)
  }

  /** What the backend reports about each tensor's node, in order. */
  function Metas(ts: seq<Tensor>): (ms: seq<Meta>)
    reads set t <- ts :: t.factory
    requires forall i | 0 <= i < |ts| :: ts[i].factory.Holds(ts[i].node)
    ensures |ms| == |ts|
    ensures forall i | 0 <= i < |ts| :: ms[i] == ts[i].factory.Get(ts[i].node).meta
  {
    if ts == [] then [] else [ts[0].factory.Get(ts[0].node).meta] + Metas(ts[1..])
  }

  /** For tensors of one factory, the metadata of their nodes as the factory
      collects it is what the tensors report. */
  lemma MetasOfOneFactory(f: Factory, ts: seq<Tensor>)
    requires forall i | 0 <= i < |ts| :: ts[i].factory == f && ts[i].Live()
    ensures f.HoldsAll(Nodes(ts))
    ensures f.InputMetas(Nodes(ts)) == Metas(ts)
  {
    var nodes := Nodes(ts);
    forall x <- nodes
      ensures f.Holds(x)
    {
      var i :| 0 <= i < |nodes| && nodes[i] == x;
    }
  }

  /** The factories form a set of exactly one element exactly when the list is
      non-empty and every tensor shares the first one's factory. */
  lemma SingleFactory(ts: seq<Tensor>)
    ensures |Factories(ts)| == 1 <==> ts != [] && forall t <- ts :: t.factory == ts[0].factory
  {
    if ts != [] && forall t <- ts :: t.factory == ts[0].factory {
      assert Factories(ts) == {ts[0].factory};
    }
    if |Factories(ts)| == 1 {
      assert ts[0] in ts;
      var x := ts[0].factory;
      assert |Factories(ts) - {x}| == 0;
      forall t <- ts
        ensures t.factory == x
      {
        assert t.factory in Factories(ts);
        assert t.factory !in Factories(ts) - {x};
      }
    }
  }

  /** Builds `op` over the nodes of `tensors`, in operand order, followed by
      `args`. Refuses, before touching any factory, operands that do not share
      exactly one factory; refuses a call the builder does not take. */
  method GenerateOp(tensors: seq<Tensor>, op: OpName, args: seq<Arg>) returns (r: Result<Tensor, Error>)
    requires forall i | 0 <= i < |tensors| :: tensors[i].factory.Valid() && tensors[i].factory.Holds(tensors[i].node)
    modifies (set t <- tensors :: t.factory)`operations
    ensures forall t <- tensors :: t.factory.Valid()
    ensures |Factories(tensors)| != 1 ==> r == Failure(OwnershipMismatch)
    ensures |Factories(tensors)| == 1 && !op.Fits(|tensors|, args) ==> r == Failure(CallMismatch)
    ensures r.Failure? ==> forall t <- tensors :: unchanged(t.factory)
    ensures r.Success? <==> |Factories(tensors)| == 1 && op.Fits(|tensors|, args)
    ensures r.Success? ==>
      var f := tensors[0].factory;
      var kind := op.Kind();
      var attrs := op.Attrs(args);
      && r.value == Tensor(f, OpRef(|old(f.operations)|))
      && f.operations == old(f.operations) + [Node(kind, Nodes(tensors), attrs, f.infer(kind, attrs, old(Metas(tensors))))]
      && r.value.Live()
  {
    SingleFactory(tensors);
    if |Factories(tensors)| != 1 {
      return Failure(OwnershipMismatch);
    }
    var f := tensors[0].factory;
    var nodes := Nodes(tensors);
    MetasOfOneFactory(f, tensors);
    var made := Dispatch(f, op, nodes, args);
    if made.Failure? {
      return Failure(made.error);
    }
    r := Success(Tensor(f, made.value));
  }

  /** The factory's by-name method call: the builder `op` names, given the
      operand nodes and the extra arguments. */
  method Dispatch(f: Factory, op: OpName, nodes: seq<NodeRef>, args: seq<Arg>) returns (r: Result<NodeRef, Error>)
    requires f.Valid() && f.HoldsAll(nodes)
    modifies f`operations
    ensures f.Valid()
    ensures r.Success? <==> op.Fits(|nodes|, args)
    ensures r.Failure? ==> r.error == CallMismatch && f.operations == old(f.operations)
    ensures r.Success? ==>
      && r.value == OpRef(|old(f.operations)|)
      && f.operations == old(f.operations) + [old(f.Build(op.Kind(), nodes, op.Attrs(args)))]
  {
    if !op.Fits(|nodes|, args) {
      return Failure(CallMismatch);
    }
    var n: NodeRef;
    match op {
      case EltwiseAdd =>
        assert nodes == [nodes[0], nodes[1]];
        n := f.NewEltwise(Add, nodes[0], nodes[1]);
      case EltwiseMul =>
        assert nodes == [nodes[0], nodes[1]];
        n := f.NewEltwise(Multiply, nodes[0], nodes[1]);
      case EltwiseDiv =>
        assert nodes == [nodes[0], nodes[1]];
        n := f.NewEltwise(Divide, nodes[0], nodes[1]);
      case Matmul =>
        assert nodes == [nodes[0], nodes[1]];
        n := f.NewMatMul(nodes[0], nodes[1]);
      case Negative =>
        assert nodes == [nodes[0]];
        n := f.Activation(UnaryOp.Negative, nodes[0]);
      case TransposeOp | SqueezeOp | UnsqueezeOp =>
        n := f.Operation(op.Kind(), nodes, op.Attrs(args));
    }
    r := Success(n);
  }

  /** A new network input of the given shape and element type, wrapped in a handle. */
  method CreateTensor(f: Factory, shape: seq<SizeT>, dtype: DType) returns (t: Tensor)
    requires f.Valid()
    modifies f`parameters
    ensures f.Valid() && t.factory == f && t.Live()
    ensures t.node == ParamRef(|old(f.parameters)|)
    ensures f.parameters == old(f.parameters) + [Node(Parameter, [], [], Meta(shape, Code(dtype)))]
    ensures t.Shape() == shape && t.Dtype() == Success(dtype)
  {
    var node := f.NewParameter(shape, Code(dtype));
    t := Tensor(f, node);
    DtypeRoundTrip(dtype);
  }

  /** A backend inference that gives every new operation node the same metadata. */
  function FlatInference(m: Meta): Inference {
    (k: Graph.Kind, a: seq<Attr>, ms: seq<Meta>) => m
  }

  /** Subtracting tensors of two different factories leaves one node behind in
      the right operand's factory, although the call fails. */
  method CrossFactorySubtraction() returns (r: Result<Tensor, Error>, leaked: nat)
    ensures r == Failure(OwnershipMismatch) && leaked == 1
  {
    var fa := new Factory("NPU", FlatInference(Meta([], 5)));
    var fb := new Factory("NPU", FlatInference(Meta([], 5)));
    var a := CreateTensor(fa, [2, 3], Float32);
    var b := CreateTensor(fb, [2, 3], Float32);
    r := a.Sub(b);
    leaked := |fa.operations| + |fb.operations|;
  }

  /** The same subtraction, checked first, leaves both factories as they were. */
  method CrossFactorySubtractionChecked() returns (r: Result<Tensor, Error>, leaked: nat)
    ensures r == Failure(OwnershipMismatch) && leaked == 0
  {
    var fa := new Factory("NPU", FlatInference(Meta([], 5)));
    var fb := new Factory("NPU", FlatInference(Meta([], 5)));
    var a := CreateTensor(fa, [2, 3], Float32);
    var b := CreateTensor(fb, [2, 3], Float32);
    r := a.SubChecked(b);
    leaked := |fa.operations| + |fb.operations|;
  }

  /** `a - b` on one factory appends exactly two nodes: the negation of `b`,
      then the sum of `a` and that negation. */
  method SameFactorySubtraction() returns (kinds: seq<Graph.Kind>, inputs: seq<seq<NodeRef>>)
    ensures kinds == [Unary(UnaryOp.Negative), Eltwise(Add)]
    ensures inputs == [[ParamRef(1)], [ParamRef(0), OpRef(0)]]
  {
    var f := new Factory("NPU", FlatInference(Meta([2, 3], 5)));
    var a := CreateTensor(f, [2, 3], Float32);
    var b := CreateTensor(f, [2, 3], Float32);
    var r := a.Sub(b);
    kinds := [f.operations[0].kind, f.operations[1].kind];
    inputs := [f.operations[0].inputs, f.operations[1].inputs];
  }

  /** A scalar tensor: its element count is 1, which `len` as written refuses. */
  lemma ScalarLen(t: Tensor)
    requires t.Live() && t.Shape() == []
    ensures t.Len() == 1 && t.LenAsWritten() == Failure(NotAnInteger)
  {
  }
}
