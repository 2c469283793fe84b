/** The catalogue of operations the NPU runtime supports: a constant table of
    frozen records, each giving an operation's name, the number of tensor
    inputs it takes and the types of its scalar parameters. */
module Ops {

  import opened Wrappers

  /** The ctypes scalar types that appear as parameter descriptors. */
  datatype ParamType = CFloat | CBool

  /** One supported operation. A datatype value, so it cannot change once built. */
  datatype SupportedOp = SupportedOp(name: string, inputs: int, parameters: seq<ParamType>)

  /** A record built without `parameters` gets the empty default. */
  function Op(name: string, inputs: int): SupportedOp {
    SupportedOp(name, inputs, [])
  }

  /** The literal table, in its declaration order. */
  function SupportedOps(): seq<SupportedOp> {
    [
      Op("matmul", 2),
      Op("eltwise_add", 2),
      Op("eltwise_mul", 2),
      Op("eltwise_div", 2),
      Op("abs_act", 1),
      Op("acos_act", 1),
      Op("asin_act", 1),
      Op("atan_act", 1),
      Op("ceiling", 1),
      SupportedOp("clamp", 1, [CFloat, CFloat]),
      Op("cos_act", 1),
      Op("cosh_act", 1),
      Op("erf_act", 1),
      SupportedOp("elu", 1, [CFloat]),
      Op("exp_act", 1),
      Op("floor_act", 1),
      SupportedOp("grn", 1, [CFloat]),
      Op("gelu", 1),
      Op("log_act", 1),
      Op("negative", 1),
      Op("relu", 1),
      Op("sigmoid", 1),
      Op("sign", 1),
      Op("sin_act", 1),
      Op("sinh_act", 1),
      Op("sqrt_act", 1),
      Op("tan_act", 1),
      Op("tanh_act", 1),
      Op("acosh_act", 1),
      Op("asinh_act", 1),
      Op("atanh_act", 1),
      Op("hswish", 1),
      Op("mish", 1),
      Op("softplus", 1),
      Op("hsigmoid", 1),
      Op("round_act", 1),
      Op("softsign", 1),
      Op("softmax", 1),
      Op("swish", 1),
      Op("convert_to_fp16", 1),
      SupportedOp("scaled_dot_product_attention", 4, [CBool])
    ]
  }

  /** No two entries share a name. */
  predicate NamesDistinct(ops: seq<SupportedOp>) {
    forall i, j :: 0 <= i < j < |ops| ==> ops[i].name != ops[j].name
  }

  predicate DistinctFromLater(ops: seq<SupportedOp>, i: int)
    requires 0 <= i < |ops|
  {
    forall j :: i < j < |ops| ==> ops[i].name != ops[j].name
  }

  // Comparing all 820 pairs of name literals at once is beyond the solver's
  // budget, so the rows of the triangle are shown distinct in five groups.
  lemma RowsDistinctA()
    ensures forall i | 0 <= i < 4 :: DistinctFromLater(SupportedOps(), i)
  {
  }

  lemma RowsDistinctB()
    ensures forall i | 4 <= i < 8 :: DistinctFromLater(SupportedOps(), i)
  {
  }

  lemma RowsDistinctC()
    ensures forall i | 8 <= i < 13 :: DistinctFromLater(SupportedOps(), i)
  {
  }

  lemma RowsDistinctD()
    ensures forall i | 13 <= i < 22 :: DistinctFromLater(SupportedOps(), i)
  {
  }

  lemma RowsDistinctE()
    ensures forall i | 22 <= i < 41 :: DistinctFromLater(SupportedOps(), i)
  {
  }

  /** The table has 41 entries and its names are pairwise distinct. */
  lemma TableShape()
    ensures |SupportedOps()| == 41
    ensures NamesDistinct(SupportedOps())
  {
    RowsDistinctA(); RowsDistinctB(); RowsDistinctC(); RowsDistinctD(); RowsDistinctE();
    var s := SupportedOps();
    forall i, j | 0 <= i < j < |s|
      ensures s[i].name != s[j].name
    {
      assert DistinctFromLater(s, i);
    }
  }

  /** The first entry carrying `name`, as a linear scan finds it. */
  function Find(ops: seq<SupportedOp>, name: string): (r: Option<SupportedOp>)
    ensures r.Some? ==> r.value in ops && r.value.name == name
    ensures r.None? <==> forall i | 0 <= i < |ops| :: ops[i].name != name
  {
    if ops == [] then None
    else if ops[0].name == name then Some(ops[0])
    else Find(ops[1..], name)
  }

  /** The registry entry for `name`, if the runtime supports an operation of that name. */
  function Lookup(name: string): Option<SupportedOp> {
    Find(SupportedOps(), name)
  }

  /** An entry whose name no earlier entry carries is what a lookup of that name finds. */
  lemma {:induction false} FindsFirstOccurrence(ops: seq<SupportedOp>, k: int, name: string)
    requires 0 <= k < |ops| && ops[k].name == name
    requires forall m | 0 <= m < k :: ops[m].name != name
    ensures Find(ops, name) == Some(ops[k])
  {
    if k > 0 {
      FindsFirstOccurrence(ops[1..], k - 1, name);
    }
  }

  /** In a table with distinct names, every entry is found by its own name. */
  lemma FindsOwnEntry(ops: seq<SupportedOp>, k: int)
    requires NamesDistinct(ops)
    requires 0 <= k < |ops|
    ensures Find(ops, ops[k].name) == Some(ops[k])
  {
    FindsFirstOccurrence(ops, k, ops[k].name);
  }

  /** A name no entry carries is not found. */
  lemma NotListed(ops: seq<SupportedOp>, name: string)
    requires forall i | 0 <= i < |ops| :: ops[i].name != name
    ensures Find(ops, name) == None
  {
  }

  // One lookup per lemma: the solver handles each entry cheaply on its own,
  // but not several of them in one proof. The four binary operations take two
  // inputs and no parameters; clamp, elu and grn take one input and float
  // parameters; negative takes one input.
  lemma MatmulEntry()
    ensures Lookup("matmul") == Some(SupportedOp("matmul", 2, []))
  {
    FindsFirstOccurrence(SupportedOps(), 0, "matmul");
  }

  lemma EltwiseAddEntry()
    ensures Lookup("eltwise_add") == Some(SupportedOp("eltwise_add", 2, []))
  {
    FindsFirstOccurrence(SupportedOps(), 1, "eltwise_add");
  }

  lemma EltwiseMulEntry()
    ensures Lookup("eltwise_mul") == Some(SupportedOp("eltwise_mul", 2, []))
  {
    FindsFirstOccurrence(SupportedOps(), 2, "eltwise_mul");
  }

  lemma EltwiseDivEntry()
    ensures Lookup("eltwise_div") == Some(SupportedOp("eltwise_div", 2, []))
  {
    FindsFirstOccurrence(SupportedOps(), 3, "eltwise_div");
  }

  lemma ClampEntry()
    ensures Lookup("clamp") == Some(SupportedOp("clamp", 1, [CFloat, CFloat]))
  {
    FindsFirstOccurrence(SupportedOps(), 9, "clamp");
  }

  lemma EluEntry()
    ensures Lookup("elu") == Some(SupportedOp("elu", 1, [CFloat]))
  {
    FindsFirstOccurrence(SupportedOps(), 13, "elu");
  }

  lemma GrnEntry()
    ensures Lookup("grn") == Some(SupportedOp("grn", 1, [CFloat]))
  {
    FindsFirstOccurrence(SupportedOps(), 16, "grn");
  }

  lemma NegativeEntry()
    ensures Lookup("negative") == Some(SupportedOp("negative", 1, []))
  {
    FindsFirstOccurrence(SupportedOps(), 19, "negative");
  }

  /** Attention takes four inputs and one boolean (the causal flag). */
  lemma AttentionOp()
    ensures Lookup("scaled_dot_product_attention")
         == Some(SupportedOp("scaled_dot_product_attention", 4, [CBool]))
  {
    FindsFirstOccurrence(SupportedOps(), 40, "scaled_dot_product_attention");
  }

  /** The names of the entries that are not plain unary operations. */
  const SpecialNames: seq<string> :=
    ["matmul", "eltwise_add", "eltwise_mul", "eltwise_div", "clamp", "elu", "grn",
     "scaled_dot_product_attention"]

  /** Every other entry is unary with the default empty parameter list, so
      every arity in the table is 1, 2 or 4. */
  lemma OtherOpsUnary()
    ensures forall i | 0 <= i < |SupportedOps()| ::
      SupportedOps()[i].name !in SpecialNames ==> SupportedOps()[i].inputs == 1 && SupportedOps()[i].parameters == []
    ensures forall i | 0 <= i < |SupportedOps()| ::
      SupportedOps()[i].inputs == 1 || SupportedOps()[i].inputs == 2 || SupportedOps()[i].inputs == 4
  {
  }

  // The tensor front end emits three operation names that the table does not list.
  lemma NotListedTranspose()
    ensures Lookup("transpose") == None
  {
    NotListed(SupportedOps(), "transpose");
  }

  lemma NotListedSqueeze()
    ensures Lookup("squeeze") == None
  {
    NotListed(SupportedOps(), "squeeze");
  }

  lemma NotListedUnsqueeze()
    ensures Lookup("unsqueeze") == None
  {
    NotListed(SupportedOps(), "unsqueeze");
  }
}
