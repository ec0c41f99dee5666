/** The term types of src/main.py, its operator and function tables, and the
    helpers that build a result value together with its infix label. */
module Terms {
  import opened Syntax

  /** The arithmetic behind each binary operator (`pow_op` … `sub_op`). */
  datatype BinFn = PowOp | MulOp | DivOp | AddOp | SubOp

  /** The arithmetic behind each function (`log_fn`). */
  datatype UnFn = LogFn

  /** What the parser puts on its output and its operator stack. A `Symbol`
      is a variable; its deferred action reads one integer from the console.
      The text of that prompt is not modelled. */
  datatype Term =
    | Number(value: int, symbol: string)
    | Paren(symbol: string)
    | Operator(symbol: string, prec: int, assc: Assoc, binary: BinFn)
    | Function(symbol: string, args: int, unary: UnFn)
    | Symbol(symbol: string)

  /** The operator table `ops`. */
  const Ops: map<string, Term> := map[
    "^" := Operator("^", 4, Right, PowOp),
    "*" := Operator("*", 3, Left, MulOp),
    "/" := Operator("/", 3, Left, DivOp),
    "+" := Operator("+", 2, Left, AddOp),
    "-" := Operator("-", 2, Left, SubOp)
  ]

  /** The function table `functions`. */
  const Functions: map<string, Term> := map["Log" := Function("Log", 1, LogFn)]

  /** The entries of both tables, spelled out. */
  lemma TableEntries()
    ensures "^" in Ops && Ops["^"] == Operator("^", 4, Right, PowOp)
    ensures "*" in Ops && Ops["*"] == Operator("*", 3, Left, MulOp)
    ensures "/" in Ops && Ops["/"] == Operator("/", 3, Left, DivOp)
    ensures "+" in Ops && Ops["+"] == Operator("+", 2, Left, AddOp)
    ensures "-" in Ops && Ops["-"] == Operator("-", 2, Left, SubOp)
    ensures "Log" in Functions && Functions["Log"] == Function("Log", 1, LogFn)
    ensures Ops.Keys == {"^", "*", "/", "+", "-"} && Functions.Keys == {"Log"}
  {
  }

  /** An entry of the operator table. */
  predicate IsTableOperator(t: Term) {
    t.Operator? && t.symbol in Ops && Ops[t.symbol] == t
  }

  /** An entry of the function table. */
  predicate IsTableFunction(t: Term) {
    t.Function? && t.symbol in Functions && Functions[t.symbol] == t
  }

  /** No table entry is written `(`. */
  lemma TableSymbols(t: Term)
    requires IsTableOperator(t) || IsTableFunction(t)
    ensures t.symbol != "("
  {
  }

  /** The text each helper writes between its operands. */
  function BinSymbol(f: BinFn): string {
    match f
    case PowOp => "^"
    case MulOp => "*"
    case DivOp => "/"
    case AddOp => "+"
    case SubOp => "-"
  }

  /** The table entry whose arithmetic is `f`. */
  function OperatorFor(f: BinFn): (t: Term)
    ensures IsTableOperator(t) && t.binary == f && t.symbol == BinSymbol(f)
  {
    Ops[BinSymbol(f)]
  }

  /** The table entry whose arithmetic is `g`. */
  function FunctionFor(g: UnFn): (t: Term)
    ensures IsTableFunction(t) && t.unary == g
  {
    Functions["Log"]
  }

  /** Numeric values, kept symbolic: an integer read from the source or the
      console, or an operator or function applied to values. Exponentiation,
      float division and the logarithm are not evaluated. */
  datatype Value = Int(n: int) | Apply(f: BinFn, a: Value, b: Value) | Call(g: UnFn, a: Value)

  /** A value on the evaluation stack with its label. */
  datatype Item = Item(value: Value, symbol: string)

  /** `pow_op`, `mul_op`, `div_op`, `add_op`, `sub_op`. */
  function ApplyBin(f: BinFn, a: Item, b: Item): Item {
    Item(Apply(f, a.value, b.value), "(" + a.symbol + " " + BinSymbol(f) + " " + b.symbol + ")")
  }

  /** `log_fn`. */
  function ApplyUn(g: UnFn, a: Item): Item {
    Item(Call(g, a.value), "Log(" + a.symbol + ")")
  }
}
