/** A reference meaning for postfix programs: expression trees, the
    program each one compiles to, its fully parenthesised infix text and
    its value. Running the evaluator on the program of a tree yields that
    text as the label and that value. */
module Reference {
  import opened Wrappers
  import opened Seqs
  import opened Terms
  import opened Evaluator
  import opened Syntax
  import Parser

  /** Expressions over numbers, variables, the five operators and `Log`. */
  datatype Expr =
    | Num(value: int, text: string)
    | Var(name: string)
    | Bin(f: BinFn, l: Expr, r: Expr)
    | App(g: UnFn, a: Expr)

  /** The postfix program of an expression, over the table entries. */
  function Postfix(e: Expr): seq<Term> {
    match e
    case Num(v, text) => [Number(v, text)]
    case Var(n) => [Symbol(n)]
    case Bin(f, l, r) => Postfix(l) + Postfix(r) + [OperatorFor(f)]
    case App(g, a) => Postfix(a) + [FunctionFor(g)]
  }

  /** The fully parenthesised infix text of an expression. */
  function Show(e: Expr): string {
    match e
    case Num(_, text) => text
    case Var(n) => n
    case Bin(f, l, r) => "(" + Show(l) + " " + BinSymbol(f) + " " + Show(r) + ")"
    case App(_, a) => "Log(" + Show(a) + ")"
  }

  function Vars(e: Expr): set<string> {
    match e
    case Num(_, _) => {}
    case Var(n) => {n}
    case Bin(_, l, r) => Vars(l) + Vars(r)
    case App(_, a) => Vars(a)
  }

  /** The value of an expression when each variable takes the answer to
      its own prompt, prompts being numbered in the order of `asked`. */
  function Denote(e: Expr, asked: seq<string>, answers: Answers): Value
    requires forall n :: n in Vars(e) ==> n in asked
  {
    match e
    case Num(v, _) => Int(v)
    case Var(n) => Int(answers(IndexOf(asked, n)))
    case Bin(f, l, r) => Apply(f, Denote(l, asked, answers), Denote(r, asked, answers))
    case App(g, a) => Call(g, Denote(a, asked, answers))
  }

  /** More prompts later do not change the value. */
  lemma {:induction false} DenoteStable(e: Expr, asked: seq<string>, more: seq<string>, answers: Answers)
    requires forall n :: n in Vars(e) ==> n in asked
    ensures forall n :: n in Vars(e) ==> n in asked + more
    ensures Denote(e, asked + more, answers) == Denote(e, asked, answers)
  {
    match e
    case Num(_, _) =>
    case Var(n) =>
      IndexOfPrefix(asked, more, n);
    case Bin(_, l, r) =>
      DenoteStable(l, asked, more, answers);
      DenoteStable(r, asked, more, answers);
    case App(_, a) =>
      DenoteStable(a, asked, more, answers);
  }

  /** Running two programs one after the other. */
  lemma {:induction false} ExecAppend(p: seq<Term>, q: seq<Term>, st: EvalState, answers: Answers)
    ensures Exec(p, st, answers).Done? ==> Exec(p + q, st, answers) == Exec(q, Exec(p, st, answers).st, answers)
    decreases |p|
  {
    if |p| == 0 {
      assert p + q == q;
    } else {
      var next := Step(p[0], st, answers);
      assert (p + q)[0] == p[0] && (p + q)[1..] == p[1..] + q;
      ExecUnfold(p, st, answers);
      ExecUnfold(p + q, st, answers);
      if next.Some? {
        ExecAppend(p[1..], q, next.value, answers);
      }
    }
  }

  /** A cached variable holds the answer to its own prompt, labelled with
      its bare name. */
  lemma CachedAnswer(st: EvalState, answers: Answers, n: string)
    requires CacheOk(st, answers) && n in st.cache
    ensures n in st.asked && st.cache[n] == Item(Int(answers(IndexOf(st.asked, n))), n)
  {
    var k := IndexOf(st.asked, n);
    IndexOfNoDup(st.asked, k);
  }

  /** The state a run reaches from `st` after pushing one more item, with
      the prompts of `st` kept as a prefix. */
  ghost predicate Pushed(st: EvalState, h: EvalState, item: Item, answers: Answers) {
    CacheOk(h, answers) &&
    h.stack == st.stack + [item] &&
    |st.asked| <= |h.asked| && h.asked[..|st.asked|] == st.asked &&
    st.cache.Keys <= h.cache.Keys
  }

  lemma VarPostfix(n: string, st: EvalState, answers: Answers)
    requires CacheOk(st, answers)
    ensures Exec([Symbol(n)], st, answers).Done?
    ensures n in Exec([Symbol(n)], st, answers).st.asked
    ensures Pushed(st, Exec([Symbol(n)], st, answers).st,
      Item(Int(answers(IndexOf(Exec([Symbol(n)], st, answers).st.asked, n))), n), answers)
  {
    var next := Step(Symbol(n), st, answers).value;
    StepCache(Symbol(n), st, answers);
    assert Exec([Symbol(n)], st, answers) == Done(next) by {
      assert [Symbol(n)][1..] == [];
    }
    CachedAnswer(next, answers, n);
    assert next.stack == st.stack + [next.cache[n]];
    assert next.asked[..|st.asked|] == st.asked;
  }

  /** The program of `e` run from any consistent state pushes exactly one
      item: the value of `e` labelled with its infix text. Earlier prompts
      and cached values are kept. */
  lemma {:induction false} ExecPostfix(e: Expr, st: EvalState, answers: Answers)
    requires CacheOk(st, answers)
    ensures Exec(Postfix(e), st, answers).Done?
    ensures forall n :: n in Vars(e) ==> n in Exec(Postfix(e), st, answers).st.asked
    ensures Pushed(st, Exec(Postfix(e), st, answers).st,
      Item(Denote(e, Exec(Postfix(e), st, answers).st.asked, answers), Show(e)), answers)
    decreases e
  {
    match e
    case Num(v, text) =>
      assert [Number(v, text)][1..] == [];
      assert st.asked[..|st.asked|] == st.asked;
    case Var(n) =>
      VarPostfix(n, st, answers);
    case Bin(f, l, r) =>
      BinPostfix(f, l, r, st, answers);
    case App(g, a) =>
      AppPostfix(g, a, st, answers);
  }

  /** An operator applied to the two items at the top of the stack. */
  lemma OperatorRun(f: BinFn, st: EvalState, base: seq<Item>, a: Item, b: Item, answers: Answers)
    requires st.stack == base + [a, b]
    ensures Exec([OperatorFor(f)], st, answers) == Done(st.(stack := base + [ApplyBin(f, a, b)]))
  {
    assert [OperatorFor(f)][1..] == [];
    assert st.stack[..|st.stack| - 2] == base;
  }

  /** A function applied to the item at the top of the stack. */
  lemma FunctionRun(g: UnFn, st: EvalState, base: seq<Item>, a: Item, answers: Answers)
    requires st.stack == base + [a]
    ensures Exec([FunctionFor(g)], st, answers) == Done(st.(stack := base + [ApplyUn(g, a)]))
  {
    assert [FunctionFor(g)][1..] == [];
    assert st.stack[..|st.stack| - 1] == base;
  }

  /** Two runs one after the other, then one more term. */
  lemma RunThree(p: seq<Term>, q: seq<Term>, t: Term, st: EvalState, st1: EvalState, st2: EvalState, st3: EvalState, answers: Answers)
    requires Exec(p, st, answers) == Done(st1) && Exec(q, st1, answers) == Done(st2) && Exec([t], st2, answers) == Done(st3)
    ensures Exec(p + q + [t], st, answers) == Done(st3)
  {
    ExecAppend(p, q, st, answers);
    ExecAppend(p + q, [t], st, answers);
  }

  /** Two runs one after the other. */
  lemma RunTwo(p: seq<Term>, t: Term, st: EvalState, st1: EvalState, st2: EvalState, answers: Answers)
    requires Exec(p, st, answers) == Done(st1) && Exec([t], st1, answers) == Done(st2)
    ensures Exec(p + [t], st, answers) == Done(st2)
  {
    ExecAppend(p, [t], st, answers);
  }

  /** Pushing one item and then another. */
  lemma PushedTwice(st: EvalState, st1: EvalState, st2: EvalState, a: Item, b: Item, answers: Answers)
    requires Pushed(st, st1, a, answers) && Pushed(st1, st2, b, answers)
    ensures st2.stack == st.stack + [a, b]
    ensures st2.asked == st1.asked + st2.asked[|st1.asked|..]
    ensures st2.asked[..|st.asked|] == st.asked
    ensures st.cache.Keys <= st2.cache.Keys
  {
    assert st2.asked[..|st1.asked|][..|st.asked|] == st2.asked[..|st.asked|];
  }

  /** Replacing the pushed items by one result keeps the prompts and cache. */
  lemma PushedResult(st: EvalState, st2: EvalState, x: Item, answers: Answers)
    requires CacheOk(st2, answers) && |st.asked| <= |st2.asked| && st2.asked[..|st.asked|] == st.asked
    requires st.cache.Keys <= st2.cache.Keys
    ensures Pushed(st, st2.(stack := st.stack + [x]), x, answers)
  {
  }

  lemma {:induction false} BinPostfix(f: BinFn, l: Expr, r: Expr, st: EvalState, answers: Answers)
    requires CacheOk(st, answers)
    ensures Exec(Postfix(Bin(f, l, r)), st, answers).Done?
    ensures forall n :: n in Vars(Bin(f, l, r)) ==> n in Exec(Postfix(Bin(f, l, r)), st, answers).st.asked
    ensures Pushed(st, Exec(Postfix(Bin(f, l, r)), st, answers).st,
      Item(Denote(Bin(f, l, r), Exec(Postfix(Bin(f, l, r)), st, answers).st.asked, answers), Show(Bin(f, l, r))), answers)
    decreases Bin(f, l, r), 0
  {
    ExecPostfix(l, st, answers);
    var st1 := Exec(Postfix(l), st, answers).st;
    ExecPostfix(r, st1, answers);
    var st2 := Exec(Postfix(r), st1, answers).st;
    var L := Item(Denote(l, st1.asked, answers), Show(l));
    var R := Item(Denote(r, st2.asked, answers), Show(r));
    PushedTwice(st, st1, st2, L, R, answers);
    var st3 := st2.(stack := st.stack + [ApplyBin(f, L, R)]);
    OperatorRun(f, st2, st.stack, L, R, answers);
    RunThree(Postfix(l), Postfix(r), OperatorFor(f), st, st1, st2, st3, answers);
    DenoteStable(l, st1.asked, st2.asked[|st1.asked|..], answers);
    PushedResult(st, st2, ApplyBin(f, L, R), answers);
  }

  lemma {:induction false} AppPostfix(g: UnFn, a: Expr, st: EvalState, answers: Answers)
    requires CacheOk(st, answers)
    ensures Exec(Postfix(App(g, a)), st, answers).Done?
    ensures forall n :: n in Vars(App(g, a)) ==> n in Exec(Postfix(App(g, a)), st, answers).st.asked
    ensures Pushed(st, Exec(Postfix(App(g, a)), st, answers).st,
      Item(Denote(App(g, a), Exec(Postfix(App(g, a)), st, answers).st.asked, answers), Show(App(g, a))), answers)
    decreases App(g, a), 0
  {
    ExecPostfix(a, st, answers);
    var st1 := Exec(Postfix(a), st, answers).st;
    var A := Item(Denote(a, st1.asked, answers), Show(a));
    var st2 := st1.(stack := st.stack + [ApplyUn(g, A)]);
    FunctionRun(g, st1, st.stack, A, answers);
    RunTwo(Postfix(a), FunctionFor(g), st, st1, st2, answers);
    PushedResult(st, st1, ApplyUn(g, A), answers);
  }

  /** Evaluating the program of `e` prompts once for each of its variables,
      in order of first occurrence, and reports the value of `e` under those
      answers, labelled with the fully parenthesised text of `e`. */
  lemma EvaluatePostfix(e: Expr, answers: Answers)
    ensures forall n :: n in Vars(e) ==> n in NewNames(Postfix(e), {})
    ensures Evaluate(Postfix(e), answers) ==
      Evaluation(Ok(Item(Denote(e, NewNames(Postfix(e), {}), answers), Show(e))), NewNames(Postfix(e), {}))
  {
    ExecPostfix(e, Start(), answers);
    PromptsOncePerVariable(Postfix(e), answers);
  }

  // ---------------------------------------------------------------------
  // Reading an expression back: the tokens of the fully parenthesised text
  // of an expression parse to the program of that expression.

  /** Expressions whose text the parser reads back: numbers spelled in
      decimal, variables not named like a function, and no call as the left
      operand of an operator (the operator would meet the function on the
      stack and stop the parse). */
  predicate Readable(e: Expr) {
    match e
    case Num(v, text) => Parser.IsDecimal(text) && Parser.DecimalValue(text) == v
    case Var(n) => n !in Functions
    case Bin(_, l, r) => !l.App? && Readable(l) && Readable(r)
    case App(_, a) => Readable(a)
  }

  /** The tokens of `Show(e)`: each operator application in parentheses,
      each call as the function name followed by its parenthesised argument. */
  function Tokens(e: Expr): seq<Parser.Token> {
    match e
    case Num(_, text) => [Parser.Tok(Parser.NUMBER, text)]
    case Var(n) => [Parser.Tok(Parser.TERM, n)]
    case Bin(f, l, r) =>
      [Parser.Tok(Parser.PARENTHESIS, "(")] + Tokens(l) + [Parser.Tok(Parser.OPERATOR, BinSymbol(f))] +
      Tokens(r) + [Parser.Tok(Parser.PARENTHESIS, ")")]
    case App(g, a) =>
      [Parser.Tok(Parser.TERM, FunctionFor(g).symbol), Parser.Tok(Parser.PARENTHESIS, "(")] + Tokens(a) +
      [Parser.Tok(Parser.PARENTHESIS, ")")]
  }

  /** What is still on the operator stack once the tokens of `e` are read:
      the function of a call waits for an enclosing `)` or the end of input. */
  function Held(e: Expr): seq<Term> {
    if e.App? then [FunctionFor(e.g)] else []
  }

  /** What is already in the output by then. */
  function Emitted(e: Expr): (r: seq<Term>)
    ensures r + Held(e) == Postfix(e)
  {
    if e.App? then Postfix(e.a) else Postfix(e)
  }

  /** The names table binding exactly `keys`, each to the variable of its
      name. */
  function Bound(keys: set<string>): map<string, Term> {
    map k | k in keys :: Symbol(k)
  }

  /** Every table the parser keeps is of that form. */
  lemma BoundNames(names: map<string, Term>)
    requires Parser.NamesOk(names)
    ensures names == Bound(names.Keys)
  {
  }

  function Reversed(s: seq<Term>): seq<Term>
    decreases |s|
  {
    if |s| == 0 then [] else [s[|s| - 1]] + Reversed(s[..|s| - 1])
  }

  lemma ReversedPair(x: Term, y: Term)
    ensures Reversed([x]) == [x] && Reversed([x, y]) == [y, x]
  {
    assert [x][..0] == [];
    assert [x, y][..1] == [x];
  }

  /** A `)` moves the entries above the nearest `(` to the output, top
      first, and drops the `(`. */
  lemma {:induction false} CloseThrough(st: Parser.PState, base: seq<Term>, xs: seq<Term>)
    requires st.stack == base + [Paren("(")] + xs
    requires forall i :: 0 <= i < |xs| ==> xs[i].symbol != "("
    ensures Parser.CloseParen(st) == Ok(st.(output := st.output + Reversed(xs), stack := base))
    decreases |xs|
  {
    var n := |xs|;
    assert Parser.Top(st.stack) == if n == 0 then Paren("(") else xs[n - 1];
    if n == 0 {
      assert Parser.Pop(st.stack) == base;
      assert st.output + Reversed(xs) == st.output;
    } else {
      assert Parser.Pop(st.stack) == base + [Paren("(")] + xs[..n - 1];
      var next := st.(output := st.output + [xs[n - 1]], stack := Parser.Pop(st.stack));
      CloseThrough(next, base, xs[..n - 1]);
      assert next.output + Reversed(xs[..n - 1]) == st.output + Reversed(xs);
    }
  }

  /** Reading two runs of tokens, the second from where the first ended. */
  lemma Chain(mode: Mode, st: Parser.PState, a: seq<Parser.Token>, b: seq<Parser.Token>, mid: Parser.PState)
    requires Parser.Feed(mode, st, a) == Ok(mid)
    ensures Parser.Feed(mode, st, a + b) == Parser.Feed(mode, mid, b)
  {
    Parser.FeedAppend(mode, st, a, b);
  }

  /** Reading three runs of tokens, each from where the previous one ended. */
  lemma Chain3(mode: Mode, s0: Parser.PState, a: seq<Parser.Token>, b: seq<Parser.Token>, c: seq<Parser.Token>,
               s1: Parser.PState, s2: Parser.PState, s3: Parser.PState)
    requires Parser.Feed(mode, s0, a) == Ok(s1)
    requires Parser.Feed(mode, s1, b) == Ok(s2)
    requires Parser.Feed(mode, s2, c) == Ok(s3)
    ensures Parser.Feed(mode, s0, a + b + c) == Ok(s3)
  {
    Chain(mode, s0, a, b, s1);
    Chain(mode, s0, a + b, c, s2);
  }

  // One token at a time.

  lemma ReadNumber(mode: Mode, st: Parser.PState, v: int, text: string)
    requires Readable(Num(v, text))
    ensures Parser.Feed(mode, st, Tokens(Num(v, text))) == Ok(st.(output := st.output + [Number(v, text)]))
  {
    Parser.FeedOne(mode, st, Parser.Tok(Parser.NUMBER, text));
  }

  lemma ReadVar(mode: Mode, out: seq<Term>, stack: seq<Term>, keys: set<string>, n: string)
    requires Readable(Var(n))
    ensures Parser.Feed(mode, Parser.PState(out, stack, Bound(keys)), Tokens(Var(n))) ==
      Ok(Parser.PState(out + [Symbol(n)], stack, Bound(keys + {n})))
  {
    Parser.FeedOne(mode, Parser.PState(out, stack, Bound(keys)), Parser.Tok(Parser.TERM, n));
    if n in keys {
      assert keys + {n} == keys;
    } else {
      assert Bound(keys)[n := Symbol(n)] == Bound(keys + {n});
    }
  }

  lemma ReadOpen(mode: Mode, st: Parser.PState)
    ensures Parser.Feed(mode, st, [Parser.Tok(Parser.PARENTHESIS, "(")]) == Ok(st.(stack := st.stack + [Paren("(")]))
  {
    Parser.FeedOne(mode, st, Parser.Tok(Parser.PARENTHESIS, "("));
  }

  /** A function name and its `(` go onto the stack. */
  lemma ReadCall(mode: Mode, st: Parser.PState, g: UnFn)
    ensures Parser.Feed(mode, st, [Parser.Tok(Parser.TERM, FunctionFor(g).symbol), Parser.Tok(Parser.PARENTHESIS, "(")]) ==
      Ok(st.(stack := st.stack + [FunctionFor(g), Paren("(")]))
  {
    var name := Parser.Tok(Parser.TERM, FunctionFor(g).symbol);
    var s1 := st.(stack := st.stack + [FunctionFor(g)]);
    Parser.FeedOne(mode, st, name);
    ReadOpen(mode, s1);
    Chain(mode, st, [name], [Parser.Tok(Parser.PARENTHESIS, "(")], s1);
    assert [name] + [Parser.Tok(Parser.PARENTHESIS, "(")] == [name, Parser.Tok(Parser.PARENTHESIS, "(")];
    assert s1.stack + [Paren("(")] == st.stack + [FunctionFor(g), Paren("(")];
  }

  /** An operator with `(` on top of the stack is pushed at once. */
  lemma ReadOperator(mode: Mode, st: Parser.PState, f: BinFn)
    requires |st.stack| > 0 && Parser.Top(st.stack) == Paren("(")
    ensures Parser.Feed(mode, st, [Parser.Tok(Parser.OPERATOR, BinSymbol(f))]) ==
      Ok(st.(stack := st.stack + [OperatorFor(f)]))
  {
    var t := OperatorFor(f);
    assert Ops[BinSymbol(f)] == t;
    assert Parser.PopsBefore(Parser.Top(st.stack), t) == Ok(false);
    Parser.FeedOne(mode, st, Parser.Tok(Parser.OPERATOR, BinSymbol(f)));
  }

  /** The `)` that closes an operator application: the right operand's
      function, if any, then the operator go to the output. */
  lemma ReadCloseRight(mode: Mode, st: Parser.PState, base: seq<Term>, t: Term, r: Expr)
    requires IsTableOperator(t)
    requires st.stack == base + [Paren("("), t] + Held(r)
    ensures Parser.Feed(mode, st, [Parser.Tok(Parser.PARENTHESIS, ")")]) ==
      Ok(st.(output := st.output + (Held(r) + [t]), stack := base))
  {
    var xs := [t] + Held(r);
    assert st.stack == base + [Paren("(")] + xs;
    TableSymbols(t);
    if r.App? {
      TableSymbols(FunctionFor(r.g));
      ReversedPair(t, FunctionFor(r.g));
      assert Held(r) == [FunctionFor(r.g)] && xs == [t, FunctionFor(r.g)];
    } else {
      ReversedPair(t, t);
      assert Held(r) == [] && xs == [t];
    }
    assert Reversed(xs) == Held(r) + [t];
    CloseThrough(st, base, xs);
    Parser.FeedOne(mode, st, Parser.Tok(Parser.PARENTHESIS, ")"));
  }

  /** The `)` that closes a call's argument. */
  lemma ReadCloseArgument(mode: Mode, st: Parser.PState, base: seq<Term>, a: Expr)
    requires st.stack == base + [Paren("(")] + Held(a)
    ensures Parser.Feed(mode, st, [Parser.Tok(Parser.PARENTHESIS, ")")]) ==
      Ok(st.(output := st.output + Held(a), stack := base))
  {
    if a.App? {
      TableSymbols(FunctionFor(a.g));
      ReversedPair(FunctionFor(a.g), FunctionFor(a.g));
    }
    CloseThrough(st, base, Held(a));
    Parser.FeedOne(mode, st, Parser.Tok(Parser.PARENTHESIS, ")"));
  }

  /** The pieces of an operator application add up to its program. */
  lemma BinOutput(out: seq<Term>, f: BinFn, l: Expr, r: Expr)
    ensures out + Postfix(l) + Emitted(r) + (Held(r) + [OperatorFor(f)]) == out + Postfix(Bin(f, l, r))
  {
    var t := OperatorFor(f);
    calc {
      out + Postfix(l) + Emitted(r) + (Held(r) + [t]);
      { SeqAssoc(out + Postfix(l), Emitted(r), Held(r), [t]); }
      out + Postfix(l) + (Emitted(r) + Held(r)) + [t];
      out + Postfix(l) + Postfix(r) + [t];
      { SeqAssoc(out, Postfix(l), Postfix(r), [t]); }
      out + (Postfix(l) + Postfix(r) + [t]);
    }
  }

  /** Regrouping four concatenated sequences. */
  lemma SeqAssoc(a: seq<Term>, b: seq<Term>, c: seq<Term>, d: seq<Term>)
    ensures a + b + (c + d) == a + (b + c) + d
    ensures a + b + c + d == a + (b + c + d)
  {
  }

  /** The variables of an operator application are those of its operands. */
  lemma BinKeys(keys: set<string>, f: BinFn, l: Expr, r: Expr)
    ensures keys + Vars(l) + Vars(r) == keys + Vars(Bin(f, l, r))
  {
  }

  // Whole expressions.

  /** Reading the tokens of `e` appends the program of `e` to the output,
      except the function of a call, which stays on top of the stack, and
      binds the variables of `e`. */
  lemma {:induction false} ReadTokens(mode: Mode, out: seq<Term>, stack: seq<Term>, keys: set<string>, e: Expr)
    requires Readable(e)
    ensures Parser.Feed(mode, Parser.PState(out, stack, Bound(keys)), Tokens(e)) ==
      Ok(Parser.PState(out + Emitted(e), stack + Held(e), Bound(keys + Vars(e))))
    decreases e, 1
  {
    match e
    case Num(v, text) =>
      ReadNumber(mode, Parser.PState(out, stack, Bound(keys)), v, text);
      assert keys + Vars(e) == keys && stack + Held(e) == stack;
    case Var(n) =>
      ReadVar(mode, out, stack, keys, n);
      assert stack + Held(e) == stack;
    case Bin(f, l, r) =>
      ReadBin(mode, out, stack, keys, f, l, r);
      assert Emitted(e) == Postfix(e) && stack + Held(e) == stack;
    case App(g, a) =>
      ReadApp(mode, out, stack, keys, g, a);
  }

  /** `(`, a left operand that is not a call, and an operator: the operand
      goes to the output and the operator onto the `(`. */
  lemma {:induction false} ReadLeft(mode: Mode, out: seq<Term>, stack: seq<Term>, keys: set<string>, f: BinFn, l: Expr)
    requires Readable(l) && !l.App?
    ensures Parser.Feed(mode, Parser.PState(out, stack, Bound(keys)),
        [Parser.Tok(Parser.PARENTHESIS, "(")] + Tokens(l) + [Parser.Tok(Parser.OPERATOR, BinSymbol(f))]) ==
      Ok(Parser.PState(out + Postfix(l), stack + [Paren("("), OperatorFor(f)], Bound(keys + Vars(l))))
    decreases l, 2
  {
    var s0 := Parser.PState(out, stack, Bound(keys));
    var s1 := Parser.PState(out, stack + [Paren("(")], Bound(keys));
    var s2 := Parser.PState(out + Postfix(l), stack + [Paren("(")], Bound(keys + Vars(l)));
    var s3 := Parser.PState(out + Postfix(l), stack + [Paren("("), OperatorFor(f)], Bound(keys + Vars(l)));
    ReadOpen(mode, s0);
    ReadTokens(mode, out, stack + [Paren("(")], keys, l);
    assert stack + [Paren("(")] + Held(l) == stack + [Paren("(")] && Emitted(l) == Postfix(l);
    ReadOperator(mode, s2, f);
    assert s2.stack + [OperatorFor(f)] == s3.stack;
    Chain3(mode, s0, [Parser.Tok(Parser.PARENTHESIS, "(")], Tokens(l), [Parser.Tok(Parser.OPERATOR, BinSymbol(f))], s1, s2, s3);
  }

  lemma {:induction false} ReadBin(mode: Mode, out: seq<Term>, stack: seq<Term>, keys: set<string>, f: BinFn, l: Expr, r: Expr)
    requires !l.App? && Readable(l) && Readable(r)
    ensures Parser.Feed(mode, Parser.PState(out, stack, Bound(keys)), Tokens(Bin(f, l, r))) ==
      Ok(Parser.PState(out + Postfix(Bin(f, l, r)), stack, Bound(keys + Vars(Bin(f, l, r)))))
    decreases Bin(f, l, r), 0
  {
    var t := OperatorFor(f);
    var close := [Parser.Tok(Parser.PARENTHESIS, ")")];
    var c := [Parser.Tok(Parser.PARENTHESIS, "(")] + Tokens(l) + [Parser.Tok(Parser.OPERATOR, BinSymbol(f))];
    var k3 := keys + Vars(l);
    var s0 := Parser.PState(out, stack, Bound(keys));
    var s3 := Parser.PState(out + Postfix(l), stack + [Paren("("), t], Bound(k3));
    var s4 := Parser.PState(out + Postfix(l) + Emitted(r), stack + [Paren("("), t] + Held(r), Bound(k3 + Vars(r)));
    ReadLeft(mode, out, stack, keys, f, l);
    ReadTokens(mode, out + Postfix(l), stack + [Paren("("), t], k3, r);
    ReadCloseRight(mode, s4, stack, t, r);
    BinOutput(out, f, l, r);
    BinKeys(keys, f, l, r);
    Chain3(mode, s0, c, Tokens(r), close, s3, s4, s4.(output := s4.output + (Held(r) + [t]), stack := stack));
    assert Tokens(Bin(f, l, r)) == c + Tokens(r) + close;
  }

  lemma {:induction false} ReadApp(mode: Mode, out: seq<Term>, stack: seq<Term>, keys: set<string>, g: UnFn, a: Expr)
    requires Readable(a)
    ensures Parser.Feed(mode, Parser.PState(out, stack, Bound(keys)), Tokens(App(g, a))) ==
      Ok(Parser.PState(out + Postfix(a), stack + [FunctionFor(g)], Bound(keys + Vars(a))))
    decreases App(g, a), 0
  {
    var F := FunctionFor(g);
    var call := [Parser.Tok(Parser.TERM, F.symbol), Parser.Tok(Parser.PARENTHESIS, "(")];
    var close := [Parser.Tok(Parser.PARENTHESIS, ")")];
    var s0 := Parser.PState(out, stack, Bound(keys));
    var s2 := Parser.PState(out, stack + [F, Paren("(")], Bound(keys));
    var s3 := Parser.PState(out + Emitted(a), stack + [F, Paren("(")] + Held(a), Bound(keys + Vars(a)));
    ReadCall(mode, s0, g);
    ReadTokens(mode, out, stack + [F, Paren("(")], keys, a);
    assert s3.stack == (stack + [F]) + [Paren("(")] + Held(a);
    ReadCloseArgument(mode, s3, stack + [F], a);
    assert out + Emitted(a) + Held(a) == out + Postfix(a);
    Chain3(mode, s0, call, Tokens(a), close, s2, s3, s3.(output := s3.output + Held(a), stack := stack + [F]));
    assert Tokens(App(g, a)) == call + Tokens(a) + close;
  }

  /** The parser reads the tokens of any readable expression back as the
      program of that expression, with or without the emptiness guard. */
  lemma ParseTokensOf(mode: Mode, e: Expr, names: map<string, Term>)
    requires Readable(e) && Parser.NamesOk(names)
    ensures Parser.ParseFrom(mode, Parser.PState([], [], names), Tokens(e)).result == Ok(Postfix(e))
  {
    BoundNames(names);
    ReadTokens(mode, [], [], names.Keys, e);
    var end := Parser.PState(Emitted(e), Held(e), Bound(names.Keys + Vars(e)));
    assert [] + Emitted(e) == Emitted(e) && [] + Held(e) == Held(e);
    assert Parser.ParseFrom(mode, Parser.PState([], [], names), Tokens(e)).result == Parser.Drain(end);
    if e.App? {
      TableSymbols(FunctionFor(e.g));
      assert Parser.Pop(end.stack) == [];
      assert Parser.Drain(end) == Parser.Drain(end.(output := Postfix(e), stack := []));
    }
  }

  /** Parsing the text of any readable expression and evaluating the
      program reports the value of the expression, labelled with that same
      fully parenthesised text, after one prompt per variable in order of
      first occurrence. */
  lemma ParseThenEvaluate(e: Expr, names: map<string, Term>, answers: Answers)
    requires Readable(e) && Parser.NamesOk(names)
    ensures Parser.ParseTokens(Tokens(e), names).result == Ok(Postfix(e))
    ensures Parser.ParseTokensGuarded(Tokens(e), names).result == Ok(Postfix(e))
    ensures forall n :: n in Vars(e) ==> n in NewNames(Postfix(e), {})
    ensures Evaluate(Postfix(e), answers) ==
      Evaluation(Ok(Item(Denote(e, NewNames(Postfix(e), {}), answers), Show(e))), NewNames(Postfix(e), {}))
  {
    ParseTokensOf(AsWritten, e, names);
    ParseTokensOf(Guarded, e, names);
    EvaluatePostfix(e, answers);
  }

  // ---------------------------------------------------------------------
  // From tokens to a reported result.

  /** `2^3^2` read as `2^(3^2)`. */
  function PowerExpr(): Expr {
    Bin(PowOp, Num(2, "2"), Bin(PowOp, Num(3, "3"), Num(2, "2")))
  }

  lemma PowerProgram()
    ensures Postfix(PowerExpr()) == [Number(2, "2"), Number(3, "3"), Number(2, "2"), Ops["^"], Ops["^"]]
  {
    assert Postfix(Bin(PowOp, Num(3, "3"), Num(2, "2"))) == [Number(3, "3"), Number(2, "2"), Ops["^"]];
  }

  lemma PowerText()
    ensures Show(PowerExpr()) == "(2 ^ (3 ^ 2))"
  {
    assert Show(Bin(PowOp, Num(3, "3"), Num(2, "2"))) == "(3 ^ 2)";
  }

  /** Parsing `2^3^2` yields the program of `2^(3^2)`, whose evaluation
      prompts for nothing and reports the label `(2 ^ (3 ^ 2))`. */
  lemma PowerEndToEnd(names: map<string, Term>, answers: Answers)
    ensures Parser.ParseTokens(Parser.PowerTokens(), names).result == Ok(Postfix(PowerExpr()))
    ensures Evaluate(Postfix(PowerExpr()), answers) ==
      Evaluation(Ok(Item(Apply(PowOp, Int(2), Apply(PowOp, Int(3), Int(2))), "(2 ^ (3 ^ 2))")), [])
  {
    Parser.RightAssociativeExample(names);
    PowerProgram();
    PowerText();
    EvaluatePostfix(PowerExpr(), answers);
    NewNamesSpec(Postfix(PowerExpr()), {});
    assert NewNames(Postfix(PowerExpr()), {}) == [];
  }

  function SquareExpr(): Expr {
    Bin(MulOp, Var("x"), Var("x"))
  }

  lemma SquareProgram()
    ensures Postfix(SquareExpr()) == [Symbol("x"), Symbol("x"), Ops["*"]]
    ensures Show(SquareExpr()) == "(x * x)"
  {
  }

  lemma SquareNames()
    ensures NewNames(Postfix(SquareExpr()), {}) == ["x"]
  {
    SquareProgram();
    var p := Postfix(SquareExpr());
    assert p[1..][1..][1..] == [];
    assert NewNames(p[1..][1..], {"x"}) == [];
    assert NewNames(p[1..], {"x"}) == [];
    assert {} + {"x"} == {"x"};
  }

  /** Parsing `x*x` binds `x` and yields the program of `x*x`; evaluating
      it prompts for `x` once and uses the answer twice. */
  lemma SquareEndToEnd(names: map<string, Term>, answers: Answers)
    requires "x" !in names
    ensures Parser.ParseTokens(Parser.SquareTokens(), names).result == Ok(Postfix(SquareExpr()))
    ensures Evaluate(Postfix(SquareExpr()), answers) ==
      Evaluation(Ok(Item(Apply(MulOp, Int(answers(0)), Int(answers(0))), "(x * x)")), ["x"])
  {
    Parser.VariableExample(names);
    SquareProgram();
    SquareNames();
    EvaluatePostfix(SquareExpr(), answers);
  }
}
