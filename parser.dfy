/** `parse` of src/main.py: the shunting-yard algorithm over tokens, with the
    process-wide `names` table of variables owned by a `Parser` object. */
module Parser {
  import opened Wrappers
  import opened Seqs
  import opened Terms
  import opened Syntax

  datatype Kind = NUMBER | TERM | OPERATOR | PARENTHESIS

  /** A token as the tokenizer delivers it. */
  datatype Token = Token(kind: Kind, value: string, line: int, col: int)

  /** The ways `parse` stops early: `)` with no `(` below it (an `IndexError`
      on the empty stack), a `(` left at the end (the assertion), the pop loop
      emptying the stack and reading its top again (an `IndexError`), a
      function met by the pop loop (it has no `prec`), an operator missing
      from the table (a `KeyError`), and number text `int` rejects. */
  datatype ParseError =
    | UnmatchedClose
    | UnclosedOpen
    | EmptiedStack
    | NoPrecedence(symbol: string)
    | UnknownOperator(symbol: string)
    | BadNumber(text: string)

  /** Number text: a non-empty run of decimal digits. */
  predicate IsDecimal(s: string) {
    |s| > 0 && forall i :: 0 <= i < |s| ==> IsDigit(s[i])
  }

  /** The integer a run of decimal digits denotes. */
  function DecimalValue(s: string): (n: nat)
    requires forall i :: 0 <= i < |s| ==> IsDigit(s[i])
    decreases |s|
  {
    if |s| == 0 then 0
    else
      assert IsDigit(s[|s| - 1]);
      DecimalValue(s[..|s| - 1]) * 10 + (s[|s| - 1] as int - '0' as int)
  }

  /** Every entry of the names table is the variable of its own name. */
  ghost predicate NamesOk(names: map<string, Term>) {
    forall k :: k in names ==> names[k] == Symbol(k)
  }

  /** What may be pushed: a `(` marker or an entry of either table. */
  predicate Stackable(t: Term) {
    t == Paren("(") || IsTableOperator(t) || IsTableFunction(t)
  }

  /** Only `(` markers and table entries are ever pushed. */
  ghost predicate StackShape(stack: seq<Term>) {
    forall i :: 0 <= i < |stack| ==> Stackable(stack[i])
  }

  datatype PState = PState(output: seq<Term>, stack: seq<Term>, names: map<string, Term>)

  function Top(stack: seq<Term>): Term
    requires |stack| > 0
  {
    stack[|stack| - 1]
  }

  function Pop(stack: seq<Term>): seq<Term>
    requires |stack| > 0
  {
    stack[..|stack| - 1]
  }

  /** The condition of the pop loop for operator `op` against the stack top:
      stop at a `(`; fail on anything without a precedence; otherwise pop what
      binds tighter, or as tight when `op` is left-associative. */
  function PopsBefore(top: Term, op: Term): (r: Result<bool, ParseError>)
    requires op.Operator?
    ensures r.Err? <==> top.symbol != "(" && !top.Operator?
    ensures r == Ok(true) ==> top.symbol != "(" && (top.prec > op.prec || (top.prec == op.prec && op.assc == Left))
  {
    if top.symbol == "(" then Ok(false)
    else if !top.Operator? then Err(NoPrecedence(top.symbol))
    else Ok(top.prec > op.prec || (top.prec == op.prec && op.assc == Left))
  }

  /** The pop loop for `op`, entered with a non-empty stack, then the push.
      As written, a pop that empties the stack is followed by reading the top
      of the empty stack; the guarded variant ends the loop there instead. */
  function PopAbove(mode: Mode, op: Term, st: PState): (r: Result<PState, ParseError>)
    requires op.Operator? && |st.stack| > 0
    ensures r.Ok? ==> r.value.names == st.names
    ensures r.Err? ==> r.error.NoPrecedence? || (r.error == EmptiedStack && mode == AsWritten)
    decreases |st.stack|
  {
    match PopsBefore(Top(st.stack), op)
    case Err(e) => Err(e)
    case Ok(pops) =>
      if !pops then Ok(st.(stack := st.stack + [op]))
      else
        var next := st.(output := st.output + [Top(st.stack)], stack := Pop(st.stack));
        if |next.stack| > 0 then PopAbove(mode, op, next)
        else if mode == AsWritten then Err(EmptiedStack)
        else Ok(next.(stack := [op]))
  }

  /** A `)`: move entries to the output down to the nearest `(`, then drop it. */
  function CloseParen(st: PState): (r: Result<PState, ParseError>)
    ensures r.Ok? ==> r.value.names == st.names
    ensures r.Err? ==> r.error == UnmatchedClose
    decreases |st.stack|
  {
    if |st.stack| == 0 then Err(UnmatchedClose)
    else if Top(st.stack).symbol == "(" then Ok(st.(stack := Pop(st.stack)))
    else CloseParen(st.(output := st.output + [Top(st.stack)], stack := Pop(st.stack)))
  }

  /** One pass of the `for` loop: the `match` on the token. */
  function Step(mode: Mode, st: PState, tok: Token): Result<PState, ParseError> {
    match tok.kind
    case NUMBER =>
      if IsDecimal(tok.value) then Ok(st.(output := st.output + [Number(DecimalValue(tok.value), tok.value)]))
      else Err(BadNumber(tok.value))
    case PARENTHESIS =>
      if tok.value == "(" then Ok(st.(stack := st.stack + [Paren(tok.value)]))
      else if tok.value == ")" then CloseParen(st)
      else Ok(st)
    case OPERATOR =>
      if tok.value !in Ops then Err(UnknownOperator(tok.value))
      else if |st.stack| == 0 then Ok(st.(stack := st.stack + [Ops[tok.value]]))
      else PopAbove(mode, Ops[tok.value], st)
    case TERM =>
      if tok.value in Functions then Ok(st.(stack := st.stack + [Functions[tok.value]]))
      else if tok.value in st.names then Ok(st.(output := st.output + [st.names[tok.value]]))
      else
        var names := st.names[tok.value := Symbol(tok.value)];
        Ok(st.(output := st.output + [names[tok.value]], names := names))
  }

  /** Why a parse stopped, and the names table as it was then. */
  datatype Stopped = Stopped(error: ParseError, names: map<string, Term>)

  /** The `for` loop over the remaining tokens. */
  function Feed(mode: Mode, st: PState, tokens: seq<Token>): Result<PState, Stopped>
    decreases |tokens|
  {
    if |tokens| == 0 then Ok(st)
    else match Step(mode, st, tokens[0])
      case Err(e) => Err(Stopped(e, st.names))
      case Ok(next) => Feed(mode, next, tokens[1..])
  }

  /** The final loop: pop everything to the output; a `(` fails the assertion. */
  function Drain(st: PState): (r: Result<seq<Term>, ParseError>)
    ensures r.Err? ==> r.error == UnclosedOpen
    decreases |st.stack|
  {
    if |st.stack| == 0 then Ok(st.output)
    else if Top(st.stack).symbol == "(" then Err(UnclosedOpen)
    else Drain(st.(output := st.output + [Top(st.stack)], stack := Pop(st.stack)))
  }

  /** The program produced (or the error) and the names table afterwards. */
  datatype Parsed = Parsed(result: Result<seq<Term>, ParseError>, names: map<string, Term>)

  function ParseFrom(mode: Mode, st: PState, tokens: seq<Token>): Parsed {
    match Feed(mode, st, tokens)
    case Err(Stopped(e, names)) => Parsed(Err(e), names)
    case Ok(end) => Parsed(Drain(end), end.names)
  }

  /** `parse(tokens)` as written, with the names table `names` as it stands
      before the call. */
  function ParseTokens(tokens: seq<Token>, names: map<string, Term>): Parsed {
    ParseFrom(AsWritten, PState([], [], names), tokens)
  }

  /** The same with the emptiness guard on the pop loop. */
  function ParseTokensGuarded(tokens: seq<Token>, names: map<string, Term>): Parsed {
    ParseFrom(Guarded, PState([], [], names), tokens)
  }

  lemma ParseFromUnfold(mode: Mode, st: PState, tokens: seq<Token>)
    requires |tokens| > 0
    ensures Step(mode, st, tokens[0]).Err? ==> ParseFrom(mode, st, tokens) == Parsed(Err(Step(mode, st, tokens[0]).error), st.names)
    ensures Step(mode, st, tokens[0]).Ok? ==> ParseFrom(mode, st, tokens) == ParseFrom(mode, Step(mode, st, tokens[0]).value, tokens[1..])
  {
  }

  /** The owner of the process-wide names table. */
  class Parser {
    var names: map<string, Term>

    ghost predicate Valid()
      reads this
    {
      NamesOk(names)
    }

    constructor ()
      ensures Valid() && names == map[]
    {
      names := map[];
    }

    /** `parse`: the names table keeps every entry it had and gains the
        variables met before the parse ended. */
    method Parse(tokens: seq<Token>) returns (r: Result<seq<Term>, ParseError>)
      requires Valid()
      modifies this
      ensures Valid()
      ensures Parsed(r, names) == ParseTokens(tokens, old(names))
      ensures old(names).Keys <= names.Keys
      ensures forall k :: k in old(names) ==> names[k] == old(names)[k]
    {
      var output: seq<Term> := [];
      var stack: seq<Term> := [];
      for i := 0 to |tokens|
        invariant NamesOk(names)
        invariant old(names).Keys <= names.Keys
        invariant forall k :: k in old(names) ==> names[k] == old(names)[k]
        invariant ParseFrom(AsWritten, PState(output, stack, names), tokens[i..]) == ParseTokens(tokens, old(names))
      {
        var tok := tokens[i];
        assert tokens[i..][0] == tok && tokens[i..][1..] == tokens[i + 1..];
        ParseFromUnfold(AsWritten, PState(output, stack, names), tokens[i..]);
        match tok.kind {
          case NUMBER =>
            if !IsDecimal(tok.value) {
              return Err(BadNumber(tok.value));
            }
            output := output + [Number(DecimalValue(tok.value), tok.value)];
          case PARENTHESIS =>
            if tok.value == "(" {
              stack := stack + [Paren(tok.value)];
            } else if tok.value == ")" {
              var closed := CloseParenthesis(PState(output, stack, names));
              if closed.Err? {
                return Err(closed.error);
              }
              output, stack := closed.value.output, closed.value.stack;
            }
          case OPERATOR =>
            if tok.value !in Ops {
              return Err(UnknownOperator(tok.value));
            }
            var op := Ops[tok.value];
            if |stack| == 0 {
              stack := stack + [op];
            } else {
              var pushed := PushOperator(op, PState(output, stack, names));
              if pushed.Err? {
                return Err(pushed.error);
              }
              output, stack := pushed.value.output, pushed.value.stack;
            }
          case TERM =>
            if tok.value in Functions {
              stack := stack + [Functions[tok.value]];
            } else if tok.value in names {
              output := output + [names[tok.value]];
            } else {
              names := names[tok.value := Symbol(tok.value)];
              output := output + [names[tok.value]];
            }
        }
      }
      r := DrainStack(PState(output, stack, names));
    }
  }

  /** The `elif token.value == ")"` branch of `parse`: move entries to the
      output down to the nearest `(`, which must exist, and drop it. */
  method CloseParenthesis(st: PState) returns (r: Result<PState, ParseError>)
    ensures r == CloseParen(st)
  {
    var output, stack := st.output, st.stack;
    while |stack| > 0 && Top(stack).symbol != "("
      invariant CloseParen(PState(output, stack, st.names)) == CloseParen(st)
      decreases |stack|
    {
      output := output + [Top(stack)];
      stack := Pop(stack);
    }
    if |stack| == 0 {
      return Err(UnmatchedClose);
    }
    r := Ok(PState(output, Pop(stack), st.names));
  }

  /** The `while` loop of the operator branch of `parse` and the push after
      it, entered with a non-empty stack. */
  method PushOperator(op: Term, st: PState) returns (r: Result<PState, ParseError>)
    requires op.Operator? && |st.stack| > 0
    ensures r == PopAbove(AsWritten, op, st)
  {
    var output, stack := st.output, st.stack;
    while true
      invariant |stack| > 0
      invariant PopAbove(AsWritten, op, PState(output, stack, st.names)) == PopAbove(AsWritten, op, st)
      decreases |stack|
    {
      var top := Top(stack);
      if top.symbol == "(" {
        break;
      }
      if !top.Operator? {
        return Err(NoPrecedence(top.symbol));
      }
      if !(top.prec > op.prec || (top.prec == op.prec && op.assc == Left)) {
        break;
      }
      output := output + [top];
      stack := Pop(stack);
      if |stack| == 0 {
        return Err(EmptiedStack);
      }
    }
    r := Ok(PState(output, stack + [op], st.names));
  }

  /** The final `while` loop of `parse`: pop every entry to the output,
      failing on a `(`. */
  method DrainStack(st: PState) returns (r: Result<seq<Term>, ParseError>)
    ensures r == Drain(st)
  {
    var output, stack := st.output, st.stack;
    while |stack| > 0
      invariant Drain(PState(output, stack, st.names)) == Drain(st)
      decreases |stack|
    {
      if Top(stack).symbol == "(" {
        return Err(UnclosedOpen);
      }
      output := output + [Top(stack)];
      stack := Pop(stack);
    }
    r := Ok(output);
  }

  // ---------------------------------------------------------------------
  // The program holds exactly the terms the tokens stand for.

  /** The term a token stands for in the program, if any: a number, an
      operator or function of the tables, or the variable of its name. */
  function Contribution(tok: Token): (r: seq<Term>)
    ensures |r| <= 1
    ensures forall t :: t in r ==> !t.Paren?
  {
    match tok.kind
    case NUMBER => if IsDecimal(tok.value) then [Number(DecimalValue(tok.value), tok.value)] else []
    case PARENTHESIS => []
    case OPERATOR => if tok.value in Ops then [Ops[tok.value]] else []
    case TERM => if tok.value in Functions then [Functions[tok.value]] else [Symbol(tok.value)]
  }

  function Contributed(tokens: seq<Token>): (r: seq<Term>)
    ensures forall t :: t in r ==> !t.Paren?
    decreases |tokens|
  {
    if |tokens| == 0 then [] else Contribution(tokens[0]) + Contributed(tokens[1..])
  }

  /** Numbers and variables: the terms that push a value when evaluated. */
  predicate IsOperand(t: Term) {
    t.Number? || t.Symbol?
  }

  /** Stack entries that will still reach the output. */
  predicate Pending(t: Term) {
    !t.Paren?
  }

  /** Every term of `terms` sits in the output or, pending, on the stack;
      the operands reached the output in the order of `terms`. */
  ghost predicate Accounted(st: PState, terms: seq<Term>) {
    StackShape(st.stack) &&
    multiset(st.output) + multiset(Filter(st.stack, Pending)) == multiset(terms) &&
    Filter(st.output, IsOperand) == Filter(terms, IsOperand)
  }

  /** Appending an operand to the output. */
  lemma EmitAccounted(st: PState, terms: seq<Term>, t: Term)
    requires Accounted(st, terms) && IsOperand(t)
    ensures Accounted(st.(output := st.output + [t]), terms + [t])
  {
    FilterAppend(st.output, [t], IsOperand);
    FilterAppend(terms, [t], IsOperand);
    FilterOne(t, IsOperand);
  }

  /** Pushing a `(` marker. */
  lemma OpenAccounted(st: PState, terms: seq<Term>)
    requires Accounted(st, terms)
    ensures Accounted(st.(stack := st.stack + [Paren("(")]), terms)
  {
    FilterAppend(st.stack, [Paren("(")], Pending);
    FilterOne(Paren("("), Pending);
  }

  lemma PushCounts(st: PState, terms: seq<Term>, t: Term)
    requires multiset(st.output) + multiset(Filter(st.stack, Pending)) == multiset(terms) && Pending(t)
    ensures multiset(st.output) + multiset(Filter(st.stack + [t], Pending)) == multiset(terms + [t])
  {
    FilterAppend(st.stack, [t], Pending);
    FilterOne(t, Pending);
  }

  lemma PushOperands(terms: seq<Term>, t: Term)
    requires !IsOperand(t)
    ensures Filter(terms + [t], IsOperand) == Filter(terms, IsOperand)
  {
    FilterAppend(terms, [t], IsOperand);
    FilterOne(t, IsOperand);
  }

  lemma PushShape(stack: seq<Term>, t: Term)
    requires StackShape(stack) && Stackable(t)
    ensures StackShape(stack + [t])
  {
  }

  /** Pushing an operator or a function. */
  lemma PushAccounted(st: PState, terms: seq<Term>, t: Term)
    requires Accounted(st, terms) && (IsTableOperator(t) || IsTableFunction(t))
    ensures Accounted(st.(stack := st.stack + [t]), terms + [t])
  {
    PushCounts(st, terms, t);
    PushOperands(terms, t);
    PushShape(st.stack, t);
  }

  /** Removing the top of a well-formed stack leaves it well formed. */
  lemma PopShape(stack: seq<Term>)
    requires StackShape(stack) && |stack| > 0
    ensures StackShape(Pop(stack))
  {
  }

  /** The pending entries of a stack are those below its top and the top
      itself unless it is a `(` marker. */
  lemma PendingSplit(stack: seq<Term>)
    requires |stack| > 0
    ensures Filter(stack, Pending) == Filter(Pop(stack), Pending) + if Pending(Top(stack)) then [Top(stack)] else []
  {
    assert stack == Pop(stack) + [Top(stack)];
    FilterAppend(Pop(stack), [Top(stack)], Pending);
    FilterOne(Top(stack), Pending);
  }

  lemma MoveCounts(st: PState, terms: seq<Term>)
    requires multiset(st.output) + multiset(Filter(st.stack, Pending)) == multiset(terms)
    requires |st.stack| > 0 && Pending(Top(st.stack))
    ensures multiset(st.output + [Top(st.stack)]) + multiset(Filter(Pop(st.stack), Pending)) == multiset(terms)
  {
    PendingSplit(st.stack);
  }

  lemma MoveOperands(st: PState, terms: seq<Term>)
    requires Filter(st.output, IsOperand) == Filter(terms, IsOperand)
    requires |st.stack| > 0 && !IsOperand(Top(st.stack))
    ensures Filter(st.output + [Top(st.stack)], IsOperand) == Filter(terms, IsOperand)
  {
    FilterAppend(st.output, [Top(st.stack)], IsOperand);
    FilterOne(Top(st.stack), IsOperand);
  }

  /** Moving an operator or function from the stack to the output. */
  lemma MoveAccounted(st: PState, terms: seq<Term>)
    requires Accounted(st, terms) && |st.stack| > 0 && Top(st.stack) != Paren("(")
    ensures Accounted(st.(output := st.output + [Top(st.stack)], stack := Pop(st.stack)), terms)
  {
    assert Stackable(Top(st.stack));
    MoveCounts(st, terms);
    MoveOperands(st, terms);
    PopShape(st.stack);
  }

  /** Dropping the `(` marker at the top of the stack. */
  lemma DropAccounted(st: PState, terms: seq<Term>)
    requires Accounted(st, terms) && |st.stack| > 0 && Top(st.stack) == Paren("(")
    ensures Accounted(st.(stack := Pop(st.stack)), terms)
  {
    PendingSplit(st.stack);
    PopShape(st.stack);
  }

  /** On a well-formed stack, a `(` symbol marks exactly the `(` marker. */
  lemma TopMarker(stack: seq<Term>)
    requires StackShape(stack) && |stack| > 0
    ensures Top(stack).symbol == "(" <==> Top(stack) == Paren("(")
  {
    if Top(stack) != Paren("(") {
      TableSymbols(Top(stack));
    }
  }

  lemma {:induction false} PopAboveAccounted(mode: Mode, op: Term, st: PState, terms: seq<Term>)
    requires IsTableOperator(op) && |st.stack| > 0 && Accounted(st, terms)
    requires PopAbove(mode, op, st).Ok?
    ensures Accounted(PopAbove(mode, op, st).value, terms + [op])
    decreases |st.stack|
  {
    TopMarker(st.stack);
    var top := Top(st.stack);
    if PopsBefore(top, op) == Ok(true) {
      var next := st.(output := st.output + [top], stack := Pop(st.stack));
      MoveAccounted(st, terms);
      if |next.stack| > 0 {
        PopAt(mode, op, st, next.output, next.stack);
        PopAboveAccounted(mode, op, next, terms);
      } else {
        EmptyAt(op, st, next.output, [op]);
        assert next.stack + [op] == [op];
        PushAccounted(next, terms, op);
      }
    } else {
      StopAt(mode, op, st);
      PushAccounted(st, terms, op);
    }
  }

  lemma {:induction false} CloseParenAccounted(st: PState, terms: seq<Term>)
    requires Accounted(st, terms) && CloseParen(st).Ok?
    ensures Accounted(CloseParen(st).value, terms)
    decreases |st.stack|
  {
    TopMarker(st.stack);
    if Top(st.stack).symbol == "(" {
      DropAccounted(st, terms);
    } else {
      MoveAccounted(st, terms);
      CloseParenAccounted(st.(output := st.output + [Top(st.stack)], stack := Pop(st.stack)), terms);
    }
  }

  lemma OperatorAccounted(mode: Mode, st: PState, terms: seq<Term>, tok: Token)
    requires Accounted(st, terms) && tok.kind == OPERATOR && Step(mode, st, tok).Ok?
    ensures Accounted(Step(mode, st, tok).value, terms + Contribution(tok))
  {
    var op := Ops[tok.value];
    assert Contribution(tok) == [op];
    if |st.stack| == 0 {
      assert st.stack + [op] == [op];
      PushAccounted(st, terms, op);
    } else {
      PopAboveAccounted(mode, op, st, terms);
    }
  }

  lemma ParenAccounted(mode: Mode, st: PState, terms: seq<Term>, tok: Token)
    requires Accounted(st, terms) && tok.kind == PARENTHESIS && Step(mode, st, tok).Ok?
    ensures Accounted(Step(mode, st, tok).value, terms + Contribution(tok))
  {
    assert terms + Contribution(tok) == terms;
    if tok.value == "(" {
      OpenAccounted(st, terms);
    } else if tok.value == ")" {
      CloseParenAccounted(st, terms);
    }
  }

  lemma TermAccounted(mode: Mode, st: PState, terms: seq<Term>, tok: Token)
    requires Accounted(st, terms) && NamesOk(st.names) && tok.kind == TERM
    ensures Accounted(Step(mode, st, tok).value, terms + Contribution(tok))
  {
    if tok.value in Functions {
      PushAccounted(st, terms, Functions[tok.value]);
    } else {
      EmitAccounted(st, terms, Symbol(tok.value));
    }
  }

  lemma StepAccounted(mode: Mode, st: PState, terms: seq<Term>, tok: Token)
    requires Accounted(st, terms) && NamesOk(st.names) && Step(mode, st, tok).Ok?
    ensures Accounted(Step(mode, st, tok).value, terms + Contribution(tok))
  {
    match tok.kind
    case NUMBER =>
      EmitAccounted(st, terms, Number(DecimalValue(tok.value), tok.value));
    case PARENTHESIS =>
      ParenAccounted(mode, st, terms, tok);
    case OPERATOR =>
      OperatorAccounted(mode, st, terms, tok);
    case TERM =>
      TermAccounted(mode, st, terms, tok);
  }

  /** A step keeps every entry of the names table the variable of its name,
      and adds the name of a variable not seen before. */
  lemma StepNames(mode: Mode, st: PState, tok: Token)
    requires NamesOk(st.names) && Step(mode, st, tok).Ok?
    ensures NamesOk(Step(mode, st, tok).value.names)
    ensures Step(mode, st, tok).value.names.Keys == st.names.Keys + VarName(tok)
  {
  }

  /** The variable name a token introduces, if any. */
  function VarName(tok: Token): set<string> {
    if tok.kind == TERM && tok.value !in Functions then {tok.value} else {}
  }

  /** The names of all variables among the tokens. */
  function VarNames(tokens: seq<Token>): set<string>
    decreases |tokens|
  {
    if |tokens| == 0 then {} else VarName(tokens[0]) + VarNames(tokens[1..])
  }

  /** `Feed` over a non-empty input that succeeds takes a first step. */
  lemma FeedCons(mode: Mode, st: PState, tokens: seq<Token>)
    requires |tokens| > 0 && Feed(mode, st, tokens).Ok?
    ensures Step(mode, st, tokens[0]).Ok?
    ensures Feed(mode, st, tokens) == Feed(mode, Step(mode, st, tokens[0]).value, tokens[1..])
  {
  }

  lemma ContributedCons(terms: seq<Term>, tokens: seq<Token>)
    requires |tokens| > 0
    ensures terms + Contributed(tokens) == (terms + Contribution(tokens[0])) + Contributed(tokens[1..])
  {
    var c, rest := Contribution(tokens[0]), Contributed(tokens[1..]);
    assert Contributed(tokens) == c + rest;
    assert terms + (c + rest) == (terms + c) + rest;
  }

  lemma {:induction false} FeedAccounted(mode: Mode, st: PState, terms: seq<Term>, tokens: seq<Token>)
    requires Accounted(st, terms) && NamesOk(st.names) && Feed(mode, st, tokens).Ok?
    ensures Accounted(Feed(mode, st, tokens).value, terms + Contributed(tokens))
    decreases |tokens|
  {
    if |tokens| == 0 {
      assert terms + Contributed(tokens) == terms;
    } else {
      FeedCons(mode, st, tokens);
      ContributedCons(terms, tokens);
      StepAccounted(mode, st, terms, tokens[0]);
      StepNames(mode, st, tokens[0]);
      FeedAccounted(mode, Step(mode, st, tokens[0]).value, terms + Contribution(tokens[0]), tokens[1..]);
    }
  }

  lemma {:induction false} DrainAccounted(st: PState, terms: seq<Term>)
    requires Accounted(st, terms) && Drain(st).Ok?
    ensures multiset(Drain(st).value) == multiset(terms)
    ensures Filter(Drain(st).value, IsOperand) == Filter(terms, IsOperand)
    decreases |st.stack|
  {
    if |st.stack| == 0 {
      assert Filter(st.stack, Pending) == [];
    } else {
      TopMarker(st.stack);
      MoveAccounted(st, terms);
      DrainAccounted(st.(output := st.output + [Top(st.stack)], stack := Pop(st.stack)), terms);
    }
  }

  /** On success the program is a rearrangement of the terms the tokens
      stand for: each number, variable, operator and function occurs as often
      as its token, the numbers and variables keep the order of their tokens,
      and no parenthesis is left in it. */
  lemma ProgramIsPermutation(mode: Mode, tokens: seq<Token>, names: map<string, Term>)
    requires NamesOk(names)
    requires ParseFrom(mode, PState([], [], names), tokens).result.Ok?
    ensures multiset(ParseFrom(mode, PState([], [], names), tokens).result.value) == multiset(Contributed(tokens))
    ensures Filter(ParseFrom(mode, PState([], [], names), tokens).result.value, IsOperand) == Filter(Contributed(tokens), IsOperand)
    ensures forall t :: t in ParseFrom(mode, PState([], [], names), tokens).result.value ==> !t.Paren?
  {
    var st := PState([], [], names);
    assert Accounted(st, []);
    FeedAccounted(mode, st, [], tokens);
    assert [] + Contributed(tokens) == Contributed(tokens);
    DrainAccounted(Feed(mode, st, tokens).value, Contributed(tokens));
    var out := ParseFrom(mode, st, tokens).result.value;
    forall t | t in out
      ensures !t.Paren?
    {
      assert t in multiset(Contributed(tokens));
    }
  }

  // ---------------------------------------------------------------------
  // The names table only grows.

  lemma {:induction false} FeedNames(mode: Mode, st: PState, tokens: seq<Token>)
    requires NamesOk(st.names)
    ensures Feed(mode, st, tokens).Ok? ==>
      NamesOk(Feed(mode, st, tokens).value.names) &&
      Feed(mode, st, tokens).value.names.Keys == st.names.Keys + VarNames(tokens)
    ensures Feed(mode, st, tokens).Err? ==>
      NamesOk(Feed(mode, st, tokens).error.names) &&
      st.names.Keys <= Feed(mode, st, tokens).error.names.Keys <= st.names.Keys + VarNames(tokens)
    decreases |tokens|
  {
    if |tokens| > 0 && Step(mode, st, tokens[0]).Ok? {
      StepNames(mode, st, tokens[0]);
      FeedNames(mode, Step(mode, st, tokens[0]).value, tokens[1..]);
    }
  }

  /** Parsing keeps every name already bound, each to the variable of its
      name, and binds only names of variables among the tokens; a parse that
      succeeds binds all of them. */
  lemma ParseNames(mode: Mode, tokens: seq<Token>, names: map<string, Term>)
    requires NamesOk(names)
    ensures NamesOk(ParseFrom(mode, PState([], [], names), tokens).names)
    ensures names.Keys <= ParseFrom(mode, PState([], [], names), tokens).names.Keys <= names.Keys + VarNames(tokens)
    ensures ParseFrom(mode, PState([], [], names), tokens).result.Ok? ==>
      ParseFrom(mode, PState([], [], names), tokens).names.Keys == names.Keys + VarNames(tokens)
  {
    FeedNames(mode, PState([], [], names), tokens);
  }

  // ---------------------------------------------------------------------
  // Parenthesis balance.

  predicate IsOpen(tok: Token) {
    tok.kind == PARENTHESIS && tok.value == "("
  }

  predicate IsClose(tok: Token) {
    tok.kind == PARENTHESIS && tok.value == ")"
  }

  /** The parenthesis tokens close exactly the `open` parentheses already
      open, and never one that is not. */
  predicate BalancedFrom(tokens: seq<Token>, open: nat)
    decreases |tokens|
  {
    if |tokens| == 0 then open == 0
    else if IsOpen(tokens[0]) then BalancedFrom(tokens[1..], open + 1)
    else if IsClose(tokens[0]) then open > 0 && BalancedFrom(tokens[1..], open - 1)
    else BalancedFrom(tokens[1..], open)
  }

  predicate Balanced(tokens: seq<Token>) {
    BalancedFrom(tokens, 0)
  }

  /** The number of `(` markers on the stack. */
  function Opens(stack: seq<Term>): nat {
    multiset(stack)[Paren("(")]
  }

  lemma {:induction false} CloseParenOpens(st: PState)
    requires StackShape(st.stack)
    ensures CloseParen(st).Ok? <==> Opens(st.stack) > 0
    ensures CloseParen(st).Ok? ==>
      StackShape(CloseParen(st).value.stack) && Opens(CloseParen(st).value.stack) == Opens(st.stack) - 1
    decreases |st.stack|
  {
    if |st.stack| > 0 {
      TopMarker(st.stack);
      assert st.stack == Pop(st.stack) + [Top(st.stack)];
      if Top(st.stack) != Paren("(") {
        CloseParenOpens(st.(output := st.output + [Top(st.stack)], stack := Pop(st.stack)));
      }
    }
  }

  lemma {:induction false} PopAboveOpens(mode: Mode, op: Term, st: PState)
    requires IsTableOperator(op) && |st.stack| > 0 && StackShape(st.stack)
    ensures PopAbove(mode, op, st).Ok? ==>
      StackShape(PopAbove(mode, op, st).value.stack) && Opens(PopAbove(mode, op, st).value.stack) == Opens(st.stack)
    decreases |st.stack|
  {
    TopMarker(st.stack);
    var top := Top(st.stack);
    var r := PopsBefore(top, op);
    if r == Ok(true) {
      var next := st.(output := st.output + [top], stack := Pop(st.stack));
      OpensPop(st.stack);
      if |next.stack| > 0 {
        PopAt(mode, op, st, next.output, next.stack);
        PopAboveOpens(mode, op, next);
      } else {
        EmptyAt(op, st, next.output, [op]);
        PushOpens([], op);
      }
    } else if r == Ok(false) {
      StopAt(mode, op, st);
      PushOpens(st.stack, op);
    }
  }

  /** Removing the top leaves the other markers. */
  lemma OpensPop(stack: seq<Term>)
    requires StackShape(stack) && |stack| > 0 && Top(stack) != Paren("(")
    ensures StackShape(Pop(stack)) && Opens(Pop(stack)) == Opens(stack)
  {
    assert stack == Pop(stack) + [Top(stack)];
    PushOpens(Pop(stack), Top(stack));
  }

  lemma {:induction false} DrainOpens(st: PState)
    requires StackShape(st.stack)
    ensures Drain(st).Ok? <==> Opens(st.stack) == 0
    decreases |st.stack|
  {
    if |st.stack| > 0 {
      TopMarker(st.stack);
      assert st.stack == Pop(st.stack) + [Top(st.stack)];
      if Top(st.stack) != Paren("(") {
        DrainOpens(st.(output := st.output + [Top(st.stack)], stack := Pop(st.stack)));
      }
    }
  }

  lemma PushOpens(stack: seq<Term>, t: Term)
    requires StackShape(stack) && (t == Paren("(") || IsTableOperator(t) || IsTableFunction(t))
    ensures StackShape(stack + [t])
    ensures Opens(stack + [t]) == if t == Paren("(") then Opens(stack) + 1 else Opens(stack)
  {
  }

  lemma ParenOpens(mode: Mode, st: PState, tok: Token)
    requires StackShape(st.stack) && tok.kind == PARENTHESIS
    ensures IsClose(tok) ==> (Step(mode, st, tok).Ok? <==> Opens(st.stack) > 0)
    ensures Step(mode, st, tok).Err? ==> Step(mode, st, tok).error == UnmatchedClose && IsClose(tok)
    ensures Step(mode, st, tok).Ok? ==>
      StackShape(Step(mode, st, tok).value.stack) &&
      Opens(Step(mode, st, tok).value.stack) ==
        if IsOpen(tok) then Opens(st.stack) + 1 else if IsClose(tok) then Opens(st.stack) - 1 else Opens(st.stack)
  {
    if tok.value == "(" {
      PushOpens(st.stack, Paren("("));
    } else if tok.value == ")" {
      CloseParenOpens(st);
    }
  }

  lemma OperatorOpens(mode: Mode, st: PState, tok: Token)
    requires StackShape(st.stack) && tok.kind == OPERATOR
    ensures Step(mode, st, tok).Err? ==> Step(mode, st, tok).error !in {UnmatchedClose, UnclosedOpen}
    ensures Step(mode, st, tok).Ok? ==>
      StackShape(Step(mode, st, tok).value.stack) && Opens(Step(mode, st, tok).value.stack) == Opens(st.stack)
  {
    if tok.value in Ops {
      if |st.stack| > 0 {
        PopAboveOpens(mode, Ops[tok.value], st);
      } else {
        PushOpens(st.stack, Ops[tok.value]);
      }
    }
  }

  lemma OperandOpens(mode: Mode, st: PState, tok: Token)
    requires StackShape(st.stack) && (tok.kind == TERM || tok.kind == NUMBER)
    ensures Step(mode, st, tok).Err? ==> Step(mode, st, tok).error !in {UnmatchedClose, UnclosedOpen}
    ensures Step(mode, st, tok).Ok? ==>
      StackShape(Step(mode, st, tok).value.stack) && Opens(Step(mode, st, tok).value.stack) == Opens(st.stack)
  {
    if tok.kind == TERM && tok.value in Functions {
      PushOpens(st.stack, Functions[tok.value]);
    }
  }

  /** One token moves the count of open parentheses as its kind says. */
  lemma StepOpens(mode: Mode, st: PState, tok: Token)
    requires StackShape(st.stack)
    ensures IsClose(tok) ==> (Step(mode, st, tok).Ok? <==> Opens(st.stack) > 0)
    ensures Step(mode, st, tok).Err? && Step(mode, st, tok).error in {UnmatchedClose, UnclosedOpen} ==>
      Step(mode, st, tok).error == UnmatchedClose && IsClose(tok)
    ensures Step(mode, st, tok).Ok? ==>
      StackShape(Step(mode, st, tok).value.stack) &&
      Opens(Step(mode, st, tok).value.stack) ==
        if IsOpen(tok) then Opens(st.stack) + 1 else if IsClose(tok) then Opens(st.stack) - 1 else Opens(st.stack)
  {
    if tok.kind == PARENTHESIS {
      ParenOpens(mode, st, tok);
    } else if tok.kind == OPERATOR {
      OperatorOpens(mode, st, tok);
    } else {
      OperandOpens(mode, st, tok);
    }
  }

  lemma {:induction false} ParseFromBalanced(mode: Mode, st: PState, tokens: seq<Token>)
    requires StackShape(st.stack)
    ensures ParseFrom(mode, st, tokens).result.Ok? ==> BalancedFrom(tokens, Opens(st.stack))
    ensures ParseFrom(mode, st, tokens).result in {Err(UnmatchedClose), Err(UnclosedOpen)} ==>
      !BalancedFrom(tokens, Opens(st.stack))
    decreases |tokens|
  {
    if |tokens| == 0 {
      DrainOpens(st);
    } else {
      ParseFromUnfold(mode, st, tokens);
      StepOpens(mode, st, tokens[0]);
      if Step(mode, st, tokens[0]).Ok? {
        ParseFromBalanced(mode, Step(mode, st, tokens[0]).value, tokens[1..]);
      }
    }
  }

  /** A parse succeeds only on balanced parentheses, and fails on a
      parenthesis only when they are unbalanced. */
  lemma ParenthesesBalanced(mode: Mode, tokens: seq<Token>, names: map<string, Term>)
    ensures ParseFrom(mode, PState([], [], names), tokens).result.Ok? ==> Balanced(tokens)
    ensures ParseFrom(mode, PState([], [], names), tokens).result in {Err(UnmatchedClose), Err(UnclosedOpen)} ==>
      !Balanced(tokens)
  {
    ParseFromBalanced(mode, PState([], [], names), tokens);
  }

  /** With the emptiness guard, no step stops by emptying the stack. */
  lemma {:induction false} GuardedFeed(st: PState, tokens: seq<Token>)
    ensures Feed(Guarded, st, tokens).Err? ==> Feed(Guarded, st, tokens).error.error != EmptiedStack
    decreases |tokens|
  {
    if |tokens| > 0 && Step(Guarded, st, tokens[0]).Ok? {
      GuardedFeed(Step(Guarded, st, tokens[0]).value, tokens[1..]);
    }
  }

  /** With the guard, a parse of balanced tokens stops early only on an
      unknown operator, on a function met by the pop loop, or on number text
      that `int` rejects. */
  lemma GuardedBalanced(tokens: seq<Token>, names: map<string, Term>)
    requires Balanced(tokens)
    ensures ParseTokensGuarded(tokens, names).result.Err? ==>
      ParseTokensGuarded(tokens, names).result.error.NoPrecedence? ||
      ParseTokensGuarded(tokens, names).result.error.UnknownOperator? ||
      ParseTokensGuarded(tokens, names).result.error.BadNumber?
  {
    ParenthesesBalanced(Guarded, tokens, names);
    GuardedFeed(PState([], [], names), tokens);
  }

  /** Feeding two runs of tokens one after the other. */
  lemma {:induction false} FeedAppend(mode: Mode, st: PState, a: seq<Token>, b: seq<Token>)
    requires Feed(mode, st, a).Ok?
    ensures Feed(mode, st, a + b) == Feed(mode, Feed(mode, st, a).value, b)
    decreases |a|
  {
    if |a| == 0 {
      assert a + b == b;
    } else {
      assert (a + b)[0] == a[0] && (a + b)[1..] == a[1..] + b;
      FeedCons(mode, st, a);
      FeedAppend(mode, Step(mode, st, a[0]).value, a[1..], b);
    }
  }

  /** Feeding a single token is one step. */
  lemma FeedOne(mode: Mode, st: PState, tok: Token)
    ensures Feed(mode, st, [tok]) == match Step(mode, st, tok)
      case Err(e) => Err(Stopped(e, st.names))
      case Ok(next) => Ok(next)
  {
    assert [tok][1..] == [];
  }

  // ---------------------------------------------------------------------
  // Worked examples.

  /** A token at no particular position. */
  function Tok(kind: Kind, value: string): Token {
    Token(kind, value, 0, 0)
  }

  lemma FeedAt(mode: Mode, st: PState, tokens: seq<Token>, k: nat, next: PState)
    requires k < |tokens| && Step(mode, st, tokens[k]) == Ok(next)
    ensures ParseFrom(mode, st, tokens[k..]) == ParseFrom(mode, next, tokens[k + 1..])
  {
    assert tokens[k..][0] == tokens[k] && tokens[k..][1..] == tokens[k + 1..];
    ParseFromUnfold(mode, st, tokens[k..]);
  }

  lemma FailAt(mode: Mode, st: PState, tokens: seq<Token>, k: nat, e: ParseError)
    requires k < |tokens| && Step(mode, st, tokens[k]) == Err(e)
    ensures ParseFrom(mode, st, tokens[k..]) == Parsed(Err(e), st.names)
  {
    assert tokens[k..][0] == tokens[k];
    ParseFromUnfold(mode, st, tokens[k..]);
  }

  /** The tokens are used up; what remains is the final loop. */
  lemma DoneAt(mode: Mode, st: PState, tokens: seq<Token>, k: nat)
    requires k == |tokens|
    ensures ParseFrom(mode, st, tokens[k..]) == Parsed(Drain(st), st.names)
  {
    assert tokens[k..] == [];
  }

  /** A decimal number, sent to the output. */
  lemma NumberAt(mode: Mode, st: PState, tokens: seq<Token>, k: nat, n: nat, output: seq<Term>)
    requires k < |tokens| && tokens[k].kind == NUMBER && IsDecimal(tokens[k].value)
    requires DecimalValue(tokens[k].value) == n && output == st.output + [Number(n, tokens[k].value)]
    ensures ParseFrom(mode, st, tokens[k..]) == ParseFrom(mode, PState(output, st.stack, st.names), tokens[k + 1..])
  {
    FeedAt(mode, st, tokens, k, PState(output, st.stack, st.names));
  }

  /** A variable already bound, sent to the output. */
  lemma NameAt(mode: Mode, st: PState, tokens: seq<Token>, k: nat, output: seq<Term>)
    requires k < |tokens| && tokens[k].kind == TERM && tokens[k].value !in Functions && tokens[k].value in st.names
    requires output == st.output + [st.names[tokens[k].value]]
    ensures ParseFrom(mode, st, tokens[k..]) == ParseFrom(mode, PState(output, st.stack, st.names), tokens[k + 1..])
  {
    FeedAt(mode, st, tokens, k, PState(output, st.stack, st.names));
  }

  /** A variable met for the first time. */
  lemma BindAt(mode: Mode, st: PState, tokens: seq<Token>, k: nat, output: seq<Term>, names: map<string, Term>)
    requires k < |tokens| && tokens[k].kind == TERM && tokens[k].value !in Functions && tokens[k].value !in st.names
    requires names == st.names[tokens[k].value := Symbol(tokens[k].value)]
    requires output == st.output + [Symbol(tokens[k].value)]
    ensures ParseFrom(mode, st, tokens[k..]) == ParseFrom(mode, PState(output, st.stack, names), tokens[k + 1..])
  {
    FeedAt(mode, st, tokens, k, PState(output, st.stack, names));
  }

  /** A `(`, pushed. */
  lemma OpenAt(mode: Mode, st: PState, tokens: seq<Token>, k: nat, stack: seq<Term>)
    requires k < |tokens| && IsOpen(tokens[k]) && stack == st.stack + [Paren("(")]
    ensures ParseFrom(mode, st, tokens[k..]) == ParseFrom(mode, PState(st.output, stack, st.names), tokens[k + 1..])
  {
    FeedAt(mode, st, tokens, k, PState(st.output, stack, st.names));
  }

  /** A function name, pushed. */
  lemma FunctionAt(mode: Mode, st: PState, tokens: seq<Token>, k: nat, stack: seq<Term>)
    requires k < |tokens| && tokens[k].kind == TERM && tokens[k].value in Functions
    requires stack == st.stack + [Functions[tokens[k].value]]
    ensures ParseFrom(mode, st, tokens[k..]) == ParseFrom(mode, PState(st.output, stack, st.names), tokens[k + 1..])
  {
    FeedAt(mode, st, tokens, k, PState(st.output, stack, st.names));
  }

  /** An operator that pops nothing, pushed. */
  lemma OperatorAt(mode: Mode, st: PState, tokens: seq<Token>, k: nat, t: Term, stack: seq<Term>)
    requires k < |tokens| && tokens[k].kind == OPERATOR && tokens[k].value in Ops && t == Ops[tokens[k].value]
    requires |st.stack| == 0 || PopsBefore(Top(st.stack), t) == Ok(false)
    requires stack == st.stack + [t]
    ensures ParseFrom(mode, st, tokens[k..]) == ParseFrom(mode, PState(st.output, stack, st.names), tokens[k + 1..])
  {
    if |st.stack| == 0 {
      assert stack == [t];
    }
    FeedAt(mode, st, tokens, k, PState(st.output, stack, st.names));
  }

  /** A `)` that finds its `(` at the top of the stack. */
  lemma CloseAt(mode: Mode, st: PState, tokens: seq<Token>, k: nat, stack: seq<Term>)
    requires k < |tokens| && IsClose(tokens[k])
    requires |st.stack| > 0 && Top(st.stack) == Paren("(") && stack == Pop(st.stack)
    ensures ParseFrom(mode, st, tokens[k..]) == ParseFrom(mode, PState(st.output, stack, st.names), tokens[k + 1..])
  {
    FeedAt(mode, st, tokens, k, PState(st.output, stack, st.names));
  }

  /** One turn of the pop loop for operator `op`. */
  lemma PopAt(mode: Mode, op: Term, st: PState, output: seq<Term>, stack: seq<Term>)
    requires op.Operator? && |st.stack| > 1 && PopsBefore(Top(st.stack), op) == Ok(true)
    requires output == st.output + [Top(st.stack)] && stack == Pop(st.stack)
    ensures PopAbove(mode, op, st) == PopAbove(mode, op, PState(output, stack, st.names))
  {
  }

  /** The pop loop for operator `op` stopping at once. */
  lemma StopAt(mode: Mode, op: Term, st: PState)
    requires op.Operator? && |st.stack| > 0 && PopsBefore(Top(st.stack), op) == Ok(false)
    ensures PopAbove(mode, op, st) == Ok(st.(stack := st.stack + [op]))
  {
  }

  /** The pop loop for operator `op` popping the last entry. */
  lemma EmptyAt(op: Term, st: PState, output: seq<Term>, stack: seq<Term>)
    requires op.Operator? && |st.stack| == 1 && PopsBefore(Top(st.stack), op) == Ok(true)
    requires output == st.output + [Top(st.stack)] && stack == [op]
    ensures PopAbove(AsWritten, op, st) == Err(EmptiedStack)
    ensures PopAbove(Guarded, op, st) == Ok(PState(output, stack, st.names))
  {
  }

  /** One turn of the `)` loop, or of the final loop. */
  lemma UnstackAt(st: PState, output: seq<Term>, stack: seq<Term>)
    requires |st.stack| > 0 && Top(st.stack).symbol != "("
    requires output == st.output + [Top(st.stack)] && stack == Pop(st.stack)
    ensures CloseParen(st) == CloseParen(PState(output, stack, st.names))
    ensures Drain(st) == Drain(PState(output, stack, st.names))
  {
  }

  /** The tokens of `2^3^2`. */
  function PowerTokens(): seq<Token> {
    [Tok(NUMBER, "2"), Tok(OPERATOR, "^"), Tok(NUMBER, "3"), Tok(OPERATOR, "^"), Tok(NUMBER, "2")]
  }

  /** `2^` at the head of `2^3^2`. */
  lemma PowerStart(names: map<string, Term>)
    ensures ParseTokens(PowerTokens(), names) ==
      ParseFrom(AsWritten, PState([Number(2, "2")], [Ops["^"]], names), PowerTokens()[2..])
  {
    TableEntries();
    var ts := PowerTokens();
    var two := Number(2, "2");
    assert ts[0..] == ts;
    NumberAt(AsWritten, PState([], [], names), ts, 0, 2, [two]);
    OperatorAt(AsWritten, PState([two], [], names), ts, 1, Ops["^"], [Ops["^"]]);
  }

  /** `3^`: the second `^` does not pop the first one. */
  lemma PowerMiddle(names: map<string, Term>)
    ensures ParseFrom(AsWritten, PState([Number(2, "2")], [Ops["^"]], names), PowerTokens()[2..]) ==
      ParseFrom(AsWritten, PState([Number(2, "2"), Number(3, "3")], [Ops["^"], Ops["^"]], names), PowerTokens()[4..])
  {
    TableEntries();
    var m := AsWritten;
    var ts := PowerTokens();
    var pow := Ops["^"];
    var two, three := Number(2, "2"), Number(3, "3");
    NumberAt(m, PState([two], [pow], names), ts, 2, 3, [two, three]);
    OperatorAt(m, PState([two, three], [pow], names), ts, 3, pow, [pow, pow]);
  }

  /** The final loop of `2^3^2` pops both operators. */
  lemma PowerDrain(names: map<string, Term>)
    ensures Drain(PState([Number(2, "2"), Number(3, "3"), Number(2, "2")], [Ops["^"], Ops["^"]], names)) ==
      Ok([Number(2, "2"), Number(3, "3"), Number(2, "2"), Ops["^"], Ops["^"]])
  {
    TableEntries();
    var pow := Ops["^"];
    var two, three := Number(2, "2"), Number(3, "3");
    UnstackAt(PState([two, three, two], [pow, pow], names), [two, three, two, pow], [pow]);
    UnstackAt(PState([two, three, two, pow], [pow], names), [two, three, two, pow, pow], []);
  }

  /** The last `2`, then the final loop. */
  lemma PowerEnd(names: map<string, Term>)
    ensures ParseFrom(AsWritten, PState([Number(2, "2"), Number(3, "3")], [Ops["^"], Ops["^"]], names), PowerTokens()[4..]) ==
      Parsed(Ok([Number(2, "2"), Number(3, "3"), Number(2, "2"), Ops["^"], Ops["^"]]), names)
  {
    TableEntries();
    var m := AsWritten;
    var ts := PowerTokens();
    var pow := Ops["^"];
    var two, three := Number(2, "2"), Number(3, "3");
    NumberAt(m, PState([two, three], [pow, pow], names), ts, 4, 2, [two, three, two]);
    DoneAt(m, PState([two, three, two], [pow, pow], names), ts, 5);
    PowerDrain(names);
  }

  /** `^` is right-associative: `2^3^2` becomes `2 3 2 ^ ^`, and no name is bound. */
  lemma RightAssociativeExample(names: map<string, Term>)
    ensures ParseTokens(PowerTokens(), names) ==
      Parsed(Ok([Number(2, "2"), Number(3, "3"), Number(2, "2"), Ops["^"], Ops["^"]]), names)
  {
    PowerStart(names);
    PowerMiddle(names);
    PowerEnd(names);
  }

  /** The tokens of `1+2+3`. */
  function SumTokens(): seq<Token> {
    [Tok(NUMBER, "1"), Tok(OPERATOR, "+"), Tok(NUMBER, "2"), Tok(OPERATOR, "+"), Tok(NUMBER, "3")]
  }

  /** `1+` at the head of `1+2+3`. */
  lemma SumStart(mode: Mode, names: map<string, Term>)
    ensures ParseFrom(mode, PState([], [], names), SumTokens()) ==
      ParseFrom(mode, PState([Number(1, "1")], [Ops["+"]], names), SumTokens()[2..])
  {
    TableEntries();
    var ts := SumTokens();
    var one := Number(1, "1");
    assert ts[0..] == ts;
    NumberAt(mode, PState([], [], names), ts, 0, 1, [one]);
    OperatorAt(mode, PState([one], [], names), ts, 1, Ops["+"], [Ops["+"]]);
  }

  /** `2`, the second operand. */
  lemma SumMiddle(mode: Mode, names: map<string, Term>)
    ensures ParseFrom(mode, PState([Number(1, "1")], [Ops["+"]], names), SumTokens()[2..]) ==
      ParseFrom(mode, PState([Number(1, "1"), Number(2, "2")], [Ops["+"]], names), SumTokens()[3..])
  {
    TableEntries();
    var one, two := Number(1, "1"), Number(2, "2");
    NumberAt(mode, PState([one], [Ops["+"]], names), SumTokens(), 2, 2, [one, two]);
  }

  /** As written, the second `+` pops the first one and then reads the top of
      the empty stack. */
  lemma EmptiedStackAt(names: map<string, Term>)
    ensures ParseFrom(AsWritten, PState([Number(1, "1"), Number(2, "2")], [Ops["+"]], names), SumTokens()[3..]) ==
      Parsed(Err(EmptiedStack), names)
  {
    TableEntries();
    var m := AsWritten;
    var ts := SumTokens();
    var st := PState([Number(1, "1"), Number(2, "2")], [Ops["+"]], names);
    EmptyAt(Ops["+"], st, st.output + [Ops["+"]], [Ops["+"]]);
    assert Step(m, st, ts[3]) == Err(EmptiedStack);
    FailAt(m, st, ts, 3, EmptiedStack);
  }

  /** As written, the second `+` of `1+2+3` pops the first one, empties the
      stack and reads its top: the parse fails though the input is well formed. */
  lemma EmptiedStackExample(names: map<string, Term>)
    ensures ParseTokens(SumTokens(), names) == Parsed(Err(EmptiedStack), names)
  {
    SumStart(AsWritten, names);
    SumMiddle(AsWritten, names);
    EmptiedStackAt(names);
  }

  /** With the guarded loop, the last `3` and the final loop. */
  lemma GuardedSumEnd(names: map<string, Term>)
    ensures ParseFrom(Guarded, PState([Number(1, "1"), Number(2, "2"), Ops["+"]], [Ops["+"]], names), SumTokens()[4..]) ==
      Parsed(Ok([Number(1, "1"), Number(2, "2"), Ops["+"], Number(3, "3"), Ops["+"]]), names)
  {
    TableEntries();
    var m := Guarded;
    var plus := Ops["+"];
    var one, two, three := Number(1, "1"), Number(2, "2"), Number(3, "3");
    NumberAt(m, PState([one, two, plus], [plus], names), SumTokens(), 4, 3, [one, two, plus, three]);
    DoneAt(m, PState([one, two, plus, three], [plus], names), SumTokens(), 5);
    UnstackAt(PState([one, two, plus, three], [plus], names), [one, two, plus, three, plus], []);
  }

  /** With the guarded loop, the second `+` of `1+2+3` pops the first one
      and takes its place on the stack. */
  lemma GuardedSumTail(names: map<string, Term>)
    ensures ParseFrom(Guarded, PState([Number(1, "1"), Number(2, "2")], [Ops["+"]], names), SumTokens()[3..]) ==
      Parsed(Ok([Number(1, "1"), Number(2, "2"), Ops["+"], Number(3, "3"), Ops["+"]]), names)
  {
    TableEntries();
    var plus := Ops["+"];
    var one, two := Number(1, "1"), Number(2, "2");
    EmptyAt(plus, PState([one, two], [plus], names), [one, two, plus], [plus]);
    FeedAt(Guarded, PState([one, two], [plus], names), SumTokens(), 3, PState([one, two, plus], [plus], names));
    GuardedSumEnd(names);
  }

  /** With the guarded loop, `1+2+3` becomes `1 2 + 3 +`. */
  lemma GuardedSumExample(names: map<string, Term>)
    ensures ParseTokensGuarded(SumTokens(), names) ==
      Parsed(Ok([Number(1, "1"), Number(2, "2"), Ops["+"], Number(3, "3"), Ops["+"]]), names)
  {
    SumStart(Guarded, names);
    SumMiddle(Guarded, names);
    GuardedSumTail(names);
  }

  /** The tokens of `x*x`. */
  function SquareTokens(): seq<Token> {
    [Tok(TERM, "x"), Tok(OPERATOR, "*"), Tok(TERM, "x")]
  }

  /** `x*` binds `x`. */
  lemma SquareStart(names: map<string, Term>)
    requires "x" !in names
    ensures ParseTokens(SquareTokens(), names) ==
      ParseFrom(AsWritten, PState([Symbol("x")], [Ops["*"]], names["x" := Symbol("x")]), SquareTokens()[2..])
  {
    TableEntries();
    var m := AsWritten;
    var ts := SquareTokens();
    var x := Symbol("x");
    var bound := names["x" := x];
    assert ts[0..] == ts;
    BindAt(m, PState([], [], names), ts, 0, [x], bound);
    OperatorAt(m, PState([x], [], bound), ts, 1, Ops["*"], [Ops["*"]]);
  }

  /** The second `x` reuses the bound entry; then the final loop. */
  lemma SquareEnd(names: map<string, Term>)
    requires "x" in names && names["x"] == Symbol("x")
    ensures ParseFrom(AsWritten, PState([Symbol("x")], [Ops["*"]], names), SquareTokens()[2..]) ==
      Parsed(Ok([Symbol("x"), Symbol("x"), Ops["*"]]), names)
  {
    TableEntries();
    var m := AsWritten;
    var times := Ops["*"];
    var x := Symbol("x");
    NameAt(m, PState([x], [times], names), SquareTokens(), 2, [x, x]);
    DoneAt(m, PState([x, x], [times], names), SquareTokens(), 3);
    UnstackAt(PState([x, x], [times], names), [x, x, times], []);
  }

  /** A variable is bound at its first occurrence, and its second occurrence
      reuses the same entry: `x*x` becomes `x x *` and binds `x`. */
  lemma VariableExample(names: map<string, Term>)
    requires "x" !in names
    ensures ParseTokens(SquareTokens(), names) ==
      Parsed(Ok([Symbol("x"), Symbol("x"), Ops["*"]]), names["x" := Symbol("x")])
  {
    SquareStart(names);
    SquareEnd(names["x" := Symbol("x")]);
  }

  /** The tokens of `Log(x)*2`. */
  function LogTokens(): seq<Token> {
    [Tok(TERM, "Log"), Tok(PARENTHESIS, "("), Tok(TERM, "x"), Tok(PARENTHESIS, ")"), Tok(OPERATOR, "*"), Tok(NUMBER, "2")]
  }

  /** `Log(` at the head of `Log(x)*2`. */
  lemma LogStart(names: map<string, Term>)
    ensures ParseTokens(LogTokens(), names) ==
      ParseFrom(AsWritten, PState([], [Functions["Log"], Paren("(")], names), LogTokens()[2..])
  {
    TableEntries();
    var m := AsWritten;
    var ts := LogTokens();
    var log := Functions["Log"];
    assert ts[0..] == ts;
    FunctionAt(m, PState([], [], names), ts, 0, [log]);
    OpenAt(m, PState([], [log], names), ts, 1, [log, Paren("(")]);
  }

  /** `x)` binds `x` and removes the `(`, leaving the function on the stack. */
  lemma LogMiddle(names: map<string, Term>)
    requires "x" !in names
    ensures ParseFrom(AsWritten, PState([], [Functions["Log"], Paren("(")], names), LogTokens()[2..]) ==
      ParseFrom(AsWritten, PState([Symbol("x")], [Functions["Log"]], names["x" := Symbol("x")]), LogTokens()[4..])
  {
    TableEntries();
    var m := AsWritten;
    var ts := LogTokens();
    var log := Functions["Log"];
    var bound := names["x" := Symbol("x")];
    BindAt(m, PState([], [log, Paren("(")], names), ts, 2, [Symbol("x")], bound);
    CloseAt(m, PState([Symbol("x")], [log, Paren("(")], bound), ts, 3, [log]);
  }

  /** `*` asks the function on the stack for its precedence. */
  lemma LogFails(names: map<string, Term>)
    ensures ParseFrom(AsWritten, PState([Symbol("x")], [Functions["Log"]], names), LogTokens()[4..]) ==
      Parsed(Err(NoPrecedence("Log")), names)
  {
    TableEntries();
    var m := AsWritten;
    var st := PState([Symbol("x")], [Functions["Log"]], names);
    assert PopsBefore(Functions["Log"], Ops["*"]) == Err(NoPrecedence("Log"));
    assert Step(m, st, LogTokens()[4]) == Err(NoPrecedence("Log"));
    FailAt(m, st, LogTokens(), 4, NoPrecedence("Log"));
  }

  /** After `Log(x)` the function is left on the stack, and the pop loop of
      the following `*` asks it for a precedence it does not have; `x` has
      been bound by then. */
  lemma NoPrecedenceExample(names: map<string, Term>)
    requires "x" !in names
    ensures ParseTokens(LogTokens(), names) == Parsed(Err(NoPrecedence("Log")), names["x" := Symbol("x")])
  {
    LogStart(names);
    LogMiddle(names);
    LogFails(names["x" := Symbol("x")]);
  }

  /** The tokens of `2%3`. */
  function UnknownTokens(): seq<Token> {
    [Tok(NUMBER, "2"), Tok(OPERATOR, "%"), Tok(NUMBER, "3")]
  }

  /** An operator missing from the table stops the parse. */
  lemma UnknownOperatorExample(names: map<string, Term>)
    ensures ParseTokens(UnknownTokens(), names) == Parsed(Err(UnknownOperator("%")), names)
  {
    TableEntries();
    var m := AsWritten;
    var ts := UnknownTokens();
    var st := PState([Number(2, "2")], [], names);
    assert ts[0..] == ts;
    NumberAt(m, PState([], [], names), ts, 0, 2, st.output);
    assert "%" !in Ops;
    assert Step(m, st, ts[1]) == Err(UnknownOperator("%"));
    FailAt(m, st, ts, 1, UnknownOperator("%"));
  }

  /** The tokens of `(1+2`. */
  function UnclosedTokens(): seq<Token> {
    [Tok(PARENTHESIS, "("), Tok(NUMBER, "1"), Tok(OPERATOR, "+"), Tok(NUMBER, "2")]
  }

  /** `(1` at the head of `(1+2`. */
  lemma UnclosedStart(names: map<string, Term>)
    ensures ParseTokens(UnclosedTokens(), names) ==
      ParseFrom(AsWritten, PState([Number(1, "1")], [Paren("(")], names), UnclosedTokens()[2..])
  {
    TableEntries();
    var m := AsWritten;
    var ts := UnclosedTokens();
    assert ts[0..] == ts;
    OpenAt(m, PState([], [], names), ts, 0, [Paren("(")]);
    NumberAt(m, PState([], [Paren("(")], names), ts, 1, 1, [Number(1, "1")]);
  }

  /** `+2`: the `+` stops at the `(`. */
  lemma UnclosedEnd(names: map<string, Term>)
    ensures ParseFrom(AsWritten, PState([Number(1, "1")], [Paren("(")], names), UnclosedTokens()[2..]) ==
      Parsed(Drain(PState([Number(1, "1"), Number(2, "2")], [Paren("("), Ops["+"]], names)), names)
  {
    TableEntries();
    var m := AsWritten;
    var ts := UnclosedTokens();
    var plus, open := Ops["+"], Paren("(");
    var one, two := Number(1, "1"), Number(2, "2");
    OperatorAt(m, PState([one], [open], names), ts, 2, plus, [open, plus]);
    NumberAt(m, PState([one], [open, plus], names), ts, 3, 2, [one, two]);
    DoneAt(m, PState([one, two], [open, plus], names), ts, 4);
  }

  /** A `(` left on the stack at the end fails the final assertion. */
  lemma UnclosedExample(names: map<string, Term>)
    ensures ParseTokens(UnclosedTokens(), names) == Parsed(Err(UnclosedOpen), names)
  {
    TableEntries();
    var one, two := Number(1, "1"), Number(2, "2");
    UnclosedStart(names);
    UnclosedEnd(names);
    UnstackAt(PState([one, two], [Paren("("), Ops["+"]], names), [one, two, Ops["+"]], [Paren("(")]);
  }

  /** The tokens of `1+2)`. */
  function UnmatchedTokens(): seq<Token> {
    [Tok(NUMBER, "1"), Tok(OPERATOR, "+"), Tok(NUMBER, "2"), Tok(PARENTHESIS, ")")]
  }

  /** `1+` at the head of `1+2)`. */
  lemma UnmatchedStart(names: map<string, Term>)
    ensures ParseTokens(UnmatchedTokens(), names) ==
      ParseFrom(AsWritten, PState([Number(1, "1")], [Ops["+"]], names), UnmatchedTokens()[2..])
  {
    TableEntries();
    var m := AsWritten;
    var t := UnmatchedTokens();
    var one := Number(1, "1");
    assert t[0..] == t;
    NumberAt(m, PState([], [], names), t, 0, 1, [one]);
    OperatorAt(m, PState([one], [], names), t, 1, Ops["+"], [Ops["+"]]);
  }

  /** `2)`: the `)` pops the `+` and finds no `(`. */
  lemma UnmatchedEnd(names: map<string, Term>)
    ensures ParseFrom(AsWritten, PState([Number(1, "1")], [Ops["+"]], names), UnmatchedTokens()[2..]) ==
      Parsed(Err(UnmatchedClose), names)
  {
    TableEntries();
    var m := AsWritten;
    var plus := Ops["+"];
    var one, two := Number(1, "1"), Number(2, "2");
    var st := PState([one, two], [plus], names);
    NumberAt(m, PState([one], [plus], names), UnmatchedTokens(), 2, 2, [one, two]);
    UnstackAt(st, st.output + [plus], []);
    assert Step(m, st, UnmatchedTokens()[3]) == Err(UnmatchedClose);
    FailAt(m, st, UnmatchedTokens(), 3, UnmatchedClose);
  }

  /** A `)` with no `(` below it empties the stack and fails. */
  lemma UnmatchedExample(names: map<string, Term>)
    ensures ParseTokens(UnmatchedTokens(), names) == Parsed(Err(UnmatchedClose), names)
  {
    UnmatchedStart(names);
    UnmatchedEnd(names);
  }
}
