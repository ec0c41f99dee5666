/** The character-level shunting-yard prototype `parse_str` (src/shunt.py).
    Digits go to the output queue, `(` onto the operator stack, `)` drains the
    stack down to the matching `(`, the five operators are pushed after popping
    what binds tighter, and every other character is ignored. */
module Shunt {
  import opened Wrappers
  import opened Seqs
  import opened Syntax

  /** The keys of the operator table. */
  predicate IsOp(c: char) {
    c == '^' || c == '*' || c == '/' || c == '+' || c == '-'
  }

  /** The precedence column of the operator table. */
  function Prec(op: char): int
    requires IsOp(op)
  {
    if op == '^' then 4 else if op == '*' || op == '/' then 3 else 2
  }

  /** The associativity column of the operator table. */
  function Assc(op: char): Assoc
    requires IsOp(op)
  {
    if op == '^' then Right else Left
  }

  /** The characters that can reach the output queue. */
  predicate Emitted(c: char) {
    IsDigit(c) || IsOp(c)
  }

  /** The characters `parse_str` reacts to; all others fall through its `if` chain. */
  predicate Acted(c: char) {
    Emitted(c) || c == '(' || c == ')'
  }

  /** The ways `parse_str` stops early: an `IndexError` on an empty stack
      when `)` finds no `(`, the final assertion when a `(` is left over, and
      an `IndexError` when the operator loop pops the stack empty and then
      reads its top again. */
  datatype Failure = UnmatchedClose | UnclosedOpen | EmptiedStack

  /** Only `(` and operators are ever pushed. */
  predicate StackShape(stack: seq<char>) {
    forall i :: 0 <= i < |stack| ==> stack[i] == '(' || IsOp(stack[i])
  }

  datatype State = State(out: seq<char>, stack: seq<char>)

  function Start(): State {
    State([], [])
  }

  function Top(stack: seq<char>): char
    requires |stack| > 0
  {
    stack[|stack| - 1]
  }

  function Pop(stack: seq<char>): seq<char>
    requires |stack| > 0
  {
    stack[..|stack| - 1]
  }

  /** The pop rule: `top` leaves the stack before `tok` is pushed. */
  predicate PopsBefore(top: char, tok: char)
    requires top == '(' || IsOp(top)
    requires IsOp(tok)
  {
    top != '(' && (Prec(top) > Prec(tok) || (Prec(top) == Prec(tok) && Assc(tok) == Left))
  }

  /** The `while` loop for an operator, entered with a non-empty stack. */
  function PopAbove(mode: Mode, tok: char, st: State): (r: Result<State, Failure>)
    requires IsOp(tok) && |st.stack| > 0 && StackShape(st.stack)
    ensures r.Ok? ==> StackShape(r.value.stack) && |r.value.stack| > 0 && Top(r.value.stack) == tok
    ensures r.Err? ==> mode == AsWritten && r.error == EmptiedStack
    decreases |st.stack|
  {
    var top := Top(st.stack);
    if PopsBefore(top, tok) then
      var next := State(st.out + [top], Pop(st.stack));
      if |next.stack| > 0 then PopAbove(mode, tok, next)
      else if mode == AsWritten then Err(EmptiedStack)
      else Ok(State(next.out, [tok]))
    else
      Ok(State(st.out, st.stack + [tok]))
  }

  /** An operator character: pushed at once on an empty stack, otherwise
      after the pop loop. */
  function PushOperator(mode: Mode, tok: char, st: State): (r: Result<State, Failure>)
    requires IsOp(tok) && StackShape(st.stack)
    ensures r.Ok? ==> StackShape(r.value.stack)
  {
    if |st.stack| == 0 then Ok(State(st.out, [tok])) else PopAbove(mode, tok, st)
  }

  /** A `)`: move entries to the output down to the nearest `(`, then drop it. */
  function CloseParen(st: State): (r: Result<State, Failure>)
    ensures r.Ok? ==> |r.value.stack| < |st.stack| && r.value.stack == st.stack[..|r.value.stack|]
    ensures r.Err? ==> r.error == UnmatchedClose
    decreases |st.stack|
  {
    if |st.stack| == 0 then Err(UnmatchedClose)
    else if Top(st.stack) == '(' then Ok(State(st.out, Pop(st.stack)))
    else CloseParen(State(st.out + [Top(st.stack)], Pop(st.stack)))
  }

  /** One pass of the `for` loop body. */
  function Step(mode: Mode, st: State, c: char): (r: Result<State, Failure>)
    requires StackShape(st.stack)
    ensures r.Ok? ==> StackShape(r.value.stack)
  {
    if IsDigit(c) then Ok(State(st.out + [c], st.stack))
    else if c == '(' then Ok(State(st.out, st.stack + [c]))
    else if c == ')' then CloseParen(st)
    else if IsOp(c) then PushOperator(mode, c, st)
    else Ok(st)
  }

  /** The `for` loop over the remaining characters. */
  function Feed(mode: Mode, st: State, s: string): Result<State, Failure>
    requires StackShape(st.stack)
    decreases |s|
  {
    if |s| == 0 then Ok(st)
    else match Step(mode, st, s[0])
      case Err(e) => Err(e)
      case Ok(next) => Feed(mode, next, s[1..])
  }

  /** The final loop: pop everything to the output; a `(` fails the assertion. */
  function Drain(st: State): (r: Result<seq<char>, Failure>)
    ensures r.Err? ==> r.error == UnclosedOpen
    decreases |st.stack|
  {
    if |st.stack| == 0 then Ok(st.out)
    else if Top(st.stack) == '(' then Err(UnclosedOpen)
    else Drain(State(st.out + [Top(st.stack)], Pop(st.stack)))
  }

  function Run(mode: Mode, st: State, s: string): Result<seq<char>, Failure>
    requires StackShape(st.stack)
  {
    match Feed(mode, st, s)
    case Err(e) => Err(e)
    case Ok(end) => Drain(end)
  }

  /** Running over a non-empty input is one step followed by the rest. */
  lemma RunUnfold(mode: Mode, st: State, s: string)
    requires StackShape(st.stack) && |s| > 0
    ensures Step(mode, st, s[0]).Err? ==> Run(mode, st, s) == Err(Step(mode, st, s[0]).error)
    ensures Step(mode, st, s[0]).Ok? ==> Run(mode, st, s) == Run(mode, Step(mode, st, s[0]).value, s[1..])
  {
  }

  /** `parse_str` as written. */
  function Shunted(s: string): Result<seq<char>, Failure> {
    Run(AsWritten, Start(), s)
  }

  /** The textbook algorithm, whose operator loop also stops at an empty stack. */
  function ShuntedGuarded(s: string): Result<seq<char>, Failure> {
    Run(Guarded, Start(), s)
  }

  /** `parse_str`, with `out_queue` and `op_stack` as local lists. */
  method ParseStr(s: string) returns (r: Result<seq<char>, Failure>)
    ensures r == Shunted(s)
  {
    var outQueue: seq<char> := [];
    var opStack: seq<char> := [];
    for i := 0 to |s|
      invariant StackShape(opStack)
      invariant Run(AsWritten, State(outQueue, opStack), s[i..]) == Shunted(s)
    {
      var tok := s[i];
      assert s[i..][0] == tok && s[i..][1..] == s[i + 1..];
      RunUnfold(AsWritten, State(outQueue, opStack), s[i..]);
      ghost var next := Step(AsWritten, State(outQueue, opStack), tok);
      if IsDigit(tok) {
        outQueue := outQueue + [tok];
      } else if tok == '(' {
        opStack := opStack + [tok];
      } else if tok == ')' {
        ghost var entry := State(outQueue, opStack);
        while |opStack| > 0 && Top(opStack) != '('
          invariant StackShape(opStack)
          invariant CloseParen(State(outQueue, opStack)) == CloseParen(entry)
          decreases |opStack|
        {
          outQueue := outQueue + [Top(opStack)];
          opStack := Pop(opStack);
        }
        if |opStack| == 0 {
          return Err(UnmatchedClose);
        }
        opStack := Pop(opStack);
        assert next == Ok(State(outQueue, opStack));
      } else if IsOp(tok) {
        if |opStack| == 0 {
          assert opStack + [tok] == [tok];
          opStack := opStack + [tok];
          assert next == Ok(State(outQueue, opStack));
          continue;
        }
        ghost var entry := State(outQueue, opStack);
        while PopsBefore(Top(opStack), tok)
          invariant |opStack| > 0 && StackShape(opStack)
          invariant PopAbove(AsWritten, tok, State(outQueue, opStack)) == PopAbove(AsWritten, tok, entry)
          decreases |opStack|
        {
          outQueue := outQueue + [Top(opStack)];
          opStack := Pop(opStack);
          if |opStack| == 0 {
            return Err(EmptiedStack);
          }
        }
        opStack := opStack + [tok];
        assert next == Ok(State(outQueue, opStack));
      }
    }
    ghost var end := State(outQueue, opStack);
    while |opStack| > 0
      invariant Drain(State(outQueue, opStack)) == Drain(end)
      decreases |opStack|
    {
      if Top(opStack) == '(' {
        return Err(UnclosedOpen);
      }
      outQueue := outQueue + [Top(opStack)];
      opStack := Pop(opStack);
    }
    r := Ok(outQueue);
  }

  // ---------------------------------------------------------------------
  // The output is a permutation of the input's digits and operators.

  /** What has been consumed so far is all accounted for: every digit and
      operator read sits in the output or (operators only) on the stack,
      and the digits reached the output in input order. */
  ghost predicate Accounted(st: State, consumed: string) {
    StackShape(st.stack) &&
    multiset(st.out) + multiset(Filter(st.stack, Emitted)) == multiset(Filter(consumed, Emitted)) &&
    Filter(st.out, IsDigit) == Filter(consumed, IsDigit)
  }

  /** Reading one more character. */
  lemma ConsumeOne(consumed: string, c: char)
    ensures Filter(consumed + [c], Emitted) == Filter(consumed, Emitted) + if Emitted(c) then [c] else []
    ensures Filter(consumed + [c], IsDigit) == Filter(consumed, IsDigit) + if IsDigit(c) then [c] else []
  {
    FilterAppend(consumed, [c], Emitted);
    FilterAppend(consumed, [c], IsDigit);
    FilterOne(c, Emitted);
    FilterOne(c, IsDigit);
  }

  /** Moving an entry of the stack to the output adds no digit to it. */
  lemma MoveKeepsDigits(st: State)
    requires StackShape(st.stack) && |st.stack| > 0
    ensures Filter(st.out + [Top(st.stack)], IsDigit) == Filter(st.out, IsDigit)
  {
    FilterAppend(st.out, [Top(st.stack)], IsDigit);
    FilterOne(Top(st.stack), IsDigit);
  }

  /** Dropping a `(` from the stack removes nothing accounted for. */
  lemma DropParen(st: State)
    requires |st.stack| > 0 && Top(st.stack) == '('
    ensures Filter(Pop(st.stack), Emitted) == Filter(st.stack, Emitted)
  {
    assert st.stack == Pop(st.stack) + [Top(st.stack)];
    FilterAppend(Pop(st.stack), [Top(st.stack)], Emitted);
    FilterOne(Top(st.stack), Emitted);
  }

  /** Moving an operator from the stack to the output loses and adds nothing. */
  lemma MoveOperator(st: State)
    requires StackShape(st.stack) && |st.stack| > 0 && Top(st.stack) != '('
    ensures multiset(st.out + [Top(st.stack)]) + multiset(Filter(Pop(st.stack), Emitted))
        == multiset(st.out) + multiset(Filter(st.stack, Emitted))
  {
    assert st.stack == Pop(st.stack) + [Top(st.stack)];
    FilterAppend(Pop(st.stack), [Top(st.stack)], Emitted);
    FilterOne(Top(st.stack), Emitted);
  }

  lemma PushCounts(st: State, consumed: string, x: char)
    requires multiset(st.out) + multiset(Filter(st.stack, Emitted)) == multiset(Filter(consumed, Emitted))
    ensures multiset(st.out) + multiset(Filter(st.stack + [x], Emitted)) == multiset(Filter(consumed + [x], Emitted))
  {
    FilterAppend(st.stack, [x], Emitted);
    FilterOne(x, Emitted);
    ConsumeOne(consumed, x);
  }

  lemma PushAccounted(st: State, consumed: string, x: char)
    requires Accounted(st, consumed) && (x == '(' || IsOp(x))
    ensures Accounted(State(st.out, st.stack + [x]), consumed + [x])
  {
    PushCounts(st, consumed, x);
    ConsumeOne(consumed, x);
    assert Filter(consumed + [x], IsDigit) == Filter(consumed, IsDigit) + [];
    assert Filter(consumed, IsDigit) + [] == Filter(consumed, IsDigit);
    StackPush(st.stack, x);
  }

  lemma StackPush(stack: seq<char>, x: char)
    requires StackShape(stack) && (x == '(' || IsOp(x))
    ensures StackShape(stack + [x])
  {
    forall i | 0 <= i < |stack| + 1
      ensures (stack + [x])[i] == '(' || IsOp((stack + [x])[i])
    {
      if i < |stack| {
        assert (stack + [x])[i] == stack[i];
      }
    }
  }

  lemma {:induction false} PopAboveAccounted(mode: Mode, tok: char, st: State, consumed: string)
    requires IsOp(tok) && |st.stack| > 0 && Accounted(st, consumed)
    requires PopAbove(mode, tok, st).Ok?
    ensures Accounted(PopAbove(mode, tok, st).value, consumed + [tok])
    decreases |st.stack|
  {
    var top := Top(st.stack);
    if PopsBefore(top, tok) {
      var next := State(st.out + [top], Pop(st.stack));
      MoveAccounted(st, consumed);
      if |next.stack| > 0 {
        PopAboveAccounted(mode, tok, next, consumed);
      } else {
        PushAccounted(next, consumed, tok);
      }
    } else {
      PushAccounted(st, consumed, tok);
    }
  }

  /** Moving an operator from the top of the stack to the output. */
  lemma MoveAccounted(st: State, consumed: string)
    requires Accounted(st, consumed) && |st.stack| > 0 && Top(st.stack) != '('
    ensures Accounted(State(st.out + [Top(st.stack)], Pop(st.stack)), consumed)
  {
    MoveKeepsDigits(st);
    MoveOperator(st);
  }

  /** Dropping the `(` at the top of the stack. */
  lemma DropAccounted(st: State, consumed: string)
    requires Accounted(st, consumed) && |st.stack| > 0 && Top(st.stack) == '('
    ensures Accounted(State(st.out, Pop(st.stack)), consumed + [')'])
  {
    DropParen(st);
    ConsumeOne(consumed, ')');
  }

  lemma {:induction false} CloseParenAccounted(st: State, consumed: string)
    requires Accounted(st, consumed) && CloseParen(st).Ok?
    ensures Accounted(CloseParen(st).value, consumed + [')'])
    decreases |st.stack|
  {
    if Top(st.stack) == '(' {
      DropAccounted(st, consumed);
    } else {
      MoveAccounted(st, consumed);
      CloseParenAccounted(State(st.out + [Top(st.stack)], Pop(st.stack)), consumed);
    }
  }

  lemma StepAccounted(mode: Mode, st: State, consumed: string, c: char)
    requires Accounted(st, consumed) && Step(mode, st, c).Ok?
    ensures Accounted(Step(mode, st, c).value, consumed + [c])
  {
    if IsDigit(c) {
      DigitAccounted(st, consumed, c);
    } else if c == '(' {
      PushAccounted(st, consumed, c);
    } else if c == ')' {
      ConsumeOne(consumed, c);
      CloseParenAccounted(st, consumed);
    } else if IsOp(c) {
      if |st.stack| == 0 {
        assert st.stack + [c] == [c];
        PushAccounted(st, consumed, c);
      } else {
        PopAboveAccounted(mode, c, st, consumed);
      }
    } else {
      SkipAccounted(st, consumed, c);
    }
  }

  /** A digit goes straight to the output. */
  lemma DigitAccounted(st: State, consumed: string, c: char)
    requires Accounted(st, consumed) && IsDigit(c)
    ensures Accounted(State(st.out + [c], st.stack), consumed + [c])
  {
    ConsumeOne(consumed, c);
    FilterAppend(st.out, [c], IsDigit);
    FilterOne(c, IsDigit);
    assert multiset(st.out + [c]) == multiset(st.out) + multiset{c};
  }

  /** A character outside the table changes nothing. */
  lemma SkipAccounted(st: State, consumed: string, c: char)
    requires Accounted(st, consumed) && !Acted(c)
    ensures Accounted(st, consumed + [c])
  {
    ConsumeOne(consumed, c);
    assert Filter(consumed, Emitted) + [] == Filter(consumed, Emitted);
    assert Filter(consumed, IsDigit) + [] == Filter(consumed, IsDigit);
  }

  lemma {:induction false} FeedAccounted(mode: Mode, st: State, consumed: string, s: string)
    requires Accounted(st, consumed) && Feed(mode, st, s).Ok?
    ensures Accounted(Feed(mode, st, s).value, consumed + s)
    decreases |s|
  {
    if |s| == 0 {
      assert consumed + s == consumed;
    } else {
      StepAccounted(mode, st, consumed, s[0]);
      assert consumed + s == (consumed + [s[0]]) + s[1..];
      FeedAccounted(mode, Step(mode, st, s[0]).value, consumed + [s[0]], s[1..]);
    }
  }

  lemma {:induction false} DrainAccounted(st: State, consumed: string)
    requires Accounted(st, consumed) && Drain(st).Ok?
    ensures multiset(Drain(st).value) == multiset(Filter(consumed, Emitted))
    ensures Filter(Drain(st).value, IsDigit) == Filter(consumed, IsDigit)
    ensures forall c :: c in Drain(st).value ==> Emitted(c)
    decreases |st.stack|
  {
    if |st.stack| == 0 {
      assert Filter(st.stack, Emitted) == [];
      forall c | c in st.out
        ensures Emitted(c)
      {
        assert c in multiset(Filter(consumed, Emitted));
      }
    } else {
      MoveAccounted(st, consumed);
      DrainAccounted(State(st.out + [Top(st.stack)], Pop(st.stack)), consumed);
    }
  }

  /** On success the output holds exactly the input's digits and operators,
      each as often as in the input, with the digits in input order; no
      parenthesis and no ignored character reaches it. */
  lemma {:induction false} OutputIsPermutation(mode: Mode, s: string)
    requires Run(mode, Start(), s).Ok?
    ensures multiset(Run(mode, Start(), s).value) == multiset(Filter(s, Emitted))
    ensures Filter(Run(mode, Start(), s).value, IsDigit) == Filter(s, IsDigit)
    ensures forall c :: c in Run(mode, Start(), s).value ==> c != '(' && c != ')' && Emitted(c)
  {
    var fed := Feed(mode, Start(), s).value;
    assert Accounted(Start(), []);
    FeedAccounted(mode, Start(), [], s);
    assert [] + s == s;
    DrainAccounted(fed, s);
    assert Run(mode, Start(), s) == Drain(fed);
    forall c | c in Drain(fed).value
      ensures c != '(' && c != ')'
    {
      EmittedIsNotParen(c);
    }
  }

  lemma EmittedIsNotParen(c: char)
    requires Emitted(c)
    ensures c != '(' && c != ')'
  {
  }

  // ---------------------------------------------------------------------
  // Characters outside the table are skipped.

  lemma {:induction false} FeedSkips(mode: Mode, st: State, s: string)
    requires StackShape(st.stack)
    ensures Feed(mode, st, s) == Feed(mode, st, Filter(s, Acted))
    decreases |s|
  {
    if |s| > 0 {
      if Acted(s[0]) {
        assert Filter(s, Acted)[0] == s[0] && Filter(s, Acted)[1..] == Filter(s[1..], Acted);
        if Step(mode, st, s[0]).Ok? {
          FeedSkips(mode, Step(mode, st, s[0]).value, s[1..]);
        }
      } else {
        assert Step(mode, st, s[0]) == Ok(st);
        assert Filter(s, Acted) == Filter(s[1..], Acted);
        FeedSkips(mode, st, s[1..]);
      }
    }
  }

  /** Removing every character that is not a digit, a parenthesis or an
      operator does not change the outcome. */
  lemma IgnoredCharacters(mode: Mode, s: string)
    ensures Run(mode, Start(), s) == Run(mode, Start(), Filter(s, Acted))
  {
    FeedSkips(mode, Start(), s);
  }

  // ---------------------------------------------------------------------
  // The operator stack stays ordered by precedence.

  /** Between parentheses, precedence never decreases from the bottom of
      the stack to the top, and two neighbours share a precedence only when
      the upper one is right-associative. */
  ghost predicate Ordered(stack: seq<char>)
    requires StackShape(stack)
  {
    forall i :: 0 < i < |stack| && stack[i - 1] != '(' && stack[i] != '(' ==>
      Prec(stack[i - 1]) < Prec(stack[i]) || (Prec(stack[i - 1]) == Prec(stack[i]) && Assc(stack[i]) == Right)
  }

  lemma {:induction false} PopAboveOrdered(mode: Mode, tok: char, st: State)
    requires IsOp(tok) && |st.stack| > 0 && StackShape(st.stack) && Ordered(st.stack)
    requires PopAbove(mode, tok, st).Ok?
    ensures Ordered(PopAbove(mode, tok, st).value.stack)
    decreases |st.stack|
  {
    var top := Top(st.stack);
    if PopsBefore(top, tok) {
      var next := State(st.out + [top], Pop(st.stack));
      if |next.stack| > 0 {
        PopAboveOrdered(mode, tok, next);
      }
    }
  }

  lemma StepOrdered(mode: Mode, st: State, c: char)
    requires StackShape(st.stack) && Ordered(st.stack) && Step(mode, st, c).Ok?
    ensures Ordered(Step(mode, st, c).value.stack)
  {
    if c == ')' {
      var r := CloseParen(st).value.stack;
      assert forall i :: 0 <= i < |r| ==> r[i] == st.stack[i];
    } else if IsOp(c) && !IsDigit(c) && |st.stack| > 0 {
      PopAboveOrdered(mode, c, st);
    }
  }

  lemma {:induction false} FeedOrdered(mode: Mode, st: State, s: string)
    requires StackShape(st.stack) && Ordered(st.stack) && Feed(mode, st, s).Ok?
    ensures StackShape(Feed(mode, st, s).value.stack) && Ordered(Feed(mode, st, s).value.stack)
    decreases |s|
  {
    if |s| > 0 {
      StepOrdered(mode, st, s[0]);
      FeedOrdered(mode, Step(mode, st, s[0]).value, s[1..]);
    }
  }

  /** After any input read so far, the operator stack holds only `(` and
      operators, ordered as `Ordered` says. */
  lemma OperatorStackOrdered(mode: Mode, s: string)
    requires Feed(mode, Start(), s).Ok?
    ensures StackShape(Feed(mode, Start(), s).value.stack) && Ordered(Feed(mode, Start(), s).value.stack)
  {
    FeedOrdered(mode, Start(), s);
  }

  // ---------------------------------------------------------------------
  // Parenthesis balance.

  /** `s` closes exactly the `open` parentheses already open, and never
      closes one that is not. */
  predicate BalancedFrom(s: string, open: nat)
    decreases |s|
  {
    if |s| == 0 then open == 0
    else if s[0] == '(' then BalancedFrom(s[1..], open + 1)
    else if s[0] == ')' then open > 0 && BalancedFrom(s[1..], open - 1)
    else BalancedFrom(s[1..], open)
  }

  predicate Balanced(s: string) {
    BalancedFrom(s, 0)
  }

  /** The number of `(` markers on the stack. */
  function Opens(stack: seq<char>): nat {
    if |stack| == 0 then 0 else Opens(Pop(stack)) + (if Top(stack) == '(' then 1 else 0)
  }

  lemma {:induction false} CloseParenOpens(st: State)
    ensures CloseParen(st).Ok? <==> Opens(st.stack) > 0
    ensures CloseParen(st).Ok? ==> Opens(CloseParen(st).value.stack) == Opens(st.stack) - 1
    decreases |st.stack|
  {
    if |st.stack| > 0 {
      assert st.stack == Pop(st.stack) + [Top(st.stack)];
      if Top(st.stack) != '(' {
        CloseParenOpens(State(st.out + [Top(st.stack)], Pop(st.stack)));
      }
    }
  }

  /** Pushing counts one more `(` exactly when `(` is pushed. */
  lemma OpensAppend(stack: seq<char>, c: char)
    ensures Opens(stack + [c]) == Opens(stack) + (if c == '(' then 1 else 0)
  {
    assert Pop(stack + [c]) == stack;
  }

  /** With the guard, the operator loop never fails. */
  lemma {:induction false} PopAboveGuarded(tok: char, st: State)
    requires IsOp(tok) && |st.stack| > 0 && StackShape(st.stack)
    ensures PopAbove(Guarded, tok, st).Ok?
    decreases |st.stack|
  {
    var top := Top(st.stack);
    if PopsBefore(top, tok) {
      var next := State(st.out + [top], Pop(st.stack));
      if |next.stack| > 0 {
        PopAboveGuarded(tok, next);
      }
    }
  }

  /** The operator loop stops at once and pushes the operator. */
  lemma PushAboveOpens(mode: Mode, tok: char, st: State)
    requires IsOp(tok) && |st.stack| > 0 && StackShape(st.stack) && !PopsBefore(Top(st.stack), tok)
    ensures PopAbove(mode, tok, st) == Ok(State(st.out, st.stack + [tok]))
    ensures Opens(st.stack + [tok]) == Opens(st.stack)
  {
    OpensAppend(st.stack, tok);
  }

  /** The operator loop pops one operator and carries on. */
  lemma PopOneOpens(mode: Mode, tok: char, st: State)
    requires IsOp(tok) && |st.stack| > 1 && StackShape(st.stack) && PopsBefore(Top(st.stack), tok)
    ensures StackShape(Pop(st.stack))
    ensures PopAbove(mode, tok, st) == PopAbove(mode, tok, State(st.out + [Top(st.stack)], Pop(st.stack)))
    ensures Opens(Pop(st.stack)) == Opens(st.stack)
  {
  }

  /** The operator loop pops the last operator. */
  lemma PopLastOpens(mode: Mode, tok: char, st: State)
    requires IsOp(tok) && |st.stack| == 1 && StackShape(st.stack) && PopsBefore(Top(st.stack), tok)
    ensures PopAbove(mode, tok, st).Ok? ==> PopAbove(mode, tok, st).value.stack == [tok]
    ensures Opens([tok]) == Opens(st.stack) == 0
  {
    OpensAppend([], tok);
    OpensAppend([], Top(st.stack));
    assert st.stack == [] + [Top(st.stack)];
  }

  lemma {:induction false} PopAboveOpens(mode: Mode, tok: char, st: State)
    requires IsOp(tok) && |st.stack| > 0 && StackShape(st.stack)
    ensures PopAbove(mode, tok, st).Ok? ==> Opens(PopAbove(mode, tok, st).value.stack) == Opens(st.stack)
    decreases |st.stack|
  {
    if !PopsBefore(Top(st.stack), tok) {
      PushAboveOpens(mode, tok, st);
    } else if |st.stack| == 1 {
      PopLastOpens(mode, tok, st);
    } else {
      PopOneOpens(mode, tok, st);
      PopAboveOpens(mode, tok, State(st.out + [Top(st.stack)], Pop(st.stack)));
    }
  }

  lemma {:induction false} DrainOpens(st: State)
    ensures Drain(st).Ok? <==> Opens(st.stack) == 0
    decreases |st.stack|
  {
    if |st.stack| > 0 {
      assert st.stack == Pop(st.stack) + [Top(st.stack)];
      if Top(st.stack) != '(' {
        DrainOpens(State(st.out + [Top(st.stack)], Pop(st.stack)));
      }
    }
  }

  lemma StepOpens(mode: Mode, st: State, c: char)
    requires StackShape(st.stack)
    ensures c == ')' ==> (Step(mode, st, c).Ok? <==> Opens(st.stack) > 0)
    ensures c != ')' && mode == Guarded ==> Step(mode, st, c).Ok?
    ensures Step(mode, st, c).Ok? ==>
      Opens(Step(mode, st, c).value.stack) ==
        if c == '(' then Opens(st.stack) + 1 else if c == ')' then Opens(st.stack) - 1 else Opens(st.stack)
  {
    if c == ')' {
      CloseParenOpens(st);
    } else if IsOp(c) && !IsDigit(c) && |st.stack| > 0 {
      PopAboveOpens(mode, c, st);
      if mode == Guarded {
        PopAboveGuarded(c, st);
      }
    }
  }

  lemma {:induction false} RunBalanced(mode: Mode, st: State, s: string)
    requires StackShape(st.stack)
    ensures Run(mode, st, s).Ok? ==> BalancedFrom(s, Opens(st.stack))
    ensures mode == Guarded && BalancedFrom(s, Opens(st.stack)) ==> Run(mode, st, s).Ok?
    decreases |s|
  {
    if |s| == 0 {
      DrainOpens(st);
    } else {
      StepOpens(mode, st, s[0]);
      if Step(mode, st, s[0]).Ok? {
        RunBalanced(mode, Step(mode, st, s[0]).value, s[1..]);
      }
    }
  }

  /** Whichever operator loop is used, a successful parse had balanced
      parentheses. */
  lemma SucceedsOnlyIfBalanced(mode: Mode, s: string)
    ensures Run(mode, Start(), s).Ok? ==> Balanced(s)
  {
    RunBalanced(mode, Start(), s);
  }

  /** With the guarded operator loop, parentheses are the only way to fail. */
  lemma GuardedSucceedsIffBalanced(s: string)
    ensures ShuntedGuarded(s).Ok? <==> Balanced(s)
  {
    RunBalanced(Guarded, Start(), s);
  }

  // ---------------------------------------------------------------------
  // Worked examples.

  // Single steps of the loops, with the new state given explicitly, so that
  // a concrete run can be followed one character at a time.

  lemma FeedAt(mode: Mode, st: State, s: string, k: nat, next: State)
    requires StackShape(st.stack) && k < |s| && Step(mode, st, s[k]) == Ok(next)
    ensures Feed(mode, st, s[k..]) == Feed(mode, next, s[k + 1..])
  {
    assert s[k..][0] == s[k] && s[k..][1..] == s[k + 1..];
  }

  lemma DigitAt(mode: Mode, st: State, s: string, k: nat, out: seq<char>)
    requires StackShape(st.stack) && k < |s| && IsDigit(s[k]) && out == st.out + [s[k]]
    ensures Feed(mode, st, s[k..]) == Feed(mode, State(out, st.stack), s[k + 1..])
  {
    FeedAt(mode, st, s, k, State(out, st.stack));
  }

  /** A `(`, or an operator that pops nothing. */
  lemma PushAt(mode: Mode, st: State, s: string, k: nat, stack: seq<char>)
    requires StackShape(st.stack) && k < |s| && stack == st.stack + [s[k]]
    requires s[k] == '(' || (IsOp(s[k]) && (|st.stack| == 0 || !PopsBefore(Top(st.stack), s[k])))
    ensures Feed(mode, st, s[k..]) == Feed(mode, State(st.out, stack), s[k + 1..])
  {
    if |st.stack| == 0 {
      assert stack == [s[k]];
    }
    FeedAt(mode, st, s, k, State(st.out, stack));
  }

  /** One turn of the pop loop for operator `tok`. */
  lemma PopAt(mode: Mode, tok: char, st: State, out: seq<char>, stack: seq<char>)
    requires IsOp(tok) && |st.stack| > 1 && StackShape(st.stack) && PopsBefore(Top(st.stack), tok)
    requires out == st.out + [Top(st.stack)] && stack == Pop(st.stack)
    ensures PopAbove(mode, tok, st) == PopAbove(mode, tok, State(out, stack))
  {
  }

  /** The end of the pop loop for operator `tok`. */
  lemma StopAt(mode: Mode, tok: char, st: State, stack: seq<char>)
    requires IsOp(tok) && |st.stack| > 0 && StackShape(st.stack) && !PopsBefore(Top(st.stack), tok)
    requires stack == st.stack + [tok]
    ensures PopAbove(mode, tok, st) == Ok(State(st.out, stack))
  {
  }

  /** The guarded pop loop popping the last entry. */
  lemma EmptyAt(tok: char, st: State, out: seq<char>, stack: seq<char>)
    requires IsOp(tok) && |st.stack| == 1 && StackShape(st.stack) && PopsBefore(Top(st.stack), tok)
    requires out == st.out + [Top(st.stack)] && stack == [tok]
    ensures PopAbove(AsWritten, tok, st) == Err(EmptiedStack)
    ensures PopAbove(Guarded, tok, st) == Ok(State(out, stack))
  {
  }

  /** One turn of the `)` loop, or of the final loop. */
  lemma UnstackAt(st: State, out: seq<char>, stack: seq<char>)
    requires |st.stack| > 0 && Top(st.stack) != '('
    requires out == st.out + [Top(st.stack)] && stack == Pop(st.stack)
    ensures CloseParen(st) == CloseParen(State(out, stack))
    ensures Drain(st) == Drain(State(out, stack))
  {
  }

  /** The input is used up. */
  lemma DoneAt(mode: Mode, st: State, s: string, k: nat)
    requires StackShape(st.stack) && k == |s|
    ensures Feed(mode, st, s[k..]) == Ok(st)
  {
    assert s[k..] == [];
  }

  /** A character that stops the loop. */
  lemma FailAt(mode: Mode, st: State, s: string, k: nat, e: Failure)
    requires StackShape(st.stack) && k < |s| && Step(mode, st, s[k]) == Err(e)
    ensures Feed(mode, st, s[k..]) == Err(e)
  {
    assert s[k..][0] == s[k];
  }

  /** A run is the loop over the characters followed by the final loop. */
  lemma RunFrom(mode: Mode, st: State, s: string, end: State)
    requires StackShape(st.stack) && Feed(mode, st, s) == Ok(end)
    ensures Run(mode, st, s) == Drain(end)
  {
  }

  /** `1+` at the head of `1+2^2*3^2`. */
  lemma PrecedenceStart(s: string)
    requires s == "1+2^2*3^2"
    ensures Feed(AsWritten, Start(), s) == Feed(AsWritten, State("1", "+"), s[2..])
  {
    assert s[0..] == s;
    DigitAt(AsWritten, Start(), s, 0, "1");
    PushAt(AsWritten, State("1", ""), s, 1, "+");
  }

  /** `2^`: the `^` is pushed above the `+`. */
  lemma PrecedenceSecond(s: string)
    requires s == "1+2^2*3^2"
    ensures Feed(AsWritten, State("1", "+"), s[2..]) == Feed(AsWritten, State("12", "+^"), s[4..])
  {
    DigitAt(AsWritten, State("1", "+"), s, 2, "12");
    PushAt(AsWritten, State("12", "+"), s, 3, "+^");
  }

  /** `*` pops the `^` and stops at the `+`. */
  lemma PrecedenceTimes(s: string)
    requires s == "1+2^2*3^2"
    ensures Feed(AsWritten, State("122", "+^"), s[5..]) == Feed(AsWritten, State("122^", "+*"), s[6..])
  {
    PopAt(AsWritten, '*', State("122", "+^"), "122^", "+");
    StopAt(AsWritten, '*', State("122^", "+"), "+*");
    FeedAt(AsWritten, State("122", "+^"), s, 5, State("122^", "+*"));
  }

  /** `2*`. */
  lemma PrecedenceMiddle(s: string)
    requires s == "1+2^2*3^2"
    ensures Feed(AsWritten, State("12", "+^"), s[4..]) == Feed(AsWritten, State("122^", "+*"), s[6..])
  {
    DigitAt(AsWritten, State("12", "+^"), s, 4, "122");
    PrecedenceTimes(s);
  }

  /** `3^2`: the second `^` is pushed above the `*`. */
  lemma PrecedenceEnd(s: string)
    requires s == "1+2^2*3^2"
    ensures Feed(AsWritten, State("122^", "+*"), s[6..]) == Ok(State("122^32", "+*^"))
  {
    DigitAt(AsWritten, State("122^", "+*"), s, 6, "122^3");
    PushAt(AsWritten, State("122^3", "+*"), s, 7, "+*^");
    DigitAt(AsWritten, State("122^3", "+*^"), s, 8, "122^32");
    DoneAt(AsWritten, State("122^32", "+*^"), s, 9);
  }

  /** The final loop pops `^`, `*` and `+` in that order. */
  lemma PrecedenceDrain()
    ensures Drain(State("122^32", "+*^")) == Ok("122^32^*+")
  {
    UnstackAt(State("122^32", "+*^"), "122^32^", "+*");
    UnstackAt(State("122^32^", "+*"), "122^32^*", "+");
    UnstackAt(State("122^32^*", "+"), "122^32^*+", "");
  }

  /** `^` binds tighter than `*`, which binds tighter than `+`: the input
      `1+2^2*3^2` becomes `1 2 2 ^ 3 2 ^ * +`, that is `1 + ((2^2) * (3^2))`. */
  lemma PrecedenceExample()
    ensures Shunted("1+2^2*3^2") == Ok("122^32^*+")
  {
    var s := "1+2^2*3^2";
    PrecedenceStart(s);
    PrecedenceSecond(s);
    PrecedenceMiddle(s);
    PrecedenceEnd(s);
    RunFrom(AsWritten, Start(), s, State("122^32", "+*^"));
    PrecedenceDrain();
  }

  /** `2^3` at the head of `2^3^2`. */
  lemma PowerStart(s: string)
    requires s == "2^3^2"
    ensures Feed(AsWritten, Start(), s) == Feed(AsWritten, State("23", "^"), s[3..])
  {
    assert s[0..] == s;
    DigitAt(AsWritten, Start(), s, 0, "2");
    PushAt(AsWritten, State("2", ""), s, 1, "^");
    DigitAt(AsWritten, State("2", "^"), s, 2, "23");
  }

  /** `^2`: the second `^` does not pop the first. */
  lemma PowerEnd(s: string)
    requires s == "2^3^2"
    ensures Feed(AsWritten, State("23", "^"), s[3..]) == Ok(State("232", "^^"))
  {
    PushAt(AsWritten, State("23", "^"), s, 3, "^^");
    DigitAt(AsWritten, State("23", "^^"), s, 4, "232");
    DoneAt(AsWritten, State("232", "^^"), s, 5);
  }

  /** `^` is right-associative: `2^3^2` becomes `2 3 2 ^ ^`, that is `2^(3^2)`. */
  lemma RightAssociativeExample()
    ensures Shunted("2^3^2") == Ok("232^^")
  {
    var s := "2^3^2";
    PowerStart(s);
    PowerEnd(s);
    RunFrom(AsWritten, Start(), s, State("232", "^^"));
    UnstackAt(State("232", "^^"), "232^", "^");
    UnstackAt(State("232^", "^"), "232^^", "");
  }

  /** `(1+` at the head of `(1+2`. */
  lemma UnclosedStart(s: string)
    requires s == "(1+2"
    ensures Feed(AsWritten, Start(), s) == Feed(AsWritten, State("1", "("), s[2..])
  {
    assert s[0..] == s;
    PushAt(AsWritten, Start(), s, 0, "(");
    DigitAt(AsWritten, State("", "("), s, 1, "1");
  }

  /** `+2` leaves `(+` on the stack. */
  lemma UnclosedEnd(s: string)
    requires s == "(1+2"
    ensures Feed(AsWritten, State("1", "("), s[2..]) == Ok(State("12", "(+"))
  {
    PushAt(AsWritten, State("1", "("), s, 2, "(+");
    DigitAt(AsWritten, State("1", "(+"), s, 3, "12");
    DoneAt(AsWritten, State("12", "(+"), s, 4);
  }

  /** A leftover `(` fails the final assertion. */
  lemma UnclosedExample()
    ensures Shunted("(1+2") == Err(UnclosedOpen)
  {
    var s := "(1+2";
    UnclosedStart(s);
    UnclosedEnd(s);
    RunFrom(AsWritten, Start(), s, State("12", "(+"));
    UnstackAt(State("12", "(+"), "12+", "(");
  }

  /** `1+` at the head of `1+2)` and of `1+2+3`. */
  lemma SumStart(mode: Mode, s: string)
    requires s == "1+2)" || s == "1+2+3"
    ensures Feed(mode, Start(), s) == Feed(mode, State("12", "+"), s[3..])
  {
    assert s[0..] == s;
    DigitAt(mode, Start(), s, 0, "1");
    PushAt(mode, State("1", ""), s, 1, "+");
    DigitAt(mode, State("1", "+"), s, 2, "12");
  }

  /** A `)` without partner fails. */
  lemma UnmatchedExample()
    ensures Shunted("1+2)") == Err(UnmatchedClose)
  {
    var s := "1+2)";
    SumStart(AsWritten, s);
    UnstackAt(State("12", "+"), "12+", "");
    FailAt(AsWritten, State("12", "+"), s, 3, UnmatchedClose);
  }

  /** `1+2+3` has balanced parentheses, yet the pop loop for the second `+`
      empties the stack and reads its top again. */
  lemma EmptiedStackExample()
    ensures Balanced("1+2+3")
    ensures Shunted("1+2+3") == Err(EmptiedStack)
  {
    var s := "1+2+3";
    SumStart(AsWritten, s);
    EmptyAt('+', State("12", "+"), "12+", "+");
    FailAt(AsWritten, State("12", "+"), s, 3, EmptiedStack);
  }

  /** With the guarded loop, the second `+` of `1+2+3` pops the first one
      and takes its place, and `3` follows. */
  lemma GuardedSumTail(s: string)
    requires s == "1+2+3"
    ensures Feed(Guarded, State("12", "+"), s[3..]) == Ok(State("12+3", "+"))
  {
    EmptyAt('+', State("12", "+"), "12+", "+");
    FeedAt(Guarded, State("12", "+"), s, 3, State("12+", "+"));
    DigitAt(Guarded, State("12+", "+"), s, 4, "12+3");
    DoneAt(Guarded, State("12+3", "+"), s, 5);
  }

  /** The guarded loop turns `1+2+3` into `1 2 + 3 +`. */
  lemma GuardedSumExample()
    ensures ShuntedGuarded("1+2+3") == Ok("12+3+")
  {
    var s := "1+2+3";
    SumStart(Guarded, s);
    GuardedSumTail(s);
    RunFrom(Guarded, Start(), s, State("12+3", "+"));
    UnstackAt(State("12+3", "+"), "12+3+", "");
  }

  /** `(1+` at the head of `(1+2)+3`. */
  lemma ParenthesisedSumStart(t: string)
    requires t == "(1+2)+3"
    ensures Feed(AsWritten, Start(), t) == Feed(AsWritten, State("1", "(+"), t[3..])
  {
    assert t[0..] == t;
    PushAt(AsWritten, Start(), t, 0, "(");
    DigitAt(AsWritten, State("", "("), t, 1, "1");
    PushAt(AsWritten, State("1", "("), t, 2, "(+");
  }

  /** `2)`: the `)` pops the `+` and drops the `(`. */
  lemma ParenthesisedSumMiddle(t: string)
    requires t == "(1+2)+3"
    ensures Feed(AsWritten, State("1", "(+"), t[3..]) == Feed(AsWritten, State("12+", ""), t[5..])
  {
    DigitAt(AsWritten, State("1", "(+"), t, 3, "12");
    UnstackAt(State("12", "(+"), "12+", "(");
    FeedAt(AsWritten, State("12", "(+"), t, 4, State("12+", ""));
  }

  /** `+3` on the emptied stack. */
  lemma ParenthesisedSumEnd(t: string)
    requires t == "(1+2)+3"
    ensures Feed(AsWritten, State("12+", ""), t[5..]) == Ok(State("12+3", "+"))
  {
    PushAt(AsWritten, State("12+", ""), t, 5, "+");
    DigitAt(AsWritten, State("12+", "+"), t, 6, "12+3");
    DoneAt(AsWritten, State("12+3", "+"), t, 7);
  }

  /** As written, parenthesising the first sum avoids the empty stack:
      `(1+2)+3` becomes `1 2 + 3 +`. */
  lemma ParenthesisedSumExample()
    ensures Shunted("(1+2)+3") == Ok("12+3+")
  {
    var t := "(1+2)+3";
    ParenthesisedSumStart(t);
    ParenthesisedSumMiddle(t);
    ParenthesisedSumEnd(t);
    RunFrom(AsWritten, Start(), t, State("12+3", "+"));
    UnstackAt(State("12+3", "+"), "12+3+", "");
  }
}
