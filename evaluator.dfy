/** `evaluate_expr` of src/main.py: runs a postfix program on a stack of
    labelled values. A variable met for the first time in a run is resolved
    by prompting the console once; later occurrences in the same run reuse
    the cached value. The console is a parameter: the k-th prompt of a run
    is answered with `answers(k)`. */
module Evaluator {
  import opened Wrappers
  import opened Seqs
  import opened Terms

  /** The integers typed at the console, in prompt order. */
  type Answers = nat -> int

  /** The evaluation stack, the run's cache `local_names`, and the names
      prompted for so far, in order. */
  datatype EvalState = EvalState(stack: seq<Item>, cache: map<string, Item>, asked: seq<string>)

  function Start(): EvalState {
    EvalState([], map[], [])
  }

  /** How many values a term pops. */
  function Need(t: Term): nat {
    match t
    case Operator(_, _, _, _) => 2
    case Function(_, _, _) => 1
    case _ => 0
  }

  /** How a term changes the height of the stack. */
  function Net(t: Term): int {
    match t
    case Number(_, _) => 1
    case Symbol(_) => 1
    case Operator(_, _, _, _) => -1
    case _ => 0
  }

  /** The item the `k`-th prompt, for `name`, binds. */
  function Answered(name: string, k: nat, answers: Answers): Item {
    Item(Int(answers(k)), name)
  }

  /** One pass of the `for` loop; `None` when a `pop` finds the stack empty. */
  function Step(t: Term, st: EvalState, answers: Answers): (r: Option<EvalState>)
    ensures r.Some? <==> |st.stack| >= Need(t)
    ensures r.Some? ==> |r.value.stack| == |st.stack| + Net(t)
    ensures r.Some? ==> r.value.stack[..|st.stack| - Need(t)] == st.stack[..|st.stack| - Need(t)]
  {
    match t
    case Number(v, text) => Some(st.(stack := st.stack + [Item(Int(v), text)]))
    case Symbol(name) =>
      if name in st.cache then Some(st.(stack := st.stack + [st.cache[name]]))
      else
        var item := Answered(name, |st.asked|, answers);
        Some(EvalState(st.stack + [item], st.cache[name := item], st.asked + [name]))
    case Operator(_, _, _, f) =>
      if |st.stack| < 2 then None
      else
        var n := |st.stack|;
        Some(st.(stack := st.stack[..n - 2] + [ApplyBin(f, st.stack[n - 2], st.stack[n - 1])]))
    case Function(_, _, g) =>
      if |st.stack| < 1 then None
      else
        var n := |st.stack|;
        Some(st.(stack := st.stack[..n - 1] + [ApplyUn(g, st.stack[n - 1])]))
    case Paren(_) => Some(st)
  }

  /** Where a run stops: at the end of the program, or at a `pop` on an
      empty stack, with the state reached. */
  datatype Halt = Done(st: EvalState) | Underflow(st: EvalState)

  /** The `for` loop over the remaining program. */
  function Exec(prog: seq<Term>, st: EvalState, answers: Answers): Halt
    decreases |prog|
  {
    if |prog| == 0 then Done(st)
    else match Step(prog[0], st, answers)
      case None => Underflow(st)
      case Some(next) => Exec(prog[1..], next, answers)
  }

  /** A `pop` on an empty stack inside the loop, or the empty stack read by
      the final report. */
  datatype EvalError = StackUnderflow | EmptyStack

  /** The result reported (the top of the stack) and the names prompted for. */
  datatype Evaluation = Evaluation(result: Result<Item, EvalError>, asked: seq<string>)

  function Report(h: Halt): Evaluation {
    match h
    case Underflow(st) => Evaluation(Err(StackUnderflow), st.asked)
    case Done(st) =>
      if |st.stack| == 0 then Evaluation(Err(EmptyStack), st.asked)
      else Evaluation(Ok(st.stack[|st.stack| - 1]), st.asked)
  }

  /** `evaluate_expr(prog)` with the console answering `answers`. */
  function Evaluate(prog: seq<Term>, answers: Answers): Evaluation {
    Report(Exec(prog, Start(), answers))
  }

  lemma ExecUnfold(prog: seq<Term>, st: EvalState, answers: Answers)
    requires |prog| > 0
    ensures Step(prog[0], st, answers).None? ==> Exec(prog, st, answers) == Underflow(st)
    ensures Step(prog[0], st, answers).Some? ==> Exec(prog, st, answers) == Exec(prog[1..], Step(prog[0], st, answers).value, answers)
  {
  }

  /** `evaluate_expr`, with `local_names` and `stack` as locals; the result
      printed and the names prompted for are returned. */
  method EvaluateExpr(parsedExpr: seq<Term>, answers: Answers) returns (result: Result<Item, EvalError>, asked: seq<string>)
    ensures Evaluation(result, asked) == Evaluate(parsedExpr, answers)
  {
    var localNames: map<string, Item> := map[];
    var stack: seq<Item> := [];
    asked := [];
    for i := 0 to |parsedExpr|
      invariant Exec(parsedExpr[i..], EvalState(stack, localNames, asked), answers) == Exec(parsedExpr, Start(), answers)
    {
      var sym := parsedExpr[i];
      assert parsedExpr[i..][0] == sym && parsedExpr[i..][1..] == parsedExpr[i + 1..];
      ExecUnfold(parsedExpr[i..], EvalState(stack, localNames, asked), answers);
      ghost var next := Step(sym, EvalState(stack, localNames, asked), answers);
      match sym {
        case Number(v, text) =>
          stack := stack + [Item(Int(v), text)];
        case Symbol(name) =>
          if name in localNames {
            stack := stack + [localNames[name]];
          } else {
            localNames := localNames[name := Answered(name, |asked|, answers)];
            asked := asked + [name];
            stack := stack + [localNames[name]];
          }
        case Operator(_, _, _, f) =>
          if |stack| == 0 {
            return Err(StackUnderflow), asked;
          }
          ghost var entry := stack;
          var b := stack[|stack| - 1];
          stack := stack[..|stack| - 1];
          if |stack| == 0 {
            return Err(StackUnderflow), asked;
          }
          var a := stack[|stack| - 1];
          stack := stack[..|stack| - 1];
          assert stack == entry[..|entry| - 2];
          stack := stack + [ApplyBin(f, a, b)];
          assert next == Some(EvalState(stack, localNames, asked));
        case Function(_, _, g) =>
          if |stack| == 0 {
            return Err(StackUnderflow), asked;
          }
          var a := stack[|stack| - 1];
          stack := stack[..|stack| - 1];
          stack := stack + [ApplyUn(g, a)];
          assert next == Some(EvalState(stack, localNames, asked));
        case Paren(_) =>
      }
    }
    if |stack| == 0 {
      return Err(EmptyStack), asked;
    }
    result := Ok(stack[|stack| - 1]);
  }

  // ---------------------------------------------------------------------
  // Stack discipline: a run underflows exactly when some term finds too
  // few values, whatever the console answers.

  /** Starting at stack height `height`, every term finds the values it pops. */
  predicate FitsFrom(prog: seq<Term>, height: int)
    decreases |prog|
  {
    |prog| == 0 || (height >= Need(prog[0]) && FitsFrom(prog[1..], height + Net(prog[0])))
  }

  /** The change of stack height over a whole program. */
  function Depth(prog: seq<Term>): int
    decreases |prog|
  {
    if |prog| == 0 then 0 else Net(prog[0]) + Depth(prog[1..])
  }

  lemma {:induction false} ExecFits(prog: seq<Term>, st: EvalState, answers: Answers)
    ensures Exec(prog, st, answers).Done? <==> FitsFrom(prog, |st.stack|)
    ensures Exec(prog, st, answers).Done? ==> |Exec(prog, st, answers).st.stack| == |st.stack| + Depth(prog)
    decreases |prog|
  {
    if |prog| > 0 && Step(prog[0], st, answers).Some? {
      ExecFits(prog[1..], Step(prog[0], st, answers).value, answers);
    }
  }

  /** A run reports a result exactly when no term underflows the stack and
      the program leaves at least one value; the answers typed at the
      console play no part. */
  lemma EvaluateSucceedsIff(prog: seq<Term>, answers: Answers)
    ensures Evaluate(prog, answers).result.Ok? <==> FitsFrom(prog, 0) && Depth(prog) > 0
    ensures Evaluate(prog, answers).result == Err(StackUnderflow) <==> !FitsFrom(prog, 0)
  {
    ExecFits(prog, Start(), answers);
  }

  // ---------------------------------------------------------------------
  // Prompts: each variable of a run is asked for once, at its first
  // occurrence, and keeps the answer for the rest of the run.

  /** The cache binds exactly the names asked for, none asked twice, each to
      the answer its prompt received, labelled with the bare name. */
  ghost predicate CacheOk(st: EvalState, answers: Answers) {
    NoDup(st.asked) &&
    (forall n :: n in st.cache <==> n in st.asked) &&
    (forall k :: 0 <= k < |st.asked| ==> st.cache[st.asked[k]] == Answered(st.asked[k], k, answers))
  }

  /** The names of the variables in a program. */
  function Mentions(prog: seq<Term>): set<string>
    decreases |prog|
  {
    if |prog| == 0 then {}
    else (if prog[0].Symbol? then {prog[0].symbol} else {}) + Mentions(prog[1..])
  }

  /** The variables of a program outside `seen`, in order of first occurrence. */
  function NewNames(prog: seq<Term>, seen: set<string>): seq<string>
    decreases |prog|
  {
    if |prog| == 0 then []
    else if prog[0].Symbol? && prog[0].symbol !in seen then [prog[0].symbol] + NewNames(prog[1..], seen + {prog[0].symbol})
    else NewNames(prog[1..], seen)
  }

  lemma {:induction false} NewNamesSpec(prog: seq<Term>, seen: set<string>)
    ensures NoDup(NewNames(prog, seen))
    ensures forall n :: n in NewNames(prog, seen) <==> n in Mentions(prog) && n !in seen
    decreases |prog|
  {
    if |prog| > 0 {
      if prog[0].Symbol? && prog[0].symbol !in seen {
        NewNamesSpec(prog[1..], seen + {prog[0].symbol});
      } else {
        NewNamesSpec(prog[1..], seen);
      }
    }
  }

  lemma StepCache(t: Term, st: EvalState, answers: Answers)
    requires CacheOk(st, answers) && Step(t, st, answers).Some?
    ensures CacheOk(Step(t, st, answers).value, answers)
    ensures Step(t, st, answers).value.asked ==
      st.asked + if t.Symbol? && t.symbol !in st.cache then [t.symbol] else []
    ensures Step(t, st, answers).value.cache.Keys ==
      st.cache.Keys + if t.Symbol? then {t.symbol} else {}
  {
    if t.Symbol? && t.symbol !in st.cache {
      var next := Step(t, st, answers).value;
      assert next.asked == st.asked + [t.symbol];
      forall k | 0 <= k < |next.asked|
        ensures next.cache[next.asked[k]] == Answered(next.asked[k], k, answers)
      {
        if k < |st.asked| {
          assert next.asked[k] == st.asked[k];
        }
      }
    } else {
      assert st.asked + [] == st.asked;
    }
  }

  /** A run that gets past its first term continues from the state it reached. */
  lemma ExecCons(prog: seq<Term>, st: EvalState, answers: Answers)
    requires |prog| > 0 && Step(prog[0], st, answers).Some?
    ensures Exec(prog, st, answers) == Exec(prog[1..], Step(prog[0], st, answers).value, answers)
  {
  }

  lemma {:induction false} ExecCache(prog: seq<Term>, st: EvalState, answers: Answers)
    requires CacheOk(st, answers)
    ensures CacheOk(Exec(prog, st, answers).st, answers)
    ensures st.cache.Keys <= Exec(prog, st, answers).st.cache.Keys
    decreases |prog|
  {
    if |prog| > 0 && Step(prog[0], st, answers).Some? {
      var next := Step(prog[0], st, answers).value;
      StepCache(prog[0], st, answers);
      ExecCons(prog, st, answers);
      ExecCache(prog[1..], next, answers);
    }
  }

  /** The names one term adds to the prompts, followed by those of the rest. */
  lemma NewNamesCons(prog: seq<Term>, asked: seq<string>, seen: set<string>, asked': seq<string>, seen': set<string>)
    requires |prog| > 0
    requires asked' == asked + if prog[0].Symbol? && prog[0].symbol !in seen then [prog[0].symbol] else []
    requires seen' == seen + if prog[0].Symbol? then {prog[0].symbol} else {}
    ensures asked + NewNames(prog, seen) == asked' + NewNames(prog[1..], seen')
  {
    if prog[0].Symbol? && prog[0].symbol !in seen {
      assert asked + NewNames(prog, seen) == (asked + [prog[0].symbol]) + NewNames(prog[1..], seen');
    } else {
      assert seen' == seen;
      assert asked' == asked;
    }
  }

  lemma {:induction false} ExecAsked(prog: seq<Term>, st: EvalState, answers: Answers)
    requires CacheOk(st, answers)
    ensures Exec(prog, st, answers).Done? ==>
      Exec(prog, st, answers).st.asked == st.asked + NewNames(prog, st.cache.Keys)
    decreases |prog|
  {
    if |prog| == 0 {
      assert st.asked + [] == st.asked;
    } else if Step(prog[0], st, answers).Some? {
      var next := Step(prog[0], st, answers).value;
      StepCache(prog[0], st, answers);
      ExecCons(prog, st, answers);
      NewNamesCons(prog, st.asked, st.cache.Keys, next.asked, next.cache.Keys);
      ExecAsked(prog[1..], next, answers);
    }
  }

  /** A run asks for each of its variables once, in order of first
      occurrence, and a run that completes has asked for all of them; every
      run starts from an empty cache, so each run asks again. */
  lemma PromptsOncePerVariable(prog: seq<Term>, answers: Answers)
    ensures NoDup(Evaluate(prog, answers).asked)
    ensures forall n :: n in Evaluate(prog, answers).asked ==> n in Mentions(prog)
    ensures Evaluate(prog, answers).result != Err(StackUnderflow) ==> Evaluate(prog, answers).asked == NewNames(prog, {})
  {
    var h := Exec(prog, Start(), answers);
    assert Evaluate(prog, answers).asked == h.st.asked;
    ExecCache(prog, Start(), answers);
    ExecAsked(prog, Start(), answers);
    assert Start().cache.Keys == {};
    assert [] + NewNames(prog, {}) == NewNames(prog, {});
    forall n | n in h.st.asked
      ensures n in Mentions(prog)
    {
      MentionsCached(prog, Start(), answers, n);
    }
  }

  /** A name cached by a run was cached before it or is a variable of it. */
  lemma {:induction false} MentionsCached(prog: seq<Term>, st: EvalState, answers: Answers, n: string)
    requires n in Exec(prog, st, answers).st.cache
    ensures n in st.cache || n in Mentions(prog)
    decreases |prog|
  {
    if |prog| > 0 && Step(prog[0], st, answers).Some? {
      MentionsCached(prog[1..], Step(prog[0], st, answers).value, answers, n);
    }
  }
}
