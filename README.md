# Shunting-yard expression parser and postfix evaluator, modelled in Dafny

The system reads arithmetic expressions that contain integers, the five
binary operators `^ * / + -`, the unary function `Log`, parentheses and free
variables. Its core has two halves:

- `parse` (src/main.py) converts a token stream into a postfix program with
  the shunting-yard algorithm. It binds each new variable in the
  process-wide `names` table.
- `evaluate_expr` runs that program on a stack of values. Each value
  carries a fully parenthesised infix label. A variable is resolved by
  prompting the console, once per variable per run.

`parse_str` (src/shunt.py) is the character-level prototype of the same
parser.

The project has eight modules:

- `Wrappers`: `Option` and `Result`.
- `Syntax`: the associativity column and the digit test shared by both parsers, and the choice between the operator loop as written and the guarded loop.
- `Seqs`: filtering and first-occurrence facts about sequences.
- `Terms`: the term records, the `ops` and `functions` tables and the
  label-building helpers `pow_op` … `log_fn`. Numeric values stay
  symbolic, and labels are exact.
- `Shunt`: `parse_str` as the functional specification `Shunted`. The
  method `ParseStr` is proved equal to it.
- `Parser`: `parse` as the functional specification `ParseTokens`. The
  class `Parser` owns the `names` table, and its method `Parse` is proved
  equal to that specification. The three inner loops are separate methods,
  each proved equal to the function it implements.
- `Evaluator`: `evaluate_expr` as the functional specification `Evaluate`.
  The method `EvaluateExpr` is proved equal to it. The console is a
  parameter: `answers(k)` is the integer typed at the k-th prompt of a run.
- `Reference`: an independent meaning for programs, given as expression
  trees, their postfix programs, their infix text and their values. For
  every readable expression, the tokens of its fully parenthesised text
  parse to its postfix program, in both modes and with any consistent
  names table. Evaluating that program reports the expression's value,
  labelled with the same text. An expression is readable when its numbers
  are decimal, no variable is named `Log`, and no call is the left operand
  of an operator (src/main.py:91-92 would stop on it).

Every way the code stops early is an explicit outcome:

- an `IndexError` on an empty stack;
- a failed `assert`;
- the `AttributeError` raised when the pop loop meets a function;
- the `KeyError` for an unknown operator;
- the `ValueError` of `int` on bad number text;
- a `pop` on an empty evaluation stack.

Both parsers take a mode:

- `AsWritten` follows the source.
- `Guarded` adds the emptiness test that the textbook algorithm has in its
  pop loop (see Findings).

In three places the code behaves differently from what the algorithm
evidently intends. The model follows the code:

- A cached variable is labelled with its bare name, not `name:value`
  (src/main.py:132).
- A function on the operator stack has no precedence. An operator that
  meets one in the pop loop stops the parse (src/main.py:91-92). A `)` does
  not move the function below its `(` to the output (src/main.py:77-82), so
  `Log(x)*2` fails. The shunting-yard algorithm pops that function at the
  `)`, and an operator never meets it.
- Mismatched parentheses surface as an `IndexError` or a failed `assert`
  (src/main.py:78-82, 111-112), not as a dedicated error type carrying a
  position. The model names these `UnmatchedClose` and `UnclosedOpen`.

## Model

| member | source | states |
|---|---|---|
| Terms.TableEntries | src/main.py:48-58 | The operator table holds exactly `^`(4, right), `*` and `/`(3, left), `+` and `-`(2, left). The function table holds exactly `Log` with one argument. |
| Terms.OperatorFor | src/main.py:48-54 | Each binary operator helper is the action of exactly one table entry, and that entry's symbol is the text the helper writes into labels. |
| Terms.FunctionFor | src/main.py:56-58 | `log_fn` is the action of the `Log` entry of the function table. |
| Shunt.PopAbove | src/shunt.py:38-43 | The operator loop leaves only `(` and operators on the stack, with the new operator on top. It fails only as written, and then only by emptying the stack. |
| Shunt.PushOperator | src/shunt.py:33-43 | An operator character keeps the stack made of `(` and operators only. |
| Shunt.CloseParen | src/shunt.py:26-31 | A `)` removes a non-empty top segment of the stack and leaves the rest untouched. On failure the failure is a `)` without a `(`. |
| Shunt.Drain | src/shunt.py:45-47 | The final loop can fail only on a `(` left on the stack. |
| Shunt.Step | src/shunt.py:19-43 | One character keeps the stack made of `(` and operators only. |
| Shunt.ParseStr | src/shunt.py:15-50 | The loop over the characters, with its local queue and stack, returns what the specification `Shunted` gives for the whole string. |
| Shunt.OutputIsPermutation | src/shunt.py:15-50 | On success the output is a permutation of the input's digits and operators, and holds no parenthesis. The digits keep their input order. |
| Shunt.IgnoredCharacters | src/shunt.py:19-43 | Characters other than digits, operators and parentheses have no effect: the result equals that of the input with them removed. |
| Shunt.OperatorStackOrdered | src/shunt.py:33-43 | After any prefix of the input, the stack holds only `(` and operators. Between parentheses, neighbouring operators rise in precedence from bottom to top. Two neighbours share a precedence only when the upper one is right-associative (`^`). |
| Shunt.SucceedsOnlyIfBalanced | src/shunt.py:26-47 | In either mode, a successful run implies balanced parentheses. |
| Shunt.GuardedSucceedsIffBalanced | src/shunt.py:15-50 | With the emptiness guard, a run succeeds exactly when the parentheses balance. |
| Shunt.PrecedenceExample | src/shunt.py:1-2 | `1+2^2*3^2` gives `122^32^*+`, i.e. `1 + ((2^2) * (3^2))`. |
| Shunt.RightAssociativeExample | src/shunt.py:38-39 | `2^3^2` gives `232^^`: `^` groups to the right. |
| Shunt.ParenthesisedSumExample | src/shunt.py:26-31 | `(1+2)+3` gives `12+3+`. |
| Shunt.UnclosedExample | src/shunt.py:45-46 | `(1+2` fails on the leftover `(`. |
| Shunt.UnmatchedExample | src/shunt.py:26-28 | `1+2)` fails on the `)` that has no `(`. |
| Shunt.EmptiedStackExample | src/shunt.py:38-41 | As written, `1+2+3` fails although its parentheses balance (see Findings). |
| Shunt.GuardedSumExample | src/shunt.py:38-43 | With the guard, `1+2+3` gives `12+3+`. |
| Parser.PopsBefore | src/main.py:91-94 | The loop test stops at a `(`. It fails exactly when the top is neither a `(` nor an operator. It pops only a top that binds tighter, or equally tight when the new operator is left-associative. |
| Parser.PopAbove | src/main.py:87-97 | The operator loop and push leave the names table alone. They fail only on a top without a precedence, or, as written, by emptying the stack. |
| Parser.CloseParen | src/main.py:77-82 | A `)` leaves the names table alone. It fails only when no `(` is below it. |
| Parser.Drain | src/main.py:111-113 | The final loop fails only on a leftover `(`. |
| Parser.CloseParenthesis | src/main.py:77-82 | The `)` loop returns what `CloseParen` gives. |
| Parser.PushOperator | src/main.py:90-97 | The operator loop and push return what `PopAbove` gives as written, including its two failures. |
| Parser.DrainStack | src/main.py:111-113 | The final loop returns what `Drain` gives. |
| Parser.Parser.constructor | src/main.py:60 | The names table starts empty. |
| Parser.Parser.Parse | src/main.py:62-115 | The program or error, and the new names table, are those of `ParseTokens` on the tokens and the old table. The table keeps every old entry, and every entry maps a name to the variable of that name. |
| Parser.ProgramIsPermutation | src/main.py:62-115 | On success the program holds each number, variable, operator and function of the tokens exactly as often as its token occurs, and no parenthesis. Numbers and variables keep their token order. |
| Parser.ParseNames | src/main.py:99-109 | Parsing keeps every bound name and binds only variable names from the tokens, each to the variable of that name. A successful parse binds all of them. |
| Parser.ParenthesesBalanced | src/main.py:74-113 | A successful parse implies balanced parenthesis tokens. A failure on a parenthesis implies unbalanced ones. |
| Parser.GuardedBalanced | src/main.py:84-113 | With the guard, a parse of balanced tokens can fail only on an unknown operator, a function met by the pop loop, or number text `int` rejects. It never fails on a parenthesis or an emptied stack. |
| Parser.RightAssociativeExample | src/main.py:84-97 | `2^3^2` gives the program `2 3 2 ^ ^` and binds nothing. |
| Parser.VariableExample | src/main.py:99-109 | `x*x` with `x` unbound gives `x x *` and binds `x` once. |
| Parser.UnknownOperatorExample | src/main.py:85 | `2%3` stops on the unknown operator `%`. |
| Parser.NoPrecedenceExample | src/main.py:91-92 | `Log(x)*2` stops when `*` meets `Log` on the stack. By then `x` is already bound. |
| Parser.UnclosedExample | src/main.py:111-112 | `(1+2` stops on the leftover `(`. |
| Parser.UnmatchedExample | src/main.py:77-79 | `1+2)` stops on the `)` that has no `(`. |
| Parser.EmptiedStackExample | src/main.py:91-95 | As written, `1+2+3` stops when the pop loop empties the stack (see Findings). |
| Parser.GuardedSumExample | src/main.py:91-97 | With the guard, `1+2+3` gives `1 2 + 3 +`. |
| Evaluator.Step | src/main.py:122-146 | One term succeeds exactly when the stack holds the values it pops. It changes the height by its net effect and leaves the entries below the popped ones untouched. |
| Evaluator.EvaluateExpr | src/main.py:117-148 | The loop with its local cache and stack reports the top of the stack, or the failure. It lists the names prompted for, as `Evaluate` does. |
| Evaluator.EvaluateSucceedsIff | src/main.py:122-148 | A run reports a value exactly when no term underflows and at least one value is left. It underflows exactly when some term lacks operands, whatever the console answers. |
| Evaluator.PromptsOncePerVariable | src/main.py:127-133 | A run prompts at most once per variable, and only for variables of the program. A run that does not underflow prompts for all of them, in order of first occurrence. |
| Reference.ExecPostfix | src/main.py:122-146 | The program of an expression pushes exactly one item on any consistent state: the expression's value with its fully parenthesised label. Earlier prompts and cache entries are kept. |
| Reference.EvaluatePostfix | src/main.py:117-148 | The evaluation of an expression's program prompts once per variable, in order of first occurrence. It reports the expression's value under those answers, labelled with its infix text. |
| Reference.ReadTokens | src/main.py:69-109 | From any state whose names table binds a set of names to their own variables, the tokens of a readable expression append its program to the output. Only a call's function stays on the stack, and the expression's variables are added to the table. |
| Reference.ParseTokensOf | src/main.py:62-115 | In either mode and with any consistent names table, the tokens of a readable expression parse to its postfix program. |
| Reference.ParseThenEvaluate | src/main.py:62-148 | The tokens of a readable expression parse to its program in both modes. Evaluating that program prompts for each of its variables and reports its value, labelled with its fully parenthesised text. |
| Reference.PowerEndToEnd | src/main.py:62-148 | `2^3^2` parses to the program of `2^(3^2)`, which prompts for nothing and reports the label `(2 ^ (3 ^ 2))`. |
| Reference.SquareEndToEnd | src/main.py:62-148 | `x*x` parses to the program of `x * x`, which prompts for `x` once, uses the answer twice and reports the label `(x * x)`. |

## Left out

- The tokenizer (`tokenizer`, imported by src/main.py:6) is not part of this model. `parse` takes its tokens as given, and the token `line`/`col` fields are carried but unused, as in the source.
- Console I/O is a parameter or is left out. The integers typed at the prompts become the oracle `answers`. The `Result: …` and `Expression: …` prints are not modelled; the evaluator returns the item it would print.
- The text of a variable's prompt is not modelled. The lambda built at src/main.py:107-108 reads the local `string` of `parse` when it runs, not when it is built. So every action created by one `parse` call shows the prompt of the last new name that call bound: after parsing `x+y` with both names new, resolving `x` prompts `y := `. Which answer a variable receives is modelled, and is unaffected.
- A console answer that `int` rejects is not modelled: answers are integers.
- The `__main__` block of src/main.py (150-157) is not modelled: it evaluates one fixed program forever. The module-level run of src/shunt.py (1-2, 52-53) is used only as the `PrecedenceExample` input.
- Arithmetic is symbolic. `**`, float division and `math.log` build `Apply`/`Call` values instead of numbers. Division by zero, a non-positive logarithm argument and float rounding are therefore not modelled.
- Parser.IsDecimal / Shunt.IsDigit: number text is ASCII decimal digits only. Python's `int` also accepts signs, underscores, surrounding blanks and non-ASCII digits, and `str.isdigit` accepts non-ASCII digits.
- Token kinds other than NUMBER, PARENTHESIS, OPERATOR and TERM are outside the model. A PARENTHESIS token that is neither `(` nor `)` is ignored, as the `match` falls through.
- The commented-out evaluator at the end of src/shunt.py is not modelled, and neither is src/exceptions.py, which the core never raises.
- The `names` table is one object owned by a `Parser` instance, not a module global. Only one parse runs at a time, as in the source.

## Findings

| source | as written | input that shows it | evidently intended | confidence | as-written member | corrected member |
|---|---|---|---|---|---|---|
| src/main.py:91-95 and src/shunt.py:38-41 | The pop loop reads the top of the stack again after popping its last entry, so emptying the stack raises `IndexError`. | `1+2+3`: the second `+` pops the first and then reads the empty stack. | Stop popping when the stack becomes empty, then push, so `1+2+3` gives `1 2 + 3 +`. In src/shunt.py the parse then succeeds exactly when the parentheses balance. In src/main.py balanced tokens can then fail only on an unknown operator, a function met by the pop loop, or bad number text. | high; not executed | Parser.EmptiedStackExample, Shunt.EmptiedStackExample | Parser.GuardedSumExample, Shunt.GuardedSumExample, Shunt.GuardedSucceedsIffBalanced, Parser.GuardedBalanced |
