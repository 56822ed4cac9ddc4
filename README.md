# A verified model of a turtle-graphics Forth

The system is a tiny postfix language drawn on a canvas. The program text
is split on whitespace into raw tokens. `parse_it` groups them into a tree
of tagged values `{type: "constant" | "block" | "func", value}`, with
`[` ... `]` becoming a nested block and a builtin's name becoming a func
already at parse time. A `CPU` object then evaluates the tree against its
`stack`, its dictionary `dict` and its `pen`. It resolves each token,
calls funcs and pushes everything else. The builtins `* + - d u c e z x
. ! i :` manipulate the stack, loop over blocks, bind names and set the
pen; `f` and `b` draw when the pen is down.

The Dafny project has these modules:

- `Values` (values.dfy): numbers as an integer or NaN, `parseFloat` and
  `toString` on them, the builtin table, and the tagged values with the
  stack slot that may be `undefined`.
- `Tokenizer` (tokenizer.dfy): the raw-token pipeline
  (`split`/`trim`/`filter`), the function `ParseFrom` specifying
  `parse_it`, and the imperative `ParseIt` and `Parse` proved against it.
- `Semantics` (semantics.dfy): the machine state and every CPU operation
  and builtin as a function from state to `Result<Machine>`.
- `Cpu` (cpu.dfy): `class CPU` with the fields `stack`, `dict`, `pen` and
  `strokes`. Its methods update those fields in place, with the source's
  loops and their invariants, and each is proved to end in the state (or
  fail with the error) that the matching `Semantics` function gives.
- `TokenizerLaws`, `NumberLaws`, `MachineLaws`, `EvalLaws` (the `*_laws.dfy`
  files): the properties of the tokenizer, the numerals, each builtin and
  whole evaluations.
- `Examples` (examples.dfy): small programs worked through to their final
  state.

Evaluation need not terminate (a name can be bound to a block that calls
itself), so every nested evaluation by `c`, `e` or `!` spends one unit of
a `fuel` parameter and reports `OutOfFuel` when none is left.
`EvalLaws.EvalEnoughFuel` shows that this bound only cuts runs short: any
run that did not report `OutOfFuel` gives the same outcome with more fuel.

JavaScript's failures (reading `.type` or `.value` of `undefined`, calling
`forEach` on a non-array, calling the shadowed `T`) are modelled as the
`Err` cases of `Semantics.Error`.

### Where the code and its written description differ

The model follows the code in each of these cases:

- Builtin names become funcs while parsing (index.js:100-101), not when
  they are evaluated.
- A constant whose text names a builtin cannot be resolved: at
  index.js:61 `T` is the shadowed parameter, so the call throws
  (`BuiltinNameConstant`).
- `+` is numeric only, like `*` and `-` (index.js:128-131). It does not
  concatenate or extend blocks.
- `-` computes the first-popped number minus the second-popped one
  (index.js:134-135), so `5 3 -` is -2.
- `e` pops the list of items first, from the top, and the body second
  (index.js:191). `[ 1 2 ] [ ] e` therefore iterates over the empty
  block and leaves the initial state (`Examples.EachSwappedExample`).
- `.` pops the top, resolving it, and pushes the result twice
  (index.js:215-219).
- `!` pops `x` and then `f`, and pushes `x` back. A constant `f` is
  dropped without error (index.js:221-229).
- `i` on a block with an out-of-range index pushes `undefined` rather than
  failing (index.js:235, 246-247). Only the next `pop` of that slot fails.
- `u` sets a field `pen.up` that nothing reads, so it never lifts the pen
  (index.js:168).
- There is no `a` and no `?` builtin.

## Model

| member | source | states |
|---|---|---|
| Values.Times | index.js:123-126 | `*` on two numbers: the exact product of two integers, NaN as soon as either is NaN |
| Values.Plus | index.js:128-131 | `+` on two numbers: the exact sum, NaN as soon as either is NaN |
| Values.Minus | index.js:133-136 | `-` on two numbers: the exact difference, NaN as soon as either is NaN |
| Values.ParseFloat | index.js:74 | `parseFloat` on this language's texts: an optional sign and the longest digit run, NaN when no digit follows |
| Values.NumberToString | index.js:74 | `String(n)`: `NaN`, or the decimal numeral with a leading `-` for a negative number |
| Values.Name | index.js:119-120 | the name under which each builtin is entered in the table |
| Values.BuiltinOf | index.js:118-121 | the lookup `BUILTINS_DICT[name]`: the builtin entered under that one-character name, none for any other text |
| Values.BuiltinOfSound | index.js:118-121 | a name found in the builtin table is exactly the name of the builtin it finds |
| Values.BuiltinOfName | index.js:118-121 | every builtin is found under its own name, so no two builtins share a name |
| Values.LeadingDigits | index.js:74 | the digits `parseFloat` reads are the longest all-digit prefix of the text |
| NumberLaws.ParseFloatOfString | index.js:74 | `parseFloat` of the text `toString` gives back any number, NaN included, so numbers pushed by arithmetic survive being read back as text |
| NumberLaws.ParseFloatOfDecimal | index.js:74 | `parseFloat` of a non-negative numeral is its value |
| NumberLaws.ParseFloatOfNegative | index.js:74 | `parseFloat` of `-` followed by a numeral is the negated value |
| NumberLaws.NumberTextNotBuiltin | index.js:60-61 | the text of a number is never a builtin name, so a numeric constant always resolves |
| NumberLaws.DecimalDigit | index.js:238-240 | the k-th character from the right of a numeral is the k-th least significant digit of its value |
| NumberLaws.DigitAtDecimal | index.js:238-240 | the character `i` takes from a numeral at index k >= 0 is digit k of its value (the digit is 0 once k passes the numeral); a negative index gives the empty text of `charAt` |
| Tokenizer.Split | index.js:88 | `split(/[ \r\t\n]+/)`: the fragments between separators, at least one, none holding a separator |
| Tokenizer.Trim | index.js:89 | `trim`: the text without the white space and line terminators at either end |
| Tokenizer.TrimAndFilter | index.js:89-90 | trims every fragment and keeps the non-empty ones, in order |
| Tokenizer.RawTokens | index.js:87-90 | the raw tokens of a program text: its fragments, trimmed, empty ones dropped |
| Tokenizer.ParseTree | index.js:86-94 | `parse`: the values `parse_it` collects from the raw tokens starting at index 0 |
| Tokenizer.ParseFrom | index.js:96-114 | `parse_it` from index i returns an index in [i, number of tokens], strictly past i when a token is left |
| Tokenizer.ParseIt | index.js:96-114 | the `while` loop with its recursive call for `[` returns exactly the values and the index that `ParseFrom` specifies |
| Tokenizer.Parse | index.js:86-94 | `parse` of a text is the parse of its raw tokens from index 0 |
| TokenizerLaws.RawTokensAreTokens | index.js:87-90 | every raw token is non-empty, contains no separator and has nothing `trim` would remove at either end |
| TokenizerLaws.RawTokensOfJoin | index.js:87-90 | tokens written out with single spaces split back into exactly those tokens |
| TokenizerLaws.RawTokensCons | index.js:87-90 | a token followed by a space splits off as the first raw token |
| TokenizerLaws.ParseFromWellFormed | index.js:99-111 | from any raw tokens, all constants produced hold the text of a token that is neither a bracket nor a builtin name |
| TokenizerLaws.ParseTreeWellFormed | index.js:86-94 | the same for the tree `parse` builds from any text |
| TokenizerLaws.ParseConcat | index.js:96-114 | parsing the bracketed flattening of well-formed values yields those values and then whatever follows them |
| TokenizerLaws.ParseValue | index.js:96-114 | the same for one value |
| TokenizerLaws.ParseUnparse | index.js:96-114 | round trip from trees: flattening well-formed values with brackets and parsing gives them back |
| TokenizerLaws.TopLevelCloseDropsRest | index.js:108-109 | a `]` at top level ends the program and every token after it is dropped |
| TokenizerLaws.UnterminatedBlock | index.js:103-107 | a `[` that is never closed becomes a block running to the end of the input |
| TokenizerLaws.DepthAppend | index.js:103-109 | helper for the round trip below: the bracket depth of two token lists one after the other is the sum of their depths |
| TokenizerLaws.UnparseParseFrom | index.js:96-114 | what `parse_it` consumes from index i is what flattening its values gives: either up to and including a `]` closing the level (depth -1), or to the end of the input plus one `]` for each block left open |
| TokenizerLaws.UnparseParse | index.js:96-114 | round trip from raw tokens: for bracket-balanced tokens, flattening the parsed tree reproduces the token list exactly |
| TokenizerLaws.UnparseParseTree | index.js:86-114 | the same for program text whose raw tokens are balanced |
| TokenizerLaws.UnparseTokens | index.js:87-90 | the flattening of well-formed values consists of raw tokens |
| TokenizerLaws.ParseTreeOfText | index.js:86-114 | round trip through text: well-formed values written out with brackets and spaces parse back to themselves |
| Semantics.KeyOf | index.js:62 | the key `dict[T.value]` reads and `:` writes: a constant's text, the `[object Object]` list a block turns into, or a func's source |
| Semantics.Resolve | index.js:56-66 | `resolveConstant`: blocks and funcs are themselves, a constant naming a builtin fails, a bound constant is its binding and any other constant is itself |
| Semantics.Push | index.js:77-83 | `push`: appends one slot to the stack |
| Semantics.Pop | index.js:68-70 | `pop`: fails on an empty stack or an `undefined` top, else removes the top and resolves it |
| Semantics.ToNumber | index.js:74 | the number `popNumber` reads from a value: a numeric constant's own number, else `parseFloat` of its text |
| Semantics.PopNumber | index.js:72-75 | `popNumber`: `pop`, then read the value as a number |
| Semantics.OpArith | index.js:123-136 | `* + -`: pop two numbers and push their combination, the first-popped on the left |
| Semantics.OpMove | index.js:138-164 | `f` and `b`: pop the distance and record one stroke when the pen is down |
| Semantics.OpRotate | index.js:170-180 | `r` and `l`: pop the angle |
| Semantics.OpPenDown | index.js:166 | `d`: sets `pen.down` |
| Semantics.OpPenUp | index.js:168 | `u`: sets `pen.up` and leaves `pen.down` |
| Semantics.ZipPairs | index.js:201-204 | the pairs of `z`, one per index below the shorter length |
| Semantics.OpZip | index.js:198-206 | `z`: pop two blocks, push the block of their pairs |
| Semantics.OpExpand | index.js:208-213 | `x`: pop a block, push its elements in order |
| Semantics.OpDuplicate | index.js:215-219 | `.`: pop and resolve the top, push it twice |
| Semantics.DigitAt | index.js:238-240 | the character `charAt(number.length - floor(i) - 1)` of `i`, `0` for a negative position or NaN |
| Semantics.IndexOf | index.js:234-248 | what `i` pushes: a block's element or `undefined`, a constant's digit, nothing for a func |
| Semantics.OpIndex | index.js:231-249 | `i`: pop the index and the subject, push what `IndexOf` gives |
| Semantics.OpDefine | index.js:251-254 | `:`: pop the name and the value, bind the name's key to the value |
| Semantics.Count | index.js:185 | the number of passes of `for (i = 0; i < count; i++)`: the count when positive, else zero |
| Semantics.Eval | index.js:41-45 | `evaluate`: the tokens of a block one after the other, stopping at the first failure |
| Semantics.EvalToken | index.js:47-54 | `evaluateToken`: resolve, then call a func and push anything else |
| Semantics.Call | index.js:50 | `token.value(this)`: the code of each builtin |
| Semantics.Nested | index.js:186 | one nested `evaluate(block.value)`, failing on a non-block body |
| Semantics.OpDoN | index.js:182-188 | `c`: pop the body and the count, run the body `Count` times |
| Semantics.RepeatLoop | index.js:185-187 | the counting loop of `c` |
| Semantics.OpEach | index.js:190-196 | `e`: pop the items and the body, run the loop over the items |
| Semantics.EachLoop | index.js:192-195 | the `forEach` of `e`: push each item, then evaluate the body |
| Semantics.OpApply | index.js:221-229 | `!`: pop `x` and `f`, push `x`, call or evaluate `f`, drop a constant `f` |
| Semantics.Run | index.js:13-27 | a fresh CPU evaluating a parsed program |
| MachineLaws.ResolveOneStep | index.js:56-66 | blocks and funcs resolve to themselves; a constant fails exactly when its text is a builtin name; otherwise the result is the constant itself or the binding of its own key, never a binding of that binding; a bound name resolves to its binding and an unbound one to itself |
| MachineLaws.ResolveNotTransitive | index.js:62-63 | with `a` bound to `y` and `y` bound to `z`, `a` resolves to `y` |
| MachineLaws.ResolveBuiltinName | index.js:60-61 | the constant `-` cannot be resolved in any dictionary |
| MachineLaws.PopEffect | index.js:68-70 | `pop` fails on an empty stack and on an `undefined` top; it succeeds exactly when the top slot resolves, returning the resolved value, removing that slot and changing nothing else |
| MachineLaws.PopSecond | index.js:68-70 | a second `pop` reads and removes the second slot from the top |
| MachineLaws.PopTwo | index.js:68-70 | two pops succeed exactly when the top two slots resolve, returning them top first and leaving the rest of the stack and the other fields |
| MachineLaws.ToNumberText | index.js:72-75 | `popNumber` keeps a numeric constant's number, and reading the text of a number gives that number |
| MachineLaws.BlockIsNaN | index.js:74 | a block read as a number is NaN |
| MachineLaws.ArithEffect | index.js:123-136 | `* + -` succeed exactly when the top two slots resolve; the depth falls by one, the part below is unchanged and the new top is the combination of the numbers, first-popped first |
| MachineLaws.SubtractOrder | index.js:133-136 | `5 3 -` on any stack replaces the two numerals by -2 |
| MachineLaws.MoveEffect | index.js:138-180 | `f`, `b`, `r`, `l` succeed exactly when the top slot resolves and pop it; `f` and `b` append one stroke of that length when the pen is down and none when it is up |
| MachineLaws.PenUpKeepsDown | index.js:166-168 | `u` leaves `pen.down` as it was, so after `d` the pen stays down; neither touches the stack |
| MachineLaws.ZipPairsSpec | index.js:201-204 | the block `z` builds is as long as the shorter list and its k-th element is the pair of the two k-th elements |
| MachineLaws.ZipEffect | index.js:198-206 | `z` succeeds exactly on two blocks, and replaces them by the block of their pairs (second from top first) |
| MachineLaws.SlotsSpec | index.js:210-212 | pushing the elements of a block in order puts element k in slot k |
| MachineLaws.ExpandEffect | index.js:208-213 | `x` succeeds exactly on a block, and replaces it by its elements in their original order, raising the depth by length - 1 |
| MachineLaws.DuplicateEffect | index.js:215-219 | `.` succeeds exactly when the top resolves; the depth grows by one, the part below is unchanged and the top two slots both hold the resolved top |
| MachineLaws.IndexEffect | index.js:231-249 | `i` pushes a block's element at an in-range index and `undefined` otherwise, the digit character of a constant's numeral, and nothing for a func |
| MachineLaws.UndefinedFailsLater | index.js:235-247 | after an out-of-range block index, the next `pop` fails |
| MachineLaws.IndexDigit | index.js:238-240 | for a non-negative numeral, or the number itself, `i` at index k >= 0 pushes the k-th least significant digit and at a negative index the empty text |
| MachineLaws.IndexDigitExample | index.js:238-240 | `123` gives `3` at index 0, `1` at index 2 and `0` at index 3 |
| MachineLaws.NegativeIndexFails | index.js:238-240 | indexing a negative number just past its digits pushes the constant `-`, which can never be resolved |
| MachineLaws.DefineEffect | index.js:251-254 | `:` succeeds exactly when the top two slots resolve; it removes both and binds the key of the name to the value, leaving every other key, the pen and the strokes |
| MachineLaws.DefineThenLookup | index.js:251-254 | after `v n :` with `n` unbound, non-builtin text, popping `n` gives `v` and evaluating `n` pushes `v` (or calls it when it is a func) |
| MachineLaws.RedefineKeysOnBinding | index.js:252-253 | defining an already bound name binds the key of its current binding, and the name itself keeps its old binding |
| EvalLaws.EvalConcat | index.js:41-45 | evaluating two blocks one after the other is evaluating their concatenation |
| EvalLaws.RepeatLoopSpec | index.js:185-187 | the loop of `c` runs the body k times in a row, which is one evaluation of k copies of it; a non-block body fails only when k > 0 |
| EvalLaws.DoNEffect | index.js:182-188 | `c` with a NaN or non-positive count runs the body zero times and with a positive count n runs it exactly n times |
| EvalLaws.EachSnoc | index.js:192-195 | one more item adds one more push-and-evaluate step at the end |
| EvalLaws.EachEmptyBody | index.js:190-196 | `e` with an empty body pushes the items in their order and nothing else |
| EvalLaws.EachEffect | index.js:190-196 | `e` fails unless the top is a block, and otherwise runs its loop over that block's items with the body from below it |
| EvalLaws.ApplyEffect | index.js:221-229 | `!` puts `x` back, then calls a func `f`, evaluates a block `f`, and does nothing more for a constant `f` |
| EvalLaws.GrowsTrans | index.js:41-45 | helper for the lemmas below: the "never undoes" relation composes |
| EvalLaws.EvalGrows | index.js:41-45 | no evaluation lifts the pen, erases a stroke or removes a binding |
| EvalLaws.EvalTokenGrows | index.js:47-54 | the same for one token |
| EvalLaws.CallGrows | index.js:50 | the same for one builtin |
| EvalLaws.ArithGrows | index.js:123-136 | the same for `* + -` |
| EvalLaws.IndexGrows | index.js:231-249 | the same for `i` |
| EvalLaws.DefineGrows | index.js:251-254 | the same for `:`, which only adds or replaces a key |
| EvalLaws.NestedGrows | index.js:186 | the same for one nested evaluation |
| EvalLaws.DoNGrows | index.js:182-188 | the same for `c` |
| EvalLaws.RepeatGrows | index.js:185-187 | the same for the loop of `c` |
| EvalLaws.EachGrows | index.js:190-196 | the same for `e` |
| EvalLaws.EachLoopGrows | index.js:192-195 | the same for the loop of `e` |
| EvalLaws.ApplyGrows | index.js:221-229 | the same for `!` |
| EvalLaws.PenStaysDown | index.js:166-168 | once the pen is down, no program puts it up again |
| EvalLaws.EvalMoreFuel | index.js:41-45 | an evaluation that did not run out of fuel has the same outcome with one more unit |
| EvalLaws.EvalTokenMoreFuel | index.js:47-54 | the same for one token |
| EvalLaws.CallMoreFuel | index.js:50 | the same for one builtin |
| EvalLaws.NestedMoreFuel | index.js:186 | the same for one nested evaluation |
| EvalLaws.DoNMoreFuel | index.js:182-188 | the same for `c` |
| EvalLaws.RepeatMoreFuel | index.js:185-187 | the same for the loop of `c` |
| EvalLaws.EachMoreFuel | index.js:190-196 | the same for `e` |
| EvalLaws.EachLoopMoreFuel | index.js:192-195 | the same for the loop of `e` |
| EvalLaws.ApplyMoreFuel | index.js:221-229 | the same for `!` |
| EvalLaws.EvalEnoughFuel | index.js:41-45 | any amount of fuel beyond what an evaluation needed gives the same outcome |
| Cpu.CPU.constructor | index.js:30-39 | a new CPU has an empty stack and dictionary, the pen up and no strokes |
| Cpu.CPU.Push | index.js:77-83 | the slot is appended to the stack and nothing else changes |
| Cpu.CPU.Pop | index.js:68-70 | removes the top slot and returns its resolution, or reports the error `Semantics.Pop` gives |
| Cpu.CPU.PopNumber | index.js:72-75 | the same, returning the number `popNumber` makes of the value |
| Cpu.CPU.Evaluate | index.js:41-45 | the loop over the block leaves the fields as `Semantics.Eval` says, or reports its error |
| Cpu.CPU.EvaluateToken | index.js:47-54 | resolves the token, then calls a func or pushes anything else, as `Semantics.EvalToken` says |
| Cpu.CPU.CallBuiltin | index.js:50 | runs the builtin's code as `Semantics.Call` says |
| Cpu.CPU.EvaluateNested | index.js:186 | the nested `evaluate(block.value)` of `c`, `e` and `!` as `Semantics.Nested` says |
| Cpu.CPU.ExecArith | index.js:123-136 | `* + -` as `Semantics.OpArith` says |
| Cpu.CPU.ExecMove | index.js:138-164 | `f` and `b` as `Semantics.OpMove` says |
| Cpu.CPU.ExecRotate | index.js:170-180 | `r` and `l` as `Semantics.OpRotate` says |
| Cpu.CPU.ExecPenDown | index.js:166 | `d` sets `pen.down` and nothing else |
| Cpu.CPU.ExecPenUp | index.js:168 | `u` sets `pen.up` and nothing else |
| Cpu.CPU.ExecDoN | index.js:182-188 | the counting loop of `c` as `Semantics.OpDoN` says |
| Cpu.CPU.ExecEach | index.js:190-196 | the `forEach` loop of `e` as `Semantics.OpEach` says |
| Cpu.CPU.ExecZip | index.js:198-206 | the counting loop of `z` as `Semantics.OpZip` says |
| Cpu.CPU.ExecExpand | index.js:208-213 | the `forEach` loop of `x` as `Semantics.OpExpand` says |
| Cpu.CPU.ExecDuplicate | index.js:215-219 | `.` as `Semantics.OpDuplicate` says |
| Cpu.CPU.ExecApply | index.js:221-229 | `!` as `Semantics.OpApply` says |
| Cpu.CPU.ExecIndex | index.js:231-249 | `i` as `Semantics.OpIndex` says |
| Cpu.CPU.ExecDefine | index.js:251-254 | `:` as `Semantics.OpDefine` says |
| Cpu.ZipPairsSnoc | index.js:202-204 | one more pass of the loop of `z` appends one pair |
| Cpu.SlotsSnoc | index.js:210-212 | one more pass of the loop of `x` pushes one more element |
| Cpu.Execute | index.js:13-27 | a fresh CPU evaluating the parsed program text ends as `Semantics.Run` says |
| Examples.ParseFlatBlock | index.js:96-114 | the tokens of `[ 1 2 ]` parse to one block holding the constants 1 and 2 |
| Examples.ParseNestedBlock | index.js:96-114 | the tokens of `1 [ 2 [ 3 ] ]` parse to a constant and a block whose second element is a nested block |
| Examples.ParseBuiltin | index.js:100-101 | the tokens of `2 +` parse to a constant and the func of `+` |
| Examples.SubtractExample | index.js:133-136 | `5 3 -` leaves just -2 |
| Examples.UnderflowExample | index.js:128-131 | `+` on the empty stack fails with a stack underflow |
| Examples.DefineExample | index.js:251-254 | `7 a : a` ends with 7 on the stack and `a` bound to 7 |
| Examples.PenDownExample | index.js:152-166 | `d 5 f` draws exactly one forward stroke of length 5 |
| Examples.PenUpExample | index.js:152-159 | `5 f` with the pen up draws nothing and leaves the initial state |
| Examples.EachExample | index.js:190-196 | `[ ] [ 1 2 ] e` pushes 1 and then 2 |
| Examples.EachSwappedExample | index.js:190-196 | `[ 1 2 ] [ ] e` iterates over the empty block and leaves the initial state |

## Left out

- The page wiring is not modelled, because it is user interface: element
  lookup, rendering the builtin list, event listeners and focus
  (index.js:1-11, 256-260 and after).
- Sharing a program through the URL, the history or the clipboard is not
  modelled, because it is browser I/O.
- Canvas calls are not modelled; a stroke while the pen is down is
  recorded as an abstract `Stroke(forward, distance)` instead. This covers
  the calls in `executeInput`, `f` and `b`, and the final cursor dot.
- Turtle geometry is not modelled, because it is floating-point work:
  the `x`, `y` and `dir` fields, `Math.cos`/`Math.sin` in `f` and `b`, and
  the heading update and modulo in `r` and `l`. Those builtins keep
  their stack effect.
- Numbers are integers and NaN only. Decimal fractions, exponents,
  Infinity, -0 and `Math.floor` of a non-integer are left out. This also
  means a fractional `c` count (which runs its ceiling many times) is not
  modelled.
- Values.Times, Values.Plus, Values.Minus: integers are unbounded and
  exact, whereas JavaScript numbers are doubles that round sums and
  products beyond 2^53. Values.NumberToString: `String(n)` switches to
  exponent form for magnitudes of 1e21 and more; that form is not
  modelled, which bears on `i` and on `NumberLaws.ParseFloatOfString`.
- `Values.ParseFloat` reads an optional sign and the longest run of
  following digits, not the full `parseFloat` grammar.
- Inherited object keys such as `toString` or `constructor`, which
  satisfy the `typeof ... !== "undefined"` tests at index.js:60 and 62, are
  left out. Both tables are maps over their own keys only.
- Semantics.OpZip: a non-block operand is a blanket `NotIterable` failure.
  In JavaScript, `z` reads `.length` and indexes strings and functions.
- Semantics.OpExpand: the same blanket `NotIterable` for non-blocks.
- Semantics.OpEach: the same blanket `NotIterable` for non-blocks.
- Semantics.KeyOf: a func's key stands for its source text, which is
  modelled as an abstract value. It can never equal a token, but the
  text itself is not modelled. A block's key is the `[object Object]` list that
  `String(array)` gives.
- Semantics.Error: `StackUnderflow` and `UndefinedOperand` are both the
  same JavaScript `TypeError` (reading `.type` of `undefined`). They are
  kept apart here for readability.
- Cpu.CPU.Evaluate: on failure the contract states the error only, not
  the partly updated fields the exception leaves behind. The same holds
  for every `Cpu.CPU` method that reports a `Status`, and for
  `Semantics.Eval` and `Semantics.Run`, which return a bare `Err`.
  `executeInput` rethrows and never reads a failed CPU again, but the
  strokes drawn before the failure stay on the canvas (index.js:13-27
  clears it only before a run); the model does not report those strokes.
- Cpu.CPU.constructor: `pen.up` starts `undefined` in JavaScript and is
  modelled as `false`; nothing reads it.
- The `try`/`catch` in `i` (index.js:237-244) is not modelled, because it
  cannot throw for the modelled numbers. `console.log` in `c` and
  `console.error` are not modelled either.
- The evaluation depth is bounded by a `fuel` parameter rather than left
  unbounded. `EvalLaws.EvalEnoughFuel` shows the bound only truncates runs.
- Text-level examples (from a literal program text to its tokens) are
  stated on the raw token lists. The general law from token lists to
  text is `TokenizerLaws.RawTokensOfJoin`.
