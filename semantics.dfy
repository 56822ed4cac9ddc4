/** The behaviour of the stack machine (`class CPU` and the builtin table)
    as functions from machine state to machine state. The class in
    cpu.dfy is proved to change its fields exactly as these functions say. */
module Semantics {
  import opened Values

  /** Why an evaluation is abandoned. In the source each of the first four
      is a JavaScript TypeError thrown out of `evaluate`. */
  datatype Error =
    | StackUnderflow       // `pop` on an empty stack reads `.type` of undefined
    | UndefinedOperand     // `pop` of the undefined an out-of-range `i` pushed
    | BuiltinNameConstant  // resolving a constant whose text names a builtin calls a non-function
    | NotIterable          // `.forEach` on something that is not a block
    | OutOfFuel            // the nesting bound of the model was reached

  datatype Result<T> = Ok(value: T) | Err(error: Error) {
    predicate IsFailure() { Err? }
    function PropagateFailure<U>(): Result<U> requires Err? { Err(error) }
    function Extract(): T requires Ok? { value }
  }

  /** What a method of the class reports: it ran to the end, or it threw. */
  datatype Status = Done | Failed(error: Error)

  /** A property key of the object `dict`. Every value is turned into a
      string when used as a key; a func prints as the source text of the
      builtin's code, which is not part of this model and is kept apart
      from all the strings a program can produce. */
  datatype Key = StringKey(s: string) | FuncSourceKey(op: Builtin)

  /** The part of `pen` this model keeps: `down`, set by `d`, and the
      `up` field that `u` sets and nothing reads. */
  datatype Pen = Pen(down: bool, up: bool)

  /** One `beginPath`/`moveTo`/`lineTo`/`stroke` sequence drawn by `f` or `b`. */
  datatype Stroke = Stroke(forward: bool, distance: Number)

  /** The fields of a CPU: the stack (top at the end), the dictionary, the
      pen, and the strokes drawn so far. */
  datatype Machine = Machine(stack: seq<Slot>, dict: map<Key, Value>, pen: Pen, strokes: seq<Stroke>)

  /** A freshly constructed CPU. */
  const Initial := Machine([], map[], Pen(false, false), [])

  /** A value taken off the stack together with the machine left behind. */
  datatype Taken<T> = Taken(value: T, rest: Machine)

  // ---------------------------------------------------------------------
  // resolveConstant, push, pop, popNumber
  // ---------------------------------------------------------------------

  /** The key `dict[v.value]` looks up or assigns. */
  function KeyOf(v: Value): Key {
    match v
    case Const(a) => StringKey(AtomString(a))
    case Block(items) => StringKey(ArrayString(|items|))
    case Func(op) => FuncSourceKey(op)
  }

  /** `resolveConstant`: blocks and funcs stand for themselves; a constant
      naming a builtin throws; a constant bound in the dictionary stands for
      its binding, looked up once; any other constant stands for itself. */
  function Resolve(dict: map<Key, Value>, v: Value): Result<Value> {
    if !v.Const? then Ok(v)
    else if IsBuiltinName(AtomString(v.a)) then Err(BuiltinNameConstant)
    else if KeyOf(v) in dict then Ok(dict[KeyOf(v)])
    else Ok(v)
  }

  function Push(m: Machine, s: Slot): Machine {
    m.(stack := m.stack + [s])
  }

  /** `pop`: remove the top slot and resolve it. */
  function Pop(m: Machine): Result<Taken<Value>> {
    if m.stack == [] then Err(StackUnderflow)
    else
      var top := m.stack[|m.stack| - 1];
      var rest := m.(stack := m.stack[..|m.stack| - 1]);
      if top.Undefined? then Err(UndefinedOperand)
      else
        var v :- Resolve(m.dict, top.v);
        Ok(Taken(v, rest))
  }

  /** The number `popNumber` makes of a value: a numeric constant's own
      number, otherwise `parseFloat` of its string form (a func's source
      text begins with a parenthesis and reads as NaN). */
  function ToNumber(v: Value): Number {
    match v
    case Const(Num(n)) => n
    case Const(Text(s)) => ParseFloat(s)
    case Block(items) => ParseFloat(ArrayString(|items|))
    case Func(_) => NaN
  }

  function PopNumber(m: Machine): Result<Taken<Number>> {
    var t :- Pop(m);
    Ok(Taken(ToNumber(t.value), t.rest))
  }

  // ---------------------------------------------------------------------
  // Builtins that do not evaluate anything
  // ---------------------------------------------------------------------

  predicate IsArithmetic(b: Builtin) {
    b == Mul || b == Sum || b == Subtract
  }

  /** `* + -` on the first-popped `a` and the second-popped `b`. */
  function Combine(b: Builtin, a: Number, c: Number): Number
    requires IsArithmetic(b)
  {
    match b
    case Mul => Times(a, c)
    case Sum => Plus(a, c)
    case Subtract => Minus(a, c)
  }

  /** `*`, `+` and `-`: pop two numbers, push one numeric constant. */
  function OpArith(m: Machine, b: Builtin): Result<Machine>
    requires IsArithmetic(b)
  {
    var a :- PopNumber(m);
    var c :- PopNumber(a.rest);
    Ok(Push(c.rest, Val(Const(Num(Combine(b, a.value, c.value))))))
  }

  /** `f` (forward) and `b` (back): pop the distance and, when the pen is
      down, draw one stroke. The cursor position is not modelled. */
  function OpMove(m: Machine, forward: bool): Result<Machine> {
    var d :- PopNumber(m);
    var m' := d.rest;
    Ok(if m'.pen.down then m'.(strokes := m'.strokes + [Stroke(forward, d.value)]) else m')
  }

  /** `r` and `l`: pop the angle. The heading is not modelled. */
  function OpRotate(m: Machine): Result<Machine> {
    var r :- PopNumber(m);
    Ok(r.rest)
  }

  /** `d`: `pen.down = true`. */
  function OpPenDown(m: Machine): Machine {
    m.(pen := m.pen.(down := true))
  }

  /** `u`: `pen.up = true`, a field nothing reads; `pen.down` is untouched. */
  function OpPenUp(m: Machine): Machine {
    m.(pen := m.pen.(up := true))
  }

  /** The pairs `z` builds, as long as the shorter list. */
  function ZipPairs(xs: seq<Value>, ys: seq<Value>): seq<Value> {
    if xs == [] || ys == [] then []
    else [Block([xs[0], ys[0]])] + ZipPairs(xs[1..], ys[1..])
  }

  /** `z`: pop `ys`, pop `xs`, push the block of pairs. */
  function OpZip(m: Machine): Result<Machine> {
    var ys :- Pop(m);
    var xs :- Pop(ys.rest);
    if !xs.value.Block? || !ys.value.Block? then Err(NotIterable)
    else Ok(Push(xs.rest, Val(Block(ZipPairs(xs.value.items, ys.value.items)))))
  }

  /** The slots a sequence of values occupies once pushed in order. */
  function Slots(items: seq<Value>): (r: seq<Slot>)
    ensures |r| == |items|
  {
    if items == [] then [] else [Val(items[0])] + Slots(items[1..])
  }

  /** `x`: pop a block and push its elements in order. */
  function OpExpand(m: Machine): Result<Machine> {
    var list :- Pop(m);
    if !list.value.Block? then Err(NotIterable)
    else Ok(list.rest.(stack := list.rest.stack + Slots(list.value.items)))
  }

  /** `.`: pop the (resolved) top and push it twice. */
  function OpDuplicate(m: Machine): Result<Machine> {
    var x :- Pop(m);
    Ok(Push(Push(x.rest, Val(x.value)), Val(x.value)))
  }

  /** The character `i` picks from the numeral `number`: the one at
      `number.length - floor(i) - 1`, "0" when that position is negative
      (or NaN), and the empty string that `charAt` gives past the end. */
  function DigitAt(number: string, i: Number): string {
    if i.NaN? then "0"
    else
      var d := |number| - i.i - 1;
      if d < 0 then "0" else if d < |number| then [number[d]] else ""
  }

  /** What `i` pushes for subject `xs` and index `i`: the element of a
      block (undefined out of range), a digit of a constant's numeral, and
      nothing at all for a func. */
  function IndexOf(xs: Value, i: Number): Option<Slot> {
    match xs
    case Block(items) => Some(if i.Int? && 0 <= i.i < |items| then Val(items[i.i]) else Undefined)
    case Const(a) =>
      var number := NumberToString(ParseFloat(AtomString(a)));
      Some(Val(Const(Text(DigitAt(number, i)))))
    case Func(_) => None
  }

  /** `i`: pop the index, pop the subject, push what `IndexOf` gives. */
  function OpIndex(m: Machine): Result<Machine> {
    var i :- PopNumber(m);
    var xs :- Pop(i.rest);
    match IndexOf(xs.value, i.value)
    case None => Ok(xs.rest)
    case Some(s) => Ok(Push(xs.rest, s))
  }

  /** `:`: pop the name, pop the value, bind `dict[name.value]`. */
  function OpDefine(m: Machine): Result<Machine> {
    var name :- Pop(m);
    var value :- Pop(name.rest);
    Ok(value.rest.(dict := value.rest.dict[KeyOf(name.value) := value.value]))
  }

  /** The number of passes of `for (let i = 0; i < count; i++)`. */
  function Count(n: Number): nat {
    if n.Int? && n.i > 0 then n.i else 0
  }

  // ---------------------------------------------------------------------
  // evaluate, evaluateToken and the builtins that evaluate blocks
  //
  // Evaluation need not terminate, so every nested evaluation by `c`, `e`
  // or `!` spends one unit of `fuel`; with none left it gives OutOfFuel.
  // ---------------------------------------------------------------------

  /** `evaluate`: evaluate the values of a block in order. */
  function Eval(fuel: nat, m: Machine, block: seq<Value>): Result<Machine>
    decreases fuel, 4, |block|
  {
    if block == [] then Ok(m)
    else
      var m' :- EvalToken(fuel, m, block[0]);
      Eval(fuel, m', block[1..])
  }

  /** `evaluateToken`: resolve; call a func, push anything else. */
  function EvalToken(fuel: nat, m: Machine, token: Value): Result<Machine>
    decreases fuel, 3, 0
  {
    var v :- Resolve(m.dict, token);
    if v.Func? then Call(fuel, m, v.op) else Ok(Push(m, Val(v)))
  }

  /** Calling a builtin's code. */
  function Call(fuel: nat, m: Machine, b: Builtin): Result<Machine>
    decreases fuel, 2, 0
  {
    match b
    case Mul => OpArith(m, b)
    case Sum => OpArith(m, b)
    case Subtract => OpArith(m, b)
    case Back => OpMove(m, false)
    case Forward => OpMove(m, true)
    case PenDown => Ok(OpPenDown(m))
    case PenUp => Ok(OpPenUp(m))
    case RotateCw => OpRotate(m)
    case RotateCcw => OpRotate(m)
    case DoN => OpDoN(fuel, m)
    case Each => OpEach(fuel, m)
    case Zip => OpZip(m)
    case Expand => OpExpand(m)
    case Duplicate => OpDuplicate(m)
    case Apply => OpApply(fuel, m)
    case Index => OpIndex(m)
    case Define => OpDefine(m)
  }

  /** One nested `evaluate(block.value)`; it throws when `body` is not a block. */
  function Nested(fuel: nat, m: Machine, body: Value): Result<Machine>
    decreases fuel, 0, 0
  {
    if !body.Block? then Err(NotIterable)
    else if fuel == 0 then Err(OutOfFuel)
    else Eval(fuel - 1, m, body.items)
  }

  /** `c`: pop the body, pop the count, evaluate the body `Count` times. */
  function OpDoN(fuel: nat, m: Machine): Result<Machine>
    decreases fuel, 1, 0
  {
    var body :- Pop(m);
    var count :- PopNumber(body.rest);
    RepeatLoop(fuel, count.rest, body.value, Count(count.value))
  }

  function RepeatLoop(fuel: nat, m: Machine, body: Value, k: nat): Result<Machine>
    decreases fuel, 0, k
  {
    if k == 0 then Ok(m)
    else
      var m' :- Nested(fuel, m, body);
      RepeatLoop(fuel, m', body, k - 1)
  }

  /** `e`: pop the items, pop the body; for each item, push it and
      evaluate the body. */
  function OpEach(fuel: nat, m: Machine): Result<Machine>
    decreases fuel, 1, 0
  {
    var items :- Pop(m);
    var body :- Pop(items.rest);
    if !items.value.Block? then Err(NotIterable)
    else EachLoop(fuel, body.rest, body.value, items.value.items)
  }

  function EachLoop(fuel: nat, m: Machine, body: Value, items: seq<Value>): Result<Machine>
    decreases fuel, 0, |items|
  {
    if items == [] then Ok(m)
    else
      var m' :- Nested(fuel, Push(m, Val(items[0])), body);
      EachLoop(fuel, m', body, items[1..])
  }

  /** `!`: pop `x`, pop `f`, push `x` back, then call a func `f` or
      evaluate a block `f`; a constant `f` is dropped. */
  function OpApply(fuel: nat, m: Machine): Result<Machine>
    decreases fuel, 1, 0
  {
    var x :- Pop(m);
    var f :- Pop(x.rest);
    var m' := Push(f.rest, Val(x.value));
    match f.value
    case Func(b) => if fuel == 0 then Err(OutOfFuel) else Call(fuel - 1, m', b)
    case Block(_) => Nested(fuel, m', f.value)
    case Const(_) => Ok(m')
  }

  /** A whole run: a fresh machine evaluating the parsed program. */
  function Run(fuel: nat, program: seq<Value>): Result<Machine> {
    Eval(fuel, Initial, program)
  }
}
