/** `class CPU`: the stack machine whose methods and builtins update its
    fields in place. Every method is proved to leave the fields as the
    corresponding function of module Semantics says, or to report the
    error that function gives. */
module Cpu {
  import opened Values
  import opened Semantics
  import Tokenizer

  class CPU {
    var stack: seq<Slot>
    var dict: map<Key, Value>
    var pen: Pen
    var strokes: seq<Stroke>

    /** The fields as one value. */
    function State(): Machine
      reads this
    {
      Machine(stack, dict, pen, strokes)
    }

    /** A method that reported `st` did what `r` describes: it finished in
        state `r.value`, or it failed with `r.error`. */
    predicate Agrees(st: Status, r: Result<Machine>)
      reads this
    {
      match r
      case Ok(m) => st == Done && State() == m
      case Err(e) => st == Failed(e)
    }

    /** The same for a method that also returns what it took off the stack. */
    predicate Took<T(==)>(r: Result<T>, spec: Result<Taken<T>>)
      reads this
    {
      match spec
      case Ok(t) => r == Ok(t.value) && State() == t.rest
      case Err(e) => r == Err(e)
    }

    constructor ()
      ensures State() == Initial
    {
      stack := [];
      dict := map[];
      pen := Pen(false, false);
      strokes := [];
    }

    /** `push(item)`, which pushes the object itself (also `undefined`);
        `push(type, value)` is `Push(Val(...))` of the tagged value. */
    method Push(s: Slot)
      modifies this
      ensures State() == Semantics.Push(old(State()), s)
    {
      stack := stack + [s];
    }

    method Pop() returns (r: Result<Value>)
      modifies this
      ensures Took(r, Semantics.Pop(old(State())))
    {
      if |stack| == 0 {
        return Err(StackUnderflow);
      }
      var top := stack[|stack| - 1];
      stack := stack[..|stack| - 1];
      if top.Undefined? {
        return Err(UndefinedOperand);
      }
      r := Resolve(dict, top.v);
    }

    method PopNumber() returns (r: Result<Number>)
      modifies this
      ensures Took(r, Semantics.PopNumber(old(State())))
    {
      var head := Pop();
      if head.Err? {
        return Err(head.error);
      }
      r := Ok(ToNumber(head.value));
    }

    // -------------------------------------------------------------------
    // evaluate and evaluateToken
    // -------------------------------------------------------------------

    method Evaluate(fuel: nat, block: seq<Value>) returns (st: Status)
      modifies this
      ensures Agrees(st, Eval(fuel, old(State()), block))
      decreases fuel, 4
    {
      ghost var start := State();
      var k := 0;
      while k < |block|
        invariant 0 <= k <= |block|
        invariant Eval(fuel, start, block) == Eval(fuel, State(), block[k..])
      {
        assert block[k..][0] == block[k] && block[k..][1..] == block[k + 1..];
        st := EvaluateToken(fuel, block[k]);
        if st.Failed? {
          return;
        }
        k := k + 1;
      }
      st := Done;
    }

    method EvaluateToken(fuel: nat, token: Value) returns (st: Status)
      modifies this
      ensures Agrees(st, EvalToken(fuel, old(State()), token))
      decreases fuel, 3
    {
      var t := Resolve(dict, token);
      if t.Err? {
        return Failed(t.error);
      }
      if t.value.Func? {
        st := CallBuiltin(fuel, t.value.op);
        return;
      }
      Push(Val(t.value));
      st := Done;
    }

    /** `token.value(this)`: run the code of builtin `b`. */
    method CallBuiltin(fuel: nat, b: Builtin) returns (st: Status)
      modifies this
      ensures Agrees(st, Call(fuel, old(State()), b))
      decreases fuel, 2
    {
      match b
      case Mul => st := ExecArith(b);
      case Sum => st := ExecArith(b);
      case Subtract => st := ExecArith(b);
      case Back => st := ExecMove(false);
      case Forward => st := ExecMove(true);
      case PenDown => ExecPenDown(); st := Done;
      case PenUp => ExecPenUp(); st := Done;
      case RotateCw => st := ExecRotate();
      case RotateCcw => st := ExecRotate();
      case DoN => st := ExecDoN(fuel);
      case Each => st := ExecEach(fuel);
      case Zip => st := ExecZip();
      case Expand => st := ExecExpand();
      case Duplicate => st := ExecDuplicate();
      case Apply => st := ExecApply(fuel);
      case Index => st := ExecIndex();
      case Define => st := ExecDefine();
    }

    /** `cpu.evaluate(body.value)` inside `c`, `e` and `!`. */
    method EvaluateNested(fuel: nat, body: Value) returns (st: Status)
      modifies this
      ensures Agrees(st, Nested(fuel, old(State()), body))
      decreases fuel, 0
    {
      if !body.Block? {
        return Failed(NotIterable);
      }
      if fuel == 0 {
        return Failed(OutOfFuel);
      }
      st := Evaluate(fuel - 1, body.items);
    }

    // -------------------------------------------------------------------
    // The builtins
    // -------------------------------------------------------------------

    /** `*`, `+`, `-`. */
    method ExecArith(b: Builtin) returns (st: Status)
      requires IsArithmetic(b)
      modifies this
      ensures Agrees(st, OpArith(old(State()), b))
    {
      var a := PopNumber();
      if a.Err? {
        return Failed(a.error);
      }
      var c := PopNumber();
      if c.Err? {
        return Failed(c.error);
      }
      Push(Val(Const(Num(Combine(b, a.value, c.value)))));
      st := Done;
    }

    /** `f` and `b`. */
    method ExecMove(forward: bool) returns (st: Status)
      modifies this
      ensures Agrees(st, OpMove(old(State()), forward))
    {
      var d := PopNumber();
      if d.Err? {
        return Failed(d.error);
      }
      if pen.down {
        strokes := strokes + [Stroke(forward, d.value)];
      }
      st := Done;
    }

    /** `r` and `l`. */
    method ExecRotate() returns (st: Status)
      modifies this
      ensures Agrees(st, OpRotate(old(State())))
    {
      var r := PopNumber();
      if r.Err? {
        return Failed(r.error);
      }
      st := Done;
    }

    /** `d`. */
    method ExecPenDown()
      modifies this
      ensures State() == OpPenDown(old(State()))
    {
      pen := pen.(down := true);
    }

    /** `u`. */
    method ExecPenUp()
      modifies this
      ensures State() == OpPenUp(old(State()))
    {
      pen := pen.(up := true);
    }

    /** `c`: a counting loop over `evaluate(block.value)`. */
    method ExecDoN(fuel: nat) returns (st: Status)
      modifies this
      ensures Agrees(st, OpDoN(fuel, old(State())))
      decreases fuel, 1
    {
      var block := Pop();
      if block.Err? {
        return Failed(block.error);
      }
      var count := PopNumber();
      if count.Err? {
        return Failed(count.error);
      }
      var n := Count(count.value);
      ghost var start := State();
      var i := 0;
      while i < n
        invariant 0 <= i <= n
        invariant RepeatLoop(fuel, start, block.value, n) == RepeatLoop(fuel, State(), block.value, n - i)
      {
        st := EvaluateNested(fuel, block.value);
        if st.Failed? {
          return;
        }
        i := i + 1;
      }
      st := Done;
    }

    /** `e`: `items.value.forEach`, pushing each item and evaluating the body. */
    method ExecEach(fuel: nat) returns (st: Status)
      modifies this
      ensures Agrees(st, OpEach(fuel, old(State())))
      decreases fuel, 1
    {
      var items := Pop();
      if items.Err? {
        return Failed(items.error);
      }
      var block := Pop();
      if block.Err? {
        return Failed(block.error);
      }
      if !items.value.Block? {
        return Failed(NotIterable);
      }
      var list := items.value.items;
      ghost var start := State();
      var k := 0;
      while k < |list|
        invariant 0 <= k <= |list|
        invariant EachLoop(fuel, start, block.value, list) == EachLoop(fuel, State(), block.value, list[k..])
      {
        assert list[k..][0] == list[k] && list[k..][1..] == list[k + 1..];
        Push(Val(list[k]));
        st := EvaluateNested(fuel, block.value);
        if st.Failed? {
          return;
        }
        k := k + 1;
      }
      st := Done;
    }

    /** `z`: a counting loop pushing pairs into a fresh array. */
    method ExecZip() returns (st: Status)
      modifies this
      ensures Agrees(st, OpZip(old(State())))
    {
      var second := Pop();
      if second.Err? {
        return Failed(second.error);
      }
      var first := Pop();
      if first.Err? {
        return Failed(first.error);
      }
      if !first.value.Block? || !second.value.Block? {
        return Failed(NotIterable);
      }
      var list1, list2 := first.value.items, second.value.items;
      var n := if |list1| < |list2| then |list1| else |list2|;
      var items := [];
      var i := 0;
      ghost var mid := State();
      while i < n
        invariant 0 <= i <= n
        invariant n <= |list1| && n <= |list2|
        invariant State() == mid
        invariant items == ZipPairs(list1[..i], list2[..i])
      {
        ZipPairsSnoc(list1[..i], list2[..i], list1[i], list2[i]);
        assert list1[..i + 1] == list1[..i] + [list1[i]];
        assert list2[..i + 1] == list2[..i] + [list2[i]];
        items := items + [Block([list1[i], list2[i]])];
        i := i + 1;
      }
      ZipPairsPrefix(list1, list2, n);
      Push(Val(Block(items)));
      st := Done;
    }

    /** `x`: `list.forEach(item => push(item))`. */
    method ExecExpand() returns (st: Status)
      modifies this
      ensures Agrees(st, OpExpand(old(State())))
    {
      var list := Pop();
      if list.Err? {
        return Failed(list.error);
      }
      if !list.value.Block? {
        return Failed(NotIterable);
      }
      var items := list.value.items;
      ghost var base := State();
      var k := 0;
      while k < |items|
        invariant 0 <= k <= |items|
        invariant State() == base.(stack := base.stack + Slots(items[..k]))
      {
        SlotsSnoc(items[..k], items[k]);
        assert items[..k + 1] == items[..k] + [items[k]];
        Push(Val(items[k]));
        k := k + 1;
      }
      assert items[..k] == items;
      st := Done;
    }

    /** `.`. */
    method ExecDuplicate() returns (st: Status)
      modifies this
      ensures Agrees(st, OpDuplicate(old(State())))
    {
      var x := Pop();
      if x.Err? {
        return Failed(x.error);
      }
      Push(Val(x.value));
      Push(Val(x.value));
      st := Done;
    }

    /** `!`. */
    method ExecApply(fuel: nat) returns (st: Status)
      modifies this
      ensures Agrees(st, OpApply(fuel, old(State())))
      decreases fuel, 1
    {
      var x := Pop();
      if x.Err? {
        return Failed(x.error);
      }
      var f := Pop();
      if f.Err? {
        return Failed(f.error);
      }
      Push(Val(x.value));
      match f.value
      case Func(b) =>
        if fuel == 0 {
          return Failed(OutOfFuel);
        }
        st := CallBuiltin(fuel - 1, b);
      case Block(_) =>
        st := EvaluateNested(fuel, f.value);
      case Const(_) =>
        st := Done;
    }

    /** `i`. */
    method ExecIndex() returns (st: Status)
      modifies this
      ensures Agrees(st, OpIndex(old(State())))
    {
      var i := PopNumber();
      if i.Err? {
        return Failed(i.error);
      }
      var xs := Pop();
      if xs.Err? {
        return Failed(xs.error);
      }
      var value := IndexOf(xs.value, i.value);
      if value.Some? {
        Push(value.value);
      }
      st := Done;
    }

    /** `:`. */
    method ExecDefine() returns (st: Status)
      modifies this
      ensures Agrees(st, OpDefine(old(State())))
    {
      var name := Pop();
      if name.Err? {
        return Failed(name.error);
      }
      var value := Pop();
      if value.Err? {
        return Failed(value.error);
      }
      dict := dict[KeyOf(name.value) := value.value];
      st := Done;
    }
  }

  lemma ZipPairsSnoc(xs: seq<Value>, ys: seq<Value>, x: Value, y: Value)
    requires |xs| == |ys|
    ensures ZipPairs(xs + [x], ys + [y]) == ZipPairs(xs, ys) + [Block([x, y])]
  {
    if xs != [] {
      assert (xs + [x])[1..] == xs[1..] + [x];
      assert (ys + [y])[1..] == ys[1..] + [y];
      ZipPairsSnoc(xs[1..], ys[1..], x, y);
    }
  }

  lemma ZipPairsPrefix(xs: seq<Value>, ys: seq<Value>, n: nat)
    requires n == if |xs| < |ys| then |xs| else |ys|
    ensures ZipPairs(xs, ys) == ZipPairs(xs[..n], ys[..n])
  {
    if n > 0 {
      assert xs[..n][1..] == xs[1..][..n - 1];
      assert ys[..n][1..] == ys[1..][..n - 1];
      ZipPairsPrefix(xs[1..], ys[1..], n - 1);
    }
  }

  lemma SlotsSnoc(items: seq<Value>, x: Value)
    ensures Slots(items + [x]) == Slots(items) + [Val(x)]
  {
    if items != [] {
      assert (items + [x])[1..] == items[1..] + [x];
      SlotsSnoc(items[1..], x);
    }
  }

  /** `executeInput` without the canvas calls: a fresh CPU evaluates the
      parsed program text. */
  method Execute(fuel: nat, code: string) returns (cpu: CPU, st: Status)
    ensures cpu.Agrees(st, Run(fuel, Tokenizer.ParseTree(code)))
  {
    cpu := new CPU();
    var tokens := Tokenizer.Parse(code);
    st := cpu.Evaluate(fuel, tokens);
  }
}
