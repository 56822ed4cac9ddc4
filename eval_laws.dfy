/** Properties of evaluation: sequencing, what `c`, `e` and `!` evaluate,
    what no evaluation can undo, and what the fuel bound does. */
module EvalLaws {
  import opened Values
  import opened Semantics
  import MachineLaws

  /** Continuing with `block` after an evaluation that may have failed. */
  function AndThen(fuel: nat, r: Result<Machine>, block: seq<Value>): Result<Machine> {
    match r
    case Ok(m) => Eval(fuel, m, block)
    case Err(e) => Err(e)
  }

  /** Evaluating two blocks one after the other is evaluating their
      concatenation; a failure in the first skips the second. */
  lemma {:induction false} EvalConcat(fuel: nat, m: Machine, a: seq<Value>, b: seq<Value>)
    ensures Eval(fuel, m, a + b) == AndThen(fuel, Eval(fuel, m, a), b)
    decreases |a|
  {
    if a == [] {
      assert a + b == b;
    } else {
      assert (a + b)[0] == a[0] && (a + b)[1..] == a[1..] + b;
      var r := EvalToken(fuel, m, a[0]);
      if r.Ok? {
        EvalConcat(fuel, r.value, a[1..], b);
      }
    }
  }

  // ---------------------------------------------------------------------
  // c (do-n)
  // ---------------------------------------------------------------------

  /** `k` copies of `items`, one after the other. */
  function Repeat(items: seq<Value>, k: nat): seq<Value> {
    if k == 0 then [] else items + Repeat(items, k - 1)
  }

  /** The loop of `c` evaluates the body `k` times in a row, which is one
      evaluation of `k` copies of it; when it does not run at all the body
      need not even be a block. */
  lemma {:induction false} RepeatLoopSpec(fuel: nat, m: Machine, body: Value, k: nat)
    ensures k == 0 ==> RepeatLoop(fuel, m, body, k) == Ok(m)
    ensures k > 0 && !body.Block? ==> RepeatLoop(fuel, m, body, k) == Err(NotIterable)
    ensures k > 0 && body.Block? && fuel == 0 ==> RepeatLoop(fuel, m, body, k) == Err(OutOfFuel)
    ensures body.Block? && fuel > 0 ==> RepeatLoop(fuel, m, body, k) == Eval(fuel - 1, m, Repeat(body.items, k))
    decreases k
  {
    if k > 0 && body.Block? && fuel > 0 {
      var first := Eval(fuel - 1, m, body.items);
      EvalConcat(fuel - 1, m, body.items, Repeat(body.items, k - 1));
      if first.Ok? {
        RepeatLoopSpec(fuel, first.value, body, k - 1);
      }
    }
  }

  /** `c` with stack `... n blk`: a count that is NaN or not positive runs
      the body zero times; a positive integer count `n` runs it exactly `n`
      times. */
  lemma DoNEffect(fuel: nat, m: Machine)
    requires MachineLaws.Operands(m, 2)
    ensures
      var body, n := MachineLaws.Operand(m, 1).value, ToNumber(MachineLaws.Operand(m, 2).value);
      var below := m.(stack := m.stack[..|m.stack| - 2]);
      && (n.NaN? || n.i <= 0 ==> OpDoN(fuel, m) == Ok(below))
      && (n.Int? && n.i > 0 && body.Block? && fuel > 0 ==>
            OpDoN(fuel, m) == Eval(fuel - 1, below, Repeat(body.items, n.i)))
  {
    MachineLaws.PopTwo(m);
    var body, n := MachineLaws.Operand(m, 1).value, ToNumber(MachineLaws.Operand(m, 2).value);
    var below := m.(stack := m.stack[..|m.stack| - 2]);
    RepeatLoopSpec(fuel, below, body, Count(n));
  }

  // ---------------------------------------------------------------------
  // e (each)
  // ---------------------------------------------------------------------

  /** Appending an item to the list of `e` adds one more push-and-evaluate
      step at the end. */
  lemma {:induction false} EachSnoc(fuel: nat, m: Machine, body: Value, items: seq<Value>, x: Value)
    ensures EachLoop(fuel, m, body, items + [x])
            == match EachLoop(fuel, m, body, items)
               case Ok(m') => Nested(fuel, Push(m', Val(x)), body)
               case Err(e) => Err(e)
    decreases |items|
  {
    if items == [] {
      assert items + [x] == [x];
      var r := Nested(fuel, Push(m, Val(x)), body);
      assert EachLoop(fuel, m, body, [x]) == (if r.Err? then r else EachLoop(fuel, r.value, body, []));
    } else {
      assert (items + [x])[0] == items[0] && (items + [x])[1..] == items[1..] + [x];
      var r := Nested(fuel, Push(m, Val(items[0])), body);
      if r.Ok? {
        EachSnoc(fuel, r.value, body, items[1..], x);
      }
    }
  }

  /** `e` with an empty body pushes the items in their order and nothing else. */
  lemma {:induction false} EachEmptyBody(fuel: nat, m: Machine, items: seq<Value>)
    requires fuel > 0
    ensures EachLoop(fuel, m, Block([]), items) == Ok(m.(stack := m.stack + Slots(items)))
    decreases |items|
  {
    if items == [] {
      assert m.stack + Slots(items) == m.stack;
    } else {
      var m1 := Push(m, Val(items[0]));
      assert Nested(fuel, m1, Block([])) == Ok(m1);
      EachEmptyBody(fuel, m1, items[1..]);
      assert m1.stack + Slots(items[1..]) == m.stack + Slots(items);
    }
  }

  /** `e` with stack `... blk items` runs its loop over the elements of
      `items` on what lies below; it fails unless `items` is a block. */
  lemma EachEffect(fuel: nat, m: Machine)
    requires MachineLaws.Operands(m, 2)
    ensures
      var items, body := MachineLaws.Operand(m, 1).value, MachineLaws.Operand(m, 2).value;
      var below := m.(stack := m.stack[..|m.stack| - 2]);
      && (!items.Block? ==> OpEach(fuel, m) == Err(NotIterable))
      && (items.Block? ==> OpEach(fuel, m) == EachLoop(fuel, below, body, items.items))
  {
    MachineLaws.PopTwo(m);
  }

  // ---------------------------------------------------------------------
  // ! (apply)
  // ---------------------------------------------------------------------

  /** `!` with stack `... f x` puts `x` back and then calls a func `f`,
      evaluates a block `f`, and drops a constant `f` without doing
      anything else. */
  lemma ApplyEffect(fuel: nat, m: Machine)
    requires MachineLaws.Operands(m, 2)
    ensures
      var x, f := MachineLaws.Operand(m, 1).value, MachineLaws.Operand(m, 2).value;
      var m' := m.(stack := m.stack[..|m.stack| - 2] + [Val(x)]);
      && (f.Const? ==> OpApply(fuel, m) == Ok(m'))
      && (f.Block? && fuel > 0 ==> OpApply(fuel, m) == Eval(fuel - 1, m', f.items))
      && (f.Func? && fuel > 0 ==> OpApply(fuel, m) == Call(fuel - 1, m', f.op))
      && (!f.Const? && fuel == 0 ==> OpApply(fuel, m) == Err(OutOfFuel))
  {
    MachineLaws.PopTwo(m);
  }

  // ---------------------------------------------------------------------
  // What evaluation never undoes
  // ---------------------------------------------------------------------

  /** No evaluation lifts the pen, erases a stroke or removes a binding:
      once `d` has run the pen stays down (`u` only sets an unused field),
      strokes are only ever appended, and the dictionary only gains keys. */
  predicate Grows(m: Machine, m': Machine) {
    && (m.pen.down ==> m'.pen.down)
    && m.strokes <= m'.strokes
    && m.dict.Keys <= m'.dict.Keys
  }

  lemma GrowsTrans(m1: Machine, m2: Machine, m3: Machine)
    requires Grows(m1, m2) && Grows(m2, m3)
    ensures Grows(m1, m3)
  {
  }

  lemma {:induction false} EvalGrows(fuel: nat, m: Machine, block: seq<Value>)
    ensures Eval(fuel, m, block).Ok? ==> Grows(m, Eval(fuel, m, block).value)
    decreases fuel, 4, |block|
  {
    if block != [] {
      var r := EvalToken(fuel, m, block[0]);
      EvalTokenGrows(fuel, m, block[0]);
      if r.Ok? {
        EvalGrows(fuel, r.value, block[1..]);
        if Eval(fuel, r.value, block[1..]).Ok? {
          GrowsTrans(m, r.value, Eval(fuel, r.value, block[1..]).value);
        }
      }
    }
  }

  lemma {:induction false} EvalTokenGrows(fuel: nat, m: Machine, token: Value)
    ensures EvalToken(fuel, m, token).Ok? ==> Grows(m, EvalToken(fuel, m, token).value)
    decreases fuel, 3, 0
  {
    var v := Resolve(m.dict, token);
    if v.Ok? && v.value.Func? {
      CallGrows(fuel, m, v.value.op);
    }
  }

  /** The two pops most builtins begin with leave all but the stack alone. */
  lemma PopsKeep(m: Machine)
    ensures Pop(m).Ok? ==> MachineLaws.SameOutside(m, Pop(m).value.rest)
    ensures PopNumber(m).Ok? ==> MachineLaws.SameOutside(m, PopNumber(m).value.rest)
  {
    MachineLaws.PopEffect(m);
  }

  lemma {:induction false} CallGrows(fuel: nat, m: Machine, b: Builtin)
    ensures Call(fuel, m, b).Ok? ==> Grows(m, Call(fuel, m, b).value)
    decreases fuel, 2, 0
  {
    match b
    case DoN => DoNGrows(fuel, m);
    case Each => EachGrows(fuel, m);
    case Apply => ApplyGrows(fuel, m);
    case Mul => ArithGrows(m, b);
    case Sum => ArithGrows(m, b);
    case Subtract => ArithGrows(m, b);
    case Back => PopsKeep(m);
    case Forward => PopsKeep(m);
    case RotateCw => PopsKeep(m);
    case RotateCcw => PopsKeep(m);
    case PenDown =>
    case PenUp =>
    case Zip => PopTwoKeep(m);
    case Expand => PopsKeep(m);
    case Duplicate => PopsKeep(m);
    case Index => IndexGrows(m);
    case Define => DefineGrows(m);
  }

  lemma PopTwoKeep(m: Machine)
    ensures Pop(m).Ok? && Pop(Pop(m).value.rest).Ok? ==>
      MachineLaws.SameOutside(m, Pop(Pop(m).value.rest).value.rest)
  {
    PopsKeep(m);
    if Pop(m).Ok? {
      PopsKeep(Pop(m).value.rest);
    }
  }

  lemma ArithGrows(m: Machine, b: Builtin)
    requires IsArithmetic(b)
    ensures OpArith(m, b).Ok? ==> Grows(m, OpArith(m, b).value)
  {
    PopsKeep(m);
    if PopNumber(m).Ok? {
      PopsKeep(PopNumber(m).value.rest);
    }
  }

  lemma IndexGrows(m: Machine)
    ensures OpIndex(m).Ok? ==> Grows(m, OpIndex(m).value)
  {
    PopsKeep(m);
    if PopNumber(m).Ok? {
      PopsKeep(PopNumber(m).value.rest);
    }
  }

  lemma DefineGrows(m: Machine)
    ensures OpDefine(m).Ok? ==> Grows(m, OpDefine(m).value)
  {
    PopTwoKeep(m);
  }

  lemma {:induction false} NestedGrows(fuel: nat, m: Machine, body: Value)
    ensures Nested(fuel, m, body).Ok? ==> Grows(m, Nested(fuel, m, body).value)
    decreases fuel, 0, 0
  {
    if body.Block? && fuel > 0 {
      EvalGrows(fuel - 1, m, body.items);
    }
  }

  lemma {:induction false} DoNGrows(fuel: nat, m: Machine)
    ensures OpDoN(fuel, m).Ok? ==> Grows(m, OpDoN(fuel, m).value)
    decreases fuel, 1, 0
  {
    PopsKeep(m);
    var body := Pop(m);
    if body.Ok? {
      var count := PopNumber(body.value.rest);
      PopsKeep(body.value.rest);
      if count.Ok? {
        RepeatGrows(fuel, count.value.rest, body.value.value, Count(count.value.value));
      }
    }
  }

  lemma {:induction false} RepeatGrows(fuel: nat, m: Machine, body: Value, k: nat)
    ensures RepeatLoop(fuel, m, body, k).Ok? ==> Grows(m, RepeatLoop(fuel, m, body, k).value)
    decreases fuel, 0, k
  {
    if k > 0 {
      var r := Nested(fuel, m, body);
      NestedGrows(fuel, m, body);
      if r.Ok? {
        RepeatGrows(fuel, r.value, body, k - 1);
        if RepeatLoop(fuel, r.value, body, k - 1).Ok? {
          GrowsTrans(m, r.value, RepeatLoop(fuel, r.value, body, k - 1).value);
        }
      }
    }
  }

  lemma {:induction false} EachGrows(fuel: nat, m: Machine)
    ensures OpEach(fuel, m).Ok? ==> Grows(m, OpEach(fuel, m).value)
    decreases fuel, 1, 0
  {
    PopTwoKeep(m);
    var items := Pop(m);
    if items.Ok? {
      var body := Pop(items.value.rest);
      if body.Ok? && items.value.value.Block? {
        EachLoopGrows(fuel, body.value.rest, body.value.value, items.value.value.items);
      }
    }
  }

  lemma {:induction false} EachLoopGrows(fuel: nat, m: Machine, body: Value, items: seq<Value>)
    ensures EachLoop(fuel, m, body, items).Ok? ==> Grows(m, EachLoop(fuel, m, body, items).value)
    decreases fuel, 0, |items|
  {
    if items != [] {
      var m1 := Push(m, Val(items[0]));
      var r := Nested(fuel, m1, body);
      NestedGrows(fuel, m1, body);
      if r.Ok? {
        EachLoopGrows(fuel, r.value, body, items[1..]);
        if EachLoop(fuel, r.value, body, items[1..]).Ok? {
          GrowsTrans(m, r.value, EachLoop(fuel, r.value, body, items[1..]).value);
        }
      }
    }
  }

  lemma {:induction false} ApplyGrows(fuel: nat, m: Machine)
    ensures OpApply(fuel, m).Ok? ==> Grows(m, OpApply(fuel, m).value)
    decreases fuel, 1, 0
  {
    PopTwoKeep(m);
    var x := Pop(m);
    if x.Ok? {
      var f := Pop(x.value.rest);
      if f.Ok? {
        var m' := Push(f.value.rest, Val(x.value.value));
        match f.value.value
        case Func(b) =>
          if fuel > 0 {
            CallGrows(fuel - 1, m', b);
          }
        case Block(_) => NestedGrows(fuel, m', f.value.value);
        case Const(_) =>
      }
    }
  }

  /** Once the pen is down, a whole run of a program keeps it down. */
  lemma PenStaysDown(fuel: nat, m: Machine, block: seq<Value>)
    requires m.pen.down && Eval(fuel, m, block).Ok?
    ensures Eval(fuel, m, block).value.pen.down
  {
    EvalGrows(fuel, m, block);
  }

  // ---------------------------------------------------------------------
  // The fuel bound
  // ---------------------------------------------------------------------

  /** An outcome that the fuel bound did not cut short. */
  predicate Settled<T>(r: Result<T>) {
    r != Err(OutOfFuel)
  }

  /** Fuel only truncates: an evaluation that did not run out of fuel has
      the same outcome, success or error, with more fuel. */
  lemma {:induction false} EvalMoreFuel(fuel: nat, m: Machine, block: seq<Value>)
    requires Settled(Eval(fuel, m, block))
    ensures Eval(fuel + 1, m, block) == Eval(fuel, m, block)
    decreases fuel, 4, |block|
  {
    if block != [] {
      var r := EvalToken(fuel, m, block[0]);
      EvalTokenMoreFuel(fuel, m, block[0]);
      if r.Ok? {
        EvalMoreFuel(fuel, r.value, block[1..]);
      }
    }
  }

  lemma {:induction false} EvalTokenMoreFuel(fuel: nat, m: Machine, token: Value)
    requires Settled(EvalToken(fuel, m, token))
    ensures EvalToken(fuel + 1, m, token) == EvalToken(fuel, m, token)
    decreases fuel, 3, 0
  {
    var v := Resolve(m.dict, token);
    if v.Ok? && v.value.Func? {
      CallMoreFuel(fuel, m, v.value.op);
    }
  }

  lemma {:induction false} CallMoreFuel(fuel: nat, m: Machine, b: Builtin)
    requires Settled(Call(fuel, m, b))
    ensures Call(fuel + 1, m, b) == Call(fuel, m, b)
    decreases fuel, 2, 0
  {
    match b
    case DoN => DoNMoreFuel(fuel, m);
    case Each => EachMoreFuel(fuel, m);
    case Apply => ApplyMoreFuel(fuel, m);
    case _ =>
  }

  lemma {:induction false} NestedMoreFuel(fuel: nat, m: Machine, body: Value)
    requires Settled(Nested(fuel, m, body))
    ensures Nested(fuel + 1, m, body) == Nested(fuel, m, body)
    decreases fuel, 0, 0
  {
    if body.Block? && fuel > 0 {
      EvalMoreFuel(fuel - 1, m, body.items);
    }
  }

  lemma {:induction false} DoNMoreFuel(fuel: nat, m: Machine)
    requires Settled(OpDoN(fuel, m))
    ensures OpDoN(fuel + 1, m) == OpDoN(fuel, m)
    decreases fuel, 1, 0
  {
    var body := Pop(m);
    if body.Ok? {
      var count := PopNumber(body.value.rest);
      if count.Ok? {
        RepeatMoreFuel(fuel, count.value.rest, body.value.value, Count(count.value.value));
      }
    }
  }

  lemma {:induction false} RepeatMoreFuel(fuel: nat, m: Machine, body: Value, k: nat)
    requires Settled(RepeatLoop(fuel, m, body, k))
    ensures RepeatLoop(fuel + 1, m, body, k) == RepeatLoop(fuel, m, body, k)
    decreases fuel, 0, k
  {
    if k > 0 {
      var r := Nested(fuel, m, body);
      NestedMoreFuel(fuel, m, body);
      if r.Ok? {
        RepeatMoreFuel(fuel, r.value, body, k - 1);
      }
    }
  }

  lemma {:induction false} EachMoreFuel(fuel: nat, m: Machine)
    requires Settled(OpEach(fuel, m))
    ensures OpEach(fuel + 1, m) == OpEach(fuel, m)
    decreases fuel, 1, 0
  {
    var items := Pop(m);
    if items.Ok? {
      var body := Pop(items.value.rest);
      if body.Ok? && items.value.value.Block? {
        EachLoopMoreFuel(fuel, body.value.rest, body.value.value, items.value.value.items);
      }
    }
  }

  lemma {:induction false} EachLoopMoreFuel(fuel: nat, m: Machine, body: Value, items: seq<Value>)
    requires Settled(EachLoop(fuel, m, body, items))
    ensures EachLoop(fuel + 1, m, body, items) == EachLoop(fuel, m, body, items)
    decreases fuel, 0, |items|
  {
    if items != [] {
      var m1 := Push(m, Val(items[0]));
      var r := Nested(fuel, m1, body);
      NestedMoreFuel(fuel, m1, body);
      if r.Ok? {
        EachLoopMoreFuel(fuel, r.value, body, items[1..]);
      }
    }
  }

  lemma {:induction false} ApplyMoreFuel(fuel: nat, m: Machine)
    requires Settled(OpApply(fuel, m))
    ensures OpApply(fuel + 1, m) == OpApply(fuel, m)
    decreases fuel, 1, 0
  {
    var x := Pop(m);
    if x.Ok? {
      var f := Pop(x.value.rest);
      if f.Ok? {
        var m' := Push(f.value.rest, Val(x.value.value));
        match f.value.value
        case Func(b) =>
          if fuel > 0 {
            CallMoreFuel(fuel - 1, m', b);
          }
        case Block(_) => NestedMoreFuel(fuel, m', f.value.value);
        case Const(_) =>
      }
    }
  }

  /** Any amount of fuel beyond what an evaluation needed gives the same
      outcome, so a run that did not report OutOfFuel is the run of the
      unbounded program. */
  lemma {:induction false} EvalEnoughFuel(fuel: nat, more: nat, m: Machine, block: seq<Value>)
    requires fuel <= more && Settled(Eval(fuel, m, block))
    ensures Eval(more, m, block) == Eval(fuel, m, block)
    decreases more - fuel
  {
    if fuel < more {
      EvalMoreFuel(fuel, m, block);
      EvalEnoughFuel(fuel + 1, more, m, block);
    }
  }
}
