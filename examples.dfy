/** Small programs worked through by hand. Each lemma takes its token list
    or program as a parameter fixed by its precondition. */
module Examples {
  import opened Values
  import opened Tokenizer
  import opened Semantics
  import TokenizerLaws
  import EvalLaws

  // ---------------------------------------------------------------------
  // Parsing
  // ---------------------------------------------------------------------

  /** The tokens of `[ 1 2 ]` parse to one block holding the constants
      "1" and "2". */
  lemma ParseFlatBlock(raw: seq<string>)
    requires raw == ["[", "1", "2", "]"]
    ensures ParseFrom(raw, 0).tokens == [Block([Const(Text("1")), Const(Text("2"))])]
  {
    var c1, c2 := Const(Text("1")), Const(Text("2"));
    TokenizerLaws.ParseCloseStep(raw, 3);
    TokenizerLaws.ParseConstStep(raw, 2);
    TokenizerLaws.ParseConstStep(raw, 1);
    assert ParseFrom(raw, 1) == Parsed([c1, c2], 4);
    TokenizerLaws.ParseOpenStep(raw, 0);
    TokenizerLaws.ParseEndStep(raw, [Block([c1, c2])]);
  }

  /** The tokens of `1 [ 2 [ 3 ] ]` parse to a constant followed by a block
      whose second element is a nested block. */
  lemma ParseNestedBlock(raw: seq<string>)
    requires raw == ["1", "[", "2", "[", "3", "]", "]"]
    ensures ParseFrom(raw, 0).tokens
            == [Const(Text("1")), Block([Const(Text("2")), Block([Const(Text("3"))])])]
  {
    var c1, c2, c3 := Const(Text("1")), Const(Text("2")), Const(Text("3"));
    TokenizerLaws.ParseCloseStep(raw, 6);
    TokenizerLaws.ParseCloseStep(raw, 5);
    TokenizerLaws.ParseConstStep(raw, 4);
    assert ParseFrom(raw, 4) == Parsed([c3], 6);
    TokenizerLaws.ParseOpenStep(raw, 3);
    assert ParseFrom(raw, 3) == Parsed([Block([c3])], 7);
    TokenizerLaws.ParseConstStep(raw, 2);
    assert ParseFrom(raw, 2) == Parsed([c2, Block([c3])], 7);
    TokenizerLaws.ParseOpenStep(raw, 1);
    TokenizerLaws.ParseEndStep(raw, [Block([c2, Block([c3])])]);
    TokenizerLaws.ParseConstStep(raw, 0);
  }

  /** The builtin `+` is parsed to a func, and so is every builtin name. */
  lemma ParseBuiltin(raw: seq<string>)
    requires raw == ["2", "+"]
    ensures ParseFrom(raw, 0).tokens == [Const(Text("2")), Func(Sum)]
  {
    TokenizerLaws.ParseFuncStep(raw, 1, Sum);
    TokenizerLaws.ParseEndStep(raw, [Func(Sum)]);
    TokenizerLaws.ParseConstStep(raw, 0);
  }

  // ---------------------------------------------------------------------
  // Evaluation, one token at a time
  // ---------------------------------------------------------------------

  lemma EvalCons(fuel: nat, m: Machine, block: seq<Value>)
    requires block != []
    ensures Eval(fuel, m, block)
            == match EvalToken(fuel, m, block[0])
               case Err(e) => Err(e)
               case Ok(m') => Eval(fuel, m', block[1..])
  {
  }

  lemma PushConst(fuel: nat, m: Machine, s: string)
    requires !IsBuiltinName(s) && StringKey(s) !in m.dict
    ensures EvalToken(fuel, m, Const(Text(s))) == Ok(Push(m, Val(Const(Text(s)))))
  {
  }

  lemma ParseDigit(c: char)
    requires IsDigit(c)
    ensures ParseFloat([c]) == Int(DigitValue(c))
  {
    assert [c][1..] == [] && [c][..0] == [];
    assert LeadingDigits([c]) == [c];
    assert DigitsValue([c]) == DigitValue(c);
  }

  /** `5 3 -` leaves -2: the first number popped is the minuend. */
  lemma SubtractExample(fuel: nat, program: seq<Value>)
    requires program == [Const(Text("5")), Const(Text("3")), Func(Subtract)]
    ensures Run(fuel, program) == Ok(Initial.(stack := [Val(Const(Num(Int(-2))))]))
  {
    var m0 := Initial;
    var m1 := Push(m0, Val(Const(Text("5"))));
    var m2 := Push(m1, Val(Const(Text("3"))));
    EvalCons(fuel, m0, program);
    PushConst(fuel, m0, "5");
    EvalCons(fuel, m1, program[1..]);
    PushConst(fuel, m1, "3");
    EvalCons(fuel, m2, program[2..]);
    assert program[3..] == [];
    ParseDigit('5');
    ParseDigit('3');
    assert "5" == ['5'] && "3" == ['3'];
    assert PopNumber(m2) == Ok(Taken(Int(3), m1));
    assert PopNumber(m1) == Ok(Taken(Int(5), m0));
    assert OpArith(m2, Subtract) == Ok(Push(m0, Val(Const(Num(Int(-2))))));
    assert Call(fuel, m2, Subtract) == OpArith(m2, Subtract);
    assert Push(m0, Val(Const(Num(Int(-2))))) == Initial.(stack := [Val(Const(Num(Int(-2))))]);
    assert EvalToken(fuel, m2, Func(Subtract)) == Call(fuel, m2, Subtract);
  }

  /** `+` on an empty stack fails: `pop` finds nothing to take. */
  lemma UnderflowExample(fuel: nat, program: seq<Value>)
    requires program == [Func(Sum)]
    ensures Run(fuel, program) == Err(StackUnderflow)
  {
    EvalCons(fuel, Initial, program);
    assert EvalToken(fuel, Initial, Func(Sum)) == Call(fuel, Initial, Sum);
    assert Call(fuel, Initial, Sum) == OpArith(Initial, Sum);
  }

  /** `7 a : a` binds "a" to the constant "7", so the second `a` pushes "7". */
  lemma DefineExample(fuel: nat, program: seq<Value>)
    requires program == [Const(Text("7")), Const(Text("a")), Func(Define), Const(Text("a"))]
    ensures Run(fuel, program)
            == Ok(Initial.(stack := [Val(Const(Text("7")))],
                           dict := map[StringKey("a") := Const(Text("7"))]))
  {
    var m0 := Initial;
    var m1 := Push(m0, Val(Const(Text("7"))));
    var m2 := Push(m1, Val(Const(Text("a"))));
    var m3 := m0.(dict := map[StringKey("a") := Const(Text("7"))]);
    EvalCons(fuel, m0, program);
    PushConst(fuel, m0, "7");
    EvalCons(fuel, m1, program[1..]);
    PushConst(fuel, m1, "a");
    EvalCons(fuel, m2, program[2..]);
    assert Pop(m2) == Ok(Taken(Const(Text("a")), m1));
    assert Pop(m1) == Ok(Taken(Const(Text("7")), m0));
    assert EvalToken(fuel, m2, Func(Define)) == Call(fuel, m2, Define);
    assert Call(fuel, m2, Define) == Ok(m3);
    EvalCons(fuel, m3, program[3..]);
    assert program[4..] == [];
    assert Resolve(m3.dict, Const(Text("a"))) == Ok(Const(Text("7")));
    assert Push(m3, Val(Const(Text("7")))) == m3.(stack := [Val(Const(Text("7")))]);
  }

  /** `d 5 f` draws one forward stroke of length 5. */
  lemma PenDownExample(fuel: nat, program: seq<Value>)
    requires program == [Func(PenDown), Const(Text("5")), Func(Forward)]
    ensures Run(fuel, program)
            == Ok(Initial.(pen := Pen(true, false), strokes := [Stroke(true, Int(5))]))
  {
    var m1 := Initial.(pen := Pen(true, false));
    var m2 := Push(m1, Val(Const(Text("5"))));
    EvalCons(fuel, Initial, program);
    assert EvalToken(fuel, Initial, Func(PenDown)) == Call(fuel, Initial, PenDown);
    assert Call(fuel, Initial, PenDown) == Ok(m1);
    EvalCons(fuel, m1, program[1..]);
    PushConst(fuel, m1, "5");
    EvalCons(fuel, m2, program[2..]);
    assert program[3..] == [];
    ParseDigit('5');
    assert "5" == ['5'];
    assert PopNumber(m2) == Ok(Taken(Int(5), m1));
    assert EvalToken(fuel, m2, Func(Forward)) == Call(fuel, m2, Forward);
    assert Call(fuel, m2, Forward) == OpMove(m2, true);
    assert m1.strokes + [Stroke(true, Int(5))] == [Stroke(true, Int(5))];
  }

  /** `5 f` with the pen never put down draws nothing. */
  lemma PenUpExample(fuel: nat, program: seq<Value>)
    requires program == [Const(Text("5")), Func(Forward)]
    ensures Run(fuel, program) == Ok(Initial)
  {
    var m1 := Push(Initial, Val(Const(Text("5"))));
    EvalCons(fuel, Initial, program);
    PushConst(fuel, Initial, "5");
    EvalCons(fuel, m1, program[1..]);
    assert program[2..] == [];
    ParseDigit('5');
    assert "5" == ['5'];
    assert PopNumber(m1) == Ok(Taken(Int(5), Initial));
    assert EvalToken(fuel, m1, Func(Forward)) == Call(fuel, m1, Forward);
    assert Call(fuel, m1, Forward) == OpMove(m1, true);
  }

  /** `[ ] [ 1 2 ] e` pushes 1 and 2: the block on top is the list of
      items and the one below it is the body. */
  lemma EachExample(fuel: nat, program: seq<Value>)
    requires fuel > 0
    requires program == [Block([]), Block([Const(Text("1")), Const(Text("2"))]), Func(Each)]
    ensures Run(fuel, program)
            == Ok(Initial.(stack := [Val(Const(Text("1"))), Val(Const(Text("2")))]))
  {
    var items := [Const(Text("1")), Const(Text("2"))];
    var m1 := Push(Initial, Val(Block([])));
    var m2 := Push(m1, Val(Block(items)));
    EvalCons(fuel, Initial, program);
    EvalCons(fuel, m1, program[1..]);
    EvalCons(fuel, m2, program[2..]);
    assert program[3..] == [];
    assert Pop(m2) == Ok(Taken(Block(items), m1));
    assert Pop(m1) == Ok(Taken(Block([]), Initial));
    assert EvalToken(fuel, m2, Func(Each)) == Call(fuel, m2, Each);
    assert Call(fuel, m2, Each) == EachLoop(fuel, Initial, Block([]), items);
    EvalLaws.EachEmptyBody(fuel, Initial, items);
    assert Slots(items) == [Val(items[0])] + Slots(items[1..]);
    assert Slots(items[1..]) == [Val(items[1])] + Slots(items[2..]);
    assert items[2..] == [];
    assert Initial.stack + Slots(items) == [Val(Const(Text("1"))), Val(Const(Text("2")))];
  }

  /** `[ 1 2 ] [ ] e` pushes nothing: its list of items is the empty block. */
  lemma EachSwappedExample(fuel: nat, program: seq<Value>)
    requires program == [Block([Const(Text("1")), Const(Text("2"))]), Block([]), Func(Each)]
    ensures Run(fuel, program) == Ok(Initial)
  {
    var body := Block([Const(Text("1")), Const(Text("2"))]);
    var m1 := Push(Initial, Val(body));
    var m2 := Push(m1, Val(Block([])));
    EvalCons(fuel, Initial, program);
    EvalCons(fuel, m1, program[1..]);
    EvalCons(fuel, m2, program[2..]);
    assert program[3..] == [];
    assert Pop(m2) == Ok(Taken(Block([]), m1));
    assert Pop(m1) == Ok(Taken(body, Initial));
    assert EvalToken(fuel, m2, Func(Each)) == Call(fuel, m2, Each);
    assert Call(fuel, m2, Each) == EachLoop(fuel, Initial, body, []);
  }
}
