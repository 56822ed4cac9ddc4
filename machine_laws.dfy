/** Stack effects of `pop` and of the builtins that do not evaluate
    anything: what each one requires of the stack, what it leaves there,
    and that it touches nothing else. */
module MachineLaws {
  import opened Values
  import opened Semantics
  import NumberLaws

  /** The slot `k` places from the top (1 is the top), as `pop` would
      return it once everything above it has been popped. */
  function Operand(m: Machine, k: nat): Result<Value>
    requires 1 <= k <= |m.stack|
  {
    var s := m.stack[|m.stack| - k];
    if s.Undefined? then Err(UndefinedOperand) else Resolve(m.dict, s.v)
  }

  /** The top `n` slots are defined and resolve without error. */
  predicate Operands(m: Machine, n: nat) {
    n <= |m.stack| && forall k :: 1 <= k <= n ==> Operand(m, k).Ok?
  }

  /** Everything but the stack is as in `m`. */
  predicate SameOutside(m: Machine, m': Machine) {
    m'.dict == m.dict && m'.pen == m.pen && m'.strokes == m.strokes
  }

  // ---------------------------------------------------------------------
  // resolveConstant
  // ---------------------------------------------------------------------

  /** Resolution takes at most one step: a bound constant resolves to the
      binding of its own key, never a binding of that, and an unbound one
      to itself. */
  lemma ResolveOneStep(dict: map<Key, Value>, v: Value)
    ensures Resolve(dict, v).Ok? ==>
      Resolve(dict, v).value == v || (v.Const? && KeyOf(v) in dict && Resolve(dict, v).value == dict[KeyOf(v)])
    ensures !v.Const? ==> Resolve(dict, v) == Ok(v)
    ensures v.Const? && !IsBuiltinName(AtomString(v.a)) ==>
      Resolve(dict, v) == Ok(if KeyOf(v) in dict then dict[KeyOf(v)] else v)
    ensures Resolve(dict, v).Err? <==> v.Const? && IsBuiltinName(AtomString(v.a))
  {
  }

  /** A name bound to another bound name resolves to the second name, not
      to what that one is bound to. */
  lemma ResolveNotTransitive()
    ensures
      var a, b, c := Const(Text("a")), Const(Text("y")), Const(Text("z"));
      var dict := map[StringKey("a") := b, StringKey("y") := c];
      Resolve(dict, a) == Ok(b)
  {
    assert !IsBuiltinName("a");
  }

  /** The constant `"-"`, which `i` can produce, cannot be resolved. */
  lemma ResolveBuiltinName(dict: map<Key, Value>)
    ensures Resolve(dict, Const(Text("-"))) == Err(BuiltinNameConstant)
  {
    assert BuiltinOf("-") == Some(Subtract);
  }

  // ---------------------------------------------------------------------
  // pop and popNumber
  // ---------------------------------------------------------------------

  /** `pop` succeeds exactly when the top slot is defined and resolves; it
      then removes that slot and changes nothing else. */
  lemma PopEffect(m: Machine)
    ensures m.stack == [] ==> Pop(m) == Err(StackUnderflow)
    ensures m.stack != [] && m.stack[|m.stack| - 1].Undefined? ==> Pop(m) == Err(UndefinedOperand)
    ensures Pop(m).Ok? <==> Operands(m, 1)
    ensures Pop(m).Ok? ==>
      && Pop(m).value.value == Operand(m, 1).value
      && Pop(m).value.rest.stack == m.stack[..|m.stack| - 1]
      && SameOutside(m, Pop(m).value.rest)
  {
    if Operands(m, 1) {
      assert Operand(m, 1).Ok?;
    }
  }

  /** Popping after a pop reads the next slot down. */
  lemma PopSecond(m: Machine)
    requires Pop(m).Ok? && 2 <= |m.stack|
    ensures Pop(Pop(m).value.rest).Ok? <==> Operand(m, 2).Ok?
    ensures Pop(Pop(m).value.rest).Ok? ==>
      && Pop(Pop(m).value.rest).value.value == Operand(m, 2).value
      && Pop(Pop(m).value.rest).value.rest.stack == m.stack[..|m.stack| - 2]
      && SameOutside(m, Pop(Pop(m).value.rest).value.rest)
  {
    PopEffect(m);
    var r := Pop(m).value.rest;
    PopEffect(r);
    assert r.stack[|r.stack| - 1] == m.stack[|m.stack| - 2];
    assert r.stack[..|r.stack| - 1] == m.stack[..|m.stack| - 2];
    if Pop(r).Ok? {
      assert Operand(r, 1).Ok?;
    }
  }

  lemma OperandsTwo(m: Machine)
    requires 2 <= |m.stack| && Operand(m, 1).Ok? && Operand(m, 2).Ok?
    ensures Operands(m, 2)
  {
    forall k | 1 <= k <= 2 ensures Operand(m, k).Ok? {
      assert k == 1 || k == 2;
    }
  }

  /** Two pops succeed exactly when the top two slots are defined and resolve. */
  lemma PopTwo(m: Machine)
    ensures (Pop(m).Ok? && Pop(Pop(m).value.rest).Ok?) <==> Operands(m, 2)
    ensures Operands(m, 2) ==>
      && Pop(m).value.value == Operand(m, 1).value
      && Pop(Pop(m).value.rest).value.value == Operand(m, 2).value
      && Pop(Pop(m).value.rest).value.rest.stack == m.stack[..|m.stack| - 2]
      && SameOutside(m, Pop(Pop(m).value.rest).value.rest)
  {
    PopEffect(m);
    if Pop(m).Ok? && 2 <= |m.stack| {
      PopSecond(m);
    }
    if Pop(m).Ok? && |m.stack| < 2 {
      assert Pop(m).value.rest.stack == [];
    }
    if Operands(m, 2) {
      assert Operand(m, 1).Ok? && Operand(m, 2).Ok?;
    }
    if Pop(m).Ok? && Pop(Pop(m).value.rest).Ok? {
      OperandsTwo(m);
    }
  }

  /** `popNumber` keeps a numeric constant's number and reads every other
      value's text with `parseFloat`; in particular it reads back a number
      that arithmetic pushed, even one turned into text. */
  lemma ToNumberText(n: Number)
    ensures ToNumber(Const(Num(n))) == n
    ensures ToNumber(Const(Text(NumberToString(n)))) == n
    ensures forall items: seq<Value> :: ToNumber(Block(items)) == ParseFloat(ArrayString(|items|))
  {
    NumberLaws.ParseFloatOfString(n);
  }

  /** A block is read as NaN by `popNumber`. */
  lemma {:induction false} BlockIsNaN(n: nat)
    ensures ParseFloat(ArrayString(n)) == NaN
  {
    if n > 1 {
      BlockIsNaN(n - 1);
      var s := ArrayString(n - 1);
      assert s != [];
      assert (s + ",[object Object]")[0] == s[0];
      assert LeadingDigits(s) == [] by {
        assert s[0] == '[' by { ArrayStringStart(n - 1); }
      }
      assert LeadingDigits(s + ",[object Object]") == [];
    } else if n == 1 {
      assert LeadingDigits("[object Object]") == [];
    }
  }

  lemma {:induction false} ArrayStringStart(n: nat)
    requires n >= 1
    ensures |ArrayString(n)| > 0 && ArrayString(n)[0] == '['
  {
    if n > 1 {
      ArrayStringStart(n - 1);
    }
  }

  // ---------------------------------------------------------------------
  // * + -
  // ---------------------------------------------------------------------

  /** `* + -` succeed exactly when the top two slots are operands; they
      then replace both by one numeric constant computed from the
      first-popped (top) and second-popped numbers, and nothing else
      changes. */
  lemma ArithEffect(m: Machine, b: Builtin)
    requires IsArithmetic(b)
    ensures OpArith(m, b).Ok? <==> Operands(m, 2)
    ensures Operands(m, 2) ==>
      && |OpArith(m, b).value.stack| == |m.stack| - 1
      && OpArith(m, b).value.stack
         == m.stack[..|m.stack| - 2]
            + [Val(Const(Num(Combine(b, ToNumber(Operand(m, 1).value), ToNumber(Operand(m, 2).value)))))]
      && SameOutside(m, OpArith(m, b).value)
  {
    PopTwo(m);
  }

  /** `-` subtracts the second entry from the top one: `5 3 -` leaves -2. */
  lemma SubtractOrder(m: Machine)
    requires StringKey("5") !in m.dict && StringKey("3") !in m.dict
    ensures
      var five, three := Val(Const(Text("5"))), Val(Const(Text("3")));
      OpArith(m.(stack := m.stack + [five, three]), Subtract)
      == Ok(m.(stack := m.stack + [Val(Const(Num(Int(-2))))]))
  {
    var five, three := Val(Const(Text("5"))), Val(Const(Text("3")));
    var m' := m.(stack := m.stack + [five, three]);
    assert LeadingDigits("5") == "5" && LeadingDigits("3") == "3";
    assert !IsBuiltinName("5") && !IsBuiltinName("3");
    assert Operand(m', 1) == Ok(Const(Text("3")));
    assert Operand(m', 2) == Ok(Const(Text("5")));
    ArithEffect(m', Subtract);
    assert m'.stack[..|m'.stack| - 2] == m.stack;
  }

  // ---------------------------------------------------------------------
  // b f r l d u
  // ---------------------------------------------------------------------

  /** `f` and `b` pop one number and draw a stroke of that length exactly
      when the pen is down; `r` and `l` only pop their number. */
  lemma MoveEffect(m: Machine, forward: bool)
    ensures OpMove(m, forward).Ok? <==> Operands(m, 1)
    ensures OpRotate(m).Ok? <==> Operands(m, 1)
    ensures Operands(m, 1) ==>
      var d := ToNumber(Operand(m, 1).value);
      var r := OpMove(m, forward).value;
      && r.stack == m.stack[..|m.stack| - 1]
      && r.dict == m.dict && r.pen == m.pen
      && r.strokes == m.strokes + (if m.pen.down then [Stroke(forward, d)] else [])
      && OpRotate(m).value.stack == m.stack[..|m.stack| - 1]
      && SameOutside(m, OpRotate(m).value)
  {
    PopEffect(m);
  }

  /** `u` never lifts the pen: after `d`, any number of `u` leave it down. */
  lemma PenUpKeepsDown(m: Machine)
    ensures OpPenUp(OpPenDown(m)).pen.down
    ensures OpPenDown(OpPenUp(m)).pen.down
    ensures OpPenUp(m).pen.down == m.pen.down
    ensures OpPenUp(m).stack == m.stack && OpPenDown(m).stack == m.stack
  {
  }

  // ---------------------------------------------------------------------
  // z x . i :
  // ---------------------------------------------------------------------

  /** The pairs of `z`: as many as the shorter list has elements, the k-th
      holding the k-th element of each list. */
  lemma {:induction false} ZipPairsSpec(xs: seq<Value>, ys: seq<Value>)
    ensures |ZipPairs(xs, ys)| == if |xs| < |ys| then |xs| else |ys|
    ensures forall k :: 0 <= k < |ZipPairs(xs, ys)| ==> ZipPairs(xs, ys)[k] == Block([xs[k], ys[k]])
  {
    if xs != [] && ys != [] {
      ZipPairsSpec(xs[1..], ys[1..]);
      var z := ZipPairs(xs, ys);
      forall k | 0 <= k < |z| ensures z[k] == Block([xs[k], ys[k]]) {
        if k > 0 {
          assert z[k] == ZipPairs(xs[1..], ys[1..])[k - 1];
        }
      }
    }
  }

  /** `z` on two blocks replaces them by the block of their pairs, the
      second entry's elements first in each pair; anything else fails. */
  lemma ZipEffect(m: Machine)
    requires Operands(m, 2)
    ensures
      var ys, xs := Operand(m, 1).value, Operand(m, 2).value;
      && (OpZip(m).Ok? <==> xs.Block? && ys.Block?)
      && (!OpZip(m).Ok? ==> OpZip(m) == Err(NotIterable))
      && (OpZip(m).Ok? ==>
            && OpZip(m).value.stack == m.stack[..|m.stack| - 2] + [Val(Block(ZipPairs(xs.items, ys.items)))]
            && SameOutside(m, OpZip(m).value))
  {
    PopTwo(m);
  }

  lemma {:induction false} SlotsSpec(items: seq<Value>)
    ensures forall k :: 0 <= k < |items| ==> Slots(items)[k] == Val(items[k])
  {
    if items != [] {
      SlotsSpec(items[1..]);
      forall k | 0 <= k < |items| ensures Slots(items)[k] == Val(items[k]) {
        if k > 0 {
          assert Slots(items)[k] == Slots(items[1..])[k - 1];
        }
      }
    }
  }

  /** `x` replaces a block by its elements in their original order, so the
      depth changes by the block's length minus one; anything else fails. */
  lemma ExpandEffect(m: Machine)
    requires Operands(m, 1)
    ensures
      var list := Operand(m, 1).value;
      && (OpExpand(m).Ok? <==> list.Block?)
      && (!OpExpand(m).Ok? ==> OpExpand(m) == Err(NotIterable))
      && (OpExpand(m).Ok? ==>
            var r := OpExpand(m).value;
            && |r.stack| == |m.stack| - 1 + |list.items|
            && r.stack[..|m.stack| - 1] == m.stack[..|m.stack| - 1]
            && (forall k :: 0 <= k < |list.items| ==> r.stack[|m.stack| - 1 + k] == Val(list.items[k]))
            && SameOutside(m, r))
  {
    PopEffect(m);
    var list := Operand(m, 1).value;
    if list.Block? {
      SlotsSpec(list.items);
    }
  }

  /** `.` pushes the resolved top twice: the depth grows by one, the two top
      entries are equal and nothing below them changes. */
  lemma DuplicateEffect(m: Machine)
    ensures OpDuplicate(m).Ok? <==> Operands(m, 1)
    ensures Operands(m, 1) ==>
      var r := OpDuplicate(m).value;
      && |r.stack| == |m.stack| + 1
      && r.stack[..|m.stack| - 1] == m.stack[..|m.stack| - 1]
      && r.stack[|r.stack| - 1] == r.stack[|r.stack| - 2] == Val(Operand(m, 1).value)
      && SameOutside(m, r)
  {
    PopEffect(m);
  }

  /** What `i` pushes: a block's element when the index is in range and
      `undefined` otherwise, the digit of a constant's numeral, and nothing
      for a func. */
  lemma IndexEffect(m: Machine)
    requires Operands(m, 2)
    ensures OpIndex(m).Ok?
    ensures
      var i, xs := ToNumber(Operand(m, 1).value), Operand(m, 2).value;
      var r := OpIndex(m).value;
      var below := m.stack[..|m.stack| - 2];
      && SameOutside(m, r)
      && (xs.Block? && i.Int? && 0 <= i.i < |xs.items| ==> r.stack == below + [Val(xs.items[i.i])])
      && (xs.Block? && !(i.Int? && 0 <= i.i < |xs.items|) ==> r.stack == below + [Undefined])
      && (xs.Const? ==> r.stack == below + [Val(Const(Text(DigitAt(NumberToString(ParseFloat(AtomString(xs.a))), i))))])
      && (xs.Func? ==> r.stack == below)
  {
    PopTwo(m);
  }

  /** An `undefined` pushed by an out-of-range `i` makes the next `pop` fail. */
  lemma UndefinedFailsLater(m: Machine)
    requires Operands(m, 2) && Operand(m, 2).value.Block?
    requires var i := ToNumber(Operand(m, 1).value); !(i.Int? && 0 <= i.i < |Operand(m, 2).value.items|)
    ensures Pop(OpIndex(m).value) == Err(UndefinedOperand)
  {
    IndexEffect(m);
  }

  /** For a constant holding a non-negative numeral, `i` with index `k`
      pushes the k-th least significant digit: "0" past the most
      significant digit, and nothing but "" below index 0. */
  lemma IndexDigit(n: nat, k: int)
    ensures IndexOf(Const(Text(Decimal(n))), Int(k))
            == Some(Val(Const(Text(if k >= 0 then [DigitChar((n / NumberLaws.Pow10(k)) % 10)] else ""))))
    ensures IndexOf(Const(Num(Int(n))), Int(k)) == IndexOf(Const(Text(Decimal(n))), Int(k))
  {
    NumberLaws.ParseFloatOfDecimal(n);
    NumberLaws.DigitAtDecimal(n, k);
  }

  /** `"123"` has digit "3" at index 0 and "0" at index 3. */
  lemma IndexDigitExample()
    ensures IndexOf(Const(Text("123")), Int(0)) == Some(Val(Const(Text("3"))))
    ensures IndexOf(Const(Text("123")), Int(2)) == Some(Val(Const(Text("1"))))
    ensures IndexOf(Const(Text("123")), Int(3)) == Some(Val(Const(Text("0"))))
  {
    NumberLaws.LeadingDigitsOfDigits("123");
    assert "123"[..2] == "12" && "12"[..1] == "1";
    assert DigitsValue("123") == 123;
    assert ParseFloat("123") == Int(123);
    assert Decimal(1) == "1";
    assert Decimal(12) == "12";
    assert Decimal(123) == "123";
  }

  /** Indexing a negative number at its most significant position yields
      the sign "-", a constant that fails as soon as it is popped. */
  lemma NegativeIndexFails(n: nat, dict: map<Key, Value>)
    requires n > 0
    ensures IndexOf(Const(Num(Int(0 - n))), Int(|Decimal(n)|)) == Some(Val(Const(Text("-"))))
    ensures Resolve(dict, Const(Text("-"))) == Err(BuiltinNameConstant)
  {
    var s := "-" + Decimal(n);
    NumberLaws.ParseFloatOfNegative(n);
    assert NumberToString(Int(0 - n)) == s;
    assert s[0] == '-';
    ResolveBuiltinName(dict);
  }

  /** `:` with stack `... v n` removes both and binds the key of the
      resolved `n` to the resolved `v`; no other key changes. */
  lemma DefineEffect(m: Machine)
    ensures OpDefine(m).Ok? <==> Operands(m, 2)
    ensures Operands(m, 2) ==>
      var name, value := Operand(m, 1).value, Operand(m, 2).value;
      var r := OpDefine(m).value;
      && r.stack == m.stack[..|m.stack| - 2]
      && r.dict == m.dict[KeyOf(name) := value]
      && r.pen == m.pen && r.strokes == m.strokes
      && (forall k :: k != KeyOf(name) ==> (k in r.dict <==> k in m.dict))
      && (forall k :: k != KeyOf(name) && k in m.dict ==> r.dict[k] == m.dict[k])
  {
    PopTwo(m);
  }

  /** After `v n :` with `n` plain unbound text, the name `n` stands for
      `v`: popping it gives `v`, and evaluating it pushes `v`, or calls `v`
      when that is a func. */
  lemma DefineThenLookup(fuel: nat, m: Machine, v: Value, t: string)
    requires !IsBuiltinName(t) && StringKey(t) !in m.dict
    requires Resolve(m.dict, v).Ok?
    ensures
      var m1 := m.(stack := m.stack + [Val(v), Val(Const(Text(t)))]);
      && OpDefine(m1).Ok?
      && (var r, v' := OpDefine(m1).value, Resolve(m.dict, v).value;
          && Pop(Push(r, Val(Const(Text(t))))) == Ok(Taken(v', r))
          && EvalToken(fuel, r, Const(Text(t))) == if v'.Func? then Call(fuel, r, v'.op) else Ok(Push(r, Val(v'))))
  {
    var m1 := m.(stack := m.stack + [Val(v), Val(Const(Text(t)))]);
    assert Operand(m1, 1) == Ok(Const(Text(t)));
    assert Operand(m1, 2) == Resolve(m.dict, v);
    OperandsTwo(m1);
    DefineEffect(m1);
    assert m1.stack[..|m1.stack| - 2] == m.stack;
    var r := OpDefine(m1).value;
    var r' := Push(r, Val(Const(Text(t))));
    assert r'.stack[..|r'.stack| - 1] == r.stack;
  }

  /** Defining a name that is already bound binds the key of the value it
      is bound to, and leaves the name's own binding as it was. */
  lemma RedefineKeysOnBinding(m: Machine, v: Value, t: string, w: Value)
    requires !IsBuiltinName(t) && StringKey(t) in m.dict && m.dict[StringKey(t)] == w
    requires Resolve(m.dict, v).Ok?
    ensures
      var m1 := m.(stack := m.stack + [Val(v), Val(Const(Text(t)))]);
      && OpDefine(m1).Ok?
      && OpDefine(m1).value.dict == m.dict[KeyOf(w) := Resolve(m.dict, v).value]
      && (KeyOf(w) != StringKey(t) ==> OpDefine(m1).value.dict[StringKey(t)] == w)
  {
    var m1 := m.(stack := m.stack + [Val(v), Val(Const(Text(t)))]);
    assert Operand(m1, 1) == Ok(w);
    assert Operand(m1, 2) == Resolve(m.dict, v);
    OperandsTwo(m1);
    DefineEffect(m1);
  }
}
