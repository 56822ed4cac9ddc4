/** Properties of the tokenizer: what the raw tokens look like, what kind of
    tree `parse_it` builds, and the round trips between the tree and its
    bracketed token list. */
module TokenizerLaws {
  import opened Values
  import opened Tokenizer

  // ---------------------------------------------------------------------
  // Raw tokens
  // ---------------------------------------------------------------------

  predicate NoSeparator(w: string) {
    forall k :: 0 <= k < |w| ==> !IsSeparator(w[k])
  }

  /** Tokens written out with one space between neighbours. */
  function Join(toks: seq<string>): string {
    if |toks| == 0 then ""
    else if |toks| == 1 then toks[0]
    else toks[0] + " " + Join(toks[1..])
  }

  lemma {:induction false} SplitWord(w: string)
    requires NoSeparator(w)
    ensures Split(w) == [w]
  {
    if w != [] {
      SplitWord(w[1..]);
      assert [w[0]] + w[1..] == w;
    }
  }

  lemma {:induction false} SplitWordThen(w: string, rest: string)
    requires NoSeparator(w)
    ensures Split(w + " " + rest) == [w] + Split(rest)
  {
    if w == [] {
      assert (w + " " + rest)[1..] == rest;
    } else {
      assert (w + " " + rest)[1..] == w[1..] + " " + rest;
      SplitWordThen(w[1..], rest);
      assert [w[0]] + w[1..] == w;
    }
  }

  lemma TrimmedPiece(p: string)
    requires NoSeparator(p) && Trim(p) != ""
    ensures IsToken(Trim(p))
  {
    var s := TrimStart(p);
    var r := TrimEnd(s);
    assert r[0] == s[0];
    forall k | 0 <= k < |r| ensures !IsSeparator(r[k]) {
      assert r[k] == s[k] == p[|p| - |s| + k];
    }
  }

  /** Every raw token is non-empty, holds no separator, and has nothing
      `trim` would remove at either end. */
  lemma {:induction false} RawTokensAreTokens(text: string)
    ensures forall t <- RawTokens(text) :: IsToken(t)
  {
    TrimAndFilterTokens(Split(text));
  }

  lemma {:induction false} TrimAndFilterTokens(pieces: seq<string>)
    requires forall p <- pieces :: NoSeparator(p)
    ensures forall t <- TrimAndFilter(pieces) :: IsToken(t)
  {
    if pieces != [] {
      TrimAndFilterTokens(pieces[1..]);
      if Trim(pieces[0]) != "" {
        TrimmedPiece(pieces[0]);
      }
    }
  }

  lemma Cons<T>(s: seq<T>, t: seq<T>)
    requires |s| > 0
    ensures [s[0]] + (s[1..] + t) == s + t
  {
  }

  lemma TrimToken(t: string)
    requires IsToken(t)
    ensures Trim(t) == t
  {
  }

  lemma TrimAndFilterToken(t: string, pieces: seq<string>)
    requires IsToken(t)
    ensures TrimAndFilter([t] + pieces) == [t] + TrimAndFilter(pieces)
  {
    TrimToken(t);
    assert ([t] + pieces)[1..] == pieces;
  }

  lemma RawTokensCons(t: string, rest: string)
    requires IsToken(t)
    ensures RawTokens(t + " " + rest) == [t] + RawTokens(rest)
  {
    SplitWordThen(t, rest);
    TrimAndFilterToken(t, Split(rest));
  }

  lemma RawTokensEmpty(s: string)
    requires |s| == 0
    ensures RawTokens(s) == []
  {
    var e := Split(s)[0];
    assert Split(s) == [e] && |e| == 0;
    assert |TrimStart(e)| == 0;
    assert Split(s)[1..] == [];
  }

  lemma RawTokensSingle(t: string)
    requires IsToken(t)
    ensures RawTokens(t) == [t]
  {
    SplitWord(t);
    TrimAndFilterToken(t, []);
    assert [t] + [] == [t];
  }

  /** Splitting tokens written out with spaces gives the tokens back. */
  lemma {:induction false} RawTokensOfJoin(toks: seq<string>)
    requires forall t <- toks :: IsToken(t)
    ensures RawTokens(Join(toks)) == toks
  {
    if |toks| == 0 {
      RawTokensEmpty(Join(toks));
    } else if |toks| == 1 {
      JoinSingle(toks);
    } else {
      TokensTail(toks);
      RawTokensOfJoin(toks[1..]);
      JoinCons(toks);
    }
  }

  lemma JoinSingle(toks: seq<string>)
    requires |toks| == 1 && IsToken(toks[0])
    ensures RawTokens(Join(toks)) == toks
  {
    RawTokensSingle(toks[0]);
    assert [toks[0]] == toks;
  }

  lemma TokensTail(toks: seq<string>)
    requires toks != [] && forall t <- toks :: IsToken(t)
    ensures IsToken(toks[0]) && forall t <- toks[1..] :: IsToken(t)
  {
    assert toks[0] in toks;
    forall t | t in toks[1..] ensures IsToken(t) { assert t in toks; }
  }

  lemma JoinCons(toks: seq<string>)
    requires |toks| >= 2 && IsToken(toks[0])
    requires RawTokens(Join(toks[1..])) == toks[1..]
    ensures RawTokens(Join(toks)) == toks
  {
    assert Join(toks) == toks[0] + " " + Join(toks[1..]);
    RawTokensCons(toks[0], Join(toks[1..]));
    assert [toks[0]] + toks[1..] == toks;
  }

  // ---------------------------------------------------------------------
  // The trees parse_it builds
  // ---------------------------------------------------------------------

  /** A value as `parse_it` can produce it: constants hold the text of a
      raw token that is neither a bracket nor a builtin name. */
  predicate WellFormed(v: Value)
    decreases v
  {
    match v
    case Const(a) => a.Text? && IsToken(a.s) && !IsBuiltinName(a.s) && a.s != "[" && a.s != "]"
    case Func(_) => true
    case Block(items) => forall k :: 0 <= k < |items| ==> WellFormed(items[k])
  }

  predicate AllWellFormed(vs: seq<Value>) {
    forall k :: 0 <= k < |vs| ==> WellFormed(vs[k])
  }

  /** Whatever the raw tokens, `parse_it` builds well-formed values: builtin
      names become funcs, brackets become blocks, and all other tokens are
      kept verbatim as text constants. */
  lemma {:induction false} ParseFromWellFormed(raw: seq<string>, i: nat)
    requires i <= |raw|
    requires forall t <- raw :: IsToken(t)
    ensures AllWellFormed(ParseFrom(raw, i).tokens)
    decreases |raw| - i
  {
    if i < |raw| {
      var tok := raw[i];
      if IsBuiltinName(tok) {
        ParseFromWellFormed(raw, i + 1);
      } else if tok == "[" {
        var inner := ParseFrom(raw, i + 1);
        ParseFromWellFormed(raw, i + 1);
        ParseFromWellFormed(raw, inner.next);
      } else if tok != "]" {
        assert raw[i] in raw;
        ParseFromWellFormed(raw, i + 1);
      }
    }
  }

  lemma ParseTreeWellFormed(text: string)
    ensures AllWellFormed(ParseTree(text))
  {
    RawTokensAreTokens(text);
    ParseFromWellFormed(RawTokens(text), 0);
  }

  // ---------------------------------------------------------------------
  // Round trips between trees and bracketed token lists
  // ---------------------------------------------------------------------

  /** A tree flattened back into raw tokens, each block between `[` and `]`. */
  function Unparse(vs: seq<Value>): seq<string>
    decreases vs
  {
    if vs == [] then [] else UnparseValue(vs[0]) + Unparse(vs[1..])
  }

  function UnparseValue(v: Value): seq<string>
    decreases v
  {
    match v
    case Const(a) => [AtomString(a)]
    case Func(b) => [Name(b)]
    case Block(items) => ["["] + Unparse(items) + ["]"]
  }

  /** The raw tokens `u` stand in `raw` from position `i` on. */
  predicate Occurs(raw: seq<string>, i: nat, u: seq<string>)
    decreases |u|
  {
    i + |u| <= |raw| && (u == [] || (raw[i] == u[0] && Occurs(raw, i + 1, u[1..])))
  }

  lemma {:induction false} OccursSlice(raw: seq<string>, i: nat, n: nat)
    requires i + n <= |raw|
    ensures Occurs(raw, i, raw[i..i + n])
    decreases n
  {
    if n > 0 {
      OccursSlice(raw, i + 1, n - 1);
      assert raw[i..i + n][1..] == raw[i + 1..i + n];
    }
  }

  lemma {:induction false} OccursAppend(raw: seq<string>, i: nat, u: seq<string>, w: seq<string>)
    requires Occurs(raw, i, u + w)
    ensures Occurs(raw, i, u) && Occurs(raw, i + |u|, w)
    decreases |u|
  {
    if u == [] {
      assert u + w == w;
    } else {
      assert (u + w)[1..] == u[1..] + w;
      OccursAppend(raw, i + 1, u[1..], w);
    }
  }

  lemma AllWellFormedTail(vs: seq<Value>)
    requires vs != [] && AllWellFormed(vs)
    ensures WellFormed(vs[0]) && AllWellFormed(vs[1..])
  {
    forall k | 0 <= k < |vs[1..]| ensures WellFormed(vs[1..][k]) {
      assert vs[1..][k] == vs[k + 1];
    }
  }

  /** The values `vs` followed by what a later parse produced. */
  function Glue(vs: seq<Value>, after: Parsed): Parsed {
    Parsed(vs + after.tokens, after.next)
  }

  /** Parsing the flattening of well-formed values yields those values and
      then carries on with whatever follows them. */
  lemma ParseConcat(raw: seq<string>, i: nat, vs: seq<Value>)
    requires AllWellFormed(vs) && Occurs(raw, i, Unparse(vs))
    ensures i + |Unparse(vs)| <= |raw|
    ensures ParseFrom(raw, i) == Glue(vs, ParseFrom(raw, i + |Unparse(vs)|))
  {
    ParseConcatTo(raw, i, vs, i + |Unparse(vs)|);
  }

  /** `ParseConcat` with the end position `e` of the values named. */
  lemma {:induction false} ParseConcatTo(raw: seq<string>, i: nat, vs: seq<Value>, e: nat)
    requires AllWellFormed(vs) && Occurs(raw, i, Unparse(vs)) && e == i + |Unparse(vs)|
    ensures e <= |raw|
    ensures ParseFrom(raw, i) == Glue(vs, ParseFrom(raw, e))
    decreases vs, 1
  {
    if vs == [] {
      GlueEmpty(ParseFrom(raw, i));
    } else {
      var j := i + |UnparseValue(vs[0])|;
      SplitFront(raw, i, vs);
      AllWellFormedTail(vs);
      ParseFirst(raw, i, vs, j);
      ParseConcatTo(raw, j, vs[1..], e);
      GlueChain(vs, ParseFrom(raw, i), ParseFrom(raw, j), ParseFrom(raw, e));
    }
  }

  /** The first of the values, ending at `j`; for a block, its contents
      parse back first. */
  lemma {:induction false} ParseFirst(raw: seq<string>, i: nat, vs: seq<Value>, j: nat)
    requires vs != [] && WellFormed(vs[0])
    requires Occurs(raw, i, UnparseValue(vs[0])) && j == i + |UnparseValue(vs[0])|
    ensures j <= |raw|
    ensures ParseFrom(raw, i) == Glue([vs[0]], ParseFrom(raw, j))
    decreases vs, 0
  {
    if vs[0].Block? {
      SplitBlock(raw, i, vs[0].items);
      ParseConcatTo(raw, i + 1, vs[0].items, j - 1);
    }
    ParseHead(raw, i, vs[0], j);
  }

  /** The raw tokens of the first value and of the remaining values. */
  lemma SplitFront(raw: seq<string>, i: nat, vs: seq<Value>)
    requires vs != [] && Occurs(raw, i, Unparse(vs))
    ensures var j := i + |UnparseValue(vs[0])|;
      && j + |Unparse(vs[1..])| == i + |Unparse(vs)|
      && Occurs(raw, i, UnparseValue(vs[0]))
      && Occurs(raw, j, Unparse(vs[1..]))
  {
    UnparseFront(vs);
    OccursAppend(raw, i, UnparseValue(vs[0]), Unparse(vs[1..]));
  }

  lemma UnparseFront(vs: seq<Value>)
    requires vs != []
    ensures Unparse(vs) == UnparseValue(vs[0]) + Unparse(vs[1..])
  {
  }

  /** The raw tokens of a block: its `[`, its contents and its `]`. */
  lemma SplitBlock(raw: seq<string>, i: nat, items: seq<Value>)
    requires WellFormed(Block(items)) && Occurs(raw, i, UnparseValue(Block(items)))
    ensures AllWellFormed(items)
    ensures |UnparseValue(Block(items))| == |Unparse(items)| + 2
    ensures i + 1 + |Unparse(items)| < |raw|
    ensures raw[i] == "[" && Occurs(raw, i + 1, Unparse(items))
    ensures raw[i + 1 + |Unparse(items)|] == "]"
  {
    var m := Unparse(items);
    OccursAppend(raw, i, ["["] + m, ["]"]);
    OccursAppend(raw, i, ["["], m);
  }

  /** One well-formed value at the front, ending at `j`, given that a
      block's contents already parse back. */
  lemma ParseHead(raw: seq<string>, i: nat, v: Value, j: nat)
    requires WellFormed(v) && Occurs(raw, i, UnparseValue(v)) && j == i + |UnparseValue(v)|
    requires v.Block? ==> i + 2 <= j && ParseFrom(raw, i + 1) == Glue(v.items, ParseFrom(raw, j - 1))
    ensures j <= |raw|
    ensures ParseFrom(raw, i) == Glue([v], ParseFrom(raw, j))
  {
    match v
    case Func(b) =>
      ParseFuncStep(raw, i, b);
    case Const(a) =>
      ParseConstStep(raw, i);
    case Block(items) =>
      SplitBlock(raw, i, items);
      ParseBlockStep(raw, i, items, j);
  }

  /** A block whose contents parse back followed by its `]`. */
  lemma ParseBlockStep(raw: seq<string>, i: nat, items: seq<Value>, j: nat)
    requires i + 2 <= j <= |raw| && raw[i] == "[" && raw[j - 1] == "]"
    requires ParseFrom(raw, i + 1) == Glue(items, ParseFrom(raw, j - 1))
    ensures ParseFrom(raw, i) == Glue([Block(items)], ParseFrom(raw, j))
  {
    ParseCloseStep(raw, j - 1);
    assert items + [] == items;
    ParseOpenStep(raw, i);
  }

  /** Gluing the parse of the first value to the parse of the rest. */
  lemma GlueChain(vs: seq<Value>, a: Parsed, b: Parsed, c: Parsed)
    requires vs != [] && a == Glue([vs[0]], b) && b == Glue(vs[1..], c)
    ensures a == Glue(vs, c)
  {
    Cons(vs, c.tokens);
  }

  lemma GlueEmpty(p: Parsed)
    ensures Glue([], p) == p
  {
    assert [] + p.tokens == p.tokens;
  }

  /** The same for one value. */
  lemma ParseValue(raw: seq<string>, i: nat, v: Value)
    requires WellFormed(v) && Occurs(raw, i, UnparseValue(v))
    ensures i + |UnparseValue(v)| <= |raw|
    ensures ParseFrom(raw, i) == Glue([v], ParseFrom(raw, i + |UnparseValue(v)|))
  {
    assert Unparse([v]) == UnparseValue(v) + Unparse([]);
    assert UnparseValue(v) + [] == UnparseValue(v);
    ParseConcat(raw, i, [v]);
  }

  lemma ParseFuncStep(raw: seq<string>, i: nat, b: Builtin)
    requires i < |raw| && raw[i] == Name(b)
    ensures ParseFrom(raw, i) == Glue([Func(b)], ParseFrom(raw, i + 1))
  {
  }

  lemma ParseConstStep(raw: seq<string>, i: nat)
    requires i < |raw| && !IsBuiltinName(raw[i]) && raw[i] != "[" && raw[i] != "]"
    ensures ParseFrom(raw, i) == Glue([Const(Text(raw[i]))], ParseFrom(raw, i + 1))
  {
  }

  lemma ParseOpenStep(raw: seq<string>, i: nat)
    requires i < |raw| && raw[i] == "["
    ensures ParseFrom(raw, i)
            == Glue([Block(ParseFrom(raw, i + 1).tokens)], ParseFrom(raw, ParseFrom(raw, i + 1).next))
  {
    assert !IsBuiltinName(raw[i]);
  }

  lemma ParseEndStep(raw: seq<string>, vs: seq<Value>)
    ensures Glue(vs, ParseFrom(raw, |raw|)) == Parsed(vs, |raw|)
  {
    assert vs + [] == vs;
  }

  lemma ParseCloseStep(raw: seq<string>, i: nat)
    requires i < |raw| && raw[i] == "]"
    ensures ParseFrom(raw, i) == Parsed([], i + 1)
  {
    assert !IsBuiltinName(raw[i]);
  }

  /** Round trip from trees: parsing the flattening of well-formed values
      gives the values back. */
  lemma ParseUnparse(vs: seq<Value>)
    requires AllWellFormed(vs)
    ensures ParseFrom(Unparse(vs), 0).tokens == vs
  {
    var raw := Unparse(vs);
    OccursSlice(raw, 0, |raw|);
    assert raw[0..|raw|] == raw;
    ParseConcatTo(raw, 0, vs, |raw|);
  }

  /** A `]` at top level ends the program: every token after it is dropped. */
  lemma TopLevelCloseDropsRest(vs: seq<Value>, rest: seq<string>)
    requires AllWellFormed(vs)
    ensures ParseFrom(Unparse(vs) + ["]"] + rest, 0).tokens == vs
  {
    var front := Unparse(vs);
    var raw := front + ["]"] + rest;
    ThreeParts(raw, front, "]", rest);
    ParseConcatTo(raw, 0, vs, |front|);
    ParseCloseStep(raw, |front|);
  }

  /** A `[` that is never closed runs to the end of the input. */
  lemma UnterminatedBlock(vs: seq<Value>, inner: seq<Value>)
    requires AllWellFormed(vs) && AllWellFormed(inner)
    ensures ParseFrom(Unparse(vs) + ["["] + Unparse(inner), 0).tokens == vs + [Block(inner)]
  {
    var front, back := Unparse(vs), Unparse(inner);
    var raw := front + ["["] + back;
    ThreeParts(raw, front, "[", back);
    UnterminatedRaw(raw, vs, inner);
  }

  lemma UnterminatedRaw(raw: seq<string>, vs: seq<Value>, inner: seq<Value>)
    requires AllWellFormed(vs) && AllWellFormed(inner)
    requires |raw| == |Unparse(vs)| + 1 + |Unparse(inner)|
    requires Occurs(raw, 0, Unparse(vs)) && raw[|Unparse(vs)|] == "["
    requires Occurs(raw, |Unparse(vs)| + 1, Unparse(inner))
    ensures ParseFrom(raw, 0).tokens == vs + [Block(inner)]
  {
    ParseConcatTo(raw, 0, vs, |Unparse(vs)|);
    UnterminatedInner(raw, |Unparse(vs)|, inner);
  }

  lemma UnterminatedInner(raw: seq<string>, n: nat, inner: seq<Value>)
    requires AllWellFormed(inner) && |raw| == n + 1 + |Unparse(inner)|
    requires raw[n] == "[" && Occurs(raw, n + 1, Unparse(inner))
    ensures ParseFrom(raw, n) == Parsed([Block(inner)], |raw|)
  {
    ParseConcatTo(raw, n + 1, inner, |raw|);
    OpenToEnd(raw, n, inner);
  }

  /** The raw tokens before, at and after one position. */
  lemma ThreeParts(raw: seq<string>, front: seq<string>, t: string, back: seq<string>)
    requires raw == front + [t] + back
    ensures |raw| == |front| + 1 + |back|
    ensures Occurs(raw, 0, front) && raw[|front|] == t
    ensures Occurs(raw, |front| + 1, back)
  {
    OccursSlice(raw, 0, |raw|);
    assert raw[0..|raw|] == raw;
    OccursAppend(raw, 0, front + [t], back);
    OccursAppend(raw, 0, front, [t]);
  }

  /** A `[` whose contents parse up to the end of the input. */
  lemma OpenToEnd(raw: seq<string>, n: nat, inner: seq<Value>)
    requires n < |raw| && raw[n] == "["
    requires ParseFrom(raw, n + 1) == Glue(inner, ParseFrom(raw, |raw|))
    ensures ParseFrom(raw, n) == Parsed([Block(inner)], |raw|)
  {
    ParseEndStep(raw, inner);
    ParseOpenStep(raw, n);
    ParseEndStep(raw, [Block(inner)]);
  }

  // ---------------------------------------------------------------------
  // Round trip from raw tokens
  // ---------------------------------------------------------------------

  /** How a raw token changes the bracket nesting depth. */
  function Delta(t: string): int {
    if t == "[" then 1 else if t == "]" then -1 else 0
  }

  /** The nesting depth at the end of `ts`: opening minus closing brackets. */
  function Depth(ts: seq<string>): int {
    if ts == [] then 0 else Delta(ts[0]) + Depth(ts[1..])
  }

  /** Bracket-balanced raw tokens: no prefix closes more blocks than it
      opened, and every block opened is closed. */
  predicate Balanced(raw: seq<string>) {
    && Depth(raw) == 0
    && forall j :: 0 <= j <= |raw| ==> Depth(raw[..j]) >= 0
  }

  /** `n` closing brackets. */
  function Closers(n: nat): seq<string> {
    if n == 0 then [] else Closers(n - 1) + ["]"]
  }

  lemma {:induction false} DepthAppend(a: seq<string>, b: seq<string>)
    ensures Depth(a + b) == Depth(a) + Depth(b)
  {
    if a != [] {
      assert (a + b)[1..] == a[1..] + b;
      DepthAppend(a[1..], b);
    } else {
      assert a + b == b;
    }
  }

  lemma DepthSlices(raw: seq<string>, i: nat, j: nat, k: nat)
    requires i <= j <= k <= |raw|
    ensures Depth(raw[i..k]) == Depth(raw[i..j]) + Depth(raw[j..k])
  {
    assert raw[i..k] == raw[i..j] + raw[j..k];
    DepthAppend(raw[i..j], raw[j..k]);
  }

  lemma UnparseCons(v: Value, ws: seq<Value>)
    ensures Unparse([v] + ws) == UnparseValue(v) + Unparse(ws)
  {
    assert ([v] + ws)[1..] == ws;
  }

  /** `parse_it` from `i` stopped at a `]` that closes the level it started
      on: the flattened values followed by that `]` are exactly the raw
      tokens it consumed, whose depth is -1. */
  predicate ClosedAt(raw: seq<string>, i: nat, p: Parsed) {
    && i < p.next <= |raw|
    && Depth(raw[i..p.next]) == -1
    && Unparse(p.tokens) + ["]"] == raw[i..p.next]
  }

  /** `parse_it` from `i` ran to the end of the input: the flattened values
      are the remaining raw tokens plus one `]` for every block left open. */
  predicate RunsToEnd(raw: seq<string>, i: nat, p: Parsed) {
    && i <= |raw|
    && p.next == |raw|
    && Depth(raw[i..]) >= 0
    && Unparse(p.tokens) == raw[i..] + Closers(Depth(raw[i..]))
  }

  /** What `parse_it` consumes is what flattening its values gives back,
      up to the closing brackets a truncated input leaves out. */
  lemma {:induction false} UnparseParseFrom(raw: seq<string>, i: nat)
    requires i <= |raw|
    ensures ClosedAt(raw, i, ParseFrom(raw, i)) || RunsToEnd(raw, i, ParseFrom(raw, i))
    decreases |raw| - i
  {
    var p := ParseFrom(raw, i);
    if i == |raw| {
      assert raw[i..] == [];
      assert Unparse(p.tokens) == [];
    } else {
      var tok := raw[i];
      assert raw[i..i + 1] == [tok];
      assert Depth([tok]) == Delta(tok);
      if tok == "]" {
        ParseCloseStep(raw, i);
        assert Unparse(p.tokens) + ["]"] == raw[i..i + 1];
      } else if tok == "[" {
        var inner := ParseFrom(raw, i + 1);
        UnparseParseFrom(raw, i + 1);
        if ClosedAt(raw, i + 1, inner) {
          UnparseParseFrom(raw, inner.next);
        }
        UnparseParseOpen(raw, i);
      } else {
        var v := if IsBuiltinName(tok) then Func(BuiltinOf(tok).value) else Const(Text(tok));
        if IsBuiltinName(tok) {
          ParseFuncStep(raw, i, BuiltinOf(tok).value);
        } else {
          ParseConstStep(raw, i);
        }
        assert UnparseValue(v) == raw[i..i + 1];
        var q := ParseFrom(raw, i + 1);
        UnparseParseFrom(raw, i + 1);
        if ClosedAt(raw, i + 1, q) {
          GlueClosed(raw, i, i + 1, v, q);
        } else {
          GlueRunsToEnd(raw, i, i + 1, v, q);
        }
      }
    }
  }

  /** The `[` case of `UnparseParseFrom`, given what holds of the nested
      block and of what follows it. */
  lemma UnparseParseOpen(raw: seq<string>, i: nat)
    requires i < |raw| && raw[i] == "["
    requires ClosedAt(raw, i + 1, ParseFrom(raw, i + 1)) || RunsToEnd(raw, i + 1, ParseFrom(raw, i + 1))
    requires ClosedAt(raw, i + 1, ParseFrom(raw, i + 1)) ==>
               var j := ParseFrom(raw, i + 1).next;
               ClosedAt(raw, j, ParseFrom(raw, j)) || RunsToEnd(raw, j, ParseFrom(raw, j))
    ensures ClosedAt(raw, i, ParseFrom(raw, i)) || RunsToEnd(raw, i, ParseFrom(raw, i))
  {
    var inner := ParseFrom(raw, i + 1);
    ParseOpenStep(raw, i);
    UnparseCons(Block(inner.tokens), ParseFrom(raw, inner.next).tokens);
    if ClosedAt(raw, i + 1, inner) {
      OpenBlockClosed(raw, i);
      var j := inner.next;
      if ClosedAt(raw, j, ParseFrom(raw, j)) {
        GlueClosed(raw, i, j, Block(inner.tokens), ParseFrom(raw, j));
      } else {
        GlueRunsToEnd(raw, i, j, Block(inner.tokens), ParseFrom(raw, j));
      }
    } else {
      OpenBlockRunsToEnd(raw, i);
    }
  }

  /** A value read from tokens of depth 0, followed by a parse that stops
      at a closing `]`. */
  lemma GlueClosed(raw: seq<string>, i: nat, j: nat, v: Value, q: Parsed)
    requires i <= j <= |raw| && UnparseValue(v) == raw[i..j] && Depth(raw[i..j]) == 0
    requires ClosedAt(raw, j, q)
    ensures ClosedAt(raw, i, Glue([v], q))
  {
    UnparseCons(v, q.tokens);
    DepthSlices(raw, i, j, q.next);
    assert raw[i..q.next] == raw[i..j] + raw[j..q.next];
    assert Unparse(Glue([v], q).tokens) + ["]"] == raw[i..j] + (Unparse(q.tokens) + ["]"]);
  }

  /** A value read from tokens of depth 0, followed by a parse that runs to
      the end of the input. */
  lemma GlueRunsToEnd(raw: seq<string>, i: nat, j: nat, v: Value, q: Parsed)
    requires i <= j <= |raw| && UnparseValue(v) == raw[i..j] && Depth(raw[i..j]) == 0
    requires RunsToEnd(raw, j, q)
    ensures RunsToEnd(raw, i, Glue([v], q))
  {
    var d := Depth(raw[j..]);
    UnparseCons(v, q.tokens);
    SuffixSplit(raw, i, j);
    DepthAppend(raw[i..j], raw[j..]);
    AppendAssoc(raw[i..j], raw[j..], Closers(d));
  }

  lemma SuffixSplit(raw: seq<string>, i: nat, j: nat)
    requires i <= j <= |raw|
    ensures raw[i..] == raw[i..j] + raw[j..]
  {
  }

  lemma AppendAssoc(a: seq<string>, b: seq<string>, c: seq<string>)
    ensures a + (b + c) == (a + b) + c
  {
  }


  /** A block closed by its `]` flattens back to the tokens it was read from,
      and those have depth 0. */
  lemma OpenBlockClosed(raw: seq<string>, i: nat)
    requires i < |raw| && raw[i] == "["
    requires ClosedAt(raw, i + 1, ParseFrom(raw, i + 1))
    ensures var j := ParseFrom(raw, i + 1).next;
      && UnparseValue(Block(ParseFrom(raw, i + 1).tokens)) == raw[i..j]
      && Depth(raw[i..j]) == 0
  {
    var inner := ParseFrom(raw, i + 1);
    var j := inner.next;
    assert raw[i..j] == [raw[i]] + raw[i + 1..j];
    DepthSlices(raw, i, i + 1, j);
    assert raw[i..i + 1] == ["["];
    assert Depth(["["]) == 1;
  }

  /** A block that is never closed flattens to the rest of the input plus
      one more `]` than the tokens inside it need. */
  lemma OpenBlockRunsToEnd(raw: seq<string>, i: nat)
    requires i < |raw| && raw[i] == "["
    requires RunsToEnd(raw, i + 1, ParseFrom(raw, i + 1))
    requires ParseFrom(raw, i) == Glue([Block(ParseFrom(raw, i + 1).tokens)], ParseFrom(raw, |raw|))
    ensures RunsToEnd(raw, i, ParseFrom(raw, i))
  {
    var inner := ParseFrom(raw, i + 1);
    var block := Block(inner.tokens);
    var d := Depth(raw[i + 1..]);
    ParseEndStep(raw, [block]);
    UnparseCons(block, []);
    assert Unparse([]) == [];
    DepthSlices(raw, i, i + 1, |raw|);
    assert raw[i..i + 1] == ["["];
    assert Depth(["["]) == 1;
    assert Closers(d + 1) == Closers(d) + ["]"];
    assert raw[i..] == ["["] + raw[i + 1..];
    assert Unparse(ParseFrom(raw, i).tokens) == ["["] + (raw[i + 1..] + Closers(d)) + ["]"];
  }

  /** Round trip from raw tokens: for bracket-balanced raw tokens, flattening
      the tree `parse_it` builds reproduces them exactly. */
  lemma UnparseParse(raw: seq<string>)
    requires Balanced(raw)
    ensures Unparse(ParseFrom(raw, 0).tokens) == raw
  {
    UnparseParseFrom(raw, 0);
    var p := ParseFrom(raw, 0);
    assert raw[0..] == raw;
  }

  /** The same for program text: when the raw tokens are balanced, the tree
      `parse` builds flattens back to exactly those raw tokens. */
  lemma UnparseParseTree(text: string)
    requires Balanced(RawTokens(text))
    ensures Unparse(ParseTree(text)) == RawTokens(text)
  {
    UnparseParse(RawTokens(text));
  }

  lemma {:induction false} UnparseTokens(vs: seq<Value>)
    requires AllWellFormed(vs)
    ensures forall t <- Unparse(vs) :: IsToken(t)
    decreases vs
  {
    if vs != [] {
      assert WellFormed(vs[0]);
      assert AllWellFormed(vs[1..]) by {
        forall k | 0 <= k < |vs[1..]| ensures WellFormed(vs[1..][k]) {
          assert vs[1..][k] == vs[k + 1];
        }
      }
      UnparseTokens(vs[1..]);
      match vs[0]
      case Block(items) =>
        assert AllWellFormed(items);
        UnparseTokens(items);
      case Const(_) =>
      case Func(b) =>
        assert IsToken(Name(b)) by { match b case _ => }
    }
  }

  /** Round trip through program text: the well-formed values written out
      with brackets and spaces parse back to themselves. */
  lemma ParseTreeOfText(vs: seq<Value>)
    requires AllWellFormed(vs)
    ensures ParseTree(Join(Unparse(vs))) == vs
  {
    UnparseTokens(vs);
    RawTokensOfJoin(Unparse(vs));
    ParseUnparse(vs);
  }
}
