/** The tokenizer: the program text is split on whitespace into raw tokens,
    and the raw tokens are grouped into a tree of values, `[` ... `]`
    becoming a nested block. */
module Tokenizer {
  import opened Values

  // ---------------------------------------------------------------------
  // Raw tokens: `str.split(/[ \r\t\n]+/).map(trim).filter(nonempty)`
  // ---------------------------------------------------------------------

  /** The characters of the regular expression `[ \r\t\n]` the text is split on. */
  predicate IsSeparator(c: char) {
    c == ' ' || c == '\r' || c == '\t' || c == '\n'
  }

  /** The characters `String.prototype.trim` removes: white space and line terminators. */
  predicate IsTrimmed(c: char) {
    || c == '\t' || c == '\n' || c == '\U{000B}' || c == '\U{000C}' || c == '\r' || c == ' '
    || c == '\U{00A0}' || c == '\U{1680}' || ('\U{2000}' <= c <= '\U{200A}')
    || c == '\U{2028}' || c == '\U{2029}' || c == '\U{202F}' || c == '\U{205F}'
    || c == '\U{3000}' || c == '\U{FEFF}'
  }

  /** The fragments of `s` between separators. Splitting at every separator
      rather than at every maximal run of them only adds empty fragments,
      which the filter below discards either way. */
  function Split(s: string): (pieces: seq<string>)
    ensures |pieces| > 0
    ensures forall p <- pieces, k :: 0 <= k < |p| ==> !IsSeparator(p[k])
  {
    if s == [] then [""]
    else
      var rest := Split(s[1..]);
      if IsSeparator(s[0]) then [""] + rest
      else [[s[0]] + rest[0]] + rest[1..]
  }

  function TrimStart(s: string): (r: string)
    ensures |r| <= |s| && r == s[|s| - |r|..]
    ensures |r| > 0 ==> !IsTrimmed(r[0])
  {
    if |s| > 0 && IsTrimmed(s[0]) then TrimStart(s[1..]) else s
  }

  function TrimEnd(s: string): (r: string)
    ensures |r| <= |s| && r == s[..|r|]
    ensures |r| > 0 ==> !IsTrimmed(r[|r| - 1])
  {
    if |s| > 0 && IsTrimmed(s[|s| - 1]) then TrimEnd(s[..|s| - 1]) else s
  }

  function Trim(s: string): string {
    TrimEnd(TrimStart(s))
  }

  /** What a raw token looks like: non-empty, no separator inside, nothing
      that `trim` would remove at either end. */
  predicate IsToken(t: string) {
    && |t| > 0
    && (forall k :: 0 <= k < |t| ==> !IsSeparator(t[k]))
    && !IsTrimmed(t[0])
    && !IsTrimmed(t[|t| - 1])
  }

  /** `.map(trim).filter(raw => raw !== "")` */
  function TrimAndFilter(pieces: seq<string>): seq<string> {
    if pieces == [] then []
    else
      var t := Trim(pieces[0]);
      if t == "" then TrimAndFilter(pieces[1..]) else [t] + TrimAndFilter(pieces[1..])
  }

  function RawTokens(s: string): seq<string> {
    TrimAndFilter(Split(s))
  }

  // ---------------------------------------------------------------------
  // Grouping: `parse_it`
  // ---------------------------------------------------------------------

  /** What `parse_it(raw, i, tokens)` leaves behind: the values it pushed
      onto `tokens` and the index it returns. */
  datatype Parsed = Parsed(tokens: seq<Value>, next: nat)

  /** The specification of `parse_it`: a builtin name becomes a func, `[`
      opens a nested block that runs up to its matching `]` or to the end
      of the input, `]` ends the current block (and is consumed), and every
      other token becomes a constant holding its text. */
  function ParseFrom(raw: seq<string>, i: nat): (r: Parsed)
    requires i <= |raw|
    ensures i <= r.next <= |raw|
    ensures i < |raw| ==> i < r.next
    decreases |raw| - i
  {
    if i == |raw| then Parsed([], i)
    else
      var tok := raw[i];
      if IsBuiltinName(tok) then
        var rest := ParseFrom(raw, i + 1);
        Parsed([Func(BuiltinOf(tok).value)] + rest.tokens, rest.next)
      else if tok == "[" then
        var inner := ParseFrom(raw, i + 1);
        var rest := ParseFrom(raw, inner.next);
        Parsed([Block(inner.tokens)] + rest.tokens, rest.next)
      else if tok == "]" then
        Parsed([], i + 1)
      else
        var rest := ParseFrom(raw, i + 1);
        Parsed([Const(Text(tok))] + rest.tokens, rest.next)
  }

  /** The specification of `parse`. */
  function ParseTree(text: string): seq<Value> {
    ParseFrom(RawTokens(text), 0).tokens
  }

  /** `parse_it`: a loop over the raw tokens from `idx0` that recurses for
      every `[` and stops after a `]`. */
  method ParseIt(raw: seq<string>, idx0: nat) returns (idx: nat, tokens: seq<Value>)
    requires idx0 <= |raw|
    ensures Parsed(tokens, idx) == ParseFrom(raw, idx0)
    decreases |raw| - idx0
  {
    idx := idx0;
    tokens := [];
    while idx < |raw|
      invariant idx0 <= idx <= |raw|
      invariant ParseFrom(raw, idx0)
                == Parsed(tokens + ParseFrom(raw, idx).tokens, ParseFrom(raw, idx).next)
      decreases |raw| - idx
    {
      ghost var before := tokens;
      ghost var here := ParseFrom(raw, idx);
      var tok := raw[idx];
      idx := idx + 1;
      var builtin := BuiltinOf(tok);
      if builtin.Some? {
        tokens := tokens + [Func(builtin.value)];
        assert here.tokens == [Func(builtin.value)] + ParseFrom(raw, idx).tokens;
        assert before + here.tokens == tokens + ParseFrom(raw, idx).tokens;
        continue;
      } else if tok == "[" {
        var next, block := ParseIt(raw, idx);
        idx := next;
        tokens := tokens + [Block(block)];
        assert here.tokens == [Block(block)] + ParseFrom(raw, idx).tokens;
        assert before + here.tokens == tokens + ParseFrom(raw, idx).tokens;
        continue;
      } else if tok == "]" {
        assert here == Parsed([], idx);
        break;
      }
      tokens := tokens + [Const(Text(tok))];
      assert here.tokens == [Const(Text(tok))] + ParseFrom(raw, idx).tokens;
      assert before + here.tokens == tokens + ParseFrom(raw, idx).tokens;
    }
  }

  /** `parse`: split the text into raw tokens and group them from index 0. */
  method Parse(text: string) returns (tokens: seq<Value>)
    ensures tokens == ParseTree(text)
  {
    var raw := RawTokens(text);
    var _, t := ParseIt(raw, 0);
    tokens := t;
  }
}
