/** The value model of the turtle-graphics Forth: numbers, the builtin table
    and the tagged values `{type: "constant" | "block" | "func", value}`. */
module Values {

  datatype Option<T> = None | Some(value: T)

  /** A JavaScript number, restricted to what this language produces: the
      integers read from decimal text or computed by `* + -`, and NaN. */
  datatype Number = Int(i: int) | NaN

  function Times(a: Number, b: Number): Number {
    if a.Int? && b.Int? then Int(a.i * b.i) else NaN
  }

  function Plus(a: Number, b: Number): Number {
    if a.Int? && b.Int? then Int(a.i + b.i) else NaN
  }

  function Minus(a: Number, b: Number): Number {
    if a.Int? && b.Int? then Int(a.i - b.i) else NaN
  }

  // ---------------------------------------------------------------------
  // Decimal text: `parseFloat` and `Number.prototype.toString`
  // ---------------------------------------------------------------------

  predicate IsDigit(c: char) { '0' <= c <= '9' }

  function DigitValue(c: char): nat
    requires IsDigit(c)
  {
    (c as int) - ('0' as int)
  }

  function DigitChar(d: nat): (c: char)
    requires d < 10
    ensures IsDigit(c) && DigitValue(c) == d
  {
    (('0' as int) + d) as char
  }

  /** The longest prefix of `s` made of decimal digits. */
  function LeadingDigits(s: string): (ds: string)
    ensures |ds| <= |s| && ds == s[..|ds|]
    ensures forall k :: 0 <= k < |ds| ==> IsDigit(ds[k])
    ensures |ds| < |s| ==> !IsDigit(s[|ds|])
  {
    if s == [] || !IsDigit(s[0]) then [] else [s[0]] + LeadingDigits(s[1..])
  }

  /** The value of a string of decimal digits, most significant first. */
  function DigitsValue(ds: string): nat
    requires forall k :: 0 <= k < |ds| ==> IsDigit(ds[k])
  {
    if ds == [] then 0 else DigitsValue(ds[..|ds| - 1]) * 10 + DigitValue(ds[|ds| - 1])
  }

  /** `parseFloat` restricted to integers: an optional sign followed by the
      longest run of decimal digits; no digits at all gives NaN. */
  function ParseFloat(s: string): Number {
    var negative := |s| > 0 && s[0] == '-';
    var body := if |s| > 0 && (s[0] == '-' || s[0] == '+') then s[1..] else s;
    var ds := LeadingDigits(body);
    if ds == [] then NaN
    else if negative then Int(0 - DigitsValue(ds))
    else Int(DigitsValue(ds))
  }

  /** The decimal numeral of a natural number, without leading zeros. */
  function Decimal(n: nat): (s: string)
    ensures |s| > 0
    ensures forall k :: 0 <= k < |s| ==> IsDigit(s[k])
  {
    if n < 10 then [DigitChar(n)] else Decimal(n / 10) + [DigitChar(n % 10)]
  }

  /** `Number.prototype.toString` (the same as `String(n)`) on the modelled numbers. */
  function NumberToString(n: Number): string {
    match n
    case NaN => "NaN"
    case Int(i) => if i < 0 then "-" + Decimal(-i) else Decimal(i)
  }

  // ---------------------------------------------------------------------
  // The builtin table
  // ---------------------------------------------------------------------

  /** One constructor per entry of the builtin table, named after its description. */
  datatype Builtin =
    | Mul        // *
    | Sum        // +
    | Subtract   // -
    | Back       // b
    | Forward    // f
    | PenDown    // d
    | PenUp      // u
    | RotateCw   // r
    | RotateCcw  // l
    | DoN        // c
    | Each       // e
    | Zip        // z
    | Expand     // x
    | Duplicate  // .
    | Apply      // !
    | Index      // i
    | Define     // :

  /** The name a builtin is registered under. */
  function Name(b: Builtin): string {
    match b
    case Mul => "*"
    case Sum => "+"
    case Subtract => "-"
    case Back => "b"
    case Forward => "f"
    case PenDown => "d"
    case PenUp => "u"
    case RotateCw => "r"
    case RotateCcw => "l"
    case DoN => "c"
    case Each => "e"
    case Zip => "z"
    case Expand => "x"
    case Duplicate => "."
    case Apply => "!"
    case Index => "i"
    case Define => ":"
  }

  /** Looking a name up in the builtin table. Every name is one character long. */
  function BuiltinOf(s: string): Option<Builtin> {
    if |s| != 1 then None
    else
      match s[0]
      case '*' => Some(Mul)
      case '+' => Some(Sum)
      case '-' => Some(Subtract)
      case 'b' => Some(Back)
      case 'f' => Some(Forward)
      case 'd' => Some(PenDown)
      case 'u' => Some(PenUp)
      case 'r' => Some(RotateCw)
      case 'l' => Some(RotateCcw)
      case 'c' => Some(DoN)
      case 'e' => Some(Each)
      case 'z' => Some(Zip)
      case 'x' => Some(Expand)
      case '.' => Some(Duplicate)
      case '!' => Some(Apply)
      case 'i' => Some(Index)
      case ':' => Some(Define)
      case _ => None
  }

  predicate IsBuiltinName(s: string) {
    BuiltinOf(s).Some?
  }

  /** A name found in the table is the name of the builtin found. */
  lemma BuiltinOfSound(s: string)
    ensures BuiltinOf(s).Some? ==> Name(BuiltinOf(s).value) == s
  {
  }

  /** Every builtin is found under its own name, so no two share a name. */
  lemma BuiltinOfName(b: Builtin)
    ensures BuiltinOf(Name(b)) == Some(b)
  {
  }

  // ---------------------------------------------------------------------
  // Values
  // ---------------------------------------------------------------------

  /** The `value` of a constant: the token text from the parser, or a
      number pushed by arithmetic. */
  datatype Atom = Text(s: string) | Num(n: Number)

  /** The tagged record `{type, value}`. A func holds the builtin's code;
      it is identified here by the builtin it belongs to. */
  datatype Value = Const(a: Atom) | Block(items: seq<Value>) | Func(op: Builtin)

  /** A stack entry: a value, or the `undefined` that an out-of-range
      block index pushes. */
  datatype Slot = Val(v: Value) | Undefined

  /** `String(c.value)` of a constant. */
  function AtomString(a: Atom): string {
    match a
    case Text(s) => s
    case Num(n) => NumberToString(n)
  }

  /** `String(items)` of a block: every element is a plain object, which
      prints as "[object Object]", and the elements are joined by ",". */
  function ArrayString(n: nat): string {
    if n == 0 then ""
    else if n == 1 then "[object Object]"
    else ArrayString(n - 1) + ",[object Object]"
  }
}
