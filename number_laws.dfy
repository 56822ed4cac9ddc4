/** Properties of the decimal text of numbers: `parseFloat` reads back what
    `toString` writes, and the digit that `i` picks out of a numeral. */
module NumberLaws {
  import opened Values
  import opened Semantics

  lemma {:induction false} LeadingDigitsOfDigits(s: string)
    requires forall k :: 0 <= k < |s| ==> IsDigit(s[k])
    ensures LeadingDigits(s) == s
  {
    if s != [] {
      LeadingDigitsOfDigits(s[1..]);
      assert [s[0]] + s[1..] == s;
    }
  }

  lemma {:induction false} ValueOfDecimal(n: nat)
    ensures DigitsValue(Decimal(n)) == n
  {
    if n >= 10 {
      ValueOfDecimal(n / 10);
      var s := Decimal(n);
      assert s[..|s| - 1] == Decimal(n / 10);
    }
  }

  lemma ParseFloatOfDecimal(n: nat)
    ensures ParseFloat(Decimal(n)) == Int(n)
  {
    var d := Decimal(n);
    assert IsDigit(d[0]);
    LeadingDigitsOfDigits(d);
    ValueOfDecimal(n);
  }

  lemma ParseFloatOfNegative(n: nat)
    ensures ParseFloat("-" + Decimal(n)) == Int(0 - n)
  {
    var d := Decimal(n);
    var s := "-" + d;
    assert s[1..] == d;
    LeadingDigitsOfDigits(d);
    ValueOfDecimal(n);
  }

  /** `parseFloat(String(n))` is `n` again, NaN included. */
  lemma ParseFloatOfString(n: Number)
    ensures ParseFloat(NumberToString(n)) == n
  {
    match n
    case NaN =>
      assert LeadingDigits("NaN") == [];
    case Int(i) =>
      if i < 0 {
        ParseFloatOfNegative(-i);
      } else {
        ParseFloatOfDecimal(i);
      }
  }

  /** The text of a number is never the name of a builtin, so a numeric
      constant can always be resolved. */
  lemma NumberTextNotBuiltin(n: Number)
    ensures !IsBuiltinName(NumberToString(n))
  {
    match n
    case NaN =>
    case Int(i) =>
      var d := Decimal(if i < 0 then -i else i);
      if i >= 0 && |d| == 1 {
        assert IsDigit(d[0]);
      }
  }

  function Pow10(k: nat): (p: nat)
    ensures p >= 1
  {
    if k == 0 then 1 else 10 * Pow10(k - 1)
  }

  lemma {:induction false} Pow10Grows(j: nat, k: nat)
    requires j <= k
    ensures Pow10(j) <= Pow10(k)
    decreases k
  {
    if j < k {
      Pow10Grows(j, k - 1);
    }
  }

  /** Division is determined by a quotient and an in-range remainder. */
  lemma DivUnique(n: int, d: int, q: int, r: int)
    requires d > 0 && n == d * q + r && 0 <= r < d
    ensures n / d == q
  {
    var q', r' := n / d, n % d;
    assert n == d * q' + r' && 0 <= r' < d;
    assert d * (q' - q) == r - r';
    MulBounds(d, q' - q);
  }

  lemma MulBounds(d: int, x: int)
    requires d > 0
    ensures x >= 1 ==> d * x >= d
    ensures x <= -1 ==> d * x <= -d
  {
    if x >= 1 {
      assert d * x == d * (x - 1) + d;
      assert d * (x - 1) >= 0;
    } else if x <= -1 {
      assert d * x == d * (x + 1) - d;
      assert d * (x + 1) <= 0;
    }
  }

  lemma DivPow10(n: nat, k: nat)
    ensures n / Pow10(k + 1) == (n / 10) / Pow10(k)
  {
    var p := Pow10(k);
    var q := n / 10;
    var r := q / p;
    var s := 10 * (q % p) + n % 10;
    assert q == p * r + q % p;
    assert n == 10 * q + n % 10;
    assert 10 * q == (10 * p) * r + 10 * (q % p);
    assert n == (10 * p) * r + s;
    assert q % p <= p - 1;
    assert s < 10 * p;
    DivUnique(n, 10 * p, r, s);
  }

  /** A numeral has no more digits than its value needs. */
  lemma {:induction false} DecimalBound(n: nat)
    ensures n < Pow10(|Decimal(n)|)
  {
    if n >= 10 {
      DecimalBound(n / 10);
    }
  }

  /** The k-th character from the right of a numeral is its k-th least
      significant digit. */
  lemma {:induction false} DecimalDigit(n: nat, k: nat)
    requires k < |Decimal(n)|
    ensures Decimal(n)[|Decimal(n)| - 1 - k] == DigitChar((n / Pow10(k)) % 10)
  {
    if n >= 10 {
      var s := Decimal(n);
      if k > 0 {
        DecimalDigit(n / 10, k - 1);
        DivPow10(n, k - 1);
        assert s[|s| - 1 - k] == Decimal(n / 10)[|Decimal(n / 10)| - 1 - (k - 1)];
      }
    }
  }

  /** Digit `k` of a non-negative numeral as `i` computes it: the k-th least
      significant digit for every `k >= 0`, "0" once `k` passes the most
      significant digit, and the empty string below 0. */
  lemma DigitAtDecimal(n: nat, k: int)
    ensures k >= 0 ==> DigitAt(Decimal(n), Int(k)) == [DigitChar((n / Pow10(k)) % 10)]
    ensures k < 0 ==> DigitAt(Decimal(n), Int(k)) == ""
  {
    var s := Decimal(n);
    if 0 <= k < |s| {
      DecimalDigit(n, k);
    } else if k >= |s| {
      DecimalBound(n);
      Pow10Grows(|s|, k);
      DivUnique(n, Pow10(k), 0, n);
    }
  }
}
