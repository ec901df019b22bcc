/** Decimal text: printing and reading natural numbers, and the amount comparison of facilitator/verify.go. */
module Decimals {
  import opened Wrappers

  predicate IsDigit(c: char) {
    '0' <= c <= '9'
  }

  predicate AllDigits(s: string) {
    forall i | 0 <= i < |s| :: IsDigit(s[i])
  }

  /** A non-negative integer string: no sign, no point, at least one digit. */
  predicate IsAmount(s: string) {
    s != "" && AllDigits(s)
  }

  function DigitValue(c: char): nat
    requires IsDigit(c)
  {
    c as int - '0' as int
  }

  function DigitChar(d: nat): char
    requires d < 10
  {
    ('0' as int + d) as char
  }

  /** The number a digit string denotes; leading zeros allowed. */
  function Value(s: string): nat
    requires AllDigits(s)
  {
    if s == "" then 0 else Value(s[..|s| - 1]) * 10 + DigitValue(s[|s| - 1])
  }

  /** Decimal text without leading zeros, "0" for zero. */
  function Digits(n: nat): string {
    if n < 10 then [DigitChar(n)] else Digits(n / 10) + [DigitChar(n % 10)]
  }

  lemma {:induction false} ValueOfDigits(n: nat)
    ensures IsAmount(Digits(n)) && Value(Digits(n)) == n
    ensures Digits(n)[0] == '0' ==> n == 0 && |Digits(n)| == 1
  {
    if n < 10 {
    } else {
      ValueOfDigits(n / 10);
      var s := Digits(n);
      assert s[..|s| - 1] == Digits(n / 10);
    }
  }

  /** Reading an optionally signed base-10 integer of any length; None when the text is not one. */
  function ParseInteger(s: string): Option<int> {
    if IsAmount(s) then Some(Value(s))
    else if s != "" && s[0] == '+' && IsAmount(s[1..]) then Some(Value(s[1..]))
    else if s != "" && s[0] == '-' && IsAmount(s[1..]) then Some(0 - Value(s[1..]))
    else None
  }

  /** t is digits, and s is t with at most one sign in front. */
  predicate Signed(s: string, t: string, n: int) {
    IsAmount(t) && (((s == t || s == "+" + t) && n == Value(t)) || (s == "-" + t && n == 0 - Value(t)))
  }

  /** Digits with at most one sign in front read as an integer, and nothing else does. */
  lemma IntegersRead(s: string, n: int)
    ensures ParseInteger(s) == Some(n) <==> exists t :: Signed(s, t, n)
  {
    if ParseInteger(s) == Some(n) {
      assert Signed(s, if IsAmount(s) then s else s[1..], n);
    }
    if t :| Signed(s, t, n) {
      assert s != t ==> s[1..] == t && !IsDigit(s[0]);
    }
  }

  function Sign(n: int): int {
    if n < 0 then -1 else if n == 0 then 0 else 1
  }

  /** Unparseable operands compare equal, as in the source. */
  function CmpAmounts(a: string, b: string): int {
    match (ParseInteger(a), ParseInteger(b))
    case (Some(x), Some(y)) => Sign(x - y)
    case _ => 0
  }

  // ---- The comparison a reader would write on the text alone ----

  function StripZeros(s: string): (r: string)
    requires AllDigits(s)
    ensures AllDigits(r) && (r == "" || r[0] != '0')
  {
    if s != "" && s[0] == '0' then StripZeros(s[1..]) else s
  }

  /** Order of two equally long digit strings: the first difference decides. */
  function Lexicographic(a: string, b: string): int
    requires |a| == |b|
  {
    if a == "" then 0
    else if a[0] < b[0] then -1
    else if a[0] > b[0] then 1
    else Lexicographic(a[1..], b[1..])
  }

  function CompareText(a: string, b: string): int
    requires IsAmount(a) && IsAmount(b)
  {
    var x, y := StripZeros(a), StripZeros(b);
    if |x| < |y| then -1 else if |x| > |y| then 1 else Lexicographic(x, y)
  }

  function Pow10(n: nat): (p: nat)
    ensures p >= 1
  {
    if n == 0 then 1 else 10 * Pow10(n - 1)
  }

  /** Value read from the most significant digit. */
  lemma {:induction false} ValueFromFront(s: string)
    requires AllDigits(s) && s != ""
    ensures Value(s) == DigitValue(s[0]) * Pow10(|s| - 1) + Value(s[1..])
    ensures Value(s[1..]) < Pow10(|s| - 1)
  {
    if |s| > 1 {
      var front := s[..|s| - 1];
      ValueFromFront(front);
      assert s[1..][..|s[1..]| - 1] == front[1..];
      ShiftDigit(DigitValue(s[0]), Pow10(|s| - 2), Value(front[1..]));
    }
  }

  lemma ShiftDigit(d: nat, p: nat, v: nat)
    ensures (d * p + v) * 10 == d * (10 * p) + v * 10
  {
  }

  lemma {:induction false} StripKeepsValue(s: string)
    requires AllDigits(s)
    ensures Value(StripZeros(s)) == Value(s)
  {
    if s != "" && s[0] == '0' {
      ValueFromFront(s);
      StripKeepsValue(s[1..]);
    }
  }

  lemma LeadingDigitDecides(x: nat, y: nat, p: nat, low: nat, high: nat)
    requires x < y && low < p
    ensures x * p + low < y * p + high
  {
    var d := y - x;
    assert y * p == x * p + d * p;
    assert d * p == p + (d - 1) * p;
    assert (d - 1) * p >= 0;
  }

  lemma {:induction false} LexicographicIsOrder(a: string, b: string)
    requires AllDigits(a) && AllDigits(b) && |a| == |b|
    ensures Lexicographic(a, b) == Sign(Value(a) - Value(b))
  {
    if a != "" {
      ValueFromFront(a);
      ValueFromFront(b);
      var p := Pow10(|a| - 1);
      var x, y := DigitValue(a[0]), DigitValue(b[0]);
      if x < y {
        LeadingDigitDecides(x, y, p, Value(a[1..]), Value(b[1..]));
      } else if x > y {
        LeadingDigitDecides(y, x, p, Value(b[1..]), Value(a[1..]));
      } else {
        LexicographicIsOrder(a[1..], b[1..]);
      }
    }
  }

  lemma {:induction false} Pow10Monotone(m: nat, n: nat)
    requires m <= n
    ensures Pow10(m) <= Pow10(n)
  {
    if m < n {
      Pow10Monotone(m, n - 1);
    }
  }

  lemma {:induction false} ValueBelowPow10(s: string)
    requires AllDigits(s)
    ensures Value(s) < Pow10(|s|)
  {
    if s != "" {
      ValueBelowPow10(s[..|s| - 1]);
    }
  }

  lemma AtLeastPow10(s: string)
    requires AllDigits(s) && s != "" && s[0] != '0'
    ensures Value(s) >= Pow10(|s| - 1)
  {
    ValueFromFront(s);
    AtLeastOnce(DigitValue(s[0]), Pow10(|s| - 1));
  }

  lemma AtLeastOnce(d: nat, p: nat)
    requires d >= 1
    ensures d * p >= p
  {
    assert d * p == (d - 1) * p + p;
  }

  lemma ShorterIsSmaller(a: string, b: string)
    requires AllDigits(a) && AllDigits(b) && |a| < |b| && b[0] != '0'
    ensures Value(a) < Value(b)
  {
    AtLeastPow10(b);
    ValueBelowPow10(a);
    Pow10Monotone(|a|, |b| - 1);
  }

  /** On digit strings of any length the big-integer comparison is "strip zeros, then length, then text". */
  lemma CmpAmountsIsTextOrder(a: string, b: string)
    requires IsAmount(a) && IsAmount(b)
    ensures CmpAmounts(a, b) == CompareText(a, b) == Sign(Value(a) - Value(b))
  {
    StripKeepsValue(a);
    StripKeepsValue(b);
    var x, y := StripZeros(a), StripZeros(b);
    if |x| < |y| {
      ShorterIsSmaller(x, y);
    } else if |x| > |y| {
      ShorterIsSmaller(y, x);
    } else {
      LexicographicIsOrder(x, y);
    }
  }

  /** A total preorder on text that parses. */
  lemma CmpAmountsPreorder(a: string, b: string, c: string)
    requires ParseInteger(a).Some? && ParseInteger(b).Some? && ParseInteger(c).Some?
    ensures CmpAmounts(a, b) == -CmpAmounts(b, a)
    ensures CmpAmounts(a, b) <= 0 && CmpAmounts(b, c) <= 0 ==> CmpAmounts(a, c) <= 0
    ensures CmpAmounts(a, b) == 0 <==> ParseInteger(a) == ParseInteger(b)
  {
    assert ParseInteger(a) == Some(ParseInteger(a).value) && ParseInteger(b) == Some(ParseInteger(b).value);
  }

  /** Comparison with every amount is meaningful exactly for text that parses: unparseable text equals both 0 and 1. */
  lemma OrderIffParseable(a: string)
    ensures ParseInteger(a).None? <==> CmpAmounts(a, "0") == 0 && CmpAmounts(a, "1") == 0
  {
    assert ParseInteger("0") == Some(0);
    assert ParseInteger("1") == Some(1) by {
      assert "1"[..0] == "";
    }
  }
}
