/**
 What sdk.ParseCoinNormalized (Cosmos SDK 0.50) makes of amount and denom written together: a decimal with at most 18
 places, white space, and a denom of 3 to 128 characters that starts with a letter. Decimals are cut off.
 */
module Coins {
  import opened Wrappers
  import opened Decimals
  import Float64

  /** What a broadcast sends. */
  datatype Payment = Payment(denom: string, amount: nat)

  const PLACES := 18

  /** Amounts scaled by 10^18 have at most 315 bits. */
  const SCALED_LIMIT: int := 0x8000000000000000000000000000000000000000000000000000000000000000000000000000000

  predicate IsLetter(c: char) {
    'a' <= c <= 'z' || 'A' <= c <= 'Z'
  }

  predicate IsDenomChar(c: char) {
    IsLetter(c) || IsDigit(c) || c in {'/', ':', '.', '_', '-'}
  }

  predicate AllDenomChars(s: string) {
    forall i | 0 <= i < |s| :: IsDenomChar(s[i])
  }

  predicate ValidDenom(s: string) {
    3 <= |s| <= 128 && IsLetter(s[0]) && AllDenomChars(s)
  }

  /** White space between number and denom. */
  predicate IsSpace(c: char) {
    c in {' ', '\t', '\n', '\r', '\U{B}', '\U{C}'}
  }

  /** White space around the whole text. */
  predicate IsOuterSpace(c: char) {
    || IsSpace(c) || c in {'\U{85}', '\U{A0}', '\U{1680}', '\U{2028}', '\U{2029}', '\U{202F}', '\U{205F}', '\U{3000}'}
    || '\U{2000}' <= c <= '\U{200A}'
  }

  function TrimLeft(s: string): string {
    if s != "" && IsOuterSpace(s[0]) then TrimLeft(s[1..]) else s
  }

  function TrimRight(s: string): string {
    if s != "" && IsOuterSpace(s[|s| - 1]) then TrimRight(s[..|s| - 1]) else s
  }

  function SkipSpaces(s: string): string {
    if s != "" && IsSpace(s[0]) then SkipSpaces(s[1..]) else s
  }

  predicate IsNumberChar(c: char) {
    IsDigit(c) || c == '.'
  }

  /** The longest start of digits and points. */
  function NumberPart(s: string): (r: string)
    ensures |r| <= |s| && r == s[..|r|]
  {
    if s != "" && IsNumberChar(s[0]) then [s[0]] + NumberPart(s[1..]) else ""
  }

  /** Everything before the first point. */
  function BeforePoint(s: string): (r: string)
    ensures |r| <= |s|
  {
    if s == "" || s[0] == '.' then "" else [s[0]] + BeforePoint(s[1..])
  }

  function Zeros(n: nat): (z: string)
    ensures |z| == n && AllDigits(z)
  {
    if n == 0 then "" else "0" + Zeros(n - 1)
  }

  predicate InRange(whole: string, places: string)
    requires AllDigits(whole) && AllDigits(places) && |places| <= PLACES
  {
    Value(whole + places + Zeros(PLACES - |places|)) < SCALED_LIMIT
  }

  /** A decimal, cut off at the point. */
  function ParseDecimal(s: string): Option<nat> {
    var whole := BeforePoint(s);
    var places := if |whole| < |s| then s[|whole| + 1..] else "";
    if whole == "" || !AllDigits(whole) || !AllDigits(places) || |places| > PLACES then None
    else if |whole| < |s| && places == "" then None
    else if InRange(whole, places) then Some(Value(whole)) else None
  }

  function ParsePayment(text: string): Option<Payment> {
    var t := TrimRight(TrimLeft(text));
    var number := NumberPart(t);
    var denom := SkipSpaces(t[|number|..]);
    var amount :- ParseDecimal(number);
    if ValidDenom(denom) then Some(Payment(denom, amount)) else None
  }

  // ---- Digit strings before a letter ----

  predicate LetterLed(s: string) {
    s != "" && IsLetter(s[0])
  }

  lemma {:induction false} NumberBeforeOther(number: string, rest: string)
    requires (forall i | 0 <= i < |number| :: IsNumberChar(number[i])) && rest != "" && !IsNumberChar(rest[0])
    ensures NumberPart(number + rest) == number
  {
    if number == "" {
      assert number + rest == rest;
    } else {
      assert (number + rest)[1..] == number[1..] + rest;
      NumberBeforeOther(number[1..], rest);
      assert [number[0]] + number[1..] == number;
    }
  }

  lemma {:induction false} NoPointInDigits(s: string)
    requires AllDigits(s)
    ensures BeforePoint(s) == s
  {
    if s != "" {
      NoPointInDigits(s[1..]);
      assert [s[0]] + s[1..] == s;
    }
  }

  lemma NothingToTrim(s: string)
    requires s != "" && !IsOuterSpace(s[0]) && !IsOuterSpace(s[|s| - 1])
    ensures TrimRight(TrimLeft(s)) == s
  {
  }

  lemma DigitsParse(s: string)
    requires IsAmount(s)
    ensures ParseDecimal(s) == if InRange(s, "") then Some(Value(s)) else None
  {
    NoPointInDigits(s);
  }

  lemma NoSpaceInDenom(denom: string)
    requires ValidDenom(denom)
    ensures !IsOuterSpace(denom[|denom| - 1]) && SkipSpaces(denom) == denom
  {
    assert IsDenomChar(denom[|denom| - 1]);
  }

  /** A digit string before a valid denom pays that amount of that denom, unless it is out of range. */
  lemma DigitsPayAsWritten(amount: string, denom: string)
    requires IsAmount(amount) && ValidDenom(denom)
    ensures ParsePayment(amount + denom) == if InRange(amount, "") then Some(Payment(denom, Value(amount))) else None
  {
    var text := amount + denom;
    NoSpaceInDenom(denom);
    assert text[|text| - 1] == denom[|denom| - 1];
    NothingToTrim(text);
    NumberBeforeOther(amount, denom);
    assert text[|amount|..] == denom;
    DigitsParse(amount);
  }

  /** Amounts of up to 76 digits are in range. */
  lemma ShortAmountInRange(amount: string)
    requires IsAmount(amount) && |amount| <= 76
    ensures InRange(amount, "")
  {
    var scaled := amount + "" + Zeros(PLACES);
    ValueBelowPow10(scaled);
    Pow10Monotone(|scaled|, 94);
    TenTo94InRange();
  }

  lemma {:induction false} Pow10Sum(m: nat, n: nat)
    ensures Pow10(m + n) == Pow10(m) * Pow10(n)
  {
    if m > 0 {
      Pow10Sum(m - 1, n);
      assert Pow10(m + n) == 10 * Pow10(m - 1 + n);
    }
  }

  lemma Pow10Doubles(m: nat, p: nat)
    requires Pow10(m) == p
    ensures Pow10(m + m) == p * p
  {
    Pow10Sum(m, m);
  }

  lemma TenTo94InRange()
    ensures Pow10(94) <= SCALED_LIMIT
  {
    var n := 3;
    assert Pow10(n) == 1000;
    Pow10Doubles(n, 1000);
    Pow10Doubles(n + n, 1_000_000);
    Pow10Doubles(12, 1_000_000_000_000);
    Pow10Doubles(24, 1_000_000_000_000_000_000_000_000);
    Pow10Sum(48, 48);
    Pow10Sum(94, 2);
    assert Pow10(94) * 100 == Pow10(96);
  }

  // ---- What other text does ----

  lemma ParsedDenomIsValid(text: string)
    ensures ParsePayment(text).Some? ==> ValidDenom(ParsePayment(text).value.denom)
  {
  }

  lemma {:induction false} TrimRightKeepsFirst(s: string)
    requires s != "" && !IsOuterSpace(s[0])
    ensures TrimRight(s) != "" && TrimRight(s)[0] == s[0]
    decreases |s|
  {
    if |s| > 1 && IsOuterSpace(s[|s| - 1]) {
      TrimRightKeepsFirst(s[..|s| - 1]);
    }
  }

  /** Text that starts with a sign is no payment. */
  lemma SignIsNoPayment(text: string)
    requires text != "" && text[0] in {'+', '-'}
    ensures ParsePayment(text) == None
  {
    TrimRightKeepsFirst(text);
    assert NumberPart(TrimRight(text)) == "";
  }

  /** Among the texts that are sent at all, the amounts that read as integers are the digit strings. */
  lemma SentIntegersAreDigits(amount: string, denom: string)
    requires ParsePayment(amount + denom).Some?
    ensures ParseInteger(amount).Some? <==> IsAmount(amount)
  {
    if ParseInteger(amount).Some? && !IsAmount(amount) {
      assert (amount + denom)[0] == amount[0];
      SignIsNoPayment(amount + denom);
    }
  }

  /** A broadcast sends the signed number of the signed denom exactly for digits before a valid denom. */
  lemma SentAsSignedIff(amount: string, denom: string)
    requires ParsePayment(amount + denom).Some?
    ensures var sent := ParsePayment(amount + denom).value;
      (sent.denom == denom && ParseInteger(amount) == Some(sent.amount)) <==> (IsAmount(amount) && ValidDenom(denom))
  {
    ParsedDenomIsValid(amount + denom);
    SentIntegersAreDigits(amount, denom);
    if IsAmount(amount) && ValidDenom(denom) {
      DigitsPayAsWritten(amount, denom);
    }
  }

  /** Text that is no integer can still be sent: one unit of another denom, which the signed one only ends. */
  lemma OtherDenomIsSent(denom: string)
    requires ValidDenom(denom) && |denom| <= 126
    ensures ParsePayment("1a/" + denom) == Some(Payment("a/" + denom, 1)) && ParseInteger("1a/") == None
  {
    var one, other := "1", "a/" + denom;
    assert "1a/" + denom == one + other;
    ShortAmountInRange(one);
    DigitsPayAsWritten(one, other);
    assert one[..0] == "" && Value(one) == 1;
  }

  // ---- The texts that are payments ----

  predicate AllOuterSpace(s: string) {
    forall i | 0 <= i < |s| :: IsOuterSpace(s[i])
  }

  predicate AllSpace(s: string) {
    forall i | 0 <= i < |s| :: IsSpace(s[i])
  }

  lemma NextPower(n: nat, p: nat)
    requires Float64.Pow2(n) == p
    ensures Float64.Pow2(n + n) == p * p && Float64.Pow2(n + n + 1) == 2 * (p * p)
  {
    Float64.Pow2Sum(n, n);
  }

  lemma ScaledLimitIsPowerOf2()
    ensures SCALED_LIMIT == Float64.Pow2(315)
  {
    var n := 4;
    assert Float64.Pow2(n) == 16;
    NextPower(n, 16);
    NextPower(9, 0x200);
    NextPower(19, 0x8_0000);
    NextPower(39, 0x80_0000_0000);
    NextPower(78, 0x4000_0000_0000_0000_0000);
    NextPower(157, 0x2000_0000_0000_0000_0000_0000_0000_0000_0000_0000);
  }

  /** Nothing, or a point and one to eighteen digits. */
  predicate IsFraction(f: string) {
    f == "" || (2 <= |f| <= 19 && f[0] == '.' && AllDigits(f[1..]))
  }

  function Places(f: string): (p: string)
    requires IsFraction(f)
    ensures AllDigits(p) && |p| <= 18
  {
    if f == "" then "" else f[1..]
  }

  /** The decimal w.p, scaled by 10^18, has at most 315 bits. */
  predicate Fits(w: string, p: string)
    requires AllDigits(w) && AllDigits(p) && |p| <= 18
  {
    Value(w) * 1_000_000_000_000_000_000 + Value(p) * Pow10(18 - |p|) < SCALED_LIMIT
  }

  /** The text is white space, digits, a fraction, white space, the denom, and white space. */
  ghost predicate SpellsPayment(text: string, left: string, w: string, f: string, mid: string, right: string,
                                sent: Payment)
  {
    && text == left + (w + f + (mid + sent.denom)) + right
    && AllOuterSpace(left) && AllOuterSpace(right) && AllSpace(mid)
    && IsAmount(w) && IsFraction(f) && ValidDenom(sent.denom)
    && sent.amount == Value(w) && Fits(w, Places(f))
  }

  lemma {:induction false} ValueConcat(s: string, t: string)
    requires AllDigits(s) && AllDigits(t)
    ensures Value(s + t) == Value(s) * Pow10(|t|) + Value(t)
    decreases |t|
  {
    if t == "" {
      assert s + t == s;
    } else {
      var u, front := s + t, t[..|t| - 1];
      assert u[..|u| - 1] == s + front;
      ValueConcat(s, front);
      Times10(Value(s), Pow10(|front|));
    }
  }

  lemma Times10(x: nat, p: nat)
    ensures x * p * 10 == x * (10 * p)
  {
  }

  lemma {:induction false} ValueOfZeros(n: nat)
    ensures Value(Zeros(n)) == 0
  {
    if n > 0 {
      ValueOfZeros(n - 1);
      ValueConcat("0", Zeros(n - 1));
      var zero := "0";
      assert zero[..0] == "" && Value(zero) == 0;
    }
  }

  lemma Spread(w: nat, p: nat, a: nat, b: nat)
    ensures (w * a + p) * b == w * (a * b) + p * b
  {
  }

  lemma ScaledValue(w: string, p: string, n: nat)
    requires AllDigits(w) && AllDigits(p) && |p| <= n
    ensures Value(w + p + Zeros(n - |p|)) == Value(w) * Pow10(n) + Value(p) * Pow10(n - |p|)
  {
    var k := n - |p|;
    ValueConcat(w, p);
    ValueConcat(w + p, Zeros(k));
    ValueOfZeros(k);
    Spread(Value(w), Value(p), Pow10(|p|), Pow10(k));
    Pow10Sum(|p|, k);
  }

  lemma TenTo18(n: nat)
    requires n == 18
    ensures Pow10(n) == 1_000_000_000_000_000_000
  {
    var k := 3;
    assert Pow10(k) == 1000;
    Pow10Doubles(k, 1000);
    Pow10Doubles(k + k, 1_000_000);
    Pow10Sum(12, 6);
  }

  /** The range check on the text, in numbers. */
  lemma InRangeFits(w: string, p: string, n: nat)
    requires AllDigits(w) && AllDigits(p) && |p| <= n == PLACES
    ensures InRange(w, p) <==> Fits(w, p)
  {
    ScaledValue(w, p, n);
    TenTo18(n);
  }

  lemma {:induction false} PointEnds(w: string, f: string)
    requires AllDigits(w) && (f == "" || f[0] == '.')
    ensures BeforePoint(w + f) == w
  {
    if w == "" {
      assert w + f == f;
    } else {
      assert (w + f)[1..] == w[1..] + f;
      PointEnds(w[1..], f);
    }
  }

  lemma {:induction false} BeforePointSplits(s: string)
    ensures BeforePoint(s) == s[..|BeforePoint(s)|]
    ensures |BeforePoint(s)| < |s| ==> s[|BeforePoint(s)|] == '.'
  {
    if s != "" && s[0] != '.' {
      BeforePointSplits(s[1..]);
    }
  }

  lemma DecimalReads(w: string, f: string)
    requires IsAmount(w) && IsFraction(f)
    ensures ParseDecimal(w + f) == if Fits(w, Places(f)) then Some(Value(w)) else None
  {
    PointEnds(w, f);
    InRangeFits(w, Places(f), PLACES);
    assert |w| < |w + f| ==> (w + f)[|w| + 1..] == f[1..];
  }

  lemma ReadDecimal(s: string) returns (w: string, f: string)
    requires ParseDecimal(s).Some?
    ensures s == w + f && IsAmount(w) && IsFraction(f) && Fits(w, Places(f)) && ParseDecimal(s) == Some(Value(w))
  {
    BeforePointSplits(s);
    w := BeforePoint(s);
    f := s[|w|..];
    assert |w| < |s| ==> f[1..] == s[|w| + 1..];
    InRangeFits(w, Places(f), PLACES);
  }

  lemma {:induction false} TrimLeftSplits(s: string)
    ensures |TrimLeft(s)| <= |s| && s[|s| - |TrimLeft(s)|..] == TrimLeft(s)
    ensures AllOuterSpace(s[..|s| - |TrimLeft(s)|])
  {
    if s != "" && IsOuterSpace(s[0]) {
      TrimLeftSplits(s[1..]);
      var n := |s| - |TrimLeft(s)|;
      assert s[..n] == [s[0]] + s[1..][..n - 1];
    }
  }

  lemma {:induction false} TrimRightSplits(s: string)
    ensures |TrimRight(s)| <= |s| && s[..|TrimRight(s)|] == TrimRight(s)
    ensures AllOuterSpace(s[|TrimRight(s)|..])
    decreases |s|
  {
    if s != "" && IsOuterSpace(s[|s| - 1]) {
      var front := s[..|s| - 1];
      TrimRightSplits(front);
      assert s[|TrimRight(s)|..] == front[|TrimRight(s)|..] + [s[|s| - 1]];
    }
  }

  lemma {:induction false} SkipSpacesSplits(s: string)
    ensures |SkipSpaces(s)| <= |s| && s[|s| - |SkipSpaces(s)|..] == SkipSpaces(s)
    ensures AllSpace(s[..|s| - |SkipSpaces(s)|])
  {
    if s != "" && IsSpace(s[0]) {
      SkipSpacesSplits(s[1..]);
      var n := |s| - |SkipSpaces(s)|;
      assert s[..n] == [s[0]] + s[1..][..n - 1];
    }
  }

  lemma {:induction false} TrimLeftDrops(left: string, s: string)
    requires AllOuterSpace(left) && s != "" && !IsOuterSpace(s[0])
    ensures TrimLeft(left + s) == s
  {
    if left == "" {
      assert left + s == s;
    } else {
      assert (left + s)[1..] == left[1..] + s;
      TrimLeftDrops(left[1..], s);
    }
  }

  lemma {:induction false} TrimRightDrops(s: string, right: string)
    requires AllOuterSpace(right) && s != "" && !IsOuterSpace(s[|s| - 1])
    ensures TrimRight(s + right) == s
    decreases |right|
  {
    if right == "" {
      assert s + right == s;
    } else {
      var u, front := s + right, right[..|right| - 1];
      assert u[..|u| - 1] == s + front;
      TrimRightDrops(s, front);
    }
  }

  lemma {:induction false} SkipSpacesDrops(mid: string, s: string)
    requires AllSpace(mid) && LetterLed(s)
    ensures SkipSpaces(mid + s) == s
  {
    if mid == "" {
      assert mid + s == s && !IsSpace(s[0]);
    } else {
      assert (mid + s)[1..] == mid[1..] + s;
      SkipSpacesDrops(mid[1..], s);
    }
  }

  lemma TrimDrops(left: string, body: string, right: string)
    requires AllOuterSpace(left) && AllOuterSpace(right)
    requires body != "" && !IsOuterSpace(body[0]) && !IsOuterSpace(body[|body| - 1])
    ensures TrimRight(TrimLeft(left + body + right)) == body
  {
    assert left + body + right == left + (body + right) && (body + right)[0] == body[0];
    TrimLeftDrops(left, body + right);
    TrimRightDrops(body, right);
  }

  lemma BodyReads(w: string, f: string, mid: string, denom: string)
    requires IsAmount(w) && IsFraction(f) && AllSpace(mid) && ValidDenom(denom)
    ensures var body := w + f + (mid + denom);
      && NumberPart(body) == w + f && SkipSpaces(body[|w + f|..]) == denom
      && !IsOuterSpace(body[0]) && !IsOuterSpace(body[|body| - 1])
  {
    var number, rest := w + f, mid + denom;
    NumberBeforeOther(number, rest);
    assert (number + rest)[|number|..] == rest;
    SkipSpacesDrops(mid, denom);
    NoSpaceInDenom(denom);
    assert rest[|rest| - 1] == denom[|denom| - 1] && (number + rest)[0] == w[0];
  }

  /** Reading back what the grammar spells. */
  lemma SpelledIsRead(text: string, left: string, w: string, f: string, mid: string, right: string, sent: Payment)
    requires SpellsPayment(text, left, w, f, mid, right, sent)
    ensures ParsePayment(text) == Some(sent)
  {
    BodyReads(w, f, mid, sent.denom);
    TrimDrops(left, w + f + (mid + sent.denom), right);
    DecimalReads(w, f);
  }

  lemma TrimSplits(text: string) returns (left: string, right: string)
    ensures text == left + TrimRight(TrimLeft(text)) + right && AllOuterSpace(left) && AllOuterSpace(right)
  {
    var u := TrimLeft(text);
    TrimLeftSplits(text);
    TrimRightSplits(u);
    left, right := text[..|text| - |u|], u[|TrimRight(u)|..];
    assert u == TrimRight(u) + right && text == left + u;
  }

  lemma BodySplits(t: string) returns (mid: string)
    ensures t == NumberPart(t) + (mid + SkipSpaces(t[|NumberPart(t)|..])) && AllSpace(mid)
  {
    var rest := t[|NumberPart(t)|..];
    SkipSpacesSplits(rest);
    mid := rest[..|rest| - |SkipSpaces(rest)|];
    assert rest == mid + SkipSpaces(rest);
  }

  lemma ReadIsSpelled(text: string)
    returns (left: string, w: string, f: string, mid: string, right: string)
    requires ParsePayment(text).Some?
    ensures SpellsPayment(text, left, w, f, mid, right, ParsePayment(text).value)
  {
    left, right := TrimSplits(text);
    var t := TrimRight(TrimLeft(text));
    mid := BodySplits(t);
    w, f := ReadDecimal(NumberPart(t));
  }

  /** A text is sent as a payment exactly when it spells one; the fraction counts for the range only. */
  lemma PaymentIff(text: string, sent: Payment)
    ensures (ParsePayment(text) == Some(sent)
      <==> exists left, w, f, mid, right :: SpellsPayment(text, left, w, f, mid, right, sent))
  {
    if ParsePayment(text) == Some(sent) {
      var left, w, f, mid, right := ReadIsSpelled(text);
    }
    if left, w, f, mid, right :| SpellsPayment(text, left, w, f, mid, right, sent) {
      SpelledIsRead(text, left, w, f, mid, right, sent);
    }
  }
}
