/**
 JSON text as encoding/json writes and reads it: a printer without whitespace that also escapes HTML characters,
 and a recursive-descent reader (sections 4, 5, 6 and 7 of RFC 8259). Numbers are non-negative integers.
 */
module Json {
  import opened Wrappers
  import opened Decimals

  datatype Json =
    | Str(text: string)
    | Num(number: nat)
    | Arr(items: Items)
    | Obj(members: Members)

  datatype Items = NoItems | Item(head: Json, tail: Items)

  datatype Members = NoMembers | Member(key: string, value: Json, rest: Members)

  // ---- Printing ----

  function HexDigit(d: nat): char
    requires d < 16
  {
    if d < 10 then DigitChar(d) else ('a' as int + d - 10) as char
  }

  function UnicodeEscape(code: nat): string
    requires code < 0x10000
  {
    ['\\', 'u', HexDigit(code / 4096), HexDigit(code / 256 % 16), HexDigit(code / 16 % 16), HexDigit(code % 16)]
  }

  function Escape(c: char): string {
    match c
    case '"' => "\\\""
    case '\\' => "\\\\"
    case '\U{8}' => "\\b"
    case '\U{C}' => "\\f"
    case '\n' => "\\n"
    case '\r' => "\\r"
    case '\t' => "\\t"
    case _ =>
      if c < ' ' || c in {'<', '>', '&', '\U{2028}', '\U{2029}'} then UnicodeEscape(c as nat) else [c]
  }

  function EscapeAll(s: string): string {
    if s == "" then "" else Escape(s[0]) + EscapeAll(s[1..])
  }

  /** The characters that have an escape of their own. */
  lemma NamedEscapes(c: char)
    ensures c == '"' ==> Escape(c) == "\\\""
    ensures c == '\\' ==> Escape(c) == "\\\\"
    ensures c as int == 8 ==> Escape(c) == "\\b"
    ensures c as int == 9 ==> Escape(c) == "\\t"
    ensures c as int == 10 ==> Escape(c) == "\\n"
    ensures c as int == 12 ==> Escape(c) == "\\f"
    ensures c as int == 13 ==> Escape(c) == "\\r"
    ensures c == '<' ==> Escape(c) == "\\u003c"
    ensures c == '>' ==> Escape(c) == "\\u003e"
    ensures c == '&' ==> Escape(c) == "\\u0026"
    ensures c as int == 0x2028 ==> Escape(c) == "\\u2028"
    ensures c as int == 0x2029 ==> Escape(c) == "\\u2029"
  {
  }

  lemma HexDigits(d: nat)
    requires d < 16
    ensures HexDigit(d) == "0123456789abcdef"[d]
  {
    var hex := "0123456789abcdef";
    assert forall i | 0 <= i < 10 :: hex[i] as int == '0' as int + i;
    assert forall i | 10 <= i < 16 :: hex[i] as int == 'a' as int + i - 10;
  }

  /** The other control characters are written as two hexadecimal digits after \u00, and all else as it is. */
  lemma OtherEscapes(c: char)
    requires c !in {'"', '\\', '<', '>', '&'} && c as int !in {8, 9, 10, 12, 13, 0x2028, 0x2029}
    ensures Escape(c) ==
      if c as int < 32 then "\\u00" + ["0123456789abcdef"[c as int / 16], "0123456789abcdef"[c as int % 16]] else [c]
  {
    if c as int < 32 {
      HexDigits(c as int / 16);
      HexDigits(c as int % 16);
      HexDigits(0);
    }
  }

  /** Each character is escaped in its place. */
  lemma {:induction false} EscapedInPlace(s: string, c: char, t: string)
    ensures EscapeAll(s + [c] + t) == EscapeAll(s) + Escape(c) + EscapeAll(t)
  {
    if s == "" {
      assert s + [c] + t == [c] + t;
    } else {
      assert (s + [c] + t)[1..] == s[1..] + [c] + t;
      EscapedInPlace(s[1..], c, t);
    }
  }

  function Quote(s: string): string {
    "\"" + EscapeAll(s) + "\""
  }

  function Print(j: Json): string {
    match j
    case Str(text) => Quote(text)
    case Num(number) => Digits(number)
    case Arr(items) => "[" + PrintItems(items) + "]"
    case Obj(members) => "{" + PrintMembers(members) + "}"
  }

  function PrintItems(items: Items): string {
    match items
    case NoItems => ""
    case Item(head, NoItems) => Print(head)
    case Item(head, tail) => Print(head) + "," + PrintItems(tail)
  }

  function PrintMembers(members: Members): string {
    match members
    case NoMembers => ""
    case Member(key, value, NoMembers) => Quote(key) + ":" + Print(value)
    case Member(key, value, rest) => Quote(key) + ":" + Print(value) + "," + PrintMembers(rest)
  }

  // ---- Reading: each reader returns what it read and the text that follows ----

  function HexValue(c: char): Option<nat> {
    if '0' <= c <= '9' then Some(c as nat - '0' as nat)
    else if 'a' <= c <= 'f' then Some(c as nat - 'a' as nat + 10)
    else if 'A' <= c <= 'F' then Some(c as nat - 'A' as nat + 10)
    else None
  }

  function ReadHex4(s: string): (r: Option<nat>)
    ensures r.Some? ==> |s| >= 4 && r.value < 0x10000
  {
    if |s| < 4 then None
    else
      var a :- HexValue(s[0]);
      var b :- HexValue(s[1]);
      var c :- HexValue(s[2]);
      var d :- HexValue(s[3]);
      if a < 16 && b < 16 && c < 16 && d < 16 then Some(a * 4096 + b * 256 + c * 16 + d) else None
  }

  /** The character of a \u escape: a surrogate pair is joined, a lone surrogate becomes U+FFFD. */
  function ReadUnicode(s: string): (r: Option<(char, string)>)
    ensures r.Some? ==> |r.value.1| < |s|
  {
    var hi :- ReadHex4(s);
    if hi < 0xD800 || 0xE000 <= hi then Some((hi as char, s[4..]))
    else if hi < 0xDC00 && |s| > 6 && s[4] == '\\' && s[5] == 'u' then
      var lo :- ReadHex4(s[6..]);
      if 0xDC00 <= lo < 0xE000 then
        Some(((0x10000 + (hi - 0xD800) * 0x400 + (lo - 0xDC00)) as char, s[10..]))
      else Some(('\U{FFFD}', s[4..]))
    else Some(('\U{FFFD}', s[4..]))
  }

  /** One character of a string body, escaped or not. */
  function ReadChar(s: string): (r: Option<(char, string)>)
    ensures r.Some? ==> |r.value.1| < |s|
  {
    if s == "" || s[0] < ' ' then None
    else if s[0] != '\\' then Some((s[0], s[1..]))
    else if |s| < 2 then None
    else match s[1]
      case '"' => Some(('"', s[2..]))
      case '\\' => Some(('\\', s[2..]))
      case '/' => Some(('/', s[2..]))
      case 'b' => Some(('\U{8}', s[2..]))
      case 'f' => Some(('\U{C}', s[2..]))
      case 'n' => Some(('\n', s[2..]))
      case 'r' => Some(('\r', s[2..]))
      case 't' => Some(('\t', s[2..]))
      case 'u' => ReadUnicode(s[2..])
      case _ => None
  }

  /** The rest of a string after its opening quote. */
  function ReadText(s: string): (r: Option<(string, string)>)
    ensures r.Some? ==> |r.value.1| < |s|
    decreases |s|
  {
    if s != "" && s[0] == '"' then Some(("", s[1..]))
    else
      var (c, afterChar) :- ReadChar(s);
      var (text, rest) :- ReadText(afterChar);
      Some(([c] + text, rest))
  }

  function LeadingDigits(s: string): (d: string)
    ensures |d| <= |s| && d == s[..|d|] && AllDigits(d)
  {
    if s != "" && IsDigit(s[0]) then [s[0]] + LeadingDigits(s[1..]) else ""
  }

  /** No leading zeros: "0" is read alone. */
  function ReadNumber(s: string): (r: Option<(nat, string)>)
    ensures r.Some? ==> |r.value.1| < |s|
  {
    var d := LeadingDigits(s);
    if d == "" then None
    else if d[0] == '0' then Some((0, s[1..]))
    else Some((Value(d), s[|d|..]))
  }

  function Read(s: string): (r: Option<(Json, string)>)
    ensures r.Some? ==> |r.value.1| < |s|
    decreases |s|, 0
  {
    if s == "" then None
    else if s[0] == '"' then
      var (text, rest) :- ReadText(s[1..]);
      Some((Str(text), rest))
    else if s[0] == '[' then
      if |s| > 1 && s[1] == ']' then Some((Arr(NoItems), s[2..]))
      else
        var (items, rest) :- ReadItems(s[1..]);
        Some((Arr(items), rest))
    else if s[0] == '{' then
      if |s| > 1 && s[1] == '}' then Some((Obj(NoMembers), s[2..]))
      else
        var (members, rest) :- ReadMembers(s[1..]);
        Some((Obj(members), rest))
    else
      var (number, rest) :- ReadNumber(s);
      Some((Num(number), rest))
  }

  function ReadItems(s: string): (r: Option<(Items, string)>)
    ensures r.Some? ==> |r.value.1| < |s|
    decreases |s|, 1
  {
    var (head, afterHead) :- Read(s);
    if afterHead != "" && afterHead[0] == ']' then Some((Item(head, NoItems), afterHead[1..]))
    else if afterHead != "" && afterHead[0] == ',' then
      var (tail, rest) :- ReadItems(afterHead[1..]);
      Some((Item(head, tail), rest))
    else None
  }

  function ReadMembers(s: string): (r: Option<(Members, string)>)
    ensures r.Some? ==> |r.value.1| < |s|
    decreases |s|, 1
  {
    if s == "" || s[0] != '"' then None
    else
      var (key, afterKey) :- ReadText(s[1..]);
      if afterKey == "" || afterKey[0] != ':' then None
      else
        var (value, afterValue) :- Read(afterKey[1..]);
        if afterValue != "" && afterValue[0] == '}' then Some((Member(key, value, NoMembers), afterValue[1..]))
        else if afterValue != "" && afterValue[0] == ',' then
          var (rest, after) :- ReadMembers(afterValue[1..]);
          Some((Member(key, value, rest), after))
        else None
  }

  /** A whole document: nothing may follow the value. */
  function Parse(s: string): Option<Json> {
    var (j, rest) :- Read(s);
    if rest == "" then Some(j) else None
  }

  // ---- Reading undoes printing ----

  lemma HexDigitsSum(code: nat)
    requires code < 0x10000
    ensures code / 4096 * 4096 + code / 256 % 16 * 256 + code / 16 % 16 * 16 + code % 16 == code
  {
    assert code / 256 == code / 4096 * 16 + code / 256 % 16;
    assert code / 16 == code / 256 * 16 + code / 16 % 16;
  }

  lemma ReadHex4OfEscape(code: nat, s: string)
    requires code < 0x10000 && |s| >= 4 && s[..4] == UnicodeEscape(code)[2..]
    ensures ReadHex4(s) == Some(code)
  {
    var a, b, c, d := code / 4096, code / 256 % 16, code / 16 % 16, code % 16;
    HexRoundTrip(a);
    HexRoundTrip(b);
    HexRoundTrip(c);
    HexRoundTrip(d);
    HexDigitsSum(code);
    assert s[..4] == [HexDigit(a), HexDigit(b), HexDigit(c), HexDigit(d)];
    assert s[0] == s[..4][0] && s[1] == s[..4][1] && s[2] == s[..4][2] && s[3] == s[..4][3];
  }

  lemma HexRoundTrip(d: nat)
    requires d < 16
    ensures HexValue(HexDigit(d)) == Some(d)
  {
  }

  /** Escapes are self-delimiting and never start with the closing quote. */
  lemma ReadCharOfEscape(c: char, rest: string)
    ensures ReadChar(Escape(c) + rest) == Some((c, rest))
    ensures Escape(c) != "" && Escape(c)[0] != '"'
  {
    var e := Escape(c);
    if |e| == 6 {
      var s := (e + rest)[2..];
      ReadHex4OfEscape(c as nat, s);
      assert s[4..] == rest;
    } else {
      assert (e + rest)[|e|..] == rest;
    }
  }

  lemma {:induction false} ReadTextOfEscaped(s: string, rest: string)
    ensures ReadText(EscapeAll(s) + "\"" + rest) == Some((s, rest))
  {
    if s == "" {
      assert EscapeAll(s) + "\"" + rest == "\"" + rest;
    } else {
      var tail := EscapeAll(s[1..]) + "\"" + rest;
      var body := Escape(s[0]) + tail;
      assert EscapeAll(s) + "\"" + rest == body;
      ReadCharOfEscape(s[0], tail);
      assert body[0] != '"';
      ReadTextOfEscaped(s[1..], rest);
      assert [s[0]] + s[1..] == s;
    }
  }

  predicate StartsWithDigit(s: string) {
    s != "" && IsDigit(s[0])
  }

  lemma {:induction false} LeadingDigitsOf(d: string, rest: string)
    requires AllDigits(d) && !StartsWithDigit(rest)
    ensures LeadingDigits(d + rest) == d
  {
    if d == "" {
      assert d + rest == rest;
    } else {
      LeadingDigitsOf(d[1..], rest);
      assert (d + rest)[1..] == d[1..] + rest;
    }
  }

  lemma ReadNumberOfDigits(n: nat, rest: string)
    requires !StartsWithDigit(rest)
    ensures ReadNumber(Digits(n) + rest) == Some((n, rest))
    ensures Digits(n) != "" && IsDigit(Digits(n)[0])
  {
    ValueOfDigits(n);
    LeadingDigitsOf(Digits(n), rest);
    assert (Digits(n) + rest)[|Digits(n)|..] == rest;
  }

  lemma QuoteThen(s: string, rest: string)
    ensures Quote(s) + rest == "\"" + (EscapeAll(s) + "\"" + rest)
  {
  }

  lemma ReadOfQuote(text: string, rest: string)
    ensures Read(Quote(text) + rest) == Some((Str(text), rest))
  {
    ReadTextOfEscaped(text, rest);
    QuoteThen(text, rest);
    assert (Quote(text) + rest)[1..] == EscapeAll(text) + "\"" + rest;
  }

  lemma ReadOfDigits(n: nat, rest: string)
    requires !StartsWithDigit(rest)
    ensures Read(Digits(n) + rest) == Some((Num(n), rest))
    ensures Digits(n) != "" && IsDigit(Digits(n)[0])
  {
    ReadNumberOfDigits(n, rest);
  }

  lemma ReadArray(s: string, items: Items, rest: string)
    requires ReadItems(s) == Some((items, rest)) && s != "" && s[0] != ']'
    ensures Read("[" + s) == Some((Arr(items), rest))
  {
    assert ("[" + s)[1..] == s;
  }

  lemma ReadObject(s: string, members: Members, rest: string)
    requires ReadMembers(s) == Some((members, rest)) && s != "" && s[0] != '}'
    ensures Read("{" + s) == Some((Obj(members), rest))
  {
    assert ("{" + s)[1..] == s;
  }

  /** Printed containers, cut at their first element. */
  lemma ItemsText(items: Items, rest: string)
    requires items != NoItems
    ensures Print(Arr(items)) + rest == "[" + (PrintItems(items) + "]" + rest)
    ensures PrintItems(items) + "]" + rest ==
      Print(items.head) + (if items.tail == NoItems then "]" + rest else "," + (PrintItems(items.tail) + "]" + rest))
  {
  }

  lemma MembersText(members: Members, rest: string)
    requires members != NoMembers
    ensures Print(Obj(members)) + rest == "{" + (PrintMembers(members) + "}" + rest)
    ensures PrintMembers(members) + "}" + rest == Quote(members.key) + (":" + (Print(members.value) +
      (if members.rest == NoMembers then "}" + rest else "," + (PrintMembers(members.rest) + "}" + rest))))
  {
    ObjectBraces(members, rest);
    if members.rest == NoMembers {
      LastMember(Quote(members.key), Print(members.value), rest);
    } else {
      Regroup(Quote(members.key), Print(members.value), PrintMembers(members.rest), rest);
    }
  }

  lemma ObjectBraces(members: Members, rest: string)
    ensures Print(Obj(members)) + rest == "{" + (PrintMembers(members) + "}" + rest)
  {
  }

  lemma LastMember(q: string, v: string, rest: string)
    ensures q + ":" + v + "}" + rest == q + (":" + (v + ("}" + rest)))
  {
  }

  lemma Regroup(q: string, v: string, more: string, rest: string)
    ensures q + ":" + v + "," + more + "}" + rest == q + (":" + (v + ("," + (more + "}" + rest))))
  {
  }

  lemma ReadOfEmpty(rest: string)
    ensures Read(Print(Arr(NoItems)) + rest) == Some((Arr(NoItems), rest))
    ensures Read(Print(Obj(NoMembers)) + rest) == Some((Obj(NoMembers), rest))
  {
    assert ("[]" + rest)[2..] == rest && ("{}" + rest)[2..] == rest;
    assert Print(Arr(NoItems)) == "[]" && Print(Obj(NoMembers)) == "{}";
  }

  lemma {:induction false} ReadOfPrint(j: Json, rest: string)
    requires !StartsWithDigit(rest)
    ensures Read(Print(j) + rest) == Some((j, rest))
    decreases j
  {
    match j {
      case Str(text) => ReadOfQuote(text, rest);
      case Num(number) => ReadOfDigits(number, rest);
      case Arr(items) =>
        if items == NoItems {
          ReadOfEmpty(rest);
        } else {
          ReadOfPrintItems(items, rest);
          ItemsText(items, rest);
          PrintStarts(items.head);
          ReadArray(PrintItems(items) + "]" + rest, items, rest);
        }
      case Obj(members) =>
        if members == NoMembers {
          ReadOfEmpty(rest);
        } else {
          ReadOfPrintMembers(members, rest);
          MembersText(members, rest);
          ReadObject(PrintMembers(members) + "}" + rest, members, rest);
        }
    }
  }

  lemma PrintStarts(j: Json)
    ensures Print(j) != "" && Print(j)[0] !in {']', '}', ','}
  {
    if j.Num? {
      ReadOfDigits(j.number, "");
    }
  }

  lemma ReadItemsStep(s: string, head: Json, sep: char, after: string)
    requires Read(s) == Some((head, [sep] + after))
    ensures sep == ']' ==> ReadItems(s) == Some((Item(head, NoItems), after))
    ensures sep == ',' && ReadItems(after).Some? ==>
      ReadItems(s) == Some((Item(head, ReadItems(after).value.0), ReadItems(after).value.1))
  {
    assert ([sep] + after)[1..] == after;
  }

  lemma {:induction false} ReadOfPrintItems(items: Items, rest: string)
    requires items != NoItems
    ensures ReadItems(PrintItems(items) + "]" + rest) == Some((items, rest))
    decreases items
  {
    var s := PrintItems(items) + "]" + rest;
    ItemsText(items, rest);
    if items.tail == NoItems {
      ReadOfPrint(items.head, "]" + rest);
      ReadItemsStep(s, items.head, ']', rest);
    } else {
      var more := PrintItems(items.tail) + "]" + rest;
      ReadOfPrint(items.head, "," + more);
      ReadOfPrintItems(items.tail, rest);
      ReadItemsStep(s, items.head, ',', more);
    }
  }

  lemma ReadMembersStep(key: string, value: Json, sep: char, after: string)
    requires sep in {',', '}'}
    requires Read(Print(value) + ([sep] + after)) == Some((value, [sep] + after))
    ensures var s := Quote(key) + (":" + (Print(value) + ([sep] + after)));
      && s[0] == '"'
      && (sep == '}' ==> ReadMembers(s) == Some((Member(key, value, NoMembers), after)))
      && (sep == ',' && ReadMembers(after).Some? ==>
        ReadMembers(s) == Some((Member(key, value, ReadMembers(after).value.0), ReadMembers(after).value.1)))
  {
    var afterKey := ":" + (Print(value) + ([sep] + after));
    var s := Quote(key) + afterKey;
    ReadTextOfEscaped(key, afterKey);
    QuoteThen(key, afterKey);
    assert s[1..] == EscapeAll(key) + "\"" + afterKey;
    assert afterKey[1..] == Print(value) + ([sep] + after);
    assert ([sep] + after)[1..] == after;
  }

  lemma {:induction false} ReadOfPrintMembers(members: Members, rest: string)
    requires members != NoMembers
    ensures ReadMembers(PrintMembers(members) + "}" + rest) == Some((members, rest))
    decreases members
  {
    var Member(key, value, others) := members;
    MembersText(members, rest);
    if others == NoMembers {
      ReadOfPrint(value, "}" + rest);
      ReadMembersStep(key, value, '}', rest);
    } else {
      var more := PrintMembers(others) + "}" + rest;
      ReadOfPrint(value, "," + more);
      ReadOfPrintMembers(others, rest);
      ReadMembersStep(key, value, ',', more);
    }
  }

  lemma ParseOfPrint(j: Json)
    ensures Parse(Print(j)) == Some(j)
  {
    ReadOfPrint(j, "");
    assert Print(j) + "" == Print(j);
  }

  lemma PrintInjective(a: Json, b: Json)
    requires Print(a) == Print(b)
    ensures a == b
  {
    ParseOfPrint(a);
    ParseOfPrint(b);
  }
}
