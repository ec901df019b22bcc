/** Standard base64 with padding (section 4 of RFC 4648), as encoding/base64's StdEncoding writes and reads it. */
module Base64 {
  import opened Wrappers
  import opened Json
  import opened Utf8

  function Symbol(i: nat): char
    requires i < 64
  {
    if i < 26 then ('A' as int + i) as char
    else if i < 52 then ('a' as int + i - 26) as char
    else if i < 62 then ('0' as int + i - 52) as char
    else if i == 62 then '+' else '/'
  }

  function Index(c: char): (r: Option<nat>)
    ensures r.Some? ==> r.value < 64
  {
    if 'A' <= c <= 'Z' then Some(c as nat - 'A' as nat)
    else if 'a' <= c <= 'z' then Some(c as nat - 'a' as nat + 26)
    else if '0' <= c <= '9' then Some(c as nat - '0' as nat + 52)
    else if c == '+' then Some(62)
    else if c == '/' then Some(63)
    else None
  }

  function Encode64(b: seq<byte>): (s: string)
    ensures b != [] ==> |s| >= 4
  {
    if b == [] then ""
    else if |b| == 1 then [Symbol(b[0] / 4), Symbol(b[0] % 4 * 16), '=', '=']
    else if |b| == 2 then [Symbol(b[0] / 4), Symbol(b[0] % 4 * 16 + b[1] / 16), Symbol(b[1] % 16 * 4), '=']
    else
      [Symbol(b[0] / 4), Symbol(b[0] % 4 * 16 + b[1] / 16), Symbol(b[1] % 16 * 4 + b[2] / 64), Symbol(b[2] % 64)]
      + Encode64(b[3..])
  }

  /** The decoder skips line breaks anywhere. */
  function StripBreaks(s: string): string {
    if s == "" then ""
    else if s[0] in {'\r', '\n'} then StripBreaks(s[1..])
    else [s[0]] + StripBreaks(s[1..])
  }

  /** Groups of four; padding only in the last group; bits beyond the last byte are ignored. */
  function DecodeGroups(s: string): Option<seq<byte>> {
    if s == "" then Some([])
    else if |s| < 4 then None
    else
      var w :- Index(s[0]);
      var x :- Index(s[1]);
      if s[2] == '=' then
        if s[3] == '=' && |s| == 4 then Some([w * 4 + x / 16]) else None
      else
        var y :- Index(s[2]);
        if s[3] == '=' then
          if |s| == 4 then Some([w * 4 + x / 16, x % 16 * 16 + y / 4]) else None
        else
          var z :- Index(s[3]);
          var rest :- DecodeGroups(s[4..]);
          Some([w * 4 + x / 16, x % 16 * 16 + y / 4, y % 4 * 64 + z] + rest)
  }

  function Decode64(s: string): Option<seq<byte>> {
    DecodeGroups(StripBreaks(s))
  }

  lemma SymbolIndex(i: nat)
    requires i < 64
    ensures Index(Symbol(i)) == Some(i) && Symbol(i) !in {'=', '\r', '\n'}
    ensures Escape(Symbol(i)) == [Symbol(i)]
  {
  }

  predicate InAlphabet(s: string) {
    forall c | c in s :: Index(c).Some? || c == '='
  }

  lemma {:induction false} EncodedAlphabet(b: seq<byte>)
    ensures InAlphabet(Encode64(b))
    decreases |b|
  {
    if b != [] {
      SymbolIndex(b[0] / 4);
      if |b| == 1 {
        SymbolIndex(b[0] % 4 * 16);
      } else {
        SymbolIndex(b[0] % 4 * 16 + b[1] / 16);
        if |b| == 2 {
          SymbolIndex(b[1] % 16 * 4);
        } else {
          SymbolIndex(b[1] % 16 * 4 + b[2] / 64);
          SymbolIndex(b[2] % 64);
          EncodedAlphabet(b[3..]);
        }
      }
    }
  }

  lemma AlphabetChar(c: char)
    requires Index(c).Some? || c == '='
    ensures Escape(c) == [c] && c !in {'\r', '\n'}
  {
  }

  /** Base64 text holds no line break, and JSON string escaping leaves it unchanged. */
  lemma {:induction false} AlphabetUnchanged(s: string)
    requires InAlphabet(s)
    ensures StripBreaks(s) == s && EscapeAll(s) == s
  {
    if s != "" {
      assert s[0] in s;
      AlphabetChar(s[0]);
      AlphabetUnchanged(s[1..]);
      assert [s[0]] + s[1..] == s;
    }
  }

  lemma SextetsOfBytes(x: byte, y: byte, z: byte)
    ensures x / 4 * 4 + x % 4 * 16 / 16 == x
    ensures x / 4 * 4 + (x % 4 * 16 + y / 16) / 16 == x
    ensures (x % 4 * 16 + y / 16) % 16 * 16 + y % 16 * 4 / 4 == y
    ensures (x % 4 * 16 + y / 16) % 16 * 16 + (y % 16 * 4 + z / 64) / 4 == y
    ensures (y % 16 * 4 + z / 64) % 4 * 64 + z % 64 == z
  {
  }

  lemma DecodeThree(w: nat, x: nat, y: nat, z: nat, s: string)
    requires w < 64 && x < 64 && y < 64 && z < 64 && DecodeGroups(s).Some?
    ensures DecodeGroups([Symbol(w), Symbol(x), Symbol(y), Symbol(z)] + s)
      == Some([w * 4 + x / 16, x % 16 * 16 + y / 4, y % 4 * 64 + z] + DecodeGroups(s).value)
  {
    SymbolIndex(w);
    SymbolIndex(x);
    SymbolIndex(y);
    SymbolIndex(z);
    assert ([Symbol(w), Symbol(x), Symbol(y), Symbol(z)] + s)[4..] == s;
  }

  // ---- The encoding, bit by bit ----

  /** The alphabet of table 1 in section 4 of RFC 4648. */
  const ALPHABET := "ABCDEFGHIJKLMNOPQRSTUVWXYZ" + "abcdefghijklmnopqrstuvwxyz" + "0123456789+/"

  lemma SymbolInAlphabet(i: nat)
    requires i < 64
    ensures |ALPHABET| == 64 && Symbol(i) == ALPHABET[i]
  {
    var upper, lower, rest := "ABCDEFGHIJKLMNOPQRSTUVWXYZ", "abcdefghijklmnopqrstuvwxyz", "0123456789+/";
    assert forall j | 0 <= j < 26 :: upper[j] as int == 'A' as int + j;
    assert forall j | 0 <= j < 26 :: lower[j] as int == 'a' as int + j;
    assert forall j | 0 <= j < 10 :: rest[j] as int == '0' as int + j;
    assert ALPHABET == upper + (lower + rest);
  }

  /** Bit j of a byte, the most significant first. */
  function ByteBit(x: byte, j: nat): (r: nat)
    ensures r < 2
  {
    match j
    case 0 => x / 128 % 2
    case 1 => x / 64 % 2
    case 2 => x / 32 % 2
    case 3 => x / 16 % 2
    case 4 => x / 8 % 2
    case 5 => x / 4 % 2
    case 6 => x / 2 % 2
    case _ => x % 2
  }

  /** Bit m of the bytes; zeros follow. */
  function Bit(b: seq<byte>, m: nat): (r: nat)
    ensures r < 2
  {
    if m / 8 < |b| then ByteBit(b[m / 8], m % 8) else 0
  }

  /** The number that bits 6k to 6k + 5 spell. */
  function Sextet(b: seq<byte>, k: nat): (r: nat)
    ensures r < 64
  {
    32 * Bit(b, 6 * k) + 16 * Bit(b, 6 * k + 1) + 8 * Bit(b, 6 * k + 2) + 4 * Bit(b, 6 * k + 3)
    + 2 * Bit(b, 6 * k + 4) + Bit(b, 6 * k + 5)
  }

  /** The bits of a byte, from the top. */
  lemma Halves(x: byte)
    ensures x / 128 < 2 && x / 64 == 2 * (x / 128) + x / 64 % 2 && x / 32 == 2 * (x / 64) + x / 32 % 2
    ensures x / 16 == 2 * (x / 32) + x / 16 % 2 && x / 8 == 2 * (x / 16) + x / 8 % 2
  {
  }

  lemma LowHalves(x: byte)
    ensures x / 4 == 2 * (x / 8) + x / 4 % 2 && x / 2 == 2 * (x / 4) + x / 2 % 2 && x == 2 * (x / 2) + x % 2
  {
  }

  lemma BitsOfByte(x: byte)
    ensures x / 4 ==
      32 * (x / 128 % 2) + 16 * (x / 64 % 2) + 8 * (x / 32 % 2) + 4 * (x / 16 % 2) + 2 * (x / 8 % 2) + x / 4 % 2
    ensures x % 4 == 2 * (x / 2 % 2) + x % 2
    ensures x / 16 == 8 * (x / 128 % 2) + 4 * (x / 64 % 2) + 2 * (x / 32 % 2) + x / 16 % 2
    ensures x % 16 == 8 * (x / 8 % 2) + 4 * (x / 4 % 2) + 2 * (x / 2 % 2) + x % 2
    ensures x / 64 == 2 * (x / 128 % 2) + x / 64 % 2
    ensures x % 64 ==
      32 * (x / 32 % 2) + 16 * (x / 16 % 2) + 8 * (x / 8 % 2) + 4 * (x / 4 % 2) + 2 * (x / 2 % 2) + x % 2
  {
    Halves(x);
    LowHalves(x);
  }

  /** Byte i, zero beyond the end. */
  function ByteAt(b: seq<byte>, i: nat): byte {
    if i < |b| then b[i] else 0
  }

  lemma FirstByte(b: seq<byte>)
    ensures var x := ByteAt(b, 0);
      && Bit(b, 0) == ByteBit(x, 0) && Bit(b, 1) == ByteBit(x, 1) && Bit(b, 2) == ByteBit(x, 2)
      && Bit(b, 3) == ByteBit(x, 3) && Bit(b, 4) == ByteBit(x, 4) && Bit(b, 5) == ByteBit(x, 5)
      && Bit(b, 6) == ByteBit(x, 6) && Bit(b, 7) == ByteBit(x, 7)
  {
  }

  lemma SecondByte(b: seq<byte>)
    ensures var x := ByteAt(b, 1);
      && Bit(b, 8) == ByteBit(x, 0) && Bit(b, 9) == ByteBit(x, 1) && Bit(b, 10) == ByteBit(x, 2)
      && Bit(b, 11) == ByteBit(x, 3) && Bit(b, 12) == ByteBit(x, 4) && Bit(b, 13) == ByteBit(x, 5)
      && Bit(b, 14) == ByteBit(x, 6) && Bit(b, 15) == ByteBit(x, 7)
  {
  }

  lemma ThirdByte(b: seq<byte>)
    ensures var x := ByteAt(b, 2);
      && Bit(b, 16) == ByteBit(x, 0) && Bit(b, 17) == ByteBit(x, 1) && Bit(b, 18) == ByteBit(x, 2)
      && Bit(b, 19) == ByteBit(x, 3) && Bit(b, 20) == ByteBit(x, 4) && Bit(b, 21) == ByteBit(x, 5)
      && Bit(b, 22) == ByteBit(x, 6) && Bit(b, 23) == ByteBit(x, 7)
  {
  }

  lemma FirstSextets(b: seq<byte>)
    ensures var x, y, z := ByteAt(b, 0), ByteAt(b, 1), ByteAt(b, 2);
      && Sextet(b, 0) == x / 4 && Sextet(b, 1) == x % 4 * 16 + y / 16
      && Sextet(b, 2) == y % 16 * 4 + z / 64 && Sextet(b, 3) == z % 64
  {
    FirstByte(b);
    SecondByte(b);
    ThirdByte(b);
    BitsOfByte(ByteAt(b, 0));
    BitsOfByte(ByteAt(b, 1));
    BitsOfByte(ByteAt(b, 2));
  }

  lemma BitShift(b: seq<byte>, m: nat)
    requires |b| >= 3
    ensures Bit(b, m + 24) == Bit(b[3..], m)
  {
  }

  lemma SextetShift(b: seq<byte>, k: nat)
    requires |b| >= 3
    ensures Sextet(b, k + 4) == Sextet(b[3..], k)
  {
    BitShift(b, 6 * k);
    BitShift(b, 6 * k + 1);
    BitShift(b, 6 * k + 2);
    BitShift(b, 6 * k + 3);
    BitShift(b, 6 * k + 4);
    BitShift(b, 6 * k + 5);
  }

  /** The first group, as the encoder builds it from three bytes, zeros for missing ones. */
  lemma FirstSymbols(b: seq<byte>, x: byte, y: byte, z: byte)
    requires b != [] && x == ByteAt(b, 0) && y == ByteAt(b, 1) && z == ByteAt(b, 2)
    ensures |Encode64(b)| >= 4 && Encode64(b)[0] == Symbol(x / 4) && Encode64(b)[1] == Symbol(x % 4 * 16 + y / 16)
    ensures Encode64(b)[2] == if |b| >= 2 then Symbol(y % 16 * 4 + z / 64) else '='
    ensures Encode64(b)[3] == if |b| >= 3 then Symbol(z % 64) else '='
  {
  }

  lemma FirstFourByBits(b: seq<byte>)
    requires b != []
    ensures |Encode64(b)| >= 4
    ensures Encode64(b)[0] == Symbol(Sextet(b, 0)) && Encode64(b)[1] == Symbol(Sextet(b, 1))
    ensures Encode64(b)[2] == if |b| >= 2 then Symbol(Sextet(b, 2)) else '='
    ensures Encode64(b)[3] == if |b| >= 3 then Symbol(Sextet(b, 3)) else '='
  {
    FirstSextets(b);
    FirstSymbols(b, ByteAt(b, 0), ByteAt(b, 1), ByteAt(b, 2));
  }

  lemma FirstGroupByBits(b: seq<byte>, k: nat)
    requires b != [] && k < 4
    ensures |Encode64(b)| >= 4
    ensures Encode64(b)[k] == if 6 * k < 8 * |b| then Symbol(Sextet(b, k)) else '='
  {
    FirstFourByBits(b);
  }

  lemma RestSymbols(b: seq<byte>)
    requires |b| >= 3
    ensures |Encode64(b)| == 4 + |Encode64(b[3..])| && Encode64(b)[4..] == Encode64(b[3..])
  {
  }

  lemma OneMoreGroup(n: nat)
    ensures (n + 3 + 2) / 3 * 4 == 4 + (n + 2) / 3 * 4
  {
  }

  lemma {:induction false} EncodeLength(b: seq<byte>)
    ensures |Encode64(b)| == (|b| + 2) / 3 * 4
    decreases |b|
  {
    if |b| >= 3 {
      var rest := b[3..];
      EncodeLength(rest);
      RestSymbols(b);
      OneMoreGroup(|rest|);
    }
  }

  lemma RestAt(b: seq<byte>, k: nat)
    requires 4 <= k < |Encode64(b)|
    ensures |b| >= 3 && k - 4 < |Encode64(b[3..])| && Encode64(b)[k] == Encode64(b[3..])[k - 4]
  {
    assert |b| >= 3;
    RestSymbols(b);
    assert Encode64(b)[k] == Encode64(b)[4..][k - 4];
  }

  lemma {:induction false} SymbolsByBits(b: seq<byte>, k: nat)
    requires k < |Encode64(b)|
    ensures Encode64(b)[k] == if 6 * k < 8 * |b| then Symbol(Sextet(b, k)) else '='
    decreases |b|
  {
    if k < 4 {
      FirstGroupByBits(b, k);
    } else {
      RestAt(b, k);
      SymbolsByBits(b[3..], k - 4);
      SextetShift(b, k - 4);
    }
  }

  /**
   The symbol at position k is the one that section 4 of RFC 4648 gives to bits 6k to 6k + 5 of the bytes, followed by
   zeros; the text is filled up with '=' to a multiple of four.
   */
  lemma EncodeByBits(b: seq<byte>, k: nat)
    requires k < (|b| + 2) / 3 * 4
    ensures |Encode64(b)| == (|b| + 2) / 3 * 4 && |ALPHABET| == 64
    ensures Encode64(b)[k] == if 6 * k < 8 * |b| then ALPHABET[Sextet(b, k)] else '='
  {
    EncodeLength(b);
    SymbolsByBits(b, k);
    SymbolInAlphabet(Sextet(b, k));
  }

  // ---- What the decoder accepts ----

  /** Two symbols with the same bits, but for the last ones. */
  predicate SameTop(c: char, e: char, below: nat)
    requires below > 0
  {
    Index(c).Some? && Index(e).Some? && Index(c).value / below == Index(e).value / below
  }

  /** The encoding of b, but for the bits beyond the last byte. */
  predicate Spells(t: string, b: seq<byte>) {
    SameBytes(t, Encode64(b), |b| % 3)
  }

  /** Equal symbols, except that with one or two bytes in the last group, its last symbol may differ at the end. */
  predicate SameBytes(t: string, e: string, over: nat) {
    |t| == |e| && forall k | 0 <= k < |t| :: SameAt(t, e, over, k)
  }

  predicate SameAt(t: string, e: string, over: nat, k: nat)
    requires k < |t| == |e|
  {
    if over == 1 && k + 3 == |t| then SameTop(t[k], e[k], 16)
    else if over == 2 && k + 2 == |t| then SameTop(t[k], e[k], 4)
    else t[k] == e[k]
  }

  lemma IndexSymbol(c: char)
    requires Index(c).Some?
    ensures Symbol(Index(c).value) == c && c != '='
  {
  }

  lemma JoinedBits(w: nat, x: nat, y: nat, z: nat)
    requires w < 64 && x < 64 && y < 64 && z < 64
    ensures var a, b, c := w * 4 + x / 16, x % 16 * 16 + y / 4, y % 4 * 64 + z;
      && a < 256 && b < 256 && c < 256
      && a / 4 == w && a % 4 == x / 16 && b / 16 == x % 16 && b % 16 == y / 4 && c / 64 == y % 4 && c % 64 == z
      && a % 4 * 16 + b / 16 == x && b % 16 * 4 + c / 64 == y
  {
  }

  lemma OneByteSpells(t: string)
    requires |t| == 4 && t[2] == t[3] == '=' && DecodeGroups(t).Some?
    ensures Spells(t, DecodeGroups(t).value)
  {
    var w, x := Index(t[0]).value, Index(t[1]).value;
    IndexSymbol(t[0]);
    JoinedBits(w, x, 0, 0);
    OneSpelledBy(t, w * 4 + x / 16, x);
  }

  lemma OneSpelledBy(t: string, a: byte, x: nat)
    requires |t| == 4 && t[0] == Symbol(a / 4) && t[2] == t[3] == '='
    requires Index(t[1]) == Some(x) && x / 16 == a % 4
    ensures Spells(t, [a])
  {
    var bytes := [a];
    FirstSymbols(bytes, a, 0, 0);
    EncodeLength(bytes);
    SymbolIndex(a % 4 * 16);
  }

  lemma TwoBytesRead(t: string) returns (w: nat, x: nat, y: nat)
    requires |t| == 4 && t[2] != '=' && t[3] == '=' && DecodeGroups(t).Some?
    ensures Index(t[0]) == Some(w) && Index(t[1]) == Some(x) && Index(t[2]) == Some(y)
    ensures DecodeGroups(t) == Some([w * 4 + x / 16, x % 16 * 16 + y / 4])
  {
    w, x, y := Index(t[0]).value, Index(t[1]).value, Index(t[2]).value;
  }

  lemma TwoIndicesSpell(t: string, w: nat, x: nat, y: nat)
    requires |t| == 4 && t[3] == '=' && Index(t[0]) == Some(w) && Index(t[1]) == Some(x) && Index(t[2]) == Some(y)
    ensures Spells(t, [w * 4 + x / 16, x % 16 * 16 + y / 4])
  {
    IndexSymbol(t[0]);
    IndexSymbol(t[1]);
    JoinedBits(w, x, y, 0);
    TwoSpelledBy(t, w * 4 + x / 16, x % 16 * 16 + y / 4, y);
  }

  lemma TwoSpelledBy(t: string, a: byte, b: byte, y: nat)
    requires |t| == 4 && t[0] == Symbol(a / 4) && t[1] == Symbol(a % 4 * 16 + b / 16) && t[3] == '='
    requires Index(t[2]) == Some(y) && y / 4 == b % 16
    ensures Spells(t, [a, b])
  {
    var bytes := [a, b];
    FirstSymbols(bytes, a, b, 0);
    EncodeLength(bytes);
    SymbolIndex(b % 16 * 4);
  }

  lemma GroupSymbols(b: seq<byte>, w: nat, x: nat, y: nat, z: nat)
    requires w < 64 && x < 64 && y < 64 && z < 64
    requires |b| >= 3 && b[0] == w * 4 + x / 16 && b[1] == x % 16 * 16 + y / 4 && b[2] == y % 4 * 64 + z
    ensures |Encode64(b)| >= 4 && Encode64(b)[0] == Symbol(w) && Encode64(b)[1] == Symbol(x)
    ensures Encode64(b)[2] == Symbol(y) && Encode64(b)[3] == Symbol(z)
  {
    JoinedBits(w, x, y, z);
    FirstSymbols(b, w * 4 + x / 16, x % 16 * 16 + y / 4, y % 4 * 64 + z);
  }

  lemma GroupSpells(t: string, b: seq<byte>)
    requires |t| >= 4 && |b| >= 3 && Index(t[0]).Some? && Index(t[1]).Some? && Index(t[2]).Some? && Index(t[3]).Some?
    requires var w, x, y, z := Index(t[0]).value, Index(t[1]).value, Index(t[2]).value, Index(t[3]).value;
      b[0] == w * 4 + x / 16 && b[1] == x % 16 * 16 + y / 4 && b[2] == y % 4 * 64 + z
    ensures |Encode64(b)| >= 4 && Encode64(b)[..4] == t[..4]
  {
    GroupSymbols(b, Index(t[0]).value, Index(t[1]).value, Index(t[2]).value, Index(t[3]).value);
    GroupMatches(t, Encode64(b));
  }

  lemma GroupMatches(t: string, e: string)
    requires |t| >= 4 && |e| >= 4 && Index(t[0]).Some? && Index(t[1]).Some? && Index(t[2]).Some? && Index(t[3]).Some?
    requires e[0] == Symbol(Index(t[0]).value) && e[1] == Symbol(Index(t[1]).value)
    requires e[2] == Symbol(Index(t[2]).value) && e[3] == Symbol(Index(t[3]).value)
    ensures e[..4] == t[..4]
  {
    IndexSymbol(t[0]);
    IndexSymbol(t[1]);
    IndexSymbol(t[2]);
    IndexSymbol(t[3]);
  }

  lemma FrontAdded(t: string, e: string, over: nat)
    requires |t| >= 4 && |e| >= 4 && t[..4] == e[..4] && SameBytes(t[4..], e[4..], over)
    requires over == 0 || |t| >= 8
    ensures SameBytes(t, e, over)
  {
    forall k | 0 <= k < |t| ensures SameAt(t, e, over, k) {
      if k < 4 {
        assert t[k] == t[..4][k] == e[..4][k] == e[k];
      } else {
        assert SameAt(t[4..], e[4..], over, k - 4);
      }
    }
  }

  lemma FrontRemoved(t: string, e: string, over: nat)
    requires |t| >= 4 && SameBytes(t, e, over) && (over == 0 || |t| >= 8)
    ensures t[..4] == e[..4] && SameBytes(t[4..], e[4..], over)
  {
    assert SameAt(t, e, over, 0) && SameAt(t, e, over, 1) && SameAt(t, e, over, 2) && SameAt(t, e, over, 3);
    forall k | 0 <= k < |t| - 4 ensures SameAt(t[4..], e[4..], over, k) {
      assert SameAt(t, e, over, k + 4);
    }
  }

  lemma LeftOver(b: seq<byte>, over: nat)
    requires |b| >= 3 && over == |b| % 3
    ensures |b[3..]| % 3 == over && (over == 0 || b[3..] != [])
  {
  }

  /** What the encodings of b and of its rest have to do with each other. */
  lemma EncodedRest(b: seq<byte>, e: string, over: nat)
    requires |b| >= 3 && e == Encode64(b) && over == |b| % 3
    ensures |e| >= 4 && e[4..] == Encode64(b[3..]) && |b[3..]| % 3 == over && (over == 0 || |e| >= 8)
  {
    RestSymbols(b);
    LeftOver(b, over);
  }

  /** A full group in front changes nothing about the rest. */
  lemma SpellsAfterGroup(t: string, b: seq<byte>, e: string, over: nat)
    requires |t| >= 4 && |b| >= 3 && e == Encode64(b) && over == |b| % 3
    requires |e| >= 4 && t[..4] == e[..4] && Spells(t[4..], b[3..])
    ensures Spells(t, b)
  {
    EncodedRest(b, e, over);
    FrontAdded(t, e, over);
  }

  lemma {:induction false} DecodedSpells(t: string)
    requires DecodeGroups(t).Some?
    ensures Spells(t, DecodeGroups(t).value)
    decreases |t|
  {
    if t != "" {
      if t[2] == '=' {
        OneByteSpells(t);
      } else if t[3] == '=' {
        var w, x, y := TwoBytesRead(t);
        TwoIndicesSpell(t, w, x, y);
      } else {
        var b := DecodeGroups(t).value;
        DecodedSpells(t[4..]);
        assert b[3..] == DecodeGroups(t[4..]).value;
        GroupSpells(t, b);
        SpellsAfterGroup(t, b, Encode64(b), |b| % 3);
      }
    }
  }

  lemma SpelledRest(t: string, b: seq<byte>, e: string, over: nat)
    requires Spells(t, b) && |b| >= 3 && e == Encode64(b) && over == |b| % 3
    ensures |t| >= 4 && |e| >= 4 && t[..4] == e[..4] && Spells(t[4..], b[3..])
  {
    EncodedRest(b, e, over);
    FrontRemoved(t, e, over);
  }

  lemma SpelledSymbols(t: string, b: seq<byte>)
    requires Spells(t, b) && |b| >= 3
    ensures var x, y, z := b[0], b[1], b[2];
      && |t| >= 4 && t[0] == Symbol(x / 4) && t[1] == Symbol(x % 4 * 16 + y / 16)
      && t[2] == Symbol(y % 16 * 4 + z / 64) && t[3] == Symbol(z % 64)
  {
    var e := Encode64(b);
    SpelledRest(t, b, e, |b| % 3);
    assert t[0] == t[..4][0] == e[..4][0] && t[1] == t[..4][1] == e[..4][1];
    assert t[2] == t[..4][2] == e[..4][2] && t[3] == t[..4][3] == e[..4][3];
    FirstSymbols(b, b[0], b[1], b[2]);
  }

  /** Spelling determines the bytes. */
  lemma {:induction false} SpellingIsDecoded(t: string, b: seq<byte>)
    requires Spells(t, b)
    ensures DecodeGroups(t) == Some(b)
    decreases |b|
  {
    if |b| == 1 {
      assert b == [b[0]];
      SpelledOne(t, b[0]);
    } else if |b| == 2 {
      assert b == [b[0], b[1]];
      SpelledTwo(t, b[0], b[1]);
    } else if |b| >= 3 {
      SpelledRest(t, b, Encode64(b), |b| % 3);
      SpellingIsDecoded(t[4..], b[3..]);
      SpelledSymbols(t, b);
      SpelledGroup(t, b[0], b[1], b[2], b[3..]);
      assert b == [b[0], b[1], b[2]] + b[3..];
    }
  }

  lemma SpelledOne(t: string, x: byte)
    requires Spells(t, [x])
    ensures DecodeGroups(t) == Some([x])
  {
    var b := [x];
    FirstSymbols(b, x, 0, 0);
    var e := Encode64(b);
    assert SameAt(t, e, |b| % 3, 0) && SameAt(t, e, |b| % 3, 1) && SameAt(t, e, |b| % 3, 2) && SameAt(t, e, |b| % 3, 3);
    SymbolIndex(x / 4);
    SymbolIndex(x % 4 * 16);
    SextetsOfBytes(x, 0, 0);
  }

  lemma SpelledTwo(t: string, x: byte, y: byte)
    requires Spells(t, [x, y])
    ensures DecodeGroups(t) == Some([x, y])
  {
    var b := [x, y];
    FirstSymbols(b, x, y, 0);
    var e := Encode64(b);
    assert SameAt(t, e, |b| % 3, 0) && SameAt(t, e, |b| % 3, 1) && SameAt(t, e, |b| % 3, 2) && SameAt(t, e, |b| % 3, 3);
    SymbolIndex(x / 4);
    SymbolIndex(x % 4 * 16 + y / 16);
    SymbolIndex(y % 16 * 4);
    SextetsOfBytes(x, y, 0);
  }

  lemma SpelledGroup(t: string, x: byte, y: byte, z: byte, rest: seq<byte>)
    requires |t| >= 4 && DecodeGroups(t[4..]) == Some(rest)
    requires t[0] == Symbol(x / 4) && t[1] == Symbol(x % 4 * 16 + y / 16)
    requires t[2] == Symbol(y % 16 * 4 + z / 64) && t[3] == Symbol(z % 64)
    ensures DecodeGroups(t) == Some([x, y, z] + rest)
  {
    var front, u := [t[0], t[1], t[2], t[3]], t[4..];
    GroupDecodes(x, y, z, u, rest);
    assert t == front + u;
  }

  lemma GroupDecodes(x: byte, y: byte, z: byte, u: string, rest: seq<byte>)
    requires DecodeGroups(u) == Some(rest)
    ensures DecodeGroups([Symbol(x / 4), Symbol(x % 4 * 16 + y / 16), Symbol(y % 16 * 4 + z / 64), Symbol(z % 64)] + u)
      == Some([x, y, z] + rest)
  {
    DecodeThree(x / 4, x % 4 * 16 + y / 16, y % 16 * 4 + z / 64, z % 64, u);
    SextetsOfBytes(x, y, z);
  }

  /** Line breaks are skipped, wherever they are; nothing else is. */
  lemma {:induction false} BreaksAreSkipped(s: string, t: string, c: char)
    requires c == '\r' || c == '\n'
    ensures StripBreaks(s + [c] + t) == StripBreaks(s + t)
    ensures '\r' !in s && '\n' !in s ==> StripBreaks(s) == s
  {
    if s == "" {
      assert s + [c] + t == [c] + t && s + t == t;
    } else {
      assert (s + [c] + t)[1..] == s[1..] + [c] + t && (s + t)[1..] == s[1..] + t;
      BreaksAreSkipped(s[1..], t, c);
      assert s == [s[0]] + s[1..];
    }
  }

  /** Line breaks aside, a text decodes to the bytes exactly when it spells them. */
  lemma DecodesIff(s: string, b: seq<byte>)
    ensures Decode64(s) == Some(b) <==> Spells(StripBreaks(s), b)
  {
    if Decode64(s) == Some(b) {
      DecodedSpells(StripBreaks(s));
    }
    if Spells(StripBreaks(s), b) {
      SpellingIsDecoded(StripBreaks(s), b);
    }
  }

  lemma EncodeSpells(b: seq<byte>)
    ensures Spells(Encode64(b), b)
  {
    var e := Encode64(b);
    EncodeLength(b);
    forall k | 0 <= k < |e| ensures SameAt(e, e, |b| % 3, k) {
      SymbolsByBits(b, k);
      SymbolIndex(Sextet(b, k));
    }
  }

  lemma DecodeOfEncode(b: seq<byte>)
    ensures Decode64(Encode64(b)) == Some(b)
    ensures EscapeAll(Encode64(b)) == Encode64(b)
  {
    EncodedAlphabet(b);
    AlphabetUnchanged(Encode64(b));
    EncodeSpells(b);
    SpellingIsDecoded(Encode64(b), b);
  }
}
