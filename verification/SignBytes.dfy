/** The bytes a payer signs: facilitator/adr036.go over an abstract signature scheme. */
module SignBytes {
  import opened Wrappers
  import opened Types
  import opened Float64
  import opened Json
  import opened CanonicalJson
  import opened Utf8
  import opened Base64

  /** Struct encoding, fields in declaration order. */
  function AuthorizationJson(a: Authorization): Json {
    Obj(Object(FieldNames(), FieldValues(a)))
  }

  function FieldNames(): seq<string> {
    ["from", "to", "denom", "amount", "nonce", "validAfter", "validBefore", "resource", "chainId"]
  }

  function FieldValues(a: Authorization): seq<Json> {
    [Str(a.from), Str(a.to), Str(a.denom), Str(a.amount), Str(a.nonce), Num(a.validAfter), Num(a.validBefore),
     Str(a.resource), Str(a.chainId)]
  }

  function CanonicalAuthorizationJson(a: Authorization): Option<string> {
    SortJson(Print(AuthorizationJson(a)))
  }

  function SignDocNames(): seq<string> {
    ["account_number", "chain_id", "fee", "memo", "msgs", "sequence"]
  }

  function FeeJson(): Json {
    Obj(Object(["amount", "gas"], [Arr(NoItems), Str("0")]))
  }

  function SignMsgJson(data: string, signer: string): Json {
    Obj(Object(["type", "value"],
               [Str("sign/MsgSignData"), Obj(Object(["data", "signer"], [Str(data), Str(signer)]))]))
  }

  function SignDocJson(data: string, signer: string): Json {
    Obj(Object(SignDocNames(),
               [Str("0"), Str(""), FeeJson(), Str(""), Arr(Item(SignMsgJson(data, signer), NoItems)), Str("0")]))
  }

  function Preimage(a: Authorization): Option<seq<byte>> {
    var inner :- CanonicalAuthorizationJson(a);
    var doc :- SortJson(Print(SignDocJson(Encode64(Encode(inner)), a.from)));
    Some(Encode(doc))
  }

  /** Reading an authorization back: absent fields keep their zero value, other fields are ignored. */
  function ReadAuthorization(text: string): Option<Authorization> {
    var j :- Parse(text);
    if !j.Obj? then None
    else
      var from :- TextField(j.members, "from");
      var to :- TextField(j.members, "to");
      var denom :- TextField(j.members, "denom");
      var amount :- TextField(j.members, "amount");
      var nonce :- TextField(j.members, "nonce");
      var validAfter :- NumberField(j.members, "validAfter");
      var validBefore :- NumberField(j.members, "validBefore");
      var resource :- TextField(j.members, "resource");
      var chainId :- TextField(j.members, "chainId");
      Some(Authorization(from, to, denom, amount, nonce, validAfter, validBefore, resource, chainId))
  }

  function TextField(members: Members, key: string): Option<string> {
    match Lookup(members, key)
    case None => Some("")
    case Some(Str(text)) => Some(text)
    case _ => None
  }

  function NumberField(members: Members, key: string): Option<uint64> {
    match Lookup(members, key)
    case None => Some(0)
    case Some(Num(number)) => if number < TWO_TO_64 then Some(number) else None
    case _ => None
  }

  /** What survives the double in SortJSON: both timestamps rounded to 53 significant bits. */
  ghost predicate SameUpToRounding(a: Authorization, b: Authorization) {
    && a.from == b.from && a.to == b.to && a.denom == b.denom && a.amount == b.amount && a.nonce == b.nonce
    && a.resource == b.resource && a.chainId == b.chainId
    && FloatOf(a.validAfter) == FloatOf(b.validAfter)
    && FloatOf(a.validBefore) == FloatOf(b.validBefore)
  }

  predicate SafeTimes(a: Authorization) {
    a.validAfter < 9007199254740992 && a.validBefore < 9007199254740992
  }

  // ---- Canonical authorization ----

  function SortedNames(): seq<string> {
    ["amount", "chainId", "denom", "from", "nonce", "resource", "to", "validAfter", "validBefore"]
  }

  function SortedValues(a: Authorization): seq<Json> {
    [Str(a.amount), Str(a.chainId), Str(a.denom), Str(a.from), Str(a.nonce), Str(a.resource), Str(a.to),
     Num(Reprint(a.validAfter)), Num(Reprint(a.validBefore))]
  }

  lemma AfterComesFirst()
    ensures Less("validAfter", "validBefore")
  {
    var x, y := "validAfter", "validBefore";
    assert x[1..] == "alidAfter" && y[1..] == "alidBefore";
    assert "alidAfter"[1..] == "lidAfter" && "alidBefore"[1..] == "lidBefore";
    assert "lidAfter"[1..] == "idAfter" && "lidBefore"[1..] == "idBefore";
    assert "idAfter"[1..] == "dAfter" && "idBefore"[1..] == "dBefore";
    assert "dAfter"[1..] == "After" && "dBefore"[1..] == "Before";
    assert Less("After", "Before") && Less("dAfter", "dBefore") && Less("idAfter", "idBefore");
    assert Less("lidAfter", "lidBefore") && Less("alidAfter", "alidBefore") && Less(x, y);
  }

  lemma SortedNamesAscend(names: seq<string>)
    requires names == SortedNames()
    ensures Ascending(names)
  {
    AfterComesFirst();
  }

  function InKeyOrder<T>(s: seq<T>): seq<T>
    requires |s| == 9
  {
    [s[3], s[8], s[2], s[0], s[4], s[7], s[1], s[5], s[6]]
  }

  lemma NineSort(names: seq<string>, values: seq<Json>, ordered: seq<string>, sorted: seq<Json>)
    requires |names| == |values| == |sorted| == 9
    requires ordered == InKeyOrder(names) && Ascending(ordered)
    requires forall i | 0 <= i < 9 :: sorted[i] == Sort(InKeyOrder(values)[i])
    ensures Sort(Obj(Object(names, values))) == Obj(Object(ordered, sorted))
  {
    SortPermuted(names, values, ordered, sorted, [3, 8, 2, 0, 4, 7, 1, 5, 6], [3, 6, 2, 0, 4, 7, 8, 5, 1]);
  }

  lemma SortLeaf(j: Json)
    ensures j.Str? ==> Sort(j) == j
    ensures j.Num? ==> Sort(j) == Num(Reprint(j.number))
  {
  }

  lemma ValuesSort(v: seq<Json>, w: seq<Json>)
    requires |v| == |w| && (forall i | 0 <= i < |v| :: v[i].Str? || v[i].Num?)
    requires forall i | 0 <= i < |v| :: w[i] == if v[i].Num? then Num(Reprint(v[i].number)) else v[i]
    ensures forall i | 0 <= i < |v| :: w[i] == Sort(v[i])
  {
    forall i | 0 <= i < |v| ensures w[i] == Sort(v[i]) {
      SortLeaf(v[i]);
    }
  }

  lemma NamesInKeyOrder()
    ensures SortedNames() == InKeyOrder(FieldNames())
  {
  }

  lemma ValuesInKeyOrder(a: Authorization)
    ensures forall i | 0 <= i < 9 :: SortedValues(a)[i] == Sort(InKeyOrder(FieldValues(a))[i])
  {
    ValuesSort(InKeyOrder(FieldValues(a)), SortedValues(a));
  }

  lemma NamesAscend(names: seq<string>)
    requires names == FieldNames()
    ensures InKeyOrder(names) == SortedNames() && Ascending(InKeyOrder(names))
  {
    NamesInKeyOrder();
    SortedNamesAscend(InKeyOrder(names));
  }

  lemma AuthorizationSorts(a: Authorization)
    ensures Sort(AuthorizationJson(a)) == Obj(Object(SortedNames(), SortedValues(a)))
  {
    NamesAscend(FieldNames());
    ValuesInKeyOrder(a);
    NineSort(FieldNames(), FieldValues(a), SortedNames(), SortedValues(a));
  }

  lemma PlainLeaf(j: Json)
    requires j.Str? || (j.Num? && j.number < TWO_TO_64)
    ensures PlainNumbers(j)
  {
    if j.Num? {
      FloatOfAtMostDouble(j.number);
    }
  }

  lemma AuthorizationIsPlain(a: Authorization)
    ensures PlainNumbers(AuthorizationJson(a))
  {
    var values := FieldValues(a);
    forall i | 0 <= i < |values| ensures PlainNumbers(values[i]) {
      PlainLeaf(values[i]);
    }
    PlainObject(FieldNames(), values);
  }

  lemma CanonicalTree(a: Authorization)
    ensures CanonicalAuthorizationJson(a) == Some(Print(Obj(Object(SortedNames(), SortedValues(a)))))
  {
    AuthorizationSorts(a);
    AuthorizationIsPlain(a);
    SortJsonIsNormalForm(AuthorizationJson(a), AuthorizationJson(a));
  }

  lemma SortedField(a: Authorization, i: nat)
    requires i < 9
    ensures Lookup(Object(SortedNames(), SortedValues(a)), SortedNames()[i]) == Some(SortedValues(a)[i])
  {
    SortedNamesAscend(SortedNames());
    AscendingDistinct(SortedNames());
    ObjectLookup(SortedNames(), SortedValues(a), SortedNames()[i]);
  }

  lemma ParsedFieldsRead(text: string, m: Members, a: Authorization, after: nat, before: nat)
    requires Parse(text) == Some(Obj(m))
    requires Lookup(m, "from") == Some(Str(a.from)) && Lookup(m, "to") == Some(Str(a.to))
    requires Lookup(m, "denom") == Some(Str(a.denom)) && Lookup(m, "amount") == Some(Str(a.amount))
    requires Lookup(m, "nonce") == Some(Str(a.nonce)) && Lookup(m, "resource") == Some(Str(a.resource))
    requires Lookup(m, "chainId") == Some(Str(a.chainId))
    requires Lookup(m, "validAfter") == Some(Num(after)) && Lookup(m, "validBefore") == Some(Num(before))
    ensures ReadAuthorization(text) ==
      if after < TWO_TO_64 && before < TWO_TO_64 then Some(a.(validAfter := after, validBefore := before)) else None
  {
  }

  lemma FieldsRead(m: Members, a: Authorization, after: nat, before: nat)
    requires Lookup(m, "from") == Some(Str(a.from)) && Lookup(m, "to") == Some(Str(a.to))
    requires Lookup(m, "denom") == Some(Str(a.denom)) && Lookup(m, "amount") == Some(Str(a.amount))
    requires Lookup(m, "nonce") == Some(Str(a.nonce)) && Lookup(m, "resource") == Some(Str(a.resource))
    requires Lookup(m, "chainId") == Some(Str(a.chainId))
    requires Lookup(m, "validAfter") == Some(Num(after)) && Lookup(m, "validBefore") == Some(Num(before))
    ensures ReadAuthorization(Print(Obj(m))) ==
      if after < TWO_TO_64 && before < TWO_TO_64 then Some(a.(validAfter := after, validBefore := before)) else None
  {
    ParseOfPrint(Obj(m));
    ParsedFieldsRead(Print(Obj(m)), m, a, after, before);
  }

  /** Reading the canonical text gives the authorization back, with both timestamps as the double reprints them. */
  lemma CanonicalRoundTrip(a: Authorization)
    ensures CanonicalAuthorizationJson(a).Some?
    ensures var after, before := Reprint(a.validAfter), Reprint(a.validBefore);
      ReadAuthorization(CanonicalAuthorizationJson(a).value) ==
        if after < TWO_TO_64 && before < TWO_TO_64 then Some(a.(validAfter := after, validBefore := before)) else None
    ensures SafeTimes(a) ==> ReadAuthorization(CanonicalAuthorizationJson(a).value) == Some(a)
  {
    CanonicalTree(a);
    SortedFields(a);
    FieldsRead(Object(SortedNames(), SortedValues(a)), a, Reprint(a.validAfter), Reprint(a.validBefore));
    if SafeTimes(a) {
      ReprintSmall(a.validAfter);
      ReprintSmall(a.validBefore);
    }
  }

  lemma SortedFields(a: Authorization)
    ensures var m := Object(SortedNames(), SortedValues(a));
      && Lookup(m, "from") == Some(Str(a.from)) && Lookup(m, "to") == Some(Str(a.to))
      && Lookup(m, "denom") == Some(Str(a.denom)) && Lookup(m, "amount") == Some(Str(a.amount))
      && Lookup(m, "nonce") == Some(Str(a.nonce)) && Lookup(m, "resource") == Some(Str(a.resource))
      && Lookup(m, "chainId") == Some(Str(a.chainId))
      && Lookup(m, "validAfter") == Some(Num(Reprint(a.validAfter)))
      && Lookup(m, "validBefore") == Some(Num(Reprint(a.validBefore)))
  {
    SortedField(a, 0);
    SortedField(a, 1);
    SortedField(a, 2);
    SortedField(a, 3);
    SortedField(a, 4);
    SortedField(a, 5);
    SortedField(a, 6);
    SortedField(a, 7);
    SortedField(a, 8);
  }

  // ---- Sign document ----

  lemma SelfSorted(keys: seq<string>, values: seq<Json>)
    requires |keys| == |values| && Ascending(keys)
    requires forall i | 0 <= i < |values| :: Sort(values[i]) == values[i]
    ensures Sort(Obj(Object(keys, values))) == Obj(Object(keys, values))
  {
    var members := Object(keys, values);
    var s := SortMembers(members, NoMembers);
    AscendingDistinct(keys);
    AscendingSorted(keys, values);
    forall k ensures Lookup(s, k) == Lookup(members, k) {
      SortMembersLookup(members, NoMembers, k);
      ObjectLookup(keys, values, k);
      if k in keys {
        var i :| 0 <= i < |keys| && keys[i] == k;
      }
    }
    SortMembersLookup(members, NoMembers, "");
    SortedUnique(s, members);
  }

  lemma PairSelfSorted(k: string, v: Json, l: string, w: Json)
    requires Less(k, l) && Sort(v) == v && Sort(w) == w
    ensures Sort(Obj(Object([k, l], [v, w]))) == Obj(Object([k, l], [v, w]))
  {
    SelfSorted([k, l], [v, w]);
  }

  lemma SignDocNamesAscend(names: seq<string>)
    requires names == SignDocNames()
    ensures Ascending(names)
    ensures Less("amount", "gas") && Less("data", "signer") && Less("type", "value")
  {
    assert "memo"[1..] == "emo" && "msgs"[1..] == "sgs";
  }

  lemma SignDocSorted(data: string, signer: string)
    ensures Sort(SignDocJson(data, signer)) == SignDocJson(data, signer)
  {
    SignDocNamesAscend(SignDocNames());
    PairSelfSorted("amount", Arr(NoItems), "gas", Str("0"));
    PairSelfSorted("data", Str(data), "signer", Str(signer));
    var value := Obj(Object(["data", "signer"], [Str(data), Str(signer)]));
    PairSelfSorted("type", Str("sign/MsgSignData"), "value", value);
    SelfSorted(SignDocNames(),
               [Str("0"), Str(""), FeeJson(), Str(""), Arr(Item(SignMsgJson(data, signer), NoItems)), Str("0")]);
  }

  /** The document determines the base64 text and the payer inside it. */
  lemma SignDocDetermines(data: string, signer: string, data': string, signer': string)
    requires SignDocJson(data, signer) == SignDocJson(data', signer')
    ensures data == data' && signer == signer'
  {
    var msg, msg' := SignMsgJson(data, signer), SignMsgJson(data', signer');
    var doc := [Str("0"), Str(""), FeeJson(), Str(""), Arr(Item(msg, NoItems)), Str("0")];
    var doc' := [Str("0"), Str(""), FeeJson(), Str(""), Arr(Item(msg', NoItems)), Str("0")];
    ObjectValuesDetermined(SignDocNames(), doc, doc');
    assert doc[4] == doc'[4];
    var value := Obj(Object(["data", "signer"], [Str(data), Str(signer)]));
    var value' := Obj(Object(["data", "signer"], [Str(data'), Str(signer')]));
    PairDetermined("type", Str("sign/MsgSignData"), "value", value, value', Str("sign/MsgSignData"));
    PairDetermined("data", Str(data), "signer", Str(signer), Str(signer'), Str(data'));
  }

  lemma PairDetermined(k: string, v: Json, l: string, w: Json, w': Json, v': Json)
    requires Object([k, l], [v, w]) == Object([k, l], [v', w'])
    ensures v == v' && w == w'
  {
    ObjectValuesDetermined([k, l], [v, w], [v', w']);
    assert [v, w][0] == [v', w'][0] && [v, w][1] == [v', w'][1];
  }

  // ---- The exact text ----

  predicate Plain(c: char) {
    'a' <= c <= 'z' || 'A' <= c <= 'Z' || '0' <= c <= '9' || c in {'_', '/'}
  }

  lemma {:induction false} PlainQuoted(s: string)
    requires forall i | 0 <= i < |s| :: Plain(s[i])
    ensures EscapeAll(s) == s && Quote(s) == "\"" + s + "\""
  {
    if s != "" {
      PlainQuoted(s[1..]);
      assert Escape(s[0]) == [s[0]];
      assert [s[0]] + s[1..] == s;
    }
  }

  /** A key in quotes and the text of its value. */
  function Named(key: string, text: string): string {
    "\"" + key + "\":" + text
  }

  function Pair(key: string, value: Json): string {
    Named(key, Print(value))
  }

  /** Printed members of an object given by keys and values. */
  function JoinedMembers(keys: seq<string>, values: seq<Json>): string
    requires |keys| == |values|
  {
    if keys == [] then ""
    else if |keys| == 1 then Pair(keys[0], values[0])
    else Pair(keys[0], values[0]) + ("," + JoinedMembers(keys[1..], values[1..]))
  }

  ghost predicate PlainKeys(keys: seq<string>) {
    forall i | 0 <= i < |keys| :: Quote(keys[i]) == "\"" + keys[i] + "\""
  }

  lemma {:induction false} MembersPrint(keys: seq<string>, values: seq<Json>)
    requires |keys| == |values| && PlainKeys(keys)
    ensures PrintMembers(Object(keys, values)) == JoinedMembers(keys, values)
  {
    if |keys| == 1 {
      assert Object(keys[1..], values[1..]) == NoMembers;
      QuoteColon(keys[0], Print(values[0]));
    } else if keys != [] {
      MembersPrint(keys[1..], values[1..]);
      QuoteColon(keys[0], Print(values[0]));
      var q, t := Quote(keys[0]) + ":" + Print(values[0]), JoinedMembers(keys[1..], values[1..]);
      assert q + "," + t == q + ("," + t);
    }
  }

  lemma QuoteColon(key: string, v: string)
    requires Quote(key) == "\"" + key + "\""
    ensures Quote(key) + ":" + v == "\"" + key + "\":" + v
  {
    assert Quote(key) + ":" == "\"" + key + "\":";
  }

  lemma ObjectText(keys: seq<string>, values: seq<Json>)
    requires |keys| == |values| && PlainKeys(keys)
    ensures Print(Obj(Object(keys, values))) == "{" + JoinedMembers(keys, values) + "}"
  {
    MembersPrint(keys, values);
  }

  lemma TextFrom(k: seq<string>, v: seq<Json>, i: nat)
    requires |k| == |v| && i + 1 < |k|
    ensures JoinedMembers(k[i..], v[i..]) == Pair(k[i], v[i]) + ("," + JoinedMembers(k[i + 1..], v[i + 1..]))
  {
    assert k[i..][1..] == k[i + 1..] && v[i..][1..] == v[i + 1..];
  }

  lemma TwoText(k: seq<string>, v: seq<Json>)
    requires |k| == |v| == 2
    ensures JoinedMembers(k, v) == Pair(k[0], v[0]) + ("," + (Pair(k[1], v[1])))
  {
    TextFrom(k, v, 0);
    assert k[0..] == k && v[0..] == v;
    assert JoinedMembers(k[1..], v[1..]) == Pair(k[1], v[1]);
  }

  lemma SixText(k: seq<string>, v: seq<Json>)
    requires |k| == |v| == 6
    ensures JoinedMembers(k, v) == Pair(k[0], v[0]) + ("," + (Pair(k[1], v[1]) + ("," + (Pair(k[2], v[2]) + ("," + (
      Pair(k[3], v[3]) + ("," + (Pair(k[4], v[4]) + ("," + (Pair(k[5], v[5])))))))))))
  {
    TextFrom(k, v, 0);
    TextFrom(k, v, 1);
    TextFrom(k, v, 2);
    TextFrom(k, v, 3);
    TextFrom(k, v, 4);
    assert k[0..] == k && v[0..] == v;
    assert JoinedMembers(k[5..], v[5..]) == Pair(k[5], v[5]);
  }

  lemma NineText(k: seq<string>, v: seq<Json>)
    requires |k| == |v| == 9
    ensures JoinedMembers(k, v) == Pair(k[0], v[0]) + ("," + (Pair(k[1], v[1]) + ("," + (Pair(k[2], v[2]) + ("," + (
      Pair(k[3], v[3]) + ("," + (Pair(k[4], v[4]) + ("," + (Pair(k[5], v[5]) + ("," + (Pair(k[6], v[6]) + ("," + (
      Pair(k[7], v[7]) + ("," + (Pair(k[8], v[8])))))))))))))))))
  {
    TextFrom(k, v, 0);
    TextFrom(k, v, 1);
    TextFrom(k, v, 2);
    TextFrom(k, v, 3);
    TextFrom(k, v, 4);
    TextFrom(k, v, 5);
    TextFrom(k, v, 6);
    TextFrom(k, v, 7);
    assert k[0..] == k && v[0..] == v;
    assert JoinedMembers(k[8..], v[8..]) == Pair(k[8], v[8]);
  }

  lemma PairIsPlain(k: string, v: Json, l: string, w: Json)
    requires PlainNumbers(v) && PlainNumbers(w)
    ensures PlainNumbers(Obj(Object([k, l], [v, w])))
  {
    PlainObject([k, l], [v, w]);
  }

  lemma SignDocIsPlain(data: string, signer: string)
    ensures PlainNumbers(SignDocJson(data, signer))
  {
    var value := Obj(Object(["data", "signer"], [Str(data), Str(signer)]));
    PairIsPlain("data", Str(data), "signer", Str(signer));
    PairIsPlain("type", Str("sign/MsgSignData"), "value", value);
    PairIsPlain("amount", Arr(NoItems), "gas", Str("0"));
    var msgs := Arr(Item(SignMsgJson(data, signer), NoItems));
    PlainObject(SignDocNames(), [Str("0"), Str(""), FeeJson(), Str(""), msgs, Str("0")]);
  }

  lemma PreimageText(a: Authorization)
    ensures var inner := Print(Obj(Object(SortedNames(), SortedValues(a))));
      Preimage(a) == Some(Encode(Print(SignDocJson(Encode64(Encode(inner)), a.from))))
  {
    CanonicalTree(a);
    var inner := Print(Obj(Object(SortedNames(), SortedValues(a))));
    var doc := SignDocJson(Encode64(Encode(inner)), a.from);
    SignDocSorted(Encode64(Encode(inner)), a.from);
    SignDocIsPlain(Encode64(Encode(inner)), a.from);
    SortJsonIsNormalForm(doc, doc);
  }

  lemma {:induction false} ObjectValuesDetermined(keys: seq<string>, v: seq<Json>, w: seq<Json>)
    requires |keys| == |v| == |w| && Object(keys, v) == Object(keys, w)
    ensures v == w
  {
    if keys != [] {
      ObjectValuesDetermined(keys[1..], v[1..], w[1..]);
      assert v == [v[0]] + v[1..] && w == [w[0]] + w[1..];
    }
  }

  lemma SameCanonicalText(a: Authorization, b: Authorization)
    ensures SortedValues(a) == SortedValues(b) <==> SameUpToRounding(a, b)
  {
    ReprintMerges(a.validAfter, b.validAfter);
    ReprintMerges(a.validBefore, b.validBefore);
    var v, w := SortedValues(a), SortedValues(b);
    if v == w {
      assert v[0] == w[0] && v[1] == w[1] && v[2] == w[2] && v[3] == w[3] && v[4] == w[4];
      assert v[5] == w[5] && v[6] == w[6] && v[7] == w[7] && v[8] == w[8];
    }
  }

  predicate AllPlain(s: string) {
    forall j | 0 <= j < |s| :: Plain(s[j])
  }

  lemma SortedNameIsPlain(i: nat)
    requires i < 9
    ensures AllPlain(SortedNames()[i])
  {
  }

  lemma SortedNamesPlain(names: seq<string>)
    requires names == SortedNames()
    ensures PlainKeys(names)
  {
    forall i | 0 <= i < |names| ensures Quote(names[i]) == "\"" + names[i] + "\"" {
      SortedNameIsPlain(i);
      PlainQuoted(names[i]);
    }
  }

  /** The nine fields in key order, nothing in between. */
  function CanonicalWire(a: Authorization): string {
    "{" + (
      Pair("amount", Str(a.amount)) + ("," + (Pair("chainId", Str(a.chainId)) + ("," + (
      Pair("denom", Str(a.denom)) + ("," + (Pair("from", Str(a.from)) + ("," + (Pair("nonce", Str(a.nonce)) + ("," + (
      Pair("resource", Str(a.resource)) + ("," + (Pair("to", Str(a.to)) + ("," + (
      Pair("validAfter", Num(Reprint(a.validAfter))) + ("," + (
      Pair("validBefore", Num(Reprint(a.validBefore)))))))))))))))))))) + "}"
  }

  /** The canonical bytes never fail to exist, and are these. */
  lemma CanonicalText(a: Authorization)
    ensures CanonicalAuthorizationJson(a) == Some(CanonicalWire(a))
  {
    CanonicalTree(a);
    SortedNamesPlain(SortedNames());
    ObjectText(SortedNames(), SortedValues(a));
    NineText(SortedNames(), SortedValues(a));
  }

  lemma SignDocNameIsPlain(i: nat)
    requires i < 6
    ensures AllPlain(SignDocNames()[i])
  {
  }

  lemma SignDocNamesPlain(names: seq<string>)
    requires names == SignDocNames()
    ensures PlainKeys(names)
  {
    forall i | 0 <= i < |names| ensures Quote(names[i]) == "\"" + names[i] + "\"" {
      SignDocNameIsPlain(i);
      PlainQuoted(names[i]);
    }
  }

  lemma PairText(k: string, v: Json, l: string, w: Json)
    requires AllPlain(k) && AllPlain(l)
    ensures Print(Obj(Object([k, l], [v, w]))) == TwoMembers(Pair(k, v), Pair(l, w))
  {
    PlainQuoted(k);
    PlainQuoted(l);
    ObjectText([k, l], [v, w]);
    TwoText([k, l], [v, w]);
  }

  /** An object of two members. */
  function TwoMembers(first: string, second: string): string {
    "{" + (first + ("," + second)) + "}"
  }

  /** A string without anything to escape. */
  function Quoted(text: string): string {
    "\"" + text + "\""
  }

  function FeeText(): string {
    TwoMembers(Named("amount", "[]"), Named("gas", Quoted("0")))
  }

  function SignDataText(data: string, signer: string): string {
    TwoMembers(Named("data", Quoted(data)), Named("signer", Quote(signer)))
  }

  function SignMsgText(data: string, signer: string): string {
    TwoMembers(Named("type", Quoted("sign/MsgSignData")), Named("value", SignDataText(data, signer)))
  }

  /** The ADR-036 document as text; only the payer can hold anything to escape. */
  function SignDocText(data: string, signer: string): string {
    "{" + (
      Named("account_number", Quoted("0")) + ("," + (Named("chain_id", Quoted("")) + ("," + (
      Named("fee", FeeText()) + ("," + (Named("memo", Quoted("")) + ("," + (
      Named("msgs", "[" + SignMsgText(data, signer) + "]") + ("," + (Named("sequence", Quoted("0"))))))))))))) + "}"
  }

  lemma NamedText(k: string, v: Json, l: string, w: Json, x: string, y: string)
    requires AllPlain(k) && AllPlain(l) && Print(v) == x && Print(w) == y
    ensures Print(Obj(Object([k, l], [v, w]))) == TwoMembers(Named(k, x), Named(l, y))
  {
    PairText(k, v, l, w);
  }

  lemma PlainPrints(text: string)
    requires AllPlain(text)
    ensures Print(Str(text)) == Quoted(text)
  {
    PlainQuoted(text);
  }

  lemma EmptyArrayPrints()
    ensures Print(Arr(NoItems)) == "[]"
  {
  }

  lemma FeePrints()
    ensures Print(FeeJson()) == FeeText()
  {
    EmptyArrayPrints();
    PlainPrints("0");
    NamedText("amount", Arr(NoItems), "gas", Str("0"), "[]", Quoted("0"));
  }

  /** Base64 text stands in a JSON string as it is. */
  lemma SignDataPrints(data: string, signer: string)
    requires Quote(data) == Quoted(data)
    ensures Print(Obj(Object(["data", "signer"], [Str(data), Str(signer)]))) == SignDataText(data, signer)
  {
    NamedText("data", Str(data), "signer", Str(signer), Quoted(data), Quote(signer));
  }

  lemma TypedPrints(tag: string, value: Json, text: string)
    requires AllPlain(tag) && Print(value) == text
    ensures Print(Obj(Object(["type", "value"], [Str(tag), value]))) ==
      TwoMembers(Named("type", Quoted(tag)), Named("value", text))
  {
    PlainPrints(tag);
    NamedText("type", Str(tag), "value", value, Quoted(tag), text);
  }

  lemma TagIsPlain()
    ensures AllPlain("sign/MsgSignData")
  {
  }

  lemma SignMsgPrints(data: string, signer: string)
    requires Quote(data) == Quoted(data)
    ensures Print(SignMsgJson(data, signer)) == SignMsgText(data, signer)
  {
    var value := Obj(Object(["data", "signer"], [Str(data), Str(signer)]));
    SignDataPrints(data, signer);
    TagIsPlain();
    TypedPrints("sign/MsgSignData", value, SignDataText(data, signer));
  }

  lemma OneItemPrints(item: Json)
    ensures Print(Arr(Item(item, NoItems))) == "[" + Print(item) + "]"
  {
  }

  /** The document with any fee and message in its place. */
  lemma DocumentPrints(fee: Json, msg: Json, zero: string, none: string)
    requires zero == "0" && none == ""
    ensures Print(Obj(Object(SignDocNames(),
                             [Str(zero), Str(none), fee, Str(none), Arr(Item(msg, NoItems)), Str(zero)]))) ==
      "{" + (
        Named("account_number", Quoted(zero)) + ("," + (Named("chain_id", Quoted(none)) + ("," + (
        Named("fee", Print(fee)) + ("," + (Named("memo", Quoted(none)) + ("," + (
        Named("msgs", "[" + Print(msg) + "]") + ("," + (Named("sequence", Quoted(zero))))))))))))) + "}"
  {
    var values := [Str(zero), Str(none), fee, Str(none), Arr(Item(msg, NoItems)), Str(zero)];
    PlainPrints(zero);
    PlainPrints(none);
    OneItemPrints(msg);
    SignDocNamesPlain(SignDocNames());
    ObjectText(SignDocNames(), values);
    SixText(SignDocNames(), values);
  }

  lemma SignDocPrints(data: string, signer: string)
    requires Quote(data) == Quoted(data)
    ensures Print(SignDocJson(data, signer)) == SignDocText(data, signer)
  {
    FeePrints();
    SignMsgPrints(data, signer);
    DocumentPrints(FeeJson(), SignMsgJson(data, signer), "0", "");
  }

  /** The ADR-036 document around the base64 of the canonical authorization, as bytes. */
  function SignedBytes(a: Authorization): seq<byte> {
    Encode(SignDocText(Encode64(Encode(CanonicalWire(a))), a.from))
  }

  lemma PreimageWireText(a: Authorization)
    ensures Preimage(a) == Some(SignedBytes(a))
  {
    PreimageText(a);
    CanonicalTree(a);
    CanonicalText(a);
    DecodeOfEncode(Encode(CanonicalWire(a)));
    SignDocPrints(Encode64(Encode(CanonicalWire(a))), a.from);
  }

  /** The signed bytes always exist and determine the authorization up to the rounding of its timestamps. */
  lemma PreimageDetermines(a: Authorization, b: Authorization)
    ensures Preimage(a).Some?
    ensures Preimage(a) == Preimage(b) <==> SameUpToRounding(a, b)
  {
    PreimageText(a);
    PreimageText(b);
    SameCanonicalText(a, b);
    if Preimage(a) == Preimage(b) {
      var x := Print(Obj(Object(SortedNames(), SortedValues(a))));
      var y := Print(Obj(Object(SortedNames(), SortedValues(b))));
      var dx, dy := SignDocJson(Encode64(Encode(x)), a.from), SignDocJson(Encode64(Encode(y)), b.from);
      EncodeInjective(Print(dx), Print(dy));
      PrintInjective(dx, dy);
      SignDocDetermines(Encode64(Encode(x)), a.from, Encode64(Encode(y)), b.from);
      DecodeOfEncode(Encode(x));
      DecodeOfEncode(Encode(y));
      EncodeInjective(x, y);
      PrintInjective(Obj(Object(SortedNames(), SortedValues(a))), Obj(Object(SortedNames(), SortedValues(b))));
      ObjectValuesDetermined(SortedNames(), SortedValues(a), SortedValues(b));
    }
  }

  /** With timestamps below 2^53 all nine fields are determined. */
  lemma PreimageInjective(a: Authorization, b: Authorization)
    requires SafeTimes(a) && SafeTimes(b)
    requires Preimage(a) == Preimage(b)
    ensures a == b
  {
    PreimageDetermines(a, b);
    FloatOfSmall(a.validAfter);
    FloatOfSmall(b.validAfter);
    FloatOfSmall(a.validBefore);
    FloatOfSmall(b.validBefore);
  }

  /** The bound cannot be raised: 2^53 and 2^53 + 1 are signed as the same bytes. */
  lemma PreimageCollision(a: Authorization)
    ensures Preimage(a.(validBefore := 9007199254740992)) == Preimage(a.(validBefore := 9007199254740993))
  {
    ReprintLosesFirstOddNumber();
    PreimageDetermines(a.(validBefore := 9007199254740992), a.(validBefore := 9007199254740993));
  }

  // ---- Signature verification ----

  /** Signature check and account address of a key, both left abstract. */
  datatype Scheme = Scheme(
    verify: (seq<byte>, seq<byte>, seq<byte>) -> bool,
    address: (string, seq<byte>) -> Option<string>)

  const PUBLIC_KEY_SIZE := 33
  const SIGNATURE_SIZE := 64

  /** The signer's address, or None for any of the failures, which the caller treats alike. */
  function VerifyAdr036(scheme: Scheme, publicKey: string, signature: string, a: Authorization, prefix: string)
    : (r: Option<string>)
  {
    var key :- Decode64(publicKey);
    if |key| != PUBLIC_KEY_SIZE then None
    else
      var sig :- Decode64(signature);
      if |sig| != SIGNATURE_SIZE then None
      else
        var preimage :- Preimage(a);
        if !scheme.verify(key, preimage, sig) then None
        else
          var addr :- scheme.address(prefix, key);
          if addr != a.from then None else Some(addr)
  }

  /** A key and a signature of the right sizes, encoded as sent, that sign the document for the key's own address. */
  ghost predicate Signs(scheme: Scheme, publicKey: string, signature: string, a: Authorization, prefix: string,
                        key: seq<byte>, sig: seq<byte>)
  {
    && Decode64(publicKey) == Some(key) && |key| == 33
    && Decode64(signature) == Some(sig) && |sig| == 64
    && scheme.verify(key, SignedBytes(a), sig)
    && scheme.address(prefix, key) == Some(a.from)
  }

  lemma AcceptedOver(scheme: Scheme, publicKey: string, signature: string, a: Authorization, prefix: string,
                     m: seq<byte>)
    requires Preimage(a) == Some(m)
    ensures VerifyAdr036(scheme, publicKey, signature, a, prefix) in {None, Some(a.from)}
    ensures VerifyAdr036(scheme, publicKey, signature, a, prefix).Some? <==>
      && Decode64(publicKey).Some? && |Decode64(publicKey).value| == 33
      && Decode64(signature).Some? && |Decode64(signature).value| == 64
      && scheme.verify(Decode64(publicKey).value, m, Decode64(signature).value)
      && scheme.address(prefix, Decode64(publicKey).value) == Some(a.from)
  {
  }

  /** Exactly that is accepted, and the answer is the payer. */
  lemma AcceptedIffSigned(scheme: Scheme, publicKey: string, signature: string, a: Authorization, prefix: string)
    ensures (VerifyAdr036(scheme, publicKey, signature, a, prefix).Some?
      <==> exists key, sig :: Signs(scheme, publicKey, signature, a, prefix, key, sig))
    ensures VerifyAdr036(scheme, publicKey, signature, a, prefix) in {None, Some(a.from)}
  {
    PreimageWireText(a);
    AcceptedOver(scheme, publicKey, signature, a, prefix, SignedBytes(a));
    if VerifyAdr036(scheme, publicKey, signature, a, prefix).Some? {
      assert Signs(scheme, publicKey, signature, a, prefix, Decode64(publicKey).value, Decode64(signature).value);
    }
  }

  /** A key's signature over the shared preimage is accepted exactly when the key's address is the claimed payer. */
  lemma SignedIsAccepted(scheme: Scheme, key: seq<byte>, sig: seq<byte>, a: Authorization, prefix: string)
    requires |key| == 33 && |sig| == 64 && scheme.verify(key, SignedBytes(a), sig)
    ensures VerifyAdr036(scheme, Encode64(key), Encode64(sig), a, prefix) ==
      if scheme.address(prefix, key) == Some(a.from) then Some(a.from) else None
  {
    DecodeOfEncode(key);
    DecodeOfEncode(sig);
    PreimageWireText(a);
  }

  /** If a signature is valid for one message only, it authorizes one payment only, up to timestamp rounding. */
  lemma OneSignatureOneAuthorization(scheme: Scheme, publicKey: string, signature: string,
                                     a: Authorization, b: Authorization, prefix: string)
    requires forall key, sig, m, n :: scheme.verify(key, m, sig) && scheme.verify(key, n, sig) ==> m == n
    requires VerifyAdr036(scheme, publicKey, signature, a, prefix).Some?
    requires VerifyAdr036(scheme, publicKey, signature, b, prefix).Some?
    ensures SameUpToRounding(a, b)
  {
    PreimageDetermines(a, b);
  }
}
