/**
 sdk.SortJSON: decode into untyped values and encode again. Object members go through a map, so the last duplicate
 wins and keys come out sorted; numbers go through a double.
 */
module CanonicalJson {
  import opened Wrappers
  import opened Float64
  import opened Json

  /** Byte order of UTF-8 text, which is code point order. */
  predicate Less(a: string, b: string) {
    b != "" && (a == "" || a[0] < b[0] || (a[0] == b[0] && Less(a[1..], b[1..])))
  }

  function Lookup(members: Members, key: string): (r: Option<Json>)
    ensures r.Some? ==> r.value < members
  {
    match members
    case NoMembers => None
    case Member(k, v, rest) =>
      var later := Lookup(rest, key);
      if later.Some? then later else if k == key then Some(v) else None
  }

  predicate HasKey(members: Members, key: string) {
    members.Member? && (members.key == key || HasKey(members.rest, key))
  }

  predicate DistinctKeys(members: Members) {
    members.Member? ==> !HasKey(members.rest, members.key) && DistinctKeys(members.rest)
  }

  /** Keys strictly increasing. */
  predicate Sorted(members: Members) {
    members.Member? ==> (members.rest.Member? ==> Less(members.key, members.rest.key)) && Sorted(members.rest)
  }

  function Put(members: Members, key: string, value: Json): Members {
    match members
    case NoMembers => Member(key, value, NoMembers)
    case Member(k, v, rest) =>
      if k == key then Member(key, value, rest)
      else if Less(key, k) then Member(key, value, members)
      else Member(k, v, Put(rest, key, value))
  }

  function Sort(j: Json): Json
    decreases j
  {
    match j
    case Str(_) => j
    case Num(number) => Num(Reprint(number))
    case Arr(items) => Arr(SortItems(items))
    case Obj(members) => Obj(SortMembers(members, NoMembers))
  }

  function SortItems(items: Items): Items
    decreases items
  {
    match items
    case NoItems => NoItems
    case Item(head, tail) => Item(Sort(head), SortItems(tail))
  }

  /** Decoding fills the map from the first member to the last. */
  function SortMembers(members: Members, decoded: Members): Members
    decreases members
  {
    match members
    case NoMembers => decoded
    case Member(key, value, rest) => SortMembers(rest, Put(decoded, key, Sort(value)))
  }

  function SortJson(text: string): Option<string> {
    var j :- Parse(text);
    Some(Print(Sort(j)))
  }

  // ---- When two documents mean the same ----

  ghost predicate Same(a: Json, b: Json)
    decreases a
  {
    match (a, b)
    case (Str(s), Str(t)) => s == t
    case (Num(m), Num(n)) => FloatOf(m) == FloatOf(n)
    case (Arr(xs), Arr(ys)) => SameItems(xs, ys)
    case (Obj(ms), Obj(ns)) => forall k :: SameAt(ms, ns, k)
    case _ => false
  }

  /** The two objects agree on key k. */
  ghost predicate SameAt(ms: Members, ns: Members, k: string)
    decreases ms
  {
    match (Lookup(ms, k), Lookup(ns, k))
    case (None, None) => true
    case (Some(v), Some(w)) => Same(v, w)
    case _ => false
  }

  ghost predicate SameItems(xs: Items, ys: Items)
    decreases xs
  {
    match (xs, ys)
    case (NoItems, NoItems) => true
    case (Item(x, xt), Item(y, yt)) => Same(x, y) && SameItems(xt, yt)
    case _ => false
  }

  // ---- The order on keys ----

  lemma {:induction false} LessTotal(a: string, b: string)
    ensures Less(a, b) || a == b || Less(b, a)
  {
    if a != "" && b != "" && a[0] == b[0] {
      LessTotal(a[1..], b[1..]);
      assert a == [a[0]] + a[1..] && b == [b[0]] + b[1..];
    }
  }

  lemma {:induction false} LessTransitive(a: string, b: string, c: string)
    requires Less(a, b) && Less(b, c)
    ensures Less(a, c)
  {
    if a != "" && a[0] == b[0] == c[0] {
      LessTransitive(a[1..], b[1..], c[1..]);
    }
  }

  lemma {:induction false} LessIrreflexive(a: string)
    ensures !Less(a, a)
  {
    if a != "" {
      LessIrreflexive(a[1..]);
    }
  }

  // ---- Sorted member lists are determined by what they map ----

  lemma {:induction false} SmallerKeyAbsent(members: Members, key: string)
    requires Sorted(members) && (members.Member? ==> Less(key, members.key))
    ensures !HasKey(members, key)
  {
    if members.Member? {
      LessIrreflexive(key);
      if members.rest.Member? {
        LessTransitive(key, members.key, members.rest.key);
      }
      SmallerKeyAbsent(members.rest, key);
    }
  }

  lemma {:induction false} LookupIffHasKey(members: Members, key: string)
    ensures Lookup(members, key).Some? <==> HasKey(members, key)
  {
    if members.Member? {
      LookupIffHasKey(members.rest, key);
    }
  }

  lemma SortedHead(members: Members)
    requires Sorted(members) && members.Member?
    ensures Lookup(members, members.key) == Some(members.value)
    ensures Lookup(members.rest, members.key) == None
  {
    SmallerKeyAbsent(members.rest, members.key);
    LookupIffHasKey(members.rest, members.key);
  }

  lemma {:induction false} SortedUnique(a: Members, b: Members)
    requires Sorted(a) && Sorted(b)
    requires forall k :: Lookup(a, k) == Lookup(b, k)
    ensures a == b
  {
    if a.Member? && b.Member? {
      LessTotal(a.key, b.key);
      if Less(a.key, b.key) {
        SmallerKeyAbsent(b, a.key);
        LookupIffHasKey(b, a.key);
        SortedHead(a);
        assert false;
      } else if Less(b.key, a.key) {
        SmallerKeyAbsent(a, b.key);
        LookupIffHasKey(a, b.key);
        SortedHead(b);
        assert false;
      } else {
        SortedHead(a);
        SortedHead(b);
        forall k ensures Lookup(a.rest, k) == Lookup(b.rest, k) {
          assert Lookup(a, k) == Lookup(b, k);
        }
        SortedUnique(a.rest, b.rest);
      }
    } else if a.Member? {
      SortedHead(a);
      assert false;
    } else if b.Member? {
      SortedHead(b);
      assert false;
    }
  }

  lemma {:induction false} PutSorted(members: Members, key: string, value: Json)
    requires Sorted(members)
    ensures Sorted(Put(members, key, value))
    ensures Put(members, key, value).Member?
    ensures Put(members, key, value).key == if members.Member? && !Less(key, members.key) then members.key else key
  {
    if members.Member? && members.key != key && !Less(key, members.key) {
      LessTotal(key, members.key);
      PutSorted(members.rest, key, value);
    } else if members.Member? && members.key == key {
      LessIrreflexive(key);
    }
  }

  lemma {:induction false} LookupPut(members: Members, key: string, value: Json, k: string)
    requires Sorted(members)
    ensures Lookup(Put(members, key, value), k) == if k == key then Some(value) else Lookup(members, k)
  {
    if members.Member? {
      if members.key == key {
        SortedHead(members);
      } else if Less(key, members.key) {
        SmallerKeyAbsent(members, key);
        LookupIffHasKey(members, key);
      } else {
        LookupPut(members.rest, key, value, k);
      }
    }
  }

  /** The sorted object maps each key to the sorted last value the original gave it. */
  lemma {:induction false} SortMembersLookup(members: Members, decoded: Members, k: string)
    requires Sorted(decoded)
    ensures Sorted(SortMembers(members, decoded))
    ensures Lookup(SortMembers(members, decoded), k) ==
      match Lookup(members, k) case Some(v) => Some(Sort(v)) case None => Lookup(decoded, k)
  {
    if members.Member? {
      PutSorted(decoded, members.key, Sort(members.value));
      LookupPut(decoded, members.key, Sort(members.value), k);
      SortMembersLookup(members.rest, Put(decoded, members.key, Sort(members.value)), k);
    }
  }

  // ---- Normal form ----

  /** Canonical trees are equal exactly when the documents mean the same. */
  lemma {:induction false} SortDecidesSame(a: Json, b: Json)
    ensures Sort(a) == Sort(b) <==> Same(a, b)
    decreases a
  {
    if a.Num? && b.Num? {
      ReprintMerges(a.number, b.number);
    } else if a.Arr? && b.Arr? {
      SortItemsDecidesSame(a.items, b.items);
    } else if a.Obj? && b.Obj? {
      SortMembersDecidesSame(a.members, b.members);
    }
  }

  lemma {:induction false} SortItemsDecidesSame(xs: Items, ys: Items)
    ensures SortItems(xs) == SortItems(ys) <==> SameItems(xs, ys)
    decreases xs
  {
    if xs.Item? && ys.Item? {
      SortDecidesSame(xs.head, ys.head);
      SortItemsDecidesSame(xs.tail, ys.tail);
    }
  }

  lemma {:induction false} SortMembersDecidesSame(ms: Members, ns: Members)
    ensures Sort(Obj(ms)) == Sort(Obj(ns)) <==> Same(Obj(ms), Obj(ns))
    decreases ms
  {
    var s, t := SortMembers(ms, NoMembers), SortMembers(ns, NoMembers);
    forall k ensures SameAt(ms, ns, k) <==> Lookup(s, k) == Lookup(t, k) {
      SortMembersLookup(ms, NoMembers, k);
      SortMembersLookup(ns, NoMembers, k);
      if Lookup(ms, k).Some? && Lookup(ns, k).Some? {
        SortDecidesSame(Lookup(ms, k).value, Lookup(ns, k).value);
      }
    }
    SortMembersLookup(ms, NoMembers, "");
    SortMembersLookup(ns, NoMembers, "");
    if forall k :: Lookup(s, k) == Lookup(t, k) {
      SortedUnique(s, t);
    }
  }

  /** Sorting keeps the meaning, hence sorting twice changes nothing. */
  lemma {:induction false} SortIdempotent(j: Json)
    ensures Sort(Sort(j)) == Sort(j)
    decreases j
  {
    match j {
      case Num(number) =>
        ReprintMerges(Reprint(number), number);
      case Arr(items) => SortItemsIdempotent(items);
      case Obj(members) =>
        var s := SortMembers(members, NoMembers);
        var t := SortMembers(s, NoMembers);
        forall k ensures Lookup(s, k) == Lookup(t, k) {
          SortMembersLookup(members, NoMembers, k);
          SortMembersLookup(s, NoMembers, k);
          if Lookup(members, k).Some? {
            SortIdempotent(Lookup(members, k).value);
          }
        }
        SortMembersLookup(members, NoMembers, "");
        SortMembersLookup(s, NoMembers, "");
        SortedUnique(s, t);
      case _ =>
    }
  }

  lemma {:induction false} SortItemsIdempotent(items: Items)
    ensures SortItems(SortItems(items)) == SortItems(items)
    decreases items
  {
    if items.Item? {
      SortIdempotent(items.head);
      SortItemsIdempotent(items.tail);
    }
  }

  /** Doubles from here on are printed with an exponent. */
  const EXPONENT_FROM := 1_000_000_000_000_000_000_000

  /** The numbers are printed without an exponent again. */
  predicate PlainNumbers(j: Json)
    decreases j
  {
    match j
    case Str(_) => true
    case Num(number) => FloatOf(number) < EXPONENT_FROM
    case Arr(items) => PlainItems(items)
    case Obj(members) => PlainMembers(members)
  }

  predicate PlainItems(items: Items)
    decreases items
  {
    items.Item? ==> PlainNumbers(items.head) && PlainItems(items.tail)
  }

  predicate PlainMembers(members: Members)
    decreases members
  {
    members.Member? ==> PlainNumbers(members.value) && PlainMembers(members.rest)
  }

  /** On such documents SortJSON never fails, is idempotent, and its output text decides equal meaning. */
  lemma SortJsonIsNormalForm(a: Json, b: Json)
    requires PlainNumbers(a) && PlainNumbers(b)
    ensures SortJson(Print(a)) == Some(Print(Sort(a)))
    ensures SortJson(SortJson(Print(a)).value) == SortJson(Print(a))
    ensures SortJson(Print(a)) == SortJson(Print(b)) <==> Same(a, b)
  {
    ParseOfPrint(a);
    ParseOfPrint(b);
    ParseOfPrint(Sort(a));
    SortIdempotent(a);
    SortDecidesSame(a, b);
    if Print(Sort(a)) == Print(Sort(b)) {
      PrintInjective(Sort(a), Sort(b));
    }
  }

  // ---- Reordering members ----

  ghost function Pairs(members: Members): multiset<(string, Json)> {
    match members
    case NoMembers => multiset{}
    case Member(key, value, rest) => multiset{(key, value)} + Pairs(rest)
  }

  /** a and b differ only in the order of object members, at any depth. */
  ghost predicate Reordered(a: Json, b: Json)
    decreases a
  {
    match (a, b)
    case (Arr(xs), Arr(ys)) => ReorderedItems(xs, ys)
    case (Obj(ms), Obj(ns)) => exists ls :: Pairs(ls) == Pairs(ns) && ReorderedMembers(ms, ls)
    case _ => a == b
  }

  ghost predicate ReorderedItems(xs: Items, ys: Items)
    decreases xs
  {
    match (xs, ys)
    case (NoItems, NoItems) => true
    case (Item(x, xt), Item(y, yt)) => Reordered(x, y) && ReorderedItems(xt, yt)
    case _ => false
  }

  /** Same keys in the same places, values reordered inside. */
  ghost predicate ReorderedMembers(ms: Members, ls: Members)
    decreases ms
  {
    match (ms, ls)
    case (NoMembers, NoMembers) => true
    case (Member(k, v, mt), Member(l, w, lt)) => k == l && Reordered(v, w) && ReorderedMembers(mt, lt)
    case _ => false
  }

  /** Every object in the tree has distinct keys. */
  ghost predicate WellKeyed(j: Json)
    decreases j
  {
    match j
    case Arr(items) => WellKeyedItems(items)
    case Obj(members) => DistinctKeys(members) && WellKeyedMembers(members)
    case _ => true
  }

  ghost predicate WellKeyedItems(items: Items)
    decreases items
  {
    items.Item? ==> WellKeyed(items.head) && WellKeyedItems(items.tail)
  }

  ghost predicate WellKeyedMembers(members: Members)
    decreases members
  {
    members.Member? ==> WellKeyed(members.value) && WellKeyedMembers(members.rest)
  }

  lemma {:induction false} LookupIsPair(members: Members, key: string, value: Json)
    requires DistinctKeys(members)
    ensures Lookup(members, key) == Some(value) <==> (key, value) in Pairs(members)
    ensures HasKey(members, key) <==> Lookup(members, key).Some?
  {
    if members.Member? {
      LookupIsPair(members.rest, key, value);
      LookupIffHasKey(members.rest, key);
    }
  }

  lemma {:induction false} PairsFixLookup(ms: Members, ns: Members, key: string)
    requires DistinctKeys(ms) && DistinctKeys(ns) && Pairs(ms) == Pairs(ns)
    ensures Lookup(ms, key) == Lookup(ns, key)
  {
    if Lookup(ms, key).Some? {
      LookupIsPair(ms, key, Lookup(ms, key).value);
      LookupIsPair(ns, key, Lookup(ms, key).value);
    } else if Lookup(ns, key).Some? {
      LookupIsPair(ns, key, Lookup(ns, key).value);
      LookupIsPair(ms, key, Lookup(ns, key).value);
    }
  }

  lemma {:induction false} ReorderedSorts(a: Json, b: Json)
    requires WellKeyed(a) && WellKeyed(b) && Reordered(a, b)
    ensures Sort(a) == Sort(b)
    decreases a
  {
    match (a, b) {
      case (Arr(xs), Arr(ys)) => ReorderedItemsSort(xs, ys);
      case (Obj(ms), Obj(ns)) =>
        var ls :| Pairs(ls) == Pairs(ns) && ReorderedMembers(ms, ls);
        ReorderedKeys(ms, ls);
        WellKeyedPairs(ns, ls);
        var s, t := SortMembers(ms, NoMembers), SortMembers(ns, NoMembers);
        forall k ensures Lookup(s, k) == Lookup(t, k) {
          SortMembersLookup(ms, NoMembers, k);
          SortMembersLookup(ns, NoMembers, k);
          PairsFixLookup(ls, ns, k);
          ReorderedLookup(ms, ls, k);
        }
        SortMembersLookup(ms, NoMembers, "");
        SortMembersLookup(ns, NoMembers, "");
        SortedUnique(s, t);
      case _ =>
    }
  }

  lemma {:induction false} ReorderedItemsSort(xs: Items, ys: Items)
    requires WellKeyedItems(xs) && WellKeyedItems(ys) && ReorderedItems(xs, ys)
    ensures SortItems(xs) == SortItems(ys)
    decreases xs
  {
    if xs.Item? {
      ReorderedSorts(xs.head, ys.head);
      ReorderedItemsSort(xs.tail, ys.tail);
    }
  }

  lemma {:induction false} ReorderedKeys(ms: Members, ls: Members)
    requires ReorderedMembers(ms, ls)
    ensures forall k :: HasKey(ms, k) <==> HasKey(ls, k)
    ensures DistinctKeys(ms) <==> DistinctKeys(ls)
  {
    if ms.Member? {
      ReorderedKeys(ms.rest, ls.rest);
    }
  }

  lemma {:induction false} PairIsWellKeyed(members: Members, key: string, value: Json)
    requires WellKeyedMembers(members) && (key, value) in Pairs(members)
    ensures WellKeyed(value)
  {
    if (key, value) != (members.key, members.value) {
      PairIsWellKeyed(members.rest, key, value);
    }
  }

  lemma {:induction false} AllPairsWellKeyed(members: Members)
    requires forall p | p in Pairs(members) :: WellKeyed(p.1)
    ensures WellKeyedMembers(members)
  {
    if members.Member? {
      assert (members.key, members.value) in Pairs(members);
      AllPairsWellKeyed(members.rest);
    }
  }

  lemma WellKeyedPairs(ns: Members, ls: Members)
    requires WellKeyedMembers(ns) && Pairs(ls) == Pairs(ns)
    ensures WellKeyedMembers(ls)
  {
    forall p | p in Pairs(ls) ensures WellKeyed(p.1) {
      PairIsWellKeyed(ns, p.0, p.1);
    }
    AllPairsWellKeyed(ls);
  }

  lemma {:induction false} ReorderedLookup(ms: Members, ls: Members, k: string)
    requires ReorderedMembers(ms, ls) && WellKeyedMembers(ms) && WellKeyedMembers(ls)
    ensures match (Lookup(ms, k), Lookup(ls, k))
      case (None, None) => true
      case (Some(v), Some(w)) => Sort(v) == Sort(w)
      case _ => false
    decreases ms
  {
    if ms.Member? {
      ReorderedLookup(ms.rest, ls.rest, k);
      ReorderedSorts(ms.value, ls.value);
    }
  }

  // ---- Objects given by their keys and values ----

  function Object(keys: seq<string>, values: seq<Json>): Members
    requires |keys| == |values|
  {
    if keys == [] then NoMembers else Member(keys[0], values[0], Object(keys[1..], values[1..]))
  }

  lemma {:induction false} PlainObject(keys: seq<string>, values: seq<Json>)
    requires |keys| == |values| && forall i | 0 <= i < |values| :: PlainNumbers(values[i])
    ensures PlainMembers(Object(keys, values))
  {
    if keys != [] {
      PlainObject(keys[1..], values[1..]);
    }
  }

  ghost predicate Distinct(keys: seq<string>) {
    forall i, j | 0 <= i < j < |keys| :: keys[i] != keys[j]
  }

  ghost predicate Ascending(keys: seq<string>) {
    forall i | 0 <= i < |keys| - 1 :: Less(keys[i], keys[i + 1])
  }

  lemma {:induction false} AscendingLess(keys: seq<string>, i: nat, j: nat)
    requires Ascending(keys) && i < j < |keys|
    ensures Less(keys[i], keys[j])
  {
    if i + 1 < j {
      AscendingLess(keys, i, j - 1);
      LessTransitive(keys[i], keys[j - 1], keys[j]);
    }
  }

  lemma AscendingDistinct(keys: seq<string>)
    requires Ascending(keys)
    ensures Distinct(keys)
  {
    forall i, j | 0 <= i < j < |keys| ensures keys[i] != keys[j] {
      AscendingLess(keys, i, j);
      LessIrreflexive(keys[i]);
    }
  }

  lemma {:induction false} AscendingSorted(keys: seq<string>, values: seq<Json>)
    requires |keys| == |values| && Ascending(keys)
    ensures Sorted(Object(keys, values))
  {
    if keys != [] {
      AscendingSorted(keys[1..], values[1..]);
    }
  }

  lemma {:induction false} ObjectLookup(keys: seq<string>, values: seq<Json>, key: string)
    requires |keys| == |values| && Distinct(keys)
    ensures key !in keys ==> Lookup(Object(keys, values), key) == None
    ensures forall i | 0 <= i < |keys| && keys[i] == key :: Lookup(Object(keys, values), key) == Some(values[i])
  {
    if keys != [] {
      ObjectLookup(keys[1..], values[1..], key);
      forall i | 0 <= i < |keys| && keys[i] == key
        ensures Lookup(Object(keys, values), key) == Some(values[i])
      {
        if i > 0 {
          assert keys[1..][i - 1] == key && values[1..][i - 1] == values[i];
        } else {
          assert key !in keys[1..];
        }
      }
    }
  }

  /** `ascending` and `sorted` list the members in key order; `origin` and `place` are inverse permutations. */
  ghost predicate Permutes(keys: seq<string>, values: seq<Json>, ascending: seq<string>, sorted: seq<Json>,
                           origin: seq<nat>, place: seq<nat>)
  {
    && |keys| == |values| == |ascending| == |sorted| == |origin| == |place|
    && (forall j | 0 <= j < |keys| :: (origin[j] < |keys|
      && ascending[j] == keys[origin[j]] && sorted[j] == Sort(values[origin[j]])))
    && (forall i | 0 <= i < |keys| :: place[i] < |keys| && origin[place[i]] == i)
  }

  lemma PermutedLookup(keys: seq<string>, values: seq<Json>, ascending: seq<string>, sorted: seq<Json>,
                       origin: seq<nat>, place: seq<nat>, k: string)
    requires Permutes(keys, values, ascending, sorted, origin, place)
    requires Distinct(keys) && Distinct(ascending)
    ensures Lookup(Object(ascending, sorted), k) ==
      match Lookup(Object(keys, values), k) case Some(v) => Some(Sort(v)) case None => None
  {
    ObjectLookup(keys, values, k);
    ObjectLookup(ascending, sorted, k);
    if k in keys {
      var i :| 0 <= i < |keys| && keys[i] == k;
      assert ascending[place[i]] == k;
    }
  }

  lemma PermutedDistinct(keys: seq<string>, values: seq<Json>, ascending: seq<string>, sorted: seq<Json>,
                         origin: seq<nat>, place: seq<nat>)
    requires Permutes(keys, values, ascending, sorted, origin, place) && Distinct(ascending)
    ensures Distinct(keys)
  {
    forall i, j | 0 <= i < j < |keys| ensures keys[i] != keys[j] {
      assert keys[i] == ascending[place[i]] && keys[j] == ascending[place[j]];
      assert place[i] != place[j];
    }
  }

  /** Sorting an object whose keys are a permutation of an ascending list. */
  lemma SortPermuted(keys: seq<string>, values: seq<Json>, ascending: seq<string>, sorted: seq<Json>,
                     origin: seq<nat>, place: seq<nat>)
    requires Permutes(keys, values, ascending, sorted, origin, place) && Ascending(ascending)
    ensures Sort(Obj(Object(keys, values))) == Obj(Object(ascending, sorted))
  {
    AscendingDistinct(ascending);
    PermutedDistinct(keys, values, ascending, sorted, origin, place);
    var s, t := SortMembers(Object(keys, values), NoMembers), Object(ascending, sorted);
    forall k ensures Lookup(s, k) == Lookup(t, k) {
      SortMembersLookup(Object(keys, values), NoMembers, k);
      PermutedLookup(keys, values, ascending, sorted, origin, place, k);
    }
    SortMembersLookup(Object(keys, values), NoMembers, "");
    AscendingSorted(ascending, sorted);
    SortedUnique(s, t);
  }
}
