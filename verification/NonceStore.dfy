/** The in-memory nonce store of facilitator/store.go, and what each operation does to it. */
module NonceStore {
  import opened Wrappers
  import opened Types

  const NANOS := 1_000_000_000

  /** Offset that time.Unix adds to seconds since 1970, in 64-bit arithmetic. */
  const UNIX_TO_INTERNAL := 62_135_596_800

  /** Nanoseconds since 1970, in the range a clock reading can represent. */
  type Instant = t: int | -TWO_TO_63 * NANOS <= t < (TWO_TO_63 - UNIX_TO_INTERNAL) * NANOS

  /** Whole seconds, rounded down. */
  function UnixSeconds(t: Instant): int64 {
    t / NANOS
  }

  function Wrap64(x: int): int64 {
    (x + TWO_TO_63) % TWO_TO_64 - TWO_TO_63
  }

  /** The second (since 1970) that comparisons with time.Unix(int64(validBefore), 0) see. */
  function Deadline(validBefore: uint64): int {
    Wrap64(ToInt64(validBefore) + UNIX_TO_INTERNAL) - UNIX_TO_INTERNAL
  }

  /**
   The stored deadline is the signed one exactly below this bound; beyond it, it lies before 1970. It is always the one
   second that agrees with the signed one modulo 2^64 and that a time can represent.
   */
  lemma DeadlineExact(validBefore: uint64)
    ensures Deadline(validBefore) == validBefore <==> validBefore < 0x8000_0000_0000_0000 - 62_135_596_800
    ensures Deadline(validBefore) == validBefore <==> validBefore < TWO_TO_63 - UNIX_TO_INTERNAL
    ensures Deadline(validBefore) != validBefore ==> Deadline(validBefore) < 0
    ensures (Deadline(validBefore) - validBefore) % 0x1_0000_0000_0000_0000 == 0
    ensures -0x8000_0000_0000_0000 <= Deadline(validBefore) + 62_135_596_800 < 0x8000_0000_0000_0000
  {
  }

  // ---- What each operation does, on any key type ----

  datatype Entry = Entry(committed: bool, txHash: string, deadline: int)

  type Table<K> = map<K, Entry>

  /** Inserts a pending entry, unless the key is present in either state. */
  function ReserveSpec<K>(t: Table<K>, k: K, deadline: int): (Table<K>, bool) {
    if k in t then (t, false) else (t[k := Entry(false, "", deadline)], true)
  }

  /** Fails only on an absent key. */
  function CommitSpec<K>(t: Table<K>, k: K, txHash: string): (Table<K>, bool) {
    if k in t then (t[k := Entry(true, txHash, t[k].deadline)], true) else (t, false)
  }

  /** Removes a pending entry; absent is fine, committed is refused. */
  function ReleaseSpec<K>(t: Table<K>, k: K): (Table<K>, bool) {
    if k in t && t[k].committed then (t, false) else (t - {k}, true)
  }

  /** What has been committed cannot be released: the attempt fails and changes nothing. */
  lemma CommittedCannotBeReleased<K>(t: Table<K>, k: K, txHash: string)
    requires k in t
    ensures var committed := CommitSpec(t, k, txHash).0;
      && committed == t[k := Entry(true, txHash, t[k].deadline)]
      && ReleaseSpec(committed, k) == (committed, false)
      && ReserveSpec(committed, k, t[k].deadline) == (committed, false)
  {
  }

  predicate Expired(e: Entry, now: Instant) {
    !e.committed && now > e.deadline * NANOS
  }

  function CollectSpec<K>(t: Table<K>, now: Instant): Table<K> {
    map k | k in t && !Expired(t[k], now) :: t[k]
  }

  // ---- The store ----

  class NonceState {
    var committed: bool
    var txHash: string
    const validBefore: int

    constructor (validBefore: int)
      ensures !committed && txHash == "" && this.validBefore == validBefore
    {
      committed, txHash := false, "";
      this.validBefore := validBefore;
    }
  }

  datatype StoreError = NonceUsed | CommitWithoutReserve | CannotReleaseCommitted

  class MemoryNonceStore {
    var m: map<string, NonceState>

    /** No two keys share an entry object. */
    ghost predicate Valid()
      reads this
    {
      forall k, l | k in m && l in m && k != l :: m[k] != m[l]
    }

    ghost function View(): Table<string>
      reads this, m.Values
    {
      map k | k in m :: Entry(m[k].committed, m[k].txHash, m[k].validBefore)
    }

    constructor ()
      ensures Valid() && View() == map[]
    {
      m := map[];
    }

    method Reserve(payer: string, chainId: string, nonce: string, validBefore: int) returns (err: Option<StoreError>)
      requires Valid()
      modifies this
      ensures Valid() && fresh(m.Values - old(m.Values))
      ensures (View(), err.None?) == ReserveSpec(old(View()), NonceKey(payer, chainId, nonce), validBefore)
      ensures var k := NonceKey(payer, chainId, nonce);
        if k in old(View()) then err == Some(NonceUsed) && View() == old(View())
        else err == None && View() == old(View())[k := Entry(false, "", validBefore)]
    {
      var k := NonceKey(payer, chainId, nonce);
      if k in m {
        return Some(NonceUsed);
      }
      var st := new NonceState(validBefore);
      m := m[k := st];
      assert m.Values <= old(m.Values) + {st};
      assert View() == ReserveSpec(old(View()), k, validBefore).0;
      return None;
    }

    method Commit(payer: string, chainId: string, nonce: string, txHash: string) returns (err: Option<StoreError>)
      requires Valid()
      modifies m.Values
      ensures Valid()
      ensures (View(), err.None?) == CommitSpec(old(View()), NonceKey(payer, chainId, nonce), txHash)
      ensures var k := NonceKey(payer, chainId, nonce);
        if k in old(View()) then
          err == None && View() == old(View())[k := Entry(true, txHash, old(View())[k].deadline)]
        else err == Some(CommitWithoutReserve) && View() == old(View())
    {
      var k := NonceKey(payer, chainId, nonce);
      if k !in m {
        return Some(CommitWithoutReserve);
      }
      var st := m[k];
      st.committed := true;
      st.txHash := txHash;
      assert View() == CommitSpec(old(View()), k, txHash).0;
      return None;
    }

    method Release(payer: string, chainId: string, nonce: string) returns (err: Option<StoreError>)
      requires Valid()
      modifies this
      ensures Valid() && m.Values <= old(m.Values)
      ensures (View(), err.None?) == ReleaseSpec(old(View()), NonceKey(payer, chainId, nonce))
      ensures var k := NonceKey(payer, chainId, nonce);
        if k in old(View()) && old(View())[k].committed then
          err == Some(CannotReleaseCommitted) && View() == old(View())
        else err == None && View() == old(View()) - {k}
    {
      var k := NonceKey(payer, chainId, nonce);
      if k !in m {
        assert View() == ReleaseSpec(old(View()), k).0;
        return None;
      }
      var st := m[k];
      if st.committed {
        return Some(CannotReleaseCommitted);
      }
      m := m - {k};
      assert View() == ReleaseSpec(old(View()), k).0;
      return None;
    }

    method Exists(payer: string, chainId: string, nonce: string) returns (found: bool)
      ensures found <==> NonceKey(payer, chainId, nonce) in View()
    {
      found := NonceKey(payer, chainId, nonce) in m;
    }

    /** Visits the keys in no particular order, deleting as it goes. */
    method GC(now: Instant) returns (n: nat)
      requires Valid()
      modifies this
      ensures Valid() && m.Values <= old(m.Values)
      ensures View() == CollectSpec(old(View()), now)
      ensures forall k :: k in View() <==>
        k in old(View()) && (old(View())[k].committed || now <= old(View())[k].deadline * 1_000_000_000)
      ensures forall k | k in View() :: View()[k] == old(View())[k]
      ensures n == |old(View())| - |View()|
    {
      n := 0;
      var todo := m.Keys;
      ghost var all := m;
      while todo != {}
        invariant todo <= m.Keys <= all.Keys
        invariant forall k | k in m :: m[k] == all[k]
        invariant forall k | k in all && k !in todo :: k in m <==> !Stale(all[k], now)
        invariant n == |all| - |m|
      {
        var k :| k in todo;
        var st := m[k];
        if !st.committed && now > st.validBefore * NANOS {
          RemovedSize(m, k);
          m := m - {k};
          n := n + 1;
        }
        todo := todo - {k};
      }
      Swept(now);
    }

    twostate lemma Swept(now: Instant)
      requires unchanged(old(m).Values)
      requires m.Keys <= old(m).Keys && forall k | k in m :: m[k] == old(m)[k]
      requires forall k | k in old(m) :: k in m <==> !Stale(old(m)[k], now)
      ensures View() == CollectSpec(old(View()), now)
      ensures |View()| == |m| && |old(View())| == |old(m)|
    {
      assert View().Keys == m.Keys && old(View()).Keys == old(m).Keys;
    }

    ghost predicate Stale(st: NonceState, now: Instant)
      reads st
    {
      !st.committed && now > st.validBefore * NANOS
    }
  }

  lemma RemovedSize<K, V>(m: map<K, V>, k: K)
    requires k in m
    ensures |m - {k}| == |m| - 1
  {
    assert (m - {k}).Keys == m.Keys - {k};
  }

  // ---- Key text ----

  function NonceKey(payer: string, chainId: string, nonce: string): string {
    payer + "|" + chainId + "|" + nonce
  }

  lemma {:induction false} SplitAtBar(a: string, x: string, b: string, y: string)
    requires '|' !in a && '|' !in b && a + "|" + x == b + "|" + y
    ensures a == b && x == y
  {
    var s, t := a + "|" + x, b + "|" + y;
    assert s[|a|] == '|' && t[|b|] == '|';
    assert a == s[..|a|] && b == t[..|b|];
    assert x == s[|a| + 1..] && y == t[|b| + 1..];
    if |a| < |b| {
      assert false;
    } else if |b| < |a| {
      assert false;
    }
  }

  /** The key names one triple when payer and chain id hold no bar; the nonce may hold anything. */
  lemma NonceKeyInjective(payer: string, chainId: string, nonce: string,
                          payer': string, chainId': string, nonce': string)
    requires '|' !in payer && '|' !in chainId && '|' !in payer' && '|' !in chainId'
    requires NonceKey(payer, chainId, nonce) == NonceKey(payer', chainId', nonce')
    ensures payer == payer' && chainId == chainId' && nonce == nonce'
  {
    assert NonceKey(payer, chainId, nonce) == payer + "|" + (chainId + "|" + nonce);
    assert NonceKey(payer', chainId', nonce') == payer' + "|" + (chainId' + "|" + nonce');
    SplitAtBar(payer, chainId + "|" + nonce, payer', chainId' + "|" + nonce');
    SplitAtBar(chainId, nonce, chainId', nonce');
  }

  /** Any bar that moves between payer and chain id gives two triples one key. */
  lemma NonceKeyAmbiguous(p: string, x: string, c: string, nonce: string)
    ensures NonceKey(p + "|" + x, c, nonce) == NonceKey(p, x + "|" + c, nonce)
    ensures p + "|" + x != p
  {
    assert |p + "|" + x| > |p|;
  }

  // ---- The text-keyed store refines a store on triples ----

  datatype Key = Key(payer: string, chainId: string, nonce: string) {
    function Text(): string {
      NonceKey(payer, chainId, nonce)
    }

    predicate Clean() {
      '|' !in payer && '|' !in chainId
    }
  }

  ghost predicate Represents(t: Table<string>, a: Table<Key>) {
    && (forall k | k in a :: k.Clean() && k.Text() in t && t[k.Text()] == a[k])
    && (forall x | x in t :: exists k :: k in a && k.Text() == x)
  }

  lemma RepresentsMember(t: Table<string>, a: Table<Key>, k: Key)
    requires Represents(t, a) && k.Clean()
    ensures k.Text() in t <==> k in a
    ensures k in a ==> t[k.Text()] == a[k]
  {
    if k.Text() in t {
      var l :| l in a && l.Text() == k.Text();
      NonceKeyInjective(k.payer, k.chainId, k.nonce, l.payer, l.chainId, l.nonce);
    }
  }

  lemma CleanTextsDiffer(k: Key, l: Key)
    requires k.Clean() && l.Clean() && k.Text() == l.Text()
    ensures k == l
  {
    NonceKeyInjective(k.payer, k.chainId, k.nonce, l.payer, l.chainId, l.nonce);
  }

  lemma RepresentsPut(t: Table<string>, a: Table<Key>, k: Key, e: Entry)
    requires Represents(t, a) && k.Clean()
    ensures Represents(t[k.Text() := e], a[k := e])
  {
    var t', a' := t[k.Text() := e], a[k := e];
    forall l | l in a' ensures l.Clean() && l.Text() in t' && t'[l.Text()] == a'[l] {
      if l.Text() == k.Text() {
        CleanTextsDiffer(k, l);
      }
    }
    forall x | x in t' ensures exists l :: l in a' && l.Text() == x {
      if x == k.Text() {
        assert k in a';
      } else {
        var l :| l in a && l.Text() == x;
        assert l in a';
      }
    }
  }

  lemma RepresentsRemove(t: Table<string>, a: Table<Key>, k: Key)
    requires Represents(t, a) && k.Clean()
    ensures Represents(t - {k.Text()}, a - {k})
  {
    var t', a' := t - {k.Text()}, a - {k};
    forall l | l in a' ensures l.Clean() && l.Text() in t' && t'[l.Text()] == a'[l] {
      if l.Text() == k.Text() {
        CleanTextsDiffer(k, l);
      }
    }
    forall x | x in t' ensures exists l :: l in a' && l.Text() == x {
      var l :| l in a && l.Text() == x;
      assert l in a';
    }
  }

  lemma RepresentsCollect(t: Table<string>, a: Table<Key>, now: Instant)
    requires Represents(t, a)
    ensures Represents(CollectSpec(t, now), CollectSpec(a, now))
  {
    var t', a' := CollectSpec(t, now), CollectSpec(a, now);
    forall x | x in t' ensures exists l :: l in a' && l.Text() == x {
      var l :| l in a && l.Text() == x;
      assert l in a';
    }
  }

  lemma {:induction false} RepresentsSize(t: Table<string>, a: Table<Key>)
    requires Represents(t, a)
    ensures |t| == |a|
    decreases |a|
  {
    if a == map[] {
      assert t == map[] by {
        forall x ensures x !in t {
        }
      }
    } else {
      var k :| k in a;
      RepresentsRemove(t, a, k);
      RemovedSize(a, k);
      RemovedSize(t, k.Text());
      RepresentsSize(t - {k.Text()}, a - {k});
    }
  }

  /** Every operation on text keys answers as, and then represents, the same operation on triples. */
  lemma StoreRefinesTriples(t: Table<string>, a: Table<Key>, k: Key, deadline: int, txHash: string, now: Instant)
    requires Represents(t, a) && k.Clean()
    ensures k.Text() in t <==> k in a
    ensures ReserveSpec(t, k.Text(), deadline).1 == ReserveSpec(a, k, deadline).1
    ensures Represents(ReserveSpec(t, k.Text(), deadline).0, ReserveSpec(a, k, deadline).0)
    ensures CommitSpec(t, k.Text(), txHash).1 == CommitSpec(a, k, txHash).1
    ensures Represents(CommitSpec(t, k.Text(), txHash).0, CommitSpec(a, k, txHash).0)
    ensures ReleaseSpec(t, k.Text()).1 == ReleaseSpec(a, k).1
    ensures Represents(ReleaseSpec(t, k.Text()).0, ReleaseSpec(a, k).0)
    ensures Represents(CollectSpec(t, now), CollectSpec(a, now))
    ensures |t| - |CollectSpec(t, now)| == |a| - |CollectSpec(a, now)|
  {
    RepresentsMember(t, a, k);
    RepresentsPut(t, a, k, Entry(false, "", deadline));
    if k in a {
      RepresentsPut(t, a, k, Entry(true, txHash, a[k].deadline));
    }
    RepresentsRemove(t, a, k);
    RepresentsCollect(t, a, now);
    RepresentsSize(t, a);
    RepresentsSize(CollectSpec(t, now), CollectSpec(a, now));
  }
}
