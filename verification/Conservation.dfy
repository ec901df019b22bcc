/** What the chain moved against what was granted, received and reported as settled, in every interleaving. */
module Conservation {
  import opened Wrappers
  import opened Types
  import opened Decimals
  import opened Coins
  import opened Verifier
  import opened Protocol
  import opened ExactlyOnce

  // ---- Sums over transactions ----

  ghost function Total(ids: set<nat>, txs: map<nat, Tx>): nat
    requires ids <= txs.Keys
  {
    if ids == {} then 0
    else
      var i :| i in ids;
      txs[i].amount + Total(ids - {i}, txs)
  }

  lemma {:induction false} TotalSplit(ids: set<nat>, txs: map<nat, Tx>, i: nat)
    requires ids <= txs.Keys && i in ids
    ensures Total(ids, txs) == txs[i].amount + Total(ids - {i}, txs)
    decreases |ids|
  {
    var j :| j in ids && Total(ids, txs) == txs[j].amount + Total(ids - {j}, txs);
    if i != j {
      TotalSplit(ids - {j}, txs, i);
      TotalSplit(ids - {i}, txs, j);
      assert ids - {j} - {i} == ids - {i} - {j};
    }
  }

  lemma {:induction false} TotalAgrees(ids: set<nat>, txs: map<nat, Tx>, txs': map<nat, Tx>)
    requires ids <= txs.Keys && ids <= txs'.Keys
    requires forall i | i in ids :: txs[i].amount == txs'[i].amount
    ensures Total(ids, txs) == Total(ids, txs')
    decreases |ids|
  {
    if ids != {} {
      var i :| i in ids;
      TotalSplit(ids, txs, i);
      TotalSplit(ids, txs', i);
      TotalAgrees(ids - {i}, txs, txs');
    }
  }

  lemma {:induction false} TotalOfSubset(few: set<nat>, many: set<nat>, txs: map<nat, Tx>)
    requires few <= many <= txs.Keys
    ensures Total(few, txs) <= Total(many, txs)
    decreases |few|
  {
    if few != {} {
      var i :| i in few;
      TotalSplit(few, txs, i);
      TotalSplit(many, txs, i);
      TotalOfSubset(few - {i}, many - {i}, txs);
    }
  }

  // ---- Accounts ----

  ghost function ExecutedFrom(s: State, account: Account): set<nat> {
    set i | i in s.txs && s.txs[i].status == Executed && s.txs[i].account == account
  }

  /** Everything the chain has taken from the account. */
  ghost function Spent(s: State, account: Account): nat {
    Total(ExecutedFrom(s, account), s.txs)
  }

  ghost function ExecutedTo(s: State, account: Account): set<nat> {
    set i | i in s.txs && s.txs[i].status == Executed && s.txs[i].to == account
  }

  /** Everything the chain has paid to the account. */
  ghost function Earned(s: State, account: Account): nat {
    Total(ExecutedTo(s, account), s.txs)
  }

  /** Successes whose signed text sends from the account. */
  ghost function SettledFrom(s: State, account: Account): set<nat> {
    set i | i in s.calls && Succeeded(s, i) && TxFor(AuthAt(s, i), "").Some?
      && TxFor(AuthAt(s, i), "").value.account == account
  }

  /** The call has been through a broadcast that the node may have accepted. */
  predicate AfterSubmission(p: Phase) {
    p.Submitted? || p.Landed? || p == Failed
    || (p.Done? && (p.response.Success? || p.response == Refused(BroadcastFailed)))
  }

  /** The transaction is what the signed amount and denom, read together, say; an executed one moved something. */
  predicate TxOf(s: State, i: nat)
    requires i in s.txs && i in s.calls
  {
    var tx, built := s.txs[i], TxFor(AuthAt(s, i), s.txs[i].hash);
    && built.Some? && tx == built.value.(status := tx.status)
    && (tx.status == Executed ==> tx.amount > 0)
  }

  predicate ExecutedAs(s: State, i: nat, hash: string) {
    i in s.txs && s.txs[i].status == Executed && s.txs[i].hash == hash
  }

  /** What a phase says about the call's transaction: a reported success is an executed transaction with that hash. */
  predicate TxFits(s: State, i: nat, p: Phase) {
    && (i in s.txs ==> AfterSubmission(p))
    && (p.Submitted? ==> i in s.txs && s.txs[i].hash == p.hash)
    && (p.Landed? ==> ExecutedAs(s, i, p.hash))
    && (p.Done? && p.response.Success? ==> ExecutedAs(s, i, p.response.transaction))
  }

  predicate TxGood(s: State, i: nat)
    requires i in s.calls
  {
    TxFits(s, i, s.calls[i].phase) && (i in s.txs ==> TxOf(s, i))
  }

  /** Every transaction is its call's. */
  ghost predicate TxInv(s: State) {
    s.txs.Keys <= s.calls.Keys && forall i | i in s.calls :: TxGood(s, i)
  }

  ghost predicate Balanced(s: State, account: Account) {
    && Spent(s, account) + Get(s.ledger.limit, account) == Get(s.ledger.granted, account)
    && Spent(s, account) + Get(s.ledger.balance, account) == Get(s.ledger.received, account)
    && Get(s.ledger.deposited, account) + Earned(s, account) == Get(s.ledger.received, account)
  }

  // ---- Preservation ----

  predicate SameSpending(tx: Tx, tx': Tx) {
    && tx.amount == tx'.amount && tx.account == tx'.account && tx.to == tx'.to
    && (tx.status == Executed <==> tx'.status == Executed)
  }

  lemma SpentUnchanged(s: State, s': State, account: Account)
    requires forall i | i in s.txs :: i in s'.txs && SameSpending(s.txs[i], s'.txs[i])
    requires forall i | i in s'.txs && i !in s.txs :: s'.txs[i].status != Executed
    ensures Spent(s', account) == Spent(s, account) && Earned(s', account) == Earned(s, account)
  {
    assert ExecutedFrom(s', account) == ExecutedFrom(s, account);
    assert ExecutedTo(s', account) == ExecutedTo(s, account);
    TotalAgrees(ExecutedFrom(s, account), s.txs, s'.txs);
    TotalAgrees(ExecutedTo(s, account), s.txs, s'.txs);
  }

  /** A transfer lowers the payer's limit and its balance against what was received, which grows for the recipient. */
  lemma TransferMoves(ledger: Ledger, from: Account, to: Account, amount: nat, account: Account)
    requires Covers(ledger, from, amount)
    ensures var after := Transfer(ledger, from, to, amount);
      var taken := if from == account then amount else 0;
      && after.granted == ledger.granted && after.deposited == ledger.deposited
      && Get(after.received, account) == Get(ledger.received, account) + (if to == account then amount else 0)
      && Get(after.limit, account) == Get(ledger.limit, account) - taken
      && Get(after.received, account) - Get(after.balance, account)
           == Get(ledger.received, account) - Get(ledger.balance, account) + taken
  {
  }

  lemma OneMoreInTotal(few: set<nat>, many: set<nat>, txs: map<nat, Tx>, txs': map<nat, Tx>, i: nat)
    requires i in txs && i !in few && few <= txs.Keys && many == few + {i}
    requires txs' == txs[i := txs[i].(status := Executed)]
    ensures Total(few, txs') == Total(few, txs) && Total(many, txs') == Total(few, txs) + txs[i].amount
  {
    TotalAgrees(few, txs, txs');
    TotalSplit(many, txs', i);
    assert many - {i} == few;
  }

  lemma ExecutedAddsToSpent(s: State, s': State, i: nat, account: Account)
    requires i in s.txs && s.txs[i].status == Pending && s'.txs == s.txs[i := s.txs[i].(status := Executed)]
    ensures Spent(s', account) == Spent(s, account) + (if s.txs[i].account == account then s.txs[i].amount else 0)
  {
    var before := ExecutedFrom(s, account);
    OneMoreInTotal(before, before + {i}, s.txs, s'.txs, i);
    assert ExecutedFrom(s', account) == if s.txs[i].account == account then before + {i} else before;
  }

  lemma ExecutedAddsToEarned(s: State, s': State, i: nat, account: Account)
    requires i in s.txs && s.txs[i].status == Pending && s'.txs == s.txs[i := s.txs[i].(status := Executed)]
    ensures Earned(s', account) == Earned(s, account) + (if s.txs[i].to == account then s.txs[i].amount else 0)
  {
    var before := ExecutedTo(s, account);
    OneMoreInTotal(before, before + {i}, s.txs, s'.txs, i);
    assert ExecutedTo(s', account) == if s.txs[i].to == account then before + {i} else before;
  }

  lemma ExecutionSpends(env: Env, s: State, i: nat, account: Account)
    requires Enabled(s, Execute(i, true)) && Balanced(s, account)
    ensures Balanced(Apply(env, s, Execute(i, true)), account)
  {
    var tx := s.txs[i];
    ExecutedAddsToSpent(s, Apply(env, s, Execute(i, true)), i, account);
    ExecutedAddsToEarned(s, Apply(env, s, Execute(i, true)), i, account);
    TransferMoves(s.ledger, tx.account, tx.to, tx.amount, account);
  }

  lemma TransactionsUntouched(env: Env, s: State, a: Action)
    requires Enabled(s, a) && !a.AcceptTx? && !a.Execute? && !a.RaiseLimit? && !a.Deposit?
    ensures Apply(env, s, a).txs == s.txs && Apply(env, s, a).ledger == s.ledger
  {
  }

  lemma AcceptAddsOne(env: Env, s: State, a: Action)
    requires a.AcceptTx? && Enabled(s, a)
    ensures var s' := Apply(env, s, a);
      && s'.ledger == s.ledger && s'.txs == s.txs[a.i := s'.txs[a.i]] && s'.txs[a.i].status == Pending
  {
  }

  lemma PendingSpendsNothing(s: State, s': State, i: nat, account: Account)
    requires Balanced(s, account) && i !in s.txs && s'.ledger == s.ledger
    requires i in s'.txs && s'.txs == s.txs[i := s'.txs[i]] && s'.txs[i].status == Pending
    ensures Balanced(s', account)
  {
    SpentUnchanged(s, s', account);
  }

  lemma ReservedHasNoTx(s: State, i: nat)
    requires TxInv(s) && At(s, i, Phase.Reserved)
    ensures i !in s.txs
  {
    assert TxGood(s, i);
  }

  lemma AcceptSpendsNothing(env: Env, s: State, a: Action, account: Account)
    requires TxInv(s) && a.AcceptTx? && Enabled(s, a) && Balanced(s, account)
    ensures Balanced(Apply(env, s, a), account)
  {
    ReservedHasNoTx(s, a.i);
    AcceptAddsOne(env, s, a);
    PendingSpendsNothing(s, Apply(env, s, a), a.i, account);
  }

  lemma RevertSpendsNothing(env: Env, s: State, i: nat, account: Account)
    requires Enabled(s, Execute(i, false)) && Balanced(s, account)
    ensures Balanced(Apply(env, s, Execute(i, false)), account)
  {
    SpentUnchanged(s, Apply(env, s, Execute(i, false)), account);
  }

  lemma IncomeSpendsNothing(env: Env, s: State, a: Action, account: Account)
    requires (a.RaiseLimit? || a.Deposit?) && Balanced(s, account)
    ensures Balanced(Apply(env, s, a), account)
  {
    SpentUnchanged(s, Apply(env, s, a), account);
  }

  lemma StepKeepsBalance(env: Env, s: State, a: Action, account: Account)
    requires TxInv(s) && Enabled(s, a) && Balanced(s, account)
    ensures Balanced(Apply(env, s, a), account)
  {
    if a.Execute? {
      if a.succeeds {
        ExecutionSpends(env, s, a.i, account);
      } else {
        RevertSpendsNothing(env, s, a.i, account);
      }
    } else if a.AcceptTx? {
      AcceptSpendsNothing(env, s, a, account);
    } else if a.RaiseLimit? || a.Deposit? {
      IncomeSpendsNothing(env, s, a, account);
    } else {
      TransactionsUntouched(env, s, a);
      SpentUnchanged(s, Apply(env, s, a), account);
    }
  }

  /** A call keeps its standing when its phase and its transaction stay, but for a decision of the chain. */
  lemma StaysGood(s: State, s': State, i: nat)
    requires i in s.calls && TxGood(s, i) && i in s'.calls && s'.calls[i] == s.calls[i]
    requires i in s.txs <==> i in s'.txs
    requires i in s.txs ==> s'.txs[i] == s.txs[i].(status := s'.txs[i].status)
    requires i in s.txs && s.txs[i].status == Executed ==> s'.txs[i].status == Executed
    requires i in s.txs && s'.txs[i].status == Executed ==> s'.txs[i].amount > 0
    ensures TxGood(s', i)
  {
  }

  lemma PhaseKeepsTxInv(s: State, s': State, i: nat, p: Phase)
    requires TxInv(s) && i in s.calls
    requires s'.calls == s.calls[i := s.calls[i].(phase := p)] && s'.txs == s.txs
    requires TxFits(s, i, p)
    ensures TxInv(s')
  {
    forall j | j in s'.calls ensures TxGood(s', j) {
      assert TxGood(s, j);
      if j != i {
        StaysGood(s, s', j);
      }
    }
  }

  lemma FollowingFits(s: State, a: Action, q: Phase)
    requires Enabled(s, a) && OfCall(a) && !a.AcceptTx? && a.i in s.calls && TxGood(s, a.i)
    requires Follows(a, s.calls[a.i].phase, q)
    ensures TxFits(s, a.i, q)
  {
  }

  lemma CallStepKeepsTxInv(env: Env, s: State, a: Action)
    requires TxInv(s) && Enabled(s, a) && OfCall(a) && !a.AcceptTx?
    ensures TxInv(Apply(env, s, a))
  {
    var q := Apply(env, s, a).calls[a.i].phase;
    CallStep(env, s, a);
    assert TxGood(s, a.i);
    FollowingFits(s, a, q);
    TransactionsUntouched(env, s, a);
    PhaseKeepsTxInv(s, Apply(env, s, a), a.i, q);
  }

  lemma AcceptKeepsTxInv(env: Env, s: State, a: Action)
    requires TxInv(s) && a.AcceptTx? && Enabled(s, a)
    ensures TxInv(Apply(env, s, a))
  {
    var s' := Apply(env, s, a);
    CallStep(env, s, a);
    forall j | j in s'.calls ensures TxGood(s', j) {
      assert TxGood(s, j);
      if j != a.i {
        StaysGood(s, s', j);
      }
    }
  }

  /** Off the calls' own steps the chain may decide a pending transaction, and nothing else happens to any. */
  lemma ChainDecides(env: Env, s: State, a: Action, j: nat)
    requires Enabled(s, a) && !OfCall(a)
    ensures var txs := Apply(env, s, a).txs;
      && (j in txs <==> j in s.txs)
      && (j in s.txs ==> txs[j] == s.txs[j].(status := txs[j].status))
      && (j in s.txs && txs[j] != s.txs[j] ==> s.txs[j].status == Pending)
      && (j in s.txs && txs[j] != s.txs[j] && txs[j].status == Executed ==> txs[j].amount > 0)
  {
  }

  lemma SameTransactions(env: Env, s: State, a: Action, u: nat)
    requires Enabled(s, a) && OfCall(a) && !(a.AcceptTx? && a.i == u)
    ensures Apply(env, s, a).ledger == s.ledger
    ensures u in s.txs ==> u in Apply(env, s, a).txs && Apply(env, s, a).txs[u] == s.txs[u]
  {
  }

  lemma OtherStepKeepsTxInv(env: Env, s: State, a: Action)
    requires TxInv(s) && !OfCall(a) && Enabled(s, a)
    ensures TxInv(Apply(env, s, a))
  {
    var s' := Apply(env, s, a);
    OtherStep(env, s, a);
    forall j ensures (j in s'.txs ==> j in s'.calls) && (j in s'.calls ==> TxGood(s', j)) {
      ChainDecides(env, s, a, j);
      if j in s.calls {
        assert TxGood(s, j);
        StaysGood(s, s', j);
      }
    }
  }

  lemma StepKeepsTxInv(env: Env, s: State, a: Action)
    requires TxInv(s) && Enabled(s, a)
    ensures TxInv(Apply(env, s, a))
  {
    if a.AcceptTx? {
      AcceptKeepsTxInv(env, s, a);
    } else if OfCall(a) {
      CallStepKeepsTxInv(env, s, a);
    } else {
      OtherStepKeepsTxInv(env, s, a);
    }
  }

  lemma {:induction false} RunKeepsBooks(env: Env, s: State, actions: seq<Action>)
    requires Initial(s) && Exec(env, s, actions).Some?
    ensures TxInv(Exec(env, s, actions).value)
    ensures forall account :: Balanced(Exec(env, s, actions).value, account)
    decreases |actions|
  {
    if actions == [] {
      forall account ensures Balanced(s, account) {
        assert ExecutedFrom(s, account) == ExecutedTo(s, account) == {};
      }
    } else {
      ExecPrefix(env, s, actions);
      var front, last := actions[..|actions| - 1], actions[|actions| - 1];
      RunKeepsBooks(env, s, front);
      var t := Exec(env, s, front).value;
      StepKeepsTxInv(env, t, last);
      forall account ensures Balanced(Apply(env, t, last), account) {
        StepKeepsBalance(env, t, last, account);
      }
    }
  }

  // ---- What came in during a run ----

  function RaisedBy(a: Action, account: Account): nat {
    if a.RaiseLimit? && a.account == account then a.more else 0
  }

  function PaidInBy(a: Action, account: Account): nat {
    if a.Deposit? && a.account == account then a.more else 0
  }

  /** What the run's grants added to the account's limit. */
  function Raised(actions: seq<Action>, account: Account): nat {
    if actions == [] then 0
    else Raised(actions[..|actions| - 1], account) + RaisedBy(actions[|actions| - 1], account)
  }

  /** What was paid into the account from elsewhere. */
  function PaidIn(actions: seq<Action>, account: Account): nat {
    if actions == [] then 0
    else PaidIn(actions[..|actions| - 1], account) + PaidInBy(actions[|actions| - 1], account)
  }

  lemma StepTakesIn(env: Env, s: State, a: Action, account: Account)
    requires Enabled(s, a)
    ensures var s' := Apply(env, s, a);
      && Get(s'.ledger.granted, account) == Get(s.ledger.granted, account) + RaisedBy(a, account)
      && Get(s'.ledger.deposited, account) == Get(s.ledger.deposited, account) + PaidInBy(a, account)
  {
  }

  lemma {:induction false} RunTakesIn(env: Env, s: State, actions: seq<Action>, account: Account)
    requires Exec(env, s, actions).Some?
    ensures var t := Exec(env, s, actions).value;
      && Get(t.ledger.granted, account) == Get(s.ledger.granted, account) + Raised(actions, account)
      && Get(t.ledger.deposited, account) == Get(s.ledger.deposited, account) + PaidIn(actions, account)
    decreases |actions|
  {
    if actions != [] {
      ExecPrefix(env, s, actions);
      var front := actions[..|actions| - 1];
      RunTakesIn(env, s, front, account);
      StepTakesIn(env, Exec(env, s, front).value, actions[|actions| - 1], account);
    }
  }

  // ---- Results ----

  /**
   In every run, collection included and with no hypothesis: what was executed from an account and what remains of its
   limit add up to what it was granted; what was executed and what is in the account, to what it held at first, was paid
   in, and what was executed in its favour; and its settled payments sum to no more than the executed ones.
   */
  lemma Conserved(env: Env, s: State, actions: seq<Action>, account: Account)
    requires Initial(s) && Exec(env, s, actions).Some?
    ensures var t := Exec(env, s, actions).value;
      && Spent(t, account) + Get(t.ledger.limit, account) == Get(t.ledger.granted, account)
      && Spent(t, account) + Get(t.ledger.balance, account) == Get(t.ledger.received, account)
      && Get(t.ledger.granted, account) == Get(s.ledger.limit, account) + Raised(actions, account)
      && Get(t.ledger.received, account) ==
           Get(s.ledger.balance, account) + PaidIn(actions, account) + Earned(t, account)
      && SettledFrom(t, account) <= t.txs.Keys
      && Total(SettledFrom(t, account), t.txs) <= Spent(t, account)
  {
    RunKeepsBooks(env, s, actions);
    RunTakesIn(env, s, actions, account);
    var t := Exec(env, s, actions).value;
    assert Balanced(t, account);
    forall i | i in SettledFrom(t, account) ensures i in ExecutedFrom(t, account) {
      assert TxGood(t, i);
    }
    TotalOfSubset(SettledFrom(t, account), ExecutedFrom(t, account), t.txs);
  }

  /**
   A reported success is an executed transaction of the reported hash that moved what the signed amount and denom, read
   together, say. That is the signed number of the signed denom exactly for a digit string before a valid denom.
   */
  lemma SuccessIsExecuted(env: Env, s: State, actions: seq<Action>, i: nat)
    requires Initial(s) && Exec(env, s, actions).Some? && Succeeded(Exec(env, s, actions).value, i)
    ensures var t := Exec(env, s, actions).value;
      var a, hash := AuthAt(t, i), t.calls[i].phase.response.transaction;
      && i in t.txs && t.txs[i].status == Executed && t.txs[i].amount > 0
      && TxFor(a, hash).Some? && t.txs[i] == TxFor(a, hash).value.(status := Executed)
      && ((t.txs[i].account == PayerAccount(a) && ParseInteger(a.amount) == Some(t.txs[i].amount)) <==>
            (IsAmount(a.amount) && ValidDenom(a.denom)))
  {
    RunKeepsBooks(env, s, actions);
    var t := Exec(env, s, actions).value;
    assert TxGood(t, i);
    SentAsSignedIff(AuthAt(t, i).amount, AuthAt(t, i).denom);
  }

  // ---- Replay bound ----

  ghost function ExecutedFor(s: State, k: string): set<nat> {
    set i | i in s.txs && i in s.calls && s.txs[i].status == Executed && KeyAt(s, i) == k
  }

  ghost function SucceededFor(s: State, k: string): set<nat> {
    set i | i in s.calls && Succeeded(s, i) && KeyAt(s, i) == k
  }

  /** Accepted by the node, answer not yet decided. */
  ghost function InFlightFor(s: State, k: string): set<nat> {
    set i | i in s.calls && (s.calls[i].phase.Submitted? || s.calls[i].phase.Landed?) && KeyAt(s, i) == k
  }

  /** Accepted by the node, but the broadcast reported an error. */
  ghost function UnconfirmedFor(s: State, k: string): set<nat> {
    set i | i in s.txs && i in s.calls && KeyAt(s, i) == k
      && (s.calls[i].phase == Failed || s.calls[i].phase == Done(Refused(BroadcastFailed)))
  }

  lemma AtMostOne(ids: set<nat>)
    requires forall i, j | i in ids && j in ids :: i == j
    ensures |ids| <= 1
  {
    if ids != {} {
      var i :| i in ids;
      assert ids == {i};
    }
  }

  lemma UnionSize(a: set<nat>, b: set<nat>)
    ensures |a + b| <= |a| + |b|
  {
    assert a + b == a + (b - a);
    SubsetSize(b - a, b);
  }

  lemma {:induction false} SubsetSize(a: set<nat>, b: set<nat>)
    requires a <= b
    ensures |a| <= |b|
    decreases |a|
  {
    if a != {} {
      var i :| i in a;
      SubsetSize(a - {i}, b - {i});
    }
  }

  lemma ExecutedIsCovered(s: State, k: string)
    requires TxInv(s)
    ensures ExecutedFor(s, k) <= SucceededFor(s, k) + InFlightFor(s, k) + UnconfirmedFor(s, k)
  {
    forall i | i in ExecutedFor(s, k) ensures i in SucceededFor(s, k) + InFlightFor(s, k) + UnconfirmedFor(s, k) {
      assert TxGood(s, i);
    }
  }

  lemma SureSendWins(env: Env, s: State, k: string, i: nat)
    requires TxInv(s) && i in ExecutedFor(s, k) && i in SucceededFor(s, k) + InFlightFor(s, k)
    ensures ClaimsKey(s, i, k) && PossibleWinner(env, s, k, i)
  {
  }

  /** At most one executed send belongs to a success or a broadcast in flight. */
  lemma OneSureSend(env: Env, s: State, k: string)
    requires TxInv(s) && (Tame(s, k) || LoneWinner(env, s, k))
    ensures |ExecutedFor(s, k) * (SucceededFor(s, k) + InFlightFor(s, k))| <= 1
  {
    var sure := ExecutedFor(s, k) * (SucceededFor(s, k) + InFlightFor(s, k));
    forall i, j | i in sure && j in sure ensures i == j {
      SureSendWins(env, s, k, i);
      SureSendWins(env, s, k, j);
    }
    AtMostOne(sure);
  }

  lemma OneOwner(s: State, k: string)
    requires UniqueClaim(s, k)
    ensures |SucceededFor(s, k) + InFlightFor(s, k)| <= 1
  {
    var sure := SucceededFor(s, k) + InFlightFor(s, k);
    forall i, j | i in sure && j in sure ensures i == j {
      assert ClaimsKey(s, i, k) && ClaimsKey(s, j, k);
    }
    AtMostOne(sure);
  }

  /** Runs without collection, and disciplined runs. */
  ghost predicate Regular(env: Env, s: State, actions: seq<Action>)
    requires Exec(env, s, actions).Some?
  {
    GcFree(actions) || Disciplined(env, s, actions)
  }

  /**
   In runs without collection and in disciplined ones the sends executed for a key number at most its successes,
   broadcasts in flight and broadcasts accepted but reported as failed; at most one of them is not of the last kind.
   */
  lemma ReplayBound(env: Env, s: State, actions: seq<Action>, k: string)
    requires Initial(s) && Exec(env, s, actions).Some? && Regular(env, s, actions)
    ensures var t := Exec(env, s, actions).value;
      && ExecutedFor(t, k) <= SucceededFor(t, k) + InFlightFor(t, k) + UnconfirmedFor(t, k)
      && |ExecutedFor(t, k)| <= |SucceededFor(t, k)| + |InFlightFor(t, k)| + |UnconfirmedFor(t, k)|
      && |ExecutedFor(t, k) * (SucceededFor(t, k) + InFlightFor(t, k))| <= 1
      && |ExecutedFor(t, k)| <= 1 + |UnconfirmedFor(t, k)|
      && (GcFree(actions) ==> |SucceededFor(t, k) + InFlightFor(t, k)| <= 1)
  {
    RunKeepsBooks(env, s, actions);
    RunKeepsInv(env, s, actions, !GcFree(actions));
    var t := Exec(env, s, actions).value;
    assert Tame(t, k) || LoneWinner(env, t, k);
    if GcFree(actions) {
      OneOwner(t, k);
    }
    BoundFromInvariants(env, t, k);
  }

  lemma BoundFromInvariants(env: Env, s: State, k: string)
    requires TxInv(s) && (Tame(s, k) || LoneWinner(env, s, k))
    ensures ExecutedFor(s, k) <= SucceededFor(s, k) + InFlightFor(s, k) + UnconfirmedFor(s, k)
    ensures |ExecutedFor(s, k)| <= |SucceededFor(s, k)| + |InFlightFor(s, k)| + |UnconfirmedFor(s, k)|
    ensures |ExecutedFor(s, k) * (SucceededFor(s, k) + InFlightFor(s, k))| <= 1
    ensures |ExecutedFor(s, k)| <= 1 + |UnconfirmedFor(s, k)|
  {
    ExecutedIsCovered(s, k);
    OneSureSend(env, s, k);
    CountSends(ExecutedFor(s, k), SucceededFor(s, k), InFlightFor(s, k), UnconfirmedFor(s, k));
  }

  lemma CountSends(all: set<nat>, a: set<nat>, b: set<nat>, c: set<nat>)
    requires all <= a + b + c
    ensures |all| <= |a| + |b| + |c| && |all| <= |all * (a + b)| + |c|
  {
    UnionSize(a, b);
    UnionSize(a + b, c);
    SubsetSize(all, a + b + c);
    UnionSize(all * (a + b), c);
    SubsetSize(all, all * (a + b) + c);
  }
}
