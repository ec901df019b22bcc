/** Verification reserves no funds: exactly when a verified settle's account has stopped covering it. */
module Overdraft {
  import opened Wrappers
  import opened Decimals
  import opened Verifier
  import opened NonceStore
  import opened Protocol
  import opened ExactlyOnce
  import opened Conservation
  import opened Verdicts
  import opened Runs

  // ---- Chain answers that are true ----

  /** A limit or balance that the step is told of is the ledger's. */
  ghost predicate TruthfulStep(s: State, a: Action) {
    match a
    case QueryGrant(i, Grant(limit, _)) =>
      i in s.calls ==> IsAmount(limit) && Value(limit) == Get(s.ledger.limit, PayerAccount(AuthAt(s, i)))
    case QueryBalance(i, Balance(amount)) =>
      i in s.calls ==> IsAmount(amount) && Value(amount) == Get(s.ledger.balance, PayerAccount(AuthAt(s, i)))
    case _ => true
  }

  ghost predicate Truthful(env: Env, s: State, run: seq<Action>) {
    forall n | 0 <= n < |run| && Exec(env, s, run[..n]).Some? :: TruthfulStep(Exec(env, s, run[..n]).value, run[n])
  }

  // ---- Looking back into a run ----

  lemma RunSplits(env: Env, s: State, run: seq<Action>, n: nat)
    requires Exec(env, s, run).Some? && n <= |run|
    ensures Exec(env, s, run[..n]).Some?
    ensures Exec(env, Exec(env, s, run[..n]).value, run[n..]) == Exec(env, s, run)
    decreases |run|
  {
    if n == |run| {
      assert run[..n] == run && run[n..] == [];
    } else {
      var front := run[..|run| - 1];
      ExecPrefix(env, s, run);
      RunSplits(env, s, front, n);
      assert front[..n] == run[..n];
      assert run[..n] + run[n..] == run;
      ExecConcat(env, s, run[..n], run[n..]);
    }
  }

  lemma {:induction false} TookAt(env: Env, s: State, run: seq<Action>, a: Action, clock: Instant) returns (n: nat)
    requires Took(env, s, run, a, clock)
    ensures n < |run| && run[n] == a && Exec(env, s, run[..n]).Some?
    ensures Exec(env, s, run[..n]).value.clock == clock
    decreases |run|
  {
    var front := run[..|run| - 1];
    if Took(env, s, front, a, clock) {
      n := TookAt(env, s, front, a, clock);
      assert front[..n] == run[..n];
    } else {
      n := |run| - 1;
    }
  }

  // ---- Executed transactions persist ----

  ghost predicate ExecutedKept(s: State, s': State) {
    forall j | j in s.txs && s.txs[j].status == Executed :: j in s'.txs && s'.txs[j] == s.txs[j]
  }

  lemma StepKeepsExecuted(env: Env, s: State, a: Action, j: nat)
    requires Enabled(s, a) && TxInv(s) && j in s.txs && s.txs[j].status == Executed
    ensures j in Apply(env, s, a).txs && Apply(env, s, a).txs[j] == s.txs[j]
  {
    if a.AcceptTx? && a.i == j {
      ReservedHasNoTx(s, j);
    } else if OfCall(a) {
      SameTransactions(env, s, a, j);
    } else {
      ChainDecides(env, s, a, j);
    }
  }

  lemma GrantsGrow(env: Env, s: State, a: Action, account: Account)
    requires Enabled(s, a)
    ensures Get(Apply(env, s, a).ledger.granted, account) >= Get(s.ledger.granted, account)
    ensures Get(Apply(env, s, a).ledger.received, account) >= Get(s.ledger.received, account)
  {
  }

  lemma {:induction false} RunKeepsExecuted(env: Env, s: State, more: seq<Action>, account: Account)
    requires Exec(env, s, more).Some? && TxInv(s)
    ensures TxInv(Exec(env, s, more).value) && ExecutedKept(s, Exec(env, s, more).value)
    ensures Get(Exec(env, s, more).value.ledger.granted, account) >= Get(s.ledger.granted, account)
    ensures Get(Exec(env, s, more).value.ledger.received, account) >= Get(s.ledger.received, account)
    decreases |more|
  {
    if more != [] {
      ExecPrefix(env, s, more);
      var front, last := more[..|more| - 1], more[|more| - 1];
      var t := Exec(env, s, front).value;
      RunKeepsExecuted(env, s, front, account);
      StepKeepsTxInv(env, t, last);
      GrantsGrow(env, t, last, account);
      forall j | j in s.txs && s.txs[j].status == Executed
        ensures j in Apply(env, t, last).txs && Apply(env, t, last).txs[j] == s.txs[j]
      {
        StepKeepsExecuted(env, t, last, j);
      }
    }
  }

  /** More was spent, so a transaction was executed that had not been. */
  lemma SpentByANewOne(q: State, t: State, account: Account) returns (j: nat)
    requires ExecutedKept(q, t) && Spent(t, account) > Spent(q, account)
    ensures j in ExecutedFrom(t, account) && j !in ExecutedFrom(q, account)
  {
    var before, after := ExecutedFrom(q, account), ExecutedFrom(t, account);
    if after <= before {
      TotalAgrees(after, q.txs, t.txs);
      TotalOfSubset(after, before, q.txs);
    }
    j :| j in after && j !in before;
  }

  // ---- When a verified settle has stopped being covered ----

  /** The n-th step of the run asked for the call's grant, or balance, when the ledger showed this much. */
  ghost predicate AskedGrant(env: Env, s: State, run: seq<Action>, n: nat, i: nat, q: State) {
    n < |run| && run[n].QueryGrant? && run[n].i == i && Exec(env, s, run[..n]) == Some(q)
  }

  ghost predicate AskedBalance(env: Env, s: State, run: seq<Action>, n: nat, i: nat, q: State) {
    n < |run| && run[n].QueryBalance? && run[n].i == i && Exec(env, s, run[..n]) == Some(q)
  }

  /** Between two states of a run the limit falls by what was spent and grows by what was granted; so the balance. */
  lemma LedgerMoves(env: Env, s: State, run: seq<Action>, n: nat, q: State, t: State, account: Account)
    requires Initial(s) && n <= |run| && Exec(env, s, run[..n]) == Some(q) && Exec(env, s, run) == Some(t)
    ensures ExecutedKept(q, t)
    ensures Get(t.ledger.limit, account) - Get(q.ledger.limit, account) ==
      (Get(t.ledger.granted, account) - Get(q.ledger.granted, account)) - (Spent(t, account) - Spent(q, account))
    ensures Get(t.ledger.balance, account) - Get(q.ledger.balance, account) ==
      (Get(t.ledger.received, account) - Get(q.ledger.received, account)) - (Spent(t, account) - Spent(q, account))
    ensures Get(t.ledger.granted, account) >= Get(q.ledger.granted, account)
    ensures Get(t.ledger.received, account) >= Get(q.ledger.received, account)
  {
    RunSplits(env, s, run, n);
    RunKeepsBooks(env, s, run[..n]);
    RunKeepsBooks(env, s, run);
    RunKeepsExecuted(env, q, run[n..], account);
    assert Balanced(q, account) && Balanced(t, account);
  }

  lemma RequestPersists(env: Env, s: State, run: seq<Action>, n: nat, i: nat)
    requires Exec(env, s, run).Some? && n <= |run| && Exec(env, s, run[..n]).Some?
    requires i in Exec(env, s, run[..n]).value.calls
    ensures i in Exec(env, s, run).value.calls
    ensures AuthAt(Exec(env, s, run).value, i) == AuthAt(Exec(env, s, run[..n]).value, i)
  {
    RunSplits(env, s, run, n);
    RunExtends(env, Exec(env, s, run[..n]).value, run[n..]);
  }

  /** The step of a run was enabled where it was taken. */
  lemma StepWasEnabled(env: Env, s: State, run: seq<Action>, n: nat)
    requires Exec(env, s, run).Some? && n < |run|
    ensures Exec(env, s, run[..n]).Some? && Enabled(Exec(env, s, run[..n]).value, run[n])
  {
    RunSplits(env, s, run, n + 1);
    var upTo := run[..n + 1];
    ExecPrefix(env, s, upTo);
    assert upTo[..|upTo| - 1] == run[..n];
  }

  /**
   Where chain answers are true, a verified settle was covered by the limit when it asked, and it is no longer covered
   exactly when more has been spent from the account since than that left over and new grants brought; then another
   call's transaction from the account was executed since.
   */
  lemma LimitIsSpentByOthers(env: Env, s: State, run: seq<Action>, t: State, i: nat) returns (n: nat, q: State)
    requires Initial(s) && Exec(env, s, run) == Some(t) && Truthful(env, s, run)
    requires PastVerification(t, i) && IsAmount(AuthAt(t, i).amount)
    ensures AskedGrant(env, s, run, n, i, q)
    ensures var account, amount := PayerAccount(AuthAt(t, i)), Value(AuthAt(t, i).amount);
      && amount <= Get(q.ledger.limit, account)
      && (Get(t.ledger.limit, account) < amount <==>
            Spent(t, account) - Spent(q, account) >
              Get(q.ledger.limit, account) - amount + (Get(t.ledger.granted, account) - Get(q.ledger.granted, account)))
      && (Get(t.ledger.limit, account) < amount && i !in ExecutedFrom(t, account) ==>
            exists j :: j != i && j in ExecutedFrom(t, account) && j !in ExecutedFrom(q, account))
  {
    var obs := VerdictInEveryRun(env, s, run, i);
    var account, amount := PayerAccount(AuthAt(t, i)), AuthAt(t, i).amount;
    n := TookAt(env, s, run, QueryGrant(i, obs.grant), obs.grantClock);
    q := Exec(env, s, run[..n]).value;
    StepWasEnabled(env, s, run, n);
    RequestPersists(env, s, run, n, i);
    assert TruthfulStep(q, run[n]);
    AmountRule(amount, obs.grant.limit);
    LedgerMoves(env, s, run, n, q, t, account);
    if Get(t.ledger.limit, account) < Value(amount) {
      var j := SpentByANewOne(q, t, account);
    }
  }

  lemma BalanceWasAsked(env: Env, s: State, run: seq<Action>, t: State, i: nat, balance: BalanceAnswer)
    returns (n: nat, q: State)
    requires Exec(env, s, run) == Some(t) && Truthful(env, s, run) && QueryBalance(i, balance) in run
    ensures AskedBalance(env, s, run, n, i, q) && i in q.calls && i in t.calls && AuthAt(t, i) == AuthAt(q, i)
    ensures balance.Balance? ==>
      IsAmount(balance.amount) && Value(balance.amount) == Get(q.ledger.balance, PayerAccount(AuthAt(q, i)))
  {
    n :| 0 <= n < |run| && run[n] == QueryBalance(i, balance);
    StepWasEnabled(env, s, run, n);
    q := Exec(env, s, run[..n]).value;
    RequestPersists(env, s, run, n, i);
    assert TruthfulStep(q, run[n]);
  }

  lemma CoveredWhenAsked(env: Env, s: State, run: seq<Action>, t: State, i: nat) returns (n: nat, q: State)
    requires Initial(s) && Exec(env, s, run) == Some(t) && Truthful(env, s, run)
    requires PastVerification(t, i) && IsAmount(AuthAt(t, i).amount) && QueryBalance(i, BalanceFailure) !in run
    ensures AskedBalance(env, s, run, n, i, q)
    ensures Value(AuthAt(t, i).amount) <= Get(q.ledger.balance, PayerAccount(AuthAt(t, i)))
  {
    var obs := VerdictInEveryRun(env, s, run, i);
    n, q := BalanceWasAsked(env, s, run, t, i, obs.balance);
    AmountRule(AuthAt(t, i).amount, obs.balance.amount);
  }

  /** The same for the balance, when that query was answered. */
  lemma BalanceIsSpentByOthers(env: Env, s: State, run: seq<Action>, t: State, i: nat) returns (n: nat, q: State)
    requires Initial(s) && Exec(env, s, run) == Some(t) && Truthful(env, s, run)
    requires PastVerification(t, i) && IsAmount(AuthAt(t, i).amount) && QueryBalance(i, BalanceFailure) !in run
    ensures AskedBalance(env, s, run, n, i, q)
    ensures var account, amount := PayerAccount(AuthAt(t, i)), Value(AuthAt(t, i).amount);
      && amount <= Get(q.ledger.balance, account)
      && (Get(t.ledger.balance, account) < amount <==>
            Spent(t, account) - Spent(q, account) > Get(q.ledger.balance, account) - amount
              + (Get(t.ledger.received, account) - Get(q.ledger.received, account)))
      && (Get(t.ledger.balance, account) < amount && i !in ExecutedFrom(t, account) ==>
            exists j :: j != i && j in ExecutedFrom(t, account) && j !in ExecutedFrom(q, account))
  {
    n, q := CoveredWhenAsked(env, s, run, t, i);
    var account, amount := PayerAccount(AuthAt(t, i)), Value(AuthAt(t, i).amount);
    LedgerMoves(env, s, run, n, q, t, account);
    if Get(t.ledger.balance, account) < amount {
      var j := SpentByANewOne(q, t, account);
    }
  }

  /** Of two pending transactions from one account the first crowds the second out iff both together do not fit. */
  lemma CrowdedOutIff(env: Env, s: State, i: nat, j: nat)
    requires Enabled(s, Execute(i, true)) && Enabled(s, Execute(j, true)) && i != j
    requires s.txs[i].account == s.txs[j].account != s.txs[i].to
    ensures var s', account := Apply(env, s, Execute(i, true)), s.txs[i].account;
      Enabled(s', Execute(j, true)) <==> Covers(s.ledger, account, s.txs[i].amount + s.txs[j].amount)
  {
  }
}
