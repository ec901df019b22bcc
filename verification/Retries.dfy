/** Exactly when a retry pays a second time: the first broadcast was accepted, reported as failed, and not reverted. */
module Retries {
  import opened Wrappers
  import opened Types
  import opened NonceStore
  import opened Verifier
  import opened Settler
  import opened Protocol
  import opened ExactlyOnce
  import opened Conservation
  import opened Runs
  import opened Hazards

  /** The transaction has been or can still be executed. */
  predicate Viable(s: State, u: nat) {
    u in s.txs && (s.txs[u].status == Executed || (s.txs[u].status == Pending && CanMove(s.ledger, s.txs[u])))
  }

  /** The broadcast was reported as failed, and its transaction is viable. */
  ghost predicate Live(s: State, k: string, u: nat) {
    u in UnconfirmedFor(s, k) && Viable(s, u)
  }

  /** The transaction of call u has been or is now executed. */
  lemma ExecuteLive(env: Env, start: State, actions: seq<Action>, t: State, u: nat)
    returns (longer: seq<Action>, s: State)
    requires Exec(env, start, actions) == Some(t) && Viable(t, u)
    ensures Exec(env, start, longer) == Some(s) && Longer(actions, longer)
    ensures s == t.(txs := t.txs[u := t.txs[u].(status := Executed)], ledger := s.ledger)
    ensures s.ledger.closed == t.ledger.closed
  {
    longer, s := actions, t;
    if t.txs[u].status == Pending {
      longer, s := ExecutePending(env, start, actions, t, u);
    }
    assert s.txs == t.txs[u := t.txs[u].(status := Executed)];
  }

  lemma ReserveVerified(env: Env, start: State, actions: seq<Action>, t: State, v: State, c: nat, req: PaymentRequest)
    returns (longer: seq<Action>, s: State)
    requires Exec(env, start, actions) == Some(v) && KeyOf(req) !in t.store
    requires Moved(t, v, c, SettleCall, req, Verified)
    ensures Exec(env, start, longer) == Some(s) && Longer(actions, longer)
    ensures s == t.(calls := t.calls[c := Call(SettleCall, req, Phase.Reserved)], store := s.store)
  {
    longer, s := DoReserve(env, start, actions, v, c, req);
    assert s.calls == t.calls[c := Call(SettleCall, req, Phase.Reserved)];
  }

  lemma ReserveAnew(env: Env, start: State, actions: seq<Action>, t: State, c: nat, req: PaymentRequest,
                    grant: GrantAnswer, balance: BalanceAnswer)
    returns (longer: seq<Action>, s: State)
    requires Exec(env, start, actions) == Some(t) && c !in t.calls && KeyOf(req) !in t.store
    requires Acceptable(env, req, t.clock, grant, balance)
    ensures Exec(env, start, longer) == Some(s) && Longer(actions, longer)
    ensures s == t.(calls := t.calls[c := Call(SettleCall, req, Phase.Reserved)], store := s.store)
  {
    var v;
    longer, v := Prepare(env, start, actions, t, c, req, grant, balance);
    longer, s := ReserveVerified(env, start, longer, t, v, c, req);
  }

  lemma AnewCanConfirm(t: State, s: State, c: nat, req: PaymentRequest)
    requires Sendable(t.ledger, req.Auth()) && s.ledger == t.ledger
    requires c in s.calls && s.calls[c] == Call(SettleCall, req, Phase.Reserved)
    ensures CanConfirm(s, c)
  {
  }

  lemma SettleOnceMore(env: Env, start: State, actions: seq<Action>, t: State, c: nat, req: PaymentRequest,
                       grant: GrantAnswer, balance: BalanceAnswer, hash: string)
    returns (longer: seq<Action>, s: State)
    requires Exec(env, start, actions) == Some(t) && c !in t.calls && KeyOf(req) !in t.store
    requires Acceptable(env, req, t.clock, grant, balance) && Sendable(t.ledger, req.Auth())
    ensures Exec(env, start, longer) == Some(s) && Longer(actions, longer)
    ensures Succeeded(s, c) && s.calls == t.calls[c := s.calls[c]] && s.calls[c].req == req
    ensures forall u | u != c :: u in t.txs <==> u in s.txs
    ensures forall u | u != c && u in t.txs :: s.txs[u] == t.txs[u]
  {
    var v, h;
    longer, v := ReserveAnew(env, start, actions, t, c, req, grant, balance);
    AnewCanConfirm(t, v, c, req);
    longer, s, h := ConfirmHolder(env, start, longer, v, c, hash);
    ConfirmedAnew(t, v, s, c, req, h);
  }

  lemma ConfirmedAnew(t: State, v: State, s: State, c: nat, req: PaymentRequest, h: string)
    requires c !in t.calls && v.calls == t.calls[c := Call(SettleCall, req, Phase.Reserved)] && v.txs == t.txs
    requires Reaches(v, s, c, Done(Success(h)))
    ensures Succeeded(s, c) && s.calls == t.calls[c := s.calls[c]] && s.calls[c].req == req
    ensures forall u | u != c :: u in t.txs <==> u in s.txs
    ensures forall u | u != c && u in t.txs :: s.txs[u] == t.txs[u]
  {
  }

  lemma SendableKept(ledger: Ledger, ledger': Ledger, a: Authorization)
    requires Sendable(ledger, a) && ledger'.closed == ledger.closed
    ensures Sendable(ledger', a)
  {
  }

  /**
   In any state of any run: after a broadcast whose transaction is viable, with the key free again, one more acceptable
   request for the key that can be sent can lead to both transactions executed, with no collection and no other failure.
   */
  lemma RetryPaysTwice(env: Env, start: State, run: seq<Action>, t: State, u: nat, c: nat, req: PaymentRequest,
                       grant: GrantAnswer, balance: BalanceAnswer, hash: string)
    returns (longer: seq<Action>, s: State)
    requires Initial(start) && Exec(env, start, run) == Some(t)
    requires u in t.calls && Viable(t, u) && KeyAt(t, u) == KeyOf(req)
    requires KeyOf(req) !in t.store && c !in t.calls && Acceptable(env, req, t.clock, grant, balance)
    requires Sendable(t.ledger, req.Auth())
    ensures Exec(env, start, longer) == Some(s) && Longer(run, longer)
    ensures u != c && u in ExecutedFor(s, KeyOf(req)) && c in ExecutedFor(s, KeyOf(req)) && Succeeded(s, c)
    ensures s.calls == t.calls[c := s.calls[c]] && s.calls[c].req == req
    ensures UnconfirmedFor(s, KeyOf(req)) == UnconfirmedFor(t, KeyOf(req))
  {
    var v;
    longer, v := ExecuteLive(env, start, run, t, u);
    SendableKept(t.ledger, v.ledger, req.Auth());
    longer, s := SettleOnceMore(env, start, longer, v, c, req, grant, balance, hash);
    BothExecuted(env, start, longer, s, u, c, KeyOf(req));
    SameUnconfirmed(t, s, c, KeyOf(req));
  }

  lemma BothExecuted(env: Env, start: State, run: seq<Action>, s: State, u: nat, c: nat, k: string)
    requires Initial(start) && Exec(env, start, run) == Some(s) && Succeeded(s, c) && KeyAt(s, c) == k
    requires u in s.calls && KeyAt(s, u) == k && u in s.txs && s.txs[u].status == Executed
    ensures u in ExecutedFor(s, k) && c in ExecutedFor(s, k)
  {
    SuccessIsExecuted(env, start, run, c);
  }

  /** One more call that succeeds changes no one's standing as unconfirmed. */
  lemma SameUnconfirmed(t: State, s: State, c: nat, k: string)
    requires c !in t.calls && c in s.calls && s.calls == t.calls[c := s.calls[c]] && Succeeded(s, c)
    requires forall u | u != c :: u in t.txs <==> u in s.txs
    ensures UnconfirmedFor(s, k) == UnconfirmedFor(t, k)
  {
  }

  // ---- The converse ----

  lemma ClosedStays(env: Env, s: State, a: Action)
    requires Enabled(s, a)
    ensures Apply(env, s, a).ledger.closed == s.ledger.closed
  {
  }

  lemma UnviableIsNotExecuted(env: Env, s: State, a: Action, u: nat)
    requires Enabled(s, a) && a.Execute? && u in s.txs && !Viable(s, u)
    ensures u in Apply(env, s, a).txs && Apply(env, s, a).txs[u].status != Executed
    ensures Apply(env, s, a).txs[u] == s.txs[u] || Apply(env, s, a).txs[u].status == Reverted
  {
  }

  lemma OthersLeaveTransactions(env: Env, s: State, a: Action)
    requires Enabled(s, a) && !OfCall(a) && !a.Execute?
    ensures Apply(env, s, a).txs == s.txs
  {
  }

  lemma UnviableStays(env: Env, s: State, a: Action, u: nat)
    requires Enabled(s, a) && u in s.txs && !Viable(s, u) && TxInv(s)
    ensures u in Apply(env, s, a).txs && !Viable(Apply(env, s, a), u)
  {
    if a.AcceptTx? && a.i == u {
      ReservedHasNoTx(s, u);
    } else if OfCall(a) {
      SameTransactions(env, s, a, u);
    } else if a.Execute? {
      UnviableIsNotExecuted(env, s, a, u);
      ClosedStays(env, s, a);
    } else {
      OthersLeaveTransactions(env, s, a);
      ClosedStays(env, s, a);
    }
  }

  lemma {:induction false} UnviableIsFinal(env: Env, s: State, more: seq<Action>, u: nat)
    requires Exec(env, s, more).Some? && u in s.txs && !Viable(s, u) && TxInv(s)
    ensures TxInv(Exec(env, s, more).value)
    ensures u in Exec(env, s, more).value.txs && !Viable(Exec(env, s, more).value, u)
    decreases |more|
  {
    if more != [] {
      ExecPrefix(env, s, more);
      var front, last := more[..|more| - 1], more[|more| - 1];
      UnviableIsFinal(env, s, front, u);
      UnviableStays(env, Exec(env, s, front).value, last, u);
      StepKeepsTxInv(env, Exec(env, s, front).value, last);
    }
  }

  /** The continuation ends with two executed sends for the key, and no broadcast for it failed on the way. */
  ghost predicate PaysTwice(env: Env, t: State, more: seq<Action>, k: string) {
    Exec(env, t, more).Some? &&
    var v := Exec(env, t, more).value;
    UnconfirmedFor(v, k) == UnconfirmedFor(t, k) && |ExecutedFor(v, k)| >= 2
  }

  lemma SecondSendWasUnconfirmed(v: State, k: string) returns (u: nat)
    requires |ExecutedFor(v, k)| >= 2 && |ExecutedFor(v, k) * (SucceededFor(v, k) + InFlightFor(v, k))| <= 1
    requires ExecutedFor(v, k) <= SucceededFor(v, k) + InFlightFor(v, k) + UnconfirmedFor(v, k)
    ensures u in ExecutedFor(v, k) && u in UnconfirmedFor(v, k)
  {
    var sure := ExecutedFor(v, k) * (SucceededFor(v, k) + InFlightFor(v, k));
    if ExecutedFor(v, k) <= sure {
      SubsetSize(ExecutedFor(v, k), sure);
    }
    u :| u in ExecutedFor(v, k) && u !in sure;
  }

  /** The run and its continuation are regular, with no collection in the continuation. */
  ghost predicate RegularOn(env: Env, start: State, run: seq<Action>, more: seq<Action>) {
    GcFree(more) && Exec(env, start, run + more).Some? && Regular(env, start, run + more)
  }

  lemma PaidTwiceHadLive(env: Env, start: State, run: seq<Action>, t: State, more: seq<Action>, k: string)
    returns (u: nat)
    requires Initial(start) && Exec(env, start, run) == Some(t) && RegularOn(env, start, run, more)
    requires PaysTwice(env, t, more, k)
    ensures Live(t, k, u)
  {
    ExecConcat(env, start, run, more);
    ReplayBound(env, start, run + more, k);
    u := SecondSendWasUnconfirmed(Exec(env, t, more).value, k);
    RunKeepsBooks(env, start, run);
    if !Viable(t, u) {
      UnviableIsFinal(env, t, more, u);
    }
  }

  /** One more call that carries the request keeps the run's hypotheses. */
  ghost predicate FreshWith(t: State, req: PaymentRequest) {
    && Deadline(req.Auth().validBefore) == req.Auth().validBefore
    && forall i | i in t.calls && KeyAt(t, i) == KeyOf(req) :: AuthAt(t, i).validBefore == req.Auth().validBefore
  }

  lemma FreshWithOneMore(t: State, s: State, c: nat, req: PaymentRequest)
    requires Fresh(t) && ExactDeadlines(t) && FreshWith(t, req)
    requires c !in t.calls && c in s.calls && s.calls == t.calls[c := s.calls[c]] && s.calls[c].req == req
    ensures Fresh(s) && ExactDeadlines(s)
  {
    forall i | i in s.calls ensures Deadline(AuthAt(s, i).validBefore) == AuthAt(s, i).validBefore {
      assert i != c ==> AuthAt(s, i) == AuthAt(t, i);
    }
    forall i, j | i in s.calls && j in s.calls && KeyAt(s, i) == KeyAt(s, j)
      ensures AuthAt(s, i).validBefore == AuthAt(s, j).validBefore
    {
      assert i != c ==> KeyAt(s, i) == KeyAt(t, i);
      assert j != c ==> KeyAt(s, j) == KeyAt(t, j);
    }
  }

  lemma LivePaysTwice(env: Env, start: State, run: seq<Action>, t: State, u: nat, c: nat, req: PaymentRequest,
                      grant: GrantAnswer, balance: BalanceAnswer, hash: string)
    returns (more: seq<Action>)
    requires Initial(start) && Exec(env, start, run) == Some(t) && Live(t, KeyOf(req), u)
    requires GcFree(run) || (Disciplined(env, start, run) && FreshWith(t, req))
    requires KeyOf(req) !in t.store && c !in t.calls && Acceptable(env, req, t.clock, grant, balance)
    requires Sendable(t.ledger, req.Auth())
    ensures RegularOn(env, start, run, more) && PaysTwice(env, t, more, KeyOf(req))
  {
    var longer, s := RetryPaysTwice(env, start, run, t, u, c, req, grant, balance, hash);
    TwoMembers(ExecutedFor(s, KeyOf(req)), u, c);
    StaysRegular(env, start, run, longer, t, s, c, req);
    more := longer[|run|..];
    SplitRun(env, start, run, t, longer);
  }

  lemma SplitRun(env: Env, start: State, run: seq<Action>, t: State, longer: seq<Action>)
    requires Exec(env, start, run) == Some(t) && Longer(run, longer)
    ensures run + longer[|run|..] == longer && GcFree(longer[|run|..])
    ensures Exec(env, t, longer[|run|..]) == Exec(env, start, longer)
  {
    ExecConcat(env, start, run, longer[|run|..]);
    assert run + longer[|run|..] == longer;
  }

  lemma StaysRegular(env: Env, start: State, run: seq<Action>, longer: seq<Action>, t: State, s: State, c: nat,
                     req: PaymentRequest)
    requires Exec(env, start, run) == Some(t) && Exec(env, start, longer) == Some(s) && Longer(run, longer)
    requires GcFree(run) || (Disciplined(env, start, run) && FreshWith(t, req))
    requires c !in t.calls && c in s.calls && s.calls == t.calls[c := s.calls[c]] && s.calls[c].req == req
    ensures Regular(env, start, longer)
  {
    if !GcFree(run) {
      FreshWithOneMore(t, s, c, req);
      ClearLonger(env, start, run, longer);
    }
  }

  /**
   After any run without collection, and after any disciplined run that stays fresh, with the key free and one more
   acceptable request for it that can be sent: a continuation without collection or further failure executes two sends
   for the key if and only if an earlier broadcast for the key, reported as failed, has a viable transaction.
   */
  lemma PaidTwiceIff(env: Env, start: State, run: seq<Action>, t: State, c: nat, req: PaymentRequest,
                     grant: GrantAnswer, balance: BalanceAnswer)
    requires Initial(start) && Exec(env, start, run) == Some(t)
    requires GcFree(run) || (Disciplined(env, start, run) && FreshWith(t, req))
    requires KeyOf(req) !in t.store && c !in t.calls && Acceptable(env, req, t.clock, grant, balance)
    requires Sendable(t.ledger, req.Auth())
    ensures (exists more :: RegularOn(env, start, run, more) && PaysTwice(env, t, more, KeyOf(req)))
      <==> (exists u :: Live(t, KeyOf(req), u))
  {
    if more :| RegularOn(env, start, run, more) && PaysTwice(env, t, more, KeyOf(req)) {
      var u := PaidTwiceHadLive(env, start, run, t, more, KeyOf(req));
    }
    if u :| Live(t, KeyOf(req), u) {
      var more := LivePaysTwice(env, start, run, t, u, c, req, grant, balance, "");
    }
  }

  lemma TwoMembers(ids: set<nat>, u: nat, c: nat)
    requires u in ids && c in ids && u != c
    ensures |ids| >= 2
  {
    SubsetSize({u, c}, ids);
  }
}
